/**
 * The Windows path helpers the application calls: `os.path.splitdrive`,
 * `split`, `basename`, `dirname`, `splitext` and `join` (the `ntpath` module),
 * and `pathlib.PureWindowsPath(...).suffix`.
 */
module Paths {

  /** Both `\` and `/` separate path components on Windows. */
  predicate IsSep(c: char) {
    c == '\\' || c == '/'
  }

  /** Index of the last occurrence of a character satisfying `p`, or -1. */
  function LastSep(s: string): (i: int)
    ensures -1 <= i < |s|
    ensures i >= 0 ==> IsSep(s[i])
    ensures forall j :: i < j < |s| ==> !IsSep(s[j])
  {
    if s == [] then -1
    else if IsSep(s[|s| - 1]) then |s| - 1
    else LastSep(s[..|s| - 1])
  }

  /** `str.rfind(c)`: index of the last `c`, or -1. */
  function RFind(s: string, c: char): (i: int)
    ensures -1 <= i < |s|
    ensures i >= 0 ==> s[i] == c
    ensures forall j :: i < j < |s| ==> s[j] != c
  {
    if s == [] then -1
    else if s[|s| - 1] == c then |s| - 1
    else RFind(s[..|s| - 1], c)
  }

  /** `ntpath.splitdrive` for drive-letter paths (`X:`); UNC shares are not modelled. */
  function SplitDrive(p: string): (r: (string, string))
    ensures r.0 + r.1 == p
    ensures r.0 == [] || |r.0| == 2
  {
    if |p| >= 2 && p[1] == ':' then (p[..2], p[2..]) else ([], p)
  }

  /** `s.rstrip("\\/")`. */
  function StripSeps(s: string): (r: string)
    ensures |r| <= |s| && r == s[..|r|]
    ensures r == [] || !IsSep(r[|r| - 1])
  {
    if s != [] && IsSep(s[|s| - 1]) then StripSeps(s[..|s| - 1]) else s
  }

  /** `ntpath.split`: the directory part (trailing separators removed unless it is all separators) and the final component. */
  function Split(p: string): (r: (string, string))
    ensures forall j :: 0 <= j < |r.1| ==> !IsSep(r.1[j])
    ensures |r.1| <= |p| && r.1 == p[|p| - |r.1|..]
  {
    var (d, rest) := SplitDrive(p);
    var i := LastSep(rest) + 1;
    var head := rest[..i];
    var tail := rest[i..];
    FinalComponent(p, d, rest, i);
    var stripped := StripSeps(head);
    (d + (if stripped == [] then head else stripped), tail)
  }

  /** The part of `rest` after its last separator holds none and ends `p`. */
  lemma FinalComponent(p: string, d: string, rest: string, i: nat)
    requires d + rest == p && i <= |rest|
    requires forall j :: i <= j < |rest| ==> !IsSep(rest[j])
    ensures forall j :: 0 <= j < |rest[i..]| ==> !IsSep(rest[i..][j])
    ensures rest[i..] == p[|p| - |rest[i..]|..]
  {
    assert forall j :: 0 <= j < |rest[i..]| ==> rest[i..][j] == rest[i + j];
    assert rest[i..] == p[|d| + i..];
  }

  function Basename(p: string): (r: string)
    ensures forall j :: 0 <= j < |r| ==> !IsSep(r[j])
  {
    Split(p).1
  }

  function Dirname(p: string): string {
    Split(p).0
  }

  /**
   * `ntpath.splitext`: the extension runs from the last dot of the final
   * component, unless that component holds nothing but dots before it.
   */
  function SplitExt(p: string): (r: (string, string))
    ensures r.0 + r.1 == p
    ensures r.1 == [] || r.1[0] == '.'
    ensures forall j :: 0 <= j < |r.1| ==> !IsSep(r.1[j])
    ensures forall j :: 1 <= j < |r.1| ==> r.1[j] != '.'
  {
    var sepIndex := LastSep(p);
    var dotIndex := RFind(p, '.');
    if dotIndex > sepIndex && exists k :: sepIndex + 1 <= k < dotIndex && p[k] != '.' then
      (p[..dotIndex], p[dotIndex..])
    else
      (p, [])
  }

  /** `os.path.splitext(os.path.basename(p))[0]`: the file name without its extension. */
  function Stem(p: string): string {
    SplitExt(Basename(p)).0
  }

  /** Whether a name carries a drive or starts at a root, so that `join` would not append it. */
  predicate IsAnchored(name: string) {
    (|name| >= 2 && name[1] == ':') || (name != [] && IsSep(name[0]))
  }

  /**
   * `ntpath.join(directory, name)` for a name that is neither rooted nor on a
   * drive: a `\` is inserted unless the directory part is empty or already
   * ends in a separator.
   */
  function Join(directory: string, name: string): (r: string)
    ensures !IsAnchored(name) ==> |r| >= |name| && r[|r| - |name|..] == name
  {
    if IsAnchored(name) then name
    else
      var (d, rest) := SplitDrive(directory);
      if rest != [] && !IsSep(rest[|rest| - 1]) then d + rest + "\\" + name
      else d + rest + name
  }

  /** The components of a path after its drive, with empty and `.` components dropped, as `pathlib` parses it. */
  function Parts(p: string): seq<string>
    decreases |p|
  {
    var i := LastSep(p);
    var last := p[i + 1..];
    var before := if i < 0 then [] else Parts(p[..i]);
    if last == [] || last == "." then before else before + [last]
  }

  /** `PureWindowsPath(p).name`. */
  function Name(p: string): string {
    var parts := Parts(SplitDrive(p).1);
    if parts == [] then [] else parts[|parts| - 1]
  }

  /**
   * `PureWindowsPath(p).suffix`: from the last dot of the name, provided that
   * dot is neither the first nor the last character of the name.
   */
  function Suffix(p: string): (r: string)
    ensures r == [] || (|r| >= 2 && r[0] == '.')
    ensures forall j :: 1 <= j < |r| ==> r[j] != '.'
  {
    var name := Name(p);
    var i := RFind(name, '.');
    if 0 < i < |name| - 1 then name[i..] else []
  }
}
