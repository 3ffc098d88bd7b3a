/**
 * The file helpers of the application: which paths count as audio, the
 * recent-files list kept in the settings store, file-size labels and the
 * validation of a path before analysis.
 *
 * What the operating system says about a path (whether it exists, is a
 * file, its size, whether it can be read) and the JSON text of the stored
 * list come in as parameters.
 */
module FileUtils {
  import opened Common
  import opened Text
  import Paths
  import SettingsStore

  /** `AUDIO_EXTENSIONS`. */
  const AudioExtensions: set<string> :=
    {".mp3", ".wav", ".flac", ".m4a", ".ogg", ".wma", ".aac", ".aiff", ".mp4", ".ape", ".opus", ".wv"}

  /**
   * `is_audio_file`: no path, or the empty one, is not audio; otherwise the
   * lower-cased suffix of the final component decides.
   */
  function IsAudioFile(path: Option<string>): (b: bool)
    ensures path.None? || path.value == [] ==> !b
    ensures b ==> |Paths.Suffix(path.value)| >= 2 && Lower(Paths.Suffix(path.value)) in AudioExtensions
    ensures path.Some? && path.value != [] && Lower(Paths.Suffix(path.value)) in AudioExtensions ==> b
  {
    match path
    case None => false
    case Some(p) =>
      var e := Lower(Paths.Suffix(p));
      if p != [] && e in AudioExtensions then AudioExtensionShape(e); true else false
  }

  /** Every listed extension is a dot followed by at least one character. */
  lemma AudioExtensionShape(e: string)
    requires e in AudioExtensions
    ensures |e| >= 2 && e[0] == '.'
  {
  }

  /**
   * The check ignores case: every listed extension, written in upper case,
   * lowers back to itself; no listed extension holds an upper-case letter.
   */
  lemma {:induction false} AudioExtensionsIgnoreCase(e: string)
    requires e in AudioExtensions
    ensures Lower(Upper(e)) == e
    ensures Lower(e) == e
  {
    var u := Upper(e);
    assert forall i :: 0 <= i < |e| ==> 'a' <= e[i] <= 'z' || e[i] == '.' || '0' <= e[i] <= '9';
    assert forall i :: 0 <= i < |e| ==> LowerChar(u[i]) == e[i];
  }

  // ---------------------------------------------------------------------
  // Recent files
  // ---------------------------------------------------------------------

  /** `json.dumps` and `json.loads` for a list of paths; `None` where loading raises or yields no list of strings. */
  datatype Codec = Codec(encode: seq<string> -> string, decode: string -> Option<seq<string>>) {
    ghost predicate Lawful() {
      forall l: seq<string> {:trigger encode(l)} :: encode(l) != "" && decode(encode(l)) == Some(l)
    }
  }

  /** `[f for f in paths if os.path.exists(f)]`. */
  function Existing(paths: seq<string>, onDisk: string -> bool): (r: seq<string>)
    ensures |r| <= |paths|
    ensures forall x :: x in r <==> x in paths && onDisk(x)
  {
    if paths == [] then []
    else if onDisk(paths[0]) then [paths[0]] + Existing(paths[1..], onDisk)
    else Existing(paths[1..], onDisk)
  }

  /** `a` is `b` with some elements left out, the rest in their order. */
  predicate Subsequence(a: seq<string>, b: seq<string>)
    decreases |b|
  {
    a == [] || (b != [] && ((a[0] == b[0] && Subsequence(a[1..], b[1..])) || Subsequence(a, b[1..])))
  }

  /** Filtering keeps the existing paths in their original order, and filtering twice changes nothing. */
  lemma {:induction false} ExistingKeepsOrder(paths: seq<string>, onDisk: string -> bool)
    ensures Subsequence(Existing(paths, onDisk), paths)
    ensures Existing(Existing(paths, onDisk), onDisk) == Existing(paths, onDisk)
  {
    if paths != [] {
      ExistingKeepsOrder(paths[1..], onDisk);
      var rest := Existing(paths[1..], onDisk);
      if onDisk(paths[0]) {
        assert ([paths[0]] + rest)[1..] == rest;
      }
    }
  }

  /** `lst[:k]` with Python's slice bounds: a negative k counts from the end. */
  function Prefix(s: seq<string>, k: int): (r: seq<string>)
    ensures k >= 0 ==> r == s[..if k < |s| then k else |s|]
  {
    if k >= 0 then s[..if k < |s| then k else |s|]
    else if |s| + k > 0 then s[..|s| + k]
    else []
  }

  /** The list `save_recent_files` stores. */
  function SavedList(recent: seq<string>, maxCount: int, onDisk: string -> bool): seq<string> {
    Prefix(Existing(recent, onDisk), maxCount)
  }

  /**
   * What is stored holds at most `maxCount` paths (for a non-negative
   * count), all of them existing, in their original relative order.
   */
  lemma {:induction false} SavedListBounds(recent: seq<string>, maxCount: int, onDisk: string -> bool)
    requires maxCount >= 0
    ensures |SavedList(recent, maxCount, onDisk)| <= maxCount
    ensures forall x :: x in SavedList(recent, maxCount, onDisk) ==> x in recent && onDisk(x)
    ensures Subsequence(SavedList(recent, maxCount, onDisk), recent)
  {
    var e := Existing(recent, onDisk);
    ExistingKeepsOrder(recent, onDisk);
    PrefixIsSubsequence(e, if maxCount < |e| then maxCount else |e|);
    SubsequenceTransitive(SavedList(recent, maxCount, onDisk), e, recent);
  }

  lemma {:induction false} PrefixIsSubsequence(s: seq<string>, k: nat)
    requires k <= |s|
    ensures Subsequence(s[..k], s)
  {
    if k > 0 {
      PrefixIsSubsequence(s[1..], k - 1);
      assert s[..k][1..] == s[1..][..k - 1];
    }
  }

  lemma {:induction false} SubsequenceTransitive(a: seq<string>, b: seq<string>, c: seq<string>)
    requires Subsequence(a, b) && Subsequence(b, c)
    ensures Subsequence(a, c)
    decreases |c|
  {
    if a != [] {
      assert b != [] && c != [];
      if b[0] == c[0] && Subsequence(b[1..], c[1..]) {
        if a[0] == b[0] && Subsequence(a[1..], b[1..]) {
          SubsequenceTransitive(a[1..], b[1..], c[1..]);
        } else {
          SubsequenceTransitive(a, b[1..], c[1..]);
        }
      } else {
        SubsequenceTransitive(a, b, c[1..]);
      }
    }
  }

  /**
   * `save_recent_files`: a missing settings object (one without `setValue`)
   * gives False and stores nothing; otherwise the filtered, truncated list
   * is stored as JSON under "recent_files" and the answer is True.
   */
  method SaveRecentFiles(store: SettingsStore.Store?, recent: seq<string>, maxCount: int, onDisk: string -> bool, codec: Codec)
    returns (saved: bool)
    modifies store
    ensures saved <==> store != null
    ensures store != null ==> store.values == old(store.values)["recent_files" := codec.encode(SavedList(recent, maxCount, onDisk))]
  {
    var valid := Prefix(Existing(recent, onDisk), maxCount);
    if store != null {
      store.SetValue("recent_files", codec.encode(valid));
      return true;
    }
    return false;
  }

  /** What `load_recent_files` returns for the store's contents. */
  function LoadedList(values: map<string, string>, onDisk: string -> bool, codec: Codec): seq<string> {
    var text := SettingsStore.Lookup(values, "recent_files", "");
    if text == "" then []
    else
      match codec.decode(text)
      case None => []
      case Some(files) => Existing(files, onDisk)
  }

  /**
   * `load_recent_files`: nothing stored, a missing settings object, or text
   * that does not decode gives the empty list; otherwise the stored paths
   * that still exist.
   */
  method LoadRecentFiles(store: SettingsStore.Store?, onDisk: string -> bool, codec: Codec) returns (files: seq<string>)
    ensures store == null ==> files == []
    ensures store != null ==> files == LoadedList(store.values, onDisk, codec)
  {
    if store == null {
      return [];
    }
    var text := SettingsStore.Lookup(store.values, "recent_files", "");
    if text != "" {
      var decoded := codec.decode(text);
      if decoded.Some? {
        return Existing(decoded.value, onDisk);
      }
    }
    return [];
  }

  /** Loading after saving returns exactly the saved list, while the same paths exist. */
  lemma SaveThenLoad(values: map<string, string>, recent: seq<string>, maxCount: int, onDisk: string -> bool, codec: Codec)
    requires codec.Lawful() && maxCount >= 0
    ensures LoadedList(values["recent_files" := codec.encode(SavedList(recent, maxCount, onDisk))], onDisk, codec)
      == SavedList(recent, maxCount, onDisk)
  {
    var saved := SavedList(recent, maxCount, onDisk);
    assert codec.decode(codec.encode(saved)) == Some(saved);
    PrefixOfExistingIsExisting(recent, maxCount, onDisk);
  }

  lemma {:induction false} PrefixOfExistingIsExisting(recent: seq<string>, k: nat, onDisk: string -> bool)
    ensures Existing(Prefix(Existing(recent, onDisk), k), onDisk) == Prefix(Existing(recent, onDisk), k)
  {
    var e := Existing(recent, onDisk);
    AllExistingUnchanged(e[..if k < |e| then k else |e|], onDisk);
  }

  lemma {:induction false} AllExistingUnchanged(s: seq<string>, onDisk: string -> bool)
    requires forall x :: x in s ==> onDisk(x)
    ensures Existing(s, onDisk) == s
  {
    if s != [] {
      AllExistingUnchanged(s[1..], onDisk);
    }
  }

  /**
   * `list.remove(x)`: the list without its first occurrence of `x`. Python
   * raises on an absent `x`; the one caller removes only a present value,
   * and the function leaves a list without `x` unchanged.
   */
  function RemoveFirst(s: seq<string>, x: string): (r: seq<string>)
    ensures x !in s ==> r == s
    ensures x in s ==> |r| == |s| - 1
  {
    if s == [] then []
    else if s[0] == x then
      assert s == [s[0]] + s[1..];
      s[1..]
    else
      assert s == [s[0]] + s[1..];
      [s[0]] + RemoveFirst(s[1..], x)
  }

  /** The first occurrence of `x` in `s`. */
  function IndexOf(s: seq<string>, x: string): (i: nat)
    requires x in s
    ensures i < |s| && s[i] == x && x !in s[..i]
  {
    if s[0] == x then 0 else 1 + IndexOf(s[1..], x)
  }

  /** Removing drops exactly the first occurrence and keeps the rest in order. */
  lemma {:induction false} RemoveFirstSplices(s: seq<string>, x: string)
    requires x in s
    ensures RemoveFirst(s, x) == s[..IndexOf(s, x)] + s[IndexOf(s, x) + 1..]
  {
    if s[0] != x {
      var t := s[1..];
      var k := IndexOf(t, x);
      assert IndexOf(s, x) == k + 1;
      assert RemoveFirst(s, x) == [s[0]] + RemoveFirst(t, x);
      RemoveFirstSplices(t, x);
      assert t[..k] == s[1..k + 1] && t[k + 1..] == s[k + 2..];
      assert [s[0]] + s[1..k + 1] == s[..k + 1];
    } else {
      assert IndexOf(s, x) == 0;
    }
  }

  /**
   * The list after `add_recent_file` moves a path to the front: first the
   * path, then the old list without its first occurrence. The list grows by
   * one exactly when the path was absent.
   */
  lemma MoveToFrontShape(s: seq<string>, x: string)
    ensures var r := [x] + RemoveFirst(s, x);
      && r[0] == x
      && (x in s ==> r[1..] == s[..IndexOf(s, x)] + s[IndexOf(s, x) + 1..])
      && (x !in s ==> r[1..] == s)
      && |r| == if x in s then |s| else |s| + 1
  {
    if x in s {
      RemoveFirstSplices(s, x);
    }
  }

  /** A Python list of paths that callers share and `add_recent_file` changes in place. */
  class PathList {
    var items: seq<string>

    constructor (initial: seq<string>)
      ensures items == initial
    {
      items := initial;
    }

    /** `lst.remove(x)` for a present `x`. */
    method Remove(x: string)
      requires x in items
      modifies this
      ensures items == RemoveFirst(old(items), x)
    {
      items := RemoveFirst(items, x);
    }

    /** `lst.insert(0, x)`. */
    method InsertFront(x: string)
      modifies this
      ensures items == [x] + old(items)
    {
      items := [x] + items;
    }
  }

  /**
   * `add_recent_file`. A path that does not exist leaves everything as it
   * was and returns the given list, or a new empty one when none or an
   * empty one was given. Otherwise the list (the given one, changed in
   * place, or a new one loaded from the store) gets the path moved to its
   * front and is saved with the default limit of 10; the returned list is
   * not truncated.
   */
  method AddRecentFile(store: SettingsStore.Store?, path: string, recent: PathList?, onDisk: string -> bool, codec: Codec)
    returns (r: PathList)
    modifies store, recent
    ensures !onDisk(path) ==>
      && (store != null ==> store.values == old(store.values))
      && (recent != null ==> recent.items == old(recent.items))
      && (if recent != null && old(recent.items) != [] then r == recent else fresh(r) && r.items == [])
    ensures onDisk(path) ==>
      var before := if recent != null then old(recent.items)
        else if store != null then LoadedList(old(store.values), onDisk, codec) else [];
      && (recent != null ==> r == recent)
      && (recent == null ==> fresh(r))
      && r.items == [path] + RemoveFirst(before, path)
      && (store != null ==> store.values == old(store.values)["recent_files" := codec.encode(SavedList(r.items, 10, onDisk))])
  {
    if !onDisk(path) {
      if recent != null && recent.items != [] {
        return recent;
      }
      r := new PathList([]);
      return;
    }
    if recent == null {
      var loaded := LoadRecentFiles(store, onDisk, codec);
      r := new PathList(loaded);
    } else {
      r := recent;
    }
    if path in r.items {
      r.Remove(path);
    }
    r.InsertFront(path);
    var _ := SaveRecentFiles(store, r.items, 10, onDisk, codec);
  }

  // ---------------------------------------------------------------------
  // File-size label
  // ---------------------------------------------------------------------

  /** A size label: exact bytes, or a quotient to be printed with the given decimals and unit. */
  datatype SizeLabel = Exact(text: string) | Scaled(value: real, decimals: nat, unit: string)

  const Kibi: int := 1024

  /** `format_file_size`, with the printing of the quotient left to `:.1f` / `:.2f`. */
  function FormatFileSize(size: int): SizeLabel {
    if size < Kibi then Exact(IntToString(size) + " B")
    else if size < Kibi * Kibi then Scaled(size as real / Kibi as real, 1, "KB")
    else if size < Kibi * Kibi * Kibi then Scaled(size as real / (Kibi * Kibi) as real, 1, "MB")
    else Scaled(size as real / (Kibi * Kibi * Kibi) as real, 2, "GB")
  }

  /**
   * Sizes below 1024 print exactly as "{n} B"; the next unit is chosen so
   * that the printed quotient lies in [1, 1024), except for GB which has no
   * upper bound.
   */
  lemma FileSizeUnits(size: int)
    ensures size < 1024 <==> FormatFileSize(size).Exact?
    ensures size < 1024 ==> FormatFileSize(size).text == IntToString(size) + " B"
    ensures FormatFileSize(size).Scaled? ==> FormatFileSize(size).value >= 1.0
    ensures FormatFileSize(size).Scaled? && FormatFileSize(size).unit != "GB" ==> FormatFileSize(size).value < 1024.0
    ensures FormatFileSize(size).Scaled? ==>
      FormatFileSize(size).unit == (if size < 1048576 then "KB" else if size < 1073741824 then "MB" else "GB")
  {
  }

  // ---------------------------------------------------------------------
  // Validating a path
  // ---------------------------------------------------------------------

  /** `os.path.getsize`: a size or the text of the error it raised. */
  datatype SizeProbe = Size(bytes: int) | SizeError(message: string)

  /**
   * What the operating system reports for a path: the result of
   * `os.path.normpath` (`None` if it raised), existence, whether it is a
   * regular file, its size, and the error text of opening it for reading
   * (`None` when the first bytes can be read).
   */
  datatype FileFacts = FileFacts(
    normalised: Option<string>,
    present: bool,
    isFile: bool,
    size: SizeProbe,
    readError: Option<string>)

  /** The lower-cased extension `validate_audio_file_path` checks. */
  function LowerExtension(p: string): string {
    Paths.SplitExt(Lower(p)).1
  }

  /** `validate_audio_file_path`: the first failing check's message, or `(True, "")`. */
  function ValidateAudioFilePath(path: Option<string>, facts: FileFacts): (r: (bool, string))
    ensures r.0 <==> r.1 == ""
  {
    if path.None? || path.value == [] then (false, "Empty file path")
    else if facts.normalised.None? then (false, "Unable to normalize path")
    else
      var p := facts.normalised.value;
      if !facts.present then (false, "File does not exist: " + p)
      else if !facts.isFile then (false, "Not a file: " + p)
      else if facts.size.SizeError? then (false, "Error checking file size: " + facts.size.message)
      else if facts.size.bytes == 0 then (false, "File is empty: " + p)
      else if LowerExtension(p) !in AudioExtensions then (false, "Not an audio file: " + LowerExtension(p))
      else if facts.readError.Some? then (false, "Unable to read file: " + facts.readError.value)
      else (true, "")
  }

  /** The checks in the order they run: whether each fails, and its message. */
  function Checks(path: Option<string>, facts: FileFacts): (r: seq<(bool, string)>)
    ensures |r| == 8
  {
    var p := facts.normalised.GetOr("");
    [ (path.None? || path.value == [], "Empty file path"),
      (facts.normalised.None?, "Unable to normalize path"),
      (!facts.present, "File does not exist: " + p),
      (!facts.isFile, "Not a file: " + p),
      (facts.size.SizeError?, "Error checking file size: " + (if facts.size.SizeError? then facts.size.message else "")),
      (facts.size.Size? && facts.size.bytes == 0, "File is empty: " + p),
      (LowerExtension(p) !in AudioExtensions, "Not an audio file: " + LowerExtension(p)),
      (facts.readError.Some?, "Unable to read file: " + facts.readError.GetOr(""))
    ]
  }

  /** The verdict of a list of checks: the first failing one's message, or success. */
  function FirstFailure(checks: seq<(bool, string)>): (r: (bool, string)) {
    if checks == [] then (true, "")
    else if checks[0].0 then (false, checks[0].1)
    else FirstFailure(checks[1..])
  }

  /**
   * Validation runs its checks in the order empty, normalise, exists,
   * is-file, size error, zero size, extension, readable, answers with the
   * first one that fails, and succeeds with an empty message exactly when
   * none fails.
   */
  lemma ValidationOrder(path: Option<string>, facts: FileFacts)
    ensures ValidateAudioFilePath(path, facts) == FirstFailure(Checks(path, facts))
  {
    FirstFailureOfEight(Checks(path, facts));
  }

  /**
   * Validation succeeds, with an empty message, exactly when no check
   * fails; a failure always carries a message.
   */
  lemma ValidationVerdict(path: Option<string>, facts: FileFacts)
    ensures ValidateAudioFilePath(path, facts).0 <==> forall i :: 0 <= i < |Checks(path, facts)| ==> !Checks(path, facts)[i].0
    ensures ValidateAudioFilePath(path, facts).0 ==> ValidateAudioFilePath(path, facts).1 == ""
    ensures !ValidateAudioFilePath(path, facts).0 ==> ValidateAudioFilePath(path, facts).1 != ""
  {
    var c := Checks(path, facts);
    ValidationOrder(path, facts);
    FirstFailureVerdict(c);
  }

  /** The verdict of eight checks, written out. */
  lemma FirstFailureOfEight(c: seq<(bool, string)>)
    requires |c| == 8
    ensures FirstFailure(c) ==
      if c[0].0 then (false, c[0].1)
      else if c[1].0 then (false, c[1].1)
      else if c[2].0 then (false, c[2].1)
      else if c[3].0 then (false, c[3].1)
      else if c[4].0 then (false, c[4].1)
      else if c[5].0 then (false, c[5].1)
      else if c[6].0 then (false, c[6].1)
      else if c[7].0 then (false, c[7].1)
      else (true, "")
  {
    FirstFailureStep(c, 0);
    FirstFailureStep(c, 1);
    FirstFailureStep(c, 2);
    FirstFailureStep(c, 3);
    FirstFailureStep(c, 4);
    FirstFailureStep(c, 5);
    FirstFailureStep(c, 6);
    FirstFailureStep(c, 7);
    assert c[0..] == c;
  }

  lemma FirstFailureStep(c: seq<(bool, string)>, k: nat)
    requires k < |c|
    ensures FirstFailure(c[k..]) == if c[k].0 then (false, c[k].1) else FirstFailure(c[k + 1..])
  {
    assert c[k..][1..] == c[k + 1..];
  }

  /**
   * A list of checks passes exactly when no check fails, with an empty
   * message; otherwise it answers with the message of the first failing
   * check.
   */
  lemma {:induction false} FirstFailureVerdict(c: seq<(bool, string)>)
    ensures FirstFailure(c).0 <==> forall i :: 0 <= i < |c| ==> !c[i].0
    ensures FirstFailure(c).0 ==> FirstFailure(c).1 == ""
    ensures !FirstFailure(c).0 ==>
      exists i :: 0 <= i < |c| && c[i].0 && FirstFailure(c).1 == c[i].1 && forall j :: 0 <= j < i ==> !c[j].0
  {
    if c == [] {
    } else if c[0].0 {
      assert c[0].0 && FirstFailure(c).1 == c[0].1;
    } else {
      FirstFailureVerdict(c[1..]);
      assert forall i :: 1 <= i < |c| ==> c[i] == c[1..][i - 1];
      if !FirstFailure(c).0 {
        var k :| 0 <= k < |c[1..]| && c[1..][k].0 && FirstFailure(c[1..]).1 == c[1..][k].1
          && forall j :: 0 <= j < k ==> !c[1..][j].0;
        assert c[k + 1].0 && forall j :: 0 <= j < k + 1 ==> !c[j].0;
      }
    }
  }
}
