/**
 * The application window's own logic: unpacking an analysis result and
 * placing the tooltip on the screen (`show_tooltip_slot`), the filters and
 * start directory of the file dialog (`open_file_dialog`), the name of the
 * transcript file (`TranscriptionWorker.run`), the preview length of a
 * visualisation (`on_visualization_requested`) and the defaults written at
 * start-up (`load_default_settings`).
 *
 * The screen geometry, whether a directory exists, the clock and the order
 * in which Python iterates a set are parameters.
 */
module MainWindow {
  import opened Common
  import opened Text
  import Paths
  import SettingsStore
  import FileUtils
  import SettingsDialog

  // ---------------------------------------------------------------------
  // `show_tooltip_slot`
  // ---------------------------------------------------------------------

  /** The Python values an analysis result carries. */
  datatype PyValue = PyStr(s: string) | PyInt(i: int) | PyBytes | PyNone

  /** What `show_tooltip_slot` makes of a result. */
  datatype Unpacked =
    | Skipped
    | Failed
    | Content(fields: seq<PyValue>, numChannels: PyValue, channel: PyValue)

  /**
   * `None` and the empty tuple are skipped; six values carry the channel
   * count and channel; any other result is unpacked as four values, with
   * one channel and channel 0, and unpacking anything but four raises.
   */
  function Unpack(result: Option<seq<PyValue>>): (u: Unpacked)
    ensures u.Skipped? <==> result.None? || result.value == []
    ensures u.Content? <==> result.Some? && (|result.value| == 4 || |result.value| == 6)
    ensures u.Content? && |result.value| == 6 ==>
      u.fields == result.value[..4] && u.numChannels == result.value[4] && u.channel == result.value[5]
    ensures u.Content? && |result.value| == 4 ==>
      u.fields == result.value && u.numChannels == PyInt(1) && u.channel == PyInt(0)
  {
    if result.None? || result.value == [] then Skipped
    else if |result.value| == 6 then Content(result.value[..4], result.value[4], result.value[5])
    else if |result.value| == 4 then Content(result.value, PyInt(1), PyInt(0))
    else Failed
  }

  /** A rectangle of the screen (`availableGeometry`), and a widget size. */
  datatype Rect = Rect(x: int, y: int, width: int, height: int)
  datatype Size = Size(width: int, height: int)

  /** The size `EnhancedTooltip.__init__` fixes with `setFixedSize`. */
  const TooltipFixedSize := Size(600, 800)

  function Min(a: int, b: int): int {
    if a <= b then a else b
  }

  function Max(a: int, b: int): int {
    if a >= b then a else b
  }

  /** The largest tooltip `show_tooltip_slot` allows: 100 px less than the screen, at most 1600 × 800. */
  function MaxSize(screen: Rect): (m: Size)
    ensures m.width <= screen.width - 100 && m.width <= 1600
    ensures m.height <= screen.height - 100 && m.height <= 800
  {
    Size(Min(screen.width - 100, 1600), Min(screen.height - 100, 800))
  }

  /** Qt's `resize`: ignored on a widget of fixed size; otherwise the requested size, no less than 0. */
  function Resize(current: Size, requested: Size, fixed: bool): Size {
    if fixed then current else Size(Max(requested.width, 0), Max(requested.height, 0))
  }

  /** The tooltip's size after `show_tooltip_slot`: resized to the bound only when it exceeds it. */
  function Constrained(size: Size, screen: Rect, fixed: bool): Size {
    var m := MaxSize(screen);
    if size.width > m.width || size.height > m.height then Resize(size, m, fixed) else size
  }

  /** Where `show_tooltip_slot` moves a tooltip of the given size. */
  function Position(screen: Rect, size: Size): (p: (int, int))
    ensures p.0 >= screen.x && p.1 >= screen.y
  {
    (Max(screen.x, Min(screen.width - size.width - 50, screen.x + screen.width - 50)),
     Max(screen.y, Min(50, screen.y + screen.height - size.height - 50)))
  }

  /** A tooltip of the given size at `p` lies inside the screen. */
  predicate Inside(screen: Rect, size: Size, p: (int, int)) {
    && screen.x <= p.0 && p.0 + size.width <= screen.x + screen.width
    && screen.y <= p.1 && p.1 + size.height <= screen.y + screen.height
  }

  /**
   * On a screen that starts at a non-negative x, a tooltip no larger than
   * the screen is placed entirely inside it.
   */
  lemma PositionInside(screen: Rect, size: Size)
    requires screen.x >= 0
    requires 0 <= size.width <= screen.width && 0 <= size.height <= screen.height
    ensures Inside(screen, size, Position(screen, size))
  {
  }

  /**
   * As written, the tooltip's fixed 600 × 800 size makes the resize do
   * nothing: on a 1366 × 728 work area it keeps its 800 px height and its
   * bottom falls 72 px below the screen.
   */
  lemma FixedSizeOverflowsAsWritten()
    ensures var screen := Rect(0, 0, 1366, 728);
      var size := Constrained(TooltipFixedSize, screen, true);
      var p := Position(screen, size);
      && size == TooltipFixedSize
      && p.1 + size.height == screen.y + screen.height + 72
  {
  }

  /**
   * A tooltip whose size is not fixed is resized to the bound and then lies
   * inside any screen at a non-negative x that is at least 100 px in each
   * direction.
   */
  lemma ConstrainedTooltipFits(screen: Rect, size: Size)
    requires screen.x >= 0 && screen.width >= 100 && screen.height >= 100
    requires 0 <= size.width && 0 <= size.height
    ensures var s := Constrained(size, screen, false);
      && s.width <= screen.width - 100 && s.height <= screen.height - 100
      && Inside(screen, s, Position(screen, s))
  {
    var s := Constrained(size, screen, false);
    PositionInside(screen, s);
  }

  /** The outcome of `show_tooltip_slot`: what was unpacked, and the tooltip's size and place when shown. */
  datatype Shown = Shown(content: Unpacked, size: Size, x: int, y: int)

  /**
   * `show_tooltip_slot` with a tooltip that can be resized: the result is
   * unpacked, the tooltip is constrained to the screen, and placed below its
   * top-right corner, never past its left or top edge.
   */
  method ShowTooltipSlot(result: Option<seq<PyValue>>, screen: Rect, size: Size) returns (s: Option<Shown>)
    ensures s.None? <==> !Unpack(result).Content?
    ensures s.Some? ==>
      && s.value.content == Unpack(result)
      && s.value.size == Constrained(size, screen, false)
      && (s.value.x, s.value.y) == Position(screen, s.value.size)
      && s.value.x >= screen.x && s.value.y >= screen.y
  {
    var content := Unpack(result);
    if !content.Content? {
      return None;
    }
    var tooltip := size;
    var bound := MaxSize(screen);
    if tooltip.width > bound.width || tooltip.height > bound.height {
      tooltip := Resize(tooltip, bound, false);
    }
    var x := Min(screen.width - tooltip.width - 50, screen.x + screen.width - 50);
    var y := Min(50, screen.y + screen.height - tooltip.height - 50);
    x := Max(screen.x, x);
    y := Max(screen.y, y);
    s := Some(Shown(content, tooltip, x, y));
  }

  // ---------------------------------------------------------------------
  // `open_file_dialog`
  // ---------------------------------------------------------------------

  /** The formats that get a filter of their own, in order. */
  const CommonFormats := [".mp3", ".wav", ".flac", ".m4a", ".ogg"]

  /** "MP3 Files (*.mp3)": the extension without its dot, in upper case. */
  function FormatFilter(ext: string): string
    requires ext != []
  {
    Upper(ext[1..]) + " Files (*" + ext + ")"
  }

  /** The filters of the formats in `formats` that are audio extensions, in order. */
  function FormatFilters(formats: seq<string>): (r: seq<string>)
    requires forall i :: 0 <= i < |formats| ==> formats[i] != []
    ensures |r| <= |formats|
  {
    if formats == [] then []
    else
      var last := formats[|formats| - 1];
      FormatFilters(formats[..|formats| - 1]) + (if last in FileUtils.AudioExtensions then [FormatFilter(last)] else [])
  }

  /** A listing of `AUDIO_EXTENSIONS` in the order Python happens to iterate the set. */
  predicate IsIterationOrder(order: seq<string>) {
    && (forall i :: 0 <= i < |order| ==> order[i] in FileUtils.AudioExtensions)
    && (forall e :: e in FileUtils.AudioExtensions ==> e in order)
    && (forall i, j :: 0 <= i < j < |order| ==> order[i] != order[j])
  }

  function Patterns(order: seq<string>): (r: seq<string>)
    ensures |r| == |order| && forall i :: 0 <= i < |order| ==> r[i] == "*" + order[i]
  {
    seq(|order|, i requires 0 <= i < |order| => "*" + order[i])
  }

  /**
   * Listed in any iteration order, the "All Audio Files" patterns are
   * exactly the twelve extensions, each behind a '*'.
   */
  lemma AllAudioPatterns(order: seq<string>)
    requires IsIterationOrder(order)
    ensures forall e :: e in FileUtils.AudioExtensions ==> "*" + e in Patterns(order)
    ensures forall i :: 0 <= i < |order| ==>
      Patterns(order)[i][0] == '*' && Patterns(order)[i][1..] in FileUtils.AudioExtensions
  {
    var r := Patterns(order);
    forall e | e in FileUtils.AudioExtensions
      ensures "*" + e in r
    {
      var i :| 0 <= i < |order| && order[i] == e;
      assert r[i] == "*" + e;
    }
    forall i | 0 <= i < |order|
      ensures r[i][0] == '*' && r[i][1..] in FileUtils.AudioExtensions
    {
      assert r[i][1..] == order[i];
    }
  }

  /** The filter list: one per common audio format, all audio files, then all files. */
  function FilterList(order: seq<string>): seq<string> {
    FormatFilters(CommonFormats) + ["All Audio Files (" + Join(" ", Patterns(order)) + ")", "All Files (*.*)"]
  }

  /** The filters of a list of audio extensions: one per extension, in order. */
  lemma {:induction false} FormatFiltersOfAudio(formats: seq<string>)
    requires forall i :: 0 <= i < |formats| ==> formats[i] != [] && formats[i] in FileUtils.AudioExtensions
    ensures |FormatFilters(formats)| == |formats|
    ensures forall i :: 0 <= i < |formats| ==> FormatFilters(formats)[i] == FormatFilter(formats[i])
  {
    if formats != [] {
      FormatFiltersOfAudio(formats[..|formats| - 1]);
    }
  }

  /** Every common format is an audio extension, so each gets its own filter, in order. */
  lemma FormatFiltersOfCommonFormats()
    ensures FormatFilters(CommonFormats) ==
      ["MP3 Files (*.mp3)", "WAV Files (*.wav)", "FLAC Files (*.flac)", "M4A Files (*.m4a)", "OGG Files (*.ogg)"]
  {
    var f := FormatFilters(CommonFormats);
    assert |f| == 5 && forall i :: 0 <= i < 5 ==> f[i] == FormatFilter(CommonFormats[i]) by {
      CommonFormatsAreAudio();
      FormatFiltersOfAudio(CommonFormats);
    }
    CommonFilterTexts();
  }

  /** The common formats are all audio extensions. */
  lemma CommonFormatsAreAudio()
    ensures forall i :: 0 <= i < |CommonFormats| ==> CommonFormats[i] != [] && CommonFormats[i] in FileUtils.AudioExtensions
  {
  }

  /** The filter text of one extension, given its name in upper case. */
  lemma FormatFilterOf(ext: string, name: string)
    requires |ext| == |name| + 1
    requires forall i :: 0 <= i < |name| ==> name[i] == UpperChar(ext[i + 1])
    ensures FormatFilter(ext) == name + " Files (*" + ext + ")"
  {
    assert Upper(ext[1..]) == name;
  }

  /** The filter texts of the common formats. */
  lemma CommonFilterTexts()
    ensures FormatFilter(".mp3") == "MP3 Files (*.mp3)"
    ensures FormatFilter(".wav") == "WAV Files (*.wav)"
    ensures FormatFilter(".flac") == "FLAC Files (*.flac)"
    ensures FormatFilter(".m4a") == "M4A Files (*.m4a)"
    ensures FormatFilter(".ogg") == "OGG Files (*.ogg)"
  {
    FormatFilterOf(".mp3", "MP3");
    FormatFilterOf(".wav", "WAV");
    FormatFilterOf(".flac", "FLAC");
    FormatFilterOf(".m4a", "M4A");
    FormatFilterOf(".ogg", "OGG");
  }

  /** Seven filters: five formats, all audio files, and all files last. */
  lemma FilterListShape(order: seq<string>)
    ensures var l := FilterList(order);
      && |l| == 7
      && l[0] == "MP3 Files (*.mp3)" && l[4] == "OGG Files (*.ogg)"
      && l[6] == "All Files (*.*)"
  {
    FormatFiltersOfCommonFormats();
  }

  /** `start_dir`: the directory of the most recent file when it exists, else "". */
  function StartDirectory(recent: seq<string>, pathExists: string -> bool): (d: string)
    ensures d != "" ==> recent != [] && d == Paths.Dirname(recent[0]) && pathExists(d)
    ensures recent != [] && pathExists(Paths.Dirname(recent[0])) ==> d == Paths.Dirname(recent[0])
  {
    if recent != [] && pathExists(Paths.Dirname(recent[0])) then Paths.Dirname(recent[0]) else ""
  }

  /** The loop of `open_file_dialog` over the common formats. */
  method AppendFormatFilters(formats: seq<string>) returns (filterList: seq<string>)
    requires forall i :: 0 <= i < |formats| ==> formats[i] != []
    ensures filterList == FormatFilters(formats)
  {
    filterList := [];
    for k := 0 to |formats|
      invariant filterList == FormatFilters(formats[..k])
    {
      var ext := formats[k];
      assert formats[..k + 1][..k] == formats[..k];
      if ext in FileUtils.AudioExtensions {
        filterList := filterList + [FormatFilter(ext)];
      }
    }
    assert formats[..|formats|] == formats;
  }

  /**
   * The arguments `open_file_dialog` passes to `getOpenFileName`: the
   * filters joined by ";;", and the start directory.
   */
  method FileDialogArguments(order: seq<string>, recent: seq<string>, pathExists: string -> bool)
    returns (filters: string, startDir: string)
    ensures filters == Join(";;", FilterList(order))
    ensures startDir == StartDirectory(recent, pathExists)
  {
    var filterList := AppendFormatFilters(CommonFormats);
    var allExts := Join(" ", Patterns(order));
    filterList := filterList + ["All Audio Files (" + allExts + ")"];
    filterList := filterList + ["All Files (*.*)"];
    assert filterList == FilterList(order);
    filters := Join(";;", filterList);
    startDir := "";
    if recent != [] && pathExists(Paths.Dirname(recent[0])) {
      startDir := Paths.Dirname(recent[0]);
    }
  }

  // ---------------------------------------------------------------------
  // `TranscriptionWorker.run`
  // ---------------------------------------------------------------------

  /** "ch<n>" for a channel, "mono" for the mono mix (any negative channel). */
  function ChannelInfo(channel: int): (r: string)
    ensures r == "mono" <==> channel < 0
  {
    if channel >= 0 then
      var r := "ch" + IntToString(channel);
      assert r[0] != "mono"[0];
      r
    else "mono"
  }

  /** The language code, "auto" when none is given (`None` or ""). */
  function LanguageCode(language: Option<string>): (r: string)
    ensures r != ""
  {
    if language.None? || language.value == "" then "auto" else language.value
  }

  /** The name of the transcript file: "<base>_<channel>_<language>_<timestamp>_transcript.txt" beside the audio file. */
  function TranscriptName(channel: int, language: Option<string>, timestamp: string, base: string): string {
    base + "_" + ChannelInfo(channel) + "_" + LanguageCode(language) + "_" + timestamp + "_transcript.txt"
  }

  function TranscriptFile(file: string, channel: int, language: Option<string>, timestamp: string): string {
    Paths.Join(Paths.Dirname(file), TranscriptName(channel, language, timestamp, Paths.Stem(file)))
  }

  /** A channel's transcript name, cut around the channel number. */
  lemma TranscriptNameParts(c: int, language: Option<string>, timestamp: string, base: string)
    requires c >= 0
    ensures TranscriptName(c, language, timestamp, base) ==
      (base + "_ch") + IntToString(c) + ("_" + LanguageCode(language) + "_" + timestamp + "_transcript.txt")
  {
  }

  /** Transcripts of two different channels of a file, in one language and at one time, get different names. */
  lemma {:induction false} TranscriptNamesDiffer(base: string, c1: int, c2: int, language: Option<string>, timestamp: string)
    requires c1 >= 0 && c2 >= 0 && c1 != c2
    ensures TranscriptName(c1, language, timestamp, base) != TranscriptName(c2, language, timestamp, base)
  {
    var p := base + "_ch";
    var t := "_" + LanguageCode(language) + "_" + timestamp + "_transcript.txt";
    var x, y := IntToString(c1), IntToString(c2);
    TranscriptNameParts(c1, language, timestamp, base);
    TranscriptNameParts(c2, language, timestamp, base);
    if p + x + t == p + y + t {
      Middle(p, x, y, t);
      IntToStringInjective(c1, c2);
      assert false;
    }
  }

  // ---------------------------------------------------------------------
  // `on_visualization_requested`
  // ---------------------------------------------------------------------

  /**
   * The preview length handed to the visualisation worker: -1 (the whole
   * signal) when `use_whole_signal` is "true", which is not the default
   * here; otherwise `int()` of `preview_duration`, default "10" (`None`
   * where `int()` raises).
   */
  function VisualizationPreview(settings: map<string, string>, toInt: SettingsDialog.IntParser): Option<int> {
    if SettingsStore.Lookup(settings, "use_whole_signal", "false") == "true" then Some(-1)
    else toInt(SettingsStore.Lookup(settings, "preview_duration", "10"))
  }

  /** After the settings dialog applied its widgets, a visualisation uses what they showed. */
  lemma VisualizationAfterApply(values: map<string, string>, v: SettingsDialog.View, toInt: SettingsDialog.IntParser)
    requires v.Valid() && SettingsDialog.ReadsIntegers(toInt)
    ensures VisualizationPreview(SettingsDialog.Applied(values, v), toInt) ==
      if v.wholeSignal then Some(-1) else Some(v.previewDuration)
  {
    SettingsDialog.AppliedKeys(values, v);
    assert toInt(IntToString(v.previewDuration)) == Some(v.previewDuration);
  }

  /**
   * With nothing stored, the settings dialog shows "use whole signal"
   * checked, while a visualisation previews 10 s: the two read
   * `use_whole_signal` with different defaults. The application never
   * reaches this store: it runs `load_default_settings` at start-up, which
   * writes both keys (`AgreeAfterStartup`).
   */
  lemma WholeSignalDefaultsDisagree()
    ensures SettingsDialog.Read(map[], ParseInt).choices.wholeSignal
    ensures VisualizationPreview(map[], ParseInt) == Some(10)
  {
    SettingsDialog.ReadDefaults();
    VisualizationDefault();
  }

  /**
   * With nothing stored, a visualisation previews the default 10 s; as for
   * `WholeSignalDefaultsDisagree`, the application never reaches this store.
   */
  lemma VisualizationDefault()
    ensures VisualizationPreview(map[], ParseInt) == Some(10)
  {
    var m: map<string, string> := map[];
    assert SettingsStore.Lookup(m, "use_whole_signal", "false") == "false";
    assert SettingsStore.Lookup(m, "preview_duration", "10") == "10";
    assert "false" != "true";
    assert ParseInt("10") == Some(10) by {
      ParseIntOfIntToString(10);
      assert IntToString(10) == "10";
    }
  }

  // ---------------------------------------------------------------------
  // `load_default_settings`
  // ---------------------------------------------------------------------

  /** The keys `load_default_settings` fills in, in its order, with their defaults. */
  const StartupDefaults: seq<(string, string)> := [
    ("auto_close", "true"), ("preview_duration", "60"), ("use_whole_signal", "true"),
    ("enable_transcription", "false"), ("azure_key", ""), ("azure_region", ""),
    ("feature_spectral", "true"), ("feature_harmonic", "true"),
    ("feature_perceptual", "true"), ("feature_mfcc", "true")]

  /** The store after going through `defaults` in order, giving each absent key its default. */
  function WithDefaults(values: map<string, string>, defaults: seq<(string, string)>): map<string, string>
    decreases |defaults|
  {
    if defaults == [] then values
    else
      var (k, d) := defaults[0];
      WithDefaults(if k in values then values else values[k := d], defaults[1..])
  }

  /** Filling in defaults keeps every key already stored, with its value, and stores every listed key. */
  lemma {:induction false} WithDefaultsKeeps(values: map<string, string>, defaults: seq<(string, string)>)
    ensures forall k :: k in values ==> k in WithDefaults(values, defaults) && WithDefaults(values, defaults)[k] == values[k]
    ensures forall i :: 0 <= i < |defaults| ==> defaults[i].0 in WithDefaults(values, defaults)
    decreases |defaults|
  {
    if defaults != [] {
      var (k, d) := defaults[0];
      var next := if k in values then values else values[k := d];
      WithDefaultsKeeps(next, defaults[1..]);
      forall i | 0 <= i < |defaults|
        ensures defaults[i].0 in WithDefaults(values, defaults)
      {
        if i > 0 {
          assert defaults[i] == defaults[1..][i - 1];
        }
      }
    }
  }

  /** An absent key gets the default listed first for it. */
  lemma {:induction false} WithDefaultsFills(values: map<string, string>, defaults: seq<(string, string)>, i: nat)
    requires i < |defaults| && defaults[i].0 !in values
    requires forall j :: 0 <= j < i ==> defaults[j].0 != defaults[i].0
    ensures defaults[i].0 in WithDefaults(values, defaults)
    ensures WithDefaults(values, defaults)[defaults[i].0] == defaults[i].1
    decreases |defaults|
  {
    var (k, d) := defaults[0];
    var next := if k in values then values else values[k := d];
    if i == 0 {
      WithDefaultsKeeps(next, defaults[1..]);
    } else {
      assert defaults[i] == defaults[1..][i - 1];
      WithDefaultsFills(next, defaults[1..], i - 1);
    }
  }

  /** `load_default_settings`: each listed key absent from the store is written with its default. */
  method LoadDefaultSettings(store: SettingsStore.Store)
    modifies store
    ensures store.values == WithDefaults(old(store.values), StartupDefaults)
  {
    var i := 0;
    while i < |StartupDefaults|
      invariant 0 <= i <= |StartupDefaults|
      invariant WithDefaults(store.values, StartupDefaults[i..]) == WithDefaults(old(store.values), StartupDefaults)
    {
      var (k, d) := StartupDefaults[i];
      assert StartupDefaults[i..][1..] == StartupDefaults[i + 1..];
      if k !in store.values {
        store.SetValue(k, d);
      }
      i := i + 1;
    }
  }

  /**
   * After the start-up defaults both readers find `use_whole_signal` and
   * `preview_duration` stored, so the settings dialog and a visualisation
   * agree: whole signal checked means a preview of −1, otherwise both read
   * the stored duration. An empty store becomes whole signal.
   */
  lemma AgreeAfterStartup(values: map<string, string>, toInt: SettingsDialog.IntParser)
    ensures var s := WithDefaults(values, StartupDefaults);
      && "use_whole_signal" in s && "preview_duration" in s
      && (SettingsDialog.Read(s, toInt).choices.wholeSignal ==> VisualizationPreview(s, toInt) == Some(-1))
      && (!SettingsDialog.Read(s, toInt).choices.wholeSignal ==>
            VisualizationPreview(s, toInt) == SettingsDialog.Read(s, toInt).previewDuration == toInt(s["preview_duration"]))
    ensures SettingsDialog.Read(WithDefaults(map[], StartupDefaults), toInt).choices.wholeSignal
    ensures VisualizationPreview(WithDefaults(map[], StartupDefaults), toInt) == Some(-1)
  {
    WithDefaultsKeeps(values, StartupDefaults);
    assert StartupDefaults[1].0 == "preview_duration" && StartupDefaults[2].0 == "use_whole_signal";
    var empty: map<string, string> := map[];
    WithDefaultsFills(empty, StartupDefaults, 2);
  }
}
