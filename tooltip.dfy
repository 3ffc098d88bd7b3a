/**
 * The analysis tooltip (`EnhancedTooltip`): its pin and auto-hide timer,
 * the channel selector, the transcription-channel selector, the
 * channel-delay label, and the names `_save_all` gives the files it writes.
 *
 * Qt behaviour the model keeps: a combo box selects its first item when an
 * item is added to it while empty, `clear` leaves it with no selection, and
 * it emits `currentIndexChanged` whenever its selection changes and its
 * signals are not blocked; removing the selected item selects the item
 * that takes its place, or the new last item. Painting, animation and the
 * file writes themselves are not part of this model.
 */
module Tooltip {
  import opened Common
  import opened Text
  import Paths

  // ---------------------------------------------------------------------
  // Combo boxes
  // ---------------------------------------------------------------------

  /**
   * A combo-box entry's text, kept as what it is formatted from: a fixed
   * text, a channel's name, or a channel's name and number. `CaptionText` gives
   * the characters.
   */
  datatype Label = Plain(s: string) | Name(channel: int) | NameAndNumber(channel: int)

  /** A combo-box entry: its text and its item data (a channel number). */
  datatype Item = Item(caption: Label, data: int)

  /** A combo box: its entries and its current index (-1 when none is selected). */
  datatype Combo = Combo(items: seq<Item>, index: int) {
    predicate Valid() {
      -1 <= index < |items| && (index == -1 <==> items == [])
    }

    /** `currentData()`: `None` when nothing is selected. */
    function CurrentData(): Option<int> {
      if 0 <= index < |items| then Some(items[index].data) else None
    }
  }

  const Empty := Combo([], -1)

  /** `addItem`: appended; an empty combo box selects it. */
  function AddItem(c: Combo, it: Item): (r: Combo)
    requires c.Valid()
    ensures r.Valid() && r.items == c.items + [it]
    ensures r.index == if c.items == [] then 0 else c.index
  {
    Combo(c.items + [it], if c.items == [] then 0 else c.index)
  }

  /**
   * `removeItem(i)`: an index past the end is ignored; a selection after
   * `i` moves down with its item; a removed selection passes to the item
   * now at `i`, or to the last item.
   */
  function RemoveItem(c: Combo, i: nat): (r: Combo)
    requires c.Valid()
    ensures r.Valid()
    ensures i < |c.items| ==> r.items == c.items[..i] + c.items[i + 1..]
    ensures i >= |c.items| ==> r == c
  {
    if i >= |c.items| then c
    else
      var items := c.items[..i] + c.items[i + 1..];
      var index := if c.index < i then c.index
                   else if c.index > i then c.index - 1
                   else if i < |items| then i else |items| - 1;
      Combo(items, index)
  }

  /** `findData(d)`: the first index holding `d`, or -1. */
  function FindData(items: seq<Item>, d: int): (k: int)
    ensures -1 <= k < |items|
    ensures k >= 0 ==> items[k].data == d && forall j :: 0 <= j < k ==> items[j].data != d
    ensures k == -1 <==> forall j :: 0 <= j < |items| ==> items[j].data != d
  {
    if items == [] then -1
    else if items[0].data == d then 0
    else
      var k := FindData(items[1..], d);
      assert forall j :: 1 <= j < |items| ==> items[j] == items[1..][j - 1];
      if k == -1 then -1 else k + 1
  }

  // ---------------------------------------------------------------------
  // Channel labels
  // ---------------------------------------------------------------------

  /** The name of channel `i`: "Left", "Right", then "Channel <i+1>". */
  function ChannelName(i: int): (r: string)
    ensures i == 0 ==> r == "Left"
    ensures i == 1 ==> r == "Right"
    ensures i != 0 && i != 1 ==> r == "Channel " + IntToString(i + 1)
  {
    if i == 0 then "Left" else if i == 1 then "Right" else "Channel " + IntToString(i + 1)
  }

  /** The characters of an entry's text: `f"{name} ({i+1})"` or `f"{name}"`. */
  function CaptionText(l: Label): (r: string)
    ensures l.NameAndNumber? ==> r == ChannelName(l.channel) + " (" + IntToString(l.channel + 1) + ")"
    ensures l.Name? ==> r == ChannelName(l.channel)
  {
    match l
    case Plain(s) => s
    case Name(i) => ChannelName(i)
    case NameAndNumber(i) => ChannelName(i) + " (" + IntToString(i + 1) + ")"
  }

  /** The two stereo entries of the channel selector read "Left (1)" and "Right (2)". */
  lemma StereoTexts()
    ensures CaptionText(NameAndNumber(0)) == "Left (1)" && CaptionText(NameAndNumber(1)) == "Right (2)"
  {
    assert IntToString(1) == "1" && IntToString(2) == "2";
  }

  /** The channel selector's entry for channel `i`: the name and "(i+1)". */
  function ChannelItem(i: int): Item {
    Item(NameAndNumber(i), i)
  }

  /** The transcription selector's entry for channel `i`: the name alone. */
  function TranscriptionItem(i: int): Item {
    Item(Name(i), i)
  }

  function ChannelItems(n: nat): (r: seq<Item>)
    ensures |r| == n && forall i :: 0 <= i < n ==> r[i] == ChannelItem(i)
  {
    seq(n, i => ChannelItem(i))
  }

  function TranscriptionItems(n: nat): (r: seq<Item>)
    ensures |r| == n && forall i :: 0 <= i < n ==> r[i] == TranscriptionItem(i)
  {
    seq(n, i => TranscriptionItem(i))
  }

  /** The single entry of a mono file's channel selector. */
  const MonoItem := Item(Plain("Mono/Left (1)"), 0)

  /** The two leading entries the transcription selector keeps: a mono mix (-1) and the current channel (-2). */
  const FixedItems := [Item(Plain("Mono Mix"), -1), Item(Plain("Current Channel"), -2)]

  /** The transcription selector as `_create_transcript_tab` builds it: empty. */
  const TranscriptionComboAsWritten := Empty

  /** The transcription selector holding the two entries its rebuild keeps. */
  const TranscriptionComboCorrected := Combo(FixedItems, 0)

  /** The data value the transcription selector uses for "the current channel". */
  const CurrentChannelData := -2

  /** `range(n)` is empty for a non-positive `n`. */
  function Count(n: int): nat {
    if n < 0 then 0 else n
  }

  /**
   * The transcription selector after `update_transcription_channels(n)`:
   * every entry past the second is removed, one entry per channel is
   * appended, and the entry that was selected is selected again when its
   * data is still present.
   */
  function TranscriptionRebuilt(c: Combo, n: int): (r: Combo)
    requires c.Valid()
    ensures r.Valid()
  {
    var items := RebuiltItems(c.items, n);
    var index := if c.index >= 2 then 1
                 else if c.index == -1 && items != [] then 0
                 else c.index;
    var k := if c.CurrentData().Some? then FindData(items, c.CurrentData().value) else -1;
    Combo(items, if k >= 0 then k else index)
  }

  /** The entries after a rebuild: at most the first two survive, then one entry per channel. */
  function RebuiltItems(items: seq<Item>, n: int): (r: seq<Item>)
    ensures |r| == (if |items| <= 2 then |items| else 2) + Count(n)
  {
    (if |items| <= 2 then items else items[..2]) + TranscriptionItems(Count(n))
  }

  /** Entries 0 and 1 survive a rebuild, and the channel entries follow them. */
  lemma {:induction false} RebuildKeepsLeadingItems(c: Combo, n: int)
    requires c.Valid()
    ensures var r := TranscriptionRebuilt(c, n);
      var k := if |c.items| <= 2 then |c.items| else 2;
      && |r.items| == k + Count(n)
      && r.items[..k] == c.items[..k]
      && r.items[k..] == TranscriptionItems(Count(n))
  {
    var k := if |c.items| <= 2 then |c.items| else 2;
    var r := TranscriptionRebuilt(c, n);
    assert r.items == c.items[..k] + TranscriptionItems(Count(n));
  }

  /** The selection is restored exactly when its data is still present, and at its first occurrence. */
  lemma RebuildRestoresSelection(c: Combo, n: int)
    requires c.Valid() && c.CurrentData().Some?
    ensures var r := TranscriptionRebuilt(c, n);
      var d := c.CurrentData().value;
      && ((exists j :: 0 <= j < |r.items| && r.items[j].data == d) ==>
            r.CurrentData() == Some(d) && forall j :: 0 <= j < r.index ==> r.items[j].data != d)
      && ((forall j :: 0 <= j < |r.items| ==> r.items[j].data != d) ==>
            r.index == (if c.index >= 2 then 1 else c.index))
  {
  }

  /**
   * As written, the selector starts empty, so a second rebuild keeps the
   * first two channel entries of the first one: a stereo file read twice
   * lists "Left" and "Right" twice.
   */
  lemma StaleChannelsAsWritten()
    ensures TranscriptionRebuilt(TranscriptionRebuilt(TranscriptionComboAsWritten, 2), 2).items ==
      [TranscriptionItem(0), TranscriptionItem(1), TranscriptionItem(0), TranscriptionItem(1)]
  {
    var once := TranscriptionRebuilt(TranscriptionComboAsWritten, 2);
    assert once.items == [TranscriptionItem(0), TranscriptionItem(1)];
  }

  /**
   * With the two fixed entries in place, every rebuild lists the fixed
   * entries then exactly the channels of the file, whatever was listed
   * before, and keeps the fixed entries for the next rebuild.
   */
  lemma {:induction false} RebuildWithFixedItems(c: Combo, n: int)
    requires c.Valid() && |c.items| >= 2 && c.items[..2] == FixedItems
    ensures var r := TranscriptionRebuilt(c, n);
      && r.items == FixedItems + TranscriptionItems(Count(n))
      && r.items[..2] == FixedItems
  {
    var r := TranscriptionRebuilt(c, n);
    assert (FixedItems + TranscriptionItems(Count(n)))[..2] == FixedItems;
  }

  // ---------------------------------------------------------------------
  // The delay label
  // ---------------------------------------------------------------------

  datatype Direction = RightToLeft | LeftToRight

  /** What `update_channel_delay` shows. */
  datatype DelayLabel = MonoAudio | NotDetected | Detected(ms: real, direction: Direction)

  function Abs(x: real): real {
    if x < 0.0 then -x else x
  }

  /**
   * `update_channel_delay`: a mono file shows "N/A"; a stereo file shows
   * "not detected" for no delay or one within 0.01 ms, and otherwise the
   * size of the delay, right to left when it is positive.
   */
  function DelayDecision(numChannels: int, delayMs: Option<real>): (r: DelayLabel)
    ensures r == MonoAudio <==> numChannels <= 1
    ensures r == NotDetected <==> numChannels > 1 && (delayMs.None? || Abs(delayMs.value) <= 0.01)
    ensures r.Detected? ==> delayMs.Some? && r.ms == Abs(delayMs.value) && r.ms > 0.01
    ensures r.Detected? ==> (r.direction == RightToLeft <==> delayMs.value > 0.0)
  {
    if numChannels > 1 then
      if delayMs.Some? && Abs(delayMs.value) > 0.01 then
        Detected(Abs(delayMs.value), if delayMs.value > 0.0 then RightToLeft else LeftToRight)
      else NotDetected
    else MonoAudio
  }

  /** Delaying the other channel instead shows the same size in the other direction. */
  lemma DelayDecisionSymmetric(numChannels: int, d: real)
    ensures var a := DelayDecision(numChannels, Some(d));
      var b := DelayDecision(numChannels, Some(-d));
      && a.Detected? == b.Detected?
      && (a.Detected? ==> a.ms == b.ms && a.direction != b.direction)
  {
  }

  /** The label's text; `twoDecimals` is the `:.2f` format. */
  function DelayText(shown: DelayLabel, twoDecimals: real -> string): (r: string)
    ensures shown == MonoAudio ==> r == "Time Delay: N/A (mono audio)"
    ensures shown == NotDetected ==> r == "Time Delay: not detected"
  {
    match shown
    case MonoAudio => "Time Delay: N/A (mono audio)"
    case NotDetected => "Time Delay: not detected"
    case Detected(ms, dir) =>
      "Time Delay: " + twoDecimals(ms) + " ms (" + (if dir == RightToLeft then "right→left" else "left→right") + ")"
  }

  // ---------------------------------------------------------------------
  // File names of `_save_all`
  // ---------------------------------------------------------------------

  /** "_ch<c+1>" for a file with more than one channel, else nothing. */
  function ChannelSuffix(channel: int, numChannels: int): string {
    if numChannels > 1 then "_ch" + IntToString(channel + 1) else ""
  }

  /** The visualisation name in a file name: lower case, with '-' as '_'. */
  function VisualizationKind(menuText: string): (r: string)
    ensures |r| == |menuText| && '-' !in r
    ensures forall i :: 0 <= i < |r| ==> !('A' <= r[i] <= 'Z')
  {
    ReplaceChar(Lower(menuText), '-', '_')
  }

  /** The names of the four files `_save_all` may write, in the audio file's directory. */
  datatype SaveNames = SaveNames(metadata: string, transcript: string, waveform: string, visualization: string)

  /**
   * `_save_all`'s names: the stem of the audio file, the channel suffix
   * (except on the transcript, which is per file) and the kind of file.
   */
  function SavedFiles(file: string, channel: int, numChannels: int, menuText: string): (r: SaveNames)
    ensures var base := Paths.Stem(file);
      var suffix := ChannelSuffix(channel, numChannels);
      && r.metadata == Paths.Join(Paths.Dirname(file), base + suffix + "_metadata.txt")
      && r.transcript == Paths.Join(Paths.Dirname(file), base + "_transcript.txt")
      && r.waveform == Paths.Join(Paths.Dirname(file), base + suffix + "_waveform.png")
      && r.visualization == Paths.Join(Paths.Dirname(file), base + suffix + "_" + VisualizationKind(menuText) + ".png")
      && (numChannels <= 1 ==> suffix == "")
  {
    var directory := Paths.Dirname(file);
    var base := Paths.Stem(file);
    var suffix := ChannelSuffix(channel, numChannels);
    SaveNames(
      Paths.Join(directory, base + suffix + "_metadata.txt"),
      Paths.Join(directory, base + "_transcript.txt"),
      Paths.Join(directory, base + suffix + "_waveform.png"),
      Paths.Join(directory, base + suffix + "_" + VisualizationKind(menuText) + ".png"))
  }

  lemma SuffixParts(base: string, c: int, numChannels: int, tail: string)
    requires numChannels > 1
    ensures base + ChannelSuffix(c, numChannels) + tail == (base + "_ch") + IntToString(c + 1) + tail
  {
  }

  /**
   * For a file with several channels, the metadata, waveform and
   * visualisation saved from two different channels get different names;
   * a mono file's names carry no channel.
   */
  lemma {:induction false} ChannelNamesDiffer(base: string, c1: int, c2: int, numChannels: int, tail: string)
    requires numChannels > 1 && c1 != c2
    ensures base + ChannelSuffix(c1, numChannels) + tail != base + ChannelSuffix(c2, numChannels) + tail
  {
    var x, y := IntToString(c1 + 1), IntToString(c2 + 1);
    var p := base + "_ch";
    SuffixParts(base, c1, numChannels, tail);
    SuffixParts(base, c2, numChannels, tail);
    if p + x + tail == p + y + tail {
      Middle(p, x, y, tail);
      IntToStringInjective(c1 + 1, c2 + 1);
      assert false;
    }
  }

  // ---------------------------------------------------------------------
  // The tooltip
  // ---------------------------------------------------------------------

  /** A transcription request passed to `on_transcription_requested`. */
  datatype Request = Request(file: string, channel: int, language: Option<string>, transcriptionChannel: Option<int>)

  class EnhancedTooltip {
    /** The auto-hide `QTimer`: whether it runs, and its interval in ms. */
    var timerActive: bool
    var timerInterval: int
    var autoHideSeconds: int
    var pinned: bool
    /** The checked state of the pin button. */
    var pinChecked: bool
    var visible: bool

    var currentFile: Option<string>
    var currentChannel: int
    var numChannels: int
    var channelCombo: Combo
    var channelComboEnabled: bool
    /** Whether `on_channel_changed` is set, and the channels it was called with. */
    var hasChannelCallback: bool
    var channelNotices: seq<int>

    var transcriptionCombo: Combo
    /** Whether `on_transcription_requested` is set, and the requests it received. */
    var hasTranscriptionCallback: bool
    var requests: seq<Request>

    var delayLabel: Option<DelayLabel>

    /** The timer never runs while pinned, and runs with the auto-hide interval. */
    ghost predicate TimerValid()
      reads this
    {
      && (pinned ==> !timerActive)
      && (timerActive ==> timerInterval == autoHideSeconds * 1000)
    }

    ghost predicate Valid()
      reads this
    {
      && TimerValid()
      && pinChecked == pinned
      && channelCombo.Valid() && channelCombo.items != []
      && transcriptionCombo.Valid()
    }

    /**
     * `__init__`: ten seconds of auto-hide, not pinned, channel 0 of 1, the
     * channel selector holding its mono entry, disabled. The transcription
     * selector holds its two fixed entries (see `TranscriptionComboCorrected`).
     */
    constructor ()
      ensures Valid() && !visible && !timerActive && !pinned
      ensures autoHideSeconds == 10 && currentChannel == 0 && numChannels == 1
      ensures channelCombo == Combo([MonoItem], 0) && !channelComboEnabled
      ensures transcriptionCombo == TranscriptionComboCorrected
      ensures currentFile == None && !hasChannelCallback && !hasTranscriptionCallback
      ensures channelNotices == [] && requests == [] && delayLabel == None
    {
      timerActive := false;
      timerInterval := 0;
      autoHideSeconds := 10;
      pinned := false;
      pinChecked := false;
      visible := false;
      currentFile := None;
      currentChannel := 0;
      numChannels := 1;
      channelCombo := AddItem(Empty, MonoItem);
      channelComboEnabled := false;
      hasChannelCallback := false;
      channelNotices := [];
      transcriptionCombo := TranscriptionComboCorrected;
      hasTranscriptionCallback := false;
      requests := [];
      delayLabel := None;
    }

    /** `reset_auto_hide_timer`: nothing while pinned; otherwise the timer restarts. */
    method ResetAutoHideTimer()
      requires TimerValid()
      modifies this`timerActive, this`timerInterval
      ensures TimerValid()
      ensures pinned ==> timerActive == old(timerActive) && timerInterval == old(timerInterval)
      ensures !pinned ==> timerActive && timerInterval == autoHideSeconds * 1000
    {
      if pinned {
        return;
      }
      timerActive := false;
      timerActive, timerInterval := true, autoHideSeconds * 1000;
    }

    /** `_toggle_pin`: pinning stops the timer, unpinning restarts it. */
    method TogglePin(checked: bool)
      requires TimerValid()
      modifies this`pinned, this`timerActive, this`timerInterval
      ensures TimerValid() && pinned == checked
      ensures checked ==> !timerActive
      ensures !checked ==> timerActive && timerInterval == autoHideSeconds * 1000
    {
      pinned := checked;
      if checked {
        timerActive := false;
      } else {
        ResetAutoHideTimer();
      }
    }

    /** A click on the pin button: it changes state and emits `clicked`. */
    method ClickPin()
      requires Valid()
      modifies this`pinChecked, this`pinned, this`timerActive, this`timerInterval
      ensures Valid() && pinned == !old(pinned) && pinChecked == pinned
      ensures pinned ==> !timerActive
      ensures !pinned ==> timerActive && timerInterval == autoHideSeconds * 1000
    {
      pinChecked := !pinChecked;
      TogglePin(pinChecked);
    }

    /** `force_hide`: the timer stops, the pin is released (without `clicked`), and the tooltip hides. */
    method ForceHide()
      requires Valid()
      modifies this`timerActive, this`pinChecked, this`pinned, this`visible
      ensures Valid() && !timerActive && !pinned && !pinChecked && !visible
    {
      timerActive := false;
      pinChecked := false;
      pinned := false;
      visible := false;
    }

    /** `enterEvent`: the pointer over the tooltip stops the timer. */
    method Enter()
      requires Valid()
      modifies this`timerActive
      ensures Valid() && !timerActive
    {
      timerActive := false;
    }

    /** `leaveEvent`: leaving restarts the timer unless pinned. */
    method Leave()
      requires Valid()
      modifies this`timerActive, this`timerInterval
      ensures Valid()
      ensures !pinned ==> timerActive && timerInterval == autoHideSeconds * 1000
      ensures pinned ==> !timerActive
    {
      ResetAutoHideTimer();
    }

    /**
     * `_on_channel_changed`: the selected data, 0 when there is none,
     * becomes the current channel and is passed to the callback, but only
     * when it differs and a callback is set.
     */
    method OnChannelChanged()
      modifies this`currentChannel, this`channelNotices
      ensures var c := channelCombo.CurrentData().GetOr(0);
        if c != old(currentChannel) && hasChannelCallback
        then currentChannel == c && channelNotices == old(channelNotices) + [c]
        else currentChannel == old(currentChannel) && channelNotices == old(channelNotices)
    {
      var c := channelCombo.CurrentData().GetOr(0);
      if c != currentChannel && hasChannelCallback {
        currentChannel := c;
        channelNotices := channelNotices + [c];
      }
    }

    /** The user picks entry `i` of the channel selector. */
    method ChooseChannel(i: int)
      requires Valid() && 0 <= i < |channelCombo.items|
      modifies this`channelCombo, this`currentChannel, this`channelNotices
      ensures Valid() && channelCombo == old(channelCombo).(index := i)
      ensures var c := channelCombo.items[i].data;
        if i != old(channelCombo.index) && c != old(currentChannel) && hasChannelCallback
        then currentChannel == c && channelNotices == old(channelNotices) + [c]
        else currentChannel == old(currentChannel) && channelNotices == old(channelNotices)
    {
      if i != channelCombo.index {
        channelCombo := channelCombo.(index := i);
        OnChannelChanged();
      }
    }

    /**
     * `update_channels(n, channel)`. A mono file gets the single mono entry,
     * channel 0 of 1 and a disabled selector; its `clear` and `addItem`
     * are not signal-blocked, so the callback hears channel 0 once when the
     * current channel was another one. Otherwise the selector lists the `n`
     * channels, selects `channel` where it is listed, and is enabled; the
     * given channel and count are stored as they are, without signals.
     */
    method UpdateChannels(n: int, channel: int)
      requires Valid()
      modifies this`channelCombo, this`channelComboEnabled, this`currentChannel, this`numChannels, this`channelNotices
      ensures Valid()
      ensures n <= 1 ==>
        && channelCombo == Combo([MonoItem], 0) && !channelComboEnabled
        && currentChannel == 0 && numChannels == 1
        && channelNotices == old(channelNotices) + (if hasChannelCallback && old(currentChannel) != 0 then [0] else [])
      ensures n > 1 ==>
        && channelCombo.items == ChannelItems(n)
        && channelCombo.index == (if 0 <= channel < n then channel else 0)
        && channelComboEnabled && currentChannel == channel && numChannels == n
        && channelNotices == old(channelNotices)
    {
      if n <= 1 {
        ShowMono();
      } else {
        ListChannels(n, channel);
      }
    }

    /** The mono branch of `update_channels`. */
    method ShowMono()
      requires Valid()
      modifies this`channelCombo, this`channelComboEnabled, this`currentChannel, this`numChannels, this`channelNotices
      ensures Valid()
      ensures channelCombo == Combo([MonoItem], 0) && !channelComboEnabled
      ensures currentChannel == 0 && numChannels == 1
      ensures channelNotices == old(channelNotices) + (if hasChannelCallback && old(currentChannel) != 0 then [0] else [])
    {
      channelComboEnabled := false;
      channelCombo := Empty;
      assert channelCombo.CurrentData() == None;
      OnChannelChanged();
      channelCombo := AddItem(channelCombo, MonoItem);
      assert channelCombo.CurrentData() == Some(0);
      OnChannelChanged();
      currentChannel := 0;
      numChannels := 1;
    }

    /** The branch of `update_channels` for several channels, with the selector's signals blocked. */
    method ListChannels(n: int, channel: int)
      requires Valid() && n > 1
      modifies this`channelCombo, this`channelComboEnabled, this`currentChannel, this`numChannels
      ensures Valid()
      ensures channelCombo.items == ChannelItems(n)
      ensures channelCombo.index == (if 0 <= channel < n then channel else 0)
      ensures channelComboEnabled && currentChannel == channel && numChannels == n
    {
      channelCombo := Empty;
      for i := 0 to n
        invariant channelCombo.items == ChannelItems(i)
        invariant channelCombo.index == if i == 0 then -1 else 0
      {
        channelCombo := AddItem(channelCombo, ChannelItem(i));
      }
      var index := FindData(channelCombo.items, channel);
      assert 0 <= channel < n ==> channelCombo.items[channel].data == channel;
      if index >= 0 {
        channelCombo := channelCombo.(index := index);
      }
      currentChannel := channel;
      numChannels := n;
      channelComboEnabled := true;
    }

    /**
     * `update_transcription_channels(n)`: entries past the second are
     * removed one by one, one entry per channel is appended, and the
     * earlier selection is restored when its data is still listed.
     */
    method UpdateTranscriptionChannels(n: int)
      requires transcriptionCombo.Valid()
      modifies this`transcriptionCombo
      ensures transcriptionCombo == TranscriptionRebuilt(old(transcriptionCombo), n)
    {
      var selection := transcriptionCombo.CurrentData();
      ghost var start := transcriptionCombo;
      while |transcriptionCombo.items| > 2
        invariant transcriptionCombo.Valid()
        invariant |start.items| > 2 ==> |transcriptionCombo.items| >= 2
        invariant |start.items| <= 2 ==> transcriptionCombo == start
        invariant |start.items| > 2 ==> transcriptionCombo.items[..2] == start.items[..2]
        invariant start.index < 2 ==> transcriptionCombo.index == start.index
        invariant start.index >= 2 ==> transcriptionCombo.index >= 1
        decreases |transcriptionCombo.items|
      {
        transcriptionCombo := RemoveItem(transcriptionCombo, 2);
      }
      ghost var kept := transcriptionCombo.items;
      assert kept == (if |start.items| <= 2 then start.items else start.items[..2]);
      for i := 0 to Count(n)
        invariant transcriptionCombo.Valid()
        invariant transcriptionCombo.items == kept + TranscriptionItems(i)
        invariant transcriptionCombo.index ==
          if start.index >= 2 then 1 else if start.index == -1 && transcriptionCombo.items != [] then 0 else start.index
      {
        transcriptionCombo := AddItem(transcriptionCombo, TranscriptionItem(i));
      }
      if selection.Some? {
        var index := FindData(transcriptionCombo.items, selection.value);
        if index >= 0 {
          transcriptionCombo := transcriptionCombo.(index := index);
        }
      }
    }

    /**
     * `_run_transcription`: without a current file nothing happens; the
     * "current channel" entry stands for the current channel; the request
     * goes to the callback, and calling an unset callback raises. The
     * tooltip's language selector is created but never given an entry, so
     * its `currentData()` is always `None` and the request carries no
     * language.
     */
    method RunTranscription() returns (raised: bool)
      modifies this`requests
      ensures currentFile.None? || currentFile.value == [] ==> !raised && requests == old(requests)
      ensures currentFile.Some? && currentFile.value != [] ==>
        var selected := transcriptionCombo.CurrentData();
        var channel := if selected == Some(CurrentChannelData) then Some(currentChannel) else selected;
        && raised == !hasTranscriptionCallback
        && requests == old(requests) + (if raised then [] else [Request(currentFile.value, currentChannel, None, channel)])
    {
      if currentFile.None? || currentFile.value == [] {
        return false;
      }
      var selected := transcriptionCombo.CurrentData();
      if selected == Some(CurrentChannelData) {
        selected := Some(currentChannel);
      }
      if !hasTranscriptionCallback {
        return true;
      }
      requests := requests + [Request(currentFile.value, currentChannel, None, selected)];
      raised := false;
    }

    /** `update_channel_delay`: the label shows the decision for the stored channel count. */
    method UpdateChannelDelay(delayMs: Option<real>)
      modifies this`delayLabel
      ensures delayLabel == Some(DelayDecision(numChannels, delayMs))
    {
      var shown: DelayLabel;
      if numChannels > 1 {
        if delayMs.Some? && Abs(delayMs.value) > 0.01 {
          shown := Detected(Abs(delayMs.value), if delayMs.value > 0.0 then RightToLeft else LeftToRight);
        } else {
          shown := NotDetected;
        }
      } else {
        shown := MonoAudio;
      }
      delayLabel := Some(shown);
    }
  }
}
