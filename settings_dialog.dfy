/**
 * The settings dialog: its widgets' state, loading that state from the
 * settings store and writing it back.
 *
 * Qt behaviour the model keeps: a check box emits `stateChanged` only when
 * its state changes, a spin box clamps a value to its range, and PyQt
 * refuses (raises on) an integer outside the 32-bit range. The Windows
 * start-up check box and its registry access are not part of this model.
 */
module SettingsDialog {
  import opened Common
  import opened Text
  import opened SettingsStore

  /** Item data of the transcription-duration combo box. */
  const DurationData: seq<string> := ["preview", "60", "full"]

  /** Item texts of the Azure region combo box. */
  const Regions: seq<string> :=
    ["eastus", "eastus2", "westus", "westus2", "centralus", "northeurope", "westeurope", "southeastasia", "eastasia"]

  /** Item data of the language combo box ("" is auto-detect). */
  const LanguageData: seq<string> := ["", "en-US", "en-GB", "es-ES", "fr-FR", "de-DE", "it-IT", "ja-JP", "zh-CN"]

  /** `findData` / `findText`: the first index holding `x`, or -1. */
  function Find(items: seq<string>, x: string): (i: int)
    ensures -1 <= i < |items|
    ensures i >= 0 ==> items[i] == x && x !in items[..i]
    ensures i == -1 <==> x !in items
  {
    if items == [] then -1
    else if items[0] == x then 0
    else
      var j := Find(items[1..], x);
      if j == -1 then -1 else j + 1
  }

  /** `QSpinBox.setValue`: the value moved into the box's range. */
  function Clamp(v: int, lo: int, hi: int): (r: int)
    requires lo <= hi
    ensures lo <= r <= hi
    ensures lo <= v <= hi ==> r == v
  {
    if v < lo then lo else if v > hi then hi else v
  }

  /** Integers PyQt can pass to a C++ `int`. */
  predicate FitsCInt(v: int) {
    -0x8000_0000 <= v < 0x8000_0000
  }

  /** How a boolean is stored. */
  function BoolText(b: bool): (s: string)
    ensures s == "true" || s == "false"
    ensures (s == "true") == b
  {
    if b then "true" else "false"
  }

  /** The state of the dialog's widgets that the settings touch. */
  datatype View = View(
    autoClose: bool,
    autoCloseTime: int,
    previewDuration: int,
    wholeSignal: bool,
    previewEnabled: bool,
    transcription: bool,
    azureKey: string,
    durationIndex: int,
    regionIndex: int,
    languageIndex: int,
    inputsEnabled: bool)
  {
    /** Every spin box within its range and every combo box on one of its items. */
    predicate Valid() {
      && 1 <= autoCloseTime <= 60
      && 5 <= previewDuration <= 3600
      && 0 <= durationIndex < |DurationData|
      && 0 <= regionIndex < |Regions|
      && 0 <= languageIndex < |LanguageData|
    }
  }

  /** The widgets as `_init_ui` leaves them, before anything is loaded. */
  const Initial: View := View(true, 10, 10, true, true, false, "", 0, 0, 0, false)

  /** The store after `_apply_settings` writes the nine keys. */
  function Applied(values: map<string, string>, v: View): map<string, string>
    requires v.Valid()
  {
    values["auto_close" := BoolText(v.autoClose)]
      ["auto_close_time" := IntToString(v.autoCloseTime)]
      ["preview_duration" := IntToString(v.previewDuration)]
      ["use_whole_signal" := BoolText(v.wholeSignal)]
      ["enable_transcription" := BoolText(v.transcription)]
      ["transcription_duration" := DurationData[v.durationIndex]]
      ["azure_key" := v.azureKey]
      ["azure_region" := Regions[v.regionIndex]]
      ["transcription_language" := LanguageData[v.languageIndex]]
  }

  /**
   * The settings `_load_settings` reads after the two spin boxes, with its
   * defaults for absent keys; the flags are compared with "true".
   */
  datatype Choices = Choices(
    wholeSignal: bool,
    transcription: bool,
    duration: string,
    azureKey: string,
    region: string,
    language: string)

  /**
   * The nine settings as `_load_settings` reads them: the two numbers are
   * passed through Python's `int()` (`None` where `int()` raises).
   */
  datatype Stored = Stored(autoClose: bool, autoCloseTime: Option<int>, previewDuration: Option<int>, choices: Choices)

  function ReadChoices(values: map<string, string>): Choices {
    Choices(
      Lookup(values, "use_whole_signal", "true") == "true",
      Lookup(values, "enable_transcription", "false") == "true",
      Lookup(values, "transcription_duration", "preview"),
      Lookup(values, "azure_key", ""),
      Lookup(values, "azure_region", "eastus"),
      Lookup(values, "transcription_language", ""))
  }

  /**
   * Python's `int()` on a stored value, `None` where it raises. The dialog
   * holds `Text.ParseInt` here; the load is stated for any such reader.
   */
  type IntParser = string -> Option<int>

  /** A reader that reads back every decimal integer `IntToString` writes. */
  ghost predicate ReadsIntegers(toInt: IntParser) {
    forall i: int {:trigger IntToString(i)} :: toInt(IntToString(i)) == Some(i)
  }

  lemma ParseIntReadsIntegers()
    ensures ReadsIntegers(ParseInt)
  {
    forall i: int
      ensures ParseInt(IntToString(i)) == Some(i)
    {
      ParseIntOfIntToString(i);
    }
  }

  function Read(values: map<string, string>, toInt: IntParser): Stored {
    Stored(
      Lookup(values, "auto_close", "true") == "true",
      toInt(Lookup(values, "auto_close_time", "4")),
      toInt(Lookup(values, "preview_duration", "10")),
      ReadChoices(values))
  }

  /** `setValue` on a spin box: `None` where PyQt raises (no number, or one beyond a C++ `int`). */
  function SpinValue(n: Option<int>, lo: int, hi: int): (r: Option<int>)
    requires lo <= hi
    ensures r.Some? <==> n.Some? && FitsCInt(n.value)
    ensures r.Some? ==> lo <= r.value <= hi && (lo <= n.value <= hi ==> r.value == n.value)
  {
    if n.Some? && FitsCInt(n.value) then Some(Clamp(n.value, lo, hi)) else None
  }

  /** `findData`/`findText` followed by `setCurrentIndex` only when the item was found. */
  function Selected(items: seq<string>, x: string, current: int): (i: int)
    ensures x in items ==> 0 <= i < |items| && items[i] == x
    ensures x !in items ==> i == current
  {
    var k := Find(items, x);
    if k >= 0 then k else current
  }

  /**
   * The widgets after the load's second stage: the whole-signal box and the
   * preview spin box's enabled state, the transcription box and the inputs it
   * enables, the key, and the three combo boxes.
   */
  function Chosen(w: View, c: Choices): (v: View)
    ensures w.Valid() ==> v.Valid()
  {
    WithTranscription(w.(wholeSignal := c.wholeSignal, previewEnabled := !c.wholeSignal), c)
  }

  /** The widgets after the transcription box, the key and the three combo boxes are loaded. */
  function WithTranscription(w: View, c: Choices): View {
    w.(transcription := c.transcription,
       azureKey := c.azureKey,
       durationIndex := Selected(DurationData, c.duration, w.durationIndex),
       regionIndex := Selected(Regions, c.region, w.regionIndex),
       languageIndex := Selected(LanguageData, c.language, w.languageIndex),
       inputsEnabled := c.transcription)
  }

  /**
   * Whether loading ran to the end, the widgets after it, and whether the
   * whole-signal box changed state, which writes `use_whole_signal` back.
   */
  datatype LoadOutcome = LoadOutcome(ok: bool, view: View, writesWholeSignal: bool)

  /**
   * The load's first stage, on the widgets `w`: the auto-close box and the
   * two spin boxes. `false` where `int()` or `setValue` raises, with the
   * widgets set before that point.
   */
  function LoadNumbers(w: View, s: Stored): (r: (bool, View))
    ensures w.Valid() ==> r.1.Valid()
    ensures r.1 == w.(autoClose := r.1.autoClose, autoCloseTime := r.1.autoCloseTime, previewDuration := r.1.previewDuration)
  {
    var t := SpinValue(s.autoCloseTime, 1, 60);
    var p := SpinValue(s.previewDuration, 5, 3600);
    if t.None? then (false, w.(autoClose := s.autoClose))
    else if p.None? then (false, w.(autoClose := s.autoClose, autoCloseTime := t.value))
    else (true, w.(autoClose := s.autoClose, autoCloseTime := t.value, previewDuration := p.value))
  }

  /**
   * `_load_settings` (without the start-up check box) applied to the widgets
   * `w`. A number that `int()` or `setValue` refuses stops the load with the
   * earlier widgets already set.
   */
  function Load(w: View, s: Stored): LoadOutcome {
    var (ok, v) := LoadNumbers(w, s);
    if !ok then LoadOutcome(false, v, false)
    else LoadOutcome(true, Chosen(v, s.choices), s.choices.wholeSignal != w.wholeSignal)
  }

  /** The store after loading from `values` into the widgets `w`. */
  function StoreAfterLoad(values: map<string, string>, w: View, toInt: IntParser): map<string, string> {
    var s := Read(values, toInt);
    if Load(w, s).writesWholeSignal then values["use_whole_signal" := BoolText(s.choices.wholeSignal)] else values
  }

  /** Writing back `use_whole_signal` changes nothing else the load reads. */
  lemma ReadAfterWholeSignalWrite(values: map<string, string>, b: bool)
    ensures ReadChoices(values["use_whole_signal" := BoolText(b)]) == ReadChoices(values).(wholeSignal := b)
  {
  }

  /** Loading keeps the widgets valid, whether or not it runs to the end. */
  lemma LoadValid(w: View, s: Stored)
    requires w.Valid()
    ensures Load(w, s).view.Valid()
  {
  }

  /**
   * Loading fails exactly when one of the two numbers is not a Python
   * integer that fits a C++ `int`; it writes the store only when the
   * whole-signal box changes state; after a successful load the preview spin
   * box is enabled exactly when the whole-signal box is unchecked, and the
   * Azure inputs exactly when transcription is enabled.
   */
  lemma LoadOutcomeFacts(w: View, s: Stored)
    ensures var o := Load(w, s);
      && (o.ok <==> s.autoCloseTime.Some? && FitsCInt(s.autoCloseTime.value)
                    && s.previewDuration.Some? && FitsCInt(s.previewDuration.value))
      && (o.writesWholeSignal <==> o.ok && s.choices.wholeSignal != w.wholeSignal)
      && o.view.autoClose == s.autoClose
      && (o.ok ==> o.view.wholeSignal == s.choices.wholeSignal && o.view.previewEnabled == !s.choices.wholeSignal)
      && (o.ok ==> o.view.transcription == s.choices.transcription && o.view.inputsEnabled == s.choices.transcription)
      && (!o.ok ==> o.view.(autoClose := w.autoClose, autoCloseTime := w.autoCloseTime) == w)
  {
  }

  /**
   * A stored duration, region or language that is not among the combo
   * box's items leaves that selection as it was; one that is selects it.
   */
  lemma ChosenSelections(w: View, c: Choices)
    ensures c.duration !in DurationData ==> Chosen(w, c).durationIndex == w.durationIndex
    ensures c.duration in DurationData ==> DurationData[Chosen(w, c).durationIndex] == c.duration
    ensures c.region !in Regions ==> Chosen(w, c).regionIndex == w.regionIndex
    ensures c.region in Regions ==> Regions[Chosen(w, c).regionIndex] == c.region
    ensures c.language !in LanguageData ==> Chosen(w, c).languageIndex == w.languageIndex
    ensures c.language in LanguageData ==> LanguageData[Chosen(w, c).languageIndex] == c.language
  {
  }

  /** With nothing stored, the load reads the source's defaults. */
  lemma ReadDefaults()
    ensures Read(map[], ParseInt) == Stored(true, Some(4), Some(10), Choices(true, false, "preview", "", "eastus", ""))
  {
    assert ParseInt("4") == Some(4) by {
      ParseIntOfIntToString(4);
    }
    assert ParseInt("10") == Some(10) by {
      ParseIntOfIntToString(10);
      assert IntToString(10) == "10";
    }
  }

  /** No combo box repeats an item. */
  predicate Distinct(items: seq<string>) {
    forall a, b :: 0 <= a < b < |items| ==> items[a] != items[b]
  }

  lemma ItemsDistinct()
    ensures Distinct(DurationData) && Distinct(Regions) && Distinct(LanguageData)
  {
  }

  /** In a list without repeats, an item is found at its own index. */
  lemma {:induction false} FindDistinct(items: seq<string>, i: nat)
    requires i < |items| && Distinct(items)
    ensures Find(items, items[i]) == i
  {
    var j := Find(items, items[i]);
    assert items[i] !in items[..i];
    assert j <= i by {
      assert items[..i + 1][i] == items[i];
    }
  }

  /** Each key `_apply_settings` writes holds what the widgets held. */
  lemma AppliedKeys(values: map<string, string>, v: View)
    requires v.Valid()
    ensures var a := Applied(values, v);
      && a["auto_close"] == BoolText(v.autoClose)
      && a["auto_close_time"] == IntToString(v.autoCloseTime)
      && a["preview_duration"] == IntToString(v.previewDuration)
      && a["use_whole_signal"] == BoolText(v.wholeSignal)
      && a["enable_transcription"] == BoolText(v.transcription)
      && a["transcription_duration"] == DurationData[v.durationIndex]
      && a["azure_key"] == v.azureKey
      && a["azure_region"] == Regions[v.regionIndex]
      && a["transcription_language"] == LanguageData[v.languageIndex]
  {
  }

  /** What the load reads from an applied store is what the widgets held. */
  lemma {:induction false} ReadApplied(values: map<string, string>, v: View, toInt: IntParser)
    requires v.Valid() && ReadsIntegers(toInt)
    ensures Read(Applied(values, v), toInt) == AsStored(v)
  {
    var a := Applied(values, v);
    AppliedKeys(values, v);
    assert ReadChoices(a) == AsStored(v).choices;
    assert toInt(IntToString(v.autoCloseTime)) == Some(v.autoCloseTime);
    assert toInt(IntToString(v.previewDuration)) == Some(v.previewDuration);
  }

  lemma RewriteSameValue(m: map<string, string>, k: string)
    requires k in m
    ensures m[k := m[k]] == m
  {
  }

  /** The settings as `_apply_settings` writes them from the widgets `v`. */
  function AsStored(v: View): Stored
    requires v.Valid()
  {
    Stored(v.autoClose, Some(v.autoCloseTime), Some(v.previewDuration),
      Choices(v.wholeSignal, v.transcription, DurationData[v.durationIndex], v.azureKey,
              Regions[v.regionIndex], LanguageData[v.languageIndex]))
  }

  /** Selecting an item the widgets `v` show selects it again, whatever was selected before. */
  lemma SelectsOwnItems(v: View, w: View)
    requires v.Valid()
    ensures Selected(DurationData, DurationData[v.durationIndex], w.durationIndex) == v.durationIndex
    ensures Selected(Regions, Regions[v.regionIndex], w.regionIndex) == v.regionIndex
    ensures Selected(LanguageData, LanguageData[v.languageIndex], w.languageIndex) == v.languageIndex
  {
    ItemsDistinct();
    FindDistinct(DurationData, v.durationIndex);
    FindDistinct(Regions, v.regionIndex);
    FindDistinct(LanguageData, v.languageIndex);
  }

  /** Loading the settings the widgets `v` wrote puts every one of them back. */
  lemma {:induction false} LoadAsStored(v: View, w: View)
    requires v.Valid()
    ensures var o := Load(w, AsStored(v));
      && o.ok
      && o.view == v.(previewEnabled := !v.wholeSignal, inputsEnabled := v.transcription)
      && (o.writesWholeSignal <==> v.wholeSignal != w.wholeSignal)
  {
    SelectsOwnItems(v, w);
  }

  /**
   * Loading what was applied restores every setting the dialog shows,
   * whatever the widgets held before, and leaves the store as applied.
   */
  lemma {:induction false} ApplyThenLoad(values: map<string, string>, v: View, w: View, toInt: IntParser)
    requires v.Valid() && ReadsIntegers(toInt)
    ensures var o := Load(w, Read(Applied(values, v), toInt));
      && o.ok
      && o.view == v.(previewEnabled := !v.wholeSignal, inputsEnabled := v.transcription)
      && StoreAfterLoad(Applied(values, v), w, toInt) == Applied(values, v)
  {
    var a := Applied(values, v);
    ReadApplied(values, v, toInt);
    LoadAsStored(v, w);
    AppliedKeys(values, v);
    RewriteSameValue(a, "use_whole_signal");
  }

  /**
   * The dialog: the store it reads and writes, its widgets' state, and
   * whether it was accepted.
   */
  class Dialog {
    const store: Store
    /** The `int()` the load applies to the two stored numbers. */
    const toInt: IntParser
    var widgets: View
    var accepted: bool

    ghost predicate Valid()
      reads this
    {
      widgets.Valid()
    }

    /**
     * `_init_ui`: the widgets' initial values. The inputs start enabled, as
     * Qt widgets do, until `_toggle_transcription_options(Unchecked)`
     * disables them.
     */
    constructor (store: Store)
      ensures this.store == store && toInt == ParseInt && widgets == Initial && !accepted && Valid()
    {
      this.store := store;
      toInt := ParseInt;
      widgets := Initial.(inputsEnabled := true);
      accepted := false;
      new;
      ToggleTranscriptionOptions(false);
    }

    /** `_toggle_preview_duration`: the spin box follows the box, and the flag is written at once. */
    method TogglePreviewDuration(checked: bool)
      modifies this, store
      ensures widgets == old(widgets).(previewEnabled := !checked)
      ensures store.values == old(store.values)["use_whole_signal" := BoolText(checked)]
      ensures accepted == old(accepted)
    {
      widgets := widgets.(previewEnabled := !checked);
      store.SetValue("use_whole_signal", BoolText(checked));
    }

    /** `_toggle_transcription_options`: the key, region and language inputs follow the box. */
    method ToggleTranscriptionOptions(enabled: bool)
      modifies this
      ensures widgets == old(widgets).(inputsEnabled := enabled)
      ensures accepted == old(accepted)
    {
      widgets := widgets.(inputsEnabled := enabled);
    }

    /** `whole_signal_check.setChecked`: `stateChanged` reaches the toggle only on a change. */
    method SetWholeSignalChecked(checked: bool)
      modifies this, store
      ensures old(widgets.wholeSignal) != checked ==>
        && widgets == old(widgets).(wholeSignal := checked, previewEnabled := !checked)
        && store.values == old(store.values)["use_whole_signal" := BoolText(checked)]
      ensures old(widgets.wholeSignal) == checked ==> widgets == old(widgets) && store.values == old(store.values)
      ensures accepted == old(accepted)
    {
      if widgets.wholeSignal != checked {
        widgets := widgets.(wholeSignal := checked);
        TogglePreviewDuration(checked);
      }
    }

    /** `enable_transcription_check.setChecked`, with the same rule. */
    method SetTranscriptionChecked(checked: bool)
      modifies this
      ensures old(widgets.transcription) != checked ==>
        widgets == old(widgets).(transcription := checked, inputsEnabled := checked)
      ensures old(widgets.transcription) == checked ==> widgets == old(widgets)
      ensures accepted == old(accepted)
    {
      if widgets.transcription != checked {
        widgets := widgets.(transcription := checked);
        ToggleTranscriptionOptions(checked);
      }
    }

    /** `_load_settings`, without the start-up check box; `ok` is false where it raises. */
    method LoadSettings() returns (ok: bool)
      requires Valid()
      modifies this, store
      ensures Valid()
      ensures var o := Load(old(widgets), Read(old(store.values), toInt));
        ok == o.ok && widgets == o.view
      ensures store.values == StoreAfterLoad(old(store.values), old(widgets), toInt)
      ensures accepted == old(accepted)
    {
      ghost var s := Read(store.values, toInt);
      ghost var w := widgets;
      ok := LoadSpinBoxes();
      ghost var n := widgets;
      assert n.wholeSignal == w.wholeSignal && n.Valid();
      if ok {
        LoadChoices();
        assert widgets == Chosen(n, s.choices);
      }
      assert Load(w, s).ok == ok;
    }

    /** The auto-close box and the two spin boxes, from the store read as `s`. */
    method LoadSpinBoxes() returns (ok: bool)
      requires Valid()
      modifies this
      ensures (ok, widgets) == LoadNumbers(old(widgets), Read(store.values, toInt))
      ensures accepted == old(accepted)
    {
      ghost var s := Read(store.values, toInt);
      ghost var r := LoadNumbers(widgets, s);
      widgets := widgets.(autoClose := Lookup(store.values, "auto_close", "true") == "true");
      var t := SpinValue(toInt(Lookup(store.values, "auto_close_time", "4")), 1, 60);
      if t.None? {
        assert r == (false, widgets);
        return false;
      }
      widgets := widgets.(autoCloseTime := t.value);
      var p := SpinValue(toInt(Lookup(store.values, "preview_duration", "10")), 5, 3600);
      if p.None? {
        assert r == (false, widgets);
        return false;
      }
      widgets := widgets.(previewDuration := p.value);
      ok := true;
      assert r == (true, widgets);
    }

    /** The rest of `_load_settings`, from the whole-signal box on. */
    method LoadChoices()
      requires Valid()
      modifies this, store
      ensures Valid()
      ensures widgets == Chosen(old(widgets), ReadChoices(old(store.values)))
      ensures store.values ==
        if ReadChoices(old(store.values)).wholeSignal != old(widgets.wholeSignal)
        then old(store.values)["use_whole_signal" := BoolText(!old(widgets.wholeSignal))]
        else old(store.values)
      ensures accepted == old(accepted)
    {
      var whole := Lookup(store.values, "use_whole_signal", "true") == "true";
      SetWholeSignalChecked(whole);
      ReadAfterWholeSignalWrite(old(store.values), whole);
      widgets := widgets.(previewEnabled := !whole);
      LoadTranscription();
    }

    /** The transcription box, the key and the three combo boxes, from the store as it stands. */
    method LoadTranscription()
      requires Valid()
      modifies this
      ensures Valid()
      ensures widgets == WithTranscription(old(widgets), ReadChoices(store.values))
      ensures accepted == old(accepted)
    {
      SetTranscriptionChecked(Lookup(store.values, "enable_transcription", "false") == "true");
      widgets := widgets.(azureKey := Lookup(store.values, "azure_key", ""));
      widgets := widgets.(durationIndex :=
        Selected(DurationData, Lookup(store.values, "transcription_duration", "preview"), widgets.durationIndex));
      widgets := widgets.(regionIndex :=
        Selected(Regions, Lookup(store.values, "azure_region", "eastus"), widgets.regionIndex));
      widgets := widgets.(languageIndex :=
        Selected(LanguageData, Lookup(store.values, "transcription_language", ""), widgets.languageIndex));
      ToggleTranscriptionOptions(widgets.transcription);
    }

    /** `_apply_settings`: the nine keys written from the widgets. */
    method ApplySettings()
      requires Valid()
      modifies store
      ensures store.values == Applied(old(store.values), widgets)
    {
      var v := widgets;
      store.SetValue("auto_close", BoolText(v.autoClose));
      store.SetValue("auto_close_time", IntToString(v.autoCloseTime));
      store.SetValue("preview_duration", IntToString(v.previewDuration));
      store.SetValue("use_whole_signal", BoolText(v.wholeSignal));
      store.SetValue("enable_transcription", BoolText(v.transcription));
      store.SetValue("transcription_duration", DurationData[v.durationIndex]);
      store.SetValue("azure_key", v.azureKey);
      store.SetValue("azure_region", Regions[v.regionIndex]);
      store.SetValue("transcription_language", LanguageData[v.languageIndex]);
    }

    /** `accept`: the settings are written, then the dialog closes as accepted. */
    method Accept()
      requires Valid()
      modifies this, store
      ensures store.values == Applied(old(store.values), old(widgets))
      ensures widgets == old(widgets) && accepted
    {
      ApplySettings();
      accepted := true;
    }
  }

  /**
   * `SettingsDialog(parent, settings)`: the widgets are built, then loaded;
   * a load that raises makes the construction raise (`null`).
   */
  method Open(store: Store) returns (dialog: Dialog?)
    modifies store
    ensures dialog != null ==> fresh(dialog) && dialog.store == store && dialog.Valid() && !dialog.accepted
    ensures var o := Load(Initial, Read(old(store.values), ParseInt));
      && (dialog != null <==> o.ok)
      && (dialog != null ==> dialog.widgets == o.view)
    ensures store.values == StoreAfterLoad(old(store.values), Initial, ParseInt)
  {
    var d := new Dialog(store);
    var ok := d.LoadSettings();
    dialog := if ok then d else null;
  }
}
