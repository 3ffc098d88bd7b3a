/**
 * Three small computations of the audio analyzer: the "m:ss" duration text
 * of the metadata panel, the length of audio sent to transcription, and the
 * decimation of a long waveform before plotting.
 */
module AnalyzerHelpers {
  import opened Common
  import opened Text
  import SettingsStore
  import DelayEstimation

  // ---------------------------------------------------------------------
  // Duration text
  // ---------------------------------------------------------------------

  /** `int(d // 60)` and `int(d % 60)` with Python's floored float division. */
  function DurationParts(d: real): (p: (int, int))
    ensures 0 <= p.1 < 60
    ensures p.0 * 60 + p.1 == d.Floor
  {
    var minutes := (d / 60.0).Floor;
    var rest := d - 60.0 * (minutes as real);
    assert 0.0 <= rest < 60.0;
    var seconds := rest.Floor;
    assert d == (60 * minutes) as real + rest;
    FloorShift(rest, 60 * minutes);
    (minutes, seconds)
  }

  lemma FloorShift(x: real, n: int)
    ensures (x + n as real).Floor == x.Floor + n
  {
  }

  /** `f"{n:02d}"` for 0 ≤ n < 100. */
  function TwoDigits(n: nat): (s: string)
    requires n < 100
    ensures |s| == 2 && IsDigit(s[0]) && IsDigit(s[1])
    ensures DigitValue(s[0]) * 10 + DigitValue(s[1]) == n
  {
    [DigitChar(n / 10), DigitChar(n % 10)]
  }

  /** `f"{minutes}:{seconds:02d}"`. */
  function FormatParts(minutes: int, seconds: nat): (s: string)
    requires seconds < 60
    ensures |s| >= 4 && s[|s| - 3] == ':'
  {
    IntToString(minutes) + ":" + TwoDigits(seconds)
  }

  /** The "m:ss" text of a duration in seconds. */
  function FormatDuration(d: real): (s: string)
    ensures |s| >= 4 && s[|s| - 3] == ':'
  {
    var p := DurationParts(d);
    FormatParts(p.0, p.1)
  }

  /** "<minutes>:<ss>" splits back into its two numbers. */
  lemma PartsReadBack(minutes: int, seconds: nat)
    requires seconds < 60
    ensures var s := FormatParts(minutes, seconds);
      && ParseInt(s[..|s| - 3]) == Some(minutes)
      && IsDigit(s[|s| - 2]) && IsDigit(s[|s| - 1])
      && DigitValue(s[|s| - 2]) * 10 + DigitValue(s[|s| - 1]) == seconds
  {
    var m := IntToString(minutes);
    var t := TwoDigits(seconds);
    var s := FormatParts(minutes, seconds);
    assert s[..|s| - 3] == m;
    assert s[|s| - 2] == t[0] && s[|s| - 1] == t[1];
    ParseIntOfIntToString(minutes);
  }

  /**
   * The text reads back as the parts of the duration: the part before the
   * colon parses as the minutes and the two digits after it give the
   * seconds, which `DurationParts` ties to ⌊d⌋ = minutes·60 + seconds.
   */
  lemma FormatDurationReadsBack(d: real)
    ensures var s := FormatDuration(d);
      var p := DurationParts(d);
      && ParseInt(s[..|s| - 3]) == Some(p.0)
      && IsDigit(s[|s| - 2]) && IsDigit(s[|s| - 1])
      && DigitValue(s[|s| - 2]) * 10 + DigitValue(s[|s| - 1]) == p.1
  {
    var p := DurationParts(d);
    PartsReadBack(p.0, p.1);
  }

  // ---------------------------------------------------------------------
  // Transcription length
  // ---------------------------------------------------------------------

  /** Python's `float(text)`, which the model leaves to the caller. */
  type FloatParser = string -> Option<real>

  /** A parser that reads decimal integers, and "10.0", as Python's `float` does. */
  ghost predicate ReadsDecimals(parse: FloatParser) {
    && parse("10.0") == Some(10.0)
    && forall i: int {:trigger IntToString(i)} :: parse(IntToString(i)) == Some(i as real)
  }

  /**
   * The length of audio `transcribe_audio` loads, in seconds; `None` means
   * the whole file.
   */
  function TranscriptionMaxDuration(settings: map<string, string>, parseFloat: FloatParser): Option<real> {
    var choice := SettingsStore.Lookup(settings, "transcription_duration", "preview");
    if choice == "preview" then
      if SettingsStore.Lookup(settings, "use_whole_signal", "false") == "true" then None
      else Some(parseFloat(SettingsStore.Lookup(settings, "preview_duration", "10.0")).GetOr(10.0))
    else if choice == "60" then Some(60.0)
    else if choice == "full" then None
    else Some(30.0)
  }

  /**
   * The choices: "full", or "preview" with the whole-signal flag "true",
   * load the whole file; "60" loads 60 s; any unknown choice 30 s;
   * "preview" otherwise loads the stored preview length, 10 s when it does
   * not parse; with nothing stored, 10 s.
   */
  lemma TranscriptionDurationChoices(settings: map<string, string>, parseFloat: FloatParser)
    ensures var choice := SettingsStore.Lookup(settings, "transcription_duration", "preview");
      var whole := SettingsStore.Lookup(settings, "use_whole_signal", "false") == "true";
      var preview := SettingsStore.Lookup(settings, "preview_duration", "10.0");
      && (TranscriptionMaxDuration(settings, parseFloat).None? <==> choice == "full" || (choice == "preview" && whole))
      && (choice == "60" ==> TranscriptionMaxDuration(settings, parseFloat) == Some(60.0))
      && (choice !in {"preview", "60", "full"} ==> TranscriptionMaxDuration(settings, parseFloat) == Some(30.0))
      && (choice == "preview" && !whole && parseFloat(preview).None? ==> TranscriptionMaxDuration(settings, parseFloat) == Some(10.0))
      && (choice == "preview" && !whole && parseFloat(preview).Some? ==> TranscriptionMaxDuration(settings, parseFloat) == parseFloat(preview))
  {
  }

  /** With nothing stored the first ten seconds are transcribed. */
  lemma TranscriptionDefault(parseFloat: FloatParser)
    requires ReadsDecimals(parseFloat)
    ensures TranscriptionMaxDuration(map[], parseFloat) == Some(10.0)
  {
  }

  /** A preview length stored as `str(n)` with the whole-signal flag off is transcribed as n seconds. */
  lemma TranscriptionStoredPreview(settings: map<string, string>, n: int, parseFloat: FloatParser)
    requires ReadsDecimals(parseFloat)
    requires SettingsStore.Lookup(settings, "transcription_duration", "preview") == "preview"
    requires SettingsStore.Lookup(settings, "use_whole_signal", "false") != "true"
    requires SettingsStore.Lookup(settings, "preview_duration", "10.0") == IntToString(n)
    ensures TranscriptionMaxDuration(settings, parseFloat) == Some(n as real)
  {
    assert parseFloat(IntToString(n)) == Some(n as real);
  }

  // ---------------------------------------------------------------------
  // Waveform decimation
  // ---------------------------------------------------------------------

  const MaxPoints: nat := 10000

  /** `y[::step]`: every step-th sample, starting with the first. */
  function Strided(y: seq<real>, step: nat): (r: seq<real>)
    requires step >= 1
    ensures |r| == (|y| + step - 1) / step
    ensures forall i :: 0 <= i < |r| ==> i * step < |y| && r[i] == y[i * step]
  {
    var m := (|y| + step - 1) / step;
    assert forall i :: 0 <= i < m ==> i * step < |y| by {
      forall i | 0 <= i < m
        ensures i * step < |y|
      {
        StrideIndex(i, |y|, step);
      }
    }
    seq(m, i requires 0 <= i < m => y[i * step])
  }

  /** The samples `generate_waveform` plots, and the time of each. */
  function Decimated(y: seq<real>, sr: real): (r: (seq<real>, seq<real>))
    requires sr != 0.0
  {
    if |y| > MaxPoints then
      var factor := |y| / MaxPoints;
      var yd := Strided(y, factor);
      (DelayEstimation.Linspace(0.0, (|y| as real) / sr, |yd|), yd)
    else
      (DelayEstimation.Linspace(0.0, (|y| as real) / sr, |y|), y)
  }

  /**
   * Plotting keeps at most 19 999 samples: a signal of up to 10 000 samples
   * is drawn whole, a longer one is cut to between 10 000 and 19 999
   * samples taken at a fixed stride. Every plotted sample is a sample of
   * the signal and there is one time per sample.
   */
  lemma {:induction false} DecimatedBounds(y: seq<real>, sr: real)
    requires sr != 0.0
    ensures var (t, yd) := Decimated(y, sr);
      && |t| == |yd|
      && (|y| <= MaxPoints ==> yd == y)
      && (|y| > MaxPoints ==> MaxPoints <= |yd| < 2 * MaxPoints)
      && (|y| > MaxPoints ==> forall i :: 0 <= i < |yd| ==> yd[i] == y[i * (|y| / MaxPoints)])
  {
    if |y| > MaxPoints {
      var n := |y|;
      var f := n / MaxPoints;
      assert n == f * MaxPoints + n % MaxPoints;
      DivLowerBound(MaxPoints, f, n + f - 1);
      DivUpperBound(n + f - 1, f, 2 * MaxPoints);
    }
  }

  lemma MulMonotone(a: int, b: int, f: nat)
    requires a <= b
    ensures a * f <= b * f
  {
    assert b * f - a * f == (b - a) * f;
  }

  lemma DivLowerBound(q: nat, f: nat, x: nat)
    requires f >= 1 && q * f <= x
    ensures x / f >= q
  {
    var d := x / f;
    assert x == d * f + x % f;
    if d < q {
      MulMonotone(d + 1, q, f);
    }
  }

  lemma DivUpperBound(x: nat, f: nat, q: nat)
    requires f >= 1 && x < q * f
    ensures x / f < q
  {
    var d := x / f;
    assert x == d * f + x % f;
    if d >= q {
      MulMonotone(q, d, f);
    }
  }

  /** The last index `y[::step]` visits lies inside the signal. */
  lemma StrideIndex(i: nat, n: nat, step: nat)
    requires step >= 1 && i < (n + step - 1) / step
    ensures i * step < n
  {
    var m := (n + step - 1) / step;
    assert n + step - 1 == m * step + (n + step - 1) % step;
    MulMonotone(i + 1, m, step);
    assert (i + 1) * step == i * step + step;
  }
}
