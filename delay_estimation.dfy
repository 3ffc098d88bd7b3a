/**
 * The stereo delay estimator of the audio analyzer: the FFT-domain band
 * filter (`COLORE`), the phase-transform cross-correlation (`GCCPHAT`) and
 * the peak pick of `calculate_time_delay`.
 *
 * Sample values, frequencies and lags are exact reals. The transforms the
 * analyzer takes from numpy (FFT, inverse FFT, complex magnitude, phase
 * angle and `exp(1j * theta)`) are opaque functions passed in a `NumPy`
 * value; the only thing the model assumes of them is that the two FFTs keep
 * the length of their input.
 */
module DelayEstimation {
  import opened Common

  datatype Complex = Complex(re: real, im: real)

  const Zero: Complex := Complex(0.0, 0.0)

  function Conj(z: Complex): Complex {
    Complex(z.re, -z.im)
  }

  function Mul(a: Complex, b: Complex): Complex {
    Complex(a.re * b.re - a.im * b.im, a.re * b.im + a.im * b.re)
  }

  /** A real magnitude times a complex number (`absS * exp(1j * angle)`). */
  function Scale(r: real, z: Complex): Complex {
    Complex(r * z.re, r * z.im)
  }

  /** A complex number divided by a non-zero real (`Pxy / denom`). */
  function DivReal(z: Complex, d: real): Complex
    requires d != 0.0
  {
    Complex(z.re / d, z.im / d)
  }

  function Abs(x: real): real {
    if x < 0.0 then -x else x
  }

  /** The numpy routines the estimator calls, as opaque functions. */
  datatype NumPy = NumPy(
    fft: seq<real> -> seq<Complex>,
    ifft: seq<Complex> -> seq<Complex>,
    abs: Complex -> real,
    angle: Complex -> real,
    expi: real -> Complex)
  {
    /** Both transforms return as many bins as they are given samples. */
    ghost predicate Lawful() {
      && (forall x: seq<real> {:trigger fft(x)} :: |fft(x)| == |x|)
      && (forall z: seq<Complex> {:trigger ifft(z)} :: |ifft(z)| == |z|)
    }
  }

  /** `np.real` of a complex array. */
  function RealParts(z: seq<Complex>): (r: seq<real>)
    ensures |r| == |z|
  {
    seq(|z|, i requires 0 <= i < |z| => z[i].re)
  }

  // ---------------------------------------------------------------------
  // Frequency axis of the band filter
  // ---------------------------------------------------------------------

  /** Point k of `np.linspace(start, stop, num)`. */
  function LinspacePoint(start: real, stop: real, num: nat, k: int): real {
    if num == 1 then start else start + (k as real) * (stop - start) / ((num - 1) as real)
  }

  /** `np.linspace(start, stop, num)`: `num` evenly spaced points, both ends included. */
  function Linspace(start: real, stop: real, num: nat): (r: seq<real>)
    ensures |r| == num
    ensures forall k :: 0 <= k < num ==> r[k] == LinspacePoint(start, stop, num, k)
    ensures num >= 1 ==> r[0] == start
  {
    seq(num, k => LinspacePoint(start, stop, num, k))
  }

  /**
   * The axis `COLORE` builds, as written: `vfc_pos = linspace(0, fs/2,
   * int(nfft/2 + 1))`, followed by the negated reverse of its inner points.
   */
  function LinspaceAxis(nfft: nat, fs: real): (r: seq<real>)
    ensures var p := nfft / 2 + 1;
      && |r| == p + (if p >= 2 then p - 2 else 0)
      && (forall j :: 0 <= j < p ==> r[j] == LinspacePoint(0.0, fs / 2.0, p, j))
      && (forall j :: p <= j < |r| ==> r[j] == -LinspacePoint(0.0, fs / 2.0, p, 2 * p - 2 - j))
  {
    var pos := Linspace(0.0, fs / 2.0, nfft / 2 + 1);
    var inner := if |pos| >= 2 then pos[1..|pos| - 1] else [];
    var r := pos + seq(|inner|, j requires 0 <= j < |inner| => -inner[|inner| - 1 - j]);
    assert forall j :: |pos| <= j < |r| ==> r[j] == -inner[|inner| - 1 - (j - |pos|)] == -pos[2 * |pos| - 2 - j];
    r
  }

  /** For an even length the written axis has one entry per bin; for an odd length one bin has none. */
  lemma LinspaceAxisLength(nfft: nat, fs: real)
    ensures nfft % 2 == 0 && nfft >= 2 ==> |LinspaceAxis(nfft, fs)| == nfft
    ensures nfft % 2 == 1 && nfft >= 3 ==> |LinspaceAxis(nfft, fs)| == nfft - 1
    ensures nfft <= 1 ==> |LinspaceAxis(nfft, fs)| == 1
  {
  }

  /** `k·fs/n` for a bin index k (possibly negative) of an n-point transform. */
  function BinFrequency(k: int, fs: real, n: nat): real
    requires n > 0
  {
    (k as real) * fs / (n as real)
  }

  lemma EvenStep(nfft: nat, fs: real, k: int)
    requires nfft >= 2 && nfft % 2 == 0
    ensures LinspacePoint(0.0, fs / 2.0, nfft / 2 + 1, k) == BinFrequency(k, fs, nfft)
  {
    var m := (nfft / 2) as real;
    assert (nfft as real) == 2.0 * m;
    assert LinspacePoint(0.0, fs / 2.0, nfft / 2 + 1, k) == (k as real) * (fs / 2.0) / m;
  }

  lemma NegScaled(k: int, fs: real, n: nat)
    requires n > 0
    ensures BinFrequency(-k, fs, n) == -BinFrequency(k, fs, n)
  {
    assert (-k) as real == -(k as real);
  }

  /**
   * For an even length, entry k of the written axis is k·fs/nfft up to the
   * Nyquist bin, and entry nfft−k mirrors entry k.
   */
  lemma {:induction false} LinspaceAxisEven(nfft: nat, fs: real, k: nat)
    requires nfft >= 2 && nfft % 2 == 0
    ensures |LinspaceAxis(nfft, fs)| == nfft
    ensures k <= nfft / 2 ==> LinspaceAxis(nfft, fs)[k] == BinFrequency(k, fs, nfft)
    ensures 0 < k < nfft / 2 ==> LinspaceAxis(nfft, fs)[nfft - k] == -LinspaceAxis(nfft, fs)[k]
  {
    var p := nfft / 2 + 1;
    var a := LinspaceAxis(nfft, fs);
    if k <= nfft / 2 {
      EvenStep(nfft, fs, k);
      assert a[k] == LinspacePoint(0.0, fs / 2.0, p, k);
    }
    if 0 < k < nfft / 2 {
      assert p <= nfft - k < |a|;
      assert 2 * p - 2 - (nfft - k) == k;
      assert a[nfft - k] == -LinspacePoint(0.0, fs / 2.0, p, k);
    }
  }

  /** The frequency of FFT bin k: k·fs/nfft up to index nfft/2 and (k−nfft)·fs/nfft above it. */
  function SignedBinFrequency(nfft: nat, fs: real, k: int): real
    requires nfft > 0
  {
    if k <= nfft / 2 then BinFrequency(k, fs, nfft) else BinFrequency(k - nfft, fs, nfft)
  }

  /**
   * The frequency of every FFT bin, so that every bin, for odd lengths
   * too, has a frequency: the per-bin axis of `Axes.PerBin`.
   */
  function BinFrequencies(nfft: nat, fs: real): (f: seq<real>)
    ensures |f| == nfft
    ensures forall k :: 0 <= k < nfft ==> f[k] == SignedBinFrequency(nfft, fs, k)
  {
    seq(nfft, k => if nfft == 0 then 0.0 else SignedBinFrequency(nfft, fs, k))
  }

  lemma BinFrequencyAgreesWhenEven(nfft: nat, fs: real, k: nat)
    requires nfft >= 2 && nfft % 2 == 0 && k < nfft
    ensures |LinspaceAxis(nfft, fs)| == nfft
    ensures BinFrequencies(nfft, fs)[k] == LinspaceAxis(nfft, fs)[k]
  {
    LinspaceAxisLength(nfft, fs);
    if k <= nfft / 2 {
      LinspaceAxisEven(nfft, fs, k);
    } else {
      LinspaceAxisEven(nfft, fs, nfft - k);
      assert k == nfft - (nfft - k);
      NegScaled(nfft - k, fs, nfft);
      assert k - nfft == -(nfft - k);
    }
  }

  /** For every even length the bin frequencies are exactly the axis the analyzer writes. */
  lemma {:induction false} BinFrequenciesAgreeWhenEven(nfft: nat, fs: real)
    requires nfft >= 2 && nfft % 2 == 0
    ensures BinFrequencies(nfft, fs) == LinspaceAxis(nfft, fs)
  {
    LinspaceAxisLength(nfft, fs);
    forall k | 0 <= k < nfft
      ensures BinFrequencies(nfft, fs)[k] == LinspaceAxis(nfft, fs)[k]
    {
      BinFrequencyAgreesWhenEven(nfft, fs, k);
    }
  }

  /** Bins k and nfft−k, when distinct, sit at opposite frequencies. */
  lemma BinFrequenciesMirror(nfft: nat, fs: real, k: nat)
    requires 0 < k < nfft && k != nfft - k
    ensures BinFrequencies(nfft, fs)[nfft - k] == -BinFrequencies(nfft, fs)[k]
  {
    if k <= nfft / 2 {
      assert nfft - k > nfft / 2;
      var j: int := k;
      assert nfft - j - nfft == -j;
      NegScaled(j, fs, nfft);
    } else {
      assert nfft - k <= nfft / 2;
      assert k - nfft == -(nfft - k);
      NegScaled(nfft - k, fs, nfft);
    }
  }

  /** For an odd length the linspace step is fs/(nfft−1), not fs/nfft. */
  lemma OddStep(nfft: nat, fs: real, k: int)
    requires nfft >= 3 && nfft % 2 == 1
    ensures LinspacePoint(0.0, fs / 2.0, nfft / 2 + 1, k) == BinFrequency(k, fs, nfft - 1)
  {
    var m := (nfft / 2) as real;
    assert ((nfft - 1) as real) == 2.0 * m;
    assert LinspacePoint(0.0, fs / 2.0, nfft / 2 + 1, k) == (k as real) * (fs / 2.0) / m;
  }

  /**
   * For an odd length, entry k of the written axis up to index nfft/2 is
   * k·fs/(nfft−1), so every bin but 0 is labelled with a frequency above
   * its own, and the last bin has no entry at all.
   */
  lemma {:induction false} LinspaceAxisOdd(nfft: nat, fs: real, k: nat)
    requires nfft >= 3 && nfft % 2 == 1
    ensures |LinspaceAxis(nfft, fs)| == nfft - 1
    ensures k <= nfft / 2 ==> LinspaceAxis(nfft, fs)[k] == BinFrequency(k, fs, nfft - 1)
  {
    LinspaceAxisLength(nfft, fs);
    if k <= nfft / 2 {
      OddStep(nfft, fs, k);
      assert LinspaceAxis(nfft, fs)[k] == LinspacePoint(0.0, fs / 2.0, nfft / 2 + 1, k);
    }
  }

  /**
   * The axes the filter and the correlation are built on. `AsWritten` is
   * the analyzer's own: the linspace frequency axis and the lag axis
   * `x - n/2` with true division; `calculate_time_delay` runs on it.
   * `PerBin` gives every FFT bin its exact frequency and every shifted bin
   * its integer lag. The two coincide for even lengths (`AxesAgreeWhenEven`).
   */
  datatype Axes = AsWritten | PerBin

  /** The frequency axis `COLORE` masks with; never longer than the spectrum. */
  function FrequencyAxis(axes: Axes, nfft: nat, fs: real): (f: seq<real>)
    requires nfft >= 1
    ensures |f| <= nfft
  {
    LinspaceAxisLength(nfft, fs);
    if axes == AsWritten then LinspaceAxis(nfft, fs) else BinFrequencies(nfft, fs)
  }

  // ---------------------------------------------------------------------
  // Band classification and the in-place mask
  // ---------------------------------------------------------------------

  /** The bins `np.where` selects as in-band: |f| between fmin and fmax, on either side of zero. */
  predicate InBand(f: real, fmin: real, fmax: real) {
    (f >= fmin && f <= fmax) || (f <= -fmin && f >= -fmax)
  }

  /** The bins `np.where` selects as out-of-band. */
  predicate OutOfBand(f: real, fmin: real, fmax: real) {
    (f < fmin && f > -fmin) || (f < -fmax || f > fmax)
  }

  /** For a band with 0 ≤ fmin ≤ fmax, every frequency is in exactly one class, decided by |f| alone. */
  lemma BandsPartition(f: real, fmin: real, fmax: real)
    requires 0.0 <= fmin <= fmax
    ensures InBand(f, fmin, fmax) <==> !OutOfBand(f, fmin, fmax)
    ensures InBand(f, fmin, fmax) <==> fmin <= Abs(f) <= fmax
  {
  }

  /** Whether a bin's magnitude is zeroed: out-of-band bins in mode 1 (bandpass), in-band bins otherwise (bandcut). */
  predicate Zeroed(f: real, fmin: real, fmax: real, mode: int) {
    if mode == 1 then OutOfBand(f, fmin, fmax) else InBand(f, fmin, fmax)
  }

  /** The magnitudes after the mask: axis entries beyond the array are ignored, array entries beyond the axis are kept. */
  function Masked(mags: seq<real>, axis: seq<real>, fmin: real, fmax: real, mode: int): (r: seq<real>)
    requires |axis| <= |mags|
    ensures |r| == |mags|
  {
    seq(|mags|, i requires 0 <= i < |mags| =>
      if i < |axis| && Zeroed(axis[i], fmin, fmax, mode) then 0.0 else mags[i])
  }

  /**
   * Bandpass keeps exactly the magnitudes whose |f| lies in [fmin, fmax]
   * and zeroes the rest; bandcut does the opposite.
   */
  lemma MaskKeepsOneClass(mags: seq<real>, axis: seq<real>, fmin: real, fmax: real, mode: int, i: nat)
    requires 0.0 <= fmin <= fmax
    requires |axis| <= |mags| && i < |mags|
    ensures Masked(mags, axis, fmin, fmax, mode)[i] ==
      if i >= |axis| || (mode == 1) == (fmin <= Abs(axis[i]) <= fmax) then mags[i] else 0.0
  {
    if i < |axis| {
      BandsPartition(axis[i], fmin, fmax);
    }
  }

  /** Both band predicates are even in f, so mirrored bins are always treated alike. */
  lemma {:induction false} MirrorBinsTreatedAlike(nfft: nat, fs: real, fmin: real, fmax: real, mode: int, k: nat)
    requires 0 < k < nfft
    ensures Zeroed(BinFrequencies(nfft, fs)[k], fmin, fmax, mode) == Zeroed(BinFrequencies(nfft, fs)[nfft - k], fmin, fmax, mode)
  {
    if k != nfft - k {
      BinFrequenciesMirror(nfft, fs, k);
    }
  }

  /** `absS[indFreqOutBand] = 0` (mode 1) or `absS[indFreqInBand] = 0`, in place. */
  method MaskBins(absS: array<real>, axis: seq<real>, fmin: real, fmax: real, mode: int)
    requires |axis| <= absS.Length
    modifies absS
    ensures absS[..] == Masked(old(absS[..]), axis, fmin, fmax, mode)
  {
    var i := 0;
    while i < |axis|
      invariant 0 <= i <= |axis|
      invariant forall j :: 0 <= j < absS.Length ==>
        absS[j] == if j < i && Zeroed(axis[j], fmin, fmax, mode) then 0.0 else old(absS[j])
    {
      if mode == 1 {
        if OutOfBand(axis[i], fmin, fmax) {
          absS[i] := 0.0;
        }
      } else {
        if InBand(axis[i], fmin, fmax) {
          absS[i] := 0.0;
        }
      }
      i := i + 1;
    }
  }

  // ---------------------------------------------------------------------
  // COLORE: the band filter
  // ---------------------------------------------------------------------

  function Magnitudes(z: seq<Complex>, np: NumPy): (r: seq<real>)
    ensures |r| == |z|
  {
    seq(|z|, i requires 0 <= i < |z| => np.abs(z[i]))
  }

  /** Each bin rebuilt from a magnitude and the original bin's phase: `mags * exp(1j * angle(spectrum))`. */
  function Rebuilt(spectrum: seq<Complex>, mags: seq<real>, np: NumPy): (r: seq<Complex>)
    requires |mags| == |spectrum|
    ensures |r| == |spectrum|
  {
    seq(|spectrum|, i requires 0 <= i < |spectrum| => Scale(mags[i], np.expi(np.angle(spectrum[i]))))
  }

  /** The spectrum `COLORE` hands to the inverse FFT. */
  function FilteredSpectrum(spectrum: seq<Complex>, fs: real, fmin: real, fmax: real, mode: int, axes: Axes, np: NumPy): (r: seq<Complex>)
    requires |spectrum| >= 1
    ensures |r| == |spectrum|
  {
    Rebuilt(spectrum, Masked(Magnitudes(spectrum, np), FrequencyAxis(axes, |spectrum|, fs), fmin, fmax, mode), np)
  }

  /**
   * Bandpass (mode 1) passes every bin whose axis entry f has |f| in
   * [fmin, fmax] with its magnitude and phase and turns every other bin
   * into exact zero; bandcut does the reverse. A bin beyond the end of the
   * axis is passed unchanged in either mode.
   */
  lemma {:induction false} FilteredSpectrumBins(spectrum: seq<Complex>, fs: real, fmin: real, fmax: real, mode: int, axes: Axes, np: NumPy, i: nat)
    requires 0.0 <= fmin <= fmax && i < |spectrum|
    ensures var axis := FrequencyAxis(axes, |spectrum|, fs);
      FilteredSpectrum(spectrum, fs, fmin, fmax, mode, axes, np)[i] ==
        if i >= |axis| || (mode == 1) == (fmin <= Abs(axis[i]) <= fmax)
        then Scale(np.abs(spectrum[i]), np.expi(np.angle(spectrum[i])))
        else Zero
  {
    MaskKeepsOneClass(Magnitudes(spectrum, np), FrequencyAxis(axes, |spectrum|, fs), fmin, fmax, mode, i);
  }

  /**
   * As written, the last bin of an odd-length spectrum has no axis entry:
   * bandpass and bandcut alike pass it with its magnitude and phase.
   */
  lemma {:induction false} OddLengthLastBinKept(spectrum: seq<Complex>, fs: real, fmin: real, fmax: real, mode: int, np: NumPy)
    requires 0.0 <= fmin <= fmax && |spectrum| >= 3 && |spectrum| % 2 == 1
    ensures var last := |spectrum| - 1;
      FilteredSpectrum(spectrum, fs, fmin, fmax, mode, AsWritten, np)[last] ==
        Scale(np.abs(spectrum[last]), np.expi(np.angle(spectrum[last])))
  {
    LinspaceAxisLength(|spectrum|, fs);
    FilteredSpectrumBins(spectrum, fs, fmin, fmax, mode, AsWritten, np, |spectrum| - 1);
  }

  /** The signal `COLORE` returns for a non-empty input. */
  function FilterSpec(sigin: seq<real>, fs: real, fmin: real, fmax: real, mode: int, axes: Axes, np: NumPy): (r: seq<real>)
    requires np.Lawful() && sigin != []
    ensures |r| == |sigin|
  {
    var spectrum := np.fft(sigin);
    RealParts(np.ifft(FilteredSpectrum(spectrum, fs, fmin, fmax, mode, axes, np)))
  }

  /**
   * `COLORE`: transform, zero the magnitudes of one band class in place,
   * rebuild with the original phases, transform back and keep the real
   * part. numpy's FFT raises on an empty array: `None`.
   */
  method Colore(sigin: seq<real>, fs: real, fmin: real, fmax: real, mode: int, axes: Axes, np: NumPy) returns (sigout: Option<seq<real>>)
    requires np.Lawful()
    ensures sigin == [] ==> sigout == None
    ensures sigin != [] ==> sigout == Some(FilterSpec(sigin, fs, fmin, fmax, mode, axes, np))
  {
    if |sigin| == 0 {
      return None;
    }
    var spectrum := np.fft(sigin);
    var nfft := |spectrum|;
    var vfc := FrequencyAxis(axes, nfft, fs);
    var absS := new real[nfft](i requires 0 <= i < nfft => np.abs(spectrum[i]));
    assert absS[..] == Magnitudes(spectrum, np);
    MaskBins(absS, vfc, fmin, fmax, mode);
    var rebuilt := Rebuilt(spectrum, absS[..], np);
    sigout := Some(RealParts(np.ifft(rebuilt)));
  }

  // ---------------------------------------------------------------------
  // GCCPHAT: cross-power, PHAT weighting, shift and normalisation
  // ---------------------------------------------------------------------

  /** `f_s1 * np.conj(f_s2)` with numpy broadcasting; `None` where numpy raises on mismatched shapes. */
  function CrossPower(f1: seq<Complex>, f2: seq<Complex>): (r: Option<seq<Complex>>)
    ensures r.Some? <==> |f1| == |f2| || |f1| == 1 || |f2| == 1
    ensures r.Some? ==> |r.value| == (if |f1| == 1 then |f2| else |f1|)
  {
    if |f1| == |f2| then Some(seq(|f1|, i requires 0 <= i < |f1| => Mul(f1[i], Conj(f2[i]))))
    else if |f1| == 1 then Some(seq(|f2|, i requires 0 <= i < |f2| => Mul(f1[0], Conj(f2[i]))))
    else if |f2| == 1 then Some(seq(|f1|, i requires 0 <= i < |f1| => Mul(f1[i], Conj(f2[0]))))
    else None
  }

  /** The PHAT floor: denominators below it are raised to it. */
  const PhatFloor: real := 0.000001

  /** `denom[denom < 1e-6] = 1e-6`, as a function of the old denominators. */
  function Floored(d: seq<real>): (r: seq<real>)
    ensures |r| == |d|
    ensures forall i :: 0 <= i < |d| ==> r[i] >= PhatFloor
    ensures forall i :: 0 <= i < |d| ==> d[i] >= PhatFloor ==> r[i] == d[i]
    ensures forall i :: 0 <= i < |d| ==> d[i] < PhatFloor ==> r[i] == PhatFloor
  {
    seq(|d|, i requires 0 <= i < |d| => if d[i] < PhatFloor then PhatFloor else d[i])
  }

  /** The clamp of line 231, in place on the denominator array. */
  method ClampDenominator(denom: array<real>)
    modifies denom
    ensures denom[..] == Floored(old(denom[..]))
  {
    var i := 0;
    while i < denom.Length
      invariant 0 <= i <= denom.Length
      invariant forall j :: 0 <= j < denom.Length ==>
        denom[j] == if j < i && old(denom[j]) < PhatFloor then PhatFloor else old(denom[j])
    {
      if denom[i] < PhatFloor {
        denom[i] := PhatFloor;
      }
      i := i + 1;
    }
  }

  /** Element-wise division by positive denominators. */
  function Divided(z: seq<Complex>, d: seq<real>): (r: seq<Complex>)
    requires |d| == |z|
    requires forall i :: 0 <= i < |d| ==> d[i] > 0.0
    ensures |r| == |z|
  {
    seq(|z|, i requires 0 <= i < |z| => DivReal(z[i], d[i]))
  }

  /** `Pxy / denom`: divided by the floored magnitudes when `norm == 1`, by the constant 1 otherwise. */
  function PhatWeighted(pxy: seq<Complex>, norm: int, np: NumPy): (r: seq<Complex>)
    ensures |r| == |pxy|
  {
    if norm == 1 then Divided(pxy, Floored(Magnitudes(pxy, np))) else pxy
  }

  /** With PHAT weighting every bin is divided by a denominator of at least 1e-6: no bin is ever divided by zero. */
  lemma PhatWeightedBins(pxy: seq<Complex>, np: NumPy, i: nat)
    requires i < |pxy|
    ensures var d := Floored(Magnitudes(pxy, np))[i];
      d >= PhatFloor && PhatWeighted(pxy, 1, np)[i] == DivReal(pxy[i], d)
  {
  }

  /** `np.fft.fftshift`: a rotation by half the length, which moves bin 0 to index n/2. */
  function FftShift(x: seq<real>): (r: seq<real>)
    ensures |r| == |x|
  {
    x[|x| - |x| / 2..] + x[..|x| - |x| / 2]
  }

  /** Where each entry of the shifted sequence comes from. */
  lemma FftShiftIndex(x: seq<real>, i: nat)
    requires i < |x|
    ensures FftShift(x)[i] == if i < |x| / 2 then x[|x| - |x| / 2 + i] else x[i - |x| / 2]
  {
  }

  /** After the shift the zero-lag bin sits at index n/2 and the last lag bin at index n/2 − 1. */
  lemma {:induction false} FftShiftCentresZeroLag(x: seq<real>)
    requires |x| >= 1
    ensures FftShift(x)[|x| / 2] == x[0]
    ensures |x| >= 2 ==> FftShift(x)[|x| / 2 - 1] == x[|x| - 1]
  {
    FftShiftIndex(x, |x| / 2);
    if |x| >= 2 {
      FftShiftIndex(x, |x| / 2 - 1);
    }
  }

  /** `np.max(np.abs(G))`. */
  function MaxAbs(g: seq<real>): (m: real)
    requires |g| > 0
    ensures forall i :: 0 <= i < |g| ==> Abs(g[i]) <= m
    ensures exists i :: 0 <= i < |g| && Abs(g[i]) == m
  {
    if |g| == 1 then Abs(g[0])
    else
      var m := MaxAbs(g[..|g| - 1]);
      if Abs(g[|g| - 1]) > m then Abs(g[|g| - 1]) else m
  }

  /**
   * A correlation curve after `G / np.max(np.abs(G))`: finite values, or,
   * when G is all zeros, 0/0 in every entry (numpy's NaN, with a warning and no exception).
   */
  datatype Curve = Finite(values: seq<real>) | AllNaN(length: nat) {
    function Length(): nat {
      match this
      case Finite(v) => |v|
      case AllNaN(n) => n
    }
  }

  function Normalised(g: seq<real>): (c: Curve)
    requires |g| > 0
    ensures c.Length() == |g|
  {
    var m := MaxAbs(g);
    if m == 0.0 then AllNaN(|g|) else Finite(seq(|g|, i requires 0 <= i < |g| => g[i] / m))
  }

  lemma NegQuotient(a: real, m: real)
    requires m != 0.0
    ensures (-a) / m == -(a / m)
  {
  }

  lemma MulPositive(p: real, q: real)
    requires p > 0.0 && q > 0.0
    ensures p * q > 0.0
  {
  }

  lemma AbsQuotient(x: real, m: real)
    requires m > 0.0
    ensures Abs(x / m) == Abs(x) / m
    ensures Abs(x) <= m ==> Abs(x / m) <= 1.0
    ensures Abs(x) == m ==> Abs(x / m) == 1.0
  {
    var a := Abs(x);
    if x < 0.0 {
      NegQuotient(x, m);
      assert x / m < 0.0;
    } else {
      assert x / m >= 0.0;
    }
    var q := a / m;
    assert q * m == a;
    if a <= m && q > 1.0 {
      MulPositive(q - 1.0, m);
      assert (q - 1.0) * m == q * m - m;
    }
  }

  /**
   * After normalisation every |G[i]| ≤ 1 and some |G[i]| = 1; the result
   * is finite exactly when G is not all zero.
   */
  lemma {:induction false} NormalisedPeak(g: seq<real>)
    requires |g| > 0
    ensures Normalised(g).Finite? <==> exists i :: 0 <= i < |g| && g[i] != 0.0
    ensures Normalised(g).Finite? ==>
      && (forall i :: 0 <= i < |g| ==> Abs(Normalised(g).values[i]) <= 1.0)
      && (exists i :: 0 <= i < |g| && Abs(Normalised(g).values[i]) == 1.0)
  {
    var m := MaxAbs(g);
    if m != 0.0 {
      var v := Normalised(g).values;
      assert m > 0.0;
      forall i | 0 <= i < |g|
        ensures Abs(v[i]) <= 1.0
      {
        AbsQuotient(g[i], m);
      }
      var k :| 0 <= k < |g| && Abs(g[k]) == m;
      AbsQuotient(g[k], m);
      assert g[k] != 0.0;
      assert v[k] == g[k] / m;
      assert Abs(v[k]) == 1.0;
    } else {
      forall i | 0 <= i < |g|
        ensures g[i] == 0.0
      {
        assert Abs(g[i]) <= m;
      }
    }
  }

  // ---------------------------------------------------------------------
  // Lag axes
  // ---------------------------------------------------------------------

  /** `axe_spl = x - G.shape[0]/2` as written, with Python's true division. */
  function SampleLagsAsWritten(n: nat): (r: seq<real>)
    ensures |r| == n
  {
    seq(n, i requires 0 <= i < n => (i as real) - (n as real) / 2.0)
  }

  /** The sample lag of each index of the shifted curve: index i holds lag i − n//2, the offset `fftshift` applies. */
  function SampleLags(n: nat): (r: seq<real>)
    ensures |r| == n
  {
    seq(n, i requires 0 <= i < n => (i - n / 2) as real)
  }

  /** `axe_ms = axe_spl / fs * 1000`. */
  function MsLags(lags: seq<real>, fs: real): (r: seq<real>)
    requires fs != 0.0
    ensures |r| == |lags|
  {
    seq(|lags|, i requires 0 <= i < |lags| => lags[i] / fs * 1000.0)
  }

  lemma PositiveQuotient(a: real, m: real)
    requires a > 0.0 && m > 0.0
    ensures a / m > 0.0
  {
  }

  lemma MsStep(s: real, fs: real)
    requires fs > 0.0
    ensures (s + 1.0) / fs * 1000.0 - s / fs * 1000.0 == 1000.0 / fs
  {
  }

  lemma MsMonotone(s: real, t: real, fs: real)
    requires fs > 0.0 && s < t
    ensures s / fs * 1000.0 < t / fs * 1000.0
  {
    assert t / fs - s / fs == (t - s) / fs;
    PositiveQuotient(t - s, fs);
  }

  /** For even lengths the written axis is exactly the lag of each shifted bin. */
  lemma SampleLagsAgreeWhenEven(n: nat)
    requires n % 2 == 0
    ensures SampleLagsAsWritten(n) == SampleLags(n)
  {
    assert (n as real) / 2.0 == (n / 2) as real;
  }

  /**
   * For an odd length the written axis is half a sample off: at index
   * n//2, where `fftshift` puts correlation bin 0, it reads −0.5.
   */
  lemma SampleLagsAsWrittenOddOffset(n: nat)
    requires n % 2 == 1
    ensures SampleLagsAsWritten(n)[n / 2] == -0.5
    ensures forall i :: 0 <= i < n ==> SampleLagsAsWritten(n)[i] == SampleLags(n)[i] - 0.5
  {
    assert (n as real) / 2.0 == (n / 2) as real + 0.5;
  }

  /** The sample lag axis on the chosen axes. */
  function LagAxis(axes: Axes, n: nat): (r: seq<real>)
    ensures |r| == n
  {
    if axes == AsWritten then SampleLagsAsWritten(n) else SampleLags(n)
  }

  /**
   * On either axes consecutive sample lags differ by exactly 1, millisecond
   * lags by exactly 1000/fs, and the millisecond axis is strictly
   * increasing. The zero-lag index n/2 carries lag 0, except on the written
   * axis of an odd length, where it carries −0.5.
   */
  lemma {:induction false} LagAxes(axes: Axes, n: nat, fs: real)
    requires fs > 0.0
    ensures forall i :: 0 <= i < n - 1 ==> LagAxis(axes, n)[i + 1] - LagAxis(axes, n)[i] == 1.0
    ensures forall i :: 0 <= i < n - 1 ==> MsLags(LagAxis(axes, n), fs)[i + 1] - MsLags(LagAxis(axes, n), fs)[i] == 1000.0 / fs
    ensures forall i, j :: 0 <= i < j < n ==> MsLags(LagAxis(axes, n), fs)[i] < MsLags(LagAxis(axes, n), fs)[j]
    ensures n >= 1 && (axes == PerBin || n % 2 == 0) ==>
      LagAxis(axes, n)[n / 2] == 0.0 && MsLags(LagAxis(axes, n), fs)[n / 2] == 0.0
    ensures axes == AsWritten && n % 2 == 1 ==> LagAxis(axes, n)[n / 2] == -0.5
  {
    var s := LagAxis(axes, n);
    var ms := MsLags(s, fs);
    forall i | 0 <= i < n - 1
      ensures s[i + 1] - s[i] == 1.0 && ms[i + 1] - ms[i] == 1000.0 / fs
    {
      assert s[i + 1] == s[i] + 1.0;
      MsStep(s[i], fs);
    }
    forall i, j | 0 <= i < j < n
      ensures ms[i] < ms[j]
    {
      MsMonotone(s[i], s[j], fs);
    }
    if axes == AsWritten {
      if n % 2 == 0 {
        SampleLagsAgreeWhenEven(n);
      } else {
        SampleLagsAsWrittenOddOffset(n);
      }
    }
  }

  /** The three outputs of `GCCPHAT`. */
  datatype Correlation = Correlation(curve: Curve, lagSamples: seq<real>, lagMs: seq<real>)

  /** Everything `GCCPHAT` computes, as a function of its inputs; `None` where numpy raises. */
  function GccPhatSpec(s1: seq<real>, s2: seq<real>, fs: real, norm: int, fmin: real, fmax: real, axes: Axes, np: NumPy): Option<Correlation>
    requires np.Lawful() && fs > 0.0
  {
    if s1 == [] || s2 == [] then None
    else
      var f1 := np.fft(FilterSpec(s1, fs, fmin, fmax, 1, axes, np));
      var f2 := np.fft(FilterSpec(s2, fs, fmin, fmax, 1, axes, np));
      match CrossPower(f1, f2)
      case None => None
      case Some(pxy) =>
        var g := FftShift(RealParts(np.ifft(PhatWeighted(pxy, norm, np))));
        assert |g| == |pxy| > 0;
        Some(Correlation(Normalised(g), LagAxis(axes, |g|), MsLags(LagAxis(axes, |g|), fs)))
  }

  /**
   * `GCCPHAT` fails exactly on an empty channel or on channel lengths numpy
   * cannot broadcast; otherwise the curve and both axes share one length,
   * the longer channel's.
   */
  lemma GccPhatShape(s1: seq<real>, s2: seq<real>, fs: real, norm: int, fmin: real, fmax: real, axes: Axes, np: NumPy)
    requires np.Lawful() && fs > 0.0
    ensures GccPhatSpec(s1, s2, fs, norm, fmin, fmax, axes, np).None? <==>
      s1 == [] || s2 == [] || (|s1| != |s2| && |s1| != 1 && |s2| != 1)
    ensures match GccPhatSpec(s1, s2, fs, norm, fmin, fmax, axes, np)
      case Some(c) =>
        var n := if |s1| == 1 then |s2| else |s1|;
        && c.curve.Length() == |c.lagSamples| == |c.lagMs| == n
        && c.lagSamples == LagAxis(axes, n) && c.lagMs == MsLags(LagAxis(axes, n), fs)
      case None => true
  {
  }

  /** Both filters agree on a non-empty signal of even length. */
  lemma FilterSpecAgreesWhenEven(sigin: seq<real>, fs: real, fmin: real, fmax: real, mode: int, np: NumPy)
    requires np.Lawful() && |sigin| >= 2 && |sigin| % 2 == 0
    ensures FilterSpec(sigin, fs, fmin, fmax, mode, AsWritten, np) == FilterSpec(sigin, fs, fmin, fmax, mode, PerBin, np)
  {
    BinFrequenciesAgreeWhenEven(|np.fft(sigin)|, fs);
  }

  /**
   * For two channels of one even length the correlation on the written
   * axes is exactly the one on the per-bin axes.
   */
  lemma {:induction false} AxesAgreeWhenEven(s1: seq<real>, s2: seq<real>, fs: real, norm: int, fmin: real, fmax: real, np: NumPy)
    requires np.Lawful() && fs > 0.0
    requires |s1| == |s2| && |s1| % 2 == 0
    ensures GccPhatSpec(s1, s2, fs, norm, fmin, fmax, AsWritten, np) == GccPhatSpec(s1, s2, fs, norm, fmin, fmax, PerBin, np)
  {
    if s1 != [] {
      FilterSpecAgreesWhenEven(s1, fs, fmin, fmax, 1, np);
      FilterSpecAgreesWhenEven(s2, fs, fmin, fmax, 1, np);
      GccPhatShape(s1, s2, fs, norm, fmin, fmax, AsWritten, np);
      SampleLagsAgreeWhenEven(|s1|);
    }
  }

  /**
   * `GCCPHAT`: band-pass both channels, cross-power spectrum, optional PHAT
   * weighting with the in-place floor, inverse transform, shift,
   * normalisation, and the two lag axes.
   */
  method GccPhat(s1: seq<real>, s2: seq<real>, fs: real, norm: int, fmin: real, fmax: real, axes: Axes, np: NumPy)
    returns (r: Option<Correlation>)
    requires np.Lawful() && fs > 0.0
    ensures r == GccPhatSpec(s1, s2, fs, norm, fmin, fmax, axes, np)
  {
    var s1c := Colore(s1, fs, fmin, fmax, 1, axes, np);
    var s2c := Colore(s2, fs, fmin, fmax, 1, axes, np);
    if s1c.None? || s2c.None? {
      return None;
    }
    var fS1 := np.fft(s1c.value);
    var fS2 := np.fft(s2c.value);
    var pxy := CrossPower(fS1, fS2);
    if pxy.None? {
      return None;
    }
    var p := pxy.value;
    var weighted: seq<Complex>;
    if norm == 1 {
      var denom := new real[|p|](i requires 0 <= i < |p| => np.abs(p[i]));
      assert denom[..] == Magnitudes(p, np);
      ClampDenominator(denom);
      weighted := Divided(p, denom[..]);
    } else {
      weighted := p;
    }
    assert weighted == PhatWeighted(p, norm, np);
    var g := FftShift(RealParts(np.ifft(weighted)));
    var n := |g|;
    var axeSpl := LagAxis(axes, n);
    var axeMs := MsLags(axeSpl, fs);
    r := Some(Correlation(Normalised(g), axeSpl, axeMs));
  }

  // ---------------------------------------------------------------------
  // calculate_time_delay: mono guard and peak pick
  // ---------------------------------------------------------------------

  /** `np.argmax`: the first index holding the largest value. */
  function FirstArgMax(g: seq<real>): (k: nat)
    requires |g| > 0
    ensures k < |g|
    ensures forall i :: 0 <= i < |g| ==> g[i] <= g[k]
    ensures forall i :: 0 <= i < k ==> g[i] < g[k]
  {
    if |g| == 1 then 0
    else
      var k := FirstArgMax(g[..|g| - 1]);
      if g[|g| - 1] > g[k] then |g| - 1 else k
  }

  /** `np.argmax` of a normalised curve: on an all-NaN curve numpy returns the first NaN, index 0. */
  function PeakIndex(c: Curve): (k: nat)
    requires c.Length() > 0
    ensures k < c.Length()
  {
    match c
    case Finite(v) => FirstArgMax(v)
    case AllNaN(_) => 0
  }

  /** A decoded stereo excerpt: the first two channels and the sample rate. */
  datatype Stereo = Stereo(left: seq<real>, right: seq<real>, sampleRate: real)

  /** The loader's guarantees: columns of one array have one length, and the rate is positive. */
  predicate WellFormed(a: Stereo) {
    |a.left| == |a.right| && a.sampleRate > 0.0
  }

  /** The correlation's lag axes are the sample and millisecond lags of its length, on the chosen axes. */
  predicate Aligned(c: Correlation, fs: real, axes: Axes)
    requires fs != 0.0
  {
    var n := c.curve.Length();
    n > 0 && c.lagSamples == LagAxis(axes, n) && c.lagMs == MsLags(LagAxis(axes, n), fs)
  }

  /** `axe_ms[np.argmax(G)]`. */
  function PeakDelay(c: Correlation): real
    requires c.curve.Length() == |c.lagMs| > 0
  {
    c.lagMs[PeakIndex(c.curve)]
  }

  /**
   * The delay is the millisecond lag at the first index where the
   * normalised curve reaches its maximum; a silent (all-zero) correlation
   * yields the lag of index 0, the most negative one: −(n/2)/fs·1000 with
   * true division as written, −(n//2)/fs·1000 on the per-bin axis.
   */
  lemma DelayAtFirstMaximum(c: Correlation, fs: real, axes: Axes)
    requires fs > 0.0 && Aligned(c, fs, axes)
    ensures c.curve.Finite? ==> exists k :: (
      && 0 <= k < |c.lagMs| && PeakDelay(c) == c.lagMs[k]
      && (forall i :: 0 <= i < |c.lagMs| ==> c.curve.values[i] <= c.curve.values[k])
      && (forall i :: 0 <= i < k ==> c.curve.values[i] < c.curve.values[k]))
    ensures c.curve.AllNaN? && axes == AsWritten ==>
      PeakDelay(c) == -((c.curve.length as real) / 2.0) / fs * 1000.0
    ensures c.curve.AllNaN? && axes == PerBin ==>
      PeakDelay(c) == -((c.curve.length / 2) as real) / fs * 1000.0
  {
    if c.curve.Finite? {
      var k := PeakIndex(c.curve);
      assert PeakDelay(c) == c.lagMs[k];
    }
  }

  /** What `calculate_time_delay` returns on the chosen axes, as a function of the loaders' results. */
  function TimeDelaySpec(numChannels: Option<int>, audio: Option<Stereo>, axes: Axes, np: NumPy): Option<real>
    requires np.Lawful()
    requires audio.Some? ==> WellFormed(audio.value)
  {
    if numChannels.None? || numChannels.value < 2 || audio.None? then None
    else
      var a := audio.value;
      match GccPhatSpec(a.left, a.right, a.sampleRate, 1, 0.0, 8000.0, axes, np)
      case None => None
      case Some(c) =>
        GccPhatShape(a.left, a.right, a.sampleRate, 1, 0.0, 8000.0, axes, np);
        Some(PeakDelay(c))
  }

  /** A stereo excerpt with at least one sample always yields a delay, aligned to the correlation's axes. */
  lemma TimeDelayDefined(numChannels: int, a: Stereo, axes: Axes, np: NumPy)
    requires np.Lawful() && WellFormed(a) && a.left != [] && numChannels >= 2
    ensures var r := GccPhatSpec(a.left, a.right, a.sampleRate, 1, 0.0, 8000.0, axes, np);
      r.Some? && Aligned(r.value, a.sampleRate, axes) && |r.value.lagMs| == |a.left|
      && TimeDelaySpec(Some(numChannels), Some(a), axes, np) == Some(PeakDelay(r.value))
  {
    GccPhatShape(a.left, a.right, a.sampleRate, 1, 0.0, 8000.0, axes, np);
  }

  /** For an excerpt of even length the delay is the same on either axes. */
  lemma TimeDelayAgreesWhenEven(numChannels: Option<int>, audio: Option<Stereo>, np: NumPy)
    requires np.Lawful()
    requires audio.Some? ==> WellFormed(audio.value) && |audio.value.left| % 2 == 0
    ensures TimeDelaySpec(numChannels, audio, AsWritten, np) == TimeDelaySpec(numChannels, audio, PerBin, np)
  {
    if audio.Some? {
      var a := audio.value;
      AxesAgreeWhenEven(a.left, a.right, a.sampleRate, 1, 0.0, 8000.0, np);
    }
  }

  /**
   * `calculate_time_delay` after both loads: `None` for fewer than two
   * channels (or a failed load) before any correlation, otherwise
   * `GCCPHAT(left, right, sr, 1)` on the written axes and the lag at its
   * peak. Every exception inside is caught and turned into `None`.
   */
  method CalculateTimeDelay(numChannels: Option<int>, audio: Option<Stereo>, np: NumPy) returns (delayMs: Option<real>)
    requires np.Lawful()
    requires audio.Some? ==> WellFormed(audio.value)
    ensures numChannels.None? || numChannels.value < 2 ==> delayMs == None
    ensures delayMs == TimeDelaySpec(numChannels, audio, AsWritten, np)
  {
    if numChannels.None? || numChannels.value < 2 {
      return None;
    }
    if audio.None? {
      return None;
    }
    var a := audio.value;
    var result := GccPhat(a.left, a.right, a.sampleRate, 1, 0.0, 8000.0, AsWritten, np);
    if result.None? {
      return None;
    }
    var c := result.value;
    GccPhatShape(a.left, a.right, a.sampleRate, 1, 0.0, 8000.0, AsWritten, np);
    var peak := PeakIndex(c.curve);
    delayMs := Some(c.lagMs[peak]);
  }

  // ---------------------------------------------------------------------
  // The two odd-length discrepancies, exhibited on length 3
  // ---------------------------------------------------------------------

  /**
   * As written, a spectrum of 3 bins with fs = 3 gets the 2-entry axis
   * [0, 1.5]: bin 1 (1 Hz) is labelled 1.5 Hz and bin 2 (−1 Hz) has no
   * entry. With the band [0, 0.5] bin 1 is zeroed and bin 2 keeps its
   * magnitude; with the bin frequencies both are zeroed.
   */
  lemma OddLengthAxisLeavesLastBin()
    ensures LinspaceAxis(3, 3.0) == [0.0, 1.5]
    ensures BinFrequencies(3, 3.0) == [0.0, 1.0, -1.0]
    ensures Masked([1.0, 1.0, 1.0], LinspaceAxis(3, 3.0), 0.0, 0.5, 1) == [1.0, 0.0, 1.0]
    ensures Masked([1.0, 1.0, 1.0], BinFrequencies(3, 3.0), 0.0, 0.5, 1) == [1.0, 0.0, 0.0]
  {
    var a := LinspaceAxis(3, 3.0);
    assert a == [0.0, 1.5];
    var b := BinFrequencies(3, 3.0);
    assert b == [0.0, 1.0, -1.0];
  }

  /**
   * As written, a 3-sample correlation has its zero-lag bin (moved to index
   * 1 by the shift) labelled −0.5 samples; the per-bin lag axis labels it 0.
   */
  lemma OddLengthLagOffset(x: real, y: real, z: real)
    ensures FftShift([x, y, z])[1] == x
    ensures LagAxis(AsWritten, 3)[1] == -0.5
    ensures LagAxis(PerBin, 3)[1] == 0.0
  {
  }
}
