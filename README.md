# AudioTooltip core, modelled in Dafny

AudioTooltip is a Windows tray application. It shows a tooltip of analysis results for an audio file: metadata, a waveform, a visualisation, a transcript and, for stereo files, the delay between the two channels. This project models the parts of it that are logic rather than GUI glue, and proves properties of them:

- **Delay estimation** (`delay_estimation.dfy`, module `DelayEstimation`): the FFT-domain band filter `COLORE`, the phase-transform cross-correlation `GCCPHAT` and the peak pick of `calculate_time_delay`. The frequency axis, the two band classes, the in-place magnitude mask, the PHAT denominator floor, `fftshift`, peak normalisation, the lag axes and the first-index argmax are modelled over exact reals. The numpy transforms are opaque functions.
- **Analysis caches** (`analysis_cache.dfy`, `AnalysisCache`): the three insertion-ordered dicts of the analyzer as a class, with `_maintain_cache_size`, `is_cache_valid`, `clear_cache` and `get_cache_stats`.
- **Small analyzer computations** (`analyzer_helpers.dfy`, `AnalyzerHelpers`): the "m:ss" duration text, the length of audio sent to transcription and the decimation of a long waveform.
- **File helpers** (`file_utils.dfy`, `FileUtils`): audio-extension classification, the recent-files list (save, load, move to front), file-size units and the ordered checks of `validate_audio_file_path`.
- **Settings dialog** (`settings_dialog.dfy`, `SettingsDialog`): its widgets, `_load_settings`, `_apply_settings`, the two toggles and `accept`, over a string-to-string settings store (`settings_store.dfy`, `SettingsStore`). Its main result is the apply-then-load round trip.
- **Tooltip** (`tooltip.dfy`, `Tooltip`): `EnhancedTooltip` as a class. It models the pin and auto-hide timer, the channel selector, the rebuild of the transcription-channel selector, the delay-label decision, the channel substitution of `_run_transcription` and the file names of `_save_all`.
- **Main window** (`main_window.dfy`, `MainWindow`):
  - the tuple dispatch, sizing and placement of `show_tooltip_slot`;
  - the filter string and start directory of `open_file_dialog`;
  - the transcript file name of `TranscriptionWorker.run`;
  - the preview length of `on_visualization_requested`;
  - the defaults `load_default_settings` writes at start-up.
- **Support modules:** `Paths` models the Windows `os.path` and `pathlib` helpers the code calls, and `Text` models `str(int)`, `int(str)`, ASCII `lower`/`upper` and `join`. `Common` holds `Option`.

In four places the code departs from its evident intent; each is listed under "## Findings", with a lemma that exhibits the code as written and the corrected behaviour proved beside it. Which of the two the operations follow differs:
- Delay estimation follows the code. `CalculateTimeDelay` runs on the written axes (`Axes.AsWritten`): the linspace frequency axis, which for an odd nfft has nfft−1 entries and a step of fs/(nfft−1), and the lag axis `x − n/2` with true division. The filter and the correlation also take the corrected per-bin axes (`Axes.PerBin`), and `AxesAgreeWhenEven` proves that both give the same correlation for even lengths.
- The tooltip constructor and the transcription-selector rebuild follow the corrected behaviour: the selector starts with its two fixed entries. The selector created empty, as written, is exhibited by `Tooltip.StaleChannelsAsWritten`.
- `MainWindow.ShowTooltipSlot` follows the corrected behaviour of a resizable tooltip. The fixed size as written, which makes the resize do nothing, is exhibited by `MainWindow.FixedSizeOverflowsAsWritten`.

## Model

| member | source | states |
|---|---|---|
| DelayEstimation.Linspace | core/audio_analyzer.py:198 | `np.linspace` gives `num` points; point k is start + k·(stop−start)/(num−1), and the first point is `start` |
| DelayEstimation.LinspaceAxis | core/audio_analyzer.py:198-200 | the written axis: the p = nfft//2+1 linspace points, then the negated inner points in reverse, for p + max(p−2, 0) entries |
| DelayEstimation.LinspaceAxisLength | core/audio_analyzer.py:198-200 | the written axis has nfft entries for even nfft ≥ 2, nfft−1 for odd nfft ≥ 3, and 1 for nfft ≤ 1 |
| DelayEstimation.EvenStep | core/audio_analyzer.py:198 | for even nfft the linspace step is exactly fs/nfft, so point k is k·fs/nfft |
| DelayEstimation.NegScaled | core/audio_analyzer.py:199 | the frequency of bin −k is minus the frequency of bin k |
| DelayEstimation.LinspaceAxisEven | core/audio_analyzer.py:198-200 | even nfft: the axis has nfft entries, entry k = k·fs/nfft for k ≤ nfft/2, and entry nfft−k = −entry k |
| DelayEstimation.BinFrequencies | core/audio_analyzer.py:198-200 | the per-bin axis: nfft entries, bin k at k·fs/nfft up to nfft/2 and (k−nfft)·fs/nfft above it |
| DelayEstimation.BinFrequencyAgreesWhenEven | core/audio_analyzer.py:198-200 | for even nfft, each bin frequency equals the written axis entry |
| DelayEstimation.BinFrequenciesAgreeWhenEven | core/audio_analyzer.py:198-200 | for even nfft the bin frequencies are exactly the written axis |
| DelayEstimation.BinFrequenciesMirror | core/audio_analyzer.py:198-200 | bins k and nfft−k, when distinct, sit at opposite frequencies |
| DelayEstimation.OddStep | core/audio_analyzer.py:198 | for odd nfft the linspace step is fs/(nfft−1), so point k is k·fs/(nfft−1) |
| DelayEstimation.LinspaceAxisOdd | core/audio_analyzer.py:198-200 | odd nfft: the written axis has nfft−1 entries, and entry k = k·fs/(nfft−1) for k ≤ nfft/2 |
| DelayEstimation.FrequencyAxis | core/audio_analyzer.py:198-200 | the axis the filter masks with, written or per bin, is never longer than the spectrum |
| DelayEstimation.BandsPartition | core/audio_analyzer.py:202-205 | for 0 ≤ fmin ≤ fmax every frequency is in exactly one of the in-band and out-of-band classes, and in-band means fmin ≤ abs(f) ≤ fmax |
| DelayEstimation.InBand | core/audio_analyzer.py:202-205 | the in-band class: fmin ≤ f ≤ fmax or −fmax ≤ f ≤ −fmin; `BandsPartition` states it is the complement of the out-of-band class |
| DelayEstimation.OutOfBand | core/audio_analyzer.py:202-205 | the out-of-band class: −fmin < f < fmin, or f beyond ±fmax |
| DelayEstimation.MaskKeepsOneClass | core/audio_analyzer.py:207-212 | after the mask, bandpass keeps exactly the bins whose axis entry has abs(f) in [fmin, fmax] and bandcut exactly the others, which become 0; a bin beyond the end of the axis is kept |
| DelayEstimation.Masked | core/audio_analyzer.py:207-212 | the magnitudes after the mask keep the spectrum's length; `MaskKeepsOneClass` gives each entry |
| DelayEstimation.MirrorBinsTreatedAlike | core/audio_analyzer.py:202-212 | bins k and nfft−k are always zeroed together or kept together |
| DelayEstimation.MaskBins | core/audio_analyzer.py:209-212 | the in-place zeroing of `absS` leaves exactly `Masked` of the old magnitudes |
| DelayEstimation.FilteredSpectrumBins | core/audio_analyzer.py:198-215 | on either axes, each bin of the filtered spectrum is the original magnitude with the original phase when kept (in band for bandpass, out of band for bandcut, or beyond the axis), exact zero otherwise |
| DelayEstimation.OddLengthLastBinKept | core/audio_analyzer.py:198-215 | as written, the last bin of an odd-length spectrum is passed with its magnitude and phase by bandpass and bandcut alike |
| DelayEstimation.FilterSpec | core/audio_analyzer.py:195-217 | the filtered signal has the input's length, on either axes |
| DelayEstimation.Colore | core/audio_analyzer.py:191-217 | `COLORE`: `None` for an empty signal (numpy raises), otherwise the signal `FilterSpec` describes on the same axes |
| DelayEstimation.CrossPower | core/audio_analyzer.py:227 | `f_s1 * conj(f_s2)` is defined exactly when numpy broadcasts the shapes (equal, or one of length 1), and has the broadcast length |
| DelayEstimation.Floored | core/audio_analyzer.py:229-233 | after the floor every denominator is ≥ 1e-6, entries already ≥ 1e-6 are unchanged, and the others become 1e-6 |
| DelayEstimation.ClampDenominator | core/audio_analyzer.py:231 | the in-place clamp leaves exactly `Floored` of the old denominators |
| DelayEstimation.PhatWeightedBins | core/audio_analyzer.py:229-236 | with `norm == 1` each bin is divided by its floored magnitude, which is ≥ 1e-6, so no bin is ever divided by zero |
| DelayEstimation.FftShiftIndex | core/audio_analyzer.py:236 | entry i of the shifted curve is entry n−n/2+i of the input below n/2, and entry i−n/2 from there on |
| DelayEstimation.FftShiftCentresZeroLag | core/audio_analyzer.py:236 | after the shift, correlation bin 0 sits at index n/2 and the last bin at n/2−1 |
| DelayEstimation.MaxAbs | core/audio_analyzer.py:237 | `np.max(np.abs(G))` bounds every abs(G[i]) and is reached at some index |
| DelayEstimation.NormalisedPeak | core/audio_analyzer.py:237 | after normalisation the curve is finite exactly when G is not all zero; then every abs(value) ≤ 1 and some abs(value) = 1 |
| DelayEstimation.LagAxes | core/audio_analyzer.py:239-241 | on either axes consecutive sample lags differ by 1 and ms lags by 1000/fs, and the ms axis is strictly increasing; index n/2 has lag 0, except on the written axis of an odd length, where it has −0.5 |
| DelayEstimation.SampleLagsAgreeWhenEven | core/audio_analyzer.py:239-240 | for even n the written `x − n/2` is exactly the lag of each shifted bin |
| DelayEstimation.SampleLagsAsWrittenOddOffset | core/audio_analyzer.py:239-240 | for odd n the written axis is half a sample below the lag of each bin, and reads −0.5 at the zero-lag index |
| DelayEstimation.LagAxis | core/audio_analyzer.py:239-240 | the chosen lag axis has one lag per bin |
| DelayEstimation.GccPhatShape | core/audio_analyzer.py:219-243 | `GCCPHAT` fails exactly on an empty channel or lengths numpy cannot broadcast; otherwise curve and both axes share the broadcast length, and the axes are the chosen lag axis and its ms conversion |
| DelayEstimation.GccPhatSpec | core/audio_analyzer.py:219-243 | what `GCCPHAT` returns on the chosen axes; `GccPhatShape` states when it fails and its shape, `AxesAgreeWhenEven` relates the two axes |
| DelayEstimation.FilterSpecAgreesWhenEven | core/audio_analyzer.py:195-217 | for a signal of even length the filter gives the same output on the written and the per-bin axes |
| DelayEstimation.AxesAgreeWhenEven | core/audio_analyzer.py:219-243 | for two channels of one even length `GCCPHAT` gives the same result on the written and the per-bin axes |
| DelayEstimation.GccPhat | core/audio_analyzer.py:219-243 | the imperative `GCCPHAT` (filters, cross power, in-place floor, shift, normalisation, axes) returns exactly `GccPhatSpec` on the same axes |
| DelayEstimation.FirstArgMax | core/audio_analyzer.py:161 | `np.argmax`: an index holding the maximum, with every earlier value strictly smaller |
| DelayEstimation.PeakIndex | core/audio_analyzer.py:161 | the peak index lies inside the curve, for a finite curve and for an all-NaN one alike |
| DelayEstimation.DelayAtFirstMaximum | core/audio_analyzer.py:161-162 | the delay is the ms lag at the first index of the curve's maximum; a silent correlation yields the lag of index 0, −(n/2)/fs·1000 with true division as written and −(n//2)/fs·1000 on the per-bin axis |
| DelayEstimation.PeakDelay | core/audio_analyzer.py:161-162 | the ms lag at the argmax of the curve; `DelayAtFirstMaximum` states which index that is |
| DelayEstimation.TimeDelaySpec | core/audio_analyzer.py:123-173 | the delay `calculate_time_delay` returns on the chosen axes; `TimeDelayDefined` states when it is defined |
| DelayEstimation.TimeDelayDefined | core/audio_analyzer.py:142-162 | on either axes, a well-formed stereo excerpt with at least one sample always yields a delay, read off the correlation's axes of that kind |
| DelayEstimation.TimeDelayAgreesWhenEven | core/audio_analyzer.py:142-162 | for an excerpt of even length the delay is the same on the written and the per-bin axes |
| DelayEstimation.CalculateTimeDelay | core/audio_analyzer.py:123-173 | an unknown channel count or fewer than two channels gives `None` before any correlation; in every case the result is `TimeDelaySpec` on the written axes, which is also `None` for a failed load |
| DelayEstimation.RealParts | core/audio_analyzer.py:214 | `np.real` keeps one value per bin |
| DelayEstimation.Magnitudes | core/audio_analyzer.py:207 | `np.abs` of the spectrum keeps one magnitude per bin |
| DelayEstimation.Rebuilt | core/audio_analyzer.py:214-215 | magnitude times `exp(1j·angle)` keeps one value per bin |
| DelayEstimation.FilteredSpectrum | core/audio_analyzer.py:198-215 | the masked spectrum has one value per bin |
| DelayEstimation.Divided | core/audio_analyzer.py:236 | `Pxy / denom` over a positive denominator keeps the length |
| DelayEstimation.PhatWeighted | core/audio_analyzer.py:229-236 | the weighted cross power keeps the length, for either `norm` |
| DelayEstimation.FftShift | core/audio_analyzer.py:236 | `fftshift` keeps the length |
| DelayEstimation.Normalised | core/audio_analyzer.py:237 | the normalised curve has the length of G |
| DelayEstimation.AbsQuotient | core/audio_analyzer.py:237 | dividing by the maximum magnitude bounds each value by 1 and maps the maximum to magnitude 1 |
| DelayEstimation.SampleLagsAsWritten | core/audio_analyzer.py:239-240 | the written sample axis has one lag per bin |
| DelayEstimation.SampleLags | core/audio_analyzer.py:239-240 | the lag axis has one lag per bin |
| DelayEstimation.MsLags | core/audio_analyzer.py:241 | the ms axis has one value per lag |
| DelayEstimation.MsStep | core/audio_analyzer.py:241 | one sample of lag is 1000/fs ms |
| DelayEstimation.MsMonotone | core/audio_analyzer.py:241 | converting to ms keeps the order of lags |
| DelayEstimation.OddLengthAxisLeavesLastBin | core/audio_analyzer.py:198-212 | with 3 bins and fs = 3 the written axis is [0, 1.5], which labels bin 1 (1 Hz) 1.5 Hz and gives bin 2 none; bandpass [0, 0.5] zeroes bin 1 and keeps bin 2, while the per-bin axis [0, 1, −1] zeroes both |
| DelayEstimation.OddLengthLagOffset | core/audio_analyzer.py:236-240 | with 3 samples the shift puts bin 0 at index 1, which the written lag axis labels −0.5 and the per-bin axis 0 |
| AnalysisCache.Without | core/audio_analyzer.py:620 | the keys left after deleting k are exactly the others, no more of them |
| AnalysisCache.WithoutAbsent | core/audio_analyzer.py:1210-1215 | deleting an absent key changes nothing |
| AnalysisCache.WithoutDistinct | core/audio_analyzer.py:620 | deleting keeps the keys distinct |
| AnalysisCache.WithoutHead | core/audio_analyzer.py:618-620 | deleting the oldest key drops exactly the head of the key order |
| AnalysisCache.DistinctCardinality | core/audio_analyzer.py:615 | `len(d)` counts the distinct keys |
| AnalysisCache.OrderedDict.constructor | core/audio_analyzer.py:68-70 | a new dict holds no key |
| AnalysisCache.OrderedDict.Size | core/audio_analyzer.py:615 | `len(d)` is the number of keys |
| AnalysisCache.OrderedDict.Get | core/audio_analyzer.py:104 | `d.get(k)` returns the value exactly for a present key |
| AnalysisCache.OrderedDict.Set | core/audio_analyzer.py:107-108 | `d[k] = v`: an existing key keeps its position, a new key goes last; the value is replaced |
| AnalysisCache.OrderedDict.Delete | core/audio_analyzer.py:620 | `del d[k]` removes the key from the order and the entries |
| AnalysisCache.OrderedDict.Discard | core/audio_analyzer.py:1210-1215 | `if k in d: del d[k]`, also for an absent key |
| AnalysisCache.OrderedDict.Clear | core/audio_analyzer.py:1219-1221 | `d.clear()` leaves no key |
| AnalysisCache.OrderedDict.TrimOldest | core/audio_analyzer.py:615-620 | a loop deletes the oldest keys until `limit` remain; the keys left are `Trimmed`, and every surviving entry keeps its value |
| AnalysisCache.TrimmedKeepsNewest | core/audio_analyzer.py:615-620 | after trimming at most `limit` keys remain, the removed keys are the oldest, and a cache within the limit is unchanged |
| AnalysisCache.Trimmed | core/audio_analyzer.py:615-620 | the keys left after removing the oldest ones; `TrimmedKeepsNewest` states the bound and the order |
| AnalysisCache.MtimeCheckAnswer | core/audio_analyzer.py:100-121 | the cache is valid exactly when a stored mtime exists and the file's is not later; otherwise the current mtime is stored; cached results are kept |
| AnalysisCache.MtimeCheck | core/audio_analyzer.py:100-121 | the answer of `is_cache_valid` and the mtime entry after it; `MtimeCheckAnswer` states both |
| AnalysisCache.MtimeCheckTwice | core/audio_analyzer.py:100-121 | after a check the stored mtime is not before the file's, so a second check with an unchanged mtime answers True |
| AnalysisCache.Analyzer.constructor | core/audio_analyzer.py:68-71 | the three caches start empty and fresh, with a limit of 20 |
| AnalysisCache.Analyzer.IsCacheValid | core/audio_analyzer.py:86-121 | a missing file gives False with nothing changed; otherwise the answer and the new entry are those of `MtimeCheck`, and a new path goes last |
| AnalysisCache.Analyzer.MaintainCacheSize | core/audio_analyzer.py:608-622 | each of the three caches keeps its newest `max_cache_size` keys, with their values |
| AnalysisCache.Analyzer.ClearCache | core/audio_analyzer.py:1201-1222 | a non-empty path is removed from all three caches, which otherwise keep their order; no path or "" clears all three |
| AnalysisCache.Analyzer.CacheStats | core/audio_analyzer.py:1224-1236 | the statistics are the three caches' key counts and the limit |
| AnalyzerHelpers.DurationParts | core/audio_analyzer.py:657-658 | the floored minutes and seconds: seconds in [0, 60) and minutes·60 + seconds = ⌊d⌋ |
| AnalyzerHelpers.TwoDigits | core/audio_analyzer.py:659 | `{n:02d}` is two digits whose value is n |
| AnalyzerHelpers.FormatParts | core/audio_analyzer.py:659 | "m:ss" has a colon three characters from the end |
| AnalyzerHelpers.FormatDuration | core/audio_analyzer.py:657-659 | the duration text has a colon three characters from the end |
| AnalyzerHelpers.PartsReadBack | core/audio_analyzer.py:659 | "m:ss" splits back into m (via `int`) and the two-digit seconds |
| AnalyzerHelpers.FormatDurationReadsBack | core/audio_analyzer.py:657-659 | the duration text reads back as the minutes and seconds of ⌊d⌋ |
| AnalyzerHelpers.TranscriptionDurationChoices | core/audio_analyzer.py:860-884 | "full", or "preview" with whole signal, loads the whole file; "60" loads 60 s; an unknown choice 30 s; "preview" loads the stored preview, 10 s when it does not parse |
| AnalyzerHelpers.TranscriptionMaxDuration | core/audio_analyzer.py:860-884 | the length of audio sent to transcription; `TranscriptionDurationChoices` states every branch |
| AnalyzerHelpers.TranscriptionDefault | core/audio_analyzer.py:860-875 | with nothing stored, 10 s are transcribed |
| AnalyzerHelpers.TranscriptionStoredPreview | core/audio_analyzer.py:863-873 | a preview stored as `str(n)` with whole signal off transcribes n seconds |
| AnalyzerHelpers.Strided | core/audio_analyzer.py:1260 | `y[::step]` has ⌈len/step⌉ samples, sample i being y[i·step] |
| AnalyzerHelpers.DecimatedBounds | core/audio_analyzer.py:1257-1264 | up to 10 000 samples are plotted whole; longer signals are cut to 10 000–19 999 samples at a fixed stride; one time per sample |
| AnalyzerHelpers.Decimated | core/audio_analyzer.py:1257-1264 | the times and samples plotted: one time per sample; `DecimatedBounds` states the threshold and the stride |
| AnalyzerHelpers.StrideIndex | core/audio_analyzer.py:1260 | every index the stride visits lies inside the signal |
| FileUtils.IsAudioFile | utils/file_utils.py:23-37 | no path or "" is not audio; any other path is audio exactly when its lower-cased suffix is a listed extension |
| FileUtils.AudioExtensionShape | utils/file_utils.py:17-20 | every listed extension is a dot and at least one character |
| FileUtils.AudioExtensionsIgnoreCase | utils/file_utils.py:17-37 | every listed extension is lower case and lowers back to itself from upper case, so the test ignores case |
| FileUtils.Existing | utils/file_utils.py:82-83 | the filtered list holds exactly the paths that exist, no more of them |
| FileUtils.ExistingKeepsOrder | utils/file_utils.py:82-83 | filtering keeps the original order, and filtering twice changes nothing |
| FileUtils.Prefix | utils/file_utils.py:82-83 | `lst[:k]` for non-negative k is the first min(k, len) items |
| FileUtils.SavedListBounds | utils/file_utils.py:82-83 | what is stored holds at most `max_count` paths, all existing, in their original order |
| FileUtils.SavedList | utils/file_utils.py:82-83 | the existing paths cut to `max_count`; `SavedListBounds` states the bound, existence and order |
| FileUtils.PrefixIsSubsequence | utils/file_utils.py:83 | a prefix keeps the list's order |
| FileUtils.SubsequenceTransitive | utils/file_utils.py:82-83 | keeping order composes |
| FileUtils.SaveRecentFiles | utils/file_utils.py:68-95 | no settings object gives False and stores nothing; otherwise the filtered, truncated list is stored as JSON and the answer is True |
| FileUtils.LoadRecentFiles | utils/file_utils.py:98-120 | nothing stored or no settings object gives []; otherwise the stored paths that exist |
| FileUtils.LoadedList | utils/file_utils.py:98-120 | the decoded stored paths that exist, [] when nothing is stored; `SaveThenLoad` closes the round trip |
| FileUtils.SaveThenLoad | utils/file_utils.py:68-120 | loading after saving returns exactly the saved list while the same paths exist |
| FileUtils.PrefixOfExistingIsExisting | utils/file_utils.py:82-83 | a prefix of existing paths survives the load filter unchanged |
| FileUtils.AllExistingUnchanged | utils/file_utils.py:114 | filtering a list of existing paths changes nothing |
| FileUtils.RemoveFirst | utils/file_utils.py:146 | the list without the first occurrence of a present value, one entry shorter (`RemoveFirstSplices` gives its entries); a list without the value is left as it is (Python raises there, but the one caller removes only a present value, line 145) |
| FileUtils.IndexOf | utils/file_utils.py:145-146 | the first occurrence of a present value |
| FileUtils.RemoveFirstSplices | utils/file_utils.py:146 | `remove` drops exactly the first occurrence and keeps the rest in order |
| FileUtils.MoveToFrontShape | utils/file_utils.py:145-149 | after moving to the front the path is first, the rest is the old list without its first occurrence, and the length grows by one exactly when it was absent |
| FileUtils.PathList.constructor | utils/file_utils.py:123 | the caller's list with the given items |
| FileUtils.PathList.Remove | utils/file_utils.py:146 | the caller's list loses its first occurrence of the path, in place |
| FileUtils.PathList.InsertFront | utils/file_utils.py:149 | `insert(0, x)` on the caller's list |
| FileUtils.AddRecentFile | utils/file_utils.py:123-157 | a missing path changes nothing and returns the given list or a new []; otherwise the given (or loaded) list gets the path moved to its front, in place, and is saved |
| FileUtils.FileSizeUnits | utils/file_utils.py:191-208 | below 1024 exactly "{n} B"; otherwise KB, MB or GB by the 1024, 1024² and 1024³ thresholds, the quotient in [1, 1024) except for GB |
| FileUtils.FormatFileSize | utils/file_utils.py:191-208 | the unit and quotient of a size; `FileSizeUnits` states the thresholds |
| FileUtils.ValidateAudioFilePath | utils/file_utils.py:211-263 | the verdict is True exactly when the message is empty |
| FileUtils.Checks | utils/file_utils.py:223-260 | the eight checks, in the order the function runs them |
| FileUtils.ValidationOrder | utils/file_utils.py:211-263 | the verdict is the first failing check's message in the order empty, normalise, exists, is-file, size error, zero size, extension, readable |
| FileUtils.FirstFailure | utils/file_utils.py:211-263 | the first failing check's message, or success; `FirstFailureVerdict` states it |
| FileUtils.LowerExtension | utils/file_utils.py:250 | the extension of the lower-cased path, as `splitext` gives it |
| FileUtils.ValidationVerdict | utils/file_utils.py:211-263 | success, with "", exactly when no check fails; a failure always carries a message |
| FileUtils.FirstFailureOfEight | utils/file_utils.py:223-263 | the verdict of eight checks, written out as the chain of early returns |
| FileUtils.FirstFailureVerdict | utils/file_utils.py:223-263 | a chain of checks passes exactly when none fails; otherwise it answers with the first failing check's message |
| SettingsStore.Lookup | ui/settings_dialog.py:442-443 | `settings.value(key, default)`: the stored string, or the default when absent |
| SettingsStore.Store.constructor | ui/settings_dialog.py:46-47 | a store holding the given values |
| SettingsStore.Store.SetValue | ui/settings_dialog.py:505-506 | `settings.setValue` replaces one key |
| SettingsDialog.Find | ui/settings_dialog.py:463-478 | `findData`/`findText`: the first index holding the value, or −1 exactly when absent |
| SettingsDialog.Clamp | ui/settings_dialog.py:151 | a spin box's `setValue` moves the value into its range and keeps values already in it |
| SettingsDialog.BoolText | ui/settings_dialog.py:505-518 | a boolean is written as exactly "true" or "false", "true" exactly for True |
| SettingsDialog.ParseIntReadsIntegers | ui/settings_dialog.py:444-449 | `int(str(i)) == i` for every integer |
| SettingsDialog.SpinValue | ui/settings_dialog.py:444-449 | loading a number succeeds exactly when `int` parses it and it fits a C `int`; the result is clamped to the range |
| SettingsDialog.Selected | ui/settings_dialog.py:463-478 | a stored value found among the items selects it; otherwise the selection stays |
| SettingsDialog.Chosen | ui/settings_dialog.py:450-482 | the second stage of the load keeps the widgets valid |
| SettingsDialog.WithTranscription | ui/settings_dialog.py:455-482 | the widgets after the transcription box, key and three combo boxes are loaded; `ChosenSelections` states the selections |
| SettingsDialog.Load | ui/settings_dialog.py:439-482 | the load's outcome, widgets and write-back; `LoadOutcomeFacts` and `LoadValid` state them |
| SettingsDialog.StoreAfterLoad | ui/settings_dialog.py:439-482 | the store after the load, changed only by the write-back of `use_whole_signal`; `ApplyThenLoad` states it for an applied store |
| SettingsDialog.LoadNumbers | ui/settings_dialog.py:442-449 | the first stage changes only the auto-close box and the two spin boxes, and keeps them valid |
| SettingsDialog.ReadAfterWholeSignalWrite | ui/settings_dialog.py:199-204 | the write-back of `use_whole_signal` during the load changes nothing else the load reads |
| SettingsDialog.LoadValid | ui/settings_dialog.py:439-482 | loading keeps every spin box in range and every combo box on an item |
| SettingsDialog.LoadOutcomeFacts | ui/settings_dialog.py:439-482 | the load fails exactly when a number does not parse or fit; it writes only when the whole-signal box changes; the preview spin box follows the box and the Azure inputs follow transcription |
| SettingsDialog.ChosenSelections | ui/settings_dialog.py:460-478 | duration, region and language are restored only when found among the items, and otherwise stay as they were |
| SettingsDialog.ReadDefaults | ui/settings_dialog.py:442-476 | with nothing stored the load reads "true", 4, 10, "true", "false", "preview", "", "eastus" and "" |
| SettingsDialog.Read | ui/settings_dialog.py:439-482 | the nine settings as the load reads them, with its defaults; `ReadDefaults` and `ReadApplied` state them |
| SettingsDialog.ReadChoices | ui/settings_dialog.py:450-482 | the flags, duration, key, region and language the load reads, flags compared with "true" |
| SettingsDialog.ItemsDistinct | ui/settings_dialog.py:225-263 | no combo box lists an item twice |
| SettingsDialog.FindDistinct | ui/settings_dialog.py:463-478 | in a list without repeats, an item is found at its own index |
| SettingsDialog.AppliedKeys | ui/settings_dialog.py:502-527 | each of the nine keys holds what its widget shows, booleans as "true"/"false" and numbers as `str` |
| SettingsDialog.Applied | ui/settings_dialog.py:502-527 | the store after the nine writes; `AppliedKeys` states each key |
| SettingsDialog.AsStored | ui/settings_dialog.py:502-527 | the settings as the widgets write them; `LoadAsStored` loads them back |
| SettingsDialog.ReadApplied | ui/settings_dialog.py:439-527 | what the load reads from an applied store is exactly what the widgets held |
| SettingsDialog.SelectsOwnItems | ui/settings_dialog.py:463-478 | selecting an item the combo box shows selects it again, whatever was selected before |
| SettingsDialog.LoadAsStored | ui/settings_dialog.py:439-482 | loading the values the widgets wrote succeeds and puts every one of them back |
| SettingsDialog.ApplyThenLoad | ui/settings_dialog.py:439-527 | apply then load restores every setting, booleans and in-range numbers included, whatever the widgets held before, and leaves the store as applied |
| SettingsDialog.Dialog.constructor | ui/settings_dialog.py:32-49 | the widgets start as `_init_ui` leaves them, reading integers with `int`, not accepted |
| SettingsDialog.Dialog.TogglePreviewDuration | ui/settings_dialog.py:199-204 | the preview spin box is enabled exactly when the box is unchecked, and `use_whole_signal` is written at once |
| SettingsDialog.Dialog.ToggleTranscriptionOptions | ui/settings_dialog.py:306-311 | key, region and language inputs are enabled exactly when the box is checked |
| SettingsDialog.Dialog.SetWholeSignalChecked | ui/settings_dialog.py:185-188 | checking the box reaches the toggle, and writes the store, only on a change of state |
| SettingsDialog.Dialog.SetTranscriptionChecked | ui/settings_dialog.py:212-216 | checking the transcription box reaches its toggle only on a change of state |
| SettingsDialog.Dialog.LoadSettings | ui/settings_dialog.py:439-482 | `_load_settings` leaves the widgets and the store as `Load` and `StoreAfterLoad` describe |
| SettingsDialog.Dialog.LoadSpinBoxes | ui/settings_dialog.py:442-449 | the first stage step by step, stopping where `int` or `setValue` raises |
| SettingsDialog.Dialog.LoadChoices | ui/settings_dialog.py:450-482 | the second stage: the widgets become `Chosen`, and the store changes only by the whole-signal write-back |
| SettingsDialog.Dialog.LoadTranscription | ui/settings_dialog.py:455-482 | transcription box, key and the three combo boxes, then the inputs enabled to match |
| SettingsDialog.Dialog.ApplySettings | ui/settings_dialog.py:502-527 | the store becomes `Applied` of the widgets |
| SettingsDialog.Dialog.Accept | ui/settings_dialog.py:529-532 | all settings are written before the dialog closes as accepted |
| SettingsDialog.Open | ui/settings_dialog.py:32-50 | the dialog exists exactly when the load succeeds, with the widgets the load leaves |
| Tooltip.AddItem | ui/tooltip.py:846 | `addItem` appends, and an empty combo box selects the new item |
| Tooltip.RemoveItem | ui/tooltip.py:841 | `removeItem(i)` removes entry i, or ignores an index past the end |
| Tooltip.FindData | ui/tooltip.py:551 | `findData`: the first index holding the data, or −1 exactly when none does |
| Tooltip.ChannelName | ui/tooltip.py:547 | channel names: "Left", "Right", then "Channel i+1" |
| Tooltip.CaptionText | ui/tooltip.py:547-548 | the selector's text is "{name} ({i+1})" and the transcription selector's "{name}" |
| Tooltip.StereoTexts | ui/tooltip.py:547-548 | the two stereo entries read "Left (1)" and "Right (2)" |
| Tooltip.ChannelItems | ui/tooltip.py:546-548 | entry i of the selector is channel i with its name and number |
| Tooltip.TranscriptionItems | ui/tooltip.py:844-846 | entry i appended to the transcription selector is channel i with its name |
| Tooltip.TranscriptionRebuilt | ui/tooltip.py:834-853 | the rebuilt selector is a valid combo box |
| Tooltip.RebuiltItems | ui/tooltip.py:839-846 | at most two entries survive, then one entry per channel |
| Tooltip.RebuildKeepsLeadingItems | ui/tooltip.py:839-846 | the first two entries (or fewer, if fewer exist) survive unchanged, followed by exactly the channel entries |
| Tooltip.RebuildRestoresSelection | ui/tooltip.py:836-853 | when the earlier selection's data is still listed it is selected again, at its first occurrence; otherwise the selection is what the removals left |
| Tooltip.StaleChannelsAsWritten | ui/tooltip.py:746 | as written the selector starts empty, so two rebuilds for a stereo file list both channels twice |
| Tooltip.RebuildWithFixedItems | ui/tooltip.py:839-846 | with the two fixed entries in place every rebuild lists them and then exactly the file's channels |
| Tooltip.DelayDecision | ui/tooltip.py:881-904 | mono shows "N/A"; stereo with no delay or abs(d) ≤ 0.01 "not detected"; otherwise abs(d), right→left exactly when d > 0 |
| Tooltip.DelayDecisionSymmetric | ui/tooltip.py:881-885 | negating the delay keeps the size and flips the direction |
| Tooltip.DelayText | ui/tooltip.py:892-899 | the two fixed texts of the label |
| Tooltip.VisualizationKind | ui/tooltip.py:402 | the visualisation name is lower case with no '-' left |
| Tooltip.SavedFiles | ui/tooltip.py:357-404 | metadata, waveform and visualisation names carry "_ch{c+1}" only for several channels; the transcript's never does |
| Tooltip.ChannelSuffix | ui/tooltip.py:360 | "_ch{c+1}" for several channels, "" otherwise; `ChannelNamesDiffer` states that channels get different names |
| Tooltip.SuffixParts | ui/tooltip.py:360 | a multi-channel name splits around the channel number |
| Tooltip.ChannelNamesDiffer | ui/tooltip.py:360-404 | files saved from two different channels of one file get different names |
| Tooltip.EnhancedTooltip.constructor | ui/tooltip.py:45-58 | hidden, unpinned, timer stopped, 10 s auto-hide, channel 0 of 1, the one disabled mono entry, no callbacks set |
| Tooltip.EnhancedTooltip.ResetAutoHideTimer | ui/tooltip.py:974-982 | nothing while pinned; otherwise the timer runs with interval `auto_hide_seconds`·1000 |
| Tooltip.EnhancedTooltip.TogglePin | ui/tooltip.py:965-972 | pinning sets `pinned` and stops the timer; unpinning clears it and restarts the timer |
| Tooltip.EnhancedTooltip.ClickPin | ui/tooltip.py:965-972 | a click on the pin button flips `pinned` and the checked state together; pinned stops the auto-hide timer, unpinned restarts it at the auto-hide interval |
| Tooltip.EnhancedTooltip.ForceHide | ui/tooltip.py:171-182 | afterwards the timer is stopped, `pinned` and the button are off, and the tooltip is hidden |
| Tooltip.EnhancedTooltip.Enter | ui/tooltip.py:1184-1190 | the pointer entering stops the timer |
| Tooltip.EnhancedTooltip.Leave | ui/tooltip.py:1192-1197 | leaving restarts the timer unless pinned |
| Tooltip.EnhancedTooltip.OnChannelChanged | ui/tooltip.py:519-529 | None becomes 0; the channel is stored and passed to the callback only when it differs and a callback is set |
| Tooltip.EnhancedTooltip.ChooseChannel | ui/tooltip.py:584-585 | picking another entry triggers `_on_channel_changed` |
| Tooltip.EnhancedTooltip.UpdateChannels | ui/tooltip.py:531-561 | n ≤ 1 gives the one mono entry, channel 0 of 1, disabled, and a callback with 0 when the channel was another; n > 1 lists the n channels, selects the channel when listed, stores channel and n |
| Tooltip.EnhancedTooltip.ShowMono | ui/tooltip.py:533-539 | the mono branch, with its unblocked signals |
| Tooltip.EnhancedTooltip.ListChannels | ui/tooltip.py:541-561 | the multi-channel branch: the loop appends the n entries, signals blocked |
| Tooltip.EnhancedTooltip.UpdateTranscriptionChannels | ui/tooltip.py:834-853 | the remove loop and the append loop leave exactly `TranscriptionRebuilt` of the old selector |
| Tooltip.EnhancedTooltip.RunTranscription | ui/tooltip.py:814-832 | no file does nothing; the "current channel" entry (−2) becomes the current channel; the request, with no language (the tooltip's language selector is never filled), reaches the callback, and an unset callback raises |
| Tooltip.EnhancedTooltip.UpdateChannelDelay | ui/tooltip.py:855-907 | the label shows `DelayDecision` for the stored channel count |
| MainWindow.Unpack | main.py:972-982 | `None` and () are skipped; six values carry the channel count and channel; four values get 1 and 0; any other length fails |
| MainWindow.MaxSize | main.py:998-999 | the size bound is 100 px less than the screen and at most 1600 × 800 |
| MainWindow.Resize | main.py:1001-1002 | `resize` takes the requested size, unless the widget's size is fixed |
| MainWindow.Constrained | main.py:1001-1002 | the tooltip's size after the resize to the bound; `ConstrainedTooltipFits` and `FixedSizeOverflowsAsWritten` state it |
| MainWindow.Position | main.py:1005-1010 | the tooltip is never placed left of or above the screen |
| MainWindow.PositionInside | main.py:1005-1012 | a tooltip no larger than a screen at a non-negative x lies entirely inside it |
| MainWindow.FixedSizeOverflowsAsWritten | main.py:1001-1008 | as written the fixed 600 × 800 tooltip is not resized, and on a 1366 × 728 screen it overflows the bottom by 72 px |
| MainWindow.ConstrainedTooltipFits | main.py:998-1010 | a resizable tooltip is shrunk to the bound and then lies inside any screen of at least 100 px each way |
| MainWindow.ShowTooltipSlot | main.py:970-1022 | a result that does not unpack shows nothing; otherwise the tooltip is constrained and placed at `Position`, never past the left or top edge |
| MainWindow.FormatFilters | main.py:676-681 | at most one filter per format |
| MainWindow.Patterns | main.py:684 | pattern i is '*' followed by extension i |
| MainWindow.AllAudioPatterns | main.py:684-685 | in any iteration order of the set, the patterns are exactly the twelve extensions, each behind a '*' |
| MainWindow.FormatFiltersOfAudio | main.py:678-681 | a list of audio extensions gets one filter each, in order |
| MainWindow.FormatFiltersOfCommonFormats | main.py:677-681 | the five filters "MP3 Files (*.mp3)" … "OGG Files (*.ogg)", in order |
| MainWindow.CommonFormatsAreAudio | main.py:677-679 | every common format is an audio extension |
| MainWindow.FormatFilterOf | main.py:680-681 | a filter is the extension without its dot in upper case, then " Files (*ext)" |
| MainWindow.FormatFilter | main.py:680-681 | the filter text of one format; `FormatFilterOf` states its parts |
| MainWindow.CommonFilterTexts | main.py:680-681 | the filter text of each of the five common formats |
| MainWindow.FilterListShape | main.py:674-691 | seven filters, MP3 first, OGG fifth and "All Files (*.*)" last |
| MainWindow.FilterList | main.py:674-691 | the filter list of the dialog; `FilterListShape` states its entries |
| MainWindow.StartDirectory | main.py:693-696 | the start directory is the first recent file's directory when that exists, else "" |
| MainWindow.AppendFormatFilters | main.py:677-681 | the filter loop appends exactly `FormatFilters` |
| MainWindow.FileDialogArguments | main.py:669-696 | the dialog gets the filters joined by ";;" and the start directory |
| MainWindow.ChannelInfo | main.py:168 | "mono" exactly for a negative channel, else "ch{n}" |
| MainWindow.TranscriptName | main.py:161-171 | the transcript file name; `TranscriptNamesDiffer` states that channels get different names |
| MainWindow.TranscriptFile | main.py:161-171 | the transcript name beside the audio file |
| MainWindow.LanguageCode | main.py:167 | the language part of the name is never empty |
| MainWindow.TranscriptNameParts | main.py:170-171 | a channel's transcript name splits around the channel number |
| MainWindow.TranscriptNamesDiffer | main.py:161-171 | two channels' transcripts of one file, language and time get different names |
| MainWindow.VisualizationAfterApply | main.py:914-918 | after the dialog applied its widgets, a visualisation previews −1 for whole signal and otherwise the spin box's value |
| MainWindow.WholeSignalDefaultsDisagree | main.py:914-918 | with nothing stored the dialog shows whole signal checked, while a visualisation previews 10 s; the application never has such a store, since the start-up defaults write both keys (`AgreeAfterStartup`) |
| MainWindow.VisualizationDefault | main.py:914-918 | with nothing stored a visualisation previews 10 s, a store the start-up defaults rule out in the application |
| MainWindow.VisualizationPreview | main.py:914-918 | the preview length of a visualisation; `VisualizationAfterApply` and `AgreeAfterStartup` state it |
| MainWindow.WithDefaults | main.py:505-530 | the store with each listed key that is absent set to its default |
| MainWindow.WithDefaultsKeeps | main.py:505-530 | filling in defaults keeps every stored key with its value and stores every listed key |
| MainWindow.WithDefaultsFills | main.py:505-530 | an absent key gets the default listed first for it |
| MainWindow.LoadDefaultSettings | main.py:505-530 | the loop over the defaults leaves the store as `WithDefaults` of the old one |
| MainWindow.AgreeAfterStartup | main.py:505-530 | after the start-up defaults the dialog and a visualisation read the same stored values: whole signal gives −1, otherwise both read the stored duration; an empty store becomes whole signal |
| Paths.LastSep | ui/tooltip.py:358 | the last '\\' or '/' of a path: no separator follows it |
| Paths.RFind | ui/tooltip.py:359 | the last occurrence of a character: none follows it |
| Paths.SplitDrive | ui/tooltip.py:358 | the drive and the rest concatenate back to the path |
| Paths.StripSeps | ui/tooltip.py:358 | trailing separators removed: a prefix that does not end in one |
| Paths.Split | ui/tooltip.py:358-359 | the final component holds no separator and ends the path |
| Paths.Dirname | ui/tooltip.py:358 | `os.path.dirname`: the head of `Split` |
| Paths.FinalComponent | ui/tooltip.py:358-359 | the part after the last separator holds none and ends the path |
| Paths.Basename | ui/tooltip.py:359 | `basename` holds no separator |
| Paths.SplitExt | ui/tooltip.py:359 | `splitext` splits the path into root + extension; the extension is empty or a single dot and no separator |
| Paths.Stem | ui/tooltip.py:359 | the base name without its extension |
| Paths.Join | ui/tooltip.py:367-368 | `join` with a relative name ends with that name |
| Paths.Suffix | utils/file_utils.py:36 | `Path(p).suffix` is empty or a dot, at least one more character and no other dot |
| Paths.Parts | utils/file_utils.py:36 | the components `pathlib` parses after the drive |
| Paths.Name | utils/file_utils.py:36 | the last of those components, or "" |
| Text.NatToString | ui/settings_dialog.py:507-508 | `str(n)` is digits with no leading zero |
| Text.IntToString | ui/settings_dialog.py:507-512 | `str(i)` starts with '-' exactly for negatives |
| Text.ParseInt | ui/settings_dialog.py:444-449 | `int(s)` succeeds only on a string that is not all whitespace |
| Text.ParseIntOfIntToString | ui/settings_dialog.py:444-449 | `int(str(i)) == i` for every integer |
| Text.NatToStringParses | ui/settings_dialog.py:444-449 | `int(str(n)) == n` for non-negative n |
| Text.IntToStringInjective | main.py:168 | different integers have different decimal texts |
| Text.Join | main.py:691 | `sep.join(parts)` |
| Text.Middle | main.py:170-171 | strings that share a prefix and a suffix and are equal have equal middles |
| Text.StripLeft | ui/settings_dialog.py:444-449 | the whitespace `int` skips on the left: a suffix that starts with no whitespace |
| Text.Strip | ui/settings_dialog.py:444-449 | whitespace stripped on both sides, as `int()` does |
| Text.StripRight | ui/settings_dialog.py:444-449 | the whitespace `int` skips on the right: a prefix that ends with no whitespace |
| Text.LowerChar | utils/file_utils.py:36 | an upper-case ASCII letter changes |
| Text.Lower | utils/file_utils.py:36 | `lower` maps each character, keeping the length |
| Text.Upper | main.py:680 | `upper` maps each character, keeping the length |
| Text.UpperChar | main.py:680 | a lower-case letter's upper case is another character that lowers back to it |
| Text.ReplaceChar | ui/tooltip.py:402 | `replace` of one character by another keeps the length and leaves none of the replaced one |

## Left out

- FFT, inverse FFT, `np.abs` of a complex number, `np.angle` and `np.exp(1j·θ)` are opaque functions (the `NumPy` parameter). The model only assumes that the transforms keep the length. It makes no claim about how accurately the delay is recovered.
- Floating point: samples, frequencies, lags and durations are exact reals. Rounding, infinities and NaN beyond the all-zero curve are not modelled.
- Audio decoding and resampling (`load_audio`, soundfile, librosa), matplotlib rendering, Azure transcription, audio playback, logging and the PyInstaller build are not part of this model. They are I/O or library wrappers; `calculate_time_delay` receives the loaders' results as parameters.
- QThread workers, threads, hot keys, Explorer detection and the Windows registry (the start-up check box) are not part of this model: they are concurrency and OS integration.
- Qt painting, animation, styles and layout are not part of this model. Combo boxes are modelled as item lists with a selected index. Entry texts are kept symbolic (`Label`), and `CaptionText` gives their characters.
- The data of the two fixed transcription entries is not in the source. The model gives "Mono Mix" −1, which the transcript name treats as mono, and "Current Channel" −2, which `_run_transcription` substitutes.
- The file system (existence, is-file, size, readability, `normpath`), the screen geometry, the clock (the timestamp) and the iteration order of the extension set are parameters.
- `json.dumps`/`json.loads` are a `Codec` parameter whose round trip is assumed only by `SaveThenLoad`.
- Python's `float()` is a parameter of `TranscriptionMaxDuration`. Python's `int()` is `Text.ParseInt` (ASCII digits, signs, underscores and Python's whitespace). The `:.1f`/`:.2f` formatting is left to the caller.
- Strings are ASCII for case conversion: `lower`/`upper` on non-ASCII letters are not modelled.
- Paths are Windows paths with drive letters. UNC shares are not modelled in `Paths.SplitDrive`.
- The callbacks of the tooltip are recorded (`channelNotices`, `requests`), not run.
- `update_content`'s other widgets and `handle_analysis_result` are not modelled. `show_tooltip_slot` passes no delay to `update_content` (main.py:985-992), so the delay label as shipped always gets `None`; `UpdateChannelDelay` models the label for any delay.
- `get_files_in_directory`, `get_default_audio_directory` and the rest of the repository are outside the modelled core.
- DelayEstimation.CalculateTimeDelay: the first load's duration of 0.1 s is not modelled; the channel count is a parameter.
- FileUtils.AddRecentFile: an exception inside the `try` (for example from a settings object whose `value` raises) is not modelled.
- MainWindow.ShowTooltipSlot: states the corrected behaviour of a resizable tooltip. The fixed-size tooltip as written is `MainWindow.FixedSizeOverflowsAsWritten`. The `update_content` call and the fade are not modelled.
- MainWindow.VisualizationPreview: `int()` raising is `None`, where the source lets the exception propagate.
- Tooltip.EnhancedTooltip.constructor: starts the transcription selector with its two fixed entries, the corrected behaviour (see "## Findings").
- Tooltip.DelayText: the text of a detected delay depends on the `:.2f` formatting parameter and is not stated.

## Findings

| source | as written | input that shows it | evidently intended | confidence | as-written member | corrected member |
|---|---|---|---|---|---|---|
| core/audio_analyzer.py:198-200 | the axis is `linspace(0, fs/2, int(nfft/2+1))` plus the mirrored inner points; for odd nfft it has nfft−1 entries and a step of fs/(nfft−1), so every bin but 0 is labelled above its frequency and the last bin has no label | nfft = 3, fs = 3, bandpass [0, 0.5]: the axis is [0, 1.5]; bin 1 (1 Hz, labelled 1.5 Hz) is zeroed, its mirror bin 2 (−1 Hz) has no entry and keeps its magnitude | one frequency per bin, so that mirrored bins are filtered alike | not executed | DelayEstimation.OddLengthAxisLeavesLastBin | DelayEstimation.MirrorBinsTreatedAlike |
| core/audio_analyzer.py:239-240 | `axe_spl = x - G.shape[0]/2` with true division | N = 3: `fftshift` puts correlation bin 0 at index 1, labelled −0.5 samples | the lag of each shifted bin, i − N//2, 0 at the zero-lag index | not executed | DelayEstimation.OddLengthLagOffset | DelayEstimation.LagAxes |
| ui/tooltip.py:746 | the transcription selector is created empty, yet its rebuild keeps "the first two" entries | `update_transcription_channels(2)` twice lists Left, Right, Left, Right | two fixed entries ("Mono Mix", "Current Channel") before the channels | not executed | Tooltip.StaleChannelsAsWritten | Tooltip.RebuildWithFixedItems |
| ui/tooltip.py:63 | `setFixedSize(600, 800)` makes `resize` in `show_tooltip_slot` do nothing | a 1366 × 728 work area: the 800 px tooltip keeps its size and its bottom is 72 px off screen | the tooltip shrinks to the bound and fits on the screen | not executed | MainWindow.FixedSizeOverflowsAsWritten | MainWindow.ConstrainedTooltipFits |
