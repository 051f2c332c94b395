# A verified model of python-audio-equalizer

python-audio-equalizer is a frequency-domain audio equalizer written in Python on
top of numpy. A signal is moved to the frequency domain, multiplied bin by bin by
a real frequency response, and moved back. This project models the parts of it
that decide where values go, over Dafny's exact `real`:

- **Band filters.** `equalizer.py` and `src/equalizer.py` each build them. The
  shapes are a Gaussian bell, a rectangular mask, a windowed-sinc kernel placed
  for zero phase, and a Gaussian bell tapered by a piecewise-linear window.
  Cutoffs are clamped to `[0, Nyquist]`, and an unknown shape is rejected.
- **Midpoint band cutoffs.** `src/equalizer.py` cuts the bands between
  neighbouring centres.
- **Geometric-mean band edges** of the spectrum display
  (`src/spectrum_analyzer.py`).
- **The parametric boost/cut equalizer**, with its per-block peak normalisation.
- **The two five-band equalizers**, which combine the band responses:
  - `MultiBandEqualizer` weights each band by factor / 50;
  - `RealTimeEqualizer` weights each band by 10 ^ (dB / 20), and adds streaming
    overlap-add buffers.
- **The spectrum analyser's state**: clipped band levels, exponential smoothing
  and decaying peak hold.
- **The FFT engine** of `src/fft.py`:
  - padding and truncation;
  - the power-of-two dispatch;
  - the mutually recursive Cooley-Tukey / pad-to-a-power-of-two path, with its
    termination measure;
  - the butterfly, the direct DFT, the inverse by conjugation and `fftfreq`.

  For power-of-two sizes the recursion is proved equal to the DFT, and `ifft`
  is proved to undo `fft`.

Transcendental functions and numpy routines are parameters, never computed:
`exp`, `sinc`, `10 ** x`, `sqrt`, `log`, `log10`, `pi`, `np.hamming`,
`np.fft.fft` and `np.fft.ifft`. They are fields of the datatype
`NumPyModel.NumPy`. The ghost predicate `NumPyModel.Sound` lists the laws the
proofs use, each of which holds of the real functions. Examples:

- `exp(0) = 1`, and `0 < exp(x) <= 1` for `x <= 0`;
- `sinc` is even;
- `np.hamming(len)` is symmetric: entry i equals entry len - 1 - i;
- `10 ** x` is positive and increasing;
- `ifft` inverts `fft`, preserves length and is linear.

`Spectrum.RootLaws` adds `sqrt(x)^2 = x` and `10 ** log10(x) = x`. The twiddle
factor exp(-2 pi i t) of `src/fft.py` is a parameter `unit`. The four laws in
`FftCorrectness.UnitCircle` describe it: the addition law, one full turn is 1,
half a turn is -1, and the conjugate of `unit(t)` is `unit(-t)`.

Each source file is one Dafny module:

| module | file | models |
|---|---|---|
| `Outcomes` | `outcomes.dfy` | errors and results shared by the other modules |
| `ComplexNumbers` | `complex.dfy` | complex samples and their operations |
| `NumPyModel` | `numpy_model.dfy` | the numpy bundle and its laws |
| `Signal` | `signal.dfy` | peak normalisation |
| `Fft` | `fft.dfy` | `src/fft.py` |
| `FftCorrectness` | `fft_correctness.dfy` | the FFT-equals-DFT proof |
| `FftInverse` | `fft_inverse.dfy` | the proof that `ifft` undoes `fft` |
| `Equalizer` | `equalizer.dfy` | `equalizer.py` band filters |
| `ParametricEq` | `parametric.dfy` | `apply_parametric_eq`, which is written the same way in both equalizer files |
| `CutoffEqualizer` | `cutoff_equalizer.dfy` | `src/equalizer.py` |
| `Combination` | `combine.dfy` | the weighted sum of band responses that both multi-band equalizers use |
| `MultiBand` | `multi_band_equalizer.dfy` | `multi_band_equalizer.py` |
| `RealTime` | `realtime_equalizer.dfy` | `realtime_equalizer.py` |
| `Spectrum` | `spectrum_analyzer.dfy` | `src/spectrum_analyzer.py` |

Where the source changes state in place, the model does too:

- `MultiBandEqualizer` is a class with its own fields, and so are
  `RealTimeEqualizer` and `SpectrumAnalyzer`.
- The sliding buffers of `RealTimeEqualizer` are arrays, shifted and overwritten
  in place.
- Loops that fill or accumulate arrays are methods proved against a function.
  Examples are the cutoff list, the impulse response, the window's masked
  writes, the zero-phase placement, `fftfreq`, the DFT, the next-power-of-two
  loop and the combined filter.

Where the source raises `ValueError`, the model returns an `Outcome` or a
`Result`. Numpy broadcasting errors are returned the same way.

## Model

| member | source | states |
|---|---|---|
| NumPyModel.Gaussian | equalizer.py:33-34 | the bell lies in (0, 1] and is exactly 1 at the centre frequency |
| NumPyModel.FwhmFactor | src/equalizer.py:171 | the width factor 2 sqrt(2 ln 2) that turns a bandwidth into sigma is positive |
| NumPyModel.DbToLinear | realtime_equalizer.py:110 | 10 ^ (dB / 20) is positive; it is 1 iff the gain is 0 dB, above 1 iff the gain is positive, below 1 iff negative |
| NumPyModel.Modulus | src/spectrum_analyzer.py:78 | the magnitude of a complex bin is non-negative |
| NumPyModel.FilterSpectrum | equalizer.py:61-70 | fft, multiplication by the response, ifft and real part keep the block length |
| NumPyModel.FilterWithUnitResponse | multi_band_equalizer.py:128-135 | filtering by a response of all ones returns the signal unchanged |
| Signal.MaxAbs | equalizer.py:128 | the value bounds every absolute sample and is attained by one |
| Signal.PeakNormalize | equalizer.py:128-130 | every output sample lies in [-1, 1]; a block whose peak is at most 1 is returned unchanged; otherwise every sample is divided by the peak and the new peak is exactly 1 |
| Fft.PadOrTruncate | src/fft.py:40-50 | the result has length n; it keeps the input's prefix and appends zeros |
| Fft.PowerOfTwoTestCorrect | src/fft.py:202 | for n >= 1, n & (n - 1) == 0 iff n is a power of two, with the bitwise AND on Python integers written out |
| Fft.NextPowerOfTwo | src/fft.py:243-246 | the result is a power of two, at least n, and its half lies below n |
| Fft.NextPowerOfTwoIsLeast | src/fft.py:243-246 | no power of two that is at least n lies below `next_power_of_2` |
| Fft.NextPowerOfTwoLoop | src/fft.py:244-246 | the doubling loop ends at the least power of two that is at least n |
| Fft.Evens | src/fft.py:207 | `x[::2]`: ceil(n / 2) entries, entry i being x[2i] |
| Fft.Odds | src/fft.py:208 | `x[1::2]`: floor(n / 2) entries, entry i being x[2i + 1] |
| Fft.Butterfly | src/fft.py:212-217 | result[k] = E[k] + w(k, n) O[k] and result[k + n/2] = E[k] - w(k, n) O[k] |
| Fft.Dft | src/fft.py:280-282 | bin k is the sum of x[j] w(k j, n) over all j |
| Fft.DftDirect | src/fft.py:276-284 | the bin-by-bin loop fills every result[i] with the DFT sum |
| Fft.FftRecursive | src/fft.py:194-219 | the length is preserved and one sample is returned as is; its decreases clause proves that the recursion through the non-power-of-two path terminates |
| Fft.Radix2Iterative | src/fft.py:237-258 | the length is preserved, also when the padded transform is cut back to n bins |
| Fft.Transform | src/fft.py:37-69 | `fft(x, n)` returns exactly as many bins as the transform size, `n` when given and the input length otherwise |
| Fft.InverseTransform | src/fft.py:107-147 | `ifft(x, n)` returns exactly as many values as the transform size |
| Fft.FftFreq | src/fft.py:305-312 | length n; entry k is k / (n d) for k < (n - 1) // 2 + 1 and (k - n) / (n d) after |
| Fft.BinIndexRange | src/fft.py:307-311 | the bin numbers run from -(n // 2) to (n - 1) // 2, non-negative exactly on the first (n - 1) // 2 + 1 bins |
| Fft.BinFrequencyAtZero | src/fft.py:307-309 | bin 0 is 0 Hz |
| Fft.BinFrequencyMirror | src/fft.py:305-312 | bins k and n - k have frequencies of the same magnitude |
| Fft.BinFrequencyBound | src/fft.py:305-312 | no bin lies above the Nyquist frequency 1 / (2 d) |
| Fft.FrequencyMagnitudes | equalizer.py:23-24 | `abs(fftfreq(n, 1 / sample_rate))`: n non-negative entries, 0 at bin 0, entry k equal to entry n - k, none above sample_rate / 2 |
| FftCorrectness.SingleSampleDft | src/fft.py:196-198 | the DFT of one sample is that sample, so returning a copy is correct |
| FftCorrectness.LowerBin | src/fft.py:216 | for even n, DFT bin k is E[k] + w(k, n) O[k] over the even- and odd-indexed halves |
| FftCorrectness.UpperBin | src/fft.py:217 | for even n, DFT bin k + n/2 is E[k] - w(k, n) O[k] |
| FftCorrectness.ButterflyOfHalves | src/fft.py:206-217 | the butterfly of the DFTs of the two halves is the DFT of the whole |
| FftCorrectness.FftMatchesDft | src/fft.py:1-3 | for every power-of-two size the Cooley-Tukey recursion equals the direct DFT |
| FftCorrectness.RecursionIsDft | src/fft.py:196-241 | `_fft_1d_recursive` equals the DFT at every power-of-two size and at every size up to 8 |
| FftCorrectness.TransformIsDft | src/fft.py:37-69 | at those sizes `fft(x, n)` is the DFT of the input padded or truncated to the transform size |
| FftCorrectness.InverseTransformIsDft | src/fft.py:110-147 | at those sizes `ifft(x, n)` is conj(DFT(conj(x) padded or truncated)) divided by the size |
| FftInverse.Orthogonality | src/fft.py:110-111 | at a power-of-two size n, the sum over k < n of w(d k, n) is n when n divides d and 0 otherwise, which is why conjugating twice inverts the DFT |
| FftInverse.InverseOfBin | src/fft.py:110-147 | at a power-of-two size, sample j of conj(DFT(conj(DFT(y)))) / n is y[j] |
| FftInverse.DftRoundTrip | src/fft.py:110-147 | at a power-of-two size, conj(DFT(conj(DFT(y)))) / n is y itself |
| FftInverse.RoundTrip | src/fft.py:10-147 | for every input x and power-of-two transform size, `ifft(fft(x, n), n)` has that size and is x zero-padded or truncated to it |
| Equalizer.BandLimits | equalizer.py:27-28 | low = max(0, c - bw/2) and high = min(sr/2, c + bw/2): within [0, sr/2], each either the clamp or the unclamped edge |
| Equalizer.Sigma | equalizer.py:33 | sigma is non-zero iff the bandwidth is |
| Equalizer.FrequencyFilter | equalizer.py:8-41 | n entries in [0, 1], and entry k equals entry n - k (the response depends only on abs(f)) |
| Equalizer.BandMask | equalizer.py:37-39 | entry k is 1 when low <= abs(f_k) <= high and 0 otherwise |
| Equalizer.CreateBandMask | equalizer.py:37-39 | the zero array with the masked bins set to 1 is the band mask |
| Equalizer.GaussianFilterPeak | equalizer.py:30-34 | the Gaussian branch is strictly positive, at most 1, and 1 at every bin whose frequency is the centre |
| Equalizer.RectangularFilterIsMask | equalizer.py:35-39 | every shape other than "gaussian" gives 1 exactly on the bins with low <= abs(f) <= high and 0 on all others, with no error |
| Equalizer.CreateFrequencyFilter | equalizer.py:8-41 | the step-by-step construction is the filter function |
| Equalizer.BandFilters | multi_band_equalizer.py:81-84 | one filter per centre frequency, each with n entries in [0, 1] and circularly symmetric |
| Equalizer.ApplyBandpassFilter | equalizer.py:58-72 | the filtered block is as long as the input |
| ParametricEq.BoostBounds | equalizer.py:114-116 | for a boost with a bell value in [0, 1], 1 + F (A - 1) lies in [1, A] |
| ParametricEq.CutBounds | equalizer.py:117-119 | for a cut with a bell value in [0, 1], 1 - F (1 - A) lies in [A, 1] |
| ParametricEq.ResponseAtBellEnds | equalizer.py:114-119 | where the bell is 0 the response is 1, where it is 1 the response is A, for a boost and for a cut |
| ParametricEq.ParametricResponse | src/equalizer.py:252-276 | n bins; every bin lies in [1, A] for a boost and in [A, 1] for a cut |
| ParametricEq.Shaped | src/equalizer.py:279-282 | the block filtered by the parametric response keeps its length |
| ParametricEq.ApplyParametricEq | src/equalizer.py:246-289 | 0 dB returns the input itself; otherwise every sample lies in [-1, 1], the block is untouched if its peak is at most 1, and otherwise its new peak is exactly 1 |
| CutoffEqualizer.MidpointCutoffs | src/equalizer.py:21-44 | one pair per centre; band 0 starts at 0; the last ends at sr/2; high[i] = low[i+1] = (c[i] + c[i+1]) / 2 |
| CutoffEqualizer.CalculateCutoffFrequencies | src/equalizer.py:21-44 | the appending loop builds exactly the midpoint cutoffs |
| CutoffEqualizer.CutoffsBracketCenters | src/equalizer.py:31-40 | for strictly increasing centres in (0, sr/2), every band has low < centre < high |
| CutoffEqualizer.TapAtCentre | src/equalizer.py:80 | the centre tap (w2 - w1) / pi equals 2 (high - low) / sample_rate |
| CutoffEqualizer.SincTermSymmetric | src/equalizer.py:91-92 | each low-pass term is the same at taps -k and k |
| CutoffEqualizer.TapSymmetric | src/equalizer.py:86-92 | the band-pass tap is the same at -k and k |
| CutoffEqualizer.OddLength | src/equalizer.py:65-66 | the length is odd, equal to an odd request, one more than an even one |
| CutoffEqualizer.Kernel | src/equalizer.py:73-92 | the taps -M..M laid out in a sequence of the given length |
| CutoffEqualizer.KernelCentre | src/equalizer.py:80 | the middle entry of an odd kernel is 2 (high - low) / sample_rate |
| CutoffEqualizer.KernelSymmetric | src/equalizer.py:86-92 | an odd kernel reads the same backwards |
| CutoffEqualizer.BandpassImpulse | src/equalizer.py:65-94 | length `filter_length` made odd, centre tap 2 (high - low) / sample_rate, h[M + k] = h[M - k] |
| CutoffEqualizer.CreateBandpassImpulseResponse | src/equalizer.py:65-94 | writing h[M] and then the masked taps gives that kernel |
| CutoffEqualizer.Windowed | src/equalizer.py:147-148 | the Hamming-windowed kernel keeps its length |
| CutoffEqualizer.WindowedPalindrome | src/equalizer.py:147-148 | windowing a symmetric kernel with the symmetric Hamming window leaves it symmetric |
| CutoffEqualizer.Trunc | src/equalizer.py:135 | Python's `int()` rounds toward zero on either sign |
| CutoffEqualizer.SincKernelLength | src/equalizer.py:135-141 | the kernel length is odd and at least 3; it is exactly 3 up to 5 samples and never longer than the block from 3 samples on |
| CutoffEqualizer.ZeroPhasePlacement | src/equalizer.py:152-157 | the placement fails with a shape error iff M + 1 > n; otherwise it has n entries, entry 0 is the centre tap, the last M entries are h[..M], and every earlier entry j <= M is h[M + j] |
| CutoffEqualizer.ZeroPhaseLayout | src/equalizer.py:152-157 | when 2M + 1 <= n: padded[j] = h[M + j] for j <= M, padded[n - M + j] = h[j] for j < M, zero elsewhere |
| CutoffEqualizer.ZeroPhaseCircularSymmetry | src/equalizer.py:152-162 | a symmetric kernel placed this way satisfies padded[j] = padded[n - j] |
| CutoffEqualizer.SincPlacementSymmetric | src/equalizer.py:133-157 | for every n >= 2, the windowed sinc kernel fits into the n samples, the centre tap lands at index 0, and the placed kernel satisfies padded[j] = padded[n - j], so its spectrum is real (zero phase) |
| CutoffEqualizer.PlaceZeroPhase | src/equalizer.py:152-157 | the two slice assignments compute the placement, the second winning where they overlap |
| CutoffEqualizer.EffectiveCutoffs | src/equalizer.py:119-129 | both branches clamp to [0, sr/2]; explicit cutoffs give width high - low, otherwise the width is the bandwidth and the band is centre +- bandwidth / 2 clamped |
| CutoffEqualizer.TaperWindow | src/equalizer.py:176-187 | the window value after the four masked writes lies in [0, 1] |
| CutoffEqualizer.TaperWindowShape | src/equalizer.py:176-187 | the window is 1 between low + tw and high - tw, and 0 outside [low, high] when the tapers fit the band or are absent |
| CutoffEqualizer.WindowOf | src/equalizer.py:176-187 | one window value per bin, each in [0, 1] |
| CutoffEqualizer.GaussianWindow | src/equalizer.py:176-187 | the four masked writes over the array give that window |
| CutoffEqualizer.Bell | src/equalizer.py:172 | every bin in (0, 1], and 1 where the frequency is the centre |
| CutoffEqualizer.Product | src/equalizer.py:189 | `filter_response *= window` bin by bin |
| CutoffEqualizer.GaussianResponse | src/equalizer.py:171-189 | the windowed bell keeps its length |
| CutoffEqualizer.GaussianResponseInUnit | src/equalizer.py:171-189 | every bin of the Gaussian branch lies in [0, 1] |
| CutoffEqualizer.GaussianResponseByWindow | src/equalizer.py:189 | where the window is 0 the response is 0, and where it is 1 the response is the bell |
| CutoffEqualizer.GaussianZeroOutsideBand | src/equalizer.py:174-189 | whenever the taper width 0.1 x the effective width fits in the band (or is not positive), the response is exactly 0 at every bin outside [low, high] |
| CutoffEqualizer.ExplicitCutoffsTaperFits | src/equalizer.py:119-124 | with explicit cutoffs the taper always fits in the band, so the response is zero outside it |
| CutoffEqualizer.NarrowedBandTaperFits | src/equalizer.py:125-129 | a band the clamp narrowed can still hold its tapers: 180 Hz, centre 100 Hz and bandwidth 50 Hz give the band [75, 90] with a 5 Hz taper |
| CutoffEqualizer.GaussianLeaksBelowNarrowedBand | src/equalizer.py:174-189 | with 8 samples at 8 Hz, centre 14 Hz and bandwidth 20 Hz, the band clamps to [4, 4], yet the bin at 3 Hz gets window 0.5 and a positive response |
| CutoffEqualizer.BandLimitedWindow | src/equalizer.py:174-175 | the window as the comment describes it: in [0, 1], and 0 at every frequency outside [low, high] |
| CutoffEqualizer.BandLimitedWindowAgrees | src/equalizer.py:176-187 | when there is no taper, or the taper width fits in the band, the band-limited window equals the source's window |
| CutoffEqualizer.BandLimitedWindowOf | src/equalizer.py:176-187 | the band-limited window at every bin: one value per bin, each in [0, 1], and 0 at every bin outside [low, high] |
| CutoffEqualizer.BandLimitedGaussianResponse | src/equalizer.py:166-189 | the Gaussian branch with the band-limited window: one value per bin, each in [0, 1], and 0 at every bin outside [low, high] whatever the clamp did |
| CutoffEqualizer.BandLimitedResponseAgrees | src/equalizer.py:166-189 | when the taper width fits in the band, the band-limited response is the source's Gaussian response |
| CutoffEqualizer.GaussianPeak | src/equalizer.py:171-189 | a bin on the centre frequency, clear of both tapers, has response 1 |
| CutoffEqualizer.SincResponse | src/equalizer.py:131-164 | the sinc branch fails, with a shape error, exactly when n = 1; otherwise it gives n non-negative magnitudes |
| CutoffEqualizer.CreateSincResponse | src/equalizer.py:131-164 | the step-by-step sinc branch is that function |
| CutoffEqualizer.CreateGaussianResponse | src/equalizer.py:166-190 | the step-by-step Gaussian branch is that function |
| CutoffEqualizer.FrequencyFilter | src/equalizer.py:115-192 | any shape other than "sinc" and "gaussian" is an error; the Gaussian branch always succeeds with n values in [0, 1]; the sinc branch succeeds iff n >= 2, with n non-negative values |
| CutoffEqualizer.GaussianBranch | src/equalizer.py:166-190 | the "gaussian" dispatch is the Gaussian response over the clamped cutoffs |
| CutoffEqualizer.CreateFrequencyFilter | src/equalizer.py:115-192 | the step-by-step dispatch is the filter function |
| CutoffEqualizer.ApplyBandpassFilter | src/equalizer.py:213-229 | succeeds exactly when the filter does, passing its error through, and keeps the length |
| Combination.WeightedSum | multi_band_equalizer.py:78-87 | the sum of weight_i h_i over the first m bands has n bins |
| Combination.Combined | multi_band_equalizer.py:78-89 | the sum over all bands has n bins |
| Combination.AccumulateFilters | multi_band_equalizer.py:78-89 | the zero array plus weight_i h_i, band after band, is the weighted sum |
| Combination.BandContribution | multi_band_equalizer.py:81-87 | band j adds exactly weight_j h_j[k] to bin k |
| Combination.BandWithUnitOrZeroWeight | multi_band_equalizer.py:81-87 | a band of weight 0 contributes nothing; a band of weight 1 contributes its response unscaled |
| Combination.FilterOfSum | multi_band_equalizer.py:128-135 | filtering by a sum of responses is the sum of the filtered signals |
| Combination.FilterOfScaled | multi_band_equalizer.py:128-135 | filtering by r h is r times filtering by h |
| Combination.CombinedFilterIsSumOfBands | multi_band_equalizer.py:11-12 | sum_i A_i (x * h_i) = x * (sum_i A_i h_i), with * filtering by a response |
| MultiBand.NormalizedFactor | multi_band_equalizer.py:73-75 | w = f / 50: w is 1 iff f is 50, below 1 iff f < 50, above 1 iff f > 50, and in [0, 2] iff f is in [0, 100] |
| MultiBand.FactorScaleAnchors | multi_band_equalizer.py:74 | 0 maps to 0.0, 50 to 1.0 and 100 to 2.0 |
| MultiBand.NormalizedFactors | multi_band_equalizer.py:75 | one weight per factor, weight times 50 being the factor, all in [0, 2] when the factors are in range |
| MultiBand.SetGainsFrom | multi_band_equalizer.py:59-60 | applying the gains in index order keeps the number of factors |
| MultiBand.SetGainsStopsAtFirstInvalid | multi_band_equalizer.py:56-60 | when gain j is the first one out of range, the factors become old[..i] + gains[i..j] + old[j..] and the call fails; with none out of range it passes |
| MultiBand.SetAllGainsValid | multi_band_equalizer.py:59-60 | gains all in range replace every factor and the call passes |
| MultiBand.SetGainsKeepsRange | multi_band_equalizer.py:44-47 | applying gains, even when it stops part-way, keeps every factor in [0, 100] |
| MultiBand.CombinedFilter | multi_band_equalizer.py:62-89 | the combined response has n bins |
| MultiBand.CombinedFilterShape | multi_band_equalizer.py:78-89 | the combined response is circularly symmetric, and with factors in range every bin lies in [0, 2 x number of bands] |
| MultiBand.FactorZeroOrFifty | multi_band_equalizer.py:73-87 | a band at factor 0 contributes nothing and a band at factor 50 contributes its response unscaled |
| MultiBand.EqualizeChannel | multi_band_equalizer.py:128-153 | the output is the peak-normalised sum of the bands' filtered signals weighted by factor / 50, every sample in [-1, 1] |
| MultiBand.MultiBandEqualizer.constructor | multi_band_equalizer.py:15-31 | centres [100, 330, 1000, 3300, 10000], factors [100, 50, 25, 50, 50], and the given bandwidth and shape |
| MultiBand.MultiBandEqualizer.SetBandGain | multi_band_equalizer.py:41-47 | an index out of range fails first, then a factor outside [0, 100]; each failure writes nothing; an accepted call writes only that band's factor |
| MultiBand.MultiBandEqualizer.SetAllGains | multi_band_equalizer.py:56-60 | a list of the wrong length fails with nothing written; otherwise the new factors and outcome are those of applying the gains in order, stopping at the first one out of range |
| MultiBand.MultiBandEqualizer.CreateCombinedFilter | multi_band_equalizer.py:73-89 | the accumulation loop computes the combined filter of the current factors |
| MultiBand.MultiBandEqualizer.GetBandInfo | multi_band_equalizer.py:174-175 | entry i pairs centre i with factor i |
| RealTime.LinearGains | realtime_equalizer.py:142-143 | weight i is 10 ^ (g_i / 20), positive, and 1 exactly when g_i is 0 dB |
| RealTime.CombinedResponse | realtime_equalizer.py:139-146 | the dB-weighted combined response has one value per FFT bin |
| RealTime.ZeroDbBandIsUnscaled | realtime_equalizer.py:143-146 | a band at 0 dB contributes its response with weight exactly 1 |
| RealTime.Shifted | realtime_equalizer.py:134 | after `buf[:-hop] = buf[hop:]` the first n - hop entries are the old ones from hop on, and the last hop entries are unchanged |
| RealTime.Tail | realtime_equalizer.py:135 | a chunk of length hop is copied as is; a single sample is broadcast over hop entries |
| RealTime.Filled | realtime_equalizer.py:134-135 | the write of the chunk succeeds iff it has hop samples or one; for hop samples the buffer becomes old[hop..] + chunk |
| RealTime.ShiftLeft | realtime_equalizer.py:134 | the array after the in-place move is the shifted buffer |
| RealTime.CopyInto | realtime_equalizer.py:135 | the array keeps its prefix and ends with the written tail |
| RealTime.SaveOverlap | realtime_equalizer.py:162-163 | the output array becomes filtered[hop..] followed by hop zeros |
| RealTime.OverlapAdd | realtime_equalizer.py:159 | output[j] = filtered[j] + previous[j] for j < hop |
| RealTime.NextOverlap | realtime_equalizer.py:162-163 | entry j is filtered[hop + j] for j < hop, then zeros |
| RealTime.FilteredBlock | realtime_equalizer.py:148-156 | the input buffer filtered by the combined response keeps its length |
| RealTime.ChunkStep | realtime_equalizer.py:129-170 | an empty chunk is returned with both buffers unchanged; a chunk of hop samples (or one sample) gives a block of hop samples in [-1, 1] and input old[hop..] + chunk; any other length fails with a shape error after the shift, leaving the output buffer unchanged |
| RealTime.AcceptedChunk | realtime_equalizer.py:134-170 | for a chunk of hop samples the block is the normalised overlap-add of the filtered buffer and the saved tail, and the new tail is its second half padded with zeros |
| RealTime.ConsecutiveChunks | realtime_equalizer.py:158-163 | after two chunks, the second block (before normalisation) is its own first half plus the first block's second half |
| RealTime.FilteredIsSumOfBands | realtime_equalizer.py:116-118 | filtering by the combined response equals weighting and summing each band's filtered signal |
| RealTime.RealTimeEqualizer.constructor | realtime_equalizer.py:30-55 | the five default centres, gains at 0 dB, one Gaussian 50 Hz filter per centre of size 2 x chunk, and two zeroed buffers of that size |
| RealTime.RealTimeEqualizer.SetBandGainDb | realtime_equalizer.py:93-96 | an index in range writes only that gain; any other fails with nothing written; filters and buffers are never touched |
| RealTime.RealTimeEqualizer.CombineFilters | realtime_equalizer.py:139-146 | the accumulation loop computes the dB-weighted combined response |
| RealTime.RealTimeEqualizer.ShiftIn | realtime_equalizer.py:134-135 | the buffer is shifted in place and then filled, or left shifted when the chunk has the wrong length |
| RealTime.RealTimeEqualizer.ProcessChunk | realtime_equalizer.py:129-170 | the returned block and both new buffers are those of the chunk step from the old buffers, gains and filters |
| RealTime.RealTimeEqualizer.GetBandInfo | realtime_equalizer.py:245-246 | entry i pairs centre i with gain i in dB |
| Spectrum.LogSpace | src/spectrum_analyzer.py:29 | num centres, the first 10 ^ start and the last 10 ^ stop |
| Spectrum.LastExponent | src/spectrum_analyzer.py:29 | the last evenly spaced exponent is the stop exponent |
| Spectrum.LogSpaceIncreasing | src/spectrum_analyzer.py:29 | the centres are positive and strictly increasing |
| Spectrum.BandEdges | src/spectrum_analyzer.py:32-44 | one edge pair per band; the first low edge is 0 and the last high edge is Nyquist |
| Spectrum.EdgesMeet | src/spectrum_analyzer.py:37-42 | high[i] = low[i + 1] = sqrt(c[i] c[i + 1]) |
| Spectrum.GeometricMeanBetween | src/spectrum_analyzer.py:37 | the geometric mean of two centres lies strictly between them |
| Spectrum.CenterEnds | src/spectrum_analyzer.py:29 | the centres run from 20 Hz to Nyquist |
| Spectrum.EdgesBracketCenters | src/spectrum_analyzer.py:27-44 | above 40 Hz sampling, every band's low edge lies below its centre and the centre is at most the high edge, strictly below it except in the last band |
| Spectrum.BuildEdges | src/spectrum_analyzer.py:32-44 | the appending loop builds exactly the band edges |
| Spectrum.AnyIffCount | src/spectrum_analyzer.py:91-93 | the mask is non-empty iff some bin lies in [low, high) |
| Spectrum.MaskSumBounds | src/spectrum_analyzer.py:95 | the masked sum lies between count x lower bound and count x upper bound |
| Spectrum.Clip | src/spectrum_analyzer.py:99 | the value is clipped into [0, 1]: unchanged inside, 0 below, 1 above |
| Spectrum.BandLevel | src/spectrum_analyzer.py:89-102 | each level lies in [0, 1], and a band with no bins reads 0 |
| Spectrum.LevelFollowsMean | src/spectrum_analyzer.py:95-99 | with every bin of the band between lo and hi dB in [-80, 0], the level lies between (lo + 80) / 80 and (hi + 80) / 80 |
| Spectrum.Windowed | src/spectrum_analyzer.py:72 | sample k is multiplied by the Hamming window's entry k |
| Spectrum.LevelsDb | src/spectrum_analyzer.py:75-81 | one dB value per non-negative-frequency bin, n // 2 in all |
| Spectrum.BinFreqs | src/spectrum_analyzer.py:84 | the first n // 2 bins of `fftfreq` are k sample_rate / n |
| Spectrum.NewLevels | src/spectrum_analyzer.py:87-102 | one level per band, each in [0, 1] |
| Spectrum.SingleSampleReadsZero | src/spectrum_analyzer.py:78-84 | a one-sample block has no bins, so every band reads 0 |
| Spectrum.Smoothed | src/spectrum_analyzer.py:105-106 | each level moves 30% of the way to the new one, stays between the old and the new value, and stays in [0, 1] |
| Spectrum.PeakHold | src/spectrum_analyzer.py:109 | each peak is at least the new level and at least 0.95 x the old peak, equals one of the two, and stays in [0, 1] |
| Spectrum.ComputeLevels | src/spectrum_analyzer.py:87-102 | the loop filling `new_levels[i]` computes the level of every band |
| Spectrum.SpectrumAnalyzer.constructor | src/spectrum_analyzer.py:22-52 | log-spaced centres from 20 Hz to Nyquist, their geometric-mean edges, and levels and peaks at zero |
| Spectrum.SpectrumAnalyzer.Analyze | src/spectrum_analyzer.py:54-111 | no chunk or an empty one leaves levels and peaks unchanged; otherwise levels become the smoothed and peaks the held new levels; the returned pair is the new state, all in [0, 1] |
| Spectrum.SpectrumAnalyzer.GetBandFrequencies | src/spectrum_analyzer.py:120 | the band centres, one per band |

## Left out

- **Floating point.** Every number is an exact `real`. There is no rounding, no
  claim about numeric accuracy, and no `float32` cast of the real-time output
  or of the analyser's levels. In particular `1 - 0.7` is exactly `0.3` here.
- **Transcendentals and numpy routines.** `exp`, `sinc`, `10 ** x`, `sqrt`,
  `log`, `log10`, `pi`, `np.hamming`, `np.fft.fft` and `np.fft.ifft` are
  parameters constrained only by the laws listed above. The internals of
  `np.hamming` and `np.logspace` are not modelled.
- **The FFT engine's scope.** Only the one-dimensional, last-axis form of
  `src/fft.py` is modelled. Left out are:
  - multi-axis handling (`moveaxis`, and the loop over slices when `ndim > 1`);
  - `norm='ortho'`, because it only divides by `sqrt(n)`.

  The equalizers call numpy's FFT, not `src/fft.py`, so they use the abstract
  `fft`/`ifft`. They share only the `fftfreq` layout (`Fft.BinFrequency`).
- **FFT for other sizes.** Above 8 points, a size that is not a power of two is
  not the DFT of its input: `src/fft.py:249-255` truncates a longer transform.
  Nothing is claimed about it beyond its length.
- Fft.Transform: requires a transform size of at least 1. At size 0,
  `0 & -1 == 0` counts as a power of two, so `src/fft.py:207` splits the empty
  array again and again. The unbounded recursion ends in CPython's
  `RecursionError`, which the model does not represent. The requested size
  `n` is a size, so a negative `n` is not modelled. The source would accept
  one: `x[..., :n]` at `src/fft.py:50` drops the last |n| samples, and `ifft`
  divides by that negative `n` at `src/fft.py:147`.
- Fft.InverseTransform: requires a transform size of at least 1, for the same
  reason. The round trip `ifft(fft(x, n), n)` (FftInverse.RoundTrip) is proved
  at power-of-two sizes only. At 3, 5, 6 and 7 points the source is still the
  DFT, but the inversion needs laws of `unit` beyond the four stated. Above 8
  points, at other sizes, `src/fft.py:249-255` truncates, so no round trip
  holds.
- Fft.FftFreq: requires n >= 1 and d != 0. Otherwise `1.0 / (n * d)` at
  `src/fft.py:305` raises `ZeroDivisionError`.
- Fft.FrequencyMagnitudes: requires n >= 1 and a non-zero sample rate. A zero
  sample rate makes `1.0 / sample_rate` raise `ZeroDivisionError` (as at
  `equalizer.py:23`). So does n = 0, through `fftfreq`.
- **Combined filters are real.** The source keeps `combined_filter` as a
  `complex128` array. Every band response added into it is real, so the model
  keeps it real.
- **I/O, devices, GUI and scripts.** These are I/O and user-interface code:
  - `process_audio` (file loading, the channel loop, writing and output naming)
    in all three equalizer files;
  - the argparse `main`s;
  - the PyAudio stream and callback of `RealTimeEqualizer`;
  - the tkinter GUI and the example scripts.

  Gain setting and chunk processing are modelled as sequential calls, with no
  concurrency.
- MultiBand.EqualizeChannel: models one mono channel. For multi-channel input,
  `process_audio` normalises by the peak of all channels together.
- **Print statements** in `_precompute_filters` and `process_audio` are left
  out.
- Equalizer.FrequencyFilter: requires a non-zero bandwidth for the Gaussian
  shape. With zero, numpy divides by zero, giving `nan` or `inf` and a warning
  rather than an error. It also requires n >= 1 and a non-zero sample rate.
  Otherwise `np.fft.fftfreq(n_samples, 1.0 / sample_rate)` at `equalizer.py:23`
  raises `ZeroDivisionError`. The same requirements, for the same reason, hold
  for Equalizer.CreateFrequencyFilter and Equalizer.BandFilters.
- Equalizer.ApplyBandpassFilter: requires a non-empty block and a non-zero
  sample rate. An empty block makes `np.fft.fft(audio)` at `equalizer.py:61`
  raise `ValueError`. A zero sample rate raises `ZeroDivisionError` at
  `equalizer.py:23`.
- CutoffEqualizer.FrequencyFilter: its requires (`FilterArguments`) has three
  parts:
  - a non-zero effective width for the Gaussian shape, for the same reason;
  - n >= 1;
  - a non-zero sample rate, since `src/equalizer.py:115` otherwise raises
    `ZeroDivisionError`.

  CutoffEqualizer.CreateFrequencyFilter shares this requires.
- CutoffEqualizer.ApplyBandpassFilter: requires the same, with a non-empty
  block. An empty block makes `np.fft.fft(audio)` at `src/equalizer.py:216`
  raise `ValueError`. A zero sample rate raises `ZeroDivisionError` at
  `src/equalizer.py:115`.
- CutoffEqualizer.GaussianZeroOutsideBand: proved whenever the taper width
  fits in the band. That is always so with explicit cutoffs. The source leaks
  only when the clamp to [0, Nyquist] leaves the band narrower than the taper
  width; then its window is not zero outside [low, high] (see Findings). The model's `FrequencyFilter` keeps the window as
  written. CutoffEqualizer.BandLimitedGaussianResponse is the corrected
  response, and it is proved zero outside the band in every case.
- ParametricEq.ApplyParametricEq: for a non-zero gain, requires a non-zero
  centre, a non-zero Q, a non-zero sample rate and a non-empty block.
  - A zero centre gives a zero-width bell, and numpy divides by zero.
  - A zero Q raises `ZeroDivisionError`.
  - A zero sample rate raises `ZeroDivisionError` at `src/equalizer.py:261`.
  - An empty block makes `np.fft.fft(audio)` at `src/equalizer.py:258` raise
    `ValueError`.
- RealTime.RealTimeEqualizer.constructor: requires a chunk size of at least 1
  and a non-zero sample rate. With a chunk size of 0, `fftfreq(0)` divides by
  zero; the sample rate's reciprocal is taken too.
- Spectrum.SpectrumAnalyzer.constructor: requires a positive sample rate. The
  analyser takes `1 / sample_rate`, and a non-positive rate makes
  `np.log10(nyquist)` undefined.
- Spectrum.EdgesBracketCenters: proved for sample rates above 40 Hz only. Only
  there does the 20 Hz to Nyquist range increase.
- Spectrum.SpectrumAnalyzer.Analyze: the chunk is a sequence of reals or
  `None`. A chunk that numpy would reject for other reasons is not modelled.
- **Defaults versus comments.** The multi-band default factors
  `[100, 50, 25, 50, 50]` are modelled as written, although the comment next to
  them calls them "no change".
- **The positional-argument call** from `process_audio` in `src/equalizer.py`
  is part of the I/O path and is not modelled.

## Findings

| source | as written | input that shows it | evidently intended | confidence | as-written member | corrected member |
|---|---|---|---|---|---|---|
| src/equalizer.py:174-189 | The taper masks are not restricted to [low, high]: the falling edge covers `freqs > high - tw`, so when the band is narrower than `tw = 0.1 * effective_bandwidth` it overwrites zeros below `low` | `create_frequency_filter(8, 8, 14, 20)`, Gaussian, no cutoffs: the band clamps to [4, 4], `tw = 2`, and the 3 Hz bin gets window 0.5 | the response is zero outside [low, high], as the comment at lines 174-175 says | not executed | CutoffEqualizer.GaussianLeaksBelowNarrowedBand | CutoffEqualizer.BandLimitedGaussianResponse |

The corrected response equals the source's whenever the taper width fits in the
band (CutoffEqualizer.BandLimitedResponseAgrees). That covers explicit cutoffs,
and every band the clamp left at least as wide as the taper. The rest of the model keeps the
window as written, so that `CutoffEqualizer.FrequencyFilter` stays faithful to
the code.
