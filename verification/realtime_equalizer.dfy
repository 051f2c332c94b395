/** The block processor of realtime_equalizer.py: five Gaussian band filters
    precomputed at twice the chunk size, one gain in decibels per band, and a
    sliding input buffer whose spectrum is shaped by
    sum_i 10 ** (gain_i / 20) * h_i and recombined by overlap-add. */
module RealTime {
  import opened Outcomes
  import opened NumPyModel
  import opened Signal
  import opened Combination
  import Equalizer
  import MultiBand

  /** `self.bandwidth` and `self.filter_shape`, fixed in `__init__`. */
  const Bandwidth: real := 50.0
  const Shape: string := "gaussian"

  /** `_db_to_linear` for every band. */
  function LinearGains(np: NumPy, gainsDb: seq<real>): (ws: seq<real>)
    requires Sound(np)
    ensures |ws| == |gainsDb|
    ensures forall i :: 0 <= i < |ws| ==> ws[i] == DbToLinear(np, gainsDb[i])
    ensures forall i :: 0 <= i < |ws| ==> ws[i] > 0.0 && (ws[i] == 1.0 <==> gainsDb[i] == 0.0)
  {
    seq(|gainsDb|, i requires 0 <= i < |gainsDb| => DbToLinear(np, gainsDb[i]))
  }

  /** The combined response sum_i 10 ** (gain_i / 20) * h_i. */
  function CombinedResponse(np: NumPy, gainsDb: seq<real>, filters: seq<seq<real>>, n: nat): (h: seq<real>)
    requires Sound(np) && Bands(gainsDb, filters, n)
    ensures |h| == n
  {
    Combined(LinearGains(np, gainsDb), filters, n)
  }

  /** A band at 0 dB adds its own response with weight exactly 1. */
  lemma {:induction false} ZeroDbBandIsUnscaled(np: NumPy, gainsDb: seq<real>, filters: seq<seq<real>>, n: nat, j: nat, k: nat)
    requires Sound(np) && Bands(gainsDb, filters, n) && j < |gainsDb| && k < n
    requires gainsDb[j] == 0.0
    ensures CombinedResponse(np, gainsDb, filters, n)[k] ==
      filters[j][k] + Combined(LinearGains(np, gainsDb)[j := 0.0], filters, n)[k]
  {
    BandWithUnitOrZeroWeight(LinearGains(np, gainsDb), filters, n, j, k);
  }

  /** The two buffers `process_chunk` updates. */
  datatype Buffers = Buffers(input: seq<real>, output: seq<real>)

  /** `input_buffer[:-hop] = input_buffer[hop:]`: the last hop samples stay as
      they were until the chunk overwrites them. */
  function Shifted(buffer: seq<real>, hop: nat): (r: seq<real>)
    requires hop <= |buffer|
    ensures |r| == |buffer|
    ensures forall j :: 0 <= j < |buffer| - hop ==> r[j] == buffer[j + hop]
    ensures r[|buffer| - hop..] == buffer[|buffer| - hop..]
  {
    buffer[hop..] + buffer[|buffer| - hop..]
  }

  /** `input_buffer[-hop:] = audio_chunk`: a chunk of hop samples is copied, a
      single sample is broadcast, and any other length is a shape error. */
  function Filled(buffer: seq<real>, chunk: seq<real>, hop: nat): (r: Option<seq<real>>)
    requires 1 <= hop <= |buffer|
    ensures r.Some? <==> |chunk| == hop || |chunk| == 1
    ensures r.Some? ==> |r.value| == |buffer| && r.value[..|buffer| - hop] == buffer[..|buffer| - hop]
    ensures |chunk| == hop ==> r == Some(buffer[..|buffer| - hop] + chunk)
    ensures r.Some? ==> r.value == buffer[..|buffer| - hop] + Tail(chunk, hop)
  {
    var keep := buffer[..|buffer| - hop];
    if |chunk| == hop then Some(keep + chunk)
    else if |chunk| == 1 then Some(keep + seq(hop, _ => chunk[0]))
    else None
  }

  /** What the last hop of the buffer receives from an accepted chunk. */
  function Tail(chunk: seq<real>, hop: nat): (t: seq<real>)
    requires |chunk| == hop || |chunk| == 1
    ensures |t| == hop
    ensures forall j :: 0 <= j < hop ==> t[j] == if |chunk| == hop then chunk[j] else chunk[0]
  {
    if |chunk| == hop then chunk else seq(hop, _ => chunk[0])
  }

  /** `a[:-hop] = a[hop:]`, front to back. */
  method ShiftLeft(a: array<real>, hop: nat)
    requires hop <= a.Length
    modifies a
    ensures a[..] == Shifted(old(a[..]), hop)
  {
    ghost var before := a[..];
    for j := 0 to a.Length - hop
      invariant forall k :: 0 <= k < j ==> a[k] == before[k + hop]
      invariant forall k :: j <= k < a.Length ==> a[k] == before[k]
    {
      a[j] := a[j + hop];
    }
    assert a[..] == Shifted(before, hop);
  }

  /** `a[start:] = tail`. */
  method CopyInto(a: array<real>, start: nat, tail: seq<real>)
    requires start + |tail| == a.Length
    modifies a
    ensures a[..] == old(a[..start]) + tail
  {
    ghost var before := a[..];
    for j := start to a.Length
      invariant forall k :: 0 <= k < start ==> a[k] == before[k]
      invariant forall k :: start <= k < j ==> a[k] == tail[k - start]
    {
      a[j] := tail[j - start];
    }
    assert a[..] == before[..start] + tail;
  }

  /** `a[:-hop] = filtered[hop:]; a[-hop:] = 0` for a buffer of two hops. */
  method SaveOverlap(a: array<real>, filtered: seq<real>, hop: nat)
    requires |filtered| == 2 * hop && a.Length == 2 * hop
    modifies a
    ensures a[..] == NextOverlap(filtered, hop)
  {
    for j := 0 to hop
      invariant forall k :: 0 <= k < j ==> a[k] == filtered[k + hop]
    {
      a[j] := filtered[j + hop];
    }
    for j := hop to 2 * hop
      invariant forall k :: 0 <= k < hop ==> a[k] == filtered[k + hop]
      invariant forall k :: hop <= k < j ==> a[k] == 0.0
    {
      a[j] := 0.0;
    }
    assert a[..] == NextOverlap(filtered, hop);
  }

  /** `output = filtered_audio[:hop] + output_buffer[:hop]`. */
  function OverlapAdd(filtered: seq<real>, previous: seq<real>, hop: nat): (out: seq<real>)
    requires hop <= |filtered| && hop <= |previous|
    ensures |out| == hop
    ensures forall j :: 0 <= j < hop ==> out[j] == filtered[j] + previous[j]
  {
    seq(hop, j requires 0 <= j < hop => filtered[j] + previous[j])
  }

  /** `output_buffer[:-hop] = filtered_audio[hop:]; output_buffer[-hop:] = 0`,
      for a buffer of twice the hop. */
  function NextOverlap(filtered: seq<real>, hop: nat): (r: seq<real>)
    requires |filtered| == 2 * hop
    ensures |r| == |filtered|
    ensures forall j :: 0 <= j < hop ==> r[j] == filtered[hop + j]
    ensures forall j :: hop <= j < |r| ==> r[j] == 0.0
  {
    filtered[hop..] + Zeros(hop)
  }

  /** The block filtered by the combined response. */
  function FilteredBlock(np: NumPy, gainsDb: seq<real>, filters: seq<seq<real>>, x: seq<real>): (y: seq<real>)
    requires Sound(np) && Bands(gainsDb, filters, |x|)
    ensures |y| == |x|
  {
    FilterSpectrum(np, x, CombinedResponse(np, gainsDb, filters, |x|))
  }

  /** The buffers' invariant: each holds two hops. */
  predicate Sized(bufs: Buffers, hop: nat) {
    hop >= 1 && |bufs.input| == 2 * hop && |bufs.output| == 2 * hop
  }

  /** One call of `process_chunk`: its result and the buffers afterwards. */
  function ChunkStep(np: NumPy, gainsDb: seq<real>, filters: seq<seq<real>>, bufs: Buffers, chunk: seq<real>, hop: nat): (r: (Result<seq<real>>, Buffers))
    requires Sound(np) && Sized(bufs, hop) && Bands(gainsDb, filters, 2 * hop)
    ensures Sized(r.1, hop)
    ensures |chunk| == 0 ==> r == (Ok(chunk), bufs)
    ensures |chunk| > 0 && r.0.Ok? ==> |r.0.value| == hop && forall j :: 0 <= j < hop ==> Abs(r.0.value[j]) <= 1.0
    ensures |chunk| > 0 ==> (r.0.Ok? <==> |chunk| == hop || |chunk| == 1)
    ensures |chunk| == hop ==> r.1.input == bufs.input[hop..] + chunk
    ensures r.0.Err? ==>
      (r.0.error == ShapeMismatch && r.1.output == bufs.output && r.1.input == bufs.input[hop..] + bufs.input[hop..])
  {
    if |chunk| == 0 then (Ok(chunk), bufs)
    else
      var shifted := Shifted(bufs.input, hop);
      assert shifted[..hop] == bufs.input[hop..];
      match Filled(shifted, chunk, hop)
      case None => (Err(ShapeMismatch), Buffers(shifted, bufs.output))
      case Some(x) =>
        var filtered := FilteredBlock(np, gainsDb, filters, x);
        var out := PeakNormalize(OverlapAdd(filtered, bufs.output, hop));
        (Ok(out), Buffers(x, NextOverlap(filtered, hop)))
  }

  /** An accepted chunk: the block is filtered, the first hop samples of it plus
      the saved overlap are normalised and returned, and the second hop is saved
      for the next call, padded with zeros. */
  lemma {:induction false} AcceptedChunk(np: NumPy, gainsDb: seq<real>, filters: seq<seq<real>>, bufs: Buffers, chunk: seq<real>, hop: nat)
    requires Sound(np) && Sized(bufs, hop) && Bands(gainsDb, filters, 2 * hop)
    requires |chunk| == hop
    ensures var x := bufs.input[hop..] + chunk;
      var filtered := FilteredBlock(np, gainsDb, filters, x);
      var r := ChunkStep(np, gainsDb, filters, bufs, chunk, hop);
      r.0 == Ok(PeakNormalize(OverlapAdd(filtered, bufs.output, hop))) &&
      r.1 == Buffers(x, NextOverlap(filtered, hop))
  {
    var shifted := Shifted(bufs.input, hop);
    assert shifted[..hop] == bufs.input[hop..];
  }

  /** Overlap-add across two accepted chunks: before normalisation, the second
      call returns its block's first half plus the first block's second half. */
  lemma {:induction false} ConsecutiveChunks(np: NumPy, gainsDb: seq<real>, filters: seq<seq<real>>, bufs: Buffers, first: seq<real>, second: seq<real>, hop: nat)
    requires Sound(np) && Sized(bufs, hop) && Bands(gainsDb, filters, 2 * hop)
    requires |first| == hop && |second| == hop
    ensures var step1 := ChunkStep(np, gainsDb, filters, bufs, first, hop);
      var step2 := ChunkStep(np, gainsDb, filters, step1.1, second, hop);
      var f1 := FilteredBlock(np, gainsDb, filters, bufs.input[hop..] + first);
      var f2 := FilteredBlock(np, gainsDb, filters, first + second);
      step2.0 == Ok(PeakNormalize(seq(hop, j requires 0 <= j < hop => f2[j] + f1[hop + j])))
  {
    var x1 := bufs.input[hop..] + first;
    var f1 := FilteredBlock(np, gainsDb, filters, x1);
    AcceptedChunk(np, gainsDb, filters, bufs, first, hop);
    var bufs1 := Buffers(x1, NextOverlap(f1, hop));
    assert ChunkStep(np, gainsDb, filters, bufs, first, hop).1 == bufs1;
    AcceptedChunk(np, gainsDb, filters, bufs1, second, hop);
    assert x1[hop..] == first;
    var f2 := FilteredBlock(np, gainsDb, filters, first + second);
    assert OverlapAdd(f2, bufs1.output, hop) == seq(hop, j requires 0 <= j < hop => f2[j] + f1[hop + j]);
  }

  /** The equation the processor is built on: filtering by the combined
      response is the same as filtering each band and weighting the results. */
  lemma {:induction false} FilteredIsSumOfBands(np: NumPy, gainsDb: seq<real>, filters: seq<seq<real>>, x: seq<real>)
    requires Sound(np) && Bands(gainsDb, filters, |x|)
    ensures FilteredBlock(np, gainsDb, filters, x) ==
      Combined(LinearGains(np, gainsDb), FilterEach(np, x, filters), |x|)
  {
    CombinedFilterIsSumOfBands(np, x, LinearGains(np, gainsDb), filters, |gainsDb|);
  }

  class RealTimeEqualizer {
    const sampleRate: real
    const chunkSize: nat
    const centerFrequencies: seq<real>
    const fftSize: nat
    const hopSize: nat
    var gainsDb: seq<real>
    var bandFiltersFft: seq<seq<real>>
    const inputBuffer: array<real>
    const outputBuffer: array<real>

    /** The FFT covers two hops, one gain and one filter of fftSize bins per band. */
    ghost predicate Valid()
      reads this, inputBuffer, outputBuffer
    {
      && hopSize == chunkSize && fftSize == 2 * hopSize
      && inputBuffer != outputBuffer
      && Sized(Buffers(inputBuffer[..], outputBuffer[..]), hopSize)
      && |gainsDb| == |centerFrequencies|
      && Bands(gainsDb, bandFiltersFft, fftSize)
    }

    /** `__init__` with `_precompute_filters`: flat gains, zeroed buffers and one
        Gaussian filter of 50 Hz per centre frequency. numpy cannot build a
        filter of zero bins, hence the positive chunk size. */
    constructor(np: NumPy, sampleRate: real, chunkSize: nat)
      requires Sound(np) && sampleRate != 0.0 && chunkSize >= 1
      ensures Valid() && fresh(inputBuffer) && fresh(outputBuffer)
      ensures this.sampleRate == sampleRate && this.chunkSize == chunkSize
      ensures centerFrequencies == MultiBand.DefaultCenters
      ensures gainsDb == seq(5, _ => 0.0)
      ensures bandFiltersFft == Equalizer.BandFilters(np, 2 * chunkSize, sampleRate, MultiBand.DefaultCenters, Bandwidth, Shape)
      ensures inputBuffer[..] == Zeros(2 * chunkSize) && outputBuffer[..] == Zeros(2 * chunkSize)
    {
      var centers := MultiBand.DefaultCenters;
      var n := 2 * chunkSize;
      var filters: seq<seq<real>> := [];
      for i := 0 to |centers|
        invariant filters == Equalizer.BandFilters(np, n, sampleRate, centers[..i], Bandwidth, Shape)
      {
        var response := Equalizer.CreateFrequencyFilter(np, n, sampleRate, centers[i], Bandwidth, Shape);
        filters := filters + [response];
      }
      assert centers[..|centers|] == centers;
      this.sampleRate := sampleRate;
      this.chunkSize := chunkSize;
      centerFrequencies := centers;
      gainsDb := seq(5, _ => 0.0);
      fftSize := n;
      hopSize := chunkSize;
      bandFiltersFft := filters;
      inputBuffer := new real[n](_ => 0.0);
      outputBuffer := new real[n](_ => 0.0);
      new;
      assert inputBuffer[..] == Zeros(n);
      assert outputBuffer[..] == Zeros(n);
    }

    /** `set_band_gain_db`: an index in range writes that band's gain and
        nothing else; any other index raises with nothing written. */
    method SetBandGainDb(bandIndex: int, gainDb: real) returns (o: Outcome)
      requires Valid()
      modifies this
      ensures Valid()
      ensures bandFiltersFft == old(bandFiltersFft)
      ensures 0 <= bandIndex < |centerFrequencies| ==> o == Pass && gainsDb == old(gainsDb)[bandIndex := gainDb]
      ensures !(0 <= bandIndex < |centerFrequencies|) ==> o == Fail(InvalidBandIndex) && gainsDb == old(gainsDb)
      ensures unchanged(inputBuffer, outputBuffer)
    {
      if 0 <= bandIndex < |centerFrequencies| {
        gainsDb := gainsDb[bandIndex := gainDb];
        o := Pass;
      } else {
        o := Fail(InvalidBandIndex);
      }
    }

    /** The combined response for the current gains, `combined_filter +=
        gain_linear * filter_response` band by band. */
    method CombineFilters(np: NumPy) returns (h: seq<real>)
      requires Valid() && Sound(np)
      ensures h == CombinedResponse(np, gainsDb, bandFiltersFft, fftSize)
    {
      var weights := LinearGains(np, gainsDb);
      var combined := Zeros(fftSize);
      for i := 0 to |bandFiltersFft|
        invariant combined == WeightedSum(weights, bandFiltersFft, fftSize, i)
      {
        var gainLinear := DbToLinear(np, gainsDb[i]);
        combined := Plus(combined, Times(gainLinear, bandFiltersFft[i]));
      }
      h := combined;
    }

    /** The two slice assignments of the sliding input buffer; `false` when the
        chunk cannot be broadcast into the last hop, after the shift. */
    method ShiftIn(chunk: seq<real>) returns (ok: bool)
      requires Valid()
      modifies inputBuffer
      ensures Valid()
      ensures var filled := Filled(Shifted(old(inputBuffer[..]), hopSize), chunk, hopSize);
        ok == filled.Some? &&
        inputBuffer[..] == if ok then filled.value else Shifted(old(inputBuffer[..]), hopSize)
    {
      ghost var shifted := Shifted(inputBuffer[..], hopSize);
      ShiftLeft(inputBuffer, hopSize);
      if |chunk| != hopSize && |chunk| != 1 {
        return false;
      }
      CopyInto(inputBuffer, fftSize - hopSize, Tail(chunk, hopSize));
      ok := true;
    }

    /** `process_chunk`. The gains and filters are never written. */
    method ProcessChunk(np: NumPy, chunk: seq<real>) returns (r: Result<seq<real>>)
      requires Valid() && Sound(np)
      modifies inputBuffer, outputBuffer
      ensures Valid()
      ensures (r, Buffers(inputBuffer[..], outputBuffer[..])) ==
        ChunkStep(np, gainsDb, bandFiltersFft, Buffers(old(inputBuffer[..]), old(outputBuffer[..])), chunk, hopSize)
    {
      if |chunk| == 0 {
        return Ok(chunk);
      }
      ghost var before := Buffers(inputBuffer[..], outputBuffer[..]);
      var ok := ShiftIn(chunk);
      if !ok {
        return Err(ShapeMismatch);
      }
      var x := inputBuffer[..];
      var combined := CombineFilters(np);
      var filtered := FilterSpectrum(np, x, combined);
      var output := OverlapAdd(filtered, outputBuffer[..], hopSize);
      SaveOverlap(outputBuffer, filtered, hopSize);
      r := Ok(PeakNormalize(output));
    }

    /** `get_band_info`: (centre, gain in dB) pairs in band order. */
    method GetBandInfo() returns (info: seq<(real, real)>)
      requires Valid()
      ensures |info| == |centerFrequencies|
      ensures forall i :: 0 <= i < |info| ==> info[i] == (centerFrequencies[i], gainsDb[i])
    {
      var centers, gains := centerFrequencies, gainsDb;
      info := seq(|centers|, i requires 0 <= i < |centers| => (centers[i], gains[i]));
    }
  }
}
