/** simple-flanger: the raw input goes into a ring buffer, and a delay swept
    by a sine LFO between 10 ms and 40 ms is read back with two-tap linear
    interpolation and mixed with the dry signal. */
module SimpleFlanger {
  import opened DelayLine
  import opened Phase
  import opened Binding

  // Port indices, in the order of the plugin's `PortIndex` enumeration.
  const RatePort: nat := 0
  const DepthPort: nat := 1
  const MixPort: nat := 2
  const InputPort: nat := 3
  const OutputPort: nat := 4

  /** The sweep range above the base delay, in milliseconds. */
  const MaxAmplitudeMs: real := 30.0
  /** The base delay that every sweep adds, in milliseconds. */
  const AdditionalDelayMs: real := 10.0

  /** The depths for which the swept delay stays between 0 and the
      `MaxAmplitudeMs * AdditionalDelayMs` milliseconds the buffer is sized
      for, whatever the LFO value: the delay at the top of the sweep, like
      the base delay at its bottom, lies in that range. These are the depths
      from -1/3 to 29/3. */
  predicate SafeDepth(depth: real)
  {
    0.0 <= depth * MaxAmplitudeMs + AdditionalDelayMs <= MaxAmplitudeMs * AdditionalDelayMs
  }

  /** The safe depths are exactly those from -1/3 to 29/3. */
  lemma SafeDepthBounds(depth: real)
    ensures SafeDepth(depth) <==> -1.0 / 3.0 <= depth <= 29.0 / 3.0
  {
  }

  /** The five port bindings of a flanger instance. */
  datatype FlangerPorts<P> = FlangerPorts(rate: P, depth: P, mix: P, input: P, output: P)

  /** `connect_port`: the depth case falls through into the mix case, and the
      mix case into the input case; other port indices change nothing. */
  function Connect<P>(p: FlangerPorts<P>, port: nat, data: P): (r: FlangerPorts<P>)
    ensures r.rate == (if port == RatePort then data else p.rate)
    ensures r.depth == (if port == DepthPort then data else p.depth)
    ensures r.mix == (if port == DepthPort || port == MixPort then data else p.mix)
    ensures r.input == (if port == DepthPort || port == MixPort || port == InputPort then data else p.input)
    ensures r.output == (if port == OutputPort then data else p.output)
  {
    if port == RatePort then p.(rate := data)
    else if DepthPort <= port <= InputPort then
      var afterDepth := if port == DepthPort then p.(depth := data) else p;
      var afterMix := if port <= MixPort then afterDepth.(mix := data) else afterDepth;
      afterMix.(input := data)
    else if port == OutputPort then p.(output := data)
    else p
  }

  /** The bindings after a sequence of `connect_port` calls, oldest first. */
  function BindAll<P>(p: FlangerPorts<P>, bs: Calls<P>): FlangerPorts<P>
    decreases |bs|
  {
    if bs == [] then p
    else Connect(BindAll(p, bs[..|bs| - 1]), bs[|bs| - 1].0, bs[|bs| - 1].1)
  }

  /** After any sequence of calls, `mix` holds the data of the last call to
      depth or mix, `input` that of the last call to depth, mix or input, and
      every other field that of the last call to its own port. */
  lemma {:induction false} BindAllFields<P>(p: FlangerPorts<P>, bs: Calls<P>)
    ensures BindAll(p, bs) == FlangerPorts(
      LastData(bs, {RatePort}, p.rate),
      LastData(bs, {DepthPort}, p.depth),
      LastData(bs, {DepthPort, MixPort}, p.mix),
      LastData(bs, {DepthPort, MixPort, InputPort}, p.input),
      LastData(bs, {OutputPort}, p.output))
    decreases |bs|
  {
    if bs != [] {
      BindAllFields(p, bs[..|bs| - 1]);
    }
  }

  /** Binding ports in ascending index order leaves every field bound to the
      data given for its own port, despite the double fall-through. */
  lemma AscendingBindsOwnPort<P>(p: FlangerPorts<P>, bs: Calls<P>, j: nat)
    requires Ascending(bs) && j < |bs|
    ensures bs[j].0 == RatePort ==> BindAll(p, bs).rate == bs[j].1
    ensures bs[j].0 == DepthPort ==> BindAll(p, bs).depth == bs[j].1
    ensures bs[j].0 == MixPort ==> BindAll(p, bs).mix == bs[j].1
    ensures bs[j].0 == InputPort ==> BindAll(p, bs).input == bs[j].1
    ensures bs[j].0 == OutputPort ==> BindAll(p, bs).output == bs[j].1
  {
    BindAllFields(p, bs);
    var k := bs[j].0;
    if k == RatePort || k == DepthPort || k == OutputPort {
      LastDataAt(bs, {k}, p.rate, j);
      LastDataAt(bs, {k}, p.depth, j);
      LastDataAt(bs, {k}, p.output, j);
    } else if k == MixPort {
      LastDataAt(bs, {DepthPort, MixPort}, p.mix, j);
    } else if k == InputPort {
      LastDataAt(bs, {DepthPort, MixPort, InputPort}, p.input, j);
    }
  }

  /** The host's usual order, 0 to 4, binds every field correctly. */
  lemma AscendingOrderBindsAll<P>(p: FlangerPorts<P>, r: P, d: P, m: P, x: P, y: P)
    ensures BindAll(p, [(RatePort, r), (DepthPort, d), (MixPort, m), (InputPort, x), (OutputPort, y)])
      == FlangerPorts(r, d, m, x, y)
  {
    var bs := [(RatePort, r), (DepthPort, d), (MixPort, m), (InputPort, x), (OutputPort, y)];
    AscendingBindsOwnPort(p, bs, 0);
    AscendingBindsOwnPort(p, bs, 1);
    AscendingBindsOwnPort(p, bs, 2);
    AscendingBindsOwnPort(p, bs, 3);
    AscendingBindsOwnPort(p, bs, 4);
  }

  /** Binding depth after mix and input leaves both pointing at the depth cell. */
  lemma DepthLastAliases<P>(p: FlangerPorts<P>, bs: Calls<P>, j: nat)
    requires j < |bs| && bs[j].0 == DepthPort
    requires forall i :: j < i < |bs| ==> bs[i].0 != DepthPort && bs[i].0 != MixPort && bs[i].0 != InputPort
    ensures BindAll(p, bs).input == BindAll(p, bs).mix == BindAll(p, bs).depth == bs[j].1
  {
    BindAllFields(p, bs);
    LastDataAt(bs, {DepthPort, MixPort, InputPort}, p.input, j);
    LastDataAt(bs, {DepthPort, MixPort}, p.mix, j);
    LastDataAt(bs, {DepthPort}, p.depth, j);
  }

  /** Binding mix after input leaves `input` pointing at the mix cell. */
  lemma MixAfterInputAliases<P>(p: FlangerPorts<P>, bs: Calls<P>, j: nat)
    requires j < |bs| && bs[j].0 == MixPort
    requires forall i :: j < i < |bs| ==> bs[i].0 != DepthPort && bs[i].0 != MixPort && bs[i].0 != InputPort
    ensures BindAll(p, bs).input == BindAll(p, bs).mix == bs[j].1
  {
    BindAllFields(p, bs);
    LastDataAt(bs, {DepthPort, MixPort, InputPort}, p.input, j);
    LastDataAt(bs, {DepthPort, MixPort}, p.mix, j);
  }

  /** `delay_buffer_size = 1 + (sampling_rate * MAX_FLANGER_AMPLITUDE_MS *
      ADDITIONAL_DELAY_MS) / 1000`, truncated to an unsigned int. */
  function BufferSize(sr: real): (size: nat)
    requires sr >= 0.0
    ensures size >= 1
    ensures size as real <= 1.0 + sr * MaxAmplitudeMs * AdditionalDelayMs / 1000.0 < size as real + 1.0
  {
    (1.0 + sr * MaxAmplitudeMs * AdditionalDelayMs / 1000.0).Floor
  }

  /** The unipolar LFO value `0.5 * (1 + sin(2 pi progression))`. */
  function Modulant(sin: Sine, p: real): (m: real)
    requires IsSine(sin)
    ensures 0.0 <= m <= 1.0
    ensures p == 0.0 ==> m == 0.5
  {
    0.5 * (1.0 + sin(2.0 * Pi * p))
  }

  /** `delay_in_sample`: the base delay plus `depth * modulant` of the sweep
      range, converted from milliseconds to samples. */
  function DelayInSamples(depth: real, m: real, sr: real): (d: real)
    ensures depth == 0.0 ==> d == AdditionalDelayMs * sr / 1000.0
  {
    (depth * m * MaxAmplitudeMs + AdditionalDelayMs) * sr / 1000.0
  }

  /** A non-negative depth never shortens the delay below the 10 ms base,
      and a depth of at most one never lengthens it beyond 40 ms. */
  lemma DelayRange(depth: real, m: real, sr: real)
    requires depth >= 0.0 && 0.0 <= m <= 1.0 && sr >= 0.0
    ensures DelayInSamples(depth, m, sr) >= AdditionalDelayMs * sr / 1000.0
    ensures depth <= 1.0 ==> DelayInSamples(depth, m, sr) <= (MaxAmplitudeMs + AdditionalDelayMs) * sr / 1000.0
  {
    MulNonneg(depth, m);
    MulNonneg(depth * m, sr);
    if depth <= 1.0 {
      MulNonneg(1.0 - depth, m);
      MulNonneg(1.0 - m, 1.0);
      MulNonneg(1.0 - depth * m, sr);
    }
  }

  /** `modff`: the integral part, truncated towards zero, and the fractional
      remainder, which has the sign of `d`. */
  function Split(d: real): (r: (int, real))
    ensures r.0 as real + r.1 == d
    ensures d >= 0.0 ==> r.0 >= 0 && 0.0 <= r.1 < 1.0
    ensures d < 0.0 ==> r.0 <= 0 && -1.0 < r.1 <= 0.0
  {
    var i := if d >= 0.0 then d.Floor else -((-d).Floor);
    (i, d - i as real)
  }

  /** The two read heads: `write_head - i` and one slot further back, each
      with a single `+ size` correction. */
  function ReadHeads(wh: int, i: int, size: nat): (r: (int, int))
    ensures 0 <= wh < size && 0 <= i <= size ==> 0 <= r.0 < size && 0 <= r.1 < size
  {
    var a := Wrap(wh - i, size);
    (a, Wrap(a - 1, size))
  }

  /** The read heads are the slots `i` and `i + 1` behind the write head, modulo the size. */
  lemma ReadHeadsMod(wh: int, i: int, size: nat)
    requires 0 <= wh < size && 0 <= i <= size
    ensures ReadHeads(wh, i, size).0 == (wh - i) % size
    ensures ReadHeads(wh, i, size).1 == (wh - i - 1) % size
  {
    WrapIsMod(wh - i, size);
    var a := (wh - i) % size;
    ReadIndexCounts(wh - i, 1, size);
  }

  /** `(1 - f) * sample_a + f * sample_b`. */
  function Interpolate(a: real, b: real, f: real): (s: real)
    ensures f == 0.0 ==> s == a
  {
    (1.0 - f) * a + f * b
  }

  /** With a fraction in [0, 1] the interpolated sample lies between the two taps. */
  lemma InterpolateBetween(a: real, b: real, f: real)
    requires 0.0 <= f <= 1.0
    ensures a <= b ==> a <= Interpolate(a, b, f) <= b
    ensures b <= a ==> b <= Interpolate(a, b, f) <= a
  {
    var gap := if a <= b then b - a else a - b;
    MulNonneg(f, gap);
    MulNonneg(1.0 - f, gap);
  }

  /** The halved wet/dry mix `0.5 * ((1 - mix) * dry + mix * wet)`. */
  function Mix(dry: real, wet: real, mix: real): (y: real)
    ensures mix == 0.0 ==> y == 0.5 * dry
    ensures mix == 1.0 ==> y == 0.5 * wet
  {
    0.5 * ((1.0 - mix) * dry + mix * wet)
  }

  /** One output sample. `w` is every input since instantiation, the current
      sample last, so `Ring(w, size)` is the buffer once the current sample
      has been written; `p` is the progression before this sample's advance. */
  function Sample(w: seq<real>, p: real, depth: real, mix: real, sr: real, size: nat, sin: Sine): real
    requires |w| >= 1 && sr >= 0.0 && size == BufferSize(sr) && SafeDepth(depth) && IsSine(sin)
  {
    var m := Modulant(sin, p);
    var d := DelayInSamples(depth, m, sr);
    TapsInRange(depth, m, sr);
    var (i, f) := Split(d);
    var (a, b) := ReadHeads((|w| - 1) % size, i, size);
    var ring := Ring(w, size);
    Mix(w[|w| - 1], Interpolate(ring[a], ring[b], f), mix)
  }

  /** The outputs of a block `xs` processed from input history `h` and
      progression `p`: the last sample sees every input of the block and
      the progression after `|xs| - 1` advances. */
  function Outputs(h: seq<real>, p: real, xs: seq<real>, depth: real, mix: real, delta: real,
                   sr: real, size: nat, sin: Sine): (ys: seq<real>)
    requires sr >= 0.0 && size == BufferSize(sr) && SafeDepth(depth) && IsSine(sin)
    ensures |ys| == |xs|
    decreases |xs|
  {
    if xs == [] then []
    else
      Outputs(h, p, xs[..|xs| - 1], depth, mix, delta, sr, size, sin)
      + [Sample(h + xs, PhaseAfter(p, delta, |xs| - 1), depth, mix, sr, size, sin)]
  }

  /** A depth in the safe range keeps the delay, in samples, between 0 and the
      buffer's `MaxAmplitudeMs * AdditionalDelayMs` milliseconds. */
  lemma DelayInBuffer(depth: real, m: real, sr: real)
    requires SafeDepth(depth) && 0.0 <= m <= 1.0 && sr >= 0.0
    ensures 0.0 <= DelayInSamples(depth, m, sr) <= MaxAmplitudeMs * AdditionalDelayMs * sr / 1000.0
  {
    var top := depth * MaxAmplitudeMs + AdditionalDelayMs;
    MulNonneg(top, m);
    MulNonneg(MaxAmplitudeMs * AdditionalDelayMs - top, m);
    var ms := depth * m * MaxAmplitudeMs + AdditionalDelayMs;
    assert ms == top * m + AdditionalDelayMs * (1.0 - m);
    assert 0.0 <= ms <= MaxAmplitudeMs * AdditionalDelayMs;
    MulNonneg(ms, sr);
    MulNonneg(MaxAmplitudeMs * AdditionalDelayMs - ms, sr);
  }

  /** For a safe depth the integral part of the delay lies between 0 and the
      buffer size, so `ReadHeads` corrects both read heads into the buffer. */
  lemma TapsInRange(depth: real, m: real, sr: real)
    requires SafeDepth(depth) && 0.0 <= m <= 1.0 && sr >= 0.0
    ensures 0 <= Split(DelayInSamples(depth, m, sr)).0 <= BufferSize(sr)
  {
    DelayInBuffer(depth, m, sr);
  }

  /** From 10/3 Hz up the buffer holds both taps of every sweep with a depth
      in [0, 1]: the interpolation never reaches back a full lap. */
  lemma TapsFit(depth: real, m: real, sr: real)
    requires 0.0 <= depth <= 1.0 && 0.0 <= m <= 1.0 && sr >= 10.0 / 3.0
    ensures Split(DelayInSamples(depth, m, sr)).0 + 2 <= BufferSize(sr)
  {
    DelayRange(depth, m, sr);
  }

  /** From 100 Hz up the base delay is at least one sample, so neither tap
      reads the sample written in the same iteration. */
  lemma TapsSkipNewest(depth: real, m: real, sr: real)
    requires 0.0 <= depth <= 1.0 && 0.0 <= m <= 1.0 && sr >= 100.0
    ensures Split(DelayInSamples(depth, m, sr)).0 >= 1
  {
    DelayRange(depth, m, sr);
  }

  /** Below 10/3 Hz the buffer has a single slot, so every read head is the
      write head and `TapsFit` cannot hold there. */
  lemma SingleSlotBelow(sr: real)
    requires 0.0 <= sr < 10.0 / 3.0
    ensures BufferSize(sr) == 1
  {
  }

  /** From 100 Hz up, with a depth in [0, 1], neither read head is the slot
      the current sample was just written to. */
  lemma TapsMissWriteHead(depth: real, m: real, sr: real, wh: int)
    requires 0.0 <= depth <= 1.0 && 0.0 <= m <= 1.0 && sr >= 100.0 && 0 <= wh < BufferSize(sr)
    ensures var heads := ReadHeads(wh, Split(DelayInSamples(depth, m, sr)).0, BufferSize(sr));
      heads.0 != wh && heads.1 != wh
  {
    var i := Split(DelayInSamples(depth, m, sr)).0;
    var size := BufferSize(sr);
    TapsSkipNewest(depth, m, sr);
    TapsFit(depth, m, sr);
    ReadHeadsMod(wh, i, size);
    ModDistinct(wh - i, wh, size);
    ModDistinct(wh - i - 1, wh, size);
  }

  /** The depth bound of `TapsFit` is needed: a safe depth above 1 can make
      the second tap read the slot just written. At 1001 Hz, depth 29/3 and
      the top of the sweep the delay is 300.3 samples in a 301-slot buffer. */
  lemma WideDepthReadsNewest(wh: int)
    requires 0 <= wh < 301
    ensures SafeDepth(29.0 / 3.0) && BufferSize(1001.0) == 301
    ensures Split(DelayInSamples(29.0 / 3.0, 1.0, 1001.0)) == (300, 0.3)
    ensures ReadHeads(wh, 300, 301).1 == wh
  {
    assert DelayInSamples(29.0 / 3.0, 1.0, 1001.0) == 300.3;
  }

  /** The ring taps are the inputs `i` and `i + 1` samples before the
      current one (zero before the first input), provided the taps reach
      back less than a full lap. */
  lemma TapsArePast(w: seq<real>, i: int, size: nat)
    requires |w| >= 1 && 0 <= i && i + 2 <= size
    ensures var (a, b) := ReadHeads((|w| - 1) % size, i, size);
      Ring(w, size)[a] == Past(w, i + 1) && Ring(w, size)[b] == Past(w, i + 2)
  {
    var k := |w| - 1;
    ReadIndexCounts(k, i, size);
    RingRead(w, size, i + 1);
    ReadIndexCounts(k - i, 1, size);
    RingRead(w, size, i + 2);
  }

  /** The flanger as a fractional delay line over its input history: the
      output mixes the current input with the input `d` samples earlier,
      interpolated between the samples `i` and `i + 1` back. */
  lemma SampleReadsPast(w: seq<real>, p: real, depth: real, mix: real, sr: real, sin: Sine)
    requires |w| >= 1 && sr >= 10.0 / 3.0 && 0.0 <= depth <= 1.0 && IsSine(sin)
    ensures var d := DelayInSamples(depth, Modulant(sin, p), sr);
      var (i, f) := Split(d);
      Sample(w, p, depth, mix, sr, BufferSize(sr), sin)
        == Mix(w[|w| - 1], Interpolate(Past(w, i + 1), Past(w, i + 2), f), mix)
  {
    var d := DelayInSamples(depth, Modulant(sin, p), sr);
    TapsFit(depth, Modulant(sin, p), sr);
    TapsInRange(depth, Modulant(sin, p), sr);
    TapsArePast(w, Split(d).0, BufferSize(sr));
  }

  /** With zero depth the delay is the constant base delay, so the output
      does not depend on the progression, hence not on the rate. */
  lemma ZeroDepthIgnoresPhase(w: seq<real>, p1: real, p2: real, mix: real, sr: real, sin: Sine)
    requires |w| >= 1 && sr >= 0.0 && IsSine(sin)
    ensures Sample(w, p1, 0.0, mix, sr, BufferSize(sr), sin) == Sample(w, p2, 0.0, mix, sr, BufferSize(sr), sin)
  {
    assert DelayInSamples(0.0, Modulant(sin, p1), sr) == DelayInSamples(0.0, Modulant(sin, p2), sr);
  }

  /** Sample `k` of a block sees the inputs up to and including `xs[k]`
      and the progression after `k` advances. */
  lemma {:induction false} OutputsAt(h: seq<real>, p: real, xs: seq<real>, depth: real, mix: real,
                                     delta: real, sr: real, sin: Sine, k: nat)
    requires sr >= 0.0 && SafeDepth(depth) && k < |xs| && IsSine(sin)
    ensures Outputs(h, p, xs, depth, mix, delta, sr, BufferSize(sr), sin)[k]
      == Sample(h + xs[..k + 1], PhaseAfter(p, delta, k), depth, mix, sr, BufferSize(sr), sin)
    decreases |xs|
  {
    if k < |xs| - 1 {
      var init := xs[..|xs| - 1];
      OutputsAt(h, p, init, depth, mix, delta, sr, sin, k);
      assert init[..k + 1] == xs[..k + 1];
    } else {
      assert xs[..k + 1] == xs;
    }
  }

  /** Processing `xs ++ ys` in one block or in two consecutive blocks gives
      the same outputs; the second block starts from the history and the
      progression the first one left. */
  lemma {:induction false} OutputsSplit(h: seq<real>, p: real, xs: seq<real>, ys: seq<real>, depth: real, mix: real,
                                        delta: real, sr: real, sin: Sine)
    requires sr >= 0.0 && SafeDepth(depth) && IsSine(sin)
    ensures var size := BufferSize(sr);
      Outputs(h, p, xs + ys, depth, mix, delta, sr, size, sin)
        == Outputs(h, p, xs, depth, mix, delta, sr, size, sin)
         + Outputs(h + xs, PhaseAfter(p, delta, |xs|), ys, depth, mix, delta, sr, size, sin)
    decreases |ys|
  {
    if ys == [] {
      assert xs + ys == xs;
    } else {
      var init, y := ys[..|ys| - 1], ys[|ys| - 1];
      assert ys == init + [y];
      OutputsSplit(h, p, xs, init, depth, mix, delta, sr, sin);
      OutputsStep(h, p, xs, init, y, depth, mix, delta, sr, sin);
    }
  }

  /** One more input after the blocks `xs` and `init` extends the one-block
      outputs and the second block's outputs by the same sample. */
  lemma OutputsStep(h: seq<real>, p: real, xs: seq<real>, init: seq<real>, y: real, depth: real, mix: real,
                    delta: real, sr: real, sin: Sine)
    requires sr >= 0.0 && SafeDepth(depth) && IsSine(sin)
    ensures var size := BufferSize(sr);
      var q := PhaseAfter(p, delta, |xs|);
      var last := Sample(h + xs + (init + [y]), PhaseAfter(q, delta, |init|), depth, mix, sr, size, sin);
      && Outputs(h, p, xs + (init + [y]), depth, mix, delta, sr, size, sin)
         == Outputs(h, p, xs + init, depth, mix, delta, sr, size, sin) + [last]
      && Outputs(h + xs, q, init + [y], depth, mix, delta, sr, size, sin)
         == Outputs(h + xs, q, init, depth, mix, delta, sr, size, sin) + [last]
  {
    assert xs + (init + [y]) == (xs + init) + [y];
    assert h + (xs + init) + [y] == h + xs + (init + [y]);
    assert (h + xs) + init + [y] == h + xs + (init + [y]);
    PhaseAfterAdd(p, delta, |xs|, |init|);
    OutputsSnoc(h, p, xs + init, y, depth, mix, delta, sr, sin);
    OutputsSnoc(h + xs, PhaseAfter(p, delta, |xs|), init, y, depth, mix, delta, sr, sin);
  }

  /** Appending one input appends one output. */
  lemma OutputsSnoc(h: seq<real>, p: real, xs: seq<real>, x: real, depth: real, mix: real,
                    delta: real, sr: real, sin: Sine)
    requires sr >= 0.0 && SafeDepth(depth) && IsSine(sin)
    ensures Outputs(h, p, xs + [x], depth, mix, delta, sr, BufferSize(sr), sin)
      == Outputs(h, p, xs, depth, mix, delta, sr, BufferSize(sr), sin)
       + [Sample(h + xs + [x], PhaseAfter(p, delta, |xs|), depth, mix, sr, BufferSize(sr), sin)]
  {
    assert (xs + [x])[..|xs|] == xs;
    assert h + (xs + [x]) == h + xs + [x];
  }

  /** A sample computed from the history and the progression the block has
      reached at index `k` is the block's specified output at `k`. */
  lemma OutputIsSpecified(h: seq<real>, p: real, xs: seq<real>, depth: real, mix: real,
                          delta: real, sr: real, sin: Sine, k: nat, w: seq<real>, q: real, y: real)
    requires sr >= 0.0 && SafeDepth(depth) && IsSine(sin) && k < |xs|
    requires w == h + xs[..k + 1] && q == PhaseAfter(p, delta, k)
    requires y == Sample(w, q, depth, mix, sr, BufferSize(sr), sin)
    ensures y == Outputs(h, p, xs, depth, mix, delta, sr, BufferSize(sr), sin)[k]
  {
    OutputsAt(h, p, xs, depth, mix, delta, sr, sin, k);
  }

  /** With zero depth a whole block's outputs depend neither on the
      progression it starts from nor on the rate. */
  lemma {:induction false} ZeroDepthIgnoresRate(h: seq<real>, p1: real, p2: real, xs: seq<real>, mix: real,
                                                d1: real, d2: real, sr: real, sin: Sine)
    requires sr >= 0.0 && IsSine(sin)
    ensures Outputs(h, p1, xs, 0.0, mix, d1, sr, BufferSize(sr), sin)
      == Outputs(h, p2, xs, 0.0, mix, d2, sr, BufferSize(sr), sin)
    decreases |xs|
  {
    if xs != [] {
      ZeroDepthIgnoresRate(h, p1, p2, xs[..|xs| - 1], mix, d1, d2, sr, sin);
      ZeroDepthIgnoresPhase(h + xs, PhaseAfter(p1, d1, |xs| - 1), PhaseAfter(p2, d2, |xs| - 1), mix, sr, sin);
    }
  }

  /** From 10/3 Hz up, with a depth in [0, 1], output `k` of a block mixes input `k` with the input
      history interpolated between the samples `i + 1` and `i + 2` back,
      where `i + f` is the delay swept at the progression after `k` advances. */
  lemma OutputsReadPast(h: seq<real>, p: real, xs: seq<real>, depth: real, mix: real,
                        delta: real, sr: real, sin: Sine, k: nat)
    requires sr >= 10.0 / 3.0 && 0.0 <= depth <= 1.0 && IsSine(sin) && k < |xs|
    ensures var w := h + xs[..k + 1];
      var (i, f) := Split(DelayInSamples(depth, Modulant(sin, PhaseAfter(p, delta, k)), sr));
      Outputs(h, p, xs, depth, mix, delta, sr, BufferSize(sr), sin)[k]
        == Mix(xs[k], Interpolate(Past(w, i + 1), Past(w, i + 2), f), mix)
  {
    var w := h + xs[..k + 1];
    var q := PhaseAfter(p, delta, k);
    var (i, f) := Split(DelayInSamples(depth, Modulant(sin, q), sr));
    assert w[|w| - 1] == xs[k];
    calc {
      Outputs(h, p, xs, depth, mix, delta, sr, BufferSize(sr), sin)[k];
      { OutputsAt(h, p, xs, depth, mix, delta, sr, sin, k); }
      Sample(w, q, depth, mix, sr, BufferSize(sr), sin);
      { SampleReadsPast(w, q, depth, mix, sr, sin); }
      Mix(xs[k], Interpolate(Past(w, i + 1), Past(w, i + 2), f), mix);
    }
  }

  /** A flanger instance: the port bindings, the zero-filled delay buffer,
      its write head, the LFO progression and the sampling rate. */
  class Flanger {
    var rate: array?<real>
    var depth: array?<real>
    var mix: array?<real>
    var input: array?<real>
    var output: array?<real>
    const buffer: array<real>
    var writeHead: nat
    var progression: real
    const sampleRate: real
    /** Every input sample written to the buffer since instantiation, oldest first. */
    ghost var history: seq<real>

    function Ports(): FlangerPorts<array?<real>>
      reads this
    {
      FlangerPorts(rate, depth, mix, input, output)
    }

    /** The buffer is sized from the sampling rate once, the write head sits
        at the number of samples processed modulo the size, and the buffer
        holds the input history laid out around the ring. */
    ghost predicate Valid()
      reads this, buffer
    {
      sampleRate > 0.0 && buffer.Length == BufferSize(sampleRate) &&
      writeHead == |history| % buffer.Length &&
      buffer[..] == Ring(history, buffer.Length)
    }

    /** The caller's side of `run`: every port bound to memory of the needed
        size, and the audio ports distinct from the instance's own buffer. */
    predicate Connected(n: nat)
      reads this
    {
      rate != null && depth != null && mix != null && input != null && output != null &&
      rate.Length >= 1 && depth.Length >= 1 && mix.Length >= 1 &&
      input.Length >= n && output.Length >= n &&
      input != buffer && output != buffer
    }

    /** `instantiate`: a zero-filled buffer of `BufferSize(sr)` samples, the
        write head and the progression at 0 (the struct comes from `calloc`). */
    constructor (sr: real)
      requires sr > 0.0
      ensures Valid() && fresh(buffer)
      ensures sampleRate == sr && history == [] && writeHead == 0 && progression == 0.0
      ensures Ports() == FlangerPorts(null, null, null, null, null)
    {
      sampleRate := sr;
      buffer := new real[BufferSize(sr)](_ => 0.0);
      writeHead := 0;
      progression := 0.0;
      history := [];
      rate, depth, mix, input, output := null, null, null, null, null;
    }

    /** `connect_port`, with its two fall-throughs. */
    method ConnectPort(port: nat, data: array?<real>)
      modifies this`rate, this`depth, this`mix, this`input, this`output
      ensures Ports() == Connect(old(Ports()), port, data)
    {
      if port == RatePort {
        rate := data;
      } else if DepthPort <= port <= InputPort {
        if port == DepthPort {
          depth := data;
        }
        // no `break` after the depth case: it falls through to here
        if port <= MixPort {
          mix := data;
        }
        // no `break` after the mix case: it falls through to here
        input := data;
      } else if port == OutputPort {
        output := data;
      }
    }

    /** `activate` is empty: the write head, the buffer and the progression carry over. */
    method Activate()
      ensures writeHead == old(writeHead) && progression == old(progression) && history == old(history)
    {
    }

    /** One pass of `run`'s loop body at index `pos`, progression `prog`:
        write `input[pos]` at the write head, advance the progression and store
        it, read and interpolate the two taps into `output[pos]`, and advance
        the write head. */
    method Tick(pos: nat, prog: real, delta: real, depthValue: real, mixValue: real, sin: Sine)
      returns (next: real)
      requires Valid() && SafeDepth(depthValue) && IsSine(sin)
      requires input != null && output != null && input != buffer && output != buffer
      requires pos < input.Length && pos < output.Length
      modifies this`writeHead, this`history, this`progression, buffer, output
      ensures Valid() && history == old(history) + [old(input[pos])]
      ensures output[pos] == Sample(history, prog, depthValue, mixValue, sampleRate, buffer.Length, sin)
      ensures forall k :: 0 <= k < output.Length && k != pos ==> output[k] == old(output[k])
      ensures next == progression == AdvancePhase(prog, delta)
    {
      var size := buffer.Length;
      var x := input[pos];
      buffer[writeHead] := x;
      RingPush(history, x, size);
      history := history + [x];
      var modulant := Modulant(sin, prog);
      next := AdvancePhase(prog, delta);
      progression := next;
      var delayInSample := DelayInSamples(depthValue, modulant, sampleRate);
      TapsInRange(depthValue, modulant, sampleRate);
      var (integral, fraction) := Split(delayInSample);
      var (readHeadA, readHeadB) := ReadHeads(writeHead, integral, size);
      var sampleA := buffer[readHeadA];
      var sampleB := buffer[readHeadB];
      var interpolated := Interpolate(sampleA, sampleB, fraction);
      output[pos] := Mix(x, interpolated, mixValue);
      NextHeadCounts(|history| - 1, size);
      writeHead := NextHead(writeHead, size);
    }

    /** One sample of the block `xs` processed from history `h0` and
        progression `p0`: the pass of the loop body at `pos` writes the
        block's specified output `ys[pos]`. */
    method Step(pos: nat, prog: real, delta: real, depthValue: real, mixValue: real, sin: Sine,
                ghost h0: seq<real>, ghost p0: real, ghost xs: seq<real>, ghost ys: seq<real>)
      returns (next: real)
      requires Valid() && SafeDepth(depthValue) && IsSine(sin)
      requires input != null && output != null && input != buffer && output != buffer
      requires pos < input.Length && pos < output.Length && pos < |xs| && input[pos] == xs[pos]
      requires history == h0 + xs[..pos] && prog == PhaseAfter(p0, delta, pos)
      requires ys == Outputs(h0, p0, xs, depthValue, mixValue, delta, sampleRate, buffer.Length, sin)
      modifies this`writeHead, this`history, this`progression, buffer, output
      ensures Valid() && history == h0 + xs[..pos + 1]
      ensures next == progression == PhaseAfter(p0, delta, pos + 1)
      ensures output[pos] == ys[pos]
      ensures forall k :: 0 <= k < output.Length && k != pos ==> output[k] == old(output[k])
    {
      AppendNext(h0, xs, pos);
      next := Tick(pos, prog, delta, depthValue, mixValue, sin);
      OutputIsSpecified(h0, p0, xs, depthValue, mixValue, delta, sampleRate, sin, pos, history, prog, output[pos]);
    }

    /** `run`: reads the rate, depth and mix cells once, then processes the
        block sample by sample. */
    method Run(n: nat, sin: Sine)
      requires Valid() && Connected(n) && IsSine(sin)
      requires SafeDepth(depth[0])
      modifies this`writeHead, this`progression, this`history, buffer, output
      ensures Valid()
      ensures history == old(history) + old(input[..n])
      ensures progression == PhaseAfter(old(progression), old(rate[0]) / sampleRate, n)
      ensures output[..n] == Outputs(old(history), old(progression), old(input[..n]), old(depth[0]),
                                     old(mix[0]), old(rate[0]) / sampleRate, sampleRate, buffer.Length, sin)
      ensures output[n..] == old(output[n..])
      ensures input == output || input[..] == old(input[..])
    {
      var rateValue := rate[0];
      var depthValue := depth[0];
      var mixValue := mix[0];
      Process(n, rateValue / sampleRate, depthValue, mixValue, sin);
    }

    /** `run`'s loop over the block with the control values already read,
        storing the progression back after every sample. */
    method Process(n: nat, delta: real, depthValue: real, mixValue: real, sin: Sine)
      requires Valid() && IsSine(sin) && SafeDepth(depthValue)
      requires input != null && output != null && input != buffer && output != buffer
      requires n <= input.Length && n <= output.Length
      modifies this`writeHead, this`progression, this`history, buffer, output
      ensures Valid()
      ensures history == old(history) + old(input[..n])
      ensures progression == PhaseAfter(old(progression), delta, n)
      ensures output[..n] == Outputs(old(history), old(progression), old(input[..n]), depthValue,
                                     mixValue, delta, sampleRate, buffer.Length, sin)
      ensures output[n..] == old(output[n..])
      ensures input == output || input[..] == old(input[..])
    {
      var prog := progression;
      ghost var h0 := history;
      ghost var p0 := progression;
      ghost var xs := input[..n];
      ghost var ys := Outputs(h0, p0, xs, depthValue, mixValue, delta, sampleRate, buffer.Length, sin);
      var pos := 0;
      while pos < n
        invariant 0 <= pos <= n
        invariant Valid()
        invariant history == h0 + xs[..pos]
        invariant prog == progression == PhaseAfter(p0, delta, pos)
        invariant forall k :: 0 <= k < pos ==> output[k] == ys[k]
        invariant forall k :: pos <= k < output.Length ==> output[k] == old(output[k])
        invariant input != output ==> forall k :: 0 <= k < input.Length ==> input[k] == old(input[k])
      {
        assert input[pos] == xs[pos];
        prog := Step(pos, prog, delta, depthValue, mixValue, sin, h0, p0, xs, ys);
        pos := pos + 1;
      }
      assert output[..n] == ys;
      assert input != output ==> input[..] == old(input[..]);
      assert xs[..n] == xs;
    }
  }
}
