/** simple-tremolo: every input sample is scaled by a modulant that a sine
    LFO sweeps between `1 - depth` and 1; the LFO progression is kept in a
    local during the block and stored back into the instance at its end. */
module SimpleTremolo {
  import opened Phase
  import opened Binding

  // Port indices, in the order of the plugin's `PortIndex` enumeration
  // (the rate port is spelled `TREMOLO_DELAY` there).
  const RatePort: nat := 0
  const DepthPort: nat := 1
  const InputPort: nat := 2
  const OutputPort: nat := 3

  /** The four port bindings of a tremolo instance. */
  datatype TremoloPorts<P> = TremoloPorts(rate: P, depth: P, input: P, output: P)

  /** `connect_port`: the depth case falls through into the input case;
      other port indices change nothing. */
  function Connect<P>(p: TremoloPorts<P>, port: nat, data: P): (r: TremoloPorts<P>)
    ensures r.rate == (if port == RatePort then data else p.rate)
    ensures r.depth == (if port == DepthPort then data else p.depth)
    ensures r.input == (if port == DepthPort || port == InputPort then data else p.input)
    ensures r.output == (if port == OutputPort then data else p.output)
  {
    if port == RatePort then p.(rate := data)
    else if DepthPort <= port <= InputPort then
      var afterDepth := if port == DepthPort then p.(depth := data) else p;
      afterDepth.(input := data)
    else if port == OutputPort then p.(output := data)
    else p
  }

  /** The bindings after a sequence of `connect_port` calls, oldest first. */
  function BindAll<P>(p: TremoloPorts<P>, bs: Calls<P>): TremoloPorts<P>
    decreases |bs|
  {
    if bs == [] then p
    else Connect(BindAll(p, bs[..|bs| - 1]), bs[|bs| - 1].0, bs[|bs| - 1].1)
  }

  /** After any sequence of calls, `input` holds the data of the last call to
      depth or input, and every other field that of the last call to its own
      port. */
  lemma {:induction false} BindAllFields<P>(p: TremoloPorts<P>, bs: Calls<P>)
    ensures BindAll(p, bs) == TremoloPorts(
      LastData(bs, {RatePort}, p.rate),
      LastData(bs, {DepthPort}, p.depth),
      LastData(bs, {DepthPort, InputPort}, p.input),
      LastData(bs, {OutputPort}, p.output))
    decreases |bs|
  {
    if bs != [] {
      BindAllFields(p, bs[..|bs| - 1]);
    }
  }

  /** Binding ports in ascending index order leaves every field bound to the
      data given for its own port, despite the fall-through. */
  lemma AscendingBindsOwnPort<P>(p: TremoloPorts<P>, bs: Calls<P>, j: nat)
    requires Ascending(bs) && j < |bs|
    ensures bs[j].0 == RatePort ==> BindAll(p, bs).rate == bs[j].1
    ensures bs[j].0 == DepthPort ==> BindAll(p, bs).depth == bs[j].1
    ensures bs[j].0 == InputPort ==> BindAll(p, bs).input == bs[j].1
    ensures bs[j].0 == OutputPort ==> BindAll(p, bs).output == bs[j].1
  {
    BindAllFields(p, bs);
    var k := bs[j].0;
    if k == RatePort || k == DepthPort || k == OutputPort {
      LastDataAt(bs, {k}, p.rate, j);
      LastDataAt(bs, {k}, p.depth, j);
      LastDataAt(bs, {k}, p.output, j);
    } else if k == InputPort {
      LastDataAt(bs, {DepthPort, InputPort}, p.input, j);
    }
  }

  /** The host's usual order, 0 to 3, binds every field correctly. */
  lemma AscendingOrderBindsAll<P>(p: TremoloPorts<P>, r: P, d: P, x: P, y: P)
    ensures BindAll(p, [(RatePort, r), (DepthPort, d), (InputPort, x), (OutputPort, y)])
      == TremoloPorts(r, d, x, y)
  {
    var bs := [(RatePort, r), (DepthPort, d), (InputPort, x), (OutputPort, y)];
    AscendingBindsOwnPort(p, bs, 0);
    AscendingBindsOwnPort(p, bs, 1);
    AscendingBindsOwnPort(p, bs, 2);
    AscendingBindsOwnPort(p, bs, 3);
  }

  /** Binding depth after input leaves `input` pointing at the depth cell. */
  lemma DepthAfterInputAliases<P>(p: TremoloPorts<P>, bs: Calls<P>, j: nat)
    requires j < |bs| && bs[j].0 == DepthPort
    requires forall i :: j < i < |bs| ==> bs[i].0 != DepthPort && bs[i].0 != InputPort
    ensures BindAll(p, bs).input == BindAll(p, bs).depth == bs[j].1
  {
    BindAllFields(p, bs);
    LastDataAt(bs, {DepthPort, InputPort}, p.input, j);
    LastDataAt(bs, {DepthPort}, p.depth, j);
  }

  /** The gain `(1 - depth / 2) + depth / 2 * sin(2 pi progression)`. */
  function Modulant(depth: real, sin: Sine, p: real): (m: real)
    ensures depth == 0.0 ==> m == 1.0
    ensures IsSine(sin) && p == 0.0 ==> m == 1.0 - depth * 0.5
  {
    (1.0 - depth * 0.5) + depth * 0.5 * sin(2.0 * Pi * p)
  }

  /** With a non-negative depth the gain lies in `[1 - depth, 1]`, so a
      depth of at most one never inverts the signal. */
  lemma ModulantRange(depth: real, sin: Sine, p: real)
    requires IsSine(sin) && depth >= 0.0
    ensures 1.0 - depth <= Modulant(depth, sin, p) <= 1.0
    ensures depth <= 1.0 ==> Modulant(depth, sin, p) >= 0.0
  {
    var s := sin(2.0 * Pi * p);
    MulNonneg(depth * 0.5, 1.0 + s);
    MulNonneg(depth * 0.5, 1.0 - s);
  }

  /** `output[pos] = input_sample * modulant`. */
  function Sample(x: real, depth: real, sin: Sine, p: real): real
  {
    x * Modulant(depth, sin, p)
  }

  /** The outputs of a block `xs` processed from progression `p`: the last
      sample is scaled by the gain at the progression after `|xs| - 1`
      advances. */
  function Outputs(p: real, xs: seq<real>, depth: real, delta: real, sin: Sine): (ys: seq<real>)
    ensures |ys| == |xs|
    decreases |xs|
  {
    if xs == [] then []
    else
      Outputs(p, xs[..|xs| - 1], depth, delta, sin)
      + [Sample(xs[|xs| - 1], depth, sin, PhaseAfter(p, delta, |xs| - 1))]
  }

  /** Output `k` of a block depends only on input `k`, the depth and the
      progression after `k` advances. */
  lemma {:induction false} OutputsAt(p: real, xs: seq<real>, depth: real, delta: real, sin: Sine, k: nat)
    requires k < |xs|
    ensures Outputs(p, xs, depth, delta, sin)[k] == Sample(xs[k], depth, sin, PhaseAfter(p, delta, k))
    decreases |xs|
  {
    if k < |xs| - 1 {
      OutputsAt(p, xs[..|xs| - 1], depth, delta, sin, k);
    }
  }

  /** Processing `xs ++ ys` in one block or in two consecutive blocks gives
      the same outputs and the same final progression; the second block
      starts from the progression the first one stored back. */
  lemma {:induction false} OutputsSplit(p: real, xs: seq<real>, ys: seq<real>, depth: real, delta: real, sin: Sine)
    ensures Outputs(p, xs + ys, depth, delta, sin)
      == Outputs(p, xs, depth, delta, sin) + Outputs(PhaseAfter(p, delta, |xs|), ys, depth, delta, sin)
    ensures PhaseAfter(PhaseAfter(p, delta, |xs|), delta, |ys|) == PhaseAfter(p, delta, |xs + ys|)
    decreases |ys|
  {
    PhaseAfterAdd(p, delta, |xs|, |ys|);
    if ys == [] {
      assert xs + ys == xs;
    } else {
      var init, y := ys[..|ys| - 1], ys[|ys| - 1];
      var q := PhaseAfter(p, delta, |xs|);
      var last := Sample(y, depth, sin, PhaseAfter(q, delta, |init|));
      assert ys == init + [y];
      assert xs + ys == (xs + init) + [y];
      calc {
        Outputs(p, xs + ys, depth, delta, sin);
      == { OutputsSnoc(p, xs + init, y, depth, delta, sin); PhaseAfterAdd(p, delta, |xs|, |init|); }
        Outputs(p, xs + init, depth, delta, sin) + [last];
      == { OutputsSplit(p, xs, init, depth, delta, sin); }
        (Outputs(p, xs, depth, delta, sin) + Outputs(q, init, depth, delta, sin)) + [last];
      ==
        Outputs(p, xs, depth, delta, sin) + (Outputs(q, init, depth, delta, sin) + [last]);
      == { OutputsSnoc(q, init, y, depth, delta, sin); }
        Outputs(p, xs, depth, delta, sin) + Outputs(q, ys, depth, delta, sin);
      }
    }
  }

  /** Appending one input appends one output. */
  lemma OutputsSnoc(p: real, xs: seq<real>, x: real, depth: real, delta: real, sin: Sine)
    ensures Outputs(p, xs + [x], depth, delta, sin)
      == Outputs(p, xs, depth, delta, sin) + [Sample(x, depth, sin, PhaseAfter(p, delta, |xs|))]
  {
    assert (xs + [x])[..|xs|] == xs;
  }

  /** A zero depth passes the input through unchanged, whatever the rate. */
  lemma {:induction false} ZeroDepthIsIdentity(p: real, xs: seq<real>, delta: real, sin: Sine)
    ensures Outputs(p, xs, 0.0, delta, sin) == xs
    decreases |xs|
  {
    if xs != [] {
      ZeroDepthIsIdentity(p, xs[..|xs| - 1], delta, sin);
      assert xs == xs[..|xs| - 1] + [xs[|xs| - 1]];
    }
  }

  /** `y` has the sign of `x`, is no louder than it, and no quieter than
      `(1 - depth)` times it. */
  predicate Attenuated(x: real, y: real, depth: real)
  {
    (x >= 0.0 ==> (1.0 - depth) * x <= y <= x) &&
    (x <= 0.0 ==> x <= y <= (1.0 - depth) * x)
  }

  /** For a depth in `[0, 1]` every sample is an attenuated copy of its input. */
  lemma SampleBetween(x: real, depth: real, sin: Sine, p: real)
    requires IsSine(sin) && 0.0 <= depth <= 1.0
    ensures Attenuated(x, Sample(x, depth, sin, p), depth)
  {
    var m := Modulant(depth, sin, p);
    ModulantRange(depth, sin, p);
    var ax := if x >= 0.0 then x else -x;
    MulNonneg(ax, 1.0 - m);
    MulNonneg(ax, m - (1.0 - depth));
  }

  /** Over a whole block with a depth in `[0, 1]`, every output is an
      attenuated copy of the input at the same index. */
  lemma Attenuates(p: real, xs: seq<real>, depth: real, delta: real, sin: Sine)
    requires IsSine(sin) && 0.0 <= depth <= 1.0
    ensures var ys := Outputs(p, xs, depth, delta, sin);
      forall k :: 0 <= k < |xs| ==> Attenuated(xs[k], ys[k], depth)
  {
    var ys := Outputs(p, xs, depth, delta, sin);
    forall k | 0 <= k < |xs|
      ensures Attenuated(xs[k], ys[k], depth)
    {
      OutputsAt(p, xs, depth, delta, sin, k);
      SampleBetween(xs[k], depth, sin, PhaseAfter(p, delta, k));
    }
  }

  /** A sample computed from input `k` of the block and the progression
      after `k` advances is the block's specified output at `k`. */
  lemma OutputIsSpecified(p: real, xs: seq<real>, depth: real, delta: real, sin: Sine,
                          k: nat, q: real, y: real)
    requires k < |xs| && q == PhaseAfter(p, delta, k)
    requires y == Sample(xs[k], depth, sin, q)
    ensures y == Outputs(p, xs, depth, delta, sin)[k]
  {
    OutputsAt(p, xs, depth, delta, sin, k);
  }

  /** The loop body's product of the input sample and the modulant. */
  lemma ProductIsSample(x: real, depth: real, sin: Sine, q: real, m: real)
    requires m == Modulant(depth, sin, q)
    ensures x * m == Sample(x, depth, sin, q)
  {
  }

  /** At progression 0 the sine vanishes, so full depth halves a sample. */
  lemma SampleAtZeroFullDepth(x: real, sin: Sine)
    requires IsSine(sin)
    ensures Sample(x, 1.0, sin, 0.0) == 0.5 * x
  {
    assert Modulant(1.0, sin, 0.0) == 0.5;
  }

  /** On a fresh instance (progression 0) with a zero rate the progression
      never moves off 0, so full depth halves every sample. */
  lemma FrozenFullDepthHalves(xs: seq<real>, sin: Sine)
    requires IsSine(sin)
    ensures forall k :: 0 <= k < |xs| ==> Outputs(0.0, xs, 1.0, 0.0, sin)[k] == 0.5 * xs[k]
  {
    var ys := Outputs(0.0, xs, 1.0, 0.0, sin);
    forall k | 0 <= k < |xs|
      ensures ys[k] == 0.5 * xs[k]
    {
      OutputsAt(0.0, xs, 1.0, 0.0, sin, k);
      PhaseFrozen(0.0, k);
      SampleAtZeroFullDepth(xs[k], sin);
    }
  }

  /** A tremolo instance: the port bindings, the LFO progression and the
      sampling rate. */
  class Tremolo {
    var rate: array?<real>
    var depth: array?<real>
    var input: array?<real>
    var output: array?<real>
    var progression: real
    const sampleRate: real

    function Ports(): TremoloPorts<array?<real>>
      reads this
    {
      TremoloPorts(rate, depth, input, output)
    }

    /** The caller's side of `run`: every port bound to memory of the
        needed size. */
    predicate Connected(n: nat)
      reads this
    {
      rate != null && depth != null && input != null && output != null &&
      rate.Length >= 1 && depth.Length >= 1 && input.Length >= n && output.Length >= n
    }

    /** `instantiate`: the progression starts at 0 and the sampling rate is
        stored; the ports are unbound (the struct comes from `calloc`). */
    constructor (sr: real)
      requires sr > 0.0
      ensures sampleRate == sr && progression == 0.0
      ensures Ports() == TremoloPorts(null, null, null, null)
    {
      sampleRate := sr;
      progression := 0.0;
      rate, depth, input, output := null, null, null, null;
    }

    /** `connect_port`, with its fall-through. */
    method ConnectPort(port: nat, data: array?<real>)
      modifies this`rate, this`depth, this`input, this`output
      ensures Ports() == Connect(old(Ports()), port, data)
    {
      if port == RatePort {
        rate := data;
      } else if DepthPort <= port <= InputPort {
        if port == DepthPort {
          depth := data;
        }
        // no `break` after the depth case: it falls through to here
        input := data;
      } else if port == OutputPort {
        output := data;
      }
    }

    /** `activate` is empty: the progression carries over. */
    method Activate()
      ensures progression == old(progression)
    {
    }

    /** One pass of `run`'s loop body at index `pos`, progression `prog`:
        the input sample times the modulant goes to `output[pos]`. */
    method Tick(pos: nat, prog: real, depthValue: real, sin: Sine)
      requires input != null && output != null && pos < input.Length && pos < output.Length
      modifies output
      ensures output[pos] == Sample(old(input[pos]), depthValue, sin, prog)
      ensures forall k :: 0 <= k < output.Length && k != pos ==> output[k] == old(output[k])
    {
      var inputSample := input[pos];
      var modulant := Modulant(depthValue, sin, prog);
      ProductIsSample(inputSample, depthValue, sin, prog, modulant);
      output[pos] := inputSample * modulant;
    }

    /** `run`: reads the rate and depth cells once, scales every sample of
        the block by the gain at the current progression, advances a local
        progression, and stores it back once after the block. */
    method Run(n: nat, sin: Sine)
      requires Connected(n) && sampleRate > 0.0
      modifies this`progression, output
      ensures progression == PhaseAfter(old(progression), old(rate[0]) / sampleRate, n)
      ensures output[..n] == Outputs(old(progression), old(input[..n]), old(depth[0]), old(rate[0]) / sampleRate, sin)
      ensures output[n..] == old(output[n..])
      ensures input == output || input[..] == old(input[..])
    {
      var rateValue := rate[0];
      var depthValue := depth[0];
      Process(n, rateValue / sampleRate, depthValue, sin);
    }

    /** `run`'s loop over the block with the control values already read:
        the progression is advanced in a local and stored back once. */
    method Process(n: nat, delta: real, depthValue: real, sin: Sine)
      requires input != null && output != null && n <= input.Length && n <= output.Length
      modifies this`progression, output
      ensures progression == PhaseAfter(old(progression), delta, n)
      ensures output[..n] == Outputs(old(progression), old(input[..n]), depthValue, delta, sin)
      ensures output[n..] == old(output[n..])
      ensures input == output || input[..] == old(input[..])
    {
      var prog := progression;
      ghost var p0 := progression;
      ghost var xs := input[..n];
      ghost var ys := Outputs(p0, xs, depthValue, delta, sin);
      var pos := 0;
      while pos < n
        invariant 0 <= pos <= n
        invariant prog == PhaseAfter(p0, delta, pos)
        invariant forall k :: 0 <= k < pos ==> output[k] == ys[k]
        invariant forall k :: pos <= k < output.Length ==> output[k] == old(output[k])
        invariant input != output ==> forall k :: 0 <= k < input.Length ==> input[k] == old(input[k])
      {
        assert input[pos] == xs[pos];
        Tick(pos, prog, depthValue, sin);
        OutputIsSpecified(p0, xs, depthValue, delta, sin, pos, prog, output[pos]);
        prog := AdvancePhase(prog, delta);
        pos := pos + 1;
      }
      progression := prog;
      assert output[..n] == ys;
      assert input != output ==> input[..] == old(input[..]);
    }
  }
}
