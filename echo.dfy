/** simple-echo: a feedback delay whose ring buffer stores the effect's own
    output, so every repeat is fed back into the line. */
module SimpleEcho {
  import opened DelayLine
  import opened Binding

  // Port indices, in the order of the plugin's `PortIndex` enumeration.
  const DelayPort: nat := 0
  const FeedbackPort: nat := 1
  const InputPort: nat := 2
  const OutputPort: nat := 3

  /** The longest delay, in seconds, the buffer is sized for. */
  const MaxDelayInSec: real := 1.0

  /** The four port bindings of an echo instance. */
  datatype EchoPorts<P> = EchoPorts(delay: P, feedback: P, input: P, output: P)

  /** `connect_port`: the feedback case has no `break`, so it also rebinds
      `input`; a port index outside the enumeration changes nothing. */
  function Connect<P>(p: EchoPorts<P>, port: nat, data: P): (r: EchoPorts<P>)
    ensures r.delay == (if port == DelayPort then data else p.delay)
    ensures r.feedback == (if port == FeedbackPort then data else p.feedback)
    ensures r.input == (if port == FeedbackPort || port == InputPort then data else p.input)
    ensures r.output == (if port == OutputPort then data else p.output)
  {
    if port == DelayPort then p.(delay := data)
    else if port == FeedbackPort || port == InputPort then
      // the feedback case falls through into the input case
      (if port == FeedbackPort then p.(feedback := data) else p).(input := data)
    else if port == OutputPort then p.(output := data)
    else p
  }

  /** The bindings after a sequence of `connect_port` calls, oldest first. */
  function BindAll<P>(p: EchoPorts<P>, bs: Calls<P>): EchoPorts<P>
    decreases |bs|
  {
    if bs == [] then p
    else Connect(BindAll(p, bs[..|bs| - 1]), bs[|bs| - 1].0, bs[|bs| - 1].1)
  }

  /** After any sequence of calls, `input` holds the data of the last call
      to the feedback or the input port; every other field that of the last
      call to its own port. */
  lemma {:induction false} BindAllFields<P>(p: EchoPorts<P>, bs: Calls<P>)
    ensures BindAll(p, bs) == EchoPorts(
      LastData(bs, {DelayPort}, p.delay),
      LastData(bs, {FeedbackPort}, p.feedback),
      LastData(bs, {FeedbackPort, InputPort}, p.input),
      LastData(bs, {OutputPort}, p.output))
    decreases |bs|
  {
    if bs != [] {
      BindAllFields(p, bs[..|bs| - 1]);
    }
  }

  /** Binding ports in ascending index order leaves every field bound to the
      data given for its own port, despite the fall-through. */
  lemma AscendingBindsOwnPort<P>(p: EchoPorts<P>, bs: Calls<P>, j: nat)
    requires Ascending(bs) && j < |bs|
    ensures bs[j].0 == DelayPort ==> BindAll(p, bs).delay == bs[j].1
    ensures bs[j].0 == FeedbackPort ==> BindAll(p, bs).feedback == bs[j].1
    ensures bs[j].0 == InputPort ==> BindAll(p, bs).input == bs[j].1
    ensures bs[j].0 == OutputPort ==> BindAll(p, bs).output == bs[j].1
  {
    BindAllFields(p, bs);
    var k := bs[j].0;
    if k == DelayPort || k == FeedbackPort || k == OutputPort {
      LastDataAt(bs, {k}, p.delay, j);
      LastDataAt(bs, {k}, p.feedback, j);
      LastDataAt(bs, {k}, p.output, j);
    } else if k == InputPort {
      LastDataAt(bs, {FeedbackPort, InputPort}, p.input, j);
    }
  }

  /** The host's usual order, 0, 1, 2, 3, binds every field correctly. */
  lemma AscendingOrderBindsAll<P>(p: EchoPorts<P>, d: P, fb: P, x: P, y: P)
    ensures BindAll(p, [(DelayPort, d), (FeedbackPort, fb), (InputPort, x), (OutputPort, y)])
      == EchoPorts(d, fb, x, y)
  {
    var bs := [(DelayPort, d), (FeedbackPort, fb), (InputPort, x), (OutputPort, y)];
    AscendingBindsOwnPort(p, bs, 0);
    AscendingBindsOwnPort(p, bs, 1);
    AscendingBindsOwnPort(p, bs, 2);
    AscendingBindsOwnPort(p, bs, 3);
  }

  /** Binding the feedback port after the input port leaves `input`
      pointing at the feedback cell. */
  lemma FeedbackAfterInputAliases<P>(p: EchoPorts<P>, bs: Calls<P>, j: nat)
    requires j < |bs| && bs[j].0 == FeedbackPort
    requires forall i :: j < i < |bs| ==> bs[i].0 != FeedbackPort && bs[i].0 != InputPort
    ensures BindAll(p, bs).input == bs[j].1 == BindAll(p, bs).feedback
  {
    BindAllFields(p, bs);
    LastDataAt(bs, {FeedbackPort, InputPort}, p.input, j);
    LastDataAt(bs, {FeedbackPort}, p.feedback, j);
  }

  /** `delay_buffer_size = rate * MAX_DELAY_IN_SEC + 1`, truncated to an unsigned int. */
  function BufferSize(rate: real): (size: nat)
    requires rate >= 0.0
    ensures size >= 1
    ensures size as real <= rate * MaxDelayInSec + 1.0 < size as real + 1.0
  {
    (rate * MaxDelayInSec + 1.0).Floor
  }

  /** `delay_in_sample`: the delay time in samples, truncated towards zero,
      and never less than one. */
  function DelayLength(delay: real, rate: real): (len: nat)
    ensures len >= 1
    ensures delay * rate > 1.0 ==> len as real <= delay * rate < len as real + 1.0
    ensures delay * rate <= 1.0 ==> len == 1
  {
    if delay * rate > 1.0 then (delay * rate).Floor else 1
  }

  /** A delay within the design range fits the buffer: at most one lap for
      any rate, and strictly less than one lap once the rate is at least
      1 Hz, so the read slot is then never the slot about to be written. */
  lemma DelayFits(delay: real, rate: real, wh: nat)
    requires 0.0 <= delay <= MaxDelayInSec && rate >= 0.0
    ensures DelayLength(delay, rate) <= BufferSize(rate)
    ensures rate >= 1.0 ==> DelayLength(delay, rate) <= BufferSize(rate) - 1
    ensures rate >= 1.0 && wh < BufferSize(rate) ==>
      var readHead := Wrap(wh - DelayLength(delay, rate), BufferSize(rate));
      0 <= readHead < BufferSize(rate) && readHead != wh
  {
    assert delay * rate <= rate by {
      assert (MaxDelayInSec - delay) * rate >= 0.0;
    }
  }

  /** The per-sample rule: the input plus the feedback gain times the sample read from the ring. */
  function FeedbackSum(x: real, fb: real, delayed: real): (y: real)
    ensures fb == 0.0 ==> y == x
    ensures delayed == 0.0 ==> y == x
  {
    x + fb * delayed
  }

  /** The output history after the echo processes `xs` with feedback gain
      `fb` and delay `len`, starting from output history `h`: each output is
      the input plus `fb` times the output produced `len` samples earlier. */
  function Extend(h: seq<real>, xs: seq<real>, fb: real, len: nat): (r: seq<real>)
    ensures |r| == |h| + |xs| && r[..|h|] == h
    decreases |xs|
  {
    if xs == [] then h
    else
      var prev := Extend(h, xs[..|xs| - 1], fb, len);
      prev + [FeedbackSum(xs[|xs| - 1], fb, Past(prev, len))]
  }

  /** The recurrence `y[t] = x[t] + fb * y[t - len]`, with `y[t - len]`
      read as zero before `len` outputs exist. */
  lemma {:induction false} Recurrence(h: seq<real>, xs: seq<real>, fb: real, len: nat, k: nat)
    requires len >= 1 && k < |xs|
    ensures var r := Extend(h, xs, fb, len);
      r[|h| + k] == xs[k] + fb * (if len <= |h| + k then r[|h| + k - len] else 0.0)
    decreases |xs|
  {
    assert xs != [];
    var r := Extend(h, xs, fb, len);
    var prev := Extend(h, xs[..|xs| - 1], fb, len);
    assert r == prev + [FeedbackSum(xs[|xs| - 1], fb, Past(prev, len))];
    if k < |xs| - 1 {
      Recurrence(h, xs[..|xs| - 1], fb, len, k);
      assert r[..|prev|] == prev;
    }
  }

  /** Processing `xs ++ ys` in one block or in two consecutive blocks gives
      the same history, hence the same outputs, buffer and write head. */
  lemma {:induction false} ExtendSplit(h: seq<real>, xs: seq<real>, ys: seq<real>, fb: real, len: nat)
    ensures Extend(h, xs + ys, fb, len) == Extend(Extend(h, xs, fb, len), ys, fb, len)
    decreases |ys|
  {
    if ys != [] {
      var zs := xs + ys;
      assert zs != [];
      assert zs[..|zs| - 1] == xs + ys[..|ys| - 1];
      assert zs[|zs| - 1] == ys[|ys| - 1];
      ExtendSplit(h, xs, ys[..|ys| - 1], fb, len);
      var prev := Extend(Extend(h, xs, fb, len), ys[..|ys| - 1], fb, len);
      assert Extend(h, zs[..|zs| - 1], fb, len) == prev;
      assert Extend(h, zs, fb, len) == prev + [FeedbackSum(ys[|ys| - 1], fb, Past(prev, len))];
    } else {
      assert xs + ys == xs;
    }
  }

  /** With zero feedback the echo passes its input through unchanged. */
  lemma {:induction false} NoFeedbackIsIdentity(h: seq<real>, xs: seq<real>, len: nat)
    ensures Extend(h, xs, 0.0, len) == h + xs
    decreases |xs|
  {
    if xs != [] {
      NoFeedbackIsIdentity(h, xs[..|xs| - 1], len);
      assert xs == xs[..|xs| - 1] + [xs[|xs| - 1]];
    }
  }

  /** `b` raised to the power `e`, the gain of the `e`-th echo of an impulse. */
  function Pow(b: real, e: nat): real
  {
    if e == 0 then 1.0 else b * Pow(b, e - 1)
  }

  /** A unit impulse into a fresh echo repeats every `len` samples, scaled
      by one more factor of `fb` each time, and is silent in between. */
  lemma {:induction false} ImpulseResponse(xs: seq<real>, fb: real, len: nat, t: nat)
    requires len >= 1 && t < |xs|
    requires xs[0] == 1.0 && forall i :: 0 < i < |xs| ==> xs[i] == 0.0
    ensures Extend([], xs, fb, len)[t] == if t % len == 0 then Pow(fb, t / len) else 0.0
    decreases t
  {
    Recurrence([], xs, fb, len, t);
    if t < len {
      ModOf(t, len, 0, t);
    } else {
      ImpulseResponse(xs, fb, len, t - len);
      ModOf(t - len, len, (t - len) / len, (t - len) % len);
      ModOf(t, len, (t - len) / len + 1, (t - len) % len);
    }
  }

  /** The history after the first `k` inputs of a block is a prefix of
      the history after the whole block. */
  lemma {:induction false} ExtendPrefix(h: seq<real>, xs: seq<real>, fb: real, len: nat, k: nat)
    requires k <= |xs|
    ensures Extend(h, xs, fb, len)[..|h| + k] == Extend(h, xs[..k], fb, len)
    decreases |xs|
  {
    if k == |xs| {
      assert xs[..k] == xs;
    } else {
      var init := xs[..|xs| - 1];
      ExtendPrefix(h, init, fb, len, k);
      assert init[..k] == xs[..k];
    }
  }

  /** Output `k` of a block is the `k`-th input plus `fb` times the output
      `len` samples earlier in the history the block extends. */
  lemma ExtendAt(h: seq<real>, xs: seq<real>, fb: real, len: nat, k: nat)
    requires k < |xs|
    ensures var r := Extend(h, xs, fb, len);
      r[..|h| + k + 1] == r[..|h| + k] + [FeedbackSum(xs[k], fb, Past(r[..|h| + k], len))]
  {
    ExtendPrefix(h, xs, fb, len, k);
    ExtendPrefix(h, xs, fb, len, k + 1);
    assert xs[..k + 1][..k] == xs[..k];
  }

  /** An echo instance: the port bindings, the zero-filled delay buffer, its
      write head, and the sample rate captured at instantiation. */
  class Echo {
    var delay: array?<real>
    var feedback: array?<real>
    var input: array?<real>
    var output: array?<real>
    const buffer: array<real>
    var writeHead: nat
    const rate: real
    /** Every output sample produced since instantiation, oldest first. */
    ghost var history: seq<real>

    function Ports(): EchoPorts<array?<real>>
      reads this
    {
      EchoPorts(delay, feedback, input, output)
    }

    /** The buffer is sized from the rate once, the write head sits at the
        number of samples processed modulo the size, and the buffer holds
        the output history laid out around the ring. */
    ghost predicate Valid()
      reads this, buffer
    {
      rate >= 0.0 && buffer.Length == BufferSize(rate) &&
      writeHead == |history| % buffer.Length &&
      buffer[..] == Ring(history, buffer.Length)
    }

    /** The caller's side of `run`: every port bound to memory of the needed
        size, and the audio ports distinct from the instance's own buffer. */
    predicate Connected(n: nat)
      reads this
    {
      delay != null && feedback != null && input != null && output != null &&
      delay.Length >= 1 && feedback.Length >= 1 && input.Length >= n && output.Length >= n &&
      input != buffer && output != buffer
    }

    /** `instantiate`: a zero-filled buffer of `BufferSize(rate)` samples and
        a write head at 0 (the struct comes from `calloc`). */
    constructor (rate: real)
      requires rate >= 0.0
      ensures Valid() && fresh(buffer)
      ensures this.rate == rate && history == [] && writeHead == 0
      ensures Ports() == EchoPorts(null, null, null, null)
    {
      this.rate := rate;
      buffer := new real[BufferSize(rate)](_ => 0.0);
      writeHead := 0;
      history := [];
      delay, feedback, input, output := null, null, null, null;
    }

    /** `connect_port`, with its fall-through from the feedback case. */
    method ConnectPort(port: nat, data: array?<real>)
      modifies this`delay, this`feedback, this`input, this`output
      ensures Ports() == Connect(old(Ports()), port, data)
    {
      if port == DelayPort {
        delay := data;
      } else if port == FeedbackPort || port == InputPort {
        if port == FeedbackPort {
          feedback := data;
        }
        // no `break` after the feedback case: it falls through to here
        input := data;
      } else if port == OutputPort {
        output := data;
      }
    }

    /** `activate` is empty: the write head and the buffer carry over. */
    method Activate()
      ensures writeHead == old(writeHead) && history == old(history)
    {
    }

    /** One pass of `run`'s loop body at index `pos`: read the ring `len`
        slots behind the write head, mix it into `input[pos]`, store the
        result at the write head and in `output[pos]`, and advance the write
        head. */
    method Tick(pos: nat, fb: real, len: nat)
      requires Valid() && 1 <= len <= buffer.Length
      requires input != null && output != null && input != buffer && output != buffer
      requires pos < input.Length && pos < output.Length
      modifies this`writeHead, this`history, buffer, output
      ensures Valid()
      ensures history == old(history) + [FeedbackSum(old(input[pos]), fb, Past(old(history), len))]
      ensures output[pos] == history[|history| - 1]
      ensures forall k :: 0 <= k < output.Length && k != pos ==> output[k] == old(output[k])
    {
      var size := buffer.Length;
      ReadIndexCounts(|history|, len, size);
      RingRead(history, size, len);
      var readHead := Wrap(writeHead - len, size);
      var delaySample := buffer[readHead];
      var y := FeedbackSum(input[pos], fb, delaySample);
      buffer[writeHead] := y;
      NextHeadCounts(|history|, size);
      writeHead := NextHead(writeHead, size);
      output[pos] := y;
      RingPush(history, y, size);
      history := history + [y];
    }

    /** `run`: reads the delay and feedback cells once, then processes the
        block sample by sample, writing each output to `output[pos]`. */
    method Run(n: nat)
      requires Valid() && Connected(n)
      requires DelayLength(delay[0], rate) <= buffer.Length
      modifies this`writeHead, this`history, buffer, output
      ensures Valid()
      ensures history == Extend(old(history), old(input[..n]), old(feedback[0]), DelayLength(old(delay[0]), rate))
      ensures output[..n] == history[|old(history)|..]
      ensures output[n..] == old(output[n..])
      ensures input == output || input[..] == old(input[..])
    {
      var delayValue := delay[0];
      var feedbackValue := feedback[0];
      var delayInSample := DelayLength(delayValue, rate);
      ghost var h0 := history;
      ghost var xs := input[..n];
      ghost var ys := Extend(h0, xs, feedbackValue, delayInSample);
      var pos := 0;
      while pos < n
        invariant 0 <= pos <= n
        invariant Valid()
        invariant history == ys[..|h0| + pos]
        invariant forall k :: 0 <= k < pos ==> output[k] == ys[|h0| + k]
        invariant forall k :: pos <= k < output.Length ==> output[k] == old(output[k])
        invariant input != output ==> forall k :: 0 <= k < input.Length ==> input[k] == old(input[k])
      {
        assert input[pos] == xs[pos];
        ExtendAt(h0, xs, feedbackValue, delayInSample, pos);
        Tick(pos, feedbackValue, delayInSample);
        pos := pos + 1;
      }
      assert ys[..|h0| + n] == ys;
      assert output[..n] == ys[|h0|..];
      assert input != output ==> input[..] == old(input[..]);
    }
  }
}
