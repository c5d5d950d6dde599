# Simple LV2 effects: echo, flanger and tremolo

This project models the signal-processing core of three LV2 audio plugins
(`simple-echo`, `simple-flanger` and `simple-tremolo`) and proves properties
of that model.

- `delayline.dfy` (`DelayLine`): ring-buffer arithmetic shared by the echo and
  the flanger.
  - The read-head correction (`Wrap`) and the write-head advance (`NextHead`)
    follow the C code.
  - The buffer contents are a function `Ring` of every sample pushed since
    instantiation.
  - `RingRead` proves that a read `offset` slots behind the write head returns
    the sample pushed `offset` steps ago, or the initial zero.
- `phase.dfy` (`Phase`): the LFO progression, advanced by
  `delta = rate / sample_rate` and pulled back by one when it exceeds one.
  `sinf` is a function parameter `sin`, and `IsSine` states the two facts the
  plugins need: it vanishes at 0 and is bounded by 1.
- `binding.dfy` (`Binding`): the last-write-wins reading of a sequence of
  `connect_port` calls.
- `echo.dfy` (`SimpleEcho`), `flanger.dfy` (`SimpleFlanger`) and `tremolo.dfy`
  (`SimpleTremolo`) each have two parts.
  - **Pure part.** The port-binding function, written with its `switch`
    fall-through exactly as in the C code, and the per-sample formulas. It
    also has a block specification:
    - `Extend` for the echo: the history of outputs;
    - `Outputs` for the flanger and the tremolo: the outputs of a block.
  - **Imperative part.** A class with the plugin struct's fields. Its methods
    are `constructor` (for `instantiate`), `ConnectPort`, `Activate` and
    `Run`; `Run` loops over the block and writes `output[pos]` in place. Each
    `Run` is proved against the block specification.

The ports are modelled as `array?<real>`: `null` until connected, read at
`[0]` for a control port, and indexed by `pos` for audio.

The echo and the flanger keep a ghost `history`:
- for the echo, every output sample written to the ring;
- for the flanger, every input sample.

Their class invariant is `buffer[..] == Ring(history, size)` with
`writeHead == |history| % size`. The tremolo has no buffer. Its `Run` keeps
the progression in a local and stores it back once, after the block.

Points where the model must choose a reading:
- **Echo delay length.** The echo delay length is truncated, not rounded: the
  code takes `(unsigned int)` of `delay * rate`, with at least one sample.
  The model follows the code (`DelayLength`).
- **Flanger buffer size.** The flanger sizes its buffer as
  `1 + sr * 30 * 10 / 1000` samples (300 ms), although the longest sweep needs
  only 40 ms. The model keeps the formula as written. `TapsFit` shows it is
  large enough from 10/3 Hz up.
- **Fall-through.** The fall-through in every `connect_port` is modelled as
  written.
  - Binding in ascending port order gives every field its own data
    (`AscendingOrderBindsAll`).
  - Other orders alias `input` to a control cell (`FeedbackAfterInputAliases`,
    `DepthLastAliases`, `MixAfterInputAliases`, `DepthAfterInputAliases`).

## Model

| member | source | states |
|---|---|---|
| `DelayLine.Wrap` | simple-echo/echo.c:174-177 | a read index less than one lap behind ends up in `[0, size)` after the single `+ size` correction; a non-negative index is left alone |
| `DelayLine.WrapIsMod` | simple-flanger/flanger.c:201-205 | for indices within one lap, the single correction is the index modulo the buffer size |
| `DelayLine.NextHead` | simple-echo/echo.c:181-184 | the write head stays in `[0, size)` and returns to 0 exactly after the last slot |
| `DelayLine.NextHeadCounts` | simple-flanger/flanger.c:215-218 | a write head started at 0 and advanced once per sample sits at the sample count modulo the size |
| `DelayLine.ReadIndexCounts` | simple-echo/echo.c:174-177 | reading `offset` slots behind a write head at `k mod size` addresses slot `(k - offset) mod size`, inside the buffer |
| `DelayLine.Ring` | simple-echo/echo.c:97-98 | the zero-filled buffer of the given size, as the pushed samples leave it |
| `DelayLine.RingPush` | simple-echo/echo.c:180 | writing one sample at the write head changes exactly the slot at the history length modulo the size |
| `DelayLine.RingRead` | simple-echo/echo.c:178 | the slot `offset` (at most one lap) behind the write head holds the sample pushed `offset` steps ago, or 0 if fewer were pushed |
| `Phase.PhaseAfter` | simple-flanger/flanger.c:188-191 | the progression after `k` passes of the advance-and-wrap step at one constant step; it has no contract of its own, and `PhaseStaysInUnit`, `PhaseFrozen` and `PhaseAfterAdd` characterise it |
| `Phase.AdvancePhase` | simple-tremolo/tremolo.c:179-182 | a progression and a step in `[0, 1]` give a progression in `[0, 1]`; a zero step changes nothing; exceeding 1 needs an out-of-range input |
| `Phase.PhaseStaysInUnit` | simple-flanger/flanger.c:188-191 | a progression that starts in `[0, 1]` stays there after any number of steps with `0 <= delta <= 1`, 1.0 included |
| `Phase.PhaseFrozen` | simple-tremolo/tremolo.c:172-182 | a zero rate (`delta = 0`) never moves the progression |
| `Phase.PhaseAfterAdd` | simple-tremolo/tremolo.c:169-184 | `a` steps and then `b` steps from the stored progression are `a + b` steps: nothing is lost between blocks |
| `Binding.LastDataAt` | simple-echo/echo.c:118-130 | the last call to a group of ports decides the field those ports write |
| `SimpleEcho.Connect` | simple-echo/echo.c:118-130 | delay and output ports set only their own field; the feedback port sets both feedback and input; input sets input; any other index changes nothing |
| `SimpleEcho.BindAllFields` | simple-echo/echo.c:118-130 | after any sequence of calls, `input` holds the data of the last feedback-or-input call and every other field the last call to its own port |
| `SimpleEcho.AscendingBindsOwnPort` | simple-echo/echo.c:118-130 | when port indices strictly ascend, each call's data is what its own field ends up holding |
| `SimpleEcho.AscendingOrderBindsAll` | simple-echo/echo.c:118-130 | connecting ports 0, 1, 2, 3 in that order binds every field to its own data |
| `SimpleEcho.FeedbackAfterInputAliases` | simple-echo/echo.c:122-126 | connecting feedback after input leaves `input` pointing at the feedback cell |
| `SimpleEcho.BufferSize` | simple-echo/echo.c:96 | the buffer size is `rate * 1 s + 1` truncated, hence at least 1 |
| `SimpleEcho.DelayLength` | simple-echo/echo.c:169-170 | the delay length is at least 1; it is `delay * rate` truncated when that exceeds 1, and 1 otherwise |
| `SimpleEcho.DelayFits` | simple-echo/echo.c:169-177 | a delay in `[0, 1 s]` fits the buffer; from 1 Hz up it is less than one lap, so the corrected read head is in range and differs from the write head |
| `SimpleEcho.FeedbackSum` | simple-echo/echo.c:179 | zero feedback, or a zero delayed sample, gives the input sample unchanged |
| `SimpleEcho.Extend` | simple-echo/echo.c:172-186 | a block appends exactly one output per input to the history and keeps the old history as a prefix |
| `SimpleEcho.Recurrence` | simple-echo/echo.c:178-180 | every output is `y[t] = x[t] + fb * y[t - len]`, with `y[t - len]` zero before `len` outputs exist |
| `SimpleEcho.ExtendSplit` | simple-echo/echo.c:172-186 | one block of `xs ++ ys` leaves the same history as a block `xs` followed by a block `ys` |
| `SimpleEcho.NoFeedbackIsIdentity` | simple-echo/echo.c:179 | with zero feedback the echo passes its input through unchanged |
| `SimpleEcho.ImpulseResponse` | simple-echo/echo.c:172-186 | a unit impulse into a fresh echo repeats every `len` samples with one more factor `fb` each time and is silent in between |
| `SimpleEcho.ExtendPrefix` | simple-echo/echo.c:172-186 | the history after the first `k` inputs of a block is a prefix of the history after the whole block |
| `SimpleEcho.ExtendAt` | simple-echo/echo.c:173-180 | output `k` of a block is input `k` plus the feedback times the output `len` samples earlier in the history so far |
| `SimpleEcho.Echo.constructor` | simple-echo/echo.c:94-98 | a fresh zero-filled buffer of `BufferSize(rate)` slots, write head 0, empty history, no ports bound |
| `SimpleEcho.Echo.ConnectPort` | simple-echo/echo.c:118-130 | the bound ports become `Connect` of the previous bindings, fall-through included |
| `SimpleEcho.Echo.Activate` | simple-echo/echo.c:142-145 | nothing is reset: write head and history carry over |
| `SimpleEcho.Echo.Tick` | simple-echo/echo.c:173-185 | one loop pass appends `input + fb * (output len samples ago)` to the ring and writes it to `output[pos]` alone, keeping the ring invariant |
| `SimpleEcho.Echo.Run` | simple-echo/echo.c:157-186 | the history becomes `Extend` of the old history over `input[..n]` with the feedback and delay cells read once; `output[..n]` is the new part of the history; `output[n..]` is untouched, and so is `input` unless it is the output buffer |
| `SimpleFlanger.Connect` | simple-flanger/flanger.c:118-132 | depth sets depth, mix and input; mix sets mix and input; rate, input and output set only their own field; other indices change nothing |
| `SimpleFlanger.BindAllFields` | simple-flanger/flanger.c:118-132 | after any calls, `mix` follows the last depth-or-mix call, `input` the last depth-mix-or-input call, every other field its own port |
| `SimpleFlanger.AscendingBindsOwnPort` | simple-flanger/flanger.c:118-132 | when port indices strictly ascend, each call's data is what its own field ends up holding |
| `SimpleFlanger.AscendingOrderBindsAll` | simple-flanger/flanger.c:118-132 | connecting ports 0 to 4 in order binds every field to its own data |
| `SimpleFlanger.DepthLastAliases` | simple-flanger/flanger.c:122-127 | connecting depth after mix and input leaves all three pointing at the depth cell |
| `SimpleFlanger.MixAfterInputAliases` | simple-flanger/flanger.c:124-127 | connecting mix after input leaves `input` pointing at the mix cell |
| `SimpleFlanger.BufferSize` | simple-flanger/flanger.c:95-96 | the buffer size is `1 + sr * 30 * 10 / 1000` truncated, hence at least 1 |
| `SimpleFlanger.Modulant` | simple-flanger/flanger.c:186-187 | the unipolar LFO value lies in `[0, 1]` and is 0.5 at progression 0 |
| `SimpleFlanger.DelayInSamples` | simple-flanger/flanger.c:193-195 | with zero depth the delay is the 10 ms base delay in samples |
| `SimpleFlanger.DelayRange` | simple-flanger/flanger.c:193-195 | a non-negative depth keeps the delay at least 10 ms; a depth of at most 1 keeps it at most 40 ms |
| `SimpleFlanger.Split` | simple-flanger/flanger.c:199 | `modff`: the two parts sum to the delay; for a non-negative delay the integral part is non-negative and the fraction in `[0, 1)`; for a negative delay both are non-positive |
| `SimpleFlanger.ReadHeads` | simple-flanger/flanger.c:201-205 | from a write head in range and an integral delay of at most one lap, both read heads land inside the buffer |
| `SimpleFlanger.ReadHeadsMod` | simple-flanger/flanger.c:201-205 | the read heads are the slots `i` and `i + 1` behind the write head, modulo the size |
| `SimpleFlanger.Interpolate` | simple-flanger/flanger.c:209-210 | a zero fraction gives `sample_a` |
| `SimpleFlanger.InterpolateBetween` | simple-flanger/flanger.c:209-210 | with a fraction in `[0, 1]` the interpolated sample lies between the two taps |
| `SimpleFlanger.Mix` | simple-flanger/flanger.c:212-213 | `mix = 0` gives half the dry sample, `mix = 1` half the wet sample |
| `SimpleFlanger.Sample` | simple-flanger/flanger.c:183-213 | one loop pass: the input pushed into the ring, the modulant, the swept delay, its split, both taps, the interpolation and the mix; it has no contract of its own, and `SampleReadsPast`, `ZeroDepthIgnoresPhase` and `OutputsAt` characterise it |
| `SimpleFlanger.Outputs` | simple-flanger/flanger.c:182-223 | a block gives exactly one output per input |
| `SimpleFlanger.SafeDepthBounds` | simple-flanger/flanger.c:193-195 | the safe depths, those whose delay stays between 0 and the 300 ms the buffer holds for every LFO value, are exactly those from -1/3 to 29/3 |
| `SimpleFlanger.DelayInBuffer` | simple-flanger/flanger.c:193-195 | for any sampling rate, a safe depth and an LFO value in `[0, 1]`, the swept delay lies between 0 and the 300 ms of samples the buffer is sized for |
| `SimpleFlanger.TapsInRange` | simple-flanger/flanger.c:193-205 | for any sampling rate and a safe depth, the integral delay is between 0 and the buffer size, so both corrected read heads are in range |
| `SimpleFlanger.TapsFit` | simple-flanger/flanger.c:95-96 | from 10/3 Hz up, with a depth in `[0, 1]`, the integral delay plus 2 is at most the buffer size, so the two taps reach back less than a full lap |
| `SimpleFlanger.SingleSlotBelow` | simple-flanger/flanger.c:95-96 | below 10/3 Hz the buffer has a single slot, so the bound of `TapsFit` is the lowest possible |
| `SimpleFlanger.TapsSkipNewest` | simple-flanger/flanger.c:193-205 | from 100 Hz up, with a depth in `[0, 1]`, the integral delay is at least 1 |
| `SimpleFlanger.TapsMissWriteHead` | simple-flanger/flanger.c:193-205 | from 100 Hz up, with a depth in `[0, 1]` and the write head in the buffer, neither read head is the write head, so neither tap reads the sample written in the same pass |
| `SimpleFlanger.WideDepthReadsNewest` | simple-flanger/flanger.c:193-205 | at 1001 Hz, the safe depth 29/3 and the top of the sweep, the delay is 300.3 samples in a 301-slot buffer, and the second read head is the write head, so the history lemmas need a depth in `[0, 1]` |
| `SimpleFlanger.TapsArePast` | simple-flanger/flanger.c:201-208 | the two taps read the inputs `i` and `i + 1` samples before the current one (0 before the first input) |
| `SimpleFlanger.SampleReadsPast` | simple-flanger/flanger.c:182-219 | from 10/3 Hz up, with a depth in `[0, 1]`, each output mixes the current input with the input history interpolated `d` samples back, `d` being the swept delay |
| `SimpleFlanger.ZeroDepthIgnoresPhase` | simple-flanger/flanger.c:186-195 | with zero depth the output does not depend on the progression, hence not on the rate |
| `SimpleFlanger.ZeroDepthIgnoresRate` | simple-flanger/flanger.c:178-223 | with zero depth a whole block's outputs are the same whatever progression it starts from and whatever the rate |
| `SimpleFlanger.OutputsReadPast` | simple-flanger/flanger.c:182-223 | from 10/3 Hz up, with a depth in `[0, 1]`, output `k` of a block mixes input `k` with the inputs `i + 1` and `i + 2` samples back interpolated by `f`, where `i + f` is the delay swept at the progression after `k` advances |
| `SimpleFlanger.OutputsAt` | simple-flanger/flanger.c:182-223 | output `k` of a block sees the inputs up to `xs[k]` and the progression after `k` advances |
| `SimpleFlanger.OutputsSplit` | simple-flanger/flanger.c:178-220 | one block of `xs ++ ys` gives the same outputs as a block `xs` then a block `ys` started from the history and progression the first one left |
| `SimpleFlanger.OutputsStep` | simple-flanger/flanger.c:182-223 | one more input extends both the one-block outputs and the second block's outputs by the same sample |
| `SimpleFlanger.OutputsSnoc` | simple-flanger/flanger.c:182-223 | one more input appends exactly one output, computed from the whole history and the progression after one advance per earlier input |
| `SimpleFlanger.OutputIsSpecified` | simple-flanger/flanger.c:182-223 | a sample computed from the history and progression reached at index `k` is the block's specified output `k` |
| `SimpleFlanger.Flanger.constructor` | simple-flanger/flanger.c:93-98 | a fresh zero-filled buffer of `BufferSize(sr)` slots, write head and progression 0, no ports bound |
| `SimpleFlanger.Flanger.ConnectPort` | simple-flanger/flanger.c:118-132 | the bound ports become `Connect` of the previous bindings, both fall-throughs included |
| `SimpleFlanger.Flanger.Activate` | simple-flanger/flanger.c:144-147 | nothing is reset: write head, progression and history carry over |
| `SimpleFlanger.Flanger.Tick` | simple-flanger/flanger.c:183-220 | one loop pass pushes the input into the ring, writes the specified sample to `output[pos]` alone, and stores the advanced progression in the instance |
| `SimpleFlanger.Flanger.Step` | simple-flanger/flanger.c:182-223 | the loop pass at `pos` writes the block's specified output `pos` and moves history and progression one step on |
| `SimpleFlanger.Flanger.Run` | simple-flanger/flanger.c:164-224 | with the rate, depth and mix cells read once and a safe depth, `output[..n]` is `Outputs` of the block; the history gains `input[..n]`; the stored progression is `n` steps on; other memory is untouched |
| `SimpleFlanger.Flanger.Process` | simple-flanger/flanger.c:178-223 | the loop over the block, with the same promise as `Run` for given control values |
| `SimpleTremolo.Connect` | simple-tremolo/tremolo.c:114-126 | depth sets depth and input; rate, input and output set only their own field; other indices change nothing |
| `SimpleTremolo.BindAllFields` | simple-tremolo/tremolo.c:114-126 | after any calls, `input` follows the last depth-or-input call and every other field its own port |
| `SimpleTremolo.AscendingBindsOwnPort` | simple-tremolo/tremolo.c:114-126 | when port indices strictly ascend, each call's data is what its own field ends up holding |
| `SimpleTremolo.AscendingOrderBindsAll` | simple-tremolo/tremolo.c:114-126 | connecting ports 0, 1, 2, 3 in order binds every field to its own data |
| `SimpleTremolo.DepthAfterInputAliases` | simple-tremolo/tremolo.c:118-122 | connecting depth after input leaves `input` pointing at the depth cell |
| `SimpleTremolo.Modulant` | simple-tremolo/tremolo.c:176-177 | zero depth gives gain 1; at progression 0 the gain is `1 - depth / 2` |
| `SimpleTremolo.ModulantRange` | simple-tremolo/tremolo.c:176-177 | a non-negative depth keeps the gain in `[1 - depth, 1]`, so a depth of at most 1 never makes it negative |
| `SimpleTremolo.Sample` | simple-tremolo/tremolo.c:178 | one output sample, the input times the modulant; it has no contract of its own, and `SampleBetween`, `SampleAtZeroFullDepth` and `OutputsAt` characterise it |
| `SimpleTremolo.Outputs` | simple-tremolo/tremolo.c:174-183 | a block gives exactly one output per input |
| `SimpleTremolo.OutputsAt` | simple-tremolo/tremolo.c:174-182 | output `k` depends only on input `k`, the depth and the progression after `k` advances |
| `SimpleTremolo.OutputsSplit` | simple-tremolo/tremolo.c:169-184 | one block of `xs ++ ys` gives the same outputs and final progression as a block `xs` then a block `ys` from the stored progression |
| `SimpleTremolo.OutputsSnoc` | simple-tremolo/tremolo.c:174-183 | one more input appends exactly one output, scaled by the gain at the progression after one advance per earlier input |
| `SimpleTremolo.ZeroDepthIsIdentity` | simple-tremolo/tremolo.c:176-178 | zero depth makes every output equal its input, whatever the rate |
| `SimpleTremolo.SampleBetween` | simple-tremolo/tremolo.c:176-178 | with a depth in `[0, 1]` a sample keeps its sign and lies between `(1 - depth)` times the input and the input |
| `SimpleTremolo.Attenuates` | simple-tremolo/tremolo.c:174-183 | for a whole block with a depth in `[0, 1]`, every output is such an attenuated copy of the input at the same index |
| `SimpleTremolo.OutputIsSpecified` | simple-tremolo/tremolo.c:175-178 | input `k` times the gain at the progression after `k` advances is the block's specified output `k` |
| `SimpleTremolo.SampleAtZeroFullDepth` | simple-tremolo/tremolo.c:176-178 | at progression 0 the sine vanishes, so full depth halves a sample |
| `SimpleTremolo.FrozenFullDepthHalves` | simple-tremolo/tremolo.c:172-182 | from progression 0 with a zero rate and full depth, every output is half its input |
| `SimpleTremolo.Tremolo.constructor` | simple-tremolo/tremolo.c:91-93 | progression 0, the sampling rate stored, no ports bound |
| `SimpleTremolo.Tremolo.ConnectPort` | simple-tremolo/tremolo.c:114-126 | the bound ports become `Connect` of the previous bindings, fall-through included |
| `SimpleTremolo.Tremolo.Activate` | simple-tremolo/tremolo.c:138-141 | nothing is reset: the progression carries over |
| `SimpleTremolo.Tremolo.Tick` | simple-tremolo/tremolo.c:175-178 | one loop pass writes input sample times gain to `output[pos]` and changes no other output |
| `SimpleTremolo.Tremolo.Run` | simple-tremolo/tremolo.c:158-185 | with the rate and depth cells read once, `output[..n]` is `Outputs` of the block; the stored progression is `n` steps on; `output[n..]`, and `input` unless it is the output buffer, are untouched |
| `SimpleTremolo.Tremolo.Process` | simple-tremolo/tremolo.c:169-184 | the loop with a local progression stored back once after the block, with the same promise as `Run` for given control values |

## Left out

- Host glue is not part of this model: `lv2_descriptor`, the descriptor table, `extension_data` and the plugin URIs.
- `cleanup` is not modelled. It only frees memory. Allocation failure in `instantiate` is not modelled.
- `deactivate` is empty in all three plugins and is not modelled. `activate` is empty too; it is modelled as a method that changes nothing.
- `sinf` is not modelled. It becomes the parameter `sin`, constrained only by `IsSine`: it vanishes at 0 and is bounded by 1. No property depends on its other values.
- Floating-point rounding is not modelled. Samples, gains and the progression are exact reals. `float` against `double` conversion is not modelled either.
- Integer edge cases of the casts are not modelled. A truncating cast of a non-negative value is `Floor`, and `modff` is `Split`. The `unsigned int` underflow of `write_head - delay_in_sample` is modelled as a signed difference, which is what the following `< 0` test relies on.
- Wrap-around stability of the progression under float drift is not modelled. The progression is exact here.
- The `DB_CO` macro and the `MAX_DELAY_IN_SAMPLE`/`DELAY_BUFFER_SIZE` macros are never used and are not modelled. Neither is the echo's `read_head` field.
- Threading classes and real-time safety are host guarantees, not logic. No `Run` allocates.
- SimpleEcho.Echo.Run: requires the delay length to be at most the buffer size (`floor(rate) + 1` samples). Beyond that the C read head stays negative, which reads outside the buffer, whenever the write head is below the delay length minus the size. The blocks of such a delay that happen to stay in bounds are not modelled. `DelayFits` shows that every delay in `[0, 1 s]` meets the requirement.
- SimpleFlanger.Flanger.Run: requires a safe depth, from -1/3 to 29/3 (`SafeDepth`), the range in which the swept delay stays between 0 and the 300 ms the buffer holds for every LFO value. The plugin's own depth range `[0, 1]` lies inside it. Outside it the C read heads can still be in range, depending on the write head and the LFO value. That remainder is not modelled.
- SimpleFlanger.TapsSkipNewest: needs a sampling rate of at least 100 Hz, and so does `TapsMissWriteHead`. Below that the first tap can read the sample written in the same pass: at 50 Hz with zero depth the delay is 0.5 samples, so `i` is 0 and the read head equals the write head.
- SimpleFlanger.TapsFit: needs a sampling rate of at least 10/3 Hz and a depth in `[0, 1]`. Below 10/3 Hz the buffer has a single slot (`SingleSlotBelow`). For a safe depth above 1 the taps can reach a full lap back (`WideDepthReadsNewest`: at 1001 Hz and depth 29/3 the delay is 300.3 samples in a 301-slot buffer, so the second tap reads the sample just written, not the input 302 samples back).
- SimpleFlanger.SampleReadsPast: the reading of each output as a fractional delay over the input history needs a sampling rate of at least 10/3 Hz and a depth in `[0, 1]`, narrower than the safe depths `Run` accepts. Below 10/3 Hz the buffer is a single slot. Above depth 1 the second tap can read the sample just written instead of the input one lap back: at 1001 Hz, depth 29/3 and the top of the sweep (`WideDepthReadsNewest`). `Run` itself is specified through the ring for every positive sampling rate and every safe depth.
- SimpleFlanger.OutputsReadPast: the block form of `SampleReadsPast`, with the same bounds: a sampling rate of at least 10/3 Hz and a depth in `[0, 1]`, for the same reasons.
- SimpleEcho.DelayFits: the read slot differs from the write slot only from 1 Hz up. Below that the buffer has one slot and both heads are 0.
- Proof structure: the flanger's loop body is split into `Tick`, `Step` and `Process`, and the tremolo's into `Tick` and `Process`, only to keep each proof small. Together they do what the single C loop does, with the same effect: the flanger's `Tick` stores the progression before it reads the taps and writes the output before it wraps the write head, which the C loop does in another order without any observable difference.
