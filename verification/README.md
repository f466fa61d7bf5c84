# Twiddle gain tuner and telemetry handler rules

This project models the PID gain tuner ("twiddle") of a self-driving-car
PID controller project, together with the pure rules of its telemetry
handler, and proves properties of the model in Dafny.

The tuner (`Twiddler`) keeps a list of PID controllers, three step sizes
per controller, per-round error accumulators and a coordinate-search
state. Each round, `updateError` absorbs the cross-track error samples.
At the end of the round, `twiddle` either stops (when the step sizes add
up to less than the tolerance) or takes one step of the search:

- probe the gain under the cursor upwards;
- if that does not help, probe downwards;
- keep the better setting, or restore the gain and shrink its step;
- move the round-robin cursor (`nextCoefficient`) on to the next gain.

The handler (`main.cpp`) contributes four pure rules:

- `hasData`, which cuts the JSON array out of a framed message;
- the steering clamp;
- the throttle floor;
- the message counter that gates tuning rounds.

Modules, one per part of the program:

- `Gains`: the gain triple of a controller, and the `switch` that adds a step to one gain.
- `Sweep`: the cursor and `nextCoefficient`, with the full-lap properties of the sweep.
- `StepSizes`: `dtSum` and how scaling one step moves the sum.
- `Twiddler`: the tuner state, the constructor, `updateError` and `twiddle`. The corrected `Twiddle` and the source's `TwiddleAsWritten` are both defined here.
- `Accumulate`: what a whole round of `updateError` calls leaves behind.
- `TwiddlePhases`: what one `twiddle` does in each phase, and how the source's controller copy-over compares with the intended probe.
- `Payload`: `hasData`, with `std::string`'s `find`, `find_first_of`, `find_last_of` and `substr`, and `size_t` wrap-around.
- `MessageLoop`: the per-message handler rules, and the tuner the program builds.

Doubles are modelled as `real`. The tuner is an immutable value, and every
operation returns the next state.

Three points of the code's behaviour deserve a note:

- **Probe step after a kept increase.** After a kept increase, the next
  coordinate is raised by its own step, `dts[dt_idx]` read after
  `nextCoefficient()` (src/Twiddler.cpp:102-115). The grown step of the
  coordinate just kept is not used for it. `TwiddlePhases.IncreaseKept`
  states this rule.
- **Convergence.** A converged `twiddle` returns early and leaves the
  accumulators as they are (src/Twiddler.cpp:45-57), and `Twiddler.Twiddle`
  returns the tuner unchanged. The handler still resets its counter and
  sends a reset.
- **Reference aliasing.** The code writes through a `PID&` bound before
  `nextCoefficient()` (src/Twiddler.cpp:71). After the cursor moves to
  another controller, that reference still refers to the previous one
  (see Findings). The model keeps both versions: the intended behaviour as
  `Twiddler.Twiddle`, and the written one as `Twiddler.TwiddleAsWritten`.
  The handler runs the written one.

## Model

| member | source | states |
|---|---|---|
| Gains.AddToGain | src/Twiddler.cpp:79-89 | index 0, 1 or 2 adds the step to Kp, Ki or Kd respectively, and every other gain is unchanged |
| Gains.Bump | src/Twiddler.cpp:71-89 | adding a step through the cursor changes exactly one gain of one controller, by exactly the step, and keeps the list length |
| Sweep.NextCoefficient | src/Twiddler.cpp:189-199 | the gain index stays below 3 and `dt_idx == 3*pid + gain` is re-established; a well-placed cursor stays well placed, and its flat index moves one place round the `3n` coordinates, wrapping to 0 |
| Sweep.AdvanceFlat | src/Twiddler.cpp:189-199 | within one lap, k moves take the flat index k places forward, wrapping once, and the cursor stays on a real coordinate |
| Sweep.SweepReturnsAfterFullLap | src/Twiddler.cpp:189-199 | no number of moves between 1 and `3n - 1` returns the cursor to where it was, and exactly `3n` moves do |
| Sweep.SweepReaches | src/Twiddler.cpp:189-199 | every coordinate of every controller is reached from any cursor in fewer than `3n` moves |
| StepSizes.DtSum | src/Twiddler.cpp:201-207 | the running-total loop computes the sum of all step sizes |
| StepSizes.SumUpdate | src/Twiddler.cpp:100 | replacing one step size changes the sum by exactly the difference |
| StepSizes.ScalingMovesSum | src/Twiddler.cpp:141-158 | scaling a non-negative step by 1.1 never lowers the sum, and scaling it by 0.9 never raises it |
| Twiddler.New | src/Twiddler.cpp:12-27 | construction fails, reporting expected and actual counts, exactly when there are not three step sizes per controller; otherwise both lists are stored unchanged, the accumulators are zero, and the cursor, phase and best error take the header's initial values (src/Twiddler.h:25-31) |
| Twiddler.UpdateError | src/Twiddler.cpp:32-39 | the total grows by the sample's magnitude, the count by one, and the maximum becomes the larger of itself and the magnitude; the search state is untouched |
| Twiddler.Abs | src/Twiddler.cpp:33 | `fabs` gives the magnitude: a non-negative value equal to the argument or its negation |
| Twiddler.MoveOn | src/Twiddler.cpp:102-115 | the cursor becomes `nextCoefficient()` of the old one. The controller written to is the new one for the intended step, and the old one under the copy-over. It receives the new controller's gains with the new coordinate raised by its own step. Every other controller, the step sizes, the best error and the phase are unchanged |
| Twiddler.Decide | src/Twiddler.cpp:71-179 | each branch of the phase switch keeps the tuner well formed and leaves it in a probing phase; past the baseline the best error never rises |
| Twiddler.DecideTransitions | src/Twiddler.cpp:74-179 | the state machine. Phase 0 takes the round's total as the best error, stays on its coordinate and goes to phase 1. An improvement in phase 1 or 2 becomes the best error, grows its step by a tenth, moves the cursor on and goes to phase 1. Phase 1 without improvement stays on its coordinate and goes to phase 2. Phase 2 without improvement shrinks the step by a tenth, moves on and goes to phase 1 |
| Twiddler.Round | src/Twiddler.cpp:45-186 | when the steps sum below the tolerance, the tuner is returned as it was, accumulators included; otherwise one step of the search is taken and the accumulators are zeroed. Tolerance and controller count are kept, and past the baseline the best error never rises |
| Twiddler.Twiddle | src/Twiddler.cpp:41-187 | a converged tuner is returned unchanged; otherwise the accumulators are cleared, the tuner is in a probing phase, and past the baseline the best error never rises; tolerance and controller count are kept |
| Twiddler.TwiddleAsWritten | src/Twiddler.cpp:71-178 | the source's `twiddle`, with the controller copy-over, keeps the same invariants: converged means unchanged, otherwise cleared accumulators and a non-increasing best error past the baseline |
| Accumulate.RoundTotals | src/Twiddler.cpp:32-39 | after a round of samples the total is the previous total plus the sum of their magnitudes, and the count has grown by their number; the maximum bounds every magnitude and is either the previous maximum or one of them |
| Accumulate.UpdateErrorCommutes | src/Twiddler.cpp:32-39 | two samples in either order leave the same tuner |
| Accumulate.OrderIrrelevant | src/Twiddler.cpp:32-39 | any rearrangement of a round's samples leaves exactly the same tuner |
| TwiddlePhases.BaselineProbes | src/Twiddler.cpp:75-91 | phase 0: the best error becomes the round's total without comparison, and the gain under the cursor rises by its step; no other gain changes, the steps and cursor stay, and the phase becomes 1 |
| TwiddlePhases.IncreaseKept | src/Twiddler.cpp:96-118 | phase 1 with improvement: the best error becomes the total, and the step grows by a tenth, raising the sum by a tenth of it. The cursor moves on, the new coordinate's gain rises by its own step, no other gain changes, and the phase stays 1 |
| TwiddlePhases.IncreaseRetracted | src/Twiddler.cpp:119-134 | phase 1 without improvement: the gain drops by twice its step, no other gain changes, and the phase becomes 2; steps, cursor and best error stay |
| TwiddlePhases.DecreaseKept | src/Twiddler.cpp:137-178 | phase 2 with improvement: the best error becomes the total, the step grows by a tenth, the cursor moves on, the next gain is probed upwards, and the phase becomes 1 |
| TwiddlePhases.DecreaseRejected | src/Twiddler.cpp:137-178 | phase 2 without improvement: the gain rises back by one step and the step shrinks by a tenth. The cursor moves on and the next gain is probed upwards; no other gain changes, the best error stays, and the phase becomes 1 |
| TwiddlePhases.FailedProbeRestoresGain | src/Twiddler.cpp:119-158 | a coordinate whose probes fail both ways ends at its original gain (+dt, -2dt, +dt) with its step cut to nine tenths and the cursor on the next coordinate |
| TwiddlePhases.FirstTwiddleIsBaseline | src/Twiddler.h:25-31 | the first `twiddle` after construction takes the baseline branch whatever the round scored: the best error becomes that round's total, and Kp of the first controller is probed |
| TwiddlePhases.AsWrittenAgreesWithinController | src/Twiddler.cpp:102-103 | while the cursor does not leave its controller, the copy-over is a self-assignment and the source's `twiddle` equals the intended one |
| TwiddlePhases.AsWrittenAgreesOnOneController | src/main.cpp:45-46 | with the single controller the program builds, the source's `twiddle` equals the intended one |
| TwiddlePhases.CopyOverErasesRestore | src/Twiddler.cpp:146-175 | when a rejected decrease on Kd of controller p moves the cursor to controller p+1, the source overwrites controller p, restored Kd included, with controller p+1's gains, Kp probed, and leaves p+1 unprobed; the intended step restores Kd of p and probes Kp of p+1 |
| TwiddlePhases.CopyOverErasesKeptDecrease | src/Twiddler.cpp:141-175 | when a kept decrease on Kd of controller p moves the cursor to controller p+1, the source overwrites controller p, lowered Kd included, with controller p+1's gains, Kp probed; the intended step keeps controller p and probes Kp of p+1 |
| TwiddlePhases.CopyOverMisplacesProbe | src/Twiddler.cpp:71-115 | when a kept increase on Kd of controller p moves the cursor to controller p+1, the source overwrites controller p with controller p+1's gains, Kp probed, and leaves p+1 unprobed; the intended step probes p+1 and leaves p alone, and the two differ whenever controller p did not already hold those gains |
| Payload.FindText | src/main.cpp:23 | `find` gives the first occurrence at or after the start, and `npos` exactly when there is none |
| Payload.FindFirst | src/main.cpp:24 | `find_first_of` gives a position holding the character with none before it, and `npos` exactly when it does not occur |
| Payload.FindLast | src/main.cpp:25 | `find_last_of` gives a position holding the character with none after it, and `npos` exactly when it does not occur |
| Payload.Substr | src/main.cpp:30 | `substr` is the slice from the position, of the requested length or cut short by the end of the string |
| Payload.SpanLength | src/main.cpp:30 | `b2 - b1 + 1` on `size_t` is the true length when `b1` is at most one past `b2`, and wraps round 2^64 when `b1` is further on |
| Payload.HasData | src/main.cpp:22-33 | any data is the stretch of the message that starts at its first `[`, and opens with it; there is data only when the message has no `"null"` and has a `]` |
| Payload.NullMeansNoData | src/main.cpp:23-28 | any `"null"` anywhere in the message gives the empty string |
| Payload.NoBracketsNoData | src/main.cpp:24-32 | a message without a `[` or without a `]` gives the empty string |
| Payload.ExtractsBracketedText | src/main.cpp:29-30 | without `"null"`, and with the last `]` after the first `[`, the result is exactly the text from the first `[` to the last `]`, both included |
| Payload.DataIsBracketed | src/main.cpp:29-30 | in that case the result opens with `[` and closes with `]` |
| Payload.AdjacentCrossedBracketsGiveNothing | src/main.cpp:30 | when the last `]` sits directly before the first `[`, the wrapped length is 0 and the result is empty |
| Payload.CrossedBracketsGiveSuffix | src/main.cpp:30 | when the last `]` comes further before the first `[`, the wrapped length exceeds the string and the result is everything from the first `[` on |
| MessageLoop.ShippedTuner | src/main.cpp:39-53 | the program's tuner (one controller with gains 0.171, 0, 1.62; steps 0.01, 0.00000001, 0.1; tolerance 0.00001) is accepted by the constructor and starts at Kp of the controller in phase 0 with empty accumulators |
| MessageLoop.ShippedTunerStartsUnconverged | src/main.cpp:48-53 | the program's steps add up to more than its tolerance, so tuning does start |
| MessageLoop.Steering | src/main.cpp:103-105 | the steering command lies in [-1, 1] and is the negated total error whenever that is in range |
| MessageLoop.SteeringIsNearest | src/main.cpp:103-105 | the clamp picks the point of [-1, 1] nearest to the negated total error |
| MessageLoop.SteeringIsMonotone | src/main.cpp:103-105 | a larger total error never steers further right |
| MessageLoop.Throttle | src/main.cpp:108-112 | the throttle is 0.5 less 1.75 times the steering magnitude, or 0.1 when the car is slower than 10 and that would be lower; below speed 10 it is at least 0.1 |
| MessageLoop.ThrottleRange | src/main.cpp:103-112 | with a clamped steering value the throttle lies in [-1.25, 0.5] |
| MessageLoop.OnTelemetry | src/main.cpp:81-112 | with tuning off nothing changes and the reply steers. With tuning on, the counter advances, and samples reach the tuner only once the counter is past 100. A reset goes out, instead of a steering command, exactly when the counter has reached 800; then the tuner takes the source's `twiddle` step, copy-over included, on the last sample and the counter restarts at 0. A steering command depends only on the message, never on the tuner |
| MessageLoop.RoundPrefix | src/main.cpp:81-99 | within a round, after n messages the counter is n, the tuner holds exactly the samples after the warm-up, and every reply steers |
| MessageLoop.WholeRound | src/main.cpp:81-97 | a round of 801 messages steers 800 times and then resets; exactly the 700 samples after the warm-up reach the tuner, which takes one step of the source's `twiddle` on them, and the counter restarts |
| MessageLoop.TuningOffOnlySteers | src/main.cpp:17-112 | with tuning off, as shipped, the tuner and counter never change and every message gets its steering command |

## Left out

- Logging in `twiddle`: the log file, its lines, and the average error that only appears there (src/Twiddler.cpp:42-68, 94, 139, 164, 181). This is I/O; the file name is not stored in the model.
- The websocket hub, the callbacks, the HTTP handler, listening and sending (src/main.cpp:37, 56-60, 134-166). This is network plumbing. The framing check on `"42"` and the manual-driving reply belong to it.
- JSON parsing and serialisation, and `std::stod` (src/main.cpp:64-70, 117-120). These are library calls whose code is not part of this model. A telemetry message is a record of already-decoded numbers.
- `deg2rad`, `rad2deg` and `pi` (src/main.cpp:13-15): unused floating-point helpers.
- The PID controller's own `UpdateError` and `TotalError` (PID.h and PID.cpp are not part of this model). A message carries the value `TotalError()` returns for it. The `Reset` reply stands for zeroing `p_error`, `i_error` and `d_error` together with the reset message.
- IEEE-754 rounding: `fabs`, the ×1.1 and ×0.9 scaling and the sums are exact on `real`. `countCte`, a double in the source, only holds whole numbers and is a `nat`. The initial best error is the exact value of the largest double.
- `best_error_initialized` (src/Twiddler.h:30): declared but never read.
- Twiddler.Twiddle: requires at least one controller. Unless the tuner has converged, the source's `twiddle` indexes an empty controller vector, which is undefined behaviour and is not modelled.
- MessageLoop.OnTelemetry: requires a tuner with at least one controller, for the same reason.
- Payload.ExtractsBracketedText: requires the message to be shorter than 2^64 characters, which any `std::string` is. Payload.DataIsBracketed and Payload.CrossedBracketsGiveSuffix require the same.
- MessageLoop.ShippedTuner: does not restate the initial best error. `Twiddler.New` states it for every tuner it builds.
- TwiddlePhases.IncreaseKept, TwiddlePhases.DecreaseKept, TwiddlePhases.DecreaseRejected and TwiddlePhases.FailedProbeRestoresGain: stated for the corrected `Twiddler.Twiddle`. The source's `twiddle` meets them while the cursor stays within one controller, and always with the single controller the program builds. With two or more controllers, a Kd probe that ends in phase 2 is erased by the copy-over (see Findings), so `FailedProbeRestoresGain` does not hold for the source there.
- TwiddlePhases.CopyOverMisplacesProbe: covers a move from controller p to controller p+1. The wrap from the last controller back to the first misplaces the probe in the same way, and is not stated separately.
- Termination of the search on a well-behaved error landscape. It depends on the error the simulator produces, which is outside the model.

## Findings

| source | as written | input that shows it | evidently intended | confidence | as-written member | corrected member |
|---|---|---|---|---|---|---|
| src/Twiddler.cpp:71-115 | `pidController` is a reference bound to `pidControllers[curr_pid_idx]` before `nextCoefficient()`. After the cursor moves to a new controller, `pidController = pidControllers[curr_pid_idx]` copies the new controller over the old one, and the probe `+= dt` lands on that copy. The same happens in phase 2 (lines 161-175), where the copy also erases the decision on Kd just taken: the kept decrease, or the `+= dt` that restores the gain | two controllers, cursor on Kd of controller 0 in phase 1, and a round that improves on the best error: controller 0 becomes a copy of controller 1 with Kp probed, and controller 1 is not probed. In phase 2, controller 0's restored or lowered Kd is lost the same way | probe Kp of controller 1 in place and leave controller 0 as the decision left it | high, not executed | TwiddlePhases.CopyOverMisplacesProbe, TwiddlePhases.CopyOverErasesRestore, TwiddlePhases.CopyOverErasesKeptDecrease | Twiddler.Twiddle |
