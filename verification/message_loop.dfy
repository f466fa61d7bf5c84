/** The per-message rules of the telemetry handler: round gating by the
    message counter, the steering clamp and the throttle floor. The
    websocket, the JSON decoding and the steering controller's own update
    are outside the model; a telemetry message carries the value the
    steering controller's `TotalError()` returns for it. */
module MessageLoop {
  import opened Gains
  import Sweep
  import opened StepSizes
  import opened Twiddler
  import opened Accumulate

  /** Tuning is switched off in the program as shipped. */
  const DoTwiddle := false

  /** Messages counted before samples reach the tuner. */
  const WarmUp := 100

  /** The count at which a round ends and the tuner takes a step. */
  const RoundEnd := 800

  /** The tuner the program builds: the one steering controller with gains
      0.171, 0 and 1.62, step sizes 0.01, 0.00000001 and 0.1, and tolerance
      0.00001. The constructor accepts it and it starts from the header's
      initial search state. */
  function ShippedTuner(): (r: Tuner)
    ensures Valid(r) && Cleared(r) && r.cursor == Sweep.Start && r.phase == Baseline
    ensures |r.controllers| == 1 && r.controllers[0] == Pid(0.171, 0.0, 1.62)
    ensures r.dts == [0.01, 0.00000001, 0.1] && r.tolerance == 0.00001
  {
    var c := New(0.00001, [Pid(0.171, 0.0, 1.62)], [0.01, 0.00000001, 0.1]);
    assert c == Built(Tuner(0.00001, [Pid(0.171, 0.0, 1.62)], [0.01, 0.00000001, 0.1],
                            0.0, 0, 0.0, Sweep.Start, Baseline, MaxDouble));
    c.tuner
  }

  /** The program's step sizes add up to more than its tolerance. */
  lemma ShippedStepsExceedTolerance()
    ensures Sum([0.01, 0.00000001, 0.1]) > 0.00001
  {
    var dts := [0.01, 0.00000001, 0.1];
    assert dts[..2][..1] == [0.01] && [0.01][..0] == [];
  }

  /** So the program's tuner starts unconverged: its first round does take
      a step. */
  lemma ShippedTunerStartsUnconverged()
    ensures !Converged(ShippedTuner())
  {
    ShippedStepsExceedTolerance();
  }

  /** One decoded telemetry message: the cross-track error, the speed, and
      the steering controller's total error after it absorbed `cte`. */
  datatype Telemetry = Telemetry(cte: real, speed: real, pidTotal: real)

  /** What the handler sends back: a steering command, or a reset that also
      zeroes the steering controller's error memory. */
  datatype Reply = Steer(steering: real, throttle: real) | Reset

  /** The handler's state: the message counter and the tuner. */
  datatype Loop = Loop(count: int, tuner: Tuner)

  /** The steering command: the negated total error, clamped into [-1, 1]. */
  function Steering(pidTotal: real): (r: real)
    ensures -1.0 <= r <= 1.0
    ensures -1.0 <= -pidTotal <= 1.0 ==> r == -pidTotal
  {
    var v := -pidTotal;
    if v < -1.0 then -1.0 else if v > 1.0 then 1.0 else v
  }

  /** The clamp picks the point of [-1, 1] nearest to the negated total
      error. */
  lemma SteeringIsNearest(pidTotal: real, y: real)
    requires -1.0 <= y <= 1.0
    ensures Abs(Steering(pidTotal) + pidTotal) <= Abs(y + pidTotal)
  {
  }

  /** A larger total error never steers further right. */
  lemma SteeringIsMonotone(p1: real, p2: real)
    requires p1 <= p2
    ensures Steering(p2) <= Steering(p1)
  {
  }

  /** The throttle: 0.5 less 1.75 times the steering magnitude, raised to
      0.1 when the car is slower than 10 and the throttle would be lower. */
  function Throttle(steering: real, speed: real): (r: real)
    ensures r >= 0.5 - 1.75 * Abs(steering)
    ensures speed < 10.0 ==> r >= 0.1
    ensures r == 0.5 - 1.75 * Abs(steering) || (speed < 10.0 && r == 0.1)
  {
    var raw := 0.5 - Abs(steering * 1.75);
    if speed < 10.0 && raw < 0.1 then 0.1 else raw
  }

  /** With a clamped steering value the throttle lies in [-1.25, 0.5]. */
  lemma ThrottleRange(steering: real, speed: real)
    requires -1.0 <= steering <= 1.0
    ensures -1.25 <= Throttle(steering, speed) <= 0.5
  {
  }

  /** The steering command for a message. */
  function SteerReply(m: Telemetry): Reply
  {
    var s := Steering(m.pidTotal);
    Steer(s, Throttle(s, m.speed))
  }

  /** One telemetry message. With tuning on, the counter advances (it is
      compared before it is incremented); past the warm-up the sample goes
      to the tuner, and once the counter passes the round end the tuner
      steps as the source's `twiddle` does (copy-over included), the
      counter restarts and a reset goes out instead of a steering
      command. A steering command depends only on the message, never on the
      tuner. */
  function OnTelemetry(h: Loop, doTwiddle: bool, m: Telemetry): (r: (Loop, Reply))
    requires Valid(h.tuner)
    ensures Valid(r.0.tuner)
    ensures !doTwiddle ==> r == (h, SteerReply(m))
    ensures r.1.Steer? ==> r.1 == SteerReply(m)
    ensures r.1.Reset? <==> doTwiddle && h.count >= RoundEnd
    ensures r.1.Reset? ==> r.0 == Loop(0, TwiddleAsWritten(UpdateError(h.tuner, m.cte)))
    ensures doTwiddle && h.count < RoundEnd ==> r.0.count == h.count + 1
    ensures doTwiddle && h.count <= WarmUp ==> r.0.tuner == h.tuner
    ensures doTwiddle && WarmUp < h.count < RoundEnd ==> r.0.tuner == UpdateError(h.tuner, m.cte)
  {
    if doTwiddle && h.count > WarmUp then
      var tuner := UpdateError(h.tuner, m.cte);
      var count := h.count + 1;
      if count > RoundEnd then (Loop(0, TwiddleAsWritten(tuner)), Reset)
      else (Loop(count, tuner), SteerReply(m))
    else if doTwiddle then (h.(count := h.count + 1), SteerReply(m))
    else (h, SteerReply(m))
  }

  /** The handler run over a sequence of messages, with every reply. */
  function Run(h: Loop, doTwiddle: bool, ms: seq<Telemetry>): (r: (Loop, seq<Reply>))
    requires Valid(h.tuner)
    ensures Valid(r.0.tuner) && |r.1| == |ms|
  {
    if |ms| == 0 then (h, [])
    else
      var (before, replies) := Run(h, doTwiddle, ms[..|ms| - 1]);
      var (after, reply) := OnTelemetry(before, doTwiddle, ms[|ms| - 1]);
      (after, replies + [reply])
  }

  /** The cross-track errors of a run of messages. */
  function Ctes(ms: seq<Telemetry>): (r: seq<real>)
    ensures |r| == |ms|
    ensures forall i :: 0 <= i < |ms| ==> r[i] == ms[i].cte
  {
    seq(|ms|, i requires 0 <= i < |ms| => ms[i].cte)
  }

  /** The samples of the first `n` messages of a round that reach the
      tuner: those after the warm-up. */
  function Recorded(ms: seq<Telemetry>, n: nat): seq<real>
    requires n <= |ms|
  {
    if n <= WarmUp + 1 then [] else Ctes(ms[WarmUp + 1..n])
  }

  /** Every reply is a steering command. */
  predicate AllSteer(rs: seq<Reply>)
  {
    forall i :: 0 <= i < |rs| ==> rs[i].Steer?
  }

  /** One more steering command keeps a run of them one. */
  lemma SteersExtend(rs: seq<Reply>, x: Reply)
    requires AllSteer(rs) && x.Steer?
    ensures AllSteer(rs + [x])
  {
  }

  /** Within a round, after `n` messages the counter is `n`, the tuner has
      the samples after the warm-up, and every reply steers. */
  lemma {:induction false} RoundPrefix(h: Loop, ms: seq<Telemetry>, n: nat)
    requires Valid(h.tuner) && h.count == 0
    requires n <= |ms| && n <= RoundEnd
    ensures Run(h, true, ms[..n]).0 == Loop(n, UpdateAll(h.tuner, Recorded(ms, n)))
    ensures AllSteer(Run(h, true, ms[..n]).1)
  {
    if n > 0 {
      RoundPrefix(h, ms, n - 1);
      assert ms[..n][..n - 1] == ms[..n - 1];
      var before := Run(h, true, ms[..n - 1]);
      StepWithinRound(before.0, ms[n - 1]);
      var step := OnTelemetry(before.0, true, ms[n - 1]);
      assert Run(h, true, ms[..n]) == (step.0, before.1 + [step.1]);
      if n > WarmUp + 1 {
        RecordedGrows(ms, n);
      }
      SteersExtend(before.1, step.1);
    }
  }

  /** A message before the round end steers, advances the counter and,
      past the warm-up, hands its sample to the tuner. */
  lemma StepWithinRound(l: Loop, m: Telemetry)
    requires Valid(l.tuner) && l.count < RoundEnd
    ensures OnTelemetry(l, true, m) ==
            (Loop(l.count + 1, if l.count > WarmUp then UpdateError(l.tuner, m.cte) else l.tuner), SteerReply(m))
  {
  }

  /** Past the warm-up, each message adds its sample to those recorded. */
  lemma RecordedGrows(ms: seq<Telemetry>, n: nat)
    requires WarmUp + 1 < n <= |ms|
    ensures Recorded(ms, n)[..|Recorded(ms, n)| - 1] == Recorded(ms, n - 1)
    ensures Recorded(ms, n)[|Recorded(ms, n)| - 1] == ms[n - 1].cte
  {
  }

  /** A whole round with tuning on: the first 800 messages steer, the 801st
      resets, exactly the 700 samples after the warm-up reach the tuner,
      the tuner takes one step on them and the counter starts again. */
  lemma WholeRound(h: Loop, ms: seq<Telemetry>)
    requires Valid(h.tuner) && h.count == 0
    requires |ms| == RoundEnd + 1
    ensures |ms[WarmUp + 1..]| == 700
    ensures Run(h, true, ms).0 == Loop(0, TwiddleAsWritten(UpdateAll(h.tuner, Ctes(ms[WarmUp + 1..]))))
    ensures forall i :: 0 <= i < RoundEnd ==> Run(h, true, ms).1[i].Steer?
    ensures Run(h, true, ms).1[RoundEnd] == Reset
  {
    RoundPrefix(h, ms, RoundEnd);
    assert ms[..|ms|][..RoundEnd] == ms[..RoundEnd];
    assert ms[..|ms|] == ms;
    var rec := Ctes(ms[WarmUp + 1..]);
    assert rec[..|rec| - 1] == Recorded(ms, RoundEnd);
  }

  /** With tuning off, as shipped, the tuner is never touched, the counter
      never moves and every message is answered with a steering command. */
  lemma {:induction false} TuningOffOnlySteers(h: Loop, ms: seq<Telemetry>)
    requires Valid(h.tuner)
    ensures Run(h, DoTwiddle, ms).0 == h
    ensures forall i :: 0 <= i < |ms| ==> Run(h, DoTwiddle, ms).1[i] == SteerReply(ms[i])
  {
    if |ms| > 0 {
      TuningOffOnlySteers(h, ms[..|ms| - 1]);
    }
  }
}
