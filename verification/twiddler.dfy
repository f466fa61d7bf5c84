/** The gain tuner ("twiddle"): an error accumulator for the current round
    and a coordinate search that, once per round, nudges one gain of one
    controller and moves a round-robin cursor on. The tuner is an immutable
    value; each operation returns the next state. */
module Twiddler {
  import opened Gains
  import opened Sweep
  import opened StepSizes

  /** The largest finite double, 2^1024 - 2^971: the "worse than anything"
      value `best_error` starts from. */
  const MaxDouble: real := 179769313486231570814527423731704356798070567525844996598917476803157260780028538760589558632766878171540458953514382464234321326889464182768467546703537516986049910576551282076245490090389328944075868508455133942304583236903222948165808559332123348274797826204144723168738177180919299881250404026184124858368.0

  /** `curr_twiddle_state`: 0 before the first round has been scored,
      1 after a gain was raised, 2 after it was lowered. */
  datatype Phase = Baseline | AfterIncrease | AfterDecrease

  /** The tuner's fields. `countCte` is a double in the source; it only ever
      holds whole numbers and is a `nat` here. */
  datatype Tuner = Tuner(
    tolerance: real,
    controllers: seq<Pid>,
    dts: seq<real>,
    totalCte: real,
    countCte: nat,
    maxCte: real,
    cursor: Cursor,
    phase: Phase,
    bestError: real)

  /** The outcome of the constructor: a tuner, or the exception it throws
      when the number of step sizes is wrong. */
  datatype Construction = Built(tuner: Tuner) | WrongNumberOfDts(expected: nat, got: nat)

  /** Three step sizes per controller, at least one controller, and a
      cursor on one of its coordinates. */
  predicate Valid(t: Tuner)
  {
    && |t.controllers| > 0
    && |t.dts| == 3 * |t.controllers|
    && WellPlaced(t.cursor, |t.controllers|)
  }

  /** The initial values the header gives the search state. */
  predicate Fresh(t: Tuner)
  {
    && t.cursor == Start
    && t.phase == Baseline
    && t.bestError == MaxDouble
  }

  /** The round's accumulators are all zero. */
  predicate Cleared(t: Tuner)
  {
    t.totalCte == 0.0 && t.countCte == 0 && t.maxCte == 0.0
  }

  /** Everything but the round's accumulators agrees. */
  predicate SameSearch(a: Tuner, b: Tuner)
  {
    && a.tolerance == b.tolerance
    && a.controllers == b.controllers
    && a.dts == b.dts
    && a.cursor == b.cursor
    && a.phase == b.phase
    && a.bestError == b.bestError
  }

  /** The constructor: throws unless there are exactly three step sizes per
      controller; otherwise keeps both lists as given and starts with empty
      accumulators and the header's initial search state. */
  function New(tolerance: real, controllers: seq<Pid>, dts: seq<real>): (r: Construction)
    ensures r.WrongNumberOfDts? <==> |dts| != 3 * |controllers|
    ensures r.WrongNumberOfDts? ==> r.expected == 3 * |controllers| && r.got == |dts|
    ensures r.Built? ==>
              && r.tuner.tolerance == tolerance
              && r.tuner.controllers == controllers
              && r.tuner.dts == dts
              && Cleared(r.tuner)
              && Fresh(r.tuner)
    ensures r.Built? ==> (Valid(r.tuner) <==> |controllers| > 0)
  {
    if |dts| != 3 * |controllers| then
      WrongNumberOfDts(3 * |controllers|, |dts|)
    else
      Built(Tuner(tolerance, controllers, dts, 0.0, 0, 0.0, Start, Baseline, MaxDouble))
  }

  /** `fabs`. */
  function Abs(x: real): (r: real)
    ensures r >= 0.0 && (r == x || r == -x)
  {
    if x < 0.0 then -x else x
  }

  /** `updateError`: adds the sample's magnitude to the round total, counts
      it, and raises the round maximum to it when it is larger. */
  function UpdateError(t: Tuner, cte: real): (r: Tuner)
    ensures SameSearch(t, r)
    ensures r.totalCte == t.totalCte + Abs(cte)
    ensures r.countCte == t.countCte + 1
    ensures r.maxCte >= t.maxCte && r.maxCte >= Abs(cte)
    ensures r.maxCte == t.maxCte || r.maxCte == Abs(cte)
  {
    var a := Abs(cte);
    t.(totalCte := t.totalCte + a,
       countCte := t.countCte + 1,
       maxCte := if t.maxCte < a then a else t.maxCte)
  }

  /** The search has converged once the step sizes add up to less than the
      tolerance. */
  predicate Converged(t: Tuner)
  {
    Sum(t.dts) < t.tolerance
  }

  /** Moves the cursor on with `nextCoefficient` and raises the new
      coordinate's gain by its own step. With `copyOver` the write goes
      where the source's `PID&` still points: the next controller's gains
      are copied into the slot of the controller the cursor just left, and
      the step is added there. Without it, the step lands on the next
      controller itself. */
  function MoveOn(t: Tuner, copyOver: bool): (r: Tuner)
    requires Valid(t)
    ensures Valid(r) && r.dts == t.dts && r.bestError == t.bestError && r.phase == t.phase
    ensures var n := NextCoefficient(t.cursor, |t.controllers|);
            var slot := if copyOver then t.cursor.pid else n.pid;
            && r.cursor == n
            && |r.controllers| == |t.controllers|
            && GainAt(r.controllers[slot], n.gain) == GainAt(t.controllers[n.pid], n.gain) + t.dts[n.dtIdx]
            && (forall h: nat :: h < 3 && h != n.gain ==>
                  GainAt(r.controllers[slot], h) == GainAt(t.controllers[n.pid], h))
            && (forall q :: 0 <= q < |t.controllers| && q != slot ==> r.controllers[q] == t.controllers[q])
  {
    var next := NextCoefficient(t.cursor, |t.controllers|);
    var slot := if copyOver then t.cursor.pid else next.pid;
    var probed := AddToGain(t.controllers[next.pid], next.gain, t.dts[next.dtIdx]);
    t.(cursor := next, controllers := t.controllers[slot := probed])
  }

  /** Adds `delta` to the gain under the cursor. */
  function Probe(t: Tuner, delta: real): (r: Tuner)
    requires Valid(t)
    ensures Valid(r) && r.cursor == t.cursor && r.dts == t.dts
    ensures r.bestError == t.bestError && r.phase == t.phase
  {
    t.(controllers := Bump(t.controllers, t.cursor.pid, t.cursor.gain, delta))
  }

  /** An improvement: the round's total becomes the best error and the
      current step grows by a tenth. */
  function Keep(t: Tuner): (r: Tuner)
    requires Valid(t)
    ensures Valid(r) && r.cursor == t.cursor && r.controllers == t.controllers
    ensures r.bestError == t.totalCte && r.phase == t.phase
    ensures r.dts == t.dts[t.cursor.dtIdx := t.dts[t.cursor.dtIdx] * 1.1]
  {
    var i := t.cursor.dtIdx;
    t.(bestError := t.totalCte, dts := t.dts[i := t.dts[i] * 1.1])
  }

  /** Both directions failed: the gain goes back up by one step and the
      step shrinks by a tenth. */
  function Restore(t: Tuner): (r: Tuner)
    requires Valid(t)
    ensures Valid(r) && r.cursor == t.cursor && r.bestError == t.bestError && r.phase == t.phase
    ensures r.dts == t.dts[t.cursor.dtIdx := t.dts[t.cursor.dtIdx] * 0.9]
  {
    var i := t.cursor.dtIdx;
    Probe(t, t.dts[i]).(dts := t.dts[i := t.dts[i] * 0.9])
  }

  /** The phase dispatch of `twiddle`, with or without the copy-over of
      `MoveOn`: it always leaves the tuner in a probing phase, and past the
      baseline it never raises the best error. */
  function Decide(t: Tuner, copyOver: bool): (r: Tuner)
    requires Valid(t)
    ensures Valid(r) && r.phase != Baseline
    ensures t.phase != Baseline ==> r.bestError <= t.bestError
  {
    var dt := t.dts[t.cursor.dtIdx];
    var improved := t.totalCte < t.bestError;
    match t.phase
    case Baseline =>
      Probe(t, dt).(bestError := t.totalCte, phase := AfterIncrease)
    case AfterIncrease =>
      if improved then MoveOn(Keep(t), copyOver).(phase := AfterIncrease)
      else Probe(t, -2.0 * dt).(phase := AfterDecrease)
    case AfterDecrease =>
      if improved then MoveOn(Keep(t), copyOver).(phase := AfterIncrease)
      else MoveOn(Restore(t), copyOver).(phase := AfterIncrease)
  }

  /** The state machine's transitions for the cursor, the phase, the best
      error and the step sizes. Phase 0 records the round as the baseline
      and stays on its coordinate; an improvement is recorded, its step grows
      by a tenth and the cursor moves on; phase 1 without improvement stays
      to score the decrease; phase 2 without improvement shrinks the step by
      a tenth and moves on. */
  lemma DecideTransitions(t: Tuner, copyOver: bool)
    requires Valid(t)
    ensures var r := Decide(t, copyOver);
            t.phase == Baseline ==>
              && r.phase == AfterIncrease && r.cursor == t.cursor
              && r.bestError == t.totalCte && r.dts == t.dts
    ensures var r := Decide(t, copyOver);
            t.phase == AfterIncrease && t.totalCte >= t.bestError ==>
              && r.phase == AfterDecrease && r.cursor == t.cursor
              && r.bestError == t.bestError && r.dts == t.dts
    ensures var r := Decide(t, copyOver);
            t.phase != Baseline && t.totalCte < t.bestError ==>
              && r.phase == AfterIncrease
              && r.cursor == NextCoefficient(t.cursor, |t.controllers|)
              && r.bestError == t.totalCte
              && r.dts == t.dts[t.cursor.dtIdx := t.dts[t.cursor.dtIdx] * 1.1]
    ensures var r := Decide(t, copyOver);
            t.phase == AfterDecrease && t.totalCte >= t.bestError ==>
              && r.phase == AfterIncrease
              && r.cursor == NextCoefficient(t.cursor, |t.controllers|)
              && r.bestError == t.bestError
              && r.dts == t.dts[t.cursor.dtIdx := t.dts[t.cursor.dtIdx] * 0.9]
  {
    if t.phase != Baseline && t.totalCte < t.bestError {
      assert Decide(t, copyOver) == MoveOn(Keep(t), copyOver).(phase := AfterIncrease);
    } else if t.phase == AfterDecrease {
      assert Decide(t, copyOver) == MoveOn(Restore(t), copyOver).(phase := AfterIncrease);
    }
  }

  /** One call of `twiddle`: nothing at all once converged; otherwise the
      phase dispatch followed by clearing the round's accumulators. */
  function Round(t: Tuner, copyOver: bool): (r: Tuner)
    requires Valid(t)
    ensures Valid(r)
    ensures Converged(t) ==> r == t
    ensures !Converged(t) ==> Cleared(r) && r.phase != Baseline
    ensures r.tolerance == t.tolerance && |r.controllers| == |t.controllers|
    ensures t.phase != Baseline ==> r.bestError <= t.bestError
  {
    if Converged(t) then t
    else Decide(t, copyOver).(totalCte := 0.0, countCte := 0, maxCte := 0.0)
  }

  /** `twiddle` as intended: the probe after a move lands on the coordinate
      the cursor moved to. A converged tuner is left exactly as it is;
      otherwise the round's accumulators are cleared, the tuner is in a
      probing phase, and once past the baseline the best error never rises. */
  function Twiddle(t: Tuner): (r: Tuner)
    requires Valid(t)
    ensures Valid(r)
    ensures Converged(t) ==> r == t
    ensures !Converged(t) ==> Cleared(r) && r.phase != Baseline
    ensures r.tolerance == t.tolerance && |r.controllers| == |t.controllers|
    ensures t.phase != Baseline ==> r.bestError <= t.bestError
  {
    Round(t, false)
  }

  /** `twiddle` as the source writes it, with the controller copy-over. */
  function TwiddleAsWritten(t: Tuner): (r: Tuner)
    requires Valid(t)
    ensures Valid(r)
    ensures Converged(t) ==> r == t
    ensures !Converged(t) ==> Cleared(r) && r.phase != Baseline
    ensures r.tolerance == t.tolerance && |r.controllers| == |t.controllers|
    ensures t.phase != Baseline ==> r.bestError <= t.bestError
  {
    Round(t, true)
  }
}
