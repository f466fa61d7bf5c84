/** What one `twiddle` call does in each phase, stated coordinate by
    coordinate, and how the source's controller copy-over compares with
    the intended probe. */
module TwiddlePhases {
  import opened Gains
  import opened Sweep
  import opened StepSizes
  import opened Twiddler
  import opened Accumulate

  /** Moving on never stays on the same coordinate: there are at least
      three of them. */
  lemma NextIsElsewhere(t: Tuner)
    requires Valid(t)
    ensures NextCoefficient(t.cursor, |t.controllers|).dtIdx != t.cursor.dtIdx
    ensures WellPlaced(NextCoefficient(t.cursor, |t.controllers|), |t.controllers|)
  {
  }

  /** Phase 0: the round's total becomes the best error with no comparison,
      the gain under the cursor rises by its step, nothing else changes, and
      the tuner waits to score the increase. */
  lemma BaselineProbes(t: Tuner)
    requires Valid(t) && !Converged(t) && t.phase == Baseline
    ensures var r := Twiddle(t); var c := t.cursor;
            && r.bestError == t.totalCte
            && r.phase == AfterIncrease
            && r.cursor == c
            && r.dts == t.dts
            && GainAt(r.controllers[c.pid], c.gain) == GainAt(t.controllers[c.pid], c.gain) + t.dts[c.dtIdx]
            && AgreeExcept(t.controllers, r.controllers, c.pid, c.gain, c.pid, c.gain)
  {
  }

  /** Phase 1, improved: the increase is kept, its step grows by a tenth,
      the cursor moves on and the new coordinate's gain rises by its own
      step; the tuner stays in phase 1. */
  lemma IncreaseKept(t: Tuner)
    requires Valid(t) && !Converged(t) && t.phase == AfterIncrease
    requires t.totalCte < t.bestError
    ensures var r := Twiddle(t); var c := t.cursor;
            var n := NextCoefficient(c, |t.controllers|);
            var dt := t.dts[c.dtIdx];
            && r.bestError == t.totalCte
            && r.phase == AfterIncrease
            && r.cursor == n
            && r.dts == t.dts[c.dtIdx := dt * 1.1]
            && Sum(r.dts) == Sum(t.dts) + dt * 0.1
            && GainAt(r.controllers[n.pid], n.gain) == GainAt(t.controllers[n.pid], n.gain) + t.dts[n.dtIdx]
            && AgreeExcept(t.controllers, r.controllers, n.pid, n.gain, n.pid, n.gain)
  {
    NextIsElsewhere(t);
    SumUpdate(t.dts, t.cursor.dtIdx, t.dts[t.cursor.dtIdx] * 1.1);
  }

  /** Phase 1, not improved: the gain drops by twice its step (to one step
      below where it stood before the probe), and the tuner waits to score
      the decrease; steps, cursor and best error are unchanged. */
  lemma IncreaseRetracted(t: Tuner)
    requires Valid(t) && !Converged(t) && t.phase == AfterIncrease
    requires t.totalCte >= t.bestError
    ensures var r := Twiddle(t); var c := t.cursor;
            && r.bestError == t.bestError
            && r.phase == AfterDecrease
            && r.cursor == c
            && r.dts == t.dts
            && GainAt(r.controllers[c.pid], c.gain) == GainAt(t.controllers[c.pid], c.gain) - 2.0 * t.dts[c.dtIdx]
            && AgreeExcept(t.controllers, r.controllers, c.pid, c.gain, c.pid, c.gain)
  {
  }

  /** Phase 2, improved: the decrease is kept, its step grows by a tenth,
      the cursor moves on and the next coordinate is probed upwards. */
  lemma DecreaseKept(t: Tuner)
    requires Valid(t) && !Converged(t) && t.phase == AfterDecrease
    requires t.totalCte < t.bestError
    ensures var r := Twiddle(t); var c := t.cursor;
            var n := NextCoefficient(c, |t.controllers|);
            var dt := t.dts[c.dtIdx];
            && r.bestError == t.totalCte
            && r.phase == AfterIncrease
            && r.cursor == n
            && r.dts == t.dts[c.dtIdx := dt * 1.1]
            && Sum(r.dts) == Sum(t.dts) + dt * 0.1
            && GainAt(r.controllers[n.pid], n.gain) == GainAt(t.controllers[n.pid], n.gain) + t.dts[n.dtIdx]
            && AgreeExcept(t.controllers, r.controllers, n.pid, n.gain, n.pid, n.gain)
  {
    NextIsElsewhere(t);
    SumUpdate(t.dts, t.cursor.dtIdx, t.dts[t.cursor.dtIdx] * 1.1);
  }

  /** Phase 2, not improved: the gain goes back up by one step, its step
      shrinks by a tenth, the cursor moves on and the next coordinate is
      probed upwards; the best error is unchanged. */
  lemma DecreaseRejected(t: Tuner)
    requires Valid(t) && !Converged(t) && t.phase == AfterDecrease
    requires t.totalCte >= t.bestError
    ensures var r := Twiddle(t); var c := t.cursor;
            var n := NextCoefficient(c, |t.controllers|);
            var dt := t.dts[c.dtIdx];
            && r.bestError == t.bestError
            && r.phase == AfterIncrease
            && r.cursor == n
            && r.dts == t.dts[c.dtIdx := dt * 0.9]
            && Sum(r.dts) == Sum(t.dts) - dt * 0.1
            && GainAt(r.controllers[c.pid], c.gain) == GainAt(t.controllers[c.pid], c.gain) + dt
            && GainAt(r.controllers[n.pid], n.gain) == GainAt(t.controllers[n.pid], n.gain) + t.dts[n.dtIdx]
            && AgreeExcept(t.controllers, r.controllers, c.pid, c.gain, n.pid, n.gain)
  {
    NextIsElsewhere(t);
    SumUpdate(t.dts, t.cursor.dtIdx, t.dts[t.cursor.dtIdx] * 0.9);
  }

  /** A coordinate whose probes fail both ways ends where it started: from
      the baseline, +dt, then -2dt, then +dt leave the gain unchanged, its
      step is cut to nine tenths, and the cursor has moved on. `a` and `b`
      are the samples of the two scoring rounds, neither of which beats the
      baseline round. */
  lemma {:induction false} FailedProbeRestoresGain(t: Tuner, a: seq<real>, b: seq<real>)
    requires Valid(t) && !Converged(t) && t.phase == Baseline
    requires SumAbs(a) >= t.totalCte && SumAbs(b) >= t.totalCte
    ensures var t3 := Twiddle(UpdateAll(Twiddle(UpdateAll(Twiddle(t), a)), b));
            var c := t.cursor;
            && GainAt(t3.controllers[c.pid], c.gain) == GainAt(t.controllers[c.pid], c.gain)
            && t3.dts[c.dtIdx] == t.dts[c.dtIdx] * 0.9
            && t3.cursor == NextCoefficient(c, |t.controllers|)
            && t3.phase == AfterIncrease
            && t3.bestError == t.totalCte
  {
    var c := t.cursor;
    var dt := t.dts[c.dtIdx];
    var g0 := GainAt(t.controllers[c.pid], c.gain);
    BaselineProbes(t);
    var t1 := Twiddle(t);
    RoundTotals(t1, a);
    var s1 := UpdateAll(t1, a);
    assert s1.totalCte == SumAbs(a);
    IncreaseRetracted(s1);
    var t2 := Twiddle(s1);
    assert GainAt(t2.controllers[c.pid], c.gain) == g0 - dt;
    RoundTotals(t2, b);
    var s2 := UpdateAll(t2, b);
    assert s2.totalCte == SumAbs(b);
    DecreaseRejected(s2);
  }

  /** The first `twiddle` after construction takes the baseline branch
      whatever the round scored: the initial best error is overwritten
      without being compared, and Kp of the first controller is probed. */
  lemma FirstTwiddleIsBaseline(tolerance: real, controllers: seq<Pid>, dts: seq<real>, samples: seq<real>)
    requires |controllers| > 0 && |dts| == 3 * |controllers|
    requires Sum(dts) >= tolerance
    ensures New(tolerance, controllers, dts).Built?
    ensures var r := Twiddle(UpdateAll(New(tolerance, controllers, dts).tuner, samples));
            && r.bestError == SumAbs(samples)
            && r.cursor == Start
            && r.controllers[0].kp == controllers[0].kp + dts[0]
  {
    var t := New(tolerance, controllers, dts).tuner;
    RoundTotals(t, samples);
    BaselineProbes(UpdateAll(t, samples));
  }

  /** The copy-over is harmless while the cursor stays within one
      controller: the source and the intended `twiddle` agree. (`Valid`
      asks for at least one controller, so `|t.controllers| < 2` means
      exactly one.) */
  lemma AsWrittenAgreesWithinController(t: Tuner)
    requires Valid(t)
    requires t.cursor.gain < 2 || |t.controllers| < 2
    ensures TwiddleAsWritten(t) == Twiddle(t)
  {
    MoveOnStaysPut(Keep(t));
    MoveOnStaysPut(Restore(t));
    assert Decide(t, true) == Decide(t, false);
  }

  /** When the move does not leave the controller (the cursor is not on
      Kd, or there is exactly one controller), the slot the source writes
      through is the one the cursor moves to. */
  lemma MoveOnStaysPut(t: Tuner)
    requires Valid(t)
    requires t.cursor.gain < 2 || |t.controllers| < 2
    ensures MoveOn(t, true) == MoveOn(t, false)
  {
    assert NextCoefficient(t.cursor, |t.controllers|).pid == t.cursor.pid;
  }

  /** With the single controller the program builds, the source's
      `twiddle` is the intended one. (`Valid` asks for at least one
      controller, so `|t.controllers| < 2` means exactly one.) */
  lemma AsWrittenAgreesOnOneController(t: Tuner)
    requires Valid(t) && |t.controllers| < 2
    ensures TwiddleAsWritten(t) == Twiddle(t)
  {
    AsWrittenAgreesWithinController(t);
  }

  /** When a kept increase on Kd of controller `p` moves the cursor to Kp of
      controller `p + 1`, the source writes controller `p + 1`'s gains, with
      Kp probed, over controller `p`, and leaves controller `p + 1` itself
      unprobed; the intended step leaves controller `p` alone and probes
      controller `p + 1`. */
  lemma CopyOverMisplacesProbe(t: Tuner)
    requires Valid(t) && !Converged(t) && t.phase == AfterIncrease
    requires t.totalCte < t.bestError
    requires t.cursor.gain == 2 && t.cursor.pid + 1 < |t.controllers|
    ensures var p := t.cursor.pid;
            var probed := AddToGain(t.controllers[p + 1], 0, t.dts[3 * (p + 1)]);
            && TwiddleAsWritten(t).controllers == t.controllers[p := probed]
            && Twiddle(t).controllers == t.controllers[p + 1 := probed]
            && (t.controllers[p] != probed ==> TwiddleAsWritten(t) != Twiddle(t))
  {
    var k := Keep(t);
    assert NextCoefficient(k.cursor, |k.controllers|) == Cursor(t.cursor.pid + 1, 0, 3 * (t.cursor.pid + 1));
    assert k.dts[3 * (t.cursor.pid + 1)] == t.dts[3 * (t.cursor.pid + 1)];
    var p := t.cursor.pid;
    if TwiddleAsWritten(t) == Twiddle(t) {
      assert TwiddleAsWritten(t).controllers[p] == Twiddle(t).controllers[p];
    }
  }

  /** In phase 2 the copy-over also erases the decision just taken: when a
      rejected decrease on Kd of controller `p` moves the cursor to Kp of
      controller `p + 1`, the source overwrites controller `p`, restored Kd
      included, with controller `p + 1`'s gains, Kp probed, and leaves
      controller `p + 1` unprobed. The intended step keeps the restored Kd
      and probes controller `p + 1`. */
  lemma CopyOverErasesRestore(t: Tuner)
    requires Valid(t) && !Converged(t) && t.phase == AfterDecrease
    requires t.totalCte >= t.bestError
    requires t.cursor.gain == 2 && t.cursor.pid + 1 < |t.controllers|
    ensures var p := t.cursor.pid;
            var probed := AddToGain(t.controllers[p + 1], 0, t.dts[3 * (p + 1)]);
            && TwiddleAsWritten(t).controllers == t.controllers[p := probed]
            && Twiddle(t).controllers[p].kd == t.controllers[p].kd + t.dts[t.cursor.dtIdx]
            && Twiddle(t).controllers[p + 1] == probed
  {
    var r := Restore(t);
    var p := t.cursor.pid;
    assert NextCoefficient(r.cursor, |r.controllers|) == Cursor(p + 1, 0, 3 * (p + 1));
    assert r.dts[3 * (p + 1)] == t.dts[3 * (p + 1)];
    assert r.controllers[p + 1] == t.controllers[p + 1];
    assert Decide(t, true) == MoveOn(r, true).(phase := AfterIncrease);
    assert Decide(t, false) == MoveOn(r, false).(phase := AfterIncrease);
  }

  /** Likewise for a kept decrease: the source overwrites controller `p`,
      lowered Kd included, with controller `p + 1`'s gains, Kp probed. */
  lemma CopyOverErasesKeptDecrease(t: Tuner)
    requires Valid(t) && !Converged(t) && t.phase == AfterDecrease
    requires t.totalCte < t.bestError
    requires t.cursor.gain == 2 && t.cursor.pid + 1 < |t.controllers|
    ensures var p := t.cursor.pid;
            var probed := AddToGain(t.controllers[p + 1], 0, t.dts[3 * (p + 1)]);
            && TwiddleAsWritten(t).controllers == t.controllers[p := probed]
            && Twiddle(t).controllers[p] == t.controllers[p]
            && Twiddle(t).controllers[p + 1] == probed
  {
    var k := Keep(t);
    var p := t.cursor.pid;
    assert NextCoefficient(k.cursor, |k.controllers|) == Cursor(p + 1, 0, 3 * (p + 1));
    assert k.dts[3 * (p + 1)] == t.dts[3 * (p + 1)];
    assert Decide(t, true) == MoveOn(k, true).(phase := AfterIncrease);
    assert Decide(t, false) == MoveOn(k, false).(phase := AfterIncrease);
  }
}
