/** The tuner's round-robin cursor over (controller, gain) coordinates:
    `curr_pid_idx`, `curr_error_idx` and the flat step-size index `dt_idx`. */
module Sweep {

  /** `pid` is the controller, `gain` the gain within it (0 = Kp, 1 = Ki,
      2 = Kd) and `dtIdx` the position of that coordinate's step size. */
  datatype Cursor = Cursor(pid: nat, gain: nat, dtIdx: nat)

  /** The cursor every tuner starts with: controller 0, gain Kp, step 0. */
  const Start := Cursor(0, 0, 0)

  /** The cursor names a real coordinate among `n` controllers and its flat
      index agrees with it. */
  predicate WellPlaced(c: Cursor, n: nat)
  {
    c.pid < n && c.gain < 3 && c.dtIdx == 3 * c.pid + c.gain
  }

  /** `nextCoefficient`: step to the next gain, wrapping to Kp of the next
      controller, and from the last controller back to the first. On a
      well-placed cursor the flat index moves one place round the `3 * n`
      coordinates. */
  function NextCoefficient(c: Cursor, n: nat): (r: Cursor)
    ensures r.gain < 3 && r.dtIdx == 3 * r.pid + r.gain
    ensures WellPlaced(c, n) ==> WellPlaced(r, n)
    ensures WellPlaced(c, n) ==> r.dtIdx == if c.dtIdx + 1 == 3 * n then 0 else c.dtIdx + 1
  {
    var gain := c.gain + 1;
    if gain < 3 then
      Cursor(c.pid, gain, 3 * c.pid + gain)
    else
      var pid := if c.pid + 1 >= n then 0 else c.pid + 1;
      Cursor(pid, 0, 3 * pid)
  }

  /** The cursor after `k` calls of `nextCoefficient`. */
  function Advance(c: Cursor, n: nat, k: nat): Cursor
  {
    if k == 0 then c else NextCoefficient(Advance(c, n, k - 1), n)
  }

  /** Within one lap, `k` moves take the flat index `k` places forward,
      wrapping once past the last coordinate. */
  lemma {:induction false} AdvanceFlat(c: Cursor, n: nat, k: nat)
    requires WellPlaced(c, n)
    requires k <= 3 * n
    ensures WellPlaced(Advance(c, n, k), n)
    ensures Advance(c, n, k).dtIdx ==
              if c.dtIdx + k < 3 * n then c.dtIdx + k else c.dtIdx + k - 3 * n
  {
    if k > 0 {
      AdvanceFlat(c, n, k - 1);
    }
  }

  /** A well-placed cursor is determined by its flat index. */
  lemma SameFlatSameCursor(a: Cursor, b: Cursor, n: nat)
    requires WellPlaced(a, n) && WellPlaced(b, n)
    requires a.dtIdx == b.dtIdx
    ensures a == b
  {
  }

  /** The sweep visits all `3 * n` coordinates before it repeats: fewer
      than `3 * n` moves never return to the start and exactly `3 * n`
      moves do. */
  lemma SweepReturnsAfterFullLap(c: Cursor, n: nat)
    requires WellPlaced(c, n)
    ensures forall k: nat :: 0 < k < 3 * n ==> Advance(c, n, k) != c
    ensures Advance(c, n, 3 * n) == c
  {
    forall k: nat | 0 < k < 3 * n
      ensures Advance(c, n, k) != c
    {
      AdvanceFlat(c, n, k);
    }
    AdvanceFlat(c, n, 3 * n);
    SameFlatSameCursor(Advance(c, n, 3 * n), c, n);
  }

  /** Every coordinate `d` is reached from `c` in fewer than `3 * n` moves. */
  lemma SweepReaches(c: Cursor, d: Cursor, n: nat)
    requires WellPlaced(c, n) && WellPlaced(d, n)
    ensures exists k: nat :: k < 3 * n && Advance(c, n, k) == d
  {
    var k: nat := if d.dtIdx >= c.dtIdx then d.dtIdx - c.dtIdx else d.dtIdx + 3 * n - c.dtIdx;
    AdvanceFlat(c, n, k);
    SameFlatSameCursor(Advance(c, n, k), d, n);
  }
}
