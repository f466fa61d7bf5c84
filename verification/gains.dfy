/** A PID controller as the tuner sees it: three gains and nothing else.
    The controller's error memory and its update and output rules live in
    code that is not part of this model. */
module Gains {

  /** The gains Kp, Ki and Kd of one controller. */
  datatype Pid = Pid(kp: real, ki: real, kd: real)

  /** Gain index 0, 1 and 2 name Kp, Ki and Kd, the order the tuner's
      `curr_error_idx` uses. */
  function GainAt(c: Pid, g: nat): real
    requires g < 3
  {
    if g == 0 then c.kp else if g == 1 then c.ki else c.kd
  }

  /** The `switch(curr_error_idx)` that adds a step to one gain: index 0, 1
      or 2 picks the gain, and an index with no case leaves the controller
      as it is. */
  function AddToGain(c: Pid, g: nat, delta: real): (r: Pid)
    ensures g < 3 ==> GainAt(r, g) == GainAt(c, g) + delta
    ensures forall h: nat :: h < 3 && h != g ==> GainAt(r, h) == GainAt(c, h)
  {
    if g == 0 then c.(kp := c.kp + delta)
    else if g == 1 then c.(ki := c.ki + delta)
    else if g == 2 then c.(kd := c.kd + delta)
    else c
  }

  /** Two controller lists of equal length whose gains agree everywhere
      except possibly at the coordinates (p1, g1) and (p2, g2). */
  ghost predicate AgreeExcept(a: seq<Pid>, b: seq<Pid>, p1: nat, g1: nat, p2: nat, g2: nat)
  {
    && |a| == |b|
    && forall q: nat, h: nat ::
         q < |a| && h < 3 && (q != p1 || h != g1) && (q != p2 || h != g2) ==>
           GainAt(b[q], h) == GainAt(a[q], h)
  }

  /** Adds `delta` to gain `g` of controller `p` and leaves every other gain
      of every controller alone. */
  function Bump(cs: seq<Pid>, p: nat, g: nat, delta: real): (r: seq<Pid>)
    requires p < |cs| && g < 3
    ensures |r| == |cs|
    ensures GainAt(r[p], g) == GainAt(cs[p], g) + delta
    ensures AgreeExcept(cs, r, p, g, p, g)
  {
    cs[p := AddToGain(cs[p], g, delta)]
  }
}
