/**
  The two time-driven parts of the meter: the peak ballistics (instant
  attack, linear release in dB/s) and the peak-hold tracker (rise, hold for
  `holdTime` ms, then decay in dB/s down to `dbMin`).
 */
module Dynamics {
  import opened ExtendedReal
  import opened MeterConfig

  /**
    `applyBallistics`: the displayed peak jumps straight up to a louder
    target and otherwise falls by at most `releaseRate * dt` dB, never past
    the target. A current value that is not finite counts as `dbMin`.
   */
  function ApplyBallistics(c: Config, current: ExtReal, target: real, dt: real): (r: real)
    ensures var cur := if current.Fin? then current.v else c.dbMin;
      && r >= target
      && (target >= cur ==> r == target)
      && (target < cur ==> r >= cur - c.releaseRate * dt)
      && (target < cur ==> r == target || r == cur - c.releaseRate * dt)
      && (target < cur && c.releaseRate >= 0.0 && dt >= 0.0 ==> r <= cur)
  {
    var cur := if current.Fin? then current.v else c.dbMin;
    if target >= cur then target
    else
      var released := cur - c.releaseRate * dt;
      if released < target then target else released
  }

  /**
    The release law does not depend on how time is sliced: two steps of
    `dt1` and `dt2` towards the same target land where one step of
    `dt1 + dt2` lands.
   */
  lemma BallisticsFrameRateIndependent(c: Config, current: real, target: real, dt1: real, dt2: real)
    requires c.releaseRate >= 0.0 && dt1 >= 0.0 && dt2 >= 0.0
    ensures ApplyBallistics(c, Fin(ApplyBallistics(c, Fin(current), target, dt1)), target, dt2)
         == ApplyBallistics(c, Fin(current), target, dt1 + dt2)
  {
  }

  /** Given enough time the displayed peak settles exactly on the target. */
  lemma BallisticsReachesTarget(c: Config, current: real, target: real, dt: real)
    requires c.releaseRate > 0.0 && dt >= 0.0
    requires current - target <= c.releaseRate * dt
    ensures ApplyBallistics(c, Fin(current), target, dt) == target
  {
  }

  /** At 20 dB/s, one second of release from 0 dB towards -90 dB lands on -20 dB. */
  lemma BallisticsExample(c: Config)
    requires c.releaseRate == 20.0 && c.dbMin == -90.0
    ensures ApplyBallistics(c, Fin(0.0), -90.0, 1.0) == -20.0
    ensures ApplyBallistics(c, NegInf, -12.0, 1.0) == -12.0
  {
  }

  /** The peak-hold state: the held level and the wall-clock time (ms) it was last raised. */
  datatype HoldState = HoldState(value: ExtReal, timestamp: real)

  /** `resetHold`: nothing held, timestamp at the epoch. */
  const ClearedHold := HoldState(NegInf, 0.0)

  /** How far, in seconds, `now` lies beyond the end of the hold window. */
  function PastWindow(c: Config, h: HoldState, now: real): real {
    (now - h.timestamp - c.holdTime) / 1000.0
  }

  /**
    `updateHold`: a peak above the held value is adopted and timestamped;
    otherwise the held value stays put inside the hold window and, past it,
    drops by `decayRate` dB for every second since the window closed, floored
    at `dbMin`. The timestamp is only ever refreshed by a new peak.
   */
  function UpdateHold(c: Config, h: HoldState, peak: real, now: real): (r: HoldState)
    ensures Less(h.value, Fin(peak)) ==> r == HoldState(Fin(peak), now)
    ensures !Less(h.value, Fin(peak)) ==> r.timestamp == h.timestamp
    ensures !Less(h.value, Fin(peak)) && now - h.timestamp <= c.holdTime ==> r == h
    ensures !Less(h.value, Fin(peak)) && now - h.timestamp > c.holdTime && h.value.Fin? ==>
      && r.value.Fin?
      && c.dbMin <= r.value.v
      && (c.decayRate >= 0.0 ==> r.value.v <= if h.value.v < c.dbMin then c.dbMin else h.value.v)
      && (h.value.v - PastWindow(c, h, now) * c.decayRate >= c.dbMin ==>
            h.value.v - r.value.v == PastWindow(c, h, now) * c.decayRate)
      && (h.value.v - PastWindow(c, h, now) * c.decayRate < c.dbMin ==> r.value.v == c.dbMin)
  {
    if Less(h.value, Fin(peak)) then HoldState(Fin(peak), now)
    else if now - h.timestamp > c.holdTime then
      var decay := PastWindow(c, h, now) * c.decayRate;
      HoldState(MaxWith(Minus(h.value, decay), c.dbMin), h.timestamp)
    else h
  }

  /** After a reset, any finite peak is adopted at once. */
  lemma ResetThenRise(c: Config, peak: real, now: real)
    ensures UpdateHold(c, ClearedHold, peak, now) == HoldState(Fin(peak), now)
  {
  }

  /** Past the window, a later call without a new peak leaves a held value no higher than an earlier one would. */
  lemma DecayMonotoneInTime(c: Config, h: HoldState, peak: real, now1: real, now2: real)
    requires c.decayRate >= 0.0
    requires h.value.Fin? && !Less(h.value, Fin(peak))
    requires now1 - h.timestamp > c.holdTime && now1 <= now2
    ensures UpdateHold(c, h, peak, now2).value.v <= UpdateHold(c, h, peak, now1).value.v
  {
    var p1, p2 := PastWindow(c, h, now1), PastWindow(c, h, now2);
    assert p1 <= p2;
    assert (p2 - p1) * c.decayRate >= 0.0;
    assert p1 * c.decayRate <= p2 * c.decayRate;
    assert now2 - h.timestamp > c.holdTime;
    var d1, d2 := p1 * c.decayRate, p2 * c.decayRate;
    assert UpdateHold(c, h, peak, now1).value == MaxWith(Minus(h.value, d1), c.dbMin);
    assert UpdateHold(c, h, peak, now2).value == MaxWith(Minus(h.value, d2), c.dbMin);
  }

  /**
    Because the timestamp is not refreshed while decaying, every call
    subtracts the whole time since the window closed, so decay compounds:
    two calls at `now1 <= now2` take the held value at least as low as a
    single call at `now2`.
   */
  lemma DecayCompounds(c: Config, h: HoldState, peak1: real, peak2: real, now1: real, now2: real)
    requires c.decayRate >= 0.0
    requires h.value.Fin? && c.dbMin <= h.value.v
    requires !Less(h.value, Fin(peak1)) && now1 - h.timestamp > c.holdTime && now1 <= now2
    requires !Less(UpdateHold(c, h, peak1, now1).value, Fin(peak2))
    ensures UpdateHold(c, UpdateHold(c, h, peak1, now1), peak2, now2).value.v
         <= UpdateHold(c, h, peak2, now2).value.v
  {
  }

  /**
    A concrete run with the default timing (hold 1500 ms, decay 20 dB/s):
    -6 dB held at t = 0 reads -16 dB at t = 2000 ms. A second call at
    t = 2500 ms reads -36 dB, where a steady 20 dB/s would give -26 dB.
   */
  lemma DecayCompoundsExample(c: Config)
    requires c.holdTime == 1500.0 && c.decayRate == 20.0 && c.dbMin == -90.0
    ensures UpdateHold(c, HoldState(Fin(-6.0), 0.0), -50.0, 2000.0) == HoldState(Fin(-16.0), 0.0)
    ensures UpdateHold(c, HoldState(Fin(-16.0), 0.0), -50.0, 2500.0) == HoldState(Fin(-36.0), 0.0)
  {
  }
}
