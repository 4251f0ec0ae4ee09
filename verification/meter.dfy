/**
  The meter's level state and the operations that change it: construction,
  `update`, `resetHold` and `setPreset`. Both clocks are parameters: `now`
  is the high-resolution clock `update` measures elapsed time with, in ms,
  and `wallNow` the wall clock the hold tracker timestamps with, in ms.
 */
module Meter {
  import opened Wrappers
  import opened ExtendedReal
  import opened MeterConfig
  import opened Scale
  import opened Dynamics

  /** The levels last stored, in dB; `hold` is initialised and never written afterwards. */
  datatype Levels = Levels(peak: ExtReal, rms: ExtReal, hold: ExtReal, lufs: ExtReal)

  const Silent := Levels(NegInf, NegInf, NegInf, NegInf)

  datatype Meter = Meter(
    config: Config,
    values: Levels,
    peakHold: HoldState,
    smoothedPeak: ExtReal,
    lastUpdateTime: real)

  /** The argument of `update`: each field may be left out. */
  datatype Reading = Reading(peak: Option<ExtReal>, rms: Option<ExtReal>, lufs: Option<ExtReal>, hold: Option<ExtReal>)

  const EmptyReading := Reading(None, None, None, None)

  /** A configuration the level invariant can rely on: an ordered range and non-negative rates. */
  predicate WellFormed(c: Config) {
    c.dbMin <= c.dbMax && c.releaseRate >= 0.0 && c.decayRate >= 0.0
  }

  /** A level that is either "no signal yet" or lies on the scale. */
  predicate OnScaleOrUnset(c: Config, x: ExtReal) {
    x == NegInf || (x.Fin? && c.dbMin <= x.v <= c.dbMax)
  }

  /** The level invariant: every clamped level, the smoothed peak and the held value are unset or on the scale. */
  predicate Valid(m: Meter) {
    && OnScaleOrUnset(m.config, m.values.peak)
    && OnScaleOrUnset(m.config, m.values.rms)
    && OnScaleOrUnset(m.config, m.values.hold)
    && OnScaleOrUnset(m.config, m.smoothedPeak)
    && OnScaleOrUnset(m.config, m.peakHold.value)
  }

  /** The constructor without its DOM work: resolved configuration, every level at minus infinity. */
  function Create(e: Overrides, now: real): (m: Meter)
    ensures Valid(m)
    ensures m.values == Silent && m.smoothedPeak == NegInf && m.peakHold == ClearedHold
    ensures m.lastUpdateTime == now
    ensures HonoursOverrides(m.config, e)
    ensures m.config == ResolveConfig(e)
  {
    Meter(ResolveConfig(e), Silent, ClearedHold, NegInf, now)
  }

  /**
    The peak branch of `update`: clamp, smooth when ballistics are on, store
    the displayed value and feed it to the hold tracker.
   */
  function PeakStep(m: Meter, peak: ExtReal, dt: real, wallNow: real): (r: Meter)
    ensures r.config == m.config && r.lastUpdateTime == m.lastUpdateTime
    ensures r.values == m.values.(peak := r.values.peak)
    ensures r.values.peak.Fin? && r.values.peak.v >= ClampDb(m.config, peak)
    ensures m.config.ballistics ==> r.smoothedPeak == r.values.peak
    ensures m.config.ballistics ==>
      r.smoothedPeak == Fin(ApplyBallistics(m.config, m.smoothedPeak, ClampDb(m.config, peak), dt))
    ensures !m.config.ballistics ==> r.smoothedPeak == m.smoothedPeak && r.values.peak == Fin(ClampDb(m.config, peak))
    ensures r.peakHold == UpdateHold(m.config, m.peakHold, r.values.peak.v, wallNow)
  {
    var c := m.config;
    var target := ClampDb(c, peak);
    var m1 :=
      if c.ballistics then
        var s := ApplyBallistics(c, m.smoothedPeak, target, dt);
        m.(smoothedPeak := Fin(s), values := m.values.(peak := Fin(s)))
      else m.(values := m.values.(peak := Fin(target)));
    m1.(peakHold := UpdateHold(c, m1.peakHold, m1.values.peak.v, wallNow))
  }

  /**
    `update`: stamp the time, then process only the fields supplied, in the
    order peak, rms, lufs, hold. rms and an external hold are clamped, lufs is
    stored as given, and an external hold overrides whatever the hold tracker
    just did.
   */
  function Update(m: Meter, data: Reading, now: real, wallNow: real): (r: Meter)
    ensures r.config == m.config && r.lastUpdateTime == now
    ensures r.values.hold == m.values.hold
    ensures data.peak.None? ==> r.values.peak == m.values.peak && r.smoothedPeak == m.smoothedPeak
    ensures data.peak.None? && data.hold.None? ==> r.peakHold == m.peakHold
    ensures data.peak.Some? ==> r.values.peak.Fin? && r.values.peak.v >= ClampDb(m.config, data.peak.value)
    ensures data.peak.Some? && !m.config.ballistics ==>
      r.values.peak == Fin(ClampDb(m.config, data.peak.value)) && r.smoothedPeak == m.smoothedPeak
    ensures data.peak.Some? && m.config.ballistics ==> r.smoothedPeak == r.values.peak
    ensures data.peak.Some? && m.config.ballistics ==>
      r.smoothedPeak == Fin(ApplyBallistics(m.config, m.smoothedPeak, ClampDb(m.config, data.peak.value),
                                            (now - m.lastUpdateTime) / 1000.0))
    ensures data.peak.Some? && data.hold.None? ==>
      r.peakHold == UpdateHold(m.config, m.peakHold, r.values.peak.v, wallNow)
    ensures data.rms.Some? ==> r.values.rms == Fin(ClampDb(m.config, data.rms.value))
    ensures data.rms.None? ==> r.values.rms == m.values.rms
    ensures data.lufs.Some? ==> r.values.lufs == data.lufs.value
    ensures data.lufs.None? ==> r.values.lufs == m.values.lufs
    ensures data.hold.Some? ==> r.peakHold.value == Fin(ClampDb(m.config, data.hold.value))
    ensures data.hold.Some? ==>
      r.peakHold.timestamp ==
        (if data.peak.Some? then UpdateHold(m.config, m.peakHold, r.values.peak.v, wallNow).timestamp
         else m.peakHold.timestamp)
  {
    var c := m.config;
    var dt := (now - m.lastUpdateTime) / 1000.0;
    var m1 := m.(lastUpdateTime := now);
    var m2 := if data.peak.Some? then PeakStep(m1, data.peak.value, dt, wallNow) else m1;
    var m3 := if data.rms.Some? then m2.(values := m2.values.(rms := Fin(ClampDb(c, data.rms.value)))) else m2;
    var m4 := if data.lufs.Some? then m3.(values := m3.values.(lufs := data.lufs.value)) else m3;
    if data.hold.Some? then m4.(peakHold := m4.peakHold.(value := Fin(ClampDb(c, data.hold.value)))) else m4
  }

  /** `resetHold`: forget the held peak. */
  function ResetHold(m: Meter): (r: Meter)
    ensures r.peakHold.value == NegInf && r.peakHold.timestamp == 0.0
    ensures r == m.(peakHold := r.peakHold)
    ensures Valid(m) ==> Valid(r)
  {
    m.(peakHold := ClearedHold)
  }

  /** `setPreset` on a live meter: only the configuration changes, and the level invariant survives it. */
  function SetMeterPreset(m: Meter, name: string): (r: Meter)
    ensures r == m.(config := r.config)
    ensures LookupPreset(name).None? ==> r == m
    ensures Valid(m) ==> Valid(r)
    ensures WellFormed(m.config) ==> WellFormed(r.config)
  {
    m.(config := SetPreset(m.config, name))
  }

  /** An update with no fields only moves the clock: no level, hold or smoothing state changes. */
  lemma EmptyUpdateOnlyAdvancesClock(m: Meter, now: real, wallNow: real)
    ensures Update(m, EmptyReading, now, wallNow) == m.(lastUpdateTime := now)
  {
  }

  /** The level invariant holds after any update on a well-formed configuration with a clock that does not run backwards. */
  lemma UpdatePreservesValid(m: Meter, data: Reading, now: real, wallNow: real)
    requires WellFormed(m.config) && Valid(m)
    requires now >= m.lastUpdateTime
    ensures Valid(Update(m, data, now, wallNow))
  {
  }

  /**
    The fields of a reading are handled one after another: an update with
    several fields is the same as single-field updates at the same instant,
    peak first, then rms, lufs and hold.
   */
  lemma UpdateIsFieldByField(m: Meter, data: Reading, now: real, wallNow: real)
    ensures Update(m, data, now, wallNow)
         == Update(Update(Update(Update(m,
              EmptyReading.(peak := data.peak), now, wallNow),
              EmptyReading.(rms := data.rms), now, wallNow),
              EmptyReading.(lufs := data.lufs), now, wallNow),
              EmptyReading.(hold := data.hold), now, wallNow)
  {
  }

  /**
    With ballistics on, the smoothed peak does not depend on how often the
    same sample is delivered: updates at `t1` and then `t2` leave it where a
    single update at `t2` would.
   */
  lemma SmoothingIgnoresUpdateCadence(m: Meter, peak: ExtReal, t1: real, t2: real, w1: real, w2: real)
    requires m.config.ballistics && m.config.releaseRate >= 0.0
    requires m.lastUpdateTime <= t1 <= t2
    ensures Update(Update(m, EmptyReading.(peak := Some(peak)), t1, w1), EmptyReading.(peak := Some(peak)), t2, w2).smoothedPeak
         == Update(m, EmptyReading.(peak := Some(peak)), t2, w2).smoothedPeak
  {
    var c := m.config;
    var target := ClampDb(c, peak);
    var cur := if m.smoothedPeak.Fin? then m.smoothedPeak.v else c.dbMin;
    var dt1 := (t1 - m.lastUpdateTime) / 1000.0;
    var dt2 := (t2 - t1) / 1000.0;
    BallisticsFrameRateIndependent(c, cur, target, dt1, dt2);
    assert dt1 + dt2 == (t2 - m.lastUpdateTime) / 1000.0;
  }

  /**
    The hold tracker compares a new peak with the held value before decaying
    it, so the held value can end up below the peak just stored: -6 dB held
    at t = 0, then -10 dB arriving at t = 3000 ms, leaves the hold at -36 dB.
   */
  lemma HoldCanFallBelowPeak(now: real)
    ensures var m := Meter(DefaultConfig.(ballistics := false), Silent.(peak := Fin(-6.0)),
                           HoldState(Fin(-6.0), 0.0), NegInf, 0.0);
            var r := Update(m, EmptyReading.(peak := Some(Fin(-10.0))), now, 3000.0);
            r.values.peak == Fin(-10.0) && r.peakHold.value == Fin(-36.0)
  {
  }

  /**
    An external hold is stored without a timestamp, so the next peak at or
    below it decays it by all the time since the last rising peak; on a new
    meter that time runs from the epoch, and the hold drops straight to
    `dbMin`: a -3 dB external hold followed 16 ms later by a -20 dB peak
    leaves the hold at -90 dB.
   */
  lemma ExternalHoldIsNotTimestamped(t0: real, t1: real, t2: real, wallNow: real)
    requires wallNow >= 10000.0
    ensures var m0 := Create(NoOverrides, t0);
            var m1 := Update(m0, EmptyReading.(hold := Some(Fin(-3.0))), t1, wallNow);
            var m2 := Update(m1, EmptyReading.(peak := Some(Fin(-20.0))), t2, wallNow + 16.0);
            m1.peakHold == HoldState(Fin(-3.0), 0.0) && m2.values.peak == Fin(-20.0)
            && m2.peakHold == HoldState(Fin(-90.0), 0.0)
  {
  }

  /** A non-finite sample of any kind, +infinity included, is stored as `dbMin`. */
  lemma NonFiniteSamplesReadAsFloor(m: Meter, x: ExtReal, now: real, wallNow: real)
    requires !x.Fin?
    ensures Update(m, EmptyReading.(rms := Some(x)), now, wallNow).values.rms == Fin(m.config.dbMin)
    ensures Update(m, EmptyReading.(hold := Some(x)), now, wallNow).peakHold.value == Fin(m.config.dbMin)
    ensures !m.config.ballistics ==>
      Update(m, EmptyReading.(peak := Some(x)), now, wallNow).values.peak == Fin(m.config.dbMin)
  {
  }
}
