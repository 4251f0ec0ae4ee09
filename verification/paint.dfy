/**
  One frame of the render loop as a pure view of the meter: which bars and
  readouts exist, how long each bar is, where the hold marker sits, whether
  it shows the clip state, and whether each readout shows a number or the
  `---` placeholder. The style writes themselves are not modelled.
 */
module Paint {
  import opened Wrappers
  import opened ExtendedReal
  import opened MeterConfig
  import opened Scale
  import opened Meter

  /** A numeric readout: the `---` placeholder or a level (shown to one decimal place). */
  datatype Readout = Placeholder | Shows(level: ExtReal)

  datatype HoldMarker = HoldMarker(position: ExtReal, clip: bool)

  datatype Numeric = Numeric(text: Readout, clip: bool)

  /**
    What a frame shows. The peak bar always exists; the others exist when the
    configuration turns them on. `peakGradient` is present when the zone
    gradient is (re)applied to the peak bar, which happens only while the bar
    has a positive length.
   */
  datatype View = View(
    vertical: bool,
    peakLength: ExtReal,
    peakGradient: Option<GradientStops>,
    rmsLength: Option<ExtReal>,
    lufsLength: Option<ExtReal>,
    hold: Option<HoldMarker>,
    numeric: Option<Numeric>,
    lufsText: Option<Readout>)

  /** The clip state: the held level at or above `dbClip`. */
  predicate Clipping(m: Meter) {
    AtMost(Fin(m.config.dbClip), m.peakHold.value)
  }

  /** One evaluation of `paint`. */
  function PaintView(m: Meter): (v: View)
    ensures v.vertical <==> m.config.orientation == "vertical"
    ensures v.peakLength == DbToPercent(m.config, m.values.peak)
    ensures v.rmsLength.Some? ==> v.rmsLength.value == DbToPercent(m.config, m.values.rms)
    ensures v.lufsLength.Some? ==> v.lufsLength.value == DbToPercent(m.config, m.values.lufs)
    ensures v.hold.Some? ==> v.hold.value.position == DbToPercent(m.config, m.peakHold.value)
    ensures v.peakGradient.Some? ==> v.peakGradient.value == Stops(m.config)
    ensures v.rmsLength.Some? <==> m.config.showRMS
    ensures v.lufsLength.Some? <==> m.config.showLUFS
    ensures v.lufsText.Some? <==> m.config.showLUFS
    ensures v.hold.Some? <==> m.config.showHold
    ensures v.numeric.Some? <==> m.config.showNumeric
    ensures v.hold.Some? ==> (v.hold.value.clip <==> Clipping(m))
    ensures v.numeric.Some? ==> (v.numeric.value.clip <==> Clipping(m))
    ensures v.numeric.Some? ==>
      (v.numeric.value.text == Placeholder <==> !Less(Fin(m.config.dbMin), m.peakHold.value))
    ensures v.numeric.Some? && v.numeric.value.text.Shows? ==> v.numeric.value.text.level == m.peakHold.value
    ensures v.lufsText.Some? ==> (v.lufsText.value.Shows? <==> Less(Fin(-70.0), m.values.lufs))
    ensures v.lufsText.Some? && v.lufsText.value.Shows? ==> v.lufsText.value.level == m.values.lufs
    ensures v.peakGradient.Some? <==> (v.peakLength.Fin? && v.peakLength.v > 0.0)
  {
    var c := m.config;
    var peakLength := DbToPercent(c, m.values.peak);
    var clip := Clipping(m);
    View(
      c.orientation == "vertical",
      peakLength,
      if peakLength.Fin? && peakLength.v > 0.0 then Some(Stops(c)) else None,
      if c.showRMS then Some(DbToPercent(c, m.values.rms)) else None,
      if c.showLUFS then Some(DbToPercent(c, m.values.lufs)) else None,
      if c.showHold then Some(HoldMarker(DbToPercent(c, m.peakHold.value), clip)) else None,
      if c.showNumeric then
        Some(Numeric(if Less(Fin(c.dbMin), m.peakHold.value) then Shows(m.peakHold.value) else Placeholder, clip))
      else None,
      if c.showLUFS then
        Some(if Less(Fin(-70.0), m.values.lufs) then Shows(m.values.lufs) else Placeholder)
      else None)
  }

  /** On a valid meter every bar and the hold marker lie in [0, 100]; so does the LUFS bar unless LUFS is NaN. */
  lemma LengthsInRange(m: Meter)
    requires Valid(m)
    ensures var v := PaintView(m);
      && v.peakLength.Fin? && 0.0 <= v.peakLength.v <= 100.0
      && (v.rmsLength.Some? ==> v.rmsLength.value.Fin? && 0.0 <= v.rmsLength.value.v <= 100.0)
      && (v.hold.Some? ==> v.hold.value.position.Fin? && 0.0 <= v.hold.value.position.v <= 100.0)
      && (v.lufsLength.Some? && !m.values.lufs.NaN? ==>
            v.lufsLength.value.Fin? && 0.0 <= v.lufsLength.value.v <= 100.0)
  {
  }

  /** On a valid meter the hold readout is the placeholder exactly when the held level is at or below `dbMin`. */
  lemma PlaceholderIffAtFloor(m: Meter)
    requires Valid(m) && m.config.showNumeric
    ensures PaintView(m).numeric.value.text == Placeholder <==> AtMost(m.peakHold.value, Fin(m.config.dbMin))
  {
  }

  /**
    Before any update the frame is empty: zero-length bars, no gradient,
    placeholders in both readouts and no clip state.
   */
  lemma FreshMeterPaintsEmpty(e: Overrides, now: real)
    ensures var v := PaintView(Create(e, now));
      && v.peakLength == Fin(0.0) && v.peakGradient.None?
      && (v.rmsLength.Some? ==> v.rmsLength.value == Fin(0.0))
      && (v.lufsLength.Some? ==> v.lufsLength.value == Fin(0.0))
      && (v.hold.Some? ==> v.hold.value == HoldMarker(Fin(0.0), false))
      && (v.numeric.Some? ==> v.numeric.value == Numeric(Placeholder, false))
      && (v.lufsText.Some? ==> v.lufsText.value == Placeholder)
  {
  }

  /**
    A sample at or above the top of the scale fills the peak bar, and with
    ballistics off a sample at or below the bottom empties it (the
    default-range example: -90 dB reads 0 % and +6 dB reads 100 %).
   */
  lemma FullScaleSamples(m: Meter, x: ExtReal, now: real, wallNow: real)
    requires m.config.dbMin < m.config.dbMax
    requires x.PosInf? || x.Fin?
    ensures x.Fin? && x.v >= m.config.dbMax ==>
      PaintView(Update(m, EmptyReading.(peak := Some(x)), now, wallNow)).peakLength == Fin(100.0)
    ensures !m.config.ballistics && (x.PosInf? || x.v <= m.config.dbMin) ==>
      PaintView(Update(m, EmptyReading.(peak := Some(x)), now, wallNow)).peakLength == Fin(0.0)
  {
  }

  /** An external hold at or above `dbClip` turns the clip state on in the very next frame. */
  lemma ExternalHoldClips(m: Meter, h: real, now: real, wallNow: real)
    requires m.config.dbMin <= m.config.dbClip <= h <= m.config.dbMax
    ensures Clipping(Update(m, EmptyReading.(hold := Some(Fin(h))), now, wallNow))
  {
  }
}
