/**
  The scale mapper: clamping of incoming levels, the linear dB-to-percent
  mapping used for every bar and marker, and the three colour zones.
 */
module Scale {
  import opened ExtendedReal
  import opened MeterConfig

  /**
    `clampDb`: a non-finite input (NaN and both infinities) becomes `dbMin`;
    a finite one is clamped into `[dbMin, dbMax]`.
   */
  function ClampDb(c: Config, db: ExtReal): (r: real)
    ensures !db.Fin? ==> r == c.dbMin
    ensures c.dbMin <= r
    ensures c.dbMin <= c.dbMax ==> r <= c.dbMax
    ensures db.Fin? && c.dbMin <= db.v <= c.dbMax ==> r == db.v
    ensures db.Fin? && db.v < c.dbMin ==> r == c.dbMin
    ensures db.Fin? && c.dbMin <= c.dbMax < db.v ==> r == c.dbMax
  {
    if !db.Fin? then c.dbMin
    else
      var low := if c.dbMax < db.v then c.dbMax else db.v;
      if c.dbMin < low then low else c.dbMin
  }

  /** Clamping a clamped value changes nothing. */
  lemma ClampIdempotent(c: Config, db: ExtReal)
    ensures ClampDb(c, Fin(ClampDb(c, db))) == ClampDb(c, db)
  {
  }

  /**
    `dbToPercent`: 0 at or below `dbMin` (minus infinity included), 100 at or
    above `dbMax`, linear in between. Only NaN slips through both comparisons,
    and it comes out as NaN.
   */
  function DbToPercent(c: Config, db: ExtReal): (r: ExtReal)
    ensures db.NaN? <==> r.NaN?
    ensures !db.NaN? ==> r.Fin? && 0.0 <= r.v <= 100.0
    ensures AtMost(db, Fin(c.dbMin)) ==> r == Fin(0.0)
    ensures Less(Fin(c.dbMin), db) && AtMost(Fin(c.dbMax), db) ==> r == Fin(100.0)
  {
    if AtMost(db, Fin(c.dbMin)) then Fin(0.0)
    else if AtMost(Fin(c.dbMax), db) then Fin(100.0)
    else if db.Fin? then Fin((db.v - c.dbMin) / (c.dbMax - c.dbMin) * 100.0)
    else NaN
  }

  /** The position of a finite level on the scale, as a plain percentage. */
  function Percent(c: Config, x: real): (p: real)
    ensures 0.0 <= p <= 100.0
  {
    DbToPercent(c, Fin(x)).v
  }

  /** The level a percentage stands for on a non-degenerate scale; the inverse of the linear part. */
  function PercentToDb(c: Config, p: real): real
    requires c.dbMin < c.dbMax
  {
    c.dbMin + p / 100.0 * (c.dbMax - c.dbMin)
  }

  lemma ScaleArith(lo: real, hi: real, x: real, y: real)
    requires lo < hi && x <= y
    ensures (x - lo) / (hi - lo) * 100.0 <= (y - lo) / (hi - lo) * 100.0
    ensures x < y ==> (x - lo) / (hi - lo) * 100.0 < (y - lo) / (hi - lo) * 100.0
  {
  }

  /** The mapping never reverses order, whatever the range (NaN aside). */
  lemma DbToPercentMonotone(c: Config, a: ExtReal, b: ExtReal)
    requires AtMost(a, b)
    ensures DbToPercent(c, a).v <= DbToPercent(c, b).v
  {
    if a.Fin? && b.Fin? && c.dbMin < a.v && b.v < c.dbMax {
      ScaleArith(c.dbMin, c.dbMax, a.v, b.v);
    }
  }

  /** Inside a non-degenerate range the mapping is strictly increasing, so it also reflects order. */
  lemma DbToPercentStrictInRange(c: Config, x: real, y: real)
    requires c.dbMin < c.dbMax
    requires c.dbMin <= x <= c.dbMax && c.dbMin <= y <= c.dbMax
    ensures Percent(c, x) < Percent(c, y) <==> x < y
    ensures Percent(c, x) == Percent(c, y) <==> x == y
  {
    if x < y {
      StrictStep(c, x, y);
    } else if y < x {
      StrictStep(c, y, x);
    }
  }

  lemma StrictStep(c: Config, x: real, y: real)
    requires c.dbMin < c.dbMax
    requires c.dbMin <= x < y <= c.dbMax
    ensures Percent(c, x) < Percent(c, y)
  {
    if x == c.dbMin {
      assert Percent(c, x) == 0.0;
      if y < c.dbMax {
        var w := c.dbMax - c.dbMin;
        assert (y - c.dbMin) / w > 0.0;
      }
    } else if y == c.dbMax {
      assert Percent(c, y) == 100.0;
      ScaleArith(c.dbMin, c.dbMax, x, y);
      assert (c.dbMax - c.dbMin) / (c.dbMax - c.dbMin) == 1.0;
    } else {
      ScaleArith(c.dbMin, c.dbMax, x, y);
    }
  }

  /** On a non-degenerate scale the ends land exactly on 0 and 100. */
  lemma EndPoints(c: Config)
    requires c.dbMin < c.dbMax
    ensures Percent(c, c.dbMin) == 0.0
    ensures Percent(c, c.dbMax) == 100.0
  {
  }

  /** Converting a level in range to a percentage and back recovers the level. */
  lemma PercentRoundTrip(c: Config, x: real)
    requires c.dbMin < c.dbMax
    requires c.dbMin <= x <= c.dbMax
    ensures PercentToDb(c, Percent(c, x)) == x
  {
    var w := c.dbMax - c.dbMin;
    if c.dbMin < x < c.dbMax {
      assert Percent(c, x) / 100.0 * w == (x - c.dbMin) / w * w;
    }
  }

  datatype Zone = Normal | Warning | Danger

  /** The zone a level falls in, by the same comparisons the colour lookup uses. */
  function ZoneOf(c: Config, db: ExtReal): Zone {
    if AtMost(Fin(c.thresholds.danger), db) then Danger
    else if AtMost(Fin(c.thresholds.warning), db) then Warning
    else Normal
  }

  function ZoneColor(c: Config, z: Zone): string {
    match z
    case Danger => c.colors.danger
    case Warning => c.colors.warning
    case Normal => c.colors.peak
  }

  /**
    `getColorForLevel`: danger colour from the danger threshold up, warning
    colour from the warning threshold up, peak colour below. Both tests are
    JavaScript `>=`, so NaN fails them and gets the peak colour.
   */
  function ColorForLevel(c: Config, db: ExtReal): (r: string)
    ensures AtMost(Fin(c.thresholds.danger), db) ==> r == c.colors.danger
    ensures !AtMost(Fin(c.thresholds.danger), db) && AtMost(Fin(c.thresholds.warning), db) ==> r == c.colors.warning
    ensures !AtMost(Fin(c.thresholds.danger), db) && !AtMost(Fin(c.thresholds.warning), db) ==> r == c.colors.peak
    ensures db.NaN? ==> r == c.colors.peak
  {
    ZoneColor(c, ZoneOf(c, db))
  }

  function Rank(z: Zone): nat {
    match z
    case Normal => 0
    case Warning => 1
    case Danger => 2
  }

  /** With ordered thresholds a louder level never lands in a quieter zone; NaN is always Normal. */
  lemma ZoneMonotone(c: Config, a: ExtReal, b: ExtReal)
    requires c.thresholds.warning <= c.thresholds.danger
    requires AtMost(a, b)
    ensures Rank(ZoneOf(c, a)) <= Rank(ZoneOf(c, b))
    ensures ZoneOf(c, NaN) == Normal
  {
  }

  /** The two hard stops of the peak bar's gradient: the positions of the warning and danger thresholds. */
  datatype GradientStops = GradientStops(warningPos: real, dangerPos: real)

  /** On a non-degenerate scale a threshold off the scale is pinned to its end: 0 at or below `dbMin`, 100 at or above `dbMax`. */
  predicate PinnedAt(c: Config, t: real, pos: real)
    requires c.dbMin < c.dbMax
  {
    && (t <= c.dbMin ==> pos == 0.0)
    && (c.dbMax <= t ==> pos == 100.0)
  }

  /** `getGradient`'s stops: each threshold placed by `dbToPercent`. */
  function Stops(c: Config): (s: GradientStops)
    ensures 0.0 <= s.warningPos <= 100.0 && 0.0 <= s.dangerPos <= 100.0
    ensures c.thresholds.warning <= c.thresholds.danger ==> s.warningPos <= s.dangerPos
    ensures c.dbMin < c.dbMax ==> PinnedAt(c, c.thresholds.warning, s.warningPos)
    ensures c.dbMin < c.dbMax ==> PinnedAt(c, c.thresholds.danger, s.dangerPos)
  {
    var s := GradientStops(Percent(c, c.thresholds.warning), Percent(c, c.thresholds.danger));
    if c.thresholds.warning <= c.thresholds.danger then
      DbToPercentMonotone(c, Fin(c.thresholds.warning), Fin(c.thresholds.danger));
      s
    else s
  }

  /** A threshold inside the scale gets the stop position that reads back as that threshold. */
  lemma StopsReadBack(c: Config)
    requires c.dbMin < c.dbMax
    ensures c.dbMin < c.thresholds.warning < c.dbMax ==> PercentToDb(c, Stops(c).warningPos) == c.thresholds.warning
    ensures c.dbMin < c.thresholds.danger < c.dbMax ==> PercentToDb(c, Stops(c).dangerPos) == c.thresholds.danger
  {
    if c.dbMin < c.thresholds.warning < c.dbMax {
      PercentRoundTrip(c, c.thresholds.warning);
    }
    if c.dbMin < c.thresholds.danger < c.dbMax {
      PercentRoundTrip(c, c.thresholds.danger);
    }
  }

  /**
    The colour the hard-stop gradient `peak 0%, peak w%, warning w%,
    warning d%, danger d%, danger 100%` paints at position `p`, read with the
    CSS rules that at a shared stop position the later (upper) colour shows
    and that a stop placed before an earlier one is moved up onto it, so
    with `d < w` the warning band vanishes.
   */
  function GradientColorAt(c: Config, p: real): (r: string)
    ensures r == c.colors.peak || r == c.colors.warning || r == c.colors.danger
    ensures p < Stops(c).warningPos ==> r == c.colors.peak
    ensures Stops(c).warningPos <= p && Stops(c).dangerPos <= p ==> r == c.colors.danger
    ensures Stops(c).warningPos <= p < Stops(c).dangerPos ==> r == c.colors.warning
  {
    var s := Stops(c);
    if p < s.warningPos then c.colors.peak
    else if p < s.dangerPos then c.colors.warning
    else c.colors.danger
  }

  lemma PositionBelowThreshold(c: Config, x: real, t: real)
    requires c.dbMin < c.dbMax
    requires c.dbMin <= x <= c.dbMax && t <= c.dbMax
    ensures Percent(c, x) < Percent(c, t) <==> x < t
  {
    if t < c.dbMin {
      assert Percent(c, t) == 0.0;
    } else {
      DbToPercentStrictInRange(c, x, t);
    }
  }

  /**
    The gradient painted on the peak bar and the colour lookup agree: at the
    height a level reaches, the gradient shows the colour `getColorForLevel`
    gives that level, as long as both thresholds lie on or below the top of
    the scale in the usual order.
   */
  lemma GradientAgreesWithColorForLevel(c: Config, x: real)
    requires c.dbMin < c.dbMax
    requires c.thresholds.warning <= c.thresholds.danger <= c.dbMax
    requires c.dbMin <= x <= c.dbMax
    ensures GradientColorAt(c, Percent(c, x)) == ColorForLevel(c, Fin(x))
  {
    PositionBelowThreshold(c, x, c.thresholds.warning);
    PositionBelowThreshold(c, x, c.thresholds.danger);
  }
}
