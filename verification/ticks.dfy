/**
  The scale legend: which decibel values get a major (labelled) tick and
  which a minor one, and which of them are drawn. Ticks sit at whole dB.
 */
module Ticks {
  import opened ExtendedReal
  import opened MeterConfig
  import opened Scale
  import opened TickLabels

  /** Major tick values: +6 when the scale reaches it, 0 always, -4 to -40 every 4 dB and then every 10 dB, both runs ending at `dbMin`. */
  predicate IsMajor(dbMin: real, dbMax: real, t: int) {
    || (t == 6 && dbMax >= 6.0)
    || t == 0
    || (-40 <= t <= -4 && t % 4 == 0 && t as real >= dbMin)
    || (t <= -50 && t % 10 == 0 && t as real >= dbMin)
  }

  /** Minor tick values: every dB from +5 to -3 that is in range and not major, and -2 to -38 every 4 dB down to `dbMin`. */
  predicate IsMinor(dbMin: real, dbMax: real, t: int) {
    || (-3 <= t <= 5 && dbMin <= t as real <= dbMax && !IsMajor(dbMin, dbMax, t))
    || (-38 <= t <= -2 && t % 4 == 2 && t as real >= dbMin)
  }

  predicate StrictlyDecreasing(s: seq<int>) {
    forall i, j :: 0 <= i < j < |s| ==> s[i] > s[j]
  }

  predicate NoDuplicates(s: seq<int>) {
    forall i, j :: 0 <= i < j < |s| ==> s[i] != s[j]
  }

  /** The major list `createScale` builds: +6 if the scale reaches it, 0, then the two descending runs. */
  method MajorTickList(dbMin: real, dbMax: real) returns (majors: seq<int>)
    ensures StrictlyDecreasing(majors)
    ensures forall t :: t in majors <==> IsMajor(dbMin, dbMax, t)
  {
    majors := [];
    if dbMax >= 6.0 {
      majors := majors + [6];
    }
    majors := majors + [0];
    var db := -4;
    while db >= -40 && db as real >= dbMin
      invariant -44 <= db <= -4 && db % 4 == 0
      invariant |majors| > 0 && majors[|majors| - 1] > db
      invariant StrictlyDecreasing(majors)
      invariant forall t :: t in majors <==>
        ((t == 6 && dbMax >= 6.0) || t == 0 || (db < t <= -4 && t % 4 == 0 && t as real >= dbMin))
    {
      majors := majors + [db];
      db := db - 4;
    }
    db := -50;
    while db as real >= dbMin
      invariant db <= -50 && db % 10 == 0
      invariant |majors| > 0 && majors[|majors| - 1] > db
      invariant StrictlyDecreasing(majors)
      invariant forall t :: t in majors <==>
        ((t == 6 && dbMax >= 6.0) || t == 0 || (-40 <= t <= -4 && t % 4 == 0 && t as real >= dbMin)
         || (db < t <= -50 && t % 10 == 0 && t as real >= dbMin))
      decreases db - dbMin.Floor
    {
      majors := majors + [db];
      db := db - 10;
    }
  }

  /**
    The minor list: the 1 dB steps from +5 to -3 that are in range and not
    already major, then the 4 dB run from -2, skipping values already listed.
   */
  method MinorTickList(dbMin: real, dbMax: real, majors: seq<int>) returns (minors: seq<int>)
    requires forall t :: t in majors <==> IsMajor(dbMin, dbMax, t)
    ensures NoDuplicates(minors)
    ensures forall t :: t in minors <==> IsMinor(dbMin, dbMax, t)
    ensures forall t :: t in minors ==> t !in majors
  {
    minors := [];
    var db := 5;
    while db >= -3
      invariant -4 <= db <= 5
      invariant NoDuplicates(minors)
      invariant forall t :: t in minors <==> (db < t <= 5 && dbMin <= t as real <= dbMax && t !in majors)
    {
      if db as real <= dbMax && db as real >= dbMin && db !in majors {
        minors := minors + [db];
      }
      db := db - 1;
    }
    db := -2;
    while db >= -40 && db as real >= dbMin
      invariant -42 <= db <= -2 && db % 4 == 2
      invariant NoDuplicates(minors)
      invariant forall t :: t in minors <==>
        ((-3 <= t <= 5 && dbMin <= t as real <= dbMax && t !in majors)
         || (db < t <= -2 && t % 4 == 2 && t as real >= dbMin))
    {
      if db !in minors {
        minors := minors + [db];
      }
      db := db - 4;
    }
  }

  /** Both lists, built in the order `createScale` builds them. */
  method TickLists(dbMin: real, dbMax: real) returns (majors: seq<int>, minors: seq<int>)
    ensures StrictlyDecreasing(majors)
    ensures forall t :: t in majors <==> IsMajor(dbMin, dbMax, t)
    ensures NoDuplicates(minors)
    ensures forall t :: t in minors <==> IsMinor(dbMin, dbMax, t)
    ensures forall t :: t in minors ==> t !in majors
  {
    majors := MajorTickList(dbMin, dbMax);
    minors := MinorTickList(dbMin, dbMax, majors);
  }

  /** The values of a list that fall on the scale, in their original order (the drawing filter). */
  function OnScale(c: Config, ts: seq<int>): (r: seq<int>)
    ensures forall t :: t in r <==> t in ts && c.dbMin <= t as real <= c.dbMax
    ensures |r| <= |ts|
    ensures StrictlyDecreasing(ts) ==> StrictlyDecreasing(r)
    ensures NoDuplicates(ts) ==> NoDuplicates(r)
  {
    if ts == [] then []
    else
      var rest := OnScale(c, ts[1..]);
      if c.dbMin <= ts[0] as real <= c.dbMax then
        HeadLeads(ts);
        Prepend(ts[0], rest);
        [ts[0]] + rest
      else rest
  }

  /** In a decreasing list the head is above everything after it; in a duplicate-free one it recurs nowhere. */
  lemma HeadLeads(ts: seq<int>)
    requires |ts| > 0
    ensures StrictlyDecreasing(ts) ==> forall t :: t in ts[1..] ==> ts[0] > t
    ensures NoDuplicates(ts) ==> ts[0] !in ts[1..]
  {
  }

  lemma Prepend(x: int, rest: seq<int>)
    ensures StrictlyDecreasing(rest) && (forall t :: t in rest ==> x > t) ==> StrictlyDecreasing([x] + rest)
    ensures NoDuplicates(rest) && x !in rest ==> NoDuplicates([x] + rest)
  {
    var s := [x] + rest;
    assert forall j :: 1 <= j < |s| ==> s[j] == rest[j - 1] && s[j] in rest;
  }

  /** A drawn tick: its value, its position in percent of the scale, and for a major its label. */
  datatype Tick = Major(db: int, position: ExtReal, text: string) | Minor(db: int, position: ExtReal)

  function MajorTick(c: Config, db: int): Tick {
    Major(db, DbToPercent(c, Fin(db as real)), Label(db))
  }

  function MinorTick(c: Config, db: int): Tick {
    Minor(db, DbToPercent(c, Fin(db as real)))
  }

  /** The values of a list of drawn ticks, in drawing order. */
  function TickValues(ticks: seq<Tick>): (r: seq<int>)
    ensures |r| == |ticks|
    ensures forall k :: 0 <= k < |ticks| ==> r[k] == ticks[k].db
  {
    if ticks == [] then [] else [ticks[0].db] + TickValues(ticks[1..])
  }

  /** One labelled major tick per value, in order. */
  function DrawMajors(c: Config, ts: seq<int>): (r: seq<Tick>)
    ensures TickValues(r) == ts
    ensures forall k :: 0 <= k < |r| ==> r[k] == MajorTick(c, ts[k])
  {
    if ts == [] then [] else [MajorTick(c, ts[0])] + DrawMajors(c, ts[1..])
  }

  /** One unlabelled minor tick per value, in order. */
  function DrawMinors(c: Config, ts: seq<int>): (r: seq<Tick>)
    ensures TickValues(r) == ts
    ensures forall k :: 0 <= k < |r| ==> r[k] == MinorTick(c, ts[k])
  {
    if ts == [] then [] else [MinorTick(c, ts[0])] + DrawMinors(c, ts[1..])
  }

  /**
    The ticks `createScale` draws: every major and minor value that lies in
    `[dbMin, dbMax]`, majors with their labels, each placed by `dbToPercent`.
   */
  method ScaleTicks(c: Config) returns (majorTicks: seq<Tick>, minorTicks: seq<Tick>)
    ensures forall k :: 0 <= k < |majorTicks| ==> majorTicks[k] == MajorTick(c, majorTicks[k].db)
    ensures forall k :: 0 <= k < |minorTicks| ==> minorTicks[k] == MinorTick(c, minorTicks[k].db)
    ensures forall t :: t in TickValues(majorTicks) <==> IsMajor(c.dbMin, c.dbMax, t) && c.dbMin <= t as real <= c.dbMax
    ensures forall t :: t in TickValues(minorTicks) <==> IsMinor(c.dbMin, c.dbMax, t) && c.dbMin <= t as real <= c.dbMax
    ensures StrictlyDecreasing(TickValues(majorTicks))
    ensures NoDuplicates(TickValues(minorTicks))
  {
    var majors, minors := TickLists(c.dbMin, c.dbMax);
    var shownMajors := OnScale(c, majors);
    var shownMinors := OnScale(c, minors);
    majorTicks := DrawMajors(c, shownMajors);
    minorTicks := DrawMinors(c, shownMinors);
  }
}
