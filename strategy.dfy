/**
 * The strategy a transform decides once, when it is built, from its source and target CRS,
 * and the ordered list of stages that per-point transformation then runs.
 */
module TransformStrategy {
  import opened Options
  import opened Datums
  import opened Pipeline
  import opened Coordinates

  /** The precomputed flags and the parameters of the two geocentric converters, if built. */
  datatype Strategy = Strategy(
    doInverseProjection: bool,
    doForwardProjection: bool,
    doDatumTransform: bool,
    transformViaGeocentric: bool,
    srcConverter: Option<ConverterParams>,
    tgtConverter: Option<ConverterParams>)
  {
    /** The geocentric detour is only ever part of a datum transform, and both converters exist exactly for it. */
    predicate Consistent()
    {
      (transformViaGeocentric ==> doDatumTransform) &&
      (srcConverter.Some? <==> transformViaGeocentric) &&
      (tgtConverter.Some? <==> transformViaGeocentric)
    }
  }

  /** Whether a source-side converter is switched to WGS84 parameters (heuristic kept from the library). */
  predicate OverridesSource(src: Crs, tgt: Crs, p: Predicates)
  {
    src.datum.transformType == GridShift ||
    (!p.isTransformToWgs84(src.datum.transformType) && !tgt.isGeographic)
  }

  /** The target-side counterpart of OverridesSource. */
  predicate OverridesTarget(src: Crs, tgt: Crs, p: Predicates)
  {
    tgt.datum.transformType == GridShift ||
    (!p.isTransformToWgs84(tgt.datum.transformType) && !src.isGeographic)
  }

  /**
   * The construction-time decision for the pair (src, tgt); `geo` is the plain-geographic
   * sentinel CRS that needs no projection.
   */
  function ComputeStrategy(src: Crs, tgt: Crs, geo: Crs, p: Predicates): (s: Strategy)
    ensures s.Consistent()
    ensures s.doInverseProjection <==> src != geo
    ensures s.doForwardProjection <==> tgt != geo
    // a datum transform needs both projections and two datums that are neither the same object nor equal
    ensures s.doDatumTransform ==>
      s.doInverseProjection && s.doForwardProjection &&
      src.datum != tgt.datum && !p.datumIsEqual(src.datum, tgt.datum)
    // an unknown datum with no WGS84 pivot on either side blocks the datum transform
    ensures (!p.isTransformToWgs84(src.datum.transformType) && !p.isTransformToWgs84(tgt.datum.transformType) &&
             (src.datum.transformType == Unknown || tgt.datum.transformType == Unknown)) ==> !s.doDatumTransform
    // and otherwise distinct, unequal datums between two projected ends always get one
    ensures (src != geo && tgt != geo && src.datum != tgt.datum && !p.datumIsEqual(src.datum, tgt.datum) &&
             (p.isTransformToWgs84(src.datum.transformType) || p.isTransformToWgs84(tgt.datum.transformType) ||
              (src.datum.transformType != Unknown && tgt.datum.transformType != Unknown))) ==> s.doDatumTransform
    ensures s.doDatumTransform ==>
      (s.transformViaGeocentric <==>
        !p.ellipsoidIsEqual(src.datum.ellipsoid, tgt.datum.ellipsoid) ||
        p.isTransformToWgs84(src.datum.transformType) || p.isTransformToWgs84(tgt.datum.transformType))
    ensures s.transformViaGeocentric ==>
      s.srcConverter == Some(if OverridesSource(src, tgt, p) then Wgs84Params else Ellipsoidal(src.datum.ellipsoid)) &&
      s.tgtConverter == Some(if OverridesTarget(src, tgt, p) then Wgs84Params else Ellipsoidal(tgt.datum.ellipsoid))
  {
    var srcType := src.datum.transformType;
    var tgtType := tgt.datum.transformType;
    var srcToWgs84 := p.isTransformToWgs84(srcType);
    var tgtToWgs84 := p.isTransformToWgs84(tgtType);
    var doInverse := src != geo;
    var doForward := tgt != geo;
    var doDatum := doInverse && doForward && src.datum != tgt.datum &&
      !p.datumIsEqual(src.datum, tgt.datum) &&
      (srcToWgs84 || tgtToWgs84 || (srcType != Unknown && tgtType != Unknown));
    var viaGeocentric := doDatum &&
      (!p.ellipsoidIsEqual(src.datum.ellipsoid, tgt.datum.ellipsoid) || srcToWgs84 || tgtToWgs84);
    var srcConv := if !viaGeocentric then None
      else if OverridesSource(src, tgt, p) then Some(Wgs84Params) else Some(Ellipsoidal(src.datum.ellipsoid));
    var tgtConv := if !viaGeocentric then None
      else if OverridesTarget(src, tgt, p) then Some(Wgs84Params) else Some(Ellipsoidal(tgt.datum.ellipsoid));
    Strategy(doInverse, doForward, doDatum, viaGeocentric, srcConv, tgtConv)
  }

  /** `[st]` when `b` holds, otherwise nothing. */
  function Opt(b: bool, st: Step): seq<Step>
  {
    if b then [st] else []
  }

  /** Stages before the datum sub-procedure. */
  function Prelude(s: Strategy): seq<Step>
  {
    [ToEnu] + Opt(s.doInverseProjection, InverseProject) + [ToGreenwich] + [ClearZ]
  }

  /** The geocentric detour of the datum sub-procedure, for a strategy whose converters exist. */
  function GeocentricPlan(s: Strategy, src: Crs, tgt: Crs): seq<Step>
    requires s.Consistent()
  {
    if s.transformViaGeocentric then
      [ToGeocentric(s.srcConverter.value)] +
      Opt(src.datum.hasTransformToWgs84, SourceToWgs84) +
      Opt(tgt.datum.hasTransformToWgs84, Wgs84ToTarget) +
      [ToGeodetic(s.tgtConverter.value)]
    else []
  }

  /** The stages of the datum sub-procedure. */
  function DatumPlan(s: Strategy, src: Crs, tgt: Crs): seq<Step>
    requires s.Consistent()
  {
    Opt(src.datum.transformType == GridShift, Shift) +
    GeocentricPlan(s, src, tgt) +
    Opt(tgt.datum.transformType == GridShift, InverseShift)
  }

  /** Stages after the datum sub-procedure. */
  function Postlude(s: Strategy): seq<Step>
  {
    [FromGreenwich] + Opt(s.doForwardProjection, Project) + [FromEnu]
  }

  /** Every stage one call of transform runs, in order. */
  function Plan(s: Strategy, src: Crs, tgt: Crs): seq<Step>
    requires s.Consistent()
  {
    Prelude(s) + (if s.doDatumTransform then DatumPlan(s, src, tgt) else []) + Postlude(s)
  }

  lemma AppendOpt(d: seq<Step>, b: bool, st: Step)
    ensures d + Opt(b, st) == if b then d + [st] else d
  {
  }

  lemma AppendWhen(d: seq<Step>, b: bool, x: seq<Step>)
    ensures d + (if b then x else []) == if b then d + x else d
  {
  }

  /** The plan written the way transform builds it, one stage after another. */
  lemma PlanAsBuilt(s: Strategy, src: Crs, tgt: Crs)
    requires s.Consistent()
    ensures Plan(s, src, tgt) ==
      Prelude(s) + (if s.doDatumTransform then DatumPlan(s, src, tgt) else []) +
      [FromGreenwich] + Opt(s.doForwardProjection, Project) + [FromEnu]
  {
  }

  /** The geocentric detour written the way datumTransform builds it. */
  lemma GeocentricAsBuilt(s: Strategy, src: Crs, tgt: Crs, before: seq<Step>)
    requires s.Consistent() && s.transformViaGeocentric
    ensures before + GeocentricPlan(s, src, tgt) ==
      before + [ToGeocentric(s.srcConverter.value)] + Opt(src.datum.hasTransformToWgs84, SourceToWgs84) +
      Opt(tgt.datum.hasTransformToWgs84, Wgs84ToTarget) + [ToGeodetic(s.tgtConverter.value)]
  {
  }

  /** The guard under which each stage is run, stated stage by stage. */
  predicate Scheduled(st: Step, s: Strategy, src: Crs, tgt: Crs)
  {
    match st
    case ToEnu => true
    case InverseProject => s.doInverseProjection
    case ToGreenwich => true
    case ClearZ => true
    case Shift => s.doDatumTransform && src.datum.transformType == GridShift
    case ToGeocentric(c) => s.doDatumTransform && s.transformViaGeocentric && s.srcConverter == Some(c)
    case SourceToWgs84 => s.doDatumTransform && s.transformViaGeocentric && src.datum.hasTransformToWgs84
    case Wgs84ToTarget => s.doDatumTransform && s.transformViaGeocentric && tgt.datum.hasTransformToWgs84
    case ToGeodetic(c) => s.doDatumTransform && s.transformViaGeocentric && s.tgtConverter == Some(c)
    case InverseShift => s.doDatumTransform && tgt.datum.transformType == GridShift
    case FromGreenwich => true
    case Project => s.doForwardProjection
    case FromEnu => true
  }

  /** A stage is in the plan exactly when its guard holds. */
  lemma PreludeMembers(s: Strategy, st: Step)
    ensures st in Prelude(s) <==>
      (st == ToEnu || st == ToGreenwich || st == ClearZ || (st == InverseProject && s.doInverseProjection))
  {
  }

  lemma PostludeMembers(s: Strategy, st: Step)
    ensures st in Postlude(s) <==>
      (st == FromGreenwich || st == FromEnu || (st == Project && s.doForwardProjection))
  {
  }

  lemma GeocentricMembers(s: Strategy, src: Crs, tgt: Crs, st: Step)
    requires s.Consistent()
    ensures st in GeocentricPlan(s, src, tgt) <==>
      (s.transformViaGeocentric &&
       (st == ToGeocentric(s.srcConverter.value) || st == ToGeodetic(s.tgtConverter.value) ||
        (st == SourceToWgs84 && src.datum.hasTransformToWgs84) ||
        (st == Wgs84ToTarget && tgt.datum.hasTransformToWgs84)))
  {
  }

  lemma DatumMembers(s: Strategy, src: Crs, tgt: Crs, st: Step)
    requires s.Consistent()
    ensures st in DatumPlan(s, src, tgt) <==>
      ((st == Shift && src.datum.transformType == GridShift) || st in GeocentricPlan(s, src, tgt) ||
       (st == InverseShift && tgt.datum.transformType == GridShift))
  {
  }

  lemma PlanMembership(s: Strategy, src: Crs, tgt: Crs)
    requires s.Consistent()
    ensures forall st :: st in Plan(s, src, tgt) <==> Scheduled(st, s, src, tgt)
  {
    var datum := if s.doDatumTransform then DatumPlan(s, src, tgt) else [];
    assert Plan(s, src, tgt) == Prelude(s) + datum + Postlude(s);
    forall st
      ensures st in Plan(s, src, tgt) <==> Scheduled(st, s, src, tgt)
    {
      PreludeMembers(s, st);
      PostludeMembers(s, st);
      GeocentricMembers(s, src, tgt, st);
      DatumMembers(s, src, tgt, st);
    }
  }

  /** Every stage of `p` ranks at least `lo` and below `hi`. */
  predicate RanksIn(p: seq<Step>, lo: nat, hi: nat)
  {
    forall i :: 0 <= i < |p| ==> lo <= Rank(p[i]) < hi
  }

  lemma SortedConcat(a: seq<Step>, b: seq<Step>, lo: nat, mid: nat, hi: nat)
    requires lo <= mid <= hi
    requires RankSorted(a) && RanksIn(a, lo, mid)
    requires RankSorted(b) && RanksIn(b, mid, hi)
    ensures RankSorted(a + b) && RanksIn(a + b, lo, hi)
  {
    forall i | 0 <= i < |a + b|
      ensures lo <= Rank((a + b)[i]) < hi
    {
      if i >= |a| {
        assert (a + b)[i] == b[i - |a|];
      }
    }
    forall i, j | 0 <= i < j < |a + b|
      ensures Rank((a + b)[i]) < Rank((a + b)[j])
    {
      if j < |a| {
      } else if i < |a| {
        assert Rank(a[i]) < mid <= Rank(b[j - |a|]);
      } else {
        assert Rank(b[i - |a|]) < Rank(b[j - |a|]);
      }
    }
  }

  lemma OptSorted(b: bool, st: Step, lo: nat, hi: nat)
    requires lo <= Rank(st) < hi
    ensures RankSorted(Opt(b, st)) && RanksIn(Opt(b, st), lo, hi)
  {
  }

  lemma PreludeOrdered(s: Strategy)
    ensures RankSorted(Prelude(s)) && RanksIn(Prelude(s), 0, 4)
  {
    OptSorted(s.doInverseProjection, InverseProject, 1, 2);
    SortedConcat([ToEnu], Opt(s.doInverseProjection, InverseProject), 0, 1, 2);
    SortedConcat([ToEnu] + Opt(s.doInverseProjection, InverseProject), [ToGreenwich], 0, 2, 3);
    SortedConcat([ToEnu] + Opt(s.doInverseProjection, InverseProject) + [ToGreenwich], [ClearZ], 0, 3, 4);
  }

  lemma GeocentricOrdered(s: Strategy, src: Crs, tgt: Crs)
    requires s.Consistent()
    ensures RankSorted(GeocentricPlan(s, src, tgt)) && RanksIn(GeocentricPlan(s, src, tgt), 5, 9)
  {
    if s.transformViaGeocentric {
      var a := [ToGeocentric(s.srcConverter.value)];
      var b := Opt(src.datum.hasTransformToWgs84, SourceToWgs84);
      var c := Opt(tgt.datum.hasTransformToWgs84, Wgs84ToTarget);
      OptSorted(src.datum.hasTransformToWgs84, SourceToWgs84, 6, 7);
      SortedConcat(a, b, 5, 6, 7);
      OptSorted(tgt.datum.hasTransformToWgs84, Wgs84ToTarget, 7, 8);
      SortedConcat(a + b, c, 5, 7, 8);
      SortedConcat(a + b + c, [ToGeodetic(s.tgtConverter.value)], 5, 8, 9);
    }
  }

  lemma DatumOrdered(s: Strategy, src: Crs, tgt: Crs)
    requires s.Consistent()
    ensures RankSorted(DatumPlan(s, src, tgt)) && RanksIn(DatumPlan(s, src, tgt), 4, 10)
  {
    var a := Opt(src.datum.transformType == GridShift, Shift);
    var g := GeocentricPlan(s, src, tgt);
    var c := Opt(tgt.datum.transformType == GridShift, InverseShift);
    GeocentricOrdered(s, src, tgt);
    OptSorted(src.datum.transformType == GridShift, Shift, 4, 5);
    SortedConcat(a, g, 4, 5, 9);
    OptSorted(tgt.datum.transformType == GridShift, InverseShift, 9, 10);
    SortedConcat(a + g, c, 4, 9, 10);
  }

  lemma PostludeOrdered(s: Strategy)
    ensures RankSorted(Postlude(s)) && RanksIn(Postlude(s), 10, 13)
  {
    OptSorted(s.doForwardProjection, Project, 11, 12);
    SortedConcat([FromGreenwich], Opt(s.doForwardProjection, Project), 10, 11, 12);
    SortedConcat([FromGreenwich] + Opt(s.doForwardProjection, Project), [FromEnu], 10, 12, 13);
  }

  /** The plan lists its stages strictly in pipeline order. */
  lemma PlanOrdered(s: Strategy, src: Crs, tgt: Crs)
    requires s.Consistent()
    ensures RankSorted(Plan(s, src, tgt))
  {
    var datum := if s.doDatumTransform then DatumPlan(s, src, tgt) else [];
    PreludeOrdered(s);
    DatumOrdered(s, src, tgt);
    PostludeOrdered(s);
    SortedConcat(Prelude(s), datum, 0, 4, 10);
    SortedConcat(Prelude(s) + datum, Postlude(s), 0, 10, 13);
  }

  /** The plan is the only list, in strict pipeline order, of exactly the scheduled stages. */
  lemma PlanUnique(s: Strategy, src: Crs, tgt: Crs, q: seq<Step>)
    requires s.Consistent()
    requires RankSorted(q)
    requires forall st :: st in q <==> Scheduled(st, s, src, tgt)
    ensures q == Plan(s, src, tgt)
  {
    PlanOrdered(s, src, tgt);
    PlanMembership(s, src, tgt);
    RankSortedUnique(q, Plan(s, src, tgt));
  }

  /**
   * The height is cleared after inverse projection and before any datum stage: the value the
   * datum stages start from (the run of the prelude) has no height, no later stage is an
   * inverse projection, and the whole run continues from that value.
   */
  lemma {:induction false} HeightClearedBeforeDatumStages(s: Strategy, src: Crs, tgt: Crs, v: Coord, env: Collaborators)
    requires s.Consistent()
    ensures var rest := (if s.doDatumTransform then DatumPlan(s, src, tgt) else []) + Postlude(s);
      Run(Plan(s, src, tgt), v, env) == Then(Run(Prelude(s), v, env), rest, env) &&
      InverseProject !in rest
    ensures Run(Prelude(s), v, env).Completed? ==> Run(Prelude(s), v, env).value.z == NoHeight
  {
    var datum := if s.doDatumTransform then DatumPlan(s, src, tgt) else [];
    var rest := datum + Postlude(s);
    assert Plan(s, src, tgt) == Prelude(s) + rest;
    RunAppend(Prelude(s), rest, v, env);
    assert InverseProject !in GeocentricPlan(s, src, tgt);
    assert InverseProject !in datum && InverseProject !in Postlude(s);
    var before := Prelude(s)[..|Prelude(s)| - 1];
    assert Prelude(s) == before + [ClearZ];
    RunAppend(before, [ClearZ], v, env);
    match Run(before, v, env)
    case Aborted(_, _) =>
    case Completed(w) =>
      assert Run([ClearZ], w, env) == Run([], w.(z := NoHeight), env);
  }

  /** Identical, equal or geographic-ended pairs: which stages a pair without a datum transform runs. */
  lemma NoDatumStages(s: Strategy, src: Crs, tgt: Crs)
    requires s.Consistent() && !s.doDatumTransform
    ensures Plan(s, src, tgt) ==
      [ToEnu] + Opt(s.doInverseProjection, InverseProject) + [ToGreenwich, ClearZ, FromGreenwich] +
      Opt(s.doForwardProjection, Project) + [FromEnu]
    ensures forall st :: st in Plan(s, src, tgt) ==> !IsDatumStage(st)
  {
    PlanMembership(s, src, tgt);
  }

  /** The same CRS on both sides, the same datum object, or equal datums never trigger a datum transform. */
  lemma EqualDatumsNeverTransform(src: Crs, tgt: Crs, geo: Crs, p: Predicates)
    requires src == tgt || src.datum == tgt.datum || p.datumIsEqual(src.datum, tgt.datum)
    ensures var s := ComputeStrategy(src, tgt, geo, p);
      !s.doDatumTransform && !s.transformViaGeocentric && s.srcConverter == None && s.tgtConverter == None &&
      forall st :: st in Plan(s, src, tgt) ==> !IsDatumStage(st)
  {
    NoDatumStages(ComputeStrategy(src, tgt, geo, p), src, tgt);
  }

  /**
   * A geographic source skips inverse projection, a geographic target skips projection, and
   * either skips the datum stages: from the geographic sentinel the stages are exactly these.
   */
  lemma GeographicEndsNeverTransform(src: Crs, tgt: Crs, geo: Crs, p: Predicates)
    requires src == geo || tgt == geo
    ensures var s := ComputeStrategy(src, tgt, geo, p);
      !s.doDatumTransform &&
      (src == geo ==> InverseProject !in Plan(s, src, tgt)) &&
      (tgt == geo ==> Project !in Plan(s, src, tgt)) &&
      forall st :: st in Plan(s, src, tgt) ==> !IsDatumStage(st)
    ensures src == geo ==>
      Plan(ComputeStrategy(src, tgt, geo, p), src, tgt) ==
        [ToEnu, ToGreenwich, ClearZ, FromGreenwich] + Opt(tgt != geo, Project) + [FromEnu]
  {
    var s := ComputeStrategy(src, tgt, geo, p);
    NoDatumStages(s, src, tgt);
    PlanMembership(s, src, tgt);
  }

  /** Without the geocentric detour, the datum sub-procedure can only run its grid shifts. */
  lemma WithoutGeocentricOnlyGridShifts(s: Strategy, src: Crs, tgt: Crs)
    requires s.Consistent() && !s.transformViaGeocentric
    ensures DatumPlan(s, src, tgt) ==
      Opt(src.datum.transformType == GridShift, Shift) + Opt(tgt.datum.transformType == GridShift, InverseShift)
    ensures forall st :: st in DatumPlan(s, src, tgt) ==> st == Shift || st == InverseShift
  {
  }
}
