/**
 * proj4j's BasicCoordinateTransform: built once for a (source CRS, target CRS) pair, it caches
 * its strategy and geocentric converters, then transforms points one call at a time.
 */
module Transform {
  import opened Options
  import opened Coordinates
  import opened Datums
  import opened Pipeline
  import opened TransformStrategy

  /** How one call of transform ends: it returns the target buffer, or a stage threw. */
  datatype Outcome = Returned(coord: ProjCoordinate) | Threw(stage: Step)

  /** The parameters of a converter that may be absent. */
  function ParamsOf(c: GeocentricConverter?): Option<ConverterParams>
    reads c
  {
    if c == null then None else Some(c.params)
  }

  class BasicCoordinateTransform {
    const srcCRS: Crs
    const tgtCRS: Crs
    /** The plain-geographic sentinel and the foreign predicates the strategy was decided with. */
    ghost const geo: Crs
    ghost const preds: Predicates

    // the strategy, fixed at construction
    const doInverseProjection: bool
    const doForwardProjection: bool
    const doDatumTransform: bool
    const transformViaGeocentric: bool
    var srcGeoConv: GeocentricConverter?
    var tgtGeoConv: GeocentricConverter?

    /** The cached strategy, read off the fields. */
    function CachedStrategy(): Strategy
      reads this, srcGeoConv, tgtGeoConv
    {
      Strategy(doInverseProjection, doForwardProjection, doDatumTransform, transformViaGeocentric,
                        ParamsOf(srcGeoConv), ParamsOf(tgtGeoConv))
    }

    /**
     * The cached flags and converter parameters are still the strategy decided for the pair; in
     * particular both converters exist whenever the datum transform goes through geocentric space.
     */
    ghost predicate Valid()
      reads this, srcGeoConv, tgtGeoConv
    {
      CachedStrategy() == ComputeStrategy(srcCRS, tgtCRS, geo, preds)
    }

    /** Decides the strategy for the pair; `geo` is the plain-geographic sentinel CRS. */
    constructor (src: Crs, tgt: Crs, geo: Crs, preds: Predicates)
      ensures srcCRS == src && tgtCRS == tgt && this.geo == geo && this.preds == preds
      ensures Valid()
      ensures CachedStrategy() == ComputeStrategy(src, tgt, geo, preds)
      ensures srcGeoConv != null ==> fresh(srcGeoConv)
      ensures tgtGeoConv != null ==> fresh(tgtGeoConv) && tgtGeoConv != srcGeoConv
    {
      var srcDatum := src.datum;
      var tgtDatum := tgt.datum;
      var srcTransformType := srcDatum.transformType;
      var tgtTransformType := tgtDatum.transformType;
      var srcTransformToWgs84 := preds.isTransformToWgs84(srcTransformType);
      var tgtTransformToWgs84 := preds.isTransformToWgs84(tgtTransformType);

      var doInverse := src != geo;
      var doForward := tgt != geo;
      var doDatum := doInverse && doForward
        && src.datum != tgt.datum
        && !preds.datumIsEqual(src.datum, tgt.datum)
        && (srcTransformToWgs84 || tgtTransformToWgs84 ||
            (srcTransformType != Unknown && tgtTransformType != Unknown));

      var viaGeocentric := false;
      var srcConv: GeocentricConverter? := null;
      var tgtConv: GeocentricConverter? := null;
      if doDatum {
        var srcEllipsoid := srcDatum.ellipsoid;
        var tgtEllipsoid := tgtDatum.ellipsoid;

        viaGeocentric := !preds.ellipsoidIsEqual(srcEllipsoid, tgtEllipsoid)
          || srcTransformToWgs84 || tgtTransformToWgs84;

        if viaGeocentric {
          var sc := new GeocentricConverter(srcEllipsoid);
          if srcTransformType == GridShift || (!srcTransformToWgs84 && !tgt.isGeographic) {
            sc.OverrideWithWgs84Params();
          }
          var tc := new GeocentricConverter(tgtEllipsoid);
          if tgtTransformType == GridShift || (!tgtTransformToWgs84 && !src.isGeographic) {
            tc.OverrideWithWgs84Params();
          }
          srcConv, tgtConv := sc, tc;
        }
      }

      srcCRS, tgtCRS := src, tgt;
      this.geo, this.preds := geo, preds;
      doInverseProjection, doForwardProjection := doInverse, doForward;
      doDatumTransform, transformViaGeocentric := doDatum, viaGeocentric;
      srcGeoConv, tgtGeoConv := srcConv, tgtConv;
    }

    method GetSourceCRS() returns (r: Crs)
      ensures r == srcCRS
    {
      r := srcCRS;
    }

    method GetTargetCRS() returns (r: Crs)
      ensures r == tgtCRS
    {
      r := tgtCRS;
    }

    /**
     * Transforms the point in `src` into `tgt` (which may be the same buffer): the outcome is
     * the run of the whole plan on the input point, and on success the same `tgt` is returned.
     */
    method Transform(src: ProjCoordinate, tgt: ProjCoordinate, env: Collaborators) returns (outcome: Outcome)
      requires Valid()
      modifies tgt
      ensures match outcome
        case Returned(c) =>
          c == tgt && Run(Plan(ComputeStrategy(srcCRS, tgtCRS, geo, preds), srcCRS, tgtCRS), old(src.Value()), env) == Completed(tgt.Value())
        case Threw(st) =>
          Run(Plan(ComputeStrategy(srcCRS, tgtCRS, geo, preds), srcCRS, tgtCRS), old(src.Value()), env) == Aborted(tgt.Value(), st)
    {
      ghost var s := CachedStrategy();
      tgt.SetValue(src);
      ghost var start := tgt.Value();
      ghost var done: seq<Step> := [];
      var failure: Option<Step> := None;

      failure := Perform(tgt, ToEnu, env, failure, done, start);
      assert done + [ToEnu] == [ToEnu];
      done := [ToEnu];

      if doInverseProjection {
        failure := Perform(tgt, InverseProject, env, failure, done, start);
      }
      AppendOpt(done, doInverseProjection, InverseProject);
      done := done + Opt(doInverseProjection, InverseProject);

      failure := Perform(tgt, ToGreenwich, env, failure, done, start);
      done := done + [ToGreenwich];

      failure := Perform(tgt, ClearZ, env, failure, done, start);
      done := done + [ClearZ];

      if doDatumTransform {
        RunAppend(done, DatumPlan(s, srcCRS, tgtCRS), start, env);
        if failure.None? {
          failure := DatumTransform(tgt, env);
        }
      }
      AppendWhen(done, doDatumTransform, DatumPlan(s, srcCRS, tgtCRS));
      done := done + (if doDatumTransform then DatumPlan(s, srcCRS, tgtCRS) else []);

      failure := Perform(tgt, FromGreenwich, env, failure, done, start);
      done := done + [FromGreenwich];

      if doForwardProjection {
        failure := Perform(tgt, Project, env, failure, done, start);
      }
      AppendOpt(done, doForwardProjection, Project);
      done := done + Opt(doForwardProjection, Project);

      failure := Perform(tgt, FromEnu, env, failure, done, start);
      done := done + [FromEnu];
      PlanAsBuilt(s, srcCRS, tgtCRS);

      outcome := if failure.None? then Returned(tgt) else Threw(failure.value);
    }

    /** Converts a geographic point in radians from the source datum to the target datum. */
    method DatumTransform(pt: ProjCoordinate, env: Collaborators) returns (failure: Option<Step>)
      requires Valid()
      modifies pt
      ensures Run(DatumPlan(ComputeStrategy(srcCRS, tgtCRS, geo, preds), srcCRS, tgtCRS), old(pt.Value()), env) ==
        Status(pt.Value(), failure)
    {
      ghost var s := CachedStrategy();
      ghost var start := pt.Value();
      ghost var done: seq<Step> := [];
      failure := None;

      if srcCRS.datum.transformType == GridShift {
        failure := Perform(pt, Shift, env, failure, done, start);
      }
      AppendOpt(done, srcCRS.datum.transformType == GridShift, Shift);
      assert [] + Opt(srcCRS.datum.transformType == GridShift, Shift) == Opt(srcCRS.datum.transformType == GridShift, Shift);
      done := Opt(srcCRS.datum.transformType == GridShift, Shift);
      ghost var shifted := done;

      // go through geocentric coordinates when needed
      if transformViaGeocentric {
        failure := Perform(pt, ToGeocentric(srcGeoConv.params), env, failure, done, start);
        done := done + [ToGeocentric(srcGeoConv.params)];

        if srcCRS.datum.hasTransformToWgs84 {
          failure := Perform(pt, SourceToWgs84, env, failure, done, start);
        }
        AppendOpt(done, srcCRS.datum.hasTransformToWgs84, SourceToWgs84);
        done := done + Opt(srcCRS.datum.hasTransformToWgs84, SourceToWgs84);

        if tgtCRS.datum.hasTransformToWgs84 {
          failure := Perform(pt, Wgs84ToTarget, env, failure, done, start);
        }
        AppendOpt(done, tgtCRS.datum.hasTransformToWgs84, Wgs84ToTarget);
        done := done + Opt(tgtCRS.datum.hasTransformToWgs84, Wgs84ToTarget);

        failure := Perform(pt, ToGeodetic(tgtGeoConv.params), env, failure, done, start);
        done := done + [ToGeodetic(tgtGeoConv.params)];
        GeocentricAsBuilt(s, srcCRS, tgtCRS, shifted);
      }
      done := shifted + GeocentricPlan(s, srcCRS, tgtCRS);

      if tgtCRS.datum.transformType == GridShift {
        failure := Perform(pt, InverseShift, env, failure, done, start);
      }
      AppendOpt(done, tgtCRS.datum.transformType == GridShift, InverseShift);
      done := done + Opt(tgtCRS.datum.transformType == GridShift, InverseShift);
    }
  }
}
