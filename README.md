# proj4j BasicCoordinateTransform, modelled in Dafny

`BasicCoordinateTransform` converts points from a source coordinate reference system (CRS) to a
target CRS. It works in two phases.

**Construction.** It looks at the two CRSs once and decides a strategy:
- whether to inverse-project the source point;
- whether to project into the target;
- whether to run a datum transform;
- whether that datum transform goes through geocentric space. If it does, the constructor builds
  two geocentric converters and may switch either one to WGS84 parameters.

**Per point.** `transform` copies the input into the target buffer. It then runs a fixed,
guarded sequence of stages on that one mutable buffer:
- axis order to ENU;
- inverse projection;
- prime meridian to Greenwich;
- clearing the height;
- `datumTransform`, which runs its own guarded sequence:
  - grid shift;
  - geodetic to geocentric;
  - source datum to WGS84;
  - WGS84 to target datum;
  - geocentric to geodetic;
  - inverse grid shift;
- prime meridian back from Greenwich;
- projection;
- axis order back from ENU.

The project has five modules:
- `Options`: the Option type.
- `Coordinates`: the mutable `ProjCoordinate` buffer. Its value is `Coord`, two reals and an
  optional height.
- `Datums`: `Ellipsoid`, `Datum` and `Crs` as classes with constant fields. Java's reference
  comparisons (`srcCRS != CS_GEO`, `srcDatum != tgtDatum`) therefore become object identity. This
  module also holds `GeocentricConverter`, with the one piece of state the transform changes (its
  parameters), and the `Predicates` record. That record holds the foreign tests `Datum.isEqual`,
  `Ellipsoid.isEqual` and `Datum.isTransformToWGS84` as uninterpreted functions.
- `Pipeline`:
  - `Step`, one constructor per stage.
  - `Rank`, the canonical stage order.
  - `Run`, the pure meaning of running a list of stages on a point. Each collaborator is a call
    of the parameter `env`, and `None` stands for a thrown `Proj4jException`. After a throw,
    nothing more runs.
  - `Perform`, the imperative execution of one stage on a buffer.
- `TransformStrategy`:
  - `ComputeStrategy`, the construction-time decisions.
  - `Plan`, the list of stages one transform runs.
  - `Scheduled`, an independent stage-by-stage statement of each guard.
  - The lemmas relating them.
- `Transform`: the class `BasicCoordinateTransform`. Its constructor mirrors the Java
  constructor step by step. Its `Transform` and `DatumTransform` methods mutate the coordinate
  buffer in the source's order. Each is proved equal to `Run` of its plan.

The plain-geographic sentinel `CoordinateReferenceSystem.CS_GEO` is a static object in Java. Here
it is the constructor parameter `geo`.

The object keeps, as ghost constants, the sentinel and the foreign predicates it was built with.
Its invariant `Valid()` says the cached flags and converter parameters are still
`ComputeStrategy` of the pair, so a converter changed after construction breaks it. `Transform`
and `DatumTransform` require it and state their result over the plan of `ComputeStrategy`
itself, so every point follows the decision and override rules of the constructor. The converters
are dereferenced only under `transformViaGeocentric`, and `Valid()` makes both non-null whenever
that flag holds, so `DatumTransform` never uses an absent converter.

## Model

| member | source | states |
|---|---|---|
| TransformStrategy.ComputeStrategy | src/main/java/org/locationtech/proj4j/BasicCoordinateTransform.java:69-118 | inverse projection iff the source is not the geographic sentinel, forward projection iff the target is not; a datum transform only with both projections and two datums that are neither the same object nor `isEqual`; no datum transform when neither type is a WGS84 transform and one is UNKNOWN, and always one otherwise; under a datum transform, geocentric iff the ellipsoids are not `isEqual` or either type is a WGS84 transform; geocentric implies datum transform; both converters exist exactly when geocentric, each overridden with WGS84 parameters iff its side is GRIDSHIFT or (not a WGS84 transform type and the other CRS is not geographic) |
| TransformStrategy.EqualDatumsNeverTransform | src/main/java/org/locationtech/proj4j/BasicCoordinateTransform.java:85-87 | the same CRS, the same datum object or `isEqual` datums give no datum transform, no geocentric detour, no converters and no datum stage in the plan |
| TransformStrategy.GeographicEndsNeverTransform | src/main/java/org/locationtech/proj4j/BasicCoordinateTransform.java:83-85 | a geographic-sentinel end disables the datum transform and the projection on that side; from the sentinel, the stages are exactly ENU, Greenwich, clear height, back from Greenwich, projection when the target is not the sentinel, back from ENU |
| TransformStrategy.PlanMembership | src/main/java/org/locationtech/proj4j/BasicCoordinateTransform.java:144-214 | a stage is in the plan iff its own guard holds (the stage-by-stage `Scheduled` predicate) |
| TransformStrategy.PlanOrdered | src/main/java/org/locationtech/proj4j/BasicCoordinateTransform.java:144-171 | the plan lists its stages in strictly increasing pipeline order |
| TransformStrategy.PlanUnique | src/main/java/org/locationtech/proj4j/BasicCoordinateTransform.java:144-214 | any list in strict pipeline order that holds exactly the scheduled stages is the plan |
| TransformStrategy.HeightClearedBeforeDatumStages | src/main/java/org/locationtech/proj4j/BasicCoordinateTransform.java:153-159 | the whole run continues from the run of the stages up to the height clearing; that intermediate point has no height; no inverse projection runs after it |
| TransformStrategy.NoDatumStages | src/main/java/org/locationtech/proj4j/BasicCoordinateTransform.java:158-160 | without a datum transform the plan is exactly the projection, prime-meridian and axis stages and holds no datum stage |
| TransformStrategy.WithoutGeocentricOnlyGridShifts | src/main/java/org/locationtech/proj4j/BasicCoordinateTransform.java:189-214 | without the geocentric detour the datum sub-procedure is at most the source shift followed by the target inverse shift |
| Pipeline.RankSortedUnique | src/main/java/org/locationtech/proj4j/BasicCoordinateTransform.java:144-171 | two lists in strict pipeline order with the same stages are equal |
| Pipeline.RunAppend | src/main/java/org/locationtech/proj4j/BasicCoordinateTransform.java:142-143 | running two stage lists one after the other is running their concatenation; after a throw, no later stage runs |
| Pipeline.AbortedRunStopsAtFailure | src/main/java/org/locationtech/proj4j/BasicCoordinateTransform.java:142-143 | a run that throws ends at one stage: every stage before it completed, the buffer holds their result, and that stage's collaborator failed on it |
| Pipeline.Perform | src/main/java/org/locationtech/proj4j/BasicCoordinateTransform.java:145-169 | executing one stage on the buffer extends the run by that stage: it stores the collaborator's result, clears the height for the clear-height stage, records a throw, and does nothing once a stage has thrown |
| Coordinates.ProjCoordinate.SetValue | src/main/java/org/locationtech/proj4j/BasicCoordinateTransform.java:144 | the buffer takes the source coordinate's value |
| Coordinates.ProjCoordinate.ClearZ | src/main/java/org/locationtech/proj4j/BasicCoordinateTransform.java:156 | the height becomes absent and x, y are unchanged |
| Datums.GeocentricConverter.constructor | src/main/java/org/locationtech/proj4j/BasicCoordinateTransform.java:101 | a new converter works on the given datum ellipsoid |
| Datums.GeocentricConverter.OverrideWithWgs84Params | src/main/java/org/locationtech/proj4j/BasicCoordinateTransform.java:104 | afterwards the converter works with WGS84 parameters |
| Transform.BasicCoordinateTransform.constructor | src/main/java/org/locationtech/proj4j/BasicCoordinateTransform.java:69-118 | stores both CRSs; the cached flags and converter parameters are exactly `ComputeStrategy` of the pair, which the invariant `Valid()` keeps; both converters are freshly allocated and distinct |
| Transform.BasicCoordinateTransform.GetSourceCRS | src/main/java/org/locationtech/proj4j/BasicCoordinateTransform.java:121-123 | returns the source CRS given at construction |
| Transform.BasicCoordinateTransform.GetTargetCRS | src/main/java/org/locationtech/proj4j/BasicCoordinateTransform.java:126-128 | returns the target CRS given at construction |
| Transform.BasicCoordinateTransform.Transform | src/main/java/org/locationtech/proj4j/BasicCoordinateTransform.java:142-172 | the buffer ends as the run of the whole plan of `ComputeStrategy` for the pair on the input point; on success the same `tgt` buffer is returned, and on a throw the failing stage is reported |
| Transform.BasicCoordinateTransform.DatumTransform | src/main/java/org/locationtech/proj4j/BasicCoordinateTransform.java:180-216 | the buffer ends as the run of the datum sub-plan of `ComputeStrategy` for the pair (source shift, geocentric detour with its two WGS84 steps, target inverse shift) on its starting point, and any throw is reported |

## Left out

- The numerics of every collaborator are not modelled. This covers axis order, projection
  formulas and prime-meridian arithmetic (`Projection`, `AxisOrder`, `PrimeMeridian`). It also
  covers geodetic/geocentric conversion, the Helmert 3- and 7-parameter transforms and grid
  interpolation. These are floating-point code in classes that are not part of this model. Each
  one is a stage whose effect is whatever the collaborator parameter `env` returns.
- The bodies of `Datum.isEqual`, `Ellipsoid.isEqual` and `Datum.isTransformToWGS84` are not part
  of this model. They are uninterpreted functions, and nothing about them is assumed:
  `isTransformToWGS84` is only called, so the model gives no transform type a fixed answer.
- Grid-shift file loading and all I/O are left out. The grid lookup is part of the shift
  collaborator.
- Thread safety and concurrent use of one transform are left out. They are a concurrency claim,
  not logic.
- Exception payloads are left out. A thrown `Proj4jException` is recorded only as the stage that
  threw, and later stages never run.
- Partial writes are left out. The model assumes a collaborator that throws leaves the buffer as
  it was before that stage. A Java collaborator could have written part of its result first.
- Numeric round trips and identity properties are left out. Examples are a transform followed
  by its inverse, or source equals target giving the input back. They depend on the
  floating-point collaborators above.
- Three further classes are reduced to what the transform reads or changes:
  - `CoordinateReferenceSystem` keeps its datum and `isGeographic()`;
  - `Datum` keeps its ellipsoid, its transform type and `hasTransformToWGS84()`;
  - `GeocentricConverter` keeps its ellipsoid/WGS84 parameter choice.
