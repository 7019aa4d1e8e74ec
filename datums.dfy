/**
 * The value types a transform is built from: ellipsoids, datums, coordinate reference
 * systems, and the geocentric converters a transform owns. Their numerics are abstracted:
 * only identity and the properties the transform strategy inspects are kept.
 */
module Datums {

  /**
   * A datum's transform type. `Unknown` and `GridShift` are the two codes the transform tests by
   * name; the other constructors stand for the remaining type codes, which the transform sees only
   * through `isTransformToWgs84`.
   */
  datatype TransformType = Unknown | NoTransform | ThreeParam | SevenParam | GridShift

  /** A reference ellipsoid. Its parameters are left out; it is compared only through `Predicates`. */
  class Ellipsoid {
    constructor ()
    {
    }
  }

  /** A geodetic datum, an immutable object whose identity matters. */
  class Datum {
    const ellipsoid: Ellipsoid
    const transformType: TransformType
    /** What the datum's own hasTransformToWGS84() answers; its definition is not modelled. */
    const hasTransformToWgs84: bool

    constructor (ellipsoid: Ellipsoid, transformType: TransformType, hasTransformToWgs84: bool)
      ensures this.ellipsoid == ellipsoid && this.transformType == transformType
      ensures this.hasTransformToWgs84 == hasTransformToWgs84
    {
      this.ellipsoid := ellipsoid;
      this.transformType := transformType;
      this.hasTransformToWgs84 := hasTransformToWgs84;
    }
  }

  /** A coordinate reference system. Its projection appears only through the pipeline's stages. */
  class Crs {
    const datum: Datum
    const isGeographic: bool

    constructor (datum: Datum, isGeographic: bool)
      ensures this.datum == datum && this.isGeographic == isGeographic
    {
      this.datum := datum;
      this.isGeographic := isGeographic;
    }
  }

  /**
   * The foreign predicates the strategy consults, kept uninterpreted:
   * Datum.isEqual, Ellipsoid.isEqual (tolerance based) and the static Datum.isTransformToWGS84.
   */
  datatype Predicates = Predicates(
    datumIsEqual: (Datum, Datum) -> bool,
    ellipsoidIsEqual: (Ellipsoid, Ellipsoid) -> bool,
    isTransformToWgs84: TransformType -> bool)

  /** The ellipsoid parameters a geocentric converter works with. */
  datatype ConverterParams = Ellipsoidal(ellipsoid: Ellipsoid) | Wgs84Params

  /** Converts between geodetic and geocentric coordinates on one ellipsoid. */
  class GeocentricConverter {
    var params: ConverterParams

    constructor (e: Ellipsoid)
      ensures params == Ellipsoidal(e)
    {
      params := Ellipsoidal(e);
    }

    /** Replaces the converter's ellipsoid parameters with those of WGS84. */
    method OverrideWithWgs84Params()
      modifies this
      ensures params == Wgs84Params
    {
      params := Wgs84Params;
    }
  }
}
