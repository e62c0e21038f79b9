/**
 * Geodetic points and the projection of a point onto the globe's world space
 * (sphere2cart in globe.js).
 *
 * The ellipsoid arithmetic of sphere2cart (WGS84 flattening, cos, sin and sqrt on
 * doubles) is not modelled: it is the parameter `ellipsoid`, a function giving the
 * point's ellipsoid-frame coordinates (x towards longitude 0 on the equator,
 * y towards longitude 90, z along the polar axis). What is modelled is the final
 * step of sphere2cart, the permutation of those axes into the renderer's world space.
 */
module Geodesy {

  /** A shapefile point, in degrees. */
  datatype GeoPoint = GeoPoint(longitude: real, latitude: real)

  datatype Vec3 = Vec3(x: real, y: real, z: real)

  /** Ellipsoid-frame coordinates of a geodetic point at sea level. */
  type Ellipsoid = GeoPoint -> Vec3

  /** World space puts the polar axis on Y and longitude 0 towards -X. */
  function WorldAxes(e: Vec3): Vec3
  {
    Vec3(-e.x, e.z, e.y)
  }

  /** The projection of one shapefile point, as sphere2cart returns it. */
  function SphereToCart(ellipsoid: Ellipsoid, p: GeoPoint): Vec3
  {
    WorldAxes(ellipsoid(p))
  }

  /** The axis permutation undoes itself, so no ellipsoid coordinate is lost. */
  lemma WorldAxesInvolution(v: Vec3)
    ensures WorldAxes(WorldAxes(v)) == v
  {
  }

  /** Two points project to the same world position exactly when their ellipsoid
      coordinates agree. */
  lemma SphereToCartInjective(ellipsoid: Ellipsoid, p: GeoPoint, q: GeoPoint)
    ensures SphereToCart(ellipsoid, p) == SphereToCart(ellipsoid, q) <==> ellipsoid(p) == ellipsoid(q)
  {
    WorldAxesInvolution(ellipsoid(p));
    WorldAxesInvolution(ellipsoid(q));
  }

}
