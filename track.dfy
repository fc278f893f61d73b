/**
 * Geofence construction and membership (src/services/location/track.ts).
 *
 * All coordinates, radii and speeds are exact `real`s; IEEE-754 rounding of
 * the app's `number` type is not modelled.
 */
module Track {
  import opened Wrappers
  import opened ExpoLocation

  /** A bare coordinate (`type Location` in track.ts), in degrees. */
  datatype Location = Location(latitude: real, longitude: real)

  /** A fence: centre and a half-width in degrees (named "circle", tested as a square). */
  datatype CircleGeofence = CircleGeofence(center: Location, radius: real)

  /** The app's fixed conversion: 11.1 metres correspond to 0.0001 degrees. */
  const MetresPerStep: real := 11.1
  const DegreesPerStep: real := 0.0001

  /** The inverse of the conversion factor `0.0001 / 11.1`. */
  const MetresPerDegree: real := MetresPerStep / DegreesPerStep

  function Abs(x: real): real
  {
    if x < 0.0 then -x else x
  }

  function Max(a: real, b: real): real
  {
    if a < b then b else a
  }

  /**
   * Chebyshev (maximum-of-axes) distance in degrees between a point and a
   * centre; the reference against which membership is stated.
   */
  function BoxDistance(latitude: real, longitude: real, center: Location): real
  {
    Max(Abs(latitude - center.latitude), Abs(longitude - center.longitude))
  }

  function Square(x: real): real
  {
    x * x
  }

  /** Squared Euclidean offset in degrees, for comparing the box with a true circle. */
  function SquaredOffset(latitude: real, longitude: real, center: Location): real
  {
    Square(latitude - center.latitude) + Square(longitude - center.longitude)
  }

  /** `between`: is `num` strictly inside the open interval (min, max)? */
  predicate Between(num: real, min: real, max: real)
  {
    num > min && num < max
  }

  /** `createGeoFence`: keeps the centre and converts the metre radius to degrees. */
  function CreateGeoFence(location: Location, radius: real): (fence: CircleGeofence)
    ensures fence.center == location
    ensures fence.radius * MetresPerDegree == radius
  {
    CircleGeofence(location, radius * (DegreesPerStep / MetresPerStep))
  }

  /**
   * `isLocationInGeofence`: latitude and longitude are each tested against the
   * open interval centre ± radius, so membership is a Chebyshev-distance test.
   */
  function IsLocationInGeofence(location: LocationObject, geofence: CircleGeofence): (inside: bool)
    ensures inside <==>
      BoxDistance(location.coords.latitude, location.coords.longitude, geofence.center) < geofence.radius
  {
    Between(location.coords.latitude,
            geofence.center.latitude - geofence.radius,
            geofence.center.latitude + geofence.radius)
    && Between(location.coords.longitude,
               geofence.center.longitude - geofence.radius,
               geofence.center.longitude + geofence.radius)
  }

  // ---------------------------------------------------------------------------
  // Between

  /** Both endpoints are excluded, and a non-empty interval needs min < max. */
  lemma BetweenIsOpen(num: real, min: real, max: real)
    ensures !Between(min, min, max) && !Between(max, min, max)
    ensures Between(num, min, max) ==> min < max
  {
  }

  // ---------------------------------------------------------------------------
  // CreateGeoFence

  /** The calibration point: 11.1 m is 0.0001 degrees, and 0 m is 0 degrees. */
  lemma CreateGeoFenceCalibration(location: Location)
    ensures CreateGeoFence(location, MetresPerStep).radius == DegreesPerStep
    ensures CreateGeoFence(location, 0.0).radius == 0.0
  {
  }

  /** A larger metre radius gives a larger degree radius, and conversely. */
  lemma CreateGeoFenceStrictlyMonotone(location: Location, m1: real, m2: real)
    ensures m1 < m2 <==> CreateGeoFence(location, m1).radius < CreateGeoFence(location, m2).radius
  {
  }

  // ---------------------------------------------------------------------------
  // IsLocationInGeofence

  /** The centre itself is inside exactly when the radius is positive. */
  lemma CentreInsideIffPositiveRadius(location: LocationObject, geofence: CircleGeofence)
    requires location.coords.latitude == geofence.center.latitude
    requires location.coords.longitude == geofence.center.longitude
    ensures IsLocationInGeofence(location, geofence) <==> geofence.radius > 0.0
  {
  }

  /** A fence whose radius is zero or negative contains nothing. */
  lemma NonPositiveRadiusIsEmpty(location: LocationObject, geofence: CircleGeofence)
    requires geofence.radius <= 0.0
    ensures !IsLocationInGeofence(location, geofence)
  {
  }

  /** Growing the radius around the same centre never loses a location. */
  lemma InsideMonotoneInRadius(location: LocationObject, geofence: CircleGeofence, radius: real)
    requires IsLocationInGeofence(location, geofence)
    requires geofence.radius <= radius
    ensures IsLocationInGeofence(location, CircleGeofence(geofence.center, radius))
  {
  }

  /** A location exactly on an edge of the box is reported outside. */
  lemma EdgeIsOutside(location: LocationObject, geofence: CircleGeofence)
    requires || location.coords.latitude == geofence.center.latitude + geofence.radius
             || location.coords.latitude == geofence.center.latitude - geofence.radius
             || location.coords.longitude == geofence.center.longitude + geofence.radius
             || location.coords.longitude == geofence.center.longitude - geofence.radius
    ensures !IsLocationInGeofence(location, geofence)
  {
  }

  /** Only latitude and longitude matter: speed and timestamp are ignored. */
  lemma OnlyCoordinatesMatter(a: LocationObject, b: LocationObject, geofence: CircleGeofence)
    requires a.coords.latitude == b.coords.latitude
    requires a.coords.longitude == b.coords.longitude
    ensures IsLocationInGeofence(a, geofence) == IsLocationInGeofence(b, geofence)
  {
  }

  /** Membership in a fence built from a metre radius, stated in metres. */
  lemma InsideCreatedFenceInMetres(location: LocationObject, center: Location, metres: real)
    ensures IsLocationInGeofence(location, CreateGeoFence(center, metres)) <==>
      && Abs(location.coords.latitude - center.latitude) * MetresPerDegree < metres
      && Abs(location.coords.longitude - center.longitude) * MetresPerDegree < metres
  {
  }

  /** Every point of the inscribed circle is inside the box. */
  lemma CircleInsideBox(location: LocationObject, geofence: CircleGeofence)
    requires geofence.radius > 0.0
    requires SquaredOffset(location.coords.latitude, location.coords.longitude, geofence.center)
             < Square(geofence.radius)
    ensures IsLocationInGeofence(location, geofence)
  {
    var r := geofence.radius;
    var dLat := Abs(location.coords.latitude - geofence.center.latitude);
    var dLon := Abs(location.coords.longitude - geofence.center.longitude);
    assert Square(dLat) + Square(dLon)
        == SquaredOffset(location.coords.latitude, location.coords.longitude, geofence.center);
    SquareBelowBound(dLat, r, Square(dLon));
    SquareBelowBound(dLon, r, Square(dLat));
  }

  /** If a square plus a non-negative slack is below r², the base is below r. */
  lemma SquareBelowBound(d: real, r: real, slack: real)
    requires d >= 0.0 && r > 0.0 && slack >= 0.0
    requires Square(d) + slack < Square(r)
    ensures d < r
  {
  }

  /**
   * The box is larger than the circle its name suggests: the fence built for
   * 11.1 m around any centre contains, near a corner, a location whose
   * squared offset exceeds the squared radius.
   */
  lemma BoxExceedsCircle(center: Location, speed: Option<real>, timestamp: real)
    ensures var fence := CreateGeoFence(center, MetresPerStep);
            exists location: LocationObject ::
              && IsLocationInGeofence(location, fence)
              && SquaredOffset(location.coords.latitude, location.coords.longitude, center)
                 > Square(fence.radius)
  {
    var fence := CreateGeoFence(center, MetresPerStep);
    CreateGeoFenceCalibration(center);
    var corner := LocationObject(
      Coords(center.latitude + 0.000075, center.longitude + 0.000075, speed), timestamp);
    assert corner.coords.latitude - center.latitude == 0.000075;
    assert corner.coords.longitude - center.longitude == 0.000075;
    assert SquaredOffset(corner.coords.latitude, corner.coords.longitude, center) > Square(fence.radius);
    assert IsLocationInGeofence(corner, fence);
  }

  /**
   * A 10 m fence around a start point contains the start point and not a
   * location 200 m due north of it.
   */
  lemma StartPointScenario()
    ensures var start := Location(30.1325735, -97.6408249);
            var fence := CreateGeoFence(start, 10.0);
            && IsLocationInGeofence(LocationObject(Coords(30.1325735, -97.6408249, None), 0.0), fence)
            && !IsLocationInGeofence(
                 LocationObject(Coords(30.1325735 + 200.0 / MetresPerDegree, -97.6408249, None), 0.0),
                 fence)
  {
  }
}
