/** The fix records delivered by the expo-location platform library. */
module ExpoLocation {
  import opened Wrappers

  /** The `coords` of an expo-location fix; only the fields the core reads. */
  datatype Coords = Coords(latitude: real, longitude: real, speed: Option<real>)

  /** expo-location's `LocationObject`: a fix as delivered by the platform. */
  datatype LocationObject = LocationObject(coords: Coords, timestamp: real)
}
