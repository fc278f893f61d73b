/**
 * Speed extrema of a recorded track (getMaxSpeed / getMinSpeed in
 * src/screens/mapReview.tsx).
 *
 * Both functions scan the list once with an index loop and a mutable
 * accumulator that starts at a sentinel; entries with a falsy speed
 * (absent, or exactly 0) are skipped. The loops are methods proved against
 * the folds MaxSpeedOf / MinSpeedOf over prefixes of the list; the list is
 * a `seq`, so neither method can change it.
 */
module MapReview {
  import opened Wrappers
  import opened ExpoLocation

  /** `Number.MIN_SAFE_INTEGER` and `Number.MAX_SAFE_INTEGER`: -(2^53 - 1) and 2^53 - 1. */
  const MinSafeInteger: real := -9007199254740991.0
  const MaxSafeInteger: real := 9007199254740991.0

  /** JavaScript truthiness of `coords.speed`: present and not zero (NaN is not modelled). */
  predicate Truthy(speed: Option<real>)
  {
    speed.Some? && speed.value != 0.0
  }

  /** The speeds the scan takes into account: the truthy ones. */
  function TruthySpeeds(locations: seq<LocationObject>): set<real>
  {
    set location | location in locations && Truthy(location.coords.speed) :: location.coords.speed.value
  }

  /** One loop step of getMaxSpeed. */
  function MaxStep(maxSpeed: real, speed: Option<real>): real
  {
    if Truthy(speed) && speed.value > maxSpeed then speed.value else maxSpeed
  }

  /** One loop step of getMinSpeed. */
  function MinStep(minSpeed: real, speed: Option<real>): real
  {
    if Truthy(speed) && speed.value < minSpeed then speed.value else minSpeed
  }

  lemma TruthySpeedsSnoc(prefix: seq<LocationObject>, location: LocationObject)
    ensures TruthySpeeds(prefix + [location])
         == TruthySpeeds(prefix)
            + (if Truthy(location.coords.speed) then {location.coords.speed.value} else {})
  {
  }

  /**
   * The accumulator of getMaxSpeed after scanning `locations`: the largest of
   * the sentinel and the truthy speeds.
   */
  function MaxSpeedOf(locations: seq<LocationObject>): (maxSpeed: real)
    ensures maxSpeed >= MinSafeInteger
    ensures forall v :: v in TruthySpeeds(locations) ==> v <= maxSpeed
    ensures maxSpeed == MinSafeInteger || maxSpeed in TruthySpeeds(locations)
    decreases |locations|
  {
    if locations == [] then MinSafeInteger
    else
      var prefix := locations[..|locations| - 1];
      var last := locations[|locations| - 1];
      assert locations == prefix + [last];
      TruthySpeedsSnoc(prefix, last);
      MaxStep(MaxSpeedOf(prefix), last.coords.speed)
  }

  /**
   * The accumulator of getMinSpeed after scanning `locations`: the smallest of
   * the sentinel and the truthy speeds.
   */
  function MinSpeedOf(locations: seq<LocationObject>): (minSpeed: real)
    ensures minSpeed <= MaxSafeInteger
    ensures forall v :: v in TruthySpeeds(locations) ==> minSpeed <= v
    ensures minSpeed == MaxSafeInteger || minSpeed in TruthySpeeds(locations)
    decreases |locations|
  {
    if locations == [] then MaxSafeInteger
    else
      var prefix := locations[..|locations| - 1];
      var last := locations[|locations| - 1];
      assert locations == prefix + [last];
      TruthySpeedsSnoc(prefix, last);
      MinStep(MinSpeedOf(prefix), last.coords.speed)
  }

  /** `getMaxSpeed`: the index loop with its accumulator. */
  method GetMaxSpeed(locations: seq<LocationObject>) returns (maxSpeed: real)
    ensures maxSpeed == MaxSpeedOf(locations)
  {
    maxSpeed := MinSafeInteger;
    var i := 0;
    while i < |locations|
      invariant 0 <= i <= |locations|
      invariant maxSpeed == MaxSpeedOf(locations[..i])
    {
      var speed := locations[i].coords.speed;
      assert locations[..i + 1][..i] == locations[..i];
      if Truthy(speed) {
        if speed.value > maxSpeed {
          maxSpeed := speed.value;
        }
      }
      i := i + 1;
    }
    assert locations[..i] == locations;
  }

  /** `getMinSpeed`: the index loop with its accumulator. */
  method GetMinSpeed(locations: seq<LocationObject>) returns (minSpeed: real)
    ensures minSpeed == MinSpeedOf(locations)
  {
    minSpeed := MaxSafeInteger;
    var i := 0;
    while i < |locations|
      invariant 0 <= i <= |locations|
      invariant minSpeed == MinSpeedOf(locations[..i])
    {
      var speed := locations[i].coords.speed;
      assert locations[..i + 1][..i] == locations[..i];
      if Truthy(speed) {
        if speed.value < minSpeed {
          minSpeed := speed.value;
        }
      }
      i := i + 1;
    }
    assert locations[..i] == locations;
  }

  // ---------------------------------------------------------------------------
  // Properties of the folds

  /** With no truthy speed (in particular for an empty list) the sentinels come back. */
  lemma NoDataGivesSentinels(locations: seq<LocationObject>)
    requires forall location :: location in locations ==> !Truthy(location.coords.speed)
    ensures MaxSpeedOf(locations) == MinSafeInteger
    ensures MinSpeedOf(locations) == MaxSafeInteger
  {
  }

  /** Once some truthy speed beats the sentinel, the maximum is one of the recorded speeds. */
  lemma MaxSpeedIsRecorded(locations: seq<LocationObject>, location: LocationObject)
    requires location in locations && Truthy(location.coords.speed)
    requires location.coords.speed.value > MinSafeInteger
    ensures MaxSpeedOf(locations) > MinSafeInteger
    ensures exists l :: l in locations && Truthy(l.coords.speed) && l.coords.speed.value == MaxSpeedOf(locations)
  {
  }

  /** Once some truthy speed is below the sentinel, the minimum is one of the recorded speeds. */
  lemma MinSpeedIsRecorded(locations: seq<LocationObject>, location: LocationObject)
    requires location in locations && Truthy(location.coords.speed)
    requires location.coords.speed.value < MaxSafeInteger
    ensures MinSpeedOf(locations) < MaxSafeInteger
    ensures exists l :: l in locations && Truthy(l.coords.speed) && l.coords.speed.value == MinSpeedOf(locations)
  {
  }

  /** Both folds depend on the list only through its set of truthy speeds. */
  lemma ExtremaDependOnlyOnTruthySpeeds(a: seq<LocationObject>, b: seq<LocationObject>)
    requires TruthySpeeds(a) == TruthySpeeds(b)
    ensures MaxSpeedOf(a) == MaxSpeedOf(b)
    ensures MinSpeedOf(a) == MinSpeedOf(b)
  {
  }

  /** Reordering the recorded locations changes neither result. */
  lemma ExtremaIndependentOfOrder(a: seq<LocationObject>, b: seq<LocationObject>)
    requires multiset(a) == multiset(b)
    ensures MaxSpeedOf(a) == MaxSpeedOf(b)
    ensures MinSpeedOf(a) == MinSpeedOf(b)
  {
    forall x ensures x in a <==> x in b {
      assert x in a <==> x in multiset(a);
      assert x in b <==> x in multiset(b);
    }
    assert TruthySpeeds(a) == TruthySpeeds(b);
    ExtremaDependOnlyOnTruthySpeeds(a, b);
  }

  /** An entry with an absent or zero speed, wherever it sits, changes neither result. */
  lemma SkippedEntryIsInvisible(before: seq<LocationObject>, location: LocationObject, after: seq<LocationObject>)
    requires !Truthy(location.coords.speed)
    ensures MaxSpeedOf(before + [location] + after) == MaxSpeedOf(before + after)
    ensures MinSpeedOf(before + [location] + after) == MinSpeedOf(before + after)
  {
    var s, t := before + [location] + after, before + after;
    forall x | x in s && x != location ensures x in t {
      assert x in before || x in after;
    }
    forall x | x in t ensures x in s {
      assert x in before || x in after;
    }
    assert TruthySpeeds(s) == TruthySpeeds(t);
    ExtremaDependOnlyOnTruthySpeeds(s, t);
  }

  /**
   * A track whose speeds are 2.0, absent and 5.0 reports a maximum of 5.0 and
   * a minimum of 2.0.
   */
  lemma ThreeFixExample(a: Coords, b: Coords, c: Coords)
    requires a.speed == Some(2.0) && b.speed == None && c.speed == Some(5.0)
    ensures var track := [LocationObject(a, 0.0), LocationObject(b, 1.0), LocationObject(c, 2.0)];
            MaxSpeedOf(track) == 5.0 && MinSpeedOf(track) == 2.0
  {
    var track := [LocationObject(a, 0.0), LocationObject(b, 1.0), LocationObject(c, 2.0)];
    assert TruthySpeeds(track) == {2.0, 5.0} by {
      forall x | x in track ensures x == track[0] || x == track[1] || x == track[2] { }
      assert track[0] in track && track[2] in track;
    }
  }
}
