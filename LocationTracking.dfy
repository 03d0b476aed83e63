/**
 * Location tracking (LocationTrackingViewModel): the nearest campsite to the user, with the
 * distance function left uninterpreted, and the error states of a single location request.
 * The location manager is reduced to what each call of it returns or throws.
 */
module LocationTracking {
  import opened Wrappers
  import opened CampsiteModel
  import opened LocationStateModel
  import opened Firebase

  const PermissionsRequiredMessage: string := "Location permissions required"
  const ServiceUnavailableMessage: string := "Location service unavailable"
  const GpsDisabledMessage: string := "GPS is disabled. Please enable it."
  const PermissionDeniedMessage: string := "Location permission denied"
  const LocationFailedMessage: string := "Failed to get location"
  const FetchFailedMessage: string := "Failed to fetch campsites"

  /** The distance between two positions (the haversine formula in the source). */
  type Distance = (Coord, Coord) -> real

  /** `filter { it.latitude != null && it.longitude != null }`. */
  function WithCoordinates(cs: seq<Campsite>): (r: seq<Campsite>)
    ensures |r| <= |cs|
    ensures forall c :: c in r <==> c in cs && HasCoordinates(c)
  {
    if cs == [] then []
    else
      var rest := WithCoordinates(cs[1..]);
      assert cs == [cs[0]] + cs[1..];
      if HasCoordinates(cs[0]) then [cs[0]] + rest else rest
  }

  /** Filtering keeps the listing order: it distributes over concatenation. */
  lemma {:induction false} WithCoordinatesAppend(a: seq<Campsite>, b: seq<Campsite>)
    ensures WithCoordinates(a + b) == WithCoordinates(a) + WithCoordinates(b)
  {
    if a == [] {
      assert a + b == b;
    } else {
      var ab := a + b;
      assert ab[0] == a[0] && ab[1..] == a[1..] + b;
      WithCoordinatesAppend(a[1..], b);
      var tail := WithCoordinates(a[1..]);
      var other := WithCoordinates(b);
      if HasCoordinates(a[0]) {
        assert [a[0]] + (tail + other) == ([a[0]] + tail) + other;
      }
    }
  }

  predicate AllHaveCoordinates(cs: seq<Campsite>) {
    forall i :: 0 <= i < |cs| ==> HasCoordinates(cs[i])
  }

  function DistanceTo(user: Coord, c: Campsite, distance: Distance): real
    requires HasCoordinates(c)
  {
    distance(user, Position(c))
  }

  /**
   * `minByOrNull` from index `k` on, `best` being the index of the first minimum of the
   * elements before `k`: a later element replaces it only when strictly nearer.
   */
  function MinIndexFrom(cs: seq<Campsite>, user: Coord, distance: Distance, best: nat, k: nat): (i: nat)
    requires AllHaveCoordinates(cs)
    requires best < k <= |cs|
    requires forall j :: 0 <= j < k ==> DistanceTo(user, cs[best], distance) <= DistanceTo(user, cs[j], distance)
    requires forall j :: 0 <= j < best ==> DistanceTo(user, cs[best], distance) < DistanceTo(user, cs[j], distance)
    ensures i < |cs|
    ensures forall j :: 0 <= j < |cs| ==> DistanceTo(user, cs[i], distance) <= DistanceTo(user, cs[j], distance)
    ensures forall j :: 0 <= j < i ==> DistanceTo(user, cs[i], distance) < DistanceTo(user, cs[j], distance)
    decreases |cs| - k
  {
    if k == |cs| then best
    else if DistanceTo(user, cs[best], distance) > DistanceTo(user, cs[k], distance) then
      MinIndexFrom(cs, user, distance, k, k + 1)
    else
      MinIndexFrom(cs, user, distance, best, k + 1)
  }

  /**
   * The position, among the campsites with coordinates, of the first of those at the least
   * distance: each one before it is strictly farther, none is nearer.
   */
  function NearestIndex(cs: seq<Campsite>, user: Coord, distance: Distance): (i: nat)
    requires WithCoordinates(cs) != []
    ensures var valid := WithCoordinates(cs);
            && i < |valid|
            && (forall j :: 0 <= j < |valid| ==> DistanceTo(user, valid[i], distance) <= DistanceTo(user, valid[j], distance))
            && (forall j :: 0 <= j < i ==> DistanceTo(user, valid[i], distance) < DistanceTo(user, valid[j], distance))
  {
    var valid := WithCoordinates(cs);
    assert AllHaveCoordinates(valid) by {
      forall j | 0 <= j < |valid| ensures HasCoordinates(valid[j]) {
        assert valid[j] in valid;
      }
    }
    MinIndexFrom(valid, user, distance, 0, 1)
  }

  /**
   * The nearest campsite with coordinates: None when there is none, otherwise the first of
   * those at the least distance.
   */
  function Nearest(cs: seq<Campsite>, user: Coord, distance: Distance): (r: Option<Campsite>)
    ensures r.None? <==> forall c :: c in cs ==> !HasCoordinates(c)
    ensures r.Some? ==> r.value in cs && HasCoordinates(r.value)
    ensures r.Some? ==> forall c :: c in cs && HasCoordinates(c) ==>
              DistanceTo(user, r.value, distance) <= DistanceTo(user, c, distance)
  {
    var valid := WithCoordinates(cs);
    if valid == [] then None
    else
      assert valid[0] in valid;
      var i := NearestIndex(cs, user, distance);
      assert valid[i] in valid;
      assert forall c :: c in valid ==> DistanceTo(user, valid[i], distance) <= DistanceTo(user, c, distance);
      Some(valid[i])
  }

  /** Ties go to the campsite listed first: every campsite with coordinates before it is strictly farther. */
  lemma NearestIsFirstMinimum(cs: seq<Campsite>, user: Coord, distance: Distance)
    requires Nearest(cs, user, distance).Some?
    ensures WithCoordinates(cs) != []
    ensures var valid := WithCoordinates(cs);
            var i := NearestIndex(cs, user, distance);
            var n := Nearest(cs, user, distance).value;
            && n == valid[i]
            && forall j :: 0 <= j < i ==> DistanceTo(user, n, distance) < DistanceTo(user, valid[j], distance)
  {
    var c :| c in cs && HasCoordinates(c);
    assert c in WithCoordinates(cs);
  }

  /** What `updateNearestCampsite` does to the state, for a user at `user`. */
  function WithNearest(s: LocationState, user: Coord, distance: Distance): (r: LocationState)
    ensures r.currentLocation == s.currentLocation && r.campsites == s.campsites
    ensures r.permissionGranted == s.permissionGranted && r.error == s.error
    ensures r.nearestCampsite == Nearest(s.campsites, user, distance)
    ensures r.nearestCampsite.None? ==> r.nearestCampsiteDistance.None? && r.targetLocation.None?
    ensures r.nearestCampsite.Some? ==>
              && r.targetLocation == Some(Position(r.nearestCampsite.value))
              && r.nearestCampsiteDistance == Some(DistanceTo(user, r.nearestCampsite.value, distance))
  {
    match Nearest(s.campsites, user, distance)
    case None => s.(nearestCampsite := None, nearestCampsiteDistance := None, targetLocation := None)
    case Some(n) =>
      s.(nearestCampsite := Some(n), nearestCampsiteDistance := Some(DistanceTo(user, n, distance)),
         targetLocation := Some(Position(n)))
  }

  /** What a call of the location manager in `requestSingleLocation` gives. */
  datatype LocationProbe =
    | GpsDisabled
    | LastKnown(fix: Coord)
    | NoLastKnown
    | ThrowsSecurityException
    | ThrowsOtherException

  /** The state of `LocationTrackingViewModel`. */
  class LocationTracker {
    var state: LocationState
    /** The single-update listener is registered with the location manager. */
    var listenerRegistered: bool
    /** The location manager could be obtained. */
    const serviceAvailable: bool
    const distance: Distance

    /** `init { fetchCampsites() }`, with `fetch` the outcome of the campsite query. */
    constructor (serviceAvailable: bool, distance: Distance, fetch: QueryResult)
      ensures this.serviceAvailable == serviceAvailable && this.distance == distance
      ensures !listenerRegistered
      ensures fetch.QueryFailed? ==> state == DefaultLocationState().(error := Some(FetchFailedMessage))
      ensures fetch.Snapshot? ==> state == DefaultLocationState().(campsites := ParsedDocuments(fetch.docs))
    {
      this.serviceAvailable := serviceAvailable;
      this.distance := distance;
      state := DefaultLocationState();
      listenerRegistered := false;
      new;
      FetchCampsites(fetch);
    }

    /** `fetchCampsites`: the parsed campsites, and the nearest one again when the user is located. */
    method FetchCampsites(fetch: QueryResult)
      modifies this`state
      ensures fetch.QueryFailed? ==> state == old(state).(error := Some(FetchFailedMessage))
      ensures fetch.Snapshot? ==>
                var loaded := old(state).(campsites := ParsedDocuments(fetch.docs));
                state == if loaded.currentLocation.Some? then WithNearest(loaded, loaded.currentLocation.value, distance) else loaded
    {
      match fetch {
        case QueryFailed(_) =>
          state := state.(error := Some(FetchFailedMessage));
        case Snapshot(docs) =>
          state := state.(campsites := ParsedDocuments(docs));
          if state.currentLocation.Some? {
            UpdateNearestCampsite(state.currentLocation.value);
          }
      }
    }

    method UpdateNearestCampsite(user: Coord)
      modifies this`state
      ensures state == WithNearest(old(state), user, distance)
    {
      var validCampsites := WithCoordinates(state.campsites);
      if validCampsites == [] {
        state := state.(nearestCampsite := None, nearestCampsiteDistance := None, targetLocation := None);
        return;
      }
      var nearest := Nearest(state.campsites, user, distance);
      state := state.(nearestCampsite := nearest, nearestCampsiteDistance := Some(DistanceTo(user, nearest.value, distance)),
                      targetLocation := Some(Position(nearest.value)));
    }

    /** `updateLocation`: the position is recorded, the error cleared, the nearest campsite recomputed. */
    method UpdateLocation(fix: Coord)
      modifies this`state
      ensures state == WithNearest(old(state).(currentLocation := Some(fix), error := None), fix, distance)
    {
      state := state.(currentLocation := Some(fix), error := None);
      UpdateNearestCampsite(fix);
    }

    method SetPermissionGranted(granted: bool)
      modifies this`state
      ensures state.permissionGranted == granted
      ensures state.error.Some? <==> !granted
      ensures !granted ==> state.error == Some(PermissionsRequiredMessage)
      ensures state == old(state).(permissionGranted := granted, error := state.error)
    {
      state := state.(permissionGranted := granted, error := if !granted then Some(PermissionsRequiredMessage) else None);
    }

    /**
     * `requestSingleLocation`, with `probe` what the location manager reports: the early
     * exits set only the error, a last-known fix is used at once, and otherwise the
     * single-update listener is registered.
     */
    method RequestSingleLocation(probe: LocationProbe)
      modifies this`state, this`listenerRegistered
      ensures !old(state).permissionGranted ==>
                state == old(state).(error := Some(PermissionsRequiredMessage)) && listenerRegistered == old(listenerRegistered)
      ensures old(state).permissionGranted && !serviceAvailable ==>
                state == old(state).(error := Some(ServiceUnavailableMessage)) && listenerRegistered == old(listenerRegistered)
      ensures old(state).permissionGranted && serviceAvailable ==>
                match probe
                case GpsDisabled =>
                  state == old(state).(error := Some(GpsDisabledMessage)) && listenerRegistered == old(listenerRegistered)
                case LastKnown(fix) =>
                  state == WithNearest(old(state).(currentLocation := Some(fix), error := None), fix, distance)
                  && listenerRegistered == old(listenerRegistered)
                case NoLastKnown =>
                  state == old(state) && listenerRegistered
                case ThrowsSecurityException =>
                  state == old(state).(error := Some(PermissionDeniedMessage)) && listenerRegistered == old(listenerRegistered)
                case ThrowsOtherException =>
                  state == old(state).(error := Some(LocationFailedMessage)) && listenerRegistered == old(listenerRegistered)
    {
      if !state.permissionGranted {
        state := state.(error := Some(PermissionsRequiredMessage));
        return;
      }
      if !serviceAvailable {
        state := state.(error := Some(ServiceUnavailableMessage));
        return;
      }
      match probe {
        case GpsDisabled =>
          state := state.(error := Some(GpsDisabledMessage));
        case LastKnown(fix) =>
          UpdateLocation(fix);
        case NoLastKnown =>
          listenerRegistered := true;
        case ThrowsSecurityException =>
          state := state.(error := Some(PermissionDeniedMessage));
        case ThrowsOtherException =>
          state := state.(error := Some(LocationFailedMessage));
      }
    }

    /** The listener's `onLocationChanged`: the fix is used, then the listener removes itself. */
    method OnLocationChanged(fix: Coord)
      modifies this`state, this`listenerRegistered
      ensures state == WithNearest(old(state).(currentLocation := Some(fix), error := None), fix, distance)
      ensures !listenerRegistered
    {
      UpdateLocation(fix);
      listenerRegistered := false;
    }

    /** The listener's `onProviderDisabled`. */
    method OnProviderDisabled()
      modifies this`state
      ensures state == old(state).(error := Some(GpsDisabledMessage))
    {
      state := state.(error := Some(GpsDisabledMessage));
    }
  }
}
