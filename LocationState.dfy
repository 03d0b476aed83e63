/** The `LocationState` record (model/LocationState.kt). */
module LocationStateModel {
  import opened Wrappers
  import opened CampsiteModel

  datatype LocationState = LocationState(
    currentLocation: Option<Coord>,
    nearestCampsite: Option<Campsite>,
    nearestCampsiteDistance: Option<real>,
    targetLocation: Option<Coord>,
    campsites: seq<Campsite>,
    permissionGranted: bool,
    error: Option<string>)

  /** `LocationState()`: nothing known yet, permission not granted, no error. */
  function DefaultLocationState(): (s: LocationState)
    ensures s.currentLocation == None && s.nearestCampsite == None
    ensures s.nearestCampsiteDistance == None && s.targetLocation == None
    ensures s.campsites == []
    ensures !s.permissionGranted && s.error == None
  {
    LocationState(None, None, None, None, [], false, None)
  }
}
