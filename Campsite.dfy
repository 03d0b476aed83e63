/** The `Campsite` record (model/Campsite.kt) and the coordinate pair used across the app. */
module CampsiteModel {
  import opened Wrappers

  /** A latitude/longitude pair (Kotlin's `Pair<Double, Double>` and `LatLng`). */
  datatype Coord = Coord(lat: real, lon: real)

  /**
   * One campsite document. Doubles are modelled as reals. `category` is the source's `type`
   * field (a reserved word here). `ratings` maps a rater's user id to the rating, so a rater
   * holds at most one rating.
   */
  datatype Campsite = Campsite(
    id: string,
    name: string,
    location: string,
    price: string,
    description: string,
    latitude: Option<real>,
    longitude: Option<real>,
    creatorId: string,
    mainImageBase64: Option<string>,
    imageBase64s: seq<string>,
    ratings: map<string, real>,
    availability: bool,
    category: string)

  const DefaultCategory: string := "Ostalo"

  /** `Campsite()`: every constructor argument left at its default. */
  function DefaultCampsite(): (c: Campsite)
    ensures c.id == c.name == c.location == c.price == c.description == c.creatorId == ""
    ensures c.latitude == None && c.longitude == None
    ensures c.mainImageBase64 == None && c.imageBase64s == []
    ensures c.ratings == map[]
    ensures c.availability && c.category == DefaultCategory
  {
    Campsite("", "", "", "", "", None, None, "", None, [], map[], true, DefaultCategory)
  }

  /** The campsite has both coordinates (the filter in `updateNearestCampsite`). */
  predicate HasCoordinates(c: Campsite) {
    c.latitude.Some? && c.longitude.Some?
  }

  function Position(c: Campsite): Coord
    requires HasCoordinates(c)
  {
    Coord(c.latitude.value, c.longitude.value)
  }
}
