/**
 * The campsite details view-model (CampsiteDetailsViewModel): loading one campsite, rating
 * it (one key of its ratings map, last write wins, with a notification to the creator), and
 * deleting it, which only the creator may do.
 */
module CampsiteDetails {
  import opened Wrappers
  import opened CampsiteModel
  import opened Firebase
  import opened Notifications

  const NotFoundMessage: string := "Campsite not found"
  const NotLoggedInMessage: string := "User not logged in"
  const NotCreatorMessage: string := "Only the creator can delete this campsite"
  /** The name used when the rater's profile lacks one ("unknown"). */
  const UnknownName: string := "Nepoznato"

  /** The range the rating screen accepts: its text field parses a number and checks `rating in 1.0..10.0`. */
  const MinRating: real := 1.0
  const MaxRating: real := 10.0

  /** `update("ratings.$userId", rating)`: one key of the ratings map is set. */
  function MergeRating(ratings: map<string, real>, userId: string, rating: real): (r: map<string, real>)
    ensures r.Keys == ratings.Keys + {userId}
    ensures r[userId] == rating
    ensures forall u :: u in ratings && u != userId ==> r[u] == ratings[u]
  {
    ratings[userId := rating]
  }

  /** Re-rating overwrites: the last of two ratings by the same user is the one kept. */
  lemma LastRatingWins(ratings: map<string, real>, userId: string, first: real, second: real)
    ensures MergeRating(MergeRating(ratings, userId, first), userId, second) == MergeRating(ratings, userId, second)
  {
  }

  /** Ratings by different users commute. */
  lemma DifferentRatersCommute(ratings: map<string, real>, u1: string, r1: real, u2: string, r2: real)
    requires u1 != u2
    ensures MergeRating(MergeRating(ratings, u1, r1), u2, r2) == MergeRating(MergeRating(ratings, u2, r2), u1, r1)
  {
  }

  /** A rating adds at most one rater, and exactly one when the user had not rated yet. */
  lemma RatingCountGrowsByAtMostOne(ratings: map<string, real>, userId: string, rating: real)
    ensures |MergeRating(ratings, userId, rating).Keys| == |ratings.Keys| + (if userId in ratings then 0 else 1)
  {
    if userId !in ratings {
      assert userId !in ratings.Keys;
    } else {
      assert ratings.Keys + {userId} == ratings.Keys;
    }
  }

  predicate RatingsInRange(ratings: map<string, real>) {
    forall u :: u in ratings ==> MinRating <= ratings[u] <= MaxRating
  }

  /** Ratings the screen accepts keep every stored rating within [1, 10]. */
  lemma RatingKeepsRange(ratings: map<string, real>, userId: string, rating: real)
    requires RatingsInRange(ratings) && MinRating <= rating <= MaxRating
    ensures RatingsInRange(MergeRating(ratings, userId, rating))
  {
  }

  /** The rater's name fields: the profile's, or "Nepoznato" when there is no profile. */
  function RaterNames(users: map<string, User>, userId: string): (names: (string, string))
    ensures userId in users ==> names == (users[userId].firstname, users[userId].lastname)
    ensures userId !in users ==> names == (UnknownName, UnknownName)
  {
    if userId in users then (users[userId].firstname, users[userId].lastname) else (UnknownName, UnknownName)
  }

  /** The inputs of the notification queued by a rating (outcomes of its two backend calls). */
  datatype NotifyOutcome = NotifyOutcome(query: Step, add: Step, newId: string, timestamp: string)

  /** The state of `CampsiteDetailsViewModel`, which owns a notification relay. */
  class CampsiteDetailsState {
    var campsite: Option<Campsite>
    var error: Option<string>
    const relay: NotificationRelay

    constructor (relay: NotificationRelay)
      ensures campsite == None && error == None && this.relay == relay
    {
      campsite := None;
      error := None;
      this.relay := relay;
    }

    /**
     * `fetchCampsite`, with `read` the outcome of reading the document. Nothing happens when
     * the loaded campsite already has this id.
     */
    method FetchCampsite(backend: Backend, campsiteId: string, read: Step)
      modifies this`campsite, this`error
      ensures old(campsite).Some? && old(campsite).value.id == campsiteId ==>
                campsite == old(campsite) && error == old(error)
      ensures !(old(campsite).Some? && old(campsite).value.id == campsiteId) ==>
                if read.Err? then
                  campsite == old(campsite) && error == read.e.message
                else if campsiteId in backend.campsites then
                  campsite == Some(backend.campsites[campsiteId].(id := campsiteId)) && error == None
                else
                  campsite == None && error == Some(NotFoundMessage)
      ensures campsite.Some? ==> campsite.value.id == campsiteId || campsite == old(campsite)
    {
      if campsite.Some? && campsite.value.id == campsiteId {
        return;
      }
      if read.Err? {
        error := read.e.message;
        return;
      }
      var loaded := if campsiteId in backend.campsites then Some(backend.campsites[campsiteId].(id := campsiteId)) else None;
      campsite := loaded;
      error := if loaded.None? then Some(NotFoundMessage) else None;
    }

    /**
     * `rateCampsite`. `userRead` is the outcome of reading the rater's profile, `update` that
     * of the ratings update (which the backend refuses for a missing document), `reread` that
     * of reading the campsite back, and `notify` the inputs of the notification.
     */
    method RateCampsite(backend: Backend, campsiteId: string, rating: real,
                        userRead: Step, update: Step, reread: Step, notify: NotifyOutcome)
      returns (completion: Completion)
      requires campsiteId !in backend.campsites ==> update.Err?
      requires notify.newId !in backend.notifications
      modifies backend`campsites, backend`notifications
      ensures backend.currentUser.None? || userRead.Err? || update.Err? ==>
                backend.campsites == old(backend.campsites) && backend.notifications == old(backend.notifications)
      ensures backend.currentUser.None? ==> completion == OnFailure(Failure(NotLoggedInMessage))
      ensures backend.currentUser.Some? && userRead.Err? ==> completion == OnFailure(userRead.e)
      ensures backend.currentUser.Some? && userRead.Ok? && update.Err? ==> completion == OnFailure(update.e)
      ensures backend.currentUser.Some? && userRead.Ok? && update.Ok? ==>
                var userId := backend.currentUser.value.uid;
                var rated := old(backend.campsites)[campsiteId].(ratings := MergeRating(old(backend.campsites)[campsiteId].ratings, userId, rating));
                var names := RaterNames(old(backend.users), userId);
                var key := NotificationKey(rated.creatorId, names.0, names.1, rated.name, rating);
                && backend.campsites == old(backend.campsites)[campsiteId := rated]
                && (reread.Err? ==> completion == OnFailure(reread.e) && backend.notifications == old(backend.notifications))
                && (reread.Ok? ==> completion == OnSuccess)
                && (reread.Ok? && rated.creatorId == userId ==> backend.notifications == old(backend.notifications))
                && (reread.Ok? && rated.creatorId != userId && notify.query.Ok? && notify.add.Ok? ==>
                      backend.notifications == Queue(old(backend.notifications), key, notify.newId, notify.timestamp))
                && (reread.Ok? && (notify.query.Err? || notify.add.Err?) ==>
                      backend.notifications == old(backend.notifications))
    {
      if backend.currentUser.None? {
        completion := OnFailure(Failure(NotLoggedInMessage));
        return;
      }
      var userId := backend.currentUser.value.uid;
      if userRead.Err? {
        completion := OnFailure(userRead.e);
        return;
      }
      var names := RaterNames(backend.users, userId);
      if update.Err? {
        completion := OnFailure(update.e);
        return;
      }
      var stored := backend.campsites[campsiteId];
      backend.campsites := backend.campsites[campsiteId := stored.(ratings := MergeRating(stored.ratings, userId, rating))];
      if reread.Err? {
        completion := OnFailure(reread.e);
        return;
      }
      var reloaded := backend.campsites[campsiteId];
      if reloaded.creatorId != userId {
        var key := NotificationKey(reloaded.creatorId, names.0, names.1, reloaded.name, rating);
        relay.SendLocalNotification(backend, key, notify.query, notify.add, notify.newId, notify.timestamp);
      }
      completion := OnSuccess;
    }

    /**
     * `deleteCampsite`. `creatorId` is the creator the caller passes in; `delete` is the
     * outcome of the deletion.
     */
    method DeleteCampsite(backend: Backend, campsiteId: string, creatorId: string, delete: Step)
      returns (completion: Completion)
      modifies backend`campsites
      ensures backend.currentUser.None? ==>
                completion == OnFailure(Failure(NotLoggedInMessage)) && backend.campsites == old(backend.campsites)
      ensures backend.currentUser.Some? && backend.currentUser.value.uid != creatorId ==>
                completion == OnFailure(Failure(NotCreatorMessage)) && backend.campsites == old(backend.campsites)
      ensures backend.currentUser.Some? && backend.currentUser.value.uid == creatorId ==>
                if delete.Ok? then
                  completion == OnSuccess && backend.campsites == old(backend.campsites) - {campsiteId}
                else
                  completion == OnFailure(delete.e) && backend.campsites == old(backend.campsites)
      ensures backend.campsites != old(backend.campsites) ==> backend.CurrentUid() == Some(creatorId)
    {
      if backend.currentUser.None? {
        completion := OnFailure(Failure(NotLoggedInMessage));
        return;
      }
      var userId := backend.currentUser.value.uid;
      if userId != creatorId {
        completion := OnFailure(Failure(NotCreatorMessage));
        return;
      }
      if delete.Err? {
        completion := OnFailure(delete.e);
        return;
      }
      backend.campsites := backend.campsites - {campsiteId};
      completion := OnSuccess;
    }
  }
}
