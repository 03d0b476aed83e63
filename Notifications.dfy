/**
 * The rating-notification relay (NotificationViewModel): a de-duplicating insert into the
 * "notifications" collection, and a guarded pass that marks one user's pending records as
 * processed once they have been shown. Showing a notification is platform I/O and left out.
 */
module Notifications {
  import opened Wrappers
  import opened Firebase

  type Store = map<string, Notification>

  /** The fields the duplicate check compares. */
  datatype NotificationKey = NotificationKey(
    creatorId: string,
    raterFirstName: string,
    raterLastName: string,
    campsiteName: string,
    rating: real)

  function KeyOf(n: Notification): NotificationKey {
    NotificationKey(n.creatorId, n.raterFirstName, n.raterLastName, n.campsiteName, n.rating)
  }

  /** The unprocessed records with exactly these fields: what the duplicate query returns. */
  function PendingMatches(store: Store, k: NotificationKey): set<string> {
    set id | id in store && !store[id].processed && KeyOf(store[id]) == k
  }

  /** The record `sendLocalNotification` writes. */
  function NewRecord(k: NotificationKey, timestamp: string): (n: Notification)
    ensures KeyOf(n) == k && !n.processed && n.timestamp == timestamp
  {
    Notification(k.creatorId, k.raterFirstName, k.raterLastName, k.campsiteName, k.rating, timestamp, false)
  }

  /**
   * The store after a successful `sendLocalNotification`: a new unprocessed record under the
   * fresh id, unless an unprocessed record with the same fields exists.
   */
  function Queue(store: Store, k: NotificationKey, newId: string, timestamp: string): (r: Store)
    requires newId !in store
    ensures PendingMatches(store, k) == {} ==> r == store[newId := NewRecord(k, timestamp)]
    ensures PendingMatches(store, k) != {} ==> r == store
  {
    if PendingMatches(store, k) == {} then store[newId := NewRecord(k, timestamp)] else store
  }

  /** After queueing, exactly one record with these fields is pending when none was before. */
  lemma QueueLeavesOnePending(store: Store, k: NotificationKey, newId: string, timestamp: string)
    requires newId !in store
    requires PendingMatches(store, k) == {}
    ensures PendingMatches(Queue(store, k, newId, timestamp), k) == {newId}
  {
    var r := Queue(store, k, newId, timestamp);
    assert newId in PendingMatches(r, k);
  }

  /** Queueing the same fields twice gives the store of a single queueing. */
  lemma QueueIsIdempotent(store: Store, k: NotificationKey, id1: string, id2: string, t1: string, t2: string)
    requires id1 !in store && id2 !in store && id1 != id2
    ensures id2 !in Queue(store, k, id1, t1)
    ensures Queue(Queue(store, k, id1, t1), k, id2, t2) == Queue(store, k, id1, t1)
  {
    if PendingMatches(store, k) == {} {
      QueueLeavesOnePending(store, k, id1, t1);
    }
  }

  /** A processed record with the same fields does not stop a new one from being queued. */
  lemma ProcessedRecordDoesNotBlock(store: Store, k: NotificationKey, newId: string, timestamp: string)
    requires newId !in store
    requires forall id :: id in store && KeyOf(store[id]) == k ==> store[id].processed
    ensures Queue(store, k, newId, timestamp) == store[newId := NewRecord(k, timestamp)]
  {
    assert PendingMatches(store, k) == {};
  }

  /** The records the processing pass queries: unprocessed and addressed to `userId`. */
  function PendingFor(store: Store, userId: string): set<string> {
    set id | id in store && !store[id].processed && store[id].creatorId == userId
  }

  /** The store with the records of `ids` marked processed. */
  function MarkProcessed(store: Store, ids: set<string>): (r: Store)
    ensures r.Keys == store.Keys
    ensures forall id :: id in store && id in ids ==> r[id] == store[id].(processed := true)
    ensures forall id :: id in store && id !in ids ==> r[id] == store[id]
  {
    map id | id in store :: if id in ids then store[id].(processed := true) else store[id]
  }

  /** The records a pass for `userId` marks: its pending ones whose update succeeds. */
  function Marked(store: Store, userId: string, markSucceeds: string -> bool): set<string> {
    set id | id in PendingFor(store, userId) && markSucceeds(id)
  }

  /** A pass changes only the user's pending records, and only their `processed` flag. */
  lemma PassTouchesOnlyUsersPending(store: Store, userId: string, markSucceeds: string -> bool)
    ensures var r := MarkProcessed(store, Marked(store, userId, markSucceeds));
            forall id :: id in store && r[id] != store[id] ==>
              store[id].creatorId == userId && !store[id].processed && r[id] == store[id].(processed := true)
  {
  }

  /** A record whose update fails stays pending; every other pending record of the user is cleared. */
  lemma PassClearsExactlyTheMarked(store: Store, userId: string, markSucceeds: string -> bool)
    ensures var r := MarkProcessed(store, Marked(store, userId, markSucceeds));
            PendingFor(r, userId) == set id | id in PendingFor(store, userId) && !markSucceeds(id)
  {
    var r := MarkProcessed(store, Marked(store, userId, markSucceeds));
    forall id | id in PendingFor(r, userId)
      ensures id in PendingFor(store, userId) && !markSucceeds(id)
    {
      assert id in store;
    }
  }

  /** The pending records of every other user are the same after the pass. */
  lemma PassKeepsOthersPending(store: Store, userId: string, other: string, markSucceeds: string -> bool)
    requires other != userId
    ensures PendingFor(MarkProcessed(store, Marked(store, userId, markSucceeds)), other) == PendingFor(store, other)
  {
    var r := MarkProcessed(store, Marked(store, userId, markSucceeds));
    forall id | id in PendingFor(store, other)
      ensures id in PendingFor(r, other)
    {
      assert id !in Marked(store, userId, markSucceeds);
    }
  }

  /** Marking one more record of the store is one more update of the marked store. */
  lemma MarkOneMore(store: Store, marked: set<string>, id: string)
    requires id in store && id !in marked
    ensures var current := MarkProcessed(store, marked);
            current[id := current[id].(processed := true)] == MarkProcessed(store, marked + {id})
  {
  }

  /** The state of `NotificationViewModel`: the guard flag, a plain boolean here. */
  class NotificationRelay {
    var isProcessingNotifications: bool

    constructor ()
      ensures !isProcessingNotifications
    {
      isProcessingNotifications := false;
    }

    /**
     * `sendLocalNotification`. `query` is the outcome of the duplicate query, `add` that of
     * the insert, which creates the record under the fresh id `newId`. Failures are swallowed.
     */
    method SendLocalNotification(backend: Backend, k: NotificationKey, query: Step, add: Step,
                                 newId: string, timestamp: string)
      requires newId !in backend.notifications
      modifies backend`notifications
      ensures query.Ok? && add.Ok? ==> backend.notifications == Queue(old(backend.notifications), k, newId, timestamp)
      ensures query.Err? || add.Err? ==> backend.notifications == old(backend.notifications)
    {
      if query.Err? {
        return;
      }
      var snapshot := PendingMatches(backend.notifications, k);
      if snapshot == {} {
        if add.Err? {
          return;
        }
        backend.notifications := backend.notifications[newId := NewRecord(k, timestamp)];
      }
    }

    /**
     * `sendPendingNotifications`: skipped when the guard is set; otherwise, when the query
     * succeeds, each pending record of the user is shown and marked processed, a failed
     * update (`markSucceeds(id)` false) not stopping the others. The guard is cleared on exit.
     */
    method SendPendingNotifications(backend: Backend, userId: string, query: Step, markSucceeds: string -> bool)
      modifies this`isProcessingNotifications, backend`notifications
      ensures old(isProcessingNotifications) ==>
                isProcessingNotifications && backend.notifications == old(backend.notifications)
      ensures !old(isProcessingNotifications) ==>
                && !isProcessingNotifications
                && (query.Err? ==> backend.notifications == old(backend.notifications))
                && (query.Ok? ==>
                      backend.notifications ==
                        MarkProcessed(old(backend.notifications), Marked(old(backend.notifications), userId, markSucceeds)))
    {
      if isProcessingNotifications {
        return;
      }
      isProcessingNotifications := true;
      if query.Ok? {
        var snapshot := PendingFor(backend.notifications, userId);
        var remaining := snapshot;
        ghost var marked: set<string> := {};
        while remaining != {}
          invariant remaining <= snapshot && marked <= snapshot
          invariant forall j :: j in marked <==> j in snapshot && j !in remaining && markSucceeds(j)
          invariant backend.notifications == MarkProcessed(old(backend.notifications), marked)
          decreases |remaining|
        {
          var id :| id in remaining;
          if markSucceeds(id) {
            MarkOneMore(old(backend.notifications), marked, id);
            var current := backend.notifications[id];
            backend.notifications := backend.notifications[id := current.(processed := true)];
            marked := marked + {id};
          }
          remaining := remaining - {id};
        }
        assert marked == Marked(old(backend.notifications), userId, markSucceeds);
      }
      isProcessingNotifications := false;
    }

    /** The auth listener: a pass starts only for a signed-in user and a clear guard. */
    method OnAuthStateChanged(backend: Backend, query: Step, markSucceeds: string -> bool)
      modifies this`isProcessingNotifications, backend`notifications
      ensures backend.currentUser.None? || old(isProcessingNotifications) ==>
                backend.notifications == old(backend.notifications)
                && isProcessingNotifications == old(isProcessingNotifications)
      ensures backend.currentUser.Some? && !old(isProcessingNotifications) && query.Ok? ==>
                backend.notifications ==
                  MarkProcessed(old(backend.notifications),
                                Marked(old(backend.notifications), backend.currentUser.value.uid, markSucceeds))
      ensures backend.currentUser.Some? && !old(isProcessingNotifications) && query.Err? ==>
                backend.notifications == old(backend.notifications)
      ensures !old(isProcessingNotifications) ==> !isProcessingNotifications
    {
      var userId := backend.CurrentUid();
      if userId.Some? && !isProcessingNotifications {
        SendPendingNotifications(backend, userId.value, query, markSucceeds);
      }
    }
  }
}
