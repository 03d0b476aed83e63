/**
 * The "my campsites" archive (ArchiveCampsiteViewModel): one fetch with its loading, error
 * and list state across every exit path.
 */
module Archive {
  import opened Wrappers
  import opened CampsiteModel
  import opened Firebase

  const LoginRequiredMessage: string := "Please log in to view your campsites"
  const NoneFoundMessage: string := "No campsites found for this user"
  const LoadFailedPrefix: string := "Failed to load campsites: "

  /** Kotlin's string template of a nullable message: `null` prints as "null". */
  function TemplateText(message: Option<string>): string {
    if message.Some? then message.value else "null"
  }

  /** The state of `ArchiveCampsiteViewModel`. */
  class ArchiveState {
    var userCampsites: seq<Campsite>
    var isLoading: bool
    var error: Option<string>

    constructor ()
      ensures userCampsites == [] && !isLoading && error == None
    {
      userCampsites := [];
      isLoading := false;
      error := None;
    }

    /**
     * `fetchUserCampsites`, with `result` the outcome of the query for the signed-in user's
     * campsites (every document it returns names that user as creator).
     */
    method FetchUserCampsites(backend: Backend, result: QueryResult)
      requires backend.currentUser.Some? && result.Snapshot? ==>
                 forall i :: 0 <= i < |result.docs| && result.docs[i].parsed.Some? ==>
                   result.docs[i].parsed.value.creatorId == backend.currentUser.value.uid
      modifies this
      ensures !isLoading
      ensures backend.currentUser.None? ==>
                error == Some(LoginRequiredMessage) && userCampsites == []
      ensures backend.currentUser.Some? && result.QueryFailed? ==>
                error == Some(LoadFailedPrefix + TemplateText(result.e.message))
                && userCampsites == old(userCampsites)
      ensures backend.currentUser.Some? && result.Snapshot? ==>
                && userCampsites == ParsedDocuments(result.docs)
                && (error == Some(NoneFoundMessage) <==> userCampsites == [])
                && (userCampsites != [] ==> error == None)
                && forall c :: c in userCampsites ==> c.creatorId == backend.currentUser.value.uid
    {
      isLoading := true;
      error := None;
      var userId := backend.CurrentUid();
      if userId.None? {
        error := Some(LoginRequiredMessage);
        userCampsites := [];
        isLoading := false;
        return;
      }
      match result {
        case QueryFailed(e) =>
          error := Some(LoadFailedPrefix + TemplateText(e.message));
        case Snapshot(docs) =>
          var campsites := ParsedDocuments(docs);
          userCampsites := campsites;
          if campsites == [] {
            error := Some(NoneFoundMessage);
          }
      }
      isLoading := false;
    }
  }
}
