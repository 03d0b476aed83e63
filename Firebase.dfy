/**
 * The backend the view-models talk to: the authentication session and the document
 * collections, held in memory. Each backend call that can fail takes its outcome as a
 * `Step` input, so every `await` in the source is one sequential step here.
 */
module Firebase {
  import opened Wrappers
  import opened CampsiteModel

  /** The signed-in Firebase user: its uid and its (nullable) email. */
  datatype AuthUser = AuthUser(uid: string, email: Option<string>)

  /** A document of the "users" collection. */
  datatype User = User(firstname: string, lastname: string, email: string)

  /** A document of the "notifications" collection. */
  datatype Notification = Notification(
    creatorId: string,
    raterFirstName: string,
    raterLastName: string,
    campsiteName: string,
    rating: real,
    timestamp: string,
    processed: bool)

  /** The subclasses of `FirebaseAuthException` the source tells apart. */
  datatype AuthKind = InvalidCredentials | InvalidUser | UserCollision | GenericAuth

  /** An exception thrown by a backend call or by the view-model itself. */
  datatype Exception =
    | AuthException(kind: AuthKind, errorCode: string, message: Option<string>)
    | OtherException(message: Option<string>)

  /** `Exception("...")`: a plain exception with a message. */
  function Failure(message: string): Exception {
    OtherException(Some(message))
  }

  /** The outcome of one awaited backend call. */
  datatype Step = Ok | Err(e: Exception)

  /** Which callback an operation ended in: `onSuccess()` or `onFailure(e)`. */
  datatype Completion = OnSuccess | OnFailure(e: Exception)

  /** A document returned by a query: its id and its contents, None when `toObject` throws. */
  datatype Document = Document(id: string, parsed: Option<Campsite>)

  /** The campsite a well-formed document holds, carrying the document's id (`copy(id = doc.id)`). */
  function Stamped(d: Document): Campsite
    requires d.parsed.Some?
  {
    d.parsed.value.(id := d.id)
  }

  /**
   * `documents.mapNotNull { try { doc.toObject(...)?.copy(id = doc.id) } catch { null } }`:
   * the well-formed documents' campsites in order, malformed documents dropped.
   */
  function ParsedDocuments(docs: seq<Document>): (r: seq<Campsite>)
    ensures |r| <= |docs|
    ensures forall i :: 0 <= i < |docs| && docs[i].parsed.Some? ==> Stamped(docs[i]) in r
    ensures forall c :: c in r ==> exists i :: 0 <= i < |docs| && docs[i].parsed.Some? && c == Stamped(docs[i])
    ensures r == [] <==> forall i :: 0 <= i < |docs| ==> docs[i].parsed.None?
  {
    if docs == [] then []
    else
      var rest := ParsedDocuments(docs[1..]);
      assert forall i :: 1 <= i < |docs| ==> docs[i] == docs[1..][i - 1];
      if docs[0].parsed.Some? then [Stamped(docs[0])] + rest else rest
  }

  /** Parsing keeps the page order: it distributes over concatenation. */
  lemma {:induction false} ParsedDocumentsAppend(a: seq<Document>, b: seq<Document>)
    ensures ParsedDocuments(a + b) == ParsedDocuments(a) + ParsedDocuments(b)
  {
    if a == [] {
      assert a + b == b;
    } else {
      var ab := a + b;
      assert ab[0] == a[0] && ab[1..] == a[1..] + b;
      ParsedDocumentsAppend(a[1..], b);
      var tail := ParsedDocuments(a[1..]);
      var other := ParsedDocuments(b);
      if a[0].parsed.Some? {
        assert [Stamped(a[0])] + (tail + other) == ([Stamped(a[0])] + tail) + other;
      }
    }
  }

  /** The outcome of a collection query: the returned documents, or the exception. */
  datatype QueryResult = QueryFailed(e: Exception) | Snapshot(docs: seq<Document>)

  /** The backend state: the auth session and accounts, and the three collections. */
  class Backend {
    var currentUser: Option<AuthUser>
    /** Password of each auth account, keyed by uid. */
    var passwords: map<string, string>
    var users: map<string, User>
    var campsites: map<string, Campsite>
    var notifications: map<string, Notification>

    constructor ()
      ensures currentUser == None && passwords == map[] && users == map[]
      ensures campsites == map[] && notifications == map[]
    {
      currentUser := None;
      passwords := map[];
      users := map[];
      campsites := map[];
      notifications := map[];
    }

    /** `auth.currentUser?.uid`. */
    function CurrentUid(): Option<string>
      reads this
    {
      match currentUser
      case None => None
      case Some(u) => Some(u.uid)
    }
  }
}
