/**
 * The campsite listing (AllCampsitesViewModel): the client-side filter applied to every
 * fetched page, and the cursor pagination that appends filtered pages while the cursor
 * follows the unfiltered page.
 */
module Listing {
  import opened Wrappers
  import opened Text
  import opened CampsiteModel
  import opened Firebase

  /** Documents requested per page (`limit(pageSize)`). */
  const PageSize: nat := 10

  /** `Float.MAX_VALUE`, the default upper price bound. */
  const FloatMax: real := 340282346638528859811704183484516925440.0

  /** The arguments of `fetchAllCampsites` that select campsites; `category` is the type. */
  datatype Filter = Filter(
    searchQuery: string,
    minPrice: real,
    maxPrice: real,
    showAvailableOnly: bool,
    category: Option<string>)

  /** The default arguments: every campsite with a price in [0, Float.MAX_VALUE]. */
  function DefaultFilter(): Filter {
    Filter("", 0.0, FloatMax, false, None)
  }

  /** The type chip of the listing screen: "Svi" ("all") imposes no type. */
  function ChipCategory(selectedType: string): (r: Option<string>)
    ensures r.None? <==> selectedType == "Svi"
    ensures r.Some? ==> r.value == selectedType
  {
    if selectedType == "Svi" then None else Some(selectedType)
  }

  /** The price used by the filter: `toFloatOrNull() ?: 0f`, with the parser as a parameter. */
  function PriceOf(c: Campsite, parsePrice: string -> Option<real>): real {
    parsePrice(c.price).GetOr(0.0)
  }

  /** The filter lambda of `fetchAllCampsites`. */
  predicate Matches(c: Campsite, f: Filter, parsePrice: string -> Option<real>) {
    var matchesSearch := ContainsIgnoringCase(c.name, f.searchQuery) || ContainsIgnoringCase(c.location, f.searchQuery);
    var price := PriceOf(c, parsePrice);
    var matchesPrice := f.minPrice <= price <= f.maxPrice;
    var matchesAvailability := !f.showAvailableOnly || c.availability;
    var matchesType := f.category.None? || c.category == f.category.value;
    matchesSearch && matchesPrice && matchesAvailability && matchesType
  }

  /** The search ignores case: two queries that fold to the same letters select the same campsites. */
  lemma SearchIgnoresCase(c: Campsite, f: Filter, q: string, parsePrice: string -> Option<real>)
    requires |q| == |f.searchQuery|
    requires forall j :: 0 <= j < |q| ==> FoldCase(q[j]) == FoldCase(f.searchQuery[j])
    ensures Matches(c, f, parsePrice) == Matches(c, f.(searchQuery := q), parsePrice)
  {
    ContainsSameFolding(c.name, f.searchQuery, q);
    ContainsSameFolding(c.location, f.searchQuery, q);
  }

  /** A price that does not parse is filtered exactly as the price "0" is. */
  lemma UnparseablePriceIsZero(c: Campsite, f: Filter, parsePrice: string -> Option<real>, zero: string)
    requires parsePrice(c.price).None?
    requires parsePrice(zero) == Some(0.0)
    ensures Matches(c, f, parsePrice) == Matches(c.(price := zero), f, parsePrice)
  {
  }

  /** With the default arguments a campsite is listed iff its price lies in [0, Float.MAX_VALUE]. */
  lemma DefaultFilterChecksOnlyPrice(c: Campsite, parsePrice: string -> Option<real>)
    ensures Matches(c, DefaultFilter(), parsePrice) <==> 0.0 <= PriceOf(c, parsePrice) <= FloatMax
  {
    EmptyQueryContained(c.name);
  }

  /** `showAvailableOnly = false` and a null type impose nothing: dropping them keeps every match. */
  lemma RelaxingKeepsMatches(c: Campsite, f: Filter, parsePrice: string -> Option<real>)
    requires Matches(c, f, parsePrice)
    ensures Matches(c, f.(showAvailableOnly := false, category := None), parsePrice)
    ensures f.showAvailableOnly ==> c.availability
    ensures f.category.Some? ==> c.category == f.category.value
  {
  }

  /** The `filter` call over a page: the matching campsites, in page order. */
  function ApplyFilter(cs: seq<Campsite>, f: Filter, parsePrice: string -> Option<real>): (r: seq<Campsite>)
    ensures |r| <= |cs|
    ensures forall c :: c in r <==> c in cs && Matches(c, f, parsePrice)
    ensures multiset(r) <= multiset(cs)
  {
    if cs == [] then []
    else
      var rest := ApplyFilter(cs[1..], f, parsePrice);
      assert cs == [cs[0]] + cs[1..];
      if Matches(cs[0], f, parsePrice) then [cs[0]] + rest else rest
  }

  /** Filtering page by page is filtering the concatenated pages. */
  lemma {:induction false} ApplyFilterAppend(a: seq<Campsite>, b: seq<Campsite>, f: Filter, parsePrice: string -> Option<real>)
    ensures ApplyFilter(a + b, f, parsePrice) == ApplyFilter(a, f, parsePrice) + ApplyFilter(b, f, parsePrice)
  {
    if a == [] {
      assert a + b == b;
    } else {
      var ab := a + b;
      assert ab[0] == a[0] && ab[1..] == a[1..] + b;
      ApplyFilterAppend(a[1..], b, f, parsePrice);
      var tail := ApplyFilter(a[1..], f, parsePrice);
      var other := ApplyFilter(b, f, parsePrice);
      if Matches(a[0], f, parsePrice) {
        assert [a[0]] + (tail + other) == ([a[0]] + tail) + other;
      }
    }
  }

  /**
   * `documents.mapNotNull { doc.toObject(...)?.copy(id = doc.id) }` where `toObject` throws on
   * a malformed document: None when any document is malformed (the fetch then fails), else
   * every campsite carrying its document's id.
   */
  function ParseAll(docs: seq<Document>): (r: Option<seq<Campsite>>)
    ensures r.Some? <==> forall i :: 0 <= i < |docs| ==> docs[i].parsed.Some?
    ensures r.Some? ==> |r.value| == |docs|
    ensures r.Some? ==> forall i :: 0 <= i < |docs| ==> r.value[i] == Stamped(docs[i])
  {
    if docs == [] then Some([])
    else
      var rest := ParseAll(docs[1..]);
      if docs[0].parsed.None? then None
      else if rest.None? then
        assert exists i :: 0 <= i < |docs| && docs[i].parsed.None? by {
          var j :| 0 <= j < |docs[1..]| && docs[1..][j].parsed.None?;
          assert docs[j + 1].parsed.None?;
        }
        None
      else Some([Stamped(docs[0])] + rest.value)
  }

  /** When every document is well formed, the listing and the archive parse a page alike. */
  lemma {:induction false} ParseAllAgreesWithParsedDocuments(docs: seq<Document>)
    requires ParseAll(docs).Some?
    ensures ParseAll(docs).value == ParsedDocuments(docs)
  {
    if docs != [] {
      assert ParseAll(docs[1..]).Some?;
      ParseAllAgreesWithParsedDocuments(docs[1..]);
    }
  }

  /** `documents.lastOrNull()?.id`: the id of the last document of the page, filtered or not. */
  function LastId(docs: seq<Document>): (r: Option<string>)
    ensures r.None? <==> docs == []
    ensures r.Some? ==> r.value == docs[|docs| - 1].id
  {
    if docs == [] then None else Some(docs[|docs| - 1].id)
  }

  const FetchAllError: string := "Failed to load campsites. Please try again."
  const FetchUserError: string := "Failed to load your campsites. Please try again."

  /** The state of `AllCampsitesViewModel`. */
  class CampsiteListing {
    var campsites: seq<Campsite>
    var userCampsites: seq<Campsite>
    var errorMessage: Option<string>
    var lastVisibleCampsite: Option<string>
    var lastVisibleUserCampsite: Option<string>

    constructor ()
      ensures campsites == [] && userCampsites == [] && errorMessage == None
      ensures lastVisibleCampsite == None && lastVisibleUserCampsite == None
    {
      campsites := [];
      userCampsites := [];
      errorMessage := None;
      lastVisibleCampsite := None;
      lastVisibleUserCampsite := None;
    }

    /**
     * `fetchAllCampsites`. `page` is the outcome of the page query issued after the cursor;
     * the query is limited to `PageSize` documents.
     */
    method FetchAllCampsites(f: Filter, reset: bool, parsePrice: string -> Option<real>, page: QueryResult)
      requires page.Snapshot? ==> |page.docs| <= PageSize
      modifies this`campsites, this`errorMessage, this`lastVisibleCampsite
      ensures var before := if reset then [] else old(campsites);
              var parsed := if page.Snapshot? then ParseAll(page.docs) else None;
              if parsed.Some? then
                && campsites == before + ApplyFilter(parsed.value, f, parsePrice)
                && lastVisibleCampsite == LastId(page.docs)
                && errorMessage == None
              else
                && campsites == before
                && lastVisibleCampsite == (if reset then None else old(lastVisibleCampsite))
                && errorMessage == Some(FetchAllError)
      ensures |old(campsites)| <= |campsites| + (if reset then |old(campsites)| else 0)
      ensures |campsites| <= (if reset then 0 else |old(campsites)|) + PageSize
    {
      if reset {
        lastVisibleCampsite := None;
        campsites := [];
      }
      var parsed := if page.Snapshot? then ParseAll(page.docs) else None;
      if parsed.None? {
        errorMessage := Some(FetchAllError);
        return;
      }
      var campsiteList := ApplyFilter(parsed.value, f, parsePrice);
      lastVisibleCampsite := LastId(page.docs);
      campsites := campsites + campsiteList;
      errorMessage := None;
    }

    /**
     * `fetchUserCampsites`: without a signed-in user it returns before touching any state;
     * otherwise `page` is the outcome of the query for the user's campsites.
     */
    method FetchUserCampsites(backend: Backend, reset: bool, page: QueryResult)
      requires page.Snapshot? ==> |page.docs| <= PageSize
      modifies this`userCampsites, this`errorMessage, this`lastVisibleUserCampsite
      ensures backend.CurrentUid().None? ==>
                userCampsites == old(userCampsites) && errorMessage == old(errorMessage)
                && lastVisibleUserCampsite == old(lastVisibleUserCampsite)
      ensures backend.CurrentUid().Some? ==>
                var before := if reset then [] else old(userCampsites);
                var parsed := if page.Snapshot? then ParseAll(page.docs) else None;
                if parsed.Some? then
                  && userCampsites == before + parsed.value
                  && lastVisibleUserCampsite == LastId(page.docs)
                  && errorMessage == None
                else
                  && userCampsites == before
                  && lastVisibleUserCampsite == (if reset then None else old(lastVisibleUserCampsite))
                  && errorMessage == Some(FetchUserError)
    {
      var userId := backend.CurrentUid();
      if userId.None? {
        return;
      }
      if reset {
        lastVisibleUserCampsite := None;
        userCampsites := [];
      }
      var parsed := if page.Snapshot? then ParseAll(page.docs) else None;
      if parsed.None? {
        errorMessage := Some(FetchUserError);
        return;
      }
      lastVisibleUserCampsite := LastId(page.docs);
      userCampsites := userCampsites + parsed.value;
      errorMessage := None;
    }

    method ClearErrorMessage()
      modifies this`errorMessage
      ensures errorMessage == None
    {
      errorMessage := None;
    }
  }
}
