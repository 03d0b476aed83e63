/**
 * The campsite creation form (CreateCampsiteViewModel): field setters, coordinate selection,
 * the additional-image lists, the document-size estimate and submit-time validation.
 */
module CreateCampsite {
  import opened Wrappers
  import opened Text
  import opened Lists
  import opened CampsiteModel
  import opened Resources
  import opened Firebase
  import opened ImageData

  /** Above this estimate a campsite is not written. */
  const MaxDocumentSize: nat := 1_000_000

  /** The fixed allowance of the estimate, 13 * 16. */
  const FieldOverhead: nat := 13 * 16

  /** Sum of the `length`s (UTF-16 code units), accumulated from the first string to the last (`sumOf`). */
  function SumLengths(s: seq<string>): nat {
    if s == [] then 0 else SumLengths(s[..|s| - 1]) + Utf16Length(s[|s| - 1])
  }

  /** `s?.length ?: 0`. */
  function OptionalLength(s: Option<string>): nat {
    if s.Some? then Utf16Length(s.value) else 0
  }

  function CoordinateSize(x: Option<real>): nat {
    if x.Some? then 8 else 0
  }

  /**
   * The estimate of `estimateDocumentSize`: two units per UTF-16 code unit of every string
   * field, eight per present coordinate, the length of every image string, 32 per rating, one
   * if available, and the fixed overhead.
   */
  function DocumentSize(c: Campsite): (n: nat)
    ensures n >= FieldOverhead
  {
    2 * Utf16Length(c.id) + 2 * Utf16Length(c.creatorId) + 2 * Utf16Length(c.name)
    + 2 * Utf16Length(c.location) + 2 * Utf16Length(c.price) + 2 * Utf16Length(c.description)
    + CoordinateSize(c.latitude) + CoordinateSize(c.longitude)
    + OptionalLength(c.mainImageBase64) + SumLengths(c.imageBase64s)
    + 32 * |c.ratings| + (if c.availability then 1 else 0)
    + 2 * Utf16Length(c.category) + FieldOverhead
  }

  /** `imageBase64s.sumOf { it.length }`, accumulated from the first string to the last. */
  method SumImageLengths(images: seq<string>) returns (total: nat)
    ensures total == SumLengths(images)
  {
    total := 0;
    var i := 0;
    while i < |images|
      invariant 0 <= i <= |images|
      invariant total == SumLengths(images[..i])
    {
      assert images[..i + 1][..i] == images[..i];
      total := total + Utf16Length(images[i]);
      i := i + 1;
    }
    assert images[..i] == images;
  }

  /** `estimateDocumentSize`: the running total of the source. */
  method EstimateDocumentSize(c: Campsite) returns (size: nat)
    ensures size == DocumentSize(c)
  {
    size := 0;
    size := size + Utf16Length(c.id) * 2;
    size := size + Utf16Length(c.creatorId) * 2;
    size := size + Utf16Length(c.name) * 2;
    size := size + Utf16Length(c.location) * 2;
    size := size + Utf16Length(c.price) * 2;
    size := size + Utf16Length(c.description) * 2;
    size := size + CoordinateSize(c.latitude);
    size := size + CoordinateSize(c.longitude);
    size := size + OptionalLength(c.mainImageBase64);
    var total := SumImageLengths(c.imageBase64s);
    size := size + total;
    size := size + |c.ratings| * 32;
    size := size + if c.availability then 1 else 0;
    size := size + Utf16Length(c.category) * 2;
    size := size + 13 * 16;
  }

  /** Appending an image string grows the estimate by exactly its length. */
  lemma AppendImageGrowsSize(c: Campsite, image: string)
    ensures DocumentSize(c.(imageBase64s := c.imageBase64s + [image])) == DocumentSize(c) + Utf16Length(image)
  {
    var s := c.imageBase64s + [image];
    assert s[..|s| - 1] == c.imageBase64s;
  }

  lemma {:induction false} SumLengthsMonotone(s: seq<string>, t: seq<string>)
    requires |s| == |t|
    requires forall i :: 0 <= i < |s| ==> Utf16Length(s[i]) <= Utf16Length(t[i])
    ensures SumLengths(s) <= SumLengths(t)
  {
    if s != [] {
      SumLengthsMonotone(s[..|s| - 1], t[..|t| - 1]);
    }
  }

  /** The estimate is monotone in the length of every image string. */
  lemma SizeMonotoneInImageLength(c: Campsite, main: Option<string>, images: seq<string>)
    requires OptionalLength(c.mainImageBase64) <= OptionalLength(main)
    requires |c.imageBase64s| == |images|
    requires forall i :: 0 <= i < |images| ==> Utf16Length(c.imageBase64s[i]) <= Utf16Length(images[i])
    ensures DocumentSize(c) <= DocumentSize(c.(mainImageBase64 := main, imageBase64s := images))
  {
    SumLengthsMonotone(c.imageBase64s, images);
  }

  /** The validation of `addCampsite`: a required input is missing. */
  predicate MissingRequired(form: Campsite, mainImage: Option<string>) {
    IsBlank(form.name) || IsBlank(form.location) || form.latitude.None? || mainImage.None?
  }

  /** The form a fresh view-model starts from fails validation. */
  lemma DefaultFormIsIncomplete(mainImage: Option<string>)
    ensures MissingRequired(DefaultCampsite(), mainImage)
  {
    assert IsBlank(DefaultCampsite().name);
  }

  /** The submit button of the creation screen (CreateCampsiteScreen.kt:178). */
  predicate SubmitEnabled(isLoading: bool, form: Campsite, mainImage: Option<string>) {
    !isLoading && !IsBlank(form.name) && !IsBlank(form.location) && mainImage.Some?
  }

  /** Once the button is enabled, only a missing map position can still fail validation. */
  lemma EnabledSubmitFailsOnlyWithoutPosition(isLoading: bool, form: Campsite, mainImage: Option<string>)
    requires SubmitEnabled(isLoading, form, mainImage)
    ensures MissingRequired(form, mainImage) <==> form.latitude.None?
  {
  }

  /** The document `addCampsite` writes: the form, with the new id, the creator, the images and no ratings. */
  function StoredCampsite(form: Campsite, id: string, uid: string, main: string, images: seq<string>): (c: Campsite)
    ensures c.id == id && c.creatorId == uid && c.ratings == map[]
    ensures c.mainImageBase64 == Some(main) && c.imageBase64s == images
    ensures c.(id := form.id, creatorId := form.creatorId, mainImageBase64 := form.mainImageBase64,
               imageBase64s := form.imageBase64s, ratings := form.ratings) == form
  {
    form.(id := id, creatorId := uid, mainImageBase64 := Some(main), imageBase64s := images, ratings := map[])
  }

  /** How a submission ends. */
  datatype Submission =
    | Incomplete
    | NotSignedIn
    | TooLarge(size: nat)
    | WriteFailed(e: Exception)
    | Written(stored: Campsite)

  /**
   * `addCampsite` as a function of its inputs: the form, the images the screen passes, the
   * signed-in uid, the id the backend generates and the outcome of the write.
   */
  function Submit(form: Campsite, main: Option<string>, images: seq<string>, uid: Option<string>,
                  newId: string, write: Step): (r: Submission)
    ensures r.Incomplete? <==> MissingRequired(form, main)
    ensures r.NotSignedIn? <==> !MissingRequired(form, main) && uid.None?
    ensures r.TooLarge? ==> r.size > MaxDocumentSize
    ensures r.Written? ==> write.Ok? && uid.Some? && main.Some?
    ensures r.Written? ==> r.stored == StoredCampsite(form, newId, uid.value, main.value, images)
    ensures r.Written? ==> DocumentSize(r.stored) <= MaxDocumentSize
    ensures !MissingRequired(form, main) && uid.Some? ==>
              var c := StoredCampsite(form, newId, uid.value, main.value, images);
              && (DocumentSize(c) > MaxDocumentSize ==> r == TooLarge(DocumentSize(c)))
              && (DocumentSize(c) <= MaxDocumentSize ==> r == (if write.Ok? then Written(c) else WriteFailed(write.e)))
  {
    if MissingRequired(form, main) then Incomplete
    else if uid.None? then NotSignedIn
    else
      var stored := StoredCampsite(form, newId, uid.value, main.value, images);
      var size := DocumentSize(stored);
      if size > MaxDocumentSize then TooLarge(size)
      else if write.Err? then WriteFailed(write.e)
      else Written(stored)
  }

  /** Every written campsite has a name, a location, a position and a main image, and no ratings. */
  lemma WrittenCampsiteIsComplete(form: Campsite, main: Option<string>, images: seq<string>,
                                  uid: Option<string>, newId: string, write: Step)
    requires Submit(form, main, images, uid, newId, write).Written?
    ensures var c := Submit(form, main, images, uid, newId, write).stored;
            !MissingRequired(c, c.mainImageBase64) && c.ratings == map[] && c.creatorId == uid.value
  {
  }

  /** A form whose estimate is over the limit is never written, whatever the write would do. */
  lemma OversizedIsNeverWritten(form: Campsite, main: string, images: seq<string>, uid: string,
                                newId: string, write: Step)
    requires !MissingRequired(form, Some(main))
    requires DocumentSize(StoredCampsite(form, newId, uid, main, images)) > MaxDocumentSize
    ensures Submit(form, Some(main), images, Some(uid), newId, write).TooLarge?
  {
  }

  /** `_error.value = e.message`. */
  function ExceptionText(e: Exception): Option<Message> {
    if e.message.Some? then Some(Text(e.message.value)) else None
  }

  /** The additional images of the form and their decoded bitmaps. */
  datatype ImageLists = ImageLists(base64s: seq<string>, bitmaps: seq<Bitmap>)

  /**
   * `removeOtherImage`: drops the first occurrence of `target` from the strings and the bitmap
   * at the same index when there is one; nothing changes when `target` is absent.
   */
  function RemoveImage(l: ImageLists, target: string): (r: ImageLists)
    ensures target !in l.base64s ==> r == l
    ensures target in l.base64s ==>
              var k := IndexOfElement(l.base64s, target).value;
              && r.base64s == RemoveAt(l.base64s, k)
              && r.bitmaps == (if k < |l.bitmaps| then RemoveAt(l.bitmaps, k) else l.bitmaps)
  {
    match IndexOfElement(l.base64s, target)
    case None => l
    case Some(k) =>
      var bitmaps := if k < |l.bitmaps| then RemoveAt(l.bitmaps, k) else l.bitmaps;
      ImageLists(RemoveAt(l.base64s, k), bitmaps)
  }

  /** Lists in step (one bitmap per string) stay in step, and lose the entries at the same index. */
  lemma RemoveImageKeepsListsInStep(l: ImageLists, target: string)
    requires |l.base64s| == |l.bitmaps|
    requires target in l.base64s
    ensures var r := RemoveImage(l, target);
            var k := IndexOfElement(l.base64s, target).value;
            |r.base64s| == |r.bitmaps| && r.base64s == RemoveAt(l.base64s, k) && r.bitmaps == RemoveAt(l.bitmaps, k)
  {
  }

  /**
   * `addOtherImageUri`: `converted` is the Base64 payload of the compressed image (None when the
   * conversion fails) and `decode` the codec, applied to the stripped data URL. The data URL is
   * appended, and the payload's own bitmap when it decodes.
   */
  function AddImage(l: ImageLists, converted: Option<string>, decode: string -> Option<Bitmap>): (r: ImageLists)
    ensures converted.None? ==> r == l
    ensures converted.Some? ==> r.base64s == l.base64s + [ToDataUrl(converted.value)]
    ensures converted.Some? && decode(converted.value).Some? ==> r.bitmaps == l.bitmaps + [decode(converted.value).value]
    ensures converted.Some? && decode(converted.value).None? ==> r.bitmaps == l.bitmaps
  {
    if converted.None? then l
    else
      var dataUrl := ToDataUrl(converted.value);
      var decoded := decode(StripDataUrl(dataUrl));
      DataUrlRoundTrip(converted.value);
      ImageLists(l.base64s + [dataUrl], if decoded.Some? then l.bitmaps + [decoded.value] else l.bitmaps)
  }

  /** Removing a freshly added image undoes the addition when the lists were in step. */
  lemma RemoveUndoesAdd(l: ImageLists, payload: string, decode: string -> Option<Bitmap>)
    requires |l.base64s| == |l.bitmaps|
    requires ToDataUrl(payload) !in l.base64s
    requires decode(payload).Some?
    ensures RemoveImage(AddImage(l, Some(payload), decode), ToDataUrl(payload)) == l
  {
    var bitmap := decode(payload).value;
    var added := AddImage(l, Some(payload), decode);
    assert added.base64s == l.base64s + [ToDataUrl(payload)] && added.bitmaps == l.bitmaps + [bitmap];
    var k := IndexOfElement(added.base64s, ToDataUrl(payload));
    assert added.base64s[|l.base64s|] == ToDataUrl(payload);
    assert k == Some(|l.base64s|);
    RemoveAppended(l.base64s, ToDataUrl(payload));
    RemoveAppended(l.bitmaps, bitmap);
  }

  /** The state of `CreateCampsiteViewModel`. */
  class CreateCampsiteForm {
    var campsite: Campsite
    var isLoading: bool
    var error: Option<Message>
    var locationError: Option<string>
    var currentLocation: Option<Coord>
    var otherImagesBitmaps: seq<Bitmap>

    constructor ()
      ensures campsite == DefaultCampsite() && !isLoading && error == None
      ensures locationError == None && currentLocation == None && otherImagesBitmaps == []
    {
      campsite := DefaultCampsite();
      isLoading := false;
      error := None;
      locationError := None;
      currentLocation := None;
      otherImagesBitmaps := [];
    }

    method UpdateName(name: string)
      modifies this`campsite
      ensures campsite == old(campsite).(name := name)
    {
      campsite := campsite.(name := name);
    }

    method UpdateLocation(location: string)
      modifies this`campsite
      ensures campsite == old(campsite).(location := location)
    {
      campsite := campsite.(location := location);
    }

    method UpdatePrice(price: string)
      modifies this`campsite
      ensures campsite == old(campsite).(price := price)
    {
      campsite := campsite.(price := price);
    }

    method UpdateDescription(description: string)
      modifies this`campsite
      ensures campsite == old(campsite).(description := description)
    {
      campsite := campsite.(description := description);
    }

    method UpdateAvailability(available: bool)
      modifies this`campsite
      ensures campsite == old(campsite).(availability := available)
    {
      campsite := campsite.(availability := available);
    }

    method UpdateType(category: string)
      modifies this`campsite
      ensures campsite == old(campsite).(category := category)
    {
      campsite := campsite.(category := category);
    }

    /** Both coordinates come from one point; no point clears both. */
    method UpdateSelectedLatLng(latLng: Option<Coord>)
      modifies this`campsite
      ensures campsite.latitude.Some? <==> latLng.Some?
      ensures campsite.longitude.Some? <==> latLng.Some?
      ensures latLng.Some? ==> campsite.latitude.value == latLng.value.lat && campsite.longitude.value == latLng.value.lon
      ensures campsite.(latitude := old(campsite).latitude, longitude := old(campsite).longitude) == old(campsite)
    {
      campsite := campsite.(
        latitude := if latLng.Some? then Some(latLng.value.lat) else None,
        longitude := if latLng.Some? then Some(latLng.value.lon) else None);
    }

    /** A device fix becomes the selected position only while none has been chosen. */
    method UpdateCurrentLocation(latLng: Coord)
      modifies this`campsite, this`currentLocation, this`locationError
      ensures currentLocation == Some(latLng) && locationError == None
      ensures old(campsite).latitude.None? ==>
                campsite == old(campsite).(latitude := Some(latLng.lat), longitude := Some(latLng.lon))
      ensures old(campsite).latitude.Some? ==> campsite == old(campsite)
    {
      currentLocation := Some(latLng);
      if campsite.latitude.None? {
        UpdateSelectedLatLng(Some(latLng));
      }
      locationError := None;
    }

    /** `addOtherImageUri`, with the conversion and the codec as inputs. */
    method AddOtherImage(converted: Option<string>, decode: string -> Option<Bitmap>)
      modifies this`campsite, this`otherImagesBitmaps
      ensures var r := AddImage(ImageLists(old(campsite).imageBase64s, old(otherImagesBitmaps)), converted, decode);
              campsite == old(campsite).(imageBase64s := r.base64s) && otherImagesBitmaps == r.bitmaps
    {
      if converted.Some? {
        var base64String := ToDataUrl(converted.value);
        campsite := campsite.(imageBase64s := campsite.imageBase64s + [base64String]);
        var decoded := decode(StripDataUrl(base64String));
        if decoded.Some? {
          otherImagesBitmaps := otherImagesBitmaps + [decoded.value];
        }
      }
    }

    method RemoveOtherImage(target: string)
      modifies this`campsite, this`otherImagesBitmaps
      ensures var r := RemoveImage(ImageLists(old(campsite).imageBase64s, old(otherImagesBitmaps)), target);
              campsite == old(campsite).(imageBase64s := r.base64s) && otherImagesBitmaps == r.bitmaps
    {
      var current := campsite.imageBase64s;
      var index := IndexOfElement(current, target);
      if index.None? {
        return;
      }
      var k := index.value;
      campsite := campsite.(imageBase64s := RemoveAt(current, k));
      if k < |otherImagesBitmaps| {
        otherImagesBitmaps := RemoveAt(otherImagesBitmaps, k);
      }
    }

    /**
     * `addCampsite`: validates the form, then (as one sequential step per `await`) reads the
     * signed-in user, builds the document, checks its size and writes it. Returns the callback
     * that ran, None when neither did.
     */
    method AddCampsite(backend: Backend, mainImageBase64: Option<string>, imageBase64s: seq<string>,
                       newId: string, write: Step) returns (result: Option<Completion>)
      modifies this`campsite, this`isLoading, this`error, backend`campsites
      ensures var s := Submit(old(campsite), mainImageBase64, imageBase64s, old(backend.CurrentUid()), newId, write);
        && (s.Incomplete? ==> result == None && error == Some(Resource(ErrorEmptyFields))
                              && isLoading == old(isLoading))
        && (s.NotSignedIn? ==> result == Some(OnFailure(Failure("User not logged in")))
                               && error == Some(Text("User not logged in")) && !isLoading)
        && (s.TooLarge? ==> result == None && error == Some(Resource(DocumentTooLarge)) && !isLoading)
        && (s.WriteFailed? ==> result == Some(OnFailure(s.e)) && error == ExceptionText(s.e) && !isLoading)
        && (s.Written? ==> result == Some(OnSuccess) && error == None && !isLoading
                           && backend.campsites == old(backend.campsites)[newId := s.stored]
                           && campsite == DefaultCampsite())
        && (!s.Written? ==> backend.campsites == old(backend.campsites) && campsite == old(campsite))
    {
      var form := campsite;
      ghost var s := Submit(form, mainImageBase64, imageBase64s, backend.CurrentUid(), newId, write);
      if IsBlank(form.name) || IsBlank(form.location) || form.latitude.None? || mainImageBase64.None? {
        assert s.Incomplete?;
        error := Some(Resource(ErrorEmptyFields));
        return None;
      }
      isLoading := true;
      error := None;
      var uid := backend.CurrentUid();
      if uid.None? {
        assert s.NotSignedIn?;
        var e := Failure("User not logged in");
        isLoading := false;
        error := ExceptionText(e);
        return Some(OnFailure(e));
      }
      var stored := form.(id := newId, creatorId := uid.value, mainImageBase64 := mainImageBase64,
                          imageBase64s := imageBase64s, ratings := map[]);
      assert stored == StoredCampsite(form, newId, uid.value, mainImageBase64.value, imageBase64s);
      var estimatedSize := EstimateDocumentSize(stored);
      if estimatedSize > 1_000_000 {
        assert s.TooLarge?;
        isLoading := false;
        error := Some(Resource(DocumentTooLarge));
        return None;
      }
      if write.Err? {
        assert s == WriteFailed(write.e);
        isLoading := false;
        error := ExceptionText(write.e);
        return Some(OnFailure(write.e));
      }
      assert s == Written(stored);
      backend.campsites := backend.campsites[newId := stored];
      isLoading := false;
      campsite := DefaultCampsite();
      return Some(OnSuccess);
    }
  }
}
