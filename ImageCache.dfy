/**
 * The per-campsite image cache (ImageViewModel): the decoded main bitmap of each campsite
 * (which may be recorded as absent) and the list of its other bitmaps.
 */
module ImageCache {
  import opened Wrappers
  import opened Lists
  import opened ImageData

  type MainImages = map<string, Option<Bitmap>>
  type OtherImages = map<string, seq<Bitmap>>

  /** The other bitmaps of a campsite; a missing key reads as an empty list. */
  function OthersOf(m: OtherImages, id: string): seq<Bitmap> {
    if id in m then m[id] else []
  }

  /** Appending a bitmap to the list of `id`, creating the list when the key is absent. */
  function AppendOther(m: OtherImages, id: string, b: Bitmap): (r: OtherImages)
    ensures r.Keys == m.Keys + {id}
    ensures r[id] == OthersOf(m, id) + [b] && |r[id]| == |OthersOf(m, id)| + 1
    ensures forall k :: k in m && k != id ==> r[k] == m[k]
  {
    m[id := OthersOf(m, id) + [b]]
  }

  /**
   * `removeOtherImage`: a no-op for an absent key or an index outside the list; otherwise the
   * list of `id` loses exactly its element at `index`.
   */
  function RemoveOtherAt(m: OtherImages, id: string, index: int): (r: OtherImages)
    ensures id !in m || !(0 <= index < |m[id]|) ==> r == m
    ensures id in m && 0 <= index < |m[id]| ==> r == m[id := RemoveAt(m[id], index)]
    ensures forall k :: k in m && k != id ==> k in r && r[k] == m[k]
  {
    if id in m && 0 <= index < |m[id]| then m[id := RemoveAt(m[id], index)] else m
  }

  /** Removing the bitmap just appended to a campsite's list restores that list. */
  lemma RemoveUndoesAppend(m: OtherImages, id: string, b: Bitmap)
    ensures RemoveOtherAt(AppendOther(m, id, b), id, |OthersOf(m, id)|) == m[id := OthersOf(m, id)]
  {
    RemoveAppended(OthersOf(m, id), b);
  }

  /** The state of `ImageViewModel`. */
  class ImageCacheState {
    var mainImagesBitmaps: MainImages
    var otherImagesBitmaps: OtherImages
    var capturedImageUri: Option<string>
    var isLoadingImages: bool

    constructor ()
      ensures mainImagesBitmaps == map[] && otherImagesBitmaps == map[]
      ensures capturedImageUri == None && !isLoadingImages
    {
      mainImagesBitmaps := map[];
      otherImagesBitmaps := map[];
      capturedImageUri := None;
      isLoadingImages := false;
    }

    /** The key is kept and maps to "no bitmap"; it is not deleted. */
    method RemoveMainImage(campsiteId: string)
      modifies this`mainImagesBitmaps
      ensures mainImagesBitmaps.Keys == old(mainImagesBitmaps).Keys + {campsiteId}
      ensures mainImagesBitmaps[campsiteId] == None
      ensures forall k :: k in old(mainImagesBitmaps) && k != campsiteId ==> mainImagesBitmaps[k] == old(mainImagesBitmaps)[k]
    {
      mainImagesBitmaps := mainImagesBitmaps[campsiteId := None];
    }

    /**
     * `decodeMainImageBase64`. `decode` is the Base64 and bitmap codec, applied to the cleaned
     * payload (None when it throws or yields no bitmap). A null string acts as `removeMainImage`;
     * otherwise the decoded bitmap, possibly none, is stored.
     */
    method DecodeMainImage(campsiteId: string, base64: Option<string>, decode: string -> Option<Bitmap>)
      modifies this`mainImagesBitmaps, this`isLoadingImages
      ensures base64.None? ==> mainImagesBitmaps == old(mainImagesBitmaps)[campsiteId := None]
      ensures base64.Some? ==> mainImagesBitmaps == old(mainImagesBitmaps)[campsiteId := decode(CleanPayload(base64.value))]
      ensures !isLoadingImages
    {
      isLoadingImages := true;
      if base64.Some? {
        var bitmap := decode(CleanPayload(base64.value));
        mainImagesBitmaps := mainImagesBitmaps[campsiteId := bitmap];
      } else {
        RemoveMainImage(campsiteId);
      }
      isLoadingImages := false;
    }

    /**
     * `addOtherImageUri`. `converted` is the Base64 payload of the compressed image (None when
     * the conversion fails) and `decode` the codec. Returns what is handed to `onBase64Ready`.
     * The payload reaches the codec unchanged, so its own bitmap is appended.
     */
    method AddOtherImage(campsiteId: string, converted: Option<string>, decode: string -> Option<Bitmap>)
      returns (ready: Option<string>)
      modifies this`otherImagesBitmaps, this`isLoadingImages
      requires converted.Some? ==> IsBase64Text(converted.value)
      ensures ready == if converted.Some? then Some(ToDataUrl(converted.value)) else None
      ensures converted.Some? && decode(converted.value).Some? ==>
                otherImagesBitmaps == AppendOther(old(otherImagesBitmaps), campsiteId, decode(converted.value).value)
      ensures converted.None? || decode(converted.value).None? ==> otherImagesBitmaps == old(otherImagesBitmaps)
      ensures !isLoadingImages
    {
      isLoadingImages := true;
      if converted.Some? {
        var base64 := ToDataUrl(converted.value);
        var decoded := decode(CleanPayload(base64));
        CleanPayloadRoundTrip(converted.value);
        if decoded.Some? {
          var currentList := if campsiteId in otherImagesBitmaps then otherImagesBitmaps[campsiteId] else [];
          currentList := currentList + [decoded.value];
          otherImagesBitmaps := otherImagesBitmaps[campsiteId := currentList];
        }
        ready := Some(base64);
      } else {
        ready := None;
      }
      isLoadingImages := false;
    }

    method RemoveOtherImage(campsiteId: string, index: int)
      modifies this`otherImagesBitmaps
      ensures otherImagesBitmaps == RemoveOtherAt(old(otherImagesBitmaps), campsiteId, index)
    {
      if campsiteId !in otherImagesBitmaps {
        return;
      }
      var currentBitmaps := otherImagesBitmaps[campsiteId];
      if 0 <= index < |currentBitmaps| {
        currentBitmaps := RemoveAt(currentBitmaps, index);
        otherImagesBitmaps := otherImagesBitmaps[campsiteId := currentBitmaps];
      }
    }

    method SetOtherImages(campsiteId: string, bitmaps: seq<Bitmap>)
      modifies this`otherImagesBitmaps
      ensures otherImagesBitmaps.Keys == old(otherImagesBitmaps).Keys + {campsiteId}
      ensures otherImagesBitmaps[campsiteId] == bitmaps
      ensures forall k :: k in old(otherImagesBitmaps) && k != campsiteId ==> otherImagesBitmaps[k] == old(otherImagesBitmaps)[k]
    {
      otherImagesBitmaps := otherImagesBitmaps[campsiteId := bitmaps];
    }

    method ClearImagesForCampsite(campsiteId: string)
      modifies this`mainImagesBitmaps, this`otherImagesBitmaps
      ensures mainImagesBitmaps.Keys == old(mainImagesBitmaps).Keys - {campsiteId}
      ensures otherImagesBitmaps.Keys == old(otherImagesBitmaps).Keys - {campsiteId}
      ensures forall k :: k in mainImagesBitmaps ==> mainImagesBitmaps[k] == old(mainImagesBitmaps)[k]
      ensures forall k :: k in otherImagesBitmaps ==> otherImagesBitmaps[k] == old(otherImagesBitmaps)[k]
    {
      mainImagesBitmaps := mainImagesBitmaps - {campsiteId};
      otherImagesBitmaps := otherImagesBitmaps - {campsiteId};
    }

    method ClearAllImages()
      modifies this`mainImagesBitmaps, this`otherImagesBitmaps, this`capturedImageUri
      ensures mainImagesBitmaps == map[] && otherImagesBitmaps == map[] && capturedImageUri == None
    {
      mainImagesBitmaps := map[];
      otherImagesBitmaps := map[];
      capturedImageUri := None;
    }
  }
}
