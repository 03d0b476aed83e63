/**
 * How images are stored in a campsite: a data URL (section 3 of RFC 2397) around a Base64
 * payload (section 4 of RFC 4648). The encoder adds the prefix; the decoders strip everything
 * up to the first "base64," marker. Bitmaps and the Base64 codec are opaque here.
 */
module ImageData {
  import opened Wrappers
  import opened Text

  /** A decoded bitmap, an opaque handle. */
  datatype Bitmap = Bitmap(handle: nat)

  const Marker: string := "base64,"
  const DataUrlPrefix: string := "data:image/jpeg;" + Marker

  /** The string `compressAndConvertToBase64` returns for a payload. */
  function ToDataUrl(payload: string): string {
    DataUrlPrefix + payload
  }

  /** `s.substringAfter("base64,", s)`: the payload the decoders hand to the Base64 codec. */
  function StripDataUrl(s: string): string {
    SubstringAfter(s, Marker, s)
  }

  /** The image view-model also trims the stripped payload. */
  function CleanPayload(s: string): string {
    Trim(StripDataUrl(s))
  }

  /** The characters of the standard Base64 alphabet, with the padding character. */
  predicate IsBase64Char(c: char) {
    ('A' <= c <= 'Z') || ('a' <= c <= 'z') || ('0' <= c <= '9') || c == '+' || c == '/' || c == '='
  }

  predicate IsBase64Text(p: string) {
    forall i :: 0 <= i < |p| ==> IsBase64Char(p[i])
  }

  /** The marker first occurs right after "data:image/jpeg;", whatever the payload. */
  lemma MarkerPosition(p: string)
    ensures IndexOf(ToDataUrl(p), Marker) == Some(|DataUrlPrefix| - |Marker|)
  {
    var s := ToDataUrl(p);
    var k := |DataUrlPrefix| - |Marker|;
    assert OccursAt(s, Marker, k);
    assert DataUrlPrefix[..k] == "data:image/jpeg;";
    forall j | 0 <= j < k
      ensures !OccursAt(s, Marker, j)
    {
      assert s[j] == DataUrlPrefix[..k][j];
      assert 'b' !in "data:image/jpeg;";
    }
  }

  /** Round trip: stripping the data URL of a payload gives the payload back. */
  lemma DataUrlRoundTrip(p: string)
    ensures StripDataUrl(ToDataUrl(p)) == p
  {
    MarkerPosition(p);
    assert ToDataUrl(p)[|DataUrlPrefix|..] == p;
  }

  /** A string without the marker is handed to the codec unchanged. */
  lemma StripWithoutMarker(s: string)
    requires forall k :: !OccursAt(s, Marker, k)
    ensures StripDataUrl(s) == s
  {
    SubstringAfterFirst(s, Marker, s);
  }

  /** Round trip through the image view-model's decoder, which also trims. */
  lemma CleanPayloadRoundTrip(p: string)
    requires IsBase64Text(p)
    ensures CleanPayload(ToDataUrl(p)) == p
  {
    DataUrlRoundTrip(p);
    if p != [] {
      assert IsBase64Char(p[0]) && IsBase64Char(p[|p| - 1]);
    }
    TrimUnpadded(p);
  }
}
