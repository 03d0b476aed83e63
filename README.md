# CampMate view-model core in Dafny

CampMate is an Android client for sharing campsites. Users register and sign in, create
campsites with photos and a map position, browse and filter them page by page, rate them, and
find the nearest one. The Firebase services (Auth and Firestore) hold all persistent data. This project models
the rules the app's view-models apply around those services, and proves properties of them:

- the `Campsite` and `LocationState` records and their defaults;
- the campsite creation form: field setters, coordinate selection, the additional-image lists
  (kept in step with their bitmaps), the integer document-size estimate with its limit of
  1,000,000, and submit-time validation;
- the data-URL wrapping of Base64 images (section 3 of RFC 2397 around section 4 of RFC 4648)
  and the string round trip it gives;
- the per-campsite image cache (main bitmap and other bitmaps, keyed by campsite id);
- the listing: the client-side filter and the cursor pagination that appends filtered pages
  while the cursor follows the unfiltered page;
- registration, login and logout checks in their order, and the exception-to-message mapping;
- the profile: fetch with fallback, name update, password change, and the profile screen's
  password-change click with its inline error flags;
- ratings (one key of a ratings map, last write wins), creator-only deletion, and the
  notification queued for the creator;
- the notification relay: a de-duplicating insert and a guarded pass that marks one user's
  pending records processed;
- the archive fetch with its loading and error flags on every exit path;
- nearest-campsite selection with the distance function left uninterpreted, and the location
  request's error states.

Each awaited backend call is one sequential step whose outcome (`Ok` or `Err(e)`, a query
snapshot or a failure) is an input. The backend (auth session, passwords, the "users",
"campsites" and "notifications" collections) is the `Firebase.Backend` class, which holds
maps. View-models whose fields the source reassigns are classes with `modifies` clauses.
Pure rules are functions with lemmas.

Modules, one per source file plus shared helpers: `Wrappers`, `Text` (Kotlin string functions),
`Lists`, `CampsiteModel`, `LocationStateModel`, `Resources` (the `R.string` ids), `Firebase`,
`ImageData`, `CreateCampsite`, `ImageCache`, `Listing`, `Authentication`, `UserProfile`,
`ProfileScreen`, `Notifications`, `CampsiteDetails`, `Archive`, `LocationTracking`.

## Model

| member | source | states |
|---|---|---|
| Text.Trim | CampMate/app/src/main/java/com/pejic/campmate/viewmodel/ImageViewModel.kt:102 | `trim()` returns a contiguous slice of its input with only whitespace cut from either end, and the result neither starts nor ends with whitespace |
| Text.TrimUnpadded | CampMate/app/src/main/java/com/pejic/campmate/viewmodel/ImageViewModel.kt:102 | a string that neither starts nor ends with whitespace is unchanged by `trim()` |
| Text.Utf16Length | CampMate/app/src/main/java/com/pejic/campmate/viewmodel/AuthenticationViewModel.kt:49 | Kotlin's `length` counts UTF-16 code units: between one and two per character, zero only for the empty string, and exactly one per character for text within the Basic Multilingual Plane |
| Text.IndexOfFrom | CampMate/app/src/main/java/com/pejic/campmate/viewmodel/CreateCampsiteViewModel.kt:141 | the index found is an occurrence at or after the start, no earlier occurrence exists, and None means there is no occurrence at all |
| Text.SubstringAfterFirst | CampMate/app/src/main/java/com/pejic/campmate/viewmodel/CreateCampsiteViewModel.kt:141 | `substringAfter(delimiter, missing)` is what follows the first occurrence of the delimiter, and the fallback when the delimiter does not occur |
| Text.EmptyQueryContained | CampMate/app/src/main/java/com/pejic/campmate/viewmodel/AllCampsitesViewModel.kt:40 | the default empty search query is contained in every name, ignoring case |
| Text.ContainsSameFolding | CampMate/app/src/main/java/com/pejic/campmate/viewmodel/AllCampsitesViewModel.kt:66-67 | `contains(q, ignoreCase = true)` gives the same answer for two queries that fold to the same letters (both directions) |
| Lists.IndexOfElement | CampMate/app/src/main/java/com/pejic/campmate/viewmodel/CreateCampsiteViewModel.kt:191-210 | `indexOf` finds the first equal element, and None exactly when the element is absent |
| Lists.RemoveAt | CampMate/app/src/main/java/com/pejic/campmate/viewmodel/ImageViewModel.kt:111-122 | `removeAt(i)` drops exactly the element at `i`, keeps the order of the rest, and removes one copy of that element from the multiset |
| Lists.RemoveAppended | CampMate/app/src/main/java/com/pejic/campmate/viewmodel/ImageViewModel.kt:85-89 | removing the element just appended gives the original list back |
| CampsiteModel.DefaultCampsite | CampMate/app/src/main/java/com/pejic/campmate/model/Campsite.kt:3-17 | empty id, name, location, price, description and creator; no coordinates and no main image; no other images and no ratings; available; type "Ostalo" |
| LocationStateModel.DefaultLocationState | CampMate/app/src/main/java/com/pejic/campmate/model/LocationState.kt:3-11 | no location, nearest campsite, distance or target; no campsites; permission not granted; no error |
| Firebase.ParsedDocuments | CampMate/app/src/main/java/com/pejic/campmate/viewmodel/ArchiveCampsiteViewModel.kt:55-66 | every well-formed document's campsite, carrying the document id, is kept; every kept campsite comes from a well-formed document; the result is empty exactly when no document is well formed |
| Firebase.ParsedDocumentsAppend | CampMate/app/src/main/java/com/pejic/campmate/viewmodel/ArchiveCampsiteViewModel.kt:55-66 | parsing distributes over concatenation, so the kept campsites stay in page order |
| ImageData.MarkerPosition | CampMate/app/src/main/java/com/pejic/campmate/viewmodel/CreateCampsiteViewModel.kt:283 | in an encoded image the first "base64," ends the fixed prefix, whatever the payload |
| ImageData.DataUrlRoundTrip | CampMate/app/src/main/java/com/pejic/campmate/viewmodel/CreateCampsiteViewModel.kt:141 | stripping the data URL the encoder produced gives the payload back |
| ImageData.StripWithoutMarker | CampMate/app/src/main/java/com/pejic/campmate/viewmodel/CreateCampsiteViewModel.kt:141 | a string without "base64," is passed to the codec unchanged |
| ImageData.CleanPayloadRoundTrip | CampMate/app/src/main/java/com/pejic/campmate/viewmodel/ImageViewModel.kt:100-109 | the image cache's strip-and-trim also returns a Base64 payload unchanged from its data URL |
| CreateCampsite.DocumentSize | CampMate/app/src/main/java/com/pejic/campmate/viewmodel/CreateCampsiteViewModel.kt:312-330 | the size estimate, with every `length` in UTF-16 code units, is never below the fixed 208 (its formula is the specification `EstimateDocumentSize` is proved against) |
| CreateCampsite.SumImageLengths | CampMate/app/src/main/java/com/pejic/campmate/viewmodel/CreateCampsiteViewModel.kt:323 | the `sumOf` loop's total is the sum of the image strings' lengths in UTF-16 code units |
| CreateCampsite.EstimateDocumentSize | CampMate/app/src/main/java/com/pejic/campmate/viewmodel/CreateCampsiteViewModel.kt:312-330 | the running total, with the image-length sum as a loop, equals the size formula: 2 per UTF-16 code unit of each string field, 8 per coordinate, every image string's code units, 32 per rating, 1 if available, plus 208 |
| CreateCampsite.AppendImageGrowsSize | CampMate/app/src/main/java/com/pejic/campmate/viewmodel/CreateCampsiteViewModel.kt:323 | appending an image string grows the estimate by exactly its length |
| CreateCampsite.SumLengthsMonotone | CampMate/app/src/main/java/com/pejic/campmate/viewmodel/CreateCampsiteViewModel.kt:323 | the image-length sum is monotone in each string's length |
| CreateCampsite.SizeMonotoneInImageLength | CampMate/app/src/main/java/com/pejic/campmate/viewmodel/CreateCampsiteViewModel.kt:312-330 | longer main or other image strings never lower the estimate |
| CreateCampsite.DefaultFormIsIncomplete | CampMate/app/src/main/java/com/pejic/campmate/viewmodel/CreateCampsiteViewModel.kt:340-344 | a fresh form always fails validation |
| CreateCampsite.EnabledSubmitFailsOnlyWithoutPosition | CampMate/app/src/main/java/com/pejic/campmate/view/CreateCampsiteScreen.kt:178 | once the submit button is enabled, validation fails if and only if no map position is chosen |
| CreateCampsite.StoredCampsite | CampMate/app/src/main/java/com/pejic/campmate/viewmodel/CreateCampsiteViewModel.kt:354-360 | the written document has the new id, the creator's uid, the given images and no ratings, and otherwise equals the form |
| CreateCampsite.Submit | CampMate/app/src/main/java/com/pejic/campmate/viewmodel/CreateCampsiteViewModel.kt:332-382 | incomplete if and only if a required field is missing; not signed in if and only if complete without a user; for a complete form with a user, over the limit gives too-large carrying the document's estimate, and within it the write's outcome decides: written with the stored campsite on success, write-failed with its exception otherwise |
| CreateCampsite.WrittenCampsiteIsComplete | CampMate/app/src/main/java/com/pejic/campmate/viewmodel/CreateCampsiteViewModel.kt:340-360 | every written campsite has a name, a location, a position and a main image, no ratings, and the signed-in creator |
| CreateCampsite.OversizedIsNeverWritten | CampMate/app/src/main/java/com/pejic/campmate/viewmodel/CreateCampsiteViewModel.kt:362-368 | a document estimated above 1,000,000 is refused whatever the write would do |
| CreateCampsite.RemoveImage | CampMate/app/src/main/java/com/pejic/campmate/viewmodel/CreateCampsiteViewModel.kt:191-210 | an absent string changes nothing; otherwise the string at the first occurrence's index is removed with the rest in order, and the bitmap at that index too when that index is within the bitmap list (lists out of step after a failed decode included), else the bitmaps are unchanged |
| CreateCampsite.RemoveImageKeepsListsInStep | CampMate/app/src/main/java/com/pejic/campmate/viewmodel/CreateCampsiteViewModel.kt:191-210 | lists of equal length lose the entries at the same index (the first occurrence) and stay of equal length |
| CreateCampsite.AddImage | CampMate/app/src/main/java/com/pejic/campmate/viewmodel/CreateCampsiteViewModel.kt:159-176 | a failed conversion changes nothing; otherwise the data URL is appended and the payload's own bitmap is appended when it decodes |
| CreateCampsite.RemoveUndoesAdd | CampMate/app/src/main/java/com/pejic/campmate/viewmodel/CreateCampsiteViewModel.kt:191-210 | removing a freshly added image restores both lists |
| CreateCampsite.CreateCampsiteForm.constructor | CampMate/app/src/main/java/com/pejic/campmate/viewmodel/CreateCampsiteViewModel.kt:35-62 | the form starts as `Campsite()`, not loading, with no errors, no location and no bitmaps |
| CreateCampsite.CreateCampsiteForm.UpdateName | CampMate/app/src/main/java/com/pejic/campmate/viewmodel/CreateCampsiteViewModel.kt:78-80 | only the name changes |
| CreateCampsite.CreateCampsiteForm.UpdateLocation | CampMate/app/src/main/java/com/pejic/campmate/viewmodel/CreateCampsiteViewModel.kt:82-84 | only the location text changes |
| CreateCampsite.CreateCampsiteForm.UpdatePrice | CampMate/app/src/main/java/com/pejic/campmate/viewmodel/CreateCampsiteViewModel.kt:86-88 | only the price changes |
| CreateCampsite.CreateCampsiteForm.UpdateDescription | CampMate/app/src/main/java/com/pejic/campmate/viewmodel/CreateCampsiteViewModel.kt:90-92 | only the description changes |
| CreateCampsite.CreateCampsiteForm.UpdateAvailability | CampMate/app/src/main/java/com/pejic/campmate/viewmodel/CreateCampsiteViewModel.kt:94-96 | only the availability changes |
| CreateCampsite.CreateCampsiteForm.UpdateType | CampMate/app/src/main/java/com/pejic/campmate/viewmodel/CreateCampsiteViewModel.kt:98-100 | only the type changes |
| CreateCampsite.CreateCampsiteForm.UpdateSelectedLatLng | CampMate/app/src/main/java/com/pejic/campmate/viewmodel/CreateCampsiteViewModel.kt:102-107 | latitude and longitude are both set from one point or both cleared; nothing else changes |
| CreateCampsite.CreateCampsiteForm.UpdateCurrentLocation | CampMate/app/src/main/java/com/pejic/campmate/viewmodel/CreateCampsiteViewModel.kt:109-115 | the fix is always recorded and the location error cleared; it becomes the selected position only while no latitude is set |
| CreateCampsite.CreateCampsiteForm.AddOtherImage | CampMate/app/src/main/java/com/pejic/campmate/viewmodel/CreateCampsiteViewModel.kt:159-176 | the form's strings and bitmaps become those of `AddImage` |
| CreateCampsite.CreateCampsiteForm.RemoveOtherImage | CampMate/app/src/main/java/com/pejic/campmate/viewmodel/CreateCampsiteViewModel.kt:191-210 | the form's strings and bitmaps become those of `RemoveImage`: the first occurrence's index is removed from the strings, and from the bitmaps when within them |
| CreateCampsite.CreateCampsiteForm.AddCampsite | CampMate/app/src/main/java/com/pejic/campmate/viewmodel/CreateCampsiteViewModel.kt:332-382 | for each `Submit` outcome: the callback, error and loading flag; only a written campsite reaches the store (under the new id) and resets the form |
| ImageCache.AppendOther | CampMate/app/src/main/java/com/pejic/campmate/viewmodel/ImageViewModel.kt:85-89 | the bitmap goes at the end of the key's list, created when absent; other keys are unchanged |
| ImageCache.RemoveOtherAt | CampMate/app/src/main/java/com/pejic/campmate/viewmodel/ImageViewModel.kt:111-122 | an absent key or an index out of range changes nothing; otherwise that key's list becomes `removeAt(index)` of it (the element at the index gone, the rest in order) and every other key is unchanged |
| ImageCache.RemoveUndoesAppend | CampMate/app/src/main/java/com/pejic/campmate/viewmodel/ImageViewModel.kt:111-122 | removing the bitmap just appended restores the key's list |
| ImageCache.ImageCacheState.constructor | CampMate/app/src/main/java/com/pejic/campmate/viewmodel/ImageViewModel.kt:23-31 | both maps empty, no captured URI, not loading |
| ImageCache.ImageCacheState.RemoveMainImage | CampMate/app/src/main/java/com/pejic/campmate/viewmodel/ImageViewModel.kt:70-75 | the key maps to "no bitmap" rather than being deleted; other keys are unchanged |
| ImageCache.ImageCacheState.DecodeMainImage | CampMate/app/src/main/java/com/pejic/campmate/viewmodel/ImageViewModel.kt:56-68 | a null string acts as `removeMainImage`; otherwise the bitmap decoded from the cleaned payload is stored; loading ends false |
| ImageCache.ImageCacheState.AddOtherImage | CampMate/app/src/main/java/com/pejic/campmate/viewmodel/ImageViewModel.kt:77-98 | the data URL is handed back; the payload's own bitmap is appended to the key's list when it decodes, otherwise nothing changes |
| ImageCache.ImageCacheState.RemoveOtherImage | CampMate/app/src/main/java/com/pejic/campmate/viewmodel/ImageViewModel.kt:111-122 | the map becomes `RemoveOtherAt` of the old map: within range, exactly the element at the index leaves that key's list, the rest keeping their order |
| ImageCache.ImageCacheState.SetOtherImages | CampMate/app/src/main/java/com/pejic/campmate/viewmodel/ImageViewModel.kt:219-223 | the key's list is replaced; other keys are unchanged |
| ImageCache.ImageCacheState.ClearImagesForCampsite | CampMate/app/src/main/java/com/pejic/campmate/viewmodel/ImageViewModel.kt:225-233 | the key leaves both maps; every other entry is unchanged |
| ImageCache.ImageCacheState.ClearAllImages | CampMate/app/src/main/java/com/pejic/campmate/viewmodel/ImageViewModel.kt:235-240 | both maps empty and no captured URI |
| Listing.ChipCategory | CampMate/app/src/main/java/com/pejic/campmate/view/AllCampsitesScreen.kt:297 | "Svi" imposes no type, and exactly "Svi" does; any other chip is the type itself |
| Listing.SearchIgnoresCase | CampMate/app/src/main/java/com/pejic/campmate/viewmodel/AllCampsitesViewModel.kt:66-67 | queries that differ only in letter case select the same campsites |
| Listing.UnparseablePriceIsZero | CampMate/app/src/main/java/com/pejic/campmate/viewmodel/AllCampsitesViewModel.kt:68-69 | a price that does not parse is filtered exactly as the price 0 |
| Listing.DefaultFilterChecksOnlyPrice | CampMate/app/src/main/java/com/pejic/campmate/viewmodel/AllCampsitesViewModel.kt:39-73 | with the default arguments a campsite is listed if and only if its price lies in [0, Float.MAX_VALUE] |
| Listing.RelaxingKeepsMatches | CampMate/app/src/main/java/com/pejic/campmate/viewmodel/AllCampsitesViewModel.kt:70-71 | a match still matches without the availability and type constraints, and a match honours each constraint that is set |
| Listing.ApplyFilter | CampMate/app/src/main/java/com/pejic/campmate/viewmodel/AllCampsitesViewModel.kt:65-73 | a campsite is kept if and only if it is on the page and matches; nothing is added or duplicated |
| Listing.ApplyFilterAppend | CampMate/app/src/main/java/com/pejic/campmate/viewmodel/AllCampsitesViewModel.kt:65-76 | filtering page by page and appending gives the filter of the concatenated pages |
| Listing.ParseAll | CampMate/app/src/main/java/com/pejic/campmate/viewmodel/AllCampsitesViewModel.kt:63-64 | the page parses if and only if every document does, giving every campsite in page order with its document's id |
| Listing.ParseAllAgreesWithParsedDocuments | CampMate/app/src/main/java/com/pejic/campmate/viewmodel/AllCampsitesViewModel.kt:105-107 | on a page of well-formed documents the listing's parse and the archive's parse coincide |
| Listing.LastId | CampMate/app/src/main/java/com/pejic/campmate/viewmodel/AllCampsitesViewModel.kt:75 | the cursor is the id of the page's last document, filtered or not, and null exactly for an empty page |
| Listing.CampsiteListing.constructor | CampMate/app/src/main/java/com/pejic/campmate/viewmodel/AllCampsitesViewModel.kt:19-29 | empty lists, no error, no cursors |
| Listing.CampsiteListing.FetchAllCampsites | CampMate/app/src/main/java/com/pejic/campmate/viewmodel/AllCampsitesViewModel.kt:39-84 | a reset clears list and cursor first; success appends the filtered page, moves the cursor to the unfiltered page's last id and clears the error; failure keeps the (reset) list and cursor and sets the error; one call adds at most 10 campsites |
| Listing.CampsiteListing.FetchUserCampsites | CampMate/app/src/main/java/com/pejic/campmate/viewmodel/AllCampsitesViewModel.kt:86-118 | without a user nothing changes; otherwise as the listing fetch, without the filter |
| Listing.CampsiteListing.ClearErrorMessage | CampMate/app/src/main/java/com/pejic/campmate/viewmodel/AllCampsitesViewModel.kt:120-122 | the error becomes null |
| Authentication.RegistrationError | CampMate/app/src/main/java/com/pejic/campmate/viewmodel/AuthenticationViewModel.kt:36-52 | each message is given if and only if its check fails and every earlier one passes, in the order blank field, email pattern, mismatch, length below 8 UTF-16 code units; None if and only if all pass |
| Authentication.EightCharactersAccepted | CampMate/app/src/main/java/com/pejic/campmate/viewmodel/AuthenticationViewModel.kt:49 | a password of exactly 8 UTF-16 code units passes when the rest is valid |
| Authentication.FourAstralCharactersAccepted | CampMate/app/src/main/java/com/pejic/campmate/viewmodel/AuthenticationViewModel.kt:49 | four characters outside the Basic Multilingual Plane are 8 code units and pass the length check |
| Authentication.LoginError | CampMate/app/src/main/java/com/pejic/campmate/viewmodel/AuthenticationViewModel.kt:87-95 | blank email or password first, then the email pattern, each if and only if |
| Authentication.RegistrationFailureMessage | CampMate/app/src/main/java/com/pejic/campmate/viewmodel/AuthenticationViewModel.kt:74-77 | "email already in use" if and only if the exception is a collision, otherwise "registration failed" |
| Authentication.MapFirebaseError | CampMate/app/src/main/java/com/pejic/campmate/viewmodel/AuthenticationViewModel.kt:116-135 | for each message, exactly which exceptions produce it (subclass first, then error code, unknown codes to the fallbacks, non-auth exceptions to "unknown"); never a success message |
| Authentication.SubclassDecidesBeforeCode | CampMate/app/src/main/java/com/pejic/campmate/viewmodel/AuthenticationViewModel.kt:116-135 | for the credentials and collision subclasses the error code is never read |
| Authentication.GenericCollisionCodeReadDifferently | CampMate/app/src/main/java/com/pejic/campmate/viewmodel/AuthenticationViewModel.kt:74-77 | a generic auth exception with code "ERROR_EMAIL_ALREADY_IN_USE" reads as "email in use" at login but "registration failed" at registration |
| Authentication.AuthenticationState.constructor | CampMate/app/src/main/java/com/pejic/campmate/viewmodel/AuthenticationViewModel.kt:25 | no status |
| Authentication.AuthenticationState.RegisterUser | CampMate/app/src/main/java/com/pejic/campmate/viewmodel/AuthenticationViewModel.kt:28-80 | a failed check sets its message and touches no backend state; a taken email or failed lookup creates no account; a created account signs the user in and stores the password, and the profile is written only on a successful write; the status on every path |
| Authentication.AuthenticationState.LoginUser | CampMate/app/src/main/java/com/pejic/campmate/viewmodel/AuthenticationViewModel.kt:82-105 | a failed check sets its message and keeps the session; sign-in sets the user and "login success"; a sign-in failure sets `MapFirebaseError` of it; success if and only if both pass |
| Authentication.AuthenticationState.Logout | CampMate/app/src/main/java/com/pejic/campmate/viewmodel/AuthenticationViewModel.kt:107-110 | no user is signed in and the status is "logout success" |
| Authentication.AuthenticationState.ClearStatus | CampMate/app/src/main/java/com/pejic/campmate/viewmodel/AuthenticationViewModel.kt:112-114 | the status becomes null |
| UserProfile.FallbackUser | CampMate/app/src/main/java/com/pejic/campmate/viewmodel/UserViewModel.kt:29-35 | empty names and the auth email, or "" when there is none |
| UserProfile.UserProfileState.constructor | CampMate/app/src/main/java/com/pejic/campmate/viewmodel/UserViewModel.kt:20-22 | the state after the initial `fetchUser` |
| UserProfile.UserProfileState.FetchUser | CampMate/app/src/main/java/com/pejic/campmate/viewmodel/UserViewModel.kt:24-38 | without a user nothing changes; otherwise the stored profile, or the fallback when it is missing or the read fails |
| UserProfile.UserProfileState.UpdateUserProfile | CampMate/app/src/main/java/com/pejic/campmate/viewmodel/UserViewModel.kt:40-62 | without a user it fails with "No user logged in"; a successful write stores and shows the new names with the auth email; a failed write changes nothing |
| UserProfile.UserProfileState.ChangePassword | CampMate/app/src/main/java/com/pejic/campmate/viewmodel/UserViewModel.kt:64-82 | without a user, or with fewer than 8 UTF-16 code units, it fails before any backend call; otherwise the password changes exactly when the update succeeds |
| ProfileScreen.PasswordChangeCheck | CampMate/app/src/main/java/com/pejic/campmate/view/ProfileScreen.kt:339-348 | each message if and only if its check fails and the earlier ones pass, in the order blank, length below 8 UTF-16 code units, mismatch; None if and only if all pass |
| ProfileScreen.AcceptedPasswordPassesEverywhere | CampMate/app/src/main/java/com/pejic/campmate/view/ProfileScreen.kt:271 | a password the click accepts meets the view-model's length rule and raises neither red outline |
| ProfileScreen.FlaggedPasswordIsRefused | CampMate/app/src/main/java/com/pejic/campmate/view/ProfileScreen.kt:271 | a flagged new password is always refused, as too short once both fields are filled |
| ProfileScreen.BlankPasswordUnflaggedButRefused | CampMate/app/src/main/java/com/pejic/campmate/view/ProfileScreen.kt:271-348 | any blank new password of at least 8 code units (eight spaces, say) raises no red outline when confirmed, yet the click refuses it as empty whatever the confirmation |
| ProfileScreen.CheckOrderDiffersFromRegistration | CampMate/app/src/main/java/com/pejic/campmate/view/ProfileScreen.kt:339-348 | every non-blank password below 8 code units with a different non-blank confirmation is "too short" here while registration reports a mismatch, because registration checks the match first |
| ProfileScreen.PasswordForm.constructor | CampMate/app/src/main/java/com/pejic/campmate/view/ProfileScreen.kt:38-44 | empty fields, no messages, not loading |
| ProfileScreen.PasswordForm.ClickChangePassword | CampMate/app/src/main/java/com/pejic/campmate/view/ProfileScreen.kt:336-369 | a failed check shows its message and leaves the fields and the password; otherwise success clears both fields and shows success, and failure shows "change failed"; loading ends false |
| Notifications.NewRecord | CampMate/app/src/main/java/com/pejic/campmate/viewmodel/NotificationViewModel.kt:82-93 | the new record has the given fields and is unprocessed |
| Notifications.Queue | CampMate/app/src/main/java/com/pejic/campmate/viewmodel/NotificationViewModel.kt:71-93 | a record is added under the fresh id exactly when no unprocessed record has the same fields, otherwise the store is unchanged |
| Notifications.QueueLeavesOnePending | CampMate/app/src/main/java/com/pejic/campmate/viewmodel/NotificationViewModel.kt:71-93 | when no record with these fields was pending before, exactly one is pending after queueing |
| Notifications.QueueIsIdempotent | CampMate/app/src/main/java/com/pejic/campmate/viewmodel/NotificationViewModel.kt:71-97 | queueing the same fields twice gives the store of one queueing |
| Notifications.ProcessedRecordDoesNotBlock | CampMate/app/src/main/java/com/pejic/campmate/viewmodel/NotificationViewModel.kt:77 | matching records that are all processed do not prevent the insert |
| Notifications.MarkProcessed | CampMate/app/src/main/java/com/pejic/campmate/viewmodel/NotificationViewModel.kt:112-150 | the same ids; the given records get `processed = true` and nothing else changes |
| Notifications.PassTouchesOnlyUsersPending | CampMate/app/src/main/java/com/pejic/campmate/viewmodel/NotificationViewModel.kt:112-150 | the only records a pass changes are the user's unprocessed ones, and only their flag |
| Notifications.PassClearsExactlyTheMarked | CampMate/app/src/main/java/com/pejic/campmate/viewmodel/NotificationViewModel.kt:112-153 | after a pass the user's pending records are exactly those whose update failed |
| Notifications.PassKeepsOthersPending | CampMate/app/src/main/java/com/pejic/campmate/viewmodel/NotificationViewModel.kt:112-150 | every other user's pending records are the same after the pass |
| Notifications.MarkOneMore | CampMate/app/src/main/java/com/pejic/campmate/viewmodel/NotificationViewModel.kt:146-149 | marking one more record in place equals marking the larger set |
| Notifications.NotificationRelay.constructor | CampMate/app/src/main/java/com/pejic/campmate/viewmodel/NotificationViewModel.kt:27 | the guard starts clear |
| Notifications.NotificationRelay.SendLocalNotification | CampMate/app/src/main/java/com/pejic/campmate/viewmodel/NotificationViewModel.kt:60-102 | with both calls successful the store becomes `Queue` of it; a failed call leaves it unchanged |
| Notifications.NotificationRelay.SendPendingNotifications | CampMate/app/src/main/java/com/pejic/campmate/viewmodel/NotificationViewModel.kt:104-161 | with the guard set nothing happens; otherwise a successful query marks exactly the user's pending records whose update succeeds (a failure not stopping the rest), and the guard is clear on exit |
| Notifications.NotificationRelay.OnAuthStateChanged | CampMate/app/src/main/java/com/pejic/campmate/viewmodel/NotificationViewModel.kt:46-58 | a pass runs only for a signed-in user with the guard clear |
| CampsiteDetails.MergeRating | CampMate/app/src/main/java/com/pejic/campmate/viewmodel/CampsiteDetailsViewModel.kt:71-73 | the rater's key is set to the rating and every other rater's entry is unchanged |
| CampsiteDetails.LastRatingWins | CampMate/app/src/main/java/com/pejic/campmate/viewmodel/CampsiteDetailsViewModel.kt:71-73 | a re-rating overwrites: the last rating is the one kept |
| CampsiteDetails.DifferentRatersCommute | CampMate/app/src/main/java/com/pejic/campmate/viewmodel/CampsiteDetailsViewModel.kt:71-73 | ratings by different users commute |
| CampsiteDetails.RatingCountGrowsByAtMostOne | CampMate/app/src/main/java/com/pejic/campmate/viewmodel/CampsiteDetailsViewModel.kt:71-73 | the number of raters grows by one for a new rater and not at all for a re-rating |
| CampsiteDetails.RatingKeepsRange | CampMate/app/src/main/java/com/pejic/campmate/view/CampsiteScreen.kt:382 | ratings the screen accepts keep every stored rating within [1, 10] |
| CampsiteDetails.RaterNames | CampMate/app/src/main/java/com/pejic/campmate/viewmodel/CampsiteDetailsViewModel.kt:67-69 | the profile's names, or "Nepoznato" for both without a profile |
| CampsiteDetails.CampsiteDetailsState.constructor | CampMate/app/src/main/java/com/pejic/campmate/viewmodel/CampsiteDetailsViewModel.kt:20-35 | no campsite, no error, its own relay |
| CampsiteDetails.CampsiteDetailsState.FetchCampsite | CampMate/app/src/main/java/com/pejic/campmate/viewmodel/CampsiteDetailsViewModel.kt:37-54 | nothing happens when that campsite is already loaded; a found document is loaded and clears the error; a missing one gives null and "Campsite not found"; a failed read sets its message |
| CampsiteDetails.CampsiteDetailsState.RateCampsite | CampMate/app/src/main/java/com/pejic/campmate/viewmodel/CampsiteDetailsViewModel.kt:56-97 | without a user, or on a failed read or update, nothing is written; otherwise the ratings map gets `MergeRating`, and a notification is queued only when the rater is not the creator |
| CampsiteDetails.CampsiteDetailsState.DeleteCampsite | CampMate/app/src/main/java/com/pejic/campmate/viewmodel/CampsiteDetailsViewModel.kt:99-119 | only the signed-in creator can delete; every other path leaves the store unchanged |
| Archive.ArchiveState.constructor | CampMate/app/src/main/java/com/pejic/campmate/viewmodel/ArchiveCampsiteViewModel.kt:20-26 | empty list, not loading, no error |
| Archive.ArchiveState.FetchUserCampsites | CampMate/app/src/main/java/com/pejic/campmate/viewmodel/ArchiveCampsiteViewModel.kt:29-77 | loading is false on every exit; no user gives "Please log in" and an empty list; a failure keeps the list and sets the message; success lists the parsed documents of the query's result and reports "No campsites found" if and only if none parsed (that the result is all of the user's campsites is assumed of the `whereEqualTo` query, not established by the view-model) |
| LocationTracking.WithCoordinates | CampMate/app/src/main/java/com/pejic/campmate/viewmodel/LocationTrackingViewModel.kt:141-143 | exactly the campsites with both coordinates are kept |
| LocationTracking.WithCoordinatesAppend | CampMate/app/src/main/java/com/pejic/campmate/viewmodel/LocationTrackingViewModel.kt:141-143 | the filter distributes over concatenation, so it keeps the listing order |
| LocationTracking.MinIndexFrom | CampMate/app/src/main/java/com/pejic/campmate/viewmodel/LocationTrackingViewModel.kt:154-159 | `minByOrNull` scanning on: the index of the first element at the least distance |
| LocationTracking.NearestIndex | CampMate/app/src/main/java/com/pejic/campmate/viewmodel/LocationTrackingViewModel.kt:154-159 | among the campsites with coordinates, none is nearer than the chosen one and every one before it is strictly farther |
| LocationTracking.Nearest | CampMate/app/src/main/java/com/pejic/campmate/viewmodel/LocationTrackingViewModel.kt:140-172 | None if and only if no campsite has both coordinates; otherwise a listed campsite with both coordinates that no such campsite is nearer than |
| LocationTracking.NearestIsFirstMinimum | CampMate/app/src/main/java/com/pejic/campmate/viewmodel/LocationTrackingViewModel.kt:154-159 | ties go to the campsite listed first |
| LocationTracking.WithNearest | CampMate/app/src/main/java/com/pejic/campmate/viewmodel/LocationTrackingViewModel.kt:140-172 | no nearest campsite clears nearest, distance and target; otherwise the target is its position and the distance its distance; everything else is unchanged |
| LocationTracking.LocationTracker.constructor | CampMate/app/src/main/java/com/pejic/campmate/viewmodel/LocationTrackingViewModel.kt:53-55 | the default state after the initial campsite fetch |
| LocationTracking.LocationTracker.FetchCampsites | CampMate/app/src/main/java/com/pejic/campmate/viewmodel/LocationTrackingViewModel.kt:116-138 | success loads the parsed campsites and recomputes the nearest when the user is located; failure sets only the error |
| LocationTracking.LocationTracker.UpdateNearestCampsite | CampMate/app/src/main/java/com/pejic/campmate/viewmodel/LocationTrackingViewModel.kt:140-172 | the state becomes `WithNearest` of the old state |
| LocationTracking.LocationTracker.UpdateLocation | CampMate/app/src/main/java/com/pejic/campmate/viewmodel/LocationTrackingViewModel.kt:100-106 | the position is recorded, the error cleared and the nearest campsite recomputed |
| LocationTracking.LocationTracker.SetPermissionGranted | CampMate/app/src/main/java/com/pejic/campmate/viewmodel/LocationTrackingViewModel.kt:108-114 | the flag is set, and the error is set if and only if permission is refused; nothing else changes |
| LocationTracking.LocationTracker.RequestSingleLocation | CampMate/app/src/main/java/com/pejic/campmate/viewmodel/LocationTrackingViewModel.kt:58-98 | without permission, service or GPS only the matching error is set; a last-known fix is used without a listener; otherwise the listener is registered; each exception sets its message |
| LocationTracking.LocationTracker.OnLocationChanged | CampMate/app/src/main/java/com/pejic/campmate/viewmodel/LocationTrackingViewModel.kt:37-41 | the fix is used and the listener unregisters itself |
| LocationTracking.LocationTracker.OnProviderDisabled | CampMate/app/src/main/java/com/pejic/campmate/viewmodel/LocationTrackingViewModel.kt:47-50 | only the GPS error is set |

## Left out

- Compose layout, navigation, maps, dialogs and theming. The few screen predicates the model needs become predicates or preconditions: the submit button (`CreateCampsite.SubmitEnabled`), the "Svi" chip, the 1.0–10.0 rating range and the password section's `enabled = !isLoading` (`ClickChangePassword` requires not loading).
- Coroutines, `viewModelScope` and `await`: each awaited call is one sequential step whose outcome is an input. Interleavings of concurrent launches are not modelled.
- Android's Base64 codec and bitmap decode, compress and scale: the codec is a function parameter `decode`, and bitmaps are opaque handles. The codec flags (NO_PADDING against padded) and the maximum dimensions (400 against 550) are not modelled.
- The haversine `calculateDistance` is floating-point trigonometry; the distance is a function parameter and only the selection rule is proved.
- Doubles and floats are modelled as reals: NaN, infinities and rounding are not. `toFloatOrNull` is a parameter `parsePrice`.
- `Patterns.EMAIL_ADDRESS` is a library regex; it is the opaque predicate `isEmail`.
- Strings are sequences of Unicode scalar values; Kotlin's `length` is counted in UTF-16 code units by `Text.Utf16Length`. An unpaired surrogate, which a Kotlin string can hold, cannot be represented.
- `ignoreCase` comparison folds ASCII letters only; Unicode case folding is not modelled.
- `AtomicBoolean` is a plain boolean: the guard is modelled in a sequential setting.
- Platform services: the location manager is reduced to what each call returns or throws (`LocationProbe`); permission checks, the notification manager, notification display, file providers and `Log` calls are left out; timestamps and new document ids are inputs.
- Firestore query semantics (`orderBy("name")`, `limit`, `startAfter`) are not modelled: the page a query returns is an input, assumed to hold at most 10 documents. Whether `startAfter` with a document id matches the ordering by name is therefore not examined.
- `toObject` is reduced to "parses or not" (`Document.parsed`); Firestore field mapping is not modelled.
- The creation form's auth-state listener, which copies the uid into the form's `creatorId`, is not modelled; `addCampsite` overwrites that field anyway.
- The details view-model's `currentUserId` mirror of the auth session is not modelled; its operations read the session directly, as the source does.
- `RateCampsite`'s rater names come from the whole profile document: a profile that exists but lacks one name field is not modelled.
- A ratings update on a missing document fails in the backend; `RateCampsite` takes this as a requirement on its `update` input.
- Firestore field paths: a user id containing `.` would address a nested field in `ratings.$userId`; ids are taken as plain keys.
- `CreateCampsite.EstimateDocumentSize`: computes over unbounded naturals; the 64-bit `Long` of the source cannot overflow for documents Firestore accepts, so wrap-around is not modelled.
- `ImageCache.ImageCacheState.AddOtherImage`: requires the converted payload to be Base64 text, which the platform encoder always produces; the main-image and URI-capture entry points (`updateMainImageUri`, `createImageFile`, permissions) are platform I/O.
- `Notifications.NotificationRelay.SendPendingNotifications`: the records are visited as a set, so the order in which notifications are shown is not modelled (the final store does not depend on it).
- `User.kt` is not part of this model beyond the three fields the view-models read and write.
- A failed listing fetch after `reset = true` leaves an empty list, because the reset happens before the query; a failed archive fetch keeps the previous list.
