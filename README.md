# Hotel flat-file API — Dafny model

This project models the repository logic of a small Express hotel API. The API keeps
one JSON file per hotel in a `hotels` directory, named `<id>.json`, and serves
requests against it:

- `createHotel`: allocates the next id, checks the required fields in a fixed order,
  derives a slug from the title and suffixes `-<id>` once on a collision, defaults
  `images`, and writes the file.
- `getHotel`: finds a hotel by numeric id first and by slug second.
- `updateHotel`: overlays the body on the stored record and keeps the id. The slug is
  recomputed only when the body has a non-empty title; otherwise the body's own `slug`,
  if any, is spread in. A recomputed slug gets the `-<id>` suffix only when the first
  hotel holding it, in listing order, is another hotel.
- `uploadRoomImage` / `updateRoomImage`: overwrite the picture of the first room
  whose stored slug equals the normalised request slug.
- `uploadImage`: appends the URLs of uploaded files to a hotel's gallery.

Layout:

- `wrappers.dfy` (`Wrappers`): `Option`.
- `js_text.dfy` (`JsText`): the JavaScript string behaviour the controllers rely on.
  This covers `parseInt(s, 10)`, `${n}`, `trim`, `toLowerCase` and the trailing-slash
  `replace`.
- `hotel_model.dfy` (`HotelModel`): `Hotel`, `Room`, request bodies, the
  required-field check, the record a creation builds, the update merge, and the
  response projection.
- `hotel_files.dfy` (`HotelFiles`): the hotels directory.
  - It is a class `Store` holding `records: map<int, HotelDocument>`, keyed by file
    name, and `listing: seq<int>`, the directory listing order.
  - `Wf()` says the listing names every file exactly once.
  - `Valid()` adds that every file name equals the id recorded inside the file.
  - Every handler preserves `Valid()`.
- `hotel_controller.dfy`, `room_image_controller.dfy`, `image_controller.dfy`: the
  three controllers.
  - Loops of the source (`findHotelBySlug`, `getNextHotelId`, the required-field
    loop, `findIndex`, `push(...)`) are methods with loop invariants.
  - Each is proved equal to a specification function.
  - The lemmas are stated about those functions.

The title-to-slug function (`createSlug`, which calls the `slugify` library) is a
parameter `slugify: string -> string` of the create and update handlers. Nothing is
assumed about it.

## Model

| member | source | states |
|---|---|---|
| HotelController.FirstSlugMatch | src/controllers/hotelController.ts:46-64 | None exactly when no listed file has the slug; otherwise the answer carries the slug and is one of the listed files |
| HotelController.FirstSlugMatchIsFirst | src/controllers/hotelController.ts:50-57 | the answer is the earliest match in listing order |
| HotelController.FindHotelBySlug | src/controllers/hotelController.ts:46-64 | the early-return scan over the listing returns exactly FirstSlugMatch, and null (None) if nothing matches |
| HotelController.MaxIdBounds | src/controllers/hotelController.ts:67-81 | the running maximum starting at 0 is ≥ 0, ≥ every stored id, and is 0 or some stored id |
| HotelController.GetNextHotelId | src/controllers/hotelController.ts:67-81 | the forEach loop returns MaxId + 1 |
| HotelController.NextIdIsFresh | src/controllers/hotelController.ts:67-81 | the allocated id is ≥ 1 and greater than every stored id; when file names match ids, no file has that name |
| HotelModel.FirstAbsent | src/controllers/hotelController.ts:100-108 | None exactly when every listed field is present; otherwise an absent listed field |
| HotelModel.FirstAbsentIsFirst | src/controllers/hotelController.ts:103-107 | the reported field is the first absent one in list order |
| HotelController.FirstMissingField | src/controllers/hotelController.ts:100-108 | the required-field loop reports FirstAbsent over title, description, guestCount, bedroomCount, bathroomCount, amenities, hostInfo, address, latitude, longitude, rooms |
| HotelModel.CompleteIffEveryField | src/controllers/hotelController.ts:100-108 | the check passes exactly when all eleven fields are present |
| HotelModel.NewHotel | src/controllers/hotelController.ts:91-97 | the created record has the allocated id (not the body's) and the given slug; `images` is the body's or empty; every other field is the body's |
| HotelController.CreatedSlugSpec | src/controllers/hotelController.ts:111-123 | the derived slug is kept exactly when no stored hotel has it, and otherwise becomes slug + "-" + id |
| HotelController.SuffixIfTaken | src/controllers/hotelController.ts:120-123 | the lookup-and-suffix step yields CreatedSlug |
| HotelController.CreateHotel | src/controllers/hotelController.ts:84-136 | a missing field gives 400 with the message naming that field, and the store unchanged; an existing file at the new id gives 400 "Hotel with this ID already exists." with the store unchanged; otherwise 201, exactly one file is added at the new id, and the response is its record; `Valid` is kept and then no conflict occurs |
| HotelController.CreateWithId | src/controllers/hotelController.ts:110-131 | for a complete body and the allocated id: the conflict 400 with the store unchanged, or the slug-suffixed record written as one new file with a 201 |
| HotelController.CreateKeepsSlugsUniqueUnlessSuffixTaken | src/controllers/hotelController.ts:119-123 | after creation slugs are unique exactly when the derived slug or the suffixed slug was free |
| HotelController.SuffixedSlugCanCollide | src/controllers/hotelController.ts:119-123 | a concrete directory (`sea-view` id 1, `sea-view-3` id 2) where creation produces a duplicate slug |
| HotelController.ResolveForGet | src/controllers/hotelController.ts:144-158 | definition: the file named by `parseInt(identifier, 10)` when that parses and the file exists, otherwise the first slug match of the raw identifier |
| HotelController.GetHotel | src/controllers/hotelController.ts:139-171 | the response is the file at the parsed id if it exists, otherwise the slug match of the raw identifier (200), otherwise 404; nothing is written |
| HotelController.CreatedHotelIsFoundById | src/controllers/hotelController.ts:145-153 | a freshly written hotel is found by the decimal text of its id |
| HotelController.NumericPrefixShadowsSlug | src/controllers/hotelController.ts:145-158 | an identifier that starts with an existing id's digits resolves to that file, even if it is a hotel's slug |
| HotelModel.MergeHotel | src/controllers/hotelController.ts:198-205 | definition: each Hotel field from the body when present, else from the stored record; `id` forced to the path id; `images` from the body else the stored list |
| HotelModel.MergeHotelLaws | src/controllers/hotelController.ts:198-205 | an empty body changes only the id; applying the same overlay twice equals applying it once |
| HotelController.UpdatedDocument | src/controllers/hotelController.ts:198-215 | the rewritten file keeps the path id and the existing extra keys overlaid by the body's; `images` is the body's, else the stored; all other fields follow the overlay; the slug is recomputed only for a non-empty title and suffixed only when another hotel holds it first |
| HotelController.SuffixIfTakenByOther | src/controllers/hotelController.ts:210-214 | the lookup-and-suffix step of the update yields RecomputedSlug |
| HotelController.UpdateHotel | src/controllers/hotelController.ts:174-226 | a non-numeric id gives 400 and a missing file 404, both with the store unchanged; otherwise 200 and only the file at the id becomes UpdatedDocument; the listing never changes |
| HotelController.MatchSurvivesWrite | src/controllers/hotelController.ts:211-212 | rewriting one file under another slug keeps another hotel's first match |
| HotelController.WrittenMatchIsFound | src/controllers/hotelController.ts:211-212 | rewriting one file under the slug makes it the first match when no other hotel was |
| HotelController.RecomputedSlugIsStable | src/controllers/hotelController.ts:207-215 | recomputing the slug after the write gives the slug that was written |
| HotelController.UpdateIsIdempotent | src/controllers/hotelController.ts:198-217 | sending the same update twice leaves the same file as sending it once |
| HotelController.UpdatedHotelIsServedByGet | src/controllers/hotelController.ts:145-153 | after an update, getHotel by the id's decimal text finds exactly the record the update wrote |
| HotelController.UpdateWithoutTitleCanDuplicateSlug | src/controllers/hotelController.ts:198-207 | an update without a title whose body carries another hotel's slug leaves two hotels with that slug |
| HotelController.UpdateSuffixCanDuplicateSlug | src/controllers/hotelController.ts:207-214 | when another hotel holds the derived slug first and a third hotel already holds the suffixed slug, the update duplicates the suffixed slug |
| HotelModel.Reorder | src/controllers/hotelController.ts:26-43 | definition: the response is the fourteen Hotel fields of the stored record; keys outside the interface are dropped |
| HotelFiles.Store.Write | src/controllers/hotelController.ts:126 | writing a file replaces the record under that name, or adds it at the end of the listing when there was none; the listing stays a duplicate-free enumeration |
| JsText.TrimStartSpec | src/controllers/roomImageController.ts:44 | leading trim keeps a suffix that does not start with white space and drops only white space |
| JsText.TrimEndSpec | src/controllers/roomImageController.ts:44 | trailing trim keeps a prefix that does not end with white space and drops only white space |
| JsText.Trim | src/controllers/roomImageController.ts:44 | definition: `trim()` removes leading and trailing ECMAScript white space and line terminators |
| JsText.TrimIdempotent | src/controllers/roomImageController.ts:73 | trimming a trimmed string changes nothing, so the handler's second trim is a no-op |
| JsText.ToLower | src/controllers/roomImageController.ts:44 | lower-casing keeps the length |
| JsText.StripTrailingSlash | src/controllers/roomImageController.ts:73 | removes exactly one trailing `/` when there is one, nothing otherwise |
| JsText.DigitPrefix | src/controllers/hotelController.ts:145 | the longest run of digits at the front |
| JsText.IntToString | src/controllers/hotelController.ts:122 | definition: `${n}` for an integer is its decimal text, with a leading `-` when negative |
| JsText.NatToString | src/controllers/hotelController.ts:122 | the decimal text of a number is non-empty and made of digits |
| JsText.DecimalValueOfNatToString | src/controllers/hotelController.ts:122 | reading back the digits of a number gives the number |
| JsText.DigitPrefixOfDigits | src/controllers/hotelController.ts:145 | the digit prefix of digits followed by a non-digit is those digits |
| JsText.ParseInt | src/controllers/hotelController.ts:145 | definition: `parseInt(s, 10)` skips leading white space, reads one optional sign, then the longest run of digits; None (NaN) when there is no digit |
| JsText.ParseIntOfIntToString | src/controllers/hotelController.ts:122-145 | `parseInt(`${n}` + rest, 10)` is n whenever rest does not start with a digit |
| JsText.ParseIntUnsigned | src/controllers/hotelController.ts:145 | a string starting with a digit parses to the value of its digit prefix |
| JsText.ParseIntSigned | src/controllers/hotelController.ts:145 | `-` followed by digits parses to the negated value |
| RoomImageController.FirstRoomIndex | src/controllers/roomImageController.ts:52-56 | None exactly when no room's stored slug equals the key; otherwise the first such index |
| RoomImageController.WithRoomImage | src/controllers/roomImageController.ts:62 | only that room's `roomImage` changes; the other rooms, the room count and the other hotel fields stay |
| RoomImageController.UpdateRoomImage | src/controllers/roomImageController.ts:42-64 | with the trimmed, lower-cased request slug compared exactly with stored slugs: no match gives false and the hotel unchanged; a match gives true and the first matching room's picture replaced |
| RoomImageController.RoomKeyIsNormal | src/controllers/roomImageController.ts:44 | the request key has no capital letter and no outer white space |
| RoomImageController.UnnormalisedRoomSlugIsUnreachable | src/controllers/roomImageController.ts:44-53 | a room whose stored slug has a capital letter or outer white space can never be matched |
| RoomImageController.TrimHasNoOuterSpace | src/controllers/roomImageController.ts:44 | a trimmed string neither starts nor ends with white space |
| RoomImageController.LowerCharHasNoCapital | src/controllers/roomImageController.ts:44 | a lower-cased character is not a capital letter |
| RoomImageController.LowerCharKeepsSpaces | src/controllers/roomImageController.ts:44 | lower-casing neither creates nor removes white space |
| RoomImageController.Summaries | src/controllers/roomImageController.ts:115-118 | the not-found details list every room's (slug, title) in stored order |
| RoomImageController.UploadRoomImageById | src/controllers/roomImageController.ts:84-130 | missing file 404, then no upload 400, then no room 404 with the summaries, each with the store unchanged; otherwise only the hotel's file is rewritten with `/roomImages/<filename>` on the matched room, and that URL is returned |
| RoomImageController.UploadRoomImage | src/controllers/roomImageController.ts:67-136 | a non-numeric id gives 400 before anything else; the route slug loses one trailing `/` and is trimmed; then as UploadRoomImageById |
| ImageController.ImageUrls | src/controllers/imageController.ts:57 | one URL `baseUrl/<filename>` per file, in upload order |
| ImageController.UploadedUrls | src/controllers/imageController.ts:56-62 | a file array adds one URL per file, a single file adds one, no upload adds none |
| ImageController.AppendImageUrls | src/controllers/imageController.ts:56-58 | the push loop yields the old pictures followed by ImageUrls of the files |
| ImageController.AddUploadedImages | src/controllers/imageController.ts:56-62 | the new gallery is the old gallery followed by UploadedUrls |
| ImageController.ResolveForUpload | src/controllers/imageController.ts:34-45 | definition: when the identifier parses, the file at that id or nothing; otherwise the first slug match |
| ImageController.FindUploadTarget | src/controllers/imageController.ts:34-45 | lookup is by id alone when the identifier parses, by slug alone otherwise |
| ImageController.UploadResolvesLikeGet | src/controllers/imageController.ts:35-45 | whatever the gallery upload finds, getHotel finds the same; they differ exactly for a numeric identifier naming no file whose text is a hotel's slug |
| ImageController.UploadImage | src/controllers/imageController.ts:29-76 | no hotel gives 404 with the store unchanged; otherwise 200, the file named by the record's own id is written with the gallery extended by UploadedUrls, and the response carries the stored list |

## Left out

- File-system I/O is replaced by the in-memory `Store`. This covers `fs.*`, `path.join`, and the directory creation when each controller module loads. Read and JSON-parse failures, the 500 responses, and the error `updateHotel` swallows without answering (hotelController.ts:223-225) are not modelled.
- Directory listing order: Node's `readdirSync` returns the file names sorted as strings, so `10.json` comes before `2.json`. The model keeps an arbitrary `listing` and puts a new file at its end, a modelling choice. It matters only for which of two hotels with the same slug a slug lookup finds first.
- JSON serialisation and key order: `Reorder` is the projection onto the Hotel fields. Keys outside the interface are kept as opaque text in `extra`.
- Request bodies whose values have the wrong JSON type are not modelled. An example is `images: null`, which `||` would treat as absent.
- Ids and counts (`id`, `guestCount`, `bedroomCount`, `bathroomCount`) are carried as `int`. Fractional JSON numbers are not modelled.
- HotelController.UpdatedDocument: the final `|| []` of `images: req.body.images || existingData.images || []` (hotelController.ts:203) never applies in the model, because every stored record carries an `images` list.
- The `express-validator` middleware runs before `createHotel` and `updateHotel`, and handlers are modelled from the point after it passes. It is not part of this model. On both routes it demands the eleven required fields, with a non-empty `title`; it does not check `images`, `slug` or `id`. So two kinds of path are reachable only by calling a handler directly:
  - `CreateHotel`'s `MissingField` outcome;
  - the branches of `UpdatedDocument` where one of the eleven fields is absent, including the no-title branch that `UpdateWithoutTitleCanDuplicateSlug` relies on.

  The branch that takes `images` from the stored record stays reachable over HTTP.
- The upload middleware (`multer`) and its file names built from `Date.now()` and `Math.random()` are not modelled. Stored file names are inputs (`UploadedFile.filename`).
- The internals of `slugify`: the title-to-slug function is an uninterpreted parameter.
- Routes, the Express server, console logging and concurrency are not modelled. Concurrency here means two requests racing between id allocation and write.
- HotelController.CreateHotel: ids are unbounded integers. In JavaScript, `maxId + 1` in `getNextHotelId` stops growing at 2^53, so with such an id stored the conflict branch becomes reachable on a store whose file names match their ids. The guarantee that a `Valid` store never hits the conflict (also stated by `CreateWithId` and `NextIdIsFresh`) rests on unbounded arithmetic.
- JsText.ParseInt: exact for decimal text of any length. The loss of precision of JavaScript numbers beyond 2^53 and the exponent notation of huge numbers in `${n}` are not modelled.
- JsText.ToLower: lower-cases ASCII letters only; the Unicode case mapping of `toLowerCase` is not modelled.
- ImageController.UploadImage: `hotel.images.push` on a stored record without `images` throws (a 500). Every record written by this API carries `images`, so the model always has one.
- HotelModel.Hotel: latitude and longitude are carried as `real`; floating-point behaviour is not modelled.
- HotelModel.Room: only the five Room fields are modelled. Other keys of a room object are not modelled, though the source keeps them through the body spread, the in-place picture write and the response.
- HotelModel.HotelInput: `extra` stands for the body keys outside the fourteen Hotel fields. The model does not enforce this, so it admits a body with an `extra` entry named like a Hotel field, which no JSON object can be.

Behaviours of the code that the model keeps as written:

- Only the request slug is normalised in `updateRoomImage`. A stored room slug with a capital letter or outer white space is unreachable; see `UnnormalisedRoomSlugIsUnreachable`.
- Gallery upload has no slug fallback for numeric identifiers, unlike `getHotel`; see `UploadResolvesLikeGet`.
- Identifiers are parsed with `parseInt`, so a slug such as `2-bedroom-villa` is shadowed by hotel 2 whenever that file exists; see `NumericPrefixShadowsSlug`.
- The `-<id>` suffix is applied once and not re-checked, so creation can produce a duplicate slug; see `CreateKeepsSlugsUniqueUnlessSuffixTaken` and `SuffixedSlugCanCollide`.
- An update can also produce a duplicate slug, in two ways:
  - A body `slug` without a title is spread in unchecked; see `UpdateWithoutTitleCanDuplicateSlug`.
  - The update's single suffix step is not re-checked; see `UpdateSuffixCanDuplicateSlug`.
