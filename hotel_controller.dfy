/** The hotel controller: slug lookup and id allocation over the hotels directory, and
    the create, get and update handlers built on them. */
module HotelController {
  import opened Wrappers
  import opened JsText
  import opened HotelModel
  import opened HotelFiles

  /* ---------------- findHotelBySlug ---------------- */

  /** The first file, in listing order, whose record carries `slug`. */
  function FirstSlugMatch(records: map<int, HotelDocument>, ids: seq<int>, slug: string)
    : (r: Option<HotelDocument>)
    requires Covers(records, ids)
    ensures r.None? <==> forall i :: 0 <= i < |ids| ==> records[ids[i]].hotel.slug != slug
    ensures r.Some? ==> r.value.hotel.slug == slug && exists i :: 0 <= i < |ids| && r.value == records[ids[i]]
  {
    if ids == [] then None
    else if records[ids[0]].hotel.slug == slug then Some(records[ids[0]])
    else FirstSlugMatch(records, ids[1..], slug)
  }

  /** The match FirstSlugMatch reports is the earliest one in the listing. */
  lemma {:induction false} FirstSlugMatchIsFirst(records: map<int, HotelDocument>, ids: seq<int>, slug: string, k: nat)
    requires Covers(records, ids)
    requires k < |ids| && records[ids[k]].hotel.slug == slug
    requires forall j :: 0 <= j < k ==> records[ids[j]].hotel.slug != slug
    ensures FirstSlugMatch(records, ids, slug) == Some(records[ids[k]])
  {
    if k > 0 {
      FirstSlugMatchIsFirst(records, ids[1..], slug, k - 1);
    }
  }

  /** findHotelBySlug: scans the directory in listing order and returns the first
      record whose slug equals `slug`, or nothing. */
  method FindHotelBySlug(store: Store, slug: string) returns (found: Option<HotelDocument>)
    requires store.Wf()
    ensures found == FirstSlugMatch(store.records, store.listing, slug)
  {
    var i := 0;
    while i < |store.listing|
      invariant 0 <= i <= |store.listing|
      invariant FirstSlugMatch(store.records, store.listing[i..], slug)
             == FirstSlugMatch(store.records, store.listing, slug)
    {
      var doc := store.records[store.listing[i]];
      assert store.listing[i..][1..] == store.listing[i + 1..];
      if doc.hotel.slug == slug {
        return Some(doc);
      }
      i := i + 1;
    }
    return None;
  }

  /* ---------------- getNextHotelId ---------------- */

  /** The largest id recorded in the files `ids`, or 0 if none exceeds 0. */
  function MaxId(records: map<int, HotelDocument>, ids: seq<int>): int
    requires Covers(records, ids)
  {
    if ids == [] then 0
    else
      var m := MaxId(records, ids[..|ids| - 1]);
      var x := records[ids[|ids| - 1]].hotel.id;
      if x > m then x else m
  }

  /** MaxId is max(0, the largest recorded id). */
  lemma {:induction false} MaxIdBounds(records: map<int, HotelDocument>, ids: seq<int>)
    requires Covers(records, ids)
    ensures MaxId(records, ids) >= 0
    ensures forall i :: 0 <= i < |ids| ==> records[ids[i]].hotel.id <= MaxId(records, ids)
    ensures MaxId(records, ids) == 0
         || exists i :: 0 <= i < |ids| && records[ids[i]].hotel.id == MaxId(records, ids)
  {
    if ids != [] {
      var init := ids[..|ids| - 1];
      MaxIdBounds(records, init);
      assert forall i :: 0 <= i < |init| ==> ids[i] == init[i];
    }
  }

  /** getNextHotelId: one more than the largest id found in any file, 1 for an empty
      directory. */
  method GetNextHotelId(store: Store) returns (next: int)
    requires store.Wf()
    ensures next == MaxId(store.records, store.listing) + 1
  {
    var maxId := 0;
    var i := 0;
    while i < |store.listing|
      invariant 0 <= i <= |store.listing|
      invariant maxId == MaxId(store.records, store.listing[..i])
    {
      var hotel := store.records[store.listing[i]].hotel;
      assert store.listing[..i + 1][..i] == store.listing[..i];
      if hotel.id > maxId {
        maxId := hotel.id;
      }
      i := i + 1;
    }
    assert store.listing[..i] == store.listing;
    return maxId + 1;
  }

  /** The allocated id is at least 1 and exceeds every recorded id; when file names
      agree with recorded ids, no file has that name yet. */
  lemma NextIdIsFresh(records: map<int, HotelDocument>, listing: seq<int>)
    requires Enumerates(records, listing)
    ensures MaxId(records, listing) + 1 >= 1
    ensures forall k :: k in records ==> records[k].hotel.id < MaxId(records, listing) + 1
    ensures KeysMatchIds(records) ==> MaxId(records, listing) + 1 !in records
  {
    MaxIdBounds(records, listing);
    forall k | k in records
      ensures records[k].hotel.id < MaxId(records, listing) + 1
    {
      var i :| 0 <= i < |listing| && listing[i] == k;
    }
  }

  /* ---------------- createHotel ---------------- */

  datatype CreateOutcome =
    | Created(hotel: Hotel)
    | MissingField(field: Field)
    | IdConflict
  {
    function Status(): int {
      if Created? then 201 else 400
    }

    function Error(): string
      requires !Created?
    {
      if MissingField? then "Missing required field: " + FieldName(field)
      else "Hotel with this ID already exists."
    }
  }

  /** The required-field loop: the first field of RequiredFields the body lacks. */
  method FirstMissingField(body: HotelInput) returns (missing: Option<Field>)
    ensures missing == FirstAbsent(body, RequiredFields)
  {
    var i := 0;
    while i < |RequiredFields|
      invariant 0 <= i <= |RequiredFields|
      invariant forall j :: 0 <= j < i ==> Present(body, RequiredFields[j])
    {
      if !Present(body, RequiredFields[i]) {
        FirstAbsentIsFirst(body, RequiredFields, i);
        return Some(RequiredFields[i]);
      }
      i := i + 1;
    }
    return None;
  }

  /** The slug of a new hotel: the derived slug, suffixed once with `-<id>` when some
      stored hotel already has it. */
  function CreatedSlug(records: map<int, HotelDocument>, listing: seq<int>, base: string, id: int): string
    requires Covers(records, listing)
  {
    if FirstSlugMatch(records, listing, base).Some? then base + "-" + IntToString(id) else base
  }

  /** The collision step of createHotel: look the derived slug up and suffix it once. */
  method SuffixIfTaken(store: Store, base: string, id: int) returns (slug: string)
    requires store.Wf()
    ensures slug == CreatedSlug(store.records, store.listing, base, id)
  {
    slug := base;
    var existing := FindHotelBySlug(store, base);
    if existing.Some? {
      slug := base + "-" + IntToString(id);
    }
  }

  /** The derived slug is kept exactly when no stored hotel has it; otherwise the
      suffixed one is used, and it is never the derived slug itself. */
  lemma CreatedSlugSpec(records: map<int, HotelDocument>, listing: seq<int>, base: string, id: int)
    requires Enumerates(records, listing)
    ensures CreatedSlug(records, listing, base, id) == base
        <==> forall k :: k in records ==> records[k].hotel.slug != base
    ensures CreatedSlug(records, listing, base, id) != base
        ==> CreatedSlug(records, listing, base, id) == base + "-" + IntToString(id)
  {
    var s := CreatedSlug(records, listing, base, id);
    if s == base {
      assert |base + "-" + IntToString(id)| > |base|;
      forall k | k in records
        ensures records[k].hotel.slug != base
      {
        var i :| 0 <= i < |listing| && listing[i] == k;
      }
    }
  }

  /** createHotel, after the request-shape validation: allocate the id, check the
      required fields in order, derive the slug, refuse an id whose file exists,
      resolve a slug collision with one `-<id>` suffix, default `images`, write the
      file and answer with the record in response layout. */
  method CreateHotel(store: Store, slugify: string -> string, body: HotelInput) returns (outcome: CreateOutcome)
    requires store.Wf()
    modifies store
    ensures store.Wf()
    ensures old(store.Valid()) ==> store.Valid() && !outcome.IdConflict?
    ensures !Complete(body) ==>
      && outcome == MissingField(FirstAbsent(body, RequiredFields).value)
      && outcome.Status() == 400
      && outcome.Error() == "Missing required field: " + FieldName(FirstAbsent(body, RequiredFields).value)
      && store.records == old(store.records) && store.listing == old(store.listing)
    ensures Complete(body) ==>
      var id := MaxId(old(store.records), old(store.listing)) + 1;
      if id in old(store.records) then
        && outcome == IdConflict
        && outcome.Status() == 400 && outcome.Error() == "Hotel with this ID already exists."
        && store.records == old(store.records) && store.listing == old(store.listing)
      else
        var slug := CreatedSlug(old(store.records), old(store.listing), slugify(body.title.value), id);
        var doc := HotelDocument(NewHotel(body, id, slug), body.extra);
        && store.records == old(store.records)[id := doc]
        && store.listing == old(store.listing) + [id]
        && outcome == Created(Reorder(doc)) && outcome.Status() == 201
  {
    var id := GetNextHotelId(store);
    var missing := FirstMissingField(body);
    if missing.Some? {
      return MissingField(missing.value);
    }
    outcome := CreateWithId(store, slugify, body, id);
  }

  /** The rest of createHotel once every required field is present and `id` is
      allocated: derive the slug, refuse an id whose file exists, suffix a taken slug
      once, write the file. */
  method CreateWithId(store: Store, slugify: string -> string, body: HotelInput, id: int)
    returns (outcome: CreateOutcome)
    requires store.Wf() && Complete(body) && id == MaxId(store.records, store.listing) + 1
    modifies store
    ensures store.Wf()
    ensures old(store.Valid()) ==> store.Valid() && !outcome.IdConflict?
    ensures id in old(store.records) ==>
      && outcome == IdConflict
      && outcome.Status() == 400 && outcome.Error() == "Hotel with this ID already exists."
      && store.records == old(store.records) && store.listing == old(store.listing)
    ensures id !in old(store.records) ==>
      var slug := CreatedSlug(old(store.records), old(store.listing), slugify(body.title.value), id);
      var doc := HotelDocument(NewHotel(body, id, slug), body.extra);
      && store.records == old(store.records)[id := doc]
      && store.listing == old(store.listing) + [id]
      && outcome == Created(Reorder(doc)) && outcome.Status() == 201
  {
    if store.Valid() {
      NextIdIsFresh(store.records, store.listing);
    }
    var slug := slugify(body.title.value);
    if id in store.records {
      return IdConflict;
    }
    slug := SuffixIfTaken(store, slug, id);
    var doc := HotelDocument(NewHotel(body, id, slug), body.extra);
    store.Write(id, doc);
    outcome := Created(Reorder(doc));
  }

  /** No two files carry the same slug. */
  ghost predicate UniqueSlugs(records: map<int, HotelDocument>) {
    forall a, b :: a in records && b in records && a != b ==> records[a].hotel.slug != records[b].hotel.slug
  }

  /** Creation keeps slugs unique exactly when the derived slug is free or, if it is
      taken, the suffixed slug is free: the single suffixing step is not re-checked. */
  lemma CreateKeepsSlugsUniqueUnlessSuffixTaken(
    records: map<int, HotelDocument>, listing: seq<int>, base: string, id: int, doc: HotelDocument)
    requires Enumerates(records, listing) && UniqueSlugs(records) && id !in records
    requires doc.hotel.slug == CreatedSlug(records, listing, base, id)
    ensures UniqueSlugs(records[id := doc])
        <==> (|| (forall k :: k in records ==> records[k].hotel.slug != base)
              || (forall k :: k in records ==> records[k].hotel.slug != base + "-" + IntToString(id)))
  {
    CreatedSlugSpec(records, listing, base, id);
    var after := records[id := doc];
    var s := doc.hotel.slug;
    if UniqueSlugs(after) {
      forall k | k in records
        ensures records[k].hotel.slug != s
      {
        assert k != id && after[k] == records[k] && after[id] == doc;
      }
    }
  }

  /** The single suffix step can produce a slug another hotel already has: with
      `sea-view` (id 1) and `sea-view-3` (id 2) stored, a third hotel whose title
      slugifies to `sea-view` gets `sea-view-3`. */
  lemma SuffixedSlugCanCollide(first: Hotel, second: Hotel)
    requires first.id == 1 && first.slug == "sea-view"
    requires second.id == 2 && second.slug == "sea-view-3"
    ensures var records := map[1 := HotelDocument(first, map[]), 2 := HotelDocument(second, map[])];
            && Enumerates(records, [1, 2]) && KeysMatchIds(records) && UniqueSlugs(records)
            && MaxId(records, [1, 2]) + 1 == 3
            && CreatedSlug(records, [1, 2], "sea-view", 3) == second.slug
  {
    var records := map[1 := HotelDocument(first, map[]), 2 := HotelDocument(second, map[])];
    assert [1, 2][..1] == [1];
    assert [1][..0] == [];
    assert MaxId(records, [1]) == 1;
    assert IntToString(3) == "3";
    assert FirstSlugMatch(records, [1, 2], "sea-view") == Some(records[1]);
  }

  /* ---------------- getHotel ---------------- */

  /** The record getHotel answers with: the file named by the parsed identifier if it
      exists, otherwise the first slug match of the raw identifier. */
  function ResolveForGet(records: map<int, HotelDocument>, listing: seq<int>, identifier: string)
    : Option<HotelDocument>
    requires Covers(records, listing)
  {
    match ParseInt(identifier)
    case Some(id) =>
      if id in records then Some(records[id]) else FirstSlugMatch(records, listing, identifier)
    case None => FirstSlugMatch(records, listing, identifier)
  }

  datatype GetOutcome = Found(hotel: Hotel) | NotFound {
    function Status(): int {
      if Found? then 200 else 404
    }
  }

  /** getHotel: id first, slug second; nothing is written. */
  method GetHotel(store: Store, identifier: string) returns (outcome: GetOutcome)
    requires store.Wf()
    ensures outcome == match ResolveForGet(store.records, store.listing, identifier)
                       case Some(d) => Found(Reorder(d))
                       case None => NotFound
    ensures outcome.Status() == if ResolveForGet(store.records, store.listing, identifier).Some? then 200 else 404
  {
    var hotel: Option<HotelDocument> := None;
    var potentialId := ParseInt(identifier);
    if potentialId.Some? && potentialId.value in store.records {
      hotel := Some(store.records[potentialId.value]);
    }
    if hotel.None? {
      hotel := FindHotelBySlug(store, identifier);
    }
    if hotel.None? {
      return NotFound;
    }
    return Found(Reorder(hotel.value));
  }

  /** A hotel just written under its id is found by the decimal text of that id. */
  lemma CreatedHotelIsFoundById(records: map<int, HotelDocument>, listing: seq<int>, doc: HotelDocument)
    requires Covers(records, listing) && doc.hotel.id !in records
    ensures Covers(records[doc.hotel.id := doc], listing + [doc.hotel.id])
    ensures ResolveForGet(records[doc.hotel.id := doc], listing + [doc.hotel.id], IntToString(doc.hotel.id))
         == Some(doc)
  {
    ParseIntOfIntToString(doc.hotel.id, "");
    assert IntToString(doc.hotel.id) + "" == IntToString(doc.hotel.id);
  }

  /** An identifier that starts with the digits of an existing id resolves to that
      file, even when it is exactly some hotel's slug (e.g. `2-bedroom-villa`). */
  lemma NumericPrefixShadowsSlug(records: map<int, HotelDocument>, listing: seq<int>, n: int, rest: string)
    requires Covers(records, listing) && n in records
    requires rest == [] || !IsDigit(rest[0])
    ensures ResolveForGet(records, listing, IntToString(n) + rest) == Some(records[n])
  {
    ParseIntOfIntToString(n, rest);
  }

  /* ---------------- updateHotel ---------------- */

  datatype UpdateOutcome =
    | Updated(hotel: Hotel)
    | InvalidHotelId
    | HotelNotFound
  {
    function Status(): int {
      if Updated? then 200 else if InvalidHotelId? then 400 else 404
    }
  }

  /** `if (req.body.title)`: a present, non-empty title. */
  predicate TitleGiven(body: HotelInput) {
    body.title.Some? && body.title.value != ""
  }

  /** The recomputed slug of hotel `hotelId`: suffixed with `-<hotelId>` only when the
      first hotel carrying the derived slug is another one. */
  function RecomputedSlug(records: map<int, HotelDocument>, listing: seq<int>, base: string, hotelId: int): string
    requires Covers(records, listing)
  {
    match FirstSlugMatch(records, listing, base)
    case Some(other) => if other.hotel.id != hotelId then base + "-" + IntToString(hotelId) else base
    case None => base
  }

  /** The collision step of updateHotel: suffix the slug once when its first holder
      is another hotel. */
  method SuffixIfTakenByOther(store: Store, base: string, hotelId: int) returns (slug: string)
    requires store.Wf()
    ensures slug == RecomputedSlug(store.records, store.listing, base, hotelId)
  {
    slug := base;
    var other := FindHotelBySlug(store, base);
    if other.Some? && other.value.hotel.id != hotelId {
      slug := base + "-" + IntToString(hotelId);
    }
  }

  /** The file updateHotel writes: the existing record overlaid with the body, id
      forced, and the slug recomputed when a title is given. */
  function UpdatedDocument(
    records: map<int, HotelDocument>, listing: seq<int>, slugify: string -> string,
    existing: HotelDocument, body: HotelInput, hotelId: int): (d: HotelDocument)
    requires Covers(records, listing)
    ensures d.hotel.id == hotelId
    ensures d.extra == existing.extra + body.extra
    ensures d.hotel.images == if body.images.Some? then body.images.value else existing.hotel.images
    ensures d.hotel.(slug := existing.hotel.slug) == MergeHotel(existing.hotel, body, hotelId).(slug := existing.hotel.slug)
    ensures !TitleGiven(body) ==> d.hotel.slug == body.slug.GetOr(existing.hotel.slug)
    ensures TitleGiven(body) ==>
      var base := slugify(body.title.value);
      var first := FirstSlugMatch(records, listing, base);
      d.hotel.slug == if first.Some? && first.value.hotel.id != hotelId
                      then base + "-" + IntToString(hotelId) else base
  {
    var merged := MergeHotel(existing.hotel, body, hotelId);
    var hotel := if TitleGiven(body)
                 then merged.(slug := RecomputedSlug(records, listing, slugify(body.title.value), hotelId))
                 else merged;
    HotelDocument(hotel, existing.extra + body.extra)
  }

  /** updateHotel, after the request-shape validation: a non-numeric id is refused, a
      missing file is not found; otherwise only the file at the id is rewritten. */
  method UpdateHotel(store: Store, slugify: string -> string, hotelIdParam: string, body: HotelInput)
    returns (outcome: UpdateOutcome)
    requires store.Wf()
    modifies store
    ensures store.Wf() && store.listing == old(store.listing)
    ensures old(store.Valid()) ==> store.Valid()
    ensures ParseInt(hotelIdParam).None? ==>
      outcome == InvalidHotelId && outcome.Status() == 400 && store.records == old(store.records)
    ensures ParseInt(hotelIdParam).Some? && ParseInt(hotelIdParam).value !in old(store.records) ==>
      outcome == HotelNotFound && outcome.Status() == 404 && store.records == old(store.records)
    ensures ParseInt(hotelIdParam).Some? && ParseInt(hotelIdParam).value in old(store.records) ==>
      var id := ParseInt(hotelIdParam).value;
      var doc := UpdatedDocument(old(store.records), old(store.listing), slugify, old(store.records)[id], body, id);
      store.records == old(store.records)[id := doc] && outcome == Updated(Reorder(doc)) && outcome.Status() == 200
  {
    var parsed := ParseInt(hotelIdParam);
    if parsed.None? {
      return InvalidHotelId;
    }
    var hotelId := parsed.value;
    if hotelId !in store.records {
      return HotelNotFound;
    }
    var existing := store.records[hotelId];
    var updated := MergeHotel(existing.hotel, body, hotelId);
    if TitleGiven(body) {
      var slug := SuffixIfTakenByOther(store, slugify(body.title.value), hotelId);
      updated := updated.(slug := slug);
    }
    var doc := HotelDocument(updated, existing.extra + body.extra);
    store.Write(hotelId, doc);
    outcome := Updated(Reorder(doc));
  }

  /** Rewriting file `k` with a record whose slug is not `base` leaves the first match
      of `base` where it was, when that match is another hotel. */
  lemma {:induction false} MatchSurvivesWrite(
    records: map<int, HotelDocument>, ids: seq<int>, base: string, k: int, d: HotelDocument, o: HotelDocument)
    requires Covers(records, ids) && KeysMatchIds(records) && k in records
    requires d.hotel.slug != base
    requires FirstSlugMatch(records, ids, base) == Some(o) && o.hotel.id != k
    ensures Covers(records[k := d], ids)
    ensures FirstSlugMatch(records[k := d], ids, base) == Some(o)
  {
    var x := ids[0];
    if records[x].hotel.slug != base {
      MatchSurvivesWrite(records, ids[1..], base, k, d, o);
    }
  }

  /** Rewriting file `k` with a record whose slug is `base` makes that record the first
      match of `base`, when no other hotel was the first match before. */
  lemma {:induction false} WrittenMatchIsFound(
    records: map<int, HotelDocument>, ids: seq<int>, base: string, k: int, d: HotelDocument)
    requires Covers(records, ids) && KeysMatchIds(records) && k in ids
    requires d.hotel.slug == base
    requires FirstSlugMatch(records, ids, base).None? || FirstSlugMatch(records, ids, base).value.hotel.id == k
    ensures Covers(records[k := d], ids)
    ensures FirstSlugMatch(records[k := d], ids, base) == Some(d)
  {
    var x := ids[0];
    if x != k {
      assert records[x].hotel.slug != base;
      WrittenMatchIsFound(records, ids[1..], base, k, d);
    }
  }

  /** Recomputing the slug against the store that already holds the recomputed record
      gives the same slug. */
  lemma RecomputedSlugIsStable(
    records: map<int, HotelDocument>, listing: seq<int>, base: string, id: int, d: HotelDocument)
    requires Enumerates(records, listing) && KeysMatchIds(records) && id in records
    requires d.hotel.id == id && d.hotel.slug == RecomputedSlug(records, listing, base, id)
    ensures Enumerates(records[id := d], listing)
    ensures RecomputedSlug(records[id := d], listing, base, id) == d.hotel.slug
  {
    var first := FirstSlugMatch(records, listing, base);
    if first.Some? && first.value.hotel.id != id {
      assert |base + "-" + IntToString(id)| > |base|;
      MatchSurvivesWrite(records, listing, base, id, d, first.value);
    } else {
      WrittenMatchIsFound(records, listing, base, id, d);
    }
  }

  /** Sending the same update twice leaves the same file as sending it once. */
  lemma UpdateIsIdempotent(
    records: map<int, HotelDocument>, listing: seq<int>, slugify: string -> string, body: HotelInput, id: int)
    requires Enumerates(records, listing) && KeysMatchIds(records) && id in records
    ensures var once := UpdatedDocument(records, listing, slugify, records[id], body, id);
            && Enumerates(records[id := once], listing)
            && UpdatedDocument(records[id := once], listing, slugify, once, body, id) == once
  {
    var once := UpdatedDocument(records, listing, slugify, records[id], body, id);
    var after := records[id := once];
    assert Enumerates(after, listing);
    var twice := UpdatedDocument(after, listing, slugify, once, body, id);
    if TitleGiven(body) {
      RecomputedSlugIsStable(records, listing, slugify(body.title.value), id, once);
    }
    assert twice.extra == once.extra;
    assert twice.hotel == once.hotel;
  }

  /** After an update, getHotel by the decimal text of the id answers with the record
      the update wrote, so its response equals the update's response. */
  lemma UpdatedHotelIsServedByGet(
    records: map<int, HotelDocument>, listing: seq<int>, slugify: string -> string, body: HotelInput, id: int)
    requires Covers(records, listing) && id in records
    ensures var doc := UpdatedDocument(records, listing, slugify, records[id], body, id);
            && Covers(records[id := doc], listing)
            && ResolveForGet(records[id := doc], listing, IntToString(id)) == Some(doc)
  {
    ParseIntOfIntToString(id, "");
    assert IntToString(id) + "" == IntToString(id);
  }

  /** Without a title the body's own `slug` is spread in unchecked, so an update can
      give a hotel another hotel's slug. */
  lemma UpdateWithoutTitleCanDuplicateSlug(
    records: map<int, HotelDocument>, listing: seq<int>, slugify: string -> string,
    body: HotelInput, id: int, other: int)
    requires Covers(records, listing) && id in records && other in records && id != other
    requires !TitleGiven(body) && body.slug == Some(records[other].hotel.slug)
    ensures !UniqueSlugs(records[id := UpdatedDocument(records, listing, slugify, records[id], body, id)])
  {
    var after := records[id := UpdatedDocument(records, listing, slugify, records[id], body, id)];
    assert after[id].hotel.slug == after[other].hotel.slug;
  }

  /** The update's single `-<id>` suffix is not re-checked either: when another hotel
      holds the derived slug first and a third file already holds the suffixed one,
      the update duplicates it. */
  lemma UpdateSuffixCanDuplicateSlug(
    records: map<int, HotelDocument>, listing: seq<int>, slugify: string -> string,
    body: HotelInput, id: int, other: int)
    requires Covers(records, listing) && id in records && other in records && id != other
    requires TitleGiven(body)
    requires var first := FirstSlugMatch(records, listing, slugify(body.title.value));
             first.Some? && first.value.hotel.id != id
    requires records[other].hotel.slug == slugify(body.title.value) + "-" + IntToString(id)
    ensures !UniqueSlugs(records[id := UpdatedDocument(records, listing, slugify, records[id], body, id)])
  {
    var after := records[id := UpdatedDocument(records, listing, slugify, records[id], body, id)];
    assert after[id].hotel.slug == after[other].hotel.slug;
  }
}
