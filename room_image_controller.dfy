/** The room-image controller: overwrite one room's picture in a hotel file. */
module RoomImageController {
  import opened Wrappers
  import opened JsText
  import opened HotelModel
  import opened HotelFiles

  /** The `(slug, title)` pairs listed when no room matches. */
  datatype RoomSummary = RoomSummary(slug: string, title: string)

  datatype RoomImageOutcome =
    | InvalidHotelId
    | HotelNotFound
    | NoImageFile
    | RoomNotFound(requestedSlug: string, availableRooms: seq<RoomSummary>)
    | RoomImageUpdated(roomImage: string)
  {
    function Status(): int {
      if RoomImageUpdated? then 200
      else if InvalidHotelId? || NoImageFile? then 400
      else 404
    }
  }

  /** The key updateRoomImage compares with: only the requested slug is trimmed and
      lower-cased, the stored room slugs are compared as they are. */
  function RoomKey(roomSlug: string): string {
    ToLower(Trim(roomSlug))
  }

  /** The index of the first room whose stored slug equals `key`. */
  function FirstRoomIndex(rooms: seq<Room>, key: string): (r: Option<nat>)
    ensures r.None? <==> forall i :: 0 <= i < |rooms| ==> rooms[i].roomSlug != key
    ensures r.Some? ==> r.value < |rooms| && rooms[r.value].roomSlug == key
    ensures r.Some? ==> forall j :: 0 <= j < r.value ==> rooms[j].roomSlug != key
  {
    if rooms == [] then None
    else if rooms[0].roomSlug == key then Some(0)
    else match FirstRoomIndex(rooms[1..], key)
         case Some(i) => Some(i + 1)
         case None => None
  }

  /** The hotel with the picture of room `k`, and nothing else, replaced. */
  function WithRoomImage(hotel: Hotel, k: nat, imageUrl: string): (r: Hotel)
    requires k < |hotel.rooms|
    ensures |r.rooms| == |hotel.rooms|
    ensures r.rooms[k].roomImage == imageUrl
    ensures r.rooms[k].(roomImage := hotel.rooms[k].roomImage) == hotel.rooms[k]
    ensures forall j :: 0 <= j < |hotel.rooms| && j != k ==> r.rooms[j] == hotel.rooms[j]
    ensures r.(rooms := hotel.rooms) == hotel
  {
    hotel.(rooms := hotel.rooms[k := hotel.rooms[k].(roomImage := imageUrl)])
  }

  /** updateRoomImage: find the first room whose slug equals the normalised request
      slug and overwrite its picture; report whether one was found. */
  method UpdateRoomImage(hotel: Hotel, roomSlug: string, imageUrl: string) returns (updated: bool, result: Hotel)
    ensures match FirstRoomIndex(hotel.rooms, RoomKey(roomSlug))
            case None => !updated && result == hotel
            case Some(k) => updated && result == WithRoomImage(hotel, k, imageUrl)
  {
    var key := RoomKey(roomSlug);
    var roomIndex := -1;
    var i := 0;
    while i < |hotel.rooms|
      invariant 0 <= i <= |hotel.rooms|
      invariant forall j :: 0 <= j < i ==> hotel.rooms[j].roomSlug != key
    {
      if hotel.rooms[i].roomSlug == key {
        roomIndex := i;
        break;
      }
      i := i + 1;
    }
    if roomIndex == -1 {
      return false, hotel;
    }
    return true, WithRoomImage(hotel, roomIndex, imageUrl);
  }

  /** A room whose stored slug has an upper-case letter or surrounding white space can
      never be matched, since only the request side is normalised. */
  lemma UnnormalisedRoomSlugIsUnreachable(room: Room, roomSlug: string)
    requires || (exists i :: 0 <= i < |room.roomSlug| && 'A' <= room.roomSlug[i] <= 'Z')
             || (room.roomSlug != [] && (IsSpace(room.roomSlug[0]) || IsSpace(room.roomSlug[|room.roomSlug| - 1])))
    ensures room.roomSlug != RoomKey(roomSlug)
  {
    RoomKeyIsNormal(roomSlug);
  }

  /** A request key has no capital letter and no surrounding white space. */
  lemma RoomKeyIsNormal(roomSlug: string)
    ensures forall i :: 0 <= i < |RoomKey(roomSlug)| ==> !('A' <= RoomKey(roomSlug)[i] <= 'Z')
    ensures RoomKey(roomSlug) == [] || (!IsSpace(RoomKey(roomSlug)[0]) && !IsSpace(RoomKey(roomSlug)[|RoomKey(roomSlug)| - 1]))
  {
    var t := Trim(roomSlug);
    var key := ToLower(t);
    forall i | 0 <= i < |key|
      ensures !('A' <= key[i] <= 'Z')
    {
      LowerCharHasNoCapital(t[i]);
    }
    if key != [] {
      TrimHasNoOuterSpace(roomSlug);
      LowerCharKeepsSpaces(t[0]);
      LowerCharKeepsSpaces(t[|t| - 1]);
      assert key[0] == LowerChar(t[0]) && key[|key| - 1] == LowerChar(t[|t| - 1]);
    }
  }

  lemma TrimHasNoOuterSpace(s: string)
    ensures Trim(s) == [] || (!IsSpace(Trim(s)[0]) && !IsSpace(Trim(s)[|Trim(s)| - 1]))
  {
    var u := TrimStart(s);
    var t := TrimEnd(u);
    TrimStartSpec(s);
    TrimEndSpec(u);
    if t != [] {
      assert t[0] == u[0];
    }
  }

  lemma LowerCharHasNoCapital(c: char)
    ensures !('A' <= LowerChar(c) <= 'Z')
  {
  }

  lemma LowerCharKeepsSpaces(c: char)
    ensures IsSpace(LowerChar(c)) <==> IsSpace(c)
  {
  }

  function Summaries(rooms: seq<Room>): (r: seq<RoomSummary>)
    ensures |r| == |rooms|
    ensures forall i :: 0 <= i < |rooms| ==> r[i] == RoomSummary(rooms[i].roomSlug, rooms[i].roomTitle)
  {
    seq(|rooms|, i requires 0 <= i < |rooms| => RoomSummary(rooms[i].roomSlug, rooms[i].roomTitle))
  }

  /** The URL stored for an uploaded room picture. */
  function RoomImageUrl(file: UploadedFile): string {
    "/roomImages/" + file.filename
  }

  /** The slug from the route: one trailing slash removed, then trimmed. */
  function RouteRoomSlug(param: string): string {
    Trim(StripTrailingSlash(param))
  }

  /** The handler once the id has parsed: existing file, uploaded picture and matching
      room are checked in that order; only a full success rewrites the hotel's file. */
  method UploadRoomImageById(store: Store, hotelId: int, roomSlug: string, file: Option<UploadedFile>)
    returns (outcome: RoomImageOutcome)
    requires store.Wf()
    modifies store
    ensures store.Wf() && store.listing == old(store.listing)
    ensures old(store.Valid()) ==> store.Valid()
    ensures hotelId !in old(store.records) ==>
      outcome == HotelNotFound && outcome.Status() == 404 && store.records == old(store.records)
    ensures hotelId in old(store.records) && file.None? ==>
      outcome == NoImageFile && outcome.Status() == 400 && store.records == old(store.records)
    ensures hotelId in old(store.records) && file.Some? ==>
      var doc := old(store.records)[hotelId];
      match FirstRoomIndex(doc.hotel.rooms, RoomKey(roomSlug))
      case None =>
        && outcome == RoomNotFound(roomSlug, Summaries(doc.hotel.rooms)) && outcome.Status() == 404
        && store.records == old(store.records)
      case Some(k) =>
        && store.records == old(store.records)[hotelId := doc.(hotel := WithRoomImage(doc.hotel, k, RoomImageUrl(file.value)))]
        && outcome == RoomImageUpdated(RoomImageUrl(file.value)) && outcome.Status() == 200
  {
    if hotelId !in store.records {
      return HotelNotFound;
    }
    if file.None? {
      return NoImageFile;
    }
    var imageUrl := RoomImageUrl(file.value);
    var doc := store.records[hotelId];
    var updated, hotel := UpdateRoomImage(doc.hotel, roomSlug, imageUrl);
    if !updated {
      return RoomNotFound(roomSlug, Summaries(doc.hotel.rooms));
    }
    store.Write(hotelId, doc.(hotel := hotel));
    outcome := RoomImageUpdated(imageUrl);
  }

  /** uploadRoomImage: the route slug loses one trailing slash and is trimmed; a
      non-numeric id is refused before anything else is looked at. */
  method UploadRoomImage(store: Store, hotelIdParam: string, roomSlugParam: string, file: Option<UploadedFile>)
    returns (outcome: RoomImageOutcome)
    requires store.Wf()
    modifies store
    ensures store.Wf() && store.listing == old(store.listing)
    ensures old(store.Valid()) ==> store.Valid()
    ensures ParseInt(hotelIdParam).None? ==>
      outcome == InvalidHotelId && outcome.Status() == 400 && store.records == old(store.records)
    ensures ParseInt(hotelIdParam).Some? ==>
      var hotelId := ParseInt(hotelIdParam).value;
      var roomSlug := RouteRoomSlug(roomSlugParam);
      && (hotelId !in old(store.records) ==>
            outcome == HotelNotFound && outcome.Status() == 404 && store.records == old(store.records))
      && (hotelId in old(store.records) && file.None? ==>
            outcome == NoImageFile && outcome.Status() == 400 && store.records == old(store.records))
      && (hotelId in old(store.records) && file.Some? ==>
            var doc := old(store.records)[hotelId];
            match FirstRoomIndex(doc.hotel.rooms, RoomKey(roomSlug))
            case None =>
              && outcome == RoomNotFound(roomSlug, Summaries(doc.hotel.rooms)) && outcome.Status() == 404
              && store.records == old(store.records)
            case Some(k) =>
              && store.records == old(store.records)[hotelId := doc.(hotel := WithRoomImage(doc.hotel, k, RoomImageUrl(file.value)))]
              && outcome == RoomImageUpdated(RoomImageUrl(file.value)) && outcome.Status() == 200)
  {
    var parsed := ParseInt(hotelIdParam);
    var roomSlug := RouteRoomSlug(roomSlugParam);
    if parsed.None? {
      return InvalidHotelId;
    }
    outcome := UploadRoomImageById(store, parsed.value, roomSlug, file);
  }
}
