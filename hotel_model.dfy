/** The Hotel and Room records, the request body of a create or update, and the
    field-level logic the hotel controller applies to them: the required-field check,
    the record a creation builds, the shallow merge of an update, and the projection
    that puts a stored record into the response layout. */
module HotelModel {
  import opened Wrappers

  datatype Room = Room(
    hotelSlug: string,
    roomSlug: string,
    roomImage: string,
    roomTitle: string,
    bedroomCount: int)

  /** The fields of the Hotel interface. Latitude and longitude are only carried. */
  datatype Hotel = Hotel(
    id: int,
    slug: string,
    images: seq<string>,
    title: string,
    description: string,
    guestCount: int,
    bedroomCount: int,
    bathroomCount: int,
    amenities: seq<string>,
    hostInfo: string,
    address: string,
    latitude: real,
    longitude: real,
    rooms: seq<Room>)

  /** JSON keys of a stored record that are not fields of the Hotel interface,
      with their values kept as opaque serialized text. */
  type Extras = map<string, string>

  /** One hotel file: the Hotel fields plus whatever other keys the request bodies
      spread into it. */
  datatype HotelDocument = HotelDocument(hotel: Hotel, extra: Extras)

  /** A JSON request body: every Hotel field may be absent. */
  datatype HotelInput = HotelInput(
    id: Option<int>,
    slug: Option<string>,
    images: Option<seq<string>>,
    title: Option<string>,
    description: Option<string>,
    guestCount: Option<int>,
    bedroomCount: Option<int>,
    bathroomCount: Option<int>,
    amenities: Option<seq<string>>,
    hostInfo: Option<string>,
    address: Option<string>,
    latitude: Option<real>,
    longitude: Option<real>,
    rooms: Option<seq<Room>>,
    extra: Extras)

  /** A file as the upload middleware saved it; only its stored name matters here. */
  datatype UploadedFile = UploadedFile(filename: string)

  /** The fields createHotel insists on. */
  datatype Field =
    | Title | Description | GuestCount | BedroomCount | BathroomCount | Amenities
    | HostInfo | Address | Latitude | Longitude | Rooms

  /** The order in which createHotel checks them. */
  const RequiredFields: seq<Field> :=
    [Title, Description, GuestCount, BedroomCount, BathroomCount, Amenities,
     HostInfo, Address, Latitude, Longitude, Rooms]

  /** The JSON key of a field, as the error message names it. */
  function FieldName(f: Field): string {
    match f
    case Title => "title"
    case Description => "description"
    case GuestCount => "guestCount"
    case BedroomCount => "bedroomCount"
    case BathroomCount => "bathroomCount"
    case Amenities => "amenities"
    case HostInfo => "hostInfo"
    case Address => "address"
    case Latitude => "latitude"
    case Longitude => "longitude"
    case Rooms => "rooms"
  }

  /** `field in hotel` for the object built from the body. */
  predicate Present(body: HotelInput, f: Field) {
    match f
    case Title => body.title.Some?
    case Description => body.description.Some?
    case GuestCount => body.guestCount.Some?
    case BedroomCount => body.bedroomCount.Some?
    case BathroomCount => body.bathroomCount.Some?
    case Amenities => body.amenities.Some?
    case HostInfo => body.hostInfo.Some?
    case Address => body.address.Some?
    case Latitude => body.latitude.Some?
    case Longitude => body.longitude.Some?
    case Rooms => body.rooms.Some?
  }

  /** The first field of `fields` the body lacks, if any. */
  function FirstAbsent(body: HotelInput, fields: seq<Field>): (r: Option<Field>)
    ensures r.None? <==> forall i :: 0 <= i < |fields| ==> Present(body, fields[i])
    ensures r.Some? ==> r.value in fields && !Present(body, r.value)
  {
    if fields == [] then None
    else if !Present(body, fields[0]) then Some(fields[0])
    else FirstAbsent(body, fields[1..])
  }

  /** The field FirstAbsent reports is the absent one that comes first. */
  lemma {:induction false} FirstAbsentIsFirst(body: HotelInput, fields: seq<Field>, k: nat)
    requires k < |fields| && !Present(body, fields[k])
    requires forall j :: 0 <= j < k ==> Present(body, fields[j])
    ensures FirstAbsent(body, fields) == Some(fields[k])
  {
    if k > 0 {
      FirstAbsentIsFirst(body, fields[1..], k - 1);
    }
  }

  /** A body that passes the required-field check. */
  predicate Complete(body: HotelInput) {
    FirstAbsent(body, RequiredFields).None?
  }

  /** The required-field check passes exactly when all eleven fields are given. */
  lemma CompleteIffEveryField(body: HotelInput)
    ensures Complete(body) <==>
      && body.title.Some? && body.description.Some? && body.guestCount.Some?
      && body.bedroomCount.Some? && body.bathroomCount.Some? && body.amenities.Some?
      && body.hostInfo.Some? && body.address.Some? && body.latitude.Some?
      && body.longitude.Some? && body.rooms.Some?
  {
    var fields := RequiredFields;
    if Complete(body) {
      assert Present(body, fields[0]) && Present(body, fields[1]) && Present(body, fields[2]);
      assert Present(body, fields[3]) && Present(body, fields[4]) && Present(body, fields[5]);
      assert Present(body, fields[6]) && Present(body, fields[7]) && Present(body, fields[8]);
      assert Present(body, fields[9]) && Present(body, fields[10]);
    }
  }

  /** The record createHotel builds: the body's fields, the allocated id in place of
      any id in the body, the derived slug, and `images` defaulting to empty. */
  function NewHotel(body: HotelInput, id: int, slug: string): (h: Hotel)
    requires Complete(body)
    ensures h.id == id && h.slug == slug
    ensures h.images == if body.images.Some? then body.images.value else []
    ensures Some(h.title) == body.title && Some(h.description) == body.description
    ensures Some(h.guestCount) == body.guestCount && Some(h.bedroomCount) == body.bedroomCount
    ensures Some(h.bathroomCount) == body.bathroomCount && Some(h.amenities) == body.amenities
    ensures Some(h.hostInfo) == body.hostInfo && Some(h.address) == body.address
    ensures Some(h.latitude) == body.latitude && Some(h.longitude) == body.longitude
    ensures Some(h.rooms) == body.rooms
  {
    CompleteIffEveryField(body);
    Hotel(id, slug, body.images.GetOr([]), body.title.value, body.description.value,
          body.guestCount.value, body.bedroomCount.value, body.bathroomCount.value,
          body.amenities.value, body.hostInfo.value, body.address.value,
          body.latitude.value, body.longitude.value, body.rooms.value)
  }

  /** `{...existing, ...body, id: hotelId, images: body.images || existing.images || []}`
      restricted to the Hotel fields. */
  function MergeHotel(existing: Hotel, body: HotelInput, hotelId: int): Hotel {
    Hotel(hotelId,
          body.slug.GetOr(existing.slug),
          body.images.GetOr(existing.images),
          body.title.GetOr(existing.title),
          body.description.GetOr(existing.description),
          body.guestCount.GetOr(existing.guestCount),
          body.bedroomCount.GetOr(existing.bedroomCount),
          body.bathroomCount.GetOr(existing.bathroomCount),
          body.amenities.GetOr(existing.amenities),
          body.hostInfo.GetOr(existing.hostInfo),
          body.address.GetOr(existing.address),
          body.latitude.GetOr(existing.latitude),
          body.longitude.GetOr(existing.longitude),
          body.rooms.GetOr(existing.rooms))
  }

  /** An empty body changes nothing but the id, and overlaying the same body twice is
      overlaying it once. */
  lemma MergeHotelLaws(existing: Hotel, body: HotelInput, hotelId: int)
    ensures var empty := HotelInput(None, None, None, None, None, None, None, None, None,
                                    None, None, None, None, None, map[]);
            MergeHotel(existing, empty, hotelId) == existing.(id := hotelId)
    ensures MergeHotel(MergeHotel(existing, body, hotelId), body, hotelId)
         == MergeHotel(existing, body, hotelId)
  {
  }

  /** reorderHotelProperties: the response carries exactly the Hotel fields of the
      stored record and none of its other keys. */
  function Reorder(d: HotelDocument): Hotel {
    d.hotel
  }
}
