/** The gallery controller: append uploaded pictures to a hotel's `images`. */
module ImageController {
  import opened Wrappers
  import opened JsText
  import opened HotelModel
  import opened HotelFiles
  import HotelController

  /** What the upload middleware left on the request: an array of files, one file,
      or neither. */
  datatype Uploads =
    | FileArray(files: seq<UploadedFile>)
    | SingleFile(file: UploadedFile)
    | NoUpload

  const BaseUrl: string := "http://localhost:3000/images"

  function ImageUrl(file: UploadedFile): string {
    BaseUrl + "/" + file.filename
  }

  /** `files.map(file => `${baseUrl}/${file.filename}`)`. */
  function ImageUrls(files: seq<UploadedFile>): (r: seq<string>)
    ensures |r| == |files|
    ensures forall i :: 0 <= i < |files| ==> r[i] == ImageUrl(files[i])
  {
    if files == [] then [] else [ImageUrl(files[0])] + ImageUrls(files[1..])
  }

  /** The URLs an upload adds, in upload order. */
  function UploadedUrls(uploads: Uploads): (r: seq<string>)
    ensures |r| == match uploads
                   case FileArray(files) => |files|
                   case SingleFile(_) => 1
                   case NoUpload => 0
  {
    match uploads
    case FileArray(files) => ImageUrls(files)
    case SingleFile(file) => [ImageUrl(file)]
    case NoUpload => []
  }

  /** `hotel.images.push(...urls)`: the old pictures, then one URL per uploaded file
      in upload order. */
  method AppendImageUrls(images: seq<string>, files: seq<UploadedFile>) returns (result: seq<string>)
    ensures result == images + ImageUrls(files)
  {
    result := images;
    for i := 0 to |files|
      invariant result == images + ImageUrls(files[..i])
    {
      assert ImageUrls(files[..i + 1]) == ImageUrls(files[..i]) + [ImageUrl(files[i])];
      result := result + [ImageUrl(files[i])];
    }
    assert files[..|files|] == files;
  }

  /** The hotel uploadImage works on: by id alone when the identifier parses as a
      number, by slug alone otherwise. */
  function ResolveForUpload(records: map<int, HotelDocument>, listing: seq<int>, identifier: string)
    : Option<HotelDocument>
    requires Covers(records, listing)
  {
    match ParseInt(identifier)
    case Some(id) => if id in records then Some(records[id]) else None
    case None => HotelController.FirstSlugMatch(records, listing, identifier)
  }

  /** Whatever the gallery upload finds, getHotel finds too; the converse fails only
      for a numeric identifier naming no file, where getHotel still tries it as a slug. */
  lemma UploadResolvesLikeGet(records: map<int, HotelDocument>, listing: seq<int>, identifier: string)
    requires Covers(records, listing)
    ensures ResolveForUpload(records, listing, identifier).Some? ==>
            HotelController.ResolveForGet(records, listing, identifier) == ResolveForUpload(records, listing, identifier)
    ensures ResolveForUpload(records, listing, identifier).None? && HotelController.ResolveForGet(records, listing, identifier).Some?
        <==> (&& ParseInt(identifier).Some? && ParseInt(identifier).value !in records
              && HotelController.FirstSlugMatch(records, listing, identifier).Some?)
  {
  }

  datatype UploadOutcome = ImagesUploaded(images: seq<string>) | HotelNotFound {
    function Status(): int {
      if ImagesUploaded? then 200 else 404
    }
  }

  /** The lookup of uploadImage: by id alone when the identifier parses as a number,
      by slug alone otherwise. */
  method FindUploadTarget(store: Store, identifier: string) returns (hotel: Option<HotelDocument>)
    requires store.Wf()
    ensures hotel == ResolveForUpload(store.records, store.listing, identifier)
  {
    hotel := None;
    var hotelId := ParseInt(identifier);
    if hotelId.Some? {
      if hotelId.value in store.records {
        hotel := Some(store.records[hotelId.value]);
      }
    } else {
      hotel := HotelController.FindHotelBySlug(store, identifier);
    }
  }

  /** The picture list after an upload: the file array's URLs, else the single
      file's URL, else nothing, appended in order. */
  method AddUploadedImages(images: seq<string>, uploads: Uploads) returns (result: seq<string>)
    ensures result == images + UploadedUrls(uploads)
  {
    match uploads {
      case FileArray(files) =>
        result := AppendImageUrls(images, files);
      case SingleFile(file) =>
        result := images + [ImageUrl(file)];
      case NoUpload =>
        result := images;
        assert images + [] == images;
    }
  }

  /** uploadImage: resolve the hotel, append the uploaded URLs to its pictures and
      write the record back to the file named by its recorded id. */
  method UploadImage(store: Store, identifier: string, uploads: Uploads) returns (outcome: UploadOutcome)
    requires store.Wf()
    modifies store
    ensures store.Wf()
    ensures old(store.Valid()) ==> store.Valid() && store.listing == old(store.listing)
    ensures ResolveForUpload(old(store.records), old(store.listing), identifier).None? ==>
      && outcome == HotelNotFound && outcome.Status() == 404
      && store.records == old(store.records) && store.listing == old(store.listing)
    ensures ResolveForUpload(old(store.records), old(store.listing), identifier).Some? ==>
      var doc := ResolveForUpload(old(store.records), old(store.listing), identifier).value;
      var images := doc.hotel.images + UploadedUrls(uploads);
      && store.records == old(store.records)[doc.hotel.id := doc.(hotel := doc.hotel.(images := images))]
      && store.listing == (if doc.hotel.id in old(store.records) then old(store.listing)
                           else old(store.listing) + [doc.hotel.id])
      && outcome == ImagesUploaded(images) && outcome.Status() == 200
  {
    var hotel := FindUploadTarget(store, identifier);
    if hotel.None? {
      return HotelNotFound;
    }
    var doc := hotel.value;
    var images := AddUploadedImages(doc.hotel.images, uploads);
    doc := doc.(hotel := doc.hotel.(images := images));
    store.Write(doc.hotel.id, doc);
    outcome := ImagesUploaded(images);
  }
}
