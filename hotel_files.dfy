/** The hotels directory: one JSON file per hotel, named by its numeric id. Reading a
    file is reading `records[id]`; the directory listing is `listing`. */
module HotelFiles {
  import opened HotelModel

  /** Every id of `ids` names a file. */
  ghost predicate Covers(records: map<int, HotelDocument>, ids: seq<int>) {
    forall i :: 0 <= i < |ids| ==> ids[i] in records
  }

  /** `listing` lists every file exactly once. */
  ghost predicate Enumerates(records: map<int, HotelDocument>, listing: seq<int>) {
    && (forall i, j :: 0 <= i < j < |listing| ==> listing[i] != listing[j])
    && Covers(records, listing)
    && (forall k :: k in records ==> k in listing)
  }

  /** The name of every file agrees with the id recorded inside it. */
  ghost predicate KeysMatchIds(records: map<int, HotelDocument>) {
    forall k :: k in records ==> records[k].hotel.id == k
  }

  class Store {
    var records: map<int, HotelDocument>
    var listing: seq<int>

    ghost predicate Wf()
      reads this
    {
      Enumerates(records, listing)
    }

    ghost predicate Valid()
      reads this
    {
      Wf() && KeysMatchIds(records)
    }

    /** A directory holding the given files, listed in the given order. */
    constructor (files: map<int, HotelDocument>, order: seq<int>)
      requires Enumerates(files, order)
      ensures Wf() && records == files && listing == order
    {
      records := files;
      listing := order;
    }

    /** `fs.writeFileSync(getHotelFilePath(key), ...)`: overwrites the file, or adds it
        (at the end of the listing) when there was none. */
    method Write(key: int, doc: HotelDocument)
      requires Wf()
      modifies this
      ensures Wf()
      ensures records == old(records)[key := doc]
      ensures listing == if key in old(records) then old(listing) else old(listing) + [key]
    {
      if key !in records {
        listing := listing + [key];
      }
      records := records[key := doc];
    }
  }
}
