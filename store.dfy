/** The cache's store operations, one method per function of the service, over the
    "locations" collection held in place as a sequence of documents. */
module Store {
  import opened Records
  import opened Matching
  import opened Freshness
  import opened Collection

  class Locations {
    /** The documents of the collection in natural order. */
    var docs: seq<Doc>

    constructor ()
      ensures docs == []
    {
      docs := [];
    }

    /** `insertLocation`: prepends `record.data` to the first document that
        `record.location` selects; without one (no upsert) nothing changes. */
    method InsertLocation(record: Doc)
      modifies this
      ensures docs == Prepended(old(docs), record.location, record.data)
    {
      docs := Prepended(docs, record.location, record.data);
    }

    /** `createLocation`: `insertOne` appends the record as a new document, whether or
        not a document for the same location exists. */
    method CreateLocation(record: Doc)
      modifies this
      ensures docs == old(docs) + [record]
      ensures |docs| == |old(docs)| + 1 && docs[..|old(docs)|] == old(docs)
    {
      docs := docs + [record];
    }

    /** `checkLocationMinutes`: scans every document, keeping the last one whose location
        the query selects and whose newest reading is younger than `minutes`, and answers
        it rebuilt as `{location, data: [reading with the age in minutes as timestamp]}`. */
    method CheckLocationMinutes(location: string, minutes: int, now: int) returns (result: Option<Doc>)
      ensures result == FreshHit(docs, location, now, minutes)
      ensures result.None? <==> forall j :: 0 <= j < |docs| ==> !Qualifies(docs[j], location, now, minutes)
      ensures result.Some? ==> |result.value.data| == 1 && result.value.data[0].timestamp < minutes as real
    {
      result := None;
      var i := 0;
      while i < |docs|
        invariant 0 <= i <= |docs|
        invariant result == FreshHit(docs[..i], location, now, minutes)
      {
        var doc := docs[i];
        assert docs[..i + 1][..i] == docs[..i];
        if |doc.data| > 0 {
          var age := AgeMinutes(now, doc.data[0].timestamp);
          if Matches(location, doc.location) && age < minutes as real {
            result := Some(Doc(doc.location, [doc.data[0].(timestamp := age)], map[]));
          }
        }
        i := i + 1;
      }
      assert docs[..i] == docs;
    }

    /** `checkLocation`: `found` tells whether the query selects any document and
        `result` is the first selected one. */
    method CheckLocation(location: string) returns (result: Option<Doc>, found: bool)
      ensures found <==> exists j :: 0 <= j < |docs| && Matches(location, docs[j].location)
      ensures found <==> result.Some?
      ensures found ==> FirstMatch(docs, location).Some? && result.value == docs[FirstMatch(docs, location).value]
    {
      result := GetSingle(location);
      found := result.Some?;
    }

    /** `getSingle` (also `GET /get-single/:location`): the first document the query
        selects, or null. */
    method GetSingle(location: string) returns (result: Option<Doc>)
      ensures result.None? <==> forall j :: 0 <= j < |docs| ==> !Matches(location, docs[j].location)
      ensures result.Some? ==>
        exists k :: (0 <= k < |docs| && result.value == docs[k]
          && Matches(location, docs[k].location)
          && forall j :: 0 <= j < k ==> !Matches(location, docs[j].location))
    {
      match FirstMatch(docs, location)
      case None =>
        result := None;
      case Some(k) =>
        result := Some(docs[k]);
    }

    /** `getAll` (also `GET /`): every document, in natural order. */
    method GetAll() returns (result: seq<Doc>)
      ensures result == docs
    {
      result := docs;
    }

    /** `deleteLocation`: removes the first document the query selects, if any; the
        acknowledgement is always true. */
    method DeleteLocation(location: string) returns (acknowledged: bool)
      modifies this
      ensures docs == Deleted(old(docs), location)
      ensures acknowledged
    {
      docs := Deleted(docs, location);
      acknowledged := true;
    }

    /** `updateLocation`: `$set` of the payload's top-level fields on the first document
        that its `location` selects; the acknowledgement is always true. */
    method UpdateLocation(fields: Fields) returns (acknowledged: bool)
      modifies this
      ensures docs == Patched(old(docs), fields)
      ensures acknowledged
    {
      docs := Patched(docs, fields);
      acknowledged := true;
    }
  }
}
