/** The "locations" collection as a sequence of documents in storage (natural) order, and
    what each MongoDB call of the cache does to it: `findOne`, `updateOne` and `deleteOne`
    act on the first document the location query selects, `insertOne` appends, and the
    freshness aggregation scans every document. */
module Collection {
  import opened Records
  import opened Matching
  import opened Freshness

  /** Position of the first document whose `location` the query selects. */
  function FirstMatch(docs: seq<Doc>, query: string): (r: Option<nat>)
    ensures r.Some? ==> r.value < |docs| && Matches(query, docs[r.value].location)
    ensures r.Some? ==> forall j :: 0 <= j < r.value ==> !Matches(query, docs[j].location)
    ensures r.None? <==> forall j :: 0 <= j < |docs| ==> !Matches(query, docs[j].location)
  {
    if |docs| == 0 then None
    else if Matches(query, docs[0].location) then Some(0)
    else match FirstMatch(docs[1..], query)
      case None => None
      case Some(k) => Some(k + 1)
  }

  /** Lookups see only the `location` fields, so two collections that agree on them,
      position by position, answer every query alike. */
  lemma {:induction false} SameLocationsSameLookup(a: seq<Doc>, b: seq<Doc>, query: string)
    requires |a| == |b|
    requires forall i :: 0 <= i < |a| ==> a[i].location == b[i].location
    ensures FirstMatch(a, query) == FirstMatch(b, query)
  {
    if |a| != 0 {
      SameLocationsSameLookup(a[1..], b[1..], query);
    }
  }

  /** Lookup ignores the letter case of the query. */
  lemma {:induction false} LookupIgnoresCase(docs: seq<Doc>, q1: string, q2: string)
    requires Lower(q1) == Lower(q2)
    ensures FirstMatch(docs, q1) == FirstMatch(docs, q2)
  {
    if |docs| != 0 {
      LookupIgnoresCase(docs[1..], q1, q2);
    }
  }

  /** `updateOne({location}, {$push: {data: {$each: readings, $position: 0}}})`. */
  function Prepended(docs: seq<Doc>, query: string, readings: seq<Reading>): seq<Doc>
  {
    match FirstMatch(docs, query)
    case None => docs
    case Some(k) => docs[k := docs[k].(data := readings + docs[k].data)]
  }

  /** Prepending puts the new readings, in their given order, in front of the first
      selected document's readings, which follow unchanged; every other document and
      every field other than `data` is kept; with no selected document nothing changes. */
  lemma PrependedSpec(docs: seq<Doc>, query: string, readings: seq<Reading>)
    ensures var r := Prepended(docs, query, readings);
      && |r| == |docs|
      && (forall i :: 0 <= i < |r| ==> r[i].location == docs[i].location && r[i].extra == docs[i].extra)
      && (FirstMatch(docs, query).None? ==> r == docs)
      && (FirstMatch(docs, query).Some? ==>
            var k := FirstMatch(docs, query).value;
            && |r[k].data| == |readings| + |docs[k].data|
            && r[k].data[..|readings|] == readings
            && r[k].data[|readings|..] == docs[k].data
            && forall i :: 0 <= i < |r| && i != k ==> r[i] == docs[i])
  {
  }

  /** Prepending leaves every lookup where it was. */
  lemma PrependedKeepsLookup(docs: seq<Doc>, query: string, readings: seq<Reading>, other: string)
    ensures FirstMatch(Prepended(docs, query, readings), other) == FirstMatch(docs, other)
  {
    SameLocationsSameLookup(Prepended(docs, query, readings), docs, other);
  }

  /** `deleteOne({location})`. */
  function Deleted(docs: seq<Doc>, query: string): seq<Doc>
  {
    match FirstMatch(docs, query)
    case None => docs
    case Some(k) => docs[..k] + docs[k + 1..]
  }

  /** Deleting removes exactly the first selected document and keeps the others in order. */
  lemma DeletedSpec(docs: seq<Doc>, query: string)
    ensures var r := Deleted(docs, query);
      && (FirstMatch(docs, query).None? ==> r == docs)
      && (FirstMatch(docs, query).Some? ==>
            var k := FirstMatch(docs, query).value;
            && |r| == |docs| - 1
            && (forall i :: 0 <= i < k ==> r[i] == docs[i])
            && (forall i :: k <= i < |r| ==> r[i] == docs[i + 1])
            && multiset(r) + multiset{docs[k]} == multiset(docs))
  {
    if FirstMatch(docs, query).Some? {
      var k := FirstMatch(docs, query).value;
      assert docs == docs[..k] + [docs[k]] + docs[k + 1..];
    }
  }

  /** When a single document is selected, a lookup after the delete finds nothing. */
  lemma DeleteOnlyMatchLeavesNone(docs: seq<Doc>, query: string)
    requires forall i, j :: 0 <= i < j < |docs| && Matches(query, docs[i].location) ==> !Matches(query, docs[j].location)
    ensures FirstMatch(Deleted(docs, query), query).None?
  {
    DeletedSpec(docs, query);
  }

  /** When two documents are selected, a delete removes the first and a lookup then
      finds the second: one delete does not remove every document of a location. */
  lemma DeleteExposesNextMatch(docs: seq<Doc>, query: string, j: nat)
    requires FirstMatch(docs, query).Some? && FirstMatch(docs, query).value < j < |docs|
    requires Matches(query, docs[j].location)
    requires forall m :: FirstMatch(docs, query).value < m < j ==> !Matches(query, docs[m].location)
    ensures FirstMatch(Deleted(docs, query), query) == Some(j - 1)
  {
    DeletedSpec(docs, query);
    var k := FirstMatch(docs, query).value;
    var r := Deleted(docs, query);
    assert r[j - 1] == docs[j];
    forall m | 0 <= m < j - 1
      ensures !Matches(query, r[m].location)
    {
      if m < k {
        assert r[m] == docs[m];
      } else {
        assert r[m] == docs[m + 1];
      }
    }
    FirstMatchAt(r, query, j - 1);
  }

  /** A position characterizes the first match. */
  lemma FirstMatchAt(docs: seq<Doc>, query: string, k: nat)
    requires k < |docs| && Matches(query, docs[k].location)
    requires forall j :: 0 <= j < k ==> !Matches(query, docs[j].location)
    ensures FirstMatch(docs, query) == Some(k)
  {
  }

  /** `$set: fields` on one document: listed top-level fields are overwritten, all others kept. */
  function SetFields(d: Doc, fields: Fields): Doc
  {
    Doc(fields.location,
        if fields.data.Some? then fields.data.value else d.data,
        d.extra + fields.extra)
  }

  /** `updateOne({location: fields.location}, {$set: fields})`. */
  function Patched(docs: seq<Doc>, fields: Fields): seq<Doc>
  {
    match FirstMatch(docs, fields.location)
    case None => docs
    case Some(k) => docs[k := SetFields(docs[k], fields)]
  }

  /** An update overwrites exactly the fields its payload lists, on the first selected
      document only; fields the payload leaves out keep their values, and with no
      selected document nothing changes. */
  lemma PatchedSpec(docs: seq<Doc>, fields: Fields)
    ensures var r := Patched(docs, fields);
      && |r| == |docs|
      && (FirstMatch(docs, fields.location).None? ==> r == docs)
      && (FirstMatch(docs, fields.location).Some? ==>
            var k := FirstMatch(docs, fields.location).value;
            && (forall i :: 0 <= i < |r| && i != k ==> r[i] == docs[i])
            && r[k].location == fields.location
            && (fields.data.Some? ==> r[k].data == fields.data.value)
            && (fields.data.None? ==> r[k].data == docs[k].data)
            && r[k].extra.Keys == docs[k].extra.Keys + fields.extra.Keys
            && (forall key :: key in fields.extra ==> r[k].extra[key] == fields.extra[key])
            && (forall key :: key in docs[k].extra && key !in fields.extra ==> r[k].extra[key] == docs[k].extra[key]))
  {
  }

  /** Repeating an update changes nothing more: the updated document carries the
      payload's own location, so the second update selects it again. */
  lemma PatchedIdempotent(docs: seq<Doc>, fields: Fields)
    ensures Patched(Patched(docs, fields), fields) == Patched(docs, fields)
  {
    if FirstMatch(docs, fields.location).Some? {
      var k := FirstMatch(docs, fields.location).value;
      var once := Patched(docs, fields);
      SameNameMatches(fields.location, fields.location);
      FirstMatchAt(once, fields.location, k);
      var d := SetFields(docs[k], fields);
      assert d.extra + fields.extra == d.extra;
      assert SetFields(d, fields) == d;
    }
  }

  /** The document that an update selects takes the query's spelling of the name:
      updating with "london" renames "London". */
  lemma PatchedRenames(docs: seq<Doc>, fields: Fields)
    requires FirstMatch(docs, fields.location).Some?
    ensures Patched(docs, fields)[FirstMatch(docs, fields.location).value].location == fields.location
  {
  }

  /** The aggregation's `$match`: the location is selected and the newest reading exists
      and is fresh. A document with no readings has no `$first` timestamp and never
      passes `$lt`. */
  predicate Qualifies(d: Doc, query: string, now: int, minutes: int)
  {
    Matches(query, d.location) && |d.data| > 0 && IsFresh(now, d.data[0].timestamp, minutes)
  }

  /** Position of the last qualifying document in scan order. */
  function LastFresh(docs: seq<Doc>, query: string, now: int, minutes: int): (r: Option<nat>)
    ensures r.Some? ==> r.value < |docs| && Qualifies(docs[r.value], query, now, minutes)
    ensures r.Some? ==> forall j :: r.value < j < |docs| ==> !Qualifies(docs[j], query, now, minutes)
    ensures r.None? <==> forall j :: 0 <= j < |docs| ==> !Qualifies(docs[j], query, now, minutes)
    decreases |docs|
  {
    if |docs| == 0 then None
    else if Qualifies(docs[|docs| - 1], query, now, minutes) then Some(|docs| - 1)
    else LastFresh(docs[..|docs| - 1], query, now, minutes)
  }

  /** The document rebuilt from the projected fields: its location and a single reading
      whose `timestamp` holds the age in minutes. */
  function Projected(d: Doc, now: int): Doc
    requires |d.data| > 0
  {
    Doc(d.location, [d.data[0].(timestamp := AgeMinutes(now, d.data[0].timestamp))], map[])
  }

  /** The value `checkLocationMinutes` resolves to: the last qualifying document,
      projected, or none. */
  function FreshHit(docs: seq<Doc>, query: string, now: int, minutes: int): (r: Option<Doc>)
    ensures r.None? <==> forall j :: 0 <= j < |docs| ==> !Qualifies(docs[j], query, now, minutes)
    ensures r.Some? ==>
      exists i :: (0 <= i < |docs| && Qualifies(docs[i], query, now, minutes)
        && r.value == Projected(docs[i], now)
        && forall j :: i < j < |docs| ==> !Qualifies(docs[j], query, now, minutes))
    ensures r.Some? ==>
      (|r.value.data| == 1 && r.value.data[0].timestamp < minutes as real
        && Matches(query, r.value.location))
  {
    match LastFresh(docs, query, now, minutes)
    case None => None
    case Some(k) => Some(Projected(docs[k], now))
  }

  /** The one write of a cache miss: the record's readings are prepended to the document
      its location selects, or the record becomes a new document when none is selected. */
  function Upserted(docs: seq<Doc>, record: Doc): seq<Doc>
  {
    if FirstMatch(docs, record.location).Some? then Prepended(docs, record.location, record.data)
    else docs + [record]
  }

  /** The window holds for every later request: after a miss at `t` writes a record
      stamped `t`, a scan for the same name at any `t2` in `[t, t + minutes)` minutes
      hits, and the last fresh document it finds has the written reading as its newest.
      No older document can be found instead, because nothing qualified at `t` and a
      stale reading stays stale. */
  lemma {:induction false} WrittenRecordServedWithinWindow(docs: seq<Doc>, record: Doc, t: int, t2: int, minutes: int)
    requires |record.data| > 0 && record.data[0].timestamp == t as real
    requires LastFresh(docs, record.location, t, minutes).None?
    requires t <= t2 < t + minutes * MS_PER_MINUTE
    ensures var after := Upserted(docs, record);
      var hit := LastFresh(after, record.location, t2, minutes);
      hit.Some? && after[hit.value].data[0] == record.data[0]
  {
    var q := record.location;
    var after := Upserted(docs, record);
    FreshIffWithinWindow(t2, t, minutes);
    var j: nat;
    if FirstMatch(docs, q).Some? {
      j := FirstMatch(docs, q).value;
      PrependedSpec(docs, q, record.data);
      assert after[j].data[..|record.data|] == record.data;
      assert after[j].data[0] == record.data[0];
    } else {
      j := |docs|;
      SameNameMatches(q, q);
    }
    assert Qualifies(after[j], q, t2, minutes);
    forall i | j < i < |after|
      ensures !Qualifies(after[i], q, t2, minutes)
    {
      assert after[i] == docs[i];
      assert !Qualifies(docs[i], q, t, minutes);
      if Matches(q, docs[i].location) && |docs[i].data| > 0 {
        StaleStaysStale(t, t2, docs[i].data[0].timestamp, minutes);
      }
    }
    var hit := LastFresh(after, q, t2, minutes);
    assert hit.Some? && hit.value == j;
  }

  /** A miss's write keeps at most one document per name. */
  lemma UpsertKeepsUnique(docs: seq<Doc>, record: Doc)
    requires Unique(docs)
    ensures Unique(Upserted(docs, record))
  {
    if FirstMatch(docs, record.location).Some? {
      PrependKeepsUnique(docs, record.location, record.data);
    } else {
      CreateKeepsUnique(docs, record);
    }
  }

  /** At most one document per location name, letter case aside. */
  ghost predicate Unique(docs: seq<Doc>)
  {
    forall i, j :: 0 <= i < j < |docs| ==> Lower(docs[i].location) != Lower(docs[j].location)
  }

  /** Creating a document for a name that selects nothing keeps names unique. */
  lemma CreateKeepsUnique(docs: seq<Doc>, d: Doc)
    requires Unique(docs)
    requires FirstMatch(docs, d.location).None?
    ensures Unique(docs + [d])
  {
    forall i | 0 <= i < |docs|
      ensures Lower(docs[i].location) != Lower(d.location)
    {
      if Lower(docs[i].location) == Lower(d.location) {
        SameNameMatches(d.location, docs[i].location);
      }
    }
  }

  lemma PrependKeepsUnique(docs: seq<Doc>, query: string, readings: seq<Reading>)
    requires Unique(docs)
    ensures Unique(Prepended(docs, query, readings))
  {
    PrependedSpec(docs, query, readings);
  }

  lemma DeleteKeepsUnique(docs: seq<Doc>, query: string)
    requires Unique(docs)
    ensures Unique(Deleted(docs, query))
  {
    DeletedSpec(docs, query);
    var r := Deleted(docs, query);
    if FirstMatch(docs, query).Some? {
      var k := FirstMatch(docs, query).value;
      forall i, j | 0 <= i < j < |r|
        ensures Lower(r[i].location) != Lower(r[j].location)
      {
        var i', j' := if i < k then i else i + 1, if j < k then j else j + 1;
        assert r[i] == docs[i'] && r[j] == docs[j'];
      }
    }
  }

  /** Because lookups search for the name inside the stored location, a reading for
      "York" is prepended to the document of "New York". */
  lemma YorkReadingGoesToNewYork(data: seq<Reading>, extra: map<FieldName, Value>, readings: seq<Reading>)
    ensures Prepended([Doc("New York", data, extra)], "York", readings) == [Doc("New York", readings + data, extra)]
  {
    assert "New " + "York" + "" == "New York";
    ContainedNameMatches("New ", "York", "");
  }

  /** An update can break the one-document-per-name property: updating with location
      "York" selects "New York" first and renames it, next to the existing "York". */
  lemma UpdateCanDuplicateName()
    ensures var docs := [Doc("New York", [], map[]), Doc("York", [], map[])];
      Unique(docs) && !Unique(Patched(docs, Fields("York", None, map[])))
  {
    var docs := [Doc("New York", [], map[]), Doc("York", [], map[])];
    var fields := Fields("York", None, map[]);
    assert Unique(docs) by {
      assert |Lower(docs[0].location)| == 8;
    }
    assert FirstMatch(docs, "York") == Some(0) by {
      assert "New " + "York" + "" == "New York";
      ContainedNameMatches("New ", "York", "");
      FirstMatchAt(docs, "York", 0);
    }
    var r := Patched(docs, fields);
    assert r == docs[0 := SetFields(docs[0], fields)];
    assert r[0].location == r[1].location;
  }

}
