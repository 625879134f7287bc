/** The request handlers of the cache service and the two helpers that write through
    them. Each handler runs its store calls one after another, with one clock reading
    `now` for the whole request; the provider's answer of `GET /weather/:location` is
    a parameter. */
module Handlers {
  import opened Records
  import opened Matching
  import opened Collection
  import Freshness
  import opened Shaping
  import opened Store

  /** Freshness window of the cache, in minutes. */
  const MINUTES: int := 3

  /** `processData`: builds the one-reading record from the provider's answer and
      prepends it to the existing document (`found`) or creates a new one. */
  method ProcessData(store: Locations, body: ProviderBody, found: bool, now: int) returns (record: Doc)
    modifies store
    ensures record == ProcessedRecord(body, now)
    ensures store.docs == if found then Prepended(old(store.docs), body.name, record.data)
                          else old(store.docs) + [record]
  {
    record := ProcessedRecord(body, now);
    if found {
      store.InsertLocation(record);
    } else {
      store.CreateLocation(record);
    }
  }

  /** `addTimestamp`: stamps the newest posted reading with `now`, then prepends all
      posted readings (`found`) or stores the whole posted document. With no posted
      reading the stamping throws and nothing is written. */
  method AddTimestamp(store: Locations, data: Doc, found: bool, now: int) returns (stamped: Option<Doc>)
    modifies store
    ensures stamped == Stamped(data, now)
    ensures stamped.None? ==> store.docs == old(store.docs)
    ensures stamped.Some? ==>
      store.docs == if found then Prepended(old(store.docs), data.location, stamped.value.data)
                    else old(store.docs) + [stamped.value]
  {
    stamped := Stamped(data, now);
    if stamped.Some? {
      if found {
        store.InsertLocation(stamped.value);
      } else {
        store.CreateLocation(stamped.value);
      }
    }
  }

  /** `GET /weather/:location`, from the provider's answer on: the lookup key is the
      provider's `name`. A fresh hit leaves the store alone and replies with the last
      fresh document's newest reading; a miss does exactly one write, a prepend when a
      document is selected and a create otherwise, and replies with the new reading. */
  method GetWeather(store: Locations, body: ProviderBody, now: int) returns (reply: Summary)
    modifies store
    ensures var hit := LastFresh(old(store.docs), body.name, now, MINUTES);
      hit.Some? ==> store.docs == old(store.docs) && reply == Filter(old(store.docs)[hit.value])
    ensures var record := ProcessedRecord(body, now);
      LastFresh(old(store.docs), body.name, now, MINUTES).None? ==>
        reply == Filter(record) && store.docs == Upserted(old(store.docs), record)
    ensures Unique(old(store.docs)) ==> Unique(store.docs)
  {
    var location := body.name;
    var result := store.CheckLocationMinutes(location, MINUTES, now);
    var existing, found := store.CheckLocation(location);
    if result.Some? {
      FilterOfHit(store.docs[LastFresh(store.docs, location, now, MINUTES).value], now);
      reply := Filter(result.value);
    } else {
      ghost var before := store.docs;
      var record := ProcessData(store, body, found, now);
      reply := Filter(record);
      if Unique(before) {
        UpsertKeepsUnique(before, record);
      }
    }
  }

  /** `POST /`: a fresh hit replies status 1 with the cached reading and writes nothing;
      a miss stamps the posted document and writes it once (prepend or create), replying
      status 0 with the stamped document; a miss with no posted reading throws inside
      the callback, so nothing is written and no reply is sent. */
  method PostLocation(store: Locations, body: Doc, now: int) returns (reply: PostReply)
    modifies store
    ensures var hit := LastFresh(old(store.docs), body.location, now, MINUTES);
      hit.Some? ==> store.docs == old(store.docs) && reply == CachedReply(Filter(old(store.docs)[hit.value]))
    ensures LastFresh(old(store.docs), body.location, now, MINUTES).None? && |body.data| == 0 ==>
      store.docs == old(store.docs) && reply == NoReply
    ensures var stamped := Stamped(body, now);
      LastFresh(old(store.docs), body.location, now, MINUTES).None? && |body.data| > 0 ==>
        reply == StoredReply(stamped.value) && store.docs == Upserted(old(store.docs), stamped.value)
    ensures Unique(old(store.docs)) ==> Unique(store.docs)
  {
    var location := body.location;
    var result := store.CheckLocationMinutes(location, MINUTES, now);
    var existing, found := store.CheckLocation(location);
    if result.Some? {
      FilterOfHit(store.docs[LastFresh(store.docs, location, now, MINUTES).value], now);
      reply := CachedReply(Filter(result.value));
    } else {
      ghost var before := store.docs;
      var stamped := AddTimestamp(store, body, found, now);
      if stamped.None? {
        reply := NoReply;
      } else {
        reply := StoredReply(stamped.value);
        if Unique(before) {
          UpsertKeepsUnique(before, stamped.value);
        }
      }
    }
  }

  /** Within the window a GET repeats the reading a miss stored: after a miss at `t`,
      a GET for the same provider name at any `t2` with `t <= t2 < t + 3` minutes hits,
      and its reply shows the provider values stored at `t`, under the location of the
      document that received them. */
  lemma GetWithinWindowServesStored(docs: seq<Doc>, body: ProviderBody, t: int, t2: int)
    requires LastFresh(docs, body.name, t, MINUTES).None?
    requires t <= t2 < t + MINUTES * Freshness.MS_PER_MINUTE
    ensures var after := Upserted(docs, ProcessedRecord(body, t));
      var hit := LastFresh(after, body.name, t2, MINUTES);
      && hit.Some?
      && Filter(after[hit.value]) ==
           Summary(after[hit.value].location, Celsius(body.kelvin), body.humidity, body.windSpeed, body.pressure)
  {
    WrittenRecordServedWithinWindow(docs, ProcessedRecord(body, t), t, t2, MINUTES);
  }

  /** Within the window a POST for the same location is answered from the cache with the
      newest reading a missed POST stored at `t`. */
  lemma PostWithinWindowServesStored(docs: seq<Doc>, body: Doc, t: int, t2: int)
    requires |body.data| > 0
    requires LastFresh(docs, body.location, t, MINUTES).None?
    requires t <= t2 < t + MINUTES * Freshness.MS_PER_MINUTE
    ensures var after := Upserted(docs, Stamped(body, t).value);
      var hit := LastFresh(after, body.location, t2, MINUTES);
      && hit.Some?
      && Filter(after[hit.value]) ==
           Summary(after[hit.value].location, body.data[0].temp, body.data[0].humidity,
                   body.data[0].wind, body.data[0].pressure)
  {
    WrittenRecordServedWithinWindow(docs, Stamped(body, t).value, t, t2, MINUTES);
  }

  /** `DELETE /`: deletes the first selected document and answers success whether or
      not anything was deleted. */
  method DeleteRequest(store: Locations, location: string) returns (reply: StatusReply)
    modifies store
    ensures reply == StatusReply(true, "Deleted " + location)
    ensures store.docs == Deleted(old(store.docs), location)
    ensures Unique(old(store.docs)) ==> Unique(store.docs)
  {
    ghost var before := store.docs;
    var acknowledged := store.DeleteLocation(location);
    reply := StatusReply(true, "Deleted " + location);
    if Unique(before) {
      DeleteKeepsUnique(before, location);
    }
  }

  /** The update payload of a PUT body that names a location. */
  function FieldsOf(body: PutBody): Fields
    requires body.location.Some?
  {
    Fields(body.location.value, body.data, body.extra)
  }

  /** The reply of `PUT /` as written: it depends on nothing but whether the body names
      a location, because the handler tests the `{result, found}` wrapper, which is
      never null, instead of `found`. */
  function PutReply(body: PutBody): (r: StatusReply)
    ensures r.status <==> body.location.Some?
    ensures !r.status ==> r.message == "No location inserted"
  {
    if body.location.None? then StatusReply(false, "No location inserted")
    else StatusReply(true, "Updated")
  }

  /** `PUT /` as written: without a location it fails and changes nothing; otherwise it
      updates the first selected document, if any, and answers "Updated". */
  method PutRequest(store: Locations, body: PutBody) returns (reply: StatusReply)
    modifies store
    ensures reply == PutReply(body)
    ensures body.location.None? ==> store.docs == old(store.docs)
    ensures body.location.Some? ==> store.docs == Patched(old(store.docs), FieldsOf(body))
  {
    if body.location.None? {
      reply := StatusReply(false, "No location inserted");
    } else {
      var existing, found := store.CheckLocation(body.location.value);
      // The wrapper `{result, found}` is always present, so this branch is always taken.
      var acknowledged := store.UpdateLocation(FieldsOf(body));
      reply := StatusReply(true, "Updated");
    }
  }

  /** A PUT for a location that selects no document answers "Updated" while the
      collection stays exactly as it was. */
  lemma PutUnknownLocationReportsUpdated(docs: seq<Doc>, body: PutBody)
    requires body.location.Some?
    requires forall j :: 0 <= j < |docs| ==> !Matches(body.location.value, docs[j].location)
    ensures PutReply(body) == StatusReply(true, "Updated")
    ensures Patched(docs, FieldsOf(body)) == docs
  {
  }

  /** The reply `PUT /` evidently means to give: success only when a document is
      selected, and failure, with the collection unchanged, otherwise. */
  function PutReplyChecked(docs: seq<Doc>, body: PutBody): (r: StatusReply)
    ensures r.status <==>
      body.location.Some? && exists j :: 0 <= j < |docs| && Matches(body.location.value, docs[j].location)
    ensures body.location.None? ==> r == StatusReply(false, "No location inserted")
  {
    if body.location.None? then StatusReply(false, "No location inserted")
    else if FirstMatch(docs, body.location.value).None? then StatusReply(false, "Location not found")
    else StatusReply(true, "Updated")
  }

  /** `PUT /` testing `found`: it reports success exactly when it updated a document. */
  method PutRequestChecked(store: Locations, body: PutBody) returns (reply: StatusReply)
    modifies store
    ensures reply == PutReplyChecked(old(store.docs), body)
    ensures !reply.status ==> store.docs == old(store.docs)
    ensures reply.status ==> store.docs == Patched(old(store.docs), FieldsOf(body))
  {
    if body.location.None? {
      reply := StatusReply(false, "No location inserted");
    } else {
      var existing, found := store.CheckLocation(body.location.value);
      if found {
        var acknowledged := store.UpdateLocation(FieldsOf(body));
        reply := StatusReply(true, "Updated");
      } else {
        reply := StatusReply(false, "Location not found");
      }
    }
  }

  /** Three `GET /weather/London` requests: the first creates the document, the second,
      one minute later, is served from the cache, and the third, past the window,
      prepends a second reading. */
  method LondonScenario()
  {
    var store := new Locations();
    var body := ProviderBody("London", 285.45, 60.0, 1012.0, 3.1);

    var first := GetWeather(store, body, 0);
    assert store.docs == [ProcessedRecord(body, 0)];

    SameNameMatches("London", "London");
    assert Qualifies(store.docs[0], "London", 60000, MINUTES);
    var second := GetWeather(store, body, 60000);
    assert store.docs == [ProcessedRecord(body, 0)];
    assert second == first;

    assert !Qualifies(store.docs[0], "London", 200000, MINUTES);
    var third := GetWeather(store, body, 200000);
    assert |store.docs| == 1 && |store.docs[0].data| == 2;
    assert store.docs[0].data[0].timestamp == 200000.0;
  }
}
