/** The records the service builds and the projection it replies with: `processData`
    turns a provider answer into a one-reading document, `addTimestamp` stamps a posted
    document's newest reading, and `filter` projects a document for the client. */
module Shaping {
  import opened Records
  import opened Matching
  import opened Collection

  /** Offset between Kelvin and degrees Celsius. */
  const KELVIN_OFFSET: real := 273.15

  function Celsius(kelvin: real): real
  {
    kelvin - KELVIN_OFFSET
  }

  /** The record `processData` builds from the provider's answer at instant `now`. */
  function ProcessedRecord(body: ProviderBody, now: int): Doc
  {
    Doc(body.name, [Reading(Celsius(body.kelvin), body.humidity, body.windSpeed, body.pressure, now as real)], map[])
  }

  /** `filter`: location plus the newest reading's temp, humidity, wind and pressure. */
  function Filter(d: Doc): Summary
    requires |d.data| > 0
  {
    Summary(d.location, d.data[0].temp, d.data[0].humidity, d.data[0].wind, d.data[0].pressure)
  }

  /** `data.data[0]["timestamp"] = Date.now()`: none when `data` is empty, where the
      assignment throws. */
  function Stamped(d: Doc, now: int): (r: Option<Doc>)
    ensures r.Some? <==> |d.data| > 0
    ensures r.Some? ==> r.value.location == d.location && r.value.extra == d.extra
    ensures r.Some? ==> |r.value.data| == |d.data| && r.value.data[1..] == d.data[1..]
    ensures r.Some? ==> r.value.data[0].timestamp == now as real && Filter(r.value) == Filter(d)
  {
    if |d.data| == 0 then None
    else Some(d.(data := d.data[0 := d.data[0].(timestamp := now as real)]))
  }

  /** `filter` never shows the timestamp: two documents whose newest readings differ
      only there are shown alike. */
  lemma FilterIgnoresTimestamp(d: Doc, timestamp: real)
    requires |d.data| > 0
    ensures Filter(d.(data := d.data[0 := d.data[0].(timestamp := timestamp)])) == Filter(d)
  {
  }

  /** A cache hit is shown exactly as the stored newest reading of the document it came
      from: the age that replaced the timestamp is dropped by `filter`. */
  lemma FilterOfHit(d: Doc, now: int)
    requires |d.data| > 0
    ensures Filter(Projected(d, now)) == Filter(d)
  {
  }

  /** On a miss the reply carries the provider's name and values, temperature converted
      to Celsius. */
  lemma FilterOfProcessedRecord(body: ProviderBody, now: int)
    ensures Filter(ProcessedRecord(body, now)) ==
      Summary(body.name, body.kelvin - 273.15, body.humidity, body.windSpeed, body.pressure)
  {
  }

  /** A record just built is fresh at its own instant and selected by its own name: a
      lookup for the same name at the same instant, after it is stored, is a hit. */
  lemma ProcessedRecordQualifies(body: ProviderBody, now: int, minutes: int)
    requires 0 < minutes
    ensures Qualifies(ProcessedRecord(body, now), body.name, now, minutes)
  {
    SameNameMatches(body.name, body.name);
  }

  /** Likewise for a stamped posted document. */
  lemma StampedQualifies(d: Doc, now: int, minutes: int)
    requires |d.data| > 0 && 0 < minutes
    ensures Qualifies(Stamped(d, now).value, d.location, now, minutes)
  {
    SameNameMatches(d.location, d.location);
  }
}
