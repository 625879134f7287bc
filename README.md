# Rest-Weather cache, modelled in Dafny

Rest-Weather is a REST service in front of the OpenWeather API. It caches every answer
in a MongoDB collection called "locations". Each document has the form
`{location, data: [reading, ...]}`, with the newest reading first. A reading holds
`temp`, `humidity`, `wind`, `pressure` and `timestamp`.

This project models that cache layer:

- the store functions, as methods of a class `Store.Locations` whose `docs` field is the
  collection as a sequence in natural order:
  - `insertLocation` prepends readings (`$push … $position: 0`);
  - `createLocation` appends a document (`insertOne`);
  - `checkLocationMinutes` is the freshness scan, a loop;
  - `checkLocation`, `getSingle` and `getAll` read;
  - `deleteLocation` is `deleteOne`;
  - `updateLocation` is `updateOne` with `$set`;
- what each MongoDB call does, as functions over `seq<Doc>` (`Collection`), with lemmas;
- the location lookup `new RegExp(name, "i")`, as a case-insensitive substring search
  (`Matching`);
- the freshness test `(now - timestamp) / 60000 < minutes` (`Freshness`);
- the record building and projection of `processData`, `addTimestamp` and `filter`
  (`Shaping`);
- the hit/miss/update decisions of `GET /weather/:location`, `POST /`, `DELETE /` and
  `PUT /` (`Handlers`).

The clock (`Date.now()`) is a parameter `now`. The provider's answer is a parameter
`body`. Every `updateOne`, `findOne` and `deleteOne` acts on the FIRST document the query
selects. The aggregation scan keeps the LAST one that qualifies.

`Handlers.LondonScenario` is a verified client. It makes three `GET /weather/London`
requests:

1. at t=0 the request creates the document;
2. at t=60000 the cache serves it;
3. at t=200000 a second reading is prepended.

Where the code and its own comments disagree, or where the code does something easy to
miss, the model follows the code:

- The comments at index.js:311-312 say a stale entry is deleted and a new one created.
  The code instead prepends the new reading to the existing document
  (`insertLocation`), and creates a document only when none is selected.
- The comments at index.js:68 and index.js:72 speak of a 15-minute window. The window
  actually used is `minutes = 3` (index.js:15), `Handlers.MINUTES`.
- `updateLocation` uses `$set`. For payload keys that are plain top-level names, it
  overwrites only the fields the payload lists and keeps all others. It is not a
  whole-document replace.
- `GET /weather` calls the provider before it checks freshness. The freshness window
  therefore decides only whether the store is written, not whether the provider is
  called. The lookup key is the provider's `name`.
- Lookup is a substring search, not name equality. A query of "york" selects "New York".
- `PUT /` for an unknown location answers "Updated" with no change (see Findings).
- `DELETE /` removes only the first selected document. A second document for the same
  name stays (`Collection.DeleteExposesNextMatch`).

## Model

| member | source | states |
|---|---|---|
| Matching.OccursIff | index.js:146 | The lookup's search succeeds exactly when the lower-cased query is a contiguous slice of the lower-cased location, at some position. |
| Matching.ContainedNameMatches | index.js:146 | Any location that contains the name anywhere is selected, e.g. "york" selects "New York". |
| Matching.MatchesIgnoresQueryCase | index.js:146 | Lower-casing the query never changes what it selects. |
| Matching.SameNameMatches | index.js:146 | A name selects every location equal to it up to letter case. |
| Matching.EmptyQueryMatchesAll | index.js:174 | An empty location, `new RegExp("", "i")`, selects every document. |
| Freshness.FreshIffWithinWindow | index.js:99-102 | For whole-millisecond timestamps, the fractional test age-in-minutes < window holds exactly when `now - timestamp < minutes * 60000`. |
| Freshness.FutureTimestampIsFresh | index.js:99-102 | A timestamp in the future gives a negative age, and that counts as fresh for any non-negative window. |
| Freshness.StaleStaysStale | index.js:99-102 | Ages only grow with the clock: a reading stale at one instant is stale at every later one. |
| Collection.FirstMatch | index.js:235 | `findOne` returns the position of a selected document that has no selected document before it, and returns none exactly when nothing is selected. |
| Collection.LookupIgnoresCase | index.js:146 | Queries equal up to letter case ("Paris", "PARIS") find the same document. |
| Collection.PrependedSpec | index.js:35-37 | The pushed readings come first in the first selected document, in their given order, with the old readings after them unchanged. Every other document and field is unchanged. With no selected document, nothing changes (no upsert). |
| Collection.PrependedKeepsLookup | index.js:35-37 | A prepend changes no location, so every later lookup answers as before. |
| Collection.DeletedSpec | index.js:174 | `deleteOne` removes exactly the first selected document. The others keep their order, and the multiset of documents loses just that one. With no selected document, nothing changes. |
| Collection.DeleteOnlyMatchLeavesNone | index.js:174 | When only one document is selected, a lookup after the delete finds nothing. |
| Collection.DeleteExposesNextMatch | index.js:174 | When a second document is selected, a lookup after the delete finds it, so a delete does not remove all of a location's documents. |
| Collection.PatchedSpec | index.js:195 | `$set` on the first selected document overwrites `location` always, `data` only when listed, and exactly the listed extra fields. Unlisted fields and all other documents are unchanged. With no selected document, nothing changes. |
| Collection.PatchedIdempotent | index.js:195 | Repeating the same update changes nothing more. |
| Collection.PatchedRenames | index.js:195 | The updated document takes the payload's spelling of the location. |
| Collection.LastFresh | index.js:102-108 | The scan's last qualifying position: that document is selected and its newest reading is fresh, no later document qualifies, and the result is none exactly when no document qualifies. |
| Collection.FreshHit | index.js:105-124 | The value `checkLocationMinutes` resolves to is null exactly when nothing qualifies. Otherwise it is the last qualifying document rebuilt with only its location and one reading, whose `timestamp` holds the age in minutes (below the window). |
| Collection.CreateKeepsUnique | index.js:263-267 | Creating a document only when its name selects nothing keeps at most one document per name, letter case aside. |
| Collection.PrependKeepsUnique | index.js:35-37 | A prepend keeps at most one document per name. |
| Collection.DeleteKeepsUnique | index.js:174 | A delete keeps at most one document per name. |
| Collection.YorkReadingGoesToNewYork | index.js:35-37 | A reading for "York" is prepended to the "New York" document. |
| Collection.UpdateCanDuplicateName | index.js:195 | An update with location "York" renames "New York" and leaves two documents named "York". |
| Collection.WrittenRecordServedWithinWindow | index.js:99-108 | After a miss at `t` writes a record whose newest reading is stamped `t` (prepend when a document is selected, create otherwise), a scan for the same name at any `t2` with `t <= t2 < t + window` hits, and the hit's newest reading is exactly the one written. |
| Collection.UpsertKeepsUnique | index.js:251-269 | The miss path's write (prepend when selected, create otherwise) keeps at most one document per name. |
| Store.Locations.InsertLocation | index.js:30-44 | The new collection is the old one with `record.data` prepended to the first document `record.location` selects. |
| Store.Locations.CreateLocation | index.js:52-64 | Exactly one document is appended, even when a matching one exists. The old documents stay untouched, in front. |
| Store.Locations.CheckLocationMinutes | index.js:74-130 | The loop's result is the last qualifying document projected to one reading with its age, or none when nothing qualifies. The store is not modified. |
| Store.Locations.CheckLocation | index.js:139-160 | `found` holds exactly when some document is selected. `result` is present exactly then, and it is the first selected document. |
| Store.Locations.GetSingle | index.js:230-242 | Returns the first selected document, or none exactly when nothing is selected (also `GET /get-single/:location`). |
| Store.Locations.GetAll | index.js:210-222 | Returns every document in natural order (also `GET /`). |
| Store.Locations.DeleteLocation | index.js:169-181 | The new collection is the old one without its first selected document. The acknowledgement is true. |
| Store.Locations.UpdateLocation | index.js:190-202 | The new collection is the old one with the payload's fields `$set` on the first selected document. The acknowledgement is true. |
| Shaping.Stamped | index.js:279 | Stamping fails exactly when there is no reading. Otherwise only the newest reading's timestamp changes, to `now`: location, other fields, later readings and the filtered view stay the same. |
| Shaping.FilterIgnoresTimestamp | index.js:294-303 | `filter` drops the timestamp: readings that differ only there are shown alike. |
| Shaping.FilterOfHit | index.js:318-319 | A cache hit is shown exactly as the stored newest reading of the document it came from. |
| Shaping.FilterOfProcessedRecord | index.js:251-261 | On a miss, the reply carries the provider's name, humidity, wind speed and pressure, and the temperature converted from Kelvin. |
| Shaping.ProcessedRecordQualifies | index.js:251-261 | A record just built is fresh at its own instant and selected by its own name. |
| Shaping.StampedQualifies | index.js:278-279 | A stamped posted document is fresh at its own instant and selected by its own location. |
| Handlers.ProcessData | index.js:251-269 | Returns the record built from the provider's answer. Writes exactly one thing: a prepend of its reading when `found`, otherwise a new document. |
| Handlers.AddTimestamp | index.js:278-286 | Returns the stamped document. Writes nothing when there is no reading; otherwise prepends all posted readings when `found`, or appends the stamped document. |
| Handlers.GetWeather | index.js:313-322 | On a fresh hit: store unchanged, reply is the filter of the last fresh document. On a miss: exactly one write (prepend if found, else create), and the reply is the new reading. The handler keeps one-document-per-name. |
| Handlers.PostLocation | index.js:360-379 | On a hit: status 1 with the cached reading, store unchanged. On a miss: status 0 with the stamped body, and one prepend or create. On a miss with no reading: no reply and no change. The handler keeps one-document-per-name. |
| Handlers.GetWithinWindowServesStored | index.js:313-322 | After a GET miss at `t`, a GET for the same provider name at any `t2` less than 3 minutes later hits, and its reply shows the provider's values stored at `t` (temperature in Celsius, humidity, wind speed, pressure). |
| Handlers.PostWithinWindowServesStored | index.js:360-373 | After a POST miss at `t` with at least one reading, a POST for the same location less than 3 minutes later is answered from the cache with the newest posted reading's temp, humidity, wind and pressure. |
| Handlers.DeleteRequest | index.js:383-392 | Always answers `{true, "Deleted " + location}`, whether or not anything matched. Removes only the first selected document. |
| Handlers.PutReply | index.js:399-408 | As written, the reply depends only on whether the body names a location: false with "No location inserted", otherwise true. |
| Handlers.PutRequest | index.js:396-414 | Without a location: fails and changes nothing. Otherwise: `$set` on the first selected document, if any, and answers "Updated". |
| Handlers.PutUnknownLocationReportsUpdated | index.js:403-408 | For a location that selects nothing, the reply is "Updated" while the collection stays unchanged. |
| Handlers.PutReplyChecked | index.js:403-408 | Corrected reply: success exactly when the body names a location that selects some document. |
| Handlers.PutRequestChecked | index.js:403-408 | Corrected handler: reports success exactly when it updated a document. On failure the collection is unchanged. |

## Left out

- HTTP plumbing is not modelled: Express routing, `body-parser`, CORS and `app.listen`.
- The MongoDB connect/close lifecycle is not modelled, nor the reassignment of the global `client`. An abstract in-memory collection stands in for the database.
- The call to OpenWeather is not modelled, nor its API key or a failure of that call. The provider's answer is a parameter of `Handlers.GetWeather`.
- Temperature rounding is left out. `toFixed(1)`/`parseFloat` are not modelled: `Shaping.Celsius` is an exact subtraction, and all JSON numbers are exact reals.
- Concurrency is left out. `insertLocation`, `createLocation` and `deleteLocation` (index.js:387) are not awaited, and `updateLocation`'s Promise is treated as a boolean. The model runs every call in sequence, so races between concurrent requests are not captured.
- A request reads the clock twice in the source (in the freshness scan and when stamping). The model uses one instant `now` for both.
- Exact regular-expression semantics are left out. The model assumes location names with no metacharacters, ignores the `"g"` flag of the freshness scan, and folds only ASCII letters.
- Logging is not modelled. Neither are the `catch` blocks that swallow storage errors: every store call succeeds, and the acknowledgement is always true.
- `String(req.body.location)` turning a missing location into "undefined" in POST and DELETE is not modelled. Neither is the `status: 2` reply of POST's synchronous `catch`.
- Readings always carry exactly the five fields. The source stores and echoes posted readings whole, so extra fields on a posted reading are kept there; the model drops them. Extra top-level fields hold scalar values only. The `_id` that `insertOne` adds is not modelled.
- UpdateLocation: payload keys are plain top-level names only (`Records.FieldName`: never `_id`, no `.`, no leading `$`). The source's `$set` rejects the whole update when the payload carries `_id` (for instance a document round-tripped from `GET /get-single`), and writes a nested path for a dotted key. Neither is modelled.
- PatchedSpec: states `$set` only for plain top-level keys, for the same reason as UpdateLocation.
- PutRequest: for a body carrying `_id`, the source's update fails, yet the handler still answers "Updated". The model does not capture this, since such keys are outside `Records.FieldName`.
- The authentication routes are not part of this model.
- PUT does not keep one document per name. `Collection.UpdateCanDuplicateName` shows a case, so `Handlers.PutRequest` states no uniqueness guarantee.

## Findings

| source | as written | input that shows it | evidently intended | confidence | as-written member | corrected member |
|---|---|---|---|---|---|---|
| index.js:403-408 | `PUT /` tests `result != null`, but `result` is the `{result, found}` wrapper that `checkLocation` always returns. So the handler answers `{status: true, "Updated"}` for every location, and an unknown one is silently not updated. | a PUT body `{location: "Paris"}` sent to a collection where no location contains "paris" | answer with a false status when no document is selected, as `found` reports | high, not executed | Handlers.PutUnknownLocationReportsUpdated | Handlers.PutRequestChecked |
