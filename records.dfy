/** The documents of the "locations" collection of the weather cache, and the
    request and reply shapes of the REST handlers built on top of it. */
module Records {

  datatype Option<T> = None | Some(value: T)

  /** A scalar JSON value held in a top-level field other than `location` and `data`. */
  datatype Value = Null | Bool(b: bool) | Num(n: real) | Str(s: string)

  /** A plain top-level field name other than `location` and `data`: not `_id`, which
      MongoDB refuses to change, with no `.`, which `$set` reads as a path into a nested
      field, and not starting with `$`, which names an operator. */
  predicate IsPlainFieldName(name: string)
  {
    && name != []
    && name[0] != '$'
    && '.' !in name
    && name !in {"_id", "location", "data"}
  }

  type FieldName = name: string | IsPlainFieldName(name) witness "name"

  /** One weather observation. Stored readings carry their capture time in
      milliseconds since the epoch in `timestamp`; the reading returned by a cache
      hit carries the reading's age in minutes there instead. */
  datatype Reading = Reading(temp: real, humidity: real, wind: real, pressure: real, timestamp: real)

  /** A document `{location, data: [reading, ...], ...extra}`; `data[0]` is the newest reading. */
  datatype Doc = Doc(location: string, data: seq<Reading>, extra: map<FieldName, Value>)

  /** The payload of an update (`$set`): `location` is always present, `data` only when listed. */
  datatype Fields = Fields(location: string, data: Option<seq<Reading>>, extra: map<FieldName, Value>)

  /** The body of a PUT request, whose `location` may be missing. */
  datatype PutBody = PutBody(location: Option<string>, data: Option<seq<Reading>>, extra: map<FieldName, Value>)

  /** The part of the weather provider's answer the cache uses:
      `name`, `main.temp` (Kelvin), `main.humidity`, `main.pressure` and `wind.speed`. */
  datatype ProviderBody = ProviderBody(name: string, kelvin: real, humidity: real, pressure: real, windSpeed: real)

  /** The projection sent to clients: location and the newest reading without its timestamp. */
  datatype Summary = Summary(location: string, temp: real, humidity: real, wind: real, pressure: real)

  /** `{status, message}` replies of the DELETE and PUT handlers. */
  datatype StatusReply = StatusReply(status: bool, message: string)

  /** Replies of the POST handler: status 1 with the cached summary, status 0 with the
      stored body, or no reply at all when the handler's callback throws. */
  datatype PostReply = CachedReply(summary: Summary) | StoredReply(stored: Doc) | NoReply
  {
    function Status(): int
      requires !NoReply?
    {
      if CachedReply? then 1 else 0
    }
  }
}
