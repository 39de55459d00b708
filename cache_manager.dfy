/**
 * The content cache (`Components/Services/CacheManager.js`) over the app's
 * plain key-value storage: entries are `{data, timestamp}` envelopes, one
 * global timestamp decides whether the whole cache is older than 12 hours,
 * and a bust drops every entry under the content prefix and restarts the
 * timer.
 *
 * A stored text is represented by what `JSON.parse` makes of it (`Body`);
 * a text written by `JSON.stringify(j)` is `Encoded(j)`.
 */
module CacheManager {
  import opened Wrappers
  import opened JsText
  import opened JsonModel

  const CachePrefix := "assorted_"
  const TimestampKey := "lastContentRefreshTimestamp"
  /** Twelve hours in milliseconds. */
  const TTL := 12 * 60 * 60 * 1000

  /** Truthiness of a stored text: only the empty text is falsy, and no JSON text is empty. */
  predicate Filled(text: Body) {
    text.Encoded? || text.raw != ""
  }

  /** `isCacheStale()` at time `now`. */
  function Stale(items: map<string, Body>, now: int): bool {
    if TimestampKey !in items || !Filled(items[TimestampKey]) then true
    else if items[TimestampKey].Malformed? then true
    else
      var ts := ToNumber(items[TimestampKey].value);
      ts.Int? && now - ts.value > TTL
  }

  /** `get(key)`: the envelope's `data`, `undefined` when it has none, `null` when absent or unreadable. */
  function Cached(items: map<string, Body>, key: string): Read {
    if key !in items || !Filled(items[key]) || items[key].Malformed? then Val(JNull)
    else
      var data := Prop(items[key].value, "data");
      if data.NullDeref? then Val(JNull) else data
  }

  /** `{ data: value, timestamp: now }`. */
  function Envelope(value: Json, now: int): Json {
    JObj(map["data" := value, "timestamp" := JNum(now)])
  }

  /** `bustAndResetCache()` at time `now`. */
  function Busted(items: map<string, Body>, now: int): map<string, Body> {
    (map k | k in items && !StartsWith(k, CachePrefix) :: items[k])[TimestampKey := Encoded(JNum(now))]
  }

  class ContentCache {
    var items: map<string, Body>

    constructor (items0: map<string, Body>)
      ensures items == items0
    {
      items := items0;
    }

    method IsCacheStale(now: int) returns (stale: bool)
      ensures stale == Stale(items, now)
    {
      if TimestampKey !in items || !Filled(items[TimestampKey]) {
        return true;
      }
      var text := items[TimestampKey];
      if text.Malformed? {
        return true;
      }
      var ts := ToNumber(text.value);
      stale := ts.Int? && now - ts.value > TTL;
    }

    method Get(key: string) returns (r: Read)
      ensures r == Cached(items, key)
    {
      if key !in items || !Filled(items[key]) {
        return Val(JNull);
      }
      var text := items[key];
      if text.Malformed? {
        return Val(JNull);
      }
      var data := Prop(text.value, "data");
      if data.NullDeref? {
        return Val(JNull);
      }
      r := data;
    }

    method Set(key: string, value: Json, now: int)
      modifies this
      ensures items == old(items)[key := Encoded(Envelope(value, now))]
    {
      items := items[key := Encoded(Envelope(value, now))];
    }

    method BustAndResetCache(now: int)
      modifies this
      ensures items == Busted(old(items), now)
    {
      var kept := map k | k in items && !StartsWith(k, CachePrefix) :: items[k];
      items := kept[TimestampKey := Encoded(JNum(now))];
    }
  }

  // ---------------------------------------------------------------------------
  // Properties

  /** The window is 43 200 000 ms. */
  lemma WindowLength()
    ensures TTL == 43_200_000
  {
  }

  /** Without a timestamp, or with one that does not parse, the cache is stale. */
  lemma MissingTimestampIsStale(items: map<string, Body>, now: int)
    requires TimestampKey !in items || items[TimestampKey].Malformed?
    ensures Stale(items, now)
  {
  }

  /** With a numeric timestamp the cache is stale exactly when more than 12 hours have passed; at 12 hours it is still fresh. */
  lemma StaleIffExpired(items: map<string, Body>, now: int, ts: int)
    requires TimestampKey in items && items[TimestampKey] == Encoded(JNum(ts))
    ensures Stale(items, now) <==> now - ts > TTL
    ensures now - ts == TTL ==> !Stale(items, now)
  {
  }

  /** A timestamp that does not coerce to a number (an object, say) never expires. */
  lemma NonNumericTimestampNeverExpires(items: map<string, Body>, now: int, fields: map<string, Json>)
    requires TimestampKey in items && items[TimestampKey] == Encoded(JObj(fields))
    ensures !Stale(items, now)
  {
  }

  /** A bust removes exactly the prefixed entries, keeps every other entry as it was, and writes the time. */
  lemma BustRemovesPrefixed(items: map<string, Body>, now: int)
    ensures var b := Busted(items, now);
      (forall k :: k in b <==> k == TimestampKey || (k in items && !StartsWith(k, CachePrefix)))
      && (forall k :: k in items && !StartsWith(k, CachePrefix) && k != TimestampKey ==> b[k] == items[k])
      && b[TimestampKey] == Encoded(JNum(now))
  {
  }

  /** Right after a bust the cache is fresh, and stays so for 12 hours. */
  lemma FreshAfterBust(items: map<string, Body>, now: int, later: int)
    requires now <= later <= now + TTL
    ensures !Stale(Busted(items, now), later)
    ensures Stale(Busted(items, now), now + TTL + 1)
  {
    StaleIffExpired(Busted(items, now), later, now);
    StaleIffExpired(Busted(items, now), now + TTL + 1, now);
  }

  /** A second bust leaves what one bust at the later time would. */
  lemma BustTwice(items: map<string, Body>, t1: int, t2: int)
    ensures Busted(Busted(items, t1), t2) == Busted(items, t2)
  {
    assert TimestampKey[..|CachePrefix|][0] != CachePrefix[0];
    assert !StartsWith(TimestampKey, CachePrefix);
  }

  /** What `set(key, value)` stores, `get(key)` returns; other keys read as before. */
  lemma SetThenGet(items: map<string, Body>, key: string, value: Json, now: int, other: string)
    requires other != key
    ensures Cached(items[key := Encoded(Envelope(value, now))], key) == Val(value)
    ensures Cached(items[key := Encoded(Envelope(value, now))], other) == Cached(items, other)
  {
    assert Prop(Envelope(value, now), "data") == Val(value);
  }

  /** An absent key, or an unreadable text, reads as `null`. */
  lemma GetAbsent(items: map<string, Body>, key: string)
    requires key !in items || items[key].Malformed?
    ensures Cached(items, key) == Val(JNull)
  {
  }
}
