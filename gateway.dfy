/**
 * The request flow of `index` in api/index.py: check the API key, validate the
 * `date` parameter, derive the cache key, serve from `meta_cache` on a hit, and
 * on a miss ask the upstream APOD endpoint, normalise its JSON to the six
 * fields the page shows, and store the result under the key.
 *
 * The upstream call (`session.get`, `raise_for_status`, `resp.json()`) is a
 * function from the query parameters to a fetch outcome, and the clock is the
 * date `today`; the model makes no network call and reads no clock.
 */
module Gateway {

  import opened Wrappers
  import opened Calendar
  import opened DateInput

  /** A decoded JSON object, its values reduced to strings. */
  type Json = map<string, string>

  /** The normalised APOD metadata the template receives. */
  datatype Record = Record(
    title: Option<string>,
    date: Option<string>,
    explanation: Option<string>,
    mediaType: Option<string>,
    url: Option<string>,
    hdurl: Option<string>)

  /** A query parameter value: the `api_key` and `date` strings, the `hd` flag. */
  datatype ParamValue = Text(text: string) | Flag(flag: bool)

  type Params = map<string, ParamValue>

  /** What the upstream call gives: an exception of any kind, or a JSON body. */
  datatype FetchOutcome = FetchFailed | Fetched(body: Json)

  /** The template context: `apod` and `error`. */
  datatype Page = Page(apod: Option<Record>, error: Option<string>)

  /** The page, the request sent upstream (`None`: none was sent) and the new cache. */
  datatype Served = Served(page: Page, request: Option<Params>, cache: map<string, Record>)

  const KeyMissingError := "NASA_API_KEY not set. Configure it in Vercel Project Settings."
  const FetchError := "Failed to contact NASA APOD service."

  /** The sentinel key for "no (valid) date requested". */
  const TodayKey := "today"

  /** The six payload keys the page keeps. */
  const RecordKeys: set<string> := {"title", "date", "explanation", "media_type", "url", "hdurl"}

  /** `data.get(key)`. */
  function Get(data: Json, key: string): Option<string>
  {
    if key in data then Some(data[key]) else None
  }

  /** The payload as the page sees it: each of the six keys, absent ones as `None`. */
  function Normalize(data: Json): (r: Record)
  {
    Record(Get(data, "title"), Get(data, "date"), Get(data, "explanation"),
           Get(data, "media_type"), Get(data, "url"), Get(data, "hdurl"))
  }

  /** The present fields of a record, under their payload keys. */
  function Fields(r: Record): (m: Json)
    ensures m.Keys <= RecordKeys
  {
    var m0: Json := map[];
    var m1 := if r.title.Some? then m0["title" := r.title.value] else m0;
    var m2 := if r.date.Some? then m1["date" := r.date.value] else m1;
    var m3 := if r.explanation.Some? then m2["explanation" := r.explanation.value] else m2;
    var m4 := if r.mediaType.Some? then m3["media_type" := r.mediaType.value] else m3;
    var m5 := if r.url.Some? then m4["url" := r.url.value] else m4;
    if r.hdurl.Some? then m5["hdurl" := r.hdurl.value] else m5
  }

  /**
   * `cache_key = date_val or "today"` with `date_val = safe_date_input(date)`.
   * The key is the sentinel exactly when validation fails: a validated date is
   * a canonical `YYYY-MM-DD` string, so it never collides with `"today"`.
   */
  function CacheKey(date: Option<string>, today: Date): (k: string)
    ensures k == TodayKey <==> SafeDateInput(date, today).None?
    ensures k != TodayKey ==> SafeDateInput(date, today) == Some(k) && IsCanonical(k)
  {
    var dateVal := SafeDateInput(date, today);
    if Truthy(dateVal) then dateVal.value else TodayKey
  }

  /**
   * The query of the upstream request: `{"api_key": key, "hd": True}`, plus
   * `"date"` when a date was validated. The date asked for is the key the
   * answer is stored under, and it is asked for exactly when that key is
   * not the sentinel.
   */
  function QueryParams(apiKey: string, date: Option<string>, today: Date): (p: Params)
    ensures p.Keys == {"api_key", "hd"} + (if CacheKey(date, today) != TodayKey then {"date"} else {})
    ensures "date" in p ==> p["date"] == Text(CacheKey(date, today))
    ensures p["api_key"] == Text(apiKey) && p["hd"] == Flag(true)
  {
    var dateVal := SafeDateInput(date, today);
    var base := map["api_key" := Text(apiKey), "hd" := Flag(true)];
    if Truthy(dateVal) then base["date" := Text(dateVal.value)] else base
  }

  /**
   * One request to `GET /` against the cache contents `cache`: the page it
   * renders, the upstream request it makes and the cache it leaves behind.
   */
  function Serve(cache: map<string, Record>, apiKey: Option<string>, date: Option<string>,
                 today: Date, upstream: Params -> FetchOutcome): (o: Served)
  {
    if !Truthy(apiKey) then
      Served(Page(None, Some(KeyMissingError)), None, cache)
    else
      var key := CacheKey(date, today);
      if key in cache then
        Served(Page(Some(cache[key]), None), None, cache)
      else
        var params := QueryParams(apiKey.value, date, today);
        match upstream(params)
        case FetchFailed => Served(Page(None, Some(FetchError)), Some(params), cache)
        case Fetched(data) =>
          var apod := Normalize(data);
          Served(Page(Some(apod), None), Some(params), cache[key := apod])
  }

  // ---------------------------------------------------------------------------
  // Normalisation

  /** A record is recovered from its present fields. */
  lemma NormalizeFields(r: Record)
    ensures Normalize(Fields(r)) == r
  {
  }

  /**
   * Normalising keeps exactly the six payload keys that are present, with
   * their values, and drops every other key.
   */
  lemma FieldsOfNormalize(data: Json)
    ensures Fields(Normalize(data)) == map k | k in data && k in RecordKeys :: data[k]
  {
  }

  /** Two payloads that agree on the six keys normalise to the same record. */
  lemma NormalizeSeesOnlyRecordKeys(a: Json, b: Json)
    requires forall k :: k in RecordKeys ==> Get(a, k) == Get(b, k)
    ensures Normalize(a) == Normalize(b)
  {
  }

  // ---------------------------------------------------------------------------
  // The cache key

  /** A date that fails validation is served exactly as if none were given. */
  lemma InvalidDateServedAsToday(cache: map<string, Record>, apiKey: Option<string>,
                                 date: Option<string>, today: Date, upstream: Params -> FetchOutcome)
    requires SafeDateInput(date, today).None?
    ensures Serve(cache, apiKey, date, today, upstream) == Serve(cache, apiKey, None, today, upstream)
  {
  }

  // ---------------------------------------------------------------------------
  // One request

  /** Without an API key nothing is fetched, the cache is untouched and the page says why. */
  lemma ServeWithoutKey(cache: map<string, Record>, apiKey: Option<string>,
                        date: Option<string>, today: Date, upstream: Params -> FetchOutcome)
    requires !Truthy(apiKey)
    ensures Serve(cache, apiKey, date, today, upstream) ==
      Served(Page(None, Some(KeyMissingError)), None, cache)
  {
  }

  /** A hit returns the stored record, fetches nothing and leaves the cache as it was. */
  lemma ServeHit(cache: map<string, Record>, apiKey: Option<string>,
                 date: Option<string>, today: Date, upstream: Params -> FetchOutcome)
    requires Truthy(apiKey)
    requires CacheKey(date, today) in cache
    ensures Serve(cache, apiKey, date, today, upstream) ==
      Served(Page(Some(cache[CacheKey(date, today)]), None), None, cache)
  {
  }

  /**
   * A miss sends one request, carrying the API key and `hd=True` always and
   * `date` exactly when the input validated, as the canonical date.
   */
  lemma ServeMissRequest(cache: map<string, Record>, apiKey: Option<string>,
                         date: Option<string>, today: Date, upstream: Params -> FetchOutcome)
    requires Truthy(apiKey)
    requires CacheKey(date, today) !in cache
    ensures Serve(cache, apiKey, date, today, upstream).request.Some?
    ensures var p := Serve(cache, apiKey, date, today, upstream).request.value;
      && p["api_key"] == Text(apiKey.value) && p["hd"] == Flag(true)
      && p.Keys == {"api_key", "hd"} + (if SafeDateInput(date, today).Some? then {"date"} else {})
      && (SafeDateInput(date, today).Some? ==> p["date"] == Text(SafeDateInput(date, today).value))
  {
  }

  /** A failed fetch shows an error, no record, and leaves the cache as it was. */
  lemma ServeFetchFailed(cache: map<string, Record>, apiKey: Option<string>,
                         date: Option<string>, today: Date, upstream: Params -> FetchOutcome)
    requires Truthy(apiKey)
    requires CacheKey(date, today) !in cache
    requires upstream(QueryParams(apiKey.value, date, today)).FetchFailed?
    ensures var o := Serve(cache, apiKey, date, today, upstream);
      o.cache == cache && o.page.apod.None? && o.page.error.Some? && o.page.error.value != ""
  {
  }

  /**
   * A successful fetch shows the normalised payload and stores it under the
   * key; every other key keeps its entry.
   */
  lemma ServeFetched(cache: map<string, Record>, apiKey: Option<string>,
                     date: Option<string>, today: Date, upstream: Params -> FetchOutcome, data: Json)
    requires Truthy(apiKey)
    requires CacheKey(date, today) !in cache
    requires upstream(QueryParams(apiKey.value, date, today)) == Fetched(data)
    ensures var o := Serve(cache, apiKey, date, today, upstream);
      var key := CacheKey(date, today);
      && o.page == Page(Some(Normalize(data)), None)
      && o.cache.Keys == cache.Keys + {key}
      && o.cache[key] == Normalize(data)
      && (forall k :: k in cache ==> o.cache[k] == cache[k])
  {
  }

  /**
   * Whatever happens, a request changes the cache at most at its own key, and
   * only by adding an entry there; it fetches exactly when it misses.
   */
  lemma ServeFrame(cache: map<string, Record>, apiKey: Option<string>,
                   date: Option<string>, today: Date, upstream: Params -> FetchOutcome)
    ensures var o := Serve(cache, apiKey, date, today, upstream);
      var key := CacheKey(date, today);
      && cache.Keys <= o.cache.Keys <= cache.Keys + {key}
      && (forall k :: k in cache ==> o.cache[k] == cache[k])
      && (o.request.Some? <==> Truthy(apiKey) && key !in cache)
      && (o.page.apod.Some? <==> o.page.error.None?)
  {
  }

  // ---------------------------------------------------------------------------
  // Several requests

  /**
   * Once a request has shown a record, repeating it shows the same page and
   * fetches nothing, whatever the upstream would now say.
   */
  lemma RepeatedRequestIsHit(cache: map<string, Record>, apiKey: Option<string>, date: Option<string>,
                             today: Date, first: Params -> FetchOutcome, second: Params -> FetchOutcome)
    requires Serve(cache, apiKey, date, today, first).page.apod.Some?
    ensures var o1 := Serve(cache, apiKey, date, today, first);
      var o2 := Serve(o1.cache, apiKey, date, today, second);
      o2 == Served(o1.page, None, o1.cache)
  {
  }

  /** After its entry expires, a request fetches again, exactly once. */
  lemma ExpiredEntryRefetched(cache: map<string, Record>, apiKey: Option<string>,
                              date: Option<string>, today: Date, upstream: Params -> FetchOutcome)
    requires Truthy(apiKey)
    ensures var key := CacheKey(date, today);
      Serve(cache - {key}, apiKey, date, today, upstream).request ==
        Some(QueryParams(apiKey.value, date, today))
  {
  }

  /** The module-level state of api/index.py: the API key and `meta_cache`. */
  class ApodApp {
    const apiKey: Option<string>
    var metaCache: map<string, Record>

    /** Import time: the key is read once and the cache starts empty. */
    constructor (apiKey: Option<string>)
      ensures this.apiKey == apiKey && metaCache == map[]
    {
      this.apiKey := apiKey;
      metaCache := map[];
    }

    /**
     * The `index` handler for `GET /?date=...`. Its specification is `Serve`:
     * the lemmas about `Serve` are what this method promises.
     */
    method Index(date: Option<string>, today: Date, upstream: Params -> FetchOutcome)
      returns (page: Page, request: Option<Params>)
      modifies this
      ensures Served(page, request, metaCache) == Serve(old(metaCache), apiKey, date, today, upstream)
    {
      if !Truthy(apiKey) {
        return Page(None, Some(KeyMissingError)), None;
      }
      var dateVal := SafeDateInput(date, today);
      var cacheKey := if Truthy(dateVal) then dateVal.value else TodayKey;
      var apod: Record;
      if cacheKey in metaCache {
        apod := metaCache[cacheKey];
        request := None;
      } else {
        var params: Params := map["api_key" := Text(apiKey.value), "hd" := Flag(true)];
        if Truthy(dateVal) {
          params := params["date" := Text(dateVal.value)];
        }
        request := Some(params);
        var outcome := upstream(params);
        if outcome.FetchFailed? {
          return Page(None, Some(FetchError)), request;
        }
        var data := outcome.body;
        apod := Normalize(data);
        metaCache := metaCache[cacheKey := apod];
      }
      page := Page(Some(apod), None);
    }

    /** An entry leaving the `TTLCache` (its hour is up, or it is evicted). */
    method Expire(key: string)
      modifies this
      ensures metaCache == old(metaCache) - {key}
    {
      metaCache := metaCache - {key};
    }
  }
}
