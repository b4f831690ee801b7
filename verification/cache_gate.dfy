/**
  The lazy cache gate of the HTTP service: a process-wide FeatureCollection
  plus the time it was last fetched, and the request handlers that read and
  refresh it. Requests are modelled as sequential state transitions; the
  upstream call is a parameter holding its outcome, and the clock is a
  parameter holding integer nanoseconds since Go's zero time.
 */
module CacheGate {
  import opened Upstream
  import opened GeoJson
  import opened Transform

  const NanosPerMinute: int := 60 * 1_000_000_000

  /** The cache is refreshed once strictly more than five minutes have passed. */
  const RefreshAfter: int := 5 * NanosPerMinute

  /** The process-wide state: the served collection and the fetch stamp. */
  datatype CacheState = CacheState(data: FeatureCollection, lastFetched: int)

  /** Both globals at their zero values: an empty collection and Go's zero time. */
  const Initial := CacheState(EmptyCollection, 0)

  /** The outcome of the upstream GET plus JSON decoding. */
  datatype Fetch = Fetched(response: NlwknResponse) | FetchFailed

  /** What a handler leads to: an answer with the new state, or the end of the
      process (a failed fetch calls log.Fatal). */
  datatype Reply<B> = Answered(state: CacheState, body: B) | Terminated

  predicate Stale(s: CacheState, now: int)
  {
    now - s.lastFetched > RefreshAfter
  }

  /** Fetch and transform: on success the served collection is replaced and
      the raw response is returned; the fetch stamp is not touched here. */
  function FetchNlwknData(parse: FloatParser, s: CacheState, fetch: Fetch): (r: Reply<NlwknResponse>)
    ensures fetch.FetchFailed? <==> r.Terminated?
    ensures r.Answered? ==>
              && r.state.lastFetched == s.lastFetched
              && r.body == fetch.response
              && r.state.data == ResponseToGeoJson(parse, fetch.response)
              && WellFormed(r.state.data)
  {
    match fetch
    case FetchFailed => Terminated
    case Fetched(response) => Answered(s.(data := ResponseToGeoJson(parse, response)), response)
  }

  /** Process start: the globals at their zero values, then one fetch before
      the server listens. The fetch stamp stays at the zero time. */
  function Startup(parse: FloatParser, fetch: Fetch): (r: Reply<NlwknResponse>)
    ensures fetch.FetchFailed? <==> r.Terminated?
    ensures r.Answered? ==>
              && r.state.lastFetched == Initial.lastFetched
              && r.state.data == ResponseToGeoJson(parse, fetch.response)
  {
    FetchNlwknData(parse, Initial, fetch)
  }

  /** `GET /pegelstaende.geojson`: refresh when stale, then serve the cache.
      `now` is the clock read by the staleness test and `stampedAt` the later
      reading taken after the fetch completes. */
  function ServeGeoJson(parse: FloatParser, s: CacheState, now: int, stampedAt: int, fetch: Fetch)
    : (r: Reply<FeatureCollection>)
    requires now <= stampedAt
    ensures !Stale(s, now) ==> r == Answered(s, s.data)
    ensures Stale(s, now) && fetch.FetchFailed? ==> r.Terminated?
    ensures Stale(s, now) && fetch.Fetched? ==>
              && r.Answered?
              && r.state.lastFetched == stampedAt
              && r.state.data == ResponseToGeoJson(parse, fetch.response)
    ensures r.Answered? ==> r.body == r.state.data
  {
    if Stale(s, now) then
      match FetchNlwknData(parse, s, fetch)
      case Terminated => Terminated
      case Answered(s', _) =>
        var s'' := s'.(lastFetched := stampedAt);
        Answered(s'', s''.data)
    else
      Answered(s, s.data)
  }

  /** `GET /xyz`: fetch unconditionally and answer with the raw upstream
      response. The served collection is replaced but the fetch stamp is not. */
  function ServeXyz(parse: FloatParser, s: CacheState, fetch: Fetch): (r: Reply<NlwknResponse>)
    ensures fetch.FetchFailed? <==> r.Terminated?
    ensures r.Answered? ==>
              && r.state == CacheState(ResponseToGeoJson(parse, fetch.response), s.lastFetched)
              && r.body == fetch.response
  {
    FetchNlwknData(parse, s, fetch)
  }

  /** After a refresh, a request at the same clock reading, or at any time up
      to five minutes after the stamp, is answered from the cache. */
  lemma NoSecondRefreshWithinWindow(parse: FloatParser, s: CacheState, now: int, stampedAt: int,
                                    fetch: Fetch, now2: int, stampedAt2: int, fetch2: Fetch)
    requires now <= stampedAt && now2 <= stampedAt2
    requires now2 <= stampedAt + RefreshAfter
    requires ServeGeoJson(parse, s, now, stampedAt, fetch).Answered?
    requires Stale(s, now)
    ensures var s' := ServeGeoJson(parse, s, now, stampedAt, fetch).state;
            ServeGeoJson(parse, s', now2, stampedAt2, fetch2) == Answered(s', s'.data)
  {
  }

  /** `/xyz` neither starts nor postpones the five-minute window: staleness
      after it is what it was before. */
  lemma XyzKeepsWindow(parse: FloatParser, s: CacheState, fetch: Fetch, now: int)
    requires fetch.Fetched?
    ensures Stale(ServeXyz(parse, s, fetch).state, now) == Stale(s, now)
  {
  }

  /** Because startup leaves the stamp at the zero time, the first
      `/pegelstaende.geojson` request fetches again. */
  lemma FirstRequestAfterStartupRefetches(parse: FloatParser, boot: Fetch, now: int, stampedAt: int, fetch: Fetch)
    requires boot.Fetched? && fetch.Fetched?
    requires RefreshAfter < now <= stampedAt
    ensures var s := Startup(parse, boot).state;
            ServeGeoJson(parse, s, now, stampedAt, fetch).state
            == CacheState(ResponseToGeoJson(parse, fetch.response), stampedAt)
  {
  }

  /** One `/pegelstaende.geojson` request of a run: the two clock readings and
      what the upstream would return if asked. */
  datatype Request = Request(now: int, stampedAt: int, fetch: Fetch)

  predicate ValidRequests(reqs: seq<Request>)
  {
    forall i :: 0 <= i < |reqs| ==> reqs[i].now <= reqs[i].stampedAt
  }

  /** The state after serving a run of requests in order, or `None` when one
      of them ended the process. */
  function Run(parse: FloatParser, s: CacheState, reqs: seq<Request>): Option<CacheState>
    requires ValidRequests(reqs)
    decreases |reqs|
  {
    if |reqs| == 0 then Some(s)
    else
      match ServeGeoJson(parse, s, reqs[0].now, reqs[0].stampedAt, reqs[0].fetch)
      case Terminated => None
      case Answered(s', _) => Run(parse, s', reqs[1..])
  }

  /** Every request of a run that arrives within five minutes of the last
      fetch is served from the cache: the state is unchanged and the upstream
      is never asked, whatever it would have answered. */
  lemma {:induction false} WarmRunChangesNothing(parse: FloatParser, s: CacheState, reqs: seq<Request>)
    requires ValidRequests(reqs)
    requires forall i :: 0 <= i < |reqs| ==> !Stale(s, reqs[i].now)
    ensures Run(parse, s, reqs) == Some(s)
    decreases |reqs|
  {
    if |reqs| > 0 {
      assert !Stale(s, reqs[0].now);
      WarmRunChangesNothing(parse, s, reqs[1..]);
    }
  }

  /** Along any run whose clock readings never precede the current stamp, the
      stamp never moves backwards. */
  lemma {:induction false} RunStampMonotone(parse: FloatParser, s: CacheState, reqs: seq<Request>)
    requires ValidRequests(reqs)
    requires forall i :: 0 <= i < |reqs| ==> s.lastFetched <= reqs[i].now
    requires forall i, j :: 0 <= i < j < |reqs| ==> reqs[i].stampedAt <= reqs[j].now
    ensures Run(parse, s, reqs).Some? ==> s.lastFetched <= Run(parse, s, reqs).value.lastFetched
    decreases |reqs|
  {
    if |reqs| > 0 {
      var r := ServeGeoJson(parse, s, reqs[0].now, reqs[0].stampedAt, reqs[0].fetch);
      if r.Answered? {
        var s' := r.state;
        assert s.lastFetched <= s'.lastFetched <= reqs[0].stampedAt || s' == s;
        forall i | 0 <= i < |reqs[1..]|
          ensures s'.lastFetched <= reqs[1..][i].now
        {
          assert reqs[1..][i] == reqs[i + 1];
        }
        RunStampMonotone(parse, s', reqs[1..]);
      }
    }
  }
}
