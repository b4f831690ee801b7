# nlwkn-pegelonline-geojson, modelled in Dafny

The service polls the NLWKN/Pegelonline water-level API for its list of gauge
stations, turns that list into a GeoJSON-like FeatureCollection for map
clients, and serves it over HTTP behind a five-minute lazy cache. This project
models the two pieces of logic in `main.go`:

- `ResponseToGeoJson`, the pure transformation from the decoded station list
  to the FeatureCollection (modules `Upstream`, `GeoJson`, `Transform`);
- the cache gate: the globals `data` and `lastTimeFetched`, the startup fetch,
  and the handlers of `GET /pegelstaende.geojson` and `GET /xyz` as pure
  transitions of an immutable state record (module `CacheGate`).

Modelling choices:

- `strconv.ParseFloat` is a parameter `parse: string -> Option<real>`;
  `None` stands for a syntax error. The source discards the error, so such a
  coordinate is Go's zero value, `0.0` (`Transform.Coordinate`).
- Float64 values are `real`.
- Time is integer nanoseconds since Go's zero `time.Time`, so the
  never-assigned `lastTimeFetched` is `0`. The staleness test
  `time.Since(lastTimeFetched).Minutes() > 5` is the exact integer test
  `now - lastFetched > 5 * 60 * 10^9`. Go saturates very long durations, but
  a saturated duration is still more than five minutes, so the outcome of the
  test is the same.
- `/pegelstaende.geojson` reads the clock twice: once for the test (`now`)
  and once after the fetch for the new stamp (`stampedAt`, with
  `now <= stampedAt`).
- The upstream GET and JSON decoding are a parameter `Fetch`: either the
  decoded response or a failure. On failure the source calls `log.Fatal`, so
  the model's reply is `Terminated` (the process ends).
- `main` fetches once before listening but does not set `lastTimeFetched`.
  The model keeps this: `CacheGate.Startup` leaves the stamp at the zero
  time, and `CacheGate.FirstRequestAfterStartupRefetches` proves that the
  first `/pegelstaende.geojson` request fetches again.
- The Point is emitted as `[latitude, longitude]`, which differs from the
  longitude-first order of section 3.1.1 of RFC 7946. The model keeps the
  source's order and proves it (`Transform.CoordinatesLatitudeFirst`).

## Model

| member | source | states |
|---|---|---|
| Transform.ToFeature | main.go:113-145 | A station's feature is a "Feature" with a "Point" of exactly two coordinates, latitude first. Its property map has exactly the six keys name, betreiber, marker-color, AktuellerMesswert, Einheit, IstSpeicher. Name, betreiber and IstSpeicher are copied verbatim. The display fields are "-", "-", "" without a first trace of the first parameter, and that trace's text, unit and colour otherwise |
| Transform.FeaturesOf | main.go:110-148 | Appending one feature per station gives exactly as many features as stations, feature i built from station i |
| Transform.ResponseToGeoJson | main.go:107-151 | The collection is a well-formed "FeatureCollection" with one feature per station in input order. Nothing is filtered or reordered, and empty input gives an empty feature list |
| Transform.FeatureDependsOnlyOnConsulted | main.go:114-144 | Two stations that agree on the copied fields, the coordinate strings and the first trace's text, colour and unit give the same feature |
| Transform.LaterParametersIgnored | main.go:122-129 | Replacing any parameter after index 0 leaves the feature unchanged |
| Transform.LaterTracesIgnored | main.go:122-129 | Replacing any trace after index 0 of the first parameter leaves the feature unchanged |
| Transform.ParameterUnitIgnored | main.go:125-129 | Changing the first parameter's own unit (`einheit`) leaves the feature unchanged; the displayed unit comes from the trace |
| Transform.CoordinatesLatitudeFirst | main.go:114-135 | The coordinates are [parse(Latitude), parse(Longitude)]. They equal the RFC 7946 order [longitude, latitude] exactly when both parse to the same value |
| Transform.UnparsableCoordinatesAreZero | main.go:114-115 | A latitude or longitude string that fails to parse contributes 0 to the point |
| Transform.FeaturesOfAppend | main.go:113-148 | The transformation distributes over concatenation of station lists, so each feature depends on its own station and the order follows the input |
| Transform.AgreeingResponsesSameCollection | main.go:113-148 | Responses that agree station by station on the consulted fields give the same collection |
| Transform.TwoStationExample | main.go:107-151 | For one station with numeric coordinates and a full reading, and one with no parameters and unparsable coordinates, the collection has two features. The first shows the trace's text, unit and colour at [latitude, longitude]. The second shows "-", "-", "" at [0, 0] and keeps its storage flag |
| CacheGate.FetchNlwknData | main.go:88-105 | A failed fetch ends the process. A successful one replaces the served collection with the transform of the response, returns the raw response and keeps the stamp |
| CacheGate.Startup | main.go:59-64 | Startup fetches once from the zero state. On success the collection is the transform of the response and the stamp stays at the zero time |
| CacheGate.ServeGeoJson | main.go:70-78 | Within five minutes (not strictly more) the state is unchanged and the cache is served without asking upstream. Otherwise a successful fetch sets the collection to the transform of the response and the stamp to the post-fetch clock reading, and a failed fetch ends the process. The body is always the new cache |
| CacheGate.ServeXyz | main.go:80-83 | Every call fetches. It replaces the collection, keeps the stamp, and answers with the raw decoded response, not the GeoJSON |
| CacheGate.NoSecondRefreshWithinWindow | main.go:72-75 | After a refresh, any later request up to five minutes after the new stamp is served from the cache, including one at the same clock reading |
| CacheGate.XyzKeepsWindow | main.go:80-83 | Whether the cache is stale at any time is the same before and after an `/xyz` call |
| CacheGate.FirstRequestAfterStartupRefetches | main.go:59-75 | Because startup never stamps the fetch time, the first `/pegelstaende.geojson` request fetches again |
| CacheGate.WarmRunChangesNothing | main.go:70-78 | A run of requests that all come within five minutes of the last fetch leaves the state unchanged and never ends the process |
| CacheGate.RunStampMonotone | main.go:72-75 | Along a run whose clock readings keep time order, the fetch stamp never moves backwards |

## Left out

- The HTTP server, routing, CORS and the listening port (main.go:63-69, 85): framework wiring with no logic of its own.
- The network call and the JSON decoding (main.go:90-101): the decoded `NlwknResponse`, or a failure, is a parameter.
- The internals of `strconv.ParseFloat` and float64 semantics. In particular a range error, which yields ±Inf, is not representable with `real`; the parser only returns a value or a syntax error.
- The float arithmetic of `time.Since(...).Minutes()`: replaced by an exact integer comparison of nanoseconds.
- The unsynchronised concurrent access to `data` and `lastTimeFetched`: requests are sequential transitions.
- Serialising the output to JSON text, Go map key ordering, and Go's distinction between a nil and an empty slice. The zero-value collection is modelled as type "" with no features.
- Transform.ResponseToGeoJson: the non-nil empty feature slice of line 110, which serialises as `[]` rather than `null`, is stated only as "empty input gives an empty feature list".
