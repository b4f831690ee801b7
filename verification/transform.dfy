/**
  The transformation of a decoded station list into the FeatureCollection
  served to map clients (`ResponseToGeoJson`). It is a pure function of the
  upstream response and of the float parser it uses for coordinates.
 */
module Transform {
  import opened Upstream
  import opened GeoJson

  datatype Option<T> = None | Some(value: T)

  /** The base-10 float parser used for coordinate strings: `Some(v)` when the
      string is a number, `None` on a syntax error. The parser itself is not
      modelled; it is a parameter of every operation that needs it. */
  type FloatParser = string -> Option<real>

  /** A parsed coordinate. The parse error is discarded, so a string that does
      not parse contributes the zero value. */
  function Coordinate(parse: FloatParser, s: string): real
  {
    match parse(s)
    case Some(v) => v
    case None => 0.0
  }

  /** The three display fields of a feature, taken from the station's first
      trace of its first parameter, with fixed defaults when that is missing. */
  datatype Display = Display(messwert: string, einheit: string, farbe: string)

  function DisplayOf(st: Station): Display
  {
    if !HasReading(st) then Display("-", "-", "")
    else
      var t := FirstTrace(st);
      Display(t.aktuellerMesswertText, t.parameterEinheit, t.farbe)
  }

  /** The feature built for one station (the body of the loop in ResponseToGeoJson). */
  function ToFeature(parse: FloatParser, st: Station): (f: Feature)
    ensures WellFormedFeature(f)
    ensures f.geometry.coordinates[0] == Coordinate(parse, st.latitude)
    ensures f.geometry.coordinates[1] == Coordinate(parse, st.longitude)
    ensures f.properties[NameKey] == Text(st.name)
    ensures f.properties[BetreiberKey] == Text(st.betreiber)
    ensures f.properties[IstSpeicherKey] == Flag(st.istSpeicher)
    ensures !HasReading(st) ==>
              && f.properties[MesswertKey] == Text("-")
              && f.properties[EinheitKey] == Text("-")
              && f.properties[MarkerColorKey] == Text("")
    ensures HasReading(st) ==>
              && f.properties[MesswertKey] == Text(st.parameter[0].datenspuren[0].aktuellerMesswertText)
              && f.properties[EinheitKey] == Text(st.parameter[0].datenspuren[0].parameterEinheit)
              && f.properties[MarkerColorKey] == Text(st.parameter[0].datenspuren[0].farbe)
  {
    var longitude := Coordinate(parse, st.longitude);
    var latitude := Coordinate(parse, st.latitude);
    var d := DisplayOf(st);
    Feature(
      "Feature",
      Geometry("Point", [latitude, longitude]),
      map[
        NameKey := Text(st.name),
        BetreiberKey := Text(st.betreiber),
        MarkerColorKey := Text(d.farbe),
        MesswertKey := Text(d.messwert),
        EinheitKey := Text(d.einheit),
        IstSpeicherKey := Flag(st.istSpeicher)
      ])
  }

  /** The features for a station list, built by appending one feature per
      station in input order, as the source's range loop does. */
  function FeaturesOf(parse: FloatParser, stations: seq<Station>): (fs: seq<Feature>)
    ensures |fs| == |stations|
    ensures forall i :: 0 <= i < |stations| ==> fs[i] == ToFeature(parse, stations[i])
  {
    if |stations| == 0 then []
    else FeaturesOf(parse, stations[..|stations| - 1]) + [ToFeature(parse, stations[|stations| - 1])]
  }

  /** The whole transformation: one feature per station, nothing filtered,
      nothing reordered, an empty response giving an empty feature list. */
  function ResponseToGeoJson(parse: FloatParser, response: NlwknResponse): (c: FeatureCollection)
    ensures WellFormed(c)
    ensures |c.features| == |response.stations|
    ensures forall i :: 0 <= i < |response.stations| ==>
              c.features[i] == ToFeature(parse, response.stations[i])
    ensures response.stations == [] ==> c.features == []
  {
    FeatureCollection("FeatureCollection", FeaturesOf(parse, response.stations))
  }

  /** Two stations agree on everything the transformation reads: the copied
      fields, the coordinate strings, and the display fields of the first
      trace of the first parameter (or its absence). */
  predicate AgreeOnConsulted(a: Station, b: Station)
  {
    && a.name == b.name
    && a.betreiber == b.betreiber
    && a.longitude == b.longitude
    && a.latitude == b.latitude
    && a.istSpeicher == b.istSpeicher
    && HasReading(a) == HasReading(b)
    && (HasReading(a) ==>
          && FirstTrace(a).aktuellerMesswertText == FirstTrace(b).aktuellerMesswertText
          && FirstTrace(a).farbe == FirstTrace(b).farbe
          && FirstTrace(a).parameterEinheit == FirstTrace(b).parameterEinheit)
  }

  /** A feature is determined by the consulted fields alone: the numeric
      reading, the alert level, the timestamp, the parameter's own name and
      unit, and every later parameter and trace are never looked at. */
  lemma FeatureDependsOnlyOnConsulted(parse: FloatParser, a: Station, b: Station)
    requires AgreeOnConsulted(a, b)
    ensures ToFeature(parse, a) == ToFeature(parse, b)
  {
    assert DisplayOf(a) == DisplayOf(b);
  }

  /** Replacing any parameter after the first leaves the feature unchanged. */
  lemma LaterParametersIgnored(parse: FloatParser, st: Station, k: nat, p: DataParams)
    requires 0 < k < |st.parameter|
    ensures ToFeature(parse, st.(parameter := st.parameter[k := p])) == ToFeature(parse, st)
  {
    FeatureDependsOnlyOnConsulted(parse, st.(parameter := st.parameter[k := p]), st);
  }

  /** Replacing any trace after the first of the first parameter leaves the
      feature unchanged. */
  lemma LaterTracesIgnored(parse: FloatParser, st: Station, k: nat, t: Datenspur)
    requires |st.parameter| > 0 && 0 < k < |st.parameter[0].datenspuren|
    ensures
      var p0 := st.parameter[0];
      var st' := st.(parameter := st.parameter[0 := p0.(datenspuren := p0.datenspuren[k := t])]);
      ToFeature(parse, st') == ToFeature(parse, st)
  {
    var p0 := st.parameter[0];
    var st' := st.(parameter := st.parameter[0 := p0.(datenspuren := p0.datenspuren[k := t])]);
    FeatureDependsOnlyOnConsulted(parse, st', st);
  }

  /** The unit carried by the parameter itself is never used: the displayed
      unit comes from the trace. */
  lemma ParameterUnitIgnored(parse: FloatParser, st: Station, einheit: string)
    requires |st.parameter| > 0
    ensures ToFeature(parse, st.(parameter := st.parameter[0 := st.parameter[0].(einheit := einheit)]))
            == ToFeature(parse, st)
  {
    FeatureDependsOnlyOnConsulted(parse, st.(parameter := st.parameter[0 := st.parameter[0].(einheit := einheit)]), st);
  }

  /** The point is emitted latitude first. It coincides with the RFC 7946
      (section 3.1.1) longitude-first order only when both parse to the same value. */
  lemma CoordinatesLatitudeFirst(parse: FloatParser, st: Station)
    ensures ToFeature(parse, st).geometry.coordinates
            == [Coordinate(parse, st.latitude), Coordinate(parse, st.longitude)]
    ensures ToFeature(parse, st).geometry.coordinates
            == [Coordinate(parse, st.longitude), Coordinate(parse, st.latitude)]
            <==> Coordinate(parse, st.latitude) == Coordinate(parse, st.longitude)
  {
  }

  /** A coordinate string that does not parse contributes 0 to the point. */
  lemma UnparsableCoordinatesAreZero(parse: FloatParser, st: Station)
    ensures parse(st.latitude).None? ==> ToFeature(parse, st).geometry.coordinates[0] == 0.0
    ensures parse(st.longitude).None? ==> ToFeature(parse, st).geometry.coordinates[1] == 0.0
  {
  }

  /** The transformation distributes over concatenation of station lists:
      each station's feature depends on that station alone, and the order of
      features follows the order of stations. */
  lemma {:induction false} FeaturesOfAppend(parse: FloatParser, a: seq<Station>, b: seq<Station>)
    ensures FeaturesOf(parse, a + b) == FeaturesOf(parse, a) + FeaturesOf(parse, b)
  {
    if |b| == 0 {
      assert a + b == a;
    } else {
      var b' := b[..|b| - 1];
      assert (a + b)[..|a + b| - 1] == a + b';
      FeaturesOfAppend(parse, a, b');
    }
  }

  /** Station lists that agree pointwise on the consulted fields give the same
      collection. */
  lemma {:induction false} AgreeingResponsesSameCollection(parse: FloatParser, r1: NlwknResponse, r2: NlwknResponse)
    requires |r1.stations| == |r2.stations|
    requires forall i :: 0 <= i < |r1.stations| ==> AgreeOnConsulted(r1.stations[i], r2.stations[i])
    ensures ResponseToGeoJson(parse, r1) == ResponseToGeoJson(parse, r2)
  {
    forall i | 0 <= i < |r1.stations|
      ensures ToFeature(parse, r1.stations[i]) == ToFeature(parse, r2.stations[i])
    {
      FeatureDependsOnlyOnConsulted(parse, r1.stations[i], r2.stations[i]);
    }
  }

  /** A concrete two-station response: one with numeric coordinates and a
      full reading, one with no parameters and coordinates that do not parse. */
  lemma TwoStationExample()
    ensures
      var parse: FloatParser := s => if s == "52.37" then Some(52.37) else if s == "9.73" then Some(9.73) else None;
      var trace := Datenspur(2.0, 143.0, "143 cm", "2024-01-01T12:00", "#00ff00", "Wasserstand", "cm");
      var full := Station("Hannover", "NLWKN", "9.73", "52.37", [DataParams([trace], "Wasserstand", "m")], false);
      var bare := Station("Oker", "Harzwasserwerke", "n/a", "", [], true);
      var c := ResponseToGeoJson(parse, NlwknResponse([full, bare]));
      && |c.features| == 2
      && c.features[0].geometry.coordinates == [52.37, 9.73]
      && c.features[0].properties[MesswertKey] == Text("143 cm")
      && c.features[0].properties[EinheitKey] == Text("cm")
      && c.features[0].properties[MarkerColorKey] == Text("#00ff00")
      && c.features[1].geometry.coordinates == [0.0, 0.0]
      && c.features[1].properties[MesswertKey] == Text("-")
      && c.features[1].properties[EinheitKey] == Text("-")
      && c.features[1].properties[MarkerColorKey] == Text("")
      && c.features[1].properties[IstSpeicherKey] == Flag(true)
  {
  }
}
