/**
  The output shape served to map clients: a GeoJSON-like FeatureCollection of
  Point features. The property keys are German wire names and are part of the
  external contract.
 */
module GeoJson {

  /** A value in a feature's property map: the source stores strings and one bool. */
  datatype PropValue = Text(text: string) | Flag(flag: bool)

  datatype Geometry = Geometry(typ: string, coordinates: seq<real>)

  datatype Feature = Feature(typ: string, geometry: Geometry, properties: map<string, PropValue>)

  datatype FeatureCollection = FeatureCollection(typ: string, features: seq<Feature>)

  const NameKey := "name"
  const BetreiberKey := "betreiber"
  const MarkerColorKey := "marker-color"
  const MesswertKey := "AktuellerMesswert"
  const EinheitKey := "Einheit"
  const IstSpeicherKey := "IstSpeicher"

  /** The six keys every feature's property map carries, and no other. */
  const PropertyKeys: set<string> :=
    {NameKey, BetreiberKey, MarkerColorKey, MesswertKey, EinheitKey, IstSpeicherKey}

  /** The zero value of the collection, held before anything was fetched. */
  const EmptyCollection := FeatureCollection("", [])

  /** Well-formed output: the shape every transformed collection has. */
  predicate WellFormedFeature(f: Feature)
  {
    && f.typ == "Feature"
    && f.geometry.typ == "Point"
    && |f.geometry.coordinates| == 2
    && f.properties.Keys == PropertyKeys
  }

  predicate WellFormed(c: FeatureCollection)
  {
    && c.typ == "FeatureCollection"
    && forall i :: 0 <= i < |c.features| ==> WellFormedFeature(c.features[i])
  }
}
