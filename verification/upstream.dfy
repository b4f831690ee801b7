/**
  The decoded shape of the upstream water-level API's station list
  (`{"getStammdatenResult": [Station...]}`). Field names follow the wire
  contract of the provider; only their Dafny spelling is camel-cased.
  Values of this module are produced by JSON decoding, which is not modelled:
  every operation takes an already decoded `NlwknResponse`.
 */
module Upstream {

  /** One timestamped reading of a measured quantity (a "Datenspur"). */
  datatype Datenspur = Datenspur(
    aktuelleMeldeStufe: real,
    aktuellerMesswert: real,
    aktuellerMesswertText: string,
    aktuellerMesswertZeitpunkt: string,
    farbe: string,
    parameterName: string,
    parameterEinheit: string
  )

  /** A measured parameter of a station, with its ordered traces. */
  datatype DataParams = DataParams(
    datenspuren: seq<Datenspur>,
    name: string,
    einheit: string
  )

  /** A gauge station. The coordinates arrive as decimal strings. */
  datatype Station = Station(
    name: string,
    betreiber: string,
    longitude: string,
    latitude: string,
    parameter: seq<DataParams>,
    istSpeicher: bool  // dam or retention basin
  )

  /** The whole upstream document. */
  datatype NlwknResponse = NlwknResponse(stations: seq<Station>)

  /** True when the station carries a first trace of a first parameter,
      the only reading the service ever looks at. */
  predicate HasReading(st: Station)
  {
    |st.parameter| > 0 && |st.parameter[0].datenspuren| > 0
  }

  /** The first trace of the first parameter; only defined when it exists. */
  function FirstTrace(st: Station): Datenspur
    requires HasReading(st)
  {
    st.parameter[0].datenspuren[0]
  }
}
