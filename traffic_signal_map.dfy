/** The asset map of the front end: three mutually exclusive filters
    (signals, shown under the heading "Bridges"; signs; pavement markings),
    a statistics panel and a choice of base layer. The filter state is the
    `MapView` object; what the page shows is derived from it by priority. */
module TrafficSignalMap {
  import opened Common

  /** One mapped asset. The signals come from a data file that is not part
      of this model, so the view takes them as a constructor argument. */
  datatype Site = Site(lat: real, lng: real, condition: string, kind: string, location: string)

  const TrafficSigns: seq<Site> := [
    Site(29.7174, -95.4142, "Good", "Stop Sign", "Rice Village"),
    Site(29.7405, -95.4671, "Poor", "Yield Sign", "Galleria")
  ]

  const PavementMarkings: seq<Site> := [
    Site(29.7445, -95.3870, "Good", "Crosswalk", "Montrose"),
    Site(29.7643, -95.4473, "Fair", "Lane Divider", "Memorial Park")
  ]

  datatype Statistics = Statistics(title: string, data: seq<Site>, columns: seq<string>)

  datatype Position = Position(lat: real, lng: real)

  /** `sites.map((s) => [s.lat, s.lng])`. */
  function Positions(sites: seq<Site>): (r: seq<Position>)
    ensures |r| == |sites|
    ensures forall i :: 0 <= i < |sites| ==> r[i] == Position(sites[i].lat, sites[i].lng)
  {
    if |sites| == 0 then []
    else Positions(sites[..|sites| - 1]) + [Position(sites[|sites| - 1].lat, sites[|sites| - 1].lng)]
  }

  const StreetTiles := "https://{s}.tile.openstreetmap.org/{z}/{x}/{y}.png"
  const SatelliteTiles := "https://server.arcgisonline.com/ArcGIS/rest/services/World_Imagery/MapServer/tile/{z}/{y}/{x}"
  const TopographicTiles := "https://{s}.tile.opentopomap.org/{z}/{x}/{y}.png"

  /** The tile server for a base layer; any value but the first two gets
      the topographic tiles. */
  function TileUrl(layer: string): (r: string)
    ensures r == StreetTiles <==> layer == "street"
    ensures r == SatelliteTiles <==> layer == "satellite"
    ensures r == TopographicTiles <==> layer != "street" && layer != "satellite"
  {
    assert |StreetTiles| == 50 && |SatelliteTiles| == 93 && |TopographicTiles| == 48;
    if layer == "street" then StreetTiles
    else if layer == "satellite" then SatelliteTiles
    else TopographicTiles
  }

  class MapView {
    const signals: seq<Site>
    var showTrafficSignals: bool
    var showTrafficSigns: bool
    var showPavementMarkings: bool
    var showStatistics: bool
    var activeLayer: string

    /** The filters never show two kinds of asset at once. */
    predicate AtMostOneFilter()
      reads this
    {
      && !(showTrafficSignals && showTrafficSigns)
      && !(showTrafficSignals && showPavementMarkings)
      && !(showTrafficSigns && showPavementMarkings)
    }

    constructor (signalData: seq<Site>)
      ensures signals == signalData
      ensures !showTrafficSignals && !showTrafficSigns && !showPavementMarkings && !showStatistics
      ensures activeLayer == "street"
      ensures AtMostOneFilter()
    {
      signals := signalData;
      showTrafficSignals, showTrafficSigns, showPavementMarkings := false, false, false;
      showStatistics, activeLayer := false, "street";
    }

    method ToggleTrafficSignals()
      modifies this
      ensures showTrafficSignals == !old(showTrafficSignals)
      ensures !showTrafficSigns && !showPavementMarkings
      ensures showStatistics == old(showStatistics) && activeLayer == old(activeLayer)
      ensures AtMostOneFilter()
    {
      showTrafficSignals := !showTrafficSignals;
      showTrafficSigns := false;
      showPavementMarkings := false;
    }

    method ToggleTrafficSigns()
      modifies this
      ensures showTrafficSigns == !old(showTrafficSigns)
      ensures !showTrafficSignals && !showPavementMarkings
      ensures showStatistics == old(showStatistics) && activeLayer == old(activeLayer)
      ensures AtMostOneFilter()
    {
      showTrafficSigns := !showTrafficSigns;
      showTrafficSignals := false;
      showPavementMarkings := false;
    }

    method TogglePavementMarkings()
      modifies this
      ensures showPavementMarkings == !old(showPavementMarkings)
      ensures !showTrafficSignals && !showTrafficSigns
      ensures showStatistics == old(showStatistics) && activeLayer == old(activeLayer)
      ensures AtMostOneFilter()
    {
      showPavementMarkings := !showPavementMarkings;
      showTrafficSignals := false;
      showTrafficSigns := false;
    }

    /** The statistics button leaves the filters and the layer alone. */
    method ToggleStatistics()
      modifies this
      ensures showStatistics == !old(showStatistics)
      ensures showTrafficSignals == old(showTrafficSignals) && showTrafficSigns == old(showTrafficSigns)
      ensures showPavementMarkings == old(showPavementMarkings) && activeLayer == old(activeLayer)
      ensures AtMostOneFilter() == old(AtMostOneFilter())
    {
      showStatistics := !showStatistics;
    }

    method SelectLayer(layer: string)
      modifies this
      ensures activeLayer == layer
      ensures showTrafficSignals == old(showTrafficSignals) && showTrafficSigns == old(showTrafficSigns)
      ensures showPavementMarkings == old(showPavementMarkings) && showStatistics == old(showStatistics)
    {
      activeLayer := layer;
    }

    /** `getStatistics`: signals first, then signs, then markings. */
    function GetStatistics(): (r: Option<Statistics>)
      reads this
      ensures r.None? <==> !showTrafficSignals && !showTrafficSigns && !showPavementMarkings
      ensures showTrafficSignals ==> r == Some(Statistics("Bridges", signals, ["Age"]))
      ensures !showTrafficSignals && showTrafficSigns ==> r == Some(Statistics("Traffic Signs", TrafficSigns, ["Type"]))
      ensures !showTrafficSignals && !showTrafficSigns && showPavementMarkings ==>
        r == Some(Statistics("Pavement Markings", PavementMarkings, ["Type"]))
    {
      if showTrafficSignals then Some(Statistics("Bridges", signals, ["Age"]))
      else if showTrafficSigns then Some(Statistics("Traffic Signs", TrafficSigns, ["Type"]))
      else if showPavementMarkings then Some(Statistics("Pavement Markings", PavementMarkings, ["Type"]))
      else None
    }

    /** `getActivePositions`, with the same priority. */
    function ActivePositions(): (r: seq<Position>)
      reads this
      ensures GetStatistics().None? ==> r == []
      ensures GetStatistics().Some? ==> r == Positions(GetStatistics().value.data)
    {
      if showTrafficSignals then Positions(signals)
      else if showTrafficSigns then Positions(TrafficSigns)
      else if showPavementMarkings then Positions(PavementMarkings)
      else []
    }

    function Tiles(): (r: string)
      reads this
      ensures r == StreetTiles <==> activeLayer == "street"
      ensures r == SatelliteTiles <==> activeLayer == "satellite"
      ensures r == TopographicTiles <==> activeLayer != "street" && activeLayer != "satellite"
    {
      TileUrl(activeLayer)
    }
  }

  /** The map's markers are the positions of exactly the sites the
      statistics table lists, one per site and in the same order; with no
      filter there are none. */
  lemma ActivePositionsMatchStatistics(m: MapView)
    ensures m.GetStatistics().None? ==> m.ActivePositions() == []
    ensures m.GetStatistics().Some? ==>
      var data := m.GetStatistics().value.data;
      && |m.ActivePositions()| == |data|
      && forall i :: 0 <= i < |data| ==> m.ActivePositions()[i] == Position(data[i].lat, data[i].lng)
  {
  }

  /** Under the one-filter invariant the priority order does not matter:
      each flag alone decides what is shown. */
  lemma OneFilterDecides(m: MapView)
    requires m.AtMostOneFilter()
    ensures m.showTrafficSignals ==> m.GetStatistics() == Some(Statistics("Bridges", m.signals, ["Age"]))
    ensures m.showTrafficSignals ==> m.ActivePositions() == Positions(m.signals)
    ensures m.showTrafficSigns ==> m.GetStatistics() == Some(Statistics("Traffic Signs", TrafficSigns, ["Type"]))
    ensures m.showTrafficSigns ==> m.ActivePositions() == Positions(TrafficSigns)
    ensures m.showPavementMarkings ==>
      m.GetStatistics() == Some(Statistics("Pavement Markings", PavementMarkings, ["Type"]))
    ensures m.showPavementMarkings ==> m.ActivePositions() == Positions(PavementMarkings)
  {
  }

  /** The fixed sign and marking data place two markers each. */
  lemma FixedSitesPositions()
    ensures Positions(TrafficSigns) == [Position(29.7174, -95.4142), Position(29.7405, -95.4671)]
    ensures Positions(PavementMarkings) == [Position(29.7445, -95.3870), Position(29.7643, -95.4473)]
  {
  }
}
