/** The station master's page: the station's summary figures, its trains and
    platforms (fixed for the life of the page), and the "AI Recommendations"
    panel whose Dismiss and Apply buttons both take the recommendation they
    sit on off the list. */
module StationMaster {
  import opened Seqs
  import opened StationTypes
  import StationVisualization

  /** The panel is drawn while there is at least one recommendation. */
  predicate ShowsRecommendations(alerts: seq<string>)
  {
    |alerts| > 0
  }

  /** Among distinct recommendations, the one at the clicked row is gone and
      every other one is still listed. */
  lemma DismissRemovesThatOne(alerts: seq<string>, k: int)
    requires 0 <= k < |alerts|
    requires forall i, j :: 0 <= i < j < |alerts| ==> alerts[i] != alerts[j]
    ensures alerts[k] !in RemoveAt(alerts, k)
    ensures forall i :: 0 <= i < |alerts| && i != k ==> alerts[i] in RemoveAt(alerts, k)
  {
    var r := RemoveAt(alerts, k);
    forall i | 0 <= i < |alerts| && i != k ensures alerts[i] in r {
      if i < k { assert r[i] == alerts[i]; } else { assert r[i - 1] == alerts[i]; }
    }
  }

  /** The list after a run of Dismiss or Apply clicks on rows `ks`. */
  function AfterClicks(alerts: seq<string>, ks: seq<int>): seq<string>
  {
    if ks == [] then alerts else AfterClicks(RemoveAt(alerts, ks[0]), ks[1..])
  }

  /** The clicks only ever take recommendations away, at most one per click,
      so the panel stays drawn while fewer clicks than recommendations have
      been made; a single click on the only recommendation hides it. */
  lemma {:induction false} PanelAfterRemoval(alerts: seq<string>, ks: seq<int>)
    ensures multiset(AfterClicks(alerts, ks)) <= multiset(alerts)
    ensures |AfterClicks(alerts, ks)| >= |alerts| - |ks|
    ensures |ks| < |alerts| ==> ShowsRecommendations(AfterClicks(alerts, ks))
    ensures |ks| == 1 && 0 <= ks[0] < |alerts| ==> (ShowsRecommendations(AfterClicks(alerts, ks)) <==> |alerts| > 1)
  {
    if ks != [] {
      PanelAfterRemoval(RemoveAt(alerts, ks[0]), ks[1..]);
    }
  }

  // ---------------------------------------------------------------------
  // Initial data.

  const PriorityDeparture: string := "Platform 3 requires priority departure in 5 minutes"
  const FreightReroute: string := "Incoming freight train needs rerouting to Platform 7"

  function MockStationData(): StationData
  {
    StationData("stn001", "Central Junction Station", "CJN", 8, 8, 5, 7, 12, 8, 4.5, "30 sec ago")
  }

  function MockTrains(): seq<TrainInfo>
  {
    [ TrainInfo("trn001", "Rajdhani Express", "12301", Express, 1, "14:30", "14:33", Delayed, 3, Arrival),
      TrainInfo("trn002", "Mumbai Local", "12002", Local, 3, "14:35", "14:35", OnTime, 0, Departure),
      TrainInfo("trn003", "Goods Special", "52103", Freight, 7, "14:40", "14:45", Approaching, 5, Arrival),
      TrainInfo("trn004", "Shatabdi Express", "12005", Express, 2, "14:20", "14:20", Departed, 0, Departure) ]
  }

  function MockPlatforms(): seq<PlatformInfo>
  {
    [ PlatformInfo(1, Occupied, Some("trn001"), Some("Rajdhani Express"), Some("14:45"), None),
      PlatformInfo(2, Free, None, None, None, Some("Express at 15:00")),
      PlatformInfo(3, Occupied, Some("trn002"), Some("Mumbai Local"), Some("14:38"), None),
      PlatformInfo(4, Reserved, None, None, None, Some("Freight at 15:15")),
      PlatformInfo(5, Occupied, Some("trn005"), Some("Chennai Express"), Some("14:50"), None),
      PlatformInfo(6, Maintenance, None, None, None, None),
      PlatformInfo(7, Free, None, None, None, Some("Goods at 14:45")),
      PlatformInfo(8, Occupied, Some("trn006"), Some("Delhi Express"), Some("15:10"), None) ]
  }

  /** On the shipped data the delayed Rajdhani Express is drawn on
      platform 1, and the departed Shatabdi Express is not drawn on
      platform 2. */
  lemma MockPlatformLookup()
    ensures StationVisualization.TrainOnPlatform(MockTrains(), 1) == Some(MockTrains()[0])
    ensures StationVisualization.TrainOnPlatform(MockTrains(), 2).None?
  {
    var ts := MockTrains();
    assert StationVisualization.OnPlatform(ts[0], 1);
    assert forall i :: 0 <= i < |ts| ==> !StationVisualization.OnPlatform(ts[i], 2);
  }

  // ---------------------------------------------------------------------
  // The page.

  class StationMasterPage {
    const stationData: StationData
    const trains: seq<TrainInfo>
    const platforms: seq<PlatformInfo>
    var aiAlerts: seq<string>

    constructor ()
      ensures stationData == MockStationData() && trains == MockTrains() && platforms == MockPlatforms()
      ensures aiAlerts == [PriorityDeparture, FreightReroute]
      ensures ShowsRecommendations(aiAlerts)
    {
      stationData := MockStationData();
      trains := MockTrains();
      platforms := MockPlatforms();
      aiAlerts := [PriorityDeparture, FreightReroute];
    }

    /** Dismiss on row `index`: every recommendation except the one at that
        position, in order; an index matching no row keeps the list. */
    method Dismiss(index: int)
      modifies this
      ensures aiAlerts == RemoveAt(old(aiAlerts), index)
      ensures 0 <= index < |old(aiAlerts)| ==> |aiAlerts| == |old(aiAlerts)| - 1
    {
      aiAlerts := RemoveAt(aiAlerts, index);
    }

    /** Apply on row `index`: the same update as Dismiss; nothing is
        carried out. */
    method Apply(index: int)
      modifies this
      ensures aiAlerts == RemoveAt(old(aiAlerts), index)
      ensures 0 <= index < |old(aiAlerts)| ==> |aiAlerts| == |old(aiAlerts)| - 1
    {
      aiAlerts := RemoveAt(aiAlerts, index);
    }
  }
}
