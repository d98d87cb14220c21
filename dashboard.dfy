/** The section controller's dashboard: the stations ordered by traffic
    level, a click that toggles the selected station (which shows the
    track simulation), and the AI suggestion list from which accepting or
    rejecting a suggestion removes it. */
module Dashboard {
  import opened Seqs
  import opened Sorting
  import TrainSimulation

  datatype TrafficLevel = High | Medium | Normal

  datatype Station = Station(
    id: string, name: string, code: string, trafficLevel: TrafficLevel,
    activePlatforms: int, totalPlatforms: int, trainsInStation: int,
    pendingConflicts: int, averageDelay: int, throughput: int,
    lastUpdate: string)

  /** The comparator's weights: high 3, medium 2, normal 1. */
  function TrafficRank(l: TrafficLevel): int
  {
    match l
    case High => 3
    case Medium => 2
    case Normal => 1
  }

  function StationRank(s: Station): int
  {
    TrafficRank(s.trafficLevel)
  }

  /** `b - a` on the weights: a station goes first when its weight is larger. */
  predicate HeavierFirst(a: int, b: int)
  {
    a > b
  }

  lemma HeavierFirstIsStrictTotalOrder()
    ensures StrictTotalOrder(HeavierFirst)
  {
  }

  /** `[...stations].sort(...)`: a reordered copy of the list. */
  function SortedStations(stations: seq<Station>): (r: seq<Station>)
    ensures multiset(r) == multiset(stations) && |r| == |stations|
    ensures forall i, j :: 0 <= i < j < |r| ==> StationRank(r[i]) >= StationRank(r[j])
  {
    var r := SortBy(stations, StationRank, HeavierFirst);
    HeavierFirstIsStrictTotalOrder();
    SortBySorted(stations, StationRank, HeavierFirst);
    r
  }

  /** The order the dashboard shows: every high-traffic station before every
      medium one, and every medium one before every normal one. */
  lemma SortedStationsByLevel(stations: seq<Station>, i: int, j: int)
    requires 0 <= i < j < |stations|
    ensures var r := SortedStations(stations);
            && (r[j].trafficLevel == High ==> r[i].trafficLevel == High)
            && (r[j].trafficLevel == Medium ==> r[i].trafficLevel != Normal)
  {
  }

  /** The sort is stable: the stations of one traffic level keep their
      original relative order. */
  lemma {:induction false} SortedStationsStable(stations: seq<Station>, l: TrafficLevel)
    ensures KeyClass(SortedStations(stations), StationRank, TrafficRank(l))
         == KeyClass(stations, StationRank, TrafficRank(l))
  {
    HeavierFirstIsStrictTotalOrder();
    SortByStable(stations, StationRank, HeavierFirst, TrafficRank(l));
  }

  /** `selectedStation && ...`: the simulation panel is drawn for a
      selected, non-empty station id. */
  predicate ShowsSimulation(selected: Option<string>)
  {
    selected.Some? && selected.value != ""
  }

  /** `handleStationClick(id)`: the simulation panel opens on a click of
      an unselected (non-empty) station id and closes on a second click of
      the same one. */
  lemma ClickOpensThenCloses(selected: Option<string>, id: string)
    requires selected != Some(id) && id != ""
    ensures ShowsSimulation(Toggle(selected, id))
    ensures !ShowsSimulation(Toggle(Toggle(selected, id), id))
  {
  }

  /** `prev.filter(s => s.id !== id)`: drop the suggestions with that id,
      keep the others in order. */
  function RemoveSuggestion(ss: seq<TrainSimulation.Suggestion>, id: string): (r: seq<TrainSimulation.Suggestion>)
    ensures IsSubseq(r, ss)
    ensures forall i :: 0 <= i < |r| ==> r[i].id != id
    ensures forall i :: 0 <= i < |ss| && ss[i].id != id ==> ss[i] in r
    ensures forall s :: multiset(r)[s] == if s.id != id then multiset(ss)[s] else 0
  {
    FilterIsSubseq(ss, (s: TrainSimulation.Suggestion) => s.id != id);
    Filter(ss, (s: TrainSimulation.Suggestion) => s.id != id)
  }

  /** Removing an id no suggestion has changes nothing; removing twice is
      removing once. */
  lemma {:induction false} RemoveSuggestionAbsentAndTwice(ss: seq<TrainSimulation.Suggestion>, id: string)
    ensures (forall i :: 0 <= i < |ss| ==> ss[i].id != id) ==> RemoveSuggestion(ss, id) == ss
    ensures RemoveSuggestion(RemoveSuggestion(ss, id), id) == RemoveSuggestion(ss, id)
  {
    if forall i :: 0 <= i < |ss| ==> ss[i].id != id {
      FilterAll(ss, (s: TrainSimulation.Suggestion) => s.id != id);
    }
    var once := RemoveSuggestion(ss, id);
    FilterAll(once, (s: TrainSimulation.Suggestion) => s.id != id);
  }

  // ---------------------------------------------------------------------
  // Initial data.

  function MockStations(): seq<Station>
  {
    [ Station("stn001", "Central Junction", "CJN", High, 6, 8, 12, 2, 8, 45, "2 min ago"),
      Station("stn002", "Metro Terminal", "MTR", Medium, 4, 6, 8, 1, 3, 32, "1 min ago"),
      Station("stn003", "Freight Yard", "FYD", Normal, 3, 5, 5, 0, 2, 18, "30 sec ago"),
      Station("stn004", "Express Hub", "EXH", High, 5, 6, 9, 3, 12, 38, "45 sec ago") ]
  }

  function MockTrains(): seq<TrainSimulation.Train>
  {
    [ TrainSimulation.Train("trn001", "MGS EXP", TrainSimulation.Express, 3, 5, 65, 9, 35.0, 5, TrainSimulation.Moving),
      TrainSimulation.Train("trn002", "DFC 321", TrainSimulation.Freight, 4, 5, 45, 3, 40.0, 0, TrainSimulation.Conflict),
      TrainSimulation.Train("trn003", "RAJ EXP", TrainSimulation.Passenger, 2, 1, 80, 10, 65.0, 3, TrainSimulation.Moving) ]
  }

  const HoldMessage: string :=
    "Hold DFC 321 (freight) for 3 minutes to allow MGS Express to proceed first. This will reduce overall passenger delay by 8 minutes."
  const RerouteMessage: string :=
    "Reroute RAJ Express to Platform 2 instead of Platform 1 to optimize platform utilization."

  function MockSuggestions(): seq<TrainSimulation.Suggestion>
  {
    [ TrainSimulation.Suggestion("sug001", TrainSimulation.Hold, "trn002", HoldMessage,
        Some(3), None, TrainSimulation.High),
      TrainSimulation.Suggestion("sug002", TrainSimulation.Reroute, "trn003", RerouteMessage,
        None, Some(2), TrainSimulation.Medium) ]
  }

  // ---------------------------------------------------------------------
  // The page.

  class DashboardPage {
    var selectedStation: Option<string>
    const stations: seq<Station>
    const trains: seq<TrainSimulation.Train>
    var suggestions: seq<TrainSimulation.Suggestion>

    constructor ()
      ensures selectedStation.None? && stations == MockStations()
      ensures trains == MockTrains() && suggestions == MockSuggestions()
    {
      selectedStation := None;
      stations := MockStations();
      trains := MockTrains();
      suggestions := MockSuggestions();
    }

    method StationClick(id: string)
      modifies this
      ensures selectedStation == Toggle(old(selectedStation), id)
      ensures suggestions == old(suggestions)
    {
      selectedStation := Toggle(selectedStation, id);
    }

    method AcceptSuggestion(id: string)
      modifies this
      ensures suggestions == RemoveSuggestion(old(suggestions), id)
      ensures selectedStation == old(selectedStation)
    {
      suggestions := RemoveSuggestion(suggestions, id);
    }

    /** The same effect on the list as accepting. */
    method RejectSuggestion(id: string)
      modifies this
      ensures suggestions == RemoveSuggestion(old(suggestions), id)
      ensures selectedStation == old(selectedStation)
    {
      suggestions := RemoveSuggestion(suggestions, id);
    }
  }
}
