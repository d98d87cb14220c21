/** The live train tracking panel: a search box and two filter selects over
    the tracked trains, a click that toggles the selected train, and the
    delay label of each train card. */
module Tracking {
  import opened Seqs
  import opened Text

  datatype TrainType = Passenger | Freight | Express | Local
  datatype Status = OnTime | Delayed | Stopped | Approaching
  datatype Direction = North | South | East | West

  datatype TrainLocation = TrainLocation(
    id: string, name: string, number: string, kind: TrainType,
    currentStation: string, nextStation: string,
    latitude: real, longitude: real, speed: int, delay: int,
    status: Status, direction: Direction, lastUpdate: string)

  /** The search test: the name and the current station are compared
      without regard to case, the train number as typed. */
  predicate MatchesSearch(t: TrainLocation, term: string)
  {
    || Contains(ToLower(t.name), ToLower(term))
    || Contains(t.number, term)
    || Contains(ToLower(t.currentStation), ToLower(term))
  }

  predicate Matches(t: TrainLocation, term: string, ft: Choice<TrainType>, fs: Choice<Status>)
  {
    MatchesSearch(t, term) && Admits(ft, t.kind) && Admits(fs, t.status)
  }

  /** `filteredTrains`: the trains passing the search and both selects, in
      their original order. */
  function FilteredTrains(trains: seq<TrainLocation>, term: string, ft: Choice<TrainType>, fs: Choice<Status>): (r: seq<TrainLocation>)
    ensures IsSubseq(r, trains)
    ensures forall i :: 0 <= i < |r| ==> Matches(r[i], term, ft, fs)
    ensures forall i :: 0 <= i < |trains| && Matches(trains[i], term, ft, fs) ==> trains[i] in r
    ensures forall t :: multiset(r)[t] == if Matches(t, term, ft, fs) then multiset(trains)[t] else 0
  {
    FilterIsSubseq(trains, (t: TrainLocation) => Matches(t, term, ft, fs));
    Filter(trains, (t: TrainLocation) => Matches(t, term, ft, fs))
  }

  /** With an empty search box and both selects on "all", every train is
      listed. */
  lemma {:induction false} EmptySearchShowsAll(trains: seq<TrainLocation>)
    ensures FilteredTrains(trains, "", All, All) == trains
  {
    forall i | 0 <= i < |trains| ensures Matches(trains[i], "", All, All) {
      assert OccursAt(trains[i].number, "", 0);
    }
    FilterAll(trains, (t: TrainLocation) => Matches(t, "", All, All));
  }

  /** Upper-casing a term before lower-casing it changes nothing. */
  lemma LowerOfUpper(s: string)
    ensures ToLower(ToUpper(s)) == ToLower(s)
  {
    forall i | 0 <= i < |s| ensures ToLower(ToUpper(s))[i] == ToLower(s)[i] {
      assert LowerChar(UpperChar(s[i])) == LowerChar(s[i]);
    }
  }

  /** The name and station tests give the same answer for a term typed in
      capitals as for the term itself. */
  lemma NameAndStationIgnoreCase(t: TrainLocation, term: string)
    ensures Contains(ToLower(t.name), ToLower(ToUpper(term))) == Contains(ToLower(t.name), ToLower(term))
    ensures Contains(ToLower(t.currentStation), ToLower(ToUpper(term))) == Contains(ToLower(t.currentStation), ToLower(term))
  {
    LowerOfUpper(term);
  }

  /** The delay shown on a train card. */
  function DelayLabel(d: int): (r: string)
    ensures d > 0 ==> r == "+" + IntToString(d) + "m"
    ensures d < 0 ==> r == IntToString(d) + "m" && r[0] == '-'
    ensures d == 0 <==> r == "On time"
  {
    if d > 0 then
      var r := "+" + IntToString(d) + "m";
      assert r[0] != "On time"[0];
      r
    else if d < 0 then
      var r := IntToString(d) + "m";
      assert r[0] != "On time"[0];
      r
    else "On time"
  }

  /** A non-zero delay label carries the sign, then the digits of the
      delay's magnitude, then "m": reading the digits back gives `|d|`. */
  lemma DelayLabelRoundTrip(d: int)
    requires d != 0
    ensures var r := DelayLabel(d);
            && |r| >= 3 && r[|r| - 1] == 'm'
            && (r[0] == '+' <==> d > 0) && (r[0] == '-' <==> d < 0)
            && (forall i :: 1 <= i < |r| - 1 ==> '0' <= r[i] <= '9')
            && DigitsValue(r[1..|r| - 1]) == (if d > 0 then d else -d)
  {
    var r := DelayLabel(d);
    var n := if d > 0 then d else -d;
    NatToStringRoundTrip(n);
    assert r[1..|r| - 1] == NatToString(n);
  }

  /** The "High Delay" marker. */
  predicate HighDelay(d: int)
  {
    d > 10
  }

  /** The marker and the label agree: a train is marked as highly delayed
      exactly when its label reads "+", then a number above 10, then "m". */
  lemma HighDelayIsLate(d: int)
    ensures var r := DelayLabel(d);
            HighDelay(d) <==> |r| >= 3 && r[0] == '+' && DigitsValue(r[1..|r| - 1]) > 10
  {
    if d != 0 {
      DelayLabelRoundTrip(d);
    }
  }

  // ---------------------------------------------------------------------
  // Initial data.

  function GoodsSpecial(): TrainLocation
  {
    TrainLocation("T003", "Goods Special", "DFC321", Freight, "Jhansi Jn", "Gwalior",
                  25.4484, 78.5685, 0, 15, Stopped, North, "30 sec ago")
  }

  function MockTrains(): seq<TrainLocation>
  {
    [ TrainLocation("T001", "Rajdhani Express", "12001", Express, "New Delhi", "Kanpur Central",
                    28.6139, 77.2090, 95, -5, OnTime, East, "2 min ago"),
      TrainLocation("T002", "Mumbai Local", "90123", Local, "Andheri", "Bandra",
                    19.1197, 72.8464, 65, 3, Delayed, South, "1 min ago"),
      GoodsSpecial(),
      TrainLocation("T004", "Shatabdi Express", "12002", Express, "Approaching Agra", "Agra Cantt",
                    27.1767, 78.0081, 85, 0, Approaching, South, "45 sec ago"),
      TrainLocation("T005", "Chennai Express", "12615", Passenger, "Vijayawada", "Chennai Central",
                    16.5062, 80.6480, 78, 8, Delayed, South, "1 min ago") ]
  }

  /** The shipped freight train has letters in its number, so the search
      finds it for "DFC" but not for "dfc". */
  lemma NumberSearchIsCaseSensitive()
    ensures MatchesSearch(GoodsSpecial(), "DFC")
    ensures !MatchesSearch(GoodsSpecial(), "dfc")
  {
    var t := GoodsSpecial();
    assert OccursAt(t.number, "DFC", 0);
    LowerNoCapitals("dfc");
    FreightTextsLackF(t.name);
    FreightTextsLackF(t.currentStation);
    MissingCharNotContained(ToLower(t.name), "dfc", 1);
    MissingCharNotContained(t.number, "dfc", 1);
    MissingCharNotContained(ToLower(t.currentStation), "dfc", 1);
  }

  /** Neither the name nor the station of the freight train has an f. */
  lemma FreightTextsLackF(s: string)
    requires s == GoodsSpecial().name || s == GoodsSpecial().currentStation
    ensures 'f' !in ToLower(s)
  {
    LowerAvoids(s, 'f');
  }

  // ---------------------------------------------------------------------
  // The panel.

  class TrackingPanel {
    var trains: seq<TrainLocation>
    var searchTerm: string
    var selectedType: Choice<TrainType>
    var selectedStatus: Choice<Status>
    var selectedTrain: Option<string>

    function Visible(): seq<TrainLocation>
      reads this
    {
      FilteredTrains(trains, searchTerm, selectedType, selectedStatus)
    }

    constructor ()
      ensures trains == MockTrains() && searchTerm == ""
      ensures selectedType == All && selectedStatus == All && selectedTrain.None?
    {
      trains := MockTrains();
      searchTerm := "";
      selectedType, selectedStatus := All, All;
      selectedTrain := None;
    }

    method SetSearchTerm(term: string)
      modifies this
      ensures searchTerm == term
      ensures trains == old(trains) && selectedType == old(selectedType)
      ensures selectedStatus == old(selectedStatus) && selectedTrain == old(selectedTrain)
    {
      searchTerm := term;
    }

    method SetFilters(ft: Choice<TrainType>, fs: Choice<Status>)
      modifies this
      ensures selectedType == ft && selectedStatus == fs
      ensures trains == old(trains) && searchTerm == old(searchTerm) && selectedTrain == old(selectedTrain)
    {
      selectedType, selectedStatus := ft, fs;
    }

    /** A click on a train's map marker or its card. */
    method ClickTrain(id: string)
      modifies this
      ensures selectedTrain == Toggle(old(selectedTrain), id)
      ensures trains == old(trains) && searchTerm == old(searchTerm)
      ensures selectedType == old(selectedType) && selectedStatus == old(selectedStatus)
    {
      selectedTrain := Toggle(selectedTrain, id);
    }
  }
}
