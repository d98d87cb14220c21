/** The realistic track simulation of a station: two canned scenarios, a
    periodic movement tick, and the operator's answers to the AI suggestions
    (accept, override with a manual stop, an "auto" alternative, or ignore).

    The pure per-train rewrites and the step functions on `SimState` say what
    every handler does; the class `Simulation` holds the component's state
    fields and its methods are proved to perform exactly those steps. The
    timers of the component are explicit operations here: `Tick` is one
    firing of the movement interval and `FireTimer` one firing of a pending
    hold-resume timeout. The parent's `onAcceptSuggestion` and
    `onRejectSuggestion` callbacks are recorded as emitted events. */
module RealisticSimulation {
  import opened Seqs

  datatype TrainType = Passenger | Freight | Express | Local
  datatype TrainStatus = Moving | Waiting | Conflict | Stopped | AtPlatform

  /** A train on the track layout; `position` is the percentage along its
      track and `route` the track numbers it runs over. */
  datatype Train = Train(
    id: string, name: string, kind: TrainType,
    currentTrack: int, targetTrack: int, speed: int, priority: int,
    position: real, delay: int, status: TrainStatus,
    platform: Option<int>, route: seq<int>)

  datatype SuggestionType = Hold | Proceed | Reroute | PlatformChange
  datatype Priority = High | Medium | Low
  datatype ConflictKind = TrackConflictKind | PlatformConflictKind | OptimizationKind

  datatype Suggestion = Suggestion(
    id: string, kind: SuggestionType, trainId: string,
    affectedTrainId: Option<string>, message: string,
    duration: Option<int>, alternativeTrack: Option<int>,
    alternativePlatform: Option<int>, priority: Priority,
    scenario: ConflictKind)

  datatype Scenario = TrackConflict | PlatformConflict
  datatype OverrideChoice = Manual | Auto | Ignore

  /** A call of the parent's callback. */
  datatype Event = AcceptNotified(suggestionId: string) | RejectNotified(suggestionId: string)

  /** A pending `setTimeout` that will set the train back to moving. */
  datatype ResumeTimer = ResumeTimer(trainId: string, delayMs: int)

  /** The component's state. */
  datatype SimState = SimState(
    scenario: Scenario, isPlaying: bool, selectedTrain: Option<string>,
    trains: seq<Train>, suggestions: seq<Suggestion>,
    showOverrideDialog: bool, currentSuggestion: Option<Suggestion>,
    applied: set<string>, timers: seq<ResumeTimer>, emitted: seq<Event>)

  const MaxPosition: real := 95.0
  const SwitchPosition: real := 60.0

  function SpeedMultiplier(kind: TrainType): real
  {
    if kind == Express then 1.5 else if kind == Freight then 0.7 else 1.0
  }

  /** The distance a train covers in one tick. */
  function Increment(t: Train): (r: real)
    ensures r > 0.0
    ensures t.status == Moving ==>
              r == (if t.kind == Express then 1.8 else if t.kind == Freight then 0.84 else 1.2)
    ensures t.status != Moving ==>
              r == (if t.kind == Express then 0.75 else if t.kind == Freight then 0.35 else 0.5)
  {
    SpeedMultiplier(t.kind) * (if t.status == Moving then 1.2 else 0.5)
  }

  predicate Frozen(t: Train)
  {
    t.status == Waiting || t.status == Stopped
  }

  /** One tick for one train. */
  function TickTrain(t: Train): (r: Train)
    ensures Frozen(t) ==> r == t
    ensures r == t.(position := r.position, currentTrack := r.currentTrack)
    ensures !Frozen(t) ==> r.position == Min(t.position + Increment(t), MaxPosition)
    ensures t.position <= MaxPosition ==> t.position <= r.position <= MaxPosition
    ensures r.currentTrack != t.currentTrack ==>
              |t.route| > 1 && r.position > SwitchPosition && r.currentTrack == t.route[1]
    ensures !Frozen(t) && |t.route| > 1 && r.position > SwitchPosition ==> r.currentTrack == t.route[1]
  {
    if Frozen(t) then t
    else
      var p := Min(t.position + Increment(t), MaxPosition);
      var track := if |t.route| > 1 && p > SwitchPosition then t.route[1] else t.currentTrack;
      t.(position := p, currentTrack := track)
  }

  /** One firing of the movement interval over the whole list. */
  function TickAll(ts: seq<Train>): (r: seq<Train>)
    ensures |r| == |ts|
    ensures forall i :: 0 <= i < |ts| ==> r[i] == TickTrain(ts[i])
  {
    seq(|ts|, i requires 0 <= i < |ts| => TickTrain(ts[i]))
  }

  /** `n` successive ticks: only positions and tracks change, and a
      waiting or stopped train does not change at all. */
  function Ticks(ts: seq<Train>, n: nat): (r: seq<Train>)
    ensures |r| == |ts|
    ensures forall i :: 0 <= i < |ts| ==>
              r[i] == ts[i].(position := r[i].position, currentTrack := r[i].currentTrack)
    ensures forall i :: 0 <= i < |ts| && Frozen(ts[i]) ==> r[i] == ts[i]
  {
    if n == 0 then ts else TickAll(Ticks(ts, n - 1))
  }

  /** However many ticks run, a train that starts at or below 95 never moves
      backwards, never passes 95, and keeps its identity and list slot. */
  lemma {:induction false} TicksMonotoneBounded(ts: seq<Train>, n: nat, i: nat)
    requires i < |ts| && ts[i].position <= MaxPosition
    ensures Ticks(ts, n)[i].id == ts[i].id
    ensures ts[i].position <= Ticks(ts, n)[i].position <= MaxPosition
  {
    if n > 0 {
      TicksMonotoneBounded(ts, n - 1, i);
    }
  }

  /** `getTrainOnTrack`: the trains on track `n`, in list order. */
  function TrainsOnTrack(ts: seq<Train>, n: int): (r: seq<Train>)
    ensures IsSubseq(r, ts)
    ensures forall i :: 0 <= i < |r| ==> r[i].currentTrack == n
    ensures forall i :: 0 <= i < |ts| && ts[i].currentTrack == n ==> ts[i] in r
    ensures forall t :: multiset(r)[t] == if t.currentTrack == n then multiset(ts)[t] else 0
  {
    FilterIsSubseq(ts, (t: Train) => t.currentTrack == n);
    Filter(ts, (t: Train) => t.currentTrack == n)
  }

  /** `suggestions.find(s => s.id === id)`. */
  function FindSuggestion(ss: seq<Suggestion>, id: string): (r: Option<Suggestion>)
    ensures r.None? <==> forall i :: 0 <= i < |ss| ==> ss[i].id != id
    ensures r.Some? ==> exists k :: 0 <= k < |ss| && ss[k] == r.value && ss[k].id == id
                          && forall j :: 0 <= j < k ==> ss[j].id != id
  {
    Find(ss, (s: Suggestion) => s.id == id)
  }

  /** Give every train with id `id` the status `st`; the others are untouched. */
  function SetStatus(ts: seq<Train>, id: string, st: TrainStatus): (r: seq<Train>)
    ensures |r| == |ts|
    ensures forall i :: 0 <= i < |ts| ==>
              r[i] == if ts[i].id == id then ts[i].(status := st) else ts[i]
  {
    seq(|ts|, i requires 0 <= i < |ts| => if ts[i].id == id then ts[i].(status := st) else ts[i])
  }

  /** The reroute rewrite of one train: a truthy alternative track becomes
      the target and the route becomes current track then alternative;
      without one both fields keep their values. */
  function RerouteTrain(t: Train, alt: Option<int>): (r: Train)
    ensures Truthy(alt) ==> r == t.(targetTrack := alt.value, route := [t.currentTrack, alt.value])
    ensures !Truthy(alt) ==> r == t
  {
    t.(targetTrack := if Truthy(alt) then alt.value else t.targetTrack,
       route := if Truthy(alt) then [t.currentTrack, alt.value] else t.route)
  }

  function RerouteTrains(ts: seq<Train>, id: string, alt: Option<int>): (r: seq<Train>)
    ensures |r| == |ts|
    ensures forall i :: 0 <= i < |ts| ==>
              r[i] == if ts[i].id == id then RerouteTrain(ts[i], alt) else ts[i]
  {
    seq(|ts|, i requires 0 <= i < |ts| => if ts[i].id == id then RerouteTrain(ts[i], alt) else ts[i])
  }

  /** A train named by the suggestion, as the train itself or as the other
      train of the conflict. */
  predicate Involved(t: Train, s: Suggestion)
  {
    t.id == s.trainId || (s.affectedTrainId.Some? && t.id == s.affectedTrainId.value)
  }

  /** The manual override: stop exactly the trains the suggestion involves. */
  function StopInvolved(ts: seq<Train>, s: Suggestion): (r: seq<Train>)
    ensures |r| == |ts|
    ensures forall i :: 0 <= i < |ts| ==>
              r[i] == if Involved(ts[i], s) then ts[i].(status := Stopped) else ts[i]
  {
    seq(|ts|, i requires 0 <= i < |ts| => if Involved(ts[i], s) then ts[i].(status := Stopped) else ts[i])
  }

  /** The "auto" override: every moving train is in conflict. */
  function AutoConflict(ts: seq<Train>): (r: seq<Train>)
    ensures |r| == |ts|
    ensures forall i :: 0 <= i < |ts| ==>
              r[i] == ts[i].(status := if ts[i].status == Moving then Conflict else ts[i].status)
  {
    seq(|ts|, i requires 0 <= i < |ts| =>
      ts[i].(status := if ts[i].status == Moving then Conflict else ts[i].status))
  }

  /** `(suggestion.duration || 3) * 1000`. */
  function ResumeDelayMs(duration: Option<int>): (r: int)
    ensures Truthy(duration) ==> r == duration.value * 1000
    ensures !Truthy(duration) ==> r == 3000
  {
    (if Truthy(duration) then duration.value else 3) * 1000
  }

  /** What accepting `s` does to the trains. */
  function ApplyToTrains(ts: seq<Train>, s: Suggestion): seq<Train>
  {
    match s.kind
    case Hold => SetStatus(ts, s.trainId, Waiting)
    case Reroute => RerouteTrains(ts, s.trainId, s.alternativeTrack)
    case _ => ts
  }

  /** The suggestions still offered: those not yet applied. */
  function Pending(st: SimState): (r: seq<Suggestion>)
    ensures forall i :: 0 <= i < |r| ==> r[i] in st.suggestions && r[i].id !in st.applied
    ensures forall s :: s in st.suggestions && s.id !in st.applied ==> s in r
    ensures IsSubseq(r, st.suggestions)
    ensures forall s :: multiset(r)[s] == if s.id !in st.applied then multiset(st.suggestions)[s] else 0
  {
    FilterIsSubseq(st.suggestions, (s: Suggestion) => s.id !in st.applied);
    Filter(st.suggestions, (s: Suggestion) => s.id !in st.applied)
  }

  /** The warning badge drawn over a train: the first suggestion naming the
      train, shown only while that suggestion is not applied. */
  function TrainBadge(st: SimState, trainId: string): (r: Option<Suggestion>)
    ensures r.Some? ==> r.value in st.suggestions && r.value.trainId == trainId && r.value.id !in st.applied
    ensures (forall i :: 0 <= i < |st.suggestions| ==> st.suggestions[i].trainId != trainId) ==> r.None?
    ensures forall k ::
              (0 <= k < |st.suggestions| && st.suggestions[k].trainId == trainId
               && forall j :: 0 <= j < k ==> st.suggestions[j].trainId != trainId) ==>
              r == if st.suggestions[k].id in st.applied then None else Some(st.suggestions[k])
  {
    var s := Find(st.suggestions, (s: Suggestion) => s.trainId == trainId);
    if s.Some? && s.value.id !in st.applied then s else None
  }

  /** The recommendations panel is drawn when some suggestion is not applied. */
  predicate ShowRecommendations(st: SimState)
  {
    exists i :: 0 <= i < |st.suggestions| && st.suggestions[i].id !in st.applied
  }

  /** The panel condition and the list the panel draws agree: the panel is
      shown exactly when the pending list is non-empty. */
  lemma RecommendationsIffPending(st: SimState)
    ensures ShowRecommendations(st) <==> Pending(st) != []
  {
    if ShowRecommendations(st) {
      var i :| 0 <= i < |st.suggestions| && st.suggestions[i].id !in st.applied;
      assert st.suggestions[i] in Pending(st);
    }
    if Pending(st) != [] {
      var x := Pending(st)[0];
      var i :| 0 <= i < |st.suggestions| && st.suggestions[i] == x;
      assert st.suggestions[i].id !in st.applied;
    }
  }

  // ---------------------------------------------------------------------
  // Step functions: one per handler or timer.

  function TickStep(st: SimState): (r: SimState)
    ensures st.isPlaying ==> r == st.(trains := TickAll(st.trains))
    ensures !st.isPlaying ==> r == st
  {
    if st.isPlaying then st.(trains := TickAll(st.trains)) else st
  }

  /** `handleAcceptSuggestion(id)`. */
  function AcceptStep(st: SimState, id: string): (r: SimState)
    ensures FindSuggestion(st.suggestions, id).None? || id in st.applied ==> r == st
    ensures FindSuggestion(st.suggestions, id).Some? && id !in st.applied ==>
              var s := FindSuggestion(st.suggestions, id).value;
              && r.applied == st.applied + {id}
              && r.trains == ApplyToTrains(st.trains, s)
              && r.emitted == st.emitted + [AcceptNotified(id)]
              && r.timers == st.timers + (if s.kind == Hold then [ResumeTimer(s.trainId, ResumeDelayMs(s.duration))] else [])
              && r == st.(applied := r.applied, trains := r.trains, emitted := r.emitted, timers := r.timers)
  {
    var found := FindSuggestion(st.suggestions, id);
    if found.None? || id in st.applied then st
    else
      var s := found.value;
      st.(applied := st.applied + {id},
          trains := ApplyToTrains(st.trains, s),
          timers := st.timers + (if s.kind == Hold then [ResumeTimer(s.trainId, ResumeDelayMs(s.duration))] else []),
          emitted := st.emitted + [AcceptNotified(id)])
  }

  /** A pending hold-resume timer goes off: its train is moving again,
      whatever its status is by then. An index with no timer changes nothing. */
  function FireTimerStep(st: SimState, k: int): (r: SimState)
    ensures 0 <= k < |st.timers| ==>
              r == st.(trains := SetStatus(st.trains, st.timers[k].trainId, Moving),
                       timers := RemoveAt(st.timers, k))
    ensures !(0 <= k < |st.timers|) ==> r == st
  {
    if 0 <= k < |st.timers| then
      st.(trains := SetStatus(st.trains, st.timers[k].trainId, Moving), timers := RemoveAt(st.timers, k))
    else st
  }

  /** `handleRejectSuggestion(id)`: open the override dialog for it. */
  function RejectStep(st: SimState, id: string): (r: SimState)
    ensures r.showOverrideDialog && r.currentSuggestion == FindSuggestion(st.suggestions, id)
    ensures r == st.(showOverrideDialog := true, currentSuggestion := r.currentSuggestion)
  {
    st.(showOverrideDialog := true, currentSuggestion := FindSuggestion(st.suggestions, id))
  }

  /** The dialog is closed without a choice (`onOpenChange(false)`): the
      current suggestion stays, no train changes and nothing is reported. */
  function DismissStep(st: SimState): (r: SimState)
    ensures !r.showOverrideDialog
    ensures r.trains == st.trains && r.emitted == st.emitted && r.currentSuggestion == st.currentSuggestion
    ensures r == st.(showOverrideDialog := false)
  {
    st.(showOverrideDialog := false)
  }

  function OverrideTrains(ts: seq<Train>, s: Suggestion, choice: OverrideChoice): seq<Train>
  {
    match choice
    case Manual => StopInvolved(ts, s)
    case Auto => AutoConflict(ts)
    case Ignore => ts
  }

  /** `handleOverrideChoice(choice)`. */
  function OverrideStep(st: SimState, choice: OverrideChoice): (r: SimState)
    ensures !r.showOverrideDialog && r.currentSuggestion.None?
    ensures st.currentSuggestion.None? ==> r == st.(showOverrideDialog := false)
    ensures st.currentSuggestion.Some? ==>
              && r.trains == OverrideTrains(st.trains, st.currentSuggestion.value, choice)
              && r.emitted == st.emitted + [RejectNotified(st.currentSuggestion.value.id)]
    ensures r == st.(trains := r.trains, emitted := r.emitted,
                     showOverrideDialog := false, currentSuggestion := None)
  {
    var next :=
      if st.currentSuggestion.Some? then
        var s := st.currentSuggestion.value;
        st.(trains := OverrideTrains(st.trains, s, choice), emitted := st.emitted + [RejectNotified(s.id)])
      else st;
    next.(showOverrideDialog := false, currentSuggestion := None)
  }

  /** `switchScenario(sc)`. */
  function SwitchScenarioStep(st: SimState, sc: Scenario): (r: SimState)
    ensures r.scenario == sc && r.applied == {}
    ensures r.trains == ScenarioTrains(sc) && r.suggestions == ScenarioSuggestions(sc)
    ensures r == st.(scenario := sc, trains := r.trains, suggestions := r.suggestions, applied := {})
  {
    st.(scenario := sc, trains := ScenarioTrains(sc), suggestions := ScenarioSuggestions(sc), applied := {})
  }

  /** The reset button: reload the current scenario. */
  function ResetStep(st: SimState): (r: SimState)
    ensures r.applied == {}
    ensures r.trains == ScenarioTrains(st.scenario) && r.suggestions == ScenarioSuggestions(st.scenario)
    ensures r == st.(trains := r.trains, suggestions := r.suggestions, applied := {})
  {
    st.(trains := ScenarioTrains(st.scenario), suggestions := ScenarioSuggestions(st.scenario), applied := {})
  }

  // ---------------------------------------------------------------------
  // Properties of the handlers.

  /** Accepting the same suggestion twice has the effect of accepting it
      once: the applied set is the guard. */
  lemma AcceptIdempotent(st: SimState, id: string)
    ensures AcceptStep(AcceptStep(st, id), id) == AcceptStep(st, id)
  {
    var once := AcceptStep(st, id);
    assert once.suggestions == st.suggestions;
    if FindSuggestion(st.suggestions, id).Some? && id !in st.applied {
      assert id in once.applied;
    }
  }

  /** Accepting a `hold` sets only its train to waiting and schedules the
      resume; firing that timer later sets that same train moving again
      and touches no other train. */
  lemma {:induction false} HoldThenResume(st: SimState, id: string, i: nat)
    requires FindSuggestion(st.suggestions, id).Some? && id !in st.applied
    requires FindSuggestion(st.suggestions, id).value.kind == Hold
    requires i < |st.trains|
    ensures var s := FindSuggestion(st.suggestions, id).value;
            var held := AcceptStep(st, id);
            var resumed := FireTimerStep(held, |held.timers| - 1);
            && held.trains[i] == (if st.trains[i].id == s.trainId then st.trains[i].(status := Waiting) else st.trains[i])
            && resumed.trains[i] == (if st.trains[i].id == s.trainId then st.trains[i].(status := Moving) else st.trains[i])
            && resumed.timers == st.timers
  {
    var s := FindSuggestion(st.suggestions, id).value;
    var held := AcceptStep(st, id);
    assert held.timers == st.timers + [ResumeTimer(s.trainId, ResumeDelayMs(s.duration))];
    assert RemoveAt(held.timers, |held.timers| - 1) == st.timers;
  }

  /** Accepting a `reroute` rewrites only its train's target and route. */
  lemma RerouteOnlyItsTrain(st: SimState, id: string, i: nat)
    requires FindSuggestion(st.suggestions, id).Some? && id !in st.applied
    requires FindSuggestion(st.suggestions, id).value.kind == Reroute
    requires i < |st.trains|
    ensures var s := FindSuggestion(st.suggestions, id).value;
            var r := AcceptStep(st, id).trains[i];
            && (st.trains[i].id != s.trainId ==> r == st.trains[i])
            && (st.trains[i].id == s.trainId && Truthy(s.alternativeTrack) ==>
                  r == st.trains[i].(targetTrack := s.alternativeTrack.value,
                                     route := [st.trains[i].currentTrack, s.alternativeTrack.value]))
            && (st.trains[i].id == s.trainId && !Truthy(s.alternativeTrack) ==> r == st.trains[i])
  {
  }

  /** Override outcomes per choice, train by train. */
  lemma OverrideEffect(st: SimState, choice: OverrideChoice, i: nat)
    requires st.currentSuggestion.Some? && i < |st.trains|
    ensures var s := st.currentSuggestion.value;
            var t := st.trains[i];
            var r := OverrideStep(st, choice).trains[i];
            && (choice == Manual ==> r.status == (if Involved(t, s) then Stopped else t.status))
            && (choice == Auto ==> r.status == (if t.status == Moving then Conflict else t.status))
            && (choice == Ignore ==> r == t)
            && r == t.(status := r.status)
  {
  }

  /** After a scenario switch or a reset every suggestion is pending again. */
  lemma {:induction false} ResetMakesAllPending(st: SimState, sc: Scenario)
    ensures Pending(ResetStep(st)) == ResetStep(st).suggestions
    ensures Pending(SwitchScenarioStep(st, sc)) == ScenarioSuggestions(sc)
  {
    var r := ResetStep(st);
    FilterAll(r.suggestions, (s: Suggestion) => s.id !in r.applied);
    var w := SwitchScenarioStep(st, sc);
    FilterAll(w.suggestions, (s: Suggestion) => s.id !in w.applied);
  }

  // ---------------------------------------------------------------------
  // The two canned scenarios.

  const HoldMessage: string :=
    "Hold DFC 321 (Goods) for 3 minutes on Track 3. Allow MGS Express to proceed first to Track 1. This prevents collision and maintains express train priority."
  const RerouteMessage: string :=
    "Reroute Chennai Express to Platform 3 instead of Platform 2. Local train already approaching Platform 2. This saves 8 minutes total delay."

  function ScenarioTrains(sc: Scenario): seq<Train>
  {
    match sc
    case TrackConflict => [
      Train("goods1", "DFC 321", Freight, 3, 1, 45, 2, 20.0, 0, Moving, None, [3, 1]),
      Train("express1", "MGS EXP", Express, 4, 1, 80, 9, 25.0, 5, Moving, None, [4, 1])]
    case PlatformConflict => [
      Train("local1", "Local 456", Local, 2, 2, 60, 5, 80.0, 0, Moving, Some(2), [2]),
      Train("passenger1", "Chennai EXP", Passenger, 5, 2, 70, 7, 70.0, 2, Moving, Some(2), [5, 2])]
  }

  function ScenarioSuggestions(sc: Scenario): seq<Suggestion>
  {
    match sc
    case TrackConflict => [
      Suggestion("sug1", Hold, "goods1", Some("express1"),
        HoldMessage,
        Some(3), None, None, High, TrackConflictKind)]
    case PlatformConflict => [
      Suggestion("sug2", Reroute, "passenger1", None,
        RerouteMessage,
        None, Some(3), Some(3), Medium, PlatformConflictKind)]
  }

  /** In the track-conflict scenario, accepting `sug1` holds the goods train
      and leaves the express running, with a 3-second resume timer. */
  lemma TrackConflictHold(st: SimState)
    requires st.trains == ScenarioTrains(TrackConflict)
    requires st.suggestions == ScenarioSuggestions(TrackConflict)
    requires st.applied == {} && st.timers == []
    ensures AcceptStep(st, "sug1").trains[0].status == Waiting
    ensures AcceptStep(st, "sug1").trains[1].status == Moving
    ensures AcceptStep(st, "sug1").timers == [ResumeTimer("goods1", 3000)]
  {
    assert st.suggestions[0].id == "sug1";
    assert "goods1" != "express1";
  }

  /** Rejecting a suggestion and then closing the dialog without a choice
      changes no train and reports nothing, and the suggestion is still
      offered. */
  lemma RejectThenDismiss(st: SimState, id: string)
    ensures var r := DismissStep(RejectStep(st, id));
            && r.trains == st.trains && r.emitted == st.emitted && r.applied == st.applied
            && !r.showOverrideDialog && r.currentSuggestion == FindSuggestion(st.suggestions, id)
            && Pending(r) == Pending(st)
  {
  }

  // ---------------------------------------------------------------------
  // The component.

  class Simulation {
    var scenario: Scenario
    var isPlaying: bool
    var selectedTrain: Option<string>
    var trains: seq<Train>
    var suggestions: seq<Suggestion>
    var showOverrideDialog: bool
    var currentSuggestion: Option<Suggestion>
    var applied: set<string>
    var timers: seq<ResumeTimer>
    var emitted: seq<Event>

    function State(): SimState
      reads this
    {
      SimState(scenario, isPlaying, selectedTrain, trains, suggestions,
               showOverrideDialog, currentSuggestion, applied, timers, emitted)
    }

    /** The initial render: the track-conflict scenario, playing. */
    constructor ()
      ensures scenario == TrackConflict && isPlaying && selectedTrain.None?
      ensures trains == ScenarioTrains(TrackConflict) && suggestions == ScenarioSuggestions(TrackConflict)
      ensures !showOverrideDialog && currentSuggestion.None? && applied == {}
      ensures timers == [] && emitted == []
    {
      scenario, isPlaying, selectedTrain := TrackConflict, true, None;
      trains, suggestions := ScenarioTrains(TrackConflict), ScenarioSuggestions(TrackConflict);
      showOverrideDialog, currentSuggestion, applied := false, None, {};
      timers, emitted := [], [];
    }

    method Tick()
      modifies this
      ensures State() == TickStep(old(State()))
    {
      if isPlaying {
        trains := TickAll(trains);
      }
    }

    method AcceptSuggestion(id: string)
      modifies this
      ensures State() == AcceptStep(old(State()), id)
    {
      var found := FindSuggestion(suggestions, id);
      if found.None? || id in applied {
        return;
      }
      var s := found.value;
      applied := applied + {id};
      if s.kind == Hold {
        trains := SetStatus(trains, s.trainId, Waiting);
        timers := timers + [ResumeTimer(s.trainId, ResumeDelayMs(s.duration))];
      }
      if s.kind == Reroute {
        trains := RerouteTrains(trains, s.trainId, s.alternativeTrack);
      }
      emitted := emitted + [AcceptNotified(id)];
      assert trains == ApplyToTrains(old(trains), s);
      assert timers == old(timers) + (if s.kind == Hold then [ResumeTimer(s.trainId, ResumeDelayMs(s.duration))] else []);
      assert AcceptStep(old(State()), id) == old(State()).(applied := applied, trains := trains, timers := timers, emitted := emitted);
    }

    method FireTimer(k: int)
      modifies this
      ensures State() == FireTimerStep(old(State()), k)
    {
      if 0 <= k < |timers| {
        trains := SetStatus(trains, timers[k].trainId, Moving);
        timers := RemoveAt(timers, k);
      }
    }

    method RejectSuggestion(id: string)
      modifies this
      ensures State() == RejectStep(old(State()), id)
    {
      currentSuggestion := FindSuggestion(suggestions, id);
      showOverrideDialog := true;
    }

    method CloseDialog()
      modifies this
      ensures State() == DismissStep(old(State()))
    {
      showOverrideDialog := false;
    }

    method ChooseOverride(choice: OverrideChoice)
      modifies this
      ensures State() == OverrideStep(old(State()), choice)
    {
      if currentSuggestion.Some? {
        var s := currentSuggestion.value;
        if choice == Manual {
          trains := StopInvolved(trains, s);
        } else if choice == Auto {
          trains := AutoConflict(trains);
        }
        emitted := emitted + [RejectNotified(s.id)];
      }
      showOverrideDialog := false;
      currentSuggestion := None;
    }

    method SwitchScenario(sc: Scenario)
      modifies this
      ensures State() == SwitchScenarioStep(old(State()), sc)
    {
      scenario := sc;
      trains := ScenarioTrains(sc);
      suggestions := ScenarioSuggestions(sc);
      applied := {};
    }

    method Reset()
      modifies this
      ensures State() == ResetStep(old(State()))
    {
      trains := ScenarioTrains(scenario);
      suggestions := ScenarioSuggestions(scenario);
      applied := {};
    }

    method TogglePlaying()
      modifies this
      ensures State() == old(State()).(isPlaying := !old(isPlaying))
    {
      isPlaying := !isPlaying;
    }

    method SelectTrain(id: string)
      modifies this
      ensures State() == old(State()).(selectedTrain := Some(id))
    {
      selectedTrain := Some(id);
    }
  }
}
