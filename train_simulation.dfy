/** The basic track simulation: the parent passes the trains and the AI
    suggestions in as props, the component keeps its own moving copy of the
    trains. It has no applied-suggestion set, and its override choice only
    logs and calls back.

    As in the realistic variant, the step functions on `SimState` specify
    the handlers and the class `Simulation` performs them; the movement
    interval and the hold-resume timeout are explicit operations, and
    `console.log` and the parent callbacks are recorded as emitted events. */
module TrainSimulation {
  import opened Seqs
  import RealisticSimulation

  datatype TrainType = Passenger | Freight | Express | Local
  datatype TrainStatus = Moving | Waiting | Conflict | Stopped

  datatype Train = Train(
    id: string, name: string, kind: TrainType,
    currentTrack: int, targetTrack: int, speed: int, priority: int,
    position: real, delay: int, status: TrainStatus)

  datatype SuggestionType = Hold | Proceed | Reroute
  datatype Priority = High | Medium | Low

  datatype Suggestion = Suggestion(
    id: string, kind: SuggestionType, trainId: string, message: string,
    duration: Option<int>, alternativeTrack: Option<int>, priority: Priority)

  datatype OverrideChoice = Manual | Auto | Ignore

  datatype Event =
    | AcceptNotified(suggestionId: string)
    | RejectNotified(suggestionId: string)
    | Logged(message: string)

  datatype ResumeTimer = ResumeTimer(trainId: string, delayMs: int)

  /** The props (`propTrains`, `suggestions`) and the component's state. */
  datatype SimState = SimState(
    propTrains: seq<Train>, suggestions: seq<Suggestion>,
    isPlaying: bool, selectedTrain: Option<string>, trains: seq<Train>,
    showOverrideDialog: bool, currentSuggestion: Option<Suggestion>,
    timers: seq<ResumeTimer>, emitted: seq<Event>)

  const MaxPosition: real := 95.0

  /** One tick for one train: a moving train advances by one, up to 95. */
  function TickTrain(t: Train): (r: Train)
    ensures t.status != Moving ==> r == t
    ensures r == t.(position := r.position)
    ensures t.status == Moving && t.position + 1.0 <= MaxPosition ==> r.position == t.position + 1.0
    ensures t.status == Moving && t.position + 1.0 > MaxPosition ==> r.position == MaxPosition
  {
    t.(position := if t.status == Moving then Min(t.position + 1.0, MaxPosition) else t.position)
  }

  /** One firing of the movement interval. */
  function TickAll(ts: seq<Train>): (r: seq<Train>)
    ensures |r| == |ts|
    ensures forall i :: 0 <= i < |ts| ==> r[i] == TickTrain(ts[i])
  {
    seq(|ts|, i requires 0 <= i < |ts| => TickTrain(ts[i]))
  }

  /** `n` firings of the movement interval: only positions change, and a
      train that is not moving does not change at all. */
  function Ticks(ts: seq<Train>, n: nat): (r: seq<Train>)
    ensures |r| == |ts|
    ensures forall i :: 0 <= i < |ts| ==> r[i] == ts[i].(position := r[i].position)
    ensures forall i :: 0 <= i < |ts| && ts[i].status != Moving ==> r[i] == ts[i]
  {
    if n == 0 then ts else TickAll(Ticks(ts, n - 1))
  }

  /** Over any number of ticks, a train that starts at or below 95 keeps
      its slot, never moves backwards and never passes 95. */
  lemma {:induction false} TicksMonotoneBounded(ts: seq<Train>, n: nat, i: nat)
    requires i < |ts| && ts[i].position <= MaxPosition
    ensures Ticks(ts, n)[i].id == ts[i].id
    ensures ts[i].position <= Ticks(ts, n)[i].position <= MaxPosition
  {
    if n > 0 {
      TicksMonotoneBounded(ts, n - 1, i);
    }
  }

  /** `getTrainOnTrack`: exactly the trains on track `n`, in list order. */
  function TrainsOnTrack(ts: seq<Train>, n: int): (r: seq<Train>)
    ensures IsSubseq(r, ts)
    ensures forall i :: 0 <= i < |r| ==> r[i].currentTrack == n
    ensures forall i :: 0 <= i < |ts| && ts[i].currentTrack == n ==> ts[i] in r
    ensures forall t :: multiset(r)[t] == if t.currentTrack == n then multiset(ts)[t] else 0
  {
    FilterIsSubseq(ts, (t: Train) => t.currentTrack == n);
    Filter(ts, (t: Train) => t.currentTrack == n)
  }

  /** `getSuggestionForTrain`: the first suggestion naming the train. */
  function SuggestionForTrain(ss: seq<Suggestion>, trainId: string): (r: Option<Suggestion>)
    ensures r.None? <==> forall i :: 0 <= i < |ss| ==> ss[i].trainId != trainId
    ensures r.Some? ==> exists k :: 0 <= k < |ss| && ss[k] == r.value && ss[k].trainId == trainId
                          && forall j :: 0 <= j < k ==> ss[j].trainId != trainId
  {
    Find(ss, (s: Suggestion) => s.trainId == trainId)
  }

  function FindSuggestion(ss: seq<Suggestion>, id: string): (r: Option<Suggestion>)
    ensures r.None? <==> forall i :: 0 <= i < |ss| ==> ss[i].id != id
    ensures r.Some? ==> exists k :: 0 <= k < |ss| && ss[k] == r.value && ss[k].id == id
                          && forall j :: 0 <= j < k ==> ss[j].id != id
  {
    Find(ss, (s: Suggestion) => s.id == id)
  }

  function SetStatus(ts: seq<Train>, id: string, st: TrainStatus): (r: seq<Train>)
    ensures |r| == |ts|
    ensures forall i :: 0 <= i < |ts| ==>
              r[i] == if ts[i].id == id then ts[i].(status := st) else ts[i]
  {
    seq(|ts|, i requires 0 <= i < |ts| => if ts[i].id == id then ts[i].(status := st) else ts[i])
  }

  /** The reroute of this variant: only the target track changes, to a
      truthy alternative track. */
  function Retarget(ts: seq<Train>, id: string, alt: Option<int>): (r: seq<Train>)
    ensures |r| == |ts|
    ensures forall i :: 0 <= i < |ts| ==>
              r[i] == if ts[i].id == id && Truthy(alt) then ts[i].(targetTrack := alt.value) else ts[i]
  {
    seq(|ts|, i requires 0 <= i < |ts| =>
      if ts[i].id == id then ts[i].(targetTrack := if Truthy(alt) then alt.value else ts[i].targetTrack)
      else ts[i])
  }

  function ApplyToTrains(ts: seq<Train>, s: Suggestion): seq<Train>
  {
    match s.kind
    case Hold => SetStatus(ts, s.trainId, Waiting)
    case Reroute => Retarget(ts, s.trainId, s.alternativeTrack)
    case Proceed => ts
  }

  // ---------------------------------------------------------------------
  // Step functions.

  function TickStep(st: SimState): (r: SimState)
    ensures st.isPlaying ==> r == st.(trains := TickAll(st.trains))
    ensures !st.isPlaying ==> r == st
  {
    if st.isPlaying then st.(trains := TickAll(st.trains)) else st
  }

  /** `handleAcceptSuggestion(id)`: no guard other than the lookup. */
  function AcceptStep(st: SimState, id: string): (r: SimState)
    ensures FindSuggestion(st.suggestions, id).None? ==> r == st
    ensures FindSuggestion(st.suggestions, id).Some? ==>
              var s := FindSuggestion(st.suggestions, id).value;
              && r.trains == ApplyToTrains(st.trains, s)
              && r.emitted == st.emitted + [AcceptNotified(id)]
              && r.timers == st.timers + (if s.kind == Hold then [ResumeTimer(s.trainId, RealisticSimulation.ResumeDelayMs(s.duration))] else [])
              && r == st.(trains := r.trains, emitted := r.emitted, timers := r.timers)
  {
    var found := FindSuggestion(st.suggestions, id);
    if found.None? then st
    else
      var s := found.value;
      st.(trains := ApplyToTrains(st.trains, s),
          timers := st.timers + (if s.kind == Hold then [ResumeTimer(s.trainId, RealisticSimulation.ResumeDelayMs(s.duration))] else []),
          emitted := st.emitted + [AcceptNotified(id)])
  }

  function FireTimerStep(st: SimState, k: int): (r: SimState)
    ensures 0 <= k < |st.timers| ==>
              r == st.(trains := SetStatus(st.trains, st.timers[k].trainId, Moving),
                       timers := RemoveAt(st.timers, k))
    ensures !(0 <= k < |st.timers|) ==> r == st
  {
    if 0 <= k < |st.timers| then
      st.(trains := SetStatus(st.trains, st.timers[k].trainId, Moving), timers := RemoveAt(st.timers, k))
    else st
  }

  function RejectStep(st: SimState, id: string): (r: SimState)
    ensures r.showOverrideDialog && r.currentSuggestion == FindSuggestion(st.suggestions, id)
    ensures r == st.(showOverrideDialog := true, currentSuggestion := r.currentSuggestion)
  {
    st.(showOverrideDialog := true, currentSuggestion := FindSuggestion(st.suggestions, id))
  }

  /** The dialog is closed without a choice (`onOpenChange(false)`): the
      current suggestion stays, no train changes and nothing is reported. */
  function DismissStep(st: SimState): (r: SimState)
    ensures !r.showOverrideDialog
    ensures r.trains == st.trains && r.emitted == st.emitted && r.currentSuggestion == st.currentSuggestion
    ensures r == st.(showOverrideDialog := false)
  {
    st.(showOverrideDialog := false)
  }

  /** The log line an override choice writes, if any. */
  function OverrideLog(choice: OverrideChoice): seq<Event>
  {
    match choice
    case Manual => [Logged("Manual override selected")]
    case Auto => [Logged("Auto alternative selected")]
    case Ignore => []
  }

  /** `handleOverrideChoice(choice)`: never touches a train. */
  function OverrideStep(st: SimState, choice: OverrideChoice): (r: SimState)
    ensures r.trains == st.trains
    ensures !r.showOverrideDialog && r.currentSuggestion.None?
    ensures st.currentSuggestion.None? ==> r.emitted == st.emitted
    ensures st.currentSuggestion.Some? ==>
              r.emitted == st.emitted + OverrideLog(choice) + [RejectNotified(st.currentSuggestion.value.id)]
    ensures r == st.(emitted := r.emitted, showOverrideDialog := false, currentSuggestion := None)
  {
    var emitted :=
      if st.currentSuggestion.Some? then st.emitted + OverrideLog(choice) + [RejectNotified(st.currentSuggestion.value.id)]
      else st.emitted;
    st.(emitted := emitted, showOverrideDialog := false, currentSuggestion := None)
  }

  /** The reset button. */
  function ResetStep(st: SimState): (r: SimState)
    ensures r.trains == st.propTrains
    ensures r == st.(trains := st.propTrains)
  {
    st.(trains := st.propTrains)
  }

  /** The parent passes a new `trains` prop: the effect resyncs the copy. */
  function TrainsPropStep(st: SimState, ts: seq<Train>): (r: SimState)
    ensures r.propTrains == ts && r.trains == ts
    ensures r == st.(propTrains := ts, trains := ts)
  {
    st.(propTrains := ts, trains := ts)
  }

  // ---------------------------------------------------------------------
  // Properties.

  /** Without an applied set, accepting a known suggestion twice re-applies
      it: the trains end as after one accept (both rewrites are idempotent),
      but the parent is called back twice and a hold schedules a second
      resume. */
  lemma AcceptTwice(st: SimState, id: string)
    requires FindSuggestion(st.suggestions, id).Some?
    ensures var once := AcceptStep(st, id);
            var twice := AcceptStep(once, id);
            && twice.trains == once.trains
            && twice.emitted == st.emitted + [AcceptNotified(id), AcceptNotified(id)]
            && (FindSuggestion(st.suggestions, id).value.kind == Hold ==> |twice.timers| == |st.timers| + 2)
  {
    var s := FindSuggestion(st.suggestions, id).value;
    var once := AcceptStep(st, id);
    var twice := AcceptStep(once, id);
    assert once.suggestions == st.suggestions;
    assert twice.emitted == (st.emitted + [AcceptNotified(id)]) + [AcceptNotified(id)];
  }

  /** Accepting a hold then firing its timer: only its train changes,
      to waiting and then back to moving. */
  lemma {:induction false} HoldThenResume(st: SimState, id: string, i: nat)
    requires FindSuggestion(st.suggestions, id).Some?
    requires FindSuggestion(st.suggestions, id).value.kind == Hold
    requires i < |st.trains|
    ensures var s := FindSuggestion(st.suggestions, id).value;
            var held := AcceptStep(st, id);
            var resumed := FireTimerStep(held, |held.timers| - 1);
            && held.trains[i] == (if st.trains[i].id == s.trainId then st.trains[i].(status := Waiting) else st.trains[i])
            && resumed.trains[i] == (if st.trains[i].id == s.trainId then st.trains[i].(status := Moving) else st.trains[i])
            && resumed.timers == st.timers
  {
    var s := FindSuggestion(st.suggestions, id).value;
    var held := AcceptStep(st, id);
    assert held.timers == st.timers + [ResumeTimer(s.trainId, RealisticSimulation.ResumeDelayMs(s.duration))];
    assert RemoveAt(held.timers, |held.timers| - 1) == st.timers;
  }

  /** The user and timer actions on the panel: everything except a new
      `trains` prop from the parent. */
  datatype Action =
    | TickAction
    | AcceptAction(id: string)
    | FireTimerAction(k: int)
    | RejectAction(id: string)
    | OverrideAction(choice: OverrideChoice)
    | DismissAction
    | ResetAction

  function Step(st: SimState, a: Action): SimState
  {
    match a
    case TickAction => TickStep(st)
    case AcceptAction(id) => AcceptStep(st, id)
    case FireTimerAction(k) => FireTimerStep(st, k)
    case RejectAction(id) => RejectStep(st, id)
    case OverrideAction(choice) => OverrideStep(st, choice)
    case DismissAction => DismissStep(st)
    case ResetAction => ResetStep(st)
  }

  function Run(st: SimState, acts: seq<Action>): SimState
    decreases |acts|
  {
    if acts == [] then st else Run(Step(st, acts[0]), acts[1..])
  }

  /** No action changes the props: the prop trains and the suggestions stay
      as the parent last passed them. */
  lemma {:induction false} RunKeepsProps(st: SimState, acts: seq<Action>)
    ensures Run(st, acts).propTrains == st.propTrains
    ensures Run(st, acts).suggestions == st.suggestions
    decreases |acts|
  {
    if acts != [] {
      RunKeepsProps(Step(st, acts[0]), acts[1..]);
    }
  }

  /** Reset after any sequence of ticks, accepts, timer firings, rejects
      override choices and dismissals gives back the trains last passed in. */
  lemma ResetRestoresProps(st: SimState, acts: seq<Action>)
    ensures ResetStep(Run(st, acts)).trains == st.propTrains
    ensures ResetStep(Run(st, acts)) == Run(st, acts).(trains := st.propTrains)
  {
    RunKeepsProps(st, acts);
  }

  /** Rejecting a suggestion and then closing the dialog without a choice
      leaves the trains and the reports as they were: the parent is never
      told of the rejection. */
  lemma RejectThenDismiss(st: SimState, id: string)
    ensures var r := Run(st, [RejectAction(id), DismissAction]);
            && r.trains == st.trains && r.emitted == st.emitted && !r.showOverrideDialog
            && r.currentSuggestion == FindSuggestion(st.suggestions, id)
  {
    var r1 := Step(st, RejectAction(id));
    assert Run(st, [RejectAction(id), DismissAction]) == Run(r1, [DismissAction]);
    assert Run(r1, [DismissAction]) == Run(DismissStep(r1), []);
  }

  // ---------------------------------------------------------------------
  // The component.

  class Simulation {
    var propTrains: seq<Train>
    var suggestions: seq<Suggestion>
    var isPlaying: bool
    var selectedTrain: Option<string>
    var trains: seq<Train>
    var showOverrideDialog: bool
    var currentSuggestion: Option<Suggestion>
    var timers: seq<ResumeTimer>
    var emitted: seq<Event>

    function State(): SimState
      reads this
    {
      SimState(propTrains, suggestions, isPlaying, selectedTrain, trains,
               showOverrideDialog, currentSuggestion, timers, emitted)
    }

    /** Mounting with the given props: the copy starts as the prop list. */
    constructor (ts: seq<Train>, ss: seq<Suggestion>)
      ensures State() == SimState(ts, ss, true, None, ts, false, None, [], [])
    {
      propTrains, suggestions := ts, ss;
      isPlaying, selectedTrain, trains := true, None, ts;
      showOverrideDialog, currentSuggestion := false, None;
      timers, emitted := [], [];
    }

    method Tick()
      modifies this
      ensures State() == TickStep(old(State()))
    {
      if isPlaying {
        trains := TickAll(trains);
      }
    }

    method AcceptSuggestion(id: string)
      modifies this
      ensures State() == AcceptStep(old(State()), id)
    {
      var found := FindSuggestion(suggestions, id);
      if found.None? {
        return;
      }
      var s := found.value;
      if s.kind == Hold {
        trains := SetStatus(trains, s.trainId, Waiting);
        timers := timers + [ResumeTimer(s.trainId, RealisticSimulation.ResumeDelayMs(s.duration))];
      }
      if s.kind == Reroute {
        trains := Retarget(trains, s.trainId, s.alternativeTrack);
      }
      emitted := emitted + [AcceptNotified(id)];
    }

    method FireTimer(k: int)
      modifies this
      ensures State() == FireTimerStep(old(State()), k)
    {
      if 0 <= k < |timers| {
        trains := SetStatus(trains, timers[k].trainId, Moving);
        timers := RemoveAt(timers, k);
      }
    }

    method RejectSuggestion(id: string)
      modifies this
      ensures State() == RejectStep(old(State()), id)
    {
      currentSuggestion := FindSuggestion(suggestions, id);
      showOverrideDialog := true;
    }

    method CloseDialog()
      modifies this
      ensures State() == DismissStep(old(State()))
    {
      showOverrideDialog := false;
    }

    method ChooseOverride(choice: OverrideChoice)
      modifies this
      ensures State() == OverrideStep(old(State()), choice)
    {
      if currentSuggestion.Some? {
        if choice == Manual {
          emitted := emitted + [Logged("Manual override selected")];
        } else if choice == Auto {
          emitted := emitted + [Logged("Auto alternative selected")];
        }
        emitted := emitted + [RejectNotified(currentSuggestion.value.id)];
      }
      showOverrideDialog := false;
      currentSuggestion := None;
    }

    method Reset()
      modifies this
      ensures State() == ResetStep(old(State()))
    {
      trains := propTrains;
    }

    method ReceiveTrains(ts: seq<Train>)
      modifies this
      ensures State() == TrainsPropStep(old(State()), ts)
    {
      propTrains := ts;
      trains := ts;
    }

    method ReceiveSuggestions(ss: seq<Suggestion>)
      modifies this
      ensures State() == old(State()).(suggestions := ss)
    {
      suggestions := ss;
    }

    method TogglePlaying()
      modifies this
      ensures State() == old(State()).(isPlaying := !old(isPlaying))
    {
      isPlaying := !isPlaying;
    }

    method SelectTrain(id: string)
      modifies this
      ensures State() == old(State()).(selectedTrain := Some(id))
    {
      selectedTrain := Some(id);
    }
  }
}
