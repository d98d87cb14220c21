/** The alerts page: a list of alerts, three filters (type, category,
    status, each possibly "all"), three counters, and the acknowledge and
    resolve actions that rewrite the alert with a given id. */
module Alerts {
  import opened Seqs

  datatype AlertType = Critical | Warning | Info | Success
  datatype Category = Safety | Operational | Technical | Weather | Security
  datatype Status = Active | Acknowledged | Resolved
  datatype Priority = High | Medium | Low

  datatype Alert = Alert(
    id: string, kind: AlertType, category: Category,
    title: string, message: string,
    station: Option<string>, trainId: Option<string>, timestamp: string,
    status: Status, priority: Priority, actionRequired: bool,
    acknowledgedBy: Option<string>, acknowledgedAt: Option<string>)

  /** The three-criterion test each listed alert passes. */
  predicate Passes(a: Alert, ft: Choice<AlertType>, fc: Choice<Category>, fs: Choice<Status>)
  {
    Admits(ft, a.kind) && Admits(fc, a.category) && Admits(fs, a.status)
  }

  /** `filteredAlerts`: the alerts passing all three filters, in order. */
  function FilteredAlerts(alerts: seq<Alert>, ft: Choice<AlertType>, fc: Choice<Category>, fs: Choice<Status>): (r: seq<Alert>)
    ensures IsSubseq(r, alerts)
    ensures forall i :: 0 <= i < |r| ==> Passes(r[i], ft, fc, fs)
    ensures forall i :: 0 <= i < |alerts| && Passes(alerts[i], ft, fc, fs) ==> alerts[i] in r
    ensures forall a :: multiset(r)[a] == if Passes(a, ft, fc, fs) then multiset(alerts)[a] else 0
  {
    FilterIsSubseq(alerts, (a: Alert) => Passes(a, ft, fc, fs));
    Filter(alerts, (a: Alert) => Passes(a, ft, fc, fs))
  }

  /** With every filter on "all" the whole list is shown. */
  lemma {:induction false} AllFiltersShowEverything(alerts: seq<Alert>)
    ensures FilteredAlerts(alerts, All, All, All) == alerts
  {
    FilterAll(alerts, (a: Alert) => Passes(a, All, All, All));
  }

  /** The "Active Alerts" card: as many as the list shows with the status
      filter on active and the others on "all". */
  function ActiveCount(alerts: seq<Alert>): (r: nat)
    ensures r == |FilteredAlerts(alerts, All, All, Only(Active))|
    ensures r == 0 <==> forall i :: 0 <= i < |alerts| ==> alerts[i].status != Active
  {
    FilterSamePredicate(alerts, (a: Alert) => a.status == Active, (a: Alert) => Passes(a, All, All, Only(Active)));
    |Filter(alerts, (a: Alert) => a.status == Active)|
  }

  /** The "Critical" card: as many as the list shows with the type filter on
      critical and the status filter on active. */
  function CriticalCount(alerts: seq<Alert>): (r: nat)
    ensures r == |FilteredAlerts(alerts, Only(Critical), All, Only(Active))|
    ensures r == 0 <==> forall i :: 0 <= i < |alerts| ==> !(alerts[i].kind == Critical && alerts[i].status == Active)
  {
    FilterSamePredicate(alerts, (a: Alert) => a.kind == Critical && a.status == Active,
                        (a: Alert) => Passes(a, Only(Critical), All, Only(Active)));
    |Filter(alerts, (a: Alert) => a.kind == Critical && a.status == Active)|
  }

  /** The "Action Required" card: the active alerts that ask for action. */
  function ActionRequiredCount(alerts: seq<Alert>): (r: nat)
    ensures r == 0 <==> forall i :: 0 <= i < |alerts| ==> !(alerts[i].actionRequired && alerts[i].status == Active)
  {
    |Filter(alerts, (a: Alert) => a.actionRequired && a.status == Active)|
  }

  /** The two narrower counters never exceed the active counter, which never
      exceeds the number of alerts. */
  lemma {:induction false} CountersBounded(alerts: seq<Alert>)
    ensures CriticalCount(alerts) <= ActiveCount(alerts) <= |alerts|
    ensures ActionRequiredCount(alerts) <= ActiveCount(alerts)
  {
    FilterMonotone(alerts, (a: Alert) => a.kind == Critical && a.status == Active, (a: Alert) => a.status == Active);
    FilterMonotone(alerts, (a: Alert) => a.actionRequired && a.status == Active, (a: Alert) => a.status == Active);
  }

  /** The rewrite both buttons apply: the new status, signed by the current
      user, just now. */
  function Mark(a: Alert, s: Status): (r: Alert)
    ensures r.status == s && r.acknowledgedBy == Some("Current User") && r.acknowledgedAt == Some("Just now")
    ensures r == a.(status := s, acknowledgedBy := r.acknowledgedBy, acknowledgedAt := r.acknowledgedAt)
  {
    a.(status := s, acknowledgedBy := Some("Current User"), acknowledgedAt := Some("Just now"))
  }

  /** Rewrite every alert with id `id`; all others stay as they are. */
  function MarkId(alerts: seq<Alert>, id: string, s: Status): (r: seq<Alert>)
    ensures |r| == |alerts|
    ensures forall i :: 0 <= i < |alerts| ==>
              r[i] == if alerts[i].id == id then Mark(alerts[i], s) else alerts[i]
  {
    seq(|alerts|, i requires 0 <= i < |alerts| => if alerts[i].id == id then Mark(alerts[i], s) else alerts[i])
  }

  /** `acknowledgeAlert(id)`. */
  function Acknowledge(alerts: seq<Alert>, id: string): (r: seq<Alert>)
    ensures |r| == |alerts|
    ensures forall i :: 0 <= i < |alerts| && alerts[i].id == id ==> r[i] == Mark(alerts[i], Acknowledged)
    ensures forall i :: 0 <= i < |alerts| && alerts[i].id != id ==> r[i] == alerts[i]
  {
    MarkId(alerts, id, Acknowledged)
  }

  /** `resolveAlert(id)`. */
  function Resolve(alerts: seq<Alert>, id: string): (r: seq<Alert>)
    ensures |r| == |alerts|
    ensures forall i :: 0 <= i < |alerts| && alerts[i].id == id ==> r[i] == Mark(alerts[i], Resolved)
    ensures forall i :: 0 <= i < |alerts| && alerts[i].id != id ==> r[i] == alerts[i]
  {
    MarkId(alerts, id, Resolved)
  }

  predicate HasId(alerts: seq<Alert>, id: string)
  {
    exists i :: 0 <= i < |alerts| && alerts[i].id == id
  }

  /** Both actions are idempotent, and an unknown id leaves the list as it
      was. */
  lemma MarkIdempotentAndUnknown(alerts: seq<Alert>, id: string)
    ensures Acknowledge(Acknowledge(alerts, id), id) == Acknowledge(alerts, id)
    ensures Resolve(Resolve(alerts, id), id) == Resolve(alerts, id)
    ensures !HasId(alerts, id) ==> Acknowledge(alerts, id) == alerts && Resolve(alerts, id) == alerts
  {
  }

  // ---------------------------------------------------------------------
  // The lifecycle the buttons enforce.

  /** Position along active, acknowledged, resolved. */
  function Rank(s: Status): nat
  {
    match s
    case Active => 0
    case Acknowledged => 1
    case Resolved => 2
  }

  datatype Action = AcknowledgeAction(id: string) | ResolveAction(id: string)

  function Apply(alerts: seq<Alert>, act: Action): seq<Alert>
  {
    match act
    case AcknowledgeAction(id) => Acknowledge(alerts, id)
    case ResolveAction(id) => Resolve(alerts, id)
  }

  /** The action is on a button drawn for some alert: Acknowledge and
      Resolve under an active alert, Mark Resolved under an acknowledged one,
      nothing under a resolved one. */
  predicate Offered(alerts: seq<Alert>, act: Action)
  {
    exists i :: 0 <= i < |alerts| && alerts[i].id == act.id &&
      (if act.AcknowledgeAction? then alerts[i].status == Active else alerts[i].status != Resolved)
  }

  predicate UniqueIds(alerts: seq<Alert>)
  {
    forall i, j :: 0 <= i < j < |alerts| ==> alerts[i].id != alerts[j].id
  }

  /** One offered action on a list with unique ids moves no alert backwards
      and keeps the ids. */
  lemma OfferedStepMonotone(alerts: seq<Alert>, act: Action)
    requires UniqueIds(alerts) && Offered(alerts, act)
    ensures |Apply(alerts, act)| == |alerts|
    ensures forall i :: 0 <= i < |alerts| ==>
              Apply(alerts, act)[i].id == alerts[i].id &&
              Rank(alerts[i].status) <= Rank(Apply(alerts, act)[i].status)
  {
    var k :| 0 <= k < |alerts| && alerts[k].id == act.id &&
      (if act.AcknowledgeAction? then alerts[k].status == Active else alerts[k].status != Resolved);
    forall i | 0 <= i < |alerts|
      ensures Rank(alerts[i].status) <= Rank(Apply(alerts, act)[i].status)
    {
      if alerts[i].id == act.id {
        assert i == k;
      }
    }
  }

  /** The alerts after a sequence of actions. */
  function Run(alerts: seq<Alert>, acts: seq<Action>): (r: seq<Alert>)
    ensures |r| == |alerts|
    decreases |acts|
  {
    if acts == [] then alerts else Run(Apply(alerts, acts[0]), acts[1..])
  }

  /** Every action of the sequence is offered in the state it is taken in. */
  predicate AllOffered(alerts: seq<Alert>, acts: seq<Action>)
    decreases |acts|
  {
    acts == [] || (Offered(alerts, acts[0]) && AllOffered(Apply(alerts, acts[0]), acts[1..]))
  }

  /** Through any sequence of button presses, no alert's status moves
      backwards along active, acknowledged, resolved (ids being unique). */
  lemma {:induction false} RunMonotone(alerts: seq<Alert>, acts: seq<Action>, i: nat)
    requires UniqueIds(alerts) && AllOffered(alerts, acts) && i < |alerts|
    ensures Run(alerts, acts)[i].id == alerts[i].id
    ensures Rank(alerts[i].status) <= Rank(Run(alerts, acts)[i].status)
    decreases |acts|
  {
    if acts != [] {
      var next := Apply(alerts, acts[0]);
      OfferedStepMonotone(alerts, acts[0]);
      assert UniqueIds(next);
      RunMonotone(next, acts[1..], i);
    }
  }

  /** Uniqueness is needed: with two alerts sharing an id, acknowledging the
      active one also drags the resolved one back to acknowledged. */
  lemma SharedIdRegresses()
    ensures var a := Alert("1", Info, Technical, "", "", None, None, "", Active, Low, false, None, None);
            var b := a.(status := Resolved);
            && Offered([a, b], AcknowledgeAction("1"))
            && Apply([a, b], AcknowledgeAction("1"))[1].status == Acknowledged
            && Rank(Apply([a, b], AcknowledgeAction("1"))[1].status) < Rank(b.status)
  {
    var a := Alert("1", Info, Technical, "", "", None, None, "", Active, Low, false, None, None);
    assert [a, a.(status := Resolved)][0] == a;
  }

  // ---------------------------------------------------------------------
  // Initial data.

  const Message1: string :=
    "Automatic signal system failure detected at Central Junction Track 3. Manual control activated."
  const Message2: string :=
    "Rajdhani Express running 15 minutes behind schedule. Impact on 3 connecting trains expected."
  const Message3: string :=
    "Weather department issued heavy rain warning. Reduce speed limits to 40 km/h on all sections."
  const Message4: string :=
    "Scheduled maintenance on Platform 5 from 02:00 to 04:00 AM. Route trains accordingly."
  const Message5: string :=
    "Security breach detected at control room. Immediate verification required."
  const Message6: string :=
    "Track conflict between DFC 321 and Express Train successfully resolved using AI recommendation."

  function MockAlerts(): seq<Alert>
  {
    [ Alert("1", Critical, Safety, "Signal Failure - Track 3",
        Message1,
        Some("Central Junction"), Some("MGS EXP 123"), "2 minutes ago", Active, High, true, None, None),
      Alert("2", Warning, Operational, "Train Delay Detected",
        Message2,
        Some("Metro Hub"), Some("RAJ EXP 456"), "5 minutes ago", Acknowledged, Medium, true,
        Some("Rajesh Kumar"), Some("3 minutes ago")),
      Alert("3", Warning, Weather, "Heavy Rain Alert",
        Message3,
        None, None, "10 minutes ago", Active, Medium, true, None, None),
      Alert("4", Info, Technical, "Maintenance Schedule",
        Message4,
        Some("Express Terminal"), None, "1 hour ago", Acknowledged, Low, false,
        Some("Priya Sharma"), Some("45 minutes ago")),
      Alert("5", Critical, Security, "Unauthorized Access",
        Message5,
        Some("Regional Station"), None, "30 minutes ago", Resolved, High, false,
        Some("Arun Patel"), Some("25 minutes ago")),
      Alert("6", Success, Operational, "Conflict Resolved",
        Message6,
        Some("Central Junction"), None, "45 minutes ago", Resolved, Low, false,
        Some("Rajesh Kumar"), Some("40 minutes ago")) ]
  }

  /** The shipped alerts have distinct ids, so the lifecycle lemma applies
      to them. */
  lemma MockIdsUnique()
    ensures UniqueIds(MockAlerts())
  {
    var ids := ["1", "2", "3", "4", "5", "6"];
    var m := MockAlerts();
    assert forall i :: 0 <= i < 6 ==> m[i].id == ids[i];
    assert forall i, j :: 0 <= i < j < 6 ==> ids[i] != ids[j];
  }

  // ---------------------------------------------------------------------
  // The page.

  class AlertsPage {
    var alerts: seq<Alert>
    var filterType: Choice<AlertType>
    var filterCategory: Choice<Category>
    var filterStatus: Choice<Status>

    function Visible(): seq<Alert>
      reads this
    {
      FilteredAlerts(alerts, filterType, filterCategory, filterStatus)
    }

    constructor ()
      ensures alerts == MockAlerts()
      ensures filterType == All && filterCategory == All && filterStatus == All
    {
      alerts := MockAlerts();
      filterType, filterCategory, filterStatus := All, All, All;
    }

    method AcknowledgeAlert(id: string)
      modifies this
      ensures alerts == Acknowledge(old(alerts), id)
      ensures filterType == old(filterType) && filterCategory == old(filterCategory) && filterStatus == old(filterStatus)
    {
      alerts := Acknowledge(alerts, id);
    }

    method ResolveAlert(id: string)
      modifies this
      ensures alerts == Resolve(old(alerts), id)
      ensures filterType == old(filterType) && filterCategory == old(filterCategory) && filterStatus == old(filterStatus)
    {
      alerts := Resolve(alerts, id);
    }

    method SetFilters(ft: Choice<AlertType>, fc: Choice<Category>, fs: Choice<Status>)
      modifies this
      ensures alerts == old(alerts)
      ensures filterType == ft && filterCategory == fc && filterStatus == fs
    {
      filterType, filterCategory, filterStatus := ft, fc, fs;
    }

    /** Clear Filters: every filter back to "all", so every alert is listed. */
    method ClearFilters()
      modifies this
      ensures alerts == old(alerts)
      ensures filterType == All && filterCategory == All && filterStatus == All
      ensures Visible() == alerts
    {
      filterType, filterCategory, filterStatus := All, All, All;
      AllFiltersShowEverything(alerts);
    }
  }
}
