/** The team management page: avatar initials, the member counters, the
    shift schedule and the per-role permission lists, all computed from the
    (never updated) member list. */
module Team {
  import opened Seqs
  import opened Text

  datatype Role = SectionController | StationMaster | AssistantController | SignalOperator
  datatype Presence = Online | Offline | OnDuty | OnBreak
  datatype Shift = Morning | Evening | Night

  datatype Member = Member(
    id: string, name: string, role: Role, email: string, phone: string,
    avatar: Option<string>, status: Presence, stationsAssigned: seq<string>,
    shift: Shift, experience: string, lastActive: string,
    permissions: seq<string>)

  /** The role as the page stores and prints it. */
  function RoleName(r: Role): string
  {
    match r
    case SectionController => "Section Controller"
    case StationMaster => "Station Master"
    case AssistantController => "Assistant Controller"
    case SignalOperator => "Signal Operator"
  }

  /** The roles in the order of the permissions tab. */
  const Roles: seq<Role> := [SectionController, StationMaster, AssistantController, SignalOperator]

  // ---------------------------------------------------------------------
  // Initials.

  /** The pieces that have a first character, in order. */
  function Words(parts: seq<string>): (r: seq<string>)
    ensures |r| <= |parts|
    ensures forall i :: 0 <= i < |r| ==> r[i] != [] && r[i] in parts
  {
    Filter(parts, (p: string) => p != [])
  }

  /** `n[0]` of each piece, where the empty piece (two spaces in a row, or
      a leading or trailing space) gives `undefined`, which `join('')`
      prints as nothing: the first character of each non-empty piece, in
      order. */
  function FirstChars(parts: seq<string>): (r: string)
    ensures |r| == |Words(parts)|
    ensures forall i :: 0 <= i < |r| ==> r[i] == Words(parts)[i][0]
  {
    if parts == [] then []
    else
      var rest := FirstChars(parts[1..]);
      if parts[0] == [] then
        assert Words(parts) == Words(parts[1..]);
        rest
      else
        assert Words(parts) == [parts[0]] + Words(parts[1..]);
        [parts[0][0]] + rest
  }

  /** A character no piece contains is not among the first characters. */
  lemma FirstCharsAvoid(parts: seq<string>, c: char)
    requires forall k :: 0 <= k < |parts| ==> c !in parts[k]
    ensures forall i :: 0 <= i < |FirstChars(parts)| ==> FirstChars(parts)[i] != c
  {
    var firsts := FirstChars(parts);
    forall i | 0 <= i < |firsts| ensures firsts[i] != c {
      var w := Words(parts)[i];
      var k :| 0 <= k < |parts| && parts[k] == w;
      assert w[0] in w;
    }
  }

  /** `getInitials(name)`: the upper-cased first letters of the words of
      the name, one per non-empty word, in order. */
  function Initials(name: string): (r: string)
    ensures |r| == |Words(Split(name, ' '))| <= Occurrences(name, ' ') + 1
    ensures forall i :: 0 <= i < |r| ==> r[i] == UpperChar(Words(Split(name, ' '))[i][0])
    ensures forall i :: 0 <= i < |r| ==> r[i] != ' '
  {
    SplitLength(name, ' ');
    FirstCharsAvoid(Split(name, ' '), ' ');
    ToUpper(FirstChars(Split(name, ' ')))
  }

  // ---------------------------------------------------------------------
  // Counters.

  /** The "On Duty" card. */
  function OnDutyCount(ms: seq<Member>): (r: nat)
    ensures r <= |ms|
    ensures r == 0 <==> forall i :: 0 <= i < |ms| ==> ms[i].status != OnDuty
  {
    |Filter(ms, (m: Member) => m.status == OnDuty)|
  }

  /** The "Online" card, which counts members on duty as online. */
  function OnlineCount(ms: seq<Member>): (r: nat)
    ensures r <= |ms|
    ensures r == 0 <==> forall i :: 0 <= i < |ms| ==> ms[i].status != Online && ms[i].status != OnDuty
  {
    |Filter(ms, (m: Member) => m.status == Online || m.status == OnDuty)|
  }

  /** On duty counts as online, so the on-duty counter never exceeds the
      online counter, which never exceeds the team size. */
  lemma {:induction false} CountersOrdered(ms: seq<Member>)
    ensures OnDutyCount(ms) <= OnlineCount(ms) <= |ms|
  {
    FilterMonotone(ms, (m: Member) => m.status == OnDuty, (m: Member) => m.status == Online || m.status == OnDuty);
  }

  /** The Controllers card: members whose role text contains "Controller". */
  function ControllersCount(ms: seq<Member>): (r: nat)
    ensures r <= |ms|
    ensures r == 0 <==> forall i :: 0 <= i < |ms| ==> !Contains(RoleName(ms[i].role), "Controller")
  {
    |Filter(ms, (m: Member) => Contains(RoleName(m.role), "Controller"))|
  }

  /** Exactly the section and assistant controllers have "Controller" in
      their role name. */
  lemma ControllerRoles(r: Role)
    ensures Contains(RoleName(r), "Controller") <==> r == SectionController || r == AssistantController
  {
    match r
    case SectionController => assert OccursAt(RoleName(r), "Controller", 8);
    case AssistantController => assert OccursAt(RoleName(r), "Controller", 10);
    case StationMaster => MissingCharNotContained(RoleName(r), "Controller", 0);
    case SignalOperator => MissingCharNotContained(RoleName(r), "Controller", 0);
  }

  /** The Controllers count is the number of section controllers plus the
      number of assistant controllers. */
  lemma {:induction false} ControllersCountByRole(ms: seq<Member>)
    ensures ControllersCount(ms)
         == |Filter(ms, (m: Member) => m.role == SectionController)|
          + |Filter(ms, (m: Member) => m.role == AssistantController)|
  {
    forall m: Member
      ensures Contains(RoleName(m.role), "Controller") <==> m.role == SectionController || m.role == AssistantController
    {
      ControllerRoles(m.role);
    }
    FilterDisjointCount(ms, (m: Member) => m.role == SectionController, (m: Member) => m.role == AssistantController,
                        (m: Member) => Contains(RoleName(m.role), "Controller"));
  }

  // ---------------------------------------------------------------------
  // Shift schedule.

  function ShiftMembers(ms: seq<Member>, s: Shift): (r: seq<Member>)
    ensures IsSubseq(r, ms)
    ensures forall i :: 0 <= i < |r| ==> r[i].shift == s
    ensures forall i :: 0 <= i < |ms| && ms[i].shift == s ==> ms[i] in r
    ensures forall m :: multiset(r)[m] == if m.shift == s then multiset(ms)[m] else 0
  {
    FilterIsSubseq(ms, (m: Member) => m.shift == s);
    Filter(ms, (m: Member) => m.shift == s)
  }

  /** The three shift groups partition the team: each member is listed in
      the group of its own shift only, and the group sizes add up to the
      team size. */
  lemma {:induction false} ShiftsPartition(ms: seq<Member>)
    ensures |ShiftMembers(ms, Morning)| + |ShiftMembers(ms, Evening)| + |ShiftMembers(ms, Night)| == |ms|
    ensures forall i, s :: 0 <= i < |ms| ==> (ms[i] in ShiftMembers(ms, s) <==> ms[i].shift == s)
  {
    var morning := (m: Member) => m.shift == Morning;
    var evening := (m: Member) => m.shift == Evening;
    var night := (m: Member) => m.shift == Night;
    var early := (m: Member) => m.shift == Morning || m.shift == Evening;
    var any := (m: Member) => true;
    FilterDisjointCount(ms, morning, evening, early);
    FilterDisjointCount(ms, early, night, any);
    FilterAll(ms, any);
    forall i, s | 0 <= i < |ms| && ms[i] in ShiftMembers(ms, s) ensures ms[i].shift == s {
      var k :| 0 <= k < |ShiftMembers(ms, s)| && ShiftMembers(ms, s)[k] == ms[i];
    }
  }

  // ---------------------------------------------------------------------
  // Permissions per role.

  /** The index of the first appearance of `x` in `xs`. */
  function FirstIndex(xs: seq<string>, x: string): (k: nat)
    requires x in xs
    ensures k < |xs| && xs[k] == x
    ensures forall j :: 0 <= j < k ==> xs[j] != x
  {
    if xs[0] == x then 0 else FirstIndex(xs[1..], x) + 1
  }

  /** Appending a value does not move the first appearance of a value
      already present. */
  lemma FirstIndexAppend(xs: seq<string>, z: string, y: string)
    requires y in xs
    ensures FirstIndex(xs + [z], y) == FirstIndex(xs, y)
  {
    assert (xs + [z])[FirstIndex(xs, y)] == y;
  }

  /** `[...new Set(xs)]`: each value once, in order of first appearance. */
  function Dedup(xs: seq<string>): (r: seq<string>)
    ensures forall i, j :: 0 <= i < j < |r| ==> r[i] != r[j]
    ensures forall x :: x in r <==> x in xs
    ensures forall i, j :: 0 <= i < j < |r| ==> FirstIndex(xs, r[i]) < FirstIndex(xs, r[j])
  {
    if xs == [] then []
    else
      var prefix := xs[..|xs| - 1];
      var init := Dedup(prefix);
      var last := xs[|xs| - 1];
      assert xs == prefix + [last];
      forall y | y in init ensures FirstIndex(xs, y) == FirstIndex(prefix, y) {
        FirstIndexAppend(prefix, last, y);
      }
      if last in init then init
      else
        assert FirstIndex(xs, last) == |xs| - 1;
        init + [last]
  }

  /** `flatMap(m => m.permissions)`. */
  function AllPermissions(ms: seq<Member>): (r: seq<string>)
    ensures forall x :: x in r <==> exists i :: 0 <= i < |ms| && x in ms[i].permissions
  {
    if ms == [] then []
    else
      var rest := AllPermissions(ms[1..]);
      forall x | x in rest ensures exists i :: 0 <= i < |ms| && x in ms[i].permissions {
        var i :| 0 <= i < |ms[1..]| && x in ms[1..][i].permissions;
        assert ms[i + 1] == ms[1..][i];
      }
      forall x, i | 0 <= i < |ms| && x in ms[i].permissions && x !in ms[0].permissions ensures x in rest {
        assert ms[1..][i - 1] == ms[i];
      }
      ms[0].permissions + rest
  }

  /** The permission list shown for a role. */
  function RolePermissions(ms: seq<Member>, role: Role): (r: seq<string>)
    ensures forall i, j :: 0 <= i < j < |r| ==> r[i] != r[j]
  {
    Dedup(AllPermissions(Filter(ms, (m: Member) => m.role == role)))
  }

  /** A role's list holds exactly the permissions some member of that role
      has. */
  lemma RolePermissionsExact(ms: seq<Member>, role: Role, p: string)
    ensures p in RolePermissions(ms, role) <==>
            exists i :: 0 <= i < |ms| && ms[i].role == role && p in ms[i].permissions
  {
    var holders := Filter(ms, (m: Member) => m.role == role);
    if p in RolePermissions(ms, role) {
      var k :| 0 <= k < |holders| && p in holders[k].permissions;
      var i :| 0 <= i < |ms| && ms[i] == holders[k];
    }
    if exists i :: 0 <= i < |ms| && ms[i].role == role && p in ms[i].permissions {
      var i :| 0 <= i < |ms| && ms[i].role == role && p in ms[i].permissions;
      var k :| 0 <= k < |holders| && holders[k] == ms[i];
    }
  }

  // ---------------------------------------------------------------------
  // Initial data.

  function MockMembers(): seq<Member>
  {
    [ Member("1", "Rajesh Kumar", SectionController, "rajesh.kumar@railway.gov.in", "+91 98765 43210",
        None, OnDuty, ["Central Junction", "Metro Hub", "Express Terminal"], Morning, "8 years",
        "2 minutes ago", ["train_control", "override_ai", "emergency_stop", "route_planning"]),
      Member("2", "Priya Sharma", StationMaster, "priya.sharma@railway.gov.in", "+91 98765 43211",
        None, Online, ["Central Junction"], Morning, "5 years",
        "5 minutes ago", ["platform_control", "passenger_info", "coordination"]),
      Member("3", "Arun Patel", AssistantController, "arun.patel@railway.gov.in", "+91 98765 43212",
        None, OnDuty, ["Metro Hub", "Regional Station"], Evening, "3 years",
        "1 hour ago", ["train_tracking", "report_generation", "coordination"]),
      Member("4", "Suresh Reddy", SignalOperator, "suresh.reddy@railway.gov.in", "+91 98765 43213",
        None, Offline, ["Freight Hub"], Night, "12 years",
        "8 hours ago", ["signal_control", "maintenance_coord", "safety_protocols"]) ]
  }

  /** The initials of "First Last" are the two first letters, in order,
      upper-cased. */
  lemma InitialsOfTwoWords(first: string, last: string)
    requires first != [] && last != [] && ' ' !in first && ' ' !in last
    ensures Initials(first + " " + last) == [UpperChar(first[0]), UpperChar(last[0])]
  {
    var parts := [first, last];
    SplitWordThen(first, last, ' ');
    SplitNoSep(last, ' ');
    assert Split(first + " " + last, ' ') == parts;
    FilterAll(parts, (p: string) => p != []);
    assert Words(parts) == parts;
  }
}
