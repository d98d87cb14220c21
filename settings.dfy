/** The system settings page: five sections of keyed settings edited one key
    at a time, a dirty flag, save and reset-to-defaults, and the user
    profile form whose only editable fields are name, email and phone. */
module Settings {

  /** A setting's value: the switches give booleans, the inputs and
      selects give numbers (`Number(...)`) or strings. */
  datatype Value = Flag(b: bool) | Number(n: int) | Text(s: string)

  datatype Section = Notifications | Ai | Security | Display | System

  /** The settings object: one key/value map per section. */
  datatype SettingsObject = SettingsObject(
    notifications: map<string, Value>, ai: map<string, Value>,
    security: map<string, Value>, display: map<string, Value>,
    system: map<string, Value>)
  {
    function Get(sec: Section): map<string, Value>
    {
      match sec
      case Notifications => notifications
      case Ai => ai
      case Security => security
      case Display => display
      case System => system
    }

    function With(sec: Section, m: map<string, Value>): (r: SettingsObject)
      ensures r.Get(sec) == m
      ensures forall other :: other != sec ==> r.Get(other) == Get(other)
    {
      match sec
      case Notifications => this.(notifications := m)
      case Ai => this.(ai := m)
      case Security => this.(security := m)
      case Display => this.(display := m)
      case System => this.(system := m)
    }
  }

  function Defaults(): SettingsObject
  {
    SettingsObject(
      map["criticalAlerts" := Flag(true), "trainDelays" := Flag(true),
          "systemUpdates" := Flag(false), "maintenanceReminders" := Flag(true),
          "emailNotifications" := Flag(true), "smsNotifications" := Flag(false)],
      map["autoAcceptLowRisk" := Flag(false), "suggestionTimeout" := Number(30),
          "confidenceThreshold" := Number(85), "learningMode" := Flag(true)],
      map["sessionTimeout" := Number(480), "twoFactorAuth" := Flag(false),
          "autoLogout" := Flag(true), "auditLogging" := Flag(true)],
      map["theme" := Text("system"), "refreshRate" := Number(5),
          "animationsEnabled" := Flag(true), "compactMode" := Flag(false)],
      map["dataRetentionDays" := Number(90), "backupFrequency" := Text("daily"),
          "maintenanceWindow" := Text("02:00-04:00")])
  }

  /** `updateSetting(section, key, value)`: exactly that key of that section
      holds the new value (the key is added if the section lacks it); every
      other key and every other section keep theirs. */
  function Update(s: SettingsObject, sec: Section, key: string, v: Value): (r: SettingsObject)
    ensures key in r.Get(sec) && r.Get(sec)[key] == v
    ensures r.Get(sec).Keys == s.Get(sec).Keys + {key}
    ensures forall k :: k in s.Get(sec) && k != key ==> r.Get(sec)[k] == s.Get(sec)[k]
    ensures forall other :: other != sec ==> r.Get(other) == s.Get(other)
  {
    s.With(sec, s.Get(sec)[key := v])
  }

  /** Writing the value a key already holds leaves the settings object as it
      was (the page still reports unsaved changes, see `SettingsPage.UpdateSetting`). */
  lemma UpdateSameValue(s: SettingsObject, sec: Section, key: string)
    requires key in s.Get(sec)
    ensures Update(s, sec, key, s.Get(sec)[key]) == s
  {
    var r := Update(s, sec, key, s.Get(sec)[key]);
    assert r.Get(sec) == s.Get(sec);
    assert forall other :: r.Get(other) == s.Get(other);
  }

  /** Two settings objects agreeing on every section are equal. */
  lemma SectionsDetermine(a: SettingsObject, b: SettingsObject)
    requires forall sec :: a.Get(sec) == b.Get(sec)
    ensures a == b
  {
    assert a.Get(Notifications) == b.Get(Notifications) && a.Get(Ai) == b.Get(Ai);
    assert a.Get(Security) == b.Get(Security) && a.Get(Display) == b.Get(Display);
    assert a.Get(System) == b.Get(System);
  }

  /** Two updates of different keys commute. */
  lemma UpdatesCommute(s: SettingsObject, sec1: Section, k1: string, v1: Value, sec2: Section, k2: string, v2: Value)
    requires sec1 != sec2 || k1 != k2
    ensures Update(Update(s, sec1, k1, v1), sec2, k2, v2) == Update(Update(s, sec2, k2, v2), sec1, k1, v1)
  {
    forall sec
      ensures Update(Update(s, sec1, k1, v1), sec2, k2, v2).Get(sec) == Update(Update(s, sec2, k2, v2), sec1, k1, v1).Get(sec)
    {
      SectionCommutes(s, sec1, k1, v1, sec2, k2, v2, sec);
    }
    SectionsDetermine(Update(Update(s, sec1, k1, v1), sec2, k2, v2), Update(Update(s, sec2, k2, v2), sec1, k1, v1));
  }

  /** Writing two different keys of one map, in either order. */
  lemma MapUpdatesCommute(m: map<string, Value>, k1: string, v1: Value, k2: string, v2: Value)
    requires k1 != k2
    ensures m[k1 := v1][k2 := v2] == m[k2 := v2][k1 := v1]
  {
    var a, b := m[k1 := v1][k2 := v2], m[k2 := v2][k1 := v1];
    assert a.Keys == b.Keys;
    assert forall k :: k in a ==> a[k] == b[k];
  }

  /** Two updates of different keys leave any one section the same in
      either order. */
  lemma SectionCommutes(s: SettingsObject, sec1: Section, k1: string, v1: Value, sec2: Section, k2: string, v2: Value, sec: Section)
    requires sec1 != sec2 || k1 != k2
    ensures Update(Update(s, sec1, k1, v1), sec2, k2, v2).Get(sec) == Update(Update(s, sec2, k2, v2), sec1, k1, v1).Get(sec)
  {
    var a1, b1 := Update(s, sec1, k1, v1), Update(s, sec2, k2, v2);
    UpdateGet(s, sec1, k1, v1, sec);
    UpdateGet(s, sec2, k2, v2, sec);
    UpdateGet(a1, sec2, k2, v2, sec);
    UpdateGet(b1, sec1, k1, v1, sec);
    if sec == sec1 && sec == sec2 {
      MapUpdatesCommute(s.Get(sec), k1, v1, k2, v2);
    }
  }

  /** A section after an update, as a map update. */
  lemma UpdateGet(s: SettingsObject, sec: Section, k: string, v: Value, other: Section)
    ensures Update(s, sec, k, v).Get(other) == if other == sec then s.Get(sec)[k := v] else s.Get(other)
  {
  }

  datatype Profile = Profile(
    name: string, email: string, phone: string,
    employeeId: string, department: string, role: string, joinDate: string)

  function MockProfile(): Profile
  {
    Profile("Rajesh Kumar", "rajesh.kumar@railway.gov.in", "+91 98765 43210",
            "RC001", "Traffic Control", "Section Controller", "2016-03-15")
  }

  /** The three inputs of the profile form that are not disabled. */
  datatype EditableField = Name | Email | Phone

  /** One keystroke's `onChange`: the edited field takes the input's value;
      the employee id, department, role and join date are never written. */
  function EditProfile(p: Profile, f: EditableField, v: string): (r: Profile)
    ensures f == Name ==> r.name == v && r.email == p.email && r.phone == p.phone
    ensures f == Email ==> r.email == v && r.name == p.name && r.phone == p.phone
    ensures f == Phone ==> r.phone == v && r.name == p.name && r.email == p.email
    ensures r.employeeId == p.employeeId && r.department == p.department
    ensures r.role == p.role && r.joinDate == p.joinDate
  {
    match f
    case Name => p.(name := v)
    case Email => p.(email := v)
    case Phone => p.(phone := v)
  }

  /** Whatever edits are made, the fields shown disabled keep their value. */
  lemma {:induction false} EditsKeepFixedFields(p: Profile, edits: seq<(EditableField, string)>)
    ensures var r := EditAll(p, edits);
            r.employeeId == p.employeeId && r.department == p.department &&
            r.role == p.role && r.joinDate == p.joinDate
    decreases |edits|
  {
    if edits != [] {
      EditsKeepFixedFields(EditProfile(p, edits[0].0, edits[0].1), edits[1..]);
    }
  }

  /** The profile after a sequence of edits, in order: the last edit is
      applied to the profile the earlier ones produced. */
  function EditAll(p: Profile, edits: seq<(EditableField, string)>): (r: Profile)
    ensures edits == [] ==> r == p
    ensures edits != [] ==>
              var last := edits[|edits| - 1];
              r == EditProfile(EditAll(p, edits[..|edits| - 1]), last.0, last.1)
    decreases |edits|
  {
    if edits == [] then p
    else
      var rest := edits[1..];
      assert rest != [] ==> edits[..|edits| - 1][1..] == rest[..|rest| - 1];
      EditAll(EditProfile(p, edits[0].0, edits[0].1), rest)
  }

  /** The value an editable field shows. */
  function FieldValue(p: Profile, f: EditableField): string
  {
    match f
    case Name => p.name
    case Email => p.email
    case Phone => p.phone
  }

  /** An input never typed into keeps its original value. */
  lemma {:induction false} EditsUntouched(p: Profile, edits: seq<(EditableField, string)>, f: EditableField)
    requires forall i :: 0 <= i < |edits| ==> edits[i].0 != f
    ensures FieldValue(EditAll(p, edits), f) == FieldValue(p, f)
    decreases |edits|
  {
    if edits != [] {
      var init, last := edits[..|edits| - 1], edits[|edits| - 1];
      EditedFieldValue(EditAll(p, init), last.0, last.1, f);
      EditsUntouched(p, init, f);
    }
  }

  /** Each input shows the last value typed into it. */
  lemma {:induction false} EditsLastWins(p: Profile, edits: seq<(EditableField, string)>, f: EditableField, i: nat)
    requires i < |edits| && edits[i].0 == f
    requires forall j :: i < j < |edits| ==> edits[j].0 != f
    ensures FieldValue(EditAll(p, edits), f) == edits[i].1
    decreases |edits|
  {
    var init, last := edits[..|edits| - 1], edits[|edits| - 1];
    EditedFieldValue(EditAll(p, init), last.0, last.1, f);
    if i < |edits| - 1 {
      assert init[i] == edits[i];
      EditsLastWins(p, init, f, i);
    }
  }

  /** One edit changes the value of its own field only. */
  lemma EditedFieldValue(q: Profile, g: EditableField, v: string, f: EditableField)
    ensures FieldValue(EditProfile(q, g, v), f) == if g == f then v else FieldValue(q, f)
  {
  }

  /** The `console.log` of a save, with the settings it printed. */
  datatype Event = SavedSettings(settings: SettingsObject)

  class SettingsPage {
    var settings: SettingsObject
    var userProfile: Profile
    var showPassword: bool
    var hasUnsavedChanges: bool
    var emitted: seq<Event>

    /** The settings last written out: those of the latest save, or the
        defaults the page opened with. */
    function LastSaved(): SettingsObject
      reads this
    {
      if emitted == [] then Defaults() else emitted[|emitted| - 1].settings
    }

    /** When the page shows no unsaved-changes badge, the settings are the
        ones last saved. */
    predicate Valid()
      reads this
    {
      !hasUnsavedChanges ==> settings == LastSaved()
    }

    constructor ()
      ensures Valid()
      ensures settings == Defaults() && userProfile == MockProfile()
      ensures !showPassword && !hasUnsavedChanges && emitted == []
    {
      settings := Defaults();
      userProfile := MockProfile();
      showPassword := false;
      hasUnsavedChanges := false;
      emitted := [];
    }

    /** Always marks the page dirty, even when `v` is the value already held. */
    method UpdateSetting(sec: Section, key: string, v: Value)
      requires Valid()
      modifies this
      ensures Valid()
      ensures settings == Update(old(settings), sec, key, v)
      ensures hasUnsavedChanges
      ensures userProfile == old(userProfile) && showPassword == old(showPassword) && emitted == old(emitted)
    {
      settings := Update(settings, sec, key, v);
      hasUnsavedChanges := true;
    }

    method SaveSettings()
      requires Valid()
      modifies this
      ensures Valid()
      ensures settings == old(settings) && !hasUnsavedChanges
      ensures emitted == old(emitted) + [SavedSettings(settings)]
      ensures userProfile == old(userProfile) && showPassword == old(showPassword)
    {
      emitted := emitted + [SavedSettings(settings)];
      hasUnsavedChanges := false;
    }

    /** Marks the page dirty even when the settings already were the defaults. */
    method ResetSettings()
      requires Valid()
      modifies this
      ensures Valid()
      ensures settings == Defaults() && hasUnsavedChanges
      ensures userProfile == old(userProfile) && showPassword == old(showPassword) && emitted == old(emitted)
    {
      settings := Defaults();
      hasUnsavedChanges := true;
    }

    /** Profile edits touch neither the settings nor the dirty flag. */
    method EditProfileField(f: EditableField, v: string)
      requires Valid()
      modifies this
      ensures Valid()
      ensures userProfile == EditProfile(old(userProfile), f, v)
      ensures settings == old(settings) && hasUnsavedChanges == old(hasUnsavedChanges)
      ensures showPassword == old(showPassword) && emitted == old(emitted)
    {
      userProfile := EditProfile(userProfile, f, v);
    }

    method ToggleShowPassword()
      requires Valid()
      modifies this
      ensures Valid()
      ensures showPassword == !old(showPassword)
      ensures settings == old(settings) && userProfile == old(userProfile)
      ensures hasUnsavedChanges == old(hasUnsavedChanges) && emitted == old(emitted)
    {
      showPassword := !showPassword;
    }
  }
}
