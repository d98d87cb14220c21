/** The station's train schedule: the trains ordered by scheduled time,
    each with an upper-cased type and status badge and, when it runs late,
    a "Delayed +Nm" note. */
module TrainSchedule {
  import opened Seqs
  import opened Text
  import opened Sorting
  import opened StationTypes

  function ScheduledTime(t: TrainInfo): string
  {
    t.scheduledTime
  }

  /** `[...trains].sort((a, b) => a.scheduledTime.localeCompare(b.scheduledTime))`:
      a reordered copy, earliest time first; the list it was made from is
      left as it was. */
  function SortedTrains(trains: seq<TrainInfo>): (r: seq<TrainInfo>)
    ensures multiset(r) == multiset(trains) && |r| == |trains|
    ensures forall i, j :: 0 <= i < j < |r| ==> !StrLess(r[j].scheduledTime, r[i].scheduledTime)
  {
    StrLessIsStrictTotalOrder();
    SortBySorted(trains, ScheduledTime, StrLess);
    SortBy(trains, ScheduledTime, StrLess)
  }

  /** Trains scheduled at the same time keep their original relative order. */
  lemma {:induction false} SortedTrainsStable(trains: seq<TrainInfo>, time: string)
    ensures KeyClass(SortedTrains(trains), ScheduledTime, time) == KeyClass(trains, ScheduledTime, time)
  {
    StrLessIsStrictTotalOrder();
    SortByStable(trains, ScheduledTime, StrLess, time);
  }

  // ---------------------------------------------------------------------
  // Clock times.

  predicate IsDigit(c: char)
  {
    '0' <= c <= '9'
  }

  function DigitValue(c: char): int
  {
    c as int - '0' as int
  }

  /** A zero-padded "HH:MM" time with minutes below 60. */
  predicate IsClockTime(s: string)
  {
    |s| == 5 && IsDigit(s[0]) && IsDigit(s[1]) && s[2] == ':' &&
    IsDigit(s[3]) && '0' <= s[3] <= '5' && IsDigit(s[4])
  }

  /** Minutes since midnight of an "HH:MM" time. */
  function ClockMinutes(s: string): int
    requires IsClockTime(s)
  {
    (10 * DigitValue(s[0]) + DigitValue(s[1])) * 60 + 10 * DigitValue(s[3]) + DigitValue(s[4])
  }

  /** Comparing two zero-padded clock times as text is comparing them in
      time. */
  lemma ClockOrderIsChronological(a: string, b: string)
    requires IsClockTime(a) && IsClockTime(b)
    ensures StrLess(a, b) <==> ClockMinutes(a) < ClockMinutes(b)
  {
    if a[0] == b[0] {
      assert StrLess(a, b) == StrLess(a[1..], b[1..]);
      if a[1] == b[1] {
        assert StrLess(a[1..], b[1..]) == StrLess(a[2..], b[2..]) by { assert a[1..][1..] == a[2..] && b[1..][1..] == b[2..]; }
        assert StrLess(a[2..], b[2..]) == StrLess(a[3..], b[3..]) by { assert a[2..][1..] == a[3..] && b[2..][1..] == b[3..]; }
        if a[3] == b[3] {
          assert StrLess(a[3..], b[3..]) == StrLess(a[4..], b[4..]) by { assert a[3..][1..] == a[4..] && b[3..][1..] == b[4..]; }
          assert StrLess(a[4..], b[4..]) == (a[4] < b[4]) by {
            assert a[4..][1..] == [] && b[4..][1..] == [];
          }
        }
      }
    }
  }

  /** When every train has a well-formed clock time, the schedule lists
      them in chronological order. */
  lemma SortedTrainsChronological(trains: seq<TrainInfo>, i: int, j: int)
    requires forall k :: 0 <= k < |trains| ==> IsClockTime(trains[k].scheduledTime)
    requires 0 <= i < j < |trains|
    ensures var r := SortedTrains(trains);
            IsClockTime(r[i].scheduledTime) && IsClockTime(r[j].scheduledTime) &&
            ClockMinutes(r[i].scheduledTime) <= ClockMinutes(r[j].scheduledTime)
  {
    var r := SortedTrains(trains);
    assert r[i] in multiset(trains) && r[j] in multiset(trains);
    ClockOrderIsChronological(r[j].scheduledTime, r[i].scheduledTime);
  }

  // ---------------------------------------------------------------------
  // Badges.

  /** The status as the data spells it. */
  function StateName(st: TrainState): string
  {
    match st
    case OnTime => "on_time"
    case Delayed => "delayed"
    case Arrived => "arrived"
    case Departed => "departed"
    case Approaching => "approaching"
  }

  /** The status spellings are lower-case words joined by at most one
      underscore. */
  lemma StateNameShape(st: TrainState)
    ensures ' ' !in StateName(st)
    ensures forall i :: 0 <= i < |StateName(st)| ==> !('A' <= StateName(st)[i] <= 'Z')
    ensures st != OnTime ==> '_' !in StateName(st)
  {
  }

  /** `status.replace('_', ' ').toUpperCase()`. */
  function StatusLabel(st: TrainState): (r: string)
    ensures |r| == |StateName(st)|
    ensures '_' !in r
    ensures st != OnTime ==> r == ToUpper(StateName(st))
  {
    var spaced := ReplaceFirst(StateName(st), '_', ' ');
    StateNameShape(st);
    assert '_' !in spaced by {
      if st == OnTime {
        assert spaced == "on time";
      }
    }
    ToUpper(spaced)
  }

  /** `on_time` reads "ON TIME". */
  lemma OnTimeLabel()
    ensures StatusLabel(OnTime) == "ON TIME"
  {
    SpacedOnTime();
    UpperOnTime();
  }

  /** The underscore of `on_time` is its third character. */
  lemma SpacedOnTime()
    ensures ReplaceFirst("on_time", '_', ' ') == "on time"
  {
    var name := "on_time";
    assert name[2] == '_';
    assert IndexOf(name, '_') == 2;
  }

  /** The upper-cased spaced status. */
  lemma UpperOnTime()
    ensures ToUpper("on time") == "ON TIME"
  {
    var r := ToUpper("on time");
    assert r[0] == 'O' && r[1] == 'N' && r[2] == ' ' && r[3] == 'T';
    assert r[4] == 'I' && r[5] == 'M' && r[6] == 'E';
  }

  /** The label gives the status back: lower-cased, with its first space
      turned into an underscore, it is the status's own spelling. */
  lemma StatusLabelRoundTrip(st: TrainState)
    ensures ReplaceFirst(ToLower(StatusLabel(st)), ' ', '_') == StateName(st)
  {
    var name := StateName(st);
    StateNameShape(st);
    var spaced := ReplaceFirst(name, '_', ' ');
    assert forall i :: 0 <= i < |spaced| ==> !('A' <= spaced[i] <= 'Z');
    LowerOfUpperNoCapitals(spaced);
    ReplaceFirstUndo(name, '_', ' ');
  }

  /** The train type as the data spells it. */
  function KindName(k: TrainKind): string
  {
    match k
    case Express => "express"
    case Passenger => "passenger"
    case Freight => "freight"
    case Local => "local"
  }

  /** The type badge: `type.toUpperCase()`, the type name letter by letter
      in capitals, which lower-cases back to the name. */
  function KindLabel(k: TrainKind): (r: string)
    ensures |r| == |KindName(k)|
    ensures forall i :: 0 <= i < |r| ==> r[i] == UpperChar(KindName(k)[i])
    ensures forall i :: 0 <= i < |r| ==> !('a' <= r[i] <= 'z')
    ensures ToLower(r) == KindName(k)
  {
    LowerOfUpperNoCapitals(KindName(k));
    ToUpper(KindName(k))
  }

  /** Different train types get different badges. */
  lemma KindLabelInjective(k1: TrainKind, k2: TrainKind)
    requires KindLabel(k1) == KindLabel(k2)
    ensures k1 == k2
  {
    assert KindName(k1) == ToLower(KindLabel(k1));
    assert KindName(k1)[0] == KindName(k2)[0];
  }

  /** The "Delayed +Nm" note, shown only for a positive delay. */
  function DelayNote(t: TrainInfo): (r: Option<string>)
    ensures r.Some? <==> t.delay > 0
  {
    if t.delay > 0 then Some("Delayed +" + NatToString(t.delay) + "m") else None
  }

  /** A note carries the fixed prefix, then digits that read back as the
      delay, then "m". */
  lemma DelayNoteReadsBack(t: TrainInfo)
    requires t.delay > 0
    ensures var note := DelayNote(t).value;
            && |note| >= 11 && note[..9] == "Delayed +" && note[|note| - 1] == 'm'
            && (forall i :: 9 <= i < |note| - 1 ==> '0' <= note[i] <= '9')
            && DigitsValue(note[9..|note| - 1]) == t.delay
  {
    var note := DelayNote(t).value;
    NatToStringRoundTrip(t.delay);
    assert note[9..|note| - 1] == NatToString(t.delay);
  }
}
