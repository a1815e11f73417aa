/** The medication service: the acknowledgment update sent by
    `markMedicationTaken`, and the bookkeeping of weekly reminder triggers
    kept in step with the stored medications. The record store is reduced to
    the response it gives; the notification library to a map from trigger
    identifier to trigger. */
module Medications {
  import opened Wrappers
  import opened JsText
  import opened Database

  // ---------------------------------------------------------------------
  // Acknowledgments

  /** The `taken` map written by `markMedicationTaken`: the occurrence key
      `dateTime` set to true, every other entry kept. */
  function MarkTaken(taken: map<string, bool>, dateTime: string): (r: map<string, bool>)
    ensures r.Keys == taken.Keys + {dateTime}
    ensures r[dateTime]
    ensures forall k :: k in taken && k != dateTime ==> r[k] == taken[k]
  {
    taken[dateTime := true]
  }

  /** Marking an occurrence that is already marked changes nothing. */
  lemma MarkTakenIdempotent(taken: map<string, bool>, dateTime: string)
    ensures MarkTaken(MarkTaken(taken, dateTime), dateTime) == MarkTaken(taken, dateTime)
    ensures dateTime in taken && taken[dateTime] ==> MarkTaken(taken, dateTime) == taken
  {
  }

  // ---------------------------------------------------------------------
  // Triggers and their identifiers

  /** A scheduled notification: its content and its weekly calendar trigger
      (`weekday` 1 = Sunday, as the notification library counts). */
  datatype Trigger = Trigger(
    title: string,
    body: string,
    sound: bool,
    weekday: int,
    hour: NumberValue,
    minute: NumberValue,
    repeats: bool)

  /** `med_<id>_`: every trigger of medication `id` starts with it. */
  function NotificationPrefix(medicationId: string): string {
    "med_" + medicationId + "_"
  }

  /** `med_<id>_<day>_<time>`. */
  function NotificationId(medicationId: string, day: int, time: string): (r: string)
    ensures StartsWith(r, NotificationPrefix(medicationId))
  {
    NotificationPrefix(medicationId) + IntToString(day) + "_" + time
  }

  /** The weekly reminder for `day` at `time`: weekday shifted from 0-based
      to 1-based, hour and minute read with `Number` from the pieces around
      the first two colons, repeating. */
  function Reminder(name: string, day: int, time: string): (t: Trigger)
    ensures t.weekday == day + 1 && t.repeats && t.sound
    ensures t.title == "Hora do medicamento: " + name
  {
    var parts := Split(time, ':');
    Trigger(
      "Hora do medicamento: " + name,
      "Lembre-se de tomar seu medicamento agora.",
      true,
      day + 1,
      ToNumber(parts[0]),
      if |parts| > 1 then ToNumber(parts[1]) else Undefined,
      true)
  }

  /** A well-formed "HH:MM" gives the hour and minute it spells. */
  lemma ReminderClock(name: string, day: int, hh: string, mm: string)
    requires hh != [] && AllDigits(hh) && mm != [] && AllDigits(mm)
    ensures Reminder(name, day, hh + ":" + mm).hour == Num(DigitsValue(hh))
    ensures Reminder(name, day, hh + ":" + mm).minute == Num(DigitsValue(mm))
  {
    assert ':' !in hh;
    assert ':' !in mm;
    SplitAfterPiece(hh, mm, ':');
    SplitAfterPiece(mm, [], ':');
    assert Split(hh + ":" + mm, ':') == [hh, mm];
    NumeralToNumber(hh);
    NumeralToNumber(mm);
  }

  /** Two strings cut at their first underscore: the heads agree whenever
      one string starts with the other's head and underscore. */
  lemma HeadBeforeUnderscore(a: string, b: string, rest: string)
    requires '_' !in a && '_' !in b
    requires StartsWith(b + "_" + rest, a + "_")
    ensures a == b
  {
    var s := b + "_" + rest;
    assert s[..|a| + 1] == a + "_";
    assert s[|a|] == '_' && s[|b|] == '_';
    assert forall i :: 0 <= i < |b| ==> s[i] == b[i] && s[i] != '_';
    assert forall i :: 0 <= i < |a| ==> s[i] == a[i] && s[i] != '_';
    assert a == s[..|a|] == b;
  }

  /** Identifiers of one medication never collide: the day numeral holds no
      underscore, so identifier, day and time determine each other. */
  lemma NotificationIdInjective(medicationId: string, d1: int, t1: string, d2: int, t2: string)
    requires NotificationId(medicationId, d1, t1) == NotificationId(medicationId, d2, t2)
    ensures d1 == d2 && t1 == t2
  {
    var p := NotificationPrefix(medicationId);
    var s1, s2 := IntToString(d1), IntToString(d2);
    assert '_' !in s1;
    assert '_' !in s2;
    var id := NotificationId(medicationId, d1, t1);
    assert id == p + (s1 + "_" + t1);
    assert id == p + (s2 + "_" + t2);
    var tail := id[|p|..];
    assert tail == s1 + "_" + t1 == s2 + "_" + t2;
    HeadBeforeUnderscore(s1, s2, t2);
    IntToStringInjective(d1, d2);
    assert t1 == tail[|s1| + 1..] == t2;
  }

  /** Triggers of different medications are told apart by the prefix as long
      as no id holds an underscore. */
  lemma OtherMedicationOutsidePrefix(medicationId: string, otherId: string, day: int, time: string)
    requires '_' !in medicationId && '_' !in otherId && medicationId != otherId
    ensures !StartsWith(NotificationId(otherId, day, time), NotificationPrefix(medicationId))
  {
    if StartsWith(NotificationId(otherId, day, time), NotificationPrefix(medicationId)) {
      var id := NotificationId(otherId, day, time);
      var rest := IntToString(day) + "_" + time;
      var tail := otherId + "_" + rest;
      assert id == "med_" + tail;
      assert |"med_"| == 4;
      assert tail == id[4..];
      var p := NotificationPrefix(medicationId);
      var head := medicationId + "_";
      assert p == "med_" + head && id[..|p|] == p;
      assert tail[..|head|] == id[4..|p|] == p[4..] == head;
      HeadBeforeUnderscore(medicationId, otherId, rest);
    }
  }

  /** With an underscore in an id the prefix is ambiguous: cancelling
      medication "1" also matches the triggers of medication "1_2". */
  lemma PrefixAmbiguousWithUnderscore()
    ensures StartsWith(NotificationId("1_2", 0, "08:00"), NotificationPrefix("1"))
  {
  }

  // ---------------------------------------------------------------------
  // The planned trigger set

  /** The object handed to the scheduler (the stored row merged with the
      submitted fields); `None` is a missing or null field. */
  datatype ReminderSource = ReminderSource(
    id: Option<string>,
    name: string,
    days: Option<seq<int>>,
    times: Option<seq<string>>)
  {
    /** The guard `!id || !days || !times` fails: a non-empty id and both lists present. */
    predicate Schedulable() {
      id.Some? && id.value != "" && days.Some? && times.Some?
    }
  }

  /** `{...data, ...medication}` for an insert. */
  function InsertSource(data: MedicationRow, medication: MedicationInsert): (s: ReminderSource)
    ensures medication.id.Some? ==> s.id == medication.id
    ensures medication.id.None? ==> s.id == Some(data.id)
    ensures s.name == medication.name
    ensures s.days == Some(medication.days) && s.times == Some(medication.times)
  {
    ReminderSource(Some(medication.id.GetOr(data.id)), medication.name, Some(medication.days), Some(medication.times))
  }

  /** `{...data, ...updates}` for an update: an absent field keeps the stored value. */
  function UpdateSource(data: MedicationRow, updates: MedicationUpdate): (s: ReminderSource)
    ensures s.id == Some(if updates.id.Some? then updates.id.value else data.id)
    ensures s.name == (if updates.name.Some? then updates.name.value else data.name)
    ensures s.days == Some(if updates.days.Some? then updates.days.value else data.days)
    ensures s.times == Some(if updates.times.Some? then updates.times.value else data.times)
  {
    ReminderSource(
      Some(updates.id.GetOr(data.id)),
      updates.name.GetOr(data.name),
      Some(updates.days.GetOr(data.days)),
      Some(updates.times.GetOr(data.times)))
  }

  /** The identifiers of one (day, time) grid. */
  function IdentifiersFor(medicationId: string, days: seq<int>, times: seq<string>): set<string> {
    set d, t | d in days && t in times :: NotificationId(medicationId, d, t)
  }

  /** The reminders of one day, installed in the order of `times`. */
  function DayPlan(medicationId: string, name: string, day: int, times: seq<string>): map<string, Trigger> {
    if times == [] then map[]
    else
      var time := times[|times| - 1];
      DayPlan(medicationId, name, day, times[..|times| - 1])[NotificationId(medicationId, day, time) := Reminder(name, day, time)]
  }

  /** The reminders of a whole grid, installed day after day. */
  function PlannedFor(medicationId: string, name: string, days: seq<int>, times: seq<string>): map<string, Trigger> {
    if days == [] then map[]
    else PlannedFor(medicationId, name, days[..|days| - 1], times) + DayPlan(medicationId, name, days[|days| - 1], times)
  }

  /** What scheduling `source` installs: nothing when the guard returns early. */
  function Planned(source: ReminderSource): map<string, Trigger> {
    if source.Schedulable() then PlannedFor(source.id.value, source.name, source.days.value, source.times.value)
    else map[]
  }

  lemma {:induction false} DayPlanContents(medicationId: string, name: string, day: int, times: seq<string>)
    ensures forall t :: t in times ==>
      NotificationId(medicationId, day, t) in DayPlan(medicationId, name, day, times)
      && DayPlan(medicationId, name, day, times)[NotificationId(medicationId, day, t)] == Reminder(name, day, t)
    ensures forall k :: k in DayPlan(medicationId, name, day, times) ==>
      exists t :: t in times && k == NotificationId(medicationId, day, t)
  {
    if times != [] {
      var init, last := times[..|times| - 1], times[|times| - 1];
      assert times == init + [last];
      DayPlanContents(medicationId, name, day, init);
      var plan := DayPlan(medicationId, name, day, times);
      forall t | t in times
        ensures NotificationId(medicationId, day, t) in plan
        ensures plan[NotificationId(medicationId, day, t)] == Reminder(name, day, t)
      {
        if t != last {
          assert t in init;
          if NotificationId(medicationId, day, t) == NotificationId(medicationId, day, last) {
            NotificationIdInjective(medicationId, day, t, day, last);
          }
        }
      }
    }
  }

  /** Every (day, time) pair of the grid is planned with its own reminder: a
      later pair never overwrites an earlier one, since identifiers do not
      collide. */
  lemma {:induction false} PlannedForValues(medicationId: string, name: string, days: seq<int>, times: seq<string>)
    ensures forall d, t :: d in days && t in times ==>
      NotificationId(medicationId, d, t) in PlannedFor(medicationId, name, days, times)
      && PlannedFor(medicationId, name, days, times)[NotificationId(medicationId, d, t)] == Reminder(name, d, t)
  {
    if days != [] {
      var init, last := days[..|days| - 1], days[|days| - 1];
      assert days == init + [last];
      PlannedForValues(medicationId, name, init, times);
      DayPlanContents(medicationId, name, last, times);
      var plan := PlannedFor(medicationId, name, days, times);
      forall d, t | d in days && t in times
        ensures NotificationId(medicationId, d, t) in plan
        ensures plan[NotificationId(medicationId, d, t)] == Reminder(name, d, t)
      {
        if d != last {
          assert d in init;
          if NotificationId(medicationId, d, t) in DayPlan(medicationId, name, last, times) {
            var t' :| t' in times && NotificationId(medicationId, d, t) == NotificationId(medicationId, last, t');
            NotificationIdInjective(medicationId, d, t, last, t');
          }
        }
      }
    }
  }

  /** Every planned identifier comes from a (day, time) pair of the grid. */
  lemma {:induction false} PlannedKeysFromGrid(medicationId: string, name: string, days: seq<int>, times: seq<string>)
    ensures forall k :: k in PlannedFor(medicationId, name, days, times) ==> k in IdentifiersFor(medicationId, days, times)
  {
    if days != [] {
      var init, last := days[..|days| - 1], days[|days| - 1];
      assert days == init + [last];
      PlannedKeysFromGrid(medicationId, name, init, times);
      DayPlanContents(medicationId, name, last, times);
      forall k | k in PlannedFor(medicationId, name, days, times)
        ensures k in IdentifiersFor(medicationId, days, times)
      {
        if k in DayPlan(medicationId, name, last, times) {
          var t :| t in times && k == NotificationId(medicationId, last, t);
          assert last in days;
        } else {
          assert k in IdentifiersFor(medicationId, init, times);
          var d, t :| d in init && t in times && k == NotificationId(medicationId, d, t);
          assert d in days;
        }
      }
    }
  }

  /** The planned map holds exactly the grid's identifiers. */
  lemma PlannedForKeys(medicationId: string, name: string, days: seq<int>, times: seq<string>)
    ensures PlannedFor(medicationId, name, days, times).Keys == IdentifiersFor(medicationId, days, times)
  {
    var plan := PlannedFor(medicationId, name, days, times);
    PlannedKeysFromGrid(medicationId, name, days, times);
    PlannedForValues(medicationId, name, days, times);
    forall k | k in IdentifiersFor(medicationId, days, times) ensures k in plan {
      var d, t :| d in days && t in times && k == NotificationId(medicationId, d, t);
    }
  }

  /** Scheduling a record installs exactly its grid, each identifier with
      the reminder for its day and time; nothing when the guard fails. */
  lemma PlannedContents(source: ReminderSource)
    ensures !source.Schedulable() ==> Planned(source) == map[]
    ensures source.Schedulable() ==>
      Planned(source).Keys == IdentifiersFor(source.id.value, source.days.value, source.times.value)
    ensures source.Schedulable() ==> forall d, t :: d in source.days.value && t in source.times.value ==>
      Planned(source)[NotificationId(source.id.value, d, t)] == Reminder(source.name, d, t)
  {
    if source.Schedulable() {
      PlannedForValues(source.id.value, source.name, source.days.value, source.times.value);
      PlannedForKeys(source.id.value, source.name, source.days.value, source.times.value);
    }
  }

  /** The notifier after cancelling medication `medicationId`: every
      identifier with its prefix gone, every other entry kept. */
  function Cancelled(scheduled: map<string, Trigger>, medicationId: string): map<string, Trigger> {
    map k | k in scheduled && !StartsWith(k, NotificationPrefix(medicationId)) :: scheduled[k]
  }

  /** Cancelling and then scheduling `source` under the same id leaves, among
      the identifiers with that id's prefix, exactly those of the new grid,
      and touches nothing outside the prefix. */
  lemma RescheduleReplacesPrefix(scheduled: map<string, Trigger>, medicationId: string, source: ReminderSource)
    requires source.id == Some(medicationId)
    ensures var after := Cancelled(scheduled, medicationId) + Planned(source);
      && (forall k :: k in after && StartsWith(k, NotificationPrefix(medicationId)) ==>
            source.Schedulable() && k in IdentifiersFor(medicationId, source.days.value, source.times.value))
      && (source.Schedulable() ==> forall k :: k in IdentifiersFor(medicationId, source.days.value, source.times.value) ==> k in after)
      && (forall k :: !StartsWith(k, NotificationPrefix(medicationId)) ==>
            (k in after <==> k in scheduled) && (k in scheduled ==> after[k] == scheduled[k]))
  {
    PlannedContents(source);
  }

  /** Cancelling one medication keeps every trigger of another whose id, like
      this one's, holds no underscore. */
  lemma CancelKeepsOtherMedications(
    scheduled: map<string, Trigger>, medicationId: string, otherId: string, day: int, time: string)
    requires '_' !in medicationId && '_' !in otherId && medicationId != otherId
    requires NotificationId(otherId, day, time) in scheduled
    ensures NotificationId(otherId, day, time) in Cancelled(scheduled, medicationId)
    ensures Cancelled(scheduled, medicationId)[NotificationId(otherId, day, time)]
            == scheduled[NotificationId(otherId, day, time)]
  {
    OtherMedicationOutsidePrefix(medicationId, otherId, day, time);
  }

  // ---------------------------------------------------------------------
  // The notifier

  /** The device's set of scheduled notifications. */
  class Notifier {
    var scheduled: map<string, Trigger>

    constructor ()
      ensures scheduled == map[]
    {
      scheduled := map[];
    }

    /** Scheduling under an identifier already in use replaces that notification. */
    method ScheduleNotification(identifier: string, trigger: Trigger)
      modifies this
      ensures scheduled == old(scheduled)[identifier := trigger]
    {
      scheduled := scheduled[identifier := trigger];
    }

    method CancelScheduledNotification(identifier: string)
      modifies this
      ensures scheduled == old(scheduled) - {identifier}
    {
      scheduled := scheduled - {identifier};
    }

    method GetAllScheduledNotifications() returns (identifiers: set<string>)
      ensures identifiers == scheduled.Keys
    {
      identifiers := scheduled.Keys;
    }
  }

  // ---------------------------------------------------------------------
  // The service operations

  /** One pass of the inner loop extends the day's plan by the next time. */
  lemma DayPlanStep(scheduled: map<string, Trigger>, medicationId: string, name: string, day: int, times: seq<string>, j: nat)
    requires j < |times|
    ensures (scheduled + DayPlan(medicationId, name, day, times[..j]))
              [NotificationId(medicationId, day, times[j]) := Reminder(name, day, times[j])]
         == scheduled + DayPlan(medicationId, name, day, times[..j + 1])
  {
    DayPlanSnoc(medicationId, name, day, times, j);
    UnionThenUpdate(scheduled, DayPlan(medicationId, name, day, times[..j]),
                    NotificationId(medicationId, day, times[j]), Reminder(name, day, times[j]));
  }

  lemma DayPlanSnoc(medicationId: string, name: string, day: int, times: seq<string>, j: nat)
    requires j < |times|
    ensures DayPlan(medicationId, name, day, times[..j + 1])
         == DayPlan(medicationId, name, day, times[..j])[NotificationId(medicationId, day, times[j]) := Reminder(name, day, times[j])]
  {
    assert times[..j + 1][..j] == times[..j];
  }

  lemma UnionThenUpdate<K, V>(x: map<K, V>, y: map<K, V>, k: K, v: V)
    ensures (x + y)[k := v] == x + y[k := v]
  {
  }

  /** One pass of the outer loop extends the plan by the next day. */
  lemma PlannedForStep(scheduled: map<string, Trigger>, medicationId: string, name: string, days: seq<int>, times: seq<string>, i: nat)
    requires i < |days|
    ensures scheduled + PlannedFor(medicationId, name, days[..i], times) + DayPlan(medicationId, name, days[i], times)
         == scheduled + PlannedFor(medicationId, name, days[..i + 1], times)
  {
    assert days[..i + 1][..i] == days[..i];
  }

  /** The inner loop of `scheduleMedicationNotifications`: the triggers of
      one day, one per time, in the order of `times`. */
  method ScheduleDay(notifier: Notifier, medicationId: string, name: string, day: int, times: seq<string>)
    modifies notifier
    ensures notifier.scheduled == old(notifier.scheduled) + DayPlan(medicationId, name, day, times)
  {
    ghost var start := notifier.scheduled;
    assert DayPlan(medicationId, name, day, times[..0]) == map[];
    for j := 0 to |times|
      invariant notifier.scheduled == start + DayPlan(medicationId, name, day, times[..j])
    {
      var time := times[j];
      notifier.ScheduleNotification(NotificationId(medicationId, day, time), Reminder(name, day, time));
      DayPlanStep(start, medicationId, name, day, times, j);
    }
    assert times[..|times|] == times;
  }

  /** `scheduleMedicationNotifications`: one weekly trigger per (day, time),
      days in the outer loop and times in the inner one; nothing when the
      guard fails. */
  method ScheduleMedicationNotifications(notifier: Notifier, medication: ReminderSource)
    modifies notifier
    ensures notifier.scheduled == old(notifier.scheduled) + Planned(medication)
  {
    if !medication.Schedulable() {
      return;
    }
    var id, name, days, times := medication.id.value, medication.name, medication.days.value, medication.times.value;
    ghost var start := notifier.scheduled;
    for i := 0 to |days|
      invariant notifier.scheduled == start + PlannedFor(id, name, days[..i], times)
    {
      ScheduleDay(notifier, id, name, days[i], times);
      PlannedForStep(start, id, name, days, times, i);
    }
    assert days[..|days|] == days;
  }

  /** `cancelMedicationNotifications`: list what is scheduled, keep the
      identifiers with the medication's prefix, cancel them one by one. */
  method CancelMedicationNotifications(notifier: Notifier, medicationId: string)
    modifies notifier
    ensures notifier.scheduled == Cancelled(old(notifier.scheduled), medicationId)
  {
    var all := notifier.GetAllScheduledNotifications();
    var toCancel := set k | k in all && StartsWith(k, NotificationPrefix(medicationId));
    var pending := toCancel;
    while pending != {}
      invariant pending <= toCancel
      invariant notifier.scheduled == old(notifier.scheduled) - (toCancel - pending)
      decreases pending
    {
      var k :| k in pending;
      notifier.CancelScheduledNotification(k);
      pending := pending - {k};
    }
  }

  /** `addMedication`: triggers are scheduled only when the store returned
      the new row without error; the store's response is passed back. */
  method AddMedication(notifier: Notifier, medication: MedicationInsert, response: StoreResponse)
    returns (r: StoreResponse)
    modifies notifier
    ensures r == response
    ensures response.Succeeded() ==>
      notifier.scheduled == old(notifier.scheduled) + Planned(InsertSource(response.data.value, medication))
    ensures !response.Succeeded() ==> notifier.scheduled == old(notifier.scheduled)
  {
    if response.Succeeded() {
      ScheduleMedicationNotifications(notifier, InsertSource(response.data.value, medication));
    }
    r := response;
  }

  /** `updateMedication`: on a successful store update, wipe the
      medication's triggers and schedule those of the merged record. */
  method UpdateMedication(notifier: Notifier, id: string, updates: MedicationUpdate, response: StoreResponse)
    returns (r: StoreResponse)
    modifies notifier
    ensures r == response
    ensures response.Succeeded() ==>
      notifier.scheduled == Cancelled(old(notifier.scheduled), id) + Planned(UpdateSource(response.data.value, updates))
    ensures !response.Succeeded() ==> notifier.scheduled == old(notifier.scheduled)
  {
    if response.Succeeded() {
      CancelMedicationNotifications(notifier, id);
      ScheduleMedicationNotifications(notifier, UpdateSource(response.data.value, updates));
    }
    r := response;
  }

  /** `deleteMedication`: the triggers are cancelled whatever the store said. */
  method DeleteMedication(notifier: Notifier, id: string, error: Option<string>)
    returns (r: Option<string>)
    modifies notifier
    ensures r == error
    ensures notifier.scheduled == Cancelled(old(notifier.scheduled), id)
    ensures forall k :: k in notifier.scheduled ==> !StartsWith(k, NotificationPrefix(id))
  {
    CancelMedicationNotifications(notifier, id);
    r := error;
  }
}
