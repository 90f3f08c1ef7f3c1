/**
 The daily evaluation pass over the alert table (src/alerts/eval-pass.ts, runAlertsEvalPass).

 Each alert is one transaction: a fire inserts the event row and flips the flags together. A pass that
 dies between transactions and is run again must end where an uninterrupted pass would have ended.
 */
module AlertPass {
  import opened Wrappers
  import opened AlertEvaluation
  import opened AlertReadings

  type AlertId = nat
  type UserId = nat
  type EventId = nat

  datatype Alert = Alert(
    id: AlertId, user: UserId, stock: StockId, target: Target, mode: RepeatMode,
    flags: Flags, lastTriggeredAt: Option<nat>)

  datatype Event = Event(
    alert: AlertId, user: UserId, stock: StockId, firedAt: nat, snapshot: SnapshotValue, delivered: bool)

  /** The alert table, and the append-only event log. An event's id is its position in the log. */
  datatype Db = Db(alerts: map<AlertId, Alert>, events: seq<Event>)

  type Readings = map<StockId, StockReading>

  ghost predicate WellFormed(db: Db) {
    forall id :: id in db.alerts ==> db.alerts[id].id == id
  }

  function ReadingFor(readings: Readings, s: StockId): Option<StockReading> {
    if s in readings then Some(readings[s]) else None
  }

  function ReducedFor(a: Alert, readings: Readings): Reduced {
    Reduce(a.target, ReadingFor(readings, a.stock))
  }

  predicate WillFire(a: Alert, readings: Readings) {
    StepFires(a.mode, a.flags, ReducedFor(a, readings))
  }

  function EventFor(a: Alert, snapshot: SnapshotValue, now: nat): Event {
    Event(a.id, a.user, a.stock, now, snapshot, false)
  }

  /** One alert's transaction. `row` is the copy read when the pass began; the writes go to the table. */
  function ProcessRow(db: Db, row: Alert, readings: Readings, now: nat): Db
    requires row.id in db.alerts
  {
    var r := ReducedFor(row, readings);
    if r.Skip? then db
    else
      var t := Transit(row.mode, row.flags, r.conditionTrue);
      var current := db.alerts[row.id];
      if t.fire then
        Db(db.alerts[row.id := current.(flags := t.next, lastTriggeredAt := Some(now))],
           db.events + [EventFor(row, r.snapshot, now)])
      else if t.changed then
        db.(alerts := db.alerts[row.id := current.(flags := t.next)])
      else db
  }

  /** One transaction, said once: the alert takes its step, and the log gains an event iff it fires. */
  lemma ProcessRowMeaning(db: Db, row: Alert, readings: Readings, now: nat)
    requires row.id in db.alerts && db.alerts[row.id] == row
    ensures var db' := ProcessRow(db, row, readings, now);
            && db'.alerts[row.id].flags == StepFlags(row.mode, row.flags, ReducedFor(row, readings))
            && SameButFlags(db'.alerts[row.id], row)
            && (forall id :: id in db.alerts && id != row.id ==> db'.alerts[id] == db.alerts[id])
            && db'.alerts.Keys == db.alerts.Keys
            && db'.events
               == db.events
                  + (if WillFire(row, readings) then [EventFor(row, ReducedFor(row, readings).snapshot, now)] else [])
  {
  }

  /** What a fire records: whose alert, when, on what value; and not yet delivered. */
  predicate Records(e: Event, a: Alert, r: Reduced, now: nat) {
    && e.alert == a.id && e.user == a.user && e.stock == a.stock && e.firedAt == now && !e.delivered
    && r.Evaluated? && e.snapshot == r.snapshot
  }

  /** The two writes of a transaction, field by field: a fire dates the alert and adds its record, anything else
      leaves date and log alone; no other alert is touched. */
  lemma WritesOfARow(db: Db, row: Alert, readings: Readings, now: nat)
    requires row.id in db.alerts && db.alerts[row.id] == row
    ensures var db' := ProcessRow(db, row, readings, now);
            var next := row.(flags := FlagsOwed(row, readings));
            if WillFire(row, readings) then
              && db'.alerts == db.alerts[row.id := next.(lastTriggeredAt := Some(now))]
              && |db'.events| == |db.events| + 1 && db'.events[..|db.events|] == db.events
              && Records(db'.events[|db.events|], row, ReducedFor(row, readings), now)
            else db'.alerts == db.alerts[row.id := next] && db'.events == db.events
  {
    assert db.alerts[row.id := row] == db.alerts;
  }

  /** When an alert last fired, by the log. */
  function LastFiring(events: seq<Event>, id: AlertId): Option<nat> {
    if events == [] then None
    else if events[|events| - 1].alert == id then Some(events[|events| - 1].firedAt)
    else LastFiring(events[..|events| - 1], id)
  }

  ghost predicate DatedByLog(db: Db) {
    forall id :: id in db.alerts ==> db.alerts[id].lastTriggeredAt == LastFiring(db.events, id)
  }

  lemma RowKeepsDates(db: Db, row: Alert, readings: Readings, now: nat)
    requires row.id in db.alerts && DatedByLog(db)
    ensures DatedByLog(ProcessRow(db, row, readings, now))
  {
    var db' := ProcessRow(db, row, readings, now);
    if WillFire(row, readings) { assert db'.events[..|db.events|] == db.events; }
  }

  /** The date on an alert is that of its last event on record, and stays so, on stale copies too. */
  lemma {:induction false} PassKeepsDates(db: Db, rows: seq<Alert>, readings: Readings, now: nat)
    requires RowsExist(db, rows) && DatedByLog(db)
    ensures DatedByLog(RunRows(db, rows, readings, now))
  {
    if rows != [] {
      PassKeepsDates(db, rows[..|rows| - 1], readings, now);
      RowKeepsDates(RunRows(db, rows[..|rows| - 1], readings, now), rows[|rows| - 1], readings, now);
    }
  }

  predicate RowsExist(db: Db, rows: seq<Alert>) {
    forall i :: 0 <= i < |rows| ==> rows[i].id in db.alerts
  }

  /** The pass after its first |rows| transactions. */
  function RunRows(db: Db, rows: seq<Alert>, readings: Readings, now: nat): (after: Db)
    requires RowsExist(db, rows)
    ensures after.alerts.Keys == db.alerts.Keys
  {
    if rows == [] then db
    else
      var n := |rows| - 1;
      ProcessRow(RunRows(db, rows[..n], readings, now), rows[n], readings, now)
  }

  ghost function Ids(rows: seq<Alert>): set<AlertId> { set i | 0 <= i < |rows| :: rows[i].id }

  /** `rows` are added copies of distinct rows of the table. */
  ghost predicate FreshRows(db: Db, rows: seq<Alert>) {
    && RowsExist(db, rows)
    && (forall i :: 0 <= i < |rows| ==> rows[i] == db.alerts[rows[i].id])
    && (forall i, j :: 0 <= i < j < |rows| ==> rows[i].id != rows[j].id)
  }

  /** `rows` is what the scan of active alerts returns, in some order. */
  ghost predicate Enumerates(db: Db, rows: seq<Alert>) {
    && FreshRows(db, rows)
    && (forall id :: id in db.alerts ==> (id in Ids(rows) <==> db.alerts[id].flags.active))
  }

  // ---------- what a pass does, independent of the order it visits alerts in ----------

  /** An event without its timestamp and delivery mark. */
  datatype Content = Content(alert: AlertId, user: UserId, stock: StockId, snapshot: SnapshotValue)

  function ContentOf(e: Event): Content { Content(e.alert, e.user, e.stock, e.snapshot) }

  function Contents(events: seq<Event>): seq<Content> {
    seq(|events|, i requires 0 <= i < |events| => ContentOf(events[i]))
  }

  function Fire(a: Alert, readings: Readings): Content
    requires WillFire(a, readings)
  {
    Content(a.id, a.user, a.stock, ReducedFor(a, readings).snapshot)
  }

  /** The events a set of alerts owes for one reading. */
  ghost function Owed(db: Db, ids: set<AlertId>, readings: Readings): set<Content>
    requires ids <= db.alerts.Keys
  {
    set id | id in ids && WillFire(db.alerts[id], readings) :: Fire(db.alerts[id], readings)
  }

  function FlagsOwed(a: Alert, readings: Readings): Flags {
    StepFlags(a.mode, a.flags, ReducedFor(a, readings))
  }

  /** Every visited alert took one step on its own reading; every other alert is untouched. */
  ghost predicate Stepped(db: Db, after: Db, ids: set<AlertId>, readings: Readings) {
    && after.alerts.Keys == db.alerts.Keys
    && forall id :: id in db.alerts ==>
         && SameButFlags(after.alerts[id], db.alerts[id])
         && (if id in ids then after.alerts[id].flags == FlagsOwed(db.alerts[id], readings)
             else after.alerts[id] == db.alerts[id])
  }

  /** The events a pass appends, in the order it visits the alerts. */
  function Emitted(rows: seq<Alert>, readings: Readings, now: nat): seq<Event> {
    if rows == [] then []
    else
      var n := |rows| - 1;
      var row := rows[n];
      Emitted(rows[..n], readings, now)
      + (if WillFire(row, readings) then [EventFor(row, ReducedFor(row, readings).snapshot, now)] else [])
  }

  lemma IdsSnoc(rows: seq<Alert>)
    requires rows != []
    ensures var n := |rows| - 1; Ids(rows) == Ids(rows[..n]) + {rows[n].id}
  {
    var n := |rows| - 1;
    assert forall i :: 0 <= i < n ==> rows[..n][i] == rows[i];
  }

  lemma FreshFront(db: Db, rows: seq<Alert>)
    requires FreshRows(db, rows) && rows != []
    ensures var n := |rows| - 1; FreshRows(db, rows[..n]) && rows[n].id !in Ids(rows[..n])
  {
    var n := |rows| - 1;
    assert forall i :: 0 <= i < n ==> rows[..n][i] == rows[i];
  }

  /** The alert half of a pass, independent of the order it visits alerts in. */
  lemma {:induction false} PassSteps(db: Db, rows: seq<Alert>, readings: Readings, now: nat)
    requires WellFormed(db) && FreshRows(db, rows)
    ensures Stepped(db, RunRows(db, rows, readings, now), Ids(rows), readings)
    ensures WellFormed(RunRows(db, rows, readings, now))
  {
    if rows != [] {
      var n := |rows| - 1;
      FreshFront(db, rows);
      PassSteps(db, rows[..n], readings, now);
      IdsSnoc(rows);
      var mid := RunRows(db, rows[..n], readings, now);
      var row := rows[n];
      assert mid.alerts[row.id] == row;
      var r := ReducedFor(row, readings);
      assert ProcessRow(mid, row, readings, now).alerts[row.id].flags == FlagsOwed(row, readings);
    }
  }

  /** The log half of a pass: it only ever appends. */
  lemma {:induction false} PassAppends(db: Db, rows: seq<Alert>, readings: Readings, now: nat)
    requires RowsExist(db, rows)
    ensures RunRows(db, rows, readings, now).events == db.events + Emitted(rows, readings, now)
  {
    if rows != [] {
      var n := |rows| - 1;
      PassAppends(db, rows[..n], readings, now);
    }
  }

  lemma EmittedSnoc(rows: seq<Alert>, readings: Readings, now: nat)
    requires rows != []
    ensures var n := |rows| - 1;
            Contents(Emitted(rows, readings, now))
            == Contents(Emitted(rows[..n], readings, now))
               + (if WillFire(rows[n], readings) then [Fire(rows[n], readings)] else [])
  {
    var n := |rows| - 1;
    if WillFire(rows[n], readings) {
      ContentsSnoc(Emitted(rows[..n], readings, now), EventFor(rows[n], ReducedFor(rows[n], readings).snapshot, now));
    }
  }

  /** What is appended is exactly what the visited alerts owe, each event once. */
  lemma {:induction false} EmittedIsOwed(db: Db, rows: seq<Alert>, readings: Readings, now: nat)
    requires WellFormed(db) && FreshRows(db, rows)
    ensures multiset(Contents(Emitted(rows, readings, now))) == multiset(Owed(db, Ids(rows), readings))
  {
    if rows == [] {
      assert Owed(db, Ids(rows), readings) == {};
      assert Contents(Emitted(rows, readings, now)) == [];
    } else {
      var n := |rows| - 1;
      FreshFront(db, rows);
      EmittedIsOwed(db, rows[..n], readings, now);
      IdsSnoc(rows);
      OwedGrows(db, Ids(rows[..n]), rows[n].id, readings);
      EmittedSnoc(rows, readings, now);
    }
  }

  predicate SameButFlags(a: Alert, b: Alert) {
    a.id == b.id && a.user == b.user && a.stock == b.stock && a.target == b.target && a.mode == b.mode
  }

  lemma ContentsSnoc(events: seq<Event>, e: Event)
    ensures Contents(events + [e]) == Contents(events) + [ContentOf(e)]
  {
  }

  lemma OwedGrows(db: Db, ids: set<AlertId>, id: AlertId, readings: Readings)
    requires WellFormed(db) && ids <= db.alerts.Keys && id in db.alerts && id !in ids
    ensures multiset(Owed(db, ids + {id}, readings))
         == multiset(Owed(db, ids, readings))
            + (if WillFire(db.alerts[id], readings) then multiset{Fire(db.alerts[id], readings)} else multiset{})
  {
    var owed := Owed(db, ids, readings);
    if WillFire(db.alerts[id], readings) {
      var c := Fire(db.alerts[id], readings);
      assert c !in owed;
      assert Owed(db, ids + {id}, readings) == owed + {c};
    } else {
      assert Owed(db, ids + {id}, readings) == owed;
    }
  }

  lemma OwedAgrees(db: Db, db': Db, ids: set<AlertId>, readings: Readings)
    requires ids <= db.alerts.Keys && ids <= db'.alerts.Keys
    requires forall id :: id in ids ==> db.alerts[id].flags == db'.alerts[id].flags
                                        && SameButFlags(db.alerts[id], db'.alerts[id])
    ensures Owed(db, ids, readings) == Owed(db', ids, readings)
  {
    forall id | id in ids
      ensures WillFire(db.alerts[id], readings) == WillFire(db'.alerts[id], readings)
    {
    }
  }

  lemma OwedSplits(db: Db, a: set<AlertId>, b: set<AlertId>, readings: Readings)
    requires WellFormed(db) && a <= db.alerts.Keys && b <= db.alerts.Keys && a !! b
    ensures multiset(Owed(db, a + b, readings)) == multiset(Owed(db, a, readings)) + multiset(Owed(db, b, readings))
  {
    var x, y := Owed(db, a, readings), Owed(db, b, readings);
    assert Owed(db, a + b, readings) == x + y;
    assert x !! y;
  }

  ghost function Active(db: Db): set<AlertId> { set id | id in db.alerts && db.alerts[id].flags.active }

  lemma EnumeratesActive(db: Db, rows: seq<Alert>)
    requires Enumerates(db, rows)
    ensures Ids(rows) == Active(db)
  {
  }

  /** Inactive alerts and alerts already stepped on this reading owe nothing more. */
  lemma OwesNothing(db: Db, ids: set<AlertId>, readings: Readings)
    requires ids <= db.alerts.Keys
    requires forall id :: id in ids ==> !WillFire(db.alerts[id], readings)
    ensures Owed(db, ids, readings) == {}
  {
  }

  /** An alert stepped on a reading will not fire or move on that reading again. */
  lemma SteppedIsQuiet(db: Db, after: Db, ids: set<AlertId>, readings: Readings)
    requires Stepped(db, after, ids, readings) && ids <= db.alerts.Keys
    ensures forall id :: id in ids ==>
              !WillFire(after.alerts[id], readings)
              && FlagsOwed(after.alerts[id], readings) == after.alerts[id].flags
  {
    forall id | id in ids
      ensures !WillFire(after.alerts[id], readings)
              && FlagsOwed(after.alerts[id], readings) == after.alerts[id].flags
    {
      SameReadingTwiceIsQuiet(db.alerts[id].mode, db.alerts[id].flags, ReducedFor(db.alerts[id], readings));
    }
  }

  /** The alerts a rerun visits: those of the cut pass that stayed active, and those it never reached. */
  lemma RerunVisits(db: Db, mid: Db, done: set<AlertId>, all: set<AlertId>, readings: Readings)
    requires Stepped(db, mid, done, readings) && done <= all <= db.alerts.Keys
    requires all == Active(db)
    ensures Active(mid) == Active(mid) * done + (all - done)
  {
    forall id | id in Active(mid) ensures id in done || id in all {
      assert id in done || mid.alerts[id] == db.alerts[id];
    }
  }

  lemma RerunOwesTheRest(db: Db, mid: Db, done: set<AlertId>, all: set<AlertId>, readings: Readings)
    requires WellFormed(db) && WellFormed(mid)
    requires Stepped(db, mid, done, readings) && done <= all <= db.alerts.Keys
    requires all == Active(db)
    ensures multiset(Owed(db, all, readings))
         == multiset(Owed(db, done, readings)) + multiset(Owed(mid, Active(mid), readings))
  {
    var replayed, rest := Active(mid) * done, all - done;
    RerunVisits(db, mid, done, all, readings);
    SteppedIsQuiet(db, mid, done, readings);
    OwedSplits(mid, replayed, rest, readings);
    OwesNothing(mid, replayed, readings);
    OwedAgrees(db, mid, rest, readings);
    assert all == done + rest;
    OwedSplits(db, done, rest, readings);
  }

  /**
   CRASH AND RERUN. A pass cut after any number of its transactions and run again on the same readings,
   whatever order the second scan returns the alerts in and however much later it runs, leaves every
   alert with the flags, and the log with the multiset of event contents, of one uninterrupted pass.
   */
  lemma CrashAndRerun(db: Db, rows: seq<Alert>, cut: nat, again: seq<Alert>, readings: Readings,
                      now: nat, later: nat)
    requires WellFormed(db) && Enumerates(db, rows) && cut <= |rows|
    requires Enumerates(RunRows(db, rows[..cut], readings, now), again)
    ensures var whole := RunRows(db, rows, readings, now);
            var rerun := RunRows(RunRows(db, rows[..cut], readings, now), again, readings, later);
            && whole.alerts.Keys == rerun.alerts.Keys
            && (forall id :: id in whole.alerts ==> whole.alerts[id].flags == rerun.alerts[id].flags)
            && multiset(Contents(whole.events)) == multiset(Contents(rerun.events))
  {
    var done := rows[..cut];
    FreshPrefix(db, rows, cut);
    var mid := RunRows(db, done, readings, now);
    PassSteps(db, rows, readings, now);
    PassSteps(db, done, readings, now);
    PassSteps(mid, again, readings, later);
    EnumeratesActive(db, rows);
    EnumeratesActive(mid, again);
    RerunFlags(db, mid, RunRows(db, rows, readings, now), RunRows(mid, again, readings, later), Ids(done), Ids(rows),
               readings);
    RerunOwesTheRest(db, mid, Ids(done), Ids(rows), readings);
    LogContents(db, rows, readings, now);
    LogContents(db, done, readings, now);
    LogContents(mid, again, readings, later);
  }

  lemma RerunFlags(db: Db, mid: Db, whole: Db, rerun: Db, done: set<AlertId>, all: set<AlertId>, readings: Readings)
    requires Stepped(db, mid, done, readings) && done <= all <= db.alerts.Keys && all == Active(db)
    requires Stepped(db, whole, all, readings) && Stepped(mid, rerun, Active(mid), readings)
    ensures forall id :: id in db.alerts ==> whole.alerts[id].flags == rerun.alerts[id].flags
  {
    RerunVisits(db, mid, done, all, readings);
    SteppedIsQuiet(db, mid, done, readings);
  }

  lemma FreshPrefix(db: Db, rows: seq<Alert>, cut: nat)
    requires FreshRows(db, rows) && cut <= |rows|
    ensures FreshRows(db, rows[..cut]) && Ids(rows[..cut]) <= Ids(rows)
  {
    assert forall i :: 0 <= i < cut ==> rows[..cut][i] == rows[i];
  }

  lemma LogContents(db: Db, rows: seq<Alert>, readings: Readings, now: nat)
    requires WellFormed(db) && FreshRows(db, rows)
    ensures multiset(Contents(RunRows(db, rows, readings, now).events))
         == multiset(Contents(db.events)) + multiset(Owed(db, Ids(rows), readings))
  {
    PassAppends(db, rows, readings, now);
    EmittedIsOwed(db, rows, readings, now);
    var added := Emitted(rows, readings, now);
    assert Contents(db.events + added) == Contents(db.events) + Contents(added);
  }

  /** Rerunning a completed pass on the same readings fires nothing, re-arms nothing and writes nothing. */
  lemma RerunOfCompletePassIsIdentity(db: Db, rows: seq<Alert>, again: seq<Alert>, readings: Readings,
                                      now: nat, later: nat)
    requires WellFormed(db) && Enumerates(db, rows)
    requires Enumerates(RunRows(db, rows, readings, now), again)
    ensures var whole := RunRows(db, rows, readings, now);
            RunRows(whole, again, readings, later) == whole
  {
    var whole := RunRows(db, rows, readings, now);
    PassSteps(db, rows, readings, now);
    EnumeratesActive(db, rows);
    forall i | 0 <= i < |again|
      ensures ProcessRow(whole, again[i], readings, later) == whole
    {
      var id := again[i].id;
      assert id in Ids(again);
      SameReadingTwiceIsQuiet(db.alerts[id].mode, db.alerts[id].flags, ReducedFor(db.alerts[id], readings));
    }
    QuietRows(whole, again, readings, later);
  }

  lemma {:induction false} QuietRows(db: Db, rows: seq<Alert>, readings: Readings, now: nat)
    requires RowsExist(db, rows)
    requires forall i :: 0 <= i < |rows| ==> ProcessRow(db, rows[i], readings, now) == db
    ensures RunRows(db, rows, readings, now) == db
  {
    if rows != [] {
      QuietRows(db, rows[..|rows| - 1], readings, now);
    }
  }

  /**
   Why passes must not overlap. The write that flips `armed` carries no guard, so a second pass still
   holding the copy of an alert read before the first pass fired it fires again on the same crossing:
   the second transaction fires exactly when the stale copy was active and armed and the condition true.
   */
  lemma OverlappingPassesFireTwice(db: Db, row: Alert, readings: Readings, now: nat, later: nat)
    requires WellFormed(db) && row.id in db.alerts && db.alerts[row.id] == row
    ensures var once := ProcessRow(db, row, readings, now);
            var twice := ProcessRow(once, row, readings, later);
            |twice.events| == |db.events| + 2 <==> WillFire(row, readings)
    ensures var once := ProcessRow(db, row, readings, now);
            |ProcessRow(once, once.alerts[row.id], readings, later).events| == |once.events|
  {
    SameReadingTwiceIsQuiet(row.mode, row.flags, ReducedFor(row, readings));
  }

  // ---------- the pass as it runs ----------

  datatype Status = HasFired | Rearmed | Held | Skipped(why: SkipStatus)

  datatype Outcome = Outcome(alert: AlertId, stock: StockId, status: Status, conditionTrue: Option<bool>,
                             snapshot: Option<SnapshotValue>)

  function OutcomeOf(a: Alert, readings: Readings): Outcome {
    var r := ReducedFor(a, readings);
    if r.Skip? then Outcome(a.id, a.stock, Skipped(r.status), None, None)
    else
      var t := Transit(a.mode, a.flags, r.conditionTrue);
      if t.fire then Outcome(a.id, a.stock, HasFired, Some(true), Some(r.snapshot))
      else Outcome(a.id, a.stock, if t.changed then Rearmed else Held, Some(r.conditionTrue), None)
  }

  datatype PassResult = PassResult(scanned: nat, fired: nat, rearmed: nat, held: nat, skipped: nat,
                                   outcomes: seq<Outcome>)

  datatype Tally = Tally(fired: nat, rearmed: nat, held: nat, skipped: nat)

  function TallyOf(outcomes: seq<Outcome>): Tally {
    if outcomes == [] then Tally(0, 0, 0, 0)
    else
      var t := TallyOf(outcomes[..|outcomes| - 1]);
      match outcomes[|outcomes| - 1].status
      case HasFired => t.(fired := t.fired + 1)
      case Rearmed => t.(rearmed := t.rearmed + 1)
      case Held => t.(held := t.held + 1)
      case Skipped(_) => t.(skipped := t.skipped + 1)
  }

  /** What a pass tells of an alert: that it fired, or was re-armed, or looked at and left, or not evaluable. */
  lemma OutcomeTells(a: Alert, readings: Readings)
    ensures var o := OutcomeOf(a, readings);
            && o.alert == a.id && o.stock == a.stock
            && (o.status.HasFired? <==> WillFire(a, readings))
            && (o.status.Rearmed? <==> !a.flags.armed && FlagsOwed(a, readings).armed)
            && (o.status.Skipped? <==> !Evaluable(a.target, ReadingFor(readings, a.stock)))
            && (o.status.Skipped? ==> (o.status.why == SkippedNoPrice <==> a.target.Price?))
            && (o.conditionTrue.Some? <==> !o.status.Skipped?)
            && (o.conditionTrue.Some? ==>
                  (o.conditionTrue.value <==> IsTrueOf(a.target, ReadingFor(readings, a.stock).value)))
            && (o.snapshot.Some? <==> o.status.HasFired?)
            && (o.snapshot.Some? ==> Shows(a.target, ReadingFor(readings, a.stock).value, o.snapshot.value))
  {
    ReduceIsTheAlert(a.target, ReadingFor(readings, a.stock));
  }

  ghost function Firings(outcomes: seq<Outcome>): set<nat> {
    set i: nat | i < |outcomes| && outcomes[i].status.HasFired?
  }

  ghost function Rearmings(outcomes: seq<Outcome>): set<nat> {
    set i: nat | i < |outcomes| && outcomes[i].status.Rearmed?
  }

  ghost function Holds(outcomes: seq<Outcome>): set<nat> {
    set i: nat | i < |outcomes| && outcomes[i].status.Held?
  }

  ghost function Skips(outcomes: seq<Outcome>): set<nat> {
    set i: nat | i < |outcomes| && outcomes[i].status.Skipped?
  }

  /** Each counter counts the outcomes of its own kind. */
  lemma {:induction false} TallyCounts(outcomes: seq<Outcome>)
    ensures TallyOf(outcomes)
            == Tally(|Firings(outcomes)|, |Rearmings(outcomes)|, |Holds(outcomes)|, |Skips(outcomes)|)
  {
    if outcomes != [] {
      TallyCounts(outcomes[..|outcomes| - 1]);
      FiringsNext(outcomes);
      RearmingsNext(outcomes);
      HoldsNext(outcomes);
      SkipsNext(outcomes);
    }
  }

  lemma FiringsNext(outcomes: seq<Outcome>)
    requires outcomes != []
    ensures var n := |outcomes| - 1;
            |Firings(outcomes)| == |Firings(outcomes[..n])| + if outcomes[n].status.HasFired? then 1 else 0
  {
    var n := |outcomes| - 1;
    assert Firings(outcomes) == Firings(outcomes[..n]) + if outcomes[n].status.HasFired? then {n} else {};
  }

  lemma RearmingsNext(outcomes: seq<Outcome>)
    requires outcomes != []
    ensures var n := |outcomes| - 1;
            |Rearmings(outcomes)| == |Rearmings(outcomes[..n])| + if outcomes[n].status.Rearmed? then 1 else 0
  {
    var n := |outcomes| - 1;
    assert Rearmings(outcomes) == Rearmings(outcomes[..n]) + if outcomes[n].status.Rearmed? then {n} else {};
  }

  lemma HoldsNext(outcomes: seq<Outcome>)
    requires outcomes != []
    ensures var n := |outcomes| - 1;
            |Holds(outcomes)| == |Holds(outcomes[..n])| + if outcomes[n].status.Held? then 1 else 0
  {
    var n := |outcomes| - 1;
    assert Holds(outcomes) == Holds(outcomes[..n]) + if outcomes[n].status.Held? then {n} else {};
  }

  lemma SkipsNext(outcomes: seq<Outcome>)
    requires outcomes != []
    ensures var n := |outcomes| - 1;
            |Skips(outcomes)| == |Skips(outcomes[..n])| + if outcomes[n].status.Skipped? then 1 else 0
  {
    var n := |outcomes| - 1;
    assert Skips(outcomes) == Skips(outcomes[..n]) + if outcomes[n].status.Skipped? then {n} else {};
  }

  class AlertStore {
    var alerts: map<AlertId, Alert>
    var events: seq<Event>

    ghost function State(): Db
      reads this
    {
      Db(alerts, events)
    }

    constructor ()
      ensures State() == Db(map[], [])
    {
      alerts := map[];
      events := [];
    }

    /** The scan of active alerts, in whatever order the database returns them. */
    method ScanActive() returns (rows: seq<Alert>)
      requires WellFormed(State())
      ensures Enumerates(State(), rows)
    {
      rows := [];
      var todo := alerts.Keys;
      while todo != {}
        invariant todo <= alerts.Keys
        invariant FreshRows(State(), rows)
        invariant forall id :: id in alerts ==> (id in Ids(rows) <==> id !in todo && alerts[id].flags.active)
        decreases todo
      {
        var id :| id in todo;
        todo := todo - {id};
        if alerts[id].flags.active {
          ghost var was := rows;
          rows := rows + [alerts[id]];
          assert Ids(rows) == Ids(was) + {id} by {
            assert rows[|was|].id == id;
            assert forall i :: 0 <= i < |was| ==> rows[i] == was[i];
          }
        }
      }
    }

    /** The loop body of a pass: reduce, step, and commit one transaction (or none). */
    method EvaluateOne(a: Alert, readings: Readings, now: nat) returns (outcome: Outcome)
      requires a.id in alerts
      modifies this
      ensures State() == ProcessRow(old(State()), a, readings, now)
      ensures outcome == OutcomeOf(a, readings)
      ensures |events| == |old(events)| + if outcome.status.HasFired? then 1 else 0
    {
      var r := ReducedFor(a, readings);
      if r.Skip? {
        return Outcome(a.id, a.stock, Skipped(r.status), None, None);
      }
      var t := Transit(a.mode, a.flags, r.conditionTrue);
      if t.fire {
        events := events + [EventFor(a, r.snapshot, now)];
        alerts := alerts[a.id := alerts[a.id].(flags := t.next, lastTriggeredAt := Some(now))];
        outcome := Outcome(a.id, a.stock, HasFired, Some(true), Some(r.snapshot));
      } else if t.changed {
        alerts := alerts[a.id := alerts[a.id].(flags := t.next)];
        outcome := Outcome(a.id, a.stock, Rearmed, Some(r.conditionTrue), None);
      } else {
        outcome := Outcome(a.id, a.stock, Held, Some(r.conditionTrue), None);
      }
    }

    /** The loop of a pass over the rows it scanned. */
    method EvaluateAll(rows: seq<Alert>, readings: Readings, now: nat) returns (result: PassResult)
      requires RowsExist(State(), rows)
      modifies this
      ensures State() == RunRows(old(State()), rows, readings, now)
      ensures result.scanned == |rows| == |result.outcomes|
      ensures forall i :: 0 <= i < |rows| ==> result.outcomes[i] == OutcomeOf(rows[i], readings)
      ensures |events| == |old(events)| + result.fired
      ensures Tally(result.fired, result.rearmed, result.held, result.skipped) == TallyOf(result.outcomes)
    {
      ghost var before := State();
      var outcomes: seq<Outcome> := [];
      var fired, rearmed, held, skipped := 0, 0, 0, 0;
      for i := 0 to |rows|
        invariant RowsExist(before, rows[..i])
        invariant State() == RunRows(before, rows[..i], readings, now)
        invariant |outcomes| == i
        invariant forall j :: 0 <= j < i ==> outcomes[j] == OutcomeOf(rows[j], readings)
        invariant Tally(fired, rearmed, held, skipped) == TallyOf(outcomes)
        invariant |events| == |before.events| + fired
      {
        assert rows[..i + 1][..i] == rows[..i];
        var outcome := EvaluateOne(rows[i], readings, now);
        match outcome.status {
          case Skipped(_) => skipped := skipped + 1;
          case HasFired => fired := fired + 1;
          case Rearmed => rearmed := rearmed + 1;
          case Held => held := held + 1;
        }
        assert (outcomes + [outcome])[..|outcomes|] == outcomes;
        outcomes := outcomes + [outcome];
      }
      assert rows[..|rows|] == rows;
      result := PassResult(|rows|, fired, rearmed, held, skipped, outcomes);
    }

    /** One evaluation pass: scan, assemble the readings in bulk, then one transaction per alert. */
    method RunAlertsEvalPass(tables: Tables, sup: Suppression, now: nat)
      returns (result: PassResult, rows: seq<Alert>, readings: Readings)
      requires WellFormed(State())
      modifies this
      ensures Enumerates(old(State()), rows)
      ensures forall a :: a in rows ==> a.stock in readings && readings[a.stock] == ReadingOf(tables, sup, a.stock)
      ensures State() == RunRows(old(State()), rows, readings, now)
      ensures WellFormed(State())
      ensures result.scanned == |rows| == |result.outcomes|
      ensures forall i :: 0 <= i < |rows| ==> result.outcomes[i] == OutcomeOf(rows[i], readings)
      ensures |events| == |old(events)| + result.fired
      ensures Tally(result.fired, result.rearmed, result.held, result.skipped) == TallyOf(result.outcomes)
    {
      rows := ScanActive();
      var stockIds := seq(|rows|, i requires 0 <= i < |rows| => rows[i].stock);
      readings := AssembleReadings(stockIds, tables, sup);
      forall a | a in rows
        ensures a.stock in stockIds
      {
        var i :| 0 <= i < |rows| && rows[i] == a;
        assert stockIds[i] == a.stock;
      }
      PassSteps(State(), rows, readings, now);
      result := EvaluateAll(rows, readings, now);
    }
  }
}
