/**
 The delivery drain (src/alerts/deliver.ts) and the whole alert pipeline as one step system: evaluation
 passes that may crash between transactions, any number of drains that may overlap, fail or crash at
 any point, and a mailbox that deduplicates on the idempotency key.
 */
module AlertDelivery {
  import opened Wrappers
  import opened AlertEvaluation
  import opened AlertPass

  // ---------- the mailbox ----------

  /** An email, keyed by the id of the event it reports. */
  datatype Mail = Mail(key: EventId, content: Content)

  predicate HasKey(mailbox: seq<Mail>, key: EventId) {
    exists i :: 0 <= i < |mailbox| && mailbox[i].key == key
  }

  /** The provider drops a second message under a key it has already accepted. */
  function Arrive(mailbox: seq<Mail>, m: Mail): seq<Mail> {
    if HasKey(mailbox, m.key) then mailbox else mailbox + [m]
  }

  function Arrivals(mailbox: seq<Mail>, key: EventId): nat {
    if mailbox == [] then 0
    else
      var n := |mailbox| - 1;
      Arrivals(mailbox[..n], key) + if mailbox[n].key == key then 1 else 0
  }

  ghost predicate DistinctKeys(mailbox: seq<Mail>) {
    forall i, j :: 0 <= i < j < |mailbox| ==> mailbox[i].key != mailbox[j].key
  }

  lemma {:induction false} ArrivalsCount(mailbox: seq<Mail>, key: EventId)
    requires DistinctKeys(mailbox)
    ensures Arrivals(mailbox, key) == if HasKey(mailbox, key) then 1 else 0
  {
    if mailbox != [] {
      var n := |mailbox| - 1;
      assert forall i :: 0 <= i < n ==> mailbox[..n][i] == mailbox[i];
      ArrivalsCount(mailbox[..n], key);
      if HasKey(mailbox[..n], key) {
        var i :| 0 <= i < n && mailbox[..n][i].key == key;
        assert mailbox[i].key == key;
      }
    }
  }

  lemma ArriveAddsKey(mailbox: seq<Mail>, m: Mail)
    ensures forall k :: HasKey(Arrive(mailbox, m), k) <==> HasKey(mailbox, k) || k == m.key
    ensures mailbox <= Arrive(mailbox, m)
  {
    var box := Arrive(mailbox, m);
    forall k ensures HasKey(box, k) <==> HasKey(mailbox, k) || k == m.key {
      if HasKey(mailbox, k) {
        var i :| 0 <= i < |mailbox| && mailbox[i].key == k;
        assert box[i].key == k;
      }
      if k == m.key && !HasKey(mailbox, k) {
        assert box[|mailbox|].key == k;
      }
    }
  }

  /** One attempt to send: it may be accepted, lost, or accepted although the caller saw an error. */
  datatype SendOutcome = Accepted | Lost | AcceptedThenError

  // ---------- the step system ----------

  datatype Pass = Pass(rows: seq<Alert>, readings: Readings, now: nat)

  /** A drain: the ids it has still to send, whether the head is sent but not yet flipped, how many events
      were on record when it began, and whether nothing has failed so far. */
  datatype Drain = Drain(pending: seq<EventId>, sent: bool, recorded: nat, clean: bool)

  /** `start` and `history` only observe: each alert's flags at creation, and every look taken at it. */
  datatype System = System(
    db: Db,
    start: map<AlertId, Flags>,
    history: map<AlertId, seq<Observation>>,
    pass: Option<Pass>,
    drains: map<nat, Drain>,
    mailbox: seq<Mail>)

  const EMPTY_SYSTEM := System(Db(map[], []), map[], map[], None, map[], [])

  datatype Action =
    | CreateAlert(alert: Alert)
    | StartPass(rows: seq<Alert>, readings: Readings, now: nat)
    | EvalNext
    | EndPass  // normal end, or a crash between two transactions
    | StartDrain(id: nat, order: seq<EventId>)
    | Send(id: nat, outcome: SendOutcome)
    | Flip(id: nat, ok: bool)
    | CrashDrain(id: nat)

  ghost predicate Undelivered(events: seq<Event>, order: seq<EventId>) {
    && (forall i :: 0 <= i < |order| ==> order[i] < |events| && !events[order[i]].delivered)
    && (forall e: EventId :: e < |events| && !events[e].delivered ==> e in order)
    && OnceEach(order)
  }

  /** Two evaluation passes never overlap; drains are unrestricted. */
  ghost predicate Enabled(s: System, a: Action) {
    match a
    case CreateAlert(alert) => alert.id !in s.db.alerts
    case StartPass(rows, _, _) => s.pass.None? && Enumerates(s.db, rows)
    case EvalNext => s.pass.Some? && s.pass.value.rows != [] && s.pass.value.rows[0].id in s.db.alerts
                     && s.pass.value.rows[0].id in s.history
    case EndPass => s.pass.Some?
    case StartDrain(id, order) => id !in s.drains && Undelivered(s.db.events, order)
    case Send(id, _) => id in s.drains && !s.drains[id].sent && s.drains[id].pending != []
                        && s.drains[id].pending[0] < |s.db.events|
    case Flip(id, _) => id in s.drains && s.drains[id].sent && s.drains[id].pending != []
                        && s.drains[id].pending[0] < |s.db.events|
    case CrashDrain(id) => id in s.drains
  }

  function MailFor(events: seq<Event>, e: EventId): Mail
    requires e < |events|
  {
    Mail(e, ContentOf(events[e]))
  }

  function MarkDelivered(events: seq<Event>, e: EventId): seq<Event>
    requires e < |events|
  {
    events[e := events[e].(delivered := true)]
  }

  ghost function Apply(s: System, a: Action): System
    requires Enabled(s, a)
  {
    match a
    case CreateAlert(alert) =>
      s.(db := s.db.(alerts := s.db.alerts[alert.id := alert]),
         start := s.start[alert.id := alert.flags],
         history := s.history[alert.id := []])
    case StartPass(rows, readings, now) => s.(pass := Some(Pass(rows, readings, now)))
    case EvalNext =>
      var p := s.pass.value;
      var row := p.rows[0];
      s.(db := ProcessRow(s.db, row, p.readings, p.now),
         history := s.history[row.id := s.history[row.id] + [Observation(p.now, ReducedFor(row, p.readings))]],
         pass := Some(p.(rows := p.rows[1..])))
    case EndPass => s.(pass := None)
    case StartDrain(id, order) => s.(drains := s.drains[id := Drain(order, false, |s.db.events|, true)])
    case Send(id, outcome) =>
      var d := s.drains[id];
      var box := if outcome == Lost then s.mailbox else Arrive(s.mailbox, MailFor(s.db.events, d.pending[0]));
      var d' := if outcome == Accepted then d.(sent := true)
                else d.(pending := d.pending[1..], clean := false);
      s.(mailbox := box, drains := s.drains[id := d'])
    case Flip(id, ok) =>
      var d := s.drains[id];
      var d' := d.(pending := d.pending[1..], sent := false, clean := d.clean && ok);
      s.(db := if ok then s.db.(events := MarkDelivered(s.db.events, d.pending[0])) else s.db,
         drains := s.drains[id := d'])
    case CrashDrain(id) =>
      s.(drains := s.drains[id := s.drains[id].(pending := [], sent := false, clean := false)])
  }

  ghost predicate IsRun(s: System, actions: seq<Action>)
    decreases |actions|
  {
    actions == [] || (Enabled(s, actions[0]) && IsRun(Apply(s, actions[0]), actions[1..]))
  }

  ghost function After(s: System, actions: seq<Action>): System
    requires IsRun(s, actions)
    decreases |actions|
  {
    if actions == [] then s else After(Apply(s, actions[0]), actions[1..])
  }

  // ---------- the invariant ----------

  /** What one alert has on record: when it fired and on what value, oldest first. */
  function Log(events: seq<Event>, id: AlertId): seq<(nat, SnapshotValue)> {
    if events == [] then []
    else
      var n := |events| - 1;
      Log(events[..n], id) + (if events[n].alert == id then [(events[n].firedAt, events[n].snapshot)] else [])
  }

  function Stamps(obs: seq<Observation>): seq<(nat, SnapshotValue)> {
    if obs == [] then []
    else
      var n := |obs| - 1;
      Stamps(obs[..n])
      + (if obs[n].reduced.Evaluated? then [(obs[n].at, obs[n].reduced.snapshot)] else [])
  }

  /** One alert's flags and log are those of its history. */
  ghost predicate InStep(a: Alert, log: seq<(nat, SnapshotValue)>, start: Flags, history: seq<Observation>) {
    && a.flags == FlagsAfter(a.mode, start, history)
    && log == Stamps(Fired(a.mode, start, history))
  }

  ghost predicate Watched(s: System) {
    && WellFormed(s.db)
    && s.start.Keys == s.db.alerts.Keys
    && s.history.Keys == s.db.alerts.Keys
  }

  ghost predicate AlertsInv(s: System) {
    && Watched(s)
    && forall id :: id in s.db.alerts ==>
         InStep(s.db.alerts[id], Log(s.db.events, id), s.start[id], s.history[id])
  }

  ghost predicate EventsInv(s: System) {
    forall i :: 0 <= i < |s.db.events| ==>
      var e := s.db.events[i];
      e.alert in s.db.alerts && e.user == s.db.alerts[e.alert].user && e.stock == s.db.alerts[e.alert].stock
  }

  ghost predicate PassInv(s: System) {
    s.pass.Some? ==> FreshRows(s.db, s.pass.value.rows)
  }

  ghost predicate MailInv(s: System) {
    && DistinctKeys(s.mailbox)
    && (forall i :: 0 <= i < |s.mailbox| ==>
          && s.mailbox[i].key < |s.db.events|
          && s.mailbox[i].content == ContentOf(s.db.events[s.mailbox[i].key]))
    && (forall e: EventId :: e < |s.db.events| && s.db.events[e].delivered ==> HasKey(s.mailbox, e))
  }

  ghost predicate DrainInv(s: System, d: Drain) {
    && d.recorded <= |s.db.events|
    && (forall i :: 0 <= i < |d.pending| ==> d.pending[i] < |s.db.events|)
    && (d.sent ==> d.pending != [] && HasKey(s.mailbox, d.pending[0]))
    && (d.clean ==> forall e: EventId :: e < d.recorded ==> s.db.events[e].delivered || e in d.pending)
  }

  ghost predicate DrainsInv(s: System) {
    forall id :: id in s.drains ==> DrainInv(s, s.drains[id])
  }

  ghost predicate Inv(s: System) {
    AlertsInv(s) && EventsInv(s) && PassInv(s) && MailInv(s) && DrainsInv(s)
  }

  lemma {:induction false} LogOfNobody(events: seq<Event>, id: AlertId)
    requires forall i :: 0 <= i < |events| ==> events[i].alert != id
    ensures Log(events, id) == []
  {
    if events != [] {
      LogOfNobody(events[..|events| - 1], id);
    }
  }

  lemma {:induction false} LogIgnoresDelivery(events: seq<Event>, events': seq<Event>, id: AlertId)
    requires |events| == |events'|
    requires forall i :: 0 <= i < |events| ==> events'[i] == events[i].(delivered := events'[i].delivered)
    ensures Log(events, id) == Log(events', id)
  {
    if events != [] {
      var n := |events| - 1;
      LogIgnoresDelivery(events[..n], events'[..n], id);
    }
  }

  lemma StampsSnoc(obs: seq<Observation>, o: Observation)
    ensures Stamps(obs + [o]) == Stamps(obs) + (if o.reduced.Evaluated? then [(o.at, o.reduced.snapshot)] else [])
  {
    assert (obs + [o])[..|obs|] == obs;
  }

  lemma HistorySnoc(mode: RepeatMode, f: Flags, obs: seq<Observation>, o: Observation)
    ensures FlagsAfter(mode, f, obs + [o]) == StepFlags(mode, FlagsAfter(mode, f, obs), o.reduced)
    ensures Fired(mode, f, obs + [o])
         == Fired(mode, f, obs) + (if StepFires(mode, FlagsAfter(mode, f, obs), o.reduced) then [o] else [])
  {
    assert (obs + [o])[..|obs|] == obs;
  }

  lemma LogSnoc(events: seq<Event>, e: Event, id: AlertId)
    ensures Log(events + [e], id)
         == Log(events, id) + (if e.alert == id then [(e.firedAt, e.snapshot)] else [])
  {
    assert (events + [e])[..|events|] == events;
  }

  lemma CreateAlertKeepsAlerts(s: System, alert: Alert)
    requires AlertsInv(s) && EventsInv(s) && Enabled(s, CreateAlert(alert))
    ensures AlertsInv(Apply(s, CreateAlert(alert)))
  {
    LogOfNobody(s.db.events, alert.id);
    assert Fired(alert.mode, alert.flags, []) == [];
    assert InStep(alert, [], alert.flags, []);
  }

  lemma CreateAlertKeepsRest(s: System, alert: Alert)
    requires Inv(s) && Enabled(s, CreateAlert(alert))
    ensures var s' := Apply(s, CreateAlert(alert)); EventsInv(s') && PassInv(s') && MailInv(s')
  {
  }

  /** A history extended by one look: flags and stamps move exactly as the machine steps. */
  lemma LookOnce(a: Alert, b: Alert, log: seq<(nat, SnapshotValue)>, start: Flags, obs: seq<Observation>,
                 o: Observation)
    requires InStep(a, log, start, obs)
    requires b.mode == a.mode && b.flags == StepFlags(a.mode, a.flags, o.reduced)
    ensures InStep(b, log + (if StepFires(a.mode, a.flags, o.reduced) then [(o.at, o.reduced.snapshot)] else []),
                   start, obs + [o])
  {
    HistorySnoc(a.mode, start, obs, o);
    var fired := Fired(a.mode, start, obs);
    if StepFires(a.mode, a.flags, o.reduced) {
      assert Fired(a.mode, start, obs + [o]) == fired + [o];
      StampsSnoc(fired, o);
    } else {
      assert Fired(a.mode, start, obs + [o]) == fired;
      assert log + [] == log;
    }
  }

  /** After one transaction an alert's log has grown by its own event, or not at all. */
  lemma LogAfterRow(db: Db, row: Alert, readings: Readings, now: nat, id: AlertId)
    requires row.id in db.alerts && db.alerts[row.id] == row
    ensures Log(ProcessRow(db, row, readings, now).events, id)
         == Log(db.events, id)
            + (if id == row.id && WillFire(row, readings) then [(now, ReducedFor(row, readings).snapshot)] else [])
  {
    ProcessRowMeaning(db, row, readings, now);
    if WillFire(row, readings) {
      LogSnoc(db.events, EventFor(row, ReducedFor(row, readings).snapshot, now), id);
    } else {
      assert db.events + [] == db.events;
    }
  }

  /** One transaction keeps every alert in step with its own history, extended only for the row's alert. */
  lemma RowKeepsInStep(db: Db, row: Alert, readings: Readings, now: nat, id: AlertId, start: Flags,
                       obs: seq<Observation>)
    requires row.id in db.alerts && db.alerts[row.id] == row && id in db.alerts
    requires InStep(db.alerts[id], Log(db.events, id), start, obs)
    ensures var db' := ProcessRow(db, row, readings, now);
            id in db'.alerts && InStep(db'.alerts[id], Log(db'.events, id), start,
                                       if id == row.id then obs + [Observation(now, ReducedFor(row, readings))]
                                        else obs)
  {
    var db' := ProcessRow(db, row, readings, now);
    ProcessRowMeaning(db, row, readings, now);
    LogAfterRow(db, row, readings, now, id);
    if id == row.id {
      LookOnce(row, db'.alerts[id], Log(db.events, id), start, obs, Observation(now, ReducedFor(row, readings)));
    } else {
      assert Log(db.events, id) + [] == Log(db.events, id);
    }
  }

  lemma EvalNextKeepsWatch(s: System)
    requires Watched(s) && PassInv(s) && Enabled(s, EvalNext)
    ensures Watched(Apply(s, EvalNext))
  {
    var p := s.pass.value;
    assert s.db.alerts[p.rows[0].id] == p.rows[0];
    ProcessRowMeaning(s.db, p.rows[0], p.readings, p.now);
  }

  lemma EvalNextKeepsAlerts(s: System)
    requires AlertsInv(s) && PassInv(s) && Enabled(s, EvalNext)
    ensures AlertsInv(Apply(s, EvalNext))
  {
    var p := s.pass.value;
    var row := p.rows[0];
    var s' := Apply(s, EvalNext);
    assert s.db.alerts[row.id] == row;
    EvalNextKeepsWatch(s);
    forall id | id in s'.db.alerts
      ensures InStep(s'.db.alerts[id], Log(s'.db.events, id), s'.start[id], s'.history[id])
    {
      EvalNextKeepsOne(s, id);
    }
  }

  lemma EvalNextKeepsOne(s: System, id: AlertId)
    requires Watched(s) && PassInv(s) && Enabled(s, EvalNext) && id in Apply(s, EvalNext).db.alerts
    requires id in s.db.alerts ==> InStep(s.db.alerts[id], Log(s.db.events, id), s.start[id], s.history[id])
    ensures id in s.db.alerts
    ensures var s' := Apply(s, EvalNext);
            id in s'.start && id in s'.history
            && InStep(s'.db.alerts[id], Log(s'.db.events, id), s'.start[id], s'.history[id])
  {
    var p := s.pass.value;
    var row := p.rows[0];
    assert s.db.alerts[row.id] == row;
    ProcessRowMeaning(s.db, row, p.readings, p.now);
    RowKeepsInStep(s.db, row, p.readings, p.now, id, s.start[id], s.history[id]);
  }

  lemma EvalNextKeepsPass(s: System)
    requires PassInv(s) && Enabled(s, EvalNext)
    ensures PassInv(Apply(s, EvalNext))
  {
    var p := s.pass.value;
    assert s.db.alerts[p.rows[0].id] == p.rows[0];
    ProcessRowMeaning(s.db, p.rows[0], p.readings, p.now);
    assert forall i :: 0 <= i < |p.rows| - 1 ==> p.rows[1..][i] == p.rows[i + 1];
  }

  lemma EvalNextKeepsEvents(s: System)
    requires EventsInv(s) && PassInv(s) && Enabled(s, EvalNext)
    ensures EventsInv(Apply(s, EvalNext))
  {
    var p := s.pass.value;
    assert s.db.alerts[p.rows[0].id] == p.rows[0];
    ProcessRowMeaning(s.db, p.rows[0], p.readings, p.now);
    var s' := Apply(s, EvalNext);
    forall i | 0 <= i < |s'.db.events|
      ensures s'.db.events[i].alert in s'.db.alerts
      ensures s'.db.events[i].user == s'.db.alerts[s'.db.events[i].alert].user
      ensures s'.db.events[i].stock == s'.db.alerts[s'.db.events[i].alert].stock
    {
      if i < |s.db.events| {
        assert s'.db.events[i] == s.db.events[i];
      }
    }
  }

  /** Growing the log by undelivered events disturbs neither the mailbox nor any drain. */
  lemma GrowingLogKeepsMail(s: System, s': System)
    requires MailInv(s) && DrainsInv(s)
    requires s'.mailbox == s.mailbox && s'.drains == s.drains
    requires |s.db.events| <= |s'.db.events|
    requires forall e: EventId :: e < |s.db.events| ==> s'.db.events[e] == s.db.events[e]
    requires forall e: EventId :: |s.db.events| <= e < |s'.db.events| ==> !s'.db.events[e].delivered
    ensures MailInv(s') && DrainsInv(s')
  {
    forall id | id in s'.drains ensures DrainInv(s', s'.drains[id]) {
      assert DrainInv(s, s.drains[id]);
    }
  }

  lemma EvalNextKeepsMail(s: System)
    requires PassInv(s) && MailInv(s) && DrainsInv(s) && Enabled(s, EvalNext)
    ensures var s' := Apply(s, EvalNext); MailInv(s') && DrainsInv(s')
  {
    var p := s.pass.value;
    assert s.db.alerts[p.rows[0].id] == p.rows[0];
    ProcessRowMeaning(s.db, p.rows[0], p.readings, p.now);
    GrowingLogKeepsMail(s, Apply(s, EvalNext));
  }

  lemma ArriveKeepsMail(s: System, e: EventId)
    requires MailInv(s) && e < |s.db.events|
    ensures MailInv(s.(mailbox := Arrive(s.mailbox, MailFor(s.db.events, e))))
  {
    var m := MailFor(s.db.events, e);
    var box := Arrive(s.mailbox, m);
    ArriveAddsKey(s.mailbox, m);
    assert DistinctKeys(box) by {
      if !HasKey(s.mailbox, e) {
        assert forall i :: 0 <= i < |s.mailbox| ==> s.mailbox[i].key != e;
      }
    }
  }

  lemma SendKeeps(s: System, id: nat, outcome: SendOutcome)
    requires Inv(s) && Enabled(s, Send(id, outcome))
    ensures var s' := Apply(s, Send(id, outcome)); MailInv(s') && DrainsInv(s')
  {
    var s' := Apply(s, Send(id, outcome));
    var d := s.drains[id];
    assert DrainInv(s, d);
    if outcome != Lost {
      ArriveKeepsMail(s, d.pending[0]);
      ArriveAddsKey(s.mailbox, MailFor(s.db.events, d.pending[0]));
    }
    forall other | other in s'.drains
      ensures DrainInv(s', s'.drains[other])
    {
      assert DrainInv(s, s.drains[other]);
    }
  }

  lemma FlipKeepsAlerts(s: System, id: nat, ok: bool)
    requires AlertsInv(s) && Enabled(s, Flip(id, ok))
    ensures AlertsInv(Apply(s, Flip(id, ok)))
  {
    var s' := Apply(s, Flip(id, ok));
    forall a | a in s'.db.alerts
      ensures InStep(s'.db.alerts[a], Log(s'.db.events, a), s'.start[a], s'.history[a])
    {
      LogIgnoresDelivery(s.db.events, s'.db.events, a);
      assert InStep(s.db.alerts[a], Log(s.db.events, a), s.start[a], s.history[a]);
    }
  }

  lemma FlipKeepsEvents(s: System, id: nat, ok: bool)
    requires EventsInv(s) && PassInv(s) && Enabled(s, Flip(id, ok))
    ensures EventsInv(Apply(s, Flip(id, ok))) && PassInv(Apply(s, Flip(id, ok)))
  {
  }

  lemma FlipKeepsMail(s: System, id: nat, ok: bool)
    requires MailInv(s) && DrainsInv(s) && Enabled(s, Flip(id, ok))
    ensures MailInv(Apply(s, Flip(id, ok)))
  {
    assert DrainInv(s, s.drains[id]);
  }

  lemma FlipKeepsDrains(s: System, id: nat, ok: bool)
    requires DrainsInv(s) && Enabled(s, Flip(id, ok))
    ensures DrainsInv(Apply(s, Flip(id, ok)))
  {
    var s' := Apply(s, Flip(id, ok));
    var d := s.drains[id];
    var head := d.pending[0];
    assert DrainInv(s, d);
    assert d.pending == [head] + d.pending[1..];
    forall other | other in s'.drains
      ensures DrainInv(s', s'.drains[other])
    {
      assert DrainInv(s, s.drains[other]);
    }
  }

  lemma OtherStepsKeep(s: System, a: Action)
    requires DrainsInv(s) && Enabled(s, a)
    requires a.CreateAlert? || a.StartPass? || a.EndPass? || a.StartDrain? || a.CrashDrain?
    ensures DrainsInv(Apply(s, a))
  {
    var s' := Apply(s, a);
    forall id | id in s'.drains
      ensures DrainInv(s', s'.drains[id])
    {
      if id in s.drains { assert DrainInv(s, s.drains[id]); }
    }
  }

  /** Every step, failing or not, keeps the invariant. */
  lemma StepKeepsInv(s: System, a: Action)
    requires Inv(s) && Enabled(s, a)
    ensures Inv(Apply(s, a))
  {
    match a {
      case CreateAlert(alert) =>
        CreateAlertKeepsAlerts(s, alert);
        CreateAlertKeepsRest(s, alert);
        OtherStepsKeep(s, a);
      case EvalNext =>
        EvalNextKeepsAlerts(s);
        EvalNextKeepsPass(s);
        EvalNextKeepsEvents(s);
        EvalNextKeepsMail(s);
      case Send(id, outcome) => SendKeeps(s, id, outcome);
      case Flip(id, ok) =>
        FlipKeepsAlerts(s, id, ok);
        FlipKeepsEvents(s, id, ok);
        FlipKeepsMail(s, id, ok);
        FlipKeepsDrains(s, id, ok);
      case _ => OtherStepsKeep(s, a);
    }
  }

  lemma {:induction false} RunKeepsInv(s: System, actions: seq<Action>)
    requires Inv(s) && IsRun(s, actions)
    ensures Inv(After(s, actions))
    decreases |actions|
  {
    if actions != [] {
      StepKeepsInv(s, actions[0]);
      RunKeepsInv(Apply(s, actions[0]), actions[1..]);
    }
  }

  // ---------- the end-to-end theorem ----------

  /** What an alert owes over its whole history: one stamped event per rising edge of its evaluable
      condition, or only the first for a one-shot; nothing if it was created inactive. */
  ghost function OwedLog(a: Alert, start: Flags, history: seq<Observation>): seq<(nat, SnapshotValue)> {
    if start.active then Stamps(ExpectedFires(a.mode, start, history)) else []
  }

  /** An email is about its recorded event, and goes to the owner of the alert that fired, about its stock. */
  predicate Reports(db: Db, m: Mail) {
    && m.key < |db.events|
    && var e := db.events[m.key];
       && m.content.alert == e.alert && m.content.user == e.user && m.content.stock == e.stock
       && m.content.snapshot == e.snapshot
       && e.alert in db.alerts && e.user == db.alerts[e.alert].user && e.stock == db.alerts[e.alert].stock
  }

  /**
   EXACTLY ONCE, end to end. After any run of evaluation passes that do not overlap one another, cut
   anywhere, and any number of drains, overlapping, failing or crashing at any step: every alert's log is
   exactly the rising edges of what it observed; no event has reached the mailbox twice; every email
   reports a recorded event; and nothing is marked delivered that did not arrive.
   */
  lemma ExactlyOnce(actions: seq<Action>)
    requires IsRun(EMPTY_SYSTEM, actions)
    ensures var s := After(EMPTY_SYSTEM, actions);
            && s.start.Keys == s.history.Keys == s.db.alerts.Keys
            && (forall id :: id in s.db.alerts ==>
                  Log(s.db.events, id) == OwedLog(s.db.alerts[id], s.start[id], s.history[id]))
            && (forall e: EventId :: Arrivals(s.mailbox, e) <= 1)
            && (forall m :: m in s.mailbox ==> Reports(s.db, m))
            && (forall e: EventId :: e < |s.db.events| && s.db.events[e].delivered ==> Arrivals(s.mailbox, e) == 1)
  {
    RunKeepsInv(EMPTY_SYSTEM, actions);
    var s := After(EMPTY_SYSTEM, actions);
    forall id | id in s.db.alerts
      ensures Log(s.db.events, id) == OwedLog(s.db.alerts[id], s.start[id], s.history[id])
    {
      InStepIsOwed(s.db.alerts[id], Log(s.db.events, id), s.start[id], s.history[id]);
    }
    AtMostOnce(s);
  }

  lemma InStepIsOwed(a: Alert, log: seq<(nat, SnapshotValue)>, start: Flags, history: seq<Observation>)
    requires InStep(a, log, start, history)
    ensures log == OwedLog(a, start, history)
  {
    if !start.active {
      InactiveNeverFires(a.mode, start, history);
    } else if a.mode == Repeating {
      RepeatingFiresExactlyOnCrossings(start, history);
    } else {
      OneShotFiresExactlyOnFirstCrossing(start, history);
    }
  }

  lemma AtMostOnce(s: System)
    requires MailInv(s)
    ensures forall e: EventId :: Arrivals(s.mailbox, e) <= 1
    ensures forall e: EventId :: e < |s.db.events| && s.db.events[e].delivered ==> Arrivals(s.mailbox, e) == 1
  {
    forall e: EventId
      ensures Arrivals(s.mailbox, e) == if HasKey(s.mailbox, e) then 1 else 0
    {
      ArrivalsCount(s.mailbox, e);
    }
  }

  lemma {:induction false} DrainKeepsItsRecord(s: System, actions: seq<Action>, id: nat)
    requires IsRun(s, actions) && id in s.drains
    ensures id in After(s, actions).drains && After(s, actions).drains[id].recorded == s.drains[id].recorded
    decreases |actions|
  {
    if actions != [] {
      DrainKeepsItsRecord(Apply(s, actions[0]), actions[1..], id);
    }
  }

  /**
   A drain that reaches its end without a failure has delivered every event recorded before it began,
   each exactly once, whatever else ran meanwhile.
   */
  lemma CleanDrainDeliversAll(before: seq<Action>, id: nat, order: seq<EventId>, rest: seq<Action>)
    requires IsRun(EMPTY_SYSTEM, before)
    requires Enabled(After(EMPTY_SYSTEM, before), StartDrain(id, order))
    requires IsRun(Apply(After(EMPTY_SYSTEM, before), StartDrain(id, order)), rest)
    ensures var s0 := After(EMPTY_SYSTEM, before);
            var s := After(Apply(s0, StartDrain(id, order)), rest);
            && id in s.drains
            && (s.drains[id].clean && s.drains[id].pending == [] ==>
                  forall e: EventId :: e < |s0.db.events| ==>
                    e < |s.db.events| && s.db.events[e].delivered && Arrivals(s.mailbox, e) == 1)
  {
    RunKeepsInv(EMPTY_SYSTEM, before);
    var s0 := After(EMPTY_SYSTEM, before);
    var s1 := Apply(s0, StartDrain(id, order));
    StepKeepsInv(s0, StartDrain(id, order));
    RunKeepsInv(s1, rest);
    DrainKeepsItsRecord(s1, rest, id);
    var s := After(s1, rest);
    assert DrainInv(s, s.drains[id]);
    AtMostOnce(s);
  }

  // ---------- the drain as it runs ----------

  /** What happens to one event in one drain. Rendering failures count as `Lost`. */
  datatype Attempt = Attempt(send: SendOutcome, flipOk: bool)

  predicate Succeeds(a: Attempt) { a.send == Accepted && a.flipOk }

  datatype Ledger = Ledger(events: seq<Event>, mailbox: seq<Mail>)

  function DeliverOne(l: Ledger, e: EventId, a: Attempt): (l': Ledger)
    requires e < |l.events|
    ensures |l'.events| == |l.events|
  {
    Ledger(
      if Succeeds(a) then MarkDelivered(l.events, e) else l.events,
      if a.send == Lost then l.mailbox else Arrive(l.mailbox, MailFor(l.events, e)))
  }

  function DeliverAll(l: Ledger, order: seq<EventId>, attempts: EventId -> Attempt): (l': Ledger)
    requires forall i :: 0 <= i < |order| ==> order[i] < |l.events|
    ensures |l'.events| == |l.events|
  {
    if order == [] then l
    else
      var n := |order| - 1;
      DeliverOne(DeliverAll(l, order[..n], attempts), order[n], attempts(order[n]))
  }

  /** The method below takes, for each event, exactly the steps the system above would take. */
  lemma DeliverOneIsSendThenFlip(s: System, id: nat, a: Attempt)
    requires Inv(s) && Enabled(s, Send(id, a.send))
    ensures var s1 := Apply(s, Send(id, a.send));
            && (a.send == Accepted ==> Enabled(s1, Flip(id, a.flipOk)))
            && var s2 := if a.send == Accepted then Apply(s1, Flip(id, a.flipOk)) else s1;
               && Ledger(s2.db.events, s2.mailbox)
                  == DeliverOne(Ledger(s.db.events, s.mailbox), s.drains[id].pending[0], a)
               && s2.drains[id].pending == s.drains[id].pending[1..]
               && !s2.drains[id].sent
               && (s2.drains[id].clean <==> s.drains[id].clean && Succeeds(a))
  {
  }

  /** After a drain, exactly the events already delivered and those whose attempt succeeded are marked;
      nothing else about any event changes, and the mailbox only grows. */
  lemma {:induction false} DrainMarksExactlySuccesses(l: Ledger, order: seq<EventId>, attempts: EventId -> Attempt)
    requires forall i :: 0 <= i < |order| ==> order[i] < |l.events|
    ensures var l' := DeliverAll(l, order, attempts);
            && (forall e: EventId :: e < |l.events| ==>
                  && l'.events[e] == l.events[e].(delivered := l'.events[e].delivered)
                  && (l'.events[e].delivered <==>
                        l.events[e].delivered || (e in order && Succeeds(attempts(e)))))
            && l.mailbox <= l'.mailbox
            && (forall e: EventId :: HasKey(l'.mailbox, e) <==>
                  HasKey(l.mailbox, e) || (e in order && attempts(e).send != Lost))
  {
    if order == [] {
    } else {
      var n := |order| - 1;
      DrainMarksExactlySuccesses(l, order[..n], attempts);
      var mid := DeliverAll(l, order[..n], attempts);
      assert order == order[..n] + [order[n]];
      ArriveAddsKey(mid.mailbox, MailFor(mid.events, order[n]));
    }
  }

  datatype DeliverResult = DeliverResult(scanned: nat, sent: nat, failed: nat, outcomes: seq<(EventId, bool)>)

  function SentOf(outcomes: seq<(EventId, bool)>): nat {
    if outcomes == [] then 0 else SentOf(outcomes[..|outcomes| - 1]) + if outcomes[|outcomes| - 1].1 then 1 else 0
  }

  /** The sent are counted. */
  lemma {:induction false} SentCounts(outcomes: seq<(EventId, bool)>)
    ensures SentOf(outcomes) == |set i: nat | i < |outcomes| && outcomes[i].1|
  {
    if outcomes != [] {
      var n := |outcomes| - 1;
      SentCounts(outcomes[..n]);
      var sent, before := set i: nat | i < |outcomes| && outcomes[i].1, set i: nat | i < n && outcomes[..n][i].1;
      assert sent == if outcomes[n].1 then before + {n} else before;
    }
  }

  predicate InLog(events: seq<Event>, order: seq<EventId>) {
    forall i :: 0 <= i < |order| ==> order[i] < |events|
  }

  ghost predicate OldestFirst(events: seq<Event>, order: seq<EventId>)
    requires InLog(events, order)
  {
    order == [] ||
    var n := |order| - 1;
    OldestFirst(events, order[..n])
    && forall i :: 0 <= i < n ==> events[order[i]].firedAt <= events[order[n]].firedAt
  }

  /** Where the database's ORDER BY places one more row: behind every row at least as old. */
  function InsertByTime(events: seq<Event>, order: seq<EventId>, e: EventId): (wider: seq<EventId>)
    requires e < |events| && InLog(events, order)
    ensures multiset(wider) == multiset(order) + multiset{e}
  {
    if order == [] then [e]
    else
      var n := |order| - 1;
      assert order == order[..n] + [order[n]];
      if events[order[n]].firedAt <= events[e].firedAt then order + [e]
      else InsertByTime(events, order[..n], e) + [order[n]]
  }

  lemma SameElements(a: seq<EventId>, b: seq<EventId>, e: EventId)
    requires multiset(a) == multiset(b) + multiset{e}
    ensures forall k: EventId :: k in a <==> k in b || k == e
  {
    forall k: EventId ensures k in a <==> k in b || k == e {
      assert k in a <==> k in multiset(a);
      assert k in b <==> k in multiset(b);
    }
  }

  lemma {:induction false} InsertByTimeIsSorted(events: seq<Event>, order: seq<EventId>, e: EventId)
    requires e < |events| && InLog(events, order) && OldestFirst(events, order)
    ensures var wider := InsertByTime(events, order, e);
            InLog(events, wider) && OldestFirst(events, wider)
  {
    var wider := InsertByTime(events, order, e);
    if order == [] {
      assert wider == [e];
    } else {
      var n := |order| - 1;
      if events[order[n]].firedAt <= events[e].firedAt {
        assert wider[..|order|] == order;
      } else {
        InsertByTimeIsSorted(events, order[..n], e);
        var front := InsertByTime(events, order[..n], e);
        SameElements(front, order[..n], e);
        assert wider[..|front|] == front;
        forall i | 0 <= i < |front|
          ensures events[front[i]].firedAt <= events[order[n]].firedAt
        {
          assert front[i] in front;
          if front[i] != e {
            var j :| 0 <= j < n && order[..n][j] == front[i];
            assert order[j] == front[i];
          }
        }
      }
    }
  }

  ghost predicate OnceEach(order: seq<EventId>) { forall i, j :: 0 <= i < j < |order| ==> order[i] != order[j] }

  lemma StillOnceEach(wider: seq<EventId>, order: seq<EventId>, e: EventId)
    requires OnceEach(order) && e !in order && multiset(wider) == multiset(order) + multiset{e}
    ensures OnceEach(wider)
  {
    forall i, j | 0 <= i < j < |wider| ensures wider[i] != wider[j] {
      if wider[i] == wider[j] {
        TwicePresent(wider, i, j);
        OncePresent(order, wider[j]);
      }
    }
  }

  lemma TwicePresent(order: seq<EventId>, i: nat, j: nat)
    requires i < j < |order| && order[i] == order[j]
    ensures multiset(order)[order[j]] >= 2
  {
    assert order == order[..j] + [order[j]] + order[j + 1..];
    assert order[i] in order[..j];
  }

  lemma {:induction false} OncePresent(order: seq<EventId>, e: EventId)
    requires OnceEach(order)
    ensures multiset(order)[e] == if e in order then 1 else 0
  {
    if order != [] {
      assert order == order[..|order| - 1] + [order[|order| - 1]];
      OncePresent(order[..|order| - 1], e);
    }
  }

  class DeliveryStore {
    var events: seq<Event>
    var mailbox: seq<Mail>

    constructor (log: seq<Event>)
      ensures events == log && mailbox == []
    {
      events := log;
      mailbox := [];
    }

    /** The undelivered backlog, oldest first. */
    method ScanUndelivered() returns (order: seq<EventId>)
      ensures Undelivered(events, order) && OldestFirst(events, order)
    {
      order := [];
      for e := 0 to |events|
        invariant InLog(events, order) && OldestFirst(events, order)
        invariant forall k: EventId :: k in order <==> k < e && !events[k].delivered
        invariant OnceEach(order)
      {
        if !events[e].delivered {
          InsertByTimeIsSorted(events, order, e);
          SameElements(InsertByTime(events, order, e), order, e);
          StillOnceEach(InsertByTime(events, order, e), order, e);
          order := InsertByTime(events, order, e);
        }
      }
      assert forall i :: 0 <= i < |order| ==> order[i] in order;
    }

    /** Drain the backlog: send, then flip on success. One bad send never stops the rest. */
    method RunAlertsDeliverPass(attempts: EventId -> Attempt)
      returns (result: DeliverResult, order: seq<EventId>)
      modifies this
      ensures Undelivered(old(events), order) && OldestFirst(old(events), order)
      ensures Ledger(events, mailbox) == DeliverAll(Ledger(old(events), old(mailbox)), order, attempts)
      ensures result.scanned == |order| == |result.outcomes| == result.sent + result.failed
      ensures result.sent == SentOf(result.outcomes)
      ensures forall i :: 0 <= i < |order| ==> result.outcomes[i] == (order[i], Succeeds(attempts(order[i])))
    {
      order := ScanUndelivered();
      result := SendEach(order, attempts);
    }

    method SendEach(order: seq<EventId>, attempts: EventId -> Attempt) returns (result: DeliverResult)
      requires InLog(events, order)
      modifies this
      ensures Ledger(events, mailbox) == DeliverAll(Ledger(old(events), old(mailbox)), order, attempts)
      ensures result.scanned == |order| == |result.outcomes| == result.sent + result.failed
      ensures result.sent == SentOf(result.outcomes)
      ensures forall i :: 0 <= i < |order| ==> result.outcomes[i] == (order[i], Succeeds(attempts(order[i])))
    {
      ghost var before := Ledger(events, mailbox);
      var sent, failed := 0, 0;
      var outcomes: seq<(EventId, bool)> := [];
      for i := 0 to |order|
        invariant |events| == |before.events|
        invariant Ledger(events, mailbox) == DeliverAll(before, order[..i], attempts)
        invariant |outcomes| == i == sent + failed && sent == SentOf(outcomes)
        invariant forall j :: 0 <= j < i ==> outcomes[j] == (order[j], Succeeds(attempts(order[j])))
      {
        var e := order[i];
        assert order[..i + 1][..i] == order[..i];
        var ok := TrySend(e, attempts(e));
        if ok {
          sent := sent + 1;
        } else {
          failed := failed + 1;
        }
        assert (outcomes + [(e, ok)])[..|outcomes|] == outcomes;
        outcomes := outcomes + [(e, ok)];
      }
      assert order[..|order|] == order;
      result := DeliverResult(|order|, sent, failed, outcomes);
    }

    /** Render and send one event, and flip it only after a confirmed send. */
    method TrySend(e: EventId, a: Attempt) returns (ok: bool)
      requires e < |events|
      modifies this
      ensures Ledger(events, mailbox) == DeliverOne(Ledger(old(events), old(mailbox)), e, a)
      ensures ok == Succeeds(a)
    {
      ok := false;
      if a.send != Lost {
        mailbox := Arrive(mailbox, MailFor(events, e));
        if a.send == Accepted && a.flipOk {
          events := MarkDelivered(events, e);
          ok := true;
        }
      }
    }
  }

  /** A drain in which every attempt succeeds leaves nothing undelivered: the next one has nothing to send. */
  lemma FullDrainLeavesNothing(l: Ledger, order: seq<EventId>, attempts: EventId -> Attempt)
    requires Undelivered(l.events, order)
    requires forall e :: e in order ==> Succeeds(attempts(e))
    ensures var l' := DeliverAll(l, order, attempts);
            && Undelivered(l'.events, [])
            && forall e :: e in order ==> HasKey(l'.mailbox, e)
  {
    DrainMarksExactlySuccesses(l, order, attempts);
  }
}
