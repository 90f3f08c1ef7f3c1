/**
 Which conversation turns reach the distiller (src/chat/profile.ts:146-160, 311-445; the clear in
 src/controllers/me/activity-controller.ts:78-104): the watermark, the clear floor, the nightly selection.

 Sessions receive messages, readers clear, sessions are distilled; each operation is one step. A turn carries
 the instant it was sent, which may lie well before the write that stores it; a session's `lastMessageAt` is at
 or after every turn in it and never runs back. Outcomes of a distillation (quota closed, provider failure, a
 reply that cannot be used, a reply of any content) are arbitrary.

 Main results: every turn reaches at most one distillation; one behind its session's watermark or its reader's
 clear never does; a stored profile is the fold of what was distilled for its reader since the last clear, and
 never leaves its bounds, whatever the model replies; a message between the two reads
 of a distillation is distilled twice, exactly when it is visible and later than what the first read claims.
 */
module ProfileWatermark {
  import opened Wrappers
  import opened ReaderProfile

  type SessionId = nat
  type UserId = nat
  type TurnId = nat

  const QUIESCENCE := 21600000

  /** `visible` is false for the opening scaffolding and for tool traffic. */
  datatype Turn = Turn(id: TurnId, at: Time, visible: bool)

  datatype Session = Session(user: UserId, lastMessageAt: Time, watermark: Option<Time>, turns: seq<Turn>)

  datatype Stored = Stored(profile: Profile, clearedAt: Option<Time>)

  /** `used` is the history of turns consumed by a distillation, in order. */
  datatype State = State(
    sessions: map<SessionId, Session>, profiles: map<UserId, Stored>, clock: Time, used: seq<TurnId>)

  /** A parsed reply is a JSON object of any content. */
  datatype Attempt = QuotaDenied | ProviderThrew | UnusableReply | Parsed(reply: Json)

  /** What a reply is read against. */
  datatype Rules = Rules(registers: set<string>, vocab: set<string>, trim: string -> string)

  function Read(reply: Json, stored: Profile, rules: Rules): Distilled {
    Parse(reply, stored.gaps, rules.registers, rules.vocab, rules.trim)
  }

  datatype Status = Gone | BeforeClear | NoNewTurns | Denied | Threw | Unusable | Folded

  // ---------- one distillation ----------

  function ClearedAt(s: State, u: UserId): Option<Time> {
    if u in s.profiles then s.profiles[u].clearedAt else None
  }

  function ProfileOf(s: State, u: UserId): Profile {
    if u in s.profiles then s.profiles[u].profile else EMPTY_PROFILE
  }

  predicate NewerThan(at: Time, since: Option<Time>) { since.Some? ==> at > since.value }

  /** The turns the reader saw, newer than `since`. */
  function Visible(turns: seq<Turn>, since: Option<Time>): seq<TurnId> {
    if turns == [] then []
    else
      var t := turns[|turns| - 1];
      Visible(turns[..|turns| - 1], since) + if t.visible && NewerThan(t.at, since) then [t.id] else []
  }

  function Since(session: Session, cleared: Option<Time>): Option<Time> {
    if cleared.Some? && (session.watermark.None? || session.watermark.value < cleared.value) then cleared
    else session.watermark
  }

  predicate BelowFloor(session: Session, cleared: Option<Time>) {
    cleared.Some? && session.lastMessageAt <= cleared.value
  }

  function StatusOf(s: State, id: SessionId, attempt: Attempt): Status {
    if id !in s.sessions then Gone
    else
      var session := s.sessions[id];
      var cleared := ClearedAt(s, session.user);
      if BelowFloor(session, cleared) then BeforeClear
      else if Visible(session.turns, Since(session, cleared)) == [] then NoNewTurns
      else match attempt
        case QuotaDenied => Denied
        case ProviderThrew => Threw
        case UnusableReply => Unusable
        case Parsed(_) => Folded
  }

  /** The watermark advances on everything but a closed quota and a provider failure. */
  predicate Advances(status: Status) { status != Gone && status != Denied && status != Threw }

  function Refolded(p: Profile, reply: Json, rules: Rules, now: Time): Profile {
    Fold(p, Read(reply, p, rules), rules.vocab, now)
  }

  function Distil(s: State, id: SessionId, attempt: Attempt, rules: Rules): State {
    var status := StatusOf(s, id, attempt);
    if !Advances(status) then s
    else
      var session := s.sessions[id];
      var turns := Visible(session.turns, Since(session, ClearedAt(s, session.user)));
      s.(sessions := s.sessions[id := session.(watermark := Some(session.lastMessageAt))],
         used := if status.Unusable? || status.Folded? then s.used + turns else s.used,
         profiles := if status.Folded?
                     then s.profiles[session.user :=
                            Stored(Refolded(ProfileOf(s, session.user), attempt.reply, rules, s.clock),
                                   ClearedAt(s, session.user))]
                     else s.profiles)
  }

  predicate Selected(s: State, id: SessionId) {
    && id in s.sessions && s.sessions[id].lastMessageAt < s.clock - QUIESCENCE
    && (s.sessions[id].watermark.None? || s.sessions[id].watermark.value < s.sessions[id].lastMessageAt)
  }

  // ---------- steps ----------

  datatype Action =
    | Open(id: SessionId, user: UserId)
    | Message(id: SessionId, turn: TurnId, visible: bool, at: Time, stamped: Time)
    | Clear(user: UserId)
    | Attempted(id: SessionId, attempt: Attempt)
    | Wait(until: Time)

  ghost predicate Holds(session: Session, t: TurnId) {
    exists i :: 0 <= i < |session.turns| && session.turns[i].id == t
  }

  /** Turn ids are fresh; `lastMessageAt` is stamped no earlier than the turn, which may have been sent at any
      time before, and never runs back. */
  ghost predicate Possible(s: State, a: Action) {
    match a
    case Open(id, _) => id !in s.sessions
    case Message(id, t, _, at, stamped) =>
      id in s.sessions && stamped >= at && stamped >= s.sessions[id].lastMessageAt
      && t !in s.used && forall k :: k in s.sessions ==> !Holds(s.sessions[k], t)
    case Clear(_) => true
    case Attempted(_, _) => true
    case Wait(until) => until >= s.clock
  }

  function Do(s: State, a: Action, rules: Rules): State {
    match a
    case Open(id, user) => s.(sessions := s.sessions[id := Session(user, s.clock, None, [])])
    case Message(id, t, visible, at, stamped) =>
      if id !in s.sessions then s
      else
        var session := s.sessions[id];
        s.(sessions := s.sessions[id := session.(lastMessageAt := stamped,
                                                 turns := session.turns + [Turn(t, at, visible)])])
    case Clear(user) => s.(profiles := s.profiles[user := Stored(EMPTY_PROFILE, Some(s.clock))])
    case Attempted(id, attempt) => Distil(s, id, attempt, rules)
    case Wait(until) => s.(clock := until)
  }

  ghost predicate IsRun(s: State, actions: seq<Action>, rules: Rules)
    decreases |actions|
  {
    actions == [] || (Possible(s, actions[0]) && IsRun(Do(s, actions[0], rules), actions[1..], rules))
  }

  function Then(s: State, actions: seq<Action>, rules: Rules): State
    decreases |actions|
  {
    if actions == [] then s else Then(Do(s, actions[0], rules), actions[1..], rules)
  }

  // ---------- the invariant ----------

  /** Turn ids are used in one session only, once; a turn still ahead of its watermark has not been used. */
  ghost predicate SessionOk(s: State, id: SessionId)
    requires id in s.sessions
  {
    var session := s.sessions[id];
    && (session.watermark.Some? ==> session.watermark.value <= session.lastMessageAt)
    && (forall i :: 0 <= i < |session.turns| ==> session.turns[i].at <= session.lastMessageAt)
    && (forall i, j :: 0 <= i < j < |session.turns| ==> session.turns[i].id != session.turns[j].id)
    && (forall i :: 0 <= i < |session.turns| && NewerThan(session.turns[i].at, session.watermark) ==>
          session.turns[i].id !in s.used)
  }

  ghost predicate OneHome(s: State) {
    forall k, l, t ::
      k in s.sessions && l in s.sessions && Holds(s.sessions[k], t) && Holds(s.sessions[l], t) ==> k == l
  }

  ghost predicate UsedOnce(s: State) { Distinct(s.used) }

  ghost predicate ClearsArePast(s: State) {
    forall u :: u in s.profiles && s.profiles[u].clearedAt.Some? ==> s.profiles[u].clearedAt.value <= s.clock
  }

  ghost predicate Inv(s: State) {
    (forall id :: id in s.sessions ==> SessionOk(s, id)) && OneHome(s) && UsedOnce(s) && ClearsArePast(s)
  }

  lemma {:induction false} VisibleAre(turns: seq<Turn>, since: Option<Time>)
    ensures forall t :: t in Visible(turns, since) <==>
              exists i :: 0 <= i < |turns| && turns[i].id == t && turns[i].visible && NewerThan(turns[i].at, since)
  {
    if turns != [] {
      var n := |turns| - 1;
      VisibleAre(turns[..n], since);
      forall t ensures t in Visible(turns, since) <==>
        exists i :: 0 <= i < |turns| && turns[i].id == t && turns[i].visible && NewerThan(turns[i].at, since)
      {
        if i :| 0 <= i < |turns| && turns[i].id == t && turns[i].visible && NewerThan(turns[i].at, since) {
          if i < n { assert turns[..n][i] == turns[i]; }
        }
      }
    }
  }

  ghost predicate Distinct(ids: seq<TurnId>) {
    forall i, j :: 0 <= i < j < |ids| ==> ids[i] != ids[j]
  }

  lemma DistinctJoin(a: seq<TurnId>, b: seq<TurnId>)
    requires Distinct(a) && Distinct(b) && forall t :: t in b ==> t !in a
    ensures Distinct(a + b)
  {
    forall i, j | 0 <= i < j < |a + b| ensures (a + b)[i] != (a + b)[j] {
      if i < |a| && j >= |a| { assert (a + b)[j] in b; }
    }
  }

  lemma {:induction false} VisibleAreDistinct(turns: seq<Turn>, since: Option<Time>)
    requires forall i, j :: 0 <= i < j < |turns| ==> turns[i].id != turns[j].id
    ensures Distinct(Visible(turns, since))
  {
    if turns != [] {
      var n := |turns| - 1;
      VisibleAreDistinct(turns[..n], since);
      VisibleAre(turns[..n], since);
      forall i | 0 <= i < n ensures turns[..n][i].id != turns[n].id {}
      DistinctJoin(Visible(turns[..n], since),
                   if turns[n].visible && NewerThan(turns[n].at, since) then [turns[n].id] else []);
    }
  }

  /** What a distillation consumes lies after the session's watermark and after the clear. */
  lemma ConsumedIsNew(session: Session, cleared: Option<Time>)
    ensures forall at ::
              NewerThan(at, Since(session, cleared)) ==> NewerThan(at, session.watermark) && NewerThan(at, cleared)
  {
  }

  lemma OpenKeepsInv(s: State, id: SessionId, user: UserId, rules: Rules)
    requires Inv(s) && id !in s.sessions
    ensures Inv(Do(s, Open(id, user), rules))
  {
    var s' := Do(s, Open(id, user), rules);
    forall k | k in s'.sessions ensures SessionOk(s', k) {
      if k != id { assert SessionOk(s, k); }
    }
  }

  lemma MessageKeepsInv(s: State, id: SessionId, t: TurnId, visible: bool, at: Time, stamped: Time,
                          rules: Rules)
    requires Inv(s) && Possible(s, Message(id, t, visible, at, stamped))
    ensures Inv(Do(s, Message(id, t, visible, at, stamped), rules))
  {
    var s' := Do(s, Message(id, t, visible, at, stamped), rules);
    assert SessionOk(s, id);
    forall i | 0 <= i < |s.sessions[id].turns| ensures s.sessions[id].turns[i].id != t {
      assert !Holds(s.sessions[id], t);
    }
    forall k | k in s'.sessions ensures SessionOk(s', k) {
      if k != id { assert SessionOk(s, k); }
    }
    forall k, x | k in s'.sessions && Holds(s'.sessions[k], x)
      ensures Holds(s.sessions[k], x) || (k == id && x == t)
    {
      var i :| 0 <= i < |s'.sessions[k].turns| && s'.sessions[k].turns[i].id == x;
      if k == id && i < |s.sessions[id].turns| { assert s.sessions[id].turns[i].id == x; }
    }
  }

  lemma SameTurnsSameHomes(s: State, s': State)
    requires OneHome(s) && s'.sessions.Keys == s.sessions.Keys
    requires forall k :: k in s.sessions ==> s'.sessions[k].turns == s.sessions[k].turns
    ensures OneHome(s')
  {
    forall k, t | k in s.sessions ensures Holds(s'.sessions[k], t) == Holds(s.sessions[k], t) {}
  }

  /** The turns a distillation consumes have not been consumed before, and belong to its session alone. */
  lemma ConsumedAreUnused(s: State, id: SessionId)
    requires Inv(s) && id in s.sessions
    ensures var v := Visible(s.sessions[id].turns, Since(s.sessions[id], ClearedAt(s, s.sessions[id].user)));
            && (forall t :: t in v ==> t !in s.used && Holds(s.sessions[id], t))
            && Distinct(v)
  {
    var session := s.sessions[id];
    assert SessionOk(s, id);
    VisibleAre(session.turns, Since(session, ClearedAt(s, session.user)));
    VisibleAreDistinct(session.turns, Since(session, ClearedAt(s, session.user)));
    ConsumedIsNew(session, ClearedAt(s, session.user));
  }

  function Caught(session: Session): Session { session.(watermark := Some(session.lastMessageAt)) }

  /** Catching a session up while consuming turns of it, not consumed before. */
  lemma CatchUpKeepsInv(s: State, id: SessionId, v: seq<TurnId>, profiles: map<UserId, Stored>)
    requires Inv(s) && id in s.sessions && Distinct(v)
    requires forall t :: t in v ==> t !in s.used && Holds(s.sessions[id], t)
    requires ClearsArePast(s.(profiles := profiles))
    ensures Inv(s.(sessions := s.sessions[id := Caught(s.sessions[id])], used := s.used + v, profiles := profiles))
  {
    var s' := s.(sessions := s.sessions[id := Caught(s.sessions[id])], used := s.used + v, profiles := profiles);
    DistinctJoin(s.used, v);
    SameTurnsSameHomes(s, s');
    assert SessionOk(s, id);
    forall k | k in s'.sessions ensures SessionOk(s', k) {
      if k != id {
        assert SessionOk(s, k);
        OthersTurnsUnused(s, id, k, v);
      }
    }
  }

  lemma DistilKeepsInv(s: State, id: SessionId, attempt: Attempt, rules: Rules)
    requires Inv(s)
    ensures Inv(Distil(s, id, attempt, rules))
  {
    var s' := Distil(s, id, attempt, rules);
    var status := StatusOf(s, id, attempt);
    if Advances(status) {
      if status.Unusable? || status.Folded? {
        ConsumedAreUnused(s, id);
        var v := Visible(s.sessions[id].turns, Since(s.sessions[id], ClearedAt(s, s.sessions[id].user)));
        CatchUpKeepsInv(s, id, v, s'.profiles);
      } else {
        CatchUpKeepsInv(s, id, [], s.profiles);
        assert s.used + [] == s.used;
      }
    }
  }

  lemma OthersTurnsUnused(s: State, id: SessionId, k: SessionId, v: seq<TurnId>)
    requires OneHome(s) && id in s.sessions && k in s.sessions && k != id
    requires forall t :: t in v ==> Holds(s.sessions[id], t)
    ensures forall i :: 0 <= i < |s.sessions[k].turns| ==> s.sessions[k].turns[i].id !in v
  {
    forall i | 0 <= i < |s.sessions[k].turns| ensures s.sessions[k].turns[i].id !in v {
      assert Holds(s.sessions[k], s.sessions[k].turns[i].id);
    }
  }

  lemma StepKeepsInv(s: State, a: Action, rules: Rules)
    requires Inv(s) && Possible(s, a)
    ensures Inv(Do(s, a, rules))
  {
    match a {
      case Open(id, user) => OpenKeepsInv(s, id, user, rules);
      case Message(id, t, visible, at, stamped) => MessageKeepsInv(s, id, t, visible, at, stamped, rules);
      case Attempted(id, attempt) => DistilKeepsInv(s, id, attempt, rules);
      case Clear(_) =>
        forall k | k in s.sessions ensures SessionOk(Do(s, a, rules), k) { assert SessionOk(s, k); }
      case Wait(_) =>
        forall k | k in s.sessions ensures SessionOk(Do(s, a, rules), k) { assert SessionOk(s, k); }
    }
  }

  /** NO TURN TWICE. Over any run, every turn reaches at most one distillation. */
  lemma {:induction false} EachTurnDistilledAtMostOnce(s: State, actions: seq<Action>, rules: Rules)
    requires Inv(s) && IsRun(s, actions, rules)
    ensures Inv(Then(s, actions, rules)) && UsedOnce(Then(s, actions, rules))
    decreases |actions|
  {
    if actions != [] {
      StepKeepsInv(s, actions[0], rules);
      EachTurnDistilledAtMostOnce(Do(s, actions[0], rules), actions[1..], rules);
    }
  }

  // ---------- what is behind stays out ----------

  function Floor(s: State, id: SessionId): Option<Time>
    requires id in s.sessions
  {
    Since(s.sessions[id], ClearedAt(s, s.sessions[id].user))
  }

  /** Turn `i` of session `id` lies at or before the session's watermark or its reader's last clear, and has
      not been consumed. */
  ghost predicate Behind(s: State, id: SessionId, i: nat) {
    && id in s.sessions && i < |s.sessions[id].turns|
    && s.sessions[id].turns[i].id !in s.used
    && !NewerThan(s.sessions[id].turns[i].at, Floor(s, id))
  }

  lemma BehindIsNotConsumed(s: State, id: SessionId, i: nat, k: SessionId)
    requires Inv(s) && Behind(s, id, i) && k in s.sessions
    ensures s.sessions[id].turns[i].id !in Visible(s.sessions[k].turns, Floor(s, k))
  {
    var t := s.sessions[id].turns[i].id;
    VisibleAre(s.sessions[k].turns, Floor(s, k));
    assert SessionOk(s, id);
    forall j | 0 <= j < |s.sessions[k].turns| && s.sessions[k].turns[j].id == t
      ensures !NewerThan(s.sessions[k].turns[j].at, Floor(s, k))
    {
      assert Holds(s.sessions[k], t) && Holds(s.sessions[id], t);
      assert k == id && i == j;
    }
  }

  lemma StepKeepsBehind(s: State, a: Action, rules: Rules, id: SessionId, i: nat)
    requires Inv(s) && Possible(s, a) && Behind(s, id, i)
    ensures Behind(Do(s, a, rules), id, i)
    ensures Do(s, a, rules).sessions[id].turns[i] == s.sessions[id].turns[i]
  {
    assert SessionOk(s, id);
    match a {
      case Attempted(k, attempt) => if k in s.sessions { BehindIsNotConsumed(s, id, i, k); }
      case _ =>
    }
  }

  /** A CLEARED PROFILE DOES NOT RE-FORM, and nothing is read late. A turn behind its session's watermark or its
      reader's clear, not distilled by then, never is, over any run. */
  lemma {:induction false} BehindStaysOut(s: State, actions: seq<Action>, rules: Rules, id: SessionId, i: nat)
    requires Inv(s) && IsRun(s, actions, rules) && Behind(s, id, i)
    ensures s.sessions[id].turns[i].id !in Then(s, actions, rules).used
    decreases |actions|
  {
    if actions != [] {
      StepKeepsInv(s, actions[0], rules);
      StepKeepsBehind(s, actions[0], rules, id, i);
      BehindStaysOut(Do(s, actions[0], rules), actions[1..], rules, id, i);
    }
  }

  /** What a clear puts behind: of the turns not yet distilled, exactly those sent by then, beside those already
      behind the watermark. */
  lemma ClearCovers(s: State, user: UserId, id: SessionId, i: nat, rules: Rules)
    requires Inv(s) && id in s.sessions && s.sessions[id].user == user && i < |s.sessions[id].turns|
    requires s.sessions[id].turns[i].id !in s.used
    ensures Behind(Do(s, Clear(user), rules), id, i)
            <==> s.sessions[id].turns[i].at <= s.clock
                 || !NewerThan(s.sessions[id].turns[i].at, s.sessions[id].watermark)
  {
  }

  /** A turn stored late, sent at or before the watermark or the clear in force, is out from the start. */
  lemma StoredLateStaysOut(s: State, id: SessionId, t: TurnId, visible: bool, at: Time, stamped: Time,
                           actions: seq<Action>, rules: Rules)
    requires Inv(s) && Possible(s, Message(id, t, visible, at, stamped)) && !NewerThan(at, Floor(s, id))
    requires IsRun(Do(s, Message(id, t, visible, at, stamped), rules), actions, rules)
    ensures t !in Then(Do(s, Message(id, t, visible, at, stamped), rules), actions, rules).used
  {
    var s' := Do(s, Message(id, t, visible, at, stamped), rules);
    StepKeepsInv(s, Message(id, t, visible, at, stamped), rules);
    BehindStaysOut(s', actions, rules, id, |s.sessions[id].turns|);
  }

  /** And what is not behind is not lost: the distillation of a session consumes exactly its visible turns that
      are ahead of both. */
  lemma DistilConsumesExactly(s: State, id: SessionId, attempt: Attempt, rules: Rules, i: nat)
    requires Inv(s) && id in s.sessions && i < |s.sessions[id].turns| && s.sessions[id].turns[i].id !in s.used
    requires attempt.Parsed? || attempt.UnusableReply?
    ensures var t := s.sessions[id].turns[i];
            t.id in Distil(s, id, attempt, rules).used <==> t.visible && !Behind(s, id, i)
  {
    var session, t := s.sessions[id], s.sessions[id].turns[i];
    assert SessionOk(s, id);
    VisibleAre(session.turns, Floor(s, id));
    if t.visible && NewerThan(t.at, Floor(s, id)) { assert t.id in Visible(session.turns, Floor(s, id)); }
    if t.id in Visible(session.turns, Floor(s, id)) {
      var j :| 0 <= j < |session.turns| && session.turns[j].id == t.id && session.turns[j].visible
               && NewerThan(session.turns[j].at, Floor(s, id));
      assert i == j;
    }
  }

  /** What is told of an attempt: that the session is gone, that its last message is not after the clear, that it has
      no visible turn ahead of both, or, with one, what came of the reply. */
  lemma StatusTells(s: State, id: SessionId, attempt: Attempt)
    ensures var status := StatusOf(s, id, attempt);
            && (status.Gone? <==> id !in s.sessions)
            && (status.BeforeClear? <==> id in s.sessions && ClearedAt(s, s.sessions[id].user).Some?
                                         && s.sessions[id].lastMessageAt <= ClearedAt(s, s.sessions[id].user).value)
            && (status.NoNewTurns? <==> id in s.sessions && !status.BeforeClear? && NothingAhead(s, id))
            && (id in s.sessions && !status.BeforeClear? && !NothingAhead(s, id) ==>
                  (status.Denied? <==> attempt.QuotaDenied?) && (status.Threw? <==> attempt.ProviderThrew?)
                  && (status.Unusable? <==> attempt.UnusableReply?) && (status.Folded? <==> attempt.Parsed?))
  {
    if id in s.sessions {
      var session := s.sessions[id];
      var turns := Visible(session.turns, Floor(s, id));
      VisibleAre(session.turns, Floor(s, id));
      if turns != [] { assert turns[0] in turns; }
      if !NothingAhead(s, id) {
        var i :| 0 <= i < |session.turns| && session.turns[i].visible && NewerThan(session.turns[i].at, Floor(s, id));
        assert session.turns[i].id in turns;
      }
    }
  }

  ghost predicate NothingAhead(s: State, id: SessionId)
    requires id in s.sessions
  {
    forall i :: 0 <= i < |s.sessions[id].turns| && s.sessions[id].turns[i].visible ==>
      !NewerThan(s.sessions[id].turns[i].at, Floor(s, id))
  }

  // ---------- a processed session is left alone ----------

  ghost predicate CaughtUp(s: State, id: SessionId) {
    id in s.sessions && s.sessions[id].watermark == Some(s.sessions[id].lastMessageAt)
  }

  /** THE SWEEP COMES BACK. Once a session has got a message, and time has passed, it is selected exactly when it has
      then been quiet for more than six hours and was not processed up to that message. */
  lemma QuietUnprocessedIsSelected(s: State, id: SessionId, t: TurnId, visible: bool, at: Time, stamped: Time,
                                   until: Time, rules: Rules)
    requires Inv(s) && Possible(s, Message(id, t, visible, at, stamped)) && until >= s.clock
    ensures var s' := Do(Do(s, Message(id, t, visible, at, stamped), rules), Wait(until), rules);
            Selected(s', id)
            <==> until - stamped > 6 * 60 * 60 * 1000 && s.sessions[id].watermark != Some(stamped)
    ensures stamped > s.sessions[id].lastMessageAt ==> s.sessions[id].watermark != Some(stamped)
  {
    assert SessionOk(s, id);
  }

  /** A session that was processed, whatever came of it, is not selected again until it gets a message; a
      closed quota and a provider failure leave it selected as it was. */
  lemma {:induction false} ProcessedIsNotReselected(s: State, actions: seq<Action>, rules: Rules, id: SessionId)
    requires CaughtUp(s, id) && IsRun(s, actions, rules)
    requires forall i :: 0 <= i < |actions| ==> !(actions[i].Message? && actions[i].id == id)
    ensures !Selected(Then(s, actions, rules), id)
    decreases |actions|
  {
    if actions != [] {
      var s1 := Do(s, actions[0], rules);
      assert CaughtUp(s1, id) by { assert !(actions[0].Message? && actions[0].id == id); }
      ProcessedIsNotReselected(s1, actions[1..], rules, id);
    }
  }

  lemma ProcessingCatchesUp(s: State, id: SessionId, attempt: Attempt, rules: Rules)
    requires id in s.sessions
    ensures var status, s' := StatusOf(s, id, attempt), Distil(s, id, attempt, rules);
            if status.Denied? || status.Threw? then s' == s else CaughtUp(s', id)
  {
  }

  // ---------- the profile that forms ----------

  ghost predicate ProfilesBounded(s: State, rules: Rules) {
    forall u :: u in s.profiles ==> ProfileBounded(s.profiles[u].profile, rules)
  }

  /** At most eight gaps, distinct, in vocabulary, each with its stamp; a known register; a nudge of at most one
      step; a name of at most forty characters. */
  ghost predicate ProfileBounded(p: Profile, rules: Rules) {
    && Bounded(p.stamps, rules.vocab) && Counted(p) && p.gaps == KeysOf(p.stamps)
    && (p.register.value.Some? ==> p.register.value.value in rules.registers)
    && -1 <= p.depth.nudge <= 1
    && (p.statedName.Some? ==> 0 < |p.statedName.value| <= 40)
  }

  lemma KeysAreStamped(stamps: seq<Stamp>, vocab: set<string>)
    requires Bounded(stamps, vocab)
    ensures GoodGaps(KeysOf(stamps), vocab)
  {
    var keys := KeysOf(stamps);
    forall k | k in keys ensures k in vocab {
      var i :| 0 <= i < |keys| && keys[i] == k;
      assert stamps[i] in stamps;
    }
  }

  lemma RefoldKeepsBounded(p: Profile, reply: Json, rules: Rules, now: Time)
    requires ProfileBounded(p, rules)
    ensures ProfileBounded(Refolded(p, reply, rules, now), rules)
  {
    KeysAreStamped(p.stamps, rules.vocab);
    ParseClamps(reply, p.gaps, rules.registers, rules.vocab, rules.trim);
    FoldIsBounded(p, Read(reply, p, rules), rules, now);
  }

  lemma FoldIsBounded(p: Profile, d: Distilled, rules: Rules, now: Time)
    requires ProfileBounded(p, rules) && Clamped(d, rules.registers, rules.vocab)
    ensures ProfileBounded(Fold(p, d, rules.vocab, now), rules)
  {
    FoldKeepsGapsBounded(p.stamps, d.gaps, rules.vocab, p.sessionsDistilled + 1, now);
    FoldKeepsCounted(p, d, rules.vocab, now);
  }

  /** A reply that gives no list of gaps says the stored ones again: they head the list still, in their order. */
  lemma SilentReplyKeepsTheGaps(p: Profile, reply: Json, rules: Rules, now: Time)
    requires ProfileBounded(p, rules) && StampedBy(p.stamps, now) && reply.gaps.None?
    ensures p.gaps <= Refolded(p, reply, rules, now).gaps
  {
    KeysAreStamped(p.stamps, rules.vocab);
    FoldHeadsWithReport(p, (Read(reply, p, rules), now), rules.vocab);
  }

  lemma StepKeepsBounded(s: State, a: Action, rules: Rules)
    requires ProfilesBounded(s, rules)
    ensures ProfilesBounded(Do(s, a, rules), rules)
  {
    if a.Attempted? && StatusOf(s, a.id, a.attempt).Folded? {
      var p := ProfileOf(s, s.sessions[a.id].user);
      assert ProfileBounded(p, rules);
      RefoldKeepsBounded(p, a.attempt.reply, rules, s.clock);
    }
  }

  /** WHATEVER THE MODEL REPLIES, over any run of messages, clears and distillations every profile stays inside
      its bounds. */
  lemma {:induction false} ProfilesStayBounded(s: State, actions: seq<Action>, rules: Rules)
    requires ProfilesBounded(s, rules)
    ensures ProfilesBounded(Then(s, actions, rules), rules)
    decreases |actions|
  {
    if actions != [] {
      StepKeepsBounded(s, actions[0], rules);
      ProfilesStayBounded(Do(s, actions[0], rules), actions[1..], rules);
    }
  }

  // ---------- a profile is the fold of what was distilled since the clear ----------

  /** The conversations a reader's profile should come from, one step on: a clear forgets them, a parsed reply to a
      session of theirs adds one, nothing else counts. */
  function Remembered(s: State, a: Action, rules: Rules, u: UserId, before: seq<Conversation>): seq<Conversation> {
    if a == Clear(u) then []
    else if a.Attempted? && a.attempt.Parsed? && StatusOf(s, a.id, a.attempt).Folded? && s.sessions[a.id].user == u then
      before + [(Read(a.attempt.reply, ProfileOf(s, u), rules), s.clock)]
    else before
  }

  function Conversations(s: State, actions: seq<Action>, rules: Rules, u: UserId, before: seq<Conversation>):
    seq<Conversation>
    decreases |actions|
  {
    if actions == [] then before
    else Conversations(Do(s, actions[0], rules), actions[1..], rules, u, Remembered(s, actions[0], rules, u, before))
  }

  /** The reader's profile is these conversations folded, and none is later than now. */
  ghost predicate ComesFrom(s: State, rules: Rules, u: UserId, run: seq<Conversation>) {
    ProfileOf(s, u) == FoldRun(EMPTY_PROFILE, run, rules.vocab) && InOrder(run)
    && forall i :: 0 <= i < |run| ==> run[i].1 <= s.clock
  }

  lemma StepComesFrom(s: State, a: Action, rules: Rules, u: UserId, before: seq<Conversation>)
    requires Possible(s, a) && ComesFrom(s, rules, u, before)
    ensures ComesFrom(Do(s, a, rules), rules, u, Remembered(s, a, rules, u, before))
  {
    match a {
      case Attempted(id, attempt) => AttemptComesFrom(s, id, attempt, rules, u, before);
      case _ =>
    }
  }

  lemma AttemptComesFrom(s: State, id: SessionId, attempt: Attempt, rules: Rules, u: UserId, before: seq<Conversation>)
    requires ComesFrom(s, rules, u, before)
    ensures ComesFrom(Distil(s, id, attempt, rules), rules, u,
                      Remembered(s, Attempted(id, attempt), rules, u, before))
  {
    var s' := Distil(s, id, attempt, rules);
    if StatusOf(s, id, attempt).Folded? && s.sessions[id].user == u {
      OneMoreConversation(before, Read(attempt.reply, ProfileOf(s, u), rules), s.clock, rules.vocab);
    } else {
      assert ProfileOf(s', u) == ProfileOf(s, u);
    }
  }

  lemma OneMoreConversation(before: seq<Conversation>, d: Distilled, now: Time, vocab: set<string>)
    requires InOrder(before) && forall i :: 0 <= i < |before| ==> before[i].1 <= now
    ensures FoldRun(EMPTY_PROFILE, before + [(d, now)], vocab)
            == Fold(FoldRun(EMPTY_PROFILE, before, vocab), d, vocab, now)
    ensures InOrder(before + [(d, now)])
  {
    assert (before + [(d, now)])[..|before|] == before;
  }

  /**
   WHAT IS STORED IS WHAT WAS DISTILLED. Over any run of messages, clears and distillations of any outcome, a reader's
   profile is the fold, from nothing, of the replies parsed for that reader since the last clear, in their order and
   at their times. So everything proved of a fold over conversations holds of every stored profile.
   */
  lemma {:induction false} ProfileIsItsConversations(s: State, actions: seq<Action>, rules: Rules, u: UserId,
                                                     before: seq<Conversation>)
    requires IsRun(s, actions, rules) && ComesFrom(s, rules, u, before)
    ensures ComesFrom(Then(s, actions, rules), rules, u, Conversations(s, actions, rules, u, before))
    decreases |actions|
  {
    if actions != [] {
      StepComesFrom(s, actions[0], rules, u, before);
      ProfileIsItsConversations(Do(s, actions[0], rules), actions[1..], rules, u,
                                Remembered(s, actions[0], rules, u, before));
    }
  }

  /** So of a reader with no profile yet: the register stored is the vote of those conversations, the nudge their
      evidence, the name the last one stated, and the count how many they were. */
  lemma StoredProfileIsTheVote(s: State, actions: seq<Action>, rules: Rules, u: UserId)
    requires IsRun(s, actions, rules) && u !in s.profiles
    ensures var p, run := ProfileOf(Then(s, actions, rules), u), Conversations(s, actions, rules, u, []);
            && p.register == Vote(RegistersOf(run)) && p.depth == Nudged(NudgesOf(run))
            && p.statedName == LastStated(run) && p.sessionsDistilled == |run|
  {
    var run := Conversations(s, actions, rules, u, []);
    ProfileIsItsConversations(s, actions, rules, u, []);
    ProfileIsTheVote(run, rules.vocab);
    LastNameStands(EMPTY_PROFILE, run, rules.vocab);
    RunCounts(EMPTY_PROFILE, run, rules.vocab);
  }

  // ---------- why the operations must be atomic ----------

  /** What a distillation reads that found its session row as `before` and its transcript as `loaded`. The
      transcript query has no upper bound in time. */
  function Consumes(before: Session, loaded: Session, cleared: Option<Time>): seq<TurnId> {
    if BelowFloor(before, cleared) then [] else Visible(loaded.turns, Since(before, cleared))
  }

  lemma OnlyThisTurn(turns: seq<Turn>, t: Turn, since: Option<Time>)
    requires forall i :: 0 <= i < |turns| ==> turns[i].id != t.id
    ensures t.id in Visible(turns + [t], since) <==> t.visible && NewerThan(t.at, since)
  {
    VisibleAre(turns + [t], since);
    if t.visible && NewerThan(t.at, since) { assert (turns + [t])[|turns|] == t; }
  }

  /** A message stored between the two reads is consumed now and, the watermark being the earlier
      `lastMessageAt`, again by the next distillation: exactly when the first one reads at all, and the message
      is visible and was sent after what that one claims. */
  lemma TornReadDistilsTwice(before: Session, t: Turn, stamped: Time, cleared: Option<Time>)
    requires before.watermark.Some? ==> before.watermark.value <= before.lastMessageAt
    requires stamped >= t.at && forall i :: 0 <= i < |before.turns| ==> before.turns[i].id != t.id
    ensures var loaded := before.(turns := before.turns + [t], lastMessageAt := stamped);
            var after := loaded.(watermark := Some(before.lastMessageAt));
            t.id in Consumes(before, loaded, cleared) && t.id in Consumes(after, after, cleared)
            <==> !BelowFloor(before, cleared) && t.visible && t.at > before.lastMessageAt
  {
    var loaded := before.(turns := before.turns + [t], lastMessageAt := stamped);
    var after := loaded.(watermark := Some(before.lastMessageAt));
    OnlyThisTurn(before.turns, t, Since(before, cleared));
    OnlyThisTurn(before.turns, t, Since(after, cleared));
  }

  // ---------- the method ----------

  class ProfileStore {
    var sessions: map<SessionId, Session>
    var profiles: map<UserId, Stored>
    var clock: Time
    ghost var used: seq<TurnId>

    ghost function Now(): State
      reads this
    {
      State(sessions, profiles, clock, used)
    }

    method LoadVisibleTranscript(id: SessionId, since: Option<Time>) returns (turns: seq<TurnId>)
      requires id in sessions
      ensures turns == Visible(sessions[id].turns, since)
    {
      var rows := sessions[id].turns;
      turns := [];
      for i := 0 to |rows|
        invariant turns == Visible(rows[..i], since)
      {
        assert rows[..i + 1][..i] == rows[..i];
        if rows[i].visible && (since.None? || rows[i].at > since.value) { turns := turns + [rows[i].id]; }
      }
      assert rows[..|rows|] == rows;
    }

    method DistilSession(id: SessionId, attempt: Attempt, rules: Rules) returns (status: Status)
      requires Inv(Now())
      modifies this
      ensures Now() == Distil(old(Now()), id, attempt, rules) && status == StatusOf(old(Now()), id, attempt)
      ensures Inv(Now())
    {
      DistilKeepsInv(Now(), id, attempt, rules);
      if id !in sessions { return Gone; }
      var session := sessions[id];
      var claimed := session.lastMessageAt;
      var cleared := if session.user in profiles then profiles[session.user].clearedAt else None;
      if cleared.Some? && session.lastMessageAt <= cleared.value {
        sessions := sessions[id := session.(watermark := Some(claimed))];
        return BeforeClear;
      }
      var since := session.watermark;
      if cleared.Some? && (since.None? || since.value < cleared.value) { since := cleared; }
      var turns := LoadVisibleTranscript(id, since);
      if turns == [] {
        sessions := sessions[id := session.(watermark := Some(claimed))];
        return NoNewTurns;
      }
      match attempt {
        case QuotaDenied => return Denied;
        case ProviderThrew => return Threw;
        case UnusableReply =>
          sessions := sessions[id := session.(watermark := Some(claimed))];
          used := used + turns;
          return Unusable;
        case Parsed(reply) =>
          var current := if session.user in profiles then profiles[session.user].profile else EMPTY_PROFILE;
          var d := ParseDistilled(reply, current.gaps, rules.registers, rules.vocab, rules.trim);
          var folded := FoldProfile(current, d, rules.vocab, clock);
          profiles := profiles[session.user := Stored(folded, cleared)];
          sessions := sessions[id := session.(watermark := Some(claimed))];
          used := used + turns;
          return Folded;
      }
    }
  }
}
