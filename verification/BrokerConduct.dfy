/**
 What the broker operations keep to, over any run: nobody's operation touches another user's tables; every connection
 is held under a disclaimer its own user accepted for that broker; a refusal gives a true reason and writes nothing;
 account names stay distinct, and nobody is left without an account.
 */
module BrokerConduct {
  import opened Wrappers
  import opened BrokerModel
  import opened BrokerInvariant
  import opened BrokerProjection
  import opened BrokerFootprint

  // ---------- nobody else's ----------

  /** Nothing of this user's has been touched. */
  ghost predicate Untroubled(s: Store, s': Store, v: UserId) {
    && (forall c :: Owns(s, v, c) || Owns(s', v, c) ==> c in s.conns && c in s'.conns && s'.conns[c] == s.conns[c])
    && (forall k :: OwnsAccount(s, v, k) || OwnsAccount(s', v, k) ==>
          k in s.accounts && k in s'.accounts && s'.accounts[k] == s.accounts[k])
    && (forall h: BrokerHolding :: h.user == v ==> (h in s'.holdings <==> h in s.holdings))
    && (forall h: ManualHolding :: h.user == v ==> (h in s'.manual <==> h in s.manual))
    && (forall t :: t in s.auth && s.auth[t].user == v ==> t in s'.auth && s'.auth[t] == s.auth[t])
    && (forall t :: t in s'.auth && s'.auth[t].user == v ==> t in s.auth && s.auth[t] == s'.auth[t])
  }

  /** Whatever a step acts on is its user's own. */
  lemma ActsOnItsOwn(s: Store, a: Action, c: ConnId)
    requires Integrity(s) && Enabled(s, a) && c in s.conns
    requires Severs(s, a, c) || Resumes(s, a, c) || Removes(s, a, c) || Upserted(s, a) == Some(c)
             || ((a.DoSync? || a.DoSyncDead?) && a.c == c)
    ensures s.conns[c].user == Actor(a)
  {
    if Upserted(s, a) == Some(c) { FoundHasKey(s, a.user, a.broker, a.x.ref.value); }
  }

  lemma ActsOnNobodyElses(s: Store, a: Action, c: ConnId)
    requires Integrity(s) && Enabled(s, a) && c in s.conns && s.conns[c].user != Actor(a)
    ensures !Severs(s, a, c) && !Resumes(s, a, c) && !Removes(s, a, c) && Upserted(s, a) != Some(c)
    ensures !((a.DoSync? || a.DoSyncDead?) && a.c == c)
  {
    if Upserted(s, a) == Some(c) { ActsOnItsOwn(s, a, c); }
  }

  lemma OthersConnsStand(s: Store, a: Action, v: UserId, c: ConnId)
    requires Integrity(s) && Enabled(s, a) && v != Actor(a) && (Owns(s, v, c) || Owns(Step(s, a), v, c))
    ensures c in s.conns && c in Step(s, a).conns && Step(s, a).conns[c] == s.conns[c]
  {
    StepMovesConns(s, a);
    if c in s.conns {
      if c in Step(s, a).conns { assert ConnMoves(s, a, c, s.conns[c], Step(s, a).conns[c]); }
      ActsOnNobodyElses(s, a, c);
    }
  }

  /** Nor does it touch an account of anyone else's. */
  lemma TouchesNobodyElses(s: Store, a: Action, k: AccountId)
    requires k in s.accounts && s.accounts[k].user != Actor(a)
    ensures !Binds(s, a, k) && !Deletes(s, a, k) && !Patches(s, a, k) && !Wipes(s, a, k)
    ensures !(Rescues(s, a) && (k == a.a || k == a.to)) && !(Enters(s, a) && a.h.account == k)
  {
  }

  lemma OthersAccountsStand(s: Store, a: Action, v: UserId, k: AccountId)
    requires Integrity(s) && Enabled(s, a) && v != Actor(a) && (OwnsAccount(s, v, k) || OwnsAccount(Step(s, a), v, k))
    ensures k in s.accounts && k in Step(s, a).accounts && Step(s, a).accounts[k] == s.accounts[k]
  {
    StepMovesAccounts(s, a);
    WasAlreadyTheirs(s, a, Step(s, a), v, k);
    TouchesNobodyElses(s, a, k);
    assert AccountMoves(s, a, k, s.accounts[k], Step(s, a).accounts[k]);
    if s.accounts[k].conn.Some? { ActsOnNobodyElses(s, a, s.accounts[k].conn.value); }
  }

  lemma WasAlreadyTheirs(s: Store, a: Action, s': Store, v: UserId, k: AccountId)
    requires AccountsMove(s, a, s') && v != Actor(a) && (OwnsAccount(s, v, k) || OwnsAccount(s', v, k))
    ensures OwnsAccount(s, v, k)
  {
    if k in s.accounts && k in s'.accounts { assert AccountMoves(s, a, k, s.accounts[k], s'.accounts[k]); }
  }

  lemma SnapshotIsTheUsers(rows: seq<BrokerHolding>, u: UserId, c: ConnId)
    requires SnapshotOf(rows, u, c)
    ensures forall h :: h in rows ==> h.user == u && h.conn == c
  {
    forall h | h in rows ensures h.user == u && h.conn == c { var i :| 0 <= i < |rows| && rows[i] == h; }
  }

  lemma OthersHoldingsStand(s: Store, a: Action, v: UserId, h: BrokerHolding)
    requires Integrity(s) && Enabled(s, a) && v != Actor(a) && h.user == v
    ensures h in Step(s, a).holdings <==> h in s.holdings
  {
    StepMovesHoldings(s, a);
    if a.DoSync? { SnapshotIsTheUsers(a.rows, a.user, a.c); }
    if h in s.holdings { ActsOnNobodyElses(s, a, h.conn); }
  }

  lemma OthersManualStands(s: Store, a: Action, v: UserId, h: ManualHolding)
    requires Integrity(s) && Enabled(s, a) && v != Actor(a) && h.user == v
    ensures h in Step(s, a).manual <==> h in s.manual
  {
    StepMovesManual(s, a);
    if h in s.manual { TouchesNobodyElses(s, a, h.account); }
    ManualIsTheirs(s, a, Step(s, a), v, h);
  }

  lemma ManualIsTheirs(s: Store, a: Action, s': Store, v: UserId, h: ManualHolding)
    requires ManualMoves(s, a, s') && v != Actor(a) && h.user == v
    requires h in s.manual ==> !Wipes(s, a, h.account) && !(Rescues(s, a) && h.account == a.to)
                               && !(Enters(s, a) && a.h.account == h.account)
    ensures h in s'.manual <==> h in s.manual
  {
  }

  /** NO OPERATION CROSSES USERS: it leaves every connection, account, holding and authorization of everyone else as it
      was. */
  lemma StepTroublesNobodyElse(s: Store, a: Action, v: UserId)
    requires Integrity(s) && Enabled(s, a) && v != Actor(a)
    ensures Untroubled(s, Step(s, a), v)
  {
    forall c | Owns(s, v, c) || Owns(Step(s, a), v, c)
      ensures c in s.conns && c in Step(s, a).conns && Step(s, a).conns[c] == s.conns[c]
    {
      OthersConnsStand(s, a, v, c);
    }
    forall k | OwnsAccount(s, v, k) || OwnsAccount(Step(s, a), v, k)
      ensures k in s.accounts && k in Step(s, a).accounts && Step(s, a).accounts[k] == s.accounts[k]
    {
      OthersAccountsStand(s, a, v, k);
    }
    forall h: BrokerHolding | h.user == v ensures h in Step(s, a).holdings <==> h in s.holdings {
      OthersHoldingsStand(s, a, v, h);
    }
    forall h: ManualHolding | h.user == v ensures h in Step(s, a).manual <==> h in s.manual {
      OthersManualStands(s, a, v, h);
    }
    StepMovesAuth(s, a);
  }

  lemma UntroubledOn(s: Store, s1: Store, s2: Store, v: UserId)
    requires Untroubled(s, s1, v) && Untroubled(s1, s2, v)
    ensures Untroubled(s, s2, v)
  {
    forall c | Owns(s, v, c) || Owns(s2, v, c) ensures c in s.conns && c in s2.conns && s2.conns[c] == s.conns[c] {
      assert Owns(s1, v, c);
    }
    forall k | OwnsAccount(s, v, k) || OwnsAccount(s2, v, k)
      ensures k in s.accounts && k in s2.accounts && s2.accounts[k] == s.accounts[k]
    {
      assert OwnsAccount(s1, v, k);
    }
  }

  /** Nor does any run of them. */
  lemma {:induction false} RunTroublesNobodyElse(s: Store, actions: seq<Action>, v: UserId)
    requires Integrity(s) && IsRun(s, actions) && forall i :: 0 <= i < |actions| ==> Actor(actions[i]) != v
    ensures Untroubled(s, After(s, actions), v)
    decreases |actions|
  {
    if actions != [] {
      StepKeepsIntegrity(s, actions[0]);
      StepTroublesNobodyElse(s, actions[0], v);
      RunTroublesNobodyElse(Step(s, actions[0]), actions[1..], v);
      UntroubledOn(s, Step(s, actions[0]), After(s, actions), v);
    }
  }

  // ---------- consent on record ----------

  ghost predicate Asked(a: Action, t: string, st: AuthState) {
    && a.DoBegin? && a.token == t && a.user == st.user && a.broker == st.broker && a.until == st.expiresAt
    && a.accepted == Some(st.disclaimer) && st.disclaimer.version != ""
  }

  /** The user accepted this disclaimer for this broker. */
  ghost predicate Agreed(a: Action, n: Conn) {
    && (a.DoBegin? || a.DoIntegrate?) && a.user == n.user && a.broker == n.broker
    && a.accepted == Some(n.disclaimer) && n.disclaimer.version != ""
  }

  ghost predicate OnRecord(s: Store, past: seq<Action>) {
    && (forall t :: t in s.auth ==> exists i :: 0 <= i < |past| && Asked(past[i], t, s.auth[t]))
    && (forall c :: c in s.conns ==> exists i :: 0 <= i < |past| && Agreed(past[i], s.conns[c]))
  }

  lemma ConnectIsAgreed(s: Store, past: seq<Action>, a: Action, n: Conn)
    requires OnRecord(s, past) && Upserted(s, a).Some? && HoldsSession(s, a, n)
    requires n.user == a.user && n.broker == a.broker
    ensures exists i :: 0 <= i < |past + [a]| && Agreed((past + [a])[i], n)
  {
    if a.DoIntegrate? {
      assert Agreed((past + [a])[|past|], n);
    } else {
      var i :| 0 <= i < |past| && Asked(past[i], a.state.value, s.auth[a.state.value]);
      assert Agreed((past + [a])[i], n);
    }
  }

  lemma StepKeepsRecord(s: Store, past: seq<Action>, a: Action)
    requires Integrity(s) && Enabled(s, a) && OnRecord(s, past)
    ensures OnRecord(Step(s, a), past + [a])
  {
    StepMovesAuth(s, a);
    StepMovesConns(s, a);
    forall t | t in Step(s, a).auth
      ensures exists i :: 0 <= i < |past + [a]| && Asked((past + [a])[i], t, Step(s, a).auth[t])
    {
      StateIsOnRecord(s, past, a, Step(s, a), t);
    }
    forall c | c in Step(s, a).conns
      ensures exists i :: 0 <= i < |past + [a]| && Agreed((past + [a])[i], Step(s, a).conns[c])
    {
      ConnIsOnRecord(s, past, a, Step(s, a), c);
    }
  }

  lemma StateIsOnRecord(s: Store, past: seq<Action>, a: Action, s': Store, t: string)
    requires OnRecord(s, past) && AuthMoves(s, a, s') && t in s'.auth
    ensures exists i :: 0 <= i < |past + [a]| && Asked((past + [a])[i], t, s'.auth[t])
  {
    if t in s.auth {
      var i :| 0 <= i < |past| && Asked(past[i], t, s.auth[t]);
      assert Asked((past + [a])[i], t, s'.auth[t]);
    } else {
      assert Asked((past + [a])[|past|], t, s'.auth[t]);
    }
  }

  lemma ConnIsOnRecord(s: Store, past: seq<Action>, a: Action, s': Store, c: ConnId)
    requires OnRecord(s, past) && Enabled(s, a) && ConnsMove(s, a, s') && c in s'.conns
    ensures exists i :: 0 <= i < |past + [a]| && Agreed((past + [a])[i], s'.conns[c])
  {
    if c in s.conns {
      assert ConnMoves(s, a, c, s.conns[c], s'.conns[c]);
      if Upserted(s, a) == Some(c) {
        FoundHasKey(s, a.user, a.broker, a.x.ref.value);
        ConnectIsAgreed(s, past, a, s'.conns[c]);
      } else {
        var i :| 0 <= i < |past| && Agreed(past[i], s.conns[c]);
        assert Agreed((past + [a])[i], s'.conns[c]);
      }
    } else {
      ConnectIsAgreed(s, past, a, s'.conns[c]);
    }
  }

  lemma {:induction false} RunKeepsRecord(s: Store, past: seq<Action>, actions: seq<Action>)
    requires Integrity(s) && OnRecord(s, past) && IsRun(s, actions)
    ensures OnRecord(After(s, actions), past + actions)
    decreases |actions|
  {
    if actions == [] {
      assert past + actions == past;
    } else {
      StepKeepsIntegrity(s, actions[0]);
      StepKeepsRecord(s, past, actions[0]);
      RunKeepsRecord(Step(s, actions[0]), past + [actions[0]], actions[1..]);
      assert past + [actions[0]] + actions[1..] == past + actions;
    }
  }

  /**
   NO CONNECTION WITHOUT CONSENT. After any run from nothing, every connection stands under a disclaimer that its own
   user accepted, for its broker, in an operation of that run.
   */
  lemma ConsentIsOnRecord(actions: seq<Action>, c: ConnId)
    requires IsRun(EMPTY_STORE, actions) && c in After(EMPTY_STORE, actions).conns
    ensures exists i :: 0 <= i < |actions| && Agreed(actions[i], After(EMPTY_STORE, actions).conns[c])
  {
    RunKeepsRecord(EMPTY_STORE, [], actions);
    assert [] + actions == actions;
  }

  /** And a connect that completes an authorization completes one its own user began, for this broker, in time. */
  lemma CompletionWasBegun(actions: seq<Action>, a: Action)
    requires IsRun(EMPTY_STORE, actions) && a.DoComplete?
    requires Consumable(After(EMPTY_STORE, actions), a.user, a.broker, a.state, a.now)
    ensures exists i :: 0 <= i < |actions| && actions[i].DoBegin? && Some(actions[i].token) == a.state
                        && actions[i].user == a.user && actions[i].broker == a.broker && a.now < actions[i].until
  {
    RunKeepsRecord(EMPTY_STORE, [], actions);
    assert [] + actions == actions;
    WasBegun(After(EMPTY_STORE, actions), actions, a);
  }

  lemma WasBegun(s: Store, past: seq<Action>, a: Action)
    requires OnRecord(s, past) && a.DoComplete? && Consumable(s, a.user, a.broker, a.state, a.now)
    ensures exists i :: 0 <= i < |past| && past[i].DoBegin? && Some(past[i].token) == a.state
                        && past[i].user == a.user && past[i].broker == a.broker && a.now < past[i].until
  {
    var i :| 0 <= i < |past| && Asked(past[i], a.state.value, s.auth[a.state.value]);
    assert past[i].DoBegin?;
  }

  // ---------- refusals ----------

  ghost function RefusalIn(r: Reply): Option<Code> { if r.Refused? then Some(r.code) else None }

  /** What the caller is told when an operation does not go through. */
  ghost function Refusal(s: Store, a: Action): Option<Code>
    requires Enabled(s, a)
  {
    match a
    case DoSever(u, c) => RefusalIn(Sever(s, u, c).1)
    case DoActivate(u, c) => RefusalIn(Activate(s, u, c).1)
    case DoClear(u, c, confirm) => RefusalIn(Clear(s, u, c, confirm).1)
    case DoBegin(reg, u, b, accepted, token, until) => Begin(s, reg, u, b, accepted, token, until).1
    case DoIntegrate(reg, u, b, accepted, x, probe, newId, crash) =>
      RefusalIn(Integrate(s, reg, u, b, accepted, x, probe, newId, crash).1)
    case DoComplete(reg, u, b, state, expected, x, probe, now, newId, crash) =>
      RefusalIn(Complete(s, reg, u, b, state, expected, x, probe, now, newId, crash).1)
    case DoCreateAccount(u, id, name, b) => RefusalIn(CreateAccount(s, u, id, name, b).1)
    case DoLink(u, id, c, hasTransactions, confirm) => RefusalIn(Link(s, u, id, c, hasTransactions, confirm).1)
    case DoUnlink(u, id) => RefusalIn(Unlink(s, u, id).1)
    case DoDeleteAccount(u, id, hasTransactions, confirm) =>
      RefusalIn(DeleteAccount(s, u, id, hasTransactions, confirm).1)
    case DoPatch(u, id, name, retag) => RefusalIn(Patch(s, u, id, name, retag).1)
    case DoRescue(u, id, to, confirm, rows, book) => RefusalIn(Rescue(s, u, id, to, confirm, rows, book).1)
    case _ => None
  }

  /** What the caller is told when one does. */
  ghost predicate Tells(s: Store, a: Action, r: Reply) {
    match r
    case Refused(_) => true
    case Done(c) => Severs(s, a, c) || Resumes(s, a, c) || Upserted(s, a) == Some(c)
    case Cleared(_) => a.DoClear? && Clears(s, a, a.c)
    case Changed(k) =>
      Binds(s, a, k) || Deletes(s, a, k) || Patches(s, a, k) || (Creates(s, a) && k == a.a)
      || (Rescues(s, a) && k == a.to)
  }

  /** An answer names what was acted on: the connection switched or connected, the account changed, a rescue's
      destination. */
  lemma SwitchTells(s: Store, u: UserId, c: ConnId, k: AccountId, confirm: bool)
    requires Integrity(s)
    ensures Tells(s, DoSever(u, c), Sever(s, u, c).1) && Tells(s, DoActivate(u, c), Activate(s, u, c).1)
    ensures Tells(s, DoClear(u, c, confirm), Clear(s, u, c, confirm).1)
    ensures Tells(s, DoUnlink(u, k), Unlink(s, u, k).1)
  {
    if OwnsAccount(s, u, k) && s.accounts[k].conn.Some? { assert Owns(s, u, s.accounts[k].conn.value); }
  }

  lemma LinkTells(s: Store, u: UserId, k: AccountId, c: ConnId, hasTransactions: bool, confirm: bool)
    ensures Tells(s, DoLink(u, k, c, hasTransactions, confirm), Link(s, u, k, c, hasTransactions, confirm).1)
  {
    BindsExactly(s, DoLink(u, k, c, hasTransactions, confirm));
  }

  lemma DeletionTells(s: Store, u: UserId, k: AccountId, hasTransactions: bool, confirm: bool)
    requires Integrity(s)
    ensures Tells(s, DoDeleteAccount(u, k, hasTransactions, confirm),
                  DeleteAccount(s, u, k, hasTransactions, confirm).1)
  {
    DeletesExactly(s, u, k, hasTransactions, confirm);
  }

  lemma PatchTells(s: Store, u: UserId, k: AccountId, name: Option<string>, retag: Option<Broker>)
    ensures Tells(s, DoPatch(u, k, name, retag), Patch(s, u, k, name, retag).1)
  {
    PatchesExactly(s, u, k, name, retag);
  }

  lemma CreationTells(s: Store, u: UserId, k: AccountId, name: string, b: Broker)
    ensures Tells(s, DoCreateAccount(u, k, name, b), CreateAccount(s, u, k, name, b).1)
  {
  }

  lemma RescueTells(s: Store, a: Action)
    requires Integrity(s) && a.DoRescue?
    ensures Tells(s, a, Rescue(s, a.user, a.a, a.to, a.confirm, a.rows, a.book).1)
  {
    RescuesExactly(s, a);
  }

  lemma ConnectTells(s: Store, a: Action)
    requires Integrity(s) && Enabled(s, a)
    ensures a.DoIntegrate? ==>
              Tells(s, a, Integrate(s, a.reg, a.user, a.broker, a.accepted, a.x, a.probe, a.newId, a.crash).1)
    ensures a.DoComplete? ==>
              Tells(s, a, Complete(s, a.reg, a.user, a.broker, a.state, a.expected, a.x, a.probe, a.now, a.newId,
                                   a.crash).1)
  {
    if a.DoComplete? && a.state.Some? && a.state.value in s.auth && a.x.Session? && a.x.ref.Some? {
      SameConnsSameKey(s, Consume(s, a.state.value), a.user, a.broker, a.x.ref.value, a.newId);
    }
  }

  /** The reason a code gives, of a connection's operations. */
  ghost predicate ConnReason(s: Store, a: Action, code: Code)
    requires a.DoSever? || a.DoActivate? || a.DoClear?
  {
    match code
    case NotFound => !Owns(s, a.user, a.c)
    case InvalidState => a.DoClear? && Owns(s, a.user, a.c) && s.conns[a.c].enabled
    case ConfirmationRequired => a.DoClear? && !a.confirm && Owns(s, a.user, a.c) && !s.conns[a.c].enabled
    case _ => false
  }

  /** Of an authorization or a connect. */
  ghost predicate ConnectReason(s: Store, a: Action, code: Code)
    requires a.DoBegin? || a.DoIntegrate? || a.DoComplete?
  {
    match code
    case UnsupportedBroker => a.broker !in a.reg.implemented
    case NotInteractive => a.broker in a.reg.implemented && (a.broker in a.reg.interactive <==> a.DoIntegrate?)
    case DisclaimerRequired => !a.DoComplete? && (a.accepted.None? || a.accepted.value.version == "")
    case StateInvalid => a.DoComplete? && !exists t :: Spends(s, a, t)
    case NotFound =>
      a.DoComplete? && a.expected.Some?
      && !(Owns(s, a.user, a.expected.value) && s.conns[a.expected.value].broker == a.broker)
    case ExchangeFailed => a.DoComplete? && a.x.RejectedByBroker?
    case WrongDemat =>
      a.DoComplete? && a.x.Session? && a.expected.Some? && a.expected.value in s.conns
      && a.x.ref != Some(s.conns[a.expected.value].ref)
    case AccountRefMissing => !a.DoBegin? && a.x.Session? && (a.x.ref.None? || a.x.ref.value == "")
    case Unexpected =>
      !a.DoBegin? && (a.crash || a.x.Faulted? || (a.DoIntegrate? && !a.x.Session?)
                      || (a.x.Session? && a.probe.ProbeFaulted?))
    case _ => false
  }

  /** Of an account's operations. */
  ghost predicate AccountReason(s: Store, a: Action, code: Code)
    requires a.DoCreateAccount? || a.DoLink? || a.DoUnlink? || a.DoDeleteAccount? || a.DoPatch?
  {
    match code
    case NotFound => !OwnsAccount(s, a.user, a.a) || (a.DoLink? && !Owns(s, a.user, a.c))
    case DuplicateName =>
      (a.DoCreateAccount? && !NameIsFree(s, a.user, a.name, None))
      || (a.DoPatch? && a.rename.Some? && !NameIsFree(s, a.user, a.rename.value, Some(a.a)))
    case NotLinkable => a.DoLink? && a.a in s.accounts && s.accounts[a.a].broker == OTHER
    case AlreadyLinked =>
      a.DoLink? && ((a.a in s.accounts && s.accounts[a.a].conn.Some?)
                    || exists o :: o in s.accounts && s.accounts[o].conn == Some(a.c))
    case BrokerMismatch =>
      a.DoLink? && a.a in s.accounts && a.c in s.conns && s.accounts[a.a].broker != s.conns[a.c].broker
    case ConfirmationRequired =>
      (a.DoLink? && !a.confirm && (a.hasTransactions || exists h :: h in s.manual && h.account == a.a))
      || (a.DoDeleteAccount? && !a.confirm && a.hasTransactions)
    case NotLinked => a.DoUnlink? && a.a in s.accounts && s.accounts[a.a].conn.None?
    case AccountLinked =>
      a.a in s.accounts
      && ((a.DoDeleteAccount? && s.accounts[a.a].conn.Some?)
          || (a.DoPatch? && a.retag.Some? && a.retag.value != s.accounts[a.a].broker
              && (s.accounts[a.a].state != Manual || s.accounts[a.a].conn.Some?)))
    case LastAccount => a.DoDeleteAccount? && forall o :: OwnsAccount(s, a.user, o) ==> o == a.a
    case NothingToUpdate => a.DoPatch? && a.rename.None? && a.retag.None?
    case _ => false
  }

  /** Of a rescue. */
  ghost predicate RescueReason(s: Store, a: Action, code: Code)
    requires a.DoRescue?
  {
    match code
    case SameAccount => a.a == a.to
    case NotFound => !OwnsAccount(s, a.user, a.a) || !OwnsAccount(s, a.user, a.to)
    case NotLinked => a.a in s.accounts && s.accounts[a.a].conn.None?
    case DestinationLinked => a.to in s.accounts && s.accounts[a.to].state != Manual
    case BrokerMismatch => a.a in s.accounts && a.to in s.accounts && s.accounts[a.a].broker != s.accounts[a.to].broker
    case NothingToRescue => a.rows == []
    case Unrescuable => exists b :: b in a.rows && b.instrument.None?
    case ConfirmationRequired => !a.confirm
    case _ => false
  }

  ghost predicate Because(s: Store, a: Action, code: Code) {
    match a
    case DoSever(_, _) => ConnReason(s, a, code)
    case DoActivate(_, _) => ConnReason(s, a, code)
    case DoClear(_, _, _) => ConnReason(s, a, code)
    case DoBegin(_, _, _, _, _, _) => ConnectReason(s, a, code)
    case DoIntegrate(_, _, _, _, _, _, _, _) => ConnectReason(s, a, code)
    case DoComplete(_, _, _, _, _, _, _, _, _, _) => ConnectReason(s, a, code)
    case DoRescue(_, _, _, _, _, _) => RescueReason(s, a, code)
    case DoEnterManually(_) => false
    case DoSyncDead(_, _) => false
    case DoSync(_, _, _, _) => false
    case _ => AccountReason(s, a, code)
  }

  /** A REFUSAL IS TRUE AND WRITES NOTHING: whatever code the caller gets, its reason holds, and every table is as it
      was but for the authorization state a completion spent, and the session a cut connect had already written. */
  lemma RefusalsAreTrue(s: Store, a: Action)
    requires Integrity(s) && Enabled(s, a) && Refusal(s, a).Some?
    ensures Because(s, a, Refusal(s, a).value)
    ensures Crashed(a) || Step(s, a) == s.(auth := Step(s, a).auth)
    ensures !a.DoComplete? ==> Crashed(a) || Step(s, a) == s
  {
    match a {
      case DoLink(_, _, _, _, _) => LinkRefusals(s, a);
      case DoDeleteAccount(_, _, _, _) => AccountRefusals(s, a);
      case DoPatch(_, _, _, _) => AccountRefusals(s, a);
      case DoCreateAccount(_, _, _, _) => AccountRefusals(s, a);
      case DoRescue(_, _, _, _, _, _) => RescueRefusals(s, a);
      case DoIntegrate(_, _, _, _, _, _, _, _) => ConnectRefusals(s, a);
      case DoComplete(_, _, _, _, _, _, _, _, _, _) => ConnectRefusals(s, a);
      case _ =>
    }
  }

  lemma LinkRefusals(s: Store, a: Action)
    requires a.DoLink? && Refusal(s, a).Some?
    ensures AccountReason(s, a, Refusal(s, a).value) && Step(s, a) == s
  {
    if Bound(s, a.c) { var k :| BoundTo(s, k, a.c); assert s.accounts[k].conn == Some(a.c); }
    if HoldsManually(s, a.a) {
      var i :| 0 <= i < |s.manual| && s.manual[i].account == a.a;
      assert s.manual[i] in s.manual;
    }
  }

  lemma AccountRefusals(s: Store, a: Action)
    requires Integrity(s) && Enabled(s, a) && (a.DoCreateAccount? || a.DoDeleteAccount? || a.DoPatch?)
    requires Refusal(s, a).Some?
    ensures AccountReason(s, a, Refusal(s, a).value) && Step(s, a) == s
  {
    forall o ensures OwnsAccount(s, a.user, o) <==> o in s.accounts && s.accounts[o].user == a.user {}
  }

  lemma RescueRefusals(s: Store, a: Action)
    requires Integrity(s) && Enabled(s, a) && a.DoRescue? && Refusal(s, a).Some?
    ensures RescueReason(s, a, Refusal(s, a).value) && Step(s, a) == s
  {
    if !Expressible(a.rows) {
      var i :| 0 <= i < |a.rows| && a.rows[i].instrument.None?;
      assert a.rows[i] in a.rows;
    }
  }

  lemma ConnectRefusals(s: Store, a: Action)
    requires Enabled(s, a) && (a.DoIntegrate? || a.DoComplete?) && Refusal(s, a).Some?
    ensures ConnectReason(s, a, Refusal(s, a).value)
    ensures Crashed(a) || Step(s, a) == s.(auth := Step(s, a).auth)
    ensures a.DoIntegrate? ==> Crashed(a) || Step(s, a) == s
  {
    if a.DoComplete? && Consumable(s, a.user, a.broker, a.state, a.now)
       && a.broker in a.reg.implemented && a.broker in a.reg.interactive
    {
      assert Spends(s, a, a.state.value);
    }
  }

  // ---------- names and last accounts ----------

  /** The unique index on (user, name). */
  ghost predicate NamesDiffer(s: Store) {
    forall k, o :: k in s.accounts && o in s.accounts && SameName(s, k, o) ==> k == o
  }

  lemma StepKeepsNames(s: Store, a: Action)
    requires Integrity(s) && Enabled(s, a) && NamesDiffer(s)
    ensures NamesDiffer(Step(s, a))
  {
    StepMovesAccounts(s, a);
    forall k, o | k in Step(s, a).accounts && o in Step(s, a).accounts && k != o
      ensures SameName(Step(s, a), k, o) ==> k == o
    {
      NamesStayApart(s, a, Step(s, a), k, o);
    }
  }

  predicate SameName(s: Store, k: AccountId, o: AccountId)
    requires k in s.accounts && o in s.accounts
  {
    s.accounts[k].user == s.accounts[o].user && s.accounts[k].name == s.accounts[o].name
  }

  /** An account new or renamed has a name that was free. */
  lemma HasAFreeName(s: Store, a: Action, s': Store, k: AccountId)
    requires AccountsMove(s, a, s') && k in s'.accounts
    requires k in s.accounts ==> s'.accounts[k].name != s.accounts[k].name
    ensures NameIsFree(s, s'.accounts[k].user, s'.accounts[k].name, Some(k))
    ensures (a.DoPatch? || a.DoCreateAccount?) && k == a.a
  {
    if k in s.accounts { assert AccountMoves(s, a, k, s.accounts[k], s'.accounts[k]); }
  }

  lemma NamesStayApart(s: Store, a: Action, s': Store, k: AccountId, o: AccountId)
    requires AccountsMove(s, a, s') && NamesDiffer(s) && k in s'.accounts && o in s'.accounts && k != o
    ensures !SameName(s', k, o)
  {
    if k in s.accounts { assert AccountMoves(s, a, k, s.accounts[k], s'.accounts[k]); }
    if o in s.accounts { assert AccountMoves(s, a, o, s.accounts[o], s'.accounts[o]); }
    if !(k in s.accounts && s'.accounts[k].name == s.accounts[k].name) {
      HasAFreeName(s, a, s', k);
      assert o in s.accounts ==>
          (OwnsAccount(s, s'.accounts[k].user, o) <==> s.accounts[o].user == s'.accounts[k].user);
    } else if !(o in s.accounts && s'.accounts[o].name == s.accounts[o].name) {
      HasAFreeName(s, a, s', o);
      assert OwnsAccount(s, s'.accounts[o].user, k) <==> s.accounts[k].user == s'.accounts[o].user;
    }
  }

  ghost predicate HasAccount(s: Store, u: UserId) { exists k :: OwnsAccount(s, u, k) }

  lemma StepKeepsAnAccount(s: Store, a: Action, u: UserId)
    requires Integrity(s) && Enabled(s, a) && HasAccount(s, u)
    ensures HasAccount(Step(s, a), u)
  {
    StepMovesAccounts(s, a);
    var k :| OwnsAccount(s, u, k);
    var s' := Step(s, a);
    if k in s'.accounts {
      assert AccountMoves(s, a, k, s.accounts[k], s'.accounts[k]);
      assert OwnsAccount(s', u, k);
    } else if Deletes(s, a, k) {
      var o :| o != k && OwnsAccount(s, a.user, o);
      assert AccountMoves(s, a, o, s.accounts[o], s'.accounts[o]);
      assert OwnsAccount(s', u, o);
    } else {
      assert AccountMoves(s, a, a.to, s.accounts[a.to], s'.accounts[a.to]);
      assert OwnsAccount(s', u, a.to);
    }
  }

  /** Over any run names stay distinct, and whoever has an account keeps one. */
  lemma {:induction false} RunKeepsNamesAndAccounts(s: Store, actions: seq<Action>, u: UserId)
    requires Integrity(s) && IsRun(s, actions)
    ensures NamesDiffer(s) ==> NamesDiffer(After(s, actions))
    ensures HasAccount(s, u) ==> HasAccount(After(s, actions), u)
    decreases |actions|
  {
    if actions != [] {
      StepKeepsIntegrity(s, actions[0]);
      if NamesDiffer(s) { StepKeepsNames(s, actions[0]); }
      if HasAccount(s, u) { StepKeepsAnAccount(s, actions[0], u); }
      RunKeepsNamesAndAccounts(Step(s, actions[0]), actions[1..], u);
    }
  }
}
