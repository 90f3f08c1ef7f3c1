/**
 The lifecycle endpoints as methods on mutable tables (src/brokers/lifecycle.ts:214-526, 753-829), each
 proved to do exactly what BrokerModel says, and the results about a reconnect.
 */
module BrokerLifecycle {
  import opened Wrappers
  import opened BrokerModel
  import opened BrokerInvariant
  import opened BrokerProjection

  class BrokerStore {
    var conns: map<ConnId, Conn>
    var accounts: map<AccountId, Account>
    var holdings: seq<BrokerHolding>
    var manual: seq<ManualHolding>
    var auth: map<string, AuthState>

    ghost function State(): (s: Store)
      reads this
    {
      Store(conns, accounts, holdings, manual, auth)
    }

    constructor ()
      ensures State() == EMPTY_STORE && Integrity(State()) && Projected(State())
    {
      conns, accounts, holdings, manual, auth := map[], map[], [], [], map[];
    }

    /** requireConn: a foreign connection and a missing one are indistinguishable. */
    predicate Requires(user: UserId, c: ConnId)
      reads this
    {
      c in conns && conns[c].user == user
    }

    method LinkedAccountOf(c: ConnId) returns (found: Option<AccountId>)
      ensures found.Some? ==> BoundTo(State(), found.value, c)
      ensures found.None? ==> !Bound(State(), c)
      ensures OneAccountEach(State()) ==> found == LinkedAccount(State(), c)
    {
      if a :| a in accounts && accounts[a].conn == Some(c) {
        found := Some(a);
        if OneAccountEach(State()) { LinkedAccountIs(State(), a, c); }
      } else {
        found := None;
        assert forall a :: !BoundTo(State(), a, c);
      }
    }

    method CountHoldings(c: ConnId) returns (n: nat)
      ensures n == CountOf(holdings, c)
    {
      n := 0;
      for i := 0 to |holdings|
        invariant n == CountOf(holdings[..i], c)
      {
        assert holdings[..i + 1][..i] == holdings[..i];
        if holdings[i].conn == c { n := n + 1; }
      }
      assert holdings[..|holdings|] == holdings;
    }

    method SeverBindingOf(c: ConnId)
      requires c in conns
      modifies this
      ensures State() == SeverBinding(old(State()), c)
    {
      conns := conns[c := conns[c].(enabled := false)];
      accounts := map a | a in accounts ::
        if accounts[a].conn == Some(c) then accounts[a].(state := LinkedStale) else accounts[a];
    }

    method ResumeBindingOf(c: ConnId)
      requires c in conns
      modifies this
      ensures State() == ResumeBinding(old(State()), c)
    {
      conns := conns[c := conns[c].(enabled := true)];
      accounts := map a | a in accounts ::
        if accounts[a].conn == Some(c) then accounts[a].(state := LinkedLive) else accounts[a];
    }

    method SeverConnection(user: UserId, c: ConnId) returns (reply: Reply)
      requires Integrity(State())
      modifies this
      ensures (State(), reply) == Sever(old(State()), user, c)
      ensures Integrity(State()) && (reply.Done? ==> InProjection(State(), c) && !conns[c].enabled)
    {
      ghost var before := State();
      SwitchKeepsIntegrity(before, user, c);
      if !Requires(user, c) { return Refused(NotFound); }
      SeverBindingOf(c);
      SwitchProjects(before, c, c);
      return Done(c);
    }

    method ActivateConnection(user: UserId, c: ConnId) returns (reply: Reply)
      requires Integrity(State())
      modifies this
      ensures (State(), reply) == Activate(old(State()), user, c)
      ensures Integrity(State()) && (reply.Done? ==> InProjection(State(), c) && conns[c].enabled)
    {
      ghost var before := State();
      SwitchKeepsIntegrity(before, user, c);
      if !Requires(user, c) { return Refused(NotFound); }
      ResumeBindingOf(c);
      SwitchProjects(before, c, c);
      return Done(c);
    }

    /** Only from the inactive state, only confirmed. (A rescue also removes a connection; see BrokerRescue.) */
    method ClearData(user: UserId, c: ConnId, confirm: bool) returns (reply: Reply)
      requires Integrity(State())
      modifies this
      ensures (State(), reply) == Clear(old(State()), user, c, confirm)
      ensures Integrity(State())
      ensures reply.Cleared? ==> reply.wiped == |old(holdings)| - |holdings|
    {
      ghost var before := State();
      ClearKeepsIntegrity(before, user, c, confirm);
      if !Requires(user, c) { return Refused(NotFound); }
      if conns[c].enabled { return Refused(InvalidState); }
      if !confirm { return Refused(ConfirmationRequired); }
      var wiped := CountHoldings(c);
      accounts := map a | a in accounts ::
        if accounts[a].conn == Some(c) then accounts[a].(state := LinkedStale, conn := None) else accounts[a];
      conns := conns - {c};
      CascadeHoldings(c);
      CountedAreRemoved(before.holdings, c);
      return Cleared(wiped);
    }

    method CascadeHoldings(c: ConnId)
      modifies this`holdings
      ensures holdings == Without(old(holdings), c)
    {
      var rows := holdings;
      var kept: seq<BrokerHolding> := [];
      for i := 0 to |rows|
        invariant kept == Without(rows[..i], c)
      {
        assert rows[..i + 1][..i] == rows[..i];
        if rows[i].conn != c { kept := kept + [rows[i]]; }
      }
      assert rows[..|rows|] == rows;
      holdings := kept;
    }

    /** Write 1 of a connect: upsert on the demat's own key. */
    method UpsertConnection(user: UserId, broker: Broker, ref: string, live: bool, token: nat, d: Disclaimer,
                            newId: ConnId) returns (c: ConnId)
      requires UniqueKeys(State())
      modifies this`conns
      ensures (State(), c) == UpsertConn(old(State()), user, broker, ref, live, token, d, newId)
    {
      if k :| k in conns && conns[k].user == user && conns[k].broker == broker && conns[k].ref == ref {
        FindConnIs(State(), user, broker, ref, k);
        c := k;
        conns := conns[k := conns[k].(enabled := true, sessionLive := live, token := token, disclaimer := d)];
      } else {
        assert forall k :: !HasKey(State(), k, user, broker, ref);
        c := newId;
        conns := conns[newId := Conn(user, broker, ref, true, live, token, d, None)];
      }
    }

    /** Write 2 of a connect, separate from the first. */
    method RelinkStale(c: ConnId)
      modifies this`accounts
      ensures State() == Relink(old(State()), c)
    {
      accounts := map a | a in accounts ::
        if accounts[a].conn == Some(c) && accounts[a].state == LinkedStale
        then accounts[a].(state := LinkedLive) else accounts[a];
    }

    method PersistSession(user: UserId, broker: Broker, x: Exchange, probe: Probe, d: Disclaimer, newId: ConnId)
      returns (reply: Reply)
      requires UniqueKeys(State()) && x.Session?
      modifies this`conns, this`accounts
      ensures (State(), reply) == Persist(old(State()), user, broker, x, probe, d, newId, false)
    {
      if x.ref.None? || x.ref.value == "" { return Refused(AccountRefMissing); }
      if probe.ProbeFaulted? { return Refused(Unexpected); }
      var c := UpsertConnection(user, broker, x.ref.value, probe.ProbedLive?, x.token, d, newId);
      RelinkStale(c);
      return Done(c);
    }

    method IntegrateOneShot(reg: Registry, user: UserId, broker: Broker, accepted: Option<Disclaimer>, x: Exchange,
                            probe: Probe, newId: ConnId) returns (reply: Reply)
      requires Integrity(State()) && newId !in conns
      modifies this
      ensures (State(), reply) == Integrate(old(State()), reg, user, broker, accepted, x, probe, newId, false)
      ensures Integrity(State())
    {
      IntegrateKeepsIntegrity(State(), reg, user, broker, accepted, x, probe, newId, false);
      if broker !in reg.implemented { return Refused(UnsupportedBroker); }
      if broker in reg.interactive { return Refused(NotInteractive); }
      if accepted.None? || accepted.value.version == "" { return Refused(DisclaimerRequired); }
      if !x.Session? { return Refused(Unexpected); }
      reply := PersistSession(user, broker, x, probe, accepted.value, newId);
    }

    /** Verify and consume in one step: the state's single use. */
    method ConsumeState(user: UserId, broker: Broker, token: Option<string>, now: Time)
      returns (consent: Option<Disclaimer>)
      modifies this`auth
      ensures consent.Some? <==> Consumable(old(State()), user, broker, token, now)
      ensures consent.Some? ==>
                consent.value == old(auth)[token.value].disclaimer && State() == Consume(old(State()), token.value)
      ensures consent.None? ==> State() == old(State())
    {
      if token.None? || token.value == "" || token.value !in auth { return None; }
      var st := auth[token.value];
      if st.user != user || st.broker != broker || st.consumed || st.expiresAt <= now { return None; }
      auth := auth[token.value := st.(consumed := true)];
      return Some(st.disclaimer);
    }

    method CompleteIntegration(reg: Registry, user: UserId, broker: Broker, token: Option<string>,
                               expected: Option<ConnId>, x: Exchange, probe: Probe, now: Time, newId: ConnId)
      returns (reply: Reply)
      requires Integrity(State()) && newId !in conns
      modifies this
      ensures (State(), reply)
              == Complete(old(State()), reg, user, broker, token, expected, x, probe, now, newId, false)
      ensures Integrity(State())
    {
      CompleteKeepsIntegrity(State(), reg, user, broker, token, expected, x, probe, now, newId, false);
      if broker !in reg.implemented { return Refused(UnsupportedBroker); }
      if broker !in reg.interactive { return Refused(NotInteractive); }
      var consent := ConsumeState(user, broker, token, now);
      if consent.None? { return Refused(StateInvalid); }
      if expected.Some? && !(Requires(user, expected.value) && conns[expected.value].broker == broker) {
        return Refused(NotFound);
      }
      match x {
        case RejectedByBroker => return Refused(ExchangeFailed);
        case Faulted => return Refused(Unexpected);
        case Session(ref, _) =>
          if expected.Some? && ref != Some(conns[expected.value].ref) { return Refused(WrongDemat); }
          reply := PersistSession(user, broker, x, probe, consent.value, newId);
      }
    }
  }

  lemma {:induction false} CountedAreRemoved(rows: seq<BrokerHolding>, c: ConnId)
    ensures |Without(rows, c)| + CountOf(rows, c) == |rows|
  {
    if rows != [] { CountedAreRemoved(rows[..|rows| - 1], c); }
  }

  // ---------- reconnect identity ----------

  /** What a completed reconnect of `id` may change: that row's feed facts and its own account's state. */
  ghost predicate ReconnectedOnly(s: Store, s': Store, id: ConnId, x: Exchange, probe: Probe, d: Disclaimer)
    requires x.Session? && id in s.conns
  {
    && s'.conns == s.conns[id := s.conns[id].(enabled := true, sessionLive := probe.ProbedLive?, token := x.token,
                                              disclaimer := d)]
    && s'.accounts.Keys == s.accounts.Keys
    && (forall a :: a in s.accounts ==>
          s'.accounts[a] == if s.accounts[a].conn == Some(id) then s.accounts[a].(state := LinkedLive)
                            else s.accounts[a])
    && s'.holdings == s.holdings && s'.manual == s.manual
  }

  ghost predicate TablesUnchanged(s: Store, s': Store) {
    s'.conns == s.conns && s'.accounts == s.accounts && s'.holdings == s.holdings && s'.manual == s.manual
  }

  lemma PersistOnKey(s: Store, u: UserId, b: Broker, x: Exchange, probe: Probe, d: Disclaimer, newId: ConnId,
                     id: ConnId)
    requires Integrity(s) && x.Session? && x.ref.Some? && HasKey(s, id, u, b, x.ref.value)
    ensures var (s', r) := Persist(s, u, b, x, probe, d, newId, false);
            && s'.auth == s.auth
            && (if SessionUsable(x, probe) then r == Done(id) && ReconnectedOnly(s, s', id, x, probe, d)
                else r.Refused? && s' == s)
  {
    FindConnIs(s, u, b, x.ref.value, id);
    if SessionUsable(x, probe) {
      var s' := Persist(s, u, b, x, probe, d, newId, false).0;
      forall a | a in s.accounts
        ensures s'.accounts[a] == if s.accounts[a].conn == Some(id) then s.accounts[a].(state := LinkedLive)
                                  else s.accounts[a]
      {
        if s.accounts[a].conn == Some(id) { assert s.accounts[a].state != Manual; }
      }
    }
  }

  predicate ReconnectSucceeds(s: Store, reg: Registry, u: UserId, b: Broker, token: Option<string>, id: ConnId,
                              x: Exchange, probe: Probe, now: Time)
  {
    && b in reg.implemented && b in reg.interactive && Consumable(s, u, b, token, now)
    && Owns(s, u, id) && s.conns[id].broker == b
    && SessionUsable(x, probe) && x.ref.value == s.conns[id].ref
  }

  /**
   RECONNECT IDENTITY. A completion that names the connection it means either returns that very
   connection, having written only its feed facts and brought back only its own account, or it is refused
   with every connection, account and holding as before; which of the two is decided by the conditions of
   `ReconnectSucceeds` alone. It never creates a connection. All it can consume is the presented state.
   */
  lemma ReconnectIdentity(s: Store, reg: Registry, u: UserId, b: Broker, token: Option<string>, id: ConnId,
                          x: Exchange, probe: Probe, now: Time, newId: ConnId)
    requires Integrity(s)
    ensures var (s', r) := Complete(s, reg, u, b, token, Some(id), x, probe, now, newId, false);
            && (r.Done? <==> ReconnectSucceeds(s, reg, u, b, token, id, x, probe, now))
            && (r.Done? ==> r.conn == id && ReconnectedOnly(s, s', id, x, probe, s.auth[token.value].disclaimer))
            && (!r.Done? ==> r.Refused? && TablesUnchanged(s, s'))
            && s'.auth == (if b in reg.implemented && b in reg.interactive && Consumable(s, u, b, token, now)
                           then Consume(s, token.value).auth else s.auth)
  {
    if b in reg.implemented && b in reg.interactive && Consumable(s, u, b, token, now) {
      var s1 := Consume(s, token.value);
      ConsumeRefeeds(s, token.value);
      RefedKeepsIntegrity(s, s1);
      if Owns(s, u, id) && s.conns[id].broker == b && x.Session? && x.ref == Some(s.conns[id].ref) {
        PersistOnKey(s1, u, b, x, probe, s.auth[token.value].disclaimer, newId, id);
      }
    }
  }

  // ---------- a state is used once ----------

  ghost predicate Spent(s: Store, token: string) { token in s.auth && s.auth[token].consumed }

  lemma OthersKeepStates(s: Store, a: Action)
    requires Enabled(s, a) && !a.DoComplete? && !a.DoBegin? && !a.DoIntegrate?
    ensures Step(s, a).auth == s.auth
  {
  }

  lemma CompleteKeepsSpent(s: Store, a: Action, token: string)
    requires Enabled(s, a) && a.DoComplete? && Spent(s, token)
    ensures Spent(Step(s, a), token)
  {
  }

  lemma StepKeepsSpent(s: Store, a: Action, token: string)
    requires Enabled(s, a) && Spent(s, token)
    ensures Spent(Step(s, a), token)
  {
    match a {
      case DoComplete(_, _, _, _, _, _, _, _, _, _) => CompleteKeepsSpent(s, a, token);
      case DoBegin(_, _, _, _, _, _) =>
      case DoIntegrate(_, _, _, _, _, _, _, _) =>
      case _ => OthersKeepStates(s, a);
    }
  }

  /** Once a completion has consumed a state, no later completion with that state does anything, whoever
      presents it, whatever has happened in between. */
  lemma {:induction false} ReplayIsRefused(s: Store, actions: seq<Action>, reg: Registry, u: UserId, b: Broker,
                                           token: string, expected: Option<ConnId>, x: Exchange, probe: Probe,
                                           now: Time, newId: ConnId, crash: bool)
    requires IsRun(s, actions) && Spent(s, token)
    ensures var (s', r) := Complete(After(s, actions), reg, u, b, Some(token), expected, x, probe, now, newId, crash);
            r.Refused? && s' == After(s, actions)
    decreases |actions|
  {
    if actions != [] {
      StepKeepsSpent(s, actions[0], token);
      ReplayIsRefused(Step(s, actions[0]), actions[1..], reg, u, b, token, expected, x, probe, now, newId, crash);
    }
  }
}
