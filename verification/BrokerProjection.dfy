/**
 The agreement between the two sides of a binding: an account bound to a connection is `linked_live`
 exactly while that connection is enabled.

 Not every operation keeps it. Linking an account to a severed connection breaks it, because the endpoint
 never looks at `enabled`; and a reconnect that dies between its two writes breaks it. The lemmas say, per
 operation and per connection, exactly when it holds afterwards, and what repairs it.
 */
module BrokerProjection {
  import opened Wrappers
  import opened BrokerModel
  import opened BrokerInvariant

  /** Connection `c` and its account, if any, agree on whether the feed is live. */
  ghost predicate InProjection(s: Store, c: ConnId)
    requires c in s.conns
  {
    forall a :: BoundTo(s, a, c) ==> (s.accounts[a].state == LinkedLive <==> s.conns[c].enabled)
  }

  ghost predicate Projected(s: Store) {
    forall c :: c in s.conns ==> InProjection(s, c)
  }

  /** The session has a demat, and neither the probe nor the encryption threw. */
  predicate SessionUsable(x: Exchange, probe: Probe) {
    x.Session? && x.ref.Some? && x.ref.value != "" && !probe.ProbeFaulted?
  }

  ghost function KeyedConn(s: Store, u: UserId, b: Broker, ref: string, newId: ConnId): ConnId {
    var found := FindConn(s, u, b, ref);
    if found.Some? then found.value else newId
  }

  predicate ReconnectMatches(s: Store, u: UserId, b: Broker, expected: Option<ConnId>, ref: string) {
    expected.Some? ==>
      Owns(s, u, expected.value) && s.conns[expected.value].broker == b && s.conns[expected.value].ref == ref
  }

  /** The connection a (re)connect writes, when it gets as far as writing. */
  ghost function Upserted(s: Store, a: Action): Option<ConnId> {
    match a
    case DoIntegrate(reg, u, b, accepted, x, probe, newId, _) =>
      if b in reg.implemented && b !in reg.interactive && accepted.Some? && accepted.value.version != ""
         && SessionUsable(x, probe)
      then Some(KeyedConn(s, u, b, x.ref.value, newId)) else None
    case DoComplete(reg, u, b, state, expected, x, probe, now, newId, _) =>
      if b in reg.implemented && b in reg.interactive && Consumable(s, u, b, state, now)
         && SessionUsable(x, probe) && ReconnectMatches(s, u, b, expected, x.ref.value)
      then Some(KeyedConn(s, u, b, x.ref.value, newId)) else None
    case _ => None
  }

  predicate Crashed(a: Action) {
    (a.DoIntegrate? && a.crash) || (a.DoComplete? && a.crash)
  }

  ghost predicate HasStale(s: Store, c: ConnId) {
    exists k :: BoundTo(s, k, c) && s.accounts[k].state == LinkedStale
  }

  ghost predicate Links(s: Store, a: Action) {
    a.DoLink? && Link(s, a.user, a.a, a.c, a.hasTransactions, a.confirm).1.Changed?
  }

  /** The two ways to leave a connection and its account in disagreement: die between the upsert and the
      re-link of a stale account, or link an account to a severed connection. */
  ghost predicate Breaks(s: Store, a: Action, c: ConnId) {
    || (Crashed(a) && Upserted(s, a) == Some(c) && HasStale(s, c))
    || (Links(s, a) && a.c == c && c in s.conns && !s.conns[c].enabled)
  }

  /** Sever, activate, unlink and reconnect all write both sides of the pair. */
  ghost predicate Repairs(s: Store, a: Action, c: ConnId) {
    || (a.DoSever? && a.c == c && Owns(s, a.user, c))
    || (a.DoActivate? && a.c == c && Owns(s, a.user, c))
    || (a.DoUnlink? && OwnsAccount(s, a.user, a.a) && s.accounts[a.a].conn == Some(c))
    || Upserted(s, a) == Some(c)
  }

  ghost predicate AgreedBefore(s: Store, c: ConnId) { c in s.conns && InProjection(s, c) }

  // ---------- framing ----------

  /** Connection `c` and its accounts look the same before and after. */
  ghost predicate Untouched(s: Store, s': Store, c: ConnId) {
    && c in s.conns && c in s'.conns && s'.conns[c].enabled == s.conns[c].enabled
    && (forall k :: BoundTo(s, k, c) <==> BoundTo(s', k, c))
    && (forall k :: BoundTo(s, k, c) ==> s'.accounts[k].state == s.accounts[k].state)
  }

  lemma UntouchedProjection(s: Store, s': Store, c: ConnId)
    requires Untouched(s, s', c)
    ensures InProjection(s', c) <==> InProjection(s, c)
  {
    if InProjection(s, c) {
      forall k | BoundTo(s', k, c) ensures s'.accounts[k].state == LinkedLive <==> s'.conns[c].enabled {
        assert BoundTo(s, k, c);
      }
    }
    if InProjection(s', c) {
      forall k | BoundTo(s, k, c) ensures s.accounts[k].state == LinkedLive <==> s.conns[c].enabled {
        assert BoundTo(s', k, c);
      }
    }
  }

  lemma SwitchProjects(s: Store, c: ConnId, d: ConnId)
    requires c in s.conns && d in s.conns
    ensures InProjection(SeverBinding(s, d), c) <==> c == d || InProjection(s, c)
    ensures InProjection(ResumeBinding(s, d), c) <==> c == d || InProjection(s, c)
  {
    if c != d {
      UntouchedProjection(s, SeverBinding(s, d), c);
      UntouchedProjection(s, ResumeBinding(s, d), c);
    }
  }

  // ---------- the two writes of a connect ----------

  lemma FoundHasKey(s: Store, u: UserId, b: Broker, ref: string)
    ensures FindConn(s, u, b, ref).Some? ==> HasKey(s, FindConn(s, u, b, ref).value, u, b, ref)
  {
  }

  lemma UpsertProjects(s: Store, u: UserId, b: Broker, ref: string, live: bool, token: nat, d: Disclaimer,
                       newId: ConnId, c: ConnId)
    requires Integrity(s) && newId !in s.conns
    requires c in UpsertConn(s, u, b, ref, live, token, d, newId).0.conns
    ensures var k := KeyedConn(s, u, b, ref, newId);
            && UpsertConn(s, u, b, ref, live, token, d, newId).1 == k
            && (InProjection(UpsertConn(s, u, b, ref, live, token, d, newId).0, c) <==>
                  if c == k then !HasStale(s, c) else AgreedBefore(s, c))
  {
    var k := KeyedConn(s, u, b, ref, newId);
    var s1 := UpsertConn(s, u, b, ref, live, token, d, newId).0;
    FoundHasKey(s, u, b, ref);
    if c != k {
      assert Untouched(s, s1, c);
      UntouchedProjection(s, s1, c);
    } else {
      BoundIsLiveOrStale(s, s1, c);
    }
  }

  lemma BoundIsLiveOrStale(s: Store, s1: Store, c: ConnId)
    requires BoundRight(s) && s1.accounts == s.accounts && c in s1.conns && s1.conns[c].enabled
    ensures InProjection(s1, c) <==> !HasStale(s, c)
  {
    if !HasStale(s, c) {
      forall a | BoundTo(s1, a, c) ensures s1.accounts[a].state == LinkedLive {
        assert BoundTo(s, a, c) && s.accounts[a].state != Manual;
      }
    } else {
      var a :| BoundTo(s, a, c) && s.accounts[a].state == LinkedStale;
      assert BoundTo(s1, a, c);
    }
  }

  /** The second write brings the connection's own account back and touches no other connection. */
  lemma RelinkProjects(s1: Store, k: ConnId, c: ConnId)
    requires BoundRight(s1) && k in s1.conns && c in s1.conns && s1.conns[k].enabled
    ensures InProjection(Relink(s1, k), c) <==> c == k || InProjection(s1, c)
  {
    var s' := Relink(s1, k);
    if c != k {
      assert Untouched(s1, s', c);
      UntouchedProjection(s1, s', c);
    } else {
      forall a | BoundTo(s', a, c) ensures s'.accounts[a].state == LinkedLive {
        assert BoundTo(s1, a, c) && s1.accounts[a].state != Manual;
      }
    }
  }

  lemma PersistProjects(s: Store, u: UserId, b: Broker, x: Exchange, probe: Probe, d: Disclaimer,
                        newId: ConnId, crash: bool, c: ConnId)
    requires Integrity(s) && newId !in s.conns && SessionUsable(x, probe)
    requires c in Persist(s, u, b, x, probe, d, newId, crash).0.conns
    ensures InProjection(Persist(s, u, b, x, probe, d, newId, crash).0, c) <==>
              if c == KeyedConn(s, u, b, x.ref.value, newId) then !(crash && HasStale(s, c)) else AgreedBefore(s, c)
  {
    var (s1, k) := UpsertConn(s, u, b, x.ref.value, probe.ProbedLive?, x.token, d, newId);
    UpsertKeepsIntegrity(s, u, b, x.ref.value, probe.ProbedLive?, x.token, d, newId);
    UpsertProjects(s, u, b, x.ref.value, probe.ProbedLive?, x.token, d, newId, c);
    if !crash { RelinkProjects(s1, k, c); }
  }

  // ---------- one lemma per kind of operation ----------

  lemma SameConnsSameKey(s: Store, s1: Store, u: UserId, b: Broker, ref: string, newId: ConnId)
    requires s1.conns == s.conns && UniqueKeys(s)
    ensures KeyedConn(s1, u, b, ref, newId) == KeyedConn(s, u, b, ref, newId)
  {
    forall c ensures HasKey(s, c, u, b, ref) <==> HasKey(s1, c, u, b, ref) {
    }
    if FindConn(s, u, b, ref).Some? {
      var c := FindConn(s, u, b, ref).value;
      assert HasKey(s1, c, u, b, ref);
      FindConnIs(s1, u, b, ref, c);
    } else {
      assert forall c :: !HasKey(s1, c, u, b, ref) by {
        forall c ensures !HasKey(s1, c, u, b, ref) { assert !HasKey(s, c, u, b, ref); }
      }
    }
  }

  /** A completion either persists a session on the store with the state consumed, or leaves every
      connection and account as it was. */
  lemma CompleteEitherPersistsOrRefuses(s: Store, a: Action)
    requires a.DoComplete? && Enabled(s, a)
    ensures Upserted(s, a).Some? ==>
              && Consumable(s, a.user, a.broker, a.state, a.now) && SessionUsable(a.x, a.probe)
              && Step(s, a) == Persist(Consume(s, a.state.value), a.user, a.broker, a.x, a.probe,
                                       s.auth[a.state.value].disclaimer, a.newId, a.crash).0
    ensures Upserted(s, a).None? ==> Step(s, a).conns == s.conns && Step(s, a).accounts == s.accounts
  {
  }

  lemma SameTablesSameProjection(s: Store, s': Store, c: ConnId)
    requires s'.conns == s.conns && s'.accounts == s.accounts
    ensures AgreedBefore(s', c) <==> AgreedBefore(s, c)
    ensures HasStale(s', c) <==> HasStale(s, c)
  {
    assert forall k :: BoundTo(s', k, c) == BoundTo(s, k, c);
    if c in s.conns { UntouchedProjection(s, s', c); }
  }

  lemma CompleteProjects(s: Store, a: Action, c: ConnId)
    requires a.DoComplete? && Integrity(s) && Enabled(s, a) && c in Step(s, a).conns
    ensures InProjection(Step(s, a), c) <==>
              if Upserted(s, a) == Some(c) then !(a.crash && HasStale(s, c)) else AgreedBefore(s, c)
  {
    CompleteEitherPersistsOrRefuses(s, a);
    if Upserted(s, a).Some? {
      var s1 := Consume(s, a.state.value);
      ConsumeRefeeds(s, a.state.value);
      RefedKeepsIntegrity(s, s1);
      SameConnsSameKey(s, s1, a.user, a.broker, a.x.ref.value, a.newId);
      SameTablesSameProjection(s, s1, c);
      PersistProjects(s1, a.user, a.broker, a.x, a.probe, s.auth[a.state.value].disclaimer, a.newId, a.crash, c);
    } else {
      SameTablesSameProjection(s, Step(s, a), c);
    }
  }

  lemma IntegrateProjects(s: Store, a: Action, c: ConnId)
    requires a.DoIntegrate? && Integrity(s) && Enabled(s, a) && c in Step(s, a).conns
    ensures InProjection(Step(s, a), c) <==>
              if Upserted(s, a) == Some(c) then !(a.crash && HasStale(s, c)) else AgreedBefore(s, c)
  {
    if Upserted(s, a).Some? {
      PersistProjects(s, a.user, a.broker, a.x, a.probe, a.accepted.value, a.newId, a.crash, c);
    } else {
      assert Step(s, a) == s;
    }
  }

  lemma LinkProjects(s: Store, a: Action, c: ConnId)
    requires a.DoLink? && Integrity(s) && c in s.conns
    ensures InProjection(Step(s, a), c) <==>
              if Links(s, a) && a.c == c then s.conns[c].enabled else InProjection(s, c)
  {
    var s' := Step(s, a);
    if Links(s, a) && a.c == c {
      assert BoundTo(s', a.a, c);
      forall k ensures BoundTo(s', k, c) <==> BoundTo(s, k, c) || k == a.a {}
    } else {
      assert Untouched(s, s', c);
      UntouchedProjection(s, s', c);
    }
  }

  lemma ForgetProjects(s: Store, d: ConnId, c: ConnId)
    requires c in s.conns && c != d
    ensures InProjection(Forget(s, d), c) <==> InProjection(s, c)
  {
    assert Untouched(s, Forget(s, d), c);
    UntouchedProjection(s, Forget(s, d), c);
  }

  lemma CreateAccountProjects(s: Store, u: UserId, a: AccountId, name: string, b: Broker, c: ConnId)
    requires c in s.conns && a !in s.accounts
    ensures InProjection(CreateAccount(s, u, a, name, b).0, c) <==> InProjection(s, c)
  {
    assert Untouched(s, CreateAccount(s, u, a, name, b).0, c);
    UntouchedProjection(s, CreateAccount(s, u, a, name, b).0, c);
  }

  lemma DeleteAccountProjects(s: Store, u: UserId, a: AccountId, hasTransactions: bool, confirm: bool, c: ConnId)
    requires Integrity(s) && c in s.conns
    ensures InProjection(DeleteAccount(s, u, a, hasTransactions, confirm).0, c) <==> InProjection(s, c)
  {
    var s' := DeleteAccount(s, u, a, hasTransactions, confirm).0;
    assert Untouched(s, s', c);
    UntouchedProjection(s, s', c);
  }

  lemma PatchProjects(s: Store, u: UserId, a: AccountId, name: Option<string>, retag: Option<Broker>, c: ConnId)
    requires c in s.conns
    ensures InProjection(Patch(s, u, a, name, retag).0, c) <==> InProjection(s, c)
  {
    assert Untouched(s, Patch(s, u, a, name, retag).0, c);
    UntouchedProjection(s, Patch(s, u, a, name, retag).0, c);
  }

  lemma RescueProjects(s: Store, u: UserId, a: AccountId, to: AccountId, confirm: bool, rows: seq<BrokerHolding>,
                       book: Book, c: ConnId)
    requires Integrity(s) && c in Rescue(s, u, a, to, confirm, rows, book).0.conns
    ensures c in s.conns && (InProjection(Rescue(s, u, a, to, confirm, rows, book).0, c) <==> InProjection(s, c))
  {
    assert Untouched(s, Rescue(s, u, a, to, confirm, rows, book).0, c);
    UntouchedProjection(s, Rescue(s, u, a, to, confirm, rows, book).0, c);
  }

  lemma SyncProjects(s: Store, d: ConnId, rows: seq<BrokerHolding>, now: Time, c: ConnId)
    requires c in s.conns && d in s.conns
    ensures InProjection(Overwrite(s, d, rows, now), c) <==> InProjection(s, c)
    ensures InProjection(MarkDead(s, d), c) <==> InProjection(s, c)
  {
    assert Untouched(s, Overwrite(s, d, rows, now), c);
    UntouchedProjection(s, Overwrite(s, d, rows, now), c);
    assert Untouched(s, MarkDead(s, d), c);
    UntouchedProjection(s, MarkDead(s, d), c);
  }

  // ---------- main results ----------

  /**
   THE PROJECTION, EXACTLY. After one operation a connection and its account agree if and only if the
   operation did not break that connection and either repaired it or found it in agreement. (A new
   connection counts as repaired: it has no account yet.)
   */
  lemma ProjectionExactly(s: Store, a: Action, c: ConnId)
    requires Integrity(s) && Enabled(s, a) && c in Step(s, a).conns
    ensures InProjection(Step(s, a), c) <==> !Breaks(s, a, c) && (Repairs(s, a, c) || AgreedBefore(s, c))
  {
    if a.DoIntegrate? {
      IntegrateProjects(s, a, c);
    } else if a.DoComplete? {
      CompleteProjects(s, a, c);
    } else if a.DoLink? {
      LinkAgrees(s, a, c);
    } else if a.DoSever? || a.DoActivate? {
      SwitchStepProjects(s, a, c);
    } else if a.DoUnlink? {
      UnlinkProjects(s, a, c);
    } else {
      OthersNeitherBreakNorRepair(s, a, c);
      if a.DoSyncDead? || a.DoSync? || a.DoBegin? || a.DoEnterManually? {
        OthersProject(s, a, c);
      } else {
        AccountStepsProject(s, a, c);
      }
    }
  }

  lemma OthersNeitherBreakNorRepair(s: Store, a: Action, c: ConnId)
    requires !a.DoIntegrate? && !a.DoComplete? && !a.DoLink? && !a.DoSever? && !a.DoActivate? && !a.DoUnlink?
    ensures !Breaks(s, a, c) && !Repairs(s, a, c)
  {
  }

  lemma SwitchStepProjects(s: Store, a: Action, c: ConnId)
    requires (a.DoSever? || a.DoActivate?) && c in Step(s, a).conns
    ensures c in s.conns && !Breaks(s, a, c)
    ensures InProjection(Step(s, a), c) <==> Repairs(s, a, c) || InProjection(s, c)
  {
    if Owns(s, a.user, a.c) { SwitchProjects(s, c, a.c); }
  }

  lemma OthersProject(s: Store, a: Action, c: ConnId)
    requires Integrity(s) && Enabled(s, a) && c in Step(s, a).conns
    requires a.DoSyncDead? || a.DoSync? || a.DoBegin? || a.DoEnterManually?
    ensures c in s.conns && (InProjection(Step(s, a), c) <==> InProjection(s, c))
  {
    match a {
      case DoSyncDead(_, d) => SyncProjects(s, d, [], 0, c);
      case DoSync(_, d, rows, now) => SyncProjects(s, d, rows, now, c);
      case DoBegin(_, _, _, _, _, _) => SameTablesSameProjection(s, Step(s, a), c);
      case DoEnterManually(_) => SameTablesSameProjection(s, Step(s, a), c);
    }
  }

  lemma AccountStepsProject(s: Store, a: Action, c: ConnId)
    requires Integrity(s) && Enabled(s, a) && c in Step(s, a).conns
    requires a.DoClear? || a.DoCreateAccount? || a.DoDeleteAccount? || a.DoPatch? || a.DoRescue?
    ensures c in s.conns && (InProjection(Step(s, a), c) <==> InProjection(s, c))
  {
    match a {
      case DoClear(u, d, confirm) => if Clear(s, u, d, confirm).1.Cleared? { ForgetProjects(s, d, c); }
      case DoCreateAccount(u, id, name, b) => CreateAccountProjects(s, u, id, name, b, c);
      case DoDeleteAccount(u, id, hasTransactions, confirm) =>
        DeleteAccountProjects(s, u, id, hasTransactions, confirm, c);
      case DoPatch(u, id, name, retag) => PatchProjects(s, u, id, name, retag, c);
      case DoRescue(u, id, to, confirm, rows, book) => RescueProjects(s, u, id, to, confirm, rows, book, c);
    }
  }

  lemma UnlinkProjects(s: Store, a: Action, c: ConnId)
    requires a.DoUnlink? && Integrity(s) && c in s.conns
    ensures InProjection(Step(s, a), c) <==>
              || (OwnsAccount(s, a.user, a.a) && s.accounts[a.a].conn == Some(c))
              || InProjection(s, c)
  {
    if OwnsAccount(s, a.user, a.a) && s.accounts[a.a].conn.Some? {
      SwitchProjects(s, c, s.accounts[a.a].conn.value);
    }
  }

  lemma LinkAgrees(s: Store, a: Action, c: ConnId)
    requires a.DoLink? && Integrity(s) && c in s.conns
    ensures InProjection(Step(s, a), c) <==> !Breaks(s, a, c) && AgreedBefore(s, c)
  {
    LinkProjects(s, a, c);
    if Links(s, a) && a.c == c {
      assert forall k :: !BoundTo(s, k, c);
    }
  }

  /** Whatever state a connection is in, one completed sever, activate, unlink or reconnect repairs it. */
  lemma AnyRepairRestoresAgreement(s: Store, a: Action, c: ConnId)
    requires Integrity(s) && Enabled(s, a) && c in Step(s, a).conns && Repairs(s, a, c) && !Crashed(a)
    ensures InProjection(Step(s, a), c)
  {
    ProjectionExactly(s, a, c);
  }

  /** A run in which no step breaks anything. */
  ghost predicate Sound(s: Store, actions: seq<Action>)
    requires IsRun(s, actions)
    decreases |actions|
  {
    actions == [] || ((forall c :: !Breaks(s, actions[0], c)) && Sound(Step(s, actions[0]), actions[1..]))
  }

  /** Over any run in which no reconnect of a severed connection dies half-way and nothing is linked to a
      severed connection, every bound account is live exactly while its connection is enabled. */
  lemma {:induction false} SoundRunsStayProjected(s: Store, actions: seq<Action>)
    requires Integrity(s) && Projected(s) && IsRun(s, actions) && Sound(s, actions)
    ensures Integrity(After(s, actions)) && Projected(After(s, actions))
    decreases |actions|
  {
    if actions != [] {
      var s1 := Step(s, actions[0]);
      StepKeepsIntegrity(s, actions[0]);
      forall c | c in s1.conns ensures InProjection(s1, c) {
        ProjectionExactly(s, actions[0], c);
        if c !in s.conns { OnlyAConnectCreates(s, actions[0], c); }
      }
      SoundRunsStayProjected(s1, actions[1..]);
    }
  }

  lemma UpsertCreatesKeyed(s: Store, u: UserId, b: Broker, x: Exchange, probe: Probe, d: Disclaimer,
                           newId: ConnId, crash: bool, c: ConnId)
    requires x.Session? && c !in s.conns && c in Persist(s, u, b, x, probe, d, newId, crash).0.conns
    ensures SessionUsable(x, probe) && c == KeyedConn(s, u, b, x.ref.value, newId)
  {
    assert SessionUsable(x, probe);
    FoundHasKey(s, u, b, x.ref.value);
  }

  lemma OthersCreateNone(s: Store, a: Action)
    requires Enabled(s, a) && !a.DoIntegrate? && !a.DoComplete?
    ensures Step(s, a).conns.Keys <= s.conns.Keys
  {
  }

  lemma OnlyAConnectCreates(s: Store, a: Action, c: ConnId)
    requires Integrity(s) && Enabled(s, a) && c in Step(s, a).conns && c !in s.conns
    ensures Upserted(s, a) == Some(c)
  {
    if a.DoIntegrate? {
      UpsertCreatesKeyed(s, a.user, a.broker, a.x, a.probe, a.accepted.value, a.newId, a.crash, c);
    } else if a.DoComplete? {
      CompleteEitherPersistsOrRefuses(s, a);
      var s1 := Consume(s, a.state.value);
      SameConnsSameKey(s, s1, a.user, a.broker, a.x.ref.value, a.newId);
      UpsertCreatesKeyed(s1, a.user, a.broker, a.x, a.probe, s.auth[a.state.value].disclaimer, a.newId, a.crash, c);
    } else {
      OthersCreateNone(s, a);
    }
  }

  // ---------- the two breakages, on concrete stores ----------

  const SEVERED := Conn(1, "kite", "D1", false, true, 7, Disclaimer("v1", 0), None)

  /** Linking checks the owner, the broker and that the connection is free, but not that it is enabled. */
  lemma LinkToSeveredConnectionBreaks()
    ensures var s := Store(map[10 := SEVERED], map[20 := Account(1, "kite", "Main", None, Manual)], [], [], map[]);
            var a := DoLink(1, 20, 10, false, false);
            Integrity(s) && Projected(s) && 10 in Step(s, a).conns && !InProjection(Step(s, a), 10)
  {
    var s := Store(map[10 := SEVERED], map[20 := Account(1, "kite", "Main", None, Manual)], [], [], map[]);
    assert !Bound(s, 10);
    assert BoundTo(Step(s, DoLink(1, 20, 10, false, false)), 20, 10);
  }

  /** A reconnect cut after its first write leaves `enabled` beside a stale account. */
  lemma CrashBetweenWritesBreaks()
    ensures var s := Store(map[10 := SEVERED], map[20 := Account(1, "kite", "Main", Some(10), LinkedStale)],
                           [], [], map[]);
            var a := DoIntegrate(Registry({"kite"}, {}), 1, "kite", Some(Disclaimer("v2", 5)),
                                 Session(Some("D1"), 8), ProbedLive, 11, true);
            Integrity(s) && Projected(s) && 10 in Step(s, a).conns && !InProjection(Step(s, a), 10)
  {
    var s := Store(map[10 := SEVERED], map[20 := Account(1, "kite", "Main", Some(10), LinkedStale)], [], [], map[]);
    var a := DoIntegrate(Registry({"kite"}, {}), 1, "kite", Some(Disclaimer("v2", 5)),
                         Session(Some("D1"), 8), ProbedLive, 11, true);
    assert HasKey(s, 10, 1, "kite", "D1");
    FindConnIs(s, 1, "kite", "D1", 10);
    assert BoundTo(Step(s, a), 20, 10);
  }
}
