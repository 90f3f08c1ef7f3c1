/**
 What one broker operation may touch, column by column.

 BrokerModel says what each operation does to the whole store. Here the tables are read the other way round: of a
 connection, an account, a holding or an authorization state, which operations change which of its columns, to what,
 and exactly when. What follows from that over runs is in BrokerConduct.
 */
module BrokerFootprint {
  import opened Wrappers
  import opened BrokerModel
  import opened BrokerInvariant
  import opened BrokerProjection

  // ---------- when an operation goes through ----------

  function Actor(a: Action): UserId {
    match a
    case DoEnterManually(h) => h.user
    case _ => a.user
  }

  ghost predicate Severs(s: Store, a: Action, c: ConnId) {
    || (a.DoSever? && a.c == c && Owns(s, a.user, c))
    || (a.DoUnlink? && OwnsAccount(s, a.user, a.a) && s.accounts[a.a].conn == Some(c))
  }

  ghost predicate Resumes(s: Store, a: Action, c: ConnId) { a.DoActivate? && a.c == c && Owns(s, a.user, c) }

  /** Only what is switched off is cleared, and only on confirmation. */
  ghost predicate Clears(s: Store, a: Action, c: ConnId) {
    a.DoClear? && a.c == c && Owns(s, a.user, c) && !s.conns[c].enabled && a.confirm
  }

  /** A bound book goes into another, manual book of the same user and broker, whole or not at all. */
  ghost predicate Rescues(s: Store, a: Action) {
    && a.DoRescue? && a.a != a.to && OwnsAccount(s, a.user, a.a) && OwnsAccount(s, a.user, a.to)
    && s.accounts[a.a].conn.Some? && s.accounts[a.to].state == Manual
    && s.accounts[a.a].broker == s.accounts[a.to].broker
    && a.rows != [] && (forall b :: b in a.rows ==> b.instrument.Some?) && a.confirm
  }

  ghost predicate Removes(s: Store, a: Action, c: ConnId) {
    Clears(s, a, c) || (Rescues(s, a) && s.accounts[a.a].conn == Some(c))
  }

  /** A free account of a real broker is bound to a free connection of its user and broker; what was entered in it
      by hand goes, so that has to be confirmed. */
  ghost predicate Binds(s: Store, a: Action, k: AccountId) {
    && a.DoLink? && k == a.a && OwnsAccount(s, a.user, k) && s.accounts[k].conn.None? && s.accounts[k].broker != OTHER
    && Owns(s, a.user, a.c) && s.conns[a.c].broker == s.accounts[k].broker
    && (forall o :: o in s.accounts ==> s.accounts[o].conn != Some(a.c))
    && (a.hasTransactions || (exists h :: h in s.manual && h.account == k) ==> a.confirm)
  }

  /** A free account is deleted, but for the last one. */
  ghost predicate Deletes(s: Store, a: Action, k: AccountId) {
    && a.DoDeleteAccount? && k == a.a && OwnsAccount(s, a.user, k) && s.accounts[k].conn.None?
    && (exists o :: o != k && OwnsAccount(s, a.user, o)) && (a.hasTransactions ==> a.confirm)
  }

  ghost predicate NameIsFree(s: Store, u: UserId, name: string, besides: Option<AccountId>) {
    forall o :: OwnsAccount(s, u, o) && Some(o) != besides ==> s.accounts[o].name != name
  }

  ghost predicate Creates(s: Store, a: Action) { a.DoCreateAccount? && NameIsFree(s, a.user, a.name, None) }

  ghost predicate Patches(s: Store, a: Action, k: AccountId) {
    && a.DoPatch? && k == a.a && OwnsAccount(s, a.user, k)
    && (a.rename.Some? ==> NameIsFree(s, a.user, a.rename.value, Some(k)))
    && (a.retag.Some? && a.retag.value != s.accounts[k].broker ==>
          s.accounts[k].state == Manual && s.accounts[k].conn.None?)
  }

  ghost predicate Enters(s: Store, a: Action) {
    a.DoEnterManually? && OwnsAccount(s, a.h.user, a.h.account) && s.accounts[a.h.account].state == Manual
  }

  lemma BindsExactly(s: Store, a: Action)
    requires a.DoLink?
    ensures Links(s, a) <==> Binds(s, a, a.a)
  {
    if Bound(s, a.c) {
      var k :| BoundTo(s, k, a.c);
      assert s.accounts[k].conn == Some(a.c);
    } else {
      forall o | o in s.accounts ensures s.accounts[o].conn != Some(a.c) { assert !BoundTo(s, o, a.c); }
    }
    if HoldsManually(s, a.a) {
      var i :| 0 <= i < |s.manual| && s.manual[i].account == a.a;
      assert s.manual[i] in s.manual;
    }
  }

  /** The operations that act on a connection's row, and those that do not. */
  predicate ActsOnConns(a: Action) {
    a.DoIntegrate? || a.DoComplete? || a.DoSever? || a.DoActivate? || a.DoUnlink? || a.DoClear? || a.DoRescue?
    || a.DoSync? || a.DoSyncDead?
  }

  lemma QuietActsOnNone(s: Store, a: Action)
    requires !ActsOnConns(a) || a.DoSync? || a.DoSyncDead?
    ensures ActsOnNone(s, a)
  {
  }

  ghost predicate ActsOnNone(s: Store, a: Action) {
    (forall d :: !Severs(s, a, d) && !Resumes(s, a, d) && !Removes(s, a, d)) && Upserted(s, a).None?
  }

  lemma QuietKeepsConns(s: Store, a: Action)
    requires Enabled(s, a) && !ActsOnConns(a)
    ensures Step(s, a).conns == s.conns
  {
  }

  // ---------- connections ----------

  /** The disclaimer a connect was made under: accepted with it, or with the authorization it completes. */
  ghost function AcceptedIn(s: Store, a: Action): Option<Disclaimer> {
    match a
    case DoIntegrate(_, _, _, accepted, _, _, _, _) => accepted
    case DoComplete(_, _, _, state, _, _, _, _, _, _) =>
      if state.Some? && state.value in s.auth then Some(s.auth[state.value].disclaimer) else None
    case _ => None
  }

  /** The row is switched on and holds the session this connect came back with. */
  ghost predicate HoldsSession(s: Store, a: Action, n: Conn) {
    && (a.DoIntegrate? || a.DoComplete?) && a.x.Session?
    && n.enabled && (n.sessionLive <==> a.probe.ProbedLive?) && n.token == a.x.token
    && Some(n.disclaimer) == AcceptedIn(s, a)
  }

  ghost predicate ConnMoves(s: Store, a: Action, c: ConnId, o: Conn, n: Conn) {
    && n.user == o.user && n.broker == o.broker && n.ref == o.ref
    && n.lastSyncedAt == (if a.DoSync? && a.c == c then Some(a.now) else o.lastSyncedAt)
    && if Upserted(s, a) == Some(c) then HoldsSession(s, a, n)
       else
         && n.token == o.token && n.disclaimer == o.disclaimer
         && n.enabled == (if Severs(s, a, c) then false else if Resumes(s, a, c) then true else o.enabled)
         && n.sessionLive == (if a.DoSyncDead? && a.c == c then false
                              else if a.DoSync? && a.c == c then true else o.sessionLive)
  }

  ghost predicate ConnMade(s: Store, a: Action, n: Conn) {
    && HoldsSession(s, a, n) && n.user == a.user && n.broker == a.broker && a.x.ref == Some(n.ref)
    && n.lastSyncedAt.None?
  }

  /** Every connection after the step is one from before, moved as its columns may, or one the step made; and those
      gone are the ones it removed. */
  ghost predicate ConnsMove(s: Store, a: Action, s': Store) {
    && (forall c :: c in s.conns ==> (c !in s'.conns <==> Removes(s, a, c)))
    && (forall c :: c in s.conns && c in s'.conns ==> ConnMoves(s, a, c, s.conns[c], s'.conns[c]))
    && (forall c :: c in s'.conns && c !in s.conns ==> Upserted(s, a) == Some(c) && ConnMade(s, a, s'.conns[c]))
  }

  /** The connections standing as they were. */
  lemma ConnsStand(s: Store, a: Action, s': Store)
    requires s'.conns == s.conns && ActsOnNone(s, a) && !a.DoSync? && !a.DoSyncDead?
    ensures ConnsMove(s, a, s')
  {
  }

  /** One of them moved. */
  lemma OneConnMoves(s: Store, a: Action, c: ConnId, n: Conn, s': Store)
    requires c in s.conns && s'.conns == s.conns[c := n] && ConnMoves(s, a, c, s.conns[c], n)
    requires Upserted(s, a).Some? ==> Upserted(s, a).value == c
    requires (a.DoSync? || a.DoSyncDead?) ==> a.c == c
    requires forall d :: Severs(s, a, d) || Resumes(s, a, d) ==> d == c
    requires forall d :: !Removes(s, a, d)
    ensures ConnsMove(s, a, s')
  {
  }

  lemma OneConnGoes(s: Store, a: Action, c: ConnId, s': Store)
    requires c in s.conns && s'.conns == s.conns - {c} && Upserted(s, a).None? && !a.DoSync? && !a.DoSyncDead?
    requires forall d :: !Severs(s, a, d) && !Resumes(s, a, d) && (Removes(s, a, d) <==> d == c)
    ensures ConnsMove(s, a, s')
  {
  }

  lemma OneConnIsMade(s: Store, a: Action, n: Conn, s': Store)
    requires Upserted(s, a).Some? && Upserted(s, a).value !in s.conns && ConnMade(s, a, n)
    requires s'.conns == s.conns[Upserted(s, a).value := n]
    ensures ConnsMove(s, a, s')
  {
    assert forall d :: !Severs(s, a, d) && !Resumes(s, a, d) && !Removes(s, a, d);
  }

  lemma ConnectMovesConns(s: Store, s0: Store, a: Action, d: Disclaimer)
    requires Integrity(s) && Enabled(s, a) && (a.DoIntegrate? || a.DoComplete?) && s0.conns == s.conns
    requires SessionUsable(a.x, a.probe) && AcceptedIn(s, a) == Some(d)
    requires Upserted(s, a) == Some(KeyedConn(s, a.user, a.broker, a.x.ref.value, a.newId))
    ensures ConnsMove(s, a, UpsertConn(s0, a.user, a.broker, a.x.ref.value, a.probe.ProbedLive?, a.x.token, d,
                                       a.newId).0)
  {
    var c := Upserted(s, a).value;
    SameConnsSameKey(s, s0, a.user, a.broker, a.x.ref.value, a.newId);
    FoundHasKey(s0, a.user, a.broker, a.x.ref.value);
    var s1 := UpsertConn(s0, a.user, a.broker, a.x.ref.value, a.probe.ProbedLive?, a.x.token, d, a.newId).0;
    if FindConn(s0, a.user, a.broker, a.x.ref.value).Some? {
      OneConnMoves(s, a, c, s1.conns[c], s1);
    } else {
      NewKey(s0, s, a);
      OneConnIsMade(s, a, s1.conns[c], s1);
    }
  }

  lemma NewKey(s0: Store, s: Store, a: Action)
    requires Integrity(s) && Enabled(s, a) && (a.DoIntegrate? || a.DoComplete?) && s0.conns == s.conns
    requires SessionUsable(a.x, a.probe) && FindConn(s0, a.user, a.broker, a.x.ref.value).None?
    ensures KeyedConn(s, a.user, a.broker, a.x.ref.value, a.newId) == a.newId
  {
    SameConnsSameKey(s, s0, a.user, a.broker, a.x.ref.value, a.newId);
  }

  /** WHAT MAY HAPPEN TO A CONNECTION: its key never changes; a sync alone dates it; a connect alone gives it a token
      and a disclaimer, the ones it came with; and it is removed by a confirmed clear of it switched off, or with the
      account it is rescued from, and by nothing else. */
  lemma StepMovesConns(s: Store, a: Action)
    requires Integrity(s) && Enabled(s, a)
    ensures ConnsMove(s, a, Step(s, a))
  {
    if !ActsOnConns(a) {
      QuietKeepsConns(s, a);
      QuietActsOnNone(s, a);
      ConnsStand(s, a, Step(s, a));
    } else if a.DoIntegrate? || a.DoComplete? {
      SessionMovesConns(s, a);
    } else {
      ActMovesConns(s, a);
    }
  }

  lemma ActMovesConns(s: Store, a: Action)
    requires Integrity(s) && Enabled(s, a) && ActsOnConns(a) && !a.DoIntegrate? && !a.DoComplete?
    ensures ConnsMove(s, a, Step(s, a))
  {
    match a {
      case DoSever(u, c) => SeverMovesConns(s, u, c);
      case DoActivate(u, c) => ActivateMovesConns(s, u, c);
      case DoUnlink(u, k) => UnlinkMovesConns(s, u, k);
      case DoClear(u, c, confirm) => ClearMovesConns(s, u, c, confirm);
      case DoRescue(u, k, to, confirm, rows, book) => RescueMovesConns(s, u, k, to, confirm, rows, book);
      case DoSyncDead(u, c) => SyncDeadMovesConns(s, u, c);
      case DoSync(u, c, rows, now) => SyncMovesConns(s, u, c, rows, now);
    }
  }

  lemma SessionMovesConns(s: Store, a: Action)
    requires Integrity(s) && Enabled(s, a) && (a.DoIntegrate? || a.DoComplete?)
    ensures ConnsMove(s, a, Step(s, a))
  {
    if a.DoComplete? { CompleteEitherPersistsOrRefuses(s, a); }
    if Upserted(s, a).Some? {
      var s0 := if a.DoComplete? then Consume(s, a.state.value) else s;
      var d := AcceptedIn(s, a).value;
      ConnectMovesConns(s, s0, a, d);
      PersistedConns(s0, a, d);
    } else {
      ConnsStand(s, a, Step(s, a));
    }
  }

  lemma PersistedConns(s0: Store, a: Action, d: Disclaimer)
    requires (a.DoIntegrate? || a.DoComplete?) && SessionUsable(a.x, a.probe)
    ensures Persist(s0, a.user, a.broker, a.x, a.probe, d, a.newId, a.crash).0.conns
            == UpsertConn(s0, a.user, a.broker, a.x.ref.value, a.probe.ProbedLive?, a.x.token, d, a.newId).0.conns
  {
  }

  lemma SeverMovesConns(s: Store, u: UserId, c: ConnId)
    ensures ConnsMove(s, DoSever(u, c), Sever(s, u, c).0)
  {
    var a := DoSever(u, c);
    if Owns(s, u, c) {
      OneConnMoves(s, a, c, s.conns[c].(enabled := false), SeverBinding(s, c));
    } else {
      ConnsStand(s, a, s);
    }
  }

  lemma ActivateMovesConns(s: Store, u: UserId, c: ConnId)
    ensures ConnsMove(s, DoActivate(u, c), Activate(s, u, c).0)
  {
    var a := DoActivate(u, c);
    if Owns(s, u, c) {
      OneConnMoves(s, a, c, s.conns[c].(enabled := true), ResumeBinding(s, c));
    } else {
      ConnsStand(s, a, s);
    }
  }

  lemma UnlinkMovesConns(s: Store, u: UserId, k: AccountId)
    requires Integrity(s)
    ensures ConnsMove(s, DoUnlink(u, k), Unlink(s, u, k).0)
  {
    var a := DoUnlink(u, k);
    if OwnsAccount(s, u, k) && s.accounts[k].conn.Some? {
      var c := s.accounts[k].conn.value;
      OneConnMoves(s, a, c, s.conns[c].(enabled := false), SeverBinding(s, c));
    } else {
      ConnsStand(s, a, s);
    }
  }

  lemma ClearMovesConns(s: Store, u: UserId, c: ConnId, confirm: bool)
    ensures ConnsMove(s, DoClear(u, c, confirm), Clear(s, u, c, confirm).0)
  {
    var a := DoClear(u, c, confirm);
    if Clears(s, a, c) { OneConnGoes(s, a, c, Forget(s, c)); } else { ConnsStand(s, a, s); }
  }

  lemma RescueMovesConns(s: Store, u: UserId, k: AccountId, to: AccountId, confirm: bool, rows: seq<BrokerHolding>,
                         book: Book)
    requires Integrity(s)
    ensures ConnsMove(s, DoRescue(u, k, to, confirm, rows, book), Rescue(s, u, k, to, confirm, rows, book).0)
  {
    var a := DoRescue(u, k, to, confirm, rows, book);
    RescuesExactly(s, a);
    if Rescues(s, a) {
      OneConnGoes(s, a, s.accounts[k].conn.value, Rescue(s, u, k, to, confirm, rows, book).0);
    } else {
      ConnsStand(s, a, s);
    }
  }

  lemma SyncDeadMovesConns(s: Store, u: UserId, c: ConnId)
    requires c in s.conns
    ensures ConnsMove(s, DoSyncDead(u, c), MarkDead(s, c))
  {
    OneConnMoves(s, DoSyncDead(u, c), c, s.conns[c].(sessionLive := false), MarkDead(s, c));
  }

  lemma SyncMovesConns(s: Store, u: UserId, c: ConnId, rows: seq<BrokerHolding>, now: Time)
    requires c in s.conns
    ensures ConnsMove(s, DoSync(u, c, rows, now), Overwrite(s, c, rows, now))
  {
    var n := s.conns[c].(lastSyncedAt := Some(now), sessionLive := true);
    OneConnMoves(s, DoSync(u, c, rows, now), c, n, Overwrite(s, c, rows, now));
  }

  lemma RescuesExactly(s: Store, a: Action)
    requires Integrity(s) && a.DoRescue?
    ensures Rescue(s, a.user, a.a, a.to, a.confirm, a.rows, a.book).1.Changed? <==> Rescues(s, a)
  {
    if Expressible(a.rows) {
      forall b | b in a.rows ensures b.instrument.Some? {
        var i :| 0 <= i < |a.rows| && a.rows[i] == b;
      }
    } else {
      var i :| 0 <= i < |a.rows| && a.rows[i].instrument.None?;
      assert a.rows[i] in a.rows;
    }
  }

  // ---------- accounts ----------

  ghost predicate AccountMoves(s: Store, a: Action, k: AccountId, o: Account, n: Account) {
    && n.user == o.user
    && n.name == (if Patches(s, a, k) && a.rename.Some? then a.rename.value else o.name)
    && n.broker == (if Patches(s, a, k) && a.retag.Some? then a.retag.value else o.broker)
    && n.conn == (if Binds(s, a, k) then Some(a.c)
                  else if o.conn.Some? && Removes(s, a, o.conn.value) then None else o.conn)
    && n.state == (if Binds(s, a, k) then LinkedLive
                   else if o.conn.None? then o.state
                   else if Severs(s, a, o.conn.value) || Removes(s, a, o.conn.value) then LinkedStale
                   else if Resumes(s, a, o.conn.value) || (Upserted(s, a) == o.conn && !Crashed(a)) then LinkedLive
                   else o.state)
  }

  /** The same of accounts. */
  ghost predicate AccountsMove(s: Store, a: Action, s': Store) {
    && (forall k :: k in s.accounts ==> (k !in s'.accounts <==> Deletes(s, a, k) || (Rescues(s, a) && k == a.a)))
    && (forall k :: k in s.accounts && k in s'.accounts ==> AccountMoves(s, a, k, s.accounts[k], s'.accounts[k]))
    && (forall k :: k in s'.accounts && k !in s.accounts ==>
          Creates(s, a) && k == a.a
          && var n := s'.accounts[k];
             n.user == a.user && n.broker == a.broker && n.name == a.name && n.conn.None? && n.state == Manual)
    && (Creates(s, a) ==> a.a in s'.accounts)
  }

  /** The operation leaves the list of accounts, their names and labels alone. */
  ghost predicate KeepsAccounts(s: Store, a: Action) {
    !Creates(s, a) && !Rescues(s, a) && forall k :: !Binds(s, a, k) && !Deletes(s, a, k) && !Patches(s, a, k)
  }

  /** And acts on no connection but `c`. */
  ghost predicate ActsOn(s: Store, a: Action, c: ConnId) {
    && (forall d :: Severs(s, a, d) || Resumes(s, a, d) || Removes(s, a, d) ==> d == c)
    && (Upserted(s, a).Some? ==> Upserted(s, a).value == c)
  }

  lemma AccountsStand(s: Store, a: Action, s': Store)
    requires s'.accounts == s.accounts && KeepsAccounts(s, a)
    requires ActsOnNone(s, a) || (Upserted(s, a).Some? && Crashed(a) && ActsOn(s, a, Upserted(s, a).value)
                                  && forall d :: !Severs(s, a, d) && !Resumes(s, a, d) && !Removes(s, a, d))
    ensures AccountsMove(s, a, s')
  {
  }

  lemma BoundAccountMoves(s: Store, a: Action, c: ConnId, s': Store)
    requires KeepsAccounts(s, a) && ActsOn(s, a, c) && s'.accounts.Keys == s.accounts.Keys
    requires forall k :: k in s.accounts ==>
               if s.accounts[k].conn == Some(c) then AccountMoves(s, a, k, s.accounts[k], s'.accounts[k])
               else s'.accounts[k] == s.accounts[k]
    ensures AccountsMove(s, a, s')
  {
    forall k | k in s.accounts && s.accounts[k].conn != Some(c)
      ensures AccountMoves(s, a, k, s.accounts[k], s'.accounts[k])
    {
    }
  }

  /** WHAT MAY HAPPEN TO AN ACCOUNT: its user never changes; its name and label only when its owner changes them to
      what is free; it is bound by linking alone and freed by losing its connection; it is manual until bound, and
      then live or stale as its connection was last switched. */
  lemma StepMovesAccounts(s: Store, a: Action)
    requires Integrity(s) && Enabled(s, a)
    ensures AccountsMove(s, a, Step(s, a))
  {
    if a.DoIntegrate? || a.DoComplete? {
      ConnectMovesAccounts(s, a);
    } else if a.DoBegin? || a.DoEnterManually? || a.DoSync? || a.DoSyncDead? {
      QuietActsOnNone(s, a);
      AccountsStand(s, a, Step(s, a));
    } else {
      ActMovesAccounts(s, a);
    }
  }

  lemma ActMovesAccounts(s: Store, a: Action)
    requires Integrity(s) && Enabled(s, a) && !a.DoIntegrate? && !a.DoComplete?
    requires !a.DoBegin? && !a.DoEnterManually? && !a.DoSync? && !a.DoSyncDead?
    ensures AccountsMove(s, a, Step(s, a))
  {
    match a {
      case DoLink(u, k, c, hasTransactions, confirm) => LinkMovesAccounts(s, u, k, c, hasTransactions, confirm);
      case DoRescue(u, k, to, confirm, rows, book) => RescueMovesAccounts(s, u, k, to, confirm, rows, book);
      case DoSever(u, c) => SeverMovesAccounts(s, u, c);
      case DoUnlink(u, k) => UnlinkMovesAccounts(s, u, k);
      case DoActivate(u, c) => ActivateMovesAccounts(s, u, c);
      case DoClear(u, c, confirm) => ClearMovesAccounts(s, u, c, confirm);
      case DoCreateAccount(u, k, name, b) => CreateMovesAccounts(s, u, k, name, b);
      case DoDeleteAccount(u, k, hasTransactions, confirm) => DeleteMovesAccounts(s, u, k, hasTransactions, confirm);
      case DoPatch(u, k, name, retag) => PatchMovesAccounts(s, u, k, name, retag);
    }
  }

  lemma ConnectMovesAccounts(s: Store, a: Action)
    requires Integrity(s) && Enabled(s, a) && (a.DoIntegrate? || a.DoComplete?)
    ensures AccountsMove(s, a, Step(s, a))
  {
    if a.DoComplete? { CompleteEitherPersistsOrRefuses(s, a); }
    if Upserted(s, a).None? || Crashed(a) {
      AccountsStand(s, a, Step(s, a));
    } else {
      var s0 := if a.DoComplete? then Consume(s, a.state.value) else s;
      SameConnsSameKey(s, s0, a.user, a.broker, a.x.ref.value, a.newId);
      PersistedAccounts(s0, a, AcceptedIn(s, a).value, Upserted(s, a).value);
      BoundAccountMoves(s, a, Upserted(s, a).value, Step(s, a));
    }
  }

  lemma PersistedAccounts(s0: Store, a: Action, d: Disclaimer, c: ConnId)
    requires (a.DoIntegrate? || a.DoComplete?) && SessionUsable(a.x, a.probe) && !Crashed(a) && BoundRight(s0)
    requires c == KeyedConn(s0, a.user, a.broker, a.x.ref.value, a.newId)
    ensures var after := Persist(s0, a.user, a.broker, a.x, a.probe, d, a.newId, a.crash).0.accounts;
            && after.Keys == s0.accounts.Keys
            && forall k :: k in s0.accounts ==>
                 after[k] == if s0.accounts[k].conn == Some(c) then s0.accounts[k].(state := LinkedLive)
                             else s0.accounts[k]
  {
    FoundHasKey(s0, a.user, a.broker, a.x.ref.value);
    var s1 := UpsertConn(s0, a.user, a.broker, a.x.ref.value, a.probe.ProbedLive?, a.x.token, d, a.newId).0;
    assert s1.accounts == s0.accounts;
    forall k | k in s0.accounts && s0.accounts[k].conn == Some(c)
      ensures Relink(s1, c).accounts[k] == s0.accounts[k].(state := LinkedLive)
    {
      assert s0.accounts[k].state != Manual;
    }
  }

  lemma SeverMovesAccounts(s: Store, u: UserId, c: ConnId)
    ensures AccountsMove(s, DoSever(u, c), Sever(s, u, c).0)
  {
    var a := DoSever(u, c);
    if Owns(s, u, c) { BoundAccountMoves(s, a, c, SeverBinding(s, c)); } else { AccountsStand(s, a, s); }
  }

  lemma ActivateMovesAccounts(s: Store, u: UserId, c: ConnId)
    ensures AccountsMove(s, DoActivate(u, c), Activate(s, u, c).0)
  {
    var a := DoActivate(u, c);
    if Owns(s, u, c) { BoundAccountMoves(s, a, c, ResumeBinding(s, c)); } else { AccountsStand(s, a, s); }
  }

  lemma UnlinkMovesAccounts(s: Store, u: UserId, k: AccountId)
    requires Integrity(s)
    ensures AccountsMove(s, DoUnlink(u, k), Unlink(s, u, k).0)
  {
    var a := DoUnlink(u, k);
    if OwnsAccount(s, u, k) && s.accounts[k].conn.Some? {
      BoundAccountMoves(s, a, s.accounts[k].conn.value, SeverBinding(s, s.accounts[k].conn.value));
    } else {
      AccountsStand(s, a, s);
    }
  }

  lemma ClearMovesAccounts(s: Store, u: UserId, c: ConnId, confirm: bool)
    ensures AccountsMove(s, DoClear(u, c, confirm), Clear(s, u, c, confirm).0)
  {
    var a := DoClear(u, c, confirm);
    if Clears(s, a, c) { BoundAccountMoves(s, a, c, Forget(s, c)); } else { AccountsStand(s, a, s); }
  }

  lemma RescueMovesAccounts(s: Store, u: UserId, k: AccountId, to: AccountId, confirm: bool, rows: seq<BrokerHolding>,
                            book: Book)
    requires Integrity(s)
    ensures AccountsMove(s, DoRescue(u, k, to, confirm, rows, book), Rescue(s, u, k, to, confirm, rows, book).0)
  {
    var a := DoRescue(u, k, to, confirm, rows, book);
    RescuesExactly(s, a);
    if Rescues(s, a) {
      var c := s.accounts[k].conn.value;
      OnlyAccountOf(s, k, c);
      var s' := MoveOut(s, u, k, to, c, rows, book);
      assert s'.accounts == s.accounts - {k};
      OneAccountGoes(s, a, s');
    } else {
      AccountsStand(s, a, s);
    }
  }

  lemma OneAccountGoes(s: Store, a: Action, s': Store)
    requires a.DoRescue? && Rescues(s, a) && s'.accounts == s.accounts - {a.a}
    requires forall o :: o in s.accounts && s.accounts[o].conn == s.accounts[a.a].conn ==> o == a.a
    ensures AccountsMove(s, a, s')
  {
  }

  lemma OnlyAccountOf(s: Store, k: AccountId, c: ConnId)
    requires OneAccountEach(s) && BoundTo(s, k, c)
    ensures forall o :: o in s.accounts && s.accounts[o].conn == Some(c) ==> o == k
  {
    forall o | o in s.accounts && s.accounts[o].conn == Some(c) ensures o == k { assert BoundTo(s, o, c); }
  }

  lemma LinkMovesAccounts(s: Store, u: UserId, k: AccountId, c: ConnId, hasTransactions: bool, confirm: bool)
    ensures AccountsMove(s, DoLink(u, k, c, hasTransactions, confirm), Link(s, u, k, c, hasTransactions, confirm).0)
  {
    var a := DoLink(u, k, c, hasTransactions, confirm);
    BindsExactly(s, a);
    if !Binds(s, a, k) { AccountsStand(s, a, s); }
  }

  lemma CreateMovesAccounts(s: Store, u: UserId, k: AccountId, name: string, b: Broker)
    requires k !in s.accounts
    ensures AccountsMove(s, DoCreateAccount(u, k, name, b), CreateAccount(s, u, k, name, b).0)
  {
    if o :| o in s.accounts && s.accounts[o].user == u && s.accounts[o].name == name { assert OwnsAccount(s, u, o); }
  }

  lemma DeletesExactly(s: Store, u: UserId, k: AccountId, hasTransactions: bool, confirm: bool)
    requires BoundRight(s)
    ensures DeleteAccount(s, u, k, hasTransactions, confirm).1.Changed?
            <==> Deletes(s, DoDeleteAccount(u, k, hasTransactions, confirm), k)
  {
    if o :| o in s.accounts && s.accounts[o].user == u && o != k { assert OwnsAccount(s, u, o); }
  }

  lemma DeleteMovesAccounts(s: Store, u: UserId, k: AccountId, hasTransactions: bool, confirm: bool)
    requires Integrity(s)
    ensures AccountsMove(s, DoDeleteAccount(u, k, hasTransactions, confirm),
                         DeleteAccount(s, u, k, hasTransactions, confirm).0)
  {
    var a := DoDeleteAccount(u, k, hasTransactions, confirm);
    DeletesExactly(s, u, k, hasTransactions, confirm);
    if !Deletes(s, a, k) { AccountsStand(s, a, s); }
  }

  lemma PatchesExactly(s: Store, u: UserId, k: AccountId, name: Option<string>, retag: Option<Broker>)
    ensures Patch(s, u, k, name, retag).1.Changed?
            <==> Patches(s, DoPatch(u, k, name, retag), k) && (name.Some? || retag.Some?)
  {
    if name.Some? {
      if o :| o in s.accounts && o != k && s.accounts[o].user == u && s.accounts[o].name == name.value {
        assert OwnsAccount(s, u, o);
      }
    }
  }

  lemma PatchMovesAccounts(s: Store, u: UserId, k: AccountId, name: Option<string>, retag: Option<Broker>)
    ensures AccountsMove(s, DoPatch(u, k, name, retag), Patch(s, u, k, name, retag).0)
  {
    var a := DoPatch(u, k, name, retag);
    PatchesExactly(s, u, k, name, retag);
    if Patches(s, a, k) && (name.Some? || retag.Some?) {
      PatchedOne(s, a, Patch(s, u, k, name, retag).0);
    } else {
      assert Patch(s, u, k, name, retag).0 == s;
    }
  }

  lemma PatchedOne(s: Store, a: Action, s': Store)
    requires a.DoPatch? && Patches(s, a, a.a)
    requires s'.accounts == s.accounts[a.a := s.accounts[a.a].(
               name := if a.rename.Some? then a.rename.value else s.accounts[a.a].name,
               broker := if a.retag.Some? then a.retag.value else s.accounts[a.a].broker)]
    ensures AccountsMove(s, a, s')
  {
  }

  // ---------- holdings, manual holdings, authorization states ----------

  /** Broker rows go with their connection, and are replaced by a sync of it; nothing else touches them. */
  ghost predicate HoldingsMove(s: Store, a: Action, s': Store) {
    forall h: BrokerHolding ::
      h in s'.holdings <==>
        || (a.DoSync? && h in a.rows)
        || (h in s.holdings && !Removes(s, a, h.conn) && !(a.DoSync? && a.c == h.conn))
  }

  lemma HoldingsStand(s: Store, a: Action, s': Store)
    requires s'.holdings == s.holdings && !a.DoSync? && forall c :: !Removes(s, a, c)
    ensures HoldingsMove(s, a, s')
  {
  }

  lemma PersistKeepsRows(s: Store, u: UserId, b: Broker, x: Exchange, probe: Probe, d: Disclaimer, newId: ConnId,
                         crash: bool)
    requires x.Session?
    ensures var s' := Persist(s, u, b, x, probe, d, newId, crash).0;
            s'.holdings == s.holdings && s'.manual == s.manual && s'.auth == s.auth
  {
  }

  lemma ConnectKeepsRows(s: Store, a: Action)
    requires Enabled(s, a) && (a.DoIntegrate? || a.DoComplete?)
    ensures Step(s, a).holdings == s.holdings && Step(s, a).manual == s.manual
    ensures a.DoIntegrate? ==> Step(s, a).auth == s.auth
    ensures a.DoComplete? ==>
              Step(s, a).auth == if a.broker in a.reg.implemented && a.broker in a.reg.interactive
                                    && Consumable(s, a.user, a.broker, a.state, a.now)
                                 then Consume(s, a.state.value).auth else s.auth
  {
    if a.x.Session? {
      if a.DoIntegrate? && a.accepted.Some? {
        PersistKeepsRows(s, a.user, a.broker, a.x, a.probe, a.accepted.value, a.newId, a.crash);
      }
      if a.DoComplete? && Consumable(s, a.user, a.broker, a.state, a.now) {
        PersistKeepsRows(Consume(s, a.state.value), a.user, a.broker, a.x, a.probe, s.auth[a.state.value].disclaimer,
                         a.newId, a.crash);
      }
    }
  }

  lemma OthersKeepHoldings(s: Store, a: Action)
    requires Enabled(s, a) && !a.DoSync? && !a.DoClear? && !a.DoRescue?
    ensures Step(s, a).holdings == s.holdings && forall c :: !Removes(s, a, c)
  {
    if a.DoIntegrate? || a.DoComplete? { ConnectKeepsRows(s, a); }
  }

  lemma StepMovesHoldings(s: Store, a: Action)
    requires Integrity(s) && Enabled(s, a)
    ensures HoldingsMove(s, a, Step(s, a))
  {
    if a.DoSync? {
      SyncMovesHoldings(s, a.user, a.c, a.rows, a.now);
    } else if a.DoClear? {
      ClearMovesHoldings(s, a.user, a.c, a.confirm);
    } else if a.DoRescue? {
      RescueMovesHoldings(s, a.user, a.a, a.to, a.confirm, a.rows, a.book);
    } else {
      OthersKeepHoldings(s, a);
      HoldingsStand(s, a, Step(s, a));
    }
  }

  lemma SyncMovesHoldings(s: Store, u: UserId, c: ConnId, rows: seq<BrokerHolding>, now: Time)
    requires c in s.conns
    ensures HoldingsMove(s, DoSync(u, c, rows, now), Overwrite(s, c, rows, now))
  {
    WithoutKeeps(s.holdings, c);
  }

  lemma ClearMovesHoldings(s: Store, u: UserId, c: ConnId, confirm: bool)
    ensures HoldingsMove(s, DoClear(u, c, confirm), Clear(s, u, c, confirm).0)
  {
    var a := DoClear(u, c, confirm);
    if Clears(s, a, c) { WithoutKeeps(s.holdings, c); } else { HoldingsStand(s, a, s); }
  }

  lemma RescueMovesHoldings(s: Store, u: UserId, k: AccountId, to: AccountId, confirm: bool, rows: seq<BrokerHolding>,
                            book: Book)
    requires Integrity(s)
    ensures HoldingsMove(s, DoRescue(u, k, to, confirm, rows, book), Rescue(s, u, k, to, confirm, rows, book).0)
  {
    var a := DoRescue(u, k, to, confirm, rows, book);
    RescuesExactly(s, a);
    if Rescues(s, a) {
      var c := s.accounts[k].conn.value;
      WithoutKeeps(s.holdings, c);
      RescuedHoldings(s, a, MoveOut(s, u, k, to, c, rows, book), c);
    } else {
      HoldingsStand(s, a, s);
    }
  }

  lemma RescuedHoldings(s: Store, a: Action, s': Store, c: ConnId)
    requires a.DoRescue? && Rescues(s, a) && s.accounts[a.a].conn == Some(c)
    requires forall h :: h in s'.holdings <==> h in s.holdings && h.conn != c
    ensures HoldingsMove(s, a, s')
  {
  }

  ghost predicate Wipes(s: Store, a: Action, k: AccountId) {
    Binds(s, a, k) || Deletes(s, a, k) || (Rescues(s, a) && k == a.a)
  }

  /** Hand-entered rows go when their account is bound, deleted or rescued from, or are replaced under their key; of a
      rescue's destination see BrokerRescue. */
  ghost predicate ManualMoves(s: Store, a: Action, s': Store) {
    && (forall h: ManualHolding :: !(Rescues(s, a) && h.account == a.to) ==>
          (h in s'.manual <==>
             || (Enters(s, a) && h == a.h)
             || (h in s.manual && !Wipes(s, a, h.account) && !(Enters(s, a) && SameKey(h, a.h)))))
    && (Rescues(s, a) ==> forall h: ManualHolding :: h in s'.manual && h.account == a.to ==> h.user == a.user)
  }

  lemma ManualStands(s: Store, a: Action, s': Store)
    requires s'.manual == s.manual && !Enters(s, a) && !Rescues(s, a) && forall k :: !Wipes(s, a, k)
    ensures ManualMoves(s, a, s')
  {
  }

  lemma OthersKeepManual(s: Store, a: Action)
    requires Enabled(s, a) && !a.DoLink? && !a.DoDeleteAccount? && !a.DoEnterManually? && !a.DoRescue?
    ensures Step(s, a).manual == s.manual && !Enters(s, a) && !Rescues(s, a) && forall k :: !Wipes(s, a, k)
  {
    if a.DoIntegrate? || a.DoComplete? { ConnectKeepsRows(s, a); }
  }

  lemma StepMovesManual(s: Store, a: Action)
    requires Integrity(s) && Enabled(s, a)
    ensures ManualMoves(s, a, Step(s, a))
  {
    if a.DoLink? {
      LinkMovesManual(s, a.user, a.a, a.c, a.hasTransactions, a.confirm);
    } else if a.DoDeleteAccount? {
      DeleteMovesManual(s, a.user, a.a, a.hasTransactions, a.confirm);
    } else if a.DoEnterManually? {
      EntryMovesManual(s, a.h);
    } else if a.DoRescue? {
      RescueMovesManual(s, a.user, a.a, a.to, a.confirm, a.rows, a.book);
    } else {
      OthersKeepManual(s, a);
      ManualStands(s, a, Step(s, a));
    }
  }

  /** One account's rows are wiped. */
  lemma ManualWiped(s: Store, a: Action, k: AccountId, s': Store)
    requires s'.manual == WithoutAccount(s.manual, k) && !Enters(s, a) && !Rescues(s, a)
    requires forall o :: Wipes(s, a, o) <==> o == k
    ensures ManualMoves(s, a, s')
  {
    WithoutAccountKeeps(s.manual, k);
  }

  lemma LinkMovesManual(s: Store, u: UserId, k: AccountId, c: ConnId, hasTransactions: bool, confirm: bool)
    ensures ManualMoves(s, DoLink(u, k, c, hasTransactions, confirm), Link(s, u, k, c, hasTransactions, confirm).0)
  {
    var a := DoLink(u, k, c, hasTransactions, confirm);
    BindsExactly(s, a);
    if Binds(s, a, k) {
      ManualWiped(s, a, k, Link(s, u, k, c, hasTransactions, confirm).0);
    } else {
      ManualStands(s, a, s);
    }
  }

  lemma DeleteMovesManual(s: Store, u: UserId, k: AccountId, hasTransactions: bool, confirm: bool)
    requires Integrity(s)
    ensures ManualMoves(s, DoDeleteAccount(u, k, hasTransactions, confirm),
                        DeleteAccount(s, u, k, hasTransactions, confirm).0)
  {
    var a := DoDeleteAccount(u, k, hasTransactions, confirm);
    DeletesExactly(s, u, k, hasTransactions, confirm);
    if Deletes(s, a, k) {
      ManualWiped(s, a, k, DeleteAccount(s, u, k, hasTransactions, confirm).0);
    } else {
      ManualStands(s, a, s);
    }
  }

  lemma EntryMovesManual(s: Store, h: ManualHolding)
    requires Integrity(s)
    ensures ManualMoves(s, DoEnterManually(h), EnterManually(s, h))
  {
    var a := DoEnterManually(h);
    if Enters(s, a) { PutManualPuts(s.manual, h); } else { ManualStands(s, a, s); }
  }

  lemma RescueMovesManual(s: Store, u: UserId, k: AccountId, to: AccountId, confirm: bool, rows: seq<BrokerHolding>,
                          book: Book)
    requires Integrity(s)
    ensures ManualMoves(s, DoRescue(u, k, to, confirm, rows, book), Rescue(s, u, k, to, confirm, rows, book).0)
  {
    var a := DoRescue(u, k, to, confirm, rows, book);
    RescuesExactly(s, a);
    if Rescues(s, a) {
      assert forall h :: h in s.manual && h.account == to ==> h.user == u;
      RescueIntoWrites(s.manual, book, u, to, rows);
      WithoutAccountKeeps(RescueInto(s.manual, book, u, to, rows), k);
      RescuedManual(s, a, RescueInto(s.manual, book, u, to, rows), Rescue(s, u, k, to, confirm, rows, book).0);
    } else {
      ManualStands(s, a, s);
    }
  }

  lemma RescuedManual(s: Store, a: Action, into: seq<ManualHolding>, s': Store)
    requires a.DoRescue? && Rescues(s, a)
    requires forall h :: h in into && h.account == a.to ==> h.user == a.user
    requires forall h: ManualHolding :: h.account != a.to ==> (h in into <==> h in s.manual)
    requires forall h :: h in s'.manual <==> h in into && h.account != a.a
    ensures ManualMoves(s, a, s')
  {
  }

  ghost predicate Begins(s: Store, a: Action) {
    && a.DoBegin? && a.broker in a.reg.implemented && a.broker in a.reg.interactive
    && a.accepted.Some? && a.accepted.value.version != ""
  }

  /** A state is spent by a completion of its own user and broker that presents it in time, whatever comes of it. */
  ghost predicate Spends(s: Store, a: Action, t: string) {
    && a.DoComplete? && a.broker in a.reg.implemented && a.broker in a.reg.interactive
    && a.state == Some(t) && t != "" && t in s.auth && a.now < s.auth[t].expiresAt
    && s.auth[t].user == a.user && s.auth[t].broker == a.broker && !s.auth[t].consumed
  }

  ghost predicate AuthMoves(s: Store, a: Action, s': Store) {
    && (forall t :: t in s.auth ==>
          t in s'.auth
          && s'.auth[t].user == s.auth[t].user && s'.auth[t].broker == s.auth[t].broker
          && s'.auth[t].disclaimer == s.auth[t].disclaimer && s'.auth[t].expiresAt == s.auth[t].expiresAt
          && (s'.auth[t].consumed <==> s.auth[t].consumed || Spends(s, a, t)))
    && (forall t :: t in s'.auth && t !in s.auth ==>
          Begins(s, a) && t == a.token
          && var n := s'.auth[t];
             n.user == a.user && n.broker == a.broker && Some(n.disclaimer) == a.accepted && n.expiresAt == a.until
             && !n.consumed)
    && (Begins(s, a) ==> a.token in s'.auth)
  }

  lemma AuthStands(s: Store, a: Action, s': Store)
    requires s'.auth == s.auth && !Begins(s, a) && forall t :: !Spends(s, a, t)
    ensures AuthMoves(s, a, s')
  {
  }

  lemma OthersKeepAuth(s: Store, a: Action)
    requires Enabled(s, a) && !a.DoComplete? && !a.DoBegin?
    ensures Step(s, a).auth == s.auth && !Begins(s, a) && forall t :: !Spends(s, a, t)
  {
    if a.DoIntegrate? { ConnectKeepsRows(s, a); }
  }

  lemma StepMovesAuth(s: Store, a: Action)
    requires Enabled(s, a)
    ensures AuthMoves(s, a, Step(s, a))
  {
    if a.DoComplete? {
      CompleteMovesAuth(s, a);
    } else if a.DoBegin? {
      BeginMovesAuth(s, a.reg, a.user, a.broker, a.accepted, a.token, a.until);
    } else {
      OthersKeepAuth(s, a);
      AuthStands(s, a, Step(s, a));
    }
  }

  lemma BeginMovesAuth(s: Store, reg: Registry, u: UserId, b: Broker, accepted: Option<Disclaimer>, token: string,
                       until: Time)
    requires token !in s.auth
    ensures AuthMoves(s, DoBegin(reg, u, b, accepted, token, until), Begin(s, reg, u, b, accepted, token, until).0)
  {
  }

  lemma CompleteMovesAuth(s: Store, a: Action)
    requires Enabled(s, a) && a.DoComplete?
    ensures AuthMoves(s, a, Step(s, a))
  {
    ConnectKeepsRows(s, a);
    SpentAuth(s, a, Step(s, a));
  }

  lemma SpentAuth(s: Store, a: Action, s': Store)
    requires a.DoComplete?
    requires s'.auth == if a.broker in a.reg.implemented && a.broker in a.reg.interactive
                           && Consumable(s, a.user, a.broker, a.state, a.now)
                        then Consume(s, a.state.value).auth else s.auth
    ensures AuthMoves(s, a, s')
  {
  }
}
