/**
 What every sequence of broker operations keeps: unique demat keys, one account per connection, no
 holdings outside a bound connection, one row per symbol and only owned ones, no manual ledger in a
 broker-fed book, one manual holding per instrument. All of it survives everything, including a rescue and
 a crash between the two writes of a reconnect.

 The agreement between a connection's `enabled` and its account's state is the subject of BrokerProjection.
 */
module BrokerInvariant {
  import opened Wrappers
  import opened BrokerModel
  import F = FifoLedger

  // ---------- integrity ----------

  ghost predicate UniqueKeys(s: Store) {
    forall c, d ::
      (&& c in s.conns && d in s.conns
       && s.conns[c].user == s.conns[d].user && s.conns[c].broker == s.conns[d].broker
       && s.conns[c].ref == s.conns[d].ref)
      ==> c == d
  }

  /** A bound account belongs to its connection's user and broker and is not manual; a live one is bound. */
  ghost predicate BoundRight(s: Store) {
    forall a :: a in s.accounts ==>
      && (s.accounts[a].conn.Some? ==>
            && s.accounts[a].conn.value in s.conns
            && s.conns[s.accounts[a].conn.value].user == s.accounts[a].user
            && s.conns[s.accounts[a].conn.value].broker == s.accounts[a].broker
            && s.accounts[a].state != Manual)
      && (s.accounts[a].state == LinkedLive ==> s.accounts[a].conn.Some?)
  }

  ghost predicate OneAccountEach(s: Store) {
    forall a, b, c :: BoundTo(s, a, c) && BoundTo(s, b, c) ==> a == b
  }

  ghost predicate HeldUnderBound(s: Store) {
    forall h :: h in s.holdings ==> h.conn in s.conns && s.conns[h.conn].user == h.user && Bound(s, h.conn)
  }

  ghost predicate DistinctRows(holdings: seq<BrokerHolding>) {
    forall i, j :: 0 <= i < j < |holdings| && holdings[i].conn == holdings[j].conn
                   ==> holdings[i].symbol != holdings[j].symbol
  }

  ghost predicate ManualOnlyInManual(s: Store) {
    forall h :: h in s.manual ==>
      h.account in s.accounts && s.accounts[h.account].user == h.user && s.accounts[h.account].state == Manual
  }

  /** A position settled out is not a holding: no row is stored without a quantity. */
  ghost predicate OwnedRows(holdings: seq<BrokerHolding>) {
    forall h :: h in holdings ==> h.quantity > 0.0
  }

  ghost predicate DistinctManual(manual: seq<ManualHolding>) {
    forall i, j :: 0 <= i < j < |manual| && manual[i].account == manual[j].account
                   ==> manual[i].instrument != manual[j].instrument
  }

  ghost predicate Integrity(s: Store) {
    && UniqueKeys(s) && BoundRight(s) && OneAccountEach(s)
    && HeldUnderBound(s) && DistinctRows(s.holdings) && OwnedRows(s.holdings)
    && ManualOnlyInManual(s) && DistinctManual(s.manual)
  }

  // ---------- lookups are determined ----------

  lemma FindConnIs(s: Store, u: UserId, b: Broker, ref: string, c: ConnId)
    requires UniqueKeys(s) && HasKey(s, c, u, b, ref)
    ensures FindConn(s, u, b, ref) == Some(c)
  {
  }

  lemma LinkedAccountIs(s: Store, a: AccountId, c: ConnId)
    requires OneAccountEach(s) && BoundTo(s, a, c)
    ensures LinkedAccount(s, c) == Some(a)
  {
  }

  // ---------- steps ----------

  datatype Action =
    | DoSever(user: UserId, c: ConnId)
    | DoActivate(user: UserId, c: ConnId)
    | DoClear(user: UserId, c: ConnId, confirm: bool)
    | DoBegin(reg: Registry, user: UserId, broker: Broker, accepted: Option<Disclaimer>, token: string, until: Time)
    | DoIntegrate(reg: Registry, user: UserId, broker: Broker, accepted: Option<Disclaimer>, x: Exchange,
                  probe: Probe, newId: ConnId, crash: bool)
    | DoComplete(reg: Registry, user: UserId, broker: Broker, state: Option<string>, expected: Option<ConnId>,
                 x: Exchange, probe: Probe, now: Time, newId: ConnId, crash: bool)
    | DoCreateAccount(user: UserId, a: AccountId, name: string, broker: Broker)
    | DoLink(user: UserId, a: AccountId, c: ConnId, hasTransactions: bool, confirm: bool)
    | DoUnlink(user: UserId, a: AccountId)
    | DoDeleteAccount(user: UserId, a: AccountId, hasTransactions: bool, confirm: bool)
    | DoPatch(user: UserId, a: AccountId, rename: Option<string>, retag: Option<Broker>)
    | DoRescue(user: UserId, a: AccountId, to: AccountId, confirm: bool, rows: seq<BrokerHolding>, book: Book)
    | DoEnterManually(h: ManualHolding)
    | DoSyncDead(user: UserId, c: ConnId)
    | DoSync(user: UserId, c: ConnId, rows: seq<BrokerHolding>, now: Time)

  ghost predicate SnapshotOf(rows: seq<BrokerHolding>, u: UserId, c: ConnId) {
    && (forall i :: 0 <= i < |rows| ==> rows[i].conn == c && rows[i].user == u)
    && (forall i, j :: 0 <= i < j < |rows| ==> rows[i].symbol != rows[j].symbol)
    && OwnedRows(rows)
  }

  ghost predicate MaySync(s: Store, u: UserId, c: ConnId) {
    Owns(s, u, c) && s.conns[c].enabled && Bound(s, c)
  }

  /** The ledgers a rescue reads replay to the destination's holdings; an instrument not held has none. */
  ghost predicate BookIsTrue(s: Store, to: AccountId, book: Book) {
    forall i: nat ::
      && F.ValidLedger(book.ledgers(i)) && F.Replay(book.ledgers(i)).Some?
      && match FindManual(s.manual, to, i)
         case None => book.ledgers(i) == []
         case Some(h) => F.Position(h.quantity, h.avgCost, h.invested, h.realized) == PositionOf(book.ledgers(i))
  }

  /** `rows` are the holdings of the account's connection, in some order. */
  ghost predicate RowsOf(s: Store, a: AccountId, rows: seq<BrokerHolding>) {
    a in s.accounts && s.accounts[a].conn.Some? ==>
      multiset(rows) == multiset(RowsUnder(s.holdings, s.accounts[a].conn.value))
  }

  /** Generated ids and tokens are fresh; a sync passed its guards and writes its own snapshot; a rescue reads
      what is there. */
  ghost predicate Enabled(s: Store, a: Action) {
    match a
    case DoIntegrate(_, _, _, _, _, _, newId, _) => newId !in s.conns
    case DoComplete(_, _, _, _, _, _, _, _, newId, _) => newId !in s.conns
    case DoCreateAccount(_, id, _, _) => id !in s.accounts
    case DoBegin(_, _, _, _, token, _) => token !in s.auth
    case DoRescue(_, a, to, _, rows, book) => RowsOf(s, a, rows) && BookIsTrue(s, to, book)
    case DoSyncDead(u, c) => MaySync(s, u, c)
    case DoSync(u, c, rows, _) => MaySync(s, u, c) && SnapshotOf(rows, u, c)
    case _ => true
  }

  ghost function Step(s: Store, a: Action): Store
    requires Enabled(s, a)
  {
    match a
    case DoSever(u, c) => Sever(s, u, c).0
    case DoActivate(u, c) => Activate(s, u, c).0
    case DoClear(u, c, confirm) => Clear(s, u, c, confirm).0
    case DoBegin(reg, u, b, accepted, token, until) => Begin(s, reg, u, b, accepted, token, until).0
    case DoIntegrate(reg, u, b, accepted, x, probe, newId, crash) =>
      Integrate(s, reg, u, b, accepted, x, probe, newId, crash).0
    case DoComplete(reg, u, b, state, expected, x, probe, now, newId, crash) =>
      Complete(s, reg, u, b, state, expected, x, probe, now, newId, crash).0
    case DoCreateAccount(u, id, name, b) => CreateAccount(s, u, id, name, b).0
    case DoLink(u, id, c, hasTransactions, confirm) => Link(s, u, id, c, hasTransactions, confirm).0
    case DoUnlink(u, id) => Unlink(s, u, id).0
    case DoDeleteAccount(u, id, hasTransactions, confirm) => DeleteAccount(s, u, id, hasTransactions, confirm).0
    case DoPatch(u, id, name, retag) => Patch(s, u, id, name, retag).0
    case DoRescue(u, id, to, confirm, rows, book) => Rescue(s, u, id, to, confirm, rows, book).0
    case DoEnterManually(h) => EnterManually(s, h)
    case DoSyncDead(_, c) => MarkDead(s, c)
    case DoSync(_, c, rows, now) => Overwrite(s, c, rows, now)
  }

  ghost predicate IsRun(s: Store, actions: seq<Action>)
    decreases |actions|
  {
    actions == [] || (Enabled(s, actions[0]) && IsRun(Step(s, actions[0]), actions[1..]))
  }

  ghost function After(s: Store, actions: seq<Action>): Store
    requires IsRun(s, actions)
    decreases |actions|
  {
    if actions == [] then s else After(Step(s, actions[0]), actions[1..])
  }

  // ---------- integrity is kept ----------

  /** Only feed facts moved: the same connections under the same keys, the same accounts with the same
      bindings, the same holdings. */
  ghost predicate Refed(s: Store, s': Store) {
    && s'.conns.Keys == s.conns.Keys
    && (forall c :: c in s.conns ==>
          s'.conns[c].user == s.conns[c].user && s'.conns[c].broker == s.conns[c].broker
          && s'.conns[c].ref == s.conns[c].ref)
    && s'.accounts.Keys == s.accounts.Keys
    && (forall a :: a in s.accounts ==>
          && s'.accounts[a] == s.accounts[a].(state := s'.accounts[a].state)
          && (if s.accounts[a].conn.Some? then s'.accounts[a].state != Manual
              else s'.accounts[a].state == s.accounts[a].state))
    && s'.holdings == s.holdings && s'.manual == s.manual
  }

  lemma RefedBinding(s: Store, s': Store)
    requires Refed(s, s')
    ensures forall a, c :: BoundTo(s', a, c) <==> BoundTo(s, a, c)
    ensures forall c :: Bound(s', c) <==> Bound(s, c)
  {
    forall a, c ensures BoundTo(s', a, c) <==> BoundTo(s, a, c) {
    }
    forall c ensures Bound(s', c) <==> Bound(s, c) {
      if Bound(s, c) { var a :| BoundTo(s, a, c); assert BoundTo(s', a, c); }
      if Bound(s', c) { var a :| BoundTo(s', a, c); assert BoundTo(s, a, c); }
    }
  }

  lemma RefedKeepsIntegrity(s: Store, s': Store)
    requires Integrity(s) && Refed(s, s')
    ensures Integrity(s')
  {
    RefedBinding(s, s');
  }

  lemma SetStateRefeeds(s: Store, s': Store, c: ConnId, st: AccountState)
    requires Integrity(s) && c in s.conns && st != Manual
    requires s'.accounts == SetState(s.accounts, c, st) && s'.holdings == s.holdings && s'.manual == s.manual
    requires exists enabled: bool :: s'.conns == s.conns[c := s.conns[c].(enabled := enabled)]
    ensures Refed(s, s')
  {
  }

  lemma SeverRefeeds(s: Store, c: ConnId)
    requires Integrity(s) && c in s.conns
    ensures Refed(s, SeverBinding(s, c))
  {
    SetStateRefeeds(s, SeverBinding(s, c), c, LinkedStale);
  }

  lemma ResumeRefeeds(s: Store, c: ConnId)
    requires Integrity(s) && c in s.conns
    ensures Refed(s, ResumeBinding(s, c))
  {
    SetStateRefeeds(s, ResumeBinding(s, c), c, LinkedLive);
  }

  lemma MarkDeadRefeeds(s: Store, c: ConnId)
    requires Integrity(s) && c in s.conns
    ensures Refed(s, MarkDead(s, c))
  {
  }

  lemma RelinkRefeeds(s: Store, c: ConnId)
    requires Integrity(s)
    ensures Refed(s, Relink(s, c))
  {
  }

  lemma UpsertKeepsIntegrity(s: Store, u: UserId, b: Broker, ref: string, live: bool, token: nat, d: Disclaimer,
                             newId: ConnId)
    requires Integrity(s) && newId !in s.conns
    ensures var (s1, c) := UpsertConn(s, u, b, ref, live, token, d, newId);
            Integrity(s1) && HasKey(s1, c, u, b, ref) && s1.conns[c].enabled && s1.accounts == s.accounts
  {
    var (s1, c) := UpsertConn(s, u, b, ref, live, token, d, newId);
    if FindConn(s, u, b, ref).Some? {
      assert HasKey(s, c, u, b, ref);
      assert Refed(s, s1);
      RefedKeepsIntegrity(s, s1);
    } else {
      assert forall k :: !HasKey(s, k, u, b, ref);
      NewConnKeepsIntegrity(s, s1, newId);
    }
  }

  lemma NewConnKeepsIntegrity(s: Store, s1: Store, newId: ConnId)
    requires Integrity(s) && newId !in s.conns && newId in s1.conns
    requires s1 == s.(conns := s.conns[newId := s1.conns[newId]])
    requires var n := s1.conns[newId]; forall k :: !HasKey(s, k, n.user, n.broker, n.ref)
    ensures Integrity(s1)
  {
    var n := s1.conns[newId];
    assert UniqueKeys(s1) by {
      forall c, d | c in s1.conns && d in s1.conns
        && s1.conns[c].user == s1.conns[d].user && s1.conns[c].broker == s1.conns[d].broker
        && s1.conns[c].ref == s1.conns[d].ref
        ensures c == d
      {
        assert !HasKey(s, c, n.user, n.broker, n.ref) && !HasKey(s, d, n.user, n.broker, n.ref);
      }
    }
    assert forall a, c :: BoundTo(s1, a, c) == BoundTo(s, a, c);
    SameAccountsSameBound(s, s1);
  }

  lemma SameAccountsSameBound(s: Store, s': Store)
    requires s'.accounts == s.accounts
    ensures forall c :: Bound(s', c) <==> Bound(s, c)
  {
    forall c ensures Bound(s', c) <==> Bound(s, c) {
      if Bound(s, c) { var a :| BoundTo(s, a, c); assert BoundTo(s', a, c); }
      if Bound(s', c) { var a :| BoundTo(s', a, c); assert BoundTo(s, a, c); }
    }
  }

  lemma PersistKeepsIntegrity(s: Store, u: UserId, b: Broker, x: Exchange, probe: Probe, d: Disclaimer,
                              newId: ConnId, crash: bool)
    requires Integrity(s) && newId !in s.conns && x.Session?
    ensures Integrity(Persist(s, u, b, x, probe, d, newId, crash).0)
  {
    if x.ref.Some? && x.ref.value != "" && !probe.ProbeFaulted? {
      UpsertKeepsIntegrity(s, u, b, x.ref.value, probe.ProbedLive?, x.token, d, newId);
      var (s1, c) := UpsertConn(s, u, b, x.ref.value, probe.ProbedLive?, x.token, d, newId);
      RelinkRefeeds(s1, c);
      RefedKeepsIntegrity(s1, Relink(s1, c));
    }
  }

  lemma {:induction false} WithoutKeeps(holdings: seq<BrokerHolding>, c: ConnId)
    ensures forall h :: h in Without(holdings, c) <==> h in holdings && h.conn != c
  {
    if holdings != [] {
      var n := |holdings| - 1;
      WithoutKeeps(holdings[..n], c);
      assert holdings == holdings[..n] + [holdings[n]];
    }
  }

  lemma {:induction false} WithoutStaysDistinct(holdings: seq<BrokerHolding>, c: ConnId)
    requires DistinctRows(holdings)
    ensures DistinctRows(Without(holdings, c))
  {
    if holdings != [] {
      var n := |holdings| - 1;
      var front := holdings[..n];
      WithoutStaysDistinct(front, c);
      WithoutKeeps(front, c);
      var kept := Without(front, c);
      forall i | 0 <= i < |kept| && kept[i].conn == holdings[n].conn
        ensures kept[i].symbol != holdings[n].symbol
      {
        assert kept[i] in front;
        var k :| 0 <= k < n && front[k] == kept[i];
        assert holdings[k] == kept[i];
      }
    }
  }

  lemma {:induction false} WithoutAccountKeeps(manual: seq<ManualHolding>, a: AccountId)
    ensures forall h :: h in WithoutAccount(manual, a) <==> h in manual && h.account != a
  {
    if manual != [] {
      var n := |manual| - 1;
      WithoutAccountKeeps(manual[..n], a);
      assert manual == manual[..n] + [manual[n]];
    }
  }

  lemma {:induction false} WithoutAccountStaysDistinct(manual: seq<ManualHolding>, a: AccountId)
    requires DistinctManual(manual)
    ensures DistinctManual(WithoutAccount(manual, a))
  {
    if manual != [] {
      var n := |manual| - 1;
      WithoutAccountStaysDistinct(manual[..n], a);
      WithoutAccountKeeps(manual[..n], a);
      var kept := WithoutAccount(manual[..n], a);
      forall i | 0 <= i < |kept| && kept[i].account == manual[n].account
        ensures kept[i].instrument != manual[n].instrument
      {
        assert kept[i] in manual[..n];
        var k :| 0 <= k < n && manual[..n][k] == kept[i];
        assert manual[k] == kept[i];
      }
    }
  }

  predicate SameKey(x: ManualHolding, y: ManualHolding) { x.account == y.account && x.instrument == y.instrument }

  lemma {:induction false} PutManualPuts(manual: seq<ManualHolding>, h: ManualHolding)
    requires DistinctManual(manual)
    ensures DistinctManual(PutManual(manual, h))
    ensures forall x :: x in PutManual(manual, h) <==> x == h || (x in manual && !SameKey(x, h))
  {
    if manual != [] {
      var front, last := manual[..|manual| - 1], manual[|manual| - 1];
      assert manual == front + [last];
      if SameKey(last, h) {
        forall x | x in front ensures !SameKey(x, h) {
          var k :| 0 <= k < |front| && front[k] == x;
          assert manual[k] == x;
        }
      } else {
        PutManualPuts(front, h);
        var put := PutManual(front, h);
        forall i | 0 <= i < |put| && put[i].account == last.account ensures put[i].instrument != last.instrument {
          assert put[i] in put;
          if put[i] != h {
            var k :| 0 <= k < |front| && front[k] == put[i];
            assert manual[k] == put[i];
          }
        }
      }
    }
  }

  lemma {:induction false} FindManualFinds(manual: seq<ManualHolding>, a: AccountId, i: nat)
    ensures FindManual(manual, a, i).Some? ==>
              var h := FindManual(manual, a, i).value; h in manual && h.account == a && h.instrument == i
    ensures FindManual(manual, a, i).None? ==> forall h :: h in manual ==> !(h.account == a && h.instrument == i)
  {
    if manual != [] {
      FindManualFinds(manual[..|manual| - 1], a, i);
      assert manual == manual[..|manual| - 1] + [manual[|manual| - 1]];
    }
  }

  lemma ForgetKeepsIntegrity(s: Store, c: ConnId)
    requires Integrity(s)
    ensures Integrity(Forget(s, c))
  {
    var s' := Forget(s, c);
    WithoutKeeps(s.holdings, c);
    WithoutStaysDistinct(s.holdings, c);
    assert forall a, k :: BoundTo(s', a, k) <==> BoundTo(s, a, k) && k != c;
    forall h | h in s'.holdings ensures h.conn in s'.conns && s'.conns[h.conn].user == h.user && Bound(s', h.conn) {
      ForgottenRowsStayHeld(s, c, h);
    }
  }

  lemma ForgottenRowsStayHeld(s: Store, c: ConnId, h: BrokerHolding)
    requires HeldUnderBound(s) && h in Without(s.holdings, c)
    ensures h.conn in s.conns && h.conn != c && s.conns[h.conn].user == h.user && Bound(Forget(s, c), h.conn)
  {
    WithoutKeeps(s.holdings, c);
    var a :| BoundTo(s, a, h.conn);
    assert BoundTo(Forget(s, c), a, h.conn);
  }

  /** The kept rows and the new snapshot sit under bound connections of their own user. */
  lemma OverwrittenRowsAreHeld(s: Store, u: UserId, c: ConnId, rows: seq<BrokerHolding>)
    requires HeldUnderBound(s) && MaySync(s, u, c) && SnapshotOf(rows, u, c)
    ensures forall h :: h in Without(s.holdings, c) + rows ==>
              h.conn in s.conns && s.conns[h.conn].user == h.user && Bound(s, h.conn)
  {
    WithoutKeeps(s.holdings, c);
    forall h | h in Without(s.holdings, c) + rows
      ensures h.conn in s.conns && s.conns[h.conn].user == h.user && Bound(s, h.conn)
    {
      if h in rows { var i :| 0 <= i < |rows| && rows[i] == h; }
    }
  }

  lemma JoinStaysDistinct(kept: seq<BrokerHolding>, rows: seq<BrokerHolding>, c: ConnId)
    requires DistinctRows(kept) && DistinctRows(rows)
    requires (forall h :: h in kept ==> h.conn != c) && (forall h :: h in rows ==> h.conn == c)
    ensures DistinctRows(kept + rows)
  {
    var all := kept + rows;
    forall i | 0 <= i < |kept| ensures all[i] == kept[i] && all[i].conn != c {
      assert kept[i] in kept;
    }
    forall j | |kept| <= j < |all| ensures all[j] == rows[j - |kept|] && all[j].conn == c {
      assert rows[j - |kept|] in rows;
    }
  }

  lemma OverwriteKeepsIntegrity(s: Store, u: UserId, c: ConnId, rows: seq<BrokerHolding>, now: Time)
    requires Integrity(s) && MaySync(s, u, c) && SnapshotOf(rows, u, c)
    ensures Integrity(Overwrite(s, c, rows, now))
  {
    var s' := Overwrite(s, c, rows, now);
    SameAccountsSameBound(s, s');
    assert forall a, k :: BoundTo(s', a, k) == BoundTo(s, a, k);
    OverwrittenRowsAreHeld(s, u, c, rows);
    WithoutKeeps(s.holdings, c);
    WithoutStaysDistinct(s.holdings, c);
    JoinStaysDistinct(Without(s.holdings, c), rows, c);
  }

  lemma CreateAccountKeepsIntegrity(s: Store, u: UserId, a: AccountId, name: string, b: Broker)
    requires Integrity(s) && a !in s.accounts
    ensures Integrity(CreateAccount(s, u, a, name, b).0)
  {
    var s' := CreateAccount(s, u, a, name, b).0;
    assert forall k, c :: BoundTo(s', k, c) <==> BoundTo(s, k, c);
    forall c | Bound(s, c) ensures Bound(s', c) {
      var k :| BoundTo(s, k, c);
      assert BoundTo(s', k, c);
    }
  }

  lemma LinkKeepsIntegrity(s: Store, u: UserId, a: AccountId, c: ConnId, hasTransactions: bool, confirm: bool)
    requires Integrity(s)
    ensures Integrity(Link(s, u, a, c, hasTransactions, confirm).0)
  {
    var s' := Link(s, u, a, c, hasTransactions, confirm).0;
    if s' != s {
      WithoutAccountKeeps(s.manual, a);
      assert forall k, d :: BoundTo(s', k, d) <==> BoundTo(s, k, d) || (k == a && d == c);
      assert forall k :: !BoundTo(s, k, c);
      forall d | Bound(s, d) ensures Bound(s', d) {
        var k :| BoundTo(s, k, d);
        assert BoundTo(s', k, d);
      }
      WithoutAccountStaysDistinct(s.manual, a);
    }
  }

  lemma DeleteAccountKeepsIntegrity(s: Store, u: UserId, a: AccountId, hasTransactions: bool, confirm: bool)
    requires Integrity(s)
    ensures Integrity(DeleteAccount(s, u, a, hasTransactions, confirm).0)
  {
    var s' := DeleteAccount(s, u, a, hasTransactions, confirm).0;
    if s' != s {
      assert s.accounts[a].conn.None?;
      WithoutAccountKeeps(s.manual, a);
      assert forall k, d :: BoundTo(s', k, d) <==> BoundTo(s, k, d);
      forall d | Bound(s, d) ensures Bound(s', d) {
        var k :| BoundTo(s, k, d);
        assert BoundTo(s', k, d);
      }
      WithoutAccountStaysDistinct(s.manual, a);
    }
  }

  lemma EnterManuallyKeepsIntegrity(s: Store, h: ManualHolding)
    requires Integrity(s)
    ensures Integrity(EnterManually(s, h))
  {
    PutManualPuts(s.manual, h);
    SameAccountsSameBound(s, EnterManually(s, h));
    assert forall a, c :: BoundTo(EnterManually(s, h), a, c) == BoundTo(s, a, c);
  }

  lemma PatchKeepsIntegrity(s: Store, u: UserId, a: AccountId, name: Option<string>, retag: Option<Broker>)
    requires Integrity(s)
    ensures Integrity(Patch(s, u, a, name, retag).0)
  {
    var s' := Patch(s, u, a, name, retag).0;
    forall k, c ensures BoundTo(s', k, c) <==> BoundTo(s, k, c) {}
    SameBindingSameBound(s, s');
  }

  lemma SameBindingSameBound(s: Store, s': Store)
    requires forall k, c :: BoundTo(s', k, c) <==> BoundTo(s, k, c)
    ensures forall c :: Bound(s', c) <==> Bound(s, c)
  {
    forall c ensures Bound(s', c) <==> Bound(s, c) {
      if Bound(s, c) { var a :| BoundTo(s, a, c); assert BoundTo(s', a, c); }
      if Bound(s', c) { var a :| BoundTo(s', a, c); assert BoundTo(s, a, c); }
    }
  }

  /** A rescue writes into its destination only, one holding per instrument. */
  lemma {:induction false} RescueIntoWrites(manual: seq<ManualHolding>, book: Book, u: UserId, to: AccountId,
                                            rows: seq<BrokerHolding>)
    requires DistinctManual(manual) && forall h :: h in manual && h.account == to ==> h.user == u
    ensures var after := RescueInto(manual, book, u, to, rows);
            && DistinctManual(after)
            && (forall h :: h in after && h.account == to ==> h.user == u)
            && (forall h: ManualHolding :: h.account != to ==> (h in after <==> h in manual))
  {
    if rows != [] {
      var front, b := rows[..|rows| - 1], rows[|rows| - 1];
      RescueIntoWrites(manual, book, u, to, front);
      if b.instrument.Some? {
        var before := RescueInto(manual, book, u, to, front);
        var i := b.instrument.value;
        FindManualFinds(before, to, i);
        PutManualPuts(before, Materialized(FindManual(before, to, i), book, u, to, i,
                                           PositionOf(LedgerOf(book, rows, i))));
      }
    }
  }

  lemma MoveOutKeepsIntegrity(s: Store, u: UserId, from: AccountId, to: AccountId, c: ConnId, rows: seq<BrokerHolding>,
                              book: Book)
    requires Integrity(s) && OwnsAccount(s, u, from) && OwnsAccount(s, u, to) && from != to
    requires BoundTo(s, from, c) && s.accounts[to].state == Manual
    ensures Integrity(MoveOut(s, u, from, to, c, rows, book))
  {
    var s' := MoveOut(s, u, from, to, c, rows, book);
    forall a, k ensures BoundTo(s', a, k) <==> BoundTo(s, a, k) && k != c {
      if BoundTo(s, a, c) { assert a == from; }
    }
    RescueIntoWrites(s.manual, book, u, to, rows);
    var into := RescueInto(s.manual, book, u, to, rows);
    WithoutAccountKeeps(into, from);
    WithoutAccountStaysDistinct(into, from);
    WithoutKeeps(s.holdings, c);
    WithoutStaysDistinct(s.holdings, c);
    forall h | h in s'.holdings ensures h.conn in s'.conns && s'.conns[h.conn].user == h.user && Bound(s', h.conn) {
      var a :| BoundTo(s, a, h.conn);
      assert BoundTo(s', a, h.conn);
    }
    forall a | a in s'.accounts ensures s'.accounts[a] == s.accounts[a] {
      assert !BoundTo(s, a, c);
    }
  }

  lemma RescueKeepsIntegrity(s: Store, u: UserId, a: AccountId, to: AccountId, confirm: bool, rows: seq<BrokerHolding>,
                             book: Book)
    requires Integrity(s)
    ensures Integrity(Rescue(s, u, a, to, confirm, rows, book).0)
  {
    if Rescue(s, u, a, to, confirm, rows, book).1.Changed? {
      assert BoundTo(s, a, s.accounts[a].conn.value);
      MoveOutKeepsIntegrity(s, u, a, to, s.accounts[a].conn.value, rows, book);
    }
  }

  lemma SwitchKeepsIntegrity(s: Store, u: UserId, c: ConnId)
    requires Integrity(s)
    ensures Integrity(Sever(s, u, c).0) && Integrity(Activate(s, u, c).0)
  {
    if Owns(s, u, c) {
      SeverRefeeds(s, c);
      RefedKeepsIntegrity(s, SeverBinding(s, c));
      ResumeRefeeds(s, c);
      RefedKeepsIntegrity(s, ResumeBinding(s, c));
    }
  }

  lemma ConsumeRefeeds(s: Store, token: string)
    requires Integrity(s) && token in s.auth
    ensures Refed(s, Consume(s, token))
  {
  }

  lemma CompleteKeepsIntegrity(s: Store, reg: Registry, u: UserId, b: Broker, state: Option<string>,
                               expected: Option<ConnId>, x: Exchange, probe: Probe, now: Time, newId: ConnId,
                               crash: bool)
    requires Integrity(s) && newId !in s.conns
    ensures Integrity(Complete(s, reg, u, b, state, expected, x, probe, now, newId, crash).0)
  {
    if Consumable(s, u, b, state, now) {
      var s1 := Consume(s, state.value);
      ConsumeRefeeds(s, state.value);
      RefedKeepsIntegrity(s, s1);
      if x.Session? {
        PersistKeepsIntegrity(s1, u, b, x, probe, s.auth[state.value].disclaimer, newId, crash);
      }
    }
  }

  lemma ClearKeepsIntegrity(s: Store, u: UserId, c: ConnId, confirm: bool)
    requires Integrity(s)
    ensures Integrity(Clear(s, u, c, confirm).0)
  {
    ForgetKeepsIntegrity(s, c);
  }

  lemma IntegrateKeepsIntegrity(s: Store, reg: Registry, u: UserId, b: Broker, accepted: Option<Disclaimer>,
                                x: Exchange, probe: Probe, newId: ConnId, crash: bool)
    requires Integrity(s) && newId !in s.conns
    ensures Integrity(Integrate(s, reg, u, b, accepted, x, probe, newId, crash).0)
  {
    if x.Session? && accepted.Some? {
      PersistKeepsIntegrity(s, u, b, x, probe, accepted.value, newId, crash);
    }
  }

  lemma UnlinkKeepsIntegrity(s: Store, u: UserId, a: AccountId)
    requires Integrity(s)
    ensures Integrity(Unlink(s, u, a).0)
  {
    if OwnsAccount(s, u, a) && s.accounts[a].conn.Some? {
      SwitchKeepsIntegrity(s, u, s.accounts[a].conn.value);
    }
  }

  lemma SyncDeadKeepsIntegrity(s: Store, c: ConnId)
    requires Integrity(s) && c in s.conns
    ensures Integrity(MarkDead(s, c))
  {
    MarkDeadRefeeds(s, c);
    RefedKeepsIntegrity(s, MarkDead(s, c));
  }

  lemma BeginKeepsIntegrity(s: Store, reg: Registry, u: UserId, b: Broker, accepted: Option<Disclaimer>,
                            token: string, until: Time)
    requires Integrity(s)
    ensures Integrity(Begin(s, reg, u, b, accepted, token, until).0)
  {
    var s' := Begin(s, reg, u, b, accepted, token, until).0;
    assert s'.conns == s.conns && s'.accounts == s.accounts;
    assert forall a, c :: BoundTo(s', a, c) == BoundTo(s, a, c);
    SameAccountsSameBound(s, s');
  }

  /** No operation, refused, completed or cut between its writes, damages the tables. */
  lemma StepKeepsIntegrity(s: Store, a: Action)
    requires Integrity(s) && Enabled(s, a)
    ensures Integrity(Step(s, a))
  {
    match a {
      case DoSever(u, c) => SwitchKeepsIntegrity(s, u, c);
      case DoActivate(u, c) => SwitchKeepsIntegrity(s, u, c);
      case DoClear(u, c, confirm) => ClearKeepsIntegrity(s, u, c, confirm);
      case DoBegin(reg, u, b, accepted, token, until) => BeginKeepsIntegrity(s, reg, u, b, accepted, token, until);
      case DoIntegrate(reg, u, b, accepted, x, probe, newId, crash) =>
        IntegrateKeepsIntegrity(s, reg, u, b, accepted, x, probe, newId, crash);
      case DoComplete(reg, u, b, state, expected, x, probe, now, newId, crash) =>
        CompleteKeepsIntegrity(s, reg, u, b, state, expected, x, probe, now, newId, crash);
      case DoCreateAccount(u, id, name, b) => CreateAccountKeepsIntegrity(s, u, id, name, b);
      case DoLink(u, id, c, hasTransactions, confirm) => LinkKeepsIntegrity(s, u, id, c, hasTransactions, confirm);
      case DoUnlink(u, id) => UnlinkKeepsIntegrity(s, u, id);
      case DoDeleteAccount(u, id, hasTransactions, confirm) =>
        DeleteAccountKeepsIntegrity(s, u, id, hasTransactions, confirm);
      case DoPatch(u, id, name, retag) => PatchKeepsIntegrity(s, u, id, name, retag);
      case DoRescue(u, id, to, confirm, rows, book) => RescueKeepsIntegrity(s, u, id, to, confirm, rows, book);
      case DoEnterManually(h) => EnterManuallyKeepsIntegrity(s, h);
      case DoSyncDead(_, c) => SyncDeadKeepsIntegrity(s, c);
      case DoSync(u, c, rows, now) => OverwriteKeepsIntegrity(s, u, c, rows, now);
    }
  }

  lemma {:induction false} RunKeepsIntegrity(s: Store, actions: seq<Action>)
    requires Integrity(s) && IsRun(s, actions)
    ensures Integrity(After(s, actions))
    decreases |actions|
  {
    if actions != [] {
      StepKeepsIntegrity(s, actions[0]);
      RunKeepsIntegrity(Step(s, actions[0]), actions[1..]);
    }
  }
}
