/**
 The canonical read of a user's positions (src/brokers/union.ts:103-253): the manual ledger's lines, then
 the broker snapshots' lines, severed connections included.

 Main results: the read is the tables, one line for each holding, column by column; over any run, nothing but a
 clear, a sync or a rescue of that very connection changes its broker lines by more than their freshness marks (a
 rename, by their account's name); a clear removes exactly its connection's lines; a line is stale exactly while its
 connection is off; no account mixes the two engines; a synced connection's invested sum is what the feed says its
 owned rows cost.
 */
module BrokerUnion {
  import opened Wrappers
  import Places
  import opened BrokerModel
  import opened BrokerInvariant
  import opened BrokerProjection
  import opened BrokerLifecycle
  import opened BrokerSync

  datatype Position =
    | ManualLine(holding: nat, account: AccountId, accountName: string, instrument: nat, stock: Option<nat>,
                 symbol: string, quantity: real, avgCost: real, invested: real, realized: real)
    | BrokerLine(account: AccountId, accountName: string, instrumentId: Option<nat>, stock: Option<nat>,
                 symbol: string, quantity: real, avgCost: real, invested: real,
                 broker: Broker, conn: ConnId, enabled: bool, stale: bool, lastSyncedAt: Option<Time>,
                 brokerValue: Option<real>)

  function NameOf(accounts: map<AccountId, Account>, a: AccountId): string {
    if a in accounts then accounts[a].name else ""
  }

  function ManualPosition(accounts: map<AccountId, Account>, h: ManualHolding): Position {
    ManualLine(h.id, h.account, NameOf(accounts, h.account), h.instrument, h.stock, h.symbol, h.quantity, h.avgCost,
               h.invested, h.realized)
  }

  function BrokerPosition(conn: Conn, a: AccountId, name: string, h: BrokerHolding): Position {
    BrokerLine(a, name, h.instrument, h.stock, h.symbol, h.quantity, h.avgCost, h.quantity * h.avgCost,
               conn.broker, h.conn, conn.enabled, !conn.enabled, conn.lastSyncedAt, h.currentValue)
  }

  /** The read's own filter, the same for both engines. */
  predicate Reads(user: UserId, quantity: real, u: UserId, includeExited: bool) {
    user == u && (includeExited || quantity > 0.0)
  }

  function ManualPart(s: Store, manual: seq<ManualHolding>, u: UserId, includeExited: bool): seq<Position> {
    if manual == [] then []
    else
      var h := manual[|manual| - 1];
      ManualPart(s, manual[..|manual| - 1], u, includeExited)
      + if Reads(h.user, h.quantity, u, includeExited) then [ManualPosition(s.accounts, h)] else []
  }

  ghost function LineOf(s: Store, h: BrokerHolding, u: UserId, includeExited: bool): seq<Position> {
    if Reads(h.user, h.quantity, u, includeExited) && h.conn in s.conns && LinkedAccount(s, h.conn).Some? then
      var a := LinkedAccount(s, h.conn).value;
      [BrokerPosition(s.conns[h.conn], a, NameOf(s.accounts, a), h)]
    else []
  }

  ghost function BrokerPart(s: Store, holdings: seq<BrokerHolding>, u: UserId, includeExited: bool): seq<Position> {
    if holdings == [] then []
    else
      BrokerPart(s, holdings[..|holdings| - 1], u, includeExited)
      + LineOf(s, holdings[|holdings| - 1], u, includeExited)
  }

  ghost function Positions(s: Store, u: UserId, includeExited: bool): seq<Position> {
    ManualPart(s, s.manual, u, includeExited) + BrokerPart(s, s.holdings, u, includeExited)
  }

  // ---------- the endpoint ----------

  /** One more holding is one more line, or none. */
  lemma PartSnoc(s: Store, holdings: seq<BrokerHolding>, h: BrokerHolding, u: UserId, includeExited: bool)
    ensures BrokerPart(s, holdings + [h], u, includeExited)
            == BrokerPart(s, holdings, u, includeExited) + LineOf(s, h, u, includeExited)
  {
    assert (holdings + [h])[..|holdings|] == holdings;
  }

  method ListUnifiedPositions(store: BrokerStore, u: UserId, includeExited: bool) returns (positions: seq<Position>)
    requires Integrity(store.State())
    ensures positions == Positions(store.State(), u, includeExited)
    ensures IsTheRead(store.State(), u, includeExited, positions)
  {
    var ours := PushManual(store, u, includeExited);
    positions := PushBroker(store, u, includeExited, ours);
    ReadIsTheTables(store.State(), u, includeExited);
  }

  method PushManual(store: BrokerStore, u: UserId, includeExited: bool) returns (positions: seq<Position>)
    requires Integrity(store.State())
    ensures positions == ManualPart(store.State(), store.manual, u, includeExited)
  {
    ghost var s := store.State();
    positions := [];
    for i := 0 to |store.manual|
      invariant positions == ManualPart(s, store.manual[..i], u, includeExited)
    {
      var h := store.manual[i];
      assert store.manual[..i + 1][..i] == store.manual[..i];
      if h.user == u && (includeExited || h.quantity > 0.0) {
        positions := positions
          + [ManualLine(h.id, h.account, store.accounts[h.account].name, h.instrument, h.stock, h.symbol, h.quantity,
                        h.avgCost, h.invested, h.realized)];
      }
    }
    assert store.manual[..|store.manual|] == store.manual;
  }

  method PushBroker(store: BrokerStore, u: UserId, includeExited: bool, ours: seq<Position>)
    returns (positions: seq<Position>)
    requires OneAccountEach(store.State())
    requires forall h :: h in store.holdings ==> h.conn in store.conns
    ensures positions == ours + BrokerPart(store.State(), store.holdings, u, includeExited)
  {
    ghost var s := store.State();
    positions := ours;
    for i := 0 to |store.holdings|
      invariant positions == ours + BrokerPart(s, store.holdings[..i], u, includeExited)
    {
      var line := ReadHolding(store, store.holdings[i], u, includeExited);
      assert store.holdings[..i + 1] == store.holdings[..i] + [store.holdings[i]];
      PartSnoc(s, store.holdings[..i], store.holdings[i], u, includeExited);
      positions := positions + line;
    }
    assert store.holdings[..|store.holdings|] == store.holdings;
  }

  /** One broker row, read through its connection to the account it is bound to; skipped when there is none. */
  method ReadHolding(store: BrokerStore, b: BrokerHolding, u: UserId, includeExited: bool) returns (line: seq<Position>)
    requires OneAccountEach(store.State()) && b.conn in store.conns
    ensures line == LineOf(store.State(), b, u, includeExited)
  {
    line := [];
    if b.user == u && (includeExited || b.quantity > 0.0) {
      var acct := store.LinkedAccountOf(b.conn);
      if acct.Some? {
        line := [BrokerPosition(store.conns[b.conn], acct.value, store.accounts[acct.value].name, b)];
      }
    }
  }

  // ---------- freeze, not drop ----------

  /** A broker position without its freshness marks, and, unless `named`, without its account's name. */
  function Blind(p: Position, named: bool): Position {
    if p.BrokerLine?
    then p.(enabled := true, stale := false, accountName := if named then p.accountName else "")
    else p
  }

  function BlindAll(ps: seq<Position>, named: bool): seq<Position> {
    if ps == [] then [] else BlindAll(ps[..|ps| - 1], named) + [Blind(ps[|ps| - 1], named)]
  }

  lemma {:induction false} BlindAllConcat(a: seq<Position>, b: seq<Position>, named: bool)
    ensures BlindAll(a + b, named) == BlindAll(a, named) + BlindAll(b, named)
  {
    if b == [] {
      assert a + b == a;
    } else {
      BlindAllConcat(a, b[..|b| - 1], named);
      assert (a + b)[..|a + b| - 1] == a + b[..|b| - 1];
    }
  }

  /** Connection `c` reads the same before and after, but for whether its feed is on. */
  ghost predicate SameLines(s: Store, s': Store, c: ConnId, named: bool) {
    && (c in s.conns <==> c in s'.conns)
    && (c in s.conns ==>
          s'.conns[c].broker == s.conns[c].broker && s'.conns[c].lastSyncedAt == s.conns[c].lastSyncedAt)
    && LinkedAccount(s', c) == LinkedAccount(s, c)
    && (named && LinkedAccount(s, c).Some? ==>
          NameOf(s'.accounts, LinkedAccount(s, c).value) == NameOf(s.accounts, LinkedAccount(s, c).value))
  }

  lemma {:induction false} SameLinesSamePart(s: Store, s': Store, holdings: seq<BrokerHolding>, u: UserId,
                                             includeExited: bool, named: bool)
    requires forall h :: h in holdings ==> SameLines(s, s', h.conn, named)
    ensures BlindAll(BrokerPart(s', holdings, u, includeExited), named)
            == BlindAll(BrokerPart(s, holdings, u, includeExited), named)
  {
    if holdings != [] {
      var n := |holdings| - 1;
      assert holdings[n] in holdings;
      SameLinesSamePart(s, s', holdings[..n], u, includeExited, named);
      BlindAllConcat(BrokerPart(s, holdings[..n], u, includeExited), LineOf(s, holdings[n], u, includeExited), named);
      BlindAllConcat(BrokerPart(s', holdings[..n], u, includeExited), LineOf(s', holdings[n], u, includeExited), named);
      BlindLine(s, s', holdings[n], u, includeExited, named);
    }
  }

  lemma BlindLine(s: Store, s': Store, h: BrokerHolding, u: UserId, includeExited: bool, named: bool)
    requires SameLines(s, s', h.conn, named)
    ensures BlindAll(LineOf(s', h, u, includeExited), named) == BlindAll(LineOf(s, h, u, includeExited), named)
  {
    var l, l' := LineOf(s, h, u, includeExited), LineOf(s', h, u, includeExited);
    if l != [] {
      assert l[..|l| - 1] == [] && l'[..|l'| - 1] == [];
    }
  }

  /** What the account of a bound connection is, and what it is called, both kept. */
  ghost predicate KeepsBinding(s: Store, s': Store, c: ConnId, named: bool) {
    && c in s.conns && c in s'.conns
    && s'.conns[c].broker == s.conns[c].broker && s'.conns[c].lastSyncedAt == s.conns[c].lastSyncedAt
    && forall a :: BoundTo(s, a, c) ==> BoundTo(s', a, c) && (named ==> s'.accounts[a].name == s.accounts[a].name)
  }

  lemma KeepsBindingSameLines(s: Store, s': Store, c: ConnId, named: bool)
    requires Integrity(s) && Integrity(s') && Bound(s, c) && KeepsBinding(s, s', c, named)
    ensures SameLines(s, s', c, named)
  {
    var a :| BoundTo(s, a, c);
    LinkedAccountIs(s, a, c);
    LinkedAccountIs(s', a, c);
  }

  /** The operations that replace the rows of connection `c`: forget it, sync it, or rescue its account. */
  predicate Replaces(s: Store, a: Action, c: ConnId) {
    || (a.DoClear? && a.c == c)
    || (a.DoSync? && a.c == c)
    || (a.DoRescue? && a.a in s.accounts && s.accounts[a.a].conn == Some(c))
  }

  /** Every other step keeps what the lines of a connection are read from. */
  lemma StepKeepsBinding(s: Store, a: Action, c: ConnId)
    requires Integrity(s) && Enabled(s, a) && c in s.conns && !Replaces(s, a, c)
    ensures KeepsBinding(s, Step(s, a), c, !a.DoPatch?)
  {
    match a {
      case DoIntegrate(_, _, _, _, _, _, _, _) => ConnectKeepsBinding(s, a, c);
      case DoComplete(_, _, _, _, _, _, _, _, _, _) => ConnectKeepsBinding(s, a, c);
      case DoSync(_, d, rows, now) => SyncKeepsBinding(s, d, rows, now, c);
      case DoPatch(u, k, name, retag) => PatchKeepsBinding(s, u, k, name, retag, c);
      case DoRescue(u, k, to, confirm, rows, book) => RescueKeepsBinding(s, u, k, to, confirm, rows, book, c);
      case _ => OtherStepKeepsBinding(s, a, c);
    }
  }

  lemma SyncKeepsBinding(s: Store, d: ConnId, rows: seq<BrokerHolding>, now: Time, c: ConnId)
    requires d in s.conns && c in s.conns && c != d
    ensures KeepsBinding(s, Overwrite(s, d, rows, now), c, true)
  {
  }

  lemma PatchKeepsBinding(s: Store, u: UserId, a: AccountId, name: Option<string>, retag: Option<Broker>, c: ConnId)
    requires c in s.conns
    ensures KeepsBinding(s, Patch(s, u, a, name, retag).0, c, false)
  {
  }

  lemma RescueKeepsBinding(s: Store, u: UserId, a: AccountId, to: AccountId, confirm: bool, rows: seq<BrokerHolding>,
                           book: Book, c: ConnId)
    requires c in s.conns && !(a in s.accounts && s.accounts[a].conn == Some(c))
    ensures KeepsBinding(s, Rescue(s, u, a, to, confirm, rows, book).0, c, true)
  {
  }

  lemma PersistKeepsBinding(s: Store, u: UserId, b: Broker, x: Exchange, probe: Probe, d: Disclaimer,
                            newId: ConnId, crash: bool, c: ConnId)
    requires x.Session? && newId !in s.conns && c in s.conns
    ensures KeepsBinding(s, Persist(s, u, b, x, probe, d, newId, crash).0, c, true)
  {
  }

  lemma ConnectKeepsBinding(s: Store, a: Action, c: ConnId)
    requires a.DoIntegrate? || a.DoComplete?
    requires Enabled(s, a) && c in s.conns
    ensures KeepsBinding(s, Step(s, a), c, true)
  {
    if a.DoIntegrate? {
      if a.x.Session? && a.accepted.Some? {
        PersistKeepsBinding(s, a.user, a.broker, a.x, a.probe, a.accepted.value, a.newId, a.crash, c);
      }
    } else {
      CompleteEitherPersistsOrRefuses(s, a);
      if Upserted(s, a).Some? {
        PersistKeepsBinding(Consume(s, a.state.value), a.user, a.broker, a.x, a.probe,
                            s.auth[a.state.value].disclaimer, a.newId, a.crash, c);
      }
    }
  }

  lemma SwitchKeepsBinding(s: Store, d: ConnId, c: ConnId)
    requires c in s.conns && d in s.conns
    ensures KeepsBinding(s, SeverBinding(s, d), c, true) && KeepsBinding(s, ResumeBinding(s, d), c, true)
    ensures KeepsBinding(s, MarkDead(s, d), c, true)
  {
  }

  lemma ForgetKeepsBinding(s: Store, d: ConnId, c: ConnId)
    requires c in s.conns && d != c
    ensures KeepsBinding(s, Forget(s, d), c, true)
  {
  }

  lemma LinkKeepsBinding(s: Store, u: UserId, a: AccountId, d: ConnId, hasTransactions: bool, confirm: bool, c: ConnId)
    requires c in s.conns
    ensures KeepsBinding(s, Link(s, u, a, d, hasTransactions, confirm).0, c, true)
  {
  }

  lemma AccountsComeAndGo(s: Store, u: UserId, a: AccountId, name: string, b: Broker, flag: bool, confirm: bool,
                          c: ConnId)
    requires Integrity(s) && c in s.conns
    ensures a !in s.accounts ==> KeepsBinding(s, CreateAccount(s, u, a, name, b).0, c, true)
    ensures KeepsBinding(s, DeleteAccount(s, u, a, flag, confirm).0, c, true)
  {
  }

  lemma SameTablesKeepBinding(s: Store, s': Store, c: ConnId)
    requires c in s.conns && s'.conns == s.conns && s'.accounts == s.accounts
    ensures KeepsBinding(s, s', c, true)
  {
  }

  lemma SwitchStepKeepsBinding(s: Store, a: Action, c: ConnId)
    requires a.DoSever? || a.DoActivate? || a.DoUnlink?
    requires Integrity(s) && c in s.conns
    ensures KeepsBinding(s, Step(s, a), c, true)
  {
    if a.DoUnlink? {
      if Unlink(s, a.user, a.a).1.Done? { SwitchKeepsBinding(s, s.accounts[a.a].conn.value, c); }
    } else if Owns(s, a.user, a.c) {
      SwitchKeepsBinding(s, a.c, c);
    }
  }

  lemma AccountStepKeepsBinding(s: Store, a: Action, c: ConnId)
    requires a.DoLink? || a.DoCreateAccount? || a.DoDeleteAccount?
    requires Integrity(s) && Enabled(s, a) && c in s.conns
    ensures KeepsBinding(s, Step(s, a), c, true)
  {
    match a {
      case DoLink(u, k, d, hasTransactions, confirm) => LinkKeepsBinding(s, u, k, d, hasTransactions, confirm, c);
      case DoCreateAccount(u, k, name, b) => AccountsComeAndGo(s, u, k, name, b, false, false, c);
      case DoDeleteAccount(u, k, hasTransactions, confirm) =>
        AccountsComeAndGo(s, u, k, "", "", hasTransactions, confirm, c);
    }
  }

  lemma ClearStepKeepsBinding(s: Store, u: UserId, d: ConnId, confirm: bool, c: ConnId)
    requires c in s.conns && d != c
    ensures KeepsBinding(s, Clear(s, u, d, confirm).0, c, true)
  {
    ForgetKeepsBinding(s, d, c);
  }

  lemma OtherStepKeepsBinding(s: Store, a: Action, c: ConnId)
    requires !a.DoIntegrate? && !a.DoComplete? && !a.DoSync? && !a.DoPatch? && !a.DoRescue?
    requires Integrity(s) && Enabled(s, a) && c in s.conns && !(a.DoClear? && a.c == c)
    ensures KeepsBinding(s, Step(s, a), c, true)
  {
    match a {
      case DoSever(_, _) => SwitchStepKeepsBinding(s, a, c);
      case DoActivate(_, _) => SwitchStepKeepsBinding(s, a, c);
      case DoUnlink(_, _) => SwitchStepKeepsBinding(s, a, c);
      case DoSyncDead(_, d) => SwitchKeepsBinding(s, d, c);
      case DoClear(u, d, confirm) => ClearStepKeepsBinding(s, u, d, confirm, c);
      case DoEnterManually(_) => SameTablesKeepBinding(s, Step(s, a), c);
      case DoBegin(_, _, _, _, _, _) => SameTablesKeepBinding(s, Step(s, a), c);
      case _ => AccountStepKeepsBinding(s, a, c);
    }
  }

  lemma SyncKeepsOtherRows(s: Store, u: UserId, d: ConnId, rows: seq<BrokerHolding>, now: Time, c: ConnId)
    requires d in s.conns && SnapshotOf(rows, u, d) && c != d
    ensures RowsUnder(Overwrite(s, d, rows, now).holdings, c) == RowsUnder(s.holdings, c)
  {
    forall h | h in rows ensures h.conn == d { var i :| 0 <= i < |rows| && rows[i] == h; }
    OverwriteIsIsolated(s.holdings, d, rows, c);
  }

  lemma ClearKeepsOtherRows(s: Store, u: UserId, d: ConnId, confirm: bool, c: ConnId)
    requires c != d
    ensures RowsUnder(Clear(s, u, d, confirm).0.holdings, c) == RowsUnder(s.holdings, c)
  {
    RowsUnderWithout(s.holdings, d, c);
  }

  lemma RescueKeepsOrRemoves(s: Store, u: UserId, a: AccountId, to: AccountId, confirm: bool, rows: seq<BrokerHolding>,
                             book: Book)
    ensures var holdings := Rescue(s, u, a, to, confirm, rows, book).0.holdings;
            || holdings == s.holdings
            || (a in s.accounts && s.accounts[a].conn.Some?
                && holdings == Without(s.holdings, s.accounts[a].conn.value))
  {
  }

  lemma RescueKeepsOtherRows(s: Store, u: UserId, a: AccountId, to: AccountId, confirm: bool, rows: seq<BrokerHolding>,
                             book: Book, c: ConnId)
    requires !(a in s.accounts && s.accounts[a].conn == Some(c))
    ensures RowsUnder(Rescue(s, u, a, to, confirm, rows, book).0.holdings, c) == RowsUnder(s.holdings, c)
  {
    RescueKeepsOrRemoves(s, u, a, to, confirm, rows, book);
    if a in s.accounts && s.accounts[a].conn.Some? { RowsUnderWithout(s.holdings, s.accounts[a].conn.value, c); }
  }

  /** And it keeps the rows themselves. */
  lemma RowsAreKept(s: Store, a: Action, c: ConnId)
    requires Enabled(s, a) && !Replaces(s, a, c)
    ensures RowsUnder(Step(s, a).holdings, c) == RowsUnder(s.holdings, c)
  {
    match a {
      case DoClear(u, d, confirm) => ClearKeepsOtherRows(s, u, d, confirm, c);
      case DoSync(u, d, rows, now) => SyncKeepsOtherRows(s, u, d, rows, now, c);
      case DoRescue(u, k, to, confirm, rows, book) => RescueKeepsOtherRows(s, u, k, to, confirm, rows, book, c);
      case _ => RowsStandStill(s, a);
    }
  }

  lemma RowsStandStill(s: Store, a: Action)
    requires Enabled(s, a) && !a.DoClear? && !a.DoSync? && !a.DoRescue?
    ensures Step(s, a).holdings == s.holdings
  {
  }

  // ---------- the lines of one connection ----------

  function LinesUnder(ps: seq<Position>, c: ConnId): seq<Position> {
    if ps == [] then []
    else
      var p := ps[|ps| - 1];
      LinesUnder(ps[..|ps| - 1], c) + if p.BrokerLine? && p.conn == c then [p] else []
  }

  lemma {:induction false} LinesUnderConcat(a: seq<Position>, b: seq<Position>, c: ConnId)
    ensures LinesUnder(a + b, c) == LinesUnder(a, c) + LinesUnder(b, c)
  {
    if b == [] {
      assert a + b == a;
    } else {
      LinesUnderConcat(a, b[..|b| - 1], c);
      assert (a + b)[..|a + b| - 1] == a + b[..|b| - 1];
    }
  }

  lemma {:induction false} NoManualLineUnder(s: Store, manual: seq<ManualHolding>, u: UserId, includeExited: bool,
                                             c: ConnId)
    ensures LinesUnder(ManualPart(s, manual, u, includeExited), c) == []
  {
    if manual != [] {
      var front, h := manual[..|manual| - 1], manual[|manual| - 1];
      NoManualLineUnder(s, front, u, includeExited, c);
      var ours, one := ManualPart(s, front, u, includeExited), [ManualPosition(s.accounts, h)];
      LinesUnderConcat(ours, one, c);
      assert one[..0] == [] && ours + [] == ours;
    }
  }

  lemma {:induction false} PartUnder(s: Store, holdings: seq<BrokerHolding>, u: UserId, includeExited: bool, c: ConnId)
    ensures LinesUnder(BrokerPart(s, holdings, u, includeExited), c)
            == BrokerPart(s, RowsUnder(holdings, c), u, includeExited)
  {
    if holdings != [] {
      var front, h := holdings[..|holdings| - 1], holdings[|holdings| - 1];
      PartUnder(s, front, u, includeExited, c);
      LinesUnderConcat(BrokerPart(s, front, u, includeExited), LineOf(s, h, u, includeExited), c);
      LineUnder(s, h, u, includeExited, c);
      PartUnderMore(s, RowsUnder(front, c), h, u, includeExited, c);
    }
  }

  lemma LineUnder(s: Store, h: BrokerHolding, u: UserId, includeExited: bool, c: ConnId)
    ensures var l := LineOf(s, h, u, includeExited); LinesUnder(l, c) == if h.conn == c then l else []
  {
    var l := LineOf(s, h, u, includeExited);
    if l != [] { assert l[..|l| - 1] == []; }
  }

  lemma PartUnderMore(s: Store, rows: seq<BrokerHolding>, h: BrokerHolding, u: UserId, includeExited: bool, c: ConnId)
    ensures BrokerPart(s, rows + if h.conn == c then [h] else [], u, includeExited)
            == BrokerPart(s, rows, u, includeExited) + if h.conn == c then LineOf(s, h, u, includeExited) else []
  {
    if h.conn == c { PartSnoc(s, rows, h, u, includeExited); } else { assert rows + [] == rows; }
  }

  lemma LinesOfConnection(s: Store, u: UserId, includeExited: bool, c: ConnId)
    ensures LinesUnder(Positions(s, u, includeExited), c) == BrokerPart(s, RowsUnder(s.holdings, c), u, includeExited)
  {
    LinesUnderConcat(ManualPart(s, s.manual, u, includeExited), BrokerPart(s, s.holdings, u, includeExited), c);
    NoManualLineUnder(s, s.manual, u, includeExited, c);
    PartUnder(s, s.holdings, u, includeExited, c);
  }

  lemma {:induction false} RowsUnderAre(holdings: seq<BrokerHolding>, c: ConnId)
    ensures forall h :: h in RowsUnder(holdings, c) <==> h in holdings && h.conn == c
  {
    if holdings != [] {
      RowsUnderAre(holdings[..|holdings| - 1], c);
      assert holdings == holdings[..|holdings| - 1] + [holdings[|holdings| - 1]];
    }
  }

  /**
   FREEZE, NOT DROP. An operation that does not forget, sync or rescue connection `c` leaves every user's lines
   of `c` the same lines in the same order. Only their freshness marks may have moved; under a rename, also
   the account's name they carry.
   */
  lemma BrokerLinesAreFrozen(s: Store, a: Action, c: ConnId, u: UserId, includeExited: bool)
    requires Integrity(s) && Enabled(s, a) && c in s.conns && !Replaces(s, a, c)
    ensures BlindAll(LinesUnder(Positions(Step(s, a), u, includeExited), c), !a.DoPatch?)
            == BlindAll(LinesUnder(Positions(s, u, includeExited), c), !a.DoPatch?)
  {
    var s' := Step(s, a);
    LinesOfConnection(s, u, includeExited, c);
    LinesOfConnection(s', u, includeExited, c);
    RowsAreKept(s, a, c);
    RowsUnderAre(s.holdings, c);
    StepKeepsBinding(s, a, c);
    StepKeepsIntegrity(s, a);
    forall h | h in RowsUnder(s.holdings, c) ensures SameLines(s, s', h.conn, !a.DoPatch?) {
      KeepsBindingSameLines(s, s', c, !a.DoPatch?);
    }
    SameLinesSamePart(s, s', RowsUnder(s.holdings, c), u, includeExited, !a.DoPatch?);
  }

  ghost predicate NeverReplaced(s: Store, actions: seq<Action>, c: ConnId)
    requires IsRun(s, actions)
    decreases |actions|
  {
    actions == []
    || (!Replaces(s, actions[0], c) && NeverReplaced(Step(s, actions[0]), actions[1..], c))
  }

  predicate NoRename(actions: seq<Action>) { forall i :: 0 <= i < |actions| ==> !actions[i].DoPatch? }

  /** Lines that agree in more agree in less. */
  lemma BlinderStillAgree(a: seq<Position>, b: seq<Position>, named: bool, less: bool)
    requires BlindAll(a, named) == BlindAll(b, named) && (less ==> named)
    ensures BlindAll(a, less) == BlindAll(b, less)
  {
    BlindTwice(a, named, less);
    BlindTwice(b, named, less);
  }

  lemma {:induction false} BlindTwice(ps: seq<Position>, named: bool, less: bool)
    requires less ==> named
    ensures BlindAll(BlindAll(ps, named), less) == BlindAll(ps, less)
  {
    if ps != [] {
      var front, p := BlindAll(ps[..|ps| - 1], named), Blind(ps[|ps| - 1], named);
      BlindTwice(ps[..|ps| - 1], named, less);
      assert (front + [p])[..|front|] == front;
    }
  }

  /**
   FROZEN OVER RUNS. Whatever else happens, in whatever order, until connection `c` is itself forgotten, synced or
   rescued, every user's lines of `c` stay the same lines in the same order: their freshness marks may have
   moved and, if an account was renamed, its name.
   */
  lemma {:induction false} BrokerLinesStayFrozen(s: Store, actions: seq<Action>, c: ConnId, u: UserId,
                                                 includeExited: bool)
    requires Integrity(s) && IsRun(s, actions) && c in s.conns && NeverReplaced(s, actions, c)
    ensures c in After(s, actions).conns
    ensures BlindAll(LinesUnder(Positions(After(s, actions), u, includeExited), c), NoRename(actions))
            == BlindAll(LinesUnder(Positions(s, u, includeExited), c), NoRename(actions))
    decreases |actions|
  {
    if actions != [] {
      var a, rest := actions[0], actions[1..];
      var s', s'' := Step(s, a), After(s, actions);
      assert NoRename(actions) ==> !a.DoPatch? && NoRename(rest);
      StepKeepsBinding(s, a, c);
      StepKeepsIntegrity(s, a);
      BrokerLinesAreFrozen(s, a, c, u, includeExited);
      BrokerLinesStayFrozen(s', rest, c, u, includeExited);
      var lines := LinesUnder(Positions(s', u, includeExited), c);
      BlinderStillAgree(lines, LinesUnder(Positions(s, u, includeExited), c), !a.DoPatch?, NoRename(actions));
      BlinderStillAgree(LinesUnder(Positions(s'', u, includeExited), c), lines, NoRename(rest), NoRename(actions));
    }
  }

  predicate OnlyFeed(a: Action) {
    a.DoSever? || a.DoActivate? || a.DoUnlink? || a.DoSyncDead? || a.DoBegin? || a.DoIntegrate? || a.DoComplete?
  }

  /** For the operations on the feed alone the manual lines stand too: the whole read is frozen. */
  lemma FeedStepsFreezeEverything(s: Store, a: Action, u: UserId, includeExited: bool)
    requires Integrity(s) && Enabled(s, a) && OnlyFeed(a)
    ensures BlindAll(Positions(Step(s, a), u, includeExited), true) == BlindAll(Positions(s, u, includeExited), true)
  {
    var s' := Step(s, a);
    StepKeepsIntegrity(s, a);
    RowsStandStill(s, a);
    forall h | h in s.holdings ensures SameLines(s, s', h.conn, true) {
      StepKeepsBinding(s, a, h.conn);
      KeepsBindingSameLines(s, s', h.conn, true);
    }
    SameLinesSamePart(s, s', s.holdings, u, includeExited, true);
    BlindAllConcat(ManualPart(s, s.manual, u, includeExited), BrokerPart(s, s.holdings, u, includeExited), true);
    BlindAllConcat(ManualPart(s', s'.manual, u, includeExited), BrokerPart(s', s'.holdings, u, includeExited), true);
    FeedStepsKeepLedger(s, a);
    SameNamesSameManual(s, s', s.manual, u, includeExited);
  }

  ghost predicate KeepsLedger(s: Store, s': Store) {
    s'.manual == s.manual && forall k :: NameOf(s'.accounts, k) == NameOf(s.accounts, k)
  }

  lemma SwitchKeepsLedger(s: Store, d: ConnId)
    requires d in s.conns
    ensures KeepsLedger(s, SeverBinding(s, d)) && KeepsLedger(s, ResumeBinding(s, d)) && KeepsLedger(s, MarkDead(s, d))
  {
  }

  lemma PersistKeepsLedger(s: Store, u: UserId, b: Broker, x: Exchange, probe: Probe, d: Disclaimer, newId: ConnId,
                           crash: bool)
    requires x.Session?
    ensures KeepsLedger(s, Persist(s, u, b, x, probe, d, newId, crash).0)
  {
  }

  lemma CompleteKeepsLedger(s: Store, a: Action)
    requires a.DoComplete? && Enabled(s, a)
    ensures KeepsLedger(s, Step(s, a))
  {
    if Consumable(s, a.user, a.broker, a.state, a.now) && a.x.Session? {
      PersistKeepsLedger(Consume(s, a.state.value), a.user, a.broker, a.x, a.probe,
                         s.auth[a.state.value].disclaimer, a.newId, a.crash);
    }
  }

  lemma FeedStepsKeepLedger(s: Store, a: Action)
    requires Enabled(s, a) && OnlyFeed(a)
    ensures KeepsLedger(s, Step(s, a))
  {
    match a {
      case DoComplete(_, _, _, _, _, _, _, _, _, _) => CompleteKeepsLedger(s, a);
      case DoIntegrate(_, u, b, accepted, x, probe, newId, crash) =>
        if x.Session? && accepted.Some? { PersistKeepsLedger(s, u, b, x, probe, accepted.value, newId, crash); }
      case DoSever(u, d) => if Owns(s, u, d) { SwitchKeepsLedger(s, d); }
      case DoActivate(u, d) => if Owns(s, u, d) { SwitchKeepsLedger(s, d); }
      case DoSyncDead(_, d) => SwitchKeepsLedger(s, d);
      case DoUnlink(u, k) =>
        if Unlink(s, u, k).1.Done? { SwitchKeepsLedger(s, s.accounts[k].conn.value); }
      case DoBegin(_, _, _, _, _, _) =>
    }
  }

  lemma {:induction false} SameNamesSameManual(s: Store, s': Store, manual: seq<ManualHolding>, u: UserId,
                                               includeExited: bool)
    requires forall k :: NameOf(s'.accounts, k) == NameOf(s.accounts, k)
    ensures ManualPart(s', manual, u, includeExited) == ManualPart(s, manual, u, includeExited)
  {
    if manual != [] { SameNamesSameManual(s, s', manual[..|manual| - 1], u, includeExited); }
  }

  /** Over any run of feed operations the user reads the same book, whatever its freshness. */
  lemma {:induction false} FeedRunsFreezeEverything(s: Store, actions: seq<Action>, u: UserId, includeExited: bool)
    requires Integrity(s) && IsRun(s, actions) && forall i :: 0 <= i < |actions| ==> OnlyFeed(actions[i])
    ensures BlindAll(Positions(After(s, actions), u, includeExited), true)
            == BlindAll(Positions(s, u, includeExited), true)
    decreases |actions|
  {
    if actions != [] {
      StepKeepsIntegrity(s, actions[0]);
      FeedStepsFreezeEverything(s, actions[0], u, includeExited);
      FeedRunsFreezeEverything(Step(s, actions[0]), actions[1..], u, includeExited);
    }
  }

  // ---------- what a line says ----------

  ghost predicate LineIsTrue(s: Store, p: Position) {
    && p.accountName == NameOf(s.accounts, p.account)
    && if p.ManualLine? then p.account in s.accounts && s.accounts[p.account].state == Manual
    else
      && p.conn in s.conns && BoundTo(s, p.account, p.conn)
      && p.stale == !s.conns[p.conn].enabled && p.enabled == s.conns[p.conn].enabled
      && p.invested == p.quantity * p.avgCost
  }

  lemma {:induction false} BrokerLinesAreTrue(s: Store, holdings: seq<BrokerHolding>, u: UserId, includeExited: bool)
    ensures forall p :: p in BrokerPart(s, holdings, u, includeExited) ==> p.BrokerLine? && LineIsTrue(s, p)
  {
    if holdings != [] {
      BrokerLinesAreTrue(s, holdings[..|holdings| - 1], u, includeExited);
    }
  }

  lemma {:induction false} ManualLinesAreTrue(s: Store, manual: seq<ManualHolding>, u: UserId, includeExited: bool)
    requires forall h :: h in manual ==> h.account in s.accounts && s.accounts[h.account].state == Manual
    ensures forall p :: p in ManualPart(s, manual, u, includeExited) ==> p.ManualLine? && LineIsTrue(s, p)
  {
    if manual != [] {
      ManualLinesAreTrue(s, manual[..|manual| - 1], u, includeExited);
      assert manual[|manual| - 1] in manual;
    }
  }

  /** A line is stale exactly while its connection is off, sits under the account its connection is bound to,
      and no account is fed by both engines. */
  lemma LinesAreTrueAndBooksUnmixed(s: Store, u: UserId, includeExited: bool)
    requires Integrity(s)
    ensures forall p :: p in Positions(s, u, includeExited) ==> LineIsTrue(s, p)
    ensures forall p, q ::
              (p in Positions(s, u, includeExited) && q in Positions(s, u, includeExited) && p.ManualLine?
               && q.BrokerLine?)
              ==> p.account != q.account
  {
    ManualLinesAreTrue(s, s.manual, u, includeExited);
    BrokerLinesAreTrue(s, s.holdings, u, includeExited);
  }

  function OwnedBy(holdings: seq<BrokerHolding>, u: UserId, includeExited: bool): seq<BrokerHolding> {
    if holdings == [] then []
    else
      var h := holdings[|holdings| - 1];
      OwnedBy(holdings[..|holdings| - 1], u, includeExited)
      + if Reads(h.user, h.quantity, u, includeExited) then [h] else []
  }

  /** Column by column what the row, its connection and the account it feeds say. */
  ghost predicate LineOfRow(s: Store, p: Position, h: BrokerHolding) {
    && p.BrokerLine? && p.conn == h.conn && p.symbol == h.symbol && p.stock == h.stock && p.instrumentId == h.instrument
    && p.quantity == h.quantity && p.avgCost == h.avgCost && p.invested == h.quantity * h.avgCost
    && p.brokerValue == h.currentValue
    && h.conn in s.conns && p.broker == s.conns[h.conn].broker && p.lastSyncedAt == s.conns[h.conn].lastSyncedAt
    && p.enabled == s.conns[h.conn].enabled && p.stale == !s.conns[h.conn].enabled
    && BoundTo(s, p.account, h.conn) && p.accountName == s.accounts[p.account].name
  }

  /** The skip of a holding without an account is never taken: each holding the read selects is one line. */
  lemma {:induction false} NoHoldingIsSkipped(s: Store, holdings: seq<BrokerHolding>, u: UserId, includeExited: bool)
    requires forall h :: h in holdings ==> h.conn in s.conns && Bound(s, h.conn)
    ensures var lines, rows := BrokerPart(s, holdings, u, includeExited), OwnedBy(holdings, u, includeExited);
            |lines| == |rows| && forall i :: 0 <= i < |rows| ==> LineOfRow(s, lines[i], rows[i])
  {
    if holdings != [] {
      var n := |holdings| - 1;
      assert holdings[n] in holdings;
      NoHoldingIsSkipped(s, holdings[..n], u, includeExited);
      LineIsTheRows(s, holdings[n], u, includeExited);
    }
  }

  lemma LineIsTheRows(s: Store, h: BrokerHolding, u: UserId, includeExited: bool)
    requires h.conn in s.conns && Bound(s, h.conn)
    ensures if Reads(h.user, h.quantity, u, includeExited)
            then |LineOf(s, h, u, includeExited)| == 1 && LineOfRow(s, LineOf(s, h, u, includeExited)[0], h)
            else LineOf(s, h, u, includeExited) == []
  {
    var a :| BoundTo(s, a, h.conn);
  }

  function OwnedManually(manual: seq<ManualHolding>, u: UserId, includeExited: bool): seq<ManualHolding> {
    if manual == [] then []
    else
      var h := manual[|manual| - 1];
      OwnedManually(manual[..|manual| - 1], u, includeExited)
      + if Reads(h.user, h.quantity, u, includeExited) then [h] else []
  }

  predicate LineOfManual(s: Store, p: Position, h: ManualHolding) {
    && p.ManualLine? && p.holding == h.id && p.account == h.account && p.instrument == h.instrument
    && p.stock == h.stock && p.symbol == h.symbol && p.quantity == h.quantity && p.avgCost == h.avgCost
    && p.invested == h.invested && p.realized == h.realized
    && (h.account in s.accounts ==> p.accountName == s.accounts[h.account].name)
  }

  /** So is each manual holding, with its own figures. */
  lemma {:induction false} ManualHoldingsAreRead(s: Store, manual: seq<ManualHolding>, u: UserId, includeExited: bool)
    ensures var lines, rows := ManualPart(s, manual, u, includeExited), OwnedManually(manual, u, includeExited);
            |lines| == |rows| && forall i :: 0 <= i < |rows| ==> LineOfManual(s, lines[i], rows[i])
  {
    if manual != [] { ManualHoldingsAreRead(s, manual[..|manual| - 1], u, includeExited); }
  }

  function SelectsRow(u: UserId, includeExited: bool): BrokerHolding -> bool {
    (h: BrokerHolding) => h.user == u && (!includeExited ==> h.quantity > 0.0)
  }

  function SelectsManual(u: UserId, includeExited: bool): ManualHolding -> bool {
    (h: ManualHolding) => h.user == u && (!includeExited ==> h.quantity > 0.0)
  }

  lemma {:induction false} OwnedPlaces(holdings: seq<BrokerHolding>, u: UserId, includeExited: bool)
    returns (at: seq<nat>)
    ensures Places.Are(holdings, SelectsRow(u, includeExited), at) && |at| == |OwnedBy(holdings, u, includeExited)|
    ensures forall i :: 0 <= i < |at| ==> holdings[at[i]] == OwnedBy(holdings, u, includeExited)[i]
  {
    if holdings == [] {
      at := [];
    } else {
      var front, h := holdings[..|holdings| - 1], holdings[|holdings| - 1];
      var before := OwnedPlaces(front, u, includeExited);
      assert holdings == front + [h];
      Places.AreMore(front, h, SelectsRow(u, includeExited), before);
      at := if SelectsRow(u, includeExited)(h) then before + [|front|] else before;
      forall i | 0 <= i < |at| ensures holdings[at[i]] == OwnedBy(holdings, u, includeExited)[i] {
        if i < |before| { assert front[before[i]] == OwnedBy(front, u, includeExited)[i]; }
      }
    }
  }

  lemma {:induction false} ManualPlaces(manual: seq<ManualHolding>, u: UserId, includeExited: bool)
    returns (at: seq<nat>)
    ensures Places.Are(manual, SelectsManual(u, includeExited), at) && |at| == |OwnedManually(manual, u, includeExited)|
    ensures forall i :: 0 <= i < |at| ==> manual[at[i]] == OwnedManually(manual, u, includeExited)[i]
  {
    if manual == [] {
      at := [];
    } else {
      var front, h := manual[..|manual| - 1], manual[|manual| - 1];
      var before := ManualPlaces(front, u, includeExited);
      assert manual == front + [h];
      Places.AreMore(front, h, SelectsManual(u, includeExited), before);
      at := if SelectsManual(u, includeExited)(h) then before + [|front|] else before;
      forall i | 0 <= i < |at| ensures manual[at[i]] == OwnedManually(manual, u, includeExited)[i] {
        if i < |before| { assert front[before[i]] == OwnedManually(front, u, includeExited)[i]; }
      }
    }
  }

  /** Line by line: first the manual holdings selected, then the broker rows, each at its place in its table. */
  ghost predicate ReadFromPlaces(s: Store, lines: seq<Position>, manualAt: seq<nat>, brokerAt: seq<nat>)
    requires forall i :: 0 <= i < |manualAt| ==> manualAt[i] < |s.manual|
    requires forall i :: 0 <= i < |brokerAt| ==> brokerAt[i] < |s.holdings|
  {
    && |lines| == |manualAt| + |brokerAt|
    && (forall i :: 0 <= i < |manualAt| ==> LineOfManual(s, lines[i], s.manual[manualAt[i]]))
    && forall i :: 0 <= i < |brokerAt| ==> LineOfRow(s, lines[|manualAt| + i], s.holdings[brokerAt[i]])
  }

  ghost predicate IsTheRead(s: Store, u: UserId, includeExited: bool, lines: seq<Position>) {
    exists manualAt, brokerAt ::
      && Places.Are(s.manual, SelectsManual(u, includeExited), manualAt)
      && Places.Are(s.holdings, SelectsRow(u, includeExited), brokerAt)
      && ReadFromPlaces(s, lines, manualAt, brokerAt)
  }

  /** THE READ IS THE TABLES: each holding of the user's, sold-out ones on request only, is one line, in the order of
      the tables, the manual ones first; and there is no other. */
  lemma ReadIsTheTables(s: Store, u: UserId, includeExited: bool)
    requires Integrity(s)
    ensures IsTheRead(s, u, includeExited, Positions(s, u, includeExited))
  {
    ManualHoldingsAreRead(s, s.manual, u, includeExited);
    NoHoldingIsSkipped(s, s.holdings, u, includeExited);
    var manualAt := ManualPlaces(s.manual, u, includeExited);
    var brokerAt := OwnedPlaces(s.holdings, u, includeExited);
    var lines, n := Positions(s, u, includeExited), |manualAt|;
    forall i | 0 <= i < n ensures LineOfManual(s, lines[i], s.manual[manualAt[i]]) {
      assert lines[i] == ManualPart(s, s.manual, u, includeExited)[i];
    }
    forall i | 0 <= i < |brokerAt| ensures LineOfRow(s, lines[n + i], s.holdings[brokerAt[i]]) {
      assert lines[n + i] == BrokerPart(s, s.holdings, u, includeExited)[i];
    }
    assert ReadFromPlaces(s, lines, manualAt, brokerAt);
  }

  /** Which holdings are selected: the user's own, sold-out ones on request only. */
  lemma {:induction false} OwnedAreSelected(holdings: seq<BrokerHolding>, manual: seq<ManualHolding>, u: UserId,
                                            includeExited: bool)
    ensures forall h :: h in OwnedBy(holdings, u, includeExited) <==>
              h in holdings && h.user == u && (!includeExited ==> h.quantity > 0.0)
    ensures forall h :: h in OwnedManually(manual, u, includeExited) <==>
              h in manual && h.user == u && (!includeExited ==> h.quantity > 0.0)
    decreases |holdings|, |manual|
  {
    if holdings != [] {
      OwnedAreSelected(holdings[..|holdings| - 1], manual, u, includeExited);
      assert holdings == holdings[..|holdings| - 1] + [holdings[|holdings| - 1]];
    } else if manual != [] {
      OwnedAreSelected([], manual[..|manual| - 1], u, includeExited);
      assert manual == manual[..|manual| - 1] + [manual[|manual| - 1]];
    }
  }

  // ---------- clear removes exactly its own lines ----------

  function LinesElsewhere(ps: seq<Position>, c: ConnId): seq<Position> {
    if ps == [] then []
    else
      var p := ps[|ps| - 1];
      LinesElsewhere(ps[..|ps| - 1], c) + if p.BrokerLine? && p.conn == c then [] else [p]
  }

  lemma {:induction false} LinesElsewhereConcat(a: seq<Position>, b: seq<Position>, c: ConnId)
    ensures LinesElsewhere(a + b, c) == LinesElsewhere(a, c) + LinesElsewhere(b, c)
  {
    if b == [] {
      assert a + b == a;
    } else {
      LinesElsewhereConcat(a, b[..|b| - 1], c);
      assert (a + b)[..|a + b| - 1] == a + b[..|b| - 1];
    }
  }

  lemma ElsewhereSnoc(ps: seq<Position>, p: Position, c: ConnId)
    ensures LinesElsewhere(ps + [p], c) == LinesElsewhere(ps, c) + if p.BrokerLine? && p.conn == c then [] else [p]
  {
    assert (ps + [p])[..|ps|] == ps;
  }

  lemma {:induction false} ManualLinesAreElsewhere(s: Store, manual: seq<ManualHolding>, u: UserId,
                                                   includeExited: bool, c: ConnId)
    ensures LinesElsewhere(ManualPart(s, manual, u, includeExited), c) == ManualPart(s, manual, u, includeExited)
  {
    if manual != [] {
      var front, h := manual[..|manual| - 1], manual[|manual| - 1];
      ManualLinesAreElsewhere(s, front, u, includeExited, c);
      var ours := ManualPart(s, front, u, includeExited);
      ElsewhereSnoc(ours, ManualPosition(s.accounts, h), c);
      assert ours + [] == ours;
    }
  }

  /** `s'` is `s` without connection `c`, as far as broker lines are read from it. */
  ghost predicate GoneFrom(s: Store, s': Store, c: ConnId) {
    && OneAccountEach(s) && OneAccountEach(s') && s'.conns == s.conns - {c}
    && (forall a, k :: BoundTo(s', a, k) <==> BoundTo(s, a, k) && k != c)
    && (forall a, k :: BoundTo(s', a, k) ==> s'.accounts[a].name == s.accounts[a].name)
  }

  /** A line read without the connection is the line read before, and only the gone connection has none. */
  lemma LineWithout(s: Store, s': Store, c: ConnId, h: BrokerHolding, u: UserId, includeExited: bool)
    requires GoneFrom(s, s', c)
    ensures LineOf(s', h, u, includeExited) == if h.conn == c then [] else LineOf(s, h, u, includeExited)
  {
    if h.conn != c {
      if Bound(s, h.conn) {
        var a :| BoundTo(s, a, h.conn);
        assert BoundTo(s', a, h.conn);
        LinkedAccountIs(s, a, h.conn);
        LinkedAccountIs(s', a, h.conn);
      } else {
        assert forall a :: !BoundTo(s', a, h.conn);
      }
    }
  }

  lemma LineElsewhere(s: Store, h: BrokerHolding, u: UserId, includeExited: bool, c: ConnId)
    ensures var l := LineOf(s, h, u, includeExited); LinesElsewhere(l, c) == if h.conn == c then [] else l
  {
    var l := LineOf(s, h, u, includeExited);
    if l != [] { assert l[..|l| - 1] == []; }
  }

  lemma {:induction false} PartWithout(s: Store, s': Store, holdings: seq<BrokerHolding>, c: ConnId, u: UserId,
                                       includeExited: bool)
    requires GoneFrom(s, s', c)
    ensures BrokerPart(s', Without(holdings, c), u, includeExited)
            == LinesElsewhere(BrokerPart(s, holdings, u, includeExited), c)
  {
    if holdings != [] {
      var front, h := holdings[..|holdings| - 1], holdings[|holdings| - 1];
      PartWithout(s, s', front, c, u, includeExited);
      PartWithoutMore(s, s', front, h, c, u, includeExited);
    }
  }

  lemma PartWithoutMore(s: Store, s': Store, front: seq<BrokerHolding>, h: BrokerHolding, c: ConnId, u: UserId,
                        includeExited: bool)
    requires GoneFrom(s, s', c)
    requires BrokerPart(s', Without(front, c), u, includeExited)
             == LinesElsewhere(BrokerPart(s, front, u, includeExited), c)
    ensures BrokerPart(s', Without(front, c) + (if h.conn == c then [] else [h]), u, includeExited)
            == LinesElsewhere(BrokerPart(s, front, u, includeExited) + LineOf(s, h, u, includeExited), c)
  {
    LinesElsewhereConcat(BrokerPart(s, front, u, includeExited), LineOf(s, h, u, includeExited), c);
    LineElsewhere(s, h, u, includeExited, c);
    LineWithout(s, s', c, h, u, includeExited);
    if h.conn == c {
      assert Without(front, c) + [] == Without(front, c);
    } else {
      PartSnoc(s', Without(front, c), h, u, includeExited);
    }
  }

  lemma ForgetIsGone(s: Store, c: ConnId)
    requires Integrity(s)
    ensures GoneFrom(s, Forget(s, c), c)
  {
    ForgetKeepsIntegrity(s, c);
  }

  /** A clear that goes through removes from every read exactly the lines of the cleared connection; a clear
      that is refused changes nothing. */
  lemma ClearRemovesExactlyItsLines(s: Store, user: UserId, c: ConnId, confirm: bool, u: UserId, includeExited: bool)
    requires Integrity(s)
    ensures var (s', reply) := Clear(s, user, c, confirm);
            && (reply.Cleared? <==> Owns(s, user, c) && !s.conns[c].enabled && confirm)
            && (reply.Cleared? ==>
                  Positions(s', u, includeExited) == LinesElsewhere(Positions(s, u, includeExited), c))
            && (!reply.Cleared? ==> s' == s)
  {
    var s' := Forget(s, c);
    LinesElsewhereConcat(ManualPart(s, s.manual, u, includeExited), BrokerPart(s, s.holdings, u, includeExited), c);
    ManualLinesAreElsewhere(s, s.manual, u, includeExited, c);
    ForgetIsGone(s, c);
    PartWithout(s, s', s.holdings, c, u, includeExited);
    SameNamesSameManual(s, s', s.manual, u, includeExited);
  }

  // ---------- a sync, read back ----------

  function InvestedUnder(ps: seq<Position>, c: ConnId): real {
    if ps == [] then 0.0
    else
      var p := ps[|ps| - 1];
      InvestedUnder(ps[..|ps| - 1], c) + if p.BrokerLine? && p.conn == c then p.invested else 0.0
  }

  function CostOf(rows: seq<BrokerHolding>): real {
    if rows == [] then 0.0
    else CostOf(rows[..|rows| - 1]) + rows[|rows| - 1].quantity * rows[|rows| - 1].avgCost
  }

  lemma {:induction false} InvestedConcat(a: seq<Position>, b: seq<Position>, c: ConnId)
    ensures InvestedUnder(a + b, c) == InvestedUnder(a, c) + InvestedUnder(b, c)
  {
    if b == [] {
      assert a + b == a;
    } else {
      InvestedConcat(a, b[..|b| - 1], c);
      assert (a + b)[..|a + b| - 1] == a + b[..|b| - 1];
    }
  }

  lemma {:induction false} ManualInvestsElsewhere(s: Store, manual: seq<ManualHolding>, u: UserId, c: ConnId)
    ensures InvestedUnder(ManualPart(s, manual, u, false), c) == 0.0
  {
    if manual != [] {
      var n := |manual| - 1;
      ManualInvestsElsewhere(s, manual[..n], u, c);
      var front, all := ManualPart(s, manual[..n], u, false), ManualPart(s, manual, u, false);
      if all != front { assert all[..|all| - 1] == front; }
    }
  }

  ghost predicate OwnPositive(holdings: seq<BrokerHolding>, u: UserId, c: ConnId) {
    forall i :: 0 <= i < |holdings| && holdings[i].conn == c ==> holdings[i].user == u && holdings[i].quantity > 0.0
  }

  lemma {:induction false} PartInvests(s: Store, holdings: seq<BrokerHolding>, u: UserId, c: ConnId)
    requires c in s.conns && Bound(s, c) && OwnPositive(holdings, u, c)
    ensures InvestedUnder(BrokerPart(s, holdings, u, false), c) == CostOf(RowsUnder(holdings, c))
  {
    if holdings != [] {
      var front, h := holdings[..|holdings| - 1], holdings[|holdings| - 1];
      PartInvests(s, front, u, c);
      InvestedSnoc(s, front, h, u, c);
    }
  }

  lemma InvestedSnoc(s: Store, front: seq<BrokerHolding>, h: BrokerHolding, u: UserId, c: ConnId)
    requires c in s.conns && Bound(s, c) && (h.conn == c ==> h.user == u && h.quantity > 0.0)
    requires InvestedUnder(BrokerPart(s, front, u, false), c) == CostOf(RowsUnder(front, c))
    ensures InvestedUnder(BrokerPart(s, front, u, false) + LineOf(s, h, u, false), c)
            == CostOf(RowsUnder(front, c) + if h.conn == c then [h] else [])
  {
    InvestedConcat(BrokerPart(s, front, u, false), LineOf(s, h, u, false), c);
    LineInvests(s, h, u, c);
    CostSnoc(RowsUnder(front, c), h);
  }

  lemma CostSnoc(rows: seq<BrokerHolding>, h: BrokerHolding)
    ensures CostOf(rows + [h]) == CostOf(rows) + h.quantity * h.avgCost
    ensures CostOf(rows + []) == CostOf(rows)
  {
    assert (rows + [h])[..|rows|] == rows;
    assert rows + [] == rows;
  }

  lemma LineInvests(s: Store, h: BrokerHolding, u: UserId, c: ConnId)
    requires c in s.conns && Bound(s, c)
    requires h.conn == c ==> h.user == u && h.quantity > 0.0
    ensures InvestedUnder(LineOf(s, h, u, false), c) == if h.conn == c then h.quantity * h.avgCost else 0.0
  {
    var a :| BoundTo(s, a, c);
    var l := LineOf(s, h, u, false);
    if l != [] { assert l[..|l| - 1] == []; }
  }

  // ---------- the sum, taken over the feed ----------

  function Cost(h: StdHolding): real { h.quantity * h.avgCost }

  /** Quantity times average cost, over the last place of each symbol reported with a positive quantity. */
  ghost function FeedCost(std: seq<StdHolding>): real {
    if std == [] then 0.0
    else FeedCost(std[1..]) + if LastOwned(std, 0, std[0].symbol) then Cost(std[0]) else 0.0
  }

  /** The part of it that one symbol makes up. */
  ghost function CostOfSymbol(std: seq<StdHolding>, symbol: string): real {
    if k :| LastOwned(std, k, symbol) then Cost(std[k]) else 0.0
  }

  lemma CostOfSymbolIs(std: seq<StdHolding>, k: int, symbol: string)
    requires LastOwned(std, k, symbol)
    ensures CostOfSymbol(std, symbol) == Cost(std[k])
  {
    var l :| LastOwned(std, l, symbol) && CostOfSymbol(std, symbol) == Cost(std[l]);
    OneLastOwned(std, k, l, symbol);
  }

  lemma LastOwnedAhead(head: StdHolding, rest: seq<StdHolding>, k: int, symbol: string)
    ensures k > 0 ==> (LastOwned([head] + rest, k, symbol) <==> LastOwned(rest, k - 1, symbol))
    ensures LastOwned([head] + rest, 0, symbol) <==>
              head.symbol == symbol && head.quantity > 0.0 && forall j :: !LastOwned(rest, j, symbol)
  {
    var std := [head] + rest;
    if k > 0 && LastOwned(std, k, symbol) {
      forall j | k - 1 < j < |rest| && rest[j].symbol == symbol ensures rest[j].quantity <= 0.0 {
        assert std[j + 1] == rest[j];
      }
    }
    if head.symbol == symbol && head.quantity > 0.0 && !LastOwned(std, 0, symbol) {
      var j :| 0 < j < |std| && std[j].symbol == symbol && std[j].quantity > 0.0;
      var l := SomeLastOwned(rest, j - 1);
    }
    if LastOwned(std, 0, symbol) {
      forall j ensures !LastOwned(rest, j, symbol) {
        if 0 <= j < |rest| { assert std[j + 1] == rest[j]; }
      }
    }
  }

  lemma {:induction false} SomeLastOwned(std: seq<StdHolding>, j: nat) returns (k: int)
    requires j < |std| && std[j].quantity > 0.0
    ensures LastOwned(std, k, std[j].symbol)
    decreases |std| - j
  {
    if i :| j < i < |std| && std[i].symbol == std[j].symbol && std[i].quantity > 0.0 {
      k := SomeLastOwned(std, i);
    } else {
      k := j;
    }
  }

  lemma CostOfSymbolAhead(head: StdHolding, rest: seq<StdHolding>, symbol: string)
    ensures CostOfSymbol([head] + rest, symbol)
            == if LastOwned([head] + rest, 0, symbol) then Cost(head) else CostOfSymbol(rest, symbol)
    ensures LastOwned([head] + rest, 0, symbol) ==> CostOfSymbol(rest, symbol) == 0.0
  {
    var std := [head] + rest;
    LastOwnedAhead(head, rest, 0, symbol);
    if k :| LastOwned(std, k, symbol) {
      CostOfSymbolIs(std, k, symbol);
      LastOwnedAhead(head, rest, k, symbol);
      if k > 0 { CostOfSymbolIs(rest, k - 1, symbol); }
    } else if k :| LastOwned(rest, k, symbol) {
      LastOwnedAhead(head, rest, k + 1, symbol);
    }
  }

  lemma LastOwnedSnoc(std: seq<StdHolding>, x: StdHolding, k: int, symbol: string)
    requires 0 <= k < |std|
    ensures LastOwned(std + [x], k, symbol)
            <==> LastOwned(std, k, symbol) && !(x.symbol == symbol && x.quantity > 0.0)
  {
    var more := std + [x];
    assert more[|std|] == x;
    if LastOwned(more, k, symbol) {
      forall j | k < j < |std| && std[j].symbol == symbol ensures std[j].quantity <= 0.0 { assert more[j] == std[j]; }
    }
  }

  /** One more place adds its cost and takes out what its symbol made up before; unless it is not owned. */
  lemma {:induction false} FeedCostSnoc(std: seq<StdHolding>, x: StdHolding)
    ensures FeedCost(std + [x])
            == FeedCost(std) + if x.quantity > 0.0 then Cost(x) - CostOfSymbol(std, x.symbol) else 0.0
  {
    if std == [] {
      assert [] + [x] == [x] && [x][1..] == [];
      assert forall k :: !LastOwned([], k, x.symbol);
    } else {
      var head, rest := std[0], std[1..];
      assert std == [head] + rest && (std + [x])[1..] == rest + [x];
      FeedCostSnoc(rest, x);
      LastOwnedSnoc(std, x, 0, head.symbol);
      CostOfSymbolAhead(head, rest, x.symbol);
    }
  }

  function RowCost(r: BrokerHolding): real { r.quantity * r.avgCost }

  lemma {:induction false} CostAhead(head: BrokerHolding, rest: seq<BrokerHolding>)
    ensures CostOf([head] + rest) == RowCost(head) + CostOf(rest)
  {
    if rest == [] {
      assert [head] + rest == [head] && [head][..0] == [];
    } else {
      var n := |rest| - 1;
      CostAhead(head, rest[..n]);
      assert ([head] + rest)[..n + 1] == [head] + rest[..n];
    }
  }

  /** Putting a row under its symbol adds its cost and takes out that of the row it replaces. */
  lemma {:induction false} PutCosts(rows: seq<BrokerHolding>, row: BrokerHolding, there: real)
    requires CostsThere(rows, row.symbol, there)
    ensures CostOf(Put(rows, row)) == CostOf(rows) + RowCost(row) - there
  {
    if rows == [] {
      assert [row][..0] == [];
    } else {
      var head, rest := rows[0], rows[1..];
      assert rows == [head] + rest;
      CostAhead(head, rest);
      CostAhead(row, rest);
      CostAhead(head, Put(rest, row));
      if head.symbol != row.symbol {
        if !HasSymbol(rest, row.symbol) { assert !HasSymbol(rows, row.symbol); }
        PutCosts(rest, row, there);
      } else {
        assert head in rows;
      }
    }
  }

  lemma ReadFromCosts(r: BrokerHolding, std: seq<StdHolding>, k: int, u: UserId, c: ConnId, res: Resolution, now: Time)
    requires ReadFrom(r, std, k, u, c, res, now)
    ensures RowCost(r) == CostOfSymbol(std, r.symbol)
  {
    CostOfSymbolIs(std, k, r.symbol);
  }

  lemma NotOwnedCosts(std: seq<StdHolding>, u: UserId, c: ConnId, res: Resolution, now: Time, symbol: string)
    requires !HasSymbol(Snapshot(Held(std), u, c, res, now), symbol)
    ensures CostOfSymbol(std, symbol) == 0.0
  {
    if k :| LastOwned(std, k, symbol) {
      RowsCarryTheFeed(std, u, c, res, now);
      assert ReadFrom(RowOf(std[k], u, c, res, now), std, k, u, c, res, now);
      assert RowOf(std[k], u, c, res, now).symbol == symbol;
    }
  }

  lemma SnapshotCostOfSymbol(std: seq<StdHolding>, u: UserId, c: ConnId, res: Resolution, now: Time, symbol: string)
    ensures forall r :: r in Snapshot(Held(std), u, c, res, now) && r.symbol == symbol ==>
              RowCost(r) == CostOfSymbol(std, symbol)
  {
    RowsCarryTheFeed(std, u, c, res, now);
    forall r | r in Snapshot(Held(std), u, c, res, now) && r.symbol == symbol
      ensures RowCost(r) == CostOfSymbol(std, symbol)
    {
      var k :| ReadFrom(r, std, k, u, c, res, now);
      ReadFromCosts(r, std, k, u, c, res, now);
    }
  }

  lemma SnapshotSnoc(front: seq<StdHolding>, x: StdHolding, u: UserId, c: ConnId, res: Resolution, now: Time)
    ensures Snapshot(Held(front + [x]), u, c, res, now)
            == if x.quantity > 0.0 then Put(Snapshot(Held(front), u, c, res, now), RowOf(x, u, c, res, now))
               else Snapshot(Held(front), u, c, res, now)
  {
    assert (front + [x])[..|front|] == front && Held(front) + [] == Held(front);
    assert (Held(front) + [x])[..|Held(front)|] == Held(front);
  }

  lemma {:induction false} SnapshotCosts(std: seq<StdHolding>, u: UserId, c: ConnId, res: Resolution, now: Time)
    ensures CostOf(Snapshot(Held(std), u, c, res, now)) == FeedCost(std)
  {
    if std != [] {
      var front, x := std[..|std| - 1], std[|std| - 1];
      assert std == front + [x];
      SnapshotCosts(front, u, c, res, now);
      SnapshotSnoc(front, x, u, c, res, now);
      FeedCostSnoc(front, x);
      if x.quantity > 0.0 { OwnedRowCosts(front, x, u, c, res, now); }
    }
  }

  lemma RowOfCosts(x: StdHolding, u: UserId, c: ConnId, res: Resolution, now: Time)
    ensures var row := RowOf(x, u, c, res, now); row.symbol == x.symbol && RowCost(row) == Cost(x)
  {
  }

  /** The rows of one symbol all cost as much, nothing if there are none. */
  ghost predicate CostsThere(rows: seq<BrokerHolding>, symbol: string, there: real) {
    && (forall r :: r in rows && r.symbol == symbol ==> RowCost(r) == there)
    && (!HasSymbol(rows, symbol) ==> there == 0.0)
  }

  lemma SnapshotCostsThere(std: seq<StdHolding>, u: UserId, c: ConnId, res: Resolution, now: Time, symbol: string)
    ensures CostsThere(Snapshot(Held(std), u, c, res, now), symbol, CostOfSymbol(std, symbol))
  {
    SnapshotCostOfSymbol(std, u, c, res, now, symbol);
    if !HasSymbol(Snapshot(Held(std), u, c, res, now), symbol) { NotOwnedCosts(std, u, c, res, now, symbol); }
  }

  lemma OwnedRowCosts(front: seq<StdHolding>, x: StdHolding, u: UserId, c: ConnId, res: Resolution, now: Time)
    ensures var rows := Snapshot(Held(front), u, c, res, now);
            CostOf(Put(rows, RowOf(x, u, c, res, now))) == CostOf(rows) + Cost(x) - CostOfSymbol(front, x.symbol)
  {
    SnapshotCostsThere(front, u, c, res, now, x.symbol);
    RowOfCosts(x, u, c, res, now);
    PutCosts(Snapshot(Held(front), u, c, res, now), RowOf(x, u, c, res, now), CostOfSymbol(front, x.symbol));
  }

  /** After a completed sync, what the read says was invested through that connection is exactly the sum of
      quantity times average cost over the feed: over the last owned place of each symbol. */
  lemma SyncedInvestedIsFeedCost(s: Store, u: UserId, c: ConnId, feed: Feed, res: Resolution, now: Time)
    requires Integrity(s) && Guard(s, u, c).None? && feed.Fetched?
    ensures InvestedUnder(Positions(SyncEffect(s, u, c, feed, res, now), u, false), c)
            == FeedCost(feed.rows)
  {
    SnapshotCosts(feed.rows, u, c, res, now);
    var s' := SyncEffect(s, u, c, feed, res, now);
    var rows := Snapshot(Held(feed.rows), u, c, res, now);
    SyncTouchesOneConnection(s, u, c, feed, res, now, c);
    SnapshotCoversOwnedSymbols(feed.rows, u, c, res, now);
    SameAccountsSameBound(s, s');
    WithoutKeeps(s.holdings, c);
    var kept := Without(s.holdings, c);
    forall i | 0 <= i < |kept| ensures kept[i].conn != c { assert kept[i] in kept; }
    forall i | 0 <= i < |rows| ensures rows[i].user == u && rows[i].quantity > 0.0 { assert rows[i] in rows; }
    PartInvests(s', s'.holdings, u, c);
    ManualInvestsElsewhere(s', s'.manual, u, c);
    InvestedConcat(ManualPart(s', s'.manual, u, false), BrokerPart(s', s'.holdings, u, false), c);
  }
}
