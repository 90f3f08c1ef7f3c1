/**
 Syncing a connection (src/brokers/lifecycle.ts:526-670): the guards, the ownership filter, the snapshot
 keyed by symbol, and the overwrite.

 What the broker returned, what the resolver identified and the clock are parameters; SyncFlow puts the
 resolver in its place. A `Feed` is one fetch: rows in the broker's order, duplicates of a symbol allowed.
 */
module BrokerSync {
  import opened Wrappers
  import opened BrokerModel
  import opened BrokerInvariant
  import opened BrokerLifecycle

  /** A holding as the broker's adapter normalises it. */
  datatype StdHolding = StdHolding(symbol: string, isin: string, quantity: real, avgCost: real,
                                   currentValue: Option<real>)

  datatype Hit = Hit(stock: Option<nat>, instrument: Option<nat>)

  type Resolution = map<string, Hit>

  datatype Feed = Fetched(rows: seq<StdHolding>) | SessionExpired | BrokerFault

  datatype SyncReply =
    | Synced(synced: nat, mapped: nat, unmapped: seq<string>, account: AccountId)
    | SyncRefused(code: Code)

  // ---------- the snapshot, by definition ----------

  /** Ownership filter: a row the broker reports at zero or below is not a holding. */
  function Held(std: seq<StdHolding>): seq<StdHolding> {
    if std == [] then []
    else
      var n := |std| - 1;
      Held(std[..n]) + if std[n].quantity > 0.0 then [std[n]] else []
  }

  function HitFor(res: Resolution, symbol: string): Hit {
    if symbol in res then res[symbol] else Hit(None, None)
  }

  function RowOf(h: StdHolding, u: UserId, c: ConnId, res: Resolution, now: Time): BrokerHolding {
    var hit := HitFor(res, h.symbol);
    BrokerHolding(u, c, h.symbol, hit.stock, hit.instrument, h.quantity, h.avgCost, h.currentValue, now)
  }

  /** Put a row under its symbol: in place of the row already there, else at the end. */
  function Put(rows: seq<BrokerHolding>, row: BrokerHolding): seq<BrokerHolding> {
    if rows == [] then [row]
    else if rows[0].symbol == row.symbol then [row] + rows[1..]
    else [rows[0]] + Put(rows[1..], row)
  }

  function Snapshot(held: seq<StdHolding>, u: UserId, c: ConnId, res: Resolution, now: Time): seq<BrokerHolding> {
    if held == [] then []
    else
      var n := |held| - 1;
      Put(Snapshot(held[..n], u, c, res, now), RowOf(held[n], u, c, res, now))
  }

  function Unmapped(rows: seq<BrokerHolding>): seq<string> {
    if rows == [] then []
    else
      var n := |rows| - 1;
      Unmapped(rows[..n]) + if rows[n].stock.None? && rows[n].instrument.None? then [rows[n].symbol] else []
  }

  // ---------- what the snapshot is ----------

  ghost predicate DistinctSymbols(rows: seq<BrokerHolding>) {
    forall i, j :: 0 <= i < j < |rows| ==> rows[i].symbol != rows[j].symbol
  }

  lemma {:induction false} PutKeepsDistinct(rows: seq<BrokerHolding>, row: BrokerHolding)
    requires DistinctSymbols(rows)
    ensures DistinctSymbols(Put(rows, row))
    ensures row in Put(rows, row)
    ensures forall r :: r in Put(rows, row) <==> r == row || (r in rows && r.symbol != row.symbol)
  {
    if rows != [] {
      var rest := rows[1..];
      assert rows == [rows[0]] + rest;
      PutKeepsDistinct(rest, row);
      var tail := Put(rest, row);
      if rows[0].symbol != row.symbol {
        forall i | 0 <= i < |tail| ensures tail[i].symbol != rows[0].symbol {
          assert tail[i] in tail;
          if tail[i] != row {
            assert tail[i] in rest;
            var k :| 0 <= k < |rest| && rest[k] == tail[i];
            assert rows[k + 1] == tail[i];
          }
        }
      } else {
        forall k | 0 <= k < |rest| ensures rest[k].symbol != row.symbol { assert rest[k] == rows[k + 1]; }
      }
    }
  }

  /** The last row a symbol has. */
  function LastFor(held: seq<StdHolding>, symbol: string): Option<StdHolding> {
    if held == [] then None
    else if held[|held| - 1].symbol == symbol then Some(held[|held| - 1])
    else LastFor(held[..|held| - 1], symbol)
  }

  predicate LastAt(held: seq<StdHolding>, k: int, symbol: string) {
    0 <= k < |held| && held[k].symbol == symbol && forall j :: k < j < |held| ==> held[j].symbol != symbol
  }

  lemma {:induction false} LastForIsLast(held: seq<StdHolding>, symbol: string) returns (k: int)
    ensures LastFor(held, symbol).Some? ==> LastAt(held, k, symbol) && held[k] == LastFor(held, symbol).value
    ensures LastFor(held, symbol).None? ==> forall h :: h in held ==> h.symbol != symbol
  {
    if held == [] {
      k := 0;
    } else {
      var n := |held| - 1;
      assert held == held[..n] + [held[n]];
      if held[n].symbol == symbol {
        k := n;
      } else {
        k := LastForIsLast(held[..n], symbol);
      }
    }
  }

  ghost predicate IsSnapshotRow(r: BrokerHolding, held: seq<StdHolding>, u: UserId, c: ConnId, res: Resolution,
                                now: Time)
  {
    var last := LastFor(held, r.symbol);
    last.Some? && r == RowOf(last.value, u, c, res, now)
  }

  /** The snapshot is a set of rows, one per symbol, each carrying the figures of that symbol's last row and
      the identity the resolver gave it. */
  lemma {:induction false} SnapshotIsLastRows(held: seq<StdHolding>, u: UserId, c: ConnId, res: Resolution, now: Time)
    ensures DistinctSymbols(Snapshot(held, u, c, res, now))
    ensures forall r :: r in Snapshot(held, u, c, res, now) <==> IsSnapshotRow(r, held, u, c, res, now)
  {
    if held != [] {
      var n := |held| - 1;
      SnapshotIsLastRows(held[..n], u, c, res, now);
      PutKeepsDistinct(Snapshot(held[..n], u, c, res, now), RowOf(held[n], u, c, res, now));
    }
  }

  lemma {:induction false} HeldIsPositive(std: seq<StdHolding>)
    ensures forall h :: h in Held(std) <==> h in std && h.quantity > 0.0
  {
    if std != [] {
      HeldIsPositive(std[..|std| - 1]);
      assert std == std[..|std| - 1] + [std[|std| - 1]];
    }
  }

  ghost predicate HasSymbol(rows: seq<BrokerHolding>, symbol: string) {
    exists r :: r in rows && r.symbol == symbol
  }

  ghost predicate Owned(std: seq<StdHolding>, symbol: string) {
    exists h :: h in std && h.quantity > 0.0 && h.symbol == symbol
  }

  lemma OwnedIffLast(std: seq<StdHolding>, symbol: string)
    ensures Owned(std, symbol) <==> LastFor(Held(std), symbol).Some?
    ensures LastFor(Held(std), symbol).Some? ==>
              var h := LastFor(Held(std), symbol).value; h in std && h.quantity > 0.0 && h.symbol == symbol
  {
    HeldIsPositive(std);
    var k := LastForIsLast(Held(std), symbol);
    if Owned(std, symbol) {
      var h :| h in std && h.quantity > 0.0 && h.symbol == symbol;
      assert h in Held(std);
    }
  }

  /**
   SYNC WRITES EXACTLY THE OWNED SYMBOLS. A symbol has a row, and then exactly one, if and only if the
   broker reported it with a positive quantity; every row is positive, is stamped with this sync and this
   connection, and carries the figures of the last positive row of its symbol.
   */
  lemma SnapshotCoversOwnedSymbols(std: seq<StdHolding>, u: UserId, c: ConnId, res: Resolution, now: Time)
    ensures var rows := Snapshot(Held(std), u, c, res, now);
            && SnapshotOf(rows, u, c)
            && (forall symbol :: HasSymbol(rows, symbol) <==> Owned(std, symbol))
            && (forall r :: r in rows ==>
                  r.quantity > 0.0 && r.syncedAt == now && IsSnapshotRow(r, Held(std), u, c, res, now))
  {
    var held := Held(std);
    var rows := Snapshot(held, u, c, res, now);
    SnapshotIsLastRows(held, u, c, res, now);
    forall r | r in rows
      ensures r.quantity > 0.0 && r.syncedAt == now && r.conn == c && r.user == u
      ensures IsSnapshotRow(r, held, u, c, res, now)
    {
      OwnedIffLast(std, r.symbol);
    }
    forall i | 0 <= i < |rows| ensures rows[i].conn == c && rows[i].user == u { assert rows[i] in rows; }
    forall symbol ensures HasSymbol(rows, symbol) <==> Owned(std, symbol) {
      OwnedIffLast(std, symbol);
      if Owned(std, symbol) {
        var row := RowOf(LastFor(held, symbol).value, u, c, res, now);
        assert IsSnapshotRow(row, held, u, c, res, now);
      }
    }
  }

  // ---------- the snapshot, read off the feed ----------

  /** Place `k` is the last at which the feed reports the symbol with a positive quantity. */
  predicate LastOwned(std: seq<StdHolding>, k: int, symbol: string) {
    && 0 <= k < |std| && std[k].symbol == symbol && std[k].quantity > 0.0
    && forall j :: k < j < |std| && std[j].symbol == symbol ==> std[j].quantity <= 0.0
  }

  /** Figure by figure what the feed says at place `k`, under the identity resolved for its symbol. */
  predicate ReadFrom(r: BrokerHolding, std: seq<StdHolding>, k: int, u: UserId, c: ConnId, res: Resolution, now: Time) {
    && LastOwned(std, k, r.symbol)
    && r.quantity == std[k].quantity && r.avgCost == std[k].avgCost && r.currentValue == std[k].currentValue
    && (if r.symbol in res then r.stock == res[r.symbol].stock && r.instrument == res[r.symbol].instrument
        else r.stock.None? && r.instrument.None?)
    && r.user == u && r.conn == c && r.syncedAt == now
  }

  lemma {:induction false} LastHeldAt(std: seq<StdHolding>, symbol: string) returns (k: int)
    ensures var last := LastFor(Held(std), symbol);
            if last.Some? then LastOwned(std, k, symbol) && std[k] == last.value else !Owned(std, symbol)
  {
    OwnedIffLast(std, symbol);
    if std == [] {
      k := 0;
    } else {
      var n := |std| - 1;
      k := LastHeldAt(std[..n], symbol);
      var front := Held(std[..n]);
      if std[n].quantity > 0.0 {
        assert (front + [std[n]])[..|front|] == front;
        if std[n].symbol == symbol { k := n; }
      } else {
        assert front + [] == front;
      }
    }
  }

  lemma OneLastOwned(std: seq<StdHolding>, k: int, l: int, symbol: string)
    requires LastOwned(std, k, symbol) && LastOwned(std, l, symbol)
    ensures k == l
  {
  }

  /**
   THE ROWS ARE THE FEED'S. The snapshot holds, for each symbol reported with a positive quantity, the figures of
   the last place that does so, each in its own column, and nothing else.
   */
  lemma RowsCarryTheFeed(std: seq<StdHolding>, u: UserId, c: ConnId, res: Resolution, now: Time)
    ensures forall r :: r in Snapshot(Held(std), u, c, res, now) <==> exists k :: ReadFrom(r, std, k, u, c, res, now)
  {
    SnapshotIsLastRows(Held(std), u, c, res, now);
    forall r ensures IsSnapshotRow(r, Held(std), u, c, res, now) <==> exists k :: ReadFrom(r, std, k, u, c, res, now) {
      OwnedIffLast(std, r.symbol);
      var last := LastHeldAt(std, r.symbol);
      if k :| ReadFrom(r, std, k, u, c, res, now) {
        assert std[k] in std;
        OneLastOwned(std, k, last, r.symbol);
      }
      if IsSnapshotRow(r, Held(std), u, c, res, now) { assert ReadFrom(r, std, last, u, c, res, now); }
    }
  }

  // ---------- idempotence and isolation ----------

  lemma {:induction false} WithoutConcat(a: seq<BrokerHolding>, rows: seq<BrokerHolding>, c: ConnId)
    ensures Without(a + rows, c) == Without(a, c) + Without(rows, c)
  {
    if rows == [] {
      assert a + rows == a;
    } else {
      var n := |rows| - 1;
      WithoutConcat(a, rows[..n], c);
      assert (a + rows)[..|a + rows| - 1] == a + rows[..n];
    }
  }

  lemma {:induction false} WithoutNone(rows: seq<BrokerHolding>, c: ConnId)
    ensures (forall h :: h in rows ==> h.conn == c) ==> Without(rows, c) == []
    ensures (forall h :: h in rows ==> h.conn != c) ==> Without(rows, c) == rows
  {
    if rows != [] {
      WithoutNone(rows[..|rows| - 1], c);
      assert rows == rows[..|rows| - 1] + [rows[|rows| - 1]];
    }
  }

  lemma {:induction false} RowsUnderConcat(a: seq<BrokerHolding>, rows: seq<BrokerHolding>, d: ConnId)
    ensures RowsUnder(a + rows, d) == RowsUnder(a, d) + RowsUnder(rows, d)
  {
    if rows == [] {
      assert a + rows == a;
    } else {
      var n := |rows| - 1;
      RowsUnderConcat(a, rows[..n], d);
      assert (a + rows)[..|a + rows| - 1] == a + rows[..n];
    }
  }

  lemma {:induction false} RowsUnderWithout(holdings: seq<BrokerHolding>, c: ConnId, d: ConnId)
    ensures RowsUnder(Without(holdings, c), d) == if c == d then [] else RowsUnder(holdings, d)
  {
    if holdings != [] {
      var n := |holdings| - 1;
      RowsUnderWithout(holdings[..n], c, d);
      RowsUnderConcat(Without(holdings[..n], c), if holdings[n].conn == c then [] else [holdings[n]], d);
      assert [holdings[n]][..0] == [];
    }
  }

  lemma {:induction false} RowsUnderAll(rows: seq<BrokerHolding>, d: ConnId)
    ensures (forall h :: h in rows ==> h.conn == d) ==> RowsUnder(rows, d) == rows
    ensures (forall h :: h in rows ==> h.conn != d) ==> RowsUnder(rows, d) == []
  {
    if rows != [] {
      RowsUnderAll(rows[..|rows| - 1], d);
      assert rows == rows[..|rows| - 1] + [rows[|rows| - 1]];
    }
  }

  /** The overwrite replaces this connection's rows by the snapshot and leaves every other connection's rows
      as they were. */
  lemma OverwriteIsIsolated(holdings: seq<BrokerHolding>, c: ConnId, rows: seq<BrokerHolding>, d: ConnId)
    requires forall h :: h in rows ==> h.conn == c
    ensures RowsUnder(Without(holdings, c) + rows, d) == if d == c then rows else RowsUnder(holdings, d)
  {
    RowsUnderConcat(Without(holdings, c), rows, d);
    RowsUnderWithout(holdings, c, d);
    RowsUnderAll(rows, d);
    assert RowsUnder(holdings, d) + [] == RowsUnder(holdings, d);
  }

  /** Overwriting twice with the same snapshot is overwriting once. */
  lemma OverwriteTwice(holdings: seq<BrokerHolding>, c: ConnId, rows: seq<BrokerHolding>)
    requires forall h :: h in rows ==> h.conn == c
    ensures Without(Without(holdings, c) + rows, c) + rows == Without(holdings, c) + rows
  {
    var kept := Without(holdings, c);
    WithoutConcat(kept, rows, c);
    WithoutNone(rows, c);
    WithoutKeeps(holdings, c);
    WithoutNone(kept, c);
    assert kept + [] == kept;
  }

  lemma {:induction false} UnmappedAreTheUnidentified(rows: seq<BrokerHolding>)
    ensures |Unmapped(rows)| <= |rows|
    ensures forall symbol :: symbol in Unmapped(rows) <==>
              exists r :: r in rows && r.symbol == symbol && r.stock.None? && r.instrument.None?
  {
    if rows != [] {
      UnmappedAreTheUnidentified(rows[..|rows| - 1]);
      assert rows == rows[..|rows| - 1] + [rows[|rows| - 1]];
    }
  }

  // ---------- the endpoint ----------

  method FilterHeld(std: seq<StdHolding>) returns (held: seq<StdHolding>)
    ensures held == Held(std)
  {
    held := [];
    for i := 0 to |std|
      invariant held == Held(std[..i])
    {
      assert std[..i + 1][..i] == std[..i];
      if std[i].quantity > 0.0 { held := held + [std[i]]; }
    }
    assert std[..|std|] == std;
  }

  /** The keyed snapshot. A JS Map keeps a key where it was first inserted. */
  method BuildSnapshot(held: seq<StdHolding>, u: UserId, c: ConnId, res: Resolution, now: Time)
    returns (rows: seq<BrokerHolding>)
    ensures rows == Snapshot(held, u, c, res, now)
  {
    rows := [];
    for i := 0 to |held|
      invariant rows == Snapshot(held[..i], u, c, res, now)
    {
      assert held[..i + 1][..i] == held[..i];
      SnapshotIsLastRows(held[..i], u, c, res, now);
      rows := SetBySymbol(rows, RowOf(held[i], u, c, res, now));
    }
    assert held[..|held|] == held;
  }

  lemma {:induction false} PutAt(rows: seq<BrokerHolding>, row: BrokerHolding, i: nat)
    requires i <= |rows| && forall k :: 0 <= k < i ==> rows[k].symbol != row.symbol
    requires i < |rows| ==> rows[i].symbol == row.symbol
    ensures Put(rows, row) == if i < |rows| then rows[i := row] else rows + [row]
  {
    if rows != [] && i > 0 {
      forall k | 0 <= k < i - 1 ensures rows[1..][k].symbol != row.symbol { assert rows[1..][k] == rows[k + 1]; }
      PutAt(rows[1..], row, i - 1);
    }
  }

  method SetBySymbol(rows: seq<BrokerHolding>, row: BrokerHolding) returns (updated: seq<BrokerHolding>)
    ensures updated == Put(rows, row)
  {
    var i := 0;
    while i < |rows| && rows[i].symbol != row.symbol
      invariant 0 <= i <= |rows|
      invariant forall k :: 0 <= k < i ==> rows[k].symbol != row.symbol
    {
      i := i + 1;
    }
    PutAt(rows, row, i);
    updated := if i < |rows| then rows[i := row] else rows + [row];
  }

  method CollectUnmapped(rows: seq<BrokerHolding>) returns (unmapped: seq<string>)
    ensures unmapped == Unmapped(rows)
  {
    unmapped := [];
    for i := 0 to |rows|
      invariant unmapped == Unmapped(rows[..i])
    {
      assert rows[..i + 1][..i] == rows[..i];
      if rows[i].stock.None? && rows[i].instrument.None? { unmapped := unmapped + [rows[i].symbol]; }
    }
    assert rows[..|rows|] == rows;
  }

  /** Why a sync stops before it touches anything, in the order of the checks. */
  ghost function Guard(s: Store, u: UserId, c: ConnId): Option<Code> {
    if !Owns(s, u, c) then Some(NotFound)
    else if !s.conns[c].enabled then Some(InvalidState)
    else if !Bound(s, c) then Some(AccountNotLinked)
    else None
  }

  ghost function SyncEffect(s: Store, u: UserId, c: ConnId, feed: Feed, res: Resolution, now: Time): Store
  {
    if Guard(s, u, c).Some? then s
    else if feed.SessionExpired? then MarkDead(s, c)
    else if feed.BrokerFault? then s
    else Overwrite(s, c, Snapshot(Held(feed.rows), u, c, res, now), now)
  }

  /** The overwrite: one transaction over the holdings and the stamp. */
  method WriteSnapshot(store: BrokerStore, u: UserId, c: ConnId, std: seq<StdHolding>, held: seq<StdHolding>,
                       res: Resolution, now: Time) returns (rows: seq<BrokerHolding>)
    requires Integrity(store.State()) && Guard(store.State(), u, c).None? && held == Held(std)
    modifies store
    ensures rows == Snapshot(held, u, c, res, now)
    ensures forall r :: r in rows <==> exists k :: ReadFrom(r, std, k, u, c, res, now)
    ensures store.State() == Overwrite(old(store.State()), c, rows, now) && Integrity(store.State())
  {
    ghost var before := store.State();
    rows := BuildSnapshot(held, u, c, res, now);
    RowsCarryTheFeed(std, u, c, res, now);
    SnapshotCoversOwnedSymbols(std, u, c, res, now);
    OverwriteKeepsIntegrity(before, u, c, rows, now);
    store.CascadeHoldings(c);
    store.holdings := store.holdings + rows;
    store.conns := store.conns[c := store.conns[c].(lastSyncedAt := Some(now), sessionLive := true)];
  }

  /** A sync is one of the steps of a run (or, when refused early, none), so everything proved over runs
      holds across it. */
  lemma SyncIsAStep(s: Store, u: UserId, c: ConnId, feed: Feed, res: Resolution, now: Time)
    requires Guard(s, u, c).None? && !feed.BrokerFault?
    ensures var a := if feed.SessionExpired? then DoSyncDead(u, c)
                     else DoSync(u, c, Snapshot(Held(feed.rows), u, c, res, now), now);
            Enabled(s, a) && Step(s, a) == SyncEffect(s, u, c, feed, res, now)
  {
    if feed.Fetched? { SnapshotCoversOwnedSymbols(feed.rows, u, c, res, now); }
  }

  /** A completed sync replaces its own connection's rows and stamp, and nothing else in the store. */
  lemma SyncTouchesOneConnection(s: Store, u: UserId, c: ConnId, feed: Feed, res: Resolution, now: Time, d: ConnId)
    requires Guard(s, u, c).None? && feed.Fetched?
    ensures var s' := SyncEffect(s, u, c, feed, res, now);
            && RowsUnder(s'.holdings, d) ==
                 (if d == c then Snapshot(Held(feed.rows), u, c, res, now) else RowsUnder(s.holdings, d))
            && s'.conns == s.conns[c := s.conns[c].(lastSyncedAt := Some(now), sessionLive := true)]
            && s'.accounts == s.accounts && s'.manual == s.manual && s'.auth == s.auth
  {
    var rows := Snapshot(Held(feed.rows), u, c, res, now);
    SnapshotRowsAreItsOwn(feed.rows, u, c, res, now);
    OverwriteIsIsolated(s.holdings, c, rows, d);
  }

  /** So after a completed sync the store holds, under that connection, exactly what the feed says. */
  lemma SyncedRowsCarryTheFeed(s: Store, u: UserId, c: ConnId, feed: Feed, res: Resolution, now: Time)
    requires Guard(s, u, c).None? && feed.Fetched?
    ensures forall r :: r in SyncEffect(s, u, c, feed, res, now).holdings && r.conn == c
                        <==> exists k :: ReadFrom(r, feed.rows, k, u, c, res, now)
  {
    RowsCarryTheFeed(feed.rows, u, c, res, now);
    WithoutKeeps(s.holdings, c);
    SnapshotRowsAreItsOwn(feed.rows, u, c, res, now);
  }

  lemma SnapshotRowsAreItsOwn(std: seq<StdHolding>, u: UserId, c: ConnId, res: Resolution, now: Time)
    ensures forall h :: h in Snapshot(Held(std), u, c, res, now) ==> h.conn == c
  {
    SnapshotIsLastRows(Held(std), u, c, res, now);
  }

  lemma GuardStaysOpen(s: Store, u: UserId, c: ConnId, feed: Feed, res: Resolution, now: Time)
    requires Guard(s, u, c).None?
    ensures Guard(SyncEffect(s, u, c, feed, res, now), u, c).None?
  {
    SameAccountsSameBound(s, SyncEffect(s, u, c, feed, res, now));
  }

  // ---------- the same feed again ----------

  function Restamped(rows: seq<BrokerHolding>, c: ConnId, now: Time): seq<BrokerHolding> {
    if rows == [] then []
    else
      var n := |rows| - 1;
      Restamped(rows[..n], c, now) + [if rows[n].conn == c then rows[n].(syncedAt := now) else rows[n]]
  }

  lemma {:induction false} RestampedConcat(a: seq<BrokerHolding>, b: seq<BrokerHolding>, c: ConnId, now: Time)
    ensures Restamped(a + b, c, now) == Restamped(a, c, now) + Restamped(b, c, now)
  {
    if b == [] {
      assert a + b == a;
    } else {
      var n := |b| - 1;
      RestampedConcat(a, b[..n], c, now);
      assert (a + b)[..|a + b| - 1] == a + b[..n];
    }
  }

  lemma {:induction false} RestampedIsPointwise(rows: seq<BrokerHolding>, c: ConnId, now: Time)
    ensures |Restamped(rows, c, now)| == |rows|
    ensures forall k :: 0 <= k < |rows| ==>
              Restamped(rows, c, now)[k] == if rows[k].conn == c then rows[k].(syncedAt := now) else rows[k]
    ensures (forall h :: h in rows ==> h.conn != c) ==> Restamped(rows, c, now) == rows
  {
    if rows != [] {
      RestampedIsPointwise(rows[..|rows| - 1], c, now);
      assert rows == rows[..|rows| - 1] + [rows[|rows| - 1]];
    }
  }

  lemma RestampedHead(row: BrokerHolding, rest: seq<BrokerHolding>, c: ConnId, now: Time)
    ensures Restamped([row] + rest, c, now)
            == [if row.conn == c then row.(syncedAt := now) else row] + Restamped(rest, c, now)
  {
    RestampedConcat([row], rest, c, now);
    assert [row][..0] == [];
  }

  lemma {:induction false} PutRestamped(rows: seq<BrokerHolding>, row: BrokerHolding, c: ConnId, now: Time)
    requires row.conn == c
    ensures Restamped(Put(rows, row), c, now) == Put(Restamped(rows, c, now), row.(syncedAt := now))
  {
    if rows == [] {
      assert [row][..0] == [];
    } else {
      var rest := rows[1..];
      assert rows == [rows[0]] + rest;
      RestampedHead(rows[0], rest, c, now);
      if rows[0].symbol == row.symbol {
        RestampedHead(row, rest, c, now);
      } else {
        PutRestamped(rest, row, c, now);
        RestampedHead(rows[0], Put(rest, row), c, now);
      }
    }
  }

  lemma {:induction false} SnapshotRestamped(held: seq<StdHolding>, u: UserId, c: ConnId, res: Resolution, now: Time,
                                             later: Time)
    ensures Snapshot(held, u, c, res, later) == Restamped(Snapshot(held, u, c, res, now), c, later)
  {
    if held != [] {
      var n := |held| - 1;
      SnapshotRestamped(held[..n], u, c, res, now, later);
      PutRestamped(Snapshot(held[..n], u, c, res, now), RowOf(held[n], u, c, res, now), c, later);
    }
  }

  /** A LATER SYNC OF THE SAME FEED, identified the same way, changes time stamps alone: those of this
      connection's rows and its own. */
  lemma ResyncChangesStampsOnly(s: Store, u: UserId, c: ConnId, feed: Feed, res: Resolution, now: Time, later: Time)
    ensures var s' := SyncEffect(s, u, c, feed, res, now);
            SyncEffect(s', u, c, feed, res, later)
            == if Guard(s, u, c).None? && feed.Fetched?
               then s'.(holdings := Restamped(s'.holdings, c, later),
                        conns := s'.conns[c := s'.conns[c].(lastSyncedAt := Some(later))])
               else s'
  {
    if Guard(s, u, c).None? {
      GuardStaysOpen(s, u, c, feed, res, now);
      if feed.Fetched? {
        var kept, rows := Without(s.holdings, c), Snapshot(Held(feed.rows), u, c, res, now);
        SnapshotRowsAreItsOwn(feed.rows, u, c, res, now);
        OverwriteTwice(s.holdings, c, rows);
        WithoutConcat(kept, rows, c);
        WithoutNone(rows, c);
        WithoutKeeps(s.holdings, c);
        WithoutNone(kept, c);
        RestampedConcat(kept, rows, c, later);
        RestampedIsPointwise(kept, c, later);
        SnapshotRestamped(Held(feed.rows), u, c, res, now, later);
        assert kept + [] == kept;
      }
    }
  }

  lemma RestampedNow(held: seq<StdHolding>, u: UserId, c: ConnId, res: Resolution, now: Time, kept: seq<BrokerHolding>)
    requires forall h :: h in kept ==> h.conn != c
    ensures Restamped(kept + Snapshot(held, u, c, res, now), c, now) == kept + Snapshot(held, u, c, res, now)
  {
    RestampedConcat(kept, Snapshot(held, u, c, res, now), c, now);
    RestampedIsPointwise(kept, c, now);
    SnapshotRestamped(held, u, c, res, now, now);
  }

  /** At the same instant it changes nothing. */
  lemma ResyncChangesNothing(s: Store, u: UserId, c: ConnId, feed: Feed, res: Resolution, now: Time)
    ensures var s' := SyncEffect(s, u, c, feed, res, now);
            SyncEffect(s', u, c, feed, res, now) == s'
  {
    ResyncChangesStampsOnly(s, u, c, feed, res, now, now);
    if Guard(s, u, c).None? && feed.Fetched? {
      WithoutKeeps(s.holdings, c);
      RestampedNow(Held(feed.rows), u, c, res, now, Without(s.holdings, c));
    }
  }
}
