/**
 A whole sync (src/brokers/lifecycle.ts:526-670): the guards, the fetch, the ownership filter, the resolver
 and the overwrite, in that order.

 Main results: after a sync the connection's rows are the feed's, figure by figure, under the identities the
 catalogue's indexes give; what is not owned reaches nothing, so the catalogue rows a sync creates are exactly
 those of owned, uncatalogued bonds, and a refused sync creates none; and what it reports as unmapped, exactly.
 */
module SyncFlow {
  import opened Wrappers
  import opened BrokerModel
  import opened BrokerInvariant
  import opened BrokerLifecycle
  import opened BrokerSync
  import opened UniverseResolver

  /** The identities a fetch is given: the rule's, over the rows that are owned. */
  function Identified(ctx: Context, feed: Feed): Resolution {
    if feed.Fetched? then Answers(ctx, Table(ctx, Held(feed.rows)), Held(feed.rows)) else map[]
  }

  /** A row reported with a positive quantity is an uncatalogued bond with this ISIN, and its insert goes through. */
  ghost predicate OwnsBond(ctx: Context, std: seq<StdHolding>, isin: string) {
    exists h :: h in std && h.quantity > 0.0 && RouteOf(ctx, h).Bond? && h.symbol !in ctx.faulty && h.isin == isin
  }

  /** Such a row has this symbol and ends up with neither a stock nor an instrument. */
  ghost predicate OwnsUnmapped(ctx: Context, std: seq<StdHolding>, symbol: string) {
    exists h :: h in std && h.quantity > 0.0 && h.symbol == symbol && LeftUnmapped(ctx, h)
  }

  /** ONLY WHAT IS OWNED ENLARGES THE CATALOGUE. */
  lemma CreatedAreOwnedBonds(ctx: Context, std: seq<StdHolding>)
    ensures forall isin :: isin in Created(ctx, Held(std)) <==> isin !in StartTable(ctx) && OwnsBond(ctx, std, isin)
  {
    HeldIsPositive(std);
    InsertsExactlyTheBonds(ctx, Held(std));
    forall isin ensures Admits(ctx, Held(std), isin) <==> OwnsBond(ctx, std, isin) {
      if OwnsBond(ctx, std, isin) {
        var h :| h in std && h.quantity > 0.0 && RouteOf(ctx, h).Bond? && h.symbol !in ctx.faulty && h.isin == isin;
        assert h in Held(std);
      }
    }
  }

  lemma UnmappedAreOwned(ctx: Context, std: seq<StdHolding>, u: UserId, c: ConnId, now: Time, symbol: string)
    requires DistinctHoldings(Held(std))
    ensures symbol in Unmapped(Snapshot(Held(std), u, c, Identified(ctx, Fetched(std)), now))
            <==> OwnsUnmapped(ctx, std, symbol)
  {
    var held, res := Held(std), Identified(ctx, Fetched(std));
    var rows := Snapshot(held, u, c, res, now);
    HeldIsPositive(std);
    AnswersAre(ctx, Table(ctx, held), held);
    SnapshotIsLastRows(held, u, c, res, now);
    UnmappedAreTheUnidentified(rows);
    forall h | h in held ensures h.symbol in Unmapped(rows) <==> LeftUnmapped(ctx, h) {
      var k :| 0 <= k < |held| && held[k] == h;
      UnmappedExactly(ctx, held, res, u, c, now, k);
    }
    if symbol in Unmapped(rows) {
      var r :| r in rows && r.symbol == symbol && r.stock.None? && r.instrument.None?;
      var last := LastForIsLast(held, symbol);
      assert IsSnapshotRow(r, held, u, c, res, now);
      assert held[last] in held;
    }
  }

  /** A row as the feed and the catalogue have it: the figures of the last place that reports its symbol with a
      positive quantity, and the stock and instrument the indexes give that holding. */
  ghost predicate Mirrors(ctx: Context, table: InstrumentTable, std: seq<StdHolding>, k: int, r: BrokerHolding) {
    && LastOwned(std, k, r.symbol)
    && r.quantity == std[k].quantity && r.avgCost == std[k].avgCost && r.currentValue == std[k].currentValue
    && IsIdentity(ctx, table, std[k], Hit(r.stock, r.instrument))
  }

  ghost predicate MirrorsSome(ctx: Context, table: InstrumentTable, std: seq<StdHolding>, u: UserId, c: ConnId,
                              now: Time, r: BrokerHolding)
  {
    r.user == u && r.conn == c && r.syncedAt == now && exists k :: Mirrors(ctx, table, std, k, r)
  }

  /** THE ROWS OF A SYNC, without the resolver or the snapshot: an owned symbol has the one row that mirrors it, and
      every row mirrors an owned symbol. */
  lemma RowsMirror(ctx: Context, std: seq<StdHolding>, u: UserId, c: ConnId, now: Time)
    requires DistinctHoldings(Held(std))
    ensures forall r :: r in Snapshot(Held(std), u, c, Identified(ctx, Fetched(std)), now)
                        <==> MirrorsSome(ctx, Table(ctx, Held(std)), std, u, c, now, r)
  {
    var held, res, table := Held(std), Identified(ctx, Fetched(std)), Table(ctx, Held(std));
    RowsCarryTheFeed(std, u, c, res, now);
    AnswersAre(ctx, table, held);
    AnswersAreIdentities(ctx, table, held, res);
    forall r
      ensures (exists k :: ReadFrom(r, std, k, u, c, res, now)) <==> MirrorsSome(ctx, table, std, u, c, now, r)
    {
      ReadFromIsMirror(ctx, table, std, u, c, res, now, r);
    }
  }

  lemma ReadFromIsMirror(ctx: Context, table: InstrumentTable, std: seq<StdHolding>, u: UserId, c: ConnId,
                         res: Resolution, now: Time, r: BrokerHolding)
    requires AllIdentified(ctx, table, Held(std), res)
    ensures (exists k :: ReadFrom(r, std, k, u, c, res, now)) <==> MirrorsSome(ctx, table, std, u, c, now, r)
  {
    if k :| ReadFrom(r, std, k, u, c, res, now) {
      OwnedIsIdentified(ctx, table, std, k, res);
      assert Mirrors(ctx, table, std, k, r);
    }
    if MirrorsSome(ctx, table, std, u, c, now, r) {
      var k :| Mirrors(ctx, table, std, k, r);
      OwnedIsIdentified(ctx, table, std, k, res);
      OneIdentity(ctx, table, std[k], Hit(r.stock, r.instrument), HitFor(res, r.symbol));
      assert ReadFrom(r, std, k, u, c, res, now);
    }
  }

  lemma OwnedIsIdentified(ctx: Context, table: InstrumentTable, std: seq<StdHolding>, k: int, res: Resolution)
    requires 0 <= k < |std| && std[k].quantity > 0.0 && AllIdentified(ctx, table, Held(std), res)
    ensures IsIdentity(ctx, table, std[k], HitFor(res, std[k].symbol))
  {
    HeldIsPositive(std);
    assert std[k] in std && std[k] in Held(std);
  }

  /** Why a sync did not complete, in terms of the tables and the fetch: exactly one of these holds. */
  ghost predicate SyncReason(s: Store, u: UserId, c: ConnId, feed: Feed, code: Code) {
    match code
    case NotFound => !(c in s.conns && s.conns[c].user == u)
    case InvalidState => c in s.conns && s.conns[c].user == u && !s.conns[c].enabled
    case AccountNotLinked =>
      c in s.conns && s.conns[c].user == u && s.conns[c].enabled
      && forall a :: a in s.accounts ==> s.accounts[a].conn != Some(c)
    case SessionDead => MaySync(s, u, c) && feed.SessionExpired?
    case Unexpected => MaySync(s, u, c) && feed.BrokerFault?
    case _ => false
  }

  /** An incomplete sync writes nothing, but that the broker's session is dead. */
  ghost predicate OnlyTheSession(s: Store, c: ConnId, feed: Feed, code: Code, s': Store) {
    if code == SessionDead then
      c in s.conns && s' == s.(conns := s.conns[c := s.conns[c].(sessionLive := false)])
    else s' == s
  }

  lemma GuardIsTheReason(s: Store, u: UserId, c: ConnId, feed: Feed, res: Resolution, now: Time)
    requires Guard(s, u, c).Some? || !feed.Fetched?
    ensures var code := match Guard(s, u, c)
                        case Some(refused) => refused
                        case None => if feed.SessionExpired? then SessionDead else Unexpected;
            SyncReason(s, u, c, feed, code) && OnlyTheSession(s, c, feed, code, SyncEffect(s, u, c, feed, res, now))
  {
    if !Bound(s, c) {
      forall a | a in s.accounts ensures s.accounts[a].conn != Some(c) { assert !BoundTo(s, a, c); }
    }
  }

  /** `created` and `table` are what becomes of the catalogue. */
  method SyncHoldings(store: BrokerStore, ctx: Context, u: UserId, c: ConnId, feed: Feed, now: Time)
    returns (reply: SyncReply, created: seq<string>, table: InstrumentTable)
    requires Integrity(store.State()) && (feed.Fetched? ==> DistinctHoldings(Held(feed.rows)))
    modifies store
    ensures store.State() == SyncEffect(old(store.State()), u, c, feed, Identified(ctx, feed), now)
    ensures Integrity(store.State())
    ensures reply.Synced? <==> Guard(old(store.State()), u, c).None? && feed.Fetched?
    ensures reply.SyncRefused? ==>
              && created == [] && table == ctx.cat.instruments
              && reply.code == match Guard(old(store.State()), u, c)
                               case Some(code) => code
                               case None => if feed.SessionExpired? then SessionDead else Unexpected
    ensures reply.SyncRefused? ==>
              && SyncReason(old(store.State()), u, c, feed, reply.code)
              && OnlyTheSession(old(store.State()), c, feed, reply.code, store.State())
    ensures reply.Synced? ==>
              && table == Table(ctx, Held(feed.rows))
              && (forall isin :: isin in created <==> isin !in StartTable(ctx) && OwnsBond(ctx, feed.rows, isin))
              && (forall symbol :: symbol in reply.unmapped <==> OwnsUnmapped(ctx, feed.rows, symbol))
              && reply.synced == |Snapshot(Held(feed.rows), u, c, Identified(ctx, feed), now)|
              && reply.mapped + |reply.unmapped| == reply.synced && BoundTo(store.State(), reply.account, c)
              && forall r :: r in store.holdings && r.conn == c <==>
                   MirrorsSome(ctx, table, feed.rows, u, c, now, r)
  {
    ghost var before := store.State();
    created, table := [], ctx.cat.instruments;
    if Guard(before, u, c).Some? || !feed.Fetched? {
      GuardIsTheReason(before, u, c, feed, Identified(ctx, feed), now);
    }
    if !store.Requires(u, c) { return SyncRefused(NotFound), created, table; }
    if !store.conns[c].enabled { return SyncRefused(InvalidState), created, table; }
    var bound := store.LinkedAccountOf(c);
    if bound.None? { return SyncRefused(AccountNotLinked), created, table; }
    match feed {
      case SessionExpired =>
        SyncDeadKeepsIntegrity(before, c);
        store.conns := store.conns[c := store.conns[c].(sessionLive := false)];
        return SyncRefused(SessionDead), created, table;
      case BrokerFault => return SyncRefused(Unexpected), created, table;
      case Fetched(std) =>
        reply, created, table := MirrorFetch(store, ctx, u, c, std, now, bound.value);
    }
  }

  lemma OnlyTheSnapshot(s: Store, c: ConnId, rows: seq<BrokerHolding>, now: Time)
    requires c in s.conns && forall r :: r in rows ==> r.conn == c
    ensures forall r :: r in Overwrite(s, c, rows, now).holdings && r.conn == c <==> r in rows
  {
    WithoutKeeps(s.holdings, c);
  }

  /** A fetch that came back: filter, resolve what is owned, overwrite, report. */
  method MirrorFetch(store: BrokerStore, ctx: Context, u: UserId, c: ConnId, std: seq<StdHolding>, now: Time,
                     account: AccountId)
    returns (reply: SyncReply, created: seq<string>, table: InstrumentTable)
    requires Integrity(store.State()) && Guard(store.State(), u, c).None? && DistinctHoldings(Held(std))
    modifies store
    ensures store.State()
            == Overwrite(old(store.State()), c, Snapshot(Held(std), u, c, Identified(ctx, Fetched(std)), now), now)
    ensures Integrity(store.State()) && table == Table(ctx, Held(std)) && created == Created(ctx, Held(std))
    ensures forall isin :: isin in created <==> isin !in StartTable(ctx) && OwnsBond(ctx, std, isin)
    ensures reply.Synced? && reply.account == account
            && (forall symbol :: symbol in reply.unmapped <==> OwnsUnmapped(ctx, std, symbol))
            && reply.synced == |Snapshot(Held(std), u, c, Identified(ctx, Fetched(std)), now)|
            && reply.mapped + |reply.unmapped| == reply.synced
    ensures forall r :: r in store.holdings && r.conn == c <==> MirrorsSome(ctx, table, std, u, c, now, r)
  {
    ghost var before := store.State();
    var held := FilterHeld(std);
    var bySymbol, outcomes;
    bySymbol, outcomes, created, table := ResolveHoldingsToUniverse(ctx, held);
    AnswersAreUnique(ctx, table, held, bySymbol);
    CreatedAreOwnedBonds(ctx, std);
    var rows := WriteSnapshot(store, u, c, std, held, bySymbol, now);
    var unmapped := CollectUnmapped(rows);
    UnmappedAreTheUnidentified(rows);
    forall symbol ensures symbol in unmapped <==> OwnsUnmapped(ctx, std, symbol) {
      UnmappedAreOwned(ctx, std, u, c, now, symbol);
    }
    reply := Synced(|rows|, |rows| - |unmapped|, unmapped, account);
    RowsMirror(ctx, std, u, c, now);
    OnlyTheSnapshot(before, c, rows, now);
  }
}
