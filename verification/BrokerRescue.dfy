/**
 Rescue on delete (src/portfolio/transfer.ts:607-790): the whole book of a linked account becomes lots of a
 manual account of the same broker, then the connection and the account are destroyed.

 Main results: whether a rescue goes through is decided by what is in the tables; it removes exactly that
 connection's broker lines, writes into the destination only, never fails in its replay, and leaves every holding
 there with the units, the cost and the average of its ledger. Over everything a user reads, the units of every
 instrument are the same before and after, but for the corporate actions the destination's own ledger records after
 the day a row was last synced; and what is invested less what was realized is the same, however the destination's
 past sells are re-matched against the lots brought in. Whether they are, and realized gains move, is decided by what
 the destination held on that day.
 */
module BrokerRescue {
  import opened Wrappers
  import opened BrokerModel
  import opened BrokerInvariant
  import opened BrokerLifecycle
  import opened BrokerUnion
  import F = FifoLedger

  function DayOf(b: BrokerHolding): nat { b.syncedAt / MS_PER_DAY }

  /** The buy a row becomes: its own quantity and cost, free of fees, on the day it was last synced. */
  lemma SyntheticBuyIsTheRow(b: BrokerHolding)
    ensures var t := SyntheticBuy(b);
            && t.Buy? && t.quantity == b.quantity && t.price == b.avgCost && t.fees == 0.0
            && t.day * (24 * 60 * 60 * 1000) <= b.syncedAt < (t.day + 1) * (24 * 60 * 60 * 1000)
  {
  }

  // ---------- the rows as lots ----------

  /** What the rows of an instrument have become by the end of the destination's ledger. */
  function Arrived(book: Book, rows: seq<BrokerHolding>, i: nat): real {
    if rows == [] then 0.0
    else
      var b := rows[|rows| - 1];
      Arrived(book, rows[..|rows| - 1], i)
      + if b.instrument == Some(i) then F.Grown(book.ledgers(i), b.quantity, DayOf(b)) else 0.0
  }

  /** The two figures a rescue carries over: how much is held, and what it has cost so far, gains taken off. */
  datatype Figure = Quantity | Outlay

  function OfRow(f: Figure, b: BrokerHolding): real {
    match f
    case Quantity => b.quantity
    case Outlay => b.quantity * b.avgCost
  }

  function RowTotal(f: Figure, rows: seq<BrokerHolding>, i: nat): real {
    if rows == [] then 0.0
    else
      var b := rows[|rows| - 1];
      RowTotal(f, rows[..|rows| - 1], i) + if b.instrument == Some(i) then OfRow(f, b) else 0.0
  }

  /** What the rows add to the destination. */
  function Brought(f: Figure, book: Book, rows: seq<BrokerHolding>, i: nat): real {
    match f
    case Quantity => Arrived(book, rows, i)
    case Outlay => RowTotal(Outlay, rows, i)
  }

  /** A buy entered earlier does not change what a later one grows to. */
  lemma {:induction false} BuysDoNotGrow(ledger: seq<F.Txn>, t: F.Txn, quantity: real, day: nat)
    requires t.Buy?
    ensures F.Grown(F.Enlisted(ledger, t), quantity, day) == F.Grown(ledger, quantity, day)
  {
    if ledger == [] || ledger[|ledger| - 1].day <= t.day {
      assert (ledger + [t])[..|ledger|] == ledger;
    } else {
      var front, e := ledger[..|ledger| - 1], ledger[|ledger| - 1];
      BuysDoNotGrow(front, t, quantity, day);
      assert (F.Enlisted(front, t) + [e])[..|F.Enlisted(front, t)|] == F.Enlisted(front, t);
    }
  }

  lemma {:induction false} RowsDoNotGrow(book: Book, rows: seq<BrokerHolding>, i: nat, quantity: real, day: nat)
    ensures F.Grown(LedgerOf(book, rows, i), quantity, day) == F.Grown(book.ledgers(i), quantity, day)
  {
    if rows != [] {
      var front, b := rows[..|rows| - 1], rows[|rows| - 1];
      RowsDoNotGrow(book, front, i, quantity, day);
      BuysDoNotGrow(LedgerOf(book, front, i), SyntheticBuy(b), quantity, day);
    }
  }

  ghost predicate GoodLedger(ledger: seq<F.Txn>) { F.ValidLedger(ledger) && F.Replay(ledger).Some? }

  lemma OwnedFront(rows: seq<BrokerHolding>)
    requires OwnedRows(rows) && rows != []
    ensures OwnedRows(rows[..|rows| - 1]) && rows[|rows| - 1].quantity > 0.0
  {
    assert rows[|rows| - 1] in rows;
  }

  /** The replay never fails, and holds what arrived on top of what was there. */
  lemma {:induction false} LedgersReplay(book: Book, rows: seq<BrokerHolding>, i: nat)
    requires GoodLedger(book.ledgers(i)) && OwnedRows(rows)
    ensures GoodLedger(LedgerOf(book, rows, i))
    ensures PositionOf(LedgerOf(book, rows, i)).quantity
            == PositionOf(book.ledgers(i)).quantity + Arrived(book, rows, i)
  {
    if rows != [] {
      var front, b := rows[..|rows| - 1], rows[|rows| - 1];
      OwnedFront(rows);
      LedgersReplay(book, front, i);
      if b.instrument == Some(i) {
        F.BuyRaisesBalance(LedgerOf(book, front, i), SyntheticBuy(b));
        RowsDoNotGrow(book, front, i, b.quantity, DayOf(b));
      }
    }
  }

  lemma HeldIsNotNegative(ledger: seq<F.Txn>)
    requires GoodLedger(ledger)
    ensures PositionOf(ledger).quantity >= 0.0
  {
    F.UnitsAreBalance(ledger);
    F.PositiveUnits(F.Replay(ledger).value.lots);
  }

  // ---------- what arrives, against what was held ----------

  /** No corporate action of the destination came after the day a row of the instrument was synced. */
  predicate Unmultiplied(book: Book, rows: seq<BrokerHolding>, i: nat) {
    forall b :: b in rows && b.instrument == Some(i) ==> F.LaterFactor(book.ledgers(i), DayOf(b)) == 1.0
  }

  lemma {:induction false} FactorAtLeastOne(ledger: seq<F.Txn>, day: nat)
    requires F.ValidLedger(ledger)
    ensures F.LaterFactor(ledger, day) >= 1.0
  {
    if ledger != [] && ledger[|ledger| - 1].day > day {
      FactorAtLeastOne(ledger[..|ledger| - 1], day);
      var e := ledger[|ledger| - 1];
      if e.Corporate? { F.RaisedAtLeast(F.LaterFactor(ledger[..|ledger| - 1], day), e.factor); }
    }
  }

  lemma GrowsExactlyWhen(ledger: seq<F.Txn>, quantity: real, day: nat)
    requires F.ValidLedger(ledger) && quantity > 0.0
    ensures F.Grown(ledger, quantity, day) >= quantity
    ensures F.Grown(ledger, quantity, day) == quantity <==> F.LaterFactor(ledger, day) == 1.0
  {
    F.GrownByLaterFactor(ledger, quantity, day);
    FactorAtLeastOne(ledger, day);
    OnlyOneKeeps(quantity, F.LaterFactor(ledger, day));
  }

  lemma OnlyOneKeeps(q: real, f: real)
    requires q > 0.0 && f >= 1.0
    ensures q * f >= q && (q * f == q <==> f == 1.0)
  {
    if f > 1.0 { assert q * (f - 1.0) > 0.0; }
  }

  /** The same units arrive as were held, exactly when no later corporate action multiplies a row; otherwise
      more do. */
  lemma {:induction false} ArrivesWhole(book: Book, rows: seq<BrokerHolding>, i: nat)
    requires F.ValidLedger(book.ledgers(i)) && OwnedRows(rows)
    ensures Arrived(book, rows, i) >= RowTotal(Quantity, rows, i)
    ensures Arrived(book, rows, i) == RowTotal(Quantity, rows, i) <==> Unmultiplied(book, rows, i)
  {
    if rows != [] {
      var front, b := rows[..|rows| - 1], rows[|rows| - 1];
      OwnedFront(rows);
      ArrivesWhole(book, front, i);
      GrowsExactlyWhen(book.ledgers(i), b.quantity, DayOf(b));
      assert rows == front + [b];
    }
  }

  // ---------- what it cost, and what was realized ----------

  lemma {:induction false} OutlayOnRows(book: Book, rows: seq<BrokerHolding>, i: nat)
    requires F.ValidLedger(book.ledgers(i)) && OwnedRows(rows)
    ensures F.ValidLedger(LedgerOf(book, rows, i))
    ensures F.Outlay(LedgerOf(book, rows, i)) == F.Outlay(book.ledgers(i)) + RowTotal(Outlay, rows, i)
  {
    if rows != [] {
      var front, b := rows[..|rows| - 1], rows[|rows| - 1];
      OwnedFront(rows);
      OutlayOnRows(book, front, i);
      if b.instrument == Some(i) { OutlayOnRow(LedgerOf(book, front, i), b); }
    }
  }

  lemma OutlayOnRow(ledger: seq<F.Txn>, b: BrokerHolding)
    requires F.ValidLedger(ledger) && b.quantity > 0.0
    ensures var more := F.Enlisted(ledger, SyntheticBuy(b));
            F.ValidLedger(more) && F.Outlay(more) == F.Outlay(ledger) + OfRow(Outlay, b)
  {
    F.OutlayOnOneMore(ledger, SyntheticBuy(b));
  }

  /** COST MOVES WHOLE, however the destination's past sells are re-matched: what is invested there less what was
      realized grows by the broker's own cost of the rows. */
  lemma CostIsCarriedOver(book: Book, rows: seq<BrokerHolding>, i: nat)
    requires GoodLedger(book.ledgers(i)) && OwnedRows(rows)
    ensures var before, after := PositionOf(book.ledgers(i)), PositionOf(LedgerOf(book, rows, i));
            after.invested - after.realized == before.invested - before.realized + RowTotal(Outlay, rows, i)
  {
    LedgersReplay(book, rows, i);
    OutlayOnRows(book, rows, i);
    F.InvestedLessRealizedIsOutlay(book.ledgers(i));
    F.InvestedLessRealizedIsOutlay(LedgerOf(book, rows, i));
  }

  /** What the destination held on the day a row was synced is enough for every sell it made later. */
  predicate SellsAreHeld(book: Book, rows: seq<BrokerHolding>, i: nat) {
    forall b :: b in rows && b.instrument == Some(i) ==> F.SellsAreHeldBy(book.ledgers(i), DayOf(b))
  }

  lemma {:induction false} RowsKeepSellsHeld(book: Book, rows: seq<BrokerHolding>, i: nat, day: nat)
    requires GoodLedger(book.ledgers(i)) && OwnedRows(rows) && F.SellsAreHeldBy(book.ledgers(i), day)
    ensures F.SellsAreHeldBy(LedgerOf(book, rows, i), day)
  {
    if rows != [] {
      var front, b := rows[..|rows| - 1], rows[|rows| - 1];
      OwnedFront(rows);
      RowsKeepSellsHeld(book, front, i, day);
      LedgersReplay(book, front, i);
      if b.instrument == Some(i) { F.BuyKeepsSellsHeld(LedgerOf(book, front, i), SyntheticBuy(b), day); }
    }
  }

  /** WHEN REALIZED STANDS. Where the lots held on a row's day cover the later sells, none is re-matched: what was
      realized stands, and the rows' cost is all added to what is invested. */
  lemma {:induction false} RealizedIsKept(book: Book, rows: seq<BrokerHolding>, i: nat)
    requires GoodLedger(book.ledgers(i)) && OwnedRows(rows) && SellsAreHeld(book, rows, i)
    ensures var before, after := PositionOf(book.ledgers(i)), PositionOf(LedgerOf(book, rows, i));
            after.realized == before.realized && after.invested == before.invested + RowTotal(Outlay, rows, i)
  {
    if rows != [] {
      var front, b := rows[..|rows| - 1], rows[|rows| - 1];
      assert rows == front + [b];
      OwnedFront(rows);
      RealizedIsKept(book, front, i);
      LedgersReplay(book, front, i);
      if b.instrument == Some(i) {
        RowsKeepSellsHeld(book, front, i, DayOf(b));
        F.RealizedStands(LedgerOf(book, front, i), SyntheticBuy(b));
      }
    }
    CostIsCarriedOver(book, rows, i);
  }

  /** So it does where the destination made no sell after the day of any row. */
  lemma NoLaterSellKeepsRealized(book: Book, rows: seq<BrokerHolding>, i: nat)
    requires GoodLedger(book.ledgers(i)) && OwnedRows(rows)
    requires forall b, t ::
               b in rows && b.instrument == Some(i) && t in book.ledgers(i) && t.Sell? ==> t.day <= DayOf(b)
    ensures SellsAreHeld(book, rows, i)
    ensures var before, after := PositionOf(book.ledgers(i)), PositionOf(LedgerOf(book, rows, i));
            after.realized == before.realized && after.invested == before.invested + RowTotal(Outlay, rows, i)
  {
    F.ReplaysIffCovered(book.ledgers(i));
    forall b | b in rows && b.instrument == Some(i) ensures F.SellsAreHeldBy(book.ledgers(i), DayOf(b)) {
      F.NoLaterSells(book.ledgers(i), DayOf(b));
    }
    RealizedIsKept(book, rows, i);
  }

  /** In particular where it never sold: nothing is realized before or after. */
  lemma CostOfUnsold(book: Book, rows: seq<BrokerHolding>, i: nat)
    requires GoodLedger(book.ledgers(i)) && OwnedRows(rows) && forall t :: t in book.ledgers(i) ==> !t.Sell?
    ensures var before, after := PositionOf(book.ledgers(i)), PositionOf(LedgerOf(book, rows, i));
            after.invested == before.invested + RowTotal(Outlay, rows, i) && after.realized == before.realized == 0.0
  {
    F.UnsoldRealizesNothing(book.ledgers(i));
    NoLaterSellKeepsRealized(book, rows, i);
  }

  // ---------- the destination's holdings ----------

  lemma {:induction false} PutThenFind(manual: seq<ManualHolding>, h: ManualHolding, a: AccountId, i: nat)
    ensures FindManual(PutManual(manual, h), a, i)
            == if h.account == a && h.instrument == i then Some(h) else FindManual(manual, a, i)
  {
    if manual != [] {
      var front, last := manual[..|manual| - 1], manual[|manual| - 1];
      PutThenFind(front, h, a, i);
      assert (front + [h])[..|front|] == front;
      assert (PutManual(front, h) + [last])[..|PutManual(front, h)|] == PutManual(front, h);
    } else {
      assert [h][..0] == [];
    }
  }

  predicate Mentions(rows: seq<BrokerHolding>, i: nat) { exists b :: b in rows && b.instrument == Some(i) }

  function AfterRows(there: Option<ManualHolding>, book: Book, u: UserId, to: AccountId, rows: seq<BrokerHolding>,
                     i: nat):
    Option<ManualHolding>
  {
    if Mentions(rows, i) then Some(Materialized(there, book, u, to, i, PositionOf(LedgerOf(book, rows, i)))) else there
  }

  lemma MentionsMore(rows: seq<BrokerHolding>, i: nat)
    requires rows != []
    ensures Mentions(rows, i) <==> Mentions(rows[..|rows| - 1], i) || rows[|rows| - 1].instrument == Some(i)
  {
    var front, b := rows[..|rows| - 1], rows[|rows| - 1];
    assert rows == front + [b];
    if Mentions(front, i) { var x :| x in front && x.instrument == Some(i); assert x in rows; }
    if b.instrument == Some(i) { assert b in rows; }
  }

  /** The destination's holding of an instrument after the rows: the replay of its ledger with their buys, under
      the identity it had; one no row mentions is untouched. */
  lemma {:induction false} RescuedHolding(manual: seq<ManualHolding>, book: Book, u: UserId, to: AccountId,
                                          rows: seq<BrokerHolding>, i: nat)
    ensures FindManual(RescueInto(manual, book, u, to, rows), to, i)
            == AfterRows(FindManual(manual, to, i), book, u, to, rows, i)
  {
    if rows != [] {
      var front, b := rows[..|rows| - 1], rows[|rows| - 1];
      RescuedHolding(manual, book, u, to, front, i);
      MentionsMore(rows, i);
      if b.instrument.Some? {
        var before, j := RescueInto(manual, book, u, to, front), b.instrument.value;
        FindManualFinds(before, to, j);
        var h := Materialized(FindManual(before, to, j), book, u, to, j, PositionOf(LedgerOf(book, rows, j)));
        PutThenFind(before, h, to, i);
      }
    }
  }

  function OfHolding(f: Figure, h: ManualHolding): real {
    match f
    case Quantity => h.quantity
    case Outlay => h.invested - h.realized
  }

  function OfThere(f: Figure, h: Option<ManualHolding>): real { if h.Some? then OfHolding(f, h.value) else 0.0 }

  function OfPosition(f: Figure, p: F.Position): real {
    match f
    case Quantity => p.quantity
    case Outlay => p.invested - p.realized
  }

  lemma NotMentioned(book: Book, rows: seq<BrokerHolding>, i: nat)
    requires !Mentions(rows, i)
    ensures LedgerOf(book, rows, i) == book.ledgers(i)
  {
    if rows != [] {
      var front, b := rows[..|rows| - 1], rows[|rows| - 1];
      assert rows == front + [b];
      assert b in rows;
      NotMentioned(book, front, i);
    }
  }

  /** Whether or not a row has mentioned it yet, what the destination holds, and what that cost, is its ledger's. */
  lemma FigureThere(f: Figure, s: Store, book: Book, u: UserId, to: AccountId, rows: seq<BrokerHolding>, i: nat)
    requires BookIsTrue(s, to, book) && OwnedRows(rows)
    ensures GoodLedger(LedgerOf(book, rows, i)) && PositionOf(LedgerOf(book, rows, i)).quantity >= 0.0
    ensures OfThere(f, FindManual(RescueInto(s.manual, book, u, to, rows), to, i))
            == OfPosition(f, PositionOf(LedgerOf(book, rows, i)))
            == OfThere(f, FindManual(s.manual, to, i)) + Brought(f, book, rows, i)
  {
    LedgersReplay(book, rows, i);
    CostIsCarriedOver(book, rows, i);
    HeldIsNotNegative(LedgerOf(book, rows, i));
    RescuedHolding(s.manual, book, u, to, rows, i);
    EmptyLedgerHoldsNothing();
    if !Mentions(rows, i) { NotMentioned(book, rows, i); }
  }

  lemma EmptyLedgerHoldsNothing()
    ensures PositionOf([]) == F.Position(0.0, 0.0, 0.0, 0.0)
  {
    assert F.Replay([]) == Some(F.Register([], 0.0));
  }

  // ---------- a figure of an instrument, over the whole read ----------

  function InstrumentOf(p: Position): Option<nat> { if p.ManualLine? then Some(p.instrument) else p.instrumentId }

  function OfLine(f: Figure, p: Position): real {
    match f
    case Quantity => p.quantity
    case Outlay => if p.ManualLine? then p.invested - p.realized else p.invested
  }

  function TotalIn(f: Figure, ps: seq<Position>, i: nat): real {
    if ps == [] then 0.0
    else
      var p := ps[|ps| - 1];
      TotalIn(f, ps[..|ps| - 1], i) + if InstrumentOf(p) == Some(i) then OfLine(f, p) else 0.0
  }

  lemma TotalSnoc(f: Figure, ps: seq<Position>, p: Position, i: nat)
    ensures TotalIn(f, ps + [p], i) == TotalIn(f, ps, i) + if InstrumentOf(p) == Some(i) then OfLine(f, p) else 0.0
    ensures TotalIn(f, ps + [], i) == TotalIn(f, ps, i)
  {
    assert (ps + [p])[..|ps|] == ps;
    assert ps + [] == ps;
  }

  lemma {:induction false} TotalConcat(f: Figure, a: seq<Position>, b: seq<Position>, i: nat)
    ensures TotalIn(f, a + b, i) == TotalIn(f, a, i) + TotalIn(f, b, i)
  {
    if b == [] {
      assert a + b == a;
    } else {
      TotalConcat(f, a, b[..|b| - 1], i);
      assert (a + b)[..|a + b| - 1] == a + b[..|b| - 1];
    }
  }

  lemma {:induction false} TotalSplit(f: Figure, ps: seq<Position>, c: ConnId, i: nat)
    ensures TotalIn(f, ps, i) == TotalIn(f, LinesElsewhere(ps, c), i) + TotalIn(f, LinesUnder(ps, c), i)
  {
    if ps != [] {
      var front, p := ps[..|ps| - 1], ps[|ps| - 1];
      TotalSplit(f, front, c, i);
      TotalSnoc(f, LinesElsewhere(front, c), p, i);
      TotalSnoc(f, LinesUnder(front, c), p, i);
    }
  }

  /** What a manual holding adds to a user's figure of an instrument. */
  function Adds(f: Figure, h: ManualHolding, v: UserId, includeExited: bool, i: nat): real {
    if h.instrument == i && Reads(h.user, h.quantity, v, includeExited) then OfHolding(f, h) else 0.0
  }

  function ManualTotal(f: Figure, manual: seq<ManualHolding>, v: UserId, includeExited: bool, i: nat): real {
    if manual == [] then 0.0
    else
      ManualTotal(f, manual[..|manual| - 1], v, includeExited, i) + Adds(f, manual[|manual| - 1], v, includeExited, i)
  }

  lemma {:induction false} ManualTotalIsRead(f: Figure, s: Store, manual: seq<ManualHolding>, v: UserId,
                                             includeExited: bool, i: nat)
    ensures TotalIn(f, ManualPart(s, manual, v, includeExited), i) == ManualTotal(f, manual, v, includeExited, i)
  {
    if manual != [] {
      var front, h := manual[..|manual| - 1], manual[|manual| - 1];
      ManualTotalIsRead(f, s, front, v, includeExited, i);
      TotalSnoc(f, ManualPart(s, front, v, includeExited), ManualPosition(s.accounts, h), i);
    }
  }

  function AddsIfAny(f: Figure, h: Option<ManualHolding>, v: UserId, includeExited: bool, i: nat): real {
    if h.Some? then Adds(f, h.value, v, includeExited, i) else 0.0
  }

  lemma {:induction false} PutTotal(f: Figure, manual: seq<ManualHolding>, h: ManualHolding, v: UserId,
                                    includeExited: bool, i: nat)
    ensures ManualTotal(f, PutManual(manual, h), v, includeExited, i)
            == ManualTotal(f, manual, v, includeExited, i) + Adds(f, h, v, includeExited, i)
               - AddsIfAny(f, FindManual(manual, h.account, h.instrument), v, includeExited, i)
  {
    if manual != [] {
      var front, last := manual[..|manual| - 1], manual[|manual| - 1];
      if SameKey(last, h) {
        assert (front + [h])[..|front|] == front;
      } else {
        PutTotal(f, front, h, v, includeExited, i);
        assert (PutManual(front, h) + [last])[..|PutManual(front, h)|] == PutManual(front, h);
      }
    } else {
      assert [h][..0] == [];
    }
  }

  /** A position sold out is listed only on request, and it still carries what it realized. */
  predicate Complete(f: Figure, includeExited: bool) { f.Outlay? ==> includeExited }

  lemma {:induction false} RescueAdds(f: Figure, s: Store, book: Book, u: UserId, to: AccountId,
                                      rows: seq<BrokerHolding>, v: UserId, includeExited: bool, i: nat)
    requires DistinctManual(s.manual) && (forall h :: h in s.manual && h.account == to ==> h.user == u)
    requires BookIsTrue(s, to, book) && OwnedRows(rows) && Complete(f, includeExited)
    ensures ManualTotal(f, RescueInto(s.manual, book, u, to, rows), v, includeExited, i)
            == ManualTotal(f, s.manual, v, includeExited, i) + if v == u then Brought(f, book, rows, i) else 0.0
  {
    if rows != [] {
      var front, b := rows[..|rows| - 1], rows[|rows| - 1];
      OwnedFront(rows);
      RescueAdds(f, s, book, u, to, front, v, includeExited, i);
      if b.instrument.Some? { RescuedRowAdds(f, s, book, u, to, rows, v, includeExited, i); }
    }
  }

  lemma RescuedRowAdds(f: Figure, s: Store, book: Book, u: UserId, to: AccountId, rows: seq<BrokerHolding>, v: UserId,
                       includeExited: bool, i: nat)
    requires DistinctManual(s.manual) && (forall h :: h in s.manual && h.account == to ==> h.user == u)
    requires BookIsTrue(s, to, book) && OwnedRows(rows) && Complete(f, includeExited)
    requires rows != [] && rows[|rows| - 1].instrument.Some?
    ensures var front := rows[..|rows| - 1];
            ManualTotal(f, RescueInto(s.manual, book, u, to, rows), v, includeExited, i)
            == ManualTotal(f, RescueInto(s.manual, book, u, to, front), v, includeExited, i)
               + if v == u then Brought(f, book, rows, i) - Brought(f, book, front, i) else 0.0
  {
    var front, j := rows[..|rows| - 1], rows[|rows| - 1].instrument.value;
    var before := RescueInto(s.manual, book, u, to, front);
    var there := FindManual(before, to, j);
    var h := Materialized(there, book, u, to, j, PositionOf(LedgerOf(book, rows, j)));
    OwnedFront(rows);
    RescueIntoWrites(s.manual, book, u, to, front);
    FindManualFinds(before, to, j);
    PutTotal(f, before, h, v, includeExited, i);
    if j == i {
      QuantityIsNotNegative(s, book, u, to, front, i);
      FigureThere(f, s, book, u, to, front, i);
      FigureThere(f, s, book, u, to, rows, i);
      ReplacingAdds(f, there, h, u, v, includeExited, i);
    }
  }

  lemma ReplacingAdds(f: Figure, there: Option<ManualHolding>, h: ManualHolding, u: UserId, v: UserId,
                      includeExited: bool, i: nat)
    requires Complete(f, includeExited) && h.instrument == i && h.user == u && h.quantity >= 0.0
    requires there.Some? ==> there.value.instrument == i && there.value.user == u && there.value.quantity >= 0.0
    ensures Adds(f, h, v, includeExited, i) - AddsIfAny(f, there, v, includeExited, i)
            == if v == u then OfHolding(f, h) - OfThere(f, there) else 0.0
  {
  }

  lemma QuantityIsNotNegative(s: Store, book: Book, u: UserId, to: AccountId, rows: seq<BrokerHolding>, i: nat)
    requires BookIsTrue(s, to, book) && OwnedRows(rows)
    ensures OfThere(Quantity, FindManual(RescueInto(s.manual, book, u, to, rows), to, i)) >= 0.0
  {
    FigureThere(Quantity, s, book, u, to, rows, i);
  }

  // ---------- the broker side ----------

  lemma RowTotalSnoc(f: Figure, rows: seq<BrokerHolding>, b: BrokerHolding, i: nat)
    ensures RowTotal(f, rows + [b], i) == RowTotal(f, rows, i) + if b.instrument == Some(i) then OfRow(f, b) else 0.0
  {
    assert (rows + [b])[..|rows|] == rows;
  }

  lemma {:induction false} RowTotalConcat(f: Figure, a: seq<BrokerHolding>, b: seq<BrokerHolding>, i: nat)
    ensures RowTotal(f, a + b, i) == RowTotal(f, a, i) + RowTotal(f, b, i)
  {
    if b == [] {
      assert a + b == a;
    } else {
      RowTotalConcat(f, a, b[..|b| - 1], i);
      assert (a + b)[..|a + b| - 1] == a + b[..|b| - 1];
    }
  }

  lemma TakenOut(f: Figure, b: seq<BrokerHolding>, k: nat, i: nat)
    requires k < |b|
    ensures RowTotal(f, b, i)
            == RowTotal(f, b[..k] + b[k + 1..], i) + if b[k].instrument == Some(i) then OfRow(f, b[k]) else 0.0
  {
    assert b == b[..k] + [b[k]] + b[k + 1..];
    RowTotalConcat(f, b[..k], b[k + 1..], i);
    RowTotalConcat(f, b[..k] + [b[k]], b[k + 1..], i);
    RowTotalSnoc(f, b[..k], b[k], i);
  }

  lemma SameRest(front: seq<BrokerHolding>, b: seq<BrokerHolding>, k: nat)
    requires k < |b| && multiset(front + [b[k]]) == multiset(b)
    ensures multiset(front) == multiset(b[..k] + b[k + 1..])
  {
    assert b == b[..k] + [b[k]] + b[k + 1..];
    assert multiset(b) == multiset(b[..k]) + multiset{b[k]} + multiset(b[k + 1..]);
    assert multiset(front) == multiset(front + [b[k]]) - multiset{b[k]};
  }

  lemma {:induction false} RowTotalAnyOrder(f: Figure, a: seq<BrokerHolding>, b: seq<BrokerHolding>, i: nat)
    requires multiset(a) == multiset(b)
    ensures RowTotal(f, a, i) == RowTotal(f, b, i)
    decreases |a|
  {
    if a == [] {
      assert |multiset(b)| == 0;
    } else {
      var front, x := a[..|a| - 1], a[|a| - 1];
      assert a == front + [x];
      assert x in multiset(b);
      var k :| 0 <= k < |b| && b[k] == x;
      TakenOut(f, b, k, i);
      SameRest(front, b, k);
      RowTotalAnyOrder(f, front, b[..k] + b[k + 1..], i);
    }
  }

  lemma {:induction false} RowsAreRead(f: Figure, s: Store, rows: seq<BrokerHolding>, u: UserId, c: ConnId, v: UserId,
                                       includeExited: bool, i: nat)
    requires c in s.conns && Bound(s, c) && OwnedRows(rows) && forall b :: b in rows ==> b.conn == c && b.user == u
    ensures TotalIn(f, BrokerPart(s, rows, v, includeExited), i) == if v == u then RowTotal(f, rows, i) else 0.0
  {
    if rows != [] {
      var front, b := rows[..|rows| - 1], rows[|rows| - 1];
      OwnedFront(rows);
      assert b in rows;
      RowsAreRead(f, s, front, u, c, v, includeExited, i);
      TotalConcat(f, BrokerPart(s, front, v, includeExited), LineOf(s, b, v, includeExited), i);
      LineIsRead(f, s, b, v, includeExited, i);
    }
  }

  lemma LineIsRead(f: Figure, s: Store, b: BrokerHolding, v: UserId, includeExited: bool, i: nat)
    requires b.conn in s.conns && Bound(s, b.conn) && b.quantity > 0.0
    ensures TotalIn(f, LineOf(s, b, v, includeExited), i)
            == if b.user == v && b.instrument == Some(i) then OfRow(f, b) else 0.0
  {
    var a :| BoundTo(s, a, b.conn);
    var l := LineOf(s, b, v, includeExited);
    if l != [] { assert l == [] + [l[0]]; TotalSnoc(f, [], l[0], i); }
  }

  // ---------- the rescue ----------

  /** The guards, in terms of the tables alone. */
  ghost predicate MayRescue(s: Store, u: UserId, from: AccountId, to: AccountId, confirm: bool) {
    && from != to && OwnsAccount(s, u, from) && OwnsAccount(s, u, to)
    && s.accounts[from].conn.Some? && s.accounts[to].state == Manual
    && s.accounts[from].broker == s.accounts[to].broker && confirm
    && (exists h :: h in s.holdings && BoundTo(s, from, h.conn))
    && (forall h :: h in s.holdings && BoundTo(s, from, h.conn) ==> h.instrument.Some?)
  }

  lemma RowsAreTheConnections(s: Store, a: AccountId, rows: seq<BrokerHolding>)
    requires Integrity(s) && RowsOf(s, a, rows) && a in s.accounts && s.accounts[a].conn.Some?
    ensures forall h :: h in rows <==> h in s.holdings && BoundTo(s, a, h.conn)
    ensures OwnedRows(rows)
  {
    var held := RowsUnder(s.holdings, s.accounts[a].conn.value);
    RowsUnderAre(s.holdings, s.accounts[a].conn.value);
    forall h ensures h in rows <==> h in held {
      assert h in multiset(rows) <==> h in multiset(held);
    }
  }

  /** ALL OR NOTHING. A rescue goes through exactly when the tables allow it, and is otherwise refused with
      everything as it was. */
  lemma RescueGoesThroughExactlyWhen(s: Store, u: UserId, from: AccountId, to: AccountId, confirm: bool,
                                     rows: seq<BrokerHolding>, book: Book)
    requires Integrity(s) && RowsOf(s, from, rows)
    ensures var (s', reply) := Rescue(s, u, from, to, confirm, rows, book);
            && (reply.Changed? <==> MayRescue(s, u, from, to, confirm))
            && (!reply.Changed? ==> reply.Refused? && s' == s)
  {
    if OwnsAccount(s, u, from) && s.accounts[from].conn.Some? {
      RowsAreTheConnections(s, from, rows);
      if rows != [] { assert rows[0] in rows; }
      forall i | 0 <= i < |rows| ensures rows[i] in rows {}
    }
  }

  lemma {:induction false} NothingToRemove(manual: seq<ManualHolding>, a: AccountId)
    requires forall h :: h in manual ==> h.account != a
    ensures WithoutAccount(manual, a) == manual
  {
    if manual != [] {
      assert manual == manual[..|manual| - 1] + [manual[|manual| - 1]];
      assert manual[|manual| - 1] in manual;
      NothingToRemove(manual[..|manual| - 1], a);
    }
  }

  /** The account is broker-fed, so its own deletion strands no manual holding. */
  lemma MoveOutLedger(s: Store, u: UserId, from: AccountId, to: AccountId, c: ConnId, rows: seq<BrokerHolding>,
                      book: Book)
    requires Integrity(s) && OwnsAccount(s, u, from) && OwnsAccount(s, u, to) && from != to
    requires BoundTo(s, from, c) && s.accounts[to].state == Manual
    ensures MoveOut(s, u, from, to, c, rows, book).manual == RescueInto(s.manual, book, u, to, rows)
    ensures forall h: ManualHolding :: h.account != to ==>
              (h in MoveOut(s, u, from, to, c, rows, book).manual <==> h in s.manual)
  {
    RescueIntoWrites(s.manual, book, u, to, rows);
    NothingToRemove(RescueInto(s.manual, book, u, to, rows), from);
  }

  lemma MoveOutIsGone(s: Store, u: UserId, from: AccountId, to: AccountId, c: ConnId, rows: seq<BrokerHolding>,
                      book: Book)
    requires Integrity(s) && OwnsAccount(s, u, from) && OwnsAccount(s, u, to) && from != to
    requires BoundTo(s, from, c) && s.accounts[to].state == Manual
    ensures GoneFrom(s, MoveOut(s, u, from, to, c, rows, book), c)
  {
    MoveOutKeepsIntegrity(s, u, from, to, c, rows, book);
    var s' := MoveOut(s, u, from, to, c, rows, book);
    forall a, k ensures BoundTo(s', a, k) <==> BoundTo(s, a, k) && k != c {
      if BoundTo(s, a, c) { assert a == from; }
    }
  }

  /**
   EXACTLY THAT CONNECTION'S LINES GO, AND EXACTLY THE DESTINATION'S HOLDINGS CHANGE. Of every instrument the
   destination then holds what it held and what arrived, at what it had cost and what the rows cost, by the replay
   of its ledger with the rows' buys.
   */
  lemma RescueMovesTheBook(s: Store, u: UserId, from: AccountId, to: AccountId, confirm: bool, rows: seq<BrokerHolding>,
                           book: Book, v: UserId, includeExited: bool)
    requires Integrity(s) && RowsOf(s, from, rows) && BookIsTrue(s, to, book)
    requires MayRescue(s, u, from, to, confirm)
    ensures var s', c := Rescue(s, u, from, to, confirm, rows, book).0, s.accounts[from].conn.value;
            && BrokerPart(s', s'.holdings, v, includeExited)
               == LinesElsewhere(BrokerPart(s, s.holdings, v, includeExited), c)
            && (forall h: ManualHolding :: h.account != to ==> (h in s'.manual <==> h in s.manual))
            && (forall i: nat :: FindManual(s'.manual, to, i)
                  == AfterRows(FindManual(s.manual, to, i), book, u, to, rows, i))
            && (forall f: Figure, i: nat :: OfThere(f, FindManual(s'.manual, to, i))
                  == OfThere(f, FindManual(s.manual, to, i)) + Brought(f, book, rows, i))
            && c !in s'.conns && from !in s'.accounts
  {
    var s', c := Rescue(s, u, from, to, confirm, rows, book).0, s.accounts[from].conn.value;
    RescueGoesThroughExactlyWhen(s, u, from, to, confirm, rows, book);
    RowsAreTheConnections(s, from, rows);
    MoveOutIsGone(s, u, from, to, c, rows, book);
    PartWithout(s, s', s.holdings, c, v, includeExited);
    MoveOutLedger(s, u, from, to, c, rows, book);
    forall i: nat { RescuedHolding(s.manual, book, u, to, rows, i); }
    forall f: Figure, i: nat { FigureThere(f, s, book, u, to, rows, i); }
  }

  /** A holding written at the end of a ledger: its figures, whatever lots they came from, and its identity, that of
      the row already there or the instrument's own. */
  ghost predicate WrittenFrom(h: ManualHolding, ledger: seq<F.Txn>, there: Option<ManualHolding>, book: Book) {
    && GoodLedger(ledger) && F.Sums(ledger, h.quantity, h.avgCost, h.invested, h.realized)
    && h.realized == F.Replay(ledger).value.realized
    && if there.Some? then
         h.id == there.value.id && h.stock == there.value.stock && h.symbol == there.value.symbol
       else
         h.id == book.idOf(h.instrument) && h.stock == book.stockOf(h.instrument)
         && h.symbol == book.nameOf(h.instrument)
  }

  lemma WrittenAt(s: Store, u: UserId, to: AccountId, rows: seq<BrokerHolding>, book: Book, i: nat)
    requires BookIsTrue(s, to, book) && OwnedRows(rows)
    ensures var h := FindManual(RescueInto(s.manual, book, u, to, rows), to, i);
            h.Some? ==> WrittenFrom(h.value, LedgerOf(book, rows, i), FindManual(s.manual, to, i), book)
  {
    RescuedHolding(s.manual, book, u, to, rows, i);
    LedgersReplay(book, rows, i);
    F.PositionIsItsLedgers(LedgerOf(book, rows, i));
    FindManualFinds(s.manual, to, i);
    FindManualFinds(RescueInto(s.manual, book, u, to, rows), to, i);
    if !Mentions(rows, i) { NotMentioned(book, rows, i); }
  }

  /**
   EVERY HOLDING OF THE DESTINATION, whether a row reached it or not, is after a rescue what its ledger with the
   rows' buys says, figure by figure: the average cost is over all its lots, not over some.
   */
  lemma HoldingsAreTheirLedgers(s: Store, u: UserId, from: AccountId, to: AccountId, confirm: bool,
                                rows: seq<BrokerHolding>, book: Book)
    requires Integrity(s) && RowsOf(s, from, rows) && BookIsTrue(s, to, book) && MayRescue(s, u, from, to, confirm)
    ensures forall h :: h in Rescue(s, u, from, to, confirm, rows, book).0.manual && h.account == to ==>
              h.user == u
              && WrittenFrom(h, LedgerOf(book, rows, h.instrument), FindManual(s.manual, to, h.instrument), book)
  {
    var after := RescueInto(s.manual, book, u, to, rows);
    RescueGoesThroughExactlyWhen(s, u, from, to, confirm, rows, book);
    RowsAreTheConnections(s, from, rows);
    MoveOutLedger(s, u, from, to, s.accounts[from].conn.value, rows, book);
    RescueIntoWrites(s.manual, book, u, to, rows);
    forall h | h in after && h.account == to
      ensures WrittenFrom(h, LedgerOf(book, rows, h.instrument), FindManual(s.manual, to, h.instrument), book)
    {
      WrittenAt(s, u, to, rows, book, h.instrument);
      FoundIsTheOne(after, h);
    }
  }

  lemma RescuedAverages(s: Store, u: UserId, from: AccountId, to: AccountId, confirm: bool, rows: seq<BrokerHolding>,
                        book: Book)
    requires Integrity(s) && RowsOf(s, from, rows) && BookIsTrue(s, to, book)
    ensures var (s', reply) := Rescue(s, u, from, to, confirm, rows, book);
            reply.Changed? ==>
              forall h :: h in s'.manual && h.account == to ==> F.Averages(h.quantity, h.avgCost, h.invested)
  {
    RescueGoesThroughExactlyWhen(s, u, from, to, confirm, rows, book);
    if MayRescue(s, u, from, to, confirm) { HoldingsAreTheirLedgers(s, u, from, to, confirm, rows, book); }
  }

  lemma FoundIsTheOne(manual: seq<ManualHolding>, h: ManualHolding)
    requires DistinctManual(manual) && h in manual
    ensures FindManual(manual, h.account, h.instrument) == Some(h)
  {
    FindManualFinds(manual, h.account, h.instrument);
    var x := FindManual(manual, h.account, h.instrument).value;
    var j, k :| 0 <= j < |manual| && 0 <= k < |manual| && manual[j] == h && manual[k] == x;
  }

  lemma RescueTakesFromBrokers(f: Figure, s: Store, u: UserId, from: AccountId, to: AccountId, confirm: bool,
                               rows: seq<BrokerHolding>, book: Book, v: UserId, includeExited: bool, i: nat)
    requires Integrity(s) && RowsOf(s, from, rows) && MayRescue(s, u, from, to, confirm)
    ensures var s' := Rescue(s, u, from, to, confirm, rows, book).0;
            TotalIn(f, BrokerPart(s', s'.holdings, v, includeExited), i)
            == TotalIn(f, BrokerPart(s, s.holdings, v, includeExited), i) - if v == u then RowTotal(f, rows, i) else 0.0
  {
    var s', c := Rescue(s, u, from, to, confirm, rows, book).0, s.accounts[from].conn.value;
    RescueGoesThroughExactlyWhen(s, u, from, to, confirm, rows, book);
    MoveOutIsGone(s, u, from, to, c, rows, book);
    PartWithout(s, s', s.holdings, c, v, includeExited);
    TotalSplit(f, BrokerPart(s, s.holdings, v, includeExited), c, i);
    PartUnder(s, s.holdings, v, includeExited, c);
    UnderIsRead(f, s, from, rows, v, includeExited, i);
  }

  /** The lines of an account's connection come to the figure of its rows, in whatever order they are read. */
  lemma UnderIsRead(f: Figure, s: Store, from: AccountId, rows: seq<BrokerHolding>, v: UserId, includeExited: bool,
                    i: nat)
    requires Integrity(s) && RowsOf(s, from, rows) && from in s.accounts && s.accounts[from].conn.Some?
    ensures var held := RowsUnder(s.holdings, s.accounts[from].conn.value);
            TotalIn(f, BrokerPart(s, held, v, includeExited), i)
            == if v == s.accounts[from].user then RowTotal(f, rows, i) else 0.0
  {
    var c := s.accounts[from].conn.value;
    var held := RowsUnder(s.holdings, c);
    RowsUnderAre(s.holdings, c);
    assert BoundTo(s, from, c);
    RowsAreRead(f, s, held, s.accounts[from].user, c, v, includeExited, i);
    RowTotalAnyOrder(f, rows, held, i);
  }

  /** Over everything a user reads, a rescue takes the rows' figure out and puts in what they brought. */
  lemma RescueChangesTotal(f: Figure, s: Store, u: UserId, from: AccountId, to: AccountId, confirm: bool,
                           rows: seq<BrokerHolding>, book: Book, v: UserId, includeExited: bool, i: nat)
    requires Integrity(s) && RowsOf(s, from, rows) && BookIsTrue(s, to, book) && MayRescue(s, u, from, to, confirm)
    requires Complete(f, includeExited)
    ensures var s' := Rescue(s, u, from, to, confirm, rows, book).0;
            TotalIn(f, Positions(s', v, includeExited), i)
            == TotalIn(f, Positions(s, v, includeExited), i)
               + if v == u then Brought(f, book, rows, i) - RowTotal(f, rows, i) else 0.0
  {
    var s' := Rescue(s, u, from, to, confirm, rows, book).0;
    RescueGoesThroughExactlyWhen(s, u, from, to, confirm, rows, book);
    RowsAreTheConnections(s, from, rows);
    MoveOutLedger(s, u, from, to, s.accounts[from].conn.value, rows, book);
    RescueAdds(f, s, book, u, to, rows, v, includeExited, i);
    RescueTakesFromBrokers(f, s, u, from, to, confirm, rows, book, v, includeExited, i);
    ManualTotalIsRead(f, s, s.manual, v, includeExited, i);
    ManualTotalIsRead(f, s', s'.manual, v, includeExited, i);
    TotalConcat(f, ManualPart(s, s.manual, v, includeExited), BrokerPart(s, s.holdings, v, includeExited), i);
    TotalConcat(f, ManualPart(s', s'.manual, v, includeExited), BrokerPart(s', s'.holdings, v, includeExited), i);
  }

  /**
   UNITS ARE CONSERVED. Over everything a user reads, manual and broker, a rescue leaves the units of every
   instrument what they were, plus what later corporate actions of the destination's own ledger multiply the
   moved rows by; never fewer, and the same exactly when there is no such action. Other users read the same.
   */
  lemma RescueConservesUnits(s: Store, u: UserId, from: AccountId, to: AccountId, confirm: bool,
                             rows: seq<BrokerHolding>, book: Book, v: UserId, includeExited: bool, i: nat)
    requires Integrity(s) && RowsOf(s, from, rows) && BookIsTrue(s, to, book) && MayRescue(s, u, from, to, confirm)
    ensures var s' := Rescue(s, u, from, to, confirm, rows, book).0;
            var before := TotalIn(Quantity, Positions(s, v, includeExited), i);
            var after := TotalIn(Quantity, Positions(s', v, includeExited), i);
            && after == before + (if v == u then Arrived(book, rows, i) - RowTotal(Quantity, rows, i) else 0.0)
            && after >= before && (after == before <==> v != u || Unmultiplied(book, rows, i))
  {
    RescueChangesTotal(Quantity, s, u, from, to, confirm, rows, book, v, includeExited, i);
    RowsAreTheConnections(s, from, rows);
    ArrivesWhole(book, rows, i);
  }

  /**
   COST IS CONSERVED. Over everything a user reads, positions sold out included, a rescue leaves what is invested
   in every instrument less what was realized on it exactly what it was: whatever the past sells are re-matched
   to, whatever corporate actions there are.
   */
  lemma RescueConservesCost(s: Store, u: UserId, from: AccountId, to: AccountId, confirm: bool,
                            rows: seq<BrokerHolding>, book: Book, v: UserId, i: nat)
    requires Integrity(s) && RowsOf(s, from, rows) && BookIsTrue(s, to, book) && MayRescue(s, u, from, to, confirm)
    ensures var s' := Rescue(s, u, from, to, confirm, rows, book).0;
            TotalIn(Outlay, Positions(s', v, true), i) == TotalIn(Outlay, Positions(s, v, true), i)
  {
    RescueChangesTotal(Outlay, s, u, from, to, confirm, rows, book, v, true, i);
  }

  // ---------- where realized moves and where units grow, on concrete books ----------

  /** A destination bought ten at 100 and sold them at 150; a row bought at 40 was last synced before that. The sell
      is re-matched to the row's lot: realized moves from 500 to 1100, and what is invested from 0 to 1000. */
  lemma RealizedCanMove(b: BrokerHolding)
    requires b.instrument == Some(1) && b.quantity == 10.0 && b.avgCost == 40.0 && b.syncedAt == 3 * MS_PER_DAY
    ensures var ledger := [F.Buy(10.0, 100.0, 0.0, 5), F.Sell(10.0, 150.0, 0.0, 9)];
            var book := Book(i => if i == 1 then ledger else [], i => "", i => None, i => i);
            && GoodLedger(book.ledgers(1)) && OwnedRows([b]) && !SellsAreHeld(book, [b], 1)
            && PositionOf(book.ledgers(1)) == F.Position(0.0, 0.0, 0.0, 500.0)
            && PositionOf(LedgerOf(book, [b], 1)) == F.Position(10.0, 100.0, 1000.0, 1100.0)
  {
    var buy, sell := F.Buy(10.0, 100.0, 0.0, 5), F.Sell(10.0, 150.0, 0.0, 9);
    var book := Book(i => if i == 1 then [buy, sell] else [], i => "", i => None, i => i);
    SoldOut(buy, sell);
    SoldOlder(SyntheticBuy(b), buy, sell);
    SellWasNotHeld(SyntheticBuy(b), buy, sell);
    assert [b][..0] == [];
    assert LedgerOf(book, [b], 1) == [SyntheticBuy(b), buy, sell];
    assert b in [b] && DayOf(b) == 3;
  }

  /** A destination bought ten at 100; ten bought at 40 are moved in. It holds twenty, 1400 invested, at 70 each. */
  lemma AverageIsOverBothLots(b: BrokerHolding)
    requires b.instrument == Some(1) && b.quantity == 10.0 && b.avgCost == 40.0 && b.syncedAt == 7 * MS_PER_DAY
    ensures var book := Book(i => if i == 1 then [F.Buy(10.0, 100.0, 0.0, 5)] else [], i => "", i => None, i => i);
            && GoodLedger(book.ledgers(1)) && OwnedRows([b])
            && PositionOf(LedgerOf(book, [b], 1)) == F.Position(20.0, 70.0, 1400.0, 0.0)
  {
    var buy, k, l := F.Buy(10.0, 100.0, 0.0, 5), F.Lot(10.0, 100.0, 5), F.Lot(10.0, 40.0, 7);
    var book := Book(i => if i == 1 then [buy] else [], i => "", i => None, i => i);
    FirstBuy(buy, k);
    BothBought(buy, SyntheticBuy(b), k, l);
    assert [b][..0] == [] && LedgerOf(book, [b], 1) == [buy, SyntheticBuy(b)];
    assert [k, l][1..] == [l] && [l][1..] == [];
    assert F.Units([l]) == 10.0 && F.Invested([l]) == 400.0;
    assert F.Units([k, l]) == 20.0 && F.Invested([k, l]) == 1400.0;
  }

  lemma SellWasNotHeld(older: F.Txn, buy: F.Txn, sell: F.Txn)
    requires older.day == 3 && buy.Buy? && buy.day == 5 && sell.Sell? && sell.quantity > 0.0 && sell.day == 9
    ensures F.Enlisted([buy, sell], older) == [older, buy, sell]
    ensures !F.SellsAreHeldBy([buy, sell], 3)
  {
    assert [buy, sell][..1] == [buy] && [buy][..0] == [] && [sell][..0] == [];
    assert F.Enlisted([buy], older) == [older, buy];
    assert F.WithoutLaterBuys([buy], 3) == [];
    assert F.WithoutLaterBuys([buy, sell], 3) == [sell];
  }

  /** One lot, sold whole. */
  lemma ConsumedWhole(l: F.Lot, behind: seq<F.Lot>, price: real)
    requires l.quantity > 0.0
    ensures F.Consume([l] + behind, l.quantity, price) == F.Register(behind, F.Gain(price, l, l.quantity))
  {
    assert ([l] + behind)[1..] == behind;
    F.ConsumeFirst([l] + behind, l.quantity, price);
  }

  lemma SoldOut(buy: F.Txn, sell: F.Txn)
    requires buy == F.Buy(10.0, 100.0, 0.0, 5) && sell == F.Sell(10.0, 150.0, 0.0, 9)
    ensures F.ValidLedger([buy, sell]) && F.Replay([buy, sell]) == Some(F.Register([], 500.0))
  {
    var l := F.Lot(10.0, 100.0, 5);
    FirstBuy(buy, l);
    F.Snoc([buy], sell);
    assert [buy] + [sell] == [buy, sell] && [l] + [] == [l] && [l][1..] == [];
    F.SellEnters(F.Register([l], 0.0), sell);
    ConsumedWhole(l, [], 150.0);
  }

  lemma FirstBuy(t: F.Txn, l: F.Lot)
    requires F.ValidTxn(t) && t.Buy? && t.fees == 0.0 && l == F.Lot(t.quantity, t.price, t.day)
    ensures F.ValidLedger([t]) && F.Replay([t]) == Some(F.Register([l], 0.0))
  {
    F.Snoc([], t);
    assert t.price + t.fees / t.quantity == t.price;
    assert [] + [t] == [t] && [] + [l] == [l];
  }

  lemma BothBought(older: F.Txn, buy: F.Txn, k: F.Lot, l: F.Lot)
    requires F.ValidTxn(older) && older.Buy? && older.fees == 0.0 && k == F.Lot(older.quantity, older.price, older.day)
    requires F.ValidTxn(buy) && buy.Buy? && buy.fees == 0.0 && l == F.Lot(buy.quantity, buy.price, buy.day)
    ensures F.ValidLedger([older, buy]) && F.Replay([older, buy]) == Some(F.Register([k, l], 0.0))
  {
    FirstBuy(older, k);
    F.Snoc([older], buy);
    assert buy.price + buy.fees / buy.quantity == buy.price;
    assert [older] + [buy] == [older, buy] && [k] + [l] == [k, l];
  }

  /** The register of the two lots after the sell. */
  lemma OlderGoesFirst(k: F.Lot, l: F.Lot, sell: F.Txn)
    requires k == F.Lot(10.0, 40.0, 3) && l == F.Lot(10.0, 100.0, 5) && sell == F.Sell(10.0, 150.0, 0.0, 9)
    ensures F.Enter(F.Register([k, l], 0.0), sell) == Some(F.Register([l], 1100.0))
    ensures F.Units([l]) == 10.0 && F.Invested([l]) == 1000.0
  {
    assert [k] + [l] == [k, l] && [k, l][1..] == [l] && [l][1..] == [];
    assert [k][1..] == [];
    F.UnitsConcat([k], [l]);
    F.SellEnters(F.Register([k, l], 0.0), sell);
    ConsumedWhole(k, [l], 150.0);
  }

  lemma SoldOlder(older: F.Txn, buy: F.Txn, sell: F.Txn)
    requires older == F.Buy(10.0, 40.0, 0.0, 3)
    requires buy == F.Buy(10.0, 100.0, 0.0, 5) && sell == F.Sell(10.0, 150.0, 0.0, 9)
    ensures F.ValidLedger([older, buy, sell])
    ensures F.Replay([older, buy, sell]) == Some(F.Register([F.Lot(10.0, 100.0, 5)], 1100.0))
    ensures F.Units([F.Lot(10.0, 100.0, 5)]) == 10.0 && F.Invested([F.Lot(10.0, 100.0, 5)]) == 1000.0
  {
    BothBought(older, buy, F.Lot(10.0, 40.0, 3), F.Lot(10.0, 100.0, 5));
    OlderGoesFirst(F.Lot(10.0, 40.0, 3), F.Lot(10.0, 100.0, 5), sell);
    F.Snoc([older, buy], sell);
    assert [older, buy] + [sell] == [older, buy, sell];
  }

  const BONUS_ROW := BrokerHolding(1, 10, "INFY", None, Some(2), 10.0, 40.0, None, 7 * MS_PER_DAY)
  const BONUS_HOLDING := ManualHolding(0, 1, 21, 2, None, "INFY", 20.0, 50.0, 1000.0, 0.0)
  const BONUS_STORE :=
    Store(map[10 := Conn(1, "kite", "D1", false, false, 7, Disclaimer("v1", 0), None)],
          map[20 := Account(1, "kite", "Kite", Some(10), LinkedStale), 21 := Account(1, "kite", "Main", None, Manual)],
          [BONUS_ROW], [BONUS_HOLDING], map[])
  const BONUS_LEDGER := [F.Buy(10.0, 100.0, 0.0, 5), F.Corporate(2.0, 9)]

  function BonusBook(): Book { Book(i => if i == 2 then BONUS_LEDGER else [], i => "INFY", i => None, i => i) }

  /** The destination bought ten and has since recorded a one-for-one bonus; a row of ten was synced in between. The
      user reads thirty units before the rescue and forty after it. */
  lemma UnitsCanGrow()
    ensures var s, rows := BONUS_STORE, [BONUS_ROW];
            && Integrity(s) && RowsOf(s, 20, rows) && BookIsTrue(s, 21, BonusBook()) && MayRescue(s, 1, 20, 21, true)
            && !Unmultiplied(BonusBook(), rows, 2)
            && TotalIn(Quantity, Positions(s, 1, false), 2) == 30.0
            && TotalIn(Quantity, Positions(Rescue(s, 1, 20, 21, true, rows, BonusBook()).0, 1, false), 2) == 40.0
  {
    BonusStoreIsSound();
    BonusBookIsTrue();
    BonusComesLater();
    ReadBefore(BONUS_STORE, BONUS_HOLDING, BONUS_ROW);
    RescueConservesUnits(BONUS_STORE, 1, 20, 21, true, [BONUS_ROW], BonusBook(), 1, false, 2);
  }

  lemma BonusStoreIsSound()
    ensures Integrity(BONUS_STORE) && RowsOf(BONUS_STORE, 20, [BONUS_ROW]) && MayRescue(BONUS_STORE, 1, 20, 21, true)
    ensures Bound(BONUS_STORE, 10)
  {
    assert BoundTo(BONUS_STORE, 20, 10);
    assert [BONUS_ROW][..0] == [] && [] + [BONUS_ROW] == [BONUS_ROW];
    assert RowsUnder([BONUS_ROW], 10) == [BONUS_ROW];
    assert BONUS_ROW in BONUS_STORE.holdings;
  }

  lemma BonusBookIsTrue()
    ensures BookIsTrue(BONUS_STORE, 21, BonusBook())
  {
    var buy, bonus := F.Buy(10.0, 100.0, 0.0, 5), F.Corporate(2.0, 9);
    var l, m := F.Lot(10.0, 100.0, 5), F.Lot(20.0, 50.0, 5);
    FirstBuy(buy, l);
    F.Snoc([buy], bonus);
    assert [buy] + [bonus] == BONUS_LEDGER && [l][1..] == [] && [m][1..] == [];
    assert F.ScaledLot(l, 2.0) == m && F.Scale([l], 2.0) == [m];
    assert F.Replay(BONUS_LEDGER) == Some(F.Register([m], 0.0));
    assert F.Units([m]) == 20.0 && F.Invested([m]) == 1000.0;
    assert [BONUS_HOLDING][..0] == [];
    EmptyLedgerHoldsNothing();
  }

  lemma BonusComesLater()
    ensures !Unmultiplied(BonusBook(), [BONUS_ROW], 2)
    ensures Arrived(BonusBook(), [BONUS_ROW], 2) == 20.0 && RowTotal(Quantity, [BONUS_ROW], 2) == 10.0
  {
    var buy := F.Buy(10.0, 100.0, 0.0, 5);
    assert BONUS_LEDGER[..1] == [buy] && [BONUS_ROW][..0] == [];
    assert F.LaterFactor([buy], 7) == 1.0 && F.LaterFactor(BONUS_LEDGER, 7) == 2.0;
    assert F.Grown([buy], 10.0, 7) == 10.0 && F.Grown(BONUS_LEDGER, 10.0, 7) == 20.0;
    assert BONUS_ROW in [BONUS_ROW] && DayOf(BONUS_ROW) == 7;
  }

  lemma ReadBefore(s: Store, h: ManualHolding, b: BrokerHolding)
    requires s.manual == [h] && s.holdings == [b] && b.conn in s.conns && Bound(s, b.conn)
    requires h.user == b.user && b.instrument == Some(h.instrument) && b.quantity > 0.0 && h.quantity > 0.0
    ensures TotalIn(Quantity, Positions(s, h.user, false), h.instrument) == h.quantity + b.quantity
  {
    var ours, theirs := ManualPart(s, [h], h.user, false), BrokerPart(s, [b], h.user, false);
    assert [h][..0] == [] && [b][..0] == [];
    TotalConcat(Quantity, ours, theirs, h.instrument);
    ManualTotalIsRead(Quantity, s, [h], h.user, false, h.instrument);
    PartSnoc(s, [], b, h.user, false);
    assert [] + [b] == [b] && [] + LineOf(s, b, h.user, false) == LineOf(s, b, h.user, false);
    LineIsRead(Quantity, s, b, h.user, false, h.instrument);
  }

  // ---------- the endpoint ----------

  /** One transaction: a synthetic buy and a replay a row, then the connection (its rows cascade) and the
      account. */
  method RescueLinkedAccount(store: BrokerStore, u: UserId, from: AccountId, to: AccountId, confirm: bool,
                             rows: seq<BrokerHolding>, book: Book) returns (reply: Reply)
    requires Integrity(store.State()) && RowsOf(store.State(), from, rows) && BookIsTrue(store.State(), to, book)
    modifies store
    ensures (store.State(), reply) == Rescue(old(store.State()), u, from, to, confirm, rows, book)
    ensures Integrity(store.State())
    ensures reply.Changed? ==>
              forall h :: h in store.manual && h.account == to ==>
                F.Averages(h.quantity, h.avgCost, h.invested)
  {
    ghost var before := store.State();
    RescueKeepsIntegrity(before, u, from, to, confirm, rows, book);
    RescuedAverages(before, u, from, to, confirm, rows, book);
    var refused := WhyRefused(store, u, from, to, confirm, rows, book);
    if refused.Some? { return Refused(refused.value); }
    var c := store.accounts[from].conn.value;
    RowsAreTheConnections(before, from, rows);
    WriteLots(store, u, to, rows, book, before);
    DestroyLinked(store, from, c);
    return Changed(to);
  }

  /** The guards, in their order. */
  method WhyRefused(store: BrokerStore, u: UserId, from: AccountId, to: AccountId, confirm: bool,
                    rows: seq<BrokerHolding>, ghost book: Book) returns (code: Option<Code>)
    ensures code.Some? ==>
              Rescue(store.State(), u, from, to, confirm, rows, book) == (store.State(), Refused(code.value))
    ensures code.None? ==>
              && from in store.accounts && store.accounts[from].conn.Some? && Expressible(rows)
              && Rescue(store.State(), u, from, to, confirm, rows, book)
                 == (MoveOut(store.State(), u, from, to, store.accounts[from].conn.value, rows, book), Changed(to))
  {
    if from == to { return Some(SameAccount); }
    if from !in store.accounts || store.accounts[from].user != u { return Some(NotFound); }
    if to !in store.accounts || store.accounts[to].user != u { return Some(NotFound); }
    var source, destination := store.accounts[from], store.accounts[to];
    if source.state == Manual || source.conn.None? { return Some(NotLinked); }
    if destination.state != Manual { return Some(DestinationLinked); }
    if source.broker != destination.broker { return Some(BrokerMismatch); }
    if |rows| == 0 { return Some(NothingToRescue); }
    if exists i :: 0 <= i < |rows| && rows[i].instrument.None? { return Some(Unrescuable); }
    if !confirm { return Some(ConfirmationRequired); }
    return None;
  }

  method WriteLots(store: BrokerStore, u: UserId, to: AccountId, rows: seq<BrokerHolding>, book: Book,
                   ghost before: Store)
    requires store.State() == before && BookIsTrue(before, to, book) && OwnedRows(rows) && Expressible(rows)
    modifies store`manual
    ensures store.manual == RescueInto(before.manual, book, u, to, rows)
  {
    for k := 0 to |rows|
      invariant store.manual == RescueInto(before.manual, book, u, to, rows[..k])
    {
      var i := rows[k].instrument.value;
      assert rows[..k + 1][..k] == rows[..k];
      forall b | b in rows[..k + 1] ensures b.quantity > 0.0 { assert b in rows; }
      var ledger := LedgerOf(book, rows[..k + 1], i);
      LedgersReplay(book, rows[..k + 1], i);
      var ok, lots, realized := F.ReplayFifo(ledger);
      assert ok;
      var there := FindManual(store.manual, to, i);
      var position := F.Materialize(F.Register(lots, realized));
      store.manual := PutManual(store.manual, Materialized(there, book, u, to, i, position));
    }
    assert rows[..|rows|] == rows;
  }

  method DestroyLinked(store: BrokerStore, from: AccountId, c: ConnId)
    modifies store
    ensures store.State() == old(store.State()).(
              manual := WithoutAccount(old(store.manual), from),
              conns := old(store.conns) - {c},
              holdings := Without(old(store.holdings), c),
              accounts := map a | a in old(store.accounts) && a != from ::
                if old(store.accounts)[a].conn == Some(c) then old(store.accounts)[a].(conn := None)
                else old(store.accounts)[a])
  {
    store.conns := store.conns - {c};
    store.CascadeHoldings(c);
    store.accounts := map a | a in store.accounts && a != from ::
      if store.accounts[a].conn == Some(c) then store.accounts[a].(conn := None) else store.accounts[a];
    store.manual := WithoutAccount(store.manual, from);
  }
}
