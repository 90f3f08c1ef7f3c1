/**
 The lot register of one (account, instrument) ledger (src/portfolio/fifo-engine.ts): buys queue lots, sells
 consume the oldest first, corporate actions scale the queue, and the position is what remains.

 A ledger is a sequence in trade-date order, entries of one day in the order they were made. Main results:
 the units held are the ledger's balance, what is invested less what was realized is its outlay, and the
 average cost is over every lot held; a sell empties the oldest lots first; one more buy never makes a sell
 fail, and adds its quantity times the corporate actions that came after its day.
 */
module FifoLedger {
  import opened Wrappers

  type Day = nat

  /** `factor` is what a split or bonus ratio a:b multiplies a quantity by, (a + b) / b. */
  datatype Txn =
    | Buy(quantity: real, price: real, fees: real, day: Day)
    | Sell(quantity: real, price: real, fees: real, day: Day)
    | Corporate(factor: real, day: Day)
    | Dividend(day: Day)

  datatype Lot = Lot(quantity: real, cost: real, bought: Day)

  datatype Register = Register(lots: seq<Lot>, realized: real)

  datatype Position = Position(quantity: real, avgCost: real, invested: real, realized: real)

  predicate ValidTxn(t: Txn) {
    match t
    case Buy(quantity, _, _, _) => quantity > 0.0
    case Sell(quantity, _, _, _) => quantity > 0.0
    case Corporate(factor, _) => factor >= 1.0
    case Dividend(_) => true
  }

  predicate ValidLedger(ledger: seq<Txn>) {
    forall i :: 0 <= i < |ledger| ==> ValidTxn(ledger[i])
  }

  // ---------- the register, by definition ----------

  function Units(lots: seq<Lot>): real {
    if lots == [] then 0.0 else lots[0].quantity + Units(lots[1..])
  }

  function Invested(lots: seq<Lot>): real {
    if lots == [] then 0.0 else lots[0].quantity * lots[0].cost + Invested(lots[1..])
  }

  predicate PositiveLots(lots: seq<Lot>) {
    forall i :: 0 <= i < |lots| ==> lots[i].quantity > 0.0
  }

  function Gain(price: real, lot: Lot, quantity: real): real { (price - lot.cost) * quantity }

  /** Sell `quantity` at `price` from the front of the queue; the gain is matched lot by lot. */
  function Consume(lots: seq<Lot>, quantity: real, price: real): Register {
    if lots == [] || quantity <= 0.0 then Register(lots, 0.0)
    else if lots[0].quantity <= quantity then
      var rest := Consume(lots[1..], quantity - lots[0].quantity, price);
      rest.(realized := Gain(price, lots[0], lots[0].quantity) + rest.realized)
    else
      Register([lots[0].(quantity := lots[0].quantity - quantity)] + lots[1..], Gain(price, lots[0], quantity))
  }

  /** The lot a buy queues: its fees are spread over its units. */
  function Bought(t: Txn): Lot
    requires ValidTxn(t) && t.Buy?
  {
    Lot(t.quantity, t.price + t.fees / t.quantity, t.day)
  }

  function Scale(lots: seq<Lot>, factor: real): seq<Lot>
    requires factor >= 1.0
  {
    if lots == [] then []
    else [ScaledLot(lots[0], factor)] + Scale(lots[1..], factor)
  }

  /** One entry; None is an oversell. */
  function Enter(r: Register, t: Txn): Option<Register>
    requires ValidTxn(t)
  {
    match t
    case Buy(_, _, _, _) => Some(r.(lots := r.lots + [Bought(t)]))
    case Sell(quantity, price, fees, _) =>
      if quantity > Units(r.lots) then None
      else
        var sold := Consume(r.lots, quantity, price);
        Some(Register(sold.lots, r.realized + sold.realized - fees))
    case Corporate(factor, _) => Some(r.(lots := Scale(r.lots, factor)))
    case Dividend(_) => Some(r)
  }

  function Replay(ledger: seq<Txn>): Option<Register>
    requires ValidLedger(ledger)
  {
    if ledger == [] then Some(Register([], 0.0))
    else
      var before := Replay(ledger[..|ledger| - 1]);
      if before.None? then None else Enter(before.value, ledger[|ledger| - 1])
  }

  function Materialize(r: Register): Position {
    var units, invested := Units(r.lots), Invested(r.lots);
    Position(units, if units > 0.0 then invested / units else 0.0, invested, r.realized)
  }

  // ---------- the loop ----------

  method ConsumeOldest(lots0: seq<Lot>, quantity: real, price: real) returns (lots: seq<Lot>, realized: real)
    requires PositiveLots(lots0) && 0.0 < quantity <= Units(lots0)
    ensures Register(lots, realized) == Consume(lots0, quantity, price)
  {
    lots, realized := lots0, 0.0;
    var remaining := quantity;
    while remaining > 0.0
      invariant PositiveLots(lots) && 0.0 <= remaining <= Units(lots)
      invariant Ahead(realized, Consume(lots, remaining, price)) == Consume(lots0, quantity, price)
      decreases |lots|, if remaining > 0.0 then 1 else 0
    {
      var lot := lots[0];
      ConsumeFirst(lots, remaining, price);
      if lot.quantity <= remaining {
        realized := realized + Gain(price, lot, lot.quantity);
        lots, remaining := lots[1..], remaining - lot.quantity;
      } else {
        realized := realized + Gain(price, lot, remaining);
        lots, remaining := [lot.(quantity := lot.quantity - remaining)] + lots[1..], 0.0;
      }
    }
  }

  lemma ConsumeFirst(lots: seq<Lot>, quantity: real, price: real)
    requires lots != [] && quantity > 0.0
    ensures lots[0].quantity <= quantity ==>
              Consume(lots, quantity, price)
              == Ahead(Gain(price, lots[0], lots[0].quantity), Consume(lots[1..], quantity - lots[0].quantity, price))
    ensures lots[0].quantity > quantity ==>
              Consume(lots, quantity, price)
              == Ahead(Gain(price, lots[0], quantity),
                       Register([lots[0].(quantity := lots[0].quantity - quantity)] + lots[1..], 0.0))
  {
  }

  /** A register whose gains come on top of earlier ones. */
  function Ahead(gained: real, r: Register): Register { r.(realized := gained + r.realized) }

  function ScaledLot(l: Lot, factor: real): Lot
    requires factor >= 1.0
  {
    l.(quantity := l.quantity * factor, cost := l.cost / factor)
  }

  method ScaleLots(lots0: seq<Lot>, factor: real) returns (lots: seq<Lot>)
    requires factor >= 1.0
    ensures lots == Scale(lots0, factor)
  {
    lots := [];
    for i := 0 to |lots0|
      invariant |lots| == i && forall k :: 0 <= k < i ==> lots[k] == ScaledLot(lots0[k], factor)
    {
      lots := lots + [ScaledLot(lots0[i], factor)];
    }
    ScaleIsPointwise(lots0, factor);
  }

  lemma {:induction false} ScaleIsPointwise(lots: seq<Lot>, factor: real)
    requires factor >= 1.0
    ensures |Scale(lots, factor)| == |lots|
    ensures forall k :: 0 <= k < |lots| ==> Scale(lots, factor)[k] == ScaledLot(lots[k], factor)
  {
    if lots != [] { ScaleIsPointwise(lots[1..], factor); }
  }

  /** Replay a whole ledger; `ok` is false on an oversell. */
  method ReplayFifo(ledger: seq<Txn>) returns (ok: bool, lots: seq<Lot>, realized: real)
    requires ValidLedger(ledger)
    ensures Replay(ledger) == if ok then Some(Register(lots, realized)) else None
  {
    ok, lots, realized := true, [], 0.0;
    for i := 0 to |ledger|
      invariant Replay(ledger[..i]) == Some(Register(lots, realized))
      invariant PositiveLots(lots)
    {
      var t := ledger[i];
      assert ledger[..i + 1][..i] == ledger[..i] && ledger[i + 1..] == ledger[i..][1..];
      match t {
        case Buy(quantity, price, fees, day) => lots := lots + [Lot(quantity, price + fees / quantity, day)];
        case Sell(quantity, price, fees, _) =>
          if quantity > Units(lots) {
            OversellIsFinal(ledger, i + 1);
            return false, lots, realized;
          }
          var gained;
          ConsumedStaysPositive(lots, quantity, price);
          lots, gained := ConsumeOldest(lots, quantity, price);
          realized := realized + gained - fees;
        case Corporate(factor, _) =>
          ScaledStaysPositive(lots, factor);
          lots := ScaleLots(lots, factor);
        case Dividend(_) =>
      }
    }
    assert ledger[..|ledger|] == ledger;
  }

  lemma {:induction false} OversellIsFinal(ledger: seq<Txn>, i: nat)
    requires ValidLedger(ledger) && i <= |ledger| && Replay(ledger[..i]).None?
    ensures Replay(ledger).None?
  {
    if i < |ledger| {
      assert ledger[..|ledger| - 1][..i] == ledger[..i];
      OversellIsFinal(ledger[..|ledger| - 1], i);
    } else {
      assert ledger[..i] == ledger;
    }
  }

  lemma {:induction false} ConsumedStaysPositive(lots: seq<Lot>, quantity: real, price: real)
    requires PositiveLots(lots)
    ensures PositiveLots(Consume(lots, quantity, price).lots)
    ensures 0.0 <= quantity <= Units(lots) ==> Units(Consume(lots, quantity, price).lots) == Units(lots) - quantity
  {
    if lots != [] && quantity > 0.0 && lots[0].quantity <= quantity {
      ConsumedStaysPositive(lots[1..], quantity - lots[0].quantity, price);
    } else if lots != [] && quantity > 0.0 {
      var kept := Consume(lots, quantity, price).lots;
      assert kept[1..] == lots[1..];
    }
  }

  lemma {:induction false} ScaledStaysPositive(lots: seq<Lot>, factor: real)
    requires factor >= 1.0 && PositiveLots(lots)
    ensures PositiveLots(Scale(lots, factor))
  {
    ScaleIsPointwise(lots, factor);
    forall k | 0 <= k < |lots| ensures Scale(lots, factor)[k].quantity > 0.0 {
      RaisedAtLeast(lots[k].quantity, factor);
    }
  }

  /** A split multiplies what is held and leaves what was invested. */
  lemma {:induction false} ScaledUnits(lots: seq<Lot>, factor: real)
    requires factor >= 1.0
    ensures Units(Scale(lots, factor)) == Units(lots) * factor
    ensures Invested(Scale(lots, factor)) == Invested(lots)
  {
    if lots != [] {
      ScaledUnits(lots[1..], factor);
      ScaledCost(lots[0].quantity, lots[0].cost, factor);
      Distribute(lots[0].quantity, Units(lots[1..]), factor);
      assert Scale(lots, factor)[1..] == Scale(lots[1..], factor);
    }
  }

  lemma ScaledCost(quantity: real, cost: real, factor: real)
    requires factor >= 1.0
    ensures (quantity * factor) * (cost / factor) == quantity * cost
  {
    var c := cost / factor;
    assert c * factor == cost;
    Associate(quantity, factor, c);
    assert factor * c == cost;
  }

  lemma Associate(a: real, b: real, c: real)
    ensures (a * b) * c == a * (b * c)
  {
  }

  lemma Distribute(a: real, b: real, c: real)
    ensures (a + b) * c == a * c + b * c
  {
  }

  lemma RaisedAtLeast(q: real, f: real)
    requires q > 0.0 && f >= 1.0
    ensures q * f >= q
  {
  }

  // ---------- units are the balance ----------

  function Count(before: real, t: Txn): real {
    match t
    case Buy(quantity, _, _, _) => before + quantity
    case Sell(quantity, _, _, _) => before - quantity
    case Corporate(factor, _) => before * factor
    case Dividend(_) => before
  }

  /** What is held, counted without lots. */
  function Balance(ledger: seq<Txn>): real {
    if ledger == [] then 0.0 else Count(Balance(ledger[..|ledger| - 1]), ledger[|ledger| - 1])
  }

  lemma {:induction false} UnitsAppend(lots: seq<Lot>, l: Lot)
    ensures Units(lots + [l]) == Units(lots) + l.quantity
  {
    if lots == [] {
      assert (lots + [l])[1..] == [];
    } else {
      UnitsAppend(lots[1..], l);
      assert (lots + [l])[1..] == lots[1..] + [l];
    }
  }

  lemma EnterCounts(r: Register, t: Txn)
    requires ValidTxn(t) && PositiveLots(r.lots) && Enter(r, t).Some?
    ensures PositiveLots(Enter(r, t).value.lots)
    ensures Units(Enter(r, t).value.lots) == Count(Units(r.lots), t)
  {
    match t {
      case Buy(_, _, _, _) => UnitsAppend(r.lots, Bought(t));
      case Sell(quantity, price, _, _) => ConsumedStaysPositive(r.lots, quantity, price);
      case Corporate(factor, _) =>
        ScaledStaysPositive(r.lots, factor);
        ScaledUnits(r.lots, factor);
      case Dividend(_) =>
    }
  }

  /** First in, first out changes which lots remain and what was realized, never how much is held. */
  lemma {:induction false} UnitsAreBalance(ledger: seq<Txn>)
    requires ValidLedger(ledger) && Replay(ledger).Some?
    ensures PositiveLots(Replay(ledger).value.lots) && Units(Replay(ledger).value.lots) == Balance(ledger)
  {
    if ledger != [] {
      UnitsAreBalance(ledger[..|ledger| - 1]);
      EnterCounts(Replay(ledger[..|ledger| - 1]).value, ledger[|ledger| - 1]);
    }
  }

  // ---------- one more buy ----------

  /** The ledger with `t` entered now: behind everything of its day and before. */
  function Enlisted(ledger: seq<Txn>, t: Txn): seq<Txn> {
    if ledger == [] || ledger[|ledger| - 1].day <= t.day then ledger + [t]
    else Enlisted(ledger[..|ledger| - 1], t) + [ledger[|ledger| - 1]]
  }

  ghost predicate InDayOrder(ledger: seq<Txn>) {
    forall i, j :: 0 <= i < j < |ledger| ==> ledger[i].day <= ledger[j].day
  }

  lemma {:induction false} EnlistedAt(ledger: seq<Txn>, t: Txn) returns (k: nat)
    ensures k <= |ledger| && Enlisted(ledger, t) == ledger[..k] + [t] + ledger[k..]
    ensures k > 0 ==> ledger[k - 1].day <= t.day
    ensures forall i :: k <= i < |ledger| ==> ledger[i].day > t.day
  {
    if ledger == [] || ledger[|ledger| - 1].day <= t.day {
      k := |ledger|;
    } else {
      k := EnlistedAt(ledger[..|ledger| - 1], t);
      Respliced(ledger, t, k);
    }
  }

  lemma Respliced(ledger: seq<Txn>, t: Txn, k: nat)
    requires k < |ledger|
    ensures var n := |ledger| - 1;
            ledger[..n][..k] + [t] + ledger[..n][k..] + [ledger[n]] == ledger[..k] + [t] + ledger[k..]
  {
    assert ledger[..|ledger| - 1][..k] == ledger[..k];
  }

  lemma SplicedInOrder(ledger: seq<Txn>, t: Txn, k: nat)
    requires InDayOrder(ledger) && k <= |ledger|
    requires (k > 0 ==> ledger[k - 1].day <= t.day) && forall i :: k <= i < |ledger| ==> ledger[i].day > t.day
    ensures InDayOrder(ledger[..k] + [t] + ledger[k..])
  {
  }

  /** Which is where the order by day and moment of entry puts it: behind all of its day or before, ahead of all
      that is later. */
  lemma EnlistedInOrder(ledger: seq<Txn>, t: Txn) returns (k: nat)
    requires InDayOrder(ledger)
    ensures k <= |ledger| && Enlisted(ledger, t) == ledger[..k] + [t] + ledger[k..]
    ensures forall i :: 0 <= i < |ledger| ==> (i < k <==> ledger[i].day <= t.day)
    ensures InDayOrder(Enlisted(ledger, t))
  {
    k := EnlistedAt(ledger, t);
    SplicedInOrder(ledger, t, k);
  }

  /** By how much the corporate actions after a day multiply what was held on it. */
  function LaterFactor(ledger: seq<Txn>, day: Day): real {
    if ledger == [] || ledger[|ledger| - 1].day <= day then 1.0
    else
      var before := LaterFactor(ledger[..|ledger| - 1], day);
      match ledger[|ledger| - 1]
      case Corporate(factor, _) => before * factor
      case _ => before
  }

  lemma {:induction false} EnlistedIsValid(ledger: seq<Txn>, t: Txn)
    requires ValidLedger(ledger) && ValidTxn(t)
    ensures ValidLedger(Enlisted(ledger, t))
  {
    if ledger != [] && ledger[|ledger| - 1].day > t.day { EnlistedIsValid(ledger[..|ledger| - 1], t); }
  }

  lemma Snoc(ledger: seq<Txn>, t: Txn)
    requires ValidLedger(ledger) && ValidTxn(t)
    ensures ValidLedger(ledger + [t])
    ensures Replay(ledger + [t]) == if Replay(ledger).None? then None else Enter(Replay(ledger).value, t)
    ensures Balance(ledger + [t]) == Count(Balance(ledger), t)
  {
    assert (ledger + [t])[..|ledger|] == ledger;
  }

  function Later(factor: real, t: Txn): real { if t.Corporate? then factor * t.factor else factor }

  /** What one more entry makes of an amount on top. */
  function Raised(raise: real, t: Txn): real { if t.Corporate? then raise * t.factor else raise }

  lemma CountRaised(balance: real, raise: real, t: Txn)
    ensures Count(balance + raise, t) == Count(balance, t) + Raised(raise, t)
  {
    if t.Corporate? { Distribute(balance, raise, t.factor); }
  }

  lemma RaisedLater(quantity: real, factor: real, t: Txn)
    ensures Raised(quantity * factor, t) == quantity * Later(factor, t)
  {
    if t.Corporate? { Associate(quantity, factor, t.factor); }
  }

  /** A ledger whose sells are all within what was held when they were made. */
  predicate Covered(ledger: seq<Txn>) {
    ledger == []
    || (Covered(ledger[..|ledger| - 1])
        && (ledger[|ledger| - 1].Sell? ==> ledger[|ledger| - 1].quantity <= Balance(ledger[..|ledger| - 1])))
  }

  lemma {:induction false} ReplaysIffCovered(ledger: seq<Txn>)
    requires ValidLedger(ledger)
    ensures Replay(ledger).Some? <==> Covered(ledger)
  {
    if ledger != [] {
      ReplaysIffCovered(ledger[..|ledger| - 1]);
      if Covered(ledger[..|ledger| - 1]) { UnitsAreBalance(ledger[..|ledger| - 1]); }
    }
  }

  /** What a buy of `quantity` on `day` has become by the end of the ledger. */
  function Grown(ledger: seq<Txn>, quantity: real, day: Day): real {
    if ledger == [] || ledger[|ledger| - 1].day <= day then quantity
    else Raised(Grown(ledger[..|ledger| - 1], quantity, day), ledger[|ledger| - 1])
  }

  lemma {:induction false} GrownByLaterFactor(ledger: seq<Txn>, quantity: real, day: Day)
    ensures Grown(ledger, quantity, day) == quantity * LaterFactor(ledger, day)
  {
    if ledger != [] && ledger[|ledger| - 1].day > day {
      GrownByLaterFactor(ledger[..|ledger| - 1], quantity, day);
      RaisedLater(quantity, LaterFactor(ledger[..|ledger| - 1], day), ledger[|ledger| - 1]);
    }
  }

  lemma {:induction false} GrownAtLeast(ledger: seq<Txn>, quantity: real, day: Day)
    requires ValidLedger(ledger) && quantity > 0.0
    ensures Grown(ledger, quantity, day) >= quantity
  {
    if ledger != [] && ledger[|ledger| - 1].day > day {
      var before := Grown(ledger[..|ledger| - 1], quantity, day);
      GrownAtLeast(ledger[..|ledger| - 1], quantity, day);
      if ledger[|ledger| - 1].Corporate? { RaisedAtLeast(before, ledger[|ledger| - 1].factor); }
    }
  }

  lemma CoveredMore(less: seq<Txn>, more: seq<Txn>, e: Txn, raise: real)
    requires Covered(more) && Balance(more) == Balance(less) + raise && raise >= 0.0
    requires e.Sell? ==> e.quantity <= Balance(less)
    ensures Covered(more + [e]) && Balance(more + [e]) == Count(Balance(less), e) + Raised(raise, e)
  {
    assert (more + [e])[..|more|] == more;
    CountRaised(Balance(less), raise, e);
  }

  lemma {:induction false} BuyRaisesCover(ledger: seq<Txn>, t: Txn)
    requires ValidLedger(ledger) && ValidTxn(t) && t.Buy? && Covered(ledger)
    ensures Covered(Enlisted(ledger, t))
    ensures Balance(Enlisted(ledger, t)) == Balance(ledger) + Grown(ledger, t.quantity, t.day)
  {
    if ledger == [] || ledger[|ledger| - 1].day <= t.day {
      assert (ledger + [t])[..|ledger|] == ledger;
    } else {
      var front, e := ledger[..|ledger| - 1], ledger[|ledger| - 1];
      BuyRaisesCover(front, t);
      GrownAtLeast(front, t.quantity, t.day);
      CoveredMore(front, Enlisted(front, t), e, Grown(front, t.quantity, t.day));
    }
  }

  /**
   ONE MORE BUY. Entering a buy into a ledger that replays never makes a later sell fail, and it raises what is
   held by what the buy has grown to since its day (its quantity times the corporate actions recorded after
   it, by `GrownByLaterFactor`), however the past sells are re-matched.
   */
  lemma BuyRaisesBalance(ledger: seq<Txn>, t: Txn)
    requires ValidLedger(ledger) && ValidTxn(t) && t.Buy? && Replay(ledger).Some?
    ensures ValidLedger(Enlisted(ledger, t)) && Replay(Enlisted(ledger, t)).Some?
    ensures Units(Replay(Enlisted(ledger, t)).value.lots)
            == Units(Replay(ledger).value.lots) + Grown(ledger, t.quantity, t.day)
  {
    EnlistedIsValid(ledger, t);
    ReplaysIffCovered(ledger);
    ReplaysIffCovered(Enlisted(ledger, t));
    BuyRaisesCover(ledger, t);
    UnitsAreBalance(ledger);
    UnitsAreBalance(Enlisted(ledger, t));
  }

  // ---------- cost, however the sells are matched ----------

  /** What an entry costs: a buy its price and fees, a sell less than nothing by what it brings in. */
  function Paid(t: Txn): real
    requires ValidTxn(t)
  {
    match t
    case Buy(quantity, price, fees, _) => quantity * price + fees
    case Sell(quantity, price, fees, _) => fees - quantity * price
    case Corporate(_, _) => 0.0
    case Dividend(_) => 0.0
  }

  /** What a ledger has cost: everything spent on buys less everything its sells took, read off the entries. */
  function Outlay(ledger: seq<Txn>): real
    requires ValidLedger(ledger)
  {
    if ledger == [] then 0.0 else Outlay(ledger[..|ledger| - 1]) + Paid(ledger[|ledger| - 1])
  }

  /** A lot carries its buy's fees: over all its units it costs what was paid. */
  lemma LotCostsWhatWasPaid(t: Txn)
    requires ValidTxn(t) && t.Buy?
    ensures Bought(t).quantity * Bought(t).cost == Paid(t)
  {
    Distribute(t.price, t.fees / t.quantity, t.quantity);
    assert t.quantity * (t.fees / t.quantity) == t.fees;
  }

  lemma {:induction false} InvestedAppend(lots: seq<Lot>, l: Lot)
    ensures Invested(lots + [l]) == Invested(lots) + l.quantity * l.cost
  {
    if lots == [] {
      assert (lots + [l])[1..] == [];
    } else {
      InvestedAppend(lots[1..], l);
      assert (lots + [l])[1..] == lots[1..] + [l];
    }
  }

  /** The cost of the units a sell takes from the front of the queue. */
  function CostTaken(lots: seq<Lot>, quantity: real): real {
    if lots == [] || quantity <= 0.0 then 0.0
    else if lots[0].quantity <= quantity then
      lots[0].quantity * lots[0].cost + CostTaken(lots[1..], quantity - lots[0].quantity)
    else quantity * lots[0].cost
  }

  lemma {:induction false} ConsumedLeavesItsCost(lots: seq<Lot>, quantity: real, price: real)
    ensures Invested(Consume(lots, quantity, price).lots) == Invested(lots) - CostTaken(lots, quantity)
  {
    if lots != [] && quantity > 0.0 {
      if lots[0].quantity <= quantity {
        ConsumedLeavesItsCost(lots[1..], quantity - lots[0].quantity, price);
      } else {
        var left := lots[0].(quantity := lots[0].quantity - quantity);
        assert ([left] + lots[1..])[1..] == lots[1..];
        Distribute(left.quantity, quantity, lots[0].cost);
      }
    }
  }

  lemma GainIs(price: real, l: Lot, quantity: real)
    ensures Gain(price, l, quantity) == quantity * price - quantity * l.cost
  {
    Distribute(price - l.cost, l.cost, quantity);
  }

  lemma GainOfWholeLot(price: real, l: Lot, quantity: real, rest: real, cost: real)
    requires rest == (quantity - l.quantity) * price - cost
    ensures Gain(price, l, l.quantity) + rest == quantity * price - (l.quantity * l.cost + cost)
  {
    GainIs(price, l, l.quantity);
    Distribute(quantity - l.quantity, l.quantity, price);
  }

  predicate GainsOverCost(lots: seq<Lot>, quantity: real, price: real) {
    Consume(lots, quantity, price).realized == quantity * price - CostTaken(lots, quantity)
  }

  lemma GainOnWholeLot(lots: seq<Lot>, quantity: real, price: real)
    requires lots != [] && 0.0 < quantity && lots[0].quantity <= quantity
    requires GainsOverCost(lots[1..], quantity - lots[0].quantity, price)
    ensures GainsOverCost(lots, quantity, price)
  {
    var l, rest := lots[0], quantity - lots[0].quantity;
    var behind := Consume(lots[1..], rest, price).realized;
    ConsumeFirst(lots, quantity, price);
    GainOfWholeLot(price, l, quantity, behind, CostTaken(lots[1..], rest));
    assert Consume(lots, quantity, price).realized == Gain(price, l, l.quantity) + behind;
    assert CostTaken(lots, quantity) == l.quantity * l.cost + CostTaken(lots[1..], rest);
  }

  lemma GainOnPartOfLot(lots: seq<Lot>, quantity: real, price: real)
    requires lots != [] && 0.0 < quantity < lots[0].quantity
    ensures GainsOverCost(lots, quantity, price)
  {
    ConsumeFirst(lots, quantity, price);
    GainIs(price, lots[0], quantity);
  }

  lemma {:induction false} GainIsProceedsLessCost(lots: seq<Lot>, quantity: real, price: real)
    requires PositiveLots(lots) && 0.0 <= quantity <= Units(lots)
    ensures GainsOverCost(lots, quantity, price)
  {
    if lots != [] && quantity > 0.0 {
      if lots[0].quantity <= quantity {
        GainIsProceedsLessCost(lots[1..], quantity - lots[0].quantity, price);
        GainOnWholeLot(lots, quantity, price);
      } else {
        GainOnPartOfLot(lots, quantity, price);
      }
    }
  }

  /** What is sold leaves the register at its cost, whichever lots it came from, and the gain makes up the rest. */
  lemma ConsumedAtCost(lots: seq<Lot>, quantity: real, price: real)
    requires PositiveLots(lots) && 0.0 <= quantity <= Units(lots)
    ensures var sold := Consume(lots, quantity, price);
            Invested(sold.lots) - sold.realized == Invested(lots) - quantity * price
  {
    ConsumedLeavesItsCost(lots, quantity, price);
    GainIsProceedsLessCost(lots, quantity, price);
  }

  lemma SellEnters(r: Register, t: Txn)
    requires ValidTxn(t) && t.Sell? && t.quantity <= Units(r.lots)
    ensures Enter(r, t) == Some(Sold(r.realized, Consume(r.lots, t.quantity, t.price), t.fees))
  {
  }

  function Sold(realized: real, sold: Register, fees: real): Register {
    Register(sold.lots, realized + sold.realized - fees)
  }

  lemma BuyCosts(r: Register, t: Txn)
    requires ValidTxn(t) && t.Buy?
    ensures Invested(Enter(r, t).value.lots) == Invested(r.lots) + Paid(t)
  {
    LotCostsWhatWasPaid(t);
    InvestedAppend(r.lots, Bought(t));
  }

  lemma SellCosts(r: Register, t: Txn)
    requires ValidTxn(t) && t.Sell? && PositiveLots(r.lots) && t.quantity <= Units(r.lots)
    ensures var after := Enter(r, t).value;
            Invested(after.lots) - after.realized == Invested(r.lots) - r.realized + Paid(t)
  {
    SellEnters(r, t);
    ConsumedAtCost(r.lots, t.quantity, t.price);
  }

  lemma EnterCosts(r: Register, t: Txn)
    requires ValidTxn(t) && PositiveLots(r.lots) && Enter(r, t).Some?
    ensures var after := Enter(r, t).value;
            Invested(after.lots) - after.realized == Invested(r.lots) - r.realized + Paid(t)
  {
    match t {
      case Buy(_, _, _, _) => BuyCosts(r, t);
      case Sell(_, _, _, _) => SellCosts(r, t);
      case Corporate(factor, _) => ScaledUnits(r.lots, factor);
      case Dividend(_) =>
    }
  }

  /** COST IS INDEPENDENT OF THE MATCHING. What is invested less what was realized is what the ledger has cost. */
  lemma {:induction false} InvestedLessRealizedIsOutlay(ledger: seq<Txn>)
    requires ValidLedger(ledger) && Replay(ledger).Some?
    ensures var r := Replay(ledger).value; Invested(r.lots) - r.realized == Outlay(ledger)
  {
    if ledger != [] {
      var front := ledger[..|ledger| - 1];
      InvestedLessRealizedIsOutlay(front);
      UnitsAreBalance(front);
      EnterCosts(Replay(front).value, ledger[|ledger| - 1]);
    }
  }

  lemma NothingLeft(lots: seq<Lot>)
    requires PositiveLots(lots) && Units(lots) <= 0.0
    ensures lots == []
  {
    if lots != [] { PositiveUnits(lots[1..]); }
  }

  lemma MeanTimesUnits(invested: real, units: real)
    requires units != 0.0
    ensures (invested / units) * units == invested
  {
  }

  /** The average times what is held is all that is invested; a position sold out has nothing invested, on average
      or at all. */
  predicate Averages(quantity: real, avgCost: real, invested: real) {
    avgCost * quantity == invested && (quantity == 0.0 ==> avgCost == 0.0 && invested == 0.0)
  }

  lemma RegisterAverages(r: Register)
    requires PositiveLots(r.lots)
    ensures var p := Materialize(r); p.quantity >= 0.0 && Averages(p.quantity, p.avgCost, p.invested)
  {
    PositiveUnits(r.lots);
    if Units(r.lots) > 0.0 { MeanTimesUnits(Invested(r.lots), Units(r.lots)); } else { NothingLeft(r.lots); }
  }

  /** What a position says of a ledger, however its sells were matched and whatever lots are left. */
  predicate Sums(ledger: seq<Txn>, quantity: real, avgCost: real, invested: real, realized: real)
    requires ValidLedger(ledger)
  {
    quantity == Balance(ledger) >= 0.0 && invested - realized == Outlay(ledger) && Averages(quantity, avgCost, invested)
  }

  /** THE POSITION, READ OFF THE ENTRIES: the balance, the outlay, and an average cost over every lot there is. */
  lemma PositionIsItsLedgers(ledger: seq<Txn>)
    requires ValidLedger(ledger) && Replay(ledger).Some?
    ensures var p := Materialize(Replay(ledger).value);
            Sums(ledger, p.quantity, p.avgCost, p.invested, p.realized) && p.realized == Replay(ledger).value.realized
  {
    UnitsAreBalance(ledger);
    InvestedLessRealizedIsOutlay(ledger);
    RegisterAverages(Replay(ledger).value);
  }

  lemma {:induction false} OutlayOnOneMore(ledger: seq<Txn>, t: Txn)
    requires ValidLedger(ledger) && ValidTxn(t)
    ensures ValidLedger(Enlisted(ledger, t)) && Outlay(Enlisted(ledger, t)) == Outlay(ledger) + Paid(t)
  {
    EnlistedIsValid(ledger, t);
    if ledger == [] || ledger[|ledger| - 1].day <= t.day {
      Snoc(ledger, t);
    } else {
      var front, e := ledger[..|ledger| - 1], ledger[|ledger| - 1];
      OutlayOnOneMore(front, t);
      Snoc(Enlisted(front, t), e);
    }
  }

  lemma {:induction false} UnsoldRealizesNothing(ledger: seq<Txn>)
    requires ValidLedger(ledger) && Replay(ledger).Some? && forall t :: t in ledger ==> !t.Sell?
    ensures Replay(ledger).value.realized == 0.0
  {
    if ledger != [] {
      assert ledger[|ledger| - 1] in ledger;
      UnsoldRealizesNothing(ledger[..|ledger| - 1]);
    }
  }

  // ---------- when the past sells keep their lots ----------

  /** The ledger without the buys entered behind a day: what later sells could be matched against by then. */
  function WithoutLaterBuys(ledger: seq<Txn>, day: Day): seq<Txn> {
    if ledger == [] || ledger[|ledger| - 1].day <= day then ledger
    else
      WithoutLaterBuys(ledger[..|ledger| - 1], day) + if ledger[|ledger| - 1].Buy? then [] else [ledger[|ledger| - 1]]
  }

  /** The lots held on a day are enough for every sell after it. */
  predicate SellsAreHeldBy(ledger: seq<Txn>, day: Day) { Covered(WithoutLaterBuys(ledger, day)) }

  lemma {:induction false} WithoutLaterBuysIsValid(ledger: seq<Txn>, day: Day)
    requires ValidLedger(ledger)
    ensures ValidLedger(WithoutLaterBuys(ledger, day))
  {
    if ledger != [] && ledger[|ledger| - 1].day > day { WithoutLaterBuysIsValid(ledger[..|ledger| - 1], day); }
  }

  lemma CoveredSnoc(ledger: seq<Txn>, t: Txn)
    ensures Covered(ledger + [t]) <==> Covered(ledger) && (t.Sell? ==> t.quantity <= Balance(ledger))
  {
    assert (ledger + [t])[..|ledger|] == ledger;
  }

  lemma {:induction false} NoLaterSells(ledger: seq<Txn>, day: Day)
    requires Covered(ledger) && forall t :: t in ledger && t.Sell? ==> t.day <= day
    ensures SellsAreHeldBy(ledger, day)
  {
    if ledger != [] && ledger[|ledger| - 1].day > day {
      var front, e := ledger[..|ledger| - 1], ledger[|ledger| - 1];
      assert e in ledger;
      NoLaterSells(front, day);
      CoveredSnoc(WithoutLaterBuys(front, day), e);
      assert WithoutLaterBuys(front, day) + [] == WithoutLaterBuys(front, day);
    }
  }

  /** One more buy leaves that so. */
  lemma {:induction false} BuyKeepsSellsHeld(ledger: seq<Txn>, t: Txn, day: Day)
    requires ValidLedger(ledger) && ValidTxn(t) && t.Buy? && SellsAreHeldBy(ledger, day)
    ensures SellsAreHeldBy(Enlisted(ledger, t), day)
  {
    EnlistedWithoutLaterBuys(ledger, t, day);
    if t.day <= day {
      WithoutLaterBuysIsValid(ledger, day);
      BuyRaisesCover(WithoutLaterBuys(ledger, day), t);
    }
  }

  lemma WithoutLaterBuysSnoc(ledger: seq<Txn>, t: Txn, day: Day)
    ensures t.day <= day ==> WithoutLaterBuys(ledger + [t], day) == ledger + [t]
    ensures t.day > day ==>
              WithoutLaterBuys(ledger + [t], day) == WithoutLaterBuys(ledger, day) + if t.Buy? then [] else [t]
  {
    assert (ledger + [t])[..|ledger|] == ledger;
  }

  lemma EnlistedSnoc(ledger: seq<Txn>, e: Txn, t: Txn)
    requires e.day > t.day
    ensures Enlisted(ledger + [e], t) == Enlisted(ledger, t) + [e]
  {
    assert (ledger + [e])[..|ledger|] == ledger;
  }

  lemma {:induction false} EnlistedWithoutLaterBuys(ledger: seq<Txn>, t: Txn, day: Day)
    requires t.Buy?
    ensures WithoutLaterBuys(Enlisted(ledger, t), day)
            == if t.day <= day then Enlisted(WithoutLaterBuys(ledger, day), t) else WithoutLaterBuys(ledger, day)
  {
    if ledger == [] || ledger[|ledger| - 1].day <= t.day {
      WithoutLaterBuysSnoc(ledger, t, day);
      assert WithoutLaterBuys(ledger, day) + [] == WithoutLaterBuys(ledger, day);
    } else {
      var front, e := ledger[..|ledger| - 1], ledger[|ledger| - 1];
      EnlistedWithoutLaterBuys(front, t, day);
      WithoutLaterBuysSnoc(Enlisted(front, t), e, day);
      var kept := WithoutLaterBuys(front, day);
      if e.day > day && !e.Buy? && t.day <= day {
        EnlistedSnoc(kept, e, t);
      } else {
        assert kept + [] == kept && Enlisted(kept, t) + [] == Enlisted(kept, t);
      }
    }
  }

  /** What a sell leaves when it ends in lot `k`: the rest of that lot, if any, and every newer one as it was. */
  ghost predicate LeavesFrom(lots: seq<Lot>, k: int, quantity: real, left: seq<Lot>) {
    && 0 <= k < |lots| && Units(lots[..k]) < quantity <= Units(lots[..k + 1])
    && var rest := Units(lots[..k + 1]) - quantity;
       left == (if rest == 0.0 then [] else [lots[k].(quantity := rest)]) + lots[k + 1..]
  }

  lemma UnitsOfPrefix(lots: seq<Lot>, k: nat)
    requires 0 < k <= |lots|
    ensures Units(lots[..k]) == lots[0].quantity + Units(lots[1..][..k - 1])
  {
    assert lots[..k][1..] == lots[1..][..k - 1];
  }

  /** THE OLDEST UNITS GO FIRST. */
  lemma {:induction false} OldestGoFirst(lots: seq<Lot>, quantity: real, price: real) returns (k: int)
    requires PositiveLots(lots) && 0.0 < quantity <= Units(lots)
    ensures LeavesFrom(lots, k, quantity, Consume(lots, quantity, price).lots)
  {
    assert lots[..1][1..] == [];
    if quantity <= lots[0].quantity {
      k := 0;
      assert Consume(lots[1..], 0.0, price).lots == lots[1..];
    } else {
      var rest := quantity - lots[0].quantity;
      var m := OldestGoFirst(lots[1..], rest, price);
      k := m + 1;
      UnitsOfPrefix(lots, k);
      UnitsOfPrefix(lots, k + 1);
      assert lots[1..][m + 1..] == lots[k + 1..];
    }
  }

  /** Sells within the older lots leave the lots behind them alone. */
  lemma {:induction false} ConsumedFromTheFront(lots: seq<Lot>, behind: seq<Lot>, quantity: real, price: real)
    requires PositiveLots(lots) && 0.0 <= quantity <= Units(lots)
    ensures Consume(lots + behind, quantity, price) == Behind(Consume(lots, quantity, price), behind)
  {
    if lots == [] {
      assert lots + behind == behind;
    } else if quantity > 0.0 {
      assert (lots + behind)[1..] == lots[1..] + behind;
      if lots[0].quantity <= quantity {
        ConsumedFromTheFront(lots[1..], behind, quantity - lots[0].quantity, price);
      } else {
        var left := lots[0].(quantity := lots[0].quantity - quantity);
        ConcatLots([left], lots[1..], behind);
      }
    }
  }

  lemma {:induction false} ScaleConcat(a: seq<Lot>, b: seq<Lot>, factor: real)
    requires factor >= 1.0
    ensures Scale(a + b, factor) == Scale(a, factor) + Scale(b, factor)
  {
    if a == [] {
      assert a + b == b;
    } else {
      ScaleConcat(a[1..], b, factor);
      assert (a + b)[1..] == a[1..] + b;
      ConcatLots([ScaledLot(a[0], factor)], Scale(a[1..], factor), Scale(b, factor));
    }
  }

  lemma ConcatLots(a: seq<Lot>, b: seq<Lot>, c: seq<Lot>)
    ensures (a + b) + c == a + (b + c)
  {
  }

  lemma {:induction false} UnitsConcat(a: seq<Lot>, b: seq<Lot>)
    ensures Units(a + b) == Units(a) + Units(b)
  {
    if a == [] {
      assert a + b == b;
    } else {
      UnitsConcat(a[1..], b);
      assert (a + b)[1..] == a[1..] + b;
    }
  }

  function Behind(r: Register, lots: seq<Lot>): Register { r.(lots := r.lots + lots) }

  /** A sell the older lots can serve is served by them, whatever is behind. */
  lemma SellFromTheFront(r: Register, behind: seq<Lot>, t: Txn)
    requires ValidTxn(t) && t.Sell? && PositiveLots(r.lots) && t.quantity <= Units(r.lots) && Units(behind) >= 0.0
    ensures Enter(r, t).Some? && Enter(Behind(r, behind), t) == Some(Behind(Enter(r, t).value, behind))
  {
    UnitsConcat(r.lots, behind);
    SellEnters(r, t);
    SellEnters(Behind(r, behind), t);
    ConsumedFromTheFront(r.lots, behind, t.quantity, t.price);
  }

  /** Two registers that differ by one lot, and by it alone, behind the lots of `older`. */
  ghost predicate ApartByOneLot(older: Register, less: Register, more: Register, l: Lot, newer: seq<Lot>) {
    && less == Behind(older.(realized := less.realized), newer)
    && more == Behind(older.(realized := less.realized), [l] + newer)
    && PositiveLots(older.lots) && PositiveLots([l] + newer)
  }

  function ScaledBehind(l: Lot, newer: seq<Lot>, t: Txn): (Lot, seq<Lot>)
    requires ValidTxn(t)
  {
    match t
    case Buy(_, _, _, _) => (l, newer + [Bought(t)])
    case Corporate(factor, _) => (ScaledLot(l, factor), Scale(newer, factor))
    case _ => (l, newer)
  }

  lemma ApartAfterBuy(older: Register, less: Register, more: Register, l: Lot, newer: seq<Lot>, t: Txn)
    requires ApartByOneLot(older, less, more, l, newer) && ValidTxn(t) && t.Buy?
    ensures ApartByOneLot(older, Enter(less, t).value, Enter(more, t).value, l, ScaledBehind(l, newer, t).1)
  {
    var bought := [Bought(t)];
    ConcatLots(older.lots, newer, bought);
    ConcatLots(older.lots, [l] + newer, bought);
    ConcatLots([l], newer, bought);
  }

  lemma ApartAfterSplit(older: Register, less: Register, more: Register, l: Lot, newer: seq<Lot>, t: Txn)
    requires ApartByOneLot(older, less, more, l, newer) && ValidTxn(t) && t.Corporate?
    ensures var (l', newer') := ScaledBehind(l, newer, t);
            ApartByOneLot(Enter(older, t).value, Enter(less, t).value, Enter(more, t).value, l', newer')
  {
    var (l', newer') := ScaledBehind(l, newer, t);
    ScaleConcat(older.lots, newer, t.factor);
    ScaleConcat(older.lots, [l] + newer, t.factor);
    assert ([l] + newer)[1..] == newer;
    ScaledStaysPositive(older.lots, t.factor);
    ScaledStaysPositive([l] + newer, t.factor);
  }

  lemma {:induction false} PositiveUnits(lots: seq<Lot>)
    requires PositiveLots(lots)
    ensures Units(lots) >= 0.0
  {
    if lots != [] { PositiveUnits(lots[1..]); }
  }

  lemma ApartAfterSell(older: Register, less: Register, more: Register, l: Lot, newer: seq<Lot>, t: Txn)
    requires ApartByOneLot(older, less, more, l, newer) && ValidTxn(t) && t.Sell? && t.quantity <= Units(older.lots)
    ensures Enter(older, t).Some? && Enter(less, t).Some? && Enter(more, t).Some?
    ensures ApartByOneLot(Enter(older, t).value, Enter(less, t).value, Enter(more, t).value, l, newer)
  {
    assert forall i :: 0 <= i < |newer| ==> newer[i] == ([l] + newer)[i + 1];
    PositiveUnits(newer);
    PositiveUnits([l] + newer);
    SellFromTheFront(older.(realized := less.realized), newer, t);
    SellFromTheFront(older.(realized := less.realized), [l] + newer, t);
    SellEnters(older, t);
    SellEnters(older.(realized := less.realized), t);
    ConsumedStaysPositive(older.lots, t.quantity, t.price);
  }

  lemma ApartAfter(older: Register, less: Register, more: Register, l: Lot, newer: seq<Lot>, t: Txn)
    requires ApartByOneLot(older, less, more, l, newer) && ValidTxn(t)
    requires t.Sell? ==> t.quantity <= Units(older.lots)
    ensures Enter(older, t).Some? && Enter(less, t).Some? && Enter(more, t).Some?
    ensures var (l', newer') := ScaledBehind(l, newer, t);
            ApartByOneLot(if t.Buy? then older else Enter(older, t).value, Enter(less, t).value, Enter(more, t).value,
                          l', newer')
  {
    match t {
      case Buy(_, _, _, _) => ApartAfterBuy(older, less, more, l, newer, t);
      case Sell(_, _, _, _) => ApartAfterSell(older, less, more, l, newer, t);
      case Corporate(_, _) => ApartAfterSplit(older, less, more, l, newer, t);
      case Dividend(_) =>
    }
  }

  /** What has become of one more buy, and the lots behind it, by the end of the ledger, while no sell reaches them. */
  function Kept(ledger: seq<Txn>, t: Txn): (Lot, seq<Lot>)
    requires ValidLedger(ledger) && ValidTxn(t) && t.Buy?
  {
    if ledger == [] || ledger[|ledger| - 1].day <= t.day then (Bought(t), [])
    else
      var before := Kept(ledger[..|ledger| - 1], t);
      ScaledBehind(before.0, before.1, ledger[|ledger| - 1])
  }

  /** The two replays, of a ledger and of it with one more buy, and the one of what both match sells against. */
  ghost predicate ApartOverall(ledger: seq<Txn>, t: Txn)
    requires ValidLedger(ledger) && ValidTxn(t) && t.Buy?
  {
    var older, more := WithoutLaterBuys(ledger, t.day), Enlisted(ledger, t);
    && ValidLedger(older) && ValidLedger(more)
    && Replay(ledger).Some? && Replay(older).Some? && Replay(more).Some?
    && ApartByOneLot(Replay(older).value, Replay(ledger).value, Replay(more).value, Kept(ledger, t).0,
                     Kept(ledger, t).1)
  }

  lemma ApartAtOnce(r: Register, t: Txn)
    requires ValidTxn(t) && t.Buy? && PositiveLots(r.lots)
    ensures ApartByOneLot(r, r, Enter(r, t).value, Bought(t), [])
  {
    assert r.lots + [] == r.lots && [Bought(t)] + [] == [Bought(t)];
  }

  lemma ApartAtFirst(ledger: seq<Txn>, t: Txn)
    requires ValidLedger(ledger) && ValidTxn(t) && t.Buy? && Replay(ledger).Some?
    requires ledger == [] || ledger[|ledger| - 1].day <= t.day
    ensures ApartOverall(ledger, t)
  {
    assert WithoutLaterBuys(ledger, t.day) == ledger && Enlisted(ledger, t) == ledger + [t];
    assert Kept(ledger, t) == (Bought(t), []);
    Snoc(ledger, t);
    UnitsAreBalance(ledger);
    ApartAtOnce(Replay(ledger).value, t);
  }

  lemma {:induction false} ApartThroughout(ledger: seq<Txn>, t: Txn)
    requires ValidLedger(ledger) && ValidTxn(t) && t.Buy? && Replay(ledger).Some? && SellsAreHeldBy(ledger, t.day)
    ensures ApartOverall(ledger, t)
    decreases |ledger|
  {
    if ledger == [] || ledger[|ledger| - 1].day <= t.day {
      ApartAtFirst(ledger, t);
    } else {
      var front, e := ledger[..|ledger| - 1], ledger[|ledger| - 1];
      assert ledger == front + [e];
      HeldOneMore(front, e, t.day);
      ApartThroughout(front, t);
      ApartStep(front, t, e);
    }
  }

  lemma HeldOneMore(front: seq<Txn>, e: Txn, day: Day)
    requires e.day > day
    ensures SellsAreHeldBy(front + [e], day)
            <==> SellsAreHeldBy(front, day) && (e.Sell? ==> e.quantity <= Balance(WithoutLaterBuys(front, day)))
  {
    var older := WithoutLaterBuys(front, day);
    assert (front + [e])[..|front|] == front;
    assert older + [] == older;
    CoveredSnoc(older, e);
  }

  lemma ApartStep(front: seq<Txn>, t: Txn, e: Txn)
    requires ValidLedger(front) && ValidTxn(t) && t.Buy? && ValidTxn(e) && ApartOverall(front, t) && e.day > t.day
    requires e.Sell? ==> e.quantity <= Balance(WithoutLaterBuys(front, t.day))
    ensures ValidLedger(front + [e]) && ApartOverall(front + [e], t)
  {
    var older := WithoutLaterBuys(front, t.day);
    assert (front + [e])[..|front|] == front;
    assert older + [] == older;
    UnitsAreBalance(older);
    ApartAfter(Replay(older).value, Replay(front).value, Replay(Enlisted(front, t)).value, Kept(front, t).0,
               Kept(front, t).1, e);
    Snoc(older, e);
    Snoc(front, e);
    Snoc(Enlisted(front, t), e);
  }

  /** While the lots held on the day of one more buy are enough for every later sell, no sell is re-matched: what
      was realized stands. */
  lemma RealizedStands(ledger: seq<Txn>, t: Txn)
    requires ValidLedger(ledger) && ValidTxn(t) && t.Buy? && Replay(ledger).Some? && SellsAreHeldBy(ledger, t.day)
    ensures ValidLedger(Enlisted(ledger, t)) && Replay(Enlisted(ledger, t)).Some?
    ensures Replay(Enlisted(ledger, t)).value.realized == Replay(ledger).value.realized
  {
    ApartThroughout(ledger, t);
  }

  // ---------- when they do not: a cheaper buy realizes more ----------

  /** The same lots, none dearer in the first. */
  ghost predicate NoDearer(a: seq<Lot>, b: seq<Lot>) {
    |a| == |b| && forall i :: 0 <= i < |a| ==> a[i].quantity == b[i].quantity && a[i].cost <= b[i].cost
  }

  lemma {:induction false} SameUnits(a: seq<Lot>, b: seq<Lot>)
    requires NoDearer(a, b)
    ensures Units(a) == Units(b)
  {
    if a != [] { SameUnits(a[1..], b[1..]); }
  }

  lemma CheaperGains(price: real, a: Lot, b: Lot, quantity: real)
    requires a.cost <= b.cost && quantity >= 0.0
    ensures Gain(price, a, quantity) >= Gain(price, b, quantity)
  {
    assert (b.cost - a.cost) * quantity >= 0.0;
  }

  lemma {:induction false} ConsumedNoDearer(a: seq<Lot>, b: seq<Lot>, quantity: real, price: real)
    requires NoDearer(a, b) && PositiveLots(a)
    ensures NoDearer(Consume(a, quantity, price).lots, Consume(b, quantity, price).lots)
    ensures Consume(a, quantity, price).realized >= Consume(b, quantity, price).realized
  {
    if a != [] && quantity > 0.0 {
      ConsumeFirst(a, quantity, price);
      ConsumeFirst(b, quantity, price);
      if a[0].quantity <= quantity {
        ConsumedNoDearer(a[1..], b[1..], quantity - a[0].quantity, price);
        CheaperGains(price, a[0], b[0], a[0].quantity);
      } else {
        CheaperGains(price, a[0], b[0], quantity);
      }
    }
  }

  lemma Divided(a: real, b: real, f: real)
    requires a <= b && f >= 1.0
    ensures a / f <= b / f && (a < b ==> a / f < b / f)
  {
  }

  lemma ScaledCheaper(a: Lot, b: Lot, factor: real)
    requires a.quantity == b.quantity && a.cost <= b.cost && factor >= 1.0
    ensures ScaledLot(a, factor).quantity == ScaledLot(b, factor).quantity
    ensures ScaledLot(a, factor).cost <= ScaledLot(b, factor).cost
  {
    Divided(a.cost, b.cost, factor);
  }

  lemma ScaledNoDearer(a: seq<Lot>, b: seq<Lot>, factor: real)
    requires NoDearer(a, b) && factor >= 1.0
    ensures NoDearer(Scale(a, factor), Scale(b, factor))
  {
    ScaleIsPointwise(a, factor);
    ScaleIsPointwise(b, factor);
    forall i | 0 <= i < |a|
      ensures ScaledLot(a[i], factor).quantity == ScaledLot(b[i], factor).quantity
      ensures ScaledLot(a[i], factor).cost <= ScaledLot(b[i], factor).cost
    {
      ScaledCheaper(a[i], b[i], factor);
    }
  }

  /** Any entry keeps the first no dearer and at least as far ahead. */
  lemma EnterNoDearer(a: Register, b: Register, t: Txn)
    requires NoDearer(a.lots, b.lots) && PositiveLots(a.lots) && ValidTxn(t) && Enter(a, t).Some?
    ensures Enter(b, t).Some? && NoDearer(Enter(a, t).value.lots, Enter(b, t).value.lots)
    ensures Enter(a, t).value.realized - Enter(b, t).value.realized >= a.realized - b.realized
  {
    match t {
      case Buy(_, _, _, _) =>
      case Sell(_, _, _, _) =>
        SameUnits(a.lots, b.lots);
        SellEnters(a, t);
        SellEnters(b, t);
        ConsumedNoDearer(a.lots, b.lots, t.quantity, t.price);
      case Corporate(factor, _) => ScaledNoDearer(a.lots, b.lots, factor);
      case Dividend(_) =>
    }
  }

  /** Two buys that differ in their price alone. */
  predicate Undercuts(t: Txn, dearer: Txn) {
    && ValidTxn(t) && t.Buy? && dearer.Buy? && t.price < dearer.price
    && dearer == Buy(t.quantity, dearer.price, t.fees, t.day)
  }

  lemma {:induction false} KeptUndercuts(ledger: seq<Txn>, t: Txn, dearer: Txn)
    requires ValidLedger(ledger) && Undercuts(t, dearer)
    ensures var a, b := Kept(ledger, t), Kept(ledger, dearer);
            a.0.quantity == b.0.quantity > 0.0 && a.0.cost < b.0.cost && a.1 == b.1
  {
    if ledger != [] && ledger[|ledger| - 1].day > t.day {
      var front, e := ledger[..|ledger| - 1], ledger[|ledger| - 1];
      KeptUndercuts(front, t, dearer);
      if e.Corporate? {
        Divided(Kept(front, t).0.cost, Kept(front, dearer).0.cost, e.factor);
        RaisedAtLeast(Kept(front, t).0.quantity, e.factor);
      }
    }
  }

  lemma {:induction false} CostTakenBehind(lots: seq<Lot>, behind: seq<Lot>, quantity: real)
    requires PositiveLots(lots) && quantity > Units(lots)
    ensures CostTaken(lots + behind, quantity) == Invested(lots) + CostTaken(behind, quantity - Units(lots))
  {
    if lots == [] {
      assert lots + behind == behind;
    } else {
      PositiveUnits(lots[1..]);
      assert (lots + behind)[1..] == lots[1..] + behind;
      CostTakenBehind(lots[1..], behind, quantity - lots[0].quantity);
    }
  }

  lemma CheaperFirst(a: Lot, b: Lot, newer: seq<Lot>, quantity: real)
    requires a.quantity == b.quantity > 0.0 && a.cost < b.cost && quantity > 0.0
    ensures CostTaken([a] + newer, quantity) < CostTaken([b] + newer, quantity)
  {
    assert ([a] + newer)[1..] == newer && ([b] + newer)[1..] == newer;
    var taken := if a.quantity <= quantity then a.quantity else quantity;
    Dearer(taken, a.cost, b.cost);
  }

  lemma Dearer(quantity: real, cheap: real, dear: real)
    requires quantity > 0.0 && cheap < dear
    ensures quantity * cheap < quantity * dear
  {
  }

  /** A sell that reaches past the older lots takes from the new one, and gains more on the cheaper. */
  lemma SellReachesNewLot(older: seq<Lot>, a: Lot, b: Lot, newer: seq<Lot>, quantity: real, price: real)
    requires PositiveLots(older) && a.quantity == b.quantity > 0.0 && a.cost < b.cost
    requires PositiveLots(older + ([a] + newer)) && PositiveLots(older + ([b] + newer))
    requires Units(older) < quantity <= Units(older + ([a] + newer)) == Units(older + ([b] + newer))
    ensures Consume(older + ([a] + newer), quantity, price).realized
            > Consume(older + ([b] + newer), quantity, price).realized
  {
    CostTakenBehind(older, [a] + newer, quantity);
    CostTakenBehind(older, [b] + newer, quantity);
    CheaperFirst(a, b, newer, quantity - Units(older));
    GainIsProceedsLessCost(older + ([a] + newer), quantity, price);
    GainIsProceedsLessCost(older + ([b] + newer), quantity, price);
  }

  /** The replays with the cheaper and with the dearer buy, once a sell has reached them. */
  ghost predicate RealizesMore(ledger: seq<Txn>, t: Txn, dearer: Txn) {
    var a, b := Enlisted(ledger, t), Enlisted(ledger, dearer);
    && ValidLedger(a) && ValidLedger(b) && Replay(a).Some? && Replay(b).Some?
    && PositiveLots(Replay(a).value.lots) && NoDearer(Replay(a).value.lots, Replay(b).value.lots)
    && Replay(a).value.realized > Replay(b).value.realized
  }

  lemma RealizesMoreStill(front: seq<Txn>, e: Txn, t: Txn, dearer: Txn)
    requires ValidLedger(front + [e]) && Replay(front + [e]).Some? && Undercuts(t, dearer) && e.day > t.day
    requires RealizesMore(front, t, dearer)
    ensures RealizesMore(front + [e], t, dearer)
  {
    var a, b := Enlisted(front, t), Enlisted(front, dearer);
    assert (front + [e])[..|front|] == front;
    assert ValidTxn((front + [e])[|front|]);
    BuyRaisesBalance(front + [e], t);
    Snoc(a, e);
    Snoc(b, e);
    EnterNoDearer(Replay(a).value, Replay(b).value, e);
    EnterCounts(Replay(a).value, e);
  }

  lemma AheadAreNoDearer(older: seq<Lot>, a: Lot, b: Lot, newer: seq<Lot>)
    requires a.quantity == b.quantity && a.cost <= b.cost
    ensures NoDearer(older + ([a] + newer), older + ([b] + newer))
  {
  }

  /** The sell that first reaches past the older lots. */
  lemma RealizesMoreAtOnce(front: seq<Txn>, e: Txn, t: Txn, dearer: Txn)
    requires ValidLedger(front + [e]) && Replay(front + [e]).Some? && Undercuts(t, dearer) && e.day > t.day
    requires SellsAreHeldBy(front, t.day) && !SellsAreHeldBy(front + [e], t.day)
    ensures RealizesMore(front + [e], t, dearer)
  {
    var a, b, older := Enlisted(front, t), Enlisted(front, dearer), WithoutLaterBuys(front, t.day);
    assert (front + [e])[..|front|] == front;
    assert ValidTxn((front + [e])[|front|]);
    assert forall i :: 0 <= i < |front| ==> front[i] == (front + [e])[i];
    HeldOneMore(front, e, t.day);
    Snoc(front, e);
    ApartThroughout(front, t);
    ApartThroughout(front, dearer);
    KeptUndercuts(front, t, dearer);
    UnitsAreBalance(older);
    UnitsAreBalance(a);
    UnitsAreBalance(b);
    var lots, x, y, newer := Replay(older).value.lots, Kept(front, t).0, Kept(front, dearer).0, Kept(front, t).1;
    AheadAreNoDearer(lots, x, y, newer);
    SameUnits(Replay(a).value.lots, Replay(b).value.lots);
    BuyRaisesBalance(front + [e], t);
    Snoc(a, e);
    Snoc(b, e);
    EnterNoDearer(Replay(a).value, Replay(b).value, e);
    EnterCounts(Replay(a).value, e);
    SellReachesNewLot(lots, x, y, newer, e.quantity, e.price);
    SellEnters(Replay(a).value, e);
    SellEnters(Replay(b).value, e);
  }

  lemma {:induction false} UndercuttingRealizesMore(ledger: seq<Txn>, t: Txn, dearer: Txn)
    requires ValidLedger(ledger) && Replay(ledger).Some? && Undercuts(t, dearer) && !SellsAreHeldBy(ledger, t.day)
    ensures RealizesMore(ledger, t, dearer)
    decreases |ledger|
  {
    ReplaysIffCovered(ledger);
    if ledger != [] && ledger[|ledger| - 1].day > t.day {
      var front, e := ledger[..|ledger| - 1], ledger[|ledger| - 1];
      assert ledger == front + [e];
      if SellsAreHeldBy(front, t.day) {
        RealizesMoreAtOnce(front, e, t, dearer);
      } else {
        UndercuttingRealizesMore(front, t, dearer);
        RealizesMoreStill(front, e, t, dearer);
      }
    }
  }

  function RealizedWith(ledger: seq<Txn>, quantity: real, price: real, day: Day): real
    requires ValidLedger(ledger) && Replay(ledger).Some? && quantity > 0.0
  {
    BuyRaisesBalance(ledger, Buy(quantity, price, 0.0, day));
    Replay(Enlisted(ledger, Buy(quantity, price, 0.0, day))).value.realized
  }

  /**
   PAST SELLS KEEP THEIR LOTS EXACTLY WHEN THEY WERE HELD. A buy entered behind a day leaves what was realized
   alone at every price, if and only if the lots held on that day are enough for every later sell.
   */
  lemma RealizedStandsExactlyWhen(ledger: seq<Txn>, quantity: real, day: Day)
    requires ValidLedger(ledger) && Replay(ledger).Some? && quantity > 0.0
    ensures (forall price ::
               price > 0.0 ==> RealizedWith(ledger, quantity, price, day) == Replay(ledger).value.realized)
            <==> SellsAreHeldBy(ledger, day)
  {
    if SellsAreHeldBy(ledger, day) {
      forall price ensures RealizedWith(ledger, quantity, price, day) == Replay(ledger).value.realized {
        RealizedStands(ledger, Buy(quantity, price, 0.0, day));
      }
    } else {
      UndercuttingRealizesMore(ledger, Buy(quantity, 1.0, 0.0, day), Buy(quantity, 2.0, 0.0, day));
      assert RealizedWith(ledger, quantity, 1.0, day) > RealizedWith(ledger, quantity, 2.0, day);
    }
  }
}
