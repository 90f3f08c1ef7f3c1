/**
 Resolving a broker snapshot to the catalogue (src/brokers/universe-admit.ts:125-356, 441-466): four passes
 over the holdings, each filling a map keyed by symbol, the third pass inserting catalogue rows.

 The passes are proved equal to one ordered rule per holding. Distinct symbols are assumed, as a broker
 reports one row per symbol. The catalogue is given by its unique indexes; `late` holds the rows other
 resolvers commit between this one's reads and its inserts; `faulty` holds the symbols whose insert fails
 with something other than a duplicate key.
 */
module UniverseResolver {
  import opened Wrappers
  import opened BrokerSync

  type StockId = nat
  type InstrumentId = nat

  /** `stock` is set only on an equity's catalogue row. */
  datatype Instrument = Instrument(id: InstrumentId, stock: Option<StockId>)

  type InstrumentTable = map<string, Instrument>

  /** The unique indexes read: instruments by ISIN, stocks by ticker, stocks by ISIN, instruments by stock. */
  datatype Catalogue = Catalogue(
    instruments: InstrumentTable, tickers: map<string, StockId>, isins: map<string, StockId>,
    equityRow: map<StockId, InstrumentId>)

  datatype IsinClass = EquityIsin | DebtIsin | Unclassifiable

  datatype Context = Context(
    cat: Catalogue, classify: string -> IsinClass, newId: string -> InstrumentId,
    late: InstrumentTable, faulty: set<string>)

  datatype How =
    | KnownSymbol | MatchedByIsin | MatchedInstrument | AdmittedInstrument | NotCovered | Unidentifiable

  datatype Outcome = Outcome(symbol: string, stock: Option<StockId>, instrument: Option<InstrumentId>, how: How)

  // ---------- the rule ----------

  datatype Route =
    | Catalogued(id: InstrumentId) | Ticker(stock: StockId) | Renamed(stock: StockId)
    | Bond | UncoveredEquity | NoIdentity

  /** What a holding is, by the first of the ordered tests it meets. An empty ISIN is a missing one. */
  function RouteOf(ctx: Context, h: StdHolding): Route {
    if h.isin != "" && h.isin in ctx.cat.instruments && ctx.cat.instruments[h.isin].stock.None? then
      Catalogued(ctx.cat.instruments[h.isin].id)
    else if h.symbol in ctx.cat.tickers then Ticker(ctx.cat.tickers[h.symbol])
    else if h.isin != "" && h.isin in ctx.cat.isins then Renamed(ctx.cat.isins[h.isin])
    else if h.isin == "" then NoIdentity
    else match ctx.classify(h.isin)
      case DebtIsin => Bond
      case EquityIsin => UncoveredEquity
      case Unclassifiable => NoIdentity
  }

  function RowOfStock(ctx: Context, stock: StockId): Option<InstrumentId> {
    if stock in ctx.cat.equityRow then Some(ctx.cat.equityRow[stock]) else None
  }

  /** The map's answer for a holding, given the catalogue as it stands after the inserts. */
  function EntryOf(ctx: Context, table: InstrumentTable, h: StdHolding): Option<Hit> {
    match RouteOf(ctx, h)
    case Catalogued(id) => Some(Hit(None, Some(id)))
    case Ticker(stock) => Some(Hit(Some(stock), RowOfStock(ctx, stock)))
    case Renamed(stock) => Some(Hit(Some(stock), RowOfStock(ctx, stock)))
    case Bond =>
      if h.symbol !in ctx.faulty && h.isin in table then Some(Hit(None, Some(table[h.isin].id))) else None
    case UncoveredEquity => Some(Hit(None, None))
    case NoIdentity => None
  }

  function OutcomeOf(ctx: Context, table: InstrumentTable, h: StdHolding): Outcome {
    match RouteOf(ctx, h)
    case Catalogued(id) => Outcome(h.symbol, None, Some(id), MatchedInstrument)
    case Ticker(stock) => Outcome(h.symbol, Some(stock), RowOfStock(ctx, stock), KnownSymbol)
    case Renamed(stock) => Outcome(h.symbol, Some(stock), RowOfStock(ctx, stock), MatchedByIsin)
    case Bond =>
      if h.symbol !in ctx.faulty && h.isin in table
      then Outcome(h.symbol, None, Some(table[h.isin].id), AdmittedInstrument)
      else Outcome(h.symbol, None, None, Unidentifiable)
    case UncoveredEquity => Outcome(h.symbol, None, None, NotCovered)
    case NoIdentity => Outcome(h.symbol, None, None, Unidentifiable)
  }

  // ---------- the same, in terms of the catalogue's indexes alone ----------

  /** The ISIN is a catalogue row that is no equity's. */
  predicate HasNonEquityRow(cat: Catalogue, h: StdHolding) {
    h.isin != "" && h.isin in cat.instruments && cat.instruments[h.isin].stock.None?
  }

  /** The holding's stock: that of its ticker, else that of its ISIN, unless its ISIN is a non-equity row. */
  predicate IsItsStock(cat: Catalogue, h: StdHolding, stock: Option<StockId>) {
    if HasNonEquityRow(cat, h) then stock.None?
    else if h.symbol in cat.tickers then stock == Some(cat.tickers[h.symbol])
    else stock == if h.isin != "" && h.isin in cat.isins then Some(cat.isins[h.isin]) else None
  }

  /** A stockless holding that is debt by its ISIN, and whose insert did not fail, has a row after the inserts. */
  predicate IsAdmitted(ctx: Context, table: InstrumentTable, h: StdHolding) {
    h.isin != "" && ctx.classify(h.isin) == DebtIsin && h.symbol !in ctx.faulty && h.isin in table
  }

  /** What a resolved holding carries: with a stock, that stock's own catalogue row if there is one; without, its
      ISIN's row. */
  predicate IsIdentity(ctx: Context, table: InstrumentTable, h: StdHolding, hit: Hit) {
    && IsItsStock(ctx.cat, h, hit.stock)
    && match hit.stock
       case Some(stock) =>
         (stock in ctx.cat.equityRow ==> hit.instrument == Some(ctx.cat.equityRow[stock]))
         && (stock !in ctx.cat.equityRow ==> hit.instrument.None?)
       case None =>
         if HasNonEquityRow(ctx.cat, h) then hit.instrument == Some(ctx.cat.instruments[h.isin].id)
         else if IsAdmitted(ctx, table, h) then hit.instrument == Some(table[h.isin].id)
         else hit.instrument.None?
  }

  /** The label an outcome is given says which index, or which admission, answered. */
  predicate IsLabelled(ctx: Context, table: InstrumentTable, h: StdHolding, how: How) {
    match how
    case MatchedInstrument => HasNonEquityRow(ctx.cat, h)
    case KnownSymbol => !HasNonEquityRow(ctx.cat, h) && h.symbol in ctx.cat.tickers
    case MatchedByIsin =>
      !HasNonEquityRow(ctx.cat, h) && h.symbol !in ctx.cat.tickers && h.isin != "" && h.isin in ctx.cat.isins
    case AdmittedInstrument => IsStranger(ctx.cat, h) && IsAdmitted(ctx, table, h)
    case NotCovered => IsStranger(ctx.cat, h) && h.isin != "" && ctx.classify(h.isin) == EquityIsin
    case Unidentifiable =>
      IsStranger(ctx.cat, h) && !IsAdmitted(ctx, table, h) && (h.isin == "" || ctx.classify(h.isin) != EquityIsin)
  }

  /** No index knows the holding. */
  predicate IsStranger(cat: Catalogue, h: StdHolding) { !HasNonEquityRow(cat, h) && IsItsStock(cat, h, None) }

  /** The rule's answers are those. */
  lemma RuleIsTheIndexes(ctx: Context, table: InstrumentTable, h: StdHolding)
    ensures var e := EntryOf(ctx, table, h);
            IsIdentity(ctx, table, h, if e.Some? then e.value else Hit(None, None))
    ensures var o := OutcomeOf(ctx, table, h);
            && IsIdentity(ctx, table, h, Hit(o.stock, o.instrument)) && IsLabelled(ctx, table, h, o.how)
            && o.symbol == h.symbol && (o.how == Unidentifiable <==> EntryOf(ctx, table, h).None?)
  {
  }

  lemma OneIdentity(ctx: Context, table: InstrumentTable, h: StdHolding, a: Hit, b: Hit)
    requires IsIdentity(ctx, table, h, a) && IsIdentity(ctx, table, h, b)
    ensures a == b
  {
  }

  // ---------- the inserts ----------

  /** The rows present when the inserts start: those read, which never change, and the late ones. */
  function StartTable(ctx: Context): InstrumentTable { ctx.late + ctx.cat.instruments }

  predicate Inserts(ctx: Context, table: InstrumentTable, h: StdHolding) {
    RouteOf(ctx, h).Bond? && h.symbol !in ctx.faulty && h.isin !in table
  }

  function Table(ctx: Context, hs: seq<StdHolding>): InstrumentTable {
    if hs == [] then StartTable(ctx)
    else
      var h := hs[|hs| - 1];
      var t := Table(ctx, hs[..|hs| - 1]);
      if Inserts(ctx, t, h) then t[h.isin := Instrument(ctx.newId(h.isin), None)] else t
  }

  /** The ISINs whose row this run created, each reported once. */
  function Created(ctx: Context, hs: seq<StdHolding>): seq<string> {
    if hs == [] then []
    else
      var h := hs[|hs| - 1];
      Created(ctx, hs[..|hs| - 1]) + if Inserts(ctx, Table(ctx, hs[..|hs| - 1]), h) then [h.isin] else []
  }

  lemma {:induction false} TableGrows(ctx: Context, hs: seq<StdHolding>, i: nat)
    requires i <= |hs|
    ensures var before, after := Table(ctx, hs[..i]), Table(ctx, hs);
            forall isin :: isin in before ==> isin in after && after[isin] == before[isin]
    decreases |hs|
  {
    if i == |hs| {
      assert hs[..i] == hs;
    } else {
      assert hs[..|hs| - 1][..i] == hs[..i];
      TableGrows(ctx, hs[..|hs| - 1], i);
    }
  }

  // ---------- the account of a run ----------

  /** The pass that answers a holding. */
  function PassOf(r: Route): nat {
    match r
    case Catalogued(_) => 0
    case Renamed(_) => 2
    case Ticker(_) => 4
    case _ => 3
  }

  function Answered(ctx: Context, table: InstrumentTable, hs: seq<StdHolding>, pass: nat): seq<Outcome> {
    if hs == [] then []
    else
      var h := hs[|hs| - 1];
      Answered(ctx, table, hs[..|hs| - 1], pass)
      + if PassOf(RouteOf(ctx, h)) == pass then [OutcomeOf(ctx, table, h)] else []
  }

  lemma AnsweredSnoc(ctx: Context, table: InstrumentTable, hs: seq<StdHolding>, i: nat, pass: nat)
    requires i < |hs|
    ensures PassOf(RouteOf(ctx, hs[i])) == pass ==>
              Answered(ctx, table, hs[..i + 1], pass)
                  == Answered(ctx, table, hs[..i], pass) + [OutcomeOf(ctx, table, hs[i])]
    ensures PassOf(RouteOf(ctx, hs[i])) != pass ==>
              Answered(ctx, table, hs[..i + 1], pass) == Answered(ctx, table, hs[..i], pass)
  {
    assert hs[..i + 1][..i] == hs[..i];
  }

  function Account(ctx: Context, table: InstrumentTable, hs: seq<StdHolding>): seq<Outcome> {
    Answered(ctx, table, hs, 0) + Answered(ctx, table, hs, 2) + Answered(ctx, table, hs, 3)
    + Answered(ctx, table, hs, 4)
  }

  lemma {:induction false} AnsweredAre(ctx: Context, table: InstrumentTable, hs: seq<StdHolding>, pass: nat)
    ensures forall o :: o in Answered(ctx, table, hs, pass) <==>
              exists h :: h in hs && PassOf(RouteOf(ctx, h)) == pass && o == OutcomeOf(ctx, table, h)
  {
    if hs != [] {
      var n := |hs| - 1;
      AnsweredAre(ctx, table, hs[..n], pass);
      assert hs == hs[..n] + [hs[n]];
      forall o ensures o in Answered(ctx, table, hs, pass) <==>
        exists h :: h in hs && PassOf(RouteOf(ctx, h)) == pass && o == OutcomeOf(ctx, table, h)
      {
        if h :| h in hs && PassOf(RouteOf(ctx, h)) == pass && o == OutcomeOf(ctx, table, h) {
          assert h in hs[..n] || h == hs[n];
        }
      }
    }
  }

  lemma {:induction false} AnsweredCount(ctx: Context, table: InstrumentTable, hs: seq<StdHolding>)
    ensures |Account(ctx, table, hs)| == |hs|
  {
    if hs != [] { AnsweredCount(ctx, table, hs[..|hs| - 1]); }
  }

  // ---------- the method ----------

  ghost predicate DistinctHoldings(hs: seq<StdHolding>) {
    forall i, j :: 0 <= i < j < |hs| ==> hs[i].symbol != hs[j].symbol
  }

  ghost function SymbolsOf(hs: seq<StdHolding>): set<string> { set h | h in hs :: h.symbol }

  lemma SymbolIn(hs: seq<StdHolding>, i: nat)
    requires i < |hs|
    ensures hs[i].symbol in SymbolsOf(hs)
  {
    assert hs[i] in hs;
  }

  type Entries = map<string, Hit>

  predicate EntryIs(m: Entries, symbol: string, e: Option<Hit>) {
    (symbol in m <==> e.Some?) && (symbol in m ==> m[symbol] == e.value)
  }

  /** The part of the map that the catalogue's own answers fill. */
  function CataloguedEntry(ctx: Context, h: StdHolding): Option<Hit> {
    var r := RouteOf(ctx, h);
    if r.Catalogued? then Some(Hit(None, Some(r.id))) else None
  }

  /** The part of the map filled before the stocks are. */
  function NonStockEntry(ctx: Context, table: InstrumentTable, h: StdHolding): Option<Hit> {
    if IsStock(RouteOf(ctx, h)) then None else EntryOf(ctx, table, h)
  }

  predicate IsStock(r: Route) { r.Ticker? || r.Renamed? }

  function StockOf(ctx: Context, h: StdHolding, renamedToo: bool): Option<StockId> {
    var r := RouteOf(ctx, h);
    if r.Ticker? || (renamedToo && r.Renamed?) then Some(r.stock) else None
  }

  predicate StockIs(m: map<string, StockId>, symbol: string, e: Option<StockId>) {
    (symbol in m <==> e.Some?) && (symbol in m ==> m[symbol] == e.value)
  }

  function WithEntry(m: Entries, symbol: string, e: Option<Hit>): Entries {
    if e.Some? then m[symbol := e.value] else m
  }

  /** The map while the catalogue's own answers are being filled in. */
  ghost predicate CataloguedUpTo(ctx: Context, hs: seq<StdHolding>, i: int, m: Entries) {
    && m.Keys <= SymbolsOf(hs)
    && (forall k :: 0 <= k < |hs| && k < i ==> EntryIs(m, hs[k].symbol, CataloguedEntry(ctx, hs[k])))
    && (forall k :: 0 <= k < |hs| && i <= k ==> hs[k].symbol !in m)
  }

  lemma CataloguedStep(ctx: Context, hs: seq<StdHolding>, i: nat, m: Entries)
    requires DistinctHoldings(hs) && i < |hs| && CataloguedUpTo(ctx, hs, i, m)
    ensures CataloguedUpTo(ctx, hs, i + 1, WithEntry(m, hs[i].symbol, CataloguedEntry(ctx, hs[i])))
  {
    var m' := WithEntry(m, hs[i].symbol, CataloguedEntry(ctx, hs[i]));
    SymbolIn(hs, i);
    forall k | 0 <= k < |hs| && k != i ensures hs[k].symbol in m' <==> hs[k].symbol in m {}
  }

  /** The map after the catalogue's own answers. */
  method CatalogueAnswers(ctx: Context, hs: seq<StdHolding>, ghost table: InstrumentTable)
    returns (bySymbol: Entries, outcomes: seq<Outcome>)
    requires DistinctHoldings(hs)
    ensures CataloguedUpTo(ctx, hs, |hs|, bySymbol)
    ensures outcomes == Answered(ctx, table, hs, 0)
  {
    bySymbol, outcomes := map[], [];
    for i := 0 to |hs|
      invariant CataloguedUpTo(ctx, hs, i, bySymbol)
      invariant outcomes == Answered(ctx, table, hs[..i], 0)
    {
      var h := hs[i];
      CataloguedStep(ctx, hs, i, bySymbol);
      AnsweredSnoc(ctx, table, hs, i, 0);
      var found := FindCatalogued(ctx, h);
      if found.Some? {
        bySymbol := bySymbol[h.symbol := Hit(None, found)];
        outcomes := outcomes + [Outcome(h.symbol, None, found, MatchedInstrument)];
      }
    }
    assert hs[..|hs|] == hs;
  }

  /** The non-equity catalogue row of a holding's ISIN. */
  method FindCatalogued(ctx: Context, h: StdHolding) returns (found: Option<InstrumentId>)
    ensures found.Some? <==> RouteOf(ctx, h).Catalogued?
    ensures found.Some? ==> found.value == RouteOf(ctx, h).id
  {
    if h.isin != "" && h.isin in ctx.cat.instruments {
      var inst := ctx.cat.instruments[h.isin];
      if inst.stock.None? { return Some(inst.id); }
    }
    return None;
  }

  /** The symbols we already know, among the holdings the catalogue did not answer. */
  method KnownTickers(ctx: Context, hs: seq<StdHolding>, bySymbol: Entries) returns (stocks: map<string, StockId>)
    requires DistinctHoldings(hs)
    requires forall k :: 0 <= k < |hs| ==> EntryIs(bySymbol, hs[k].symbol, CataloguedEntry(ctx, hs[k]))
    ensures stocks.Keys <= SymbolsOf(hs)
    ensures forall k :: 0 <= k < |hs| ==> StockIs(stocks, hs[k].symbol, StockOf(ctx, hs[k], false))
  {
    stocks := map[];
    for i := 0 to |hs|
      invariant stocks.Keys <= SymbolsOf(hs)
      invariant forall k :: 0 <= k < i ==> StockIs(stocks, hs[k].symbol, StockOf(ctx, hs[k], false))
      invariant forall k :: i <= k < |hs| ==> hs[k].symbol !in stocks
    {
      var h := hs[i];
      SymbolIn(hs, i);
      if h.symbol !in bySymbol && h.symbol in ctx.cat.tickers {
        stocks := stocks[h.symbol := ctx.cat.tickers[h.symbol]];
      }
    }
  }

  /** An outcome as it is first recorded: a rename's catalogue row is filled in at the end. */
  function Unfilled(o: Outcome): Outcome {
    if o.how == MatchedByIsin then o.(instrument := None) else o
  }

  function UnfilledAll(os: seq<Outcome>): seq<Outcome> {
    if os == [] then [] else UnfilledAll(os[..|os| - 1]) + [Unfilled(os[|os| - 1])]
  }

  lemma UnfilledSnoc(os: seq<Outcome>, o: Outcome)
    ensures UnfilledAll(os + [o]) == UnfilledAll(os) + [Unfilled(o)]
  {
    assert (os + [o])[..|os|] == os;
  }

  /** The stock map while the renames are being added: done up to `i`, tickers only from there on. */
  ghost predicate StocksUpTo(ctx: Context, hs: seq<StdHolding>, i: int, m: map<string, StockId>) {
    && m.Keys <= SymbolsOf(hs)
    && (forall k :: 0 <= k < |hs| && k < i ==> StockIs(m, hs[k].symbol, StockOf(ctx, hs[k], true)))
    && (forall k :: 0 <= k < |hs| && i <= k ==> StockIs(m, hs[k].symbol, StockOf(ctx, hs[k], false)))
  }

  function WithStock(m: map<string, StockId>, symbol: string, found: Option<StockId>): map<string, StockId> {
    if found.Some? then m[symbol := found.value] else m
  }

  lemma StocksStep(ctx: Context, hs: seq<StdHolding>, i: nat, m: map<string, StockId>, found: Option<StockId>)
    requires DistinctHoldings(hs) && i < |hs| && StocksUpTo(ctx, hs, i, m)
    requires found == if RouteOf(ctx, hs[i]).Renamed? then Some(RouteOf(ctx, hs[i]).stock) else None
    ensures StocksUpTo(ctx, hs, i + 1, WithStock(m, hs[i].symbol, found))
  {
    var m' := WithStock(m, hs[i].symbol, found);
    SymbolIn(hs, i);
    assert StockIs(m, hs[i].symbol, StockOf(ctx, hs[i], false));
    assert StockIs(m', hs[i].symbol, StockOf(ctx, hs[i], true));
    forall k | 0 <= k < |hs| && k != i ensures hs[k].symbol in m' <==> hs[k].symbol in m {}
  }

  /** A stranger whose ISIN we already hold is a rename: its stock. */
  method RenamedStock(ctx: Context, h: StdHolding, bySymbol: Entries, known: map<string, StockId>)
    returns (found: Option<StockId>)
    requires EntryIs(bySymbol, h.symbol, CataloguedEntry(ctx, h)) && StockIs(known, h.symbol, StockOf(ctx, h, false))
    ensures found == if RouteOf(ctx, h).Renamed? then Some(RouteOf(ctx, h).stock) else None
  {
    if h.symbol !in bySymbol && h.symbol !in known && h.isin != "" && h.isin in ctx.cat.isins {
      return Some(ctx.cat.isins[h.isin]);
    }
    return None;
  }

  method Renames(ctx: Context, hs: seq<StdHolding>, bySymbol: Entries, known: map<string, StockId>,
                 outcomes0: seq<Outcome>, ghost table: InstrumentTable)
    returns (stocks: map<string, StockId>, outcomes: seq<Outcome>)
    requires DistinctHoldings(hs) && StocksUpTo(ctx, hs, 0, known)
    requires forall k :: 0 <= k < |hs| ==> EntryIs(bySymbol, hs[k].symbol, CataloguedEntry(ctx, hs[k]))
    ensures StocksUpTo(ctx, hs, |hs|, stocks)
    ensures outcomes == outcomes0 + UnfilledAll(Answered(ctx, table, hs, 2))
  {
    stocks, outcomes := known, outcomes0;
    ghost var told: seq<Outcome> := [];
    for i := 0 to |hs|
      invariant StocksUpTo(ctx, hs, i, stocks)
      invariant told == UnfilledAll(Answered(ctx, table, hs[..i], 2)) && outcomes == outcomes0 + told
    {
      var h := hs[i];
      var found := RenamedStock(ctx, h, bySymbol, known);
      StocksStep(ctx, hs, i, stocks, found);
      AnsweredSnoc(ctx, table, hs, i, 2);
      if found.Some? {
        stocks := stocks[h.symbol := found.value];
        outcomes := outcomes + [Outcome(h.symbol, found, None, MatchedByIsin)];
        UnfilledSnoc(Answered(ctx, table, hs[..i], 2), OutcomeOf(ctx, table, h));
        ConcatAssoc(outcomes0, told, [Outcome(h.symbol, found, None, MatchedByIsin)]);
        told := told + [Outcome(h.symbol, found, None, MatchedByIsin)];
      }
    }
    assert hs[..|hs|] == hs;
  }

  /** Create a catalogue-only row, or read the row that beat us to the ISIN. The unique index decides. */
  method AdmitCatalogueInstrument(table: InstrumentTable, isin: string, id: InstrumentId)
    returns (table': InstrumentTable, got: InstrumentId, wasCreated: bool)
    ensures wasCreated <==> isin !in table
    ensures table' == if isin in table then table else table[isin := Instrument(id, None)]
    ensures got == table'[isin].id
  {
    if isin in table {
      // the insert violates the unique index; the row already there is read instead
      return table, table[isin].id, false;
    }
    return table[isin := Instrument(id, None)], id, true;
  }

  /** One stranger: admitted as a bond, left out of the universe as an equity, or not identified. */
  method AdmitStranger(ctx: Context, h: StdHolding, table: InstrumentTable)
    returns (entry: Option<Hit>, outcome: Outcome, table': InstrumentTable, wasCreated: bool)
    requires PassOf(RouteOf(ctx, h)) == 3
    ensures wasCreated <==> Inserts(ctx, table, h)
    ensures table' == if Inserts(ctx, table, h) then table[h.isin := Instrument(ctx.newId(h.isin), None)] else table
    ensures entry == EntryOf(ctx, table', h) && outcome == OutcomeOf(ctx, table', h)
  {
    table', wasCreated := table, false;
    var kind := if h.isin == "" then Unclassifiable else ctx.classify(h.isin);
    match kind {
      case Unclassifiable => return None, Outcome(h.symbol, None, None, Unidentifiable), table, false;
      case DebtIsin =>
        if h.symbol in ctx.faulty { return None, Outcome(h.symbol, None, None, Unidentifiable), table, false; }
        var id;
        table', id, wasCreated := AdmitCatalogueInstrument(table, h.isin, ctx.newId(h.isin));
        return Some(Hit(None, Some(id))), Outcome(h.symbol, None, Some(id), AdmittedInstrument), table', wasCreated;
      case EquityIsin => return Some(Hit(None, None)), Outcome(h.symbol, None, None, NotCovered), table, false;
    }
  }

  /** What a stranger is told does not depend on what is inserted after it. */
  lemma AnswerIsFinal(ctx: Context, hs: seq<StdHolding>, i: nat)
    requires i < |hs|
    ensures var now, end := Table(ctx, hs[..i + 1]), Table(ctx, hs);
            && EntryOf(ctx, now, hs[i]) == EntryOf(ctx, end, hs[i])
            && OutcomeOf(ctx, now, hs[i]) == OutcomeOf(ctx, end, hs[i])
  {
    TableGrows(ctx, hs, i + 1);
    assert hs[..i + 1][..i] == hs[..i];
    if RouteOf(ctx, hs[i]).Bond? && hs[i].symbol !in ctx.faulty {
      assert hs[i].isin in Table(ctx, hs[..i + 1]);
    }
  }

  /** The map while the strangers are being answered. */
  ghost predicate EntriesUpTo(ctx: Context, table: InstrumentTable, hs: seq<StdHolding>, i: int, m: Entries) {
    && m.Keys <= SymbolsOf(hs)
    && (forall k :: 0 <= k < |hs| && k < i ==> EntryIs(m, hs[k].symbol, NonStockEntry(ctx, table, hs[k])))
    && (forall k :: 0 <= k < |hs| && i <= k ==> EntryIs(m, hs[k].symbol, CataloguedEntry(ctx, hs[k])))
  }

  lemma EntriesStep(ctx: Context, table: InstrumentTable, hs: seq<StdHolding>, i: nat, m: Entries, e: Option<Hit>)
    requires DistinctHoldings(hs) && i < |hs| && EntriesUpTo(ctx, table, hs, i, m)
    requires e == if PassOf(RouteOf(ctx, hs[i])) == 3 then EntryOf(ctx, table, hs[i]) else None
    ensures EntriesUpTo(ctx, table, hs, i + 1, WithEntry(m, hs[i].symbol, e))
  {
    var m' := WithEntry(m, hs[i].symbol, e);
    SymbolIn(hs, i);
    assert EntryIs(m, hs[i].symbol, CataloguedEntry(ctx, hs[i]));
    assert EntryIs(m', hs[i].symbol, NonStockEntry(ctx, table, hs[i]));
    forall k | 0 <= k < |hs| && k != i ensures hs[k].symbol in m' <==> hs[k].symbol in m {}
  }

  lemma TableSnoc(ctx: Context, hs: seq<StdHolding>, i: nat)
    requires i < |hs|
    ensures var t := Table(ctx, hs[..i]);
            && Table(ctx, hs[..i + 1])
                 == (if Inserts(ctx, t, hs[i]) then t[hs[i].isin := Instrument(ctx.newId(hs[i].isin), None)] else t)
            && Created(ctx, hs[..i + 1]) == Created(ctx, hs[..i]) + if Inserts(ctx, t, hs[i]) then [hs[i].isin] else []
  {
    assert hs[..i + 1][..i] == hs[..i];
  }

  lemma ConcatAssoc(a: seq<Outcome>, b: seq<Outcome>, c: seq<Outcome>)
    ensures (a + b) + c == a + (b + c)
  {
  }

  lemma LeftForThirdPass(ctx: Context, h: StdHolding, answered: Entries, stocks: map<string, StockId>)
    requires EntryIs(answered, h.symbol, CataloguedEntry(ctx, h)) && StockIs(stocks, h.symbol, StockOf(ctx, h, true))
    ensures (h.symbol !in answered && h.symbol !in stocks) <==> PassOf(RouteOf(ctx, h)) == 3
  {
  }

  /** Holding `i` in the third pass: nothing for one already answered. */
  method AnswerStranger(ctx: Context, hs: seq<StdHolding>, i: nat, answered: Entries, stocks: map<string, StockId>,
                        table: InstrumentTable)
    returns (entry: Option<Hit>, told: seq<Outcome>, made: seq<string>, table': InstrumentTable)
    requires i < |hs| && table == Table(ctx, hs[..i])
    requires EntriesUpTo(ctx, Table(ctx, hs), hs, 0, answered) && StocksUpTo(ctx, hs, |hs|, stocks)
    ensures table' == Table(ctx, hs[..i + 1]) && Created(ctx, hs[..i + 1]) == Created(ctx, hs[..i]) + made
    ensures entry == if PassOf(RouteOf(ctx, hs[i])) == 3 then EntryOf(ctx, Table(ctx, hs), hs[i]) else None
    ensures Answered(ctx, Table(ctx, hs), hs[..i + 1], 3) == Answered(ctx, Table(ctx, hs), hs[..i], 3) + told
  {
    LeftForThirdPass(ctx, hs[i], answered, stocks);
    TableSnoc(ctx, hs, i);
    AnswerIsFinal(ctx, hs, i);
    AnsweredSnoc(ctx, Table(ctx, hs), hs, i, 3);
    entry, told, made, table' := None, [], [], table;
    if hs[i].symbol !in answered && hs[i].symbol !in stocks {
      var outcome, wasCreated;
      entry, outcome, table', wasCreated := AdmitStranger(ctx, hs[i], table);
      told := [outcome];
      if wasCreated { made := [hs[i].isin]; }
    }
  }

  /** Admit, or honestly leave out, what neither ticker nor ISIN identified. */
  method AdmitStrangers(ctx: Context, hs: seq<StdHolding>, answered: Entries, stocks: map<string, StockId>,
                        outcomes0: seq<Outcome>)
    returns (bySymbol: Entries, outcomes: seq<Outcome>, created: seq<string>, table: InstrumentTable)
    requires DistinctHoldings(hs) && EntriesUpTo(ctx, Table(ctx, hs), hs, 0, answered)
    requires StocksUpTo(ctx, hs, |hs|, stocks)
    ensures table == Table(ctx, hs) && created == Created(ctx, hs)
    ensures EntriesUpTo(ctx, table, hs, |hs|, bySymbol)
    ensures outcomes == outcomes0 + Answered(ctx, table, hs, 3)
  {
    ghost var final := Table(ctx, hs);
    bySymbol, outcomes, created, table := answered, outcomes0, [], ctx.late + ctx.cat.instruments;
    for i := 0 to |hs|
      invariant table == Table(ctx, hs[..i]) && created == Created(ctx, hs[..i])
      invariant EntriesUpTo(ctx, final, hs, i, bySymbol)
      invariant outcomes == outcomes0 + Answered(ctx, final, hs[..i], 3)
    {
      var entry, told, made;
      entry, told, made, table := AnswerStranger(ctx, hs, i, answered, stocks, table);
      EntriesStep(ctx, final, hs, i, bySymbol, entry);
      bySymbol := WithEntry(bySymbol, hs[i].symbol, entry);
      ConcatAssoc(outcomes0, Answered(ctx, final, hs[..i], 3), told);
      outcomes, created := outcomes + told, created + made;
    }
    assert hs[..|hs|] == hs;
  }

  function Filled(ctx: Context, o: Outcome): Outcome {
    if o.stock.Some? then o.(instrument := RowOfStock(ctx, o.stock.value)) else o
  }

  function FilledAll(ctx: Context, os: seq<Outcome>): seq<Outcome> {
    if os == [] then [] else FilledAll(ctx, os[..|os| - 1]) + [Filled(ctx, os[|os| - 1])]
  }

  lemma {:induction false} FilledConcat(ctx: Context, a: seq<Outcome>, b: seq<Outcome>)
    ensures FilledAll(ctx, a + b) == FilledAll(ctx, a) + FilledAll(ctx, b)
  {
    if b == [] {
      assert a + b == a;
    } else {
      var front, o := b[..|b| - 1], b[|b| - 1];
      FilledConcat(ctx, a, front);
      FilledSnoc(ctx, a + front, o);
      assert b == front + [o];
      ConcatAssoc(a, front, [o]);
      ConcatAssoc(FilledAll(ctx, a), FilledAll(ctx, front), [Filled(ctx, o)]);
    }
  }

  lemma FillingAnswer(ctx: Context, table: InstrumentTable, h: StdHolding)
    ensures var o := OutcomeOf(ctx, table, h); Filled(ctx, o) == o && Filled(ctx, Unfilled(o)) == o
  {
  }

  lemma {:induction false} FillingAnswers(ctx: Context, table: InstrumentTable, hs: seq<StdHolding>, pass: nat)
    ensures var told := Answered(ctx, table, hs, pass);
            FilledAll(ctx, told) == told && FilledAll(ctx, UnfilledAll(told)) == told
  {
    if hs != [] {
      var n := |hs| - 1;
      FillingAnswers(ctx, table, hs[..n], pass);
      assert hs[..n + 1] == hs;
      AnsweredSnoc(ctx, table, hs, n, pass);
      FillSnoc(ctx, table, Answered(ctx, table, hs[..n], pass), hs[n]);
    }
  }

  lemma FillSnoc(ctx: Context, table: InstrumentTable, told: seq<Outcome>, h: StdHolding)
    requires FilledAll(ctx, told) == told && FilledAll(ctx, UnfilledAll(told)) == told
    ensures var all := told + [OutcomeOf(ctx, table, h)];
            FilledAll(ctx, all) == all && FilledAll(ctx, UnfilledAll(all)) == all
    ensures told + [] == told
  {
    var o := OutcomeOf(ctx, table, h);
    FillingAnswer(ctx, table, h);
    UnfilledSnoc(told, o);
    FilledSnoc(ctx, told, o);
    FilledSnoc(ctx, UnfilledAll(told), Unfilled(o));
  }

  lemma FilledSnoc(ctx: Context, os: seq<Outcome>, o: Outcome)
    ensures FilledAll(ctx, os + [o]) == FilledAll(ctx, os) + [Filled(ctx, o)]
  {
    assert (os + [o])[..|os|] == os;
  }

  /** Every resolved stock's catalogue row, written into the outcomes recorded so far. */
  method FillInstruments(ctx: Context, outcomes0: seq<Outcome>) returns (outcomes: seq<Outcome>)
    ensures outcomes == FilledAll(ctx, outcomes0)
  {
    outcomes := [];
    for i := 0 to |outcomes0|
      invariant outcomes == FilledAll(ctx, outcomes0[..i])
    {
      var o := outcomes0[i];
      assert outcomes0[..i + 1][..i] == outcomes0[..i];
      if o.stock.Some? { o := o.(instrument := RowOfStock(ctx, o.stock.value)); }
      outcomes := outcomes + [o];
    }
    assert outcomes0[..|outcomes0|] == outcomes0;
  }

  ghost predicate Mentions(os: seq<Outcome>, symbol: string) { exists o :: o in os && o.symbol == symbol }

  method HasOutcome(os: seq<Outcome>, symbol: string) returns (found: bool)
    ensures found <==> Mentions(os, symbol)
  {
    for i := 0 to |os|
      invariant forall k :: 0 <= k < i ==> os[k].symbol != symbol
    {
      if os[i].symbol == symbol { return true; }
    }
    return false;
  }

  /** Before the ordinary case is recorded, exactly the other holdings have an outcome. */
  lemma MentionedSoFar(ctx: Context, table: InstrumentTable, hs: seq<StdHolding>, i: nat)
    requires DistinctHoldings(hs) && i < |hs|
    ensures Mentions(Answered(ctx, table, hs, 0) + Answered(ctx, table, hs, 2) + Answered(ctx, table, hs, 3)
                     + Answered(ctx, table, hs[..i], 4), hs[i].symbol)
            <==> !RouteOf(ctx, hs[i]).Ticker?
  {
    AnsweredMentions(ctx, table, hs, i, 0);
    AnsweredMentions(ctx, table, hs, i, 2);
    AnsweredMentions(ctx, table, hs, i, 3);
    NotYetMentioned(ctx, table, hs, i, 4);
    MentionsConcat(Answered(ctx, table, hs, 0), Answered(ctx, table, hs, 2), hs[i].symbol);
    MentionsConcat(Answered(ctx, table, hs, 0) + Answered(ctx, table, hs, 2), Answered(ctx, table, hs, 3),
                   hs[i].symbol);
    MentionsConcat(Answered(ctx, table, hs, 0) + Answered(ctx, table, hs, 2) + Answered(ctx, table, hs, 3),
                   Answered(ctx, table, hs[..i], 4), hs[i].symbol);
  }

  lemma NotYetMentioned(ctx: Context, table: InstrumentTable, hs: seq<StdHolding>, i: nat, pass: nat)
    requires DistinctHoldings(hs) && i < |hs|
    ensures !Mentions(Answered(ctx, table, hs[..i], pass), hs[i].symbol)
  {
    forall o | o in Answered(ctx, table, hs[..i], pass) ensures o.symbol != hs[i].symbol {
      var j := AnsweredFrom(ctx, table, hs[..i], pass, o);
      OutcomeNamesItsSymbol(ctx, table, hs[..i][j]);
    }
  }

  lemma MentionsConcat(a: seq<Outcome>, b: seq<Outcome>, symbol: string)
    ensures Mentions(a + b, symbol) <==> Mentions(a, symbol) || Mentions(b, symbol)
  {
    if o :| o in a && o.symbol == symbol { assert o in a + b; }
    if o :| o in b && o.symbol == symbol { assert o in a + b; }
  }

  lemma AnsweredMentions(ctx: Context, table: InstrumentTable, hs: seq<StdHolding>, i: nat, pass: nat)
    requires DistinctHoldings(hs) && i < |hs|
    ensures Mentions(Answered(ctx, table, hs, pass), hs[i].symbol) <==> PassOf(RouteOf(ctx, hs[i])) == pass
  {
    if PassOf(RouteOf(ctx, hs[i])) == pass {
      AnsweredAre(ctx, table, hs, pass);
      assert hs[i] in hs;
      OutcomeNamesItsSymbol(ctx, table, hs[i]);
      assert OutcomeOf(ctx, table, hs[i]) in Answered(ctx, table, hs, pass);
    } else {
      forall o | o in Answered(ctx, table, hs, pass) ensures o.symbol != hs[i].symbol {
        var j := AnsweredFrom(ctx, table, hs, pass, o);
        OutcomeNamesItsSymbol(ctx, table, hs[j]);
      }
    }
  }

  lemma KnownNext(ctx: Context, table: InstrumentTable, hs: seq<StdHolding>, i: nat, outcomes0: seq<Outcome>,
                  bySymbol: Entries)
    requires DistinctHoldings(hs) && i < |hs|
    requires outcomes0 == Answered(ctx, table, hs, 0) + Answered(ctx, table, hs, 2) + Answered(ctx, table, hs, 3)
    requires EntryIs(bySymbol, hs[i].symbol, EntryOf(ctx, table, hs[i]))
    ensures var outcomes, hit := outcomes0 + Answered(ctx, table, hs[..i], 4), HitFor(bySymbol, hs[i].symbol);
            outcomes0 + Answered(ctx, table, hs[..i + 1], 4)
            == if Mentions(outcomes, hs[i].symbol) then outcomes
               else outcomes + [Outcome(hs[i].symbol, hit.stock, hit.instrument, KnownSymbol)]
  {
    MentionedSoFar(ctx, table, hs, i);
    AnsweredSnoc(ctx, table, hs, i, 4);
    if RouteOf(ctx, hs[i]).Ticker? { KnownOutcome(ctx, table, hs[i], bySymbol); }
  }

  lemma KnownOutcome(ctx: Context, table: InstrumentTable, h: StdHolding, bySymbol: Entries)
    requires EntryIs(bySymbol, h.symbol, EntryOf(ctx, table, h)) && RouteOf(ctx, h).Ticker?
    ensures var hit := HitFor(bySymbol, h.symbol);
            OutcomeOf(ctx, table, h) == Outcome(h.symbol, hit.stock, hit.instrument, KnownSymbol)
  {
  }

  /** Record the ordinary case too, so that the outcomes account for every symbol. */
  method RecordKnown(ctx: Context, hs: seq<StdHolding>, bySymbol: Entries, table: InstrumentTable,
                     outcomes0: seq<Outcome>)
    returns (outcomes: seq<Outcome>)
    requires DistinctHoldings(hs)
    requires outcomes0 == Answered(ctx, table, hs, 0) + Answered(ctx, table, hs, 2) + Answered(ctx, table, hs, 3)
    requires forall k :: 0 <= k < |hs| ==> EntryIs(bySymbol, hs[k].symbol, EntryOf(ctx, table, hs[k]))
    ensures outcomes == Account(ctx, table, hs)
  {
    outcomes := outcomes0;
    for i := 0 to |hs|
      invariant outcomes == outcomes0 + Answered(ctx, table, hs[..i], 4)
    {
      var h := hs[i];
      KnownNext(ctx, table, hs, i, outcomes0, bySymbol);
      var recorded := HasOutcome(outcomes, h.symbol);
      if !recorded {
        var hit := HitFor(bySymbol, h.symbol);
        outcomes := outcomes + [Outcome(h.symbol, hit.stock, hit.instrument, KnownSymbol)];
      }
    }
    assert hs[..|hs|] == hs;
  }

  /** The resolver: every holding gets its rule's entry, its rule's outcome, and the catalogue the rows the
      rule admits. */
  method ResolveHoldingsToUniverse(ctx: Context, hs: seq<StdHolding>)
    returns (bySymbol: Entries, outcomes: seq<Outcome>, created: seq<string>, table: InstrumentTable)
    requires DistinctHoldings(hs)
    ensures bySymbol.Keys <= SymbolsOf(hs)
    ensures forall k :: 0 <= k < |hs| ==> EntryIs(bySymbol, hs[k].symbol, EntryOf(ctx, table, hs[k]))
    ensures outcomes == Account(ctx, table, hs)
    ensures table == Table(ctx, hs) && created == Created(ctx, hs)
    ensures AllIdentified(ctx, table, hs, bySymbol) && AllTold(ctx, table, hs, outcomes)
  {
    ghost var final := Table(ctx, hs);
    var answered, found := CatalogueAnswers(ctx, hs, final);
    var known := KnownTickers(ctx, hs, answered);
    var stocks, renamed := Renames(ctx, hs, answered, known, found, final);
    var entries, told;
    entries, told, created, table := AdmitStrangers(ctx, hs, answered, stocks, renamed);
    bySymbol := entries + map s | s in stocks :: Hit(Some(stocks[s]), RowOfStock(ctx, stocks[s]));
    StocksJoin(ctx, table, hs, entries, stocks);
    AnswersAreIdentities(ctx, table, hs, bySymbol);
    var filled := FillInstruments(ctx, told);
    FilledAnswers(ctx, final, hs);
    outcomes := RecordKnown(ctx, hs, bySymbol, table, filled);
  }

  /** Every holding's answer is its identity. */
  ghost predicate AllIdentified(ctx: Context, table: InstrumentTable, hs: seq<StdHolding>, bySymbol: Entries) {
    forall k :: 0 <= k < |hs| ==> IsIdentity(ctx, table, hs[k], HitFor(bySymbol, hs[k].symbol))
  }

  /** Every outcome of a holding's symbol tells its identity and what answered it. */
  ghost predicate AllTold(ctx: Context, table: InstrumentTable, hs: seq<StdHolding>, outcomes: seq<Outcome>) {
    forall o, k :: o in outcomes && 0 <= k < |hs| && o.symbol == hs[k].symbol ==>
      IsIdentity(ctx, table, hs[k], Hit(o.stock, o.instrument)) && IsLabelled(ctx, table, hs[k], o.how)
  }

  lemma AnswersAreIdentities(ctx: Context, table: InstrumentTable, hs: seq<StdHolding>, bySymbol: Entries)
    requires DistinctHoldings(hs)
    requires forall k :: 0 <= k < |hs| ==> EntryIs(bySymbol, hs[k].symbol, EntryOf(ctx, table, hs[k]))
    ensures AllIdentified(ctx, table, hs, bySymbol) && AllTold(ctx, table, hs, Account(ctx, table, hs))
  {
    forall k | 0 <= k < |hs| ensures IsIdentity(ctx, table, hs[k], HitFor(bySymbol, hs[k].symbol)) {
      assert EntryIs(bySymbol, hs[k].symbol, EntryOf(ctx, table, hs[k]));
      RuleIsTheIndexes(ctx, table, hs[k]);
    }
    forall o, k | o in Account(ctx, table, hs) && 0 <= k < |hs| && o.symbol == hs[k].symbol
      ensures IsIdentity(ctx, table, hs[k], Hit(o.stock, o.instrument)) && IsLabelled(ctx, table, hs[k], o.how)
    {
      OneOutcomeEach(ctx, table, hs, k);
      RuleIsTheIndexes(ctx, table, hs[k]);
    }
  }

  lemma StocksJoin(ctx: Context, table: InstrumentTable, hs: seq<StdHolding>, entries: Entries,
                   stocks: map<string, StockId>)
    requires EntriesUpTo(ctx, table, hs, |hs|, entries) && StocksUpTo(ctx, hs, |hs|, stocks)
    ensures var m := entries + map s | s in stocks :: Hit(Some(stocks[s]), RowOfStock(ctx, stocks[s]));
            && m.Keys <= SymbolsOf(hs)
            && forall k :: 0 <= k < |hs| ==> EntryIs(m, hs[k].symbol, EntryOf(ctx, table, hs[k]))
  {
    forall k | 0 <= k < |hs|
      ensures EntryIs(entries, hs[k].symbol, NonStockEntry(ctx, table, hs[k]))
      ensures StockIs(stocks, hs[k].symbol, StockOf(ctx, hs[k], true))
    {
    }
  }

  lemma FilledAnswers(ctx: Context, table: InstrumentTable, hs: seq<StdHolding>)
    ensures FilledAll(ctx, Answered(ctx, table, hs, 0) + UnfilledAll(Answered(ctx, table, hs, 2))
                      + Answered(ctx, table, hs, 3))
            == Answered(ctx, table, hs, 0) + Answered(ctx, table, hs, 2) + Answered(ctx, table, hs, 3)
  {
    var found, renamed := Answered(ctx, table, hs, 0), UnfilledAll(Answered(ctx, table, hs, 2));
    FillingAnswers(ctx, table, hs, 0);
    FillingAnswers(ctx, table, hs, 2);
    FillingAnswers(ctx, table, hs, 3);
    FilledConcat(ctx, found, renamed);
    FilledConcat(ctx, found + renamed, Answered(ctx, table, hs, 3));
  }

  /** The resolver's map, holding by holding. */
  function Answers(ctx: Context, table: InstrumentTable, hs: seq<StdHolding>): Entries {
    if hs == [] then map[]
    else
      var h := hs[|hs| - 1];
      WithEntry(Answers(ctx, table, hs[..|hs| - 1]), h.symbol, EntryOf(ctx, table, h))
  }

  /** The map so far: the rule's entries up to `i`, nothing from there on. */
  ghost predicate AnsweredUpTo(ctx: Context, table: InstrumentTable, hs: seq<StdHolding>, i: int, m: Entries) {
    && m.Keys <= SymbolsOf(hs)
    && (forall k :: 0 <= k < |hs| && k < i ==> EntryIs(m, hs[k].symbol, EntryOf(ctx, table, hs[k])))
    && (forall k :: 0 <= k < |hs| && i <= k ==> hs[k].symbol !in m)
  }

  lemma AnswersStep(ctx: Context, table: InstrumentTable, hs: seq<StdHolding>, i: nat, m: Entries)
    requires DistinctHoldings(hs) && i < |hs| && AnsweredUpTo(ctx, table, hs, i, m)
    ensures AnsweredUpTo(ctx, table, hs, i + 1, WithEntry(m, hs[i].symbol, EntryOf(ctx, table, hs[i])))
  {
    var m' := WithEntry(m, hs[i].symbol, EntryOf(ctx, table, hs[i]));
    SymbolIn(hs, i);
    forall k | 0 <= k < |hs| && k != i ensures hs[k].symbol in m' <==> hs[k].symbol in m {}
  }

  lemma {:induction false} AnswersPrefix(ctx: Context, table: InstrumentTable, hs: seq<StdHolding>, i: nat)
    requires DistinctHoldings(hs) && i <= |hs|
    ensures AnsweredUpTo(ctx, table, hs, i, Answers(ctx, table, hs[..i]))
  {
    if i > 0 {
      AnswersPrefix(ctx, table, hs, i - 1);
      AnswersStep(ctx, table, hs, i - 1, Answers(ctx, table, hs[..i - 1]));
      assert hs[..i][..i - 1] == hs[..i - 1];
    }
  }

  lemma AnswersAre(ctx: Context, table: InstrumentTable, hs: seq<StdHolding>)
    requires DistinctHoldings(hs)
    ensures Answers(ctx, table, hs).Keys <= SymbolsOf(hs)
    ensures forall k :: 0 <= k < |hs| ==> EntryIs(Answers(ctx, table, hs), hs[k].symbol, EntryOf(ctx, table, hs[k]))
  {
    AnswersPrefix(ctx, table, hs, |hs|);
    assert hs[..|hs|] == hs;
  }

  lemma AnswersAreUnique(ctx: Context, table: InstrumentTable, hs: seq<StdHolding>, m: Entries)
    requires DistinctHoldings(hs) && m.Keys <= SymbolsOf(hs)
    requires forall k :: 0 <= k < |hs| ==> EntryIs(m, hs[k].symbol, EntryOf(ctx, table, hs[k]))
    ensures m == Answers(ctx, table, hs)
  {
    var a := Answers(ctx, table, hs);
    AnswersAre(ctx, table, hs);
    forall s | s in SymbolsOf(hs) ensures (s in m <==> s in a) && (s in m ==> m[s] == a[s]) {
      var h :| h in hs && h.symbol == s;
      var k :| 0 <= k < |hs| && hs[k] == h;
      assert EntryIs(m, hs[k].symbol, EntryOf(ctx, table, hs[k]));
    }
    assert m.Keys == a.Keys;
  }

  // ---------- every holding has exactly one outcome ----------

  function TimesTold(os: seq<Outcome>, symbol: string): nat {
    if os == [] then 0 else TimesTold(os[..|os| - 1], symbol) + if os[|os| - 1].symbol == symbol then 1 else 0
  }

  function TimesHeld(hs: seq<StdHolding>, symbol: string): nat {
    if hs == [] then 0 else TimesHeld(hs[..|hs| - 1], symbol) + if hs[|hs| - 1].symbol == symbol then 1 else 0
  }

  lemma {:induction false} TimesToldConcat(a: seq<Outcome>, b: seq<Outcome>, symbol: string)
    ensures TimesTold(a + b, symbol) == TimesTold(a, symbol) + TimesTold(b, symbol)
  {
    if b == [] {
      assert a + b == a;
    } else {
      TimesToldConcat(a, b[..|b| - 1], symbol);
      assert (a + b)[..|a + b| - 1] == a + b[..|b| - 1];
    }
  }

  lemma TimesAccounted(ctx: Context, table: InstrumentTable, hs: seq<StdHolding>, symbol: string)
    ensures TimesTold(Account(ctx, table, hs), symbol)
            == TimesTold(Answered(ctx, table, hs, 0), symbol) + TimesTold(Answered(ctx, table, hs, 2), symbol)
               + TimesTold(Answered(ctx, table, hs, 3), symbol) + TimesTold(Answered(ctx, table, hs, 4), symbol)
  {
    var a, b := Answered(ctx, table, hs, 0), Answered(ctx, table, hs, 2);
    var c, d := Answered(ctx, table, hs, 3), Answered(ctx, table, hs, 4);
    TimesToldConcat(a, b, symbol);
    TimesToldConcat(a + b, c, symbol);
    TimesToldConcat(a + b + c, d, symbol);
  }

  lemma OneMoreTold(ctx: Context, table: InstrumentTable, hs: seq<StdHolding>, pass: nat, symbol: string)
    requires hs != []
    ensures var h := hs[|hs| - 1];
            TimesTold(Answered(ctx, table, hs, pass), symbol)
            == TimesTold(Answered(ctx, table, hs[..|hs| - 1], pass), symbol)
               + if PassOf(RouteOf(ctx, h)) == pass && h.symbol == symbol then 1 else 0
  {
    var n := |hs| - 1;
    assert hs[..n + 1] == hs;
    AnsweredSnoc(ctx, table, hs, n, pass);
    var front := Answered(ctx, table, hs[..n], pass);
    assert (front + [OutcomeOf(ctx, table, hs[n])])[..|front|] == front;
  }

  /** A symbol is told as often as it is held: the four passes neither drop a holding nor answer it twice. */
  lemma {:induction false} ToldAsOftenAsHeld(ctx: Context, table: InstrumentTable, hs: seq<StdHolding>, symbol: string)
    ensures TimesTold(Account(ctx, table, hs), symbol) == TimesHeld(hs, symbol)
  {
    TimesAccounted(ctx, table, hs, symbol);
    if hs != [] {
      var front := hs[..|hs| - 1];
      ToldAsOftenAsHeld(ctx, table, front, symbol);
      TimesAccounted(ctx, table, front, symbol);
      OneMoreTold(ctx, table, hs, 0, symbol);
      OneMoreTold(ctx, table, hs, 2, symbol);
      OneMoreTold(ctx, table, hs, 3, symbol);
      OneMoreTold(ctx, table, hs, 4, symbol);
    }
  }

  lemma {:induction false} HeldOnce(hs: seq<StdHolding>, k: nat)
    requires DistinctHoldings(hs) && k < |hs|
    ensures TimesHeld(hs, hs[k].symbol) == 1
  {
    var n := |hs| - 1;
    if k < n {
      HeldOnce(hs[..n], k);
    } else {
      NotHeld(hs[..n], hs[n].symbol);
    }
  }

  lemma {:induction false} NotHeld(hs: seq<StdHolding>, symbol: string)
    requires forall i :: 0 <= i < |hs| ==> hs[i].symbol != symbol
    ensures TimesHeld(hs, symbol) == 0
  {
    if hs != [] { NotHeld(hs[..|hs| - 1], symbol); }
  }

  /** Each holding is told exactly one thing, and the one its rule says, whichever pass told it. */
  lemma OneOutcomeEach(ctx: Context, table: InstrumentTable, hs: seq<StdHolding>, k: nat)
    requires DistinctHoldings(hs) && k < |hs|
    ensures |Account(ctx, table, hs)| == |hs|
    ensures TimesTold(Account(ctx, table, hs), hs[k].symbol) == 1
    ensures forall o :: o in Account(ctx, table, hs) && o.symbol == hs[k].symbol ==>
              o == OutcomeOf(ctx, table, hs[k]) && IsIdentity(ctx, table, hs[k], Hit(o.stock, o.instrument))
  {
    RuleIsTheIndexes(ctx, table, hs[k]);
    AnsweredCount(ctx, table, hs);
    ToldAsOftenAsHeld(ctx, table, hs, hs[k].symbol);
    HeldOnce(hs, k);
    ToldByRule(ctx, table, hs, k, 0);
    ToldByRule(ctx, table, hs, k, 2);
    ToldByRule(ctx, table, hs, k, 3);
    ToldByRule(ctx, table, hs, k, 4);
  }

  /** Whose outcome it is. */
  lemma {:induction false} AnsweredFrom(ctx: Context, table: InstrumentTable, hs: seq<StdHolding>, pass: nat,
                                        o: Outcome)
    returns (j: nat)
    requires o in Answered(ctx, table, hs, pass)
    ensures j < |hs| && o == OutcomeOf(ctx, table, hs[j]) && PassOf(RouteOf(ctx, hs[j])) == pass
  {
    var n := |hs| - 1;
    if PassOf(RouteOf(ctx, hs[n])) == pass && o == OutcomeOf(ctx, table, hs[n]) {
      j := n;
    } else {
      j := AnsweredFrom(ctx, table, hs[..n], pass, o);
    }
  }

  lemma OutcomeNamesItsSymbol(ctx: Context, table: InstrumentTable, h: StdHolding)
    ensures OutcomeOf(ctx, table, h).symbol == h.symbol
  {
  }

  lemma ToldByRule(ctx: Context, table: InstrumentTable, hs: seq<StdHolding>, k: nat, pass: nat)
    requires DistinctHoldings(hs) && k < |hs|
    ensures forall o :: o in Answered(ctx, table, hs, pass) && o.symbol == hs[k].symbol
                        ==> o == OutcomeOf(ctx, table, hs[k])
  {
    forall o | o in Answered(ctx, table, hs, pass) && o.symbol == hs[k].symbol
      ensures o == OutcomeOf(ctx, table, hs[k])
    {
      var j := AnsweredFrom(ctx, table, hs, pass, o);
      OutcomeNamesItsSymbol(ctx, table, hs[j]);
    }
  }

  // ---------- what is inserted ----------

  ghost predicate Admits(ctx: Context, hs: seq<StdHolding>, isin: string) {
    exists h :: h in hs && RouteOf(ctx, h).Bond? && h.symbol !in ctx.faulty && h.isin == isin
  }

  /** The catalogue only grows, by rows without a stock, for the debt ISINs that nothing else identified; each
      created row is reported exactly once. */
  lemma {:induction false} InsertsExactlyTheBonds(ctx: Context, hs: seq<StdHolding>)
    ensures var start, table, made := StartTable(ctx), Table(ctx, hs), Created(ctx, hs);
            && (forall isin :: isin in table <==> isin in start || Admits(ctx, hs, isin))
            && (forall isin :: isin in start ==> table[isin] == start[isin])
            && (forall isin :: isin in made <==> isin in table && isin !in start)
            && (forall isin :: isin in made ==> table[isin] == Instrument(ctx.newId(isin), None))
            && (forall i, j :: 0 <= i < j < |made| ==> made[i] != made[j])
  {
    if hs != [] {
      var front, h := hs[..|hs| - 1], hs[|hs| - 1];
      InsertsExactlyTheBonds(ctx, front);
      AdmitsSnoc(ctx, hs);
    } else {
      assert forall isin :: !Admits(ctx, hs, isin);
    }
  }

  lemma AdmitsSnoc(ctx: Context, hs: seq<StdHolding>)
    requires hs != []
    ensures var h := hs[|hs| - 1];
            forall isin :: Admits(ctx, hs, isin) <==>
              Admits(ctx, hs[..|hs| - 1], isin)
              || (RouteOf(ctx, h).Bond? && h.symbol !in ctx.faulty && h.isin == isin)
  {
    assert hs == hs[..|hs| - 1] + [hs[|hs| - 1]];
  }

  // ---------- a second run ----------

  /** The context of a later run: the catalogue as the first run left it. */
  function Later(ctx: Context, hs: seq<StdHolding>, late: InstrumentTable, faulty: set<string>): Context {
    ctx.(cat := ctx.cat.(instruments := Table(ctx, hs)), late := late, faulty := faulty)
  }

  /** What the first run's catalogue and a later one's failures leave to insert: the bonds whose insert failed
      in the first and does not in the later. */
  ghost predicate LeftToInsert(ctx: Context, hs: seq<StdHolding>, faulty: set<string>, isin: string) {
    isin !in StartTable(ctx) && !Admits(ctx, hs, isin) && Admits(ctx.(faulty := faulty), hs, isin)
  }

  /** A later run routes a holding as before, but for the ISINs that have become catalogue rows. */
  lemma LaterRoute(ctx: Context, hs: seq<StdHolding>, late: InstrumentTable, faulty: set<string>, h: StdHolding)
    ensures var r, table := RouteOf(Later(ctx, hs, late, faulty), h), Table(ctx, hs);
            if h.isin != "" && h.isin in table && table[h.isin].stock.None? then r == Catalogued(table[h.isin].id)
            else r == RouteOf(ctx, h)
  {
    InsertsExactlyTheBonds(ctx, hs);
  }

  /** What is not catalogued yet is admitted later on the same grounds. */
  lemma LaterAdmits(ctx: Context, hs: seq<StdHolding>, late: InstrumentTable, faulty: set<string>, isin: string)
    requires isin !in Table(ctx, hs)
    ensures Admits(Later(ctx, hs, late, faulty), hs, isin) <==> Admits(ctx.(faulty := faulty), hs, isin)
  {
    forall h | h in hs && h.isin == isin
      ensures RouteOf(Later(ctx, hs, late, faulty), h) == RouteOf(ctx, h) == RouteOf(ctx.(faulty := faulty), h)
    {
      LaterRoute(ctx, hs, late, faulty, h);
    }
  }

  /** WHAT A SECOND RUN INSERTS. Over the same holdings, whatever other resolvers did in between and whichever
      inserts fail, a later run creates exactly the bonds the first failed to insert and it does not, unless
      someone else has by then; so none, where all that failed fails again. */
  lemma SecondRunInsertsExactly(ctx: Context, hs: seq<StdHolding>, late: InstrumentTable, faulty: set<string>)
    ensures forall isin :: isin in Created(Later(ctx, hs, late, faulty), hs)
                           <==> LeftToInsert(ctx, hs, faulty, isin) && isin !in late
    ensures ctx.faulty <= faulty ==> Created(Later(ctx, hs, late, faulty), hs) == []
  {
    var ctx' := Later(ctx, hs, late, faulty);
    InsertsExactlyTheBonds(ctx, hs);
    InsertsExactlyTheBonds(ctx', hs);
    forall isin ensures isin in Created(ctx', hs) <==> LeftToInsert(ctx, hs, faulty, isin) && isin !in late {
      if isin !in Table(ctx, hs) { LaterAdmits(ctx, hs, late, faulty, isin); }
    }
    if ctx.faulty <= faulty {
      var made := Created(ctx', hs);
      forall isin ensures !LeftToInsert(ctx, hs, faulty, isin) { NothingLeft(ctx, hs, faulty, isin); }
      SomeMember(made);
    }
  }

  lemma SomeMember(xs: seq<string>)
    ensures xs == [] || exists x :: x in xs
  {
    if xs != [] { assert xs[0] in xs; }
  }

  lemma NothingLeft(ctx: Context, hs: seq<StdHolding>, faulty: set<string>, isin: string)
    requires ctx.faulty <= faulty
    ensures !LeftToInsert(ctx, hs, faulty, isin)
  {
    if Admits(ctx.(faulty := faulty), hs, isin) {
      var h :| h in hs && RouteOf(ctx.(faulty := faulty), h).Bond? && h.symbol !in faulty && h.isin == isin;
      assert RouteOf(ctx, h).Bond?;
      assert Admits(ctx, hs, isin);
    }
  }

  ghost predicate SameMap(ctx: Context, table: InstrumentTable, ctx': Context, table': InstrumentTable,
                          hs: seq<StdHolding>)
  {
    forall h :: h in hs ==> EntryOf(ctx', table', h) == EntryOf(ctx, table, h)
  }

  /** A row that was not there for the first run's reads answers the holding from the second run on. */
  ghost predicate NewlyCatalogued(ctx: Context, hs: seq<StdHolding>, h: StdHolding) {
    && !RouteOf(ctx, h).Catalogued?
    && h.isin != "" && h.isin in Table(ctx, hs) && Table(ctx, hs)[h.isin].stock.None?
  }

  /** The second run answers the holding as the first did: if newly catalogued, the first inserted or met that
      row; if a bond still, the two fail alike. */
  ghost predicate Steady(ctx: Context, hs: seq<StdHolding>, faulty: set<string>, h: StdHolding) {
    if NewlyCatalogued(ctx, hs, h) then RouteOf(ctx, h).Bond? && h.symbol !in ctx.faulty
    else RouteOf(ctx, h).Bond? ==> (h.symbol in ctx.faulty <==> h.symbol in faulty)
  }

  lemma SecondRunEntry(ctx: Context, hs: seq<StdHolding>, late: InstrumentTable, faulty: set<string>, h: StdHolding)
    requires h in hs
    ensures var ctx' := Later(ctx, hs, late, faulty);
            EntryOf(ctx', Table(ctx', hs), h) == EntryOf(ctx, Table(ctx, hs), h) <==> Steady(ctx, hs, faulty, h)
  {
    LaterRoute(ctx, hs, late, faulty, h);
    InsertsExactlyTheBonds(ctx, hs);
    if RouteOf(ctx, h).Bond? { SecondRunOfBond(ctx, hs, late, faulty, h); }
  }

  /** A bond that was inserted is in the catalogue from then on, under the same id. */
  lemma SecondRunOfBond(ctx: Context, hs: seq<StdHolding>, late: InstrumentTable, faulty: set<string>, h: StdHolding)
    requires h in hs && RouteOf(ctx, h).Bond?
    ensures var ctx', table := Later(ctx, hs, late, faulty), Table(ctx, hs);
            && (h.symbol !in ctx.faulty ==> h.isin in table)
            && (h.isin in table ==> h.isin in Table(ctx', hs) && Table(ctx', hs)[h.isin] == table[h.isin])
            && (h.symbol !in faulty ==> h.isin in Table(ctx', hs))
  {
    var ctx' := Later(ctx, hs, late, faulty);
    LaterRoute(ctx, hs, late, faulty, h);
    InsertsExactlyTheBonds(ctx, hs);
    InsertsExactlyTheBonds(ctx', hs);
    if h.symbol !in ctx.faulty { assert Admits(ctx, hs, h.isin); }
    if h.symbol !in faulty && h.isin !in Table(ctx, hs) { assert Admits(ctx', hs, h.isin); }
  }

  /**
   THE SECOND RUN'S MAP. Resolving the same snapshot again, whatever others inserted before or in between and
   whichever inserts failed, gives the same map if and only if every holding is steady.
   */
  lemma SecondRunIsFixedPointExactlyWhen(ctx: Context, hs: seq<StdHolding>, late: InstrumentTable, faulty: set<string>)
    ensures var ctx' := Later(ctx, hs, late, faulty);
            SameMap(ctx, Table(ctx, hs), ctx', Table(ctx', hs), hs)
            <==> forall h :: h in hs ==> Steady(ctx, hs, faulty, h)
  {
    forall h | h in hs
      ensures var ctx' := Later(ctx, hs, late, faulty);
              EntryOf(ctx', Table(ctx', hs), h) == EntryOf(ctx, Table(ctx, hs), h) <==> Steady(ctx, hs, faulty, h)
    {
      SecondRunEntry(ctx, hs, late, faulty, h);
    }
  }

  /** A known ticker whose ISIN the catalogue lacked, shared with a stranger that is admitted as a bond. */
  ghost predicate TickerShadowsBond(ctx: Context, hs: seq<StdHolding>) {
    exists h :: h in hs && RouteOf(ctx, h).Ticker? && h.isin != "" && h.isin !in ctx.cat.instruments
                && Admits(ctx, hs, h.isin)
  }

  /** An admitted ISIN is debt, and no stock has it: a holding that carries it is a known ticker or a bond. */
  lemma AdmittedIsTickerOrBond(ctx: Context, hs: seq<StdHolding>, h: StdHolding)
    requires Admits(ctx, hs, h.isin) && h.isin !in ctx.cat.instruments
    ensures h.isin != "" && (RouteOf(ctx, h).Ticker? || RouteOf(ctx, h).Bond?)
  {
    var g :| g in hs && RouteOf(ctx, g).Bond? && g.symbol !in ctx.faulty && g.isin == h.isin;
  }

  /** Undisturbed, with nobody else inserting and no failed insert, the map is the same unless a known ticker
      shares an uncatalogued ISIN with an admitted bond: the first run valued it as that stock, and every later
      run reads it as the bond. */
  lemma UndisturbedUnlessShadowed(ctx: Context, hs: seq<StdHolding>)
    requires ctx.late == map[] && ctx.faulty == {}
    ensures (forall h :: h in hs ==> Steady(ctx, hs, {}, h)) <==> !TickerShadowsBond(ctx, hs)
  {
    InsertsExactlyTheBonds(ctx, hs);
    forall h | h in hs
      ensures Steady(ctx, hs, {}, h)
              <==> !(RouteOf(ctx, h).Ticker? && h.isin != "" && h.isin !in ctx.cat.instruments
                     && Admits(ctx, hs, h.isin))
    {
      SteadyUnlessShadowed(ctx, hs, h);
    }
  }

  lemma SteadyUnlessShadowed(ctx: Context, hs: seq<StdHolding>, h: StdHolding)
    requires h in hs && ctx.late == map[] && ctx.faulty == {}
    ensures Steady(ctx, hs, {}, h)
            <==> !(RouteOf(ctx, h).Ticker? && h.isin != "" && h.isin !in ctx.cat.instruments && Admits(ctx, hs, h.isin))
  {
    InsertsExactlyTheBonds(ctx, hs);
    if h.isin !in ctx.cat.instruments && h.isin in Table(ctx, hs) {
      AdmittedIsTickerOrBond(ctx, hs, h);
      assert h.isin in Created(ctx, hs);
    }
  }

  /** Such a snapshot: ticker ABC is a known stock, and its row and a stranger's row carry one debt ISIN. */
  lemma SecondRunCanDiffer(cost: real)
    ensures var a := StdHolding("ABC", "INE0", 1.0, cost, None);
            var b := StdHolding("XYZ", "INE0", 1.0, cost, None);
            var ctx := Context(Catalogue(map[], map["ABC" := 5], map[], map[]), (isin: string) => DebtIsin,
                               (isin: string) => 9, map[], {});
            var table := Table(ctx, [a, b]);
            && EntryOf(ctx, table, a) == Some(Hit(Some(5), None))
            && EntryOf(Later(ctx, [a, b], map[], {}), table, a) == Some(Hit(None, Some(9)))
  {
    var a := StdHolding("ABC", "INE0", 1.0, cost, None);
    var b := StdHolding("XYZ", "INE0", 1.0, cost, None);
    var ctx := Context(Catalogue(map[], map["ABC" := 5], map[], map[]), (isin: string) => DebtIsin,
                       (isin: string) => 9, map[], {});
    assert [a, b][..1] == [a] && [a][..0] == [];
    assert Table(ctx, [a]) == StartTable(ctx);
  }

  // ---------- what a sync then reports ----------

  predicate LeftUnmapped(ctx: Context, h: StdHolding) {
    var r := RouteOf(ctx, h);
    r.UncoveredEquity? || r.NoIdentity? || (r.Bond? && h.symbol in ctx.faulty)
  }

  lemma {:induction false} OnlyRowIsLast(hs: seq<StdHolding>, k: nat)
    requires DistinctHoldings(hs) && k < |hs|
    ensures LastFor(hs, hs[k].symbol) == Some(hs[k])
  {
    if k < |hs| - 1 { OnlyRowIsLast(hs[..|hs| - 1], k); }
  }

  lemma EntryIsEmptyIffUnmapped(ctx: Context, hs: seq<StdHolding>, bySymbol: Entries, k: nat)
    requires k < |hs| && EntryIs(bySymbol, hs[k].symbol, EntryOf(ctx, Table(ctx, hs), hs[k]))
    ensures HitFor(bySymbol, hs[k].symbol) == Hit(None, None) <==> LeftUnmapped(ctx, hs[k])
  {
    InsertsExactlyTheBonds(ctx, hs);
    if RouteOf(ctx, hs[k]).Bond? && hs[k].symbol !in ctx.faulty { assert Admits(ctx, hs, hs[k].isin); }
  }

  /** A sync reports as unmapped not only what has no identity but every equity outside the covered universe,
      and a bond whose insert failed; and nothing else. */
  lemma UnmappedExactly(ctx: Context, hs: seq<StdHolding>, bySymbol: Entries, u: nat, c: nat, now: nat, k: nat)
    requires DistinctHoldings(hs) && k < |hs|
    requires EntryIs(bySymbol, hs[k].symbol, EntryOf(ctx, Table(ctx, hs), hs[k]))
    ensures hs[k].symbol in Unmapped(Snapshot(hs, u, c, bySymbol, now)) <==> LeftUnmapped(ctx, hs[k])
  {
    var rows := Snapshot(hs, u, c, bySymbol, now);
    SnapshotIsLastRows(hs, u, c, bySymbol, now);
    UnmappedAreTheUnidentified(rows);
    OnlyRowIsLast(hs, k);
    EntryIsEmptyIffUnmapped(ctx, hs, bySymbol, k);
    var row := RowOf(hs[k], u, c, bySymbol, now);
    assert IsSnapshotRow(row, hs, u, c, bySymbol, now);
    assert row in rows;
  }
}
