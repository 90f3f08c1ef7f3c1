/**
 The bulk read behind an alert pass (src/alerts/eval-pass.ts, assembleReadings, and
 src/filing/read.ts for the filing channel): one sweep over globally sorted tables, refining a
 definition that looks at one stock alone.
 */
module AlertReadings {
  import opened Wrappers
  import Places
  import opened AlertEvaluation

  type StockId = nat
  type SnapshotId = nat

  datatype PriceRow = PriceRow(stock: StockId, price: real)
  datatype Snapshot = Snapshot(id: SnapshotId, stock: StockId, asOf: int, version: int, band: LabelBand)
  datatype PatternRow = PatternRow(snapshot: SnapshotId, key: string)
  datatype FilingRow = FilingRow(stock: StockId, rule: string, fired: bool, newlyStanding: bool)

  /** `snapshots` arrives newest first over all stocks; `filings` arrives, for each stock, current
      period first. Both orders are asked of the database. */
  datatype Tables = Tables(
    prices: seq<PriceRow>, snapshots: seq<Snapshot>, patterns: seq<PatternRow>, filings: seq<FilingRow>)

  /** The suppression lists a score-channel key must pass. */
  datatype Suppression = Suppression(retired: set<string>, filing: set<string>)

  const NOT_COVERED_PREFIX: string := "notcovered_"

  predicate Kept(sup: Suppression, key: string) {
    key !in sup.retired && !(NOT_COVERED_PREFIX <= key) && key !in sup.filing
  }

  // ---------- one stock on its own ----------

  predicate AtLeastAsNew(a: Snapshot, b: Snapshot) {
    a.asOf > b.asOf || (a.asOf == b.asOf && a.version >= b.version)
  }

  ghost predicate NewestFirst(snaps: seq<Snapshot>) {
    forall i, j :: 0 <= i < j < |snaps| ==> AtLeastAsNew(snaps[i], snaps[j])
  }

  function LastPrice(prices: seq<PriceRow>, s: StockId): Option<real> {
    if prices == [] then None
    else
      var n := |prices| - 1;
      if prices[n].stock == s then Some(prices[n].price) else LastPrice(prices[..n], s)
  }

  function OfStock(snaps: seq<Snapshot>, s: StockId): seq<Snapshot> {
    if snaps == [] then []
    else
      var n := |snaps| - 1;
      OfStock(snaps[..n], s) + (if snaps[n].stock == s then [snaps[n]] else [])
  }

  function FirstTwo<T>(xs: seq<T>): seq<T> { if |xs| <= 2 then xs else xs[..2] }

  function KeysOn(patterns: seq<PatternRow>, sup: Suppression, id: SnapshotId): set<string> {
    set p | p in patterns && p.snapshot == id && Kept(sup, p.key) :: p.key
  }

  /** The filing rows of one (stock, rule) pair, current period first. */
  function OfPair(rows: seq<FilingRow>, s: StockId, k: string): seq<FilingRow> {
    if rows == [] then []
    else
      var n := |rows| - 1;
      OfPair(rows[..n], s, k) + (if IsPair(rows[n], s, k) then [rows[n]] else [])
  }

  /** A filing finding newly appeared: the pair's current row is fired and newly standing, and an older
      row of the pair exists for it to have moved from. */
  predicate Transitioned(rows: seq<FilingRow>, s: StockId, k: string) {
    var own := OfPair(rows, s, k);
    |own| >= 2 && own[0].fired && own[0].newlyStanding
  }

  /** The stamp each row of a pair is written with: newly standing when it fires and the row before it did not. */
  ghost predicate StampedAgainstPrior(rows: seq<FilingRow>, s: StockId, k: string) {
    var own := OfPair(rows, s, k);
    forall i :: 0 <= i < |own| ==>
      (own[i].newlyStanding <==> own[i].fired && !(i + 1 < |own| && own[i + 1].fired))
  }

  /** Of rows so stamped, a finding newly appeared when the current one fires and the one before it did not. */
  lemma TransitionedIsFiredAnew(rows: seq<FilingRow>, s: StockId, k: string)
    requires StampedAgainstPrior(rows, s, k)
    ensures var own := OfPair(rows, s, k);
            Transitioned(rows, s, k) <==> |own| >= 2 && own[0].fired && !own[1].fired
  {
  }

  predicate IsPair(r: FilingRow, s: StockId, k: string) { r.stock == s && r.rule == k }

  ghost function ScoreKeys(t: Tables, sup: Suppression, s: StockId): set<string> {
    var own := OfStock(t.snapshots, s);
    if |own| < 2 then {} else KeysOn(t.patterns, sup, own[0].id) - KeysOn(t.patterns, sup, own[1].id)
  }

  ghost function FilingKeys(t: Tables, s: StockId): set<string> {
    set k | k in RulesOf(t.filings) && Transitioned(t.filings, s, k)
  }

  ghost function RulesOf(rows: seq<FilingRow>): set<string> { set r | r in rows :: r.rule }

  ghost function ReadingOf(t: Tables, sup: Suppression, s: StockId): StockReading {
    var own := OfStock(t.snapshots, s);
    StockReading(
      LastPrice(t.prices, s),
      if own == [] then None else Some(own[0].band),
      own != [],
      ScoreKeys(t, sup, s) + FilingKeys(t, s))
  }

  // ---------- what the per-stock definition means ----------

  function OfItsStock(s: StockId): Snapshot -> bool { (x: Snapshot) => x.stock == s }

  lemma {:induction false} OfStockPositions(snaps: seq<Snapshot>, s: StockId) returns (at: seq<nat>)
    ensures Places.Are(snaps, OfItsStock(s), at) && |at| == |OfStock(snaps, s)|
    ensures forall i :: 0 <= i < |at| ==> snaps[at[i]] == OfStock(snaps, s)[i]
  {
    if snaps == [] {
      at := [];
    } else {
      var front, x := snaps[..|snaps| - 1], snaps[|snaps| - 1];
      var before := OfStockPositions(front, s);
      assert snaps == front + [x];
      Places.AreMore(front, x, OfItsStock(s), before);
      at := if x.stock == s then before + [|front|] else before;
      forall i | 0 <= i < |at| ensures snaps[at[i]] == OfStock(snaps, s)[i] {
        if i < |before| { assert front[before[i]] == OfStock(front, s)[i]; }
      }
    }
  }

  /** With the tables newest first, the two snapshots a reading compares are the stock's two greatest:
      nothing of the stock is newer than the first, and nothing but the first is newer than the second. */
  lemma TwoGreatestSnapshots(snaps: seq<Snapshot>, s: StockId)
    requires NewestFirst(snaps)
    ensures var own := OfStock(snaps, s);
            && (own == [] <==> forall x :: x in snaps ==> x.stock != s)
            && (own != [] ==> own[0] in snaps && own[0].stock == s
                              && forall x :: x in snaps && x.stock == s ==> AtLeastAsNew(own[0], x))
            && (|own| >= 2 ==> exists p, q ::
                  && 0 <= p < q < |snaps| && snaps[p] == own[0] && snaps[q] == own[1]
                  && forall k :: 0 <= k < |snaps| && k != p && snaps[k].stock == s ==> AtLeastAsNew(own[1], snaps[k]))
  {
    FirstIsGreatest(snaps, s);
    if |OfStock(snaps, s)| >= 2 { var p, q := SecondIsGreatest(snaps, s); }
  }

  lemma FirstIsGreatest(snaps: seq<Snapshot>, s: StockId)
    requires NewestFirst(snaps)
    ensures var own := OfStock(snaps, s);
            && (own == [] <==> forall x :: x in snaps ==> x.stock != s)
            && (own != [] ==> own[0] in snaps && own[0].stock == s
                              && forall x :: x in snaps && x.stock == s ==> AtLeastAsNew(own[0], x))
  {
    var own := OfStock(snaps, s);
    var at := OfStockPositions(snaps, s);
    forall x | x in snaps && x.stock == s ensures own != [] && AtLeastAsNew(own[0], x) {
      var k :| 0 <= k < |snaps| && snaps[k] == x;
      NoneNewer(snaps, s, at, k);
    }
    if own != [] { assert own[0] == snaps[at[0]] && OfItsStock(s)(snaps[at[0]]); }
  }

  lemma SecondIsGreatest(snaps: seq<Snapshot>, s: StockId) returns (p: nat, q: nat)
    requires NewestFirst(snaps) && |OfStock(snaps, s)| >= 2
    ensures p < q < |snaps| && snaps[p] == OfStock(snaps, s)[0] && snaps[q] == OfStock(snaps, s)[1]
    ensures forall k :: 0 <= k < |snaps| && k != p && snaps[k].stock == s ==> AtLeastAsNew(snaps[q], snaps[k])
  {
    var at := OfStockPositions(snaps, s);
    p, q := at[0], at[1];
    forall k | 0 <= k < |snaps| && k != p && snaps[k].stock == s ensures AtLeastAsNew(snaps[q], snaps[k]) {
      NoneNewer(snaps, s, at, k);
    }
  }

  lemma NoneNewer(snaps: seq<Snapshot>, s: StockId, at: seq<nat>, k: nat)
    requires NewestFirst(snaps) && Places.Are(snaps, OfItsStock(s), at) && k < |snaps| && snaps[k].stock == s
    ensures at != [] && AtLeastAsNew(snaps[at[0]], snaps[k])
    ensures |at| >= 2 && k != at[0] ==> AtLeastAsNew(snaps[at[1]], snaps[k])
  {
    assert k in at;
    var i :| 0 <= i < |at| && at[i] == k;
    if at[0] < k { assert AtLeastAsNew(snaps[at[0]], snaps[k]); }
    if |at| >= 2 && at[1] < k { assert AtLeastAsNew(snaps[at[1]], snaps[k]); }
  }

  /** No retired, not-covered or filing-owned key ever comes from the score channel, and a stock with at
      most one snapshot has no new score key at all. */
  lemma ScoreChannelIsFiltered(t: Tables, sup: Suppression, s: StockId, k: string)
    ensures k in ScoreKeys(t, sup, s) <==>
              var own := OfStock(t.snapshots, s);
              && |own| >= 2 && Kept(sup, k)
              && PatternRow(own[0].id, k) in t.patterns && PatternRow(own[1].id, k) !in t.patterns
  {
    var own := OfStock(t.snapshots, s);
    if |own| >= 2 {
      forall id ensures k in KeysOn(t.patterns, sup, id) <==> PatternRow(id, k) in t.patterns && Kept(sup, k) {
        if PatternRow(id, k) in t.patterns {
          assert PatternRow(id, k).key == k;
        }
      }
    }
  }

  // ---------- a reading, told from the tables alone ----------

  /** Place `p` is the stock's first row. */
  predicate FirstOf(snaps: seq<Snapshot>, s: StockId, p: nat) {
    p < |snaps| && snaps[p].stock == s && forall j :: 0 <= j < p ==> snaps[j].stock != s
  }

  /** Places `p` and `q` are its first two. */
  predicate FirstTwoOf(snaps: seq<Snapshot>, s: StockId, p: nat, q: nat) {
    && p < q < |snaps| && snaps[p].stock == snaps[q].stock == s
    && forall j :: 0 <= j < q && j != p ==> snaps[j].stock != s
  }

  predicate FirstTwoOfPair(rows: seq<FilingRow>, s: StockId, k: string, p: nat, q: nat) {
    && p < q < |rows| && rows[p].stock == rows[q].stock == s && rows[p].rule == rows[q].rule == k
    && forall j :: 0 <= j < q && j != p ==> !(rows[j].stock == s && rows[j].rule == k)
  }

  /** The close is the price of the stock's last row, if it has any. */
  ghost predicate IsClose(prices: seq<PriceRow>, s: StockId, close: Option<real>) {
    match close
    case None => forall j :: 0 <= j < |prices| ==> prices[j].stock != s
    case Some(price) =>
      exists p :: 0 <= p < |prices| && prices[p].stock == s && prices[p].price == price
                  && forall j :: p < j < |prices| ==> prices[j].stock != s
  }

  /** The key stands on the stock's first snapshot row and not on its second, which is there, and is none of the
      suppressed. */
  ghost predicate AppearsInScore(t: Tables, sup: Suppression, s: StockId, k: string) {
    && k !in sup.retired && k !in sup.filing && !("notcovered_" <= k)
    && exists p: nat, q: nat ::
         && FirstTwoOf(t.snapshots, s, p, q)
         && PatternRow(t.snapshots[p].id, k) in t.patterns && PatternRow(t.snapshots[q].id, k) !in t.patterns
  }

  /** The pair's first filing row is fired and newly standing, and there is a second. */
  ghost predicate AppearsInFilings(rows: seq<FilingRow>, s: StockId, k: string) {
    exists p: nat, q: nat ::
      FirstTwoOfPair(rows, s, k, p, q) && rows[p].fired && rows[p].newlyStanding
  }

  ghost predicate IsReading(t: Tables, sup: Suppression, s: StockId, r: StockReading) {
    && IsClose(t.prices, s, r.close)
    && (r.scored <==> exists p: nat :: FirstOf(t.snapshots, s, p))
    && (r.band.Some? <==> r.scored)
    && (forall p: nat :: FirstOf(t.snapshots, s, p) ==> r.band == Some(t.snapshots[p].band))
    && forall k :: k in r.newFindingKeys <==> AppearsInScore(t, sup, s, k) || AppearsInFilings(t.filings, s, k)
  }

  lemma {:induction false} LastPriceIsClose(prices: seq<PriceRow>, s: StockId)
    ensures IsClose(prices, s, LastPrice(prices, s))
  {
    if prices != [] {
      var n := |prices| - 1;
      LastPriceIsClose(prices[..n], s);
      if prices[n].stock != s && LastPrice(prices, s).Some? {
        var p :| 0 <= p < n && prices[..n][p].stock == s && prices[..n][p].price == LastPrice(prices, s).value
                 && forall j :: p < j < n ==> prices[..n][j].stock != s;
        assert prices[p] == prices[..n][p];
        forall j | p < j < |prices| ensures prices[j].stock != s { if j < n { assert prices[j] == prices[..n][j]; } }
      }
      forall j | 0 <= j < n ensures prices[j] == prices[..n][j] {}
    }
  }

  lemma NoneBetween(at: seq<nat>, j: nat)
    requires forall i, k :: 0 <= i < k < |at| ==> at[i] < at[k]
    ensures |at| > 0 && j < at[0] ==> j !in at
    ensures |at| > 1 && at[0] < j < at[1] ==> j !in at
  {
  }

  lemma OfStockIsNext(snaps: seq<Snapshot>, s: StockId)
    ensures var own := OfStock(snaps, s);
            && (forall p: nat :: FirstOf(snaps, s, p) ==> own != [] && snaps[p] == own[0])
            && (own != [] ==> exists p: nat :: FirstOf(snaps, s, p))
            && (forall p: nat, q: nat :: FirstTwoOf(snaps, s, p, q) ==>
                  |own| >= 2 && snaps[q] == own[1])
            && (|own| >= 2 ==> exists p: nat, q: nat :: FirstTwoOf(snaps, s, p, q))
  {
    var own := OfStock(snaps, s);
    var at := OfStockPositions(snaps, s);
    if own != [] {
      forall j | 0 <= j < at[0] ensures snaps[j].stock != s { NoneBetween(at, j); }
      assert FirstOf(snaps, s, at[0]);
    }
    if |own| >= 2 {
      forall j | 0 <= j < at[1] && j != at[0] ensures snaps[j].stock != s { NoneBetween(at, j); }
      assert FirstTwoOf(snaps, s, at[0], at[1]);
    }
    forall p: nat | FirstOf(snaps, s, p) ensures own != [] && p == at[0] { assert p in at; }
    forall p: nat, q: nat | FirstTwoOf(snaps, s, p, q) ensures |own| >= 2 && q == at[1] {
      assert q in at;
      var i :| 0 <= i < |at| && at[i] == q;
    }
  }

  function OfItsPair(s: StockId, k: string): FilingRow -> bool { (r: FilingRow) => IsPair(r, s, k) }

  lemma {:induction false} OfPairPositions(rows: seq<FilingRow>, s: StockId, k: string) returns (at: seq<nat>)
    ensures Places.Are(rows, OfItsPair(s, k), at) && |at| == |OfPair(rows, s, k)|
    ensures forall i :: 0 <= i < |at| ==> rows[at[i]] == OfPair(rows, s, k)[i]
  {
    if rows == [] {
      at := [];
    } else {
      var front, r := rows[..|rows| - 1], rows[|rows| - 1];
      var before := OfPairPositions(front, s, k);
      assert rows == front + [r];
      Places.AreMore(front, r, OfItsPair(s, k), before);
      at := if IsPair(r, s, k) then before + [|front|] else before;
      forall i | 0 <= i < |at| ensures rows[at[i]] == OfPair(rows, s, k)[i] {
        if i < |before| { assert front[before[i]] == OfPair(front, s, k)[i]; }
      }
    }
  }

  lemma TransitionedAppears(rows: seq<FilingRow>, s: StockId, k: string)
    ensures Transitioned(rows, s, k) <==> AppearsInFilings(rows, s, k)
  {
    var own := OfPair(rows, s, k);
    var at := OfPairPositions(rows, s, k);
    if Transitioned(rows, s, k) {
      forall j | 0 <= j < at[1] && j != at[0] ensures !IsPair(rows[j], s, k) { NoneBetween(at, j); }
      assert FirstTwoOfPair(rows, s, k, at[0], at[1]);
    }
    if AppearsInFilings(rows, s, k) {
      var p: nat, q: nat :|
        FirstTwoOfPair(rows, s, k, p, q) && rows[p].fired && rows[p].newlyStanding;
      assert p in at && q in at;
      var i, j :| 0 <= i < |at| && 0 <= j < |at| && at[i] == p && at[j] == q;
      assert at[0] == p;
    }
  }

  lemma ScoreKeysAppear(t: Tables, sup: Suppression, s: StockId, k: string)
    ensures k in ScoreKeys(t, sup, s) <==> AppearsInScore(t, sup, s, k)
  {
    OfStockIsNext(t.snapshots, s);
    ScoreChannelIsFiltered(t, sup, s, k);
    var own := OfStock(t.snapshots, s);
    if |own| >= 2 {
      var p: nat, q: nat :| FirstTwoOf(t.snapshots, s, p, q);
      assert t.snapshots[p] == own[0] && t.snapshots[q] == own[1];
    }
  }

  /** THE READING OF A STOCK: its last close; the band of its first snapshot row; what stands on that row and not on
      its second; what its filings newly show. */
  lemma ReadingOfIs(t: Tables, sup: Suppression, s: StockId)
    ensures IsReading(t, sup, s, ReadingOf(t, sup, s))
  {
    LastPriceIsClose(t.prices, s);
    OfStockIsNext(t.snapshots, s);
    forall k
      ensures k in ScoreKeys(t, sup, s) + FilingKeys(t, s)
              <==> AppearsInScore(t, sup, s, k) || AppearsInFilings(t.filings, s, k)
    {
      ScoreKeysAppear(t, sup, s, k);
      TransitionedAppears(t.filings, s, k);
      if Transitioned(t.filings, s, k) { PairIsRuled(t.filings, s, k); }
    }
  }

  lemma PairIsRuled(rows: seq<FilingRow>, s: StockId, k: string)
    requires OfPair(rows, s, k) != []
    ensures k in RulesOf(rows)
  {
    var at := OfPairPositions(rows, s, k);
    assert rows[at[0]] in rows;
  }

  predicate NewerThan(a: Snapshot, b: Snapshot) { a.asOf > b.asOf || (a.asOf == b.asOf && a.version > b.version) }

  /** Of snapshots asked for newest first, no other of the stock is newer than its first row, and no other but that
      one is newer than its second. */
  lemma NextRowsAreNewest(snaps: seq<Snapshot>, s: StockId, p: nat, q: nat, x: Snapshot)
    requires NewestFirst(snaps) && FirstOf(snaps, s, p) && x in snaps && x.stock == s
    ensures !NewerThan(x, snaps[p])
    ensures FirstTwoOf(snaps, s, p, q) && x != snaps[p] ==> !NewerThan(x, snaps[q])
  {
    var j :| 0 <= j < |snaps| && snaps[j] == x;
    if j > p { assert AtLeastAsNew(snaps[p], snaps[j]); }
    if FirstTwoOf(snaps, s, p, q) && j > q { assert AtLeastAsNew(snaps[q], snaps[j]); }
  }

  /**
   THE NEWEST DECIDES. With the snapshots asked for newest first, a stock is scored if and only if it has one, and its
   band is then that of a snapshot of its no other is newer than.
   */
  lemma ReadingIsOfTheNewest(t: Tables, sup: Suppression, s: StockId)
    requires NewestFirst(t.snapshots)
    ensures ReadingOf(t, sup, s).scored <==> exists x :: x in t.snapshots && x.stock == s
    ensures ReadingOf(t, sup, s).band.Some? <==> ReadingOf(t, sup, s).scored
    ensures ReadingOf(t, sup, s).band.Some? ==>
              exists x :: x in t.snapshots && x.stock == s && ReadingOf(t, sup, s).band == Some(x.band)
                          && forall y :: y in t.snapshots && y.stock == s ==> !NewerThan(y, x)
  {
    ReadingOfIs(t, sup, s);
    OfStockIsNext(t.snapshots, s);
    if ReadingOf(t, sup, s).scored {
      var p: nat :| FirstOf(t.snapshots, s, p);
      assert t.snapshots[p] in t.snapshots;
      forall y | y in t.snapshots && y.stock == s ensures !NewerThan(y, t.snapshots[p]) {
        NextRowsAreNewest(t.snapshots, s, p, p, y);
      }
    }
    TwoGreatestSnapshots(t.snapshots, s);
  }

  // ---------- the bulk loops ----------

  function Get<K, V>(m: map<K, seq<V>>, k: K): seq<V> { if k in m then m[k] else [] }

  function GetSet<K, V>(m: map<K, set<V>>, k: K): set<V> { if k in m then m[k] else {} }

  function PushUpToTwo(arr: seq<Snapshot>, s: Snapshot): seq<Snapshot> {
    if |arr| < 2 then arr + [s] else arr
  }

  lemma GroupStep(snaps: seq<Snapshot>, s: Snapshot, t: StockId)
    ensures FirstTwo(OfStock(snaps + [s], t))
         == if s.stock == t then PushUpToTwo(FirstTwo(OfStock(snaps, t)), s) else FirstTwo(OfStock(snaps, t))
  {
    var own := OfStock(snaps, t);
    assert (snaps + [s])[..|snaps|] == snaps;
    if s.stock == t {
      assert OfStock(snaps + [s], t) == own + [s];
      if |own| >= 2 {
        assert FirstTwo(own + [s]) == own[..2];
      }
    } else {
      assert OfStock(snaps + [s], t) == own;
    }
  }

  /** The first two snapshots seen per stock, in one sweep. */
  method GroupSnapshots(snaps: seq<Snapshot>, stocks: set<StockId>) returns (grouped: map<StockId, seq<Snapshot>>)
    ensures forall s :: s in stocks ==> Get(grouped, s) == FirstTwo(OfStock(snaps, s))
  {
    grouped := map[];
    for i := 0 to |snaps|
      invariant forall s :: s in stocks ==> Get(grouped, s) == FirstTwo(OfStock(snaps[..i], s))
    {
      var s := snaps[i];
      assert snaps[..i + 1] == snaps[..i] + [s];
      forall t | t in stocks
        ensures FirstTwo(OfStock(snaps[..i + 1], t))
             == if s.stock == t then PushUpToTwo(Get(grouped, t), s) else Get(grouped, t)
      {
        GroupStep(snaps[..i], s, t);
      }
      if s.stock in stocks {
        var arr := Get(grouped, s.stock);
        if |arr| < 2 {
          grouped := grouped[s.stock := arr + [s]];
        }
      }
    }
    assert snaps[..|snaps|] == snaps;
  }

  method GroupKeys(patterns: seq<PatternRow>, sup: Suppression, ids: set<SnapshotId>)
    returns (grouped: map<SnapshotId, set<string>>)
    ensures forall id :: id in ids ==> GetSet(grouped, id) == KeysOn(patterns, sup, id)
  {
    grouped := map[];
    for i := 0 to |patterns|
      invariant forall id :: id in ids ==> GetSet(grouped, id) == KeysOn(patterns[..i], sup, id)
    {
      var p := patterns[i];
      assert patterns[..i + 1] == patterns[..i] + [p];
      forall id | id in ids
        ensures KeysOn(patterns[..i + 1], sup, id)
             == KeysOn(patterns[..i], sup, id) + (if p.snapshot == id && Kept(sup, p.key) then {p.key} else {})
      {
      }
      if p.snapshot in ids && Kept(sup, p.key) {
        grouped := grouped[p.snapshot := GetSet(grouped, p.snapshot) + {p.key}];
      }
    }
    assert patterns[..|patterns|] == patterns;
  }

  predicate Candidate(rows: seq<FilingRow>, s: StockId, k: string) {
    var own := OfPair(rows, s, k);
    |own| == 1 && own[0].fired && own[0].newlyStanding
  }

  /** What the sweep's three tables should say about one pair after `rows`. */
  ghost predicate PairTracked(rows: seq<FilingRow>, s: StockId, k: string, seen: bool, newly: bool, out: bool) {
    && (seen <==> OfPair(rows, s, k) != [])
    && (newly <==> Candidate(rows, s, k))
    && (out <==> Transitioned(rows, s, k))
  }

  lemma PairStep(rows: seq<FilingRow>, r: FilingRow, s: StockId, k: string, seen: bool, newly: bool, out: bool)
    requires PairTracked(rows, s, k, seen, newly, out)
    ensures if !IsPair(r, s, k) then PairTracked(rows + [r], s, k, seen, newly, out)
            else if !seen then PairTracked(rows + [r], s, k, true, r.fired && r.newlyStanding, out)
            else PairTracked(rows + [r], s, k, true, false, out || newly)
  {
    assert (rows + [r])[..|rows|] == rows;
    assert OfPair(rows + [r], s, k) == OfPair(rows, s, k) + (if IsPair(r, s, k) then [r] else []);
  }

  /** The filing channel's transitions, in one sweep with a seen-set and a candidate set. */
  method NewlyStandingFilingKeys(rows: seq<FilingRow>, stocks: set<StockId>)
    returns (out: map<StockId, set<string>>)
    ensures forall s, k :: s in stocks ==> (k in GetSet(out, s) <==> Transitioned(rows, s, k))
  {
    out := map[];
    var seen: set<(StockId, string)> := {};
    var newly: set<(StockId, string)> := {};
    for i := 0 to |rows|
      invariant forall s, k :: s in stocks ==>
                  PairTracked(rows[..i], s, k, (s, k) in seen, (s, k) in newly, k in GetSet(out, s))
    {
      var r := rows[i];
      var pair := (r.stock, r.rule);
      ghost var seen0, newly0, out0 := seen, newly, out;
      if r.stock in stocks {
        if pair !in seen {
          seen := seen + {pair};
          if r.fired && r.newlyStanding {
            newly := newly + {pair};
          }
        } else if pair in newly {
          newly := newly - {pair};
          out := out[r.stock := GetSet(out, r.stock) + {r.rule}];
        }
      }
      assert rows[..i + 1] == rows[..i] + [r];
      forall s, k | s in stocks
        ensures PairTracked(rows[..i + 1], s, k, (s, k) in seen, (s, k) in newly, k in GetSet(out, s))
      {
        PairStep(rows[..i], r, s, k, (s, k) in seen0, (s, k) in newly0, k in GetSet(out0, s));
        if !IsPair(r, s, k) {
          assert (s, k) != pair;
        }
      }
    }
    assert rows[..|rows|] == rows;
    forall s, k | s in stocks ensures k in GetSet(out, s) <==> Transitioned(rows, s, k) {
      assert PairTracked(rows, s, k, (s, k) in seen, (s, k) in newly, k in GetSet(out, s));
    }
  }

  lemma {:induction false} PairRowsAreRows(rows: seq<FilingRow>, s: StockId, k: string)
    ensures forall r :: r in OfPair(rows, s, k) ==> r in rows && IsPair(r, s, k)
  {
    if rows != [] {
      PairRowsAreRows(rows[..|rows| - 1], s, k);
    }
  }

  method LatestCloses(prices: seq<PriceRow>) returns (close: map<StockId, real>)
    ensures forall s :: (s in close <==> LastPrice(prices, s).Some?)
    ensures forall s :: s in close ==> LastPrice(prices, s) == Some(close[s])
  {
    close := map[];
    for i := 0 to |prices|
      invariant forall s :: (s in close <==> LastPrice(prices[..i], s).Some?)
      invariant forall s :: s in close ==> LastPrice(prices[..i], s) == Some(close[s])
    {
      assert prices[..i + 1][..i] == prices[..i];
      close := close[prices[i].stock := prices[i].price];
    }
    assert prices[..|prices|] == prices;
  }

  /** What the sweeps over the four tables leave behind. */
  datatype Sweeps = Sweeps(
    close: map<StockId, real>, grouped: map<StockId, seq<Snapshot>>,
    keys: map<SnapshotId, set<string>>, filing: map<StockId, set<string>>)

  ghost predicate SweptFor(sw: Sweeps, t: Tables, sup: Suppression, s: StockId) {
    && (s in sw.close <==> LastPrice(t.prices, s).Some?)
    && (s in sw.close ==> LastPrice(t.prices, s) == Some(sw.close[s]))
    && Get(sw.grouped, s) == FirstTwo(OfStock(t.snapshots, s))
    && (forall x :: x in Get(sw.grouped, s) ==> GetSet(sw.keys, x.id) == KeysOn(t.patterns, sup, x.id))
    && GetSet(sw.filing, s) == FilingKeys(t, s)
  }

  /** The last step for one stock: put the sweeps together. */
  function AssembleOne(s: StockId, sw: Sweeps): StockReading {
    var snaps := Get(sw.grouped, s);
    var newKeys :=
      if |snaps| >= 2 then GetSet(sw.keys, snaps[0].id) - GetSet(sw.keys, snaps[1].id) else {};
    StockReading(
      if s in sw.close then Some(sw.close[s]) else None,
      if snaps == [] then None else Some(snaps[0].band),
      snaps != [],
      newKeys + GetSet(sw.filing, s))
  }

  lemma FilingKeysAreTransitions(t: Tables, s: StockId, found: set<string>)
    requires forall k :: k in found <==> Transitioned(t.filings, s, k)
    ensures found == FilingKeys(t, s)
  {
    forall k | Transitioned(t.filings, s, k) ensures k in RulesOf(t.filings) {
      PairRowsAreRows(t.filings, s, k);
      assert OfPair(t.filings, s, k)[0] in t.filings;
    }
  }

  lemma AssembleOneIsReading(s: StockId, t: Tables, sup: Suppression, sw: Sweeps)
    requires SweptFor(sw, t, sup, s)
    ensures AssembleOne(s, sw) == ReadingOf(t, sup, s)
  {
    var snaps := Get(sw.grouped, s);
    if |snaps| >= 2 {
      assert snaps[0] in snaps && snaps[1] in snaps;
    }
  }

  method SweepTables(stocks: set<StockId>, t: Tables, sup: Suppression) returns (sw: Sweeps)
    ensures forall s :: s in stocks ==> SweptFor(sw, t, sup, s)
  {
    var filing := NewlyStandingFilingKeys(t.filings, stocks);
    var close := LatestCloses(t.prices);
    var grouped := GroupSnapshots(t.snapshots, stocks);
    var ids := set s, x: Snapshot | s in stocks && x in Get(grouped, s) :: x.id;
    var keys := GroupKeys(t.patterns, sup, ids);
    forall s | s in stocks ensures GetSet(filing, s) == FilingKeys(t, s) {
      FilingKeysAreTransitions(t, s, GetSet(filing, s));
    }
    sw := Sweeps(close, grouped, keys, filing);
  }

  method AssembleAll(stockIds: seq<StockId>, sw: Sweeps) returns (out: map<StockId, StockReading>)
    ensures out.Keys == set s | s in stockIds
    ensures forall s :: s in stockIds ==> out[s] == AssembleOne(s, sw)
  {
    out := map[];
    for i := 0 to |stockIds|
      invariant out.Keys == set s | s in stockIds[..i]
      invariant forall s :: s in stockIds[..i] ==> out[s] == AssembleOne(s, sw)
    {
      var s := stockIds[i];
      out := out[s := AssembleOne(s, sw)];
      assert stockIds[..i + 1] == stockIds[..i] + [s];
    }
    assert stockIds[..|stockIds|] == stockIds;
  }

  /** One pass over each table produces, for every stock asked for, exactly its own reading. */
  method AssembleReadings(stockIds: seq<StockId>, t: Tables, sup: Suppression)
    returns (out: map<StockId, StockReading>)
    ensures out.Keys == set s | s in stockIds
    ensures forall s :: s in stockIds ==> out[s] == ReadingOf(t, sup, s) && IsReading(t, sup, s, out[s])
  {
    if stockIds == [] { return map[]; }
    var sw := SweepTables((set s | s in stockIds), t, sup);
    forall s | s in stockIds
      ensures AssembleOne(s, sw) == ReadingOf(t, sup, s) && IsReading(t, sup, s, AssembleOne(s, sw))
    {
      AssembleOneIsReading(s, t, sup, sw);
      ReadingOfIs(t, sup, s);
    }
    out := AssembleAll(stockIds, sw);
  }
}
