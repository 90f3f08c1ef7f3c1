/**
 The broker tables and the operations on them, as functions on one store value.

 Sources: src/brokers/lifecycle.ts (sever, resume, persist, integrate, complete, clear),
 src/controllers/me/accounts-controller.ts (create, patch, link, unlink, delete), src/portfolio/transfer.ts
 (the rescue of a linked account) and src/brokers/security/state-store.ts (single-use authorization states).
 */
module BrokerModel {
  import opened Wrappers
  import F = FifoLedger

  type UserId = nat
  type ConnId = nat
  type AccountId = nat
  type Broker = string
  type Time = nat

  /** The not-at-a-broker label: an account carrying it can never be linked. */
  const OTHER: Broker := "other"

  datatype AccountState = Manual | LinkedLive | LinkedStale

  datatype Disclaimer = Disclaimer(version: string, acceptedAt: Time)

  datatype Conn = Conn(
    user: UserId, broker: Broker, ref: string, enabled: bool, sessionLive: bool, token: nat,
    disclaimer: Disclaimer, lastSyncedAt: Option<Time>)

  datatype Account = Account(
    user: UserId, broker: Broker, name: string, conn: Option<ConnId>, state: AccountState)

  datatype BrokerHolding = BrokerHolding(
    user: UserId, conn: ConnId, symbol: string, stock: Option<nat>, instrument: Option<nat>,
    quantity: real, avgCost: real, currentValue: Option<real>, syncedAt: Time)

  datatype ManualHolding = ManualHolding(
    id: nat, user: UserId, account: AccountId, instrument: nat, stock: Option<nat>, symbol: string,
    quantity: real, avgCost: real, invested: real, realized: real)

  datatype AuthState = AuthState(user: UserId, broker: Broker, disclaimer: Disclaimer, expiresAt: Time, consumed: bool)

  datatype Store = Store(
    conns: map<ConnId, Conn>,
    accounts: map<AccountId, Account>,
    holdings: seq<BrokerHolding>,
    manual: seq<ManualHolding>,
    auth: map<string, AuthState>)

  const EMPTY_STORE := Store(map[], map[], [], [], map[])

  datatype Code =
    | UnsupportedBroker | NotInteractive | DisclaimerRequired | NotFound | InvalidState
    | ConfirmationRequired | SessionDead | StateInvalid | ExchangeFailed | AccountRefMissing
    | AccountNotLinked | WrongDemat | NotLinkable | AlreadyLinked | BrokerMismatch | NotLinked
    | AccountLinked | LastAccount | DuplicateName | NothingToUpdate | SameAccount | DestinationLinked
    | NothingToRescue | Unrescuable | Unexpected

  datatype Reply = Done(conn: ConnId) | Cleared(wiped: nat) | Changed(account: AccountId) | Refused(code: Code)

  /** Which brokers have an adapter, and which of those authenticate interactively. */
  datatype Registry = Registry(implemented: set<Broker>, interactive: set<Broker>)

  /** What a token exchange came back with. `ref` is the demat that actually logged in. */
  datatype Exchange = Session(ref: Option<string>, token: nat) | RejectedByBroker | Faulted

  /** The liveness probe and the encryption of the session, both before any write; either may throw. */
  datatype Probe = ProbedLive | ProbedDead | ProbeFaulted

  // ---------- lookups ----------

  predicate Owns(s: Store, u: UserId, c: ConnId) { c in s.conns && s.conns[c].user == u }

  predicate HasKey(s: Store, c: ConnId, u: UserId, b: Broker, ref: string) {
    c in s.conns && s.conns[c].user == u && s.conns[c].broker == b && s.conns[c].ref == ref
  }

  /** The row the unique key (user, broker, accountRef) selects. */
  ghost function FindConn(s: Store, u: UserId, b: Broker, ref: string): Option<ConnId> {
    if c :| HasKey(s, c, u, b, ref) then Some(c) else None
  }

  predicate BoundTo(s: Store, a: AccountId, c: ConnId) {
    a in s.accounts && s.accounts[a].conn == Some(c)
  }

  ghost predicate Bound(s: Store, c: ConnId) { exists a :: BoundTo(s, a, c) }

  ghost function LinkedAccount(s: Store, c: ConnId): Option<AccountId> {
    if a :| BoundTo(s, a, c) then Some(a) else None
  }

  function CountOf(holdings: seq<BrokerHolding>, c: ConnId): nat {
    if holdings == [] then 0
    else
      var n := |holdings| - 1;
      CountOf(holdings[..n], c) + if holdings[n].conn == c then 1 else 0
  }

  function Without(holdings: seq<BrokerHolding>, c: ConnId): seq<BrokerHolding> {
    if holdings == [] then []
    else
      var n := |holdings| - 1;
      Without(holdings[..n], c) + if holdings[n].conn == c then [] else [holdings[n]]
  }

  /** The rows of one connection. */
  function RowsUnder(holdings: seq<BrokerHolding>, c: ConnId): seq<BrokerHolding> {
    if holdings == [] then []
    else
      var n := |holdings| - 1;
      RowsUnder(holdings[..n], c) + if holdings[n].conn == c then [holdings[n]] else []
  }

  function WithoutAccount(manual: seq<ManualHolding>, a: AccountId): seq<ManualHolding> {
    if manual == [] then []
    else
      var n := |manual| - 1;
      WithoutAccount(manual[..n], a) + if manual[n].account == a then [] else [manual[n]]
  }

  // ---------- writes ----------

  /** updateMany over the accounts bound to a connection. */
  function SetState(accounts: map<AccountId, Account>, c: ConnId, st: AccountState): map<AccountId, Account> {
    map a | a in accounts ::
      if accounts[a].conn == Some(c) then accounts[a].(state := st) else accounts[a]
  }

  /** Sever: the feed stops and the bound account goes stale, in one transaction. The binding and the
      holdings stay. */
  function SeverBinding(s: Store, c: ConnId): Store
    requires c in s.conns
  {
    s.(conns := s.conns[c := s.conns[c].(enabled := false)], accounts := SetState(s.accounts, c, LinkedStale))
  }

  function ResumeBinding(s: Store, c: ConnId): Store
    requires c in s.conns
  {
    s.(conns := s.conns[c := s.conns[c].(enabled := true)], accounts := SetState(s.accounts, c, LinkedLive))
  }

  function Sever(s: Store, u: UserId, c: ConnId): (Store, Reply) {
    if !Owns(s, u, c) then (s, Refused(NotFound)) else (SeverBinding(s, c), Done(c))
  }

  function Activate(s: Store, u: UserId, c: ConnId): (Store, Reply) {
    if !Owns(s, u, c) then (s, Refused(NotFound)) else (ResumeBinding(s, c), Done(c))
  }

  /** Delete a connection: its holdings cascade away, its account survives stale and unbound. */
  function Forget(s: Store, c: ConnId): Store {
    s.(conns := s.conns - {c},
       accounts := map a | a in s.accounts ::
         if s.accounts[a].conn == Some(c) then s.accounts[a].(state := LinkedStale, conn := None) else s.accounts[a],
       holdings := Without(s.holdings, c))
  }

  function Clear(s: Store, u: UserId, c: ConnId, confirm: bool): (Store, Reply) {
    if !Owns(s, u, c) then (s, Refused(NotFound))
    else if s.conns[c].enabled then (s, Refused(InvalidState))
    else if !confirm then (s, Refused(ConfirmationRequired))
    else (Forget(s, c), Cleared(CountOf(s.holdings, c)))
  }

  // ---------- persisting a session: two writes ----------

  /** Write 1: upsert on (user, broker, accountRef). A reconnect lands on the row it always had. */
  ghost function UpsertConn(s: Store, u: UserId, b: Broker, ref: string, live: bool, token: nat,
                            d: Disclaimer, newId: ConnId): (Store, ConnId)
  {
    var found := FindConn(s, u, b, ref);
    if found.Some? then
      var c := found.value;
      if c in s.conns then
        (s.(conns := s.conns[c := s.conns[c].(enabled := true, sessionLive := live, token := token,
                                              disclaimer := d)]), c)
      else (s, c)
    else
      (s.(conns := s.conns[newId := Conn(u, b, ref, true, live, token, d, None)]), newId)
  }

  /** Write 2: bring a stale bound account back. */
  function Relink(s: Store, c: ConnId): Store {
    s.(accounts := map a | a in s.accounts ::
         if s.accounts[a].conn == Some(c) && s.accounts[a].state == LinkedStale
         then s.accounts[a].(state := LinkedLive) else s.accounts[a])
  }

  /** `crash` stops between the two writes. They are not one transaction. */
  ghost function Persist(s: Store, u: UserId, b: Broker, x: Exchange, probe: Probe, d: Disclaimer,
                         newId: ConnId, crash: bool): (Store, Reply)
    requires x.Session?
  {
    if x.ref.None? || x.ref.value == "" then (s, Refused(AccountRefMissing))
    else if probe.ProbeFaulted? then (s, Refused(Unexpected))
    else
      var (s1, c) := UpsertConn(s, u, b, x.ref.value, probe.ProbedLive?, x.token, d, newId);
      if crash then (s1, Refused(Unexpected)) else (Relink(s1, c), Done(c))
  }

  ghost function Integrate(s: Store, reg: Registry, u: UserId, b: Broker, accepted: Option<Disclaimer>,
                           x: Exchange, probe: Probe, newId: ConnId, crash: bool): (Store, Reply)
  {
    if b !in reg.implemented then (s, Refused(UnsupportedBroker))
    else if b in reg.interactive then (s, Refused(NotInteractive))
    else if accepted.None? || accepted.value.version == "" then (s, Refused(DisclaimerRequired))
    else if !x.Session? then (s, Refused(Unexpected))
    else Persist(s, u, b, x, probe, accepted.value, newId, crash)
  }

  /** Issue a single-use state carrying the accepted disclaimer. Tokens are unguessable, hence fresh. */
  function Begin(s: Store, reg: Registry, u: UserId, b: Broker, accepted: Option<Disclaimer>,
                 token: string, expiresAt: Time): (Store, Option<Code>)
  {
    if b !in reg.implemented then (s, Some(UnsupportedBroker))
    else if b !in reg.interactive then (s, Some(NotInteractive))
    else if accepted.None? || accepted.value.version == "" then (s, Some(DisclaimerRequired))
    else (s.(auth := s.auth[token := AuthState(u, b, accepted.value, expiresAt, false)]), None)
  }

  predicate Consumable(s: Store, u: UserId, b: Broker, token: Option<string>, now: Time) {
    token.Some? && token.value != "" && token.value in s.auth
    && var st := s.auth[token.value];
       st.user == u && st.broker == b && !st.consumed && now < st.expiresAt
  }

  function Consume(s: Store, token: string): Store
    requires token in s.auth
  {
    s.(auth := s.auth[token := s.auth[token].(consumed := true)])
  }

  /** The interactive completion, in the order of its checks. */
  ghost function Complete(s: Store, reg: Registry, u: UserId, b: Broker, token: Option<string>,
                          expected: Option<ConnId>, x: Exchange, probe: Probe, now: Time, newId: ConnId,
                          crash: bool): (Store, Reply)
  {
    if b !in reg.implemented then (s, Refused(UnsupportedBroker))
    else if b !in reg.interactive then (s, Refused(NotInteractive))
    else if !Consumable(s, u, b, token, now) then (s, Refused(StateInvalid))
    else
      var s1 := Consume(s, token.value);
      if expected.Some? && !(Owns(s1, u, expected.value) && s1.conns[expected.value].broker == b) then
        (s1, Refused(NotFound))
      else if x.RejectedByBroker? then (s1, Refused(ExchangeFailed))
      else if x.Faulted? then (s1, Refused(Unexpected))
      else if expected.Some? && x.ref != Some(s1.conns[expected.value].ref) then (s1, Refused(WrongDemat))
      else Persist(s1, u, b, x, probe, s.auth[token.value].disclaimer, newId, crash)
  }

  // ---------- the account endpoints ----------

  predicate OwnsAccount(s: Store, u: UserId, a: AccountId) { a in s.accounts && s.accounts[a].user == u }

  predicate HoldsManually(s: Store, a: AccountId) {
    exists i :: 0 <= i < |s.manual| && s.manual[i].account == a
  }

  ghost function CreateAccount(s: Store, u: UserId, a: AccountId, name: string, b: Broker): (Store, Reply) {
    if exists o :: o in s.accounts && s.accounts[o].user == u && s.accounts[o].name == name
    then (s, Refused(DuplicateName))
    else (s.(accounts := s.accounts[a := Account(u, b, name, None, Manual)]), Changed(a))
  }

  /** Bind an account to a connection. `hasTransactions` stands for the ledger rows not modelled here.
      Note what is NOT checked: whether the connection is enabled. */
  ghost function Link(s: Store, u: UserId, a: AccountId, c: ConnId, hasTransactions: bool, confirm: bool):
    (Store, Reply)
  {
    if !OwnsAccount(s, u, a) then (s, Refused(NotFound))
    else if s.accounts[a].broker == OTHER then (s, Refused(NotLinkable))
    else if s.accounts[a].conn.Some? then (s, Refused(AlreadyLinked))
    else if !Owns(s, u, c) then (s, Refused(NotFound))
    else if s.accounts[a].broker != s.conns[c].broker then (s, Refused(BrokerMismatch))
    else if Bound(s, c) then (s, Refused(AlreadyLinked))
    else if (hasTransactions || HoldsManually(s, a)) && !confirm then (s, Refused(ConfirmationRequired))
    else
      (s.(accounts := s.accounts[a := s.accounts[a].(conn := Some(c), state := LinkedLive)],
          manual := WithoutAccount(s.manual, a)),
       Changed(a))
  }

  function Unlink(s: Store, u: UserId, a: AccountId): (Store, Reply) {
    if !OwnsAccount(s, u, a) then (s, Refused(NotFound))
    else if s.accounts[a].state == Manual || s.accounts[a].conn.None? then (s, Refused(NotLinked))
    else Sever(s, u, s.accounts[a].conn.value)
  }

  ghost function DeleteAccount(s: Store, u: UserId, a: AccountId, hasTransactions: bool, confirm: bool):
    (Store, Reply)
  {
    if !OwnsAccount(s, u, a) then (s, Refused(NotFound))
    else if !(s.accounts[a].state == Manual || (s.accounts[a].state == LinkedStale && s.accounts[a].conn.None?))
    then (s, Refused(AccountLinked))
    else if forall o :: o in s.accounts && s.accounts[o].user == u ==> o == a then (s, Refused(LastAccount))
    else if hasTransactions && !confirm then (s, Refused(ConfirmationRequired))
    else (s.(accounts := s.accounts - {a}, manual := WithoutAccount(s.manual, a)), Changed(a))
  }

  /** Rename, and retag a book that nothing depends on yet. */
  ghost function Patch(s: Store, u: UserId, a: AccountId, name: Option<string>, broker: Option<Broker>):
    (Store, Reply)
  {
    if name.None? && broker.None? then (s, Refused(NothingToUpdate))
    else if !OwnsAccount(s, u, a) then (s, Refused(NotFound))
    else if Retags(s, a, broker) && (s.accounts[a].state != Manual || s.accounts[a].conn.Some?) then
      (s, Refused(AccountLinked))
    else if name.Some?
            && exists o :: o in s.accounts && o != a && s.accounts[o].user == u && s.accounts[o].name == name.value
    then (s, Refused(DuplicateName))
    else
      (s.(accounts := s.accounts[a := s.accounts[a].(
            name := if name.Some? then name.value else s.accounts[a].name,
            broker := if Retags(s, a, broker) then broker.value else s.accounts[a].broker)]),
       Changed(a))
  }

  predicate Retags(s: Store, a: AccountId, broker: Option<Broker>)
    requires a in s.accounts
  {
    broker.Some? && broker.value != s.accounts[a].broker
  }

  // ---------- the manual ledger ----------

  function FindManual(manual: seq<ManualHolding>, a: AccountId, i: nat): Option<ManualHolding> {
    if manual == [] then None
    else
      var h := manual[|manual| - 1];
      if h.account == a && h.instrument == i then Some(h) else FindManual(manual[..|manual| - 1], a, i)
  }

  /** Upsert on (account, instrument). */
  function PutManual(manual: seq<ManualHolding>, h: ManualHolding): seq<ManualHolding> {
    if manual == [] then [h]
    else
      var n := |manual| - 1;
      if manual[n].account == h.account && manual[n].instrument == h.instrument then manual[..n] + [h]
      else PutManual(manual[..n], h) + [manual[n]]
  }

  /** A hand-entered position: the write path admits it only into a manual account of the user. */
  function EnterManually(s: Store, h: ManualHolding): Store {
    if OwnsAccount(s, h.user, h.account) && s.accounts[h.account].state == Manual
    then s.(manual := PutManual(s.manual, h)) else s
  }

  // ---------- rescuing a linked account ----------

  const MS_PER_DAY := 86400000

  /** What a rescue reads beside the tables: the destination's ledgers by instrument, and each instrument's
      name, stock and the id a new holding of it would get. */
  datatype Book = Book(ledgers: nat -> seq<F.Txn>, nameOf: nat -> string, stockOf: nat -> Option<nat>, idOf: nat -> nat)

  /** The broker's own quantity and cost, dated the day the shares were last verified. */
  function SyntheticBuy(b: BrokerHolding): F.Txn { F.Buy(b.quantity, b.avgCost, 0.0, b.syncedAt / MS_PER_DAY) }

  /** An instrument's ledger once the rows' synthetic buys are in it. */
  function LedgerOf(book: Book, rows: seq<BrokerHolding>, i: nat): seq<F.Txn> {
    if rows == [] then book.ledgers(i)
    else
      var before := LedgerOf(book, rows[..|rows| - 1], i);
      var b := rows[|rows| - 1];
      if b.instrument == Some(i) then F.Enlisted(before, SyntheticBuy(b)) else before
  }

  function PositionOf(ledger: seq<F.Txn>): F.Position {
    if F.ValidLedger(ledger) && F.Replay(ledger).Some? then F.Materialize(F.Replay(ledger).value)
    else F.Position(0.0, 0.0, 0.0, 0.0)
  }

  /** The holding row a replay writes: the figures anew, the identity of the row already there. */
  function Materialized(there: Option<ManualHolding>, book: Book, u: UserId, a: AccountId, i: nat, p: F.Position):
    ManualHolding
  {
    match there
    case Some(h) => h.(quantity := p.quantity, avgCost := p.avgCost, invested := p.invested, realized := p.realized)
    case None =>
      ManualHolding(book.idOf(i), u, a, i, book.stockOf(i), book.nameOf(i), p.quantity, p.avgCost, p.invested,
                    p.realized)
  }

  function RescueInto(manual: seq<ManualHolding>, book: Book, u: UserId, to: AccountId, rows: seq<BrokerHolding>):
    seq<ManualHolding>
  {
    if rows == [] then manual
    else
      var before := RescueInto(manual, book, u, to, rows[..|rows| - 1]);
      match rows[|rows| - 1].instrument
      case None => before
      case Some(i) =>
        PutManual(before, Materialized(FindManual(before, to, i), book, u, to, i, PositionOf(LedgerOf(book, rows, i))))
  }

  /** Every broker row of the connection becomes a lot of the destination; then the connection and the account
      are deleted. */
  function MoveOut(s: Store, u: UserId, from: AccountId, to: AccountId, c: ConnId, rows: seq<BrokerHolding>,
                   book: Book):
    Store
  {
    s.(manual := WithoutAccount(RescueInto(s.manual, book, u, to, rows), from),
       conns := s.conns - {c},
       holdings := Without(s.holdings, c),
       accounts := map a | a in s.accounts && a != from ::
         if s.accounts[a].conn == Some(c) then s.accounts[a].(conn := None) else s.accounts[a])
  }

  predicate Expressible(rows: seq<BrokerHolding>) { forall i :: 0 <= i < |rows| ==> rows[i].instrument.Some? }

  /** Rescue on delete: the whole book of a bound account, into a manual account of the same broker. `rows` is
      the connection's holdings in the order they are read. */
  ghost function Rescue(s: Store, u: UserId, from: AccountId, to: AccountId, confirm: bool, rows: seq<BrokerHolding>,
                        book: Book): (Store, Reply)
  {
    if from == to then (s, Refused(SameAccount))
    else if !OwnsAccount(s, u, from) || !OwnsAccount(s, u, to) then (s, Refused(NotFound))
    else if s.accounts[from].state == Manual || s.accounts[from].conn.None? then (s, Refused(NotLinked))
    else if s.accounts[to].state != Manual then (s, Refused(DestinationLinked))
    else if s.accounts[from].broker != s.accounts[to].broker then (s, Refused(BrokerMismatch))
    else if rows == [] then (s, Refused(NothingToRescue))
    else if !Expressible(rows) then (s, Refused(Unrescuable))
    else if !confirm then (s, Refused(ConfirmationRequired))
    else (MoveOut(s, u, from, to, s.accounts[from].conn.value, rows, book), Changed(to))
  }

  // ---------- sync's two effects on the store ----------

  function MarkDead(s: Store, c: ConnId): Store
    requires c in s.conns
  {
    s.(conns := s.conns[c := s.conns[c].(sessionLive := false)])
  }

  /** Delete-then-insert of one connection's snapshot, and the stamp, in one transaction. */
  function Overwrite(s: Store, c: ConnId, rows: seq<BrokerHolding>, now: Time): Store
    requires c in s.conns
  {
    s.(holdings := Without(s.holdings, c) + rows,
       conns := s.conns[c := s.conns[c].(lastSyncedAt := Some(now), sessionLive := true)])
  }
}
