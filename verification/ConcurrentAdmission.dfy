/**
 Any number of resolvers admitting catalogue rows at once (src/brokers/universe-admit.ts:173-184, 243-265,
 441-466), against other writers that also insert rows.

 A resolver looks the ISIN up, later tries to insert it, re-reads on a duplicate key, and reports a row it
 created. Between any two of its moves the others may move. Only the database's unique index stands in the
 way; rows are never updated or deleted here.
 */
module ConcurrentAdmission {
  import opened Wrappers

  type Id = nat
  type Racer = nat

  datatype Row = Row(isin: string, stock: Option<nat>)

  datatype Phase =
    | Looking
    | Wanting                  // found nothing: about to insert
    | Beaten                   // the insert violated the unique index
    | Created(id: Id)          // wasCreated, not yet reported
    | Reported(id: Id)         // wasCreated, reported
    | Resolved(id: Id)         // another's row
    | Failed                   // duplicate key, and then no row under it

  datatype Resolver = Resolver(isin: string, phase: Phase)

  datatype State = State(rows: map<Id, Row>, racers: map<Racer, Resolver>, reports: seq<string>)

  datatype Move =
    | Arrive(r: Racer, isin: string)
    | Look(r: Racer)
    | Insert(r: Racer, id: Id)
    | Reread(r: Racer)
    | Report(r: Racer)
    | OtherWriter(id: Id, row: Row)

  predicate Under(s: State, id: Id, isin: string) { id in s.rows && s.rows[id].isin == isin }

  ghost predicate Taken(s: State, isin: string) { exists id :: Under(s, id, isin) }

  /** The row the unique index finds, if any. */
  ghost function Find(s: State, isin: string): Option<Id> {
    if id :| Under(s, id, isin) then Some(id) else None
  }

  predicate At(s: State, r: Racer, p: Phase) { r in s.racers && s.racers[r].phase == p }

  ghost predicate Possible(s: State, m: Move) {
    match m
    case Arrive(r, _) => r !in s.racers
    case Look(r) => At(s, r, Looking)
    case Insert(r, id) => At(s, r, Wanting) && id !in s.rows
    case Reread(r) => At(s, r, Beaten)
    case Report(r) => r in s.racers && s.racers[r].phase.Created?
    case OtherWriter(id, row) => id !in s.rows && !Taken(s, row.isin)
  }

  function Advance(s: State, r: Racer, p: Phase): State
    requires r in s.racers
  {
    s.(racers := s.racers[r := s.racers[r].(phase := p)])
  }

  ghost function Do(s: State, m: Move): State
    requires Possible(s, m)
  {
    match m
    case Arrive(r, isin) => s.(racers := s.racers[r := Resolver(isin, Looking)])
    case Look(r) =>
      var found := Find(s, s.racers[r].isin);
      if found.Some? && s.rows[found.value].stock.None? then Advance(s, r, Resolved(found.value))
      else Advance(s, r, Wanting)
    case Insert(r, id) =>
      var isin := s.racers[r].isin;
      if Taken(s, isin) then Advance(s, r, Beaten)
      else Advance(s, r, Created(id)).(rows := s.rows[id := Row(isin, None)])
    case Reread(r) =>
      var found := Find(s, s.racers[r].isin);
      if found.Some? then Advance(s, r, Resolved(found.value)) else Advance(s, r, Failed)
    case Report(r) =>
      Advance(s, r, Reported(s.racers[r].phase.id)).(reports := s.reports + [s.racers[r].isin])
    case OtherWriter(id, row) => s.(rows := s.rows[id := row])
  }

  ghost predicate IsRun(s: State, moves: seq<Move>)
    decreases |moves|
  {
    moves == [] || (Possible(s, moves[0]) && IsRun(Do(s, moves[0]), moves[1..]))
  }

  ghost function After(s: State, moves: seq<Move>): State
    requires IsRun(s, moves)
    decreases |moves|
  {
    if moves == [] then s else After(Do(s, moves[0]), moves[1..])
  }

  // ---------- the invariant ----------

  ghost predicate UniqueIsins(s: State) {
    forall i, j, isin :: Under(s, i, isin) && Under(s, j, isin) ==> i == j
  }

  predicate IsCreator(p: Phase) { p.Created? || p.Reported? }

  /** What each phase guarantees about the tables. */
  ghost predicate PhaseHolds(s: State, v: Resolver) {
    match v.phase
    case Created(id) => Under(s, id, v.isin) && s.rows[id].stock.None?
    case Reported(id) => Under(s, id, v.isin) && s.rows[id].stock.None? && v.isin in s.reports
    case Resolved(id) => Under(s, id, v.isin)
    case Beaten => Taken(s, v.isin)
    case Failed => false
    case _ => true
  }

  ghost predicate PhasesHold(s: State) {
    forall r :: r in s.racers ==> PhaseHolds(s, s.racers[r])
  }

  ghost predicate OneCreator(s: State) {
    forall r, t ::
      (r in s.racers && t in s.racers && s.racers[r].isin == s.racers[t].isin
       && IsCreator(s.racers[r].phase) && IsCreator(s.racers[t].phase))
      ==> r == t
  }

  predicate HasReported(s: State, r: Racer, isin: string) {
    r in s.racers && s.racers[r].isin == isin && s.racers[r].phase.Reported?
  }

  ghost predicate ReportsHold(s: State) {
    && (forall i, j :: 0 <= i < j < |s.reports| ==> s.reports[i] != s.reports[j])
    && (forall isin :: isin in s.reports ==> exists r :: HasReported(s, r, isin))
  }

  ghost predicate Inv(s: State) {
    UniqueIsins(s) && PhasesHold(s) && OneCreator(s) && ReportsHold(s)
  }

  lemma UnderGrows(s: State, id: Id, row: Row)
    requires id !in s.rows
    ensures var s' := s.(rows := s.rows[id := row]);
            && (forall i, isin :: Under(s', i, isin) <==> Under(s, i, isin) || (i == id && row.isin == isin))
            && (forall isin :: Taken(s', isin) <==> Taken(s, isin) || row.isin == isin)
  {
    var s' := s.(rows := s.rows[id := row]);
    forall isin ensures Taken(s', isin) <==> Taken(s, isin) || row.isin == isin {
      if Taken(s, isin) { var i :| Under(s, i, isin); assert Under(s', i, isin); }
      if row.isin == isin { assert Under(s', id, isin); }
      if Taken(s', isin) && row.isin != isin { var i :| Under(s', i, isin); assert Under(s, i, isin); }
    }
  }

  /** A new row under a free ISIN disturbs nobody. */
  lemma NewRowKeepsInv(s: State, id: Id, row: Row)
    requires Inv(s) && id !in s.rows && !Taken(s, row.isin)
    ensures Inv(s.(rows := s.rows[id := row]))
  {
    UnderGrows(s, id, row);
    var s' := s.(rows := s.rows[id := row]);
    forall r | r in s'.racers ensures PhaseHolds(s', s'.racers[r]) {
      assert PhaseHolds(s, s.racers[r]);
    }
    forall isin | isin in s'.reports ensures exists r :: HasReported(s', r, isin) {
      var r :| HasReported(s, r, isin);
      assert HasReported(s', r, isin);
    }
  }

  /** A resolver that moves on without creating or reporting. */
  lemma AdvanceKeepsInv(s: State, r: Racer, p: Phase)
    requires Inv(s) && r in s.racers && !IsCreator(p) && !IsCreator(s.racers[r].phase)
    requires PhaseHolds(s, s.racers[r].(phase := p))
    ensures Inv(Advance(s, r, p))
  {
    var s' := Advance(s, r, p);
    assert forall i, isin :: Under(s', i, isin) == Under(s, i, isin);
    assert forall isin :: Taken(s', isin) == Taken(s, isin) by {
      forall isin ensures Taken(s', isin) == Taken(s, isin) {
        if i :| Under(s, i, isin) { assert Under(s', i, isin); }
        if i :| Under(s', i, isin) { assert Under(s, i, isin); }
      }
    }
    forall t | t in s'.racers ensures PhaseHolds(s', s'.racers[t]) {
      if t != r { assert PhaseHolds(s, s.racers[t]); }
    }
    forall isin | isin in s'.reports ensures exists t :: HasReported(s', t, isin) {
      var t :| HasReported(s, t, isin);
      assert HasReported(s', t, isin);
    }
  }

  lemma CreateKeepsInv(s: State, r: Racer, id: Id)
    requires Inv(s) && At(s, r, Wanting) && id !in s.rows && !Taken(s, s.racers[r].isin)
    ensures Inv(Do(s, Insert(r, id)))
  {
    var isin := s.racers[r].isin;
    var s1 := s.(rows := s.rows[id := Row(isin, None)]);
    NewRowKeepsInv(s, id, Row(isin, None));
    var s' := Do(s, Insert(r, id));
    assert s' == Advance(s1, r, Created(id));
    assert forall i, k :: Under(s', i, k) == Under(s1, i, k);
    forall t | t in s'.racers ensures PhaseHolds(s', s'.racers[t]) {
      assert PhaseHolds(s1, s1.racers[t]);
      if t != r && s1.racers[t].phase.Beaten? {
        var i :| Under(s1, i, s1.racers[t].isin);
        assert Under(s', i, s1.racers[t].isin);
      }
    }
    forall t | t in s.racers && s.racers[t].isin == isin ensures !IsCreator(s.racers[t].phase) {
      assert PhaseHolds(s, s.racers[t]);
    }
    forall k | k in s'.reports ensures exists t :: HasReported(s', t, k) {
      var t :| HasReported(s1, t, k);
      assert HasReported(s', t, k);
    }
  }

  lemma ReportKeepsInv(s: State, r: Racer)
    requires Inv(s) && Possible(s, Report(r))
    ensures Inv(Do(s, Report(r)))
  {
    var s' := Do(s, Report(r));
    var isin := s.racers[r].isin;
    assert PhaseHolds(s, s.racers[r]);
    forall t ensures !HasReported(s, t, isin) {}
    assert isin !in s.reports;
    assert forall i, k :: Under(s', i, k) == Under(s, i, k);
    forall t | t in s'.racers ensures PhaseHolds(s', s'.racers[t]) {
      assert PhaseHolds(s, s.racers[t]);
      if t != r && s.racers[t].phase.Beaten? {
        var i :| Under(s, i, s.racers[t].isin);
        assert Under(s', i, s.racers[t].isin);
      }
    }
    forall k | k in s'.reports ensures exists t :: HasReported(s', t, k) {
      if k == isin {
        assert HasReported(s', r, k);
      } else {
        var t :| HasReported(s, t, k);
        assert HasReported(s', t, k);
      }
    }
  }

  lemma MoveKeepsInv(s: State, m: Move)
    requires Inv(s) && Possible(s, m)
    ensures Inv(Do(s, m))
  {
    match m {
      case Arrive(r, isin) => ArriveKeepsInv(s, r, isin);
      case Look(r) => AdvanceKeepsInv(s, r, Do(s, m).racers[r].phase);
      case Insert(r, id) =>
        if Taken(s, s.racers[r].isin) { AdvanceKeepsInv(s, r, Beaten); } else { CreateKeepsInv(s, r, id); }
      case Reread(r) =>
        assert PhaseHolds(s, s.racers[r]);
        AdvanceKeepsInv(s, r, Do(s, m).racers[r].phase);
      case Report(r) => ReportKeepsInv(s, r);
      case OtherWriter(id, row) => NewRowKeepsInv(s, id, row);
    }
  }

  lemma ArriveKeepsInv(s: State, r: Racer, isin: string)
    requires Inv(s) && r !in s.racers
    ensures Inv(Do(s, Arrive(r, isin)))
  {
    var s' := Do(s, Arrive(r, isin));
    assert forall i, k :: Under(s', i, k) == Under(s, i, k);
    forall t | t in s'.racers ensures PhaseHolds(s', s'.racers[t]) {
      if t != r {
        assert PhaseHolds(s, s.racers[t]);
        if s.racers[t].phase.Beaten? {
          var i :| Under(s, i, s.racers[t].isin);
          assert Under(s', i, s.racers[t].isin);
        }
      }
    }
    forall k | k in s'.reports ensures exists t :: HasReported(s', t, k) {
      var t :| HasReported(s, t, k);
      assert HasReported(s', t, k);
    }
  }

  lemma {:induction false} RunKeepsInv(s: State, moves: seq<Move>)
    requires Inv(s) && IsRun(s, moves)
    ensures Inv(After(s, moves))
    decreases |moves|
  {
    if moves != [] {
      MoveKeepsInv(s, moves[0]);
      RunKeepsInv(Do(s, moves[0]), moves[1..]);
    }
  }

  // ---------- main results ----------

  lemma {:induction false} RowsNeverChange(s: State, moves: seq<Move>)
    requires IsRun(s, moves)
    ensures forall id :: id in s.rows ==> id in After(s, moves).rows && After(s, moves).rows[id] == s.rows[id]
    decreases |moves|
  {
    if moves != [] { RowsNeverChange(Do(s, moves[0]), moves[1..]); }
  }

  predicate Has(p: Phase, id: Id) {
    (p.Created? && p.id == id) || (p.Reported? && p.id == id) || (p.Resolved? && p.id == id)
  }

  ghost predicate Unbegun(s: State) { UniqueIsins(s) && s.racers == map[] && s.reports == [] }

  /**
   THE CATALOGUE CANNOT FORK. From any catalogue with unique ISINs, under every interleaving of any number
   of resolvers and other writers: ISINs stay unique; resolvers of one ISIN that got an answer got the same
   row; at most one of them created it, and then without a stock; no resolver that lost the race is left
   without a row; each creation is reported at most once; and no row that existed has changed.
   */
  lemma NoFork(s: State, moves: seq<Move>)
    requires Unbegun(s) && IsRun(s, moves)
    ensures var s' := After(s, moves);
            && UniqueIsins(s')
            && (forall r, t, i, j ::
                  (r in s'.racers && t in s'.racers && s'.racers[r].isin == s'.racers[t].isin
                   && Has(s'.racers[r].phase, i) && Has(s'.racers[t].phase, j)) ==> i == j)
            && OneCreator(s')
            && (forall r :: r in s'.racers && IsCreator(s'.racers[r].phase) ==>
                  var id := s'.racers[r].phase.id; id in s'.rows && s'.rows[id] == Row(s'.racers[r].isin, None))
            && (forall r :: r in s'.racers ==> s'.racers[r].phase != Failed)
            && (forall i, j :: 0 <= i < j < |s'.reports| ==> s'.reports[i] != s'.reports[j])
            && (forall id :: id in s.rows ==> id in s'.rows && s'.rows[id] == s.rows[id])
  {
    RunKeepsInv(s, moves);
    RowsNeverChange(s, moves);
    var s' := After(s, moves);
    forall r | r in s'.racers
      ensures s'.racers[r].phase != Failed
      ensures IsCreator(s'.racers[r].phase) ==>
                var id := s'.racers[r].phase.id; id in s'.rows && s'.rows[id] == Row(s'.racers[r].isin, None)
      ensures forall i :: Has(s'.racers[r].phase, i) ==> Under(s', i, s'.racers[r].isin)
    {
      assert PhaseHolds(s', s'.racers[r]);
    }
  }
}
