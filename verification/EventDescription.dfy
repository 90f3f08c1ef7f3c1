/**
 What of an event's description may reach the model (src/catalogue/event-description.ts:21-160).

 The two regular expressions are producers of matches: a list of amounts found, and a list of labelled
 amounts. A match whose number is not finite carries None. Amounts are exact reals. The component pattern ends
 in the amount pattern, so what a component claims is always among the amounts found (`ClaimsAreFound`).

 Main results: a description is attributed exactly when its components claim each amount found, once; the
 stated total is then the sum of the amounts found rounded to four places, which is the sum itself exactly
 when that is whole in ten-thousandths; several amounts under a revision are withheld.
 */
module EventDescription {
  import opened Wrappers
  import Places

  datatype Label = Special | Interim | Final | Dividend

  datatype Component = Component(kind: Label, amount: real)

  datatype Reason = UnattributedAmount | Revision

  datatype Verdict =
    | CleanText
    | Structured(components: seq<Component>, total: real, revised: bool)
    | Suppress(reason: Reason)

  /** A component match: the label as spelled, lower-cased, and its number. */
  datatype Match = Match(spelling: string, number: Option<real>)

  datatype Rendered = Nothing | FlagOnly | Sentence(components: seq<Component>, total: Option<real>, flagged: bool)

  const TOLERANCE := 0.000000001
  const COLUMN_SLACK := 0.005 + 0.000000001

  function Abs(x: real): real { if x < 0.0 then -x else x }

  function NormaliseLabel(spelling: string): Label {
    if spelling == "special" || spelling == "spl" then Special
    else if spelling == "interim" || spelling == "int" then Interim
    else if spelling == "final" || spelling == "fin" then Final
    else Dividend
  }

  predicate IsRestatement(amount: real, column: Option<real>) {
    column.Some? && Abs(amount - column.value) <= COLUMN_SLACK
  }

  predicate LoneRestatement(components: seq<Component>, column: Option<real>) {
    |components| == 1 && IsRestatement(components[0].amount, column)
  }

  /** toFixed(4), a half rounding up; amounts are not negative. */
  function RoundFour(x: real): real { (x * 10000.0 + 0.5).Floor as real / 10000.0 }

  function Finite(numbers: seq<Option<real>>): seq<real> {
    if numbers == [] then []
    else
      var last := numbers[|numbers| - 1];
      Finite(numbers[..|numbers| - 1]) + if last.Some? then [last.value] else []
  }

  function Components(matches: seq<Match>): seq<Component> {
    if matches == [] then []
    else
      var m := matches[|matches| - 1];
      Components(matches[..|matches| - 1])
      + if m.number.Some? then [Component(NormaliseLabel(m.spelling), m.number.value)] else []
  }

  function AmountsOf(components: seq<Component>): (amounts: seq<real>)
    ensures |amounts| == |components|
    ensures forall i :: 0 <= i < |components| ==> amounts[i] == components[i].amount
  {
    if components == [] then [] else AmountsOf(components[..|components| - 1]) + [components[|components| - 1].amount]
  }

  function Sum(xs: seq<real>): real {
    if xs == [] then 0.0 else Sum(xs[..|xs| - 1]) + xs[|xs| - 1]
  }

  // ---------- what is read off the matches ----------

  /** The labels a reader would recognise, by the spellings of each. */
  lemma LabelsAre(spelling: string)
    ensures NormaliseLabel(spelling) == Special <==> spelling in {"special", "spl"}
    ensures NormaliseLabel(spelling) == Interim <==> spelling in {"interim", "int"}
    ensures NormaliseLabel(spelling) == Final <==> spelling in {"final", "fin"}
    ensures NormaliseLabel(spelling) == Dividend <==>
              spelling !in {"special", "spl", "interim", "int", "final", "fin"}
  {
    DistinctSpellings();
  }

  lemma DistinctSpellings()
    ensures |"special"| == 7 && |"spl"| == 3 && |"interim"| == 7 && |"int"| == 3 && |"final"| == 5 && |"fin"| == 3
    ensures "special" != "interim" && "spl" != "int" && "spl" != "fin" && "int" != "fin"
  {
    assert "special"[0] != "interim"[0] && "spl"[0] != "int"[0] && "spl"[0] != "fin"[0] && "int"[0] != "fin"[0];
  }

  predicate IsFinite(number: Option<real>) { number.Some? }

  /** The amounts are the finite numbers found, in their order. */
  lemma {:induction false} FiniteAre(numbers: seq<Option<real>>) returns (at: seq<nat>)
    ensures Places.Are(numbers, IsFinite, at) && |at| == |Finite(numbers)|
    ensures forall i :: 0 <= i < |at| ==> numbers[at[i]] == Some(Finite(numbers)[i])
  {
    if numbers == [] {
      at := [];
    } else {
      var front, x := numbers[..|numbers| - 1], numbers[|numbers| - 1];
      var before := FiniteAre(front);
      assert numbers == front + [x];
      Places.AreMore(front, x, IsFinite, before);
      at := if x.Some? then before + [|front|] else before;
      forall i | 0 <= i < |at| ensures numbers[at[i]] == Some(Finite(numbers)[i]) {
        if i < |before| { assert front[before[i]] == Some(Finite(front)[i]); }
      }
    }
  }

  predicate IsNumbered(m: Match) { m.number.Some? }

  /** The component a match makes: its own number, under the label it spells. */
  predicate MadeOf(c: Component, m: Match) { m.number == Some(c.amount) && c.kind == NormaliseLabel(m.spelling) }

  ghost predicate AllMadeOf(cs: seq<Component>, matches: seq<Match>, at: seq<nat>) {
    |cs| == |at| && forall i :: 0 <= i < |at| ==> at[i] < |matches| && MadeOf(cs[i], matches[at[i]])
  }

  lemma {:induction false} OneMoreIsMade(cs: seq<Component>, front: seq<Match>, at: seq<nat>, m: Match)
    requires AllMadeOf(cs, front, at)
    ensures AllMadeOf(cs, front + [m], at)
    ensures m.number.Some? ==>
              AllMadeOf(cs + [Component(NormaliseLabel(m.spelling), m.number.value)], front + [m], at + [|front|])
  {
    forall i | 0 <= i < |at| ensures (front + [m])[at[i]] == front[at[i]] {}
  }

  /** The components are made of the matches with a finite number, in their order. */
  lemma {:induction false} ComponentsAre(matches: seq<Match>) returns (at: seq<nat>)
    ensures Places.Are(matches, IsNumbered, at) && AllMadeOf(Components(matches), matches, at)
  {
    if matches == [] {
      at := [];
    } else {
      var front, m := matches[..|matches| - 1], matches[|matches| - 1];
      var before := ComponentsAre(front);
      assert matches == front + [m];
      Places.AreMore(front, m, IsNumbered, before);
      OneMoreIsMade(Components(front), front, before, m);
      at := if m.number.Some? then before + [|front|] else before;
    }
  }

  // ---------- sorting ----------

  function Insert(sorted: seq<real>, x: real): seq<real> {
    if sorted == [] then [x]
    else if sorted[|sorted| - 1] <= x then sorted + [x]
    else Insert(sorted[..|sorted| - 1], x) + [sorted[|sorted| - 1]]
  }

  function Sort(xs: seq<real>): seq<real> {
    if xs == [] then [] else Insert(Sort(xs[..|xs| - 1]), xs[|xs| - 1])
  }

  ghost predicate Ascending(xs: seq<real>) {
    forall i, j :: 0 <= i < j < |xs| ==> xs[i] <= xs[j]
  }

  lemma {:induction false} InsertMembers(sorted: seq<real>, x: real)
    ensures |Insert(sorted, x)| == |sorted| + 1
    ensures multiset(Insert(sorted, x)) == multiset(sorted) + multiset{x}
  {
    if sorted != [] {
      InsertMembers(sorted[..|sorted| - 1], x);
      assert sorted == sorted[..|sorted| - 1] + [sorted[|sorted| - 1]];
    }
  }

  lemma InsertHolds(sorted: seq<real>, x: real, y: real)
    requires y in Insert(sorted, x)
    ensures y == x || y in sorted
  {
    InsertMembers(sorted, x);
    assert y in multiset(Insert(sorted, x));
  }

  lemma {:induction false} InsertAscends(sorted: seq<real>, x: real)
    requires Ascending(sorted)
    ensures Ascending(Insert(sorted, x))
  {
    if sorted != [] && sorted[|sorted| - 1] > x {
      var front, last := sorted[..|sorted| - 1], sorted[|sorted| - 1];
      InsertAscends(front, x);
      var inner := Insert(front, x);
      forall i | 0 <= i < |inner| ensures inner[i] <= last { InsertHolds(front, x, inner[i]); }
    }
  }

  lemma {:induction false} SortMembers(xs: seq<real>)
    ensures |Sort(xs)| == |xs| && multiset(Sort(xs)) == multiset(xs)
  {
    if xs != [] {
      SortMembers(xs[..|xs| - 1]);
      InsertMembers(Sort(xs[..|xs| - 1]), xs[|xs| - 1]);
      assert xs == xs[..|xs| - 1] + [xs[|xs| - 1]];
    }
  }

  lemma {:induction false} SortAscends(xs: seq<real>)
    ensures Ascending(Sort(xs)) && |Sort(xs)| == |xs|
  {
    SortMembers(xs);
    if xs != [] {
      SortAscends(xs[..|xs| - 1]);
      InsertAscends(Sort(xs[..|xs| - 1]), xs[|xs| - 1]);
    }
  }

  lemma SortSorts(xs: seq<real>)
    ensures Ascending(Sort(xs)) && |Sort(xs)| == |xs| && multiset(Sort(xs)) == multiset(xs)
  {
    SortMembers(xs);
    SortAscends(xs);
  }

  // ---------- the attribution test ----------

  /** The test as made: same length, and the sorted lists within the tolerance place by place. */
  predicate Close(a: seq<real>, b: seq<real>) {
    |a| == |b| && forall i :: 0 <= i < |a| ==> Abs(a[i] - b[i]) < TOLERANCE
  }

  predicate Attributed(claimed: seq<real>, found: seq<real>) { Close(Sort(claimed), Sort(found)) }

  // ---------- the verdict ----------

  method CollectAmounts(numbers: seq<Option<real>>) returns (amounts: seq<real>)
    ensures amounts == Finite(numbers)
  {
    amounts := [];
    for i := 0 to |numbers|
      invariant amounts == Finite(numbers[..i])
    {
      assert numbers[..i + 1][..i] == numbers[..i];
      if numbers[i].Some? { amounts := amounts + [numbers[i].value]; }
    }
    assert numbers[..|numbers|] == numbers;
  }

  method CollectComponents(matches: seq<Match>) returns (components: seq<Component>)
    ensures components == Components(matches)
  {
    components := [];
    for i := 0 to |matches|
      invariant components == Components(matches[..i])
    {
      var m := matches[i];
      assert matches[..i + 1][..i] == matches[..i];
      if m.number.Some? { components := components + [Component(NormaliseLabel(m.spelling), m.number.value)]; }
    }
    assert matches[..|matches|] == matches;
  }

  method PairwiseClose(a: seq<real>, b: seq<real>) returns (close: bool)
    ensures close <==> Close(a, b)
  {
    if |a| != |b| { return false; }
    for i := 0 to |a|
      invariant forall k :: 0 <= k < i ==> Abs(a[k] - b[k]) < TOLERANCE
    {
      if Abs(a[i] - b[i]) >= TOLERANCE { return false; }
    }
    return true;
  }

  method Total(components: seq<Component>) returns (total: real)
    ensures total == Sum(AmountsOf(components))
  {
    total := 0.0;
    var amounts := AmountsOf(components);
    for i := 0 to |components|
      invariant total == Sum(amounts[..i])
    {
      assert amounts[..i + 1][..i] == amounts[..i];
      total := total + components[i].amount;
    }
    assert amounts[..|amounts|] == amounts;
  }

  /** The total as stated: a lone component that restates the column is left as it is. */
  function TotalOf(components: seq<Component>, column: Option<real>): real {
    if LoneRestatement(components, column) then components[0].amount
    else RoundFour(Sum(AmountsOf(components)))
  }

  /** An empty description finds no amount, so it is clean too. */
  method ParseEventDescription(numbers: seq<Option<real>>, matches: seq<Match>, revised: bool, column: Option<real>)
    returns (v: Verdict)
    ensures Finite(numbers) == [] ==> v == CleanText
    ensures revised && |Finite(numbers)| > 1 ==> v == Suppress(Revision)
    ensures Finite(numbers) != [] && !(revised && |Finite(numbers)| > 1) ==>
              v == if Attributed(AmountsOf(Components(matches)), Finite(numbers))
                   then Structured(Components(matches), TotalOf(Components(matches), column), revised)
                   else Suppress(UnattributedAmount)
    ensures v.Structured? && ClaimsAreFound(matches, numbers) ==>
              && multiset(AmountsOf(v.components)) == multiset(Finite(numbers))
              && (|v.components| > 1 ==> v.total == RoundFour(Sum(Finite(numbers))))
              && States(v.total, Sum(Finite(numbers)), LoneRestatement(v.components, column))
  {
    var amounts := CollectAmounts(numbers);
    if |amounts| == 0 { return CleanText; }
    if revised && |amounts| > 1 { return Suppress(Revision); }
    var components := CollectComponents(matches);
    v := JudgeComponents(components, amounts, revised, column);
    if v.Structured? && ClaimsAreFound(matches, numbers) { StatedTotal(components, amounts, column); }
  }

  method JudgeComponents(components: seq<Component>, amounts: seq<real>, revised: bool, column: Option<real>)
    returns (v: Verdict)
    ensures v == if Attributed(AmountsOf(components), amounts)
                 then Structured(components, TotalOf(components, column), revised) else Suppress(UnattributedAmount)
  {
    var attributed := PairwiseClose(Sort(AmountsOf(components)), Sort(amounts));
    if !attributed { return Suppress(UnattributedAmount); }
    if |components| == 1 && IsRestatement(components[0].amount, column) {
      return Structured(components, components[0].amount, revised);
    }
    var total := Total(components);
    return Structured(components, RoundFour(total), revised);
  }

  method RenderComponents(v: Verdict, column: Option<real>) returns (r: Rendered)
    ensures r.Nothing? <==>
              !v.Structured?
              || (!v.revised && LoneRestatement(v.components, column))
    ensures r.FlagOnly? <==>
              v.Structured? && v.revised && LoneRestatement(v.components, column)
    ensures r.Sentence? ==>
              r.components == v.components && r.flagged == v.revised
              && r.total == if |v.components| > 1 then Some(v.total) else None
  {
    if !v.Structured? { return Nothing; }
    if |v.components| == 1 && IsRestatement(v.components[0].amount, column) {
      return if v.revised then FlagOnly else Nothing;
    }
    return Sentence(v.components, if |v.components| > 1 then Some(v.total) else None, v.revised);
  }

  // ---------- what the test decides ----------

  /** How many lie at or below `t`. */
  function AtMost(xs: seq<real>, t: real): nat {
    if xs == [] then 0 else AtMost(xs[..|xs| - 1], t) + if xs[|xs| - 1] <= t then 1 else 0
  }

  function Below(xs: seq<real>, t: real): nat {
    if xs == [] then 0 else Below(xs[..|xs| - 1], t) + if xs[|xs| - 1] < t then 1 else 0
  }

  lemma {:induction false} InsertCounts(sorted: seq<real>, x: real, t: real)
    ensures AtMost(Insert(sorted, x), t) == AtMost(sorted, t) + if x <= t then 1 else 0
    ensures Below(Insert(sorted, x), t) == Below(sorted, t) + if x < t then 1 else 0
  {
    if sorted != [] && sorted[|sorted| - 1] > x {
      var front, last := sorted[..|sorted| - 1], sorted[|sorted| - 1];
      InsertCounts(front, x, t);
      assert (Insert(front, x) + [last])[..|Insert(front, x)|] == Insert(front, x);
    } else {
      assert (sorted + [x])[..|sorted|] == sorted;
    }
  }

  lemma {:induction false} SortCounts(xs: seq<real>, t: real)
    ensures AtMost(Sort(xs), t) == AtMost(xs, t) && Below(Sort(xs), t) == Below(xs, t)
  {
    if xs != [] {
      SortCounts(xs[..|xs| - 1], t);
      InsertCounts(Sort(xs[..|xs| - 1]), xs[|xs| - 1], t);
    }
  }

  /** In a sorted list, place `i` fixes the counts. */
  lemma {:induction false} PlaceCounts(xs: seq<real>, i: nat, t: real)
    requires Ascending(xs) && i < |xs|
    ensures xs[i] <= t ==> AtMost(xs, t) >= i + 1
    ensures xs[i] >= t ==> Below(xs, t) <= i
  {
    var n := |xs| - 1;
    if i < n {
      PlaceCounts(xs[..n], i, t);
    } else {
      AllCount(xs[..n], t);
    }
  }

  lemma {:induction false} AllCount(xs: seq<real>, t: real)
    ensures Below(xs, t) <= |xs|
    ensures (forall k :: 0 <= k < |xs| ==> xs[k] <= t) ==> AtMost(xs, t) == |xs|
  {
    if xs != [] { AllCount(xs[..|xs| - 1], t); }
  }

  lemma {:induction false} ClosePairsCount(a: seq<real>, b: seq<real>, t: real)
    requires Close(a, b)
    ensures AtMost(b, t) <= Below(a, t + TOLERANCE)
  {
    if a != [] { ClosePairsCount(a[..|a| - 1], b[..|b| - 1], t); }
  }

  lemma CloseIsSymmetric(a: seq<real>, b: seq<real>)
    requires Close(a, b)
    ensures Close(b, a)
  {
  }

  /** Whatever the threshold, no more of `b` lie at or below it than of `a` lie below it and the tolerance. */
  ghost predicate Keeps(a: seq<real>, b: seq<real>) {
    |a| == |b| && forall t :: AtMost(b, t) <= Below(a, t + TOLERANCE)
  }

  lemma SortedKeeps(a: seq<real>, b: seq<real>)
    requires Close(a, b)
    ensures Keeps(Sort(a), Sort(b))
  {
    SortAscends(a);
    SortAscends(b);
    forall t ensures AtMost(Sort(b), t) <= Below(Sort(a), t + TOLERANCE) {
      ClosePairsCount(a, b, t);
      SortCounts(a, t + TOLERANCE);
      SortCounts(b, t);
    }
  }

  /** Lists that can be paired off are paired off by sorting them: no place drifts above. */
  lemma PlaceDoesNotDrift(a: seq<real>, b: seq<real>, i: nat)
    requires Ascending(a) && Ascending(b) && Keeps(a, b) && i < |a|
    ensures a[i] < b[i] + TOLERANCE
  {
    PlaceCounts(b, i, b[i]);
    PlaceCounts(a, i, b[i] + TOLERANCE);
  }

  lemma PlacesStayClose(a: seq<real>, b: seq<real>)
    requires Ascending(a) && Ascending(b) && Keeps(a, b) && Keeps(b, a)
    ensures Close(a, b)
  {
    forall i | 0 <= i < |a| ensures Abs(a[i] - b[i]) < TOLERANCE {
      PlaceDoesNotDrift(a, b, i);
      PlaceDoesNotDrift(b, a, i);
    }
  }

  lemma SortedStaysClose(a: seq<real>, b: seq<real>)
    requires Close(a, b)
    ensures Close(Sort(a), Sort(b))
  {
    SortAscends(a);
    SortAscends(b);
    CloseIsSymmetric(a, b);
    SortedKeeps(a, b);
    SortedKeeps(b, a);
    PlacesStayClose(Sort(a), Sort(b));
  }

  lemma LastIsLargest(a: seq<real>, x: real)
    requires Ascending(a) && x in multiset(a)
    ensures x <= a[|a| - 1]
  {
    var i :| 0 <= i < |a| && a[i] == x;
  }

  lemma FrontMultiset(a: seq<real>)
    requires a != []
    ensures multiset(a[..|a| - 1]) == multiset(a) - multiset{a[|a| - 1]} && a[|a| - 1] in multiset(a)
  {
    assert a == a[..|a| - 1] + [a[|a| - 1]];
  }

  lemma SameFrontSameLast(a: seq<real>, b: seq<real>)
    requires a != [] && b != [] && a[..|a| - 1] == b[..|b| - 1] && a[|a| - 1] == b[|b| - 1]
    ensures a == b
  {
    assert a == a[..|a| - 1] + [a[|a| - 1]] && b == b[..|b| - 1] + [b[|b| - 1]];
  }

  lemma SameLast(a: seq<real>, b: seq<real>)
    requires a != [] && b != [] && Ascending(a) && Ascending(b) && multiset(a) == multiset(b)
    ensures a[|a| - 1] == b[|b| - 1]
    ensures multiset(a[..|a| - 1]) == multiset(b[..|b| - 1])
  {
    FrontMultiset(a);
    FrontMultiset(b);
    LastIsLargest(a, b[|b| - 1]);
    LastIsLargest(b, a[|a| - 1]);
  }

  /** Two sorted lists with the same elements are the same list. */
  lemma {:induction false} SortedIsUnique(a: seq<real>, b: seq<real>)
    requires Ascending(a) && Ascending(b) && multiset(a) == multiset(b) && |a| == |b|
    ensures a == b
  {
    if a != [] {
      SameLast(a, b);
      SortedIsUnique(a[..|a| - 1], b[..|b| - 1]);
      SameFrontSameLast(a, b);
    }
  }

  lemma SortIsCanonical(a: seq<real>, b: seq<real>)
    requires multiset(a) == multiset(b)
    ensures Sort(a) == Sort(b)
  {
    SortSorts(a);
    SortSorts(b);
    assert |multiset(a)| == |a| && |multiset(b)| == |b|;
    SortedIsUnique(Sort(a), Sort(b));
  }

  /** The components can be put in some order, and the amounts in some order, so that each component is
      within the tolerance of its amount. */
  ghost predicate CanBePairedOff(claimed: seq<real>, found: seq<real>) {
    exists a, b :: multiset(a) == multiset(claimed) && multiset(b) == multiset(found) && Close(a, b)
  }

  /** Two amounts count as one within a billionth. */
  lemma CloseIsWithinABillionth(a: seq<real>, b: seq<real>)
    ensures Close(a, b) <==>
              |a| == |b| && forall i :: 0 <= i < |a| ==> b[i] - 0.000000001 < a[i] < b[i] + 0.000000001
  {
    forall i | 0 <= i < |a| && i < |b|
      ensures Abs(a[i] - b[i]) < TOLERANCE <==> b[i] - 0.000000001 < a[i] < b[i] + 0.000000001
    {
    }
  }

  /** The column's own precision: two places, a half rounding up. */
  function RoundTwo(x: real): real { (x * 100.0 + 0.5).Floor as real / 100.0 }

  /** An amount restates the column exactly when it lies within half of its last place (and a billionth); so it does
      the column it was rounded to. */
  lemma RestatesItsOwnRounding(amount: real, column: real)
    ensures IsRestatement(amount, Some(column)) <==> column - 0.005000001 <= amount <= column + 0.005000001
    ensures IsRestatement(amount, Some(RoundTwo(amount))) && !IsRestatement(amount, None)
  {
    var n := (amount * 100.0 + 0.5).Floor as real;
    assert n <= amount * 100.0 + 0.5 < n + 1.0;
  }

  /** THE TEST DECIDES PAIRING. The sorted pairwise comparison succeeds exactly when some pairing does. */
  lemma AttributedIffPairedOff(claimed: seq<real>, found: seq<real>)
    ensures Attributed(claimed, found) <==> CanBePairedOff(claimed, found)
  {
    SortSorts(claimed);
    SortSorts(found);
    if CanBePairedOff(claimed, found) {
      var a, b :| multiset(a) == multiset(claimed) && multiset(b) == multiset(found) && Close(a, b);
      SortedStaysClose(a, b);
      SortIsCanonical(a, claimed);
      SortIsCanonical(b, found);
    }
  }

  /** What a component claims is found as an amount too: its pattern ends in the amounts' own. */
  ghost predicate ClaimsAreFound(matches: seq<Match>, numbers: seq<Option<real>>) {
    multiset(AmountsOf(Components(matches))) <= multiset(Finite(numbers))
  }

  lemma SameSizeSameMultiset(claimed: seq<real>, found: seq<real>)
    requires multiset(claimed) <= multiset(found) && |claimed| == |found|
    ensures multiset(claimed) == multiset(found)
  {
    var rest := multiset(found) - multiset(claimed);
    assert multiset(found) == multiset(claimed) + rest;
    assert |rest| == 0;
  }

  /** THE TEST IS EQUALITY AS MULTISETS, whatever the tolerance: every amount found is claimed, as often as it
      is found. Equal totals or equal counts do not certify. */
  lemma AttributedIffSameMultiset(claimed: seq<real>, found: seq<real>)
    requires multiset(claimed) <= multiset(found)
    ensures Attributed(claimed, found) <==> multiset(claimed) == multiset(found)
  {
    SortSorts(claimed);
    SortSorts(found);
    if multiset(claimed) == multiset(found) { SortIsCanonical(claimed, found); }
    if |claimed| == |found| { SameSizeSameMultiset(claimed, found); }
  }

  // ---------- the stated total ----------

  lemma {:induction false} InsertSums(sorted: seq<real>, x: real)
    ensures Sum(Insert(sorted, x)) == Sum(sorted) + x
  {
    if sorted != [] && sorted[|sorted| - 1] > x {
      var front, last := sorted[..|sorted| - 1], sorted[|sorted| - 1];
      InsertSums(front, x);
      assert (Insert(front, x) + [last])[..|Insert(front, x)|] == Insert(front, x);
    } else {
      assert (sorted + [x])[..|sorted|] == sorted;
    }
  }

  lemma {:induction false} SortSums(xs: seq<real>)
    ensures Sum(Sort(xs)) == Sum(xs)
  {
    if xs != [] {
      SortSums(xs[..|xs| - 1]);
      InsertSums(Sort(xs[..|xs| - 1]), xs[|xs| - 1]);
    }
  }

  lemma SumIgnoresOrder(a: seq<real>, b: seq<real>)
    requires multiset(a) == multiset(b)
    ensures Sum(a) == Sum(b)
  {
    SortSums(a);
    SortSums(b);
    SortIsCanonical(a, b);
  }

  predicate WholeInTenThousandths(x: real) { (x * 10000.0).Floor as real == x * 10000.0 }

  lemma RoundedIsNear(y: real)
    ensures var n := (y + 0.5).Floor as real; Abs(n - y) <= 0.5 && (n == y <==> y.Floor as real == y)
  {
    var n := (y + 0.5).Floor;
    assert n as real <= y + 0.5 < n as real + 1.0;
    if y.Floor as real == y { assert y.Floor == n; }
    if n as real == y { assert y.Floor == n; }
  }

  /** What a stated total is to the sum of the amounts: near it, and the sum itself exactly when that is whole in
      ten-thousandths or left as it is. */
  predicate States(total: real, sum: real, asItIs: bool) {
    Abs(total - sum) <= 0.00005 && (total == sum <==> asItIs || WholeInTenThousandths(sum))
  }

  lemma RoundFourStates(x: real)
    ensures States(RoundFour(x), x, false) && States(x, x, true)
  {
    var y := x * 10000.0;
    RoundedIsNear(y);
    Rescaled((y + 0.5).Floor as real, y);
  }

  lemma Rescaled(n: real, y: real)
    requires Abs(n - y) <= 0.5
    ensures Abs(n / 10000.0 - y / 10000.0) <= 0.00005 && (n / 10000.0 == y / 10000.0 <==> n == y)
  {
  }

  lemma LoneSum(components: seq<Component>)
    requires |components| == 1
    ensures Sum(AmountsOf(components)) == components[0].amount
  {
    assert AmountsOf(components)[..0] == [];
  }

  /** THE STATED TOTAL. An attributed description states the sum of the amounts found, in whatever order they
      stood, rounded to four places; a lone component that restates the column is stated as it is. */
  lemma StatedTotal(components: seq<Component>, found: seq<real>, column: Option<real>)
    requires multiset(AmountsOf(components)) <= multiset(found) && Attributed(AmountsOf(components), found)
    ensures multiset(AmountsOf(components)) == multiset(found)
    ensures !LoneRestatement(components, column) ==> TotalOf(components, column) == RoundFour(Sum(found))
    ensures States(TotalOf(components, column), Sum(found), LoneRestatement(components, column))
  {
    AttributedIffSameMultiset(AmountsOf(components), found);
    SumIgnoresOrder(AmountsOf(components), found);
    RoundFourStates(Sum(found));
    if LoneRestatement(components, column) { LoneSum(components); }
  }

  lemma TwoComponents(a: Component, b: Component)
    ensures var components, found := [a, b], [a.amount, b.amount];
            && AmountsOf(components) == found && Attributed(AmountsOf(components), found)
            && Sum(found) == a.amount + b.amount && TotalOf(components, None) == RoundFour(a.amount + b.amount)
  {
    var components, found := [a, b], [a.amount, b.amount];
    assert AmountsOf(components) == found;
    AttributedIffSameMultiset(AmountsOf(components), found);
    TwoSum(a.amount, b.amount);
  }

  lemma TwoSum(x: real, y: real)
    ensures Sum([x, y]) == x + y
  {
    SumSnoc([], x);
    SumSnoc([x], y);
    assert [] + [x] == [x] && [x] + [y] == [x, y];
  }

  lemma SumSnoc(xs: seq<real>, x: real)
    ensures Sum(xs + [x]) == Sum(xs) + x
  {
    assert (xs + [x])[..|xs|] == xs;
  }

  /** The rounding shows: two amounts below the fourth place whose stated total is not their sum. */
  lemma StatedTotalCanDiffer()
    ensures var components, found := [Component(Interim, 0.00005), Component(Special, 0.00001)], [0.00005, 0.00001];
            && AmountsOf(components) == found && Attributed(AmountsOf(components), found)
            && TotalOf(components, None) == 0.0001 && Sum(found) == 0.00006
  {
    TwoComponents(Component(Interim, 0.00005), Component(Special, 0.00001));
    RoundsUp();
  }

  lemma RoundsUp()
    ensures RoundFour(0.00006) == 0.0001
  {
    assert (0.00006 * 10000.0 + 0.5).Floor == 1;
  }

  /** A total is only ever stated for an announcement that was not revised. */
  method RenderDescription(numbers: seq<Option<real>>, matches: seq<Match>, revised: bool, column: Option<real>)
    returns (r: Rendered)
    ensures r.Sentence? && r.total.Some? ==> !revised && !r.flagged && |r.components| == |Finite(numbers)| > 1
    ensures r.Sentence? ==> CanBePairedOff(AmountsOf(r.components), Finite(numbers))
    ensures r.Sentence? && ClaimsAreFound(matches, numbers) ==>
              multiset(AmountsOf(r.components)) == multiset(Finite(numbers))
    ensures revised && |Finite(numbers)| > 1 ==> r.Nothing?
  {
    var v := ParseEventDescription(numbers, matches, revised, column);
    if v.Structured? {
      AttributedIffPairedOff(AmountsOf(v.components), Finite(numbers));
      SortSorts(AmountsOf(v.components));
      SortSorts(Finite(numbers));
    }
    r := RenderComponents(v, column);
  }
}
