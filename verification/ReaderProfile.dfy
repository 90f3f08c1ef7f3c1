/**
 Folding one distilled conversation into a reader's profile (src/chat/profile.ts:163-294; thresholds in
 src/chat/config.ts:115-123): the register counter, the glossary gaps with their stamps, the depth nudge,
 the stated name; and the clamp on the model's reply.

 Main results: the register counter is a majority vote; gaps stay few, distinct and in vocabulary, keep
 what was just reported, and last exactly as long as their count and the reader's history say, which is the
 documented window only for a gap seen in every conversation so far; a nudge never outlives its evidence.
 */
module ReaderProfile {
  import opened Wrappers

  type Time = int

  const GAP_DECAY := 10
  const DEPTH_WINDOW := 5
  const REGISTER_HYSTERESIS := 2
  const MAX_GAPS := 8

  datatype Register = Register(value: Option<string>, count: int, firstSeen: Option<Time>, lastSeen: Option<Time>)

  datatype Depth = Depth(nudge: int, count: int, firstSeen: Option<Time>, lastSeen: Option<Time>)

  datatype Stamp = Stamp(key: string, first: Time, last: Time, count: int)

  datatype Profile = Profile(
    register: Register, depth: Depth, gaps: seq<string>, stamps: seq<Stamp>,
    statedName: Option<string>, nameStatedAt: Option<Time>, sessionsDistilled: int)

  /** What one conversation showed. */
  datatype Distilled = Distilled(register: Option<string>, nudge: int, gaps: seq<string>, name: Option<string>)

  const EMPTY_PROFILE :=
    Profile(Register(None, 0, None, None), Depth(0, 0, None, None), [], [], None, None, 0)

  // ---------- register ----------

  /** Agreement adds one; disagreement takes one, and the value changes when nothing is left. */
  function FoldRegister(r: Register, seen: Option<string>, now: Time): Register {
    var kept := r.(lastSeen := if r.count != 0 then Some(now) else None);
    if seen.None? then kept
    else if r.value.None? then Register(seen, 1, Some(now), Some(now))
    else if seen == r.value then kept.(count := r.count + 1, lastSeen := Some(now))
    else
      var left := if r.count > 0 then r.count - 1 else 0;
      if left == 0 then Register(seen, REGISTER_HYSTERESIS - 1, Some(now), Some(now)) else kept.(count := left)
  }

  /** An observation is what one conversation showed of the register, and when it was folded. */
  type Observation = (Option<string>, Time)

  function Vote(obs: seq<Observation>): Register {
    if obs == [] then EMPTY_PROFILE.register
    else FoldRegister(Vote(obs[..|obs| - 1]), obs[|obs| - 1].0, obs[|obs| - 1].1)
  }

  function Seen(obs: seq<Observation>, v: string): nat {
    if obs == [] then 0 else Seen(obs[..|obs| - 1], v) + if obs[|obs| - 1].0 == Some(v) then 1 else 0
  }

  function SeenAny(obs: seq<Observation>): nat {
    if obs == [] then 0 else SeenAny(obs[..|obs| - 1]) + if obs[|obs| - 1].0.Some? then 1 else 0
  }

  /** The first register ever observed. */
  function FirstSeen(obs: seq<Observation>): Option<string> {
    if obs == [] then None
    else
      var earlier := FirstSeen(obs[..|obs| - 1]);
      if earlier.Some? then earlier else obs[|obs| - 1].0
  }

  /** How strongly the counter stands for `v`: its count when `v` is stored, else one less its count. */
  function Standing(r: Register, v: string): int {
    if r.value == Some(v) then r.count else 1 - r.count
  }

  function Margin(obs: seq<Observation>, v: string): int { 2 * Seen(obs, v) - SeenAny(obs) }

  function Handicap(obs: seq<Observation>, v: string): int {
    if FirstSeen(obs).Some? && FirstSeen(obs) != Some(v) then 1 else 0
  }

  ghost predicate OnlyTwo(obs: seq<Observation>, v: string, w: string) {
    forall i :: 0 <= i < |obs| && obs[i].0.Some? ==> obs[i].0.value == v || obs[i].0.value == w
  }

  /** The counter never stands for `v` by less than `v`'s margin over all the rest together; with only two
      registers in play, by exactly that. Being seen second is worth one. */
  lemma {:induction false} StandingIsMargin(obs: seq<Observation>, v: string)
    ensures SeenAny(obs) == 0 ==> Vote(obs).value.None? && FirstSeen(obs).None?
    ensures SeenAny(obs) > 0 ==> Vote(obs).value.Some? && Vote(obs).count >= 1 && FirstSeen(obs).Some?
    ensures SeenAny(obs) > 0 ==> Standing(Vote(obs), v) >= Margin(obs, v) + Handicap(obs, v)
  {
    if obs != [] {
      StandingIsMargin(obs[..|obs| - 1], v);
      NoneSeen(obs[..|obs| - 1], v);
    }
  }

  lemma {:induction false} StandingOfTwo(obs: seq<Observation>, v: string, w: string)
    requires OnlyTwo(obs, v, w) && v != w && SeenAny(obs) > 0
    ensures Standing(Vote(obs), v) == Margin(obs, v) + Handicap(obs, v)
    ensures Vote(obs).value == Some(v) || Vote(obs).value == Some(w)
  {
    var front, o := obs[..|obs| - 1], obs[|obs| - 1].0;
    StandingIsMargin(front, v);
    NoneSeen(front, v);
    if SeenAny(front) > 0 { StandingOfTwo(front, v, w); }
  }

  lemma {:induction false} NoneSeen(obs: seq<Observation>, v: string)
    ensures Seen(obs, v) <= SeenAny(obs)
  {
    if obs != [] { NoneSeen(obs[..|obs| - 1], v); }
  }

  /** MAJORITY VOTE. A register seen in strictly more than half of the conversations that showed one is the
      stored one, in whatever order they came. */
  lemma MajorityWins(obs: seq<Observation>, v: string)
    requires 2 * Seen(obs, v) > SeenAny(obs)
    ensures Vote(obs).value == Some(v)
  {
    StandingIsMargin(obs, v);
    NoneSeen(obs, v);
  }

  /** With two registers the stored one is the majority, and a tie goes to the one not seen first. */
  lemma TwoRegistersExactly(obs: seq<Observation>, v: string, w: string)
    requires OnlyTwo(obs, v, w) && v != w && SeenAny(obs) > 0
    ensures Vote(obs).value == Some(v) <==>
              2 * Seen(obs, v) > SeenAny(obs)
              || (2 * Seen(obs, v) == SeenAny(obs) && FirstSeen(obs) != Some(v))
  {
    StandingIsMargin(obs, v);
    StandingOfTwo(obs, v, w);
  }

  function FoldAll(r: Register, obs: seq<Observation>): Register {
    if obs == [] then r else FoldRegister(FoldAll(r, obs[..|obs| - 1]), obs[|obs| - 1].0, obs[|obs| - 1].1)
  }

  /** A stored register with count `c` gives way to a steadily observed other one after exactly `c`
      conversations: not after two. */
  lemma {:induction false} FlipTakesExactlyTheCount(r: Register, obs: seq<Observation>, w: string)
    requires r.value.Some? && r.value != Some(w) && r.count >= 1
    requires |obs| <= r.count && forall i :: 0 <= i < |obs| ==> obs[i].0 == Some(w)
    ensures FoldAll(r, obs).value == if |obs| == r.count then Some(w) else r.value
    ensures FoldAll(r, obs).count == if |obs| == r.count then 1 else r.count - |obs|
  {
    if obs != [] { FlipTakesExactlyTheCount(r, obs[..|obs| - 1], w); }
  }

  // ---------- depth ----------

  function Min(a: int, b: int): int { if a < b then a else b }

  /** New evidence replaces the nudge outright; without evidence the window ages. */
  function FoldDepth(d: Depth, nudge: int, now: Time): Depth {
    if nudge != 0 then
      if nudge == d.nudge then
        Depth(nudge, Min(d.count + 1, DEPTH_WINDOW), if d.firstSeen.Some? then d.firstSeen else Some(now), Some(now))
      else Depth(nudge, 1, Some(now), Some(now))
    else if d.count > 0 then
      if d.count == 1 then Depth(0, 0, None, None)
      else d.(count := d.count - 1, lastSeen := Some(now))
    else d.(lastSeen := if d.count != 0 then Some(now) else None)
  }

  type Evidence = (int, Time)

  function Nudged(evidence: seq<Evidence>): Depth {
    if evidence == [] then EMPTY_PROFILE.depth
    else FoldDepth(Nudged(evidence[..|evidence| - 1]), evidence[|evidence| - 1].0, evidence[|evidence| - 1].1)
  }

  /** The latest evidence, and how many folds ago it was (0 for the last). */
  function Latest(evidence: seq<Evidence>): int {
    if evidence == [] then 0
    else if evidence[|evidence| - 1].0 != 0 then evidence[|evidence| - 1].0
    else Latest(evidence[..|evidence| - 1])
  }

  function Age(evidence: seq<Evidence>): nat {
    if evidence == [] || evidence[|evidence| - 1].0 != 0 then 0 else Age(evidence[..|evidence| - 1]) + 1
  }

  /** A nudge is always the latest evidence there was, and that evidence lies within the last five folds;
      evidence from the last fold is always the nudge. */
  lemma {:induction false} NudgeIsRecentEvidence(evidence: seq<Evidence>)
    ensures var d := Nudged(evidence);
            && 0 <= d.count <= DEPTH_WINDOW && (d.nudge != 0 <==> d.count > 0)
            && (d.nudge != 0 ==> d.nudge == Latest(evidence) && Age(evidence) + d.count <= DEPTH_WINDOW)
            && (evidence != [] && evidence[|evidence| - 1].0 != 0 ==> d.nudge == evidence[|evidence| - 1].0)
  {
    if evidence != [] { NudgeIsRecentEvidence(evidence[..|evidence| - 1]); }
  }

  function FoldDepths(d: Depth, evidence: seq<Evidence>): Depth {
    if evidence == [] then d
    else FoldDepth(FoldDepths(d, evidence[..|evidence| - 1]), evidence[|evidence| - 1].0, evidence[|evidence| - 1].1)
  }

  /** Left without evidence, a nudge with count `c` lasts exactly `c - 1` further folds. */
  lemma {:induction false} NudgeLastsItsCount(d: Depth, silence: seq<Evidence>)
    requires d.nudge != 0 && d.count >= 1 && forall i :: 0 <= i < |silence| ==> silence[i].0 == 0
    ensures FoldDepths(d, silence).nudge == if |silence| < d.count then d.nudge else 0
    ensures FoldDepths(d, silence).count == if |silence| < d.count then d.count - |silence| else 0
  {
    if silence != [] { NudgeLastsItsCount(d, silence[..|silence| - 1]); }
  }

  /** Evidence that keeps saying the same counts up to the window, from one where it says something new. */
  lemma {:induction false} NudgeCountsItsEvidence(d: Depth, steady: seq<Evidence>, nudge: int)
    requires nudge != 0 && steady != [] && forall i :: 0 <= i < |steady| ==> steady[i].0 == nudge
    requires d.nudge == nudge ==> 0 <= d.count <= DEPTH_WINDOW
    ensures FoldDepths(d, steady).nudge == nudge
    ensures FoldDepths(d, steady).count == Min(|steady| + if d.nudge == nudge then d.count else 0, DEPTH_WINDOW)
  {
    var front := steady[..|steady| - 1];
    if front == [] { assert FoldDepths(d, front) == d; } else { NudgeCountsItsEvidence(d, front, nudge); }
  }

  /** So a nudge from no evidence before, seen `n` times in a row, outlasts exactly `n` silent folds less one, four
      at the most. */
  lemma SteadyNudgeOutlasts(steady: seq<Evidence>, silence: seq<Evidence>, nudge: int)
    requires nudge != 0 && steady != [] && forall i :: 0 <= i < |steady| ==> steady[i].0 == nudge
    requires forall i :: 0 <= i < |silence| ==> silence[i].0 == 0
    ensures FoldDepths(FoldDepths(EMPTY_PROFILE.depth, steady), silence).nudge
            == if |silence| < |steady| && |silence| < 5 then nudge else 0
  {
    NudgeCountsItsEvidence(EMPTY_PROFILE.depth, steady, nudge);
    NudgeLastsItsCount(FoldDepths(EMPTY_PROFILE.depth, steady), silence);
  }

  ghost predicate NudgeAdoptedAt(evidence: seq<Evidence>, i: int) {
    && 0 <= i < |evidence| && evidence[i].0 == Nudged(evidence).nudge
    && Nudged(evidence).firstSeen == Some(evidence[i].1) && Nudged(evidence[..i]).nudge != evidence[i].0
    && forall j :: i < j <= |evidence| ==> Nudged(evidence[..j]).nudge == evidence[i].0
  }

  /** While there is a nudge it is dated from the conversation that brought it in to the last. */
  lemma {:induction false} NudgeIsDated(evidence: seq<Evidence>) returns (i: int)
    requires Nudged(evidence).nudge != 0
    ensures NudgeAdoptedAt(evidence, i) && Nudged(evidence).lastSeen == Some(evidence[|evidence| - 1].1)
  {
    var n := |evidence| - 1;
    var front := evidence[..n];
    assert evidence[..|evidence|] == evidence;
    NudgeIsRecentEvidence(front);
    forall j | 0 <= j <= n ensures front[..j] == evidence[..j] {}
    if Nudged(front).nudge == Nudged(evidence).nudge {
      i := NudgeIsDated(front);
      forall j | i < j <= |evidence| ensures Nudged(evidence[..j]).nudge == evidence[i].0 {
        if j <= n { assert front[..j] == evidence[..j]; }
      }
    } else {
      i := n;
    }
  }

  // ---------- gaps ----------

  function Find(stamps: seq<Stamp>, key: string): Option<Stamp> {
    if stamps == [] then None
    else if stamps[|stamps| - 1].key == key then Some(stamps[|stamps| - 1])
    else Find(stamps[..|stamps| - 1], key)
  }

  predicate Has(stamps: seq<Stamp>, key: string) { Find(stamps, key).Some? }

  function Restamp(prev: seq<Stamp>, key: string, now: Time): Stamp {
    var prior := Find(prev, key);
    if prior.Some? then Stamp(key, prior.value.first, now, prior.value.count + 1) else Stamp(key, now, now, 1)
  }

  /** The gaps reported now, in their order; a repeated key keeps its place. */
  function Reported(prev: seq<Stamp>, gaps: seq<string>, now: Time): seq<Stamp> {
    if gaps == [] then []
    else
      var so := Reported(prev, gaps[..|gaps| - 1], now);
      var key := gaps[|gaps| - 1];
      if Has(so, key) then so else so + [Restamp(prev, key, now)]
  }

  predicate StillFresh(s: Stamp, distilled: int) {
    distilled - (if s.count > 0 then s.count else 0) <= GAP_DECAY
  }

  /** Then the stored gaps not reported, while they are in vocabulary and inside the window. */
  function Carried(prev: seq<Stamp>, so: seq<Stamp>, vocab: set<string>, distilled: int): seq<Stamp> {
    if prev == [] then so
    else
      var s := prev[|prev| - 1];
      var all := Carried(prev[..|prev| - 1], so, vocab, distilled);
      if !Has(all, s.key) && s.key in vocab && StillFresh(s, distilled) then all + [s] else all
  }

  /** Stable, latest first. */
  function Insert(sorted: seq<Stamp>, s: Stamp): seq<Stamp> {
    if sorted == [] then [s]
    else if sorted[|sorted| - 1].last >= s.last then sorted + [s]
    else Insert(sorted[..|sorted| - 1], s) + [sorted[|sorted| - 1]]
  }

  function Sorted(stamps: seq<Stamp>): seq<Stamp> {
    if stamps == [] then [] else Insert(Sorted(stamps[..|stamps| - 1]), stamps[|stamps| - 1])
  }

  function FirstFew(stamps: seq<Stamp>): seq<Stamp> { if |stamps| <= MAX_GAPS then stamps else stamps[..MAX_GAPS] }

  function FoldGaps(prev: seq<Stamp>, gaps: seq<string>, vocab: set<string>, distilled: int, now: Time): seq<Stamp> {
    FirstFew(Sorted(Carried(prev, Reported(prev, gaps, now), vocab, distilled)))
  }

  function KeysOf(stamps: seq<Stamp>): (keys: seq<string>)
    ensures |keys| == |stamps| && forall i :: 0 <= i < |keys| ==> keys[i] == stamps[i].key
  {
    if stamps == [] then [] else KeysOf(stamps[..|stamps| - 1]) + [stamps[|stamps| - 1].key]
  }

  // ---------- the fold ----------

  function Fold(p: Profile, d: Distilled, vocab: set<string>, now: Time): Profile {
    var stamps := FoldGaps(p.stamps, d.gaps, vocab, p.sessionsDistilled + 1, now);
    Profile(
      FoldRegister(p.register, d.register, now), FoldDepth(p.depth, d.nudge, now), KeysOf(stamps), stamps,
      if d.name.Some? then d.name else p.statedName,
      if d.name.Some? && d.name != p.statedName then Some(now) else p.nameStatedAt,
      p.sessionsDistilled + 1)
  }

  method FoldProfile(p: Profile, d: Distilled, vocab: set<string>, now: Time) returns (q: Profile)
    ensures q == Fold(p, d, vocab, now)
  {
    var distilled := p.sessionsDistilled + 1;
    var register := CountRegister(p.register, d.register, now);
    var stamps := StampReported(p.stamps, d.gaps, now);
    stamps := CarryForward(p.stamps, stamps, vocab, distilled);
    stamps := FirstFew(Sorted(stamps));
    var depth := AgeDepth(p.depth, d.nudge, now);
    q := Profile(
      register, depth, KeysOf(stamps), stamps, if d.name.Some? then d.name else p.statedName,
      if d.name.Some? && d.name != p.statedName then Some(now) else p.nameStatedAt, distilled);
  }

  method CountRegister(r: Register, seen: Option<string>, now: Time) returns (q: Register)
    ensures q == FoldRegister(r, seen, now)
  {
    var value, count, first, last := r.value, r.count, r.firstSeen, if r.count != 0 then Some(now) else None;
    if seen.Some? {
      if value.None? {
        value, count, first, last := seen, 1, Some(now), Some(now);
      } else if seen == value {
        count, last := count + 1, Some(now);
      } else {
        count := if count > 0 then count - 1 else 0;
        if count == 0 {
          value, count, first, last := seen, REGISTER_HYSTERESIS - 1, Some(now), Some(now);
        }
      }
    }
    q := Register(value, count, first, last);
  }

  method AgeDepth(d: Depth, nudge: int, now: Time) returns (q: Depth)
    ensures q == FoldDepth(d, nudge, now)
  {
    var value, count, first, last := d.nudge, d.count, d.firstSeen, if d.count != 0 then Some(now) else None;
    if nudge != 0 {
      value := nudge;
      count := if nudge == d.nudge then Min(count + 1, DEPTH_WINDOW) else 1;
      first := if nudge == d.nudge && first.Some? then first else Some(now);
      last := Some(now);
    } else if count > 0 {
      count := count - 1;
      if count == 0 { value, first, last := 0, None, None; }
    }
    q := Depth(value, count, first, last);
  }

  method StampReported(prev: seq<Stamp>, gaps: seq<string>, now: Time) returns (stamps: seq<Stamp>)
    ensures stamps == Reported(prev, gaps, now)
  {
    stamps := [];
    for i := 0 to |gaps|
      invariant stamps == Reported(prev, gaps[..i], now)
    {
      assert gaps[..i + 1][..i] == gaps[..i];
      if !Has(stamps, gaps[i]) {
        var prior := Find(prev, gaps[i]);
        stamps := stamps
          + [if prior.Some? then Stamp(gaps[i], prior.value.first, now, prior.value.count + 1)
             else Stamp(gaps[i], now, now, 1)];
      }
    }
    assert gaps[..|gaps|] == gaps;
  }

  method CarryForward(prev: seq<Stamp>, so: seq<Stamp>, vocab: set<string>, distilled: int) returns (stamps: seq<Stamp>)
    ensures stamps == Carried(prev, so, vocab, distilled)
  {
    stamps := so;
    for i := 0 to |prev|
      invariant stamps == Carried(prev[..i], so, vocab, distilled)
    {
      assert prev[..i + 1][..i] == prev[..i];
      var s := prev[i];
      if !Has(stamps, s.key) && s.key in vocab {
        var age := distilled - (if s.count > 0 then s.count else 0);
        if age <= GAP_DECAY { stamps := stamps + [s]; }
      }
    }
    assert prev[..|prev|] == prev;
  }

  // ---------- gaps: the parts ----------

  ghost predicate DistinctStamps(ss: seq<Stamp>) {
    forall i, j :: 0 <= i < j < |ss| ==> ss[i].key != ss[j].key
  }

  ghost predicate Descending(ss: seq<Stamp>) {
    forall i, j :: 0 <= i < j < |ss| ==> ss[i].last >= ss[j].last
  }

  lemma {:induction false} FindFinds(ss: seq<Stamp>, key: string)
    ensures Has(ss, key) ==> Find(ss, key).value in ss && Find(ss, key).value.key == key
    ensures !Has(ss, key) <==> forall s :: s in ss ==> s.key != key
  {
    if ss != [] {
      var front, last := ss[..|ss| - 1], ss[|ss| - 1];
      FindFinds(front, key);
      assert ss == front + [last] && last in ss;
      assert forall s :: s in front ==> s in ss;
    }
  }

  lemma {:induction false} ReportedAre(prev: seq<Stamp>, gaps: seq<string>, now: Time)
    ensures DistinctStamps(Reported(prev, gaps, now))
    ensures forall s :: s in Reported(prev, gaps, now) ==> s.key in gaps && s == Restamp(prev, s.key, now)
    ensures forall k :: k in gaps ==> Has(Reported(prev, gaps, now), k)
  {
    if gaps != [] {
      var front, key := gaps[..|gaps| - 1], gaps[|gaps| - 1];
      ReportedAre(prev, front, now);
      assert gaps == front + [key];
      var so := Reported(prev, front, now);
      FindFinds(so, key);
      forall k | k in gaps ensures Has(Reported(prev, gaps, now), k) {
        if k in front { HasGrows(so, Restamp(prev, key, now), k); }
      }
    }
  }

  lemma HasGrows(ss: seq<Stamp>, s: Stamp, key: string)
    ensures Has(ss + [s], key) <==> Has(ss, key) || s.key == key
  {
    assert (ss + [s])[..|ss|] == ss;
  }

  lemma {:induction false} ReportedInOrder(prev: seq<Stamp>, gaps: seq<string>, now: Time)
    requires forall i, j :: 0 <= i < j < |gaps| ==> gaps[i] != gaps[j]
    ensures |Reported(prev, gaps, now)| == |gaps|
    ensures forall i :: 0 <= i < |gaps| ==> Reported(prev, gaps, now)[i].key == gaps[i]
  {
    if gaps != [] {
      var front, key := gaps[..|gaps| - 1], gaps[|gaps| - 1];
      ReportedInOrder(prev, front, now);
      FindFinds(Reported(prev, front, now), key);
    }
  }

  predicate Survives(prev: seq<Stamp>, so: seq<Stamp>, vocab: set<string>, distilled: int, s: Stamp) {
    s in prev && s.key in vocab && StillFresh(s, distilled) && !Has(so, s.key)
  }

  ghost predicate CarriedFrom(prev: seq<Stamp>, so: seq<Stamp>, vocab: set<string>, distilled: int, all: seq<Stamp>) {
    && DistinctStamps(all) && |so| <= |all| && all[..|so|] == so
    && forall i :: |so| <= i < |all| ==> Survives(prev, so, vocab, distilled, all[i])
  }

  /** The result of the carry: the reported stamps first, then stored ones that were not reported and are
      still fresh. */
  lemma {:induction false} CarriedAre(prev: seq<Stamp>, so: seq<Stamp>, vocab: set<string>, distilled: int)
    requires DistinctStamps(so)
    ensures CarriedFrom(prev, so, vocab, distilled, Carried(prev, so, vocab, distilled))
  {
    if prev != [] {
      var front, s := prev[..|prev| - 1], prev[|prev| - 1];
      CarriedAre(front, so, vocab, distilled);
      assert prev == front + [s];
      CarriedFromMore(front, s, so, vocab, distilled, Carried(front, so, vocab, distilled));
    } else {
      assert so[..|so|] == so;
    }
  }

  lemma CarriedFromMore(front: seq<Stamp>, s: Stamp, so: seq<Stamp>, vocab: set<string>, distilled: int,
                        all: seq<Stamp>)
    requires CarriedFrom(front, so, vocab, distilled, all)
    ensures CarriedFrom(front + [s], so, vocab, distilled, all)
    ensures !Has(all, s.key) && s.key in vocab && StillFresh(s, distilled) ==>
              CarriedFrom(front + [s], so, vocab, distilled, all + [s])
  {
    forall i | |so| <= i < |all| ensures Survives(front + [s], so, vocab, distilled, all[i]) {
      assert Survives(front, so, vocab, distilled, all[i]);
    }
    if !Has(all, s.key) && s.key in vocab && StillFresh(s, distilled) {
      NoStamp(all, s.key);
      forall i | 0 <= i < |so| ensures so[i].key != s.key { assert all[..|so|][i] == so[i]; }
      NoStamp(so, s.key);
      assert (all + [s])[..|so|] == all[..|so|];
      forall i | |so| <= i < |all + [s]| ensures Survives(front + [s], so, vocab, distilled, (all + [s])[i]) {
        if i < |all| { assert Survives(front, so, vocab, distilled, all[i]); }
      }
    }
  }

  /** And every such stamp is carried. */
  lemma {:induction false} SurvivorsAreCarried(prev: seq<Stamp>, so: seq<Stamp>, vocab: set<string>, distilled: int,
                                               s: Stamp)
    requires DistinctStamps(so) && DistinctStamps(prev) && Survives(prev, so, vocab, distilled, s)
    ensures s in Carried(prev, so, vocab, distilled)
  {
    var front, last := prev[..|prev| - 1], prev[|prev| - 1];
    assert prev == front + [last];
    if s != last {
      SurvivorsAreCarried(front, so, vocab, distilled, s);
    } else {
      CarriedAre(front, so, vocab, distilled);
      var all := Carried(front, so, vocab, distilled);
      NoStamp(so, s.key);
      forall i | 0 <= i < |all| ensures all[i].key != s.key {
        if i < |so| { assert all[..|so|][i] == so[i]; } else { assert Survives(front, so, vocab, distilled, all[i]); }
      }
      NoStamp(all, s.key);
    }
  }

  lemma {:induction false} NoStamp(ss: seq<Stamp>, key: string)
    ensures !Has(ss, key) <==> forall i :: 0 <= i < |ss| ==> ss[i].key != key
  {
    if ss != [] { NoStamp(ss[..|ss| - 1], key); }
  }

  lemma {:induction false} InsertMembers(sorted: seq<Stamp>, s: Stamp)
    ensures |Insert(sorted, s)| == |sorted| + 1
    ensures forall x :: x in Insert(sorted, s) <==> x == s || x in sorted
  {
    if sorted != [] {
      InsertMembers(sorted[..|sorted| - 1], s);
      assert sorted == sorted[..|sorted| - 1] + [sorted[|sorted| - 1]];
    }
  }

  lemma {:induction false} InsertSorts(sorted: seq<Stamp>, s: Stamp)
    requires Descending(sorted)
    ensures Descending(Insert(sorted, s))
  {
    if sorted != [] && sorted[|sorted| - 1].last < s.last {
      var front, t := sorted[..|sorted| - 1], sorted[|sorted| - 1];
      InsertSorts(front, s);
      InsertMembers(front, s);
      var inner := Insert(front, s);
      forall i | 0 <= i < |inner| ensures inner[i].last >= t.last { assert inner[i] in inner; }
    }
  }

  lemma {:induction false} InsertStaysDistinct(sorted: seq<Stamp>, s: Stamp)
    requires DistinctStamps(sorted) && forall i :: 0 <= i < |sorted| ==> sorted[i].key != s.key
    ensures DistinctStamps(Insert(sorted, s))
  {
    if sorted != [] && sorted[|sorted| - 1].last < s.last {
      var front, t := sorted[..|sorted| - 1], sorted[|sorted| - 1];
      InsertStaysDistinct(front, s);
      InsertMembers(front, s);
      var inner := Insert(front, s);
      forall i | 0 <= i < |inner| ensures inner[i].key != t.key { assert inner[i] in inner; }
    }
  }

  lemma {:induction false} SortedSorts(ss: seq<Stamp>)
    ensures Descending(Sorted(ss)) && |Sorted(ss)| == |ss|
    ensures forall x :: x in Sorted(ss) <==> x in ss
    ensures DistinctStamps(ss) ==> DistinctStamps(Sorted(ss))
  {
    if ss != [] {
      var front, s := ss[..|ss| - 1], ss[|ss| - 1];
      SortedSorts(front);
      InsertSorts(Sorted(front), s);
      InsertMembers(Sorted(front), s);
      assert ss == front + [s];
      if DistinctStamps(ss) { InsertKeepsDistinct(ss, Sorted(front)); }
    }
  }

  lemma InsertKeepsDistinct(ss: seq<Stamp>, sorted: seq<Stamp>)
    requires ss != [] && DistinctStamps(ss) && DistinctStamps(sorted)
    requires forall x :: x in sorted ==> x in ss[..|ss| - 1]
    ensures DistinctStamps(Insert(sorted, ss[|ss| - 1]))
  {
    var front := ss[..|ss| - 1];
    forall i | 0 <= i < |sorted| ensures sorted[i].key != ss[|ss| - 1].key {
      assert sorted[i] in sorted;
      var k :| 0 <= k < |front| && front[k] == sorted[i];
      assert ss[k] == sorted[i];
    }
    InsertStaysDistinct(sorted, ss[|ss| - 1]);
  }

  lemma {:induction false} InsertKeepsPrefix(sorted: seq<Stamp>, s: Stamp, n: nat)
    requires n <= |sorted| && forall i :: 0 <= i < n ==> sorted[i].last >= s.last
    ensures |Insert(sorted, s)| == |sorted| + 1 && Insert(sorted, s)[..n] == sorted[..n]
  {
    if sorted != [] && sorted[|sorted| - 1].last < s.last {
      InsertKeepsPrefix(sorted[..|sorted| - 1], s, n);
    }
  }

  /** Stability: what is newest and comes first stays first, in its order. */
  lemma {:induction false} NewestFirstStay(ss: seq<Stamp>, n: nat, now: Time)
    requires n <= |ss| && forall i :: 0 <= i < n ==> ss[i].last == now
    requires forall i :: 0 <= i < |ss| ==> ss[i].last <= now
    ensures |Sorted(ss)| == |ss| && Sorted(ss)[..n] == ss[..n]
  {
    if ss != [] {
      var front, s := ss[..|ss| - 1], ss[|ss| - 1];
      var m := if n < |ss| then n else n - 1;
      NewestFirstStay(front, m, now);
      forall i | 0 <= i < m ensures Sorted(front)[i].last >= s.last { assert Sorted(front)[..m][i] == front[..m][i]; }
      InsertKeepsPrefix(Sorted(front), s, m);
      if n == |ss| {
        assert Sorted(front) == front;
        assert Sorted(ss) == ss;
      }
    }
  }

  // ---------- gaps: main results ----------

  ghost predicate Bounded(ss: seq<Stamp>, vocab: set<string>) {
    |ss| <= MAX_GAPS && DistinctStamps(ss) && forall s :: s in ss ==> s.key in vocab
  }

  /** Everything the fold keeps was reported now, or is an old stamp, unchanged, not reported and still fresh. */
  lemma FoldedGapsAre(prev: seq<Stamp>, gaps: seq<string>, vocab: set<string>, distilled: int, now: Time)
    ensures var ss := FoldGaps(prev, gaps, vocab, distilled, now);
            && |ss| <= MAX_GAPS && DistinctStamps(ss)
            && (forall s :: s in ss ==>
                  || (s.key in gaps && s == Restamp(prev, s.key, now))
                  || (s.key !in gaps && s in prev && s.key in vocab && StillFresh(s, distilled)))
  {
    var so := Reported(prev, gaps, now);
    ReportedAre(prev, gaps, now);
    var all := Carried(prev, so, vocab, distilled);
    CarriedAre(prev, so, vocab, distilled);
    SortedSorts(all);
    var ss := FoldGaps(prev, gaps, vocab, distilled, now);
    forall s | s in ss
      ensures (s.key in gaps && s == Restamp(prev, s.key, now))
              || (s.key !in gaps && s in prev && s.key in vocab && StillFresh(s, distilled))
    {
      assert s in Sorted(all);
      var i :| 0 <= i < |all| && all[i] == s;
      if i < |so| {
        assert s == all[..|so|][i] && s in so;
      } else {
        assert Survives(prev, so, vocab, distilled, all[i]);
      }
    }
  }

  /** All that the list would hold were it not cut at eight. */
  function Candidates(prev: seq<Stamp>, gaps: seq<string>, vocab: set<string>, distilled: int, now: Time): seq<Stamp> {
    Carried(prev, Reported(prev, gaps, now), vocab, distilled)
  }

  lemma UnreportedIsCandidate(prev: seq<Stamp>, gaps: seq<string>, vocab: set<string>, distilled: int, now: Time,
                              s: Stamp)
    requires DistinctStamps(prev) && s in prev && s.key in vocab && s.key !in gaps && StillFresh(s, distilled)
    ensures s in Sorted(Candidates(prev, gaps, vocab, distilled, now))
  {
    var so := Reported(prev, gaps, now);
    ReportedAre(prev, gaps, now);
    FindFinds(so, s.key);
    SurvivorsAreCarried(prev, so, vocab, distilled, s);
    SortedSorts(Candidates(prev, gaps, vocab, distilled, now));
  }

  /** KEPT EXACTLY WHILE FRESH. With room for all, a stored gap not reported now is kept if and only if it is
      still inside the window. */
  lemma KeptExactlyWhileFresh(prev: seq<Stamp>, gaps: seq<string>, vocab: set<string>, distilled: int, now: Time,
                              s: Stamp)
    requires DistinctStamps(prev) && s in prev && s.key in vocab && s.key !in gaps
    requires |Candidates(prev, gaps, vocab, distilled, now)| <= MAX_GAPS
    ensures s in FoldGaps(prev, gaps, vocab, distilled, now) <==> StillFresh(s, distilled)
  {
    FoldedGapsAre(prev, gaps, vocab, distilled, now);
    SortedSorts(Candidates(prev, gaps, vocab, distilled, now));
    if StillFresh(s, distilled) { UnreportedIsCandidate(prev, gaps, vocab, distilled, now, s); }
  }

  /** Without room, a fresh gap is dropped only for eight others at least as recent. */
  lemma DroppedForEightAsRecent(prev: seq<Stamp>, gaps: seq<string>, vocab: set<string>, distilled: int, now: Time,
                                s: Stamp)
    requires DistinctStamps(prev) && s in prev && s.key in vocab && s.key !in gaps && StillFresh(s, distilled)
    requires s !in FoldGaps(prev, gaps, vocab, distilled, now)
    ensures var ss := FoldGaps(prev, gaps, vocab, distilled, now);
            |ss| == 8 && forall x :: x in ss ==> x.last >= s.last
  {
    var sorted := Sorted(Candidates(prev, gaps, vocab, distilled, now));
    UnreportedIsCandidate(prev, gaps, vocab, distilled, now, s);
    SortedSorts(Candidates(prev, gaps, vocab, distilled, now));
    var k :| 0 <= k < |sorted| && sorted[k] == s;
    var ss := FoldGaps(prev, gaps, vocab, distilled, now);
    assert forall i :: 0 <= i < |ss| ==> ss[i] == sorted[i] && ss[i] in ss;
  }

  /** At most eight gaps, all different, all in vocabulary. */
  lemma FoldKeepsGapsBounded(prev: seq<Stamp>, gaps: seq<string>, vocab: set<string>, distilled: int, now: Time)
    requires forall k :: k in gaps ==> k in vocab
    ensures Bounded(FoldGaps(prev, gaps, vocab, distilled, now), vocab)
  {
    FoldedGapsAre(prev, gaps, vocab, distilled, now);
  }

  /** What this conversation reported heads the list, in its order: with a clock that does not run back, no
      older gap can displace it. */
  lemma ReportedGapsAreKept(prev: seq<Stamp>, gaps: seq<string>, vocab: set<string>, distilled: int, now: Time)
    requires |gaps| <= MAX_GAPS && forall i, j :: 0 <= i < j < |gaps| ==> gaps[i] != gaps[j]
    requires forall s :: s in prev ==> s.last <= now
    ensures var keys := KeysOf(FoldGaps(prev, gaps, vocab, distilled, now));
            |gaps| <= |keys| && keys[..|gaps|] == gaps
  {
    var so := Reported(prev, gaps, now);
    ReportedAre(prev, gaps, now);
    ReportedInOrder(prev, gaps, now);
    var all := Carried(prev, so, vocab, distilled);
    CarriedAre(prev, so, vocab, distilled);
    var n := |gaps|;
    forall i | 0 <= i < n ensures all[i] == so[i] && all[i].last == now {
      assert all[..n][i] == so[i] && so[i] in so;
    }
    forall i | 0 <= i < |all| ensures all[i].last <= now {
      if i >= n { assert Survives(prev, so, vocab, distilled, all[i]); }
    }
    NewestFirstStay(all, n, now);
    var ss := FoldGaps(prev, gaps, vocab, distilled, now);
    forall i | 0 <= i < n ensures ss[i].key == gaps[i] {
      assert Sorted(all)[..n][i] == all[..n][i];
    }
  }

  // ---------- over runs ----------

  type Conversation = (Distilled, Time)

  function FoldRun(p: Profile, run: seq<Conversation>, vocab: set<string>): Profile {
    if run == [] then p
    else Fold(FoldRun(p, run[..|run| - 1], vocab), run[|run| - 1].0, vocab, run[|run| - 1].1)
  }

  /** No stamp counts more sightings than there were distillations. */
  ghost predicate Counted(p: Profile) {
    p.sessionsDistilled >= 0 && forall s :: s in p.stamps ==> s.count <= p.sessionsDistilled
  }

  lemma FoldKeepsCounted(p: Profile, d: Distilled, vocab: set<string>, now: Time)
    requires Counted(p)
    ensures Counted(Fold(p, d, vocab, now))
  {
    FoldedGapsAre(p.stamps, d.gaps, vocab, p.sessionsDistilled + 1, now);
    forall s | s in Fold(p, d, vocab, now).stamps ensures s.count <= p.sessionsDistilled + 1 {
      FindFinds(p.stamps, s.key);
    }
  }

  /** A stamp kept without having been reported is the stored one, and still fresh. */
  lemma UnreportedStep(q: Profile, d: Distilled, vocab: set<string>, now: Time, s: Stamp)
    requires s in Fold(q, d, vocab, now).stamps && s.key !in d.gaps
    ensures s in q.stamps && StillFresh(s, q.sessionsDistilled + 1)
  {
    FoldedGapsAre(q.stamps, d.gaps, vocab, q.sessionsDistilled + 1, now);
  }

  lemma ReportedStep(q: Profile, d: Distilled, vocab: set<string>, now: Time, s: Stamp)
    requires s in Fold(q, d, vocab, now).stamps && s.key in d.gaps
    ensures s == Restamp(q.stamps, s.key, now)
  {
    FoldedGapsAre(q.stamps, d.gaps, vocab, q.sessionsDistilled + 1, now);
  }

  lemma {:induction false} UnreportedIsOld(p: Profile, run: seq<Conversation>, vocab: set<string>, s: Stamp)
    requires s in FoldRun(p, run, vocab).stamps && forall i :: 0 <= i < |run| ==> s.key !in run[i].0.gaps
    ensures s in p.stamps
    ensures run != [] ==> StillFresh(s, p.sessionsDistilled + |run|)
  {
    if run != [] {
      var front := run[..|run| - 1];
      RunCounts(p, front, vocab);
      UnreportedStep(FoldRun(p, front, vocab), run[|run| - 1].0, vocab, run[|run| - 1].1, s);
      UnreportedIsOld(p, front, vocab, s);
    }
  }

  lemma {:induction false} RunCounts(p: Profile, run: seq<Conversation>, vocab: set<string>)
    ensures FoldRun(p, run, vocab).sessionsDistilled == p.sessionsDistilled + |run|
    ensures Counted(p) ==> Counted(FoldRun(p, run, vocab))
  {
    if run != [] {
      RunCounts(p, run[..|run| - 1], vocab);
      if Counted(p) {
        FoldKeepsCounted(FoldRun(p, run[..|run| - 1], vocab), run[|run| - 1].0, vocab, run[|run| - 1].1);
      }
    }
  }

  /** No gap survives eleven conversations in a row that do not report it. */
  lemma GoneWithinEleven(p: Profile, run: seq<Conversation>, vocab: set<string>, key: string)
    requires Counted(p) && |run| >= 11
    requires forall i :: 0 <= i < |run| ==> key !in run[i].0.gaps
    ensures forall s :: s in FoldRun(p, run, vocab).stamps ==> s.key != key
  {
    forall s | s in FoldRun(p, run, vocab).stamps ensures s.key != key {
      if s.key == key { UnreportedIsOld(p, run, vocab, s); }
    }
  }

  // ---------- how long a gap lasts, exactly ----------

  /** At no conversation of the run did the list have to be cut. */
  ghost predicate NeverCrowded(p: Profile, run: seq<Conversation>, vocab: set<string>) {
    run == []
    || (&& NeverCrowded(p, run[..|run| - 1], vocab)
        && var q, c := FoldRun(p, run[..|run| - 1], vocab), run[|run| - 1];
           |Candidates(q.stamps, c.0.gaps, vocab, q.sessionsDistilled + 1, c.1)| <= MAX_GAPS)
  }

  /** One conversation that does not report the gap. */
  lemma UnreportedFold(q: Profile, c: Conversation, vocab: set<string>, s: Stamp)
    requires DistinctStamps(q.stamps) && s.key in vocab && s.key !in c.0.gaps
    requires |Candidates(q.stamps, c.0.gaps, vocab, q.sessionsDistilled + 1, c.1)| <= MAX_GAPS
    ensures s in Fold(q, c.0, vocab, c.1).stamps <==> s in q.stamps && StillFresh(s, q.sessionsDistilled + 1)
  {
    FoldedGapsAre(q.stamps, c.0.gaps, vocab, q.sessionsDistilled + 1, c.1);
    if s in q.stamps { KeptExactlyWhileFresh(q.stamps, c.0.gaps, vocab, q.sessionsDistilled + 1, c.1, s); }
  }

  lemma FoldIsDistinct(q: Profile, c: Conversation, vocab: set<string>)
    ensures DistinctStamps(Fold(q, c.0, vocab, c.1).stamps)
  {
    FoldedGapsAre(q.stamps, c.0.gaps, vocab, q.sessionsDistilled + 1, c.1);
  }

  lemma RunStaysDistinct(p: Profile, run: seq<Conversation>, vocab: set<string>)
    requires DistinctStamps(p.stamps)
    ensures DistinctStamps(FoldRun(p, run, vocab).stamps)
  {
    if run != [] { FoldIsDistinct(FoldRun(p, run[..|run| - 1], vocab), run[|run| - 1], vocab); }
  }

  /** THE EXACT LIFETIME. While it is not reported and the list not cut, a gap is still there after a run of
      conversations exactly when its window has not closed at the last of them: when the conversations there
      have been, less its sightings, are no more than ten. */
  lemma {:induction false} LastsExactly(p: Profile, run: seq<Conversation>, vocab: set<string>, s: Stamp)
    requires DistinctStamps(p.stamps) && s in p.stamps && s.key in vocab && run != []
    requires (forall i :: 0 <= i < |run| ==> s.key !in run[i].0.gaps) && NeverCrowded(p, run, vocab)
    ensures s in FoldRun(p, run, vocab).stamps <==> StillFresh(s, p.sessionsDistilled + |run|)
  {
    var front, c := run[..|run| - 1], run[|run| - 1];
    var q := FoldRun(p, front, vocab);
    RunCounts(p, front, vocab);
    RunStaysDistinct(p, front, vocab);
    if front != [] { LastsExactly(p, front, vocab, s); }
    UnreportedFold(q, c, vocab, s);
  }

  /** Conversations that report no gap at all. */
  ghost predicate Silent(run: seq<Conversation>) { forall i :: 0 <= i < |run| ==> run[i].0.gaps == [] }

  lemma {:induction false} NothingToCarry(prev: seq<Stamp>, vocab: set<string>, distilled: int)
    ensures |Carried(prev, [], vocab, distilled)| <= |prev|
  {
    if prev != [] { NothingToCarry(prev[..|prev| - 1], vocab, distilled); }
  }

  lemma SilentStep(q: Profile, c: Conversation, vocab: set<string>)
    requires |q.stamps| <= MAX_GAPS && c.0.gaps == []
    ensures |Candidates(q.stamps, c.0.gaps, vocab, q.sessionsDistilled + 1, c.1)| <= MAX_GAPS
    ensures |Fold(q, c.0, vocab, c.1).stamps| <= MAX_GAPS
  {
    NothingToCarry(q.stamps, vocab, q.sessionsDistilled + 1);
    FoldedGapsAre(q.stamps, c.0.gaps, vocab, q.sessionsDistilled + 1, c.1);
  }

  lemma {:induction false} SilenceIsNeverCrowded(p: Profile, run: seq<Conversation>, vocab: set<string>)
    requires |p.stamps| <= MAX_GAPS && Silent(run)
    ensures NeverCrowded(p, run, vocab) && |FoldRun(p, run, vocab).stamps| <= MAX_GAPS
  {
    if run != [] {
      SilenceIsNeverCrowded(p, run[..|run| - 1], vocab);
      SilentStep(FoldRun(p, run[..|run| - 1], vocab), run[|run| - 1], vocab);
    }
  }

  lemma SilenceIsSurvivedExactly(p: Profile, run: seq<Conversation>, vocab: set<string>, s: Stamp)
    requires Bounded(p.stamps, vocab) && s in p.stamps && s.count > 0 && Silent(run) && run != []
    ensures s in FoldRun(p, run, vocab).stamps <==> p.sessionsDistilled + |run| - s.count <= 10
  {
    SilenceIsNeverCrowded(p, run, vocab);
    LastsExactly(p, run, vocab, s);
  }

  /** The documented rule, for a gap just sighted: kept through ten conversations without it and no longer. */
  ghost predicate LastsTheDocumentedWindow(p: Profile, vocab: set<string>, s: Stamp) {
    forall run: seq<Conversation> :: Silent(run) && run != [] ==>
      (s in FoldRun(p, run, vocab).stamps <==> |run| <= 10)
  }

  function Quiet(n: nat): seq<Conversation> { seq(n, _ => (Distilled(None, 0, [], None), 0)) }

  /** THE DOCUMENTED RULE HOLDS EXACTLY for a gap that every conversation so far has shown; any other is dropped
      earlier, by as many conversations as did not show it. */
  lemma DocumentedWindowExactlyWhen(p: Profile, vocab: set<string>, s: Stamp)
    requires Bounded(p.stamps, vocab) && Counted(p) && s in p.stamps && s.count > 0
    ensures LastsTheDocumentedWindow(p, vocab, s) <==> s.count == p.sessionsDistilled
  {
    forall run: seq<Conversation> | Silent(run) && run != []
      ensures s in FoldRun(p, run, vocab).stamps <==> p.sessionsDistilled + |run| - s.count <= GAP_DECAY
    {
      SilenceIsSurvivedExactly(p, run, vocab, s);
    }
    assert Silent(Quiet(GAP_DECAY)) && |Quiet(GAP_DECAY)| == GAP_DECAY;
  }

  /** A gap first reported now lasts ten conversations less those the reader had before it. */
  lemma NewGapLastsExactly(p: Profile, d: Distilled, now: Time, run: seq<Conversation>, vocab: set<string>, key: string)
    requires Bounded(p.stamps, vocab) && !Has(p.stamps, key) && key in d.gaps
    requires |d.gaps| <= MAX_GAPS && (forall i, j :: 0 <= i < j < |d.gaps| ==> d.gaps[i] != d.gaps[j])
    requires (forall k :: k in d.gaps ==> k in vocab) && (forall s :: s in p.stamps ==> s.last <= now)
    requires Silent(run) && run != []
    ensures Has(FoldRun(Fold(p, d, vocab, now), run, vocab).stamps, key) <==> p.sessionsDistilled + |run| <= GAP_DECAY
  {
    var q, s := Fold(p, d, vocab, now), Stamp(key, now, now, 1);
    FoldKeepsGapsBounded(p.stamps, d.gaps, vocab, p.sessionsDistilled + 1, now);
    ReportedGapsAreKept(p.stamps, d.gaps, vocab, p.sessionsDistilled + 1, now);
    var k :| 0 <= k < |d.gaps| && d.gaps[k] == key;
    assert KeysOf(q.stamps)[..|d.gaps|][k] == key;
    assert q.stamps[k] in q.stamps && q.stamps[k].key == key;
    ReportedStep(p, d, vocab, now, q.stamps[k]);
    SilenceIsSurvivedExactly(q, run, vocab, s);
    var after := FoldRun(q, run, vocab).stamps;
    FindFinds(after, key);
    forall x | x in after && x.key == key ensures x == s {
      forall i | 0 <= i < |run| ensures x.key !in run[i].0.gaps { assert run[i].0.gaps == []; }
      UnreportedIsOld(q, run, vocab, x);
      ReportedStep(p, d, vocab, now, x);
    }
  }

  // ---------- the votes and the list, over runs ----------

  function RegistersOf(run: seq<Conversation>): (obs: seq<Observation>) {
    if run == [] then [] else RegistersOf(run[..|run| - 1]) + [(run[|run| - 1].0.register, run[|run| - 1].1)]
  }

  function NudgesOf(run: seq<Conversation>): (evidence: seq<Evidence>) {
    if run == [] then [] else NudgesOf(run[..|run| - 1]) + [(run[|run| - 1].0.nudge, run[|run| - 1].1)]
  }

  /** A reader's stored register is the vote, and the stored nudge the evidence, of all their conversations: what
      is proved of votes and evidence is true of every profile ever formed. */
  lemma {:induction false} ProfileIsTheVote(run: seq<Conversation>, vocab: set<string>)
    ensures FoldRun(EMPTY_PROFILE, run, vocab).register == Vote(RegistersOf(run))
    ensures FoldRun(EMPTY_PROFILE, run, vocab).depth == Nudged(NudgesOf(run))
  {
    if run != [] {
      var front, c := run[..|run| - 1], run[|run| - 1];
      ProfileIsTheVote(front, vocab);
      assert RegistersOf(run)[..|run| - 1] == RegistersOf(front) by { LengthsAgree(front); }
      assert NudgesOf(run)[..|run| - 1] == NudgesOf(front) by { LengthsAgree(front); }
      LengthsAgree(run);
    }
  }

  lemma {:induction false} LengthsAgree(run: seq<Conversation>)
    ensures |RegistersOf(run)| == |run| == |NudgesOf(run)|
  {
    if run != [] { LengthsAgree(run[..|run| - 1]); }
  }

  /** The clock never ran back. */
  ghost predicate InOrder(run: seq<Conversation>) { forall i, j :: 0 <= i < j < |run| ==> run[i].1 <= run[j].1 }

  predicate StampedBy(ss: seq<Stamp>, now: Time) { forall s :: s in ss ==> s.last <= now }

  lemma FoldStampsBy(q: Profile, c: Conversation, vocab: set<string>)
    requires StampedBy(q.stamps, c.1)
    ensures StampedBy(Fold(q, c.0, vocab, c.1).stamps, c.1)
  {
    FoldedGapsAre(q.stamps, c.0.gaps, vocab, q.sessionsDistilled + 1, c.1);
  }

  lemma {:induction false} StampsAreOfTheRun(run: seq<Conversation>, vocab: set<string>, now: Time)
    requires InOrder(run) && (run != [] ==> run[|run| - 1].1 <= now)
    ensures StampedBy(FoldRun(EMPTY_PROFILE, run, vocab).stamps, now)
  {
    if run != [] {
      var front, c := run[..|run| - 1], run[|run| - 1];
      StampsAreOfTheRun(front, vocab, c.1);
      FoldStampsBy(FoldRun(EMPTY_PROFILE, front, vocab), c, vocab);
    }
  }

  lemma FoldHeadsWithReport(q: Profile, c: Conversation, vocab: set<string>)
    requires StampedBy(q.stamps, c.1) && |c.0.gaps| <= MAX_GAPS
    requires forall i, j :: 0 <= i < j < |c.0.gaps| ==> c.0.gaps[i] != c.0.gaps[j]
    ensures c.0.gaps <= Fold(q, c.0, vocab, c.1).gaps
  {
    ReportedGapsAreKept(q.stamps, c.0.gaps, vocab, q.sessionsDistilled + 1, c.1);
  }

  /** So over any history the last conversation's gaps head the list, in their order. */
  lemma LastReportHeadsTheList(run: seq<Conversation>, vocab: set<string>)
    requires InOrder(run) && run != []
    requires var gaps := run[|run| - 1].0.gaps;
             |gaps| <= MAX_GAPS && forall i, j :: 0 <= i < j < |gaps| ==> gaps[i] != gaps[j]
    ensures run[|run| - 1].0.gaps <= FoldRun(EMPTY_PROFILE, run, vocab).gaps
  {
    var front, c := run[..|run| - 1], run[|run| - 1];
    StampsAreOfTheRun(front, vocab, c.1);
    FoldHeadsWithReport(FoldRun(EMPTY_PROFILE, front, vocab), c, vocab);
  }

  /** Whatever else is reported, a gap first reported by a reader with ten conversations behind them is gone
      after a single conversation without it. */
  lemma NewGapOfAnOldReaderLastsOneFold(p: Profile, d: Distilled, d2: Distilled, vocab: set<string>, now: Time,
                                        now2: Time, key: string)
    requires p.sessionsDistilled >= GAP_DECAY && !Has(p.stamps, key) && key in d.gaps && key !in d2.gaps
    ensures forall s :: s in Fold(Fold(p, d, vocab, now), d2, vocab, now2).stamps ==> s.key != key
  {
    var q := Fold(p, d, vocab, now);
    forall s | s in Fold(q, d2, vocab, now2).stamps ensures s.key != key {
      if s.key == key {
        UnreportedStep(q, d2, vocab, now2, s);
        ReportedStep(p, d, vocab, now, s);
      }
    }
  }

  // ---------- names, and what the times and counts record ----------

  /** The name last stated in a run, if any was. */
  function LastStated(run: seq<Conversation>): Option<string> {
    if run == [] then None
    else if run[|run| - 1].0.name.Some? then run[|run| - 1].0.name
    else LastStated(run[..|run| - 1])
  }

  /** A LATER NAME REPLACES AN EARLIER ONE, and silence keeps it. */
  lemma {:induction false} LastNameStands(p: Profile, run: seq<Conversation>, vocab: set<string>)
    ensures FoldRun(p, run, vocab).statedName == if LastStated(run).Some? then LastStated(run) else p.statedName
  {
    if run != [] { LastNameStands(p, run[..|run| - 1], vocab); }
  }

  /** Conversation `i` brought in the name last stated: before it another stood, since then no other did. */
  ghost predicate BroughtIn(run: seq<Conversation>, i: int) {
    && 0 <= i < |run| && run[i].0.name == LastStated(run) != LastStated(run[..i])
    && forall j :: i < j < |run| ==> run[j].0.name.None? || run[j].0.name == LastStated(run)
  }

  lemma BroughtInStill(front: seq<Conversation>, c: Conversation, i: int)
    requires BroughtIn(front, i) && LastStated(front + [c]) == LastStated(front)
    ensures BroughtIn(front + [c], i)
  {
    var run := front + [c];
    assert run[..|front|] == front && run[..i] == front[..i];
    forall j | i < j < |run| ensures run[j].0.name.None? || run[j].0.name == LastStated(run) {
      if j < |front| { assert run[j] == front[j]; }
    }
  }

  lemma NameStep(p: Profile, run: seq<Conversation>, vocab: set<string>)
    requires run != []
    ensures var front, c := run[..|run| - 1], run[|run| - 1];
            var q := FoldRun(p, front, vocab);
            FoldRun(p, run, vocab).nameStatedAt
            == if c.0.name.Some? && c.0.name != q.statedName then Some(c.1) else q.nameStatedAt
  {
  }

  /** A name is dated from the conversation that brought it in, not from those that repeat it. */
  lemma {:induction false} NameIsDated(run: seq<Conversation>, vocab: set<string>) returns (i: int)
    requires LastStated(run).Some?
    ensures BroughtIn(run, i) && FoldRun(EMPTY_PROFILE, run, vocab).nameStatedAt == Some(run[i].1)
  {
    var front, c := run[..|run| - 1], run[|run| - 1];
    NameStep(EMPTY_PROFILE, run, vocab);
    LastNameStands(EMPTY_PROFILE, front, vocab);
    if LastStated(front) == LastStated(run) {
      i := NameIsDated(front, vocab);
      assert run == front + [c];
      BroughtInStill(front, c, i);
    } else {
      i := |front|;
    }
  }

  /** A time a counter keeps is that of the conversation that brought in the value it counts. */
  ghost predicate AdoptedAt(obs: seq<Observation>, i: int) {
    && 0 <= i < |obs| && obs[i].0 == Vote(obs).value && Vote(obs).firstSeen == Some(obs[i].1)
    && (i > 0 ==> Vote(obs[..i]).value != obs[i].0)
    && forall j :: i < j <= |obs| ==> Vote(obs[..j]).value == obs[i].0
  }

  /** Once a register has been observed, the stored one is dated from the conversation that made it the stored one
      to the last. */
  lemma {:induction false} RegisterIsDated(obs: seq<Observation>) returns (i: int)
    requires SeenAny(obs) > 0
    ensures AdoptedAt(obs, i) && Vote(obs).lastSeen == Some(obs[|obs| - 1].1)
  {
    var n := |obs| - 1;
    var front := obs[..n];
    assert obs[..|obs|] == obs;
    StandingIsMargin(front, "");
    StandingIsMargin(obs, "");
    forall j | 0 <= j <= n ensures front[..j] == obs[..j] {}
    if SeenAny(front) > 0 && Vote(obs).value == Vote(front).value {
      i := RegisterIsDated(front);
      forall j | i < j <= |obs| ensures Vote(obs[..j]).value == obs[i].0 {
        if j <= n { assert front[..j] == obs[..j]; }
      }
    } else {
      i := n;
    }
  }

  function Sightings(run: seq<Conversation>, from: nat, key: string): nat {
    if |run| <= from then 0
    else Sightings(run[..|run| - 1], from, key) + if key in run[|run| - 1].0.gaps then 1 else 0
  }

  function LastSighting(run: seq<Conversation>, key: string): Option<Time> {
    if run == [] then None
    else if key in run[|run| - 1].0.gaps then Some(run[|run| - 1].1)
    else LastSighting(run[..|run| - 1], key)
  }

  ghost predicate RecordsSince(s: Stamp, run: seq<Conversation>, i: int) {
    && 0 <= i < |run| && s.key in run[i].0.gaps && s.first == run[i].1
    && s.count == Sightings(run, i, s.key) && Some(s.last) == LastSighting(run, s.key)
  }

  /** A STAMP IS A RECORD OF SIGHTINGS: its first time is that of the conversation it has been kept since, its last
      that of the latest to report the gap, and its count how many have. */
  lemma {:induction false} StampsAreSightings(run: seq<Conversation>, vocab: set<string>, s: Stamp) returns (i: int)
    requires s in FoldRun(EMPTY_PROFILE, run, vocab).stamps
    ensures RecordsSince(s, run, i)
  {
    var n := |run| - 1;
    var q, c := FoldRun(EMPTY_PROFILE, run[..n], vocab), run[n];
    FoldedGapsAre(q.stamps, c.0.gaps, vocab, q.sessionsDistilled + 1, c.1);
    if s.key in c.0.gaps && Has(q.stamps, s.key) {
      FindFinds(q.stamps, s.key);
      i := StampsAreSightings(run[..n], vocab, Find(q.stamps, s.key).value);
    } else if s.key in c.0.gaps {
      i := n;
    } else {
      i := StampsAreSightings(run[..n], vocab, s);
    }
  }

  // ---------- the clamp on the model's reply ----------

  /** The fields of the reply's JSON object, each absent when it has another type. */
  datatype Json = Json(register: Option<string>, nudge: Option<real>, gaps: Option<seq<Option<string>>>,
                       name: Option<string>)

  /** Round half up, as Math.round does. */
  function Round(x: real): int { (x + 0.5).Floor }

  function Allowed(raw: seq<Option<string>>, vocab: set<string>): seq<string> {
    if raw == [] then []
    else
      var kept := Allowed(raw[..|raw| - 1], vocab);
      var k := raw[|raw| - 1];
      if k.Some? && k.value in vocab && k.value !in kept then kept + [k.value] else kept
  }

  method FilterGaps(raw: seq<Option<string>>, vocab: set<string>) returns (gaps: seq<string>)
    ensures gaps == Few(Allowed(raw, vocab))
  {
    gaps := [];
    for i := 0 to |raw|
      invariant gaps == Allowed(raw[..i], vocab)
    {
      assert raw[..i + 1][..i] == raw[..i];
      if raw[i].Some? && raw[i].value in vocab && raw[i].value !in gaps { gaps := gaps + [raw[i].value]; }
    }
    assert raw[..|raw|] == raw;
    if |gaps| > MAX_GAPS { gaps := gaps[..MAX_GAPS]; }
  }

  lemma {:induction false} AllowedAreAllowed(raw: seq<Option<string>>, vocab: set<string>)
    ensures forall k :: k in Allowed(raw, vocab) <==> Some(k) in raw && k in vocab
    ensures forall i, j :: 0 <= i < j < |Allowed(raw, vocab)| ==> Allowed(raw, vocab)[i] != Allowed(raw, vocab)[j]
  {
    if raw != [] {
      AllowedAreAllowed(raw[..|raw| - 1], vocab);
      assert raw == raw[..|raw| - 1] + [raw[|raw| - 1]];
    }
  }

  ghost predicate Clamped(d: Distilled, registers: set<string>, vocab: set<string>) {
    && (d.register.Some? ==> d.register.value in registers)
    && -1 <= d.nudge <= 1
    && GoodGaps(d.gaps, vocab)
    && (d.name.Some? ==> 0 < |d.name.value| <= 40)
  }

  function Few(keys: seq<string>): seq<string> { if |keys| <= MAX_GAPS then keys else keys[..MAX_GAPS] }

  function Sign(n: int): int { if n > 0 then 1 else if n < 0 then -1 else 0 }

  /** What a reply that is a JSON object says, clamped; without a list of gaps it says the stored ones. */
  function Parse(o: Json, fallback: seq<string>, registers: set<string>, vocab: set<string>, trim: string -> string):
    (d: Distilled)
  {
    Distilled(
      if o.register.Some? && o.register.value in registers then o.register else None,
      if o.nudge.Some? then Sign(Round(o.nudge.value)) else 0,
      if o.gaps.Some? then Few(Allowed(o.gaps.value, vocab)) else fallback,
      if o.name.Some? && 0 < |trim(o.name.value)| <= 40 then Some(trim(o.name.value)) else None)
  }

  ghost predicate GoodGaps(gaps: seq<string>, vocab: set<string>) {
    && |gaps| <= MAX_GAPS && (forall k :: k in gaps ==> k in vocab)
    && (forall i, j :: 0 <= i < j < |gaps| ==> gaps[i] != gaps[j])
  }

  /** WHATEVER THE REPLY SAYS, the result is inside the schema, if the stored gaps are; and a nudge takes half a
      point to say anything. */
  lemma ParseClamps(o: Json, fallback: seq<string>, registers: set<string>, vocab: set<string>, trim: string -> string)
    ensures GoodGaps(fallback, vocab) ==> Clamped(Parse(o, fallback, registers, vocab, trim), registers, vocab)
    ensures Parse(o, fallback, registers, vocab, trim).nudge > 0 <==> o.nudge.Some? && o.nudge.value >= 0.5
    ensures Parse(o, fallback, registers, vocab, trim).nudge < 0 <==> o.nudge.Some? && o.nudge.value < -0.5
  {
    if o.gaps.Some? { AllowedAreAllowed(o.gaps.value, vocab); }
  }

  /** Place `p` is the first to report the key. */
  predicate FirstReport(raw: seq<Option<string>>, key: string, p: nat) {
    p < |raw| && raw[p] == Some(key) && Some(key) !in raw[..p]
  }

  /** The gaps heard are the first reports of keys in vocabulary, in order, up to eight: each of the others is first
      reported after all of these. */
  ghost predicate FirstReports(raw: seq<Option<string>>, vocab: set<string>, gaps: seq<string>, at: seq<nat>) {
    && |at| == |gaps| <= 8
    && (forall i :: 0 <= i < |at| ==> gaps[i] in vocab && FirstReport(raw, gaps[i], at[i]))
    && (forall i, j :: 0 <= i < j < |at| ==> at[i] < at[j])
    && (forall k, p: nat :: k in vocab && FirstReport(raw, k, p) && k !in gaps ==>
          |at| == 8 && forall i :: 0 <= i < |at| ==> at[i] < p)
  }

  lemma {:induction false} AllowedPlaces(raw: seq<Option<string>>, vocab: set<string>) returns (at: seq<nat>)
    ensures |at| == |Allowed(raw, vocab)|
    ensures forall i :: 0 <= i < |at| ==> FirstReport(raw, Allowed(raw, vocab)[i], at[i])
    ensures forall i, j :: 0 <= i < j < |at| ==> at[i] < at[j]
  {
    if raw == [] {
      at := [];
    } else {
      var n := |raw| - 1;
      var front := raw[..n];
      at := AllowedPlaces(front, vocab);
      AllowedAreAllowed(front, vocab);
      var kept := Allowed(front, vocab);
      forall i | 0 <= i < |at| ensures FirstReport(raw, kept[i], at[i]) {
        assert FirstReport(front, kept[i], at[i]) && front[..at[i]] == raw[..at[i]];
      }
      var k := raw[n];
      if k.Some? && k.value in vocab && k.value !in kept {
        assert FirstReport(raw, k.value, n);
        at := at + [n];
      }
    }
  }

  lemma HeardGaps(raw: seq<Option<string>>, vocab: set<string>) returns (at: seq<nat>)
    ensures FirstReports(raw, vocab, Few(Allowed(raw, vocab)), at)
  {
    var all, gaps := Allowed(raw, vocab), Few(Allowed(raw, vocab));
    var places := AllowedPlaces(raw, vocab);
    AllowedAreAllowed(raw, vocab);
    at := places[..|gaps|];
    forall i | 0 <= i < |gaps| ensures gaps[i] in vocab { assert gaps[i] == all[i] && all[i] in all; }
    forall k, p: nat | k in vocab && FirstReport(raw, k, p) && k !in gaps
      ensures |at| == 8 && forall i :: 0 <= i < |at| ==> at[i] < p
    {
      assert Some(k) in raw && k in all;
      var j :| 0 <= j < |all| && all[j] == k;
      if j < |gaps| { assert false; }
      SameFirstReport(raw, k, p, places[j]);
    }
  }

  lemma SameFirstReport(raw: seq<Option<string>>, key: string, p: nat, q: nat)
    requires FirstReport(raw, key, p) && FirstReport(raw, key, q)
    ensures p == q
  {
  }

  /** NOTHING VALID IS LOST. A register is heard if and only if it is a known one, a name when it has one to forty
      characters once trimmed, and of the gaps the first eight first reports in vocabulary; without a list of gaps, the
      stored ones. */
  lemma ParseHears(o: Json, fallback: seq<string>, registers: set<string>, vocab: set<string>, trim: string -> string)
    returns (at: seq<nat>)
    ensures var d := Parse(o, fallback, registers, vocab, trim);
            && (forall r :: d.register == Some(r) <==> o.register == Some(r) && r in registers)
            && (forall n :: d.name == Some(n) <==> o.name.Some? && n == trim(o.name.value) && 1 <= |n| <= 40)
            && (if o.gaps.Some? then FirstReports(o.gaps.value, vocab, d.gaps, at) else d.gaps == fallback)
  {
    at := [];
    if o.gaps.Some? { at := HeardGaps(o.gaps.value, vocab); }
  }

  method ParseDistilled(o: Json, fallback: seq<string>, registers: set<string>, vocab: set<string>,
                        trim: string -> string)
    returns (d: Distilled)
    ensures d == Parse(o, fallback, registers, vocab, trim)
    ensures GoodGaps(fallback, vocab) ==> Clamped(d, registers, vocab)
    ensures o.gaps.Some? && |d.gaps| < MAX_GAPS ==> forall k :: k in d.gaps <==> Some(k) in o.gaps.value && k in vocab
  {
    ParseClamps(o, fallback, registers, vocab, trim);
    var register := if o.register.Some? && o.register.value in registers then o.register else None;
    var rounded := if o.nudge.Some? then Round(o.nudge.value) else 0;
    var gaps := fallback;
    if o.gaps.Some? {
      gaps := FilterGaps(o.gaps.value, vocab);
      AllowedAreAllowed(o.gaps.value, vocab);
    }
    var name := None;
    if o.name.Some? {
      var t := trim(o.name.value);
      if t != "" && |t| <= 40 { name := Some(t); }
    }
    d := Distilled(register, if rounded > 0 then 1 else if rounded < 0 then -1 else 0, gaps, name);
  }
}
