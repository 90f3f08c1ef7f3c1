/**
 One chat turn (src/chat/engine.ts:131-373): moderation, the spend gate, the bounded tool loop whose budget
 can be raised in flight, the advice gate with its single regeneration, and the exits.

 The provider, the quota and the tools are scripts: the k-th generation answers as `env.generate(k, ...)`
 says (or throws), the k-th spend is allowed as `env.spend(k)` says, the i-th call of the k-th round returns
 what `env.execute(k, i, ...)` says. Text scans are uninterpreted.
 `Turn` states what a run is; the method is proved to perform one; the lemmas are about `Turn`.
 */
module ChatTurn {
  import opened Wrappers

  datatype ToolCall = ToolCall(name: string, arguments: string)

  datatype ToolResult = ToolResult(name: string, response: string)

  datatype Reply = Reply(text: string, calls: seq<ToolCall>, usage: nat)

  datatype Message =
    | Said(role: string, text: string)
    | Called(text: string, calls: seq<ToolCall>)
    | Returned(result: ToolResult)

  /** An internal turn, as persisted. */
  datatype ToolTurn = CallTurn(text: string, calls: seq<ToolCall>, usage: nat) | ResultTurn(result: ToolResult)

  datatype Request = Request(history: seq<Message>, withTools: bool, sharpened: bool)

  datatype Extension = Extension(tools: set<string>, maxRounds: int)

  datatype Input = Input(messages: seq<Message>, lastText: string, toolsEnabled: bool, baseRounds: int,
                         extension: Option<Extension>)

  datatype Texts = Texts(fairUse: string, redirect: string, capFallback: string, emptyFallback: string)

  datatype Env = Env(
    generate: (nat, Request) -> Option<Reply>,
    spend: nat -> bool,
    execute: (nat, nat, ToolCall) -> ToolResult,
    blank: string -> bool, inputClean: string -> bool, outputClean: string -> bool, adviceClean: string -> bool,
    texts: Texts)

  datatype Outcome =
    | Ok(text: string, usage: Option<nat>, guardrailBlocked: bool, regenerated: bool, moderationBlocked: bool,
         toolTurns: seq<ToolTurn>)
    | Unavailable
    | ProviderFailed

  /** What one run did: the requests made and answered, in order, the rounds executed, whether the cap was
      hit, and whether the last spend was denied. */
  datatype Run = Run(requests: seq<Request>, replies: seq<Reply>, rounds: nat, capped: bool, denied: bool)

  // ---------- vocabulary ----------

  ghost predicate NamesOneOf(calls: seq<ToolCall>, tools: set<string>) {
    exists c :: c in calls && c.name in tools
  }

  ghost predicate Reaches(input: Input, reply: Reply) {
    input.extension.Some? && NamesOneOf(reply.calls, input.extension.value.tools)
  }

  function Max(a: int, b: int): int { if a > b then a else b }

  /** The budget once the first `n` replies have been seen. */
  ghost function Budget(input: Input, replies: seq<Reply>, n: int): int {
    if exists j :: 0 <= j < n && j < |replies| && Reaches(input, replies[j])
    then Max(input.baseRounds, input.extension.value.maxRounds)
    else input.baseRounds
  }

  /** The results of round `k`, in the order of its calls. */
  function Results(env: Env, k: nat, calls: seq<ToolCall>): (turns: seq<ToolTurn>)
    ensures |turns| == |calls|
    ensures forall i :: 0 <= i < |calls| ==> turns[i] == ResultTurn(env.execute(k, i, calls[i]))
  {
    if calls == [] then []
    else Results(env, k, calls[..|calls| - 1]) + [ResultTurn(env.execute(k, |calls| - 1, calls[|calls| - 1]))]
  }

  /** The record of round `k`: the call turn, then its results. */
  function Block(env: Env, k: nat, r: Reply): seq<ToolTurn> {
    [CallTurn(r.text, r.calls, r.usage)] + Results(env, k, r.calls)
  }

  function Blocks(env: Env, rounds: seq<Reply>): seq<ToolTurn> {
    if rounds == [] then [] else Blocks(env, rounds[..|rounds| - 1]) + Block(env, |rounds| - 1, rounds[|rounds| - 1])
  }

  function AsMessage(t: ToolTurn): Message {
    match t
    case CallTurn(text, calls, _) => Called(text, calls)
    case ResultTurn(result) => Returned(result)
  }

  function AsMessages(turns: seq<ToolTurn>): seq<Message> {
    if turns == [] then [] else AsMessages(turns[..|turns| - 1]) + [AsMessage(turns[|turns| - 1])]
  }

  /** What the model is shown after `n` rounds. */
  function History(input: Input, env: Env, replies: seq<Reply>, n: nat): seq<Message>
    requires n <= |replies|
  {
    input.messages + AsMessages(Blocks(env, replies[..n]))
  }

  // ---------- what a run is ----------

  /** Every generation was bought by its own allowed spend; at most one spend, the last, was denied. */
  predicate Bought(env: Env, run: Run) {
    && (forall k: nat :: k < |run.requests| ==> env.spend(k))
    && (run.denied ==> !env.spend(|run.requests|))
  }

  /** Each request was answered by the provider, but possibly the last, on which it threw. */
  predicate Answered(env: Env, run: Run) {
    && |run.replies| <= |run.requests| <= |run.replies| + 1
    && (forall k: nat :: k < |run.replies| ==> env.generate(k, run.requests[k]) == Some(run.replies[k]))
    && (|run.requests| > |run.replies| ==> env.generate(|run.replies|, run.requests[|run.replies|]) == None)
  }

  /** The rounds executed: each was asked for with tools, within the budget as raised by then. */
  ghost predicate RoundsRight(input: Input, run: Run) {
    && run.rounds <= |run.replies|
    && forall k: nat :: k < run.rounds ==> RoundRight(input, run.replies, k)
  }

  ghost predicate RoundRight(input: Input, replies: seq<Reply>, k: nat)
    requires k < |replies|
  {
    input.toolsEnabled && replies[k].calls != [] && k < Budget(input, replies, k + 1)
  }

  /** The reply after the last round still wants tools. */
  predicate WantsMore(input: Input, run: Run) {
    input.toolsEnabled && run.rounds < |run.replies| && run.replies[run.rounds].calls != []
  }

  /** What was asked: tool-enabled generations until the rounds end; then, at the cap, one without tools;
      then at most the sharpened one, without tools. */
  ghost predicate Asked(input: Input, env: Env, run: Run) {
    && run.rounds <= |run.replies|
    && forall k: nat :: k < |run.requests| ==>
         run.requests[k] ==
           if k <= run.rounds then Request(History(input, env, run.replies, k), input.toolsEnabled, false)
           else Request(History(input, env, run.replies, run.rounds), false, !(run.capped && k == run.rounds + 1))
  }

  /** Where the final text comes from, once the loop has ended. */
  function FinalIndex(run: Run): nat { run.rounds + if run.capped then 1 else 0 }

  function Fallback(env: Env, run: Run): string {
    if run.capped then env.texts.capFallback else env.texts.emptyFallback
  }

  /** The last gate before the reader: a blank text is replaced. */
  function Served(env: Env, run: Run, text: string): string {
    if env.blank(text) then Fallback(env, run) else text
  }

  /** The regenerated reply, if it is clean; the fallback, if it is blank; else the fixed redirect. */
  function SecondAnswer(env: Env, run: Run, g: Reply, turns: seq<ToolTurn>): Outcome {
    if env.blank(g.text) then Ok(Fallback(env, run), Some(g.usage), false, true, false, turns)
    else if env.adviceClean(g.text) then Ok(g.text, Some(g.usage), false, true, false, turns)
    else Ok(Served(env, run, env.texts.redirect), Some(g.usage), true, true, false, turns)
  }

  /** The answer given the final reply and, if there was one, the regenerated reply. */
  ghost predicate Settled(input: Input, env: Env, run: Run, out: Outcome)
    requires FinalIndex(run) < |run.replies|
  {
    var f := run.replies[FinalIndex(run)];
    var turns := Blocks(env, run.replies[..run.rounds]);
    var n := FinalIndex(run) + 1;
    if env.blank(f.text) then
      |run.requests| == n && !run.denied && out == Ok(Fallback(env, run), Some(f.usage), false, false, false, turns)
    else if !env.outputClean(f.text) then
      |run.requests| == n && !run.denied && out == Ok(env.texts.fairUse, Some(f.usage), true, false, true, turns)
    else if env.adviceClean(f.text) then
      |run.requests| == n && !run.denied && out == Ok(f.text, Some(f.usage), false, false, false, turns)
    else if run.denied then
      |run.requests| == n && out == Ok(Served(env, run, env.texts.redirect), Some(f.usage), true, false, false, turns)
    else
      |run.requests| == n + 1 &&
      if |run.replies| == n then out == ProviderFailed
      else
        out == SecondAnswer(env, run, run.replies[n], turns)
  }

  /** The loop was left without a final reply: a spend was denied or the provider threw. */
  predicate CutShort(input: Input, run: Run, out: Outcome) {
    && |run.replies| <= FinalIndex(run)
    && if run.denied then out == Unavailable && |run.requests| == |run.replies|
       else out == ProviderFailed && |run.requests| == |run.replies| + 1
  }

  ghost predicate Turn(input: Input, env: Env, run: Run, out: Outcome) {
    if !env.inputClean(input.lastText) then
      run == Run([], [], 0, false, false) && out == Ok(env.texts.fairUse, None, true, false, true, [])
    else
      && Bought(env, run) && Answered(env, run) && RoundsRight(input, run) && Asked(input, env, run)
      && (run.capped <==> WantsMore(input, run) && Budget(input, run.replies, run.rounds + 1) <= run.rounds)
      && (if |run.replies| <= FinalIndex(run) then CutShort(input, run, out)
          else (run.capped || !WantsMore(input, run)) && Settled(input, env, run, out))
  }

  // ---------- the method ----------

  method NamesOne(calls: seq<ToolCall>, tools: set<string>) returns (b: bool)
    ensures b <==> NamesOneOf(calls, tools)
  {
    for i := 0 to |calls|
      invariant forall k :: 0 <= k < i ==> calls[k].name !in tools
    {
      if calls[i].name in tools { assert calls[i] in calls; return true; }
    }
    return false;
  }

  lemma AsMessagesSnoc(turns: seq<ToolTurn>, t: ToolTurn)
    ensures AsMessages(turns + [t]) == AsMessages(turns) + [AsMessage(t)]
  {
    assert (turns + [t])[..|turns|] == turns;
  }

  lemma ResultsSnoc(env: Env, k: nat, calls: seq<ToolCall>, i: nat)
    requires i < |calls|
    ensures Results(env, k, calls[..i + 1]) == Results(env, k, calls[..i]) + [ResultTurn(env.execute(k, i, calls[i]))]
  {
    assert calls[..i + 1][..i] == calls[..i];
  }

  /** Execute a round: record the call turn and its results, and show them to the model. */
  method ExecuteRound(env: Env, k: nat, r: Reply, working0: seq<Message>, turns0: seq<ToolTurn>,
                      ghost messages: seq<Message>)
    returns (working: seq<Message>, turns: seq<ToolTurn>)
    requires working0 == messages + AsMessages(turns0)
    ensures turns == turns0 + Block(env, k, r) && working == messages + AsMessages(turns)
  {
    turns := turns0 + [CallTurn(r.text, r.calls, r.usage)];
    working := working0 + [Called(r.text, r.calls)];
    AsMessagesSnoc(turns0, CallTurn(r.text, r.calls, r.usage));
    for i := 0 to |r.calls|
      invariant turns == turns0 + ([CallTurn(r.text, r.calls, r.usage)] + Results(env, k, r.calls[..i]))
      invariant working == messages + AsMessages(turns)
    {
      var res := env.execute(k, i, r.calls[i]);
      ResultsSnoc(env, k, r.calls, i);
      AsMessagesSnoc(turns, ResultTurn(res));
      turns := turns + [ResultTurn(res)];
      working := working + [Returned(res)];
    }
    assert r.calls[..|r.calls|] == r.calls;
  }

  // ---------- one more request ----------

  lemma PrefixStable(input: Input, env: Env, replies: seq<Reply>, x: Reply, n: nat)
    requires n <= |replies|
    ensures History(input, env, replies + [x], n) == History(input, env, replies, n)
    ensures Budget(input, replies + [x], n) == Budget(input, replies, n)
  {
    assert (replies + [x])[..n] == replies[..n];
    BudgetStable(input, replies, x, n);
  }

  lemma BudgetStable(input: Input, replies: seq<Reply>, x: Reply, n: nat)
    requires n <= |replies|
    ensures Budget(input, replies + [x], n) == Budget(input, replies, n)
  {
    if j :| 0 <= j < n && Reaches(input, replies[j]) { assert Reaches(input, (replies + [x])[j]); }
    if j :| 0 <= j < n && Reaches(input, (replies + [x])[j]) { assert Reaches(input, replies[j]); }
  }

  /** No spend denied and no provider failure so far. */
  predicate Clean(env: Env, run: Run) {
    Bought(env, run) && Answered(env, run) && !run.denied && |run.requests| == |run.replies|
  }

  function Requested(run: Run, req: Request, reply: Option<Reply>): Run {
    run.(requests := run.requests + [req], replies := if reply.Some? then run.replies + [reply.value] else run.replies)
  }

  /** Spend one unit and generate, or find the quota closed. */
  method Buy(env: Env, run: Run, req: Request) returns (run': Run, reply: Option<Reply>)
    requires Clean(env, run)
    ensures Bought(env, run') && Answered(env, run')
    ensures run'.denied <==> !env.spend(|run.requests|)
    ensures run'.denied ==> run' == run.(denied := true) && reply.None?
    ensures !run'.denied ==> reply == env.generate(|run.requests|, req) && run' == Requested(run, req, reply)
  {
    if !env.spend(|run.requests|) { return run.(denied := true), None; }
    reply := env.generate(|run.requests|, req);
    run' := Requested(run, req, reply);
  }

  lemma RoundsKept(input: Input, run: Run, x: Reply)
    requires RoundsRight(input, run)
    ensures RoundsRight(input, run.(replies := run.replies + [x]))
  {
    var run' := run.(replies := run.replies + [x]);
    forall k: nat | k < run.rounds ensures RoundRight(input, run'.replies, k) {
      assert RoundRight(input, run.replies, k);
      BudgetStable(input, run.replies, x, k + 1);
    }
  }

  function RequestAt(input: Input, env: Env, run: Run, k: nat): Request
    requires run.rounds <= |run.replies|
  {
    if k <= run.rounds then Request(History(input, env, run.replies, k), input.toolsEnabled, false)
    else Request(History(input, env, run.replies, run.rounds), false, !(run.capped && k == run.rounds + 1))
  }

  lemma AskedKept(input: Input, env: Env, run: Run, x: Reply)
    requires run.rounds <= |run.replies| && Asked(input, env, run)
    ensures Asked(input, env, run.(replies := run.replies + [x]))
  {
    var run' := run.(replies := run.replies + [x]);
    forall k: nat | k < |run.requests| ensures run.requests[k] == RequestAt(input, env, run', k) {
      assert run.requests[k] == RequestAt(input, env, run, k);
      PrefixStable(input, env, run.replies, x, if k <= run.rounds then k else run.rounds);
    }
  }

  lemma RequestKeeps(input: Input, env: Env, run: Run, req: Request, reply: Option<Reply>)
    requires RoundsRight(input, run) && Asked(input, env, run) && run.rounds <= |run.replies|
    requires req == RequestAt(input, env, run, |run.requests|)
    ensures var run' := Requested(run, req, reply); RoundsRight(input, run') && Asked(input, env, run')
  {
    var asked := run.(requests := run.requests + [req]);
    assert Asked(input, env, asked) by {
      forall k: nat | k < |asked.requests| ensures asked.requests[k] == RequestAt(input, env, asked, k) {
        if k < |run.requests| { assert run.requests[k] == RequestAt(input, env, run, k); }
      }
    }
    if reply.Some? {
      AskedKept(input, env, asked, reply.value);
      RoundsKept(input, asked, reply.value);
    }
  }

  // ---------- the turn ----------

  ghost predicate Disciplined(input: Input, env: Env, run: Run) {
    Bought(env, run) && Answered(env, run) && RoundsRight(input, run) && Asked(input, env, run)
  }

  /** The loop's own state: every reply but the last has been executed. */
  ghost predicate Looping(input: Input, env: Env, run: Run, turns: seq<ToolTurn>, working: seq<Message>) {
    && Disciplined(input, env, run) && Clean(env, run) && !run.capped && |run.replies| == run.rounds + 1
    && turns == Blocks(env, run.replies[..run.rounds]) && working == input.messages + AsMessages(turns)
  }

  ghost predicate Extended(input: Input, run: Run) {
    exists j :: 0 <= j < run.rounds && j < |run.replies| && Reaches(input, run.replies[j])
  }

  ghost predicate CapRight(input: Input, run: Run) {
    run.capped <==> WantsMore(input, run) && Budget(input, run.replies, run.rounds + 1) <= run.rounds
  }

  /** How the loop may end: without an answer, or with a final reply. */
  ghost predicate Ended(input: Input, env: Env, run: Run, turns: seq<ToolTurn>, working: seq<Message>,
                        early: Option<Outcome>)
  {
    && Disciplined(input, env, run) && CapRight(input, run)
    && if early.Some? then CutShort(input, run, early.value)
       else
         && Clean(env, run) && |run.replies| == FinalIndex(run) + 1 && (run.capped || !WantsMore(input, run))
         && turns == Blocks(env, run.replies[..run.rounds]) && working == input.messages + AsMessages(turns)
  }

  /** Reading the latest reply raises the budget when it reaches for an extending tool, once. */
  method RaiseBudget(input: Input, ghost run: Run, r: Reply, maxRounds: int, extended: bool)
    returns (maxRounds': int, extended': bool)
    requires |run.replies| == run.rounds + 1 && r == run.replies[run.rounds]
    requires maxRounds == Budget(input, run.replies, run.rounds)
    requires extended <==> Extended(input, run)
    ensures maxRounds' == Budget(input, run.replies, run.rounds + 1)
    ensures maxRounds' >= maxRounds && (Reaches(input, r) ==> maxRounds' >= input.extension.value.maxRounds)
    ensures extended' <==> exists j :: 0 <= j < run.rounds + 1 && j < |run.replies| && Reaches(input, run.replies[j])
  {
    maxRounds', extended' := maxRounds, extended;
    if !extended && input.extension.Some? {
      var reaches := NamesOne(r.calls, input.extension.value.tools);
      if reaches {
        assert Reaches(input, run.replies[run.rounds]);
        extended' := true;
        maxRounds' := Max(maxRounds, input.extension.value.maxRounds);
      }
    }
  }

  /** The cap is reached and the model still wants tools: one final generation without them. */
  method ForceAnswer(input: Input, env: Env, run0: Run, turns: seq<ToolTurn>, working: seq<Message>)
    returns (run: Run, early: Option<Outcome>)
    requires Looping(input, env, run0, turns, working) && WantsMore(input, run0)
    requires Budget(input, run0.replies, run0.rounds + 1) <= run0.rounds
    ensures Ended(input, env, run, turns, working, early)
  {
    var capped := run0.(capped := true);
    assert Asked(input, env, capped) by {
      forall k: nat | k < |capped.requests| ensures capped.requests[k] == RequestAt(input, env, capped, k) {
        assert run0.requests[k] == RequestAt(input, env, run0, k);
      }
    }
    var req := Request(working, false, false);
    var reply;
    run, reply := Buy(env, capped, req);
    if run.denied { return run, Some(Unavailable); }
    RequestKeeps(input, env, capped, req, reply);
    if reply.None? { return run, Some(ProviderFailed); }
    ForcedEnds(input, env, run0, turns, working, req, reply.value);
    return run, None;
  }

  lemma ForcedEnds(input: Input, env: Env, run0: Run, turns: seq<ToolTurn>, working: seq<Message>, req: Request,
                   x: Reply)
    requires Looping(input, env, run0, turns, working) && WantsMore(input, run0)
    requires Budget(input, run0.replies, run0.rounds + 1) <= run0.rounds
    requires Disciplined(input, env, Requested(run0.(capped := true), req, Some(x)))
    ensures Ended(input, env, Requested(run0.(capped := true), req, Some(x)), turns, working, None)
  {
    var run := Requested(run0.(capped := true), req, Some(x));
    BudgetStable(input, run0.replies, x, run0.rounds + 1);
    assert run.replies[..run.rounds] == run0.replies[..run.rounds];
  }

  /** A round: execute the calls, then spend and generate again with the tools. */
  method NextRound(input: Input, env: Env, run0: Run, turns0: seq<ToolTurn>, working0: seq<Message>)
    returns (run: Run, turns: seq<ToolTurn>, working: seq<Message>, early: Option<Outcome>)
    requires Looping(input, env, run0, turns0, working0) && WantsMore(input, run0)
    requires run0.rounds < Budget(input, run0.replies, run0.rounds + 1)
    ensures early.Some? ==> Ended(input, env, run, turns, working, early)
    ensures early.None? ==>
              && Looping(input, env, run, turns, working) && run.rounds == run0.rounds + 1
              && Budget(input, run.replies, run.rounds) == Budget(input, run0.replies, run0.rounds + 1)
              && (Extended(input, run) <==>
                  exists j :: 0 <= j < run0.rounds + 1 && j < |run0.replies| && Reaches(input, run0.replies[j]))
  {
    working, turns := ExecuteRound(env, run0.rounds, run0.replies[run0.rounds], working0, turns0, input.messages);
    var executed := run0.(rounds := run0.rounds + 1);
    RoundExecuted(input, env, run0);
    ReadyToAsk(input, env, run0, turns, working);
    var req := Request(working, input.toolsEnabled, false);
    var reply;
    run, reply := Buy(env, executed, req);
    if run.denied { return run, turns, working, Some(Unavailable); }
    RequestKeeps(input, env, executed, req, reply);
    if reply.None? { return run, turns, working, Some(ProviderFailed); }
    RoundDone(input, env, run0, run, reply.value);
    return run, turns, working, None;
  }

  /** With the round executed, the history shown next is the working history. */
  lemma ReadyToAsk(input: Input, env: Env, run0: Run, turns: seq<ToolTurn>, working: seq<Message>)
    requires |run0.replies| == run0.rounds + 1 == |run0.requests|
    requires turns == Blocks(env, run0.replies[..run0.rounds]) + Block(env, run0.rounds, run0.replies[run0.rounds])
    requires working == input.messages + AsMessages(turns)
    ensures RequestAt(input, env, run0.(rounds := run0.rounds + 1), |run0.requests|)
            == Request(working, input.toolsEnabled, false)
  {
    var n := run0.rounds;
    assert run0.replies[..n + 1][..n] == run0.replies[..n];
  }

  /** What the loop's bookkeeping says once a round has been executed and the next reply `x` has come. */
  lemma RoundDone(input: Input, env: Env, run0: Run, run: Run, x: Reply)
    requires |run0.replies| == run0.rounds + 1 && run.rounds == run0.rounds + 1 && run.replies == run0.replies + [x]
    ensures Blocks(env, run.replies[..run.rounds])
            == Blocks(env, run0.replies[..run0.rounds]) + Block(env, run0.rounds, run0.replies[run0.rounds])
    ensures Budget(input, run.replies, run.rounds) == Budget(input, run0.replies, run0.rounds + 1)
    ensures Extended(input, run) <==>
            exists j :: 0 <= j < run0.rounds + 1 && j < |run0.replies| && Reaches(input, run0.replies[j])
  {
    BudgetStable(input, run0.replies, x, run0.rounds + 1);
    ExtendedKept(input, run0, run, x);
    BlocksOfNext(env, run0.replies, run0.rounds, x);
  }

  lemma BlocksOfNext(env: Env, replies: seq<Reply>, n: nat, x: Reply)
    requires n < |replies|
    ensures Blocks(env, (replies + [x])[..n + 1]) == Blocks(env, replies[..n]) + Block(env, n, replies[n])
  {
    assert (replies + [x])[..n + 1] == replies[..n + 1];
    assert replies[..n + 1][..n] == replies[..n];
  }

  lemma ExtendedKept(input: Input, run0: Run, run: Run, x: Reply)
    requires |run0.replies| == run0.rounds + 1 && run.rounds == run0.rounds + 1 && run.replies == run0.replies + [x]
    ensures Extended(input, run) <==>
            exists j :: 0 <= j < run0.rounds + 1 && j < |run0.replies| && Reaches(input, run0.replies[j])
  {
    if j :| 0 <= j < run0.rounds + 1 && j < |run0.replies| && Reaches(input, run0.replies[j]) {
      assert Reaches(input, run.replies[j]);
    }
    if j :| 0 <= j < run.rounds && j < |run.replies| && Reaches(input, run.replies[j]) {
      assert Reaches(input, run0.replies[j]);
    }
  }

  lemma RoundExecuted(input: Input, env: Env, run: Run)
    requires RoundsRight(input, run) && Asked(input, env, run) && !run.capped
    requires |run.replies| == run.rounds + 1 == |run.requests| && WantsMore(input, run)
    requires run.rounds < Budget(input, run.replies, run.rounds + 1)
    ensures var run' := run.(rounds := run.rounds + 1); RoundsRight(input, run') && Asked(input, env, run')
  {
    var run' := run.(rounds := run.rounds + 1);
    forall k: nat | k < |run'.requests| ensures run'.requests[k] == RequestAt(input, env, run', k) {
      assert run.requests[k] == RequestAt(input, env, run, k);
    }
  }

  /** Generate, and while the model calls tools, execute and generate again: one spend per generation. */
  method ToolLoop(input: Input, env: Env)
    returns (run: Run, turns: seq<ToolTurn>, working: seq<Message>, early: Option<Outcome>)
    ensures Ended(input, env, run, turns, working, early)
  {
    turns, working := [], input.messages;
    var reply;
    ghost var fresh0 := Run([], [], 0, false, false);
    assert input.messages + AsMessages(Blocks(env, fresh0.replies[..0])) == input.messages;
    var req := Request(working, input.toolsEnabled, false);
    run, reply := Buy(env, Run([], [], 0, false, false), req);
    if run.denied { return run, turns, working, Some(Unavailable); }
    RequestKeeps(input, env, fresh0, req, reply);
    if reply.None? { return run, turns, working, Some(ProviderFailed); }
    var maxRounds, extended := input.baseRounds, false;
    while input.toolsEnabled && run.replies[run.rounds].calls != []
      invariant Looping(input, env, run, turns, working)
      invariant maxRounds == Budget(input, run.replies, run.rounds) && (extended <==> Extended(input, run))
      decreases Max(input.baseRounds, if input.extension.Some? then input.extension.value.maxRounds else 0) - run.rounds
    {
      maxRounds, extended := RaiseBudget(input, run, run.replies[run.rounds], maxRounds, extended);
      if run.rounds >= maxRounds {
        run, early := ForceAnswer(input, env, run, turns, working);
        return;
      }
      run, turns, working, early := NextRound(input, env, run, turns, working);
      if early.Some? { return; }
    }
    early := None;
  }

  method RunChatTurn(input: Input, env: Env) returns (out: Outcome, run: Run)
    ensures Turn(input, env, run, out)
  {
    if !env.inputClean(input.lastText) {
      return Ok(env.texts.fairUse, None, true, false, true, []), Run([], [], 0, false, false);
    }
    var turns, working, early;
    run, turns, working, early := ToolLoop(input, env);
    if early.Some? { return early.value, run; }
    var f := run.replies[FinalIndex(run)];
    if env.blank(f.text) { return Ok(Fallback(env, run), Some(f.usage), false, false, false, turns), run; }
    if !env.outputClean(f.text) { return Ok(env.texts.fairUse, Some(f.usage), true, false, true, turns), run; }
    if env.adviceClean(f.text) { return Ok(f.text, Some(f.usage), false, false, false, turns), run; }
    out, run := AnswerAgain(input, env, run, turns, working);
  }

  ghost predicate AdviceFound(env: Env, run: Run)
    requires FinalIndex(run) < |run.replies|
  {
    var text := run.replies[FinalIndex(run)].text;
    !env.blank(text) && env.outputClean(text) && !env.adviceClean(text)
  }

  ghost predicate Answers(input: Input, env: Env, run: Run, out: Outcome) {
    && Disciplined(input, env, run) && CapRight(input, run) && (run.capped || !WantsMore(input, run))
    && FinalIndex(run) < |run.replies| && Settled(input, env, run, out)
  }

  lemma DeniedAnswers(input: Input, env: Env, run0: Run, turns: seq<ToolTurn>, working: seq<Message>)
    requires Ended(input, env, run0, turns, working, None) && AdviceFound(env, run0)
    requires !env.spend(|run0.requests|)
    ensures var run := run0.(denied := true);
            Answers(input, env, run, Ok(Served(env, run0, env.texts.redirect),
                                        Some(run0.replies[FinalIndex(run0)].usage),
                                        true, false, false, turns))
  {
  }

  lemma RegeneratedAnswers(input: Input, env: Env, run0: Run, turns: seq<ToolTurn>, working: seq<Message>, g: Reply)
    requires Ended(input, env, run0, turns, working, None) && AdviceFound(env, run0)
    requires var req := Request(working, false, true);
             && env.spend(|run0.requests|) && env.generate(|run0.requests|, req) == Some(g)
             && Disciplined(input, env, Requested(run0, req, Some(g)))
    ensures var run := Requested(run0, Request(working, false, true), Some(g));
            Answers(input, env, run, SecondAnswer(env, run, g, turns))
  {
    var run := Requested(run0, Request(working, false, true), Some(g));
    CapKept(input, run0, Request(working, false, true), g);
    assert run.replies[FinalIndex(run)] == run0.replies[FinalIndex(run0)];
    assert run.replies[..run.rounds] == run0.replies[..run.rounds];
  }

  /** The advice gate fired: one regeneration, without tools, under the sharpened reminder. */
  method AnswerAgain(input: Input, env: Env, run0: Run, turns: seq<ToolTurn>, working: seq<Message>)
    returns (out: Outcome, run: Run)
    requires Ended(input, env, run0, turns, working, None) && AdviceFound(env, run0)
    ensures Answers(input, env, run, out)
  {
    var req := Request(working, false, true);
    var reply;
    run, reply := Buy(env, run0, req);
    if run.denied {
      DeniedAnswers(input, env, run0, turns, working);
      out := Ok(Served(env, run0, env.texts.redirect), Some(run0.replies[FinalIndex(run0)].usage), true, false, false,
                turns);
      return;
    }
    RequestKeeps(input, env, run0, req, reply);
    if reply.None? { return ProviderFailed, run; }
    RegeneratedAnswers(input, env, run0, turns, working, reply.value);
    out := Judge(env, run, reply.value, turns);
  }

  lemma CapKept(input: Input, run0: Run, req: Request, x: Reply)
    requires CapRight(input, run0) && run0.rounds < |run0.replies|
    ensures var run := Requested(run0, req, Some(x));
            CapRight(input, run) && WantsMore(input, run) == WantsMore(input, run0)
  {
    BudgetStable(input, run0.replies, x, run0.rounds + 1);
  }

  method Judge(env: Env, run: Run, g: Reply, turns: seq<ToolTurn>) returns (out: Outcome)
    ensures out == SecondAnswer(env, run, g, turns)
  {
    if !env.blank(g.text) && env.adviceClean(g.text) { return Ok(g.text, Some(g.usage), false, true, false, turns); }
    if env.blank(g.text) { return Ok(Fallback(env, run), Some(g.usage), false, true, false, turns); }
    return Ok(Served(env, run, env.texts.redirect), Some(g.usage), true, true, false, turns);
  }

  // ---------- spending ----------

  /** Allowed spends among the first `n`. */
  function Allowed(env: Env, n: nat): nat {
    if n == 0 then 0 else Allowed(env, n - 1) + if env.spend(n - 1) then 1 else 0
  }

  function Spends(run: Run): nat { |run.requests| + if run.denied then 1 else 0 }

  lemma {:induction false} AllAllowed(env: Env, n: nat)
    requires forall k: nat :: k < n ==> env.spend(k)
    ensures Allowed(env, n) == n
  {
    if n > 0 { AllAllowed(env, n - 1); }
  }

  function RaisedRounds(input: Input): int {
    if input.extension.Some? then input.extension.value.maxRounds else 0
  }

  lemma SpendsAreBought(env: Env, run: Run)
    requires Bought(env, run)
    ensures Allowed(env, Spends(run)) == |run.requests|
  {
    AllAllowed(env, |run.requests|);
  }

  /** On every exit the generations attempted are the spends allowed, and at most one spend was denied. */
  lemma GenerationsAreAllowedSpends(input: Input, env: Env, run: Run, out: Outcome)
    requires Turn(input, env, run, out)
    ensures Allowed(env, Spends(run)) == |run.requests| && Spends(run) <= |run.requests| + 1
  {
    SpendsAreBought(env, run);
  }

  /** A denial is the last thing that happens: the reader gets nothing, or the fixed redirect, never a text
      of the model's. And nothing is withheld as unavailable for any other reason. */
  lemma DenialIsFinal(input: Input, env: Env, run: Run, out: Outcome)
    requires Turn(input, env, run, out)
    ensures run.denied ==> out == Unavailable
                           || (out.Ok? && out.text == Served(env, run, env.texts.redirect) && out.guardrailBlocked
                               && !out.regenerated)
    ensures out == Unavailable ==> run.denied
  {
    if out.Ok? && env.inputClean(input.lastText) { OkMeansSettled(input, env, run, out); }
  }

  lemma RoundsBounded(input: Input, run: Run)
    requires RoundsRight(input, run)
    ensures run.rounds <= Max(0, Max(input.baseRounds, RaisedRounds(input)))
  {
    if run.rounds > 0 { assert RoundRight(input, run.replies, run.rounds - 1); }
  }

  /** However the budget is raised in flight, a turn generates at most three times more than the larger of
      the two budgets allows rounds: the first reply, the forced answer and the regeneration. */
  lemma GenerationsBounded(input: Input, env: Env, run: Run, out: Outcome)
    requires Turn(input, env, run, out)
    ensures |run.requests| <= Max(0, Max(input.baseRounds, RaisedRounds(input))) + 3
  {
    if env.inputClean(input.lastText) { RoundsBounded(input, run); }
  }

  /** The bound is met: a model that always wants tools, then gives advice twice, uses all of it. */
  lemma BoundIsReached(base: nat, texts: Texts, run: Run, out: Outcome)
    requires var env := Env((k: nat, req: Request) =>
                              Some(Reply("t", if req.withTools then [ToolCall("t", "")] else [], 0)),
                            (k: nat) => true, (k: nat, i: nat, c: ToolCall) => ToolResult("t", ""),
                            (t: string) => false,
                            (t: string) => true, (t: string) => true, (t: string) => false, texts);
             Turn(Input([], "", true, base, None), env, run, out)
    ensures |run.requests| == base + 3 && run.rounds == base && run.capped
  {
    var input := Input([], "", true, base, None);
    RoundsBounded(input, run);
    if run.rounds < |run.replies| {
      assert run.requests[run.rounds].withTools;
      assert WantsMore(input, run);
    }
  }

  // ---------- the budget is used in full ----------

  /** A reply up to place `n` calls, by name, a tool that earns the larger budget. */
  ghost predicate CallsExtending(input: Input, replies: seq<Reply>, n: nat) {
    input.extension.Some?
    && exists j, c :: 0 <= j <= n && j < |replies| && c in replies[j].calls && c.name in input.extension.value.tools
  }

  /** The larger budget, granted to a turn that reaches for such a tool and to no other. */
  ghost function Granted(input: Input, replies: seq<Reply>, n: nat): int {
    if CallsExtending(input, replies, n) && input.extension.value.maxRounds > input.baseRounds
    then input.extension.value.maxRounds else input.baseRounds
  }

  lemma BudgetIsGranted(input: Input, replies: seq<Reply>, n: nat)
    ensures Budget(input, replies, n + 1) == Granted(input, replies, n)
  {
    if j :| 0 <= j < n + 1 && j < |replies| && Reaches(input, replies[j]) {
      var c :| c in replies[j].calls && c.name in input.extension.value.tools;
      assert CallsExtending(input, replies, n);
    }
    if CallsExtending(input, replies, n) {
      var j, c :|
        0 <= j <= n && j < |replies| && c in replies[j].calls && c.name in input.extension.value.tools;
      assert Reaches(input, replies[j]);
    }
  }

  lemma GrantedGrows(input: Input, replies: seq<Reply>, m: nat, n: nat)
    requires m <= n
    ensures Granted(input, replies, m) <= Granted(input, replies, n)
  {
  }

  /**
   NEITHER STOPPED SHORT NOR RUN OVER. A turn is cut at the cap exactly when its model still wants tools after as
   many rounds as it was granted: the base budget, or the larger one once some reply, the one it is cut at included,
   has called an extending tool. It has then had every one of those rounds; and no turn has more.
   */
  lemma CappedExactlyAtTheGrant(input: Input, env: Env, run: Run, out: Outcome)
    requires Turn(input, env, run, out) && env.inputClean(input.lastText)
    ensures run.capped <==> WantsMore(input, run) && run.rounds >= Granted(input, run.replies, run.rounds)
    ensures run.capped ==> run.rounds == Max(0, Granted(input, run.replies, run.rounds))
    ensures run.rounds <= Max(0, Granted(input, run.replies, run.rounds))
  {
    BudgetIsGranted(input, run.replies, run.rounds);
    if run.rounds > 0 {
      assert RoundRight(input, run.replies, run.rounds - 1);
      BudgetIsGranted(input, run.replies, run.rounds - 1);
      GrantedGrows(input, run.replies, run.rounds - 1, run.rounds);
    }
  }

  /** So a capped turn has had its base rounds; the larger budget's too, if a reply up to the capped one called an
      extending tool; and no more than the base if none did. */
  lemma CappedTurnsHadTheirRounds(input: Input, env: Env, run: Run, out: Outcome)
    requires Turn(input, env, run, out) && run.capped
    ensures run.rounds >= input.baseRounds
    ensures CallsExtending(input, run.replies, run.rounds) ==> run.rounds >= input.extension.value.maxRounds
    ensures !CallsExtending(input, run.replies, run.rounds) ==> run.rounds <= Max(0, input.baseRounds)
  {
    CappedExactlyAtTheGrant(input, env, run, out);
  }

  /** The larger budget is met as well: a model that always calls an extending tool, then gives advice twice. */
  lemma RaisedBoundIsReached(base: nat, more: nat, texts: Texts, run: Run, out: Outcome)
    requires var env := Env((k: nat, req: Request) =>
                              Some(Reply("t", if req.withTools then [ToolCall("write", "")] else [], 0)),
                            (k: nat) => true, (k: nat, i: nat, c: ToolCall) => ToolResult("write", ""),
                            (t: string) => false,
                            (t: string) => true, (t: string) => true, (t: string) => false, texts);
             Turn(Input([], "", true, base, Some(Extension({"write"}, more))), env, run, out)
    ensures run.rounds == Max(base, more) && run.capped && |run.requests| == Max(base, more) + 3
  {
    var input := Input([], "", true, base, Some(Extension({"write"}, more)));
    RoundsBounded(input, run);
    if run.rounds < |run.replies| {
      assert run.requests[run.rounds].withTools;
      assert run.replies[run.rounds].calls == [ToolCall("write", "")];
      assert ToolCall("write", "") in run.replies[run.rounds].calls;
      assert CallsExtending(input, run.replies, run.rounds);
      BudgetIsGranted(input, run.replies, run.rounds);
      assert WantsMore(input, run);
    }
  }

  // ---------- the transcript ----------

  /** A transcript by its shape alone: for each round from `k` on, a call turn with calls and exactly the
      results of those calls, in order; the last round is `n - 1`. */
  predicate Bracketed(env: Env, k: nat, n: nat, turns: seq<ToolTurn>)
    decreases |turns|
  {
    if k >= n then k == n && turns == []
    else StartsWithBlock(env, k, turns) && Bracketed(env, k + 1, n, turns[1 + |turns[0].calls|..])
  }

  predicate StartsWithBlock(env: Env, k: nat, turns: seq<ToolTurn>) {
    && turns != [] && turns[0].CallTurn? && turns[0].calls != []
    && |turns| > |turns[0].calls|
    && forall i :: 1 <= i <= |turns[0].calls| ==> turns[i] == ResultTurn(env.execute(k, i - 1, turns[0].calls[i - 1]))
  }

  lemma BlockIsBracketed(env: Env, k: nat, r: Reply)
    requires r.calls != []
    ensures Bracketed(env, k, k + 1, Block(env, k, r))
  {
    var b := Block(env, k, r);
    assert b[1 + |r.calls|..] == [];
  }

  lemma StillStartsWithBlock(env: Env, k: nat, a: seq<ToolTurn>, b: seq<ToolTurn>)
    requires StartsWithBlock(env, k, a)
    ensures StartsWithBlock(env, k, a + b) && (a + b)[0] == a[0]
    ensures var n := 1 + |a[0].calls|; (a + b)[n..] == a[n..] + b
  {
    forall i | 0 <= i < |a| ensures (a + b)[i] == a[i] {}
  }

  lemma {:induction false} BracketedConcat(env: Env, k: nat, m: nat, n: nat, a: seq<ToolTurn>, b: seq<ToolTurn>)
    requires Bracketed(env, k, m, a) && Bracketed(env, m, n, b) && m <= n
    ensures Bracketed(env, k, n, a + b)
    decreases |a|
  {
    if k >= m {
      assert a + b == b;
    } else {
      BracketedConcat(env, k + 1, m, n, a[1 + |a[0].calls|..], b);
      StillStartsWithBlock(env, k, a, b);
    }
  }

  lemma {:induction false} BlocksAreBracketed(env: Env, rounds: seq<Reply>)
    requires forall k :: 0 <= k < |rounds| ==> rounds[k].calls != []
    ensures Bracketed(env, 0, |rounds|, Blocks(env, rounds))
  {
    if rounds != [] {
      var n := |rounds| - 1;
      BlocksAreBracketed(env, rounds[..n]);
      BlockIsBracketed(env, n, rounds[n]);
      BracketedConcat(env, 0, n, n + 1, Blocks(env, rounds[..n]), Block(env, n, rounds[n]));
    }
  }

  /** What is persisted is bracketed, is the record of exactly the executed rounds (the calls refused at the
      cap are not among them), and is what the last request showed the model after the input's messages. */
  lemma TranscriptIsBracketed(input: Input, env: Env, run: Run, out: Outcome)
    requires Turn(input, env, run, out) && out.Ok?
    ensures Bracketed(env, 0, run.rounds, out.toolTurns)
    ensures run.rounds <= |run.replies| && out.toolTurns == Blocks(env, run.replies[..run.rounds])
    ensures run.requests != [] ==>
              run.requests[|run.requests| - 1].history == input.messages + AsMessages(out.toolTurns)
    ensures run.capped ==> run.rounds < |run.replies| && run.replies[run.rounds].calls != []
  {
    if env.inputClean(input.lastText) {
      OkMeansSettled(input, env, run, out);
      RoundsHaveCalls(input, run);
      BlocksAreBracketed(env, run.replies[..run.rounds]);
      LastHistory(input, env, run);
    } else {
      assert run.replies[..0] == [];
    }
  }

  /** The call turns of a record, in order. */
  function CallTurns(turns: seq<ToolTurn>): seq<ToolTurn> {
    if turns == [] then []
    else
      var n := |turns| - 1;
      CallTurns(turns[..n]) + if turns[n].CallTurn? then [turns[n]] else []
  }

  lemma {:induction false} CallTurnsConcat(a: seq<ToolTurn>, b: seq<ToolTurn>)
    ensures CallTurns(a + b) == CallTurns(a) + CallTurns(b)
  {
    if b == [] {
      assert a + b == a;
    } else {
      var n := |b| - 1;
      CallTurnsConcat(a, b[..n]);
      assert (a + b)[..|a + b| - 1] == a + b[..n];
    }
  }

  lemma {:induction false} ResultsCallNothing(turns: seq<ToolTurn>)
    requires forall i :: 0 <= i < |turns| ==> turns[i].ResultTurn?
    ensures CallTurns(turns) == []
  {
    if turns != [] { ResultsCallNothing(turns[..|turns| - 1]); }
  }

  /** EVERY ROUND IS ON RECORD WITH WHAT IT COST: its call turn carries the text, the calls and the usage of the reply
      that asked for it. */
  lemma {:induction false} RoundsAreRecorded(env: Env, rounds: seq<Reply>)
    ensures |CallTurns(Blocks(env, rounds))| == |rounds|
    ensures forall k :: 0 <= k < |rounds| ==>
              var t := CallTurns(Blocks(env, rounds))[k];
              t.CallTurn? && t.text == rounds[k].text && t.calls == rounds[k].calls && t.usage == rounds[k].usage
  {
    if rounds != [] {
      var n := |rounds| - 1;
      RoundsAreRecorded(env, rounds[..n]);
      var head := [CallTurn(rounds[n].text, rounds[n].calls, rounds[n].usage)];
      var results := Results(env, n, rounds[n].calls);
      CallTurnsConcat(Blocks(env, rounds[..n]), head + results);
      CallTurnsConcat(head, results);
      ResultsCallNothing(results);
      assert head[..0] == [];
    }
  }

  /** What the model is shown of a turn on record: the same text and calls, or the same result. */
  predicate ShownAs(m: Message, t: ToolTurn) {
    match t
    case CallTurn(text, calls, _) => m.Called? && m.text == text && m.calls == calls
    case ResultTurn(result) => m.Returned? && m.result.name == result.name && m.result.response == result.response
  }

  lemma {:induction false} ShownIsTheRecord(turns: seq<ToolTurn>)
    ensures |AsMessages(turns)| == |turns|
    ensures forall i :: 0 <= i < |turns| ==> ShownAs(AsMessages(turns)[i], turns[i])
  {
    if turns != [] { ShownIsTheRecord(turns[..|turns| - 1]); }
  }

  /** The model never loses sight of what it saw: the histories it is shown only grow, from the reader's messages. */
  lemma {:induction false} HistoriesGrow(input: Input, env: Env, replies: seq<Reply>, m: nat, n: nat)
    requires m <= n <= |replies|
    ensures input.messages <= History(input, env, replies, m) <= History(input, env, replies, n)
    decreases n - m
  {
    if m < n {
      HistoriesGrow(input, env, replies, m, n - 1);
      assert replies[..n][..n - 1] == replies[..n - 1];
      AsMessagesConcat(Blocks(env, replies[..n - 1]), Block(env, n - 1, replies[n - 1]));
    }
  }

  lemma {:induction false} AsMessagesConcat(a: seq<ToolTurn>, b: seq<ToolTurn>)
    ensures AsMessages(a + b) == AsMessages(a) + AsMessages(b)
  {
    if b == [] {
      assert a + b == a;
    } else {
      AsMessagesConcat(a, b[..|b| - 1]);
      assert (a + b)[..|a + b| - 1] == a + b[..|b| - 1];
    }
  }

  /** An answer to an admitted message comes from a settled run. */
  lemma OkMeansSettled(input: Input, env: Env, run: Run, out: Outcome)
    requires Turn(input, env, run, out) && out.Ok? && env.inputClean(input.lastText)
    ensures RoundsRight(input, run) && Asked(input, env, run) && FinalIndex(run) < |run.replies| <= |run.requests|
    ensures Settled(input, env, run, out) && out.toolTurns == Blocks(env, run.replies[..run.rounds])
    ensures |run.replies| == FinalIndex(run) + if out.regenerated then 2 else 1
  {
  }

  lemma RoundsHaveCalls(input: Input, run: Run)
    requires RoundsRight(input, run)
    ensures forall k :: 0 <= k < run.rounds ==> run.replies[..run.rounds][k].calls != []
  {
    forall k | 0 <= k < run.rounds ensures run.replies[..run.rounds][k].calls != [] {
      assert RoundRight(input, run.replies, k);
    }
  }

  lemma LastHistory(input: Input, env: Env, run: Run)
    requires RoundsRight(input, run) && Asked(input, env, run) && run.rounds < |run.requests|
    ensures run.requests[|run.requests| - 1].history
            == input.messages + AsMessages(Blocks(env, run.replies[..run.rounds]))
  {
    assert run.requests[|run.requests| - 1] == RequestAt(input, env, run, |run.requests| - 1);
  }

  // ---------- what the reader gets ----------

  predicate IsFixed(env: Env, text: string) {
    || text == env.texts.fairUse || text == env.texts.redirect
    || text == env.texts.capFallback || text == env.texts.emptyFallback
  }

  /** Of the fixed texts, those nothing stands behind: a blank redirect would be replaced. */
  predicate FixedTextsAreNotBlank(env: Env) {
    !env.blank(env.texts.fairUse) && !env.blank(env.texts.capFallback) && !env.blank(env.texts.emptyFallback)
  }

  lemma SettledIsGated(input: Input, env: Env, run: Run, out: Outcome)
    requires FinalIndex(run) < |run.replies| && Settled(input, env, run, out) && out.Ok? && FixedTextsAreNotBlank(env)
    requires |run.replies| == FinalIndex(run) + if out.regenerated then 2 else 1
    ensures !env.blank(out.text)
    ensures IsFixed(env, out.text)
            || (out.text == run.replies[|run.replies| - 1].text && env.adviceClean(out.text))
  {
  }

  /** No blank bubble and no advice: every delivered text is non-blank, and is either one of the product's
      fixed texts or the text of the last generation, found free of advice. */
  lemma DeliveredIsGated(input: Input, env: Env, run: Run, out: Outcome)
    requires Turn(input, env, run, out) && out.Ok? && FixedTextsAreNotBlank(env)
    ensures !env.blank(out.text)
    ensures IsFixed(env, out.text)
            || (run.replies != [] && out.text == run.replies[|run.replies| - 1].text && env.adviceClean(out.text))
  {
    if env.inputClean(input.lastText) {
      OkMeansSettled(input, env, run, out);
      SettledIsGated(input, env, run, out);
    }
  }

  /** The first reply after the rounds ended was caught by output moderation. */
  predicate Caught(env: Env, run: Run) {
    && FinalIndex(run) < |run.replies|
    && var text := run.replies[FinalIndex(run)].text; !env.blank(text) && !env.outputClean(text)
  }

  /** The labels an answer carries. */
  ghost predicate Labelled(input: Input, env: Env, run: Run, out: Outcome)
    requires out.Ok?
  {
    && (out.usage.None? <==> !env.inputClean(input.lastText))
    && (out.usage.Some? ==> run.replies != [] && out.usage.value == run.replies[|run.replies| - 1].usage)
    && (out.moderationBlocked <==> !env.inputClean(input.lastText) || Caught(env, run))
    && (out.moderationBlocked ==> out.text == env.texts.fairUse)
    && (out.guardrailBlocked <==> out.moderationBlocked || AdviceToTheLast(env, run))
    && (out.guardrailBlocked && !out.moderationBlocked ==> out.text == Served(env, run, env.texts.redirect))
  }

  /** Every reply that was judged for advice was found to give it. */
  ghost predicate AdviceToTheLast(env: Env, run: Run) {
    && FinalIndex(run) < |run.replies| && AdviceFound(env, run)
    && var last := run.replies[|run.replies| - 1].text; !env.blank(last) && !env.adviceClean(last)
  }

  /** THE LABELS ARE TRUE. An answer is billed at its last generation and at nothing when there was none; it is
      marked as moderated, with the fair-use text, exactly when the message or the first answer was caught; and as
      blocked exactly then or when advice was found and no later reply was free of it. */
  lemma AnswersAreLabelled(input: Input, env: Env, run: Run, out: Outcome)
    requires Turn(input, env, run, out) && out.Ok?
    ensures Labelled(input, env, run, out)
  {
    if env.inputClean(input.lastText) {
      OkMeansSettled(input, env, run, out);
      if AdviceFound(env, run) {
        SecondIsLabelled(input, env, run, out);
      } else {
        FirstIsLabelled(input, env, run, out);
      }
    }
  }

  lemma FirstIsLabelled(input: Input, env: Env, run: Run, out: Outcome)
    requires FinalIndex(run) < |run.replies| && Settled(input, env, run, out) && out.Ok?
    requires |run.replies| == FinalIndex(run) + if out.regenerated then 2 else 1
    requires !AdviceFound(env, run) && env.inputClean(input.lastText)
    ensures Labelled(input, env, run, out)
  {
    assert !out.regenerated && !AdviceToTheLast(env, run);
  }

  lemma SecondIsLabelled(input: Input, env: Env, run: Run, out: Outcome)
    requires FinalIndex(run) < |run.replies| && Settled(input, env, run, out) && out.Ok?
    requires |run.replies| == FinalIndex(run) + if out.regenerated then 2 else 1
    requires AdviceFound(env, run) && env.inputClean(input.lastText)
    ensures Labelled(input, env, run, out)
  {
    assert !Caught(env, run) && !out.moderationBlocked;
    assert AdviceToTheLast(env, run) <==>
      var last := run.replies[|run.replies| - 1].text; !env.blank(last) && !env.adviceClean(last);
    if run.denied { assert !out.regenerated; }
  }

  /** The last reply passes every gate that applies to it. */
  ghost predicate Passes(env: Env, run: Run, out: Outcome)
    requires out.Ok?
  {
    && run.replies != []
    && var last := run.replies[|run.replies| - 1].text;
       !env.blank(last) && env.adviceClean(last) && (out.regenerated || env.outputClean(last))
  }

  /** NOTHING CLEAN IS WITHHELD. A last reply that passes its gates is what the reader gets, unmarked; and one that is
      blank is replaced by the text for a turn cut at the cap, or for an empty reply. */
  lemma NothingCleanIsWithheld(input: Input, env: Env, run: Run, out: Outcome)
    requires Turn(input, env, run, out) && out.Ok?
    ensures Passes(env, run, out) ==>
              out.text == run.replies[|run.replies| - 1].text && !out.guardrailBlocked && !out.moderationBlocked
    ensures run.replies != [] && env.blank(run.replies[|run.replies| - 1].text) ==>
              out.text == if run.capped then env.texts.capFallback else env.texts.emptyFallback
  {
    if env.inputClean(input.lastText) {
      OkMeansSettled(input, env, run, out);
      if Passes(env, run, out) { CleanIsDelivered(input, env, run, out); }
      if env.blank(run.replies[|run.replies| - 1].text) { BlankIsReplaced(input, env, run, out); }
    }
  }

  lemma CleanIsDelivered(input: Input, env: Env, run: Run, out: Outcome)
    requires FinalIndex(run) < |run.replies| && Settled(input, env, run, out) && out.Ok? && Passes(env, run, out)
    requires |run.replies| == FinalIndex(run) + if out.regenerated then 2 else 1
    ensures out.text == run.replies[|run.replies| - 1].text && !out.guardrailBlocked && !out.moderationBlocked
  {
  }

  lemma BlankIsReplaced(input: Input, env: Env, run: Run, out: Outcome)
    requires FinalIndex(run) < |run.replies| && Settled(input, env, run, out) && out.Ok?
    requires |run.replies| == FinalIndex(run) + if out.regenerated then 2 else 1
    requires env.blank(run.replies[|run.replies| - 1].text)
    ensures out.text == Fallback(env, run)
  {
  }

  /** A turn fails as the provider's exactly when a generation that was paid for was not answered. */
  lemma FailsExactlyOnAThrow(input: Input, env: Env, run: Run, out: Outcome)
    requires Turn(input, env, run, out)
    ensures out.ProviderFailed? <==> |run.requests| > |run.replies|
  {
    if out.Ok? && env.inputClean(input.lastText) { OkMeansSettled(input, env, run, out); }
  }

  /** Tools are offered until the rounds end and not after; the sharpened reminder is given to the regeneration, and to
      nothing before it. */
  lemma ToolsAreOfferedWhileRoundsLast(input: Input, env: Env, run: Run, out: Outcome, k: nat)
    requires Turn(input, env, run, out) && k < |run.requests|
    ensures run.requests[k].withTools <==> input.toolsEnabled && k <= run.rounds
    ensures run.requests[k].sharpened <==> k > run.rounds + (if run.capped then 1 else 0)
    ensures run.requests[k].sharpened ==>
              k == |run.requests| - 1 && FinalIndex(run) == k - 1 < |run.replies| && AdviceFound(env, run)
  {
    assert run.requests[k] == RequestAt(input, env, run, k);
    SharpenedIsLast(input, env, run, out);
  }

  lemma SharpenedIsLast(input: Input, env: Env, run: Run, out: Outcome)
    requires Turn(input, env, run, out)
    ensures |run.requests| <= FinalIndex(run) + 2
    ensures |run.requests| == FinalIndex(run) + 2 ==> FinalIndex(run) < |run.replies| && AdviceFound(env, run)
  {
  }

  /** An answer is a regenerated one exactly when the first was found to give advice and the quota still let
      the model answer again. */
  lemma RegeneratedExactlyWhen(input: Input, env: Env, run: Run, out: Outcome)
    requires Turn(input, env, run, out) && out.Ok?
    ensures out.regenerated <==>
              env.inputClean(input.lastText) && FinalIndex(run) < |run.replies| && AdviceFound(env, run) && !run.denied
  {
    if env.inputClean(input.lastText) { OkMeansSettled(input, env, run, out); }
  }

  /** Output moderation is run on the first answer only: a delivered model text that is the first answer passed
      it; behind a regenerated one it was the reply it replaced that did, and that one gave advice. */
  lemma ModerationCoversFirstAnswersOnly(input: Input, env: Env, run: Run, out: Outcome)
    requires Turn(input, env, run, out) && out.Ok? && !IsFixed(env, out.text)
    ensures FinalIndex(run) < |run.replies| && (out.regenerated <==> AdviceFound(env, run) && !run.denied)
    ensures !out.regenerated ==> env.outputClean(out.text)
    ensures out.regenerated ==>
              |run.replies| > 1 && !env.adviceClean(run.replies[|run.replies| - 2].text)
              && env.outputClean(run.replies[|run.replies| - 2].text)
  {
    if env.inputClean(input.lastText) { OkMeansSettled(input, env, run, out); }
  }

  /** And a regenerated text that fails it is delivered. */
  lemma RegeneratedTextCanFailModeration()
    ensures var env := Env((k: nat, req: Request) => Some(Reply(if k == 0 then "buy" else "abuse", [], 0)),
                           (k: nat) => true, (k: nat, i: nat, c: ToolCall) => ToolResult("", ""),
                           (t: string) => t == "",
                           (t: string) => true, (t: string) => t != "abuse", (t: string) => t != "buy",
                           Texts("fair use", "redirect", "cap", "empty"));
            var input := Input([], "", false, 0, None);
            var run := Run([Request([], false, false), Request([], false, true)],
                           [Reply("buy", [], 0), Reply("abuse", [], 0)], 0, false, false);
            var out := Ok("abuse", Some(0), false, true, false, []);
            Turn(input, env, run, out) && !env.outputClean(out.text)
  {
    var replies := [Reply("buy", [], 0), Reply("abuse", [], 0)];
    assert replies[..0] == [];
  }
}
