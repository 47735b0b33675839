/**
 The LLM gateway: the tool-use loop and failover across providers. What a provider and the tools
 would do when asked is a script; a provider may give any result or raise, at any turn.
 */
module LlmGateway {
  import opened Prelude
  import opened Breakers

  datatype ToolCall = ToolCall(id: string, name: string, input: string)

  /** One turn of a model. */
  datatype Result = Final(text: string) | Tools(calls: seq<ToolCall>) | Refusal

  datatype Turn = User(text: string) | ToolUse(calls: seq<ToolCall>) | ToolResult(results: seq<(string, string)>)

  /** The answer to the i-th generate call, and the output of the j-th tool call it asks for; None is an exception. */
  datatype Script = Script(replies: seq<Option<Result>>, tools: (nat, nat) -> Option<string>)

  datatype Provider = Provider(name: string, script: Script, start: real, end: real)

  datatype Reply = Reply(text: string, toolsUsed: seq<string>)

  const MAX_TOOL_ITERATIONS: nat := 4
  const REFUSED := "I can't help with that request."
  const OUT_OF_BUDGET := "I couldn't complete that within the tool budget."

  predicate ValidScript(s: Script) {
    |s.replies| >= MAX_TOOL_ITERATIONS
  }

  // --------------------------------------------------------------------- the loop

  predicate AsksForTools(s: Script, i: nat) {
    i < |s.replies| && s.replies[i].Some? && s.replies[i].value.Tools?
  }

  /** The tools asked for at round `i`, if any. */
  function CallsAt(s: Script, i: nat): seq<ToolCall> {
    if AsksForTools(s, i) then s.replies[i].value.calls else []
  }

  /** The model asks for tools and every one of them runs. */
  predicate ToolRound(s: Script, i: nat) {
    AsksForTools(s, i) && forall j: nat :: j < |CallsAt(s, i)| ==> s.tools(i, j).Some?
  }

  /** The tool rounds completed before the loop ends, from round `i` on. */
  function RoundsFrom(s: Script, i: nat): (n: nat)
    requires i <= MAX_TOOL_ITERATIONS
    ensures i <= n <= MAX_TOOL_ITERATIONS
    ensures forall k :: i <= k < n ==> ToolRound(s, k)
    ensures n < MAX_TOOL_ITERATIONS ==> !ToolRound(s, n)
    decreases MAX_TOOL_ITERATIONS - i
  {
    if i == MAX_TOOL_ITERATIONS || !ToolRound(s, i) then i else RoundsFrom(s, i + 1)
  }

  function ResultsOf(s: Script, i: nat, n: nat): seq<(string, string)>
    requires ToolRound(s, i) && n <= |CallsAt(s, i)|
  {
    seq(n, j requires 0 <= j < n => (CallsAt(s, i)[j].id, s.tools(i, j).value))
  }

  function NamesOf(calls: seq<ToolCall>): seq<string> {
    if calls == [] then [] else NamesOf(calls[..|calls| - 1]) + [calls[|calls| - 1].name]
  }

  /** The history after some tool rounds, ... */
  function HistoryAfter(s: Script, question: string, n: nat): seq<Turn>
    requires forall i: nat :: i < n ==> ToolRound(s, i)
  {
    if n == 0 then [User(question)]
    else
      assert ToolRound(s, n - 1);
      var calls := CallsAt(s, n - 1);
      HistoryAfter(s, question, n - 1) + [ToolUse(calls), ToolResult(ResultsOf(s, n - 1, |calls|))]
  }

  /** ... and the tools it used. */
  function UsedAfter(s: Script, n: nat): seq<string> {
    if n == 0 then [] else UsedAfter(s, n - 1) + NamesOf(CallsAt(s, n - 1))
  }

  /** How the loop ends after its tool rounds: with a text, or with an exception of the model or a tool. */
  function Ending(s: Script): Option<string>
    requires ValidScript(s)
  {
    var n := RoundsFrom(s, 0);
    if n == MAX_TOOL_ITERATIONS then Some(OUT_OF_BUDGET)
    else
      match s.replies[n]
      case Some(Refusal) => Some(REFUSED)
      case Some(Final(text)) => Some(text)
      case _ => None
  }

  function LoopReply(s: Script): Option<Reply>
    requires ValidScript(s)
  {
    match Ending(s)
    case Some(text) => Some(Reply(text, UsedAfter(s, RoundsFrom(s, 0))))
    case None => None
  }

  function IdsOf(calls: seq<ToolCall>): seq<string> {
    seq(|calls|, i requires 0 <= i < |calls| => calls[i].id)
  }

  function FirstsOf(results: seq<(string, string)>): seq<string> {
    seq(|results|, i requires 0 <= i < |results| => results[i].0)
  }

  /** The question, then tool_use turns each followed by a tool_result with the same ids in the same order. */
  ghost predicate WellPaired(history: seq<Turn>, question: string) {
    && |history| % 2 == 1 && history[0] == User(question)
    && forall k :: 0 < k < |history| && k % 2 == 1 ==>
         history[k].ToolUse? && history[k + 1].ToolResult? &&
           IdsOf(history[k].calls) == FirstsOf(history[k + 1].results)
  }

  function NamesIn(history: seq<Turn>): seq<string> {
    if history == [] then []
    else
      var last := history[|history| - 1];
      NamesIn(history[..|history| - 1]) + if last.ToolUse? then NamesOf(last.calls) else []
  }

  lemma PairedGrows(history: seq<Turn>, question: string, calls: seq<ToolCall>, results: seq<(string, string)>)
    requires WellPaired(history, question) && IdsOf(calls) == FirstsOf(results)
    ensures WellPaired(history + [ToolUse(calls), ToolResult(results)], question)
    ensures NamesIn(history + [ToolUse(calls), ToolResult(results)]) == NamesIn(history) + NamesOf(calls)
  {
    var h := history + [ToolUse(calls), ToolResult(results)];
    assert h[..|h| - 1] == history + [ToolUse(calls)];
    assert (history + [ToolUse(calls)])[..|history|] == history;
    hide IdsOf, FirstsOf, NamesOf;
    forall k | 0 < k < |h| && k % 2 == 1
      ensures h[k].ToolUse? && h[k + 1].ToolResult? && IdsOf(h[k].calls) == FirstsOf(h[k + 1].results)
    {
      if k < |history| {
        assert h[k] == history[k] && h[k + 1] == history[k + 1];
      }
    }
  }

  lemma RoundPaired(s: Script, i: nat)
    requires ToolRound(s, i)
    ensures IdsOf(CallsAt(s, i)) == FirstsOf(ResultsOf(s, i, |CallsAt(s, i)|))
  {
  }

  /** Every history a model is shown is well paired, and the tools used are its names concatenated. */
  lemma {:induction false} HistoriesArePaired(s: Script, question: string, n: nat)
    requires forall i: nat :: i < n ==> ToolRound(s, i)
    ensures |HistoryAfter(s, question, n)| == 2 * n + 1
    ensures WellPaired(HistoryAfter(s, question, n), question)
    ensures NamesIn(HistoryAfter(s, question, n)) == UsedAfter(s, n)
  {
    if n == 0 {
      assert [User(question)][..0] == [];
    } else {
      hide WellPaired, NamesIn, IdsOf, FirstsOf, NamesOf, ResultsOf, ToolRound;
      HistoriesArePaired(s, question, n - 1);
      assert ToolRound(s, n - 1);
      var calls := CallsAt(s, n - 1);
      RoundPaired(s, n - 1);
      hide CallsAt;
      PairedGrows(HistoryAfter(s, question, n - 1), question, calls, ResultsOf(s, n - 1, |calls|));
    }
  }

  lemma NamesOfPrefix(calls: seq<ToolCall>, j: nat)
    requires j < |calls|
    ensures NamesOf(calls[..j + 1]) == NamesOf(calls[..j]) + [calls[j].name]
  {
    assert calls[..j + 1][..j] == calls[..j];
  }

  /** The names of the calls, one by one. */
  lemma {:induction false} NamesOfAre(calls: seq<ToolCall>)
    ensures |NamesOf(calls)| == |calls| && forall j :: 0 <= j < |calls| ==> NamesOf(calls)[j] == calls[j].name
  {
    if calls != [] {
      NamesOfAre(calls[..|calls| - 1]);
    }
  }

  // ------------------------------------------------------- what a loop does, turn by turn

  /** Every tool the model asks for at round `i` gives an output. */
  predicate ToolsRun(s: Script, i: nat, calls: seq<ToolCall>) {
    forall j: nat :: j < |calls| ==> s.tools(i, j).Some?
  }

  /** The outputs, each with its call's id, in the order of the calls. */
  predicate OutputsOf(s: Script, i: nat, calls: seq<ToolCall>, results: seq<(string, string)>) {
    && |results| == |calls|
    && forall j: nat :: j < |calls| ==> results[j].0 == calls[j].id && s.tools(i, j) == Some(results[j].1)
  }

  /** Round `i` is complete: the model asked for tools, and they and their outputs join the history. */
  ghost predicate Completed(s: Script, i: nat, before: seq<Turn>, after: seq<Turn>)
    requires i < |s.replies|
  {
    && |after| == |before| + 2 && before <= after
    && after[|before|].ToolUse? && after[|before| + 1].ToolResult?
    && s.replies[i] == Some(Tools(after[|before|].calls))
    && OutputsOf(s, i, after[|before|].calls, after[|before| + 1].results)
  }

  /**
   A loop that was shown these histories ends so: with the last turn's own text, a refusal, or no
   budget left after a fourth complete round, and with the names of all the tools it used; or with
   the exception of the model or of a tool.
   */
  ghost predicate EndsWith(s: Script, question: string, shown: seq<seq<Turn>>, reply: Option<Reply>)
    requires ValidScript(s)
  {
    && 1 <= |shown| <= MAX_TOOL_ITERATIONS && shown[0] == [User(question)]
    && (forall i :: 0 <= i < |shown| - 1 ==> Completed(s, i, shown[i], shown[i + 1]))
    && var n := |shown| - 1;
       match s.replies[n]
       case None => reply == None
       case Some(Final(text)) => reply == Some(Reply(text, NamesIn(shown[n])))
       case Some(Refusal) => reply == Some(Reply("I can't help with that request.", NamesIn(shown[n])))
       case Some(Tools(calls)) =>
         if ToolsRun(s, n, calls) then
           && n == 3
           && reply == Some(Reply("I couldn't complete that within the tool budget.",
                                  NamesIn(shown[n]) + NamesOf(calls)))
         else reply == None
  }

  lemma RoundCompletes(s: Script, question: string, i: nat)
    requires forall k: nat :: k <= i ==> ToolRound(s, k)
    ensures i < |s.replies| && Completed(s, i, HistoryAfter(s, question, i), HistoryAfter(s, question, i + 1))
  {
    assert ToolRound(s, i);
  }

  /** The reply and the histories are as the replies of the model and the tools make them. */
  lemma LoopEnds(s: Script, question: string, shown: seq<seq<Turn>>)
    requires ValidScript(s)
    requires |shown| == if RoundsFrom(s, 0) == MAX_TOOL_ITERATIONS then MAX_TOOL_ITERATIONS else RoundsFrom(s, 0) + 1
    requires forall i: nat :: i < |shown| ==> shown[i] == HistoryAfter(s, question, i)
    ensures EndsWith(s, question, shown, LoopReply(s))
  {
    var n := |shown| - 1;
    HistoriesArePaired(s, question, n);
    hide ToolRound, NamesIn, NamesOf, WellPaired;
    forall i | 0 <= i < n ensures Completed(s, i, shown[i], shown[i + 1]) {
      RoundCompletes(s, question, i);
      hide HistoryAfter, Completed;
    }
    hide Completed;
    assert shown[0] == [User(question)];
    hide HistoryAfter;
    RoundIs(s, n);
  }

  lemma RoundIs(s: Script, n: nat)
    requires n < |s.replies|
    ensures ToolRound(s, n) <==>
      s.replies[n].Some? && s.replies[n].value.Tools? && ToolsRun(s, n, s.replies[n].value.calls)
    ensures ToolRound(s, n) ==> CallsAt(s, n) == s.replies[n].value.calls
  {
  }

  class Gateway {
    const registry: Registry

    constructor (registry: Registry)
      ensures this.registry == registry
    {
      this.registry := registry;
    }

    /** Run the requested tools in order; a tool's exception ends the whole loop. */
    method RunTools(s: Script, i: nat, calls: seq<ToolCall>, used: seq<string>)
      returns (results: Option<seq<(string, string)>>, used': seq<string>)
      requires AsksForTools(s, i) && calls == CallsAt(s, i)
      ensures results.Some? <==> ToolRound(s, i)
      ensures results.Some? ==> results.value == ResultsOf(s, i, |calls|) && used' == used + NamesOf(calls)
      ensures results.Some? <==> ToolsRun(s, i, calls)
      ensures results.Some? ==> OutputsOf(s, i, calls, results.value)
    {
      var outputs := [];
      used' := used;
      for j := 0 to |calls|
        invariant |outputs| == j && used' == used + NamesOf(calls[..j])
        invariant forall k: nat :: k < j ==> s.tools(i, k).Some? && outputs[k] == (calls[k].id, s.tools(i, k).value)
      {
        NamesOfPrefix(calls, j);
        used' := used' + [calls[j].name];
        if s.tools(i, j).None? {
          return None, used';
        }
        outputs := outputs + [(calls[j].id, s.tools(i, j).value)];
      }
      assert calls[..|calls|] == calls;
      results := Some(outputs);
    }

    /** `shown` is what each generate call was given. */
    method RunLoop(s: Script, question: string) returns (reply: Option<Reply>, ghost shown: seq<seq<Turn>>)
      requires ValidScript(s)
      ensures reply == LoopReply(s)
      ensures |shown| == if RoundsFrom(s, 0) == MAX_TOOL_ITERATIONS then MAX_TOOL_ITERATIONS else RoundsFrom(s, 0) + 1
      ensures forall i: nat :: i < |shown| ==> shown[i] == HistoryAfter(s, question, i)
      ensures EndsWith(s, question, shown, reply)
    {
      hide NamesOf, ResultsOf, EndsWith, Completed;
      var history := [User(question)];
      var used := [];
      shown := [];
      for i := 0 to MAX_TOOL_ITERATIONS
        invariant forall k: nat :: k < i ==> ToolRound(s, k)
        invariant RoundsFrom(s, 0) == RoundsFrom(s, i)
        invariant history == HistoryAfter(s, question, i) && used == UsedAfter(s, i)
        invariant |shown| == i && forall k: nat :: k < i ==> shown[k] == HistoryAfter(s, question, k)
      {
        shown := shown + [history];
        var result := s.replies[i];
        if result.None? {
          LoopEnds(s, question, shown);
          return None, shown;
        }
        if result.value.Refusal? {
          LoopEnds(s, question, shown);
          return Some(Reply(REFUSED, used)), shown;
        }
        if result.value.Final? {
          LoopEnds(s, question, shown);
          return Some(Reply(result.value.text, used)), shown;
        }
        history := history + [ToolUse(result.value.calls)];
        var results;
        results, used := RunTools(s, i, result.value.calls, used);
        if results.None? {
          LoopEnds(s, question, shown);
          return None, shown;
        }
        history := history + [ToolResult(results.value)];
      }
      LoopEnds(s, question, shown);
      reply := Some(Reply(OUT_OF_BUDGET, used));
    }

    /** Try the providers in order; a provider that raises trips its breaker a little and the next one is tried. */
    method Answer(question: string, providers: seq<Provider>, p: Policy, ghost readings: map<string, Reading>)
      returns (answer: Option<(string, string, seq<string>)>, ghost loops: seq<seq<seq<Turn>>>)
      requires registry.Valid() && Shows(readings) && forall pr :: pr in providers ==> ValidScript(pr.script)
      modifies registry, registry.breakers.Values
      ensures registry.Valid() && Shows(Failover(readings, providers, p).readings)
      ensures var winner := Failover(readings, providers, p).winner;
        answer == if winner.None? then None
                  else Some((LoopReply(winner.value.script).value.text, winner.value.name,
                             LoopReply(winner.value.script).value.toolsUsed))
      // `loops` is what each provider's loop was shown, nothing for a provider that was skipped. The answer is
      // the last one's own; all before it, or all if there is none, were skipped or raised.
      ensures |loops| <= |providers| && (answer.None? ==> |loops| == |providers|)
      ensures forall i :: 0 <= i < |loops| - (if answer.Some? then 1 else 0) ==>
        loops[i] == [] || EndsWith(providers[i].script, question, loops[i], None)
      ensures answer.Some? ==>
        var last := |loops| - 1;
        && last >= 0 && answer.value.1 == providers[last].name
        && EndsWith(providers[last].script, question, loops[last], Some(Reply(answer.value.0, answer.value.2)))
    {
      hide EndsWith, LoopReply;
      loops := [];
      ghost var now := readings;
      for i := 0 to |providers|
        invariant registry.Valid() && Shows(now)
        invariant Failover(readings, providers, p) == Failover(now, providers[i..], p)
        invariant |loops| == i
        invariant forall k :: 0 <= k < i ==> loops[k] == [] || EndsWith(providers[k].script, question, loops[k], None)
        invariant forall b :: b in registry.breakers.Values ==> b in old(registry.breakers.Values) || fresh(b)
      {
        assert providers[i..][0] == providers[i] && providers[i..][1..] == providers[i + 1..];
        var reply;
        ghost var shown;
        reply, shown := TryProvider(question, providers[i], p, now);
        loops := loops + [shown];
        now := Tried(now, providers[i], p);
        if reply.Some? {
          return Some((reply.value.text, providers[i].name, reply.value.toolsUsed)), loops;
        }
      }
      answer := None;
    }

    /** One provider behind its breaker. */
    method TryProvider(question: string, provider: Provider, p: Policy, ghost readings: map<string, Reading>)
      returns (reply: Option<Reply>, ghost shown: seq<seq<Turn>>)
      requires registry.Valid() && Shows(readings) && ValidScript(provider.script)
      modifies registry, registry.breakers.Values
      ensures registry.Valid() && Shows(Tried(readings, provider, p))
      ensures reply == if Answers(readings, provider, p) then LoopReply(provider.script) else None
      ensures var b := ReadingIn(readings, provider.name);
        if b.state == Open && provider.start - b.openedAt < p.cooldown then reply == None && shown == []
        else EndsWith(provider.script, question, shown, reply)
      ensures forall b :: b in registry.breakers.Values ==> b in old(registry.breakers.Values) || fresh(b)
    {
      hide EndsWith, LoopReply, RoundsFrom, HistoryAfter;
      var breaker := registry.GetBreaker(provider.name);
      var allowed := breaker.Allow(provider.start, p);
      if !allowed {
        return None, [];
      }
      reply, shown := RunLoop(provider.script, question);
      if reply.Some? {
        breaker.RecordSuccess();
      } else {
        breaker.RecordFailure(provider.end, p);
      }
      assert registry.ReadingOf(provider.name) ==
        AfterAttempt(old(registry.ReadingOf(provider.name)), AttemptOf(provider), p);
      assert forall n :: n != provider.name ==> registry.ReadingOf(n) == old(registry.ReadingOf(n));
    }

    ghost predicate Shows(readings: map<string, Reading>)
      reads registry, registry.breakers.Values
    {
      forall n :: registry.ReadingOf(n) == ReadingIn(readings, n)
    }
  }

  // --------------------------------------------------------------------- failover

  function ReadingIn(readings: map<string, Reading>, name: string): Reading {
    if name in readings then readings[name] else Fresh
  }

  /** A tool's exception counts against the provider, just as its own does. */
  function AttemptOf(pr: Provider): Attempt
    requires ValidScript(pr.script)
  {
    Attempt(pr.start, pr.end, if LoopReply(pr.script).Some? then Good else Bad)
  }

  function Tried(readings: map<string, Reading>, pr: Provider, p: Policy): map<string, Reading>
    requires ValidScript(pr.script)
  {
    readings[pr.name := AfterAttempt(ReadingIn(readings, pr.name), AttemptOf(pr), p)]
  }

  predicate Skipped(readings: map<string, Reading>, pr: Provider, p: Policy) {
    !LetsThrough(ReadingIn(readings, pr.name), pr.start, p)
  }

  predicate Answers(readings: map<string, Reading>, pr: Provider, p: Policy)
    requires ValidScript(pr.script)
  {
    !Skipped(readings, pr, p) && LoopReply(pr.script).Some?
  }

  datatype Outcome = Outcome(winner: Option<Provider>, readings: map<string, Reading>)

  /** Providers tried one after another, names repeated or not. */
  function Failover(readings: map<string, Reading>, providers: seq<Provider>, p: Policy): (r: Outcome)
    requires forall pr :: pr in providers ==> ValidScript(pr.script)
    ensures r.winner.Some? ==> r.winner.value in providers && LoopReply(r.winner.value.script).Some?
    decreases |providers|
  {
    if providers == [] then Outcome(None, readings)
    else if Answers(readings, providers[0], p) then Outcome(Some(providers[0]), Tried(readings, providers[0], p))
    else Failover(Tried(readings, providers[0], p), providers[1..], p)
  }

  ghost predicate DistinctNames(providers: seq<Provider>) {
    forall i, j :: 0 <= i < j < |providers| ==> providers[i].name != providers[j].name
  }

  /** Names that are not among the providers keep their readings. */
  lemma {:induction false} OthersKeepReadings(readings: map<string, Reading>, providers: seq<Provider>, p: Policy,
                                              name: string)
    requires forall pr :: pr in providers ==> ValidScript(pr.script) && pr.name != name
    ensures ReadingIn(Failover(readings, providers, p).readings, name) == ReadingIn(readings, name)
    decreases |providers|
  {
    if providers != [] && !Answers(readings, providers[0], p) {
      OthersKeepReadings(Tried(readings, providers[0], p), providers[1..], p, name);
    }
  }

  /** What answering does to the breaker of provider `i` when provider `f` is the first to answer. */
  predicate Moved(before: Reading, after: Reading, start: real, p: Policy, i: int, f: int) {
    if i > f then after == before                                        // never asked
    else if !LetsThrough(before, start, p) then after == before          // cooling down
    else if i == f then after.failures == 0 && after.state == Closed     // answered
    else                                                                 // raised, which may trip it
      && after.failures == before.failures + 1
      && (after.state == Open <==> before.state != Closed || before.failures + 1 >= p.threshold)
  }

  lemma FirstMoves(readings: map<string, Reading>, pr: Provider, p: Policy, f: int)
    requires ValidScript(pr.script) && f >= 0 && (f == 0 <==> Answers(readings, pr, p))
    ensures Moved(ReadingIn(readings, pr.name), ReadingIn(Tried(readings, pr, p), pr.name), pr.start, p, 0, f)
  {
    hide LoopReply;
  }

  /**
   With distinct names: the winner is the first provider that is neither skipped nor raising, judged
   by the breakers as they were before, and nobody wins when there is none. Only the winner's
   breaker is reset, each earlier one that raised counts one failure, and no later one is touched.
   */
  lemma {:induction false} FirstWins(readings: map<string, Reading>, providers: seq<Provider>, p: Policy)
    returns (f: nat)
    requires DistinctNames(providers) && forall pr :: pr in providers ==> ValidScript(pr.script)
    ensures f <= |providers| && forall i :: 0 <= i < f ==> !Answers(readings, providers[i], p)
    ensures var winner := Failover(readings, providers, p).winner;
      if f < |providers| then Answers(readings, providers[f], p) && winner == Some(providers[f]) else winner == None
    ensures var after := Failover(readings, providers, p).readings;
      forall i :: 0 <= i < |providers| ==>
        Moved(ReadingIn(readings, providers[i].name), ReadingIn(after, providers[i].name), providers[i].start, p, i, f)
    decreases |providers|
  {
    hide Tried, LoopReply, ReadingIn, LetsThrough, AfterAttempt, Answers, Failover, Moved;
    FailoverIs(readings, providers, p);
    if providers == [] {
      f := 0;
    } else if Answers(readings, providers[0], p) {
      f := 0;
      FirstMoves(readings, providers[0], p, 0);
      LaterUntouched(readings, providers, p);
    } else {
      var rest, next := providers[1..], Tried(readings, providers[0], p);
      TriedOneOnly(readings, providers, p);
      var g := FirstWins(next, rest, p);
      f := g + 1;
      OthersKeepReadings(next, rest, p, providers[0].name);
      FirstMoves(readings, providers[0], p, f);
      assert forall i :: 0 < i < |providers| ==> providers[i] == rest[i - 1];
      hide DistinctNames, ValidScript;
      AllOneLater(readings, next, Failover(next, rest, p).readings, providers, p, g);
    }
  }

  /** One step of the chain. */
  lemma FailoverIs(readings: map<string, Reading>, providers: seq<Provider>, p: Policy)
    requires forall pr :: pr in providers ==> ValidScript(pr.script)
    ensures var r := Failover(readings, providers, p);
      if providers == [] then r.winner == None && r.readings == readings
      else if Answers(readings, providers[0], p) then
        r.winner == Some(providers[0]) && r.readings == Tried(readings, providers[0], p)
      else r == Failover(Tried(readings, providers[0], p), providers[1..], p)
  {
    hide Tried, LoopReply, Answers;
  }

  /** Trying the first provider changes nothing for those with other names. */
  lemma TriedOneOnly(readings: map<string, Reading>, providers: seq<Provider>, p: Policy)
    requires DistinctNames(providers) && providers != [] && forall pr :: pr in providers ==> ValidScript(pr.script)
    ensures var next := Tried(readings, providers[0], p);
      forall i :: 0 < i < |providers| ==>
        && ReadingIn(next, providers[i].name) == ReadingIn(readings, providers[i].name)
        && (Answers(next, providers[i], p) <==> Answers(readings, providers[i], p))
  {
    forall i | 0 < i < |providers|
      ensures ReadingIn(Tried(readings, providers[0], p), providers[i].name) == ReadingIn(readings, providers[i].name)
    {
      assert providers[0].name != providers[i].name;
    }
    hide LoopReply, Tried, ReadingIn, AfterAttempt;
  }

  /** When the first answers, no later one is asked. */
  lemma LaterUntouched(readings: map<string, Reading>, providers: seq<Provider>, p: Policy)
    requires DistinctNames(providers) && providers != [] && forall pr :: pr in providers ==> ValidScript(pr.script)
    ensures var after := Tried(readings, providers[0], p);
      forall i :: 0 < i < |providers| ==>
        Moved(ReadingIn(readings, providers[i].name), ReadingIn(after, providers[i].name), providers[i].start, p, i, 0)
  {
    TriedOneOnly(readings, providers, p);
    hide Tried, ReadingIn, LetsThrough;
  }

  /** What holds of the rest, counted from its own first provider, holds of the whole. */
  lemma AllOneLater(readings: map<string, Reading>, next: map<string, Reading>, after: map<string, Reading>,
                    providers: seq<Provider>, p: Policy, g: int)
    requires providers != []
    requires forall i :: 0 < i < |providers| ==>
      ReadingIn(next, providers[i].name) == ReadingIn(readings, providers[i].name)
    requires forall i :: 0 <= i < |providers| - 1 ==>
      Moved(ReadingIn(next, providers[1..][i].name), ReadingIn(after, providers[1..][i].name),
            providers[1..][i].start, p, i, g)
    ensures forall i :: 0 < i < |providers| ==>
      Moved(ReadingIn(readings, providers[i].name), ReadingIn(after, providers[i].name), providers[i].start, p, i,
            g + 1)
  {
    hide Moved, ReadingIn;
    forall i | 0 < i < |providers|
      ensures Moved(ReadingIn(readings, providers[i].name), ReadingIn(after, providers[i].name), providers[i].start,
                    p, i, g + 1)
    {
      assert providers[1..][i - 1] == providers[i];
      OneLater(ReadingIn(next, providers[i].name), ReadingIn(after, providers[i].name), providers[i].start, p, i - 1,
               g);
    }
  }

  /** Positions matter only relative to each other. */
  lemma OneLater(before: Reading, after: Reading, start: real, p: Policy, i: int, f: int)
    requires Moved(before, after, start, p, i, f)
    ensures Moved(before, after, start, p, i + 1, f + 1)
  {
  }

  // ------------------------------------------------------------------ the providers

  datatype Config = Config(order: seq<string>, anthropicKey: bool, openaiKey: bool)

  predicate Runnable(name: string, c: Config) {
    || (name == "claude" && c.anthropicKey)
    || (name == "openai" && c.openaiKey)
    || name == "mock"
  }

  /** Two providers need their own key, the mock needs none, and there are no others. */
  lemma WhoCanRun(c: Config, name: string)
    ensures Runnable("claude", c) <==> c.anthropicKey
    ensures Runnable("openai", c) <==> c.openaiKey
    ensures Runnable("mock", c)
    ensures name != "claude" && name != "openai" && name != "mock" ==> !Runnable(name, c)
  {
  }

  /** The chain keeps the configured order, drops what cannot run, and is never empty. */
  method BuildProviders(c: Config) returns (names: seq<string>, ghost from: seq<nat>)
    ensures names != [] && forall n :: n in names ==> Runnable(n, c)
    ensures (exists n :: n in c.order && Runnable(n, c)) ==>
      && |from| == |names|
      && (forall k :: 0 <= k < |names| ==> from[k] < |c.order| && names[k] == c.order[from[k]])
      && (forall k, m :: 0 <= k < m < |from| ==> from[k] < from[m])
      && (forall i: nat :: i < |c.order| && Runnable(c.order[i], c) ==> i in from)
    ensures (forall n :: n in c.order ==> !Runnable(n, c)) ==> names == ["mock"]
  {
    names, from := [], [];
    for i := 0 to |c.order|
      invariant |from| == |names|
      invariant forall n :: n in names ==> Runnable(n, c)
      invariant forall k :: 0 <= k < |names| ==> from[k] < i && names[k] == c.order[from[k]]
      invariant forall k, m :: 0 <= k < m < |from| ==> from[k] < from[m]
      invariant forall k: nat :: k < i && Runnable(c.order[k], c) ==> k in from
    {
      var name := c.order[i];
      if name == "claude" && c.anthropicKey {
        names, from := names + ["claude"], from + [i];
      } else if name == "openai" && c.openaiKey {
        names, from := names + ["openai"], from + [i];
      } else if name == "mock" {
        names, from := names + ["mock"], from + [i];
      }
    }
    if names == [] {
      names := names + ["mock"];
    } else {
      assert names[0] == c.order[from[0]] && names[0] in c.order;
    }
  }
}
