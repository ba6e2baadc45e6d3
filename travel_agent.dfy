/**
 * The main loop of the travel-assistant script (learing_agent/main.py:124-176):
 * at most five rounds of asking the model with the history joined by newlines,
 * cutting its output down to the first Thought/Action block, ending on
 * `Action: Finish`, and otherwise calling the named tool with the `key="value"`
 * arguments and recording what it gave as an observation.
 *
 * The model is a parameter: `Generate` gives the output of the k-th call
 * (counting from 0) for the given user message; the system prompt is the same
 * fixed text on every call. The tools are a parameter too.
 */
module TravelAgent {
  import opened Wrappers
  import opened Text
  import opened ReactParser
  import opened TravelParser

  /** What calling a tool with keyword arguments does: return a text, or raise. */
  datatype ToolResult = Returned(text: string) | Raised(message: string)

  /** A tool, called as `tool(**kwargs)`; a keyword it does not take raises too. */
  type Tool = map<string, string> -> ToolResult

  type Generate = (nat, string) -> string

  /** `range(5)`. */
  const MaxRounds: nat := 5

  /** How the loop ends: an error output, a `Finish` answer (read or not), or all rounds used. */
  datatype End = ModelError | Answered(answer: string) | AnsweredRaw(output: string) | OutOfRounds

  /** What one round does: end the loop, or go on, after adding its entries to the history. */
  datatype Round = Stop(end: End, added: seq<string>) | Go(added: seq<string>)

  datatype RunResult = RunResult(end: End, history: seq<string>)

  /** The first history entry (line 125). */
  function Request(userPrompt: string): string {
    "用户请求: " + userPrompt
  }

  function NotFound(name: string): string {
    "错误: 找不到名为 " + name + " 的工具"
  }

  function ToolFailed(message: string): string {
    "工具执行出错: " + message
  }

  /** Lines 164-170: the tool's text, or the message for a failing or an unknown tool. */
  function Observation(tools: map<string, Tool>, name: string, kwargs: map<string, string>): (r: string)
    ensures name in tools && tools[name](kwargs).Returned? ==> r == tools[name](kwargs).text
    ensures name in tools && tools[name](kwargs).Raised? ==> r == "工具执行出错: " + tools[name](kwargs).message
    ensures name !in tools ==> r == "错误: 找不到名为 " + name + " 的工具"
  {
    if name in tools then
      match tools[name](kwargs)
      case Returned(text) => text
      case Raised(message) => ToolFailed(message)
    else NotFound(name)
  }

  /** Lines 136-176 applied to one model output: what the round adds and whether it ends the loop. */
  function RoundOf(output: string, tools: map<string, Tool>): (r: Round)
    ensures Contains(output, "Error:") <==> r == Stop(ModelError, [])
    ensures !Contains(output, "Error:") ==> 1 <= |r.added| <= 2 && r.added[0] == Truncate(output)
    ensures r.Stop? <==> Contains(output, "Error:") || Contains(Truncate(output), "Action: Finish")
    ensures |r.added| == 2 <==> r.Go? && ActionCall(Truncate(output)).Some?
  {
    if Contains(output, "Error:") then Stop(ModelError, [])
    else
      var out := Truncate(output);
      if Contains(out, "Action: Finish") then
        match FinalAnswer(out)
        case Some(answer) => Stop(Answered(answer), [out])
        case None => Stop(AnsweredRaw(out), [out])
      else match ActionCall(out)
        case Some(call) => Go([out, "Observation: " + Observation(tools, call.name, Kwargs(call.args))])
        case None => Go([out])
  }

  /** What round `k` does, given the history before it. */
  type Decider = (nat, seq<string>) -> Round

  /** The script's rounds: ask the model with the joined history, then act on its output. */
  function Decide(generate: Generate, tools: map<string, Tool>): Decider {
    (k: nat, h: seq<string>) => RoundOf(generate(k, Join(h, "\n")), tools)
  }

  /** The loop from round `k` on, with `history` recorded so far. */
  function Loop(decide: Decider, k: nat, history: seq<string>): RunResult
    decreases MaxRounds - k
  {
    if k >= MaxRounds then RunResult(OutOfRounds, history)
    else match decide(k, history)
      case Stop(e, added) => RunResult(e, history + added)
      case Go(added) => Loop(decide, k + 1, history + added)
  }

  /** The number of rounds, and so of model calls, the loop from round `k` on takes. */
  function Calls(decide: Decider, k: nat, history: seq<string>): nat
    decreases MaxRounds - k
  {
    if k >= MaxRounds then 0
    else match decide(k, history)
      case Stop(_, _) => 1
      case Go(added) => 1 + Calls(decide, k + 1, history + added)
  }

  lemma {:induction false} DecideIs(generate: Generate, tools: map<string, Tool>, k: nat, h: seq<string>)
    ensures Decide(generate, tools)(k, h) == RoundOf(generate(k, Join(h, "\n")), tools)
  {
  }

  /** A round that goes on moves the loop to the next round with its entries added. */
  lemma {:induction false} LoopGo(decide: Decider, k: nat, history: seq<string>, added: seq<string>)
    requires k < MaxRounds && decide(k, history) == Go(added)
    ensures Loop(decide, k, history) == Loop(decide, k + 1, history + added)
    ensures Calls(decide, k, history) == 1 + Calls(decide, k + 1, history + added)
  {
  }

  /**
   * The body of the loop after the model call (lines 136-176): the error check, the
   * cut, the entry for the output, the `Finish` check and the tool call.
   */
  method HandleOutput(output: string, tools: map<string, Tool>) returns (r: Round)
    ensures r == RoundOf(output, tools)
  {
    if Contains(output, "Error:") {
      return Stop(ModelError, []);
    }
    var llmOutput := output;
    match FirstBlock(llmOutput) {
      case Some(block) => llmOutput := Strip(block);
      case None =>
    }
    assert llmOutput == Truncate(output);
    if Contains(llmOutput, "Action: Finish") {
      match FinalAnswer(llmOutput) {
        case Some(answer) => return Stop(Answered(answer), [llmOutput]);
        case None => return Stop(AnsweredRaw(llmOutput), [llmOutput]);
      }
    }
    match ActionCall(llmOutput) {
      case Some(call) =>
        var kwargs := Kwargs(call.args);
        var toolResult: string;
        if call.name in tools {
          match tools[call.name](kwargs) {
            case Returned(text) => toolResult := text;
            case Raised(message) => toolResult := ToolFailed(message);
          }
        } else {
          toolResult := NotFound(call.name);
        }
        assert toolResult == Observation(tools, call.name, kwargs);
        var observation := "Observation: " + toolResult;
        return Go([llmOutput, observation]);
      case None =>
        return Go([llmOutput]);
    }
  }

  /** The script's loop over `prompt_history`: one model call per round, at most `MaxRounds`. */
  method Run(generate: Generate, tools: map<string, Tool>, userPrompt: string)
    returns (end: End, history: seq<string>, ghost calls: nat)
    ensures RunResult(end, history) == Loop(Decide(generate, tools), 0, [Request(userPrompt)])
    ensures calls == Calls(Decide(generate, tools), 0, [Request(userPrompt)])
  {
    ghost var decide := Decide(generate, tools);
    ghost var run := Loop(decide, 0, [Request(userPrompt)]);
    ghost var total := Calls(decide, 0, [Request(userPrompt)]);
    history := [Request(userPrompt)];
    calls := 0;
    end := OutOfRounds;
    for i := 0 to MaxRounds
      invariant run == Loop(decide, i, history)
      invariant total == calls + Calls(decide, i, history)
    {
      var fullPrompt := Join(history, "\n");
      var llmOutput := generate(i, fullPrompt);
      calls := calls + 1;
      DecideIs(generate, tools, i, history);
      var round := HandleOutput(llmOutput, tools);
      if round.Stop? {
        history := history + round.added;
        end := round.end;
        return;
      }
      LoopGo(decide, i, history, round.added);
      history := history + round.added;
    }
  }

  // ---- Properties ----

  /**
   * What a round of the script adds and how it ends, whatever the model wrote:
   * one or two entries when it goes on; nothing on an error; otherwise the one
   * entry holding `Action: Finish` that the answer is read from.
   */
  ghost predicate Shaped(r: Round) {
    && |r.added| <= 2
    && (r.Go? ==> 1 <= |r.added|)
    && (r.Stop? ==> !r.end.OutOfRounds? && (r.end.ModelError? <==> r.added == []))
    && (r.Stop? && !r.end.ModelError? ==> |r.added| == 1 && Contains(r.added[0], "Action: Finish"))
    && (r.Stop? && r.end.Answered? ==> FinalAnswer(r.added[0]) == Some(r.end.answer))
    && (r.Stop? && r.end.AnsweredRaw? ==> FinalAnswer(r.added[0]).None? && r.end.output == r.added[0])
  }

  ghost predicate AllShaped(decide: Decider) {
    forall k, h :: Shaped(decide(k, h))
  }

  /** Every round of the script has that shape. */
  lemma {:induction false} RoundShaped(output: string, tools: map<string, Tool>)
    ensures Shaped(RoundOf(output, tools))
  {
  }

  lemma {:induction false} DecideShaped(generate: Generate, tools: map<string, Tool>)
    ensures AllShaped(Decide(generate, tools))
  {
    forall k, h ensures Shaped(Decide(generate, tools)(k, h)) {
      DecideIs(generate, tools, k, h);
      RoundShaped(generate(k, Join(h, "\n")), tools);
    }
  }

  /** The loop makes at most one model call per round left. */
  lemma {:induction false} CallsBound(decide: Decider, k: nat, history: seq<string>)
    ensures Calls(decide, k, history) <= if k < MaxRounds then MaxRounds - k else 0
    decreases MaxRounds - k
  {
    if k < MaxRounds {
      match decide(k, history)
      case Stop(_, _) =>
      case Go(added) => CallsBound(decide, k + 1, history + added);
    }
  }

  /** A loop that ends because the rounds ran out made a call in every round. */
  lemma {:induction false} OutOfRoundsUsesAll(decide: Decider, k: nat, history: seq<string>)
    requires AllShaped(decide) && k <= MaxRounds
    ensures Loop(decide, k, history).end.OutOfRounds? ==> Calls(decide, k, history) == MaxRounds - k
    decreases MaxRounds - k
  {
    if k < MaxRounds {
      assert Shaped(decide(k, history));
      match decide(k, history)
      case Stop(e, added) =>
      case Go(added) => OutOfRoundsUsesAll(decide, k + 1, history + added);
    }
  }

  /**
   * The history only grows: what was there stays in front, every round adds one
   * or two entries, and only an error output adds none.
   */
  lemma {:induction false} HistoryGrows(decide: Decider, k: nat, history: seq<string>)
    requires AllShaped(decide)
    ensures var r := Loop(decide, k, history);
      var n := Calls(decide, k, history);
      |history| <= |r.history| && r.history[..|history|] == history
      && |history| + n - (if r.end.ModelError? then 1 else 0) <= |r.history| <= |history| + 2 * n
    decreases MaxRounds - k
  {
    if k < MaxRounds {
      assert Shaped(decide(k, history));
      match decide(k, history)
      case Stop(e, added) =>
        assert (history + added)[..|history|] == history;
      case Go(added) =>
        HistoryGrows(decide, k + 1, history + added);
        assert (history + added)[..|history|] == history;
        var r := Loop(decide, k + 1, history + added);
        assert r.history[..|history|] == r.history[..|history + added|][..|history|];
    }
  }

  /** A loop that does not run out of rounds ended on a round that stopped it, after the history before it. */
  lemma {:induction false} LastRound(decide: Decider, k: nat, history: seq<string>) returns (j: nat, before: seq<string>)
    ensures var r := Loop(decide, k, history);
      !r.end.OutOfRounds? ==>
        && k <= j < MaxRounds && decide(j, before).Stop? && decide(j, before).end == r.end
        && r.history == before + decide(j, before).added && |history| <= |before|
    decreases MaxRounds - k
  {
    j, before := k, history;
    if k < MaxRounds {
      match decide(k, history)
      case Stop(e, added) =>
      case Go(added) =>
        j, before := LastRound(decide, k + 1, history + added);
    }
  }

  /**
   * An answer is read off the last history entry, which holds `Action: Finish`:
   * what `FinalAnswer` finds there, or the entry itself where it finds nothing.
   */
  lemma {:induction false} AnswerOfRun(decide: Decider, k: nat, history: seq<string>)
    requires AllShaped(decide)
    ensures var r := Loop(decide, k, history);
      && (r.end.Answered? || r.end.AnsweredRaw? ==>
            |history| < |r.history| && Contains(r.history[|r.history| - 1], "Action: Finish"))
      && (r.end.Answered? ==> FinalAnswer(r.history[|r.history| - 1]) == Some(r.end.answer))
      && (r.end.AnsweredRaw? ==> FinalAnswer(r.end.output).None? && r.end.output == r.history[|r.history| - 1])
  {
    var r := Loop(decide, k, history);
    var j, before := LastRound(decide, k, history);
    if r.end.Answered? || r.end.AnsweredRaw? {
      var round := decide(j, before);
      assert Shaped(round);
      assert r.history[|r.history| - 1] == round.added[0];
    }
  }

  /** An output containing `Error:` ends the loop at once, with the history as it was. */
  lemma {:induction false} ErrorStopsAtOnce(generate: Generate, tools: map<string, Tool>, k: nat, history: seq<string>)
    requires k < MaxRounds && Contains(generate(k, Join(history, "\n")), "Error:")
    ensures Loop(Decide(generate, tools), k, history) == RunResult(ModelError, history)
    ensures Calls(Decide(generate, tools), k, history) == 1
  {
    DecideIs(generate, tools, k, history);
    assert history + [] == history;
  }

  /** A turn that finishes at once: `Thought: …`, a newline, `Action: Finish[answer]`. */
  lemma {:induction false} FinishRound(thought: string, answer: string, rest: string, tools: map<string, Tool>)
    requires !Contains(thought, "Action:") && forall j :: 0 <= j < |thought| ==> thought[j] != '['
    requires forall j :: 0 <= j < |answer| ==> answer[j] != '[' && answer[j] != ']' && answer[j] != '\n'
    requires rest == [] || StartsWith(rest, "\nThought:")
    requires !Contains(RenderTurn(thought, "Finish[" + answer + "]") + rest, "Error:")
    ensures var turn := RenderTurn(thought, "Finish[" + answer + "]");
      RoundOf(turn + rest, tools) == Stop(Answered(answer), [turn])
  {
    var action := "Finish[" + answer + "]";
    FinishActionLine(answer);
    TruncateTurn(thought, action, rest);
    FinishTurnRead(thought, answer);
  }

  lemma {:induction false} FinishTurnRead(thought: string, answer: string)
    requires forall j :: 0 <= j < |thought| ==> thought[j] != '['
    requires forall j :: 0 <= j < |answer| ==> answer[j] != '[' && answer[j] != ']'
    ensures var turn := RenderTurn(thought, "Finish[" + answer + "]");
      Contains(turn, "Action: Finish") && FinalAnswer(turn) == Some(answer)
  {
    FinishMarker(thought, answer);
    FinishTurnAnswer(thought, answer);
  }

  /** The answer read back from a `Finish` turn is the answer written into it. */
  lemma {:induction false} FinishTurnAnswer(thought: string, answer: string)
    requires forall j :: 0 <= j < |thought| ==> thought[j] != '['
    requires forall j :: 0 <= j < |answer| ==> answer[j] != '[' && answer[j] != ']'
    ensures FinalAnswer(RenderTurn(thought, "Finish[" + answer + "]")) == Some(answer)
  {
    FinishTurnShape(thought, answer);
    PrefixBracketFree(thought);
    FinalAnswerRoundTrip("Thought: " + thought + "\nAction: ", answer, "");
  }

  /** A `Finish` turn is its prefix, the `Finish[` action and nothing after it. */
  lemma {:induction false} FinishTurnShape(thought: string, answer: string)
    ensures RenderTurn(thought, "Finish[" + answer + "]") == "Thought: " + thought + "\nAction: " + "Finish[" + answer + "]" + ""
  {
    var turn := RenderTurn(thought, "Finish[" + answer + "]");
    assert "Thought: " + thought + "\nAction: " + "Finish[" + answer + "]" + "" == turn;
  }

  /** A `Finish` turn holds `Action: Finish` right after its thought. */
  lemma {:induction false} FinishMarker(thought: string, answer: string)
    ensures OccursAt(RenderTurn(thought, "Finish[" + answer + "]"), "Action: Finish", |thought| + 10)
  {
    var turn := RenderTurn(thought, "Finish[" + answer + "]");
    var q := |thought| + 10;
    assert turn[q..q + 14] == "Action: Finish";
  }

  /** What a turn writes before its action holds no `[` when the thought holds none. */
  lemma {:induction false} PrefixBracketFree(thought: string)
    requires forall j :: 0 <= j < |thought| ==> thought[j] != '['
    ensures var prefix := "Thought: " + thought + "\nAction: ";
      forall j :: 0 <= j < |prefix| ==> prefix[j] != '['
  {
    var prefix := "Thought: " + thought + "\nAction: ";
    forall j | 0 <= j < |prefix| ensures prefix[j] != '[' {
      if 9 <= j < 9 + |thought| {
        assert prefix[j] == thought[j - 9];
      }
    }
  }

  lemma {:induction false} FinishActionLine(answer: string)
    requires forall j :: 0 <= j < |answer| ==> answer[j] != '\n'
    ensures var action := "Finish[" + answer + "]";
      !IsSpace(action[|action| - 1]) && forall j :: 0 <= j < |action| ==> action[j] != '\n'
  {
    var action := "Finish[" + answer + "]";
    forall j | 0 <= j < |action| ensures action[j] != '\n' {
      if 7 <= j < 7 + |answer| {
        assert action[j] == answer[j - 7];
      } else if j < 7 {
        assert action[j] == "Finish["[j];
      }
    }
  }

  /**
   * A turn that calls a tool: `Thought: …`, a newline, `Action: name(k="v", …)`.
   * The tool is called with the pairs as keyword arguments, and its text, the
   * message of its exception or the unknown-tool message is recorded after the turn.
   */
  lemma {:induction false} ToolRound(thought: string, name: string, pairs: seq<Pair>, rest: string, tools: map<string, Tool>)
    requires !Contains(thought, "Action:")
    requires name != [] && forall j :: 0 <= j < |name| ==> IsWordChar(name[j])
    requires forall j :: 0 <= j < |pairs| ==> Plain(pairs[j])
    requires forall j :: 0 <= j < |RenderArgs(pairs)| ==> RenderArgs(pairs)[j] != '\n'
    requires rest == [] || StartsWith(rest, "\nThought:")
    requires !Contains(RenderTurn(thought, name + "(" + RenderArgs(pairs) + ")") + rest, "Error:")
    requires !Contains(RenderTurn(thought, name + "(" + RenderArgs(pairs) + ")"), "Action: Finish")
    ensures var turn := RenderTurn(thought, name + "(" + RenderArgs(pairs) + ")");
      RoundOf(turn + rest, tools) == Go([turn, "Observation: " + Observation(tools, name, ToMap(pairs))])
    ensures var turn := RenderTurn(thought, name + "(" + RenderArgs(pairs) + ")");
      && (name !in tools ==> RoundOf(turn + rest, tools).added[1] == "Observation: " + NotFound(name))
      && (name in tools && tools[name](ToMap(pairs)).Raised? ==>
            RoundOf(turn + rest, tools).added[1] == "Observation: " + ToolFailed(tools[name](ToMap(pairs)).message))
  {
    var args := RenderArgs(pairs);
    var action := name + "(" + args + ")";
    var turn := RenderTurn(thought, action);
    CallLine(name, args);
    TruncateTurn(thought, action, rest);
    ActionCallRoundTrip(thought, name, args);
    FindPairsRoundTrip(pairs);
  }

  lemma {:induction false} CallLine(name: string, args: string)
    requires forall j :: 0 <= j < |name| ==> IsWordChar(name[j])
    requires forall j :: 0 <= j < |args| ==> args[j] != '\n'
    ensures var action := name + "(" + args + ")";
      !IsSpace(action[|action| - 1]) && forall j :: 0 <= j < |action| ==> action[j] != '\n'
  {
    var action := name + "(" + args + ")";
    forall j | 0 <= j < |action| ensures action[j] != '\n' {
      if j < |name| {
        assert action[j] == name[j];
      } else if |name| < j < |name| + 1 + |args| {
        assert action[j] == args[j - |name| - 1];
      }
    }
  }

  /** A model that finishes on its first output ends the run after one call, with two history entries. */
  lemma {:induction false} FinishAtOnce(generate: Generate, tools: map<string, Tool>, userPrompt: string, thought: string, answer: string)
    requires !Contains(thought, "Action:") && forall j :: 0 <= j < |thought| ==> thought[j] != '['
    requires forall j :: 0 <= j < |answer| ==> answer[j] != '[' && answer[j] != ']' && answer[j] != '\n'
    requires generate(0, Request(userPrompt)) == RenderTurn(thought, "Finish[" + answer + "]")
    requires !Contains(RenderTurn(thought, "Finish[" + answer + "]"), "Error:")
    ensures Loop(Decide(generate, tools), 0, [Request(userPrompt)])
         == RunResult(Answered(answer), [Request(userPrompt), RenderTurn(thought, "Finish[" + answer + "]")])
    ensures Calls(Decide(generate, tools), 0, [Request(userPrompt)]) == 1
  {
    var turn := RenderTurn(thought, "Finish[" + answer + "]");
    assert turn + [] == turn;
    FinishRound(thought, answer, [], tools);
    DecideIs(generate, tools, 0, [Request(userPrompt)]);
  }
}
