/**
 * `ReActAgent` (the_chapter_4/LLMClient.py:188-263): a step-bounded loop that asks
 * the model for a `Thought:`/`Action:` turn, runs the named tool, and records the
 * action and its observation in the agent's history until the model says `Finish`.
 *
 * The model is a parameter: `Backend` gives the stream the model sends back for
 * the k-th call of a run (counting from 0) on the given messages. Tools are total
 * functions that either return an observation or raise.
 */
module ReactAgent {
  import opened Wrappers
  import opened Text
  import opened StrFormat
  import opened ToolRegistry
  import opened LlmStream
  import opened ReactParser
  import opened ReactPrompts

  /** What calling a tool does: return an observation, or raise an exception. */
  datatype ToolResult = Returned(text: string) | Raised(error: string)

  type Tool = string -> ToolResult

  /** The system message and the user message sent on one step. */
  datatype Messages = Messages(system: string, user: string)

  type Backend = (nat, Messages) -> seq<Chunk>

  /** How `run` ends: with an answer, with None, or with the exception a tool raised. */
  datatype RunOutcome = Answer(text: string) | NoAnswer | ToolFailed(error: string)

  /** What one step decides: end the run, go on without a record, or record an action and its observation. */
  datatype Step = Halt(outcome: RunOutcome) | Skip | Record(action: string, observation: string)

  /** How a run ends: its outcome and the history it leaves. */
  datatype RunResult = RunResult(outcome: RunOutcome, history: seq<string>)

  /** The system message: the system template with the tool descriptions filled in. */
  function SystemMessage(tools: string): string {
    SystemLit0 + tools + SystemLit1 + Field("tool_name") + SystemLit2 + Field("tool_input") + SystemLit3
  }

  /** The user message: the user template with the question and the history filled in. */
  function UserMessage(question: string, history: string): string {
    UserLit0 + question + UserLit1 + history + UserLit2
  }

  /** `REACT_SYSTEM_PROMPT.format(tools=...)` never raises and gives `SystemMessage`. */
  lemma {:induction false} SystemMessageRenders(tools: string)
    ensures Format(ReactSystemPrompt, map["tools" := tools]) == Success(SystemMessage(tools))
  {
    ReactSystemFormats(tools);
  }

  /** `REACT_USER_PROMPT.format(question=..., history=...)` never raises and gives `UserMessage`. */
  lemma {:induction false} UserMessageRenders(question: string, history: string)
    ensures Format(ReactUserPrompt, map["question" := question, "history" := history]) == Success(UserMessage(question, history))
  {
    ReactUserFormats(question, history);
  }

  /** The messages of one step: the history entries are joined by newlines. */
  function Prompt(tools: string, question: string, history: seq<string>): Messages {
    Messages(SystemMessage(tools), UserMessage(question, Join(history, "\n")))
  }

  /** The observation for a tool name that is not registered. */
  function NotFound(name: string): string {
    "错误:未找到名为 '" + name + "' 的工具。"
  }

  /** What the agent does with the action of a reply. */
  function ActionStep(action: Option<string>, tools: map<string, ToolEntry<Tool>>): Step {
    if action.None? || action.value == [] then Halt(NoAnswer)
    else if StartsWith(action.value, "Finish") then Halt(Answer(FinishAnswer(action.value)))
    else match ParseAction(action.value)
      case None => Skip
      case Some(call) =>
        if call.input == [] then Skip
        else if call.name !in tools then Record(action.value, NotFound(call.name))
        else match tools[call.name].func(call.input)
          case Raised(e) => Halt(ToolFailed(e))
          case Returned(obs) => Record(action.value, obs)
  }

  /** What the agent does with the model's reply on one step. */
  function StepOf(reply: Option<string>, tools: map<string, ToolEntry<Tool>>): Step {
    if reply.None? || reply.value == [] then Halt(NoAnswer)
    else ActionStep(ParseOutput(reply.value).action, tools)
  }

  /** The reply to the model call of step `step` (counting from 0). */
  function ReplyOf(llm: Backend, desc: string, question: string, step: nat, history: seq<string>): Option<string> {
    Outcome(Collect(llm(step, Prompt(desc, question, history))))
  }

  /** What a step decides, given its number and the history recorded before it. */
  type Decider = (nat, seq<string>) -> Step

  /** Step `k` with history `h`: ask the model with the current history, then act on its reply. */
  function StepAt(llm: Backend, tools: map<string, ToolEntry<Tool>>, desc: string, question: string, k: nat, h: seq<string>): Step {
    StepOf(ReplyOf(llm, desc, question, k, h), tools)
  }

  /** The agent's steps. */
  function Decide(llm: Backend, tools: map<string, ToolEntry<Tool>>, desc: string, question: string): Decider {
    (k: nat, h: seq<string>) => StepAt(llm, tools, desc, question, k, h)
  }

  /**
   * The step loop from step `step` on, with `history` recorded so far: a halt ends
   * it, a record appends the action and its observation, and the budget ends it
   * with no answer.
   */
  function Loop(decide: Decider, maxSteps: int, step: nat, history: seq<string>): RunResult
    decreases if step < maxSteps then maxSteps - step else 0, 2
  {
    if step >= maxSteps then RunResult(NoAnswer, history)
    else LoopStep(decide, maxSteps, step, history)
  }

  /**
   * The loop at a step within the budget. It is a layer of its own so that a proof
   * unfolds what a step decides only where it asks for it.
   */
  function LoopStep(decide: Decider, maxSteps: int, step: nat, history: seq<string>): RunResult
    requires step < maxSteps
    decreases maxSteps - step, 1
  {
    Continue(decide, maxSteps, step, history)
  }

  /** What the step decides, then the rest of the loop. */
  function Continue(decide: Decider, maxSteps: int, step: nat, history: seq<string>): RunResult
    requires step < maxSteps
    decreases maxSteps - step, 0
  {
    match decide(step, history)
    case Halt(o) => RunResult(o, history)
    case Skip => Loop(decide, maxSteps, step + 1, history)
    case Record(a, obs) => Loop(decide, maxSteps, step + 1, history + ["Action: " + a, "Observation: " + obs])
  }

  /** The number of steps, and so of model calls, the loop from step `step` on takes. */
  function Calls(decide: Decider, maxSteps: int, step: nat, history: seq<string>): nat
    decreases if step < maxSteps then maxSteps - step else 0, 2
  {
    if step >= maxSteps then 0
    else CallsStep(decide, maxSteps, step, history)
  }

  /** The calls from a step within the budget on, a layer of its own as `LoopStep` is. */
  function CallsStep(decide: Decider, maxSteps: int, step: nat, history: seq<string>): nat
    requires step < maxSteps
    decreases maxSteps - step, 1
  {
    CallsContinue(decide, maxSteps, step, history)
  }

  /** One call for the step, then the calls of the rest of the loop. */
  function CallsContinue(decide: Decider, maxSteps: int, step: nat, history: seq<string>): nat
    requires step < maxSteps
    decreases maxSteps - step, 0
  {
    match decide(step, history)
    case Halt(_) => 1
    case Skip => 1 + Calls(decide, maxSteps, step + 1, history)
    case Record(a, obs) => 1 + Calls(decide, maxSteps, step + 1, history + ["Action: " + a, "Observation: " + obs])
  }

  /** The loop and its calls at a step within the budget, unfolded to what the step decides. */
  lemma {:induction false} Unfold(decide: Decider, maxSteps: int, k: nat, history: seq<string>)
    requires k < maxSteps
    ensures Loop(decide, maxSteps, k, history) == Continue(decide, maxSteps, k, history)
    ensures Calls(decide, maxSteps, k, history) == CallsContinue(decide, maxSteps, k, history)
  {
    assert Loop(decide, maxSteps, k, history) == LoopStep(decide, maxSteps, k, history);
    assert Calls(decide, maxSteps, k, history) == CallsStep(decide, maxSteps, k, history);
  }

  lemma {:induction false} AppendTwo<T>(s: seq<T>, x: T, y: T)
    ensures s + [x] + [y] == s + [x, y]
  {
  }

  /** A step within the budget whose reply halts ends the loop there, after one call. */
  lemma {:induction false} StepHalts(llm: Backend, tools: map<string, ToolEntry<Tool>>, desc: string, question: string,
                                     maxSteps: int, k: nat, history: seq<string>, o: RunOutcome)
    requires k < maxSteps && StepAt(llm, tools, desc, question, k, history) == Halt(o)
    ensures Loop(Decide(llm, tools, desc, question), maxSteps, k, history) == RunResult(o, history)
    ensures Calls(Decide(llm, tools, desc, question), maxSteps, k, history) == 1
  {
    var decide := Decide(llm, tools, desc, question);
    Unfold(decide, maxSteps, k, history);
    assert decide(k, history) == Halt(o);
  }

  /** A step within the budget whose reply goes on moves the loop to the next step. */
  lemma {:induction false} StepGoes(llm: Backend, tools: map<string, ToolEntry<Tool>>, desc: string, question: string,
                                    maxSteps: int, k: nat, history: seq<string>, after: seq<string>)
    requires k < maxSteps
    requires var step := StepAt(llm, tools, desc, question, k, history);
      (step == Skip && after == history)
      || (step.Record? && after == history + ["Action: " + step.action, "Observation: " + step.observation])
    ensures Loop(Decide(llm, tools, desc, question), maxSteps, k, history) == Loop(Decide(llm, tools, desc, question), maxSteps, k + 1, after)
    ensures Calls(Decide(llm, tools, desc, question), maxSteps, k, history) == 1 + Calls(Decide(llm, tools, desc, question), maxSteps, k + 1, after)
  {
    var decide := Decide(llm, tools, desc, question);
    Unfold(decide, maxSteps, k, history);
    assert decide(k, history) == StepAt(llm, tools, desc, question, k, history);
  }

  class ReActAgent {
    const llm: Backend
    const executor: ToolExecutor<Tool>
    const maxSteps: int
    var history: seq<string>
    /** The number of model calls the last run made. */
    ghost var modelCalls: nat

    constructor (llm: Backend, executor: ToolExecutor<Tool>, maxSteps: int)
      ensures this.llm == llm && this.executor == executor && this.maxSteps == maxSteps
      ensures history == []
    {
      this.llm := llm;
      this.executor := executor;
      this.maxSteps := maxSteps;
      history := [];
    }

    /** Lines 207-218: the two messages of one step are rendered and the model's streamed reply is collected. */
    method Ask(question: string, step: nat, recorded: seq<string>) returns (responseText: Option<string>)
      requires executor.Valid()
      ensures responseText == ReplyOf(llm, executor.GetAvailableTools(), question, step, recorded)
    {
      var toolsDesc := executor.GetAvailableTools();
      var historyStr := Join(recorded, "\n");
      var systemContent := Format(ReactSystemPrompt, map["tools" := toolsDesc]);
      var userContent := Format(ReactUserPrompt, map["question" := question, "history" := historyStr]);
      SystemMessageRenders(toolsDesc);
      UserMessageRenders(question, historyStr);
      var messages := Messages(systemContent.value, userContent.value);
      responseText := Think(llm(step, messages));
    }

    /** Lines 220-256: the reply is parsed and its action is finished, rejected, or run through the named tool. */
    method Act(responseText: Option<string>) returns (step: Step)
      ensures step == StepOf(responseText, executor.tools)
    {
      if responseText.None? || responseText.value == [] {
        return Halt(NoAnswer);
      }
      var action := ParseOutput(responseText.value).action;
      if action.None? || action.value == [] {
        return Halt(NoAnswer);
      }
      if StartsWith(action.value, "Finish") {
        return Halt(Answer(FinishAnswer(action.value)));
      }
      var call := ParseAction(action.value);
      if call.None? || call.value.input == [] {
        return Skip;
      }
      var toolFunction := executor.GetTool(call.value.name);
      if toolFunction.None? {
        return Record(action.value, NotFound(call.value.name));
      }
      match toolFunction.value(call.value.input)
      case Raised(e) =>
        return Halt(ToolFailed(e));
      case Returned(observation) =>
        return Record(action.value, observation);
    }

    /**
     * One pass of the loop body (lines 207-258): ask the model, act on its reply, and
     * say whether the run halts here or which history the next step sees.
     */
    method Turn(question: string, k: nat, recorded: seq<string>, ghost decide: Decider)
      returns (halted: bool, outcome: RunOutcome, next: seq<string>)
      requires executor.Valid() && k < maxSteps
      requires decide == Decide(llm, executor.tools, executor.GetAvailableTools(), question)
      ensures if halted then
          Loop(decide, maxSteps, k, recorded) == RunResult(outcome, recorded) && Calls(decide, maxSteps, k, recorded) == 1
        else
          Loop(decide, maxSteps, k, recorded) == Loop(decide, maxSteps, k + 1, next)
          && Calls(decide, maxSteps, k, recorded) == 1 + Calls(decide, maxSteps, k + 1, next)
    {
      var tools := executor.tools;
      var desc := executor.GetAvailableTools();
      var responseText := Ask(question, k, recorded);
      var step := Act(responseText);
      if step.Halt? {
        StepHalts(llm, tools, desc, question, maxSteps, k, recorded, step.outcome);
        return true, step.outcome, recorded;
      }
      next := recorded;
      if step.Record? {
        next := recorded + ["Action: " + step.action, "Observation: " + step.observation];
      }
      StepGoes(llm, tools, desc, question, maxSteps, k, recorded, next);
      return false, NoAnswer, next;
    }

    /** `run`: the history is reset, then the steps of `Loop` are taken one by one. */
    method Run(question: string) returns (r: RunOutcome)
      requires executor.Valid()
      modifies this
      ensures RunResult(r, history) == Loop(Decide(llm, executor.tools, executor.GetAvailableTools(), question), maxSteps, 0, [])
      ensures modelCalls == Calls(Decide(llm, executor.tools, executor.GetAvailableTools(), question), maxSteps, 0, [])
    {
      ghost var tools := executor.tools;
      ghost var desc := executor.GetAvailableTools();
      ghost var decide := Decide(llm, tools, desc, question);
      ghost var run := Loop(decide, maxSteps, 0, []);
      ghost var calls := Calls(decide, maxSteps, 0, []);
      var recorded: seq<string> := [];
      ghost var asked: nat := 0;
      var currentStep: nat := 0;
      while currentStep < maxSteps
        invariant executor.Valid() && executor.tools == tools && executor.GetAvailableTools() == desc
        invariant run == Loop(decide, maxSteps, currentStep, recorded)
        invariant calls == asked + Calls(decide, maxSteps, currentStep, recorded)
        decreases maxSteps - currentStep
      {
        currentStep := currentStep + 1;
        var halted, outcome, next := Turn(question, currentStep - 1, recorded, decide);
        asked := asked + 1;
        if halted {
          if outcome.NoAnswer? {
            break;
          }
          history, modelCalls := recorded, asked;
          assert Decide(llm, executor.tools, executor.GetAvailableTools(), question) == decide;
          return outcome;
        }
        recorded := next;
      }
      history, modelCalls := recorded, asked;
      assert Decide(llm, executor.tools, executor.GetAvailableTools(), question) == decide;
      return NoAnswer;
    }
  }

  /** The recorded part of a history: `Action: …` and `Observation: …` entries, in pairs. */
  ghost predicate ActionObservationPairs(t: seq<string>) {
    |t| % 2 == 0 && forall i :: 0 <= i < |t| ==> StartsWith(t[i], if i % 2 == 0 then "Action: " else "Observation: ")
  }

  lemma {:induction false} PairsCons(a: string, o: string, t: seq<string>)
    requires ActionObservationPairs(t)
    ensures ActionObservationPairs(["Action: " + a, "Observation: " + o] + t)
  {
    var u := ["Action: " + a, "Observation: " + o] + t;
    forall i | 0 <= i < |u| ensures StartsWith(u[i], if i % 2 == 0 then "Action: " else "Observation: ") {
      if i >= 2 {
        assert u[i] == t[i - 2];
      } else if i == 0 {
        assert u[0][..8] == "Action: ";
      } else {
        assert u[1][..13] == "Observation: ";
      }
    }
  }

  /** A run takes at most `maxSteps` steps, the ones left from `step` on. */
  lemma {:induction false} CallsBound(decide: Decider, maxSteps: int, step: nat, history: seq<string>)
    ensures Calls(decide, maxSteps, step, history) <= if step < maxSteps then maxSteps - step else 0
    decreases if step < maxSteps then maxSteps - step else 0
  {
    if step < maxSteps {
      Unfold(decide, maxSteps, step, history);
      match decide(step, history)
      case Halt(_) =>
      case Skip =>
        CallsBound(decide, maxSteps, step + 1, history);
      case Record(a, obs) =>
        CallsBound(decide, maxSteps, step + 1, history + ["Action: " + a, "Observation: " + obs]);
    }
  }

  /**
   * A run only appends to the history: what was there stays in front, and what it
   * adds is `Action:`/`Observation:` pairs, at most one pair per step.
   */
  lemma {:induction false} HistoryAppendOnly(decide: Decider, maxSteps: int, step: nat, history: seq<string>)
    ensures var r := Loop(decide, maxSteps, step, history);
      |history| <= |r.history| && r.history[..|history|] == history
      && ActionObservationPairs(r.history[|history|..])
      && |r.history| - |history| <= 2 * Calls(decide, maxSteps, step, history)
    decreases if step < maxSteps then maxSteps - step else 0
  {
    var r := Loop(decide, maxSteps, step, history);
    if step >= maxSteps {
      assert r.history[|history|..] == [];
    } else {
      Unfold(decide, maxSteps, step, history);
      match decide(step, history)
      case Halt(_) =>
        assert r.history[|history|..] == [];
      case Skip =>
        HistoryAppendOnly(decide, maxSteps, step + 1, history);
      case Record(a, obs) =>
        var pair := ["Action: " + a, "Observation: " + obs];
        var h' := history + pair;
        HistoryAppendOnly(decide, maxSteps, step + 1, h');
        assert r.history[..|h'|] == h';
        assert r.history[..|history|] == h'[..|history|];
        assert r.history[|history|..] == pair + r.history[|h'|..];
        PairsCons(a, obs, r.history[|h'|..]);
    }
  }

  /** With no step budget the loop takes no step and ends with None and the history it was given. */
  lemma {:induction false} NoBudget(decide: Decider, maxSteps: int, history: seq<string>)
    requires maxSteps <= 0
    ensures Loop(decide, maxSteps, 0, history) == RunResult(NoAnswer, history)
    ensures Calls(decide, maxSteps, 0, history) == 0
  {
  }

  /** A `Finish[...]` action is a well-formed action that starts with `Finish`. */
  lemma {:induction false} FinishAction(answer: string)
    ensures Stripped("Finish[" + answer + "]") && StartsWith("Finish[" + answer + "]", "Finish")
  {
    var action := "Finish[" + answer + "]";
    assert action[0] == 'F' && action[|action| - 1] == ']';
    assert action[..6] == "Finish";
  }

  /** The reply `Thought: t`, a newline and `Action: a` leads to the step for action `a`. */
  lemma {:induction false} TurnStep(thought: string, action: string, tools: map<string, ToolEntry<Tool>>)
    requires Stripped(action) && !Contains(thought, "Action:")
    ensures StepOf(Some(RenderTurn(thought, action)), tools) == ActionStep(Some(action), tools)
  {
    ActionTextOfTurn(thought, action);
    assert RenderTurn(thought, action)[0] == 'T';
  }

  /**
   * When the model's first reply is a clean stream of `Thought: t`, a newline and
   * `Action: Finish[answer]`, the run answers `answer` after one call and records nothing.
   */
  lemma {:induction false} FinishAtOnce(llm: Backend, tools: map<string, ToolEntry<Tool>>, desc: string, maxSteps: int,
                                        question: string, thought: string, answer: string)
    requires 1 <= maxSteps && !Contains(thought, "Action:")
    requires Clean(llm(0, Prompt(desc, question, [])))
    requires Contents(llm(0, Prompt(desc, question, []))) == RenderTurn(thought, "Finish[" + answer + "]")
    ensures Loop(Decide(llm, tools, desc, question), maxSteps, 0, []) == RunResult(Answer(answer), [])
    ensures Calls(Decide(llm, tools, desc, question), maxSteps, 0, []) == 1
  {
    var action := "Finish[" + answer + "]";
    CleanIsContents(llm(0, Prompt(desc, question, [])));
    FinishAction(answer);
    TurnStep(thought, action, tools);
    FinishRoundTrip(answer);
    assert StepAt(llm, tools, desc, question, 0, []) == Halt(Answer(answer));
    StepHalts(llm, tools, desc, question, maxSteps, 0, [], Answer(answer));
  }

  /** A word-character name does not look like `Finish` once its `[` follows. */
  lemma {:induction false} NotFinishCall(name: string, input: string)
    requires forall j :: 0 <= j < |name| ==> IsWordChar(name[j])
    requires !StartsWith(name, "Finish")
    ensures !StartsWith(name + "[" + input + "]", "Finish")
  {
    var action := name + "[" + input + "]";
    if |name| >= 6 {
      assert action[..6] == name[..6];
    } else if |action| >= 6 {
      assert action[|name|] == '[';
      assert action[..6][|name|] == '[';
    }
  }

  /**
   * An action `name[input]` that is not `Finish`: with an empty input the step is
   * skipped; an unknown name records the not-found observation; otherwise the
   * tool's observation is recorded, or its exception ends the run.
   */
  lemma {:induction false} ToolStep(name: string, input: string, tools: map<string, ToolEntry<Tool>>)
    requires name != [] && forall j :: 0 <= j < |name| ==> IsWordChar(name[j])
    requires !StartsWith(name, "Finish")
    ensures var action := name + "[" + input + "]";
      ActionStep(Some(action), tools) ==
        if input == [] then Skip
        else if name !in tools then Record(action, NotFound(name))
        else match tools[name].func(input)
          case Raised(e) => Halt(ToolFailed(e))
          case Returned(obs) => Record(action, obs)
  {
    NotFinishCall(name, input);
    ParseActionRoundTrip(name, input);
  }

  /** A tool call written after a thought is parsed and acted on as `ToolStep` says. */
  lemma {:induction false} ToolTurn(thought: string, name: string, input: string, tools: map<string, ToolEntry<Tool>>)
    requires name != [] && forall j :: 0 <= j < |name| ==> IsWordChar(name[j])
    requires !Contains(thought, "Action:")
    ensures StepOf(Some(RenderTurn(thought, name + "[" + input + "]")), tools) == ActionStep(Some(name + "[" + input + "]"), tools)
  {
    var action := name + "[" + input + "]";
    assert Stripped(action) by {
      assert action[0] == name[0] && IsWordChar(name[0]);
      assert action[|action| - 1] == ']';
    }
    TurnStep(thought, action, tools);
  }
}
