/**
 * The plan-and-solve agent (the_chapter_4/Plan_and_Solve.py): a planner asks the
 * model for a fenced Python list of steps, an executor asks the model once per
 * step while it accumulates a history text, and the agent aborts on an empty plan.
 *
 * The model is a function from the call index and the prompt to what `think`
 * returns (None after an exception). `ast.literal_eval` is a parameter too: it
 * is given the plan text and says whether the text is a literal and, when it is
 * a list, gives `str` and `repr` of each element.
 */
module PlanAndSolve {
  import opened Wrappers
  import opened Text
  import opened StrFormat
  import opened PlanPrompts

  /** `think`'s answer to call number `k` with a one-message prompt. */
  type Llm = (nat, string) -> Option<string>

  /** One element of a parsed list: how `str` and `repr` show it. */
  datatype Item = Item(str: string, repr: string)

  /** What `ast.literal_eval` makes of a text: an exception, a list, or any other value. */
  datatype Literal = Invalid | ListValue(items: seq<Item>) | OtherValue

  type LiteralEval = string -> Literal

  /** `think(...) or ""`: None and the empty text both become the empty text. */
  function OrEmpty(r: Option<string>): string {
    if r.Some? then r.value else ""
  }

  const Fence := "```python"
  const FenceEnd := "```"

  /**
   * `response_text.split("```python")[1].split("```")[0].strip()`; None where
   * indexing the split raises IndexError, that is, when the marker is missing.
   */
  function PlanText(response: string): (r: Option<string>)
    ensures r.None? <==> !Contains(response, Fence)
  {
    SplitOne(response, Fence);
    var parts := Split(response, Fence);
    if |parts| < 2 then None else Some(Strip(Before(parts[1], FenceEnd)))
  }

  /** `Planner.plan` after the model call: a list is returned unchanged, anything else gives `[]`. */
  function ParsePlan(eval: LiteralEval, response: string): (plan: seq<Item>)
    ensures !Contains(response, Fence) ==> plan == []
    ensures Contains(response, Fence) ==>
      plan == (match eval(PlanText(response).value) case ListValue(items) => items case _ => [])
  {
    match PlanText(response)
    case None => []
    case Some(t) => if eval(t).ListValue? then eval(t).items else []
  }

  /** `Planner.plan(question)`: model call number `k` with the planner prompt, then the parse. */
  function PlanFor(llm: Llm, eval: LiteralEval, k: nat, question: string): seq<Item> {
    ParsePlan(eval, OrEmpty(llm(k, PlannerText(question))))
  }

  /** `str(plan)`: the elements' `repr`s between brackets, separated by `, `. */
  function PlanRepr(plan: seq<Item>): string {
    "[" + Join(Reprs(plan), ", ") + "]"
  }

  function Reprs(plan: seq<Item>): (r: seq<string>)
    ensures |r| == |plan| && forall j :: 0 <= j < |plan| ==> r[j] == plan[j].repr
  {
    seq(|plan|, j requires 0 <= j < |plan| => plan[j].repr)
  }

  /** The history entry for step number `i` (counted from 0). */
  function Entry(i: nat, step: string, response: string): string {
    "步骤 " + NatToString(i + 1) + ": " + step + "\n结果: " + response + "\n\n"
  }

  /** The history after the steps answered so far: their entries in plan order. */
  function Transcript(plan: seq<Item>, responses: seq<string>): string
    requires |responses| <= |plan|
    decreases |responses|
  {
    if responses == [] then ""
    else
      var n := |responses| - 1;
      Transcript(plan, responses[..n]) + Entry(n, plan[n].str, responses[n])
  }

  /** `history if history else "无"`. */
  function Shown(history: string): string {
    if history == "" then "无" else history
  }

  /** The prompt for the step after those answered in `responses`. */
  function StepPrompt(question: string, plan: seq<Item>, responses: seq<string>): string
    requires |responses| < |plan|
  {
    ExecutorText(question, PlanRepr(plan), Shown(Transcript(plan, responses)), plan[|responses|].str)
  }

  /** How step `i` is answered, given the answers to the steps before it. */
  type Answerer = (nat, seq<string>) -> string

  /** The executor's answer to a step: model call `base + i` on the prompt that shows the history so far. */
  function StepAnswer(llm: Llm, base: nat, question: string, plan: seq<Item>): Answerer {
    (i: nat, earlier: seq<string>) => StepReply(llm, base, question, plan, i, earlier)
  }

  /** The reply to the step after those answered in `earlier`; past the end of the plan there is none. */
  function StepReply(llm: Llm, base: nat, question: string, plan: seq<Item>, i: nat, earlier: seq<string>): string {
    if |earlier| < |plan| then OrEmpty(llm(base + i, StepPrompt(question, plan, earlier))) else ""
  }

  /** The answers to the first `n` steps, each given the answers before it. */
  function Answers(answer: Answerer, n: nat): (r: seq<string>)
    ensures |r| == n
    decreases n
  {
    if n == 0 then []
    else
      var earlier := Answers(answer, n - 1);
      earlier + [answer(n - 1, earlier)]
  }

  lemma {:induction false} StepAnswerIs(llm: Llm, base: nat, question: string, plan: seq<Item>, i: nat, earlier: seq<string>)
    requires |earlier| < |plan|
    ensures StepAnswer(llm, base, question, plan)(i, earlier) == OrEmpty(llm(base + i, StepPrompt(question, plan, earlier)))
  {
  }

  /** The answers to the first `n` steps of the plan. */
  function Responses(llm: Llm, base: nat, question: string, plan: seq<Item>, n: nat): (r: seq<string>)
    ensures |r| == n
  {
    Answers(StepAnswer(llm, base, question, plan), n)
  }

  /** An entry is never empty, so the history shows `无` only before the first step. */
  lemma {:induction false} ShownHistory(plan: seq<Item>, responses: seq<string>)
    requires |responses| <= |plan|
    ensures Shown(Transcript(plan, responses)) == if responses == [] then "无" else Transcript(plan, responses)
  {
    if responses != [] {
      var n := |responses| - 1;
      assert |Entry(n, plan[n].str, responses[n])| > 0;
    }
  }

  /**
   * The steps are answered in order and an answer never changes once given: the
   * first `m` of `n` answers are the answers to `m` steps.
   */
  lemma {:induction false} AnswersPrefix(answer: Answerer, m: nat, n: nat)
    requires m <= n
    ensures Answers(answer, n)[..m] == Answers(answer, m)
    decreases n - m
  {
    if m < n {
      AnswersPrefix(answer, m, n - 1);
      var rn := Answers(answer, n);
      assert rn[..n - 1] == Answers(answer, n - 1);
      assert rn[..m] == rn[..n - 1][..m];
    } else {
      assert Answers(answer, n)[..n] == Answers(answer, n);
    }
  }

  /** Answer `i` is given by `answer` from the answers before it. */
  lemma {:induction false} AnswerOf(answer: Answerer, n: nat, i: nat)
    requires i < n
    ensures Answers(answer, n)[i] == answer(i, Answers(answer, n)[..i])
  {
    AnswersPrefix(answer, i + 1, n);
    AnswersPrefix(answer, i, n);
    var r := Answers(answer, n);
    assert r[..i + 1][i] == r[i];
  }

  /**
   * Exactly one model call per step, in plan order: step `i`'s answer is model call
   * `base + i` on the prompt that shows the plan, the step and the answers before it.
   */
  lemma {:induction false} ResponseOfStep(llm: Llm, base: nat, question: string, plan: seq<Item>, n: nat, i: nat)
    requires i < n <= |plan|
    ensures var r := Responses(llm, base, question, plan, n);
      r[i] == OrEmpty(llm(base + i, StepPrompt(question, plan, r[..i])))
  {
    AnswerOf(StepAnswer(llm, base, question, plan), n, i);
  }

  /** A history that was `h` before a step is `h` followed by that step's entry after it. */
  lemma {:induction false} TranscriptGrows(plan: seq<Item>, responses: seq<string>, r: string)
    requires |responses| < |plan|
    ensures Transcript(plan, responses + [r]) == Transcript(plan, responses) + Entry(|responses|, plan[|responses|].str, r)
  {
    assert (responses + [r])[..|responses|] == responses;
  }

  /**
   * `Executor.execute`: one model call per step, in order, the history growing by
   * one entry per step; the answer is the last step's response. With an empty plan
   * `response_text` is never bound and the final line raises; that is None here.
   */
  method Execute(llm: Llm, base: nat, question: string, plan: seq<Item>) returns (answer: Option<string>, ghost calls: nat)
    ensures plan == [] ==> answer.None?
    ensures plan != [] ==> answer == Some(Responses(llm, base, question, plan, |plan|)[|plan| - 1])
    ensures calls == |plan|
  {
    var history := "";
    var responseText: Option<string> := None;
    ghost var responses: seq<string> := [];
    calls := 0;
    for i := 0 to |plan|
      invariant responses == Responses(llm, base, question, plan, i)
      invariant history == Transcript(plan, responses)
      invariant responseText == if i == 0 then None else Some(responses[i - 1])
      invariant calls == i
    {
      var step := plan[i];
      var prompt := FormatExecutor(question, PlanRepr(plan), Shown(history), step.str);
      StepAnswerIs(llm, base, question, plan, i, responses);
      var response := OrEmpty(llm(base + i, prompt.value));
      calls := calls + 1;
      TranscriptGrows(plan, responses, response);
      history := history + Entry(i, step.str, response);
      responses := responses + [response];
      responseText := Some(response);
    }
    answer := responseText;
  }

  /** What `PlanAndSolveAgent.run` ends with: it aborts, or it has a final answer. */
  datatype RunOutcome = Aborted | Solved(answer: string)

  /** The outcome of a run: plan with model call 0, then execute with calls 1, 2, ... */
  function RunSpec(llm: Llm, eval: LiteralEval, question: string): RunOutcome {
    var plan := PlanFor(llm, eval, 0, question);
    if plan == [] then Aborted else Solved(Responses(llm, 1, question, plan, |plan|)[|plan| - 1])
  }

  /** `PlanAndSolveAgent.run`: plan, abort on an empty plan, otherwise execute it. */
  method Run(llm: Llm, eval: LiteralEval, question: string) returns (r: RunOutcome, ghost calls: nat)
    ensures r == RunSpec(llm, eval, question)
    ensures calls == if r.Aborted? then 1 else 1 + |PlanFor(llm, eval, 0, question)|
  {
    var prompt := FormatPlanner(question);
    var plan := ParsePlan(eval, OrEmpty(llm(0, prompt.value)));
    if plan == [] {
      return Aborted, 1;
    }
    var answer, executed := Execute(llm, 1, question, plan);
    return Solved(answer.value), 1 + executed;
  }

  /**
   * A fenced plan without backquotes reads back as its stripped text, whatever
   * follows the closing fence (when that fence is exactly three backquotes).
   */
  lemma {:induction false} PlanTextRoundTrip(prefix: string, body: string, suffix: string)
    requires forall j :: 0 <= j < |prefix| ==> prefix[j] != '`'
    requires forall j :: 0 <= j < |body| ==> body[j] != '`'
    requires suffix == [] || suffix[0] != '`'
    ensures PlanText(prefix + Fence + body + FenceEnd + suffix) == Some(Strip(body))
  {
    var response := prefix + Fence + body + FenceEnd + suffix;
    var rest := body + FenceEnd + suffix;
    FirstMarker(prefix, rest);
    assert response == prefix + Fence + rest;
    assert response[..|prefix|] == prefix && response[|prefix| + |Fence|..] == rest;
    assert Split(response, Fence) == [prefix] + Split(rest, Fence);
    BeforeIs(rest, Fence);
    AfterMarker(body, suffix);
  }

  /** After the marker: the part before the next marker, cut at its first backquotes, is the body. */
  lemma {:induction false} AfterMarker(body: string, suffix: string)
    requires forall j :: 0 <= j < |body| ==> body[j] != '`'
    requires suffix == [] || suffix[0] != '`'
    ensures var rest := body + FenceEnd + suffix;
      Before(match IndexOf(rest, Fence, 0) case Some(i) => rest[..i] case None => rest, FenceEnd) == body
  {
    var rest := body + FenceEnd + suffix;
    match IndexOf(rest, Fence, 0) {
      case Some(i) =>
        NextMarker(body, suffix, i);
        if i == |body| {
          assert rest[..i] == body;
          CutAtBody(body, body);
        } else {
          assert rest[..i][..|body| + 3] == body + FenceEnd;
          CutAtBody(body, rest[..i]);
        }
      case None =>
        assert rest[..|body| + 3] == body + FenceEnd;
        CutAtBody(body, rest);
    }
  }

  /** A text without backquotes followed by the marker has its first marker there. */
  lemma {:induction false} FirstMarker(prefix: string, rest: string)
    requires forall j :: 0 <= j < |prefix| ==> prefix[j] != '`'
    ensures IndexOf(prefix + Fence + rest, Fence, 0) == Some(|prefix|)
  {
    var response := prefix + Fence + rest;
    assert response[|prefix|..|prefix| + 9] == Fence;
    forall j | 0 <= j < |prefix| ensures !OccursAt(response, Fence, j) {
      assert response[j] == prefix[j];
    }
    IndexOfIs(response, Fence, 0, |prefix|);
  }

  /** After a body without backquotes and the closing fence, the next marker starts at the fence or after it. */
  lemma {:induction false} NextMarker(body: string, suffix: string, i: nat)
    requires forall j :: 0 <= j < |body| ==> body[j] != '`'
    requires suffix == [] || suffix[0] != '`'
    requires OccursAt(body + FenceEnd + suffix, Fence, i)
    ensures i == |body| || |body| + 3 <= i
  {
    var rest := body + FenceEnd + suffix;
    var n := |body|;
    assert rest[i] == rest[i..i + 9][0] == '`';
    assert forall j :: 0 <= j < n ==> rest[j] == body[j];
    assert n + 3 < |rest| ==> rest[n + 3] == suffix[0];
    if n + 10 <= |rest| {
      assert rest[n + 1..n + 10][2] == rest[n + 3];
    }
    if n + 11 <= |rest| {
      assert rest[n + 2..n + 11][1] == rest[n + 3];
    }
  }

  /** A text that is the body, or starts with the body and three backquotes, is cut back to the body. */
  lemma {:induction false} CutAtBody(body: string, first: string)
    requires forall j :: 0 <= j < |body| ==> body[j] != '`'
    requires first == body || (|body| + 3 <= |first| && first[..|body| + 3] == body + FenceEnd)
    ensures Before(first, FenceEnd) == body
  {
    var n := |body|;
    BeforeIs(first, FenceEnd);
    if first == body {
      forall j | 0 <= j ensures !OccursAt(first, FenceEnd, j) {
        if j + 3 <= |first| { assert first[j] == first[j..j + 3][0]; }
      }
    } else {
      assert first[n..n + 3] == first[..n + 3][n..n + 3];
      forall j | 0 <= j < n ensures !OccursAt(first, FenceEnd, j) {
        assert first[j] == first[..n + 3][j] == body[j];
        assert first[j] == first[j..j + 3][0];
      }
      IndexOfIs(first, FenceEnd, 0, n);
      assert first[..n] == first[..n + 3][..n];
    }
  }
}
