/**
 * `MyReflectionAgent` (chapter7/my_reflection_agent.py:90-156): one initial attempt,
 * then up to `max_iterations` rounds of reflection and refinement, with every
 * attempt and every piece of feedback kept in the agent's memory.
 *
 * The model client is a parameter. Its replies are functions of the number of
 * model calls the agent has made so far and of the prompt, so that a backend
 * may answer the same prompt differently on different calls.
 */
module ReflectionAgent {
  import opened Wrappers
  import opened Text
  import opened StrFormat
  import opened AgentMemory
  import opened ReflectionPrompts

  /** What the client's `think` gives back. */
  datatype Response = NoResponse | Text(text: string) | Stream(chunks: seq<string>) | Other(repr: string)

  /** What the client's `invoke` does: give back a text, or raise. */
  datatype Invoked = Gave(text: string) | Threw

  /** A model client: `think`, and `invoke` when the client has one. */
  datatype Client = Client(invoke: Option<(nat, string) -> Invoked>, think: (nat, string) -> Response)

  /** The exceptions `run` lets through. */
  datatype Failure = NoClient | BadTemplate(key: PromptKey, error: FormatError)

  /** How `run` ends: with the final attempt, or with an exception. */
  datatype RunEnd = Finished(code: Option<string>) | Raised(failure: Failure)

  /** The memory and the call count after a run, and how the run ended. */
  datatype RunState = RunState(records: seq<Record>, calls: nat, end: RunEnd)

  /** The feedback sentence that ends the rounds. */
  const Sentinel: string := "无需改进"

  /** `str` of an optional string, as an f-string or `format` shows it. */
  function PyStr(s: Option<string>): string {
    if s.Some? then s.value else "None"
  }

  /** The text of a `think` response: None is empty, a stream is its chunks in order, anything else its `str`. */
  function Normalise(r: Response): string {
    match r
    case NoResponse => ""
    case Text(t) => t
    case Stream(chunks) => Join(chunks, "")
    case Other(repr) => repr
  }

  /** The reply of a client: `invoke` when it has one that does not raise, otherwise `think`. */
  function Reply(client: Client, k: nat, prompt: string): string {
    if client.invoke.Some? && client.invoke.value(k, prompt).Gave? then client.invoke.value(k, prompt).text
    else Normalise(client.think(k, prompt))
  }

  /** The text the agent gets back for a prompt on a given call. */
  type Ask = (nat, string) -> string

  /** The replies of a client, as a function of the call number and the prompt. */
  function Asker(client: Client): Ask {
    (k: nat, prompt: string) => Reply(client, k, prompt)
  }

  /** `_get_llm_response`: an agent without a client raises. */
  function LlmResponse(llm: Option<Client>, k: nat, prompt: string): (r: Result<string, Failure>)
    ensures r.Failure? <==> llm.None?
    ensures r.Failure? ==> r.error == NoClient
  {
    if llm.None? then Failure(NoClient) else Success(Reply(llm.value, k, prompt))
  }

  /** A chunk in front of a stream is put in front of its text. */
  lemma {:induction false} StreamCons(c: string, rest: seq<string>)
    ensures Normalise(Stream([c] + rest)) == c + Normalise(Stream(rest))
  {
    if rest == [] {
      assert [c] + rest == [c];
      assert c + "" == c;
    } else {
      JoinCons(c, rest, "");
      assert c + "" + Join(rest, "") == c + Join(rest, "");
    }
  }

  /** Reading a stream in two parts gives the two texts one after the other. */
  lemma {:induction false} StreamAppend(a: seq<string>, b: seq<string>)
    ensures Normalise(Stream(a + b)) == Normalise(Stream(a)) + Normalise(Stream(b))
    decreases |a|
  {
    if a == [] {
      assert a + b == b;
      assert "" + Join(b, "") == Join(b, "");
    } else {
      var head := a[0];
      var tail := a[1..];
      assert a == [head] + tail;
      assert a + b == [head] + (tail + b);
      StreamCons(head, tail + b);
      StreamCons(head, tail);
      StreamAppend(tail, b);
      assert head + (Join(tail, "") + Join(b, "")) == head + Join(tail, "") + Join(b, "");
    }
  }

  /** The steps left when `i` rounds of `maxIterations` are done. */
  function Remaining(i: nat, maxIterations: int): nat {
    if i < maxIterations then maxIterations - i else 0
  }

  /** The reflection and refinement templates a run uses. */
  datatype Templates = Templates(reflect: string, refine: string)

  /** The templates chosen by `custom_prompts.get(key, DEFAULT_PROMPTS[key])`. */
  function TemplatesOf(custom: map<string, string>): Templates {
    Templates(ChoosePrompt(custom, Reflect), ChoosePrompt(custom, Refine))
  }

  /** What one round leads to: the end of the run, or the next round with the new attempt. */
  datatype RoundEnd = Stop(state: RunState) | Next(code: string, records: seq<Record>, calls: nat)

  /**
   * One round of reflection and refinement, when the latest attempt is `code` and
   * `records` and `calls` are the memory and the call count so far.
   */
  function Round(ask: Ask, templates: Templates, task: string, code: string, records: seq<Record>, calls: nat): RoundEnd {
    match Format(templates.reflect, map["task" := task, "content" := code])
    case Failure(e) => Stop(RunState(records, calls, Raised(BadTemplate(Reflect, e))))
    case Success(reflectPrompt) =>
      var feedback := ask(calls, reflectPrompt);
      var reflected := records + [Record("reflection", feedback)];
      if Contains(feedback, Sentinel) then Stop(RunState(reflected, calls + 1, Finished(LastExecution(reflected))))
      else match Format(templates.refine, map["task" := task, "last_attempt" := code, "feedback" := feedback])
        case Failure(e) => Stop(RunState(reflected, calls + 1, Raised(BadTemplate(Refine, e))))
        case Success(refinePrompt) =>
          var refined := ask(calls + 1, refinePrompt);
          Next(refined, reflected + [Record("execution", refined)], calls + 2)
  }

  /** The rounds from round `i` on. */
  function Rounds(ask: Ask, templates: Templates, task: string, maxIterations: int,
                  i: nat, code: string, records: seq<Record>, calls: nat): RunState
    decreases Remaining(i, maxIterations)
  {
    if i >= maxIterations then RunState(records, calls, Finished(LastExecution(records)))
    else match Round(ask, templates, task, code, records, calls)
      case Stop(s) => s
      case Next(code', records', calls') => Rounds(ask, templates, task, maxIterations, i + 1, code', records', calls')
  }

  /** A whole run, from the memory and the call count it starts with. */
  function RunSpec(llm: Option<Client>, custom: map<string, string>, task: string, maxIterations: int,
                   records: seq<Record>, calls: nat): RunState
  {
    match Format(ChoosePrompt(custom, Initial), map["task" := task])
    case Failure(e) => RunState(records, calls, Raised(BadTemplate(Initial, e)))
    case Success(initialPrompt) =>
      if llm.None? then RunState(records, calls, Raised(NoClient))
      else
        var code := Reply(llm.value, calls, initialPrompt);
        Rounds(Asker(llm.value), TemplatesOf(custom), task, maxIterations, 0, code, records + [Record("execution", code)], calls + 1)
  }

  /** Once the initial prompt has rendered and there is a client, the run is its first attempt and then the rounds. */
  lemma {:induction false} RunStarts(llm: Option<Client>, custom: map<string, string>, task: string, maxIterations: int,
                                     records: seq<Record>, calls: nat, initialPrompt: string)
    requires Format(ChoosePrompt(custom, Initial), map["task" := task]) == Success(initialPrompt) && llm.Some?
    ensures RunSpec(llm, custom, task, maxIterations, records, calls)
         == Rounds(Asker(llm.value), TemplatesOf(custom), task, maxIterations, 0, Reply(llm.value, calls, initialPrompt),
                   records + [Record("execution", Reply(llm.value, calls, initialPrompt))], calls + 1)
  {
  }

  /** A run whose initial template does not render, or that has no client, raises before any model call. */
  lemma {:induction false} RunRaisesEarly(llm: Option<Client>, custom: map<string, string>, task: string, maxIterations: int,
                                          records: seq<Record>, calls: nat)
    ensures Format(ChoosePrompt(custom, Initial), map["task" := task]).Failure? ==>
      RunSpec(llm, custom, task, maxIterations, records, calls)
        == RunState(records, calls, Raised(BadTemplate(Initial, Format(ChoosePrompt(custom, Initial), map["task" := task]).error)))
    ensures Format(ChoosePrompt(custom, Initial), map["task" := task]).Success? && llm.None? ==>
      RunSpec(llm, custom, task, maxIterations, records, calls) == RunState(records, calls, Raised(NoClient))
  {
  }

  class MyReflectionAgent {
    const name: string
    const llm: Option<Client>
    const memory: Memory
    const maxIterations: int
    const customPrompts: map<string, string>
    /** The model calls made so far; the backend sees this count. */
    var calls: nat

    constructor (name: string, llm: Option<Client>, maxIterations: int, customPrompts: Option<map<string, string>>)
      ensures this.name == name && this.llm == llm && this.maxIterations == maxIterations
      ensures this.customPrompts == customPrompts.GetOr(map[])
      ensures fresh(memory) && memory.records == [] && calls == 0
    {
      this.name := name;
      this.llm := llm;
      this.maxIterations := maxIterations;
      this.customPrompts := customPrompts.GetOr(map[]);
      memory := new Memory();
      calls := 0;
    }

    /** `run`: the memory is kept from earlier runs; what it adds and returns is `RunSpec`. */
    method Run(task: string) returns (r: RunEnd)
      modifies this, memory
      ensures RunState(memory.records, calls, r) == RunSpec(llm, customPrompts, task, maxIterations, old(memory.records), old(calls))
    {
      RunRaisesEarly(llm, customPrompts, task, maxIterations, memory.records, calls);
      var initialPrompt := Format(ChoosePrompt(customPrompts, Initial), map["task" := task]);
      if initialPrompt.Failure? {
        return Raised(BadTemplate(Initial, initialPrompt.error));
      }
      var k := calls;
      var initialCode := LlmResponse(llm, k, initialPrompt.value);
      if initialCode.Failure? {
        return Raised(initialCode.error);
      }
      RunStarts(llm, customPrompts, task, maxIterations, memory.records, k, initialPrompt.value);
      calls := k + 1;
      memory.AddRecord("execution", initialCode.value);
      assert initialCode.value == Reply(llm.value, k, initialPrompt.value);
      r := Iterate(task, initialCode.value);
    }

    /**
     * The rounds of `run` and its final lookup of the latest attempt, from the
     * point where `code` is the latest execution in the memory.
     */
    method Iterate(task: string, ghost code: string) returns (r: RunEnd)
      requires llm.Some? && LastExecution(memory.records) == Some(code)
      modifies this, memory
      ensures RunState(memory.records, calls, r)
           == Rounds(Asker(llm.value), TemplatesOf(customPrompts), task, maxIterations, 0, code, old(memory.records), old(calls))
    {
      ghost var spec := Rounds(Asker(llm.value), TemplatesOf(customPrompts), task, maxIterations, 0, code, memory.records, calls);
      ghost var latest := code;
      var i: nat := 0;
      while i < maxIterations
        invariant spec == Rounds(Asker(llm.value), TemplatesOf(customPrompts), task, maxIterations, i, latest, memory.records, calls)
        invariant LastExecution(memory.records) == Some(latest)
        decreases Remaining(i, maxIterations)
      {
        ghost var round := Round(Asker(llm.value), TemplatesOf(customPrompts), task, latest, memory.records, calls);
        var stopped, failure := ReflectAndRefine(task, latest);
        if failure.Some? {
          return Raised(failure.value);
        }
        if stopped {
          break;
        }
        latest := round.code;
        i := i + 1;
      }
      var finalCode := memory.GetLastExecution();
      return Finished(finalCode);
    }

    /**
     * The body of `run`'s loop: reflect on the latest attempt, stop when the
     * feedback holds the sentinel, otherwise refine the attempt.
     */
    method ReflectAndRefine(task: string, ghost code: string) returns (stopped: bool, failure: Option<Failure>)
      requires llm.Some? && LastExecution(memory.records) == Some(code)
      modifies this, memory
      ensures match Round(Asker(llm.value), TemplatesOf(customPrompts), task, code, old(memory.records), old(calls))
        case Stop(s) => (memory.records == s.records && calls == s.calls
          && (if s.end.Raised? then failure == Some(s.end.failure) else stopped && failure.None? && s.end.code == LastExecution(s.records)))
        case Next(code', records', calls') => (!stopped && failure.None? && memory.records == records' && calls == calls'
          && LastExecution(records') == Some(code'))
    {
      var k := calls;
      var lastCode := memory.GetLastExecution();
      var reflectPrompt := Format(ChoosePrompt(customPrompts, Reflect), map["task" := task, "content" := PyStr(lastCode)]);
      if reflectPrompt.Failure? {
        return false, Some(BadTemplate(Reflect, reflectPrompt.error));
      }
      var feedback := LlmResponse(llm, k, reflectPrompt.value);
      calls := k + 1;
      memory.AddRecord("reflection", feedback.value);
      if Contains(feedback.value, Sentinel) {
        return true, None;
      }
      var refinePrompt := Format(ChoosePrompt(customPrompts, Refine),
                                 map["task" := task, "last_attempt" := PyStr(lastCode), "feedback" := feedback.value]);
      if refinePrompt.Failure? {
        return false, Some(BadTemplate(Refine, refinePrompt.error));
      }
      var refinedCode := LlmResponse(llm, k + 1, refinePrompt.value);
      calls := k + 2;
      memory.AddRecord("execution", refinedCode.value);
      return false, None;
    }
  }

  /** Records added by the rounds: reflections and executions alternating, a reflection first. */
  ghost predicate ReflectFirst(t: seq<Record>) {
    forall j :: 0 <= j < |t| ==> t[j].kind == if j % 2 == 0 then "reflection" else "execution"
  }

  lemma {:induction false} ReflectFirstCons(feedback: string, refined: string, t: seq<Record>)
    requires ReflectFirst(t)
    ensures ReflectFirst([Record("reflection", feedback), Record("execution", refined)] + t)
  {
    var u := [Record("reflection", feedback), Record("execution", refined)] + t;
    forall j | 0 <= j < |u| ensures u[j].kind == if j % 2 == 0 then "reflection" else "execution" {
      if j >= 2 {
        assert u[j] == t[j - 2];
      }
    }
  }

  /** Opening `Round`: what a round records and how it ends, case by case. */
  lemma {:induction false} RoundCases(ask: Ask, templates: Templates, task: string, code: string,
                                      records: seq<Record>, calls: nat)
    ensures match Round(ask, templates, task, code, records, calls)
      case Stop(s) =>
        (s.records == records && s.calls == calls && s.end.Raised?)
        || (|s.records| == |records| + 1 && s.records[..|records|] == records && s.records[|records|].kind == "reflection"
            && s.calls == calls + 1
            && (s.end.Finished? <==> Contains(s.records[|records|].content, Sentinel))
            && (s.end.Finished? ==> s.end.code == LastExecution(s.records)))
      case Next(code', records', calls') =>
        records' == records + [Record("reflection", records'[|records|].content), Record("execution", code')]
        && !Contains(records'[|records|].content, Sentinel) && calls' == calls + 2
  {
    match Format(templates.reflect, map["task" := task, "content" := code])
    case Failure(_) =>
    case Success(p) =>
      var feedback := ask(calls, p);
      var reflected := records + [Record("reflection", feedback)];
      assert reflected[..|records|] == records && reflected[|records|].content == feedback;
      if !Contains(feedback, Sentinel) {
        match Format(templates.refine, map["task" := task, "last_attempt" := code, "feedback" := feedback])
        case Failure(_) =>
        case Success(q) =>
          var next := reflected + [Record("execution", ask(calls + 1, q))];
          assert next == records + [Record("reflection", feedback), Record("execution", ask(calls + 1, q))];
      }
  }

  /** A reflection and an execution in front of alternating records keep them alternating. */
  lemma {:induction false} PairThenRest(records: seq<Record>, feedback: string, refined: string, final: seq<Record>)
    requires var after := records + [Record("reflection", feedback), Record("execution", refined)];
      |after| <= |final| && final[..|after|] == after && ReflectFirst(final[|after|..])
    ensures |records| <= |final| && final[..|records|] == records && ReflectFirst(final[|records|..])
  {
    var pair := [Record("reflection", feedback), Record("execution", refined)];
    var after := records + pair;
    assert final[..|records|] == after[..|records|];
    assert final[|records|..] == pair + final[|after|..];
    ReflectFirstCons(feedback, refined, final[|after|..]);
  }

  /** A single reflection is an alternating list. */
  lemma {:induction false} OneReflection(records: seq<Record>, final: seq<Record>)
    requires |final| == |records| + 1 && final[..|records|] == records && final[|records|].kind == "reflection"
    ensures ReflectFirst(final[|records|..])
  {
    assert final[|records|..] == [final[|records|]];
  }

  /**
   * The rounds only append to the memory: reflections and executions alternately,
   * a reflection first, at most two records per round left, one model call per record.
   */
  lemma {:induction false} RoundsAppend(ask: Ask, templates: Templates, task: string, maxIterations: int,
                                        i: nat, code: string, records: seq<Record>, calls: nat)
    ensures var r := Rounds(ask, templates, task, maxIterations, i, code, records, calls);
      |records| <= |r.records| && r.records[..|records|] == records
      && ReflectFirst(r.records[|records|..])
      && r.calls == calls + (|r.records| - |records|)
      && |r.records| - |records| <= 2 * Remaining(i, maxIterations)
    decreases Remaining(i, maxIterations)
  {
    var r := Rounds(ask, templates, task, maxIterations, i, code, records, calls);
    if i >= maxIterations {
      assert r.records[|records|..] == [];
    } else {
      RoundCases(ask, templates, task, code, records, calls);
      match Round(ask, templates, task, code, records, calls)
      case Stop(s) =>
        if s.records == records {
          assert r.records[|records|..] == [];
        } else {
          OneReflection(records, s.records);
        }
      case Next(code', records', calls') =>
        RoundsAppend(ask, templates, task, maxIterations, i + 1, code', records', calls');
        PairThenRest(records, records'[|records|].content, code', r.records);
    }
  }

  /** The answer of finished rounds is the latest execution, and there always is one. */
  lemma {:induction false} RoundsAnswer(ask: Ask, templates: Templates, task: string, maxIterations: int,
                                        i: nat, code: string, records: seq<Record>, calls: nat)
    requires LastExecution(records) == Some(code)
    ensures var r := Rounds(ask, templates, task, maxIterations, i, code, records, calls);
      r.end.Finished? ==> r.end.code == LastExecution(r.records) && r.end.code.Some?
    decreases Remaining(i, maxIterations)
  {
    if i < maxIterations {
      RoundCases(ask, templates, task, code, records, calls);
      match Round(ask, templates, task, code, records, calls)
      case Stop(s) =>
        if s.records != records {
          assert s.records == records + [s.records[|records|]];
          LastExecutionAfter(records, [s.records[|records|]]);
        }
      case Next(code', records', calls') =>
        assert LastExecution(records') == Some(code');
        RoundsAnswer(ask, templates, task, maxIterations, i + 1, code', records', calls');
    }
  }

  /**
   * Why finished rounds stopped: when they end on a reflection, its feedback holds
   * the sentinel; when they end on an execution (or added nothing), every round was done.
   */
  lemma {:induction false} RoundsStop(ask: Ask, templates: Templates, task: string, maxIterations: int,
                                      i: nat, code: string, records: seq<Record>, calls: nat)
    ensures var r := Rounds(ask, templates, task, maxIterations, i, code, records, calls);
      r.end.Finished? && |records| < |r.records| && r.records[|r.records| - 1].kind == "reflection" ==>
        Contains(r.records[|r.records| - 1].content, Sentinel)
    ensures var r := Rounds(ask, templates, task, maxIterations, i, code, records, calls);
      r.end.Finished? && !(|records| < |r.records| && r.records[|r.records| - 1].kind == "reflection") ==>
        |r.records| == |records| + 2 * Remaining(i, maxIterations)
  {
    RoundsStopSentinel(ask, templates, task, maxIterations, i, code, records, calls);
    RoundsStopCount(ask, templates, task, maxIterations, i, code, records, calls);
  }

  /** The first fact of `RoundsStop`: a final reflection holds the sentinel. */
  lemma {:induction false} RoundsStopSentinel(ask: Ask, templates: Templates, task: string, maxIterations: int,
                                              i: nat, code: string, records: seq<Record>, calls: nat)
    ensures var r := Rounds(ask, templates, task, maxIterations, i, code, records, calls);
      r.end.Finished? && |records| < |r.records| && r.records[|r.records| - 1].kind == "reflection" ==>
        Contains(r.records[|r.records| - 1].content, Sentinel)
    decreases Remaining(i, maxIterations)
  {
    if i < maxIterations {
      match Round(ask, templates, task, code, records, calls)
      case Stop(s) =>
        StopRound(ask, templates, task, code, records, calls, s);
      case Next(code', records', calls') =>
        RoundCases(ask, templates, task, code, records, calls);
        var r := Rounds(ask, templates, task, maxIterations, i + 1, code', records', calls');
        RoundsAppend(ask, templates, task, maxIterations, i + 1, code', records', calls');
        RoundsStopSentinel(ask, templates, task, maxIterations, i + 1, code', records', calls');
        SentinelAfterPair(records, records'[|records|].content, code', r.records, r.end.Finished?);
    }
  }

  /** The second fact of `RoundsStop`: rounds that end on an execution ran to the end. */
  lemma {:induction false} RoundsStopCount(ask: Ask, templates: Templates, task: string, maxIterations: int,
                                           i: nat, code: string, records: seq<Record>, calls: nat)
    ensures var r := Rounds(ask, templates, task, maxIterations, i, code, records, calls);
      r.end.Finished? && !(|records| < |r.records| && r.records[|r.records| - 1].kind == "reflection") ==>
        |r.records| == |records| + 2 * Remaining(i, maxIterations)
    decreases Remaining(i, maxIterations)
  {
    if i < maxIterations {
      match Round(ask, templates, task, code, records, calls)
      case Stop(s) =>
        StopRound(ask, templates, task, code, records, calls, s);
      case Next(code', records', calls') =>
        RoundCases(ask, templates, task, code, records, calls);
        var r := Rounds(ask, templates, task, maxIterations, i + 1, code', records', calls');
        RoundsAppend(ask, templates, task, maxIterations, i + 1, code', records', calls');
        RoundsStopCount(ask, templates, task, maxIterations, i + 1, code', records', calls');
        CountAfterPair(records, records'[|records|].content, code', r.records, r.end.Finished?, Remaining(i + 1, maxIterations));
    }
  }

  /** A round that stops and finishes has recorded one reflection, and it holds the sentinel. */
  lemma {:induction false} StopRound(ask: Ask, templates: Templates, task: string, code: string,
                                     records: seq<Record>, calls: nat, s: RunState)
    requires Round(ask, templates, task, code, records, calls) == Stop(s)
    ensures s.end.Finished? ==>
      |s.records| == |records| + 1 && s.records[|records|].kind == "reflection"
      && Contains(s.records[|records|].content, Sentinel)
  {
    RoundCases(ask, templates, task, code, records, calls);
  }

  /** The first fact of `RoundsStop` carries over from the memory after a round to the memory before it. */
  lemma {:induction false} SentinelAfterPair(records: seq<Record>, feedback: string, refined: string, final: seq<Record>,
                                             finished: bool)
    requires var after := records + [Record("reflection", feedback), Record("execution", refined)];
      && |after| <= |final| && final[..|after|] == after
      && (finished && |after| < |final| && final[|final| - 1].kind == "reflection" ==>
            Contains(final[|final| - 1].content, Sentinel))
    ensures finished && |records| < |final| && final[|final| - 1].kind == "reflection" ==>
      Contains(final[|final| - 1].content, Sentinel)
  {
    var after := records + [Record("reflection", feedback), Record("execution", refined)];
    if |final| == |after| {
      assert final[|final| - 1] == after[|after| - 1];
    }
  }

  /** The second fact of `RoundsStop` carries over from the memory after a round to the memory before it. */
  lemma {:induction false} CountAfterPair(records: seq<Record>, feedback: string, refined: string, final: seq<Record>,
                                          finished: bool, m: nat)
    requires var after := records + [Record("reflection", feedback), Record("execution", refined)];
      && |after| <= |final| && final[..|after|] == after
      && (finished && !(|after| < |final| && final[|final| - 1].kind == "reflection") ==>
            |final| == |after| + 2 * m)
    ensures finished && !(|records| < |final| && final[|final| - 1].kind == "reflection") ==>
      |final| == |records| + 2 * (m + 1)
  {
    var after := records + [Record("reflection", feedback), Record("execution", refined)];
    if |final| == |after| {
      assert final[|final| - 1] == after[|after| - 1];
    }
  }

  /** Every reflection before the last record lacked the sentinel: the rounds went on after it. */
  lemma {:induction false} RoundsNoEarlySentinel(ask: Ask, templates: Templates, task: string, maxIterations: int,
                                                 i: nat, code: string, records: seq<Record>, calls: nat, j: nat)
    requires var r := Rounds(ask, templates, task, maxIterations, i, code, records, calls);
      |records| <= j < |r.records| - 1 && r.records[j].kind == "reflection"
    ensures !Contains(Rounds(ask, templates, task, maxIterations, i, code, records, calls).records[j].content, Sentinel)
    decreases Remaining(i, maxIterations)
  {
    var r := Rounds(ask, templates, task, maxIterations, i, code, records, calls);
    RoundCases(ask, templates, task, code, records, calls);
    match Round(ask, templates, task, code, records, calls)
    case Stop(s) =>
    case Next(code', records', calls') =>
      RoundsAppend(ask, templates, task, maxIterations, i + 1, code', records', calls');
      assert r.records[..|records'|] == records';
      if j < |records'| {
        assert r.records[j] == records'[j];
      } else {
        RoundsNoEarlySentinel(ask, templates, task, maxIterations, i + 1, code', records', calls', j);
      }
  }

  /** With the default templates no round raises: every prompt renders. */
  lemma {:induction false} RoundsWithDefaults(ask: Ask, task: string, maxIterations: int,
                                              i: nat, code: string, records: seq<Record>, calls: nat)
    ensures Rounds(ask, TemplatesOf(map[]), task, maxIterations, i, code, records, calls).end.Finished?
    decreases Remaining(i, maxIterations)
  {
    if i < maxIterations {
      ReflectRenders(task, code);
      var feedback := ask(calls, ReflectText(task, code));
      RefineRenders(task, code, feedback);
      match Round(ask, TemplatesOf(map[]), task, code, records, calls)
      case Stop(s) =>
      case Next(code', records', calls') =>
        RoundsWithDefaults(ask, task, maxIterations, i + 1, code', records', calls');
    }
  }

  /**
   * A run with a client and the default templates always finishes, with the latest
   * execution as its answer: an answer that always exists.
   */
  lemma {:induction false} RunWithDefaults(client: Client, task: string, maxIterations: int,
                                           records: seq<Record>, calls: nat)
    ensures var r := RunSpec(Some(client), map[], task, maxIterations, records, calls);
      r.end.Finished? && r.end.code.Some? && r.end.code == LastExecution(r.records)
  {
    InitialRenders(task);
    var code := Reply(client, calls, InitialText(task));
    var started := records + [Record("execution", code)];
    assert LastExecution(started) == Some(code);
    RoundsWithDefaults(Asker(client), task, maxIterations, 0, code, started, calls + 1);
    RoundsAnswer(Asker(client), TemplatesOf(map[]), task, maxIterations, 0, code, started, calls + 1);
  }

  /** Without a client the run raises before recording anything or calling any model. */
  lemma {:induction false} RunWithoutClient(custom: map<string, string>, task: string, maxIterations: int,
                                            records: seq<Record>, calls: nat)
    ensures var r := RunSpec(None, custom, task, maxIterations, records, calls);
      r.records == records && r.calls == calls && r.end.Raised?
      && (r.end.failure == NoClient <==> Format(ChoosePrompt(custom, Initial), map["task" := task]).Success?)
  {
  }

  /**
   * What a run records: the earlier records are kept; a run that gets past the
   * initial prompt records its first attempt and then reflections and executions
   * alternately, one model call per record, at most `1 + 2 * maxIterations` records.
   */
  lemma {:induction false} RunRecords(client: Client, custom: map<string, string>, task: string, maxIterations: int,
                                      records: seq<Record>, calls: nat)
    ensures var r := RunSpec(Some(client), custom, task, maxIterations, records, calls);
      match Format(ChoosePrompt(custom, Initial), map["task" := task])
      case Failure(_) => r.records == records && r.calls == calls && r.end.Raised?
      case Success(p) =>
        |records| < |r.records| && r.records[..|records| + 1] == records + [Record("execution", Reply(client, calls, p))]
        && ReflectFirst(r.records[|records| + 1..])
        && r.calls == calls + (|r.records| - |records|)
        && |r.records| - |records| <= 1 + 2 * Remaining(0, maxIterations)
  {
    match Format(ChoosePrompt(custom, Initial), map["task" := task])
    case Failure(_) =>
    case Success(p) =>
      var code := Reply(client, calls, p);
      var started := records + [Record("execution", code)];
      var r := Rounds(Asker(client), TemplatesOf(custom), task, maxIterations, 0, code, started, calls + 1);
      RoundsAppend(Asker(client), TemplatesOf(custom), task, maxIterations, 0, code, started, calls + 1);
      assert r.records[..|records| + 1] == started;
  }

  /**
   * With the default templates, feedback that holds the sentinel on the first round
   * ends the run at once: the first attempt is the answer, after two model calls.
   */
  lemma {:induction false} ApprovedAtOnce(client: Client, task: string, maxIterations: int,
                                          records: seq<Record>, calls: nat)
    requires 0 < maxIterations
    requires Contains(Reply(client, calls + 1, ReflectText(task, Reply(client, calls, InitialText(task)))), Sentinel)
    ensures var code := Reply(client, calls, InitialText(task));
      var feedback := Reply(client, calls + 1, ReflectText(task, code));
      RunSpec(Some(client), map[], task, maxIterations, records, calls)
        == RunState(records + [Record("execution", code), Record("reflection", feedback)], calls + 2, Finished(Some(code)))
  {
    InitialRenders(task);
    var code := Reply(client, calls, InitialText(task));
    var started := records + [Record("execution", code)];
    ReflectRenders(task, code);
    var feedback := Reply(client, calls + 1, ReflectText(task, code));
    var reflected := started + [Record("reflection", feedback)];
    assert reflected == records + [Record("execution", code), Record("reflection", feedback)];
    assert LastExecution(reflected) == Some(code);
  }
}
