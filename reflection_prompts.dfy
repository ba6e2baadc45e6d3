/**
 * The default prompt templates of the reflection agent (`DEFAULT_PROMPTS`,
 * chapter7/my_reflection_agent.py:51-85), the per-key choice between a custom
 * template and the default one, and what the defaults render to.
 */
module ReflectionPrompts {
  import opened Wrappers
  import opened StrFormat

  const InitialLit0 := "\n请根据以下要求" + "完成任务:\n\n任" + "务: "
  const InitialLit1 := "\n\n请提供一个完" + "整、准确的回答。" + "\n"

  /** The template `InitialPrompt` (chapter7/my_reflection_agent.py:51-85, one entry of `DEFAULT_PROMPTS`). */
  const InitialPrompt := InitialLit0 + Field("task") + InitialLit1

  lemma {:induction false} InitialLit0BraceFree()
    ensures BraceFree(InitialLit0)
  {
    var acc := "\n请根据以下要求"; assert BraceFree(acc);
    var c1 := "完成任务:\n\n任"; assert BraceFree(c1); BraceFreeConcat(acc, c1); acc := acc + c1;
    var c2 := "务: "; assert BraceFree(c2); BraceFreeConcat(acc, c2); acc := acc + c2;
    assert acc == InitialLit0;
  }

  lemma {:induction false} InitialLit1BraceFree()
    ensures BraceFree(InitialLit1)
  {
    var acc := "\n\n请提供一个完"; assert BraceFree(acc);
    var c1 := "整、准确的回答。"; assert BraceFree(c1); BraceFreeConcat(acc, c1); acc := acc + c1;
    var c2 := "\n"; assert BraceFree(c2); BraceFreeConcat(acc, c2); acc := acc + c2;
    assert acc == InitialLit1;
  }

  const ReflectLit0 := "\n请仔细审查以下" + "回答，并找出可能" + "的问题或改进空间" + ":\n\n# 原始任" + "务:\n"
  const ReflectLit1 := "\n\n# 当前回答" + ":\n"
  const ReflectLit2 := "\n\n请分析这个回" + "答的质量，指出不" + "足之处，并提出具" + "体的改进建议。\n" + "如果回答已经很好"
    + "，请回答\"无需改" + "进\"。\n"

  /** The template `ReflectPrompt` (chapter7/my_reflection_agent.py:51-85, one entry of `DEFAULT_PROMPTS`). */
  const ReflectPrompt := ReflectLit0 + Field("task") + ReflectLit1 + Field("content") + ReflectLit2

  lemma {:induction false} ReflectLit0BraceFree()
    ensures BraceFree(ReflectLit0)
  {
    var acc := "\n请仔细审查以下"; assert BraceFree(acc);
    var c1 := "回答，并找出可能"; assert BraceFree(c1); BraceFreeConcat(acc, c1); acc := acc + c1;
    var c2 := "的问题或改进空间"; assert BraceFree(c2); BraceFreeConcat(acc, c2); acc := acc + c2;
    var c3 := ":\n\n# 原始任"; assert BraceFree(c3); BraceFreeConcat(acc, c3); acc := acc + c3;
    var c4 := "务:\n"; assert BraceFree(c4); BraceFreeConcat(acc, c4); acc := acc + c4;
    assert acc == ReflectLit0;
  }

  lemma {:induction false} ReflectLit1BraceFree()
    ensures BraceFree(ReflectLit1)
  {
    var acc := "\n\n# 当前回答"; assert BraceFree(acc);
    var c1 := ":\n"; assert BraceFree(c1); BraceFreeConcat(acc, c1); acc := acc + c1;
    assert acc == ReflectLit1;
  }

  lemma {:induction false} ReflectLit2BraceFree()
    ensures BraceFree(ReflectLit2)
  {
    var acc := "\n\n请分析这个回"; assert BraceFree(acc);
    var c1 := "答的质量，指出不"; assert BraceFree(c1); BraceFreeConcat(acc, c1); acc := acc + c1;
    var c2 := "足之处，并提出具"; assert BraceFree(c2); BraceFreeConcat(acc, c2); acc := acc + c2;
    var c3 := "体的改进建议。\n"; assert BraceFree(c3); BraceFreeConcat(acc, c3); acc := acc + c3;
    var c4 := "如果回答已经很好"; assert BraceFree(c4); BraceFreeConcat(acc, c4); acc := acc + c4;
    var c5 := "，请回答\"无需改"; assert BraceFree(c5); BraceFreeConcat(acc, c5); acc := acc + c5;
    var c6 := "进\"。\n"; assert BraceFree(c6); BraceFreeConcat(acc, c6); acc := acc + c6;
    assert acc == ReflectLit2;
  }

  const RefineLit0 := "\n请根据反馈意见" + "改进你的回答:\n" + "\n# 原始任务:" + "\n"
  const RefineLit1 := "\n\n# 上一轮回" + "答:\n"
  const RefineLit2 := "\n\n# 反馈意见" + ":\n"
  const RefineLit3 := "\n\n请提供一个改" + "进后的回答。\n"

  /** The template `RefinePrompt` (chapter7/my_reflection_agent.py:51-85, one entry of `DEFAULT_PROMPTS`). */
  const RefinePrompt := RefineLit0 + Field("task") + RefineLit1 + Field("last_attempt") + RefineLit2 + Field("feedback") + RefineLit3

  lemma {:induction false} RefineLit0BraceFree()
    ensures BraceFree(RefineLit0)
  {
    var acc := "\n请根据反馈意见"; assert BraceFree(acc);
    var c1 := "改进你的回答:\n"; assert BraceFree(c1); BraceFreeConcat(acc, c1); acc := acc + c1;
    var c2 := "\n# 原始任务:"; assert BraceFree(c2); BraceFreeConcat(acc, c2); acc := acc + c2;
    var c3 := "\n"; assert BraceFree(c3); BraceFreeConcat(acc, c3); acc := acc + c3;
    assert acc == RefineLit0;
  }

  lemma {:induction false} RefineLit1BraceFree()
    ensures BraceFree(RefineLit1)
  {
    var acc := "\n\n# 上一轮回"; assert BraceFree(acc);
    var c1 := "答:\n"; assert BraceFree(c1); BraceFreeConcat(acc, c1); acc := acc + c1;
    assert acc == RefineLit1;
  }

  lemma {:induction false} RefineLit2BraceFree()
    ensures BraceFree(RefineLit2)
  {
    var acc := "\n\n# 反馈意见"; assert BraceFree(acc);
    var c1 := ":\n"; assert BraceFree(c1); BraceFreeConcat(acc, c1); acc := acc + c1;
    assert acc == RefineLit2;
  }

  lemma {:induction false} RefineLit3BraceFree()
    ensures BraceFree(RefineLit3)
  {
    var acc := "\n\n请提供一个改"; assert BraceFree(acc);
    var c1 := "进后的回答。\n"; assert BraceFree(c1); BraceFreeConcat(acc, c1); acc := acc + c1;
    assert acc == RefineLit3;
  }

  /** The three keys a template is looked up by. */
  datatype PromptKey = Initial | Reflect | Refine

  function KeyName(key: PromptKey): string {
    match key
    case Initial => "initial"
    case Reflect => "reflect"
    case Refine => "refine"
  }

  function DefaultPrompt(key: PromptKey): string {
    match key
    case Initial => InitialPrompt
    case Reflect => ReflectPrompt
    case Refine => RefinePrompt
  }

  /** `custom_prompts.get(key, DEFAULT_PROMPTS[key])`. */
  function ChoosePrompt(custom: map<string, string>, key: PromptKey): (r: string)
    ensures KeyName(key) in custom ==> r == custom[KeyName(key)]
    ensures KeyName(key) !in custom ==> r == DefaultPrompt(key)
  {
    if KeyName(key) in custom then custom[KeyName(key)] else DefaultPrompt(key)
  }

  /**
   * The template used is the default one or one of the custom templates, and a
   * custom template stored under another key has no effect.
   */
  lemma {:induction false} ChosenTemplate(custom: map<string, string>, key: PromptKey, k: string, v: string)
    requires k != KeyName(key)
    ensures ChoosePrompt(custom, key) == DefaultPrompt(key) || ChoosePrompt(custom, key) in custom.Values
    ensures ChoosePrompt(custom[k := v], key) == ChoosePrompt(custom, key)
  {
    if KeyName(key) in custom {
      assert custom[KeyName(key)] in custom.Values;
    }
  }

  /** What the default templates render to. */
  function InitialText(task: string): string {
    InitialLit0 + task + InitialLit1
  }

  function ReflectText(task: string, content: string): string {
    ReflectLit0 + task + ReflectLit1 + content + ReflectLit2
  }

  function RefineText(task: string, lastAttempt: string, feedback: string): string {
    RefineLit0 + task + RefineLit1 + lastAttempt + RefineLit2 + feedback + RefineLit3
  }

  /** The default initial prompt never raises: it shows the task between its two texts. */
  lemma {:induction false} InitialRenders(task: string)
    ensures Format(InitialPrompt, map["task" := task]) == Success(InitialText(task))
  {
    InitialLit0BraceFree();
    InitialLit1BraceFree();
    assert BraceFree("task");
    Fill1(InitialLit0, "task", InitialLit1, map["task" := task]);
  }

  /** The default reflection prompt never raises: it shows the task and the answer under review. */
  lemma {:induction false} ReflectRenders(task: string, content: string)
    ensures Format(ReflectPrompt, map["task" := task, "content" := content])
         == Success(ReflectText(task, content))
  {
    ReflectLit0BraceFree();
    ReflectLit1BraceFree();
    ReflectLit2BraceFree();
    assert BraceFree("task") && BraceFree("content");
    Fill2(ReflectLit0, "task", ReflectLit1, "content", ReflectLit2, map["task" := task, "content" := content]);
  }

  /** The default refinement prompt never raises: it shows the task, the last attempt and the feedback. */
  lemma {:induction false} RefineRenders(task: string, lastAttempt: string, feedback: string)
    ensures Format(RefinePrompt, map["task" := task, "last_attempt" := lastAttempt, "feedback" := feedback])
         == Success(RefineText(task, lastAttempt, feedback))
  {
    RefineLit0BraceFree();
    RefineLit1BraceFree();
    RefineLit2BraceFree();
    RefineLit3BraceFree();
    assert BraceFree("task") && BraceFree("last_attempt") && BraceFree("feedback");
    Fill3(RefineLit0, "task", RefineLit1, "last_attempt", RefineLit2, "feedback", RefineLit3,
          map["task" := task, "last_attempt" := lastAttempt, "feedback" := feedback]);
  }
}
