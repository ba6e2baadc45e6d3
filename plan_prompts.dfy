/**
 * The two prompt templates of the plan-and-solve agent
 * (the_chapter_4/Plan_and_Solve.py:39-69) and what they render to.
 */
module PlanPrompts {
  import opened Wrappers
  import opened StrFormat

  const PlannerLit0 := "\n你是一个顶级的" + "AI规划专家。你" + "的任务是将用户提" + "出的复杂问题分解" + "成一个由多个简单"
    + "步骤组成的行动计" + "划。\n请确保计划" + "中的每个步骤都是" + "一个独立的、可执" + "行的子任务，并且"
    + "严格按照逻辑顺序" + "排列。\n你的输出" + "必须是一个Pyt" + "hon列表，其中" + "每个元素都是一个"
    + "描述子任务的字符" + "串。\n\n问题: "
  const PlannerLit1 := "\n\n请严格按照以" + "下格式输出你的计" + "划,```pyt" + "hon与```作" + "为前后缀是必要的"
    + ":\n```pyt" + "hon\n[\"步骤" + "1\", \"步骤2" + "\", \"步骤3\"" + ", ...]\n`"
    + "``\n"

  /** The template `PlannerPrompt` (`PLANNER_PROMPT_TEMPLATE`, the_chapter_4/Plan_and_Solve.py:39-50). */
  const PlannerPrompt := PlannerLit0 + Field("question") + PlannerLit1

  lemma {:induction false} PlannerLit0BraceFree()
    ensures BraceFree(PlannerLit0)
  {
    var acc := "\n你是一个顶级的"; assert BraceFree(acc);
    var c1 := "AI规划专家。你"; assert BraceFree(c1); BraceFreeConcat(acc, c1); acc := acc + c1;
    var c2 := "的任务是将用户提"; assert BraceFree(c2); BraceFreeConcat(acc, c2); acc := acc + c2;
    var c3 := "出的复杂问题分解"; assert BraceFree(c3); BraceFreeConcat(acc, c3); acc := acc + c3;
    var c4 := "成一个由多个简单"; assert BraceFree(c4); BraceFreeConcat(acc, c4); acc := acc + c4;
    var c5 := "步骤组成的行动计"; assert BraceFree(c5); BraceFreeConcat(acc, c5); acc := acc + c5;
    var c6 := "划。\n请确保计划"; assert BraceFree(c6); BraceFreeConcat(acc, c6); acc := acc + c6;
    var c7 := "中的每个步骤都是"; assert BraceFree(c7); BraceFreeConcat(acc, c7); acc := acc + c7;
    var c8 := "一个独立的、可执"; assert BraceFree(c8); BraceFreeConcat(acc, c8); acc := acc + c8;
    var c9 := "行的子任务，并且"; assert BraceFree(c9); BraceFreeConcat(acc, c9); acc := acc + c9;
    var c10 := "严格按照逻辑顺序"; assert BraceFree(c10); BraceFreeConcat(acc, c10); acc := acc + c10;
    var c11 := "排列。\n你的输出"; assert BraceFree(c11); BraceFreeConcat(acc, c11); acc := acc + c11;
    var c12 := "必须是一个Pyt"; assert BraceFree(c12); BraceFreeConcat(acc, c12); acc := acc + c12;
    var c13 := "hon列表，其中"; assert BraceFree(c13); BraceFreeConcat(acc, c13); acc := acc + c13;
    var c14 := "每个元素都是一个"; assert BraceFree(c14); BraceFreeConcat(acc, c14); acc := acc + c14;
    var c15 := "描述子任务的字符"; assert BraceFree(c15); BraceFreeConcat(acc, c15); acc := acc + c15;
    var c16 := "串。\n\n问题: "; assert BraceFree(c16); BraceFreeConcat(acc, c16); acc := acc + c16;
    assert acc == PlannerLit0;
  }

  lemma {:induction false} PlannerLit1BraceFree()
    ensures BraceFree(PlannerLit1)
  {
    var acc := "\n\n请严格按照以"; assert BraceFree(acc);
    var c1 := "下格式输出你的计"; assert BraceFree(c1); BraceFreeConcat(acc, c1); acc := acc + c1;
    var c2 := "划,```pyt"; assert BraceFree(c2); BraceFreeConcat(acc, c2); acc := acc + c2;
    var c3 := "hon与```作"; assert BraceFree(c3); BraceFreeConcat(acc, c3); acc := acc + c3;
    var c4 := "为前后缀是必要的"; assert BraceFree(c4); BraceFreeConcat(acc, c4); acc := acc + c4;
    var c5 := ":\n```pyt"; assert BraceFree(c5); BraceFreeConcat(acc, c5); acc := acc + c5;
    var c6 := "hon\n[\"步骤"; assert BraceFree(c6); BraceFreeConcat(acc, c6); acc := acc + c6;
    var c7 := "1\", \"步骤2"; assert BraceFree(c7); BraceFreeConcat(acc, c7); acc := acc + c7;
    var c8 := "\", \"步骤3\""; assert BraceFree(c8); BraceFreeConcat(acc, c8); acc := acc + c8;
    var c9 := ", ...]\n`"; assert BraceFree(c9); BraceFreeConcat(acc, c9); acc := acc + c9;
    var c10 := "``\n"; assert BraceFree(c10); BraceFreeConcat(acc, c10); acc := acc + c10;
    assert acc == PlannerLit1;
  }

  const ExecutorLit0 := "\n你是一位顶级的" + "AI执行专家。你" + "的任务是严格按照" + "给定的计划，一步" + "步地解决问题。\n"
    + "你将收到原始问题" + "、完整的计划、以" + "及到目前为止已经" + "完成的步骤和结果" + "。\n请你专注于解"
    + "决“当前步骤”，" + "并仅输出该步骤的" + "最终答案，不要输" + "出任何额外的解释" + "或对话。\n\n# "
    + "原始问题:\n"
  const ExecutorLit1 := "\n\n# 完整计划" + ":\n"
  const ExecutorLit2 := "\n\n# 历史步骤" + "与结果:\n"
  const ExecutorLit3 := "\n\n# 当前步骤" + ":\n"
  const ExecutorLit4 := "\n\n请仅输出针对" + "“当前步骤”的回" + "答:\n"

  /** The template `ExecutorPrompt` (`EXECUTOR_PROMPT_TEMPLATE`, the_chapter_4/Plan_and_Solve.py:51-69). */
  const ExecutorPrompt := ExecutorLit0 + Field("question") + ExecutorLit1 + Field("plan") + ExecutorLit2 + Field("history") + ExecutorLit3 + Field("current_step") + ExecutorLit4

  lemma {:induction false} ExecutorLit0BraceFree()
    ensures BraceFree(ExecutorLit0)
  {
    var acc := "\n你是一位顶级的"; assert BraceFree(acc);
    var c1 := "AI执行专家。你"; assert BraceFree(c1); BraceFreeConcat(acc, c1); acc := acc + c1;
    var c2 := "的任务是严格按照"; assert BraceFree(c2); BraceFreeConcat(acc, c2); acc := acc + c2;
    var c3 := "给定的计划，一步"; assert BraceFree(c3); BraceFreeConcat(acc, c3); acc := acc + c3;
    var c4 := "步地解决问题。\n"; assert BraceFree(c4); BraceFreeConcat(acc, c4); acc := acc + c4;
    var c5 := "你将收到原始问题"; assert BraceFree(c5); BraceFreeConcat(acc, c5); acc := acc + c5;
    var c6 := "、完整的计划、以"; assert BraceFree(c6); BraceFreeConcat(acc, c6); acc := acc + c6;
    var c7 := "及到目前为止已经"; assert BraceFree(c7); BraceFreeConcat(acc, c7); acc := acc + c7;
    var c8 := "完成的步骤和结果"; assert BraceFree(c8); BraceFreeConcat(acc, c8); acc := acc + c8;
    var c9 := "。\n请你专注于解"; assert BraceFree(c9); BraceFreeConcat(acc, c9); acc := acc + c9;
    var c10 := "决“当前步骤”，"; assert BraceFree(c10); BraceFreeConcat(acc, c10); acc := acc + c10;
    var c11 := "并仅输出该步骤的"; assert BraceFree(c11); BraceFreeConcat(acc, c11); acc := acc + c11;
    var c12 := "最终答案，不要输"; assert BraceFree(c12); BraceFreeConcat(acc, c12); acc := acc + c12;
    var c13 := "出任何额外的解释"; assert BraceFree(c13); BraceFreeConcat(acc, c13); acc := acc + c13;
    var c14 := "或对话。\n\n# "; assert BraceFree(c14); BraceFreeConcat(acc, c14); acc := acc + c14;
    var c15 := "原始问题:\n"; assert BraceFree(c15); BraceFreeConcat(acc, c15); acc := acc + c15;
    assert acc == ExecutorLit0;
  }

  lemma {:induction false} ExecutorLit1BraceFree()
    ensures BraceFree(ExecutorLit1)
  {
    var acc := "\n\n# 完整计划"; assert BraceFree(acc);
    var c1 := ":\n"; assert BraceFree(c1); BraceFreeConcat(acc, c1); acc := acc + c1;
    assert acc == ExecutorLit1;
  }

  lemma {:induction false} ExecutorLit2BraceFree()
    ensures BraceFree(ExecutorLit2)
  {
    var acc := "\n\n# 历史步骤"; assert BraceFree(acc);
    var c1 := "与结果:\n"; assert BraceFree(c1); BraceFreeConcat(acc, c1); acc := acc + c1;
    assert acc == ExecutorLit2;
  }

  lemma {:induction false} ExecutorLit3BraceFree()
    ensures BraceFree(ExecutorLit3)
  {
    var acc := "\n\n# 当前步骤"; assert BraceFree(acc);
    var c1 := ":\n"; assert BraceFree(c1); BraceFreeConcat(acc, c1); acc := acc + c1;
    assert acc == ExecutorLit3;
  }

  lemma {:induction false} ExecutorLit4BraceFree()
    ensures BraceFree(ExecutorLit4)
  {
    var acc := "\n\n请仅输出针对"; assert BraceFree(acc);
    var c1 := "“当前步骤”的回"; assert BraceFree(c1); BraceFreeConcat(acc, c1); acc := acc + c1;
    var c2 := "答:\n"; assert BraceFree(c2); BraceFreeConcat(acc, c2); acc := acc + c2;
    assert acc == ExecutorLit4;
  }

  /** What the planner template renders to. */
  function PlannerText(question: string): string {
    PlannerLit0 + question + PlannerLit1
  }

  /** What the executor template renders to. */
  function ExecutorText(question: string, plan: string, history: string, step: string): string {
    ExecutorLit0 + question + ExecutorLit1 + plan + ExecutorLit2 + history + ExecutorLit3 + step + ExecutorLit4
  }

  /** `PLANNER_PROMPT_TEMPLATE.format(question=...)` never raises: it shows the question. */
  lemma {:induction false} PlannerRenders(question: string)
    ensures Format(PlannerPrompt, map["question" := question]) == Success(PlannerText(question))
  {
    PlannerLit0BraceFree();
    PlannerLit1BraceFree();
    assert BraceFree("question");
    Fill1(PlannerLit0, "question", PlannerLit1, map["question" := question]);
  }

  /** `EXECUTOR_PROMPT_TEMPLATE.format(...)` never raises: it shows the question, the plan, the history and the step. */
  lemma {:induction false} ExecutorRenders(question: string, plan: string, history: string, step: string)
    ensures Format(ExecutorPrompt, map["question" := question, "plan" := plan, "history" := history, "current_step" := step])
         == Success(ExecutorText(question, plan, history, step))
  {
    ExecutorLit0BraceFree();
    ExecutorLit1BraceFree();
    ExecutorLit2BraceFree();
    ExecutorLit3BraceFree();
    ExecutorLit4BraceFree();
    assert BraceFree("question") && BraceFree("plan") && BraceFree("history") && BraceFree("current_step");
    Fill4(ExecutorLit0, "question", ExecutorLit1, "plan", ExecutorLit2, "history", ExecutorLit3, "current_step", ExecutorLit4,
          map["question" := question, "plan" := plan, "history" := history, "current_step" := step]);
  }

  /** `PLANNER_PROMPT_TEMPLATE.format(question=question)`. */
  function FormatPlanner(question: string): (r: Result<string, FormatError>)
    ensures r == Success(PlannerText(question))
  {
    PlannerRenders(question);
    Format(PlannerPrompt, map["question" := question])
  }

  /** `EXECUTOR_PROMPT_TEMPLATE.format(question=..., plan=..., history=..., current_step=...)`. */
  function FormatExecutor(question: string, plan: string, history: string, step: string): (r: Result<string, FormatError>)
    ensures r == Success(ExecutorText(question, plan, history, step))
  {
    ExecutorRenders(question, plan, history, step);
    Format(ExecutorPrompt, map["question" := question, "plan" := plan, "history" := history, "current_step" := step])
  }
}
