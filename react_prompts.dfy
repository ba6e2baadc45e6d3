/**
 * The two prompt templates of the ReAct agent and what they render to.
 * Each template is written as its literal pieces joined by `{name}` fields and
 * `{{name}}` escapes, so that the rendering lemmas below can take it apart.
 */
module ReactPrompts {
  import opened Wrappers
  import opened StrFormat

  const SystemLit0 := "\n请注意，你是一" + "个有能力调用外部" + "工具的智能助手。" + "\n\n可用工具如下" + ":\n"
  const SystemLit1 := "\n\n请严格按照以" + "下格式进行回应:" + "\n\nThough" + "t: 你的思考过" + "程，用于分析问题"
    + "、拆解任务和规划" + "下一步行动。\nA" + "ction: 你" + "决定采取的行动，" + "必须是以下格式之"
    + "一:\n- `"
  const SystemLit2 := "["
  const SystemLit3 := "]`:调用一个可" + "用工具。\n- `" + "Finish[最" + "终答案]`:当你" + "认为已经获得最终"
    + "答案时。\n- 当" + "你收集到足够的信" + "息，能够回答用户" + "的最终问题时，你" + "必须在Actio"
    + "n:字段后使用 " + "Finish[最" + "终答案] 来输出" + "最终答案。\n"

  /** The template `ReactSystemPrompt` (the_chapter_4/LLMClient.py:165-178). */
  const ReactSystemPrompt := SystemLit0 + Field("tools") + SystemLit1 + Escaped("tool_name") + SystemLit2 + Escaped("tool_input") + SystemLit3

  lemma {:induction false} SystemLit0BraceFree()
    ensures BraceFree(SystemLit0)
  {
    var acc := "\n请注意，你是一"; assert BraceFree(acc);
    var c1 := "个有能力调用外部"; assert BraceFree(c1); BraceFreeConcat(acc, c1); acc := acc + c1;
    var c2 := "工具的智能助手。"; assert BraceFree(c2); BraceFreeConcat(acc, c2); acc := acc + c2;
    var c3 := "\n\n可用工具如下"; assert BraceFree(c3); BraceFreeConcat(acc, c3); acc := acc + c3;
    var c4 := ":\n"; assert BraceFree(c4); BraceFreeConcat(acc, c4); acc := acc + c4;
    assert acc == SystemLit0;
  }

  lemma {:induction false} SystemLit1BraceFree()
    ensures BraceFree(SystemLit1)
  {
    var acc := "\n\n请严格按照以"; assert BraceFree(acc);
    var c1 := "下格式进行回应:"; assert BraceFree(c1); BraceFreeConcat(acc, c1); acc := acc + c1;
    var c2 := "\n\nThough"; assert BraceFree(c2); BraceFreeConcat(acc, c2); acc := acc + c2;
    var c3 := "t: 你的思考过"; assert BraceFree(c3); BraceFreeConcat(acc, c3); acc := acc + c3;
    var c4 := "程，用于分析问题"; assert BraceFree(c4); BraceFreeConcat(acc, c4); acc := acc + c4;
    var c5 := "、拆解任务和规划"; assert BraceFree(c5); BraceFreeConcat(acc, c5); acc := acc + c5;
    var c6 := "下一步行动。\nA"; assert BraceFree(c6); BraceFreeConcat(acc, c6); acc := acc + c6;
    var c7 := "ction: 你"; assert BraceFree(c7); BraceFreeConcat(acc, c7); acc := acc + c7;
    var c8 := "决定采取的行动，"; assert BraceFree(c8); BraceFreeConcat(acc, c8); acc := acc + c8;
    var c9 := "必须是以下格式之"; assert BraceFree(c9); BraceFreeConcat(acc, c9); acc := acc + c9;
    var c10 := "一:\n- `"; assert BraceFree(c10); BraceFreeConcat(acc, c10); acc := acc + c10;
    assert acc == SystemLit1;
  }

  lemma {:induction false} SystemLit3BraceFree()
    ensures BraceFree(SystemLit3)
  {
    var acc := "]`:调用一个可"; assert BraceFree(acc);
    var c1 := "用工具。\n- `"; assert BraceFree(c1); BraceFreeConcat(acc, c1); acc := acc + c1;
    var c2 := "Finish[最"; assert BraceFree(c2); BraceFreeConcat(acc, c2); acc := acc + c2;
    var c3 := "终答案]`:当你"; assert BraceFree(c3); BraceFreeConcat(acc, c3); acc := acc + c3;
    var c4 := "认为已经获得最终"; assert BraceFree(c4); BraceFreeConcat(acc, c4); acc := acc + c4;
    var c5 := "答案时。\n- 当"; assert BraceFree(c5); BraceFreeConcat(acc, c5); acc := acc + c5;
    var c6 := "你收集到足够的信"; assert BraceFree(c6); BraceFreeConcat(acc, c6); acc := acc + c6;
    var c7 := "息，能够回答用户"; assert BraceFree(c7); BraceFreeConcat(acc, c7); acc := acc + c7;
    var c8 := "的最终问题时，你"; assert BraceFree(c8); BraceFreeConcat(acc, c8); acc := acc + c8;
    var c9 := "必须在Actio"; assert BraceFree(c9); BraceFreeConcat(acc, c9); acc := acc + c9;
    var c10 := "n:字段后使用 "; assert BraceFree(c10); BraceFreeConcat(acc, c10); acc := acc + c10;
    var c11 := "Finish[最"; assert BraceFree(c11); BraceFreeConcat(acc, c11); acc := acc + c11;
    var c12 := "终答案] 来输出"; assert BraceFree(c12); BraceFreeConcat(acc, c12); acc := acc + c12;
    var c13 := "最终答案。\n"; assert BraceFree(c13); BraceFreeConcat(acc, c13); acc := acc + c13;
    assert acc == SystemLit3;
  }

  const UserLit0 := "\n现在，请开始解" + "决以下问题:\nQ" + "uestion:" + " "
  const UserLit1 := "\nHistory" + ": "
  const UserLit2 := "\n"

  /** The template `ReactUserPrompt` (the_chapter_4/LLMClient.py:181-185). */
  const ReactUserPrompt := UserLit0 + Field("question") + UserLit1 + Field("history") + UserLit2

  lemma {:induction false} UserLit0BraceFree()
    ensures BraceFree(UserLit0)
  {
    var acc := "\n现在，请开始解"; assert BraceFree(acc);
    var c1 := "决以下问题:\nQ"; assert BraceFree(c1); BraceFreeConcat(acc, c1); acc := acc + c1;
    var c2 := "uestion:"; assert BraceFree(c2); BraceFreeConcat(acc, c2); acc := acc + c2;
    var c3 := " "; assert BraceFree(c3); BraceFreeConcat(acc, c3); acc := acc + c3;
    assert acc == UserLit0;
  }

  lemma {:induction false} UserLit1BraceFree()
    ensures BraceFree(UserLit1)
  {
    var acc := "\nHistory"; assert BraceFree(acc);
    var c1 := ": "; assert BraceFree(c1); BraceFreeConcat(acc, c1); acc := acc + c1;
    assert acc == UserLit1;
  }

  /** The system prompt lists the tools verbatim; its escaped names become single-brace placeholders. */
  lemma {:induction false} ReactSystemFormats(tools: string)
    ensures Format(ReactSystemPrompt, map["tools" := tools])
         == Success(SystemLit0 + tools + SystemLit1 + Field("tool_name") + SystemLit2 + Field("tool_input") + SystemLit3)
  {
    SystemLit0BraceFree();
    SystemLit1BraceFree();
    SystemLit3BraceFree();
    assert BraceFree(SystemLit2) && BraceFree("tools") && BraceFree("tool_name") && BraceFree("tool_input");
    Fill1Escaped2(SystemLit0, "tools", SystemLit1, "tool_name", SystemLit2, "tool_input", SystemLit3, map["tools" := tools]);
  }

  /** The user prompt holds the question and the history verbatim, in that order. */
  lemma {:induction false} ReactUserFormats(question: string, history: string)
    ensures Format(ReactUserPrompt, map["question" := question, "history" := history])
         == Success(UserLit0 + question + UserLit1 + history + UserLit2)
  {
    UserLit0BraceFree();
    assert BraceFree(UserLit1) && BraceFree(UserLit2) && BraceFree("question") && BraceFree("history");
    Fill2(UserLit0, "question", UserLit1, "history", UserLit2, map["question" := question, "history" := history]);
  }
}
