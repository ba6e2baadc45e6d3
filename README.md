# Agent loops of the hello-agents tutorial code, modelled in Dafny

This project models the agent cores of the repository: the ReAct agent with its
tool registry, its streaming model client and its turn parser
(`the_chapter_4/LLMClient.py`); the reflection agent with its memory
(`chapter7/my_reflection_agent.py`); the plan-and-solve agent
(`the_chapter_4/Plan_and_Solve.py`); the five-round travel-assistant loop of
`learing_agent/main.py`; and the restricted calculator tool
(`chapter7/my_calculator_tool.py`).

The language model is a parameter in every model. It is a function from a
call number and the prompt to what the model sends back. In the ReAct, the
plan-and-solve and the travel models the call number counts the calls of one
run from 0. The reflection agent instead keeps a counter `calls` in the agent
itself: it starts at 0 when the agent is made, goes up by one per model call,
is never reset, and so runs on from one `run` to the next. A run is specified by a recursive function over the steps.
The loop itself is a method or a class whose `ensures` ties its final state to
that function. Lemmas about the function state what the source promises: step
budgets, append-only histories, what each kind of reply leads to, and round
trips through the parsers.

Modules, one per file:

| file | module | models |
|---|---|---|
| wrappers.dfy | `Wrappers` | `Option`, `Result` |
| text.dfy | `Text` | `strip`, `find`, `split`, `join`, `in`, `str(int)` |
| format.dfy | `StrFormat` | `str.format` with `{name}`, `{{`, `}}` and its `KeyError`/`ValueError` |
| tool_executor.dfy | `ToolRegistry` | `ToolExecutor` |
| llm_stream.dfy | `LlmStream` | `HelloAgentsLLM.think` on a chunk stream |
| react_parser.dfy | `ReactParser` | `_parse_output`, `_parse_action`, the `Finish[...]` answer |
| react_prompts.dfy | `ReactPrompts` | the two ReAct templates |
| react_agent.dfy | `ReactAgent` | `ReActAgent` and its `run` loop |
| memory.dfy | `AgentMemory` | `Memory` |
| reflection_prompts.dfy | `ReflectionPrompts` | `DEFAULT_PROMPTS` and `custom_prompts.get` |
| reflection_agent.dfy | `ReflectionAgent` | `MyReflectionAgent` |
| plan_prompts.dfy | `PlanPrompts` | the planner and executor templates |
| plan_and_solve.dfy | `PlanAndSolve` | `Planner`, `Executor`, `PlanAndSolveAgent` |
| travel_parser.dfy | `TravelParser` | the three regular expressions and the `Finish[` split of the travel loop |
| travel_agent.dfy | `TravelAgent` | the travel loop |
| calculator.dfy | `Calculator` | `my_calculate` and `_eval_node` |

Notes on the code:

- In the ReAct loop a tool failure ends the run. At `the_chapter_4/LLMClient.py:254` the tool is called without a `try`, so an exception raised by a tool ends `run`. The model has a `ToolFailed` outcome for this, and the run stops there. The travel loop catches the exception instead and turns it into an observation (`learing_agent/main.py:165-168`).
- The ReAct `Finish` answer is greedy. `re.match(r"Finish\[(.*)\]", ..., re.DOTALL)` takes the text up to the last `]` (`LLMClient.py:238`), not up to the first one. Text that does not match is returned whole.
- The travel `Finish` answer is `split("Finish[")[1].split("]")[0]` (`learing_agent/main.py:149`). This is modelled literally, as the text between the first `Finish[` and the next `]`, cut short at a second `Finish[` if one comes first.
- The observation texts are the source's own Chinese messages (`learing_agent/main.py:168`, `learing_agent/main.py:170`, `the_chapter_4/LLMClient.py:252`).
- An empty plan in `Executor.execute` leaves `response_text` unbound (`Plan_and_Solve.py:102`), so the call raises. `Execute` returns None for it. `PlanAndSolveAgent.run` never reaches that case, because it stops on an empty plan first.

## Model

| member | source | states |
|---|---|---|
| `Text.TrimStartSpaces` | the_chapter_4/LLMClient.py:271 | `lstrip` removes whitespace only, and all of the leading whitespace |
| `Text.TrimEndSpaces` | the_chapter_4/LLMClient.py:271 | `rstrip` removes whitespace only, and all of the trailing whitespace |
| `Text.StripEnds` | the_chapter_4/LLMClient.py:271 | the result of `strip` is empty or neither starts nor ends with whitespace |
| `Text.StripUnique` | the_chapter_4/LLMClient.py:271 | stripping `a + m + b`, where `a` and `b` are whitespace and `m` has non-space ends, gives `m` |
| `Text.IndexOf` | the_chapter_4/Plan_and_Solve.py:27 | `find` gives the first occurrence at or after the start, or says there is none |
| `Text.IndexOfIs` | the_chapter_4/Plan_and_Solve.py:27 | an occurrence with none before it is what `find` returns |
| `Text.JoinSplit` | the_chapter_4/Plan_and_Solve.py:27 | `sep.join(s.split(sep)) == s` |
| `Text.SplitPartsFree` | the_chapter_4/Plan_and_Solve.py:27 | no part of `split(sep)` contains `sep` |
| `Text.SplitOne` | the_chapter_4/Plan_and_Solve.py:27 | `split` gives a single part exactly when the separator does not occur |
| `Text.Before` | learing_agent/main.py:149 | `split(sep)[0]` is a prefix free of `sep`, and shorter than the text exactly when `sep` occurs |
| `Text.BeforeIs` | learing_agent/main.py:149 | `split(sep)[0]` is the text before the first occurrence, or all of it |
| `Text.JoinSnoc` | the_chapter_4/LLMClient.py:208 | joining one more entry appends the separator and that entry |
| `Text.NatToStringValue` | the_chapter_4/Plan_and_Solve.py:97 | `str(i+1)` is the decimal digits of the number |
| `StrFormat.FormatLiteral` | the_chapter_4/LLMClient.py:210-211 | text without braces is copied unchanged by `format` |
| `StrFormat.FormatField` | the_chapter_4/LLMClient.py:210-211 | `{name}` is replaced by the argument, and a missing argument is a `KeyError` |
| `StrFormat.FormatOpen` | the_chapter_4/LLMClient.py:175 | `{{` renders as `{` |
| `StrFormat.FormatClose` | the_chapter_4/LLMClient.py:175 | `}}` renders as `}` |
| `StrFormat.FormatPlain` | the_chapter_4/Plan_and_Solve.py:13 | a brace-free template renders as itself |
| `StrFormat.Fill2` | the_chapter_4/LLMClient.py:211 | a template with two fields renders with both arguments in place |
| `StrFormat.Format` | the_chapter_4/LLMClient.py:210-211 | a `KeyError` names a field that is missing from the arguments and holds no brace |
| `ToolRegistry.ToolExecutor.constructor` | the_chapter_4/LLMClient.py:137-138 | a new registry is empty |
| `ToolRegistry.ToolExecutor.RegisterTool` | the_chapter_4/LLMClient.py:140-147 | the entry is stored or replaced; a new name goes last in the order; the warning is given exactly when the name was there |
| `ToolRegistry.ToolExecutor.GetTool` | the_chapter_4/LLMClient.py:149-153 | a tool is found exactly when it is registered, and it is the registered function |
| `ToolRegistry.ToolExecutor.GetAvailableTools` | the_chapter_4/LLMClient.py:155-162 | an empty registry describes itself as the empty text |
| `ToolRegistry.LinesAt` | the_chapter_4/LLMClient.py:159-162 | line `i` of the description is `- name: description` for the `i`-th registered name |
| `ToolRegistry.LinesAfterOverwrite` | the_chapter_4/LLMClient.py:144-146 | replacing a tool keeps every line's position and changes only that tool's description |
| `ToolRegistry.LinesAfterInsert` | the_chapter_4/LLMClient.py:146 | a new tool adds one line at the end |
| `ToolRegistry.RegisterTwice` | the_chapter_4/LLMClient.py:140-153 | registering a name twice keeps one line and the second function |
| `LlmStream.Think` | the_chapter_4/LLMClient.py:31-89 | the streaming loop returns what the stream specification gives |
| `LlmStream.CleanIsContents` | the_chapter_4/LLMClient.py:46-78 | without refusals and faults the reply is the concatenation of the content pieces |
| `LlmStream.CollectAppend` | the_chapter_4/LLMClient.py:46-74 | a stream can be read in two parts; the second part matters only when the first part completed |
| `LlmStream.RefusalEndsStream` | the_chapter_4/LLMClient.py:72-74 | a non-empty refusal is returned at once, and everything after it is ignored |
| `LlmStream.FaultEndsStream` | the_chapter_4/LLMClient.py:87-89 | an exception during the stream gives None |
| `ReactParser.ParseAction` | the_chapter_4/LLMClient.py:282-287 | a found call has a non-empty `\w+` name, its input ends at the last `]`, and no `]` comes after it; and whenever a `\w+` name is followed by `[` and a later `]`, a call is found |
| `ReactParser.ParseActionRoundTrip` | the_chapter_4/LLMClient.py:284-286 | `name[input]` parses back to that name and input |
| `ReactParser.FinishAnswer` | the_chapter_4/LLMClient.py:238-239 | when the action starts with `Finish[` and a `]` follows, the answer is the text after `Finish[` up to just before the last `]`, with no `]` after that one; otherwise the whole action |
| `ReactParser.FinishRoundTrip` | the_chapter_4/LLMClient.py:238-239 | `Finish[answer]` gives `answer` |
| `ReactParser.ParseOutput` | the_chapter_4/LLMClient.py:266-280 | an action is found exactly when the text holds `Action:`; a thought is found only when the text holds `Thought:`, and always when it holds `Thought: ` |
| `ReactParser.FirstActionIsMarker` | the_chapter_4/LLMClient.py:268-269 | in a rendered turn the first `Action:` is the turn's own marker |
| `ReactParser.ThoughtBlockOfTurn` | the_chapter_4/LLMClient.py:268-271 | the thought pattern gives back the thought of a rendered turn |
| `ReactParser.ActionTextOfTurn` | the_chapter_4/LLMClient.py:269-279 | the action pattern gives back the action of a rendered turn |
| `ReactParser.ParseOutputRoundTrip` | the_chapter_4/LLMClient.py:266-280 | parsing `Thought: t` / `Action: a` gives back `t` and `a` |
| `ReactPrompts.ReactSystemFormats` | the_chapter_4/LLMClient.py:165-178 | the system template renders with the tool list in place and its escaped braces as single braces |
| `ReactPrompts.ReactUserFormats` | the_chapter_4/LLMClient.py:181-185 | the user template renders with the question and the history in place |
| `ReactAgent.SystemMessageRenders` | the_chapter_4/LLMClient.py:210 | the system message of every step is the rendered system template |
| `ReactAgent.UserMessageRenders` | the_chapter_4/LLMClient.py:208-211 | the user message of every step is the rendered user template |
| `ReactAgent.ReActAgent.constructor` | the_chapter_4/LLMClient.py:189-193 | the agent keeps its client, its registry and its step budget, and starts with an empty history |
| `ReactAgent.ReActAgent.Ask` | the_chapter_4/LLMClient.py:207-218 | the reply is the model's answer to the rendered prompt for this step and history |
| `ReactAgent.ReActAgent.Act` | the_chapter_4/LLMClient.py:220-256 | what the agent does with a reply is the step specification's decision |
| `ReactAgent.ReActAgent.Turn` | the_chapter_4/LLMClient.py:202-259 | one pass of the loop either ends the run as the specification does or goes on with its record appended |
| `ReactAgent.ReActAgent.Run` | the_chapter_4/LLMClient.py:195-263 | the outcome and the history are those of the step loop from step 0 with an empty history, and the model is called as often as the loop says |
| `ReactAgent.StepHalts` | the_chapter_4/LLMClient.py:220-241 | a step that halts ends the run with the history as it is, after one model call |
| `ReactAgent.StepGoes` | the_chapter_4/LLMClient.py:243-259 | a step that skips or records goes on with the next step, after one model call |
| `ReactAgent.CallsBound` | the_chapter_4/LLMClient.py:202-203 | the model is called at most `max_steps` times |
| `ReactAgent.HistoryAppendOnly` | the_chapter_4/LLMClient.py:199-259 | the history only grows, by `Action:`/`Observation:` pairs, at most one pair per model call |
| `ReactAgent.NoBudget` | the_chapter_4/LLMClient.py:202-263 | without steps the run returns None at once and calls nothing |
| `ReactAgent.TurnStep` | the_chapter_4/LLMClient.py:226-233 | a rendered turn is acted on by its action |
| `ReactAgent.FinishAtOnce` | the_chapter_4/LLMClient.py:236-241 | a first reply `Finish[answer]` ends the run with that answer and an empty history, after one call |
| `ReactAgent.ToolStep` | the_chapter_4/LLMClient.py:243-259 | `name[input]` is skipped on an empty input, observed as "not found" for an unknown name, and otherwise recorded with the tool's result or ends the run with its exception |
| `ReactAgent.ToolTurn` | the_chapter_4/LLMClient.py:226-243 | a rendered turn with a tool call is acted on by that call |
| `AgentMemory.Memory.constructor` | chapter7/my_reflection_agent.py:10-14 | a new memory holds no records |
| `AgentMemory.Memory.AddRecord` | chapter7/my_reflection_agent.py:16-26 | the record is appended and nothing else changes |
| `AgentMemory.Memory.GetTrajectory` | chapter7/my_reflection_agent.py:28-39 | the trajectory is the specified rendering of the records |
| `AgentMemory.Memory.GetLastExecution` | chapter7/my_reflection_agent.py:41-49 | the result is the content of the last execution record, or None |
| `AgentMemory.PartsConcat` | chapter7/my_reflection_agent.py:32-37 | the trajectory parts of two record lists concatenate |
| `AgentMemory.PartsInOrder` | chapter7/my_reflection_agent.py:33-37 | each execution or reflection record gives one part, in order, under its own heading |
| `AgentMemory.OtherRecordSkipped` | chapter7/my_reflection_agent.py:33-37 | a record of any other kind leaves the trajectory unchanged |
| `AgentMemory.TrajectorySnoc` | chapter7/my_reflection_agent.py:37-39 | adding a record adds its part after a blank line |
| `AgentMemory.NoLastExecution` | chapter7/my_reflection_agent.py:46-49 | there is no last execution exactly when no record is an execution |
| `AgentMemory.LastExecutionAt` | chapter7/my_reflection_agent.py:46-48 | the last execution is the content of an execution record with no execution after it |
| `AgentMemory.LastExecutionAfter` | chapter7/my_reflection_agent.py:46-48 | records other than executions do not change the last execution |
| `ReflectionPrompts.InitialRenders` | chapter7/my_reflection_agent.py:52-58 | the default initial template renders with the task in place |
| `ReflectionPrompts.ReflectRenders` | chapter7/my_reflection_agent.py:59-70 | the default reflection template renders with the task and the code in place |
| `ReflectionPrompts.RefineRenders` | chapter7/my_reflection_agent.py:71-84 | the default refinement template renders with the task, the last attempt and the feedback in place |
| `ReflectionPrompts.ChoosePrompt` | chapter7/my_reflection_agent.py:103-126 | a custom template stored under the key is the one used, and without one the default template is used |
| `ReflectionPrompts.ChosenTemplate` | chapter7/my_reflection_agent.py:103-126 | the template used is the default or one of the custom templates, and a custom template under another key has no effect |
| `ReflectionAgent.LlmResponse` | chapter7/my_reflection_agent.py:138-156 | a missing client fails before any call; otherwise the reply is the model's answer |
| `ReflectionAgent.StreamAppend` | chapter7/my_reflection_agent.py:149-156 | a streamed reply joins its pieces, and two parts of a stream join in order |
| `ReflectionAgent.RunStarts` | chapter7/my_reflection_agent.py:103-108 | a run records its first attempt and then goes to the rounds |
| `ReflectionAgent.MyReflectionAgent.constructor` | chapter7/my_reflection_agent.py:91-96 | the agent keeps its settings, uses the default templates when none are given, and starts with an empty memory |
| `ReflectionAgent.MyReflectionAgent.Run` | chapter7/my_reflection_agent.py:98-136 | the memory, the call count and the outcome are those of the run specification |
| `ReflectionAgent.MyReflectionAgent.Iterate` | chapter7/my_reflection_agent.py:108-136 | the rounds loop ends as the rounds specification does |
| `ReflectionAgent.MyReflectionAgent.ReflectAndRefine` | chapter7/my_reflection_agent.py:111-132 | one round of the loop does what the round specification does |
| `ReflectionAgent.RoundCases` | chapter7/my_reflection_agent.py:113-132 | a round raises, or records a reflection and stops exactly when it holds the sentinel, or records a reflection and a new attempt |
| `ReflectionAgent.RoundsAppend` | chapter7/my_reflection_agent.py:108-132 | the rounds only append, reflection first, one call per record, at most two records per round |
| `ReflectionAgent.RoundsAnswer` | chapter7/my_reflection_agent.py:134-136 | the answer is the last execution in memory, and it exists |
| `ReflectionAgent.RoundsStop` | chapter7/my_reflection_agent.py:108-122 | the rounds end on a reflection only if it holds the sentinel, and otherwise only after all rounds |
| `ReflectionAgent.RoundsNoEarlySentinel` | chapter7/my_reflection_agent.py:120-122 | no reflection before the last record holds the sentinel |
| `ReflectionAgent.RoundsWithDefaults` | chapter7/my_reflection_agent.py:113-132 | with the default templates the rounds never raise |
| `ReflectionAgent.RunWithDefaults` | chapter7/my_reflection_agent.py:98-136 | with the default templates a run always returns the last execution |
| `ReflectionAgent.RunWithoutClient` | chapter7/my_reflection_agent.py:141-143 | without a client a run raises, records nothing and calls nothing |
| `ReflectionAgent.RunRecords` | chapter7/my_reflection_agent.py:98-132 | a run keeps old records and adds its first attempt, then alternating reflections and attempts, at most `1 + 2 * max_iterations` records |
| `ReflectionAgent.ApprovedAtOnce` | chapter7/my_reflection_agent.py:103-122 | feedback with the sentinel on the first round returns the first attempt after two calls |
| `PlanPrompts.PlannerRenders` | the_chapter_4/Plan_and_Solve.py:13 | the planner template renders with the question in place |
| `PlanPrompts.ExecutorRenders` | the_chapter_4/Plan_and_Solve.py:85-90 | the executor template renders with the question, the plan, the history and the step in place |
| `PlanAndSolve.PlanText` | the_chapter_4/Plan_and_Solve.py:27 | the plan text is missing exactly when the response has no fence |
| `PlanAndSolve.PlanTextRoundTrip` | the_chapter_4/Plan_and_Solve.py:27 | the stripped text between the fences is the plan text |
| `PlanAndSolve.ParsePlan` | the_chapter_4/Plan_and_Solve.py:26-37 | a missing fence, a non-list or an error gives `[]`; a list literal is the plan |
| `PlanAndSolve.ShownHistory` | the_chapter_4/Plan_and_Solve.py:88 | the history shown is `无` before the first step and the transcript after it |
| `PlanAndSolve.TranscriptGrows` | the_chapter_4/Plan_and_Solve.py:97 | each step appends its numbered entry to the history |
| `PlanAndSolve.AnswersPrefix` | the_chapter_4/Plan_and_Solve.py:82-97 | later steps do not change the answers of earlier ones |
| `PlanAndSolve.ResponseOfStep` | the_chapter_4/Plan_and_Solve.py:82-94 | the answer of step `i` is the model's reply to the prompt built from the answers before it |
| `PlanAndSolve.Execute` | the_chapter_4/Plan_and_Solve.py:74-103 | the final answer is the last step's reply; each step calls the model once |
| `PlanAndSolve.Run` | the_chapter_4/Plan_and_Solve.py:114-131 | the run aborts on an empty plan after one call, and otherwise executes the plan with one call per step |
| `TravelParser.BlockEnd` | learing_agent/main.py:140 | the block ends at the first place the lookahead accepts |
| `TravelParser.FirstBlock` | learing_agent/main.py:140 | a found block starts with `Thought:` |
| `TravelParser.FirstBlockOfTurn` | learing_agent/main.py:140 | the first block of a rendered turn is that turn |
| `TravelParser.Truncate` | learing_agent/main.py:140-142 | output without `Thought:` is kept as it is |
| `TravelParser.TruncateTurn` | learing_agent/main.py:140-142 | a rendered turn followed by a new `Thought:` is cut back to that turn |
| `TravelParser.FinalAnswer` | learing_agent/main.py:149 | the answer is missing exactly when there is no `Finish[`; it holds no `]`, starts right after the first `Finish[`, and ends at the end of the text, at a `]` or at the next `Finish[` |
| `TravelParser.FinalAnswerRoundTrip` | learing_agent/main.py:149 | `Finish[answer]` gives `answer` |
| `TravelParser.CallAt` | learing_agent/main.py:155 | a found call is `name(args)` right after the spaces, with a non-empty `\w+` name and arguments on one line that end at the last `)` of that line |
| `TravelParser.CallAtFound` | learing_agent/main.py:155 | a `\w+` name after the spaces, then `(`, then a `)` on the same line: a call is found |
| `TravelParser.ActionCall` | learing_agent/main.py:155 | output without `Action:` has no call; what a found call is and which one is found are the next three rows |
| `TravelParser.ActionCallFound` | learing_agent/main.py:155 | a call found in the output is the call read right after some `Action:` |
| `TravelParser.ActionCallMissed` | learing_agent/main.py:155 | when no call is found, no `Action:` has a call after it |
| `TravelParser.ActionCallLeftmost` | learing_agent/main.py:155 | the call found is the one after the first `Action:` that has a call after it |
| `TravelParser.ActionCallRoundTrip` | learing_agent/main.py:155-158 | a rendered `Action: name(args)` gives back the name and the arguments |
| `TravelParser.ToMap` | learing_agent/main.py:160 | every parsed key is in the keyword map |
| `TravelParser.ToMapKeys` | learing_agent/main.py:160 | the keyword map has no other keys, and every key of it comes with its value from some parsed pair |
| `TravelParser.PairAt` | learing_agent/main.py:160 | a pair read at the start of the text is `key="value"` written out, and its length is what is consumed |
| `TravelParser.FindPairs` | learing_agent/main.py:160 | every pair found appears in the text as `key="value"` |
| `TravelParser.Kwargs` | learing_agent/main.py:160 | every keyword argument appears in the argument text as `key="value"` with its value |
| `TravelParser.LastPairWins` | learing_agent/main.py:160 | a repeated key keeps its last value |
| `TravelParser.PairAtRendered` | learing_agent/main.py:160 | `key="value"` parses back to that pair |
| `TravelParser.FindPairsRoundTrip` | learing_agent/main.py:160 | comma-separated `key="value"` pairs parse back to the same pairs |
| `TravelAgent.RoundOf` | learing_agent/main.py:136-176 | an `Error:` output stops with nothing recorded; otherwise the cut output is recorded, an observation follows exactly for a tool call, and the round stops exactly on `Action: Finish` |
| `TravelAgent.Observation` | learing_agent/main.py:164-170 | a tool's result is the observation, a raising tool gives `工具执行出错: ` and its message, and an unknown name gives the not-found message |
| `TravelAgent.HandleOutput` | learing_agent/main.py:136-176 | one pass of the loop body does what the round specification does |
| `TravelAgent.Run` | learing_agent/main.py:124-176 | the end and the history are those of the round loop from the user request, and the model is called as often as the loop says |
| `TravelAgent.RoundShaped` | learing_agent/main.py:136-176 | every round records at most two entries, and a stopping round's answer is found in its entry |
| `TravelAgent.CallsBound` | learing_agent/main.py:130 | the model is called at most five times |
| `TravelAgent.OutOfRoundsUsesAll` | learing_agent/main.py:130-176 | a loop that runs out of rounds used all of them |
| `TravelAgent.HistoryGrows` | learing_agent/main.py:125-174 | the history only grows, by one or two entries per call except an error call |
| `TravelAgent.LastRound` | learing_agent/main.py:130-153 | a loop that ends early ends on the round that stopped it |
| `TravelAgent.AnswerOfRun` | learing_agent/main.py:145-153 | the answer is read off the last history entry, which holds `Action: Finish` |
| `TravelAgent.ErrorStopsAtOnce` | learing_agent/main.py:136-138 | an `Error:` output ends the loop at once with the history as it was |
| `TravelAgent.FinishRound` | learing_agent/main.py:140-153 | a `Finish[answer]` turn stops the loop with that answer and records the turn |
| `TravelAgent.ToolRound` | learing_agent/main.py:155-174 | a tool-call turn records the turn and the tool's observation, "not found" for an unknown tool, and the error text for one that raises |
| `TravelAgent.FinishAtOnce` | learing_agent/main.py:125-153 | a first reply `Finish[answer]` ends the loop with that answer after one call |
| `Calculator.Lookup` | chapter7/my_calculator_tool.py:36-39 | only `sqrt` and `pi` have a value |
| `Calculator.Apply` | chapter7/my_calculator_tool.py:28-78 | an operator succeeds exactly when it is one of the four, on two numbers, and not a division by zero; the result is an int exactly for `+`, `-` or `*` on two ints |
| `Calculator.CallValue` | chapter7/my_calculator_tool.py:85-87 | only `sqrt` of one number can be called |
| `Calculator.Eval` | chapter7/my_calculator_tool.py:56-96 | the value is the function `sqrt` itself exactly for the name `sqrt` |
| `Calculator.IntToString` | chapter7/my_calculator_tool.py:51 | `str` of an int starts with `-` exactly when it is negative, and its digits give the magnitude |
| `Calculator.Calculate` | chapter7/my_calculator_tool.py:15-54 | blank input gives the empty message; a parse or evaluation failure gives the fixed error; otherwise `str` of the value: an int in decimal, a float as written by the float printer |
| `Calculator.StripEmpty` | chapter7/my_calculator_tool.py:24 | `not expression.strip()` holds exactly for whitespace-only text |
| `Calculator.EvalOnlyAllowed` | chapter7/my_calculator_tool.py:56-96 | whatever evaluates is built only from numbers, the four operators, `sqrt`, `pi` and `sqrt(x)` |
| `Calculator.ApplyArith` | chapter7/my_calculator_tool.py:72-78 | `+`, `-` and `*` on two numbers succeed and compute the arithmetic result, for ints and floats alike |
| `Calculator.ArithEvaluates` | chapter7/my_calculator_tool.py:68-78 | without division and `sqrt` the evaluator never fails and gives a number whose value is the arithmetic value |
| `Calculator.DivisionValue` | chapter7/my_calculator_tool.py:72-78 | `/` of two numbers, the second not zero, is the float quotient of their values |
| `Calculator.DivisionByZeroFails` | chapter7/my_calculator_tool.py:72-78 | dividing by anything that evaluates to zero, `0` or `0.0`, fails |
| `Calculator.IntResults` | chapter7/my_calculator_tool.py:68-78 | a result is an int exactly when the expression is built from int constants with `+`, `-` and `*` only |
| `Calculator.SqrtCall` | chapter7/my_calculator_tool.py:81-88 | `sqrt(x)` is the float `math.sqrt` of the value of `x`, and fails where `x` fails, is `sqrt` itself, or `math.sqrt` raises |
| `Calculator.CalculateAnswers` | chapter7/my_calculator_tool.py:41-54 | for non-blank input the answer is the fixed error, or `str` of the value of an allowed expression, which is an int exactly when the expression is an int expression |

## Left out

- The language models, the OpenAI client and the network are parameters: a function from the call number and the prompt to the reply. The chunk stream of `think` is a parameter too. Prints, timing and environment loading are not modelled.
- The details of the exception caught in `HelloAgentsLLM.think` (`the_chapter_4/LLMClient.py:87-89`) are not modelled. Any exception during that call or its stream gives None.
- `ast.literal_eval` is a parameter of the planner. It gives an error, a list (with `str` and `repr` of each element) or another value.
- `ast.parse`, `math.sqrt` and `str` of a float are parameters of the calculator. `str` of an int is modelled as decimal digits after an optional `-`, without Python's digit limit (see the second `Calculator.Calculate` line).
- Calculator.Calculate: ints and floats are kept apart (`2*3` gives `6`, `12/2` gives `6.0`), but a float is an exact real. Rounding, overflow to `inf` and the float's own digits are not modelled.
- The calculator's `Constant` nodes are numbers only. Constants that are not numbers (strings, `True`) are not modelled.
- `\w` is modelled on ASCII letters, digits and `_` only, so a tool or keyword name with non-ASCII letters is not matched where Python matches it. `\s` is the full set of characters that `str.isspace` accepts.
- The travel script's system prompt is not modelled, and `available_tools` is a parameter. Its weather and search tools call the network.
- `generate` returning None content is not modelled. The model output is always text.
- The ReAct loop body is split into the methods `Ask`, `Act` and `Turn`. The travel loop body is `HandleOutput`, and the reflection loop is split into `Iterate` and `ReflectAndRefine`. The source has one body each.
- ReActAgent.Run: the history is built in a local and stored in the `history` field when the run ends, not entry by entry.
- The source counts no model calls. In the ReAct, plan-and-solve and travel models the count is ghost. In the reflection agent it is the real field `MyReflectionAgent.calls`, which the source does not have. The model client sees it, so that a backend may answer the same prompt differently on different calls.
- Tool functions that are falsy objects are not modelled. Every registered tool counts as found.
- Tools are modelled as returning text or raising. The type of what they return is not modelled.
- The reflection agent's client is present or absent. A client object that is falsy is not modelled, and neither is an `llm_client` attribute, which the agent never sets.
- The reflection client's `invoke` is modelled as returning text or raising. A non-text result of `invoke` is not modelled.
- StrFormat.Format: only `{name}`, `{{` and `}}` are rendered. A field with a conversion (`{task!r}`), a format spec (`{task:>20}`), an attribute (`{task.upper}`) or an index (`{x[0]}`) is looked up under its whole text, so the model raises `MissingField` where Python renders it. An empty or numeric field (`{}`, `{0}`) raises in both, but Python raises `IndexError`.
- ReflectionAgent.MyReflectionAgent.Run: a custom template that uses the field forms of the previous line renders in Python but ends the run with `BadTemplate` in the model. The default templates use none of them.
- PlanAndSolve.Run: `PlanAndSolveAgent.run` returns None and prints the final answer (`the_chapter_4/Plan_and_Solve.py:114-131`). The outcome of `Run` stands for what `run` prints.
- ReflectionAgent.LlmResponse: a client whose `think` raises, or whose stream raises while it is joined (`chapter7/my_reflection_agent.py:149-155`, outside any `try`), is not modelled. In the source that exception ends `run` with the records added so far kept. In the model `think` always gives a response, and a stream is a finite list of chunks. The chapter's own client raises on a failed call, so that case is reachable through it. That client is not part of this model.
- Calculator.Calculate: Python's limits on large ints are not modelled. `str` of an int with more digits than the interpreter's limit (4300 by default on recent CPython) raises `ValueError`, so `my_calculate` gives the fixed error; the model writes all the digits. An int too large for a float raises `OverflowError` in `/`, in an operation mixing it with a float and in `sqrt`, so `my_calculate` gives the fixed error; the model computes an exact real.
- The other files of the repository are not part of this model: the CAMEL and AutoGen demos, the `my_llm.py` client, the test scripts, the transformer and model-download code.
