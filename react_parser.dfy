/**
 * The ReAct agent's parsers (`ReActAgent._parse_output`, `_parse_action` and the
 * `Finish[...]` extraction in the_chapter_4/LLMClient.py). Each regular expression
 * is written out as the scan it performs; the comment on each function says which
 * match the scan finds.
 */
module ReactParser {
  import opened Wrappers
  import opened Text

  /** What `_parse_output` returns: the thought and the action, each possibly None. */
  datatype Turn = Turn(thought: Option<string>, action: Option<string>)

  /** What `_parse_action` returns when its pattern matches: the tool name and its input. */
  datatype ToolCall = ToolCall(name: string, input: string)

  /**
   * `re.search(r"Thought:\s*(.*?)\s*Action:", text, re.DOTALL)`, group 1 stripped.
   * A match can only start at a `Thought:` that has an `Action:` somewhere after it,
   * so the leftmost one starts at the first `Thought:`; the lazy group then stops
   * at the first `Action:` after it, and the two `\s*` only move whitespace that
   * `strip` removes anyway.
   */
  function ThoughtBlock(text: string): Option<string> {
    match IndexOf(text, "Thought:", 0)
    case None => None
    case Some(p) =>
      match IndexOf(text, "Action:", p + 8)
      case None => None
      case Some(q) => Some(Strip(text[p + 8..q]))
  }

  /** `re.search(r"Thought: (.*)", text)`, group 1 stripped: the rest of the line after the first `Thought: `. */
  function ThoughtLine(text: string): Option<string> {
    match IndexOf(text, "Thought: ", 0)
    case None => None
    case Some(p) => Some(Strip(Before(text[p + 9..], "\n")))
  }

  /** `re.search(r"Action:\s*(.*)", text, re.DOTALL)`, group 1 stripped: everything after the first `Action:`. */
  function ActionText(text: string): Option<string> {
    match IndexOf(text, "Action:", 0)
    case None => None
    case Some(q) => Some(Strip(text[q + 7..]))
  }

  /** `_parse_output`: a missing or empty thought block falls back to the `Thought: ` line, when there is one. */
  function ParseOutput(text: string): (r: Turn)
    ensures r.action.Some? <==> Contains(text, "Action:")
    ensures r.thought.Some? ==> Contains(text, "Thought:")
    ensures Contains(text, "Thought: ") ==> r.thought.Some?
  {
    LineMarker(text);
    var block := ThoughtBlock(text);
    var thought :=
      if block.Some? && block.value != "" then block
      else if ThoughtLine(text).Some? then ThoughtLine(text)
      else block;
    Turn(thought, ActionText(text))
  }

  /** A `Thought: ` line is a `Thought:` marker too. */
  lemma {:induction false} LineMarker(text: string)
    ensures Contains(text, "Thought: ") ==> Contains(text, "Thought:")
  {
    var line := IndexOf(text, "Thought: ", 0);
    if line.Some? {
      var p := line.value;
      assert text[p..p + 8] == text[p..p + 9][..8];
      assert OccursAt(text, "Thought:", p);
    }
  }

  /** The end of the run of word characters that starts at `i`. */
  function WordEnd(s: string, i: nat): (k: nat)
    requires i <= |s|
    ensures i <= k <= |s|
    ensures forall j :: i <= j < k ==> IsWordChar(s[j])
    ensures k == |s| || !IsWordChar(s[k])
    decreases |s| - i
  {
    if i < |s| && IsWordChar(s[i]) then WordEnd(s, i + 1) else i
  }

  /** The last position at or after `from` that holds `c`. */
  function LastIndexOf(s: string, c: char, from: nat): (r: Option<nat>)
    ensures r.Some? ==> from <= r.value < |s| && s[r.value] == c
    ensures r.Some? ==> forall j :: r.value < j < |s| ==> s[j] != c
    ensures r.None? ==> forall j :: from <= j < |s| ==> s[j] != c
    decreases |s|
  {
    if |s| <= from then None
    else if s[|s| - 1] == c then Some(|s| - 1)
    else LastIndexOf(s[..|s| - 1], c, from)
  }

  /**
   * `_parse_action`: `re.match(r"(\w+)\[(.*)\]", action_text, re.DOTALL)`. The name
   * is the whole leading run of word characters (a shorter one would be followed by
   * a word character, not `[`); the greedy `(.*)` ends at the last `]`; text after
   * that `]` is allowed, since `re.match` does not anchor the end.
   */
  function ParseAction(a: string): (r: Option<ToolCall>)
    ensures r.Some? ==> r.value.name != [] && forall j :: 0 <= j < |r.value.name| ==> IsWordChar(r.value.name[j])
    ensures r.Some? ==> StartsWith(a, r.value.name + "[" + r.value.input + "]")
    ensures r.Some? ==> forall j :: |r.value.name| + |r.value.input| + 2 <= j < |a| ==> a[j] != ']'
    ensures (exists n, e :: 0 < n < e < |a| && (forall j :: 0 <= j < n ==> IsWordChar(a[j])) && a[n] == '[' && a[e] == ']') ==> r.Some?
  {
    var n := WordEnd(a, 0);
    if n == 0 || n == |a| || a[n] != '[' then None
    else match LastIndexOf(a, ']', n + 1)
      case None => None
      case Some(e) =>
        assert a[..e + 1] == a[..n] + "[" + a[n + 1..e] + "]";
        Some(ToolCall(a[..n], a[n + 1..e]))
  }

  /**
   * The answer of a `Finish` action: `re.match(r"Finish\[(.*)\]", action, re.DOTALL)`
   * gives the text between `Finish[` and the last `]`; when it does not match, the
   * whole action is the answer.
   */
  function FinishAnswer(action: string): (r: string)
    ensures StartsWith(action, "Finish[") && ']' in action[7..] ==> StartsWith(action[7..], r) && |r| < |action| - 7
    ensures StartsWith(action, "Finish[") && ']' in action[7..] ==>
      action[7 + |r|] == ']' && forall j :: 8 + |r| <= j < |action| ==> action[j] != ']'
    ensures !(StartsWith(action, "Finish[") && ']' in action[7..]) ==> r == action
  {
    if StartsWith(action, "Finish[") then
      match LastIndexOf(action, ']', 7)
      case None => action
      case Some(e) => action[7..e]
    else action
  }

  /** A well-formed turn: `Thought: t`, a newline, `Action: a`. */
  function RenderTurn(thought: string, action: string): string {
    "Thought: " + thought + "\nAction: " + action
  }

  ghost predicate Stripped(s: string) {
    s == [] || (!IsSpace(s[0]) && !IsSpace(s[|s| - 1]))
  }

  /** An occurrence that ends inside `x` is an occurrence in `x`. */
  lemma {:induction false} OccursInFront(x: string, y: string, pat: string, j: nat)
    requires OccursAt(x + y, pat, j) && j + |pat| <= |x|
    ensures OccursAt(x, pat, j)
  {
    assert (x + y)[j..j + |pat|] == x[j..j + |pat|];
  }

  /** In a well-formed turn the first `Action:` is the marker after the thought's newline. */
  lemma {:induction false} FirstActionIsMarker(thought: string, action: string)
    requires !Contains(thought, "Action:")
    ensures IndexOf(RenderTurn(thought, action), "Action:", 0) == Some(|thought| + 10)
    ensures IndexOf(RenderTurn(thought, action), "Action:", 8) == Some(|thought| + 10)
  {
    var text := RenderTurn(thought, action);
    var q := |thought| + 10;
    assert text[q..q + 7] == "Action:";
    forall j | 0 <= j < q ensures !OccursAt(text, "Action:", j) {
      NoActionBefore(thought, action, j);
    }
    IndexOfIs(text, "Action:", 8, q);
    IndexOfIs(text, "Action:", 0, q);
  }

  lemma {:induction false} NoActionBefore(thought: string, action: string, j: nat)
    requires !Contains(thought, "Action:")
    requires j < |thought| + 10
    ensures !OccursAt(RenderTurn(thought, action), "Action:", j)
  {
    var text := RenderTurn(thought, action);
    var q := |thought| + 10;
    if j + 7 > |text| {
    } else if j < 9 {
      assert text[j] == "Thought: "[j];
      assert text[j..j + 7][0] != 'A';
    } else if j + 7 <= q - 1 {
      assert text[j..j + 7] == thought[j - 9..j - 2];
      var none := IndexOf(thought, "Action:", 0);
      assert none.None?;
      assert !OccursAt(thought, "Action:", j - 9);
    } else {
      assert text[q - 1] == '\n';
      assert text[j..j + 7][q - 1 - j] == '\n';
    }
  }

  /**
   * Parsing a well-formed turn gives back its thought and its action, when the thought
   * is non-empty and neither part contains the markers or surrounding whitespace.
   */
  lemma {:induction false} ParseOutputRoundTrip(thought: string, action: string)
    requires thought != [] && Stripped(thought) && Stripped(action)
    requires !Contains(thought, "Action:")
    ensures ParseOutput(RenderTurn(thought, action)) == Turn(Some(thought), Some(action))
  {
    var text := RenderTurn(thought, action);
    var q := |thought| + 10;
    ThoughtBlockOfTurn(thought, action);
    ActionTextOfTurn(thought, action);
  }

  lemma {:induction false} ThoughtBlockOfTurn(thought: string, action: string)
    requires Stripped(thought) && !Contains(thought, "Action:")
    ensures ThoughtBlock(RenderTurn(thought, action)) == Some(thought)
  {
    var text := RenderTurn(thought, action);
    var q := |thought| + 10;
    FirstThoughtAtStart(thought, action);
    FirstActionIsMarker(thought, action);
    assert ThoughtBlock(text) == Some(Strip(text[8..q]));
    TurnSlices(thought, action);
    assert AllSpace(" ") && AllSpace("\n");
    StripUnique(" ", thought, "\n");
  }

  lemma {:induction false} FirstThoughtAtStart(thought: string, action: string)
    ensures IndexOf(RenderTurn(thought, action), "Thought:", 0) == Some(0)
  {
    var text := RenderTurn(thought, action);
    assert text == "Thought:" + (" " + thought + "\nAction: " + action);
    assert text[0..8] == "Thought:";
    IndexOfIs(text, "Thought:", 0, 0);
  }

  lemma {:induction false} TurnSlices(thought: string, action: string)
    ensures RenderTurn(thought, action)[8..|thought| + 10] == " " + thought + "\n"
    ensures RenderTurn(thought, action)[|thought| + 17..] == " " + action + ""
  {
    var text := RenderTurn(thought, action);
    var mid := " " + thought + "\n";
    assert text == "Thought:" + mid + ("Action:" + (" " + action));
  }

  lemma {:induction false} ActionTextOfTurn(thought: string, action: string)
    requires Stripped(action) && !Contains(thought, "Action:")
    ensures ActionText(RenderTurn(thought, action)) == Some(action)
  {
    var text := RenderTurn(thought, action);
    var q := |thought| + 10;
    FirstActionIsMarker(thought, action);
    TurnSlices(thought, action);
    StripUnique(" ", action, "");
  }

  /** `name[input]` with a word-character name parses to that name and that input, whatever the input holds. */
  lemma {:induction false} ParseActionRoundTrip(name: string, input: string)
    requires name != [] && forall j :: 0 <= j < |name| ==> IsWordChar(name[j])
    ensures ParseAction(name + "[" + input + "]") == Some(ToolCall(name, input))
  {
    var a := name + "[" + input + "]";
    var n := |name|;
    assert forall j :: 0 <= j < n ==> a[j] == name[j];
    assert a[n] == '[';
    WordEndIs(a, 0, n);
    assert a[|a| - 1] == ']';
    assert a[..n] == name;
    assert a[n + 1..|a| - 1] == input;
  }

  lemma {:induction false} WordEndIs(s: string, i: nat, k: nat)
    requires i <= k <= |s|
    requires forall j :: i <= j < k ==> IsWordChar(s[j])
    requires k == |s| || !IsWordChar(s[k])
    ensures WordEnd(s, i) == k
    decreases k - i
  {
    if i < k { WordEndIs(s, i + 1, k); }
  }

  /** `Finish[answer]` gives back the answer, brackets inside it included. */
  lemma {:induction false} FinishRoundTrip(answer: string)
    ensures FinishAnswer("Finish[" + answer + "]") == answer
  {
    var a := "Finish[" + answer + "]";
    assert StartsWith(a, "Finish[");
    assert a[|a| - 1] == ']';
    assert a[7..|a| - 1] == answer;
  }
}
