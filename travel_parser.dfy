/**
 * The text handling of the travel-assistant script's main loop
 * (learing_agent/main.py:140-160): cutting the model output down to its first
 * Thought/Action block, reading the `Finish[...]` answer, matching the
 * `name(args)` tool call and collecting the `key="value"` arguments. Each regular
 * expression is written out as the scan it performs.
 */
module TravelParser {
  import opened Wrappers
  import opened Text
  import opened ReactParser

  /** The end of the run of whitespace that starts at `i`. */
  function SkipSpaces(s: string, i: nat): (k: nat)
    requires i <= |s|
    ensures i <= k <= |s|
    ensures forall j :: i <= j < k ==> IsSpace(s[j])
    ensures k == |s| || !IsSpace(s[k])
    decreases |s| - i
  {
    if i < |s| && IsSpace(s[i]) then SkipSpaces(s, i + 1) else i
  }

  /**
   * Where the lookahead `(?=\n\s*(?:Thought:|$)|\Z)` holds: at the end, or at a
   * newline after which only whitespace comes before the end or before `Thought:`.
   * (`$` without MULTILINE also matches before a final newline, but that newline
   * is whitespace, so the run of whitespace reaches the end then anyway.)
   */
  predicate BlockStop(s: string, e: nat)
    requires e <= |s|
  {
    e == |s| || (s[e] == '\n' && (SkipSpaces(s, e + 1) == |s| || StartsWith(s[SkipSpaces(s, e + 1)..], "Thought:")))
  }

  /** The first position at or after `e` where the lookahead holds. */
  function BlockEnd(s: string, e: nat): (r: nat)
    requires e <= |s|
    ensures e <= r <= |s| && BlockStop(s, r)
    ensures forall j :: e <= j < r ==> !BlockStop(s, j)
    decreases |s| - e
  {
    if BlockStop(s, e) then e else BlockEnd(s, e + 1)
  }

  /**
   * `re.search(r'(Thought:.*?Action:.*?)(?=...)', s, re.DOTALL).group(1)`. The lookahead
   * always holds at the end, so a match exists exactly when an `Action:` follows the
   * first `Thought:`; it starts there, its first lazy part stops at the first such
   * `Action:`, and its second at the first place where the lookahead holds.
   */
  function FirstBlock(s: string): (r: Option<string>)
    ensures r.Some? ==> StartsWith(r.value, "Thought:")
  {
    match IndexOf(s, "Thought:", 0)
    case None => None
    case Some(p) =>
      match IndexOf(s, "Action:", p + 8)
      case None => None
      case Some(q) =>
        var e := BlockEnd(s, q + 7);
        assert s[p..e][..8] == s[p..p + 8];
        Some(s[p..e])
  }

  /** Lines 140-142: the stripped first block when there is one, otherwise the output unchanged. */
  function Truncate(s: string): (r: string)
    ensures !Contains(s, "Thought:") ==> r == s
  {
    match FirstBlock(s)
    case None => s
    case Some(b) => Strip(b)
  }

  /**
   * A well-formed turn whose action is one line is kept whole by `Truncate`: on its
   * own, and when the model went on to write a next `Thought:` after a newline.
   */
  lemma {:induction false} TruncateTurn(thought: string, action: string, rest: string)
    requires !Contains(thought, "Action:")
    requires action != [] && !IsSpace(action[|action| - 1])
    requires forall j :: 0 <= j < |action| ==> action[j] != '\n'
    requires rest == [] || StartsWith(rest, "\nThought:")
    ensures Truncate(RenderTurn(thought, action) + rest) == RenderTurn(thought, action)
  {
    var turn := RenderTurn(thought, action);
    FirstBlockOfTurn(thought, action, rest);
    assert turn[0] == 'T' && turn[|turn| - 1] == action[|action| - 1];
    assert AllSpace("");
    assert "" + turn + "" == turn;
    StripUnique("", turn, "");
  }

  lemma {:induction false} FirstBlockOfTurn(thought: string, action: string, rest: string)
    requires !Contains(thought, "Action:")
    requires forall j :: 0 <= j < |action| ==> action[j] != '\n'
    requires rest == [] || StartsWith(rest, "\nThought:")
    ensures FirstBlock(RenderTurn(thought, action) + rest) == Some(RenderTurn(thought, action))
  {
    var turn := RenderTurn(thought, action);
    var s := turn + rest;
    var q := |thought| + 10;
    var n := |turn|;
    assert s[..n] == turn;
    assert s[0..8] == "Thought:";
    IndexOfIs(s, "Thought:", 0, 0);
    ActionMarkerBeforeRest(thought, action, rest);
    assert s[q + 7..n] == " " + action;
    NoStopInLine(s, q + 7, n);
    assert s[n..] == rest;
    StopBeforeThought(s, n);
    FirstBlockIs(s, q, n);
  }

  /** The turn's own `Action:` marker is still the first one after what follows it is added. */
  lemma {:induction false} ActionMarkerBeforeRest(thought: string, action: string, rest: string)
    requires !Contains(thought, "Action:")
    ensures IndexOf(RenderTurn(thought, action) + rest, "Action:", 8) == Some(|thought| + 10)
  {
    var turn := RenderTurn(thought, action);
    var s := turn + rest;
    var q := |thought| + 10;
    FirstActionIsMarker(thought, action);
    assert s[q..q + 7] == turn[q..q + 7];
    forall j | 8 <= j < q ensures !OccursAt(s, "Action:", j) {
      if OccursAt(s, "Action:", j) {
        OccursInFront(turn, rest, "Action:", j);
      }
    }
    IndexOfIs(s, "Action:", 8, q);
  }

  /** The lookahead does not hold inside a line. */
  lemma {:induction false} NoStopInLine(s: string, from: nat, to: nat)
    requires from <= to <= |s|
    requires forall j :: 0 <= j < to - from ==> s[from..to][j] != '\n'
    ensures forall j :: from <= j < to ==> !BlockStop(s, j)
  {
    forall j | from <= j < to ensures !BlockStop(s, j) {
      assert s[j] == s[from..to][j - from];
    }
  }

  /** The lookahead holds at the end and at a newline that a `Thought:` follows. */
  lemma {:induction false} StopBeforeThought(s: string, n: nat)
    requires n <= |s| && (s[n..] == [] || StartsWith(s[n..], "\nThought:"))
    ensures BlockStop(s, n)
  {
    if n < |s| {
      assert s[n] == s[n..][0] == '\n';
      assert s[n + 1] == s[n..][1] == 'T';
      assert SkipSpaces(s, n + 1) == n + 1;
      assert s[n + 1..][..8] == s[n..][1..9];
    }
  }

  /** The first block, from the positions of its markers and of its end. */
  lemma {:induction false} FirstBlockIs(s: string, q: nat, e: nat)
    requires IndexOf(s, "Thought:", 0) == Some(0) && IndexOf(s, "Action:", 8) == Some(q)
    requires q + 7 <= e <= |s| && BlockStop(s, e)
    requires forall j :: q + 7 <= j < e ==> !BlockStop(s, j)
    ensures FirstBlock(s) == Some(s[..e])
  {
    var r := BlockEnd(s, q + 7);
    assert !(r < e);
    assert !(e < r);
  }

  /**
   * `s.split("Finish[")[1].split("]")[0]`: the text after the first `Finish[` up to
   * the next `]` (or the next `Finish[`, where the first split stops). None where
   * indexing the split raises, that is, when there is no `Finish[`.
   */
  function FinalAnswer(s: string): (r: Option<string>)
    ensures r.None? <==> !Contains(s, "Finish[")
    ensures r.Some? ==> !Contains(r.value, "]")
    ensures r.Some? ==> var p := IndexOf(s, "Finish[", 0).value + 7;
      StartsWith(s[p..], r.value)
      && (p + |r.value| == |s| || s[p + |r.value|] == ']' || OccursAt(s, "Finish[", p + |r.value|))
  {
    SplitOne(s, "Finish[");
    var parts := Split(s, "Finish[");
    if |parts| < 2 then None
    else
      var p := IndexOf(s, "Finish[", 0).value + 7;
      SecondPart(s, "Finish[");
      AnswerEnds(s[p..]);
      Some(Before(parts[1], "]"))
  }

  /** The second part of `split(sep)` is the text after the first `sep` up to the next one. */
  lemma {:induction false} SecondPart(s: string, sep: string)
    requires sep != [] && Contains(s, sep)
    ensures |Split(s, sep)| >= 2
    ensures Split(s, sep)[1] == Before(s[IndexOf(s, sep, 0).value + |sep|..], sep)
  {
    var i := IndexOf(s, sep, 0).value;
    assert Split(s, sep) == [s[..i]] + Split(s[i + |sep|..], sep);
  }

  /** The answer after a `Finish[` is a `]`-free prefix that ends at the end, at a `]` or at the next `Finish[`. */
  lemma {:induction false} AnswerEnds(rest: string)
    ensures var a := Before(Before(rest, "Finish["), "]");
      StartsWith(rest, a)
      && (|a| == |rest| || rest[|a|] == ']' || OccursAt(rest, "Finish[", |a|))
  {
    var inner := Before(rest, "Finish[");
    BeforeIs(rest, "Finish[");
    BeforeIs(inner, "]");
    var a := Before(inner, "]");
    if |a| < |inner| {
      var i := IndexOf(inner, "]", 0).value;
      assert inner[i..i + 1] == "]";
      assert rest[|a|] == inner[i];
    }
  }

  /** A match of `Action:\s*(\w+)\((.*)\)`: the tool name and the argument text. */
  datatype Call = Call(name: string, args: string)

  /** The end of the line that position `i` is on: the next newline, or the end. */
  function LineEnd(s: string, i: nat): (r: nat)
    requires i <= |s|
    ensures i <= r <= |s| && forall j :: i <= j < r ==> s[j] != '\n'
    ensures r < |s| ==> s[r] == '\n'
  {
    match IndexOf(s, "\n", i)
    case None =>
      forall j | i <= j < |s| ensures s[j] != '\n' {
        assert !OccursAt(s, "\n", j);
        assert s[j..j + 1] == [s[j]];
      }
      |s|
    case Some(j) =>
      forall k | i <= k < j ensures s[k] != '\n' {
        assert !OccursAt(s, "\n", k);
        assert s[k..k + 1] == [s[k]];
      }
      assert s[j..j + 1] == "\n";
      j
  }

  /**
   * The pattern after `Action:` at `k0`: `\s*` has to take all the whitespace and
   * `\w+` all the word characters (neither may stop early, since the next
   * character could then not match), then `(`; the greedy `(.*)`, which does not
   * cross a newline, ends at the last `)` of that line.
   */
  function CallAt(s: string, k0: nat): (r: Option<Call>)
    requires k0 <= |s|
    ensures r.Some? ==> r.value.name != [] && forall j :: 0 <= j < |r.value.name| ==> IsWordChar(r.value.name[j])
    ensures r.Some? ==> forall j :: 0 <= j < |r.value.args| ==> r.value.args[j] != '\n'
    ensures r.Some? ==> CallShape(s, SkipSpaces(s, k0), r.value)
  {
    var k := SkipSpaces(s, k0);
    var n := WordEnd(s, k);
    if n == k || n == |s| || s[n] != '(' then None
    else
      var end := LineEnd(s, n + 1);
      match LastIndexOf(s[..end], ')', n + 1)
      case None => None
      case Some(e) =>
        var name := s[k..n];
        var args := s[n + 1..e];
        assert forall j :: 0 <= j < |name| ==> name[j] == s[k + j];
        assert forall j :: 0 <= j < |args| ==> args[j] == s[n + 1 + j];
        CallShapeOf(s, k, n, end, e);
        Some(Call(name, args))
  }

  /**
   * At `k` the text reads `name(args)`, and no `)` comes after that one on the
   * line where the arguments start: the arguments end at the line's last `)`.
   */
  ghost predicate CallShape(s: string, k: nat, c: Call)
    requires k <= |s|
  {
    var a := k + |c.name| + 1;
    StartsWith(s[k..], c.name + "(" + c.args + ")")
    && forall j :: a + |c.args| < j < LineEnd(s, a) ==> s[j] != ')'
  }

  lemma {:induction false} CallShapeOf(s: string, k: nat, n: nat, end: nat, e: nat)
    requires k < n < e < end <= |s| && s[n] == '(' && s[e] == ')'
    requires end == LineEnd(s, n + 1)
    requires forall j :: e < j < end ==> s[j] != ')'
    ensures CallShape(s, k, Call(s[k..n], s[n + 1..e]))
  {
    var name := s[k..n];
    var args := s[n + 1..e];
    assert s[k..][..|name| + |args| + 2] == s[k..e + 1];
    assert s[k..e + 1] == name + "(" + args + ")";
  }

  /**
   * The pattern matches after `Action:` whenever it can: a run of word characters
   * after the whitespace, then `(`, and a `)` later on the same line.
   */
  lemma {:induction false} CallAtFound(s: string, k0: nat, n: nat, e: nat)
    requires k0 <= |s| && SkipSpaces(s, k0) < n < e < |s|
    requires forall j :: SkipSpaces(s, k0) <= j < n ==> IsWordChar(s[j])
    requires s[n] == '(' && s[e] == ')' && forall j :: n < j < e ==> s[j] != '\n'
    ensures CallAt(s, k0).Some?
  {
    var k := SkipSpaces(s, k0);
    WordEndIs(s, k, n);
    var end := LineEnd(s, n + 1);
    assert e < end;
    assert s[..end][e] == ')';
  }

  /**
   * `re.search` for a pattern that starts with `Action:`: the leftmost match, found
   * by trying the rest of the pattern (`rest`, given the position after the marker)
   * at each `Action:` from `from` on.
   */
  function SearchFrom<T>(s: string, from: nat, rest: nat -> Option<T>): Option<T>
    decreases |s| - from
  {
    match IndexOf(s, "Action:", from)
    case None => None
    case Some(q) =>
      if rest(q + 7).Some? then rest(q + 7) else SearchFrom(s, q + 1, rest)
  }

  /** What the search finds is what the rest of the pattern gives after some `Action:`. */
  lemma {:induction false} SearchFound<T>(s: string, from: nat, rest: nat -> Option<T>) returns (q: nat)
    requires SearchFrom(s, from, rest).Some?
    ensures from <= q && OccursAt(s, "Action:", q) && rest(q + 7) == SearchFrom(s, from, rest)
    decreases |s| - from
  {
    var p := IndexOf(s, "Action:", from).value;
    if rest(p + 7).Some? {
      q := p;
    } else {
      q := SearchFound(s, p + 1, rest);
    }
  }

  /** The search finds nothing only when the rest of the pattern fails after every `Action:`. */
  lemma {:induction false} SearchMissed<T>(s: string, from: nat, rest: nat -> Option<T>, q: nat)
    requires SearchFrom(s, from, rest).None? && from <= q && OccursAt(s, "Action:", q)
    ensures rest(q + 7).None?
    decreases |s| - from
  {
    var p := IndexOf(s, "Action:", from).value;
    if p < q {
      SearchMissed(s, p + 1, rest, q);
    }
  }

  /** The search finds the match after the first `Action:` where the rest of the pattern matches. */
  lemma {:induction false} SearchLeftmost<T>(s: string, from: nat, rest: nat -> Option<T>, q: nat)
    requires from <= q && OccursAt(s, "Action:", q) && rest(q + 7).Some?
    requires forall p: nat :: from <= p < q && OccursAt(s, "Action:", p) ==> rest(p + 7).None?
    ensures SearchFrom(s, from, rest) == rest(q + 7)
    decreases |s| - from
  {
    var p := IndexOf(s, "Action:", from).value;
    if p < q {
      assert rest(p + 7).None?;
      SearchLeftmost(s, p + 1, rest, q);
    }
  }

  /** The pattern after `Action:` at position `k`, where there is text left to read. */
  function CallAfter(s: string): nat -> Option<Call> {
    (k: nat) => if k <= |s| then CallAt(s, k) else None
  }

  /** Line 155: `re.search(r'Action:\s*(\w+)\((.*)\)', s)`. */
  function ActionCall(s: string): (r: Option<Call>)
    ensures !Contains(s, "Action:") ==> r.None?
  {
    SearchFrom(s, 0, CallAfter(s))
  }

  /** A call found in the output is the one read after some `Action:`. */
  lemma {:induction false} ActionCallFound(s: string) returns (q: nat)
    requires ActionCall(s).Some?
    ensures OccursAt(s, "Action:", q) && CallAt(s, q + 7) == ActionCall(s)
  {
    q := SearchFound(s, 0, CallAfter(s));
  }

  /** No call is found only when no `Action:` has one after it. */
  lemma {:induction false} ActionCallMissed(s: string, q: nat)
    requires ActionCall(s).None? && OccursAt(s, "Action:", q)
    ensures CallAt(s, q + 7).None?
  {
    SearchMissed(s, 0, CallAfter(s), q);
  }

  /** The call found is the one after the first `Action:` that has a call after it. */
  lemma {:induction false} ActionCallLeftmost(s: string, q: nat)
    requires OccursAt(s, "Action:", q) && CallAt(s, q + 7).Some?
    requires forall p: nat :: p < q && OccursAt(s, "Action:", p) ==> CallAt(s, p + 7).None?
    ensures ActionCall(s) == CallAt(s, q + 7)
  {
    var rest := CallAfter(s);
    forall p: nat | p < q && OccursAt(s, "Action:", p) ensures rest(p + 7).None? {
      assert CallAt(s, p + 7).None?;
    }
    SearchLeftmost(s, 0, rest, q);
  }

  /** One `key="value"` pair found by `re.findall(r'(\w+)="([^"]*)"', ...)`. */
  datatype Pair = Pair(key: string, value: string)

  /**
   * A match of `(\w+)="([^"]*)"` at the start of `s`, with its length. The key
   * has to be the whole run of word characters; the value runs to the next quote.
   */
  function PairAt(s: string): (r: Option<(Pair, nat)>)
    ensures r.Some? ==> 0 < r.value.1 <= |s|
    ensures r.Some? ==> r.value.1 == |RenderPair(r.value.0)| && StartsWith(s, RenderPair(r.value.0))
  {
    if s == [] || !IsWordChar(s[0]) then None
    else
      var m := WordEnd(s, 0);
      if m + 1 >= |s| || s[m] != '=' || s[m + 1] != '"' then None
      else match IndexOf(s, "\"", m + 2)
        case None => None
        case Some(c) =>
          assert s[..c + 1] == s[..m] + "=\"" + s[m + 2..c] + "\"";
          Some((Pair(s[..m], s[m + 2..c]), c + 1))
  }

  /** `re.findall`: the leftmost match, then the search goes on after it; where none starts, one character on. */
  function FindPairs(s: string): (r: seq<Pair>)
    ensures forall j :: 0 <= j < |r| ==> Contains(s, RenderPair(r[j]))
    decreases |s|
  {
    if s == [] then []
    else match PairAt(s)
      case Some(m) =>
        SuffixContains(s, m.1);
        assert OccursAt(s, RenderPair(m.0), 0);
        [m.0] + FindPairs(s[m.1..])
      case None =>
        SuffixContains(s, 1);
        FindPairs(s[1..])
  }

  /** What occurs in a suffix occurs in the whole text. */
  lemma {:induction false} SuffixContains(s: string, i: nat)
    requires i <= |s|
    ensures forall pat :: Contains(s[i..], pat) ==> Contains(s, pat)
  {
    forall pat | Contains(s[i..], pat) ensures Contains(s, pat) {
      var j := IndexOf(s[i..], pat, 0).value;
      assert s[i..][j..j + |pat|] == s[i + j..i + j + |pat|];
      assert OccursAt(s, pat, i + j);
    }
  }

  /** `dict(pairs)`: every key of the list, a later pair overriding an earlier one. */
  function ToMap(pairs: seq<Pair>): (r: map<string, string>)
    ensures forall j :: 0 <= j < |pairs| ==> pairs[j].key in r
    decreases |pairs|
  {
    if pairs == [] then map[]
    else
      var n := |pairs| - 1;
      var r := ToMap(pairs[..n])[pairs[n].key := pairs[n].value];
      assert forall j :: 0 <= j < n ==> pairs[..n][j] == pairs[j];
      r
  }

  /** Every keyword of the map comes from one of the pairs. */
  lemma {:induction false} ToMapKeys(pairs: seq<Pair>)
    ensures forall k :: k in ToMap(pairs) ==> exists j :: 0 <= j < |pairs| && pairs[j] == Pair(k, ToMap(pairs)[k])
    decreases |pairs|
  {
    if pairs != [] {
      var n := |pairs| - 1;
      ToMapKeys(pairs[..n]);
      forall k | k in ToMap(pairs)
        ensures exists j :: 0 <= j < |pairs| && pairs[j] == Pair(k, ToMap(pairs)[k])
      {
        assert ToMap(pairs) == ToMap(pairs[..n])[pairs[n].key := pairs[n].value];
        if k != pairs[n].key {
          assert k in ToMap(pairs[..n]);
          var j :| 0 <= j < n && pairs[..n][j] == Pair(k, ToMap(pairs[..n])[k]);
          assert pairs[j] == Pair(k, ToMap(pairs)[k]);
        } else {
          assert pairs[n] == Pair(k, ToMap(pairs)[k]);
        }
      }
    }
  }

  /** Line 160: the keyword arguments of a tool call. */
  function Kwargs(args: string): (r: map<string, string>)
    ensures forall k :: k in r ==> Contains(args, RenderPair(Pair(k, r[k])))
  {
    var pairs := FindPairs(args);
    ToMapKeys(pairs);
    ToMap(pairs)
  }

  // ---- Properties ----

  /** A repeated key keeps the value of its last pair. */
  lemma {:induction false} LastPairWins(pairs: seq<Pair>, j: nat)
    requires j < |pairs|
    requires forall i :: j < i < |pairs| ==> pairs[i].key != pairs[j].key
    ensures ToMap(pairs)[pairs[j].key] == pairs[j].value
    decreases |pairs|
  {
    var n := |pairs| - 1;
    var prefix := pairs[..n];
    assert ToMap(pairs) == ToMap(prefix)[pairs[n].key := pairs[n].value];
    if j < n {
      assert prefix[j] == pairs[j];
      forall i | j < i < n
        ensures prefix[i].key != prefix[j].key
      {
        assert prefix[i] == pairs[i];
      }
      LastPairWins(prefix, j);
      assert pairs[n].key != pairs[j].key;
    }
  }

  /** The arguments as the system prompt asks for them: `k1="v1", k2="v2", ...`. */
  function RenderArgs(pairs: seq<Pair>): string
    decreases |pairs|
  {
    if pairs == [] then ""
    else if |pairs| == 1 then RenderPair(pairs[0])
    else RenderPair(pairs[0]) + ", " + RenderArgs(pairs[1..])
  }

  function RenderPair(p: Pair): string {
    p.key + "=\"" + p.value + "\""
  }

  /** A pair is found by `findall` when its key is a word and its value has no quote. */
  predicate Plain(p: Pair) {
    p.key != [] && (forall j :: 0 <= j < |p.key| ==> IsWordChar(p.key[j]))
    && forall j :: 0 <= j < |p.value| ==> p.value[j] != '"'
  }

  /** A rendered pair matches at the start, and the search goes on right after it. */
  lemma {:induction false} PairAtRendered(p: Pair, rest: string)
    requires Plain(p)
    ensures PairAt(RenderPair(p) + rest) == Some((p, |RenderPair(p)|))
  {
    var s := RenderPair(p) + rest;
    var m := |p.key|;
    var tail := p.value + "\"" + rest;
    assert s == p.key + "=\"" + tail;
    assert s[..m] == p.key;
    assert s[m] == '=' && s[m + 1] == '"';
    assert s[m + 2..] == tail;
    PairAtSplit(s, p.key, p.value, rest);
  }

  /** The same, for a text known only through its slices. */
  lemma {:induction false} PairAtSplit(s: string, key: string, value: string, rest: string)
    requires Plain(Pair(key, value))
    requires |key| + 1 < |s| && s[..|key|] == key && s[|key|] == '=' && s[|key| + 1] == '"'
    requires s[|key| + 2..] == value + "\"" + rest
    ensures PairAt(s) == Some((Pair(key, value), |key| + |value| + 3))
  {
    var m := |key|;
    forall j | 0 <= j < m ensures IsWordChar(s[j]) {
      assert s[j] == key[j];
    }
    QuoteAfterValue(s, m + 2, value, rest);
    PairAtIs(s, m, m + 2 + |value|);
  }

  /** Searched from where a quote-free value starts, the first quote is the one that closes it. */
  lemma {:induction false} QuoteAfterValue(s: string, i: nat, value: string, rest: string)
    requires i <= |s| && s[i..] == value + "\"" + rest
    requires forall j :: 0 <= j < |value| ==> value[j] != '"'
    ensures IndexOf(s, "\"", i) == Some(i + |value|) && s[i..i + |value|] == value
  {
    FirstQuote(value, rest);
    IndexOfShift(s, i, "\"");
    assert s[i..i + |value|] == (value + "\"" + rest)[..|value|] == value;
  }

  lemma {:induction false} PairAtIs(s: string, m: nat, c: nat)
    requires 0 < m && m + 1 < |s| && forall j :: 0 <= j < m ==> IsWordChar(s[j])
    requires s[m] == '=' && s[m + 1] == '"'
    requires IndexOf(s, "\"", m + 2) == Some(c)
    ensures PairAt(s) == Some((Pair(s[..m], s[m + 2..c]), c + 1))
  {
    WordEndIs(s, 0, m);
  }

  /** In a value without quotes followed by a quote, the first quote is the one after the value. */
  lemma {:induction false} FirstQuote(value: string, rest: string)
    requires forall j :: 0 <= j < |value| ==> value[j] != '"'
    ensures IndexOf(value + "\"" + rest, "\"", 0) == Some(|value|)
  {
    var t := value + "\"" + rest;
    assert t[|value|..|value| + 1] == "\"";
    forall j | 0 <= j < |value| ensures !OccursAt(t, "\"", j) {
      assert t[j..j + 1] == [value[j]];
    }
    IndexOfIs(t, "\"", 0, |value|);
  }

  /** Searching from `i` is searching the suffix from `i`, with the positions moved by `i`. */
  lemma {:induction false} IndexOfShift(s: string, i: nat, pat: string)
    requires i <= |s| && IndexOf(s[i..], pat, 0).Some?
    ensures IndexOf(s, pat, i) == Some(i + IndexOf(s[i..], pat, 0).value)
  {
    var t := s[i..];
    var k := IndexOf(t, pat, 0).value;
    SliceOfSuffix(s, i, k, k + |pat|);
    forall j | i <= j < i + k ensures !OccursAt(s, pat, j) {
      assert !OccursAt(t, pat, j - i);
      if j + |pat| <= |s| {
        SliceOfSuffix(s, i, j - i, j - i + |pat|);
      }
    }
    IndexOfIs(s, pat, i, i + k);
  }

  /** `findall` reads the rendered arguments back, in order. */
  lemma {:induction false} FindPairsRoundTrip(pairs: seq<Pair>)
    requires forall j :: 0 <= j < |pairs| ==> Plain(pairs[j])
    ensures FindPairs(RenderArgs(pairs)) == pairs
    decreases |pairs|
  {
    if pairs != [] {
      var p := pairs[0];
      if |pairs| == 1 {
        PairAtRendered(p, "");
        assert RenderPair(p) + "" == RenderPair(p);
        assert RenderPair(p)[|RenderPair(p)|..] == [];
      } else {
        var tail := RenderArgs(pairs[1..]);
        var s := RenderPair(p) + (", " + tail);
        assert RenderArgs(pairs) == s;
        PairAtRendered(p, ", " + tail);
        assert s[|RenderPair(p)|..] == ", " + tail;
        SeparatorSkipped(tail);
        FindPairsRoundTrip(pairs[1..]);
      }
    }
  }

  /** The `, ` between two pairs starts no match. */
  lemma {:induction false} SeparatorSkipped(tail: string)
    ensures FindPairs(", " + tail) == FindPairs(tail)
  {
    var s := ", " + tail;
    assert !IsWordChar(s[0]) && s[1..] == " " + tail;
    assert !IsWordChar((" " + tail)[0]) && (" " + tail)[1..] == tail;
  }

  /** A turn in the described format with a word-named call reads back as that call. */
  lemma {:induction false} ActionCallRoundTrip(thought: string, name: string, args: string)
    requires !Contains(thought, "Action:")
    requires name != [] && forall j :: 0 <= j < |name| ==> IsWordChar(name[j])
    requires forall j :: 0 <= j < |args| ==> args[j] != '\n'
    ensures ActionCall(RenderTurn(thought, name + "(" + args + ")")) == Some(Call(name, args))
  {
    var action := name + "(" + args + ")";
    var pre := "Thought: " + thought + "\nAction:";
    var s := RenderTurn(thought, action);
    assert s == pre + " " + name + "(" + args + ")";
    FirstActionIsMarker(thought, action);
    assert s[|pre|..] == " " + name + "(" + args + ")";
    CallAtRendered(s, |pre|, name, args);
    FirstCallMatches(s, |thought| + 10, Call(name, args));
  }

  /** The search stops at the first `Action:` when the pattern matches after it. */
  lemma {:induction false} FirstCallMatches(s: string, q: nat, c: Call)
    requires IndexOf(s, "Action:", 0) == Some(q) && q + 7 <= |s| && CallAt(s, q + 7) == Some(c)
    ensures ActionCall(s) == Some(c)
  {
    assert CallAfter(s)(q + 7) == Some(c);
  }

  /** After `Action:`, a space and `name(args)` at the end of the text match as that call. */
  lemma {:induction false} CallAtRendered(s: string, i: nat, name: string, args: string)
    requires name != [] && forall j :: 0 <= j < |name| ==> IsWordChar(name[j])
    requires forall j :: 0 <= j < |args| ==> args[j] != '\n'
    requires i < |s| && s[i..] == " " + name + "(" + args + ")"
    ensures CallAt(s, i) == Some(Call(name, args))
  {
    var n := i + 1 + |name|;
    RenderedCallParts(s, i, name, args);
    CallAtIs(s, i, i + 1, n);
  }

  /** Where the parts of a rendered ` name(args)` lie in the text. */
  lemma {:induction false} RenderedCallParts(s: string, i: nat, name: string, args: string)
    requires name != [] && forall j :: 0 <= j < |name| ==> IsWordChar(name[j])
    requires forall j :: 0 <= j < |args| ==> args[j] != '\n'
    requires i < |s| && s[i..] == " " + name + "(" + args + ")"
    ensures SkipSpaces(s, i) == i + 1 && WordEnd(s, i + 1) == i + 1 + |name|
    ensures i + 2 + |name| < |s| && s[i + 1 + |name|] == '(' && s[|s| - 1] == ')'
    ensures LineEnd(s, i + 2 + |name|) == |s|
    ensures s[i + 1..i + 1 + |name|] == name && s[i + 2 + |name|..|s| - 1] == args
  {
    var n := i + 1 + |name|;
    var tail := "(" + args + ")";
    assert s[i..] == " " + name + tail;
    NameAfterSpace(s, i, name, tail);
    assert s[n..] == s[i..][1 + |name|..] == tail;
    ArgsToEnd(s, n, args);
  }

  /** After a space, a word-character name and a text that starts with no word character. */
  lemma {:induction false} NameAfterSpace(s: string, i: nat, name: string, rest: string)
    requires name != [] && forall j :: 0 <= j < |name| ==> IsWordChar(name[j])
    requires rest != [] && !IsWordChar(rest[0])
    requires i < |s| && s[i..] == " " + name + rest
    ensures SkipSpaces(s, i) == i + 1 && WordEnd(s, i + 1) == i + 1 + |name|
    ensures s[i + 1..i + 1 + |name|] == name
  {
    var k := i + 1;
    var n := k + |name|;
    var t := " " + name + rest;
    assert s[i] == t[0] == ' ';
    assert s[k] == t[1] == name[0];
    assert s[n] == t[1 + |name|] == rest[0];
    SliceOfSuffix(s, i, 1, 1 + |name|);
    assert t[1..1 + |name|] == name;
    assert SkipSpaces(s, i) == k;
    NameRun(s, k, name);
  }

  /** A word-character name in the text, followed by no word character, is one whole run. */
  lemma {:induction false} NameRun(s: string, k: nat, name: string)
    requires forall j :: 0 <= j < |name| ==> IsWordChar(name[j])
    requires k + |name| < |s| && s[k..k + |name|] == name && !IsWordChar(s[k + |name|])
    ensures WordEnd(s, k) == k + |name|
  {
    forall j | k <= j < k + |name| ensures IsWordChar(s[j]) {
      assert s[j] == s[k..k + |name|][j - k];
    }
    WordEndIs(s, k, k + |name|);
  }

  /** A slice of a suffix is the slice of the whole text moved by where the suffix starts. */
  lemma {:induction false} SliceOfSuffix(s: string, i: nat, a: nat, b: nat)
    requires i <= |s| && a <= b <= |s| - i
    ensures s[i + a..i + b] == s[i..][a..b]
  {
  }

  /** `(args)` at the end of the text, with no newline in `args`, closes the line at the end. */
  lemma {:induction false} ArgsToEnd(s: string, n: nat, args: string)
    requires forall j :: 0 <= j < |args| ==> args[j] != '\n'
    requires n <= |s| && s[n..] == "(" + args + ")"
    ensures n + 1 < |s| && s[n] == '(' && s[|s| - 1] == ')'
    ensures LineEnd(s, n + 1) == |s| && s[n + 1..|s| - 1] == args
  {
    var t := "(" + args + ")";
    assert forall j :: 0 <= j < |t| ==> s[n + j] == t[j];
    assert forall j :: n + 1 <= j < |s| - 1 ==> s[j] == t[j - n] == args[j - n - 1];
    assert s[|s| - 1] == t[|t| - 1] == ')';
    assert s[n] == t[0];
    assert s[n + 1..|s| - 1] == t[1..|t| - 1] == args;
  }

  /** The call the pattern reads when the name ends at `n` and the text at the line's last `)`. */
  lemma {:induction false} CallAtIs(s: string, k0: nat, k: nat, n: nat)
    requires k0 <= k < n && n + 1 < |s|
    requires SkipSpaces(s, k0) == k && WordEnd(s, k) == n && s[n] == '('
    requires LineEnd(s, n + 1) == |s| && s[|s| - 1] == ')'
    ensures CallAt(s, k0) == Some(Call(s[k..n], s[n + 1..|s| - 1]))
  {
    assert s[..|s|] == s;
    assert LastIndexOf(s, ')', n + 1) == Some(|s| - 1);
  }

  /** `Finish[answer]` gives back the answer when nothing before it and nothing in it holds a bracket. */
  lemma {:induction false} FinalAnswerRoundTrip(prefix: string, answer: string, rest: string)
    requires forall j :: 0 <= j < |prefix| ==> prefix[j] != '['
    requires forall j :: 0 <= j < |answer| ==> answer[j] != '[' && answer[j] != ']'
    ensures FinalAnswer(prefix + "Finish[" + answer + "]" + rest) == Some(answer)
  {
    var s := prefix + "Finish[" + answer + "]" + rest;
    var after := answer + "]" + rest;
    assert s == prefix + "Finish[" + after;
    assert s[|prefix|..|prefix| + 7] == "Finish[";
    forall j | 0 <= j < |prefix| ensures !OccursAt(s, "Finish[", j) {
      if j + 7 <= |s| {
        assert s[j..j + 7][6] == s[j + 6];
        if j + 6 < |prefix| {
          assert s[j + 6] == prefix[j + 6];
        } else {
          assert s[j + 6] == "Finish["[j + 6 - |prefix|];
        }
      }
    }
    IndexOfIs(s, "Finish[", 0, |prefix|);
    assert s[..|prefix|] == prefix && s[|prefix| + 7..] == after;
    assert Split(s, "Finish[") == [prefix] + Split(after, "Finish[");
    var first := Split(after, "Finish[")[0];
    BeforeIs(after, "Finish[");
    AnswerBeforeBracket(answer, rest);
  }

  /** Cut at the next `Finish[` and then at the next `]`, the text after the marker is the answer. */
  lemma {:induction false} AnswerBeforeBracket(answer: string, rest: string)
    requires forall j :: 0 <= j < |answer| ==> answer[j] != '[' && answer[j] != ']'
    ensures var after := answer + "]" + rest;
      Before(match IndexOf(after, "Finish[", 0) case Some(i) => after[..i] case None => after, "]") == answer
  {
    var after := answer + "]" + rest;
    var n := |answer|;
    var first := match IndexOf(after, "Finish[", 0) case Some(i) => after[..i] case None => after;
    if IndexOf(after, "Finish[", 0).Some? {
      NoMarkerInAnswer(answer, rest, IndexOf(after, "Finish[", 0).value);
    }
    CutAtBracket(answer, first);
  }

  lemma {:induction false} FinishChars()
    ensures forall k :: 0 <= k < 7 ==> "Finish["[k] != ']'
  {
    var m := "Finish[";
    assert m[0] == 'F' && m[1] == 'i' && m[2] == 'n' && m[3] == 'i' && m[4] == 's' && m[5] == 'h' && m[6] == '[';
  }

  /** A `Finish[` after `answer]` cannot start inside the answer or at its bracket. */
  lemma {:induction false} NoMarkerInAnswer(answer: string, rest: string, i: nat)
    requires forall j :: 0 <= j < |answer| ==> answer[j] != '[' && answer[j] != ']'
    requires OccursAt(answer + "]" + rest, "Finish[", i)
    ensures i > |answer|
  {
    var after := answer + "]" + rest;
    var n := |answer|;
    forall j | i <= j < i + 7 ensures after[j] == "Finish["[j - i] {
      assert after[i..i + 7][j - i] == after[j];
    }
    FinishChars();
    assert after[n] == ']' && "Finish["[6] == '[';
  }

  /** A text that starts with the answer and a bracket is cut back to the answer. */
  lemma {:induction false} CutAtBracket(answer: string, first: string)
    requires forall j :: 0 <= j < |answer| ==> answer[j] != ']'
    requires |answer| < |first| && first[..|answer| + 1] == answer + "]"
    ensures Before(first, "]") == answer
  {
    var n := |answer|;
    assert first[n..n + 1] == first[..n + 1][n..n + 1];
    forall j | 0 <= j < n ensures !OccursAt(first, "]", j) {
      assert first[j] == first[..n + 1][j] == answer[j];
      assert first[j..j + 1] == [first[j]];
    }
    IndexOfIs(first, "]", 0, n);
    BeforeIs(first, "]");
    assert first[..n] == first[..n + 1][..n];
  }
}
