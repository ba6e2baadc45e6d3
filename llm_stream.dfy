/**
 * How `HelloAgentsLLM.think` turns a streamed chat completion into one reply
 * (the_chapter_4/LLMClient.py:31-89). The network call is not modelled: the
 * stream is given as a sequence of chunks, and an exception raised by the call
 * or while reading the stream is a `Fault` chunk at the point where it happens.
 */
module LlmStream {
  import opened Wrappers
  import opened Text

  /** The first choice's delta: an optional content piece and an optional refusal. */
  datatype Delta = Delta(content: Option<string>, refusal: Option<string>)

  /** One item of the stream: a chunk without choices, a chunk with a first choice, or an exception. */
  datatype Chunk = NoChoices | Choice(delta: Delta) | Fault

  /** What reading a stream amounts to. */
  datatype Reply = Completed(text: string) | Refused(reason: string) | Broken

  /** Python's truthiness of an optional string: present and non-empty. */
  predicate Truthy(s: Option<string>) {
    s.Some? && s.value != []
  }

  /** Put text in front of a completed reply; a refusal or a failure is unaffected. */
  function Extend(p: string, r: Reply): Reply {
    if r.Completed? then Completed(p + r.text) else r
  }

  /**
   * The reply a stream amounts to. Content pieces are concatenated in order; the
   * first non-empty refusal ends the stream and is the reply, even when content
   * came before it; an exception ends it with no reply.
   */
  function Collect(chunks: seq<Chunk>): Reply
    decreases |chunks|
  {
    if chunks == [] then Completed("")
    else match chunks[0]
      case NoChoices => Collect(chunks[1..])
      case Fault => Broken
      case Choice(d) =>
        if Truthy(d.refusal) then Refused(d.refusal.value)
        else Extend(if Truthy(d.content) then d.content.value else "", Collect(chunks[1..]))
  }

  /** `think`'s return value: the text or the refusal, and None after an exception. */
  function Outcome(r: Reply): Option<string> {
    match r
    case Completed(t) => Some(t)
    case Refused(x) => Some(x)
    case Broken => None
  }

  lemma {:induction false} ExtendExtend(a: string, b: string, r: Reply)
    ensures Extend(a, Extend(b, r)) == Extend(a + b, r)
  {
    if r.Completed? {
      assert a + (b + r.text) == a + b + r.text;
    }
  }

  /** The loop of `think`: collect content pieces, stop at a refusal, give None on an exception. */
  method Think(response: seq<Chunk>) returns (r: Option<string>)
    ensures r == Outcome(Collect(response))
  {
    var collected: seq<string> := [];
    for i := 0 to |response|
      invariant Collect(response) == Extend(Join(collected, ""), Collect(response[i..]))
    {
      assert response[i..][1..] == response[i + 1..];
      var chunk := response[i];
      if chunk.Fault? {
        return None;
      }
      if chunk.NoChoices? {
        continue;
      }
      var delta := chunk.delta;
      if Truthy(delta.refusal) {
        return delta.refusal;
      }
      if Truthy(delta.content) {
        JoinSnoc(collected, delta.content.value, "");
        ExtendExtend(Join(collected, ""), delta.content.value, Collect(response[i + 1..]));
        if collected == [] {
          assert Join(collected, "") + delta.content.value == delta.content.value;
        } else {
          assert Join(collected, "") + "" + delta.content.value == Join(collected, "") + delta.content.value;
        }
        collected := collected + [delta.content.value];
      } else {
        assert Extend("", Collect(response[i + 1..])) == Collect(response[i + 1..]) by {
          var rest := Collect(response[i + 1..]);
          if rest.Completed? { assert "" + rest.text == rest.text; }
        }
      }
    }
    assert Collect(response[|response|..]) == Completed("");
    assert Join(collected, "") + "" == Join(collected, "");
    r := Some(Join(collected, ""));
  }

  /** Every content piece of the stream, in order (the reference for a clean stream). */
  function Contents(chunks: seq<Chunk>): string {
    if chunks == [] then ""
    else if chunks[0].Choice? && chunks[0].delta.content.Some? then chunks[0].delta.content.value + Contents(chunks[1..])
    else Contents(chunks[1..])
  }

  /** A stream without exceptions and without refusals. */
  predicate Clean(chunks: seq<Chunk>) {
    forall i :: 0 <= i < |chunks| ==> !chunks[i].Fault? && !(chunks[i].Choice? && Truthy(chunks[i].delta.refusal))
  }

  /** A clean stream amounts to all of its content, concatenated in order. */
  lemma {:induction false} CleanIsContents(chunks: seq<Chunk>)
    requires Clean(chunks)
    ensures Collect(chunks) == Completed(Contents(chunks))
    decreases |chunks|
  {
    if chunks != [] {
      assert Clean(chunks[1..]) by {
        forall i | 0 <= i < |chunks| - 1 ensures !chunks[1..][i].Fault? {
          assert chunks[1..][i] == chunks[i + 1];
        }
        forall i | 0 <= i < |chunks| - 1 ensures !(chunks[1..][i].Choice? && Truthy(chunks[1..][i].delta.refusal)) {
          assert chunks[1..][i] == chunks[i + 1];
        }
      }
      CleanIsContents(chunks[1..]);
      assert !chunks[0].Fault?;
      if chunks[0].Choice? && chunks[0].delta.content.Some? && chunks[0].delta.content.value == [] {
        assert chunks[0].delta.content.value + Contents(chunks[1..]) == Contents(chunks[1..]);
      }
    }
  }

  /**
   * Reading a stream in two parts: once the first part has ended in a refusal or an
   * exception, nothing after it matters; otherwise its text is put in front of the rest.
   */
  lemma {:induction false} CollectAppend(a: seq<Chunk>, b: seq<Chunk>)
    ensures Collect(a + b) == if Collect(a).Completed? then Extend(Collect(a).text, Collect(b)) else Collect(a)
    decreases |a|
  {
    if a == [] {
      assert a + b == b;
      var r := Collect(b);
      if r.Completed? { assert "" + r.text == r.text; }
    } else {
      assert (a + b)[0] == a[0];
      assert (a + b)[1..] == a[1..] + b;
      CollectAppend(a[1..], b);
      if a[0].Choice? && !Truthy(a[0].delta.refusal) {
        var p := if Truthy(a[0].delta.content) then a[0].delta.content.value else "";
        var ra := Collect(a[1..]);
        if ra.Completed? {
          ExtendExtend(p, ra.text, Collect(b));
        }
      }
    }
  }

  /** A refusal is returned as soon as it arrives: the chunks after it are never looked at. */
  lemma {:induction false} RefusalEndsStream(before: seq<Chunk>, d: Delta, after: seq<Chunk>)
    requires Clean(before) && Truthy(d.refusal)
    ensures Outcome(Collect(before + [Choice(d)] + after)) == d.refusal
  {
    CleanIsContents(before);
    CollectAppend(before, [Choice(d)] + after);
    assert before + [Choice(d)] + after == before + ([Choice(d)] + after);
  }

  /** An exception while streaming makes `think` return None, whatever content came before. */
  lemma {:induction false} FaultEndsStream(before: seq<Chunk>, after: seq<Chunk>)
    requires Clean(before)
    ensures Outcome(Collect(before + [Fault] + after)) == None
  {
    CleanIsContents(before);
    CollectAppend(before, [Fault] + after);
    assert before + [Fault] + after == before + ([Fault] + after);
  }
}
