/**
 * The chat route's relay of the streamed completion: every chunk whose
 * content is a non-empty string is forwarded, in arrival order, one output
 * per such chunk; all other chunks are dropped.
 */
module StreamRelay {
  import opened Results
  import opened Js

  /** The partial message of a streamed choice; its `content` may be missing or null. */
  datatype Delta = Delta(content: Option<string>)

  /** One choice of a streamed chunk; its `delta` may be missing. */
  datatype Choice = Choice(delta: Option<Delta>)

  /** One chunk of the completion stream. */
  datatype Chunk = Chunk(choices: seq<Choice>)

  /** `chunk.choices[0]?.delta?.content`. */
  function ContentOf(chunk: Chunk): (r: Option<string>)
    ensures r.Some? <==> |chunk.choices| > 0 && chunk.choices[0].delta.Some? && chunk.choices[0].delta.value.content.Some?
    ensures r.Some? ==> r.value == chunk.choices[0].delta.value.content.value
  {
    if |chunk.choices| == 0 then None
    else match chunk.choices[0].delta
      case None => None
      case Some(delta) => delta.content
  }

  /** Whether the relay forwards this chunk: its content is present and non-empty (truthy). */
  predicate Forwards(chunk: Chunk)
    ensures Forwards(chunk) <==>
              |chunk.choices| > 0 && chunk.choices[0].delta.Some? &&
              chunk.choices[0].delta.value.content.Some? && chunk.choices[0].delta.value.content.value != ""
  {
    ContentOf(chunk).Some? && ContentOf(chunk).value != ""
  }

  /** The texts the relay forwards for a stream of chunks, in arrival order. */
  function Forwarded(chunks: seq<Chunk>): (out: seq<string>)
    ensures |out| <= |chunks|
    ensures forall i | 0 <= i < |out| :: out[i] != ""
    decreases |chunks|
  {
    if |chunks| == 0 then []
    else
      var last := chunks[|chunks| - 1];
      Forwarded(chunks[..|chunks| - 1]) + (if Forwards(last) then [ContentOf(last).value] else [])
  }

  /**
   * Consumes the chunks one at a time and forwards each one whose content is
   * truthy; what it sends is exactly `Forwarded(chunks)`.
   */
  method Relay(chunks: seq<Chunk>) returns (sent: seq<string>)
    ensures sent == Forwarded(chunks)
  {
    sent := [];
    for i := 0 to |chunks|
      invariant sent == Forwarded(chunks[..i])
    {
      assert chunks[..i + 1][..i] == chunks[..i];
      var content := ContentOf(chunks[i]);
      if content.Some? && content.value != "" {
        sent := sent + [content.value];
      }
    }
    assert chunks[..|chunks|] == chunks;
  }

  /** Relaying two stretches of the stream sends the first stretch's texts, then the second's. */
  lemma {:induction false} ForwardedAppend(xs: seq<Chunk>, ys: seq<Chunk>)
    ensures Forwarded(xs + ys) == Forwarded(xs) + Forwarded(ys)
    decreases |ys|
  {
    if |ys| == 0 {
      assert xs + ys == xs;
    } else {
      var ys' := ys[..|ys| - 1];
      assert (xs + ys)[..|xs + ys| - 1] == xs + ys';
      ForwardedAppend(xs, ys');
    }
  }

  /** A single chunk is forwarded as itself exactly when its content is truthy, and dropped otherwise. */
  lemma ForwardedOne(chunk: Chunk)
    ensures Forwarded([chunk]) == if Forwards(chunk) then [ContentOf(chunk).value] else []
  {
    assert [chunk][..0] == [];
  }

  /** A chunk's text, or the empty string when it has none. */
  function TextOf(chunk: Chunk): string {
    if ContentOf(chunk).Some? then ContentOf(chunk).value else ""
  }

  /** The texts of all chunks, in order, dropped ones included as empty strings. */
  function AllTexts(chunks: seq<Chunk>): (r: seq<string>)
    ensures |r| == |chunks|
  {
    seq(|chunks|, i requires 0 <= i < |chunks| => TextOf(chunks[i]))
  }

  /**
   * Dropping chunks loses no text: the forwarded texts concatenate to the
   * concatenation of every chunk's content.
   */
  lemma {:induction false} ForwardedKeepsAllText(chunks: seq<Chunk>)
    ensures Concat(Forwarded(chunks)) == Concat(AllTexts(chunks))
    decreases |chunks|
  {
    if |chunks| > 0 {
      var init, last := chunks[..|chunks| - 1], chunks[|chunks| - 1];
      ForwardedKeepsAllText(init);
      assert AllTexts(chunks) == AllTexts(init) + [TextOf(last)];
      var tail := if Forwards(last) then [ContentOf(last).value] else [];
      ConcatAppend(Forwarded(init), tail);
      assert [TextOf(last)][..0] == [];
      if !Forwards(last) {
        assert Concat(Forwarded(init)) + "" == Concat(Forwarded(init));
        assert Concat(AllTexts(init)) + "" == Concat(AllTexts(init));
      } else {
        assert tail[..0] == [];
      }
    }
  }

  /** When every chunk has truthy content, the relay forwards every chunk's text, one for one. */
  lemma {:induction false} ForwardedAllTruthy(chunks: seq<Chunk>)
    requires forall i | 0 <= i < |chunks| :: Forwards(chunks[i])
    ensures Forwarded(chunks) == AllTexts(chunks)
    decreases |chunks|
  {
    if |chunks| > 0 {
      var init := chunks[..|chunks| - 1];
      ForwardedAllTruthy(init);
      assert AllTexts(chunks) == AllTexts(init) + [TextOf(chunks[|chunks| - 1])];
    }
  }
}
