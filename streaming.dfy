/**
 * The streamed response: the chunks the chain yields, the text they add up to,
 * and the visible updates of the outgoing message while they arrive.
 */
module Streaming {
  import opened Wrappers

  /** A chunk of `chain.astream(inputs)`: only `AIMessageChunk`s carry reply text. */
  datatype Chunk = AIMessageChunk(content: string) | OtherChunk

  /** What the outgoing-message sink records: a message sent, or its content updated. */
  datatype Event = Sent(id: nat, content: string) | Updated(id: nat, content: string)

  /** The texts of the `AIMessageChunk`s, in arrival order: at most one per chunk. */
  function Fragments(chunks: seq<Chunk>): (r: seq<string>)
    ensures |r| <= |chunks|
  {
    if chunks == [] then []
    else
      var last := chunks[|chunks| - 1];
      Fragments(chunks[..|chunks| - 1]) + (if last.AIMessageChunk? then [last.content] else [])
  }

  function Concat(fragments: seq<string>): string {
    if fragments == [] then "" else Concat(fragments[..|fragments| - 1]) + fragments[|fragments| - 1]
  }

  /** The accumulated reply text after the given chunks: empty when no AI chunk arrived. */
  function StreamedText(chunks: seq<Chunk>): (r: string)
    ensures Fragments(chunks) == [] ==> r == ""
  {
    Concat(Fragments(chunks))
  }

  /** The update recorded after each `AIMessageChunk`, carrying the running text: one per fragment. */
  function StreamUpdates(id: nat, chunks: seq<Chunk>): (r: seq<Event>)
    ensures |r| == |Fragments(chunks)|
  {
    if chunks == [] then []
    else
      StreamUpdates(id, chunks[..|chunks| - 1])
      + (if chunks[|chunks| - 1].AIMessageChunk? then [Updated(id, StreamedText(chunks))] else [])
  }

  /** The content a message shows after the given events, if it was sent. */
  function VisibleContent(events: seq<Event>, id: nat): Option<string> {
    if events == [] then None
    else if events[|events| - 1].id == id then Some(events[|events| - 1].content)
    else VisibleContent(events[..|events| - 1], id)
  }

  lemma {:induction false} FragmentsAppend(a: seq<Chunk>, b: seq<Chunk>)
    ensures Fragments(a + b) == Fragments(a) + Fragments(b)
    decreases |b|
  {
    if b != [] {
      assert (a + b)[..|a + b| - 1] == a + b[..|b| - 1];
      FragmentsAppend(a, b[..|b| - 1]);
    } else {
      assert a + b == a;
    }
  }

  lemma {:induction false} ConcatAppend(a: seq<string>, b: seq<string>)
    ensures Concat(a + b) == Concat(a) + Concat(b)
    decreases |b|
  {
    if b != [] {
      assert (a + b)[..|a + b| - 1] == a + b[..|b| - 1];
      ConcatAppend(a, b[..|b| - 1]);
    } else {
      assert a + b == a;
    }
  }

  /**
   * The reply text is the concatenation, in arrival order, of the texts of the
   * `AIMessageChunk`s; every other chunk contributes nothing.
   */
  lemma StreamedTextAppend(a: seq<Chunk>, b: seq<Chunk>)
    ensures StreamedText(a + b) == StreamedText(a) + StreamedText(b)
  {
    FragmentsAppend(a, b);
    ConcatAppend(Fragments(a), Fragments(b));
  }

  /** One more chunk: an `AIMessageChunk` adds its text and one update, any other chunk nothing. */
  lemma StreamStep(id: nat, chunks: seq<Chunk>, c: Chunk)
    ensures StreamedText(chunks + [c]) == StreamedText(chunks) + (if c.AIMessageChunk? then c.content else "")
    ensures StreamUpdates(id, chunks + [c]) == StreamUpdates(id, chunks) +
              (if c.AIMessageChunk? then [Updated(id, StreamedText(chunks + [c]))] else [])
  {
    var cs := chunks + [c];
    assert cs[..|cs| - 1] == chunks;
    var f := Fragments(chunks);
    if c.AIMessageChunk? {
      assert (f + [c.content])[..|f|] == f;
    } else {
      assert Fragments(cs) == f + [] == f;
    }
  }

  lemma StreamedTextOfOne(t: string)
    ensures StreamedText([AIMessageChunk(t)]) == t
    ensures StreamedText([OtherChunk]) == ""
  {
    assert [AIMessageChunk(t)][..0] == [] && [OtherChunk][..0] == [];
    assert Fragments([AIMessageChunk(t)]) == [t] && [t][..0] == [];
    assert Concat([t]) == Concat([]) + t == t;
  }

  lemma {:induction false} ConcatPrefix(fragments: seq<string>, n: nat)
    requires n <= |fragments|
    ensures Concat(fragments[..n]) <= Concat(fragments)
    decreases |fragments|
  {
    if n < |fragments| {
      var init := fragments[..|fragments| - 1];
      assert fragments[..n] == init[..n];
      ConcatPrefix(init, n);
    } else {
      assert fragments[..n] == fragments;
    }
  }

  /**
   * One update per `AIMessageChunk`; the k-th update shows the first k+1
   * fragments joined, so each update extends the one before.
   */
  lemma {:induction false} StreamUpdatesAt(id: nat, chunks: seq<Chunk>)
    ensures |StreamUpdates(id, chunks)| == |Fragments(chunks)|
    ensures forall k :: 0 <= k < |StreamUpdates(id, chunks)| ==>
              StreamUpdates(id, chunks)[k] == Updated(id, Concat(Fragments(chunks)[..k + 1]))
  {
    if chunks != [] {
      var init, last := chunks[..|chunks| - 1], chunks[|chunks| - 1];
      StreamUpdatesAt(id, init);
      var f, f' := Fragments(init), Fragments(chunks);
      var u, u' := StreamUpdates(id, init), StreamUpdates(id, chunks);
      assert f' == f + (if last.AIMessageChunk? then [last.content] else []);
      assert u' == u + (if last.AIMessageChunk? then [Updated(id, StreamedText(chunks))] else []);
      forall k | 0 <= k < |u'| ensures u'[k] == Updated(id, Concat(f'[..k + 1])) {
        if k < |u| {
          assert u'[k] == u[k];
          assert f'[..k + 1] == f[..k + 1];
        } else {
          assert f'[..k + 1] == f';
        }
      }
    }
  }

  /**
   * Every update shows a prefix of the final reply text, each update is a
   * prefix of the next, and the last update shows the final text itself.
   */
  lemma UpdatesArePrefixes(id: nat, chunks: seq<Chunk>)
    ensures forall k :: 0 <= k < |StreamUpdates(id, chunks)| ==>
              StreamUpdates(id, chunks)[k].id == id &&
              StreamUpdates(id, chunks)[k].content <= StreamedText(chunks)
    ensures forall k :: 0 <= k < |StreamUpdates(id, chunks)| - 1 ==>
              StreamUpdates(id, chunks)[k].content <= StreamUpdates(id, chunks)[k + 1].content
    ensures StreamUpdates(id, chunks) != [] ==>
              StreamUpdates(id, chunks)[|StreamUpdates(id, chunks)| - 1].content == StreamedText(chunks)
  {
    var u, f := StreamUpdates(id, chunks), Fragments(chunks);
    StreamUpdatesAt(id, chunks);
    forall k | 0 <= k < |u| ensures u[k].content <= StreamedText(chunks) {
      ConcatPrefix(f, k + 1);
    }
    forall k | 0 <= k < |u| - 1 ensures u[k].content <= u[k + 1].content {
      assert f[..k + 1] == f[..k + 2][..k + 1];
      ConcatPrefix(f[..k + 2], k + 1);
    }
    if u != [] {
      assert f[..|u|] == f;
    }
  }
}
