/**
 Runs of `forward_node` calls on one sequence: whatever the calls are cut into, the outputs
 and the cached rows are those of the reference on everything seen so far.
 */
module EngineRuns {
  import opened Core
  import opened Transformer
  import opened ForwardEngine

  /** Consecutive calls: call i takes the caches from css[i] to css[i + 1] and returns outs[i]. */
  ghost predicate Run(o: Ops, ws: seq<Layer>, chunks: seq<Chunk>, css: seq<seq<KV>>, outs: seq<seq<Row>>) {
    |css| == |chunks| + 1 && |outs| == |chunks| &&
    forall i :: 0 <= i < |chunks| ==>
      Ran(o, ws, css[i], chunks[i].rows, chunks[i].positions, css[i + 1], outs[i])
  }

  lemma {:induction false} RunIsRunChunks(o: Ops, ws: seq<Layer>, chunks: seq<Chunk>, css: seq<seq<KV>>,
                                          outs: seq<seq<Row>>)
    requires Run(o, ws, chunks, css, outs)
    requires |css[0]| >= |ws| && Paired(css[0][..|ws|])
    ensures WellFormedChunks(chunks)
    ensures |css[|chunks|]| >= |ws|
    ensures RunChunks(o, ws, css[0][..|ws|], chunks) == NodeStep(Concat(outs), css[|chunks|][..|ws|])
    decreases |chunks|
  {
    if chunks != [] {
      hide NodeCached;
      assert Ran(o, ws, css[0], chunks[0].rows, chunks[0].positions, css[1], outs[0]);
      forall i | 0 <= i < |chunks| - 1
        ensures Ran(o, ws, css[1..][i], chunks[1..][i].rows, chunks[1..][i].positions, css[1..][i + 1], outs[1..][i])
      {
        assert Ran(o, ws, css[i + 1], chunks[i + 1].rows, chunks[i + 1].positions, css[i + 2], outs[i + 1]);
      }
      RunIsRunChunks(o, ws, chunks[1..], css[1..], outs[1..]);
    }
  }

  /**
   Chunk invariance of the engine.  Starting from an empty sequence, any run of calls returns,
   one after the other, the rows that the reference computes for all input rows at once, and
   leaves the keys and values that the reference says; so two runs over the same rows that are
   cut differently, or not at all, agree.
   */
  lemma {:induction false} AnyCutAgrees(o: Ops, ws: seq<Layer>, chunks: seq<Chunk>, css: seq<seq<KV>>,
                                        outs: seq<seq<Row>>)
    requires Run(o, ws, chunks, css, outs)
    requires |css[0]| >= |ws| && css[0][..|ws|] == seq(|ws|, _ => EMPTY_KV)
    ensures |AllRows(chunks)| == |AllPositions(chunks)| && |css[|chunks|]| >= |ws|
    ensures Concat(outs) == Reference(o, ws, AllRows(chunks), AllPositions(chunks))
    ensures css[|chunks|][..|ws|] == CachesOf(o, ws, AllRows(chunks), AllPositions(chunks))
    ensures CachesHold(css[|chunks|][..|ws|], |AllRows(chunks)|)
  {
    hide NodeCached, RunChunks, Reference, CachesOf, Concat, Ran;
    RunIsRunChunks(o, ws, chunks, css, outs);
    EmptyCaches(o, ws);
    ChunkLengths(chunks);
    ChunksFrom(o, ws, [], [], chunks);
    assert [] + AllRows(chunks) == AllRows(chunks) && [] + AllPositions(chunks) == AllPositions(chunks);
  }

  /** One call on further ids: reference logits for everything so far, and the cache keeps step. */
  lemma {:induction false} CallIsReference(m: Model, seen: seq<nat>, ids: seq<nat>, cs: seq<KV>, cs': seq<KV>,
                                           ys: seq<Row>)
    requires ids != [] && HeldFor(m, cs, seen) && |cs'| == |cs|
    requires Ran(m.ops, m.layers, cs, Embed(m, ids), Positions(|seen|, |ids|), cs', ys)
    ensures |ys| == |ids|
    ensures HeldFor(m, cs', seen + ids)
    ensures Logits(m, ys[|ys| - 1]) == ReferenceLogits(m, seen + ids)
  {
    hide NodeCached, CachesOf;
    HeldPaired(m, cs, seen);
    assert cs[..|m.layers|] == cs && cs'[..|m.layers|] == cs';
    StepIsReference(m, seen, ids, cs);
  }
}
