/**
 A worker's batched forward message on its paged cache: the wire batch becomes the engine's
 batch, and what the engine returns is the serve loop's reply.
 */
module WorkerBatch {
  import opened Core
  import opened Transformer
  import opened Nodes
  import opened WorkerProtocol
  import opened BatchWire
  import PC = PagedCaching
  import PE = PagedEngine
  import E = BatchedEngine

  // ----- cutting and putting together -----

  ghost function At(bounds: seq<E.Bound>, total: nat, k: nat): nat {
    if k < |bounds| then bounds[k].start else total
  }

  ghost function PiecesOfCuts<T>(rows: seq<T>, bounds: seq<E.Bound>, lens: seq<nat>): (parts: seq<seq<T>>)
    requires E.Cuts(bounds, lens, |rows|)
    ensures |parts| == |bounds|
  {
    seq(|bounds|, i requires 0 <= i < |bounds| => E.Piece(rows, bounds[i]))
  }

  lemma {:induction false} CutsFrom<T>(rows: seq<T>, bounds: seq<E.Bound>, lens: seq<nat>, k: nat)
    requires E.Cuts(bounds, lens, |rows|) && k <= |bounds|
    ensures At(bounds, |rows|, k) <= |rows| &&
            Concat(PiecesOfCuts(rows, bounds, lens)[k..]) == rows[At(bounds, |rows|, k)..]
    decreases |bounds| - k
  {
    var parts := PiecesOfCuts(rows, bounds, lens);
    if k < |bounds| {
      CutsFrom(rows, bounds, lens, k + 1);
      assert parts[k..][0] == parts[k] && parts[k..][1..] == parts[k + 1..];
      assert bounds[k].end == At(bounds, |rows|, k + 1);
      assert rows[bounds[k].start..] == rows[bounds[k].start..bounds[k].end] + rows[bounds[k].end..];
    }
  }

  /** The pieces put together are the buffer. */
  lemma {:induction false} CutsWhole<T>(rows: seq<T>, bounds: seq<E.Bound>, lens: seq<nat>)
    requires E.Cuts(bounds, lens, |rows|)
    ensures Concat(PiecesOfCuts(rows, bounds, lens)) == rows
  {
    CutsFrom(rows, bounds, lens, 0);
    assert PiecesOfCuts(rows, bounds, lens)[0..] == PiecesOfCuts(rows, bounds, lens);
    assert rows[0..] == rows && At(bounds, |rows|, 0) == 0;
  }

  ghost predicate SameLengths(metas: seq<SequenceMeta>, lens: seq<nat>) {
    |lens| == |metas| && forall i :: 0 <= i < |metas| ==> lens[i] == |metas[i].positions|
  }

  ghost function EndLogits(m: Model, ys: seq<Row>, bounds: seq<E.Bound>): (rows: seq<Row>)
    requires forall i :: 0 <= i < |bounds| ==> 0 < bounds[i].end <= |ys|
    ensures |rows| == |bounds|
  {
    seq(|bounds|, i requires 0 <= i < |bounds| => Logits(m, ys[bounds[i].end - 1]))
  }

  /** The tail's flat list, seen by running offset and by cut. */
  lemma {:induction false} FlatFromCuts(m: Model, metas: seq<SequenceMeta>, bounds: seq<E.Bound>, lens: seq<nat>,
                                        ys: seq<Row>, k: nat)
    requires E.Cuts(bounds, lens, |ys|) && SameLengths(metas, lens) && k <= |metas|
    requires forall i :: 0 <= i < |bounds| ==> 0 < bounds[i].end <= |ys|
    ensures At(bounds, |ys|, k) + TotalPositions(metas[k..]) == |ys|
    ensures FlatLogits(m, metas[k..], ys, At(bounds, |ys|, k)) == Concat(EndLogits(m, ys, bounds)[k..])
    decreases |metas| - k
  {
    hide Logits;
    if k < |metas| {
      FlatFromCuts(m, metas, bounds, lens, ys, k + 1);
      var rows := EndLogits(m, ys, bounds);
      assert metas[k..][0] == metas[k] && metas[k..][1..] == metas[k + 1..] && rows[k..][0] == rows[k] &&
        rows[k..][1..] == rows[k + 1..];
      assert bounds[k].end == At(bounds, |ys|, k + 1);
    }
  }

  // ----- the engine's batch -----

  ghost predicate Slices(metas: seq<SequenceMeta>, handles: map<SeqId, nat>, seqs: seq<E.SequenceSlice>) {
    |seqs| == |metas| &&
    forall i :: 0 <= i < |metas| ==>
      metas[i].seqId in handles && seqs[i].handle == handles[metas[i].seqId] && seqs[i].positions == metas[i].positions
  }

  lemma {:induction false} SlicesLengths(metas: seq<SequenceMeta>, handles: map<SeqId, nat>, seqs: seq<E.SequenceSlice>)
    requires Slices(metas, handles, seqs)
    ensures SameLengths(metas, E.Lengths(seqs))
  {
  }

  lemma {:induction false} TotalSnoc(metas: seq<SequenceMeta>, meta: SequenceMeta)
    ensures TotalPositions(metas + [meta]) == TotalPositions(metas) + |meta.positions|
  {
    if metas == [] {
      assert metas + [meta] == [meta];
    } else {
      TotalSnoc(metas[1..], meta);
      assert (metas + [meta])[1..] == metas[1..] + [meta];
    }
  }

  lemma {:induction false} TotalsAgree(metas: seq<SequenceMeta>, handles: map<SeqId, nat>, seqs: seq<E.SequenceSlice>)
    requires Slices(metas, handles, seqs)
    ensures E.TotalRows(seqs) == TotalPositions(metas)
    decreases |metas|
  {
    if metas != [] {
      var n := |metas| - 1;
      TotalsAgree(metas[..n], handles, seqs[..n]);
      TotalSnoc(metas[..n], metas[n]);
      assert metas == metas[..n] + [metas[n]];
    }
  }

  lemma {:induction false} IdsConcat(seqs: seq<E.SequenceSlice>, parts: seq<seq<nat>>)
    requires |parts| == |seqs| && forall i :: 0 <= i < |seqs| ==> seqs[i].tokenIds == parts[i]
    ensures E.ConcatIds(seqs) == Concat(parts)
    decreases |seqs|
  {
    if seqs != [] {
      var n := |seqs| - 1;
      IdsConcat(seqs[..n], parts[..n]);
      ConcatSnoc(parts[..n], parts[n]);
      assert parts == parts[..n] + [parts[n]];
    }
  }

  /** What the engine has run is, sequence by sequence, what the serve loop's steps are. */
  lemma {:induction false} RanSteps(o: Ops, ws: seq<Layer>, paged: map<SeqId, seq<KV>>, metas: seq<SequenceMeta>,
                                    handles: map<SeqId, nat>, seqs: seq<E.SequenceSlice>, css: seq<seq<KV>>,
                                    bounds: seq<E.Bound>, xs: seq<Row>, ys: seq<Row>, css': seq<seq<KV>>)
    requires AllCached(paged, metas) && AllShaped(ws, paged) && Slices(metas, handles, seqs)
    requires E.Cuts(bounds, E.Lengths(seqs), |ys|) && E.AllRan(o, ws, css, seqs, bounds, xs, ys, css')
    requires forall i :: 0 <= i < |metas| ==> css[i] == paged[metas[i].seqId]
    ensures |xs| == TotalPositions(metas) && |css'| == |metas|
    ensures var steps := Steps(o, ws, paged, metas, xs);
            HiddenRows(steps) == ys && forall i :: 0 <= i < |metas| ==> steps[i].caches == css'[i]
  {
    hide NodeCached;
    var lens := E.Lengths(seqs);
    SlicesLengths(metas, handles, seqs);
    var xss, yss := PiecesOfCuts(xs, bounds, lens), PiecesOfCuts(ys, bounds, lens);
    CutsWhole(xs, bounds, lens);
    CutsWhole(ys, bounds, lens);
    StepsAreOwn(o, ws, paged, metas, xss);
    var steps := Steps(o, ws, paged, metas, xs);
    forall i | 0 <= i < |metas|
      ensures steps[i] == NodeStep(yss[i], css'[i])
    {
    }
    assert Hiddens(steps) == yss;
    HiddenIsConcat(steps);
  }

  // ----- the message -----

  /** The worker of the serve loop that holds what this paged cache holds. */
  ghost predicate Holds(cache: PC.PagedKvCacheManager, handles: map<SeqId, nat>, w: Worker)
    reads cache, cache.k, cache.v
  {
    cache.Valid() && w.pagedHandles.Keys == handles.Keys &&
    (forall s :: s in handles ==> handles[s] in cache.sequences && w.pagedHandles[s] == cache.Cached(handles[s])) &&
    Injective(handles)
  }

  ghost predicate Injective(handles: map<SeqId, nat>) {
    forall s, t :: s in handles && t in handles && s != t ==> handles[s] != handles[t]
  }

  ghost predicate Named(metas: seq<SequenceMeta>, s: SeqId) {
    exists i :: 0 <= i < |metas| && metas[i].seqId == s
  }

  /** A sequence that the message does not name is not in the engine's batch. */
  lemma {:induction false} OutsideBatch(handles: map<SeqId, nat>, metas: seq<SequenceMeta>,
                                        seqs: seq<E.SequenceSlice>, t: SeqId)
    requires Slices(metas, handles, seqs) && Injective(handles) && t in handles && !Named(metas, t)
    ensures !E.InBatch(seqs, handles[t])
  {
  }

  /** What the cache holds after the batch: new for the sequences named, as before for the others. */
  lemma {:induction false} HoldsAfter(cache: PC.PagedKvCacheManager, handles: map<SeqId, nat>, w: Worker, w': Worker,
                                      metas: seq<SequenceMeta>, seqs: seq<E.SequenceSlice>)
    requires cache.Valid() && Slices(metas, handles, seqs) && E.Known(cache, seqs) && Injective(handles)
    requires w.pagedHandles.Keys == handles.Keys == w'.pagedHandles.Keys &&
             forall s :: s in handles ==> handles[s] in cache.sequences
    requires forall i :: 0 <= i < |metas| ==> w'.pagedHandles[metas[i].seqId] == E.AllCached(cache, seqs)[i]
    requires forall t :: t in handles && !Named(metas, t) ==>
      w'.pagedHandles[t] == w.pagedHandles[t] &&
      PE.FirstRows(cache.Slots(handles[t]), w.pagedHandles[t], cache.sequences[handles[t]].currentLen)
    ensures Holds(cache, handles, w')
  {
    hide PE.FirstRows, PC.PagedKvCacheManager.Slots, PC.PagedKvCacheManager.Cached;
    forall s | s in handles
      ensures w'.pagedHandles[s] == cache.Cached(handles[s])
    {
      if Named(metas, s) {
        var i :| 0 <= i < |metas| && metas[i].seqId == s;
      } else {
        PE.CachedAreFirst(cache, handles[s]);
        E.FirstRowsUnique(cache.Slots(handles[s]), w.pagedHandles[s], cache.Cached(handles[s]),
                          cache.sequences[handles[s]].currentLen);
      }
    }
  }

  ghost function PlainSlices(metas: seq<SequenceMeta>, handles: map<SeqId, nat>): (seqs: seq<E.SequenceSlice>)
    requires forall i :: 0 <= i < |metas| ==> metas[i].seqId in handles
    ensures Slices(metas, handles, seqs)
  {
    seq(|metas|, i requires 0 <= i < |metas| => E.SequenceSlice(handles[metas[i].seqId], [], metas[i].positions))
  }

  /** The pool has the blocks that the batch needs. */
  ghost predicate Room(cache: PC.PagedKvCacheManager, handles: map<SeqId, nat>, metas: seq<SequenceMeta>)
    reads cache
  {
    (forall i :: 0 <= i < |metas| ==> metas[i].seqId in handles) && cache.Valid() &&
    E.Known(cache, PlainSlices(metas, handles)) && E.BatchFits(cache, PlainSlices(metas, handles))
  }

  lemma {:induction false} SameNeeded(sequences: map<nat, PC.SequenceBlocks>, seqs: seq<E.SequenceSlice>,
                                      seqs': seq<E.SequenceSlice>, i: nat)
    requires i <= |seqs| == |seqs'|
    requires forall j :: 0 <= j < |seqs| ==>
      seqs'[j].handle == seqs[j].handle && |seqs'[j].positions| == |seqs[j].positions|
    requires forall j :: 0 <= j < |seqs| ==>
      seqs[j].handle in sequences && sequences[seqs[j].handle].lastBlockFill <= PC.BLOCK_SIZE
    ensures E.TotalNeeded(sequences, seqs', i) == E.TotalNeeded(sequences, seqs, i)
    decreases |seqs| - i
  {
    hide PC.BlocksNeeded;
    if i < |seqs| { SameNeeded(sequences, seqs, seqs', i + 1); }
  }

  lemma {:induction false} RoomIsFits(cache: PC.PagedKvCacheManager, handles: map<SeqId, nat>,
                                      metas: seq<SequenceMeta>, seqs: seq<E.SequenceSlice>, w: Worker)
    requires Holds(cache, handles, w) && Slices(metas, handles, seqs)
    ensures E.Known(cache, seqs) && (Room(cache, handles, metas) <==> E.BatchFits(cache, seqs))
  {
    var plain := PlainSlices(metas, handles);
    SameNeeded(cache.sequences, plain, seqs, 0);
  }

  lemma {:induction false} SlicesDistinct(cache: PC.PagedKvCacheManager, handles: map<SeqId, nat>,
                                          metas: seq<SequenceMeta>, seqs: seq<E.SequenceSlice>, w: Worker)
    requires Holds(cache, handles, w) && Slices(metas, handles, seqs) && DistinctSeqs(metas)
    ensures E.DistinctHandles(seqs)
  {
  }

  /** What the cache holds for each sequence is the filled part of its blocks. */
  lemma {:induction false} AllFirst(cache: PC.PagedKvCacheManager, handles: map<SeqId, nat>, w: Worker)
    requires Holds(cache, handles, w)
    ensures forall s :: s in handles ==>
      PE.FirstRows(cache.Slots(handles[s]), w.pagedHandles[s], cache.sequences[handles[s]].currentLen)
  {
    hide PE.FirstRows, PC.PagedKvCacheManager.Slots, PC.PagedKvCacheManager.Cached;
    forall s | s in handles
      ensures PE.FirstRows(cache.Slots(handles[s]), w.pagedHandles[s], cache.sequences[handles[s]].currentLen)
    {
      PE.CachedAreFirst(cache, handles[s]);
    }
  }

  /** One slice per sequence of the message, unless a sequence is not known. */
  method BuildSlices(metas: seq<SequenceMeta>, handles: map<SeqId, nat>) returns (r: Option<seq<E.SequenceSlice>>)
    ensures r.Some? <==> forall i :: 0 <= i < |metas| ==> metas[i].seqId in handles
    ensures r.Some? ==> Slices(metas, handles, r.value)
  {
    var seqs: seq<E.SequenceSlice> := [];
    for i := 0 to |metas|
      invariant Slices(metas[..i], handles, seqs) && forall k :: 0 <= k < i ==> metas[k].seqId in handles
    {
      if metas[i].seqId !in handles { return None; }
      seqs := seqs + [E.SequenceSlice(handles[metas[i].seqId], [], metas[i].positions)];
      assert metas[..i + 1] == metas[..i] + [metas[i]];
    }
    assert metas[..|metas|] == metas;
    r := Some(seqs);
  }

  function WithIds(seqs: seq<E.SequenceSlice>, parts: seq<seq<nat>>): (r: seq<E.SequenceSlice>)
    requires |parts| == |seqs|
    ensures |r| == |seqs| && forall i :: 0 <= i < |seqs| ==> r[i] == seqs[i].(tokenIds := parts[i])
  {
    seq(|seqs|, i requires 0 <= i < |seqs| => seqs[i].(tokenIds := parts[i]))
  }

  lemma {:induction false} SplitCount(ids: seq<nat>, metas: seq<SequenceMeta>)
    ensures SplitIds(ids, metas).Some? ==> |SplitIds(ids, metas).value| == |metas|
    decreases |metas|
  {
    if metas != [] && metas[0].numTokens <= |ids| { SplitCount(ids[metas[0].numTokens..], metas[1..]); }
  }

  /** What the wire input makes of the slices; none if the ids run out. */
  method BuildInput(metas: seq<SequenceMeta>, ghost handles: map<SeqId, nat>, plain: seq<E.SequenceSlice>,
                    input: WireInput)
    returns (seqs: Option<seq<E.SequenceSlice>>, rows: Option<seq<Row>>)
    requires Slices(metas, handles, plain)
    ensures seqs.None? <==> input.WireIds? && TotalTokens(metas) > |input.ids|
    ensures seqs.Some? ==> Slices(metas, handles, seqs.value)
    ensures input.WireRows? ==> rows == Some(input.rows)
    ensures input.WireIds? && seqs.Some? ==> rows == None && E.ConcatIds(seqs.value) == input.ids[..TotalTokens(metas)]
  {
    hide E.ConcatIds, SplitIds, Concat;
    if input.WireRows? { return Some(plain), Some(input.rows); }
    var parts := DistributeIds(input.ids, metas);
    SplitExact(input.ids, metas);
    SplitCount(input.ids, metas);
    if parts.None? { return None, None; }
    var filled := WithIds(plain, parts.value);
    IdsConcat(filled, parts.value);
    seqs, rows := Some(filled), None;
  }

  /** A batch that the engine turns down is answered with an error by the serve loop. */
  lemma {:induction false} RefusedReply(m: Model, w: Worker, metas: seq<SequenceMeta>, input: WireInput, env: Env,
                                        handles: map<SeqId, nat>, seqs: seq<E.SequenceSlice>, rows: Option<seq<Row>>)
    requires ValidWorker(m, w) && Slices(metas, handles, seqs) && AllCached(w.pagedHandles, metas)
    requires input.WireIds? ==>
      TotalTokens(metas) <= |input.ids| && rows == None && E.ConcatIds(seqs) == input.ids[..TotalTokens(metas)]
    requires input.WireRows? ==> rows == Some(input.rows)
    requires !(seqs != [] && E.BatchInputFits(w.cfg, seqs, rows) && env.computeOk)
    ensures Serve(m, w, BatchedForward(metas, input), env).replies == [ErrorReply]
  {
    hide Steps, HiddenRows, FlatLogits, E.ConcatIds, E.TotalRows, TotalPositions;
    TotalsAgree(metas, handles, seqs);
  }

  /** A batch that the engine has run is answered with what it returned. */
  lemma {:induction false} RanReply(m: Model, w: Worker, metas: seq<SequenceMeta>, input: WireInput, env: Env,
                                    handles: map<SeqId, nat>, seqs: seq<E.SequenceSlice>, rows: Option<seq<Row>>,
                                    css: seq<seq<KV>>, bounds: seq<E.Bound>, ys: seq<Row>, css': seq<seq<KV>>,
                                    out: E.BatchOutput)
    requires ValidWorker(m, w) && Slices(metas, handles, seqs) && AllCached(w.pagedHandles, metas) &&
             DistinctSeqs(metas) && env.computeOk
    requires input.WireIds? ==>
      TotalTokens(metas) <= |input.ids| && rows == None && E.ConcatIds(seqs) == input.ids[..TotalTokens(metas)]
    requires input.WireRows? ==> rows == Some(input.rows)
    requires seqs != [] && E.BatchInputFits(w.cfg, seqs, rows)
    requires |css| == |metas| && forall i :: 0 <= i < |metas| ==> css[i] == w.pagedHandles[metas[i].seqId]
    requires E.Cuts(bounds, E.Lengths(seqs), |ys|) && E.BatchReturns(m, w.cfg.IsTail(), bounds, ys, out)
    requires E.AllRan(m.ops, WeightsOf(m, w.cfg), css, seqs, bounds, if w.cfg.IsHead()
                      then Embed(m, E.ConcatIds(seqs)) else rows.value, ys, css')
    ensures var served := Serve(m, w, BatchedForward(metas, input), env);
            served.replies == [match out case FlatLogits(logits) => LogitsReply(logits,
              true) case BatchRows(rs) => RowsReply(rs, w.hiddenSize, true)] &&
            served.worker.pagedHandles.Keys == w.pagedHandles.Keys &&
            |css'| == |metas| &&
            (forall i :: 0 <= i < |metas| ==> served.worker.pagedHandles[metas[i].seqId] == css'[i]) &&
            forall t :: t in w.pagedHandles && !Named(metas, t) ==>
              served.worker.pagedHandles[t] == w.pagedHandles[t]
  {
    hide Logits, Embed, E.ConcatIds, E.TotalRows, TotalTokens, Steps, StoreAll, HiddenRows, FlatLogits, E.Cuts,
      E.AllRan, NodeCached, Concat;
    var ws := WeightsOf(m, w.cfg);
    var xs := if w.cfg.IsHead() then Embed(m, E.ConcatIds(seqs)) else rows.value;
    TotalsAgree(metas, handles, seqs);
    RanSteps(m.ops, ws, w.pagedHandles, metas, handles, seqs, css, bounds, xs, ys, css');
    var steps := Steps(m.ops, ws, w.pagedHandles, metas, xs);
    StoredOwn(w.pagedHandles, metas, steps);
    StoreKeeps(w.cfg, w.pagedHandles, metas, steps);
    if w.cfg.IsTail() {
      SlicesLengths(metas, handles, seqs);
      TailReply(m, metas, bounds, E.Lengths(seqs), ys, out);
    }
  }

  lemma {:induction false} TailReply(m: Model, metas: seq<SequenceMeta>, bounds: seq<E.Bound>, lens: seq<nat>,
                                     ys: seq<Row>, out: E.BatchOutput)
    requires E.Cuts(bounds, lens, |ys|) && SameLengths(metas, lens) && metas != [] &&
             E.BatchReturns(m, true, bounds, ys, out)
    ensures TotalPositions(metas) == |ys| && out == E.FlatLogits(FlatLogits(m, metas, ys, 0))
  {
    hide Logits, FlatLogits, Concat;
    FlatFromCuts(m, metas, bounds, lens, ys, 0);
    assert metas[0..] == metas && At(bounds, |ys|, 0) == 0;
    var rows := EndLogits(m, ys, bounds);
    assert rows[0..] == rows;
    assert rows == seq(|bounds|, i requires 0 <= i < |bounds| &&
                       0 < bounds[i].end <= |ys| => Logits(m, ys[bounds[i].end - 1]));
  }

  // ----- failed batches -----

  /** What the cache holds now, by sequence. */
  ghost function Snapshot(cache: PC.PagedKvCacheManager, handles: map<SeqId, nat>): map<SeqId, seq<KV>>
    reads cache, cache.k, cache.v
  {
    map s | s in handles && cache.Valid() && handles[s] in cache.sequences :: cache.Cached(handles[s])
  }

  /** Replies do not depend on what a failed pass leaves behind, nor does the worker after a success. */
  lemma {:induction false} SpoiledUnseen(m: Model, w: Worker, metas: seq<SequenceMeta>, input: WireInput, env: Env,
                                         spoiled: map<SeqId, seq<KV>>)
    requires ValidWorker(m, w)
    ensures var served, served' := Serve(m, w, BatchedForward(metas, input), env),
      Serve(m, w, BatchedForward(metas, input), env.(spoiled := spoiled));
            served'.replies == served.replies && (served.replies != [ErrorReply] ==> served'.worker == served.worker)
  {
    hide Steps, StoreAll, HiddenRows, FlatLogits, Spoilt, TotalTokens, TotalPositions;
  }

  /**
   A batch that is not even started leaves the worker as it is; one that fails half way may spoil
   its own sequences.
   */
  lemma {:induction false} FailedWorker(m: Model, w: Worker, metas: seq<SequenceMeta>, input: WireInput, env: Env)
    requires ValidWorker(m, w) && AllCached(w.pagedHandles, metas) &&
             (input.WireIds? ==> TotalTokens(metas) <= |input.ids|)
    requires Serve(m, w, BatchedForward(metas, input), env).replies == [ErrorReply]
    ensures Serve(m, w, BatchedForward(metas, input), env).worker ==
            if metas == [] || input.WireIds? != w.cfg.IsHead() then w
            else w.(pagedHandles := Spoilt(w.cfg, w.pagedHandles, BatchIds(metas), env))
  {
    hide Steps, StoreAll, HiddenRows, FlatLogits, Spoilt, TotalTokens, TotalPositions;
  }

  lemma {:induction false} SpoiltIsSnapshot(cache: PC.PagedKvCacheManager, handles: map<SeqId, nat>, m: Model,
                                            w: Worker, metas: seq<SequenceMeta>, env: Env)
    requires ValidWorker(m, w) && cache.Valid() && cache.numLayers == w.cfg.NumLayers() &&
             w.pagedHandles.Keys == handles.Keys && Injective(handles)
    requires forall s :: s in handles ==> handles[s] in cache.sequences
    requires forall t :: t in handles && !Named(metas, t) ==> w.pagedHandles[t] == cache.Cached(handles[t])
    requires env.spoiled == Snapshot(cache, handles)
    ensures Holds(cache, handles, w.(pagedHandles := Spoilt(w.cfg, w.pagedHandles, BatchIds(metas), env)))
  {
    hide PC.PagedKvCacheManager.Cached, PC.Placed;
    forall s | s in handles
      ensures Spoilt(w.cfg, w.pagedHandles, BatchIds(metas), env)[s] == cache.Cached(handles[s])
    {
      if s in BatchIds(metas) {
        var i :| 0 <= i < |metas| && metas[i].seqId == s;
      } else {
        assert forall i :: 0 <= i < |metas| ==> metas[i].seqId in BatchIds(metas);
        assert !Named(metas, s);
      }
    }
  }

  lemma {:induction false} StillCached(cache: PC.PagedKvCacheManager, h: nat, cs: seq<KV>)
    requires cache.Valid() && h in cache.sequences && PE.FirstRows(cache.Slots(h), cs, cache.sequences[h].currentLen)
    ensures cache.Cached(h) == cs
  {
    hide PE.FirstRows, PC.PagedKvCacheManager.Slots, PC.PagedKvCacheManager.Cached;
    PE.CachedAreFirst(cache, h);
    E.FirstRowsUnique(cache.Slots(h), cache.Cached(h), cs, cache.sequences[h].currentLen);
  }

  /** After a batch that has failed, the cache holds what the serve loop holds when told what was left behind. */
  lemma {:induction false} FailedHolds(cache: PC.PagedKvCacheManager, handles: map<SeqId, nat>, m: Model, w: Worker,
                                       metas: seq<SequenceMeta>, input: WireInput, env: Env)
    requires ValidWorker(m, w) && AllCached(w.pagedHandles, metas) &&
             (input.WireIds? ==> TotalTokens(metas) <= |input.ids|)
    requires cache.Valid() && cache.numLayers == w.cfg.NumLayers() && w.pagedHandles.Keys == handles.Keys &&
             Injective(handles)
    requires forall s :: s in handles ==> handles[s] in cache.sequences
    requires forall t :: t in handles && (!Named(metas, t) || metas == [] || input.WireIds? != w.cfg.IsHead()) ==>
      cache.Cached(handles[t]) == w.pagedHandles[t]
    requires Serve(m, w, BatchedForward(metas, input), env).replies == [ErrorReply]
    ensures var env' := env.(spoiled := Snapshot(cache, handles));
            Holds(cache, handles, Serve(m, w, BatchedForward(metas, input), env').worker)
  {
    hide PC.PagedKvCacheManager.Cached, PC.Placed, Serve, ValidWorker, AllCached, Spoilt, TotalTokens, Named,
      Injective, Snapshot;
    var env' := env.(spoiled := Snapshot(cache, handles));
    SpoiledUnseen(m, w, metas, input, env, env'.spoiled);
    FailedWorker(m, w, metas, input, env');
    if metas != [] && input.WireIds? == w.cfg.IsHead() { SpoiltIsSnapshot(cache, handles, m, w, metas, env'); }
  }

  lemma {:induction false} MismatchUnfit(cfg: NodeConfig, seqs: seq<E.SequenceSlice>, rows: Option<seq<Row>>,
                                         input: WireInput)
    requires (input.WireIds? ==> rows == None) && (input.WireRows? ==> rows == Some(input.rows))
    ensures input.WireIds? != cfg.IsHead() ==> !E.BatchInputFits(cfg, seqs, rows)
  {
  }

  /** The engine's part of the message, once the batch is built. */
  method RunSlices(cache: PC.PagedKvCacheManager, m: Model, cfg: NodeConfig, ghost handles: map<SeqId, nat>,
                   ghost metas: seq<SequenceMeta>, seqs: seq<E.SequenceSlice>, rows: Option<seq<Row>>,
                   ghost input: WireInput, hiddenSize: nat, ghost w: Worker, ghost env: Env)
    returns (replies: seq<Reply>)
    requires cfg.Valid() && cfg.total == |m.layers| && cache.numLayers == cfg.NumLayers()
    requires ValidWorker(m, w) && w.cfg == cfg && w.hiddenSize == hiddenSize && Holds(cache, handles, w)
    requires DistinctSeqs(metas) && Slices(metas, handles, seqs) &&
             (cfg.IsTail() && seqs != [] ==> seqs[0].positions != [])
    requires env.computeOk <==> Room(cache, handles, metas)
    requires input.WireIds? ==>
      TotalTokens(metas) <= |input.ids| && rows == None && E.ConcatIds(seqs) == input.ids[..TotalTokens(metas)]
    requires input.WireRows? ==> rows == Some(input.rows)
    modifies cache`freeList, cache`sequences, cache`places, cache.k, cache.v
    ensures cache.Valid()
    ensures replies == Serve(m, w, BatchedForward(metas, input), env).replies
    ensures Holds(cache, handles, Serve(m, w, BatchedForward(metas, input),
                                        env.(spoiled := Snapshot(cache, handles))).worker)
  {
    hide Injective, Named, ValidWorker, Serve, Holds, Room, WeightsOf, E.Cuts, E.AllRan, E.BatchReturns, E.BatchFits,
      E.BatchInputFits, Slices, PE.FirstRows, PC.PagedKvCacheManager.Slots, PC.PagedKvCacheManager.Cached,
      DistinctSeqs, E.DistinctHandles, TotalTokens, E.ConcatIds, E.InBatch;
    HoldsValid(cache, handles, w);
    AllFirst(cache, handles, w);
    RoomIsFits(cache, handles, metas, seqs, w);
    SlicesDistinct(cache, handles, metas, seqs, w);
    SlicesFirst(metas, handles, seqs);
    ghost var css := E.AllCached(cache, seqs);
    SlicesCached(cache, handles, metas, seqs, w);
    RangeLayers(m, cfg);
    var out, bounds, ys := E.BatchedForwardNode(cache, m, WeightsOf(m, cfg), cfg, seqs, rows);
    if out.Err? {
      RefusedReply(m, w, metas, input, env, handles, seqs, rows);
      MismatchUnfit(cfg, seqs, rows, input);
      forall t | t in handles && (!Named(metas, t) || metas == [] || input.WireIds? != cfg.IsHead())
        ensures cache.Cached(handles[t]) == w.pagedHandles[t]
      {
        if !Named(metas, t) { OutsideBatch(handles, metas, seqs, t); }
        StillCached(cache, handles[t], w.pagedHandles[t]);
      }
      FailedHolds(cache, handles, m, w, metas, input, env);
      return [ErrorReply];
    }
    RanReply(m, w, metas, input, env, handles, seqs, rows, css, bounds, ys, E.AllCached(cache, seqs), out.value);
    forall t | t in handles && !Named(metas, t)
      ensures PE.FirstRows(cache.Slots(handles[t]), w.pagedHandles[t], cache.sequences[handles[t]].currentLen)
    {
      OutsideBatch(handles, metas, seqs, t);
    }
    HoldsAfter(cache, handles, w, Serve(m, w, BatchedForward(metas, input), env).worker, metas, seqs);
    SpoiledUnseen(m, w, metas, input, env, Snapshot(cache, handles));
    replies := [match out.value
                case FlatLogits(logits) => LogitsReply(logits, true)
                case BatchRows(rs) => RowsReply(rs, hiddenSize, true)];
  }

  /**
   `handle_batched_forward`.  Its reply is the serve loop's on a worker that holds what this
   cache holds, with the pool's free blocks deciding whether it can compute: the logits or rows,
   an error, or none when the ids run out.  After it the two still hold the same, when the serve
   loop is told what a failed pass has left behind.
   */
  method HandleBatched(cache: PC.PagedKvCacheManager, m: Model, cfg: NodeConfig, handles: map<SeqId, nat>,
                       metas: seq<SequenceMeta>, input: WireInput, hiddenSize: nat, ghost w: Worker, ghost env: Env)
    returns (replies: seq<Reply>)
    requires cfg.Valid() && cfg.total == |m.layers| && cache.numLayers == cfg.NumLayers()
    requires ValidWorker(m, w) && w.cfg == cfg && w.hiddenSize == hiddenSize && Holds(cache, handles, w)
    requires DistinctSeqs(metas) && (cfg.IsTail() && metas != [] ==> metas[0].positions != [])
    requires env.computeOk <==> Room(cache, handles, metas)
    modifies cache`freeList, cache`sequences, cache`places, cache.k, cache.v
    ensures cache.Valid()
    ensures replies == Serve(m, w, BatchedForward(metas, input), env).replies
    ensures Holds(cache, handles, Serve(m, w, BatchedForward(metas, input),
                                        env.(spoiled := Snapshot(cache, handles))).worker)
  {
    hide Injective, ValidWorker, Serve, Holds, Room, Slices, DistinctSeqs, TotalTokens, E.ConcatIds;
    HoldsValid(cache, handles, w);
    var plain := BuildSlices(metas, handles);
    if plain.None? {
      UnknownReply(m, w, metas, input, env);
      UnknownReply(m, w, metas, input, env.(spoiled := Snapshot(cache, handles)));
      return [ErrorReply];
    }
    var seqs, rows := BuildInput(metas, handles, plain.value, input);
    if seqs.None? {
      ShortReply(m, w, metas, input, env);
      ShortReply(m, w, metas, input, env.(spoiled := Snapshot(cache, handles)));
      return [];
    }
    SlicesFirst(metas, handles, seqs.value);
    replies := RunSlices(cache, m, cfg, handles, metas, seqs.value, rows, input, hiddenSize, w, env);
  }

  lemma {:induction false} HoldsValid(cache: PC.PagedKvCacheManager, handles: map<SeqId, nat>, w: Worker)
    requires Holds(cache, handles, w)
    ensures cache.Valid() && w.pagedHandles.Keys == handles.Keys &&
            (forall s :: s in handles ==> handles[s] in cache.sequences) && Injective(handles)
  {
  }

  lemma {:induction false} RangeLayers(m: Model, cfg: NodeConfig)
    requires cfg.Valid() && cfg.total == |m.layers|
    ensures |WeightsOf(m, cfg)| == cfg.NumLayers()
  {
  }

  lemma {:induction false} UnknownReply(m: Model, w: Worker, metas: seq<SequenceMeta>, input: WireInput, env: Env)
    requires ValidWorker(m, w) && !forall i :: 0 <= i < |metas| ==> metas[i].seqId in w.pagedHandles
    ensures Serve(m, w, BatchedForward(metas, input), env) == Served(w, [ErrorReply])
  {
  }

  lemma {:induction false} ShortReply(m: Model, w: Worker, metas: seq<SequenceMeta>, input: WireInput, env: Env)
    requires ValidWorker(m, w) && (forall i :: 0 <= i < |metas| ==> metas[i].seqId in w.pagedHandles)
    requires input.WireIds? && TotalTokens(metas) > |input.ids|
    ensures Serve(m, w, BatchedForward(metas, input), env) == Served(w, [])
  {
  }

  lemma {:induction false} SlicesFirst(metas: seq<SequenceMeta>, handles: map<SeqId, nat>, seqs: seq<E.SequenceSlice>)
    requires Slices(metas, handles, seqs)
    ensures |seqs| == |metas| && (seqs != [] ==> seqs[0].positions == metas[0].positions)
    ensures forall i :: 0 <= i < |metas| ==> metas[i].seqId in handles && seqs[i].handle == handles[metas[i].seqId]
  {
  }

  lemma {:induction false} SlicesCached(cache: PC.PagedKvCacheManager, handles: map<SeqId, nat>,
                                        metas: seq<SequenceMeta>, seqs: seq<E.SequenceSlice>, w: Worker)
    requires Holds(cache, handles, w) && Slices(metas, handles, seqs) && E.Known(cache, seqs)
    ensures AllCached(w.pagedHandles, metas)
    ensures forall i :: 0 <= i < |metas| ==> E.AllCached(cache, seqs)[i] == w.pagedHandles[metas[i].seqId]
  {
    hide PC.PagedKvCacheManager.Cached;
  }
}
