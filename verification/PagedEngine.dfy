/**
 `Engine::forward_node_paged`: the layer loop over the paged cache, for one sequence.  Device
 buffers are row sequences here; what is stored in place is the block pool.
 */
module PagedEngine {
  import opened Core
  import opened Transformer
  import opened TensorRows
  import opened PagedCaching
  import opened Nodes

  // ----- one layer -----

  /**
   One sequence has gone through one layer: `hidden'` is what the cached layer makes of `hidden`
   on the first `start` rows stored, and its new keys and values are stored behind those.
   */
  ghost predicate LayerDone(o: Ops, w: Layer, snap: seq<KV>, snap': seq<KV>, layer: nat, start: nat,
                            hidden: seq<Row>, ps: seq<nat>, hidden': seq<Row>) {
    |hidden| == |ps| && layer < |snap| == |snap'| && start <= |snap[layer].k| && start <= |snap[layer].v| &&
    (forall l :: 0 <= l < |snap| && l != layer ==> Starts(snap'[l], snap[l])) &&
    var c := KV(snap[layer].k[..start], snap[layer].v[..start]);
    hidden' == LayerCached(o, w, c, hidden, ps) && Starts(snap'[layer], Extend(o, w, c, hidden, ps))
  }

  /** Appending the new keys and values and then attending over them is the cached layer. */
  lemma {:induction false} LayerAlone(o: Ops, w: Layer, snap: seq<KV>, snap': seq<KV>, layer: nat, start: nat,
                                      xs: seq<Row>, ps: seq<nat>)
    requires |xs| == |ps| && layer < |snap| == |snap'|
    requires Appended(snap, snap', layer, start, NewKeys(o, w, xs, ps), NewValues(w, xs))
    ensures start + |xs| <= |snap'[layer].k| && start + |xs| <= |snap'[layer].v|
    ensures LayerDone(o, w, snap, snap', layer, start, xs, ps,
                      AfterFfn(o, w, AfterAttention(o, w, xs, ps, snap'[layer].k, snap'[layer].v, start)))
  {
    hide NewKeys, NewValues, AfterFfn, AfterAttention;
    var c := KV(snap[layer].k[..start], snap[layer].v[..start]);
    NewRows(o, w, xs, ps);
    LayerFromStored(o, w, c, xs, ps, snap'[layer]);
  }

  // ----- all layers -----

  /** Where one sequence stands before layer i: done layers stored, the others still as before. */
  ghost predicate Underway(o: Ops, ws: seq<Layer>, cs: seq<KV>, ps: seq<nat>, step: NodeStep, i: nat, hidden: seq<Row>,
                           snap: seq<KV>, start: nat) {
    Progress(o, ws, cs, ps, step, i, hidden) && CachesHold(cs, start) && |snap| == |ws| &&
    StartsFrom(snap, step.caches, 0, i) && StartsFrom(snap, cs, i, |ws|)
  }

  lemma {:induction false} UnderwayStart(o: Ops, ws: seq<Layer>, cs: seq<KV>, ps: seq<nat>, hidden: seq<Row>,
                                         snap: seq<KV>, start: nat)
    requires |ws| == |cs| == |snap| && |hidden| == |ps| && Paired(cs) && CachesHold(cs, start)
    requires StartsFrom(snap, cs, 0, |ws|)
    ensures Underway(o, ws, cs, ps, NodeCached(o, ws, cs, hidden, ps), 0, hidden, snap, start)
  {
    assert ws[0..] == ws && cs[0..] == cs;
    var step := NodeCached(o, ws, cs, hidden, ps);
    assert step.caches[0..] == step.caches;
  }

  lemma {:induction false} UnderwayStep(o: Ops, ws: seq<Layer>, cs: seq<KV>, ps: seq<nat>, step: NodeStep, i: nat,
                                        hidden: seq<Row>, snap: seq<KV>, start: nat, hidden': seq<Row>, snap': seq<KV>)
    requires i < |ws| && Underway(o, ws, cs, ps, step, i, hidden, snap, start)
    requires LayerDone(o, ws[i], snap, snap', i, start, hidden, ps, hidden')
    ensures Underway(o, ws, cs, ps, step, i + 1, hidden', snap', start)
  {
    hide Progress, LayerCached, Extend;
    assert Starts(snap[i], cs[i]);
    assert snap[i].k[..start] == cs[i].k && snap[i].v[..start] == cs[i].v;
    ProgressFits(o, ws, cs, ps, step, i, hidden);
    ProgressStep(o, ws, cs, ps, step, i, hidden);
    StartsStep(snap, snap', cs, step.caches, i, |ws|);
  }

  lemma {:induction false} ProgressFits(o: Ops, ws: seq<Layer>, cs: seq<KV>, ps: seq<nat>, step: NodeStep, i: nat,
                                        hidden: seq<Row>)
    requires Progress(o, ws, cs, ps, step, i, hidden)
    ensures |step.caches| == |cs| == |ws| && Paired(cs) && |hidden| == |ps|
  {
  }

  /** After the last layer the first start + |ps| rows stored are the caches of the step. */
  lemma {:induction false} UnderwayEnd(o: Ops, ws: seq<Layer>, cs: seq<KV>, xs: seq<Row>, ps: seq<nat>,
                                       hidden: seq<Row>, snap: seq<KV>, start: nat, now: seq<KV>)
    requires |ws| == |cs| && |xs| == |ps| && Paired(cs)
    requires Underway(o, ws, cs, ps, NodeCached(o, ws, cs, xs, ps), |ws|, hidden, snap, start)
    requires FirstRows(snap, now, start + |ps|)
    ensures NodeStep(hidden, now) == NodeCached(o, ws, cs, xs, ps)
  {
    hide NodeCached;
    var step := NodeCached(o, ws, cs, xs, ps);
    ProgressEnd(o, ws, cs, ps, step, hidden);
    CachesGrow(o, ws, cs, xs, ps, start);
    forall l | 0 <= l < |ws|
      ensures now[l] == step.caches[l]
    {
      assert Starts(snap[l], step.caches[l]);
    }
  }

  /** `cs` is the first n rows of what is stored. */
  ghost predicate FirstRows(snap: seq<KV>, cs: seq<KV>, n: nat) {
    |cs| == |snap| && CachesHold(cs, n) && StartsFrom(snap, cs, 0, |snap|)
  }

  lemma {:induction false} CachedAreFirst(cache: PagedKvCacheManager, h: nat)
    requires cache.Valid() && h in cache.sequences
    ensures FirstRows(cache.Slots(h), cache.Cached(h), cache.sequences[h].currentLen)
  {
    var snap, cs, n := cache.Slots(h), cache.Cached(h), cache.sequences[h].currentLen;
    forall l | 0 <= l < |snap|
      ensures Starts(snap[l], cs[l])
    {
      assert cs[l].k == snap[l].k[..n] && cs[l].v == snap[l].v[..n];
    }
  }

  // ----- the call -----

  datatype RowInput =
    | Ids(ids: seq<nat>, positions: seq<nat>)
    | Hidden(rows: seq<Row>, positions: seq<nat>)

  datatype RowOutput = LastLogits(logits: Row) | HiddenOut(rows: seq<Row>)

  /** What the kernels take for granted: as many rows as positions. */
  predicate InputFits(cfg: NodeConfig, input: RowInput) {
    match input
    case Ids(ids, positions) => cfg.IsHead() && ids != [] ==> |ids| == |positions|
    case Hidden(rows, positions) => !cfg.IsHead() ==> |rows| == |positions| > 0
  }

  function RowsOf(m: Model, input: RowInput): seq<Row> {
    match input
    case Ids(ids, _) => Embed(m, ids)
    case Hidden(rows, _) => rows
  }

  /** The inputs that are not turned down: role, length, positions, a known handle, enough blocks. */
  ghost predicate Accepted(cache: PagedKvCacheManager, cfg: NodeConfig, input: RowInput, h: nat, maxSeqLen: nat)
    reads cache
    requires cache.Valid()
  {
    (input.Ids? <==> cfg.IsHead()) && (input.Ids? ==> input.ids != []) &&
    AllBelow(input.positions, maxSeqLen) &&
    h in cache.sequences &&
    BlocksNeeded(cache.sequences[h].lastBlockFill, |input.positions|) <= |cache.freeList|
  }

  /** Every sequence but h is as it was, and no handle has appeared or gone. */
  twostate predicate OnlyTouches(cache: PagedKvCacheManager, h: nat)
    reads cache, cache.k, cache.v
  {
    old(cache.Valid()) && cache.Valid() && cache.sequences.Keys == old(cache.sequences).Keys &&
    forall g :: g in cache.sequences && g != h ==>
      cache.sequences[g] == old(cache.sequences)[g] && cache.Slots(g) == old(cache.Slots(g))
  }

  /** Blocks only move between the free list and the table of h, which stays tight on success. */
  twostate predicate Accounted(cache: PagedKvCacheManager, h: nat, ok: bool)
    reads cache
  {
    h in cache.sequences && h in old(cache.sequences) ==>
      |cache.freeList| + |cache.sequences[h].blockTable| ==
        |old(cache.freeList)| + |old(cache.sequences)[h].blockTable| &&
      (ok && old(cache.sequences)[h].Tight() ==> cache.sequences[h].Tight())
  }

  /** Steps 2a to 2k of one layer. */
  method PagedLayer(cache: PagedKvCacheManager, o: Ops, w: Layer, h: nat, layer: nat, hidden: seq<Row>, ps: seq<nat>,
                    start: nat)
    returns (r: Result<seq<Row>>)
    requires cache.Valid() && layer < cache.numLayers && |hidden| == |ps|
    requires h in cache.sequences && cache.sequences[h].currentLen == start + if layer > 0 then |ps| else 0
    modifies cache`freeList, cache`sequences, cache`places, cache.k, cache.v
    ensures OnlyTouches(cache, h)
    ensures Accounted(cache, h, r.Ok?)
    ensures r.Ok? <==> layer > 0 || BlocksNeeded(old(cache.sequences)[h].lastBlockFill, |ps|) <= |old(cache.freeList)|
    ensures r.Err? ==> r.error == OutOfMemory
    ensures r.Ok? ==>
      cache.sequences[h].currentLen == start + |ps| &&
      LayerDone(o, w, old(cache.Slots(h)), cache.Slots(h), layer, start, hidden, ps, r.value)
    ensures layer > 0 ==> cache.sequences == old(cache.sequences) && cache.freeList == old(cache.freeList)
    ensures layer == 0 && r.Ok? ==>
      |cache.freeList| == |old(cache.freeList)| - BlocksNeeded(old(cache.sequences)[h].lastBlockFill, |ps|)
  {
    hide Placed, BlocksNeeded, Appended, LayerDone, NewKeys, NewValues, NewQueries, AfterFfn, AddAttention, AttendRows;
    hide PagedKvCacheManager.Slots;
    var q := NewQueries(o, w, hidden, ps);
    var k := NewKeys(o, w, hidden, ps);
    var v := NewValues(w, hidden);
    var appended := cache.AppendKv(h, layer, k, v);
    if appended.Err? { return Err(appended.error); }
    LayerAlone(o, w, old(cache.Slots(h)), cache.Slots(h), layer, start, hidden, ps);
    var attn := cache.DispatchAttention(o, h, layer, q, start);
    r := Ok(AfterFfn(o, w, AddAttention(o, w, hidden, attn.value)));
  }

  /** The layer loop. */
  method PagedLayers(cache: PagedKvCacheManager, o: Ops, ws: seq<Layer>, h: nat, xs: seq<Row>, ps: seq<nat>)
    returns (r: Result<seq<Row>>)
    requires cache.Valid() && 0 < |ws| == cache.numLayers && |xs| == |ps|
    modifies cache`freeList, cache`sequences, cache`places, cache.k, cache.v
    ensures OnlyTouches(cache, h)
    ensures Accounted(cache, h, r.Ok?)
    ensures r.Ok? <==>
      h in old(cache.sequences) && BlocksNeeded(old(cache.sequences)[h].lastBlockFill, |ps|) <= |old(cache.freeList)|
    ensures r.Err? ==> r.error == if h in old(cache.sequences) then OutOfMemory else KvCache
    ensures r.Ok? ==>
      cache.sequences[h].currentLen == old(cache.sequences)[h].currentLen + |ps| &&
      |cache.freeList| == |old(cache.freeList)| - BlocksNeeded(old(cache.sequences)[h].lastBlockFill, |ps|) &&
      NodeStep(r.value, cache.Cached(h)) == NodeCached(o, ws, old(cache.Cached(h)), xs, ps)
  {
    hide Placed, BlocksNeeded, LayerDone, NodeCached, Underway, StartsFrom, PagedKvCacheManager.Slots,
      PagedKvCacheManager.Cached;
    var len := cache.SeqLen(h);
    if len.Err? { return Err(len.error); }
    var start := len.value;
    var hidden := xs;
    ghost var cs := cache.Cached(h);
    ghost var step := NodeCached(o, ws, cs, xs, ps);
    CachedAreFirst(cache, h);
    UnderwayStart(o, ws, cs, ps, xs, cache.Slots(h), start);
    for i := 0 to |ws|
      invariant OnlyTouches(cache, h) && Accounted(cache, h, true) && |hidden| == |ps|
      invariant cache.sequences[h].currentLen == start + if i > 0 then |ps| else 0
      invariant i == 0 ==> cache.sequences == old(cache.sequences) && cache.freeList == old(cache.freeList)
      invariant i > 0 ==>
        BlocksNeeded(old(cache.sequences)[h].lastBlockFill, |ps|) <= |old(cache.freeList)| &&
        |cache.freeList| == |old(cache.freeList)| - BlocksNeeded(old(cache.sequences)[h].lastBlockFill, |ps|)
      invariant Underway(o, ws, cs, ps, step, i, hidden, cache.Slots(h), start)
    {
      ghost var was, snap := hidden, cache.Slots(h);
      var next := PagedLayer(cache, o, ws[i], h, i, hidden, ps, start);
      if next.Err? { return Err(next.error); }
      hidden := next.value;
      UnderwayStep(o, ws, cs, ps, step, i, was, snap, start, hidden, cache.Slots(h));
      UnderwayFits(o, ws, cs, ps, step, i + 1, hidden, cache.Slots(h), start);
    }
    CachedAreFirst(cache, h);
    UnderwayEnd(o, ws, cs, xs, ps, hidden, cache.Slots(h), start, cache.Cached(h));
    r := Ok(hidden);
  }

  lemma {:induction false} UnderwayFits(o: Ops, ws: seq<Layer>, cs: seq<KV>, ps: seq<nat>, step: NodeStep, i: nat,
                                        hidden: seq<Row>, snap: seq<KV>, start: nat)
    requires Underway(o, ws, cs, ps, step, i, hidden, snap, start)
    ensures |hidden| == |ps|
  {
  }

  /** What a call on one sequence comes to: the cached form's output and caches. */
  ghost predicate Outcome(m: Model, ws: seq<Layer>, isTail: bool, cs: seq<KV>, xs: seq<Row>, ps: seq<nat>,
                          out: RowOutput, cs': seq<KV>) {
    |ws| == |cs| && Paired(cs) && |xs| == |ps| > 0 &&
    var step := NodeCached(m.ops, ws, cs, xs, ps);
    cs' == step.caches && out == if isTail then LastLogits(Logits(m, step.hidden[|xs| - 1])) else HiddenOut(step.hidden)
  }

  /** `Engine::forward_node_paged`; `ws` are the node's layers. */
  method ForwardNodePaged(cache: PagedKvCacheManager, m: Model, ws: seq<Layer>, maxSeqLen: nat, cfg: NodeConfig,
                          input: RowInput, h: nat)
    returns (r: Result<RowOutput>)
    requires cache.Valid() && cfg.Valid() && |ws| == cfg.NumLayers() == cache.numLayers && InputFits(cfg, input)
    modifies cache`freeList, cache`sequences, cache`places, cache.k, cache.v
    ensures OnlyTouches(cache, h)
    ensures Accounted(cache, h, r.Ok?)
    ensures r.Ok? <==> old(Accepted(cache, cfg, input, h, maxSeqLen))
    ensures r.Err? ==>
      r.error == if input.Ids? != cfg.IsHead() then Pipeline
                 else if (input.Ids? && input.ids == []) || !AllBelow(input.positions, maxSeqLen) then InvalidShape
                 else if h in old(cache.sequences) then OutOfMemory
                 else KvCache
    ensures r.Ok? ==>
      cache.sequences[h].currentLen == old(cache.sequences)[h].currentLen + |input.positions| &&
      |cache.freeList| == |old(cache.freeList)| - BlocksNeeded(old(cache.sequences)[h].lastBlockFill,
                                                               |input.positions|) &&
      Outcome(m, ws, cfg.IsTail(), old(cache.Cached(h)), RowsOf(m, input), input.positions, r.value, cache.Cached(h))
  {
    hide Placed, BlocksNeeded, NodeCached, Logits, PagedKvCacheManager.Slots, PagedKvCacheManager.Cached;
    var xs := RowsOf(m, input);
    match input {
      case Ids(ids, _) =>
        if !cfg.IsHead() { return Err(Pipeline); }
        if ids == [] { return Err(InvalidShape); }
      case Hidden(_, _) =>
        if cfg.IsHead() { return Err(Pipeline); }
    }
    var inRange := PositionsInRange(input.positions, maxSeqLen);
    if !inRange { return Err(InvalidShape); }
    var hidden := PagedLayers(cache, m.ops, ws, h, xs, input.positions);
    if hidden.Err? { return Err(hidden.error); }
    r := Ok(if cfg.IsTail() then LastLogits(Logits(m, hidden.value[|xs| - 1])) else HiddenOut(hidden.value));
  }

  /** `Engine::forward_paged`: the whole model on one sequence, ids to logits. */
  method ForwardPaged(cache: PagedKvCacheManager, m: Model, maxSeqLen: nat, ids: seq<nat>, ps: seq<nat>, h: nat)
    returns (r: Result<Row>)
    requires cache.Valid() && 0 < |m.layers| == cache.numLayers && (ids != [] ==> |ids| == |ps|)
    modifies cache`freeList, cache`sequences, cache`places, cache.k, cache.v
    ensures OnlyTouches(cache, h)
    ensures Accounted(cache, h, r.Ok?)
    ensures r.Ok? <==>
      ids != [] && AllBelow(ps, maxSeqLen) && h in old(cache.sequences) &&
      BlocksNeeded(old(cache.sequences)[h].lastBlockFill, |ps|) <= |old(cache.freeList)|
    ensures r.Err? ==>
      r.error == if ids == [] || !AllBelow(ps, maxSeqLen) then InvalidShape
                 else if h in old(cache.sequences) then OutOfMemory
                 else KvCache
    ensures r.Ok? ==>
      cache.sequences[h].currentLen == old(cache.sequences)[h].currentLen + |ps| &&
      |cache.freeList| == |old(cache.freeList)| - BlocksNeeded(old(cache.sequences)[h].lastBlockFill, |ps|) &&
      Outcome(m, m.layers, true, old(cache.Cached(h)), Embed(m, ids), ps, LastLogits(r.value), cache.Cached(h))
  {
    hide Placed, BlocksNeeded, Outcome, PagedKvCacheManager.Slots, PagedKvCacheManager.Cached;
    var cfg := NodeConfig(0, |m.layers|, |m.layers|);
    var input := Ids(ids, ps);
    var out := ForwardNodePaged(cache, m, m.layers, maxSeqLen, cfg, input, h);
    if out.Err? { return Err(out.error); }
    TailGivesLogits(m, m.layers, old(cache.Cached(h)), Embed(m, ids), ps, out.value, cache.Cached(h));
    r := Ok(out.value.logits);
  }

  /** A tail never returns activations, so the caller's error for that does not occur. */
  lemma {:induction false} TailGivesLogits(m: Model, ws: seq<Layer>, cs: seq<KV>, xs: seq<Row>, ps: seq<nat>,
                                           out: RowOutput, cs': seq<KV>)
    requires Outcome(m, ws, true, cs, xs, ps, out, cs')
    ensures out.LastLogits?
  {
  }
}
