/**
 A worker's cache messages on its two cache managers.  A sequence has a handle in both; the
 contiguous one is taken first and given back when the paged one cannot be had.
 */
module WorkerCaches {
  import opened Core
  import opened Transformer
  import opened DeviceMemory
  import opened ContiguousCache
  import opened Nodes
  import opened WorkerProtocol
  import PC = PagedCaching
  import PE = PagedEngine
  import WB = WorkerBatch

  // ----- handles and what they stand for -----

  /**
   `held` is what the entries of a manager hold, by sequence: each sequence has its own entry, and
   every entry belongs to a sequence.
   */
  ghost predicate Matches(handles: map<SeqId, nat>, entries: map<nat, seq<KV>>, held: map<SeqId, seq<KV>>) {
    held.Keys == handles.Keys &&
    (forall s :: s in handles ==> handles[s] in entries && held[s] == entries[handles[s]]) &&
    (forall s, t :: s in handles && t in handles && s != t ==> handles[s] != handles[t]) &&
    (forall h :: h in entries ==> exists s :: s in handles && handles[s] == h)
  }

  lemma {:induction false} MatchesAdd(handles: map<SeqId, nat>, entries: map<nat, seq<KV>>, held: map<SeqId, seq<KV>>,
                                      s: SeqId, h: nat, cs: seq<KV>)
    requires Matches(handles, entries, held) && s !in handles && h !in entries
    ensures Matches(handles[s := h], entries[h := cs], held[s := cs])
  {
    var handles', entries' := handles[s := h], entries[h := cs];
    forall g | g in entries'
      ensures exists t :: t in handles' && handles'[t] == g
    {
      if g == h {
        assert handles'[s] == g;
      } else {
        var t :| t in handles && handles[t] == g;
        assert handles'[t] == g;
      }
    }
  }

  lemma {:induction false} MatchesDrop(handles: map<SeqId, nat>, entries: map<nat, seq<KV>>,
                                       held: map<SeqId, seq<KV>>, s: SeqId)
    requires Matches(handles, entries, held) && s in handles
    ensures Matches(handles - {s}, entries - {handles[s]}, held - {s})
  {
    var handles', entries' := handles - {s}, entries - {handles[s]};
    forall g | g in entries'
      ensures exists t :: t in handles' && handles'[t] == g
    {
      var t :| t in handles && handles[t] == g;
      assert handles'[t] == g;
    }
  }

  lemma {:induction false} MatchesNone(entries: map<nat, seq<KV>>, held: map<SeqId, seq<KV>>)
    ensures Matches(map[], entries, held) <==> entries == map[] && held == map[]
  {
    if Matches(map[], entries, held) {
      assert forall h :: h !in entries;
      assert entries == map[] && held == map[];
    }
  }

  // ----- contiguous caches -----

  /** What the manager's sequences have cached. */
  ghost function TensorCaches(dev: Device, cache: KvCacheManager): (cs: map<nat, seq<KV>>)
    reads dev, cache, cache.owned
    requires cache.Valid(dev)
    ensures cs.Keys == cache.caches.Keys
  {
    map h | h in cache.caches :: cache.Cached(h)
  }

  lemma {:induction false} NewIsEmpty(cache: KvCacheManager, h: nat, dev: Device, cfg: NodeConfig)
    requires cache.Valid(dev) && h in cache.caches && cache.caches[h].currentLen == 0 && cfg.Valid() &&
             cache.numLayers == cfg.NumLayers()
    ensures cache.Cached(h) == EmptyCache(cfg)
  {
    assert cache.caches[h].Valid();
    assert cache.Cached(h) == EmptyCache(cfg);
  }

  /**
   A new sequence next to the others, which keep what they have cached; or the device is full, and
   nothing else has changed.
   */
  method TakeTensors(dev: Device, cache: KvCacheManager, ghost cfg: NodeConfig) returns (r: Result<nat>)
    requires dev.Valid() && cache.Valid(dev) && cfg.Valid() && cache.numLayers == cfg.NumLayers()
    modifies dev, cache
    ensures dev.Valid() && cache.Valid(dev)
    ensures r.Ok? <==> |old(dev.live)| + 2 * cache.numLayers <= dev.capacity
    ensures r.Ok? ==>
      r.value !in old(cache.caches) && r.value in cache.caches &&
      cache.caches == old(cache.caches)[r.value := cache.caches[r.value]] &&
      TensorCaches(dev, cache) == old(TensorCaches(dev, cache))[r.value := EmptyCache(cfg)] &&
      dev.live == old(dev.live) + cache.caches[r.value].Tensors() && cache.caches[r.value].Tensors() !! old(dev.live)
    ensures r.Err? ==>
      cache.caches == old(cache.caches) && TensorCaches(dev, cache) == old(TensorCaches(dev, cache)) &&
      old(dev.live) <= dev.live &&
      |dev.live| == dev.capacity
  {
    hide Entries, SequenceCache.Tensors, EmptyCache;
    r := cache.Alloc(dev);
    forall g | g in old(cache.caches)
      ensures g in cache.caches && cache.Cached(g) == old(cache.Cached(g))
    {
      assert cache.caches[g] == old(cache.caches)[g];
    }
    if r.Ok? { NewIsEmpty(cache, r.value, dev, cfg); }
  }

  /** A sequence and its tensors go; the others keep what they have cached. */
  method GiveTensors(dev: Device, cache: KvCacheManager, h: nat)
    requires dev.Valid() && cache.Valid(dev) && h in cache.caches
    modifies dev, cache`caches, cache`owned
    ensures dev.Valid() && cache.Valid(dev) && cache.caches == old(cache.caches) - {h}
    ensures TensorCaches(dev, cache) == old(TensorCaches(dev, cache)) - {h}
    ensures dev.live == old(dev.live) - old(cache.caches)[h].Tensors()
  {
    hide Entries, SequenceCache.Tensors;
    var r := cache.Free(dev, h);
    assert r.Ok?;
    forall g | g in old(cache.caches) && g != h
      ensures g in cache.caches && cache.Cached(g) == old(cache.Cached(g))
    {
      assert cache.caches[g] == old(cache.caches)[g];
    }
  }

  /** The tensors of all sequences. */
  ghost function TensorsIn(caches: Table): set<Tensor> {
    set h, t | h in caches && t in caches[h].Tensors() :: t
  }

  lemma {:induction false} TensorsInWithout(caches: Table, h: nat)
    requires h in caches
    ensures TensorsIn(caches) == TensorsIn(caches - {h}) + caches[h].Tensors()
  {
    hide SequenceCache.Tensors;
    var rest := caches - {h};
    assert forall g :: g in caches && g != h ==> g in rest && rest[g] == caches[g];
    assert forall t :: t in caches[h].Tensors() ==> t in TensorsIn(caches);
  }

  // ----- paged caches -----

  ghost function PagedCaches(paged: PC.PagedKvCacheManager): (cs: map<nat, seq<KV>>)
    reads paged, paged.k, paged.v
    requires paged.Valid()
    ensures cs.Keys == paged.sequences.Keys
  {
    map h | h in paged.sequences :: paged.Cached(h)
  }

  lemma {:induction false} AllFirst(paged: PC.PagedKvCacheManager)
    requires paged.Valid()
    ensures forall h :: h in paged.sequences ==>
      PE.FirstRows(paged.Slots(h), paged.Cached(h), paged.sequences[h].currentLen)
  {
    hide PE.FirstRows, PC.PagedKvCacheManager.Slots, PC.PagedKvCacheManager.Cached, PC.Placed;
    forall h | h in paged.sequences
      ensures PE.FirstRows(paged.Slots(h), paged.Cached(h), paged.sequences[h].currentLen)
    {
      PE.CachedAreFirst(paged, h);
    }
  }

  lemma {:induction false} NoRows(paged: PC.PagedKvCacheManager, h: nat, cfg: NodeConfig)
    requires paged.Valid() && h in paged.sequences && paged.sequences[h].currentLen == 0 && cfg.Valid() &&
             paged.numLayers == cfg.NumLayers()
    ensures paged.Cached(h) == EmptyCache(cfg)
  {
    hide PC.Placed;
    assert CachesHold(paged.Cached(h), 0);
  }

  /** A new sequence with one block, next to the others. */
  method TakeBlock(paged: PC.PagedKvCacheManager, ghost cfg: NodeConfig) returns (r: Result<nat>)
    requires paged.Valid() && cfg.Valid() && paged.numLayers == cfg.NumLayers()
    modifies paged
    ensures paged.Valid() && (r.Ok? <==> old(paged.freeList) != [])
    ensures r.Ok? ==>
      r.value !in old(paged.sequences) && |paged.freeList| == |old(paged.freeList)| - 1 &&
      PagedCaches(paged) == old(PagedCaches(paged))[r.value := EmptyCache(cfg)]
    ensures r.Err? ==> paged.freeList == old(paged.freeList) && PagedCaches(paged) == old(PagedCaches(paged))
  {
    hide PC.Placed, PE.FirstRows, PC.PagedKvCacheManager.Slots, PC.PagedKvCacheManager.Cached;
    AllFirst(paged);
    r := paged.Alloc();
    forall g | g in old(paged.sequences)
      ensures g in paged.sequences && paged.Cached(g) == old(paged.Cached(g))
    {
      WB.StillCached(paged, g, old(paged.Cached(g)));
    }
    if r.Ok? { NoRows(paged, r.value, cfg); }
  }

  /** All blocks of a sequence go back to the pool. */
  method GiveBlocks(paged: PC.PagedKvCacheManager, h: nat)
    requires paged.Valid() && h in paged.sequences
    modifies paged`freeList, paged`sequences, paged`places
    ensures paged.Valid() && PagedCaches(paged) == old(PagedCaches(paged)) - {h}
    ensures paged.freeList == old(paged.freeList) + old(paged.sequences)[h].blockTable
  {
    hide PC.Placed, PE.FirstRows, PC.PagedKvCacheManager.Slots, PC.PagedKvCacheManager.Cached;
    AllFirst(paged);
    var r := paged.Free(h);
    assert r.Ok?;
    forall g | g in paged.sequences
      ensures paged.Cached(g) == old(paged.Cached(g))
    {
      WB.StillCached(paged, g, old(paged.Cached(g)));
    }
  }

  /** Without sequences, every block is free. */
  lemma {:induction false} NoneUsed(paged: PC.PagedKvCacheManager)
    requires paged.Valid() && paged.sequences == map[]
    ensures forall b :: 0 <= b < paged.k.Length0 ==> b in paged.freeList
  {
    forall b | 0 <= b < paged.k.Length0
      ensures b in paged.freeList
    {
      assert paged.places[b].FreeAt?;
    }
  }

  // ----- the messages -----

  lemma {:induction false} AllocServed(m: Model, w: Worker, s: SeqId, env: Env)
    requires ValidWorker(m, w)
    ensures Serve(m, w, CacheAlloc(s), env) ==
            if s in w.handles || !env.contiguousOk || !env.pagedOk then Served(w, [ErrorReply])
            else Served(Worker(w.cfg, w.hiddenSize, w.handles[s := EmptyCache(w.cfg)],
                               w.pagedHandles[s := EmptyCache(w.cfg)]), [CacheAllocAck])
  {
  }

  lemma {:induction false} FreeServed(m: Model, w: Worker, s: SeqId, env: Env)
    requires ValidWorker(m, w)
    ensures Serve(m, w, CacheFree(s), env) ==
            if s in w.handles then Served(Worker(w.cfg, w.hiddenSize, w.handles - {s}, w.pagedHandles - {s}), [])
            else Served(w, [ErrorReply])
  {
  }

  lemma {:induction false} ReconfigureServed(m: Model, w: Worker, start: nat, end: nat, total: nat, env: Env)
    requires ValidWorker(m, w)
    ensures var cfg := NewNodeConfig(start, end, total);
            Serve(m, w, Reconfigure(start, end, total), env) ==
            if cfg.Ok? && total == |m.layers| then Served(Worker(cfg.value, w.hiddenSize, map[], map[]), [WorkerReady])
            else Served(Worker(w.cfg, w.hiddenSize, map[], map[]), [])
  {
  }

  lemma {:induction false} SameKeys(m: Model, w: Worker)
    requires ValidWorker(m, w)
    ensures w.handles.Keys == w.pagedHandles.Keys && w.cfg.Valid()
  {
  }

  ghost predicate OnCaches(req: Request) {
    req.CacheAlloc? || req.CacheFree? || req.Reconfigure? || req.Shutdown?
  }

  ghost function RepliesOf(m: Model, w: Worker, reqs: seq<(Request, Env)>): seq<Reply>
    requires ValidWorker(m, w)
    decreases |reqs|
  {
    if reqs == [] then []
    else
      ServeKeeps(m, w, reqs[0].0, reqs[0].1);
      var served := Serve(m, w, reqs[0].0, reqs[0].1);
      served.replies + RepliesOf(m, served.worker, reqs[1..])
  }

  lemma {:induction false} NothingServed(m: Model, w: Worker)
    requires ValidWorker(m, w)
    ensures ServeAll(m, w, []) == w && RepliesOf(m, w, []) == []
  {
  }

  lemma {:induction false} ServeAllSnoc(m: Model, w: Worker, reqs: seq<(Request, Env)>, last: (Request, Env))
    requires ValidWorker(m, w)
    ensures var served := Serve(m, ServeAll(m, w, reqs), last.0, last.1);
            ServeAll(m, w, reqs + [last]) == served.worker &&
            RepliesOf(m, w, reqs + [last]) == RepliesOf(m, w, reqs) + served.replies
    decreases |reqs|
  {
    hide Serve, ValidWorker;
    var all := reqs + [last];
    ServeKeeps(m, w, all[0].0, all[0].1);
    var first := Serve(m, w, all[0].0, all[0].1);
    if reqs == [] {
      assert all[1..] == [] && all[0] == last;
      NothingServed(m, first.worker);
      assert [] + first.replies == first.replies == first.replies + [];
    } else {
      assert all[1..] == reqs[1..] + [last] && all[0] == reqs[0];
      ServeAllSnoc(m, first.worker, reqs[1..], last);
    }
  }

  class Caches {
    var cfg: NodeConfig
    var cache: KvCacheManager
    var paged: PC.PagedKvCacheManager
    var handles: map<SeqId, nat>
    var pagedHandles: map<SeqId, nat>

    ghost predicate HoldsTensors(dev: Device, held: map<SeqId, seq<KV>>)
      reads this`cfg, this`cache, this`handles, dev, cache, cache.owned
    {
      dev.Valid() && cache.Valid(dev) && cfg.Valid() && cache.numLayers == cfg.NumLayers() &&
      Matches(handles, TensorCaches(dev, cache), held)
    }

    ghost predicate HoldsBlocks(held: map<SeqId, seq<KV>>)
      reads this`cfg, this`paged, this`pagedHandles, paged, paged.k, paged.v
    {
      paged.Valid() && cfg.Valid() && paged.numLayers == cfg.NumLayers() &&
      Matches(pagedHandles, PagedCaches(paged), held)
    }

    /** The worker of the serve loop that holds what these caches hold. */
    ghost predicate Holds(dev: Device, w: Worker)
      reads this, dev, cache, cache.owned, paged, paged.k, paged.v
    {
      w.cfg == cfg && HoldsTensors(dev, w.handles) && HoldsBlocks(w.pagedHandles)
    }

    /** Both managers start out empty. */
    constructor (dev: Device, cfg: NodeConfig, maxSeqLen: nat, numBlocks: nat, ghost hiddenSize: nat)
      requires dev.Valid() && cfg.Valid()
      ensures fresh(cache) && fresh(paged) && fresh(paged.k) && fresh(paged.v) && |paged.freeList| == numBlocks
      ensures Holds(dev, Worker(cfg, hiddenSize, map[], map[]))
    {
      this.cfg := cfg;
      cache := new KvCacheManager(cfg.NumLayers(), maxSeqLen);
      paged := new PC.PagedKvCacheManager(numBlocks, cfg.NumLayers());
      handles, pagedHandles := map[], map[];
      new;
      MatchesNone(TensorCaches(dev, cache), map[]);
      MatchesNone(PagedCaches(paged), map[]);
    }

    lemma {:induction false} TensorKeys(dev: Device, held: map<SeqId, seq<KV>>)
      requires HoldsTensors(dev, held)
      ensures cfg.Valid() && held.Keys == handles.Keys && forall s :: s in handles ==> handles[s] in cache.caches
    {
      hide TensorCaches;
    }

    lemma {:induction false} BlockKeys(held: map<SeqId, seq<KV>>)
      requires HoldsBlocks(held)
      ensures held.Keys == pagedHandles.Keys && forall s :: s in pagedHandles ==> pagedHandles[s] in paged.sequences
    {
      hide PagedCaches, PC.Placed;
    }

    /** A contiguous cache for a new sequence. */
    method AddTensors(dev: Device, s: SeqId, ghost held: map<SeqId, seq<KV>>) returns (r: Result<()>)
      requires HoldsTensors(dev, held) && s !in handles
      modifies this`handles, dev, cache
      ensures r.Ok? <==> |old(dev.live)| + 2 * cache.numLayers <= dev.capacity
      ensures r.Ok? ==>
        HoldsTensors(dev, held[s := EmptyCache(cfg)]) && s in handles && handles - {s} == old(handles) &&
        handles[s] in cache.caches &&
        cache.caches - {handles[s]} == old(cache.caches) &&
        dev.live == old(dev.live) + cache.caches[handles[s]].Tensors() &&
        dev.live - cache.caches[handles[s]].Tensors() == old(dev.live)
      ensures r.Err? ==>
        HoldsTensors(dev, held) && handles == old(handles) && cache.caches == old(cache.caches) &&
        old(dev.live) <= dev.live &&
        |dev.live| == dev.capacity
    {
      hide Matches, TensorCaches, Entries, SequenceCache.Tensors, EmptyCache;
      var h := TakeTensors(dev, cache, cfg);
      if h.Err? { return Err(h.error); }
      MatchesAdd(handles, old(TensorCaches(dev, cache)), held, s, h.value, EmptyCache(cfg));
      handles := handles[s := h.value];
      r := Ok(());
    }

    method DropTensors(dev: Device, s: SeqId, ghost held: map<SeqId, seq<KV>>)
      requires HoldsTensors(dev, held) && s in handles
      modifies this`handles, dev, cache`caches, cache`owned
      ensures HoldsTensors(dev, held - {s}) && handles == old(handles) - {s} && old(handles)[s] in old(cache.caches)
      ensures cache.caches == old(cache.caches) - {old(handles)[s]}
      ensures dev.live == old(dev.live) - old(cache.caches)[old(handles)[s]].Tensors()
    {
      hide Matches, TensorCaches, Entries, SequenceCache.Tensors;
      TensorKeys(dev, held);
      MatchesDrop(handles, TensorCaches(dev, cache), held, s);
      var h := handles[s];
      handles := handles - {s};
      GiveTensors(dev, cache, h);
    }

    /** A paged cache for a new sequence. */
    method AddBlock(s: SeqId, ghost held: map<SeqId, seq<KV>>) returns (r: Result<()>)
      requires HoldsBlocks(held) && s !in pagedHandles
      modifies this`pagedHandles, paged
      ensures r.Ok? <==> old(paged.freeList) != []
      ensures r.Ok? ==>
        HoldsBlocks(held[s := EmptyCache(cfg)]) && pagedHandles.Keys == old(pagedHandles).Keys + {s} &&
        |paged.freeList| == |old(paged.freeList)| - 1
      ensures r.Err? ==> HoldsBlocks(held) && pagedHandles == old(pagedHandles) && paged.freeList == old(paged.freeList)
    {
      hide Matches, PagedCaches, PC.Placed, EmptyCache;
      var h := TakeBlock(paged, cfg);
      if h.Err? { return Err(h.error); }
      MatchesAdd(pagedHandles, old(PagedCaches(paged)), held, s, h.value, EmptyCache(cfg));
      pagedHandles := pagedHandles[s := h.value];
      r := Ok(());
    }

    method DropBlocks(s: SeqId, ghost held: map<SeqId, seq<KV>>)
      requires HoldsBlocks(held) && s in pagedHandles
      modifies this`pagedHandles, paged`freeList, paged`sequences, paged`places
      ensures HoldsBlocks(held - {s}) && pagedHandles == old(pagedHandles) - {s} &&
              old(pagedHandles)[s] in old(paged.sequences)
      ensures paged.freeList == old(paged.freeList) + old(paged.sequences)[old(pagedHandles)[s]].blockTable
    {
      hide Matches, PagedCaches, PC.Placed;
      BlockKeys(held);
      MatchesDrop(pagedHandles, PagedCaches(paged), held, s);
      var h := pagedHandles[s];
      pagedHandles := pagedHandles - {s};
      GiveBlocks(paged, h);
    }

    /** Both caches of a new sequence, or neither. */
    method AddBoth(dev: Device, s: SeqId, ghost t: map<SeqId, seq<KV>>, ghost b: map<SeqId, seq<KV>>) returns (ok: bool)
      requires HoldsTensors(dev, t) && HoldsBlocks(b) && s !in handles && s !in t && s !in pagedHandles
      modifies this`handles, this`pagedHandles, dev, cache, paged
      ensures ok <==> |old(dev.live)| + 2 * cache.numLayers <= dev.capacity && old(paged.freeList) != []
      ensures ok ==>
        HoldsTensors(dev, t[s := EmptyCache(cfg)]) && HoldsBlocks(b[s := EmptyCache(cfg)]) &&
        s in handles && handles[s] in cache.caches && |paged.freeList| == |old(paged.freeList)| - 1 &&
        dev.live == old(dev.live) + cache.caches[handles[s]].Tensors()
      ensures !ok ==>
        HoldsTensors(dev, t) && HoldsBlocks(b) && handles == old(handles) && pagedHandles == old(pagedHandles) &&
        cache.caches == old(cache.caches) && paged.freeList == old(paged.freeList) &&
        if |old(dev.live)| + 2 * cache.numLayers <= dev.capacity then dev.live == old(dev.live)
        else old(dev.live) <= dev.live && |dev.live| == dev.capacity
    {
      hide HoldsTensors, HoldsBlocks, SequenceCache.Tensors, EmptyCache;
      TensorKeys(dev, t);
      var r := AddTensors(dev, s, t);
      if r.Err? { return false; }
      r := AddBlock(s, b);
      if r.Err? {
        DropTensors(dev, s, t[s := EmptyCache(cfg)]);
        assert t[s := EmptyCache(cfg)] - {s} == t;
        return false;
      }
      ok := true;
    }

    /**
     `CacheAlloc`.  Reply and caches are the serve loop's, where the device decides about the
     contiguous cache by its room and the pool about the paged one by its free blocks.  If the
     pool is empty the contiguous cache is given back, and the device holds what it held.  If the
     device runs out, it is left full of tensors that belong to no sequence.
     */
    method HandleAlloc(dev: Device, s: SeqId, ghost m: Model, ghost w: Worker, ghost env: Env) returns (reply: Reply)
      requires Holds(dev, w) && ValidWorker(m, w)
      requires env.contiguousOk <==> |dev.live| + 2 * cache.numLayers <= dev.capacity
      requires env.pagedOk <==> paged.freeList != []
      modifies this`handles, this`pagedHandles, dev, cache, paged
      ensures Holds(dev, Serve(m, w, CacheAlloc(s), env).worker) && [reply] == Serve(m, w, CacheAlloc(s), env).replies
      ensures handles.Keys == pagedHandles.Keys
      ensures reply == CacheAllocAck ==>
        s in handles && handles[s] in cache.caches && |paged.freeList| == |old(paged.freeList)| - 1 &&
        dev.live == old(dev.live) + cache.caches[handles[s]].Tensors()
      ensures reply != CacheAllocAck ==>
        handles == old(handles) && pagedHandles == old(pagedHandles) && cache.caches == old(cache.caches) &&
        paged.freeList == old(paged.freeList)
      ensures s in old(handles) || (env.contiguousOk && !env.pagedOk) ==> dev.live == old(dev.live)
      ensures s !in old(handles) && !env.contiguousOk ==> old(dev.live) <= dev.live && |dev.live| == dev.capacity
    {
      hide HoldsTensors, HoldsBlocks, ValidWorker, Serve, SequenceCache.Tensors, EmptyCache;
      SameKeys(m, w);
      TensorKeys(dev, w.handles);
      BlockKeys(w.pagedHandles);
      AllocServed(m, w, s, env);
      if s in handles { return ErrorReply; }
      var ok := AddBoth(dev, s, w.handles, w.pagedHandles);
      TensorKeys(dev, if ok then w.handles[s := EmptyCache(cfg)] else w.handles);
      BlockKeys(if ok then w.pagedHandles[s := EmptyCache(cfg)] else w.pagedHandles);
      reply := if ok then CacheAllocAck else ErrorReply;
    }

    /** `CacheFree`: the tensors and blocks of the sequence are given back, and no others. */
    method HandleFree(dev: Device, s: SeqId, ghost m: Model, ghost w: Worker, ghost env: Env)
      returns (replies: seq<Reply>)
      requires Holds(dev, w) && ValidWorker(m, w)
      modifies this`handles, this`pagedHandles, dev, cache, paged
      ensures Holds(dev, Serve(m, w, CacheFree(s), env).worker) && replies == Serve(m, w, CacheFree(s), env).replies
      ensures handles.Keys == pagedHandles.Keys == old(handles).Keys - {s}
      ensures s in old(handles) ==>
        old(handles)[s] in old(cache.caches) && s in old(pagedHandles) &&
        old(pagedHandles)[s] in old(paged.sequences) &&
        dev.live == old(dev.live) - old(cache.caches)[old(handles)[s]].Tensors() &&
        paged.freeList == old(paged.freeList) + old(paged.sequences)[old(pagedHandles)[s]].blockTable
      ensures s !in old(handles) ==> dev.live == old(dev.live) && paged.freeList == old(paged.freeList)
    {
      hide HoldsTensors, HoldsBlocks, ValidWorker, Serve, SequenceCache.Tensors;
      SameKeys(m, w);
      TensorKeys(dev, w.handles);
      BlockKeys(w.pagedHandles);
      FreeServed(m, w, s, env);
      if s !in handles { return [ErrorReply]; }
      DropTensors(dev, s, w.handles);
      DropBlocks(s, w.pagedHandles);
      replies := [];
    }

    /**
     All contiguous caches are given back, in whatever order; the device keeps the tensors that
     belong to no sequence.
     */
    method DrainTensors(dev: Device, ghost held: map<SeqId, seq<KV>>)
      requires HoldsTensors(dev, held)
      modifies this`handles, dev, cache`caches, cache`owned
      ensures dev.Valid() && HoldsTensors(dev, map[]) && handles == map[] &&
              dev.live == old(dev.live) - TensorsIn(old(cache.caches))
    {
      hide HoldsTensors, TensorsIn, SequenceCache.Tensors;
      ghost var rest, removed := held, {};
      while handles != map[]
        invariant HoldsTensors(dev, rest) && dev.live == old(dev.live) - removed &&
                  removed + TensorsIn(cache.caches) == TensorsIn(old(cache.caches))
        decreases |handles|
      {
        var s :| s in handles;
        TensorKeys(dev, rest);
        TensorsInWithout(cache.caches, handles[s]);
        removed := removed + cache.caches[handles[s]].Tensors();
        DropTensors(dev, s, rest);
        rest := rest - {s};
      }
      NoTensors(dev, rest);
    }

    lemma {:induction false} NoTensors(dev: Device, held: map<SeqId, seq<KV>>)
      requires HoldsTensors(dev, held) && handles == map[]
      ensures dev.Valid() && held == map[] && TensorsIn(cache.caches) == {}
    {
      MatchesNone(TensorCaches(dev, cache), held);
      assert cache.caches == map[];
    }

    /** All paged caches are given back; then every block is free. */
    method DrainBlocks(ghost held: map<SeqId, seq<KV>>)
      requires HoldsBlocks(held)
      modifies this`pagedHandles, paged`freeList, paged`sequences, paged`places
      ensures HoldsBlocks(map[]) && pagedHandles == map[] &&
              forall b :: 0 <= b < paged.k.Length0 ==> b in paged.freeList
    {
      hide HoldsBlocks;
      ghost var rest := held;
      while pagedHandles != map[]
        invariant HoldsBlocks(rest)
        decreases |pagedHandles|
      {
        var s :| s in pagedHandles;
        DropBlocks(s, rest);
        rest := rest - {s};
      }
      NoBlocks(rest);
    }

    lemma {:induction false} NoBlocks(held: map<SeqId, seq<KV>>)
      requires HoldsBlocks(held) && pagedHandles == map[]
      ensures held == map[] && forall b :: 0 <= b < paged.k.Length0 ==> b in paged.freeList
    {
      hide PC.Placed;
      MatchesNone(PagedCaches(paged), held);
      assert paged.sequences == map[];
      NoneUsed(paged);
    }

    /**
     `Reconfigure`: all caches are given back, then both managers are built anew for the new
     layers.  A range that is refused stops the worker after the caches are gone.
     */
    method HandleReconfigure(dev: Device, start: nat, end: nat, total: nat, maxSeqLen: nat, numBlocks: nat, m: Model,
                             ghost w: Worker, ghost env: Env) returns (replies: seq<Reply>)
      requires Holds(dev, w) && ValidWorker(m, w)
      modifies this, dev, cache, paged
      ensures Holds(dev, Serve(m, w, Reconfigure(start, end, total), env).worker)
      ensures replies == Serve(m, w, Reconfigure(start, end, total), env).replies
      ensures handles == map[] && pagedHandles == map[] && dev.live == old(dev.live) - TensorsIn(old(cache.caches))
      ensures replies == [WorkerReady] ==>
        fresh(cache) && fresh(paged) && fresh(paged.k) && fresh(paged.v) && |paged.freeList| == numBlocks
      ensures replies != [WorkerReady] ==> replies == [] && cache == old(cache) && paged == old(paged)
    {
      hide HoldsTensors, HoldsBlocks, ValidWorker, Serve, TensorsIn;
      ReconfigureServed(m, w, start, end, total, env);
      DrainTensors(dev, w.handles);
      DrainBlocks(w.pagedHandles);
      var c := NewNodeConfig(start, end, total);
      if c.Err? || total != |m.layers| { return []; }
      Rebuild(dev, c.value, maxSeqLen, numBlocks);
      replies := [WorkerReady];
    }

    /** `Shutdown`: all caches are given back, and the worker leaves. */
    method HandleShutdown(dev: Device, ghost m: Model, ghost w: Worker, ghost env: Env)
      requires Holds(dev, w) && ValidWorker(m, w)
      modifies this`handles, this`pagedHandles, dev, cache, paged
      ensures Serve(m, w, Shutdown, env).replies == [] && Holds(dev, Serve(m, w, Shutdown, env).worker)
      ensures handles == map[] && pagedHandles == map[] && dev.live == old(dev.live) - TensorsIn(old(cache.caches))
      ensures forall b :: 0 <= b < paged.k.Length0 ==> b in paged.freeList
    {
      hide HoldsTensors, HoldsBlocks, ValidWorker, TensorsIn;
      DrainTensors(dev, w.handles);
      DrainBlocks(w.pagedHandles);
    }

    method Rebuild(dev: Device, newCfg: NodeConfig, maxSeqLen: nat, numBlocks: nat)
      requires dev.Valid() && newCfg.Valid() && handles == map[] && pagedHandles == map[]
      modifies this`cfg, this`cache, this`paged
      ensures cfg == newCfg && HoldsTensors(dev, map[]) && HoldsBlocks(map[])
      ensures fresh(cache) && fresh(paged) && fresh(paged.k) && fresh(paged.v) && |paged.freeList| == numBlocks
    {
      cfg := newCfg;
      cache := new KvCacheManager(cfg.NumLayers(), maxSeqLen);
      paged := new PC.PagedKvCacheManager(numBlocks, cfg.NumLayers());
      MatchesNone(TensorCaches(dev, cache), map[]);
      MatchesNone(PagedCaches(paged), map[]);
    }

    /** What device and pool decide about an allocation. */
    ghost function Decides(dev: Device): Env
      reads this, dev, cache, paged
    {
      Env(|dev.live| + 2 * cache.numLayers <= dev.capacity, paged.freeList != [], true, map[], [], [], false)
    }

    /** One message about caches; a shutdown or a range that is refused stops the worker. */
    method Handle(dev: Device, req: Request, maxSeqLen: nat, numBlocks: nat, m: Model, ghost w: Worker)
      returns (replies: seq<Reply>, stopped: bool)
      requires Holds(dev, w) && ValidWorker(m, w) && OnCaches(req)
      modifies this, dev, cache, paged
      ensures var served := Serve(m, w, req, old(Decides(dev)));
              Holds(dev, served.worker) && replies == served.replies && ValidWorker(m, served.worker)
      ensures stopped <==> req.Shutdown? || (req.Reconfigure? && !(req.start < req.end <= req.total == |m.layers|))
      ensures (cache == old(cache) || fresh(cache)) && (paged == old(paged) || fresh(paged))
    {
      hide Holds, ValidWorker, Serve;
      ghost var env := Decides(dev);
      ServeKeeps(m, w, req, env);
      stopped := false;
      match req {
        case CacheAlloc(s) =>
          var reply := HandleAlloc(dev, s, m, w, env);
          replies := [reply];
        case CacheFree(s) => replies := HandleFree(dev, s, m, w, env);
        case Reconfigure(start, end, total) =>
          ReconfigureServed(m, w, start, end, total, env);
          replies := HandleReconfigure(dev, start, end, total, maxSeqLen, numBlocks, m, w, env);
          stopped := replies == [];
        case Shutdown =>
          HandleShutdown(dev, m, w, env);
          replies, stopped := [], true;
      }
    }

    /**
     Any run of messages about caches, until one stops the worker.  The serve loop, told only what
     device and pool decide, gives the same replies and ends with the same caches.
     */
    method HandleRun(dev: Device, reqs: seq<Request>, maxSeqLen: nat, numBlocks: nat, m: Model, ghost w: Worker)
      returns (replies: seq<Reply>, stopped: bool, ghost served: seq<(Request, Env)>)
      requires Holds(dev, w) && ValidWorker(m, w) && forall i :: 0 <= i < |reqs| ==> OnCaches(reqs[i])
      modifies this, dev, cache, paged
      ensures |served| <= |reqs| && (forall i :: 0 <= i < |served| ==> served[i].0 == reqs[i])
      ensures |served| < |reqs| ==> stopped
      ensures Holds(dev, ServeAll(m, w, served)) && replies == RepliesOf(m, w, served)
    {
      hide Holds, ValidWorker, Serve, ServeAll, RepliesOf, OnCaches;
      replies, stopped, served := [], false, [];
      NothingServed(m, w);
      var i := 0;
      while i < |reqs| && !stopped
        invariant i <= |reqs| && |served| == i && forall j :: 0 <= j < i ==> served[j].0 == reqs[j]
        invariant (cache == old(cache) || fresh(cache)) && (paged == old(paged) || fresh(paged))
        invariant Holds(dev, ServeAll(m, w, served)) && replies == RepliesOf(m, w, served)
      {
        ghost var step := (reqs[i], Decides(dev));
        ServeAllSnoc(m, w, served, step);
        var rs;
        rs, stopped := Handle(dev, reqs[i], maxSeqLen, numBlocks, m, ServeAll(m, w, served));
        replies, served := replies + rs, served + [step];
        i := i + 1;
      }
    }
  }
}
