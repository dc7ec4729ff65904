/**
 A worker's forward message on its device: activations that come over the wire are uploaded,
 the engine runs its layers, and activations that go out are downloaded and freed.
 */
module WorkerDevice {
  import opened Core
  import opened Transformer
  import opened DeviceMemory
  import opened ContiguousCache
  import opened ForwardEngine
  import opened Nodes
  import W = WorkerProtocol

  /** The ids or rows fit the positions, as the engine expects of its caller. */
  predicate Fits(cfg: NodeConfig, ps: seq<nat>, input: W.WireInput) {
    match input
    case WireIds(ids) => cfg.IsHead() && ids != [] ==> |ids| == |ps|
    case WireRows(rows) => !cfg.IsHead() ==> |rows| == |ps| > 0
  }

  /** Rows that came over the wire are put on the device. */
  method Upload(dev: Device, rows: seq<Row>) returns (r: Result<Tensor>)
    requires dev.Valid()
    modifies dev
    ensures dev.Valid()
    ensures r.Ok? <==> |old(dev.live)| < dev.capacity
    ensures r.Ok? ==>
      fresh(r.value) && r.value[..] == rows && dev.live == old(dev.live) + {r.value} &&
      |dev.live| == |old(dev.live)| + 1
    ensures r.Err? ==> dev.live == old(dev.live)
  {
    r := dev.Alloc(|rows|);
    if r.Ok? {
      forall i | 0 <= i < |rows| { r.value[i] := rows[i]; }
      assert r.value[..] == rows;
    }
  }

  ghost function RowsOf(m: Model, input: W.WireInput): seq<Row> {
    if input.WireIds? then Embed(m, input.ids) else input.rows
  }

  /** The wire input as the engine takes it. */
  method Prepare(dev: Device, mgr: KvCacheManager, m: Model, cfg: NodeConfig, ps: seq<nat>, input: W.WireInput)
    returns (r: Result<NodeInput>)
    requires dev.Valid() && mgr.Valid(dev) && Fits(cfg, ps, input)
    modifies dev
    ensures dev.Valid() && mgr.Valid(dev)
    ensures r.Ok? <==> input.WireIds? || |old(dev.live)| < dev.capacity
    ensures r.Ok? ==>
      r.value.positions == ps && (r.value.TokenIds? <==> input.WireIds?) &&
      (r.value.TokenIds? ==> r.value.ids == input.ids) &&
      WellShaped(cfg, r.value, dev, mgr) && InputRows(m, r.value) == RowsOf(m, input)
    ensures r.Ok? && input.WireIds? ==> dev.live == old(dev.live)
    ensures r.Ok? && input.WireRows? ==>
      fresh(r.value.hidden) && dev.live == old(dev.live) + {r.value.hidden} && |dev.live| == |old(dev.live)| + 1
  {
    hide Entries;
    if input.WireIds? { return Ok(TokenIds(input.ids, ps)); }
    var t := Upload(dev, input.rows);
    if t.Err? { return Err(t.error); }
    r := Ok(Activations(t.value, ps));
  }

  /** One tensor per message is left behind by a tail that is fed activations. */
  function LeftOver(cfg: NodeConfig): nat {
    if cfg.IsTail() && !cfg.IsHead() then 1 else 0
  }

  /** The input fits the node, the positions are in range, the sequence has room, and the tensors fit. */
  ghost predicate Runs(dev: Device, mgr: KvCacheManager, maxSeqLen: nat, cfg: NodeConfig, h: nat, ps: seq<nat>,
                       input: W.WireInput)
    reads dev, mgr
    requires cfg.Valid()
  {
    (input.WireIds? <==> cfg.IsHead()) && (input.WireIds? ==> input.ids != []) && AllBelow(ps, maxSeqLen) &&
    h in mgr.caches && cfg.NumLayers() <= mgr.numLayers && mgr.caches[h].currentLen + |ps| <= mgr.maxSeqLen &&
    |dev.live| + 11 + (if !cfg.IsTail() then 0 else if |ps| > 1 then 2 else 1) <= dev.capacity
  }

  /**
   `handle_forward`.  It succeeds iff the sequence is known and the call can run.  Its reply, or
   the error in its place, is that of the serve loop's forward message on a worker `w` that holds
   what this device holds.  When it succeeds, so is the cache, and no tensor is gained or lost,
   except that a tail that is not the head keeps the uploaded activations.
   */
  method HandleForward(dev: Device, mgr: KvCacheManager, m: Model, maxSeqLen: nat, cfg: NodeConfig,
                       handles: map<W.SeqId, nat>, s: W.SeqId, ps: seq<nat>, input: W.WireInput, hiddenSize: nat,
                       ghost w: W.Worker, ghost env: W.Env)
    returns (r: Result<W.Reply>)
    requires dev.Valid() && mgr.Valid(dev) && cfg.Valid() && cfg.total == |m.layers| && Fits(cfg, ps, input)
    requires W.ValidWorker(m, w) && w.cfg == cfg && w.hiddenSize == hiddenSize && mgr.numLayers == cfg.NumLayers()
    requires s in w.handles <==> s in handles
    requires s in handles ==> (env.computeOk <==> Runs(dev, mgr, maxSeqLen, cfg, handles[s], ps, input))
    requires s in handles ==> handles[s] in mgr.caches && w.handles[s] == mgr.Cached(handles[s])
    modifies dev, mgr`caches
    modifies if s in handles && handles[s] in mgr.caches then mgr.caches[handles[s]].Tensors() else {}
    ensures dev.Valid() && mgr.Valid(dev)
    ensures s !in handles ==> r == Err(Pipeline) && dev.live == old(dev.live)
    ensures r.Ok? <==> s in handles && old(Runs(dev, mgr, maxSeqLen, cfg, handles[s], ps, input))
    ensures W.Serve(m, w, W.Forward(s, ps, input), env).replies == [if r.Ok? then r.value else W.ErrorReply]
    ensures r.Ok? ==>
      s in handles && handles[s] in mgr.caches &&
      var served := W.Serve(m, w, W.Forward(s, ps, input), env);
      s in served.worker.handles && served.worker.handles[s] == mgr.Cached(handles[s])
    ensures r.Ok? ==> old(dev.live) <= dev.live && |dev.live| == |old(dev.live)| + LeftOver(cfg)
  {
    hide Entries, KvCacheManager.Cached, SequenceCache.Tensors, W.ValidWorker, W.Serve, InputRows, WellShaped, RowsOf,
      Fits;
    if s !in handles || !env.computeOk { ErrorServed(m, w, s, ps, input, env); }
    if s !in handles { return Err(Pipeline); }
    EntryOf(mgr.caches, mgr.owned, mgr.numLayers, mgr.maxSeqLen, handles[s]);
    var node := Prepare(dev, mgr, m, cfg, ps, input);
    if node.Err? { return Err(node.error); }
    assert mgr.Cached(handles[s]) == w.handles[s];
    r := RunForward(dev, mgr, m, maxSeqLen, cfg, handles[s], node.value, hiddenSize, s, input, w, env);
    if r.Ok? && !(cfg.IsTail() && !cfg.IsHead()) { assert dev.live == old(dev.live); }
  }

  /** The engine's part of the message, once the input is on the device. */
  method RunForward(dev: Device, mgr: KvCacheManager, m: Model, maxSeqLen: nat, cfg: NodeConfig, h: nat,
                    node: NodeInput, hiddenSize: nat, ghost s: W.SeqId, ghost input: W.WireInput, ghost w: W.Worker,
                    ghost env: W.Env) returns (r: Result<W.Reply>)
    requires dev.Valid() && mgr.Valid(dev) && cfg.Valid() && cfg.total == |m.layers| && h in mgr.caches &&
             mgr.numLayers == cfg.NumLayers()
    requires W.ValidWorker(m, w) && w.cfg == cfg && w.hiddenSize == hiddenSize && s in w.handles &&
             w.handles[s] == mgr.Cached(h)
    requires WellShaped(cfg, node, dev, mgr) && InputRows(m, node) == RowsOf(m, input)
    requires (node.TokenIds? <==> input.WireIds?) && (node.TokenIds? ==> node.ids == input.ids)
    requires node.Activations? ==> node.hidden in dev.live && node.hidden !in mgr.owned
    modifies dev, mgr`caches
    modifies if node.Activations? then {node.hidden} else {}
    modifies if h in mgr.caches then mgr.caches[h].Tensors() else {}
    ensures dev.Valid() && mgr.Valid(dev)
    ensures r.Ok? <==> old(Accepts(cfg, node, mgr, h, maxSeqLen)) && |old(dev.live)| + Need(cfg, node) <= dev.capacity
    ensures r.Ok? && env.computeOk ==>
      h in mgr.caches &&
      var served := W.Serve(m, w, W.Forward(s, node.positions, input), env);
      served.replies == [r.value] && s in served.worker.handles && served.worker.handles[s] == mgr.Cached(h)
    ensures r.Ok? ==>
      (input.WireIds? <==> cfg.IsHead()) &&
      dev.live == old(dev.live) - (if node.Activations? && !cfg.IsTail() then {node.hidden} else {})
  {
    hide Entries, Ran, Moved, Logits, KvCacheManager.Cached, SequenceCache.Tensors, W.ValidWorker, W.Serve,
      W.WeightsOf, InputRows, WellShaped, Accepts, RowsOf, Need;
    WholeRange(m, cfg);
    AcceptedFits(cfg, node, mgr, h, maxSeqLen);
    var out, ys := ForwardNode(dev, mgr, m, 0, maxSeqLen, cfg, node, h);
    if out.Err? { return Err(out.error); }
    MovedHas(old(mgr.caches), h, |node.positions|);
    if env.computeOk { RanServes(m, w, s, node.positions, input, env, mgr.Cached(h), ys); }
    r := Reply(dev, mgr, h, out.value, hiddenSize);
  }

  lemma {:induction false} AcceptedFits(cfg: NodeConfig, node: NodeInput, mgr: KvCacheManager, h: nat, maxSeqLen: nat)
    requires cfg.Valid()
    ensures Accepts(cfg, node, mgr, h, maxSeqLen) ==>
      (node.TokenIds? <==> cfg.IsHead()) && (node.TokenIds? ==> node.ids != [])
  {
  }

  /** The output as it goes over the wire; activations are freed. */
  method Reply(dev: Device, mgr: KvCacheManager, h: nat, out: NodeOutput, hiddenSize: nat) returns (r: Result<W.Reply>)
    requires dev.Valid() && mgr.Valid(dev) && h in mgr.caches
    requires out.ActivationsOut? ==> out.hidden in dev.live && out.hidden !in mgr.owned
    modifies dev
    ensures dev.Valid() && mgr.Valid(dev) && mgr.Cached(h) == old(mgr.Cached(h))
    ensures out.LogitsOut? ==> r == Ok(W.LogitsReply(out.logits, false)) && dev.live == old(dev.live)
    ensures out.ActivationsOut? ==>
      r == Ok(W.RowsReply(out.hidden[..], hiddenSize, false)) && dev.live == old(dev.live) - {out.hidden} &&
      |dev.live| == |old(dev.live)| - 1
  {
    hide Entries, KvCacheManager.Cached, SequenceCache.Tensors;
    EntryOf(mgr.caches, mgr.owned, mgr.numLayers, mgr.maxSeqLen, h);
    if out.LogitsOut? { return Ok(W.LogitsReply(out.logits, false)); }
    r := Ok(W.RowsReply(out.hidden[..], hiddenSize, false));
    var _ := dev.Free(out.hidden);
  }

  lemma {:induction false} ErrorServed(m: Model, w: W.Worker, s: W.SeqId, ps: seq<nat>, input: W.WireInput, env: W.Env)
    requires W.ValidWorker(m, w) && (s !in w.handles || !env.computeOk)
    ensures W.Serve(m, w, W.Forward(s, ps, input), env).replies == [W.ErrorReply]
  {
  }

  lemma {:induction false} WholeRange(m: Model, cfg: NodeConfig)
    requires cfg.Valid() && cfg.total == |m.layers|
    ensures m.layers[cfg.start - 0..cfg.end - 0] == W.WeightsOf(m, cfg)
  {
  }

  /** What the engine computes is what the serve loop answers. */
  lemma {:induction false} RanServes(m: Model, w: W.Worker, s: W.SeqId, ps: seq<nat>, input: W.WireInput, env: W.Env,
                                     after: seq<KV>, ys: seq<Row>)
    requires W.ValidWorker(m, w) && s in w.handles && env.computeOk && |ys| == |ps| > 0
    requires (input.WireIds? <==> w.cfg.IsHead()) && (input.WireIds? ==> input.ids != [])
    requires Ran(m.ops, W.WeightsOf(m, w.cfg), w.handles[s], RowsOf(m, input), ps, after, ys)
    ensures var served := W.Serve(m, w, W.Forward(s, ps, input), env);
            s in served.worker.handles && served.worker.handles[s] == after &&
            served.replies == [if w.cfg.IsTail() then W.LogitsReply(Logits(m, ys[|ps| - 1]), false)
                               else W.RowsReply(ys, w.hiddenSize, false)]
  {
    hide Logits, NodeCached;
    var n := |W.WeightsOf(m, w.cfg)|;
    assert W.Shaped(w.cfg, w.handles[s]);
    assert w.handles[s][..n] == w.handles[s] && after[..n] == after;
  }
}
