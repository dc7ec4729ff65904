/**
 `Engine::forward_node` on the contiguous cache: a layer loop over device tensors that are
 overwritten in place.  The contract says that it computes `NodeCached`, which inputs it
 accepts, and which device tensors are live afterwards.
 */
module ForwardEngine {
  import opened Core
  import opened Transformer
  import opened TensorRows
  import opened DeviceMemory
  import opened ContiguousCache
  import opened Nodes

  datatype NodeInput =
    | TokenIds(ids: seq<nat>, positions: seq<nat>)
    | Activations(hidden: Tensor, positions: seq<nat>)

  datatype NodeOutput = LogitsOut(logits: Row) | ActivationsOut(hidden: Tensor)

  // ----- scratch tensors -----

  datatype Scratch = Scratch(
    normed: Tensor, q: Tensor, k: Tensor, v: Tensor, attn: Tensor,
    projected: Tensor, gate: Tensor, up: Tensor, mid: Tensor, out: Tensor)
  {
    ghost function All(): set<Tensor> {
      {normed, q, k, v, attn, projected, gate, up, mid, out}
    }

    ghost predicate Apart() {
      normed !in {q, k, v, attn, projected, gate, up, mid, out} &&
      q !in {k, v, attn, projected, gate, up, mid, out} &&
      k !in {v, attn, projected, gate, up, mid, out} &&
      v !in {attn, projected, gate, up, mid, out} &&
      attn !in {projected, gate, up, mid, out} &&
      projected !in {gate, up, mid, out} &&
      gate !in {up, mid, out} && up !in {mid, out} && mid != out
    }

    ghost predicate Rows(n: nat) {
      normed.Length == q.Length == k.Length == v.Length == attn.Length == n &&
      projected.Length == gate.Length == up.Length == mid.Length == out.Length == n
    }

    ghost predicate Valid(n: nat) { Apart() && Rows(n) }
  }

  // ----- one layer -----

  /** The tensor-by-tensor computation is the layer of the cached form. */
  lemma {:induction false} LayerByTensors(o: Ops, w: Layer, xs: seq<Row>, ps: seq<nat>, ks: seq<Row>, vs: seq<Row>,
                                          start: nat)
    requires |xs| == |ps| && start + |xs| <= |ks| && start + |xs| <= |vs|
    ensures var ks' := Spliced(NewKeys(o, w, xs, ps), ks, 0, start, |xs|);
            var vs' := Spliced(NewValues(w, xs), vs, 0, start, |xs|);
            var c := KV(ks[..start], vs[..start]);
            KV(ks'[..start + |xs|], vs'[..start + |xs|]) == Extend(o, w, c, xs, ps) &&
            AfterFfn(o, w, AfterAttention(o, w, xs, ps, ks', vs', start)) == LayerCached(o, w, c, xs, ps)
  {
    var ks' := Spliced(NewKeys(o, w, xs, ps), ks, 0, start, |xs|);
    var vs' := Spliced(NewValues(w, xs), vs, 0, start, |xs|);
    var c := KV(ks[..start], vs[..start]);
    NewRows(o, w, xs, ps);
    assert ks'[..start + |xs|] == c.k + NewKeys(o, w, xs, ps) && vs'[..start + |xs|] == c.v + NewValues(w, xs);
    LayerFromStored(o, w, c, xs, ps, KV(ks', vs'));
  }

  /**
   Steps 2a-2k for one layer.  When the cache tensors have no room for the new rows, the
   cached rows and the hidden state are left as they were.
   */
  method LayerStep(o: Ops, w: Layer, hidden: Tensor, s: Scratch, kc: Tensor, vc: Tensor, ps: seq<nat>, start: nat)
    returns (r: Result<()>)
    requires s.Valid(|ps|) && hidden.Length == |ps| && kc.Length == vc.Length
    requires {hidden, kc, vc} !! s.All() && hidden != kc && hidden != vc && kc != vc
    modifies s.All(), hidden, kc, vc
    ensures r.Ok? <==> start + |ps| <= kc.Length
    ensures r.Err? ==> hidden[..] == old(hidden[..]) && kc[..] == old(kc[..]) && vc[..] == old(vc[..])
    ensures r.Ok? ==>
      var c := KV(old(kc[..start]), old(vc[..start]));
      hidden[..] == LayerCached(o, w, c, old(hidden[..]), ps) &&
      KV(kc[..start + |ps|], vc[..start + |ps|]) == Extend(o, w, c, old(hidden[..]), ps)
  {
    ghost var xs := hidden[..];
    r := AttentionBlock(o, w, hidden, s, kc, vc, ps, start);
    if r.Err? { return; }
    FfnBlock(o, w, hidden, s);
    LayerByTensors(o, w, xs, ps, old(kc[..]), old(vc[..]), start);
    assert old(kc[..])[..start] == old(kc[..start]) && old(vc[..])[..start] == old(vc[..start]);
    assert kc[..][..start + |ps|] == kc[..start + |ps|] && vc[..][..start + |ps|] == vc[..start + |ps|];
  }

  /** Steps 2a-2h: norm, projections, rope, cache write, attention, output projection, residual. */
  method AttentionBlock(o: Ops, w: Layer, hidden: Tensor, s: Scratch, kc: Tensor, vc: Tensor, ps: seq<nat>, start: nat)
    returns (r: Result<()>)
    requires s.Valid(|ps|) && hidden.Length == |ps| && kc.Length == vc.Length
    requires {hidden, kc, vc} !! s.All() && hidden != kc && hidden != vc && kc != vc
    modifies s.All(), hidden, kc, vc
    ensures r.Ok? <==> start + |ps| <= kc.Length
    ensures r.Err? ==> hidden[..] == old(hidden[..]) && kc[..] == old(kc[..]) && vc[..] == old(vc[..])
    ensures r.Ok? ==>
      kc[..] == Spliced(NewKeys(o, w, old(hidden[..]), ps), old(kc[..]), 0, start, |ps|) &&
      vc[..] == Spliced(NewValues(w, old(hidden[..])), old(vc[..]), 0, start, |ps|) &&
      hidden[..] == AfterAttention(o, w, old(hidden[..]), ps, kc[..], vc[..], start)
  {
    Apply(w.attnNorm, hidden, s.normed);
    Apply(w.qProj, s.normed, s.q);
    Apply(w.kProj, s.normed, s.k);
    Apply(w.vProj, s.normed, s.v);
    Rope(o, s.q, s.k, ps);
    r := CopyRows(s.k, kc, 0, start, |ps|);
    if r.Err? { return; }
    r := CopyRows(s.v, vc, 0, start, |ps|);
    if r.Err? { return; }
    Attention(o, s.q, kc, vc, start, s.attn);
    Apply(w.oProj, s.attn, s.projected);
    Combine(o.add, hidden, s.projected, hidden);
  }

  /** Steps 2i-2k: norm, SwiGLU, residual. */
  method FfnBlock(o: Ops, w: Layer, hidden: Tensor, s: Scratch)
    requires s.Valid(hidden.Length) && hidden !in s.All()
    modifies s.All(), hidden
    ensures hidden[..] == AfterFfn(o, w, old(hidden[..]))
  {
    Apply(w.ffnNorm, hidden, s.normed);
    Apply(w.gateProj, s.normed, s.gate);
    Apply(w.upProj, s.normed, s.up);
    Combine(o.siluMul, s.gate, s.up, s.mid);
    Apply(w.downProj, s.mid, s.out);
    Combine(o.add, hidden, s.out, hidden);
  }

  // ----- all layers -----

  /** The whole contents of the cache tensors, layer by layer. */
  ghost function Snapshot(c: SequenceCache): (snap: seq<KV>)
    reads c.Tensors()
    requires c.Valid()
    ensures |snap| == |c.k|
  {
    AllMembers(c.k);
    AllMembers(c.v);
    seq(|c.k|, l requires 0 <= l < |c.k| reads c.Tensors() => KV(c.k[l][..], c.v[l][..]))
  }

  /** Sequence h has `n` more rows cached. */
  function Moved(caches: Table, h: nat, n: nat): Table
    requires h in caches
  {
    caches[h := caches[h].(currentLen := caches[h].currentLen + n)]
  }

  /** The loop body: layer i on the cache tensors of sequence h. */
  method LayerAt(mgr: KvCacheManager, o: Ops, w: Layer, h: nat, i: nat, hidden: Tensor, s: Scratch,
                 ps: seq<nat>, start: nat, ghost c: SequenceCache) returns (r: Result<()>)
    requires h in mgr.caches && c.Valid() && mgr.caches[h] == c.(currentLen := mgr.caches[h].currentLen)
    requires start <= c.maxLen
    requires s.Valid(|ps|) && hidden.Length == |ps| && hidden !in s.All()
    requires c.Tensors() !! s.All() + {hidden}
    modifies mgr`caches, s.All(), hidden, if i < |c.k| then {c.k[i], c.v[i]} else {}
    ensures r.Ok? <==> i < |c.k| && start + |ps| <= c.maxLen
    ensures mgr.caches == if r.Ok? &&
            i == 0 then old(mgr.caches)[h := c.(currentLen := start + |ps|)] else old(mgr.caches)
    ensures forall l :: 0 <= l < |c.k| && l != i ==> Snapshot(c)[l] == old(Snapshot(c))[l]
    ensures r.Ok? ==>
      var was := old(Snapshot(c))[i];
      var kv := KV(was.k[..start], was.v[..start]);
      hidden[..] == LayerCached(o, w, kv, old(hidden[..]), ps) &&
      Starts(Snapshot(c)[i], Extend(o, w, kv, old(hidden[..]), ps))
  {
    AllMembers(c.k);
    AllMembers(c.v);
    var kv := mgr.LayerTensors(h, i);
    if kv.Err? { return Err(kv.error); }
    var (kc, vc) := kv.value;
    r := LayerStep(o, w, hidden, s, kc, vc, ps, start);
    if r.Err? { return; }
    if i == 0 {
      r := mgr.SetSeqLen(h, start + |ps|);
    }
  }

  /**
   The layer loop.  The cached length moves after the first layer.  It fails exactly when the
   sequence has no room for the new rows or the cache has fewer layers than the node.
   */
  method RunLayers(mgr: KvCacheManager, o: Ops, ws: seq<Layer>, h: nat, hidden: Tensor, s: Scratch, ps: seq<nat>,
                   ghost c: SequenceCache, ghost cs: seq<KV>) returns (r: Result<()>)
    requires h in mgr.caches && mgr.caches[h] == c && c.Valid() && ws != []
    requires |ws| <= |c.k| ==> |cs| == |ws| && StartsFrom(Snapshot(c), cs, 0, |ws|)
    requires Paired(cs) && CachesHold(cs, c.currentLen)
    requires s.Valid(|ps|) && hidden.Length == |ps| && hidden !in s.All()
    requires c.Tensors() !! s.All() + {hidden}
    modifies mgr`caches, s.All(), hidden, c.Tensors()
    ensures r.Ok? <==> |ws| <= |c.k| && c.currentLen + |ps| <= c.maxLen
    ensures r.Ok? ==> mgr.caches == Moved(old(mgr.caches), h, |ps|)
    ensures r.Err? ==>
      mgr.caches == old(mgr.caches) ||
      (c.currentLen + |ps| <= c.maxLen && mgr.caches == Moved(old(mgr.caches), h, |ps|))
    ensures r.Ok? ==>
      var step := NodeCached(o, ws, cs, old(hidden[..]), ps);
      hidden[..] == step.hidden && StartsFrom(Snapshot(c), step.caches, 0, |ws|)
  {
    var start := mgr.caches[h].currentLen;
    ghost var fits := |ws| <= |c.k|;
    ghost var step := if fits then NodeCached(o, ws, cs, hidden[..], ps) else NodeStep([], []);
    AllMembers(c.k);
    AllMembers(c.v);
    assert fits ==> Progress(o, ws, cs, ps, step, 0, hidden[..]) by {
      assert ws[0..] == ws && cs[0..] == cs && step.caches[0..] == step.caches;
    }
    for i := 0 to |ws|
      invariant i <= |c.k|
      invariant i > 0 ==> start + |ps| <= c.maxLen
      invariant mgr.caches == if i == 0 then old(mgr.caches) else Moved(old(mgr.caches), h, |ps|)
      invariant fits ==> Progress(o, ws, cs, ps, step, i, hidden[..])
      invariant fits ==> StartsFrom(Snapshot(c), step.caches, 0, i) && StartsFrom(Snapshot(c), cs, i, |ws|)
    {
      ghost var snap, rows := Snapshot(c), hidden[..];
      r := LayerAt(mgr, o, ws[i], h, i, hidden, s, ps, start, c);
      if r.Err? { return; }
      if fits {
        assert KV(snap[i].k[..start], snap[i].v[..start]) == cs[i];
        ProgressStep(o, ws, cs, ps, step, i, rows);
        StartsStep(snap, Snapshot(c), cs, step.caches, i, |ws|);
      }
    }
    if fits { ProgressEnd(o, ws, cs, ps, step, hidden[..]); }
    r := Ok(());
  }

  // ----- scratch and output -----

  datatype Five = Five(a: Tensor, b: Tensor, c: Tensor, d: Tensor, e: Tensor) {
    ghost function All(): set<Tensor> { {a, b, c, d, e} }

    ghost predicate Apart() {
      a !in {b, c, d, e} && b !in {c, d, e} && c !in {d, e} && d != e
    }
  }

  method AllocFive(dev: Device, n: nat) returns (r: Result<Five>)
    requires dev.Valid()
    modifies dev
    ensures dev.Valid()
    ensures r.Ok? <==> |old(dev.live)| + 5 <= dev.capacity
    ensures r.Ok? ==> r.value.Apart() && fresh(r.value.All())
    ensures r.Ok? ==>
      r.value.a.Length == r.value.b.Length == r.value.c.Length == r.value.d.Length == r.value.e.Length == n
    ensures r.Ok? ==> dev.live == old(dev.live) + r.value.All() && |dev.live| == |old(dev.live)| + 5
    ensures r.Err? ==> old(dev.live) <= dev.live
  {
    var a := dev.Alloc(n);
    if a.Err? { return Err(a.error); }
    var b := dev.Alloc(n);
    if b.Err? { return Err(b.error); }
    var c := dev.Alloc(n);
    if c.Err? { return Err(c.error); }
    var d := dev.Alloc(n);
    if d.Err? { return Err(d.error); }
    var e := dev.Alloc(n);
    if e.Err? { return Err(e.error); }
    r := Ok(Five(a.value, b.value, c.value, d.value, e.value));
  }

  method AllocScratch(dev: Device, n: nat) returns (r: Result<Scratch>)
    requires dev.Valid()
    modifies dev
    ensures dev.Valid()
    ensures r.Ok? <==> |old(dev.live)| + 10 <= dev.capacity
    ensures r.Ok? ==> r.value.Valid(n) && fresh(r.value.All())
    ensures r.Ok? ==> dev.live == old(dev.live) + r.value.All() && |dev.live| == |old(dev.live)| + 10
    ensures r.Err? ==> old(dev.live) <= dev.live
  {
    var x := AllocFive(dev, n);
    if x.Err? { return Err(x.error); }
    var y := AllocFive(dev, n);
    if y.Err? { return Err(y.error); }
    var (p, q) := (x.value, y.value);
    r := Ok(Scratch(p.a, p.b, p.c, p.d, p.e, q.a, q.b, q.c, q.d, q.e));
    assert r.value.All() == p.All() + q.All();
  }

  /** Each tensor is freed once: every one of the frees succeeds. */
  method FreeFive(dev: Device, x: Five)
    requires dev.Valid() && x.Apart() && x.All() <= dev.live
    modifies dev
    ensures dev.Valid() && dev.live == old(dev.live) - x.All()
  {
    FreePair(dev, x.a, x.b);
    FreePair(dev, x.c, x.d);
    var e := dev.Free(x.e);
    assert e.Ok?;
  }

  method FreeScratch(dev: Device, s: Scratch)
    requires dev.Valid() && s.Apart() && s.All() <= dev.live
    modifies dev
    ensures dev.Valid() && dev.live == old(dev.live) - s.All()
  {
    var x := Five(s.normed, s.q, s.k, s.v, s.attn);
    var y := Five(s.projected, s.gate, s.up, s.mid, s.out);
    assert x.All() !! y.All() && s.All() == x.All() + y.All();
    FreeFive(dev, x);
    FreeFive(dev, y);
  }

  /**
   Final norm and LM head on the last row.  With one row, the row is used where it is: the
   tensor that holds it is `normed`, and it is not freed here.
   */
  method TailLogits(dev: Device, m: Model, hidden: Tensor, normed: Tensor) returns (r: Result<Row>)
    requires dev.Valid() && hidden.Length == normed.Length > 0 && hidden != normed
    modifies dev, normed
    ensures dev.Valid()
    ensures r.Ok? <==> |old(dev.live)| + (if hidden.Length > 1 then 2 else 1) <= dev.capacity
    ensures r.Ok? ==> dev.live == old(dev.live) && r.value == Logits(m, hidden[hidden.Length - 1])
    ensures r.Err? ==> old(dev.live) <= dev.live
  {
    var n := hidden.Length;
    Apply(m.outputNorm, hidden, normed);
    assert normed[n - 1] == normed[..][n - 1] == m.outputNorm(hidden[..][n - 1]);
    var last := normed;
    if n > 1 {
      var t := dev.Alloc(1);
      if t.Err? { return Err(t.error); }
      last := t.value;
      var copied := CopyRows(normed, last, n - 1, 0, 1);
      assert last[..][0] == normed[..][n - 1];
    }
    var logits := dev.Alloc(1);
    if logits.Err? { return Err(logits.error); }
    Apply(m.lmHead, last, logits.value);
    assert logits.value[..][0] == m.lmHead(last[..][0]);
    r := Ok(logits.value[0]);
    var a := dev.Free(logits.value);
    if n > 1 {
      var b := dev.Free(last);
    }
  }

  // ----- the whole call -----

  /** What the kernels take for granted about the input of an accepted call. */
  ghost predicate WellShaped(cfg: NodeConfig, input: NodeInput, dev: Device, mgr: KvCacheManager)
    reads dev, mgr
  {
    match input
    case TokenIds(ids, positions) => cfg.IsHead() && ids != [] ==> |ids| == |positions|
    case Activations(hidden, positions) =>
      !cfg.IsHead() ==>
        hidden in dev.live && hidden.Length == |positions| > 0 &&
        hidden !in mgr.owned
  }

  /** The inputs that are not turned down. */
  ghost predicate Accepts(cfg: NodeConfig, input: NodeInput, mgr: KvCacheManager, h: nat, maxSeqLen: nat)
    reads mgr
    requires cfg.Valid()
  {
    (input.TokenIds? <==> cfg.IsHead()) &&
    (input.TokenIds? ==> input.ids != []) &&
    AllBelow(input.positions, maxSeqLen) &&
    h in mgr.caches && cfg.NumLayers() <= mgr.numLayers &&
    mgr.caches[h].currentLen + |input.positions| <= mgr.maxSeqLen
  }

  /** Tensors needed at the same time by an accepted call, besides those already live. */
  function Need(cfg: NodeConfig, input: NodeInput): nat {
    (if input.TokenIds? then 1 else 0) + 10 +
    (if !cfg.IsTail() then 0 else if |input.positions| > 1 then 2 else 1)
  }

  lemma {:induction false} EntryOf(caches: Table, owned: set<Tensor>, numLayers: nat, maxSeqLen: nat, h: nat)
    requires Entries(caches, owned, numLayers, maxSeqLen) && h in caches
    ensures caches[h].Valid() && |caches[h].k| == numLayers && caches[h].maxLen == maxSeqLen
    ensures caches[h].Tensors() <= owned
  {
  }

  lemma {:induction false} MovedHas(caches: Table, h: nat, n: nat)
    requires h in caches
    ensures h in Moved(caches, h, n)
  {
  }

  lemma {:induction false} MovedEntries(caches: Table, owned: set<Tensor>, numLayers: nat, maxSeqLen: nat, h: nat,
                                        n: nat)
    requires Entries(caches, owned, numLayers, maxSeqLen) && h in caches && caches[h].currentLen + n <= maxSeqLen
    ensures Entries(Moved(caches, h, n), owned, numLayers, maxSeqLen)
  {
    var c := caches[h];
    assert Moved(caches, h, n)[h].Tensors() == c.Tensors();
  }

  /** The filled part is what the tensors start with. */
  lemma {:induction false} FilledStarts(c: SequenceCache, n: nat)
    requires c.Valid() && n <= |c.k|
    ensures StartsFrom(Snapshot(c), c.Filled()[..n], 0, n)
    ensures Paired(c.Filled()[..n]) && CachesHold(c.Filled()[..n], c.currentLen)
  {
  }

  lemma {:induction false} StartsFilled(c: SequenceCache, len: nat, cs: seq<KV>)
    requires c.Valid() && len <= c.maxLen && |cs| <= |c.k|
    requires StartsFrom(Snapshot(c), cs, 0, |cs|) && CachesHold(cs, len)
    ensures c.(currentLen := len).Filled()[..|cs|] == cs
  {
    var f := c.(currentLen := len).Filled();
    forall l | 0 <= l < |cs|
      ensures f[l] == cs[l]
    {
      assert Starts(Snapshot(c)[l], cs[l]);
    }
  }

  /**
   Running `xs` through the layers `ws` on the caches `cs` gives `ys` and leaves `cs'`: the
   cached form.  Layers of the cache that the node does not run are not spoken of.
   */
  ghost predicate Ran(o: Ops, ws: seq<Layer>, cs: seq<KV>, xs: seq<Row>, ps: seq<nat>, cs': seq<KV>, ys: seq<Row>) {
    |ws| <= |cs| == |cs'| && Paired(cs[..|ws|]) && |xs| == |ps| &&
    NodeCached(o, ws, cs[..|ws|], xs, ps) == NodeStep(ys, cs'[..|ws|])
  }

  /** The layer loop in terms of the filled part of the cache. */
  method RunFilled(mgr: KvCacheManager, o: Ops, ws: seq<Layer>, h: nat, hidden: Tensor, s: Scratch, ps: seq<nat>,
                   ghost c: SequenceCache) returns (r: Result<()>)
    requires h in mgr.caches && mgr.caches[h] == c && c.Valid() && ws != []
    requires s.Valid(|ps|) && hidden.Length == |ps| && hidden !in s.All()
    requires c.Tensors() !! s.All() + {hidden}
    modifies mgr`caches, s.All(), hidden, c.Tensors()
    ensures r.Ok? <==> |ws| <= |c.k| && c.currentLen + |ps| <= c.maxLen
    ensures r.Ok? ==> mgr.caches == Moved(old(mgr.caches), h, |ps|)
    ensures r.Err? ==>
      mgr.caches == old(mgr.caches) ||
      (c.currentLen + |ps| <= c.maxLen && mgr.caches == Moved(old(mgr.caches), h, |ps|))
    ensures r.Ok? ==>
      Ran(o, ws, old(c.Filled()), old(hidden[..]), ps, c.(currentLen := c.currentLen + |ps|).Filled(), hidden[..])
  {
    hide NodeCached, StartsFrom, Snapshot, Moved;
    ghost var cs := if |ws| <= |c.k| then c.Filled()[..|ws|] else [];
    if |ws| <= |c.k| { FilledStarts(c, |ws|); }
    r := RunLayers(mgr, o, ws, h, hidden, s, ps, c, cs);
    if r.Ok? {
      CachesGrow(o, ws, cs, old(hidden[..]), ps, c.currentLen);
      StartsFilled(c, c.currentLen + |ps|, NodeCached(o, ws, cs, old(hidden[..]), ps).caches);
    }
  }

  /** The layer loop on sequence h, in terms of what the manager has cached. */
  method LayersOn(mgr: KvCacheManager, ghost dev: Device, o: Ops, ws: seq<Layer>, h: nat, hidden: Tensor, s: Scratch,
                  ps: seq<nat>)
    returns (r: Result<()>)
    requires mgr.Valid(dev) && ws != []
    requires s.Valid(|ps|) && hidden.Length == |ps| && hidden !in s.All()
    requires mgr.owned !! s.All() + {hidden}
    modifies mgr`caches, s.All(), hidden, if h in mgr.caches then mgr.caches[h].Tensors() else {}
    ensures mgr.Valid(dev)
    ensures r.Ok? <==>
      h in old(mgr.caches) && |ws| <= mgr.numLayers && old(mgr.caches)[h].currentLen + |ps| <= mgr.maxSeqLen
    ensures r.Ok? ==> mgr.caches == Moved(old(mgr.caches), h, |ps|)
    ensures r.Ok? ==> Ran(o, ws, old(mgr.Cached(h)), old(hidden[..]), ps, mgr.Cached(h), hidden[..])
  {
    hide Entries, Ran;
    var start := mgr.SeqLen(h);
    if start.Err? { return Err(start.error); }
    ghost var c, caches := mgr.caches[h], mgr.caches;
    EntryOf(caches, mgr.owned, mgr.numLayers, mgr.maxSeqLen, h);
    if c.currentLen + |ps| <= c.maxLen {
      MovedEntries(caches, mgr.owned, mgr.numLayers, mgr.maxSeqLen, h, |ps|);
    }
    r := RunFilled(mgr, o, ws, h, hidden, s, ps, c);
  }

  /** Logits on the tail, and the scratch tensors given back. */
  method Finish(dev: Device, m: Model, isTail: bool, hidden: Tensor, s: Scratch) returns (r: Result<Option<Row>>)
    requires dev.Valid() && s.Valid(hidden.Length) && hidden.Length > 0 && hidden !in s.All() && s.All() <= dev.live
    modifies dev, s.normed
    ensures dev.Valid()
    ensures r.Ok? <==>
      |old(dev.live)| + (if !isTail then 0 else if hidden.Length > 1 then 2 else 1) <= dev.capacity
    ensures r.Ok? ==> dev.live == old(dev.live) - s.All()
    ensures r.Ok? ==> r.value == if isTail then Some(Logits(m, hidden[hidden.Length - 1])) else None
    ensures r.Err? ==> old(dev.live) <= dev.live
  {
    hide Logits;
    var logits: Option<Row> := None;
    if isTail {
      var l := TailLogits(dev, m, hidden, s.normed);
      if l.Err? { return Err(l.error); }
      logits := Some(l.value);
    }
    FreeScratch(dev, s);
    r := Ok(logits);
  }

  /** From the hidden state on: scratch, layer loop, logits on the tail, and scratch given back. */
  method NodeBody(dev: Device, mgr: KvCacheManager, m: Model, ws: seq<Layer>, isTail: bool, h: nat, hidden: Tensor,
                  ps: seq<nat>)
    returns (r: Result<Option<Row>>)
    requires dev.Valid() && mgr.Valid(dev) && ws != []
    requires hidden.Length == |ps| > 0 && hidden !in mgr.owned
    modifies dev, mgr`caches, hidden, if h in mgr.caches then mgr.caches[h].Tensors() else {}
    ensures dev.Valid() && mgr.Valid(dev)
    ensures r.Ok? <==>
      |old(dev.live)| + 10 + (if !isTail then 0 else if |ps| > 1 then 2 else 1) <= dev.capacity &&
      h in old(mgr.caches) && |ws| <= mgr.numLayers && old(mgr.caches)[h].currentLen + |ps| <= mgr.maxSeqLen
    ensures r.Ok? ==> dev.live == old(dev.live)
    ensures r.Err? ==> old(dev.live) <= dev.live
    ensures r.Ok? ==> mgr.caches == Moved(old(mgr.caches), h, |ps|)
    ensures r.Ok? ==> Ran(m.ops, ws, old(mgr.Cached(h)), old(hidden[..]), ps, mgr.Cached(h), hidden[..])
    ensures r.Ok? ==> r.value == if isTail then Some(Logits(m, hidden[|ps| - 1])) else None
  {
    hide Entries, Ran, Moved, Logits, KvCacheManager.Cached, SequenceCache.Tensors;
    var scratch := AllocScratch(dev, |ps|);
    if scratch.Err? { return Err(scratch.error); }
    var s := scratch.value;
    if h in mgr.caches {
      EntryOf(mgr.caches, mgr.owned, mgr.numLayers, mgr.maxSeqLen, h);
      assert mgr.Cached(h) == old(mgr.Cached(h));
    }
    var done := LayersOn(mgr, dev, m.ops, ws, h, hidden, s, ps);
    if done.Err? { return Err(done.error); }
    assert h in mgr.caches && mgr.caches[h].Tensors() <= mgr.owned by {
      MovedHas(old(mgr.caches), h, |ps|);
      EntryOf(mgr.caches, mgr.owned, mgr.numLayers, mgr.maxSeqLen, h);
    }
    ghost var after := mgr.Cached(h);
    r := Finish(dev, m, isTail, hidden, s);
    assert mgr.Cached(h) == after;
  }

  /** The rows a call starts from: the embedding of the ids, or the activations handed in. */
  ghost function InputRows(m: Model, input: NodeInput): seq<Row>
    reads if input.Activations? then {input.hidden} else {}
  {
    match input
    case TokenIds(ids, _) => Embed(m, ids)
    case Activations(hidden, _) => hidden[..]
  }

  method ResolveInput(dev: Device, m: Model, cfg: NodeConfig, input: NodeInput) returns (r: Result<Tensor>)
    requires dev.Valid()
    modifies dev
    ensures dev.Valid() && old(dev.live) <= dev.live
    ensures r.Ok? <==>
      (input.TokenIds? <==> cfg.IsHead()) && (input.TokenIds? ==> input.ids != [] && |old(dev.live)| < dev.capacity)
    ensures r.Err? ==>
      r.error == if input.TokenIds? != cfg.IsHead() then Pipeline
                 else if input.ids == [] then InvalidShape
                 else OutOfMemory
    ensures r.Ok? ==> r.value[..] == InputRows(m, input)
    ensures r.Ok? && input.Activations? ==> r.value == input.hidden && dev.live == old(dev.live)
    ensures r.Ok? && input.TokenIds? ==>
      fresh(r.value) && dev.live == old(dev.live) + {r.value} && |dev.live| == |old(dev.live)| + 1
  {
    match input
    case TokenIds(ids, _) =>
      if !cfg.IsHead() { return Err(Pipeline); }
      if ids == [] { return Err(InvalidShape); }
      r := dev.Alloc(|ids|);
      if r.Err? { return; }
      Embedding(ids, m, r.value);
    case Activations(hidden, _) =>
      if cfg.IsHead() { return Err(Pipeline); }
      r := Ok(hidden);
  }

  /**
   `Engine::forward_node`.  `m.layers` are the layers loaded by this engine, from
   `engineStart` on.

   It is accepted exactly when the input fits the node, every position is in range, the
   sequence is known and has room, and the tensors fit.  Then the result is the cached form's
   and the cached rows of the sequence are the cached form's; no other sequence is touched.
   The live tensors are those from before, plus the hidden state when a head that is not the
   tail returns it; activations handed to a tail are not freed.
   */
  method ForwardNode(dev: Device, mgr: KvCacheManager, m: Model, engineStart: nat, maxSeqLen: nat,
                     cfg: NodeConfig, input: NodeInput, h: nat) returns (r: Result<NodeOutput>, ghost ys: seq<Row>)
    requires dev.Valid() && mgr.Valid(dev) && cfg.Valid()
    requires engineStart <= cfg.start && cfg.end <= engineStart + |m.layers|
    requires WellShaped(cfg, input, dev, mgr)
    modifies dev, mgr`caches
    modifies if input.Activations? then {input.hidden} else {}
    modifies if h in mgr.caches then mgr.caches[h].Tensors() else {}
    ensures dev.Valid() && mgr.Valid(dev)
    ensures r.Ok? <==>
      old(Accepts(cfg, input, mgr, h, maxSeqLen)) && |old(dev.live)| + Need(cfg, input) <= dev.capacity
    ensures input.TokenIds? != cfg.IsHead() ==> r == Err(Pipeline)
    ensures input.TokenIds? && cfg.IsHead() && input.ids == [] ==> r == Err(InvalidShape)
    ensures |old(dev.live)| < dev.capacity && (input.TokenIds? <==> cfg.IsHead()) &&
            !AllBelow(input.positions, maxSeqLen) ==>
      r == Err(InvalidShape)
    ensures r.Ok? ==> mgr.caches == Moved(old(mgr.caches), h, |input.positions|)
    ensures r.Ok? ==>
      Ran(m.ops, m.layers[cfg.start - engineStart..cfg.end - engineStart], old(mgr.Cached(h)),
          old(InputRows(m, input)), input.positions, mgr.Cached(h), ys)
    ensures r.Ok? ==> |ys| == |input.positions| > 0
    ensures r.Ok? && cfg.IsTail() ==> r.value == LogitsOut(Logits(m, ys[|ys| - 1]))
    ensures r.Ok? && !cfg.IsTail() ==> r.value.ActivationsOut? && r.value.hidden[..] == ys
    ensures r.Ok? && cfg.IsTail() ==> dev.live == old(dev.live)
    ensures r.Ok? && !cfg.IsTail() && cfg.IsHead() ==>
      fresh(r.value.hidden) && dev.live == old(dev.live) + {r.value.hidden}
    ensures r.Ok? && !cfg.IsTail() && !cfg.IsHead() ==>
      r.value.hidden == input.hidden && dev.live == old(dev.live)
  {
    hide Entries, Ran, Moved, Logits, KvCacheManager.Cached, SequenceCache.Tensors;
    ys := [];
    var ps := input.positions;
    var hidden := ResolveInput(dev, m, cfg, input);
    if hidden.Err? { r := Err(hidden.error); return; }
    var inRange := PositionsInRange(ps, maxSeqLen);
    if !inRange { r := Err(InvalidShape); return; }
    if h in mgr.caches {
      EntryOf(mgr.caches, mgr.owned, mgr.numLayers, mgr.maxSeqLen, h);
      assert mgr.Cached(h) == old(mgr.Cached(h));
    }
    var ws := m.layers[cfg.start - engineStart..cfg.end - engineStart];
    var body := NodeBody(dev, mgr, m, ws, cfg.IsTail(), h, hidden.value, ps);
    if body.Err? { r := Err(body.error); return; }
    ys := hidden.value[..];
    ghost var after := mgr.Cached(h);
    MovedHas(old(mgr.caches), h, |ps|);
    EntryOf(mgr.caches, mgr.owned, mgr.numLayers, mgr.maxSeqLen, h);
    if cfg.IsTail() {
      if input.TokenIds? {
        var freed := dev.Free(hidden.value);
        assert freed.Ok?;
      }
      r := Ok(LogitsOut(body.value.value));
    } else {
      r := Ok(ActivationsOut(hidden.value));
    }
    assert mgr.Cached(h) == after;
  }
}
