/**
 The contiguous KV cache manager: per sequence and layer, one key and one value tensor on
 the device, each with room for `maxSeqLen` rows.
 */
module ContiguousCache {
  import opened Core
  import opened Transformer
  import opened DeviceMemory

  /** Key and value tensor of every layer of one sequence. */
  datatype SequenceCache = SequenceCache(k: seq<Tensor>, v: seq<Tensor>, currentLen: nat, maxLen: nat) {
    ghost function Tensors(): set<Tensor> {
      Elements(k) + Elements(v)
    }

    /** As many value as key tensors, none serving twice, all with room for `maxLen` rows. */
    ghost predicate Valid() {
      |k| == |v| && currentLen <= maxLen &&
      NoDuplicates(k) && NoDuplicates(v) &&
      (forall i, j :: 0 <= i < |k| && 0 <= j < |v| ==> k[i] != v[j]) &&
      (forall l :: 0 <= l < |k| ==> k[l].Length == maxLen) &&
      (forall l :: 0 <= l < |v| ==> v[l].Length == maxLen)
    }

    /** The filled part of the tensors. */
    ghost function Filled(): (cs: seq<KV>)
      reads Tensors()
      requires Valid()
      ensures |cs| == |k| && Paired(cs) && CachesHold(cs, currentLen)
    {
      AllMembers(k);
      AllMembers(v);
      seq(|k|, l requires 0 <= l < |k| reads Tensors() => KV(k[l][..currentLen], v[l][..currentLen]))
    }
  }

  ghost predicate NoDuplicates(s: seq<Tensor>) {
    forall i, j :: 0 <= i < j < |s| ==> s[i] != s[j]
  }

  ghost function Elements(s: seq<Tensor>): set<Tensor> {
    if s == [] then {} else Elements(s[..|s| - 1]) + {s[|s| - 1]}
  }

  lemma {:induction false} ElementsSnoc(s: seq<Tensor>, t: Tensor)
    ensures Elements(s + [t]) == Elements(s) + {t}
  {
    assert (s + [t])[..|s|] == s;
  }

  lemma {:induction false} IsMember(s: seq<Tensor>, l: nat)
    requires l < |s|
    ensures s[l] in Elements(s)
  {
    if l < |s| - 1 { IsMember(s[..|s| - 1], l); }
  }

  lemma {:induction false} AllMembers(s: seq<Tensor>)
    ensures forall l :: 0 <= l < |s| ==> s[l] in Elements(s)
  {
    forall l | 0 <= l < |s| ensures s[l] in Elements(s) { IsMember(s, l); }
  }

  lemma {:induction false} NotMember(s: seq<Tensor>, t: Tensor)
    requires forall l :: 0 <= l < |s| ==> s[l] != t
    ensures t !in Elements(s)
  {
    if s != [] { NotMember(s[..|s| - 1], t); }
  }

  // ----- taking and giving back the tensors of one sequence -----

  lemma {:induction false} SnocValid(c: SequenceCache, k: Tensor, v: Tensor)
    requires c.Valid() && k.Length == c.maxLen && v.Length == c.maxLen
    requires k !in c.Tensors() && v !in c.Tensors() && k != v
    ensures var c' := c.(k := c.k + [k], v := c.v + [v]);
            c'.Valid() && c'.Tensors() == c.Tensors() + {k, v}
  {
    ElementsSnoc(c.k, k);
    ElementsSnoc(c.v, v);
    AllMembers(c.k);
    AllMembers(c.v);
  }

  method AllocPair(dev: Device, rows: nat) returns (r: Result<(Tensor, Tensor)>)
    requires dev.Valid()
    modifies dev
    ensures dev.Valid() && old(dev.live) <= dev.live
    ensures r.Ok? <==> |old(dev.live)| + 2 <= dev.capacity
    ensures r.Err? ==> |dev.live| == dev.capacity
    ensures r.Ok? ==>
      var (k, v) := r.value;
      fresh(k) && fresh(v) && k != v && k.Length == rows && v.Length == rows &&
      dev.live == old(dev.live) + {k, v} && |dev.live| == |old(dev.live)| + 2
  {
    var k := dev.Alloc(rows);
    if k.Err? { return Err(k.error); }
    var v := dev.Alloc(rows);
    if v.Err? { return Err(v.error); }
    r := Ok((k.value, v.value));
  }

  /** Take a key and a value tensor for each of `n` layers.  When that fails the device is full of what was taken. */
  method AllocLayers(dev: Device, n: nat, rows: nat) returns (r: Result<SequenceCache>)
    requires dev.Valid()
    modifies dev
    ensures dev.Valid() && old(dev.live) <= dev.live
    ensures r.Ok? <==> |old(dev.live)| + 2 * n <= dev.capacity
    ensures r.Err? ==> |dev.live| == dev.capacity
    ensures r.Ok? ==>
      r.value.Valid() && |r.value.k| == n && r.value.currentLen == 0 && r.value.maxLen == rows &&
      fresh(r.value.Tensors()) && dev.live == old(dev.live) + r.value.Tensors()
  {
    var c := SequenceCache([], [], 0, rows);
    for i := 0 to n
      invariant dev.Valid()
      invariant c.Valid() && |c.k| == i && c.currentLen == 0 && c.maxLen == rows
      invariant |dev.live| == |old(dev.live)| + 2 * i
      invariant fresh(c.Tensors()) && dev.live == old(dev.live) + c.Tensors()
    {
      var kv := AllocPair(dev, rows);
      if kv.Err? { return Err(kv.error); }
      SnocValid(c, kv.value.0, kv.value.1);
      c := c.(k := c.k + [kv.value.0], v := c.v + [kv.value.1]);
    }
    r := Ok(c);
  }

  ghost function Freed(c: SequenceCache, i: nat): set<Tensor>
    requires i <= |c.k| == |c.v|
  {
    Elements(c.k[..i]) + Elements(c.v[..i])
  }

  /** The tensors of layer i are not among those of the layers before it. */
  lemma {:induction false} StillLive(c: SequenceCache, i: nat)
    requires c.Valid() && i < |c.k|
    ensures c.k[i] in c.Tensors() - Freed(c, i) && c.v[i] in c.Tensors() - Freed(c, i) && c.k[i] != c.v[i]
    ensures Freed(c, i + 1) == Freed(c, i) + {c.k[i], c.v[i]}
  {
    IsMember(c.k, i);
    IsMember(c.v, i);
    NotMember(c.k[..i], c.k[i]);
    NotMember(c.v[..i], c.v[i]);
    AllMembers(c.k);
    AllMembers(c.v);
    NotMember(c.k[..i], c.v[i]);
    NotMember(c.v[..i], c.k[i]);
    ElementsSnoc(c.k[..i], c.k[i]);
    ElementsSnoc(c.v[..i], c.v[i]);
    assert c.k[..i + 1] == c.k[..i] + [c.k[i]] && c.v[..i + 1] == c.v[..i] + [c.v[i]];
  }

  method FreePair(dev: Device, k: Tensor, v: Tensor)
    requires dev.Valid() && k in dev.live && v in dev.live && k != v
    modifies dev
    ensures dev.Valid() && dev.live == old(dev.live) - {k, v}
  {
    var a := dev.Free(k);
    var b := dev.Free(v);
    assert a.Ok? && b.Ok?;
  }

  method FreeLayers(dev: Device, c: SequenceCache)
    requires dev.Valid() && c.Valid() && c.Tensors() <= dev.live
    modifies dev
    ensures dev.Valid()
    ensures dev.live == old(dev.live) - c.Tensors()
  {
    for i := 0 to |c.k|
      invariant dev.Valid()
      invariant dev.live == old(dev.live) - Freed(c, i)
    {
      StillLive(c, i);
      FreePair(dev, c.k[i], c.v[i]);
    }
    assert Freed(c, |c.k|) == c.Tensors() by {
      assert c.k[..|c.k|] == c.k && c.v[..|c.k|] == c.v;
    }
  }

  // ----- the manager -----

  type Table = map<nat, SequenceCache>

  /** Every sequence has its own tensors out of `owned`, disjoint from those of every other sequence. */
  ghost predicate Entries(caches: Table, owned: set<Tensor>, numLayers: nat, maxSeqLen: nat) {
    (forall h :: h in caches ==>
      caches[h].Valid() && |caches[h].k| == numLayers && caches[h].maxLen == maxSeqLen &&
      caches[h].Tensors() <= owned) &&
    (forall h, g :: h in caches && g in caches && h != g ==> caches[h].Tensors() !! caches[g].Tensors())
  }

  /** A sequence with tensors of its own joins. */
  lemma {:induction false} EntriesAdd(caches: Table, owned: set<Tensor>, numLayers: nat, maxSeqLen: nat, h: nat,
                                      c: SequenceCache)
    requires Entries(caches, owned, numLayers, maxSeqLen) && h !in caches
    requires c.Valid() && |c.k| == numLayers && c.maxLen == maxSeqLen && c.Tensors() !! owned
    ensures Entries(caches[h := c], owned + c.Tensors(), numLayers, maxSeqLen)
  {
    hide SequenceCache.Valid, SequenceCache.Tensors;
  }

  /** A sequence goes, with its tensors. */
  lemma {:induction false} EntriesDrop(caches: Table, owned: set<Tensor>, numLayers: nat, maxSeqLen: nat, h: nat)
    requires Entries(caches, owned, numLayers, maxSeqLen) && h in caches
    ensures Entries(caches - {h}, owned - caches[h].Tensors(), numLayers, maxSeqLen)
    ensures caches[h].Valid() && caches[h].Tensors() <= owned
  {
    hide SequenceCache.Valid, SequenceCache.Tensors;
  }

  class KvCacheManager {
    var caches: Table
    var nextId: nat
    /** The tensors of all sequences. */
    ghost var owned: set<Tensor>
    const numLayers: nat
    const maxSeqLen: nat

    ghost predicate Valid(dev: Device)
      reads this, dev
    {
      (forall h :: h in caches ==> h < nextId) && Entries(caches, owned, numLayers, maxSeqLen) && owned <= dev.live
    }

    /** Keys and values the sequence has cached so far. */
    ghost function Cached(h: nat): seq<KV>
      reads this, if h in caches then caches[h].Tensors() else {}
    {
      if h in caches && caches[h].Valid() then caches[h].Filled() else []
    }

    constructor (numLayers: nat, maxSeqLen: nat)
      ensures caches == map[] && nextId == 0 && owned == {}
      ensures this.numLayers == numLayers && this.maxSeqLen == maxSeqLen
    {
      this.numLayers := numLayers;
      this.maxSeqLen := maxSeqLen;
      caches := map[];
      nextId := 0;
      owned := {};
    }

    /**
     A new, empty sequence.  The handle is one never given out before, and its tensors are
     new.  When the device runs out half way, the handle is used up, no sequence is added,
     and the tensors already taken stay on the device, which is full of them.
     */
    method Alloc(dev: Device) returns (r: Result<nat>)
      requires dev.Valid() && Valid(dev)
      modifies this, dev
      ensures dev.Valid() && Valid(dev)
      ensures nextId == old(nextId) + 1
      ensures r.Ok? <==> |old(dev.live)| + 2 * numLayers <= dev.capacity
      ensures r.Ok? ==>
        r.value == old(nextId) && r.value !in old(caches) && r.value in caches &&
        caches == old(caches)[r.value := caches[r.value]] && caches[r.value].currentLen == 0 &&
        fresh(caches[r.value].Tensors()) && dev.live == old(dev.live) + caches[r.value].Tensors() &&
        owned == old(owned) + caches[r.value].Tensors()
      ensures r.Err? ==>
        caches == old(caches) && owned == old(owned) && old(dev.live) <= dev.live && |dev.live| == dev.capacity
    {
      hide Entries, SequenceCache.Valid, SequenceCache.Tensors;
      var id := nextId;
      nextId := nextId + 1;
      var c := AllocLayers(dev, numLayers, maxSeqLen);
      if c.Ok? {
        EntriesAdd(caches, owned, numLayers, maxSeqLen, id, c.value);
        caches := caches[id := c.value];
        owned := owned + c.value.Tensors();
        r := Ok(id);
      } else {
        r := Err(c.error);
      }
    }

    method SeqLen(h: nat) returns (r: Result<nat>)
      ensures r.Ok? <==> h in caches
      ensures r.Ok? ==> r.value == caches[h].currentLen
      ensures r.Err? ==> r.error == KvCache
    {
      if h in caches { r := Ok(caches[h].currentLen); } else { r := Err(KvCache); }
    }

    method SetSeqLen(h: nat, newLen: nat) returns (r: Result<()>)
      modifies this`caches
      ensures r.Ok? <==> h in old(caches) && newLen <= old(caches)[h].maxLen
      ensures r.Ok? ==> caches == old(caches)[h := old(caches)[h].(currentLen := newLen)]
      ensures r.Err? ==> unchanged(this) && r.error == KvCache
    {
      if h !in caches || newLen > caches[h].maxLen {
        return Err(KvCache);
      }
      caches := caches[h := caches[h].(currentLen := newLen)];
      r := Ok(());
    }

    /** Key and value tensor of a layer. */
    method LayerTensors(h: nat, layer: nat) returns (r: Result<(Tensor, Tensor)>)
      requires h in caches ==> |caches[h].k| == |caches[h].v|
      ensures r.Ok? <==> h in caches && layer < |caches[h].k|
      ensures r.Ok? ==> r.value == (caches[h].k[layer], caches[h].v[layer])
      ensures r.Err? ==> r.error == KvCache
    {
      if h !in caches || layer >= |caches[h].k| {
        return Err(KvCache);
      }
      r := Ok((caches[h].k[layer], caches[h].v[layer]));
    }

    /** Give back all tensors of a sequence, and only those. */
    method Free(dev: Device, h: nat) returns (r: Result<()>)
      requires dev.Valid() && Valid(dev)
      modifies this`caches, this`owned, dev
      ensures dev.Valid() && Valid(dev)
      ensures r.Ok? <==> h in old(caches)
      ensures r.Ok? ==> caches == old(caches) - {h}
      ensures r.Ok? ==>
        dev.live == old(dev.live) - old(caches)[h].Tensors() && owned == old(owned) - old(caches)[h].Tensors()
      ensures r.Err? ==> caches == old(caches) && owned == old(owned) && dev.live == old(dev.live) && r.error == KvCache
    {
      hide Entries, SequenceCache.Valid, SequenceCache.Tensors;
      if h !in caches {
        return Err(KvCache);
      }
      var c := caches[h];
      EntriesDrop(caches, owned, numLayers, maxSeqLen, h);
      caches := caches - {h};
      owned := owned - c.Tensors();
      FreeLayers(dev, c);
      r := Ok(());
    }
  }

  datatype CacheOp = AllocOp | FreeOp(handle: nat)

  /** Handles seen so far: those freed are below the next one and valid no more. */
  ghost predicate Retired(keys: set<nat>, freed: set<nat>, nextId: nat, keys0: set<nat>, nextId0: nat) {
    freed !! keys && nextId0 <= nextId && keys0 <= keys + freed &&
    (forall h :: h in freed ==> h < nextId) &&
    (forall h :: h in keys ==> h in keys0 || nextId0 <= h)
  }

  method RunCacheOp(mgr: KvCacheManager, dev: Device, op: CacheOp) returns (freed: set<nat>)
    requires dev.Valid() && mgr.Valid(dev)
    modifies mgr, dev
    ensures dev.Valid() && mgr.Valid(dev)
    ensures freed <= old(mgr.caches).Keys
    ensures old(mgr.nextId) <= mgr.nextId
    ensures forall h :: h in freed ==> h < mgr.nextId
    ensures op.FreeOp? ==> mgr.caches.Keys == old(mgr.caches).Keys - freed
    ensures op.AllocOp? ==> freed == {} && old(mgr.nextId) < mgr.nextId
    ensures op.AllocOp? ==> mgr.caches.Keys - {old(mgr.nextId)} == old(mgr.caches).Keys
  {
    hide Entries;
    freed := {};
    match op
    case AllocOp =>
      var _ := mgr.Alloc(dev);
    case FreeOp(h) =>
      var r := mgr.Free(dev, h);
      if r.Ok? { freed := {h}; }
  }

  /**
   Any run of alloc and free calls.  At every point the tensors of live handles are live and
   pairwise disjoint (`Valid`), and a handle once freed is never valid again: every handle
   given out later is a larger one.
   */
  method RunCacheOps(mgr: KvCacheManager, dev: Device, ops: seq<CacheOp>) returns (freed: set<nat>)
    requires dev.Valid() && mgr.Valid(dev)
    modifies mgr, dev
    ensures dev.Valid() && mgr.Valid(dev)
    ensures Retired(mgr.caches.Keys, freed, mgr.nextId, old(mgr.caches).Keys, old(mgr.nextId))
  {
    freed := {};
    for i := 0 to |ops|
      invariant dev.Valid() && mgr.Valid(dev)
      invariant Retired(mgr.caches.Keys, freed, mgr.nextId, old(mgr.caches).Keys, old(mgr.nextId))
    {
      var f := RunCacheOp(mgr, dev, ops[i]);
      freed := freed + f;
    }
  }
}
