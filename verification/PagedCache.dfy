/**
 The paged KV cache manager: a pool of fixed-size blocks, a free list, and per sequence a
 table from logical to physical blocks.
 */
module PagedCaching {
  import opened Core
  import opened Transformer
  import opened TensorRows

  const BLOCK_SIZE := 16

  datatype SequenceBlocks = SequenceBlocks(blockTable: seq<nat>, lastBlockFill: nat, currentLen: nat) {
    /** The table has room for every row, and the last block is filled as recorded or beyond. */
    ghost predicate Valid() {
      |blockTable| > 0 && lastBlockFill <= BLOCK_SIZE &&
      currentLen <= BLOCK_SIZE * (|blockTable| - 1) + lastBlockFill
    }

    /** All slots but those behind the fill of the last block are in use: so until an append fails. */
    ghost predicate Tight() {
      |blockTable| > 0 && currentLen == BLOCK_SIZE * (|blockTable| - 1) + lastBlockFill
    }
  }

  /** Where a block is: at an index of the free list, or at an index of a sequence's table. */
  datatype Place = FreeAt(i: nat) | UsedAt(h: nat, j: nat)

  /**
   The places of all blocks.  A block has one place, so no block is free and used, used by two
   sequences, used twice by one, or lost.
   */
  ghost predicate Placed(places: seq<Place>, freeList: seq<nat>, sequences: map<nat, SequenceBlocks>) {
    (forall b :: 0 <= b < |places| ==>
      match places[b]
      case FreeAt(i) => i < |freeList| && freeList[i] == b
      case UsedAt(h, j) => h in sequences && j < |sequences[h].blockTable| && sequences[h].blockTable[j] == b) &&
    (forall i :: 0 <= i < |freeList| ==> freeList[i] < |places| && places[freeList[i]] == FreeAt(i)) &&
    (forall h, j :: h in sequences && 0 <= j < |sequences[h].blockTable| ==>
      sequences[h].blockTable[j] < |places| && places[sequences[h].blockTable[j]] == UsedAt(h, j))
  }

  /** Blocks that must be taken from the pool before `n` more rows fit. */
  function BlocksNeeded(fill: nat, n: nat): nat
    requires fill <= BLOCK_SIZE
  {
    if n <= BLOCK_SIZE - fill then 0 else (n - (BLOCK_SIZE - fill) + BLOCK_SIZE - 1) / BLOCK_SIZE
  }

  // ----- moving one block -----

  /** Taking the last free block for the end of a table. */
  lemma {:induction false} TakeBlock(places: seq<Place>, freeList: seq<nat>, sequences: map<nat, SequenceBlocks>,
                                     h: nat, sb: SequenceBlocks)
    requires Placed(places, freeList, sequences) && freeList != []
    requires h in sequences ==> sb.blockTable == sequences[h].blockTable + [freeList[|freeList| - 1]]
    requires h !in sequences ==> sb.blockTable == [freeList[|freeList| - 1]]
    ensures var b := freeList[|freeList| - 1];
            b < |places| &&
            Placed(places[b := UsedAt(h, |sb.blockTable| - 1)], freeList[..|freeList| - 1], sequences[h := sb])
  {
  }

  lemma {:induction false} SameTables(places: seq<Place>, freeList: seq<nat>, sequences: map<nat, SequenceBlocks>,
                                      h: nat, sb: SequenceBlocks)
    requires Placed(places, freeList, sequences) && h in sequences && sb.blockTable == sequences[h].blockTable
    ensures Placed(places, freeList, sequences[h := sb])
  {
  }

  /** `Placed`, with the first i blocks of sequence h already given back. */
  ghost predicate Releasing(places: seq<Place>, freeList: seq<nat>, sequences: map<nat, SequenceBlocks>, h: nat,
                            i: nat) {
    h in sequences && i <= |sequences[h].blockTable| &&
    (forall b :: 0 <= b < |places| ==>
      match places[b]
      case FreeAt(f) => f < |freeList| && freeList[f] == b
      case UsedAt(g, j) =>
        g in sequences && j < |sequences[g].blockTable| && sequences[g].blockTable[j] == b && (g == h ==> i <= j)) &&
    (forall f :: 0 <= f < |freeList| ==> freeList[f] < |places| && places[freeList[f]] == FreeAt(f)) &&
    (forall g, j :: g in sequences && 0 <= j < |sequences[g].blockTable| && (g == h ==> i <= j) ==>
      sequences[g].blockTable[j] < |places| && places[sequences[g].blockTable[j]] == UsedAt(g, j))
  }

  lemma {:induction false} ReleaseBlock(places: seq<Place>, freeList: seq<nat>, sequences: map<nat, SequenceBlocks>,
                                        h: nat, i: nat)
    requires Releasing(places, freeList, sequences, h, i) && i < |sequences[h].blockTable|
    ensures var b := sequences[h].blockTable[i];
            b < |places| && Releasing(places[b := FreeAt(|freeList|)], freeList + [b], sequences, h, i + 1)
  {
  }

  lemma {:induction false} Released(places: seq<Place>, freeList: seq<nat>, sequences: map<nat, SequenceBlocks>, h: nat)
    requires h in sequences && Releasing(places, freeList, sequences, h, |sequences[h].blockTable|)
    ensures Placed(places, freeList, sequences - {h})
  {
  }

  // ----- rows in blocks -----

  /** The table is over this pool and `n` rows fit into it. */
  ghost predicate Fits(t: array3<Row>, table: seq<nat>, layer: nat, n: nat) {
    layer < t.Length1 && t.Length2 == BLOCK_SIZE && n <= BLOCK_SIZE * |table| &&
    forall j :: 0 <= j < |table| ==> table[j] < t.Length0
  }

  /** The row at logical position p: block p / 16 of the table, slot p % 16. */
  ghost function RowAt(t: array3<Row>, table: seq<nat>, layer: nat, p: nat): Row
    reads t
    requires Fits(t, table, layer, p + 1)
  {
    t[table[p / BLOCK_SIZE], layer, p % BLOCK_SIZE]
  }

  /** The first n rows of a sequence, read through its table. */
  ghost function Gather(t: array3<Row>, table: seq<nat>, layer: nat, n: nat): (rows: seq<Row>)
    reads t
    requires Fits(t, table, layer, n)
    ensures |rows| == n
  {
    seq(n, p requires 0 <= p < n reads t => RowAt(t, table, layer, p))
  }

  /** Blocks added to the table add slots behind those there were. */
  lemma {:induction false} GatherPrefix(t: array3<Row>, table: seq<nat>, table': seq<nat>, layer: nat)
    requires Fits(t, table, layer, BLOCK_SIZE * |table|) && Fits(t, table', layer, BLOCK_SIZE * |table'|) &&
             table <= table'
    ensures Gather(t, table, layer, BLOCK_SIZE * |table|) <= Gather(t, table', layer, BLOCK_SIZE * |table'|)
  {
  }

  /** Nothing stored before is lost. */
  ghost predicate Covers(snap': seq<KV>, snap: seq<KV>) {
    |snap'| == |snap| && forall l :: 0 <= l < |snap| ==> Starts(snap'[l], snap[l])
  }

  /** One layer has new rows behind its first `start` rows; nothing stored by other layers is lost. */
  ghost predicate Appended(snap: seq<KV>, snap': seq<KV>, layer: nat, start: nat, keys: seq<Row>, values: seq<Row>) {
    |snap'| == |snap| && layer < |snap| && start <= |snap[layer].k| && start <= |snap[layer].v| &&
    (forall l :: 0 <= l < |snap| && l != layer ==> Starts(snap'[l], snap[l])) &&
    Starts(snap'[layer], KV(snap[layer].k[..start] + keys, snap[layer].v[..start] + values))
  }

  lemma {:induction false} AppendedAfter(snap: seq<KV>, grown: seq<KV>, snap': seq<KV>, layer: nat, start: nat,
                                         keys: seq<Row>, values: seq<Row>)
    requires Covers(grown, snap) && layer < |grown|
    requires start <= |snap[layer].k| && start <= |snap[layer].v|
    requires start + |keys| <= |grown[layer].k| && start + |values| <= |grown[layer].v|
    requires snap' == grown[layer := KV(Overwritten(grown[layer].k, start, keys),
                                        Overwritten(grown[layer].v, start, values))]
    ensures Appended(snap, snap', layer, start, keys, values)
  {
    assert Starts(grown[layer], snap[layer]);
    assert grown[layer].k[..start] == snap[layer].k[..start] && grown[layer].v[..start] == snap[layer].v[..start];
  }

  /** Only cells of this layer in blocks of this table have changed. */
  twostate predicate OnlyWrites(t: array3<Row>, table: seq<nat>, layer: nat)
    reads t
  {
    forall b, l, s | 0 <= b < t.Length0 && 0 <= l < t.Length1 && 0 <= s < t.Length2 ::
      l != layer || b !in table ==> t[b, l, s] == old(t[b, l, s])
  }

  /** No block in common. */
  ghost predicate Apart(a: seq<nat>, b: seq<nat>) {
    forall i, j :: 0 <= i < |a| && 0 <= j < |b| ==> a[i] != b[j]
  }

  /** All slots of the table's blocks in one layer. */
  ghost function AllSlots(t: array3<Row>, table: seq<nat>, layer: nat): (rows: seq<Row>)
    reads t
    requires Fits(t, table, layer, BLOCK_SIZE * |table|)
    ensures |rows| == BLOCK_SIZE * |table|
  {
    Gather(t, table, layer, BLOCK_SIZE * |table|)
  }

  /** `s` with rows from `start` on replaced by `rows`. */
  ghost function Overwritten(s: seq<Row>, start: nat, rows: seq<Row>): seq<Row>
    requires start + |rows| <= |s|
  {
    s[..start] + rows + s[start + |rows|..]
  }

  /**
   Write rows at the logical positions from `start` on, block by block: read through the
   table, exactly these positions have changed.
   */
  method WriteRows(t: array3<Row>, table: seq<nat>, layer: nat, start: nat, rows: seq<Row>)
    requires Fits(t, table, layer, BLOCK_SIZE * |table|) && Distinct(table)
    requires start + |rows| <= BLOCK_SIZE * |table|
    modifies t
    ensures AllSlots(t, table, layer) == Overwritten(old(AllSlots(t, table, layer)), start, rows)
    ensures forall table', l | 0 <= l < t.Length1 && Fits(t, table', l, BLOCK_SIZE * |table'|) ::
      l != layer || Apart(table', table) ==> AllSlots(t, table', l) == old(AllSlots(t, table', l))
  {
    var written := 0;
    while written < |rows|
      invariant 0 <= written <= |rows|
      invariant forall p :: 0 <= p < BLOCK_SIZE * |table| ==>
        RowAt(t, table, layer, p) ==
          if start <= p < start + written then rows[p - start] else old(RowAt(t, table, layer, p))
      invariant OnlyWrites(t, table, layer)
    {
      var pos := start + written;
      var blockIdx := pos / BLOCK_SIZE;
      var offset := pos % BLOCK_SIZE;
      var toWrite := if |rows| - written < BLOCK_SIZE - offset then |rows| - written else BLOCK_SIZE - offset;
      CopyIntoBlock(t, table, layer, blockIdx, offset, rows[written..written + toWrite]);
      written := written + toWrite;
    }
  }

  /** `copy_rows` into one block: logical positions 16 * j + offset on. */
  method CopyIntoBlock(t: array3<Row>, table: seq<nat>, layer: nat, j: nat, offset: nat, rows: seq<Row>)
    requires Fits(t, table, layer, BLOCK_SIZE * |table|) && Distinct(table)
    requires j < |table| && offset + |rows| <= BLOCK_SIZE
    modifies t
    ensures forall p :: 0 <= p < BLOCK_SIZE * |table| ==>
      RowAt(t, table, layer, p) ==
        if BLOCK_SIZE * j + offset <= p < BLOCK_SIZE * j + offset + |rows|
        then rows[p - BLOCK_SIZE * j - offset] else old(RowAt(t, table, layer, p))
    ensures OnlyWrites(t, table, layer)
  {
    var b := table[j];
    forall i | 0 <= i < |rows| {
      t[b, layer, offset + i] := rows[i];
    }
    forall p | 0 <= p < BLOCK_SIZE * |table|
      ensures RowAt(t, table, layer, p) ==
        if BLOCK_SIZE * j + offset <= p < BLOCK_SIZE * j + offset + |rows|
        then rows[p - BLOCK_SIZE * j - offset] else old(RowAt(t, table, layer, p))
    {
      if p / BLOCK_SIZE != j { assert table[p / BLOCK_SIZE] != b; }
    }
  }

  // ----- the manager -----

  class PagedKvCacheManager {
    const numLayers: nat
    /** Key and value rows: block, layer, slot. */
    const k: array3<Row>
    const v: array3<Row>
    /** Stack of free blocks. */
    var freeList: seq<nat>
    var sequences: map<nat, SequenceBlocks>
    var nextId: nat
    ghost var places: seq<Place>

    ghost predicate Valid()
      reads this
    {
      k != v && k.Length0 == v.Length0 == |places| &&
      k.Length1 == v.Length1 == numLayers && k.Length2 == v.Length2 == BLOCK_SIZE &&
      Placed(places, freeList, sequences) &&
      forall h :: h in sequences ==> h < nextId && sequences[h].Valid()
    }

    /** The first n rows that layer l of sequence h holds. */
    ghost function Stored(h: nat, l: nat, n: nat): KV
      reads this, k, v
      requires Valid() && h in sequences && l < numLayers && n <= BLOCK_SIZE * |sequences[h].blockTable|
    {
      var table := sequences[h].blockTable;
      KV(Gather(k, table, l, n), Gather(v, table, l, n))
    }

    /** All slots of the blocks of sequence h, layer by layer. */
    ghost function Slots(h: nat): (snap: seq<KV>)
      reads this, k, v
      requires Valid() && h in sequences
      ensures |snap| == numLayers
      ensures forall l :: 0 <= l < numLayers ==> |snap[l].k| == |snap[l].v| == BLOCK_SIZE * |sequences[h].blockTable|
    {
      seq(numLayers, l requires 0 <= l < numLayers reads this, k, v
                       requires Valid() && h in sequences =>
            KV(AllSlots(k, sequences[h].blockTable, l), AllSlots(v, sequences[h].blockTable, l)))
    }

    /** What sequence h has cached. */
    ghost function Cached(h: nat): (cs: seq<KV>)
      reads this, k, v
      requires Valid() && h in sequences
      ensures |cs| == numLayers && Paired(cs) && CachesHold(cs, sequences[h].currentLen)
    {
      seq(numLayers, l requires 0 <= l < numLayers reads this, k, v
                       requires Valid() && h in sequences => Stored(h, l, sequences[h].currentLen))
    }

    /** `BlockPool::new` and `PagedKvCacheManager::new`: every block starts free. */
    constructor (numBlocks: nat, numLayers: nat)
      ensures Valid() && this.numLayers == numLayers
      ensures sequences == map[] && nextId == 0 && |freeList| == numBlocks
      ensures fresh(k) && fresh(v)
    {
      this.numLayers := numLayers;
      k := new Row[numBlocks, numLayers, BLOCK_SIZE];
      v := new Row[numBlocks, numLayers, BLOCK_SIZE];
      freeList := seq(numBlocks, i requires 0 <= i < numBlocks => numBlocks - 1 - i);
      places := seq(numBlocks, b requires 0 <= b < numBlocks => FreeAt(numBlocks - 1 - b));
      sequences := map[];
      nextId := 0;
    }

    /** A new empty sequence with one block.  The handle is used up even when the pool is empty. */
    method Alloc() returns (r: Result<nat>)
      requires Valid()
      modifies this
      ensures Valid() && nextId == old(nextId) + 1
      ensures r.Ok? <==> old(freeList) != []
      ensures r.Ok? ==>
        r.value == old(nextId) && r.value !in old(sequences) && |freeList| == |old(freeList)| - 1 &&
        sequences == old(sequences)[r.value := SequenceBlocks([old(freeList)[|freeList|]], 0, 0)]
      ensures forall g :: g in old(sequences) ==> g in sequences && Slots(g) == old(Slots(g))
      ensures r.Err? ==> freeList == old(freeList) && sequences == old(sequences) && r.error == OutOfMemory
    {
      var id := nextId;
      nextId := nextId + 1;
      if freeList == [] {
        return Err(OutOfMemory);
      }
      var b := freeList[|freeList| - 1];
      var sb := SequenceBlocks([b], 0, 0);
      TakeBlock(places, freeList, sequences, id, sb);
      freeList := freeList[..|freeList| - 1];
      sequences := sequences[id := sb];
      places := places[b := UsedAt(id, 0)];
      r := Ok(id);
    }

    method SeqLen(h: nat) returns (r: Result<nat>)
      ensures r.Ok? <==> h in sequences
      ensures r.Ok? ==> r.value == sequences[h].currentLen
      ensures r.Err? ==> r.error == KvCache
    {
      if h in sequences { r := Ok(sequences[h].currentLen); } else { r := Err(KvCache); }
    }

    /** The last free block becomes the last block of the table. */
    method PushBlock(h: nat)
      requires Valid() && h in sequences && freeList != []
      modifies this`freeList, this`sequences, this`places
      ensures Valid() && |freeList| == |old(freeList)| - 1
      ensures h in sequences && sequences == old(sequences)[h := sequences[h]]
      ensures sequences[h] == old(sequences)[h].(blockTable := sequences[h].blockTable)
      ensures sequences[h].blockTable == old(sequences)[h].blockTable + [old(freeList)[|freeList|]]
    {
      var b := freeList[|freeList| - 1];
      var sb := sequences[h].(blockTable := sequences[h].blockTable + [b]);
      TakeBlock(places, freeList, sequences, h, sb);
      places := places[b := UsedAt(h, |sb.blockTable| - 1)];
      freeList := freeList[..|freeList| - 1];
      sequences := sequences[h := sb];
    }

    /**
     Layer 0 of an append: take the blocks the new rows need, then record the new length.
     When the pool runs out, the blocks already taken stay in the table and the length stays.
     */
    method Grow(h: nat, n: nat) returns (r: Result<()>)
      requires Valid() && h in sequences
      modifies this`freeList, this`sequences, this`places
      ensures Valid()
      ensures r.Ok? <==> BlocksNeeded(old(sequences)[h].lastBlockFill, n) <= |old(freeList)|
      ensures r.Err? ==> r.error == OutOfMemory
      ensures h in sequences && sequences == old(sequences)[h := sequences[h]]
      ensures old(sequences)[h].blockTable <= sequences[h].blockTable
      ensures sequences[h].currentLen == old(sequences)[h].currentLen + if r.Ok? then n else 0
      ensures r.Ok? ==> |freeList| == |old(freeList)| - BlocksNeeded(old(sequences)[h].lastBlockFill, n)
      ensures r.Ok? && old(sequences)[h].Tight() ==> sequences[h].Tight()
      ensures |freeList| + |sequences[h].blockTable| == |old(freeList)| + |old(sequences)[h].blockTable|
      ensures forall g :: g in sequences ==> Covers(Slots(g), old(Slots(g))) && (g != h ==> Slots(g) == old(Slots(g)))
    {
      r := GrowTable(h, n);
      ghost var was, now := old(sequences)[h].blockTable, sequences[h].blockTable;
      forall l | 0 <= l < numLayers
        ensures Starts(Slots(h)[l], old(Slots(h))[l])
      {
        GatherPrefix(k, was, now, l);
        GatherPrefix(v, was, now, l);
      }
    }

    method GrowTable(h: nat, n: nat) returns (r: Result<()>)
      requires Valid() && h in sequences
      modifies this`freeList, this`sequences, this`places
      ensures Valid()
      ensures r.Ok? <==> BlocksNeeded(old(sequences)[h].lastBlockFill, n) <= |old(freeList)|
      ensures r.Err? ==> r.error == OutOfMemory
      ensures h in sequences && sequences == old(sequences)[h := sequences[h]]
      ensures old(sequences)[h].blockTable <= sequences[h].blockTable
      ensures sequences[h].currentLen == old(sequences)[h].currentLen + if r.Ok? then n else 0
      ensures r.Ok? ==> |freeList| == |old(freeList)| - BlocksNeeded(old(sequences)[h].lastBlockFill, n)
      ensures r.Ok? && old(sequences)[h].Tight() ==> sequences[h].Tight()
      ensures |freeList| + |sequences[h].blockTable| == |old(freeList)| + |old(sequences)[h].blockTable|
    {
      hide Placed;
      var remaining: nat := n;
      var fill: nat := sequences[h].lastBlockFill;
      ghost var was := sequences[h];
      while remaining > 0
        invariant Valid() && fill <= BLOCK_SIZE && 0 <= remaining <= n
        invariant h in sequences && sequences == old(sequences)[h := sequences[h]]
        invariant sequences[h] == was.(blockTable := sequences[h].blockTable)
        invariant was.blockTable <= sequences[h].blockTable
        invariant |freeList| + |sequences[h].blockTable| == |old(freeList)| + |was.blockTable|
        invariant BLOCK_SIZE * |sequences[h].blockTable| + fill ==
                  BLOCK_SIZE * |was.blockTable| + was.lastBlockFill + (n - remaining)
        invariant |sequences[h].blockTable| - |was.blockTable| + BlocksNeeded(fill, remaining)
                  == BlocksNeeded(was.lastBlockFill, n)
        decreases remaining, BLOCK_SIZE - fill == 0
      {
        var slots := BLOCK_SIZE - fill;
        if slots == 0 {
          if freeList == [] { return Err(OutOfMemory); }
          PushBlock(h);
          fill := 0;
        } else {
          var toWrite := if remaining < slots then remaining else slots;
          fill := fill + toWrite;
          remaining := remaining - toWrite;
        }
      }
      var sb := sequences[h].(lastBlockFill := fill, currentLen := sequences[h].currentLen + n);
      SameTables(places, freeList, sequences, h, sb);
      sequences := sequences[h := sb];
      r := Ok(());
    }

    /**
     Append the keys and values of new rows for one layer.  Layer 0 takes the blocks and moves
     the length; a later layer writes the same positions.  Read back through the table, the
     layer holds its old rows followed by the new ones; every other layer and every other
     sequence holds what it held.
     */
    method AppendKv(h: nat, layer: nat, keys: seq<Row>, values: seq<Row>) returns (r: Result<()>)
      requires Valid() && layer < numLayers && |keys| == |values|
      requires h in sequences && layer > 0 ==> |keys| <= sequences[h].currentLen
      modifies this`freeList, this`sequences, this`places, k, v
      ensures Valid() && sequences.Keys == old(sequences).Keys
      ensures r.Ok? <==>
        h in old(sequences) &&
        (layer == 0 ==> BlocksNeeded(old(sequences)[h].lastBlockFill, |keys|) <= |old(freeList)|)
      ensures r.Err? ==> r.error == if h in old(sequences) then OutOfMemory else KvCache
      ensures h in old(sequences) ==>
        sequences == old(sequences)[h := sequences[h]] &&
        old(sequences)[h].blockTable <= sequences[h].blockTable &&
        |freeList| + |sequences[h].blockTable| == |old(freeList)| + |old(sequences)[h].blockTable| &&
        sequences[h].currentLen == old(sequences)[h].currentLen + if r.Ok? && layer == 0 then |keys| else 0
      ensures r.Ok? && old(sequences)[h].Tight() ==> sequences[h].Tight()
      ensures r.Ok? && layer == 0 ==>
        |freeList| == |old(freeList)| - BlocksNeeded(old(sequences)[h].lastBlockFill, |keys|)
      ensures h !in old(sequences) ==> sequences == old(sequences) && freeList == old(freeList)
      ensures layer > 0 ==> sequences == old(sequences) && freeList == old(freeList)
      ensures r.Ok? ==>
        Appended(old(Slots(h)), Slots(h), layer, sequences[h].currentLen - |keys|, keys, values)
      ensures r.Err? && h in old(sequences) ==> Covers(Slots(h), old(Slots(h)))
      ensures forall g :: g in old(sequences) && g != h ==> Slots(g) == old(Slots(g))
    {
      hide Placed, BlocksNeeded, Slots, Appended;
      if h !in sequences {
        return Err(KvCache);
      }
      if layer == 0 {
        r := Grow(h, |keys|);
        if r.Err? { return; }
      }
      ghost var grown := Slots(h);
      WriteBoth(h, layer, sequences[h].currentLen - |keys|, keys, values);
      AppendedAfter(old(Slots(h)), grown, Slots(h), layer, sequences[h].currentLen - |keys|, keys, values);
      r := Ok(());
    }

    /** Key and value rows written through the table of h, into blocks no other sequence has. */
    method WriteBoth(h: nat, layer: nat, start: nat, keys: seq<Row>, values: seq<Row>)
      requires Valid() && layer < numLayers && |keys| == |values|
      requires h in sequences && start + |keys| <= sequences[h].currentLen
      modifies k, v
      ensures var was := old(Slots(h))[layer];
              Slots(h) == old(Slots(h))[layer := KV(Overwritten(was.k, start, keys), Overwritten(was.v, start, values))]
      ensures forall g :: g in sequences && g != h ==> Slots(g) == old(Slots(g))
    {
      var table := sequences[h].blockTable;
      WriteRows(k, table, layer, start, keys);
      WriteRows(v, table, layer, start, values);
      forall g | g in sequences && g != h
        ensures Slots(g) == old(Slots(g))
      {
        assert Apart(sequences[g].blockTable, table);
      }
    }

    /** The rows in the first n slots, read through the block table as the attention kernel does. */
    method ReadRows(h: nat, layer: nat, n: nat) returns (ks: seq<Row>, vs: seq<Row>)
      requires Valid() && h in sequences && layer < numLayers && n <= BLOCK_SIZE * |sequences[h].blockTable|
      ensures KV(ks, vs) == Stored(h, layer, n)
    {
      ks, vs := [], [];
      var table := sequences[h].blockTable;
      for p := 0 to n
        invariant |ks| == |vs| == p
        invariant forall i :: 0 <= i < p ==> ks[i] == RowAt(k, table, layer, i) && vs[i] == RowAt(v, table, layer, i)
      {
        ks := ks + [k[table[p / BLOCK_SIZE], layer, p % BLOCK_SIZE]];
        vs := vs + [v[table[p / BLOCK_SIZE], layer, p % BLOCK_SIZE]];
      }
    }

    /** Causal attention of new query rows over everything the sequence has stored. */
    method DispatchAttention(o: Ops, h: nat, layer: nat, q: seq<Row>, start: nat) returns (r: Result<seq<Row>>)
      requires Valid() && layer < numLayers
      requires h in sequences ==> start + |q| <= BLOCK_SIZE * |sequences[h].blockTable|
      ensures r.Ok? <==> h in sequences
      ensures r.Ok? ==> r.value == AttendRows(o, q, Slots(h)[layer].k, Slots(h)[layer].v, start)
      ensures r.Err? ==> r.error == KvCache
    {
      if h !in sequences {
        return Err(KvCache);
      }
      var ks, vs := ReadRows(h, layer, start + |q|);
      r := Ok(AttendRows(o, q, ks, vs, start));
      ghost var full := Slots(h)[layer];
      assert ks == full.k[..start + |q|] && vs == full.v[..start + |q|];
      forall i | 0 <= i < |q|
        ensures r.value[i] == AttendRows(o, q, full.k, full.v, start)[i]
      {
        assert ks[..start + i + 1] == full.k[..start + i + 1] && vs[..start + i + 1] == full.v[..start + i + 1];
      }
    }

    /** All blocks of the sequence go back to the free list; every other sequence keeps its own. */
    method Free(h: nat) returns (r: Result<()>)
      requires Valid()
      modifies this`freeList, this`sequences, this`places
      ensures Valid()
      ensures r.Ok? <==> h in old(sequences)
      ensures r.Ok? ==> sequences == old(sequences) - {h} && freeList == old(freeList) + old(sequences)[h].blockTable
      ensures forall g :: g in sequences ==> g in old(sequences) && Slots(g) == old(Slots(g))
      ensures r.Err? ==> sequences == old(sequences) && freeList == old(freeList) && r.error == KvCache
    {
      if h !in sequences {
        return Err(KvCache);
      }
      var table := sequences[h].blockTable;
      ghost var all := sequences;
      sequences := sequences - {h};
      for i := 0 to |table|
        invariant k != v && k.Length0 == v.Length0 == |places|
        invariant freeList == old(freeList) + table[..i]
        invariant sequences == all - {h}
        invariant Releasing(places, freeList, all, h, i)
      {
        ReleaseBlock(places, freeList, all, h, i);
        places := places[table[i] := FreeAt(|freeList|)];
        freeList := freeList + [table[i]];
      }
      Released(places, freeList, all, h);
      assert table[..|table|] == table;
      r := Ok(());
    }
  }
}
