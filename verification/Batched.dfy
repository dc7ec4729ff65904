/**
 Batched forward passes: the rows of several sequences are concatenated into one buffer for
 everything that acts row by row, and taken apart again for the KV cache and for attention.
 */
module BatchedEngine {
  import opened Core
  import opened Transformer
  import opened TensorRows
  import opened PagedCaching
  import opened PagedEngine
  import opened Nodes

  /** A sequence's part in a batch. */
  datatype SequenceSlice = SequenceSlice(handle: nat, tokenIds: seq<nat>, positions: seq<nat>)

  /** Start and end of a sequence's rows in the concatenated buffer. */
  datatype Bound = Bound(start: nat, end: nat)

  /** The bounds cut a buffer of `total` rows into consecutive pieces, the i-th as long as `lens[i]`. */
  ghost predicate Cuts(bounds: seq<Bound>, lens: seq<nat>, total: nat) {
    |bounds| == |lens| &&
    (forall i :: 0 <= i < |bounds| ==> bounds[i].end == bounds[i].start + lens[i] <= total) &&
    (forall i, j :: 0 <= i && j == i + 1 && j < |bounds| ==> bounds[j].start == bounds[i].end) &&
    (if bounds == [] then total == 0 else bounds[0].start == 0 && bounds[|bounds| - 1].end == total)
  }

  /** The piece of a buffer that belongs to a sequence. */
  function Piece<T>(rows: seq<T>, b: Bound): (s: seq<T>)
    requires b.start <= b.end <= |rows|
    ensures |s| == b.end - b.start
  {
    rows[b.start..b.end]
  }

  /** Piece i of the buffer is `parts[i]`. */
  ghost predicate Pieces<T>(rows: seq<T>, bounds: seq<Bound>, parts: seq<seq<T>>) {
    |bounds| == |parts| &&
    forall i :: 0 <= i < |bounds| ==> bounds[i].start <= bounds[i].end <= |rows| && Piece(rows, bounds[i]) == parts[i]
  }

  function Lengths(seqs: seq<SequenceSlice>): (lens: seq<nat>)
    ensures |lens| == |seqs|
  {
    seq(|seqs|, i requires 0 <= i < |seqs| => |seqs[i].positions|)
  }

  ghost function AllIds(seqs: seq<SequenceSlice>): seq<seq<nat>> {
    seq(|seqs|, i requires 0 <= i < |seqs| => seqs[i].tokenIds)
  }

  ghost function AllPositionsOf(seqs: seq<SequenceSlice>): seq<seq<nat>> {
    seq(|seqs|, i requires 0 <= i < |seqs| => seqs[i].positions)
  }

  /** Every sequence brings as many ids as positions. */
  ghost predicate Matched(seqs: seq<SequenceSlice>) {
    forall i :: 0 <= i < |seqs| ==> |seqs[i].tokenIds| == |seqs[i].positions|
  }

  /** Pieces of a buffer do not reach into each other. */
  lemma {:induction false} CutsOrdered(bounds: seq<Bound>, lens: seq<nat>, total: nat, i: nat, j: nat)
    requires Cuts(bounds, lens, total) && i < j < |bounds|
    ensures bounds[i].end <= bounds[j].start
    decreases j
  {
    if i < j - 1 {
      CutsOrdered(bounds, lens, total, i, j - 1);
    }
  }

  lemma {:induction false} CutsSnoc(bounds: seq<Bound>, lens: seq<nat>, total: nat, n: nat)
    requires Cuts(bounds, lens, total)
    ensures Cuts(bounds + [Bound(total, total + n)], lens + [n], total + n)
  {
  }

  lemma {:induction false} PiecesSnoc<T>(rows: seq<T>, bounds: seq<Bound>, parts: seq<seq<T>>, part: seq<T>)
    requires Pieces(rows, bounds, parts)
    ensures Pieces(rows + part, bounds + [Bound(|rows|, |rows| + |part|)], parts + [part])
  {
    var rows', bounds', parts' := rows + part, bounds + [Bound(|rows|, |rows| + |part|)], parts + [part];
    forall i | 0 <= i < |bounds'|
      ensures bounds'[i].start <= bounds'[i].end <= |rows'| && Piece(rows', bounds'[i]) == parts'[i]
    {
      if i < |bounds| {
        assert Piece(rows', bounds[i]) == Piece(rows, bounds[i]);
      }
    }
  }

  /** The ids of all sequences one after the other. */
  function ConcatIds(seqs: seq<SequenceSlice>): seq<nat> {
    if seqs == [] then [] else ConcatIds(seqs[..|seqs| - 1]) + seqs[|seqs| - 1].tokenIds
  }

  function TotalRows(seqs: seq<SequenceSlice>): nat {
    if seqs == [] then 0 else TotalRows(seqs[..|seqs| - 1]) + |seqs[|seqs| - 1].positions|
  }

  /** The concatenated positions and ids, and where each sequence's part is. */
  method BuildBatch(seqs: seq<SequenceSlice>) returns (ids: seq<nat>, ps: seq<nat>, bounds: seq<Bound>)
    ensures Cuts(bounds, Lengths(seqs), |ps|)
    ensures Pieces(ps, bounds, AllPositionsOf(seqs))
    ensures ids == ConcatIds(seqs) && |ps| == TotalRows(seqs)
    ensures Matched(seqs) ==> |ids| == |ps| && Pieces(ids, bounds, AllIds(seqs))
  {
    hide Cuts, Pieces;
    ids, ps, bounds := [], [], [];
    var offset := 0;
    NothingCut();
    for k := 0 to |seqs|
      invariant offset == |ps| && |bounds| == k
      invariant ids == ConcatIds(seqs[..k]) && |ps| == TotalRows(seqs[..k])
      invariant Matched(seqs) ==> |ids| == |ps|
      invariant Cuts(bounds, Lengths(seqs)[..k], |ps|)
      invariant Pieces(ps, bounds, AllPositionsOf(seqs)[..k])
      invariant Matched(seqs) ==> Pieces(ids, bounds, AllIds(seqs)[..k])
    {
      var n := |seqs[k].positions|;
      CutsSnoc(bounds, Lengths(seqs)[..k], |ps|, n);
      PiecesSnoc(ps, bounds, AllPositionsOf(seqs)[..k], seqs[k].positions);
      if Matched(seqs) { PiecesSnoc(ids, bounds, AllIds(seqs)[..k], seqs[k].tokenIds); }
      assert Lengths(seqs)[..k + 1] == Lengths(seqs)[..k] + [n];
      assert AllPositionsOf(seqs)[..k + 1] == AllPositionsOf(seqs)[..k] + [seqs[k].positions];
      assert AllIds(seqs)[..k + 1] == AllIds(seqs)[..k] + [seqs[k].tokenIds];
      assert seqs[..k + 1][..k] == seqs[..k];
      ids := ids + seqs[k].tokenIds;
      ps := ps + seqs[k].positions;
      bounds := bounds + [Bound(offset, offset + n)];
      offset := offset + n;
    }
    assert Lengths(seqs)[..|seqs|] == Lengths(seqs) && seqs[..|seqs|] == seqs;
    assert AllPositionsOf(seqs)[..|seqs|] == AllPositionsOf(seqs) && AllIds(seqs)[..|seqs|] == AllIds(seqs);
  }

  lemma {:induction false} NothingCut()
    ensures Cuts([], [], 0)
    ensures Pieces<nat>([], [], [])
  {
  }

  // ----- the cache, per sequence -----

  ghost predicate DistinctHandles(seqs: seq<SequenceSlice>) {
    forall i, j :: 0 <= i < j < |seqs| ==> seqs[i].handle != seqs[j].handle
  }

  ghost predicate Known(cache: PagedKvCacheManager, seqs: seq<SequenceSlice>)
    reads cache
  {
    forall i :: 0 <= i < |seqs| ==> seqs[i].handle in cache.sequences
  }

  /** Everything stored for each sequence of the batch. */
  ghost function AllSnaps(cache: PagedKvCacheManager, seqs: seq<SequenceSlice>): (snaps: seq<seq<KV>>)
    reads cache, cache.k, cache.v
    requires cache.Valid() && Known(cache, seqs)
    ensures |snaps| == |seqs|
  {
    seq(|seqs|, i requires 0 <= i < |seqs|
                  reads cache, cache.k, cache.v
                  requires cache.Valid() && Known(cache, seqs) => cache.Slots(seqs[i].handle))
  }

  /** The rows each sequence has cached before the batch: those the batch's rows come behind. */
  ghost predicate LengthsAre(cache: PagedKvCacheManager, seqs: seq<SequenceSlice>, starts: seq<nat>, lo: nat, hi: nat,
                             moved: bool)
    reads cache
  {
    LengthsIn(cache.sequences, seqs, starts, lo, hi, moved)
  }

  ghost predicate LengthsIn(sequences: map<nat, SequenceBlocks>, seqs: seq<SequenceSlice>, starts: seq<nat>, lo: nat,
                            hi: nat, moved: bool) {
    |starts| == |seqs| && hi <= |seqs| &&
    forall i :: lo <= i < hi ==>
      seqs[i].handle in sequences &&
      sequences[seqs[i].handle].currentLen == starts[i] + if moved then |seqs[i].positions| else 0
  }

  lemma {:induction false} LengthAt(sequences: map<nat, SequenceBlocks>, seqs: seq<SequenceSlice>, starts: seq<nat>,
                                    i: nat, moved: bool)
    requires i < |seqs| && LengthsIn(sequences, seqs, starts, i, |seqs|, moved)
    ensures |starts| == |seqs| && seqs[i].handle in sequences
    ensures sequences[seqs[i].handle].currentLen == starts[i] + if moved then |seqs[i].positions| else 0
  {
  }

  /** Sequence i moves from the part still to be appended to the part done. */
  lemma {:induction false} LengthsNext(sequences: map<nat, SequenceBlocks>, seqs: seq<SequenceSlice>,
                                       starts: seq<nat>, i: nat, moved: bool, sb: SequenceBlocks)
    requires DistinctHandles(seqs) && i < |seqs|
    requires LengthsIn(sequences, seqs, starts, 0, i, true) && LengthsIn(sequences, seqs, starts, i, |seqs|, moved)
    requires sb.currentLen == starts[i] + |seqs[i].positions|
    ensures LengthsIn(sequences[seqs[i].handle := sb], seqs, starts, 0, i + 1, true)
    ensures LengthsIn(sequences[seqs[i].handle := sb], seqs, starts, i + 1, |seqs|, moved)
  {
  }

  /** Sequences lo..hi have their new rows of this layer. */
  ghost predicate AppendedAll(snaps: seq<seq<KV>>, snaps': seq<seq<KV>>, layer: nat, starts: seq<nat>,
                              bounds: seq<Bound>, k: seq<Row>, v: seq<Row>, lo: nat, hi: nat) {
    hi <= |snaps| == |snaps'| && hi <= |starts| && hi <= |bounds| &&
    forall i :: lo <= i < hi ==>
      bounds[i].start <= bounds[i].end <= |k| && bounds[i].end <= |v| &&
      Appended(snaps[i], snaps'[i], layer, starts[i], Piece(k, bounds[i]), Piece(v, bounds[i]))
  }

  /** Blocks needed by the batch from sequence i on. */
  ghost function TotalNeeded(sequences: map<nat, SequenceBlocks>, seqs: seq<SequenceSlice>, i: nat): nat
    requires i <= |seqs|
    requires forall j :: 0 <= j < |seqs| ==>
      seqs[j].handle in sequences && sequences[seqs[j].handle].lastBlockFill <= BLOCK_SIZE
    decreases |seqs| - i
  {
    if i == |seqs| then 0
    else BlocksNeeded(sequences[seqs[i].handle].lastBlockFill, |seqs[i].positions|) + TotalNeeded(sequences, seqs,
      i + 1)
  }

  /** Sequences outside the batch are as they were. */
  twostate predicate OthersKept(cache: PagedKvCacheManager, seqs: seq<SequenceSlice>)
    reads cache, cache.k, cache.v
  {
    old(cache.Valid()) && cache.Valid() && cache.sequences.Keys == old(cache.sequences).Keys &&
    forall g :: g in cache.sequences && InBatch(seqs, g) == false ==>
      cache.sequences[g] == old(cache.sequences)[g] && cache.Slots(g) == old(cache.Slots(g))
  }

  ghost predicate InBatch(seqs: seq<SequenceSlice>, h: nat) {
    exists i :: 0 <= i < |seqs| && seqs[i].handle == h
  }

  /** What the append loop has done before sequence i. */
  ghost predicate AppendState(cache: PagedKvCacheManager, seqs: seq<SequenceSlice>, snaps: seq<seq<KV>>, layer: nat,
                              starts: seq<nat>, bounds: seq<Bound>, k: seq<Row>, v: seq<Row>, i: nat)
    reads cache, cache.k, cache.v
  {
    cache.Valid() && Known(cache, seqs) && i <= |seqs| == |snaps| &&
    LengthsAre(cache, seqs, starts, 0, i, true) && LengthsAre(cache, seqs, starts, i, |seqs|, layer > 0) &&
    AppendedAll(snaps, AllSnaps(cache, seqs), layer, starts, bounds, k, v, 0, i) &&
    forall j :: i <= j < |seqs| ==> cache.Slots(seqs[j].handle) == snaps[j]
  }

  method AppendOne(cache: PagedKvCacheManager, layer: nat, seqs: seq<SequenceSlice>, bounds: seq<Bound>,
                   k: seq<Row>, v: seq<Row>, ghost starts: seq<nat>, ghost snaps: seq<seq<KV>>, i: nat)
                     returns (r: Result<()>)
    requires layer < cache.numLayers && DistinctHandles(seqs) && i < |seqs|
    requires |k| == |v| && Cuts(bounds, Lengths(seqs), |k|)
    requires AppendState(cache, seqs, snaps, layer, starts, bounds, k, v, i)
    modifies cache`freeList, cache`sequences, cache`places, cache.k, cache.v
    ensures OthersKept(cache, seqs)
    ensures seqs[i].handle in cache.sequences
    ensures cache.sequences == old(cache.sequences)[seqs[i].handle := cache.sequences[seqs[i].handle]]
    ensures r.Ok? ==> AppendState(cache, seqs, snaps, layer, starts, bounds, k, v, i + 1)
    ensures layer > 0 ==> r.Ok?
    ensures r.Err? ==> r.error == OutOfMemory
    ensures layer == 0 ==>
      var need := BlocksNeeded(old(cache.sequences)[seqs[i].handle].lastBlockFill, |seqs[i].positions|);
      (r.Ok? <==> need <= |old(cache.freeList)|) && (r.Ok? ==> |cache.freeList| == |old(cache.freeList)| - need)
  {
    hide Cuts, Appended, AppendedAll, Placed, BlocksNeeded, LengthsIn, SequenceBlocks.Tight, PagedKvCacheManager.Slots;
    CutAt(bounds, Lengths(seqs), |k|, i);
    ghost var before, was := AllSnaps(cache, seqs), cache.sequences;
    LengthAt(was, seqs, starts, i, layer > 0);
    r := cache.AppendKv(seqs[i].handle, layer, Piece(k, bounds[i]), Piece(v, bounds[i]));
    if r.Ok? {
      LengthsNext(was, seqs, starts, i, layer > 0, cache.sequences[seqs[i].handle]);
      AppendedNext(snaps, before, AllSnaps(cache, seqs), layer, starts, bounds, k, v, i);
    }
  }

  lemma {:induction false} AppendedNext(snaps: seq<seq<KV>>, before: seq<seq<KV>>, after: seq<seq<KV>>, layer: nat,
                                        starts: seq<nat>, bounds: seq<Bound>, k: seq<Row>, v: seq<Row>, i: nat)
    requires AppendedAll(snaps, before, layer, starts, bounds, k, v, 0, i)
    requires i < |snaps| == |before| == |after| && i < |starts| && i < |bounds|
    requires forall j :: 0 <= j < |before| && j != i ==> after[j] == before[j]
    requires bounds[i].start <= bounds[i].end <= |k| && bounds[i].end <= |v|
    requires Appended(snaps[i], after[i], layer, starts[i], Piece(k, bounds[i]), Piece(v, bounds[i]))
    ensures AppendedAll(snaps, after, layer, starts, bounds, k, v, 0, i + 1)
  {
    hide Appended;
  }

  lemma {:induction false} CutAt(bounds: seq<Bound>, lens: seq<nat>, total: nat, i: nat)
    requires Cuts(bounds, lens, total) && i < |lens|
    ensures |bounds| == |lens| && bounds[i].start + lens[i] == bounds[i].end <= total
  {
  }

  /**
   Step 2e: each sequence's piece of the new keys and values goes to its own blocks.  It fails
   exactly when, on layer 0, the pool does not have the blocks the whole batch needs.
   */
  method AppendAll(cache: PagedKvCacheManager, layer: nat, seqs: seq<SequenceSlice>, bounds: seq<Bound>,
                   k: seq<Row>, v: seq<Row>, ghost starts: seq<nat>) returns (r: Result<()>)
    requires cache.Valid() && layer < cache.numLayers && Known(cache, seqs) && DistinctHandles(seqs)
    requires |k| == |v| && Cuts(bounds, Lengths(seqs), |k|)
    requires LengthsAre(cache, seqs, starts, 0, |seqs|, layer > 0)
    modifies cache`freeList, cache`sequences, cache`places, cache.k, cache.v
    ensures OthersKept(cache, seqs)
    ensures r.Ok? ==> AppendState(cache, seqs, old(AllSnaps(cache, seqs)), layer, starts, bounds, k, v, |seqs|)
    ensures r.Ok? <==> layer > 0 || old(BatchFits(cache, seqs))
    ensures r.Err? ==> r.error == OutOfMemory
  {
    hide Cuts, Appended, Placed, BlocksNeeded, PagedKvCacheManager.Slots;
    ghost var snaps := AllSnaps(cache, seqs);
    ghost var fits := layer == 0 && BatchFits(cache, seqs);
    for i := 0 to |seqs|
      invariant AppendState(cache, seqs, snaps, layer, starts, bounds, k, v, i)
      invariant OthersKept(cache, seqs)
      invariant forall j :: i <= j < |seqs| ==> cache.sequences[seqs[j].handle] == old(cache.sequences)[seqs[j].handle]
      invariant layer == 0 ==>
        |cache.freeList| + TotalNeeded(old(cache.sequences), seqs, 0)
          == |old(cache.freeList)| + TotalNeeded(old(cache.sequences), seqs, i)
    {
      r := AppendOne(cache, layer, seqs, bounds, k, v, starts, snaps, i);
      if r.Err? { return; }
    }
    r := Ok(());
  }

  /** The pool has the blocks that all sequences of the batch together need. */
  ghost predicate BatchFits(cache: PagedKvCacheManager, seqs: seq<SequenceSlice>)
    reads cache
    requires cache.Valid() && Known(cache, seqs)
  {
    TotalNeeded(cache.sequences, seqs, 0) <= |cache.freeList|
  }

  // ----- one layer over the whole batch -----

  /** The attention output of one sequence, in its own piece of the buffer. */
  ghost predicate Attended(o: Ops, full: KV, b: Bound, q: seq<Row>, start: nat, attn: seq<Row>) {
    b.start <= b.end <= |q| && b.end <= |attn| &&
    start + (b.end - b.start) <= |full.k| && start + (b.end - b.start) <= |full.v| &&
    Piece(attn, b) == AttendRows(o, Piece(q, b), full.k, full.v, start)
  }

  ghost predicate AttendedAll(o: Ops, snaps: seq<seq<KV>>, layer: nat, bounds: seq<Bound>, q: seq<Row>,
                              starts: seq<nat>, attn: seq<Row>, hi: nat) {
    |attn| == |q| && hi <= |snaps| && hi <= |bounds| && hi <= |starts| &&
    forall i :: 0 <= i < hi ==> layer < |snaps[i]| && Attended(o, snaps[i][layer], bounds[i], q, starts[i], attn)
  }

  /** Writing the piece after the first i leaves the first i pieces alone. */
  lemma {:induction false} AttendedNext(o: Ops, snaps: seq<seq<KV>>, layer: nat, bounds: seq<Bound>, lens: seq<nat>,
                                        q: seq<Row>, starts: seq<nat>, attn: seq<Row>, i: nat, part: seq<Row>)
    requires Cuts(bounds, lens, |q|) && i < |bounds| && |snaps| == |bounds| == |starts|
    requires AttendedAll(o, snaps, layer, bounds, q, starts, attn, i)
    requires layer < |snaps[i]| && starts[i] + lens[i] <= |snaps[i][layer].k| &&
             starts[i] + lens[i] <= |snaps[i][layer].v|
    requires part == AttendRows(o, Piece(q, bounds[i]), snaps[i][layer].k, snaps[i][layer].v, starts[i])
    ensures AttendedAll(o, snaps, layer, bounds, q, starts, attn[..bounds[i].start] + part + attn[bounds[i].end..],
                        i + 1)
  {
    hide AttendRows;
    var b := bounds[i];
    var attn' := attn[..b.start] + part + attn[b.end..];
    forall j | 0 <= j < i
      ensures Attended(o, snaps[j][layer], bounds[j], q, starts[j], attn')
    {
      CutsOrdered(bounds, lens, |q|, j, i);
      assert Piece(attn', bounds[j]) == Piece(attn, bounds[j]);
    }
    assert Piece(attn', b) == part;
  }

  /** Step 2f: attention for each sequence on its own, copied back into its piece of the buffer. */
  method AttendAll(cache: PagedKvCacheManager, o: Ops, layer: nat, seqs: seq<SequenceSlice>, bounds: seq<Bound>,
                   q: seq<Row>, starts: seq<nat>) returns (attn: seq<Row>)
    requires cache.Valid() && layer < cache.numLayers && Known(cache, seqs)
    requires Cuts(bounds, Lengths(seqs), |q|) && LengthsAre(cache, seqs, starts, 0, |seqs|, true)
    ensures AttendedAll(o, AllSnaps(cache, seqs), layer, bounds, q, starts, attn, |seqs|)
  {
    hide Placed, PagedKvCacheManager.Slots, AttendRows, Cuts, AttendedAll;
    attn := seq(|q|, _ => []);
    ghost var snaps := AllSnaps(cache, seqs);
    NothingAttended(o, snaps, layer, bounds, q, starts, attn);
    for i := 0 to |seqs|
      invariant |attn| == |q| && AttendedAll(o, snaps, layer, bounds, q, starts, attn, i)
    {
      CutAt(bounds, Lengths(seqs), |q|, i);
      var b := bounds[i];
      // The handle is known: the append before this found it.
      var part := cache.DispatchAttention(o, seqs[i].handle, layer, Piece(q, b), starts[i]);
      AttendedNext(o, snaps, layer, bounds, Lengths(seqs), q, starts, attn, i, part.value);
      attn := attn[..b.start] + part.value + attn[b.end..];
    }
  }

  lemma {:induction false} NothingAttended(o: Ops, snaps: seq<seq<KV>>, layer: nat, bounds: seq<Bound>, q: seq<Row>,
                                           starts: seq<nat>, attn: seq<Row>)
    requires |attn| == |q|
    ensures AttendedAll(o, snaps, layer, bounds, q, starts, attn, 0)
  {
  }

  /** Acting row by row on a buffer acts on each piece of it. */
  lemma {:induction false} PieceByPiece(o: Ops, w: Layer, xs: seq<Row>, ps: seq<nat>, attn: seq<Row>, b: Bound)
    requires |xs| == |ps| == |attn| && b.start <= b.end <= |xs|
    ensures Piece(NewKeys(o, w, xs, ps), b) == NewKeys(o, w, Piece(xs, b), Piece(ps, b))
    ensures Piece(NewValues(w, xs), b) == NewValues(w, Piece(xs, b))
    ensures Piece(NewQueries(o, w, xs, ps), b) == NewQueries(o, w, Piece(xs, b), Piece(ps, b))
    ensures Piece(AfterFfn(o, w, AddAttention(o, w, xs, attn)), b)
         == AfterFfn(o, w, AddAttention(o, w, Piece(xs, b), Piece(attn, b)))
  {
  }

  /** One sequence of the batch: its piece of the buffer goes through the layer as if alone. */
  lemma {:induction false} LayerForOne(o: Ops, w: Layer, snap: seq<KV>, snap': seq<KV>, layer: nat, start: nat,
                                       b: Bound, xs: seq<Row>, ps: seq<nat>, attn: seq<Row>)
    requires |xs| == |ps| == |attn| && b.start <= b.end <= |xs| && layer < |snap| == |snap'|
    requires Appended(snap, snap', layer, start, Piece(NewKeys(o, w, xs, ps), b), Piece(NewValues(w, xs), b))
    requires Attended(o, snap'[layer], b, NewQueries(o, w, xs, ps), start, attn)
    ensures LayerDone(o, w, snap, snap', layer, start, Piece(xs, b), Piece(ps, b),
                      Piece(AfterFfn(o, w, AddAttention(o, w, xs, attn)), b))
  {
    hide NewKeys, NewValues, NewQueries, AfterFfn, AddAttention, AttendRows, LayerDone, Appended;
    PieceByPiece(o, w, xs, ps, attn, b);
    LayerAlone(o, w, snap, snap', layer, start, Piece(xs, b), Piece(ps, b));
  }

  ghost predicate LayerDoneAll(o: Ops, w: Layer, snaps: seq<seq<KV>>, snaps': seq<seq<KV>>, layer: nat,
                               starts: seq<nat>, bounds: seq<Bound>, hidden: seq<Row>, ps: seq<nat>,
                               hidden': seq<Row>) {
    |snaps| == |snaps'| == |bounds| == |starts| && |hidden| == |ps| == |hidden'| &&
    forall i :: 0 <= i < |bounds| ==>
      bounds[i].start <= bounds[i].end <= |hidden| &&
      LayerDone(o, w, snaps[i], snaps'[i], layer, starts[i], Piece(hidden, bounds[i]), Piece(ps, bounds[i]),
                Piece(hidden', bounds[i]))
  }

  lemma {:induction false} LayerForAll(o: Ops, w: Layer, snaps: seq<seq<KV>>, snaps': seq<seq<KV>>, layer: nat,
                                       starts: seq<nat>, bounds: seq<Bound>, lens: seq<nat>, xs: seq<Row>,
                                       ps: seq<nat>, attn: seq<Row>)
    requires |snaps| == |snaps'| == |bounds| == |starts| && |xs| == |ps| == |attn| && Cuts(bounds, lens, |xs|)
    requires forall i :: 0 <= i < |snaps| ==> layer < |snaps[i]| == |snaps'[i]|
    requires AppendedAll(snaps, snaps', layer, starts, bounds, NewKeys(o, w, xs, ps), NewValues(w, xs), 0, |bounds|)
    requires AttendedAll(o, snaps', layer, bounds, NewQueries(o, w, xs, ps), starts, attn, |bounds|)
    ensures LayerDoneAll(o, w, snaps, snaps', layer, starts, bounds, xs, ps,
                         AfterFfn(o, w, AddAttention(o, w, xs, attn)))
  {
    hide NewKeys, NewValues, NewQueries, AfterFfn, AddAttention, LayerDone, Attended, Appended;
    forall i | 0 <= i < |bounds|
      ensures bounds[i].start <= bounds[i].end <= |xs|
      ensures LayerDone(o, w, snaps[i], snaps'[i], layer, starts[i], Piece(xs, bounds[i]), Piece(ps, bounds[i]),
                        Piece(AfterFfn(o, w, AddAttention(o, w, xs, attn)), bounds[i]))
    {
      LayerForOne(o, w, snaps[i], snaps'[i], layer, starts[i], bounds[i], xs, ps, attn);
    }
  }

  /** Steps 2a to 2j of the batched layer loop. */
  method BatchedLayer(cache: PagedKvCacheManager, o: Ops, w: Layer, layer: nat, seqs: seq<SequenceSlice>,
                      bounds: seq<Bound>, starts: seq<nat>, hidden: seq<Row>, ps: seq<nat>)
    returns (r: Result<seq<Row>>)
    requires cache.Valid() && layer < cache.numLayers && Known(cache, seqs) && DistinctHandles(seqs)
    requires |hidden| == |ps| && Cuts(bounds, Lengths(seqs), |ps|)
    requires LengthsAre(cache, seqs, starts, 0, |seqs|, layer > 0)
    modifies cache`freeList, cache`sequences, cache`places, cache.k, cache.v
    ensures OthersKept(cache, seqs)
    ensures r.Ok? <==> layer > 0 || old(BatchFits(cache, seqs))
    ensures r.Err? ==> r.error == OutOfMemory
    ensures r.Ok? ==>
      Known(cache, seqs) && LengthsAre(cache, seqs, starts, 0, |seqs|, true) &&
      LayerDoneAll(o, w, old(AllSnaps(cache, seqs)), AllSnaps(cache, seqs), layer, starts, bounds, hidden, ps, r.value)
  {
    hide Placed, BlocksNeeded, Cuts, AppendedAll, AttendedAll, LayerDoneAll, PagedKvCacheManager.Slots;
    hide NewKeys, NewValues, NewQueries, AfterFfn, AddAttention;
    var k := NewKeys(o, w, hidden, ps);
    var v := NewValues(w, hidden);
    var q := NewQueries(o, w, hidden, ps);
    var appended := AppendAll(cache, layer, seqs, bounds, k, v, starts);
    if appended.Err? { return Err(appended.error); }
    var attn := AttendAll(cache, o, layer, seqs, bounds, q, starts);
    AttendedLength(o, AllSnaps(cache, seqs), layer, bounds, q, starts, attn, |seqs|);
    CutsCount(bounds, Lengths(seqs), |ps|);
    r := Ok(AfterFfn(o, w, AddAttention(o, w, hidden, attn)));
    LayerForAll(o, w, old(AllSnaps(cache, seqs)), AllSnaps(cache, seqs), layer, starts, bounds, Lengths(seqs), hidden,
                ps, attn);
  }

  lemma {:induction false} AttendedLength(o: Ops, snaps: seq<seq<KV>>, layer: nat, bounds: seq<Bound>, q: seq<Row>,
                                          starts: seq<nat>, attn: seq<Row>, n: nat)
    requires AttendedAll(o, snaps, layer, bounds, q, starts, attn, n)
    ensures |attn| == |q|
  {
  }

  lemma {:induction false} CutsCount(bounds: seq<Bound>, lens: seq<nat>, total: nat)
    requires Cuts(bounds, lens, total)
    ensures |bounds| == |lens|
  {
  }

  // ----- all layers -----

  /** What every sequence of the batch has cached. */
  ghost function AllCached(cache: PagedKvCacheManager, seqs: seq<SequenceSlice>): (css: seq<seq<KV>>)
    reads cache, cache.k, cache.v
    requires cache.Valid() && Known(cache, seqs)
    ensures |css| == |seqs|
    ensures forall i :: 0 <= i < |seqs| ==> css[i] == cache.Cached(seqs[i].handle)
  {
    seq(|seqs|, i requires 0 <= i < |seqs|
                  reads cache, cache.k, cache.v
                  requires cache.Valid() && Known(cache, seqs) => cache.Cached(seqs[i].handle))
  }

  /** Every sequence stands before layer l, as if it ran alone. */
  ghost predicate AllUnderway(o: Ops, ws: seq<Layer>, css: seq<seq<KV>>, seqs: seq<SequenceSlice>,
                              steps: seq<NodeStep>, l: nat, bounds: seq<Bound>, hidden: seq<Row>, snaps: seq<seq<KV>>,
                              starts: seq<nat>) {
    |css| == |seqs| == |steps| == |bounds| == |snaps| == |starts| &&
    forall i :: 0 <= i < |seqs| ==>
      bounds[i].start <= bounds[i].end <= |hidden| &&
      Underway(o, ws, css[i], seqs[i].positions, steps[i], l, Piece(hidden, bounds[i]), snaps[i], starts[i])
  }

  lemma {:induction false} AllUnderwayStep(o: Ops, ws: seq<Layer>, css: seq<seq<KV>>, seqs: seq<SequenceSlice>,
                                           steps: seq<NodeStep>, l: nat, bounds: seq<Bound>, hidden: seq<Row>,
                                           snaps: seq<seq<KV>>, starts: seq<nat>, ps: seq<nat>, hidden': seq<Row>,
                                           snaps': seq<seq<KV>>)
    requires l < |ws| && AllUnderway(o, ws, css, seqs, steps, l, bounds, hidden, snaps, starts)
    requires Pieces(ps, bounds, AllPositionsOf(seqs))
    requires LayerDoneAll(o, ws[l], snaps, snaps', l, starts, bounds, hidden, ps, hidden')
    ensures |hidden'| == |hidden|
    ensures AllUnderway(o, ws, css, seqs, steps, l + 1, bounds, hidden', snaps', starts)
  {
    hide Underway, LayerDone;
    forall i | 0 <= i < |seqs|
      ensures Underway(o, ws, css[i], seqs[i].positions, steps[i], l + 1, Piece(hidden', bounds[i]), snaps'[i],
                       starts[i])
    {
      UnderwayStep(o, ws, css[i], seqs[i].positions, steps[i], l, Piece(hidden, bounds[i]), snaps[i], starts[i],
                   Piece(hidden', bounds[i]), snaps'[i]);
    }
  }

  /** The step each sequence would make alone. */
  ghost function Steps(o: Ops, ws: seq<Layer>, css: seq<seq<KV>>, seqs: seq<SequenceSlice>, bounds: seq<Bound>,
                       xs: seq<Row>): (steps: seq<NodeStep>)
    requires |css| == |seqs| == |bounds|
    requires forall i :: 0 <= i < |seqs| ==> |css[i]| == |ws| && Paired(css[i])
    requires forall i :: 0 <= i < |seqs| ==>
      bounds[i].start <= bounds[i].end <= |xs| && bounds[i].end - bounds[i].start == |seqs[i].positions|
    ensures |steps| == |seqs|
  {
    seq(|seqs|, i requires 0 <= i < |seqs| => NodeCached(o, ws, css[i], Piece(xs, bounds[i]), seqs[i].positions))
  }

  /** Every sequence has made the step it would have made alone. */
  ghost predicate AllRan(o: Ops, ws: seq<Layer>, css: seq<seq<KV>>, seqs: seq<SequenceSlice>, bounds: seq<Bound>,
                         xs: seq<Row>, ys: seq<Row>, css': seq<seq<KV>>) {
    |css| == |css'| == |seqs| == |bounds| && |xs| == |ys| &&
    forall i :: 0 <= i < |seqs| ==>
      |css[i]| == |ws| && Paired(css[i]) && bounds[i].start <= bounds[i].end <= |xs| &&
      bounds[i].end - bounds[i].start == |seqs[i].positions| &&
      NodeStep(Piece(ys, bounds[i]), css'[i]) == NodeCached(o, ws, css[i], Piece(xs, bounds[i]), seqs[i].positions)
  }

  lemma {:induction false} AllStart(cache: PagedKvCacheManager, o: Ops, ws: seq<Layer>, seqs: seq<SequenceSlice>,
                                    bounds: seq<Bound>, xs: seq<Row>, ps: seq<nat>, starts: seq<nat>)
    returns (steps: seq<NodeStep>)
    requires cache.Valid() && |ws| == cache.numLayers && Known(cache, seqs)
    requires |xs| == |ps| && Cuts(bounds, Lengths(seqs), |ps|)
    requires LengthsAre(cache, seqs, starts, 0, |seqs|, false)
    ensures |steps| == |seqs| == |bounds|
    ensures forall i :: 0 <= i < |seqs| ==>
      bounds[i].start <= bounds[i].end <= |xs| && bounds[i].end - bounds[i].start == |seqs[i].positions| &&
      steps[i] == NodeCached(o, ws, cache.Cached(seqs[i].handle), Piece(xs, bounds[i]), seqs[i].positions)
    ensures AllUnderway(o, ws, AllCached(cache, seqs), seqs, steps, 0, bounds, xs, AllSnaps(cache, seqs), starts)
  {
    hide Underway, NodeCached, Placed, PagedKvCacheManager.Slots, PagedKvCacheManager.Cached;
    steps := Steps(o, ws, AllCached(cache, seqs), seqs, bounds, xs);
    forall i | 0 <= i < |seqs|
      ensures Underway(o, ws, cache.Cached(seqs[i].handle), seqs[i].positions, steps[i], 0, Piece(xs, bounds[i]),
                       cache.Slots(seqs[i].handle), starts[i])
    {
      CachedAreFirst(cache, seqs[i].handle);
      UnderwayStart(o, ws, cache.Cached(seqs[i].handle), seqs[i].positions, Piece(xs, bounds[i]),
                    cache.Slots(seqs[i].handle), starts[i]);
    }
  }

  lemma {:induction false} AllEnd(cache: PagedKvCacheManager, o: Ops, ws: seq<Layer>, css: seq<seq<KV>>,
                                  seqs: seq<SequenceSlice>, bounds: seq<Bound>, xs: seq<Row>, hidden: seq<Row>,
                                  starts: seq<nat>, steps: seq<NodeStep>)
    requires cache.Valid() && |ws| == cache.numLayers && Known(cache, seqs) && |hidden| == |xs|
    requires |css| == |seqs| == |steps| == |bounds|
    requires forall i :: 0 <= i < |seqs| ==> |css[i]| == |ws| && Paired(css[i])
    requires forall i :: 0 <= i < |seqs| ==>
      bounds[i].start <= bounds[i].end <= |xs| && bounds[i].end - bounds[i].start == |seqs[i].positions| &&
      steps[i] == NodeCached(o, ws, css[i], Piece(xs, bounds[i]), seqs[i].positions)
    requires AllUnderway(o, ws, css, seqs, steps, |ws|, bounds, hidden, AllSnaps(cache, seqs), starts)
    requires LengthsAre(cache, seqs, starts, 0, |seqs|, true)
    ensures AllRan(o, ws, css, seqs, bounds, xs, hidden, AllCached(cache, seqs))
  {
    hide Underway, NodeCached, Placed, FirstRows, PagedKvCacheManager.Slots, PagedKvCacheManager.Cached;
    forall i | 0 <= i < |seqs|
      ensures NodeStep(Piece(hidden, bounds[i]), cache.Cached(seqs[i].handle))
           == NodeCached(o, ws, css[i], Piece(xs, bounds[i]), seqs[i].positions)
    {
      var h := seqs[i].handle;
      CachedAreFirst(cache, h);
      UnderwayEnd(o, ws, css[i], Piece(xs, bounds[i]), seqs[i].positions, Piece(hidden, bounds[i]), cache.Slots(h),
                  starts[i],
                  cache.Cached(h));
    }
  }

  /** The batched layer loop. */
  method BatchedLayers(cache: PagedKvCacheManager, o: Ops, ws: seq<Layer>, seqs: seq<SequenceSlice>, bounds: seq<Bound>,
                       starts: seq<nat>, xs: seq<Row>, ps: seq<nat>) returns (r: Result<seq<Row>>)
    requires cache.Valid() && 0 < |ws| == cache.numLayers && Known(cache, seqs) && DistinctHandles(seqs)
    requires |xs| == |ps| && Cuts(bounds, Lengths(seqs), |ps|) && Pieces(ps, bounds, AllPositionsOf(seqs))
    requires LengthsAre(cache, seqs, starts, 0, |seqs|, false)
    modifies cache`freeList, cache`sequences, cache`places, cache.k, cache.v
    ensures OthersKept(cache, seqs)
    ensures r.Ok? <==> old(BatchFits(cache, seqs))
    ensures r.Err? ==> r.error == OutOfMemory
    ensures r.Ok? ==>
      Known(cache, seqs) && AllRan(o, ws, old(AllCached(cache, seqs)), seqs, bounds, xs, r.value,
                                   AllCached(cache, seqs))
  {
    hide Placed, BlocksNeeded, Cuts, Pieces, LayerDoneAll, AllUnderway, NodeCached, AllRan;
    hide PagedKvCacheManager.Slots, PagedKvCacheManager.Cached;
    var hidden := xs;
    ghost var css := AllCached(cache, seqs);
    ghost var steps := AllStart(cache, o, ws, seqs, bounds, xs, ps, starts);
    ghost var fits := BatchFits(cache, seqs);
    for l := 0 to |ws|
      invariant OthersKept(cache, seqs) && Known(cache, seqs) && |hidden| == |ps|
      invariant LengthsAre(cache, seqs, starts, 0, |seqs|, l > 0)
      invariant l == 0 ==> BatchFits(cache, seqs) == fits
      invariant l > 0 ==> fits
      invariant AllUnderway(o, ws, css, seqs, steps, l, bounds, hidden, AllSnaps(cache, seqs), starts)
    {
      ghost var was, snaps := hidden, AllSnaps(cache, seqs);
      var next := BatchedLayer(cache, o, ws[l], l, seqs, bounds, starts, hidden, ps);
      if next.Err? { return Err(next.error); }
      hidden := next.value;
      AllUnderwayStep(o, ws, css, seqs, steps, l, bounds, was, snaps, starts, ps, hidden, AllSnaps(cache, seqs));
    }
    AllEnd(cache, o, ws, css, seqs, bounds, xs, hidden, starts, steps);
    r := Ok(hidden);
  }

  /** The length every sequence has in the cache before this batch. */
  method StartPositions(cache: PagedKvCacheManager, seqs: seq<SequenceSlice>) returns (r: Result<seq<nat>>)
    ensures r.Ok? <==> Known(cache, seqs)
    ensures r.Ok? ==> LengthsAre(cache, seqs, r.value, 0, |seqs|, false)
    ensures r.Err? ==> r.error == KvCache
  {
    var starts := [];
    for i := 0 to |seqs|
      invariant |starts| == i
      invariant forall j :: 0 <= j < i ==>
        seqs[j].handle in cache.sequences && cache.sequences[seqs[j].handle].currentLen == starts[j]
    {
      var len := cache.SeqLen(seqs[i].handle);
      if len.Err? { return Err(len.error); }
      starts := starts + [len.value];
    }
    r := Ok(starts);
  }

  /** Start positions, then the layer loop. */
  method RunBatch(cache: PagedKvCacheManager, o: Ops, ws: seq<Layer>, seqs: seq<SequenceSlice>, bounds: seq<Bound>,
                  xs: seq<Row>, ps: seq<nat>) returns (r: Result<seq<Row>>)
    requires cache.Valid() && 0 < |ws| == cache.numLayers && DistinctHandles(seqs)
    requires |xs| == |ps| && Cuts(bounds, Lengths(seqs), |ps|) && Pieces(ps, bounds, AllPositionsOf(seqs))
    modifies cache`freeList, cache`sequences, cache`places, cache.k, cache.v
    ensures OthersKept(cache, seqs)
    ensures r.Ok? <==> old(Known(cache, seqs) && BatchFits(cache, seqs))
    ensures r.Err? ==> r.error == if old(Known(cache, seqs)) then OutOfMemory else KvCache
    ensures r.Ok? ==> |r.value| == |xs|
    ensures r.Ok? ==>
      Known(cache, seqs) && AllRan(o, ws, old(AllCached(cache, seqs)), seqs, bounds, xs, r.value,
                                   AllCached(cache, seqs))
  {
    hide Placed, BlocksNeeded, Cuts, Pieces, AllRan, PagedKvCacheManager.Slots, PagedKvCacheManager.Cached;
    var starts := StartPositions(cache, seqs);
    if starts.Err? { return Err(starts.error); }
    r := BatchedLayers(cache, o, ws, seqs, bounds, starts.value, xs, ps);
    if r.Ok? {
      AllRanLength(o, ws, old(AllCached(cache, seqs)), seqs, bounds, xs, r.value, AllCached(cache, seqs));
    }
  }

  // ----- the calls -----

  /** Final norm and LM head on the row before the end of every piece. */
  method TailRows(m: Model, bounds: seq<Bound>, hidden: seq<Row>) returns (logits: seq<Row>)
    requires forall i :: 0 <= i < |bounds| ==> 0 < bounds[i].end <= |hidden|
    ensures |logits| == |bounds|
    ensures forall i :: 0 <= i < |bounds| ==> logits[i] == Logits(m, hidden[bounds[i].end - 1])
  {
    var normed := MapRows(m.outputNorm, hidden);
    logits := [];
    for i := 0 to |bounds|
      invariant |logits| == i
      invariant forall j :: 0 <= j < i ==> logits[j] == Logits(m, hidden[bounds[j].end - 1])
    {
      logits := logits + [m.lmHead(normed[bounds[i].end - 1])];
    }
  }

  /** No piece ends at 0 if the first is not empty. */
  lemma {:induction false} EndsPositive(bounds: seq<Bound>, lens: seq<nat>, total: nat, i: nat)
    requires Cuts(bounds, lens, total) && i < |bounds| && lens[0] > 0
    ensures 0 < bounds[i].end <= total
  {
    if i > 0 { CutsOrdered(bounds, lens, total, 0, i); }
  }

  /** Every non-empty sequence of the batch came out as it would have alone. */
  ghost predicate BatchOutcome(m: Model, css: seq<seq<KV>>, seqs: seq<SequenceSlice>, logits: seq<Row>,
                               css': seq<seq<KV>>) {
    |css| == |seqs| == |logits| == |css'| &&
    forall i :: 0 <= i < |seqs| && seqs[i].positions != [] ==>
      Outcome(m, m.layers, true, css[i], Embed(m, seqs[i].tokenIds), seqs[i].positions, LastLogits(logits[i]), css'[i])
  }

  /** A sequence without rows has the logits of the sequence before it. */
  ghost predicate EmptiesRepeat(seqs: seq<SequenceSlice>, logits: seq<Row>) {
    |logits| == |seqs| &&
    forall i, j :: 0 <= i && j == i + 1 && j < |seqs| && seqs[j].positions == [] ==> logits[j] == logits[i]
  }

  lemma {:induction false} OutcomeOfPieces(m: Model, css: seq<seq<KV>>, seqs: seq<SequenceSlice>, bounds: seq<Bound>,
                                           ids: seq<nat>, ys: seq<Row>, css': seq<seq<KV>>, logits: seq<Row>)
    requires Matched(seqs) && Pieces(ids, bounds, AllIds(seqs))
    requires AllRan(m.ops, m.layers, css, seqs, bounds, Embed(m, ids), ys, css')
    requires |logits| == |bounds|
    requires forall i :: 0 <= i < |bounds| ==>
      0 < bounds[i].end <= |ys| && logits[i] == Logits(m, ys[bounds[i].end - 1])
    ensures BatchOutcome(m, css, seqs, logits, css')
  {
    hide NodeCached, Logits;
    forall i | 0 <= i < |seqs| && seqs[i].positions != []
      ensures Outcome(m, m.layers, true, css[i], Embed(m, seqs[i].tokenIds), seqs[i].positions, LastLogits(logits[i]),
                      css'[i])
    {
      assert Piece(Embed(m, ids), bounds[i]) == Embed(m, seqs[i].tokenIds);
      assert ys[bounds[i].end - 1] == Piece(ys, bounds[i])[|seqs[i].positions| - 1];
    }
  }

  /** The logits of a batch whose rows have gone through the layers. */
  method TailOfBatch(m: Model, ghost css: seq<seq<KV>>, seqs: seq<SequenceSlice>, bounds: seq<Bound>,
                     ghost ids: seq<nat>, ys: seq<Row>, ghost css': seq<seq<KV>>) returns (logits: seq<Row>)
    requires Matched(seqs) && seqs != [] && seqs[0].positions != []
    requires Cuts(bounds, Lengths(seqs), |ids|) && Pieces(ids, bounds, AllIds(seqs))
    requires AllRan(m.ops, m.layers, css, seqs, bounds, Embed(m, ids), ys, css')
    ensures BatchOutcome(m, css, seqs, logits, css')
    ensures |logits| == |seqs|
    ensures EmptiesRepeat(seqs, logits)
  {
    hide Logits, AllRan, BatchOutcome;
    AllRanLength(m.ops, m.layers, css, seqs, bounds, Embed(m, ids), ys, css');
    forall i | 0 <= i < |bounds|
      ensures 0 < bounds[i].end <= |ys|
    {
      EndsPositive(bounds, Lengths(seqs), |ids|, i);
    }
    logits := TailRows(m, bounds, ys);
    OutcomeOfPieces(m, css, seqs, bounds, ids, ys, css', logits);
  }

  /**
   `batched_forward`: the whole model over several sequences at once.  Every non-empty sequence
   gets the logits, and leaves the cache, that it would alone.  An empty one is given the logits
   of the sequence before it.
   */
  method BatchedForward(cache: PagedKvCacheManager, m: Model, seqs: seq<SequenceSlice>) returns (r: Result<seq<Row>>)
    requires cache.Valid() && 0 < |m.layers| == cache.numLayers && Matched(seqs) && DistinctHandles(seqs)
    requires seqs != [] ==> seqs[0].positions != []
    modifies cache`freeList, cache`sequences, cache`places, cache.k, cache.v
    ensures OthersKept(cache, seqs)
    ensures r.Ok? <==> old(Known(cache, seqs) && BatchFits(cache, seqs))
    ensures r.Err? ==> r.error == if old(Known(cache, seqs)) then OutOfMemory else KvCache
    ensures r.Ok? ==>
      Known(cache, seqs) && EmptiesRepeat(seqs, r.value) &&
      BatchOutcome(m, old(AllCached(cache, seqs)), seqs, r.value, AllCached(cache, seqs))
  {
    hide Placed, BlocksNeeded, BatchOutcome, Cuts, Pieces, AllRan, PagedKvCacheManager.Slots,
      PagedKvCacheManager.Cached;
    if seqs == [] {
      EmptyBatch(m);
      return Ok([]);
    }
    var ids, ps, bounds := BuildBatch(seqs);
    var ys := RunBatch(cache, m.ops, m.layers, seqs, bounds, Embed(m, ids), ps);
    if ys.Err? { return Err(ys.error); }
    var logits := TailOfBatch(m, old(AllCached(cache, seqs)), seqs, bounds, ids, ys.value, AllCached(cache, seqs));
    r := Ok(logits);
  }

  lemma {:induction false} EmptyBatch(m: Model)
    ensures BatchOutcome(m, [], [], [], [])
  {
  }

  lemma {:induction false} AllRanLength(o: Ops, ws: seq<Layer>, css: seq<seq<KV>>, seqs: seq<SequenceSlice>,
                                        bounds: seq<Bound>, xs: seq<Row>, ys: seq<Row>, css': seq<seq<KV>>)
    requires AllRan(o, ws, css, seqs, bounds, xs, ys, css')
    ensures |ys| == |xs|
  {
  }

  /** The outcome of a batch without empty sequences is determined by what was cached before. */
  lemma {:induction false} OutcomeUnique(m: Model, css: seq<seq<KV>>, seqs: seq<SequenceSlice>, logits: seq<Row>,
                                         css': seq<seq<KV>>, logits2: seq<Row>, css2: seq<seq<KV>>)
    requires forall i :: 0 <= i < |seqs| ==> seqs[i].positions != []
    requires BatchOutcome(m, css, seqs, logits, css') && BatchOutcome(m, css, seqs, logits2, css2)
    ensures logits == logits2 && css' == css2
  {
    hide NodeCached, Logits;
    forall i | 0 <= i < |seqs|
      ensures logits[i] == logits2[i] && css'[i] == css2[i]
    {
      assert seqs[i].positions != [];
    }
  }

  datatype BatchOutput = FlatLogits(logits: Row) | BatchRows(rows: seq<Row>)

  /** Token ids on the head, activations of the right shape elsewhere. */
  predicate BatchInputFits(cfg: NodeConfig, seqs: seq<SequenceSlice>, input: Option<seq<Row>>) {
    if cfg.IsHead() then input.None? && |ConcatIds(seqs)| == TotalRows(seqs)
    else input.Some? && |input.value| == TotalRows(seqs)
  }

  /** What a node returns for a batch whose rows have become `ys`. */
  ghost predicate BatchReturns(m: Model, isTail: bool, bounds: seq<Bound>, ys: seq<Row>, out: BatchOutput) {
    if isTail then
      (forall i :: 0 <= i < |bounds| ==> 0 < bounds[i].end <= |ys|) &&
      out == FlatLogits(Concat(seq(|bounds|, i requires 0 <= i < |bounds| && 0 < bounds[i].end <= |ys| =>
        Logits(m, ys[bounds[i].end - 1]))))
    else out == BatchRows(ys)
  }

  /** All logits in one list, sequence after sequence. */
  method FlattenRows(rows: seq<Row>) returns (flat: Row)
    ensures flat == Concat(rows)
  {
    flat := [];
    for i := 0 to |rows|
      invariant flat == Concat(rows[..i])
    {
      assert rows[..i + 1] == rows[..i] + [rows[i]];
      ConcatSnoc(rows[..i], rows[i]);
      flat := flat + rows[i];
    }
    assert rows[..|rows|] == rows;
  }

  method BatchResult(m: Model, isTail: bool, bounds: seq<Bound>, ghost lens: seq<nat>, ys: seq<Row>)
    returns (out: BatchOutput)
    requires Cuts(bounds, lens, |ys|) && (isTail ==> bounds != [] && lens[0] > 0)
    ensures BatchReturns(m, isTail, bounds, ys, out)
  {
    hide Logits;
    if !isTail {
      return BatchRows(ys);
    }
    forall i | 0 <= i < |bounds|
      ensures 0 < bounds[i].end <= |ys|
    {
      EndsPositive(bounds, lens, |ys|, i);
    }
    var rows := TailRows(m, bounds, ys);
    assert rows == seq(|bounds|, i requires 0 <= i < |bounds| &&
                       0 < bounds[i].end <= |ys| => Logits(m, ys[bounds[i].end - 1]));
    var flat := FlattenRows(rows);
    out := FlatLogits(flat);
  }

  /** The rows a batch starts from. */
  function BatchInput(m: Model, cfg: NodeConfig, input: Option<seq<Row>>, ids: seq<nat>,
                      total: nat): (r: Result<seq<Row>>)
    ensures r.Ok? <==> if cfg.IsHead() then input.None? && |ids| == total else input.Some? && |input.value| == total
    ensures r.Ok? ==> |r.value| == total && r.value == if cfg.IsHead() then Embed(m, ids) else input.value
    ensures r.Err? ==> r.error == if input.None? != cfg.IsHead() then Pipeline else InvalidShape
  {
    if cfg.IsHead() then
      if input.Some? then Err(Pipeline)
      else if |ids| != total then Err(InvalidShape)
      else Ok(Embed(m, ids))
    else
      if input.None? then Err(Pipeline)
      else if |input.value| != total then Err(InvalidShape)
      else Ok(input.value)
  }

  /**
   `batched_forward_node`: the node's layers over several sequences.  The rows of each
   sequence go through the layers as if alone; a tail flattens the logits into one list.
   */
  method BatchedForwardNode(cache: PagedKvCacheManager, m: Model, ws: seq<Layer>, cfg: NodeConfig,
                            seqs: seq<SequenceSlice>, input: Option<seq<Row>>)
    returns (r: Result<BatchOutput>, ghost bounds: seq<Bound>, ghost ys: seq<Row>)
    requires cache.Valid() && cfg.Valid() && |ws| == cfg.NumLayers() == cache.numLayers && DistinctHandles(seqs)
    requires cfg.IsTail() && seqs != [] ==> seqs[0].positions != []
    modifies cache`freeList, cache`sequences, cache`places, cache.k, cache.v
    ensures OthersKept(cache, seqs)
    ensures r.Ok? <==>
      seqs != [] && BatchInputFits(cfg, seqs, input) && old(Known(cache, seqs) && BatchFits(cache, seqs))
    ensures r.Err? ==>
      r.error == if seqs == [] || input.None? != cfg.IsHead() then Pipeline
                 else if !BatchInputFits(cfg, seqs, input) then InvalidShape
                 else if old(Known(cache, seqs)) then OutOfMemory
                 else KvCache
    ensures seqs == [] || !BatchInputFits(cfg, seqs, input) ==>
      cache.sequences == old(cache.sequences) &&
      forall g :: g in cache.sequences ==> cache.Slots(g) == old(cache.Slots(g))
    ensures r.Ok? ==>
      Known(cache, seqs) && Cuts(bounds, Lengths(seqs), |ys|) && BatchReturns(m, cfg.IsTail(), bounds, ys, r.value)
    ensures r.Ok? ==>
      AllRan(m.ops, ws, old(AllCached(cache, seqs)), seqs, bounds,
             if cfg.IsHead() then Embed(m, ConcatIds(seqs)) else input.value, ys, AllCached(cache, seqs))
  {
    hide Placed, BlocksNeeded, Cuts, Pieces, AllRan, BatchReturns, PagedKvCacheManager.Slots,
      PagedKvCacheManager.Cached;
    hide Lengths, AllPositionsOf, AllIds, ConcatIds, TotalRows, DistinctHandles, Matched, BatchFits, Embed;
    bounds, ys := [], [];
    var ids, ps, cuts := BuildBatch(seqs);
    var xs := if seqs == [] then Err(Pipeline) else BatchInput(m, cfg, input, ids, |ps|);
    if xs.Err? { r := Err(xs.error); return; }
    var out := RunBatch(cache, m.ops, ws, seqs, cuts, xs.value, ps);
    if out.Err? { r := Err(out.error); return; }
    ys := out.value;
    CutsCount(cuts, Lengths(seqs), |ps|);
    FirstLength(seqs);
    var result := BatchResult(m, cfg.IsTail(), cuts, Lengths(seqs), out.value);
    bounds, r := cuts, Ok(result);
  }

  lemma {:induction false} FirstLength(seqs: seq<SequenceSlice>)
    requires seqs != []
    ensures |Lengths(seqs)| == |seqs| && Lengths(seqs)[0] == |seqs[0].positions|
  {
  }

  // ----- the same batch, one sequence after the other -----

  /** Sequences lo..hi of the batch have what they had cached before. */
  ghost predicate StillCached(cache: PagedKvCacheManager, seqs: seq<SequenceSlice>, css: seq<seq<KV>>, lo: nat, hi: nat)
    reads cache, cache.k, cache.v
  {
    cache.Valid() && Known(cache, seqs) && hi <= |seqs| == |css| &&
    forall j :: lo <= j < hi ==> cache.Cached(seqs[j].handle) == css[j]
  }

  /** What sequences 0..i of the batch have come to. */
  ghost predicate OutcomeUpTo(m: Model, css: seq<seq<KV>>, seqs: seq<SequenceSlice>, logits: seq<Row>,
                              css': seq<seq<KV>>, i: nat) {
    i <= |css| == |seqs| == |css'| && |logits| == i &&
    forall j :: 0 <= j < i ==>
      Outcome(m, m.layers, true, css[j], Embed(m, seqs[j].tokenIds), seqs[j].positions, LastLogits(logits[j]), css'[j])
  }

  lemma {:induction false} FirstRowsUnique(snap: seq<KV>, cs: seq<KV>, cs': seq<KV>, n: nat)
    requires FirstRows(snap, cs, n) && FirstRows(snap, cs', n)
    ensures cs == cs'
  {
    forall l | 0 <= l < |snap|
      ensures cs[l] == cs'[l]
    {
      assert Starts(snap[l], cs[l]) && Starts(snap[l], cs'[l]);
    }
  }

  /** One sequence of the batch on its own; every other one keeps its cache. */
  method ForwardOne(cache: PagedKvCacheManager, m: Model, maxSeqLen: nat, seqs: seq<SequenceSlice>, i: nat)
    returns (r: Result<Row>)
    requires cache.Valid() && 0 < |m.layers| == cache.numLayers && Matched(seqs) && DistinctHandles(seqs) &&
             Known(cache, seqs)
    requires i < |seqs|
    modifies cache`freeList, cache`sequences, cache`places, cache.k, cache.v
    ensures OnlyTouches(cache, seqs[i].handle) && Known(cache, seqs)
    ensures r.Ok? <==>
      seqs[i].positions != [] && AllBelow(seqs[i].positions, maxSeqLen) &&
      BlocksNeeded(old(cache.sequences)[seqs[i].handle].lastBlockFill, |seqs[i].positions|) <= |old(cache.freeList)|
    ensures r.Ok? ==>
      |cache.freeList| == |old(cache.freeList)| - BlocksNeeded(old(cache.sequences)[seqs[i].handle].lastBlockFill,
                                                               |seqs[i].positions|) &&
      Outcome(m, m.layers, true, old(cache.Cached(seqs[i].handle)), Embed(m, seqs[i].tokenIds), seqs[i].positions,
              LastLogits(r.value), cache.Cached(seqs[i].handle))
    ensures forall j :: 0 <= j < |seqs| && j != i ==> cache.Cached(seqs[j].handle) == old(cache.Cached(seqs[j].handle))
  {
    hide Placed, BlocksNeeded, Outcome, FirstRows, PagedKvCacheManager.Slots, PagedKvCacheManager.Cached;
    ghost var css, snaps := AllCached(cache, seqs), AllSnaps(cache, seqs);
    ghost var lens := seq(|seqs|, j requires 0 <= j < |seqs| && seqs[j].handle in cache.sequences reads cache =>
      cache.sequences[seqs[j].handle].currentLen);
    forall j | 0 <= j < |seqs|
      ensures FirstRows(snaps[j], css[j], lens[j])
    {
      CachedAreFirst(cache, seqs[j].handle);
    }
    r := ForwardPaged(cache, m, maxSeqLen, seqs[i].tokenIds, seqs[i].positions, seqs[i].handle);
    forall j | 0 <= j < |seqs| && j != i
      ensures cache.Cached(seqs[j].handle) == css[j]
    {
      CachedAreFirst(cache, seqs[j].handle);
      FirstRowsUnique(snaps[j], cache.Cached(seqs[j].handle), css[j], lens[j]);
    }
  }

  /** What `forward_paged` asks of each sequence and `batched_forward` does not. */
  ghost predicate AllInRange(seqs: seq<SequenceSlice>, maxSeqLen: nat) {
    forall i :: 0 <= i < |seqs| ==> OneInRange(seqs[i], maxSeqLen)
  }

  ghost predicate OneInRange(s: SequenceSlice, maxSeqLen: nat) {
    s.positions != [] && AllBelow(s.positions, maxSeqLen)
  }

  /** Where the one-by-one run stands before sequence i. */
  ghost predicate SequentialState(cache: PagedKvCacheManager, m: Model, css: seq<seq<KV>>, seqs: seq<SequenceSlice>,
                                  logits: seq<Row>, i: nat)
    reads cache, cache.k, cache.v
  {
    cache.Valid() && Known(cache, seqs) && StillCached(cache, seqs, css, i, |seqs|) &&
    OutcomeUpTo(m, css, seqs, logits, AllCached(cache, seqs), i)
  }

  method SequentialStep(cache: PagedKvCacheManager, m: Model, maxSeqLen: nat, seqs: seq<SequenceSlice>, i: nat,
                        logits: seq<Row>, ghost css: seq<seq<KV>>) returns (r: Result<seq<Row>>)
    requires 0 < |m.layers| == cache.numLayers && Matched(seqs) && DistinctHandles(seqs) && i < |seqs|
    requires SequentialState(cache, m, css, seqs, logits, i)
    modifies cache`freeList, cache`sequences, cache`places, cache.k, cache.v
    ensures OnlyTouches(cache, seqs[i].handle) && Known(cache, seqs)
    ensures r.Ok? <==>
      OneInRange(seqs[i], maxSeqLen) &&
      BlocksNeeded(old(cache.sequences)[seqs[i].handle].lastBlockFill, |seqs[i].positions|) <= |old(cache.freeList)|
    ensures r.Ok? ==>
      |cache.freeList| == |old(cache.freeList)| - BlocksNeeded(old(cache.sequences)[seqs[i].handle].lastBlockFill,
                                                               |seqs[i].positions|) &&
      SequentialState(cache, m, css, seqs, r.value, i + 1)
  {
    hide Placed, BlocksNeeded, Outcome, Embed, DistinctHandles, Matched, PagedKvCacheManager.Slots,
      PagedKvCacheManager.Cached;
    var one := ForwardOne(cache, m, maxSeqLen, seqs, i);
    if one.Err? { return Err(one.error); }
    r := Ok(logits + [one.value]);
  }

  /**
   The same batch, one `forward_paged` call per sequence.  By `OutcomeUnique` the logits and the
   caches are those of `BatchedForward`.
   */
  method SequentialForward(cache: PagedKvCacheManager, m: Model, maxSeqLen: nat, seqs: seq<SequenceSlice>)
    returns (r: Result<seq<Row>>)
    requires cache.Valid() && 0 < |m.layers| == cache.numLayers && Matched(seqs) && DistinctHandles(seqs) &&
             Known(cache, seqs)
    modifies cache`freeList, cache`sequences, cache`places, cache.k, cache.v
    ensures OthersKept(cache, seqs)
    ensures r.Ok? <==> AllInRange(seqs, maxSeqLen) && old(BatchFits(cache, seqs))
    ensures r.Ok? ==>
      Known(cache, seqs) && BatchOutcome(m, old(AllCached(cache, seqs)), seqs, r.value, AllCached(cache, seqs))
  {
    hide Placed, BlocksNeeded, Outcome, Embed, OneInRange, PagedKvCacheManager.Slots, PagedKvCacheManager.Cached;
    ghost var css := AllCached(cache, seqs);
    var logits: seq<Row> := [];
    for i := 0 to |seqs|
      invariant OthersKept(cache, seqs) && SequentialState(cache, m, css, seqs, logits, i)
      invariant forall j :: 0 <= j < i ==> OneInRange(seqs[j], maxSeqLen)
      invariant forall j :: i <= j < |seqs| ==> cache.sequences[seqs[j].handle] == old(cache.sequences)[seqs[j].handle]
      invariant |cache.freeList| + TotalNeeded(old(cache.sequences), seqs, 0)
                  == |old(cache.freeList)| + TotalNeeded(old(cache.sequences), seqs, i)
    {
      var next := SequentialStep(cache, m, maxSeqLen, seqs, i, logits, css);
      if next.Err? { return Err(next.error); }
      logits := next.value;
    }
    r := Ok(logits);
  }
}
