/**
 Batches on the wire: the ids and the rows of several sequences travel in one list, and so do
 their logits.  Cutting the list again gives every sequence its own part back.
 */
module BatchWire {
  import opened Core
  import opened Transformer
  import opened Nodes
  import opened WorkerProtocol

  /** The parts of a batch: one per sequence, as long as its positions. */
  ghost predicate Parts<T>(metas: seq<SequenceMeta>, parts: seq<seq<T>>) {
    |parts| == |metas| && forall j :: 0 <= j < |metas| ==> |parts[j]| == |metas[j].positions|
  }

  ghost predicate DistinctSeqs(metas: seq<SequenceMeta>) {
    forall i, j :: 0 <= i < j < |metas| ==> metas[i].seqId != metas[j].seqId
  }

  ghost predicate SameCounts(metas: seq<SequenceMeta>) {
    forall j :: 0 <= j < |metas| ==> metas[j].numTokens == |metas[j].positions| > 0
  }

  lemma {:induction false} ConcatHead<T>(parts: seq<seq<T>>)
    requires parts != []
    ensures Concat(parts)[..|parts[0]|] == parts[0] && Concat(parts)[|parts[0]|..] == Concat(parts[1..])
  {
  }

  lemma {:induction false} PartsLength<T>(metas: seq<SequenceMeta>, parts: seq<seq<T>>)
    requires Parts(metas, parts)
    ensures |Concat(parts)| == TotalPositions(metas)
    decreases |metas|
  {
    if metas != [] { PartsLength(metas[1..], parts[1..]); }
  }

  lemma {:induction false} CountsAgree(metas: seq<SequenceMeta>)
    requires SameCounts(metas)
    ensures TotalTokens(metas) == TotalPositions(metas)
    decreases |metas|
  {
    if metas != [] { CountsAgree(metas[1..]); }
  }

  // ----- ids: the worker's split -----

  /** Consecutive pieces of the given lengths, as long as there are enough ids. */
  function SplitIds(ids: seq<nat>, metas: seq<SequenceMeta>): Option<seq<seq<nat>>>
    decreases |metas|
  {
    if metas == [] then Some([])
    else if |ids| < metas[0].numTokens then None
    else
      match SplitIds(ids[metas[0].numTokens..], metas[1..])
      case None => None
      case Some(rest) => Some([ids[..metas[0].numTokens]] + rest)
  }

  /** The split undoes the concatenation: every sequence gets its own ids. */
  lemma {:induction false} SplitUndoesConcat(metas: seq<SequenceMeta>, parts: seq<seq<nat>>)
    requires |parts| == |metas| && forall j :: 0 <= j < |metas| ==> |parts[j]| == metas[j].numTokens
    ensures SplitIds(Concat(parts), metas) == Some(parts)
    decreases |metas|
  {
    if metas != [] {
      ConcatHead(parts);
      SplitUndoesConcat(metas[1..], parts[1..]);
      assert parts == [parts[0]] + parts[1..];
    }
  }

  /** Put together again, the pieces are the ids that were asked for. */
  lemma {:induction false} SplitExact(ids: seq<nat>, metas: seq<SequenceMeta>)
    ensures SplitIds(ids, metas).Some? <==> TotalTokens(metas) <= |ids|
    ensures SplitIds(ids, metas).Some? ==> Concat(SplitIds(ids, metas).value) == ids[..TotalTokens(metas)]
    decreases |metas|
  {
    if metas != [] && metas[0].numTokens <= |ids| {
      var n := metas[0].numTokens;
      SplitExact(ids[n..], metas[1..]);
      if TotalTokens(metas) <= |ids| {
        assert ids[..TotalTokens(metas)] == ids[..n] + ids[n..][..TotalTokens(metas[1..])];
      }
    }
  }

  /** The loop of `handle_batched_forward` with its running offset. */
  method DistributeIds(ids: seq<nat>, metas: seq<SequenceMeta>) returns (r: Option<seq<seq<nat>>>)
    ensures r == SplitIds(ids, metas)
  {
    var offset := 0;
    var out: seq<seq<nat>> := [];
    assert ids[0..] == ids && metas[0..] == metas;
    ghost var all := SplitIds(ids, metas);
    if all.Some? { assert out + all.value == all.value; }
    for i := 0 to |metas|
      invariant offset <= |ids| && |out| == i
      invariant SplitIds(ids, metas) ==
        match SplitIds(ids[offset..], metas[i..]) case None => None case Some(rest) => Some(out + rest)
    {
      var n := metas[i].numTokens;
      assert metas[i..][0] == metas[i] && metas[i..][1..] == metas[i + 1..];
      if offset + n > |ids| { return None; }
      assert ids[offset..][..n] == ids[offset..offset + n] && ids[offset..][n..] == ids[offset + n..];
      ghost var rest := SplitIds(ids[offset + n..], metas[i + 1..]);
      if rest.Some? {
        assert out + ([ids[offset..offset + n]] + rest.value) == (out + [ids[offset..offset + n]]) + rest.value;
      }
      out := out + [ids[offset..offset + n]];
      offset := offset + n;
    }
    assert out + [] == out;
    r := Some(out);
  }

  lemma {:induction false} EmbedConcat(m: Model, parts: seq<seq<nat>>)
    ensures Embed(m, Concat(parts)) == Concat(seq(|parts|, j requires 0 <= j < |parts| => Embed(m, parts[j])))
  {
    var rows := seq(|parts|, j requires 0 <= j < |parts| => Embed(m, parts[j]));
    if parts != [] {
      EmbedConcat(m, parts[1..]);
      assert rows[1..] == seq(|parts| - 1, j requires 0 <= j < |parts| - 1 => Embed(m, parts[1..][j]));
      assert Embed(m, Concat(parts)) == Embed(m, parts[0]) + Embed(m, Concat(parts[1..]));
    }
  }

  // ----- rows: every sequence on its own cache -----

  ghost predicate AllShaped(ws: seq<Layer>, paged: map<SeqId, seq<KV>>) {
    forall s :: s in paged ==> |paged[s]| == |ws| && Paired(paged[s])
  }

  /** The step of each sequence on its own rows. */
  ghost function OwnSteps(o: Ops, ws: seq<Layer>, paged: map<SeqId, seq<KV>>, metas: seq<SequenceMeta>,
                          xss: seq<seq<Row>>): (steps: seq<NodeStep>)
    requires AllCached(paged, metas) && AllShaped(ws, paged) && Parts(metas, xss)
    ensures |steps| == |metas|
    ensures forall j :: 0 <= j < |metas| ==>
      |steps[j].hidden| == |metas[j].positions| && |steps[j].caches| == |ws| && Paired(steps[j].caches)
  {
    seq(|metas|, j requires 0 <= j < |metas| => NodeCached(o, ws, paged[metas[j].seqId], xss[j], metas[j].positions))
  }

  lemma {:induction false} StepsAreOwn(o: Ops, ws: seq<Layer>, paged: map<SeqId, seq<KV>>, metas: seq<SequenceMeta>,
                                       xss: seq<seq<Row>>)
    requires AllCached(paged, metas) && AllShaped(ws, paged) && Parts(metas, xss)
    ensures |Concat(xss)| == TotalPositions(metas)
    ensures Steps(o, ws, paged, metas, Concat(xss)) == OwnSteps(o, ws, paged, metas, xss)
    decreases |metas|
  {
    hide NodeCached;
    PartsLength(metas, xss);
    if metas != [] {
      ConcatHead(xss);
      assert forall i :: 0 <= i < |metas| - 1 ==> metas[1..][i].seqId in paged;
      StepsAreOwn(o, ws, paged, metas[1..], xss[1..]);
      var all := OwnSteps(o, ws, paged, metas, xss);
      assert all[1..] == OwnSteps(o, ws, paged, metas[1..], xss[1..]);
      assert all == [all[0]] + all[1..];
    }
  }

  function Hiddens(steps: seq<NodeStep>): (hs: seq<seq<Row>>)
    ensures |hs| == |steps|
  {
    seq(|steps|, j requires 0 <= j < |steps| => steps[j].hidden)
  }

  lemma {:induction false} HiddenIsConcat(steps: seq<NodeStep>)
    ensures HiddenRows(steps) == Concat(Hiddens(steps))
  {
    if steps != [] {
      HiddenIsConcat(steps[1..]);
      assert Hiddens(steps)[1..] == Hiddens(steps[1..]);
    }
  }

  lemma {:induction false} StoredOwn(paged: map<SeqId, seq<KV>>, metas: seq<SequenceMeta>, steps: seq<NodeStep>)
    requires |metas| == |steps| && DistinctSeqs(metas)
    ensures forall j :: 0 <= j < |metas| ==>
      metas[j].seqId in StoreAll(paged, metas, steps) &&
      StoreAll(paged, metas, steps)[metas[j].seqId] == steps[j].caches
    ensures forall t :: t in paged && (forall j :: 0 <= j < |metas| ==> metas[j].seqId != t) ==>
      t in StoreAll(paged, metas, steps) && StoreAll(paged, metas, steps)[t] == paged[t]
    decreases |metas|
  {
    if metas != [] {
      var s := metas[0].seqId;
      var paged' := paged[s := steps[0].caches];
      StoredOwn(paged', metas[1..], steps[1..]);
      assert forall j :: 0 <= j < |metas| - 1 ==> metas[1..][j].seqId != s;
      forall j | 0 <= j < |metas|
        ensures s in StoreAll(paged, metas, steps)
        ensures metas[j].seqId in StoreAll(paged, metas, steps) &&
                StoreAll(paged, metas, steps)[metas[j].seqId] == steps[j].caches
      {
        if j > 0 { assert metas[j] == metas[1..][j - 1] && steps[j] == steps[1..][j - 1]; }
      }
      forall t | t in paged && forall j :: 0 <= j < |metas| ==> metas[j].seqId != t
        ensures t in StoreAll(paged, metas, steps) && StoreAll(paged, metas, steps)[t] == paged[t]
      {
        assert metas[0].seqId != t;
        assert forall j :: 0 <= j < |metas| - 1 ==> metas[1..][j].seqId != t;
      }
    }
  }

  // ----- logits: flattened by the tail, split by the coordinator -----

  /** Logits of the last row of each part. */
  ghost function LastLogits(m: Model, xss: seq<seq<Row>>): (logits: seq<Row>)
    requires forall j :: 0 <= j < |xss| ==> xss[j] != []
    ensures |logits| == |xss|
  {
    seq(|xss|, j requires 0 <= j < |xss| => Logits(m, xss[j][|xss[j]| - 1]))
  }

  lemma {:induction false} FlatIsConcat(m: Model, metas: seq<SequenceMeta>, before: seq<Row>, xss: seq<seq<Row>>)
    requires Parts(metas, xss) && forall j :: 0 <= j < |xss| ==> xss[j] != []
    ensures |before| + TotalPositions(metas) <= |before + Concat(xss)|
    ensures FlatLogits(m, metas, before + Concat(xss), |before|) == Concat(LastLogits(m, xss))
    decreases |metas|
  {
    hide Logits;
    PartsLength(metas, xss);
    if metas != [] {
      var rows := before + Concat(xss);
      ConcatHead(xss);
      assert before + xss[0] + Concat(xss[1..]) == rows;
      FlatIsConcat(m, metas[1..], before + xss[0], xss[1..]);
      assert LastLogits(m, xss)[1..] == LastLogits(m, xss[1..]);
      assert rows[|before| + |xss[0]| - 1] == xss[0][|xss[0]| - 1];
    }
  }

  /** n consecutive pieces of `size` numbers. */
  function PiecesOf(flat: Row, size: nat, n: nat): (parts: seq<Row>)
    requires n * size <= |flat|
    ensures |parts| == n
    decreases n
  {
    if n == 0 then []
    else
      assert n * size == size + (n - 1) * size;
      [flat[..size]] + PiecesOf(flat[size..], size, n - 1)
  }

  lemma {:induction false} QuotientFits(total: nat, n: nat)
    requires n > 0
    ensures n * (total / n) <= total < n * (total / n) + n
  {
  }

  /** `split_logits_per_sequence`: equal pieces, as long as they come out even. */
  function SplitLogits(flat: Row, n: nat): (parts: seq<Row>)
    ensures |parts| == n
  {
    if n == 0 then []
    else
      QuotientFits(|flat|, n);
      PiecesOf(flat, |flat| / n, n)
  }

  ghost predicate AllLong(parts: seq<Row>, v: nat) {
    forall j :: 0 <= j < |parts| ==> |parts[j]| == v
  }

  lemma {:induction false} PiecesUndoConcat(parts: seq<Row>, v: nat)
    requires AllLong(parts, v)
    ensures |Concat(parts)| == |parts| * v
    ensures PiecesOf(Concat(parts), v, |parts|) == parts
  {
    if parts != [] {
      ConcatHead(parts);
      PiecesUndoConcat(parts[1..], v);
      assert |parts| * v == v + (|parts| - 1) * v;
      assert parts == [parts[0]] + parts[1..];
    }
  }

  /** The split undoes the flattening when all logits are as long as the vocabulary. */
  lemma {:induction false} SplitUndoesFlatten(parts: seq<Row>, v: nat)
    requires AllLong(parts, v)
    ensures SplitLogits(Concat(parts), |parts|) == parts
  {
    PiecesUndoConcat(parts, v);
    if parts != [] { Divides(|parts|, v); }
  }

  lemma {:induction false} Divides(n: nat, v: nat)
    requires n > 0
    ensures n * v / n == v
  {
    var q := n * v / n;
    QuotientFits(n * v, n);
    if q < v {
      Multiples(n, q, v);
      assert false;
    } else if v < q {
      Multiples(n, v, q);
      assert false;
    }
  }

  lemma {:induction false} Multiples(n: nat, a: nat, b: nat)
    requires a < b
    ensures n * a + n <= n * b
  {
    assert n * a + n == n * (a + 1) <= n * b;
  }
}
