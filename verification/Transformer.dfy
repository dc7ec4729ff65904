/**
 The meaning of one transformer forward pass, in two forms.

 The simple form, `Reference`, has no cache: every layer is recomputed for the whole
 sequence, and row i attends to rows 0..i.  The fast form, `NodeCached`, is what the engine
 runs: it is given only the new rows, appends their keys and values to a cache, and attends
 to the cached prefix.

 The backend operations are parameters.  All that is used of them is that they act row by
 row, and that attention for one row sees a prefix of the cached keys and values.
 */
module Transformer {

  type Row = seq<real>

  /** Weight-free backend operations, one row at a time. */
  datatype Ops = Ops(
    ropeQ: (Row, nat) -> Row,
    ropeK: (Row, nat) -> Row,
    attend: (Row, seq<Row>, seq<Row>) -> Row,
    siluMul: (Row, Row) -> Row,
    add: (Row, Row) -> Row)

  /** The weights of one layer, each as the row map the backend computes with it. */
  datatype Layer = Layer(
    attnNorm: Row -> Row,
    qProj: Row -> Row,
    kProj: Row -> Row,
    vProj: Row -> Row,
    oProj: Row -> Row,
    ffnNorm: Row -> Row,
    gateProj: Row -> Row,
    upProj: Row -> Row,
    downProj: Row -> Row)

  datatype Model = Model(
    ops: Ops,
    embedding: nat -> Row,
    layers: seq<Layer>,
    outputNorm: Row -> Row,
    lmHead: Row -> Row)

  /** Cached keys and values of one layer, oldest row first. */
  datatype KV = KV(k: seq<Row>, v: seq<Row>)

  datatype NodeStep = NodeStep(hidden: seq<Row>, caches: seq<KV>)

  const EMPTY_KV := KV([], [])

  // ----- one row -----

  function Query(o: Ops, w: Layer, x: Row, p: nat): Row {
    o.ropeQ(w.qProj(w.attnNorm(x)), p)
  }

  function Key(o: Ops, w: Layer, x: Row, p: nat): Row {
    o.ropeK(w.kProj(w.attnNorm(x)), p)
  }

  function Value(w: Layer, x: Row): Row {
    w.vProj(w.attnNorm(x))
  }

  /** Output projection, both residual connections and the SwiGLU block. */
  function Residual(o: Ops, w: Layer, x: Row, attn: Row): Row {
    var h := o.add(x, w.oProj(attn));
    var n := w.ffnNorm(h);
    o.add(h, w.downProj(o.siluMul(w.gateProj(n), w.upProj(n))))
  }

  function Logits(m: Model, x: Row): Row {
    m.lmHead(m.outputNorm(x))
  }

  // ----- many rows -----

  function Keys(o: Ops, w: Layer, xs: seq<Row>, ps: seq<nat>): (ks: seq<Row>)
    requires |xs| == |ps|
    ensures |ks| == |xs|
  {
    seq(|xs|, i requires 0 <= i < |xs| => Key(o, w, xs[i], ps[i]))
  }

  function Values(w: Layer, xs: seq<Row>): (vs: seq<Row>)
    ensures |vs| == |xs|
  {
    seq(|xs|, i requires 0 <= i < |xs| => Value(w, xs[i]))
  }

  function Embed(m: Model, ids: seq<nat>): (xs: seq<Row>)
    ensures |xs| == |ids|
  {
    seq(|ids|, i requires 0 <= i < |ids| => m.embedding(ids[i]))
  }

  /** Positions start, start + 1, ..., start + n - 1. */
  function Positions(start: nat, n: nat): (ps: seq<nat>)
    ensures |ps| == n
  {
    seq(n, i requires 0 <= i < n => start + i)
  }

  // ----- the simple form -----

  function LayerReference(o: Ops, w: Layer, xs: seq<Row>, ps: seq<nat>): (ys: seq<Row>)
    requires |xs| == |ps|
    ensures |ys| == |xs|
  {
    seq(|xs|, i requires 0 <= i < |xs| =>
      Residual(o, w, xs[i],
               o.attend(Query(o, w, xs[i], ps[i]),
                        Keys(o, w, xs[..i + 1], ps[..i + 1]),
                        Values(w, xs[..i + 1]))))
  }

  function Reference(o: Ops, ws: seq<Layer>, xs: seq<Row>, ps: seq<nat>): (ys: seq<Row>)
    requires |xs| == |ps|
    ensures |ys| == |xs|
  {
    if ws == [] then xs else Reference(o, ws[1..], LayerReference(o, ws[0], xs, ps), ps)
  }

  /** Logits of the last token when the whole sequence is run from nothing. */
  function ReferenceLogits(m: Model, ids: seq<nat>): Row
    requires ids != []
  {
    var ys := Reference(m.ops, m.layers, Embed(m, ids), Positions(0, |ids|));
    Logits(m, ys[|ids| - 1])
  }

  // ----- the simple form, operation by operation -----

  /** All intermediate rows: `hidden[l]` enters layer l, `keys[l]` and `values[l]` are what it attends to. */
  datatype Trace = Trace(hidden: seq<seq<Row>>, keys: seq<seq<Row>>, values: seq<seq<Row>>)

  ghost predicate TraceShaped(m: Model, ids: seq<nat>, t: Trace) {
    |t.hidden| == |m.layers| + 1 && |t.keys| == |t.values| == |m.layers| &&
    (forall l :: 0 <= l <= |m.layers| ==> |t.hidden[l]| == |ids|) &&
    (forall l :: 0 <= l < |m.layers| ==> |t.keys[l]| == |t.values[l]| == |ids|)
  }

  /** Row i of layer l: normalize, project, rotate by the position, attend, add twice. */
  ghost predicate RowTraced(m: Model, ids: seq<nat>, t: Trace, l: nat, i: nat)
    requires TraceShaped(m, ids, t) && l < |m.layers| && i < |ids|
  {
    var w, o, x, l' := m.layers[l], m.ops, t.hidden[l][i], l + 1;
    var n := w.attnNorm(x);
    var h := o.add(x, w.oProj(o.attend(o.ropeQ(w.qProj(n), i), t.keys[l][..i + 1], t.values[l][..i + 1])));
    t.keys[l][i] == o.ropeK(w.kProj(n), i) && t.values[l][i] == w.vProj(n) &&
    t.hidden[l'][i] ==
      o.add(h, w.downProj(o.siluMul(w.gateProj(w.ffnNorm(h)), w.upProj(w.ffnNorm(h)))))
  }

  ghost predicate LayerTraced(m: Model, ids: seq<nat>, t: Trace, l: nat)
    requires TraceShaped(m, ids, t) && l < |m.layers|
  {
    forall i :: 0 <= i < |ids| ==> RowTraced(m, ids, t, l, i)
  }

  ghost predicate Traced(m: Model, ids: seq<nat>, t: Trace) {
    TraceShaped(m, ids, t) &&
    (forall i :: 0 <= i < |ids| ==> t.hidden[0][i] == m.embedding(ids[i])) &&
    forall l :: 0 <= l < |m.layers| ==> LayerTraced(m, ids, t, l)
  }

  lemma {:induction false} PrefixKeys(o: Ops, w: Layer, xs: seq<Row>, ps: seq<nat>, n: nat)
    requires n <= |xs| == |ps|
    ensures Keys(o, w, xs, ps)[..n] == Keys(o, w, xs[..n], ps[..n]) && Values(w, xs)[..n] == Values(w, xs[..n])
  {
    hide Key, Value;
  }

  /** Row i of the reference, by what the whole sequence has for keys and values. */
  lemma {:induction false} RowOfLayer(o: Ops, w: Layer, xs: seq<Row>, n: nat, i: nat)
    requires i < n == |xs|
    ensures LayerReference(o, w, xs, Positions(0, n))[i]
         == Residual(o, w, xs[i], o.attend(Query(o, w, xs[i], i), Keys(o, w, xs, Positions(0, n))[..i + 1],
                                           Values(w, xs)[..i + 1]))
  {
    hide Residual, Query, Keys, Values;
    var ps := Positions(0, n);
    PrefixKeys(o, w, xs, ps, i + 1);
    assert ps[i] == i;
  }

  lemma {:induction false} KeysOfTrace(m: Model, ids: seq<nat>, t: Trace, l: nat)
    requires TraceShaped(m, ids, t) && l < |m.layers| && LayerTraced(m, ids, t, l)
    ensures t.keys[l] == Keys(m.ops, m.layers[l], t.hidden[l], Positions(0, |ids|))
    ensures t.values[l] == Values(m.layers[l], t.hidden[l])
  {
    var ks, vs := Keys(m.ops, m.layers[l], t.hidden[l], Positions(0, |ids|)), Values(m.layers[l], t.hidden[l]);
    forall i | 0 <= i < |ids|
      ensures t.keys[l][i] == ks[i] && t.values[l][i] == vs[i]
    {
      assert RowTraced(m, ids, t, l, i);
    }
  }

  lemma {:induction false} LayerOfTrace(m: Model, ids: seq<nat>, t: Trace, l: nat)
    requires TraceShaped(m, ids, t) && l < |m.layers| && LayerTraced(m, ids, t, l)
    ensures t.hidden[l + 1] == LayerReference(m.ops, m.layers[l], t.hidden[l], Positions(0, |ids|))
  {
    var w, o, ps := m.layers[l], m.ops, Positions(0, |ids|);
    hide LayerReference, Keys, Values, Positions, LayerTraced;
    var ys := LayerReference(o, w, t.hidden[l], ps);
    KeysOfTrace(m, ids, t, l);
    TracedAt(m, ids, t, l);
    forall i | 0 <= i < |ids|
      ensures t.hidden[l + 1][i] == ys[i]
    {
      assert RowTraced(m, ids, t, l, i);
      RowOfLayer(o, w, t.hidden[l], |ids|, i);
    }
  }

  lemma {:induction false} TracedAt(m: Model, ids: seq<nat>, t: Trace, l: nat)
    requires TraceShaped(m, ids, t) && l < |m.layers| && LayerTraced(m, ids, t, l)
    ensures forall i :: 0 <= i < |ids| ==> RowTraced(m, ids, t, l, i)
  {
    hide RowTraced;
  }

  lemma {:induction false} TraceFrom(m: Model, ids: seq<nat>, t: Trace, l: nat)
    requires Traced(m, ids, t) && l <= |m.layers|
    ensures Reference(m.ops, m.layers[l..], t.hidden[l], Positions(0, |ids|)) == t.hidden[|m.layers|]
    decreases |m.layers| - l
  {
    if l < |m.layers| {
      LayerOfTrace(m, ids, t, l);
      TraceFrom(m, ids, t, l + 1);
      assert m.layers[l..][1..] == m.layers[l + 1..];
    }
  }

  /** The reference logits are those of the one trace of the ids: the last row of the last layer. */
  lemma {:induction false} ReferenceIsTrace(m: Model, ids: seq<nat>, t: Trace)
    requires Traced(m, ids, t) && ids != []
    ensures ReferenceLogits(m, ids) == m.lmHead(m.outputNorm(t.hidden[|m.layers|][|ids| - 1]))
  {
    TraceFrom(m, ids, t, 0);
    assert t.hidden[0] == Embed(m, ids);
    assert m.layers[0..] == m.layers;
  }

  function HiddenAt(m: Model, ids: seq<nat>, l: nat): (xs: seq<Row>)
    requires l <= |m.layers|
    ensures |xs| == |ids|
  {
    if l == 0 then Embed(m, ids)
    else LayerReference(m.ops, m.layers[l - 1], HiddenAt(m, ids, l - 1), Positions(0, |ids|))
  }

  function TraceOf(m: Model, ids: seq<nat>): Trace {
    var L := |m.layers|;
    Trace(seq(L + 1, l requires 0 <= l < L + 1 => HiddenAt(m, ids, l)),
          seq(L, l requires 0 <= l < L => Keys(m.ops, m.layers[l], HiddenAt(m, ids, l), Positions(0, |ids|))),
          seq(L, l requires 0 <= l < L => Values(m.layers[l], HiddenAt(m, ids, l))))
  }

  lemma {:induction false} RowByParts(m: Model, ids: seq<nat>, t: Trace, l: nat, i: nat)
    requires TraceShaped(m, ids, t) && l < |m.layers| && i < |ids|
    requires t.keys[l][i] == Key(m.ops, m.layers[l], t.hidden[l][i], i)
    requires t.values[l][i] == Value(m.layers[l], t.hidden[l][i])
    requires t.hidden[l + 1][i]
          == Residual(m.ops, m.layers[l], t.hidden[l][i],
                      m.ops.attend(Query(m.ops, m.layers[l], t.hidden[l][i], i), t.keys[l][..i + 1],
                                   t.values[l][..i + 1]))
    ensures RowTraced(m, ids, t, l, i)
  {
  }

  lemma {:induction false} LayerOf(m: Model, ids: seq<nat>, l: nat)
    requires l < |m.layers|
    ensures var t, xs, ps := TraceOf(m, ids), HiddenAt(m, ids, l), Positions(0, |ids|);
            TraceShaped(m, ids, t) && t.hidden[l] == xs &&
            t.hidden[l + 1] == LayerReference(m.ops, m.layers[l], xs, ps) &&
            t.keys[l] == Keys(m.ops, m.layers[l], xs, ps) && t.values[l] == Values(m.layers[l], xs)
  {
    hide Keys, Values, LayerReference, Embed, Positions;
  }

  lemma {:induction false} RowOfTrace(m: Model, ids: seq<nat>, l: nat, i: nat)
    requires l < |m.layers| && i < |ids|
    ensures TraceShaped(m, ids, TraceOf(m, ids)) && RowTraced(m, ids, TraceOf(m, ids), l, i)
  {
    hide Key, Value, Query, Residual, LayerReference, HiddenAt, TraceOf, RowTraced;
    var w, o, ps, t := m.layers[l], m.ops, Positions(0, |ids|), TraceOf(m, ids);
    var xs := HiddenAt(m, ids, l);
    LayerOf(m, ids, l);
    assert ps[i] == i && Keys(o, w, xs, ps)[i] == Key(o, w, xs[i], i) && Values(w, xs)[i] == Value(w, xs[i]);
    RowOfLayer(o, w, xs, |ids|, i);
    RowByParts(m, ids, t, l, i);
  }

  /** Every sequence of ids has a trace. */
  lemma {:induction false} HasTrace(m: Model, ids: seq<nat>)
    ensures Traced(m, ids, TraceOf(m, ids))
  {
    var t := TraceOf(m, ids);
    assert t.hidden[0] == Embed(m, ids);
    forall l | 0 <= l < |m.layers|
      ensures LayerTraced(m, ids, t, l)
    {
      forall i | 0 <= i < |ids|
        ensures RowTraced(m, ids, t, l, i)
      {
        RowOfTrace(m, ids, l, i);
      }
    }
  }

  /** The keys and values a cache must hold once `xs` has gone through the layers `ws`. */
  function CachesOf(o: Ops, ws: seq<Layer>, xs: seq<Row>, ps: seq<nat>): (cs: seq<KV>)
    requires |xs| == |ps|
    ensures |cs| == |ws|
    ensures Paired(cs) && CachesHold(cs, |xs|)
  {
    if ws == [] then []
    else
      [KV(Keys(o, ws[0], xs, ps), Values(ws[0], xs))]
      + CachesOf(o, ws[1..], LayerReference(o, ws[0], xs, ps), ps)
  }

  // ----- the fast form -----

  /** Every layer caches as many values as keys. */
  predicate Paired(cs: seq<KV>) {
    forall l :: 0 <= l < |cs| ==> |cs[l].k| == |cs[l].v|
  }

  /** Every layer caches exactly `len` rows of keys and of values. */
  predicate CachesHold(cs: seq<KV>, len: nat) {
    forall l :: 0 <= l < |cs| ==> |cs[l].k| == len && |cs[l].v| == len
  }

  function Extend(o: Ops, w: Layer, c: KV, xs: seq<Row>, ps: seq<nat>): KV
    requires |xs| == |ps|
  {
    KV(c.k + Keys(o, w, xs, ps), c.v + Values(w, xs))
  }

  function LayerCached(o: Ops, w: Layer, c: KV, xs: seq<Row>, ps: seq<nat>): (ys: seq<Row>)
    requires |xs| == |ps|
    requires |c.k| == |c.v|
    ensures |ys| == |xs|
  {
    var c' := Extend(o, w, c, xs, ps);
    seq(|xs|, i requires 0 <= i < |xs| =>
      Residual(o, w, xs[i],
               o.attend(Query(o, w, xs[i], ps[i]),
                        c'.k[..|c.k| + i + 1],
                        c'.v[..|c.k| + i + 1])))
  }

  /** Run new rows through consecutive layers, each with its own cache. */
  function NodeCached(o: Ops, ws: seq<Layer>, cs: seq<KV>, xs: seq<Row>, ps: seq<nat>): (r: NodeStep)
    requires |xs| == |ps|
    requires |ws| == |cs|
    requires Paired(cs)
    ensures |r.hidden| == |xs|
    ensures |r.caches| == |cs| && Paired(r.caches)
  {
    if ws == [] then NodeStep(xs, [])
    else
      var rest := NodeCached(o, ws[1..], cs[1..], LayerCached(o, ws[0], cs[0], xs, ps), ps);
      NodeStep(rest.hidden, [Extend(o, ws[0], cs[0], xs, ps)] + rest.caches)
  }

  /** A call leaves every layer with as many rows as before plus the new ones. */
  lemma {:induction false} CachesGrow(o: Ops, ws: seq<Layer>, cs: seq<KV>, xs: seq<Row>, ps: seq<nat>, n: nat)
    requires |xs| == |ps| && |ws| == |cs|
    requires Paired(cs) && CachesHold(cs, n)
    ensures CachesHold(NodeCached(o, ws, cs, xs, ps).caches, n + |xs|)
    decreases |ws|
  {
    if ws != [] {
      CachesGrow(o, ws[1..], cs[1..], LayerCached(o, ws[0], cs[0], xs, ps), ps, n);
    }
  }

  /** Several consecutive calls, one per chunk of rows. */
  datatype Chunk = Chunk(rows: seq<Row>, positions: seq<nat>)

  predicate WellFormedChunks(chunks: seq<Chunk>) {
    forall i :: 0 <= i < |chunks| ==> |chunks[i].rows| == |chunks[i].positions|
  }

  function AllRows(chunks: seq<Chunk>): seq<Row> {
    if chunks == [] then [] else chunks[0].rows + AllRows(chunks[1..])
  }

  function AllPositions(chunks: seq<Chunk>): seq<nat> {
    if chunks == [] then [] else chunks[0].positions + AllPositions(chunks[1..])
  }

  /** Outputs of all calls one after the other, and the caches the last call leaves. */
  function RunChunks(o: Ops, ws: seq<Layer>, cs: seq<KV>, chunks: seq<Chunk>): NodeStep
    requires WellFormedChunks(chunks)
    requires |ws| == |cs|
    requires Paired(cs)
    decreases |chunks|
  {
    if chunks == [] then NodeStep([], cs)
    else
      var first := NodeCached(o, ws, cs, chunks[0].rows, chunks[0].positions);
      var rest := RunChunks(o, ws, first.caches, chunks[1..]);
      NodeStep(first.hidden + rest.hidden, rest.caches)
  }

  // ----- the fast form computes the simple form -----

  /** A row of the reference does not depend on later rows. */
  lemma {:induction false} LayerCausal(o: Ops, w: Layer, xs: seq<Row>, ps: seq<nat>, ys: seq<Row>, qs: seq<nat>)
    requires |xs| == |ps| && |ys| == |qs|
    ensures LayerReference(o, w, xs + ys, ps + qs)[..|xs|] == LayerReference(o, w, xs, ps)
  {
    var all := LayerReference(o, w, xs + ys, ps + qs);
    var alone := LayerReference(o, w, xs, ps);
    forall i | 0 <= i < |xs|
      ensures all[i] == alone[i]
    {
      assert (xs + ys)[..i + 1] == xs[..i + 1];
      assert (ps + qs)[..i + 1] == ps[..i + 1];
    }
  }

  lemma {:induction false} KeysAppend(o: Ops, w: Layer, xs: seq<Row>, ps: seq<nat>, ys: seq<Row>, qs: seq<nat>)
    requires |xs| == |ps| && |ys| == |qs|
    ensures Keys(o, w, xs + ys, ps + qs) == Keys(o, w, xs, ps) + Keys(o, w, ys, qs)
    ensures Values(w, xs + ys) == Values(w, xs) + Values(w, ys)
  {
  }

  /** One layer: the cached form gives the new rows of the reference. */
  lemma {:induction false} LayerIncremental(o: Ops, w: Layer, xs: seq<Row>, ps: seq<nat>, ys: seq<Row>, qs: seq<nat>)
    requires |xs| == |ps| && |ys| == |qs|
    ensures LayerCached(o, w, KV(Keys(o, w, xs, ps), Values(w, xs)), ys, qs)
         == LayerReference(o, w, xs + ys, ps + qs)[|xs|..]
  {
    var c := KV(Keys(o, w, xs, ps), Values(w, xs));
    var c' := Extend(o, w, c, ys, qs);
    var fast := LayerCached(o, w, c, ys, qs);
    var slow := LayerReference(o, w, xs + ys, ps + qs);
    forall i | 0 <= i < |ys|
      ensures fast[i] == slow[|xs| + i]
    {
      var n := |xs| + i + 1;
      assert c'.k[..n] == Keys(o, w, (xs + ys)[..n], (ps + qs)[..n]);
      assert c'.v[..n] == Values(w, (xs + ys)[..n]);
    }
  }

  /**
   Incremental step.  If the caches hold what the reference says for the rows seen so far,
   one cached call on new rows returns the reference's rows for them and leaves the caches
   the reference says for all rows.
   */
  lemma {:induction false} NodeIncremental(o: Ops, ws: seq<Layer>, xs: seq<Row>, ps: seq<nat>, ys: seq<Row>,
                                           qs: seq<nat>)
    requires |xs| == |ps| && |ys| == |qs|
    ensures NodeCached(o, ws, CachesOf(o, ws, xs, ps), ys, qs)
         == ReferenceStep(o, ws, |xs|, xs + ys, ps + qs)
    decreases |ws|
  {
    if ws == [] {
      assert (xs + ys)[|xs|..] == ys;
    } else {
      var w := ws[0];
      var c := KV(Keys(o, w, xs, ps), Values(w, xs));
      var cs := CachesOf(o, ws, xs, ps);
      var xs' := LayerReference(o, w, xs, ps);
      var ys' := LayerCached(o, w, c, ys, qs);
      assert cs[0] == c && cs[1..] == CachesOf(o, ws[1..], xs', ps);
      LayerIncremental(o, w, xs, ps, ys, qs);
      LayerCausal(o, w, xs, ps, ys, qs);
      assert xs' + ys' == LayerReference(o, w, xs + ys, ps + qs);
      KeysAppend(o, w, xs, ps, ys, qs);
      NodeIncremental(o, ws[1..], xs', ps, ys', qs);
    }
  }

  /** The reference on a prefix of the rows is a prefix of the reference. */
  lemma {:induction false} ReferenceCausal(o: Ops, ws: seq<Layer>, xs: seq<Row>, ps: seq<nat>, ys: seq<Row>,
                                           qs: seq<nat>)
    requires |xs| == |ps| && |ys| == |qs|
    ensures Reference(o, ws, xs + ys, ps + qs)[..|xs|] == Reference(o, ws, xs, ps)
    decreases |ws|
  {
    if ws == [] {
      assert (xs + ys)[..|xs|] == xs;
    } else {
      LayerCausal(o, ws[0], xs, ps, ys, qs);
      var all := LayerReference(o, ws[0], xs + ys, ps + qs);
      var xs' := LayerReference(o, ws[0], xs, ps);
      var ys' := all[|xs|..];
      assert xs' + ys' == all;
      ReferenceCausal(o, ws[1..], xs', ps, ys', qs);
    }
  }

  lemma {:induction false} EmptyCaches(o: Ops, ws: seq<Layer>)
    ensures CachesOf(o, ws, [], []) == seq(|ws|, _ => EMPTY_KV)
    decreases |ws|
  {
    if ws != [] {
      assert LayerReference(o, ws[0], [], []) == [];
      EmptyCaches(o, ws[1..]);
      assert CachesOf(o, ws, [], [])[0] == EMPTY_KV;
      assert CachesOf(o, ws, [], []) == [EMPTY_KV] + CachesOf(o, ws[1..], [], []);
    }
  }

  lemma {:induction false} ChunkLengths(chunks: seq<Chunk>)
    requires WellFormedChunks(chunks)
    ensures |AllRows(chunks)| == |AllPositions(chunks)|
  {
    if chunks != [] {
      ChunkLengths(chunks[1..]);
    }
  }

  /** What the reference says of the rows from `n` on, and of the caches after all rows. */
  function ReferenceStep(o: Ops, ws: seq<Layer>, n: nat, xs: seq<Row>, ps: seq<nat>): NodeStep
    requires n <= |xs| == |ps|
  {
    NodeStep(Reference(o, ws, xs, ps)[n..], CachesOf(o, ws, xs, ps))
  }

  /** Two steps of the reference join into one. */
  lemma {:induction false} StepsJoin(o: Ops, ws: seq<Layer>, n: nat, us: seq<Row>, rs: seq<nat>, ys: seq<Row>,
                                     qs: seq<nat>)
    requires n <= |us| == |rs| && |ys| == |qs|
    ensures var first := ReferenceStep(o, ws, n, us, rs);
            var rest := ReferenceStep(o, ws, |us|, us + ys, rs + qs);
            NodeStep(first.hidden + rest.hidden, rest.caches) == ReferenceStep(o, ws, n, us + ys, rs + qs)
  {
    var whole := Reference(o, ws, us + ys, rs + qs);
    ReferenceCausal(o, ws, us, rs, ys, qs);
    assert whole[..|us|][n..] + whole[|us|..] == whole[n..];
  }

  lemma {:induction false} Associative<T>(a: seq<T>, b: seq<T>, c: seq<T>)
    ensures (a + b) + c == a + (b + c)
  {
  }

  lemma {:induction false} ChunksFrom(o: Ops, ws: seq<Layer>, xs: seq<Row>, ps: seq<nat>, chunks: seq<Chunk>)
    requires |xs| == |ps|
    requires WellFormedChunks(chunks)
    requires |AllRows(chunks)| == |AllPositions(chunks)|
    ensures RunChunks(o, ws, CachesOf(o, ws, xs, ps), chunks)
         == ReferenceStep(o, ws, |xs|, xs + AllRows(chunks), ps + AllPositions(chunks))
    decreases |chunks|
  {
    if chunks == [] {
      assert xs + AllRows(chunks) == xs && ps + AllPositions(chunks) == ps;
      assert Reference(o, ws, xs, ps)[|xs|..] == [];
    } else {
      var c, rest := chunks[0], chunks[1..];
      var us, rs := xs + c.rows, ps + c.positions;
      ChunkLengths(rest);
      ChunksFrom(o, ws, us, rs, rest);
      NodeIncremental(o, ws, xs, ps, c.rows, c.positions);
      StepsJoin(o, ws, |xs|, us, rs, AllRows(rest), AllPositions(rest));
      Associative(xs, c.rows, AllRows(rest));
      Associative(ps, c.positions, AllPositions(rest));
    }
  }

  /**
   Chunk invariance.  However a sequence is cut into consecutive calls, the rows that come
   out and the caches left behind are those of one call on the whole sequence.
   */
  lemma {:induction false} ChunkInvariance(o: Ops, ws: seq<Layer>, chunks: seq<Chunk>)
    requires WellFormedChunks(chunks)
    ensures |AllRows(chunks)| == |AllPositions(chunks)|
    ensures var empty := seq(|ws|, _ => EMPTY_KV);
            RunChunks(o, ws, empty, chunks) == NodeCached(o, ws, empty, AllRows(chunks), AllPositions(chunks))
    ensures RunChunks(o, ws, seq(|ws|, _ => EMPTY_KV), chunks).hidden
         == Reference(o, ws, AllRows(chunks), AllPositions(chunks))
  {
    hide NodeCached, Reference, CachesOf, RunChunks, AllRows, AllPositions;
    EmptyCaches(o, ws);
    ChunkLengths(chunks);
    ChunksFrom(o, ws, [], [], chunks);
    NodeIncremental(o, ws, [], [], AllRows(chunks), AllPositions(chunks));
    assert [] + AllRows(chunks) == AllRows(chunks);
    assert [] + AllPositions(chunks) == AllPositions(chunks);
  }

  // ----- on token ids, with the whole model -----

  /** The cached rows are those of `ids` at positions 0, 1, 2, ... */
  ghost predicate HeldFor(m: Model, cs: seq<KV>, ids: seq<nat>) {
    cs == CachesOf(m.ops, m.layers, Embed(m, ids), Positions(0, |ids|))
  }

  lemma {:induction false} HeldPaired(m: Model, cs: seq<KV>, ids: seq<nat>)
    requires HeldFor(m, cs, ids)
    ensures |cs| == |m.layers| && Paired(cs) && CachesHold(cs, |ids|)
  {
  }

  lemma {:induction false} NothingHeld(m: Model, cs: seq<KV>)
    requires |cs| == |m.layers| && CachesHold(cs, 0)
    ensures HeldFor(m, cs, [])
  {
    EmptyCaches(m.ops, m.layers);
    assert forall l :: 0 <= l < |cs| ==> cs[l] == EMPTY_KV;
    assert Embed(m, []) == [] && Positions(0, 0) == [];
    assert cs == seq(|m.layers|, _ => EMPTY_KV);
  }

  /** One step on further ids gives the reference logits for everything so far, and the cache keeps up. */
  lemma {:induction false} StepIsReference(m: Model, seen: seq<nat>, ids: seq<nat>, cs: seq<KV>)
    requires ids != [] && HeldFor(m, cs, seen)
    ensures |cs| == |m.layers| && Paired(cs)
    ensures var step := NodeCached(m.ops, m.layers, cs, Embed(m, ids), Positions(|seen|, |ids|));
            HeldFor(m, step.caches, seen + ids) && Logits(m, step.hidden[|ids| - 1]) == ReferenceLogits(m, seen + ids)
  {
    hide NodeCached, Reference, CachesOf;
    var xs, ps := Embed(m, seen), Positions(0, |seen|);
    var ys, qs := Embed(m, ids), Positions(|seen|, |ids|);
    HeldPaired(m, cs, seen);
    NodeIncremental(m.ops, m.layers, xs, ps, ys, qs);
    assert xs + ys == Embed(m, seen + ids);
    assert ps + qs == Positions(0, |seen + ids|);
  }

  // ----- splitting the layers -----

  /** Two nodes that hold consecutive layers do what one node holding both does. */
  lemma {:induction false} NodeSplit(o: Ops, ws: seq<Layer>, us: seq<Layer>, cs: seq<KV>, ds: seq<KV>, xs: seq<Row>,
                                     ps: seq<nat>)
    requires |xs| == |ps|
    requires |ws| == |cs| && |us| == |ds|
    requires Paired(cs) && Paired(ds)
    ensures var first := NodeCached(o, ws, cs, xs, ps);
            var second := NodeCached(o, us, ds, first.hidden, ps);
            NodeCached(o, ws + us, cs + ds, xs, ps) == NodeStep(second.hidden, first.caches + second.caches)
    decreases |ws|
  {
    if ws == [] {
      assert ws + us == us && cs + ds == ds;
      assert NodeCached(o, ws, cs, xs, ps).caches == [];
    } else {
      var ys := LayerCached(o, ws[0], cs[0], xs, ps);
      assert (ws + us)[0] == ws[0] && (ws + us)[1..] == ws[1..] + us;
      assert (cs + ds)[0] == cs[0] && (cs + ds)[1..] == cs[1..] + ds;
      NodeSplit(o, ws[1..], us, cs[1..], ds, ys, ps);
      var first := NodeCached(o, ws, cs, xs, ps);
      var second := NodeCached(o, us, ds, first.hidden, ps);
      var tail := NodeCached(o, ws[1..], cs[1..], ys, ps);
      assert first.caches + second.caches
          == [Extend(o, ws[0], cs[0], xs, ps)] + (tail.caches + second.caches);
    }
  }

  // ----- running the layers one after the other over stored rows -----

  /** `full` starts with the rows of `part`. */
  ghost predicate Starts(full: KV, part: KV) {
    part.k <= full.k && part.v <= full.v
  }

  /** What is stored for layers lo..hi starts with the corresponding entries of `cs`. */
  ghost predicate StartsFrom(snap: seq<KV>, cs: seq<KV>, lo: nat, hi: nat) {
    hi <= |cs| && hi <= |snap| && forall l :: lo <= l < hi ==> Starts(snap[l], cs[l])
  }

  /** One layer written: it moves from the part still to be done to the part done. */
  lemma {:induction false} StartsStep(snap: seq<KV>, snap': seq<KV>, cs: seq<KV>, cs': seq<KV>, i: nat, n: nat)
    requires i < n && StartsFrom(snap, cs', 0, i) && StartsFrom(snap, cs, i, n) && n <= |cs'|
    requires |snap'| == |snap| && forall l :: 0 <= l < |snap| && l != i ==> Starts(snap'[l], snap[l])
    requires Starts(snap'[i], cs'[i])
    ensures StartsFrom(snap', cs', 0, i + 1) && StartsFrom(snap', cs, i + 1, n)
  {
  }

  /** Layers before i have been run: from `hidden` the remaining ones lead to `step`. */
  ghost predicate Progress(o: Ops, ws: seq<Layer>, cs: seq<KV>, ps: seq<nat>, step: NodeStep, i: nat,
                           hidden: seq<Row>) {
    |ws| == |cs| == |step.caches| && Paired(cs) && i <= |ws| && |hidden| == |ps| &&
    NodeCached(o, ws[i..], cs[i..], hidden, ps) == NodeStep(step.hidden, step.caches[i..])
  }

  lemma {:induction false} ProgressStep(o: Ops, ws: seq<Layer>, cs: seq<KV>, ps: seq<nat>, step: NodeStep, i: nat,
                                        hidden: seq<Row>)
    requires Progress(o, ws, cs, ps, step, i, hidden) && i < |ws|
    ensures step.caches[i] == Extend(o, ws[i], cs[i], hidden, ps)
    ensures Progress(o, ws, cs, ps, step, i + 1, LayerCached(o, ws[i], cs[i], hidden, ps))
  {
    assert ws[i..][1..] == ws[i + 1..] && cs[i..][1..] == cs[i + 1..];
    assert step.caches[i..][0] == step.caches[i] && step.caches[i..][1..] == step.caches[i + 1..];
  }

  lemma {:induction false} ProgressEnd(o: Ops, ws: seq<Layer>, cs: seq<KV>, ps: seq<nat>, step: NodeStep,
                                       hidden: seq<Row>)
    requires Progress(o, ws, cs, ps, step, |ws|, hidden)
    ensures hidden == step.hidden
  {
  }
}
