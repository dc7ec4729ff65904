/**
 A layer computed tensor by tensor, as the engines do it, and its agreement with the layer of
 the cached form, which is defined row by row.
 */
module TensorRows {
  import opened Transformer

  function MapRows(f: Row -> Row, xs: seq<Row>): (ys: seq<Row>)
    ensures |ys| == |xs|
  {
    seq(|xs|, i requires 0 <= i < |xs| => f(xs[i]))
  }

  function ZipRows(f: (Row, Row) -> Row, xs: seq<Row>, ys: seq<Row>): (zs: seq<Row>)
    requires |xs| == |ys|
    ensures |zs| == |xs|
  {
    seq(|xs|, i requires 0 <= i < |xs| => f(xs[i], ys[i]))
  }

  function RopeRows(f: (Row, nat) -> Row, xs: seq<Row>, ps: seq<nat>): (ys: seq<Row>)
    requires |xs| == |ps|
    ensures |ys| == |xs|
  {
    seq(|xs|, i requires 0 <= i < |xs| => f(xs[i], ps[i]))
  }

  /** Causal attention: query row i sees the first start + i + 1 cached rows. */
  function AttendRows(o: Ops, qs: seq<Row>, ks: seq<Row>, vs: seq<Row>, start: nat): (ys: seq<Row>)
    requires start + |qs| <= |ks| && start + |qs| <= |vs|
    ensures |ys| == |qs|
  {
    seq(|qs|, i requires 0 <= i < |qs| => o.attend(qs[i], ks[..start + i + 1], vs[..start + i + 1]))
  }

  function NewQueries(o: Ops, w: Layer, xs: seq<Row>, ps: seq<nat>): (qs: seq<Row>)
    requires |xs| == |ps|
    ensures |qs| == |xs|
  {
    RopeRows(o.ropeQ, MapRows(w.qProj, MapRows(w.attnNorm, xs)), ps)
  }

  /** The attention output projected and added to the rows it was computed for. */
  function AddAttention(o: Ops, w: Layer, xs: seq<Row>, attn: seq<Row>): (ys: seq<Row>)
    requires |xs| == |attn|
    ensures |ys| == |xs|
  {
    ZipRows(o.add, xs, MapRows(w.oProj, attn))
  }

  /** Rows after the attention half of a layer, from whole cache tensors. */
  function AfterAttention(o: Ops, w: Layer, xs: seq<Row>, ps: seq<nat>, ks: seq<Row>, vs: seq<Row>,
                          start: nat): (ys: seq<Row>)
    requires |xs| == |ps| && start + |xs| <= |ks| && start + |xs| <= |vs|
    ensures |ys| == |xs|
  {
    AddAttention(o, w, xs, AttendRows(o, NewQueries(o, w, xs, ps), ks, vs, start))
  }

  function AfterFfn(o: Ops, w: Layer, xs: seq<Row>): (ys: seq<Row>)
    ensures |ys| == |xs|
  {
    var normed := MapRows(w.ffnNorm, xs);
    var mid := ZipRows(o.siluMul, MapRows(w.gateProj, normed), MapRows(w.upProj, normed));
    ZipRows(o.add, xs, MapRows(w.downProj, mid))
  }

  function NewKeys(o: Ops, w: Layer, xs: seq<Row>, ps: seq<nat>): (ks: seq<Row>)
    requires |xs| == |ps|
    ensures |ks| == |xs|
  {
    RopeRows(o.ropeK, MapRows(w.kProj, MapRows(w.attnNorm, xs)), ps)
  }

  function NewValues(w: Layer, xs: seq<Row>): (vs: seq<Row>)
    ensures |vs| == |xs|
  {
    MapRows(w.vProj, MapRows(w.attnNorm, xs))
  }

  lemma {:induction false} NewRows(o: Ops, w: Layer, xs: seq<Row>, ps: seq<nat>)
    requires |xs| == |ps|
    ensures NewKeys(o, w, xs, ps) == Keys(o, w, xs, ps)
    ensures NewValues(w, xs) == Values(w, xs)
  {
  }

  /**
   Whatever else is stored behind them, if the stored keys and values start with the cached
   ones followed by the new ones, the tensor-by-tensor computation is the cached layer.
   */
  lemma {:induction false} LayerFromStored(o: Ops, w: Layer, c: KV, xs: seq<Row>, ps: seq<nat>, full: KV)
    requires |xs| == |ps| && |c.k| == |c.v| && Starts(full, Extend(o, w, c, xs, ps))
    ensures AfterFfn(o, w, AfterAttention(o, w, xs, ps, full.k, full.v, |c.k|)) == LayerCached(o, w, c, xs, ps)
  {
    var c' := Extend(o, w, c, xs, ps);
    var ys := AfterAttention(o, w, xs, ps, full.k, full.v, |c.k|);
    forall i | 0 <= i < |xs|
      ensures AfterFfn(o, w, ys)[i] == LayerCached(o, w, c, xs, ps)[i]
    {
      assert full.k[..|c.k| + i + 1] == c'.k[..|c.k| + i + 1];
      assert full.v[..|c.k| + i + 1] == c'.v[..|c.k| + i + 1];
    }
  }
}
