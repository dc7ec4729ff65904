/**
 The device behind the `Backend` trait.  A tensor is a buffer of rows; a reshaped view shares
 the buffer, so here it is the same array again.  Compute operations overwrite their output.
 */
module DeviceMemory {
  import opened Core
  import opened Transformer
  import opened TensorRows

  /** The rows behind a tensor id. */
  type Tensor = array<Row>

  /** `dst` with `count` rows from `at` on replaced by rows of `src` from `from` on. */
  function Spliced(src: seq<Row>, dst: seq<Row>, from: nat, at: nat, count: nat): (r: seq<Row>)
    requires from + count <= |src| && at + count <= |dst|
    ensures |r| == |dst|
  {
    dst[..at] + src[from..from + count] + dst[at + count..]
  }

  class Device {
    /** How many tensors fit; stands for the memory of the device. */
    const capacity: nat
    /** Tensors allocated and not yet freed. */
    var live: set<Tensor>

    ghost predicate Valid()
      reads this
    {
      |live| <= capacity
    }

    constructor (capacity: nat)
      ensures Valid() && live == {} && this.capacity == capacity
    {
      this.capacity := capacity;
      live := {};
    }

    /** The rows of a new tensor hold nothing in particular. */
    method Alloc(rows: nat) returns (r: Result<Tensor>)
      requires Valid()
      modifies this
      ensures Valid()
      ensures r.Ok? <==> |old(live)| < capacity
      ensures r.Ok? ==> fresh(r.value) && r.value.Length == rows
      ensures r.Ok? ==> live == old(live) + {r.value} && |live| == |old(live)| + 1 && r.value !in old(live)
      ensures r.Err? ==> live == old(live) && r.error == OutOfMemory
    {
      if |live| >= capacity {
        return Err(OutOfMemory);
      }
      var t := new Row[rows];
      live := live + {t};
      r := Ok(t);
    }

    /** Freeing a tensor that is not live is an error. */
    method Free(t: Tensor) returns (r: Result<()>)
      requires Valid()
      modifies this
      ensures Valid()
      ensures r.Ok? <==> t in old(live)
      ensures r.Ok? ==> live == old(live) - {t} && |live| == |old(live)| - 1
      ensures r.Err? ==> live == old(live) && r.error == TensorNotFound
    {
      if t !in live {
        return Err(TensorNotFound);
      }
      live := live - {t};
      r := Ok(());
    }
  }

  method Embedding(ids: seq<nat>, m: Model, out: Tensor)
    requires out.Length == |ids|
    modifies out
    ensures out[..] == Embed(m, ids)
  {
    forall i | 0 <= i < |ids| { out[i] := m.embedding(ids[i]); }
  }

  /** RMSNorm and matrix product: one row map applied to every row. */
  method Apply(f: Row -> Row, input: Tensor, out: Tensor)
    requires input.Length == out.Length
    modifies out
    ensures out[..] == MapRows(f, old(input[..]))
  {
    forall i | 0 <= i < out.Length { out[i] := f(input[i]); }
  }

  /** Elementwise addition and fused SiLU-multiply. */
  method Combine(f: (Row, Row) -> Row, a: Tensor, b: Tensor, out: Tensor)
    requires a.Length == b.Length == out.Length
    modifies out
    ensures out[..] == ZipRows(f, old(a[..]), old(b[..]))
  {
    forall i | 0 <= i < out.Length { out[i] := f(a[i], b[i]); }
  }

  /** Rotary embedding, in place on the query and the key tensor. */
  method Rope(o: Ops, q: Tensor, k: Tensor, ps: seq<nat>)
    requires q != k && q.Length == k.Length == |ps|
    modifies q, k
    ensures q[..] == RopeRows(o.ropeQ, old(q[..]), ps)
    ensures k[..] == RopeRows(o.ropeK, old(k[..]), ps)
  {
    forall i | 0 <= i < q.Length { q[i] := o.ropeQ(q[i], ps[i]); }
    forall i | 0 <= i < k.Length { k[i] := o.ropeK(k[i], ps[i]); }
  }

  method Attention(o: Ops, q: Tensor, ks: Tensor, vs: Tensor, start: nat, out: Tensor)
    requires q.Length == out.Length
    requires start + q.Length <= ks.Length && start + q.Length <= vs.Length
    requires out != ks && out != vs
    modifies out
    ensures out[..] == AttendRows(o, old(q[..]), ks[..], vs[..], start)
  {
    forall i | 0 <= i < out.Length {
      out[i] := o.attend(q[i], ks[..][..start + i + 1], vs[..][..start + i + 1]);
    }
    assert ks[..] == old(ks[..]) && vs[..] == old(vs[..]);
  }

  method CopyRows(src: Tensor, dst: Tensor, from: nat, at: nat, count: nat) returns (r: Result<()>)
    requires src != dst
    modifies dst
    ensures r.Ok? <==> from + count <= src.Length && at + count <= dst.Length
    ensures r.Ok? ==> dst[..] == Spliced(src[..], old(dst[..]), from, at, count)
    ensures r.Err? ==> dst[..] == old(dst[..]) && r.error == InvalidShape
  {
    if from + count > src.Length || at + count > dst.Length {
      return Err(InvalidShape);
    }
    forall i | 0 <= i < count { dst[at + i] := src[from + i]; }
    r := Ok(());
  }
}
