/** Result records as C sees them: an id, a size and a tagged pointer into a heap of
    buffers that `Wait` allocates and the event loop frees. */
module Buffers {
  import opened Base

  /** `ngx_grpc_cli_task_res_t`. `origin` is history: the Go-side result it was packed from. */
  datatype CRes = CRes(id: Id, size: nat, word: nat, origin: TaskResult)

  type Heap = map<Ptr, Bytes>

  const TYPE_OK := 0
  const TYPE_ERR := 1
  const TYPE_OK_NOT_RES := 2

  function TypeOf(word: nat): nat { word % 8 }

  function Base8(word: nat): nat { word / 8 * 8 }

  /** The bytes copied into a C buffer for this result, if any. */
  function Body(t: TaskResult): Option<Bytes> {
    if t.err.Some? then t.err else t.result
  }

  /** One iteration of the packing loop, for a buffer address `p`. */
  function PackOne(t: TaskResult, p: Ptr): CRes {
    if t.err.Some? then CRes(t.id, |t.err.value|, p + TYPE_ERR, t)
    else if t.result.None? then CRes(t.id, 0, TYPE_OK_NOT_RES, t)
    else CRes(t.id, |t.result.value|, p + TYPE_OK, t)
  }

  function PackAll(ts: seq<TaskResult>, ps: seq<Ptr>): (r: seq<CRes>)
    requires |ps| == |ts|
    ensures |r| == |ts|
    ensures forall i :: 0 <= i < |ts| ==> r[i] == PackOne(ts[i], ps[i])
  {
    seq(|ts|, i requires 0 <= i < |ts| => PackOne(ts[i], ps[i]))
  }

  /** The heap after the loop has copied every body. */
  function StoreAll(h: Heap, ts: seq<TaskResult>, ps: seq<Ptr>): Heap
    requires |ps| == |ts|
  {
    if ts == [] then h
    else
      var n := |ts| - 1;
      var h' := StoreAll(h, ts[..n], ps[..n]);
      if Body(ts[n]).Some? then h'[ps[n] := Body(ts[n]).value] else h'
  }

  /** What malloc guarantees: aligned, non-null, distinct, not in use. */
  predicate FreshPtrs(h: Heap, ps: seq<Ptr>) {
    && NoDup(ps)
    && forall i :: 0 <= i < |ps| ==> ps[i] % 8 == 0 && ps[i] != 0 && ps[i] !in h
  }

  /** Reading a record through the heap, as `put_res` does. */
  function Unpack(h: Heap, x: CRes): LuaValue
    requires TypeOf(x.word) == TYPE_OK_NOT_RES || (Base8(x.word) in h && x.size <= |h[Base8(x.word)]|)
  {
    if TypeOf(x.word) == TYPE_OK then LuaValue(true, Some(h[Base8(x.word)][..x.size]))
    else if TypeOf(x.word) == TYPE_OK_NOT_RES then LuaValue(true, None)
    else LuaValue(false, Some(h[Base8(x.word)][..x.size]))
  }

  /** The record carries its origin: same id, same tag, and its buffer holds the body. */
  predicate Faithful(h: Heap, x: CRes) {
    && x.id == x.origin.id
    && x.word != 0
    && (Body(x.origin).None? ==> x.word == TYPE_OK_NOT_RES)
    && (Body(x.origin).Some? ==>
          && TypeOf(x.word) == (if x.origin.err.Some? then TYPE_ERR else TYPE_OK)
          && Base8(x.word) != 0
          && Base8(x.word) in h
          && h[Base8(x.word)] == Body(x.origin).value
          && x.size == |Body(x.origin).value|)
  }

  /** Every live buffer belongs to exactly one record. */
  predicate Owned(h: Heap, xs: seq<CRes>) {
    && (forall i :: 0 <= i < |xs| ==> Faithful(h, xs[i]))
    && (forall i, j :: 0 <= i < j < |xs| && Body(xs[i].origin).Some? && Body(xs[j].origin).Some?
          ==> Base8(xs[i].word) != Base8(xs[j].word))
    && (forall p :: p in h ==> exists i :: 0 <= i < |xs| && Body(xs[i].origin).Some? && Base8(xs[i].word) == p)
  }

  lemma TagArithmetic(p: Ptr, tag: nat)
    requires p % 8 == 0 && tag < 8
    ensures TypeOf(p + tag) == tag && Base8(p + tag) == p
  {
  }

  lemma FaithfulUnpack(h: Heap, x: CRes)
    requires Faithful(h, x)
    ensures TypeOf(x.word) == TYPE_OK_NOT_RES || (Base8(x.word) in h && x.size <= |h[Base8(x.word)]|)
    ensures Unpack(h, x) == Meaning(x.origin)
    ensures Body(x.origin).None? <==> Base8(x.word) == 0
  {
    if Body(x.origin).Some? {
      assert h[Base8(x.word)][..x.size] == Body(x.origin).value;
    }
  }

  lemma {:induction false} StoreAllAt(h: Heap, ts: seq<TaskResult>, ps: seq<Ptr>)
    requires |ps| == |ts| && FreshPtrs(h, ps)
    ensures forall p :: p in h ==> p in StoreAll(h, ts, ps) && StoreAll(h, ts, ps)[p] == h[p]
    ensures forall i :: 0 <= i < |ts| && Body(ts[i]).Some? ==>
              ps[i] in StoreAll(h, ts, ps) && StoreAll(h, ts, ps)[ps[i]] == Body(ts[i]).value
    ensures forall p :: p in StoreAll(h, ts, ps) ==>
              p in h || exists i :: 0 <= i < |ts| && Body(ts[i]).Some? && ps[i] == p
  {
    if ts != [] {
      var n := |ts| - 1;
      StoreAllAt(h, ts[..n], ps[..n]);
    }
  }

  /** Each record of a freshly packed batch is faithful and points at its own new buffer. */
  lemma PackFaithful(h: Heap, ts: seq<TaskResult>, ps: seq<Ptr>, i: nat)
    requires |ps| == |ts| && FreshPtrs(h, ps) && i < |ts|
    ensures Faithful(StoreAll(h, ts, ps), PackAll(ts, ps)[i])
    ensures Body(ts[i]).Some? ==> Base8(PackAll(ts, ps)[i].word) == ps[i]
  {
    StoreAllAt(h, ts, ps);
    hide StoreAll;
    TagArithmetic(ps[i], TYPE_ERR);
    TagArithmetic(ps[i], TYPE_OK);
  }

  /** Records already in flight keep their buffers while a batch is packed. */
  lemma PackKeeps(h: Heap, x: CRes, ts: seq<TaskResult>, ps: seq<Ptr>)
    requires Faithful(h, x) && |ps| == |ts| && FreshPtrs(h, ps)
    ensures Faithful(StoreAll(h, ts, ps), x)
  {
    StoreAllAt(h, ts, ps);
    hide StoreAll, TypeOf;
  }

  /** Packing a batch behind records already in flight keeps single ownership. */
  lemma PackOwned(h: Heap, xs: seq<CRes>, ts: seq<TaskResult>, ps: seq<Ptr>)
    requires Owned(h, xs) && |ps| == |ts| && FreshPtrs(h, ps)
    ensures Owned(StoreAll(h, ts, ps), xs + PackAll(ts, ps))
  {
    StoreAllAt(h, ts, ps);
    hide StoreAll, Faithful, Base8;
    var h', ys := StoreAll(h, ts, ps), PackAll(ts, ps);
    var zs := xs + ys;
    forall i | 0 <= i < |zs| ensures Faithful(h', zs[i]) {
      if i < |xs| { PackKeeps(h, xs[i], ts, ps); } else { PackFaithful(h, ts, ps, i - |xs|); }
    }
    forall i | 0 <= i < |ts| ensures zs[|xs| + i].origin == ts[i] && (Body(ts[i]).Some? ==> Base8(zs[|xs| + i].word) == ps[i]) {
      PackFaithful(h, ts, ps, i);
    }
    forall i, j | 0 <= i < j < |zs| && Body(zs[i].origin).Some? && Body(zs[j].origin).Some?
      ensures Base8(zs[i].word) != Base8(zs[j].word)
    {
      if j >= |xs| {
        assert zs[j] == zs[|xs| + (j - |xs|)];
        if i < |xs| { HasBuffer(h, xs[i]); } else { assert zs[i] == zs[|xs| + (i - |xs|)]; }
      }
    }
    forall p | p in h'
      ensures exists i :: 0 <= i < |zs| && Body(zs[i].origin).Some? && Base8(zs[i].word) == p
    {
      if p in h {
        var i :| 0 <= i < |xs| && Body(xs[i].origin).Some? && Base8(xs[i].word) == p;
        assert zs[i] == xs[i];
      } else {
        var i :| 0 <= i < |ts| && Body(ts[i]).Some? && ps[i] == p;
        assert zs[|xs| + i].origin == ts[i];
      }
    }
  }

  lemma HasBuffer(h: Heap, x: CRes)
    requires Faithful(h, x) && Body(x.origin).Some?
    ensures Base8(x.word) in h
  {
  }

  /** Freeing the first record's buffer (nothing for a null base) keeps single ownership. */
  lemma FreeOwned(h: Heap, xs: seq<CRes>)
    requires Owned(h, xs) && xs != []
    ensures Base8(xs[0].word) == 0 || Base8(xs[0].word) in h
    ensures Owned(h - {Base8(xs[0].word)}, xs[1..])
  {
    FaithfulUnpack(h, xs[0]);
    var b := Base8(xs[0].word);
    var h', ys := h - {b}, xs[1..];
    forall i | 0 <= i < |ys| ensures Faithful(h', ys[i]) {
      assert Faithful(h, xs[i + 1]);
    }
    forall p | p in h'
      ensures exists i :: 0 <= i < |ys| && Body(ys[i].origin).Some? && Base8(ys[i].word) == p
    {
      var i :| 0 <= i < |xs| && Body(xs[i].origin).Some? && Base8(xs[i].word) == p;
      assert ys[i - 1] == xs[i];
    }
  }
}
