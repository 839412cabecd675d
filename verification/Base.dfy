/** Vocabulary shared by every module: identifiers, results and small sequence facts. */
module Base {

  datatype Option<+T> = None | Some(value: T)

  type Byte = b: int | 0 <= b < 256
  type Bytes = seq<Byte>

  /** Address of a stream context; the engine identifies tasks by it. */
  type Id = nat
  /** Address of a connection context. */
  type ConnId = nat
  /** Key of an engine connection in `EngineCtxRef`. */
  type Ref = nat
  /** Address of a result buffer. */
  type Ptr = nat
  /** A Lua coroutine and the request it runs for. */
  type Co = nat
  type Req = nat
  /** Serial number of a kicked-off operation and of the engine job it started. */
  type JobId = nat

  /** What a goroutine hands to the finished-task queue. `job` is history: it says
      which operation started the goroutine and is never read by the program. */
  datatype TaskResult = TaskResult(id: Id, result: Option<Bytes>, err: Option<Bytes>, job: JobId)

  /** The two values a resumed coroutine receives. */
  datatype LuaValue = LuaValue(ok: bool, val: Option<Bytes>) | TimedOut

  /** What the coroutine must see when its job reported `t`: an error wins over a
      result, and a nil result is not the same as an empty one. */
  function Meaning(t: TaskResult): LuaValue {
    if t.err.Some? then LuaValue(false, t.err)
    else LuaValue(true, t.result)
  }

  predicate NoDup<T(==)>(s: seq<T>) {
    forall i, j :: 0 <= i < j < |s| ==> s[i] != s[j]
  }

  function Elements<T(==)>(s: seq<T>): set<T> {
    set x | x in s
  }

  /** `s` without the first occurrence of `x`. */
  function Remove<T(==)>(s: seq<T>, x: T): (r: seq<T>)
    ensures |r| <= |s|
  {
    if s == [] then [] else if s[0] == x then s[1..] else [s[0]] + Remove(s[1..], x)
  }

  lemma {:induction false} RemoveNoDup<T>(s: seq<T>, x: T)
    requires NoDup(s)
    ensures NoDup(Remove(s, x))
    ensures forall y :: y in Remove(s, x) <==> y in s && y != x
  {
    if s != [] {
      assert s == [s[0]] + s[1..];
      if s[0] != x {
        RemoveNoDup(s[1..], x);
        ConsNoDup(s[0], Remove(s[1..], x));
      }
    }
  }

  lemma ConsNoDup<T>(x: T, s: seq<T>)
    requires NoDup(s) && x !in s
    ensures NoDup([x] + s)
    ensures forall y :: y in [x] + s <==> y == x || y in s
  {
  }

  lemma Overwrite<V>(m: map<nat, V>, k: nat, v: V, w: V)
    ensures m[k := v][k := w] == m[k := w]
    ensures m[k := v] - {k} == m[k := w] - {k}
  {
  }
}
