/** What reaches the wire of server and client streams, and exactly when the half-close
    discipline holds. */
module HalfClose {
  import opened Base
  import opened Buffers
  import opened Machine
  import opened Invariants
  import opened StreamObjects
  import opened Engine
  import opened Frames
  import opened Reachability
  import opened Undisturbed
  import opened Attribution
  import opened Orderly
  import opened OrderlyKickOff
  import opened Serialisation
  import opened CallOrder
  import Q = FinishedQueue

  function Wires(log: seq<Call>): (w: seq<Wire>)
    ensures |w| == |log| && forall i :: 0 <= i < |log| ==> w[i] == log[i].wire
  {
    seq(|log|, i requires 0 <= i < |log| => log[i].wire)
  }

  /** What the peer sees: messages and half-closes. */
  function Outbound(w: seq<Wire>): seq<Wire> {
    if w == [] then []
    else Outbound(w[..|w| - 1]) + (if w[|w| - 1].Read? then [] else [w[|w| - 1]])
  }

  lemma {:induction false} OutboundConcat(a: seq<Wire>, b: seq<Wire>)
    ensures Outbound(a + b) == Outbound(a) + Outbound(b)
  {
    if b == [] {
      assert a + b == a;
    } else {
      var n := |b| - 1;
      OutboundConcat(a, b[..n]);
      assert (a + b)[..|a + b| - 1] == a + b[..n];
    }
  }

  lemma {:induction false} ReadsSendNothing(w: seq<Wire>)
    requires forall i :: 0 <= i < |w| ==> w[i].Read?
    ensures Outbound(w) == []
  {
    if w != [] {
      ReadsSendNothing(w[..|w| - 1]);
    }
  }

  // ---------------------------------------------------------------- entries of a sound log

  /** Every entry is the next call of a listed job's script. */
  lemma EntryFits(u: JobId, st: Stream, ops: seq<OpInfo>, i: nat)
    requires StreamSound(u, st, ops) && i < |st.log|
    ensures var k := st.log[i].job;
            k in st.kicks && k < |ops| && CallsOf(st.log[..i], k) + [st.log[i].wire] <= FullWire(st.typ, ops[k].op)
  {
    hide CallsOf, FullWire;
    var k := st.log[i].job;
    var m :| 0 <= m < |st.kicks| && st.kicks[m] == k;
    CallAt(st.log, i);
  }

  /** After the opening's own calls come only those of later jobs. */
  lemma AfterOpening(u: JobId, st: Stream, ops: seq<OpInfo>, i: nat)
    requires StreamSound(u, st, ops) && |FullWire(st.typ, ops[u].op)| <= i < |st.log|
    ensures st.log[i].job != u
  {
    hide CallsOf, FullWire;
    var full := FullWire(st.typ, ops[u].op);
    var rest := st.log[|full|..];
    assert st.log == Tagged(u, full) + rest;
    CallsConcat(Tagged(u, full), rest, u);
    CallsTagged(u, full, u);
    assert CallsOf(st.log, st.kicks[0]) <= full;
    if rest[i - |full|].job == u {
      CallAt(rest, i - |full|);
    }
  }

  // ---------------------------------------------------------------- operations a type offers

  /** Everything started on the stream is something its own type offers. */
  predicate AllOffered(st: Stream, ops: seq<OpInfo>) {
    forall i :: 1 <= i < |st.kicks| ==> st.kicks[i] < |ops| && Offers(st.typ, ops[st.kicks[i]].op)
  }

  ghost predicate Fits(s: State, u: JobId) {
    u in s.streams ==> AllOffered(s.streams[u], s.ops)
  }

  /** Every call admitted on `u` is one the stream's own type offers. */
  predicate FitRun(s: State, run: seq<Step>, u: JobId)
    requires Runs(s, run)
    decreases |run|
  {
    run == [] ||
    ((KicksOn(s, run[0], u) && u in s.streams ==> Offers(s.streams[u].typ, run[0].op)) && FitRun(Apply(s, run[0]), run[1..], u))
  }

  lemma FitsStep(s: State, a: Step, u: JobId)
    requires Inv(s) && Enabled(s, a) && Fits(s, u) && (KicksOn(s, a, u) && u in s.streams ==> Offers(s.streams[u].typ, a.op))
    ensures Fits(Apply(s, a), u)
  {
    hide Inv, Enabled, Apply, KicksOn, Busy, CallsLeft, Offers, FullWire;
    if KicksOn(s, a, u) {
      KickedBusy(s, a, u);
    } else if u in s.streams {
      LogStep(s, a, u);
    } else if u in Apply(s, a).streams {
      BornStep(s, a, u);
    }
  }

  lemma {:induction false} FitRuns(s: State, run: seq<Step>, u: JobId)
    requires Inv(s) && Fits(s, u) && Runs(s, run) && FitRun(s, run, u)
    ensures Fits(After(s, run), u)
    decreases |run|
  {
    hide Inv, Enabled, Apply, Fits, KicksOn, Offers;
    if run != [] {
      FitsStep(s, run[0], u);
      StepInv(s, run[0]);
      FitRuns(Apply(s, run[0]), run[1..], u);
    }
  }

  /** A handle of the stream's own type offers only what the stream does. */
  lemma SameTypeFits(s: State, a: Step, u: JobId)
    requires Inv(s) && Enabled(s, a) && KicksOn(s, a, u) && u in s.streams
    requires a.id in s.sctxs && s.sctxs[a.id].typ == s.streams[u].typ
    ensures Offers(s.streams[u].typ, a.op)
  {
    hide Inv, Apply, KicksOff, FrameHolds, FullWire, FreshPtrs, ResultShape, CallsLeft;
  }

  // ---------------------------------------------------------------- server streams

  /** A server stream on which only its own operations were started sent its request and one
      half-close, in every run. */
  lemma ServerSends(u: JobId, st: Stream, ops: seq<OpInfo>)
    requires StreamSound(u, st, ops) && st.typ.ServerStream? && AllOffered(st, ops)
    ensures Outbound(Wires(st.log)) == [Msg(ops[u].op.req), HalfClose]
  {
    var full := FullWire(st.typ, ops[u].op);
    var rest := st.log[2..];
    assert full == [Msg(ops[u].op.req), HalfClose];
    assert st.log == Tagged(u, full) + rest;
    forall i | 0 <= i < |rest| ensures rest[i].wire.Read? {
      ServerEntry(u, st, ops, i + 2);
    }
    hide CallsOf, FullWire, StreamSound;
    ReadsSendNothing(Wires(rest));
    OutboundConcat(full, Wires(rest));
    assert Wires(st.log) == full + Wires(rest);
    RequestThenHalfClose(full);
  }

  lemma ServerEntry(u: JobId, st: Stream, ops: seq<OpInfo>, i: nat)
    requires StreamSound(u, st, ops) && st.typ.ServerStream? && AllOffered(st, ops) && 2 <= i < |st.log|
    ensures st.log[i].wire.Read?
  {
    hide CallsOf;
    AfterOpening(u, st, ops, i);
    EntryFits(u, st, ops, i);
    var k := st.log[i].job;
    var m :| 0 <= m < |st.kicks| && st.kicks[m] == k;
    assert Offers(st.typ, ops[st.kicks[m]].op);
    var c := CallsOf(st.log[..i], k);
    assert FullWire(st.typ, ops[k].op) == [Read];
    assert (c + [st.log[i].wire])[|c|] == st.log[i].wire;
  }

  lemma RequestThenHalfClose(w: seq<Wire>)
    requires |w| == 2 && w[0].Msg? && w[1].HalfClose?
    ensures Outbound(w) == w
  {
    assert w[..1] == [w[0]] && w[..1][..0] == [];
    assert Outbound(w[..1]) == [w[0]];
  }

  predicate ServerTidy(s: State, u: JobId) {
    u in s.streams && u < |s.ops| && s.ops[u].op.OpenOp? ==>
      Outbound(Wires(s.streams[u].log)) == [Msg(s.ops[u].op.req), HalfClose]
  }

  lemma FitIsTidy(s: State, u: JobId)
    requires Inv(s) && Fits(s, u) && (u in s.streams ==> s.streams[u].typ.ServerStream?)
    ensures ServerTidy(s, u)
  {
    hide Inv, CallsOf, FullWire, Outbound;
    if u in s.streams {
      SoundAt(s, u);
      ServerSends(u, s.streams[u], s.ops);
    }
  }

  /** Server half-close, exactly: a call admitted on a server stream keeps its outbound log at the
      request and one half-close, in every continuation whose own calls fit, if and only if it
      is a call a server stream offers. */
  lemma ServerExact(s: State, a: Step, u: JobId)
    requires Inv(s) && Enabled(s, a) && a.DoStreamOp? && KicksOn(s, a, u) && Fits(s, u)
    requires u in s.streams && s.streams[u].typ.ServerStream?
    ensures Offers(ServerStream, a.op) <==>
            forall run :: Runs(Apply(s, a), run) && FitRun(Apply(s, a), run, u) ==> ServerTidy(After(Apply(s, a), run), u)
  {
    hide Inv, Enabled, Apply, KicksOn, Fits, FullWire, ServerTidy, CallsLeft, Busy;
    var s' := Apply(s, a);
    KickedBusy(s, a, u);
    if Offers(ServerStream, a.op) {
      FitsStep(s, a, u);
      forall run | Runs(s', run) && FitRun(s', run, u) ensures ServerTidy(After(s', run), u) {
        FitRuns(s', run, u);
        RunInv(s', run);
        TypeRun(s', run, u);
        FitIsTidy(After(s', run), u);
      }
    } else {
      CallNow(s', u, |s.ops|);
      Prepend(s', DoCall(|s.ops|), []);
      var run := [DoCall(|s.ops|)] + [];
      CallFits(s', |s.ops|, u);
      SpoiltByCall(s, s', a.op, u);
      assert Runs(s', run) && FitRun(s', run, u) && !ServerTidy(After(s', run), u);
    }
  }

  lemma CallFits(s: State, j: JobId, u: JobId)
    requires Enabled(s, DoCall(j)) && Runs(s, [DoCall(j)] + [])
    ensures FitRun(s, [DoCall(j)] + [], u)
  {
    hide Enabled, Apply, KicksOff, Offers;
    assert ([DoCall(j)] + [])[1..] == [];
  }

  lemma SpoiltByCall(s: State, s': State, op: Op, u: JobId)
    requires Inv(s) && Inv(s') && s'.faults == {} && Fits(s, u) && u in s.streams && s.streams[u].typ.ServerStream?
    requires Joined(s, s', u, op) && !Offers(ServerStream, op)
    ensures !ServerTidy(MakeCall(s', |s.ops|), u)
  {
    hide Inv, Outbound, CallsLeft, CallsOf;
    FitIsTidy(s, u);
    SoundAt(s, u);
    var log := s.streams[u].log;
    CallNow(s', u, |s.ops|);
    var w := CallsLeft(s', |s.ops|)[0];
    assert FullWire(ServerStream, op)[0] == w && !w.Read?;
    assert Wires(log + [Call(|s.ops|, w)]) == Wires(log) + [w];
    OutboundConcat(Wires(log), [w]);
    OneOut(w);
    SoundAt(s', u);
    assert MakeCall(s', |s.ops|).ops == s'.ops;
  }

  lemma OneOut(w: Wire)
    requires !w.Read?
    ensures Outbound([w]) == [w]
  {
    assert [w][..0] == [];
  }

  /** A stream never changes its type. */
  lemma {:induction false} TypeRun(s: State, run: seq<Step>, u: JobId)
    requires Inv(s) && Runs(s, run) && u in s.streams
    ensures u in After(s, run).streams && After(s, run).streams[u].typ == s.streams[u].typ
    decreases |run|
  {
    hide Inv, Enabled, Apply, Busy, CallsLeft, FullWire, KicksOn;
    if run != [] {
      if KicksOn(s, run[0], u) {
        KickedBusy(s, run[0], u);
      } else {
        LogStep(s, run[0], u);
      }
      StepInv(s, run[0]);
      TypeRun(Apply(s, run[0]), run[1..], u);
    }
  }

  // ---------------------------------------------------------------- client streams: reading

  /** Every read comes after a half-close by the same job. */
  predicate ReadsAfterHalfClose(log: seq<Call>) {
    forall i :: 0 <= i < |log| && log[i].wire.Read? ==> exists p :: 0 <= p < i && log[p] == Call(log[i].job, HalfClose)
  }

  /** Every read comes right after its half-close. */
  predicate ReadsNext(log: seq<Call>) {
    forall i :: 0 <= i < |log| && log[i].wire.Read? ==> i > 0 && log[i - 1] == Call(log[i].job, HalfClose)
  }

  /** The half-close of a job that reads from a client stream. */
  lemma HalfCloseOf(u: JobId, st: Stream, ops: seq<OpInfo>, i: nat) returns (p: nat)
    requires StreamSound(u, st, ops) && st.typ.ClientStream? && i < |st.log| && st.log[i].wire.Read?
    ensures p < i && st.log[p] == Call(st.log[i].job, HalfClose) && CallsOf(st.log[..i], st.log[i].job) == [HalfClose]
  {
    EntryFits(u, st, ops, i);
    var k := st.log[i].job;
    hide CallsOf;
    var c := CallsOf(st.log[..i], k);
    var f := FullWire(ClientStream, ops[k].op);
    assert c + [Read] <= f;
    assert f[|c|] == Read && c == f[..|c|];
    p := CallEntry(st.log[..i], k, 0);
  }

  /** In every run a client stream reads only after half-closing. */
  lemma ClientReads(u: JobId, st: Stream, ops: seq<OpInfo>)
    requires StreamSound(u, st, ops) && st.typ.ClientStream?
    ensures ReadsAfterHalfClose(st.log)
  {
    hide StreamSound, CallsOf;
    forall i | 0 <= i < |st.log| && st.log[i].wire.Read?
      ensures exists p :: 0 <= p < i && st.log[p] == Call(st.log[i].job, HalfClose)
    {
      var p := HalfCloseOf(u, st, ops, i);
    }
  }

  /** When the calls are in call order, right after. */
  lemma ClientReadsNext(u: JobId, st: Stream, ops: seq<OpInfo>)
    requires StreamSound(u, st, ops) && st.typ.ClientStream? && InCallOrder(st.log)
    ensures ReadsNext(st.log)
  {
    hide StreamSound, CallsOf;
    forall i | 0 <= i < |st.log| && st.log[i].wire.Read? ensures i > 0 && st.log[i - 1] == Call(st.log[i].job, HalfClose) {
      var p := HalfCloseOf(u, st, ops, i);
      if p < i - 1 {
        var k := st.log[i].job;
        assert st.log[i - 1].job == k;
        TwoCalls(st.log[..i], p, i - 1);
      }
    }
  }

  lemma TwoCalls(log: seq<Call>, p: nat, q: nat)
    requires p < q < |log| && log[p].job == log[q].job
    ensures |CallsOf(log, log[q].job)| >= 2
  {
    hide CallsOf;
    CallAt(log, q);
    assert log[..q][p] == log[p];
    CallAt(log[..q], p);
  }

  // ---------------------------------------------------------------- client streams: closing

  /** No message follows a half-close. */
  predicate MessagesFirst(log: seq<Call>) {
    forall x, y :: 0 <= x < y < |log| && log[x].wire.HalfClose? ==> !log[y].wire.Msg?
  }

  /** Only sends were started on the stream. */
  predicate AllSends(st: Stream, ops: seq<OpInfo>) {
    forall i :: 1 <= i < |st.kicks| ==> st.kicks[i] < |ops| && ops[st.kicks[i]].op.SendOp?
  }

  lemma SendsOnly(u: JobId, st: Stream, ops: seq<OpInfo>, i: nat)
    requires StreamSound(u, st, ops) && st.typ.ClientStream? && AllSends(st, ops) && i < |st.log|
    ensures st.log[i].wire.Msg?
  {
    EntryFits(u, st, ops, i);
    hide CallsOf;
    var k := st.log[i].job;
    var m :| 0 <= m < |st.kicks| && st.kicks[m] == k;
    var c := CallsOf(st.log[..i], k);
    assert (c + [st.log[i].wire])[|c|] == st.log[i].wire;
  }

  /** From here on only job `j` calls on `u`. */
  ghost predicate Sealed(s: State, u: JobId, j: JobId, log: seq<Call>) {
    && u in s.streams && log <= s.streams[u].log
    && (forall i :: |log| <= i < |s.streams[u].log| ==> s.streams[u].log[i].job == j)
    && (forall k :: Busy(s, u, k) ==> k == j)
  }

  lemma {:induction false} SealedRun(s: State, run: seq<Step>, u: JobId, j: JobId, log: seq<Call>)
    requires Inv(s) && Runs(s, run) && Unkicked(s, run, u) && Sealed(s, u, j, log)
    ensures Sealed(After(s, run), u, j, log)
    decreases |run|
  {
    hide Inv, Enabled, Apply, KicksOn, Busy;
    if run != [] {
      LogStep(s, run[0], u);
      StepInv(s, run[0]);
      SealedRun(Apply(s, run[0]), run[1..], u, j, log);
    }
  }

  /** After the sends, one job's half-close and read: messages stay first. */
  lemma SealedFirst(u: JobId, st: Stream, ops: seq<OpInfo>, j: JobId, n: nat)
    requires StreamSound(u, st, ops) && st.typ.ClientStream? && j < |ops| && ops[j].op.RecvOp? && n <= |st.log|
    requires forall i :: 0 <= i < n ==> st.log[i].wire.Msg?
    requires forall i :: n <= i < |st.log| ==> st.log[i].job == j
    ensures MessagesFirst(st.log)
  {
    forall i | n <= i < |st.log| ensures !st.log[i].wire.Msg? {
      EntryFits(u, st, ops, i);
      var c := CallsOf(st.log[..i], j);
      assert (c + [st.log[i].wire])[|c|] == st.log[i].wire;
    }
  }

  /** Client half-close, exactly: when `recv_close` is called on a client stream that so far was
      only sent on, no message follows the half-close in any continuation without further calls
      on it, if and only if no send had calls left. */
  lemma ClientExact(s: State, a: Step, u: JobId)
    requires Inv(s) && Enabled(s, a) && a.DoStreamOp? && KicksOn(s, a, u) && a.op.RecvOp?
    requires u in s.streams && s.streams[u].typ.ClientStream? && AllSends(s.streams[u], s.ops)
    ensures Idle(s, u) <==>
            forall run :: Runs(Apply(s, a), run) && Unkicked(Apply(s, a), run, u) && u in After(Apply(s, a), run).streams ==>
              MessagesFirst(After(Apply(s, a), run).streams[u].log)
  {
    hide Inv, Enabled, Apply, KicksOn, CallsLeft, Busy, StreamSound, FullWire;
    var s', j := Apply(s, a), |s.ops|;
    KickedBusy(s, a, u);
    if Idle(s, u) {
      forall run | Runs(s', run) && Unkicked(s', run, u) && u in After(s', run).streams
        ensures MessagesFirst(After(s', run).streams[u].log)
      {
        SealedRun(s', run, u, j, s.streams[u].log);
        ClosedFirst(s, s', run, u);
      }
    } else {
      var k :| Busy(s, u, k);
      var run := Overtake(s', u, j, k);
      BusySends(s, u, k);
      NextWires(s, s', u, k);
      var log := After(s', run).streams[u].log;
      assert log[|log| - 2].wire.HalfClose? && log[|log| - 1].wire.Msg?;
    }
  }

  lemma ClosedFirst(s: State, s': State, run: seq<Step>, u: JobId)
    requires Inv(s) && Inv(s') && Runs(s', run) && u in s.streams && s.streams[u].typ.ClientStream? && AllSends(s.streams[u], s.ops)
    requires Joined(s, s', u, RecvOp) && Sealed(After(s', run), u, |s.ops|, s.streams[u].log)
    ensures MessagesFirst(After(s', run).streams[u].log)
  {
    hide Inv, Enabled, Apply, CallsLeft, Busy, StreamSound, FullWire, MessagesFirst;
    var t := After(s', run);
    RunInv(s', run);
    OpsRun(s', run);
    TypeRun(s', run, u);
    SoundAt(s, u);
    SoundAt(t, u);
    var st := t.streams[u];
    forall i | 0 <= i < |s.streams[u].log| ensures st.log[i].wire.Msg? {
      SendsOnly(u, s.streams[u], s.ops, i);
      assert st.log[i] == s.streams[u].log[i];
    }
    SealedFirst(u, st, t.ops, |s.ops|, |s.streams[u].log|);
  }

  lemma BusySends(s: State, u: JobId, k: JobId)
    requires Inv(s) && u in s.streams && AllSends(s.streams[u], s.ops) && Busy(s, u, k)
    ensures k < |s.ops| && k in s.jobs && s.jobs[k].op.SendOp? && s.jobs[k].typ == s.streams[u].typ
  {
    hide Inv, CallsLeft, FullWire, CallsOf;
    BusyListed(s, u, k);
    SoundAt(s, u);
    var m :| 0 <= m < |s.streams[u].kicks| && s.streams[u].kicks[m] == k;
  }

  lemma NextWires(s: State, s': State, u: JobId, k: JobId)
    requires u in s.streams && s.streams[u].typ.ClientStream? && Busy(s, u, k) && s.jobs[k].op.SendOp?
    requires Joined(s, s', u, RecvOp)
    ensures CallsLeft(s', |s.ops|) != [] && CallsLeft(s', |s.ops|)[0] == HalfClose
    ensures k in s'.jobs && CallsLeft(s', k) != [] && CallsLeft(s', k)[0].Msg?
  {
  }

  // ---------------------------------------------------------------- client streams: the whole log

  /** The messages of the sends listed before index `n`, each only if its call was made. */
  function Sent(st: Stream, ops: seq<OpInfo>, n: nat): seq<Wire>
    requires n <= |st.kicks| && forall i :: 1 <= i < n ==> st.kicks[i] < |ops| && ops[st.kicks[i]].op.SendOp?
  {
    if n <= 1 then []
    else
      Sent(st, ops, n - 1)
      + (if CallsOf(st.log, st.kicks[n - 1]) == [] then [] else [Msg(ops[st.kicks[n - 1]].op.msg)])
  }

  lemma {:induction false} SentGrouped(u: JobId, st: Stream, ops: seq<OpInfo>, n: nat)
    requires StreamSound(u, st, ops) && st.typ.ClientStream? && 1 <= n <= |st.kicks|
    requires forall i :: 1 <= i < n ==> ops[st.kicks[i]].op.SendOp?
    ensures Wires(Grouped(st.kicks[..n], st.log)) == [Msg(ops[u].op.req)] + Sent(st, ops, n)
  {
    hide CallsOf;
    var k := st.kicks[n - 1];
    assert st.kicks[..n][..n - 1] == st.kicks[..n - 1];
    var g, c := Grouped(st.kicks[..n - 1], st.log), CallsOf(st.log, k);
    assert Grouped(st.kicks[..n], st.log) == g + Tagged(k, c);
    WiresTagged(g, k, c);
    if n == 1 {
      OpeningCalls(u, st, ops);
    } else {
      SentGrouped(u, st, ops, n - 1);
      assert c <= FullWire(st.typ, ops[st.kicks[n - 1]].op);
      OneMessage(c, ops[k].op.msg);
    }
  }

  lemma WiresTagged(g: seq<Call>, k: JobId, c: seq<Wire>)
    ensures Wires(g + Tagged(k, c)) == Wires(g) + c
  {
  }

  lemma OneMessage(c: seq<Wire>, m: Bytes)
    requires c <= [Msg(m)]
    ensures c == if c == [] then [] else [Msg(m)]
  {
  }

  lemma OpeningCalls(u: JobId, st: Stream, ops: seq<OpInfo>)
    requires StreamSound(u, st, ops)
    ensures CallsOf(st.log, u) == FullWire(st.typ, ops[u].op)
  {
    hide CallsOf, FullWire;
    var full := FullWire(st.typ, ops[u].op);
    assert st.log == Tagged(u, full) + st.log[|full|..];
    CallsConcat(Tagged(u, full), st.log[|full|..], u);
    CallsTagged(u, full, u);
    assert CallsOf(st.log, st.kicks[0]) <= full;
  }

  /** A client stream in call order whose last job is its first `recv_close`, completely made:
      the request, each send's own message in Lua call order, one half-close, one read. */
  lemma ClientLog(u: JobId, st: Stream, ops: seq<OpInfo>)
    requires StreamSound(u, st, ops) && st.typ.ClientStream? && InCallOrder(st.log) && |st.kicks| >= 2
    requires forall i :: 1 <= i < |st.kicks| - 1 ==> ops[st.kicks[i]].op.SendOp?
    requires ops[st.kicks[|st.kicks| - 1]].op.RecvOp? && CallsOf(st.log, st.kicks[|st.kicks| - 1]) == [HalfClose, Read]
    ensures Wires(st.log) == [Msg(ops[u].op.req)] + Sent(st, ops, |st.kicks| - 1) + [HalfClose, Read]
  {
    var n := |st.kicks| - 1;
    OrderedIsGrouped(st.kicks, st.log);
    SentGrouped(u, st, ops, n);
    hide CallsOf, FullWire, Sent;
    assert st.log == Grouped(st.kicks[..n], st.log) + Tagged(st.kicks[n], [HalfClose, Read]);
  }

  // ---------------------------------------------------------------- server and bidirectional streams: the whole log

  /** The one call of a method on a stream that is not a client stream. */
  function Spoken(op: Op): Wire {
    match op
    case SendOp(m) => Msg(m)
    case CloseSendOp => HalfClose
    case _ => Read
  }

  /** The calls of the jobs listed before index `n`, one each, nothing for a job that made none. */
  function Dialogue(st: Stream, ops: seq<OpInfo>, n: nat): seq<Wire>
    requires n <= |st.kicks| && forall i :: 0 <= i < n ==> st.kicks[i] < |ops|
  {
    if n <= 1 then []
    else Dialogue(st, ops, n - 1) + (if CallsOf(st.log, st.kicks[n - 1]) == [] then [] else [Spoken(ops[st.kicks[n - 1]].op)])
  }

  lemma {:induction false} DialogueGrouped(u: JobId, st: Stream, ops: seq<OpInfo>, n: nat)
    requires StreamSound(u, st, ops) && !st.typ.ClientStream? && 1 <= n <= |st.kicks|
    ensures Wires(Grouped(st.kicks[..n], st.log)) ==
            [Msg(ops[u].op.req)] + (if st.typ.ServerStream? then [HalfClose] else []) + Dialogue(st, ops, n)
  {
    hide CallsOf;
    var k := st.kicks[n - 1];
    assert st.kicks[..n][..n - 1] == st.kicks[..n - 1];
    var g, c := Grouped(st.kicks[..n - 1], st.log), CallsOf(st.log, k);
    assert Grouped(st.kicks[..n], st.log) == g + Tagged(k, c);
    WiresTagged(g, k, c);
    if n == 1 {
      OpeningCalls(u, st, ops);
    } else {
      DialogueGrouped(u, st, ops, n - 1);
      assert c <= FullWire(st.typ, ops[st.kicks[n - 1]].op) && StreamJob(ops[st.kicks[n - 1]].op);
      OneCall(st.typ, ops[k].op, c);
    }
  }

  lemma OneCall(typ: StreamType, op: Op, c: seq<Wire>)
    requires StreamJob(op) && !typ.ClientStream? && c <= FullWire(typ, op)
    ensures c == if c == [] then [] else [Spoken(op)]
  {
  }

  /** A server or bidirectional stream in call order: the request (and a server stream's
      half-close), then each job's own call in Lua call order. */
  lemma DialogueLog(u: JobId, st: Stream, ops: seq<OpInfo>)
    requires StreamSound(u, st, ops) && !st.typ.ClientStream? && InCallOrder(st.log)
    ensures Wires(st.log) == [Msg(ops[u].op.req)] + (if st.typ.ServerStream? then [HalfClose] else []) + Dialogue(st, ops, |st.kicks|)
  {
    OrderedIsGrouped(st.kicks, st.log);
    DialogueGrouped(u, st, ops, |st.kicks|);
    hide CallsOf, FullWire, Dialogue;
    assert st.kicks[..|st.kicks|] == st.kicks;
  }
}
