/** What becomes of calls that fail. A creation fails when the client drops its frame, when the
    server does not support it, or when it refers to something whose own creation failed. Nobody is
    told; every later call that refers to the id finds it unknown, and changes nothing. Which ids
    have failed can be read off the calls alone, and apart from the calls this refuses the program
    runs as it does locally. */
module Failures {
  import opened Basics
  import opened Protocol
  import opened Codec
  import opened Gpu
  import opened Tables
  import opened Replay
  import opened Engine
  import opened EngineLaws
  import opened Recorder
  import opened Local

  /** `sent[i]`: the frame of the `i`-th call went into the inbox. */
  predicate Shipped(dev: Device, ops: seq<Op>, sent: seq<bool>) {
    |sent| == |ops| && forall i :: 0 <= i < |ops| && sent[i] ==> Shippable(dev, ops[i])
  }

  /** The calls that reach the wire. */
  function Wire(ops: seq<Op>, sent: seq<bool>): seq<Op>
    requires |sent| == |ops|
    decreases |ops|
  {
    if ops == [] then []
    else
      var n := |ops| - 1;
      Wire(ops[..n], sent[..n]) + if sent[n] then [ops[n]] else []
  }

  function OpReached(dev: Device, op: Op): seq<ResourceId> {
    match op
    case Do(a) => Reached(dev, a)
    case SubmitCalls(_) => OpRefs(dev, op)
  }

  predicate OpSupported(dev: Device, op: Op) { op.Do? ==> Supported(dev, op.action) }

  function FirstFailed(failed: set<ResourceId>, refs: seq<ResourceId>): Option<ResourceId> {
    if refs == [] then None
    else if refs[0] in failed then Some(refs[0])
    else FirstFailed(failed, refs[1..])
  }

  /** What a call is told when it cannot take effect. */
  function Refusal(dev: Device, failed: set<ResourceId>, op: Op): Option<Response> {
    match FirstFailed(failed, OpReached(dev, op))
    case Some(r) => Some(UnknownId(r))
    case None => if OpSupported(dev, op) then None else Some(Rejection(op.action))
  }

  /** The ids whose creation failed. */
  function Failed(dev: Device, ops: seq<Op>, sent: seq<bool>): set<ResourceId>
    requires |sent| == |ops|
    decreases |ops|
  {
    if ops == [] then {}
    else
      var n := |ops| - 1;
      var before := Failed(dev, ops[..n], sent[..n]);
      before + if OpCreates(ops[n]).Some? && (!sent[n] || Refusal(dev, before, ops[n]).Some?)
               then {OpCreates(ops[n]).value} else {}
  }

  /** Destroying what was never made. */
  predicate Hollow(failed: set<ResourceId>, op: Op) { OpDestroys(op).Some? && OpDestroys(op).value in failed }

  predicate TakesEffect(dev: Device, failed: set<ResourceId>, sent: bool, op: Op) {
    sent && Refusal(dev, failed, op).None? && !Hollow(failed, op)
  }

  /** The calls that take effect. */
  function Effective(dev: Device, ops: seq<Op>, sent: seq<bool>): seq<Op>
    requires |sent| == |ops|
    decreases |ops|
  {
    if ops == [] then []
    else
      var n := |ops| - 1;
      var before := Failed(dev, ops[..n], sent[..n]);
      Effective(dev, ops[..n], sent[..n]) + if TakesEffect(dev, before, sent[n], ops[n]) then [ops[n]] else []
  }

  // ---- the calls that take effect are a legal trace the server supports ----

  lemma {:induction false} NoneFailed(failed: set<ResourceId>, refs: seq<ResourceId>)
    ensures FirstFailed(failed, refs).None? <==> forall r :: r in refs ==> r !in failed
    ensures FirstFailed(failed, refs).Some? ==> FirstFailed(failed, refs).value in failed
  {
    if refs != [] {
      NoneFailed(failed, refs[1..]);
      assert forall r :: r in refs <==> r == refs[0] || r in refs[1..];
    }
  }

  /** A call is refused exactly when it is unsupported or any of its references has failed. */
  lemma RefusedExactlyWhen(dev: Device, failed: set<ResourceId>, op: Op)
    ensures Refusal(dev, failed, op).Some? <==>
      !OpSupported(dev, op) || exists r :: r in OpRefs(dev, op) && r in failed
    ensures FirstFailed(failed, OpReached(dev, op)).Some? ==> exists r :: r in OpRefs(dev, op) && r in failed
  {
    NoneFailed(failed, OpReached(dev, op));
    match op
    case Do(a) =>
      if Supported(dev, a) { SupportedReachesAll(dev, a); }
      forall r | r in Reached(dev, a) ensures r in Refs(dev, a) { ReachedAreRefs(dev, a, r); }
      hide Reached, Refs, Supported;
    case SubmitCalls(_) =>
      hide AllCalls;
  }

  ghost predicate EffectiveInv(dev: Device, ops: seq<Op>, failed: set<ResourceId>, done: seq<Op>) {
    && LegalTrace(dev, done) && AllServable(dev, done)
    && EverCreated(done) <= EverCreated(ops) && failed <= EverCreated(ops)
    && EverCreated(done) !! failed
    && Known(ops) - failed <= Known(done)
  }

  lemma {:induction false} EffectiveIsLegal(dev: Device, ops: seq<Op>, sent: seq<bool>)
    requires LegalTrace(dev, ops) && Shipped(dev, ops, sent)
    ensures EffectiveInv(dev, ops, Failed(dev, ops, sent), Effective(dev, ops, sent))
    decreases |ops|
  {
    if ops != [] {
      var n := |ops| - 1;
      hide EffectiveInv, WellScoped, Callable, Shippable, Refusal, TakesEffect, OpCreates;
      EffectiveIsLegal(dev, ops[..n], sent[..n]);
      var failed, done := Failed(dev, ops[..n], sent[..n]), Effective(dev, ops[..n], sent[..n]);
      assert ops[..n] + [ops[n]] == ops;
      if TakesEffect(dev, failed, sent[n], ops[n]) {
        EffectStep(dev, ops[..n], failed, done, ops[n]);
      } else {
        DropStep(dev, ops[..n], failed, done, ops[n]);
        HollowCreatesNothing(dev, failed, sent[n], ops[n]);
      }
      assert done + [] == done && failed + {} == failed;
    }
  }

  lemma HollowCreatesNothing(dev: Device, failed: set<ResourceId>, sent: bool, op: Op)
    requires !TakesEffect(dev, failed, sent, op)
    ensures !sent || Refusal(dev, failed, op).Some? || OpCreates(op).None?
  {
    hide Refusal;
  }

  /** A call that takes effect refers only to what took effect before it. */
  lemma EffectStep(dev: Device, ops: seq<Op>, failed: set<ResourceId>, done: seq<Op>, op: Op)
    requires EffectiveInv(dev, ops, failed, done) && WellScoped(dev, ops, op) && Callable(op) && Shippable(dev, op)
    requires TakesEffect(dev, failed, true, op)
    ensures EffectiveInv(dev, ops + [op], failed, done + [op])
    ensures Servable(dev, op) && WellScoped(dev, done, op)
  {
    KnownAfter(ops, op);
    KnownAfter(done, op);
    RefusedExactlyWhen(dev, failed, op);
    assert Servable(dev, op) && WellScoped(dev, done, op) by {
      hide Known, EverCreated, OpRefs, Refusal, LegalTrace, Callable;
    }
    hide Known, EverCreated, OpRefs, Refusal, LegalTrace, Servable, Callable, WellScoped;
    LegalAfter(dev, done, op);
  }

  /** A call without effect leaves at most one more id failed. */
  lemma DropStep(dev: Device, ops: seq<Op>, failed: set<ResourceId>, done: seq<Op>, op: Op)
    requires EffectiveInv(dev, ops, failed, done) && WellScoped(dev, ops, op)
    ensures OpCreates(op).Some? ==> EffectiveInv(dev, ops + [op], failed + {OpCreates(op).value}, done)
    ensures OpCreates(op).None? ==> EffectiveInv(dev, ops + [op], failed, done)
  {
    KnownAfter(ops, op);
    hide Known, EverCreated, OpRefs, LegalTrace, AllServable;
  }

  // ---- on the server ----

  lemma HandleInserts(dev: Device, st: EngineState, a: Action, r: ResourceId)
    requires Lookup(Handle(dev, st, a).0.tables, r).Some?
    ensures Lookup(st.tables, r).Some? || Creates(a) == Some(r)
  {
    hide Construct, QueueSubmit, BuildSubmission;
    if Creates(a).Some? && Construct(st.tables, st.gpu, a).Ok? {
      InsertLookup(st.tables, Creates(a).value, Construct(st.tables, st.gpu, a).value.1, r);
      hide Lookup, Insert;
    } else if a.Destroy? && a.resource.BufferR? {
      RemoveLookup(st.tables, a.resource.id, r);
      hide Lookup, RemoveBuffer;
    }
  }

  lemma {:induction false} TablesHoldCreated(dev: Device, ops: seq<Op>, r: ResourceId)
    requires Lookup(RemoteRun(dev, ops).tables, r).Some?
    ensures r in EverCreated(ops)
    decreases |ops|
  {
    if ops != [] {
      var less, op := ops[..|ops| - 1], ops[|ops| - 1];
      hide Handle, Lookup;
      HandleInserts(dev, RemoteRun(dev, less), ToAction(dev, op), r);
      if Lookup(RemoteRun(dev, less).tables, r).Some? { TablesHoldCreated(dev, less, r); }
    }
  }

  /** Among live handles, the server misses exactly those whose creation failed. */
  lemma {:induction false} MissingIsFailed(
      dev: Device, ops: seq<Op>, failed: set<ResourceId>, done: seq<Op>, refs: seq<ResourceId>)
    requires Faithful(dev.recordings) && EffectiveInv(dev, ops, failed, done)
    requires forall r :: r in refs ==> r in Known(ops)
    ensures FirstMissing(RemoteRun(dev, done).tables, refs) == FirstFailed(failed, refs)
  {
    if refs != [] {
      hide Lookup, Known, EverCreated, LegalTrace, AllServable;
      assert refs[0] in refs;
      MissingIsFailed(dev, ops, failed, done, refs[1..]);
      RunSimulates(dev, done);
      if Lookup(RemoteRun(dev, done).tables, refs[0]).Some? { TablesHoldCreated(dev, done, refs[0]); }
    }
  }

  lemma {:induction false} ShippedRefs(dev: Device, buffers: seq<CommandTrace>)
    requires Faithful(dev.recordings) && Shippable(dev, SubmitCalls(buffers))
    ensures var a := ToAction(dev, SubmitCalls(buffers));
      Supported(dev, a) && Reached(dev, a) == OpRefs(dev, SubmitCalls(buffers))
  {
    var a := ToAction(dev, SubmitCalls(buffers));
    forall raw | raw in a.recordings ensures Decodes(dev, raw) {
      var i :| 0 <= i < |buffers| && a.recordings[i] == raw;
      assert buffers[i] in buffers;
      BufferDecodes(dev, buffers[i]);
    }
    SupportedReachesAll(dev, a);
    RefsAreShipped(dev, buffers);
  }

  lemma {:induction false} RefsAreShipped(dev: Device, buffers: seq<CommandTrace>)
    requires Faithful(dev.recordings) && Shippable(dev, SubmitCalls(buffers))
    ensures Refs(dev, ToAction(dev, SubmitCalls(buffers))) == OpRefs(dev, SubmitCalls(buffers))
  {
    hide RecordingRefs, WellNested, Nest, CallRefs, EncodeBuffer, Encodable, CallsOfAll;
    if buffers != [] {
      var raws := ToAction(dev, SubmitCalls(buffers)).recordings;
      var f, g := raw => RecordingRefs(dev, raw), (b: CommandTrace) => b.calls;
      assert buffers[0] in buffers;
      BufferDecodes(dev, buffers[0]);
      RefsAreShipped(dev, buffers[1..]);
      assert raws[1..] == ToAction(dev, SubmitCalls(buffers[1..])).recordings;
      assert FlatMap(f, raws) == f(raws[0]) + FlatMap(f, raws[1..]);
      assert AllCalls(buffers) == g(buffers[0]) + AllCalls(buffers[1..]);
      FlatMapAppend(CallRefs, buffers[0].calls, AllCalls(buffers[1..]));
    }
  }

  lemma ActionReaches(dev: Device, op: Op)
    requires Faithful(dev.recordings) && Callable(op) && Shippable(dev, op)
    ensures var a := ToAction(dev, op);
      && Reached(dev, a) == OpReached(dev, op) && (Supported(dev, a) <==> OpSupported(dev, op))
      && (OpSupported(dev, op) || Rejection(a) == Rejection(op.action))
  {
    if op.SubmitCalls? { ShippedRefs(dev, op.buffers); }
    hide Reached, Supported, OpRefs;
  }

  /** A call that is sent but refused changes nothing and is told why. */
  lemma RefusedOnTheServer(dev: Device, ops: seq<Op>, failed: set<ResourceId>, done: seq<Op>, op: Op)
    requires Faithful(dev.recordings) && EffectiveInv(dev, ops, failed, done)
    requires WellScoped(dev, ops, op) && Callable(op) && Shippable(dev, op)
    ensures match Refusal(dev, failed, op)
      case Some(r) => Handle(dev, RemoteRun(dev, done), ToAction(dev, op)) == (RemoteRun(dev, done), r)
      case None => true
  {
    forall r | r in OpReached(dev, op) ensures r in Known(ops) { ReachedIsKnown(dev, ops, op, r); }
    hide EffectiveInv, OpReached, Reached, Supported, Callable, Shippable, ToAction, Handle, WellScoped;
    MissingIsFailed(dev, ops, failed, done, OpReached(dev, op));
    ActionReaches(dev, op);
    UnknownExactlyWhenMissing(dev, RemoteRun(dev, done), ToAction(dev, op));
  }

  lemma ReachedIsKnown(dev: Device, ops: seq<Op>, op: Op, r: ResourceId)
    requires WellScoped(dev, ops, op) && r in OpReached(dev, op)
    ensures r in Known(ops)
  {
    if op.Do? { ReachedAreRefs(dev, op.action, r); }
    hide Reached, Refs, Known;
    assert r in OpRefs(dev, op);
  }

  lemma DestroyNothing(dev: Device, st: EngineState, r: ResourceId)
    requires Lookup(st.tables, r).None?
    ensures Handle(dev, st, Destroy(r)) == (st, Ack)
  {
    if r.BufferR? { assert st.tables.buffers - {r.id} == st.tables.buffers; }
  }

  lemma HollowOnTheServer(dev: Device, ops: seq<Op>, failed: set<ResourceId>, done: seq<Op>, op: Op)
    requires EffectiveInv(dev, ops, failed, done) && Hollow(failed, op)
    ensures Handle(dev, RemoteRun(dev, done), ToAction(dev, op)) == (RemoteRun(dev, done), Ack)
  {
    hide RemoteRun, LegalTrace, AllServable, Known, EverCreated, Handle, Lookup;
    var r := OpDestroys(op).value;
    if Lookup(RemoteRun(dev, done).tables, r).Some? { TablesHoldCreated(dev, done, r); }
    DestroyNothing(dev, RemoteRun(dev, done), r);
  }

  lemma RunOneMore(dev: Device, ops: seq<Op>, op: Op)
    ensures RemoteRun(dev, ops + [op]) == Handle(dev, RemoteRun(dev, ops), ToAction(dev, op)).0
  {
    hide Handle, ToAction;
    assert (ops + [op])[..|ops|] == ops;
  }

  /** A call that is sent changes the server only by taking effect. */
  lemma SentStep(dev: Device, ops: seq<Op>, failed: set<ResourceId>, done: seq<Op>, op: Op)
    requires Faithful(dev.recordings) && EffectiveInv(dev, ops, failed, done)
    requires WellScoped(dev, ops, op) && Callable(op) && Shippable(dev, op)
    ensures Handle(dev, RemoteRun(dev, done), ToAction(dev, op)).0
      == RemoteRun(dev, done + if TakesEffect(dev, failed, true, op) then [op] else [])
  {
    hide Handle, ToAction, Refusal, EffectiveInv, WellScoped, Callable, Shippable, RemoteRun, Hollow;
    RunOneMore(dev, done, op);
    RefusedOnTheServer(dev, ops, failed, done, op);
    if Hollow(failed, op) { HollowOnTheServer(dev, ops, failed, done, op); }
    assert done + [] == done;
  }

  /** The server's state is the one it has after the calls that took effect alone. */
  lemma {:induction false} WireRunsEffective(dev: Device, ops: seq<Op>, sent: seq<bool>)
    requires Faithful(dev.recordings) && LegalTrace(dev, ops) && Shipped(dev, ops, sent)
    ensures RemoteRun(dev, Wire(ops, sent)) == RemoteRun(dev, Effective(dev, ops, sent))
    decreases |ops|
  {
    hide Handle, ToAction, Refusal, EffectiveInv, WellScoped, Callable, Shippable, RemoteRun, TakesEffect;
    if ops != [] {
      var n := |ops| - 1;
      WireRunsEffective(dev, ops[..n], sent[..n]);
      var failed, done := Failed(dev, ops[..n], sent[..n]), Effective(dev, ops[..n], sent[..n]);
      var wire := Wire(ops[..n], sent[..n]);
      if sent[n] {
        EffectiveIsLegal(dev, ops[..n], sent[..n]);
        RunOneMore(dev, wire, ops[n]);
        SentStep(dev, ops[..n], failed, done, ops[n]);
      } else {
        assert !TakesEffect(dev, failed, sent[n], ops[n]) by { UnsentHasNoEffect(dev, failed, ops[n]); }
        assert wire + [] == wire && done + [] == done;
      }
    }
  }

  lemma UnsentHasNoEffect(dev: Device, failed: set<ResourceId>, op: Op)
    ensures !TakesEffect(dev, failed, false, op)
  {
  }

  /** What a remote run means. Whatever was dropped, unsupported or built on something that was, the
      next call that reaches the server is either refused, with the error that can be read off the
      calls, or gets the answer it gets when the program made of the calls that took effect is run
      locally. It reports an unknown resource if and only if a reference it gets to has failed. */
  lemma RemoteMeansLocal(dev: Device, ops: seq<Op>, sent: seq<bool>, op: Op)
    requires Faithful(dev.recordings) && LegalTrace(dev, ops) && Shipped(dev, ops, sent)
    requires Callable(op) && WellScoped(dev, ops, op) && Shippable(dev, op)
    ensures var failed := Failed(dev, ops, sent);
      var r := RemoteAnswer(dev, Wire(ops, sent), op);
      && r == (match Refusal(dev, failed, op)
               case Some(e) => e
               case None => LocalAnswer(dev, Effective(dev, ops, sent), op))
      && ((r.ErrorResponse? && r.code == UnknownResource) <==> FirstFailed(failed, OpReached(dev, op)).Some?)
  {
    hide Handle, ToAction, EffectiveInv, WellScoped, Callable, Shippable, RemoteRun, OpReached, LocalStep, LocalRun,
      OpSupported;
    var failed, done := Failed(dev, ops, sent), Effective(dev, ops, sent);
    EffectiveIsLegal(dev, ops, sent);
    WireRunsEffective(dev, ops, sent);
    RefusedOnTheServer(dev, ops, failed, done, op);
    if Refusal(dev, failed, op).None? {
      if Hollow(failed, op) {
        HollowOnTheServer(dev, ops, failed, done, op);
        DestroyIsAcked(dev, done, op);
      } else {
        EffectStep(dev, ops, failed, done, op);
        EffectiveServes(dev, ops, failed, done);
        ServedAsLocally(dev, done, op);
      }
    } else {
      RejectionIsNotUnknown(op);
    }
  }

  lemma EffectiveServes(dev: Device, ops: seq<Op>, failed: set<ResourceId>, done: seq<Op>)
    requires EffectiveInv(dev, ops, failed, done)
    ensures LegalTrace(dev, done) && AllServable(dev, done)
  {
    hide LegalTrace, AllServable, Known, EverCreated;
  }

  lemma DestroyIsAcked(dev: Device, done: seq<Op>, op: Op)
    requires OpDestroys(op).Some?
    ensures LocalAnswer(dev, done, op) == Ack
  {
    hide LocalRun;
  }

  lemma RejectionIsNotUnknown(op: Op)
    ensures op.Do? ==> Rejection(op.action).code != UnknownResource
  {
  }

  // ---- when nothing fails, and an input where something does ----

  /** With every call sent and supported, nothing fails and every call takes effect. */
  lemma {:induction false} NothingFails(dev: Device, ops: seq<Op>, sent: seq<bool>)
    requires LegalTrace(dev, ops) && |sent| == |ops|
    requires forall i :: 0 <= i < |ops| ==> sent[i] && OpSupported(dev, ops[i])
    ensures Failed(dev, ops, sent) == {} && Effective(dev, ops, sent) == ops && Wire(ops, sent) == ops
    decreases |ops|
  {
    if ops != [] {
      var n := |ops| - 1;
      hide OpReached, LegalTrace, OpSupported;
      NothingFails(dev, ops[..n], sent[..n]) by { LegalPrefix(dev, ops, n); }
      NoneFailed({}, OpReached(dev, ops[n]));
      assert ops[..n] + [ops[n]] == ops;
    }
  }

  const SPIRV: Action := CreateShaderModule(1, ShaderModuleDescriptor(None, SpirV([])))

  const ON_SPIRV: Action := CreateComputePipeline(1, ComputePipelineDescriptor(None, None, 1, None, ""))

  lemma SpirvIsLegal(dev: Device)
    ensures LegalTrace(dev, [Do(SPIRV)]) && WellScoped(dev, [Do(SPIRV)], Do(ON_SPIRV))
    ensures LegalTrace(dev, [Do(SPIRV), Do(ON_SPIRV)])
  {
    var ops, op := [Do(SPIRV)], Do(ON_SPIRV);
    KnownAfter([], ops[0]);
    assert [] + ops == ops && ops + [op] == [Do(SPIRV), Do(ON_SPIRV)];
    assert OpRefs(dev, op) == [ShaderModuleR(1)];
    assert WellScoped(dev, [], ops[0]) && WellScoped(dev, ops, op);
    hide WellScoped;
    LegalAfter(dev, [], ops[0]);
    LegalAfter(dev, ops, op);
  }

  lemma SpirvFails(dev: Device)
    ensures Refusal(dev, {}, Do(SPIRV)) == Some(UNSUPPORTED)
    ensures Refusal(dev, {ShaderModuleR(1)}, Do(ON_SPIRV)) == Some(UnknownId(ShaderModuleR(1)))
    ensures Failed(dev, [Do(SPIRV)], [true]) == {ShaderModuleR(1)}
  {
    assert [Do(SPIRV)][..0] == [] && [true][..0] == [];
    assert OpReached(dev, Do(SPIRV)) == [] && OpReached(dev, Do(ON_SPIRV)) == [ShaderModuleR(1)];
  }

  /** A shader given as SPIR-V is accepted by the client and rejected by the server; the pipeline made
      of it, a legal call on a live handle, then finds it unknown. */
  lemma SpirvShaderIsLost(dev: Device)
    requires Faithful(dev.recordings)
    ensures LegalTrace(dev, [Do(SPIRV), Do(ON_SPIRV)])
    ensures RemoteAnswer(dev, Wire([], []), Do(SPIRV)) == UNSUPPORTED
    ensures RemoteAnswer(dev, Wire([Do(SPIRV)], [true]), Do(ON_SPIRV)) == UnknownId(ShaderModuleR(1))
  {
    SpirvIsLegal(dev);
    SpirvFails(dev);
    assert LegalTrace(dev, []) && WellScoped(dev, [], Do(SPIRV));
    hide LegalTrace, WellScoped, RemoteAnswer, Refusal, OpReached, Effective, Wire, LocalAnswer;
    assert Failed(dev, [], []) == {};
    hide Failed;
    RemoteMeansLocal(dev, [], [], Do(SPIRV));
    RemoteMeansLocal(dev, [Do(SPIRV)], [true], Do(ON_SPIRV));
  }
}
