/** The reference: the same program run against a local GPU. Handles are the program's variables;
    they never stop denoting their object, calls act at once on objects, and command buffers are the
    flat lists of calls made. No wire, no id tables that forget, no recordings, no staging. */
module Local {
  import opened Basics
  import opened Protocol
  import opened Codec
  import opened Gpu
  import opened Tables
  import opened Replay
  import opened Engine
  import opened EngineLaws
  import opened Recorder

  datatype CommandTrace = CommandTrace(name: Label, calls: seq<Call>)

  /** One client call, at the point where its action is enqueued. */
  datatype Op = Do(action: Action) | SubmitCalls(buffers: seq<CommandTrace>)

  function AllCalls(buffers: seq<CommandTrace>): seq<Call> {
    FlatMap((b: CommandTrace) => b.calls, buffers)
  }

  function OpRefs(dev: Device, op: Op): seq<ResourceId> {
    match op
    case Do(a) => Refs(dev, a)
    case SubmitCalls(buffers) => FlatMap(CallRefs, AllCalls(buffers))
  }

  function OpCreates(op: Op): Option<ResourceId> { if op.Do? then Creates(op.action) else None }

  function OpDestroys(op: Op): Option<ResourceId> {
    if op.Do? && op.action.Destroy? then Some(op.action.resource) else None
  }

  // ---- the local run ----

  datatype LocalState = LocalState(objects: Tables, gpu: GpuState)

  function LocalStart(): LocalState { LocalState(Empty(), GpuState(map[], map[], map[], [], [])) }

  function LocalStep(dev: Device, l: LocalState, op: Op): (LocalState, Response) {
    match op
    case SubmitCalls(buffers) =>
      (match ResolveAll(l.objects, AllCalls(buffers))
       case Err(e) => (l, e)
       case Ok(calls) => (l.(gpu := ExecAll(dev, l.gpu, calls)), Ack))
    case Do(a) =>
      if Creates(a).Some? then
        match Construct(l.objects, l.gpu, a)
        case Err(e) => (l, e)
        case Ok((g, o)) => (LocalState(Insert(l.objects, Creates(a).value, o), g), Ack)
      else LocalUse(dev, l, a)
  }

  function LocalUse(dev: Device, l: LocalState, a: Action): (LocalState, Response) {
    match a
    case WriteBuffer(id, offset, data) =>
      (match FindBuffer(l.objects, id)
       case Err(e) => (l, e)
       case Ok(b) => (l.(gpu := Exec(dev, l.gpu, GWriteBuffer(b, offset, data))), Ack))
    case WriteTexture(id, texels, data) =>
      (match FindTexture(l.objects, id)
       case Err(e) => (l, e)
       case Ok(x) => (l.(gpu := Exec(dev, l.gpu, GWriteTexture(x, texels, data))), Ack))
    case MapBufferForRead(id, offset, size) =>
      (match FindBuffer(l.objects, id)
       case Err(e) => (l, e)
       case Ok(b) =>
         match Peek(l.gpu.contents, b.serial, offset, size)
         case Some(data) => (l, BufferData(data))
         case None => (l, ErrorResponse(Internal, MapFailed)))
    case Hello(v) =>
      (l, if v != PROTOCOL_VERSION then ErrorResponse(ProtocolVersionMismatch, Versions(v, PROTOCOL_VERSION))
          else HelloAck(PROTOCOL_VERSION))
    case _ => (l, Ack)
  }

  function LocalRun(dev: Device, ops: seq<Op>): LocalState
    decreases |ops|
  {
    if ops == [] then LocalStart() else LocalStep(dev, LocalRun(dev, ops[..|ops| - 1]), ops[|ops| - 1]).0
  }

  /** What the program sees from a call made after `ops` when run locally. */
  function LocalAnswer(dev: Device, ops: seq<Op>, op: Op): Response { LocalStep(dev, LocalRun(dev, ops), op).1 }

  // ---- what a client puts on the wire ----

  /** The ids created so far, and those created and not yet destroyed. */
  function EverCreated(ops: seq<Op>): set<ResourceId>
    decreases |ops|
  {
    if ops == [] then {}
    else
      var op := ops[|ops| - 1];
      EverCreated(ops[..|ops| - 1]) + if OpCreates(op).Some? then {OpCreates(op).value} else {}
  }

  function Known(ops: seq<Op>): set<ResourceId>
    decreases |ops|
  {
    if ops == [] then {}
    else
      var op := ops[|ops| - 1];
      Known(ops[..|ops| - 1])
      + (if OpCreates(op).Some? then {OpCreates(op).value} else {})
      - (if OpDestroys(op).Some? then {OpDestroys(op).value} else {})
  }

  function EncodeBuffer(dev: Device, b: CommandTrace): Bytes {
    if !WellNested(b.calls) then []
    else
      match dev.recordings.encode(Recording(b.name, Nest(b.calls)))
      case None => []
      case Some(bytes) => bytes
  }

  /** The action a call ships: submissions as encoded nested recordings, everything else as it is. */
  function ToAction(dev: Device, op: Op): Action {
    match op
    case Do(a) => a
    case SubmitCalls(buffers) => Submit(seq(|buffers|, i requires 0 <= i < |buffers| => EncodeBuffer(dev, buffers[i])))
  }

  predicate Encodable(dev: Device, b: CommandTrace) {
    WellNested(b.calls) && dev.recordings.encode(Recording(b.name, Nest(b.calls))).Some?
  }

  /** A call the client API can make: anything, but submissions only of what the recorders made. */
  predicate Callable(op: Op) {
    match op
    case Do(a) => !a.Submit?
    case SubmitCalls(buffers) => forall b :: b in buffers ==> WellNested(b.calls)
  }

  /** A call that can be shipped: every recording of a submission can be serialized. */
  predicate Shippable(dev: Device, op: Op) {
    match op
    case Do(_) => true
    case SubmitCalls(buffers) => forall b :: b in buffers ==> Encodable(dev, b)
  }

  /** A call that is shipped and that the server supports. */
  predicate Servable(dev: Device, op: Op) {
    Callable(op) && Shippable(dev, op) && (op.Do? ==> Supported(dev, op.action))
  }

  predicate AllServable(dev: Device, ops: seq<Op>) { forall op :: op in ops ==> Servable(dev, op) }

  /** References are to live handles, created ids are new, destroyed ids were live. */
  predicate WellScoped(dev: Device, ops: seq<Op>, op: Op) {
    && (forall r :: r in OpRefs(dev, op) ==> r in Known(ops))
    && (OpCreates(op).Some? ==> OpCreates(op).value !in EverCreated(ops))
    && (OpDestroys(op).Some? ==> OpDestroys(op).value in Known(ops))
  }

  predicate LegalTrace(dev: Device, ops: seq<Op>)
    decreases |ops|
  {
    ops == []
    || (&& LegalTrace(dev, ops[..|ops| - 1])
        && Callable(ops[|ops| - 1])
        && WellScoped(dev, ops[..|ops| - 1], ops[|ops| - 1]))
  }

  // ---- the remote run of the same trace ----

  function EngineStart(): EngineState { EngineState(Empty(), GpuState(map[], map[], map[], [], [])) }

  function RemoteRun(dev: Device, ops: seq<Op>): EngineState
    decreases |ops|
  {
    if ops == [] then EngineStart()
    else Handle(dev, RemoteRun(dev, ops[..|ops| - 1]), ToAction(dev, ops[|ops| - 1])).0
  }

  function RemoteAnswer(dev: Device, ops: seq<Op>, op: Op): Response {
    Handle(dev, RemoteRun(dev, ops), ToAction(dev, op)).1
  }

  /** The server's tables hold every live handle's object, and the GPUs are in the same state with
      nothing staged. */
  ghost predicate Simulates(ops: seq<Op>, e: EngineState, l: LocalState) {
    && e.gpu == l.gpu && e.gpu.staged == []
    && (forall r :: r in Known(ops) ==> Lookup(e.tables, r).Some? && Lookup(e.tables, r) == Lookup(l.objects, r))
  }

  lemma KnownAfter(ops: seq<Op>, op: Op)
    ensures Known(ops + [op]) ==
      Known(ops) + (if OpCreates(op).Some? then {OpCreates(op).value} else {})
      - (if OpDestroys(op).Some? then {OpDestroys(op).value} else {})
    ensures EverCreated(ops + [op]) == EverCreated(ops) + if OpCreates(op).Some? then {OpCreates(op).value} else {}
  {
    assert (ops + [op])[..|ops|] == ops;
  }

  lemma {:induction false} KnownWasCreated(ops: seq<Op>, r: ResourceId)
    ensures r in Known(ops) ==> r in EverCreated(ops)
    decreases |ops|
  {
    if ops != [] { KnownWasCreated(ops[..|ops| - 1], r); }
  }

  /** Live handles agree between the two sides and none is missing on the server. */
  lemma RefsAgree(dev: Device, ops: seq<Op>, op: Op, e: EngineState, l: LocalState)
    requires Simulates(ops, e, l) && WellScoped(dev, ops, op)
    ensures Agree(e.tables, l.objects, OpRefs(dev, op))
    ensures FirstMissing(e.tables, OpRefs(dev, op)).None?
  {
    hide OpRefs;
    NoneMissing(e.tables, OpRefs(dev, op));
  }

  // ---- submissions ----

  lemma BufferDecodes(dev: Device, b: CommandTrace)
    requires Faithful(dev.recordings) && Encodable(dev, b)
    ensures dev.recordings.decode(EncodeBuffer(dev, b)) == Some(Recording(b.name, Nest(b.calls)))
    ensures CallsOfAll(Nest(b.calls)) == b.calls
    ensures RecordingRefs(dev, EncodeBuffer(dev, b)) == FlatMap(CallRefs, b.calls)
  {
    FlattenNest(b.calls);
  }

  lemma {:induction false} SubmittedAreCalls(dev: Device, buffers: seq<CommandTrace>)
    requires Faithful(dev.recordings) && (forall b :: b in buffers ==> Encodable(dev, b))
    ensures SubmittedCalls(dev, ToAction(dev, SubmitCalls(buffers)).recordings) == AllCalls(buffers)
  {
    var raws := ToAction(dev, SubmitCalls(buffers)).recordings;
    if buffers != [] {
      assert buffers[0] in buffers;
      BufferDecodes(dev, buffers[0]);
      SubmittedAreCalls(dev, buffers[1..]);
      assert raws[1..] == ToAction(dev, SubmitCalls(buffers[1..])).recordings;
    }
  }

  lemma {:induction false} AllCallsProper(dev: Device, buffers: seq<CommandTrace>)
    requires forall b :: b in buffers ==> Encodable(dev, b)
    ensures forall c :: c in AllCalls(buffers) ==> Proper(c)
  {
    if buffers != [] {
      assert buffers[0] in buffers;
      FlattenNest(buffers[0].calls);
      CallsProper(Nest(buffers[0].calls));
      AllCallsProper(dev, buffers[1..]);
    }
  }

  lemma {:induction false} RefsOfBuffer(buffers: seq<CommandTrace>, b: CommandTrace, r: ResourceId)
    requires b in buffers && r in FlatMap(CallRefs, b.calls)
    ensures r in FlatMap(CallRefs, AllCalls(buffers))
  {
    var f := (x: CommandTrace) => x.calls;
    assert AllCalls(buffers) == f(buffers[0]) + AllCalls(buffers[1..]);
    FlatMapAppend(CallRefs, buffers[0].calls, AllCalls(buffers[1..]));
    if buffers[0] != b {
      RefsOfBuffer(buffers[1..], b, r);
    }
  }

  lemma SubmitSimulates(dev: Device, ops: seq<Op>, buffers: seq<CommandTrace>, e: EngineState, l: LocalState)
    requires Faithful(dev.recordings)
    requires Simulates(ops, e, l) && Servable(dev, SubmitCalls(buffers)) && WellScoped(dev, ops, SubmitCalls(buffers))
    ensures var (e', r) := Handle(dev, e, ToAction(dev, SubmitCalls(buffers)));
      var (l', q) := LocalStep(dev, l, SubmitCalls(buffers));
      r == q && r == Ack && e'.gpu == l'.gpu && e'.gpu.staged == [] && e'.tables == e.tables && l'.objects == l.objects
  {
    var op := SubmitCalls(buffers);
    var raws := ToAction(dev, op).recordings;
    var calls := AllCalls(buffers);
    RefsAgree(dev, ops, op, e, l);
    forall raw | raw in raws ensures CanBuild(dev, e.tables, raw) {
      var i :| 0 <= i < |raws| && raws[i] == raw;
      assert buffers[i] in buffers;
      BufferDecodes(dev, buffers[i]);
      NoneMissing(e.tables, OpRefs(dev, op));
      NoneMissing(e.tables, RecordingRefs(dev, raw));
      forall r | r in RecordingRefs(dev, raw) ensures r in OpRefs(dev, op) {
        RefsOfBuffer(buffers, buffers[i], r);
      }
    }
    SubmitIsAtomic(dev, e, raws);
    SubmittedAreCalls(dev, buffers);
    AllCallsProper(dev, buffers);
    CallsAgree(e.tables, l.objects, calls);
    hide Handle, ResolveAll, ExecAll, SubmittedCalls, AllCalls, CanBuild;
    assert ToAction(dev, op) == Submit(raws);
    var resolved := ResolveAll(e.tables, calls).value;
    assert e.gpu.(staged := []) == e.gpu && e.gpu.staged + resolved == resolved;
    ExecKeepsStaged(dev, e.gpu, resolved);
  }

  // ---- everything else ----

  lemma CreateSimulates(dev: Device, ops: seq<Op>, a: Action, e: EngineState, l: LocalState)
    requires Simulates(ops, e, l) && Servable(dev, Do(a)) && WellScoped(dev, ops, Do(a)) && Creates(a).Some?
    ensures Handle(dev, e, a).1 == LocalStep(dev, l, Do(a)).1 == Ack
    ensures Simulates(ops + [Do(a)], Handle(dev, e, a).0, LocalStep(dev, l, Do(a)).0)
  {
    RefsAgree(dev, ops, Do(a), e, l);
    SupportedReachesAll(dev, a);
    ConstructAgrees(dev, e.tables, l.objects, e.gpu, a);
    ConstructStops(dev, e.tables, e.gpu, a);
    ConstructKeepsStaged(e.tables, e.gpu, a);
    KnownAfter(ops, Do(a));
    hide Refs, Reached, Construct, Known, EverCreated, Supported;
    var made := Construct(e.tables, e.gpu, a).value;
    forall r | r in Known(ops + [Do(a)])
      ensures var t, u := Handle(dev, e, a).0.tables, LocalStep(dev, l, Do(a)).0.objects;
        Lookup(t, r).Some? && Lookup(t, r) == Lookup(u, r)
    {
      hide Lookup, Insert;
      InsertLookup(e.tables, Creates(a).value, made.1, r);
      InsertLookup(l.objects, Creates(a).value, made.1, r);
    }
  }

  lemma ExecOne(dev: Device, g: GpuState, c: GpuCall)
    requires g.staged == []
    ensures QueueSubmit(dev, Stage(g, c), []) == Exec(dev, g, c)
    ensures Exec(dev, g, c).staged == []
  {
    hide Effect;
    assert [] + [c] + [] == [c] && [c][1..] == [];
    assert Stage(g, c).(staged := []) == g;
    assert ExecAll(dev, g, [c]) == ExecAll(dev, Exec(dev, g, c), [c][1..]);
  }

  predicate OnQueue(a: Action) { a.WriteBuffer? || a.WriteTexture? || a.MapBufferForRead? }

  lemma QueueSimulates(dev: Device, ops: seq<Op>, a: Action, e: EngineState, l: LocalState)
    requires Simulates(ops, e, l) && WellScoped(dev, ops, Do(a)) && OnQueue(a)
    ensures var (e', r) := HandleQueue(dev, e, a);
      var (l', q) := LocalUse(dev, l, a);
      r == q && e'.gpu == l'.gpu && e'.gpu.staged == [] && e'.tables == e.tables && l'.objects == l.objects
  {
    RefsAgree(dev, ops, Do(a), e, l);
    AgreeOnFirstTwo(e.tables, l.objects, Refs(dev, a));
    FewMissing(e.tables, Refs(dev, a));
    match a
    case WriteBuffer(id, offset, data) =>
      hide QueueSubmit, Exec, Stage;
      ExecOne(dev, e.gpu, GWriteBuffer(e.tables.buffers[id], offset, data));
    case WriteTexture(id, texels, data) =>
      hide QueueSubmit, Exec, Stage;
      ExecOne(dev, e.gpu, GWriteTexture(e.tables.textures[id], texels, data));
    case MapBufferForRead(_, _, _) =>
  }

  lemma UseSimulates(dev: Device, ops: seq<Op>, a: Action, e: EngineState, l: LocalState)
    requires Simulates(ops, e, l) && Servable(dev, Do(a)) && WellScoped(dev, ops, Do(a)) && Creates(a).None?
    ensures Handle(dev, e, a).1 == LocalStep(dev, l, Do(a)).1
    ensures Simulates(ops + [Do(a)], Handle(dev, e, a).0, LocalStep(dev, l, Do(a)).0)
  {
    hide HandleQueue, Lookup, RemoveBuffer, Construct, Supported, WellScoped;
    KnownAfter(ops, Do(a));
    hide Known, EverCreated;
    if OnQueue(a) {
      QueueSimulates(dev, ops, a, e, l);
    } else if a.Destroy? && a.resource.BufferR? {
      forall r | r in Known(ops + [Do(a)])
        ensures Lookup(RemoveBuffer(e.tables, a.resource.id), r) == Lookup(e.tables, r)
      {
        RemoveLookup(e.tables, a.resource.id, r);
      }
    }
  }

  /** One call has the same visible result on both sides and keeps them in step. */
  lemma StepSimulates(dev: Device, ops: seq<Op>, op: Op, e: EngineState, l: LocalState)
    requires Faithful(dev.recordings)
    requires Simulates(ops, e, l) && Servable(dev, op) && WellScoped(dev, ops, op)
    ensures Handle(dev, e, ToAction(dev, op)).1 == LocalStep(dev, l, op).1
    ensures Simulates(ops + [op], Handle(dev, e, ToAction(dev, op)).0, LocalStep(dev, l, op).0)
  {
    hide Handle, LocalStep, WellScoped;
    match op
    case Do(a) =>
      if Creates(a).Some? {
        CreateSimulates(dev, ops, a, e, l);
      } else {
        UseSimulates(dev, ops, a, e, l);
      }
    case SubmitCalls(buffers) =>
      SubmitSimulates(dev, ops, buffers, e, l);
      KnownAfter(ops, op);
      assert Known(ops + [op]) == Known(ops);
  }

  /** The server, running a legal trace it supports, stays in step with the local run. */
  lemma {:induction false} RunSimulates(dev: Device, ops: seq<Op>)
    requires Faithful(dev.recordings) && LegalTrace(dev, ops) && AllServable(dev, ops)
    ensures Simulates(ops, RemoteRun(dev, ops), LocalRun(dev, ops))
    decreases |ops|
  {
    hide Handle, LocalStep, Callable, Servable, WellScoped;
    if ops != [] {
      var less, op := ops[..|ops| - 1], ops[|ops| - 1];
      RunSimulates(dev, less);
      StepSimulates(dev, less, op, RemoteRun(dev, less), LocalRun(dev, less));
      assert less + [op] == ops;
    }
  }

  /** After such a trace a further call that the server supports gets the local answer, and no
      reference of it is found unknown. */
  lemma ServedAsLocally(dev: Device, ops: seq<Op>, op: Op)
    requires Faithful(dev.recordings) && LegalTrace(dev, ops) && AllServable(dev, ops)
    requires Servable(dev, op) && WellScoped(dev, ops, op)
    ensures RemoteAnswer(dev, ops, op) == LocalAnswer(dev, ops, op)
    ensures RemoteAnswer(dev, ops, op).ErrorResponse? ==> RemoteAnswer(dev, ops, op).code != UnknownResource
  {
    var e, l := RemoteRun(dev, ops), LocalRun(dev, ops);
    RunSimulates(dev, ops);
    StepSimulates(dev, ops, op, e, l);
    RefsAgree(dev, ops, op, e, l);
    match op
    case Do(a) =>
      hide Handle, Refs, Reached;
      SupportedReachesAll(dev, a);
      UnknownExactlyWhenMissing(dev, e, a);
    case SubmitCalls(buffers) =>
      hide Handle;
      SubmitSimulates(dev, ops, buffers, e, l);
  }

  lemma LegalAfter(dev: Device, ops: seq<Op>, op: Op)
    requires LegalTrace(dev, ops) && Callable(op) && WellScoped(dev, ops, op)
    ensures LegalTrace(dev, ops + [op])
  {
    hide Callable, WellScoped;
    assert (ops + [op])[..|ops|] == ops;
  }

  lemma {:induction false} LegalPrefix(dev: Device, ops: seq<Op>, i: nat)
    requires LegalTrace(dev, ops) && i < |ops|
    ensures LegalTrace(dev, ops[..i]) && Callable(ops[i]) && WellScoped(dev, ops[..i], ops[i])
    decreases |ops|
  {
    hide Callable, WellScoped;
    if i < |ops| - 1 {
      LegalPrefix(dev, ops[..|ops| - 1], i);
      assert ops[..|ops| - 1][..i] == ops[..i];
    }
  }
}
