/** What each action does, action by action: what ids stand for afterwards, what is answered, which
    calls reach the GPU, and how its objects are named. */
module Actions {
  import opened Basics
  import opened Protocol
  import opened Gpu
  import opened Tables
  import opened Replay
  import opened Engine
  import opened EngineLaws
  import opened Parts
  import opened Local
  import opened Failures

  // ---- one action ----

  /** Whether the server can do it: it knows everything the action refers to and supports it. */
  predicate Doable(dev: Device, t: Tables, a: Action) {
    FirstMissing(t, Reached(dev, a)).None? && Supported(dev, a)
  }

  /** Creating gives an id the object asked for, destroying a buffer takes its id away, and nothing
      else changes what an id stands for. */
  lemma TablesAfter(dev: Device, st: EngineState, a: Action, q: ResourceId)
    ensures var t := Handle(dev, st, a).0.tables;
      if a == Destroy(q) && q.BufferR? then Lookup(t, q).None?
      else if Creates(a) == Some(q) && Doable(dev, st.tables, a) then
        Lookup(t, q).Some? && SameFields(st.tables, a, Lookup(t, q).value)
      else Lookup(t, q) == Lookup(st.tables, q)
  {
    hide Construct, HandleQueue, Reached, Supported, SameFields, Lookup, Insert, RemoveBuffer, Rejection;
    if Creates(a).Some? {
      ConstructStops(dev, st.tables, st.gpu, a);
      var made := Construct(st.tables, st.gpu, a);
      if made.Ok? {
        ObjectsAreAsAsked(st.tables, st.gpu, a);
        InsertLookup(st.tables, Creates(a).value, made.value.1, q);
      }
    } else if a.Destroy? && a.resource.BufferR? {
      RemoveLookup(st.tables, a.resource.id, q);
    } else {
      QueueKeepsTables(dev, st, a);
    }
  }

  lemma QueueKeepsTables(dev: Device, st: EngineState, a: Action)
    requires Creates(a).None? && !(a.Destroy? && a.resource.BufferR?)
    ensures Handle(dev, st, a).0.tables == st.tables
  {
    hide Construct, BuildSubmission, QueueSubmit;
  }

  /** The object made is in the table of its type, under the id its action gave. */
  ghost predicate StoredAsAsked(before: Tables, t: Tables, a: Action) {
    match a
    case CreateBuffer(id, _) => id in t.buffers && SameFields(before, a, BufferObject(t.buffers[id]))
    case CreateTexture(id, _) => id in t.textures && SameFields(before, a, TextureObject(t.textures[id]))
    case CreateTextureView(id, _, _) =>
      id in t.textureViews && SameFields(before, a, TextureViewObject(t.textureViews[id]))
    case CreateSampler(id, _) => id in t.samplers && SameFields(before, a, SamplerObject(t.samplers[id]))
    case CreateShaderModule(id, _) =>
      id in t.shaderModules && SameFields(before, a, ShaderModuleObject(t.shaderModules[id]))
    case CreateBindGroupLayout(id, _) =>
      id in t.bindGroupLayouts && SameFields(before, a, BindGroupLayoutObject(t.bindGroupLayouts[id]))
    case CreateBindGroup(id, _) => id in t.bindGroups && SameFields(before, a, BindGroupObject(t.bindGroups[id]))
    case CreatePipelineLayout(id, _) =>
      id in t.pipelineLayouts && SameFields(before, a, PipelineLayoutObject(t.pipelineLayouts[id]))
    case CreateRenderPipeline(id, _) =>
      id in t.renderPipelines && SameFields(before, a, RenderPipelineObject(t.renderPipelines[id]))
    case CreateComputePipeline(id, _) =>
      id in t.computePipelines && SameFields(before, a, ComputePipelineObject(t.computePipelines[id]))
    case DeriveRenderBgl(_, _, id) =>
      id in t.bindGroupLayouts && SameFields(before, a, BindGroupLayoutObject(t.bindGroupLayouts[id]))
    case DeriveComputeBgl(_, _, id) =>
      id in t.bindGroupLayouts && SameFields(before, a, BindGroupLayoutObject(t.bindGroupLayouts[id]))
    case _ => forall q: ResourceId :: !q.BufferR? ==> Lookup(t, q) == Lookup(before, q)
  }

  /** Every creation that can be done puts the object asked for where it was asked for; every other
      action leaves all tables but that of buffers alone. */
  lemma CreatedWhereAsked(dev: Device, st: EngineState, a: Action)
    requires Doable(dev, st.tables, a)
    ensures StoredAsAsked(st.tables, Handle(dev, st, a).0.tables, a)
  {
    hide Handle, Reached, Supported, SameFields;
    match Creates(a)
    case Some(r) => TablesAfter(dev, st, a, r);
    case None =>
      forall q: ResourceId | !q.BufferR?
        ensures Lookup(Handle(dev, st, a).0.tables, q) == Lookup(st.tables, q)
      {
        TablesAfter(dev, st, a, q);
      }
  }

  /** What a read of a buffer answers: its bytes at that place, or that the map failed. */
  predicate Reads(m: Contents, s: Serial, offset: nat, size: nat, r: Response) {
    if s in m && offset + size <= |m[s]| then
      r.BufferData? && |r.data| == size && forall i :: 0 <= i < size ==> r.data[i] == m[s][offset + i]
    else r == ErrorResponse(Internal, MapFailed)
  }

  /** The answer to an action that can be done. */
  lemma AnsweredExactly(dev: Device, st: EngineState, a: Action)
    requires Doable(dev, st.tables, a)
    ensures var r := Handle(dev, st, a).1;
      match a
      case Hello(v) =>
        if v == PROTOCOL_VERSION then r == HelloAck(v)
        else r == ErrorResponse(ProtocolVersionMismatch, Versions(v, PROTOCOL_VERSION))
      case MapBufferForRead(id, offset, size) =>
        id in st.tables.buffers && Reads(st.gpu.contents, st.tables.buffers[id].serial, offset, size, r)
      case _ => r == Ack
  {
    hide Construct, BuildSubmission, QueueSubmit;
    if Creates(a).Some? {
      ConstructStops(dev, st.tables, st.gpu, a);
      hide Reached, Supported, Rejection;
    } else if a.Submit? {
      SubmitStops(dev, st.tables, a.recordings);
      hide Reached, Supported, Rejection;
    } else {
      FewMissing(st.tables, Refs(dev, a));
    }
  }

  /** An action that cannot be done changes nothing and says why: the first thing it gets to that is
      unknown, or what is wrong with it. */
  lemma RefusedExactly(dev: Device, st: EngineState, a: Action)
    requires !Doable(dev, st.tables, a)
    ensures Handle(dev, st, a) == (st,
      match FirstMissing(st.tables, Reached(dev, a))
      case Some(m) => ErrorResponse(UnknownResource, Unknown(m))
      case None => ErrorResponse(InvalidArgument, if a.Submit? then BadRecording else Unsupported))
  {
    hide Handle, Reached, Supported;
    UnknownExactlyWhenMissing(dev, st, a);
  }

  predicate OnQueue(a: Action) { a.WriteBuffer? || a.WriteTexture? || a.Submit? }

  /** The calls an action makes on the queue, as the program made them, on the objects its ids stand for. */
  predicate Queues(dev: Device, t: Tables, a: Action, calls: seq<GpuCall>)
    requires OnQueue(a)
  {
    match a
    case WriteBuffer(id, offset, data) =>
      id in t.buffers && calls == [GWriteBuffer(t.buffers[id], offset, data)]
    case WriteTexture(id, texels, data) =>
      id in t.textures && calls == [GWriteTexture(t.textures[id], texels, data)]
    case Submit(recordings) => MadeOn(t, SubmittedCalls(dev, recordings), calls)
  }

  lemma SubmissionIsMade(dev: Device, st: EngineState, recordings: seq<Bytes>)
    requires Doable(dev, st.tables, Submit(recordings))
    ensures var calls := ResolveAll(st.tables, SubmittedCalls(dev, recordings));
      && calls.Ok? && MadeOn(st.tables, SubmittedCalls(dev, recordings), calls.value)
      && Handle(dev, st, Submit(recordings)).0.gpu
         == ExecAll(dev, st.gpu.(staged := []), st.gpu.staged + calls.value)
  {
    hide BuildSubmission, ResolveAll, ExecAll, CanBuild, SubmittedCalls, Reached, Supported, MadeOn;
    SubmitStops(dev, st.tables, recordings);
    assert Handle(dev, st, Submit(recordings)).1 == Ack;
    SubmitIsAtomic(dev, st, recordings);
    hide Handle;
    ResolvedCallsAreMade(st.tables, SubmittedCalls(dev, recordings));
  }

  lemma WriteIsMade(dev: Device, st: EngineState, a: Action) returns (call: GpuCall)
    requires (a.WriteBuffer? || a.WriteTexture?) && Doable(dev, st.tables, a)
    ensures Queues(dev, st.tables, a, [call])
    ensures Handle(dev, st, a).0.gpu == ExecAll(dev, st.gpu.(staged := []), st.gpu.staged + [call])
  {
    hide Exec, ExecAll, BuildSubmission, MadeOn, RecordingRefs, Construct;
    FewMissing(st.tables, Refs(dev, a));
    if a.WriteBuffer? {
      call := GWriteBuffer(st.tables.buffers[a.target], a.offset, a.data);
    } else {
      call := GWriteTexture(st.tables.textures[a.targetTexture], a.texels, a.data);
    }
    assert st.gpu.staged + [call] + [] == st.gpu.staged + [call];
  }

  /** Writes and submissions run, after what was staged, exactly the calls they stand for. */
  lemma QueueRuns(dev: Device, st: EngineState, a: Action) returns (calls: seq<GpuCall>)
    requires OnQueue(a) && Doable(dev, st.tables, a)
    ensures Queues(dev, st.tables, a, calls)
    ensures var g := Handle(dev, st, a).0.gpu;
      g == ExecAll(dev, st.gpu.(staged := []), st.gpu.staged + calls) && g.log == st.gpu.log + st.gpu.staged + calls
  {
    hide Handle, ExecAll, MadeOn, ResolveAll, SubmittedCalls, Doable;
    if a.Submit? {
      SubmissionIsMade(dev, st, a.recordings);
      calls := ResolveAll(st.tables, SubmittedCalls(dev, a.recordings)).value;
    } else {
      var call := WriteIsMade(dev, st, a);
      calls := [call];
    }
    ExecLog(dev, st.gpu.(staged := []), st.gpu.staged + calls);
    assert st.gpu.log + st.gpu.staged + calls == st.gpu.log + (st.gpu.staged + calls);
  }

  /** Everything else leaves the GPU as it is, but for a new buffer, which is zero throughout. */
  lemma RestKeepsGpu(dev: Device, st: EngineState, a: Action)
    requires !OnQueue(a)
    ensures var e := Handle(dev, st, a).0;
      && e.gpu.log == st.gpu.log && e.gpu.staged == st.gpu.staged
      && if a.CreateBuffer? then
           a.buffer in e.tables.buffers
           && e.gpu.contents == st.gpu.contents[e.tables.buffers[a.buffer].serial := Zeros(a.bufferDesc.size)]
         else e.gpu.contents == st.gpu.contents
  {
    hide Assemble, Zeros;
  }

  /** A frame runs its action; the response goes back under the frame's request id, if it has one. */
  lemma DispatchAnswers(dev: Device, st: EngineState, f: Frame<Action>)
    ensures var (next, out) := DispatchFrame(dev, st, f);
      && next == Handle(dev, st, f.action).0
      && (out.Some? <==> f.requestId.Some?)
      && (out.Some? ==> out.value == ResponseFrame(f.requestId.value, Handle(dev, st, f.action).1))
  {
    hide Handle;
  }

  // ---- names ----

  /** How many buffers or textures have been made under an id. */
  function UsesFor(g: GpuState, r: ResourceId): nat
    requires r.BufferR? || r.TextureR?
  {
    if r.BufferR? then UsesOf(g.bufferUses, r.id) else UsesOf(g.textureUses, r.id)
  }

  function NameOf(o: GpuObject): Option<Serial> {
    match o
    case BufferObject(b) => Some(b.serial)
    case TextureObject(x) => Some(x.serial)
    case _ => None
  }

  lemma QueueKeepsUses(dev: Device, st: EngineState, a: Action)
    requires Creates(a).None?
    ensures var g := Handle(dev, st, a).0.gpu; g.bufferUses == st.gpu.bufferUses && g.textureUses == st.gpu.textureUses
  {
    hide ExecAll, BuildSubmission, Construct, Creates;
    forall g: GpuState, calls: seq<GpuCall>
      ensures var h := ExecAll(dev, g, calls); h.bufferUses == g.bufferUses && h.textureUses == g.textureUses
    {
      ExecKeepsUses(dev, g, calls);
    }
  }

  /** A new buffer or texture is named by its id and how many there were under it. */
  lemma ActionCounts(dev: Device, st: EngineState, a: Action, r: ResourceId)
    requires r.BufferR? || r.TextureR?
    ensures var e, n := Handle(dev, st, a).0, UsesFor(st.gpu, r);
      if Creates(a) == Some(r) then
        && UsesFor(e.gpu, r) == n + 1
        && Lookup(e.tables, r).Some? && NameOf(Lookup(e.tables, r).value) == Some(Serial(r.id, n))
      else UsesFor(e.gpu, r) == n
  {
    if Creates(a).Some? {
      hide Assemble, Zeros;
    } else {
      QueueKeepsUses(dev, st, a);
    }
  }

  lemma {:induction false} CountsGrow(dev: Device, ops: seq<Op>, i: nat, r: ResourceId)
    requires (r.BufferR? || r.TextureR?) && i <= |ops|
    ensures UsesFor(RemoteRun(dev, ops[..i]).gpu, r) <= UsesFor(RemoteRun(dev, ops).gpu, r)
    decreases |ops|
  {
    hide Handle, ToAction;
    if i == |ops| {
      assert ops[..i] == ops;
    } else {
      var less := ops[..|ops| - 1];
      CountsGrow(dev, less, i, r);
      assert less[..i] == ops[..i];
      ActionCounts(dev, RemoteRun(dev, less), ToAction(dev, ops[|ops| - 1]), r);
    }
  }

  /** What `r` stands for right after the `i`-th call. */
  function StandsAfter(dev: Device, ops: seq<Op>, i: nat, r: ResourceId): Option<GpuObject>
    requires i < |ops|
  {
    Lookup(RemoteRun(dev, ops[..i + 1]).tables, r)
  }

  /** No two buffers and no two textures ever share a name, even when an id is used again. */
  lemma NamesNeverRepeat(dev: Device, ops: seq<Op>, i: nat, j: nat, r: ResourceId)
    requires i < j < |ops| && (r.BufferR? || r.TextureR?)
    requires OpCreates(ops[i]) == Some(r) && OpCreates(ops[j]) == Some(r)
    ensures var x, y := StandsAfter(dev, ops, i, r), StandsAfter(dev, ops, j, r);
      x.Some? && y.Some? && NameOf(x.value).Some? && NameOf(y.value).Some? && NameOf(x.value) != NameOf(y.value)
  {
    hide Handle, UsesFor, Lookup;
    assert ops[..i + 1][..i] == ops[..i] && ops[..j + 1][..j] == ops[..j] && ops[..j][..i + 1] == ops[..i + 1];
    ActionCounts(dev, RemoteRun(dev, ops[..i]), ToAction(dev, ops[i]), r);
    ActionCounts(dev, RemoteRun(dev, ops[..j]), ToAction(dev, ops[j]), r);
    CountsGrow(dev, ops[..j], i + 1, r);
  }

  // ---- which buffers the server holds ----

  predicate SentCreate(ops: seq<Op>, sent: seq<bool>, i: nat, r: ResourceId) {
    i < |ops| == |sent| && sent[i] && OpCreates(ops[i]) == Some(r)
  }

  predicate SentDestroy(ops: seq<Op>, sent: seq<bool>, i: nat, r: ResourceId) {
    i < |ops| == |sent| && sent[i] && OpDestroys(ops[i]) == Some(r)
  }

  /** A creation of it was sent, and no destroy of it since. */
  ghost predicate CreatedSince(ops: seq<Op>, sent: seq<bool>, r: ResourceId) {
    exists c: nat :: SentCreate(ops, sent, c, r) && forall d: nat :: c < d ==> !SentDestroy(ops, sent, d, r)
  }

  lemma CreatedSinceStep(ops: seq<Op>, sent: seq<bool>, r: ResourceId)
    requires |sent| == |ops| > 0
    ensures var n := |ops| - 1;
      CreatedSince(ops, sent, r) <==>
        if SentCreate(ops, sent, n, r) then true
        else !SentDestroy(ops, sent, n, r) && CreatedSince(ops[..n], sent[..n], r)
  {
    hide OpCreates, OpDestroys;
    var n, less, ls := |ops| - 1, ops[..|ops| - 1], sent[..|ops| - 1];
    forall i: nat | i < n
      ensures SentCreate(less, ls, i, r) <==> SentCreate(ops, sent, i, r)
      ensures SentDestroy(less, ls, i, r) <==> SentDestroy(ops, sent, i, r)
    {
    }
    if SentCreate(ops, sent, n, r) {
      assert CreatedSince(ops, sent, r);
    } else {
      if CreatedSince(ops, sent, r) {
        var c: nat :| SentCreate(ops, sent, c, r) && forall d: nat :: c < d ==> !SentDestroy(ops, sent, d, r);
        assert c < n && !SentDestroy(ops, sent, n, r) && SentCreate(less, ls, c, r);
        forall d: nat | c < d ensures !SentDestroy(less, ls, d, r) { assert d < n ==> !SentDestroy(ops, sent, d, r); }
      }
      if !SentDestroy(ops, sent, n, r) && CreatedSince(less, ls, r) {
        var c: nat :| SentCreate(less, ls, c, r) && forall d: nat :: c < d ==> !SentDestroy(less, ls, d, r);
        assert SentCreate(ops, sent, c, r);
        forall d: nat | c < d ensures !SentDestroy(ops, sent, d, r) { assert d < n ==> !SentDestroy(less, ls, d, r); }
      }
    }
  }

  /** Whatever was sent or dropped, the server holds a buffer exactly when a creation of it reached
      the server and no destroy of it has since: creations of buffers never fail, and destroys take
      the buffer away. */
  lemma {:induction false} BufferHeldExactlyWhen(dev: Device, ops: seq<Op>, sent: seq<bool>, id: BufferId)
    requires |sent| == |ops|
    ensures id in RemoteRun(dev, Wire(ops, sent)).tables.buffers <==> CreatedSince(ops, sent, BufferR(id))
    decreases |ops|
  {
    hide Handle, CreatedSince, ToAction;
    if ops == [] {
      assert !CreatedSince([], [], BufferR(id)) by { NothingCreated(BufferR(id)); }
    } else {
      var n := |ops| - 1;
      BufferHeldExactlyWhen(dev, ops[..n], sent[..n], id);
      CreatedSinceStep(ops, sent, BufferR(id));
      var before := Wire(ops[..n], sent[..n]);
      assert before + [] == before && (before + [ops[n]])[..|before|] == before;
      if sent[n] { BufferHeldStep(dev, RemoteRun(dev, before), ops[n], id); }
    }
  }

  lemma NothingCreated(r: ResourceId)
    ensures !CreatedSince([], [], r)
  {
  }

  lemma BufferHeldStep(dev: Device, st: EngineState, op: Op, id: BufferId)
    ensures id in Handle(dev, st, ToAction(dev, op)).0.tables.buffers <==>
      if OpCreates(op) == Some(BufferR(id)) then true
      else OpDestroys(op) != Some(BufferR(id)) && id in st.tables.buffers
  {
    hide Handle, SameFields;
    TablesAfter(dev, st, ToAction(dev, op), BufferR(id));
  }
}
