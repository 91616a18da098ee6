/** What the engine promises of every action: when it fails, what it depends on, what it leaves alone. */
module EngineLaws {
  import opened Basics
  import opened Protocol
  import opened Codec
  import opened Gpu
  import opened Tables
  import opened Replay
  import opened Engine

  // ---- what an action refers to, in the order it is looked up ----

  function BindRefs(e: BindGroupEntry): seq<ResourceId> {
    match e.resource
    case BufferBound(b) => [BufferR(b.buffer)]
    case SamplerBound(id) => [SamplerR(id)]
    case TextureViewBound(id) => [TextureViewR(id)]
    case BufferArray(bs) => seq(|bs|, i requires 0 <= i < |bs| => BufferR(bs[i].buffer))
    case SamplerArray(ids) => seq(|ids|, i requires 0 <= i < |ids| => SamplerR(ids[i]))
    case TextureViewArray(ids) => seq(|ids|, i requires 0 <= i < |ids| => TextureViewR(ids[i]))
  }

  function LayoutRefs(l: Option<PipelineLayoutId>): seq<ResourceId> {
    if l.Some? then [PipelineLayoutR(l.value)] else []
  }

  function FragmentRefs(f: Option<FragmentState>): seq<ResourceId> {
    if f.Some? then [ShaderModuleR(f.value.fragmentModule)] else []
  }

  function BglRefs(id: BindGroupLayoutId): seq<ResourceId> { [BindGroupLayoutR(id)] }

  function RecordingRefs(dev: Device, raw: Bytes): seq<ResourceId> {
    match dev.recordings.decode(raw)
    case None => []
    case Some(recording) => FlatMap(CallRefs, CallsOfAll(recording.commands))
  }

  function Refs(dev: Device, a: Action): seq<ResourceId> {
    match a
    case CreateTextureView(_, texture, _) => [TextureR(texture)]
    case CreateBindGroup(_, desc) => [BindGroupLayoutR(desc.layout)] + FlatMap(BindRefs, desc.entries)
    case CreatePipelineLayout(_, desc) => FlatMap(BglRefs, desc.bindGroupLayouts)
    case CreateRenderPipeline(_, desc) =>
      LayoutRefs(desc.layout) + [ShaderModuleR(desc.vertex.vertexModule)] + FragmentRefs(desc.fragment)
    case CreateComputePipeline(_, desc) => [ShaderModuleR(desc.shader)] + LayoutRefs(desc.layout)
    case DeriveRenderBgl(p, _, _) => [RenderPipelineR(p)]
    case DeriveComputeBgl(p, _, _) => [ComputePipelineR(p)]
    case WriteBuffer(b, _, _) => [BufferR(b)]
    case WriteTexture(t, _, _) => [TextureR(t)]
    case MapBufferForRead(b, _, _) => [BufferR(b)]
    case Submit(recordings) => FlatMap(raw => RecordingRefs(dev, raw), recordings)
    case _ => []
  }

  predicate Single(e: BindGroupEntry) {
    e.resource.BufferBound? || e.resource.SamplerBound? || e.resource.TextureViewBound?
  }

  predicate Decodes(dev: Device, raw: Bytes) { dev.recordings.decode(raw).Some? }

  /** The requests the server implements: WGSL shaders, single bindings, recordings it can decode. */
  predicate Supported(dev: Device, a: Action) {
    match a
    case CreateShaderModule(_, desc) => desc.source.Wgsl?
    case CreateBindGroup(_, desc) => forall e :: e in desc.entries ==> Single(e)
    case Submit(recordings) => forall raw :: raw in recordings ==> Decodes(dev, raw)
    case _ => true
  }

  /** What it answers to the others. */
  function Rejection(a: Action): Response {
    if a.Submit? then ErrorResponse(InvalidArgument, BadRecording) else UNSUPPORTED
  }

  /** The references the server gets to look up before it meets something it does not support. */
  function Reached(dev: Device, a: Action): seq<ResourceId> {
    match a
    case CreateBindGroup(_, desc) =>
      [BindGroupLayoutR(desc.layout)] + FlatMap(BindRefs, GoodPrefix(Single, desc.entries))
    case Submit(recordings) =>
      FlatMap(raw => RecordingRefs(dev, raw), GoodPrefix(raw => Decodes(dev, raw), recordings))
    case _ => Refs(dev, a)
  }

  lemma SupportedReachesAll(dev: Device, a: Action)
    requires Supported(dev, a)
    ensures Reached(dev, a) == Refs(dev, a)
  {
  }

  lemma {:induction false} ReachedAreRefs(dev: Device, a: Action, r: ResourceId)
    requires r in Reached(dev, a)
    ensures r in Refs(dev, a)
  {
    match a
    case CreateBindGroup(_, desc) =>
      if r != BindGroupLayoutR(desc.layout) { InGoodPrefix(BindRefs, Single, desc.entries, r); }
    case Submit(recordings) => InGoodPrefix(raw => RecordingRefs(dev, raw), raw => Decodes(dev, raw), recordings, r);
    case _ =>
  }

  lemma {:induction false} InGoodPrefix<T>(refs: T -> seq<ResourceId>, good: T -> bool, xs: seq<T>, r: ResourceId)
    requires r in FlatMap(refs, GoodPrefix(good, xs))
    ensures r in FlatMap(refs, xs)
  {
    if xs != [] && good(xs[0]) && r !in refs(xs[0]) {
      var rest := GoodPrefix(good, xs[1..]);
      assert ([xs[0]] + rest)[1..] == rest;
      InGoodPrefix(refs, good, xs[1..], r);
    }
  }

  // ---- lookups stop at the first missing reference ----

  lemma BindStops(t: Tables, e: BindGroupEntry)
    ensures Single(e) ==> StopsAtMissing(t, BindEntry(t, e), BindRefs(e))
    ensures !Single(e) ==> BindEntry(t, e) == Err(UNSUPPORTED)
  {
    FewMissing(t, BindRefs(e));
  }

  lemma BindGroupStops(dev: Device, t: Tables, id: BindGroupId, desc: BindGroupDescriptor)
    ensures StopsAt(t, BuildBindGroup(t, desc), Reached(dev, CreateBindGroup(id, desc)),
      if Supported(dev, CreateBindGroup(id, desc)) then None else Some(UNSUPPORTED))
  {
    hide BindRefs, BindEntry, Single, StopsAtMissing, GoodPrefix, FlatMap;
    var f := e => BindEntry(t, e);
    forall e
      ensures Single(e) ==> StopsAtMissing(t, f(e), BindRefs(e))
      ensures !Single(e) ==> f(e) == Err(UNSUPPORTED)
    {
      BindStops(t, e);
    }
    TraverseStopsAt(t, f, BindRefs, Single, UNSUPPORTED, desc.entries);
    OneMissing(t, BindGroupLayoutR(desc.layout));
    FirstMissingAppend(t, [BindGroupLayoutR(desc.layout)], FlatMap(BindRefs, GoodPrefix(Single, desc.entries)));
  }

  lemma PipelineLayoutStops(t: Tables, desc: PipelineLayoutDescriptor)
    ensures StopsAtMissing(t, BuildPipelineLayout(t, desc), FlatMap(BglRefs, desc.bindGroupLayouts))
  {
    forall id | id in desc.bindGroupLayouts ensures StopsAtMissing(t, (x => FindBgl(t, x))(id), BglRefs(id)) {
      OneMissing(t, BindGroupLayoutR(id));
    }
    TraverseStops(t, id => FindBgl(t, id), BglRefs, desc.bindGroupLayouts);
  }

  lemma ComputePipelineStops(t: Tables, desc: ComputePipelineDescriptor)
    ensures StopsAtMissing(t, BuildComputePipeline(t, desc), [ShaderModuleR(desc.shader)] + LayoutRefs(desc.layout))
  {
    OneMissing(t, ShaderModuleR(desc.shader));
    FewMissing(t, LayoutRefs(desc.layout));
    FirstMissingAppend(t, [ShaderModuleR(desc.shader)], LayoutRefs(desc.layout));
  }

  lemma RenderPipelineStops(t: Tables, desc: RenderPipelineDescriptor)
    ensures StopsAtMissing(t, BuildRenderPipeline(t, desc),
      LayoutRefs(desc.layout) + [ShaderModuleR(desc.vertex.vertexModule)] + FragmentRefs(desc.fragment))
  {
    var a, b, c := LayoutRefs(desc.layout), [ShaderModuleR(desc.vertex.vertexModule)], FragmentRefs(desc.fragment);
    FewMissing(t, a);
    OneMissing(t, b[0]);
    FewMissing(t, c);
    FirstMissingAppend(t, a + b, c);
    FirstMissingAppend(t, a, b);
  }

  /** Every creation stops at the first unknown reference it gets to; failing that, at what the
      server does not support; failing that, it succeeds. */
  lemma ConstructStops(dev: Device, t: Tables, g: GpuState, a: Action)
    requires Creates(a).Some?
    ensures StopsAt(t, Construct(t, g, a), Reached(dev, a), if Supported(dev, a) then None else Some(Rejection(a)))
  {
    if !TakesName(a) {
      hide Construct, BuildBindGroup, BuildPipelineLayout, BuildRenderPipeline, BuildComputePipeline;
      AssembleStops(dev, t, a);
      hide Assemble, Reached, Supported, Rejection;
      ConstructAssembles(t, g, a);
    }
  }

  lemma ConstructAssembles(t: Tables, g: GpuState, a: Action)
    requires Creates(a).Some? && !TakesName(a)
    ensures Construct(t, g, a) == match Assemble(t, a) case Err(e) => Err(e) case Ok(o) => Ok((g, o))
  {
    hide Assemble;
  }

  lemma AssembleStops(dev: Device, t: Tables, a: Action)
    requires Creates(a).Some? && !TakesName(a)
    ensures StopsAt(t, Assemble(t, a), Reached(dev, a), if Supported(dev, a) then None else Some(Rejection(a)))
  {
    hide BuildBindGroup, BuildPipelineLayout, BuildRenderPipeline, BuildComputePipeline;
    match a
    case CreateBindGroup(id, desc) => BindGroupStops(dev, t, id, desc);
    case CreatePipelineLayout(_, desc) => PipelineLayoutStops(t, desc);
    case CreateComputePipeline(_, desc) => ComputePipelineStops(t, desc);
    case CreateRenderPipeline(_, desc) => RenderPipelineStops(t, desc);
    case _ => FewMissing(t, Refs(dev, a));
  }

  lemma CommandsStop(dev: Device, t: Tables, raw: Bytes)
    requires dev.recordings.decode(raw).Some?
    ensures StopsAtMissing(t, BuildCommands(dev, t, raw), RecordingRefs(dev, raw))
  {
    var cs := dev.recordings.decode(raw).value.commands;
    ReplayIsFlat(t, cs);
    CallsProper(cs);
    CallsStop(t, CallsOfAll(cs));
  }

  lemma RecordingStops(dev: Device, t: Tables, raw: Bytes)
    ensures Decodes(dev, raw) ==> StopsAtMissing(t, BuildCommands(dev, t, raw), RecordingRefs(dev, raw))
    ensures !Decodes(dev, raw) ==> BuildCommands(dev, t, raw) == Err(Rejection(Submit([raw])))
  {
    if Decodes(dev, raw) { CommandsStop(dev, t, raw); }
  }

  lemma SubmitStops(dev: Device, t: Tables, recordings: seq<Bytes>)
    ensures StopsAt(t, BuildSubmission(dev, t, recordings), Reached(dev, Submit(recordings)),
      if Supported(dev, Submit(recordings)) then None else Some(Rejection(Submit(recordings))))
  {
    hide BuildCommands, RecordingRefs, StopsAtMissing, Decodes, StopsAt, GoodPrefix, FlatMap;
    var f, refs, good := raw => BuildCommands(dev, t, raw), raw => RecordingRefs(dev, raw), raw => Decodes(dev, raw);
    forall raw | raw in recordings
      ensures good(raw) ==> StopsAtMissing(t, f(raw), refs(raw))
      ensures !good(raw) ==> f(raw) == Err(Rejection(Submit(recordings)))
    {
      RecordingStops(dev, t, raw);
    }
    TraverseStopsAt(t, f, refs, good, Rejection(Submit(recordings)), recordings);
    assert Supported(dev, Submit(recordings)) <==> forall raw :: raw in recordings ==> good(raw);
  }

  /** What goes wrong with an action, for every action: if one of the references it gets to is
      unknown, it changes nothing and reports the first such reference; otherwise, if the server does
      not support it, it changes nothing and says so; otherwise it fails only on a version mismatch
      or a map out of range. */
  lemma UnknownExactlyWhenMissing(dev: Device, st: EngineState, a: Action)
    ensures match FirstMissing(st.tables, Reached(dev, a))
      case Some(m) => Handle(dev, st, a) == (st, UnknownId(m))
      case None =>
        if !Supported(dev, a) then Handle(dev, st, a) == (st, Rejection(a))
        else
          var r := Handle(dev, st, a).1;
          r.ErrorResponse? ==>
            (a.Hello? && r.code == ProtocolVersionMismatch) || (a.MapBufferForRead? && r.code == Internal)
  {
    hide Construct, BuildSubmission;
    if Creates(a).Some? {
      ConstructStops(dev, st.tables, st.gpu, a);
      hide Reached, Supported, Rejection;
    } else if a.Submit? {
      SubmitStops(dev, st.tables, a.recordings);
      hide Reached, Supported, Rejection;
    } else {
      FewMissing(st.tables, Refs(dev, a));
    }
  }

  // ---- submissions ----

  /** Every call of a submission, in order. */
  function SubmittedCalls(dev: Device, recordings: seq<Bytes>): seq<Call> {
    FlatMap(
      raw => var d := dev.recordings.decode(raw); if d.Some? then CallsOfAll(d.value.commands) else [],
      recordings)
  }

  lemma {:induction false} BuiltCallsInOrder(dev: Device, t: Tables, recordings: seq<Bytes>)
    requires BuildSubmission(dev, t, recordings).Ok?
    ensures ResolveAll(t, SubmittedCalls(dev, recordings)) ==
      Ok(Flatten(BuildSubmission(dev, t, recordings).value))
  {
    if recordings != [] {
      var f := raw => BuildCommands(dev, t, raw);
      var cs := dev.recordings.decode(recordings[0]).value.commands;
      assert f(recordings[0]) == ReplayCommands(t, cs);
      ReplayIsFlat(t, cs);
      BuiltCallsInOrder(dev, t, recordings[1..]);
      TraverseAppend(c => Resolve(t, c), CallsOfAll(cs), SubmittedCalls(dev, recordings[1..]));
      var built := Traverse(f, recordings).value;
      assert built[1..] == Traverse(f, recordings[1..]).value;
    }
  }

  predicate CanBuild(dev: Device, t: Tables, raw: Bytes) {
    dev.recordings.decode(raw).Some? && FirstMissing(t, RecordingRefs(dev, raw)).None?
  }

  lemma BuildsExactlyWhen(dev: Device, t: Tables, raw: Bytes)
    ensures BuildCommands(dev, t, raw).Ok? <==> CanBuild(dev, t, raw)
  {
    if dev.recordings.decode(raw).Some? { CommandsStop(dev, t, raw); }
  }

  /** Building succeeds exactly when every recording can be built, and then yields every call of
      the submission, resolved, in order. */
  lemma SubmissionBuilds(dev: Device, t: Tables, recordings: seq<Bytes>)
    ensures var built := BuildSubmission(dev, t, recordings);
      if forall raw :: raw in recordings ==> CanBuild(dev, t, raw)
      then built.Ok? && ResolveAll(t, SubmittedCalls(dev, recordings)) == Ok(Flatten(built.value))
      else built.Err? && built.error.ErrorResponse?
  {
    var f := raw => BuildCommands(dev, t, raw);
    TraverseLength(f, recordings);
    forall raw | raw in recordings ensures f(raw).Ok? <==> CanBuild(dev, t, raw) {
      BuildsExactlyWhen(dev, t, raw);
    }
    if BuildSubmission(dev, t, recordings).Ok? {
      BuiltCallsInOrder(dev, t, recordings);
    } else {
      FailureIsAnError(dev, t, recordings);
    }
  }

  /** Submit is atomic. Unless every recording decodes and every id in it is known, nothing at all
      changes; otherwise the queue runs, after what was already staged, the concatenation of all
      the calls of all the recordings in submission order. */
  lemma SubmitIsAtomic(dev: Device, st: EngineState, recordings: seq<Bytes>)
    ensures var (next, r) := Handle(dev, st, Submit(recordings));
      if forall raw :: raw in recordings ==> CanBuild(dev, st.tables, raw)
      then
        var calls := ResolveAll(st.tables, SubmittedCalls(dev, recordings));
        && r == Ack && calls.Ok? && next.tables == st.tables
        && next.gpu == ExecAll(dev, st.gpu.(staged := []), st.gpu.staged + calls.value)
      else next == st && r.ErrorResponse?
  {
    hide BuildSubmission, ResolveAll, ExecAll, CanBuild, SubmittedCalls;
    SubmissionBuilds(dev, st.tables, recordings);
  }

  lemma {:induction false} FailureIsAnError(dev: Device, t: Tables, recordings: seq<Bytes>)
    requires BuildSubmission(dev, t, recordings).Err?
    ensures BuildSubmission(dev, t, recordings).error.ErrorResponse?
  {
    var f := raw => BuildCommands(dev, t, raw);
    if f(recordings[0]).Ok? {
      FailureIsAnError(dev, t, recordings[1..]);
    } else if dev.recordings.decode(recordings[0]).Some? {
      CommandsStop(dev, t, recordings[0]);
    }
  }

  /** A write becomes visible at once: nothing stays staged between actions. */
  lemma NothingStaysStaged(dev: Device, st: EngineState, a: Action)
    requires st.gpu.staged == []
    ensures Handle(dev, st, a).0.gpu.staged == []
  {
    hide ExecAll;
    if Creates(a).Some? {
      if Construct(st.tables, st.gpu, a).Ok? { ConstructKeepsStaged(st.tables, st.gpu, a); }
    } else {
      forall g: GpuState, calls: seq<GpuCall> ensures ExecAll(dev, g, calls).staged == g.staged {
        ExecKeepsStaged(dev, g, calls);
      }
    }
  }

  lemma ConstructKeepsStaged(t: Tables, g: GpuState, a: Action)
    requires Creates(a).Some? && Construct(t, g, a).Ok?
    ensures Construct(t, g, a).value.0.staged == g.staged
  {
    hide Assemble;
  }

  // ---- what an action depends on ----

  lemma BindGroupAgrees(dev: Device, t: Tables, u: Tables, id: BindGroupId, desc: BindGroupDescriptor)
    requires Agree(t, u, Refs(dev, CreateBindGroup(id, desc)))
    ensures BuildBindGroup(t, desc) == BuildBindGroup(u, desc)
  {
    var refs := Refs(dev, CreateBindGroup(id, desc));
    AgreeOnFirstTwo(t, u, refs);
    forall e | e in desc.entries ensures (x => BindEntry(t, x))(e) == (x => BindEntry(u, x))(e) {
      forall r | r in BindRefs(e) ensures Lookup(t, r) == Lookup(u, r) {
        InFlatMap(BindRefs, desc.entries, e, r);
        assert r in refs;
      }
      AgreeOnFirstTwo(t, u, BindRefs(e));
    }
    TraverseAgree(x => BindEntry(t, x), x => BindEntry(u, x), desc.entries);
  }

  lemma PipelineLayoutAgrees(t: Tables, u: Tables, desc: PipelineLayoutDescriptor)
    requires Agree(t, u, FlatMap(BglRefs, desc.bindGroupLayouts))
    ensures BuildPipelineLayout(t, desc) == BuildPipelineLayout(u, desc)
  {
    forall id | id in desc.bindGroupLayouts ensures (x => FindBgl(t, x))(id) == (x => FindBgl(u, x))(id) {
      assert BindGroupLayoutR(id) in BglRefs(id);
      InFlatMap(BglRefs, desc.bindGroupLayouts, id, BindGroupLayoutR(id));
    }
    TraverseAgree(x => FindBgl(t, x), x => FindBgl(u, x), desc.bindGroupLayouts);
  }

  lemma PipelineAgrees(t: Tables, u: Tables, l: Option<PipelineLayoutId>, shader: ShaderModuleId)
    requires Agree(t, u, LayoutRefs(l)) && Agree(t, u, [ShaderModuleR(shader)])
    ensures FindPipelineLayout(t, l) == FindPipelineLayout(u, l) && FindShader(t, shader) == FindShader(u, shader)
  {
    AgreeOnFirstTwo(t, u, LayoutRefs(l));
    AgreeOnFirstTwo(t, u, [ShaderModuleR(shader)]);
  }

  lemma ComputePipelineAgrees(t: Tables, u: Tables, desc: ComputePipelineDescriptor)
    requires Agree(t, u, [ShaderModuleR(desc.shader)] + LayoutRefs(desc.layout))
    ensures BuildComputePipeline(t, desc) == BuildComputePipeline(u, desc)
  {
    PipelineAgrees(t, u, desc.layout, desc.shader);
  }

  lemma RenderPipelineAgrees(t: Tables, u: Tables, desc: RenderPipelineDescriptor)
    requires Agree(t, u,
      LayoutRefs(desc.layout) + [ShaderModuleR(desc.vertex.vertexModule)] + FragmentRefs(desc.fragment))
    ensures BuildRenderPipeline(t, desc) == BuildRenderPipeline(u, desc)
  {
    PipelineAgrees(t, u, desc.layout, desc.vertex.vertexModule);
    AgreeOnFirstTwo(t, u, FragmentRefs(desc.fragment));
  }

  /** The objects referred to determine the object built. */
  lemma ConstructAgrees(dev: Device, t: Tables, u: Tables, g: GpuState, a: Action)
    requires Creates(a).Some? && Agree(t, u, Refs(dev, a))
    ensures Construct(t, g, a) == Construct(u, g, a)
  {
    if !TakesName(a) {
      hide Construct, Assemble;
      AssembleAgrees(dev, t, u, a);
      ConstructAssembles(t, g, a);
      ConstructAssembles(u, g, a);
    }
  }

  lemma AssembleAgrees(dev: Device, t: Tables, u: Tables, a: Action)
    requires Creates(a).Some? && !TakesName(a) && Agree(t, u, Refs(dev, a))
    ensures Assemble(t, a) == Assemble(u, a)
  {
    hide BuildBindGroup, BuildPipelineLayout, BuildRenderPipeline, BuildComputePipeline;
    match a
    case CreateBindGroup(id, desc) => BindGroupAgrees(dev, t, u, id, desc);
    case CreatePipelineLayout(_, desc) => PipelineLayoutAgrees(t, u, desc);
    case CreateComputePipeline(_, desc) => ComputePipelineAgrees(t, u, desc);
    case CreateRenderPipeline(_, desc) => RenderPipelineAgrees(t, u, desc);
    case _ => AgreeOnFirstTwo(t, u, Refs(dev, a));
  }

  lemma CommandsAgree(dev: Device, t: Tables, u: Tables, raw: Bytes)
    requires Agree(t, u, RecordingRefs(dev, raw))
    ensures BuildCommands(dev, t, raw) == BuildCommands(dev, u, raw)
  {
    if dev.recordings.decode(raw).Some? {
      var cs := dev.recordings.decode(raw).value.commands;
      ReplayIsFlat(t, cs);
      ReplayIsFlat(u, cs);
      CallsProper(cs);
      CallsAgree(t, u, CallsOfAll(cs));
    }
  }
}
