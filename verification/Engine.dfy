/** The replay engine (server/engine.rs): what each action does to the id tables and the GPU, as a
    function; the imperative engine proved to compute it; and what the function promises. */
module Engine {
  import opened Basics
  import opened Protocol
  import opened Codec
  import opened Gpu
  import opened Tables
  import opened Replay

  datatype EngineState = EngineState(tables: Tables, gpu: GpuState)

  // ---- creation ----

  /** The id under which an action stores a new object. */
  function Creates(a: Action): Option<ResourceId> {
    match a
    case CreateBuffer(id, _) => Some(BufferR(id))
    case CreateTexture(id, _) => Some(TextureR(id))
    case CreateTextureView(id, _, _) => Some(TextureViewR(id))
    case CreateSampler(id, _) => Some(SamplerR(id))
    case CreateShaderModule(id, _) => Some(ShaderModuleR(id))
    case CreateBindGroupLayout(id, _) => Some(BindGroupLayoutR(id))
    case CreateBindGroup(id, _) => Some(BindGroupR(id))
    case CreatePipelineLayout(id, _) => Some(PipelineLayoutR(id))
    case CreateRenderPipeline(id, _) => Some(RenderPipelineR(id))
    case CreateComputePipeline(id, _) => Some(ComputePipelineR(id))
    case DeriveRenderBgl(_, _, id) => Some(BindGroupLayoutR(id))
    case DeriveComputeBgl(_, _, id) => Some(BindGroupLayoutR(id))
    case _ => None
  }

  function FindSampler(t: Tables, id: SamplerId): Result<GpuSampler, Response> {
    if id in t.samplers then Ok(t.samplers[id]) else Err(UnknownId(SamplerR(id)))
  }

  function FindShader(t: Tables, id: ShaderModuleId): Result<GpuShaderModule, Response> {
    if id in t.shaderModules then Ok(t.shaderModules[id]) else Err(UnknownId(ShaderModuleR(id)))
  }

  function FindBgl(t: Tables, id: BindGroupLayoutId): Result<GpuBindGroupLayout, Response> {
    if id in t.bindGroupLayouts then Ok(t.bindGroupLayouts[id]) else Err(UnknownId(BindGroupLayoutR(id)))
  }

  function FindPipelineLayout(t: Tables, id: Option<PipelineLayoutId>): Result<Option<GpuPipelineLayout>, Response> {
    match id
    case None => Ok(None)
    case Some(l) =>
      if l in t.pipelineLayouts then Ok(Some(t.pipelineLayouts[l])) else Err(UnknownId(PipelineLayoutR(l)))
  }

  const UNSUPPORTED: Response := ErrorResponse(InvalidArgument, Unsupported)

  function BindEntry(t: Tables, e: BindGroupEntry): Result<(nat, GpuBinding), Response> {
    match e.resource
    case BufferBound(b) =>
      var buffer :- FindBuffer(t, b.buffer);
      Ok((e.binding, BoundBuffer(buffer, b.offset, b.size)))
    case SamplerBound(id) =>
      var sampler :- FindSampler(t, id);
      Ok((e.binding, BoundSampler(sampler)))
    case TextureViewBound(id) =>
      var view :- FindView(t, id);
      Ok((e.binding, BoundView(view)))
    case _ => Err(UNSUPPORTED)
  }

  function BuildBindGroup(t: Tables, desc: BindGroupDescriptor): Result<GpuBindGroup, Response> {
    var layout :- FindBgl(t, desc.layout);
    var entries :- Traverse(e => BindEntry(t, e), desc.entries);
    Ok(GpuBindGroup(desc.name, layout, entries))
  }

  function BuildPipelineLayout(t: Tables, desc: PipelineLayoutDescriptor): Result<GpuPipelineLayout, Response> {
    var layouts :- Traverse(id => FindBgl(t, id), desc.bindGroupLayouts);
    Ok(GpuPipelineLayout(desc.name, layouts, desc.pushConstantRanges))
  }

  function BuildComputePipeline(t: Tables, desc: ComputePipelineDescriptor): Result<GpuComputePipeline, Response> {
    var shader :- FindShader(t, desc.shader);
    var layout :- FindPipelineLayout(t, desc.layout);
    Ok(GpuComputePipeline(desc.name, layout, shader, desc.entryPoint))
  }

  function BuildFragment(t: Tables, f: Option<FragmentState>): Result<Option<GpuFragment>, Response> {
    match f
    case None => Ok(None)
    case Some(s) =>
      var shader :- FindShader(t, s.fragmentModule);
      Ok(Some(GpuFragment(shader, s.fragmentEntry, s.targets)))
  }

  function BuildRenderPipeline(t: Tables, desc: RenderPipelineDescriptor): Result<GpuRenderPipeline, Response> {
    var layout :- FindPipelineLayout(t, desc.layout);
    var shader :- FindShader(t, desc.vertex.vertexModule);
    var fragment :- BuildFragment(t, desc.fragment);
    Ok(GpuRenderPipeline(desc.name, layout, shader, desc.vertex.vertexEntry, desc.vertex.buffers, fragment,
      desc.fixedState))
  }

  function BuildView(t: Tables, texture: TextureId, desc: Blob): Result<GpuTextureView, Response> {
    var tex :- FindTexture(t, texture);
    Ok(GpuTextureView(tex, desc))
  }

  function BuildRenderBgl(t: Tables, pipeline: RenderPipelineId, index: nat): Result<GpuBindGroupLayout, Response> {
    var p :- FindRenderPipeline(t, pipeline);
    Ok(RenderDerived(p, index))
  }

  function BuildComputeBgl(t: Tables, pipeline: ComputePipelineId, index: nat): Result<GpuBindGroupLayout, Response> {
    var p :- FindComputePipeline(t, pipeline);
    Ok(ComputeDerived(p, index))
  }

  function BuildShader(desc: ShaderModuleDescriptor): Result<GpuShaderModule, Response> {
    if desc.source.Wgsl? then Ok(GpuShaderModule(desc.name, desc.source.code)) else Err(UNSUPPORTED)
  }

  predicate TakesName(a: Action) { a.CreateBuffer? || a.CreateTexture? }

  /** The object a creating action makes out of existing ones. */
  function Assemble(t: Tables, a: Action): (r: Result<GpuObject, Response>)
    requires Creates(a).Some? && !TakesName(a)
    ensures r.Ok? ==> Names(Creates(a).value, r.value)
  {
    match a
    case CreateTextureView(_, texture, desc) => var v :- BuildView(t, texture, desc); Ok(TextureViewObject(v))
    case CreateSampler(_, desc) => Ok(SamplerObject(GpuSampler(desc)))
    case CreateShaderModule(_, desc) => var s :- BuildShader(desc); Ok(ShaderModuleObject(s))
    case CreateBindGroupLayout(_, desc) => Ok(BindGroupLayoutObject(ExplicitLayout(desc)))
    case CreateBindGroup(_, desc) => var x :- BuildBindGroup(t, desc); Ok(BindGroupObject(x))
    case CreatePipelineLayout(_, desc) => var x :- BuildPipelineLayout(t, desc); Ok(PipelineLayoutObject(x))
    case CreateRenderPipeline(_, desc) => var x :- BuildRenderPipeline(t, desc); Ok(RenderPipelineObject(x))
    case CreateComputePipeline(_, desc) => var x :- BuildComputePipeline(t, desc); Ok(ComputePipelineObject(x))
    case DeriveRenderBgl(p, index, _) => var x :- BuildRenderBgl(t, p, index); Ok(BindGroupLayoutObject(x))
    case DeriveComputeBgl(p, index, _) => var x :- BuildComputeBgl(t, p, index); Ok(BindGroupLayoutObject(x))
  }

  /** Everything a creating action does before it stores the new object: the lookups and the call
      on the device. */
  function Construct(t: Tables, g: GpuState, a: Action): (r: Result<(GpuState, GpuObject), Response>)
    requires Creates(a).Some?
    ensures r.Ok? ==> Names(Creates(a).value, r.value.1)
  {
    if a.CreateBuffer? then
      var (h, b) := NewBuffer(g, a.buffer, a.bufferDesc);
      Ok((h, BufferObject(b)))
    else if a.CreateTexture? then
      var (h, x) := NewTexture(g, a.texture, a.textureDesc);
      Ok((h, TextureObject(x)))
    else
      var o :- Assemble(t, a);
      Ok((g, o))
  }

  // ---- submission ----

  function Decode(dev: Device, raw: Bytes): Result<Recording, Response> {
    match dev.recordings.decode(raw)
    case None => Err(ErrorResponse(InvalidArgument, BadRecording))
    case Some(recording) => Ok(recording)
  }

  function BuildCommands(dev: Device, t: Tables, raw: Bytes): Result<seq<GpuCall>, Response> {
    var recording :- Decode(dev, raw);
    ReplayCommands(t, recording.commands)
  }

  function BuildSubmission(dev: Device, t: Tables, recordings: seq<Bytes>): Result<seq<seq<GpuCall>>, Response> {
    Traverse(raw => BuildCommands(dev, t, raw), recordings)
  }

  // ---- one action ----

  function HandleQueue(dev: Device, st: EngineState, a: Action): (EngineState, Response)
    requires a.WriteBuffer? || a.WriteTexture? || a.Submit? || a.MapBufferForRead?
  {
    match a
    case WriteBuffer(id, offset, data) =>
      (match FindBuffer(st.tables, id)
       case Err(e) => (st, e)
       case Ok(b) => (st.(gpu := QueueSubmit(dev, Stage(st.gpu, GWriteBuffer(b, offset, data)), [])), Ack))
    case WriteTexture(id, texels, data) =>
      (match FindTexture(st.tables, id)
       case Err(e) => (st, e)
       case Ok(x) => (st.(gpu := QueueSubmit(dev, Stage(st.gpu, GWriteTexture(x, texels, data)), [])), Ack))
    case Submit(recordings) =>
      (match BuildSubmission(dev, st.tables, recordings)
       case Err(e) => (st, e)
       case Ok(commandBuffers) => (st.(gpu := QueueSubmit(dev, st.gpu, commandBuffers)), Ack))
    case MapBufferForRead(id, offset, size) =>
      (match FindBuffer(st.tables, id)
       case Err(e) => (st, e)
       case Ok(b) =>
         match Peek(st.gpu.contents, b.serial, offset, size)
         case Some(data) => (st, BufferData(data))
         case None => (st, ErrorResponse(Internal, MapFailed)))
  }

  function Handle(dev: Device, st: EngineState, a: Action): (EngineState, Response) {
    if Creates(a).Some? then
      match Construct(st.tables, st.gpu, a)
      case Err(e) => (st, e)
      case Ok((g, o)) => (EngineState(Insert(st.tables, Creates(a).value, o), g), Ack)
    else if a.WriteBuffer? || a.WriteTexture? || a.Submit? || a.MapBufferForRead? then
      HandleQueue(dev, st, a)
    else
      match a
      case Hello(v) =>
        (st, if v != PROTOCOL_VERSION then ErrorResponse(ProtocolVersionMismatch, Versions(v, PROTOCOL_VERSION))
             else HelloAck(PROTOCOL_VERSION))
      case Destroy(BufferR(id)) => (st.(tables := RemoveBuffer(st.tables, id)), Ack)
      case _ => (st, Ack)
  }

  /** A response goes out only when the frame asked for one; every action produces one. */
  function DispatchFrame(dev: Device, st: EngineState, f: Frame<Action>)
    : (EngineState, Option<ResponseFrame<Response>>)
  {
    var (next, r) := Handle(dev, st, f.action);
    (next, if f.requestId.Some? then Some(ResponseFrame(f.requestId.value, r)) else None)
  }

  // ---- loops over sequences, one element at a time ----

  function Prepend<T, E>(xs: seq<T>, r: Result<seq<T>, E>): Result<seq<T>, E> {
    match r
    case Err(e) => Err(e)
    case Ok(ys) => Ok(xs + ys)
  }

  lemma PrependNothing<T, E>(r: Result<seq<T>, E>)
    ensures Prepend([], r) == r
  {
    if r.Ok? { assert [] + r.value == r.value; }
  }

  lemma StartLoop<T, U, E>(f: T -> Result<U, E>, xs: seq<T>)
    ensures Traverse(f, xs) == Prepend([], Traverse(f, xs[0..]))
  {
    assert xs[0..] == xs;
    PrependNothing(Traverse(f, xs));
  }

  lemma PrependTwice<T, E>(xs: seq<T>, x: T, r: Result<seq<T>, E>)
    ensures Prepend(xs, Prepend([x], r)) == Prepend(xs + [x], r)
  {
    if r.Ok? { Assoc(xs, [x], r.value); }
  }

  // ---- the imperative engine ----

  /** A `wgpu::CommandEncoder`: the calls made on it and on the passes it opened. */
  class CommandEncoder {
    var calls: seq<GpuCall>

    constructor ()
      ensures calls == []
    {
      calls := [];
    }

    method Push(c: GpuCall)
      modifies this
      ensures calls == old(calls) + [c]
    {
      calls := calls + [c];
    }
  }

  class Engine {
    const dev: Device
    var tables: Tables
    var gpu: GpuState

    function State(): EngineState
      reads this
    {
      EngineState(tables, gpu)
    }

    constructor (dev: Device)
      ensures this.dev == dev
      ensures State() == EngineState(Empty(), GpuState(map[], map[], map[], [], []))
    {
      this.dev := dev;
      tables := Empty();
      gpu := GpuState(map[], map[], map[], [], []);
    }

    method Dispatch(frame: Frame<Action>) returns (response: Option<ResponseFrame<Response>>)
      modifies this
      ensures (State(), response) == DispatchFrame(dev, old(State()), frame)
    {
      var r := HandleAction(frame.action);
      match frame.requestId
      case Some(rid) => response := Some(ResponseFrame(rid, r));
      case None => response := None;
    }

    method HandleAction(a: Action) returns (r: Response)
      modifies this
      ensures (State(), r) == Handle(dev, old(State()), a)
    {
      hide Construct, BuildSubmission, QueueSubmit;
      match a {
        case Hello(v) =>
          if v != PROTOCOL_VERSION {
            r := ErrorResponse(ProtocolVersionMismatch, Versions(v, PROTOCOL_VERSION));
          } else {
            r := HelloAck(PROTOCOL_VERSION);
          }
        case Destroy(BufferR(id)) =>
          tables := tables.(buffers := tables.buffers - {id});
          r := Ack;
        case WriteBuffer(id, offset, data) =>
          if id !in tables.buffers { return UnknownId(BufferR(id)); }
          gpu := Stage(gpu, GWriteBuffer(tables.buffers[id], offset, data));
          gpu := QueueSubmit(dev, gpu, []);
          r := Ack;
        case WriteTexture(id, texels, data) =>
          if id !in tables.textures { return UnknownId(TextureR(id)); }
          gpu := Stage(gpu, GWriteTexture(tables.textures[id], texels, data));
          gpu := QueueSubmit(dev, gpu, []);
          r := Ack;
        case MapBufferForRead(id, offset, size) =>
          if id !in tables.buffers { return UnknownId(BufferR(id)); }
          var view := Peek(gpu.contents, tables.buffers[id].serial, offset, size);
          r := if view.Some? then BufferData(view.value) else ErrorResponse(Internal, MapFailed);
        case Submit(recordings) =>
          r := SubmitRecordings(recordings);
        case CreateBindGroup(id, desc) =>
          r := CreateBindGroup(id, desc);
        case CreatePipelineLayout(id, desc) =>
          r := CreatePipelineLayout(id, desc);
        case CreateBuffer(_, _) | CreateTexture(_, _) | CreateTextureView(_, _, _) | CreateSampler(_, _)
          | CreateShaderModule(_, _) | CreateBindGroupLayout(_, _) | CreateRenderPipeline(_, _)
          | CreateComputePipeline(_, _) | DeriveRenderBgl(_, _, _) | DeriveComputeBgl(_, _, _) =>
          r := Create(a);
        case _ =>
          r := Ack;
      }
    }

    /** The creations whose lookups involve no loop. */
    method Create(a: Action) returns (r: Response)
      requires Creates(a).Some?
      modifies this
      ensures (State(), r) == Handle(dev, old(State()), a)
    {
      var made := Construct(tables, gpu, a);
      if made.Err? { return made.error; }
      gpu := made.value.0;
      tables := Insert(tables, Creates(a).value, made.value.1);
      r := Ack;
    }

    method CreateBindGroup(id: BindGroupId, desc: BindGroupDescriptor) returns (r: Response)
      modifies this
      ensures (State(), r) == Handle(dev, old(State()), Action.CreateBindGroup(id, desc))
    {
      if desc.layout !in tables.bindGroupLayouts { return UnknownId(BindGroupLayoutR(desc.layout)); }
      var entries: seq<(nat, GpuBinding)> := [];
      ghost var t := tables;
      ghost var f := (e: BindGroupEntry) => BindEntry(t, e);
      StartLoop(f, desc.entries);
      for i := 0 to |desc.entries|
        invariant State() == old(State())
        invariant Traverse(f, desc.entries) == Prepend(entries, Traverse(f, desc.entries[i..]))
      {
        var bound := BindEntry(tables, desc.entries[i]);
        assert desc.entries[i..][0] == desc.entries[i] && desc.entries[i..][1..] == desc.entries[i + 1..];
        if bound.Err? { return bound.error; }
        PrependTwice(entries, bound.value, Traverse(f, desc.entries[i + 1..]));
        entries := entries + [bound.value];
      }
      assert desc.entries[|desc.entries|..] == [] && entries + [] == entries;
      var group := GpuBindGroup(desc.name, tables.bindGroupLayouts[desc.layout], entries);
      tables := tables.(bindGroups := tables.bindGroups[id := group]);
      r := Ack;
    }

    method CreatePipelineLayout(id: PipelineLayoutId, desc: PipelineLayoutDescriptor) returns (r: Response)
      modifies this
      ensures (State(), r) == Handle(dev, old(State()), Action.CreatePipelineLayout(id, desc))
    {
      var layouts: seq<GpuBindGroupLayout> := [];
      var ids := desc.bindGroupLayouts;
      ghost var t := tables;
      ghost var f := (l: BindGroupLayoutId) => FindBgl(t, l);
      StartLoop(f, ids);
      for i := 0 to |ids|
        invariant State() == old(State())
        invariant Traverse(f, ids) == Prepend(layouts, Traverse(f, ids[i..]))
      {
        assert ids[i..][0] == ids[i] && ids[i..][1..] == ids[i + 1..];
        if ids[i] !in tables.bindGroupLayouts { return UnknownId(BindGroupLayoutR(ids[i])); }
        PrependTwice(layouts, tables.bindGroupLayouts[ids[i]], Traverse(f, ids[i + 1..]));
        layouts := layouts + [tables.bindGroupLayouts[ids[i]]];
      }
      assert ids[|ids|..] == [] && layouts + [] == layouts;
      var layout := GpuPipelineLayout(desc.name, layouts, desc.pushConstantRanges);
      tables := tables.(pipelineLayouts := tables.pipelineLayouts[id := layout]);
      r := Ack;
    }

    /** All command buffers are built before the queue sees any of them. */
    method SubmitRecordings(recordings: seq<Bytes>) returns (r: Response)
      modifies this
      ensures (State(), r) == Handle(dev, old(State()), Action.Submit(recordings))
    {
      var commandBuffers: seq<seq<GpuCall>> := [];
      ghost var d, t := dev, tables;
      ghost var f := (raw: Bytes) => BuildCommands(d, t, raw);
      StartLoop(f, recordings);
      for i := 0 to |recordings|
        invariant State() == old(State())
        invariant Traverse(f, recordings) == Prepend(commandBuffers, Traverse(f, recordings[i..]))
      {
        assert recordings[i..][0] == recordings[i] && recordings[i..][1..] == recordings[i + 1..];
        var recording := dev.recordings.decode(recordings[i]);
        if recording.None? { return ErrorResponse(InvalidArgument, BadRecording); }
        var built := ReplayRecording(recording.value);
        if built.Err? { return built.error; }
        PrependTwice(commandBuffers, built.value, Traverse(f, recordings[i + 1..]));
        commandBuffers := commandBuffers + [built.value];
      }
      assert recordings[|recordings|..] == [] && commandBuffers + [] == commandBuffers;
      gpu := QueueSubmit(dev, gpu, commandBuffers);
      r := Ack;
    }

    method ReplayRecording(recording: Recording) returns (r: Result<seq<GpuCall>, Response>)
      ensures r == ReplayCommands(tables, recording.commands)
    {
      var encoder := new CommandEncoder();
      var cs := recording.commands;
      assert cs[0..] == cs;
      PrependNothing(ReplayCommands(tables, cs));
      for i := 0 to |cs|
        invariant fresh(encoder)
        invariant ReplayCommands(tables, cs) == Prepend(encoder.calls, ReplayCommands(tables, cs[i..]))
      {
        assert cs[i..][0] == cs[i] && cs[i..][1..] == cs[i + 1..];
        ghost var before := encoder.calls;
        var done := ReplayEncoderCommand(encoder, cs[i]);
        if done.Err? { return Err(done.error); }
        ghost var rest := ReplayCommands(tables, cs[i + 1..]);
        if rest.Ok? { Assoc(before, ReplayCommand(tables, cs[i]).value, rest.value); }
      }
      assert cs[|cs|..] == [] && encoder.calls + [] == encoder.calls;
      return Ok(encoder.calls);
    }

    method ReplayEncoderCommand(encoder: CommandEncoder, c: EncoderCommand) returns (r: Result<(), Response>)
      modifies encoder
      ensures ReplayCommand(tables, c).Ok? ==>
        r.Ok? && encoder.calls == old(encoder.calls) + ReplayCommand(tables, c).value
      ensures ReplayCommand(tables, c).Err? ==> r == Err(ReplayCommand(tables, c).error)
    {
      match c {
        case BeginComputePass(name, commands) =>
          encoder.Push(GOpenCompute(name));
          var done := ReplayComputePass(encoder, commands);
          if done.Err? { return Err(done.error); }
          encoder.Push(GCloseCompute);
        case BeginRenderPass(name, colors, depth, commands) =>
          var opening := ReplayOpenRender(tables, name, colors, depth);
          if opening.Err? { return Err(opening.error); }
          encoder.Push(opening.value);
          var done := ReplayRenderPass(encoder, commands);
          if done.Err? { return Err(done.error); }
          encoder.Push(GCloseRender);
        case _ =>
          var call := ReplayTransfer(tables, c);
          if call.Err? { return Err(call.error); }
          encoder.Push(call.value);
      }
      return Ok(());
    }

    method ReplayComputePass(encoder: CommandEncoder, cs: seq<ComputeCommand>) returns (r: Result<(), Response>)
      modifies encoder
      ensures var all := ReplayComputes(tables, cs);
        && (all.Ok? ==> r.Ok? && encoder.calls == old(encoder.calls) + all.value)
        && (all.Err? ==> r == Err(all.error))
    {
      ghost var t := tables;
      ghost var f := x => ReplayCompute(t, x);
      StartLoop(f, cs);
      ghost var made := [];
      for i := 0 to |cs|
        invariant encoder.calls == old(encoder.calls) + made
        invariant Traverse(f, cs) == Prepend(made, Traverse(f, cs[i..]))
      {
        assert cs[i..][0] == cs[i] && cs[i..][1..] == cs[i + 1..];
        var call := ReplayCompute(tables, cs[i]);
        if call.Err? { return Err(call.error); }
        encoder.Push(call.value);
        PrependTwice(made, call.value, Traverse(f, cs[i + 1..]));
        made := made + [call.value];
      }
      assert cs[|cs|..] == [] && made + [] == made;
      return Ok(());
    }

    method ReplayRenderPass(encoder: CommandEncoder, cs: seq<RenderCommand>) returns (r: Result<(), Response>)
      modifies encoder
      ensures var all := ReplayRenders(tables, cs);
        && (all.Ok? ==> r.Ok? && encoder.calls == old(encoder.calls) + all.value)
        && (all.Err? ==> r == Err(all.error))
    {
      ghost var t := tables;
      ghost var f := x => ReplayRender(t, x);
      StartLoop(f, cs);
      ghost var made := [];
      for i := 0 to |cs|
        invariant encoder.calls == old(encoder.calls) + made
        invariant Traverse(f, cs) == Prepend(made, Traverse(f, cs[i..]))
      {
        assert cs[i..][0] == cs[i] && cs[i..][1..] == cs[i + 1..];
        var call := ReplayRender(tables, cs[i]);
        if call.Err? { return Err(call.error); }
        encoder.Push(call.value);
        PrependTwice(made, call.value, Traverse(f, cs[i + 1..]));
        made := made + [call.value];
      }
      assert cs[|cs|..] == [] && made + [] == made;
      return Ok(());
    }
  }
}
