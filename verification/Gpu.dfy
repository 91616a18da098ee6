/** The GPU the engine drives: immutable objects, a queue with deferred writes, and buffers whose
    bytes are explicit. What passes, texture copies and shaders do to buffers is a parameter.

    A buffer or texture is named by the id it was created under together with how many times that
    id had been used before; any naming that never repeats would serve. */
module Gpu {
  import opened Basics
  import opened Protocol
  import opened Codec

  datatype Serial = Serial(id: nat, generation: nat)

  datatype GpuBuffer = GpuBuffer(serial: Serial, desc: BufferDescriptor)

  datatype GpuTexture = GpuTexture(serial: Serial, desc: Blob)

  datatype GpuTextureView = GpuTextureView(texture: GpuTexture, desc: Blob)

  datatype GpuSampler = GpuSampler(desc: Blob)

  datatype GpuShaderModule = GpuShaderModule(name: Label, code: string)

  datatype GpuBindGroupLayout =
    | ExplicitLayout(desc: Blob)
    | RenderDerived(render: GpuRenderPipeline, index: nat)
    | ComputeDerived(compute: GpuComputePipeline, index: nat)

  datatype GpuPipelineLayout =
    GpuPipelineLayout(name: Label, layouts: seq<GpuBindGroupLayout>, pushConstantRanges: Blob)

  /** Pipeline constants are not here: the server builds pipelines with default options. */
  datatype GpuComputePipeline =
    GpuComputePipeline(name: Label, layout: Option<GpuPipelineLayout>, shader: GpuShaderModule, entryPoint: Label)

  datatype GpuFragment = GpuFragment(shader: GpuShaderModule, entryPoint: Label, targets: Blob)

  datatype GpuRenderPipeline = GpuRenderPipeline(
    name: Label, layout: Option<GpuPipelineLayout>, vertexShader: GpuShaderModule, vertexEntry: Label,
    vertexBuffers: Blob, fragment: Option<GpuFragment>, fixedState: Blob)

  datatype GpuBinding =
    | BoundBuffer(buffer: GpuBuffer, offset: nat, size: Option<nat>)
    | BoundSampler(sampler: GpuSampler)
    | BoundView(view: GpuTextureView)

  datatype GpuBindGroup =
    GpuBindGroup(name: Label, layout: GpuBindGroupLayout, entries: seq<(nat, GpuBinding)>)

  datatype GpuColorAttachment = GpuColorAttachment(
    view: GpuTextureView, depthSlice: Option<nat>, resolveTarget: Option<GpuTextureView>, ops: Blob)

  datatype GpuDepthAttachment = GpuDepthAttachment(view: GpuTextureView, ops: Blob)

  /** Any object an id can stand for. */
  datatype GpuObject =
    | BufferObject(buffer: GpuBuffer)
    | TextureObject(texture: GpuTexture)
    | TextureViewObject(view: GpuTextureView)
    | SamplerObject(sampler: GpuSampler)
    | ShaderModuleObject(shader: GpuShaderModule)
    | BindGroupLayoutObject(bgl: GpuBindGroupLayout)
    | BindGroupObject(group: GpuBindGroup)
    | PipelineLayoutObject(layout: GpuPipelineLayout)
    | RenderPipelineObject(render: GpuRenderPipeline)
    | ComputePipelineObject(compute: GpuComputePipeline)

  /** One call on an encoder, a pass or the queue, with objects in place of ids. */
  datatype GpuCall =
    | GWriteBuffer(buffer: GpuBuffer, offset: nat, data: Bytes)
    | GWriteTexture(texture: GpuTexture, texels: Blob, data: Bytes)
    | GCopyBuffer(source: GpuBuffer, sourceOffset: nat, target: GpuBuffer, targetOffset: nat, size: nat)
    | GClearBuffer(buffer: GpuBuffer, offset: nat, clearSize: Option<nat>)
    | GBufferToTexture(buffer: GpuBuffer, layout: Blob, texture: GpuTexture, place: (nat, Blob, Blob), copySize: Blob)
    | GTextureToBuffer(texture: GpuTexture, place: (nat, Blob, Blob), buffer: GpuBuffer, layout: Blob, copySize: Blob)
    | GOpenCompute(name: Label)
    | GSetComputePipeline(compute: GpuComputePipeline)
    | GSetBindGroup(index: nat, group: GpuBindGroup, offsets: seq<nat>)
    | GSetPushConstants(offset: nat, data: Bytes)
    | GDispatch(x: nat, y: nat, z: nat)
    | GDispatchIndirect(buffer: GpuBuffer, offset: nat)
    | GCloseCompute
    | GOpenRender(name: Label, colors: seq<Option<GpuColorAttachment>>, depth: Option<GpuDepthAttachment>)
    | GSetRenderPipeline(render: GpuRenderPipeline)
    | GSetVertexBuffer(slot: nat, buffer: GpuBuffer, offset: nat, bound: Option<nat>)
    | GSetIndexBuffer(buffer: GpuBuffer, format: Blob, offset: nat, bound: Option<nat>)
    | GDraw(vertices: (nat, nat), instances: (nat, nat))
    | GDrawIndexed(indices: (nat, nat), baseVertex: int, instances: (nat, nat))
    | GCloseRender

  type Contents = map<Serial, Bytes>

  /** The parts of the world the engine calls into: the recording serializer, and the effect on
      buffers of every call that is not a plain byte transfer, given all calls before it. */
  datatype Device = Device(recordings: BodyCodec<Recording>, shade: (seq<GpuCall>, Contents, GpuCall) -> Contents)

  datatype GpuState = GpuState(
    bufferUses: map<nat, nat>,
    textureUses: map<nat, nat>,
    contents: Contents,
    staged: seq<GpuCall>,
    log: seq<GpuCall>)

  function UsesOf(uses: map<nat, nat>, id: nat): nat { if id in uses then uses[id] else 0 }

  function NewBuffer(g: GpuState, id: BufferId, desc: BufferDescriptor): (GpuState, GpuBuffer) {
    var serial := Serial(id, UsesOf(g.bufferUses, id));
    (g.(bufferUses := g.bufferUses[id := serial.generation + 1],
        contents := g.contents[serial := Zeros(desc.size)]),
     GpuBuffer(serial, desc))
  }

  function NewTexture(g: GpuState, id: TextureId, desc: Blob): (GpuState, GpuTexture) {
    var serial := Serial(id, UsesOf(g.textureUses, id));
    (g.(textureUses := g.textureUses[id := serial.generation + 1]), GpuTexture(serial, desc))
  }

  /** Bytes written into one buffer; a write outside it is rejected by validation and has no effect. */
  function Poke(m: Contents, s: Serial, offset: nat, data: Bytes): Contents {
    if s in m && offset + |data| <= |m[s]| then m[s := Splice(m[s], offset, data)] else m
  }

  function Peek(m: Contents, s: Serial, offset: nat, size: nat): Option<Bytes> {
    if s in m && offset + size <= |m[s]| then Some(m[s][offset..offset + size]) else None
  }

  function Effect(dev: Device, g: GpuState, c: GpuCall): Contents {
    match c
    case GWriteBuffer(b, offset, data) => Poke(g.contents, b.serial, offset, data)
    case GCopyBuffer(src, from, dst, to, size) =>
      (match Peek(g.contents, src.serial, from, size)
       case Some(data) => Poke(g.contents, dst.serial, to, data)
       case None => g.contents)
    case GClearBuffer(b, offset, size) =>
      if size.Some? then Poke(g.contents, b.serial, offset, Zeros(size.value))
      else if b.serial in g.contents && offset <= |g.contents[b.serial]|
      then Poke(g.contents, b.serial, offset, Zeros(|g.contents[b.serial]| - offset))
      else g.contents
    case _ => dev.shade(g.log, g.contents, c)
  }

  // ---- which buffers a shader can get at ----

  predicate Binds(group: GpuBindGroup, s: Serial) {
    exists e :: e in group.entries && e.1.BoundBuffer? && e.1.buffer.serial == s
  }

  predicate OpensOrCloses(c: GpuCall) { c.GOpenCompute? || c.GCloseCompute? || c.GOpenRender? || c.GCloseRender? }

  /** The buffer was bound to the pass that is open after `log`. */
  predicate PassBinds(log: seq<GpuCall>, s: Serial)
    decreases |log|
  {
    && log != []
    && var c := log[|log| - 1];
       !OpensOrCloses(c) && ((c.GSetBindGroup? && Binds(c.group, s)) || PassBinds(log[..|log| - 1], s))
  }

  predicate CopiesTextureTo(c: GpuCall, s: Serial) { c.GTextureToBuffer? && c.buffer.serial == s }

  predicate SameAt(m: Contents, n: Contents, s: Serial) { (s in m <==> s in n) && (s in m ==> m[s] == n[s]) }

  /** Besides byte transfers a call changes only the buffers bound to the open pass and, when it copies
      a texture into a buffer, that buffer. */
  ghost predicate ShadeIsLocal(dev: Device) {
    forall log, m: Contents, c, s: Serial ::
      !PassBinds(log, s) && !CopiesTextureTo(c, s) ==> SameAt(m, dev.shade(log, m, c), s)
  }

  lemma PassBindsAfter(log: seq<GpuCall>, c: GpuCall, s: Serial)
    ensures PassBinds(log + [c], s) <==>
      !OpensOrCloses(c) && ((c.GSetBindGroup? && Binds(c.group, s)) || PassBinds(log, s))
  {
    hide Binds;
    assert (log + [c])[..|log|] == log;
  }

  function Exec(dev: Device, g: GpuState, c: GpuCall): GpuState {
    g.(contents := Effect(dev, g, c), log := g.log + [c])
  }

  function ExecAll(dev: Device, g: GpuState, calls: seq<GpuCall>): GpuState
    decreases |calls|
  {
    if calls == [] then g else ExecAll(dev, Exec(dev, g, calls[0]), calls[1..])
  }

  lemma {:induction false} ExecAllAppend(dev: Device, g: GpuState, a: seq<GpuCall>, b: seq<GpuCall>)
    ensures ExecAll(dev, g, a + b) == ExecAll(dev, ExecAll(dev, g, a), b)
    decreases |a|
  {
    hide Exec;
    if a == [] {
      assert a + b == b;
    } else {
      ExecAllAppend(dev, Exec(dev, g, a[0]), a[1..], b);
      assert (a + b)[0] == a[0] && (a + b)[1..] == a[1..] + b;
    }
  }

  /** `write_buffer` and `write_texture` only take effect at the next submission. */
  function Stage(g: GpuState, c: GpuCall): GpuState { g.(staged := g.staged + [c]) }

  function QueueSubmit(dev: Device, g: GpuState, commandBuffers: seq<seq<GpuCall>>): GpuState {
    ExecAll(dev, g.(staged := []), g.staged + Flatten(commandBuffers))
  }

  lemma {:induction false} ExecKeepsStaged(dev: Device, g: GpuState, calls: seq<GpuCall>)
    ensures ExecAll(dev, g, calls).staged == g.staged
    decreases |calls|
  {
    if calls != [] {
      ExecKeepsStaged(dev, Exec(dev, g, calls[0]), calls[1..]);
    }
  }

  lemma {:induction false} ExecLog(dev: Device, g: GpuState, cs: seq<GpuCall>)
    ensures ExecAll(dev, g, cs).log == g.log + cs
    decreases |cs|
  {
    hide Effect;
    if cs == [] {
      assert g.log + cs == g.log;
    } else {
      ExecLog(dev, Exec(dev, g, cs[0]), cs[1..]);
      assert g.log + cs == g.log + [cs[0]] + cs[1..];
    }
  }

  lemma {:induction false} ExecKeepsUses(dev: Device, g: GpuState, cs: seq<GpuCall>)
    ensures var h := ExecAll(dev, g, cs); h.bufferUses == g.bufferUses && h.textureUses == g.textureUses
    decreases |cs|
  {
    hide Effect;
    if cs != [] { ExecKeepsUses(dev, Exec(dev, g, cs[0]), cs[1..]); }
  }

  // ---- byte transfers, byte by byte ----

  predicate IsTransfer(c: GpuCall) { c.GWriteBuffer? || c.GCopyBuffer? || c.GClearBuffer? }

  /** The byte a transfer puts at position `i` of a buffer, if it puts one there. A transfer that leaves
      a buffer it reads or writes puts none anywhere. */
  function BytePut(m: Contents, c: GpuCall, s: Serial, i: nat): Option<byte>
    requires IsTransfer(c) && s in m
  {
    match c
    case GWriteBuffer(b, offset, data) =>
      if b.serial == s && offset + |data| <= |m[s]| && offset <= i < offset + |data| then Some(data[i - offset])
      else None
    case GCopyBuffer(src, from, dst, to, size) =>
      if dst.serial == s && to + size <= |m[s]| && to <= i < to + size
        && src.serial in m && from + size <= |m[src.serial]|
      then Some(m[src.serial][from + i - to])
      else None
    case GClearBuffer(b, offset, size) =>
      if b.serial == s && offset <= i < |m[s]|
        && (size.Some? ==> offset + size.value <= |m[s]| && i < offset + size.value)
      then Some(0)
      else None
  }

  /** A transfer changes exactly the bytes it puts, and no buffer's length. */
  lemma TransferPuts(dev: Device, g: GpuState, c: GpuCall, s: Serial)
    requires IsTransfer(c)
    ensures var n := Effect(dev, g, c);
      && (s in n <==> s in g.contents)
      && (s in n ==> |n[s]| == |g.contents[s]|)
      && (s in n ==> forall i: nat :: i < |n[s]| ==>
            n[s][i] == var b := BytePut(g.contents, c, s, i); if b.Some? then b.value else g.contents[s][i])
  {
  }
}
