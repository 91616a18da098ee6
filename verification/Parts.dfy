/** What objects and calls are made of: every object the engine builds and every call it replays is
    put together from exactly the objects its references stand for, each in its own place. */
module Parts {
  import opened Basics
  import opened Protocol
  import opened Gpu
  import opened Tables
  import opened Replay
  import opened Engine
  import opened EngineLaws

  /** The objects stand behind the references, one for one and in order. */
  predicate Stand(t: Tables, refs: seq<ResourceId>, objects: seq<GpuObject>) {
    |refs| == |objects| && forall i :: 0 <= i < |refs| ==> Lookup(t, refs[i]) == Some(objects[i])
  }

  lemma StandAppend(t: Tables, a: seq<ResourceId>, b: seq<ResourceId>, x: seq<GpuObject>, y: seq<GpuObject>)
    requires Stand(t, a, x) && Stand(t, b, y)
    ensures Stand(t, a + b, x + y)
  {
  }

  lemma {:induction false} TraverseStands<T, U>(
      t: Tables, f: T -> Result<U, Response>, refs: T -> seq<ResourceId>, parts: U -> seq<GpuObject>, xs: seq<T>)
    requires Traverse(f, xs).Ok?
    requires forall x :: x in xs && f(x).Ok? ==> Stand(t, refs(x), parts(f(x).value))
    ensures Stand(t, FlatMap(refs, xs), FlatMap(parts, Traverse(f, xs).value))
  {
    hide Stand;
    if xs == [] {
      assert Stand(t, [], []) by { NothingStands(t); }
    } else {
      assert xs[0] in xs;
      TraverseStands(t, f, refs, parts, xs[1..]);
      var y, ys := f(xs[0]).value, Traverse(f, xs[1..]).value;
      assert ([y] + ys)[1..] == ys;
      StandAppend(t, refs(xs[0]), FlatMap(refs, xs[1..]), parts(y), FlatMap(parts, ys));
    }
  }

  lemma NothingStands(t: Tables)
    ensures Stand(t, [], [])
  {
  }

  // ---- objects ----

  function LayoutParts(l: Option<GpuPipelineLayout>): seq<GpuObject> {
    match l case None => [] case Some(x) => [PipelineLayoutObject(x)]
  }

  function FragmentParts(f: Option<GpuFragment>): seq<GpuObject> {
    match f case None => [] case Some(x) => [ShaderModuleObject(x.shader)]
  }

  function BindingParts(e: (nat, GpuBinding)): seq<GpuObject> {
    match e.1
    case BoundBuffer(b, _, _) => [BufferObject(b)]
    case BoundSampler(s) => [SamplerObject(s)]
    case BoundView(v) => [TextureViewObject(v)]
  }

  function BglParts(l: GpuBindGroupLayout): seq<GpuObject> { [BindGroupLayoutObject(l)] }

  /** The objects an object was made of. */
  function PartsOf(o: GpuObject): seq<GpuObject> {
    match o
    case TextureViewObject(v) => [TextureObject(v.texture)]
    case BindGroupLayoutObject(RenderDerived(p, _)) => [RenderPipelineObject(p)]
    case BindGroupLayoutObject(ComputeDerived(p, _)) => [ComputePipelineObject(p)]
    case BindGroupObject(g) => BglParts(g.layout) + FlatMap(BindingParts, g.entries)
    case PipelineLayoutObject(l) => FlatMap(BglParts, l.layouts)
    case RenderPipelineObject(p) =>
      LayoutParts(p.layout) + [ShaderModuleObject(p.vertexShader)] + FragmentParts(p.fragment)
    case ComputePipelineObject(p) => [ShaderModuleObject(p.shader)] + LayoutParts(p.layout)
    case _ => []
  }

  lemma BindGroupStands(dev: Device, t: Tables, id: BindGroupId, desc: BindGroupDescriptor)
    requires BuildBindGroup(t, desc).Ok?
    ensures Stand(t, Refs(dev, CreateBindGroup(id, desc)), PartsOf(BindGroupObject(BuildBindGroup(t, desc).value)))
  {
    var f, g := e => BindEntry(t, e), BuildBindGroup(t, desc).value;
    TraverseStands(t, f, BindRefs, BindingParts, desc.entries);
    hide BindRefs, BindingParts, BindEntry;
    StandAppend(t, [BindGroupLayoutR(desc.layout)], FlatMap(BindRefs, desc.entries), BglParts(g.layout),
      FlatMap(BindingParts, g.entries));
  }

  /** The id stands for this object of its own type. */
  predicate Is<T(==)>(table: map<nat, T>, id: nat, x: T) { id in table && table[id] == x }

  predicate IsIfAny<T(==)>(table: map<nat, T>, id: Option<nat>, x: Option<T>) {
    (id.Some? <==> x.Some?) && (id.Some? ==> Is(table, id.value, x.value))
  }

  predicate SameSlot(t: Tables, e: BindGroupEntry, bound: (nat, GpuBinding)) {
    && bound.0 == e.binding
    && match e.resource
       case BufferBound(b) =>
         && bound.1.BoundBuffer? && Is(t.buffers, b.buffer, bound.1.buffer)
         && bound.1.offset == b.offset && bound.1.size == b.size
       case SamplerBound(id) => bound.1.BoundSampler? && Is(t.samplers, id, bound.1.sampler)
       case TextureViewBound(id) => bound.1.BoundView? && Is(t.textureViews, id, bound.1.view)
       case _ => false
  }

  predicate SameEntries(t: Tables, desc: BindGroupDescriptor, group: GpuBindGroup) {
    && group.name == desc.name && Is(t.bindGroupLayouts, desc.layout, group.layout)
    && |group.entries| == |desc.entries|
    && forall i :: 0 <= i < |desc.entries| ==> SameSlot(t, desc.entries[i], group.entries[i])
  }

  /** Entries keep their binding numbers, objects and buffer ranges, in the order of the descriptor. */
  lemma BindGroupKeepsSlots(t: Tables, desc: BindGroupDescriptor)
    requires BuildBindGroup(t, desc).Ok?
    ensures SameEntries(t, desc, BuildBindGroup(t, desc).value)
  {
    var f, g := e => BindEntry(t, e), BuildBindGroup(t, desc).value;
    TraverseLength(f, desc.entries);
    forall i | 0 <= i < |g.entries| ensures SameSlot(t, desc.entries[i], g.entries[i]) {
      assert f(desc.entries[i]) == Ok(g.entries[i]);
    }
  }

  lemma EntryBinds(t: Tables, e: BindGroupEntry)
    requires BindEntry(t, e).Ok? && BindEntry(t, e).value.1.BoundBuffer?
    ensures e.resource.BufferBound? && e.resource.binding.buffer in t.buffers
    ensures BindEntry(t, e).value.1.buffer == t.buffers[e.resource.binding.buffer]
  {
  }

  /** A bind group binds no buffers but those its descriptor names. */
  lemma BindsWhatIsNamed(t: Tables, desc: BindGroupDescriptor, s: Serial) returns (e: BindGroupEntry)
    requires BuildBindGroup(t, desc).Ok? && Binds(BuildBindGroup(t, desc).value, s)
    ensures e in desc.entries && e.resource.BufferBound? && e.resource.binding.buffer in t.buffers
    ensures t.buffers[e.resource.binding.buffer].serial == s
  {
    hide BindEntry;
    var f, g := e => BindEntry(t, e), BuildBindGroup(t, desc).value;
    TraverseLength(f, desc.entries);
    var i :| 0 <= i < |g.entries| && g.entries[i].1.BoundBuffer? && g.entries[i].1.buffer.serial == s;
    e := desc.entries[i];
    assert f(e) == Ok(g.entries[i]);
    EntryBinds(t, e);
  }

  lemma PipelineLayoutStands(t: Tables, desc: PipelineLayoutDescriptor)
    requires BuildPipelineLayout(t, desc).Ok?
    ensures Stand(t, FlatMap(BglRefs, desc.bindGroupLayouts),
      PartsOf(PipelineLayoutObject(BuildPipelineLayout(t, desc).value)))
  {
    TraverseStands(t, id => FindBgl(t, id), BglRefs, BglParts, desc.bindGroupLayouts);
  }

  lemma LayoutStands(t: Tables, l: Option<PipelineLayoutId>)
    requires FindPipelineLayout(t, l).Ok?
    ensures Stand(t, LayoutRefs(l), LayoutParts(FindPipelineLayout(t, l).value))
  {
  }

  lemma ShaderStands(t: Tables, id: ShaderModuleId)
    requires FindShader(t, id).Ok?
    ensures Stand(t, [ShaderModuleR(id)], [ShaderModuleObject(FindShader(t, id).value)])
  {
  }

  lemma FragmentStands(t: Tables, f: Option<FragmentState>)
    requires BuildFragment(t, f).Ok?
    ensures Stand(t, FragmentRefs(f), FragmentParts(BuildFragment(t, f).value))
  {
  }

  lemma ComputePipelineStands(t: Tables, desc: ComputePipelineDescriptor)
    requires BuildComputePipeline(t, desc).Ok?
    ensures Stand(t, [ShaderModuleR(desc.shader)] + LayoutRefs(desc.layout),
      PartsOf(ComputePipelineObject(BuildComputePipeline(t, desc).value)))
  {
    hide Stand, FindPipelineLayout, FindShader, LayoutRefs, LayoutParts;
    var p := BuildComputePipeline(t, desc).value;
    LayoutStands(t, desc.layout);
    ShaderStands(t, desc.shader);
    StandAppend(t, [ShaderModuleR(desc.shader)], LayoutRefs(desc.layout), [ShaderModuleObject(p.shader)],
      LayoutParts(p.layout));
  }

  lemma RenderPipelineStands(t: Tables, desc: RenderPipelineDescriptor)
    requires BuildRenderPipeline(t, desc).Ok?
    ensures Stand(t, LayoutRefs(desc.layout) + [ShaderModuleR(desc.vertex.vertexModule)] + FragmentRefs(desc.fragment),
      PartsOf(RenderPipelineObject(BuildRenderPipeline(t, desc).value)))
  {
    hide Stand, FindPipelineLayout, FindShader, BuildFragment, LayoutRefs, LayoutParts, FragmentRefs, FragmentParts;
    var p, v := BuildRenderPipeline(t, desc).value, desc.vertex.vertexModule;
    LayoutStands(t, desc.layout);
    ShaderStands(t, v);
    FragmentStands(t, desc.fragment);
    StandAppend(t, LayoutRefs(desc.layout), [ShaderModuleR(v)], LayoutParts(p.layout),
      [ShaderModuleObject(p.vertexShader)]);
    StandAppend(t, LayoutRefs(desc.layout) + [ShaderModuleR(v)], FragmentRefs(desc.fragment),
      LayoutParts(p.layout) + [ShaderModuleObject(p.vertexShader)], FragmentParts(p.fragment));
  }

  lemma AssembledStands(dev: Device, t: Tables, a: Action)
    requires Creates(a).Some? && !TakesName(a) && Assemble(t, a).Ok?
    ensures Stand(t, Refs(dev, a), PartsOf(Assemble(t, a).value))
  {
    hide BuildBindGroup, BuildPipelineLayout, BuildRenderPipeline, BuildComputePipeline;
    match a
    case CreateBindGroup(id, desc) => BindGroupStands(dev, t, id, desc);
    case CreatePipelineLayout(_, desc) => PipelineLayoutStands(t, desc);
    case CreateRenderPipeline(_, desc) => RenderPipelineStands(t, desc);
    case CreateComputePipeline(_, desc) => ComputePipelineStands(t, desc);
    case _ =>
  }

  /** Every object created is made of exactly the objects its descriptor refers to, in their places. */
  lemma ObjectsAreMadeOfReferences(dev: Device, t: Tables, g: GpuState, a: Action)
    requires Creates(a).Some? && Construct(t, g, a).Ok?
    ensures Stand(t, Refs(dev, a), PartsOf(Construct(t, g, a).value.1))
  {
    if TakesName(a) {
      hide Assemble;
    } else {
      hide Assemble, Construct, Refs, PartsOf, Creates, Stand;
      ConstructAssembles(t, g, a);
      AssembledStands(dev, t, a);
    }
  }

  predicate SameFragment(t: Tables, f: Option<FragmentState>, g: Option<GpuFragment>) {
    && (f.Some? <==> g.Some?)
    && (f.Some? ==>
          && Is(t.shaderModules, f.value.fragmentModule, g.value.shader)
          && g.value.entryPoint == f.value.fragmentEntry && g.value.targets == f.value.targets)
  }

  predicate SameLayouts(t: Tables, desc: PipelineLayoutDescriptor, l: GpuPipelineLayout) {
    && l.name == desc.name && l.pushConstantRanges == desc.pushConstantRanges
    && |l.layouts| == |desc.bindGroupLayouts|
    && forall i :: 0 <= i < |l.layouts| ==> Is(t.bindGroupLayouts, desc.bindGroupLayouts[i], l.layouts[i])
  }

  predicate SameRender(t: Tables, desc: RenderPipelineDescriptor, p: GpuRenderPipeline) {
    && p.name == desc.name && IsIfAny(t.pipelineLayouts, desc.layout, p.layout)
    && Is(t.shaderModules, desc.vertex.vertexModule, p.vertexShader)
    && p.vertexEntry == desc.vertex.vertexEntry && p.vertexBuffers == desc.vertex.buffers
    && SameFragment(t, desc.fragment, p.fragment) && p.fixedState == desc.fixedState
  }

  predicate SameCompute(t: Tables, desc: ComputePipelineDescriptor, p: GpuComputePipeline) {
    && p.name == desc.name && IsIfAny(t.pipelineLayouts, desc.layout, p.layout)
    && Is(t.shaderModules, desc.shader, p.shader) && p.entryPoint == desc.entryPoint
  }

  /** The object is the one the action asked for, in every field. */
  predicate SameFields(t: Tables, a: Action, o: GpuObject) {
    match a
    case CreateBuffer(id, desc) => o.BufferObject? && o.buffer.serial.id == id && o.buffer.desc == desc
    case CreateTexture(id, desc) => o.TextureObject? && o.texture.serial.id == id && o.texture.desc == desc
    case CreateTextureView(_, texture, desc) =>
      o.TextureViewObject? && Is(t.textures, texture, o.view.texture) && o.view.desc == desc
    case CreateSampler(_, desc) => o.SamplerObject? && o.sampler.desc == desc
    case CreateShaderModule(_, desc) =>
      o.ShaderModuleObject? && o.shader.name == desc.name && desc.source == Wgsl(o.shader.code)
    case CreateBindGroupLayout(_, desc) => o == BindGroupLayoutObject(ExplicitLayout(desc))
    case CreateBindGroup(_, desc) => o.BindGroupObject? && SameEntries(t, desc, o.group)
    case CreatePipelineLayout(_, desc) => o.PipelineLayoutObject? && SameLayouts(t, desc, o.layout)
    case CreateRenderPipeline(_, desc) => o.RenderPipelineObject? && SameRender(t, desc, o.render)
    case CreateComputePipeline(_, desc) => o.ComputePipelineObject? && SameCompute(t, desc, o.compute)
    case DeriveRenderBgl(p, index, _) =>
      && o.BindGroupLayoutObject? && o.bgl.RenderDerived? && Is(t.renderPipelines, p, o.bgl.render)
      && o.bgl.index == index
    case DeriveComputeBgl(p, index, _) =>
      && o.BindGroupLayoutObject? && o.bgl.ComputeDerived? && Is(t.computePipelines, p, o.bgl.compute)
      && o.bgl.index == index
    case _ => false
  }

  lemma LayoutsKeepFields(t: Tables, desc: PipelineLayoutDescriptor)
    requires BuildPipelineLayout(t, desc).Ok?
    ensures SameLayouts(t, desc, BuildPipelineLayout(t, desc).value)
  {
    var f, l := id => FindBgl(t, id), BuildPipelineLayout(t, desc).value;
    TraverseLength(f, desc.bindGroupLayouts);
    forall i | 0 <= i < |l.layouts| ensures Is(t.bindGroupLayouts, desc.bindGroupLayouts[i], l.layouts[i]) {
      assert f(desc.bindGroupLayouts[i]) == Ok(l.layouts[i]);
    }
  }

  lemma PipelinesKeepFields(t: Tables, a: Action)
    requires a.CreateRenderPipeline? || a.CreateComputePipeline?
    requires Assemble(t, a).Ok?
    ensures SameFields(t, a, Assemble(t, a).value)
  {
  }

  lemma FieldsAreAsAsked(t: Tables, a: Action)
    requires Creates(a).Some? && !TakesName(a) && Assemble(t, a).Ok?
    ensures SameFields(t, a, Assemble(t, a).value)
  {
    hide BuildRenderPipeline, BuildComputePipeline, BuildPipelineLayout, BuildBindGroup, SameEntries, SameLayouts;
    match a
    case CreateBindGroup(_, desc) => BindGroupKeepsSlots(t, desc);
    case CreatePipelineLayout(_, desc) => LayoutsKeepFields(t, desc);
    case CreateRenderPipeline(_, _) => PipelinesKeepFields(t, a);
    case CreateComputePipeline(_, _) => PipelinesKeepFields(t, a);
    case _ =>
  }

  /** Every object created is the one its action asked for, with the fields it gave and the objects
      its ids stand for. */
  lemma ObjectsAreAsAsked(t: Tables, g: GpuState, a: Action)
    requires Creates(a).Some? && Construct(t, g, a).Ok?
    ensures SameFields(t, a, Construct(t, g, a).value.1)
  {
    if !TakesName(a) {
      hide Construct;
      ConstructAssembles(t, g, a);
      FieldsAreAsAsked(t, a);
    }
  }

  // ---- calls ----

  function ColorParts(a: Option<GpuColorAttachment>): seq<GpuObject> {
    match a
    case None => []
    case Some(att) =>
      [TextureViewObject(att.view)]
      + if att.resolveTarget.Some? then [TextureViewObject(att.resolveTarget.value)] else []
  }

  function DepthParts(a: Option<GpuDepthAttachment>): seq<GpuObject> {
    match a case None => [] case Some(att) => [TextureViewObject(att.view)]
  }

  /** The objects a call is made on. */
  function CallParts(c: GpuCall): seq<GpuObject> {
    match c
    case GWriteBuffer(b, _, _) => [BufferObject(b)]
    case GWriteTexture(x, _, _) => [TextureObject(x)]
    case GCopyBuffer(src, _, dst, _, _) => [BufferObject(src), BufferObject(dst)]
    case GClearBuffer(b, _, _) => [BufferObject(b)]
    case GBufferToTexture(b, _, x, _, _) => [BufferObject(b), TextureObject(x)]
    case GTextureToBuffer(x, _, b, _, _) => [TextureObject(x), BufferObject(b)]
    case GSetComputePipeline(p) => [ComputePipelineObject(p)]
    case GSetBindGroup(_, g, _) => [BindGroupObject(g)]
    case GDispatchIndirect(b, _) => [BufferObject(b)]
    case GOpenRender(_, colors, depth) => FlatMap(ColorParts, colors) + DepthParts(depth)
    case GSetRenderPipeline(p) => [RenderPipelineObject(p)]
    case GSetVertexBuffer(_, b, _, _) => [BufferObject(b)]
    case GSetIndexBuffer(b, _, _, _) => [BufferObject(b)]
    case _ => []
  }

  lemma ColorStands(t: Tables, a: Option<ColorAttachment>)
    requires ReplayColor(t, a).Ok?
    ensures Stand(t, ColorRefs(a), ColorParts(ReplayColor(t, a).value))
  {
  }

  lemma OpenRenderStands(
      t: Tables, name: Label, colors: seq<Option<ColorAttachment>>, depth: Option<DepthStencilAttachment>)
    requires ReplayOpenRender(t, name, colors, depth).Ok?
    ensures Stand(t, FlatMap(ColorRefs, colors) + DepthRefs(depth),
      CallParts(ReplayOpenRender(t, name, colors, depth).value))
  {
    var call, f := ReplayOpenRender(t, name, colors, depth).value, a => ReplayColor(t, a);
    assert Stand(t, DepthRefs(depth), DepthParts(call.depth)) by { hide ReplayColor; }
    hide ReplayColor, Stand, ColorRefs, ColorParts, DepthRefs, DepthParts;
    forall a | a in colors && f(a).Ok? ensures Stand(t, ColorRefs(a), ColorParts(f(a).value)) {
      ColorStands(t, a);
    }
    TraverseStands(t, f, ColorRefs, ColorParts, colors);
    StandAppend(t, FlatMap(ColorRefs, colors), DepthRefs(depth), FlatMap(ColorParts, call.colors),
      DepthParts(call.depth));
  }

  lemma CallStands(t: Tables, c: Call)
    requires Resolve(t, c).Ok?
    ensures Stand(t, CallRefs(c), CallParts(Resolve(t, c).value))
  {
    hide ReplayOpenRender;
    if c.OpenRender? { OpenRenderStands(t, c.name, c.colors, c.depth); }
  }

  /** Every call replayed from a recording is made on exactly the objects its ids stand for. */
  lemma CallsAreMadeOnReferences(dev: Device, t: Tables, raw: Bytes)
    requires BuildCommands(dev, t, raw).Ok?
    ensures Stand(t, RecordingRefs(dev, raw), FlatMap(CallParts, BuildCommands(dev, t, raw).value))
  {
    hide Stand, Resolve, CallRefs, CallParts;
    var cs := dev.recordings.decode(raw).value.commands;
    ReplayIsFlat(t, cs);
    var f := c => Resolve(t, c);
    forall c | c in CallsOfAll(cs) && f(c).Ok? ensures Stand(t, CallRefs(c), CallParts(f(c).value)) {
      CallStands(t, c);
    }
    TraverseStands(t, f, CallRefs, CallParts, CallsOfAll(cs));
  }

  predicate SameAttachment(t: Tables, a: Option<ColorAttachment>, g: Option<GpuColorAttachment>) {
    && (a.Some? <==> g.Some?)
    && (a.Some? ==>
          && Is(t.textureViews, a.value.view, g.value.view) && g.value.depthSlice == a.value.depthSlice
          && IsIfAny(t.textureViews, a.value.resolveTarget, g.value.resolveTarget) && g.value.ops == a.value.ops)
  }

  predicate SameDepth(t: Tables, a: Option<DepthStencilAttachment>, g: Option<GpuDepthAttachment>) {
    && (a.Some? <==> g.Some?)
    && (a.Some? ==> Is(t.textureViews, a.value.view, g.value.view) && g.value.ops == a.value.depthStencilOps)
  }

  predicate SamePlace(x: ImageCopyTexture, place: (nat, Blob, Blob)) {
    place.0 == x.mipLevel && place.1 == x.origin && place.2 == x.aspect
  }

  predicate SameOnEncoder(t: Tables, c: EncoderCommand, g: GpuCall) {
    match c
    case CopyBufferToBuffer(src, from, dst, to, size) =>
      && g.GCopyBuffer? && Is(t.buffers, src, g.source) && Is(t.buffers, dst, g.target)
      && g.sourceOffset == from && g.targetOffset == to && g.size == size
    case ClearBuffer(b, offset, size) =>
      g.GClearBuffer? && Is(t.buffers, b, g.buffer) && g.offset == offset && g.clearSize == size
    case CopyBufferToTexture(from, to, size) =>
      && g.GBufferToTexture? && Is(t.buffers, from.buffer, g.buffer) && Is(t.textures, to.texture, g.texture)
      && g.layout == from.layout && SamePlace(to, g.place) && g.copySize == size
    case CopyTextureToBuffer(from, to, size) =>
      && g.GTextureToBuffer? && Is(t.textures, from.texture, g.texture) && Is(t.buffers, to.buffer, g.buffer)
      && SamePlace(from, g.place) && g.layout == to.layout && g.copySize == size
    case _ => false
  }

  predicate SameInCompute(t: Tables, c: ComputeCommand, g: GpuCall) {
    match c
    case SetComputePipeline(p) => g.GSetComputePipeline? && Is(t.computePipelines, p, g.compute)
    case SetComputeBindGroup(index, group, offsets) =>
      g.GSetBindGroup? && g.index == index && Is(t.bindGroups, group, g.group) && g.offsets == offsets
    case SetPushConstants(offset, data) => g.GSetPushConstants? && g.offset == offset && g.data == data
    case DispatchWorkgroups(x, y, z) => g.GDispatch? && g.x == x && g.y == y && g.z == z
    case DispatchWorkgroupsIndirect(b, offset) =>
      g.GDispatchIndirect? && Is(t.buffers, b, g.buffer) && g.offset == offset
  }

  predicate SameInRender(t: Tables, c: RenderCommand, g: GpuCall) {
    match c
    case SetRenderPipeline(p) => g.GSetRenderPipeline? && Is(t.renderPipelines, p, g.render)
    case SetRenderBindGroup(index, group, offsets) =>
      g.GSetBindGroup? && g.index == index && Is(t.bindGroups, group, g.group) && g.offsets == offsets
    case SetVertexBuffer(slot, b, offset, size) =>
      && g.GSetVertexBuffer? && g.slot == slot && Is(t.buffers, b, g.buffer)
      && g.offset == offset && g.bound == size
    case SetIndexBuffer(b, format, offset, size) =>
      && g.GSetIndexBuffer? && Is(t.buffers, b, g.buffer) && g.format == format
      && g.offset == offset && g.bound == size
    case Draw(vertices, instances) => g.GDraw? && g.vertices == vertices && g.instances == instances
    case DrawIndexed(indices, base, instances) =>
      g.GDrawIndexed? && g.indices == indices && g.baseVertex == base && g.instances == instances
  }

  /** The call is the one that was made, with every argument, on the objects its ids stand for. */
  predicate SameArguments(t: Tables, c: Call, g: GpuCall) {
    match c
    case OnEncoder(command) => SameOnEncoder(t, command, g)
    case OpenCompute(name) => g.GOpenCompute? && g.name == name
    case InCompute(command) => SameInCompute(t, command, g)
    case CloseCompute => g.GCloseCompute?
    case OpenRender(name, colors, depth) =>
      && g.GOpenRender? && g.name == name && |g.colors| == |colors| && SameDepth(t, depth, g.depth)
      && forall i :: 0 <= i < |colors| ==> SameAttachment(t, colors[i], g.colors[i])
    case InRender(command) => SameInRender(t, command, g)
    case CloseRender => g.GCloseRender?
  }

  /** Each call is made as the program made it, in order. */
  predicate MadeOn(t: Tables, cs: seq<Call>, gs: seq<GpuCall>) {
    |gs| == |cs| && forall i :: 0 <= i < |cs| ==> SameArguments(t, cs[i], gs[i])
  }

  lemma OpenRenderKeepsArguments(
      t: Tables, name: Label, colors: seq<Option<ColorAttachment>>, depth: Option<DepthStencilAttachment>)
    requires ReplayOpenRender(t, name, colors, depth).Ok?
    ensures SameArguments(t, OpenRender(name, colors, depth), ReplayOpenRender(t, name, colors, depth).value)
  {
    var f, g := a => ReplayColor(t, a), ReplayOpenRender(t, name, colors, depth).value;
    TraverseLength(f, colors);
    forall i | 0 <= i < |colors| ensures SameAttachment(t, colors[i], g.colors[i]) {
      assert f(colors[i]) == Ok(g.colors[i]);
    }
  }

  lemma CallKeepsArguments(t: Tables, c: Call)
    requires Resolve(t, c).Ok?
    ensures SameArguments(t, c, Resolve(t, c).value)
  {
    hide ReplayOpenRender, SameAttachment;
    if c.OpenRender? { OpenRenderKeepsArguments(t, c.name, c.colors, c.depth); }
  }

  /** Resolving changes nothing of a call but its ids. */
  lemma ResolvedCallsAreMade(t: Tables, cs: seq<Call>)
    requires ResolveAll(t, cs).Ok?
    ensures MadeOn(t, cs, ResolveAll(t, cs).value)
  {
    hide Resolve, SameArguments;
    var f, gs := c => Resolve(t, c), ResolveAll(t, cs).value;
    TraverseLength(f, cs);
    forall i | 0 <= i < |cs| ensures SameArguments(t, cs[i], gs[i]) {
      assert f(cs[i]) == Ok(gs[i]);
      CallKeepsArguments(t, cs[i]);
    }
  }

  /** The engine issues exactly the calls of a recording, each as it was recorded, in order. */
  lemma BuiltCallsAreMade(dev: Device, t: Tables, raw: Bytes)
    requires BuildCommands(dev, t, raw).Ok?
    ensures dev.recordings.decode(raw).Some?
    ensures MadeOn(t, CallsOfAll(dev.recordings.decode(raw).value.commands), BuildCommands(dev, t, raw).value)
  {
    hide MadeOn, Resolve;
    var cs := dev.recordings.decode(raw).value.commands;
    ReplayIsFlat(t, cs);
    ResolvedCallsAreMade(t, CallsOfAll(cs));
  }
}
