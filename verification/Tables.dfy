/** Id to object storage (server/tables.rs): one table per resource type. */
module Tables {
  import opened Basics
  import opened Protocol
  import opened Gpu

  datatype Tables = Tables(
    buffers: map<BufferId, GpuBuffer>,
    textures: map<TextureId, GpuTexture>,
    textureViews: map<TextureViewId, GpuTextureView>,
    samplers: map<SamplerId, GpuSampler>,
    shaderModules: map<ShaderModuleId, GpuShaderModule>,
    bindGroupLayouts: map<BindGroupLayoutId, GpuBindGroupLayout>,
    bindGroups: map<BindGroupId, GpuBindGroup>,
    pipelineLayouts: map<PipelineLayoutId, GpuPipelineLayout>,
    renderPipelines: map<RenderPipelineId, GpuRenderPipeline>,
    computePipelines: map<ComputePipelineId, GpuComputePipeline>)

  function Empty(): Tables {
    Tables(map[], map[], map[], map[], map[], map[], map[], map[], map[], map[])
  }

  /** What an id stands for, whatever its type. */
  function Lookup(t: Tables, r: ResourceId): Option<GpuObject> {
    match r
    case BufferR(id) => if id in t.buffers then Some(BufferObject(t.buffers[id])) else None
    case TextureR(id) => if id in t.textures then Some(TextureObject(t.textures[id])) else None
    case TextureViewR(id) => if id in t.textureViews then Some(TextureViewObject(t.textureViews[id])) else None
    case SamplerR(id) => if id in t.samplers then Some(SamplerObject(t.samplers[id])) else None
    case ShaderModuleR(id) => if id in t.shaderModules then Some(ShaderModuleObject(t.shaderModules[id])) else None
    case BindGroupLayoutR(id) =>
      if id in t.bindGroupLayouts then Some(BindGroupLayoutObject(t.bindGroupLayouts[id])) else None
    case BindGroupR(id) => if id in t.bindGroups then Some(BindGroupObject(t.bindGroups[id])) else None
    case PipelineLayoutR(id) =>
      if id in t.pipelineLayouts then Some(PipelineLayoutObject(t.pipelineLayouts[id])) else None
    case RenderPipelineR(id) =>
      if id in t.renderPipelines then Some(RenderPipelineObject(t.renderPipelines[id])) else None
    case ComputePipelineR(id) =>
      if id in t.computePipelines then Some(ComputePipelineObject(t.computePipelines[id])) else None
    case DeviceR(_) => None
    case QueueR(_) => None
    case CommandBufferR(_) => None
  }

  predicate Names(r: ResourceId, o: GpuObject) {
    match o
    case BufferObject(_) => r.BufferR?
    case TextureObject(_) => r.TextureR?
    case TextureViewObject(_) => r.TextureViewR?
    case SamplerObject(_) => r.SamplerR?
    case ShaderModuleObject(_) => r.ShaderModuleR?
    case BindGroupLayoutObject(_) => r.BindGroupLayoutR?
    case BindGroupObject(_) => r.BindGroupR?
    case PipelineLayoutObject(_) => r.PipelineLayoutR?
    case RenderPipelineObject(_) => r.RenderPipelineR?
    case ComputePipelineObject(_) => r.ComputePipelineR?
  }

  /** Store an object under an id of its own type, replacing what was there. */
  function Insert(t: Tables, r: ResourceId, o: GpuObject): Tables {
    match o
    case BufferObject(x) => t.(buffers := t.buffers[r.id := x])
    case TextureObject(x) => t.(textures := t.textures[r.id := x])
    case TextureViewObject(x) => t.(textureViews := t.textureViews[r.id := x])
    case SamplerObject(x) => t.(samplers := t.samplers[r.id := x])
    case ShaderModuleObject(x) => t.(shaderModules := t.shaderModules[r.id := x])
    case BindGroupLayoutObject(x) => t.(bindGroupLayouts := t.bindGroupLayouts[r.id := x])
    case BindGroupObject(x) => t.(bindGroups := t.bindGroups[r.id := x])
    case PipelineLayoutObject(x) => t.(pipelineLayouts := t.pipelineLayouts[r.id := x])
    case RenderPipelineObject(x) => t.(renderPipelines := t.renderPipelines[r.id := x])
    case ComputePipelineObject(x) => t.(computePipelines := t.computePipelines[r.id := x])
  }

  lemma InsertLookup(t: Tables, r: ResourceId, o: GpuObject, q: ResourceId)
    requires Names(r, o)
    ensures Lookup(Insert(t, r, o), q) == if q == r then Some(o) else Lookup(t, q)
  {
  }

  function RemoveBuffer(t: Tables, id: BufferId): Tables {
    t.(buffers := t.buffers - {id})
  }

  lemma RemoveLookup(t: Tables, id: BufferId, q: ResourceId)
    ensures Lookup(RemoveBuffer(t, id), q) == if q == BufferR(id) then None else Lookup(t, q)
  {
  }

  /** Two tables give the same objects for all of `refs`. */
  predicate Agree(t: Tables, u: Tables, refs: seq<ResourceId>) {
    forall r :: r in refs ==> Lookup(t, r) == Lookup(u, r)
  }

  /** The first of `refs` the tables do not hold. */
  function FirstMissing(t: Tables, refs: seq<ResourceId>): Option<ResourceId> {
    if refs == [] then None
    else if Lookup(t, refs[0]).None? then Some(refs[0])
    else FirstMissing(t, refs[1..])
  }

  lemma {:induction false} FirstMissingAppend(t: Tables, a: seq<ResourceId>, b: seq<ResourceId>)
    ensures FirstMissing(t, a + b) ==
      if FirstMissing(t, a).Some? then FirstMissing(t, a) else FirstMissing(t, b)
  {
    if a == [] {
      assert a + b == b;
    } else {
      FirstMissingAppend(t, a[1..], b);
      assert (a + b)[0] == a[0] && (a + b)[1..] == a[1..] + b;
    }
  }

  lemma {:induction false} NoneMissing(t: Tables, refs: seq<ResourceId>)
    ensures FirstMissing(t, refs).None? <==> forall r :: r in refs ==> Lookup(t, r).Some?
    ensures FirstMissing(t, refs).Some? ==>
      FirstMissing(t, refs).value in refs && Lookup(t, FirstMissing(t, refs).value).None?
  {
    if refs != [] {
      NoneMissing(t, refs[1..]);
      assert forall r :: r in refs <==> r == refs[0] || r in refs[1..];
    }
  }

  /** A lookup result stops at the first missing reference, or succeeds when there is none. */
  predicate StopsAtMissing<U>(t: Tables, r: Result<U, Response>, refs: seq<ResourceId>) {
    match FirstMissing(t, refs)
    case None => r.Ok?
    case Some(m) => r == Err(UnknownId(m))
  }

  lemma {:induction false} TraverseStops<T, U>(
      t: Tables, f: T -> Result<U, Response>, refs: T -> seq<ResourceId>, xs: seq<T>)
    requires forall x :: x in xs ==> StopsAtMissing(t, f(x), refs(x))
    ensures StopsAtMissing(t, Traverse(f, xs), FlatMap(refs, xs))
  {
    if xs != [] {
      assert xs[0] in xs;
      TraverseStops(t, f, refs, xs[1..]);
      FirstMissingAppend(t, refs(xs[0]), FlatMap(refs, xs[1..]));
    }
  }

  /** The same for a request the server may not support: it stops at the first missing reference it
      gets to, otherwise at what it does not support. */
  predicate StopsAt<U>(t: Tables, r: Result<U, Response>, refs: seq<ResourceId>, bad: Option<Response>) {
    match FirstMissing(t, refs)
    case Some(m) => r == Err(UnknownId(m))
    case None =>
      match bad
      case None => r.Ok?
      case Some(e) => r == Err(e)
  }

  lemma {:induction false} TraverseStopsAt<T, U>(
      t: Tables, f: T -> Result<U, Response>, refs: T -> seq<ResourceId>, good: T -> bool, bad: Response, xs: seq<T>)
    requires forall x :: x in xs && good(x) ==> StopsAtMissing(t, f(x), refs(x))
    requires forall x :: x in xs && !good(x) ==> f(x) == Err(bad)
    ensures StopsAt(t, Traverse(f, xs), FlatMap(refs, GoodPrefix(good, xs)),
      if forall x :: x in xs ==> good(x) then None else Some(bad))
  {
    if xs != [] {
      assert xs[0] in xs;
      assert forall x :: x in xs <==> x == xs[0] || x in xs[1..];
      if good(xs[0]) {
        TraverseStopsAt(t, f, refs, good, bad, xs[1..]);
        var rest := GoodPrefix(good, xs[1..]);
        assert ([xs[0]] + rest)[1..] == rest;
        FirstMissingAppend(t, refs(xs[0]), FlatMap(refs, rest));
      }
    }
  }
}
