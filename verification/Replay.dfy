/** Replaying recordings against the id tables (the lookups of server/engine.rs:572-878 and the two
    image-copy helpers). Replay is stated on nested recordings, as the engine does it; the theorems
    relate it to the flat list of calls the program made. */
module Replay {
  import opened Basics
  import opened Protocol
  import opened Gpu
  import opened Tables

  // ---- the calls a program makes on an encoder and its passes, in order ----

  datatype Call =
    | OnEncoder(command: EncoderCommand)
    | OpenCompute(name: Label)
    | InCompute(compute: ComputeCommand)
    | CloseCompute
    | OpenRender(name: Label, colors: seq<Option<ColorAttachment>>, depth: Option<DepthStencilAttachment>)
    | InRender(render: RenderCommand)
    | CloseRender

  predicate IsPass(c: EncoderCommand) { c.BeginComputePass? || c.BeginRenderPass? }

  function ComputeCalls(cs: seq<ComputeCommand>): (calls: seq<Call>)
    ensures |calls| == |cs| && forall i :: 0 <= i < |cs| ==> calls[i] == InCompute(cs[i])
  {
    seq(|cs|, i requires 0 <= i < |cs| => InCompute(cs[i]))
  }

  function RenderCalls(cs: seq<RenderCommand>): (calls: seq<Call>)
    ensures |calls| == |cs| && forall i :: 0 <= i < |cs| ==> calls[i] == InRender(cs[i])
  {
    seq(|cs|, i requires 0 <= i < |cs| => InRender(cs[i]))
  }

  function CallsOf(c: EncoderCommand): seq<Call> {
    match c
    case BeginComputePass(name, commands) =>
      [OpenCompute(name)] + ComputeCalls(commands) + [CloseCompute]
    case BeginRenderPass(name, colors, depth, commands) =>
      [OpenRender(name, colors, depth)] + RenderCalls(commands) + [CloseRender]
    case _ => [OnEncoder(c)]
  }

  function CallsOfAll(cs: seq<EncoderCommand>): seq<Call> {
    FlatMap(CallsOf, cs)
  }

  // ---- lookups ----

  function FindBuffer(t: Tables, id: BufferId): Result<GpuBuffer, Response> {
    if id in t.buffers then Ok(t.buffers[id]) else Err(UnknownId(BufferR(id)))
  }

  function FindTexture(t: Tables, id: TextureId): Result<GpuTexture, Response> {
    if id in t.textures then Ok(t.textures[id]) else Err(UnknownId(TextureR(id)))
  }

  function FindView(t: Tables, id: TextureViewId): Result<GpuTextureView, Response> {
    if id in t.textureViews then Ok(t.textureViews[id]) else Err(UnknownId(TextureViewR(id)))
  }

  function FindBindGroup(t: Tables, id: BindGroupId): Result<GpuBindGroup, Response> {
    if id in t.bindGroups then Ok(t.bindGroups[id]) else Err(UnknownId(BindGroupR(id)))
  }

  function FindRenderPipeline(t: Tables, id: RenderPipelineId): Result<GpuRenderPipeline, Response> {
    if id in t.renderPipelines then Ok(t.renderPipelines[id]) else Err(UnknownId(RenderPipelineR(id)))
  }

  function FindComputePipeline(t: Tables, id: ComputePipelineId): Result<GpuComputePipeline, Response> {
    if id in t.computePipelines then Ok(t.computePipelines[id]) else Err(UnknownId(ComputePipelineR(id)))
  }

  function PlaceOf(x: ImageCopyTexture): (nat, Blob, Blob) { (x.mipLevel, x.origin, x.aspect) }

  // ---- one command, as the engine replays it ----

  function ReplayCompute(t: Tables, c: ComputeCommand): Result<GpuCall, Response> {
    match c
    case SetComputePipeline(id) =>
      var p :- FindComputePipeline(t, id);
      Ok(GSetComputePipeline(p))
    case SetComputeBindGroup(index, group, offsets) =>
      var g :- FindBindGroup(t, group);
      Ok(GSetBindGroup(index, g, offsets))
    case SetPushConstants(offset, data) => Ok(GSetPushConstants(offset, data))
    case DispatchWorkgroups(x, y, z) => Ok(GDispatch(x, y, z))
    case DispatchWorkgroupsIndirect(buffer, offset) =>
      var b :- FindBuffer(t, buffer);
      Ok(GDispatchIndirect(b, offset))
  }

  function ReplayRender(t: Tables, c: RenderCommand): Result<GpuCall, Response> {
    match c
    case SetRenderPipeline(id) =>
      var p :- FindRenderPipeline(t, id);
      Ok(GSetRenderPipeline(p))
    case SetRenderBindGroup(index, group, offsets) =>
      var g :- FindBindGroup(t, group);
      Ok(GSetBindGroup(index, g, offsets))
    case SetVertexBuffer(slot, buffer, offset, size) =>
      var b :- FindBuffer(t, buffer);
      Ok(GSetVertexBuffer(slot, b, offset, size))
    case SetIndexBuffer(buffer, format, offset, size) =>
      var b :- FindBuffer(t, buffer);
      Ok(GSetIndexBuffer(b, format, offset, size))
    case Draw(vertices, instances) => Ok(GDraw(vertices, instances))
    case DrawIndexed(indices, base, instances) => Ok(GDrawIndexed(indices, base, instances))
  }

  function ReplayComputes(t: Tables, cs: seq<ComputeCommand>): Result<seq<GpuCall>, Response> {
    Traverse(x => ReplayCompute(t, x), cs)
  }

  function ReplayRenders(t: Tables, cs: seq<RenderCommand>): Result<seq<GpuCall>, Response> {
    Traverse(x => ReplayRender(t, x), cs)
  }

  function ReplayColor(t: Tables, a: Option<ColorAttachment>): Result<Option<GpuColorAttachment>, Response> {
    match a
    case None => Ok(None)
    case Some(att) =>
      var view :- FindView(t, att.view);
      match att.resolveTarget
      case None => Ok(Some(GpuColorAttachment(view, att.depthSlice, None, att.ops)))
      case Some(rt) =>
        var target :- FindView(t, rt);
        Ok(Some(GpuColorAttachment(view, att.depthSlice, Some(target), att.ops)))
  }

  function ReplayDepth(t: Tables, a: Option<DepthStencilAttachment>): Result<Option<GpuDepthAttachment>, Response> {
    match a
    case None => Ok(None)
    case Some(att) =>
      var view :- FindView(t, att.view);
      Ok(Some(GpuDepthAttachment(view, att.depthStencilOps)))
  }

  function ReplayOpenRender(
      t: Tables, name: Label, colors: seq<Option<ColorAttachment>>, depth: Option<DepthStencilAttachment>)
      : Result<GpuCall, Response>
  {
    var colorAtts :- Traverse(a => ReplayColor(t, a), colors);
    var depthAtt :- ReplayDepth(t, depth);
    Ok(GOpenRender(name, colorAtts, depthAtt))
  }

  /** A copy or clear; passes are not single calls. */
  function ReplayTransfer(t: Tables, c: EncoderCommand): Result<GpuCall, Response>
    requires !IsPass(c)
  {
    match c
    case CopyBufferToBuffer(source, from, destination, to, size) =>
      var src :- FindBuffer(t, source);
      var dst :- FindBuffer(t, destination);
      Ok(GCopyBuffer(src, from, dst, to, size))
    case ClearBuffer(buffer, offset, size) =>
      var b :- FindBuffer(t, buffer);
      Ok(GClearBuffer(b, offset, size))
    case CopyBufferToTexture(source, destination, size) =>
      var src :- FindBuffer(t, source.buffer);
      var dst :- FindTexture(t, destination.texture);
      Ok(GBufferToTexture(src, source.layout, dst, PlaceOf(destination), size))
    case CopyTextureToBuffer(source, destination, size) =>
      var src :- FindTexture(t, source.texture);
      var dst :- FindBuffer(t, destination.buffer);
      Ok(GTextureToBuffer(src, PlaceOf(source), dst, destination.layout, size))
  }

  function ReplayCommand(t: Tables, c: EncoderCommand): Result<seq<GpuCall>, Response> {
    match c
    case BeginComputePass(name, commands) =>
      var calls :- ReplayComputes(t, commands);
      Ok([GOpenCompute(name)] + calls + [GCloseCompute])
    case BeginRenderPass(name, colors, depth, commands) =>
      var opening :- ReplayOpenRender(t, name, colors, depth);
      var calls :- ReplayRenders(t, commands);
      Ok([opening] + calls + [GCloseRender])
    case _ =>
      var call :- ReplayTransfer(t, c);
      Ok([call])
  }

  function ReplayCommands(t: Tables, cs: seq<EncoderCommand>): Result<seq<GpuCall>, Response> {
    if cs == [] then Ok([])
    else
      var calls :- ReplayCommand(t, cs[0]);
      var rest :- ReplayCommands(t, cs[1..]);
      Ok(calls + rest)
  }

  // ---- the reference: each call with its ids replaced, one by one ----

  function Resolve(t: Tables, c: Call): Result<GpuCall, Response> {
    match c
    case OnEncoder(command) =>
      if IsPass(command) then Err(ErrorResponse(Internal, Unsupported)) else ReplayTransfer(t, command)
    case OpenCompute(name) => Ok(GOpenCompute(name))
    case InCompute(command) => ReplayCompute(t, command)
    case CloseCompute => Ok(GCloseCompute)
    case OpenRender(name, colors, depth) => ReplayOpenRender(t, name, colors, depth)
    case InRender(command) => ReplayRender(t, command)
    case CloseRender => Ok(GCloseRender)
  }

  function ResolveAll(t: Tables, cs: seq<Call>): Result<seq<GpuCall>, Response> {
    Traverse(c => Resolve(t, c), cs)
  }

  lemma {:induction false} ResolveCompute(t: Tables, cs: seq<ComputeCommand>)
    ensures ResolveAll(t, ComputeCalls(cs)) == ReplayComputes(t, cs)
  {
    var calls := ComputeCalls(cs);
    if cs != [] {
      ResolveCompute(t, cs[1..]);
      assert calls[1..] == ComputeCalls(cs[1..]);
    }
  }

  lemma {:induction false} ResolveRender(t: Tables, cs: seq<RenderCommand>)
    ensures ResolveAll(t, RenderCalls(cs)) == ReplayRenders(t, cs)
  {
    var calls := RenderCalls(cs);
    if cs != [] {
      ResolveRender(t, cs[1..]);
      assert calls[1..] == RenderCalls(cs[1..]);
    }
  }

  lemma ResolveOne(t: Tables, c: Call)
    ensures ResolveAll(t, [c]) == match Resolve(t, c) case Err(e) => Err(e) case Ok(g) => Ok([g])
  {
    var f := x => Resolve(t, x);
    assert [c][1..] == [];
    assert Traverse(f, [c][1..]) == Ok([]);
    assert f([c][0]) == Resolve(t, c);
    if Resolve(t, c).Ok? {
      assert [Resolve(t, c).value] + [] == [Resolve(t, c).value];
    }
  }

  /** A bracketed pass resolves to its brackets around its resolved body. */
  lemma ResolveBracketed(t: Tables, first: Call, body: seq<Call>, last: Call)
    requires Resolve(t, last).Ok?
    ensures ResolveAll(t, [first] + body + [last]) ==
      match Resolve(t, first)
      case Err(e) => Err(e)
      case Ok(g) =>
        match ResolveAll(t, body)
        case Err(e) => Err(e)
        case Ok(gs) => Ok([g] + gs + [Resolve(t, last).value])
  {
    var f := c => Resolve(t, c);
    TraverseAppend(f, [first] + body, [last]);
    TraverseAppend(f, [first], body);
    ResolveOne(t, first);
    ResolveOne(t, last);
  }

  lemma ReplayCommandIsFlat(t: Tables, c: EncoderCommand)
    ensures ReplayCommand(t, c) == ResolveAll(t, CallsOf(c))
  {
    match c
    case BeginComputePass(name, commands) =>
      ResolveCompute(t, commands);
      ResolveBracketed(t, OpenCompute(name), ComputeCalls(commands), CloseCompute);
    case BeginRenderPass(name, colors, depth, commands) =>
      ResolveRender(t, commands);
      ResolveBracketed(t, OpenRender(name, colors, depth), RenderCalls(commands), CloseRender);
    case _ =>
      ResolveOne(t, OnEncoder(c));
  }

  /** Replaying a nested recording issues exactly the flat calls it stands for, in order, with every
      id replaced by its object and every pass opened and closed where the program did; and when it
      fails, it fails with the error of the first call that cannot be resolved. */
  lemma {:induction false} ReplayIsFlat(t: Tables, cs: seq<EncoderCommand>)
    ensures ReplayCommands(t, cs) == ResolveAll(t, CallsOfAll(cs))
  {
    if cs != [] {
      ReplayCommandIsFlat(t, cs[0]);
      ReplayIsFlat(t, cs[1..]);
      TraverseAppend(c => Resolve(t, c), CallsOf(cs[0]), CallsOfAll(cs[1..]));
    }
  }

  // ---- what a call refers to, in the order it is looked up ----

  function ComputeRefs(c: ComputeCommand): seq<ResourceId> {
    match c
    case SetComputePipeline(id) => [ComputePipelineR(id)]
    case SetComputeBindGroup(_, group, _) => [BindGroupR(group)]
    case DispatchWorkgroupsIndirect(buffer, _) => [BufferR(buffer)]
    case _ => []
  }

  function RenderRefs(c: RenderCommand): seq<ResourceId> {
    match c
    case SetRenderPipeline(id) => [RenderPipelineR(id)]
    case SetRenderBindGroup(_, group, _) => [BindGroupR(group)]
    case SetVertexBuffer(_, buffer, _, _) => [BufferR(buffer)]
    case SetIndexBuffer(buffer, _, _, _) => [BufferR(buffer)]
    case _ => []
  }

  function ColorRefs(a: Option<ColorAttachment>): seq<ResourceId> {
    match a
    case None => []
    case Some(att) =>
      [TextureViewR(att.view)] + if att.resolveTarget.Some? then [TextureViewR(att.resolveTarget.value)] else []
  }

  function DepthRefs(a: Option<DepthStencilAttachment>): seq<ResourceId> {
    match a
    case None => []
    case Some(att) => [TextureViewR(att.view)]
  }

  function TransferRefs(c: EncoderCommand): seq<ResourceId> {
    match c
    case CopyBufferToBuffer(source, _, destination, _, _) => [BufferR(source), BufferR(destination)]
    case ClearBuffer(buffer, _, _) => [BufferR(buffer)]
    case CopyBufferToTexture(source, destination, _) => [BufferR(source.buffer), TextureR(destination.texture)]
    case CopyTextureToBuffer(source, destination, _) => [TextureR(source.texture), BufferR(destination.buffer)]
    case _ => []
  }

  function CallRefs(c: Call): seq<ResourceId> {
    match c
    case OnEncoder(command) => TransferRefs(command)
    case InCompute(command) => ComputeRefs(command)
    case OpenRender(_, colors, depth) => FlatMap(ColorRefs, colors) + DepthRefs(depth)
    case InRender(command) => RenderRefs(command)
    case _ => []
  }

  predicate Proper(c: Call) { c.OnEncoder? ==> !IsPass(c.command) }

  lemma OneMissing(t: Tables, a: ResourceId)
    ensures FirstMissing(t, [a]) == if Lookup(t, a).None? then Some(a) else None
  {
    assert [a][1..] == [];
  }

  lemma FewMissing(t: Tables, refs: seq<ResourceId>)
    ensures refs == [] ==> FirstMissing(t, refs) == None
    ensures |refs| == 1 ==> FirstMissing(t, refs) == if Lookup(t, refs[0]).None? then Some(refs[0]) else None
    ensures |refs| == 2 && Lookup(t, refs[0]).None? ==> FirstMissing(t, refs) == Some(refs[0])
    ensures |refs| == 2 && Lookup(t, refs[0]).Some? ==> FirstMissing(t, refs) == FirstMissing(t, [refs[1]])
    ensures |refs| == 2 && Lookup(t, refs[1]).None? ==> FirstMissing(t, [refs[1]]) == Some(refs[1])
    ensures |refs| == 2 && Lookup(t, refs[1]).Some? ==> FirstMissing(t, [refs[1]]) == None
  {
    if |refs| == 2 { assert refs[1..] == [refs[1]]; OneMissing(t, refs[1]); }
  }

  lemma ColorStops(t: Tables, a: Option<ColorAttachment>)
    ensures StopsAtMissing(t, ReplayColor(t, a), ColorRefs(a))
  {
    if a.Some? {
      OneMissing(t, TextureViewR(a.value.view));
      if a.value.resolveTarget.Some? {
        OneMissing(t, TextureViewR(a.value.resolveTarget.value));
        FirstMissingAppend(t, [TextureViewR(a.value.view)], [TextureViewR(a.value.resolveTarget.value)]);
      } else {
        assert ColorRefs(a) == [TextureViewR(a.value.view)];
      }
    }
  }

  lemma OpenRenderStops(
      t: Tables, name: Label, colors: seq<Option<ColorAttachment>>, depth: Option<DepthStencilAttachment>)
    ensures StopsAtMissing(t, ReplayOpenRender(t, name, colors, depth), FlatMap(ColorRefs, colors) + DepthRefs(depth))
  {
    forall a | a in colors ensures StopsAtMissing(t, (x => ReplayColor(t, x))(a), ColorRefs(a)) {
      ColorStops(t, a);
    }
    TraverseStops(t, x => ReplayColor(t, x), ColorRefs, colors);
    FirstMissingAppend(t, FlatMap(ColorRefs, colors), DepthRefs(depth));
    if depth.Some? { OneMissing(t, TextureViewR(depth.value.view)); }
  }

  /** A call resolves exactly when the tables hold everything it refers to; otherwise the error
      names the first reference they do not hold. */
  lemma CallStops(t: Tables, c: Call)
    requires Proper(c)
    ensures StopsAtMissing(t, Resolve(t, c), CallRefs(c))
  {
    match c
    case OpenRender(name, colors, depth) => OpenRenderStops(t, name, colors, depth);
    case _ =>
      FewMissing(t, CallRefs(c));
  }

  lemma CallsProper(cs: seq<EncoderCommand>)
    ensures forall c :: c in CallsOfAll(cs) ==> Proper(c)
  {
    if cs != [] {
      CallsProper(cs[1..]);
    }
  }

  lemma CallsStop(t: Tables, cs: seq<Call>)
    requires forall c :: c in cs ==> Proper(c)
    ensures StopsAtMissing(t, ResolveAll(t, cs), FlatMap(CallRefs, cs))
  {
    forall c | c in cs ensures StopsAtMissing(t, (x => Resolve(t, x))(c), CallRefs(c)) {
      CallStops(t, c);
    }
    TraverseStops(t, c => Resolve(t, c), CallRefs, cs);
  }

  /** Resolution depends on nothing but the objects referred to. */
  lemma CallAgrees(t: Tables, u: Tables, c: Call)
    requires Proper(c) && Agree(t, u, CallRefs(c))
    ensures Resolve(t, c) == Resolve(u, c)
  {
    match c
    case OpenRender(name, colors, depth) => OpenRenderAgrees(t, u, name, colors, depth);
    case OnEncoder(command) => TransferAgrees(t, u, command);
    case InCompute(command) => AgreeOnFirstTwo(t, u, ComputeRefs(command));
    case InRender(command) => AgreeOnFirstTwo(t, u, RenderRefs(command));
    case _ =>
  }

  lemma TransferAgrees(t: Tables, u: Tables, c: EncoderCommand)
    requires !IsPass(c) && Agree(t, u, TransferRefs(c))
    ensures ReplayTransfer(t, c) == ReplayTransfer(u, c)
  {
    AgreeOnFirstTwo(t, u, TransferRefs(c));
  }

  lemma OpenRenderAgrees(
      t: Tables, u: Tables, name: Label, colors: seq<Option<ColorAttachment>>, depth: Option<DepthStencilAttachment>)
    requires Agree(t, u, FlatMap(ColorRefs, colors) + DepthRefs(depth))
    ensures ReplayOpenRender(t, name, colors, depth) == ReplayOpenRender(u, name, colors, depth)
  {
    forall a | a in colors ensures (x => ReplayColor(t, x))(a) == (x => ReplayColor(u, x))(a) {
      forall r | r in ColorRefs(a) ensures Lookup(t, r) == Lookup(u, r) {
        InFlatMap(ColorRefs, colors, a, r);
      }
      ColorAgrees(t, u, a);
    }
    TraverseAgree(x => ReplayColor(t, x), x => ReplayColor(u, x), colors);
    AgreeOnFirstTwo(t, u, DepthRefs(depth));
  }

  lemma AgreeOnFirstTwo(t: Tables, u: Tables, refs: seq<ResourceId>)
    requires Agree(t, u, refs)
    ensures |refs| >= 1 ==> Lookup(t, refs[0]) == Lookup(u, refs[0])
    ensures |refs| >= 2 ==> Lookup(t, refs[1]) == Lookup(u, refs[1])
  {
  }

  lemma ColorAgrees(t: Tables, u: Tables, a: Option<ColorAttachment>)
    requires Agree(t, u, ColorRefs(a))
    ensures ReplayColor(t, a) == ReplayColor(u, a)
  {
    if a.Some? {
      assert TextureViewR(a.value.view) in ColorRefs(a);
      if a.value.resolveTarget.Some? { assert TextureViewR(a.value.resolveTarget.value) in ColorRefs(a); }
    }
  }

  lemma CallsAgree(t: Tables, u: Tables, cs: seq<Call>)
    requires (forall c :: c in cs ==> Proper(c)) && Agree(t, u, FlatMap(CallRefs, cs))
    ensures ResolveAll(t, cs) == ResolveAll(u, cs)
  {
    forall c | c in cs ensures (x => Resolve(t, x))(c) == (x => Resolve(u, x))(c) {
      forall r | r in CallRefs(c) ensures Lookup(t, r) == Lookup(u, r) {
        InFlatMap(CallRefs, cs, c, r);
      }
      CallAgrees(t, u, c);
    }
    TraverseAgree(x => Resolve(t, x), x => Resolve(u, x), cs);
  }
}
