/** The wire format (protocol/{ids,descriptors,commands,actions,responses,version}.rs). Descriptor
    fields that neither side interprets are carried as one opaque `Blob`. */
module Protocol {
  import opened Basics

  const PROTOCOL_VERSION: nat := 1

  type Label = Option<string>
  type Blob = string

  // ---- ids ----

  type RequestId = nat
  type BufferId = nat
  type TextureId = nat
  type TextureViewId = nat
  type SamplerId = nat
  type ShaderModuleId = nat
  type BindGroupLayoutId = nat
  type BindGroupId = nat
  type PipelineLayoutId = nat
  type RenderPipelineId = nat
  type ComputePipelineId = nat
  type CommandBufferId = nat

  datatype ResourceId =
    | DeviceR(id: nat)
    | QueueR(id: nat)
    | BufferR(id: nat)
    | TextureR(id: nat)
    | TextureViewR(id: nat)
    | SamplerR(id: nat)
    | ShaderModuleR(id: nat)
    | BindGroupLayoutR(id: nat)
    | BindGroupR(id: nat)
    | PipelineLayoutR(id: nat)
    | RenderPipelineR(id: nat)
    | ComputePipelineR(id: nat)
    | CommandBufferR(id: nat)

  // ---- descriptors ----

  datatype BufferUsage = MapRead | CopySrc | CopyDst | Storage | Uniform | Vertex | Index | Indirect

  datatype BufferDescriptor =
    BufferDescriptor(name: Label, size: nat, usage: set<BufferUsage>, mappedAtCreation: bool)

  datatype BufferBinding = BufferBinding(buffer: BufferId, offset: nat, size: Option<nat>)

  datatype BindingResource =
    | BufferBound(binding: BufferBinding)
    | BufferArray(bindings: seq<BufferBinding>)
    | SamplerBound(sampler: SamplerId)
    | SamplerArray(samplers: seq<SamplerId>)
    | TextureViewBound(view: TextureViewId)
    | TextureViewArray(views: seq<TextureViewId>)

  datatype BindGroupEntry = BindGroupEntry(binding: nat, resource: BindingResource)

  datatype BindGroupDescriptor =
    BindGroupDescriptor(name: Label, layout: BindGroupLayoutId, entries: seq<BindGroupEntry>)

  datatype PipelineLayoutDescriptor =
    PipelineLayoutDescriptor(name: Label, bindGroupLayouts: seq<BindGroupLayoutId>, pushConstantRanges: Blob)

  datatype ShaderSource = Wgsl(code: string) | SpirV(words: seq<nat>) | Glsl(shader: string, rest: Blob)

  datatype ShaderModuleDescriptor = ShaderModuleDescriptor(name: Label, source: ShaderSource)

  datatype VertexState =
    VertexState(vertexModule: ShaderModuleId, vertexEntry: Label, constants: Blob, buffers: Blob)

  datatype FragmentState =
    FragmentState(fragmentModule: ShaderModuleId, fragmentEntry: Label, constants: Blob, targets: Blob)

  datatype RenderPipelineDescriptor = RenderPipelineDescriptor(
    name: Label, layout: Option<PipelineLayoutId>, vertex: VertexState, fragment: Option<FragmentState>,
    fixedState: Blob)

  datatype ComputePipelineDescriptor = ComputePipelineDescriptor(
    name: Label, layout: Option<PipelineLayoutId>, shader: ShaderModuleId, entryPoint: Label, constants: Blob)

  // ---- recordings ----

  datatype ImageCopyBuffer = ImageCopyBuffer(buffer: BufferId, layout: Blob)

  datatype ImageCopyTexture = ImageCopyTexture(texture: TextureId, mipLevel: nat, origin: Blob, aspect: Blob)

  datatype ColorAttachment = ColorAttachment(
    view: TextureViewId, depthSlice: Option<nat>, resolveTarget: Option<TextureViewId>, ops: Blob)

  datatype DepthStencilAttachment = DepthStencilAttachment(view: TextureViewId, depthStencilOps: Blob)

  datatype ComputeCommand =
    | SetComputePipeline(computePipeline: ComputePipelineId)
    | SetComputeBindGroup(index: nat, group: BindGroupId, offsets: seq<nat>)
    | SetPushConstants(pushOffset: nat, data: Bytes)
    | DispatchWorkgroups(x: nat, y: nat, z: nat)
    | DispatchWorkgroupsIndirect(indirectBuffer: BufferId, indirectOffset: nat)

  datatype RenderCommand =
    | SetRenderPipeline(renderPipeline: RenderPipelineId)
    | SetRenderBindGroup(index: nat, group: BindGroupId, offsets: seq<nat>)
    | SetVertexBuffer(slot: nat, buffer: BufferId, offset: nat, size: Option<nat>)
    | SetIndexBuffer(buffer: BufferId, format: Blob, offset: nat, size: Option<nat>)
    | Draw(vertices: (nat, nat), instances: (nat, nat))
    | DrawIndexed(indices: (nat, nat), baseVertex: int, instances: (nat, nat))

  datatype EncoderCommand =
    | CopyBufferToBuffer(source: BufferId, sourceOffset: nat, destination: BufferId, destinationOffset: nat, size: nat)
    | CopyBufferToTexture(fromBuffer: ImageCopyBuffer, toTexture: ImageCopyTexture, copySize: Blob)
    | CopyTextureToBuffer(fromTexture: ImageCopyTexture, toBuffer: ImageCopyBuffer, copySize: Blob)
    | ClearBuffer(buffer: BufferId, offset: nat, clearSize: Option<nat>)
    | BeginComputePass(name: Label, computeCommands: seq<ComputeCommand>)
    | BeginRenderPass(name: Label, colorAttachments: seq<Option<ColorAttachment>>,
                      depthStencilAttachment: Option<DepthStencilAttachment>, renderCommands: seq<RenderCommand>)

  datatype Recording = Recording(name: Label, commands: seq<EncoderCommand>)

  // ---- messages ----

  datatype Action =
    | Hello(protocolVersion: nat)
    | RequestAdapter
    | RequestDevice(deviceLabel: Label)
    | CreateBuffer(buffer: BufferId, bufferDesc: BufferDescriptor)
    | CreateTexture(texture: TextureId, textureDesc: Blob)
    | CreateTextureView(view: TextureViewId, ofTexture: TextureId, viewDesc: Blob)
    | CreateSampler(sampler: SamplerId, samplerDesc: Blob)
    | CreateShaderModule(shader: ShaderModuleId, shaderDesc: ShaderModuleDescriptor)
    | CreateBindGroupLayout(bgl: BindGroupLayoutId, bglDesc: Blob)
    | CreateBindGroup(group: BindGroupId, groupDesc: BindGroupDescriptor)
    | CreatePipelineLayout(layout: PipelineLayoutId, layoutDesc: PipelineLayoutDescriptor)
    | CreateRenderPipeline(renderPipeline: RenderPipelineId, renderDesc: RenderPipelineDescriptor)
    | CreateComputePipeline(computePipeline: ComputePipelineId, computeDesc: ComputePipelineDescriptor)
    | CreateCommandEncoder(encoder: CommandBufferId, encoderDesc: Blob)
    | Destroy(resource: ResourceId)
    | WriteBuffer(target: BufferId, offset: nat, data: Bytes)
    | WriteTexture(targetTexture: TextureId, texels: Blob, data: Bytes)
    | DeriveRenderBgl(ofRender: RenderPipelineId, index: nat, bgl: BindGroupLayoutId)
    | DeriveComputeBgl(ofCompute: ComputePipelineId, index: nat, bgl: BindGroupLayoutId)
    | Submit(recordings: seq<Bytes>)
    | MapBufferForRead(source: BufferId, offset: nat, size: nat)

  datatype ErrorCode =
    ProtocolVersionMismatch | UnknownResource | InvalidArgument | OutOfMemory | DeviceLost | Internal

  /** The human-readable half of an error, kept structured. */
  datatype Message =
    | Versions(client: nat, server: nat)
    | Unknown(missing: ResourceId)
    | BadRecording
    | Unsupported
    | MapFailed

  datatype Response =
    | HelloAck(protocolVersion: nat)
    | Ack
    | BufferData(data: Bytes)
    | SubmissionComplete(fence: nat)
    | ErrorResponse(code: ErrorCode, message: Message)

  function UnknownId(r: ResourceId): Response {
    ErrorResponse(UnknownResource, Unknown(r))
  }

  datatype Frame<A> = Frame(requestId: Option<RequestId>, action: A)

  datatype ResponseFrame<R> = ResponseFrame(requestId: RequestId, response: R)
}
