/** Draw-time synthesis in `draw_elements_instanced`: from the vertex
    array's live state and the immediate-mode `RenderState`, the complete
    render pipeline description, the render pass description and the
    commands recorded inside the pass.  Nothing is cached: every draw
    creates a texture view, a bind group layout, a pipeline layout and a
    render pipeline again, each a new wgpu object with its own id.  A
    short WebGPU semantics of depth tests, stencil updates and blending
    states what the derived defaults do. */
module Pipeline {
  import opened Common
  import opened Errors
  import opened Formats
  import opened VertexArrays
  import Buffers
  import Shaders

  // ---------------------------------------------------------------------
  // The immediate-mode input
  // ---------------------------------------------------------------------

  datatype Primitive = Triangles | Lines

  /** The render target: the back buffer, or a framebuffer given by its
      texture's id and format. */
  datatype RenderTarget = Default | Framebuffer(texture: nat, format: TextureFormat)

  datatype RectI = RectI(originX: I32, originY: I32, width: I32, height: I32)

  datatype BlendState = BlendState(
    destRgbFactor: BlendFactor, destAlphaFactor: BlendFactor,
    srcRgbFactor: BlendFactor, srcAlphaFactor: BlendFactor,
    op: BlendOp)

  datatype DepthState = DepthState(func: DepthFunc, write: bool)

  datatype StencilState = StencilState(func: StencilFunc, reference: U32, mask: U32, write: bool)

  datatype ColorF = ColorF(r: real, g: real, b: real, a: real)

  datatype ClearOps = ClearOps(color: Option<ColorF>, depth: Option<real>, stencil: Option<U8>)

  datatype RenderOptions = RenderOptions(
    blend: Option<BlendState>,
    depth: Option<DepthState>,
    stencil: Option<StencilState>,
    clearOps: ClearOps,
    colorMask: bool)

  /** `RenderState` without its vertex array, which is passed on its own,
      and without textures, uniforms, images and storage buffers, which
      this backend does not bind. */
  datatype RenderState = RenderState(
    program: Shaders.Program,
    target: RenderTarget,
    viewport: RectI,
    primitive: Primitive,
    options: RenderOptions)

  // ---------------------------------------------------------------------
  // The pipeline description
  // ---------------------------------------------------------------------

  datatype PrimitiveTopology = PointList | LineList | LineStrip | TriangleList | TriangleStrip

  function TopologyFor(p: Primitive): PrimitiveTopology {
    match p
    case Triangles => TriangleList
    case Lines => LineList
  }

  datatype ColorWrite = ColorWrite(red: bool, green: bool, blue: bool, alpha: bool)

  const WRITE_ALL := ColorWrite(true, true, true, true)
  const WRITE_NONE := ColorWrite(false, false, false, false)

  datatype ColorStateDescriptor = ColorStateDescriptor(
    format: WgpuTextureFormat,
    colorBlend: BlendDescriptor,
    alphaBlend: BlendDescriptor,
    writeMask: ColorWrite)

  /** The colour target format: Rgba8Unorm is assumed for the back buffer,
      and a framebuffer's texture format is translated. */
  function TargetFormat(target: RenderTarget): WgpuTextureFormat {
    match target
    case Default => Rgba8Unorm
    case Framebuffer(_, format) => TextureFormatToWgpu(format)
  }

  /** The single colour state of the pipeline. */
  function ColorState(target: RenderTarget, options: RenderOptions): (c: ColorStateDescriptor)
    ensures c.format == TargetFormat(target)
    ensures options.blend.None? ==> c.colorBlend == REPLACE && c.alphaBlend == REPLACE
    ensures options.blend.Some? ==>
      var b := options.blend.value;
      && c.colorBlend == ToWgpuBlendDescriptor(b.srcRgbFactor, b.destRgbFactor, b.op)
      && c.alphaBlend == ToWgpuBlendDescriptor(b.srcAlphaFactor, b.destAlphaFactor, b.op)
    ensures c.writeMask == WRITE_ALL <==> options.colorMask
    ensures c.writeMask == WRITE_NONE <==> !options.colorMask
  {
    ColorStateDescriptor(
      TargetFormat(target),
      match options.blend
      case Some(b) => ToWgpuBlendDescriptor(b.srcRgbFactor, b.destRgbFactor, b.op)
      case None => REPLACE,
      match options.blend
      case Some(b) => ToWgpuBlendDescriptor(b.srcAlphaFactor, b.destAlphaFactor, b.op)
      case None => REPLACE,
      if options.colorMask then WRITE_ALL else WRITE_NONE)
  }

  datatype StencilOperation = Keep | StencilZero | Replace | Invert | IncrementClamp | DecrementClamp | IncrementWrap | DecrementWrap

  datatype StencilStateFaceDescriptor = StencilStateFaceDescriptor(
    compare: CompareFunction, failOp: StencilOperation, depthFailOp: StencilOperation, passOp: StencilOperation)

  /** wgpu's `StencilStateFaceDescriptor::IGNORE`. */
  const IGNORE := StencilStateFaceDescriptor(CAlways, Keep, Keep, Keep)

  datatype DepthStencilStateDescriptor = DepthStencilStateDescriptor(
    format: WgpuTextureFormat,
    depthWriteEnabled: bool,
    depthCompare: CompareFunction,
    stencilFront: StencilStateFaceDescriptor,
    stencilBack: StencilStateFaceDescriptor,
    stencilReadMask: U32,
    stencilWriteMask: U32)

  /** The stencil face used for both front and back faces. */
  function StencilFace(stencil: Option<StencilState>): StencilStateFaceDescriptor {
    match stencil
    case None => IGNORE
    case Some(s) => StencilStateFaceDescriptor(StencilFuncToWgpu(s.func), Keep, Keep, if s.write then Replace else Keep)
  }

  /** The depth/stencil state: present exactly when a depth or stencil
      option is given; each field is derived from its option, with the
      defaults "depth test Never, no depth write" and "IGNORE face, read
      mask !0, write mask 0".  The stencil option's reference value becomes
      the read mask. */
  function DepthStencilState(options: RenderOptions): (r: Option<DepthStencilStateDescriptor>)
    ensures r.Some? <==> options.depth.Some? || options.stencil.Some?
    ensures r.Some? ==> r.value.format == Depth24PlusStencil8
    ensures r.Some? ==> r.value.stencilFront == r.value.stencilBack
    ensures r.Some? && options.depth.None? ==> r.value.depthCompare == Never && !r.value.depthWriteEnabled
    ensures r.Some? && options.depth.Some? ==>
      r.value.depthCompare == DepthFuncToWgpu(options.depth.value.func)
      && r.value.depthWriteEnabled == options.depth.value.write
    ensures r.Some? && options.stencil.None? ==>
      r.value.stencilFront == IGNORE && r.value.stencilReadMask == U32_ALL_ONES && r.value.stencilWriteMask == 0
    ensures r.Some? && options.stencil.Some? ==>
      var s := options.stencil.value;
      && r.value.stencilFront.compare == StencilFuncToWgpu(s.func)
      && r.value.stencilFront.failOp == Keep && r.value.stencilFront.depthFailOp == Keep
      && (r.value.stencilFront.passOp == Replace <==> s.write)
      && (r.value.stencilFront.passOp == Keep <==> !s.write)
      && r.value.stencilReadMask == s.reference
      && r.value.stencilWriteMask == s.mask
  {
    if options.depth.Some? || options.stencil.Some? then
      var face := StencilFace(options.stencil);
      Some(DepthStencilStateDescriptor(
        Depth24PlusStencil8,
        match options.depth case Some(d) => d.write case None => false,
        match options.depth case Some(d) => DepthFuncToWgpu(d.func) case None => Never,
        face,
        face,
        match options.stencil case Some(s) => s.reference case None => U32_ALL_ONES,
        match options.stencil case Some(s) => s.mask case None => 0))
    else
      None
  }

  datatype VertexBufferDescriptor = VertexBufferDescriptor(
    stride: nat, stepMode: InputStepMode, attributes: seq<VertexAttributeDescriptor>)

  /** One layout per bound vertex buffer, in binding order, with the
      binding's stride and attributes; the step mode is always per-vertex,
      whatever was configured. */
  function VertexLayouts(bindings: seq<VertexBuffer>): (r: seq<VertexBufferDescriptor>)
    ensures |r| == |bindings|
    ensures forall i :: 0 <= i < |bindings| ==>
      r[i] == VertexBufferDescriptor(bindings[i].stride, PerVertex, bindings[i].descriptor)
  {
    seq(|bindings|, i requires 0 <= i < |bindings| =>
      VertexBufferDescriptor(bindings[i].stride, PerVertex, bindings[i].descriptor))
  }

  datatype FrontFace = Ccw | Cw
  datatype CullMode = CullNone | CullFront | CullBack

  /** Rasterisation state; the floating-point depth bias slope and clamp
      (both 0.0) are left out. */
  datatype RasterizationState = RasterizationState(frontFace: FrontFace, cullMode: CullMode, depthBias: int)

  datatype IndexFormat = Uint16 | Uint32

  datatype ProgrammableStage = ProgrammableStage(shaderModule: Shaders.ShaderModule, entryPoint: string)

  /** A bind group layout, by its id and number of entries. */
  datatype BindGroupLayout = BindGroupLayout(id: nat, entries: nat)

  datatype PipelineLayout = PipelineLayout(id: nat, bindGroupLayouts: seq<BindGroupLayout>)

  datatype RenderPipelineDescriptor = RenderPipelineDescriptor(
    layout: PipelineLayout,
    vertexStage: ProgrammableStage,
    fragmentStage: Option<ProgrammableStage>,
    rasterization: Option<RasterizationState>,
    topology: PrimitiveTopology,
    colorStates: seq<ColorStateDescriptor>,
    depthStencilState: Option<DepthStencilStateDescriptor>,
    indexFormat: IndexFormat,
    vertexBuffers: seq<VertexBufferDescriptor>,
    sampleCount: nat,
    sampleMask: U32,
    alphaToCoverageEnabled: bool)

  /** The pipeline a draw builds on `layout`. */
  function PipelineFor(rs: RenderState, bindings: seq<VertexBuffer>, layout: PipelineLayout): RenderPipelineDescriptor {
    RenderPipelineDescriptor(
      layout,
      ProgrammableStage(rs.program.vertexShader.shaderModule, "main"),
      Some(ProgrammableStage(rs.program.fragmentShader.shaderModule, "main")),
      Some(RasterizationState(Cw, CullNone, 0)),
      TopologyFor(rs.primitive),
      [ColorState(rs.target, rs.options)],
      DepthStencilState(rs.options),
      Uint32,
      VertexLayouts(bindings),
      1,
      U32_ALL_ONES,
      false)
  }

  /** The fixed parts of every pipeline and the parts taken from the
      draw's input. */
  lemma PipelineShape(rs: RenderState, bindings: seq<VertexBuffer>, layout: PipelineLayout)
    ensures var p := PipelineFor(rs, bindings, layout);
      && p.layout == layout
      && p.topology == TopologyFor(rs.primitive)
      && p.colorStates == [ColorState(rs.target, rs.options)]
      && p.depthStencilState == DepthStencilState(rs.options)
      && p.vertexStage.shaderModule == rs.program.vertexShader.shaderModule
      && p.fragmentStage == Some(ProgrammableStage(rs.program.fragmentShader.shaderModule, "main"))
      && p.rasterization == Some(RasterizationState(Cw, CullNone, 0))
      && |p.colorStates| == 1 && p.colorStates[0].format == TargetFormat(rs.target)
      && p.indexFormat == Uint32 && p.sampleCount == 1 && p.sampleMask == U32_ALL_ONES
      && !p.alphaToCoverageEnabled
      && |p.vertexBuffers| == |bindings|
      && (forall i :: 0 <= i < |bindings| ==> p.vertexBuffers[i].stepMode == PerVertex)
      && (p.depthStencilState.Some? <==> rs.options.depth.Some? || rs.options.stencil.Some?)
  {
  }

  // ---------------------------------------------------------------------
  // The render pass description
  // ---------------------------------------------------------------------

  datatype LoadOp = LoadClear | Load
  datatype StoreOp = StoreClear | Store

  /** The texture views a pass can attach. */
  datatype AttachmentView = TextureView(id: nat, texture: nat) | MainDepthStencilView

  const TRANSPARENT := ColorF(0.0, 0.0, 0.0, 0.0)

  datatype ColorAttachment = ColorAttachment(
    attachment: AttachmentView,
    resolveTarget: Option<AttachmentView>,
    loadOp: LoadOp,
    storeOp: StoreOp,
    clearColor: ColorF)

  datatype DepthStencilAttachment = DepthStencilAttachment(
    attachment: AttachmentView,
    depthLoadOp: LoadOp,
    depthStoreOp: StoreOp,
    clearDepth: real,
    stencilLoadOp: LoadOp,
    stencilStoreOp: StoreOp,
    clearStencil: U32)

  datatype RenderPassDescriptor = RenderPassDescriptor(
    colorAttachments: seq<ColorAttachment>,
    depthStencilAttachment: Option<DepthStencilAttachment>)

  function LoadOpFor<T>(clear: Option<T>): LoadOp {
    if clear.Some? then LoadClear else Load
  }

  /** The pass a draw opens on `view`: one colour attachment, and the main
      depth/stencil attachment only for the default target. */
  function RenderPassFor(target: RenderTarget, view: AttachmentView, clear: ClearOps): RenderPassDescriptor {
    RenderPassDescriptor(
      [ColorAttachment(view, None, LoadOpFor(clear.color), Store,
                       match clear.color case Some(c) => c case None => TRANSPARENT)],
      if target.Default? then
        Some(DepthStencilAttachment(
          MainDepthStencilView,
          LoadOpFor(clear.depth), Store, match clear.depth case Some(d) => d case None => 0.0,
          LoadOpFor(clear.stencil), Store, match clear.stencil case Some(s) => s case None => 0))
      else
        None)
  }

  /** Every attachment clears exactly when its clear value is given and
      loads otherwise, and always stores; the depth/stencil attachment is
      there exactly for the default target. */
  lemma RenderPassLoadOps(target: RenderTarget, view: AttachmentView, clear: ClearOps)
    ensures var p := RenderPassFor(target, view, clear);
      && |p.colorAttachments| == 1
      && p.colorAttachments[0].attachment == view
      && (p.colorAttachments[0].loadOp == LoadClear <==> clear.color.Some?)
      && (p.colorAttachments[0].loadOp == Load <==> clear.color.None?)
      && p.colorAttachments[0].storeOp == Store
      && (clear.color.Some? ==> p.colorAttachments[0].clearColor == clear.color.value)
      && (p.depthStencilAttachment.Some? <==> target.Default?)
      && (p.depthStencilAttachment.Some? ==>
            var d := p.depthStencilAttachment.value;
            && d.attachment == MainDepthStencilView
            && (d.depthLoadOp == LoadClear <==> clear.depth.Some?)
            && (d.stencilLoadOp == LoadClear <==> clear.stencil.Some?)
            && d.depthStoreOp == Store && d.stencilStoreOp == Store)
  {
  }

  // ---------------------------------------------------------------------
  // The draw
  // ---------------------------------------------------------------------

  datatype Viewport = Viewport(x: int, y: int, width: int, height: int, minDepth: real, maxDepth: real)

  /** `set_vertex_buffer(slot, buffer, offset, size)` / `set_index_buffer`. */
  datatype BufferBinding = BufferBinding(buffer: nat, offset: nat, size: nat)

  /** What a draw records: the pass, the pipeline (its id and
      description) set in it, the viewport,
      the vertex buffers by slot, the index buffer and the indexed draw of
      `0..indexCount` indices and `0..instanceCount` instances. */
  datatype DrawPass = DrawPass(
    pass: RenderPassDescriptor,
    pipelineId: nat,
    pipeline: RenderPipelineDescriptor,
    viewport: Viewport,
    vertexBuffers: seq<BufferBinding>,
    indexBuffer: BufferBinding,
    indexCount: U32,
    baseVertex: nat,
    instanceCount: U32)

  predicate AllInitialized(bindings: seq<VertexBuffer>) {
    forall i :: 0 <= i < |bindings| ==> bindings[i].buffer.Some?
  }

  function WholeBuffer(s: Buffers.BufferStorage): BufferBinding {
    BufferBinding(s.buffer, 0, s.size)
  }

  /** How many wgpu objects a successful draw creates. */
  const DRAW_OBJECTS: nat := 4

  /** The pipeline layout of a draw whose objects are numbered from
      `firstId`: the view is created first, then the bind group layout,
      which is an argument of the pipeline layout, then the pipeline
      layout itself; the pipeline comes last. */
  function DrawLayout(firstId: nat): PipelineLayout {
    PipelineLayout(firstId + 2, [BindGroupLayout(firstId + 1, 0)])
  }

  /** `draw_elements_instanced` up to the command it records, the wgpu
      objects it creates being numbered from `firstId`.  It fails, in this
      order, when a bound vertex buffer was never allocated (as cloned at
      bind time), when no index buffer is bound, when the bound index
      buffer was never allocated, and for the default target, which is not
      implemented; every failure comes before any object is created. */
  function DrawElementsInstanced(va: VertexArrayState, indexCount: U32, instanceCount: U32, rs: RenderState, firstId: nat): (r: Result<DrawPass>)
    ensures r.Ok? <==>
      && AllInitialized(va.vertexBuffers)
      && va.indexBuffer.Some? && va.indexBuffer.value.Some?
      && rs.target.Framebuffer?
    ensures !AllInitialized(va.vertexBuffers) ==> r == Err(NotInitialized)
    ensures AllInitialized(va.vertexBuffers) && va.indexBuffer.None? ==> r == Err(NoIndexBuffer)
    ensures AllInitialized(va.vertexBuffers) && va.indexBuffer == Some(None) ==> r == Err(NotInitialized)
    ensures AllInitialized(va.vertexBuffers) && va.indexBuffer.Some? && va.indexBuffer.value.Some? && rs.target.Default?
      ==> r == Err(Unimplemented)
    ensures r.Ok? ==>
      && r.value.pipelineId == firstId + 3
      && r.value.pipeline == PipelineFor(rs, va.vertexBuffers, DrawLayout(firstId))
      && r.value.pass == RenderPassFor(rs.target, TextureView(firstId, rs.target.texture), rs.options.clearOps)
      && r.value.viewport == Viewport(rs.viewport.originX, rs.viewport.originY, rs.viewport.width, rs.viewport.height, 0.0, 1.0)
      && |r.value.vertexBuffers| == |va.vertexBuffers|
      && (forall i :: 0 <= i < |va.vertexBuffers| ==> r.value.vertexBuffers[i] == WholeBuffer(va.vertexBuffers[i].buffer.value))
      && r.value.indexBuffer == WholeBuffer(va.indexBuffer.value.value)
      && r.value.indexCount == indexCount && r.value.instanceCount == instanceCount && r.value.baseVertex == 0
  {
    if !AllInitialized(va.vertexBuffers) then Err(NotInitialized)
    else
      var vertexBuffers := seq(|va.vertexBuffers|, i requires 0 <= i < |va.vertexBuffers| => WholeBuffer(va.vertexBuffers[i].buffer.value));
      match va.indexBuffer
      case None => Err(NoIndexBuffer)
      case Some(None) => Err(NotInitialized)
      case Some(Some(index)) =>
        match rs.target
        case Default => Err(Unimplemented)
        case Framebuffer(texture, _) =>
          Ok(DrawPass(
            RenderPassFor(rs.target, TextureView(firstId, texture), rs.options.clearOps),
            firstId + 3,
            PipelineFor(rs, va.vertexBuffers, DrawLayout(firstId)),
            Viewport(rs.viewport.originX, rs.viewport.originY, rs.viewport.width, rs.viewport.height, 0.0, 1.0),
            vertexBuffers,
            WholeBuffer(index),
            indexCount,
            0,
            instanceCount))
  }

  /** Because the default target is not implemented, no draw that succeeds
      ever attaches the main depth/stencil texture, even when depth or
      stencil testing is configured. */
  lemma SuccessfulDrawHasNoDepthStencilAttachment(va: VertexArrayState, indexCount: U32, instanceCount: U32, rs: RenderState, firstId: nat)
    requires DrawElementsInstanced(va, indexCount, instanceCount, rs, firstId).Ok?
    ensures DrawElementsInstanced(va, indexCount, instanceCount, rs, firstId).value.pass.depthStencilAttachment.None?
  {
    RenderPassLoadOps(rs.target, TextureView(firstId, rs.target.texture), rs.options.clearOps);
  }

  /** A binding configured for per-instance stepping is still laid out
      per vertex in the pipeline. */
  lemma ConfiguredStepModeIsIgnored(va: VertexArrayState, indexCount: U32, instanceCount: U32, rs: RenderState, firstId: nat, i: nat)
    requires DrawElementsInstanced(va, indexCount, instanceCount, rs, firstId).Ok?
    requires i < |va.vertexBuffers| && va.vertexBuffers[i].stepMode == PerInstance
    ensures DrawElementsInstanced(va, indexCount, instanceCount, rs, firstId).value.pipeline.vertexBuffers[i].stepMode == PerVertex
    ensures DrawElementsInstanced(va, indexCount, instanceCount, rs, firstId).value.pipeline.vertexBuffers[i].attributes
         == va.vertexBuffers[i].descriptor
  {
  }

  /** Every object a successful draw creates is new: the view, both
      layouts and the pipeline have distinct ids in
      `firstId .. firstId + DRAW_OBJECTS - 1`, and two draws whose objects
      are numbered from disjoint ranges share none of them, even when
      their descriptions are equal. */
  lemma DrawCreatesFreshObjects(va: VertexArrayState, indexCount: U32, instanceCount: U32, rs: RenderState, firstId: nat, laterId: nat)
    requires DrawElementsInstanced(va, indexCount, instanceCount, rs, firstId).Ok?
    requires laterId >= firstId + DRAW_OBJECTS
    ensures var p, q := DrawElementsInstanced(va, indexCount, instanceCount, rs, firstId).value,
                        DrawElementsInstanced(va, indexCount, instanceCount, rs, laterId).value;
      && var ids := [p.pass.colorAttachments[0].attachment.id, p.pipeline.layout.bindGroupLayouts[0].id,
                     p.pipeline.layout.id, p.pipelineId];
      && (forall k :: 0 <= k < |ids| ==> firstId <= ids[k] < firstId + DRAW_OBJECTS)
      && (forall j, k :: 0 <= j < k < |ids| ==> ids[j] != ids[k])
      && p.pipelineId != q.pipelineId && p.pipeline.layout != q.pipeline.layout
      && p.pass.colorAttachments[0].attachment != q.pass.colorAttachments[0].attachment
      && p.pipeline.(layout := q.pipeline.layout) == q.pipeline
  {
    var p := DrawElementsInstanced(va, indexCount, instanceCount, rs, firstId).value;
    RenderPassLoadOps(rs.target, TextureView(firstId, rs.target.texture), rs.options.clearOps);
    RenderPassLoadOps(rs.target, TextureView(laterId, rs.target.texture), rs.options.clearOps);
  }

  // ---------------------------------------------------------------------
  // What the derived fixed-function state does
  // ---------------------------------------------------------------------

  /** WebGPU's depth test for an incoming depth against the stored one. */
  predicate DepthTestPasses(ds: DepthStencilStateDescriptor, incoming: real, stored: real) {
    Compare(ds.depthCompare, incoming, stored)
  }

  function Low8(x: U32): bv8 {
    (x % 0x100) as bv8
  }

  /** WebGPU's stencil operations on an 8-bit stencil value. */
  function ApplyStencilOp(op: StencilOperation, reference: bv8, stored: bv8): bv8 {
    match op
    case Keep => stored
    case StencilZero => 0
    case Replace => reference
    case Invert => !stored
    case IncrementClamp => if stored == 0xFF then stored else stored + 1
    case DecrementClamp => if stored == 0 then stored else stored - 1
    case IncrementWrap => stored + 1
    case DecrementWrap => stored - 1
  }

  /** The stencil value after one fragment: the face's comparison on the
      read-masked values selects the fail, depth-fail or pass operation,
      whose result is written through the write mask. */
  function StencilAfter(face: StencilStateFaceDescriptor, readMask: U32, writeMask: U32,
                        reference: bv8, stored: bv8, depthPassed: bool): bv8 {
    var rm, wm := Low8(readMask), Low8(writeMask);
    var stencilPassed := Compare(face.compare, (reference & rm) as int as real, (stored & rm) as int as real);
    var op := if !stencilPassed then face.failOp else if !depthPassed then face.depthFailOp else face.passOp;
    (ApplyStencilOp(op, reference, stored) & wm) | (stored & !wm)
  }

  /** With a stencil option but no depth option, the depth test is Never:
      every fragment is discarded and no depth is written. */
  lemma StencilOnlyDiscardsEveryFragment(options: RenderOptions, incoming: real, stored: real)
    requires options.stencil.Some? && options.depth.None?
    ensures DepthStencilState(options).Some?
    ensures !DepthTestPasses(DepthStencilState(options).value, incoming, stored)
    ensures !DepthStencilState(options).value.depthWriteEnabled
  {
  }

  /** With a depth option, the depth test means what pathfinder's depth
      function means. */
  lemma DepthOptionMeaning(options: RenderOptions, incoming: real, stored: real)
    requires options.depth.Some?
    ensures DepthStencilState(options).Some?
    ensures DepthTestPasses(DepthStencilState(options).value, incoming, stored)
        == DepthFuncHolds(options.depth.value.func, incoming, stored)
    ensures DepthStencilState(options).value.depthWriteEnabled == options.depth.value.write
  {
    CompareMappingPreservesMeaning(options.depth.value.func, StencilAlways, incoming, stored);
  }

  /** Without a stencil option, and with a stencil option whose `write` is
      false, no fragment ever changes the stencil buffer. */
  lemma StencilUnchangedUnlessWritten(options: RenderOptions, reference: bv8, stored: bv8, depthPassed: bool)
    requires options.depth.Some? || options.stencil.Some?
    requires options.stencil.None? || !options.stencil.value.write
    ensures var ds := DepthStencilState(options).value;
      && StencilAfter(ds.stencilFront, ds.stencilReadMask, ds.stencilWriteMask, reference, stored, depthPassed) == stored
      && StencilAfter(ds.stencilBack, ds.stencilReadMask, ds.stencilWriteMask, reference, stored, depthPassed) == stored
  {
    var ds := DepthStencilState(options).value;
    var wm := Low8(ds.stencilWriteMask);
    assert (stored & wm) | (stored & !wm) == stored;
  }

  /** Without a blend option both channels are written unblended. */
  lemma NoBlendWritesSource(target: RenderTarget, options: RenderOptions, color: BlendInputs, alpha: BlendInputs)
    requires options.blend.None?
    ensures WgpuBlend(ColorState(target, options).colorBlend, color) == color.src
    ensures WgpuBlend(ColorState(target, options).alphaBlend, alpha) == alpha.src
  {
    ReplaceWritesSource(color);
    ReplaceWritesSource(alpha);
  }

  /** With a blend option, the colour and alpha equations compute what
      pathfinder's blend state asks for. */
  lemma BlendOptionMeaning(target: RenderTarget, options: RenderOptions, color: BlendInputs, alpha: BlendInputs)
    requires options.blend.Some?
    ensures var b := options.blend.value;
      && WgpuBlend(ColorState(target, options).colorBlend, color)
           == PathfinderBlend(b.srcRgbFactor, b.destRgbFactor, b.op, color)
      && WgpuBlend(ColorState(target, options).alphaBlend, alpha)
           == PathfinderBlend(b.srcAlphaFactor, b.destAlphaFactor, b.op, alpha)
  {
    var b := options.blend.value;
    BlendDescriptorPreservesMeaning(b.srcRgbFactor, b.destRgbFactor, b.op, color);
    BlendDescriptorPreservesMeaning(b.srcAlphaFactor, b.destAlphaFactor, b.op, alpha);
  }
}
