/** `WebGpuDevice`: the command stream in its `RefCell`s, the sampler
    table, the main depth/stencil texture and the swap chain, and the
    `Device` operations that create resources or record commands.  Every
    wgpu resource a call creates is given the next id of `nextResource`;
    command encoders are numbered by a second counter, `nextEncoder`. */
module Device {
  import opened Common
  import opened Errors
  import opened Formats
  import Lazy
  import Buffers
  import Samplers
  import Shaders
  import VertexArrays
  import Pipeline
  import Textures
  import Commands

  /** The swap chain's descriptor, without usage and present mode. */
  datatype SwapChainDescriptor = SwapChainDescriptor(format: WgpuTextureFormat, width: U32, height: U32)

  /** `WebGpuFramebuffer`: a texture rendered into. */
  datatype Framebuffer = Framebuffer(texture: Textures.Texture)

  /** The render target a framebuffer stands for in a `RenderState`. */
  function TargetOf(fb: Framebuffer): Pipeline.RenderTarget {
    Pipeline.Framebuffer(fb.texture.gpuTexture, fb.texture.format)
  }

  class WebGpuDevice {
    var current: Commands.CommandEncoder
    var commandBuffers: seq<Commands.CommandBuffer>
    var submitted: seq<Commands.CommandBuffer>
    var nextEncoder: nat
    var nextResource: nat
    /** How many swap chain outputs have been acquired. */
    var swapChainOutputs: nat
    const samplers: seq<Samplers.SamplerDescriptor>
    const mainDepthStencil: Textures.TextureDescriptor
    const swapChain: SwapChainDescriptor
    /** `cfg!(debug_assertions)`: whether names are kept. */
    const debug: bool

    function Stream(): Commands.Stream
      reads this
    {
      Commands.Stream(current, commandBuffers, submitted, nextEncoder)
    }

    /** The state `New` builds once both sides are checked; only `New`
        calls it. */
    constructor Init(width: U32, height: U32, debug: bool)
      ensures Stream() == Commands.Initial()
      ensures nextResource == 0 && swapChainOutputs == 1
      ensures samplers == Samplers.SamplerTable()
      ensures mainDepthStencil == Textures.TextureDescriptor(width, height, 1, 1, 1, Depth24PlusStencil8)
      ensures swapChain == SwapChainDescriptor(Bgra8Unorm, width, height)
      ensures this.debug == debug
    {
      current := Commands.CommandEncoder(0, []);
      commandBuffers := [];
      submitted := [];
      nextEncoder := 1;
      nextResource := 0;
      swapChainOutputs := 1;
      samplers := Samplers.SamplerTable();
      mainDepthStencil := Textures.TextureDescriptor(width, height, 1, 1, 1, Depth24PlusStencil8);
      swapChain := SwapChainDescriptor(Bgra8Unorm, width, height);
      this.debug := debug;
    }

    /** `WebGpuDevice::new` for a window of `width` x `height` pixels: a
        negative side is a panic, the width being checked first. */
    static method New(width: I32, height: I32, debug: bool) returns (r: Result<WebGpuDevice>)
      ensures r.Ok? <==> width >= 0 && height >= 0
      ensures width < 0 ==> r == Err(NegativeValue(width))
      ensures width >= 0 && height < 0 ==> r == Err(NegativeValue(height))
      ensures r.Ok? ==>
        && fresh(r.value)
        && r.value.Stream() == Commands.Initial()
        && r.value.nextResource == 0 && r.value.swapChainOutputs == 1
        && r.value.samplers == Samplers.SamplerTable()
        && r.value.mainDepthStencil == Textures.TextureDescriptor(width, height, 1, 1, 1, Depth24PlusStencil8)
        && r.value.swapChain == SwapChainDescriptor(Bgra8Unorm, width, height)
        && r.value.debug == debug
    {
      var depth := Textures.DescriptorFor(Depth24PlusStencil8, width, height);
      if depth.Err? {
        return Err(depth.fault);
      }
      var d := new WebGpuDevice.Init(width, height, debug);
      r := Ok(d);
    }

    /** `finish_current_command_encoder`. */
    method FinishCurrentCommandEncoder()
      modifies this
      ensures Stream() == Commands.FinishCurrent(old(Stream()))
      ensures nextResource == old(nextResource) && swapChainOutputs == old(swapChainOutputs)
    {
      var next := Commands.CommandEncoder(nextEncoder, []);
      nextEncoder := nextEncoder + 1;
      var previous := current;
      current := next;
      commandBuffers := commandBuffers + [Commands.Finish(previous)];
    }

    method BeginCommands()
      modifies this
      ensures Stream() == Commands.BeginCommands(old(Stream()))
      ensures nextResource == old(nextResource) && swapChainOutputs == old(swapChainOutputs)
    {
      FinishCurrentCommandEncoder();
    }

    /** `end_commands` changes nothing. */
    method EndCommands()
      ensures Stream() == Commands.EndCommands(old(Stream()))
    {
    }

    /** `end_frame`: finish, submit the frame's buffers, clear them, and
        acquire the next swap chain output. */
    method EndFrame()
      modifies this
      ensures Stream() == Commands.EndFrame(old(Stream()))
      ensures nextResource == old(nextResource) && swapChainOutputs == old(swapChainOutputs) + 1
    {
      FinishCurrentCommandEncoder();
      submitted := submitted + commandBuffers;
      commandBuffers := [];
      swapChainOutputs := swapChainOutputs + 1;
    }

    /** `create_texture`. */
    method CreateTexture(format: TextureFormat, width: I32, height: I32) returns (r: Result<Textures.Texture>)
      modifies this
      ensures r.Ok? <==> width >= 0 && height >= 0
      ensures r.Err? ==> r == Err(NegativeValue(if width < 0 then width else height))
      ensures r.Ok? ==>
        && fresh(r.value)
        && Textures.Created(r.value)
        && r.value.gpuTexture == old(nextResource)
        && r.value.format == format && r.value.width == width && r.value.height == height
        && r.value.samplingFlags == Samplers.NO_FLAGS && !r.value.dirty
      ensures nextResource == old(nextResource) + (if r.Ok? then 1 else 0)
      ensures Stream() == old(Stream()) && swapChainOutputs == old(swapChainOutputs)
    {
      var descriptor := Textures.DescriptorFor(TextureFormatToWgpu(format), width, height);
      if descriptor.Err? {
        return Err(descriptor.fault);
      }
      var t := new Textures.Texture(nextResource, format, width, height, descriptor.value);
      nextResource := nextResource + 1;
      r := Ok(t);
    }

    /** `upload_to_texture` of `data` into the whole of `t`, as written: a
        staging buffer holding the data takes the next id, then the copy is
        recorded into the current encoder.  The copy fails when a side of
        the texture is negative or the row pitch overflows 32 bits, and
        then records nothing. */
    method UploadToTexture(t: Textures.Texture, data: Textures.TextureData) returns (r: Outcome)
      modifies this
      ensures nextResource == old(nextResource) + 1
      ensures var copy := Textures.UploadCopyAsWritten(t, old(nextResource), Textures.DataByteLength(data));
        && (r.Pass? <==> copy.Ok?)
        && (r.Pass? ==> Stream() == Commands.Record(old(Stream()), Commands.Copy(copy.value)))
        && (r.Fail? ==> r.fault == copy.fault && Stream() == old(Stream()))
      ensures swapChainOutputs == old(swapChainOutputs)
    {
      var staging := nextResource;
      nextResource := nextResource + 1;
      var copy := Textures.UploadCopyAsWritten(t, staging, Textures.DataByteLength(data));
      if copy.Err? {
        return Fail(copy.fault);
      }
      current := current.(commands := current.commands + [Commands.Copy(copy.value)]);
      r := Pass;
    }

    /** `upload_to_texture` with both corrections (row pitch from the true
        texel size, mip level 0).  On a texture `create_texture` made, with
        data of the texture's size, the recorded copy fits the texture
        level and the staging buffer, reading the buffer exactly to its
        end. */
    method UploadToTextureCorrected(t: Textures.Texture, data: Textures.TextureData) returns (r: Outcome)
      modifies this
      ensures nextResource == old(nextResource) + 1
      ensures var copy := Textures.UploadCopy(t, old(nextResource), Textures.DataByteLength(data));
        && (r.Pass? <==> copy.Ok?)
        && (r.Pass? ==> Stream() == Commands.Record(old(Stream()), Commands.Copy(copy.value)))
        && (r.Fail? ==> r.fault == copy.fault && Stream() == old(Stream()))
      ensures Textures.Created(t) && Textures.DataMatches(data, t.format, t.width, t.height) && FitsU32(t.width * TexelSize(t.format)) ==>
        && r.Pass?
        && current.commands[|current.commands| - 1].Copy?
        && Textures.CopyFits(current.commands[|current.commands| - 1].copy, t.descriptor, t.format)
        && current.commands[|current.commands| - 1].copy.source.bytesPerRow * t.height == Textures.DataByteLength(data)
      ensures swapChainOutputs == old(swapChainOutputs)
    {
      var staging := nextResource;
      nextResource := nextResource + 1;
      var copy := Textures.UploadCopy(t, staging, Textures.DataByteLength(data));
      if copy.Err? {
        return Fail(copy.fault);
      }
      current := current.(commands := current.commands + [Commands.Copy(copy.value)]);
      r := Pass;
      if Textures.Created(t) && Textures.DataMatches(data, t.format, t.width, t.height) && FitsU32(t.width * TexelSize(t.format)) {
        Textures.UploadCopyFits(t, staging, data);
      }
    }

    /** `create_texture_from_data`: create, then upload the data to the
        whole texture.  A failed upload leaves the texture created and both
        ids consumed. */
    method CreateTextureFromData(format: TextureFormat, width: I32, height: I32, data: Textures.TextureData)
      returns (r: Result<Textures.Texture>)
      modifies this
      ensures r.Ok? <==> width >= 0 && height >= 0 && FitsU32(width * Textures.TexelSizeAsWritten(format))
      ensures width < 0 ==> r == Err(NegativeValue(width))
      ensures width >= 0 && height < 0 ==> r == Err(NegativeValue(height))
      ensures width >= 0 && height >= 0 && !FitsU32(width * Textures.TexelSizeAsWritten(format)) ==> r == Err(Overflow)
      ensures nextResource == old(nextResource) + (if width >= 0 && height >= 0 then 2 else 0)
      ensures r.Err? ==> Stream() == old(Stream())
      ensures r.Ok? ==>
        && fresh(r.value)
        && Textures.Created(r.value)
        && r.value.gpuTexture == old(nextResource)
        && r.value.format == format && r.value.width == width && r.value.height == height
        && r.value.samplingFlags == Samplers.NO_FLAGS && !r.value.dirty
        && var copy := Textures.UploadCopyAsWritten(r.value, old(nextResource) + 1, Textures.DataByteLength(data));
           copy.Ok? && Stream() == Commands.Record(old(Stream()), Commands.Copy(copy.value))
      ensures swapChainOutputs == old(swapChainOutputs)
    {
      r := CreateTexture(format, width, height);
      if r.Err? {
        return;
      }
      var t := r.value;
      var uploaded := UploadToTexture(t, data);
      if uploaded.Fail? {
        return Err(uploaded.fault);
      }
    }

    /** `create_buffer`: an empty slot; nothing is allocated yet. */
    method CreateBuffer() returns (b: Buffers.Buffer)
      ensures fresh(b) && b.slot == None
    {
      b := new Lazy.LazilyInitialized<Buffers.BufferStorage>.Uninitialized();
    }

    /** `allocate_buffer`: a new wgpu buffer of the data's byte length with
        the target's usages, which replaces whatever `buffer` held. */
    method AllocateBuffer(buffer: Buffers.Buffer, data: Buffers.BufferData, target: Buffers.BufferTarget)
      modifies this, buffer
      ensures buffer.slot == Some(Buffers.StorageFor(old(nextResource), data, target))
      ensures nextResource == old(nextResource) + 1
      ensures Stream() == old(Stream()) && swapChainOutputs == old(swapChainOutputs)
    {
      var storage := Buffers.StorageFor(nextResource, data, target);
      nextResource := nextResource + 1;
      var _ := buffer.InitializeOrReplaceWith(storage);
    }

    /** `create_shader`: the module, when created, takes the next id. */
    method CreateShader(resources: string -> Option<seq<bv8>>, name: string, kind: Shaders.ShaderKind,
                        reflect: seq<bv8> -> Option<Shaders.Reflection>) returns (r: Result<Shaders.Shader>)
      modifies this
      ensures r == Shaders.CreateShader(resources, name, kind, reflect, old(nextResource), debug)
      ensures nextResource == old(nextResource) + (if r.Ok? then 1 else 0)
      ensures Stream() == old(Stream()) && swapChainOutputs == old(swapChainOutputs)
    {
      r := Shaders.CreateShader(resources, name, kind, reflect, nextResource, debug);
      if r.Ok? {
        nextResource := nextResource + 1;
      }
    }

    /** `draw_elements_instanced`: records the synthesized pass into the
        current encoder, the view, layouts and pipeline it creates taking
        the next ids; or fails, creating and recording nothing. */
    method DrawElementsInstanced(indexCount: U32, instanceCount: U32, va: VertexArrays.VertexArray, rs: Pipeline.RenderState)
      returns (r: Outcome)
      modifies this
      ensures match Pipeline.DrawElementsInstanced(va.State(), indexCount, instanceCount, rs, old(nextResource))
        case Ok(pass) =>
          && r == Pass && Stream() == Commands.Record(old(Stream()), Commands.Draw(pass))
          && nextResource == old(nextResource) + Pipeline.DRAW_OBJECTS
        case Err(f) => r == Fail(f) && Stream() == old(Stream()) && nextResource == old(nextResource)
      ensures swapChainOutputs == old(swapChainOutputs)
    {
      var drawn := Pipeline.DrawElementsInstanced(va.State(), indexCount, instanceCount, rs, nextResource);
      match drawn
      case Err(f) =>
        r := Fail(f);
      case Ok(pass) =>
        current := current.(commands := current.commands + [Commands.Draw(pass)]);
        nextResource := nextResource + Pipeline.DRAW_OBJECTS;
        r := Pass;
    }
  }

  /** Two draws with the same state record two passes with equal
      descriptions but each with its own view, layouts and pipeline:
      nothing is cached between draws. */
  method DrawTwice(d: WebGpuDevice, va: VertexArrays.VertexArray, indexCount: U32, rs: Pipeline.RenderState)
    returns (first: Outcome, second: Outcome)
    modifies d
    ensures first == second
    ensures d.swapChainOutputs == old(d.swapChainOutputs)
    ensures match Pipeline.DrawElementsInstanced(va.State(), indexCount, 1, rs, old(d.nextResource))
      case Ok(p) =>
        && var q := Pipeline.DrawElementsInstanced(va.State(), indexCount, 1, rs, old(d.nextResource) + Pipeline.DRAW_OBJECTS).value;
        && first == Pass
        && d.Stream() == Commands.Record(Commands.Record(old(d.Stream()), Commands.Draw(p)), Commands.Draw(q))
        && d.nextResource == old(d.nextResource) + 2 * Pipeline.DRAW_OBJECTS
        && old(d.nextResource) <= p.pipelineId < q.pipelineId
        && p.pipeline.layout != q.pipeline.layout
        && p.pipeline.(layout := q.pipeline.layout) == q.pipeline
      case Err(f) => first == Fail(f) && d.Stream() == old(d.Stream()) && d.nextResource == old(d.nextResource)
  {
    var firstId := d.nextResource;
    first := d.DrawElementsInstanced(indexCount, 1, va, rs);
    second := d.DrawElementsInstanced(indexCount, 1, va, rs);
    if first.Pass? {
      Pipeline.DrawCreatesFreshObjects(va.State(), indexCount, 1, rs, firstId, firstId + Pipeline.DRAW_OBJECTS);
    }
  }

  /** Binding a buffer before allocating it: the vertex array keeps the
      empty clone, so the draw fails as uninitialized although the buffer
      itself has been allocated. */
  method BindBeforeAllocate(d: WebGpuDevice, indices: Buffers.Buffer, rs: Pipeline.RenderState)
    returns (vertices: Buffers.Buffer, r: Outcome)
    modifies d
    ensures vertices.slot.Some?
    ensures r == Fail(NotInitialized)
    ensures d.Stream() == old(d.Stream())
  {
    var va := new VertexArrays.VertexArray();
    vertices := d.CreateBuffer();
    va.BindBuffer(vertices, Buffers.Vertex);
    va.BindBuffer(indices, Buffers.Index);
    d.AllocateBuffer(vertices, Buffers.Memory(8, 4), Buffers.Vertex);
    assert va.State().vertexBuffers[0].buffer.None?;
    r := d.DrawElementsInstanced(6, 1, va, rs);
  }

  /** Draws a quad of two triangles into `target`: 4 vertices of 2 floats
      bound at slot 0, one float x 2 attribute at the program's location,
      6 indices, one instance, the colour cleared. */
  method DrawQuad(d: WebGpuDevice, program: Shaders.Program, position: Shaders.VertexAttr,
                  target: Pipeline.RenderTarget, viewport: Pipeline.RectI, clearColor: Pipeline.ColorF)
    returns (configured: Outcome, drawn: Outcome, va: VertexArrays.VertexArray)
    modifies d
    ensures fresh(va) && configured == Pass
    ensures va.State().vertexBuffers == [VertexArrays.VertexBuffer(Some(Buffers.StorageFor(old(d.nextResource), Buffers.Memory(8, 4), Buffers.Vertex)), 8, VertexArrays.PerVertex,
                                        [VertexArrays.VertexAttributeDescriptor(0, Float2, position.bindLocation)])]
    ensures va.State().indexBuffer == Some(Some(Buffers.StorageFor(old(d.nextResource) + 1, Buffers.Memory(6, 4), Buffers.Index)))
    ensures var rs := QuadState(program, target, viewport, clearColor);
      match Pipeline.DrawElementsInstanced(va.State(), 6, 1, rs, old(d.nextResource) + 2)
      case Ok(pass) => drawn == Pass && d.Stream() == Commands.Record(old(d.Stream()), Commands.Draw(pass))
      case Err(f) => drawn == Fail(f) && d.Stream() == old(d.Stream())
  {
    var vertices := d.CreateBuffer();
    d.AllocateBuffer(vertices, Buffers.Memory(8, 4), Buffers.Vertex);
    va := new VertexArrays.VertexArray();
    va.BindBuffer(vertices, Buffers.Vertex);
    var bound := va.State();
    var descriptor := VertexArrays.VertexAttrDescriptor(2, Float, F32, 8, 0, 0, 0);
    configured := va.ConfigureVertexAttr(position, descriptor);
    assert VertexFormatFor(Float, F32, 2) == Some(Float2);
    VertexArrays.ConfigureSuccessEffect(bound, position, descriptor);
    var binding := VertexArrays.VertexBuffer(Some(Buffers.StorageFor(old(d.nextResource), Buffers.Memory(8, 4), Buffers.Vertex)), 8, VertexArrays.PerVertex,
                                             [VertexArrays.VertexAttributeDescriptor(0, Float2, position.bindLocation)]);
    assert va.State().vertexBuffers[0] == binding;
    assert va.State().vertexBuffers == [binding];
    var indices := d.CreateBuffer();
    d.AllocateBuffer(indices, Buffers.Memory(6, 4), Buffers.Index);
    va.BindBuffer(indices, Buffers.Index);
    drawn := d.DrawElementsInstanced(6, 1, va, QuadState(program, target, viewport, clearColor));
  }

  /** The render state of the quad: no blend, depth or stencil option, the
      colour cleared, colour writes on. */
  function QuadState(program: Shaders.Program, target: Pipeline.RenderTarget, viewport: Pipeline.RectI, clearColor: Pipeline.ColorF): Pipeline.RenderState {
    Pipeline.RenderState(program, target, viewport, Pipeline.Triangles,
      Pipeline.RenderOptions(None, None, None, Pipeline.ClearOps(Some(clearColor), None, None), true))
  }

  /** The quad drawn into the default target fails as not implemented. */
  method QuadOnDefaultTarget(d: WebGpuDevice, program: Shaders.Program, position: Shaders.VertexAttr,
                             viewport: Pipeline.RectI, clearColor: Pipeline.ColorF) returns (drawn: Outcome)
    modifies d
    ensures drawn == Fail(Unimplemented)
    ensures d.Stream() == old(d.Stream())
  {
    var configured, va;
    configured, drawn, va := DrawQuad(d, program, position, Pipeline.Default, viewport, clearColor);
  }

  /** A whole frame drawing the quad into a framebuffer: the queue receives
      the initialization buffer, empty, and then the frame's buffer holding
      exactly one render pass, which clears its colour attachment and runs
      one pipeline with one per-vertex layout. */
  method QuadFrame(width: I32, height: I32, program: Shaders.Program, position: Shaders.VertexAttr,
                   viewport: Pipeline.RectI, clearColor: Pipeline.ColorF)
    returns (r: Result<Commands.Stream>)
    ensures r.Ok? <==> width >= 0 && height >= 0
    ensures r.Ok? ==>
      && |r.value.submitted| == 2
      && r.value.submitted[0] == Commands.CommandBuffer(0, [])
      && r.value.submitted[1].encoder == 1
      && |r.value.submitted[1].commands| == 1
      && r.value.submitted[1].commands[0].Draw?
      && var pass := r.value.submitted[1].commands[0].draw;
        && |pass.pass.colorAttachments| == 1
        && pass.pass.colorAttachments[0].loadOp == Pipeline.LoadClear
        && pass.pass.colorAttachments[0].clearColor == clearColor
        && pass.pass.depthStencilAttachment.None?
        && |pass.pipeline.vertexBuffers| == 1
        && pass.pipeline.vertexBuffers[0].stepMode == VertexArrays.PerVertex
        && pass.indexCount == 6 && pass.instanceCount == 1
  {
    var created := WebGpuDevice.New(width, height, false);
    if created.Err? {
      return Err(created.fault);
    }
    var d := created.value;
    var t := d.CreateTexture(RGBA8, width, height);
    var fb := Framebuffer(t.value);
    d.BeginCommands();
    var firstId := d.nextResource + 2;
    var configured, drawn, va := DrawQuad(d, program, position, TargetOf(fb), viewport, clearColor);
    Pipeline.RenderPassLoadOps(TargetOf(fb), Pipeline.TextureView(firstId, t.value.gpuTexture), QuadState(program, TargetOf(fb), viewport, clearColor).options.clearOps);
    d.EndCommands();
    d.EndFrame();
    r := Ok(d.Stream());
  }
}
