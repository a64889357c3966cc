# pathfinder WebGPU backend: a Dafny model

This project models the immediate-mode-to-WebGPU translation layer of
pathfinder's `webgpu` crate (`webgpu/src/lib.rs`), which implements
pathfinder's `Device` trait on top of wgpu. Every wgpu object the model
tracks (buffer, texture, shader module, texture view, layouts, render
pipeline, command encoder) is an opaque id handed out by a counter. What
the model covers, with the differences from the code listed under
"## Left out":

- `LazilyInitialized`, the one-slot cell behind every buffer handle. Its
  `Clone` copies the slot's content, so `bind_buffer` keeps a value snapshot
  of the slot rather than a shared reference.
- The pure translations:
  - pathfinder texture formats to wgpu formats;
  - `(class, type, size)` to a vertex format, with the padding of 1- and
    3-component integer and normalised attributes;
  - blend factors and operations;
  - depth and stencil functions;
  - the sixteen samplers, one per value of the 4-bit sampling flags.
- The vertex array, as a class whose `bind_buffer` and
  `configure_vertex_attr` update the bindings in place. Each method is
  proved to leave the state given by a value-level specification.
- Shader creation:
  - the resource path;
  - the rule that a SPIR-V binary is a whole number of 32-bit words;
  - the table of vertex attributes. It keeps only inputs named "a...",
    with the "a" removed;
  - `get_vertex_attr`, the lookup in that table.
- The command stream. There is always one current encoder and a queue of
  finished command buffers. `begin_commands` and `end_frame` rotate the
  encoder, `end_frame` submits the queue in order, and `end_commands`
  does nothing.
- `draw_elements_instanced`, as a pure function from the vertex array's
  state and the render state to what the draw records: the render pass
  description, the complete pipeline description (built again on every
  draw, with a new view, bind group layout, pipeline layout and pipeline
  each time), the viewport, the buffer bindings and the indexed draw.
- `upload_to_texture`, as written and with both of its defects corrected,
  and the texture objects. `set_texture_sampling_mode` stores the flags,
  but nothing in the backend reads them or binds a sampler.
- The device itself, as a class holding the stream, counters, samplers,
  main depth/stencil texture and swap chain.

Each translation is paired with an independent description of what its
values mean: texel and component layouts, blend equations, comparisons,
and WebGPU's stencil update. The lemmas show that the translation
preserves that meaning. This is how the model shows the consequences of
the derived defaults:

- A draw with a stencil option but no depth option discards every fragment,
  because its depth test is `Never`.
- A stencil option without `write` never changes the stencil buffer.

Every panic of the modelled operations (`panic!`, `expect`, `unwrap`,
`assert!`, `todo!()`) becomes an `Err`/`Fail` value of the datatype
`Errors.Fault`, except the failures of foreign calls listed under
"## Left out". The model states exactly which inputs lead to each fault.
There are no preconditions standing in for panics.

Behaviour modelled as the code has it, where it differs from what one
might expect:

- A draw on the default target reaches `todo!()` at lib.rs:839. The model
  proves that a successful draw therefore never attaches the main
  depth/stencil texture.
- The per-vertex step mode is hard-coded into every vertex layout at
  lib.rs:848. The step mode `configure_vertex_attr` stores is ignored.
- The stencil read mask is set to the stencil option's `reference`
  (lib.rs:1004-1008). The stencil reference value itself is never set, so
  it keeps WebGPU's default of 0.
- The colour format assumed for the default target is `Rgba8Unorm`, but the
  swap chain is created as `Bgra8Unorm` (lib.rs:928-932, 113).
- `upload_to_texture` uses `rect` only in the data-length check, which lives
  in pathfinder_gpu. It always copies the whole texture.
- Drawing the quad to the default target reaches `todo!()` (lib.rs:839);
  `Device.QuadOnDefaultTarget` proves the draw fails as unimplemented.
  `Device.QuadFrame` runs the same frame on a framebuffer target and proves
  what the queue receives.

## Model

| member | source | states |
|---|---|---|
| Errors.ExpectUnsigned | webgpu/src/lib.rs:281-285 | the conversion succeeds exactly for non-negative values, keeps the number, and otherwise fails naming the value |
| Errors.CheckedMulU32 | webgpu/src/lib.rs:743-751 | a debug-build u32 product succeeds exactly when the mathematical product fits in 32 bits, and is then that product, otherwise the overflow panic |
| Lazy.LazilyInitialized.Uninitialized | webgpu/src/lib.rs:247-249 | a new cell is empty |
| Lazy.LazilyInitialized.InitializeWith | webgpu/src/lib.rs:251-257 | an empty slot is filled; a full slot fails "already initialized" and stays as it was |
| Lazy.LazilyInitialized.InitializeOrReplaceWith | webgpu/src/lib.rs:259-261 | returns the previous content (None when empty) and leaves exactly the new value |
| Lazy.LazilyInitialized.AssumeInit | webgpu/src/lib.rs:263-267 | yields the content exactly when the slot is full, fails "should be initialized" otherwise, changes nothing |
| Lazy.LazilyInitialized.AssumeInitMut | webgpu/src/lib.rs:269-273 | updates the content in place when full; fails on an empty slot and leaves it empty |
| Lazy.ReplaceTwiceThenRead | webgpu/src/lib.rs:259-267 | two replacements return None then the first value, and a read then sees the second value |
| Lazy.SnapshotIsNotShared | webgpu/src/lib.rs:242-244 | a clone taken while the slot is empty stays empty after the original is filled, while the original reads back the value |
| Formats.TextureFormatRoundTrip | webgpu/src/lib.rs:287-295 | the texture format mapping has a left inverse and never yields the swap chain or depth formats |
| Formats.TextureFormatInjective | webgpu/src/lib.rs:287-295 | no two pathfinder texture formats map to the same wgpu format |
| Formats.TextureFormatPreservesLayout | webgpu/src/lib.rs:287-295 | the chosen wgpu format has the same channels, channel width and float/normalised kind |
| Formats.TexelSize | webgpu/src/lib.rs:287-295 | every texture format has a positive texel size, equal to the channels times the channel width of the wgpu format it is stored in |
| Formats.VertexFormatDefinedIff | webgpu/src/lib.rs:556-596 | a vertex format is chosen exactly for sizes 1 to 4 with F32 if and only if the class is Float; every other triple panics |
| Formats.VertexFormatMeaning | webgpu/src/lib.rs:556-596 | the chosen format has the attribute's scalar type and interpretation, and its component count is the size for Float and the size rounded up to even otherwise |
| Formats.VertexFormatPadding | webgpu/src/lib.rs:556-591 | for 8- and 16-bit integer and normalised attributes, size 1 maps like size 2 and size 3 like size 4, and the two differ |
| Formats.FloatFormats | webgpu/src/lib.rs:592-595 | Float/F32 of sizes 1 to 4 map to Float, Float2, Float3 and Float4 |
| Formats.BlendFactorPreservesMeaning | webgpu/src/lib.rs:878-888 | each translated blend factor weighs a colour exactly as the pathfinder factor does |
| Formats.BlendDescriptorPreservesMeaning | webgpu/src/lib.rs:873-901 | the translated blend descriptor computes the pathfinder blend equation on every input |
| Formats.ReplaceWritesSource | webgpu/src/lib.rs:937-958 | the REPLACE descriptor used when no blend option is given writes the incoming value |
| Formats.BlendMappingInjective | webgpu/src/lib.rs:878-900 | distinct blend factors and distinct blend operations stay distinct |
| Formats.CompareMappingPreservesMeaning | webgpu/src/lib.rs:973-1000 | the translated depth and stencil compare functions accept exactly the pairs the pathfinder functions accept |
| Samplers.Bits | webgpu/src/lib.rs:60-62 | the raw value of a flag set is below 16 |
| Samplers.FromBits | webgpu/src/lib.rs:60-62 | decoding a u8 succeeds exactly for values below 16 |
| Samplers.FlagsRoundTrip | webgpu/src/lib.rs:60-62 | decoding the raw value of a flag set gives it back |
| Samplers.BitsRoundTrip | webgpu/src/lib.rs:60-62 | the raw value of a decoded value below 16 is that value |
| Samplers.SamplerForRoundTrip | webgpu/src/lib.rs:64-90 | the flag set can be read back from the sampler built for it |
| Samplers.SamplerTable | webgpu/src/lib.rs:58-93 | the table has sixteen entries |
| Samplers.SamplerTableEntry | webgpu/src/lib.rs:64-90 | entry v has U and V repeat from bits 0 and 1, min and mag nearest from bits 2 and 3, and fixed W clamp, nearest mipmap filter and compare Never |
| Samplers.SamplerTableIndexedByBits | webgpu/src/lib.rs:58-93 | indexing the table by a flag set's raw value finds the sampler built for that set |
| Samplers.SamplerTableInjective | webgpu/src/lib.rs:58-93 | the sixteen samplers are pairwise different |
| Buffers.UsageFor | webgpu/src/lib.rs:623-637 | every target's usage has COPY_SRC and COPY_DST plus exactly the one usage matching the target |
| Shaders.ShaderPathRoundTrip | webgpu/src/lib.rs:355-361 | the resource path `shaders/spirv/{name}.{v,f,c}s.spv` can be parsed back into name and kind |
| Shaders.ShaderPathInjective | webgpu/src/lib.rs:355-361 | different shaders are loaded from different paths |
| Shaders.WordCount | webgpu/src/lib.rs:408-416 | a SPIR-V length is accepted exactly when it is a multiple of 4, and the word count times 4 is the length |
| Shaders.DeclaresIff | webgpu/src/lib.rs:385-391 | an input declares attribute n exactly when its name starts with "a" and the rest is n |
| Shaders.AttributeTableSpec | webgpu/src/lib.rs:382-394 | the table has an attribute exactly when some input is named "a" + attribute, then at the location of the last such input |
| Shaders.CreateShaderFromSource | webgpu/src/lib.rs:365-428 | fails when reflection fails or the length is not whole words; otherwise the module has length/4 words, the name is kept only in debug builds, and a table exists exactly for vertex stages |
| Shaders.CreateShader | webgpu/src/lib.rs:350-363 | loads from the shader's resource path and fails when the loader cannot read it |
| Shaders.CreateProgramFromShaders | webgpu/src/lib.rs:439-458 | raster programs pair their two shaders, keeping the name only in debug builds; compute programs are unimplemented |
| Shaders.GetVertexAttr | webgpu/src/lib.rs:468-480 | panics on a vertex shader without a table, else finds the name exactly when it is in the table, at its location |
| Shaders.VertexAttrOfCreatedShader | webgpu/src/lib.rs:468-480 | for a created vertex shader, lookup finds a name exactly when an input is called "a" + name, at the last such input's location |
| VertexArrays.BindVertexAppendsOne | webgpu/src/lib.rs:514-520 | binding to the vertex target appends exactly one binding {snapshot, stride 0, per-vertex, no attributes}, keeping the earlier ones and the index buffer |
| VertexArrays.BindIndexAndStorage | webgpu/src/lib.rs:521-524 | binding to the index target overwrites only the index slot; the storage target changes nothing |
| VertexArrays.ConfigureSucceedsIff | webgpu/src/lib.rs:534-600 | configuration succeeds exactly when the index is bound, the divisor is 0 or 1 and the triple has a format |
| VertexArrays.ConfigureUnboundChangesNothing | webgpu/src/lib.rs:534-538 | an unbound buffer index panics before anything is written |
| VertexArrays.ConfigureSuccessEffect | webgpu/src/lib.rs:540-600 | success changes only the indexed binding: stride set, step mode from the divisor, exactly one attribute {offset, format, location} appended |
| VertexArrays.ConfigurePanicLeavesPartialWrite | webgpu/src/lib.rs:540-597 | a divisor panic leaves the stride written; a format panic leaves stride and step mode written; no attribute is ever added |
| VertexArrays.ConfigureTwiceLastWriteWins | webgpu/src/lib.rs:540-600 | two configurations of one binding keep the second stride and step mode and both attributes in call order |
| VertexArrays.VertexArray.constructor | webgpu/src/lib.rs:430-437 | a new vertex array has no bindings and no index buffer |
| VertexArrays.VertexArray.BindBuffer | webgpu/src/lib.rs:508-526 | the in-place update leaves the specified state, with the buffer's slot as it was at bind time |
| VertexArrays.VertexArray.ConfigureVertexAttr | webgpu/src/lib.rs:528-601 | the field-by-field update leaves the specified state and outcome, partial writes included |
| Pipeline.ColorState | webgpu/src/lib.rs:927-963 | format from the target; REPLACE for both channels without a blend option, else the translated descriptors; write mask ALL iff the colour mask is set |
| Pipeline.DepthStencilState | webgpu/src/lib.rs:965-1018 | present iff depth or stencil is set; missing depth gives Never and no write; missing stencil gives IGNORE, read mask !0, write mask 0; a stencil option gives Keep/Keep, Replace iff write, read mask = reference, write mask = mask |
| Pipeline.VertexLayouts | webgpu/src/lib.rs:843-853 | one layout per binding in order, with its stride and attributes and always the per-vertex step mode |
| Pipeline.PipelineShape | webgpu/src/lib.rs:855-1026 | the pipeline has the given layout, the program's two modules, Cw/no culling, the primitive's topology, exactly the colour state and depth/stencil state derived from the options, Uint32 indices, 1 sample, mask !0, no alpha-to-coverage |
| Pipeline.RenderPassLoadOps | webgpu/src/lib.rs:1028-1069 | each attachment clears iff its clear value is given, else loads, and always stores; the depth/stencil attachment exists iff the target is Default |
| Pipeline.DrawElementsInstanced | webgpu/src/lib.rs:810-1094 | fails, in order, on an unallocated vertex buffer, no index buffer, an unallocated index buffer, the default target; otherwise records the pass on a new view, the pipeline with its new layouts and id, the viewport, every buffer whole at its slot and the index and instance counts |
| Pipeline.DrawCreatesFreshObjects | webgpu/src/lib.rs:838-906 | a draw's view, bind group layout, pipeline layout and pipeline have four distinct ids from its range, and a later draw shares none of them although its descriptions are otherwise equal |
| Pipeline.SuccessfulDrawHasNoDepthStencilAttachment | webgpu/src/lib.rs:838-841 | no successful draw attaches the main depth/stencil texture |
| Pipeline.ConfiguredStepModeIsIgnored | webgpu/src/lib.rs:843-853 | a binding configured per-instance is still laid out per vertex, with its attributes |
| Pipeline.StencilOnlyDiscardsEveryFragment | webgpu/src/lib.rs:965-1001 | with stencil but no depth option every fragment fails the depth test and no depth is written |
| Pipeline.DepthOptionMeaning | webgpu/src/lib.rs:989-1001 | with a depth option the depth test means pathfinder's depth function and depth writes follow its flag |
| Pipeline.StencilUnchangedUnlessWritten | webgpu/src/lib.rs:969-1013 | without a stencil option, or with one whose write is off, no fragment changes the stencil value |
| Pipeline.NoBlendWritesSource | webgpu/src/lib.rs:937-958 | without a blend option colour and alpha are written unblended |
| Pipeline.BlendOptionMeaning | webgpu/src/lib.rs:937-958 | with a blend option the colour and alpha equations are pathfinder's |
| Textures.DescriptorFor | webgpu/src/lib.rs:317-330 | a texture descriptor exists iff both sides are non-negative (width checked first), with one mip level, one sample, depth 1 |
| Textures.Texture.constructor | webgpu/src/lib.rs:317-337 | a new texture has the given id, format, size and descriptor, no sampling flags and is not dirty |
| Textures.Texture.SetSamplingMode | webgpu/src/lib.rs:714-716 | replaces the sampling flags and nothing else |
| Textures.DataByteLength | webgpu/src/lib.rs:726-730 | the staging size is the element count times the element size |
| Textures.BytesPerRowAsWritten | webgpu/src/lib.rs:743-752 | the pitch as written exists iff the width is non-negative and width times 1, 2, 2, 8 or 16 bytes fits in u32, and is that product; a negative width and an overflow fail as such |
| Textures.BytesPerRow | webgpu/src/lib.rs:743-752 | the corrected row pitch exists iff the width is non-negative and width times texel size fits in u32, and is that product; a negative width and an overflow fail as such |
| Textures.UploadCopyAsWritten | webgpu/src/lib.rs:739-766 | the copy as written exists iff both sides are non-negative and the as-written pitch fits, and reads the staging buffer (id and size) from 0 with that pitch into mip 1 over the whole texture; failures are the pitch's, then the height's |
| Textures.UploadCopy | webgpu/src/lib.rs:739-766 | the corrected copy exists iff both sides are non-negative and the corrected pitch fits, and reads the staging buffer (id and size) from 0 with that pitch and the texture's height into mip 0 at the origin, over the whole texture |
| Textures.UploadCopyFits | webgpu/src/lib.rs:719-766 | for data matching the whole texture, the corrected copy from a staging buffer of the data's byte length fits the texture level and the buffer, and reads that buffer exactly to its end |
| Textures.UploadCopyAsWrittenTargetsMissingLevel | webgpu/src/lib.rs:755-760 | the copy as written targets mip level 1 of a one-level texture and never fits it, whatever its source |
| Textures.BytesPerRowAsWrittenRgba8 | webgpu/src/lib.rs:745-751 | as written an RGBA8 pitch is half the row's length; every other format agrees with the correction |
| Textures.BytesPerRowAsWrittenOneTexel | webgpu/src/lib.rs:748 | a 1-texel RGBA8 row gets pitch 2 instead of 4 |
| Textures.BytesPerRowAsWrittenWide | webgpu/src/lib.rs:743-752 | an RGBA8 texture 2^30 wide gets pitch 2^31 as written, while the corrected pitch overflows u32 |
| Commands.Initial | webgpu/src/lib.rs:121-139 | the device starts valid with the empty initialization encoder current and nothing queued or submitted |
| Commands.FinishCurrentPreservesValid | webgpu/src/lib.rs:143-153 | rotation appends the finished current encoder, installs a fresh empty one and keeps an encoder current |
| Commands.RecordPreservesValid | webgpu/src/lib.rs:738-739 | recording appends one command to the current encoder and changes nothing finished |
| Commands.EndFrameSubmitsEverything | webgpu/src/lib.rs:159-164 | the queue receives the frame's buffers then the current encoder, in order, and the frame is left empty |
| Commands.BeginNQueues | webgpu/src/lib.rs:777-788 | n begins queue the current encoder then n-1 empty ones and leave a fresh empty encoder current |
| Commands.FrameSubmitsOnePerBegin | webgpu/src/lib.rs:143-164 | after n begins end_frame submits exactly n+1 buffers, consecutively numbered, and leaves the queue empty |
| Commands.RecordAllAppends | webgpu/src/lib.rs:738-739 | recording a sequence appends it to the current encoder in order |
| Commands.BeginRecordEndFrame | webgpu/src/lib.rs:143-164 | commands recorded after begin reach the queue in one buffer, in order, behind what was pending |
| Device.WebGpuDevice.New | webgpu/src/lib.rs:37-140 | fails iff a side is negative; else the initial stream, the sixteen samplers, the depth texture and the Bgra8Unorm swap chain of the window's size |
| Device.WebGpuDevice.FinishCurrentCommandEncoder | webgpu/src/lib.rs:143-153 | the fields end in the rotated stream |
| Device.WebGpuDevice.BeginCommands | webgpu/src/lib.rs:777-788 | begin_commands rotates the stream |
| Device.WebGpuDevice.EndCommands | webgpu/src/lib.rs:790-800 | end_commands leaves the stream unchanged |
| Device.WebGpuDevice.EndFrame | webgpu/src/lib.rs:159-164 | the stream ends as the frame's submission and one more swap chain output is acquired |
| Device.WebGpuDevice.CreateTexture | webgpu/src/lib.rs:317-337 | fails iff a side is negative; else a fresh texture with the next id, its descriptor, format and size, and no flags |
| Device.WebGpuDevice.UploadToTexture | webgpu/src/lib.rs:719-767 | a staging buffer of the data's byte length takes the next id; the copy as written is recorded, or on its panic nothing is recorded and the panic is returned |
| Device.WebGpuDevice.UploadToTextureCorrected | webgpu/src/lib.rs:719-767 | as the upload, with the corrected copy; on a created texture with data of its size the recorded copy fits the texture level and the staging buffer, reading it exactly to its end |
| Device.WebGpuDevice.CreateTextureFromData | webgpu/src/lib.rs:339-348 | creates the texture, then records the as-written upload of the whole texture; fails on a negative side consuming no id, or on the pitch overflow with the texture created and two ids consumed and nothing recorded |
| Device.WebGpuDevice.CreateBuffer | webgpu/src/lib.rs:607-611 | a new buffer handle is empty |
| Device.WebGpuDevice.AllocateBuffer | webgpu/src/lib.rs:613-667 | the slot ends holding a new buffer with the next id, the data's byte length and the target's usage, whatever it held before |
| Device.WebGpuDevice.CreateShader | webgpu/src/lib.rs:350-428 | creates the shader with the next module id, used only on success |
| Device.WebGpuDevice.DrawElementsInstanced | webgpu/src/lib.rs:810-1094 | a successful synthesis, its view, layouts and pipeline taking the next four ids, is recorded into the current encoder; a failure creates and records nothing |
| Device.DrawTwice | webgpu/src/lib.rs:855-1026 | two identical draws record two passes with equal descriptions but distinct new layouts and pipelines, consuming eight ids; a failure changes nothing |
| Device.BindBeforeAllocate | webgpu/src/lib.rs:820-826 | binding a buffer before allocating it makes the draw fail as uninitialized although the buffer is allocated |
| Device.DrawQuad | webgpu/src/lib.rs:508-601 | the quad's vertex array holds one binding of stride 8 with one Float2 attribute and the index buffer, and its draw is recorded or fails as specified |
| Device.QuadOnDefaultTarget | webgpu/src/lib.rs:838-841 | the quad drawn into the default target fails as unimplemented and records nothing |
| Device.QuadFrame | webgpu/src/lib.rs:159-164 | a frame drawing the quad into a framebuffer submits the empty initialization buffer, then one buffer with one clearing pass of one per-vertex layout, no depth attachment, 6 indices and 1 instance |

## Left out

- Adapter, device and swap chain acquisition (`block_on`, async requests; lib.rs:37-58, 109-119): foreign and asynchronous. `New` keeps only what they leave: the initial stream, the samplers, and the descriptors of the depth texture and the swap chain.
- Device.WebGpuDevice.New: assumes acquiring the first swap chain output succeeds; the `get_next_texture().unwrap()` at lib.rs:120 is a foreign call whose failure is not modelled.
- Device.WebGpuDevice.EndFrame: assumes acquiring the next swap chain output succeeds; the `get_next_texture().unwrap()` at lib.rs:163 is a foreign call whose failure is not modelled, so `end_frame` always succeeds and counts one more output.
- wgpu object creation and encoder calls: foreign. Resources are opaque ids from `nextResource`; command encoders are numbered by `nextEncoder`; encoder calls are values of `Commands.Command`. The sixteen samplers, the depth texture and the initialization encoder take no counter ids.
- Texture usage flags (`UNINITIALIZED`, `OUTPUT_ATTACHMENT`, `COPY_SRC`): not part of `Textures.TextureDescriptor`. WebGPU's own usage validation of the copy is therefore not modelled. A texture from `create_texture` has `UNINITIALIZED` usage (lib.rs:330) and so no `COPY_DST`.
- Textures.CopyFits: leaves out WebGPU's rule that a copy's `bytesPerRow` is a multiple of 256. The code pads neither the pitch nor the staging data (RGBA8 at width 10 gives a 40-byte pitch), so the corrected copy is proved to fit the texture level and the staging buffer, not to be accepted by WebGPU.
- `unsafe` byte reinterpretation (`slice::from_raw_parts`, lib.rs:414-416, 650-651, 724-732): only byte lengths are modelled.
- `check_and_extract_data_ptr`: foreign (pathfinder_gpu) and not part of this model. `Textures.DataMatches` is an assumption of what it accepts and appears only as a hypothesis. The `rect` argument is dropped because nothing else uses it.
- SPIR-V reflection (`spirv_reflect`) and the resource loader: foreign. They are the function parameters `reflect` and `resources`.
- Floating point: the viewport's `as f32` conversion is kept as integers; clear colours and depths are `real`; the sampler LOD clamps and the depth bias slope and clamp are dropped.
- `todo!()` stubs: compute programs appear as `Err(Unimplemented)` in `Shaders.CreateProgramFromShaders`, and drawing to the default target as `Err(Unimplemented)` in `Pipeline.DrawElementsInstanced`. Compute dispatch, fences, timer queries, readback, `upload_to_buffer`, `destroy_framebuffer`, texture/image/storage parameters, `set_compute_program_local_size`, `draw_arrays` and `draw_elements` only panic and are not modelled.
- `get_uniform`, `feature_level`, `create_framebuffer`, `framebuffer_texture`, `texture_format` and `texture_size`: constant results or field accessors. They appear only as the fields they read and as `Device.Framebuffer` and `Device.TargetOf`.
- `dbg!` output and the descriptor-binding enumeration loop (lib.rs:400-402): output only.
- Sampling flags: `set_texture_sampling_mode` stores them and `new` builds the sixteen samplers, but no operation of the backend reads either, so the model has no sampler lookup.
- The render pass, `set_pipeline` and the other calls on it are part of the recorded `Pipeline.DrawPass`; only the view, the two layouts and the pipeline are counted as created objects.
- `RefCell` borrow panics: the single-threaded calls never overlap a borrow.
- Release-build wrapping of the u32 row-pitch product: only the debug-build panic is modelled (`Errors.CheckedMulU32`).
- `shaders/build.rs`: an offline build script doing file I/O and foreign compiler calls.

## Findings

| source | as written | input that shows it | evidently intended | confidence | as-written member | corrected member |
|---|---|---|---|---|---|---|
| webgpu/src/lib.rs:748 | the RGBA8 row pitch counts `2 * size_of::<u8>()` = 2 bytes per texel | an RGBA8 texture 1 texel wide: pitch 2 for a 4-byte row | 4 bytes per texel, the format's texel size, as for every other format | high, not executed | Textures.BytesPerRowAsWrittenRgba8 | Textures.UploadCopyFits |
| webgpu/src/lib.rs:757 | the upload copies into `mip_level: 1` | any texture from `create_texture`, which has `mip_level_count: 1` (lib.rs:326) | mip level 0, the only level | high, not executed | Textures.UploadCopyAsWrittenTargetsMissingLevel | Textures.UploadCopyFits |

The as-written definitions are `Textures.BytesPerRowAsWritten` and
`Textures.UploadCopyAsWritten`, which `Device.WebGpuDevice.UploadToTexture`
and `Device.WebGpuDevice.CreateTextureFromData` record, as the code does.
The corrections are `Textures.BytesPerRow` and `Textures.UploadCopy`,
recorded by `Device.WebGpuDevice.UploadToTextureCorrected`, whose contract
states that the copy fits the texture level and the staging buffer. The two pitches also overflow at different
widths (`Textures.BytesPerRowAsWrittenWide`).
