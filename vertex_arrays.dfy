/** `WebGpuVertexArray`: the bound vertex buffers, each with its stride,
    step mode and attribute descriptors, plus an optional index buffer.
    `AfterBind` and `AfterConfigure` give the state each call leaves;
    the class `VertexArray` updates its fields in place and is proved to
    leave exactly that state. */
module VertexArrays {
  import opened Common
  import opened Errors
  import opened Formats
  import Buffers
  import Shaders

  datatype InputStepMode = PerVertex | PerInstance

  /** `wgpu::VertexAttributeDescriptor`. */
  datatype VertexAttributeDescriptor = VertexAttributeDescriptor(offset: nat, format: VertexFormat, shaderLocation: U32)

  /** One binding: the buffer handle as cloned at bind time, and its layout
      so far. */
  datatype VertexBuffer = VertexBuffer(
    buffer: Buffers.BufferSnapshot,
    stride: nat,
    stepMode: InputStepMode,
    descriptor: seq<VertexAttributeDescriptor>)

  datatype VertexArrayState = VertexArrayState(
    vertexBuffers: seq<VertexBuffer>,
    indexBuffer: Option<Buffers.BufferSnapshot>)

  /** What `create_vertex_array` starts from. */
  const EMPTY := VertexArrayState([], None)

  /** pathfinder's `VertexAttrDescriptor`. */
  datatype VertexAttrDescriptor = VertexAttrDescriptor(
    size: nat,
    attrClass: VertexAttrClass,
    attrType: VertexAttrType,
    stride: nat,
    offset: nat,
    divisor: U32,
    bufferIndex: U32)

  /** A fresh binding for a buffer bound to the vertex target. */
  function NewBinding(buffer: Buffers.BufferSnapshot): VertexBuffer {
    VertexBuffer(buffer, 0, PerVertex, [])
  }

  /** The state `bind_buffer` leaves. */
  function AfterBind(s: VertexArrayState, buffer: Buffers.BufferSnapshot, target: Buffers.BufferTarget): VertexArrayState {
    match target
    case Vertex => s.(vertexBuffers := s.vertexBuffers + [NewBinding(buffer)])
    case Index => s.(indexBuffer := Some(buffer))
    case Storage => s
  }

  datatype Configured = Configured(state: VertexArrayState, outcome: Outcome)

  /** The state `configure_vertex_attr` leaves and whether it panicked.  A
      panic for an unbound index happens before anything is written; the
      divisor panic happens after the stride is written, and the format
      panic after the step mode is written too. */
  function AfterConfigure(s: VertexArrayState, attr: Shaders.VertexAttr, d: VertexAttrDescriptor): Configured {
    if d.bufferIndex >= |s.vertexBuffers| then
      Configured(s, Fail(UnboundBufferIndex(d.bufferIndex)))
    else
      var i := d.bufferIndex;
      var strided := s.vertexBuffers[i].(stride := d.stride);
      if d.divisor > 1 then
        Configured(s.(vertexBuffers := s.vertexBuffers[i := strided]), Fail(UnsupportedDivisor(d.divisor)))
      else
        var stepped := strided.(stepMode := if d.divisor == 0 then PerVertex else PerInstance);
        match VertexFormatFor(d.attrClass, d.attrType, d.size)
        case None =>
          Configured(s.(vertexBuffers := s.vertexBuffers[i := stepped]),
                     Fail(UnsupportedVertexFormat(d.attrClass, d.attrType, d.size)))
        case Some(format) =>
          var attribute := VertexAttributeDescriptor(d.offset, format, attr.bindLocation);
          Configured(s.(vertexBuffers := s.vertexBuffers[i := stepped.(descriptor := stepped.descriptor + [attribute])]),
                     Pass)
  }

  // ---------------------------------------------------------------------
  // Properties of binding
  // ---------------------------------------------------------------------

  /** Binding to the vertex target adds one binding at the end with stride
      0, per-vertex stepping and no attributes, and keeps every earlier
      binding and the index buffer. */
  lemma BindVertexAppendsOne(s: VertexArrayState, buffer: Buffers.BufferSnapshot)
    ensures var t := AfterBind(s, buffer, Buffers.Vertex);
      && |t.vertexBuffers| == |s.vertexBuffers| + 1
      && (forall j :: 0 <= j < |s.vertexBuffers| ==> t.vertexBuffers[j] == s.vertexBuffers[j])
      && t.vertexBuffers[|s.vertexBuffers|] == VertexBuffer(buffer, 0, PerVertex, [])
      && t.indexBuffer == s.indexBuffer
  {
  }

  /** Binding to the index target replaces the index buffer and nothing
      else; binding to the storage target changes nothing. */
  lemma BindIndexAndStorage(s: VertexArrayState, buffer: Buffers.BufferSnapshot)
    ensures AfterBind(s, buffer, Buffers.Index).indexBuffer == Some(buffer)
    ensures AfterBind(s, buffer, Buffers.Index).vertexBuffers == s.vertexBuffers
    ensures AfterBind(s, buffer, Buffers.Storage) == s
  {
  }

  // ---------------------------------------------------------------------
  // Properties of configuring an attribute
  // ---------------------------------------------------------------------

  /** Configuring succeeds exactly when the buffer index is bound, the
      divisor is 0 or 1 and the (class, type, size) triple is supported. */
  lemma ConfigureSucceedsIff(s: VertexArrayState, attr: Shaders.VertexAttr, d: VertexAttrDescriptor)
    ensures AfterConfigure(s, attr, d).outcome.Pass?
        <==> d.bufferIndex < |s.vertexBuffers| && d.divisor <= 1 && Supported(d.attrClass, d.attrType, d.size)
  {
    VertexFormatDefinedIff(d.attrClass, d.attrType, d.size);
  }

  /** An unbound buffer index is reported with that index and leaves the
      whole vertex array unchanged. */
  lemma ConfigureUnboundChangesNothing(s: VertexArrayState, attr: Shaders.VertexAttr, d: VertexAttrDescriptor)
    requires d.bufferIndex >= |s.vertexBuffers|
    ensures AfterConfigure(s, attr, d) == Configured(s, Fail(UnboundBufferIndex(d.bufferIndex)))
  {
  }

  /** A successful configuration changes only binding `bufferIndex`: its
      buffer stays, its stride becomes the descriptor's, its step mode
      follows the divisor, and its attribute list grows by exactly the one
      descriptor {offset, mapped format, the attribute's location}. */
  lemma ConfigureSuccessEffect(s: VertexArrayState, attr: Shaders.VertexAttr, d: VertexAttrDescriptor)
    requires AfterConfigure(s, attr, d).outcome.Pass?
    ensures var t := AfterConfigure(s, attr, d).state;
      var i := d.bufferIndex as int;
      && i < |s.vertexBuffers|
      && |t.vertexBuffers| == |s.vertexBuffers|
      && t.indexBuffer == s.indexBuffer
      && (forall j :: 0 <= j < |s.vertexBuffers| && j != i ==> t.vertexBuffers[j] == s.vertexBuffers[j])
      && t.vertexBuffers[i].buffer == s.vertexBuffers[i].buffer
      && t.vertexBuffers[i].stride == d.stride
      && t.vertexBuffers[i].stepMode == (if d.divisor == 0 then PerVertex else PerInstance)
      && VertexFormatFor(d.attrClass, d.attrType, d.size).Some?
      && t.vertexBuffers[i].descriptor == s.vertexBuffers[i].descriptor
           + [VertexAttributeDescriptor(d.offset, VertexFormatFor(d.attrClass, d.attrType, d.size).value, attr.bindLocation)]
  {
  }

  /** The state a caught panic leaves: an unsupported divisor has already
      overwritten the stride; an unsupported format has already overwritten
      the stride and the step mode; the attribute list never grows. */
  lemma ConfigurePanicLeavesPartialWrite(s: VertexArrayState, attr: Shaders.VertexAttr, d: VertexAttrDescriptor)
    requires d.bufferIndex < |s.vertexBuffers|
    requires AfterConfigure(s, attr, d).outcome.Fail?
    ensures var t := AfterConfigure(s, attr, d).state;
      var i := d.bufferIndex as int;
      && |t.vertexBuffers| == |s.vertexBuffers|
      && t.indexBuffer == s.indexBuffer
      && (forall j :: 0 <= j < |s.vertexBuffers| && j != i ==> t.vertexBuffers[j] == s.vertexBuffers[j])
      && t.vertexBuffers[i].stride == d.stride
      && t.vertexBuffers[i].descriptor == s.vertexBuffers[i].descriptor
      && (d.divisor > 1 ==>
            && t.vertexBuffers[i].stepMode == s.vertexBuffers[i].stepMode
            && AfterConfigure(s, attr, d).outcome == Fail(UnsupportedDivisor(d.divisor)))
      && (d.divisor <= 1 ==>
            && !Supported(d.attrClass, d.attrType, d.size)
            && AfterConfigure(s, attr, d).outcome == Fail(UnsupportedVertexFormat(d.attrClass, d.attrType, d.size)))
  {
    VertexFormatDefinedIff(d.attrClass, d.attrType, d.size);
  }

  /** Two successful configurations of the same binding: stride and step
      mode are the second call's, and both attributes are kept in call
      order. */
  lemma ConfigureTwiceLastWriteWins(
    s: VertexArrayState, a1: Shaders.VertexAttr, d1: VertexAttrDescriptor, a2: Shaders.VertexAttr, d2: VertexAttrDescriptor)
    requires d1.bufferIndex == d2.bufferIndex
    requires AfterConfigure(s, a1, d1).outcome.Pass?
    requires AfterConfigure(AfterConfigure(s, a1, d1).state, a2, d2).outcome.Pass?
    ensures var t := AfterConfigure(AfterConfigure(s, a1, d1).state, a2, d2).state;
      var i := d1.bufferIndex as int;
      && i < |s.vertexBuffers| == |t.vertexBuffers|
      && t.vertexBuffers[i].stride == d2.stride
      && t.vertexBuffers[i].stepMode == (if d2.divisor == 0 then PerVertex else PerInstance)
      && |t.vertexBuffers[i].descriptor| == |s.vertexBuffers[i].descriptor| + 2
      && t.vertexBuffers[i].descriptor[..|s.vertexBuffers[i].descriptor|] == s.vertexBuffers[i].descriptor
      && t.vertexBuffers[i].descriptor[|s.vertexBuffers[i].descriptor|].shaderLocation == a1.bindLocation
      && t.vertexBuffers[i].descriptor[|s.vertexBuffers[i].descriptor| + 1].shaderLocation == a2.bindLocation
  {
    var m := AfterConfigure(s, a1, d1).state;
    ConfigureSuccessEffect(s, a1, d1);
    ConfigureSuccessEffect(m, a2, d2);
    var n := |s.vertexBuffers[d1.bufferIndex].descriptor|;
    var t := AfterConfigure(m, a2, d2).state;
    assert t.vertexBuffers[d1.bufferIndex].descriptor[..n] == m.vertexBuffers[d1.bufferIndex].descriptor[..n];
  }

  // ---------------------------------------------------------------------
  // The mutable vertex array
  // ---------------------------------------------------------------------

  class VertexArray {
    var vertexBuffers: seq<VertexBuffer>
    var indexBuffer: Option<Buffers.BufferSnapshot>

    function State(): VertexArrayState
      reads this
    {
      VertexArrayState(vertexBuffers, indexBuffer)
    }

    /** `create_vertex_array`. */
    constructor ()
      ensures State() == EMPTY
    {
      vertexBuffers := [];
      indexBuffer := None;
    }

    /** `bind_buffer`: stores a clone of the buffer handle, so a later
        allocation through `buffer` is not seen by this vertex array. */
    method BindBuffer(buffer: Buffers.Buffer, target: Buffers.BufferTarget)
      modifies this
      ensures State() == AfterBind(old(State()), old(buffer.slot), target)
    {
      match target
      case Vertex =>
        vertexBuffers := vertexBuffers + [VertexBuffer(buffer.Snapshot(), 0, PerVertex, [])];
      case Index =>
        indexBuffer := Some(buffer.Snapshot());
      case Storage =>
    }

    /** `configure_vertex_attr`, writing the binding field by field in the
        source's order. */
    method ConfigureVertexAttr(attr: Shaders.VertexAttr, d: VertexAttrDescriptor) returns (r: Outcome)
      modifies this
      ensures Configured(State(), r) == AfterConfigure(old(State()), attr, d)
    {
      if d.bufferIndex >= |vertexBuffers| {
        return Fail(UnboundBufferIndex(d.bufferIndex));
      }
      var i := d.bufferIndex;
      vertexBuffers := vertexBuffers[i := vertexBuffers[i].(stride := d.stride)];
      if d.divisor == 0 {
        vertexBuffers := vertexBuffers[i := vertexBuffers[i].(stepMode := PerVertex)];
      } else if d.divisor == 1 {
        vertexBuffers := vertexBuffers[i := vertexBuffers[i].(stepMode := PerInstance)];
      } else {
        return Fail(UnsupportedDivisor(d.divisor));
      }
      var format := VertexFormatFor(d.attrClass, d.attrType, d.size);
      if format.None? {
        return Fail(UnsupportedVertexFormat(d.attrClass, d.attrType, d.size));
      }
      var attribute := VertexAttributeDescriptor(d.offset, format.value, attr.bindLocation);
      vertexBuffers := vertexBuffers[i := vertexBuffers[i].(descriptor := vertexBuffers[i].descriptor + [attribute])];
      r := Pass;
    }
  }
}
