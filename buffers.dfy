/** `WebGpuBuffer`: a lazily initialised slot holding the wgpu buffer
    (an opaque id here) together with its byte size.  `create_buffer`
    makes an empty slot; `allocate_buffer` fills or replaces it. */
module Buffers {
  import opened Common
  import Lazy

  datatype BufferTarget = Vertex | Index | Storage

  datatype BufferUsage = VERTEX | INDEX | STORAGE | COPY_SRC | COPY_DST

  /** `BufferStorage`: the wgpu buffer and its size in bytes, set at once. */
  datatype BufferStorage = BufferStorage(buffer: nat, size: nat, usage: set<BufferUsage>)

  /** The shared buffer handle. */
  type Buffer = Lazy.LazilyInitialized<BufferStorage>

  /** What a `clone()` of a buffer handle holds. */
  type BufferSnapshot = Option<BufferStorage>

  /** `BufferData<T>`: an uninitialised allocation of `size` bytes, or
      `count` elements of a type whose `size_of` is `elementSize`. */
  datatype BufferData = Uninitialized(size: nat) | Memory(count: nat, elementSize: nat)

  /** The usage flags `allocate_buffer` requests for a target. */
  function UsageFor(target: BufferTarget): (u: set<BufferUsage>)
    ensures COPY_SRC in u && COPY_DST in u
    ensures (VERTEX in u <==> target == Vertex) && (INDEX in u <==> target == Index)
    ensures STORAGE in u <==> target == Storage
    ensures |u| == 3
  {
    match target
    case Vertex => {VERTEX, COPY_SRC, COPY_DST}
    case Index => {INDEX, COPY_SRC, COPY_DST}
    case Storage => {STORAGE, COPY_SRC, COPY_DST}
  }

  /** The byte length of the allocation `data` asks for. */
  function ByteLength(data: BufferData): nat {
    match data
    case Uninitialized(size) => size
    case Memory(count, elementSize) => count * elementSize
  }

  /** The storage `allocate_buffer` installs, given the id wgpu assigns. */
  function StorageFor(id: nat, data: BufferData, target: BufferTarget): BufferStorage {
    BufferStorage(id, ByteLength(data), UsageFor(target))
  }
}
