/** The command stream: one current command encoder that draws and
    uploads record into, the frame's finished command buffers, and what the
    queue has been given.  `begin_commands` finishes the current encoder
    and opens a fresh one, `end_commands` does nothing, and `end_frame`
    finishes the current encoder, submits the frame's buffers in order and
    clears them.  Encoders are identified by the order they were created
    in, the initialization encoder being number 0. */
module Commands {
  import Pipeline
  import Textures

  datatype Command =
    | Copy(copy: Textures.BufferToTextureCopy)
    | Draw(draw: Pipeline.DrawPass)

  datatype CommandEncoder = CommandEncoder(id: nat, commands: seq<Command>)

  datatype CommandBuffer = CommandBuffer(encoder: nat, commands: seq<Command>)

  /** `CommandEncoder::finish`. */
  function Finish(e: CommandEncoder): CommandBuffer {
    CommandBuffer(e.id, e.commands)
  }

  datatype Stream = Stream(
    current: CommandEncoder,
    pending: seq<CommandBuffer>,
    submitted: seq<CommandBuffer>,
    nextEncoder: nat)

  /** Everything finished so far, submitted or not, in order. */
  function Finished(s: Stream): seq<CommandBuffer> {
    s.submitted + s.pending
  }

  /** No encoder is lost or finished twice: the finished buffers are
      encoders 0, 1, ... in creation order, the current encoder is the next
      one, and the counter points past it. */
  ghost predicate Valid(s: Stream) {
    && |Finished(s)| == s.current.id
    && s.nextEncoder == s.current.id + 1
    && forall i :: 0 <= i < |Finished(s)| ==> Finished(s)[i].encoder == i
  }

  /** The device right after construction: the empty initialization
      encoder is current. */
  function Initial(): (s: Stream)
    ensures Valid(s)
    ensures s.current.commands == [] && s.pending == [] && s.submitted == []
  {
    Stream(CommandEncoder(0, []), [], [], 1)
  }

  /** `finish_current_command_encoder`. */
  function FinishCurrent(s: Stream): Stream {
    Stream(CommandEncoder(s.nextEncoder, []), s.pending + [Finish(s.current)], s.submitted, s.nextEncoder + 1)
  }

  /** A draw or an upload recording into the current encoder. */
  function Record(s: Stream, c: Command): Stream {
    s.(current := s.current.(commands := s.current.commands + [c]))
  }

  function BeginCommands(s: Stream): Stream {
    FinishCurrent(s)
  }

  /** `end_commands` is a no-op. */
  function EndCommands(s: Stream): Stream {
    s
  }

  /** `end_frame`, without the swap chain. */
  function EndFrame(s: Stream): Stream {
    var t := FinishCurrent(s);
    t.(submitted := t.submitted + t.pending, pending := [])
  }

  lemma FinishCurrentPreservesValid(s: Stream)
    requires Valid(s)
    ensures Valid(FinishCurrent(s))
    ensures Finished(FinishCurrent(s)) == Finished(s) + [Finish(s.current)]
    ensures FinishCurrent(s).current == CommandEncoder(s.current.id + 1, [])
  {
    assert Finished(FinishCurrent(s)) == Finished(s) + [Finish(s.current)];
  }

  lemma RecordPreservesValid(s: Stream, c: Command)
    requires Valid(s)
    ensures Valid(Record(s, c))
    ensures Finished(Record(s, c)) == Finished(s)
    ensures Record(s, c).current.commands == s.current.commands + [c]
  {
  }

  /** `end_frame` hands the queue, after what it already has, the frame's
      finished buffers followed by the current encoder, and leaves an empty
      frame with a fresh empty encoder; nothing finished is lost. */
  lemma EndFrameSubmitsEverything(s: Stream)
    requires Valid(s)
    ensures Valid(EndFrame(s))
    ensures EndFrame(s).submitted == s.submitted + s.pending + [Finish(s.current)]
    ensures EndFrame(s).pending == []
    ensures EndFrame(s).current == CommandEncoder(s.current.id + 1, [])
  {
    FinishCurrentPreservesValid(s);
    assert Finished(EndFrame(s)) == Finished(FinishCurrent(s));
  }

  function BeginN(s: Stream, n: nat): Stream {
    if n == 0 then s else BeginCommands(BeginN(s, n - 1))
  }

  function RecordAll(s: Stream, cs: seq<Command>): Stream {
    if cs == [] then s else Record(RecordAll(s, cs[..|cs| - 1]), cs[|cs| - 1])
  }

  function EmptyBuffers(first: nat, n: nat): (r: seq<CommandBuffer>)
    ensures |r| == n
    ensures forall i :: 0 <= i < n ==> r[i] == CommandBuffer(first + i, [])
  {
    seq(n, i requires 0 <= i < n => CommandBuffer(first + i, []))
  }

  /** `n` calls of `begin_commands` (each also a `begin`/`end` pair, since
      `end_commands` does nothing) queue the current encoder and then
      `n - 1` empty ones, and leave a fresh empty encoder current. */
  lemma {:induction false} BeginNQueues(s: Stream, n: nat)
    requires Valid(s) && n > 0
    ensures Valid(BeginN(s, n))
    ensures BeginN(s, n).pending == s.pending + [Finish(s.current)] + EmptyBuffers(s.current.id + 1, n - 1)
    ensures BeginN(s, n).submitted == s.submitted
    ensures BeginN(s, n).current == CommandEncoder(s.current.id + n, [])
  {
    if n == 1 {
      FinishCurrentPreservesValid(s);
      assert EmptyBuffers(s.current.id + 1, 0) == [];
    } else {
      BeginNQueues(s, n - 1);
      var t := BeginN(s, n - 1);
      FinishCurrentPreservesValid(t);
      assert EmptyBuffers(s.current.id + 1, n - 2) + [Finish(t.current)] == EmptyBuffers(s.current.id + 1, n - 1);
    }
  }

  /** A frame with `n` calls of `begin_commands` and no recording submits
      exactly `n + 1` command buffers: the one current when the frame
      began, then `n` empty ones, numbered consecutively. */
  lemma FrameSubmitsOnePerBegin(s: Stream, n: nat)
    requires Valid(s) && s.pending == []
    ensures var e := EndFrame(BeginN(s, n));
      && e.submitted == s.submitted + [Finish(s.current)] + EmptyBuffers(s.current.id + 1, n)
      && |e.submitted| == |s.submitted| + n + 1
      && e.pending == []
  {
    if n == 0 {
      EndFrameSubmitsEverything(s);
      assert EmptyBuffers(s.current.id + 1, 0) == [];
    } else {
      BeginNQueues(s, n);
      var t := BeginN(s, n);
      EndFrameSubmitsEverything(t);
      assert t.current.id == s.current.id + n;
      assert EmptyBuffers(s.current.id + 1, n - 1) + [Finish(t.current)] == EmptyBuffers(s.current.id + 1, n);
    }
  }

  lemma {:induction false} RecordAllAppends(s: Stream, cs: seq<Command>)
    ensures RecordAll(s, cs) == s.(current := s.current.(commands := s.current.commands + cs))
  {
    if cs != [] {
      RecordAllAppends(s, cs[..|cs| - 1]);
      assert s.current.commands + cs[..|cs| - 1] + [cs[|cs| - 1]] == s.current.commands + cs;
    }
  }

  /** Commands recorded between `begin_commands` and `end_frame` reach the
      queue in one command buffer, in the order they were recorded, behind
      everything that was pending. */
  lemma {:induction false} BeginRecordEndFrame(s: Stream, cs: seq<Command>)
    requires Valid(s)
    ensures var e := EndFrame(EndCommands(RecordAll(BeginCommands(s), cs)));
      && Valid(e)
      && e.submitted == s.submitted + s.pending + [Finish(s.current), CommandBuffer(s.current.id + 1, cs)]
  {
    var b := BeginCommands(s);
    FinishCurrentPreservesValid(s);
    RecordAllAppends(b, cs);
    var r := RecordAll(b, cs);
    assert r.current.commands == cs;
    assert Finished(r) == Finished(b);
    EndFrameSubmitsEverything(r);
  }
}
