/** `transfer_ctrl`: the per-file transfers, as the work thread runs the queued closures on them. */
module TransferCtrl {
  import opened Basics
  import opened FileEvents
  import opened Streams
  import opened Progress

  datatype Kind = Send | Recv

  /** `transfer_t`. */
  datatype Transfer = Transfer(
    kind: Kind, stream: Stream, lastPos: int, progress: U64, total: U64, active: bool)

  /** What the file system does for one closure: the bytes an open finds (None: it fails), or those of the file
      behind the stream at that moment, and after how many bytes the device stops, if it does. */
  datatype Outside = Outside(file: Option<seq<Byte>>, limit: Option<nat>)

  datatype Saved = Saved(path: string, bytes: seq<Byte>)

  /** The effect of one closure on its own transfer, on the send queue and on the disk. */
  datatype Outcome = Outcome(after: Option<Transfer>, reply: Option<SendMsg>, saved: Option<Saved>)

  /** The constructor of `transfer_t`; `opens` is whether the file could be opened. */
  function Opened(kind: Kind, path: string, size: U64, opens: bool): Transfer {
    Transfer(kind, Stream(path, opens, 0, !opens), 0, 0, size, false)
  }

  /** The bytes seen through a stream; the file of an open one exists. */
  function Contents(file: Option<seq<Byte>>): seq<Byte> {
    if file.Some? then file.value else []
  }

  /** The stream from which, or to which, the chunk at `offset` is moved: the seek is skipped when the
      cached position says so. */
  function Positioned(tr: Transfer, offset: int): Stream {
    if tr.lastPos != offset then Seek(tr.stream, offset) else tr.stream
  }

  /** No buffer is larger than PTRDIFF_MAX: the allocation throws, after the seek and before the read. */
  function ServeRequest(tr: Transfer, id: Id, req: ChunkRequest, bytes: seq<Byte>, limit: Option<nat>): Outcome {
    var sought := Positioned(tr, ToSigned(req.pos));
    var (st, data) := Read(sought, bytes, req.size, limit);
    if req.size >= TWO_TO_63 then Outcome(Some(tr.(stream := sought)), None, None)
    else if st.failed then
      Outcome(Some(tr.(stream := Clear(st), lastPos := Tell(st))), None, None)
    else
      Outcome(Some(tr.(stream := st, lastPos := tr.lastPos + req.size,
                       progress := Advance(tr.progress, Span(req.pos, req.size)))),
              Some(SendChunk(id, req.pos, data)), None)
  }

  function StoreChunk(tr: Transfer, pos: U64, data: Data, bytes: seq<Byte>, limit: Option<nat>): Outcome {
    var sought := Positioned(tr, ToSigned(pos));
    var (st, written) := Write(sought, bytes, data, limit);
    var saved := if sought.open && !sought.failed then Some(Saved(st.path, written)) else None;
    if st.failed then
      Outcome(Some(tr.(stream := st, lastPos := Tell(st))), None, saved)
    else
      Outcome(Some(tr.(stream := st, lastPos := tr.lastPos + |data|,
                       progress := Advance(tr.progress, Span(pos, |data|)))),
              None, saved)
  }

  /** One closure on the transfer it names, which may not exist. */
  function RunOne(t: Option<Transfer>, e: Event, x: Outside): Outcome {
    match e
    case Register(_, path, size) =>
      Outcome(if t.Some? then t else Some(Opened(Send, path, size, x.file.Some?)), None, None)
    case Receive(id, path, size) =>
      // the file is opened, and so emptied, before it turns out whether the id is free
      var saved := if x.file.Some? then Some(Saved(path, [])) else None;
      if t.Some? then Outcome(t, None, saved)
      else Outcome(Some(Opened(Recv, path, size, x.file.Some?).(active := true)), Some(SendControl(id, Resume)), saved)
    case Control(_, Cancel) => Outcome(None, None, None)
    case Control(_, c) =>
      Outcome(if t.Some? then Some(t.value.(active := c.Resume?)) else None, None, None)
    case Request(id, req) =>
      if t.None? || !t.value.kind.Send? || !t.value.active then Outcome(t, None, None)
      else if req.size == 0 then Outcome(None, None, None)
      else ServeRequest(t.value, id, req, Contents(x.file), x.limit)
    case Chunk(_, pos, data) =>
      if t.None? || !t.value.kind.Recv? || !t.value.active then Outcome(t, None, None)
      else if data == [] then Outcome(None, None, None)
      else StoreChunk(t.value, pos, data, Contents(x.file), x.limit)
    case Error(_) => Outcome(t, None, None)
  }

  // All transfers together.

  datatype Ctrl = Ctrl(transfers: map<Id, Transfer>, disk: map<string, seq<Byte>>)

  function Put<V>(m: map<Id, V>, id: Id, v: Option<V>): map<Id, V> {
    match v
    case Some(x) => m[id := x]
    case None => m - {id}
  }

  function Store(disk: map<string, seq<Byte>>, saved: Option<Saved>): map<string, seq<Byte>> {
    match saved
    case Some(Saved(path, bytes)) => disk[path := bytes]
    case None => disk
  }

  /** What a closure finds on the disk: a registration looks at its path, a reception empties it, and a chunk is
      moved from or to the file behind the stream. `opens` is whether the system lets an open succeed. */
  function LookUp(c: Ctrl, e: Event, opens: bool): Option<seq<Byte>> {
    match e
    case Register(_, path, _) => if opens then Find(c.disk, path) else None
    case Receive(_, _, _) => if opens then Some([]) else None
    case Request(id, _) => if id in c.transfers then Find(c.disk, c.transfers[id].stream.path) else None
    case Chunk(id, _, _) => if id in c.transfers then Find(c.disk, c.transfers[id].stream.path) else None
    case Control(_, _) => None
    case Error(_) => None
  }

  function OutcomeIn(c: Ctrl, e: Event, opens: bool, limit: Option<nat>): Outcome {
    RunOne(Find(c.transfers, e.id), e, Outside(LookUp(c, e, opens), limit))
  }

  function RunIn(c: Ctrl, e: Event, opens: bool, limit: Option<nat>): Ctrl {
    var o := OutcomeIn(c, e, opens, limit);
    Ctrl(Put(c.transfers, e.id, o.after), Store(c.disk, o.saved))
  }
}
