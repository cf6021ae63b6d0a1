/** `transfer_ctrl` as it is: the closures of the work thread on the mutable map of transfers and the disk. */
module WorkThread {
  import opened Basics
  import opened FileEvents
  import opened Streams
  import opened Progress
  import opened TransferCtrl
  import opened SeekCache

  /** The part of the closure that reads: `t` is the transfer in the map, updated in place. What is sent are the bytes
      from where the head of the stream says, all of them or nothing. */
  method Serve(t: Transfer, id: Id, req: ChunkRequest, bytes: seq<Byte>, limit: Option<nat>)
    returns (tr: Transfer, reply: Option<SendMsg>)
    ensures var o := ServeRequest(t, id, req, bytes, limit);
            Some(tr) == o.after && reply == o.reply && o.saved.None?
    ensures forall h :: Stands(t, h) && req.size > 0 ==>
              var from, a := From(h, ToSigned(req.pos)), Asked(req, bytes, limit);
              && reply == Answer(id, req, if from.Some? then Direct(from.value, a) else None)
              && Stands(tr, NextHead(h, a))
  {
    forall h | Stands(t, h) && req.size > 0 { ServeOne(t, id, h, Asked(req, bytes, limit)); }
    tr, reply := t, None;
    var chunkPos := ToSigned(req.pos);
    if tr.lastPos != chunkPos {
      tr := tr.(stream := Seek(tr.stream, chunkPos));
    }
    if req.size >= TWO_TO_63 {
      // the allocation of the buffer throws
      return;
    }
    var (st, buf) := Read(tr.stream, bytes, req.size, limit);
    if !st.failed {
      reply := Some(SendChunk(id, req.pos, buf));
      tr := tr.(stream := st, lastPos := tr.lastPos + req.size,
      progress := Advance(tr.progress, Span(req.pos, req.size)));
    } else {
      tr := tr.(lastPos := Tell(st), stream := Clear(st));
    }
  }

  /** The part of the closure that writes. The chunk is laid over the file where the head of the stream says. */
  method Keep(t: Transfer, pos: U64, data: Data, bytes: seq<Byte>, limit: Option<nat>)
    returns (tr: Transfer, saved: Option<Saved>)
    ensures var o := StoreChunk(t, pos, data, bytes, limit);
            Some(tr) == o.after && saved == o.saved && o.reply.None?
    ensures saved.Some? ==> saved.value.path == t.stream.path
    ensures forall h :: Stands(t, h) && data != [] ==>
              var w := Stored(pos, data, limit);
              && (if saved.Some? then saved.value.bytes else bytes) == Laid(bytes, From(h, ToSigned(pos)), w)
              && Stands(tr, NextHeadStored(h, w))
  {
    forall h | Stands(t, h) && data != [] { StoreOne(t, h, Stored(pos, data, limit), bytes); }
    tr, saved := t, None;
    var chunkPos := ToSigned(pos);
    if tr.lastPos != chunkPos {
      tr := tr.(stream := Seek(tr.stream, chunkPos));
    }
    var (st, written) := Write(tr.stream, bytes, data, limit);
    if tr.stream.open && !tr.stream.failed {
      saved := Some(Saved(st.path, written));
    }
    if !st.failed {
      tr := tr.(stream := st, lastPos := tr.lastPos + |data|, progress := Advance(tr.progress, Span(pos, |data|)));
    } else {
      tr := tr.(stream := st, lastPos := Tell(st));
    }
  }

  /** The class, with one method for each closure that the work thread runs. */
  class Controller {
    var transfers: map<Id, Transfer>
    var disk: map<string, seq<Byte>>

    constructor (disk: map<string, seq<Byte>>)
      ensures transfers == map[] && this.disk == disk
    {
      transfers := map[];
      this.disk := disk;
    }

    ghost function State(): Ctrl
      reads this
    {
      Ctrl(transfers, disk)
    }

    method RunRegister(id: Id, path: string, size: U64, opens: bool)
      modifies this
      ensures State() == RunIn(old(State()), Register(id, path, size), opens, None)
      ensures forall i :: i != id ==> Find(transfers, i) == Find(old(transfers), i)
    {
      var tr := Opened(Send, path, size, opens && path in disk);
      if id !in transfers {
        transfers := transfers[id := tr];
      }
    }

    method RunReceive(id: Id, path: string, size: U64, opens: bool) returns (reply: Option<SendMsg>)
      modifies this
      ensures State() == RunIn(old(State()), Receive(id, path, size), opens, None)
      ensures reply == OutcomeIn(old(State()), Receive(id, path, size), opens, None).reply
      ensures forall i :: i != id ==> Find(transfers, i) == Find(old(transfers), i)
    {
      reply := None;
      var tr := Opened(Recv, path, size, opens);
      if opens {
        disk := disk[path := []];
      }
      if id in transfers {
        return;
      }
      transfers := transfers[id := tr.(active := true)];
      reply := Some(SendControl(id, Resume));
    }

    method RunControl(id: Id, control: ControlKind)
      modifies this
      ensures State() == RunIn(old(State()), Control(id, control), false, None)
      ensures forall i :: i != id ==> Find(transfers, i) == Find(old(transfers), i)
    {
      if id in transfers {
        match control
        case Cancel => transfers := transfers - {id};
        case Pause => transfers := transfers[id := transfers[id].(active := false)];
        case Resume => transfers := transfers[id := transfers[id].(active := true)];
      }
    }

    method RunRequest(id: Id, req: ChunkRequest, limit: Option<nat>) returns (reply: Option<SendMsg>)
      modifies this
      ensures State() == RunIn(old(State()), Request(id, req), false, limit)
      ensures reply == OutcomeIn(old(State()), Request(id, req), false, limit).reply
      ensures forall i :: i != id ==> Find(transfers, i) == Find(old(transfers), i)
    {
      reply := None;
      if id !in transfers {
        return;
      }
      var tr := transfers[id];
      if tr.kind != Send || !tr.active {
        return;
      }
      if req.size == 0 {
        transfers := transfers - {id};
        return;
      }
      tr, reply := Serve(tr, id, req, Contents(Find(disk, tr.stream.path)), limit);
      transfers := transfers[id := tr];
    }

    method RunChunk(id: Id, pos: U64, data: Data, limit: Option<nat>)
      modifies this
      ensures State() == RunIn(old(State()), Chunk(id, pos, data), false, limit)
      ensures forall i :: i != id ==> Find(transfers, i) == Find(old(transfers), i)
    {
      if id !in transfers {
        return;
      }
      var tr := transfers[id];
      if tr.kind != Recv || !tr.active {
        return;
      }
      if |data| == 0 {
        transfers := transfers - {id};
        return;
      }
      var path, found := tr.stream.path, Contents(Find(disk, tr.stream.path));
      var saved;
      tr, saved := Keep(tr, pos, data, found, limit);
      if saved.Some? {
        disk := disk[path := saved.value.bytes];
      }
      transfers := transfers[id := tr];
    }
  }
}
