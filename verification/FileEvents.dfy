/** What travels through the queues: file events towards the work thread, messages towards toxcore. */
module FileEvents {
  import opened Basics

  /** The contents of a chunk, which has a buffer of at most PTRDIFF_MAX bytes. */
  type Data = d: seq<Byte> | |d| < TWO_TO_63 witness []

  datatype ControlKind = Resume | Pause | Cancel

  /** `file_chunk_request_t`. */
  datatype ChunkRequest = ChunkRequest(pos: U64, size: U64)

  /** The file messages of `recv_queue` and the closures of `work_queue` made from them. `Register` is the
      closure that `send_path` queues; `Error` is `recv_msg_file_error_t`, which makes no closure. */
  datatype Event =
    | Register(id: Id, path: string, size: U64)
    | Receive(id: Id, path: string, size: U64)
    | Control(id: Id, control: ControlKind)
    | Request(id: Id, req: ChunkRequest)
    | Chunk(id: Id, pos: U64, data: Data)
    | Error(id: Id)

  /** The messages of `send_queue` that concern files. */
  datatype SendMsg =
    | SendChunk(id: Id, pos: U64, data: Data)
    | SendControl(id: Id, control: ControlKind)
    | FileSend(friend: nat, name: string, size: U64)
}
