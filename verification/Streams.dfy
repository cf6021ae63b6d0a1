/** The part of `std::fstream` that a transfer uses: one position for reading and writing, and the fail state.
    The bytes belong to the file, which other streams may change, and so are an input of every read and write. */
module Streams {
  import opened Basics

  datatype Stream = Stream(path: string, open: bool, pos: nat, failed: bool)

  /** `seekg(off)`: does nothing on a failed stream, fails on a negative offset or a closed file. */
  function Seek(st: Stream, off: int): Stream {
    if st.failed || !st.open || off < 0 then st.(failed := true) else st.(pos := off)
  }

  /** How many of `n` bytes a device moves that stops after `limit` bytes, if it stops at all. */
  function Moved(n: nat, limit: Option<nat>): nat {
    match limit
    case None => n
    case Some(k) => if k < n then k else n
  }

  function Available(st: Stream, bytes: seq<Byte>): nat {
    if st.open && st.pos < |bytes| then |bytes| - st.pos else 0
  }

  /** `read(buf, n)`: a short read leaves the stream failed, behind what it got. */
  function Read(st: Stream, bytes: seq<Byte>, n: nat, limit: Option<nat>): (Stream, seq<Byte>) {
    if st.failed then (st, [])
    else
      var got := Moved(if n < Available(st, bytes) then n else Available(st, bytes), limit);
      (st.(pos := st.pos + got, failed := got < n),
       if got == 0 then [] else bytes[st.pos..st.pos + got])
  }

  /** `data` laid over `bytes` from `pos` on; a gap before it reads as zeros. */
  function Overlay(bytes: seq<Byte>, pos: nat, data: seq<Byte>): (r: seq<Byte>)
    ensures data == [] ==> r == bytes
    ensures data != [] ==> |r| == Max(|bytes|, pos + |data|)
    ensures forall i :: 0 <= i < |r| ==>
              r[i] == if pos <= i < pos + |data| then data[i - pos] else if i < |bytes| then bytes[i] else 0
  {
    if data == [] then bytes
    else
      seq(Max(|bytes|, pos + |data|),
          i requires 0 <= i =>
            if pos <= i < pos + |data| then data[i - pos] else if i < |bytes| then bytes[i] else 0)
  }

  /** `write(data)` with the bytes of the file afterwards: a short write leaves the stream failed, behind what
      reached the file. */
  function Write(st: Stream, bytes: seq<Byte>, data: seq<Byte>, limit: Option<nat>): (Stream, seq<Byte>) {
    if st.failed || !st.open then (st.(failed := true), bytes)
    else
      var put := Moved(|data|, limit);
      (st.(pos := st.pos + put, failed := put < |data|), Overlay(bytes, st.pos, data[..put]))
  }

  /** As far as the device lets it, what is written can be read back at its place through any stream, and behind the
      old end it is appended. */
  lemma WriteReadsBack(st: Stream, bytes: seq<Byte>, data: seq<Byte>, limit: Option<nat>, back: Stream)
    requires st.open && !st.failed && back.open && !back.failed && back.pos == st.pos
    ensures var (w, after), n := Write(st, bytes, data, limit), Moved(|data|, limit);
            && Read(back, after, n, None) == (back.(pos := back.pos + n), data[..n])
            && w.pos == st.pos + n && (w.failed <==> n < |data|)
            && (st.pos == |bytes| ==> after == bytes + data[..n])
  {
    var after, n := Write(st, bytes, data, limit).1, Moved(|data|, limit);
    if n > 0 { assert after[st.pos..st.pos + n] == data[..n]; }
  }

  /** Everywhere else the file reads as before. */
  lemma WriteLeavesTheRest(st: Stream, bytes: seq<Byte>, data: seq<Byte>, limit: Option<nat>, other: Stream, n: nat)
    requires other.open && !other.failed && other.pos + n <= |bytes|
    requires other.pos + n <= st.pos || st.pos + |data| <= other.pos
    ensures Read(other, Write(st, bytes, data, limit).1, n, None) == Read(other, bytes, n, None)
  {
    var after := Write(st, bytes, data, limit).1;
    assert after[other.pos..other.pos + n] == bytes[other.pos..other.pos + n];
  }

  /** `tellg()`. */
  function Tell(st: Stream): int {
    if st.failed || !st.open then -1 else st.pos
  }

  function Clear(st: Stream): Stream {
    st.(failed := false)
  }
}
