/** One file on its way: the steps that toxcore asks of the two sides, and what they do to the transfer and to the
    received file when the work thread runs them. */
module Script {
  import opened Basics
  import opened FileEvents
  import opened Streams
  import opened TransferCtrl
  import opened Projection
  import opened ChunkWindow
  import opened Node
  import opened NodeInvariants
  import opened Conservation
  import opened FileLog

  /** One file: its ids and paths on the two sides, its contents, and the pieces toxcore asks for. */
  datatype Link = Link(aid: Id, bid: Id, apath: string, bpath: string, file: Data, parts: seq<ChunkRequest>)

  /** Where piece `k` begins. */
  function Begin(parts: seq<ChunkRequest>, k: nat): int
    requires k <= |parts|
  {
    if k == 0 then 0 else parts[k - 1].pos + parts[k - 1].size
  }

  predicate FollowsOn(parts: seq<ChunkRequest>, k: nat)
    requires k < |parts|
  {
    parts[k].pos == Begin(parts, k) && parts[k].size > 0
  }

  /** The pieces are not empty and follow each other from the start of the file to its end. */
  ghost predicate Tiles(f: Link) {
    && (forall k :: 0 <= k < |f.parts| ==> FollowsOn(f.parts, k))
    && Begin(f.parts, |f.parts|) == |f.file|
  }

  lemma {:induction false} OffsetsGrow(f: Link, j: nat, k: nat)
    requires Tiles(f) && j <= k <= |f.parts|
    ensures 0 <= Begin(f.parts, j) <= Begin(f.parts, k) <= |f.file|
    decreases |f.parts| - j
  {
    if j < |f.parts| {
      assert FollowsOn(f.parts, j);
      if j < k { OffsetsGrow(f, j + 1, k); } else { OffsetsGrow(f, j + 1, j + 1); }
    }
  }

  /** The bytes of piece `k`. */
  function Piece(f: Link, k: nat): Data
    requires k < |f.parts|
  {
    var from, to := f.parts[k].pos, f.parts[k].pos + f.parts[k].size;
    if to <= |f.file| then f.file[from..to] else []
  }

  function SenderScript(f: Link): seq<Event> {
    [Control(f.aid, Resume)] + Events(f.aid, f.parts) + [Request(f.aid, ChunkRequest(|f.file|, 0))]
  }

  function ChunksSent(f: Link, k: nat): seq<SendMsg>
    requires k <= |f.parts|
  {
    seq(k, i requires 0 <= i < k => SendChunk(f.aid, f.parts[i].pos, Piece(f, i)))
  }

  function ChunksDelivered(f: Link, k: nat): seq<Event>
    requires k <= |f.parts|
  {
    seq(k, i requires 0 <= i < k => Chunk(f.bid, f.parts[i].pos, Piece(f, i)))
  }

  function ReceiverScript(f: Link): seq<Event> {
    [Receive(f.bid, f.bpath, |f.file|)] + ChunksDelivered(f, |f.parts|) + [Chunk(f.bid, |f.file|, [])]
  }

  // The closures of the sender.

  /** The transfer and the replies after the registration and `m` steps of the script. */
  ghost predicate SenderAt(f: Link, own: seq<Ran>, m: nat)
    requires m <= |f.parts| + 2
  {
    var t, done := TransferAfter(own, f.aid), if m == 0 then 0 else if m - 1 <= |f.parts| then m - 1 else |f.parts|;
    && Chunks(Replies(own), f.aid) == ChunksSent(f, done)
    && if m == |f.parts| + 2 then t.None?
       else
         && t.Some? && t.value.kind.Send? && t.value.active == (m > 0)
         && t.value.stream.open && !t.value.stream.failed && t.value.stream.path == f.apath
         && t.value.stream.pos == t.value.lastPos == t.value.progress == Begin(f.parts, done)
  }

  predicate RegisteredAs(f: Link, reg: Ran) {
    reg.event == Register(f.aid, f.apath, |f.file|) && reg.outside.file == Some(f.file)
  }

  /** The closure of a request for some bytes finds them in the file at that moment. */
  predicate FoundAt(f: Link, r: Ran) {
    r.event.Request? && r.event.req.size > 0 ==>
      var bytes, from, to := Contents(r.outside.file), r.event.req.pos, r.event.req.pos + r.event.req.size;
      to <= |bytes| && to <= |f.file| && bytes[from..to] == f.file[from..to]
  }

  ghost predicate Found(f: Link, own: seq<Ran>) {
    forall r :: r in own ==> FoundAt(f, r)
  }

  lemma ScriptAt(f: Link, m: nat)
    requires m < |f.parts| + 2
    ensures |SenderScript(f)| == |f.parts| + 2
    ensures SenderScript(f)[m] == if m == 0 then Control(f.aid, Resume)
                                  else if m <= |f.parts| then Request(f.aid, f.parts[m - 1])
                                  else Request(f.aid, ChunkRequest(|f.file|, 0))
  {
  }

  /** One piece is read from where the stream stands, without a seek, if it is there. */
  lemma ServePiece(f: Link, tr: Transfer, k: nat, bytes: seq<Byte>)
    requires Tiles(f) && k < |f.parts|
    requires tr.stream.open && !tr.stream.failed
    requires tr.stream.pos == tr.lastPos == tr.progress == Begin(f.parts, k)
    ensures var o := ServeRequest(tr, f.aid, f.parts[k], bytes, None);
            var here, next := Begin(f.parts, k), Begin(f.parts, k + 1);
            && 0 <= here < next < TWO_TO_63
            && o.reply == (if next <= |bytes| then Some(SendChunk(f.aid, f.parts[k].pos, bytes[here..next])) else None)
            && (next <= |bytes| ==>
                  && o.after.Some? && o.after.value.kind == tr.kind && o.after.value.active == tr.active
                  && o.after.value.stream == tr.stream.(pos := next)
                  && o.after.value.lastPos == next == o.after.value.progress)
  {
    OffsetsGrow(f, k, k + 1);
    assert FollowsOn(f.parts, k);
  }

  lemma OneMoreSent(f: Link, k: nat)
    requires k < |f.parts|
    ensures ChunksSent(f, k + 1) == ChunksSent(f, k) + [SendChunk(f.aid, f.parts[k].pos, Piece(f, k))]
  {
  }

  /** The transfer of an active sender whose stream stands at the beginning of piece `k`. */
  predicate StandsAt(f: Link, t: Option<Transfer>, k: nat)
    requires k <= |f.parts|
  {
    && t.Some? && t.value.kind.Send? && t.value.active
    && t.value.stream.open && !t.value.stream.failed && t.value.stream.path == f.apath
    && t.value.stream.pos == t.value.lastPos == t.value.progress == Begin(f.parts, k)
  }

  /** The closure for a piece sends it, and moves on, if it finds it; otherwise it sends something else or nothing. */
  lemma PieceIsRun(f: Link, t: Option<Transfer>, r: Ran, k: nat)
    requires Tiles(f) && k < |f.parts| && StandsAt(f, t, k)
    requires r.event == Request(f.aid, f.parts[k]) && r.outside.limit.None?
    ensures var o := RunOne(t, r.event, r.outside);
            && (FoundAt(f, r) <==> o.reply == Some(SendChunk(f.aid, f.parts[k].pos, Piece(f, k))))
            && (FoundAt(f, r) ==> StandsAt(f, o.after, k + 1))
  {
    assert FollowsOn(f.parts, k);
    OffsetsGrow(f, k, k + 1);
    ServePiece(f, t.value, k, Contents(r.outside.file));
    assert RunOne(t, r.event, r.outside) == ServeRequest(t.value, f.aid, f.parts[k], Contents(r.outside.file), None);
  }

  /** A piece of the script. */
  lemma {:induction false} SenderServes(f: Link, own: seq<Ran>, r: Ran, k: nat)
    requires Tiles(f) && k < |f.parts| && SenderAt(f, own, k + 1)
    requires r.event == Request(f.aid, f.parts[k]) && r.outside.limit.None? && FoundAt(f, r)
    requires r.reply == RunOne(TransferAfter(own, f.aid), r.event, r.outside).reply
    ensures SenderAt(f, own + [r], k + 2)
  {
    var c := SendChunk(f.aid, f.parts[k].pos, Piece(f, k));
    PieceIsRun(f, TransferAfter(own, f.aid), r, k);
    WorkSnoc(own, r);
    OneMoreReply(own, r, f.aid);
    OneMoreSent(f, k);
    assert Chunks([c], f.aid) == [c] by { assert [c][1..] == []; }
  }

  /** The resumption, or the request for nothing. */
  lemma {:induction false} SenderTurns(f: Link, own: seq<Ran>, r: Ran, m: nat)
    requires (m == 0 || m == |f.parts| + 1) && SenderAt(f, own, m)
    requires r.event == if m == 0 then Control(f.aid, Resume) else Request(f.aid, ChunkRequest(|f.file|, 0))
    requires r.reply == RunOne(TransferAfter(own, f.aid), r.event, r.outside).reply
    ensures SenderAt(f, own + [r], m + 1)
  {
    WorkSnoc(own, r);
    OneMoreReply(own, r, f.aid);
    assert r.reply.None?;
    assert Chunks(Replies(own), f.aid) + [] == Chunks(Replies(own), f.aid);
  }

  lemma SenderStarts(f: Link, reg: Ran)
    requires RegisteredAs(f, reg) && Consistent([reg])
    ensures SenderAt(f, [reg], 0)
  {
    assert [] + [reg] == [reg] && [reg][..0] == [];
    ConsistentPrefix([reg]);
    WorkSnoc([], reg);
    JobsSnoc([], reg);
  }

  /** A log in which the registration is followed by steps of the script. */
  ghost predicate SenderLog(f: Link, own: seq<Ran>) {
    && own != [] && RegisteredAs(f, own[0]) && Consistent(own) && Follow(own, 1, SenderScript(f))
    && forall k :: 1 <= k < |own| ==> own[k].outside.limit.None?
  }

  /** Its last step, behind a log of the same kind. */
  ghost predicate SenderLast(f: Link, init: seq<Ran>, r: Ran) {
    && 0 < |init| < |f.parts| + 3 && Consistent(init + [r]) && r.event == SenderScript(f)[|init| - 1]
    && r.outside.limit.None?
  }

  lemma SenderLogInit(f: Link, own: seq<Ran>)
    requires SenderLog(f, own) && |own| > 1
    ensures own == own[..|own| - 1] + [own[|own| - 1]]
    ensures SenderLog(f, own[..|own| - 1]) && SenderLast(f, own[..|own| - 1], own[|own| - 1])
  {
    var init, last := own[..|own| - 1], own[|own| - 1];
    assert own == init + [last];
    ConsistentPrefix(own);
    FollowInit(own, 1, SenderScript(f));
    ScriptAt(f, 0);
  }

  ghost predicate SenderGotTo(f: Link, own: seq<Ran>) {
    0 < |own| <= |f.parts| + 3 && SenderAt(f, own, |own| - 1)
  }

  lemma {:induction false} SenderStep(f: Link, own: seq<Ran>, r: Ran)
    requires Tiles(f) && SenderGotTo(f, own) && SenderLast(f, own, r) && FoundAt(f, r)
    ensures SenderGotTo(f, own + [r])
  {
    var m := |own| - 1;
    ScriptAt(f, m);
    ConsistentPrefix(own + [r]);
    assert (own + [r])[..|own|] == own;
    if 0 < m <= |f.parts| {
      SenderServes(f, own, r, m - 1);
    } else {
      SenderTurns(f, own, r, m);
    }
  }

  lemma {:induction false} SenderFollows(f: Link, own: seq<Ran>)
    requires Tiles(f) && SenderLog(f, own) && Found(f, own)
    ensures SenderGotTo(f, own)
  {
    if |own| == 1 {
      assert own == [own[0]];
      SenderStarts(f, own[0]);
    } else {
      SenderLogInit(f, own);
      forall r | r in own[..|own| - 1] ensures r in own {}
      SenderFollows(f, own[..|own| - 1]);
      SenderStep(f, own[..|own| - 1], own[|own| - 1]);
    }
  }

  /** If nothing is saved to the path, every piece is found as it was when the file was registered. */
  lemma {:induction false} UnchangedIsFound(f: Link, own: seq<Ran>)
    requires Tiles(f) && SenderLog(f, own) && AllSee(Some(f.file), own, f.apath)
    requires forall r :: r in own && r.saved.Some? ==> r.saved.value.path != f.apath
    ensures Found(f, own) && LastSaved(own, f.apath).None?
  {
    if |own| == 1 {
      assert own == [own[0]] && own[..0] == [];
    } else {
      var init, last := own[..|own| - 1], own[|own| - 1];
      SenderLogInit(f, own);
      SeesPrefix(Some(f.file), own, f.apath);
      forall r | r in init ensures r in own {}
      assert last in own;
      UnchangedIsFound(f, init);
      SenderFollows(f, init);
      ScriptAt(f, |init| - 1);
      NextIsFound(f, init, last);
      forall r | r in own ensures FoundAt(f, r) { assert r in init || r == last; }
    }
  }

  lemma {:induction false} NextIsFound(f: Link, init: seq<Ran>, r: Ran)
    requires Tiles(f) && SenderGotTo(f, init) && SenderLast(f, init, r) && LastSaved(init, f.apath).None?
    requires Sees(Some(f.file), init + [r], |init|, f.apath)
    ensures FoundAt(f, r)
  {
    var m := |init| - 1;
    ScriptAt(f, m);
    assert (init + [r])[..|init|] == init;
    if 0 < m <= |f.parts| {
      assert FollowsOn(f.parts, m - 1);
      OffsetsGrow(f, m - 1, m);
    }
  }

  // The first piece that is not found.

  /** Where the first piece that its closure did not find should be, toxcore gets something else or nothing. */
  lemma {:induction false} MissedPiece(f: Link, init: seq<Ran>, r: Ran)
    requires Tiles(f) && SenderGotTo(f, init) && SenderLast(f, init, r) && !FoundAt(f, r)
    ensures var k := |init| - 2;
            && 0 <= k < |f.parts| && Chunks(Replies(init), f.aid) == ChunksSent(f, k)
            && Chunks(Replies(init + [r]), f.aid) == ChunksSent(f, k) + Chunks(AsSeq(r.reply), f.aid)
            && (r.reply.Some? ==> Chunks(AsSeq(r.reply), f.aid) == [r.reply.value] &&
                                  r.reply.value != SendChunk(f.aid, f.parts[k].pos, Piece(f, k)))
  {
    ScriptAt(f, |init| - 1);
    ConsistentPrefix(init + [r]);
    assert (init + [r])[..|init|] == init;
    PieceIsRun(f, TransferAfter(init, f.aid), r, |init| - 2);
    OneMoreReply(init, r, f.aid);
    if r.reply.Some? { ReplyIsChunk(init, r); }
  }

  lemma {:induction false} ReplyIsChunk(init: seq<Ran>, r: Ran)
    requires Consistent(init + [r]) && r.reply.Some? && r.event.Request?
    ensures Chunks(AsSeq(r.reply), r.event.id) == [r.reply.value]
  {
    MatchesHolds(init + [r], |init|);
    assert [r.reply.value][1..] == [];
  }

  ghost predicate LaterThan(cs: seq<SendMsg>, n: nat, pos: U64) {
    forall i :: n <= i < |cs| ==> cs[i].SendChunk? && cs[i].pos > pos
  }

  lemma OneLater(f: Link, init: seq<Ran>, last: Ran, k: nat)
    requires Tiles(f) && SenderLast(f, init, last) && k + 3 <= |init| && k < |f.parts|
    ensures LaterThan(Chunks(AsSeq(last.reply), f.aid), 0, f.parts[k].pos)
  {
    ScriptAt(f, |init| - 1);
    assert ConsistentAt(init + [last], |init|);
    MatchesHolds(init + [last], |init|);
    ChunksAreChunks(AsSeq(last.reply), f.aid);
    LaterPiece(f, k, |init| - 2);
  }

  /** The chunks made behind closure `n` are for later pieces than `k`. */
  lemma {:induction false} LaterChunks(f: Link, own: seq<Ran>, n: nat, k: nat)
    requires Tiles(f) && SenderLog(f, own) && n == k + 3 && n <= |own| && k < |f.parts|
    ensures var before, all := Chunks(Replies(own[..n]), f.aid), Chunks(Replies(own), f.aid);
            before <= all && LaterThan(all, |before|, f.parts[k].pos)
  {
    if n == |own| {
      assert own[..n] == own;
    } else {
      var init, last := own[..|own| - 1], own[|own| - 1];
      SenderLogInit(f, own);
      LaterChunks(f, init, n, k);
      assert init[..n] == own[..n];
      OneMoreReply(init, last, f.aid);
      OneLater(f, init, last, k);
    }
  }

  lemma LaterPiece(f: Link, k: nat, j: nat)
    requires Tiles(f) && k < j <= |f.parts|
    ensures f.parts[k].pos < if j < |f.parts| then f.parts[j].pos else |f.file|
  {
    assert FollowsOn(f.parts, k);
    OffsetsGrow(f, k + 1, j);
    if j < |f.parts| { assert FollowsOn(f.parts, j); }
  }

  lemma Differs(f: Link, k: nat, c: seq<SendMsg>, all: seq<SendMsg>)
    requires k < |f.parts| && |c| <= 1 && ChunksSent(f, k) + c <= all
    requires c != [] ==> c[0] != SendChunk(f.aid, f.parts[k].pos, Piece(f, k))
    requires LaterThan(all, k + |c|, f.parts[k].pos)
    ensures all != ChunksSent(f, |f.parts|)
  {
    var sent := ChunksSent(f, |f.parts|);
    assert sent[k] == SendChunk(f.aid, f.parts[k].pos, Piece(f, k));
    assert c != [] ==> all[k] == (ChunksSent(f, k) + c)[k];
  }

  lemma {:induction false} MissedIsFinal(f: Link, own: seq<Ran>, init: seq<Ran>, r: Ran)
    requires Tiles(f) && SenderLog(f, own) && |init| < |own| && own[..|init| + 1] == init + [r]
    requires SenderGotTo(f, init) && SenderLast(f, init, r) && !FoundAt(f, r)
    ensures Chunks(Replies(own), f.aid) != ChunksSent(f, |f.parts|)
  {
    MissedPiece(f, init, r);
    LaterChunks(f, own, |init| + 1, |init| - 2);
    Differs(f, |init| - 2, Chunks(AsSeq(r.reply), f.aid), Chunks(Replies(own), f.aid));
  }

  lemma {:induction false} FirstMissed(f: Link, own: seq<Ran>, j: nat)
    requires Tiles(f) && SenderLog(f, own) && 0 < j < |own| && Found(f, own[..j]) && !FoundAt(f, own[j])
    ensures Chunks(Replies(own), f.aid) != ChunksSent(f, |f.parts|)
  {
    LogPrefix(f, own, j);
    SenderFollows(f, own[..j]);
    assert own[..j + 1] == own[..j] + [own[j]];
    MissedIsFinal(f, own, own[..j], own[j]);
  }

  /** Toxcore is given all pieces only if every closure found its piece. */
  lemma {:induction false} AllSentIsFound(f: Link, own: seq<Ran>, j: nat)
    requires Tiles(f) && SenderLog(f, own) && j < |own| && !FoundAt(f, own[j])
    ensures Chunks(Replies(own), f.aid) != ChunksSent(f, |f.parts|)
    decreases j
  {
    if i :| 0 <= i < j && !FoundAt(f, own[i]) {
      AllSentIsFound(f, own, i);
    } else {
      forall r | r in own[..j] ensures FoundAt(f, r) {}
      FirstMissed(f, own, j);
    }
  }

  lemma {:induction false} LogPrefix(f: Link, own: seq<Ran>, j: nat)
    requires SenderLog(f, own) && 0 < j < |own|
    ensures SenderLog(f, own[..j]) && SenderLast(f, own[..j], own[j])
    decreases |own|
  {
    SenderLogInit(f, own);
    if j < |own| - 1 {
      LogPrefix(f, own[..|own| - 1], j);
      assert own[..|own| - 1][..j] == own[..j];
    }
  }

  // The closures of the receiver.

  ghost predicate ReceiverAt(f: Link, own: seq<Ran>, m: nat)
    requires m <= |f.parts| + 2
  {
    var t, done := TransferAfter(own, f.bid), if m == 0 then 0 else if m - 1 <= |f.parts| then m - 1 else |f.parts|;
    var here := Begin(f.parts, done);
    && 0 <= here <= |f.file|
    && LastSaved(own, f.bpath) == (if m == 0 then None else Some(f.file[..here]))
    && if m == 0 || m == |f.parts| + 2 then t.None?
       else
         && t.Some? && t.value.kind.Recv? && t.value.active
         && t.value.stream == Stream(f.bpath, true, here, false)
         && t.value.lastPos == t.value.progress == here
  }

  lemma ReceiverScriptAt(f: Link, m: nat)
    requires m < |f.parts| + 2
    ensures |ReceiverScript(f)| == |f.parts| + 2
    ensures ReceiverScript(f)[m] == if m == 0 then Receive(f.bid, f.bpath, |f.file|)
                                    else if m <= |f.parts| then Chunk(f.bid, f.parts[m - 1].pos, Piece(f, m - 1))
                                    else Chunk(f.bid, |f.file|, [])
  {
  }

  /** One piece is appended to what is there. */
  lemma StorePiece(f: Link, tr: Transfer, k: nat)
    requires Tiles(f) && k < |f.parts|
    requires 0 <= Begin(f.parts, k) <= |f.file|
    requires var here := Begin(f.parts, k);
             tr.stream == Stream(f.bpath, true, here, false) && tr.lastPos == here == tr.progress
    ensures 0 <= Begin(f.parts, k + 1) <= |f.file|
    ensures var o := StoreChunk(tr, f.parts[k].pos, Piece(f, k), f.file[..Begin(f.parts, k)], None);
            var next := Begin(f.parts, k + 1);
            && Piece(f, k) != []
            && o.saved == Some(Saved(f.bpath, f.file[..next]))
            && o.after.Some? && o.after.value.kind == tr.kind && o.after.value.active == tr.active
            && o.after.value.stream == Stream(f.bpath, true, next, false)
            && o.after.value.lastPos == next == o.after.value.progress
  {
    OffsetsGrow(f, k, k + 1);
    var here, next := Begin(f.parts, k), Begin(f.parts, k + 1);
    assert FollowsOn(f.parts, k);
    assert Piece(f, k)[..|Piece(f, k)|] == Piece(f, k) == f.file[here..next];
    assert Overlay(f.file[..here], here, f.file[here..next]) == f.file[..next];
  }

  ghost predicate ReceiverLog(f: Link, first: Option<seq<Byte>>, own: seq<Ran>) {
    && Consistent(own) && Follow(own, 0, ReceiverScript(f)) && AllSee(first, own, f.bpath)
    && forall k :: 0 <= k < |own| ==>
         own[k].outside.limit.None? && (own[k].event.Receive? ==> own[k].outside.file.Some?)
  }

  ghost predicate ReceiverLast(f: Link, first: Option<seq<Byte>>, init: seq<Ran>, r: Ran) {
    && |init| < |f.parts| + 2 && Consistent(init + [r]) && r.event == ReceiverScript(f)[|init|]
    && r.outside.limit.None? && (r.event.Receive? ==> r.outside.file.Some?)
    && Sees(first, init + [r], |init|, f.bpath)
  }

  lemma ReceiverLogInit(f: Link, first: Option<seq<Byte>>, own: seq<Ran>)
    requires ReceiverLog(f, first, own) && own != []
    ensures own == own[..|own| - 1] + [own[|own| - 1]]
    ensures ReceiverLog(f, first, own[..|own| - 1]) && ReceiverLast(f, first, own[..|own| - 1], own[|own| - 1])
  {
    var init, last := own[..|own| - 1], own[|own| - 1];
    assert own == init + [last];
    ConsistentPrefix(own);
    SeesPrefix(first, own, f.bpath);
    FollowInit(own, 0, ReceiverScript(f));
    ReceiverScriptAt(f, 0);
  }

  ghost predicate ReceiverGotTo(f: Link, own: seq<Ran>) {
    |own| <= |f.parts| + 2 && ReceiverAt(f, own, |own|)
  }

  lemma {:induction false} ReceiverStep(f: Link, first: Option<seq<Byte>>, own: seq<Ran>, r: Ran)
    requires Tiles(f) && ReceiverGotTo(f, own) && ReceiverLast(f, first, own, r)
    ensures ReceiverGotTo(f, own + [r])
  {
    var m := |own|;
    ConsistentPrefix(own + [r]);
    assert (own + [r])[..m] == own;
    ReceiverScriptAt(f, m);
    WorkSnoc(own, r);
    if 0 < m <= |f.parts| {
      StorePiece(f, TransferAfter(own, f.bid).value, m - 1);
    }
  }

  lemma {:induction false} ReceiverFollows(f: Link, first: Option<seq<Byte>>, own: seq<Ran>)
    requires Tiles(f) && ReceiverLog(f, first, own)
    ensures ReceiverGotTo(f, own)
  {
    if own != [] {
      ReceiverLogInit(f, first, own);
      ReceiverFollows(f, first, own[..|own| - 1]);
      ReceiverStep(f, first, own[..|own| - 1], own[|own| - 1]);
    }
  }
}
