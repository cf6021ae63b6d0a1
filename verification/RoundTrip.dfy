/** A file sent by one node and received by another. toxcore is a reliable channel in order: it resumes the
    transfer, asks for the file in contiguous pieces and then for nothing, and hands every chunk it is given
    to the other node, followed by an empty one. Both nodes do whatever else they do, for other files, and before
    for these ids and paths too, and their threads interleave in any way. */
module RoundTrip {
  import opened Basics
  import opened FileEvents
  import opened Projection
  import opened Node
  import opened NodeInvariants
  import opened Conservation
  import opened Quiescence
  import opened FileLog
  import opened FileUse
  import opened Script

  // The sending node.

  /** What is assumed of the sending node in this use of the id: it goes through the script, the file is registered as
      it is on the disk, neither faults nor a missing callback get in the way, and no eviction loses a waiting request.
      The registration comes from another thread than the script, so their order is left open here. */
  ghost predicate Offers(a: Node, f: Link) {
    && Use(a, f.aid) && Tiles(f)
    && Pick(a.issued, f.aid, false) <= SenderScript(f)
    && Pick(a.ignored, f.aid, false) == []
    && LostPending(a.evicted, f.aid) == 0
    && (forall r :: r in Own(a.ran, f.aid) ==> if r.event.Register? then RegisteredAs(f, r) else r.outside.limit.None?)
  }

  /** Nothing is saved to the path of the sent file. */
  ghost predicate Undisturbed(a: Node, f: Link) {
    forall r :: r in a.ran && r.saved.Some? ==> r.saved.value.path != f.apath
  }

  /** Before any step of the script is run, the registration is, and the pieces are found on the disk. */
  ghost predicate Sends(a: Node, f: Link) {
    && Offers(a, f) && Found(f, Own(a.ran, f.aid))
    && (Own(a.ran, f.aid) == [] || RegisteredAt(Own(a.ran, f.aid), 0))
  }

  lemma {:induction false} ScriptShape(f: Link, q: seq<Event>)
    requires q <= SenderScript(f)
    ensures RequestsLast(q)
    ensures forall k :: 1 <= k < |q| ==> q[k].Request?
  {
    forall k | 1 <= k < |q| ensures q[k].Request? { ScriptAt(f, k); }
    if q != [] { ScriptAt(f, 0); }
    RequestsLastHolds(q);
  }

  /** The steps of the script that the work thread has run. */
  function Handled(a: Node, f: Link): nat {
    var n := |Own(a.ran, f.aid)|;
    if n == 0 then 0 else n - 1
  }

  lemma SenderHandled(a: Node, f: Link)
    requires Offers(a, f)
    ensures Pick(Jobs(a.ran), f.aid, false) <= SenderScript(f)
  {
    UseSound(a, f.aid);
    ScriptShape(f, Pick(a.issued, f.aid, false));
    HandledPrefix(a, f.aid);
  }

  lemma LogOfSender(a: Node, f: Link)
    requires Offers(a, f) && RegisteredAt(Own(a.ran, f.aid), 0)
    ensures var own := Own(a.ran, f.aid);
            && SenderLog(f, own)
            && Pick(Jobs(a.ran), f.aid, false) == Jobs(own[1..]) <= SenderScript(f)
            && Chunks(Replies(own), f.aid) == Chunks(Replies(a.ran), f.aid)
  {
    var own := Own(a.ran, f.aid);
    UseSound(a, f.aid);
    OwnHolds(a, f.aid);
    SenderHandled(a, f);
    JobsBehind(own, 1, f.aid);
    FollowsPrefix(own, 1, SenderScript(f));
    assert own[0] in own;
    forall k | 1 <= k < |own| ensures own[k].outside.limit.None? { assert own[k] in own; }
  }

  /** So a file to whose path nothing is saved is found. */
  lemma UndisturbedIsFound(a: Node, f: Link)
    requires Offers(a, f) && Undisturbed(a, f) && RegisteredAt(Own(a.ran, f.aid), 0)
    ensures Found(f, Own(a.ran, f.aid)) && Sends(a, f)
  {
    var own := Own(a.ran, f.aid);
    LogOfSender(a, f);
    OwnMembers(a.ran, f.aid);
    UseDisk(a, f.aid, f.apath);
    OwnDisk(a, f.aid, f.apath);
    assert LooksAt(own, 0) == Some(f.apath) && own[..0] == [];
    assert Sees(Find(a.firstDisk, f.apath), own, 0, f.apath);
    UnchangedIsFound(f, own);
  }

  lemma SenderProgress(a: Node, f: Link)
    requires Sends(a, f)
    ensures var own := Own(a.ran, f.aid);
            && Handled(a, f) <= |f.parts| + 2
            && (own != [] ==> SenderAt(f, own, Handled(a, f)))
            && (own != [] ==> Pick(Jobs(a.ran), f.aid, false) == Jobs(own[1..]) <= SenderScript(f))
            && (own == [] ==> Pick(Jobs(a.ran), f.aid, false) == [] && Chunks(Replies(a.ran), f.aid) == [])
            && TransferAfter(own, f.aid) == TransferAfter(a.ran, f.aid)
            && Chunks(Replies(own), f.aid) == Chunks(Replies(a.ran), f.aid)
  {
    var own := Own(a.ran, f.aid);
    UseSound(a, f.aid);
    OwnHolds(a, f.aid);
    if own != [] {
      LogOfSender(a, f);
      SenderFollows(f, own);
    }
  }

  lemma PiecesMade(a: Node, f: Link)
    requires Sends(a, f)
    ensures exists n: nat :: n <= |f.parts| && Chunks(Replies(a.ran), f.aid) == ChunksSent(f, n)
  {
    SenderProgress(a, f);
    assert ChunksSent(f, 0) == [];
  }

  lemma SentPrefix(f: Link, cs: seq<SendMsg>, n: nat)
    requires n <= |f.parts| && cs <= ChunksSent(f, n)
    ensures |cs| <= n && cs == ChunksSent(f, |cs|)
  {
  }

  /** What toxcore was given so far are the first pieces of the file, in order. */
  lemma GivenArePieces(a: Node, f: Link)
    requires Sends(a, f)
    ensures var cs := Chunks(a.given, f.aid);
            |cs| <= |f.parts| && cs == ChunksSent(f, |cs|)
  {
    PiecesMade(a, f);
    UseSound(a, f.aid);
    RepliesHold(a, f.aid);
    var n: nat :| n <= |f.parts| && Chunks(Replies(a.ran), f.aid) == ChunksSent(f, n);
    SentPrefix(f, Chunks(a.given, f.aid), n);
  }

  /** Among the first steps of the script that were run there is at most one request more than chunks. */
  lemma {:induction false} RequestsInScript(f: Link, js: seq<Event>, jobs: seq<Event>)
    requires js <= SenderScript(f) && js == Pick(jobs, f.aid, false)
    ensures |Pick(jobs, f.aid, true)| <= if js == [] then 0 else |js| - 1
  {
    PickTwice(jobs, f.aid);
    if js != [] {
      ScriptAt(f, 0);
      assert js == [js[0]] + js[1..];
      PickConcat([js[0]], js[1..], f.aid, true);
      PickOne(js[0], f.aid, true);
      PickNoLonger(js[1..], f.aid, true);
    }
  }

  /** No request goes without an answer before the script is over, and then at most one. */
  lemma FewUnanswered(a: Node, f: Link)
    requires Sends(a, f)
    ensures Unanswered(a.ran, f.aid) <= if Handled(a, f) == |f.parts| + 2 then 1 else 0
  {
    SenderProgress(a, f);
    UseSound(a, f.aid);
    RequestsRun(a.ran, f.aid);
    RequestsInScript(f, Pick(Jobs(a.ran), f.aid, false), Jobs(a.ran));
  }

  /** Then a request is left waiting only if the credit of the id was spent before the use began. */
  lemma NoRequestWaits(a: Node, f: Link)
    requires Sends(a, f) && Quiescent(a) && Withheld(a, f.aid) < 16
    ensures Pending(a, f.aid) == []
  {
    UseSound(a, f.aid);
    FewUnanswered(a, f);
    RestBalance(a, f.aid);
    PickTwice(a.ignored, f.aid);
    SenderProgress(a, f);
    ScriptShape(f, Pick(a.issued, f.aid, false));
    ExactHolds(a, f.aid);
    EmptyUnderWay(a, f.aid);
    ScriptAt(f, 0);
  }

  /** At rest the work thread has run all of the script that toxcore issued. */
  lemma ScriptIsRun(a: Node, f: Link)
    requires Sends(a, f) && Quiescent(a) && Withheld(a, f.aid) < 16
    ensures Pick(Jobs(a.ran), f.aid, false) == Pick(a.issued, f.aid, false)
  {
    UseSound(a, f.aid);
    NoRequestWaits(a, f);
    ScriptShape(f, Pick(a.issued, f.aid, false));
    HandledPrefix(a, f.aid);
  }

  /** With all pieces asked for and credit left, all were given to toxcore; and when the script is over, the transfer
      is gone. */
  lemma SenderDone(a: Node, f: Link)
    requires Sends(a, f) && Quiescent(a) && Withheld(a, f.aid) < 16
    requires Own(a.ran, f.aid) != [] && |Pick(a.issued, f.aid, false)| > |f.parts|
    ensures Chunks(a.given, f.aid) == ChunksSent(f, |f.parts|)
    ensures Pick(a.issued, f.aid, false) == SenderScript(f) ==> f.aid !in a.ctrl.transfers
  {
    ScriptIsRun(a, f);
    SenderProgress(a, f);
    UseSound(a, f.aid);
    RestGiven(a, f.aid);
    ScriptAt(f, 0);
  }

  // The receiving node.

  /** What the other side sees of a message. */
  function Arrival(f: Link, m: SendMsg): Event {
    match m
    case SendChunk(_, pos, data) => Chunk(f.bid, pos, data)
    case SendControl(_, c) => Control(f.bid, c)
    case FileSend(_, name, size) => Receive(f.bid, name, size)
  }

  /** The reliable channel: the announcement, the chunks given to the sending toxcore in their order, and,
      once all bytes have arrived, an empty chunk. */
  function Promised(f: Link, cs: seq<SendMsg>): seq<Event> {
    [Receive(f.bid, f.bpath, |f.file|)] + seq(|cs|, k requires 0 <= k < |cs| => Arrival(f, cs[k]))
    + if |cs| == |f.parts| then [Chunk(f.bid, |f.file|, [])] else []
  }

  /** What is assumed of the receiving node in this use of the id: it hears from the channel only, opens the file,
      meets no fault and no missing callback, and no other transfer saves to the same path. */
  ghost predicate Receives(b: Node, f: Link, cs: seq<SendMsg>) {
    && Use(b, f.bid)
    && Pick(b.issued, f.bid, false) <= Promised(f, cs)
    && Pick(b.ignored, f.bid, false) == []
    && (forall r :: r in Own(b.ran, f.bid) ==>
          !r.event.Register? && r.outside.limit.None? && (r.event.Receive? ==> r.outside.file.Some?))
    && OnlyOwnSaves(b.ran, f.bid, f.bpath)
  }

  lemma PromisedIsScript(f: Link, k: nat)
    requires k <= |f.parts|
    ensures Promised(f, ChunksSent(f, k)) <= ReceiverScript(f)
    ensures k == |f.parts| ==> Promised(f, ChunksSent(f, k)) == ReceiverScript(f)
    ensures forall e :: e in ReceiverScript(f) ==> !e.Request?
  {
  }

  lemma ReceiverHears(b: Node, f: Link, k: nat)
    requires Tiles(f) && k <= |f.parts| && Receives(b, f, ChunksSent(f, k))
    ensures RequestsLast(Pick(b.issued, f.bid, false)) && LostPending(b.evicted, f.bid) == 0
    ensures Pending(b, f.bid) == []
    ensures Pick(Jobs(b.ran), f.bid, false) <= ReceiverScript(f)
  {
    PromisedIsScript(f, k);
    forall e | e in Pick(b.issued, f.bid, false) ensures !e.Request? { assert e in ReceiverScript(f); }
    UseSound(b, f.bid);
    NoRequests(b, f.bid);
    HandledPrefix(b, f.bid);
  }

  lemma ReceiverProgress(b: Node, f: Link, k: nat)
    requires Tiles(f) && k <= |f.parts| && Receives(b, f, ChunksSent(f, k))
    ensures var own := Own(b.ran, f.bid);
            && |own| <= |f.parts| + 2 && ReceiverAt(f, own, |own|)
            && Jobs(own) == Pick(Jobs(b.ran), f.bid, false)
            && TransferAfter(b.ran, f.bid) == TransferAfter(own, f.bid)
            && (own != [] ==> Find(b.ctrl.disk, f.bpath) == LastSaved(own, f.bpath))
  {
    var own := Own(b.ran, f.bid);
    UseSound(b, f.bid);
    OwnHolds(b, f.bid);
    ReceiverHears(b, f, k);
    JobsBehind(own, 0, f.bid);
    assert own[0..] == own;
    FollowsPrefix(own, 0, ReceiverScript(f));
    forall k | 0 <= k < |own|
      ensures own[k].outside.limit.None? && (own[k].event.Receive? ==> own[k].outside.file.Some?)
    {
      assert own[k] in own;
    }
    UseDisk(b, f.bid, f.bpath);
    OwnDisk(b, f.bid, f.bpath);
    ReceiverFollows(f, Find(b.firstDisk, f.bpath), own);
  }

  // Both nodes.

  /** At every moment the received file is a beginning of the sent one. */
  lemma ReceivedIsPrefix(a: Node, b: Node, f: Link)
    requires Sends(a, f) && Receives(b, f, Chunks(a.given, f.aid))
    requires Own(b.ran, f.bid) != []
    ensures f.bpath in b.ctrl.disk && b.ctrl.disk[f.bpath] <= f.file
  {
    GivenArePieces(a, f);
    ReceiverProgress(b, f, |Chunks(a.given, f.aid)|);
  }

  /** When all was heard and run, the file's own log is the whole script. */
  lemma ReceiverRanAll(b: Node, f: Link)
    requires Tiles(f) && Receives(b, f, ChunksSent(f, |f.parts|)) && Quiescent(b)
    requires Pick(b.issued, f.bid, false) == ReceiverScript(f)
    ensures |Own(b.ran, f.bid)| == |f.parts| + 2
  {
    ReceiverHears(b, f, |f.parts|);
    UseSound(b, f.bid);
    HandledPrefix(b, f.bid);
    ReceiverProgress(b, f, |f.parts|);
    assert |Jobs(Own(b.ran, f.bid))| == |ReceiverScript(f)|;
    ReceiverScriptAt(f, 0);
  }

  /** At rest, with everything carried, the file is complete and the transfer is gone. */
  lemma ReceiverDone(b: Node, f: Link)
    requires Tiles(f) && Receives(b, f, ChunksSent(f, |f.parts|)) && Quiescent(b)
    requires Pick(b.issued, f.bid, false) == ReceiverScript(f)
    ensures Find(b.ctrl.disk, f.bpath) == Some(f.file) && f.bid !in b.ctrl.transfers
  {
    ReceiverRanAll(b, f);
    ReceiverProgress(b, f, |f.parts|);
    assert f.file[..|f.file|] == f.file;
    UseSound(b, f.bid);
  }

  /** When everything asked for has been asked and carried, both nodes are at rest, and fewer than 16 credits are
      withheld from the use, the received file is the sent one and both transfers are gone. */
  lemma FileArrives(a: Node, b: Node, f: Link)
    requires Sends(a, f) && Receives(b, f, Chunks(a.given, f.aid))
    requires Quiescent(a) && Quiescent(b) && Withheld(a, f.aid) < 16
    requires Own(a.ran, f.aid) != [] && Pick(a.issued, f.aid, false) == SenderScript(f)
    requires Pick(b.issued, f.bid, false) == Promised(f, Chunks(a.given, f.aid))
    ensures Find(b.ctrl.disk, f.bpath) == Some(f.file)
    ensures f.aid !in a.ctrl.transfers && f.bid !in b.ctrl.transfers
  {
    SenderDone(a, f);
    PromisedIsScript(f, |f.parts|);
    ReceiverDone(b, f);
  }
}
