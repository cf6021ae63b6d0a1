/** The assumptions of `RoundTrip.FileArrives` can be met: two runs that carry a one-byte file from node to node,
    under an id that up to 15 files were sent with before. */
module RoundTripWitness {
  import opened Basics
  import opened FileEvents
  import opened TransferCtrl
  import opened Projection
  import opened ChunkWindow
  import opened Node
  import opened NodeInvariants
  import opened Quiescence
  import opened FileLog
  import opened FileUse
  import opened Script
  import opened RoundTrip
  import opened Scenarios

  function TheLink(): Link {
    Link(FileId(0), Id(1, 0), "f", "g", [0], [BYTE])
  }

  lemma TheLinkTiles()
    ensures Tiles(TheLink())
    ensures SenderScript(TheLink()) ==
            [Control(FileId(0), Resume), Request(FileId(0), BYTE), Request(FileId(0), ChunkRequest(1, 0))]
  {
    assert FollowsOn(TheLink().parts, 0);
  }

  lemma {:induction false} OwnAll(ran: seq<Ran>, id: Id)
    requires forall k :: 0 <= k < |ran| ==> ran[k].event.id == id
    ensures Own(ran, id) == ran
  {
    if ran != [] { OwnAll(ran[..|ran| - 1], id); }
  }

  /** The node is idle, and `k` credits of the id are out. */
  predicate Ready(s: Node, k: nat) {
    && Idle(s) && Empty(s)
    && s.entries == if k == 0 then map[] else map[FileId(0) := Entry(k, 16, s.time, [])]
  }

  /** The transfer of the sender after its registration and resumption. */
  lemma SenderReady(o: Node, s: Node, k: nat) returns (z: Node, reg: Ran, res: Ran)
    requires Leads(o, s) && Ready(s, k) && s.ctrl.transfers == map[]
    ensures Leads(o, z) && Ready(z, k) && z.given == s.given && z.ignored == s.ignored
    ensures z.ran == s.ran + [reg, res] && z.issued == s.issued + [Control(FileId(0), Resume)]
    ensures Offered(TheLink(), reg) && reg.event.Register?
    ensures Offered(TheLink(), res) && res.event == Control(FileId(0), Resume) && reg.saved == res.saved == None
    ensures Primed(Find(z.ctrl.transfers, FileId(0))) && z.ctrl.transfers.Keys == {FileId(0)}
  {
    var e := Control(FileId(0), Resume);
    var s0 := RegisterAlone(o, s, FileId(0));
    reg := Logged(s, Register(FileId(0), "f", 1));
    z := DeliverThrough(o, s0, e);
    res := Logged(s0, e);
    assert z.ran == s.ran + [reg] + [res] && z.workHand.None?;
  }

  /** The only piece is asked for and read. */
  lemma SenderReads(o: Node, s: Node, k: nat) returns (z: Node, one: Ran)
    requires Leads(o, s) && Ready(s, k) && k < 16
    requires Primed(Find(s.ctrl.transfers, FileId(0))) && s.ctrl.transfers.Keys == {FileId(0)}
    ensures Leads(o, z) && Idle(z) && Vacant(z) && z.sendQ == [SendChunk(FileId(0), 0, [0])]
    ensures z == s.(entries := map[FileId(0) := Entry(k + 1, 16, z.time, [])], sendQ := z.sendQ, ctrl := z.ctrl,
                    ran := s.ran + [one], issued := s.issued + [Request(FileId(0), BYTE)])
    ensures one.event == Request(FileId(0), BYTE) && Offered(TheLink(), one) && one.saved.None?
    ensures Primed(Find(z.ctrl.transfers, FileId(0))) && z.ctrl.transfers.Keys == {FileId(0)}
  {
    var id, e := FileId(0), Request(FileId(0), BYTE);
    PrimedAnswers(Find(s.ctrl.transfers, id), id, Outside(LookUp(s.ctrl, e, true), None));
    one := Logged(s, e);
    var s1 := AskThrough(o, s, id, BYTE);
    assert s1.workHand == Some(SendChunk(id, 0, [0]));
    assert s1.entries == map[id := Entry(k + 1, 16, s1.time, [])];
    z := Extend(o, s1, PutSend);
    assert z == s1.(sendQ := [SendChunk(id, 0, [0])], workHand := None);
  }

  /** And given to toxcore. */
  lemma SenderGives(o: Node, s: Node, k: nat) returns (z: Node, one: Ran)
    requires Leads(o, s) && Ready(s, k) && k < 16
    requires Primed(Find(s.ctrl.transfers, FileId(0))) && s.ctrl.transfers.Keys == {FileId(0)}
    ensures Leads(o, z) && Idle(z) && Empty(z) && z.ignored == s.ignored
    ensures z.entries == map[FileId(0) := Entry(k, 16, z.time, [])]
    ensures z.ran == s.ran + [one] && z.issued == s.issued + [Request(FileId(0), BYTE)]
    ensures one.event == Request(FileId(0), BYTE) && Offered(TheLink(), one) && one.saved.None?
    ensures z.given == s.given + [SendChunk(FileId(0), 0, [0])]
    ensures Primed(Find(z.ctrl.transfers, FileId(0))) && z.ctrl.transfers.Keys == {FileId(0)}
  {
    var s1;
    s1, one := SenderReads(o, s, k);
    var s2 := ToPopping(o, s1, FileId(0));
    z := ChunkGiven(o, s2, k);
  }

  /** The chunk leaves send_queue and its credit comes back. */
  lemma ChunkGiven(o: Node, s: Node, k: nat) returns (z: Node)
    requires Leads(o, s) && s.loop.Popping? && s.sendQ == [SendChunk(FileId(0), 0, [0])]
    requires s.entries == map[FileId(0) := Entry(k + 1, 16, s.time, [])]
    ensures Leads(o, z)
    ensures z == s.(loop := Iterate, sendQ := [], given := s.given + [SendChunk(FileId(0), 0, [0])],
                    entries := map[FileId(0) := Entry(k, 16, s.time, [])])
  {
    var s1 := Extend(o, s, PopSend(true));
    assert s1.entries == map[FileId(0) := Entry(k, 16, s1.time, [])];
    z := Extend(o, s1, EndForward);
  }

  /** The closures of the sender. */
  predicate SenderRan(ran: seq<Ran>) {
    && |ran| == 4 && (forall k :: 0 <= k < 4 ==> Offered(TheLink(), ran[k]) && ran[k].saved.None?)
    && ran[0].event.Register? && ran[1].event == Control(FileId(0), Resume)
    && ran[2].event == Request(FileId(0), BYTE) && ran[3].event == Request(FileId(0), ChunkRequest(1, 0))
  }

  /** The sender goes through its script. The request for nothing at its end takes a credit for good. */
  lemma SenderSteps(o: Node, s: Node, k: nat) returns (z: Node, ran: seq<Ran>)
    requires Leads(o, s) && Ready(s, k) && k < 16 && s.ctrl.transfers == map[]
    ensures Leads(o, z) && Ready(z, k + 1) && z.ctrl.transfers == map[] && z.ignored == s.ignored
    ensures z.issued == s.issued + SenderScript(TheLink()) && z.given == s.given + [SendChunk(FileId(0), 0, [0])]
    ensures z.ran == s.ran + ran && SenderRan(ran)
  {
    var id := FileId(0);
    var s0, reg, res := SenderReady(o, s, k);
    var s1, one := SenderGives(o, s0, k);
    var two;
    z, two := AskUnanswered(o, s1, id, ChunkRequest(1, 0));
    TheLinkTiles();
    ran := [reg, res, one, two];
    assert z.ran == s.ran + ran;
    assert z.issued == s.issued + SenderScript(TheLink());
    EndRemoves(s1.ctrl);
  }

  lemma EndRemoves(c: Ctrl)
    requires Primed(Find(c.transfers, FileId(0))) && c.transfers.Keys == {FileId(0)}
    ensures RunIn(c, Request(FileId(0), ChunkRequest(1, 0)), true, None).transfers == map[]
  {
    var z := RunIn(c, Request(FileId(0), ChunkRequest(1, 0)), true, None).transfers;
    assert z == c.transfers - {FileId(0)} && z.Keys == {};
  }

  /** `k` files are sent one after the other under the same id, each to its end. */
  lemma FilesSent(k: nat) returns (m: Node)
    requires k <= 16
    ensures Leads(START, m) && Ready(m, k) && m.ctrl.transfers == map[]
    ensures m.given == seq(k, i => SendChunk(FileId(0), 0, [0]))
    decreases k
  {
    Start();
    m := START;
    if k > 0 {
      var s := FilesSent(k - 1);
      var ran;
      m, ran := SenderSteps(START, s, k - 1);
    }
  }

  lemma RestHolds(m: Node, k: nat)
    requires Ready(m.(loop := Iterate), k) && m.loop.Popping? && m.ctrl.transfers == map[]
    ensures Quiescent(m) && Free(m, FileId(0)) && InFlight(m, FileId(0)) == k && Pending(m, FileId(0)) == []
    ensures Spent(Forget(m, FileId(0)), FileId(0)) == k
  {
    RestIsFree(m, FileId(0));
  }

  /** At rest behind `k` files, the next use of the id begins with `k` credits spent. */
  lemma UseBegins(k: nat) returns (m: Node, s: Node)
    requires k <= 16
    ensures Reachable(m) && Quiescent(m) && Free(m, FileId(0)) && m.evicted == []
    ensures m.given == seq(k, i => SendChunk(FileId(0), 0, [0]))
    ensures Leads(Forget(m, FileId(0)), s) && Ready(s, k) && s.ctrl.transfers == map[]
    ensures s.issued == s.ignored == [] && s.ran == [] && s.given == [] && Spent(Forget(m, FileId(0)), FileId(0)) == k
  {
    var m0 := FilesSent(k);
    m := ToPopping(START, m0, FileId(0));
    FromStart(m);
    assert m.(loop := Iterate) == m0;
    RestHolds(m, k);
    var o := Forget(m, FileId(0));
    assert Leads(o, o) by { assert Runs(o, [], o); }
    s := Extend(o, o, PopTimeout);
  }

  lemma OffersOwn(a: Node, f: Link, at: nat)
    requires Use(a, f.aid) && Tiles(f) && a.ignored == [] && a.evicted == []
    requires Pick(a.issued, f.aid, false) <= SenderScript(f)
    requires var own := Own(a.ran, f.aid);
             at < |own| && forall k :: 0 <= k < |own| ==> Offered(f, own[k]) && (own[k].event.Register? <==> k == at)
    ensures Offers(a, f) && RegisteredAt(Own(a.ran, f.aid), at)
  {
  }

  /** What `Offers` says of a node all of whose closures belong to one id. */
  lemma OffersAlone(a: Node, f: Link, at: nat)
    requires Use(a, f.aid) && Tiles(f) && a.ignored == [] && a.evicted == []
    requires a.issued <= SenderScript(f)
    requires forall k :: 0 <= k < |a.ran| ==>
                           Offered(f, a.ran[k]) && a.ran[k].saved.None? && (a.ran[k].event.Register? <==> k == at)
    requires at < |a.ran|
    ensures Offers(a, f) && Undisturbed(a, f) && RegisteredAt(Own(a.ran, f.aid), at)
    ensures Pick(a.issued, f.aid, false) == a.issued
  {
    AllOfScript(f, a.issued);
    OwnAll(a.ran, f.aid);
    OffersOwn(a, f, at);
  }

  lemma {:induction false} AllOfScript(f: Link, q: seq<Event>)
    requires q <= SenderScript(f)
    ensures Pick(q, f.aid, false) == q
  {
    forall e | e in q ensures Concerns(e, f.aid, false) {
      var k :| 0 <= k < |q| && q[k] == e;
      assert e == SenderScript(f)[k];
      ScriptAt(f, 0);
      ScriptAt(f, k);
    }
    PickAll(q, f.aid);
  }

  predicate Offered(f: Link, r: Ran) {
    r.event.id == f.aid && !r.event.Receive? && if r.event.Register? then RegisteredAs(f, r) else r.outside.limit.None?
  }

  lemma SenderRests(k: nat) returns (a: Node)
    requires k < 16
    ensures Use(a, FileId(0)) && Quiescent(a) && a.ignored == [] && a.evicted == [] && Withheld(a, FileId(0)) == k
    ensures a.issued == SenderScript(TheLink()) && SenderRan(a.ran)
  {
    var id := FileId(0);
    var m, s := UseBegins(k);
    var z, ran := SenderSteps(Forget(m, id), s, k);
    a := ToPopping(Forget(m, id), z, id);
    SpentStays(m, a, id);
    assert a.ran == ran;
  }

  lemma SenderRun(k: nat) returns (a: Node)
    requires k < 16
    ensures Sends(a, TheLink()) && Quiescent(a) && Own(a.ran, FileId(0)) != [] && Withheld(a, FileId(0)) == k
    ensures Pick(a.issued, FileId(0), false) == SenderScript(TheLink())
  {
    a := SenderRests(k);
    TheLinkTiles();
    OffersAlone(a, TheLink(), 0);
    UndisturbedIsFound(a, TheLink());
  }

  lemma SpentStays(m: Node, z: Node, id: Id)
    requires Leads(Forget(m, id), z)
    ensures Spent(z, id) == Spent(Forget(m, id), id)
  {
    var acts :| Runs(Forget(m, id), acts, z);
    SameStart(Forget(m, id), acts, z);
  }

  /** The file is announced, opened, resumed, filled and closed. */
  lemma ReceiverHearsAll() returns (b: Node)
    ensures Leads(START, b) && b.loop.Iterate? && Vacant(b) && b.entries == map[]
    ensures b.sendQ == [SendControl(Id(1, 0), Resume)] && b.ignored == []
    ensures b.issued == [Receive(Id(1, 0), "g", 1), Chunk(Id(1, 0), 0, [0]), Chunk(Id(1, 0), 1, [])]
    ensures |b.ran| == 3 && forall k :: 0 <= k < 3 ==> b.ran[k].event == b.issued[k] && b.ran[k].outside.limit.None?
    ensures b.ran[0].outside.file.Some?
  {
    var id := Id(1, 0);
    var s1, r0 := ReceiverOpens();
    var s2, r1 := ChunkThrough(START, s1, Chunk(id, 0, [0]));
    var s3, r2 := ChunkThrough(START, s2, Chunk(id, 1, []));
    b := s3;
    assert b.ran == [r0, r1, r2];
  }

  lemma ReceiverOpens() returns (b: Node, r: Ran)
    ensures Leads(START, b) && b.loop.Iterate? && b.callback && Vacant(b) && b.entries == map[] && b.ignored == []
    ensures b.sendQ == [SendControl(Id(1, 0), Resume)]
    ensures b.issued == [Receive(Id(1, 0), "g", 1)] && b.ran == [r]
    ensures r.event == Receive(Id(1, 0), "g", 1) && r.outside.limit.None? && r.outside.file.Some?
  {
    var id := Id(1, 0);
    var e := Receive(id, "g", 1);
    Start();
    var s0 := START;
    var s1 := DeliverThrough(START, s0, e);
    r := Logged(s0, e);
    assert s1.workHand == Some(SendControl(id, Resume)) && s1.ran == [r];
    b := Extend(START, s1, PutSend);
  }

  lemma ReceiverRests() returns (b: Node)
    ensures Leads(START, b) && Quiescent(b) && b.ignored == []
    ensures b.issued == [Receive(Id(1, 0), "g", 1), Chunk(Id(1, 0), 0, [0]), Chunk(Id(1, 0), 1, [])]
    ensures |b.ran| == 3 && forall k :: 0 <= k < 3 ==> b.ran[k].event == b.issued[k] && b.ran[k].outside.limit.None?
    ensures b.ran[0].outside.file.Some?
  {
    var id := Id(1, 0);
    var s4 := ReceiverHearsAll();
    var s5 := ToPopping(START, s4, id);
    var s6 := Extend(START, s5, PopSend(true));
    assert s6 == s5.(loop := Iterate, sendQ := [], given := s6.given);
    b := ToPopping(START, s6, id);
  }

  lemma TheChannel()
    ensures Promised(TheLink(), ChunksSent(TheLink(), 1)) ==
            [Receive(Id(1, 0), "g", 1), Chunk(Id(1, 0), 0, [0]), Chunk(Id(1, 0), 1, [])]
  {
    assert Piece(TheLink(), 0) == [0];
    assert ChunksSent(TheLink(), 1) == [SendChunk(FileId(0), 0, [0])];
  }

  predicate Heard(f: Link, r: Ran) {
    r.event.id == f.bid && !r.event.Register? && r.outside.limit.None? && (r.event.Receive? ==> r.outside.file.Some?)
  }

  /** What `Receives` says of a node all of whose closures belong to one id. */
  lemma ReceivesAlone(b: Node, f: Link, cs: seq<SendMsg>)
    requires Use(b, f.bid) && b.ignored == [] && b.issued == Promised(f, cs)
    requires forall e :: e in b.issued ==> Concerns(e, f.bid, false)
    requires forall k :: 0 <= k < |b.ran| ==> Heard(f, b.ran[k])
    ensures Receives(b, f, cs) && Pick(b.issued, f.bid, false) == Promised(f, cs)
  {
    PickAll(b.issued, f.bid);
    OwnAll(b.ran, f.bid);
  }

  lemma ReceiverRun() returns (b: Node)
    ensures Receives(b, TheLink(), ChunksSent(TheLink(), 1)) && Quiescent(b)
    ensures Pick(b.issued, Id(1, 0), false) == Promised(TheLink(), ChunksSent(TheLink(), 1))
  {
    b := ReceiverRests();
    TheChannel();
    FromStart(b);
    LifeIsUse(b, Id(1, 0));
    ReceivesAlone(b, TheLink(), ChunksSent(TheLink(), 1));
  }

  /** So the round trip theorem is about something: its assumptions hold of two reachable nodes, with any number of
      credits spent that leaves one. */
  lemma RoundTripHappens(k: nat) returns (a: Node, b: Node)
    requires k < 16
    ensures Sends(a, TheLink()) && Receives(b, TheLink(), Chunks(a.given, FileId(0)))
    ensures Quiescent(a) && Quiescent(b) && Own(a.ran, FileId(0)) != [] && Withheld(a, FileId(0)) == k
    ensures Pick(a.issued, FileId(0), false) == SenderScript(TheLink())
    ensures Pick(b.issued, Id(1, 0), false) == Promised(TheLink(), Chunks(a.given, FileId(0)))
    ensures Find(b.ctrl.disk, "g") == Some([0])
  {
    a := SenderRun(k);
    b := ReceiverRun();
    TheLinkTiles();
    SenderDone(a, TheLink());
    FileArrives(a, b, TheLink());
  }
}
