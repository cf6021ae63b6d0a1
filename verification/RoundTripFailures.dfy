/** Each thing that `RoundTripLimits` names does happen: reachable nodes at rest in which it keeps a file from being
    sent, while all else is as assumed. */
module RoundTripFailures {
  import opened Basics
  import opened FileEvents
  import opened TransferCtrl
  import opened Projection
  import opened ChunkWindow
  import opened Node
  import opened NodeInvariants
  import opened Quiescence
  import opened FileLog
  import opened FileUse
  import opened Script
  import opened RoundTrip
  import opened RoundTripLimits
  import opened RoundTripWitness
  import opened Scenarios

  /** A closure of the file other than its registration. */
  predicate OneOf(r: Ran) {
    r.event.id == FileId(0) && (r.event.Control? || r.event.Request?) && r.outside.limit.None? && r.saved.None?
  }

  lemma EndIsSilent(c: Ctrl, id: Id, pos: U64)
    ensures OutcomeIn(c, Request(id, ChunkRequest(pos, 0)), true, None).reply.None?
  {
  }

  /** The resumption is run, and then the registration. */
  lemma LateStart() returns (s: Node)
    ensures Leads(START, s) && Idle(s) && Empty(s) && s.entries == map[] && s.ignored == []
    ensures Find(s.ctrl.transfers, FileId(0)) == Some(Opened(Send, "f", 1, true))
    ensures s.issued == [Control(FileId(0), Resume)] && |s.ran| == 2
    ensures OneOf(s.ran[0]) && RegisteredAs(TheLink(), s.ran[1]) && s.ran[1].saved.None?
  {
    Start();
    var s0 := START;
    var s1 := DeliverThrough(START, s0, Control(FileId(0), Resume));
    assert s1.workHand.None? && s1.ctrl.transfers == map[] && s1.ctrl.disk == s0.ctrl.disk;
    s := RegisterAlone(START, s1, FileId(0));
  }

  /** The race is real: the resumption, the registration and the two requests are run in this order. */
  lemma LateSteps() returns (a: Node)
    ensures Leads(START, a) && Quiescent(a) && a.ignored == [] && a.evicted == []
    ensures a.issued == SenderScript(TheLink()) && |a.ran| == 4
    ensures RegisteredAs(TheLink(), a.ran[1]) && a.ran[1].saved.None?
    ensures OneOf(a.ran[0]) && OneOf(a.ran[2]) && OneOf(a.ran[3])
  {
    var s0 := LateStart();
    var s1, one := AskUnanswered(START, s0, FileId(0), BYTE);
    EndIsSilent(s1.ctrl, FileId(0), 1);
    var s2, two := AskUnanswered(START, s1, FileId(0), ChunkRequest(1, 0));
    TheLinkTiles();
    assert s2.ran == [s0.ran[0], s0.ran[1], one, two];
    a := ToPopping(START, s2, FileId(0));
  }

  lemma LifeFromStart(a: Node, id: Id)
    requires Leads(START, a)
    ensures Use(a, id) && Spent(a, id) == 0
  {
    FromStart(a);
    LifeIsUse(a, id);
  }

  lemma LateRests() returns (a: Node)
    ensures Use(a, FileId(0)) && Quiescent(a) && a.ignored == [] && a.evicted == [] && Withheld(a, FileId(0)) == 0
    ensures a.issued == SenderScript(TheLink()) && |a.ran| == 4
    ensures forall k :: 0 <= k < 4 ==>
                          Offered(TheLink(), a.ran[k]) && a.ran[k].saved.None? && (a.ran[k].event.Register? <==> k == 1)
  {
    a := LateSteps();
    LifeFromStart(a, FileId(0));
  }

  lemma LateRegistrationHappens() returns (a: Node)
    ensures Offers(a, TheLink()) && Undisturbed(a, TheLink()) && RegisteredAt(Own(a.ran, FileId(0)), 1)
    ensures Quiescent(a) && Withheld(a, FileId(0)) == 0 && Pick(a.issued, FileId(0), false) == SenderScript(TheLink())
    ensures Chunks(a.given, FileId(0)) == []
  {
    a := LateRests();
    TheLinkTiles();
    OffersAlone(a, TheLink(), 1);
    LateIsSilent(a, TheLink(), 1);
  }

  // A reception to the path of the file that is sent.

  /** A file announced under the name of the one that is being sent empties it. */
  lemma Emptied() returns (s: Node)
    ensures Leads(START, s) && s.loop.Iterate? && s.callback && Vacant(s) && s.entries == map[]
    ensures s.ignored == [] && s.evicted == [] && s.given == [] && s.sendQ == [SendControl(Id(1, 0), Resume)]
    ensures s.issued == [Control(FileId(0), Resume), Receive(Id(1, 0), "f", 1)] && |s.ran| == 3
    ensures RegisteredAs(TheLink(), s.ran[0]) && OneOf(s.ran[1])
    ensures s.ran[2].event == Receive(Id(1, 0), "f", 1) && s.ran[2].saved == Some(Saved("f", []))
    ensures Primed(Find(s.ctrl.transfers, FileId(0))) && Find(s.ctrl.disk, "f") == Some([])
  {
    Start();
    var s0, reg, res := SenderReady(START, START, 0);
    var s1 := DeliverThrough(START, s0, Receive(Id(1, 0), "f", 1));
    assert s1.workHand == Some(SendControl(Id(1, 0), Resume));
    assert Find(s1.ctrl.transfers, FileId(0)) == Find(s0.ctrl.transfers, FileId(0));
    s := Extend(START, s1, PutSend);
  }

  /** The five closures in their order, and what toxcore issued. */
  predicate EmptiedLogs(s: Node) {
    && s.ignored == [] && s.evicted == [] && |s.ran| == 5
    && s.issued == [Control(FileId(0), Resume), Receive(Id(1, 0), "f", 1), Request(FileId(0), BYTE),
                    Request(FileId(0), ChunkRequest(1, 0))]
    && RegisteredAs(TheLink(), s.ran[0])
    && s.ran[2].event == Receive(Id(1, 0), "f", 1) && s.ran[2].saved == Some(Saved("f", []))
    && OneOf(s.ran[1]) && OneOf(s.ran[3]) && OneOf(s.ran[4])
  }

  lemma EmptiedIsSilent(c: Ctrl)
    requires Primed(Find(c.transfers, FileId(0))) && Find(c.disk, "f") == Some([])
    ensures OutcomeIn(c, Request(FileId(0), BYTE), true, None).reply.None?
  {
  }

  lemma EmptiedAsked() returns (s: Node)
    ensures Leads(START, s) && s.loop.Iterate? && Vacant(s) && EmptiedLogs(s)
    ensures s.given == [] && s.sendQ == [SendControl(Id(1, 0), Resume)]
    ensures s.entries.Keys == {FileId(0)} && s.entries[FileId(0)] == Entry(2, 16, s.time, [])
  {
    var s0 := Emptied();
    EmptiedIsSilent(s0.ctrl);
    var s1, one := AskUnanswered(START, s0, FileId(0), BYTE);
    EndIsSilent(s1.ctrl, FileId(0), 1);
    var s2, two := AskUnanswered(START, s1, FileId(0), ChunkRequest(1, 0));
    s := s2;
    assert s.ran == [s0.ran[0], s0.ran[1], s0.ran[2], one, two];
  }

  lemma EmptiedSteps() returns (a: Node)
    ensures Leads(START, a) && Quiescent(a) && EmptiedLogs(a) && a.given == [SendControl(Id(1, 0), Resume)]
  {
    var s0 := EmptiedAsked();
    var s1 := ToPopping(START, s0, FileId(0));
    var s2 := Extend(START, s1, PopSend(true));
    assert s2 == s1.(sendQ := [], given := [SendControl(Id(1, 0), Resume)], loop := Iterate);
    a := ToPopping(START, s2, FileId(0));
  }

  lemma {:induction false} OwnOfFive(ran: seq<Ran>, id: Id)
    requires |ran| == 5 && forall k :: 0 <= k < 5 ==> (ran[k].event.id == id <==> k != 2)
    ensures Own(ran, id) == [ran[0], ran[1], ran[3], ran[4]]
  {
    assert ran[..4][..3] == ran[..3] && ran[..3][..2] == ran[..2];
    OwnAll(ran[..2], id);
    assert Own(ran[..3], id) == [ran[0], ran[1]];
    assert Own(ran[..4], id) == [ran[0], ran[1], ran[3]];
  }

  lemma {:induction false} PickOfFour(q: seq<Event>, id: Id)
    requires |q| == 4 && forall k :: 0 <= k < 4 ==> (Concerns(q[k], id, false) <==> k != 1)
    ensures Pick(q, id, false) == [q[0], q[2], q[3]]
  {
    PickAll(q[2..], id);
    assert q[1..][1..] == q[2..] == [q[2], q[3]];
    assert Pick(q[1..], id, false) == [q[2], q[3]];
  }

  lemma EmptiedOwn(a: Node)
    requires EmptiedLogs(a)
    ensures var own := Own(a.ran, FileId(0));
            |own| == 4 && forall k :: 0 <= k < 4 ==> Offered(TheLink(), own[k]) && (own[k].event.Register? <==> k == 0)
  {
    OwnOfFive(a.ran, FileId(0));
  }

  lemma EmptiedIssued(a: Node)
    requires EmptiedLogs(a)
    ensures Pick(a.issued, FileId(0), false) == SenderScript(TheLink())
  {
    TheLinkTiles();
    PickOfFour(a.issued, FileId(0));
  }

  lemma EmptiedLogsOffer(a: Node)
    requires Use(a, FileId(0)) && EmptiedLogs(a)
    ensures Offers(a, TheLink()) && RegisteredAt(Own(a.ran, FileId(0)), 0) && !Undisturbed(a, TheLink())
  {
    TheLinkTiles();
    EmptiedOwn(a);
    EmptiedIssued(a);
    OffersOwn(a, TheLink(), 0);
    assert a.ran[2] in a.ran;
  }

  lemma OneControlGiven(a: Node)
    requires a.given == [SendControl(Id(1, 0), Resume)]
    ensures Chunks(a.given, FileId(0)) == []
  {
    assert a.given[1..] == [];
  }

  /** With everything else as assumed, the piece is not found and nothing is sent. */
  lemma EmptiedFileIsNotSent() returns (a: Node)
    ensures Offers(a, TheLink()) && RegisteredAt(Own(a.ran, FileId(0)), 0) && Withheld(a, FileId(0)) == 0
    ensures !Undisturbed(a, TheLink()) && !Found(TheLink(), Own(a.ran, FileId(0)))
    ensures Quiescent(a) && Pick(a.issued, FileId(0), false) == SenderScript(TheLink())
    ensures Chunks(a.given, FileId(0)) == []
  {
    a := EmptiedSteps();
    LifeFromStart(a, FileId(0));
    EmptiedLogsOffer(a);
    EmptiedIssued(a);
    OneControlGiven(a);
    TheLinkTiles();
    AllGivenIff(a, TheLink(), 0);
  }

  // Spent credit.

  /** Registered and resumed, the file is asked for, and the request waits. */
  lemma SeventeenthWaits() returns (m: Node, a: Node)
    ensures Reachable(m) && Quiescent(m) && Free(m, FileId(0)) && m.evicted == []
    ensures m.given == seq(16, i => SendChunk(FileId(0), 0, [0]))
    ensures Leads(Forget(m, FileId(0)), a) && Quiescent(a) && Withheld(a, FileId(0)) == 16
    ensures a.ignored == [] && a.evicted == [] && Pending(a, FileId(0)) == [BYTE]
    ensures a.issued == [Control(FileId(0), Resume), Request(FileId(0), BYTE)] && |a.ran| == 2
    ensures Offered(TheLink(), a.ran[0]) && a.ran[0].event.Register? && a.ran[0].saved.None?
    ensures Offered(TheLink(), a.ran[1]) && a.ran[1].event.Control? && a.ran[1].saved.None?
  {
    var id, s := FileId(0), START;
    m, s := UseBegins(16);
    var o := Forget(m, id);
    var s1, reg, res := SenderReady(o, s, 16);
    var s2 := Extend(o, s1, AskChunk(id, BYTE));
    assert s2.entries.Keys == {id} && s2.entries[id] == Entry(16, 16, s2.time, [BYTE]);
    var s3 := Extend(o, s2, EndForward);
    a := ToPopping(o, s3, id);
    SpentStays(m, a, id);
    assert a.ran == [reg, res];
  }

  /** 16 files are sent under one id, each to its end, and nothing is evicted. The seventeenth is registered first and
      on the disk, and the node is at rest: its only request waits, until an eviction loses it. */
  lemma SeventeenthIsNotSent() returns (m: Node, a: Node)
    ensures Reachable(m) && Quiescent(m) && Free(m, FileId(0)) && m.evicted == []
    ensures m.given == seq(16, i => SendChunk(FileId(0), 0, [0]))
    ensures Leads(Forget(m, FileId(0)), a)
    ensures Offers(a, TheLink()) && Undisturbed(a, TheLink()) && RegisteredAt(Own(a.ran, FileId(0)), 0)
    ensures Quiescent(a) && a.evicted == [] && Withheld(a, FileId(0)) == 16 && Pending(a, FileId(0)) == [BYTE]
    ensures Pick(a.issued, FileId(0), false) == [Control(FileId(0), Resume), Request(FileId(0), BYTE)]
    ensures Chunks(a.given, FileId(0)) == []
  {
    m, a := SeventeenthWaits();
    SeventeenthOffers(a);
    SpentIsSilent(a, FileId(0));
  }

  lemma SeventeenthOffers(a: Node)
    requires Use(a, FileId(0)) && a.ignored == [] && a.evicted == []
    requires a.issued == [Control(FileId(0), Resume), Request(FileId(0), BYTE)] && |a.ran| == 2
    requires Offered(TheLink(), a.ran[0]) && a.ran[0].event.Register? && a.ran[0].saved.None?
    requires Offered(TheLink(), a.ran[1]) && a.ran[1].event.Control? && a.ran[1].saved.None?
    ensures Offers(a, TheLink()) && Undisturbed(a, TheLink()) && RegisteredAt(Own(a.ran, FileId(0)), 0)
    ensures Pick(a.issued, FileId(0), false) == a.issued
  {
    TheLinkTiles();
    OffersAlone(a, TheLink(), 0);
  }
}
