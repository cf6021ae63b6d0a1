/** Ways to drive a node step by step, for the reachable states that other modules show. */
module Scenarios {
  import opened Basics
  import opened FileEvents
  import opened Streams
  import opened TransferCtrl
  import opened ChunkWindow
  import opened Node

  const BYTE: ChunkRequest := ChunkRequest(0, 1)

  function FileId(i: nat): Id {
    Id(0, i)
  }

  /** An active sender of the file "f" that answers every request for its first byte. */
  predicate Primed(t: Option<Transfer>) {
    && t.Some? && t.value.kind.Send? && t.value.active
    && t.value.stream.open && !t.value.stream.failed && t.value.stream.path == "f"
    && 0 <= t.value.lastPos && (t.value.lastPos == 0 ==> t.value.stream.pos == 0)
  }

  lemma PrimedAnswers(t: Option<Transfer>, id: Id, x: Outside)
    requires Primed(t) && x == Outside(Some([0]), None)
    ensures var o := RunOne(t, Request(id, BYTE), x);
            o.reply == Some(SendChunk(id, 0, [0])) && Primed(o.after) && o.saved.None?
  {
    var st := Positioned(t.value, 0);
    assert st.pos == 0 && st.open && !st.failed;
    var bytes: seq<Byte> := [0];
    assert bytes[0..1] == bytes;
    assert Read(st, bytes, 1, None) == (st.(pos := 1), bytes);
  }

  predicate Idle(s: Node) {
    && s.loop.Iterate? && s.callback && s.evicted == []
    && "f" in s.ctrl.disk && s.ctrl.disk["f"] == [0]
  }

  predicate Empty(s: Node) {
    s.recvQ == s.workQ == [] && s.sendQ == [] && s.msgHand.None? && s.workHand.None?
  }

  /** A node that has just started, with a one-byte file on its disk. */
  const START: Node := Node(map[], Iterate, [], None, [], None, [], Ctrl(map[], DISK), true, 0, [], [], [], [], [],
                            DISK, map[])

  const DISK: map<string, seq<Byte>> := map["f" := [0]]

  lemma Start()
    ensures Reachable(START) && Leads(START, START) && Idle(START) && Empty(START)
  {
    assert Runs(START, [], START);
  }

  lemma FromStart(z: Node)
    requires Leads(START, z)
    ensures Reachable(z)
  {
    Start();
    ReachableOn(START, z);
  }

  predicate Vacant(s: Node) {
    s.recvQ == s.workQ == [] && s.msgHand.None? && s.workHand.None?
  }

  function Logged(s: Node, e: Event): Ran {
    var o := OutcomeIn(s.ctrl, e, true, None);
    Ran(e, true, Outside(LookUp(s.ctrl, e, true), None), o.reply, o.saved)
  }

  /** The closure of `e`, alone in work_queue, is run. */
  lemma RunAlone(o: Node, s: Node, e: Event) returns (z: Node)
    requires Leads(o, s) && s.workQ == [e] && s.workHand.None?
    ensures Leads(o, z)
    ensures z == s.(workQ := [], workHand := OutcomeIn(s.ctrl, e, true, None).reply,
                    ctrl := RunIn(s.ctrl, e, true, None), ran := s.ran + [Logged(s, e)])
  {
    z := Extend(o, s, RunWork(true, None));
  }

  /** An event alone in recv_queue goes through to the work thread. */
  lemma PassAlone(o: Node, s: Node, e: Event) returns (z: Node)
    requires Leads(o, s) && s.recvQ == [e] && s.workQ == [] && s.msgHand.None? && s.workHand.None?
    requires s.callback && !e.Error?
    ensures Leads(o, z)
    ensures z == s.(recvQ := [], workHand := OutcomeIn(s.ctrl, e, true, None).reply,
                    ctrl := RunIn(s.ctrl, e, true, None), ran := s.ran + [Logged(s, e)])
  {
    var s1 := Extend(o, s, TakeMsg);
    assert s1 == s.(recvQ := [], msgHand := Some(e));
    var s2 := Extend(o, s1, PutWork);
    assert s2 == s.(recvQ := [], workQ := [e]);
    z := RunAlone(o, s2, e);
  }

  lemma DeliverThrough(o: Node, s: Node, e: Event) returns (z: Node)
    requires Leads(o, s) && s.loop.Iterate? && s.callback && Vacant(s) && (e.Receive? || e.Control? || e.Chunk?)
    ensures Leads(o, z)
    ensures z == s.(workHand := OutcomeIn(s.ctrl, e, true, None).reply, ctrl := RunIn(s.ctrl, e, true, None),
                    ran := s.ran + [Logged(s, e)], issued := s.issued + [e])
  {
    var s1 := Extend(o, s, Deliver(e));
    var s2 := Extend(o, s1, PushEmitted);
    assert s2 == s.(recvQ := [e], issued := s.issued + [e]);
    z := PassAlone(o, s2, e);
  }

  /** An incoming chunk goes through and is not answered. */
  lemma ChunkThrough(o: Node, s: Node, e: Event) returns (z: Node, r: Ran)
    requires Leads(o, s) && s.loop.Iterate? && s.callback && Vacant(s) && e.Chunk?
    ensures Leads(o, z) && z.loop.Iterate? && z.callback && Vacant(z)
    ensures z.entries == s.entries && z.sendQ == s.sendQ && z.ignored == s.ignored && z.issued == s.issued + [e]
    ensures z.ran == s.ran + [r] && r.event == e && r.outside.limit.None?
  {
    z := DeliverThrough(o, s, e);
    r := Logged(s, e);
    assert r.reply.None?;
  }

  /** A request that finds credit is forwarded at once. */
  lemma AskAndForward(o: Node, s: Node, id: Id, req: ChunkRequest) returns (z: Node)
    requires Leads(o, s) && s.loop.Iterate? && |s.recvQ| < RECV_MAX
    requires var e := EntryAt(s.entries, id, s.time);
             e.inFlight < 16 && e.maxInFlight == 16 && e.pending == []
    ensures Leads(o, z)
    ensures var e := EntryAt(s.entries, id, s.time);
            z == s.(entries := s.entries[id := Entry(e.inFlight + 1, 16, s.time, [])],
                    recvQ := s.recvQ + [Request(id, req)], issued := s.issued + [Request(id, req)])
  {
    var n := EntryAt(s.entries, id, s.time).inFlight;
    assert EntryAt(s.entries, id, s.time).pending + [req] == [req];
    var s1 := Extend(o, s, AskChunk(id, req));
    assert s1 == s.(entries := s.entries[id := Entry(n, 16, s.time, [req])], loop := Forwarding(id),
                    issued := s.issued + [Request(id, req)]);
    var s2 := Extend(o, s1, Forward);
    assert ForwardOne(Entry(n, 16, s.time, [req])) == Entry(n + 1, 16, s.time, []);
    assert s2 == s1.(entries := s.entries[id := Entry(n + 1, 16, s.time, [])], recvQ := s.recvQ + [Request(id, req)]);
    z := Extend(o, s2, EndForward);
  }

  lemma AskThrough(o: Node, s: Node, id: Id, req: ChunkRequest) returns (z: Node)
    requires Leads(o, s) && s.loop.Iterate? && s.callback && Vacant(s)
    requires var e := EntryAt(s.entries, id, s.time);
             0 <= e.inFlight < 16 && e.maxInFlight == 16 && e.pending == []
    ensures Leads(o, z)
    ensures var e := Request(id, req);
            z == s.(workHand := OutcomeIn(s.ctrl, e, true, None).reply, ctrl := RunIn(s.ctrl, e, true, None),
                    ran := s.ran + [Logged(s, e)], issued := s.issued + [e],
                    entries := s.entries[id := Entry(EntryAt(s.entries, id, s.time).inFlight + 1, 16, s.time, [])])
  {
    var s1 := AskAndForward(o, s, id, req);
    z := PassAlone(o, s1, Request(id, req));
  }

  /** The registration of the file "f" goes through the empty node. */
  lemma RegisterAlone(o: Node, s: Node, id: Id) returns (z: Node)
    requires Leads(o, s) && Idle(s) && Empty(s) && id !in s.ctrl.transfers
    ensures Leads(o, z)
    ensures var e := Register(id, "f", 1);
            z == s.(ctrl := s.ctrl.(transfers := s.ctrl.transfers[id := Opened(Send, "f", 1, true)]),
                    ran := s.ran + [Logged(s, e)])
  {
    var e := Register(id, "f", 1);
    var s1 := Extend(o, s, UserRegister(e));
    assert s1 == s.(workQ := [e]);
    z := RunAlone(o, s1, e);
    assert Logged(s1, e) == Logged(s, e);
  }

  /** Registration and resumption of one file go through the empty node. */
  lemma PrimeOne(o: Node, s: Node, id: Id) returns (z: Node)
    requires Leads(o, s) && Idle(s) && Empty(s) && s.entries == map[] && id !in s.ctrl.transfers
    ensures Leads(o, z) && Idle(z) && Empty(z) && z.entries == map[]
    ensures Primed(Find(z.ctrl.transfers, id))
    ensures forall i :: i != id ==> Find(z.ctrl.transfers, i) == Find(s.ctrl.transfers, i)
  {
    var s1 := RegisterAlone(o, s, id);
    z := DeliverThrough(o, s1, Control(id, Resume));
    assert z.workHand.None?;
  }

  /** A request for the only file that is not answered. */
  lemma AskUnanswered(o: Node, s: Node, id: Id, req: ChunkRequest) returns (z: Node, r: Ran)
    requires Leads(o, s) && s.loop.Iterate? && s.callback && Vacant(s) && s.entries.Keys <= {id}
    requires OutcomeIn(s.ctrl, Request(id, req), true, None).reply.None?
    requires var e := EntryAt(s.entries, id, s.time);
             0 <= e.inFlight < 16 && e.maxInFlight == 16 && e.pending == []
    ensures Leads(o, z) && z.loop.Iterate? && z.callback && Vacant(z)
    ensures z.ctrl == RunIn(s.ctrl, Request(id, req), true, None) && z.ctrl.disk == s.ctrl.disk
    ensures z.ignored == s.ignored && z.evicted == s.evicted && z.given == s.given && z.sendQ == s.sendQ
    ensures z.entries == map[id := Entry(EntryAt(s.entries, id, s.time).inFlight + 1, 16, z.time, [])]
    ensures z.issued == s.issued + [Request(id, req)] && z.ran == s.ran + [r]
    ensures r.event == Request(id, req) && r.outside.limit.None? && r.saved.None?
  {
    z := AskThrough(o, s, id, req);
    r := Logged(s, Request(id, req));
  }

  /** A sweep over the entry of at most one file, which is in order and not idle. */
  lemma ToPopping(o: Node, s: Node, id: Id) returns (z: Node)
    requires Leads(o, s) && s.loop.Iterate?
    requires s.entries == map[] ||
             (s.entries.Keys == {id} && WindowOk(s.entries[id]) && s.entries[id].lastUpdate == s.time)
    ensures Leads(o, z) && z == s.(loop := Popping)
  {
    var s1 := Extend(o, s, EndIterate);
    if s.entries == map[] {
      assert s.entries.Keys == {};
      z := Extend(o, s1, EndSweep);
    } else {
      assert s1 == s.(loop := Sweeping(s.time, {id}, {}));
      var s2 := Extend(o, s1, Visit(id));
      assert {id} - {id} == {} && s2.entries == s.entries;
      assert s2 == s.(loop := SweepForwarding(id, s.time, {}, {}));
      var s3 := Extend(o, s2, EndSweepForward);
      z := Extend(o, s3, EndSweep);
    }
  }
}
