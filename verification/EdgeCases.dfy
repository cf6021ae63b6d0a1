/** Reachable states that show why the conditions of `Conservation` and `Quiescence` are there. */
module EdgeCases {
  import opened Basics
  import opened FileEvents
  import opened TransferCtrl
  import opened ChunkWindow
  import opened Node
  import opened NodeInvariants
  import opened Quiescence
  import opened Scenarios

  /** `k` requests for a file without a transfer were forwarded, run and not answered. */
  lemma Unheard(k: nat) returns (s: Node)
    requires k <= 16
    ensures Leads(START, s) && Idle(s) && Empty(s) && s.ctrl.transfers == map[]
    ensures s.entries == if k == 0 then map[] else map[FileId(0) := Entry(k, 16, s.time, [])]
    decreases k
  {
    if k == 0 {
      Start();
      s := START;
    } else {
      var s0 := Unheard(k - 1);
      s := AskThrough(START, s0, FileId(0), BYTE);
      assert s.ctrl == s0.ctrl && s.workHand.None?;
      assert s.entries == map[FileId(0) := Entry(k, 16, s.time, [])];
    }
  }

  /** A stall: 16 requests without an answer use up the window, and the 17th waits in a node at rest. */
  lemma StallIsReachable() returns (s: Node)
    ensures Reachable(s) && Quiescent(s) && s.evicted == []
    ensures Pending(s, FileId(0)) == [BYTE]
  {
    var s0 := Unheard(16);
    var s1 := Extend(START, s0, AskChunk(FileId(0), BYTE));
    assert s1.entries.Keys == {FileId(0)} && s1.entries[FileId(0)] == Entry(16, 16, s1.time, [BYTE]);
    var s2 := Extend(START, s1, EndForward);
    s := ToPopping(START, s2, FileId(0));
    FromStart(s);
  }

  /** A chunk of the only file is in send_queue. */
  lemma OneChunkWaits() returns (s: Node)
    ensures Leads(START, s) && Idle(s) && s.sendQ == [SendChunk(FileId(0), 0, [0])]
    ensures s.entries == map[FileId(0) := Entry(1, 16, s.time, [])]
  {
    var id := FileId(0);
    Start();
    var s0 := START;
    var s1 := PrimeOne(START, s0, id);
    PrimedAnswers(Find(s1.ctrl.transfers, id), id, Outside(LookUp(s1.ctrl, Request(id, BYTE), true), None));
    var s2 := AskThrough(START, s1, id, BYTE);
    assert s2.entries == map[id := Entry(1, 16, s2.time, [])];
    s := Extend(START, s2, PutSend);
  }

  /** The sweep finds the only entry idle for more than 60 seconds. */
  lemma VisitOnly(s: Node, id: Id, e: Entry) returns (z: Node)
    requires Leads(START, s) && Idle(s) && s.entries == map[id := e] && e.lastUpdate == s.time
    ensures Leads(START, z) && z.loop == Sweeping(z.time, {}, {id})
    ensures z == s.(time := z.time, loop := z.loop)
  {
    var s1 := Extend(START, s, Tick(IDLE_LIMIT + 1));
    assert s1 == s.(time := s.time + IDLE_LIMIT + 1);
    var s2 := Extend(START, s1, EndIterate);
    assert s1.entries.Keys == {id};
    assert s2 == s1.(loop := Sweeping(s1.time, {id}, {}));
    z := Extend(START, s2, Visit(id));
    assert {id} - {id} == {} && {} + {id} == {id};
  }

  lemma EvictOnly(s: Node, id: Id, e: Entry) returns (z: Node)
    requires Leads(START, s) && Idle(s) && s.entries == map[id := e] && e.lastUpdate == s.time
    ensures Leads(START, z) && z.loop.Popping? && z.entries == map[] && z.sendQ == s.sendQ
    ensures z.evicted == [Evicted(id, e)]
  {
    var s1 := VisitOnly(s, id, e);
    var s2 := Extend(START, s1, Erase(id));
    assert s2.loop == Sweeping(s1.time, {}, {}) && s2.entries == map[];
    z := Extend(START, s2, EndSweep);
  }

  /** An eviction while a chunk is under way makes the credit of the file negative: the sweep forgets the
      entry, and the chunk then returns its credit to a new one. */
  lemma CreditCanGoNegative() returns (s: Node)
    ensures Reachable(s) && InFlight(s, FileId(0)) == -1 && Forgotten(s.evicted, FileId(0)) == 1
  {
    var s0 := OneChunkWaits();
    var s1 := EvictOnly(s0, FileId(0), Entry(1, 16, s0.time, []));
    assert s1.evicted[..0] == [];
    s := Extend(START, s1, PopSend(true));
    FromStart(s);
  }

  /** A registration of "h" while the id is taken by the file "f" changes nothing. */
  lemma RegisterTaken(s: Node, id: Id) returns (z: Node)
    requires Leads(START, s) && Idle(s) && Empty(s) && id in s.ctrl.transfers
    ensures Leads(START, z) && z == s.(ran := s.ran + [Logged(s, Register(id, "h", 1))])
  {
    var e := Register(id, "h", 1);
    var s1 := Extend(START, s, UserRegister(e));
    assert s1 == s.(workQ := [e]);
    z := RunAlone(START, s1, e);
    assert Logged(s1, e) == Logged(s, e);
    assert s.ctrl.transfers[id := s.ctrl.transfers[id]] == s.ctrl.transfers;
  }

  lemma RegisterTwice() returns (s: Node)
    ensures Leads(START, s) && Idle(s) && Empty(s) && s.entries == map[] && s.ctrl.disk == DISK && s.ignored == []
    ensures Primed(Find(s.ctrl.transfers, FileId(0))) && |s.ran| == 3
    ensures s.ran[0].event == Register(FileId(0), "f", 1) && s.ran[1].event == Register(FileId(0), "h", 1)
    ensures s.ran[2].event == Control(FileId(0), Resume)
  {
    Start();
    var s1 := RegisterAlone(START, START, FileId(0));
    var s2 := RegisterTaken(s1, FileId(0));
    s := DeliverThrough(START, s2, Control(FileId(0), Resume));
    assert s.workHand.None?;
  }

  /** A second registration under an id that is taken is lost: the requests for it are answered from the first file,
      although the second is not even on the disk. */
  lemma TakenIdSendsTheOldFile() returns (s: Node)
    ensures Reachable(s) && s.evicted == [] && s.ignored == [] && |s.ran| == 4 && s.ctrl.disk == map["f" := [0]]
    ensures s.ran[0].event == Register(FileId(0), "f", 1) && s.ran[1].event == Register(FileId(0), "h", 1)
    ensures s.ran[2].event == Control(FileId(0), Resume) && s.ran[3].event == Request(FileId(0), BYTE)
    ensures s.ran[3].reply == Some(SendChunk(FileId(0), 0, [0]))
  {
    var id := FileId(0);
    var s0 := RegisterTwice();
    PrimedAnswers(Find(s0.ctrl.transfers, id), id, Outside(LookUp(s0.ctrl, Request(id, BYTE), true), None));
    s := AskThrough(START, s0, id, BYTE);
    FromStart(s);
  }
}
