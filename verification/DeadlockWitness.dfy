/** The bound of `Deadlock` is sharp: with 81 files, and nothing but chunk requests and successful chunks
    under way, the three threads can come to block each other for good. */
module DeadlockWitness {
  import opened Basics
  import opened FileEvents
  import opened TransferCtrl
  import opened ChunkWindow
  import opened Node
  import opened Deadlock
  import opened Scenarios

  const FILES := 81

  predicate IsFile(id: Id) {
    id.friend == 0 && id.file < FILES
  }

  lemma PrimeAll(n: nat) returns (s: Node)
    requires n <= FILES
    ensures Leads(START, s) && Idle(s) && Empty(s) && s.entries == map[]
    ensures forall i: nat :: i < n ==> Primed(Find(s.ctrl.transfers, FileId(i)))
    ensures forall i: nat :: n <= i ==> FileId(i) !in s.ctrl.transfers
    decreases n
  {
    if n == 0 {
      Start();
      s := START;
    } else {
      var s0 := PrimeAll(n - 1);
      s := PrimeOne(START, s0, FileId(n - 1));
      forall i: nat | n <= i ensures FileId(i) !in s.ctrl.transfers {
        assert Find(s.ctrl.transfers, FileId(i)) == Find(s0.ctrl.transfers, FileId(i));
      }
      forall i: nat | i < n - 1 ensures Primed(Find(s.ctrl.transfers, FileId(i))) {
        assert Find(s.ctrl.transfers, FileId(i)) == Find(s0.ctrl.transfers, FileId(i));
      }
    }
  }

  /** How many of `n` requests, 16 for each file in turn, are for file `i`. */
  function Share(n: nat, i: nat): nat {
    if n <= 16 * i then 0 else if n < 16 * i + 16 then n - 16 * i else 16
  }

  /** `n` requests were forwarded, none waits, and only they and their answers are under way. */
  ghost predicate Loaded(s: Node, n: nat) {
    && Leads(START, s) && Idle(s)
    && (forall i: nat :: i < FILES ==> Primed(Find(s.ctrl.transfers, FileId(i))))
    && (forall i: nat :: i < FILES ==>
          var e := EntryAt(s.entries, FileId(i), s.time);
          e.inFlight == Share(n, i) && e.maxInFlight == 16 && e.pending == [])
    && (forall e :: e in Inbound(s) ==> e.Request? && e.req == BYTE && IsFile(e.id))
    && (forall m :: m in Outbound(s) ==> m.SendChunk? && IsFile(m.id))
  }

  lemma AskOne(s: Node, n: nat) returns (z: Node)
    requires Loaded(s, n) && n < 16 * FILES && |s.recvQ| < RECV_MAX
    ensures Loaded(z, n + 1)
    ensures z.recvQ == s.recvQ + [Request(FileId(n / 16), BYTE)]
    ensures z.workQ == s.workQ && z.sendQ == s.sendQ && z.msgHand == s.msgHand && z.workHand == s.workHand
  {
    var k := n / 16;
    var id := FileId(k);
    assert Share(n, k) == n % 16 && Share(n + 1, k) == n % 16 + 1;
    z := AskAndForward(START, s, id, BYTE);
    forall i: nat | i < FILES
      ensures var x := EntryAt(z.entries, FileId(i), z.time);
              x.inFlight == Share(n + 1, i) && x.maxInFlight == 16 && x.pending == []
    {
      assert i != k ==> Share(n + 1, i) == Share(n, i);
      assert i != k ==> FileId(i) != id;
    }
    forall x | x in Inbound(z) ensures x.Request? && x.req == BYTE && IsFile(x.id) {
      assert x in Inbound(s) || x == Request(id, BYTE);
    }
  }

  lemma TakeOne(s: Node, n: nat) returns (z: Node)
    requires Loaded(s, n) && s.msgHand.None? && s.recvQ != []
    ensures Loaded(z, n)
    ensures z.recvQ == s.recvQ[1..] && z.msgHand.Some?
    ensures z.workQ == s.workQ && z.sendQ == s.sendQ && z.workHand == s.workHand
  {
    assert s.recvQ[0] in Inbound(s);
    z := Extend(START, s, TakeMsg);
    forall x | x in Inbound(z) ensures x in Inbound(s) {}
  }

  lemma PutOne(s: Node, n: nat) returns (z: Node)
    requires Loaded(s, n) && s.msgHand.Some? && |s.workQ| < WORK_MAX
    ensures Loaded(z, n)
    ensures |z.workQ| == |s.workQ| + 1 && z.msgHand.None?
    ensures z.recvQ == s.recvQ && z.sendQ == s.sendQ && z.workHand == s.workHand
  {
    z := Extend(START, s, PutWork);
    forall x | x in Inbound(z) ensures x in Inbound(s) {}
  }

  lemma RunOneMore(s: Node, n: nat) returns (z: Node)
    requires Loaded(s, n) && s.workHand.None? && s.workQ != []
    ensures Loaded(z, n)
    ensures z.workQ == s.workQ[1..] && z.workHand.Some?
    ensures z.recvQ == s.recvQ && z.sendQ == s.sendQ && z.msgHand == s.msgHand
  {
    var e := s.workQ[0];
    assert e in Inbound(s) && e == Request(FileId(e.id.file), BYTE);
    PrimedAnswers(Find(s.ctrl.transfers, e.id), e.id, Outside(LookUp(s.ctrl, e, true), None));
    z := Extend(START, s, RunWork(true, None));
    forall x | x in Inbound(z) ensures x in Inbound(s) {}
    forall m | m in Outbound(z) ensures m.SendChunk? && IsFile(m.id) {
      assert m in Outbound(s) || m == SendChunk(e.id, 0, [0]);
    }
    forall i: nat | i < FILES ensures Primed(Find(z.ctrl.transfers, FileId(i))) {
      assert FileId(i) != e.id ==> Find(z.ctrl.transfers, FileId(i)) == Find(s.ctrl.transfers, FileId(i));
    }
  }

  lemma SendOne(s: Node, n: nat) returns (z: Node)
    requires Loaded(s, n) && s.workHand.Some? && |s.sendQ| < SEND_MAX
    ensures Loaded(z, n)
    ensures |z.sendQ| == |s.sendQ| + 1 && z.workHand.None?
    ensures z.recvQ == s.recvQ && z.workQ == s.workQ && z.msgHand == s.msgHand
  {
    z := Extend(START, s, PutSend);
    forall m | m in Outbound(z) ensures m in Outbound(s) {}
  }

  /** Chunks pile up in send_queue, for the loop thread does not pop while toxcore keeps calling back. */
  lemma FillSend(k: nat) returns (s: Node)
    requires k <= SEND_MAX
    ensures Loaded(s, k) && |s.sendQ| == k
    ensures s.recvQ == s.workQ == [] && s.msgHand.None? && s.workHand.None?
    decreases k
  {
    if k == 0 {
      s := PrimeAll(FILES);
    } else {
      s := FillSend(k - 1);
      s := AskOne(s, k - 1);
      s := TakeOne(s, k);
      s := PutOne(s, k);
      s := RunOneMore(s, k);
      s := SendOne(s, k);
    }
  }

  /** Then the work thread holds one more and closures pile up behind it. */
  lemma FillWork(k: nat) returns (s: Node)
    requires k <= WORK_MAX
    ensures Loaded(s, 513 + k) && |s.sendQ| == SEND_MAX && s.workHand.Some? && |s.workQ| == k
    ensures s.recvQ == [] && s.msgHand.None?
    decreases k
  {
    if k == 0 {
      s := FillSend(SEND_MAX);
      s := AskOne(s, 512);
      s := TakeOne(s, 513);
      s := PutOne(s, 513);
      s := RunOneMore(s, 513);
    } else {
      s := FillWork(k - 1);
      s := AskOne(s, 512 + k);
      s := TakeOne(s, 513 + k);
      s := PutOne(s, 513 + k);
    }
  }

  /** Then the message thread holds one more and requests pile up behind it. */
  lemma FillRecv(k: nat) returns (s: Node)
    requires k <= RECV_MAX
    ensures Loaded(s, 770 + k) && |s.sendQ| == SEND_MAX && s.workHand.Some? && |s.workQ| == WORK_MAX
    ensures s.msgHand.Some? && |s.recvQ| == k
    decreases k
  {
    if k == 0 {
      s := FillWork(WORK_MAX);
      s := AskOne(s, 769);
      s := TakeOne(s, 770);
    } else {
      s := FillRecv(k - 1);
      s := AskOne(s, 769 + k);
    }
  }

  /** With 81 files a circular wait is reachable: no eviction has happened, every message is a chunk request
      or a successful chunk of one of the files, and no thread can ever step again. */
  lemma EightyOneFilesCanDeadlock() returns (s: Node)
    ensures Reachable(s) && Stuck(s) && s.evicted == []
    ensures forall e :: e in Inbound(s) ==> e.Request? && IsFile(e.id)
    ensures forall m :: m in Outbound(s) ==> m.SendChunk? && IsFile(m.id)
  {
    s := FillRecv(RECV_MAX);
    var e := EntryAt(s.entries, FileId(80), s.time);
    assert e.inFlight == Share(1282, 80) == 2;
    s := Extend(START, s, AskChunk(FileId(80), BYTE));
    assert s.entries[FileId(80)] == e.(pending := [BYTE], lastUpdate := s.time);
    FromStart(s);
    StuckIffAllBlocked(s);
  }
}
