/** The circular wait: the loop thread blocked on recv_queue, the message thread on work_queue, the work
    thread on send_queue. */
module Deadlock {
  import opened Basics
  import opened FileEvents
  import opened ChunkWindow
  import opened Projection
  import opened Node
  import opened NodeInvariants
  import opened Conservation

  /** Steps of the three threads, as opposed to those of toxcore, the clock and the command thread. */
  predicate OfThread(a: Action) {
    || a.EndIterate? || a.PushEmitted? || a.Forward? || a.EndForward? || a.Visit? || a.SweepForward?
    || a.EndSweepForward? || a.Erase? || a.EndSweep? || a.PopSend? || a.PopTimeout?
    || a.TakeMsg? || a.PutWork? || a.RunWork? || a.PutSend?
  }

  /** No thread can step, whatever toxcore and the file system answer. */
  ghost predicate Stuck(s: Node) {
    forall a :: OfThread(a) ==> !Enabled(s, a)
  }

  /** Messages between the threads: in the queues and in the hands of the message and work threads. */
  function Load(s: Node): nat {
    |s.recvQ| + |s.workQ| + |s.sendQ| + |AsSeq(s.msgHand)| + |AsSeq(s.workHand)|
  }

  /** The loop thread is at a push on recv_queue and finds it full. */
  predicate LoopBlocked(s: Node) {
    && |s.recvQ| >= RECV_MAX
    && (s.loop.Emit? || (s.loop.Forwarding? && s.loop.id in s.entries && CanForward(s.entries[s.loop.id])))
  }

  /** Each of the three threads is at a push and finds its queue full. */
  predicate AllBlocked(s: Node) {
    && LoopBlocked(s)
    && s.msgHand.Some? && |s.workQ| >= WORK_MAX
    && s.workHand.Some? && |s.sendQ| >= SEND_MAX
  }

  /** The model takes no choice from toxcore, the file system, the clock and the user: in tox_iterate toxcore may ask
      for any chunk and report anything, it may accept or refuse what it is given, and a file may fail to open or to
      be moved in full. */
  lemma InputsAreFree(
    s: Node, id: Id, req: ChunkRequest, e: Event, m: SendMsg, opens: bool, limit: Option<nat>, elapsed: nat)
    ensures s.loop.Iterate? ==> Enabled(s, AskChunk(id, req)) && Enabled(s, EndIterate)
    ensures s.loop.Iterate? && (e.Receive? || e.Control? || e.Chunk?) ==> Enabled(s, Deliver(e))
    ensures s.loop.Popping? && s.sendQ != [] ==> Enabled(s, PopSend(true)) && Enabled(s, PopSend(false))
    ensures s.workHand.None? && s.workQ != [] ==> Enabled(s, RunWork(opens, limit))
    ensures |s.workQ| < 256 && e.Register? ==> Enabled(s, UserRegister(e))
    ensures |s.sendQ| < 512 && m.FileSend? ==> Enabled(s, UserSend(m))
    ensures Enabled(s, Tick(elapsed)) && Enabled(s, SetCallback(true)) && Enabled(s, SetCallback(false))
  {
  }

  lemma LoopStep(s: Node) returns (a: Action)
    requires WindowInv(s) && !LoopBlocked(s)
    ensures OfThread(a) && Enabled(s, a)
  {
    match s.loop
    case Iterate => a := EndIterate;
    case Emit(_, _) => a := PushEmitted;
    case Forwarding(id) => a := if CanForward(s.entries[id]) then Forward else EndForward;
    case SweepForwarding(id, _, _, _) =>
      assert WindowOk(s.entries[id]);
      a := EndSweepForward;
    case Popping => a := if s.sendQ == [] then PopTimeout else PopSend(true);
    case Sweeping(_, todo, dead) =>
      if todo != {} {
        var id :| id in todo;
        a := Visit(id);
      } else if dead != {} {
        var id :| id in dead;
        a := Erase(id);
      } else {
        a := EndSweep;
      }
  }

  lemma SomeStep(s: Node) returns (a: Action)
    requires Reachable(s) && !AllBlocked(s)
    ensures OfThread(a) && Enabled(s, a)
  {
    if !LoopBlocked(s) {
      ReachableInv(s);
      a := LoopStep(s);
    } else if s.msgHand.None? {
      a := TakeMsg;
    } else if |s.workQ| < WORK_MAX {
      a := PutWork;
    } else if s.workHand.None? {
      a := RunWork(true, None);
    } else {
      a := PutSend;
    }
  }

  ghost predicate Bounded(s: Node) {
    |s.recvQ| <= 512 && |s.workQ| <= 256 && |s.sendQ| <= 512
  }

  lemma LoopKeepsBounded(s: Node, a: Action)
    requires Bounded(s) && Enabled(s, a) && (a.PushEmitted? || a.PopSend? || a.Forward? || a.SweepForward?)
    ensures Bounded(Apply(s, a))
  {
  }

  lemma StepKeepsBounded(s: Node, a: Action)
    requires Bounded(s) && Enabled(s, a)
    ensures Bounded(Apply(s, a))
  {
    if a.PushEmitted? || a.PopSend? || a.Forward? || a.SweepForward? {
      LoopKeepsBounded(s, a);
    } else if !a.TakeMsg? {
      assert Apply(s, a).recvQ == s.recvQ;
    }
  }

  lemma {:induction false} RunKeepsBounded(s: Node, acts: seq<Action>, z: Node)
    requires Bounded(s) && Runs(s, acts, z)
    ensures Bounded(z)
    decreases |acts|
  {
    if acts != [] {
      StepKeepsBounded(s, acts[0]);
      RunKeepsBounded(Apply(s, acts[0]), acts[1..], z);
    }
  }

  /** No queue ever holds more than its bound. */
  lemma QueuesAreBounded(s: Node)
    requires Reachable(s)
    ensures |s.recvQ| <= 512 && |s.workQ| <= 256 && |s.sendQ| <= 512
  {
    var s0, acts :| Initial(s0) && Runs(s0, acts, s);
    RunKeepsBounded(s0, acts, s);
  }

  /** The system is stuck exactly in the circular wait: three full queues, an item in each of the two hands
      and one more that the loop thread wants to push, so exactly 1282 messages. */
  lemma StuckIffAllBlocked(s: Node)
    requires Reachable(s)
    ensures Stuck(s) <==> AllBlocked(s)
    ensures Stuck(s) ==> Load(s) == 1282 && |s.recvQ| == 512 && |s.workQ| == 256 && |s.sendQ| == 512
  {
    QueuesAreBounded(s);
    if !AllBlocked(s) {
      var a := SomeStep(s);
    }
  }

  /** Once stuck, always stuck: nobody else can make room or give the loop thread something else to do. */
  lemma {:induction false} StuckForEver(s: Node, acts: seq<Action>, z: Node)
    requires AllBlocked(s) && Runs(s, acts, z)
    ensures AllBlocked(z) && z == s.(time := z.time, callback := z.callback)
    decreases |acts|
  {
    if acts != [] {
      StuckForEver(Apply(s, acts[0]), acts[1..], z);
    }
  }

  // Counting by file.

  function Requests(q: seq<Event>): nat {
    if q == [] then 0 else (if q[0].Request? then 1 else 0) + Requests(q[1..])
  }

  function AllChunks(q: seq<SendMsg>): nat {
    if q == [] then 0 else (if q[0].SendChunk? then 1 else 0) + AllChunks(q[1..])
  }

  function SumPicks(q: seq<Event>, ids: seq<Id>): nat {
    if ids == [] then 0 else |Pick(q, ids[0], true)| + SumPicks(q, ids[1..])
  }

  function SumChunks(q: seq<SendMsg>, ids: seq<Id>): nat {
    if ids == [] then 0 else |Chunks(q, ids[0])| + SumChunks(q, ids[1..])
  }

  lemma {:induction false} SumPicksCons(e: Event, q: seq<Event>, ids: seq<Id>)
    ensures SumPicks([e] + q, ids) >= SumPicks(q, ids) + if e.Request? && e.id in ids then 1 else 0
  {
    if ids != [] {
      assert ([e] + q)[1..] == q;
      SumPicksCons(e, q, ids[1..]);
    }
  }

  lemma {:induction false} SumChunksCons(m: SendMsg, q: seq<SendMsg>, ids: seq<Id>)
    ensures SumChunks([m] + q, ids) >= SumChunks(q, ids) + if m.SendChunk? && m.id in ids then 1 else 0
  {
    if ids != [] {
      assert ([m] + q)[1..] == q;
      SumChunksCons(m, q, ids[1..]);
    }
  }

  lemma {:induction false} RequestsBySum(q: seq<Event>, ids: seq<Id>)
    requires forall e :: e in q && e.Request? ==> e.id in ids
    ensures Requests(q) <= SumPicks(q, ids)
  {
    if q != [] {
      RequestsBySum(q[1..], ids);
      SumPicksCons(q[0], q[1..], ids);
      assert [q[0]] + q[1..] == q;
    }
  }

  lemma {:induction false} ChunksBySum(q: seq<SendMsg>, ids: seq<Id>)
    requires forall m :: m in q && m.SendChunk? ==> m.id in ids
    ensures AllChunks(q) <= SumChunks(q, ids)
  {
    if q != [] {
      ChunksBySum(q[1..], ids);
      SumChunksCons(q[0], q[1..], ids);
      assert [q[0]] + q[1..] == q;
    }
  }

  /** Everything on its way to the work thread that is in a queue or in a hand. */
  function Inbound(s: Node): seq<Event> {
    s.workQ + AsSeq(s.msgHand) + s.recvQ
  }

  function Outbound(s: Node): seq<SendMsg> {
    s.sendQ + AsSeq(s.workHand)
  }

  /** Messages of the load that are neither chunk requests nor chunks. */
  function Extra(s: Node): int {
    Load(s) - Requests(Inbound(s)) - AllChunks(Outbound(s))
  }

  /** All requests and chunks of the load belong to these files. */
  ghost predicate Covered(s: Node, ids: seq<Id>) {
    && (forall e :: e in Inbound(s) && e.Request? ==> e.id in ids)
    && (forall m :: m in Outbound(s) && m.SendChunk? ==> m.id in ids)
  }

  lemma {:induction false} SumWithinWindows(s: Node, ids: seq<Id>)
    requires Reachable(s)
    requires forall x :: x in s.evicted ==> x.id !in ids
    ensures SumPicks(Inbound(s), ids) + SumChunks(Outbound(s), ids) <= 16 * |ids|
  {
    if ids != [] {
      var id := ids[0];
      SumWithinWindows(s, ids[1..]);
      CreditBounds(s, id);
      PickConcat(s.workQ, AsSeq(s.msgHand), id, true);
      PickConcat(s.workQ + AsSeq(s.msgHand), s.recvQ, id, true);
      ChunksConcat(s.sendQ, AsSeq(s.workHand), id);
    }
  }

  /** With no eviction of these files, the windows bound the load. */
  lemma LoadBound(s: Node, ids: seq<Id>)
    requires Reachable(s) && Covered(s, ids)
    requires forall x :: x in s.evicted ==> x.id !in ids
    ensures Load(s) <= 16 * |ids| + Extra(s)
  {
    SumWithinWindows(s, ids);
    RequestsBySum(Inbound(s), ids);
    ChunksBySum(Outbound(s), ids);
  }

  /** Bounded deadlock freedom: as long as 16 messages per file and the other messages together stay below
      1282, some thread can step. */
  lemma NotStuck(s: Node, ids: seq<Id>) returns (a: Action)
    requires Reachable(s) && Covered(s, ids)
    requires forall x :: x in s.evicted ==> x.id !in ids
    requires 16 * |ids| + Extra(s) < 1282
    ensures OfThread(a) && Enabled(s, a)
  {
    LoadBound(s, ids);
    a := SomeStep(s);
  }

  /** With requests and chunks only, that is the case for up to 80 files. */
  lemma EightyFilesNeverStuck(s: Node, ids: seq<Id>)
    requires Reachable(s) && Covered(s, ids) && |ids| <= 80
    requires forall x :: x in s.evicted ==> x.id !in ids
    requires Extra(s) == 0
    ensures !Stuck(s)
  {
    var a := NotStuck(s, ids);
  }
}
