/** One toxfsd process: the loop thread (which is also where toxcore calls back), the message thread, the
    work thread, and the three bounded queues between them. Every push and pop of a queue is a step, so the
    threads interleave between any two of them. The logs at the end of the state are history only. */
module Node {
  import opened Basics
  import opened FileEvents
  import opened ChunkWindow
  import opened TransferCtrl

  const RECV_MAX := 512
  const SEND_MAX := 512
  const WORK_MAX := 256

  /** Where the loop thread is. */
  datatype Loop =
      // inside tox_iterate, between callbacks
    | Iterate
      // pushing `e` on recv_queue; afterwards, if `credit` is set, that file gets a credit back
    | Emit(e: Event, credit: Option<Id>)
      // in the loop of check_chunk_requests_(id)
    | Forwarding(id: Id)
      // in check_chunk_requests_(nullopt): `todo` still to visit, `dead` to be erased
    | Sweeping(now: int, todo: set<Id>, dead: set<Id>)
    | SweepForwarding(id: Id, now: int, todo: set<Id>, dead: set<Id>)
      // in send_queue.pop_until_time
    | Popping

  /** A closure that the work thread has run; `opens` is whether the system let an open succeed. */
  datatype Ran = Ran(event: Event, opens: bool, outside: Outside, reply: Option<SendMsg>, saved: Option<Saved>)

  datatype Evicted = Evicted(id: Id, entry: Entry)

  datatype Node = Node(
    entries: Entries,
    loop: Loop,
    recvQ: seq<Event>,
    msgHand: Option<Event>,
    workQ: seq<Event>,
    workHand: Option<SendMsg>,
    sendQ: seq<SendMsg>,
    ctrl: Ctrl,
    callback: bool,
    time: int,
    // history: what toxcore issued, what the message thread dropped for want of a callback, what the work
    // thread ran, what toxcore was given, which window entries were evicted, the disk at the start; and the
    // credit that a file had out when the logs begin, which is none for a node that has just started
    issued: seq<Event>,
    ignored: seq<Event>,
    ran: seq<Ran>,
    given: seq<SendMsg>,
    evicted: seq<Evicted>,
    firstDisk: map<string, seq<Byte>>,
    spent: map<Id, int>)

  datatype Action =
      // callbacks of toxcore
    | AskChunk(id: Id, req: ChunkRequest)
    | Deliver(e: Event)
      // loop thread
    | EndIterate
    | PushEmitted
    | Forward
    | EndForward
    | Visit(id: Id)
    | SweepForward
    | EndSweepForward
    | Erase(id: Id)
    | EndSweep
    | PopSend(ok: bool)
    | PopTimeout
      // message thread
    | TakeMsg
    | PutWork
      // work thread; what the file system does is an input
    | RunWork(opens: bool, limit: Option<nat>)
    | PutSend
      // the clock, the command thread, registration of the callback
    | Tick(elapsed: nat)
    | UserSend(m: SendMsg)
    | UserRegister(e: Event)
    | SetCallback(on: bool)

  predicate Enabled(s: Node, a: Action) {
    match a
    case AskChunk(_, _) => s.loop.Iterate?
    case Deliver(e) => s.loop.Iterate? && (e.Receive? || e.Control? || e.Chunk?)
    case EndIterate => s.loop.Iterate?
    case PushEmitted => s.loop.Emit? && |s.recvQ| < RECV_MAX
    case Forward =>
      s.loop.Forwarding? && s.loop.id in s.entries && CanForward(s.entries[s.loop.id]) && |s.recvQ| < RECV_MAX
    case EndForward => s.loop.Forwarding? && s.loop.id in s.entries && !CanForward(s.entries[s.loop.id])
    case Visit(id) => s.loop.Sweeping? && id in s.loop.todo && id in s.entries
    case SweepForward =>
      s.loop.SweepForwarding? && s.loop.id in s.entries && CanForward(s.entries[s.loop.id]) && |s.recvQ| < RECV_MAX
    case EndSweepForward => s.loop.SweepForwarding? && s.loop.id in s.entries && !CanForward(s.entries[s.loop.id])
    case Erase(id) => s.loop.Sweeping? && s.loop.todo == {} && id in s.loop.dead && id in s.entries
    case EndSweep => s.loop.Sweeping? && s.loop.todo == {} && s.loop.dead == {}
    case PopSend(_) => s.loop.Popping? && s.sendQ != []
    case PopTimeout => s.loop.Popping? && s.sendQ == []
    case TakeMsg => s.msgHand.None? && s.recvQ != []
    case PutWork => s.msgHand.Some? && |s.workQ| < WORK_MAX
    case RunWork(_, _) => s.workHand.None? && s.workQ != []
    case PutSend => s.workHand.Some? && |s.sendQ| < SEND_MAX
    case Tick(_) => true
    case UserSend(m) => m.FileSend? && |s.sendQ| < SEND_MAX
    case UserRegister(e) => e.Register? && |s.workQ| < WORK_MAX
    case SetCallback(_) => true
  }

  /** The credit that comes back when a chunk has been given to toxcore. */
  function WithCredit(s: Node, id: Id): Node {
    var e := EntryAt(s.entries, id, s.time);
    s.(entries := s.entries[id := e.(inFlight := e.inFlight - 1, lastUpdate := s.time)], loop := Forwarding(id))
  }

  /** One round of a forwarding loop for `id`. */
  function WithForwarded(s: Node, id: Id): Node
    requires id in s.entries && CanForward(s.entries[id])
  {
    var e := s.entries[id];
    s.(entries := s.entries[id := ForwardOne(e)], recvQ := s.recvQ + [Request(id, e.pending[0])])
  }

  function AfterPop(s: Node, ok: bool): Node
    requires s.sendQ != []
  {
    var m := s.sendQ[0];
    var s1 := s.(sendQ := s.sendQ[1..], given := s.given + [m]);
    match m
    case SendChunk(id, _, _) => if ok then WithCredit(s1, id) else s1.(loop := Emit(Error(id), Some(id)))
    case SendControl(id, _) => s1.(loop := if ok then Iterate else Emit(Error(id), None))
    case FileSend(_, _, _) => s1.(loop := Iterate)
  }

  function AfterTake(s: Node): Node
    requires s.recvQ != []
  {
    var m := s.recvQ[0];
    var s1 := s.(recvQ := s.recvQ[1..]);
    if m.Error? then s1
    else if s.callback then s1.(msgHand := Some(m))
    else s1.(ignored := s1.ignored + [m])
  }

  /** The closure at the head of work_queue runs up to its push on send_queue; only the work thread sees
      the transfers, so what the closure does to them after that push is merged into this step. */
  function AfterRun(s: Node, opens: bool, limit: Option<nat>): Node
    requires s.workQ != []
  {
    var e := s.workQ[0];
    var o := OutcomeIn(s.ctrl, e, opens, limit);
    s.(workQ := s.workQ[1..],
       workHand := o.reply,
       ctrl := RunIn(s.ctrl, e, opens, limit),
       ran := s.ran + [Ran(e, opens, Outside(LookUp(s.ctrl, e, opens), limit), o.reply, o.saved)])
  }

  function Apply(s: Node, a: Action): Node
    requires Enabled(s, a)
  {
    match a
    case AskChunk(id, req) =>
      var e := EntryAt(s.entries, id, s.time);
      s.(entries := s.entries[id := e.(pending := e.pending + [req], lastUpdate := s.time)],
         loop := Forwarding(id),
         issued := s.issued + [Request(id, req)])
    case Deliver(e) => s.(loop := Emit(e, None), issued := s.issued + [e])
    case EndIterate => s.(loop := Sweeping(s.time, s.entries.Keys, {}))
    case PushEmitted =>
      var s1 := s.(recvQ := s.recvQ + [s.loop.e], loop := Iterate);
      if s.loop.credit.Some? then WithCredit(s1, s.loop.credit.value) else s1
    case Forward => WithForwarded(s, s.loop.id)
    case EndForward => s.(loop := Iterate)
    case Visit(id) =>
      var Sweeping(now, todo, dead) := s.loop;
      if Stale(s.entries[id], now) then s.(loop := Sweeping(now, todo - {id}, dead + {id}))
      else
        s.(entries := s.entries[id := Doubled(s.entries[id])], loop := SweepForwarding(id, now, todo - {id}, dead))
    case SweepForward => WithForwarded(s, s.loop.id)
    case EndSweepForward => s.(loop := Sweeping(s.loop.now, s.loop.todo, s.loop.dead))
    case Erase(id) =>
      s.(entries := s.entries - {id},
         loop := Sweeping(s.loop.now, s.loop.todo, s.loop.dead - {id}),
         evicted := s.evicted + [Evicted(id, s.entries[id])])
    case EndSweep => s.(loop := Popping)
    case PopSend(ok) => AfterPop(s, ok)
    case PopTimeout => s.(loop := Iterate)
    case TakeMsg => AfterTake(s)
    case PutWork => s.(workQ := s.workQ + [s.msgHand.value], msgHand := None)
    case RunWork(opens, limit) => AfterRun(s, opens, limit)
    case PutSend => s.(sendQ := s.sendQ + [s.workHand.value], workHand := None)
    case Tick(elapsed) => s.(time := s.time + elapsed)
    case UserSend(m) => s.(sendQ := s.sendQ + [m])
    case UserRegister(e) => s.(workQ := s.workQ + [e])
    case SetCallback(on) => s.(callback := on)
  }

  predicate Initial(s: Node) {
    && s.entries == map[] && s.loop.Iterate?
    && s.recvQ == s.workQ == [] && s.sendQ == [] && s.msgHand.None? && s.workHand.None?
    && s.ctrl.transfers == map[] && s.firstDisk == s.ctrl.disk && s.spent == map[]
    && s.issued == s.ignored == [] && s.ran == [] && s.given == [] && s.evicted == []
  }

  predicate Runs(s: Node, acts: seq<Action>, z: Node)
    decreases |acts|
  {
    if acts == [] then s == z
    else Enabled(s, acts[0]) && Runs(Apply(s, acts[0]), acts[1..], z)
  }

  ghost predicate Reachable(z: Node) {
    exists s, acts :: Initial(s) && Runs(s, acts, z)
  }

  /** Some run leads from `o` to `z`. */
  ghost predicate Leads(o: Node, z: Node) {
    exists acts :: Runs(o, acts, z)
  }

  lemma {:induction false} RunsSnoc(s: Node, acts: seq<Action>, m: Node, a: Action)
    requires Runs(s, acts, m) && Enabled(m, a)
    ensures Runs(s, acts + [a], Apply(m, a))
    decreases |acts|
  {
    if acts == [] {
      assert acts + [a] == [a] && [a][1..] == [];
    } else {
      assert (acts + [a])[1..] == acts[1..] + [a];
      RunsSnoc(Apply(s, acts[0]), acts[1..], m, a);
    }
  }

  /** One more step of a run. */
  lemma Extend(o: Node, s: Node, a: Action) returns (z: Node)
    requires Leads(o, s) && Enabled(s, a)
    ensures Leads(o, z) && z == Apply(s, a)
  {
    z := Apply(s, a);
    var acts :| Runs(o, acts, s);
    RunsSnoc(o, acts, s, a);
  }

  lemma LeadsOn(o: Node, s: Node, z: Node)
    requires Leads(o, s) && Leads(s, z)
    ensures Leads(o, z)
  {
    var acts, more :| Runs(o, acts, s) && Runs(s, more, z);
    RunsConcat(o, acts, s, more, z);
  }

  lemma {:induction false} RunsConcat(o: Node, acts: seq<Action>, s: Node, more: seq<Action>, z: Node)
    requires Runs(o, acts, s) && Runs(s, more, z)
    ensures Runs(o, acts + more, z)
    decreases |acts|
  {
    if acts == [] {
      assert acts + more == more;
    } else {
      assert (acts + more)[1..] == acts[1..] + more;
      RunsConcat(Apply(o, acts[0]), acts[1..], s, more, z);
    }
  }

  lemma ReachableOn(o: Node, z: Node)
    requires Reachable(o) && Leads(o, z)
    ensures Reachable(z)
  {
    var s, acts, more :| Initial(s) && Runs(s, acts, o) && Runs(o, more, z);
    RunsConcat(s, acts, o, more, z);
  }
}
