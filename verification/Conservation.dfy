/** Results about every reachable state of a node: the window, the credit, the order of the traffic. */
module Conservation {
  import opened Basics
  import opened FileEvents
  import opened ChunkWindow
  import opened TransferCtrl
  import opened Projection
  import opened Node
  import opened NodeInvariants

  /** The window is always topped up: outside the forwarding loop of a file, requests wait only while all 16
      credits are out. So the limit never doubles, and the sweep never forwards. */
  lemma WindowToppedUp(s: Node, id: Id)
    requires Reachable(s)
    ensures id in s.entries ==> s.entries[id].maxInFlight == 16 && s.entries[id].inFlight <= 16
    ensures s.loop != Forwarding(id) && Pending(s, id) != [] ==> InFlight(s, id) == 16
    ensures !Enabled(s, SweepForward)
    ensures Enabled(s, Visit(id)) ==> Apply(s, Visit(id)).entries == s.entries
  {
    ReachableInv(s);
    if Enabled(s, Visit(id)) {
      assert s.entries[id := s.entries[id]] == s.entries;
    }
  }

  /** In a sweep, the entries marked are idle for too long and the ones already passed are not. */
  ghost predicate SweepInv(s: Node) {
    s.loop.Sweeping? || s.loop.SweepForwarding? ==>
      forall id :: id in s.entries && id !in s.loop.todo ==> (id in s.loop.dead <==> Stale(s.entries[id], s.loop.now))
  }

  lemma StepKeepsSweep(s: Node, a: Action)
    requires WindowInv(s) && SweepInv(s) && Enabled(s, a)
    ensures SweepInv(Apply(s, a))
  {
    if !a.Visit? && !a.Erase? && !a.SweepForward? && !a.EndIterate? {
      assert Apply(s, a).loop.Sweeping? || Apply(s, a).loop.SweepForwarding? ==> Apply(s, a).entries == s.entries;
    }
  }

  lemma {:induction false} RunKeepsSweep(s: Node, acts: seq<Action>, z: Node)
    requires WindowInv(s) && SweepInv(s) && Runs(s, acts, z)
    ensures SweepInv(z)
    decreases |acts|
  {
    if acts != [] {
      StepKeepsSweep(s, acts[0]);
      StepKeepsWindow(s, acts[0]);
      RunKeepsSweep(Apply(s, acts[0]), acts[1..], z);
    }
  }

  /** A sweep that other threads interrupt evicts exactly the entries that were idle for more than 60
      seconds when it started: none of the others, and none of these is left when it ends. */
  lemma SweepEvictsTheIdle(s: Node, id: Id)
    requires Reachable(s)
    ensures Enabled(s, Erase(id)) ==> s.loop.now - s.entries[id].lastUpdate > 60_000_000_000
    ensures Enabled(s, EndSweep) && id in s.entries ==> s.loop.now - s.entries[id].lastUpdate <= 60_000_000_000
  {
    var s0, acts :| Initial(s0) && Runs(s0, acts, s);
    InitialInv(s0);
    RunKeepsSweep(s0, acts, s);
    ReachableInv(s);
  }

  /** Whatever the other threads do between two pushes, the forwarding loop of the loop thread leaves the
      window of the file as the handler of `ChunkWindow` does in one go, and all other windows alone. */
  lemma {:induction false} ForwardingIsToppingUp(s: Node, acts: seq<Action>, z: Node)
    requires Runs(s, acts, z) && forall a :: a in acts ==> !a.EndForward?
    requires s.loop.Forwarding? && s.loop.id in s.entries
    ensures z.loop == s.loop && s.loop.id in z.entries
    ensures ToppedUp(z.entries[s.loop.id]) == ToppedUp(s.entries[s.loop.id])
    ensures forall id :: id != s.loop.id ==> Find(z.entries, id) == Find(s.entries, id)
    ensures Enabled(z, EndForward) ==> z.entries == s.entries[s.loop.id := ToppedUp(s.entries[s.loop.id])]
    decreases |acts|
  {
    if acts != [] {
      var m := Apply(s, acts[0]);
      assert acts[0] in acts;
      ForwardingStep(s, acts[0]);
      ForwardingIsToppingUp(m, acts[1..], z);
    }
    SameEntries(s.entries, z.entries, s.loop.id);
  }

  lemma ForwardingStep(s: Node, a: Action)
    requires Enabled(s, a) && !a.EndForward? && s.loop.Forwarding? && s.loop.id in s.entries
    ensures Apply(s, a).loop == s.loop && s.loop.id in Apply(s, a).entries
    ensures ToppedUp(Apply(s, a).entries[s.loop.id]) == ToppedUp(s.entries[s.loop.id])
    ensures forall id :: id != s.loop.id ==> Find(Apply(s, a).entries, id) == Find(s.entries, id)
  {
    if a.Forward? {
      var e := s.entries[s.loop.id];
      assert Room(ForwardOne(e)) == Room(e) - 1;
      assert e.pending[1..][Room(e) - 1..] == e.pending[Room(e)..];
    } else {
      assert Apply(s, a).entries == s.entries;
    }
  }

  lemma SameEntries(m: Entries, n: Entries, k: Id)
    requires k in m && k in n && forall id :: id != k ==> Find(n, id) == Find(m, id)
    ensures n == m[k := n[k]]
    ensures !CanForward(n[k]) ==> ToppedUp(n[k]) == n[k]
  {
    forall id ensures id in n <==> id in m[k := n[k]] {
      if id != k { assert Find(n, id) == Find(m, id); }
    }
    forall id | id in n ensures n[id] == m[k := n[k]][id] {
      if id != k { assert Find(n, id) == Find(m, id); }
    }
  }

  /** Chunk requests of `id` that the work thread ran without an answer: the end of the file, an inactive or
      unknown transfer, one of the wrong kind, or a read error. */
  function Unanswered(ran: seq<Ran>, id: Id): nat {
    if ran == [] then 0
    else
      var last := ran[|ran| - 1];
      Unanswered(ran[..|ran| - 1], id) +
      if last.event.Request? && last.event.id == id && last.reply.None? then 1 else 0
  }

  /** The request that a message answers, if it is a chunk. */
  function AnswerTo(m: SendMsg): seq<Event> {
    if m.SendChunk? then [Request(m.id, ChunkRequest(m.pos, |m.data|))] else []
  }

  /** The requests that the messages answer. */
  function Answered(q: seq<SendMsg>): seq<Event> {
    if q == [] then [] else Answered(q[..|q| - 1]) + AnswerTo(q[|q| - 1])
  }

  lemma {:induction false} AnsweredConcat(a: seq<SendMsg>, b: seq<SendMsg>)
    ensures Answered(a + b) == Answered(a) + Answered(b)
  {
    if b == [] {
      assert a + b == a;
    } else {
      assert (a + b)[..|a + b| - 1] == a + b[..|b| - 1];
      AnsweredConcat(a, b[..|b| - 1]);
    }
  }

  /** A chunk answers the request that was run, with its position and size; nothing else makes one. */
  lemma ReplyMatches(t: Option<Transfer>, e: Event, x: Outside)
    ensures var r := RunOne(t, e, x).reply;
            r.Some? ==> !r.value.FileSend? && r.value.id == e.id && AnswerTo(r.value) == if e.Request? then [e] else []
  {
  }

  /** A reply belongs to the closure that made it: a chunk answers its request. */
  predicate Matches(r: Ran) {
    r.reply.Some? ==>
      && !r.reply.value.FileSend? && r.reply.value.id == r.event.id
      && AnswerTo(r.reply.value) == if r.event.Request? then [r.event] else []
  }

  lemma MatchesHolds(ran: seq<Ran>, k: nat)
    requires k < |ran| && ConsistentAt(ran, k)
    ensures Matches(ran[k])
  {
    ReplyMatches(TransferAfter(ran[..k], ran[k].event.id), ran[k].event, ran[k].outside);
  }

  lemma ConsistentPrefix(ran: seq<Ran>)
    requires Consistent(ran) && ran != []
    ensures Consistent(ran[..|ran| - 1])
    ensures var init, last := ran[..|ran| - 1], ran[|ran| - 1];
            var o := RunOne(TransferAfter(init, last.event.id), last.event, last.outside);
            last.reply == o.reply && last.saved == o.saved
  {
    var init := ran[..|ran| - 1];
    forall k | 0 <= k < |init| ensures ConsistentAt(init, k) {
      assert ConsistentAt(ran, k) && init[..k] == ran[..k] && init[k] == ran[k];
    }
    assert ConsistentAt(ran, |init|);
  }

  /** One closure adds the same request to those run and to those answered or left unanswered. */
  lemma {:induction false} OneMoreRun(init: seq<Ran>, last: Ran, id: Id)
    requires Matches(last)
    ensures var js, cs := Pick(Jobs(init), id, true), Chunks(Replies(init), id);
            if !Concerns(last.event, id, true) then
              Pick(Jobs(init + [last]), id, true) == js && Chunks(Replies(init + [last]), id) == cs
            else
              && Pick(Jobs(init + [last]), id, true) == js + [last.event]
              && (last.reply.None? ==> Chunks(Replies(init + [last]), id) == cs)
              && (last.reply.Some? ==> Chunks(Replies(init + [last]), id) == cs + [last.reply.value] &&
                                       AnswerTo(last.reply.value) == [last.event])
  {
    var ran := init + [last];
    assert ran[..|ran| - 1] == init;
    JobsSnoc(init, last);
    PickSnoc(Jobs(init), last.event, id, true);
    if last.reply.Some? {
      ChunksSnoc(Replies(init), last.reply.value, id);
    } else {
      assert Replies(init) + [] == Replies(init);
    }
  }

  lemma {:induction false} RequestsRun(ran: seq<Ran>, id: Id)
    requires forall r :: r in ran ==> Matches(r)
    ensures |Pick(Jobs(ran), id, true)| == Unanswered(ran, id) + |Chunks(Replies(ran), id)|
    ensures Subseq(Answered(Chunks(Replies(ran), id)), Pick(Jobs(ran), id, true))
  {
    if ran != [] {
      var init, last := ran[..|ran| - 1], ran[|ran| - 1];
      assert ran == init + [last] && last in ran;
      forall r | r in init ensures r in ran {}
      RequestsRun(init, id);
      OneMoreRun(init, last, id);
      if Concerns(last.event, id, true) {
        var cs := Chunks(Replies(init), id);
        SubseqSnoc(Answered(cs), Pick(Jobs(init), id, true), last.event);
        if last.reply.Some? {
          assert (cs + [last.reply.value])[..|cs|] == cs;
        }
      }
    }
  }

  lemma {:induction false} PickChain(s: Node, id: Id, r: bool)
    ensures Pick(Chain(s), id, r) ==
            Pick(Jobs(s.ran), id, r) + Pick(s.workQ, id, r) + Pick(AsSeq(s.msgHand), id, r) + Pick(s.recvQ, id, r)
            + Pick(LoopHand(s), id, r)
  {
    PickConcat(Jobs(s.ran), s.workQ, id, r);
    PickConcat(Jobs(s.ran) + s.workQ, AsSeq(s.msgHand), id, r);
    PickConcat(Jobs(s.ran) + s.workQ + AsSeq(s.msgHand), s.recvQ, id, r);
    PickConcat(Jobs(s.ran) + s.workQ + AsSeq(s.msgHand) + s.recvQ, LoopHand(s), id, r);
  }

  lemma {:induction false} ChunksDown(s: Node, id: Id)
    ensures Chunks(Down(s), id) == Chunks(s.given, id) + Chunks(s.sendQ, id) + Chunks(AsSeq(s.workHand), id)
  {
    ChunksConcat(s.given, s.sendQ, id);
    ChunksConcat(s.given + s.sendQ, AsSeq(s.workHand), id);
  }

  /** The loop thread never holds a request between two queues. */
  ghost predicate NoRequestInHand(s: Node) {
    s.loop.Emit? ==> !s.loop.e.Request?
  }

  /** Errors never reach the work thread. */
  ghost predicate NoErrors(s: Node) {
    && (forall k :: 0 <= k < |s.workQ| ==> !s.workQ[k].Error?)
    && (s.msgHand.Some? ==> !s.msgHand.value.Error?)
    && (forall k :: 0 <= k < |s.ran| ==> !s.ran[k].event.Error?)
  }

  lemma WorkKeepsNoErrors(s: Node, a: Action)
    requires NoErrors(s) && Enabled(s, a) && (a.RunWork? || a.PutWork? || a.TakeMsg? || a.UserRegister?)
    ensures NoErrors(Apply(s, a))
  {
    var z := Apply(s, a);
    if a.RunWork? {
      assert z.workQ == s.workQ[1..];
    } else if a.TakeMsg? {
      assert z.workQ == s.workQ && z.ran == s.ran;
    }
  }

  lemma StepKeepsNoErrors(s: Node, a: Action)
    requires NoErrors(s) && Enabled(s, a)
    ensures NoErrors(Apply(s, a))
  {
    if a.RunWork? || a.PutWork? || a.TakeMsg? || a.UserRegister? {
      WorkKeepsNoErrors(s, a);
    } else {
      assert Apply(s, a).ran == s.ran && Apply(s, a).workQ == s.workQ && Apply(s, a).msgHand == s.msgHand;
    }
  }

  lemma {:induction false} RunKeepsHand(s: Node, acts: seq<Action>, z: Node)
    requires NoRequestInHand(s) && NoErrors(s) && Runs(s, acts, z)
    ensures NoRequestInHand(z) && NoErrors(z)
    decreases |acts|
  {
    if acts != [] {
      StepKeepsNoErrors(s, acts[0]);
      RunKeepsHand(Apply(s, acts[0]), acts[1..], z);
    }
  }

  /** What holds for one file from where its logs begin, be it the start of the node or later. */
  ghost predicate Sound(s: Node, id: Id) {
    && WindowInv(s) && FlowInv(ViewOf(s, id), id)
    && NoRequestInHand(s) && NoErrors(s)
    && (forall r :: r in s.ran ==> Matches(r))
    && (forall k :: 0 <= k < |s.ran| && s.ran[k].event.id == id ==> ConsistentAt(s.ran, k))
    && Find(s.ctrl.transfers, id) == TransferAfter(s.ran, id)
  }

  lemma AllMatch(ran: seq<Ran>)
    requires Consistent(ran)
    ensures forall r :: r in ran ==> Matches(r)
  {
    forall k | 0 <= k < |ran| ensures Matches(ran[k]) { MatchesHolds(ran, k); }
  }

  lemma HandsHold(s: Node)
    requires Reachable(s)
    ensures NoRequestInHand(s) && NoErrors(s)
  {
    var s0, acts :| Initial(s0) && Runs(s0, acts, s);
    RunKeepsHand(s0, acts, s);
  }

  lemma SoundHolds(s: Node, id: Id)
    requires Reachable(s)
    ensures Sound(s, id) && Spent(s, id) == 0
  {
    ReachableInv(s);
    assert FlowInv(ViewOf(s, id), id);
    AllMatch(s.ran);
    HandsHold(s);
  }

  /** Requests of `id` between the loop thread and the work thread, and chunks of `id` on the way back. */
  function UnderWay(s: Node, id: Id): nat {
    |Pick(s.recvQ, id, true)| + |Pick(AsSeq(s.msgHand), id, true)| + |Pick(s.workQ, id, true)| +
    |Chunks(AsSeq(s.workHand), id)| + |Chunks(s.sendQ, id)|
  }

  lemma {:induction false} Balance(s: Node, id: Id)
    requires Sound(s, id)
    ensures InFlight(s, id) + Forgotten(s.evicted, id) ==
            UnderWay(s, id) + Owed(s, id) + Unanswered(s.ran, id) + |Pick(s.ignored, id, true)| + Spent(s, id)
  {
    RequestsRun(s.ran, id);
    PickChain(s, id, true);
    ChunksDown(s, id);
    if s.loop.Emit? { PickOne(s.loop.e, id, true); }
  }

  /** Credit is conserved: what is out, with what evictions forgot, is under way, owed by the loop thread, or
      was used up by a request that got no answer or no callback. */
  lemma {:induction false} CreditConserved(s: Node, id: Id)
    requires Reachable(s)
    ensures InFlight(s, id) + Forgotten(s.evicted, id) ==
            UnderWay(s, id) + Owed(s, id) + Unanswered(s.ran, id) + |Pick(s.ignored, id, true)|
    ensures InFlight(s, id) >= -Forgotten(s.evicted, id)
  {
    SoundHolds(s, id);
    Balance(s, id);
  }

  lemma {:induction false} NothingForgotten(evicted: seq<Evicted>, id: Id)
    requires forall x :: x in evicted ==> x.id != id
    ensures Forgotten(evicted, id) == 0 && LostPending(evicted, id) == 0
  {
    if evicted != [] { NothingForgotten(evicted[..|evicted| - 1], id); }
  }

  /** Without an eviction of the file its credit stays between 0 and 16, and so does the traffic for it. */
  lemma {:induction false} CreditBounds(s: Node, id: Id)
    requires Reachable(s) && forall x :: x in s.evicted ==> x.id != id
    ensures 0 <= InFlight(s, id) <= 16
    ensures UnderWay(s, id) + Unanswered(s.ran, id) + |Pick(s.ignored, id, true)| <= 16
  {
    CreditConserved(s, id);
    NothingForgotten(s.evicted, id);
    WindowToppedUp(s, id);
  }

  lemma {:induction false} ExactHolds(s: Node, id: Id)
    requires Sound(s, id)
    requires RequestsLast(Pick(s.issued, id, false))
    requires Pick(s.ignored, id, false) == [] && LostPending(s.evicted, id) == 0
    ensures Pick(Chain(s), id, false) + Events(id, Pending(s, id)) == Pick(s.issued, id, false)
  {
  }

  lemma {:induction false} RepliesHold(s: Node, id: Id)
    requires Sound(s, id)
    ensures Chunks(Replies(s.ran), id) == Chunks(s.given, id) + Chunks(s.sendQ, id) + Chunks(AsSeq(s.workHand), id)
  {
    ChunksDown(s, id);
  }

  lemma DiskHolds(s: Node, path: string)
    requires Reachable(s)
    ensures DiskInv(s, path)
  {
    ReachableInv(s);
  }

  lemma {:induction false} FirstOfSix<T>(h: seq<T>, a: seq<T>, b: seq<T>, c: seq<T>, d: seq<T>, w: seq<T>, all: seq<T>)
    requires Subseq(h + a + b + c + d + w, all)
    ensures Subseq(h, all)
  {
    assert h + a + b + c + d + w == h + (a + b + c + d + w);
    SubseqPrefix(h, a + b + c + d + w, all);
  }

  lemma {:induction false} FirstOfThree<T>(h: seq<T>, a: seq<T>, b: seq<T>, all: seq<T>)
    requires Subseq(h + a + b, all)
    ensures Subseq(h, all)
  {
    assert h + a + b == h + (a + b);
    SubseqPrefix(h, a + b, all);
  }

  lemma {:induction false} HandledInOrder(s: Node, id: Id)
    requires Sound(s, id)
    ensures Subseq(Pick(Jobs(s.ran), id, true), Pick(s.issued, id, true))
  {
    PickChain(s, id, true);
    FirstOfSix(Pick(Jobs(s.ran), id, true), Pick(s.workQ, id, true), Pick(AsSeq(s.msgHand), id, true),
               Pick(s.recvQ, id, true), Pick(LoopHand(s), id, true), Events(id, Pending(s, id)),
               Pick(s.issued, id, true));
  }

  lemma {:induction false} GivenInOrder(s: Node, id: Id)
    requires Sound(s, id)
    ensures Subseq(Answered(Chunks(s.given, id)), Pick(Jobs(s.ran), id, true))
  {
    RepliesHold(s, id);
    RequestsRun(s.ran, id);
    var g, q, h := Chunks(s.given, id), Chunks(s.sendQ, id), Chunks(AsSeq(s.workHand), id);
    AnsweredConcat(g + q, h);
    AnsweredConcat(g, q);
    FirstOfThree(Answered(g), Answered(q), Answered(h), Pick(Jobs(s.ran), id, true));
  }

  /** The chunks given to toxcore answer, in order and with the same positions and sizes, a subsequence of
      the requests toxcore made, under every interleaving and with any evictions and dropped events. */
  lemma {:induction false} ChunksInOrder(s: Node, id: Id)
    requires Reachable(s)
    ensures Subseq(Answered(Chunks(s.given, id)), Pick(s.issued, id, true))
  {
    SoundHolds(s, id);
    HandledInOrder(s, id);
    GivenInOrder(s, id);
    SubseqTrans(Answered(Chunks(s.given, id)), Pick(Jobs(s.ran), id, true), Pick(s.issued, id, true));
  }

  lemma {:induction false} LostCount(s: Node, id: Id)
    requires Sound(s, id)
    ensures |Pick(s.issued, id, true)| ==
            |Pick(Chain(s), id, true)| + |Pending(s, id)| + |Pick(s.ignored, id, true)| + LostPending(s.evicted, id)
    ensures Pick(s.ignored, id, true) == [] && LostPending(s.evicted, id) == 0 ==>
              Pick(s.issued, id, true) == Pick(Chain(s), id, true) + Events(id, Pending(s, id))
  {
    var v := ViewOf(s, id);
    SubseqLength(Pick(v.chain, id, true) + v.waiting, Pick(v.issued, id, true));
  }

  /** No request disappears without being counted. If none was dropped for want of a callback or lost by an
      eviction, then those toxcore made are exactly those forwarded followed by those waiting, and the work
      thread has handled the first of them, in the order in which they were made. */
  lemma {:induction false} NothingLost(s: Node, id: Id)
    requires Reachable(s)
    ensures |Pick(s.issued, id, true)| ==
            |Pick(Chain(s), id, true)| + |Pending(s, id)| + |Pick(s.ignored, id, true)| + LostPending(s.evicted, id)
    ensures Pick(s.ignored, id, true) == [] && LostPending(s.evicted, id) == 0 ==>
              Pick(s.issued, id, true) == Pick(Chain(s), id, true) + Events(id, Pending(s, id))
    ensures Pick(s.ignored, id, true) == [] && LostPending(s.evicted, id) == 0 ==>
              Pick(Jobs(s.ran), id, true) <= Pick(s.issued, id, true)
  {
    SoundHolds(s, id);
    LostCount(s, id);
    PickChain(s, id, true);
  }
}
