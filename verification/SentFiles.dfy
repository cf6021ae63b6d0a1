/** From a call of `send_path` to the file on the other side: the closures that the call queues are the registrations
    of a node, and each file is subject to the round trip. */
module SentFiles {
  import opened Basics
  import opened FileEvents
  import opened Projection
  import opened Node
  import opened NodeInvariants
  import opened Quiescence
  import opened FileLog
  import opened FileUse
  import opened Script
  import opened RoundTrip
  import opened RoundTripLimits
  import SendPath

  /** The registrations of `id`, in their order. */
  function RegistersOf(q: seq<Event>, id: Id): seq<Event> {
    if q == [] then []
    else RegistersOf(q[..|q| - 1], id) + IfRegisters(q[|q| - 1], id)
  }

  function IfRegisters(e: Event, id: Id): seq<Event> {
    if e.Register? && e.id == id then [e] else []
  }

  lemma {:induction false} RegistersSnoc(q: seq<Event>, e: Event, id: Id)
    ensures RegistersOf(q + [e], id) == RegistersOf(q, id) + IfRegisters(e, id)
  {
    assert (q + [e])[..|q|] == q;
  }

  lemma {:induction false} NoRegisters(q: seq<Event>, id: Id)
    ensures RegistersOf(q, id) == [] <==> forall k :: 0 <= k < |q| ==> IfRegisters(q[k], id) == []
  {
    if q != [] {
      var init := q[..|q| - 1];
      NoRegisters(init, id);
      assert forall k :: 0 <= k < |init| ==> init[k] == q[k];
    }
  }

  /** What the other threads queue for `id` in a run. */
  function QueuedFor(acts: seq<Action>, id: Id): seq<Event> {
    if acts == [] then []
    else (if acts[0].UserRegister? then IfRegisters(acts[0].e, id) else []) + QueuedFor(acts[1..], id)
  }

  /** The closures that were handed to the work thread. */
  function Handed(s: Node): seq<Event> {
    Jobs(s.ran) + s.workQ
  }

  /** toxcore registers nothing. */
  ghost predicate NoneInbound(s: Node) {
    && (forall k :: 0 <= k < |s.recvQ| ==> !s.recvQ[k].Register?)
    && (s.msgHand.Some? ==> !s.msgHand.value.Register?)
    && (s.loop.Emit? ==> !s.loop.e.Register?)
  }

  lemma LoopHandsNone(s: Node, a: Action)
    requires NoneInbound(s) && Enabled(s, a)
    requires a.Forward? || a.SweepForward? || a.PushEmitted? || a.PopSend? || a.AskChunk? || a.Deliver?
    ensures NoneInbound(Apply(s, a))
  {
  }

  lemma StepHandsNone(s: Node, a: Action)
    requires NoneInbound(s) && Enabled(s, a)
    ensures NoneInbound(Apply(s, a))
  {
    var z := Apply(s, a);
    if a.Forward? || a.SweepForward? || a.PushEmitted? || a.PopSend? || a.AskChunk? || a.Deliver? {
      LoopHandsNone(s, a);
    } else if a.TakeMsg? {
      assert z.recvQ == s.recvQ[1..] && z.loop == s.loop;
    } else {
      assert z.recvQ == s.recvQ && (z.msgHand == s.msgHand || z.msgHand.None?) && (z.loop == s.loop || !z.loop.Emit?);
    }
  }

  lemma OneMoreHanded(s: Node, a: Action, e: Event)
    requires Enabled(s, a) && ((a.PutWork? && e == s.msgHand.value) || (a.UserRegister? && e == a.e))
    ensures Handed(Apply(s, a)) == Handed(s) + [e]
  {
  }

  lemma SameHanded(s: Node, a: Action)
    requires Enabled(s, a) && !a.PutWork? && !a.UserRegister?
    ensures Handed(Apply(s, a)) == Handed(s)
  {
    var z := Apply(s, a);
    if a.RunWork? {
      JobsSnoc(s.ran, z.ran[|s.ran|]);
      assert z.ran == s.ran + [z.ran[|s.ran|]] && z.workQ == s.workQ[1..];
      assert s.workQ == [s.workQ[0]] + s.workQ[1..];
    } else {
      OthersLeaveWork(s, a);
      assert z.workQ == s.workQ;
    }
  }

  lemma {:induction false} StepHands(s: Node, a: Action, id: Id)
    requires NoneInbound(s) && Enabled(s, a)
    ensures RegistersOf(Handed(Apply(s, a)), id) ==
            RegistersOf(Handed(s), id) + if a.UserRegister? then IfRegisters(a.e, id) else []
  {
    if a.PutWork? || a.UserRegister? {
      var e := if a.PutWork? then s.msgHand.value else a.e;
      OneMoreHanded(s, a, e);
      RegistersSnoc(Handed(s), e, id);
    } else {
      SameHanded(s, a);
    }
  }

  lemma {:induction false} RunHands(s: Node, acts: seq<Action>, z: Node, id: Id)
    requires NoneInbound(s) && Runs(s, acts, z)
    ensures NoneInbound(z) && RegistersOf(Handed(z), id) == RegistersOf(Handed(s), id) + QueuedFor(acts, id)
    decreases |acts|
  {
    if acts != [] {
      StepHandsNone(s, acts[0]);
      StepHands(s, acts[0], id);
      RunHands(Apply(s, acts[0]), acts[1..], z, id);
    }
  }

  lemma {:induction false} OneMoreJob(ran: seq<Ran>, r: Ran, id: Id)
    ensures RegistersOf(Jobs(ran + [r]), id) == RegistersOf(Jobs(ran), id) + IfRegisters(r.event, id)
  {
    JobsSnoc(ran, r);
    RegistersSnoc(Jobs(ran), r.event, id);
  }

  lemma {:induction false} OwnRegisters(ran: seq<Ran>, id: Id)
    ensures RegistersOf(Jobs(Own(ran, id)), id) == RegistersOf(Jobs(ran), id)
  {
    if ran != [] {
      var init, last := ran[..|ran| - 1], ran[|ran| - 1];
      OwnRegisters(init, id);
      assert ran == init + [last];
      OneMoreJob(init, last, id);
      if last.event.id == id {
        OneMoreJob(Own(init, id), last, id);
      } else {
        assert RegistersOf(Jobs(init), id) + [] == RegistersOf(Jobs(init), id);
      }
    }
  }

  lemma {:induction false} OnlyOne(q: seq<Event>, id: Id, reg: Event) returns (at: nat)
    requires RegistersOf(q, id) == [reg]
    ensures at < |q| && q[at] == reg
    ensures forall k :: 0 <= k < |q| ==> (IfRegisters(q[k], id) != [] <==> k == at)
  {
    var init, last := q[..|q| - 1], q[|q| - 1];
    if IfRegisters(last, id) == [] {
      assert RegistersOf(init, id) + [] == RegistersOf(init, id);
      at := OnlyOne(init, id, reg);
      assert q == init + [last];
    } else {
      at := |init|;
      assert (RegistersOf(init, id) + [last])[|RegistersOf(init, id)|] == last;
      NoRegisters(init, id);
      assert q == init + [last];
    }
  }

  lemma {:induction false} OneRegistration(own: seq<Ran>, id: Id, reg: Event) returns (at: nat)
    requires RegistersOf(Jobs(own), id) == [reg] && forall r :: r in own ==> r.event.id == id
    ensures RegisteredAt(own, at) && own[at].event == reg
  {
    at := OnlyOne(Jobs(own), id, reg);
    forall k | 0 <= k < |own| ensures own[k].event.Register? <==> k == at {
      assert Jobs(own)[k] == own[k].event && own[k] in own;
    }
  }

  lemma NoneInboundHolds(m: Node)
    requires Reachable(m)
    ensures NoneInbound(m)
  {
    var s, acts :| Initial(s) && Runs(s, acts, m);
    RunHands(s, acts, m, Id(0, 0));
  }

  lemma {:induction false} FreeHasNone(m: Node, id: Id)
    requires Free(m, id)
    ensures RegistersOf(Handed(Forget(m, id)), id) == []
  {
    assert Handed(Forget(m, id)) == m.workQ;
    forall k | 0 <= k < |m.workQ| ensures IfRegisters(m.workQ[k], id) == [] {
      assert m.workQ[k] in m.workQ + AsSeq(m.msgHand) + m.recvQ + LoopHand(m);
    }
    NoRegisters(m.workQ, id);
  }

  /** At rest, the registrations that the work thread ran in a use of an id are those that were queued in it. */
  lemma {:induction false} QueuedAreRun(m: Node, acts: seq<Action>, a: Node, id: Id)
    requires Reachable(m) && Free(m, id) && Runs(Forget(m, id), acts, a) && Quiescent(a)
    ensures RegistersOf(Jobs(Own(a.ran, id)), id) == QueuedFor(acts, id)
  {
    NoneInboundHolds(m);
    FreeHasNone(m, id);
    RunHands(Forget(m, id), acts, a, id);
    assert Handed(a) == Jobs(a.ran);
    OwnRegisters(a.ran, id);
  }

  /** What is assumed of the sending node: as in `Offers`, but that the registration is the one queued by `send_path`
      is no assumption here. */
  ghost predicate Carries(a: Node, f: Link) {
    && Use(a, f.aid) && Tiles(f)
    && Pick(a.issued, f.aid, false) <= SenderScript(f)
    && Pick(a.ignored, f.aid, false) == []
    && LostPending(a.evicted, f.aid) == 0
    && (forall r :: r in Own(a.ran, f.aid) ==>
          if r.event.Register? then r.outside.file == Some(f.file) else r.outside.limit.None?)
  }

  /** The node runs, among others, the registration that `send_path` queued for its file `i`, and no other under the
      same id. */
  ghost predicate Launches(p: SendPath.State, i: nat, m: Node, acts: seq<Action>, a: Node, f: Link) {
    && SendPath.Reachable(p) && i < |p.closures| && i < |p.files|
    && f.aid == p.closures[i].id && f.apath == p.files[i].path && f.bpath == p.files[i].name
    && |f.file| == p.files[i].size
    && Reachable(m) && Free(m, f.aid) && Runs(Forget(m, f.aid), acts, a)
    && QueuedFor(acts, f.aid) == [p.closures[i]]
  }

  /** Then the file meets what `Offers` asks, with one registration. */
  lemma LaunchedIsOffered(p: SendPath.State, i: nat, m: Node, acts: seq<Action>, a: Node, f: Link) returns (at: nat)
    requires Launches(p, i, m, acts, a, f) && Carries(a, f) && Quiescent(a)
    ensures Offers(a, f) && RegisteredAt(Own(a.ran, f.aid), at)
    ensures Withheld(a, f.aid) == InFlight(m, f.aid) - Forgotten(a.evicted, f.aid)
  {
    var own := Own(a.ran, f.aid);
    var k := SendPath.FuturesPair(p, i);
    QueuedAreRun(m, acts, a, f.aid);
    OwnMembers(a.ran, f.aid);
    at := OneRegistration(own, f.aid, p.closures[i]);
    forall r | r in own && r.event.Register? ensures RegisteredAs(f, r) {
      var j :| 0 <= j < |own| && own[j] == r;
    }
    SameStart(Forget(m, f.aid), acts, a);
  }

  /** What the other side is told first is what the call pushed for the file, in the call of toxcore that assigned the
      id. */
  lemma AnnouncedAsPushed(p: SendPath.State, i: nat, m: Node, acts: seq<Action>, a: Node, f: Link) returns (k: nat)
    requires Launches(p, i, m, acts, a, f)
    ensures k < |p.calls| && p.calls[k] == SendPath.Call(SendPath.AskFor(p, i), SendPath.Assigned(f.aid))
    ensures Promised(f, Chunks(a.given, f.aid))[0] == Arrival(f, p.calls[k].queued.message)
  {
    k := SendPath.FuturesPair(p, i);
  }

  /** A file of a call of `send_path` for which everything was asked and carried has arrived, when both nodes are at
      rest, if and only if its registration was run before the script and fewer than 16 credits were out for the id
      that toxcore assigned it; or it is empty. */
  lemma SentFileArrivesIff(p: SendPath.State, i: nat, m: Node, acts: seq<Action>, a: Node, b: Node, f: Link)
    returns (at: nat)
    requires Launches(p, i, m, acts, a, f) && Carries(a, f) && Undisturbed(a, f)
    requires Receives(b, f, Chunks(a.given, f.aid))
    requires Quiescent(a) && Quiescent(b)
    requires |Pick(a.issued, f.aid, false)| > |f.parts|
    requires Pick(b.issued, f.bid, false) == Promised(f, Chunks(a.given, f.aid))
    ensures RegisteredAt(Own(a.ran, f.aid), at)
    ensures Find(b.ctrl.disk, f.bpath) == Some(f.file) <==> f.file == [] || (at == 0 && Withheld(a, f.aid) < 16)
  {
    at := LaunchedIsOffered(p, i, m, acts, a, f);
    ArrivesIff(a, b, f, at);
  }
}
