/** The life of one transfer: when it exists, of which kind, and whether it is active. */
module Lifecycle {
  import opened Basics
  import opened FileEvents
  import opened TransferCtrl
  import opened Node
  import opened NodeInvariants

  datatype Life = Absent | Live(kind: Kind, active: bool)

  /** The rules, without streams, positions or replies. */
  function Next(l: Life, e: Event): Life {
    match e
    case Register(_, _, _) => if l.Absent? then Live(Send, false) else l
    case Receive(_, _, _) => if l.Absent? then Live(Recv, true) else l
    case Control(_, Cancel) => Absent
    case Control(_, c) => if l.Live? then l.(active := c.Resume?) else l
    case Request(_, req) => if l == Live(Send, true) && req.size == 0 then Absent else l
    case Chunk(_, _, data) => if l == Live(Recv, true) && data == [] then Absent else l
    case Error(_) => l
  }

  function LifeAfter(events: seq<Event>, id: Id): Life {
    if events == [] then Absent
    else
      var l := LifeAfter(events[..|events| - 1], id);
      if events[|events| - 1].id == id then Next(l, events[|events| - 1]) else l
  }

  function LifeOf(t: Option<Transfer>): Life {
    match t
    case None => Absent
    case Some(tr) => Live(tr.kind, tr.active)
  }

  /** The transfers follow the rules: neither the file contents nor read and write errors have a say. */
  lemma {:induction false} TransfersFollowRules(ran: seq<Ran>, id: Id)
    ensures LifeOf(TransferAfter(ran, id)) == LifeAfter(Jobs(ran), id)
  {
    if ran != [] {
      var init := ran[..|ran| - 1];
      TransfersFollowRules(init, id);
      assert Jobs(ran)[..|ran| - 1] == Jobs(init);
    }
  }

  /** In every reachable state the transfer of each file is where the closures run so far put it. */
  lemma {:induction false} LifeOfReachable(s: Node, id: Id)
    requires Reachable(s)
    ensures LifeOf(Find(s.ctrl.transfers, id)) == LifeAfter(Jobs(s.ran), id)
  {
    ReachableInv(s);
    TransfersFollowRules(s.ran, id);
    assert Find(s.ctrl.transfers, id) == TransferAfter(s.ran, id);
  }

  /** What the last control for `id` says, or `start` if there is none. */
  function LastControl(start: bool, events: seq<Event>, id: Id): bool {
    if events == [] then start
    else
      var e := events[|events| - 1];
      if e.id == id && e.Control? then e.control.Resume?
      else LastControl(start, events[..|events| - 1], id)
  }

  /** Since its registration a transfer is active exactly if the last control was a resume; before the first
      control a sent file is inactive and a received one is active. */
  lemma {:induction false} ActiveIsLastControl(before: seq<Event>, first: Event, after: seq<Event>, id: Id)
    requires LifeAfter(before, id).Absent? && first.id == id && (first.Register? || first.Receive?)
    requires forall k :: 0 <= k <= |after| ==> LifeAfter(before + [first] + after[..k], id).Live?
    ensures LifeAfter(before + [first] + after, id) ==
            Live(if first.Register? then Send else Recv, LastControl(first.Receive?, after, id))
    decreases |after|
  {
    var all := before + [first] + after;
    if after == [] {
      assert all[..|all| - 1] == before;
    } else {
      var init := after[..|after| - 1];
      assert all[..|all| - 1] == before + [first] + init;
      assert after[..|after|] == after;
      forall k | 0 <= k <= |init| ensures init[..k] == after[..k] {}
      ActiveIsLastControl(before, first, init, id);
    }
  }

  /** Chunks are read only for an active transfer of the sending kind, files are written only for an active
      one of the receiving kind, or emptied by the start of a reception. */
  lemma OnlyActiveTransfersMove(s: Node, k: nat)
    requires Reachable(s) && k < |s.ran|
    ensures var l, r := LifeAfter(Jobs(s.ran)[..k], s.ran[k].event.id), s.ran[k];
            && (r.reply.Some? && r.reply.value.SendChunk? ==> l == Live(Send, true) && r.event.Request?)
            && (r.saved.Some? && !r.event.Receive? ==> l == Live(Recv, true) && r.event.Chunk?)
  {
    ReachableInv(s);
    var r := s.ran[k];
    TransfersFollowRules(s.ran[..k], r.event.id);
    assert Jobs(s.ran[..k]) == Jobs(s.ran)[..k];
    assert ConsistentAt(s.ran, k);
  }

  /** A transfer ends exactly by a cancel, by the empty request of an active sender, or by the empty chunk of an active
      receiver; and nothing but a registration or a reception under a free id makes one. */
  lemma {:induction false} BeginsAndEnds(ran: seq<Ran>, k: nat)
    requires k < |ran|
    ensures var e, before, after := ran[k].event, TransferAfter(ran[..k], ran[k].event.id),
                                    TransferAfter(ran[..k + 1], ran[k].event.id);
            && (before.Some? ==>
                  (after.None? <==>
                   || (e.Control? && e.control.Cancel?)
                   || (e.Request? && e.req.size == 0 && before.value.active && before.value.kind.Send?)
                   || (e.Chunk? && e.data == [] && before.value.active && before.value.kind.Recv?)))
            && (before.None? ==> (after.Some? <==> e.Register? || e.Receive?))
            && (before.None? && (e.Register? || e.Receive?) ==>
                  && after.value.kind == (if e.Register? then Send else Recv) && after.value.active == e.Receive?
                  && after.value.stream.path == e.path && after.value.total == e.size
                  && after.value.stream.open == ran[k].outside.file.Some? && after.value.progress == 0
                  && after.value.stream.failed == !after.value.stream.open)
  {
    assert ran[..k + 1][..k] == ran[..k];
  }

  /** A transfer whose file could not be opened exists like any other, but nothing is sent or stored for it. */
  lemma {:induction false} UnopenedMovesNothing(s: Node, k: nat)
    requires Reachable(s) && k < |s.ran|
    requires var t := TransferAfter(s.ran[..k], s.ran[k].event.id); t.Some? && !t.value.stream.open
    ensures s.ran[k].reply.None?
    ensures !s.ran[k].event.Receive? ==> s.ran[k].saved.None?
  {
    ReachableInv(s);
    assert ConsistentAt(s.ran, k);
  }

  lemma {:induction false} AbsentStays(before: seq<Event>, after: seq<Event>, id: Id)
    requires LifeAfter(before, id).Absent?
    requires forall e :: e in after && e.id == id ==> !e.Register? && !e.Receive?
    ensures LifeAfter(before + after, id).Absent?
    decreases |after|
  {
    if after == [] {
      assert before + after == before;
    } else {
      var init := after[..|after| - 1];
      assert (before + after)[..|before + after| - 1] == before + init;
      assert after[|after| - 1] in after;
      AbsentStays(before, init, id);
    }
  }

  /** After a cancel or an end of file has been run, no chunk is sent or stored for the file until it is
      registered or received again. */
  lemma {:induction false} NothingAfterTheEnd(s: Node, id: Id, j: nat, k: nat)
    requires Reachable(s) && j <= k < |s.ran|
    requires LifeAfter(Jobs(s.ran)[..j], id).Absent?
    requires forall i :: j <= i <= k && s.ran[i].event.id == id ==>
                           !s.ran[i].event.Register? && !s.ran[i].event.Receive?
    ensures s.ran[k].event.id == id ==>
              s.ran[k].saved.None? && (s.ran[k].reply.Some? ==> !s.ran[k].reply.value.SendChunk?)
  {
    var jobs := Jobs(s.ran);
    forall e | e in jobs[j..k] && e.id == id ensures !e.Register? && !e.Receive? {
      var i :| j <= i < k && jobs[i] == e;
    }
    assert jobs[..j] + jobs[j..k] == jobs[..k];
    AbsentStays(jobs[..j], jobs[j..k], id);
    OnlyActiveTransfersMove(s, k);
  }

  /** A resume that is run before the registration is lost: without a further control nothing is ever sent,
      however many requests come. */
  lemma {:induction false} EarlyResumeIsLost(s: Node, id: Id, reg: nat)
    requires Reachable(s) && reg < |s.ran|
    requires s.ran[reg].event.Register? && s.ran[reg].event.id == id
    requires LifeAfter(Jobs(s.ran)[..reg], id).Absent?
    requires forall i :: reg < i < |s.ran| && s.ran[i].event.id == id ==> s.ran[i].event.Request?
    ensures forall i :: reg < i < |s.ran| && s.ran[i].event.id == id ==> s.ran[i].reply.None?
  {
    var jobs := Jobs(s.ran);
    forall i | reg < i < |s.ran| && s.ran[i].event.id == id ensures s.ran[i].reply.None? {
      StaysInactive(jobs[..reg], jobs[reg], jobs[reg + 1..i], id);
      assert jobs[..reg] + [jobs[reg]] + jobs[reg + 1..i] == jobs[..i];
      OnlyActiveTransfersMove(s, i);
      ReachableInv(s);
      assert ConsistentAt(s.ran, i);
    }
  }

  lemma {:induction false} StaysInactive(before: seq<Event>, reg: Event, after: seq<Event>, id: Id)
    requires LifeAfter(before, id).Absent? && reg.Register? && reg.id == id
    requires forall e :: e in after && e.id == id ==> e.Request?
    ensures LifeAfter(before + [reg] + after, id) == Live(Send, false)
    decreases |after|
  {
    var all := before + [reg] + after;
    if after == [] {
      assert all[..|all| - 1] == before;
    } else {
      var init := after[..|after| - 1];
      assert all[..|all| - 1] == before + [reg] + init;
      assert after[|after| - 1] in after;
      StaysInactive(before, reg, init, id);
    }
  }

  /** The transfer that a registration under a fresh id makes is the one of its own file, and stays it whatever else
      is run in between, until the file is cancelled or ends. It is open exactly if the file could be opened. */
  lemma {:induction false} FreshIdsKeepTheirFile(ran: seq<Ran>, reg: nat)
    requires reg < |ran| && ran[reg].event.Register?
    requires TransferAfter(ran[..reg], ran[reg].event.id).None?
    requires forall k :: reg < k < |ran| && ran[k].event.id == ran[reg].event.id ==> !Ends(ran[k].event)
    ensures var e, t := ran[reg].event, TransferAfter(ran, ran[reg].event.id);
            && t.Some? && t.value.kind.Send? && t.value.stream.path == e.path && t.value.total == e.size
            && t.value.stream.open == ran[reg].outside.file.Some?
    decreases |ran|
  {
    var init := ran[..|ran| - 1];
    if reg < |init| {
      assert init[..reg] == ran[..reg] && init[reg] == ran[reg];
      FreshIdsKeepTheirFile(init, reg);
    } else {
      assert init == ran[..reg];
    }
  }

  /** The events that remove a sending transfer. */
  predicate Ends(e: Event) {
    (e.Control? && e.control.Cancel?) || (e.Request? && e.req.size == 0)
  }

  /** What of a transfer never changes: its kind, its file and whether this could be opened. */
  predicate SameFile(t: Option<Transfer>, u: Option<Transfer>) {
    && t.Some? && u.Some? && t.value.kind == u.value.kind && t.value.total == u.value.total
    && t.value.stream.path == u.value.stream.path && t.value.stream.open == u.value.stream.open
  }

  /** The events that may remove a transfer of either kind. */
  predicate MayEnd(e: Event) {
    Ends(e) || (e.Chunk? && e.data == [])
  }

  /** A transfer keeps its file, whatever is registered or received under its id, until it ends. */
  lemma {:induction false} TransfersKeepTheirFile(ran: seq<Ran>, from: nat, id: Id)
    requires from <= |ran| && TransferAfter(ran[..from], id).Some?
    requires forall k :: from <= k < |ran| && ran[k].event.id == id ==> !MayEnd(ran[k].event)
    ensures SameFile(TransferAfter(ran, id), TransferAfter(ran[..from], id))
    decreases |ran|
  {
    if from < |ran| {
      var init := ran[..|ran| - 1];
      assert init[..from] == ran[..from];
      TransfersKeepTheirFile(init, from, id);
    } else {
      assert ran[..from] == ran;
    }
  }

  /** A registration makes the transfer of its id, until this ends, if and only if the id was free, or had a transfer
      of just that file anyway. Under a taken id it is lost, and the transfer that was there goes on. */
  lemma {:induction false} RegistrationCountsIff(ran: seq<Ran>, reg: nat)
    requires reg < |ran| && ran[reg].event.Register?
    requires forall k :: reg < k < |ran| && ran[k].event.id == ran[reg].event.id ==> !MayEnd(ran[k].event)
    ensures var e, before, t := ran[reg].event, TransferAfter(ran[..reg], ran[reg].event.id),
                                TransferAfter(ran, ran[reg].event.id);
            var own := Some(Opened(Send, e.path, e.size, ran[reg].outside.file.Some?));
            && (SameFile(t, own) <==> before.None? || SameFile(before, own))
            && (before.Some? ==> SameFile(t, before))
  {
    var e := ran[reg].event;
    assert ran[..reg + 1][..reg] == ran[..reg];
    TransfersKeepTheirFile(ran, reg + 1, e.id);
  }

  /** In every reachable state; and the open found what was on the disk at that moment. */
  lemma RegisteredFileIsThere(s: Node, reg: nat)
    requires Reachable(s) && reg < |s.ran| && s.ran[reg].event.Register?
    requires TransferAfter(s.ran[..reg], s.ran[reg].event.id).None?
    requires forall k :: reg < k < |s.ran| && s.ran[k].event.id == s.ran[reg].event.id ==> !Ends(s.ran[k].event)
    ensures var e, t, found := s.ran[reg].event, Find(s.ctrl.transfers, s.ran[reg].event.id), s.ran[reg].outside.file;
            && t.Some? && t.value.kind.Send? && t.value.stream.path == e.path && t.value.total == e.size
            && t.value.stream.open == found.Some?
            && found == if s.ran[reg].opens then BytesAt(Find(s.firstDisk, e.path), s.ran[..reg], e.path) else None
  {
    ReachableInv(s);
    FreshIdsKeepTheirFile(s.ran, reg);
    var e := s.ran[reg].event;
    assert Find(s.ctrl.transfers, e.id) == TransferAfter(s.ran, e.id);
    assert DiskInv(s, e.path);
    assert Sees(Find(s.firstDisk, e.path), s.ran, reg, e.path);
  }
}
