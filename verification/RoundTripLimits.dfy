/** What can keep a file from being sent: a registration that is run after the script has begun, credit that earlier
    uses of the id spent, and a change of the file on the disk. The last needs the file to be written, or emptied by a
    reception to its path; the others need nothing but the traffic of the file itself. */
module RoundTripLimits {
  import opened Basics
  import opened FileEvents
  import opened TransferCtrl
  import opened ChunkWindow
  import opened Projection
  import opened Node
  import opened NodeInvariants
  import opened Conservation
  import opened Quiescence
  import opened Lifecycle
  import opened FileLog
  import opened FileUse
  import opened Script
  import opened RoundTrip

  // The order of the registration and the script.

  /** Without its registration the file's closures are those of the script that were run. */
  lemma {:induction false} JobsAround(own: seq<Ran>, at: nat, id: Id)
    requires RegisteredAt(own, at)
    requires forall r :: r in own ==> r.event.id == id && !r.event.Error?
    ensures Pick(Jobs(own), id, false) == Jobs(own[..at]) + Jobs(own[at + 1..])
  {
    var before, reg, after := own[..at], own[at], own[at + 1..];
    assert Jobs(own) == Jobs(before) + [reg.event] + Jobs(after);
    PickMiddle(Jobs(before), reg.event, Jobs(after), id, false);
    assert own[0..at] == before && own[at + 1..|own|] == after;
    PartFromToxcore(own, at, 0, at, id);
    PartFromToxcore(own, at, at + 1, |own|, id);
  }

  lemma {:induction false} PartFromToxcore(own: seq<Ran>, at: nat, from: nat, to: nat, id: Id)
    requires RegisteredAt(own, at) && from <= to <= |own| && (to <= at || at < from)
    requires forall r :: r in own ==> r.event.id == id && !r.event.Error?
    ensures Pick(Jobs(own[from..to]), id, false) == Jobs(own[from..to])
  {
    forall r | r in own[from..to] ensures r.event.id == id && !r.event.Error? && !r.event.Register? {
      var k :| from <= k < to && own[k] == r;
    }
    AllFromToxcore(own[from..to], id);
  }

  lemma {:induction false} AllFromToxcore(rs: seq<Ran>, id: Id)
    requires forall r :: r in rs ==> r.event.id == id && !r.event.Error? && !r.event.Register?
    ensures Pick(Jobs(rs), id, false) == Jobs(rs)
  {
    forall e | e in Jobs(rs) ensures Concerns(e, id, false) {
      var k :| 0 <= k < |rs| && Jobs(rs)[k] == e;
      assert rs[k] in rs;
    }
    PickAll(Jobs(rs), id);
  }

  /** A late registration comes after the resumption, and after it there are requests only. */
  lemma LateShape(f: Link, own: seq<Ran>, at: nat)
    requires RegisteredAt(own, at) && at > 0
    requires Jobs(own[..at]) + Jobs(own[at + 1..]) <= SenderScript(f)
    ensures forall k :: 0 <= k < at ==> own[k].event.Control? || own[k].event.Request?
    ensures forall k :: at < k < |own| ==> own[k].event.Request?
  {
    var js := Jobs(own[..at]) + Jobs(own[at + 1..]);
    ScriptAt(f, 0);
    forall k | 0 <= k < at ensures own[k].event.Control? || own[k].event.Request? {
      assert js[k] == own[k].event;
      ScriptAt(f, k);
    }
    forall k | at < k < |own| ensures own[k].event.Request? {
      assert js[k - 1] == own[at + 1..][k - 1 - at].event == own[k].event;
      ScriptAt(f, k - 1);
    }
  }

  lemma {:induction false} NoneBefore(jobs: seq<Event>, id: Id)
    requires forall k :: 0 <= k < |jobs| ==> jobs[k].Control? || jobs[k].Request?
    ensures LifeAfter(jobs, id).Absent?
  {
    assert [] + jobs == jobs;
    AbsentStays([], jobs, id);
  }

  /** Before the registration there is no transfer, and after it the transfer stays inactive. */
  lemma {:induction false} LateLife(own: seq<Ran>, at: nat, k: nat, id: Id)
    requires RegisteredAt(own, at) && k < |own| && forall r :: r in own ==> r.event.id == id
    requires forall j :: 0 <= j < at ==> own[j].event.Control? || own[j].event.Request?
    requires forall j :: at < j < |own| ==> own[j].event.Request?
    ensures LifeAfter(Jobs(own[..k]), id) == if k <= at then Absent else Live(Send, false)
  {
    if k <= at {
      NoneBefore(Jobs(own[..k]), id);
    } else {
      var before, reg, after := Jobs(own[..at]), own[at].event, Jobs(own[at + 1..k]);
      NoneBefore(before, id);
      assert own[at] in own;
      forall e | e in after ensures e.Request? {
        var j :| 0 <= j < |after| && after[j] == e;
        assert after[j] == own[at + 1 + j].event;
      }
      StaysInactive(before, reg, after, id);
      assert before + [reg] + after == Jobs(own[..k]);
    }
  }

  lemma {:induction false} NoReplies(own: seq<Ran>)
    requires forall r :: r in own ==> r.reply.None?
    ensures Replies(own) == []
  {
    if own != [] {
      assert own[|own| - 1] in own;
      NoReplies(own[..|own| - 1]);
    }
  }

  lemma {:induction false} LateOwnIsSilent(f: Link, own: seq<Ran>, at: nat)
    requires Consistent(own) && RegisteredAt(own, at) && at > 0
    requires forall r :: r in own ==> r.event.id == f.aid
    requires Jobs(own[..at]) + Jobs(own[at + 1..]) <= SenderScript(f)
    ensures Replies(own) == []
  {
    LateShape(f, own, at);
    forall k | 0 <= k < |own| ensures own[k].reply.None? {
      LateLife(own, at, k, f.aid);
      TransfersFollowRules(own[..k], f.aid);
      assert own[k] in own && ConsistentAt(own, k);
    }
    NoReplies(own);
  }

  /** A file that is registered after the resumption was run is never answered. */
  lemma LateIsSilent(a: Node, f: Link, at: nat)
    requires Offers(a, f) && RegisteredAt(Own(a.ran, f.aid), at) && at > 0
    ensures Chunks(a.given, f.aid) == []
  {
    var own := Own(a.ran, f.aid);
    UseSound(a, f.aid);
    OwnHolds(a, f.aid);
    SenderHandled(a, f);
    JobsAround(own, at, f.aid);
    LateOwnIsSilent(f, own, at);
    RepliesHold(a, f.aid);
  }

  // Spent credit.

  lemma {:induction false} EvictedGrows(s: Node, acts: seq<Action>, z: Node)
    requires Runs(s, acts, z)
    ensures s.evicted <= z.evicted
    decreases |acts|
  {
    if acts != [] {
      EvictedStep(s, acts[0]);
      EvictedGrows(Apply(s, acts[0]), acts[1..], z);
    }
  }

  lemma EvictedStep(s: Node, a: Action)
    requires Enabled(s, a)
    ensures s.evicted <= Apply(s, a).evicted
  {
    if !a.Erase? { KeepsEvicted(s, a); }
  }

  /** With all credit spent nothing is under way, whatever has happened since the use began. */
  lemma NothingUnderWay(m: Node, s: Node, id: Id)
    requires Reachable(m) && Free(m, id) && Leads(Forget(m, id), s) && Spent(s, id) == 16
    requires forall x :: x in s.evicted ==> x.id != id
    ensures UnderWay(s, id) == 0
  {
    assert Use(s, id);
    UseSound(s, id);
    NothingForgotten(s.evicted, id);
    Balance(s, id);
  }

  lemma {:induction false} GivesOnlyQueued(s: Node, a: Action, id: Id)
    requires Enabled(s, a) && UnderWay(s, id) == 0
    ensures Chunks(Apply(s, a).given, id) == Chunks(s.given, id)
  {
    if a.PopSend? {
      ChunksSnoc(s.given, s.sendQ[0], id);
      assert Apply(s, a).given == s.given + [s.sendQ[0]];
    } else {
      assert Apply(s, a).given == s.given;
    }
  }

  lemma {:induction false} GivenStaysEmpty(m: Node, s: Node, acts: seq<Action>, z: Node, id: Id)
    requires Reachable(m) && Free(m, id) && Leads(Forget(m, id), s) && Runs(s, acts, z)
    requires Spent(s, id) == 16 && forall x :: x in z.evicted ==> x.id != id
    requires Chunks(s.given, id) == []
    ensures Chunks(z.given, id) == []
    decreases |acts|
  {
    if acts != [] {
      EvictedGrows(s, acts, z);
      NothingUnderWay(m, s, id);
      GivesOnlyQueued(s, acts[0], id);
      var n := Extend(Forget(m, id), s, acts[0]);
      SameStart(s, [acts[0]], n);
      GivenStaysEmpty(m, n, acts[1..], z, id);
    }
  }

  /** While 16 credits are withheld from a use of the id, toxcore is given nothing for it. */
  lemma {:induction false} SpentIsSilent(z: Node, id: Id)
    requires Use(z, id) && Withheld(z, id) == 16
    ensures Chunks(z.given, id) == []
  {
    EvictionForgives(z, id);
    var m :| Reachable(m) && Free(m, id) && Leads(Forget(m, id), z);
    var o := Forget(m, id);
    var acts :| Runs(o, acts, z);
    assert Leads(o, o) by { assert Runs(o, [], o); }
    SameStart(o, acts, z);
    GivenStaysEmpty(m, o, acts, z, id);
  }

  lemma {:induction false} AllRequests(q: seq<Event>, id: Id)
    requires forall k :: 0 <= k < |q| ==> Concerns(q[k], id, true)
    ensures Pick(q, id, true) == q
  {
    if q != [] { AllRequests(q[1..], id); }
  }

  lemma ScriptRequests(f: Link)
    ensures |Pick(SenderScript(f), f.aid, true)| == |f.parts| + 1
  {
    var q := SenderScript(f);
    ScriptAt(f, 0);
    forall k | 1 <= k < |q| ensures Concerns(q[k], f.aid, true) { ScriptAt(f, k); }
    assert q == [q[0]] + q[1..];
    PickConcat([q[0]], q[1..], f.aid, true);
    PickOne(q[0], f.aid, true);
    AllRequests(q[1..], f.aid);
  }

  lemma OneUnanswered(a: Node, f: Link)
    requires Sends(a, f) && Quiescent(a) && Withheld(a, f.aid) < 16
    requires Own(a.ran, f.aid) != [] && Pick(a.issued, f.aid, false) == SenderScript(f)
    ensures Unanswered(a.ran, f.aid) == 1
  {
    ScriptAt(f, 0);
    SenderDone(a, f);
    ScriptIsRun(a, f);
    UseSound(a, f.aid);
    RestGiven(a, f.aid);
    RequestsRun(a.ran, f.aid);
    PickTwice(Jobs(a.ran), f.aid);
    ScriptRequests(f);
  }

  lemma UseContinues(a: Node, id: Id) returns (n: Node)
    requires Use(a, id)
    ensures Reachable(n) && Forget(n, id) == Forget(a, id) && (Free(n, id) <==> Free(a, id))
  {
    var m :| Reachable(m) && Free(m, id) && Leads(Forget(m, id), a);
    UseIsReachable(m, a, id);
    RecallForgets(m, a, id);
    n := Recall(m, a);
  }

  /** Every file that is sent to its end costs its id one credit: the id is free again, and the next use of it begins
      with one more credit spent. */
  lemma FileCostsOneCredit(a: Node, f: Link) returns (n: Node)
    requires Sends(a, f) && Quiescent(a) && Withheld(a, f.aid) < 16
    requires Own(a.ran, f.aid) != [] && Pick(a.issued, f.aid, false) == SenderScript(f)
    ensures Reachable(n) && Free(n, f.aid) && Forget(n, f.aid) == Forget(a, f.aid)
    ensures Spent(Forget(n, f.aid), f.aid) == Withheld(a, f.aid) + 1
  {
    n := UseContinues(a, f.aid);
    ScriptAt(f, 0);
    SenderDone(a, f);
    NoRequestWaits(a, f);
    RestIsFree(a, f.aid);
    OneUnanswered(a, f);
    UseSound(a, f.aid);
    RestBalance(a, f.aid);
    PickTwice(a.ignored, f.aid);
  }

  // Lost requests.

  lemma PieceAnswers(f: Link, k: nat)
    requires Tiles(f) && k < |f.parts|
    ensures AnswerTo(SendChunk(f.aid, f.parts[k].pos, Piece(f, k))) == [Request(f.aid, f.parts[k])]
  {
    assert FollowsOn(f.parts, k);
    OffsetsGrow(f, k + 1, k + 1);
  }

  lemma {:induction false} AnsweredSent(f: Link, n: nat)
    requires Tiles(f) && n <= |f.parts|
    ensures Answered(ChunksSent(f, n)) == Events(f.aid, f.parts[..n])
  {
    if n > 0 {
      var sent, c := ChunksSent(f, n - 1), SendChunk(f.aid, f.parts[n - 1].pos, Piece(f, n - 1));
      AnsweredSent(f, n - 1);
      OneMoreSent(f, n - 1);
      PieceAnswers(f, n - 1);
      assert (sent + [c])[..|sent|] == sent;
      assert f.parts[..n] == f.parts[..n - 1] + [f.parts[n - 1]];
    }
  }

  /** If toxcore was given all pieces, the work thread ran the request for each, in order: as many requests as there are
      pieces were neither lost by an eviction, nor dropped for want of a callback, nor are waiting. */
  lemma {:induction false} AllGivenLosesNone(a: Node, f: Link)
    requires Use(a, f.aid) && Tiles(f) && Chunks(a.given, f.aid) == ChunksSent(f, |f.parts|)
    ensures Subseq(Events(f.aid, f.parts), Pick(Jobs(a.ran), f.aid, true))
    ensures |f.parts| + LostPending(a.evicted, f.aid) + |Pick(a.ignored, f.aid, true)| + |Pending(a, f.aid)|
            <= |Pick(a.issued, f.aid, true)|
  {
    UseSound(a, f.aid);
    AnsweredSent(f, |f.parts|);
    assert f.parts[..|f.parts|] == f.parts;
    GivenInOrder(a, f.aid);
    SubseqLength(Events(f.aid, f.parts), Pick(Jobs(a.ran), f.aid, true));
    LostCount(a, f.aid);
    PickChain(a, f.aid, true);
  }

  // When a file is sent, and when it arrives.

  lemma EmptyHasNoPieces(f: Link)
    requires Tiles(f) && f.file == []
    ensures f.parts == []
  {
    if f.parts != [] {
      assert FollowsOn(f.parts, 0);
      OffsetsGrow(f, 1, 1);
    }
  }

  /** Of an empty file there is nothing to find, and nothing is given. */
  lemma NoPiecesGiven(a: Node, f: Link, at: nat)
    requires Offers(a, f) && RegisteredAt(Own(a.ran, f.aid), at) && f.parts == []
    ensures Chunks(a.given, f.aid) == []
  {
    if at > 0 {
      LateIsSilent(a, f, at);
    } else {
      var own := Own(a.ran, f.aid);
      LogOfSender(a, f);
      forall k | 0 <= k < |own| ensures FoundAt(f, own[k]) {
        if k > 0 { ScriptAt(f, k - 1); }
      }
      GivenArePieces(a, f);
    }
  }

  /** At rest, with all pieces asked for, toxcore was given all of them if and only if the registration was run before
      the script, fewer than 16 credits are withheld, and each closure found its piece on the disk; or there are
      none. */
  lemma AllGivenIff(a: Node, f: Link, at: nat)
    requires Offers(a, f) && RegisteredAt(Own(a.ran, f.aid), at) && Quiescent(a)
    requires |Pick(a.issued, f.aid, false)| > |f.parts|
    ensures Chunks(a.given, f.aid) == ChunksSent(f, |f.parts|) <==>
            f.parts == [] || (at == 0 && Withheld(a, f.aid) < 16 && Found(f, Own(a.ran, f.aid)))
  {
    UseSound(a, f.aid);
    EvictionForgives(a, f.aid);
    if f.parts == [] {
      NoPiecesGiven(a, f, at);
    } else if at > 0 {
      LateIsSilent(a, f, at);
    } else if Withheld(a, f.aid) == 16 {
      SpentIsSilent(a, f.aid);
    } else if Found(f, Own(a.ran, f.aid)) {
      SenderDone(a, f);
    } else {
      var own := Own(a.ran, f.aid);
      LogOfSender(a, f);
      RestGiven(a, f.aid);
      var j :| 0 <= j < |own| && !FoundAt(f, own[j]);
      AllSentIsFound(f, own, j);
    }
  }

  lemma SilentLog(b: Node, f: Link)
    requires Tiles(f) && Receives(b, f, []) && Quiescent(b) && f.parts != []
    requires Pick(b.issued, f.bid, false) == Promised(f, [])
    ensures |Own(b.ran, f.bid)| == 1
  {
    assert ChunksSent(f, 0) == [];
    ReceiverHears(b, f, 0);
    UseSound(b, f.bid);
    HandledPrefix(b, f.bid);
    ReceiverProgress(b, f, 0);
    assert |Jobs(Own(b.ran, f.bid))| == 1;
  }

  /** A node that only hears of a file has it empty. */
  lemma SilentIsEmpty(b: Node, f: Link)
    requires Tiles(f) && f.file != [] && Receives(b, f, []) && Quiescent(b)
    requires Pick(b.issued, f.bid, false) == Promised(f, [])
    ensures Find(b.ctrl.disk, f.bpath) == Some([])
  {
    assert ChunksSent(f, 0) == [] && f.parts != [];
    SilentLog(b, f);
    ReceiverProgress(b, f, 0);
    assert f.file[..0] == [];
  }

  lemma EmptyArrives(b: Node, f: Link)
    requires Tiles(f) && f.file == [] && Receives(b, f, []) && Quiescent(b)
    requires Pick(b.issued, f.bid, false) == Promised(f, [])
    ensures Find(b.ctrl.disk, f.bpath) == Some(f.file)
  {
    EmptyHasNoPieces(f);
    assert ChunksSent(f, 0) == [];
    PromisedIsScript(f, 0);
    ReceiverDone(b, f);
  }

  /** When all pieces were asked for, what toxcore was given has been carried, and both nodes are at rest, a file that
      nothing disturbed has arrived if and only if its registration was run before the script and fewer than 16
      credits are withheld, or it is empty anyway. */
  lemma ArrivesIff(a: Node, b: Node, f: Link, at: nat)
    requires Offers(a, f) && Undisturbed(a, f) && RegisteredAt(Own(a.ran, f.aid), at)
    requires Receives(b, f, Chunks(a.given, f.aid))
    requires Quiescent(a) && Quiescent(b)
    requires |Pick(a.issued, f.aid, false)| > |f.parts|
    requires Pick(b.issued, f.bid, false) == Promised(f, Chunks(a.given, f.aid))
    ensures Find(b.ctrl.disk, f.bpath) == Some(f.file) <==> f.file == [] || (at == 0 && Withheld(a, f.aid) < 16)
  {
    if f.file == [] {
      EmptyHasNoPieces(f);
      NoPiecesGiven(a, f, at);
      EmptyArrives(b, f);
    } else if at > 0 {
      LateIsSilent(a, f, at);
      SilentIsEmpty(b, f);
    } else {
      EvictionForgives(a, f.aid);
      if Withheld(a, f.aid) == 16 {
        SpentIsSilent(a, f.aid);
        SilentIsEmpty(b, f);
      } else {
        UndisturbedIsFound(a, f);
        SenderDone(a, f);
        PromisedIsScript(f, |f.parts|);
        ReceiverDone(b, f);
      }
    }
  }
}
