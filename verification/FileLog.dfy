/** The closures of one file among all that a node ran, and what they say about the node. */
module FileLog {
  import opened Basics
  import opened FileEvents
  import opened Projection
  import opened ChunkWindow
  import opened Node
  import opened NodeInvariants
  import opened Conservation
  import opened Quiescence

  function Own(ran: seq<Ran>, id: Id): seq<Ran> {
    if ran == [] then []
    else
      var init, last := Own(ran[..|ran| - 1], id), ran[|ran| - 1];
      if last.event.id == id then init + [last] else init
  }

  lemma {:induction false} OwnMembers(ran: seq<Ran>, id: Id)
    ensures forall r :: r in Own(ran, id) ==> r in ran && r.event.id == id
  {
    if ran != [] { OwnMembers(ran[..|ran| - 1], id); }
  }

  lemma {:induction false} OwnTransfer(ran: seq<Ran>, id: Id)
    ensures TransferAfter(Own(ran, id), id) == TransferAfter(ran, id)
  {
    if ran != [] {
      var init, last := ran[..|ran| - 1], ran[|ran| - 1];
      OwnTransfer(init, id);
      WorkSnoc(Own(init, id), last);
    }
  }

  lemma {:induction false} OwnConsistent(ran: seq<Ran>, id: Id)
    requires forall k :: 0 <= k < |ran| && ran[k].event.id == id ==> ConsistentAt(ran, k)
    ensures Consistent(Own(ran, id))
  {
    if ran != [] {
      var init, last := ran[..|ran| - 1], ran[|ran| - 1];
      forall k | 0 <= k < |init| && init[k].event.id == id ensures ConsistentAt(init, k) {
        assert ConsistentAt(ran, k) && init[..k] == ran[..k] && init[k] == ran[k];
      }
      OwnConsistent(init, id);
      if last.event.id == id {
        assert ConsistentAt(ran, |init|);
        OwnTransfer(init, id);
        ConsistentSnoc(Own(init, id), last);
      }
    }
  }

  lemma {:induction false} OwnProjections(ran: seq<Ran>, id: Id)
    requires forall r :: r in ran ==> Matches(r)
    ensures Pick(Jobs(Own(ran, id)), id, false) == Pick(Jobs(ran), id, false)
    ensures Chunks(Replies(Own(ran, id)), id) == Chunks(Replies(ran), id)
  {
    if ran != [] {
      var init, last := ran[..|ran| - 1], ran[|ran| - 1];
      assert ran == init + [last] && last in ran;
      forall r | r in init ensures r in ran {}
      OwnProjections(init, id);
      OwnLogs(init, last, id);
    }
  }

  lemma {:induction false} OwnLogs(init: seq<Ran>, last: Ran, id: Id)
    requires Matches(last)
    requires Pick(Jobs(Own(init, id)), id, false) == Pick(Jobs(init), id, false)
    requires Chunks(Replies(Own(init, id)), id) == Chunks(Replies(init), id)
    ensures Pick(Jobs(Own(init + [last], id)), id, false) == Pick(Jobs(init + [last]), id, false)
    ensures Chunks(Replies(Own(init + [last], id)), id) == Chunks(Replies(init + [last]), id)
  {
    var ran := init + [last];
    assert ran[..|ran| - 1] == init;
    JobsSnoc(init, last);
    PickSnoc(Jobs(init), last.event, id, false);
    ChunksConcat(Replies(init), AsSeq(last.reply), id);
    if last.event.id == id {
      JobsSnoc(Own(init, id), last);
      PickSnoc(Jobs(Own(init, id)), last.event, id, false);
      ChunksConcat(Replies(Own(init, id)), AsSeq(last.reply), id);
    } else {
      assert Own(ran, id) == Own(init, id);
      assert last.reply.Some? ==> AsSeq(last.reply)[1..] == [];
    }
  }

  lemma {:induction false} OneMoreReply(own: seq<Ran>, r: Ran, id: Id)
    ensures Chunks(Replies(own + [r]), id) == Chunks(Replies(own), id) + Chunks(AsSeq(r.reply), id)
  {
    JobsSnoc(own, r);
    ChunksConcat(Replies(own), AsSeq(r.reply), id);
  }

  lemma SeesPrefix(first: Option<seq<Byte>>, ran: seq<Ran>, path: string)
    requires AllSee(first, ran, path) && ran != []
    ensures AllSee(first, ran[..|ran| - 1], path) && Sees(first, ran, |ran| - 1, path)
  {
    var init := ran[..|ran| - 1];
    forall k | 0 <= k < |init| ensures Sees(first, init, k, path) {
      assert Sees(first, ran, k, path) && init[..k] == ran[..k] && init[k] == ran[k];
    }
  }

  /** From position `skip` on the closures are the first steps of a script. */
  ghost predicate Follow(own: seq<Ran>, skip: nat, script: seq<Event>) {
    && skip <= |own| <= skip + |script|
    && forall k :: skip <= k < |own| ==> own[k].event == script[k - skip]
  }

  lemma FollowsPrefix(own: seq<Ran>, skip: nat, script: seq<Event>)
    requires skip <= |own| && Jobs(own[skip..]) <= script
    ensures Follow(own, skip, script)
  {
    var js := Jobs(own[skip..]);
    forall k | skip <= k < |own| ensures own[k].event == script[k - skip] {
      assert js[k - skip] == own[skip..][k - skip].event == own[k].event;
    }
  }

  lemma FollowInit(own: seq<Ran>, skip: nat, script: seq<Event>)
    requires Follow(own, skip, script) && skip < |own|
    ensures Follow(own[..|own| - 1], skip, script) && own[|own| - 1].event == script[|own| - 1 - skip]
  {
  }

  lemma {:induction false} PickAll(q: seq<Event>, id: Id)
    requires forall e :: e in q ==> Concerns(e, id, false)
    ensures Pick(q, id, false) == q
  {
    if q != [] { PickAll(q[1..], id); }
  }

  lemma {:induction false} PickTwice(q: seq<Event>, id: Id)
    ensures Pick(Pick(q, id, false), id, true) == Pick(q, id, true)
  {
    if q != [] {
      PickTwice(q[1..], id);
      if Concerns(q[0], id, false) {
        assert Pick(q, id, false)[1..] == Pick(q[1..], id, false);
      } else {
        assert Pick(q, id, false) == Pick(q[1..], id, false);
      }
    }
  }

  lemma {:induction false} PickNoLonger(q: seq<Event>, id: Id, r: bool)
    ensures |Pick(q, id, r)| <= |q|
  {
    if q != [] { PickNoLonger(q[1..], id, r); }
  }

  lemma {:induction false} PickNone(q: seq<Event>, id: Id)
    requires forall e :: e in q ==> !e.Request?
    ensures Pick(q, id, true) == []
  {
    if q != [] { PickNone(q[1..], id); }
  }

  lemma FirstPart<T>(h: seq<T>, a: seq<T>, b: seq<T>, c: seq<T>, d: seq<T>, w: seq<T>)
    ensures h <= h + a + b + c + d + w
  {
  }

  /** While requests come last, the work thread has run a prefix of what toxcore issued for the file. */
  lemma {:induction false} HandledPrefix(s: Node, id: Id)
    requires Sound(s, id)
    requires RequestsLast(Pick(s.issued, id, false))
    requires Pick(s.ignored, id, false) == [] && LostPending(s.evicted, id) == 0
    ensures Pick(Jobs(s.ran), id, false) <= Pick(s.issued, id, false)
    ensures Quiescent(s) && Pending(s, id) == [] ==> Pick(Jobs(s.ran), id, false) == Pick(s.issued, id, false)
  {
    ExactHolds(s, id);
    PickChain(s, id, false);
    FirstPart(Pick(Jobs(s.ran), id, false), Pick(s.workQ, id, false), Pick(AsSeq(s.msgHand), id, false),
              Pick(s.recvQ, id, false), Pick(LoopHand(s), id, false), Events(id, Pending(s, id)));
    if Quiescent(s) && Pending(s, id) == [] {
      EmptyUnderWay(s, id);
      assert Events(id, Pending(s, id)) == [];
    }
  }

  /** The path of a receiving transfer is one that a reception named. */
  lemma {:induction false} PathWasNamed(ran: seq<Ran>, id: Id)
    ensures var t := TransferAfter(ran, id);
            t.Some? && t.value.kind.Recv? ==>
              exists r :: r in ran && r.event.Receive? && r.event.id == id && r.event.path == t.value.stream.path
  {
    if ran != [] { PathWasNamed(ran[..|ran| - 1], id); }
  }

  lemma SaveIsNamed(ran: seq<Ran>, k: nat)
    requires Consistent(ran) && k < |ran| && ran[k].saved.Some?
    ensures exists r :: r in ran && r.event.Receive? && r.event.id == ran[k].event.id &&
                        r.event.path == ran[k].saved.value.path
  {
    var r := ran[k];
    PathWasNamed(ran[..k], r.event.id);
    assert ConsistentAt(ran, k) && r in ran;
  }

  /** In the whole history of a node: if no other file is received to the path, none is written there. */
  lemma SavesElsewhere(ran: seq<Ran>, id: Id, path: string)
    requires Consistent(ran)
    requires forall r :: r in ran && r.event.Receive? && r.event.id != id ==> r.event.path != path
    ensures OnlyOwnSaves(ran, id, path)
  {
    forall k | 0 <= k < |ran| && ran[k].event.id != id && ran[k].saved.Some?
      ensures ran[k].saved.value.path != path
    {
      SaveIsNamed(ran, k);
    }
  }

  lemma {:induction false} OwnSaves(ran: seq<Ran>, id: Id, path: string)
    requires OnlyOwnSaves(ran, id, path)
    ensures LastSaved(ran, path) == LastSaved(Own(ran, id), path)
  {
    if ran != [] {
      var init, last := ran[..|ran| - 1], ran[|ran| - 1];
      forall r | r in init ensures r in ran {}
      assert last in ran;
      OwnSaves(init, id, path);
      if last.event.id == id { WorkSnoc(Own(init, id), last); }
    }
  }

  /** What is on the disk at `path`, and what the closures of the file found there. */
  ghost predicate DiskSound(s: Node, id: Id, path: string) {
    var first := Find(s.firstDisk, path);
    && Find(s.ctrl.disk, path) == BytesAt(first, s.ran, path)
    && forall k :: 0 <= k < |s.ran| && s.ran[k].event.id == id ==> Sees(first, s.ran, k, path)
  }

  /** Nothing but the file itself is written to the path. */
  ghost predicate OnlyOwnSaves(ran: seq<Ran>, id: Id, path: string) {
    forall r :: r in ran && r.event.id != id && r.saved.Some? ==> r.saved.value.path != path
  }

  /** The file's own log looks at the path as the whole log does, if nobody else saves there. */
  lemma {:induction false} OwnSees(first: Option<seq<Byte>>, ran: seq<Ran>, id: Id, path: string)
    requires forall k :: 0 <= k < |ran| && ran[k].event.id == id ==> Sees(first, ran, k, path)
    requires OnlyOwnSaves(ran, id, path)
    ensures AllSee(first, Own(ran, id), path)
  {
    if ran != [] {
      var init, last := ran[..|ran| - 1], ran[|ran| - 1];
      forall r | r in init ensures r in ran {}
      forall k | 0 <= k < |init| && init[k].event.id == id ensures Sees(first, init, k, path) {
        assert Sees(first, ran, k, path) && init[..k] == ran[..k] && init[k] == ran[k];
      }
      OwnSees(first, init, id, path);
      if last.event.id == id {
        var own := Own(init, id);
        assert Sees(first, ran, |init|, path);
        OwnTransfer(init, id);
        OwnSaves(init, id, path);
        assert (own + [last])[..|own|] == own;
        SeesSnoc(first, own, last, path);
      }
    }
  }

  /** What the file's own log says about the disk, if nobody else saves there. */
  lemma {:induction false} OwnDisk(s: Node, id: Id, path: string)
    requires DiskSound(s, id, path) && OnlyOwnSaves(s.ran, id, path)
    ensures var first, own := Find(s.firstDisk, path), Own(s.ran, id);
            AllSee(first, own, path) && Find(s.ctrl.disk, path) == BytesAt(first, own, path)
  {
    OwnSaves(s.ran, id, path);
    OwnSees(Find(s.firstDisk, path), s.ran, id, path);
  }

  /** What the file's own log says about the node. */
  lemma {:induction false} OwnHolds(s: Node, id: Id)
    requires Sound(s, id)
    ensures var own := Own(s.ran, id);
            && Consistent(own)
            && (forall r :: r in own ==> r in s.ran && r.event.id == id && !r.event.Error?)
            && TransferAfter(own, id) == TransferAfter(s.ran, id)
            && Pick(Jobs(own), id, false) == Pick(Jobs(s.ran), id, false)
            && Chunks(Replies(own), id) == Chunks(Replies(s.ran), id)
  {
    OwnMembers(s.ran, id);
    OwnTransfer(s.ran, id);
    OwnConsistent(s.ran, id);
    OwnProjections(s.ran, id);
  }

  /** The only registration among the file's closures is the one at `at`. */
  ghost predicate RegisteredAt(own: seq<Ran>, at: nat) {
    at < |own| && forall k :: 0 <= k < |own| ==> (own[k].event.Register? <==> k == at)
  }

  /** Behind a registration, the closures of a file are the events that came from toxcore. */
  lemma {:induction false} JobsBehind(own: seq<Ran>, skip: nat, id: Id)
    requires skip <= |own| && skip <= 1 && (skip == 1 ==> own[0].event.Register?)
    requires forall r :: r in own ==> r.event.id == id && !r.event.Error?
    requires forall k :: skip <= k < |own| ==> !own[k].event.Register?
    ensures Pick(Jobs(own), id, false) == Jobs(own[skip..])
  {
    var rest := own[skip..];
    forall e | e in Jobs(rest) ensures Concerns(e, id, false) {
      var k :| 0 <= k < |rest| && Jobs(rest)[k] == e;
      assert own[k + skip] == rest[k] && rest[k] in own;
    }
    PickAll(Jobs(rest), id);
    if skip == 1 {
      assert Jobs(own) == [own[0].event] + Jobs(rest);
      PickConcat([own[0].event], Jobs(rest), id, false);
      PickOne(own[0].event, id, false);
    } else {
      assert rest == own;
    }
  }

  lemma {:induction false} NoRequests(b: Node, id: Id)
    requires Sound(b, id) && forall e :: e in Pick(b.issued, id, false) ==> !e.Request?
    ensures RequestsLast(Pick(b.issued, id, false)) && Pending(b, id) == [] && LostPending(b.evicted, id) == 0
  {
    RequestsLastHolds(Pick(b.issued, id, false));
    PickTwice(b.issued, id);
    PickNone(Pick(b.issued, id, false), id);
    LostCount(b, id);
  }
}
