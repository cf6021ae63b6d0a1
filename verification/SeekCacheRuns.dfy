/** The seek cache in a running node: what the chunks that toxcore was given hold. */
module SeekCacheRuns {
  import opened Basics
  import opened FileEvents
  import opened TransferCtrl
  import opened SeekCache
  import opened Projection
  import opened Node
  import opened NodeInvariants
  import opened Conservation

  /** A request that gets as far as the stream. */
  predicate IsServed(t: Option<Transfer>, e: Event) {
    t.Some? && t.value.kind.Send? && t.value.active && e.Request? && e.req.size > 0
  }

  function AskedBy(r: Ran): Asked
    requires r.event.Request?
  {
    Asked(r.event.req, Contents(r.outside.file), r.outside.limit)
  }

  /** The requests for `id` served since its transfer was made. */
  function AskedSince(ran: seq<Ran>, id: Id): seq<Asked> {
    if ran == [] then []
    else
      var init, last := ran[..|ran| - 1], ran[|ran| - 1];
      var t := TransferAfter(init, id);
      if last.event.id != id then AskedSince(init, id)
      else if IsServed(t, last.event) then AskedSince(init, id) + [AskedBy(last)]
      else if t.None? then []
      else AskedSince(init, id)
  }

  /** The cache of a transfer is the count over just these requests. */
  ghost predicate Follows(t: Option<Transfer>, asked: seq<Asked>) {
    t.Some? && t.value.kind.Send? && t.value.stream.open ==> Stands(t.value, HeadAfter(asked))
  }

  lemma FollowsOne(t: Option<Transfer>, asked: seq<Asked>, r: Ran)
    requires Follows(t, asked)
    ensures var after := RunOne(t, r.event, r.outside).after;
            Follows(after, if IsServed(t, r.event) then asked + [AskedBy(r)] else if t.None? then [] else asked)
  {
    if IsServed(t, r.event) {
      var a := AskedBy(r);
      assert (asked + [a])[..|asked|] == asked;
      if t.value.stream.open { ServeOne(t.value, r.event.id, HeadAfter(asked), a); }
    }
  }

  lemma {:induction false} CacheFollows(ran: seq<Ran>, id: Id)
    ensures Follows(TransferAfter(ran, id), AskedSince(ran, id))
  {
    if ran != [] {
      var init, last := ran[..|ran| - 1], ran[|ran| - 1];
      CacheFollows(init, id);
      if last.event.id == id { FollowsOne(TransferAfter(init, id), AskedSince(init, id), last); }
    }
  }

  /** Only an open stream gives an answer. */
  lemma AnswersAreServed(t: Option<Transfer>, r: Ran)
    requires var o := RunOne(t, r.event, r.outside).reply; o.Some? && o.value.SendChunk?
    ensures IsServed(t, r.event) && t.value.stream.open
  {
  }

  /** Every chunk made in any run holds the bytes of the file at that moment, from where the head says. */
  lemma ReplyComesFromHead(s: Node, k: nat)
    requires Reachable(s) && k < |s.ran| && s.ran[k].reply.Some? && s.ran[k].reply.value.SendChunk?
    ensures s.ran[k].event.Request?
    ensures var id, a := s.ran[k].event.id, AskedBy(s.ran[k]);
            var from := From(HeadAfter(AskedSince(s.ran[..k], id)), Offset(a));
            from.Some? && s.ran[k].reply == Answer(id, a.req, Direct(from.value, a))
  {
    ReachableInv(s);
    assert ConsistentAt(s.ran, k);
    var r := s.ran[k];
    var t := TransferAfter(s.ran[..k], r.event.id);
    AnswersAreServed(t, r);
    CacheFollows(s.ran[..k], r.event.id);
    ServeOne(t.value, r.event.id, HeadAfter(AskedSince(s.ran[..k], r.event.id)), AskedBy(r));
  }

  lemma {:induction false} ReplyWasMade(ran: seq<Ran>, m: SendMsg) returns (k: nat)
    requires m in Replies(ran)
    ensures k < |ran| && ran[k].reply == Some(m)
  {
    if ran[|ran| - 1].reply == Some(m) {
      k := |ran| - 1;
    } else {
      k := ReplyWasMade(ran[..|ran| - 1], m);
    }
  }

  lemma GivenWasMade(s: Node, id: Id, m: SendMsg) returns (k: nat)
    requires Reachable(s) && m in Chunks(s.given, id)
    ensures k < |s.ran| && s.ran[k].reply == Some(m) && m.SendChunk? && m.id == id
    ensures s.ran[k].event == Request(id, ChunkRequest(m.pos, |m.data|))
  {
    SoundHolds(s, id);
    RepliesHold(s, id);
    ChunksDown(s, id);
    assert m in Chunks(Replies(s.ran), id);
    ChunksAreChunks(Replies(s.ran), id);
    k := ReplyWasMade(s.ran, m);
    assert Matches(s.ran[k]);
  }

  /** A chunk that closure `k` made is one more served request, of what was on the disk behind its stream. */
  lemma ChunkWasServed(s: Node, k: nat)
    requires Reachable(s) && k < |s.ran| && s.ran[k].reply.Some? && s.ran[k].reply.value.SendChunk?
    ensures var r := s.ran[k];
            && r.event.Request?
            && AskedSince(s.ran[..k + 1], r.event.id) == AskedSince(s.ran[..k], r.event.id) + [AskedBy(r)]
    ensures LooksAt(s.ran, k).Some?
    ensures var path := LooksAt(s.ran, k).value;
            s.ran[k].outside.file == BytesAt(Find(s.firstDisk, path), s.ran[..k], path)
  {
    var r := s.ran[k];
    ReachableInv(s);
    assert ConsistentAt(s.ran, k);
    AnswersAreServed(TransferAfter(s.ran[..k], r.event.id), r);
    assert s.ran[..k + 1][..k] == s.ran[..k];
    var path := LooksAt(s.ran, k).value;
    DiskHolds(s, path);
    assert Sees(Find(s.firstDisk, path), s.ran, k, path);
  }

  /** A forward request is answered from its own offset. */
  lemma {:induction false} ForwardChunk(asked: seq<Asked>, a: Asked, id: Id, m: SendMsg)
    requires GoesForward(asked + [a]) && m.SendChunk?
    requires var from := From(HeadAfter(asked), Offset(a));
             from.Some? && Some(m) == Answer(id, a.req, Direct(from.value, a))
    ensures m.pos + |m.data| <= |a.file| && m.data == a.file[m.pos..m.pos + |m.data|]
  {
    var all := asked + [a];
    assert all[..|all| - 1] == asked && all[|all| - 1] == a;
    ForwardInit(all);
    EndNotNegative(asked);
    ForwardIsPlaced(asked, Offset(a));
  }

  /** In every reachable state: a chunk that toxcore was given for requests that go forward, with gaps and read
      errors, since the transfer was made, holds the bytes that the file had at its own position when it was read. */
  lemma GivenHoldTheFile(s: Node, id: Id, m: SendMsg) returns (k: nat)
    requires Reachable(s) && m in Chunks(s.given, id)
    ensures k < |s.ran| && s.ran[k].reply == Some(m) && m.SendChunk?
    ensures s.ran[k].event == Request(id, ChunkRequest(m.pos, |m.data|))
    ensures var file := Contents(s.ran[k].outside.file);
            GoesForward(AskedSince(s.ran[..k + 1], id)) ==>
              m.pos + |m.data| <= |file| && m.data == file[m.pos..m.pos + |m.data|]
    ensures LooksAt(s.ran, k).Some?
    ensures var path := LooksAt(s.ran, k).value;
            s.ran[k].outside.file == BytesAt(Find(s.firstDisk, path), s.ran[..k], path)
  {
    k := GivenWasMade(s, id, m);
    ReplyComesFromHead(s, k);
    ChunkWasServed(s, k);
    if GoesForward(AskedSince(s.ran[..k + 1], id)) {
      ForwardChunk(AskedSince(s.ran[..k], id), AskedBy(s.ran[k]), id, m);
    }
  }
}
