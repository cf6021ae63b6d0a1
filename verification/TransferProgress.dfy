/** How far a transfer of a running node has got: its progress counter follows the chunks it has moved. */
module TransferProgress {
  import opened Basics
  import opened FileEvents
  import opened Progress
  import opened TransferCtrl
  import opened Node
  import opened NodeInvariants
  import opened StoredFiles

  /** The closure moved a chunk in full: its request was answered, or it was stored and left the stream good. */
  predicate Moved(t: Option<Transfer>, r: Ran) {
    || (r.event.Request? && r.reply.Some?)
    || (IsStored(t, r.event) &&
        var after := RunOne(t, r.event, r.outside).after;
        after.Some? && !after.value.stream.failed)
  }

  /** The bytes of the file that a request or a chunk is about. */
  function SpanOf(e: Event): Span
    requires e.Request? || e.Chunk?
  {
    match e
    case Request(_, req) => Span(req.pos, req.size)
    case Chunk(_, pos, data) => Span(pos, |data|)
  }

  /** What was moved for `id` since its transfer was made. */
  function MovedSince(ran: seq<Ran>, id: Id): seq<Span> {
    if ran == [] then []
    else
      var init, last := ran[..|ran| - 1], ran[|ran| - 1];
      var t := TransferAfter(init, id);
      if last.event.id != id then MovedSince(init, id)
      else if t.None? then []
      else if Moved(t, last) then MovedSince(init, id) + [SpanOf(last.event)]
      else MovedSince(init, id)
  }

  lemma OneMoreMove(t: Option<Transfer>, r: Ran)
    requires r.reply == RunOne(t, r.event, r.outside).reply
    ensures var after := RunOne(t, r.event, r.outside).after;
            after.Some? ==>
              after.value.progress ==
              if t.None? then 0
              else if Moved(t, r) then Advance(t.value.progress, SpanOf(r.event))
              else t.value.progress
  {
  }

  lemma {:induction false} ProgressFollows(ran: seq<Ran>, id: Id)
    requires Consistent(ran)
    ensures var t := TransferAfter(ran, id);
            t.Some? ==> t.value.progress == AdvanceAll(0, MovedSince(ran, id))
  {
    if ran != [] {
      var init, last := ran[..|ran| - 1], ran[|ran| - 1];
      assert forall k :: 0 <= k < |init| ==> init[..k] == ran[..k];
      forall k | 0 <= k < |init| ensures ConsistentAt(init, k) { assert ConsistentAt(ran, k); }
      ProgressFollows(init, id);
      if last.event.id == id {
        assert ConsistentAt(ran, |init|);
        OneMoreMove(TransferAfter(init, id), last);
        if last.event.Request? || last.event.Chunk? { AdvanceSnoc(MovedSince(init, id), SpanOf(last.event)); }
      }
    }
  }

  lemma {:induction false} AdvanceSnoc(cs: seq<Span>, c: Span)
    ensures AdvanceAll(0, cs + [c]) == Advance(AdvanceAll(0, cs), c)
  {
    assert (cs + [c])[..|cs|] == cs;
  }

  /** In every reachable state, with any gaps, repeats and failures: the progress of a transfer is the one after the
      chunks moved since it was made, those sent and those stored in full; a failed read or write does not count. While
      no end exceeds 64 bits it is the furthest of them. */
  lemma {:induction false} ProgressOfReachable(s: Node, id: Id)
    requires Reachable(s) && id in s.ctrl.transfers
    ensures var p, cs := s.ctrl.transfers[id].progress, MovedSince(s.ran, id);
            && p == AdvanceAll(0, cs)
            && ((forall c :: c in cs ==> Fits(c)) ==>
                  && (forall c :: c in cs ==> c.pos + c.size <= p)
                  && (p == 0 || exists c :: c in cs && p == c.pos + c.size))
  {
    ReachableInv(s);
    ProgressFollows(s.ran, id);
    assert Find(s.ctrl.transfers, id) == TransferAfter(s.ran, id);
    var cs := MovedSince(s.ran, id);
    if forall c :: c in cs ==> Fits(c) { ProgressIsFurthestEnd(cs); }
  }
}
