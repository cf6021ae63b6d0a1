/** A node at rest: what it has done with the requests of each file. */
module Quiescence {
  import opened Basics
  import opened Projection
  import opened Node
  import opened NodeInvariants
  import opened Conservation

  /** The loop thread is about to find its queue empty and nothing is under way anywhere. */
  predicate Quiescent(s: Node) {
    s.loop.Popping? && s.recvQ == s.workQ == [] && s.sendQ == [] && s.msgHand.None? && s.workHand.None?
  }

  lemma EmptyUnderWay(s: Node, id: Id)
    requires Quiescent(s)
    ensures UnderWay(s, id) == 0 && Owed(s, id) == 0 && Chain(s) == Jobs(s.ran)
  {
  }

  lemma {:induction false} RestBalance(s: Node, id: Id)
    requires Sound(s, id) && Quiescent(s)
    ensures var wasted := Unanswered(s.ran, id) + |Pick(s.ignored, id, true)| + Spent(s, id);
            && InFlight(s, id) + Forgotten(s.evicted, id) == wasted
            && InFlight(s, id) <= 16 && (Pending(s, id) != [] ==> InFlight(s, id) == 16)
  {
    Balance(s, id);
    EmptyUnderWay(s, id);
  }

  /** Then toxcore has every chunk that was made. */
  lemma {:induction false} RestGiven(s: Node, id: Id)
    requires Sound(s, id) && Quiescent(s)
    ensures Chunks(s.given, id) == Chunks(Replies(s.ran), id)
  {
    RepliesHold(s, id);
  }

  /** Then a file still has requests waiting only if 16 credits, and those that evictions forgot, were used up by
      requests without an answer. Each request was answered by a chunk that toxcore got, run without an answer,
      dropped for want of a callback, or lost by an eviction, or it still waits. */
  lemma {:induction false} StallCharacterised(s: Node, id: Id)
    requires Reachable(s) && Quiescent(s)
    ensures var wasted := Unanswered(s.ran, id) + |Pick(s.ignored, id, true)|;
            && InFlight(s, id) + Forgotten(s.evicted, id) == wasted
            && (Pending(s, id) != [] ==> wasted == 16 + Forgotten(s.evicted, id))
            && |Pick(s.issued, id, true)|
               == |Chunks(s.given, id)| + wasted + |Pending(s, id)| + LostPending(s.evicted, id)
  {
    SoundHolds(s, id);
    RestBalance(s, id);
    EmptyUnderWay(s, id);
    NothingLost(s, id);
    RepliesHold(s, id);
    RequestsRun(s.ran, id);
  }
}
