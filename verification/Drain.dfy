/** What happens once toxcore and the command thread ask for nothing more. */
module Drain {
  import opened Basics
  import opened FileEvents
  import opened ChunkWindow
  import opened Node
  import opened NodeInvariants
  import opened Deadlock
  import opened Quiescence

  /** Steps that bring no new work into the node. */
  predicate Quiet(a: Action) {
    !a.AskChunk? && !a.Deliver? && !a.UserSend? && !a.UserRegister?
  }

  /** Steps that move a message from one place to the next. */
  predicate Moves(a: Action) {
    || a.PushEmitted? || a.Forward? || a.SweepForward? || a.PopSend?
    || a.TakeMsg? || a.PutWork? || a.RunWork? || a.PutSend?
  }

  /** All requests that wait for credit. */
  ghost function TotalPending(m: Entries): nat
    decreases |m|
  {
    if m == map[] then 0
    else
      var id :| id in m;
      assert |(m - {id}).Keys| < |m.Keys|;
      |m[id].pending| + TotalPending(m - {id})
  }

  lemma {:induction false} TotalWithout(m: Entries, id: Id)
    requires id in m
    ensures TotalPending(m) == |m[id].pending| + TotalPending(m - {id})
    decreases |m|
  {
    var first :| id in m && first in m && TotalPending(m) == |m[first].pending| + TotalPending(m - {first});
    if first != id {
      assert |(m - {first}).Keys| < |m.Keys| && |(m - {id}).Keys| < |m.Keys|;
      TotalWithout(m - {first}, id);
      TotalWithout(m - {id}, first);
      assert m - {first} - {id} == m - {id} - {first};
    }
  }

  lemma TotalAfterPut(m: Entries, id: Id, e: Entry)
    ensures TotalPending(m[id := e]) == |e.pending| + TotalPending(m - {id})
    ensures id !in m ==> TotalPending(m - {id}) == TotalPending(m)
  {
    TotalWithout(m[id := e], id);
    assert m[id := e] - {id} == m - {id};
    if id !in m { assert m - {id} == m; }
  }

  /** How many moves an event may still cause from recv_queue on. */
  function Cost(e: Event): nat {
    if e.Error? then 1 else 7
  }

  function QueueCost(q: seq<Event>): nat {
    if q == [] then 0 else Cost(q[0]) + QueueCost(q[1..])
  }

  lemma {:induction false} QueueCostSnoc(q: seq<Event>, e: Event)
    ensures QueueCost(q + [e]) == QueueCost(q) + Cost(e)
  {
    if q == [] {
      assert q + [e] == [e] && [e][1..] == [];
    } else {
      assert (q + [e])[1..] == q[1..] + [e];
      QueueCostSnoc(q[1..], e);
    }
  }

  /** An upper bound on the moves that are left. */
  ghost function Weight(s: Node): nat {
    8 * TotalPending(s.entries)
    + (if s.loop.Emit? then Cost(s.loop.e) + 1 else 0)
    + QueueCost(s.recvQ)
    + (if s.msgHand.Some? then 6 else 0) + 5 * |s.workQ|
    + (if s.workHand.Some? then 4 else 0) + 3 * |s.sendQ|
  }

  lemma ForwardLightens(s: Node, a: Action)
    requires Enabled(s, a) && (a.Forward? || a.SweepForward?)
    ensures Weight(Apply(s, a)) < Weight(s)
  {
    var id := s.loop.id;
    TotalWithout(s.entries, id);
    TotalAfterPut(s.entries, id, ForwardOne(s.entries[id]));
    QueueCostSnoc(s.recvQ, Request(id, s.entries[id].pending[0]));
  }

  lemma CreditWeighsNothing(m: Entries, id: Id, now: int, n: int)
    ensures TotalPending(m[id := EntryAt(m, id, now).(inFlight := n, lastUpdate := now)]) == TotalPending(m)
  {
    TotalAfterPut(m, id, EntryAt(m, id, now).(inFlight := n, lastUpdate := now));
    if id in m { TotalWithout(m, id); }
  }

  lemma PushLightens(s: Node)
    requires Enabled(s, PushEmitted)
    ensures Weight(Apply(s, PushEmitted)) < Weight(s)
  {
    QueueCostSnoc(s.recvQ, s.loop.e);
    if s.loop.credit.Some? {
      var id := s.loop.credit.value;
      CreditWeighsNothing(s.entries, id, s.time, EntryAt(s.entries, id, s.time).inFlight - 1);
    }
  }

  lemma PopLightens(s: Node, ok: bool)
    requires Enabled(s, PopSend(ok))
    ensures Weight(Apply(s, PopSend(ok))) < Weight(s)
  {
    if s.sendQ[0].SendChunk? {
      var id := s.sendQ[0].id;
      CreditWeighsNothing(s.entries, id, s.time, EntryAt(s.entries, id, s.time).inFlight - 1);
    }
  }

  lemma SweepWeighsNoMore(s: Node, a: Action)
    requires Enabled(s, a) && (a.Visit? || a.Erase?)
    ensures Weight(Apply(s, a)) <= Weight(s)
  {
    TotalWithout(s.entries, a.id);
    if a.Visit? && !Stale(s.entries[a.id], s.loop.now) {
      TotalAfterPut(s.entries, a.id, Doubled(s.entries[a.id]));
    }
  }

  lemma QueueLightens(s: Node, a: Action)
    requires Enabled(s, a) && (a.TakeMsg? || a.PutWork? || a.RunWork? || a.PutSend?)
    ensures Weight(Apply(s, a)) < Weight(s)
  {
    assert Apply(s, a).entries == s.entries && Apply(s, a).loop == s.loop;
  }

  lemma RestWeighsNoMore(s: Node, a: Action)
    requires Enabled(s, a)
    requires a.EndIterate? || a.EndForward? || a.EndSweepForward? || a.EndSweep? || a.PopTimeout? || a.Tick? ||
             a.SetCallback?
    ensures Weight(Apply(s, a)) <= Weight(s)
  {
    assert Apply(s, a).entries == s.entries;
  }

  /** A step that brings in no work adds no weight, and one that moves a message takes some away. */
  lemma StepLightens(s: Node, a: Action)
    requires Enabled(s, a) && Quiet(a)
    ensures Weight(Apply(s, a)) <= Weight(s) - if Moves(a) then 1 else 0
  {
    if a.Forward? || a.SweepForward? {
      ForwardLightens(s, a);
    } else if a.PushEmitted? {
      PushLightens(s);
    } else if a.PopSend? {
      PopLightens(s, a.ok);
    } else if a.Visit? || a.Erase? {
      SweepWeighsNoMore(s, a);
    } else if Moves(a) {
      QueueLightens(s, a);
    } else {
      RestWeighsNoMore(s, a);
    }
  }

  function CountMoves(acts: seq<Action>): nat {
    if acts == [] then 0 else (if Moves(acts[0]) then 1 else 0) + CountMoves(acts[1..])
  }

  /** However the threads interleave, and whatever is evicted, there are only so many moves left. */
  lemma {:induction false} MovesAreBounded(s: Node, acts: seq<Action>, z: Node)
    requires Runs(s, acts, z) && forall a :: a in acts ==> Quiet(a)
    ensures CountMoves(acts) + Weight(z) <= Weight(s)
    decreases |acts|
  {
    if acts != [] {
      assert acts[0] in acts;
      StepLightens(s, acts[0]);
      MovesAreBounded(Apply(s, acts[0]), acts[1..], z);
    }
  }

  /** How many steps of its own the loop thread is from its next pop. */
  function ToPop(s: Node): nat {
    var n := |s.entries.Keys|;
    match s.loop
    case Popping => 0
    case Sweeping(_, todo, dead) => 1 + 2 * |todo| + |dead|
    case SweepForwarding(_, _, todo, dead) => 2 + 2 * |todo| + |dead|
    case Iterate => 2 + 2 * n
    case Forwarding(_) => 3 + 2 * n
    case Emit(_, _) => 4 + 2 * n
  }

  /** Steps of the loop thread that move nothing, other than giving up on an empty queue. */
  predicate Idles(a: Action) {
    a.EndIterate? || a.EndForward? || a.Visit? || a.EndSweepForward? || a.Erase? || a.EndSweep?
  }

  lemma SmallerWithout(ids: set<Id>, id: Id)
    requires id in ids
    ensures |ids - {id}| == |ids| - 1
  {
  }

  lemma VisitStep(s: Node, id: Id)
    requires Enabled(s, Visit(id))
    ensures ToPop(Apply(s, Visit(id))) < ToPop(s)
  {
    var Sweeping(now, todo, dead) := s.loop;
    SmallerWithout(todo, id);
    if Stale(s.entries[id], now) {
      assert |dead + {id}| <= |dead| + 1;
    } else {
      assert Apply(s, Visit(id)).loop == SweepForwarding(id, now, todo - {id}, dead);
    }
  }

  lemma EraseStep(s: Node, id: Id)
    requires Enabled(s, Erase(id))
    ensures ToPop(Apply(s, Erase(id))) < ToPop(s)
  {
    SmallerWithout(s.loop.dead, id);
    assert Apply(s, Erase(id)).loop == Sweeping(s.loop.now, s.loop.todo, s.loop.dead - {id});
  }

  lemma IdleStep(s: Node, a: Action)
    requires Enabled(s, a) && Idles(a)
    ensures ToPop(Apply(s, a)) < ToPop(s)
  {
    if a.Visit? {
      VisitStep(s, a.id);
    } else if a.Erase? {
      EraseStep(s, a.id);
    } else {
      assert Apply(s, a) == s.(loop := Apply(s, a).loop);
    }
  }

  /** When the loop thread waits for messages and no message can be moved, then nothing is left to move. */
  lemma NoMoveMeansQuiescent(s: Node)
    requires s.loop.Popping?
    requires forall a :: Moves(a) ==> !Enabled(s, a)
    ensures Quiescent(s)
  {
    assert !Enabled(s, PopSend(true)) && !Enabled(s, PutSend) && !Enabled(s, RunWork(true, None));
    assert !Enabled(s, PutWork) && !Enabled(s, TakeMsg);
  }

  /** The threads have come to rest, other than for the loop thread polling an empty queue, exactly if nothing is
      left or if they block each other. */
  lemma AtRestIff(s: Node)
    requires Reachable(s)
    ensures (forall a :: Moves(a) || Idles(a) ==> !Enabled(s, a)) <==> Quiescent(s) || AllBlocked(s)
  {
    if forall a :: Moves(a) || Idles(a) ==> !Enabled(s, a) {
      if LoopBlocked(s) {
        assert !Enabled(s, TakeMsg) && !Enabled(s, PutWork) && !Enabled(s, RunWork(true, None)) && !Enabled(s, PutSend);
      } else {
        ReachableInv(s);
        var a := LoopStep(s);
        assert a.PopTimeout?;
        NoMoveMeansQuiescent(s);
      }
    }
  }

  // How long it takes.

  function ThreadSteps(acts: seq<Action>): nat {
    if acts == [] then 0 else (if OfThread(acts[0]) then 1 else 0) + ThreadSteps(acts[1..])
  }

  /** The steps left: after each of `Weight(s)` moves the loop thread may need one round over at most `n` entries. */
  ghost function StepsLeft(s: Node, n: nat): nat {
    Weight(s) * (5 + 2 * n) + ToPop(s)
  }

  lemma {:induction false} LessWeight(w: nat, v: nat, k: nat)
    requires v < w
    ensures v * k + k <= w * k
  {
    if w > v + 1 { LessWeight(w - 1, v, k); }
    assert w * k == (w - 1) * k + k;
  }

  lemma CreditIsFew(s: Node, id: Id)
    ensures |WithCredit(s, id).entries.Keys| <= |s.entries.Keys| + 1
  {
    assert WithCredit(s, id).entries.Keys == s.entries.Keys + {id};
  }

  lemma CreditsFew(s: Node, a: Action)
    requires Enabled(s, a) && (a.PushEmitted? || a.PopSend?)
    ensures |Apply(s, a).entries.Keys| <= |s.entries.Keys| + 1
  {
    if a.PushEmitted? {
      if s.loop.credit.Some? {
        CreditIsFew(s.(recvQ := s.recvQ + [s.loop.e], loop := Iterate), s.loop.credit.value);
      }
    } else if s.sendQ[0].SendChunk? && a.ok {
      CreditIsFew(s.(sendQ := s.sendQ[1..], given := s.given + [s.sendQ[0]]), s.sendQ[0].id);
    }
  }

  lemma SameKeys(s: Node, a: Action)
    requires Enabled(s, a) && Quiet(a) && !a.PushEmitted? && !a.PopSend? && !a.Erase?
    ensures Apply(s, a).entries.Keys == s.entries.Keys
  {
    if a.Visit? || a.Forward? || a.SweepForward? {
      var id := if a.Visit? then a.id else s.loop.id;
      assert Apply(s, a).entries.Keys == s.entries.Keys + {id};
    } else {
      assert Apply(s, a).entries == s.entries;
    }
  }

  /** A credit that comes back may make an entry, and nothing else does. */
  lemma FewEntries(s: Node, a: Action)
    requires Enabled(s, a) && Quiet(a)
    ensures |Apply(s, a).entries.Keys| + Weight(Apply(s, a)) <= |s.entries.Keys| + Weight(s)
  {
    StepLightens(s, a);
    if a.PushEmitted? || a.PopSend? {
      CreditsFew(s, a);
    } else if a.Erase? {
      assert Apply(s, a).entries.Keys == s.entries.Keys - {a.id};
      SmallerWithout(s.entries.Keys, a.id);
    } else {
      SameKeys(s, a);
    }
  }

  lemma StartsHandler(s: Node, a: Action)
    requires Enabled(s, a) && (a.PushEmitted? || a.PopSend?)
    ensures var z := Apply(s, a); ToPop(z) <= 4 + 2 * |z.entries.Keys|
  {
    var z := Apply(s, a);
    assert z.loop.Iterate? || z.loop.Forwarding? || z.loop.Emit?;
  }

  /** A move leaves the loop thread where it was or at the start of a handler. */
  lemma MoveToPop(s: Node, a: Action, n: nat)
    requires Enabled(s, a) && Moves(a) && |Apply(s, a).entries.Keys| <= n
    ensures ToPop(Apply(s, a)) <= ToPop(s) + 4 + 2 * n
  {
    if a.PushEmitted? || a.PopSend? {
      StartsHandler(s, a);
    } else {
      SameKeys(s, a);
      assert Apply(s, a).loop == s.loop;
    }
  }

  lemma MoveIsLess(s: Node, a: Action, n: nat)
    requires Enabled(s, a) && Quiet(a) && Moves(a) && |s.entries.Keys| + Weight(s) <= n
    ensures StepsLeft(Apply(s, a), n) < StepsLeft(s, n)
  {
    StepLightens(s, a);
    FewEntries(s, a);
    MoveToPop(s, a, n);
    LessWeight(Weight(s), Weight(Apply(s, a)), 5 + 2 * n);
  }

  lemma OneStepLess(s: Node, a: Action, n: nat)
    requires Enabled(s, a) && Quiet(a) && !a.PopTimeout? && |s.entries.Keys| + Weight(s) <= n
    ensures StepsLeft(Apply(s, a), n) + (if OfThread(a) then 1 else 0) <= StepsLeft(s, n)
  {
    if Moves(a) {
      MoveIsLess(s, a, n);
    } else {
      StepLightens(s, a);
      if Weight(Apply(s, a)) < Weight(s) { LessWeight(Weight(s), Weight(Apply(s, a)), 5 + 2 * n); }
      if Idles(a) { IdleStep(s, a); }
    }
  }

  /** Without new work, the threads can make only so many steps before the loop thread polls an empty queue,
      however they interleave, whatever is evicted and whatever toxcore and the file system answer. */
  lemma {:induction false} RunsAreBounded(s: Node, acts: seq<Action>, z: Node, n: nat)
    requires Runs(s, acts, z) && |s.entries.Keys| + Weight(s) <= n
    requires forall a :: a in acts ==> Quiet(a) && !a.PopTimeout?
    ensures ThreadSteps(acts) + StepsLeft(z, n) <= StepsLeft(s, n)
    decreases |acts|
  {
    if acts != [] {
      var a := acts[0];
      assert a in acts;
      FewEntries(s, a);
      OneStepLess(s, a, n);
      RunsAreBounded(Apply(s, a), acts[1..], z, n);
    }
  }

  /** And until then they can: from every reachable state some such run leads to rest. */
  lemma RestIsReached(s: Node, n: nat) returns (acts: seq<Action>, z: Node)
    requires Reachable(s) && |s.entries.Keys| + Weight(s) <= n
    ensures Runs(s, acts, z) && forall a :: a in acts ==> Quiet(a) && !a.PopTimeout?
    ensures Quiescent(z) || AllBlocked(z)
    decreases StepsLeft(s, n)
  {
    AtRestIff(s);
    if Quiescent(s) || AllBlocked(s) {
      acts, z := [], s;
    } else {
      var a :| (Moves(a) || Idles(a)) && Enabled(s, a);
      FewEntries(s, a);
      OneStepLess(s, a, n);
      var m := Apply(s, a);
      assert Leads(s, m) by { assert Runs(s, [a], m); }
      ReachableOn(s, m);
      var rest;
      rest, z := RestIsReached(m, n);
      acts := [a] + rest;
    }
  }

  /** While 16 messages per file and the other messages together stay below 1282, rest means that nothing is left. */
  lemma RestIsQuiescence(s: Node, ids: seq<Id>)
    requires Reachable(s) && Covered(s, ids) && forall x :: x in s.evicted ==> x.id !in ids
    requires 16 * |ids| + Extra(s) < 1282
    requires forall a :: Moves(a) || Idles(a) ==> !Enabled(s, a)
    ensures Quiescent(s)
  {
    AtRestIff(s);
    LoadBound(s, ids);
  }
}
