/** One use of a file id. toxcore gives an id out again when its transfer is over, and between two uses a node goes on
    with other files; so the logs that a result about one use looks at begin where the id was last free. */
module FileUse {
  import opened Basics
  import opened FileEvents
  import opened ChunkWindow
  import opened Projection
  import opened Node
  import opened NodeInvariants
  import opened Conservation
  import opened Quiescence
  import opened FileLog

  /** Nothing about `id` is under way, waits, or has a transfer. Credit may be out for it. */
  ghost predicate Free(m: Node, id: Id) {
    && id !in m.ctrl.transfers && Pending(m, id) == [] && Owed(m, id) == 0
    && (forall e :: e in m.workQ + AsSeq(m.msgHand) + m.recvQ + LoopHand(m) ==> e.Error? || e.id != id)
    && (forall c :: c in m.sendQ + AsSeq(m.workHand) ==> c.SendChunk? ==> c.id != id)
  }

  /** The node with logs that begin now, and the credit that is out for `id` as spent. */
  function Forget(m: Node, id: Id): Node {
    m.(issued := [], ignored := [], ran := [], given := [], evicted := [], firstDisk := m.ctrl.disk,
       spent := if InFlight(m, id) == 0 then map[] else map[id := InFlight(m, id)])
  }

  /** `z` is a node since `id` was last free. */
  ghost predicate Use(z: Node, id: Id) {
    exists m :: Reachable(m) && Free(m, id) && Leads(Forget(m, id), z)
  }

  /** The node with the logs of `m` put back in front. */
  function Recall(m: Node, z: Node): Node {
    z.(issued := m.issued + z.issued, ignored := m.ignored + z.ignored, ran := m.ran + z.ran,
       given := m.given + z.given, evicted := m.evicted + z.evicted, firstDisk := m.firstDisk, spent := m.spent)
  }

  lemma RecallForgets(m: Node, z: Node, id: Id)
    ensures Forget(Recall(m, z), id) == Forget(z, id)
    ensures Free(Recall(m, z), id) <==> Free(z, id)
  {
    var r := Recall(m, z);
    assert LoopHand(r) == LoopHand(z) && Pending(r, id) == Pending(z, id) && Owed(r, id) == Owed(z, id);
  }

  lemma EntriesRecall(m: Node, z: Node, a: Action)
    requires Enabled(z, a) && (a.AskChunk? || a.Forward? || a.SweepForward? || a.Erase?)
    ensures Enabled(Recall(m, z), a) && Apply(Recall(m, z), a) == Recall(m, Apply(z, a))
  {
    var r := Recall(m, z);
    if a.AskChunk? {
      assert m.issued + (z.issued + [Request(a.id, a.req)]) == r.issued + [Request(a.id, a.req)];
    } else if a.Erase? {
      assert m.evicted + (z.evicted + [Evicted(a.id, z.entries[a.id])]) == r.evicted + [Evicted(a.id, z.entries[a.id])];
    }
  }

  lemma CreditRecalls(m: Node, z: Node, id: Id)
    ensures WithCredit(Recall(m, z), id) == Recall(m, WithCredit(z, id))
  {
  }

  lemma LoopRecalls(m: Node, z: Node, a: Action)
    requires Enabled(z, a) && (a.Deliver? || a.PushEmitted? || a.PopSend?)
    ensures Enabled(Recall(m, z), a) && Apply(Recall(m, z), a) == Recall(m, Apply(z, a))
  {
    var r := Recall(m, z);
    if a.Deliver? {
      assert m.issued + (z.issued + [a.e]) == r.issued + [a.e];
    } else if a.PushEmitted? {
      if z.loop.credit.Some? {
        CreditRecalls(m, z.(recvQ := z.recvQ + [z.loop.e], loop := Iterate), z.loop.credit.value);
      }
    } else {
      var c := z.sendQ[0];
      assert m.given + (z.given + [c]) == r.given + [c];
      if c.SendChunk? && a.ok { CreditRecalls(m, z.(sendQ := z.sendQ[1..], given := z.given + [c]), c.id); }
    }
  }

  lemma OthersRecall(m: Node, z: Node, a: Action)
    requires Enabled(z, a)
    requires a.TakeMsg? || a.RunWork? || a.PutWork? || a.PutSend? || a.UserSend? || a.UserRegister?
    ensures Enabled(Recall(m, z), a) && Apply(Recall(m, z), a) == Recall(m, Apply(z, a))
  {
    var r := Recall(m, z);
    if a.TakeMsg? {
      assert m.ignored + (z.ignored + [z.recvQ[0]]) == r.ignored + [z.recvQ[0]];
    } else if a.RunWork? {
      var last := Apply(z, a).ran[|z.ran|];
      assert m.ran + (z.ran + [last]) == r.ran + [last];
    }
  }

  /** The logs are history only: a step does not look at them. */
  lemma StepRecalls(m: Node, z: Node, a: Action)
    requires Enabled(z, a)
    ensures Enabled(Recall(m, z), a) && Apply(Recall(m, z), a) == Recall(m, Apply(z, a))
  {
    if a.AskChunk? || a.Forward? || a.SweepForward? || a.Erase? {
      EntriesRecall(m, z, a);
    } else if a.Deliver? || a.PushEmitted? || a.PopSend? {
      LoopRecalls(m, z, a);
    } else if a.TakeMsg? || a.RunWork? || a.PutWork? || a.PutSend? || a.UserSend? || a.UserRegister? {
      OthersRecall(m, z, a);
    }
  }

  lemma {:induction false} RunRecalls(m: Node, s: Node, acts: seq<Action>, z: Node)
    requires Runs(s, acts, z)
    ensures Runs(Recall(m, s), acts, Recall(m, z))
    decreases |acts|
  {
    if acts != [] {
      StepRecalls(m, s, acts[0]);
      RunRecalls(m, Apply(s, acts[0]), acts[1..], z);
    }
  }

  /** A use is a part of the life of a node. */
  lemma UseIsReachable(m: Node, z: Node, id: Id)
    requires Reachable(m) && Leads(Forget(m, id), z)
    ensures Reachable(Recall(m, z))
  {
    var acts :| Runs(Forget(m, id), acts, z);
    RunRecalls(m, Forget(m, id), acts, z);
    var f := Forget(m, id);
    assert m.issued + [] == m.issued && m.ignored + [] == m.ignored && m.ran + [] == m.ran && m.given + [] == m.given
           && m.evicted + [] == m.evicted;
    assert Recall(m, f) == m;
    var s0, before :| Initial(s0) && Runs(s0, before, m);
    RunsConcat(s0, before, m, acts, Recall(m, z));
  }

  lemma {:induction false} NothingPicked(q: seq<Event>, id: Id, r: bool)
    requires forall e :: e in q ==> e.Error? || e.id != id
    ensures Pick(q, id, r) == []
  {
    if q != [] { NothingPicked(q[1..], id, r); }
  }

  lemma {:induction false} NoChunks(q: seq<SendMsg>, id: Id)
    requires forall c :: c in q ==> c.SendChunk? ==> c.id != id
    ensures Chunks(q, id) == []
  {
    if q != [] { NoChunks(q[1..], id); }
  }

  lemma FreeFlow(m: Node, id: Id)
    requires Free(m, id)
    ensures FlowInv(ViewOf(Forget(m, id), id), id) && Spent(Forget(m, id), id) == InFlight(m, id)
  {
    var f := Forget(m, id);
    assert Chain(f) == m.workQ + AsSeq(m.msgHand) + m.recvQ + LoopHand(m);
    assert Down(f) == m.sendQ + AsSeq(m.workHand);
    NothingPicked(Chain(f), id, true);
    NothingPicked(Chain(f), id, false);
    NoChunks(Down(f), id);
    assert Events(id, []) == [];
  }

  lemma {:induction false} RunKeepsFlow(s: Node, acts: seq<Action>, z: Node, id: Id)
    requires FlowInv(ViewOf(s, id), id) && Runs(s, acts, z)
    ensures FlowInv(ViewOf(z, id), id)
    decreases |acts|
  {
    if acts != [] {
      StepKeepsFlow(s, acts[0], id);
      RunKeepsFlow(Apply(s, acts[0]), acts[1..], z, id);
    }
  }

  // The work thread.

  lemma {:induction false} TransferSince(p: seq<Ran>, q: seq<Ran>, id: Id)
    requires TransferAfter(p, id).None?
    ensures TransferAfter(p + q, id) == TransferAfter(q, id)
  {
    if q == [] {
      assert p + q == p;
    } else {
      assert (p + q)[..|p + q| - 1] == p + q[..|q| - 1];
      TransferSince(p, q[..|q| - 1], id);
    }
  }

  lemma {:induction false} SavedSince(p: seq<Ran>, q: seq<Ran>, first: Option<seq<Byte>>, path: string)
    ensures BytesAt(first, p + q, path) == BytesAt(BytesAt(first, p, path), q, path)
  {
    if q == [] {
      assert p + q == p;
    } else {
      assert (p + q)[..|p + q| - 1] == p + q[..|q| - 1];
      SavedSince(p, q[..|q| - 1], first, path);
    }
  }

  lemma {:induction false} ConsistentSince(p: seq<Ran>, q: seq<Ran>, k: nat)
    requires k < |q| && TransferAfter(p, q[k].event.id).None? && ConsistentAt(p + q, |p| + k)
    ensures ConsistentAt(q, k)
  {
    assert (p + q)[..|p| + k] == p + q[..k];
    TransferSince(p, q[..k], q[k].event.id);
  }

  lemma {:induction false} SeesSince(p: seq<Ran>, q: seq<Ran>, first: Option<seq<Byte>>, k: nat, path: string)
    requires k < |q| && TransferAfter(p, q[k].event.id).None? && Sees(first, p + q, |p| + k, path)
    ensures Sees(BytesAt(first, p, path), q, k, path)
  {
    assert (p + q)[..|p| + k] == p + q[..k];
    TransferSince(p, q[..k], q[k].event.id);
    SavedSince(p, q[..k], first, path);
  }

  lemma {:induction false} UseWork(m: Node, z: Node, id: Id)
    requires Reachable(m) && Free(m, id) && Leads(Forget(m, id), z)
    ensures TransferAfter(m.ran, id).None?
    ensures Find(z.ctrl.transfers, id) == TransferAfter(z.ran, id)
    ensures forall k :: 0 <= k < |z.ran| && z.ran[k].event.id == id ==> ConsistentAt(z.ran, k)
    ensures forall r :: r in z.ran ==> Matches(r)
  {
    var a := Recall(m, z);
    UseIsReachable(m, z, id);
    ReachableInv(a);
    ReachableInv(m);
    assert Find(m.ctrl.transfers, id) == TransferAfter(m.ran, id);
    TransferSince(m.ran, z.ran, id);
    assert Find(a.ctrl.transfers, id) == TransferAfter(a.ran, id);
    forall k | 0 <= k < |z.ran| && z.ran[k].event.id == id ensures ConsistentAt(z.ran, k) {
      assert ConsistentAt(a.ran, |m.ran| + k);
      ConsistentSince(m.ran, z.ran, k);
    }
    AllMatch(a.ran);
    forall r | r in z.ran ensures r in a.ran {}
  }

  lemma UseHands(m: Node, z: Node, id: Id)
    requires Reachable(m) && Leads(Forget(m, id), z)
    ensures WindowInv(z) && NoRequestInHand(z) && NoErrors(z)
  {
    var a := Recall(m, z);
    UseIsReachable(m, z, id);
    ReachableInv(a);
    HandsHold(a);
    forall k | 0 <= k < |z.ran| ensures !z.ran[k].event.Error? { assert z.ran[k] == a.ran[|m.ran| + k]; }
  }

  /** In every use of an id what holds for one file holds. */
  lemma UseSound(z: Node, id: Id)
    requires Use(z, id)
    ensures Sound(z, id) && Spent(z, id) <= 16
  {
    var m :| Reachable(m) && Free(m, id) && Leads(Forget(m, id), z);
    var acts :| Runs(Forget(m, id), acts, z);
    FreeFlow(m, id);
    RunKeepsFlow(Forget(m, id), acts, z, id);
    UseWork(m, z, id);
    UseHands(m, z, id);
    ReachableInv(m);
    SameStart(Forget(m, id), acts, z);
  }

  lemma {:induction false} SameStart(s: Node, acts: seq<Action>, z: Node)
    requires Runs(s, acts, z)
    ensures z.spent == s.spent && z.firstDisk == s.firstDisk
    decreases |acts|
  {
    if acts != [] {
      if !acts[0].RunWork? { OthersLeaveWork(s, acts[0]); }
      SameStart(Apply(s, acts[0]), acts[1..], z);
    }
  }

  lemma UseDisk(z: Node, id: Id, path: string)
    requires Use(z, id)
    ensures DiskSound(z, id, path)
  {
    var m :| Reachable(m) && Free(m, id) && Leads(Forget(m, id), z);
    var a := Recall(m, z);
    UseIsReachable(m, z, id);
    UseWork(m, z, id);
    ReachableInv(a);
    ReachableInv(m);
    var acts :| Runs(Forget(m, id), acts, z);
    SameStart(Forget(m, id), acts, z);
    assert DiskInv(m, path) && DiskInv(a, path);
    var first := Find(m.firstDisk, path);
    SavedSince(m.ran, z.ran, first, path);
    forall k | 0 <= k < |z.ran| && z.ran[k].event.id == id ensures Sees(Find(z.firstDisk, path), z.ran, k, path) {
      assert Sees(first, a.ran, |m.ran| + k, path);
      SeesSince(m.ran, z.ran, first, k, path);
    }
  }

  /** The credit that earlier uses of the id spent, as far as no eviction has forgotten it since. */
  function Withheld(z: Node, id: Id): int {
    Spent(z, id) - Forgotten(z.evicted, id)
  }

  /** Only the erasing step evicts. */
  lemma KeepsEvicted(s: Node, a: Action)
    requires Enabled(s, a) && !a.Erase?
    ensures Apply(s, a).evicted == s.evicted && Apply(s, a).spent == s.spent
  {
    if !a.RunWork? { OthersLeaveWork(s, a); }
  }

  lemma EraseForgives(s: Node, gone: Id, id: Id)
    requires Sound(s, id) && Enabled(s, Erase(gone))
    ensures var z := Apply(s, Erase(gone));
            z.evicted == s.evicted + [Evicted(gone, s.entries[gone])] && z.spent == s.spent
            && if gone == id then Withheld(z, id) <= 0 else Withheld(z, id) == Withheld(s, id)
  {
    Balance(s, id);
    EvictedSnoc(s.evicted, Evicted(gone, s.entries[gone]), id);
  }

  lemma EvictionStep(s: Node, a: Action, id: Id)
    requires Sound(s, id) && Enabled(s, a)
    requires Withheld(s, id) <= 0 || forall x :: x in s.evicted ==> x.id != id
    ensures var z := Apply(s, a);
            Withheld(z, id) <= 0 || forall x :: x in z.evicted ==> x.id != id
  {
    if a.Erase? {
      EraseForgives(s, a.id, id);
    } else {
      KeepsEvicted(s, a);
    }
  }

  lemma {:induction false} EvictionRun(m: Node, s: Node, acts: seq<Action>, z: Node, id: Id)
    requires Reachable(m) && Free(m, id) && Leads(Forget(m, id), s) && Runs(s, acts, z)
    requires Withheld(s, id) <= 0 || forall x :: x in s.evicted ==> x.id != id
    ensures Withheld(z, id) <= 0 || forall x :: x in z.evicted ==> x.id != id
    decreases |acts|
  {
    if acts != [] {
      assert Use(s, id);
      UseSound(s, id);
      EvictionStep(s, acts[0], id);
      var n := Extend(Forget(m, id), s, acts[0]);
      EvictionRun(m, n, acts[1..], z, id);
    }
  }

  /** An eviction makes up for all credit that was spent before, or more. */
  lemma EvictionForgives(z: Node, id: Id)
    requires Use(z, id)
    ensures Withheld(z, id) <= 0 ||
            ((forall x :: x in z.evicted ==> x.id != id) && Withheld(z, id) == Spent(z, id) <= 16)
  {
    var m :| Reachable(m) && Free(m, id) && Leads(Forget(m, id), z);
    var o := Forget(m, id);
    var acts :| Runs(o, acts, z);
    assert Leads(o, o) by { assert Runs(o, [], o); }
    EvictionRun(m, o, acts, z, id);
    UseSound(z, id);
    if forall x :: x in z.evicted ==> x.id != id { NothingForgotten(z.evicted, id); }
  }

  /** The whole life of a node up to now is one use of each id. */
  lemma LifeIsUse(z: Node, id: Id)
    requires Reachable(z)
    ensures Use(z, id) && Spent(z, id) == 0
  {
    var s, acts :| Initial(s) && Runs(s, acts, z);
    assert Reachable(s) by { assert Runs(s, [], s); }
    assert Forget(s, id) == s;
    assert Leads(Forget(s, id), z);
    ReachableInv(z);
  }

  /** At rest an id is free when its transfer is over and no request for it waits. */
  lemma RestIsFree(m: Node, id: Id)
    requires Quiescent(m) && Pending(m, id) == [] && id !in m.ctrl.transfers
    ensures Free(m, id)
  {
  }
}
