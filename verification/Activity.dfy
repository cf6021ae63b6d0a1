/** Which files the sweep may evict: what the times in the window entries say about a run. */
module Activity {
  import opened Basics
  import opened ChunkWindow
  import opened Node
  import opened NodeInvariants
  import opened Conservation

  /** toxcore asks for a chunk of the file, or the credit of one it was given comes back. */
  predicate Touches(s: Node, a: Action, id: Id)
    requires Enabled(s, a)
  {
    match a
    case AskChunk(i, _) => i == id
    case PushEmitted => s.loop.credit == Some(id)
    case PopSend(ok) => ok && s.sendQ[0].SendChunk? && s.sendQ[0].id == id
    case _ => false
  }

  /** When the file was last touched in a run, if at all; `last` is when it was before. */
  ghost function LastTouch(s: Node, acts: seq<Action>, z: Node, id: Id, last: Option<int>): Option<int>
    requires Runs(s, acts, z)
    decreases |acts|
  {
    if acts == [] then last
    else LastTouch(Apply(s, acts[0]), acts[1..], z, id, if Touches(s, acts[0], id) then Some(s.time) else last)
  }

  /** When tox_iterate last returned. */
  ghost function LastIterate(s: Node, acts: seq<Action>, z: Node, last: Option<int>): Option<int>
    requires Runs(s, acts, z)
    decreases |acts|
  {
    if acts == [] then last
    else LastIterate(Apply(s, acts[0]), acts[1..], z, if acts[0].EndIterate? then Some(s.time) else last)
  }

  ghost predicate Dated(s: Node, id: Id, last: Option<int>) {
    && (id in s.entries ==> last == Some(s.entries[id].lastUpdate))
    && (last.Some? ==> last.value <= s.time)
  }

  lemma CreditDates(s: Node, i: Id, id: Id)
    ensures var z := WithCredit(s, i);
            if i == id then id in z.entries && z.entries[id].lastUpdate == s.time
            else Find(z.entries, id) == Find(s.entries, id)
  {
  }

  lemma PushDates(s: Node, a: Action, id: Id, last: Option<int>)
    requires Dated(s, id, last) && Enabled(s, a) && (a.PushEmitted? || a.PopSend?)
    ensures Dated(Apply(s, a), id, if Touches(s, a, id) then Some(s.time) else last)
  {
    if a.PushEmitted? && s.loop.credit.Some? {
      CreditDates(s.(recvQ := s.recvQ + [s.loop.e], loop := Iterate), s.loop.credit.value, id);
    } else if a.PopSend? && a.ok && s.sendQ[0].SendChunk? {
      CreditDates(s.(sendQ := s.sendQ[1..], given := s.given + [s.sendQ[0]]), s.sendQ[0].id, id);
    }
  }

  lemma EntryDates(s: Node, a: Action, id: Id, last: Option<int>)
    requires Dated(s, id, last) && Enabled(s, a)
    requires a.AskChunk? || a.Forward? || a.SweepForward? || a.Visit? || a.Erase?
    ensures Dated(Apply(s, a), id, if Touches(s, a, id) then Some(s.time) else last)
  {
    ClockStands(s, a);
  }

  lemma StepDates(s: Node, a: Action, id: Id, last: Option<int>)
    requires Dated(s, id, last) && Enabled(s, a)
    ensures Dated(Apply(s, a), id, if Touches(s, a, id) then Some(s.time) else last)
  {
    if a.PushEmitted? || a.PopSend? {
      PushDates(s, a, id, last);
    } else if a.AskChunk? || a.Forward? || a.SweepForward? || a.Visit? || a.Erase? {
      EntryDates(s, a, id, last);
    } else {
      LeavesEntries(s, a);
    }
  }

  lemma {:induction false} RunDates(s: Node, acts: seq<Action>, z: Node, id: Id, last: Option<int>)
    requires Runs(s, acts, z) && Dated(s, id, last)
    ensures Dated(z, id, LastTouch(s, acts, z, id, last))
    decreases |acts|
  {
    if acts != [] {
      StepDates(s, acts[0], id, last);
      RunDates(Apply(s, acts[0]), acts[1..], z, id, if Touches(s, acts[0], id) then Some(s.time) else last);
    }
  }

  /** A sweep goes by the time when it began, and when the loop thread comes to its queue a sweep is behind it. */
  ghost predicate Swept(s: Node, last: Option<int>) {
    && (last.Some? ==> last.value <= s.time)
    && (s.loop.Sweeping? || s.loop.SweepForwarding? ==> last == Some(s.loop.now))
    && (s.loop.Popping? ==>
          last.Some? && forall id :: id in s.entries ==> last.value - s.entries[id].lastUpdate <= IDLE_LIMIT)
  }

  lemma PushSweeps(s: Node, a: Action, last: Option<int>)
    requires Swept(s, last) && Enabled(s, a)
    requires a.PushEmitted? || a.PopSend? || a.AskChunk? || a.Forward? || a.SweepForward?
    ensures Swept(Apply(s, a), last)
  {
    ClockStands(s, a);
    if !a.SweepForward? { assert !Apply(s, a).loop.Sweeping? && !Apply(s, a).loop.Popping?; }
  }

  lemma StepSweeps(s: Node, a: Action, last: Option<int>)
    requires WindowInv(s) && SweepInv(s) && Swept(s, last) && Enabled(s, a)
    ensures Swept(Apply(s, a), if a.EndIterate? then Some(s.time) else last)
  {
    if a.PushEmitted? || a.PopSend? || a.AskChunk? || a.Forward? || a.SweepForward? {
      PushSweeps(s, a, last);
    } else if a.Visit? || a.Erase? {
      ClockStands(s, a);
    } else {
      LeavesEntries(s, a);
    }
  }

  lemma {:induction false} RunSweeps(s: Node, acts: seq<Action>, z: Node, last: Option<int>)
    requires Runs(s, acts, z) && WindowInv(s) && SweepInv(s) && Swept(s, last)
    ensures Swept(z, LastIterate(s, acts, z, last))
    decreases |acts|
  {
    if acts != [] {
      StepKeepsWindow(s, acts[0]);
      StepKeepsSweep(s, acts[0]);
      StepSweeps(s, acts[0], last);
      RunSweeps(Apply(s, acts[0]), acts[1..], z, if acts[0].EndIterate? then Some(s.time) else last);
    }
  }

  /** Over every run: an entry bears the time of the last request for its file, or of the last credit that came back
      for it. */
  lemma {:induction false} EntriesAreDated(s: Node, acts: seq<Action>, z: Node, id: Id)
    requires Initial(s) && Runs(s, acts, z) && id in z.entries
    ensures LastTouch(s, acts, z, id, None) == Some(z.entries[id].lastUpdate) && z.entries[id].lastUpdate <= z.time
  {
    RunDates(s, acts, z, id, None);
  }

  /** So a file is evicted only if, when tox_iterate last returned, 60 seconds had passed since the last request for it
      and since the last credit that came back for it. */
  lemma {:induction false} OnlyTheIdleGo(s: Node, acts: seq<Action>, z: Node, id: Id)
    requires Initial(s) && Runs(s, acts, z) && Enabled(z, Erase(id))
    ensures var touch, began := LastTouch(s, acts, z, id, None), LastIterate(s, acts, z, None);
            && touch.Some? && began.Some? && began.value <= z.time
            && began.value - touch.value > 60_000_000_000
  {
    assert Reachable(z);
    SweepEvictsTheIdle(z, id);
    RunDates(s, acts, z, id, None);
    RunSweeps(s, acts, z, None);
  }

  /** And all of these are: whenever the loop thread is at its queue, no entry is left that was idle for longer when
      tox_iterate last returned. */
  lemma {:induction false} AllTheIdleGo(s: Node, acts: seq<Action>, z: Node, id: Id)
    requires Initial(s) && Runs(s, acts, z) && z.loop.Popping? && id in z.entries
    ensures var touch, began := LastTouch(s, acts, z, id, None), LastIterate(s, acts, z, None);
            touch.Some? && began.Some? && began.value - touch.value <= 60_000_000_000
  {
    RunDates(s, acts, z, id, None);
    RunSweeps(s, acts, z, None);
  }

  /** The loop thread is still in the iteration of a message, or back in tox_iterate. */
  predicate Handling(l: Loop) {
    l.Iterate? || l.Emit? || l.Forwarding?
  }

  lemma {:induction false} StaysHandling(s: Node, acts: seq<Action>, z: Node)
    requires Runs(s, acts, z) && Handling(s.loop) && EndIterate !in acts
    ensures Handling(z.loop)
    decreases |acts|
  {
    if acts != [] {
      assert acts[0] != EndIterate;
      HandlingStep(s, acts[0]);
      StaysHandling(Apply(s, acts[0]), acts[1..], z);
    }
  }

  lemma HandlingStep(s: Node, a: Action)
    requires Enabled(s, a) && Handling(s.loop) && !a.EndIterate?
    ensures Handling(Apply(s, a).loop)
  {
  }

  lemma {:induction false} SweepsFirst(s: Node, acts: seq<Action>, z: Node)
    requires Runs(s, acts, z) && !s.loop.Popping? && EndSweep !in acts
    ensures !z.loop.Popping?
    decreases |acts|
  {
    if acts != [] {
      assert acts[0] != EndSweep;
      NotYetPopping(s, acts[0]);
      SweepsFirst(Apply(s, acts[0]), acts[1..], z);
    }
  }

  lemma NotYetPopping(s: Node, a: Action)
    requires Enabled(s, a) && !s.loop.Popping? && !a.EndSweep?
    ensures !Apply(s, a).loop.Popping?
  {
  }

  /** Over every run: between two looks at its queue the loop thread goes through tox_iterate and through a sweep, so it
      gives toxcore at most one message in each iteration. */
  lemma {:induction false} OneMessagePerIteration(s: Node, a: Action, acts: seq<Action>, z: Node)
    requires Enabled(s, a) && (a.PopSend? || a.PopTimeout?) && Runs(Apply(s, a), acts, z) && z.loop.Popping?
    ensures EndIterate in acts && EndSweep in acts
  {
    if EndIterate !in acts { StaysHandling(Apply(s, a), acts, z); }
    if EndSweep !in acts { SweepsFirst(Apply(s, a), acts, z); }
  }
}
