/** What every step of a node keeps, for every file and under every interleaving. */
module NodeInvariants {
  import opened Basics
  import opened FileEvents
  import opened ChunkWindow
  import opened TransferCtrl
  import opened Projection
  import opened Node

  // The window.

  /** Only the entry whose forwarding loop is running may have both credit and waiting requests. */
  ghost predicate WindowInv(s: Node) {
    && (forall id :: id in s.entries ==>
          && s.entries[id].maxInFlight == FIRST_MAX && s.entries[id].inFlight <= FIRST_MAX
          && (s.loop != Forwarding(id) ==> WindowOk(s.entries[id])))
    && (s.loop.Forwarding? || s.loop.SweepForwarding? ==> s.loop.id in s.entries)
    && (s.loop.Sweeping? || s.loop.SweepForwarding? ==>
          s.loop.todo <= s.entries.Keys && s.loop.dead <= s.entries.Keys && s.loop.todo !! s.loop.dead)
    && (s.loop.SweepForwarding? ==> s.loop.id !in s.loop.dead)
  }

  lemma CreditKeepsWindow(s: Node, id: Id)
    requires WindowInv(s) && !s.loop.Forwarding? && !s.loop.Sweeping? && !s.loop.SweepForwarding?
    ensures WindowInv(WithCredit(s, id))
  {
  }

  lemma LoopKeepsWindow(s: Node, a: Action)
    requires WindowInv(s) && Enabled(s, a) && (a.AskChunk? || a.PushEmitted? || a.PopSend?)
    ensures WindowInv(Apply(s, a))
  {
    if a.PushEmitted? && s.loop.credit.Some? {
      CreditKeepsWindow(s.(recvQ := s.recvQ + [s.loop.e], loop := Iterate), s.loop.credit.value);
    } else if a.PopSend? && s.sendQ[0].SendChunk? && a.ok {
      CreditKeepsWindow(s.(sendQ := s.sendQ[1..], given := s.given + [s.sendQ[0]]), s.sendQ[0].id);
    }
  }

  lemma EntryKeepsWindow(s: Node, a: Action)
    requires WindowInv(s) && Enabled(s, a) && (a.Forward? || a.SweepForward? || a.Visit? || a.Erase?)
    ensures WindowInv(Apply(s, a))
  {
  }

  lemma StepKeepsWindow(s: Node, a: Action)
    requires WindowInv(s) && Enabled(s, a)
    ensures WindowInv(Apply(s, a))
  {
    var z := Apply(s, a);
    if a.AskChunk? || a.PushEmitted? || a.PopSend? {
      LoopKeepsWindow(s, a);
    } else if a.Forward? || a.SweepForward? || a.Visit? || a.Erase? {
      EntryKeepsWindow(s, a);
    } else {
      assert z.entries == s.entries;
    }
  }

  // The flow of one file.

  function Jobs(ran: seq<Ran>): seq<Event> {
    seq(|ran|, k requires 0 <= k < |ran| => ran[k].event)
  }

  function Replies(ran: seq<Ran>): seq<SendMsg> {
    if ran == [] then [] else Replies(ran[..|ran| - 1]) + AsSeq(ran[|ran| - 1].reply)
  }

  function LoopHand(s: Node): seq<Event> {
    if s.loop.Emit? then [s.loop.e] else []
  }

  /** All events on their way to the work thread, or already there, the oldest first. */
  function Chain(s: Node): seq<Event> {
    Jobs(s.ran) + s.workQ + AsSeq(s.msgHand) + s.recvQ + LoopHand(s)
  }

  /** All messages on their way to toxcore, or already there, the oldest first. */
  function Down(s: Node): seq<SendMsg> {
    s.given + s.sendQ + AsSeq(s.workHand)
  }

  function InFlight(s: Node, id: Id): int {
    if id in s.entries then s.entries[id].inFlight else 0
  }

  function Pending(s: Node, id: Id): seq<ChunkRequest> {
    if id in s.entries then s.entries[id].pending else []
  }

  /** A chunk of `id` was given to toxcore and its credit is not back yet. */
  function Owed(s: Node, id: Id): nat {
    if s.loop.Emit? && s.loop.credit == Some(id) then 1 else 0
  }

  /** The credit that evictions of the entry of `id` forgot. */
  function Forgotten(evicted: seq<Evicted>, id: Id): int {
    if evicted == [] then 0
    else
      var last := evicted[|evicted| - 1];
      Forgotten(evicted[..|evicted| - 1], id) + if last.id == id then last.entry.inFlight else 0
  }

  /** The waiting requests that evictions of the entry of `id` lost. */
  function LostPending(evicted: seq<Evicted>, id: Id): nat {
    if evicted == [] then 0
    else
      var last := evicted[|evicted| - 1];
      LostPending(evicted[..|evicted| - 1], id) + if last.id == id then |last.entry.pending| else 0
  }

  /** The credit that was out when the logs begin. */
  function Spent(s: Node, id: Id): int {
    if id in s.spent then s.spent[id] else 0
  }

  /** What the invariant of one file looks at. */
  datatype View = View(
    chain: seq<Event>, waiting: seq<Event>, inFlight: int, owed: int,
    issued: seq<Event>, ignored: seq<Event>, given: seq<SendMsg>, down: seq<SendMsg>, replies: seq<SendMsg>,
    forgotten: int, lost: nat)

  function ViewOf(s: Node, id: Id): View {
    View(Chain(s), Events(id, Pending(s, id)), InFlight(s, id), Owed(s, id),
         s.issued, s.ignored, s.given, Down(s), Replies(s.ran),
         Forgotten(s.evicted, id) - Spent(s, id), LostPending(s.evicted, id))
  }

  /** No event other than a request is issued for the file once a request has been. */
  predicate RequestsLast(q: seq<Event>) {
    |q| <= 1 || ((q[|q| - 2].Request? ==> q[|q| - 1].Request?) && RequestsLast(q[..|q| - 1]))
  }

  ghost predicate FlowInv(v: View, id: Id) {
    // order: what is handled, under way and waiting is a subsequence of what was asked for
    && Subseq(Pick(v.chain, id, true) + v.waiting, Pick(v.issued, id, true))
    // and what is missing is what was ignored or evicted
    && |Pick(v.issued, id, true)| == |Pick(v.chain, id, true)| + |v.waiting| + |Pick(v.ignored, id, true)| + v.lost
    // credit
    && v.inFlight + v.forgotten + |Chunks(v.given, id)|
       == |Pick(v.chain, id, true)| + |Pick(v.ignored, id, true)| + v.owed
    // replies reach toxcore in order
    && Chunks(v.replies, id) == Chunks(v.down, id)
    // nothing overtakes as long as requests come last
    && (RequestsLast(Pick(v.issued, id, false)) && Pick(v.ignored, id, false) == [] && v.lost == 0 ==>
          Pick(v.chain, id, false) + v.waiting == Pick(v.issued, id, false))
  }

  lemma {:induction false} RequestsLastPrefix(q: seq<Event>, e: Event)
    requires RequestsLast(q + [e])
    ensures RequestsLast(q)
    ensures !e.Request? ==> forall i :: 0 <= i < |q| ==> !q[i].Request?
  {
    assert (q + [e])[..|q|] == q;
    if q != [] {
      var init, last := q[..|q| - 1], q[|q| - 1];
      assert q == init + [last];
      RequestsLastPrefix(init, last);
    }
  }

  lemma {:induction false} RequestsLastHolds(q: seq<Event>)
    requires forall k :: 1 <= k < |q| && q[k - 1].Request? ==> q[k].Request?
    ensures RequestsLast(q)
  {
    if |q| > 1 {
      var init := q[..|q| - 1];
      assert forall k :: 0 <= k < |init| ==> init[k] == q[k];
      RequestsLastHolds(init);
    }
  }

  /** Moving one element across a cut between two parts of a sequence. */
  lemma Shift<T>(a: seq<T>, x: T, b: seq<T>)
    ensures (a + [x]) + b == a + ([x] + b)
    ensures (a + []) + ([x] + b) == (a + [x]) + b
    ensures (a + (b + [x])) + [] == (a + b) + [x]
    ensures (a + (b + [x])) == (a + b) + [x]
    ensures (a + b) + [] == a + b
  {
  }

  lemma AskedKeepsFlow(v: View, id: Id, e: Event)
    requires FlowInv(v, id) && e.Request? && e.id == id
    ensures FlowInv(v.(issued := v.issued + [e], waiting := v.waiting + [e]), id)
  {
    var p, q := Pick(v.chain, id, true), Pick(v.chain, id, false);
    PickSnoc(v.issued, e, id, true);
    PickSnoc(v.issued, e, id, false);
    Shift(p, e, v.waiting);
    Shift(q, e, v.waiting);
    SubseqSnoc(p + v.waiting, Pick(v.issued, id, true), e);
    if RequestsLast(Pick(v.issued, id, false) + [e]) {
      RequestsLastPrefix(Pick(v.issued, id, false), e);
    }
  }

  lemma OtherAsked(v: View, id: Id, e: Event)
    requires FlowInv(v, id) && !Concerns(e, id, false)
    ensures FlowInv(v.(issued := v.issued + [e]), id)
  {
    PickSnoc(v.issued, e, id, true);
    PickSnoc(v.issued, e, id, false);
  }

  /** A delivered event overtakes nothing as long as requests come last. */
  lemma {:induction false} DeliveredLast(c: seq<Event>, waiting: seq<Event>, issued: seq<Event>, e: Event)
    requires !e.Request? && (waiting != [] ==> waiting[0].Request?)
    requires RequestsLast(issued + [e]) && c + waiting == issued
    ensures RequestsLast(issued) && (c + [e]) + waiting == issued + [e]
  {
    RequestsLastPrefix(issued, e);
    NoneWaits(c, waiting);
    assert (c + [e]) + [] == c + [e];
  }

  lemma Delivered(v: View, id: Id, e: Event)
    requires FlowInv(v, id) && (e.Receive? || e.Control? || e.Chunk?)
    requires v.waiting != [] ==> v.waiting[0].Request?
    ensures FlowInv(v.(issued := v.issued + [e], chain := v.chain + [e]), id)
  {
    PickSnoc(v.issued, e, id, true);
    PickSnoc(v.issued, e, id, false);
    PickSnoc(v.chain, e, id, true);
    PickSnoc(v.chain, e, id, false);
    var c, q := Pick(v.chain, id, false), Pick(v.issued, id, false);
    if e.id == id && RequestsLast(q + [e]) && Pick(v.ignored, id, false) == [] && v.lost == 0 {
      RequestsLastPrefix(q, e);
      DeliveredLast(c, v.waiting, q, e);
    }
  }

  lemma NoneWaits(c: seq<Event>, waiting: seq<Event>)
    requires waiting != [] ==> waiting[0].Request?
    ensures (forall i :: 0 <= i < |c + waiting| ==> !(c + waiting)[i].Request?) ==> waiting == [] && c + waiting == c
  {
    assert waiting != [] ==> (c + waiting)[|c|] == waiting[0];
  }

  lemma Forwarded(v: View, id: Id, e: Event)
    requires FlowInv(v, id) && e.Request? && e.id == id && v.waiting != [] && e == v.waiting[0]
    ensures FlowInv(v.(chain := v.chain + [e], waiting := v.waiting[1..], inFlight := v.inFlight + 1), id)
  {
    PickSnoc(v.chain, e, id, true);
    PickSnoc(v.chain, e, id, false);
    assert v.waiting == [e] + v.waiting[1..];
    Shift(Pick(v.chain, id, true), e, v.waiting[1..]);
    Shift(Pick(v.chain, id, false), e, v.waiting[1..]);
  }

  lemma OtherAppended(v: View, id: Id, e: Event)
    requires FlowInv(v, id) && !Concerns(e, id, false)
    ensures FlowInv(v.(chain := v.chain + [e]), id)
  {
    PickSnoc(v.chain, e, id, true);
    PickSnoc(v.chain, e, id, false);
  }

  /** The message thread drops `e`: an error, or any event while no callback is registered. */
  lemma Dropped(v: View, id: Id, a: seq<Event>, e: Event, b: seq<Event>)
    requires FlowInv(v, id) && v.chain == a + [e] + b
    ensures FlowInv(v.(chain := a + b, ignored := v.ignored + [e]), id)
  {
    PickMiddle(a, e, b, id, true);
    PickMiddle(a, e, b, id, false);
    PickSnoc(v.ignored, e, id, true);
    PickSnoc(v.ignored, e, id, false);
    if Concerns(e, id, true) {
      DropOne(Pick(a, id, true), e, Pick(b, id, true), v.waiting, Pick(v.issued, id, true));
    }
  }

  lemma {:induction false} DropOne(a: seq<Event>, e: Event, b: seq<Event>, c: seq<Event>, all: seq<Event>)
    requires Subseq(a + [e] + b + c, all)
    ensures Subseq(a + b + c, all)
  {
    assert a + [e] + b + c == a + [e] + (b + c) && a + b + c == a + (b + c);
    SubseqDrop(a, [e], b + c, all);
  }

  lemma ErrorDropped(v: View, id: Id, a: seq<Event>, e: Event, b: seq<Event>)
    requires FlowInv(v, id) && v.chain == a + [e] + b && e.Error?
    ensures FlowInv(v.(chain := a + b), id)
  {
    PickMiddle(a, e, b, id, true);
    PickMiddle(a, e, b, id, false);
  }

  lemma Registered(v: View, id: Id, a: seq<Event>, e: Event, b: seq<Event>)
    requires FlowInv(v, id) && v.chain == a + b && e.Register?
    ensures FlowInv(v.(chain := a + [e] + b), id)
  {
    PickMiddle(a, e, b, id, true);
    PickMiddle(a, e, b, id, false);
  }

  lemma Given(v: View, id: Id, m: SendMsg)
    requires FlowInv(v, id)
    ensures var n := if m.SendChunk? && m.id == id then 1 else 0;
            && FlowInv(v.(given := v.given + [m], inFlight := v.inFlight - n), id)
            && FlowInv(v.(given := v.given + [m], owed := v.owed + n), id)
  {
    ChunksSnoc(v.given, m, id);
  }

  lemma Replied(v: View, id: Id, r: Option<SendMsg>)
    requires FlowInv(v, id)
    ensures FlowInv(v.(replies := v.replies + AsSeq(r), down := v.down + AsSeq(r)), id)
  {
    ChunksConcat(v.replies, AsSeq(r), id);
    ChunksConcat(v.down, AsSeq(r), id);
  }

  lemma FileSendInserted(v: View, id: Id, a: seq<SendMsg>, m: SendMsg, b: seq<SendMsg>)
    requires FlowInv(v, id) && v.down == a + b && m.FileSend?
    ensures FlowInv(v.(down := a + [m] + b), id)
  {
    ChunksConcat(a, b, id);
    ChunksConcat(a + [m], b, id);
    ChunksSnoc(a, m, id);
  }

  lemma EntryGone(v: View, id: Id)
    requires FlowInv(v, id)
    ensures FlowInv(v.(waiting := [], inFlight := 0,
                       forgotten := v.forgotten + v.inFlight, lost := v.lost + |v.waiting|), id)
  {
    SubseqPrefix(Pick(v.chain, id, true), v.waiting, Pick(v.issued, id, true));
    assert Pick(v.chain, id, true) + [] == Pick(v.chain, id, true);
  }

  // The steps, as changes of the view.

  lemma {:induction false} JobsSnoc(ran: seq<Ran>, r: Ran)
    ensures Jobs(ran + [r]) == Jobs(ran) + [r.event]
    ensures Replies(ran + [r]) == Replies(ran) + AsSeq(r.reply)
  {
    assert (ran + [r])[..|ran|] == ran;
  }

  lemma {:induction false} EvictedSnoc(ev: seq<Evicted>, x: Evicted, id: Id)
    ensures Forgotten(ev + [x], id) == Forgotten(ev, id) + if x.id == id then x.entry.inFlight else 0
    ensures LostPending(ev + [x], id) == LostPending(ev, id) + if x.id == id then |x.entry.pending| else 0
  {
    assert (ev + [x])[..|ev|] == ev;
  }

  lemma Regroup<T>(a: seq<T>, x: T, r: seq<T>, l: seq<T>)
    ensures (a + [] + r) + l == a + (r + l)
    ensures (a + [x] + r) + l == a + [x] + (r + l)
  {
  }

  lemma RegroupFour<T>(a: seq<T>, x: T, m: seq<T>, r: seq<T>, l: seq<T>)
    ensures a + m + r + l == a + (m + r + l)
    ensures a + [x] + m + r + l == a + [x] + (m + r + l)
  {
  }

  lemma ViewOfCallback(s: Node, a: Action, id: Id)
    requires Enabled(s, a) && (a.AskChunk? || a.Deliver?)
    ensures var v := ViewOf(s, id);
            ViewOf(Apply(s, a), id) ==
            if a.AskChunk? then v.(issued := v.issued + [Request(a.id, a.req)],
                                   waiting := if a.id == id then v.waiting + [Request(a.id, a.req)] else v.waiting)
            else v.(issued := v.issued + [a.e], chain := v.chain + [a.e])
  {
    if a.Deliver? {
      assert LoopHand(Apply(s, a)) == [a.e] && LoopHand(s) == [];
    } else if a.id == id {
      assert Events(id, Pending(s, id) + [a.req]) == Events(id, Pending(s, id)) + [Request(id, a.req)];
    }
  }

  lemma ViewOfForward(s: Node, a: Action, id: Id)
    requires Enabled(s, a) && (a.Forward? || a.SweepForward?)
    ensures var v, e := ViewOf(s, id), Request(s.loop.id, s.entries[s.loop.id].pending[0]);
            ViewOf(Apply(s, a), id) ==
            if e.id == id then v.(chain := v.chain + [e], waiting := v.waiting[1..], inFlight := v.inFlight + 1)
            else v.(chain := v.chain + [e])
  {
    Shift(Jobs(s.ran) + s.workQ + AsSeq(s.msgHand), Request(s.loop.id, s.entries[s.loop.id].pending[0]), s.recvQ);
    if s.loop.id == id {
      assert Events(id, Pending(s, id)[1..]) == Events(id, Pending(s, id))[1..];
    }
  }

  lemma ViewOfPop(s: Node, ok: bool, id: Id)
    requires Enabled(s, PopSend(ok))
    ensures var v, m := ViewOf(s, id), s.sendQ[0];
            var n := if m.SendChunk? && m.id == id then 1 else 0;
            ViewOf(Apply(s, PopSend(ok)), id) ==
            if m.FileSend? || ok then v.(given := v.given + [m], inFlight := v.inFlight - n)
            else v.(given := v.given + [m], owed := v.owed + n, chain := v.chain + [Error(m.id)])
  {
    var z, m := Apply(s, PopSend(ok)), s.sendQ[0];
    assert s.sendQ == [m] + s.sendQ[1..];
    Shift(s.given, m, s.sendQ[1..]);
    var c := Jobs(s.ran) + s.workQ + AsSeq(s.msgHand) + s.recvQ;
    assert Chain(s) == c + [] == c;
    assert Chain(z) == if m.FileSend? || ok then c + [] else c + [Error(m.id)];
  }

  lemma ViewOfEmitted(s: Node, id: Id)
    requires Enabled(s, PushEmitted)
    ensures var v := ViewOf(s, id);
            ViewOf(Apply(s, PushEmitted), id) == v.(inFlight := v.inFlight - v.owed, owed := 0)
  {
    var z := Apply(s, PushEmitted);
    Shift(Jobs(s.ran) + s.workQ + AsSeq(s.msgHand), s.loop.e, s.recvQ);
    assert LoopHand(z) == [] && z.recvQ == s.recvQ + [s.loop.e];
  }

  lemma ViewOfTake(s: Node, a: seq<Event>, b: seq<Event>, id: Id)
    requires Enabled(s, TakeMsg)
    requires a == Jobs(s.ran) + s.workQ && b == s.recvQ[1..] + LoopHand(s)
    ensures var v, m := ViewOf(s, id), s.recvQ[0];
            && v.chain == a + [m] + b
            && ViewOf(Apply(s, TakeMsg), id) ==
               if m.Error? then v.(chain := a + b)
               else if s.callback then v
               else v.(chain := a + b, ignored := v.ignored + [m])
  {
    var m, z := s.recvQ[0], Apply(s, TakeMsg);
    assert s.recvQ == [m] + s.recvQ[1..];
    Shift(a, m, s.recvQ[1..]);
    Regroup(a, m, s.recvQ[1..], LoopHand(s));
    assert Chain(s) == (a + [m] + s.recvQ[1..]) + LoopHand(s);
    assert Chain(z) == (a + AsSeq(z.msgHand) + s.recvQ[1..]) + LoopHand(s);
  }

  lemma RunKeepsRest(s: Node, a: Action)
    requires Enabled(s, a) && a.RunWork?
    ensures var z := Apply(s, a);
            && z == s.(workQ := s.workQ[1..], workHand := z.workHand, ctrl := z.ctrl, ran := z.ran)
            && z.ran == s.ran + [z.ran[|s.ran|]]
            && z.ran[|s.ran|].event == s.workQ[0] && z.ran[|s.ran|].reply == z.workHand
  {
  }

  lemma ViewOfRun(s: Node, a: Action, id: Id)
    requires Enabled(s, a) && a.RunWork?
    ensures var v, z := ViewOf(s, id), Apply(s, a);
            ViewOf(z, id) == v.(replies := v.replies + AsSeq(z.workHand), down := v.down + AsSeq(z.workHand))
  {
    var z := Apply(s, a);
    RunKeepsRest(s, a);
    JobsSnoc(s.ran, z.ran[|s.ran|]);
    assert s.workQ == [s.workQ[0]] + s.workQ[1..];
    Shift(Jobs(s.ran), s.workQ[0], s.workQ[1..]);
    assert Chain(z) == Chain(s);
    assert s.given + s.sendQ + [] == s.given + s.sendQ;
  }

  lemma ViewOfHands(s: Node, a: Action, id: Id)
    requires Enabled(s, a) && (a.PutWork? || a.PutSend?)
    ensures ViewOf(Apply(s, a), id) == ViewOf(s, id)
  {
    if a.PutWork? {
      Shift(Jobs(s.ran), s.msgHand.value, s.workQ);
    } else {
      Shift(s.given, s.workHand.value, s.sendQ);
    }
  }

  lemma ViewOfRegister(s: Node, e: Event, a: seq<Event>, b: seq<Event>, id: Id)
    requires Enabled(s, UserRegister(e))
    requires a == Jobs(s.ran) + s.workQ && b == AsSeq(s.msgHand) + s.recvQ + LoopHand(s)
    ensures var v := ViewOf(s, id);
            v.chain == a + b && ViewOf(Apply(s, UserRegister(e)), id) == v.(chain := a + [e] + b)
  {
    RegroupFour(a, e, AsSeq(s.msgHand), s.recvQ, LoopHand(s));
    Shift(Jobs(s.ran), e, s.workQ);
  }

  lemma ViewOfUserSend(s: Node, m: SendMsg, a: seq<SendMsg>, b: seq<SendMsg>, id: Id)
    requires Enabled(s, UserSend(m))
    requires a == s.given + s.sendQ && b == AsSeq(s.workHand)
    ensures var v := ViewOf(s, id);
            v.down == a + b && ViewOf(Apply(s, UserSend(m)), id) == v.(down := a + [m] + b)
  {
    Shift(s.given, m, s.sendQ);
  }

  lemma ViewOfErase(s: Node, gone: Id, id: Id)
    requires Enabled(s, Erase(gone))
    ensures var v := ViewOf(s, id);
            ViewOf(Apply(s, Erase(gone)), id) ==
            if gone == id then v.(waiting := [], inFlight := 0, forgotten := v.forgotten + v.inFlight,
                                  lost := v.lost + |v.waiting|)
            else v
  {
    var z := Apply(s, Erase(gone));
    EvictedSnoc(s.evicted, Evicted(gone, s.entries[gone]), id);
    assert Events(id, []) == [];
    assert z == s.(entries := z.entries, loop := z.loop, evicted := z.evicted);
    assert LoopHand(z) == LoopHand(s) == [];
    assert Chain(z) == Chain(s) && Down(z) == Down(s);
  }

  lemma SameView(s: Node, z: Node, id: Id)
    requires z == s.(loop := z.loop, entries := z.entries, time := z.time, callback := z.callback)
    requires (!s.loop.Emit? && !z.loop.Emit?) || z.loop == s.loop
    requires InFlight(z, id) == InFlight(s, id) && Pending(z, id) == Pending(s, id)
    ensures ViewOf(z, id) == ViewOf(s, id)
  {
    assert LoopHand(z) == LoopHand(s);
  }

  lemma ViewUnchanged(s: Node, a: Action, id: Id)
    requires Enabled(s, a)
    requires a.EndIterate? || a.EndForward? || a.Visit? || a.EndSweepForward? || a.EndSweep? || a.PopTimeout? ||
             a.Tick? || a.SetCallback?
    ensures ViewOf(Apply(s, a), id) == ViewOf(s, id)
  {
    var z := Apply(s, a);
    assert z == s.(loop := z.loop, entries := z.entries, time := z.time, callback := z.callback);
    SameView(s, z, id);
  }

  lemma PoppedKeepsFlow(v: View, id: Id, m: SendMsg, ok: bool)
    requires FlowInv(v, id)
    ensures var n := if m.SendChunk? && m.id == id then 1 else 0;
            FlowInv(if m.FileSend? || ok then v.(given := v.given + [m], inFlight := v.inFlight - n)
                    else v.(given := v.given + [m], owed := v.owed + n, chain := v.chain + [Error(m.id)]), id)
  {
    Given(v, id, m);
    if !m.FileSend? && !ok {
      var n := if m.SendChunk? && m.id == id then 1 else 0;
      OtherAppended(v.(given := v.given + [m], owed := v.owed + n), id, Error(m.id));
    }
  }

  lemma OthersKeepFlow(s: Node, a: Action, id: Id)
    requires FlowInv(ViewOf(s, id), id) && Enabled(s, a)
    requires a.TakeMsg? || a.PutWork? || a.RunWork? || a.PutSend? || a.UserSend? || a.UserRegister?
    ensures FlowInv(ViewOf(Apply(s, a), id), id)
  {
    var v := ViewOf(s, id);
    if a.TakeMsg? {
      var p, q := Jobs(s.ran) + s.workQ, s.recvQ[1..] + LoopHand(s);
      ViewOfTake(s, p, q, id);
      if s.recvQ[0].Error? {
        ErrorDropped(v, id, p, s.recvQ[0], q);
      } else {
        Dropped(v, id, p, s.recvQ[0], q);
      }
    } else if a.UserRegister? {
      var p, q := Jobs(s.ran) + s.workQ, AsSeq(s.msgHand) + s.recvQ + LoopHand(s);
      ViewOfRegister(s, a.e, p, q, id);
      Registered(v, id, p, a.e, q);
    } else if a.UserSend? {
      ViewOfUserSend(s, a.m, s.given + s.sendQ, AsSeq(s.workHand), id);
      FileSendInserted(v, id, s.given + s.sendQ, a.m, AsSeq(s.workHand));
    } else if a.RunWork? {
      ViewOfRun(s, a, id);
      Replied(v, id, Apply(s, a).workHand);
    } else {
      ViewOfHands(s, a, id);
    }
  }

  lemma CallbackKeepsFlow(s: Node, a: Action, id: Id)
    requires FlowInv(ViewOf(s, id), id) && Enabled(s, a) && (a.AskChunk? || a.Deliver?)
    ensures FlowInv(ViewOf(Apply(s, a), id), id)
  {
    var v := ViewOf(s, id);
    ViewOfCallback(s, a, id);
    if a.Deliver? {
      Delivered(v, id, a.e);
    } else if a.id == id {
      AskedKeepsFlow(v, id, Request(a.id, a.req));
    } else {
      OtherAsked(v, id, Request(a.id, a.req));
    }
  }

  lemma LoopKeepsFlow(s: Node, a: Action, id: Id)
    requires FlowInv(ViewOf(s, id), id) && Enabled(s, a)
    requires a.Forward? || a.SweepForward? || a.PopSend? || a.PushEmitted?
    ensures FlowInv(ViewOf(Apply(s, a), id), id)
  {
    var v := ViewOf(s, id);
    if a.PopSend? {
      ViewOfPop(s, a.ok, id);
      PoppedKeepsFlow(v, id, s.sendQ[0], a.ok);
    } else if a.PushEmitted? {
      ViewOfEmitted(s, id);
    } else {
      var e := Request(s.loop.id, s.entries[s.loop.id].pending[0]);
      ViewOfForward(s, a, id);
      if e.id == id { Forwarded(v, id, e); } else { OtherAppended(v, id, e); }
    }
  }

  lemma StepKeepsFlow(s: Node, a: Action, id: Id)
    requires FlowInv(ViewOf(s, id), id) && Enabled(s, a)
    ensures FlowInv(ViewOf(Apply(s, a), id), id)
  {
    if a.AskChunk? || a.Deliver? {
      CallbackKeepsFlow(s, a, id);
    } else if a.Forward? || a.SweepForward? || a.PopSend? || a.PushEmitted? {
      LoopKeepsFlow(s, a, id);
    } else if a.TakeMsg? || a.PutWork? || a.RunWork? || a.PutSend? || a.UserSend? || a.UserRegister? {
      OthersKeepFlow(s, a, id);
    } else if a.Erase? {
      ViewOfErase(s, a.id, id);
      EntryGone(ViewOf(s, id), id);
    } else {
      ViewUnchanged(s, a, id);
    }
  }

  // What a step leaves alone.

  /** Nothing changes on the way from the work thread to toxcore. */
  lemma LeavesDown(s: Node, a: Action)
    requires Enabled(s, a) && !a.PopSend? && !a.PutSend? && !a.UserSend? && !a.RunWork?
    ensures Apply(s, a).given == s.given && Apply(s, a).sendQ == s.sendQ && Apply(s, a).workHand == s.workHand
  {
  }

  /** The message thread drops nothing and takes nothing. */
  lemma LeavesMsg(s: Node, a: Action)
    requires Enabled(s, a) && !a.TakeMsg?
    ensures Apply(s, a).ignored == s.ignored
    ensures Apply(s, a).msgHand == s.msgHand || Apply(s, a).msgHand.None?
    ensures !a.SetCallback? ==> Apply(s, a).callback == s.callback
  {
  }

  /** The window entries stay, and the clock does not go back. */
  lemma LeavesEntries(s: Node, a: Action)
    requires Enabled(s, a) && !a.AskChunk? && !a.PushEmitted? && !a.PopSend?
    requires !a.Forward? && !a.SweepForward? && !a.Visit? && !a.Erase?
    ensures Apply(s, a).entries == s.entries && Apply(s, a).time >= s.time
  {
  }

  lemma ClockStands(s: Node, a: Action)
    requires Enabled(s, a) && !a.Tick?
    ensures Apply(s, a).time == s.time
  {
  }

  // The work thread.

  /** The transfer of `id` after the closures run so far. */
  function TransferAfter(ran: seq<Ran>, id: Id): Option<Transfer> {
    if ran == [] then None
    else
      var init, last := ran[..|ran| - 1], ran[|ran| - 1];
      if last.event.id == id then RunOne(TransferAfter(init, id), last.event, last.outside).after
      else TransferAfter(init, id)
  }

  /** A reception whose open succeeds finds its file empty, for the open has emptied it. */
  predicate OpensEmpty(r: Ran) {
    r.event.Receive? ==> r.outside.file == if r.opens then Some([]) else None
  }

  /** A logged closure had the effect on the outside that it has on the transfer of that moment. */
  predicate ConsistentAt(ran: seq<Ran>, k: nat)
    requires k < |ran|
  {
    var o := RunOne(TransferAfter(ran[..k], ran[k].event.id), ran[k].event, ran[k].outside);
    ran[k].reply == o.reply && ran[k].saved == o.saved && OpensEmpty(ran[k])
  }

  ghost predicate Consistent(ran: seq<Ran>) {
    forall k :: 0 <= k < |ran| ==> ConsistentAt(ran, k)
  }

  /** The bytes last saved at `path`. */
  function LastSaved(ran: seq<Ran>, path: string): Option<seq<Byte>> {
    if ran == [] then None
    else
      var last := ran[|ran| - 1];
      if last.saved.Some? && last.saved.value.path == path then Some(last.saved.value.bytes)
      else LastSaved(ran[..|ran| - 1], path)
  }

  /** The bytes at `path`, which were `first` before any closure ran. */
  function BytesAt(first: Option<seq<Byte>>, ran: seq<Ran>, path: string): Option<seq<Byte>> {
    if LastSaved(ran, path).Some? then LastSaved(ran, path) else first
  }

  /** The path whose contents closure `k` looks at: the one it opens for reading, or the one behind the stream. */
  function LooksAt(ran: seq<Ran>, k: nat): Option<string>
    requires k < |ran|
  {
    var e := ran[k].event;
    if e.Register? then Some(e.path)
    else if e.Request? || e.Chunk? then
      match TransferAfter(ran[..k], e.id)
      case None => None
      case Some(tr) => Some(tr.stream.path)
    else None
  }

  /** A closure that looks at `path` finds what is there at that moment, unless the system refuses the open. */
  predicate Sees(first: Option<seq<Byte>>, ran: seq<Ran>, k: nat, path: string)
    requires k < |ran|
  {
    LooksAt(ran, k) == Some(path) ==>
      ran[k].outside.file ==
      if ran[k].event.Register? && !ran[k].opens then None else BytesAt(first, ran[..k], path)
  }

  ghost predicate AllSee(first: Option<seq<Byte>>, ran: seq<Ran>, path: string) {
    forall k :: 0 <= k < |ran| ==> Sees(first, ran, k, path)
  }

  ghost predicate DiskInv(s: Node, path: string) {
    && Find(s.ctrl.disk, path) == BytesAt(Find(s.firstDisk, path), s.ran, path)
    && AllSee(Find(s.firstDisk, path), s.ran, path)
  }

  ghost predicate WorkInv(s: Node) {
    && s.spent == map[]
    && (forall id :: Find(s.ctrl.transfers, id) == TransferAfter(s.ran, id))
    && Consistent(s.ran)
    && (forall path :: DiskInv(s, path))
  }

  lemma {:induction false} WorkSnoc(ran: seq<Ran>, r: Ran)
    ensures forall id :: TransferAfter(ran + [r], id) ==
                         if r.event.id == id then RunOne(TransferAfter(ran, id), r.event, r.outside).after
                         else TransferAfter(ran, id)
    ensures forall path :: LastSaved(ran + [r], path) ==
                           if r.saved.Some? && r.saved.value.path == path then Some(r.saved.value.bytes)
                           else LastSaved(ran, path)
  {
    assert (ran + [r])[..|ran|] == ran;
  }

  lemma {:induction false} ConsistentSnoc(ran: seq<Ran>, r: Ran)
    requires Consistent(ran)
    requires var o := RunOne(TransferAfter(ran, r.event.id), r.event, r.outside);
             r.reply == o.reply && r.saved == o.saved && OpensEmpty(r)
    ensures Consistent(ran + [r])
  {
    var z := ran + [r];
    assert z[..|ran|] == ran;
    forall k | 0 <= k < |z| ensures ConsistentAt(z, k) {
      if k < |ran| {
        assert ConsistentAt(ran, k) && z[..k] == ran[..k] && z[k] == ran[k];
      }
    }
  }

  lemma TransfersFollow(s: Node, z: Node, r: Ran, o: Outcome)
    requires forall id :: Find(s.ctrl.transfers, id) == TransferAfter(s.ran, id)
    requires z.ran == s.ran + [r]
    requires o == RunOne(TransferAfter(s.ran, r.event.id), r.event, r.outside)
    requires z.ctrl.transfers == Put(s.ctrl.transfers, r.event.id, o.after)
    ensures forall id :: Find(z.ctrl.transfers, id) == TransferAfter(z.ran, id)
  {
    WorkSnoc(s.ran, r);
    forall id ensures Find(z.ctrl.transfers, id) == TransferAfter(z.ran, id) {
      assert Find(s.ctrl.transfers, id) == TransferAfter(s.ran, id);
    }
  }

  lemma SeesSnoc(first: Option<seq<Byte>>, ran: seq<Ran>, r: Ran, path: string)
    requires AllSee(first, ran, path) && Sees(first, ran + [r], |ran|, path)
    ensures AllSee(first, ran + [r], path)
  {
    var z := ran + [r];
    forall k | 0 <= k < |z| ensures Sees(first, z, k, path) {
      if k < |ran| {
        assert Sees(first, ran, k, path) && z[..k] == ran[..k] && z[k] == ran[k];
      }
    }
  }

  lemma DiskFollows(s: Node, z: Node, r: Ran, opens: bool, path: string)
    requires DiskInv(s, path) && z.firstDisk == s.firstDisk
    requires Find(s.ctrl.transfers, r.event.id) == TransferAfter(s.ran, r.event.id)
    requires z.ran == s.ran + [r] && z.ctrl.disk == Store(s.ctrl.disk, r.saved)
    requires r.outside.file == LookUp(s.ctrl, r.event, opens) && r.opens == opens
    ensures DiskInv(z, path)
  {
    WorkSnoc(s.ran, r);
    assert z.ran[..|s.ran|] == s.ran;
    SeesSnoc(Find(s.firstDisk, path), s.ran, r, path);
  }

  lemma RunWorkKeepsWork(s: Node, opens: bool, limit: Option<nat>)
    requires WorkInv(s) && Enabled(s, RunWork(opens, limit))
    ensures WorkInv(Apply(s, RunWork(opens, limit)))
  {
    var z := Apply(s, RunWork(opens, limit));
    var r := z.ran[|s.ran|];
    var o := OutcomeIn(s.ctrl, r.event, opens, limit);
    assert Find(s.ctrl.transfers, r.event.id) == TransferAfter(s.ran, r.event.id);
    TransfersFollow(s, z, r, o);
    forall path ensures DiskInv(z, path) { DiskFollows(s, z, r, opens, path); }
    ConsistentSnoc(s.ran, r);
  }

  predicate LeavesWork(s: Node, z: Node) {
    z.ran == s.ran && z.ctrl == s.ctrl && z.firstDisk == s.firstDisk && z.spent == s.spent
  }

  lemma SameWork(s: Node, z: Node)
    requires WorkInv(s) && LeavesWork(s, z)
    ensures WorkInv(z)
  {
    forall id ensures Find(z.ctrl.transfers, id) == TransferAfter(z.ran, id) {
      assert Find(s.ctrl.transfers, id) == TransferAfter(s.ran, id);
    }
    forall path ensures DiskInv(z, path) { assert DiskInv(s, path); }
  }

  lemma LoopLeavesWork(s: Node, a: Action)
    requires Enabled(s, a) && (a.PushEmitted? || a.PopSend? || a.Forward? || a.SweepForward? || a.AskChunk?)
    ensures LeavesWork(s, Apply(s, a))
  {
  }

  lemma SweepLeavesWork(s: Node, a: Action)
    requires Enabled(s, a)
    requires a.EndIterate? || a.EndForward? || a.Visit? || a.EndSweepForward? || a.Erase? || a.EndSweep?
    ensures LeavesWork(s, Apply(s, a))
  {
  }

  /** Only the work thread touches the transfers and the disk. */
  lemma OthersLeaveWork(s: Node, a: Action)
    requires Enabled(s, a) && !a.RunWork?
    ensures LeavesWork(s, Apply(s, a))
  {
    if a.PushEmitted? || a.PopSend? || a.Forward? || a.SweepForward? || a.AskChunk? {
      LoopLeavesWork(s, a);
    } else if a.EndIterate? || a.EndForward? || a.Visit? || a.EndSweepForward? || a.Erase? || a.EndSweep? {
      SweepLeavesWork(s, a);
    }
  }

  lemma StepKeepsWork(s: Node, a: Action)
    requires WorkInv(s) && Enabled(s, a)
    ensures WorkInv(Apply(s, a))
  {
    if a.RunWork? {
      RunWorkKeepsWork(s, a.opens, a.limit);
    } else {
      OthersLeaveWork(s, a);
      SameWork(s, Apply(s, a));
    }
  }

  // All runs.

  ghost predicate Inv(s: Node) {
    && WindowInv(s)
    && (forall id :: FlowInv(ViewOf(s, id), id))
    && WorkInv(s)
  }

  lemma InitialInv(s: Node)
    requires Initial(s)
    ensures Inv(s)
  {
    assert Chain(s) == [] && Down(s) == [];
    forall id ensures FlowInv(ViewOf(s, id), id) {}
  }

  lemma {:induction false} RunKeepsInv(s: Node, acts: seq<Action>, z: Node)
    requires Inv(s) && Runs(s, acts, z)
    ensures Inv(z)
    decreases |acts|
  {
    if acts != [] {
      StepKeepsWindow(s, acts[0]);
      forall id ensures FlowInv(ViewOf(Apply(s, acts[0]), id), id) { StepKeepsFlow(s, acts[0], id); }
      StepKeepsWork(s, acts[0]);
      RunKeepsInv(Apply(s, acts[0]), acts[1..], z);
    }
  }

  lemma ReachableInv(z: Node)
    requires Reachable(z)
    ensures Inv(z)
  {
    var s, acts :| Initial(s) && Runs(s, acts, z);
    InitialInv(s);
    RunKeepsInv(s, acts, z);
  }
}
