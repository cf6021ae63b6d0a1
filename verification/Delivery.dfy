/** What the loop thread and the message thread pass on besides requests and chunks: the requests of `send_path`, the
    reports of what toxcore refused, and which events are dropped for want of a callback. */
module Delivery {
  import opened FileEvents
  import opened Node
  import opened NodeInvariants

  // The requests of send_path.

  function IfSend(m: SendMsg): seq<SendMsg> {
    if m.FileSend? then [m] else []
  }

  function Sends(q: seq<SendMsg>): seq<SendMsg> {
    if q == [] then [] else IfSend(q[0]) + Sends(q[1..])
  }

  lemma {:induction false} SendsConcat(a: seq<SendMsg>, b: seq<SendMsg>)
    ensures Sends(a + b) == Sends(a) + Sends(b)
  {
    if a == [] {
      assert a + b == b;
    } else {
      assert (a + b)[1..] == a[1..] + b;
      SendsConcat(a[1..], b);
    }
  }

  lemma {:induction false} SendsOne(m: SendMsg)
    ensures Sends([m]) == IfSend(m)
  {
    assert [m][1..] == [];
  }

  /** What other threads asked to be sent in a run. */
  function SendsAsked(acts: seq<Action>): seq<SendMsg> {
    if acts == [] then [] else (if acts[0].UserSend? then [acts[0].m] else []) + SendsAsked(acts[1..])
  }

  ghost predicate HandIsNoSend(s: Node) {
    s.workHand.Some? ==> !s.workHand.value.FileSend?
  }

  lemma RunAnswersNoSend(s: Node, a: Action)
    requires HandIsNoSend(s) && Enabled(s, a)
    ensures HandIsNoSend(Apply(s, a))
  {
    if a.RunWork? {
      RunKeepsRest(s, a);
    } else if !a.PopSend? && !a.PutSend? && !a.UserSend? {
      LeavesDown(s, a);
    }
  }

  lemma {:induction false} OneMoreSent(s: Node, a: Action, m: SendMsg)
    requires Enabled(s, a) && ((a.UserSend? && m == a.m) || (a.PutSend? && m == s.workHand.value))
    ensures Sends(Apply(s, a).given + Apply(s, a).sendQ) == Sends(s.given + s.sendQ) + IfSend(m)
  {
    assert Apply(s, a).given + Apply(s, a).sendQ == s.given + s.sendQ + [m];
    SendsConcat(s.given + s.sendQ, [m]);
    SendsOne(m);
  }

  lemma PopKeepsSends(s: Node, a: Action)
    requires Enabled(s, a) && a.PopSend?
    ensures Apply(s, a).given + Apply(s, a).sendQ == s.given + s.sendQ
  {
    assert Apply(s, a).given == s.given + [s.sendQ[0]] && Apply(s, a).sendQ == s.sendQ[1..];
  }

  lemma {:induction false} StepKeepsSends(s: Node, a: Action)
    requires HandIsNoSend(s) && Enabled(s, a)
    ensures Sends(Apply(s, a).given + Apply(s, a).sendQ) ==
            Sends(s.given + s.sendQ) + if a.UserSend? then [a.m] else []
  {
    if a.UserSend? || a.PutSend? {
      OneMoreSent(s, a, if a.UserSend? then a.m else s.workHand.value);
    } else if a.PopSend? {
      PopKeepsSends(s, a);
    } else if a.RunWork? {
      RunKeepsRest(s, a);
    } else {
      LeavesDown(s, a);
    }
  }

  lemma {:induction false} RunKeepsSends(s: Node, acts: seq<Action>, z: Node)
    requires HandIsNoSend(s) && Runs(s, acts, z)
    ensures Sends(z.given + z.sendQ) == Sends(s.given + s.sendQ) + SendsAsked(acts)
    decreases |acts|
  {
    if acts != [] {
      StepKeepsSends(s, acts[0]);
      RunAnswersNoSend(s, acts[0]);
      RunKeepsSends(Apply(s, acts[0]), acts[1..], z);
    }
  }

  /** Over every run, the requests of `send_path` are given to toxcore in the order in which they were pushed, and none
      is lost or made up. */
  lemma {:induction false} SendsInOrder(s: Node, acts: seq<Action>, z: Node)
    requires Initial(s) && Runs(s, acts, z)
    ensures Sends(z.given) + Sends(z.sendQ) == SendsAsked(acts)
  {
    RunKeepsSends(s, acts, z);
    assert s.given + s.sendQ == [];
    SendsConcat(z.given, z.sendQ);
  }

  // What toxcore refused.

  function IfError(e: Event): seq<Event> {
    if e.Error? then [e] else []
  }

  function Errors(q: seq<Event>): seq<Event> {
    if q == [] then [] else IfError(q[0]) + Errors(q[1..])
  }

  lemma {:induction false} ErrorsConcat(a: seq<Event>, b: seq<Event>)
    ensures Errors(a + b) == Errors(a) + Errors(b)
  {
    if a == [] {
      assert a + b == b;
    } else {
      assert (a + b)[1..] == a[1..] + b;
      ErrorsConcat(a[1..], b);
    }
  }

  lemma {:induction false} ErrorsOne(e: Event)
    ensures Errors([e]) == IfError(e)
  {
    assert [e][1..] == [];
  }

  /** A step in which toxcore refuses a chunk or a control. */
  function Refusal(s: Node, a: Action): seq<Event>
    requires Enabled(s, a)
  {
    if a.PopSend? && !a.ok && !s.sendQ[0].FileSend? then [Error(s.sendQ[0].id)] else []
  }

  ghost function Refused(s: Node, acts: seq<Action>, z: Node): seq<Event>
    requires Runs(s, acts, z)
    decreases |acts|
  {
    if acts == [] then [] else Refusal(s, acts[0]) + Refused(Apply(s, acts[0]), acts[1..], z)
  }

  /** The report that the message thread takes in a step, if it does. */
  function Taken(s: Node, a: Action): seq<Event>
    requires Enabled(s, a)
  {
    if a.TakeMsg? then IfError(s.recvQ[0]) else []
  }

  ghost function Told(s: Node, acts: seq<Action>, z: Node): seq<Event>
    requires Runs(s, acts, z)
    decreases |acts|
  {
    if acts == [] then [] else Taken(s, acts[0]) + Told(Apply(s, acts[0]), acts[1..], z)
  }

  function Reports(s: Node): seq<Event> {
    Errors(s.recvQ + LoopHand(s))
  }

  lemma {:induction false} ForwardKeepsReports(s: Node, a: Action)
    requires Enabled(s, a) && (a.Forward? || a.SweepForward?)
    ensures Reports(Apply(s, a)) == Reports(s)
  {
    var e := Request(s.loop.id, s.entries[s.loop.id].pending[0]);
    assert LoopHand(s) == [] && Apply(s, a).recvQ + LoopHand(Apply(s, a)) == s.recvQ + LoopHand(s) + [e];
    ErrorsConcat(s.recvQ + LoopHand(s), [e]);
    ErrorsOne(e);
  }

  lemma {:induction false} PopKeepsReports(s: Node, ok: bool)
    requires Enabled(s, PopSend(ok))
    ensures Reports(Apply(s, PopSend(ok))) == Reports(s) + Refusal(s, PopSend(ok))
  {
    var z, r := Apply(s, PopSend(ok)), Refusal(s, PopSend(ok));
    assert z.recvQ == s.recvQ && LoopHand(s) == [] && LoopHand(z) == r;
    assert s.recvQ + [] == s.recvQ;
    ErrorsConcat(s.recvQ, r);
    if r != [] { ErrorsOne(r[0]); }
  }

  lemma {:induction false} PushKeepsReports(s: Node)
    requires Enabled(s, PushEmitted)
    ensures Reports(Apply(s, PushEmitted)) == Reports(s)
  {
    var z := Apply(s, PushEmitted);
    assert z.recvQ + LoopHand(z) == s.recvQ + LoopHand(s);
  }

  lemma {:induction false} DeliverKeepsReports(s: Node, e: Event)
    requires Enabled(s, Deliver(e))
    ensures Reports(Apply(s, Deliver(e))) == Reports(s)
  {
    assert LoopHand(s) == [] && s.recvQ + [] == s.recvQ;
    ErrorsConcat(s.recvQ, [e]);
    ErrorsOne(e);
  }

  lemma {:induction false} TakeKeepsReports(s: Node)
    requires Enabled(s, TakeMsg)
    ensures IfError(s.recvQ[0]) + Reports(Apply(s, TakeMsg)) == Reports(s)
  {
    var z := Apply(s, TakeMsg);
    assert s.recvQ + LoopHand(s) == [s.recvQ[0]] + (z.recvQ + LoopHand(z));
  }

  lemma OthersKeepReports(s: Node, a: Action)
    requires Enabled(s, a) && !a.Forward? && !a.SweepForward? && !a.PopSend? && !a.PushEmitted? && !a.Deliver?
    requires !a.TakeMsg?
    ensures Reports(Apply(s, a)) == Reports(s)
  {
    assert Apply(s, a).recvQ == s.recvQ && LoopHand(Apply(s, a)) == LoopHand(s);
  }

  lemma StepKeepsReports(s: Node, a: Action)
    requires Enabled(s, a)
    ensures Taken(s, a) + Reports(Apply(s, a)) == Reports(s) + Refusal(s, a)
  {
    if a.TakeMsg? {
      TakeKeepsReports(s);
    } else if a.Forward? || a.SweepForward? {
      ForwardKeepsReports(s, a);
    } else if a.PopSend? {
      PopKeepsReports(s, a.ok);
    } else if a.PushEmitted? {
      PushKeepsReports(s);
    } else if a.Deliver? {
      DeliverKeepsReports(s, a.e);
    } else {
      OthersKeepReports(s, a);
    }
  }

  lemma Joined<T>(a: seq<T>, b: seq<T>, c: seq<T>, d: seq<T>, e: seq<T>, f: seq<T>, g: seq<T>)
    requires a + b == c + d && b + e == f + g
    ensures c + (d + e) == (a + f) + g
  {
    assert c + (d + e) == c + d + e && a + b + e == a + (b + e) && a + f + g == a + (f + g);
  }

  lemma {:induction false} RunKeepsReports(s: Node, acts: seq<Action>, z: Node)
    requires Runs(s, acts, z)
    ensures Reports(s) + Refused(s, acts, z) == Told(s, acts, z) + Reports(z)
    decreases |acts|
  {
    if acts != [] {
      var a, m := acts[0], Apply(s, acts[0]);
      StepKeepsReports(s, a);
      RunKeepsReports(m, acts[1..], z);
      var refused, told := Refused(m, acts[1..], z), Told(m, acts[1..], z);
      Joined(Taken(s, a), Reports(m), Reports(s), Refusal(s, a), refused, told, Reports(z));
    }
  }

  /** Over every run, each chunk or control that toxcore refuses is reported once, in order: the message thread was
      told, or the report is on its way in recv_queue. */
  lemma {:induction false} RefusalsAreReported(s: Node, acts: seq<Action>, z: Node)
    requires Initial(s) && Runs(s, acts, z)
    ensures Refused(s, acts, z) == Told(s, acts, z) + (Errors(z.recvQ) + Errors(LoopHand(z)))
  {
    RunKeepsReports(s, acts, z);
    NoReports(s);
    ErrorsConcat(z.recvQ, LoopHand(z));
    assert [] + Refused(s, acts, z) == Refused(s, acts, z);
  }

  lemma {:induction false} NoReports(s: Node)
    requires Initial(s)
    ensures Reports(s) == []
  {
    assert s.recvQ + LoopHand(s) == [];
  }

  // The callback.

  /** While a callback is registered the message thread drops nothing but reports. */
  lemma {:induction false} NothingIgnored(s: Node, acts: seq<Action>, z: Node)
    requires Runs(s, acts, z) && s.callback && SetCallback(false) !in acts
    ensures z.ignored == s.ignored && z.callback
    decreases |acts|
  {
    if acts != [] {
      var m := Apply(s, acts[0]);
      assert acts[0] != SetCallback(false);
      CallbackStays(s, acts[0]);
      NothingIgnored(m, acts[1..], z);
    }
  }

  lemma CallbackStays(s: Node, a: Action)
    requires Enabled(s, a) && a != SetCallback(!s.callback)
    ensures Apply(s, a).callback == s.callback
    ensures s.callback ==> Apply(s, a).ignored == s.ignored
    ensures !s.callback && s.msgHand.None? ==> Apply(s, a).msgHand.None?
  {
    if !a.TakeMsg? { LeavesMsg(s, a); }
  }

  /** And while there is none it hands nothing on. */
  lemma {:induction false} NothingHandedOn(s: Node, acts: seq<Action>, z: Node)
    requires Runs(s, acts, z) && !s.callback && SetCallback(true) !in acts && s.msgHand.None?
    ensures z.msgHand.None? && !z.callback
    decreases |acts|
  {
    if acts != [] {
      assert acts[0] != SetCallback(true);
      CallbackStays(s, acts[0]);
      NothingHandedOn(Apply(s, acts[0]), acts[1..], z);
    }
  }

  /** What the last step that sets or clears the callback said. */
  function LastSet(start: bool, acts: seq<Action>): bool
    decreases |acts|
  {
    if acts == [] then start else LastSet(if acts[0].SetCallback? then acts[0].on else start, acts[1..])
  }

  lemma {:induction false} CallbackIsLastSet(s: Node, acts: seq<Action>, z: Node)
    requires Runs(s, acts, z)
    ensures z.callback == LastSet(s.callback, acts)
    decreases |acts|
  {
    if acts != [] {
      if !acts[0].SetCallback? { CallbackStays(s, acts[0]); }
      CallbackIsLastSet(Apply(s, acts[0]), acts[1..], z);
    }
  }

  // Looking at send_queue.

  lemma WaitingStays(s: Node, a: Action)
    requires Enabled(s, a) && s.sendQ != [] && !a.PopSend?
    ensures Apply(s, a).sendQ != [] && !a.PopTimeout?
  {
    if a.RunWork? {
      RunKeepsRest(s, a);
    } else if !a.PutSend? && !a.UserSend? {
      LeavesDown(s, a);
    }
  }

  /** While a message waits in send_queue the loop thread does not leave it without one, not even at its deadline. */
  lemma {:induction false} NoEmptyHanded(s: Node, acts: seq<Action>, z: Node)
    requires Runs(s, acts, z) && s.sendQ != [] && forall a :: a in acts ==> !a.PopSend?
    ensures PopTimeout !in acts && z.sendQ != []
    decreases |acts|
  {
    if acts != [] {
      assert acts[0] in acts;
      WaitingStays(s, acts[0]);
      NoEmptyHanded(Apply(s, acts[0]), acts[1..], z);
    }
  }
}
