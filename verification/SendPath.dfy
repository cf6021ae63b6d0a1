/** `send_path`: the loop that asks toxcore to send each file and keeps a future, and the loop that takes the
    futures and queues a registration for each; against the loop thread, which fulfils the promises, and
    against anything else that is pushed on send_queue in between. */
module SendPath {
  import opened Basics
  import opened FileEvents
  import Node

  datatype FileInfo = FileInfo(path: string, name: string, size: U64)

  /** What tox_file_send yields. */
  datatype Verdict = Assigned(id: Id) | Refused

  // The two loops.

  /** The closures queued when the futures yield `answers`: up to the first refusal. */
  function Registrations(files: seq<FileInfo>, answers: seq<Verdict>): seq<Event>
    requires |files| == |answers|
  {
    if files == [] || answers[0].Refused? then []
    else [Register(answers[0].id, files[0].path, files[0].size)] + Registrations(files[1..], answers[1..])
  }

  /** `answers` stands for what the futures yield once they are ready. */
  method SendFiles(friend: nat, files: seq<FileInfo>, answers: seq<Verdict>)
    returns (asked: seq<SendMsg>, closures: seq<Event>, ok: bool)
    requires |answers| == |files|
    ensures |asked| == |files|
    ensures forall i :: 0 <= i < |files| ==> asked[i] == FileSend(friend, files[i].name, files[i].size)
    ensures closures == Registrations(files, answers)
    ensures ok <==> forall i :: 0 <= i < |files| ==> answers[i].Assigned?
  {
    asked, closures := [], [];
    for i := 0 to |files|
      invariant |asked| == i
      invariant forall k :: 0 <= k < i ==> asked[k] == FileSend(friend, files[k].name, files[k].size)
    {
      asked := asked + [FileSend(friend, files[i].name, files[i].size)];
    }
    for i := 0 to |files|
      invariant forall k :: 0 <= k < i ==> answers[k].Assigned?
      invariant closures + Registrations(files[i..], answers[i..]) == Registrations(files, answers)
    {
      assert files[i..][1..] == files[i + 1..] && answers[i..][1..] == answers[i + 1..];
      if answers[i].Refused? {
        return asked, closures, false;
      }
      closures := closures + [Register(answers[i].id, files[i].path, files[i].size)];
    }
    return asked, closures, true;
  }

  /** Exactly the files before the first refusal are registered, each with its own id, path and size. */
  lemma {:induction false} RegistrationsMatch(files: seq<FileInfo>, answers: seq<Verdict>, i: nat)
    requires |files| == |answers|
    ensures i < |Registrations(files, answers)| <==>
            i < |files| && forall k :: 0 <= k <= i ==> answers[k].Assigned?
    ensures i < |Registrations(files, answers)| ==>
              Registrations(files, answers)[i] == Register(answers[i].id, files[i].path, files[i].size)
  {
    if files != [] && answers[0].Assigned? {
      if i > 0 {
        RegistrationsMatch(files[1..], answers[1..], i - 1);
        forall k | 0 <= k < |answers| - 1 ensures answers[1..][k] == answers[k + 1] {}
        if forall k :: 0 <= k <= i - 1 && k < |answers[1..]| ==> answers[1..][k].Assigned? {
          forall k | 0 <= k <= i && k < |answers| ensures answers[k].Assigned? {
            if k > 0 { assert answers[1..][k - 1] == answers[k]; }
          }
        }
      }
    }
  }

  // The promises.

  /** A message of send_queue with the promise it carries; a request to send a file has one. */
  datatype Queued = Queued(message: SendMsg, promise: Option<nat>)

  /** A call of tox_file_send and what it yielded. */
  datatype Call = Call(queued: Queued, verdict: Verdict)

  /** One call of send_path, with its promises `base`, `base + 1`, ..., and send_queue. The logs hold the messages
      with a promise that were pushed, and the calls that toxcore got, in their order. */
  datatype State = State(
    friend: nat, base: nat, files: seq<FileInfo>, sent: nat, taken: nat, failed: bool,
    queue: seq<Queued>, promises: map<nat, Verdict>, closures: seq<Event>,
    pushed: seq<Queued>, calls: seq<Call>)

  datatype Action = Push | PushOther(q: Queued) | Pop(v: Verdict) | TakeFuture

  /** The request for file `i` of this call. */
  function AskFor(s: State, i: nat): Queued
    requires i < |s.files|
  {
    Queued(FileSend(s.friend, s.files[i].name, s.files[i].size), Some(s.base + i))
  }

  predicate IsOwn(s: State, t: nat) {
    s.base <= t < s.base + |s.files|
  }

  ghost predicate Enabled(s: State, a: Action) {
    match a
    case Push => s.sent < |s.files| && |s.queue| < Node.SEND_MAX
    // anything from another thread; a request to send a file has a promise of its own
    case PushOther(q) => |s.queue| < Node.SEND_MAX && IsOthers(s, q)
    case Pop(_) => s.queue != []
    case TakeFuture => s.sent == |s.files| && s.taken < |s.files| && !s.failed && s.base + s.taken in s.promises
  }

  /** Other threads may push whenever there is room, and toxcore may yield what it likes. */
  lemma InputsAreFree(s: State, q: Queued, v: Verdict)
    ensures s.queue != [] ==> Enabled(s, Pop(v))
    ensures |s.queue| < 512 && IsOthers(s, q) ==> Enabled(s, PushOther(q))
  {
  }

  /** A message of another thread: one to send a file has a new promise of its own, and no other has one. */
  ghost predicate IsOthers(s: State, q: Queued) {
    if q.message.FileSend? then
      q.promise.Some? && !IsOwn(s, q.promise.value) && q.promise.value !in Promises(s.pushed)
    else q.promise.None?
  }

  function WithPushed(s: State, q: Queued): State {
    s.(queue := s.queue + [q], pushed := if q.promise.Some? then s.pushed + [q] else s.pushed)
  }

  function Apply(s: State, a: Action): State
    requires Enabled(s, a)
  {
    match a
    case Push => WithPushed(s, AskFor(s, s.sent)).(sent := s.sent + 1)
    case PushOther(q) => WithPushed(s, q)
    case Pop(v) =>
      var q := s.queue[0];
      var s1 := s.(queue := s.queue[1..]);
      if q.promise.None? then s1
      else s1.(promises := s1.promises[q.promise.value := v], calls := s1.calls + [Call(q, v)])
    case TakeFuture =>
      var f := s.files[s.taken];
      match s.promises[s.base + s.taken]
      case Refused => s.(failed := true)
      case Assigned(id) => s.(taken := s.taken + 1, closures := s.closures + [Register(id, f.path, f.size)])
  }

  predicate Initial(s: State) {
    && s.sent == s.taken == 0 && !s.failed && s.queue == [] && s.promises == map[] && s.closures == []
    && s.pushed == [] && s.calls == []
  }

  ghost predicate Runs(s: State, acts: seq<Action>, z: State)
    decreases |acts|
  {
    if acts == [] then s == z
    else Enabled(s, acts[0]) && Runs(Apply(s, acts[0]), acts[1..], z)
  }

  function IfPromised(m: Queued): seq<Queued> {
    if m.promise.Some? then [m] else []
  }

  /** The messages with a promise, in order. */
  function Carried(q: seq<Queued>): seq<Queued> {
    if q == [] then [] else IfPromised(q[0]) + Carried(q[1..])
  }

  lemma {:induction false} CarriedSnoc(q: seq<Queued>, m: Queued)
    ensures Carried(q + [m]) == Carried(q) + IfPromised(m)
  {
    if q == [] {
      assert q + [m] == [m] && [m][1..] == [];
    } else {
      assert (q + [m])[1..] == q[1..] + [m];
      CarriedSnoc(q[1..], m);
    }
  }

  function Promises(q: seq<Queued>): set<nat> {
    set m | m in q && m.promise.Some? :: m.promise.value
  }

  function Requests(calls: seq<Call>): seq<Queued> {
    seq(|calls|, k requires 0 <= k < |calls| => calls[k].queued)
  }

  /** Every message has a promise, and no two the same. */
  ghost predicate Distinct(q: seq<Queued>) {
    && (forall k :: 0 <= k < |q| ==> q[k].promise.Some?)
    && (forall i, j :: 0 <= i < j < |q| ==> q[i].promise != q[j].promise)
  }

  ghost predicate Called(calls: seq<Call>, t: nat) {
    exists k :: 0 <= k < |calls| && calls[k].queued.promise == Some(t)
  }

  /** The promise of call `k` holds what this call yielded. */
  predicate Answered(s: State, k: nat)
    requires k < |s.calls|
  {
    s.calls[k].queued.promise.Some? && Find(s.promises, s.calls[k].queued.promise.value) == Some(s.calls[k].verdict)
  }

  /** The future of file `i` yielded an id, and the file was registered under it. */
  predicate Registers(s: State, i: nat)
    requires i < |s.files| && i < |s.closures|
  {
    s.base + i in s.promises && s.promises[s.base + i].Assigned? &&
    s.closures[i] == Register(s.promises[s.base + i].id, s.files[i].path, s.files[i].size)
  }

  /** Message `m` is what send_path pushed for its promise, if it is one of this call. */
  predicate Genuine(s: State, m: Queued) {
    m.promise.Some? && IsOwn(s, m.promise.value) ==>
      m.promise.value - s.base < s.sent && m == AskFor(s, m.promise.value - s.base)
  }

  /** Messages, calls and promises. */
  ghost predicate LogInv(s: State) {
    && s.sent <= |s.files| && |s.queue| <= Node.SEND_MAX
    // every message pushed was popped, and toxcore called with it, or is still queued, in order
    && s.pushed == Requests(s.calls) + Carried(s.queue)
    && Distinct(s.pushed)
    && (forall m :: m in s.pushed ==> Genuine(s, m))
    // the promises hold what the calls yielded
    && (forall k :: 0 <= k < |s.calls| ==> Answered(s, k))
    && (forall t :: t in s.promises ==> Called(s.calls, t))
  }

  /** The closures are those of the futures taken. */
  ghost predicate TakenInv(s: State) {
    && s.taken <= |s.files| && |s.closures| == s.taken
    && (s.taken > 0 || s.failed ==> s.sent == |s.files|)
    && (forall i :: 0 <= i < s.taken ==> Registers(s, i))
    && (s.failed ==> s.taken < |s.files| && Find(s.promises, s.base + s.taken) == Some(Refused))
  }

  ghost predicate Inv(s: State) {
    LogInv(s) && TakenInv(s)
  }

  lemma DistinctSnoc(q: seq<Queued>, m: Queued)
    requires Distinct(q) && m.promise.Some? && m.promise.value !in Promises(q)
    ensures Distinct(q + [m])
  {
    forall k | 0 <= k < |q| ensures q[k].promise != m.promise {
      assert q[k] in q;
    }
  }

  lemma PushKeepsPushed(s: State, q: Queued, own: bool)
    requires LogInv(s)
    requires own ==> s.sent < |s.files| && q == AskFor(s, s.sent)
    requires !own ==> (q.promise.Some? ==> !IsOwn(s, q.promise.value) && q.promise.value !in Promises(s.pushed))
    ensures Distinct(s.pushed + IfPromised(q))
    ensures var z := s.(sent := if own then s.sent + 1 else s.sent);
            forall m :: m in s.pushed + IfPromised(q) ==> Genuine(z, m)
  {
    var z := s.(sent := if own then s.sent + 1 else s.sent);
    forall m | own && m in s.pushed ensures m.promise != q.promise { assert Genuine(s, m); }
    if q.promise.Some? { DistinctSnoc(s.pushed, q); } else { assert s.pushed + IfPromised(q) == s.pushed; }
    forall m | m in s.pushed + IfPromised(q) ensures Genuine(z, m) {
      assert m in s.pushed ==> Genuine(s, m);
    }
  }

  lemma SameAnswers(s: State, z: State)
    requires forall k :: 0 <= k < |s.calls| ==> Answered(s, k)
    requires z.calls == s.calls && z.promises == s.promises
    ensures forall k :: 0 <= k < |z.calls| ==> Answered(z, k)
  {
    forall k | 0 <= k < |z.calls| ensures Answered(z, k) { assert Answered(s, k); }
  }

  lemma SameGenuine(y: State, z: State, ms: seq<Queued>)
    requires forall m :: m in ms ==> Genuine(y, m)
    requires z == y.(queue := z.queue, pushed := z.pushed)
    ensures forall m :: m in ms ==> Genuine(z, m)
  {
    forall m | m in ms ensures Genuine(z, m) { assert Genuine(y, m); }
  }

  lemma PushKeepsLog(s: State, q: Queued, own: bool)
    requires LogInv(s) && |s.queue| < Node.SEND_MAX
    requires own ==> s.sent < |s.files| && q == AskFor(s, s.sent)
    requires !own ==> (q.promise.Some? ==> !IsOwn(s, q.promise.value) && q.promise.value !in Promises(s.pushed))
    ensures LogInv(WithPushed(s, q).(sent := if own then s.sent + 1 else s.sent))
  {
    var y := s.(sent := if own then s.sent + 1 else s.sent);
    var z := y.(queue := s.queue + [q], pushed := s.pushed + IfPromised(q));
    PushKeepsPushed(s, q, own);
    CarriedSnoc(s.queue, q);
    var asked := Requests(s.calls);
    assert asked + Carried(s.queue) + IfPromised(q) == asked + (Carried(s.queue) + IfPromised(q));
    assert z == WithPushed(s, q).(sent := y.sent) by { assert q.promise.None? ==> s.pushed + [] == s.pushed; }
    SameGenuine(y, z, z.pushed);
    SameAnswers(s, z);
  }

  /** The promise at the head of the queue was not fulfilled before. */
  lemma HeadIsNew(s: State)
    requires LogInv(s) && s.queue != [] && s.queue[0].promise.Some?
    ensures s.queue[0].promise.value !in s.promises
    ensures s.pushed == Requests(s.calls) + [s.queue[0]] + Carried(s.queue[1..])
    ensures forall k :: 0 <= k < |s.calls| ==> s.calls[k].queued.promise != s.queue[0].promise
  {
    var q, n := s.queue[0], |s.calls|;
    assert s.pushed == Requests(s.calls) + [q] + Carried(s.queue[1..]);
    assert s.pushed[n] == q;
    forall k | 0 <= k < n ensures s.calls[k].queued.promise != q.promise {
      assert s.pushed[k] == s.calls[k].queued;
    }
    assert q.promise.value in s.promises ==> Called(s.calls, q.promise.value);
  }

  lemma CalledSnoc(calls: seq<Call>, c: Call, t: nat)
    requires Called(calls, t) || c.queued.promise == Some(t)
    ensures Called(calls + [c], t)
  {
    if Called(calls, t) {
      var k :| 0 <= k < |calls| && calls[k].queued.promise == Some(t);
      assert (calls + [c])[k].queued.promise == Some(t);
    } else {
      assert (calls + [c])[|calls|] == c;
    }
  }

  lemma PopKeepsLog(s: State, v: Verdict)
    requires LogInv(s) && Enabled(s, Pop(v)) && s.queue[0].promise.Some?
    ensures LogInv(Apply(s, Pop(v)))
  {
    var z, q := Apply(s, Pop(v)), s.queue[0];
    HeadIsNew(s);
    assert Requests(z.calls) == Requests(s.calls) + [q];
    forall k | 0 <= k < |z.calls| ensures Answered(z, k) {
      if k < |s.calls| { assert Answered(s, k); }
    }
    forall t | t in z.promises ensures Called(z.calls, t) { CalledSnoc(s.calls, Call(q, v), t); }
    forall m | m in z.pushed ensures Genuine(z, m) { assert Genuine(s, m); }
  }

  /** A step that touches neither the messages with promises nor the calls. */
  lemma OtherKeepsLog(s: State, a: Action)
    requires LogInv(s) && Enabled(s, a)
    requires a.TakeFuture? || (a.Pop? && s.queue[0].promise.None?)
    ensures LogInv(Apply(s, a))
  {
    var z := Apply(s, a);
    assert z.calls == s.calls && z.promises == s.promises && z.pushed == s.pushed;
    assert Carried(z.queue) == Carried(s.queue);
    forall k | 0 <= k < |z.calls| ensures Answered(z, k) { assert Answered(s, k); }
    forall m | m in z.pushed ensures Genuine(z, m) { assert Genuine(s, m); }
  }

  lemma StepKeepsLog(s: State, a: Action)
    requires LogInv(s) && Enabled(s, a)
    ensures LogInv(Apply(s, a))
  {
    if a.Push? {
      PushKeepsLog(s, AskFor(s, s.sent), true);
    } else if a.PushOther? {
      PushKeepsLog(s, a.q, false);
    } else if a.Pop? && s.queue[0].promise.Some? {
      PopKeepsLog(s, a.v);
    } else {
      OtherKeepsLog(s, a);
    }
  }

  /** No promise that was taken, or found to be refused, changes. */
  lemma StepKeepsTaken(s: State, a: Action)
    requires LogInv(s) && TakenInv(s) && Enabled(s, a)
    ensures TakenInv(Apply(s, a))
  {
    var z := Apply(s, a);
    if a.Pop? && s.queue[0].promise.Some? { HeadIsNew(s); }
    assert forall t :: t in s.promises ==> t in z.promises && z.promises[t] == s.promises[t];
    forall i | 0 <= i < s.taken ensures Registers(z, i) { assert Registers(s, i); }
    if a.TakeFuture? && s.promises[s.base + s.taken].Assigned? { assert Registers(z, s.taken); }
  }

  lemma {:induction false} RunKeepsInv(s: State, acts: seq<Action>, z: State)
    requires Inv(s) && Runs(s, acts, z)
    ensures Inv(z)
    decreases |acts|
  {
    if acts != [] {
      StepKeepsLog(s, acts[0]);
      StepKeepsTaken(s, acts[0]);
      RunKeepsInv(Apply(s, acts[0]), acts[1..], z);
    }
  }

  ghost predicate Reachable(z: State) {
    exists s, acts :: Initial(s) && Runs(s, acts, z)
  }

  lemma ReachableInv(z: State)
    requires Reachable(z)
    ensures Inv(z)
  {
    var s, acts :| Initial(s) && Runs(s, acts, z);
    assert Inv(s);
    RunKeepsInv(s, acts, z);
  }

  /** Under every interleaving, toxcore is called with the messages that carry a promise in the order in which they
      were pushed, once with each; a promise is fulfilled exactly when its call is made, and a pop never meets one
      that is fulfilled already. */
  lemma PromisesFulfilledOnce(z: State)
    requires Reachable(z)
    ensures z.pushed == Requests(z.calls) + Carried(z.queue)
    ensures forall j, k :: 0 <= j < k < |z.calls| ==> z.calls[j].queued.promise != z.calls[k].queued.promise
    ensures forall t :: t in z.promises <==> Called(z.calls, t)
    ensures z.queue != [] && z.queue[0].promise.Some? ==> z.queue[0].promise.value !in z.promises
  {
    ReachableInv(z);
    forall j, k | 0 <= j < k < |z.calls| ensures z.calls[j].queued.promise != z.calls[k].queued.promise {
      assert z.pushed[j] == z.calls[j].queued && z.pushed[k] == z.calls[k].queued;
    }
    forall t | Called(z.calls, t) ensures t in z.promises {
      var k :| 0 <= k < |z.calls| && z.calls[k].queued.promise == Some(t);
      assert Answered(z, k);
    }
    if z.queue != [] && z.queue[0].promise.Some? { HeadIsNew(z); }
  }

  /** The future of file `i` is ready only after toxcore was called to send this very file to this friend, and it
      yields what that call, and no other, yielded. */
  lemma FutureIsOfItsFile(z: State, i: nat) returns (k: nat)
    requires Reachable(z) && i < |z.files| && z.base + i in z.promises
    ensures k < |z.calls| && z.calls[k].queued == AskFor(z, i) && z.calls[k].verdict == z.promises[z.base + i]
    ensures forall j :: 0 <= j < |z.calls| && z.calls[j].queued.promise == Some(z.base + i) ==> j == k
  {
    ReachableInv(z);
    PromisesFulfilledOnce(z);
    assert Called(z.calls, z.base + i);
    k :| 0 <= k < |z.calls| && z.calls[k].queued.promise == Some(z.base + i);
    assert Answered(z, k) && z.pushed[k] == z.calls[k].queued;
    assert z.calls[k].queued in z.pushed;
    assert Genuine(z, z.calls[k].queued);
  }

  /** Each file registered, in order, is registered under the id that toxcore assigned when it was called with this
      very file, with the file's own path and size. */
  lemma FuturesPair(z: State, i: nat) returns (k: nat)
    requires Reachable(z) && i < |z.closures|
    ensures i < |z.files| && k < |z.calls|
    ensures z.calls[k].queued == Queued(FileSend(z.friend, z.files[i].name, z.files[i].size), Some(z.base + i))
    ensures z.calls[k].verdict.Assigned?
    ensures z.closures[i] == Register(z.calls[k].verdict.id, z.files[i].path, z.files[i].size)
    ensures forall j :: 0 <= j < |z.calls| && z.calls[j].queued.promise == Some(z.base + i) ==> j == k
  {
    ReachableInv(z);
    assert Registers(z, i);
    k := FutureIsOfItsFile(z, i);
  }

  /** No future is looked at before every file of the call was asked for; so toxcore gets them all, refused or not. */
  lemma AllAskedFirst(z: State)
    requires Reachable(z) && (z.closures != [] || z.failed)
    ensures z.sent == |z.files|
  {
    ReachableInv(z);
  }

  /** If a future fails, exactly the files before it are registered, and it fails because toxcore refused its file. */
  lemma FailureStops(z: State) returns (k: nat)
    requires Reachable(z) && z.failed
    ensures |z.closures| < |z.files| && k < |z.calls|
    ensures z.calls[k] == Call(AskFor(z, |z.closures|), Refused)
  {
    ReachableInv(z);
    k := FutureIsOfItsFile(z, |z.closures|);
  }
}
