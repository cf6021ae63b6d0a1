/** `message_queue`: a bounded queue behind one mutex and two condition variables, used by any number
    of threads. A thread is always at one of the program points of `Pc`; what it does while it holds
    the mutex is one step, and so is every `notify_one`, which comes after the unlock. */
module MessageQueue {
  import opened Basics

  /** How a call waits: for ever, until a deadline (`*_timeout`, `*_until_time`), or not at all (`try_pop`). */
  datatype Mode = Forever | Timed | Try

  datatype Pc<T> =
    | Idle
      // about to take the mutex and test the predicate; `notified`: a notify_one chose this thread;
      // `expired`: its wait ended with a timeout
    | PushReady(item: T, mode: Mode, notified: bool, expired: bool)
    | PopReady(mode: Mode, notified: bool, expired: bool)
      // waiting on cond_pop_, respectively cond_push_
    | PushAsleep(item: T, mode: Mode)
    | PopAsleep(mode: Mode)
      // item stored or taken, mutex released, notify_one still to come
    | OwesPush
    | OwesPop(taken: T)

  datatype Queue<T> = Queue(max: nat, items: seq<T>, pcs: map<nat, Pc<T>>, pushed: seq<T>, popped: seq<T>)

  datatype Action<T> =
    | CallPush(t: nat, item: T, mode: Mode)
    | CallPop(t: nat, mode: Mode)
    | Lock(t: nat)
    | Expire(t: nat)
    | Spurious(t: nat)
    | Notify(t: nat, who: Option<nat>)

  ghost predicate Enabled<T>(s: Queue<T>, a: Action<T>) {
    a.t in s.pcs &&
    var pc := s.pcs[a.t];
    match a
    case CallPush(_, _, mode) => pc.Idle? && !mode.Try?
    case CallPop(_, _) => pc.Idle?
    case Lock(_) => pc.PushReady? || pc.PopReady?
    case Expire(_) =>
      || ((pc.PushAsleep? || pc.PopAsleep?) && pc.mode.Timed?)
      || ((pc.PushReady? || pc.PopReady?) && pc.mode.Timed? && pc.notified)
    case Spurious(_) => pc.PushAsleep? || pc.PopAsleep?
    case Notify(_, who) =>
      if pc.OwesPush? then Chooses(s, who, PopSleepers(s.pcs))
      else pc.OwesPop? && Chooses(s, who, PushSleepers(s.pcs))
  }

  /** notify_one wakes one of the waiting threads if there is any. */
  ghost predicate Chooses<T>(s: Queue<T>, who: Option<nat>, asleep: set<nat>) {
    match who
    case None => asleep == {}
    case Some(w) => w in asleep
  }

  ghost function PopSleepers<T>(pcs: map<nat, Pc<T>>): set<nat> {
    set t | t in pcs && pcs[t].PopAsleep?
  }

  ghost function PushSleepers<T>(pcs: map<nat, Pc<T>>): set<nat> {
    set t | t in pcs && pcs[t].PushAsleep?
  }

  /** Threads that will wake a consumer, or are a woken consumer: push-notifies owed and consumers notified. */
  ghost function PopWakers<T>(pcs: map<nat, Pc<T>>): set<nat> {
    set t | t in pcs && WakesPop(pcs[t])
  }

  /** Pop-notifies owed and producers notified. */
  ghost function PushWakers<T>(pcs: map<nat, Pc<T>>): set<nat> {
    set t | t in pcs && WakesPush(pcs[t])
  }

  /** The locked part of push, push_timeout and push_until_time. */
  function LockedPush<T>(s: Queue<T>, t: nat): Queue<T>
    requires t in s.pcs && s.pcs[t].PushReady?
  {
    var pc := s.pcs[t];
    if |s.items| < s.max then
      s.(items := s.items + [pc.item], pushed := s.pushed + [pc.item], pcs := s.pcs[t := OwesPush])
    else if pc.expired then s.(pcs := s.pcs[t := Idle])
    else s.(pcs := s.pcs[t := PushAsleep(pc.item, pc.mode)])
  }

  /** The locked part of pop, try_pop, pop_timeout and pop_until_time. */
  function LockedPop<T>(s: Queue<T>, t: nat): Queue<T>
    requires t in s.pcs && s.pcs[t].PopReady?
  {
    var pc := s.pcs[t];
    if s.items != [] then
      s.(items := s.items[1..], popped := s.popped + [s.items[0]], pcs := s.pcs[t := OwesPop(s.items[0])])
    else if pc.expired || pc.mode.Try? then s.(pcs := s.pcs[t := Idle])
    else s.(pcs := s.pcs[t := PopAsleep(pc.mode)])
  }

  function Woken<T>(pc: Pc<T>, notified: bool, expired: bool): Pc<T> {
    match pc
    case PushAsleep(v, m) => PushReady(v, m, notified, expired)
    case PopAsleep(m) => PopReady(m, notified, expired)
    case PushReady(v, m, n, e) => PushReady(v, m, n || notified, e || expired)
    case PopReady(m, n, e) => PopReady(m, n || notified, e || expired)
    case _ => pc
  }

  ghost function Apply<T>(s: Queue<T>, a: Action<T>): Queue<T>
    requires Enabled(s, a)
  {
    match a
    case CallPush(t, v, mode) => s.(pcs := s.pcs[t := PushReady(v, mode, false, false)])
    case CallPop(t, mode) => s.(pcs := s.pcs[t := PopReady(mode, false, false)])
    case Lock(t) => if s.pcs[t].PushReady? then LockedPush(s, t) else LockedPop(s, t)
    case Expire(t) => s.(pcs := s.pcs[t := Woken(s.pcs[t], false, true)])
    case Spurious(t) => s.(pcs := s.pcs[t := Woken(s.pcs[t], false, false)])
    case Notify(t, None) => s.(pcs := s.pcs[t := Idle])
    case Notify(t, Some(w)) => s.(pcs := s.pcs[t := Idle][w := Woken(s.pcs[w], true, false)])
  }

  ghost predicate Initial<T>(s: Queue<T>) {
    && s.items == s.pushed == s.popped == []
    && forall t :: t in s.pcs ==> s.pcs[t].Idle?
  }

  ghost predicate Runs<T>(s: Queue<T>, acts: seq<Action<T>>, z: Queue<T>)
    decreases |acts|
  {
    if acts == [] then s == z
    else Enabled(s, acts[0]) && Runs(Apply(s, acts[0]), acts[1..], z)
  }

  /** Sleepers are matched by wake-ups already under way, and the queue is first-in first-out. */
  ghost predicate Inv<T>(s: Queue<T>) {
    && (PopSleepers(s.pcs) != {} ==> |s.items| <= |PopWakers(s.pcs)|)
    && (PushSleepers(s.pcs) != {} ==> s.max - |s.items| <= |PushWakers(s.pcs)|)
    && |s.items| <= s.max
    && s.pushed == s.popped + s.items
  }

  predicate WakesPop<T>(pc: Pc<T>) {
    pc.OwesPush? || (pc.PopReady? && pc.notified)
  }

  predicate WakesPush<T>(pc: Pc<T>) {
    pc.OwesPop? || (pc.PushReady? && pc.notified)
  }

  function One(b: bool): int {
    if b then 1 else 0
  }

  lemma CountAfterMove(before: set<nat>, after: set<nat>, t: nat)
    requires forall u :: u != t ==> (u in after <==> u in before)
    ensures |after| == |before| - One(t in before) + One(t in after)
  {
    assert before - {t} == after - {t};
    assert t in before ==> before == before - {t} + {t};
    assert t in after ==> after == after - {t} + {t};
  }

  /** How the waker counts and the sleepers change when thread `t` moves to `pc`. */
  lemma Move<T>(pcs: map<nat, Pc<T>>, t: nat, pc: Pc<T>)
    requires t in pcs
    ensures |PopWakers(pcs[t := pc])| == |PopWakers(pcs)| - One(WakesPop(pcs[t])) + One(WakesPop(pc))
    ensures |PushWakers(pcs[t := pc])| == |PushWakers(pcs)| - One(WakesPush(pcs[t])) + One(WakesPush(pc))
    ensures PopSleepers(pcs[t := pc]) <= PopSleepers(pcs) + if pc.PopAsleep? then {t} else {}
    ensures PushSleepers(pcs[t := pc]) <= PushSleepers(pcs) + if pc.PushAsleep? then {t} else {}
  {
    CountAfterMove(PopWakers(pcs), PopWakers(pcs[t := pc]), t);
    CountAfterMove(PushWakers(pcs), PushWakers(pcs[t := pc]), t);
  }

  lemma LockKeepsInv<T>(s: Queue<T>, t: nat)
    requires Inv(s) && Enabled(s, Lock(t))
    ensures Inv(Apply(s, Lock(t)))
  {
    var z := Apply(s, Lock(t));
    Move(s.pcs, t, z.pcs[t]);
    assert z.pcs == s.pcs[t := z.pcs[t]];
    if s.pcs[t].PopReady? && s.items != [] {
      assert s.items == [s.items[0]] + s.items[1..];
    }
  }

  lemma NotifyKeepsInv<T>(s: Queue<T>, t: nat, w: nat)
    requires Inv(s) && Enabled(s, Notify(t, Some(w)))
    ensures Inv(Apply(s, Notify(t, Some(w))))
  {
    var z := Apply(s, Notify(t, Some(w)));
    Move(s.pcs, t, Idle);
    Move(s.pcs[t := Idle], w, z.pcs[w]);
    assert PopWakers(z.pcs) == PopWakers(s.pcs[t := Idle][w := z.pcs[w]]);
  }

  lemma StepKeepsInv<T>(s: Queue<T>, a: Action<T>)
    requires Inv(s) && Enabled(s, a)
    ensures Inv(Apply(s, a))
  {
    match a
    case Lock(t) => LockKeepsInv(s, t);
    case Notify(t, Some(w)) => NotifyKeepsInv(s, t, w);
    case _ =>
      var z := Apply(s, a);
      Move(s.pcs, a.t, z.pcs[a.t]);
      assert z.pcs == s.pcs[a.t := z.pcs[a.t]];
  }

  lemma {:induction false} RunKeepsInv<T>(s: Queue<T>, acts: seq<Action<T>>, z: Queue<T>)
    requires Inv(s) && Runs(s, acts, z)
    ensures Inv(z)
    decreases |acts|
  {
    if acts != [] {
      StepKeepsInv(s, acts[0]);
      RunKeepsInv(Apply(s, acts[0]), acts[1..], z);
    }
  }

  ghost predicate Reachable<T(!new)>(z: Queue<T>) {
    exists s, acts :: Initial(s) && Runs(s, acts, z)
  }

  lemma ReachableInv<T(!new)>(z: Queue<T>)
    requires Reachable(z)
    ensures Inv(z)
  {
    var s, acts :| Initial(s) && Runs(s, acts, z);
    RunKeepsInv(s, acts, z);
  }

  /** First-in first-out under every interleaving: what was pushed is what was popped and what is there. */
  lemma Linearisable<T(!new)>(z: Queue<T>)
    requires Reachable(z)
    ensures z.pushed == z.popped + z.items && |z.items| <= z.max
  {
    ReachableInv(z);
  }

  /** What a call does to the queue at the moment it holds the mutex. */
  datatype Op<T> = Enqueue(item: T) | Dequeue(item: T)

  ghost function OpOf<T>(s: Queue<T>, a: Action<T>): seq<Op<T>>
    requires Enabled(s, a)
  {
    var now := Apply(s, a).pcs[a.t];
    if !a.Lock? then []
    else if now.OwesPush? then [Enqueue(s.pcs[a.t].item)]
    else if now.OwesPop? then [Dequeue(now.taken)]
    else []
  }

  /** The operations of a run in the order in which the calls got the mutex. */
  ghost function Ops<T>(s: Queue<T>, acts: seq<Action<T>>, z: Queue<T>): seq<Op<T>>
    requires Runs(s, acts, z)
    decreases |acts|
  {
    if acts == [] then [] else OpOf(s, acts[0]) + Ops(Apply(s, acts[0]), acts[1..], z)
  }

  /** The sequential bounded queue: from contents `q` the operations are possible, and lead to `z`. */
  ghost predicate Legal<T>(max: nat, q: seq<T>, ops: seq<Op<T>>, z: seq<T>)
    decreases |ops|
  {
    if ops == [] then q == z
    else
      match ops[0]
      case Enqueue(x) => |q| < max && Legal(max, q + [x], ops[1..], z)
      case Dequeue(x) => q != [] && q[0] == x && Legal(max, q[1..], ops[1..], z)
  }

  /** Every run, of any number of threads, is a run of the sequential queue: each successful call takes effect
      at one moment between its start and its end, and each pop returns what the sequential queue would. */
  lemma {:induction false} RunIsAtomic<T>(s: Queue<T>, acts: seq<Action<T>>, z: Queue<T>)
    requires Runs(s, acts, z)
    ensures Legal(s.max, s.items, Ops(s, acts, z), z.items)
    decreases |acts|
  {
    if acts != [] {
      var m := Apply(s, acts[0]);
      RunIsAtomic(m, acts[1..], z);
      var first, rest := OpOf(s, acts[0]), Ops(m, acts[1..], z);
      if first == [] {
        assert first + rest == rest;
        assert m.items == s.items;
      } else {
        assert (first + rest)[1..] == rest;
      }
    }
  }

  /** A call that gives up after a timeout, or a try_pop on an empty queue, adds and removes nothing; it gives
      up only if there is really no room, or nothing there, at that moment. */
  lemma GivingUp<T>(s: Queue<T>, t: nat)
    requires Enabled(s, Lock(t)) && Apply(s, Lock(t)).pcs[t].Idle?
    ensures Apply(s, Lock(t)) == s.(pcs := s.pcs[t := Idle])
    ensures s.pcs[t].expired || (s.pcs[t].PopReady? && s.pcs[t].mode.Try?)
    ensures if s.pcs[t].PushReady? then |s.items| >= s.max else s.items == []
  {
  }

  /** Thread `t` is in a call and about to take the mutex. */
  predicate IsReady<T>(pc: Pc<T>) {
    pc.PushReady? || pc.PopReady?
  }

  predicate IsAsleep<T>(pc: Pc<T>) {
    pc.PushAsleep? || pc.PopAsleep?
  }

  /** The two calls are the same one, awake or asleep. */
  predicate SameCall<T(==)>(p: Pc<T>, q: Pc<T>) {
    && (IsReady(p) || IsAsleep(p)) && (IsReady(q) || IsAsleep(q))
    && p.mode == q.mode && ((p.PushReady? || p.PushAsleep?) <==> (q.PushReady? || q.PushAsleep?))
    && (p.PushReady? || p.PushAsleep? ==> p.item == q.item)
  }

  /** What a thread does with the mutex: with room, or something there, its call takes effect and it owes its notify.
      Otherwise the queue stays as it is; the call ends if its wait has expired or it is a try_pop, and otherwise the
      thread sleeps in the same call. */
  ghost predicate LockOutcome<T>(s: Queue<T>, t: nat, z: Queue<T>)
    requires t in s.pcs && IsReady(s.pcs[t])
  {
    var pc := s.pcs[t];
    && t in z.pcs
    && z == s.(items := z.items, pushed := z.pushed, popped := z.popped, pcs := s.pcs[t := z.pcs[t]])
    && if pc.PushReady? && |s.items| < s.max then
         && z.items == s.items + [pc.item] && z.pushed == s.pushed + [pc.item] && z.popped == s.popped
         && z.pcs[t].OwesPush?
       else if pc.PopReady? && s.items != [] then
         && z.pcs[t].OwesPop? && [z.pcs[t].taken] + z.items == s.items && z.popped == s.popped + [z.pcs[t].taken]
         && z.pushed == s.pushed
       else
         && z.items == s.items && z.pushed == s.pushed && z.popped == s.popped
         && if pc.expired || (pc.PopReady? && pc.mode.Try?) then z.pcs[t].Idle?
            else IsAsleep(z.pcs[t]) && SameCall(pc, z.pcs[t])
  }

  lemma LockDoes<T>(s: Queue<T>, t: nat)
    requires Enabled(s, Lock(t))
    ensures LockOutcome(s, t, Apply(s, Lock(t)))
  {
  }

  /** A thread that is not in a call may make any; one that waits may be woken for no reason, and its deadline may pass,
      also between a notify_one and the mutex; one that is awake may get the mutex. */
  lemma ThreadsAreFree<T>(s: Queue<T>, t: nat, item: T, mode: Mode)
    requires t in s.pcs
    ensures s.pcs[t].Idle? ==> Enabled(s, CallPop(t, mode)) && (!mode.Try? ==> Enabled(s, CallPush(t, item, mode)))
    ensures IsAsleep(s.pcs[t]) ==> Enabled(s, Spurious(t)) && (s.pcs[t].mode.Timed? ==> Enabled(s, Expire(t)))
    ensures IsReady(s.pcs[t]) ==> Enabled(s, Lock(t))
    ensures IsReady(s.pcs[t]) && s.pcs[t].mode.Timed? && s.pcs[t].notified ==> Enabled(s, Expire(t))
  {
  }

  /** Once its deadline has passed, a call is ready until it gets the mutex: nothing puts it back to sleep. */
  lemma {:induction false} StaysExpired<T>(s: Queue<T>, acts: seq<Action<T>>, z: Queue<T>, t: nat)
    requires Runs(s, acts, z) && Lock(t) !in acts && t in s.pcs && IsReady(s.pcs[t]) && s.pcs[t].expired
    ensures t in z.pcs && IsReady(z.pcs[t]) && z.pcs[t].expired && SameCall(s.pcs[t], z.pcs[t])
    decreases |acts|
  {
    if acts != [] {
      var m := Apply(s, acts[0]);
      assert acts[0] != Lock(t);
      StaysExpired(m, acts[1..], z, t);
    }
  }

  /** A timed call whose deadline passes, asleep or not, sleeps no more. It can take the mutex at any time, and ends
      when it does: with its effect if there is room, or something there, and otherwise without any. */
  lemma {:induction false} DeadlineEnds<T>(s: Queue<T>, t: nat, acts: seq<Action<T>>, m: Queue<T>)
    requires Enabled(s, Expire(t)) && Runs(Apply(s, Expire(t)), acts, m) && Lock(t) !in acts
    ensures t in m.pcs && SameCall(s.pcs[t], m.pcs[t]) && m.pcs[t].mode.Timed? && Enabled(m, Lock(t))
    ensures var z := Apply(m, Lock(t));
            LockOutcome(m, t, z) && (z.pcs[t].OwesPush? || z.pcs[t].OwesPop? || z.pcs[t].Idle?)
  {
    StaysExpired(Apply(s, Expire(t)), acts, m, t);
    LockDoes(m, t);
  }

  /** What a thread sets out to do when it calls. */
  predicate Calls<T(==)>(a: Action<T>, pc: Pc<T>) {
    || (a.CallPush? && pc == PushReady(a.item, a.mode, false, false))
    || (a.CallPop? && pc == PopReady(a.mode, false, false))
  }

  /** Thread `t` has taken or stored an item, or given up, at some moment of the run. */
  ghost predicate Finishes<T>(s: Queue<T>, acts: seq<Action<T>>, z: Queue<T>, t: nat)
    requires Runs(s, acts, z)
    decreases |acts|
  {
    || (t in s.pcs && !IsReady(s.pcs[t]) && !IsAsleep(s.pcs[t]))
    || (acts != [] && Finishes(Apply(s, acts[0]), acts[1..], z, t))
  }

  /** A call stays the same until it finishes: it stores the item it was given, and waits as it was told to, however
      often it sleeps and wakes in between. */
  lemma {:induction false} CallStaysTheSame<T>(s: Queue<T>, call: Pc<T>, acts: seq<Action<T>>, z: Queue<T>, t: nat)
    requires Runs(s, acts, z) && t in s.pcs && SameCall(call, s.pcs[t])
    ensures Finishes(s, acts, z, t) || (t in z.pcs && SameCall(call, z.pcs[t]))
    decreases |acts|
  {
    if acts != [] {
      var m := Apply(s, acts[0]);
      assert t in m.pcs && ((!IsReady(m.pcs[t]) && !IsAsleep(m.pcs[t])) || SameCall(call, m.pcs[t]));
      if SameCall(call, m.pcs[t]) { CallStaysTheSame(m, call, acts[1..], z, t); }
    }
  }

  lemma {:induction false} CallKeepsItsItem<T>(
    s: Queue<T>, a: Action<T>, call: Pc<T>, acts: seq<Action<T>>, z: Queue<T>)
    requires Enabled(s, a) && Calls(a, call) && Runs(Apply(s, a), acts, z)
    ensures Finishes(Apply(s, a), acts, z, a.t) || (a.t in z.pcs && SameCall(call, z.pcs[a.t]))
  {
    CallStaysTheSame(Apply(s, a), call, acts, z, a.t);
  }

  predicate HasExpired<T>(pc: Pc<T>) {
    IsReady(pc) && pc.expired
  }

  predicate IsNotified<T>(pc: Pc<T>) {
    IsReady(pc) && pc.notified
  }

  /** A thread counts as notified only if a notify_one has chosen it. */
  lemma {:induction false} OnlyTheChosenAreNotified<T>(s: Queue<T>, acts: seq<Action<T>>, z: Queue<T>, t: nat)
    requires Runs(s, acts, z) && t in s.pcs && !IsNotified(s.pcs[t])
    requires forall a :: a in acts ==> !(a.Notify? && a.who == Some(t))
    ensures t in z.pcs && !IsNotified(z.pcs[t])
    decreases |acts|
  {
    if acts != [] {
      assert acts[0] in acts;
      OnlyTheChosenAreNotified(Apply(s, acts[0]), acts[1..], z, t);
    }
  }

  /** Unless its deadline passes, a call other than try_pop does not give up, however often it is woken. */
  lemma {:induction false} NoDeadlineNoGivingUp<T>(s: Queue<T>, acts: seq<Action<T>>, m: Queue<T>, t: nat)
    requires Runs(s, acts, m) && Expire(t) !in acts && t in s.pcs && !HasExpired(s.pcs[t])
    ensures t in m.pcs && !HasExpired(m.pcs[t])
    ensures Enabled(m, Lock(t)) && !m.pcs[t].mode.Try? ==> !Apply(m, Lock(t)).pcs[t].Idle?
    decreases |acts|
  {
    if acts != [] {
      assert acts[0] != Expire(t);
      NoDeadlineNoGivingUp(Apply(s, acts[0]), acts[1..], m, t);
    }
  }

  /** No lost wake-up: behind a sleeper with work to do there is a thread that is awake and can step. */
  lemma NoLostWakeup<T(!new)>(z: Queue<T>, t: nat) returns (a: Action<T>)
    requires Reachable(z) && t in z.pcs
    requires (z.pcs[t].PopAsleep? && z.items != []) || (z.pcs[t].PushAsleep? && |z.items| < z.max)
    ensures Enabled(z, a)
    ensures if z.pcs[t].PopAsleep? then WakesPop(z.pcs[a.t]) else WakesPush(z.pcs[a.t])
    ensures a.Notify? || a.Lock?
  {
    ReachableInv(z);
    var sleepers := if z.pcs[t].PopAsleep? then PopSleepers(z.pcs) else PushSleepers(z.pcs);
    assert t in sleepers;
    var wakers := if z.pcs[t].PopAsleep? then PopWakers(z.pcs) else PushWakers(z.pcs);
    assert wakers != {};
    var w :| w in wakers;
    a := if z.pcs[w].OwesPush? || z.pcs[w].OwesPop? then Notify(w, Some(t)) else Lock(w);
  }

  /** When nobody is awake inside a call, the sleepers are right to sleep, and they are all of one kind. */
  lemma AllAsleepMeansNothingToDo<T(!new)>(z: Queue<T>)
    requires Reachable(z)
    requires forall t :: t in z.pcs ==> z.pcs[t].Idle? || z.pcs[t].PopAsleep? || z.pcs[t].PushAsleep?
    ensures PopSleepers(z.pcs) != {} ==> z.items == []
    ensures PushSleepers(z.pcs) != {} ==> |z.items| == z.max
    ensures z.max > 0 ==> PopSleepers(z.pcs) == {} || PushSleepers(z.pcs) == {}
  {
    ReachableInv(z);
    assert PopWakers(z.pcs) == {} && PushWakers(z.pcs) == {};
  }

  /** The class: its methods are the critical sections, each with the notify that follows as its own step. */
  class BoundedQueue<T> {
    const max: nat
    var items: seq<T>
    var pcs: map<nat, Pc<T>>
    ghost var pushed: seq<T>
    ghost var popped: seq<T>

    ghost function State(): Queue<T>
      reads this
    {
      Queue(max, items, pcs, pushed, popped)
    }

    constructor (max: nat, threads: set<nat>)
      ensures State() == Queue(max, [], map t | t in threads :: Idle, [], [])
      ensures Inv(State())
    {
      this.max := max;
      items, pushed, popped := [], [], [];
      pcs := map t | t in threads :: Idle;
      new;
      assert PopSleepers(pcs) == {} && PushSleepers(pcs) == {};
    }

    method Push(t: nat)
      requires t in pcs && pcs[t].PushReady? && Inv(State())
      modifies this
      ensures State() == Apply(old(State()), Lock(t)) && Inv(State())
      ensures LockOutcome(old(State()), t, State())
    {
      StepKeepsInv(State(), Lock(t));
      var pc := pcs[t];
      if |items| >= max {
        // the predicate of cond_pop_.wait is false
        pcs := pcs[t := if pc.expired then Idle else PushAsleep(pc.item, pc.mode)];
        return;
      }
      items := items + [pc.item];
      pushed := pushed + [pc.item];
      pcs := pcs[t := OwesPush];
    }

    method Pop(t: nat) returns (ret: Option<T>)
      requires t in pcs && pcs[t].PopReady? && Inv(State())
      modifies this
      ensures State() == Apply(old(State()), Lock(t)) && Inv(State())
      ensures LockOutcome(old(State()), t, State())
      ensures ret == if old(items) == [] then None else Some(old(items)[0])
    {
      StepKeepsInv(State(), Lock(t));
      var pc := pcs[t];
      if items == [] {
        // the predicate of cond_push_.wait is false
        pcs := pcs[t := if pc.expired || pc.mode.Try? then Idle else PopAsleep(pc.mode)];
        return None;
      }
      ret := Some(items[0]);
      popped := popped + [items[0]];
      items := items[1..];
      pcs := pcs[t := OwesPop(ret.value)];
    }

    method NotifyOne(t: nat)
      requires t in pcs && (pcs[t].OwesPush? || pcs[t].OwesPop?) && Inv(State())
      modifies this
      ensures exists who :: Enabled(old(State()), Notify(t, who)) && State() == Apply(old(State()), Notify(t, who))
      ensures Inv(State())
    {
      var asleep := set w | w in pcs && if pcs[t].OwesPush? then pcs[w].PopAsleep? else pcs[w].PushAsleep?;
      ghost var who := None;
      assert asleep == if pcs[t].OwesPush? then PopSleepers(pcs) else PushSleepers(pcs);
      if asleep == {} {
        pcs := pcs[t := Idle];
      } else {
        var w :| w in asleep;
        who := Some(w);
        pcs := pcs[t := Idle][w := Woken(pcs[w], true, false)];
      }
      assert Enabled(old(State()), Notify(t, who)) && State() == Apply(old(State()), Notify(t, who));
      StepKeepsInv(old(State()), Notify(t, who));
    }
  }
}
