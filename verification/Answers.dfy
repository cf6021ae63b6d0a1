/** What the work thread answers, and that its answers reach toxcore. */
module Answers {
  import opened Basics
  import opened FileEvents
  import opened TransferCtrl
  import opened Node
  import opened NodeInvariants
  import opened Conservation
  import opened Lifecycle

  /** Which closures answer, and what they do to the disk. A reception under a free id is answered with a resume,
      whether or not its file could be opened, and under a taken id not at all; but its file is emptied in either
      case. */
  lemma {:induction false} WhoReplies(s: Node, k: nat)
    requires Reachable(s) && k < |s.ran|
    ensures var r, free := s.ran[k], LifeAfter(Jobs(s.ran)[..k], s.ran[k].event.id).Absent?;
            match r.event
            case Receive(id, path, _) =>
              && r.reply == (if free then Some(SendControl(id, Resume)) else None)
              && r.saved == (if r.opens then Some(Saved(path, [])) else None)
            case Request(id, req) =>
              && r.saved.None?
              && (r.reply.Some? ==>
                    r.reply.value.SendChunk? && r.reply.value.id == id && r.reply.value.pos == req.pos
                    && |r.reply.value.data| == req.size > 0)
            case Chunk(_, _, _) => r.reply.None?
            case _ => r.reply.None? && r.saved.None?
  {
    ReachableInv(s);
    var r := s.ran[k];
    assert ConsistentAt(s.ran, k);
    TransfersFollowRules(s.ran[..k], r.event.id);
    assert Jobs(s.ran[..k]) == Jobs(s.ran)[..k];
    ReplyMatches(TransferAfter(s.ran[..k], r.event.id), r.event, r.outside);
  }

  /** So the file of a reception that was opened is empty right after, even under a taken id. */
  lemma {:induction false} ReceptionEmpties(s: Node, k: nat)
    requires Reachable(s) && k < |s.ran| && s.ran[k].event.Receive? && s.ran[k].opens
    ensures BytesAt(Find(s.firstDisk, s.ran[k].event.path), s.ran[..k + 1], s.ran[k].event.path) == Some([])
  {
    WhoReplies(s, k);
    assert s.ran[..k + 1][..k] == s.ran[..k];
  }

  // The way to toxcore.

  /** All messages but the requests of `send_path`. */
  function NotSends(q: seq<SendMsg>): seq<SendMsg> {
    if q == [] then [] else (if q[0].FileSend? then [] else [q[0]]) + NotSends(q[1..])
  }

  lemma {:induction false} NotSendsConcat(a: seq<SendMsg>, b: seq<SendMsg>)
    ensures NotSends(a + b) == NotSends(a) + NotSends(b)
  {
    if a == [] {
      assert a + b == b;
    } else {
      assert (a + b)[1..] == a[1..] + b;
      NotSendsConcat(a[1..], b);
    }
  }

  lemma {:induction false} NotSendsOne(r: Option<SendMsg>)
    ensures NotSends(AsSeq(r)) == if r.Some? && r.value.FileSend? then [] else AsSeq(r)
  {
    if r.Some? { assert AsSeq(r)[1..] == []; }
  }

  /** The messages on their way to toxcore, or there, are the answers of the work thread in their order. */
  ghost predicate AnswersInv(s: Node) {
    NotSends(Down(s)) == Replies(s.ran)
  }

  lemma {:induction false} InsertedSend(a: seq<SendMsg>, m: SendMsg, b: seq<SendMsg>)
    requires m.FileSend?
    ensures NotSends(a + [m] + b) == NotSends(a + b)
  {
    NotSendsConcat(a, b);
    NotSendsConcat(a + [m], b);
    NotSendsConcat(a, [m]);
    assert [m][1..] == [];
  }

  lemma {:induction false} UserSendKeeps(s: Node, m: SendMsg)
    requires AnswersInv(s) && Enabled(s, UserSend(m))
    ensures AnswersInv(Apply(s, UserSend(m)))
  {
    assert Down(Apply(s, UserSend(m))) == (s.given + s.sendQ) + [m] + AsSeq(s.workHand);
    InsertedSend(s.given + s.sendQ, m, AsSeq(s.workHand));
  }

  lemma {:induction false} RunKeeps(s: Node, a: Action)
    requires AnswersInv(s) && Enabled(s, a) && a.RunWork?
    ensures AnswersInv(Apply(s, a))
  {
    var z := Apply(s, a);
    var r := z.ran[|s.ran|];
    RunKeepsRest(s, a);
    ViewOfRun(s, a, Id(0, 0));
    assert Down(z) == Down(s) + AsSeq(z.workHand);
    JobsSnoc(s.ran, r);
    NotSendsConcat(Down(s), AsSeq(z.workHand));
    NotSendsOne(z.workHand);
    ReplyMatches(Find(s.ctrl.transfers, r.event.id), r.event, r.outside);
  }

  lemma PopKeepsDown(s: Node, ok: bool)
    requires Enabled(s, PopSend(ok))
    ensures Down(Apply(s, PopSend(ok))) == Down(s)
  {
    var z := Apply(s, PopSend(ok));
    assert s.sendQ == [s.sendQ[0]] + s.sendQ[1..];
    Shift(s.given, s.sendQ[0], s.sendQ[1..]);
    assert z.given == s.given + [s.sendQ[0]] && z.sendQ == s.sendQ[1..] && z.workHand == s.workHand;
  }

  lemma OthersKeepDown(s: Node, a: Action)
    requires Enabled(s, a) && !a.RunWork? && !a.UserSend?
    ensures Down(Apply(s, a)) == Down(s) && Apply(s, a).ran == s.ran
  {
    OthersLeaveWork(s, a);
    if a.PopSend? {
      PopKeepsDown(s, a.ok);
    } else if a.PutSend? {
      Shift(s.given, s.workHand.value, s.sendQ);
    } else {
      LeavesDown(s, a);
    }
  }

  lemma {:induction false} RunKeepsAnswers(s: Node, acts: seq<Action>, z: Node)
    requires AnswersInv(s) && Runs(s, acts, z)
    ensures AnswersInv(z)
    decreases |acts|
  {
    if acts != [] {
      if acts[0].RunWork? {
        RunKeeps(s, acts[0]);
      } else if acts[0].UserSend? {
        UserSendKeeps(s, acts[0].m);
      } else {
        OthersKeepDown(s, acts[0]);
      }
      RunKeepsAnswers(Apply(s, acts[0]), acts[1..], z);
    }
  }

  /** In every reachable state: every answer of the work thread was given to toxcore, or is on its way there, in the
      order in which they were made; toxcore is given nothing else, except by `send_path`. */
  lemma {:induction false} AnswersReachToxcore(s: Node)
    requires Reachable(s)
    ensures NotSends(s.given) + NotSends(s.sendQ) + NotSends(AsSeq(s.workHand)) == Replies(s.ran)
  {
    var s0, acts :| Initial(s0) && Runs(s0, acts, s);
    assert Down(s0) == [];
    RunKeepsAnswers(s0, acts, s);
    NotSendsConcat(s.given, s.sendQ);
    NotSendsConcat(s.given + s.sendQ, AsSeq(s.workHand));
  }

  // Resumes.

  function IsResume(m: SendMsg, id: Id): nat {
    if m == SendControl(id, Resume) then 1 else 0
  }

  function Resumes(q: seq<SendMsg>, id: Id): nat {
    if q == [] then 0 else Resumes(q[..|q| - 1], id) + IsResume(q[|q| - 1], id)
  }

  lemma {:induction false} ResumesConcat(a: seq<SendMsg>, b: seq<SendMsg>, id: Id)
    ensures Resumes(a + b, id) == Resumes(a, id) + Resumes(b, id)
  {
    if b == [] {
      assert a + b == a;
    } else {
      assert (a + b)[..|a + b| - 1] == a + b[..|b| - 1];
      ResumesConcat(a, b[..|b| - 1], id);
    }
  }

  lemma {:induction false} ResumesNotSends(q: seq<SendMsg>, id: Id)
    ensures Resumes(NotSends(q), id) == Resumes(q, id)
  {
    if q != [] {
      ResumesNotSends(q[1..], id);
      assert q == [q[0]] + q[1..] && [q[0]][..0] == [];
      ResumesConcat([q[0]], q[1..], id);
      var first: seq<SendMsg> := if q[0].FileSend? then [] else [q[0]];
      ResumesConcat(first, NotSends(q[1..]), id);
    }
  }

  /** The receptions that began a transfer for `id`. */
  function Begun(events: seq<Event>, id: Id): nat {
    if events == [] then 0
    else
      var init, last := events[..|events| - 1], events[|events| - 1];
      Begun(init, id) + if last.Receive? && last.id == id && LifeAfter(init, id).Absent? then 1 else 0
  }

  lemma {:induction false} BegunSnoc(events: seq<Event>, e: Event, id: Id)
    ensures Begun(events + [e], id) ==
            Begun(events, id) + if e.Receive? && e.id == id && LifeAfter(events, id).Absent? then 1 else 0
  {
    assert (events + [e])[..|events|] == events;
  }

  lemma {:induction false} OneAnswer(r: Option<SendMsg>, id: Id)
    ensures Resumes(AsSeq(r), id) == if r == Some(SendControl(id, Resume)) then 1 else 0
  {
    if r.Some? { assert AsSeq(r)[..0] == []; }
  }

  lemma {:induction false} ResumesSnoc(ran: seq<Ran>, r: Ran, id: Id)
    ensures Resumes(Replies(ran + [r]), id) ==
            Resumes(Replies(ran), id) + if r.reply == Some(SendControl(id, Resume)) then 1 else 0
  {
    JobsSnoc(ran, r);
    ResumesConcat(Replies(ran), AsSeq(r.reply), id);
    OneAnswer(r.reply, id);
  }

  /** Closure `k` answers with a resume for `id` exactly if it begins a reception for it. */
  predicate ResumesWell(ran: seq<Ran>, k: nat, id: Id)
    requires k < |ran|
  {
    var e := ran[k].event;
    ran[k].reply == Some(SendControl(id, Resume)) <==>
    e.Receive? && e.id == id && LifeAfter(Jobs(ran[..k]), id).Absent?
  }

  lemma {:induction false} ResumeIsReception(s: Node, k: nat, id: Id)
    requires Reachable(s) && k < |s.ran|
    ensures ResumesWell(s.ran, k, id)
  {
    WhoReplies(s, k);
    assert Jobs(s.ran[..k]) == Jobs(s.ran)[..k];
  }

  lemma {:induction false} ResumesMade(ran: seq<Ran>, id: Id)
    requires forall k :: 0 <= k < |ran| ==> ResumesWell(ran, k, id)
    ensures Resumes(Replies(ran), id) == Begun(Jobs(ran), id)
  {
    if ran != [] {
      var init, last := ran[..|ran| - 1], ran[|ran| - 1];
      forall k | 0 <= k < |init| ensures ResumesWell(init, k, id) {
        assert ResumesWell(ran, k, id) && init[..k] == ran[..k] && init[k] == ran[k];
      }
      ResumesMade(init, id);
      assert ran == init + [last] && ResumesWell(ran, |init|, id);
      ResumesSnoc(init, last, id);
      JobsSnoc(init, last);
      BegunSnoc(Jobs(init), last.event, id);
    }
  }

  /** As many resumes for an id were given to toxcore, or are on their way, as receptions began a transfer for it. */
  lemma {:induction false} ResumesAreReceptions(s: Node, id: Id)
    requires Reachable(s)
    ensures Resumes(s.given, id) + Resumes(s.sendQ, id) + Resumes(AsSeq(s.workHand), id) == Begun(Jobs(s.ran), id)
  {
    AnswersReachToxcore(s);
    forall k | 0 <= k < |s.ran| ensures ResumesWell(s.ran, k, id) { ResumeIsReception(s, k, id); }
    ResumesMade(s.ran, id);
    var g, q, h := NotSends(s.given), NotSends(s.sendQ), NotSends(AsSeq(s.workHand));
    ResumesConcat(g + q, h, id);
    ResumesConcat(g, q, id);
    ResumesNotSends(s.given, id);
    ResumesNotSends(s.sendQ, id);
    ResumesNotSends(AsSeq(s.workHand), id);
  }
}
