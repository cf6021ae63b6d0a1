/** Per-file views of queues and logs, and the subsequence order between them. */
module Projection {
  import opened Basics
  import opened FileEvents

  /** Whether an event concerns the file on its way from toxcore to the work thread; `onlyRequests` looks at
      chunk requests alone. Registrations come from elsewhere and errors go no further. */
  predicate Concerns(e: Event, id: Id, onlyRequests: bool) {
    e.id == id && (e.Request? || (!onlyRequests && (e.Receive? || e.Control? || e.Chunk?)))
  }

  function Pick(q: seq<Event>, id: Id, onlyRequests: bool): seq<Event> {
    if q == [] then []
    else (if Concerns(q[0], id, onlyRequests) then [q[0]] else []) + Pick(q[1..], id, onlyRequests)
  }

  lemma {:induction false} PickConcat(a: seq<Event>, b: seq<Event>, id: Id, r: bool)
    ensures Pick(a + b, id, r) == Pick(a, id, r) + Pick(b, id, r)
  {
    if a == [] {
      assert a + b == b;
    } else {
      assert (a + b)[1..] == a[1..] + b;
      PickConcat(a[1..], b, id, r);
    }
  }

  lemma {:induction false} PickOne(e: Event, id: Id, r: bool)
    ensures Pick([e], id, r) == if Concerns(e, id, r) then [e] else []
  {
    assert [e][1..] == [];
  }

  lemma {:induction false} PickSnoc(a: seq<Event>, e: Event, id: Id, r: bool)
    ensures Pick(a + [e], id, r) == if Concerns(e, id, r) then Pick(a, id, r) + [e] else Pick(a, id, r)
  {
    PickConcat(a, [e], id, r);
    PickOne(e, id, r);
  }

  /** One event in the middle. */
  lemma {:induction false} PickMiddle(a: seq<Event>, e: Event, b: seq<Event>, id: Id, r: bool)
    ensures Pick(a + b, id, r) == Pick(a, id, r) + Pick(b, id, r)
    ensures Pick(a + [e] + b, id, r) ==
            if Concerns(e, id, r) then Pick(a, id, r) + [e] + Pick(b, id, r) else Pick(a + b, id, r)
  {
    PickConcat(a, b, id, r);
    PickConcat(a + [e], b, id, r);
    PickSnoc(a, e, id, r);
  }

  lemma {:induction false} PickedConcern(q: seq<Event>, id: Id, r: bool)
    ensures forall e :: e in Pick(q, id, r) ==> e in q && Concerns(e, id, r)
  {
    if q != [] { PickedConcern(q[1..], id, r); }
  }

  function Chunks(q: seq<SendMsg>, id: Id): seq<SendMsg> {
    if q == [] then []
    else (if q[0].SendChunk? && q[0].id == id then [q[0]] else []) + Chunks(q[1..], id)
  }

  lemma {:induction false} ChunksConcat(a: seq<SendMsg>, b: seq<SendMsg>, id: Id)
    ensures Chunks(a + b, id) == Chunks(a, id) + Chunks(b, id)
  {
    if a == [] {
      assert a + b == b;
    } else {
      assert (a + b)[1..] == a[1..] + b;
      ChunksConcat(a[1..], b, id);
    }
  }

  lemma {:induction false} ChunksSnoc(a: seq<SendMsg>, m: SendMsg, id: Id)
    ensures Chunks(a + [m], id) == if m.SendChunk? && m.id == id then Chunks(a, id) + [m] else Chunks(a, id)
  {
    ChunksConcat(a, [m], id);
    assert [m][1..] == [];
  }

  lemma {:induction false} ChunksAreChunks(q: seq<SendMsg>, id: Id)
    ensures forall m :: m in Chunks(q, id) ==> m in q && m.SendChunk? && m.id == id
  {
    if q != [] { ChunksAreChunks(q[1..], id); }
  }

  /** `a` is `b` with some elements left out. */
  predicate Subseq<T(==)>(a: seq<T>, b: seq<T>) {
    if a == [] then true
    else if b == [] then false
    else
      || (a[|a| - 1] == b[|b| - 1] && Subseq(a[..|a| - 1], b[..|b| - 1]))
      || Subseq(a, b[..|b| - 1])
  }

  lemma {:induction false} SubseqSnoc<T>(a: seq<T>, b: seq<T>, x: T)
    requires Subseq(a, b)
    ensures Subseq(a + [x], b + [x]) && Subseq(a, b + [x])
  {
    assert (a + [x])[..|a|] == a && (b + [x])[..|b|] == b;
  }

  lemma {:induction false} SubseqSelf<T>(a: seq<T>)
    ensures Subseq(a, a)
  {
    if a != [] {
      SubseqSelf(a[..|a| - 1]);
    }
  }

  /** Leaving out more keeps a subsequence. */
  lemma {:induction false} SubseqDrop<T>(a: seq<T>, gone: seq<T>, c: seq<T>, b: seq<T>)
    requires Subseq(a + gone + c, b)
    ensures Subseq(a + c, b)
    decreases |gone| + |c| + |b|
  {
    var all := a + gone + c;
    if a + c != [] && all != [] {
      var b0 := b[..|b| - 1];
      if Subseq(all, b0) {
        SubseqDrop(a, gone, c, b0);
      } else if c != [] {
        assert all[..|all| - 1] == a + gone + c[..|c| - 1];
        SubseqDrop(a, gone, c[..|c| - 1], b0);
        assert (a + c)[..|a + c| - 1] == a + c[..|c| - 1];
      } else if gone != [] {
        assert all[..|all| - 1] == a + gone[..|gone| - 1] + [];
        SubseqDrop(a, gone[..|gone| - 1], [], b0);
        assert a + c == a + [] == a;
        SubseqSnoc(a, b0, b[|b| - 1]);
        assert b0 + [b[|b| - 1]] == b;
      } else {
        assert all == a + c;
      }
    }
  }

  lemma {:induction false} SubseqPrefix<T>(a: seq<T>, rest: seq<T>, b: seq<T>)
    requires Subseq(a + rest, b)
    ensures Subseq(a, b)
  {
    assert a + rest + [] == a + rest && a + [] == a;
    SubseqDrop(a, rest, [], b);
  }

  /** A subsequence is no longer, and of equal length only if nothing is left out. */
  lemma {:induction false} SubseqLength<T>(a: seq<T>, b: seq<T>)
    requires Subseq(a, b)
    ensures |a| <= |b| && (|a| == |b| ==> a == b)
    decreases |b|
  {
    if a != [] {
      var b0 := b[..|b| - 1];
      if Subseq(a, b0) {
        SubseqLength(a, b0);
      } else {
        SubseqLength(a[..|a| - 1], b0);
        if |a| == |b| {
          assert a == a[..|a| - 1] + [a[|a| - 1]] && b == b0 + [b[|b| - 1]];
        }
      }
    }
  }

  lemma {:induction false} SubseqTrans<T>(a: seq<T>, b: seq<T>, c: seq<T>)
    requires Subseq(a, b) && Subseq(b, c)
    ensures Subseq(a, c)
    decreases |b| + |c|
  {
    if a != [] && b != [] && c != [] {
      var b0, c0 := b[..|b| - 1], c[..|c| - 1];
      if Subseq(b, c0) {
        SubseqTrans(a, b, c0);
      } else if Subseq(a, b0) {
        SubseqTrans(a, b0, c0);
      } else {
        SubseqTrans(a[..|a| - 1], b0, c0);
      }
    }
  }
}
