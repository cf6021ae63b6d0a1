/** `chunked_progress`: how far into a file a transfer has got. */
module Progress {
  import opened Basics

  datatype Span = Span(pos: U64, size: U64)

  ghost predicate Fits(c: Span) {
    c.pos + c.size < TWO_TO_64
  }

  /** The tracked position after `update(c.pos, c.size)`; the sum wraps at 64 bits. */
  function Advance(reached: U64, c: Span): U64 {
    var end := (c.pos + c.size) % TWO_TO_64;
    if c.pos <= reached && end > reached then end
    else if c.pos > reached then end
    else reached
  }

  /** The tracked position after a sequence of updates. */
  function AdvanceAll(reached: U64, cs: seq<Span>): U64 {
    if cs == [] then reached
    else Advance(AdvanceAll(reached, cs[..|cs| - 1]), cs[|cs| - 1])
  }

  class ChunkedProgress {
    const size: U64
    var pos: U64

    constructor (size: U64)
      ensures TotalSize() == size && GetProgress() == 0
    {
      this.size := size;
      pos := 0;
    }

    method Update(p: U64, n: U64)
      modifies this
      ensures GetProgress() == Advance(old(GetProgress()), Span(p, n))
      ensures p + n < TWO_TO_64 ==> GetProgress() == Max(old(GetProgress()), p + n)
    {
      var end := (p + n) % TWO_TO_64;
      if p <= pos && end > pos {
        pos := end;
      } else if p > pos {
        pos := end;
      }
    }

    function GetProgress(): U64
      reads this
    {
      pos
    }

    function TotalSize(): U64 {
      size
    }
  }

  /** An update keeps the maximum exactly when its end is representable. */
  lemma AdvanceIsMaxIffNoOverflow(reached: U64, c: Span)
    ensures Advance(reached, c) == Max(reached, c.pos + c.size) <==> Fits(c)
  {
    if !Fits(c) {
      assert c.pos + c.size >= TWO_TO_64 > reached;
    }
  }

  /** With an overflow the progress can even go backwards. */
  lemma OverflowCanLoseProgress()
    ensures exists c: Span :: !Fits(c) && Advance(10, c) < 10
  {
    var c := Span(TWO_TO_64 - 1, 2);
    assert !Fits(c) && Advance(10, c) == 1;
  }

  /** The progress is the least bound of 0 and all chunk ends: it bounds each and is one of them. */
  lemma {:induction false} ProgressIsFurthestEnd(cs: seq<Span>)
    requires forall c :: c in cs ==> Fits(c)
    ensures forall c :: c in cs ==> c.pos + c.size <= AdvanceAll(0, cs)
    ensures AdvanceAll(0, cs) == 0 || exists c :: c in cs && AdvanceAll(0, cs) == c.pos + c.size
  {
    if cs != [] {
      var init, last := cs[..|cs| - 1], cs[|cs| - 1];
      assert cs == init + [last];
      ProgressIsFurthestEnd(init);
      AdvanceIsMaxIffNoOverflow(AdvanceAll(0, init), last);
      if AdvanceAll(0, cs) != 0 && AdvanceAll(0, cs) != last.pos + last.size {
        var c :| c in init && AdvanceAll(0, init) == c.pos + c.size;
        assert c in cs;
      }
    }
  }

  /** Chunks that arrive in another order, or more than once, give the same progress. */
  lemma {:induction false} ProgressIgnoresOrder(cs: seq<Span>, ds: seq<Span>)
    requires forall c :: c in cs <==> c in ds
    requires forall c :: c in cs ==> Fits(c)
    ensures AdvanceAll(0, cs) == AdvanceAll(0, ds)
  {
    ProgressIsFurthestEnd(cs);
    ProgressIsFurthestEnd(ds);
  }

  /** Progress never goes back, and stays within the file when every chunk does. */
  lemma {:induction false} ProgressBounds(cs: seq<Span>, more: seq<Span>, total: U64)
    requires forall c :: c in cs + more ==> c.pos + c.size <= total
    ensures AdvanceAll(0, cs) <= AdvanceAll(0, cs + more) <= total
  {
    forall c | c in cs ensures c in cs + more {}
    ProgressIsFurthestEnd(cs);
    ProgressIsFurthestEnd(cs + more);
  }

  /** Back-to-back chunks from offset 0 to `to`. */
  ghost predicate Contiguous(cs: seq<Span>, to: nat) {
    if cs == [] then to == 0
    else
      var last := cs[|cs| - 1];
      last.pos + last.size == to && Contiguous(cs[..|cs| - 1], last.pos)
  }

  /** For a contiguous run from 0 the progress is the number of bytes moved. */
  lemma {:induction false} ContiguousProgress(cs: seq<Span>, to: U64)
    requires Contiguous(cs, to)
    ensures AdvanceAll(0, cs) == to
  {
    if cs != [] {
      ContiguousProgress(cs[..|cs| - 1], cs[|cs| - 1].pos);
    }
  }
}
