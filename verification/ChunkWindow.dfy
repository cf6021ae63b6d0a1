/** The flow-control window of `tox_t::impl_t`: per file the requests waiting for credit, and the handlers
    of the loop thread that forward them. One handler here runs from start to end; `Node` splits the same
    steps so that other threads can come between two pushes. */
module ChunkWindow {
  import opened Basics
  import opened FileEvents

  const FIRST_MAX := 16
  const DOUBLING_LIMIT := 64

  /** 60 seconds in the nanoseconds of the steady clock. */
  const IDLE_LIMIT := 60_000_000_000

  /** `chunk_requests_t`. */
  datatype Entry = Entry(inFlight: int, maxInFlight: int, lastUpdate: int, pending: seq<ChunkRequest>)

  type Entries = map<Id, Entry>

  /** `chunk_requests_[id]`, which makes a new entry where there is none. */
  function EntryAt(m: Entries, id: Id, now: int): Entry {
    if id in m then m[id] else Entry(0, FIRST_MAX, now, [])
  }

  predicate CanForward(e: Entry) {
    e.inFlight < e.maxInFlight && e.pending != []
  }

  /** One round of the forwarding loop. */
  function ForwardOne(e: Entry): Entry
    requires CanForward(e)
  {
    e.(inFlight := e.inFlight + 1, pending := e.pending[1..])
  }

  predicate Stale(e: Entry, now: int) {
    now - e.lastUpdate > IDLE_LIMIT
  }

  /** The doubling test of the periodic sweep. */
  function Doubled(e: Entry): Entry {
    if e.inFlight == 0 && e.pending != [] && e.maxInFlight < DOUBLING_LIMIT then e.(maxInFlight := 2 * e.maxInFlight)
    else e
  }

  /** The limit of an entry doubles exactly if nothing of it is out, requests wait, and it is below 64; however often it
      is tested, a limit of 16 stays one of 16, 32 and 64. */
  lemma DoublesIff(e: Entry)
    requires e.maxInFlight == 16 || e.maxInFlight == 32 || e.maxInFlight == 64
    ensures var d := Doubled(e);
            && d == e.(maxInFlight := d.maxInFlight)
            && (d.maxInFlight != e.maxInFlight <==> e.inFlight == 0 && e.pending != [] && e.maxInFlight < 64)
            && (d.maxInFlight == 16 || d.maxInFlight == 32 || d.maxInFlight == 64)
  {
  }

  /** How many requests the forwarding loop hands on. */
  function Room(e: Entry): nat {
    var free := e.maxInFlight - e.inFlight;
    if free <= 0 then 0 else if free < |e.pending| then free else |e.pending|
  }

  function ToppedUp(e: Entry): Entry {
    e.(inFlight := e.inFlight + Room(e), pending := e.pending[Room(e)..])
  }

  /** Requests as events of their file. */
  function Events(id: Id, reqs: seq<ChunkRequest>): (r: seq<Event>)
    ensures |r| == |reqs|
  {
    seq(|reqs|, k requires 0 <= k < |reqs| => Request(id, reqs[k]))
  }

  /** Nothing waits while there is credit, and there is no more credit than at the start. */
  predicate WindowOk(e: Entry) {
    && e.maxInFlight == FIRST_MAX
    && e.inFlight <= e.maxInFlight
    && (e.pending != [] ==> e.inFlight == e.maxInFlight)
  }

  /** A new entry is in order, with all 16 credits, and counts as idle when 60 seconds have passed since it was made. */
  lemma NewIsFresh(m: Entries, id: Id, now: int, later: int)
    requires id !in m
    ensures var e := EntryAt(m, id, now);
            && WindowOk(e) && e.maxInFlight - e.inFlight == 16 && e.pending == []
            && (Stale(e, later) <==> later > now + 60_000_000_000)
  {
  }

  ghost predicate AllOk(m: Entries) {
    forall id :: id in m ==> WindowOk(m[id])
  }

  /** After the loop the window is full or nothing waits; nothing is lost, reordered or made up, and the
      credit taken is the number of requests handed on. */
  lemma ToppedUpIsOk(id: Id, e: Entry)
    requires e.maxInFlight == FIRST_MAX && e.inFlight <= e.maxInFlight
    ensures WindowOk(ToppedUp(e))
    ensures e.pending == e.pending[..Room(e)] + ToppedUp(e).pending
    ensures ToppedUp(e).inFlight - e.inFlight == |Events(id, e.pending[..Room(e)])|
    ensures WindowOk(e) ==> ToppedUp(e) == e && Doubled(e) == e
  {
  }

  class Window {
    var now: int
    var chunkRequests: Entries
    var recvQueue: seq<Event>

    ghost predicate Valid()
      reads this
    {
      AllOk(chunkRequests)
    }

    constructor (now: int)
      ensures Valid() && chunkRequests == map[] && recvQueue == [] && this.now == now
    {
      this.now := now;
      chunkRequests := map[];
      recvQueue := [];
    }

    method Forward(id: Id, e: Entry) returns (r: Entry)
      modifies this`recvQueue
      ensures r == ToppedUp(e)
      ensures recvQueue == old(recvQueue) + Events(id, e.pending[..Room(e)])
    {
      r := e;
      ghost var n := 0;
      while r.inFlight < r.maxInFlight && r.pending != []
        invariant 0 <= n <= Room(e)
        invariant r == e.(inFlight := e.inFlight + n, pending := e.pending[n..])
        invariant recvQueue == old(recvQueue) + Events(id, e.pending[..n])
        decreases |r.pending|
      {
        assert Events(id, e.pending[..n + 1]) == Events(id, e.pending[..n]) + [Request(id, e.pending[n])];
        recvQueue := recvQueue + [Request(id, r.pending[0])];
        r := r.(inFlight := r.inFlight + 1, pending := r.pending[1..]);
        n := n + 1;
      }
    }

    /** `check_chunk_requests_` with an id. */
    method CheckOne(id: Id)
      modifies this`chunkRequests, this`recvQueue
      ensures var e := EntryAt(old(chunkRequests), id, now);
              chunkRequests == old(chunkRequests)[id := ToppedUp(e)] &&
              recvQueue == old(recvQueue) + Events(id, e.pending[..Room(e)])
    {
      var e := Forward(id, EntryAt(chunkRequests, id, now));
      chunkRequests := chunkRequests[id := e];
    }

    method OnFileChunkRequest(id: Id, req: ChunkRequest)
      requires Valid()
      modifies this`chunkRequests, this`recvQueue
      ensures Valid()
      ensures var before := EntryAt(old(chunkRequests), id, now);
              var after := if before.inFlight < FIRST_MAX then before.(inFlight := before.inFlight + 1)
                           else before.(pending := before.pending + [req]);
              chunkRequests == old(chunkRequests)[id := after.(lastUpdate := now)]
      ensures recvQueue == old(recvQueue) +
                           if EntryAt(old(chunkRequests), id, now).inFlight < FIRST_MAX then [Request(id, req)] else []
    {
      var e := EntryAt(chunkRequests, id, now);
      var e1 := e.(pending := e.pending + [req], lastUpdate := now);
      ToppedUpIsOk(id, e1);
      if e.inFlight < FIRST_MAX {
        assert e1.pending == [req] && e1.pending[..1] == [req] && Room(e1) == 1;
      }
      chunkRequests := chunkRequests[id := e1];
      CheckOne(id);
    }

    /** `send_msg_` for a chunk; `ok` is what toxcore says. One credit comes back either way. */
    method SendFileChunk(id: Id, ok: bool)
      requires Valid()
      modifies this`chunkRequests, this`recvQueue
      ensures Valid()
      ensures var before := EntryAt(old(chunkRequests), id, now);
              var waits := before.pending != [];
              var after := if waits then before.(pending := before.pending[1..])
                           else before.(inFlight := before.inFlight - 1);
              && chunkRequests == old(chunkRequests)[id := after.(maxInFlight := FIRST_MAX, lastUpdate := now)]
              && recvQueue == old(recvQueue) + (if ok then [] else [Error(id)]) +
                              if waits then [Request(id, before.pending[0])] else []
    {
      if !ok {
        recvQueue := recvQueue + [Error(id)];
      }
      var e := EntryAt(chunkRequests, id, now);
      var e1 := e.(lastUpdate := now, inFlight := e.inFlight - 1);
      ToppedUpIsOk(id, e1);
      if e.pending != [] {
        assert e.pending[..1] == [e.pending[0]];
      }
      chunkRequests := chunkRequests[id := e1];
      CheckOne(id);
    }

    /** What the sweep does with an entry that stays. */
    method VisitLive(id: Id)
      requires id in chunkRequests && WindowOk(chunkRequests[id])
      modifies this`chunkRequests, this`recvQueue
      ensures chunkRequests == old(chunkRequests) && recvQueue == old(recvQueue)
    {
      ToppedUpIsOk(id, chunkRequests[id]);
      var e := Forward(id, Doubled(chunkRequests[id]));
      chunkRequests := chunkRequests[id := e];
    }

    /** The first loop of the sweep, over the map in any order. */
    method Collect() returns (toErase: set<Id>)
      requires Valid()
      modifies this`chunkRequests, this`recvQueue
      ensures chunkRequests == old(chunkRequests) && recvQueue == old(recvQueue)
      ensures toErase == set id | id in chunkRequests && Stale(chunkRequests[id], now)
    {
      toErase := {};
      var todo := chunkRequests.Keys;
      while todo != {}
        invariant todo <= chunkRequests.Keys
        invariant chunkRequests == old(chunkRequests) && recvQueue == old(recvQueue)
        invariant toErase == set id | id in chunkRequests && id !in todo && Stale(chunkRequests[id], now)
        decreases |todo|
      {
        var id :| id in todo;
        todo := todo - {id};
        if now - chunkRequests[id].lastUpdate > IDLE_LIMIT {
          toErase := toErase + {id};
        } else {
          VisitLive(id);
        }
      }
    }

    /** The second loop of the sweep. */
    method EraseAll(toErase: set<Id>)
      modifies this`chunkRequests
      ensures chunkRequests == map id | id in old(chunkRequests) && id !in toErase :: old(chunkRequests)[id]
    {
      var todo := toErase;
      while todo != {}
        invariant todo <= toErase
        invariant chunkRequests == map id | id in old(chunkRequests) && id !in toErase - todo :: old(chunkRequests)[id]
        decreases |todo|
      {
        var id :| id in todo;
        todo := todo - {id};
        chunkRequests := chunkRequests - {id};
      }
    }

    /** `check_chunk_requests_` without an id. Whatever the order of the visits, exactly the entries idle for
        more than 60 seconds go, the doubling test never succeeds and nothing is forwarded. */
    method Sweep()
      requires Valid()
      modifies this`chunkRequests, this`recvQueue
      ensures Valid()
      ensures chunkRequests == map id | id in old(chunkRequests) && !Stale(old(chunkRequests)[id], now)
                                 :: old(chunkRequests)[id]
      ensures recvQueue == old(recvQueue)
    {
      var toErase := Collect();
      EraseAll(toErase);
    }
  }
}
