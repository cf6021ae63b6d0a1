/** The seek that a transfer skips when its cached position `lastPos` equals the requested one, against
    the plain rule "always seek first". `lastPos` is not the stream position: it grows by the chunk size
    from wherever it was, also after a seek, and a failed read sets it to -1. */
module SeekCache {
  import opened Basics
  import opened FileEvents
  import opened Streams
  import opened TransferCtrl

  /** What the cache is about: the bytes counted since the start or from -1 since the last failure, where the
      stream stands, and whether it is failed. */
  datatype Head = Head(sent: int, at: nat, failed: bool)

  const AT_START := Head(0, 0, false)

  /** Where a chunk with this stream offset is moved: at the offset, unless it equals the count, and then at
      wherever the stream stands. Nothing is moved on a failed stream or at a negative offset. */
  function From(h: Head, offset: int): Option<nat> {
    if h.failed then None
    else if offset == h.sent then Some(h.at)
    else if offset < 0 then None
    else Some(offset)
  }

  /** The transfer is where the head says. */
  predicate Stands(tr: Transfer, h: Head) {
    && tr.stream.open && tr.stream.failed == h.failed && tr.stream.pos == h.at
    && (!h.failed ==> tr.lastPos == h.sent)
  }

  predicate JustOpened(tr: Transfer) {
    Stands(tr, AT_START)
  }

  // Sending.

  /** A request, the bytes of the file and the limit of the device at the moment it is served. */
  datatype Asked = Asked(req: ChunkRequest, file: seq<Byte>, limit: Option<nat>)

  /** The reference: the bytes of the file from `from` on, if they are all there, fit a buffer, and the device
      moves them all. */
  function Direct(from: int, a: Asked): Option<Data> {
    if 0 <= from && from + a.req.size <= |a.file| && a.req.size < TWO_TO_63 && Moved(a.req.size, a.limit) == a.req.size
    then Some(a.file[from..from + a.req.size])
    else None
  }

  /** How far a read gets. */
  function Got(from: nat, a: Asked): nat {
    var there := if from < |a.file| then |a.file| - from else 0;
    Moved(if a.req.size < there then a.req.size else there, a.limit)
  }

  function NextHead(h: Head, a: Asked): Head {
    var from := From(h, ToSigned(a.req.pos));
    if a.req.size >= TWO_TO_63 then
      // no buffer: the seek is done, and nothing else
      if from.Some? then h.(at := from.value) else h.(failed := true)
    else if from.None? then Head(-1, h.at, false)
    else if Direct(from.value, a).Some? then Head(h.sent + a.req.size, from.value + a.req.size, false)
    else Head(-1, from.value + Got(from.value, a), false)
  }

  function HeadAfter(asked: seq<Asked>): Head {
    if asked == [] then AT_START
    else NextHead(HeadAfter(asked[..|asked| - 1]), asked[|asked| - 1])
  }

  function After(tr: Transfer, id: Id, asked: seq<Asked>): Transfer {
    if asked == [] then tr
    else
      var last := asked[|asked| - 1];
      ServeRequest(After(tr, id, asked[..|asked| - 1]), id, last.req, last.file, last.limit).after.value
  }

  function Answer(id: Id, req: ChunkRequest, data: Option<Data>): Option<SendMsg> {
    match data
    case None => None
    case Some(d) => Some(SendChunk(id, req.pos, d))
  }

  function Offset(a: Asked): int {
    ToSigned(a.req.pos)
  }

  /** One request: the answer holds the bytes from where the head says, all of them or nothing. */
  lemma ServeOne(tr: Transfer, id: Id, h: Head, a: Asked)
    requires Stands(tr, h) && a.req.size > 0
    ensures var o := ServeRequest(tr, id, a.req, a.file, a.limit);
            var from := From(h, Offset(a));
            && o.reply == Answer(id, a.req, if from.Some? then Direct(from.value, a) else None)
            && o.after.Some? && Stands(o.after.value, NextHead(h, a))
  {
  }

  /** Whatever was asked before, the cache is the count, the stream stands at the head, and nothing else of the
      history matters. */
  lemma {:induction false} CacheInvHolds(tr: Transfer, id: Id, asked: seq<Asked>)
    requires JustOpened(tr)
    requires forall a :: a in asked ==> a.req.size > 0
    ensures Stands(After(tr, id, asked), HeadAfter(asked))
  {
    if asked != [] {
      var init, last := asked[..|asked| - 1], asked[|asked| - 1];
      CacheInvHolds(tr, id, init);
      ServeOne(After(tr, id, init), id, HeadAfter(init), last);
    }
  }

  /** Every answer of every run, backward and failed requests included: the bytes from where the head says. */
  lemma {:induction false} AnswerComesFromHead(tr: Transfer, id: Id, asked: seq<Asked>, a: Asked)
    requires JustOpened(tr)
    requires forall b :: b in asked + [a] ==> b.req.size > 0
    ensures var from := From(HeadAfter(asked), Offset(a));
            ServeRequest(After(tr, id, asked), id, a.req, a.file, a.limit).reply ==
            Answer(id, a.req, if from.Some? then Direct(from.value, a) else None)
  {
    forall b | b in asked ensures b in asked + [a] {}
    assert a in asked + [a];
    CacheInvHolds(tr, id, asked);
    ServeOne(After(tr, id, asked), id, HeadAfter(asked), a);
  }

  /** The offset is not one that equals the count while the stream stands elsewhere, and the stream is usable. */
  predicate Placed(h: Head, offset: int) {
    !h.failed && (offset == h.sent ==> offset == h.at)
  }

  /** Skipping seeks is invisible in a request, after any history at all, exactly if its offset is placed, or the
      bytes at the wrong place are the same, or there is nothing to read at either. */
  lemma {:induction false} AnswerIsDirectIffPlaced(tr: Transfer, id: Id, asked: seq<Asked>, a: Asked)
    requires JustOpened(tr)
    requires forall b :: b in asked + [a] ==> b.req.size > 0
    ensures var h := HeadAfter(asked);
            ServeRequest(After(tr, id, asked), id, a.req, a.file, a.limit).reply ==
            Answer(id, a.req, Direct(Offset(a), a))
            <==>
            Placed(h, Offset(a)) || (if h.failed then None else Direct(h.at, a)) == Direct(Offset(a), a)
  {
    AnswerComesFromHead(tr, id, asked, a);
  }

  /** The end of the last chunk that can be read at its own offset. */
  function End(asked: seq<Asked>): int {
    if asked == [] then 0
    else
      var last := asked[|asked| - 1];
      if Direct(Offset(last), last).Some? then Offset(last) + last.req.size else End(asked[..|asked| - 1])
  }

  /** Every request can have a buffer and starts at or behind the end of the last one that could be read. */
  ghost predicate GoesForward(asked: seq<Asked>) {
    forall k :: 0 <= k < |asked| ==> 0 < asked[k].req.size < TWO_TO_63 && End(asked[..k]) <= Offset(asked[k])
  }

  lemma ForwardInit(asked: seq<Asked>)
    requires GoesForward(asked) && asked != []
    ensures GoesForward(asked[..|asked| - 1]) && End(asked[..|asked| - 1]) <= Offset(asked[|asked| - 1])
  {
    var init := asked[..|asked| - 1];
    forall k | 0 <= k < |init| ensures init[..k] == asked[..k] && init[k] == asked[k] {}
  }

  lemma {:induction false} EndNotNegative(asked: seq<Asked>)
    ensures 0 <= End(asked)
  {
    if asked != [] { EndNotNegative(asked[..|asked| - 1]); }
  }

  /** The count stays behind the end, and meets it only where the stream stands there too. */
  ghost predicate Behind(h: Head, end: int) {
    !h.failed && h.sent <= end && (h.sent == end ==> h.at == end)
  }

  lemma NextStaysBehind(h: Head, end: int, a: Asked)
    requires Behind(h, end) && 0 <= end <= Offset(a) && 0 < a.req.size < TWO_TO_63
    ensures Behind(NextHead(h, a), if Direct(Offset(a), a).Some? then Offset(a) + a.req.size else end)
  {
    assert From(h, Offset(a)) == Some(Offset(a));
  }

  /** Forward requests, with gaps and failed reads, never meet the accident, now or next. */
  lemma {:induction false} ForwardIsPlaced(asked: seq<Asked>, offset: int)
    requires GoesForward(asked) && End(asked) <= offset
    ensures Placed(HeadAfter(asked), offset) && Behind(HeadAfter(asked), End(asked))
  {
    if asked != [] {
      var init, last := asked[..|asked| - 1], asked[|asked| - 1];
      EndNotNegative(init);
      ForwardInit(asked);
      ForwardIsPlaced(init, Offset(last));
      NextStaysBehind(HeadAfter(init), End(init), last);
    }
  }

  /** On forward requests, gaps and failed reads included, every answer holds the file's own bytes. */
  lemma {:induction false} ForwardAnswersAreDirect(tr: Transfer, id: Id, asked: seq<Asked>, k: nat)
    requires JustOpened(tr) && GoesForward(asked) && k < |asked|
    ensures ServeRequest(After(tr, id, asked[..k]), id, asked[k].req, asked[k].file, asked[k].limit).reply ==
            Answer(id, asked[k].req, Direct(Offset(asked[k]), asked[k]))
  {
    forall j | 0 <= j < k ensures asked[..k][..j] == asked[..j] {}
    ForwardIsPlaced(asked[..k], Offset(asked[k]));
    AnswerIsDirectIffPlaced(tr, id, asked[..k], asked[k]);
  }

  const EIGHT: seq<Byte> := [0, 1, 2, 3, 4, 5, 6, 7]

  /** Going backwards can send the wrong bytes: after a gap, the request for offset 2 is served from 6. */
  lemma BackwardCanReadWrongBytes(id: Id)
    ensures var tr := Opened(Send, "f", 8, true);
            var one := ServeRequest(tr, id, ChunkRequest(4, 2), EIGHT, None);
            one.reply == Some(SendChunk(id, 4, [4, 5])) &&
            ServeRequest(one.after.value, id, ChunkRequest(2, 2), EIGHT, None).reply == Some(SendChunk(id, 2, [6, 7]))
  {
    assert EIGHT[4..6] == [4, 5] && EIGHT[6..8] == [6, 7];
  }

  lemma {:induction false} HeadAfterTwo(one: Asked, two: Asked)
    ensures HeadAfter([one]) == NextHead(AT_START, one)
    ensures HeadAfter([one, two]) == NextHead(NextHead(AT_START, one), two)
  {
    assert [one][..0] == [] && [one, two][..1] == [one];
  }

  /** The accident lasts: where the next chunk should begin after it, the stream is not, and the third request
      asks for what the first one got and is sent something else. */
  lemma {:induction false} AccidentsCanFollowEachOther(id: Id)
    ensures var file: seq<Byte> := [0, 1, 2, 3, 4, 5, 6, 7, 8, 9, 10, 11];
            var asked := [Asked(ChunkRequest(4, 2), file, None), Asked(ChunkRequest(2, 2), file, None)];
            && HeadAfter(asked) == Head(4, 8, false) && End(asked) == 4
            && ServeRequest(After(Opened(Send, "f", 12, true), id, asked), id, ChunkRequest(4, 2), file, None).reply
               == Some(SendChunk(id, 4, [8, 9]))
  {
    var file: seq<Byte> := [0, 1, 2, 3, 4, 5, 6, 7, 8, 9, 10, 11];
    var one, two := Asked(ChunkRequest(4, 2), file, None), Asked(ChunkRequest(2, 2), file, None);
    HeadAfterTwo(one, two);
    assert NextHead(AT_START, one) == Head(2, 6, false);
    assert NextHead(Head(2, 6, false), two) == Head(4, 8, false);
    assert [one][..0] == [] && [one, two][..1] == [one];
    AnswerComesFromHead(Opened(Send, "f", 12, true), id, [one, two], one);
    assert Direct(8, one) == Some([8, 9]) by { assert file[8..10] == [8, 9]; }
  }

  /** A request too large for a buffer seeks without counting, and the next forward one reads from there. */
  lemma {:induction false} HugeRequestMovesTheStream(id: Id)
    ensures var asked := [Asked(ChunkRequest(0, 2), EIGHT, None), Asked(ChunkRequest(6, TWO_TO_63), EIGHT, None)];
            && End(asked) == 2
            && ServeRequest(After(Opened(Send, "f", 8, true), id, asked), id, ChunkRequest(2, 2), EIGHT, None).reply
               == Some(SendChunk(id, 2, [6, 7]))
  {
    var one, two := Asked(ChunkRequest(0, 2), EIGHT, None), Asked(ChunkRequest(6, TWO_TO_63), EIGHT, None);
    HeadAfterTwo(one, two);
    assert NextHead(AT_START, one) == Head(2, 2, false);
    assert [one][..0] == [] && [one, two][..1] == [one];
    AnswerComesFromHead(Opened(Send, "f", 8, true), id, [one, two], Asked(ChunkRequest(2, 2), EIGHT, None));
    assert EIGHT[6..8] == [6, 7];
  }

  // Receiving.

  datatype Stored = Stored(pos: U64, data: Data, limit: Option<nat>)

  function Written(w: Stored): nat {
    Moved(|w.data|, w.limit)
  }

  /** A chunk that is not stored in full leaves the stream failed. */
  function NextHeadStored(h: Head, w: Stored): Head {
    match From(h, ToSigned(w.pos))
    case None => h.(failed := true)
    case Some(from) =>
      if Written(w) < |w.data| then Head(-1, from + Written(w), true)
      else Head(h.sent + |w.data|, from + |w.data|, false)
  }

  function HeadAfterStores(ws: seq<Stored>): Head {
    if ws == [] then AT_START
    else NextHeadStored(HeadAfterStores(ws[..|ws| - 1]), ws[|ws| - 1])
  }

  /** The bytes of the file when the chunk `w` was written, or not, at `from`. */
  function Laid(bytes: seq<Byte>, from: Option<nat>, w: Stored): seq<Byte> {
    if from.Some? then Overlay(bytes, from.value, w.data[..Written(w)]) else bytes
  }

  /** The transfer and its file after chunks on an empty file. */
  datatype Kept = Kept(tr: Transfer, bytes: seq<Byte>)

  function StoreOn(k: Kept, w: Stored): Kept {
    var o := StoreChunk(k.tr, w.pos, w.data, k.bytes, w.limit);
    Kept(o.after.value, if o.saved.Some? then o.saved.value.bytes else k.bytes)
  }

  function AfterStores(tr: Transfer, ws: seq<Stored>): Kept {
    if ws == [] then Kept(tr, [])
    else StoreOn(AfterStores(tr, ws[..|ws| - 1]), ws[|ws| - 1])
  }

  /** One chunk: it is laid where the head says, or as far as the device lets it, or nowhere. */
  lemma StoreOne(tr: Transfer, h: Head, w: Stored, bytes: seq<Byte>)
    requires Stands(tr, h) && w.data != []
    ensures var o := StoreChunk(tr, w.pos, w.data, bytes, w.limit);
            && (if o.saved.Some? then o.saved.value.bytes else bytes) == Laid(bytes, From(h, ToSigned(w.pos)), w)
            && (o.saved.Some? ==> o.saved.value.path == tr.stream.path)
            && o.after.Some? && Stands(o.after.value, NextHeadStored(h, w))
  {
  }

  lemma {:induction false} StoredAtHead(tr: Transfer, ws: seq<Stored>)
    requires JustOpened(tr) && forall w :: w in ws ==> w.data != []
    ensures Stands(AfterStores(tr, ws).tr, HeadAfterStores(ws))
  {
    if ws != [] {
      var init, last := ws[..|ws| - 1], ws[|ws| - 1];
      assert last in ws;
      StoredAtHead(tr, init);
      StoreOne(AfterStores(tr, init).tr, HeadAfterStores(init), last, AfterStores(tr, init).bytes);
    }
  }

  /** Whatever was stored before, in whatever order and with whatever faults, the next chunk goes to where the
      head says. That is its own offset exactly if this is placed; the file differs from the one with the chunk
      at its own offset exactly if it is not placed and the two overlays differ. */
  lemma {:induction false} WhereStored(tr: Transfer, ws: seq<Stored>, w: Stored)
    requires JustOpened(tr) && forall v :: v in ws + [w] ==> v.data != []
    ensures var h, before, after := HeadAfterStores(ws), AfterStores(tr, ws).bytes, AfterStores(tr, ws + [w]).bytes;
            && after == Laid(before, From(h, ToSigned(w.pos)), w)
            && (0 <= ToSigned(w.pos) ==>
                  (after == Laid(before, Some(ToSigned(w.pos)), w)
                   <==>
                   || Placed(h, ToSigned(w.pos))
                   || Laid(before, if h.failed then None else Some(h.at), w) == Laid(before, Some(ToSigned(w.pos)), w)))
  {
    forall v | v in ws ensures v in ws + [w] {}
    assert w in ws + [w] && (ws + [w])[..|ws|] == ws;
    StoredAtHead(tr, ws);
    StoreOne(AfterStores(tr, ws).tr, HeadAfterStores(ws), w, AfterStores(tr, ws).bytes);
  }

  /** The reference: each chunk laid over the file at its own offset, gaps filled with zeros. */
  function Overlays(ws: seq<Stored>): seq<Byte>
    requires forall w :: w in ws ==> w.pos < TWO_TO_63
  {
    if ws == [] then []
    else
      var last := ws[|ws| - 1];
      assert last in ws;
      Overlay(Overlays(ws[..|ws| - 1]), last.pos, last.data)
  }

  function EndStored(ws: seq<Stored>): int {
    if ws == [] then 0 else ToSigned(ws[|ws| - 1].pos) + |ws[|ws| - 1].data|
  }

  /** Every chunk starts at or behind the end of the one before. */
  ghost predicate ForwardStored(ws: seq<Stored>) {
    forall k :: 0 <= k < |ws| ==> ws[k].data != [] && EndStored(ws[..k]) <= ToSigned(ws[k].pos)
  }

  ghost predicate AllPlaced(ws: seq<Stored>) {
    forall k :: 0 <= k < |ws| ==> Placed(HeadAfterStores(ws[..k]), ToSigned(ws[k].pos))
  }

  lemma {:induction false} ForwardStoresStayBehind(ws: seq<Stored>)
    requires ForwardStored(ws) && forall w :: w in ws ==> w.limit.None?
    ensures 0 <= EndStored(ws) && Behind(HeadAfterStores(ws), EndStored(ws))
  {
    if ws != [] {
      var init, last := ws[..|ws| - 1], ws[|ws| - 1];
      forall k | 0 <= k < |init| ensures init[..k] == ws[..k] && init[k] == ws[k] {}
      assert last in ws && last == ws[|init|] && init == ws[..|init|];
      assert last.data != [] && EndStored(ws[..|init|]) <= ToSigned(ws[|init|].pos);
      ForwardStoresStayBehind(init);
      assert From(HeadAfterStores(init), ToSigned(last.pos)) == Some(ToSigned(last.pos));
    }
  }

  lemma ForwardStoresArePlaced(ws: seq<Stored>)
    requires ForwardStored(ws) && forall w :: w in ws ==> w.limit.None?
    ensures AllPlaced(ws) && forall k :: 0 <= k < |ws| ==> ws[k].pos < TWO_TO_63
  {
    forall k | 0 <= k < |ws|
      ensures Placed(HeadAfterStores(ws[..k]), ToSigned(ws[k].pos)) && ws[k].pos < TWO_TO_63
    {
      forall j | 0 <= j < k ensures ws[..k][..j] == ws[..j] {}
      ForwardStoresStayBehind(ws[..k]);
    }
  }

  lemma PlacedInit(ws: seq<Stored>)
    requires AllPlaced(ws) && ws != []
    ensures AllPlaced(ws[..|ws| - 1]) && Placed(HeadAfterStores(ws[..|ws| - 1]), ToSigned(ws[|ws| - 1].pos))
  {
    var init := ws[..|ws| - 1];
    forall k | 0 <= k < |init| ensures Placed(HeadAfterStores(init[..k]), ToSigned(init[k].pos)) {
      assert init[..k] == ws[..k] && Placed(HeadAfterStores(ws[..k]), ToSigned(ws[k].pos));
    }
  }

  lemma {:induction false} OneMoreOverlay(tr: Transfer, ws: seq<Stored>, w: Stored)
    requires JustOpened(tr) && forall v :: v in ws + [w] ==> v.data != []
    requires w.pos < TWO_TO_63 && w.limit.None? && Placed(HeadAfterStores(ws), w.pos)
    ensures AfterStores(tr, ws + [w]).bytes == Overlay(AfterStores(tr, ws).bytes, w.pos, w.data)
  {
    WhereStored(tr, ws, w);
    assert w.data[..|w.data|] == w.data;
  }

  lemma {:induction false} OverlaysSnoc(ws: seq<Stored>, w: Stored)
    requires forall v :: v in ws + [w] ==> v.pos < TWO_TO_63
    ensures (forall v :: v in ws ==> v.pos < TWO_TO_63) && w.pos < TWO_TO_63
    ensures Overlays(ws + [w]) == Overlay(Overlays(ws), w.pos, w.data)
  {
    assert w in ws + [w] && (ws + [w])[..|ws|] == ws;
    forall v | v in ws ensures v in ws + [w] {}
  }

  /** Without write errors the file is the overlay of the chunks as long as all are placed. */
  lemma {:induction false} PlacedStoresAreOverlays(tr: Transfer, ws: seq<Stored>)
    requires JustOpened(tr) && AllPlaced(ws)
    requires forall w :: w in ws ==> w.data != [] && w.pos < TWO_TO_63 && w.limit.None?
    ensures AfterStores(tr, ws).bytes == Overlays(ws)
  {
    if ws != [] {
      var init, last := ws[..|ws| - 1], ws[|ws| - 1];
      PlacedInit(ws);
      assert ws == init + [last] && last in ws;
      forall w | w in init ensures w in ws {}
      PlacedStoresAreOverlays(tr, init);
      OneMoreOverlay(tr, init, last);
      OverlaysSnoc(init, last);
    }
  }

  /** Forward chunks, with gaps, always are. */
  lemma {:induction false} StoresAreOverlays(tr: Transfer, ws: seq<Stored>)
    requires JustOpened(tr) && ForwardStored(ws)
    requires forall w :: w in ws ==> w.limit.None?
    ensures forall w :: w in ws ==> w.pos < TWO_TO_63
    ensures AfterStores(tr, ws).bytes == Overlays(ws)
  {
    ForwardStoresArePlaced(ws);
    PlacedStoresAreOverlays(tr, ws);
  }

  /** A failed stream stays failed: nothing clears it on the receiving side. */
  lemma {:induction false} NothingStoredAfterFailure(tr: Transfer, ws: seq<Stored>, more: seq<Stored>)
    requires AfterStores(tr, ws).tr.stream.failed
    ensures var k, z := AfterStores(tr, ws), AfterStores(tr, ws + more);
            z.bytes == k.bytes && z.tr.stream == k.tr.stream && z.tr.progress == k.tr.progress
  {
    if more == [] {
      assert ws + more == ws;
    } else {
      var init := more[..|more| - 1];
      assert (ws + more)[..|ws + more| - 1] == ws + init;
      NothingStoredAfterFailure(tr, ws, init);
    }
  }

  /** After any history, the chunk that is not stored in full leaves a part of its data where the head says, and
      that is the final state of the file and of the progress, whatever follows and whatever the device does. */
  lemma {:induction false} FirstFailedWrite(tr: Transfer, ws: seq<Stored>, w: Stored, more: seq<Stored>)
    requires JustOpened(tr) && forall v :: v in ws + [w] ==> v.data != []
    requires From(HeadAfterStores(ws), ToSigned(w.pos)).None? || Written(w) < |w.data|
    ensures var before, z := AfterStores(tr, ws), AfterStores(tr, ws + [w] + more);
            && z.tr.stream.failed
            && z.bytes == Laid(before.bytes, From(HeadAfterStores(ws), ToSigned(w.pos)), w)
            && z.tr.progress == before.tr.progress
  {
    assert (ws + [w])[..|ws|] == ws && w in ws + [w];
    forall v | v in ws ensures v in ws + [w] {}
    StoredAtHead(tr, ws);
    NothingStoredAfterFailure(tr, ws + [w], more);
  }
}
