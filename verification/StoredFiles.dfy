/** The seek cache on the receiving side of a running node: what is in the file of a transfer. */
module StoredFiles {
  import opened Basics
  import opened FileEvents
  import opened TransferCtrl
  import opened SeekCache
  import opened Node
  import opened NodeInvariants
  import opened Conservation

  /** A chunk that gets as far as the stream. */
  predicate IsStored(t: Option<Transfer>, e: Event) {
    t.Some? && t.value.kind.Recv? && t.value.active && e.Chunk? && e.data != []
  }

  function StoredBy(r: Ran): Stored
    requires r.event.Chunk?
  {
    Stored(r.event.pos, r.event.data, r.outside.limit)
  }

  /** The chunks for the file of closure `made` that were stored since. */
  function StoredSince(ran: seq<Ran>, made: nat): seq<Stored>
    requires made < |ran|
    decreases |ran|
  {
    if |ran| == made + 1 then []
    else
      var init, last := ran[..|ran| - 1], ran[|ran| - 1];
      if last.event.id == ran[made].event.id && IsStored(TransferAfter(init, last.event.id), last.event)
      then StoredSince(init, made) + [StoredBy(last)]
      else StoredSince(init, made)
  }

  /** The events that remove a receiving transfer. */
  predicate EndsReceipt(e: Event) {
    (e.Control? && e.control.Cancel?) || (e.Chunk? && e.data == [])
  }

  /** What `r` does to the file of `id` at `path`: nothing, unless it is a chunk of `id`. */
  predicate LeavesFile(r: Ran, id: Id, path: string) {
    && (r.saved.Some? && r.saved.value.path == path ==> r.event.id == id && r.event.Chunk?)
    && (r.event.id == id ==> !EndsReceipt(r.event))
  }

  /** Closure `made` begins the reception of a file, which is opened; since then the transfer has not ended, and
      nothing but its chunks was saved to its path. */
  ghost predicate Receiving(ran: seq<Ran>, made: nat) {
    && made < |ran| && ran[made].event.Receive? && ran[made].outside.file.Some?
    && TransferAfter(ran[..made], ran[made].event.id).None?
    && forall k :: made < k < |ran| ==> LeavesFile(ran[k], ran[made].event.id, ran[made].event.path)
  }

  function Made(e: Event): Transfer
    requires e.Receive?
  {
    Opened(Recv, e.path, e.size, true).(active := true)
  }

  /** The transfer, whether active or not, and the last bytes saved are those after just these chunks. */
  ghost predicate FileFollows(ran: seq<Ran>, e: Event, k: Kept)
    requires e.Receive?
  {
    var t := TransferAfter(ran, e.id);
    && t.Some? && t.value == k.tr.(active := t.value.active)
    && k.tr.kind.Recv? && k.tr.stream.path == e.path && k.tr.stream.open
    && LastSaved(ran, e.path) == Some(k.bytes)
  }

  lemma StoreIgnoresActive(tr: Transfer, active: bool, w: Stored, bytes: seq<Byte>)
    ensures var o, p := StoreChunk(tr, w.pos, w.data, bytes, w.limit),
                        StoreChunk(tr.(active := active), w.pos, w.data, bytes, w.limit);
            o.saved == p.saved && o.after.Some? && p.after == Some(o.after.value.(active := active))
    ensures var o := StoreChunk(tr, w.pos, w.data, bytes, w.limit);
            o.after.value.kind == tr.kind && o.after.value.stream.path == tr.stream.path
            && o.after.value.stream.open == tr.stream.open
  {
  }

  /** A chunk that is stored. */
  lemma {:induction false} ChunkFollows(ran: seq<Ran>, r: Ran, e: Event, k: Kept)
    requires e.Receive? && FileFollows(ran, e, k) && r.event.id == e.id
    requires IsStored(TransferAfter(ran, e.id), r.event) && r.outside.file == Some(k.bytes)
    requires r.saved == RunOne(TransferAfter(ran, e.id), r.event, r.outside).saved
    ensures FileFollows(ran + [r], e, StoreOn(k, StoredBy(r)))
  {
    WorkSnoc(ran, r);
    StoreIgnoresActive(k.tr, TransferAfter(ran, e.id).value.active, StoredBy(r), k.bytes);
  }

  /** Any other closure. */
  lemma {:induction false} OtherFollows(ran: seq<Ran>, r: Ran, e: Event, k: Kept)
    requires e.Receive? && FileFollows(ran, e, k) && LeavesFile(r, e.id, e.path)
    requires !(r.event.id == e.id && IsStored(TransferAfter(ran, e.id), r.event))
    requires r.event.id == e.id ==> r.saved == RunOne(TransferAfter(ran, e.id), r.event, r.outside).saved
    ensures FileFollows(ran + [r], e, k)
  {
    WorkSnoc(ran, r);
  }

  lemma {:induction false} ReceptionFollows(ran: seq<Ran>, r: Ran)
    requires r.event.Receive? && r.outside.file.Some? && TransferAfter(ran, r.event.id).None?
    requires r.saved == RunOne(None, r.event, r.outside).saved
    ensures FileFollows(ran + [r], r.event, Kept(Made(r.event), []))
  {
    WorkSnoc(ran, r);
  }

  lemma {:induction false} OneMoreFollows(first: Option<seq<Byte>>, ran: seq<Ran>, r: Ran, e: Event, k: Kept)
    requires e.Receive? && FileFollows(ran, e, k) && LeavesFile(r, e.id, e.path)
    requires Consistent(ran + [r]) && Sees(first, ran + [r], |ran|, e.path)
    ensures FileFollows(ran + [r], e,
                        if r.event.id == e.id && IsStored(TransferAfter(ran, e.id), r.event)
                        then StoreOn(k, StoredBy(r)) else k)
  {
    var z := ran + [r];
    assert ConsistentAt(z, |ran|) && z[..|ran|] == ran;
    if r.event.id == e.id && IsStored(TransferAfter(ran, e.id), r.event) {
      ChunkFollows(ran, r, e, k);
    } else {
      OtherFollows(ran, r, e, k);
    }
  }

  lemma {:induction false} FileIsKept(first: Option<seq<Byte>>, ran: seq<Ran>, made: nat)
    requires Receiving(ran, made) && Consistent(ran) && AllSee(first, ran, ran[made].event.path)
    ensures FileFollows(ran, ran[made].event, AfterStores(Made(ran[made].event), StoredSince(ran, made)))
    decreases |ran|
  {
    var init, last, e := ran[..|ran| - 1], ran[|ran| - 1], ran[made].event;
    assert ran == init + [last];
    ConsistentPrefix(ran);
    if |ran| == made + 1 {
      ReceptionFollows(init, last);
    } else {
      assert init[..made] == ran[..made] && init[made] == ran[made];
      forall k | made < k < |init| ensures LeavesFile(init[k], e.id, e.path) { assert init[k] == ran[k]; }
      forall k | 0 <= k < |init| ensures Sees(first, init, k, e.path) {
        assert Sees(first, ran, k, e.path) && init[..k] == ran[..k] && init[k] == ran[k];
      }
      FileIsKept(first, init, made);
      var ws := StoredSince(init, made);
      if last.event.Chunk? { assert (ws + [StoredBy(last)])[..|ws|] == ws; }
      OneMoreFollows(first, init, last, e, AfterStores(Made(e), ws));
    }
  }

  lemma {:induction false} StoredAreChunks(ran: seq<Ran>, made: nat)
    requires made < |ran|
    ensures forall w :: w in StoredSince(ran, made) ==> w.data != []
    decreases |ran|
  {
    if |ran| > made + 1 {
      var init := ran[..|ran| - 1];
      assert init[made] == ran[made];
      StoredAreChunks(init, made);
    }
  }

  /** In every reachable state: while a file is being received, it holds on the disk what its own chunks make of an
      empty file, in the order in which they were stored, whatever else runs in between; its transfer is where they
      leave it. */
  lemma {:induction false} DiskHoldsTheChunks(s: Node, made: nat)
    requires Reachable(s) && Receiving(s.ran, made)
    ensures var e, k := s.ran[made].event, AfterStores(Made(s.ran[made].event), StoredSince(s.ran, made));
            && Find(s.ctrl.disk, e.path) == Some(k.bytes)
            && e.id in s.ctrl.transfers
            && s.ctrl.transfers[e.id] == k.tr.(active := s.ctrl.transfers[e.id].active)
  {
    ReachableInv(s);
    var e := s.ran[made].event;
    assert DiskInv(s, e.path) && Find(s.ctrl.transfers, e.id) == TransferAfter(s.ran, e.id);
    FileIsKept(Find(s.firstDisk, e.path), s.ran, made);
  }

  /** If they came forward, with gaps, and no write failed, the file is their overlay at their own offsets. */
  lemma {:induction false} ReceivedIsOverlay(s: Node, made: nat)
    requires Reachable(s) && Receiving(s.ran, made)
    requires var ws := StoredSince(s.ran, made); ForwardStored(ws) && forall w :: w in ws ==> w.limit.None?
    ensures forall w :: w in StoredSince(s.ran, made) ==> w.pos < TWO_TO_63
    ensures Find(s.ctrl.disk, s.ran[made].event.path) == Some(Overlays(StoredSince(s.ran, made)))
  {
    DiskHoldsTheChunks(s, made);
    StoresAreOverlays(Made(s.ran[made].event), StoredSince(s.ran, made));
  }

  /** A chunk that was not stored in full was the last: the file and the progress stay as it left them, however many
      chunks follow. */
  lemma {:induction false} FailedWriteIsFinal(s: Node, made: nat, j: nat)
    requires Reachable(s) && Receiving(s.ran, made) && j < |StoredSince(s.ran, made)|
    requires var ws := StoredSince(s.ran, made);
             From(HeadAfterStores(ws[..j]), ToSigned(ws[j].pos)).None? || Written(ws[j]) < |ws[j].data|
    ensures var e, ws := s.ran[made].event, StoredSince(s.ran, made);
            var before, from := AfterStores(Made(e), ws[..j]), From(HeadAfterStores(ws[..j]), ToSigned(ws[j].pos));
            && Find(s.ctrl.disk, e.path) == Some(Laid(before.bytes, from, ws[j]))
            && e.id in s.ctrl.transfers && s.ctrl.transfers[e.id].stream.failed
            && s.ctrl.transfers[e.id].progress == before.tr.progress
  {
    var ws, tr := StoredSince(s.ran, made), Made(s.ran[made].event);
    DiskHoldsTheChunks(s, made);
    StoredAreChunks(s.ran, made);
    assert ws == ws[..j] + [ws[j]] + ws[j + 1..];
    FirstFailedWrite(tr, ws[..j], ws[j], ws[j + 1..]);
  }
}
