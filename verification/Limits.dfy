// One transfer accepts at most 16 GiB over its whole life, restarts included, and
// its staging file never holds more than it accepted.
module Limits {
  import opened Bytes
  import opened Downloads
  import UploadRuns
  import opened Transfers
  import opened TransferSafety

  // The chunk that reaches the end of the `FileChunk` arm.
  ghost predicate Accepts(s: State, link: Link, id: Id, seqNo: nat, bytes: Bytes, writeOk: bool) {
    && Owned(s.reg, link, id) && seqNo == s.reg.downloads[id].nextSeq
    && !OverBudget(s.reg, id, bytes) && |bytes| <= FILE_CHUNK_BYTES && writeOk
  }

  ghost function AcceptedBy(s: State, e: Event, id: Id): nat {
    if && e.Recv? && e.link.gen !in s.reg.hands && e.frame.FileChunk? && e.frame.id == id && !IsProbe(id)
       && Accepts(s, e.link, id, e.frame.seqNo, e.frame.bytes, e.writeOk)
    then |e.frame.bytes| else 0
  }

  // All bytes ever accepted for transfer `id` in a run.
  ghost function Accepted(H: Hash, s: State, es: seq<Event>, id: Id): nat {
    if es == [] then 0
    else
      var front := es[..|es| - 1];
      Accepted(H, s, front, id) + AcceptedBy(Run(H, s, front), es[|es| - 1], id)
  }

  // What a download may still accept: the rest of this attempt and its restarts.
  function Allowance(d: Download): int {
    (MAX_DOWNLOAD_RESTARTS - d.restarts) * 4294967296 + (MAX_DOWNLOAD_BYTES - d.written)
  }

  // Restarts left, then bytes left in this attempt: every accepted non-empty
  // chunk and every failed verification lowers the pair lexicographically.
  lemma EveryStepCounts(d: Download, bytes: Bytes, setLenOk: bool, seekOk: bool)
    requires WithinBudget(d)
    ensures d.written + |bytes| <= MAX_DOWNLOAD_BYTES ==>
              var a := Accept(d, bytes);
              WithinBudget(a) && a.restarts == d.restarts && Allowance(a) + |bytes| == Allowance(d)
    ensures d.restarts < MAX_DOWNLOAD_RESTARTS ==>
              var a := Restart(d, setLenOk, seekOk);
              WithinBudget(a) && MAX_DOWNLOAD_RESTARTS - a.restarts < MAX_DOWNLOAD_RESTARTS - d.restarts
              && Allowance(a) <= Allowance(d)
    ensures 0 <= Allowance(d) <= 17179869184
  {
  }

  ghost predicate Bounded(r: Registry) {
    && (forall id :: id in r.downloads ==> id < r.nextId && WithinBudget(r.downloads[id]))
    && (forall g :: g in r.hands ==> WithinBudget(r.hands[g].download) && r.hands[g].id !in r.downloads)
  }

  // All but b bytes of the allowance are used up at most, and neither the staged
  // file nor its cursor is past what was used.
  predicate UsedAllBut(d: Download, b: int) {
    Allowance(d) <= b && d.file.pos <= 17179869184 - b && |d.file.content| <= 17179869184 - b
  }

  // Transfer `id` can accept at most b more bytes of its 16 GiB.
  ghost predicate AtMost(r: Registry, id: Id, b: int) {
    && 0 <= b <= 17179869184
    && (id in r.downloads ==> UsedAllBut(r.downloads[id], b))
    && (forall g :: g in r.hands && r.hands[g].id == id ==> UsedAllBut(r.hands[g].download, b))
    && (id in r.copies ==> |r.copies[id].content| <= 17179869184 - b)
    && (id >= r.nextId ==> 17179869184 <= b)
  }

  lemma SameAtMost(r: Registry, t: Registry, id: Id, b: int)
    requires AtMost(r, id, b) && r.nextId <= t.nextId
    requires id in t.downloads ==> id in r.downloads && t.downloads[id] == r.downloads[id]
    requires forall g :: g in t.hands ==> g in r.hands && t.hands[g] == r.hands[g]
    requires id in t.copies ==> id in r.copies && t.copies[id] == r.copies[id]
    ensures AtMost(t, id, b)
  {
  }

  lemma ChunkCounts(s: State, link: Link, id: Id, seqNo: nat, bytes: Bytes, writeOk: bool, of: Id, b: int)
    requires Bounded(s.reg) && AtMost(s.reg, of, b)
    ensures
      var n := if id == of && Accepts(s, link, id, seqNo, bytes, writeOk) then |bytes| else 0;
      n <= b && AtMost(OnChunk(s, link, id, seqNo, bytes, writeOk).reg, of, b - n)
  {
    var r := s.reg;
    if Accepts(s, link, id, seqNo, bytes, writeOk) {
      AcceptCounts(r, id, bytes, of, b);
    } else if Owned(r, link, id) && seqNo == r.downloads[id].nextSeq && (OverBudget(r, id, bytes) || !writeOk) {
      SameAtMost(r, Forget(r, id), of, b);
    }
  }

  lemma AcceptCounts(r: Registry, id: Id, bytes: Bytes, of: Id, b: int)
    requires Bounded(r) && AtMost(r, of, b) && id in r.downloads && !OverBudget(r, id, bytes)
    ensures
      var n := if id == of then |bytes| else 0;
      n <= b && AtMost(Put(r, id, Accept(r.downloads[id], bytes)), of, b - n)
  {
    var d := r.downloads[id];
    assert WithinBudget(d);
    EveryStepCounts(d, bytes, true, true);
    EveryStepCounts(Accept(d, bytes), [], true, true);
    if bytes != [] {
      WriteLands(d.file, bytes);
    }
    assert forall g :: g in r.hands ==> r.hands[g].id != id;
  }

  lemma OtherFrameCounts(H: Hash, s: State, link: Link, frame: Frame, writeOk: bool, of: Id, b: int)
    requires AtMost(s.reg, of, b) && link.gen !in s.reg.hands && (!frame.FileChunk? || IsProbe(frame.id))
    ensures AtMost(OnFrame(H, s, link, frame, writeOk).reg, of, b)
  {
    if !frame.FileRetry? && IsProbe(frame.id) {
      SameAtMost(s.reg, OnProbe(s, link, frame.id, frame.FileChunk?).reg, of, b);
    } else {
      match frame
      case FileDone(id, size, checksum) => DoneCounts(H, s.reg, link, id, size, checksum, of, b);
      case FileRetry(id, fromSeq) => SameAtMost(s.reg, OnRetry(H, s.reg, link, id, fromSeq), of, b);
      case FileErr(id) => ErrCounts(H, s.reg, link, id, of, b);
      case FileGetReq(_, _, _, _) =>
    }
  }

  lemma FrameCounts(H: Hash, s: State, link: Link, frame: Frame, writeOk: bool, of: Id, b: int)
    requires Bounded(s.reg) && AtMost(s.reg, of, b) && link.gen !in s.reg.hands
    ensures
      var n := AcceptedBy(s, Recv(link, frame, writeOk), of);
      n <= b && AtMost(OnFrame(H, s, link, frame, writeOk).reg, of, b - n)
  {
    if frame.FileChunk? && !IsProbe(frame.id) {
      ChunkCounts(s, link, frame.id, frame.seqNo, frame.bytes, writeOk, of, b);
    } else {
      OtherFrameCounts(H, s, link, frame, writeOk, of, b);
    }
  }

  lemma TakeCounts(r: Registry, gen: nat, id: Id, size: nat, checksum: Digest, of: Id, b: int)
    requires AtMost(r, of, b) && gen !in r.hands && id in r.downloads
    ensures AtMost(Take(r, gen, id, size, checksum), of, b)
  {
  }

  lemma DoneCounts(H: Hash, r: Registry, link: Link, id: Id, size: nat, checksum: Digest, of: Id, b: int)
    requires AtMost(r, of, b) && link.gen !in r.hands
    ensures AtMost(OnDone(H, r, link, id, size, checksum), of, b)
  {
    if Owned(r, link, id) {
      TakeCounts(r, link.gen, id, size, checksum, of, b);
    } else {
      SameAtMost(r, OnUpload(H, r, id, UploadRuns.Completed), of, b);
    }
  }

  lemma ErrCounts(H: Hash, r: Registry, link: Link, id: Id, of: Id, b: int)
    requires AtMost(r, of, b)
    ensures AtMost(OnErr(H, r, link, id), of, b)
  {
    var t := if Owned(r, link, id) then Forget(r, id) else r;
    SameAtMost(r, t, of, b);
    SameAtMost(t, OnUpload(H, t, id, UploadRuns.Rejected), of, b);
  }

  lemma GiveBackCounts(r: Registry, gen: nat, d: Download, of: Id, b: int)
    requires AtMost(r, of, b) && gen in r.hands && Allowance(d) <= Allowance(r.hands[gen].download)
    requires d.file.pos <= r.hands[gen].download.file.pos && |d.file.content| <= |r.hands[gen].download.file.content|
    ensures AtMost(GiveBack(r, gen, d), of, b)
  {
  }

  lemma StartCopyCounts(r: Registry, gen: nat, c: Copy, of: Id, b: int)
    requires AtMost(r, of, b) && gen in r.hands && c.content == r.hands[gen].download.file.content
    ensures AtMost(StartCopy(r, gen, c), of, b)
  {
  }

  lemma FinishCounts(H: Hash, s: State, gen: nat, io: FinishIo, of: Id, b: int)
    requires Bounded(s.reg) && AtMost(s.reg, of, b)
    ensures AtMost(FinishDone(H, s, gen, io).reg, of, b)
  {
    if gen in s.reg.hands {
      var hand := s.reg.hands[gen];
      var d := hand.download;
      var c := Copy(d.owner, d.target, d.file.content, hand.size, hand.checksum);
      SameAtMost(s.reg, DropHand(s.reg, gen), of, b);
      StartCopyCounts(s.reg, gen, c, of, b);
      assert WithinBudget(d);
      EveryStepCounts(d, [], io.setLenOk, io.seekOk);
      if d.restarts < MAX_DOWNLOAD_RESTARTS {
        GiveBackCounts(s.reg, gen, Restart(d, io.setLenOk, io.seekOk), of, b);
      }
    }
  }

  lemma OrderCounts(r: Registry, cmd: nat, order: Order, of: Id, b: int)
    requires AtMost(r, of, b)
    ensures AtMost(OnOrder(r, cmd, order), of, b)
  {
    if order.InsertDownload? {
      assert Allowance(Fresh(order.owner, order.path, order.allowOutsideHome, order.target)) == 17179869184;
    } else {
      SameAtMost(r, OnOrder(r, cmd, order), of, b);
    }
  }

  lemma PurgeCounts(H: Hash, r: Registry, owner: Owner, id: Id, of: Id, b: int)
    requires AtMost(r, of, b)
    ensures AtMost(PurgeUpload(H, PurgeDownload(r, owner, id), owner, id), of, b)
  {
    var t := PurgeDownload(r, owner, id);
    SameAtMost(r, t, of, b);
    SameAtMost(t, PurgeUpload(H, t, owner, id), of, b);
  }

  lemma OtherStepCounts(H: Hash, s: State, e: Event, of: Id, b: int)
    requires Bounded(s.reg) && AtMost(s.reg, of, b) && !e.Recv?
    ensures AtMost(Step(H, s, e).reg, of, b)
  {
    match e
    case Finish(gen, io) => FinishCounts(H, s, gen, io, of, b);
    case Purge(owner, id) => PurgeCounts(H, s.reg, owner, id, of, b);
    case Resume(link, id) =>
    case StepUpload(id, step) => SameAtMost(s.reg, OnUpload(H, s.reg, id, step), of, b);
    case EndCopy(id, world) => SameAtMost(s.reg, DropCopy(s.reg, id), of, b);
    case Command(cmd, order) => OrderCounts(s.reg, cmd, order, of, b);
  }

  lemma StepCounts(H: Hash, s: State, e: Event, of: Id, b: int)
    requires Bounded(s.reg) && AtMost(s.reg, of, b)
    ensures AcceptedBy(s, e, of) <= b && AtMost(Step(H, s, e).reg, of, b - AcceptedBy(s, e, of))
  {
    if !e.Recv? {
      OtherStepCounts(H, s, e, of, b);
    } else if e.link.gen !in s.reg.hands {
      FrameCounts(H, s, e.link, e.frame, e.writeOk, of, b);
    }
  }

  lemma RunIsBounded(H: Hash, es: seq<Event>)
    ensures Bounded(Run(H, INIT, es).reg)
  {
    RunIsSafe(H, es);
  }

  // At most 16 GiB are ever accepted for a transfer.
  lemma {:induction false} RunCounts(H: Hash, es: seq<Event>, id: Id)
    ensures Accepted(H, INIT, es, id) <= 17179869184
    ensures AtMost(Run(H, INIT, es).reg, id, 17179869184 - Accepted(H, INIT, es, id))
  {
    if es != [] {
      var front := es[..|es| - 1];
      RunCounts(H, front, id);
      RunIsBounded(H, front);
      StepCounts(H, Run(H, INIT, front), es[|es| - 1], id, 17179869184 - Accepted(H, INIT, front, id));
    }
  }

  // The longest file that is staged for transfer `id`, registered, in a `FileDone`
  // arm or being copied, and the furthest cursor are within what was accepted.
  lemma StagedIsAccepted(H: Hash, es: seq<Event>, id: Id)
    ensures
      var r, n := Run(H, INIT, es).reg, Accepted(H, INIT, es, id);
      && n <= 17179869184
      && (id in r.downloads ==> r.downloads[id].file.pos <= n && |r.downloads[id].file.content| <= n)
      && (forall g :: g in r.hands && r.hands[g].id == id ==>
            r.hands[g].download.file.pos <= n && |r.hands[g].download.file.content| <= n)
      && (id in r.copies ==> |r.copies[id].content| <= n)
  {
    RunCounts(H, es, id);
  }
}
