// What every step of the transfer system keeps: unique ids, byte budgets and the
// four slots.
module TransferSafety {
  import opened Bytes
  import opened Downloads
  import Uploads
  import UploadRuns
  import Commit
  import opened Transfers

  // A transfer id is in one place at a time.
  ghost predicate IdsOk(r: Registry) {
    && 1 <= r.nextId <= PROBE_ID_BIT
    && (forall id :: id in r.downloads ==> id < r.nextId && id !in r.copies && id !in r.uploads)
    && (forall id :: id in r.copies ==> id < r.nextId && id !in r.uploads)
    && (forall id :: id in r.uploads ==> id < r.nextId)
    && (forall g :: g in r.hands ==>
          var id := r.hands[g].id;
          id < r.nextId && id !in r.downloads && id !in r.copies && id !in r.uploads)
    && (forall g, h :: g in r.hands && h in r.hands && g != h ==> r.hands[g].id != r.hands[h].id)
  }

  function Live(uploads: map<Id, Uploads.Upload>): set<Id> {
    set id | id in uploads && uploads[id].refs > 0
  }

  // Free permits and live holders add up to four.
  ghost predicate SlotsOk(r: Registry) {
    r.free + |r.reserved| + |r.downloads| + |r.hands| + |r.copies| + |Live(r.uploads)| == MAX_ACTIVE_FILE_TRANSFERS
  }

  // An upload's slot is held while the registry, its command or a task holds it.
  ghost predicate RefsOk(uploads: map<Id, Uploads.Upload>) {
    forall id :: id in uploads ==> Uploads.RefsExact(uploads[id])
  }

  predicate WithinBudget(d: Download) {
    d.written <= MAX_DOWNLOAD_BYTES && d.restarts <= MAX_DOWNLOAD_RESTARTS
  }

  ghost predicate BudgetOk(r: Registry) {
    && (forall id :: id in r.downloads ==> WithinBudget(r.downloads[id]))
    && (forall g :: g in r.hands ==> WithinBudget(r.hands[g].download))
    && Total(r.downloads) <= MAX_TOTAL_DOWNLOAD_BYTES
  }

  ghost predicate Safe(r: Registry) {
    IdsOk(r) && SlotsOk(r) && BudgetOk(r) && RefsOk(r.uploads)
  }

  // ---- Counting ----

  lemma {:induction false} TotalRemove(downloads: map<Id, Download>, id: Id)
    requires id in downloads
    ensures Total(downloads) == downloads[id].written + Total(downloads - {id})
  {
    var first :| first in downloads && Total(downloads) == downloads[first].written + Total(downloads - {first});
    if first != id {
      TotalRemove(downloads - {first}, id);
      TotalRemove(downloads - {id}, first);
      assert downloads - {first} - {id} == downloads - {id} - {first};
    }
  }

  lemma TotalUpdate(downloads: map<Id, Download>, id: Id, d: Download)
    ensures id in downloads ==> Total(downloads[id := d]) + downloads[id].written == Total(downloads) + d.written
    ensures id !in downloads ==> Total(downloads[id := d]) == Total(downloads) + d.written
  {
    TotalRemove(downloads[id := d], id);
    if id in downloads {
      TotalRemove(downloads, id);
      assert downloads[id := d] - {id} == downloads - {id};
    } else {
      assert downloads[id := d] - {id} == downloads;
    }
  }

  lemma MapCounts<K, V>(m: map<K, V>, k: K, v: V)
    ensures |m[k := v]| == if k in m then |m| else |m| + 1
    ensures |m - {k}| == if k in m then |m| - 1 else |m|
  {
    assert m[k := v].Keys == m.Keys + {k};
    assert (m - {k}).Keys == m.Keys - {k};
  }

  // ---- Registry moves, one invariant at a time ----

  lemma RegistryKeepsIds(r: Registry, id: Id, d: Download)
    requires IdsOk(r)
    ensures IdsOk(Forget(r, id))
    ensures id in r.downloads ==> IdsOk(Put(r, id, d))
  {
  }

  lemma TakeKeepsIds(r: Registry, id: Id, gen: nat, size: nat, checksum: Digest)
    requires IdsOk(r) && id in r.downloads && gen !in r.hands
    ensures IdsOk(Take(r, gen, id, size, checksum))
  {
  }

  lemma HandsKeepIds(r: Registry, gen: nat, d: Download, c: Copy)
    requires IdsOk(r) && gen in r.hands
    ensures IdsOk(GiveBack(r, gen, d)) && IdsOk(DropHand(r, gen)) && IdsOk(StartCopy(r, gen, c))
  {
    GiveBackKeepsIds(r, gen, d);
    StartCopyKeepsIds(r, gen, c);
  }

  lemma GiveBackKeepsIds(r: Registry, gen: nat, d: Download)
    requires IdsOk(r) && gen in r.hands
    ensures IdsOk(GiveBack(r, gen, d))
  {
  }

  lemma StartCopyKeepsIds(r: Registry, gen: nat, c: Copy)
    requires IdsOk(r) && gen in r.hands
    ensures IdsOk(StartCopy(r, gen, c))
  {
  }

  lemma OthersKeepIds(r: Registry, id: Id, v: Uploads.Upload)
    requires IdsOk(r)
    ensures IdsOk(DropCopy(r, id))
    ensures id in r.uploads ==> IdsOk(SetUpload(r, id, v))
  {
  }

  lemma OrderKeepsIds(r: Registry, cmd: nat, order: Order)
    requires IdsOk(r)
    ensures IdsOk(OnOrder(r, cmd, order))
  {
  }

  lemma RegistryKeepsSlots(r: Registry, id: Id, d: Download, gen: nat, size: nat, checksum: Digest)
    requires SlotsOk(r)
    ensures SlotsOk(Forget(r, id))
    ensures id in r.downloads ==> SlotsOk(Put(r, id, d))
    ensures id in r.downloads && gen !in r.hands ==> SlotsOk(Take(r, gen, id, size, checksum))
  {
    MapCounts(r.downloads, id, d);
    if id in r.downloads {
      MapCounts(r.hands, gen, Hand(id, r.downloads[id], size, checksum));
    }
  }

  lemma HandsKeepSlots(r: Registry, gen: nat, d: Download, c: Copy)
    requires SlotsOk(r) && gen in r.hands && r.hands[gen].id !in r.downloads && r.hands[gen].id !in r.copies
    ensures SlotsOk(GiveBack(r, gen, d)) && SlotsOk(DropHand(r, gen)) && SlotsOk(StartCopy(r, gen, c))
  {
    MapCounts(r.hands, gen, r.hands[gen]);
    MapCounts(r.downloads, r.hands[gen].id, d);
    MapCounts(r.copies, r.hands[gen].id, c);
  }

  lemma OthersKeepSlots(r: Registry, id: Id, v: Uploads.Upload)
    requires SlotsOk(r)
    ensures id in r.copies ==> SlotsOk(DropCopy(r, id))
    ensures id in r.uploads && (r.uploads[id].refs == 0 ==> v.refs == 0) ==> SlotsOk(SetUpload(r, id, v))
  {
    if id in r.copies {
      MapCounts(r.copies, id, r.copies[id]);
    }
    if id in r.uploads && (r.uploads[id].refs == 0 ==> v.refs == 0) {
      if r.uploads[id].refs > 0 && v.refs == 0 {
        assert Live(r.uploads[id := v]) == Live(r.uploads) - {id};
      } else {
        assert Live(r.uploads[id := v]) == Live(r.uploads);
      }
    }
  }

  lemma InsertDownloadKeepsSlots(r: Registry, cmd: nat, d: Download)
    requires SlotsOk(r) && cmd in r.reserved && r.nextId !in r.downloads
    ensures SlotsOk(r.(reserved := r.reserved - {cmd}, nextId := r.nextId + 1, downloads := r.downloads[r.nextId := d]))
  {
    MapCounts(r.downloads, r.nextId, d);
  }

  lemma InsertUploadKeepsSlots(r: Registry, cmd: nat, u: Uploads.Upload)
    requires SlotsOk(r) && cmd in r.reserved && r.nextId !in r.uploads && u.refs > 0
    ensures SlotsOk(r.(reserved := r.reserved - {cmd}, nextId := r.nextId + 1, uploads := r.uploads[r.nextId := u]))
  {
    OneMoreLive(r.uploads, r.nextId, u);
  }

  lemma OneMoreLive(uploads: map<Id, Uploads.Upload>, id: Id, u: Uploads.Upload)
    requires id !in uploads && u.refs > 0
    ensures |Live(uploads[id := u])| == |Live(uploads)| + 1
  {
    assert Live(uploads[id := u]) == Live(uploads) + {id};
  }

  lemma OrderKeepsSlots(r: Registry, cmd: nat, order: Order)
    requires SlotsOk(r) && r.nextId !in r.downloads && r.nextId !in r.uploads
    ensures SlotsOk(OnOrder(r, cmd, order))
  {
    match order
    case InsertDownload(owner, path, allow, target) =>
      if cmd in r.reserved { InsertDownloadKeepsSlots(r, cmd, Fresh(owner, path, allow, target)); }
    case InsertUpload(owner, content) =>
      if cmd in r.reserved { InsertUploadKeepsSlots(r, cmd, Uploads.Opened(owner, content)); }
    case CancelDownload(id) => RegistryKeepsSlots(r, id, Fresh(Owner([], []), "", false, Path("")), 0, 0, []);
    case Acquire => PermitsMove(r, cmd);
    case Release => PermitsMove(r, cmd);
    case InsertProbe(owner) => ProbesKeepSlots(r, cmd, order);
    case DropProbe(id) => ProbesKeepSlots(r, cmd, order);
  }

  lemma ProbesKeepSlots(r: Registry, cmd: nat, order: Order)
    requires SlotsOk(r) && (order.InsertProbe? || order.DropProbe?)
    ensures SlotsOk(OnOrder(r, cmd, order))
  {
  }

  lemma PermitsMove(r: Registry, cmd: nat)
    requires SlotsOk(r)
    ensures SlotsOk(OnOrder(r, cmd, Acquire)) && SlotsOk(OnOrder(r, cmd, Release))
  {
  }

  lemma OrderKeepsRefs(r: Registry, cmd: nat, order: Order)
    requires RefsOk(r.uploads)
    ensures RefsOk(OnOrder(r, cmd, order).uploads)
  {
    if order.InsertUpload? {
      assert Uploads.RefsExact(Uploads.Opened(order.owner, order.content));
    }
  }

  lemma RegistryKeepsBudget(r: Registry, id: Id, d: Download, gen: nat, size: nat, checksum: Digest)
    requires BudgetOk(r)
    ensures BudgetOk(Forget(r, id))
    ensures (id in r.downloads && WithinBudget(d) &&
             Total(r.downloads) + d.written <= MAX_TOTAL_DOWNLOAD_BYTES + r.downloads[id].written) ==>
              BudgetOk(Put(r, id, d))
    ensures id in r.downloads && gen !in r.hands ==> BudgetOk(Take(r, gen, id, size, checksum))
  {
    if id in r.downloads {
      TotalRemove(r.downloads, id);
    }
    TotalUpdate(r.downloads, id, d);
  }

  lemma HandsKeepBudget(r: Registry, gen: nat, d: Download, c: Copy)
    requires BudgetOk(r) && gen in r.hands && r.hands[gen].id !in r.downloads
    ensures WithinBudget(d) && d.written == 0 ==> BudgetOk(GiveBack(r, gen, d))
    ensures BudgetOk(DropHand(r, gen)) && BudgetOk(StartCopy(r, gen, c))
  {
    TotalUpdate(r.downloads, r.hands[gen].id, d);
  }

  lemma OrderKeepsBudget(r: Registry, cmd: nat, order: Order)
    requires BudgetOk(r) && r.nextId !in r.downloads
    ensures BudgetOk(OnOrder(r, cmd, order))
  {
    match order
    case InsertDownload(owner, path, allow, target) =>
      TotalUpdate(r.downloads, r.nextId, Fresh(owner, path, allow, target));
    case CancelDownload(id) => if id in r.downloads { TotalRemove(r.downloads, id); }
    case _ =>
  }

  // ---- Registry moves ----

  lemma ForgetIsSafe(r: Registry, id: Id)
    requires Safe(r)
    ensures Safe(Forget(r, id))
  {
    var d := Fresh(Owner([], []), "", false, Path(""));
    RegistryKeepsIds(r, id, d);
    RegistryKeepsSlots(r, id, d, 0, 0, []);
    RegistryKeepsBudget(r, id, d, 0, 0, []);
  }

  lemma PutIsSafe(r: Registry, id: Id, d: Download)
    requires Safe(r) && id in r.downloads && WithinBudget(d)
    requires Total(r.downloads) + d.written <= MAX_TOTAL_DOWNLOAD_BYTES + r.downloads[id].written
    ensures Safe(Put(r, id, d))
  {
    RegistryKeepsIds(r, id, d);
    RegistryKeepsSlots(r, id, d, 0, 0, []);
    RegistryKeepsBudget(r, id, d, 0, 0, []);
  }

  lemma TakeIsSafe(r: Registry, gen: nat, id: Id, size: nat, checksum: Digest)
    requires Safe(r) && gen !in r.hands && id in r.downloads
    ensures Safe(Take(r, gen, id, size, checksum))
  {
    TakeKeepsIds(r, id, gen, size, checksum);
    RegistryKeepsSlots(r, id, r.downloads[id], gen, size, checksum);
    RegistryKeepsBudget(r, id, r.downloads[id], gen, size, checksum);
  }

  lemma HandsAreSafe(r: Registry, gen: nat, d: Download, c: Copy)
    requires Safe(r) && gen in r.hands
    ensures WithinBudget(d) && d.written == 0 ==> Safe(GiveBack(r, gen, d))
    ensures Safe(DropHand(r, gen)) && Safe(StartCopy(r, gen, c))
  {
    HandsKeepIds(r, gen, d, c);
    HandsKeepSlots(r, gen, d, c);
    HandsKeepBudget(r, gen, d, c);
  }

  lemma DropCopyIsSafe(r: Registry, id: Id)
    requires Safe(r) && id in r.copies
    ensures Safe(DropCopy(r, id))
  {
    var u := Uploads.Opened(Owner([], []), []);
    OthersKeepIds(r, id, u);
    OthersKeepSlots(r, id, u);
    assert BudgetOk(DropCopy(r, id));
  }

  lemma SetUploadIsSafe(r: Registry, id: Id, v: Uploads.Upload)
    requires Safe(r) && id in r.uploads
    requires Uploads.RefsExact(v) && (r.uploads[id].refs == 0 ==> v.refs == 0)
    ensures Safe(SetUpload(r, id, v))
  {
    OthersKeepIds(r, id, v);
    OthersKeepSlots(r, id, v);
    SetUploadKeepsBudget(r, id, v);
    SetUploadKeepsRefs(r, id, v);
  }

  lemma SetUploadKeepsBudget(r: Registry, id: Id, v: Uploads.Upload)
    requires BudgetOk(r) && id in r.uploads
    ensures BudgetOk(SetUpload(r, id, v))
  {
  }

  lemma SetUploadKeepsRefs(r: Registry, id: Id, v: Uploads.Upload)
    requires RefsOk(r.uploads) && id in r.uploads && Uploads.RefsExact(v)
    ensures RefsOk(SetUpload(r, id, v).uploads)
  {
  }

  lemma OnUploadIsSafe(H: Hash, r: Registry, id: Id, e: UploadRuns.Event)
    requires Safe(r)
    ensures Safe(OnUpload(H, r, id, e))
  {
    if id in r.uploads {
      var v := UploadRuns.Apply(H, r.uploads[id], e);
      assert Uploads.RefsExact(v) && (r.uploads[id].refs == 0 ==> v.refs == 0) by {
        UploadRuns.ApplyKeepsRefs(H, r.uploads[id], e);
      }
      SetUploadIsSafe(r, id, v);
    }
  }

  lemma OrderIsSafe(r: Registry, cmd: nat, order: Order)
    requires Safe(r)
    ensures Safe(OnOrder(r, cmd, order))
  {
    OrderKeepsIds(r, cmd, order);
    OrderKeepsSlots(r, cmd, order);
    OrderKeepsBudget(r, cmd, order);
    OrderKeepsRefs(r, cmd, order);
  }

  // Waiting probes play no part.
  lemma ProbesAreSafe(r: Registry, probes: map<Id, Owner>)
    requires Safe(r)
    ensures Safe(r.(probes := probes))
  {
  }

  // ---- Steps ----

  lemma AcceptIsSafe(r: Registry, id: Id, bytes: Bytes)
    requires Safe(r) && id in r.downloads && !OverBudget(r, id, bytes)
    ensures Safe(Put(r, id, Accept(r.downloads[id], bytes)))
  {
    var d := Accept(r.downloads[id], bytes);
    assert WithinBudget(r.downloads[id]);
    assert d.written == r.downloads[id].written + |bytes| && d.restarts == r.downloads[id].restarts;
    PutIsSafe(r, id, d);
  }

  lemma ChunkIsSafe(s: State, link: Link, id: Id, seqNo: nat, bytes: Bytes, writeOk: bool)
    requires Safe(s.reg)
    ensures Safe(OnChunk(s, link, id, seqNo, bytes, writeOk).reg)
    ensures Owned(s.reg, link, id) && seqNo == s.reg.downloads[id].nextSeq && OverBudget(s.reg, id, bytes) ==>
      id !in OnChunk(s, link, id, seqNo, bytes, writeOk).reg.downloads
  {
    var r := s.reg;
    if Owned(r, link, id) && seqNo == r.downloads[id].nextSeq {
      if OverBudget(r, id, bytes) || !writeOk {
        ForgetIsSafe(r, id);
      } else {
        AcceptIsSafe(r, id, bytes);
      }
    }
  }

  lemma ErrIsSafe(H: Hash, r: Registry, link: Link, id: Id)
    requires Safe(r)
    ensures Safe(OnErr(H, r, link, id))
  {
    ForgetIsSafe(r, id);
    OnUploadIsSafe(H, r, id, UploadRuns.Rejected);
    OnUploadIsSafe(H, Forget(r, id), id, UploadRuns.Rejected);
  }

  lemma PurgeIsSafe(H: Hash, r: Registry, owner: Owner, id: Id)
    requires Safe(r)
    ensures Safe(PurgeUpload(H, PurgeDownload(r, owner, id), owner, id))
  {
    ForgetIsSafe(r, id);
    OnUploadIsSafe(H, r, id, UploadRuns.Rejected);
    OnUploadIsSafe(H, Forget(r, id), id, UploadRuns.Rejected);
  }

  lemma DoneIsSafe(H: Hash, r: Registry, link: Link, id: Id, size: nat, checksum: Digest)
    requires Safe(r) && link.gen !in r.hands
    ensures Safe(OnDone(H, r, link, id, size, checksum))
  {
    if Owned(r, link, id) {
      TakeIsSafe(r, link.gen, id, size, checksum);
    } else {
      OnUploadIsSafe(H, r, id, UploadRuns.Completed);
    }
  }

  lemma ProbeIsSafe(s: State, link: Link, id: Id, cancel: bool)
    requires Safe(s.reg)
    ensures Safe(OnProbe(s, link, id, cancel).reg)
  {
    ProbesAreSafe(s.reg, s.reg.probes - {id});
  }

  lemma FrameIsSafe(H: Hash, s: State, link: Link, frame: Frame, writeOk: bool)
    requires Safe(s.reg) && link.gen !in s.reg.hands
    ensures Safe(OnFrame(H, s, link, frame, writeOk).reg)
  {
    match frame
    case FileChunk(id, seqNo, bytes) =>
      if IsProbe(id) { ProbeIsSafe(s, link, id, true); } else { ChunkIsSafe(s, link, id, seqNo, bytes, writeOk); }
    case FileDone(id, size, checksum) =>
      if IsProbe(id) { ProbeIsSafe(s, link, id, false); } else { DoneIsSafe(H, s.reg, link, id, size, checksum); }
    case FileRetry(id, fromSeq) => OnUploadIsSafe(H, s.reg, id, UploadRuns.Retry(fromSeq, link));
    case FileErr(id) =>
      if IsProbe(id) { ProbeIsSafe(s, link, id, false); } else { ErrIsSafe(H, s.reg, link, id); }
    case FileGetReq(_, _, _, _) =>
  }

  lemma FinishIsSafe(H: Hash, s: State, gen: nat, io: FinishIo)
    requires Safe(s.reg)
    ensures Safe(FinishDone(H, s, gen, io).reg)
  {
    if gen in s.reg.hands {
      var hand := s.reg.hands[gen];
      var d := hand.download;
      assert WithinBudget(d);
      HandsAreSafe(s.reg, gen, Restart(d, io.setLenOk, io.seekOk),
                   Copy(d.owner, d.target, d.file.content, hand.size, hand.checksum));
    }
  }

  lemma CopyIsSafe(H: Hash, s: State, id: Id, world: Commit.World)
    requires Safe(s.reg)
    ensures Safe(FinishCopy(H, s, id, world).reg)
  {
    if id in s.reg.copies {
      DropCopyIsSafe(s.reg, id);
      assert FinishCopy(H, s, id, world).reg == DropCopy(s.reg, id);
    }
  }

  lemma RecvIsSafe(H: Hash, s: State, link: Link, frame: Frame, writeOk: bool)
    requires Safe(s.reg)
    ensures Safe(Step(H, s, Recv(link, frame, writeOk)).reg)
  {
    if link.gen !in s.reg.hands {
      FrameIsSafe(H, s, link, frame, writeOk);
    }
  }

  lemma CommandIsSafe(H: Hash, s: State, cmd: nat, order: Order)
    requires Safe(s.reg)
    ensures Safe(Step(H, s, Command(cmd, order)).reg)
  {
    assert Step(H, s, Command(cmd, order)).reg == OnOrder(s.reg, cmd, order);
    OrderIsSafe(s.reg, cmd, order);
  }

  lemma UploadStepIsSafe(H: Hash, s: State, e: Event)
    requires Safe(s.reg) && (e.Purge? || e.StepUpload?)
    ensures Safe(Step(H, s, e).reg)
  {
    if e.Purge? {
      PurgeIsSafe(H, s.reg, e.owner, e.id);
    } else {
      OnUploadIsSafe(H, s.reg, e.id, e.step);
    }
  }

  lemma StepIsSafe(H: Hash, s: State, e: Event)
    requires Safe(s.reg)
    ensures Safe(Step(H, s, e).reg)
  {
    match e
    case Recv(link, frame, writeOk) => RecvIsSafe(H, s, link, frame, writeOk);
    case Finish(gen, io) => FinishIsSafe(H, s, gen, io);
    case EndCopy(id, world) => CopyIsSafe(H, s, id, world);
    case Command(cmd, order) => CommandIsSafe(H, s, cmd, order);
    case Resume(link, id) =>
    case _ => UploadStepIsSafe(H, s, e);
  }

  lemma {:induction false} RunStaysSafe(H: Hash, s: State, es: seq<Event>)
    requires Safe(s.reg)
    ensures Safe(Run(H, s, es).reg)
  {
    if es != [] {
      RunStaysSafe(H, s, es[..|es| - 1]);
      StepIsSafe(H, Run(H, s, es[..|es| - 1]), es[|es| - 1]);
    }
  }

  // On every run from start-up, over every interleaving of links, commands,
  // streaming tasks and host switches: each download holds at most 4 GiB and all
  // of them at most 6 GiB, and exactly four slots exist.
  lemma RunIsSafe(H: Hash, es: seq<Event>)
    ensures Safe(Run(H, INIT, es).reg)
  {
    assert Live(INIT.reg.uploads) == {};
    RunStaysSafe(H, INIT, es);
  }

  // ---- The two lock regions of `FileErr` ----

  // Uploads stay known, and new ones get new ids.
  ghost predicate UploadsGrow(r: Registry, t: Registry) {
    && r.nextId <= t.nextId
    && (forall id :: id in r.uploads ==> id in t.uploads)
    && (forall id :: id in t.uploads ==> id in r.uploads || r.nextId <= id)
  }

  lemma FrameGrowsUploads(H: Hash, s: State, link: Link, frame: Frame, writeOk: bool)
    ensures UploadsGrow(s.reg, OnFrame(H, s, link, frame, writeOk).reg)
  {
    match frame
    case FileChunk(id, seqNo, bytes) => assert OnFrame(H, s, link, frame, writeOk).reg.uploads == s.reg.uploads;
    case FileDone(id, size, checksum) =>
    case FileRetry(id, fromSeq) =>
    case FileErr(id) =>
    case FileGetReq(_, _, _, _) =>
  }

  lemma PurgeGrowsUploads(H: Hash, r: Registry, owner: Owner, id: Id)
    ensures UploadsGrow(r, PurgeUpload(H, PurgeDownload(r, owner, id), owner, id))
  {
    assert PurgeDownload(r, owner, id).uploads == r.uploads;
  }

  lemma OrderGrowsUploads(r: Registry, cmd: nat, order: Order)
    ensures UploadsGrow(r, OnOrder(r, cmd, order))
  {
  }

  lemma StepGrowsUploads(H: Hash, s: State, e: Event)
    ensures UploadsGrow(s.reg, Step(H, s, e).reg)
  {
    match e
    case Recv(link, frame, writeOk) => FrameGrowsUploads(H, s, link, frame, writeOk);
    case Purge(owner, id) => PurgeGrowsUploads(H, s.reg, owner, id);
    case StepUpload(id, step) =>
    case Command(cmd, order) => OrderGrowsUploads(s.reg, cmd, order);
    case Finish(gen, io) => assert Step(H, s, e).reg.uploads == s.reg.uploads;
    case Resume(link, id) =>
    case EndCopy(id, world) =>
  }

  lemma GrowOn(r: Registry, t: Registry, v: Registry)
    requires UploadsGrow(r, t) && UploadsGrow(t, v)
    ensures UploadsGrow(r, v)
  {
  }

  lemma {:induction false} RunGrowsUploads(H: Hash, s: State, es: seq<Event>)
    ensures UploadsGrow(s.reg, Run(H, s, es).reg)
  {
    if es != [] {
      var t := Run(H, s, es[..|es| - 1]);
      RunGrowsUploads(H, s, es[..|es| - 1]);
      StepGrowsUploads(H, t, es[|es| - 1]);
      GrowOn(s.reg, t.reg, Step(H, t, es[|es| - 1]).reg);
    }
  }

  // Whatever happens between the two, the outcome is that of both at once, before
  // it or after it.
  lemma ErrIsAtomic(H: Hash, s: State, link: Link, id: Id, es: seq<Event>)
    requires Safe(s.reg)
    ensures
      var t := Run(H, With(s, ErrDownload(s.reg, link, id)), es);
      var u := With(t, ErrUpload(H, t.reg, link, id));
      || u == Run(H, With(s, OnErr(H, s.reg, link, id)), es)
      || u == With(Run(H, s, es), OnErr(H, Run(H, s, es).reg, link, id))
  {
    RunGrowsUploads(H, With(s, ErrDownload(s.reg, link, id)), es);
    if !Owned(s.reg, link, id) {
      RunStaysSafe(H, s, es);
    }
  }

  // ---- Probes and transfers are told apart by their ids ----

  ghost predicate ProbesApart(r: Registry) {
    && (forall id :: id in r.probes ==> IsProbe(id))
    && (forall id :: id in r.downloads || id in r.uploads || id in r.copies ==> !IsProbe(id))
    && (forall g :: g in r.hands ==> !IsProbe(r.hands[g].id))
  }

  lemma ProbeIdsAre(id: Id)
    ensures id < PROBE_ID_BIT ==> !IsProbe(id) && IsProbe(PROBE_ID_BIT + id)
  {
  }

  lemma StepKeepsProbeIds(H: Hash, s: State, e: Event)
    requires forall id :: id in s.reg.probes ==> IsProbe(id)
    ensures forall id :: id in Step(H, s, e).reg.probes ==> IsProbe(id)
  {
    match e
    case Recv(link, frame, writeOk) => FrameAddsNoProbe(H, s, link, frame, writeOk);
    case Command(cmd, order) => if order.InsertProbe? { ProbeIdsAre(s.reg.nextId); }
    case Finish(gen, io) => assert Step(H, s, e).reg.probes == s.reg.probes;
    case Purge(owner, id) => assert Step(H, s, e).reg.probes == s.reg.probes;
    case Resume(link, id) =>
    case StepUpload(id, step) =>
    case EndCopy(id, world) => assert Step(H, s, e).reg.probes == s.reg.probes;
  }

  lemma FrameAddsNoProbe(H: Hash, s: State, link: Link, frame: Frame, writeOk: bool)
    ensures forall id :: id in OnFrame(H, s, link, frame, writeOk).reg.probes ==> id in s.reg.probes
  {
    if !frame.FileRetry? && !frame.FileGetReq? && IsProbe(frame.id) {
      assert OnFrame(H, s, link, frame, writeOk) == OnProbe(s, link, frame.id, frame.FileChunk?);
    } else {
      assert OnFrame(H, s, link, frame, writeOk).reg.probes == s.reg.probes;
    }
  }

  lemma {:induction false} ProbesStayApart(H: Hash, es: seq<Event>)
    ensures ProbesApart(Run(H, INIT, es).reg)
  {
    RunIsSafe(H, es);
    var r := Run(H, INIT, es).reg;
    forall id: Id | id < r.nextId ensures !IsProbe(id) {
      ProbeIdsAre(id);
    }
    if es != [] {
      ProbesStayApart(H, es[..|es| - 1]);
      StepKeepsProbeIds(H, Run(H, INIT, es[..|es| - 1]), es[|es| - 1]);
    }
  }

  // A probe is settled by the first frame about it from the host that was asked; a
  // chunk also stops that host's stream. No transfer is touched.
  lemma ProbeIsSettled(H: Hash, s: State, cmd: nat, link: Link, frame: Frame, writeOk: bool)
    requires s.reg.nextId < PROBE_ID_BIT && link.gen !in s.reg.hands
    requires frame.FileChunk? || frame.FileDone? || frame.FileErr?
    requires frame.id == PROBE_ID_BIT + s.reg.nextId
    ensures
      var t := Step(H, s, Command(cmd, InsertProbe(link.owner)));
      var u := Step(H, t, Recv(link, frame, writeOk));
      && frame.id in t.reg.probes && t.reg.probes[frame.id] == link.owner
      && u.reg == t.reg.(probes := t.reg.probes - {frame.id})
      && u.outbox == s.outbox + if frame.FileChunk? then [Out(link.gen, FileErr(frame.id))] else []
  {
    ProbeIdsAre(s.reg.nextId);
  }
}
