// The transfer registry as the app mutates it: one method per lock region of
// the session loop and of the user's commands. Each takes its step of the
// transition system, so the object never leaves the reachable states.
module Client {
  import opened Bytes
  import opened Downloads
  import Uploads
  import UploadRuns
  import Commit
  import opened Transfers
  import opened TransferSafety
  import opened Receiver
  import opened Ownership

  // Some run from start-up ends here.
  ghost predicate Reachable(H: Hash, s: State) {
    exists es :: Run(H, INIT, es) == s
  }

  lemma ReachMore(H: Hash, s: State, e: Event)
    requires Reachable(H, s)
    ensures Reachable(H, Step(H, s, e))
  {
    var es :| Run(H, INIT, es) == s;
    RunSnoc(H, INIT, es, e);
  }

  // So whatever was proved of every run holds of the object between any two of
  // its methods: one place per id, four slots, the byte budgets, exact holder
  // counts, and staged and installed bytes as the receiver's invariant says.
  lemma ReachableIsSound(H: Hash, s: State)
    requires Reachable(H, s)
    ensures Safe(s.reg) && Every(s.reg, WindowedAt) && InstallsTold(H, s)
  {
    var es :| Run(H, INIT, es) == s;
    RunIsSafe(H, es);
    ReceiverInvariant(H, es);
  }

  lemma ReachableIds(H: Hash, s: State, id: Id)
    requires Reachable(H, s)
    ensures id in s.reg.downloads ==> id < s.reg.nextId && id !in s.reg.uploads
    ensures id in s.reg.uploads ==> id < s.reg.nextId && id !in s.reg.downloads && Uploads.RefsExact(s.reg.uploads[id])
  {
    ReachableIsSound(H, s);
  }

  lemma ReachableSlots(H: Hash, s: State)
    requires Reachable(H, s)
    ensures SlotsOk(s.reg)
  {
    ReachableIsSound(H, s);
  }

  // The second answer to a probe, from whichever link, changes nothing.
  lemma ProbeSettlesOnce(s: State, link: Link, id: Id, cancel: bool, again: Link, cancelAgain: bool)
    requires id in s.reg.probes && s.reg.probes[id] == link.owner
    ensures OnProbe(OnProbe(s, link, id, cancel), again, id, cancelAgain) == OnProbe(s, link, id, cancel)
  {
  }

  class ClientTransfers {
    const H: Hash
    var free: nat
    var reserved: set<nat>
    var downloads: map<Id, Download>
    var hands: map<nat, Hand>
    var copies: map<Id, Copy>
    var uploads: map<Id, Uploads.Upload>
    var probes: map<Id, Owner>
    var nextId: nat
    var installs: seq<Install>
    var outbox: seq<Out>

    ghost function Model(): State
      reads this
    {
      State(Registry(free, reserved, downloads, hands, copies, uploads, probes, nextId), installs, outbox)
    }

    ghost predicate Valid()
      reads this
    {
      Reachable(H, Model())
    }

    constructor (H: Hash)
      ensures Model() == INIT && Valid() && this.H == H
    {
      this.H := H;
      free, reserved, downloads, hands, copies := MAX_ACTIVE_FILE_TRANSFERS, {}, map[], map[], map[];
      uploads, probes, nextId, installs, outbox := map[], map[], 1, [], [];
      new;
      assert Run(H, INIT, []) == INIT;
    }

    method Send(link: Link, frame: Frame)
      modifies this`outbox
      ensures Model() == Post(old(Model()), link, frame)
    {
      outbox := outbox + [Out(link.gen, frame)];
    }

    // ---- The user's commands ----

    // A slot, if one is free.
    method AcquireSlot(cmd: nat) returns (ok: bool)
      requires Valid() && cmd !in reserved
      modifies this`free, this`reserved
      ensures Valid() && Model() == With(old(Model()), OnOrder(old(Model()).reg, cmd, Acquire))
      ensures ok <==> old(free) > 0
      ensures free == (if ok then old(free) - 1 else 0) && (ok <==> cmd in reserved)
    {
      ReachMore(H, Model(), Command(cmd, Acquire));
      ok := free > 0;
      if ok {
        free, reserved := free - 1, reserved + {cmd};
      }
    }

    // An error path gives it back.
    method ReleaseSlot(cmd: nat)
      requires Valid() && cmd in reserved
      modifies this`free, this`reserved
      ensures Valid() && Model() == With(old(Model()), OnOrder(old(Model()).reg, cmd, Release))
      ensures free == old(free) + 1
    {
      ReachMore(H, Model(), Command(cmd, Release));
      free, reserved := free + 1, reserved - {cmd};
    }

    method RegisterDownload(cmd: nat, owner: Owner, path: string, allowOutsideHome: bool, target: Target)
      returns (id: Id)
      requires Valid() && cmd in reserved && nextId < PROBE_ID_BIT
      modifies this`reserved, this`nextId, this`downloads
      ensures Valid() && Model() == With(old(Model()),
            OnOrder(old(Model()).reg, cmd, InsertDownload(owner, path, allowOutsideHome, target)))
      ensures id !in old(downloads) && id in downloads && downloads == old(downloads)[id := downloads[id]]
      ensures
        var d := downloads[id];
        && d.owner == owner && d.remotePath == path && d.allowOutsideHome == allowOutsideHome && d.target == target
        && d.restarts == d.nextSeq == d.written == 0 && d.file == StagedFile([], 0) && d.hasher == []
    {
      ReachableIds(H, Model(), nextId);
      ReachMore(H, Model(), Command(cmd, InsertDownload(owner, path, allowOutsideHome, target)));
      id := nextId;
      reserved, nextId := reserved - {cmd}, nextId + 1;
      downloads := downloads[id := Fresh(owner, path, allowOutsideHome, target)];
    }

    // `download_file`: register, then ask the host for the file from its start. If
    // the request cannot be sent the entry goes again.
    method StartDownload(cmd: nat, link: Link, path: string, allowOutsideHome: bool, target: Target, sends: bool)
      returns (id: Id)
      requires Valid() && cmd in reserved && nextId < PROBE_ID_BIT
      modifies this
      ensures Valid() && id !in old(downloads) && cmd !in reserved
      ensures sends ==>
        && id in downloads && downloads == old(downloads)[id := downloads[id]] && free == old(free)
        && downloads[id].owner == link.owner && downloads[id].target == target
        && outbox == old(outbox) + [Out(link.gen, FileGetReq(id, path, 0, allowOutsideHome))]
      ensures !sends ==> downloads == old(downloads) && free == old(free) + 1 && outbox == old(outbox)
    {
      id := RegisterDownload(cmd, link.owner, path, allowOutsideHome, target);
      ghost var registered := downloads;
      if sends {
        ReachMore(H, Model(), Resume(link, id));
        Send(link, FileGetReq(id, path, 0, allowOutsideHome));
      } else {
        DropDownload(id);
        assert registered - {id} == old(downloads);
      }
    }

    method RegisterUpload(cmd: nat, owner: Owner, content: Bytes) returns (id: Id)
      requires Valid() && cmd in reserved && nextId < PROBE_ID_BIT
      modifies this`reserved, this`nextId, this`uploads
      ensures Valid() && Model() == With(old(Model()), OnOrder(old(Model()).reg, cmd, InsertUpload(owner, content)))
      ensures id !in old(uploads) && id in uploads && uploads == old(uploads)[id := uploads[id]]
      ensures
        var u := uploads[id];
        && u.owner == owner && u.content == content && u.size == |content| && u.registered && !u.cancelled
        && u.epoch == 0 && u.tasks == map[] && u.sent == [] && u.refs == 2
    {
      ReachableIds(H, Model(), nextId);
      ReachMore(H, Model(), Command(cmd, InsertUpload(owner, content)));
      id := nextId;
      reserved, nextId := reserved - {cmd}, nextId + 1;
      uploads := uploads[id := Uploads.Opened(owner, content)];
    }

    // `download_file` could not send its request: the entry goes again.
    method CancelDownload(id: Id)
      requires Valid()
      modifies this`downloads, this`free
      ensures Valid() && Model() == With(old(Model()), OnOrder(old(Model()).reg, 0, Order.CancelDownload(id)))
      ensures id !in downloads && free + |downloads| == old(free) + |old(downloads)|
    {
      ReachMore(H, Model(), Command(0, Order.CancelDownload(id)));
      if id in downloads {
        DropDownload(id);
      }
    }

    // ---- Frames ----

    // The live total is summed afresh for every chunk.
    method SumWritten() returns (total: nat)
      ensures total == Total(downloads)
    {
      var rest := downloads;
      total := 0;
      while rest != map[]
        invariant total + Total(rest) == Total(downloads)
        decreases |rest|
      {
        var id :| id in rest;
        TotalRemove(rest, id);
        MapCounts(rest, id, rest[id]);
        total := total + rest[id].written;
        rest := rest - {id};
      }
    }

    method DropDownload(id: Id)
      requires id in downloads
      modifies this`downloads, this`free
      ensures Model() == With(old(Model()), Forget(old(Model()).reg, id)) && (old(Valid()) ==> Valid())
      ensures free + |downloads| == old(free) + |old(downloads)|
    {
      if Reachable(H, Model()) {
        ReachMore(H, Model(), Command(0, Order.CancelDownload(id)));
      }
      MapCounts(downloads, id, downloads[id]);
      downloads := downloads - {id};
      free := free + 1;
    }

    method OnFileChunk(link: Link, id: Id, seqNo: nat, bytes: Bytes, writeOk: bool)
      requires Valid() && link.gen !in hands && !IsProbe(id)
      modifies this
      ensures Valid() && Model() == OnChunk(old(Model()), link, id, seqNo, bytes, writeOk)
      // Nobody else's chunk does anything.
      ensures id !in old(downloads) || old(downloads)[id].owner != link.owner ==> Model() == old(Model())
      ensures id in old(downloads) && old(downloads)[id].owner == link.owner ==>
        var d := old(downloads)[id];
        var over :=
          || d.written + |bytes| > MAX_DOWNLOAD_BYTES
          || Total(old(downloads)) + |bytes| > MAX_TOTAL_DOWNLOAD_BYTES;
        // A gap writes nothing and asks for the first missing chunk.
        if seqNo != d.nextSeq then
          && Model().reg == old(Model()).reg && installs == old(installs)
          && outbox == old(outbox) + [Out(link.gen, FileRetry(id, d.nextSeq))]
        // Too much, or a failed write, gives the download up and tells the host.
        else if over || (|bytes| <= FILE_CHUNK_BYTES && !writeOk) then
          && downloads == old(downloads) - {id} && free == old(free) + 1
          && outbox == old(outbox) + [Out(link.gen, FileErr(id))]
        // An oversized chunk is passed over.
        else if |bytes| > FILE_CHUNK_BYTES then Model() == old(Model())
        else
          && id in downloads && downloads == old(downloads)[id := downloads[id]] && outbox == old(outbox)
          && free == old(free) && downloads[id].nextSeq == d.nextSeq + 1
          && downloads[id].written == d.written + |bytes| && downloads[id].hasher == d.hasher + [bytes]
          && downloads[id].file == WriteAll(d.file, bytes)
    {
      ReachMore(H, Model(), Recv(link, FileChunk(id, seqNo, bytes), writeOk));
      var total := SumWritten();
      if id !in downloads || downloads[id].owner != link.owner {
        return;
      }
      var transfer := downloads[id];
      if seqNo != transfer.nextSeq {
        Send(link, FileRetry(id, transfer.nextSeq));
        return;
      }
      if transfer.written + |bytes| > MAX_DOWNLOAD_BYTES || total + |bytes| > MAX_TOTAL_DOWNLOAD_BYTES {
        DropDownload(id);
        Send(link, FileErr(id));
        return;
      }
      if |bytes| > FILE_CHUNK_BYTES {
        return;
      }
      if !writeOk {
        DropDownload(id);
        Send(link, FileErr(id));
        return;
      }
      downloads := downloads[id := Accept(transfer, bytes)];
    }

    // Remove a download only if `owner` started it.
    method TakeOwnedDownload(id: Id, owner: Owner) returns (taken: Option<Download>)
      modifies this`downloads
      ensures taken.Some? <==> id in old(downloads) && old(downloads)[id].owner == owner
      ensures taken.Some? ==> taken.value == old(downloads)[id] && downloads == old(downloads) - {id}
      ensures taken.None? ==> downloads == old(downloads)
    {
      if id in downloads && downloads[id].owner == owner {
        taken := Some(downloads[id]);
        downloads := downloads - {id};
      } else {
        taken := None;
      }
    }

    // One step of an upload's shared state; the last clone returns the slot.
    method MoveUpload(id: Id, e: UploadRuns.Event)
      modifies this`uploads, this`free
      ensures Model() == With(old(Model()), OnUpload(H, old(Model()).reg, id, e)) && (old(Valid()) ==> Valid())
    {
      if Reachable(H, Model()) {
        ReachMore(H, Model(), StepUpload(id, e));
      }
      if id in uploads {
        var before := uploads[id];
        var after := UploadRuns.Apply(H, before, e);
        uploads := uploads[id := after];
        if before.refs > 0 && after.refs == 0 {
          free := free + 1;
        }
      }
    }

    method OnFileDone(link: Link, id: Id, size: nat, checksum: Digest)
      requires Valid() && link.gen !in hands && !IsProbe(id)
      modifies this
      ensures Valid() && Model() == With(old(Model()), OnDone(H, old(Model()).reg, link, id, size, checksum))
      // Exactly an owned download moves into the loop's hand.
      ensures link.gen in hands <==> id in old(downloads) && old(downloads)[id].owner == link.owner
      ensures link.gen in hands ==> id !in downloads && hands[link.gen] == Hand(id, old(downloads)[id], size, checksum)
      // Otherwise an owned upload is complete: out of the registry, not cancelled.
      ensures outbox == old(outbox) && installs == old(installs)
      ensures link.gen !in hands && old(OwnsUpload(Model().reg, link, id)) ==>
        && id in uploads && uploads == old(uploads)[id := uploads[id]]
        && !uploads[id].registered && uploads[id].cancelled == old(uploads)[id].cancelled
      ensures link.gen !in hands && !old(OwnsUpload(Model().reg, link, id)) ==> Model() == old(Model())
    {
      ReachMore(H, Model(), Recv(link, FileDone(id, size, checksum), true));
      var taken := TakeOwnedDownload(id, link.owner);
      if taken.Some? {
        hands := hands[link.gen := Hand(id, taken.value, size, checksum)];
      } else if id in uploads && uploads[id].registered && uploads[id].owner == link.owner {
        MoveUpload(id, UploadRuns.Completed);
      }
    }

    // Verification failed: start the file over, or give up after three times.
    method RestartDownload(gen: nat, io: FinishIo)
      requires gen in hands
      modifies this
      ensures
        var s, hand := old(Model()), old(hands)[gen];
        var link := Link(gen, hand.download.owner);
        Model() ==
        if hand.download.restarts + 1 > MAX_DOWNLOAD_RESTARTS
        then Post(With(s, DropHand(s.reg, gen)), link, FileErr(hand.id))
        else Post(With(s, GiveBack(s.reg, gen, Restart(hand.download, io.setLenOk, io.seekOk))),
             link, FileRetry(hand.id, 0))
    {
      var hand := hands[gen];
      var transfer := hand.download;
      hands := hands - {gen};
      transfer := transfer.(restarts := transfer.restarts + 1);
      if transfer.restarts > MAX_DOWNLOAD_RESTARTS {
        free := free + 1;
        Send(Link(gen, transfer.owner), FileErr(hand.id));
        return;
      }
      transfer := transfer.(file := SetLenZero(transfer.file, io.setLenOk));
      transfer := transfer.(file := SeekStart(transfer.file, io.seekOk));
      transfer := transfer.(nextSeq := 0, written := 0, hasher := []);
      downloads := downloads[hand.id := transfer];
      Send(Link(gen, transfer.owner), FileRetry(hand.id, 0));
    }

    // The rest of the arm, with the download in hand.
    method FinishFileDone(gen: nat, io: FinishIo)
      requires Valid()
      modifies this
      ensures Valid() && Model() == FinishDone(H, old(Model()), gen, io)
      ensures gen !in hands
    {
      ReachMore(H, Model(), Finish(gen, io));
      if gen !in hands {
        return;
      }
      var hand := hands[gen];
      var transfer := hand.download;
      if transfer.written != hand.size || H(Flatten(transfer.hasher)) != hand.checksum {
        RestartDownload(gen, io);
        return;
      }
      hands := hands - {gen};
      if !io.flushOk || !io.syncOk {
        free := free + 1;
        return;
      }
      match transfer.target {
        case Document(_) =>
          copies := copies[hand.id :=
            Copy(transfer.owner, transfer.target, transfer.file.content, hand.size, hand.checksum)];
        case Path(_) =>
          free := free + 1;
          var reported := RenameInto(io.replace, transfer.file.content);
          if Commit.InstallsNew(io.replace) {
            installs := installs +
              [Install(hand.id, transfer.target, transfer.file.content, hand.size, hand.checksum, reported)];
          }
      }
    }

    // The rename, on a disk that answers as `io` says.
    method RenameInto(io: Commit.ReplaceIo, content: Bytes) returns (reported: bool)
      ensures reported == Commit.ReportsInstalled(io)
    {
      var files: map<string, Bytes> := map[];
      if io.targetThere { files := files["target" := []]; }
      if io.backupThere { files := files["backup" := []]; }
      if io.stagedThere { files := files["staged" := content]; }
      var disk := new Commit.Disk(files, io.script);
      var end := disk.ReplaceDownloadFile(io.windows, "staged", "target", "backup");
      reported := end == Commit.Replaced;
    }

    // The copy into a document that held `before`, off the session loop. A document
    // is removed only after a failure and only if nothing is left in it.
    method FinishDocument(id: Id, world: Commit.World, before: Bytes, tries: seq<Commit.Try>)
      returns (report: Commit.Report)
      requires Valid() && |tries| == 2
      modifies this
      ensures Valid() && Model() == FinishCopy(H, old(Model()), id, world)
      ensures id in old(copies) ==>
        var c := old(copies)[id];
        && (report == Commit.Saved <==> Commit.Copies(H, world, c.size, c.checksum))
        && (report == Commit.SaidRemoved ==> Commit.LeftAt(H, world, c.size, c.checksum, before) == [])
    {
      report := Commit.SaidNothing;
      ReachMore(H, Model(), EndCopy(id, world));
      if id !in copies {
        return;
      }
      var c := copies[id];
      copies := copies - {id};
      free := free + 1;
      var document := new Commit.Document(Some(c.content), before);
      report := document.SaveDocument(H, world, c.size, c.checksum, tries);
      if world.sourceOpens && world.destinationOpens {
        installs := installs + [Install(id, c.target, document.destination, c.size, c.checksum, report.Saved?)];
      }
    }

    // At most one of the two removals finds its id, so their order does not matter.
    method OnFileErr(link: Link, id: Id)
      requires Valid() && link.gen !in hands && !IsProbe(id)
      modifies this
      ensures Valid() && Model() == With(old(Model()), OnErr(H, old(Model()).reg, link, id))
      ensures id in downloads ==> downloads[id].owner != link.owner
      ensures id in uploads && uploads[id].registered ==> uploads[id].owner != link.owner
      ensures downloads == old(downloads) || uploads == old(uploads)
      // An owned upload's stream is told to stop.
      ensures old(OwnsUpload(Model().reg, link, id)) ==>
        && id in uploads && uploads == old(uploads)[id := uploads[id]]
        && !uploads[id].registered && uploads[id].cancelled
      ensures outbox == old(outbox) && installs == old(installs)
    {
      ReachMore(H, Model(), Recv(link, FileErr(id), true));
      ReachableIds(H, Model(), id);
      var taken := TakeOwnedDownload(id, link.owner);
      if taken.Some? {
        free := free + 1;
      }
      if id in uploads && uploads[id].registered && uploads[id].owner == link.owner {
        MoveUpload(id, UploadRuns.Rejected);
      }
    }

    // A retry of an owned upload starts one pass, on the asking link and from the
    // asked chunk, and retires every earlier one; any other changes nothing.
    method OnFileRetry(link: Link, id: Id, fromSeq: nat) returns (owned: bool)
      requires Valid() && link.gen !in hands
      modifies this
      ensures Valid() && Model() == With(old(Model()), OnRetry(H, old(Model()).reg, link, id, fromSeq))
      ensures owned <==> id in old(uploads) && old(uploads)[id].registered && old(uploads)[id].owner == link.owner
      ensures !owned ==> Model() == old(Model())
      ensures owned ==>
        var before, after := old(uploads)[id], uploads[id];
        && after.epoch == before.epoch + 1 && after.epoch in after.tasks
        && after.tasks[after.epoch] == Uploads.Task(fromSeq, link, Uploads.Wait, 0, 0, [])
        && (forall t: nat :: t <= before.epoch ==> Uploads.Retired(after, t))
        && (forall t :: t in before.tasks ==> t in after.tasks && after.tasks[t] == before.tasks[t])
        && after.sent == before.sent && after.cancelled == before.cancelled
        && free == old(free) && uploads == old(uploads)[id := after]
    {
      ReachMore(H, Model(), Recv(link, FileRetry(id, fromSeq), true));
      ReachableIds(H, Model(), id);
      owned := id in uploads && uploads[id].registered && uploads[id].owner == link.owner;
      if owned {
        MoveUpload(id, UploadRuns.Retry(fromSeq, link));
      }
    }

    // Settle a probe from a host frame about it: only the host that was asked,
    // and only once. A chunk also stops the host's stream.
    method Answer(link: Link, id: Id, cancel: bool) returns (settled: bool)
      requires Valid() && link.gen !in hands && IsProbe(id)
      modifies this`probes, this`outbox
      ensures Valid() && Model() == OnProbe(old(Model()), link, id, cancel)
      ensures settled <==> id in old(probes) && old(probes)[id] == link.owner
      ensures settled ==>
        probes == old(probes) - {id}
        && outbox == old(outbox) + if cancel then [Out(link.gen, FileErr(id))] else []
      ensures !settled ==> Model() == old(Model())
      // Asked again, from any link, it does nothing.
      ensures settled ==> forall again, cancelAgain :: OnProbe(Model(), again, id, cancelAgain) == Model()
    {
      ReachMore(H, Model(), Recv(link, if cancel then FileChunk(id, 0, []) else FileErr(id), true));
      settled := id in probes && probes[id] == link.owner;
      if settled {
        probes := probes - {id};
        if cancel {
          Send(link, FileErr(id));
        }
      }
    }

    // One frame, on a loop that is not still busy with the one before.
    method Dispatch(link: Link, frame: Frame, writeOk: bool)
      requires Valid()
      modifies this
      ensures Valid() && Model() == Step(H, old(Model()), Recv(link, frame, writeOk))
    {
      if link.gen in hands {
        return;
      }
      var ok;
      match frame {
        case FileChunk(id, seqNo, bytes) =>
          if IsProbe(id) {
            ok := Answer(link, id, true);
          } else {
            OnFileChunk(link, id, seqNo, bytes, writeOk);
          }
        case FileDone(id, size, checksum) =>
          if IsProbe(id) {
            ok := Answer(link, id, false);
          } else {
            OnFileDone(link, id, size, checksum);
          }
        case FileRetry(id, fromSeq) =>
          ok := OnFileRetry(link, id, fromSeq);
        case FileErr(id) =>
          if IsProbe(id) {
            ok := Answer(link, id, false);
          } else {
            OnFileErr(link, id);
          }
        case FileGetReq(_, _, _, _) =>
      }
    }

    // ---- A new link ----

    // The purge of a host switch: downloads first, then uploads. Every slot that
    // a purged download or an idle purged upload held is free again.
    method TakeTransfersNotOwnedBy(owner: Owner)
      requires Valid()
      modifies this`downloads, this`uploads, this`free
      ensures Valid()
      ensures PurgedDownloads(old(Model()).reg, Model().reg, owner, old(downloads).Keys)
      ensures PurgedUploads(old(Model()).reg, Model().reg, owner, old(uploads).Keys)
      ensures forall id :: id in downloads ==> downloads[id].owner == owner
      ensures forall id :: id in uploads && uploads[id].registered ==> uploads[id].owner == owner
      ensures free + |downloads| + |Live(uploads)| == old(free) + |old(downloads)| + |Live(old(uploads))|
    {
      ReachableSlots(H, Model());
      PurgeForeignDownloads(owner);
      PurgeForeignUploads(owner);
      ReachableSlots(H, Model());
    }

    method PurgeForeignDownloads(owner: Owner)
      requires Valid()
      modifies this`downloads, this`free
      ensures Valid() && PurgedDownloads(old(Model()).reg, Model().reg, owner, old(downloads).Keys)
    {
      ghost var before := Model().reg;
      ghost var seen: set<Id> := {};
      var todo := downloads.Keys;
      while todo != {}
        invariant Valid() && seen + todo == before.downloads.Keys
        invariant PurgedDownloads(before, Model().reg, owner, seen)
        decreases |todo|
      {
        var id :| id in todo;
        PurgeDownloadOf(owner, id, before, seen);
        seen := seen + {id};
        todo := todo - {id};
      }
      assert seen == before.downloads.Keys;
    }

    // One turn of the first loop, after the ids in `seen`.
    method PurgeDownloadOf(owner: Owner, id: Id, ghost before: Registry, ghost seen: set<Id>)
      requires Valid() && PurgedDownloads(before, Model().reg, owner, seen)
      modifies this`downloads, this`free
      ensures Valid() && Model() == With(old(Model()), PurgeDownload(old(Model()).reg, owner, id))
      ensures PurgedDownloads(before, Model().reg, owner, seen + {id})
    {
      PurgeOneDownload(before, Model().reg, owner, seen, id);
      if id in downloads && downloads[id].owner != owner {
        DropDownload(id);
      }
    }

    method PurgeForeignUploads(owner: Owner)
      requires Valid()
      modifies this`uploads, this`free
      ensures Valid() && PurgedUploads(old(Model()).reg, Model().reg, owner, old(uploads).Keys)
    {
      ghost var before := Model().reg;
      ghost var seen: set<Id> := {};
      var todo := uploads.Keys;
      while todo != {}
        invariant Valid() && seen + todo == before.uploads.Keys
        invariant PurgedUploads(before, Model().reg, owner, seen)
        decreases |todo|
      {
        var id :| id in todo;
        PurgeUploadOf(owner, id, before, seen);
        seen := seen + {id};
        todo := todo - {id};
      }
      assert seen == before.uploads.Keys;
    }

    method PurgeUploadOf(owner: Owner, id: Id, ghost before: Registry, ghost seen: set<Id>)
      requires Valid() && id in uploads && PurgedUploads(before, Model().reg, owner, seen)
      modifies this`uploads, this`free
      ensures Valid() && Model() == With(old(Model()), PurgeUpload(H, old(Model()).reg, owner, id))
      ensures PurgedUploads(before, Model().reg, owner, seen + {id})
    {
      PurgeOneUpload(H, before, Model().reg, owner, seen, id);
      if uploads[id].registered && uploads[id].owner != owner {
        MoveUpload(id, UploadRuns.Rejected);
      }
    }

    // A new link of the same pairing asks for every interrupted download, once,
    // under its own path, from its first missing chunk and with its own permission,
    // and for nothing else.
    method ResumeDownloads(link: Link) returns (asked: seq<Id>)
      requires Valid()
      modifies this`outbox
      ensures Valid()
      ensures forall i, j :: 0 <= i < j < |asked| ==> asked[i] != asked[j]
      ensures forall id :: id in asked <==> id in downloads && downloads[id].owner == link.owner
      ensures old(outbox) <= outbox && |outbox| == |old(outbox)| + |asked|
      ensures forall i :: 0 <= i < |asked| ==>
        var id := asked[i];
        outbox[|old(outbox)| + i] ==
        Out(link.gen, FileGetReq(id, downloads[id].remotePath, downloads[id].nextSeq, downloads[id].allowOutsideHome))
    {
      asked := [];
      var todo := downloads.Keys;
      while todo != {}
        invariant Valid() && todo <= downloads.Keys
        invariant forall i, j :: 0 <= i < j < |asked| ==> asked[i] != asked[j]
        invariant forall id :: id in asked <==> id in downloads && id !in todo && downloads[id].owner == link.owner
        invariant old(outbox) <= outbox && |outbox| == |old(outbox)| + |asked|
        invariant forall i :: 0 <= i < |asked| ==>
          var id := asked[i];
          outbox[|old(outbox)| + i] ==
          Out(link.gen, FileGetReq(id, downloads[id].remotePath, downloads[id].nextSeq, downloads[id].allowOutsideHome))
        decreases |todo|
      {
        var id :| id in todo;
        var d := downloads[id];
        if d.owner == link.owner {
          ReachMore(H, Model(), Resume(link, id));
          Send(link, FileGetReq(id, d.remotePath, d.nextSeq, d.allowOutsideHome));
          asked := asked + [id];
        }
        todo := todo - {id};
      }
    }
  }
}
