// A transfer belongs to one pairing: frames from another host leave it alone,
// and a host switch removes it.
module Ownership {
  import opened Bytes
  import opened Downloads
  import Uploads
  import UploadRuns
  import opened Transfers
  import opened TransferSafety
  import opened Receiver

  // Everything that belongs to `a` is the same in both registries.

  ghost predicate SameDownloads(a: Owner, r: Registry, t: Registry) {
    forall id ::
      && (id in r.downloads && r.downloads[id].owner == a ==> id in t.downloads && t.downloads[id] == r.downloads[id])
      && (id in t.downloads && t.downloads[id].owner == a ==> id in r.downloads && r.downloads[id] == t.downloads[id])
  }

  ghost predicate SameUploads(a: Owner, r: Registry, t: Registry) {
    forall id ::
      && (id in r.uploads && r.uploads[id].owner == a ==> id in t.uploads && t.uploads[id] == r.uploads[id])
      && (id in t.uploads && t.uploads[id].owner == a ==> id in r.uploads && r.uploads[id] == t.uploads[id])
  }

  ghost predicate SameHands(a: Owner, r: Registry, t: Registry) {
    forall g ::
      && (g in r.hands && r.hands[g].download.owner == a ==> g in t.hands && t.hands[g] == r.hands[g])
      && (g in t.hands && t.hands[g].download.owner == a ==> g in r.hands && r.hands[g] == t.hands[g])
  }

  ghost predicate SameProbes(a: Owner, r: Registry, t: Registry) {
    forall id :: id in r.probes && r.probes[id] == a <==> id in t.probes && t.probes[id] == a
  }

  ghost predicate Untouched(a: Owner, r: Registry, t: Registry) {
    SameDownloads(a, r, t) && SameUploads(a, r, t) && SameHands(a, r, t) && SameProbes(a, r, t)
  }

  // A frame that arrived on a link of another pairing, or the rest of its arm.
  predicate Foreign(a: Owner, s: State, e: Event) {
    || (e.Recv? && e.link.owner != a)
    || (e.Finish? && (e.gen in s.reg.hands ==> s.reg.hands[e.gen].download.owner != a))
  }

  ghost predicate HandsApart(r: Registry) {
    forall g :: g in r.hands ==> r.hands[g].id !in r.downloads
  }

  lemma UploadIsForeign(H: Hash, r: Registry, link: Link, id: Id, e: UploadRuns.Event, a: Owner)
    requires OwnsUpload(r, link, id) && link.owner != a
    ensures Untouched(a, r, OnUpload(H, r, id, e))
  {
    var v := UploadRuns.Apply(H, r.uploads[id], e);
    assert v.owner == r.uploads[id].owner;
    assert OnUpload(H, r, id, e).uploads == r.uploads[id := v];
  }

  lemma MovesAreForeign(r: Registry, link: Link, id: Id, d: Download, size: nat, checksum: Digest, a: Owner)
    requires Owned(r, link, id) && link.owner != a && link.gen !in r.hands && d.owner == link.owner
    ensures Untouched(a, r, Forget(r, id)) && Untouched(a, r, Put(r, id, d))
    ensures Untouched(a, r, Take(r, link.gen, id, size, checksum))
  {
  }

  lemma HandsAreForeign(r: Registry, gen: nat, d: Download, c: Copy, a: Owner)
    requires HandsApart(r) && gen in r.hands && r.hands[gen].download.owner != a && d.owner != a
    ensures Untouched(a, r, GiveBack(r, gen, d)) && Untouched(a, r, DropHand(r, gen))
      && Untouched(a, r, StartCopy(r, gen, c))
  {
  }

  lemma ErrIsForeign(H: Hash, r: Registry, link: Link, id: Id, a: Owner)
    requires link.owner != a && link.gen !in r.hands
    ensures Untouched(a, r, OnErr(H, r, link, id))
  {
    var t := if Owned(r, link, id) then Forget(r, id) else r;
    if Owned(r, link, id) {
      MovesAreForeign(r, link, id, r.downloads[id], 0, [], a);
    }
    if OwnsUpload(t, link, id) {
      UploadIsForeign(H, t, link, id, UploadRuns.Rejected, a);
      Transitive(a, r, t, OnUpload(H, t, id, UploadRuns.Rejected));
    }
  }

  lemma Transitive(a: Owner, r: Registry, t: Registry, v: Registry)
    requires Untouched(a, r, t) && Untouched(a, t, v)
    ensures Untouched(a, r, v)
  {
  }

  lemma ChunkIsForeign(s: State, link: Link, id: Id, seqNo: nat, bytes: Bytes, writeOk: bool, a: Owner)
    requires link.owner != a && link.gen !in s.reg.hands
    ensures Untouched(a, s.reg, OnChunk(s, link, id, seqNo, bytes, writeOk).reg)
  {
    if Owned(s.reg, link, id) {
      MovesAreForeign(s.reg, link, id, Accept(s.reg.downloads[id], bytes), 0, [], a);
    }
  }

  lemma ProbeIsForeign(s: State, link: Link, id: Id, cancel: bool, a: Owner)
    requires link.owner != a
    ensures Untouched(a, s.reg, OnProbe(s, link, id, cancel).reg)
  {
  }

  lemma FrameIsForeign(H: Hash, s: State, link: Link, frame: Frame, writeOk: bool, a: Owner)
    requires link.owner != a && link.gen !in s.reg.hands
    ensures Untouched(a, s.reg, OnFrame(H, s, link, frame, writeOk).reg)
  {
    if !frame.FileRetry? && !frame.FileGetReq? && IsProbe(frame.id) {
      ProbeIsForeign(s, link, frame.id, frame.FileChunk?, a);
    } else {
      match frame
      case FileChunk(id, seqNo, bytes) => ChunkIsForeign(s, link, id, seqNo, bytes, writeOk, a);
      case FileDone(id, size, checksum) =>
        if Owned(s.reg, link, id) { MovesAreForeign(s.reg, link, id, s.reg.downloads[id], size, checksum, a); }
        else if OwnsUpload(s.reg, link, id) { UploadIsForeign(H, s.reg, link, id, UploadRuns.Completed, a); }
      case FileRetry(id, fromSeq) =>
        if OwnsUpload(s.reg, link, id) { UploadIsForeign(H, s.reg, link, id, UploadRuns.Retry(fromSeq, link), a); }
      case FileErr(id) => ErrIsForeign(H, s.reg, link, id, a);
      case FileGetReq(_, _, _, _) =>
    }
  }

  // One frame, whatever it names, handled on a link of another pairing.
  lemma ForeignStep(H: Hash, s: State, e: Event, a: Owner)
    requires HandsApart(s.reg) && Foreign(a, s, e)
    ensures Untouched(a, s.reg, Step(H, s, e).reg)
  {
    match e
    case Recv(link, frame, writeOk) =>
      if link.gen !in s.reg.hands { FrameIsForeign(H, s, link, frame, writeOk, a); }
    case Finish(gen, io) =>
      if gen in s.reg.hands {
        var hand := s.reg.hands[gen];
        var d := hand.download;
        HandsAreForeign(s.reg, gen, Restart(d, io.setLenOk, io.seekOk),
                        Copy(d.owner, d.target, d.file.content, hand.size, hand.checksum), a);
      }
  }

  ghost predicate ForeignRun(H: Hash, a: Owner, s: State, es: seq<Event>) {
    es == [] || (ForeignRun(H, a, s, es[..|es| - 1]) && Foreign(a, Run(H, s, es[..|es| - 1]), es[|es| - 1]))
  }

  // However many links other hosts have and however their frames interleave,
  // every download, upload and probe of `a` stays exactly as it was.
  lemma {:induction false} OwnerNonInterference(H: Hash, a: Owner, s: State, es: seq<Event>)
    requires Safe(s.reg) && ForeignRun(H, a, s, es)
    ensures Safe(Run(H, s, es).reg) && Untouched(a, s.reg, Run(H, s, es).reg)
  {
    if es != [] {
      var t := Run(H, s, es[..|es| - 1]);
      OwnerNonInterference(H, a, s, es[..|es| - 1]);
      StepIsSafe(H, t, es[|es| - 1]);
      ForeignStep(H, t, es[|es| - 1], a);
      Transitive(a, s.reg, t.reg, Run(H, s, es).reg);
    }
  }

  // ---- Host switch ----

  function PurgeOne(H: Hash, r: Registry, owner: Owner, id: Id): Registry {
    PurgeUpload(H, PurgeDownload(r, owner, id), owner, id)
  }

  // The purge loop over any listing of the registered ids.
  function PurgeAll(H: Hash, r: Registry, owner: Owner, ids: seq<Id>): Registry {
    if ids == [] then r else PurgeOne(H, PurgeAll(H, r, owner, ids[..|ids| - 1]), owner, ids[|ids| - 1])
  }

  // What the purge has done to the transfers it was asked about so far.

  ghost predicate PurgedDownloads(r: Registry, t: Registry, owner: Owner, seen: set<Id>) {
    && (forall id :: id in t.downloads <==> id in r.downloads && (r.downloads[id].owner == owner || id !in seen))
    && (forall id :: id in t.downloads ==> t.downloads[id] == r.downloads[id])
  }

  ghost predicate PurgedUpload(u: Uploads.Upload, v: Uploads.Upload, owner: Owner, seen: bool) {
    if u.registered && u.owner != owner && seen then !v.registered && v.cancelled && v.owner == u.owner else v == u
  }

  ghost predicate PurgedUploads(r: Registry, t: Registry, owner: Owner, seen: set<Id>) {
    && t.uploads.Keys == r.uploads.Keys
    && (forall id :: id in r.uploads ==> PurgedUpload(r.uploads[id], t.uploads[id], owner, id in seen))
  }

  lemma PurgeOneDownload(r: Registry, t: Registry, owner: Owner, seen: set<Id>, id: Id)
    requires PurgedDownloads(r, t, owner, seen)
    ensures PurgedDownloads(r, PurgeDownload(t, owner, id), owner, seen + {id})
  {
  }

  lemma PurgeOneUpload(H: Hash, r: Registry, t: Registry, owner: Owner, seen: set<Id>, id: Id)
    requires PurgedUploads(r, t, owner, seen)
    ensures PurgedUploads(r, PurgeUpload(H, t, owner, id), owner, seen + {id})
  {
    var v := PurgeUpload(H, t, owner, id);
    if id in t.uploads && t.uploads[id].registered && t.uploads[id].owner != owner {
      var u := Uploads.Deregister(t.uploads[id], true);
      assert v.uploads == t.uploads[id := u] && !u.registered && u.cancelled;
    } else {
      assert v.uploads == t.uploads;
    }
  }

  lemma {:induction false} PurgeAllDoes(H: Hash, r: Registry, owner: Owner, ids: seq<Id>)
    ensures PurgedDownloads(r, PurgeAll(H, r, owner, ids), owner, set id | id in ids)
    ensures PurgedUploads(r, PurgeAll(H, r, owner, ids), owner, set id | id in ids)
  {
    if ids != [] {
      var front, last := ids[..|ids| - 1], ids[|ids| - 1];
      PurgeAllDoes(H, r, owner, front);
      var seen := set id | id in front;
      PurgeMore(H, r, PurgeAll(H, r, owner, front), owner, seen, last);
      SeenMore(ids, front, last);
    }
  }

  lemma SeenMore(ids: seq<Id>, front: seq<Id>, last: Id)
    requires ids == front + [last]
    ensures (set id | id in ids) == (set id | id in front) + {last}
  {
  }

  lemma PurgeMore(H: Hash, r: Registry, t: Registry, owner: Owner, seen: set<Id>, id: Id)
    requires PurgedDownloads(r, t, owner, seen) && PurgedUploads(r, t, owner, seen)
    ensures PurgedDownloads(r, PurgeOne(H, t, owner, id), owner, seen + {id})
    ensures PurgedUploads(r, PurgeOne(H, t, owner, id), owner, seen + {id})
  {
    PurgeOneDownload(r, t, owner, seen, id);
    PurgeOneUpload(H, r, PurgeDownload(t, owner, id), owner, seen, id);
  }

  // Just after the purge every remaining download and registered upload belongs
  // to the new owner, kept ones are unchanged, and every upload that was taken
  // out is marked cancelled.
  lemma HostSwitchLeavesOnlyOwner(H: Hash, r: Registry, owner: Owner, ids: seq<Id>)
    requires forall id :: id in r.downloads || id in r.uploads ==> id in ids
    ensures
      var t := PurgeAll(H, r, owner, ids);
      && (forall id :: id in t.downloads ==> t.downloads[id].owner == owner)
      && (forall id :: id in r.downloads && r.downloads[id].owner == owner ==>
                         id in t.downloads && t.downloads[id] == r.downloads[id])
      && (forall id :: id in t.uploads && t.uploads[id].registered ==> t.uploads[id].owner == owner)
      && t.uploads.Keys == r.uploads.Keys
      && (forall id :: id in r.uploads && r.uploads[id].registered && r.uploads[id].owner != owner ==>
                         t.uploads[id].cancelled && !t.uploads[id].registered)
      && (forall id :: id in r.uploads && r.uploads[id].owner == owner ==> t.uploads[id] == r.uploads[id])
  {
    PurgeAllDoes(H, r, owner, ids);
  }

  // A download that a `FileDone` arm holds at that moment is not in the registry,
  // so the purge passes it by. It comes back for the old owner exactly when its
  // verification fails with restarts left.
  lemma HandReturnsIff(H: Hash, s: State, owner: Owner, ids: seq<Id>, gen: nat, io: FinishIo)
    requires forall id :: id in s.reg.downloads || id in s.reg.uploads ==> id in ids
    ensures
      var purged := With(s, PurgeAll(H, s.reg, owner, ids));
      var t := Step(H, purged, Finish(gen, io)).reg;
      && purged.reg.hands == s.reg.hands
      && ((exists id :: id in t.downloads && t.downloads[id].owner != owner) <==>
            gen in s.reg.hands && s.reg.hands[gen].download.owner != owner && Restarts(H, s.reg.hands[gen]))
  {
    HostSwitchLeavesOnlyOwner(H, s.reg, owner, ids);
    PurgeKeepsHands(H, s.reg, owner, ids);
    var purged := With(s, PurgeAll(H, s.reg, owner, ids));
    var t := Step(H, purged, Finish(gen, io)).reg;
    if gen in s.reg.hands && Restarts(H, s.reg.hands[gen]) {
      var id := s.reg.hands[gen].id;
      assert t.downloads == purged.reg.downloads[id := Restart(s.reg.hands[gen].download, io.setLenOk, io.seekOk)];
      assert id in t.downloads && t.downloads[id].owner == s.reg.hands[gen].download.owner;
    } else {
      assert t.downloads == purged.reg.downloads;
    }
  }

  lemma {:induction false} PurgeKeepsHands(H: Hash, r: Registry, owner: Owner, ids: seq<Id>)
    ensures PurgeAll(H, r, owner, ids).hands == r.hands
  {
    if ids != [] {
      PurgeKeepsHands(H, r, owner, ids[..|ids| - 1]);
    }
  }

  // ---- And afterwards ----

  ghost predicate OnlyOf(owner: Owner, r: Registry) {
    forall id :: id in r.downloads ==> r.downloads[id].owner == owner
  }

  // A step that registers a download of another pairing: a `FileDone` arm restarts
  // one it holds, or a command that saw the old link inserts a new one.
  predicate Brings(H: Hash, owner: Owner, s: State, e: Event) {
    || (&& e.Finish? && e.gen in s.reg.hands && s.reg.hands[e.gen].download.owner != owner
        && Restarts(H, s.reg.hands[e.gen]))
    || (&& e.Command? && e.order.InsertDownload? && e.order.owner != owner
        && e.cmd in s.reg.reserved && s.reg.nextId < PROBE_ID_BIT)
  }

  lemma ChunkKeepsOwners(s: State, link: Link, id: Id, seqNo: nat, bytes: Bytes, writeOk: bool, owner: Owner)
    requires OnlyOf(owner, s.reg)
    ensures OnlyOf(owner, OnChunk(s, link, id, seqNo, bytes, writeOk).reg)
  {
  }

  lemma ErrKeepsOwners(H: Hash, r: Registry, link: Link, id: Id, owner: Owner)
    requires OnlyOf(owner, r)
    ensures OnlyOf(owner, OnErr(H, r, link, id))
  {
    assert OnlyOf(owner, Forget(r, id));
  }

  lemma FrameKeepsOwners(H: Hash, s: State, link: Link, frame: Frame, writeOk: bool, owner: Owner)
    requires OnlyOf(owner, s.reg)
    ensures OnlyOf(owner, OnFrame(H, s, link, frame, writeOk).reg)
  {
    match frame
    case FileChunk(id, seqNo, bytes) => ChunkKeepsOwners(s, link, id, seqNo, bytes, writeOk, owner);
    case FileDone(id, size, checksum) =>
    case FileRetry(id, fromSeq) =>
    case FileErr(id) => ErrKeepsOwners(H, s.reg, link, id, owner);
    case FileGetReq(_, _, _, _) =>
  }

  lemma FinishKeepsOwnersIff(H: Hash, s: State, gen: nat, io: FinishIo, owner: Owner)
    requires OnlyOf(owner, s.reg)
    ensures OnlyOf(owner, FinishDone(H, s, gen, io).reg) <==> !Brings(H, owner, s, Finish(gen, io))
  {
    if gen in s.reg.hands && Restarts(H, s.reg.hands[gen]) {
      var id, t := s.reg.hands[gen].id, FinishDone(H, s, gen, io).reg;
      assert id in t.downloads && t.downloads[id].owner == s.reg.hands[gen].download.owner;
    }
  }

  lemma OrderKeepsOwnersIff(H: Hash, s: State, cmd: nat, order: Order, owner: Owner)
    requires OnlyOf(owner, s.reg)
    ensures OnlyOf(owner, OnOrder(s.reg, cmd, order)) <==> !Brings(H, owner, s, Command(cmd, order))
  {
    if order.InsertDownload? && cmd in s.reg.reserved && s.reg.nextId < PROBE_ID_BIT {
      assert s.reg.nextId in OnOrder(s.reg, cmd, order).downloads;
    }
  }

  // These are the only two.
  lemma StepKeepsOwnersIff(H: Hash, s: State, e: Event, owner: Owner)
    requires OnlyOf(owner, s.reg)
    ensures OnlyOf(owner, Step(H, s, e).reg) <==> !Brings(H, owner, s, e)
  {
    match e
    case Recv(link, frame, writeOk) => FrameKeepsOwners(H, s, link, frame, writeOk, owner);
    case Finish(gen, io) => FinishKeepsOwnersIff(H, s, gen, io, owner);
    case Command(cmd, order) => OrderKeepsOwnersIff(H, s, cmd, order, owner);
    case Purge(other, id) => assert OnlyOf(owner, PurgeDownload(s.reg, other, id));
    case _ => assert Step(H, s, e).reg.downloads == s.reg.downloads;
  }

  ghost predicate AlwaysOnlyOf(H: Hash, owner: Owner, s: State, es: seq<Event>) {
    forall n :: 0 <= n <= |es| ==> OnlyOf(owner, Run(H, s, es[..n]).reg)
  }

  ghost predicate NoneBrings(H: Hash, owner: Owner, s: State, es: seq<Event>) {
    es == [] || (&& NoneBrings(H, owner, s, es[..|es| - 1])
                 && !Brings(H, owner, Run(H, s, es[..|es| - 1]), es[|es| - 1]))
  }

  lemma AlwaysOnlyMore(H: Hash, owner: Owner, s: State, es: seq<Event>, e: Event)
    ensures AlwaysOnlyOf(H, owner, s, es + [e]) <==>
            AlwaysOnlyOf(H, owner, s, es) && OnlyOf(owner, Run(H, s, es + [e]).reg)
  {
    var all := es + [e];
    assert all[..|all|] == all && forall n :: 0 <= n <= |es| ==> es[..n] == all[..n];
  }

  lemma AlwaysOnlyNow(H: Hash, owner: Owner, s: State, es: seq<Event>)
    requires AlwaysOnlyOf(H, owner, s, es)
    ensures OnlyOf(owner, Run(H, s, es).reg)
  {
    assert es[..|es|] == es;
  }

  lemma BringsMore(H: Hash, owner: Owner, s: State, es: seq<Event>, e: Event)
    requires AlwaysOnlyOf(H, owner, s, es) <==> NoneBrings(H, owner, s, es)
    ensures AlwaysOnlyOf(H, owner, s, es + [e]) <==>
            NoneBrings(H, owner, s, es) && !Brings(H, owner, Run(H, s, es), e)
  {
    AlwaysOnlyMore(H, owner, s, es, e);
    RunSnoc(H, s, es, e);
    if AlwaysOnlyOf(H, owner, s, es) {
      AlwaysOnlyNow(H, owner, s, es);
      StepKeepsOwnersIff(H, Run(H, s, es), e, owner);
    }
  }

  lemma {:induction false} OwnersStayIff(H: Hash, owner: Owner, s: State, es: seq<Event>)
    requires OnlyOf(owner, s.reg)
    ensures AlwaysOnlyOf(H, owner, s, es) <==> NoneBrings(H, owner, s, es)
  {
    if es != [] {
      var front, e := es[..|es| - 1], es[|es| - 1];
      assert es == front + [e];
      OwnersStayIff(H, owner, s, front);
      BringsMore(H, owner, s, front, e);
    }
  }

  // After a host switch, over any run: the registry holds downloads of the new
  // owner only, at every moment, exactly when neither of the two happens.
  lemma SwitchLastsIff(H: Hash, s: State, owner: Owner, ids: seq<Id>, es: seq<Event>)
    requires forall id :: id in s.reg.downloads || id in s.reg.uploads ==> id in ids
    ensures
      var purged := With(s, PurgeAll(H, s.reg, owner, ids));
      AlwaysOnlyOf(H, owner, purged, es) <==> NoneBrings(H, owner, purged, es)
  {
    HostSwitchLeavesOnlyOwner(H, s.reg, owner, ids);
    OwnersStayIff(H, owner, With(s, PurgeAll(H, s.reg, owner, ids)), es);
  }

  // ---- No byte of an upload goes to another host ----

  ghost predicate AllToOwner(r: Registry) {
    forall id :: id in r.uploads ==> UploadRuns.ToOwner(r.uploads[id])
  }

  lemma UploadKeepsToOwner(H: Hash, r: Registry, id: Id, e: UploadRuns.Event)
    requires AllToOwner(r)
    ensures AllToOwner(OnUpload(H, r, id, e))
  {
    if id in r.uploads {
      UploadRuns.ApplyKeepsToOwner(H, r.uploads[id], e);
    }
  }

  lemma FrameKeepsToOwner(H: Hash, s: State, link: Link, frame: Frame, writeOk: bool)
    requires AllToOwner(s.reg)
    ensures AllToOwner(OnFrame(H, s, link, frame, writeOk).reg)
  {
    var r := s.reg;
    match frame
    case FileChunk(id, seqNo, bytes) => assert OnFrame(H, s, link, frame, writeOk).reg.uploads == r.uploads;
    case FileDone(id, size, checksum) => UploadKeepsToOwner(H, r, id, UploadRuns.Completed);
    case FileRetry(id, fromSeq) => UploadKeepsToOwner(H, r, id, UploadRuns.Retry(fromSeq, link));
    case FileErr(id) => ErrKeepsToOwner(H, r, link, id);
    case FileGetReq(_, _, _, _) =>
  }

  lemma ErrKeepsToOwner(H: Hash, r: Registry, link: Link, id: Id)
    requires AllToOwner(r)
    ensures AllToOwner(OnErr(H, r, link, id))
  {
    UploadKeepsToOwner(H, r, id, UploadRuns.Rejected);
    UploadKeepsToOwner(H, Forget(r, id), id, UploadRuns.Rejected);
  }

  lemma StepKeepsToOwner(H: Hash, s: State, e: Event)
    requires AllToOwner(s.reg)
    ensures AllToOwner(Step(H, s, e).reg)
  {
    match e
    case Recv(link, frame, writeOk) => FrameKeepsToOwner(H, s, link, frame, writeOk);
    case Purge(owner, id) => PurgeKeepsToOwner(H, s.reg, owner, id);
    case StepUpload(id, step) => UploadKeepsToOwner(H, s.reg, id, step);
    case Command(cmd, order) => OrderKeepsToOwner(s.reg, cmd, order);
    case Finish(gen, io) => assert Step(H, s, e).reg.uploads == s.reg.uploads;
    case Resume(link, id) => assert Step(H, s, e).reg.uploads == s.reg.uploads;
    case EndCopy(id, world) => assert Step(H, s, e).reg.uploads == s.reg.uploads;
  }

  lemma PurgeKeepsToOwner(H: Hash, r: Registry, owner: Owner, id: Id)
    requires AllToOwner(r)
    ensures AllToOwner(PurgeUpload(H, PurgeDownload(r, owner, id), owner, id))
  {
    UploadKeepsToOwner(H, PurgeDownload(r, owner, id), id, UploadRuns.Rejected);
  }

  lemma OrderKeepsToOwner(r: Registry, cmd: nat, order: Order)
    requires AllToOwner(r)
    ensures AllToOwner(OnOrder(r, cmd, order))
  {
    if order.InsertUpload? {
      assert UploadRuns.ToOwner(Uploads.Opened(order.owner, order.content));
    }
  }

  // Over every run, through every host switch, each frame an upload ever sent
  // went out on a link of the pairing it was started for.
  lemma FramesGoToOwner(H: Hash, es: seq<Event>, id: Id, k: nat)
    requires id in Run(H, INIT, es).reg.uploads && k < |Run(H, INIT, es).reg.uploads[id].sent|
    ensures
      var u := Run(H, INIT, es).reg.uploads[id];
      u.sent[k].via.owner == u.owner
  {
    RunToOwner(H, es);
    assert UploadRuns.ToOwner(Run(H, INIT, es).reg.uploads[id]);
  }

  lemma {:induction false} RunToOwner(H: Hash, es: seq<Event>)
    ensures AllToOwner(Run(H, INIT, es).reg)
  {
    if es != [] {
      RunToOwner(H, es[..|es| - 1]);
      StepKeepsToOwner(H, Run(H, INIT, es[..|es| - 1]), es[|es| - 1]);
    }
  }
}
