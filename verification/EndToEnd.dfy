// A download from a peer that serves one fixed file: whatever the links lose,
// repeat or reorder, however often they drop and resume, and whatever the disk
// refuses, the length of what is installed tells whether it is that file.
module EndToEnd {
  import opened Bytes
  import opened Downloads
  import UploadRuns
  import opened Transfers
  import opened TransferSafety
  import opened Receiver
  import Commit

  // Which transfer, what the user asked for, and the file that is served.
  datatype Job = Job(id: Id, owner: Owner, path: string, allowOutsideHome: bool, target: Target, file: Bytes)

  // The transfer that the next insert starts.
  function JobOf(s: State, order: Order, file: Bytes): Job
    requires order.InsertDownload?
  {
    Job(s.reg.nextId, order.owner, order.path, order.allowOutsideHome, order.target, file)
  }

  // A download is still what the user asked for: from that host and path, with
  // that permission, into that target.
  predicate Ordered(job: Job, d: Download) {
    && d.owner == job.owner && d.remotePath == job.path
    && d.allowOutsideHome == job.allowOutsideHome && d.target == job.target
  }

  // Frames about the job on the owner's links carry the file's own chunks and
  // its own size and digest, in any order and any number of times. Other frames,
  // and other hosts' frames about the same id, are arbitrary.
  predicate Honest(H: Hash, job: Job, e: Event) {
    e.Recv? && e.link.owner == job.owner ==>
      match e.frame
      case FileChunk(id, seqNo, bytes) =>
        id == job.id ==> seqNo < ChunkCount(job.file) && bytes == ChunkAt(job.file, seqNo)
      case FileDone(id, size, checksum) =>
        id == job.id ==> size == |job.file| && checksum == H(job.file)
      case _ => true
  }

  // A copy of the job into a document reads the job's own staging file, which
  // lies in the app's private cache.
  predicate ReadsStaging(job: Job, s: State, e: Event) {
    e.EndCopy? && e.id == job.id && e.id in s.reg.copies && Commit.Delivered(e.world.reading).Some? ==>
      Commit.Delivered(e.world.reading).value == s.reg.copies[e.id].content
  }

  ghost predicate HonestRun(H: Hash, job: Job, s: State, es: seq<Event>) {
    es == [] || (&& HonestRun(H, job, s, es[..|es| - 1])
                 && Honest(H, job, es[|es| - 1]) && ReadsStaging(job, Run(H, s, es[..|es| - 1]), es[|es| - 1]))
  }

  ghost predicate ServedHand(H: Hash, job: Job, hand: Hand) {
    && Ordered(job, hand.download) && Carries(job.file, hand.download)
    && hand.size == |job.file| && hand.checksum == H(job.file)
  }

  // A staged file of the served file's length is the served file.
  predicate ToldByLength(file: Bytes, content: Bytes) {
    content == file <==> |content| == |file|
  }

  ghost predicate ServedCopy(H: Hash, job: Job, c: Copy) {
    && c.target.Document? && c.target == job.target && c.owner == job.owner
    && ToldByLength(job.file, c.content) && c.size == |job.file| && c.checksum == H(job.file)
  }

  ghost predicate Served(H: Hash, job: Job, r: Registry) {
    && job.id < r.nextId
    && (job.id in r.downloads ==> Ordered(job, r.downloads[job.id]) && Carries(job.file, r.downloads[job.id]))
    && (forall g :: g in r.hands && r.hands[g].id == job.id ==> ServedHand(H, job, r.hands[g]))
    && (job.id in r.copies ==> ServedCopy(H, job, r.copies[job.id]))
  }

  // What is installed for the job is at the target the user chose. By a rename it
  // is the file exactly when it has the file's length; a document reported complete
  // is the file.
  predicate JobInstall(job: Job, i: Install) {
    && i.size == |job.file| && i.target == job.target
    && if i.target.Path? then ToldByLength(job.file, i.content) else i.reported ==> i.content == job.file
  }

  ghost predicate InstalledTold(job: Job, s: State) {
    forall k :: 0 <= k < |s.installs| && s.installs[k].id == job.id ==> JobInstall(job, s.installs[k])
  }

  lemma SameServed(H: Hash, job: Job, r: Registry, t: Registry)
    requires Served(H, job, r) && r.nextId <= t.nextId
    requires job.id in t.downloads ==> job.id in r.downloads && t.downloads[job.id] == r.downloads[job.id]
    requires forall g :: g in t.hands ==> g in r.hands && t.hands[g] == r.hands[g]
    requires job.id in t.copies ==> job.id in r.copies && t.copies[job.id] == r.copies[job.id]
    ensures Served(H, job, t)
  {
  }

  lemma PutServed(H: Hash, job: Job, r: Registry, id: Id, d: Download)
    requires Served(H, job, r)
    requires id == job.id ==> Ordered(job, d) && Carries(job.file, d)
    ensures Served(H, job, Put(r, id, d))
  {
  }

  lemma ChunkServed(H: Hash, job: Job, s: State, link: Link, id: Id, seqNo: nat, bytes: Bytes, writeOk: bool)
    requires Served(H, job, s.reg) && Honest(H, job, Recv(link, FileChunk(id, seqNo, bytes), writeOk))
    ensures Served(H, job, OnChunk(s, link, id, seqNo, bytes, writeOk).reg)
  {
    SameServed(H, job, s.reg, Forget(s.reg, id));
    if Owned(s.reg, link, id) && seqNo == s.reg.downloads[id].nextSeq {
      AcceptServed(H, job, s.reg, id, bytes);
    }
  }

  lemma AcceptServed(H: Hash, job: Job, r: Registry, id: Id, bytes: Bytes)
    requires Served(H, job, r) && id in r.downloads
    requires
      var k := r.downloads[id].nextSeq;
      id == job.id && r.downloads[id].owner == job.owner ==> k < ChunkCount(job.file) && bytes == ChunkAt(job.file, k)
    ensures Served(H, job, Put(r, id, Accept(r.downloads[id], bytes)))
  {
    if id == job.id {
      AcceptKeepsCarries(job.file, r.downloads[id]);
    }
    PutServed(H, job, r, id, Accept(r.downloads[id], bytes));
  }

  lemma DoneServed(H: Hash, job: Job, r: Registry, link: Link, id: Id, size: nat, checksum: Digest)
    requires Served(H, job, r) && Honest(H, job, Recv(link, FileDone(id, size, checksum), true))
    ensures Served(H, job, OnDone(H, r, link, id, size, checksum))
  {
    if Owned(r, link, id) {
      var t := Take(r, link.gen, id, size, checksum);
      forall g | g in t.hands && t.hands[g].id == job.id ensures ServedHand(H, job, t.hands[g]) {
        if g != link.gen {
          assert t.hands[g] == r.hands[g];
        }
      }
    } else {
      SameServed(H, job, r, OnUpload(H, r, id, UploadRuns.Completed));
    }
  }

  lemma ErrServed(H: Hash, job: Job, r: Registry, link: Link, id: Id)
    requires Served(H, job, r)
    ensures Served(H, job, OnErr(H, r, link, id))
  {
    var t := if Owned(r, link, id) then Forget(r, id) else r;
    SameServed(H, job, r, t);
    SameServed(H, job, t, OnUpload(H, t, id, UploadRuns.Rejected));
  }

  lemma FrameServed(H: Hash, job: Job, s: State, link: Link, frame: Frame, writeOk: bool)
    requires Served(H, job, s.reg) && Honest(H, job, Recv(link, frame, writeOk))
    ensures Served(H, job, OnFrame(H, s, link, frame, writeOk).reg)
  {
    if !frame.FileRetry? && IsProbe(frame.id) {
      SameServed(H, job, s.reg, OnProbe(s, link, frame.id, frame.FileChunk?).reg);
    } else {
      match frame
      case FileChunk(id, seqNo, bytes) => ChunkServed(H, job, s, link, id, seqNo, bytes, writeOk);
      case FileDone(id, size, checksum) => DoneServed(H, job, s.reg, link, id, size, checksum);
      case FileRetry(id, fromSeq) => SameServed(H, job, s.reg, OnRetry(H, s.reg, link, id, fromSeq));
      case FileErr(id) => ErrServed(H, job, s.reg, link, id);
      case FileGetReq(_, _, _, _) =>
    }
  }

  lemma HandsServed(H: Hash, job: Job, r: Registry, gen: nat, d: Download, c: Copy)
    requires Served(H, job, r) && gen in r.hands
    ensures Served(H, job, DropHand(r, gen))
    ensures (r.hands[gen].id == job.id ==> Ordered(job, d) && Carries(job.file, d)) ==>
      Served(H, job, GiveBack(r, gen, d))
    ensures (r.hands[gen].id == job.id ==> ServedCopy(H, job, c)) ==> Served(H, job, StartCopy(r, gen, c))
  {
    SameServed(H, job, r, DropHand(r, gen));
    SameServed(H, job, r, r.(hands := r.hands - {gen}));
    if r.hands[gen].id == job.id ==> Ordered(job, d) && Carries(job.file, d) {
      PutServed(H, job, r.(hands := r.hands - {gen}), r.hands[gen].id, d);
    }
  }

  // A restart, however it went, leaves the download carrying the file.
  lemma FinishServed(H: Hash, job: Job, s: State, gen: nat, io: FinishIo)
    requires Served(H, job, s.reg)
    ensures Served(H, job, FinishDone(H, s, gen, io).reg)
  {
    if gen in s.reg.hands {
      var hand := s.reg.hands[gen];
      var d := hand.download;
      RestartKeepsCarries(job.file, d, io.setLenOk, io.seekOk);
      if hand.id == job.id {
        assert ServedHand(H, job, hand);
        CarriesVerifies(H, job.file, d);
      }
      HandsServed(H, job, s.reg, gen, Restart(d, io.setLenOk, io.seekOk),
                  Copy(d.owner, d.target, d.file.content, hand.size, hand.checksum));
    }
  }

  lemma PurgeServed(H: Hash, job: Job, r: Registry, owner: Owner, id: Id)
    requires Served(H, job, r)
    ensures Served(H, job, PurgeUpload(H, PurgeDownload(r, owner, id), owner, id))
  {
    var t := PurgeDownload(r, owner, id);
    SameServed(H, job, r, t);
    SameServed(H, job, t, PurgeUpload(H, t, owner, id));
  }

  lemma StepServed(H: Hash, job: Job, s: State, e: Event)
    requires Served(H, job, s.reg) && Honest(H, job, e)
    ensures Served(H, job, Step(H, s, e).reg)
  {
    match e
    case Recv(link, frame, writeOk) => FrameServed(H, job, s, link, frame, writeOk);
    case Finish(gen, io) => FinishServed(H, job, s, gen, io);
    case Purge(owner, id) => PurgeServed(H, job, s.reg, owner, id);
    case Resume(link, id) =>
    case StepUpload(id, step) => SameServed(H, job, s.reg, OnUpload(H, s.reg, id, step));
    case EndCopy(id, world) => SameServed(H, job, s.reg, DropCopy(s.reg, id));
    case Command(cmd, order) => SameServed(H, job, s.reg, OnOrder(s.reg, cmd, order));
  }

  lemma InstallIsTold(H: Hash, job: Job, s: State, e: Event, i: Install)
    requires Served(H, job, s.reg) && ReadsStaging(job, s, e) && MayInstall(H, s, e, i) && i.id == job.id
    ensures JobInstall(job, i)
  {
    if e.EndCopy? {
      assert ServedCopy(H, job, s.reg.copies[job.id]);
      Commit.CopiesIff(H, e.world, i.size, i.checksum, []);
    } else {
      assert ServedHand(H, job, s.reg.hands[e.gen]);
      CarriesVerifies(H, job.file, s.reg.hands[e.gen].download);
    }
  }

  // The bytes just before the cursor are always the first next_seq chunks of the
  // file, and for whatever is installed its length tells whether it is the file -
  // with no assumption about the hash, the disk or the restarts.
  lemma {:induction false} DownloadIsTheFile(H: Hash, job: Job, s: State, es: seq<Event>)
    requires Served(H, job, s.reg) && InstalledTold(job, s) && HonestRun(H, job, s, es)
    ensures Served(H, job, Run(H, s, es).reg) && InstalledTold(job, Run(H, s, es))
  {
    if es != [] {
      var e, t := es[|es| - 1], Run(H, s, es[..|es| - 1]);
      DownloadIsTheFile(H, job, s, es[..|es| - 1]);
      StepServed(H, job, t, e);
      StepInstalls(H, t, e);
      if |Run(H, s, es).installs| > |t.installs| && Run(H, s, es).installs[|t.installs|].id == job.id {
        InstallIsTold(H, job, t, e, Run(H, s, es).installs[|t.installs|]);
      }
    }
  }

  // ---- From start-up ----

  // What was installed so far belongs to ids handed out so far.
  ghost predicate InstallIdsOk(s: State) {
    forall k :: 0 <= k < |s.installs| ==> s.installs[k].id < s.reg.nextId
  }

  lemma FrameKeepsNextId(H: Hash, s: State, link: Link, frame: Frame, writeOk: bool)
    ensures OnFrame(H, s, link, frame, writeOk).reg.nextId == s.reg.nextId
  {
  }

  lemma StepKeepsIds(H: Hash, s: State, e: Event)
    requires IdsOk(s.reg) && InstallIdsOk(s)
    ensures InstallIdsOk(Step(H, s, e))
  {
    StepInstalls(H, s, e);
    if e.Recv? {
      FrameKeepsNextId(H, s, e.link, e.frame, e.writeOk);
    }
    assert Step(H, s, e).reg.nextId >= s.reg.nextId;
  }

  lemma {:induction false} InstalledIdsAreOld(H: Hash, es: seq<Event>)
    ensures InstallIdsOk(Run(H, INIT, es))
  {
    if es != [] {
      InstalledIdsAreOld(H, es[..|es| - 1]);
      RunIsSafe(H, es[..|es| - 1]);
      StepKeepsIds(H, Run(H, INIT, es[..|es| - 1]), es[|es| - 1]);
    }
  }

  // A download that `download_file` has just registered is served, whatever the
  // file, and nothing is installed under its id yet.
  lemma NewDownloadIsServed(H: Hash, es: seq<Event>, cmd: nat, order: Order, file: Bytes)
    requires
      var r := Run(H, INIT, es).reg;
      order.InsertDownload? && cmd in r.reserved && r.nextId < PROBE_ID_BIT
    ensures
      var s := Run(H, INIT, es);
      var job, t := JobOf(s, order, file), Step(H, s, Command(cmd, order));
      Served(H, job, t.reg) && InstalledTold(job, t) && job.id in t.reg.downloads
  {
    RunIsSafe(H, es);
    InstalledIdsAreOld(H, es);
    InsertedIsServed(H, Run(H, INIT, es), cmd, order, file);
  }

  lemma InsertedIsServed(H: Hash, s: State, cmd: nat, order: Order, file: Bytes)
    requires IdsOk(s.reg) && InstallIdsOk(s)
      && order.InsertDownload? && cmd in s.reg.reserved && s.reg.nextId < PROBE_ID_BIT
    ensures
      var job, t := JobOf(s, order, file), Step(H, s, Command(cmd, order));
      Served(H, job, t.reg) && InstalledTold(job, t) && job.id in t.reg.downloads
  {
    ChunksTile(file, 0);
    assert Carries(file, Fresh(order.owner, order.path, order.allowOutsideHome, order.target));
    assert forall g :: g in s.reg.hands ==> s.reg.hands[g].id < s.reg.nextId;
  }

  // The whole story: the app starts, anything happens, a download is started,
  // and from then on its own host serves one file while everything else, on every
  // link and on the disk, is arbitrary.
  lemma EveryDownloadIsTold(H: Hash, before: seq<Event>, cmd: nat, order: Order, file: Bytes, after: seq<Event>)
    requires
      var s := Run(H, INIT, before);
      && order.InsertDownload? && cmd in s.reg.reserved && s.reg.nextId < PROBE_ID_BIT
      && HonestRun(H, JobOf(s, order, file), Step(H, s, Command(cmd, order)), after)
    ensures
      var s := Run(H, INIT, before);
      var job, t := JobOf(s, order, file), Run(H, Step(H, s, Command(cmd, order)), after);
      && InstalledTold(job, t)
      && (job.id in t.reg.downloads ==>
            var d := t.reg.downloads[job.id];
            && Ordered(job, d) && d.written == |Prefix(file, d.nextSeq)| <= d.file.pos
            && (d.written > 0 ==>
                  d.file.pos <= |d.file.content|
                  && d.file.content[d.file.pos - d.written..d.file.pos] == Prefix(file, d.nextSeq)))
  {
    var s := Run(H, INIT, before);
    NewDownloadIsServed(H, before, cmd, order, file);
    DownloadIsTheFile(H, JobOf(s, order, file), Step(H, s, Command(cmd, order)), after);
  }

  // ---- When no restart of this download fails ----

  ghost function SoundFor(id: Id): (Id, Download) -> bool {
    (x, d) => x == id ==> Sound(d)
  }

  // The job's restart, if e makes one, was clean. Other transfers do not matter.
  predicate JobClean(H: Hash, job: Job, s: State, e: Event) {
    e.Finish? && e.gen in s.reg.hands && s.reg.hands[e.gen].id == job.id ==> Clean(H, s, e)
  }

  ghost predicate JobCleanRun(H: Hash, job: Job, s: State, es: seq<Event>) {
    es == [] || (JobCleanRun(H, job, s, es[..|es| - 1]) && JobClean(H, job, Run(H, s, es[..|es| - 1]), es[|es| - 1]))
  }

  ghost predicate JobSound(job: Job, r: Registry) {
    Every(r, SoundFor(job.id)) && (job.id in r.copies ==> |r.copies[job.id].content| == r.copies[job.id].size)
  }

  lemma SoundForGrows(id: Id)
    ensures Grows(SoundFor(id))
  {
    forall x: Id, d, bytes | SoundFor(id)(x, d) ensures SoundFor(id)(x, Accept(d, bytes)) {
      if x == id {
        AcceptKeepsSound(d, bytes);
      }
    }
  }

  // A step keeps the job's bookkeeping true exactly when its restart was clean.
  lemma JobSoundStepIff(H: Hash, job: Job, s: State, e: Event)
    requires Every(s.reg, SoundFor(job.id))
    ensures Every(Step(H, s, e).reg, SoundFor(job.id)) <==> JobClean(H, job, s, e)
  {
    SoundForGrows(job.id);
    StepKeepsEveryIff(H, s, e, SoundFor(job.id));
    if e.Finish? && e.gen in s.reg.hands && s.reg.hands[e.gen].id == job.id {
      assert SoundFor(job.id)(s.reg.hands[e.gen].id, s.reg.hands[e.gen].download);
      RestartKeepsSoundIff(s.reg.hands[e.gen].download, e.io.setLenOk, e.io.seekOk);
    }
  }

  lemma JobCopyStep(H: Hash, job: Job, s: State, e: Event)
    requires JobSound(job, s.reg)
    ensures
      var t := Step(H, s, e).reg;
      job.id in t.copies ==> |t.copies[job.id].content| == t.copies[job.id].size
  {
    if e.Finish? {
      if e.gen in s.reg.hands && s.reg.hands[e.gen].id == job.id {
        assert SoundFor(job.id)(s.reg.hands[e.gen].id, s.reg.hands[e.gen].download);
      }
    } else if e.EndCopy? {
      assert job.id in DropCopy(s.reg, e.id).copies ==> job.id in s.reg.copies;
    } else {
      assert Step(H, s, e).reg.copies == s.reg.copies;
    }
  }

  // Whatever is put in place for the job, or reported as complete, is the file.
  ghost predicate InstalledIs(job: Job, s: State) {
    forall k :: 0 <= k < |s.installs| && s.installs[k].id == job.id ==>
      (s.installs[k].target.Path? || s.installs[k].reported ==> s.installs[k].content == job.file)
  }

  lemma SoundInstallIsTheFile(H: Hash, job: Job, s: State, e: Event, i: Install)
    requires Served(H, job, s.reg) && JobSound(job, s.reg) && ReadsStaging(job, s, e)
    requires MayInstall(H, s, e, i) && i.id == job.id
    ensures i.target.Path? || i.reported ==> i.content == job.file
  {
    InstallIsTold(H, job, s, e, i);
    if e.Finish? {
      assert SoundFor(job.id)(s.reg.hands[e.gen].id, s.reg.hands[e.gen].download);
    } else {
      assert ServedCopy(H, job, s.reg.copies[job.id]);
    }
  }

  lemma SoundStepInstalls(H: Hash, job: Job, s: State, e: Event)
    requires Served(H, job, s.reg) && JobSound(job, s.reg) && ReadsStaging(job, s, e) && InstalledIs(job, s)
    ensures InstalledIs(job, Step(H, s, e))
  {
    StepInstalls(H, s, e);
    var t := Step(H, s, e);
    if |t.installs| > |s.installs| && t.installs[|s.installs|].id == job.id {
      SoundInstallIsTheFile(H, job, s, e, t.installs[|s.installs|]);
    }
  }

  lemma {:induction false} CleanJobIsTheFile(H: Hash, job: Job, s: State, es: seq<Event>)
    requires Served(H, job, s.reg) && InstalledTold(job, s) && JobSound(job, s.reg) && InstalledIs(job, s)
    requires HonestRun(H, job, s, es) && JobCleanRun(H, job, s, es)
    ensures JobSound(job, Run(H, s, es).reg) && InstalledIs(job, Run(H, s, es))
  {
    if es != [] {
      var front, e := es[..|es| - 1], es[|es| - 1];
      var t := Run(H, s, front);
      CleanJobIsTheFile(H, job, s, front);
      DownloadIsTheFile(H, job, s, front);
      JobSoundStepIff(H, job, t, e);
      JobCopyStep(H, job, t, e);
      SoundStepInstalls(H, job, t, e);
    }
  }

  // From start-up, anything, a download is started, and from then on its own host
  // serves one file and its own restarts truncate and rewind: whatever else
  // happens, also to other downloads, what is installed is the file.
  lemma EveryCleanDownloadIsTheFile(H: Hash, before: seq<Event>, cmd: nat, order: Order, file: Bytes, after: seq<Event>)
    requires order.InsertDownload?
    requires
      var s := Run(H, INIT, before);
      var job, t := JobOf(s, order, file), Step(H, s, Command(cmd, order));
      && cmd in s.reg.reserved && s.reg.nextId < PROBE_ID_BIT
      && HonestRun(H, job, t, after) && JobCleanRun(H, job, t, after)
    ensures
      var s := Run(H, INIT, before);
      InstalledIs(JobOf(s, order, file), Run(H, Step(H, s, Command(cmd, order)), after))
  {
    var s := Run(H, INIT, before);
    var job, t := JobOf(s, order, file), Step(H, s, Command(cmd, order));
    NewDownloadIsServed(H, before, cmd, order, file);
    NewDownloadIsSound(H, before, cmd, order, file);
    CleanJobIsTheFile(H, job, t, after);
  }

  lemma NewDownloadIsSound(H: Hash, es: seq<Event>, cmd: nat, order: Order, file: Bytes)
    requires
      var r := Run(H, INIT, es).reg;
      order.InsertDownload? && cmd in r.reserved && r.nextId < PROBE_ID_BIT
    ensures
      var s := Run(H, INIT, es);
      var job, t := JobOf(s, order, file), Step(H, s, Command(cmd, order));
      JobSound(job, t.reg) && InstalledIs(job, t)
  {
    InstalledIdsAreOld(H, es);
    RunIsSafe(H, es);
    NewJobIsSound(H, Run(H, INIT, es), cmd, order, file);
  }

  lemma NewJobIsSound(H: Hash, s: State, cmd: nat, order: Order, file: Bytes)
    requires IdsOk(s.reg) && InstallIdsOk(s)
      && order.InsertDownload? && cmd in s.reg.reserved && s.reg.nextId < PROBE_ID_BIT
    ensures
      var job, t := JobOf(s, order, file), Step(H, s, Command(cmd, order));
      JobSound(job, t.reg) && InstalledIs(job, t)
  {
    assert forall g :: g in s.reg.hands ==> s.reg.hands[g].id < s.reg.nextId;
    assert Sound(Fresh(order.owner, order.path, order.allowOutsideHome, order.target));
  }

  // ---- A resumed pass completes ----

  function ChunkEvent(link: Link, id: Id, file: Bytes, k: nat): Event {
    Recv(link, FileChunk(id, k, ChunkAt(file, k)), true)
  }

  function ChunkEvents(link: Link, id: Id, file: Bytes, from: nat, n: nat): (es: seq<Event>)
    ensures |es| == n && forall k :: 0 <= k < n ==> es[k] == ChunkEvent(link, id, file, from + k)
  {
    seq(n, k requires 0 <= k < n => ChunkEvent(link, id, file, from + k))
  }

  // Room for the whole file next to every other download.
  ghost predicate Fits(r: Registry, id: Id, file: Bytes)
    requires id in r.downloads
  {
    && |file| <= MAX_DOWNLOAD_BYTES
    && Total(r.downloads) - r.downloads[id].written + |file| <= MAX_TOTAL_DOWNLOAD_BYTES
  }

  ghost predicate Ready(s: State, link: Link, id: Id, file: Bytes) {
    && id in s.reg.downloads && s.reg.downloads[id].owner == link.owner && Carries(file, s.reg.downloads[id])
    && link.gen !in s.reg.hands && !IsProbe(id) && Fits(s.reg, id, file)
  }

  // A download's own progress does not change what fits.
  lemma FitsStays(r: Registry, id: Id, file: Bytes, v: Download)
    requires id in r.downloads && Fits(r, id, file)
    ensures Fits(Put(r, id, v), id, file)
  {
    TotalUpdate(r.downloads, id, v);
  }

  lemma ChunkIsAccepted(H: Hash, s: State, link: Link, id: Id, file: Bytes)
    requires Ready(s, link, id, file) && s.reg.downloads[id].nextSeq < ChunkCount(file)
    ensures
      var d := s.reg.downloads[id];
      Step(H, s, ChunkEvent(link, id, file, d.nextSeq)) == With(s, Put(s.reg, id, Accept(d, ChunkAt(file, d.nextSeq))))
  {
    var d := s.reg.downloads[id];
    var bytes := ChunkAt(file, d.nextSeq);
    ChunksTile(file, d.nextSeq);
    assert |Prefix(file, d.nextSeq)| + |bytes| == |Prefix(file, d.nextSeq + 1)| <= |file|;
    assert !OverBudget(s.reg, id, bytes);
  }

  lemma PutTwice(s: State, id: Id, d: Download, v: Download)
    ensures With(With(s, Put(s.reg, id, d)), Put(Put(s.reg, id, d), id, v)) == With(s, Put(s.reg, id, v))
  {
    assert s.reg.downloads[id := d][id := v] == s.reg.downloads[id := v];
  }

  lemma PutSame(s: State, id: Id)
    requires id in s.reg.downloads
    ensures With(s, Put(s.reg, id, s.reg.downloads[id])) == s
  {
    assert s.reg.downloads[id := s.reg.downloads[id]] == s.reg.downloads;
  }

  // A run whose every step is known.
  lemma {:induction false} RunAlong(H: Hash, s: State, es: seq<Event>, f: nat -> State)
    requires f(0) == s && forall k: nat {:trigger es[k]} :: k < |es| ==> Step(H, f(k), es[k]) == f(k + 1)
    ensures Run(H, s, es) == f(|es|)
  {
    if es != [] {
      var k := |es| - 1;
      assert forall j :: 0 <= j < k ==> es[..k][j] == es[j];
      RunAlong(H, s, es[..k], f);
    }
  }

  // n more chunks of one download were accepted, and nothing else happened.
  function Advanced(s: State, id: Id, file: Bytes, n: nat): State
    requires id in s.reg.downloads
  {
    With(s, Put(s.reg, id, AcceptChunks(s.reg.downloads[id], file, n)))
  }

  lemma StaysReady(s: State, link: Link, id: Id, file: Bytes, n: nat)
    requires Ready(s, link, id, file) && s.reg.downloads[id].nextSeq + n <= ChunkCount(file)
    ensures Ready(Advanced(s, id, file, n), link, id, file)
  {
    var d := s.reg.downloads[id];
    AcceptedChunks(d, file, n);
    FitsStays(s.reg, id, file, AcceptChunks(d, file, n));
  }

  lemma NextChunk(H: Hash, s: State, link: Link, id: Id, file: Bytes, n: nat)
    requires Ready(s, link, id, file) && s.reg.downloads[id].nextSeq + n < ChunkCount(file)
    ensures Step(H, Advanced(s, id, file, n), ChunkEvent(link, id, file, s.reg.downloads[id].nextSeq + n)) ==
            Advanced(s, id, file, n + 1)
  {
    var d := s.reg.downloads[id];
    StaysReady(s, link, id, file, n);
    ChunkIsAccepted(H, Advanced(s, id, file, n), link, id, file);
    PutTwice(s, id, AcceptChunks(d, file, n), AcceptChunks(d, file, n + 1));
  }

  lemma EachChunk(H: Hash, s: State, link: Link, id: Id, file: Bytes, es: seq<Event>)
    requires Ready(s, link, id, file) && s.reg.downloads[id].nextSeq + |es| <= ChunkCount(file)
    requires forall k :: 0 <= k < |es| ==> es[k] == ChunkEvent(link, id, file, s.reg.downloads[id].nextSeq + k)
    ensures forall k: nat {:trigger es[k]} :: k < |es| ==>
      Step(H, Advanced(s, id, file, k), es[k]) == Advanced(s, id, file, k + 1)
  {
    forall k: nat {:trigger es[k]} | k < |es|
      ensures Step(H, Advanced(s, id, file, k), es[k]) == Advanced(s, id, file, k + 1)
    {
      NextChunk(H, s, link, id, file, k);
    }
  }

  lemma NoChunkYet(s: State, id: Id, file: Bytes)
    requires id in s.reg.downloads
    ensures Advanced(s, id, file, 0) == s
  {
    PutSame(s, id);
  }

  lemma RunAdvances(H: Hash, s: State, id: Id, file: Bytes, es: seq<Event>)
    requires id in s.reg.downloads
    requires forall k: nat {:trigger es[k]} :: k < |es| ==>
      Step(H, Advanced(s, id, file, k), es[k]) == Advanced(s, id, file, k + 1)
    ensures Run(H, s, es) == Advanced(s, id, file, |es|)
  {
    NoChunkYet(s, id, file);
    RunAlong(H, s, es, (k: nat) => Advanced(s, id, file, k));
  }

  lemma ChunksAreAccepted(H: Hash, s: State, link: Link, id: Id, file: Bytes, n: nat)
    requires Ready(s, link, id, file) && s.reg.downloads[id].nextSeq + n <= ChunkCount(file)
    ensures Run(H, s, ChunkEvents(link, id, file, s.reg.downloads[id].nextSeq, n)) == Advanced(s, id, file, n)
  {
    var es := ChunkEvents(link, id, file, s.reg.downloads[id].nextSeq, n);
    EachChunk(H, s, link, id, file, es);
    RunAdvances(H, s, id, file, es);
  }

  // The next n chunks and two more events.
  lemma RunPass(H: Hash, s: State, link: Link, id: Id, file: Bytes, from: nat, n: nat, a: Event, b: Event)
    requires Ready(s, link, id, file) && from == s.reg.downloads[id].nextSeq && from + n <= ChunkCount(file)
    ensures Run(H, s, ChunkEvents(link, id, file, from, n) + [a] + [b]) ==
            Step(H, Step(H, Advanced(s, id, file, n), a), b)
  {
    var chunks := ChunkEvents(link, id, file, from, n);
    ChunksAreAccepted(H, s, link, id, file, n);
    RunSnoc(H, s, chunks, a);
    RunSnoc(H, s, chunks + [a], b);
  }

  function DoneEvent(H: Hash, link: Link, id: Id, file: Bytes): Event {
    Recv(link, FileDone(id, |file|, H(file)), true)
  }

  lemma DoneTakes(H: Hash, t: State, link: Link, id: Id, file: Bytes)
    requires Ready(t, link, id, file)
    ensures
      var u := Step(H, t, DoneEvent(H, link, id, file));
      && u == With(t, Take(t.reg, link.gen, id, |file|, H(file)))
      && u.reg.hands[link.gen] == Hand(id, t.reg.downloads[id], |file|, H(file))
  {
  }

  // The final frame of a complete pass: a rename puts the staged file in place, a
  // document gets a copy of it.
  lemma CompletePassFinishes(H: Hash, t: State, link: Link, id: Id, file: Bytes, io: FinishIo)
    requires Ready(t, link, id, file) && t.reg.downloads[id].nextSeq == ChunkCount(file)
    requires io.flushOk && io.syncOk && Commit.InstallsNew(io.replace)
    ensures
      var d, u := t.reg.downloads[id], Step(H, Step(H, t, DoneEvent(H, link, id, file)), Finish(link.gen, io));
      && (d.target.Path? ==>
            u.installs == t.installs +
            [Install(id, d.target, d.file.content, |file|, H(file), Commit.ReportsInstalled(io.replace))])
      && (d.target.Document? ==>
            && u.installs == t.installs && id in u.reg.copies
            && u.reg.copies[id] == Copy(d.owner, d.target, d.file.content, |file|, H(file))
            && u.reg == t.reg.(downloads := t.reg.downloads - {id}, hands := u.reg.hands,
               copies := t.reg.copies[id := u.reg.copies[id]])
            && u.reg.hands == t.reg.hands)
  {
    DoneTakes(H, t, link, id, file);
    CarriesVerifies(H, file, t.reg.downloads[id]);
    assert t.reg.hands[link.gen := Hand(id, t.reg.downloads[id], |file|, H(file))] - {link.gen} == t.reg.hands;
  }

  // What the host sends in answer to a resume at next_seq: the missing chunks in
  // order, then the final frame; and the phone's handling of it.
  function ResumedPass(H: Hash, link: Link, id: Id, file: Bytes, from: nat, io: FinishIo): seq<Event>
    requires from <= ChunkCount(file)
  {
    ChunkEvents(link, id, file, from, ChunkCount(file) - from) + [DoneEvent(H, link, id, file)] + [Finish(link.gen, io)]
  }

  ghost predicate PassEnds(s: State, u: State, d: Download, id: Id,
    content: Bytes, size: nat, checksum: Digest, reported: bool) {
    && (d.target.Path? ==> u.installs == s.installs + [Install(id, d.target, content, size, checksum, reported)])
    && (d.target.Document? ==>
          u.installs == s.installs && id in u.reg.copies
          && u.reg.copies[id] == Copy(d.owner, d.target, content, size, checksum))
  }

  lemma PassIsFinished(H: Hash, s: State, u: State, link: Link, id: Id, file: Bytes, n: nat, io: FinishIo)
    requires Ready(s, link, id, file) && s.reg.downloads[id].nextSeq + n == ChunkCount(file)
    requires io.flushOk && io.syncOk && Commit.InstallsNew(io.replace)
    requires u == Step(H, Step(H, Advanced(s, id, file, n), DoneEvent(H, link, id, file)), Finish(link.gen, io))
    ensures
      var d := s.reg.downloads[id];
      PassEnds(s, u, d, id, AcceptChunks(d, file, n).file.content, |file|, H(file), Commit.ReportsInstalled(io.replace))
  {
    StaysReady(s, link, id, file, n);
    CompletePassFinishes(H, Advanced(s, id, file, n), link, id, file, io);
  }

  lemma ResumedPassEnds(H: Hash, s: State, link: Link, id: Id, file: Bytes, n: nat, io: FinishIo)
    requires Ready(s, link, id, file) && s.reg.downloads[id].nextSeq + n == ChunkCount(file)
    requires io.flushOk && io.syncOk && Commit.InstallsNew(io.replace)
    ensures
      var d := s.reg.downloads[id];
      PassEnds(s, Run(H, s, ResumedPass(H, link, id, file, d.nextSeq, io)), d, id,
               AcceptChunks(d, file, n).file.content, |file|, H(file), Commit.ReportsInstalled(io.replace))
  {
    var d := s.reg.downloads[id];
    RunPass(H, s, link, id, file, d.nextSeq, n, DoneEvent(H, link, id, file), Finish(link.gen, io));
    PassIsFinished(H, s, Run(H, s, ResumedPass(H, link, id, file, d.nextSeq, io)), link, id, file, n, io);
  }

  // It installs the staged file, which is the served file exactly when nothing
  // stale was staged before; into a document it starts the copy of it.
  lemma ResumedPassIff(H: Hash, s: State, link: Link, id: Id, file: Bytes, io: FinishIo) returns (content: Bytes)
    requires Ready(s, link, id, file) && io.flushOk && io.syncOk && Commit.InstallsNew(io.replace)
    ensures
      var d := s.reg.downloads[id];
      PassEnds(s, Run(H, s, ResumedPass(H, link, id, file, d.nextSeq, io)), d, id, content, |file|, H(file),
        Commit.ReportsInstalled(io.replace))
    ensures (content == file <==> NothingStale(file, s.reg.downloads[id])) && ToldByLength(file, content)
  {
    var d := s.reg.downloads[id];
    var n := ChunkCount(file) - d.nextSeq;
    ResumedPassEnds(H, s, link, id, file, n, io);
    PassIsTheFileIff(H, d, file, n);
    content := AcceptChunks(d, file, n).file.content;
  }

  // Into a document: once the copy is made, by calls that work, it is reported
  // complete exactly when nothing stale was staged, and then it is the file.
  lemma ResumedPassFillsDocument(H: Hash, s: State, link: Link, id: Id, file: Bytes, io: FinishIo, world: Commit.World)
    requires Ready(s, link, id, file) && s.reg.downloads[id].target.Document?
    requires io.flushOk && io.syncOk && Commit.InstallsNew(io.replace)
    requires
      var u := Run(H, s, ResumedPass(H, link, id, file, s.reg.downloads[id].nextSeq, io));
      id in u.reg.copies ==> GoodCopy(u.reg.copies[id], world)
    ensures
      var d := s.reg.downloads[id];
      var u := Run(H, s, ResumedPass(H, link, id, file, d.nextSeq, io) + [EndCopy(id, world)]);
      && |u.installs| == |s.installs| + 1 && s.installs < u.installs
      && var i := u.installs[|s.installs|];
        i.id == id && (i.reported <==> NothingStale(file, d)) && (i.reported ==> i.content == file)
  {
    var d := s.reg.downloads[id];
    var content := ResumedPassIff(H, s, link, id, file, io);
    var es := ResumedPass(H, link, id, file, d.nextSeq, io);
    var u := Run(H, s, es);
    RunSnoc(H, s, es, EndCopy(id, world));
    CopyOfPass(H, u, id, file, world);
  }

  lemma CopyOfPass(H: Hash, u: State, id: Id, file: Bytes, world: Commit.World)
    requires id in u.reg.copies && GoodCopy(u.reg.copies[id], world) && ToldByLength(file, u.reg.copies[id].content)
    requires u.reg.copies[id].size == |file| && u.reg.copies[id].checksum == H(file)
    ensures
      var v := Step(H, u, EndCopy(id, world));
      && |v.installs| == |u.installs| + 1 && u.installs < v.installs
      && var i := v.installs[|u.installs|];
        i.id == id && (i.reported <==> u.reg.copies[id].content == file) && (i.reported ==> i.content == file)
  {
    Commit.CopiesIff(H, world, |file|, H(file), []);
  }

  // ---- A seek that fails ----

  // Events without copies that an honest peer may cause.
  lemma {:induction false} HonestEvents(H: Hash, job: Job, s: State, es: seq<Event>)
    requires forall k :: 0 <= k < |es| ==> Honest(H, job, es[k]) && !es[k].EndCopy?
    ensures HonestRun(H, job, s, es)
  {
    if es != [] {
      HonestEvents(H, job, s, es[..|es| - 1]);
    }
  }

  // A final frame that does not verify: the file starts over.
  lemma WrongDoneRestarts(H: Hash, t: State, link: Link, id: Id, file: Bytes, size: nat, checksum: Digest, io: FinishIo)
    requires Ready(t, link, id, file) && !Verified(H, t.reg.downloads[id], size, checksum)
    requires t.reg.downloads[id].restarts < MAX_DOWNLOAD_RESTARTS
    ensures
      var d := t.reg.downloads[id];
      var u := Step(H, Step(H, t, Recv(link, FileDone(id, size, checksum), true)), Finish(link.gen, io));
      && Ready(u, link, id, file) && u.installs == t.installs
      && u.reg == Put(t.reg, id, Restart(d, io.setLenOk, io.seekOk))
  {
    var d := t.reg.downloads[id];
    var r := Restart(d, io.setLenOk, io.seekOk);
    RestartKeepsCarries(file, d, io.setLenOk, io.seekOk);
    FitsStays(t.reg, id, file, r);
    assert (t.reg.downloads - {id})[id := r] == t.reg.downloads[id := r];
    assert t.reg.hands[link.gen := Hand(id, d, size, checksum)] - {link.gen} == t.reg.hands;
  }

  // The first chunk, the final frame too early, and a restart whose seek fails.
  lemma FirstHalf(H: Hash, s: State, link: Link, id: Id, file: Bytes, bad: FinishIo)
    requires Ready(s, link, id, file) && s.reg.downloads[id] == Fresh(link.owner, "remote", false, Path("local"))
    requires |file| > FILE_CHUNK_BYTES && !bad.seekOk
    ensures
      var u := Run(H, s, ChunkEvents(link, id, file, 0, 1) + [DoneEvent(H, link, id, file)] + [Finish(link.gen, bad)]);
      && Ready(u, link, id, file) && u.installs == s.installs && u.reg.downloads[id].target == Path("local")
      && u.reg.downloads[id].nextSeq == 0 && u.reg.downloads[id].written == 0
      && u.reg.downloads[id].file.pos == FILE_CHUNK_BYTES
  {
    var chunk, done := ChunkEvents(link, id, file, 0, 1), DoneEvent(H, link, id, file);
    RunSnoc(H, s, chunk, done);
    RunSnoc(H, s, chunk + [done], Finish(link.gen, bad));
    ChunksAreAccepted(H, s, link, id, file, 1);
    StaysReady(s, link, id, file, 1);
    ChunksTile(file, 0);
    ChunksTile(file, 1);
    AcceptedChunks(s.reg.downloads[id], file, 1);
    CarriesVerifies(H, file, Run(H, s, chunk).reg.downloads[id]);
    WrongDoneRestarts(H, Run(H, s, chunk), link, id, file, |file|, H(file), bad);
  }

  lemma {:induction false} RunJoin(H: Hash, s: State, a: seq<Event>, b: seq<Event>)
    ensures Run(H, s, a + b) == Run(H, Run(H, s, a), b)
    decreases |b|
  {
    if b == [] {
      assert a + b == a;
    } else {
      var front, last := b[..|b| - 1], b[|b| - 1];
      assert a + b == (a + front) + [last];
      RunSnoc(H, s, a + front, last);
      RunJoin(H, s, a, front);
    }
  }

  lemma OneDownloadIsReady(link: Link, file: Bytes)
    requires link.owner == Owner([], []) && |file| <= MAX_DOWNLOAD_BYTES
    ensures Ready(OneDownload(Blank(), []), link, 1, file)
  {
    var s := OneDownload(Blank(), []);
    ChunksTile(file, 0);
    TotalRemove(s.reg.downloads, 1);
    assert s.reg.downloads - {1} == map[];
  }

  // For every file of more than one chunk there is an honest run, from start-up,
  // that installs a longer file in its place and reports it as complete.
  lemma FailedSeekInstallsWrongFile(H: Hash, file: Bytes) returns (after: seq<Event>, i: Install)
    requires FILE_CHUNK_BYTES < |file| <= MAX_DOWNLOAD_BYTES
    ensures
      var s := Step(H, Step(H, INIT, FailedTruncate(H)[0]), FailedTruncate(H)[1]);
      && HonestRun(H, Job(1, Owner([], []), "remote", false, Path("local"), file), s, after)
      && Run(H, s, after).installs == [i]
    ensures i.id == 1 && i.reported && i.content != file && i.size == |file| && i.checksum == H(file)
  {
    var link, job := Link(0, Owner([], [])), Job(1, Owner([], []), "remote", false, Path("local"), file);
    var bad, good := FinishIo(true, false, true, true, PLAIN), FinishIo(true, true, true, true, PLAIN);
    var s := OneDownload(Blank(), []);
    DownloadStarts(H);
    OneDownloadIsReady(link, file);
    var first := ChunkEvents(link, 1, file, 0, 1) + [DoneEvent(H, link, 1, file)] + [Finish(0, bad)];
    var pass := ResumedPass(H, link, 1, file, 0, good);
    after := first + pass;
    ChunksTile(file, 0);
    HonestEvents(H, job, s, after);
    FirstHalf(H, s, link, 1, file, bad);
    var u := Run(H, s, first);
    RunJoin(H, s, first, pass);
    var content := ResumedPassIff(H, u, link, 1, file, good);
    i := Install(1, Path("local"), content, |file|, H(file), true);
  }
}
