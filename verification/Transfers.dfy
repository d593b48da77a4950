// Every transfer of the phone as one transition system: frames arriving on any
// number of links, the commands that start transfers, host switches, and the
// four transfer slots (app/src-tauri/src/lib.rs:186-264, 1151-1185, 1399-1468,
// 1748-2044, 2882-3072; app/src-tauri/src/download_probe.rs). Each region the
// code runs under a lock is one step.
module Transfers {
  import opened Bytes
  import opened Downloads
  import Uploads
  import UploadRuns
  import Commit

  type Id = nat

  // Probe ids carry the top bit of a 64-bit id; transfer ids stay below it.
  const PROBE_ID_BIT: nat := 9223372036854775808

  predicate IsProbe(id: Id) {
    id / PROBE_ID_BIT % 2 == 1
  }

  datatype Frame =
    | FileChunk(id: Id, seqNo: nat, bytes: Bytes)
    | FileDone(id: Id, size: nat, checksum: Digest)
    | FileRetry(id: Id, fromSeq: nat)
    | FileErr(id: Id)
    | FileGetReq(id: Id, path: string, startSeq: nat, allowOutsideHome: bool)

  datatype Out = Out(gen: nat, frame: Frame)

  // A download a `FileDone` arm has taken out of the registry.
  datatype Hand = Hand(id: Id, download: Download, size: nat, checksum: Digest)

  // A verified download being copied into a document.
  datatype Copy = Copy(owner: Owner, target: Target, content: Bytes, size: nat, checksum: Digest)

  // What a commit left at its destination, and whether it was reported as done.
  datatype Install = Install(id: Id, target: Target, content: Bytes, size: nat, checksum: Digest, reported: bool)

  // Who holds what. Only this part is touched by more than one kind of step.
  datatype Registry = Registry(
    free: nat,                            // slots.available_permits()
    reserved: set<nat>,                   // commands holding a slot before they insert
    downloads: map<Id, Download>,
    hands: map<nat, Hand>,                // by the generation of the session loop
    copies: map<Id, Copy>,
    uploads: map<Id, Uploads.Upload>,
    probes: map<Id, Owner>,
    nextId: nat)

  // The registry, what was installed and what was put on the links.
  datatype State = State(reg: Registry, installs: seq<Install>, outbox: seq<Out>)

  const INIT: State := State(Registry(4, {}, map[], map[], map[], map[], map[], 1), [], [])

  // What the operating system answers while a `FileDone` arm finishes.
  datatype FinishIo = FinishIo(setLenOk: bool, seekOk: bool, flushOk: bool, syncOk: bool, replace: Commit.ReplaceIo)

  datatype Event =
    | Recv(link: Link, frame: Frame, writeOk: bool)
    | Finish(gen: nat, io: FinishIo)
    | Purge(owner: Owner, id: Id)
    | Resume(link: Link, id: Id)
    | StepUpload(id: Id, step: UploadRuns.Event)
    | EndCopy(id: Id, world: Commit.World)
    | Command(cmd: nat, order: Order)

  // The lock regions of `download_file`, `upload_file` and `probe_download`.
  datatype Order =
    | Acquire
    | Release
    | InsertDownload(owner: Owner, path: string, allowOutsideHome: bool, target: Target)
    | CancelDownload(id: Id)
    | InsertUpload(owner: Owner, content: Bytes)
    | InsertProbe(owner: Owner)
    | DropProbe(id: Id)

  // ---- Registry moves ----

  // Dropping a registered download drops its permit.
  function Forget(r: Registry, id: Id): Registry {
    if id in r.downloads then r.(downloads := r.downloads - {id}, free := r.free + 1) else r
  }

  function Put(r: Registry, id: Id, d: Download): Registry {
    r.(downloads := r.downloads[id := d])
  }

  // Between the registry and a `FileDone` arm.
  function Take(r: Registry, gen: nat, id: Id, size: nat, checksum: Digest): Registry
    requires id in r.downloads
  {
    r.(downloads := r.downloads - {id}, hands := r.hands[gen := Hand(id, r.downloads[id], size, checksum)])
  }

  function GiveBack(r: Registry, gen: nat, d: Download): Registry
    requires gen in r.hands
  {
    Put(r.(hands := r.hands - {gen}), r.hands[gen].id, d)
  }

  function DropHand(r: Registry, gen: nat): Registry {
    r.(hands := r.hands - {gen}, free := r.free + 1)
  }

  function StartCopy(r: Registry, gen: nat, c: Copy): Registry
    requires gen in r.hands
  {
    r.(hands := r.hands - {gen}, copies := r.copies[r.hands[gen].id := c])
  }

  function DropCopy(r: Registry, id: Id): Registry {
    r.(copies := r.copies - {id}, free := r.free + 1)
  }

  // An upload moved on; its slot comes back when the last clone goes.
  function SetUpload(r: Registry, id: Id, v: Uploads.Upload): (t: Registry)
    requires id in r.uploads
    ensures t == r.(uploads := t.uploads, free := t.free)
  {
    var released := if r.uploads[id].refs > 0 && v.refs == 0 then 1 else 0;
    r.(uploads := r.uploads[id := v], free := r.free + released)
  }

  function OnUpload(H: Hash, r: Registry, id: Id, e: UploadRuns.Event): (t: Registry)
    ensures t == r.(uploads := t.uploads, free := t.free)
  {
    if id in r.uploads then SetUpload(r, id, UploadRuns.Apply(H, r.uploads[id], e)) else r
  }

  function OnOrder(r: Registry, cmd: nat, order: Order): (t: Registry)
    ensures t.copies == r.copies && t.hands == r.hands && t.nextId >= r.nextId
  {
    match order
    case Acquire =>
      if r.free > 0 && cmd !in r.reserved then r.(free := r.free - 1, reserved := r.reserved + {cmd}) else r
    case Release =>
      if cmd in r.reserved then r.(free := r.free + 1, reserved := r.reserved - {cmd}) else r
    case InsertDownload(owner, path, allow, target) =>
      if cmd in r.reserved && r.nextId < PROBE_ID_BIT then
        r.(reserved := r.reserved - {cmd}, nextId := r.nextId + 1,
           downloads := r.downloads[r.nextId := Fresh(owner, path, allow, target)])
      else r
    case InsertUpload(owner, content) =>
      if cmd in r.reserved && r.nextId < PROBE_ID_BIT then
        r.(reserved := r.reserved - {cmd}, nextId := r.nextId + 1,
           uploads := r.uploads[r.nextId := Uploads.Opened(owner, content)])
      else r
    case CancelDownload(id) => Forget(r, id)
    case InsertProbe(owner) =>
      if r.nextId < PROBE_ID_BIT then
        r.(nextId := r.nextId + 1, probes := r.probes[PROBE_ID_BIT + r.nextId := owner])
      else r
    case DropProbe(id) => r.(probes := r.probes - {id})
  }

  // One removal of take_transfers_not_owned_by.
  function PurgeDownload(r: Registry, owner: Owner, id: Id): Registry {
    if id in r.downloads && r.downloads[id].owner != owner then Forget(r, id) else r
  }

  function PurgeUpload(H: Hash, r: Registry, owner: Owner, id: Id): (t: Registry)
    ensures t == r.(uploads := t.uploads, free := t.free)
  {
    if id in r.uploads && r.uploads[id].registered && r.uploads[id].owner != owner
    then OnUpload(H, r, id, UploadRuns.Rejected) else r
  }

  // ---- Frames ----

  function Post(s: State, link: Link, frame: Frame): State {
    s.(outbox := s.outbox + [Out(link.gen, frame)])
  }

  function With(s: State, r: Registry): State {
    s.(reg := r)
  }

  function Record(s: State, install: Install): State {
    s.(installs := s.installs + [install])
  }

  ghost function Total(downloads: map<Id, Download>): nat {
    if downloads == map[] then 0
    else
      var id :| id in downloads;
      downloads[id].written + Total(downloads - {id})
  }

  predicate Owned(r: Registry, link: Link, id: Id) {
    id in r.downloads && r.downloads[id].owner == link.owner
  }

  predicate OwnsUpload(r: Registry, link: Link, id: Id) {
    id in r.uploads && r.uploads[id].registered && r.uploads[id].owner == link.owner
  }

  ghost predicate OverBudget(r: Registry, id: Id, bytes: Bytes)
    requires id in r.downloads
  {
    || r.downloads[id].written + |bytes| > MAX_DOWNLOAD_BYTES
    || Total(r.downloads) + |bytes| > MAX_TOTAL_DOWNLOAD_BYTES
  }

  ghost function OnChunk(s: State, link: Link, id: Id, seqNo: nat, bytes: Bytes, writeOk: bool): (t: State)
    ensures t.installs == s.installs && t.reg.copies == s.reg.copies
  {
    var r := s.reg;
    if !Owned(r, link, id) then s
    else if seqNo != r.downloads[id].nextSeq then Post(s, link, FileRetry(id, r.downloads[id].nextSeq))
    else if OverBudget(r, id, bytes) then Post(With(s, Forget(r, id)), link, FileErr(id))
    else if |bytes| > FILE_CHUNK_BYTES then s
    else if !writeOk then Post(With(s, Forget(r, id)), link, FileErr(id))
    else With(s, Put(r, id, Accept(r.downloads[id], bytes)))
  }

  // `FileDone`: take the download out; or a finished upload.
  function OnDone(H: Hash, r: Registry, link: Link, id: Id, size: nat, checksum: Digest): (t: Registry)
    ensures t.copies == r.copies
  {
    if Owned(r, link, id) then Take(r, link.gen, id, size, checksum)
    else if OwnsUpload(r, link, id) then OnUpload(H, r, id, UploadRuns.Completed)
    else r
  }

  // The two lock regions of `FileErr`.
  function ErrDownload(r: Registry, link: Link, id: Id): Registry {
    if Owned(r, link, id) then Forget(r, id) else r
  }

  function ErrUpload(H: Hash, r: Registry, link: Link, id: Id): Registry {
    if OwnsUpload(r, link, id) then OnUpload(H, r, id, UploadRuns.Rejected) else r
  }

  function OnErr(H: Hash, r: Registry, link: Link, id: Id): (t: Registry)
    ensures t.copies == r.copies
  {
    ErrUpload(H, ErrDownload(r, link, id), link, id)
  }

  function OnRetry(H: Hash, r: Registry, link: Link, id: Id, fromSeq: nat): (t: Registry)
    ensures t == r.(uploads := t.uploads, free := t.free)
  {
    if OwnsUpload(r, link, id) then OnUpload(H, r, id, UploadRuns.Retry(fromSeq, link)) else r
  }

  // download_probe::answer
  function OnProbe(s: State, link: Link, id: Id, cancel: bool): (t: State)
    ensures t.installs == s.installs && t.reg == s.reg.(probes := t.reg.probes)
  {
    if id in s.reg.probes && s.reg.probes[id] == link.owner then
      var settled := With(s, s.reg.(probes := s.reg.probes - {id}));
      if cancel then Post(settled, link, FileErr(id)) else settled
    else s
  }

  ghost function OnFrame(H: Hash, s: State, link: Link, frame: Frame, writeOk: bool): (t: State)
    ensures t.installs == s.installs && t.reg.copies == s.reg.copies
  {
    match frame
    case FileChunk(id, seqNo, bytes) =>
      if IsProbe(id) then OnProbe(s, link, id, true) else OnChunk(s, link, id, seqNo, bytes, writeOk)
    case FileDone(id, size, checksum) =>
      if IsProbe(id) then OnProbe(s, link, id, false) else With(s, OnDone(H, s.reg, link, id, size, checksum))
    case FileRetry(id, fromSeq) => With(s, OnRetry(H, s.reg, link, id, fromSeq))
    case FileErr(id) =>
      if IsProbe(id) then OnProbe(s, link, id, false) else With(s, OnErr(H, s.reg, link, id))
    case FileGetReq(_, _, _, _) => s
  }

  // The rest of the `FileDone` arm: verify, then restart, give up or commit.
  function FinishDone(H: Hash, s: State, gen: nat, io: FinishIo): State {
    if gen !in s.reg.hands then s
    else
      var hand := s.reg.hands[gen];
      var d := hand.download;
      var link := Link(gen, d.owner);
      var dropped := With(s, DropHand(s.reg, gen));
      if !Verified(H, d, hand.size, hand.checksum) then
        if d.restarts + 1 > MAX_DOWNLOAD_RESTARTS then Post(dropped, link, FileErr(hand.id))
        else
          Post(With(s, GiveBack(s.reg, gen, Restart(d, io.setLenOk, io.seekOk))), link, FileRetry(hand.id, 0))
      else if !io.flushOk || !io.syncOk then dropped
      else if d.target.Document? then
        With(s, StartCopy(s.reg, gen, Copy(d.owner, d.target, d.file.content, hand.size, hand.checksum)))
      else if Commit.InstallsNew(io.replace) then
        Record(dropped, Install(hand.id, d.target, d.file.content, hand.size, hand.checksum,
          Commit.ReportsInstalled(io.replace)))
      else dropped
  }

  // The copy into a document: once both files were opened, something is left at
  // the destination, whether or not the copy is reported as complete.
  function FinishCopy(H: Hash, s: State, id: Id, world: Commit.World): State {
    if id !in s.reg.copies then s
    else
      var c := s.reg.copies[id];
      var t := With(s, DropCopy(s.reg, id));
      if world.sourceOpens && world.destinationOpens then
        Record(t, Install(id, c.target, Commit.LeftAt(H, world, c.size, c.checksum, []), c.size, c.checksum,
                          Commit.Copies(H, world, c.size, c.checksum)))
      else t
  }

  function OnResume(s: State, link: Link, id: Id): State {
    if Owned(s.reg, link, id) then
      var d := s.reg.downloads[id];
      Post(s, link, FileGetReq(id, d.remotePath, d.nextSeq, d.allowOutsideHome))
    else s
  }

  ghost function Step(H: Hash, s: State, e: Event): State {
    match e
    case Recv(link, frame, writeOk) =>
      if link.gen in s.reg.hands then s else OnFrame(H, s, link, frame, writeOk)
    case Finish(gen, io) => FinishDone(H, s, gen, io)
    case Purge(owner, id) => With(s, PurgeUpload(H, PurgeDownload(s.reg, owner, id), owner, id))
    case Resume(link, id) => OnResume(s, link, id)
    case StepUpload(id, step) => With(s, OnUpload(H, s.reg, id, step))
    case EndCopy(id, world) => FinishCopy(H, s, id, world)
    case Command(cmd, order) => With(s, OnOrder(s.reg, cmd, order))
  }

  ghost function Run(H: Hash, s: State, es: seq<Event>): State {
    if es == [] then s else Step(H, Run(H, s, es[..|es| - 1]), es[|es| - 1])
  }
}
