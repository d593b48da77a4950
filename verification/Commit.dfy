// Installing a verified download: by rename with a backup
// (app/src-tauri/src/lib.rs:270-307) or by a copy that is verified again
// (app/src-tauri/src/local_files.rs:625-695).
module Commit {
  import opened Bytes

  // ---- Replacing by rename, where rename does not overwrite ----

  type Path = string

  // What becomes of one file-system call. When the outcomes run out, the app
  // was stopped there.
  datatype Outcome = Works | Fails

  datatype Io = Done | Failed | Stopped

  // How the replacement ended. All but Replaced and Killed are errors.
  datatype Replace =
    | Replaced
    | CannotTell // asking whether a path exists failed
    | Refused // a backup is already there
    | NotMoved // the first rename failed
    | RolledBack // the install failed and the old file is back
    | LeftAtBackup // the install failed and so did the roll-back
    | BackupLeft // installed, but the backup could not be removed
    | Killed

  // Everything the replacement depends on: the platform, which of the three
  // paths exist, and what each call will answer.
  datatype ReplaceIo = ReplaceIo(
    windows: bool, targetThere: bool, backupThere: bool, stagedThere: bool, script: seq<Outcome>)

  // What call number i answers.
  function Call(script: seq<Outcome>, i: nat): Io {
    if i >= |script| then Stopped else if script[i].Works? then Done else Failed
  }

  predicate CallsWork(script: seq<Outcome>, n: nat) {
    n <= |script| && forall i :: 0 <= i < n ==> script[i].Works?
  }

  // A file is there to be moved aside first.
  predicate MovesAside(io: ReplaceIo) {
    io.windows && io.targetThere
  }

  // The new file ends up at the target: the calls up to and including the
  // installing rename work. No earlier file is in the way of its backup.
  predicate InstallsNew(io: ReplaceIo) {
    && io.stagedThere && (MovesAside(io) ==> !io.backupThere)
    && CallsWork(io.script, if !io.windows then 1 else if io.targetThere then 4 else 2)
  }

  // It is also reported as installed: the backup, if any, could be removed.
  predicate ReportsInstalled(io: ReplaceIo) {
    InstallsNew(io) && (MovesAside(io) ==> Call(io.script, 4) == Done)
  }

  class Disk {
    var files: map<Path, Bytes>
    var script: seq<Outcome>

    constructor (files: map<Path, Bytes>, script: seq<Outcome>)
      ensures this.files == files && this.script == script
    {
      this.files, this.script := files, script;
    }

    method Next() returns (io: Io)
      modifies this`script
      ensures io == Call(old(script), 0)
      ensures script == if old(script) == [] then [] else old(script)[1..]
    {
      if script == [] {
        return Stopped;
      }
      io := if script[0].Works? then Done else Failed;
      script := script[1..];
    }

    // A rename happens whole or not at all; one of a missing file fails.
    method Rename(from: Path, to: Path) returns (io: Io)
      modifies this
      ensures io == if Call(old(script), 0) == Done && from !in old(files) then Failed else Call(old(script), 0)
      ensures files == if io == Done then (old(files) - {from})[to := old(files)[from]] else old(files)
      ensures script == if old(script) == [] then [] else old(script)[1..]
    {
      io := Next();
      if io == Done {
        if from !in files {
          return Failed;
        }
        files := (files - {from})[to := files[from]];
      }
    }

    method RemoveFile(path: Path) returns (io: Io)
      modifies this
      ensures io == if Call(old(script), 0) == Done && path !in old(files) then Failed else Call(old(script), 0)
      ensures files == if io == Done then old(files) - {path} else old(files)
      ensures script == if old(script) == [] then [] else old(script)[1..]
    {
      io := Next();
      if io == Done {
        if path !in files {
          return Failed;
        }
        files := files - {path};
      }
    }

    ghost function Io(windows: bool, temporary: Path, target: Path, backup: Path): ReplaceIo
      reads this
    {
      ReplaceIo(windows, target in files, backup in files, temporary in files, script)
    }

    // Wherever it fails or stops, the files are left as `Left` says. Whether the
    // new file is in place, and whether that is reported, follows from the inputs:
    // an error hides an install exactly when the backup's removal fails.
    method ReplaceDownloadFile(windows: bool, temporary: Path, target: Path, backup: Path) returns (end: Replace)
      requires temporary != target && target != backup && backup != temporary
      modifies this
      ensures Left(old(files), files, temporary, target, backup, end)
      ensures var io := old(Io(windows, temporary, target, backup));
        && (Installed(old(files), files, temporary, target) <==> InstallsNew(io))
        && (end == Replaced <==> ReportsInstalled(io))
        && (end == BackupLeft <==> InstallsNew(io) && MovesAside(io) && Call(io.script, 4) == Failed)
        && (end == Refused <==> MovesAside(io) && io.backupThere && CallsWork(io.script, 2))
    {
      var io;
      if !windows {
        io := Rename(temporary, target);
        return if io == Done then Replaced else if io == Stopped then Killed else NotMoved;
      }
      io := Next();
      if io != Done {
        return if io == Stopped then Killed else CannotTell;
      }
      if target !in files {
        io := Rename(temporary, target);
        return if io == Done then Replaced else if io == Stopped then Killed else NotMoved;
      }
      end := ReplaceOld(temporary, target, backup);
    }

    // A file is at the target, and nothing may be at the backup yet.
    method ReplaceOld(temporary: Path, target: Path, backup: Path) returns (end: Replace)
      requires temporary != target && target != backup && backup != temporary && target in files
      modifies this
      ensures Left(old(files), files, temporary, target, backup, end)
      ensures
        var works := temporary in old(files) && backup !in old(files) && CallsWork(old(script), 3);
        && (Installed(old(files), files, temporary, target) <==> works)
        && (end == Replaced <==> works && Call(old(script), 3) == Done)
        && (end == BackupLeft <==> works && Call(old(script), 3) == Failed)
        && (end == Refused <==> backup in old(files) && CallsWork(old(script), 1))
    {
      var io := Next();
      if io != Done {
        return if io == Stopped then Killed else CannotTell;
      }
      if backup in files {
        return Refused;
      }
      end := MoveAside(temporary, target, backup);
    }

    // Keep the old file as a backup until the new one is in.
    method MoveAside(temporary: Path, target: Path, backup: Path) returns (end: Replace)
      requires temporary != target && target != backup && backup != temporary
      requires target in files && backup !in files
      modifies this
      ensures Left(old(files), files, temporary, target, backup, end)
      ensures
        && (Installed(old(files), files, temporary, target) <==> temporary in old(files) && CallsWork(old(script), 2))
        && (end == Replaced <==> temporary in old(files) && CallsWork(old(script), 3))
        && (end == BackupLeft <==>
              temporary in old(files) && CallsWork(old(script), 2) && Call(old(script), 2) == Failed)
        && end != Refused
    {
      var io := Rename(target, backup);
      if io != Done {
        return if io == Stopped then Killed else NotMoved;
      }
      io := Rename(temporary, target);
      if io == Stopped {
        return Killed;
      }
      if io == Failed {
        io := Rename(backup, target);
        assert io == Done ==> files == old(files);
        return if io == Done then RolledBack else if io == Stopped then Killed else LeftAtBackup;
      }
      io := RemoveFile(backup);
      return if io == Done then Replaced else if io == Stopped then Killed else BackupLeft;
    }
  }

  // What a result says about the files: no other file changed, the old bytes are
  // at the target or the backup or the new ones are at the target, and a backup
  // that was already there is untouched.
  ghost predicate Left(before: map<Path, Bytes>, after: map<Path, Bytes>,
    temporary: Path, target: Path, backup: Path, end: Replace) {
    && OnlyThese(before, after, {temporary, target, backup})
    && Survives(before, after, temporary, target, backup)
    && (backup in before ==> backup in after && after[backup] == before[backup])
    && (end in {CannotTell, Refused, NotMoved, RolledBack} ==> after == before)
    && (end == Replaced ==> Installed(before, after, temporary, target) && (backup in after <==> backup in before))
    && (end == LeftAtBackup ==> target in before && after == (before - {target})[backup := before[target]])
    && (end == BackupLeft ==>
          && target in before && Installed(before, after, temporary, target)
          && backup in after && after[backup] == before[target])
  }

  // A replacement that installs the new file and reports an error.
  method BackupStays(was: Bytes, fetched: Bytes) returns (end: Replace, files: map<Path, Bytes>)
    ensures end == BackupLeft && files == map["target" := fetched, "backup" := was]
  {
    var disk := new Disk(map["target" := was, "staged" := fetched], [Works, Works, Works, Works, Fails]);
    ghost var before := disk.files;
    end := disk.ReplaceDownloadFile(true, "staged", "target", "backup");
    files := disk.files;
    assert forall p :: p in files <==> p in {"target", "backup"};
  }

  ghost predicate OnlyThese(before: map<Path, Bytes>, after: map<Path, Bytes>, these: set<Path>) {
    forall p :: p !in these ==> (p in before <==> p in after) && (p in before && p in after ==> before[p] == after[p])
  }

  // The new bytes moved from the staging file to the target.
  ghost predicate Installed(before: map<Path, Bytes>, after: map<Path, Bytes>, temporary: Path, target: Path) {
    temporary in before && temporary !in after && target in after && after[target] == before[temporary]
  }

  ghost predicate Survives(before: map<Path, Bytes>, after: map<Path, Bytes>,
    temporary: Path, target: Path, backup: Path) {
    target in before ==>
      || (target in after && after[target] == before[target])
      || (backup in after && after[backup] == before[target])
      || Installed(before, after, temporary, target)
  }

  // ---- Copying into a document ----

  // app/src-tauri/src/local_files.rs:664
  const COPY_BUFFER_BYTES: nat := 65536

  // One `read` of the staged file. Nothing is assumed about what it returns; the
  // end of the list is the end of the file.
  datatype Read = Data(bytes: Bytes) | Interrupted | ReadFails

  // One `write_all`: a failing one may have written some of the bytes.
  datatype Write = Wrote | WriteFails(part: nat)

  datatype Sync = Synced | InvalidInput | SyncFails

  datatype Failure = Failure(destinationOpened: bool, emptied: bool)

  // One attempt to remove an unused document: whether it opens, as a regular file,
  // and whether its provider deletes it.
  datatype Check = CannotOpen | Opens(regular: bool)
  datatype Try = Try(check: Check, deletes: bool)

  datatype Discard = Removed | HoldsData | Unchecked | NotDeleted

  predicate Regular(t: Try) {
    t.check.Opens? && t.check.regular
  }

  // What the user is told about the destination.
  datatype Report =
    | Saved
    | SaidRemoved
    | SaidEmpty // left empty and not removed
    | SaidIncomplete // may be incomplete
    | SaidUnwritten // nothing was written to it
    | SaidNothing // only that saving failed

  // What each call into the operating system will answer.
  datatype World = World(
    sourceOpens: bool, reading: seq<Read>, destinationOpens: bool, writes: seq<Write>,
    flushes: bool, sync: Sync, truncates: bool, removes: bool)

  // The bytes all reads deliver, or None if one fails.
  function Delivered(rs: seq<Read>): Option<Bytes> {
    if rs == [] then Some([])
    else
      var front, last := Delivered(rs[..|rs| - 1]), rs[|rs| - 1];
      match last
      case Interrupted => front
      case ReadFails => None
      case Data(bytes) => if front.Some? then Some(front.value + bytes) else None
  }

  predicate AllWrote(ws: seq<Write>) {
    forall i :: 0 <= i < |ws| ==> ws[i].Wrote?
  }

  // What the copy loop has done after some reads: the bytes at the destination,
  // the writes made, and whether a call failed or the file grew past its size.
  datatype Progress = Progress(destination: Bytes, writes: nat, failed: bool)

  function OneRead(p: Progress, r: Read, ws: seq<Write>, size: nat): Progress {
    if p.failed then p
    else
      match r
      case Interrupted => p
      case ReadFails => p.(failed := true)
      case Data(bytes) =>
        if |p.destination| + |bytes| > size then p.(failed := true)
        else if p.writes < |ws| && ws[p.writes].WriteFails? then
          p.(destination := p.destination + bytes[..Min(ws[p.writes].part, |bytes|)], failed := true)
        else Progress(p.destination + bytes, p.writes + 1, false)
  }

  function Copied(rs: seq<Read>, ws: seq<Write>, size: nat): Progress {
    if rs == [] then Progress([], 0, false) else OneRead(Copied(rs[..|rs| - 1], ws, size), rs[|rs| - 1], ws, size)
  }

  lemma CopiedMore(rs: seq<Read>, ws: seq<Write>, size: nat, i: nat)
    requires i < |rs|
    ensures Copied(rs[..i + 1], ws, size) == OneRead(Copied(rs[..i], ws, size), rs[i], ws, size)
  {
    assert rs[..i + 1][..i] == rs[..i];
  }

  // The copy is reported as complete.
  predicate Copies(hash: Hash, world: World, size: nat, checksum: Digest) {
    var p := Copied(world.reading, world.writes, size);
    && world.sourceOpens && world.destinationOpens && !p.failed
    && |p.destination| == size && hash(p.destination) == checksum
    && world.flushes && !world.sync.SyncFails?
  }

  // What is at the destination afterwards.
  function LeftAt(hash: Hash, world: World, size: nat, checksum: Digest, before: Bytes): Bytes {
    if !world.sourceOpens || !world.destinationOpens then before
    else if world.truncates && !Copies(hash, world, size, checksum) then []
    else Copied(world.reading, world.writes, size).destination
  }

  // The destination never grows past `size`, holds only what was read, and an
  // unfailed loop has copied everything; without failing writes the loop fails
  // exactly when a read does or too much is read.
  lemma {:induction false} CopiedIsDelivered(rs: seq<Read>, ws: seq<Write>, size: nat)
    ensures
      var p, d := Copied(rs, ws, size), Delivered(rs);
      && |p.destination| <= size && p.writes <= |rs|
      && (!p.failed ==> d == Some(p.destination))
      && (d.Some? ==> p.destination <= d.value)
      && (AllWrote(ws) ==> (p.failed <==> d.None? || |d.value| > size))
  {
    if rs != [] {
      CopiedIsDelivered(rs[..|rs| - 1], ws, size);
    }
  }

  // The loop does not go on after a failure.
  lemma {:induction false} FailedStays(rs: seq<Read>, ws: seq<Write>, size: nat, i: nat)
    requires i <= |rs| && Copied(rs[..i], ws, size).failed
    ensures Copied(rs, ws, size) == Copied(rs[..i], ws, size)
    decreases |rs|
  {
    if i == |rs| {
      assert rs[..i] == rs;
    } else {
      assert rs[..|rs| - 1][..i] == rs[..i];
      FailedStays(rs[..|rs| - 1], ws, size, i);
    }
  }

  // Success means the destination holds exactly what was read, with the verified
  // size and digest; if no call fails, that is all success takes.
  lemma CopiesIff(hash: Hash, world: World, size: nat, checksum: Digest, before: Bytes)
    ensures
      var d := Delivered(world.reading);
      Copies(hash, world, size, checksum) ==>
        && d == Some(LeftAt(hash, world, size, checksum, before)) && |d.value| == size && hash(d.value) == checksum
        && world.sourceOpens && world.destinationOpens && world.flushes && !world.sync.SyncFails?
    ensures
      var d := Delivered(world.reading);
      (world.sourceOpens && world.destinationOpens && AllWrote(world.writes)
       && world.flushes && !world.sync.SyncFails?) ==>
      (Copies(hash, world, size, checksum) <==> d.Some? && |d.value| == size && hash(d.value) == checksum)
    ensures world.sourceOpens && world.destinationOpens ==> |LeftAt(hash, world, size, checksum, before)| <= size
  {
    CopiedIsDelivered(world.reading, world.writes, size);
  }

  class Document {
    var staging: Option<Bytes>
    var destination: Bytes
    // The number of attempts to remove the staging file.
    var removals: nat
    // The document itself is still there.
    var present: bool

    constructor (staging: Option<Bytes>, destination: Bytes)
      ensures this.staging == staging && this.destination == destination && removals == 0 && present
    {
      this.staging, this.destination, removals, present := staging, destination, 0, true;
    }

    // The read and write loop; `hashed` is what the hasher was fed.
    method CopyAll(world: World, size: nat) returns (ok: bool, hashed: Bytes)
      requires destination == []
      modifies this`destination
      ensures
        var p := Copied(world.reading, world.writes, size);
        destination == p.destination && ok == !p.failed && (ok ==> hashed == destination)
    {
      var copied, i, w := 0, 0, 0;
      hashed := [];
      ghost var rs, ws := world.reading, world.writes;
      while i < |world.reading|
        invariant i <= |rs| && copied == |destination| && hashed == destination
        invariant Copied(rs[..i], ws, size) == Progress(destination, w, false)
      {
        CopiedMore(rs, ws, size, i);
        i := i + 1;
        match world.reading[i - 1] {
          case Interrupted =>
          case ReadFails =>
            FailedStays(rs, ws, size, i);
            return false, hashed;
          case Data(bytes) =>
            copied := copied + |bytes|;
            if copied > size {
              FailedStays(rs, ws, size, i);
              return false, hashed;
            }
            hashed := hashed + bytes;
            if w < |world.writes| && world.writes[w].WriteFails? {
              destination := destination + bytes[..Min(world.writes[w].part, |bytes|)];
              FailedStays(rs, ws, size, i);
              return false, hashed;
            }
            destination := destination + bytes;
            w := w + 1;
        }
      }
      assert rs[..i] == rs;
      ok := true;
    }

    method CopyVerified(hash: Hash, world: World, size: nat, checksum: Digest) returns (ok: bool)
      requires destination == [] && world.sourceOpens && world.destinationOpens
      modifies this`destination
      ensures destination == Copied(world.reading, world.writes, size).destination && |destination| <= size
      ensures ok <==> Copies(hash, world, size, checksum)
    {
      CopiedIsDelivered(world.reading, world.writes, size);
      var hashed;
      ok, hashed := CopyAll(world, size);
      if !ok {
        return;
      }
      if |hashed| != size || hash(hashed) != checksum {
        return false;
      }
      if !world.flushes {
        return false;
      }
      // A pipe cannot be synced; that is no failure.
      ok := !world.sync.SyncFails?;
    }

    method CommitByCopy(hash: Hash, world: World, size: nat, checksum: Digest) returns (failure: Option<Failure>)
      modifies this`staging, this`destination, this`removals
      // The staging file is always given up.
      ensures removals == old(removals) + 1 && staging == if world.removes then None else old(staging)
      // The destination is touched only after the staged file was opened.
      ensures !world.sourceOpens || !world.destinationOpens ==>
        destination == old(destination) && failure == Some(Failure(false, false))
      // Success, and what is left at the destination in every case.
      ensures failure.None? <==> Copies(hash, world, size, checksum)
      ensures destination == LeftAt(hash, world, size, checksum, old(destination))
      ensures failure.None? ==>
        |destination| == size && hash(destination) == checksum && Delivered(world.reading) == Some(destination)
      // A failure after that leaves it empty, or says that it may be incomplete.
      ensures failure.Some? && world.sourceOpens && world.destinationOpens ==>
        && failure == Some(Failure(true, world.truncates))
        && (world.truncates ==> destination == []) && |destination| <= size
    {
      var touched, ok := false, false;
      CopiesIff(hash, world, size, checksum, destination);
      if world.sourceOpens && world.destinationOpens {
        touched := true;
        destination := []; // opening it truncates it
        ok := CopyVerified(hash, world, size, checksum);
      }
      removals := removals + 1;
      if world.removes {
        staging := None;
      }
      if ok {
        return None;
      }
      if touched && world.truncates {
        destination := [];
      }
      return Some(Failure(touched, touched && world.truncates));
    }

    // Two attempts to remove the document, as long as it is a regular, empty file.
    method DiscardIfEmpty(tries: seq<Try>) returns (outcome: Discard)
      requires |tries| == 2
      modifies this`present
      ensures present == (old(present) && outcome != Removed)
      ensures outcome == HoldsData <==> Regular(tries[0]) && destination != []
      ensures outcome == Removed <==>
        && destination == [] && Regular(tries[0])
        && (tries[0].deletes || (Regular(tries[1]) && tries[1].deletes))
      ensures outcome == NotDeleted <==>
        && destination == [] && Regular(tries[0]) && !tries[0].deletes
        && (Regular(tries[1]) ==> !tries[1].deletes) && tries[1].check != Opens(false)
    {
      var k := 0;
      while k < |tries|
        invariant k <= |tries| && present == old(present)
        invariant forall i :: 0 <= i < k ==> Regular(tries[i]) && !tries[i].deletes
        invariant k > 0 ==> destination == []
      {
        if tries[k].check.CannotOpen? {
          return if k > 0 then NotDeleted else Unchecked;
        }
        if !tries[k].check.regular {
          return Unchecked;
        }
        if |destination| != 0 {
          return HoldsData;
        }
        if tries[k].deletes {
          present := false;
          return Removed;
        }
        k := k + 1;
      }
      outcome := NotDeleted;
    }

    // The whole task: the copy, and after a failure the removal of a document that
    // would otherwise be left empty.
    method SaveDocument(hash: Hash, world: World, size: nat, checksum: Digest, tries: seq<Try>)
      returns (report: Report)
      requires present && |tries| == 2
      modifies this
      ensures report == Saved <==> Copies(hash, world, size, checksum)
      ensures destination == LeftAt(hash, world, size, checksum, old(destination))
      // What is said is true, and no document that holds anything is removed.
      ensures report == SaidRemoved <==> !present
      ensures report == SaidRemoved || report == SaidEmpty ==> destination == []
      ensures report == SaidUnwritten || report == SaidNothing ==> destination == old(destination)
      ensures report == SaidNothing ==> destination != []
      ensures report == SaidIncomplete ==> world.sourceOpens && world.destinationOpens && !world.truncates
    {
      var failure := CommitByCopy(hash, world, size, checksum);
      if failure.None? {
        return Saved;
      }
      var outcome := DiscardIfEmpty(tries);
      if outcome == Removed {
        report := SaidRemoved;
      } else if outcome == HoldsData {
        report := if failure.value.destinationOpened then SaidIncomplete else SaidNothing;
      } else if outcome == NotDeleted || failure.value.emptied {
        report := SaidEmpty;
      } else {
        report := if failure.value.destinationOpened then SaidIncomplete else SaidUnwritten;
      }
    }
  }
}
