// The receiver against any peer at all: what the counters and the hasher say
// about the staged bytes, and what a verified file that is put in place is.
module Receiver {
  import opened Bytes
  import opened Downloads
  import opened Transfers
  import opened TransferSafety
  import Commit

  predicate Verifies(H: Hash, hand: Hand) {
    Verified(H, hand.download, hand.size, hand.checksum)
  }

  predicate Restarts(H: Hash, hand: Hand) {
    !Verifies(H, hand) && hand.download.restarts < MAX_DOWNLOAD_RESTARTS
  }

  // ---- Something true of every download ----

  ghost predicate Every(r: Registry, P: (Id, Download) -> bool) {
    && (forall id :: id in r.downloads ==> P(id, r.downloads[id]))
    && (forall g :: g in r.hands ==> P(r.hands[g].id, r.hands[g].download))
  }

  // It holds of new downloads and chunks keep it.
  ghost predicate Grows(P: (Id, Download) -> bool) {
    && (forall id, owner, path, allow, target :: P(id, Fresh(owner, path, allow, target)))
    && (forall id, d, bytes :: P(id, d) ==> P(id, Accept(d, bytes)))
  }

  // The restart that e makes, if it makes one, keeps it.
  ghost predicate RestartKeeps(H: Hash, s: State, e: Event, P: (Id, Download) -> bool) {
    e.Finish? && e.gen in s.reg.hands && Restarts(H, s.reg.hands[e.gen]) ==>
      P(s.reg.hands[e.gen].id, Restart(s.reg.hands[e.gen].download, e.io.setLenOk, e.io.seekOk))
  }

  lemma SameEvery(r: Registry, t: Registry, P: (Id, Download) -> bool)
    requires Every(r, P) && forall g :: g in t.hands ==> g in r.hands && t.hands[g] == r.hands[g]
    requires forall id :: id in t.downloads ==> id in r.downloads && t.downloads[id] == r.downloads[id]
    ensures Every(t, P)
  {
  }

  lemma FrameKeepsEvery(H: Hash, s: State, link: Link, frame: Frame, writeOk: bool, P: (Id, Download) -> bool)
    requires Every(s.reg, P) && Grows(P)
    ensures Every(OnFrame(H, s, link, frame, writeOk).reg, P)
  {
    var r := s.reg;
    if frame.FileChunk? && !IsProbe(frame.id) {
      SameEvery(r, Forget(r, frame.id), P);
      if frame.id in r.downloads {
        assert Every(Put(r, frame.id, Accept(r.downloads[frame.id], frame.bytes)), P);
      }
    } else if frame.FileDone? && Owned(r, link, frame.id) {
      assert Every(Take(r, link.gen, frame.id, frame.size, frame.checksum), P);
    } else {
      SameEvery(r, OnFrame(H, s, link, frame, writeOk).reg, P);
    }
  }

  lemma GiveBackKeepsEvery(r: Registry, gen: nat, d: Download, P: (Id, Download) -> bool)
    requires Every(r, P) && gen in r.hands
    ensures P(r.hands[gen].id, d) <==> Every(GiveBack(r, gen, d), P)
  {
    var id := r.hands[gen].id;
    assert id in GiveBack(r, gen, d).downloads && GiveBack(r, gen, d).downloads[id] == d;
  }

  lemma FinishKeepsEvery(H: Hash, s: State, gen: nat, io: FinishIo, P: (Id, Download) -> bool)
    requires Every(s.reg, P)
    ensures RestartKeeps(H, s, Finish(gen, io), P) <==> Every(FinishDone(H, s, gen, io).reg, P)
  {
    if gen in s.reg.hands {
      var hand := s.reg.hands[gen];
      var d := Restart(hand.download, io.setLenOk, io.seekOk);
      if Restarts(H, hand) {
        GiveBackKeepsEvery(s.reg, gen, d, P);
      } else {
        SameEvery(s.reg, FinishDone(H, s, gen, io).reg, P);
      }
    }
  }

  // A step keeps it exactly when the restart in it does.
  lemma StepKeepsEveryIff(H: Hash, s: State, e: Event, P: (Id, Download) -> bool)
    requires Every(s.reg, P) && Grows(P)
    ensures RestartKeeps(H, s, e, P) <==> Every(Step(H, s, e).reg, P)
  {
    match e
    case Recv(link, frame, writeOk) => FrameKeepsEvery(H, s, link, frame, writeOk, P);
    case Finish(gen, io) => FinishKeepsEvery(H, s, gen, io, P);
    case Purge(owner, id) =>
      var t := PurgeDownload(s.reg, owner, id);
      SameEvery(s.reg, t, P);
      SameEvery(t, PurgeUpload(H, t, owner, id), P);
    case Resume(link, id) =>
    case StepUpload(id, step) => SameEvery(s.reg, OnUpload(H, s.reg, id, step), P);
    case EndCopy(id, world) => SameEvery(s.reg, DropCopy(s.reg, id), P);
    case Command(cmd, order) =>
      if !order.InsertDownload? { SameEvery(s.reg, OnOrder(s.reg, cmd, order), P); }
  }

  ghost predicate SoundAt(id: Id, d: Download) {
    Sound(d)
  }

  ghost predicate WindowedAt(id: Id, d: Download) {
    Windowed(d)
  }

  lemma SoundGrows()
    ensures Grows(SoundAt)
  {
    forall id: Id, d, bytes | SoundAt(id, d) ensures SoundAt(id, Accept(d, bytes)) {
      AcceptKeepsSound(d, bytes);
    }
  }

  lemma WindowGrows()
    ensures Grows(WindowedAt)
  {
    forall id: Id, d, bytes | WindowedAt(id, d) ensures WindowedAt(id, Accept(d, bytes)) {
      AcceptKeepsWindow(d, bytes);
    }
  }

  // ---- When the staged file is exactly what was accepted ----

  ghost predicate Staged(r: Registry) {
    Every(r, SoundAt)
  }

  // The two ignored results of a restart were fine, or there was nothing to undo.
  predicate Clean(H: Hash, s: State, e: Event) {
    e.Finish? && e.gen in s.reg.hands && Restarts(H, s.reg.hands[e.gen]) ==>
      s.reg.hands[e.gen].download.written == 0 || (e.io.setLenOk && e.io.seekOk)
  }

  ghost predicate CleanRun(H: Hash, s: State, es: seq<Event>) {
    es == [] || (CleanRun(H, s, es[..|es| - 1]) && Clean(H, Run(H, s, es[..|es| - 1]), es[|es| - 1]))
  }

  lemma StepKeepsStagedIff(H: Hash, s: State, e: Event)
    requires Staged(s.reg)
    ensures Staged(Step(H, s, e).reg) <==> Clean(H, s, e)
  {
    SoundGrows();
    StepKeepsEveryIff(H, s, e, SoundAt);
    if e.Finish? && e.gen in s.reg.hands {
      RestartKeepsSoundIff(s.reg.hands[e.gen].download, e.io.setLenOk, e.io.seekOk);
    }
  }

  ghost predicate AlwaysStaged(H: Hash, es: seq<Event>) {
    forall n :: 0 <= n <= |es| ==> Staged(Run(H, INIT, es[..n]).reg)
  }

  lemma AlwaysMore(H: Hash, es: seq<Event>, e: Event)
    ensures AlwaysStaged(H, es + [e]) <==> AlwaysStaged(H, es) && Staged(Run(H, INIT, es + [e]).reg)
  {
    var all := es + [e];
    assert all[..|all|] == all && forall n :: 0 <= n <= |es| ==> es[..n] == all[..n];
  }

  lemma AlwaysNow(H: Hash, es: seq<Event>)
    requires AlwaysStaged(H, es)
    ensures Staged(Run(H, INIT, es).reg)
  {
    assert es[..|es|] == es;
  }

  lemma CleanMore(H: Hash, es: seq<Event>, e: Event)
    requires CleanRun(H, INIT, es) <==> AlwaysStaged(H, es)
    ensures CleanRun(H, INIT, es) && Clean(H, Run(H, INIT, es), e) <==> AlwaysStaged(H, es + [e])
  {
    AlwaysMore(H, es, e);
    RunSnoc(H, INIT, es, e);
    if AlwaysStaged(H, es) {
      AlwaysNow(H, es);
      StepKeepsStagedIff(H, Run(H, INIT, es), e);
    }
  }

  // A run is clean exactly when after each of its steps the staged files are
  // what the counters and the hashers say.
  lemma {:induction false} CleanRunIff(H: Hash, es: seq<Event>)
    ensures CleanRun(H, INIT, es) <==> AlwaysStaged(H, es)
  {
    if es == [] {
      assert Staged(INIT.reg);
    } else {
      var front, e := es[..|es| - 1], es[|es| - 1];
      assert es == front + [e];
      CleanRunIff(H, front);
      CleanMore(H, front, e);
    }
  }

  // ---- What is true on every run ----

  // The file that was put in place has the declared length and digest.
  predicate Genuine(H: Hash, i: Install) {
    |i.content| == i.size && H(i.content) == i.checksum
  }

  // A file of the declared length has the declared digest.
  predicate Told(H: Hash, content: Bytes, size: nat, checksum: Digest) {
    |content| >= size && (|content| == size ==> H(content) == checksum)
  }

  ghost predicate CopiesTold(H: Hash, r: Registry) {
    forall id :: id in r.copies ==>
      r.copies[id].target.Document?
      && Told(H, r.copies[id].content, r.copies[id].size, r.copies[id].checksum)
  }

  // An install by rename is genuine exactly when its length is the declared one.
  // A document that is reported complete is genuine; one that is not holds at
  // most the declared number of bytes.
  ghost predicate InstallTold(H: Hash, i: Install) {
    if i.target.Path? then Told(H, i.content, i.size, i.checksum)
    else if i.reported then Genuine(H, i)
    else |i.content| <= i.size
  }

  lemma HandIsTold(H: Hash, s: State, gen: nat)
    requires Every(s.reg, WindowedAt) && gen in s.reg.hands && Verifies(H, s.reg.hands[gen])
    ensures Told(H, s.reg.hands[gen].download.file.content, s.reg.hands[gen].size, s.reg.hands[gen].checksum)
  {
    var hand := s.reg.hands[gen];
    LengthTells(H, hand.download, hand.size, hand.checksum);
  }

  lemma FinishKeepsCopies(H: Hash, s: State, gen: nat, io: FinishIo)
    requires Every(s.reg, WindowedAt) && CopiesTold(H, s.reg)
    ensures CopiesTold(H, FinishDone(H, s, gen, io).reg)
  {
    if gen in s.reg.hands && Verifies(H, s.reg.hands[gen]) {
      HandIsTold(H, s, gen);
    }
  }

  lemma StepKeepsCopies(H: Hash, s: State, e: Event)
    requires Every(s.reg, WindowedAt) && CopiesTold(H, s.reg)
    ensures CopiesTold(H, Step(H, s, e).reg)
  {
    if e.Finish? {
      FinishKeepsCopies(H, s, e.gen, e.io);
    } else if e.EndCopy? {
      assert CopiesTold(H, DropCopy(s.reg, e.id));
    } else {
      assert Step(H, s, e).reg.copies == s.reg.copies;
    }
  }

  // What a step may add to the installed files: a rename puts a verified staged
  // file in place, a copy leaves what the copy loop made of its staged file.
  ghost predicate MayInstall(H: Hash, s: State, e: Event, i: Install) {
    if e.EndCopy? then
      && e.id in s.reg.copies && i.id == e.id && i.target == s.reg.copies[e.id].target
      && i.size == s.reg.copies[e.id].size && i.checksum == s.reg.copies[e.id].checksum
      && e.world.sourceOpens && e.world.destinationOpens
      && i.content == Commit.LeftAt(H, e.world, i.size, i.checksum, [])
      && i.reported == Commit.Copies(H, e.world, i.size, i.checksum)
    else
      && e.Finish? && e.gen in s.reg.hands && Verifies(H, s.reg.hands[e.gen]) && i.target.Path?
      && e.io.flushOk && e.io.syncOk
      && i.id == s.reg.hands[e.gen].id && i.content == s.reg.hands[e.gen].download.file.content
      && i.size == s.reg.hands[e.gen].size && i.checksum == s.reg.hands[e.gen].checksum
      && i.target == s.reg.hands[e.gen].download.target
      && Commit.InstallsNew(e.io.replace) && i.reported == Commit.ReportsInstalled(e.io.replace)
  }

  lemma StepInstalls(H: Hash, s: State, e: Event)
    ensures
      var t := Step(H, s, e);
      t.installs == s.installs ||
      (|t.installs| == |s.installs| + 1 && s.installs < t.installs && MayInstall(H, s, e, t.installs[|s.installs|]))
  {
  }

  // What becomes of a verified download: nothing is put in place and no copy begins
  // unless the file was flushed and synced, and the slot stays with a copy only.
  lemma VerifiedEnds(H: Hash, s: State, gen: nat, io: FinishIo)
    requires gen in s.reg.hands && Verifies(H, s.reg.hands[gen]) && s.reg.hands[gen].id !in s.reg.copies
    ensures
      var hand, t := s.reg.hands[gen], Step(H, s, Finish(gen, io));
      var copies := hand.download.target.Document? && io.flushOk && io.syncOk;
      && gen !in t.reg.hands && t.reg.downloads == s.reg.downloads && t.outbox == s.outbox
      && (t.installs != s.installs <==>
            hand.download.target.Path? && io.flushOk && io.syncOk && Commit.InstallsNew(io.replace))
      && (hand.id in t.reg.copies <==> copies) && t.reg.free == s.reg.free + if copies then 0 else 1
  {
    var hand, t := s.reg.hands[gen], Step(H, s, Finish(gen, io));
    assert t.installs == s.installs || |t.installs| == |s.installs| + 1;
  }

  ghost predicate InstallsTold(H: Hash, s: State) {
    forall k :: 0 <= k < |s.installs| ==> InstallTold(H, s.installs[k])
  }

  lemma MayInstallIsTold(H: Hash, s: State, e: Event, i: Install)
    requires Every(s.reg, WindowedAt) && CopiesTold(H, s.reg) && MayInstall(H, s, e, i)
    ensures InstallTold(H, i)
  {
    if e.EndCopy? {
      Commit.CopiesIff(H, e.world, i.size, i.checksum, []);
    } else {
      HandIsTold(H, s, e.gen);
    }
  }

  // With no assumption about any peer, disk or restart: in every reachable state
  // the bytes of each download's current attempt are the ones just before its
  // cursor, and the length of what is put in place by a rename tells whether it
  // is what was declared.
  lemma {:induction false} ReceiverInvariant(H: Hash, es: seq<Event>)
    ensures
      var s := Run(H, INIT, es);
      Every(s.reg, WindowedAt) && CopiesTold(H, s.reg) && InstallsTold(H, s)
  {
    if es != [] {
      var s, e := Run(H, INIT, es[..|es| - 1]), es[|es| - 1];
      ReceiverInvariant(H, es[..|es| - 1]);
      WindowGrows();
      if e.Finish? && e.gen in s.reg.hands {
        RestartKeepsWindow(s.reg.hands[e.gen].download, e.io.setLenOk, e.io.seekOk);
      }
      StepKeepsEveryIff(H, s, e, WindowedAt);
      StepKeepsCopies(H, s, e);
      StepInstalls(H, s, e);
      if |Run(H, INIT, es).installs| > |s.installs| {
        MayInstallIsTold(H, s, e, Run(H, INIT, es).installs[|s.installs|]);
      }
    }
  }

  // An installed file is genuine exactly when its length is the declared one,
  // which can be read off the staged file before the rename.
  lemma GenuineIff(H: Hash, es: seq<Event>, k: nat)
    requires k < |Run(H, INIT, es).installs| && Run(H, INIT, es).installs[k].target.Path?
    ensures
      var i := Run(H, INIT, es).installs[k];
      Genuine(H, i) <==> |i.content| == i.size
  {
    ReceiverInvariant(H, es);
    assert InstallTold(H, Run(H, INIT, es).installs[k]);
  }

  ghost predicate AllGenuine(H: Hash, s: State) {
    forall k :: 0 <= k < |s.installs| && (s.installs[k].target.Path? || s.installs[k].reported) ==>
      Genuine(H, s.installs[k])
  }

  lemma StepKeepsGenuine(H: Hash, s: State, e: Event)
    requires Staged(s.reg) && Every(s.reg, WindowedAt) && CopiesTold(H, s.reg) && AllGenuine(H, s)
    ensures AllGenuine(H, Step(H, s, e))
  {
    StepInstalls(H, s, e);
    var t := Step(H, s, e);
    if |t.installs| > |s.installs| {
      var i := t.installs[|s.installs|];
      MayInstallIsTold(H, s, e, i);
      if e.Finish? {
        SoundInstallIsGenuine(H, s, e, i);
      }
    }
  }

  // In a clean run that always holds.
  lemma {:induction false} CleanInstallsGenuine(H: Hash, es: seq<Event>)
    requires CleanRun(H, INIT, es)
    ensures AllGenuine(H, Run(H, INIT, es))
  {
    if es != [] {
      var front := es[..|es| - 1];
      CleanInstallsGenuine(H, front);
      CleanRunIff(H, front);
      AlwaysNow(H, front);
      ReceiverInvariant(H, front);
      StepKeepsGenuine(H, Run(H, INIT, front), es[|es| - 1]);
    }
  }

  lemma SoundInstallIsGenuine(H: Hash, s: State, e: Event, i: Install)
    requires Staged(s.reg) && e.Finish? && MayInstall(H, s, e, i)
    ensures Genuine(H, i)
  {
    var hand := s.reg.hands[e.gen];
    VerifiedSound(H, hand.download, hand.size, hand.checksum);
  }

  // No system call fails and the copy reads the staged file.
  predicate GoodCopy(c: Copy, world: Commit.World) {
    && world.sourceOpens && world.destinationOpens && Commit.Delivered(world.reading) == Some(c.content)
    && Commit.AllWrote(world.writes) && world.flushes && !world.sync.SyncFails?
  }

  // Into a document, the second verification catches what a failed restart left
  // behind: in every reachable state such a copy succeeds exactly when the staged
  // file has the declared length, and then the document is the staged file.
  lemma CopySucceedsIff(H: Hash, es: seq<Event>, id: Id, world: Commit.World)
    requires
      var s := Run(H, INIT, es);
      id in s.reg.copies && GoodCopy(s.reg.copies[id], world)
    ensures
      var s := Run(H, INIT, es);
      var c, t := s.reg.copies[id], Step(H, s, EndCopy(id, world));
      && (Commit.Copies(H, world, c.size, c.checksum) <==> |c.content| == c.size)
      && (|c.content| == c.size ==>
            t.installs == s.installs + [Install(id, c.target, c.content, c.size, c.checksum, true)])
  {
    ReceiverInvariant(H, es);
    var c := Run(H, INIT, es).reg.copies[id];
    Commit.CopiesIff(H, world, c.size, c.checksum, []);
  }

  // ---- A restart that could not truncate ----

  lemma RunSnoc(H: Hash, s: State, es: seq<Event>, e: Event)
    ensures Run(H, s, es + [e]) == Step(H, Run(H, s, es), e)
  {
    assert (es + [e])[..|es|] == es;
  }

  // A rename that works.
  const PLAIN: Commit.ReplaceIo := Commit.ReplaceIo(false, false, false, true, [Commit.Works])

  // One byte arrives, `FileDone` declares an empty file, the truncation fails,
  // and the second `FileDone` verifies: the stale byte is installed as the
  // empty file.
  function FailedTruncate(H: Hash): seq<Event> {
    var link := Link(0, Owner([], []));
    [Command(0, Acquire),
     Command(0, InsertDownload(Owner([], []), "remote", false, Path("local"))),
     Recv(link, FileChunk(1, 0, [7]), true),
     Recv(link, FileDone(1, 0, H([])), true),
     Finish(0, FinishIo(false, true, true, true, PLAIN)),
     Recv(link, FileDone(1, 0, H([])), true),
     Finish(0, FinishIo(true, true, true, true, PLAIN))]
  }

  function Blank(): Download {
    Fresh(Owner([], []), "remote", false, Path("local"))
  }

  function OneDownload(d: Download, outbox: seq<Out>): State {
    State(Registry(3, {}, map[1 := d], map[], map[], map[], map[], 2), [], outbox)
  }

  function OneHand(H: Hash, d: Download, outbox: seq<Out>): State {
    State(Registry(3, {}, map[], map[0 := Hand(1, d, 0, H([]))], map[], map[], map[], 2), [], outbox)
  }

  lemma DownloadStarts(H: Hash)
    ensures Step(H, Step(H, INIT, FailedTruncate(H)[0]), FailedTruncate(H)[1]) == OneDownload(Blank(), [])
  {
    var s := Step(H, INIT, FailedTruncate(H)[0]);
    assert s == State(INIT.reg.(free := 3, reserved := {0}), [], []);
    assert s.reg.reserved - {0} == {};
  }

  lemma ByteArrives(H: Hash)
    ensures Step(H, OneDownload(Blank(), []), FailedTruncate(H)[2]) == OneDownload(Accept(Blank(), [7]), [])
  {
    var s := OneDownload(Blank(), []);
    TotalRemove(s.reg.downloads, 1);
    assert s.reg.downloads - {1} == map[];
    assert s.reg.downloads[1 := Accept(Blank(), [7])] == map[1 := Accept(Blank(), [7])];
  }

  lemma DoneIsTaken(H: Hash, d: Download, outbox: seq<Out>)
    requires d.owner == Owner([], [])
    ensures Step(H, OneDownload(d, outbox), FailedTruncate(H)[3]) == OneHand(H, d, outbox)
  {
    assert OneDownload(d, outbox).reg.downloads - {1} == map[];
    assert OneDownload(d, outbox).reg.hands[0 := Hand(1, d, 0, H([]))] == map[0 := Hand(1, d, 0, H([]))];
  }

  lemma TruncateFails(H: Hash)
    ensures Step(H, OneHand(H, Accept(Blank(), [7]), []), FailedTruncate(H)[4])
            == OneDownload(Restart(Accept(Blank(), [7]), false, true), [Out(0, FileRetry(1, 0))])
  {
    var s := OneHand(H, Accept(Blank(), [7]), []);
    assert s.reg.hands - {0} == map[];
  }

  lemma FailedTruncateInstallsStaleBytes(H: Hash)
    ensures Run(H, INIT, FailedTruncate(H)).installs == [Install(1, Path("local"), [7], 0, H([]), true)]
  {
    var es := FailedTruncate(H);
    var stale := Restart(Accept(Blank(), [7]), false, true);
    DownloadStarts(H);
    ByteArrives(H);
    DoneIsTaken(H, Accept(Blank(), [7]), []);
    TruncateFails(H);
    DoneIsTaken(H, stale, [Out(0, FileRetry(1, 0))]);
    assert stale.file.content == [7];
    RunOfFour(H, INIT, es[0], es[1], es[2], es[3]);
    RunOfSeven(H, INIT, es);
  }

  lemma RunOfFour(H: Hash, s: State, a: Event, b: Event, c: Event, d: Event)
    ensures Run(H, s, [a, b, c, d]) == Step(H, Step(H, Step(H, Step(H, s, a), b), c), d)
  {
    RunSnoc(H, s, [], a);
    RunSnoc(H, s, [a], b);
    RunSnoc(H, s, [a, b], c);
    RunSnoc(H, s, [a, b, c], d);
    assert [] + [a] == [a] && [a] + [b] == [a, b] && [a, b] + [c] == [a, b, c] && [a, b, c] + [d] == [a, b, c, d];
  }

  lemma RunOfSeven(H: Hash, s: State, es: seq<Event>)
    requires |es| == 7
    ensures Run(H, s, es) ==
      Step(H, Step(H, Step(H, Run(H, s, [es[0], es[1], es[2], es[3]]), es[4]), es[5]), es[6])
  {
    var four := [es[0], es[1], es[2], es[3]];
    RunSnoc(H, s, four, es[4]);
    RunSnoc(H, s, four + [es[4]], es[5]);
    RunSnoc(H, s, four + [es[4]] + [es[5]], es[6]);
    assert four + [es[4]] + [es[5]] + [es[6]] == es;
  }
}
