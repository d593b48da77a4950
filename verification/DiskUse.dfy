// How much of the phone's disk downloads can take. The 6 GiB limit counts what
// registered downloads wrote in their current attempt (app/src-tauri/src/lib.rs:
// 54-57, 1758). Files in a `FileDone` arm, files being copied into documents, the
// documents themselves and what failed restarts left behind come on top.
module DiskUse {
  import opened Bytes
  import opened Downloads
  import opened Transfers
  import opened TransferSafety
  import opened Receiver
  import opened EndToEnd
  import opened Limits
  import Commit

  ghost function Sum(m: map<nat, nat>): nat {
    if m == map[] then 0
    else
      var k :| k in m;
      m[k] + Sum(m - {k})
  }

  lemma OneMore(b: nat, n: nat)
    ensures b * (n + 1) == b * n + b
  {
  }

  lemma {:induction false} SumBetween(m: map<nat, nat>, low: nat, high: nat)
    requires forall k :: k in m ==> low <= m[k] <= high
    ensures low * |m| <= Sum(m) <= high * |m|
    decreases |m|
  {
    if m != map[] {
      var k :| k in m && Sum(m) == m[k] + Sum(m - {k});
      MapCounts(m, k, 0);
      SumBetween(m - {k}, low, high);
      OneMore(low, |m - {k}|);
      OneMore(high, |m - {k}|);
    }
  }

  // ---- The files ----

  function InDownloads(r: Registry): (m: map<nat, nat>)
    ensures |m| == |r.downloads|
  {
    var m := map id | id in r.downloads :: |r.downloads[id].file.content|;
    assert m.Keys == r.downloads.Keys;
    m
  }

  function InHands(r: Registry): (m: map<nat, nat>)
    ensures |m| == |r.hands|
  {
    var m := map g | g in r.hands :: |r.hands[g].download.file.content|;
    assert m.Keys == r.hands.Keys;
    m
  }

  function InCopies(r: Registry): (m: map<nat, nat>)
    ensures |m| == |r.copies|
  {
    var m := map id | id in r.copies :: |r.copies[id].content|;
    assert m.Keys == r.copies.Keys;
    m
  }

  // How far a copy is: the reads and writes it has made.
  datatype Calls = Calls(reading: seq<Commit.Read>, writes: seq<Commit.Write>)

  function InDocuments(r: Registry, calls: Id -> Calls): (m: map<nat, nat>)
    ensures |m| == |r.copies|
  {
    var m := map id | id in r.copies ::
      |Commit.Copied(calls(id).reading, calls(id).writes, r.copies[id].size).destination|;
    assert m.Keys == r.copies.Keys;
    m
  }

  // The bytes in all staging files.
  ghost function StagedBytes(r: Registry): nat {
    Sum(InDownloads(r)) + Sum(InHands(r)) + Sum(InCopies(r))
  }

  // And in the documents that are being written, wherever their copies are.
  ghost function OnDisk(r: Registry, calls: Id -> Calls): nat {
    StagedBytes(r) + Sum(InDocuments(r, calls))
  }

  // ---- No more than 80 GiB ----

  ghost predicate CopiesWithin(r: Registry) {
    forall id :: id in r.copies ==> r.copies[id].size <= MAX_DOWNLOAD_BYTES
  }

  lemma FinishKeepsWithin(H: Hash, s: State, gen: nat, io: FinishIo)
    requires CopiesWithin(s.reg) && BudgetOk(s.reg)
    ensures CopiesWithin(FinishDone(H, s, gen, io).reg)
  {
    if gen in s.reg.hands {
      assert WithinBudget(s.reg.hands[gen].download);
    }
  }

  lemma StepKeepsWithin(H: Hash, s: State, e: Event)
    requires CopiesWithin(s.reg) && BudgetOk(s.reg)
    ensures CopiesWithin(Step(H, s, e).reg)
  {
    if e.Finish? {
      FinishKeepsWithin(H, s, e.gen, e.io);
    } else if e.EndCopy? {
      assert CopiesWithin(DropCopy(s.reg, e.id));
    } else {
      assert Step(H, s, e).reg.copies == s.reg.copies;
    }
  }

  lemma {:induction false} RunKeepsWithin(H: Hash, es: seq<Event>)
    ensures CopiesWithin(Run(H, INIT, es).reg)
  {
    if es != [] {
      var s, e := Run(H, INIT, es[..|es| - 1]), es[|es| - 1];
      RunKeepsWithin(H, es[..|es| - 1]);
      RunIsSafe(H, es[..|es| - 1]);
      StepKeepsWithin(H, s, e);
    }
  }

  // No staging file is longer than b.
  ghost predicate Shorter(r: Registry, b: nat) {
    && (forall id :: id in r.downloads ==> |r.downloads[id].file.content| <= b)
    && (forall g :: g in r.hands ==> |r.hands[g].download.file.content| <= b)
    && (forall id :: id in r.copies ==> |r.copies[id].content| <= b)
  }

  lemma RunIsShorter(H: Hash, es: seq<Event>)
    ensures Shorter(Run(H, INIT, es).reg, 17179869184)
  {
    var r := Run(H, INIT, es).reg;
    forall id | id in r.downloads ensures |r.downloads[id].file.content| <= 17179869184 {
      StagedIsAccepted(H, es, id);
    }
    forall g | g in r.hands ensures |r.hands[g].download.file.content| <= 17179869184 {
      StagedIsAccepted(H, es, r.hands[g].id);
    }
    forall id | id in r.copies ensures |r.copies[id].content| <= 17179869184 {
      StagedIsAccepted(H, es, id);
    }
  }

  // At most four files of at most b bytes.
  lemma FourFiles(r: Registry, b: nat)
    requires SlotsOk(r) && Shorter(r, b)
    ensures StagedBytes(r) <= 4 * b
  {
    SumBetween(InDownloads(r), 0, b);
    SumBetween(InHands(r), 0, b);
    SumBetween(InCopies(r), 0, b);
    FourTimes(|r.downloads|, |r.hands|, |r.copies|, b);
  }

  lemma FourTimes(x: nat, y: nat, z: nat, b: nat)
    requires x + y + z <= 4
    ensures b * x + b * y + b * z <= 4 * b
  {
    assert b * x + b * y + b * z == b * (x + y + z);
    assert 0 <= b * (4 - (x + y + z));
  }

  lemma FourDocuments(r: Registry, calls: Id -> Calls)
    requires SlotsOk(r) && CopiesWithin(r)
    ensures Sum(InDocuments(r, calls)) <= 17179869184
  {
    forall id | id in r.copies ensures InDocuments(r, calls)[id] <= 4294967296 {
      Commit.CopiedIsDelivered(calls(id).reading, calls(id).writes, r.copies[id].size);
    }
    SumBetween(InDocuments(r, calls), 0, 4294967296);
  }

  // On every run, whatever the peers send and whichever calls fail: at most 16 GiB
  // in each of four staging files, and 4 GiB in each document on top.
  lemma DiskBound(H: Hash, es: seq<Event>, calls: Id -> Calls)
    ensures StagedBytes(Run(H, INIT, es).reg) <= 68719476736
    ensures OnDisk(Run(H, INIT, es).reg, calls) <= 85899345920
  {
    RunIsSafe(H, es);
    RunKeepsWithin(H, es);
    RunIsShorter(H, es);
    FourFiles(Run(H, INIT, es).reg, 17179869184);
    FourDocuments(Run(H, INIT, es).reg, calls);
  }

  // ---- When no restart fails ----

  ghost predicate CopiesExact(r: Registry) {
    forall id :: id in r.copies ==> |r.copies[id].content| == r.copies[id].size
  }

  lemma StepKeepsExact(H: Hash, s: State, e: Event)
    requires CopiesExact(s.reg) && Staged(s.reg)
    ensures CopiesExact(Step(H, s, e).reg)
  {
    if e.Finish? {
      if e.gen in s.reg.hands {
        assert SoundAt(s.reg.hands[e.gen].id, s.reg.hands[e.gen].download);
      }
    } else if e.EndCopy? {
      assert CopiesExact(DropCopy(s.reg, e.id));
    } else {
      assert Step(H, s, e).reg.copies == s.reg.copies;
    }
  }

  lemma {:induction false} CleanRunKeepsExact(H: Hash, es: seq<Event>)
    requires CleanRun(H, INIT, es)
    ensures CopiesExact(Run(H, INIT, es).reg) && Staged(Run(H, INIT, es).reg)
  {
    CleanRunIff(H, es);
    AlwaysNow(H, es);
    if es != [] {
      var front := es[..|es| - 1];
      CleanRunKeepsExact(H, front);
      StepKeepsExact(H, Run(H, INIT, front), es[|es| - 1]);
    }
  }

  lemma CleanIsShorter(r: Registry)
    requires Staged(r) && CopiesExact(r) && CopiesWithin(r) && BudgetOk(r)
    ensures Shorter(r, 4294967296)
  {
    forall id | id in r.downloads ensures |r.downloads[id].file.content| <= 4294967296 {
      assert SoundAt(id, r.downloads[id]);
    }
    forall g | g in r.hands ensures |r.hands[g].download.file.content| <= 4294967296 {
      assert SoundAt(r.hands[g].id, r.hands[g].download);
    }
  }

  lemma CleanDiskBound(H: Hash, es: seq<Event>, calls: Id -> Calls)
    requires CleanRun(H, INIT, es)
    ensures StagedBytes(Run(H, INIT, es).reg) <= 17179869184
    ensures OnDisk(Run(H, INIT, es).reg, calls) <= 34359738368
  {
    var r := Run(H, INIT, es).reg;
    CleanRunKeepsExact(H, es);
    RunIsSafe(H, es);
    RunKeepsWithin(H, es);
    CleanIsShorter(r);
    FourFiles(r, 4294967296);
    FourDocuments(r, calls);
  }

  // ---- And that much is reached ----

  const ME: Link := Link(0, Owner([], []))
  const FRESH: Download := Fresh(Owner([], []), "remote", false, Document("document"))

  // All calls of a `FileDone` arm work, or truncating and rewinding do not.
  const GOOD: FinishIo := FinishIo(true, true, true, true, PLAIN)
  const BAD: FinishIo := FinishIo(false, false, true, true, PLAIN)

  // n files of 4 GiB are being copied into documents, each after w wasted attempts
  // that are still staged before it, and there is nothing else.
  ghost predicate Full(r: Registry, n: nat, w: nat) {
    && r.downloads == map[] && r.hands == map[] && r.reserved == {} && r.uploads == map[]
    && r.free + n == 4 && r.nextId == n + 1 && |r.copies| == n
    && forall id :: id in r.copies ==>
      id <= n && r.copies[id].size == 4294967296 && |r.copies[id].content| == (w + 1) * 4294967296
  }

  // A new attempt, after k that left all their bytes.
  predicate Wasted(d: Download, k: nat) {
    && d == FRESH.(restarts := k, file := d.file)
    && d.file.pos == |d.file.content| == k * 4294967296
  }

  const BEGIN: seq<Event> :=
    [] + [Command(0, Acquire)] + [Command(0, InsertDownload(Owner([], []), "remote", false, Document("document")))]

  function Begun(r: Registry): Registry {
    r.(free := if r.free > 0 then r.free - 1 else 0,
       downloads := r.downloads[r.nextId := FRESH], nextId := r.nextId + 1)
  }

  lemma BeginRegisters(H: Hash, s: State)
    requires s.reg.free > 0 && s.reg.reserved == {} && s.reg.nextId < PROBE_ID_BIT
    ensures Run(H, s, BEGIN) == With(s, Begun(s.reg))
  {
    var acquired := With(s, s.reg.(free := s.reg.free - 1, reserved := {0}));
    RunSnoc(H, s, [], Command(0, Acquire));
    assert Run(H, s, [] + [Command(0, Acquire)]) == acquired;
    RunSnoc(H, s, [] + [Command(0, Acquire)],
            Command(0, InsertDownload(Owner([], []), "remote", false, Document("document"))));
    assert {0} - {0} == {};
  }

  lemma AloneIsReady(s: State, id: Id, file: Bytes)
    requires s.reg.downloads == map[id := FRESH] && s.reg.hands == map[] && id < PROBE_ID_BIT
    requires |file| <= MAX_DOWNLOAD_BYTES
    ensures Ready(s, ME, id, file)
  {
    TotalRemove(s.reg.downloads, id);
    assert s.reg.downloads - {id} == map[];
    ChunksTile(file, 0);
  }

  // A pass over a 4 GiB file appends it to what is staged.
  lemma PassAppends(d: Download, file: Bytes, k: nat)
    requires Wasted(d, k) && |file| == 4294967296
    ensures
      var v := AcceptChunks(d, file, ChunkCount(file));
      v.written == |file| && v.file.pos == |v.file.content| == (k + 1) * 4294967296
  {
    ChunksTile(file, 0);
    AcceptedChunks(d, file, ChunkCount(file));
    ChunksTile(file, ChunkCount(file));
  }

  // All chunks, a final frame that does not fit them, and a failing restart.
  function Waste(id: Id, file: Bytes): seq<Event> {
    ChunkEvents(ME, id, file, 0, ChunkCount(file)) + [Recv(ME, FileDone(id, |file| + 1, []), true)] + [Finish(0, BAD)]
  }

  // From s to t nothing happened but k wasted attempts of one download.
  ghost predicate OnlyWasted(s: State, t: State, id: Id, file: Bytes, k: nat) {
    Ready(t, ME, id, file) && Wasted(t.reg.downloads[id], k) && t.reg == Put(s.reg, id, t.reg.downloads[id])
  }

  lemma WasteStays(H: Hash, s: State, id: Id, file: Bytes, k: nat)
    requires Ready(s, ME, id, file) && Wasted(s.reg.downloads[id], k) && k < 3 && |file| == 4294967296
    ensures OnlyWasted(s, Run(H, s, Waste(id, file)), id, file, k + 1)
  {
    var n := ChunkCount(file);
    var d := s.reg.downloads[id];
    RunPass(H, s, ME, id, file, 0, n, Recv(ME, FileDone(id, |file| + 1, []), true), Finish(0, BAD));
    StaysReady(s, ME, id, file, n);
    PassAppends(d, file, k);
    WrongDoneRestarts(H, Advanced(s, id, file, n), ME, id, file, |file| + 1, [], BAD);
    PutTwice(s, id, AcceptChunks(d, file, n), Restart(AcceptChunks(d, file, n), false, false));
  }

  lemma OnceMoreWasted(s: State, t: State, u: State, id: Id, file: Bytes, k: nat)
    requires OnlyWasted(s, t, id, file, k) && OnlyWasted(t, u, id, file, k + 1)
    ensures OnlyWasted(s, u, id, file, k + 1)
  {
    PutTwice(s, id, t.reg.downloads[id], u.reg.downloads[id]);
  }

  function Wastes(id: Id, file: Bytes, w: nat): seq<Event> {
    if w == 0 then [] else Wastes(id, file, w - 1) + Waste(id, file)
  }

  lemma {:induction false} WastesStay(H: Hash, s: State, id: Id, file: Bytes, w: nat)
    requires Ready(s, ME, id, file) && Wasted(s.reg.downloads[id], 0) && w <= 3 && |file| == 4294967296
    ensures OnlyWasted(s, Run(H, s, Wastes(id, file, w)), id, file, w)
  {
    if w == 0 {
      PutSame(s, id);
    } else {
      var t := Run(H, s, Wastes(id, file, w - 1));
      WastesStay(H, s, id, file, w - 1);
      WasteStays(H, t, id, file, w - 1);
      OnceMoreWasted(s, t, Run(H, t, Waste(id, file)), id, file, w - 1);
      RunJoin(H, s, Wastes(id, file, w - 1), Waste(id, file));
    }
  }

  // The complete pass after them, and its copy begins.
  lemma CopyBegins(H: Hash, s: State, id: Id, file: Bytes, w: nat)
    requires Ready(s, ME, id, file) && Wasted(s.reg.downloads[id], w) && |file| == 4294967296
    ensures
      var u := Run(H, s, ResumedPass(H, ME, id, file, 0, GOOD));
      && id in u.reg.copies && u.reg.copies[id].size == 4294967296
      && |u.reg.copies[id].content| == (w + 1) * 4294967296
      && u.reg == s.reg.(downloads := s.reg.downloads - {id}, copies := s.reg.copies[id := u.reg.copies[id]])
  {
    var n := ChunkCount(file);
    var t := Advanced(s, id, file, n);
    RunPass(H, s, ME, id, file, 0, n, DoneEvent(H, ME, id, file), Finish(0, GOOD));
    StaysReady(s, ME, id, file, n);
    PassAppends(s.reg.downloads[id], file, w);
    CompletePassFinishes(H, t, ME, id, file, GOOD);
    assert t.reg.downloads - {id} == s.reg.downloads - {id};
  }

  function OneFile(H: Hash, id: Id, file: Bytes, w: nat): seq<Event> {
    BEGIN + Wastes(id, file, w) + ResumedPass(H, ME, id, file, 0, GOOD)
  }

  lemma OneMoreCopy(H: Hash, s: State, file: Bytes, n: nat, w: nat)
    requires Full(s.reg, n, w) && n < 4 && w <= 3 && |file| == 4294967296
    ensures Full(Run(H, s, OneFile(H, n + 1, file, w)).reg, n + 1, w)
  {
    var id := n + 1;
    BeginRegisters(H, s);
    var s1 := Run(H, s, BEGIN);
    assert s1.reg.downloads == map[id := FRESH];
    AloneIsReady(s1, id, file);
    WastesStay(H, s1, id, file, w);
    RunJoin(H, s, BEGIN, Wastes(id, file, w));
    var s2 := Run(H, s1, Wastes(id, file, w));
    CopyBegins(H, s2, id, file, w);
    RunJoin(H, s, BEGIN + Wastes(id, file, w), ResumedPass(H, ME, id, file, 0, GOOD));
    OneMoreIsFull(s.reg, s2.reg, Run(H, s2, ResumedPass(H, ME, id, file, 0, GOOD)).reg, n, w);
  }

  lemma OneMoreIsFull(r: Registry, r2: Registry, t: Registry, n: nat, w: nat)
    requires Full(r, n, w) && n < 4 && n + 1 in t.copies && n + 1 in r2.downloads
    requires r2 == Put(Begun(r), n + 1, r2.downloads[n + 1])
    requires t == r2.(downloads := r2.downloads - {n + 1}, copies := r2.copies[n + 1 := t.copies[n + 1]])
    requires t.copies[n + 1].size == 4294967296 && |t.copies[n + 1].content| == (w + 1) * 4294967296
    ensures Full(t, n + 1, w)
  {
    MapCounts(r.copies, n + 1, t.copies[n + 1]);
    assert t.downloads == map[];
  }

  function Files(H: Hash, file: Bytes, n: nat, w: nat): seq<Event> {
    if n == 0 then [] else Files(H, file, n - 1, w) + OneFile(H, n, file, w)
  }

  lemma {:induction false} FilesFill(H: Hash, file: Bytes, n: nat, w: nat)
    requires n <= 4 && w <= 3 && |file| == 4294967296
    ensures Full(Run(H, INIT, Files(H, file, n, w)).reg, n, w)
  {
    if n > 0 {
      var front := Files(H, file, n - 1, w);
      FilesFill(H, file, n - 1, w);
      OneMoreCopy(H, Run(H, INIT, front), file, n - 1, w);
      RunJoin(H, INIT, front, OneFile(H, n, file, w));
    }
  }

  // A copy that has read the first n buffers of its staging file.
  function Pieces(content: Bytes, n: nat): (rs: seq<Commit.Read>)
    requires n * 65536 <= |content|
    ensures forall k :: 0 <= k < |rs| ==> rs[k].Data? && |rs[k].bytes| == Commit.COPY_BUFFER_BYTES
  {
    if n == 0 then [] else Pieces(content, n - 1) + [Commit.Data(content[(n - 1) * 65536..n * 65536])]
  }

  lemma {:induction false} PiecesAreCopied(content: Bytes, n: nat, size: nat)
    requires n * 65536 <= |content| && n * 65536 <= size
    ensures Commit.Copied(Pieces(content, n), [], size) == Commit.Progress(content[..n * 65536], n, false)
    ensures Commit.Delivered(Pieces(content, n)) == Some(content[..n * 65536])
  {
    if n > 0 {
      PiecesAreCopied(content, n - 1, size);
      assert Pieces(content, n)[..|Pieces(content, n)| - 1] == Pieces(content, n - 1);
      PrefixGrows(content, (n - 1) * 65536, 65536);
    }
  }

  // A copy has read whole buffers from the start of its staging file, and no write
  // has failed.
  predicate Follows(c: Copy, calls: Calls) {
    var delivered := Commit.Delivered(calls.reading);
    && calls.writes == [] && delivered.Some? && delivered.value <= c.content
    && forall k :: 0 <= k < |calls.reading| ==>
      calls.reading[k].Data? && |calls.reading[k].bytes| == Commit.COPY_BUFFER_BYTES
  }

  ghost predicate AllFollow(r: Registry, calls: Id -> Calls) {
    forall id :: id in r.copies ==> Follows(r.copies[id], calls(id))
  }

  // When each of them is at the size that was verified.
  function AllRead(r: Registry): Id -> Calls {
    id =>
      if id in r.copies && |r.copies[id].content| >= 4294967296 then Calls(Pieces(r.copies[id].content, 65536), [])
      else Calls([], [])
  }

  lemma PiecesFollow(c: Copy)
    requires |c.content| >= 4294967296
    ensures Follows(c, Calls(Pieces(c.content, 65536), []))
  {
    PiecesAreCopied(c.content, 65536, 4294967296);
  }

  lemma FullFollows(r: Registry, w: nat)
    requires Full(r, 4, w)
    ensures AllFollow(r, AllRead(r))
  {
    forall id | id in r.copies ensures Follows(r.copies[id], AllRead(r)(id)) {
      PiecesFollow(r.copies[id]);
    }
  }

  lemma FullDocuments(r: Registry, w: nat)
    requires Full(r, 4, w)
    ensures Sum(InDocuments(r, AllRead(r))) == 17179869184
  {
    forall id | id in r.copies ensures InDocuments(r, AllRead(r))[id] == 4294967296 {
      PiecesAreCopied(r.copies[id].content, 65536, 4294967296);
    }
    SumBetween(InDocuments(r, AllRead(r)), 4294967296, 4294967296);
  }

  lemma FullUse(r: Registry, w: nat)
    requires Full(r, 4, w)
    ensures StagedBytes(r) == 4 * ((w + 1) * 4294967296)
    ensures OnDisk(r, AllRead(r)) == StagedBytes(r) + 17179869184 && AllFollow(r, AllRead(r))
  {
    SumBetween(InCopies(r), (w + 1) * 4294967296, (w + 1) * 4294967296);
    assert InDownloads(r) == map[] == InHands(r);
    FullFollows(r, w);
    FullDocuments(r, w);
  }

  // Both bounds are exact: four files of 4 GiB, each after three attempts whose
  // bytes stayed, and each read as far as it is copied.
  lemma DiskBoundIsReached(H: Hash) returns (es: seq<Event>, calls: Id -> Calls)
    ensures
      var r := Run(H, INIT, es).reg;
      StagedBytes(r) == 68719476736 && OnDisk(r, calls) == 85899345920 && AllFollow(r, calls)
  {
    var file: Bytes := seq(4294967296, i => 0);
    es := Files(H, file, 4, 3);
    FilesFill(H, file, 4, 3);
    calls := AllRead(Run(H, INIT, es).reg);
    FullUse(Run(H, INIT, es).reg, 3);
  }

  // No restart in it can fail.
  predicate NoFailure(es: seq<Event>) {
    forall k :: 0 <= k < |es| && es[k].Finish? ==> es[k].io.setLenOk && es[k].io.seekOk
  }

  lemma {:induction false} NoFailureIsClean(H: Hash, s: State, es: seq<Event>)
    requires NoFailure(es)
    ensures CleanRun(H, s, es)
  {
    if es != [] {
      NoFailureIsClean(H, s, es[..|es| - 1]);
    }
  }

  lemma {:induction false} FilesWork(H: Hash, file: Bytes, n: nat)
    ensures NoFailure(Files(H, file, n, 0))
  {
    if n > 0 {
      FilesWork(H, file, n - 1);
      assert NoFailure(OneFile(H, n, file, 0));
    }
  }

  // So are both for clean runs: the same four files, fetched at once.
  lemma CleanBoundIsReached(H: Hash) returns (es: seq<Event>, calls: Id -> Calls)
    ensures CleanRun(H, INIT, es)
    ensures
      var r := Run(H, INIT, es).reg;
      StagedBytes(r) == 17179869184 && OnDisk(r, calls) == 34359738368 && AllFollow(r, calls)
  {
    var file: Bytes := seq(4294967296, i => 0);
    es := Files(H, file, 4, 0);
    FilesFill(H, file, 4, 0);
    FilesWork(H, file, 4);
    NoFailureIsClean(H, INIT, es);
    calls := AllRead(Run(H, INIT, es).reg);
    FullUse(Run(H, INIT, es).reg, 0);
  }
}
