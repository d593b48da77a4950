// What the phone asks for after a gap or on a new link, and what the host's answer
// to exactly that request brings about (app/src-tauri/src/lib.rs:1173-1185,
// 1769-1779; crates/host/src/file_transfer.rs:351-400, 640-650).
module Recovery {
  import opened Bytes
  import opened Downloads
  import opened Transfers
  import opened Receiver
  import opened EndToEnd
  import opened Streams
  import Commit

  // The frames arrive, in order.
  function Deliver(link: Link, frames: seq<Frame>): seq<Event> {
    seq(|frames|, i requires 0 <= i < |frames| => Recv(link, frames[i], true))
  }

  lemma DeliveredChunks(link: Link, id: Id, file: Bytes, from: nat)
    requires from <= ChunkCount(file)
    ensures Deliver(link, ChunkFrames(id, file, from)) ==
            ChunkEvents(link, id, file, from, ChunkCount(file) - from)
  {
  }

  lemma DeliveredPass(H: Hash, link: Link, id: Id, file: Bytes, from: nat, io: FinishIo)
    requires from <= ChunkCount(file)
    ensures Deliver(link, PassFrames(H, id, file, from)) + [Finish(link.gen, io)] ==
            ResumedPass(H, link, id, file, from, io)
  {
    DeliveredChunks(link, id, file, from);
  }

  // ---- What is asked for ----

  // The request that a step posted for a download, if it posted one.
  ghost predicate Asked(s: State, t: State, link: Link, frame: Frame) {
    t.outbox == s.outbox + [Out(link.gen, frame)] && t.reg == s.reg && t.installs == s.installs
  }

  // A chunk out of order is not written. The phone asks for a chunk from which the
  // rest of the file, delivered in order, is accepted to its last chunk.
  lemma GapIsHealed(H: Hash, s: State, link: Link, id: Id, file: Bytes, seqNo: nat, bytes: Bytes, writeOk: bool)
    returns (from: nat)
    requires Ready(s, link, id, file) && seqNo != s.reg.downloads[id].nextSeq
    ensures from <= ChunkCount(file)
    ensures
      var t := Step(H, s, Recv(link, FileChunk(id, seqNo, bytes), writeOk));
      var u := Run(H, t, Deliver(link, ChunkFrames(id, file, from)));
      && Asked(s, t, link, FileRetry(id, from))
      && id in u.reg.downloads && u.reg.downloads[id].nextSeq == ChunkCount(file)
  {
    from := s.reg.downloads[id].nextSeq;
    var t := Step(H, s, Recv(link, FileChunk(id, seqNo, bytes), writeOk));
    DeliveredChunks(link, id, file, from);
    ChunksAreAccepted(H, t, link, id, file, ChunkCount(file) - from);
  }

  // On a new link of its pairing an interrupted download is asked for under its own
  // path and with its own permission; anyone else's is not asked for at all.
  lemma ResumeAsks(H: Hash, s: State, link: Link, id: Id)
    ensures
      var t := Step(H, s, Resume(link, id));
      if id in s.reg.downloads && s.reg.downloads[id].owner == link.owner then
        var d := s.reg.downloads[id];
        Asked(s, t, link, FileGetReq(id, d.remotePath, d.nextSeq, d.allowOutsideHome))
      else t == s
  {
  }

  // ---- What the host answers ----

  // The chunk asked for does not begin past the end of the file.
  predicate WithinFile(file: Bytes, from: nat) {
    from < ChunkCount(file) || |file| % 16384 == 0
  }

  // The host sends the pass from that chunk exactly then; otherwise it refuses.
  lemma AnswerIs(H: Hash, id: Id, file: Bytes, from: nat)
    requires from <= ChunkCount(file)
    ensures HostAnswer(H, id, true, file, |file|, from, None, false) ==
            if WithinFile(file, from) then PassFrames(H, id, file, from) else [FileErr(id)]
  {
    if from * 16384 <= |file| {
      AnswerIsPass(H, id, file, from);
    }
  }

  // The answer of a host that serves the file arrives and is handled.
  function Answered(H: Hash, link: Link, id: Id, file: Bytes, from: nat, io: FinishIo): seq<Event> {
    Deliver(link, HostAnswer(H, id, true, file, |file|, from, None, false)) + [Finish(link.gen, io)]
  }

  // The transfer is given up: its entry is gone and its slot is free.
  ghost predicate GivenUp(s: State, u: State, id: Id) {
    id !in u.reg.downloads && u.reg.free == s.reg.free + 1 && u.installs == s.installs && u.reg.copies == s.reg.copies
  }

  lemma RefusalGivesUp(H: Hash, s: State, link: Link, id: Id, file: Bytes, io: FinishIo)
    requires Ready(s, link, id, file) && id !in s.reg.uploads
    ensures GivenUp(s, Run(H, s, Deliver(link, [FileErr(id)]) + [Finish(link.gen, io)]), id)
  {
    var e := Recv(link, FileErr(id), true);
    assert Deliver(link, [FileErr(id)]) == [e];
    RunOfTwo(H, s, e, Finish(link.gen, io));
    ErrGivesUp(H, s, link, id, file);
  }

  lemma RunOfTwo(H: Hash, s: State, a: Event, b: Event)
    ensures Run(H, s, [a] + [b]) == Step(H, Step(H, s, a), b)
  {
    RunSnoc(H, s, [], a);
    assert [] + [a] == [a];
    RunSnoc(H, s, [a], b);
  }

  lemma ErrGivesUp(H: Hash, s: State, link: Link, id: Id, file: Bytes)
    requires Ready(s, link, id, file) && id !in s.reg.uploads
    ensures Step(H, s, Recv(link, FileErr(id), true)) == With(s, Forget(s.reg, id))
  {
  }

  // The answer to a request for the first missing chunk ends the transfer as the
  // resumed pass does exactly when that chunk is within the file. When all chunks
  // are there and the last one is short, the host refuses, and the complete
  // download is given up.
  lemma AnswerEndsIff(H: Hash, s: State, link: Link, id: Id, file: Bytes, from: nat, io: FinishIo)
    returns (content: Bytes)
    requires Ready(s, link, id, file) && id !in s.reg.uploads && from == s.reg.downloads[id].nextSeq
    requires io.flushOk && io.syncOk && Commit.InstallsNew(io.replace)
    ensures
      var d, u := s.reg.downloads[id], Run(H, s, Answered(H, link, id, file, from, io));
      if WithinFile(file, from)
      then PassEnds(s, u, d, id, content, |file|, H(file), Commit.ReportsInstalled(io.replace))
      else GivenUp(s, u, id)
    ensures content == file <==> NothingStale(file, s.reg.downloads[id])
  {
    AnswerIs(H, id, file, from);
    content := ResumedPassIff(H, s, link, id, file, io);
    if WithinFile(file, from) {
      DeliveredPass(H, link, id, file, from, io);
    } else {
      RefusalGivesUp(H, s, link, id, file, io);
    }
  }

  // ---- Request and answer together ----

  // What a new link asks for, answered by its host.
  lemma ResumeCompletesIff(H: Hash, s: State, link: Link, id: Id, file: Bytes, io: FinishIo)
    returns (from: nat, content: Bytes)
    requires Ready(s, link, id, file) && id !in s.reg.uploads
    requires io.flushOk && io.syncOk && Commit.InstallsNew(io.replace)
    ensures
      var d, t := s.reg.downloads[id], Step(H, s, Resume(link, id));
      var u := Run(H, t, Answered(H, link, id, file, from, io));
      && Asked(s, t, link, FileGetReq(id, d.remotePath, from, d.allowOutsideHome))
      && if WithinFile(file, from)
        then PassEnds(s, u, d, id, content, |file|, H(file), Commit.ReportsInstalled(io.replace))
        else GivenUp(s, u, id)
    ensures content == file <==> NothingStale(file, s.reg.downloads[id])
  {
    from := s.reg.downloads[id].nextSeq;
    var t := Step(H, s, Resume(link, id));
    ResumeAsks(H, s, link, id);
    content := AnswerEndsIff(H, t, link, id, file, from, io);
  }

  // What a gap makes the phone ask for, answered by its host.
  lemma GapCompletesIff(
    H: Hash, s: State, link: Link, id: Id, file: Bytes, seqNo: nat, bytes: Bytes, writeOk: bool, io: FinishIo)
    returns (from: nat, content: Bytes)
    requires Ready(s, link, id, file) && id !in s.reg.uploads && seqNo != s.reg.downloads[id].nextSeq
    requires io.flushOk && io.syncOk && Commit.InstallsNew(io.replace)
    ensures
      var d, t := s.reg.downloads[id], Step(H, s, Recv(link, FileChunk(id, seqNo, bytes), writeOk));
      var u := Run(H, t, Answered(H, link, id, file, from, io));
      && Asked(s, t, link, FileRetry(id, from))
      && if WithinFile(file, from)
        then PassEnds(s, u, d, id, content, |file|, H(file), Commit.ReportsInstalled(io.replace))
        else GivenUp(s, u, id)
    ensures content == file <==> NothingStale(file, s.reg.downloads[id])
  {
    from := s.reg.downloads[id].nextSeq;
    var t := Step(H, s, Recv(link, FileChunk(id, seqNo, bytes), writeOk));
    content := AnswerEndsIff(H, t, link, id, file, from, io);
  }

  // What a failed verification makes the phone ask for, answered by its host: the
  // whole file again, whatever was declared and whatever the restart could not undo.
  lemma RestartCompletes(
    H: Hash, s: State, link: Link, id: Id, file: Bytes, size: nat, checksum: Digest, bad: FinishIo, io: FinishIo)
    returns (from: nat, content: Bytes)
    requires Ready(s, link, id, file) && id !in s.reg.uploads && !Verified(H, s.reg.downloads[id], size, checksum)
    requires s.reg.downloads[id].restarts < MAX_DOWNLOAD_RESTARTS
    requires io.flushOk && io.syncOk && Commit.InstallsNew(io.replace)
    ensures
      var d := s.reg.downloads[id];
      var t := Step(H, Step(H, s, Recv(link, FileDone(id, size, checksum), true)), Finish(link.gen, bad));
      var u := Run(H, t, Answered(H, link, id, file, from, io));
      && t.outbox == s.outbox + [Out(link.gen, FileRetry(id, from))]
      && PassEnds(s, u, d, id, content, |file|, H(file), Commit.ReportsInstalled(io.replace))
      && (content == file <==>
            && (bad.seekOk || d.file.pos == 0 || file == [])
            && (bad.setLenOk || |d.file.content| <= |file|))
  {
    from := 0;
    var t := Step(H, Step(H, s, Recv(link, FileDone(id, size, checksum), true)), Finish(link.gen, bad));
    WrongDoneRestarts(H, s, link, id, file, size, checksum, bad);
    content := AnswerEndsIff(H, t, link, id, file, from, io);
  }

  // After the third restart the host is told that the transfer is over.
  lemma NoFourthRestart(H: Hash, s: State, link: Link, id: Id, file: Bytes, size: nat, checksum: Digest, bad: FinishIo)
    requires Ready(s, link, id, file) && !Verified(H, s.reg.downloads[id], size, checksum)
    requires s.reg.downloads[id].restarts == MAX_DOWNLOAD_RESTARTS
    ensures
      var t := Step(H, Step(H, s, Recv(link, FileDone(id, size, checksum), true)), Finish(link.gen, bad));
      GivenUp(s, t, id) && t.outbox == s.outbox + [Out(link.gen, FileErr(id))]
  {
  }

  // For every file whose last chunk is short there is a run from start-up in which
  // an honest host serves all of it, only its final frame is lost, and the resumed
  // download is given up.
  lemma LostFinalFrameLosesDownload(H: Hash, file: Bytes, io: FinishIo) returns (after: seq<Event>)
    requires |file| <= MAX_DOWNLOAD_BYTES && |file| % 16384 != 0
    ensures
      var s := Step(H, Step(H, INIT, FailedTruncate(H)[0]), FailedTruncate(H)[1]);
      var link, n := Link(0, Owner([], [])), ChunkCount(file);
      var again := Link(1, Owner([], []));
      && after == ChunkEvents(link, 1, file, 0, n) + [Resume(again, 1)] + Answered(H, again, 1, file, n, io)
      && Run(H, s, after).installs == [] && 1 in s.reg.downloads && 1 !in Run(H, s, after).reg.downloads
  {
    var link, again, n := Link(0, Owner([], [])), Link(1, Owner([], [])), ChunkCount(file);
    var s := OneDownload(Blank(), []);
    DownloadStarts(H);
    OneDownloadIsReady(link, file);
    var chunks := ChunkEvents(link, 1, file, 0, n);
    ChunksAreAccepted(H, s, link, 1, file, n);
    StaysReady(s, link, 1, file, n);
    var t := Advanced(s, 1, file, n);
    var u := Step(H, t, Resume(again, 1));
    RunSnoc(H, s, chunks, Resume(again, 1));
    RunJoin(H, s, chunks + [Resume(again, 1)], Answered(H, again, 1, file, n, io));
    ResumeAsks(H, t, again, 1);
    AnswerIs(H, 1, file, n);
    RefusalGivesUp(H, u, again, 1, file, io);
    after := chunks + [Resume(again, 1)] + Answered(H, again, 1, file, n, io);
  }
}
