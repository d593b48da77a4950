// The two streaming loops: the host's, which answers a download request, and
// the phone's, which sends an upload. Both hash the file from the start and send
// only the chunks from the requested one on.
module Streams {
  import opened Bytes
  import opened Downloads
  import Uploads
  import UploadRuns
  import opened Transfers
  import opened EndToEnd

  // Every chunk from number `from` on.
  function ChunkFrames(id: Id, file: Bytes, from: nat): (frames: seq<Frame>)
    ensures |frames| == |ChunksFrom(file, from)|
    ensures forall i :: 0 <= i < |frames| ==> frames[i] == FileChunk(id, from + i, ChunkAt(file, from + i))
  {
    seq(|ChunksFrom(file, from)|, i requires 0 <= i => FileChunk(id, from + i, ChunkAt(file, from + i)))
  }

  // A whole pass: these chunks, then the digest of the whole file.
  function PassFrames(H: Hash, id: Id, file: Bytes, from: nat): (frames: seq<Frame>)
    ensures |frames| == |ChunksFrom(file, from)| + 1
    ensures forall i :: 0 <= i < |frames| - 1 ==> frames[i] == FileChunk(id, from + i, ChunkAt(file, from + i))
    ensures frames[|frames| - 1] == FileDone(id, |file|, H(file))
  {
    ChunkFrames(id, file, from) + [FileDone(id, |file|, H(file))]
  }

  // What arrives of some frames on a link that takes only `room` more.
  function Kept(frames: seq<Frame>, room: nat): seq<Frame> {
    frames[..Min(room, |frames|)]
  }

  // ---- The host ----

  // How many bytes the read number `call` returns: at least one unless the file
  // has ended, never more than asked for, otherwise up to the operating system.
  function ReadLength(file: Bytes, at: nat, want: nat, call: nat, short: nat -> nat): (n: nat)
    requires at <= |file|
    ensures n <= want && at + n <= |file|
    ensures want > 0 ==> (n == 0 <==> at == |file|)
  {
    Min(want, Min(|file| - at, 1 + short(call)))
  }

  // Fill one chunk, coalescing short reads.
  method FillChunk(file: Bytes, at: nat, call0: nat, short: nat -> nat) returns (buf: Bytes, call: nat)
    requires at <= |file|
    ensures |buf| == Min(FILE_CHUNK_BYTES, |file| - at) && buf == file[at..at + |buf|]
  {
    buf, call := [], call0;
    while |buf| < FILE_CHUNK_BYTES
      invariant |buf| <= FILE_CHUNK_BYTES && at + |buf| <= |file|
      invariant buf == file[at..at + |buf|]
      decreases FILE_CHUNK_BYTES - |buf|
    {
      var n := ReadLength(file, at + |buf|, FILE_CHUNK_BYTES - |buf|, call, short);
      call := call + 1;
      if n == 0 {
        break;
      }
      buf := buf + file[at + |buf|..at + |buf| + n];
    }
  }

  // The frames of a pass that have been sent once chunks 0 to k - 1 were read.
  function SentBy(id: Id, file: Bytes, from: nat, k: nat): seq<Frame>
    requires k <= ChunkCount(file)
  {
    ChunkFrames(id, file, from)[..if k <= from then 0 else k - from]
  }

  // A read fails while chunk `failAt` is filled. After a short last chunk there is
  // no further read.
  predicate FailsAt(file: Bytes, failAt: Option<nat>) {
    failAt.Some? && (failAt.value < ChunkCount(file) || (failAt.value == ChunkCount(file) && |file| % 16384 == 0))
  }

  // The answer to a download request. `file` is what the reads deliver, `size` the
  // length at the start; they may differ when somebody writes the file meanwhile.
  function HostAnswer(
    H: Hash, id: Id, opens: bool, file: Bytes, size: nat, startSeq: nat, failAt: Option<nat>, changed: bool)
    : (frames: seq<Frame>)
    ensures frames != []
  {
    if !opens || startSeq * 16384 > size then [FileErr(id)]
    else if FailsAt(file, failAt) then SentBy(id, file, startSeq, failAt.value) + [FileErr(id)]
    else ChunkFrames(id, file, startSeq) + [if changed then FileErr(id) else FileDone(id, size, H(file))]
  }

  lemma ChunkIsHonest(H: Hash, link: Link, job: Job, from: nat, k: nat)
    requires k < |ChunkFrames(job.id, job.file, from)|
    ensures Honest(H, job, Recv(link, ChunkFrames(job.id, job.file, from)[k], true))
  {
  }

  // If nobody changed the file, nothing in the answer is beyond an honest peer.
  lemma AnswerIsHonest(
    H: Hash, link: Link, job: Job, opens: bool, startSeq: nat, failAt: Option<nat>, changed: bool, room: nat, k: nat)
    requires k < |Kept(HostAnswer(H, job.id, opens, job.file, |job.file|, startSeq, failAt, changed), room)|
    ensures
      var answer := HostAnswer(H, job.id, opens, job.file, |job.file|, startSeq, failAt, changed);
      Honest(H, job, Recv(link, Kept(answer, room)[k], true))
  {
    var answer := HostAnswer(H, job.id, opens, job.file, |job.file|, startSeq, failAt, changed);
    assert Kept(answer, room)[k] == answer[k];
    if k < |answer| - 1 {
      assert answer[k] == ChunkFrames(job.id, job.file, startSeq)[k];
      ChunkIsHonest(H, link, job, startSeq, k);
    }
  }

  // The host certifies a file exactly when it could open it, the chunk asked for is
  // not past its end, every read worked and nobody changed it; otherwise its last
  // word is an error.
  lemma AnswerCertifiesIff(
    H: Hash, id: Id, opens: bool, file: Bytes, size: nat, startSeq: nat, failAt: Option<nat>, changed: bool)
    ensures
      var answer := HostAnswer(H, id, opens, file, size, startSeq, failAt, changed);
      var last := answer[|answer| - 1];
      && (last == FileDone(id, size, H(file)) <==>
            opens && startSeq * 16384 <= size && !FailsAt(file, failAt) && !changed)
      && (last != FileDone(id, size, H(file)) ==> last == FileErr(id))
      && forall i :: 0 <= i < |answer| - 1 ==> answer[i] == FileChunk(id, startSeq + i, ChunkAt(file, startSeq + i))
  {
  }

  // And without a failing read it is the whole pass.
  lemma AnswerIsPass(H: Hash, id: Id, file: Bytes, startSeq: nat)
    requires startSeq * 16384 <= |file|
    ensures HostAnswer(H, id, true, file, |file|, startSeq, None, false) == PassFrames(H, id, file, startSeq)
  {
  }

  // Reading on from the end of chunk k - 1 gives chunk k, nothing after the last.
  lemma NextChunk(id: Id, file: Bytes, from: nat, k: nat, buf: Bytes)
    requires k <= ChunkCount(file)
    requires |buf| == Min(FILE_CHUNK_BYTES, |file| - |Prefix(file, k)|)
    requires buf == file[|Prefix(file, k)|..|Prefix(file, k)| + |buf|]
    ensures buf == [] <==> k == ChunkCount(file)
    ensures buf != [] ==> Prefix(file, k + 1) == Prefix(file, k) + buf
    ensures buf != [] ==>
      SentBy(id, file, from, k + 1) ==
      if k >= from then SentBy(id, file, from, k) + [FileChunk(id, k, buf)] else SentBy(id, file, from, k)
    ensures 0 < |buf| < FILE_CHUNK_BYTES ==> k + 1 == ChunkCount(file) && |file| % 16384 != 0
  {
    ChunksTile(file, k);
    ChunksTile(file, k + 1);
    assert buf == ChunkAt(file, k);
  }

  lemma AllSent(id: Id, file: Bytes, from: nat)
    ensures SentBy(id, file, from, ChunkCount(file)) == ChunkFrames(id, file, from)
    ensures Prefix(file, ChunkCount(file)) == file && SentBy(id, file, from, 0) == []
  {
    ChunksTile(file, ChunkCount(file));
  }

  // The answer begins with the chunks read before a failing read.
  lemma AnswerBegins(H: Hash, id: Id, file: Bytes, size: nat, startSeq: nat, failAt: Option<nat>, changed: bool, k: nat)
    requires startSeq * 16384 <= size && k <= ChunkCount(file) && (failAt.Some? ==> k <= failAt.value)
    ensures SentBy(id, file, startSeq, k) <= HostAnswer(H, id, true, file, size, startSeq, failAt, changed)
  {
  }

  // The host's loop gives this answer, however its reads are cut up, as far as the
  // link takes it.
  method HostStream(
    H: Hash, id: Id, opens: bool, file: Bytes, size: nat, startSeq: nat, short: nat -> nat, failAt: Option<nat>,
    changed: bool, room: nat) returns (frames: seq<Frame>)
    ensures frames == Kept(HostAnswer(H, id, opens, file, size, startSeq, failAt, changed), room)
  {
    frames := [];
    if !opens || startSeq * FILE_CHUNK_BYTES > size {
      frames := Offer(frames, FileErr(id), room);
      return;
    }
    AllSent(id, file, startSeq);
    var hashed: Bytes := [];
    var seqNo, call := 0, 0;
    while true
      invariant seqNo <= ChunkCount(file) && hashed == Prefix(file, seqNo) && |frames| <= room
      invariant frames == SentBy(id, file, startSeq, seqNo) && (failAt.Some? ==> seqNo <= failAt.value)
      invariant seqNo == ChunkCount(file) ==> |file| % 16384 == 0
      decreases ChunkCount(file) - seqNo
    {
      if failAt == Some(seqNo) {
        frames := Offer(frames, FileErr(id), room);
        return;
      }
      var buf;
      buf, call := FillChunk(file, |hashed|, call, short);
      NextChunk(id, file, startSeq, seqNo, buf);
      if |buf| == 0 {
        break;
      }
      hashed := hashed + buf;
      if seqNo >= startSeq {
        if |frames| == room {
          AnswerBegins(H, id, file, size, startSeq, failAt, changed, seqNo);
          return;
        }
        frames := frames + [FileChunk(id, seqNo, buf)];
      }
      seqNo := seqNo + 1;
      if |buf| < FILE_CHUNK_BYTES {
        break;
      }
    }
    frames := Offer(frames, if changed then FileErr(id) else FileDone(id, size, H(hashed)), room);
  }

  method Offer(frames: seq<Frame>, frame: Frame, room: nat) returns (kept: seq<Frame>)
    requires |frames| <= room
    ensures kept == Kept(frames + [frame], room)
  {
    kept := if |frames| < room then frames + [frame] else frames;
  }

  // ---- The phone ----

  // The pieces that successive reads returned, from number `from` on, as chunks.
  function PieceFrames(id: Id, pieces: seq<Bytes>, from: nat): (frames: seq<Frame>)
    ensures |frames| == if from < |pieces| then |pieces| - from else 0
    ensures forall i :: 0 <= i < |frames| ==> frames[i] == FileChunk(id, from + i, pieces[from + i])
  {
    seq(if from < |pieces| then |pieces| - from else 0,
        i requires 0 <= i && from + i < |pieces| => FileChunk(id, from + i, pieces[from + i]))
  }

  // What a pass sends that is retired when it checks for the `stop`-th time, or
  // whose read after these pieces fails, or else finds the end of the file.
  function UploadAnswer(H: Hash, id: Id, pieces: seq<Bytes>, fails: bool, size: nat, from: nat, stop: nat): seq<Frame> {
    if stop <= |pieces| then PieceFrames(id, pieces[..stop], from)
    else if fails then PieceFrames(id, pieces, from)
    else PieceFrames(id, pieces, from) + [FileDone(id, size, H(Flatten(pieces)))]
  }

  // The phone does so exactly when it was not retired and no read failed.
  lemma UploadCertifiesIff(
    H: Hash, id: Id, pieces: seq<Bytes>, fails: bool, size: nat, from: nat, stop: nat, k: nat)
    requires k < |UploadAnswer(H, id, pieces, fails, size, from, stop)|
    ensures
      var answer := UploadAnswer(H, id, pieces, fails, size, from, stop);
      if stop > |pieces| && !fails && k == |answer| - 1 then answer[k] == FileDone(id, size, H(Flatten(pieces)))
      else from + k < |pieces| && from + k < stop && answer[k] == FileChunk(id, from + k, pieces[from + k])
  {
  }

  lemma PiecesMore(id: Id, pieces: seq<Bytes>, from: nat, k: nat)
    requires k < |pieces|
    ensures PieceFrames(id, pieces[..k + 1], from) ==
            PieceFrames(id, pieces[..k], from) + if k >= from then [FileChunk(id, k, pieces[k])] else []
    ensures Flatten(pieces[..k + 1]) == Flatten(pieces[..k]) + pieces[k]
  {
    OneMorePart(pieces, k);
  }

  lemma UploadBegins(H: Hash, id: Id, pieces: seq<Bytes>, fails: bool, size: nat, from: nat, stop: nat, k: nat)
    requires k <= |pieces| && k <= stop
    ensures PieceFrames(id, pieces[..k], from) <= UploadAnswer(H, id, pieces, fails, size, from, stop)
  {
  }

  // The phone's loop sends exactly that, as far as the link takes it. A read returns
  // up to a buffer of bytes, and none only at the end.
  method UploadStream(
    H: Hash, id: Id, pieces: seq<Bytes>, fails: bool, size: nat, from: nat, stop: nat, room: nat)
    returns (frames: seq<Frame>)
    requires forall i :: 0 <= i < |pieces| ==> 0 < |pieces[i]| <= FILE_CHUNK_BYTES
    ensures frames == Kept(UploadAnswer(H, id, pieces, fails, size, from, stop), room)
  {
    frames := [];
    var hashed: Bytes := [];
    var seqNo := 0;
    while true
      invariant seqNo <= |pieces| && seqNo <= stop && hashed == Flatten(pieces[..seqNo]) && |frames| <= room
      invariant frames == PieceFrames(id, pieces[..seqNo], from)
      decreases |pieces| - seqNo
    {
      if seqNo == stop {
        return;
      }
      if seqNo == |pieces| {
        break;
      }
      var bytes := pieces[seqNo];
      PiecesMore(id, pieces, from, seqNo);
      hashed := hashed + bytes;
      if seqNo >= from {
        if |frames| == room {
          UploadBegins(H, id, pieces, fails, size, from, stop, seqNo);
          return;
        }
        frames := frames + [FileChunk(id, seqNo, bytes)];
      }
      seqNo := seqNo + 1;
    }
    assert pieces[..seqNo] == pieces;
    if !fails {
      frames := Offer(frames, FileDone(id, size, H(hashed)), room);
    }
  }

  lemma {:induction false} ChunksAreTheFile(file: Bytes, k: nat)
    requires k <= ChunkCount(file)
    ensures Flatten(ChunksFrom(file, 0)[..k]) == Prefix(file, k)
  {
    if k == 0 {
      ChunksTile(file, 0);
    } else {
      ChunksAreTheFile(file, k - 1);
      ChunksTile(file, k - 1);
      OneMorePart(ChunksFrom(file, 0), k - 1);
    }
  }

  lemma OneMorePart(parts: seq<Bytes>, k: nat)
    requires k < |parts|
    ensures Flatten(parts[..k + 1]) == Flatten(parts[..k]) + parts[k]
  {
    assert parts[..k + 1] == parts[..k] + [parts[k]];
    FlattenAppend(parts[..k], parts[k]);
  }

  lemma PiecesAreChunks(id: Id, file: Bytes, from: nat)
    ensures PieceFrames(id, ChunksFrom(file, 0), from) == ChunkFrames(id, file, from)
  {
    var a, b := PieceFrames(id, ChunksFrom(file, 0), from), ChunkFrames(id, file, from);
    forall i | 0 <= i < |a| ensures a[i] == b[i] {
      assert ChunksFrom(file, 0)[from + i] == ChunkAt(file, 0 + (from + i));
    }
  }

  // With reads that fill the buffer it is the pass of the file.
  lemma FullReadsArePass(H: Hash, id: Id, file: Bytes, from: nat, stop: nat)
    requires stop > ChunkCount(file)
    ensures UploadAnswer(H, id, ChunksFrom(file, 0), false, |file|, from, stop) == PassFrames(H, id, file, from)
  {
    var chunks := ChunksFrom(file, 0);
    assert Flatten(chunks) == file by {
      ChunksAreTheFile(file, ChunkCount(file));
      ChunksTile(file, ChunkCount(file));
      assert chunks[..ChunkCount(file)] == chunks;
    }
    PiecesAreChunks(id, file, from);
  }

  // ---- The same pass, sent by an interleaved task ----

  function AsFrame(id: Id, sent: Uploads.Sent): Frame {
    match sent
    case Chunk(seqNo, bytes) => FileChunk(id, seqNo, bytes)
    case Done(size, checksum) => FileDone(id, size, checksum)
  }

  // Frame j of a log in which the pass that ends with frame k began at `start`.
  lemma ChunkOfPass(H: Hash, id: Id, content: Bytes, sent: seq<Uploads.Emit>, k: nat, start: nat, j: nat)
    requires k < |sent| && start <= j < k && UploadRuns.PassUpTo(sent, k) && start + UploadRuns.Before(sent, k) == k
    requires UploadRuns.Before(sent, k) == |ChunksFrom(content, sent[k].from)|
    requires sent[j].frame.Chunk? ==> sent[j].frame.bytes == ChunkAt(content, sent[j].frame.seqNo)
    ensures AsFrame(id, sent[j].frame) == PassFrames(H, id, content, sent[k].from)[j - start]
  {
  }

  // Whatever else happened to an upload, with reads that fill the buffer each of
  // its finished passes is, frame by frame, the one the loop sends alone.
  lemma FinishedPassIsStreamed(H: Hash, owner: Owner, id: Id, content: Bytes,
    es: seq<UploadRuns.Event>, k: nat, start: nat, j: nat)
    requires UploadRuns.FullReads(H, Uploads.Opened(owner, content), es)
    requires
      var sent := UploadRuns.Run(H, Uploads.Opened(owner, content), es).sent;
      k < |sent| && sent[k].frame.Done? && start + UploadRuns.Before(sent, k) == k && start <= j <= k
    ensures
      var sent := UploadRuns.Run(H, Uploads.Opened(owner, content), es).sent;
      var frames := PassFrames(H, id, content, sent[k].from);
      |frames| == k - start + 1 && AsFrame(id, sent[j].frame) == frames[j - start]
  {
    UploadRuns.UploadIsPasses(H, owner, content, es, k);
    UploadRuns.FinishedPassIsTheFile(H, owner, content, es, k);
    if j < k {
      UploadRuns.FinishedPassIsTheFile(H, owner, content, es, j);
      ChunkOfPass(H, id, content, UploadRuns.Run(H, Uploads.Opened(owner, content), es).sent, k, start, j);
    }
  }
}
