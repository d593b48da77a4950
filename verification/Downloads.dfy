// One download as the phone receives it: a staged file written at its cursor,
// a running hasher, a chunk counter and a bounded number of restarts
// (app/src-tauri/src/lib.rs:250-264, 1748-1997).
module Downloads {
  import opened Bytes

  // app/src-tauri/src/lib.rs:47-63
  const MAX_ACTIVE_FILE_TRANSFERS: nat := 4
  const MAX_DOWNLOAD_BYTES: nat := 4294967296
  const MAX_TOTAL_DOWNLOAD_BYTES: nat := 6442450944
  const MAX_DOWNLOAD_RESTARTS: nat := 3

  // Which pairing a transfer belongs to.
  datatype Owner = Owner(device: Bytes, pair: Bytes)

  // A session loop: its connection generation and the pairing it serves.
  datatype Link = Link(gen: nat, owner: Owner)

  datatype Target = Path(path: string) | Document(uri: string)

  // A file open for writing. Writes land at the cursor, past the end they leave
  // a hole of zeroes, and truncation does not move the cursor.
  datatype StagedFile = StagedFile(content: Bytes, pos: nat)

  function Zeroes(n: nat): (r: Bytes)
    ensures |r| == n
  {
    seq(n, i => 0)
  }

  function WriteAll(f: StagedFile, bytes: Bytes): StagedFile {
    if bytes == [] then f
    else
      var base := if f.pos <= |f.content| then f.content else f.content + Zeroes(f.pos - |f.content|);
      var end := f.pos + |bytes|;
      StagedFile(base[..f.pos] + bytes + (if end < |base| then base[end..] else []), end)
  }

  function SetLenZero(f: StagedFile, ok: bool): StagedFile {
    if ok then f.(content := []) else f
  }

  function SeekStart(f: StagedFile, ok: bool): StagedFile {
    if ok then f.(pos := 0) else f
  }

  // `hasher` is the list of updates it was fed; its digest is the hash of their
  // concatenation.
  datatype Download = Download(
    owner: Owner,
    restarts: nat,
    remotePath: string,
    allowOutsideHome: bool,
    target: Target,
    file: StagedFile,
    nextSeq: nat,
    written: nat,
    hasher: seq<Bytes>)

  function Fresh(owner: Owner, remotePath: string, allowOutsideHome: bool, target: Target): Download {
    Download(owner, 0, remotePath, allowOutsideHome, target, StagedFile([], 0), 0, 0, [])
  }

  function Accept(d: Download, bytes: Bytes): Download {
    d.(file := WriteAll(d.file, bytes), hasher := d.hasher + [bytes],
       written := d.written + |bytes|, nextSeq := d.nextSeq + 1)
  }

  predicate Verified(H: Hash, d: Download, size: nat, checksum: Digest) {
    d.written == size && H(Flatten(d.hasher)) == checksum
  }

  // A failed verification starts the file over. The results of `set_len` and
  // `seek` are ignored by the code, so both outcomes are part of the model.
  function Restart(d: Download, setLenOk: bool, seekOk: bool): Download {
    d.(restarts := d.restarts + 1, file := SeekStart(SetLenZero(d.file, setLenOk), seekOk),
       nextSeq := 0, written := 0, hasher := [])
  }

  // ---- What the counters say about the staged bytes, whoever the peer is ----

  ghost predicate Sound(d: Download) {
    && d.file.content == Flatten(d.hasher)
    && d.file.pos == |d.file.content| == d.written
    && d.nextSeq == |d.hasher|
  }

  lemma AcceptKeepsSound(d: Download, bytes: Bytes)
    requires Sound(d)
    ensures Sound(Accept(d, bytes))
    ensures Accept(d, bytes).file.content == d.file.content + bytes
  {
    FlattenAppend(d.hasher, bytes);
  }

  // A restart keeps the bookkeeping true exactly when nothing was staged yet or
  // both ignored calls worked.
  lemma RestartKeepsSoundIff(d: Download, setLenOk: bool, seekOk: bool)
    requires Sound(d)
    ensures Sound(Restart(d, setLenOk, seekOk)) <==> d.written == 0 || (setLenOk && seekOk)
  {
  }

  lemma VerifiedSound(H: Hash, d: Download, size: nat, checksum: Digest)
    requires Sound(d) && Verified(H, d, size, checksum)
    ensures |d.file.content| == size && H(d.file.content) == checksum
  {
  }

  // ---- What holds even when a restart could not truncate or rewind ----

  // The bytes of this attempt are the ones just before the cursor.
  ghost predicate Windowed(d: Download) {
    && d.nextSeq == |d.hasher|
    && |Flatten(d.hasher)| == d.written <= d.file.pos
    && (d.written > 0 ==>
          d.file.pos <= |d.file.content| && d.file.content[d.file.pos - d.written..d.file.pos] == Flatten(d.hasher))
  }

  // A write lands at the cursor and moves it; what was before it stays.
  lemma WriteLands(f: StagedFile, bytes: Bytes)
    requires bytes != []
    ensures
      var g := WriteAll(f, bytes);
      && g.pos == f.pos + |bytes| <= |g.content| && g.content[f.pos..g.pos] == bytes
      && |g.content| == (if g.pos <= |f.content| then |f.content| else g.pos)
      && (f.pos <= |f.content| ==> g.content[..f.pos] == f.content[..f.pos])
      && (g.pos <= |f.content| ==> g.content[g.pos..] == f.content[g.pos..])
      && (f.pos > |f.content| ==> g.content[..f.pos] == f.content + Zeroes(f.pos - |f.content|))
  {
  }

  lemma AcceptKeepsWindow(d: Download, bytes: Bytes)
    requires Windowed(d)
    ensures Windowed(Accept(d, bytes))
  {
    var e := Accept(d, bytes);
    FlattenAppend(d.hasher, bytes);
    if bytes != [] {
      WriteLands(d.file, bytes);
      WindowMoves(d.file.content, e.file.content, d.file.pos - d.written, d.file.pos, e.file.pos);
    }
  }

  // Bytes before p that stay, followed by the bytes from p on.
  lemma WindowMoves(was: Bytes, now: Bytes, start: nat, p: nat, end: nat)
    requires start <= p <= end <= |now|
    requires start < p ==> p <= |was| && now[..p] == was[..p]
    ensures start < p ==> now[start..end] == was[start..p] + now[p..end]
  {
    if start < p {
      assert now[start..p] == now[..p][start..p] && was[start..p] == was[..p][start..p];
    }
  }

  // A restart keeps it whatever the two ignored calls did.
  lemma RestartKeepsWindow(d: Download, setLenOk: bool, seekOk: bool)
    ensures Windowed(Restart(d, setLenOk, seekOk))
  {
  }

  // So a verified file is what was declared exactly when its length is.
  lemma LengthTells(H: Hash, d: Download, size: nat, checksum: Digest)
    requires Windowed(d) && Verified(H, d, size, checksum)
    ensures |d.file.content| == size ==> d.file.content == Flatten(d.hasher) && H(d.file.content) == checksum
    ensures |d.file.content| >= size
  {
    if |d.file.content| == size && size > 0 {
      assert d.file.content[0..size] == d.file.content;
    }
  }

  // ---- A peer that serves one fixed file ----

  // This attempt's bytes are the first nextSeq chunks of `file`.
  ghost predicate Carries(file: Bytes, d: Download) {
    && Windowed(d) && d.nextSeq <= ChunkCount(file)
    && Flatten(d.hasher) == Prefix(file, d.nextSeq)
  }

  lemma AcceptKeepsCarries(file: Bytes, d: Download)
    requires Carries(file, d) && d.nextSeq < ChunkCount(file)
    ensures Carries(file, Accept(d, ChunkAt(file, d.nextSeq)))
  {
    AcceptKeepsWindow(d, ChunkAt(file, d.nextSeq));
    FlattenAppend(d.hasher, ChunkAt(file, d.nextSeq));
    ChunksTile(file, d.nextSeq);
  }

  lemma RestartKeepsCarries(file: Bytes, d: Download, setLenOk: bool, seekOk: bool)
    ensures Carries(file, Restart(d, setLenOk, seekOk))
  {
    ChunksTile(file, 0);
  }

  // There verification passes exactly when every chunk was accepted, and what
  // verified is the file exactly when its length is.
  lemma CarriesVerifies(H: Hash, file: Bytes, d: Download)
    requires Carries(file, d)
    ensures Verified(H, d, |file|, H(file)) <==> d.nextSeq == ChunkCount(file)
    ensures Verified(H, d, |file|, H(file)) ==> (d.file.content == file <==> |d.file.content| == |file|)
  {
    ChunksTile(file, d.nextSeq);
    if Verified(H, d, |file|, H(file)) {
      LengthTells(H, d, |file|, H(file));
    }
  }

  // ---- A whole pass after a restart ----

  // The next n chunks of `file`, accepted one after the other.
  function AcceptChunks(d: Download, file: Bytes, n: nat): (v: Download)
    ensures v == d.(file := v.file, nextSeq := d.nextSeq + n, written := v.written, hasher := v.hasher)
  {
    if n == 0 then d
    else
      var v := AcceptChunks(d, file, n - 1);
      Accept(v, ChunkAt(file, v.nextSeq))
  }

  // The cursor moved by their bytes, and the file reaches at least up to it.
  ghost predicate PassStaged(d: Download, v: Download, file: Bytes, n: nat) {
    && Carries(file, v) && v.nextSeq == d.nextSeq + n && v.file.pos - v.written == d.file.pos - d.written
    && |v.file.content| == (if n == 0 || v.file.pos <= |d.file.content| then |d.file.content| else v.file.pos)
  }

  lemma AcceptOne(d: Download, v: Download, file: Bytes, n: nat)
    requires PassStaged(d, v, file, n) && v.nextSeq < ChunkCount(file)
    ensures PassStaged(d, Accept(v, ChunkAt(file, v.nextSeq)), file, n + 1)
  {
    ChunksTile(file, v.nextSeq);
    AcceptKeepsCarries(file, v);
    WriteLands(v.file, ChunkAt(file, v.nextSeq));
  }

  lemma {:induction false} AcceptedChunks(d: Download, file: Bytes, n: nat)
    requires Carries(file, d) && d.nextSeq + n <= ChunkCount(file)
    ensures PassStaged(d, AcceptChunks(d, file, n), file, n)
  {
    if n > 0 {
      AcceptedChunks(d, file, n - 1);
      AcceptOne(d, AcceptChunks(d, file, n - 1), file, n - 1);
    }
  }

  // The staged file has no bytes before this attempt's, nor more than the file.
  predicate NothingStale(file: Bytes, d: Download) {
    |d.file.content| <= |file| && (d.file.pos == d.written || file == [])
  }

  // After the rest of the pass the staged file is the file exactly if nothing
  // stale was there.
  lemma PassIsTheFileIff(H: Hash, d: Download, file: Bytes, n: nat)
    requires Carries(file, d) && d.nextSeq + n == ChunkCount(file)
    ensures
      var v := AcceptChunks(d, file, n);
      && Verified(H, v, |file|, H(file)) && (v.file.content == file <==> |v.file.content| == |file|)
      && (v.file.content == file <==> NothingStale(file, d))
  {
    AcceptedChunks(d, file, n);
    CarriesVerifies(H, file, AcceptChunks(d, file, n));
    ChunksTile(file, ChunkCount(file));
    ChunksTile(file, d.nextSeq);
  }

  // A complete pass after a restart always verifies. It leaves the served file
  // exactly when the restart rewound the cursor and left no more than the file's
  // length behind.
  lemma PassAfterRestartIff(H: Hash, file: Bytes, d: Download, setLenOk: bool, seekOk: bool)
    ensures
      var v := AcceptChunks(Restart(d, setLenOk, seekOk), file, ChunkCount(file));
      && Verified(H, v, |file|, H(file))
      && (v.file.content == file <==>
            && (seekOk || d.file.pos == 0 || file == [])
            && (setLenOk || |d.file.content| <= |file|))
  {
    RestartKeepsCarries(file, d, setLenOk, seekOk);
    PassIsTheFileIff(H, Restart(d, setLenOk, seekOk), file, ChunkCount(file));
  }
}
