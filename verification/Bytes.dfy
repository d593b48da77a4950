// Byte strings, digests and the 16 KiB chunking that both ends of a transfer use.
module Bytes {
  type byte = x: int | 0 <= x < 256
  type Bytes = seq<byte>
  type Digest = seq<byte>

  // BLAKE3 is an unknown function from byte strings to digests; every result
  // that mentions it takes it as a parameter and holds for all of them.
  type Hash = Bytes -> Digest

  datatype Option<+T> = None | Some(value: T)

  // crates/protocol/src/lib.rs:29
  const FILE_CHUNK_BYTES: nat := 16384

  function Min(a: nat, b: nat): nat {
    if a <= b then a else b
  }

  lemma Regroup<T>(a: seq<T>, b: seq<T>, c: seq<T>)
    ensures a + (b + c) == (a + b) + c
  {
  }

  lemma PrefixGrows<T>(s: seq<T>, i: nat, n: nat)
    requires i + n <= |s|
    ensures s[..i] + s[i..i + n] == s[..i + n]
  {
  }

  function Flatten<T>(parts: seq<seq<T>>): seq<T> {
    if parts == [] then [] else Flatten(parts[..|parts| - 1]) + parts[|parts| - 1]
  }

  lemma FlattenAppend<T>(parts: seq<seq<T>>, last: seq<T>)
    ensures Flatten(parts + [last]) == Flatten(parts) + last
  {
    assert (parts + [last])[..|parts|] == parts;
  }

  // The chunks of a file: chunk k covers bytes [k * 16384, (k + 1) * 16384).

  function ChunkCount(file: Bytes): nat {
    (|file| + 16383) / 16384
  }

  function PrefixLength(file: Bytes, chunks: nat): nat {
    Min(chunks * 16384, |file|)
  }

  // The bytes of the first `chunks` chunks.
  function Prefix(file: Bytes, chunks: nat): Bytes {
    file[..PrefixLength(file, chunks)]
  }

  function ChunkAt(file: Bytes, k: nat): Bytes {
    file[PrefixLength(file, k)..PrefixLength(file, k + 1)]
  }

  // The chunks from `from` on, as one streaming pass sends them.
  function ChunksFrom(file: Bytes, from: nat): (r: seq<Bytes>)
    ensures |r| == if from < ChunkCount(file) then ChunkCount(file) - from else 0
    ensures forall i :: 0 <= i < |r| ==> r[i] == ChunkAt(file, from + i)
    decreases ChunkCount(file) - from
  {
    if from < ChunkCount(file) then [ChunkAt(file, from)] + ChunksFrom(file, from + 1) else []
  }

  // Chunks tile the file: appending chunk k to the first k chunks gives the
  // first k + 1, no chunk is empty or oversized, and all of them are the file.
  lemma ChunksTile(file: Bytes, k: nat)
    ensures Prefix(file, k) + ChunkAt(file, k) == Prefix(file, k + 1)
    ensures |ChunkAt(file, k)| <= FILE_CHUNK_BYTES
    ensures k < ChunkCount(file) <==> ChunkAt(file, k) != []
    ensures k < ChunkCount(file) ==> PrefixLength(file, k) == k * 16384
    ensures k >= ChunkCount(file) ==> Prefix(file, k) == file
    ensures |Prefix(file, k)| == |file| ==> k >= ChunkCount(file)
    ensures Prefix(file, 0) == []
  {
  }
}
