/** The browser's transfer plan: a file of at most one chunk goes in one
    request, a larger one is cut into consecutive chunks of CHUNK_SIZE bytes. */
module Transfer {

  /** 5 MiB. */
  const CHUNK_SIZE: nat := 5 * 1024 * 1024

  /** The single-request test `file.size <= CHUNK_SIZE`. */
  predicate FitsOneRequest(size: nat)
  {
    size <= CHUNK_SIZE
  }

  /** `Math.ceil(size / CHUNK_SIZE)`: the least number of chunks that holds `size` bytes. */
  function TotalChunks(size: nat): (t: nat)
    ensures size <= t * CHUNK_SIZE
    ensures t > 0 ==> (t - 1) * CHUNK_SIZE < size
    ensures t == 0 <==> size == 0
  {
    (size + CHUNK_SIZE - 1) / CHUNK_SIZE
  }

  /** First byte of chunk `n` (chunks are numbered from 1). */
  function ChunkStart(n: nat): nat
    requires n >= 1
  {
    (n - 1) * CHUNK_SIZE
  }

  /** One past the last byte of chunk `n`: `Math.min(start + CHUNK_SIZE, size)`. */
  function ChunkEnd(n: nat, size: nat): (e: nat)
    requires 1 <= n <= TotalChunks(size)
    ensures ChunkStart(n) < e <= size
  {
    if ChunkStart(n) + CHUNK_SIZE < size then ChunkStart(n) + CHUNK_SIZE else size
  }

  /** A file too large for one request is always cut into two chunks or more. */
  lemma LargeFileHasSeveralChunks(size: nat)
    requires !FitsOneRequest(size)
    ensures TotalChunks(size) >= 2
  {
  }

  /** Every chunk but the last is exactly CHUNK_SIZE long and ends where the
      next one starts; the last holds 1..CHUNK_SIZE bytes and ends at the end
      of the file; the first starts at byte 0. */
  lemma ChunkLayout(size: nat, n: nat)
    requires 1 <= n <= TotalChunks(size)
    ensures n == 1 ==> ChunkStart(n) == 0
    ensures n < TotalChunks(size) ==>
              ChunkEnd(n, size) - ChunkStart(n) == CHUNK_SIZE && ChunkEnd(n, size) == ChunkStart(n + 1)
    ensures n == TotalChunks(size) ==>
              ChunkEnd(n, size) == size && 1 <= ChunkEnd(n, size) - ChunkStart(n) <= CHUNK_SIZE
  {
    var t := TotalChunks(size);
    if n < t {
      assert n * CHUNK_SIZE <= (t - 1) * CHUNK_SIZE;
    }
  }

  /** Byte `b` of the file lies in chunk `n` exactly when `n` is `b / CHUNK_SIZE + 1`,
      and that chunk exists: the chunks cover the file without overlap. */
  lemma ByteInExactlyOneChunk(size: nat, b: nat, n: nat)
    requires b < size && 1 <= n <= TotalChunks(size)
    ensures b / CHUNK_SIZE + 1 <= TotalChunks(size)
    ensures ChunkStart(n) <= b < ChunkEnd(n, size) <==> n == b / CHUNK_SIZE + 1
  {
    var q := b / CHUNK_SIZE;
    assert q * CHUNK_SIZE <= b < (q + 1) * CHUNK_SIZE;
  }

  /** The bytes of chunks 1..k, in order, glued together. */
  function Joined(content: seq<bv8>, k: nat): seq<bv8>
    requires k <= TotalChunks(|content|)
  {
    if k == 0 then [] else Joined(content, k - 1) + content[ChunkStart(k)..ChunkEnd(k, |content|)]
  }

  /** Chunks 1..k glued in order are the file's first bytes up to the end of
      chunk k; all chunks together give back the whole file. */
  lemma {:induction false} JoinedIsPrefix(content: seq<bv8>, k: nat)
    requires 1 <= k <= TotalChunks(|content|)
    ensures Joined(content, k) == content[..ChunkEnd(k, |content|)]
    ensures k == TotalChunks(|content|) ==> Joined(content, k) == content
  {
    ChunkLayout(|content|, k);
    if k > 1 {
      JoinedIsPrefix(content, k - 1);
      ChunkLayout(|content|, k - 1);
      assert content[..ChunkEnd(k - 1, |content|)] + content[ChunkStart(k)..ChunkEnd(k, |content|)]
          == content[..ChunkEnd(k, |content|)];
    } else {
      assert Joined(content, 0) == [];
    }
  }
}
