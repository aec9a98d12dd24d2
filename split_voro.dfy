/**
 * scripts/split_voro.py: a dump file is cut into consecutive chunks of
 * `chunk_size_mb` MiB, written next to it as `<stem>_part<k>.voro` for
 * k = 1, 2, ... The file is the byte sequence `data`; each chunk is what one
 * `f.read(chunk_size)` returns from the shared cursor.
 */
module SplitVoro {
  import opened Wrappers
  import opened Numbers

  const BytesPerMegabyte := 1048576

  /** `chunk_size_mb * 1024 * 1024`: the chunk size in bytes has the sign of the size in MiB. */
  function ChunkBytes(mb: int): (c: int)
    ensures c > 0 <==> mb > 0
    ensures c == 0 <==> mb == 0
  {
    mb * BytesPerMegabyte
  }

  /** `math.ceil(file_size / chunk_size)` for a non-zero chunk size; a negative size gives no chunks. */
  function ChunkCount(size: nat, chunk: int): (k: nat)
    requires chunk != 0
    ensures chunk > 0 ==> (k - 1) * chunk < size <= k * chunk || (size == 0 && k == 0)
  {
    if chunk < 0 then 0 else (size + chunk - 1) / chunk
  }

  function Min(a: int, b: int): int { if a <= b then a else b }

  /** The bytes the `i`-th `f.read(chunk)` returns: the cursor stands at `i * chunk`, clamped to the end. */
  function Piece(data: seq<bv8>, chunk: nat, i: nat): seq<bv8>
  {
    data[Min(i * chunk, |data|)..Min((i + 1) * chunk, |data|)]
  }

  /** The first `k` chunks. */
  function Pieces(data: seq<bv8>, chunk: nat, k: nat): (r: seq<seq<bv8>>)
    ensures |r| == k
  {
    seq(k, i requires 0 <= i < k => Piece(data, chunk, i))
  }

  function Concat(parts: seq<seq<bv8>>): seq<bv8>
  {
    if parts == [] then [] else Concat(parts[..|parts| - 1]) + parts[|parts| - 1]
  }

  /** Reading chunk after chunk from the start: the first `k` chunks put together are the first `k * chunk` bytes. */
  lemma {:induction false} ConcatPieces(data: seq<bv8>, chunk: nat, k: nat)
    ensures Concat(Pieces(data, chunk, k)) == data[..Min(k * chunk, |data|)]
  {
    if k > 0 {
      var ps := Pieces(data, chunk, k);
      assert ps[..k - 1] == Pieces(data, chunk, k - 1);
      ConcatPieces(data, chunk, k - 1);
      var a := Min((k - 1) * chunk, |data|);
      var b := Min(k * chunk, |data|);
      assert (k - 1) * chunk <= k * chunk;
      assert data[..a] + data[a..b] == data[..b];
    }
  }

  /** Why the script fails before reading: `file_size / 0` raises ZeroDivisionError. */
  datatype SplitError = ZeroChunkSize

  /** What `split_voro_file` writes: the chunks in order, or the error. */
  function SplitSpec(data: seq<bv8>, chunkSizeMb: int): Result<seq<seq<bv8>>, SplitError>
  {
    var chunk := ChunkBytes(chunkSizeMb);
    if chunk == 0 then Failure(ZeroChunkSize)
    else if chunk < 0 then Success([])
    else Success(Pieces(data, chunk, ChunkCount(|data|, chunk)))
  }

  /**
   * The chunks put together give back the file. There are
   * ceil(size / chunk_size) of them; every one but the last holds exactly
   * `chunk_size` bytes, the last the rest, and none is empty.
   */
  lemma SplitSpecProperties(data: seq<bv8>, chunkSizeMb: int)
    requires chunkSizeMb > 0
    ensures var chunk := ChunkBytes(chunkSizeMb);
      var parts := SplitSpec(data, chunkSizeMb).value;
      |parts| == ChunkCount(|data|, chunk) &&
      Concat(parts) == data &&
      (forall i :: 0 <= i < |parts| - 1 ==> |parts[i]| == chunk) &&
      (forall i :: 0 <= i < |parts| ==> 0 < |parts[i]| <= chunk)
  {
    var chunk := ChunkBytes(chunkSizeMb);
    var k := ChunkCount(|data|, chunk);
    var parts := Pieces(data, chunk, k);
    ConcatPieces(data, chunk, k);
    if |data| == 0 {
      assert k == 0;
    } else {
      assert (k - 1) * chunk < |data| <= k * chunk;
    }
    assert data[..|data|] == data;
    forall i | 0 <= i < k
      ensures 0 < |parts[i]| <= chunk && (i < k - 1 ==> |parts[i]| == chunk)
    {
      PieceSize(data, chunk, k, i);
    }
  }

  lemma MulLe(a: nat, b: nat, c: nat)
    requires a <= b
    ensures a * c <= b * c
  {
  }

  /** Chunk `i` of `k` when the first `k - 1` chunks do not reach the end: it is non-empty, and full unless it is the last. */
  lemma PieceSize(data: seq<bv8>, chunk: nat, k: nat, i: nat)
    requires chunk > 0 && i < k && (k - 1) * chunk < |data| <= k * chunk
    ensures 0 < |Piece(data, chunk, i)| <= chunk
    ensures i < k - 1 ==> |Piece(data, chunk, i)| == chunk
  {
    MulLe(i, k - 1, chunk);
    assert (i + 1) * chunk == i * chunk + chunk;
    if i < k - 1 {
      MulLe(i + 1, k - 1, chunk);
    }
  }

  /** An empty file gives no chunks; so does a negative chunk size. */
  lemma NoChunks(data: seq<bv8>, chunkSizeMb: int)
    requires chunkSizeMb != 0 && (data == [] || chunkSizeMb < 0)
    ensures SplitSpec(data, chunkSizeMb) == Success([])
  {
  }

  // ---------------------------------------------------------------------------
  // Chunk names
  // ---------------------------------------------------------------------------

  /** The index just past the last `c` in `s`, or 0. */
  function AfterLast(s: string, c: char): (k: nat)
    ensures k <= |s|
    ensures k > 0 ==> s[k - 1] == c
    ensures forall j :: k <= j < |s| ==> s[j] != c
  {
    if s == [] then 0
    else if s[|s| - 1] == c then |s|
    else AfterLast(s[..|s| - 1], c)
  }

  predicate AllSlashes(s: string)
  {
    forall j :: 0 <= j < |s| ==> s[j] == '/'
  }

  function TrimSlashes(s: string): (r: string)
    ensures |r| <= |s|
  {
    if s != [] && s[|s| - 1] == '/' then TrimSlashes(s[..|s| - 1]) else s
  }

  /** `os.path.dirname`: everything before the last '/', without trailing slashes unless it is all slashes. */
  function DirName(path: string): string
  {
    var head := path[..AfterLast(path, '/')];
    if AllSlashes(head) then head else TrimSlashes(head)
  }

  /** `os.path.basename`: everything after the last '/'. */
  function BaseName(path: string): string
  {
    path[AfterLast(path, '/')..]
  }

  function AllDots(s: string): bool
  {
    forall j :: 0 <= j < |s| ==> s[j] == '.'
  }

  /**
   * `os.path.splitext(name)[0]` for a name without '/': the name up to its
   * last '.', unless only dots precede that dot (a hidden file keeps its name).
   */
  function Stem(name: string): string
  {
    var k := AfterLast(name, '.');
    if k == 0 || AllDots(name[..k - 1]) then name else name[..k - 1]
  }

  /** `os.path.join(directory, name)` for a relative `name`. */
  function Join(directory: string, name: string): string
  {
    if directory == [] || directory[|directory| - 1] == '/' then directory + name else directory + "/" + name
  }

  /** The name of chunk `i` (0-based): `<stem>_part<i+1>.voro` in the input's directory. */
  function ChunkName(path: string, i: nat): string
  {
    Join(DirName(path), Stem(BaseName(path)) + "_part" + IntText(i + 1) + ".voro")
  }

  lemma IntTextInjective(a: int, b: int)
    requires IntText(a) == IntText(b)
    ensures a == b
  {
    ParseIntText(a);
    ParseIntText(b);
  }

  lemma JoinAppend(directory: string, name: string, tail: string)
    ensures Join(directory, name + tail) == Join(directory, name) + tail
  {
  }

  lemma Cancel(lead: string, a: string, b: string, tail: string)
    requires lead + (a + tail) == lead + (b + tail)
    ensures a == b
  {
    var x := lead + (a + tail);
    assert a == x[|lead|..|lead| + |a|];
  }

  /** Each chunk name ends with its own number, so no two chunks share a file. */
  lemma ChunkNamesDistinct(path: string, i: nat, j: nat)
    requires i != j
    ensures ChunkName(path, i) != ChunkName(path, j)
  {
    var d := DirName(path);
    var prefix := Stem(BaseName(path)) + "_part";
    var lead := Join(d, prefix);
    var a := IntText(i + 1);
    var b := IntText(j + 1);
    assert prefix + a + ".voro" == prefix + (a + ".voro");
    assert prefix + b + ".voro" == prefix + (b + ".voro");
    JoinAppend(d, prefix, a + ".voro");
    JoinAppend(d, prefix, b + ".voro");
    assert ChunkName(path, i) == lead + (a + ".voro");
    assert ChunkName(path, j) == lead + (b + ".voro");
    if ChunkName(path, i) == ChunkName(path, j) {
      Cancel(lead, a, b, ".voro");
      IntTextInjective(i + 1, j + 1);
    }
  }

  // ---------------------------------------------------------------------------
  // The loop
  // ---------------------------------------------------------------------------

  /** `split_voro_file`: the chunk names and contents in the order they are written. */
  method SplitVoroFile(data: seq<bv8>, path: string, chunkSizeMb: int) returns (r: Result<seq<(string, seq<bv8>)>, SplitError>)
    ensures r.Failure? <==> SplitSpec(data, chunkSizeMb).Failure?
    ensures r.Success? ==>
      |r.value| == |SplitSpec(data, chunkSizeMb).value| &&
      forall i :: 0 <= i < |r.value| ==> r.value[i] == (ChunkName(path, i), SplitSpec(data, chunkSizeMb).value[i])
  {
    var chunk := ChunkBytes(chunkSizeMb);
    if chunk == 0 {
      return Failure(ZeroChunkSize);
    }
    var count := ChunkCount(|data|, chunk);
    var written: seq<(string, seq<bv8>)> := [];
    var cursor := 0;
    for i := 0 to count
      invariant chunk > 0 || count == 0
      invariant cursor == Min(i * chunk, |data|)
      invariant |written| == i
      invariant forall j :: 0 <= j < i ==> written[j] == (ChunkName(path, j), Piece(data, chunk, j))
    {
      var next := Min(cursor + chunk, |data|);
      assert (i + 1) * chunk == i * chunk + chunk;
      written := written + [(ChunkName(path, i), data[cursor..next])];
      cursor := next;
    }
    r := Success(written);
  }
}
