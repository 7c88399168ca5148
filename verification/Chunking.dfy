/** Hashing, splitting a file into chunks, and putting a chunk stream back into a file. */
module Chunking {
  import opened Types
  import opened Naming

  /** hashlib's sha256 object: what has been fed to it so far. */
  class IncrementalHasher {
    var fed: Bytes
    var bytesProcessed: nat

    ghost predicate Valid() reads this {
      bytesProcessed == |fed|
    }

    constructor ()
      ensures Valid() && fed == []
    {
      fed, bytesProcessed := [], 0;
    }

    method Update(data: Bytes)
      requires Valid()
      modifies this
      ensures Valid() && fed == old(fed) + data
    {
      fed := fed + data;
      bytesProcessed := bytesProcessed + |data|;
    }

    function HexDigest(k: Crypto): Digest reads this {
      k.hash(fed)
    }
  }

  /** Python's f.read(n) at offset pos: a negative n reads to the end. */
  function Read(data: Bytes, pos: nat, n: int): Bytes
    requires pos <= |data|
  {
    if n < 0 || pos + n > |data| then data[pos..] else data[pos..pos + n]
  }

  /** The successive non-empty reads from offset pos to the end of the file. */
  function PiecesFrom(data: Bytes, pos: nat, n: int): (ps: seq<Bytes>)
    requires pos <= |data|
    decreases |data| - pos
  {
    var b := Read(data, pos, n);
    if b == [] then [] else [b] + PiecesFrom(data, pos + |b|, n)
  }

  function Pieces(data: Bytes, n: int): seq<Bytes> {
    PiecesFrom(data, 0, n)
  }

  function Concat(ps: seq<Bytes>): Bytes {
    if ps == [] then [] else ps[0] + Concat(ps[1..])
  }

  lemma {:induction false} ConcatSnoc(ps: seq<Bytes>, b: Bytes)
    ensures Concat(ps + [b]) == Concat(ps) + b
  {
    if ps == [] {
      assert [b][1..] == [];
    } else {
      ConcatSnoc(ps[1..], b);
      assert (ps + [b])[1..] == ps[1..] + [b];
    }
  }

  datatype ChunkRow = ChunkRow(id: Id, chunk: Chunk)

  function Model(k: Crypto, fileId: Id, i: nat, piece: Bytes): ChunkRow {
    ChunkRow(ChunkId(fileId, i), Chunk(fileId, i, |piece|, k.hash(piece)))
  }

  function Models(k: Crypto, fileId: Id, ps: seq<Bytes>): seq<ChunkRow> {
    seq(|ps|, i requires 0 <= i < |ps| => Model(k, fileId, i, ps[i]))
  }

  lemma {:induction false} PiecesAt(data: Bytes, pos: nat, n: int, i: nat, at: nat)
    requires 1 <= n && pos <= |data| && i < |PiecesFrom(data, pos, n)| && at == pos + i * n
    ensures at < |data| && PiecesFrom(data, pos, n)[i] == Read(data, at, n)
    decreases i
  {
    hide Read;
    var b := Read(data, pos, n);
    ReadFull(data, pos, n);
    OneTimesMore(i, n);
    if i > 0 {
      FullUnlessLast(data, pos, n);
      PiecesAt(data, pos + n, n, i - 1, at);
    }
  }

  lemma FullUnlessLast(data: Bytes, pos: nat, n: int)
    requires 1 <= n && pos <= |data| && |PiecesFrom(data, pos, n)| > 1
    ensures |Read(data, pos, n)| == n && pos + n <= |data|
  {
    ReadFull(data, pos, n);
    hide Read;
  }

  /** Only the last read is short. */
  lemma ReadFull(data: Bytes, pos: nat, n: int)
    requires 1 <= n && pos <= |data|
    ensures var b := Read(data, pos, n);
            pos + |b| <= |data| && (b == [] <==> pos == |data|) && (|b| == n || pos + |b| == |data|)
  {}

  lemma OneTimesMore(i: nat, n: nat)
    ensures i > 0 ==> (i - 1) * n + n == i * n && i * n >= n
    ensures i == 0 ==> i * n == 0
  {}

  lemma {:induction false} PiecesCount(data: Bytes, pos: nat, n: int)
    requires 1 <= n && pos <= |data|
    ensures |PiecesFrom(data, pos, n)| == (|data| - pos + n - 1) / n
    decreases |data| - pos
  {
    var b := Read(data, pos, n);
    var left := |data| - pos;
    if b == [] {
      Small(n - 1, n);
    } else {
      PiecesCount(data, pos + |b|, n);
      if left >= n {
        Ceil(left, n);
      } else {
        OneMore(left, n);
        Small(n - 1, n);
      }
    }
  }

  lemma Small(a: nat, n: nat)
    requires a < n
    ensures a / n == 0
  {}

  lemma Ceil(a: nat, n: nat)
    requires 1 <= n <= a
    ensures (a + n - 1) / n == 1 + (a - n + n - 1) / n
  {
    var q := (a - 1) / n;
    assert a - 1 + n == (q + 1) * n + (a - 1) % n;
    Quotient(a - 1 + n, n, q + 1, (a - 1) % n);
  }

  lemma OneMore(a: nat, n: nat)
    requires 1 <= a <= n
    ensures (a + n - 1) / n == 1
  {
    Quotient(a + n - 1, n, 1, a - 1);
  }

  lemma Quotient(a: nat, n: nat, q: nat, r: nat)
    requires n >= 1 && r < n && a == q * n + r
    ensures a / n == q
  {
    var d := a / n - q;
    assert d * n == r - a % n;
    assert d >= 1 ==> d * n >= n;
    assert d <= -1 ==> d * n + n <= 0;
  }

  /** For a positive chunk size: ceil(size / n) chunks, chunk i holding bytes i*n up to (i+1)*n or the end. */
  lemma SplitShape(data: Bytes, n: int)
    requires n >= 1
    ensures |Pieces(data, n)| == (|data| + n - 1) / n
    ensures forall i :: 0 <= i < |Pieces(data, n)| ==>
              && i * n < |data|
              && Pieces(data, n)[i] == data[i * n..if (i + 1) * n <= |data| then (i + 1) * n else |data|]
  {
    hide PiecesFrom;
    PiecesCount(data, 0, n);
    forall i | 0 <= i < |Pieces(data, n)|
      ensures i * n < |data| && Pieces(data, n)[i] == data[i * n..if (i + 1) * n <= |data| then (i + 1) * n else |data|]
    {
      PieceAt(data, n, i);
    }
  }

  lemma PieceAt(data: Bytes, n: int, i: nat)
    requires n >= 1 && i < |Pieces(data, n)|
    ensures i * n < |data|
    ensures Pieces(data, n)[i] == data[i * n..if (i + 1) * n <= |data| then (i + 1) * n else |data|]
  {
    hide PiecesFrom;
    OneTimesMore(i, n);
    OneTimesMore(i + 1, n);
    PiecesAt(data, 0, n, i, i * n);
  }

  lemma ReadSplits(data: Bytes, pos: nat, n: int)
    requires pos <= |data|
    ensures pos + |Read(data, pos, n)| <= |data|
            && data[pos..] == Read(data, pos, n) + data[pos + |Read(data, pos, n)|..]
    ensures Read(data, pos, n) == [] <==> n == 0 || pos == |data|
  {}

  lemma {:induction false} PiecesConcat(data: Bytes, pos: nat, n: int)
    requires pos <= |data|
    ensures n != 0 ==> Concat(PiecesFrom(data, pos, n)) == data[pos..]
    decreases |data| - pos
  {
    hide Read;
    var b := Read(data, pos, n);
    ReadSplits(data, pos, n);
    if b != [] {
      PiecesConcat(data, pos + |b|, n);
      assert PiecesFrom(data, pos, n)[1..] == PiecesFrom(data, pos + |b|, n);
    }
  }

  /** Splitting loses nothing exactly when the chunk size is non-zero or the file is empty. */
  lemma SplitThenConcat(data: Bytes, n: int)
    ensures Concat(Pieces(data, n)) == data <==> n != 0 || data == []
  {
    PiecesConcat(data, 0, n);
    assert data[0..] == data;
  }

  // ---------- the metadata in plain terms ----------

  function TotalSize(rows: seq<ChunkRow>): nat {
    if rows == [] then 0 else rows[0].chunk.size + TotalSize(rows[1..])
  }

  /** rows tabulates data cut every n bytes: row i has its number, its length and the hash of its bytes, and the lengths
      add up to the file. A negative n means one piece, and with n = 0 nothing is ever read. */
  ghost predicate Tabulates(k: Crypto, data: Bytes, fileId: Id, n: int, rows: seq<ChunkRow>) {
    && (n == 0 || data == [] ==> rows == [])
    && (n < 0 && data != [] ==> rows == [ChunkRow(ChunkId(fileId, 0), Chunk(fileId, 0, |data|, k.hash(data)))])
    && (n >= 1 ==>
          && |rows| == (|data| + n - 1) / n
          && forall i :: 0 <= i < |rows| ==>
               var end := if (i + 1) * n <= |data| then (i + 1) * n else |data|;
               && 0 <= i * n < end
               && rows[i] == ChunkRow(ChunkId(fileId, i), Chunk(fileId, i, end - i * n, k.hash(data[i * n..end]))))
    && (n != 0 ==> TotalSize(rows) == |data|)
  }

  lemma {:induction false} TotalIs(rows: seq<ChunkRow>, ps: seq<Bytes>)
    requires |rows| == |ps| && forall i :: 0 <= i < |rows| ==> rows[i].chunk.size == |ps[i]|
    ensures TotalSize(rows) == |Concat(ps)|
  {
    if rows != [] {
      TotalIs(rows[1..], ps[1..]);
    }
  }

  lemma ModelsTabulate(k: Crypto, data: Bytes, fileId: Id, n: int)
    ensures Tabulates(k, data, fileId, n, Models(k, fileId, Pieces(data, n)))
  {
    var ps := Pieces(data, n);
    var rows := Models(k, fileId, ps);
    ReadSplits(data, 0, n);
    SplitThenConcat(data, n);
    TotalIs(rows, ps);
    if n < 0 {
      WholePiece(data, n);
    } else if n >= 1 {
      SplitShape(data, n);
      forall i | 0 <= i < |rows|
        ensures var end := if (i + 1) * n <= |data| then (i + 1) * n else |data|;
                && 0 <= i * n < end
                && rows[i] == ChunkRow(ChunkId(fileId, i), Chunk(fileId, i, end - i * n, k.hash(data[i * n..end])))
      {
        RowTabulates(k, data, fileId, n, i);
      }
    }
  }

  lemma WholePiece(data: Bytes, n: int)
    requires n < 0
    ensures Pieces(data, n) == if data == [] then [] else [data]
  {
    assert data[0..] == data;
    assert Read(data, 0, n) == data;
    assert PiecesFrom(data, |data|, n) == [];
  }

  lemma RowTabulates(k: Crypto, data: Bytes, fileId: Id, n: int, i: nat)
    requires n >= 1 && i < |Pieces(data, n)|
    ensures var end := if (i + 1) * n <= |data| then (i + 1) * n else |data|;
            && 0 <= i * n < end
            && Models(k, fileId, Pieces(data, n))[i]
               == ChunkRow(ChunkId(fileId, i), Chunk(fileId, i, end - i * n, k.hash(data[i * n..end])))
  {
    hide Pieces, ChunkId;
    PieceAt(data, n, i);
    OneTimesMore(i, n);
    OneTimesMore(i + 1, n);
  }

  /** FileChunker.get_file_info_and_chunks. */
  method GetFileInfoAndChunks(k: Crypto, data: Bytes, fileId: Id, chunkSize: int)
    returns (digest: Digest, size: nat, rows: seq<ChunkRow>)
    ensures size == |data|
    ensures rows == Models(k, fileId, Pieces(data, chunkSize)) && Tabulates(k, data, fileId, chunkSize, rows)
    ensures digest == k.hash(Concat(Pieces(data, chunkSize)))
    ensures digest == k.hash(if chunkSize == 0 then [] else data)
  {
    size := |data|;
    hide HasRead, Pieces, Concat, Model, Models, Read, ChunkId, Tabulates;
    var hasher := new IncrementalHasher();
    rows := [];
    var pos, sequence := 0, 0;
    ReachStart(k, data, fileId, chunkSize);
    while true
      invariant hasher.Valid() && fresh(hasher)
      invariant pos <= |data| && HasRead(k, data, fileId, chunkSize, pos, sequence, rows, hasher.fed)
      decreases |data| - pos
    {
      var b := Read(data, pos, chunkSize);
      if b == [] {
        break;
      }
      ReachNext(k, data, fileId, chunkSize, pos, sequence, rows, hasher.fed);
      hasher.Update(b);
      rows := rows + [Model(k, fileId, sequence, b)];
      pos, sequence := pos + |b|, sequence + 1;
    }
    ReachEnd(k, data, fileId, chunkSize, pos, sequence, rows, hasher.fed);
    digest := hasher.HexDigest(k);
  }

  lemma DigestIs(data: Bytes, n: int)
    ensures Concat(Pieces(data, n)) == if n == 0 then [] else data
  {
    SplitThenConcat(data, n);
    ReadSplits(data, 0, n);
  }

  /** The read loop stands at offset pos before piece i, having described and hashed the pieces before it. */
  ghost predicate HasRead(k: Crypto, data: Bytes, fileId: Id, n: int, pos: nat, i: nat, rows: seq<ChunkRow>,
      fed: Bytes) {
    var ps := Pieces(data, n);
    pos <= |data| && i <= |ps| && At(data, pos, n, ps, i) && Built(k, fileId, ps, rows, i) && fed == Fed(ps, i)
  }

  lemma ReachStart(k: Crypto, data: Bytes, fileId: Id, n: int)
    ensures HasRead(k, data, fileId, n, 0, 0, [], [])
  {
    FirstPiece(data, n);
    BuiltNothing(k, fileId, Pieces(data, n));
  }

  lemma ReachNext(k: Crypto, data: Bytes, fileId: Id, n: int, pos: nat, i: nat, rows: seq<ChunkRow>, fed: Bytes)
    requires pos <= |data| && HasRead(k, data, fileId, n, pos, i, rows, fed) && Read(data, pos, n) != []
    ensures var b := Read(data, pos, n);
            pos + |b| <= |data|
            && HasRead(k, data, fileId, n, pos + |b|, i + 1, rows + [Model(k, fileId, i, b)], fed + b)
  {
    hide Fed, PiecesFrom, Pieces, At, Built, Concat, Model, Read;
    NextPiece(data, pos, n, Pieces(data, n), i);
    BuiltStep(k, fileId, Pieces(data, n), rows, i);
  }

  lemma ReachEnd(k: Crypto, data: Bytes, fileId: Id, n: int, pos: nat, i: nat, rows: seq<ChunkRow>, fed: Bytes)
    requires pos <= |data| && HasRead(k, data, fileId, n, pos, i, rows, fed) && Read(data, pos, n) == []
    ensures rows == Models(k, fileId, Pieces(data, n)) && fed == Concat(Pieces(data, n))
    ensures Tabulates(k, data, fileId, n, rows) && fed == if n == 0 then [] else data
  {
    hide Fed, PiecesFrom, Pieces, At, Built, Concat, Model, Models, Read, Tabulates;
    ModelsTabulate(k, data, fileId, n);
    DigestIs(data, n);
    LastPiece(data, pos, n, Pieces(data, n), i);
    ModelsAre(k, fileId, Pieces(data, n), rows);
  }

  /** A read loop over the pieces ps has reached offset pos and piece i. */
  ghost predicate At(data: Bytes, pos: nat, n: int, ps: seq<Bytes>, i: nat) {
    pos <= |data| && i <= |ps| && PiecesFrom(data, pos, n) == ps[i..]
  }

  /** The bytes of the first i pieces. */
  function Fed(ps: seq<Bytes>, i: nat): Bytes {
    if i <= |ps| then Concat(ps[..i]) else []
  }

  lemma FirstPiece(data: Bytes, n: int)
    ensures At(data, 0, n, Pieces(data, n), 0)
    ensures Fed(Pieces(data, n), 0) == []
  {}

  /** rows describes the first i pieces. */
  ghost predicate Built(k: Crypto, fileId: Id, ps: seq<Bytes>, rows: seq<ChunkRow>, i: nat) {
    |rows| == i <= |ps| && forall j :: 0 <= j < i ==> rows[j] == Model(k, fileId, j, ps[j])
  }

  lemma BuiltNothing(k: Crypto, fileId: Id, ps: seq<Bytes>)
    ensures Built(k, fileId, ps, [], 0)
  {}

  lemma BuiltStep(k: Crypto, fileId: Id, ps: seq<Bytes>, rows: seq<ChunkRow>, i: nat)
    requires Built(k, fileId, ps, rows, i) && i < |ps|
    ensures Built(k, fileId, ps, rows + [Model(k, fileId, i, ps[i])], i + 1)
  {
    hide Model;
  }

  lemma ModelsAre(k: Crypto, fileId: Id, ps: seq<Bytes>, rows: seq<ChunkRow>)
    requires Built(k, fileId, ps, rows, |ps|)
    ensures rows == Models(k, fileId, ps)
  {
    hide Model;
  }

  lemma LastPiece(data: Bytes, pos: nat, n: int, ps: seq<Bytes>, i: nat)
    requires pos <= |data| && At(data, pos, n, ps, i) && Read(data, pos, n) == []
    ensures i == |ps| && Fed(ps, i) == Concat(ps)
  {
    assert ps[..|ps|] == ps;
  }

  lemma NextPiece(data: Bytes, pos: nat, n: int, ps: seq<Bytes>, i: nat)
    requires pos <= |data| && At(data, pos, n, ps, i) && Read(data, pos, n) != []
    ensures pos + |Read(data, pos, n)| <= |data|
    ensures i < |ps| && ps[i] == Read(data, pos, n)
    ensures At(data, pos + |ps[i]|, n, ps, i + 1)
    ensures Fed(ps, i + 1) == Fed(ps, i) + ps[i]
  {
    ReadSplits(data, pos, n);
    hide Read, Concat, Fed;
    var b := Read(data, pos, n);
    var rest := PiecesFrom(data, pos + |b|, n);
    assert ps[i..] == [b] + rest;
    hide PiecesFrom;
    assert i < |ps| && ps[i] == ps[i..][0] == b;
    assert ps[i + 1..] == ps[i..][1..] == rest;
    FedNext(ps, i);
  }

  lemma FedNext(ps: seq<Bytes>, i: nat)
    requires i < |ps|
    ensures Fed(ps, i + 1) == Fed(ps, i) + ps[i]
  {
    ConcatSnoc(ps[..i], ps[i]);
    hide Concat;
    assert ps[..i] + [ps[i]] == ps[..i + 1];
  }

  /** FileChunker.stream_chunks: the same metadata, each with its bytes. */
  method StreamChunks(k: Crypto, data: Bytes, fileId: Id, chunkSize: int)
    returns (rows: seq<ChunkRow>, blobs: seq<Bytes>)
    ensures rows == Models(k, fileId, Pieces(data, chunkSize)) && Tabulates(k, data, fileId, chunkSize, rows)
    ensures blobs == Pieces(data, chunkSize)
  {
    hide Fed, PiecesFrom, Pieces, At, Built, Concat, Model, Models, Read, ChunkId, Tabulates;
    ghost var ps := Pieces(data, chunkSize);
    rows, blobs := [], [];
    var pos, sequence := 0, 0;
    FirstPiece(data, chunkSize);
    BuiltNothing(k, fileId, ps);
    while true
      invariant pos <= |data| && sequence <= |ps| && At(data, pos, chunkSize, ps, sequence)
      invariant Built(k, fileId, ps, rows, sequence)
      invariant |blobs| == sequence && forall i :: 0 <= i < sequence ==> blobs[i] == ps[i]
      decreases |data| - pos
    {
      var b := Read(data, pos, chunkSize);
      if b == [] {
        LastPiece(data, pos, chunkSize, ps, sequence);
        break;
      }
      NextPiece(data, pos, chunkSize, ps, sequence);
      BuiltStep(k, fileId, ps, rows, sequence);
      rows, blobs := rows + [Model(k, fileId, sequence, b)], blobs + [b];
      pos, sequence := pos + |b|, sequence + 1;
    }
    ModelsAre(k, fileId, ps, rows);
    ModelsTabulate(k, data, fileId, chunkSize);
  }

  /** calculate_file_hash: reading through a buffer gives the hash of the file, a buffer of no bytes reads none. */
  method CalculateFileHash(k: Crypto, data: Bytes, bufferSize: int) returns (digest: Digest)
    ensures digest == if bufferSize == 0 then k.hash([]) else k.hash(data)
  {
    var hasher := new IncrementalHasher();
    var pos := 0;
    while true
      invariant hasher.Valid() && fresh(hasher)
      invariant pos <= |data| && hasher.fed == data[..pos]
      invariant bufferSize == 0 ==> pos == 0
      decreases |data| - pos
    {
      var b := Read(data, pos, bufferSize);
      ReadSplits(data, pos, bufferSize);
      if b == [] {
        break;
      }
      hasher.Update(b);
      pos := pos + |b|;
    }
    assert data[..|data|] == data;
    digest := hasher.HexDigest(k);
  }

  /** The bytes a stream delivers; None when some element is a raised exception. */
  function Delivered(stream: seq<Option<Bytes>>): Option<Bytes> {
    if stream == [] then Some([])
    else if stream[0].None? then None
    else match Delivered(stream[1..])
      case None => None
      case Some(rest) => Some(stream[0].value + rest)
  }

  lemma {:induction false} DeliveredSnoc(stream: seq<Option<Bytes>>, x: Option<Bytes>)
    ensures Delivered(stream + [x]) ==
            if Delivered(stream).None? || x.None? then None else Some(Delivered(stream).value + x.value)
  {
    if stream == [] {
      assert stream + [x] == [x] && [x][1..] == [];
      assert x.Some? ==> x.value + [] == x.value == [] + x.value;
    } else {
      DeliveredSnoc(stream[1..], x);
      assert (stream + [x])[1..] == stream[1..] + [x];
      if stream[0].Some? && x.Some? && Delivered(stream[1..]).Some? {
        var a, b := stream[0].value, Delivered(stream[1..]).value;
        assert a + (b + x.value) == (a + b) + x.value;
      }
    }
  }

  lemma {:induction false} DeliveredStops(stream: seq<Option<Bytes>>, i: nat)
    requires i < |stream| && stream[i].None?
    ensures Delivered(stream).None?
  {
    if i > 0 {
      DeliveredStops(stream[1..], i - 1);
    }
  }

  /** The manager's own file system, as far as downloads touch it. */
  class FileSystem {
    var files: map<string, Bytes>

    constructor ()
      ensures files == map[]
    {
      files := map[];
    }

    /** FileChunker.assemble_file_from_stream: all of the stream, or the old target untouched. */
    method Assemble(k: Crypto, stream: seq<Option<Bytes>>, outPath: string, expected: Digest) returns (ok: bool)
      modifies this
      ensures ok <==> Delivered(stream).Some? && k.hash(Delivered(stream).value) == expected
      ensures ok ==> files == (old(files) - {outPath + ".tmp"})[outPath := Delivered(stream).value]
      ensures !ok ==> files == old(files) - {outPath + ".tmp"}
    {
      var temp := outPath + ".tmp";
      var hasher := new IncrementalHasher();
      files := files[temp := []];
      for i := 0 to |stream|
        invariant hasher.Valid() && fresh(hasher)
        invariant Delivered(stream[..i]) == Some(hasher.fed)
        invariant files == old(files)[temp := hasher.fed]
      {
        DeliveredSnoc(stream[..i], stream[i]);
        assert stream[..i] + [stream[i]] == stream[..i + 1];
        if stream[i].None? {
          DeliveredStops(stream, i);
          files := files - {temp};
          return false;
        }
        hasher.Update(stream[i].value);
        files := files[temp := files[temp] + stream[i].value];
      }
      assert stream[..|stream|] == stream;
      if hasher.HexDigest(k) != expected {
        files := files - {temp};
        return false;
      }
      assert temp != outPath;
      if outPath in files {
        files := files - {outPath};
      }
      files := (files - {temp})[outPath := files[temp]];
      ok := true;
    }
  }
}
