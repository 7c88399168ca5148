/** One node's chunk directory, and the map from chunk ids to bytes that it implements. */
module StorageEngine {
  import opened Types
  import opened Naming
  import opened Chunking

  const CHUNK := ".chunk"
  const TEMP := ".tmp"

  datatype Op =
    | Store(id: Id, data: Bytes, expected: Option<Digest>)
    | Retrieve(id: Id)
    | Remove(id: Id)
    | Verify(id: Id, sha: Digest)

  /** Bytes stored, or an IntegrityError; chunk bytes, or a FileNotFoundError; a boolean. */
  datatype Reply = Size(n: nat) | Mismatch | Content(data: Bytes) | NotFound | Flag(b: bool)

  function PathOf(id: Id, alnum: char -> bool): string {
    Sanitize(id, alnum) + CHUNK
  }

  /** with_suffix replaces the suffix, but the leading dot of a bare ".chunk" does not start one. */
  function TempOf(id: Id, alnum: char -> bool): string {
    if Sanitize(id, alnum) == "" then CHUNK + TEMP else Sanitize(id, alnum) + TEMP
  }

  function Accepts(k: Crypto, data: Bytes, expected: Option<Digest>): bool {
    expected.None? || k.hash(data) == expected.value
  }

  /** The engine's operations on its directory, old directory to new. */
  function OnFiles(k: Crypto, alnum: char -> bool, files: map<string, Bytes>, op: Op): (map<string, Bytes>, Reply) {
    var path := PathOf(op.id, alnum);
    match op
    case Store(id, data, expected) =>
      if Accepts(k, data, expected) then ((files - {TempOf(id, alnum)})[path := data], Size(|data|))
      else (files, Mismatch)
    case Retrieve(_) => (files, if path in files then Content(files[path]) else NotFound)
    case Remove(_) => (files - {path}, Flag(path in files))
    case Verify(_, sha) => (files, Flag(path in files && k.hash(files[path]) == sha))
  }

  /** The directory as the engine changes it, file by file. */
  class Engine {
    const k: Crypto
    const alnum: char -> bool
    var files: map<string, Bytes>

    constructor (k: Crypto, alnum: char -> bool)
      ensures this.k == k && this.alnum == alnum && files == map[]
    {
      this.k, this.alnum, files := k, alnum, map[];
    }

    /** store_chunk: check, write beside, remove the old file, rename. */
    method StoreChunk(id: Id, data: Bytes, expected: Option<Digest>) returns (r: Reply)
      modifies this
      ensures (files, r) == OnFiles(k, alnum, old(files), Store(id, data, expected))
    {
      hide Sanitize, PathOf, TempOf;
      if expected.Some? && k.hash(data) != expected.value {
        return Mismatch;
      }
      var path, temp := PathOf(id, alnum), TempOf(id, alnum);
      TempIsNoChunk(id, id, alnum);
      files := files[temp := data];
      if path in files {
        files := files - {path};
      }
      files := (files - {temp})[path := files[temp]];
      assert files == (old(files) - {temp})[path := data];
      r := Size(|data|);
    }

    method RetrieveChunk(id: Id) returns (r: Reply)
      ensures (files, r) == OnFiles(k, alnum, files, Retrieve(id))
    {
      hide PathOf;
      if PathOf(id, alnum) !in files {
        return NotFound;
      }
      r := Content(files[PathOf(id, alnum)]);
    }

    method DeleteChunk(id: Id) returns (r: Reply)
      modifies this
      ensures (files, r) == OnFiles(k, alnum, old(files), Remove(id))
    {
      hide PathOf;
      if PathOf(id, alnum) in files {
        files := files - {PathOf(id, alnum)};
        return Flag(true);
      }
      assert files - {PathOf(id, alnum)} == files;
      r := Flag(false);
    }

    method VerifyChunk(id: Id, sha: Digest) returns (r: Reply)
      ensures (files, r) == OnFiles(k, alnum, files, Verify(id, sha))
    {
      hide PathOf;
      if PathOf(id, alnum) !in files {
        return Flag(false);
      }
      var digest := CalculateFileHash(k, files[PathOf(id, alnum)], 65536);
      r := Flag(digest == sha);
    }
  }

  lemma TempIsNoChunk(a: Id, b: Id, alnum: char -> bool)
    ensures PathOf(a, alnum) != TempOf(b, alnum)
  {
    hide Sanitize;
    var path, temp := PathOf(a, alnum), TempOf(b, alnum);
    assert path[|path| - 1] == 'k';
    assert temp[|temp| - 1] == 'p';
  }

  /** The same operations on a plain map from chunk ids to bytes. */
  function OnMap(k: Crypto, m: map<Id, Bytes>, op: Op): (map<Id, Bytes>, Reply) {
    match op
    case Store(id, data, expected) =>
        if expected.None? || k.hash(data) == expected.value then (m[id := data], Size(|data|)) else (m, Mismatch)
    case Retrieve(id) => (m, if id in m then Content(m[id]) else NotFound)
    case Remove(id) => (m - {id}, Flag(id in m))
    case Verify(id, sha) => (m, Flag(id in m && k.hash(m[id]) == sha))
  }

  /** Files and map agree on every id that sanitising keeps. */
  ghost predicate Represents(alnum: char -> bool, files: map<string, Bytes>, m: map<Id, Bytes>) {
    forall id :: Stable(id, alnum) ==>
      (id in m <==> PathOf(id, alnum) in files) && (id in m ==> m[id] == files[PathOf(id, alnum)])
  }

  /** The two files of an id: "<safe>.chunk" and, beside it, "<safe>.tmp". */
  lemma PathsSpelled(id: Id, alnum: char -> bool)
    ensures PathOf(id, alnum) == Sanitize(id, alnum) + ".chunk"
    ensures TempOf(id, alnum) == if Sanitize(id, alnum) == "" then ".chunk.tmp" else Sanitize(id, alnum) + ".tmp"
  {}

  /** The directory after each operation, file by file: an accepted store replaces the chunk file and leaves no
      temporary one, a delete removes the chunk file, and nothing else ever changes. */
  lemma DirectoryOutcome(k: Crypto, alnum: char -> bool, files: map<string, Bytes>, op: Op, name: string)
    ensures var after := OnFiles(k, alnum, files, op).0;
            var stored := op.Store? && (op.expected.None? || k.hash(op.data) == op.expected.value);
            if name == PathOf(op.id, alnum) then
              (name in after <==> stored || (name in files && !op.Remove?))
              && (name in after ==> after[name] == if stored then op.data else files[name])
            else
              (name in after <==> name in files && !(stored && name == TempOf(op.id, alnum)))
              && (name in after ==> after[name] == files[name])
  {
    hide PathOf, TempOf;
    TempIsNoChunk(op.id, op.id, alnum);
  }

  /** Stable ids have their own files, and no temporary file is a chunk file. */
  lemma StablePaths(alnum: char -> bool, a: Id, b: Id)
    requires Stable(a, alnum) && Stable(b, alnum)
    ensures PathOf(a, alnum) == PathOf(b, alnum) <==> a == b
    ensures PathOf(a, alnum) != TempOf(b, alnum)
  {
    hide Sanitize, TempOf;
    StableIdsDiffer(a, b, alnum);
    SanitizeExact(a, alnum);
    SanitizeExact(b, alnum);
    TempIsNoChunk(a, b, alnum);
    if PathOf(a, alnum) == PathOf(b, alnum) {
      assert |a| == |b|;
      assert a == (a + CHUNK)[..|a|] == (b + CHUNK)[..|b|] == b;
    }
  }

  /** One operation on a stable id: the same answer, and the directory still represents the map. */
  lemma StepRefines(k: Crypto, alnum: char -> bool, files: map<string, Bytes>, m: map<Id, Bytes>, op: Op)
    requires Represents(alnum, files, m) && Stable(op.id, alnum)
    ensures OnFiles(k, alnum, files, op).1 == OnMap(k, m, op).1
    ensures Represents(alnum, OnFiles(k, alnum, files, op).0, OnMap(k, m, op).0)
  {
    hide PathOf, TempOf, Sanitize, Stable;
    forall id | Stable(id, alnum)
      ensures PathOf(id, alnum) == PathOf(op.id, alnum) <==> id == op.id
      ensures PathOf(id, alnum) != TempOf(op.id, alnum)
    {
      StablePaths(alnum, id, op.id);
    }
  }

  function RunFiles(k: Crypto, alnum: char -> bool, files: map<string, Bytes>, ops: seq<Op>): seq<Reply>
    decreases |ops|
  {
    if ops == [] then []
    else [OnFiles(k, alnum, files, ops[0]).1] + RunFiles(k, alnum, OnFiles(k, alnum, files, ops[0]).0, ops[1..])
  }

  function RunMap(k: Crypto, m: map<Id, Bytes>, ops: seq<Op>): seq<Reply>
    decreases |ops|
  {
    if ops == [] then [] else [OnMap(k, m, ops[0]).1] + RunMap(k, OnMap(k, m, ops[0]).0, ops[1..])
  }

  /** Under any sequence of operations on stable ids the engine answers like the map. */
  lemma {:induction false} EngineRefinesMap(k: Crypto, alnum: char -> bool, files: map<string, Bytes>,
                                            m: map<Id, Bytes>, ops: seq<Op>)
    requires Represents(alnum, files, m) && forall i :: 0 <= i < |ops| ==> Stable(ops[i].id, alnum)
    ensures RunFiles(k, alnum, files, ops) == RunMap(k, m, ops)
    decreases |ops|
  {
    hide OnFiles, OnMap, Represents, Stable;
    if ops != [] {
      StepRefines(k, alnum, files, m, ops[0]);
      EngineRefinesMap(k, alnum, OnFiles(k, alnum, files, ops[0]).0, OnMap(k, m, ops[0]).0, ops[1..]);
    }
  }
}
