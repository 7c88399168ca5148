/** Whole runs of the manager: what every step keeps, and what follows for every reachable state. */
module Runs {
  import opened Types
  import opened Naming
  import opened Chunking
  import opened Placement
  import opened Recovery
  import opened Transfers
  import opened Downloads

  /** The system state plus, for the statements only, the bytes each file id was uploaded with. */
  datatype World = World(s: State, uploaded: map<Id, Bytes>)

  datatype Step =
    | DoUpload(env: Env, job: Job)
    | DoRegister(env: Env, n: Id, node: Node)
    | DoHeartbeat(n: Id, avail: int, total: int, now: int)
    | DoRecover(env: Env, n: Id)
    | DoDownload(env: Env, f: Id)
    | DoDelete(env: Env, f: Id)
    | DoTamper(key: Key, contents: Option<Bytes>)

  /** update_node_heartbeat with whatever status the request carries; unknown nodes are refused. */
  function HeartbeatAs(s: State, n: Id, avail: int, total: int, status: NodeStatus, now: int): State {
    if n in s.nodes then s.(nodes := s.nodes[n := Node(total, avail, status, now)]) else s
  }

  /** The heartbeat the nodes send. */
  function Heartbeat(s: State, n: Id, avail: int, total: int, now: int): State {
    HeartbeatAs(s, n, avail, total, Online, now)
  }

  /** Something outside the system replaces or removes a chunk file. */
  function Tamper(s: State, key: Key, contents: Option<Bytes>): State {
    s.(disk := match contents case None => s.disk - {key} case Some(b) => s.disk[key := b])
  }

  /** File ids are never reused; every SELECT is fair. */
  ghost predicate Enabled(w: World, step: Step) {
    match step
    case DoUpload(env, job) => Fair(env) && job.fileId !in w.uploaded
    case DoRegister(env, _, _) => Fair(env)
    case DoRecover(env, _) => Fair(env)
    case DoDownload(env, _) => Fair(env)
    case DoDelete(env, _) => Fair(env)
    case DoHeartbeat(_, _, _, _) => true
    case DoTamper(_, _) => true
  }

  ghost function Apply(k: Crypto, w: World, step: Step): World
    requires Enabled(w, step)
  {
    match step
    case DoUpload(env, job) => World(Upload(k, env, job, w.s).0, w.uploaded[job.fileId := job.data])
    case DoRegister(env, n, node) => w.(s := Register(k, w.s, env, n, node))
    case DoHeartbeat(n, avail, total, now) => w.(s := Heartbeat(w.s, n, avail, total, now))
    case DoRecover(env, n) => w.(s := RecoverNode(k, w.s, env, n))
    case DoDownload(env, f) => w.(s := Download(k, env, w.s, f).0)
    case DoDelete(env, f) => w.(s := Delete(env, w.s, f))
    case DoTamper(key, contents) => w.(s := Tamper(w.s, key, contents))
  }

  ghost predicate Legal(k: Crypto, w: World, steps: seq<Step>)
    decreases |steps|
  {
    steps == [] || (Enabled(w, steps[0]) && Legal(k, Apply(k, w, steps[0]), steps[1..]))
  }

  ghost function Exec(k: Crypto, w: World, steps: seq<Step>): World
    requires Legal(k, w, steps)
    decreases |steps|
  {
    if steps == [] then w else Exec(k, Apply(k, w, steps[0]), steps[1..])
  }

  /** Empty tables; the disks may hold anything. */
  ghost predicate Init(w: World) {
    w.s == State(map[], map[], map[], map[], w.s.disk) && w.uploaded == map[]
  }

  ghost predicate NoTampering(steps: seq<Step>) {
    forall i :: 0 <= i < |steps| ==> !steps[i].DoTamper?
  }

  // ---------- what every step keeps ----------

  ghost predicate RowsKnown(s: State) {
    forall c, n :: (c, n) in s.replicas ==> c in s.chunks && n in s.nodes
  }

  /** A STORED row's node is ONLINE. */
  ghost predicate StoredOnline(s: State) {
    forall c, n :: n in Holders(s, c) ==> n in s.nodes && s.nodes[n].status.Online?
  }

  /** Replica numbers are positive and pairwise distinct within a chunk. */
  ghost predicate Numbered(s: State) {
    && (forall c, n :: (c, n) in s.replicas ==> s.replicas[(c, n)].number >= 1)
    && (forall c, n, x :: (c, n) in s.replicas && (c, x) in s.replicas && n != x ==>
          s.replicas[(c, n)].number != s.replicas[(c, x)].number)
  }

  ghost predicate RecordsFile(k: Crypto, s: State, f: Id, data: Bytes) {
    f in s.files &&
    var ps := Pieces(data, s.files[f].chunkSize);
    && s.files[f].digest == k.hash(Concat(ps))
    && (s.files[f].status.Active? ==> ps != [])
    && (forall i :: 0 <= i < |ps| ==> ChunkId(f, i) in s.chunks && s.chunks[ChunkId(f, i)].fileId == f)
    && (forall c :: c in s.chunks && s.chunks[c].fileId == f ==>
          s.chunks[c].seqNo < |ps| && s.chunks[c].sha == k.hash(ps[s.chunks[c].seqNo]))
  }

  /** The chunk table says, for each file, how its uploaded bytes were cut. */
  ghost predicate Catalog(k: Crypto, w: World) {
    && (forall c :: c in w.s.chunks ==>
          w.s.chunks[c].fileId in w.uploaded && c == ChunkId(w.s.chunks[c].fileId, w.s.chunks[c].seqNo))
    && (forall f :: f in w.s.files ==> f in w.uploaded && RecordsFile(k, w.s, f, w.uploaded[f]))
  }

  /** Every row of a file that still exists, whatever its status, has a legible copy behind it. */
  ghost predicate Copies(k: Crypto, s: State) {
    forall c, n :: (c, n) in s.replicas && c in s.chunks && s.chunks[c].fileId in s.files ==>
      (c, n) in s.disk && Legible(k, s.files[s.chunks[c].fileId].encrypted, s.chunks[c].sha, s.disk[(c, n)])
  }

  /** Every chunk of an ACTIVE file asked for at least one replica has a holder. */
  ghost predicate Backed(s: State) {
    forall c :: c in s.chunks && s.chunks[c].fileId in s.files
                && s.files[s.chunks[c].fileId].status.Active? && s.files[s.chunks[c].fileId].rf >= 1 ==>
      Holders(s, c) != {}
  }

  ghost predicate Inv(k: Crypto, w: World) {
    RowsKnown(w.s) && StoredOnline(w.s) && Numbered(w.s) && Catalog(k, w)
  }

  // ---------- upload ----------

  lemma JobRowsUntouched(k: Crypto, w: World, job: Job)
    requires Inv(k, w) && job.fileId !in w.uploaded
    ensures Untouched(w.s, JobRows(k, job))
    ensures forall i :: 0 <= i < |JobRows(k, job)| ==> JobRows(k, job)[i].id !in w.s.chunks
  {
    hide ChunkId, Pieces;
    var rows := JobRows(k, job);
    forall i | 0 <= i < |rows| ensures rows[i].id !in w.s.chunks {
      if rows[i].id in w.s.chunks {
        var c := w.s.chunks[rows[i].id];
        ChunkIdInjective(c.fileId, c.seqNo, job.fileId, i);
      }
    }
  }

  ghost predicate IsJobChunk(k: Crypto, job: Job, c: Id) {
    exists i :: 0 <= i < |JobRows(k, job)| && JobRows(k, job)[i].id == c
  }

  /** A row after an upload is an old one, untouched, or a new one: STORED, numbered, on an ONLINE node, legible. */
  lemma UploadRow(k: Crypto, env: Env, job: Job, s: State, t: State, ok: bool, c: Id, n: Id)
    requires Fair(env) && Uploaded(k, env, job, s, t, ok) && (c, n) in t.replicas && Untouched(s, JobRows(k, job))
    ensures !IsJobChunk(k, job, c) ==> (c, n) in s.replicas && SameChunk(s, t, c)
    ensures IsJobChunk(k, job, c) ==>
              && c in t.chunks && t.chunks[c].fileId == job.fileId
              && t.replicas[(c, n)].status.Stored? && t.replicas[(c, n)].number >= 1
              && n in t.nodes && t.nodes[n].status.Online?
              && (c, n) in t.disk && Legible(k, job.encrypted, t.chunks[c].sha, t.disk[(c, n)])
  {
    hide Legible, AddChunks, FileRow, OnlineRows, Pieces;
    JobRowsDescribe(k, job);
    AddChunksHas(s.chunks, JobRows(k, job));
    if IsJobChunk(k, job, c) {
      var i :| 0 <= i < |JobRows(k, job)| && JobRows(k, job)[i].id == c;
      NewRowIs(k, env, job, s, t, JobRows(k, job)[i], n);
    } else {
      assert SameChunk(s, t, c);
    }
  }

  lemma NewRowIs(k: Crypto, env: Env, job: Job, s: State, t: State, row: ChunkRow, n: Id)
    requires Fair(env) && Partly(k, job, OnlineRows(s.nodes, env), t, row) && (row.id, n) in t.replicas
    ensures t.replicas[(row.id, n)].status.Stored? && t.replicas[(row.id, n)].number >= 1
    ensures n in s.nodes && s.nodes[n].status.Online?
    ensures (row.id, n) in t.disk && Legible(k, job.encrypted, row.chunk.sha, t.disk[(row.id, n)])
  {
    hide Legible, OnlineRows, TargetsOf;
    var active := OnlineRows(s.nodes, env);
    var targets := TargetsOf(job, active, row);
    OnlineRowsDistinct(s.nodes, env);
    TargetsDistinct(job, active, row);
    var m :| Placed(k, job.encrypted, t, row.id, row.chunk.sha, targets, m);
    var j := PlacedRow(k, job.encrypted, t, row.id, row.chunk.sha, targets, m, n);
    NodeRowsHas(s.nodes, env, targets[j]);
  }

  lemma NewNumbersDiffer(k: Crypto, job: Job, active: seq<NodeRow>, t: State, row: ChunkRow, n: Id, x: Id)
    requires Partly(k, job, active, t, row) && DistinctIds(active) && n != x
    requires (row.id, n) in t.replicas && (row.id, x) in t.replicas
    ensures t.replicas[(row.id, n)].number != t.replicas[(row.id, x)].number
  {
    hide Legible, TargetsOf, Placed;
    var targets := TargetsOf(job, active, row);
    var m :| Placed(k, job.encrypted, t, row.id, row.chunk.sha, targets, m);
    var i := PlacedRow(k, job.encrypted, t, row.id, row.chunk.sha, targets, m, n);
    var j := PlacedRow(k, job.encrypted, t, row.id, row.chunk.sha, targets, m, x);
  }

  lemma UploadKeepsRows(k: Crypto, env: Env, job: Job, s: State, t: State, ok: bool)
    requires Fair(env) && Uploaded(k, env, job, s, t, ok) && Untouched(s, JobRows(k, job))
    requires RowsKnown(s) && StoredOnline(s) && Numbered(s)
    ensures RowsKnown(t) && StoredOnline(t) && Numbered(t)
  {
    hide Legible, JobRows, OnlineRows, Holders, Uploaded, IsJobChunk;
    forall c, n | (c, n) in t.replicas
      ensures c in t.chunks && n in t.nodes && t.replicas[(c, n)].number >= 1
      ensures n in Holders(t, c) ==> t.nodes[n].status.Online?
    {
      UploadRow(k, env, job, s, t, ok, c, n);
      UploadTables(k, env, job, s, t, ok, c);
      HoldersHas(t, c, n);
      HoldersHas(s, c, n);
    }
    forall c, n ensures n in Holders(t, c) ==> (c, n) in t.replicas { HoldersHas(t, c, n); }
    forall c, n, x | (c, n) in t.replicas && (c, x) in t.replicas && n != x
      ensures t.replicas[(c, n)].number != t.replicas[(c, x)].number
    {
      UploadRow(k, env, job, s, t, ok, c, n);
      if IsJobChunk(k, job, c) {
        UploadNumbers(k, env, job, s, t, ok, c, n, x);
      }
    }
  }

  lemma UploadNumbers(k: Crypto, env: Env, job: Job, s: State, t: State, ok: bool, c: Id, n: Id, x: Id)
    requires Fair(env) && Uploaded(k, env, job, s, t, ok) && IsJobChunk(k, job, c)
    requires (c, n) in t.replicas && (c, x) in t.replicas && n != x
    ensures t.replicas[(c, n)].number != t.replicas[(c, x)].number
  {
    hide Partly, Fully, JobRows, OnlineRows, AddChunks, FileRow;
    var i :| 0 <= i < |JobRows(k, job)| && JobRows(k, job)[i].id == c;
    OnlineRowsDistinct(s.nodes, env);
    NewNumbersDiffer(k, job, OnlineRows(s.nodes, env), t, JobRows(k, job)[i], n, x);
  }

  /** Outside the job's own chunks, an upload leaves the chunk table alone. */
  lemma UploadTables(k: Crypto, env: Env, job: Job, s: State, t: State, ok: bool, c: Id)
    requires Uploaded(k, env, job, s, t, ok)
    ensures t.nodes == s.nodes
    ensures !IsJobChunk(k, job, c) ==>
              (c in t.chunks <==> c in s.chunks) && (c in s.chunks ==> t.chunks[c] == s.chunks[c])
    ensures !IsJobChunk(k, job, c) ==> SameChunk(s, t, c)
  {
    hide Partly, Fully, OnlineRows, FileRow, AddChunks, SameChunk;
    JobRowsDescribe(k, job);
    AddChunksHas(s.chunks, JobRows(k, job));
  }

  /** A chunk row after an upload is an old one or piece i of the new file. */
  lemma ChunkAfterUpload(k: Crypto, env: Env, job: Job, s: State, t: State, ok: bool, c: Id) returns (i: nat)
    requires Uploaded(k, env, job, s, t, ok) && c in t.chunks
    requires forall i :: 0 <= i < |JobRows(k, job)| ==> JobRows(k, job)[i].id !in s.chunks
    ensures c in s.chunks ==> t.chunks[c] == s.chunks[c]
    ensures c !in s.chunks ==>
              && i < |Pieces(job.data, job.chunkSize)| && c == ChunkId(job.fileId, i)
              && t.chunks[c] == Model(k, job.fileId, i, Pieces(job.data, job.chunkSize)[i]).chunk
  {
    hide ChunkId, Pieces, Partly, Fully, OnlineRows, AddChunks, SameChunk, Concat, FileRow;
    var rows := JobRows(k, job);
    JobRowsDescribe(k, job);
    AddChunksHas(s.chunks, rows);
    i := 0;
    if c !in s.chunks {
      i :| 0 <= i < |rows| && rows[i].id == c;
      assert rows[i] == Model(k, job.fileId, i, Pieces(job.data, job.chunkSize)[i]);
    }
  }

  lemma PieceHasChunk(k: Crypto, env: Env, job: Job, s: State, t: State, ok: bool, i: nat)
    requires Uploaded(k, env, job, s, t, ok) && i < |Pieces(job.data, job.chunkSize)|
    ensures ChunkId(job.fileId, i) in t.chunks && t.chunks[ChunkId(job.fileId, i)].fileId == job.fileId
  {
    hide ChunkId, Pieces, Partly, Fully, OnlineRows, AddChunks, SameChunk, Concat, FileRow;
    JobRowsDescribe(k, job);
    AddChunksHas(s.chunks, JobRows(k, job));
    assert JobRows(k, job)[i] == Model(k, job.fileId, i, Pieces(job.data, job.chunkSize)[i]);
  }

  lemma OldChunksStay(k: Crypto, env: Env, job: Job, s: State, t: State, ok: bool, c: Id)
    requires Uploaded(k, env, job, s, t, ok) && c in s.chunks
    requires forall i :: 0 <= i < |JobRows(k, job)| ==> JobRows(k, job)[i].id !in s.chunks
    ensures c in t.chunks && t.chunks[c] == s.chunks[c]
  {
    hide JobRows, Partly, Fully, OnlineRows, AddChunks, SameChunk, FileRow;
    JobRowsDescribe(k, job);
    AddChunksHas(s.chunks, JobRows(k, job));
  }

  lemma UploadKeepsCatalog(k: Crypto, env: Env, job: Job, w: World, t: State, ok: bool)
    requires Inv(k, w) && job.fileId !in w.uploaded && Uploaded(k, env, job, w.s, t, ok)
    ensures Catalog(k, World(t, w.uploaded[job.fileId := job.data]))
  {
    hide ChunkId, Pieces, Uploaded, RecordsFile, JobRows, RowsKnown, StoredOnline, Numbered;
    var s, u := w.s, w.uploaded[job.fileId := job.data];
    JobRowsUntouched(k, w, job);
    UploadFiles(k, env, job, s, t, ok);
    forall c | c in t.chunks
      ensures t.chunks[c].fileId in u && c == ChunkId(t.chunks[c].fileId, t.chunks[c].seqNo)
    {
      var i := ChunkAfterUpload(k, env, job, s, t, ok, c);
    }
    NewFileRecorded(k, env, job, w, t, ok);
    forall f | f in t.files && f != job.fileId ensures f in u && RecordsFile(k, t, f, u[f]) {
      forall c | c in s.chunks ensures c in t.chunks && t.chunks[c] == s.chunks[c] {
        OldChunksStay(k, env, job, s, t, ok, c);
      }
      forall c | c in t.chunks && t.chunks[c].fileId == f ensures c in s.chunks {
        var i := ChunkAfterUpload(k, env, job, s, t, ok, c);
      }
      RecordsFileKept(k, s, t, f, u[f]);
    }
  }

  lemma NewFileRecorded(k: Crypto, env: Env, job: Job, w: World, t: State, ok: bool)
    requires Inv(k, w) && job.fileId !in w.uploaded && Uploaded(k, env, job, w.s, t, ok)
    ensures RecordsFile(k, t, job.fileId, job.data)
  {
    hide ChunkId, Pieces, Concat, Uploaded, RowsKnown, StoredOnline, Numbered, RecordsFile;
    var s, ps := w.s, Pieces(job.data, job.chunkSize);
    JobRowsUntouched(k, w, job);
    UploadFiles(k, env, job, s, t, ok);
    forall i | 0 <= i < |ps|
      ensures ChunkId(job.fileId, i) in t.chunks && t.chunks[ChunkId(job.fileId, i)].fileId == job.fileId {
      PieceHasChunk(k, env, job, s, t, ok, i);
    }
    forall c | c in t.chunks && t.chunks[c].fileId == job.fileId
      ensures t.chunks[c].seqNo < |ps| && t.chunks[c].sha == k.hash(ps[t.chunks[c].seqNo])
    {
      var i := ChunkAfterUpload(k, env, job, s, t, ok, c);
    }
    if ok {
      SucceedsWithPieces(k, env, job, s, t, ok);
    }
    RecordsFileIntro(k, t, job, ok);
  }

  lemma SucceedsWithPieces(k: Crypto, env: Env, job: Job, s: State, t: State, ok: bool)
    requires Uploaded(k, env, job, s, t, ok) && ok
    ensures Pieces(job.data, job.chunkSize) != []
  {
    hide ChunkId, Pieces, Partly, Fully, OnlineRows, AddChunks, SameChunk, FileRow;
  }

  lemma RecordsFileIntro(k: Crypto, t: State, job: Job, ok: bool)
    requires job.fileId in t.files
             && t.files[job.fileId] == FileRow(k, job, if ok then FileStatus.Active else FileStatus.Corrupted)
    requires var ps := Pieces(job.data, job.chunkSize);
             && (ok ==> ps != [])
             && (forall i :: 0 <= i < |ps| ==>
                 ChunkId(job.fileId, i) in t.chunks && t.chunks[ChunkId(job.fileId, i)].fileId == job.fileId)
             && (forall c :: c in t.chunks && t.chunks[c].fileId == job.fileId ==>
                   t.chunks[c].seqNo < |ps| && t.chunks[c].sha == k.hash(ps[t.chunks[c].seqNo]))
    ensures RecordsFile(k, t, job.fileId, job.data)
  {
    hide ChunkId, Pieces, Concat;
  }

  lemma RecordsFileKept(k: Crypto, s: State, t: State, f: Id, data: Bytes)
    requires RecordsFile(k, s, f, data) && f in t.files
    requires t.files[f] == s.files[f].(status := t.files[f].status)
             && (t.files[f].status.Active? ==> s.files[f].status.Active?)
    requires forall c :: c in s.chunks ==> c in t.chunks && t.chunks[c] == s.chunks[c]
    requires forall c :: c in t.chunks && t.chunks[c].fileId == f ==> c in s.chunks
    ensures RecordsFile(k, t, f, data)
  {
    hide Pieces, Concat, ChunkId;
  }

  lemma UploadKeepsCopies(k: Crypto, env: Env, job: Job, w: World, t: State, ok: bool)
    requires Fair(env) && Inv(k, w) && job.fileId !in w.uploaded && Uploaded(k, env, job, w.s, t, ok)
    requires Copies(k, w.s)
    ensures Copies(k, t)
  {
    hide Legible, JobRows, OnlineRows, Uploaded, IsJobChunk, RecordsFile, ChunkId;
    var s := w.s;
    JobRowsUntouched(k, w, job);
    UploadFiles(k, env, job, s, t, ok);
    forall c, n | (c, n) in t.replicas && c in t.chunks && t.chunks[c].fileId in t.files
      ensures (c, n) in t.disk && Legible(k, t.files[t.chunks[c].fileId].encrypted, t.chunks[c].sha, t.disk[(c, n)])
    {
      UploadRow(k, env, job, s, t, ok, c, n);
      UploadTables(k, env, job, s, t, ok, c);
    }
  }

  lemma UploadFiles(k: Crypto, env: Env, job: Job, s: State, t: State, ok: bool)
    requires Uploaded(k, env, job, s, t, ok)
    ensures forall f :: f != job.fileId ==>
              (f in t.files <==> f in s.files) && (f in s.files ==> t.files[f] == s.files[f])
    ensures job.fileId in t.files
            && t.files[job.fileId] == FileRow(k, job, if ok then FileStatus.Active else FileStatus.Corrupted)
  {
    hide JobRows, OnlineRows, AddChunks, Partly, Fully, FileRow;
  }

  lemma UploadKeepsBacked(k: Crypto, env: Env, job: Job, w: World, t: State, ok: bool)
    requires Fair(env) && Inv(k, w) && job.fileId !in w.uploaded && Uploaded(k, env, job, w.s, t, ok)
    requires Backed(w.s)
    ensures Backed(t)
  {
    hide JobRows, OnlineRows, Uploaded, RecordsFile, ChunkId, Holders;
    var s := w.s;
    UploadFiles(k, env, job, s, t, ok);
    forall c | c in t.chunks && t.chunks[c].fileId in t.files
               && t.files[t.chunks[c].fileId].status.Active? && t.files[t.chunks[c].fileId].rf >= 1
      ensures Holders(t, c) != {}
    {
      UploadTables(k, env, job, s, t, ok, c);
      if IsJobChunk(k, job, c) {
        UploadBacks(k, env, job, s, t, ok, c);
      } else {
        SameHolders(s, t, c);
      }
    }
  }

  lemma SameHolders(s: State, t: State, c: Id)
    requires SameChunk(s, t, c)
    ensures Holders(s, c) == Holders(t, c)
  {
    forall n ensures n in Holders(s, c) <==> n in Holders(t, c) {
      HoldersHas(s, c, n);
      HoldersHas(t, c, n);
    }
  }

  lemma UploadBacks(k: Crypto, env: Env, job: Job, s: State, t: State, ok: bool, c: Id)
    requires Fair(env) && Uploaded(k, env, job, s, t, ok) && IsJobChunk(k, job, c)
    requires c in t.chunks && t.chunks[c].fileId in t.files
    requires t.files[t.chunks[c].fileId].status.Active? && t.files[t.chunks[c].fileId].rf >= 1
    ensures Holders(t, c) != {}
  {
    hide OnlineRows, Select, Legible, AddChunks, TargetsOf, Holders, Pieces;
    JobRowsDescribe(k, job);
    AddChunksHas(s.chunks, JobRows(k, job));
    var i :| 0 <= i < |JobRows(k, job)| && JobRows(k, job)[i].id == c;
    var row, active := JobRows(k, job)[i], OnlineRows(s.nodes, env);
    UploadFiles(k, env, job, s, t, ok);
    OnlineRowsDistinct(s.nodes, env);
    FullyHolders(k, job, active, t, row);
    TargetsNonEmpty(job, active, row);
  }

  lemma TargetsNonEmpty(job: Job, active: seq<NodeRow>, row: ChunkRow)
    requires Select(row.chunk.size, active, job.rf, {}).Some? && job.rf >= 1 && DistinctIds(active)
    ensures |TargetsOf(job, active, row)| >= 1
  {
    SelectTakes(row.chunk.size, active, job.rf, {});
    CandidatesNonEmpty(row.chunk.size, active, job.rf, {});
  }

  // ---------- recovery ----------

  lemma RecoverKeepsRows(k: Crypto, env: Env, n: Id, s: State)
    requires Fair(env) && RowsKnown(s) && StoredOnline(s) && Numbered(s)
    ensures RowsKnown(RecoverNode(k, s, env, n)) && StoredOnline(RecoverNode(k, s, env, n))
            && Numbered(RecoverNode(k, s, env, n))
  {
    hide RecoverNode, Holders, Numbered;
    var t := RecoverNode(k, s, env, n);
    RecoveryClearsNode(k, s, env, n);
    forall c, x | (c, x) in t.replicas ensures c in t.chunks && x in t.nodes {
      RecoverRow(k, env, n, s, c, x);
    }
    forall c, x | x in Holders(t, c) ensures x in t.nodes && t.nodes[x].status.Online? {
      RecoveryMovesHolders(k, s, env, n, c);
    }
    RecoverKeepsNumbers(k, env, n, s);
  }

  /** A row after a pass is an old one with its number, or a new one numbered above all others of its chunk. */
  lemma RecoverRow(k: Crypto, env: Env, n: Id, s: State, c: Id, x: Id)
    requires Fair(env)
    ensures var t, m := RecoverNode(k, s, env, n), Marked(s, n);
            var added := c in RecoveredChunks(k, s, env, n) && Target(m, env, c) == x;
            && ((c, x) in t.replicas <==> (c, x) in s.replicas || added)
            && (!added && (c, x) in s.replicas ==> t.replicas[(c, x)].number == s.replicas[(c, x)].number)
            && (added ==>
                  && c in s.chunks && x in s.nodes
                  && forall y :: (c, y) in s.replicas ==> s.replicas[(c, y)].number < t.replicas[(c, x)].number)
  {
    hide PlanFor, CopyOf, Pass;
    var m := Marked(s, n);
    PassRows(k, m, env, Affected(s, n), c, x);
    PlanMeans(m, env, c);
    MarkedRows(s, n, c, x);
    if c in RecoveredChunks(k, s, env, n) && Target(m, env, c) == x {
      assert CanReceive(m, c, x);
      forall y | (c, y) in s.replicas ensures s.replicas[(c, y)].number < NumberFor(m, env, c) {
        MarkedRows(s, n, c, y);
      }
    }
  }

  lemma RecoverKeepsNumbers(k: Crypto, env: Env, n: Id, s: State)
    requires Fair(env) && Numbered(s)
    ensures Numbered(RecoverNode(k, s, env, n))
  {
    hide RecoverNode, RecoveredChunks, Target, Marked;
    var t := RecoverNode(k, s, env, n);
    forall c, x | (c, x) in t.replicas ensures t.replicas[(c, x)].number >= 1 {
      RecoverNumberPositive(k, env, n, s, c, x);
    }
    forall c, x, y | (c, x) in t.replicas && (c, y) in t.replicas && x != y
      ensures t.replicas[(c, x)].number != t.replicas[(c, y)].number
    {
      RecoverRow(k, env, n, s, c, x);
      RecoverRow(k, env, n, s, c, y);
    }
  }

  lemma RecoverNumberPositive(k: Crypto, env: Env, n: Id, s: State, c: Id, x: Id)
    requires Fair(env) && Numbered(s) && (c, x) in RecoverNode(k, s, env, n).replicas
    ensures RecoverNode(k, s, env, n).replicas[(c, x)].number >= 1
  {
    hide RecoverNode, Target;
    RecoverRow(k, env, n, s, c, x);
    MarkedRows(s, n, c, n);
    assert c in RecoveredChunks(k, s, env, n) ==> (c, n) in s.replicas && s.replicas[(c, n)].number >= 1;
  }

  /** Steps other than uploads keep the chunk table, and at most turn files CORRUPTED or drop them. */
  ghost predicate OnlyDegrades(s: State, t: State) {
    && t.chunks == s.chunks
    && forall f :: f in t.files ==>
         && f in s.files
         && (t.files[f] == s.files[f] || t.files[f] == s.files[f].(status := FileStatus.Corrupted))
  }

  lemma CatalogKept(k: Crypto, w: World, t: State)
    requires Catalog(k, w) && OnlyDegrades(w.s, t)
    ensures Catalog(k, w.(s := t))
  {
    hide RecordsFile, ChunkId;
    forall f | f in t.files ensures f in w.uploaded && RecordsFile(k, t, f, w.uploaded[f]) {
      RecordsFileKept(k, w.s, t, f, w.uploaded[f]);
    }
  }

  lemma RecoverDegrades(k: Crypto, env: Env, n: Id, s: State)
    requires Fair(env)
    ensures OnlyDegrades(s, RecoverNode(k, s, env, n))
  {
    hide Dooms, NewRows, NewCopies, Affected;
  }

  lemma RecoverKeepsInv(k: Crypto, env: Env, n: Id, w: World)
    requires Fair(env) && Inv(k, w)
    ensures Inv(k, w.(s := RecoverNode(k, w.s, env, n)))
  {
    hide RowsKnown, StoredOnline, Numbered, Catalog, OnlyDegrades, RecoverNode;
    RecoverKeepsRows(k, env, n, w.s);
    RecoverDegrades(k, env, n, w.s);
    CatalogKept(k, w, RecoverNode(k, w.s, env, n));
  }

  lemma RecoverKeepsCopies(k: Crypto, env: Env, n: Id, s: State)
    requires Fair(env) && Copies(k, s) && RowsKnown(s)
    ensures Copies(k, RecoverNode(k, s, env, n))
  {
    hide RecoverNode, Legible;
    var t := RecoverNode(k, s, env, n);
    RecoverDegrades(k, env, n, s);
    forall c, x | (c, x) in t.replicas && c in t.chunks && t.chunks[c].fileId in t.files
      ensures (c, x) in t.disk && Legible(k, t.files[t.chunks[c].fileId].encrypted, t.chunks[c].sha, t.disk[(c, x)])
    {
      RecoverCopy(k, env, n, s, c, x);
    }
  }

  /** The bytes behind a row after a pass: what was there, or what a surviving replica's node holds. */
  lemma RecoverCopy(k: Crypto, env: Env, n: Id, s: State, c: Id, x: Id)
    requires Fair(env) && (c, x) in RecoverNode(k, s, env, n).replicas
    ensures var t := RecoverNode(k, s, env, n);
            exists y :: (c, y) in s.replicas &&
              ((c, y) in s.disk ==> (c, x) in t.disk && t.disk[(c, x)] == s.disk[(c, y)])
  {
    hide PlanFor, CopyOf, Pass, Recovers;
    var m, t := Marked(s, n), RecoverNode(k, s, env, n);
    PassRows(k, m, env, Affected(s, n), c, x);
    PassDisk(k, m, env, Affected(s, n), c, x);
    PlanMeans(m, env, c);
    MarkedRows(s, n, c, x);
    if CopyOf(k, m, env, c).Some? && Target(m, env, c) == x && c in Affected(s, n) {
      var y := PlanFor(m, env, c).source;
      assert Survivor(m, c, y);
      MarkedRows(s, n, c, y);
      assert t.disk[(c, x)] == s.disk[(c, y)];
    } else {
      assert (c, x) in s.replicas;
    }
  }

  lemma RecoverKeepsBacked(k: Crypto, env: Env, n: Id, s: State)
    requires Fair(env) && Backed(s)
    ensures Backed(RecoverNode(k, s, env, n))
  {
    hide RecoverNode, Holders, RecoveredChunks;
    var t := RecoverNode(k, s, env, n);
    RecoverDegrades(k, env, n, s);
    forall c | c in t.chunks && t.chunks[c].fileId in t.files
               && t.files[t.chunks[c].fileId].status.Active? && t.files[t.chunks[c].fileId].rf >= 1
      ensures Holders(t, c) != {}
    {
      RecoverBacks(k, env, n, s, c);
    }
  }

  lemma RecoverBacks(k: Crypto, env: Env, n: Id, s: State, c: Id)
    requires Fair(env) && c in s.chunks && s.chunks[c].fileId in s.files && Holders(s, c) != {}
    requires s.chunks[c].fileId in RecoverNode(k, s, env, n).files
    requires RecoverNode(k, s, env, n).files[s.chunks[c].fileId].status.Active?
    ensures Holders(RecoverNode(k, s, env, n), c) != {}
  {
    hide RecoverNode, Holders, RecoveredChunks;
    RecoveryMovesHolders(k, s, env, n, c);
    RecoveryCorruptsExactly(k, s, env, n, s.chunks[c].fileId);
    var y :| y in Holders(s, c);
    HoldersHas(s, c, y);
    HoldersHas(s, c, n);
    if (c, n) in s.replicas {
      var x :| x != n && Survivor(s, c, x);
      HoldersHas(s, c, x);
      assert x in Holders(RecoverNode(k, s, env, n), c);
    } else {
      assert y in Holders(RecoverNode(k, s, env, n), c);
    }
  }

  // ---------- registration, heartbeat, download, delete ----------

  lemma RegisterRows(k: Crypto, env: Env, n: Id, node: Node, s: State, c: Id, x: Id)
    ensures var t := Register(k, s, env, n, node);
            && t.nodes == s.nodes[n := node.(status := Online)] && t.files == s.files && t.chunks == s.chunks
            && t.disk == s.disk
            && ((c, x) in t.replicas <==> (c, x) in s.replicas)
            && ((c, x) in s.replicas ==> t.replicas[(c, x)].number == s.replicas[(c, x)].number)
            && (x != n && (c, x) in s.replicas ==> t.replicas[(c, x)] == s.replicas[(c, x)])
  {}

  lemma RegisterMovesHolders(k: Crypto, env: Env, n: Id, node: Node, s: State, c: Id)
    ensures Holders(Register(k, s, env, n, node), c) == Holders(s, c) + (if Flips(k, s, env, n, c) then {n} else {})
    ensures Flips(k, s, env, n, c) ==> n !in Holders(s, c)
  {
    ReconcileMovesHolders(k, s.(nodes := s.nodes[n := node.(status := Online)]), env, n, c);
  }

  /** What registration, heartbeats, deletes and tampering leave alone, and how holders may move. */
  ghost predicate Gentle(s: State, t: State) {
    && OnlyDegrades(s, t)
    && (forall c, x :: (c, x) in t.replicas <==> (c, x) in s.replicas)
    && (forall c, x :: (c, x) in s.replicas ==> t.replicas[(c, x)].number == s.replicas[(c, x)].number)
    && (forall x :: x in s.nodes ==> x in t.nodes && (s.nodes[x].status.Online? ==> t.nodes[x].status.Online?))
    && (forall c, x :: x in Holders(t, c) ==> x in Holders(s, c) || (x in t.nodes && t.nodes[x].status.Online?))
  }

  lemma GentleKeepsInv(k: Crypto, w: World, t: State)
    requires Inv(k, w) && Gentle(w.s, t)
    ensures Inv(k, w.(s := t))
  {
    hide Holders, Catalog, OnlyDegrades, RecordsFile, ChunkId;
    assert OnlyDegrades(w.s, t);
    CatalogKept(k, w, t);
    assert t.chunks == w.s.chunks by { DegradesTables(w.s, t); }
  }

  lemma DegradesTables(s: State, t: State)
    requires OnlyDegrades(s, t)
    ensures t.chunks == s.chunks
  {}

  lemma RegisterIsGentle(k: Crypto, env: Env, n: Id, node: Node, s: State)
    ensures Gentle(s, Register(k, s, env, n, node))
    ensures var t := Register(k, s, env, n, node);
            t.files == s.files && t.chunks == s.chunks && t.disk == s.disk && forall c :: Holders(s, c) <= Holders(t, c)
  {
    hide Register, Holders, Flips;
    var t := Register(k, s, env, n, node);
    RegisterRows(k, env, n, node, s, "", "");
    forall c, x ensures (c, x) in t.replicas <==> (c, x) in s.replicas
      ensures (c, x) in s.replicas ==> t.replicas[(c, x)].number == s.replicas[(c, x)].number
    {
      RegisterRows(k, env, n, node, s, c, x);
    }
    forall c ensures Holders(s, c) <= Holders(t, c) <= Holders(s, c) + {n} {
      RegisterMovesHolders(k, env, n, node, s, c);
    }
  }

  lemma RegisterKeeps(k: Crypto, env: Env, n: Id, node: Node, w: World)
    requires Inv(k, w)
    ensures Inv(k, w.(s := Register(k, w.s, env, n, node)))
    ensures Copies(k, w.s) ==> Copies(k, Register(k, w.s, env, n, node))
    ensures Backed(w.s) ==> Backed(Register(k, w.s, env, n, node))
  {
    hide Register, Inv, Legible;
    RegisterIsGentle(k, env, n, node, w.s);
    GentleKeepsInv(k, w, Register(k, w.s, env, n, node));
    hide Holders, OnlyDegrades;
  }

  lemma HeartbeatKeeps(k: Crypto, n: Id, avail: int, total: int, now: int, w: World)
    requires Inv(k, w)
    ensures Inv(k, w.(s := Heartbeat(w.s, n, avail, total, now)))
    ensures Copies(k, w.s) ==> Copies(k, Heartbeat(w.s, n, avail, total, now))
    ensures Backed(w.s) ==> Backed(Heartbeat(w.s, n, avail, total, now))
  {
    hide Legible, Inv;
    var t := Heartbeat(w.s, n, avail, total, now);
    forall c ensures Holders(t, c) == Holders(w.s, c) {}
    GentleKeepsInv(k, w, t);
  }

  /** A heartbeat keeps STORED meaning ONLINE exactly when it says ONLINE, or its node is unknown or holds nothing. */
  lemma HeartbeatKeepsExactly(s: State, n: Id, avail: int, total: int, status: NodeStatus, now: int)
    requires StoredOnline(s)
    ensures StoredOnline(HeartbeatAs(s, n, avail, total, status, now)) <==>
            n !in s.nodes || status.Online? || forall c :: n !in Holders(s, c)
  {
    var t := HeartbeatAs(s, n, avail, total, status, now);
    if n in s.nodes && !status.Online? {
      if c :| n in Holders(s, c) {
        SameHolders(s, t, c);
        hide Holders;
        assert n in Holders(t, c) && t.nodes[n].status == status;
        assert !StoredOnline(t);
      } else {
        StaysOnline(s, t, n);
      }
    } else {
      StaysOnline(s, t, n);
    }
  }

  /** Rows on n aside, STORED goes on meaning ONLINE while the other nodes keep their status. */
  lemma StaysOnline(s: State, t: State, n: Id)
    requires StoredOnline(s) && t.replicas == s.replicas && t.disk == s.disk
    requires forall x :: x in s.nodes && s.nodes[x].status.Online? && x != n ==>
               x in t.nodes && t.nodes[x].status.Online?
    requires (n in s.nodes ==> n in t.nodes && t.nodes[n].status.Online?) || forall c :: n !in Holders(s, c)
    ensures StoredOnline(t)
  {
    forall c, x | x in Holders(t, c) ensures x in t.nodes && t.nodes[x].status.Online? {
      SameHolders(s, t, c);
      assert x in Holders(s, c);
    }
  }

  lemma DownloadKeepsInv(k: Crypto, env: Env, f: Id, w: World)
    requires Fair(env) && Inv(k, w)
    ensures Inv(k, w.(s := Download(k, env, w.s, f).0))
    ensures Copies(k, w.s) ==> Copies(k, Download(k, env, w.s, f).0)
  {
    hide Download, DownloadLoses, Holders, Legible, Inv;
    var s, t := w.s, Download(k, env, w.s, f).0;
    DownloadRows(k, env, s, f, "", "");
    forall c, x ensures (c, x) in t.replicas <==> (c, x) in s.replicas
      ensures (c, x) in s.replicas ==> t.replicas[(c, x)].number == s.replicas[(c, x)].number
    {
      DownloadRows(k, env, s, f, c, x);
    }
    forall c ensures Holders(t, c) <= Holders(s, c) {
      DownloadMovesHolders(k, env, s, f, c);
    }
    GentleKeepsInv(k, w, t);
  }

  /** With every copy legible a download downgrades nothing. */
  lemma DownloadLosesNothing(k: Crypto, env: Env, f: Id, s: State, c: Id)
    requires Fair(env) && Copies(k, s)
    ensures DownloadLoses(k, env, s, f, c) == {}
    ensures Holders(Download(k, env, s, f).0, c) == Holders(s, c)
  {
    hide Download, DownloadLoses, Holders;
    DownloadMovesHolders(k, env, s, f, c);
    forall n ensures n !in DownloadLoses(k, env, s, f, c) {
      HoldersHas(s, c, n);
    }
  }

  lemma DownloadKeepsBacked(k: Crypto, env: Env, f: Id, s: State)
    requires Fair(env) && Copies(k, s) && Backed(s)
    ensures Backed(Download(k, env, s, f).0)
  {
    hide Download, DownloadLoses, Holders, Copies;
    var t := Download(k, env, s, f).0;
    DownloadRows(k, env, s, f, "", "");
    forall c ensures Holders(t, c) == Holders(s, c) {
      DownloadLosesNothing(k, env, f, s, c);
    }
  }

  lemma DeleteKeeps(k: Crypto, env: Env, f: Id, w: World)
    requires Inv(k, w)
    ensures Inv(k, w.(s := Delete(env, w.s, f)))
    ensures Copies(k, w.s) ==> Copies(k, Delete(env, w.s, f))
    ensures Backed(w.s) ==> Backed(Delete(env, w.s, f))
  {
    hide Legible, Inv;
    var t := Delete(env, w.s, f);
    forall c ensures Holders(t, c) == Holders(w.s, c) {}
    GentleKeepsInv(k, w, t);
  }

  // ---------- whole runs ----------

  ghost predicate Sound(k: Crypto, w: World) {
    Inv(k, w) && Copies(k, w.s) && Backed(w.s)
  }

  lemma UploadKeeps(k: Crypto, env: Env, job: Job, w: World)
    requires Fair(env) && RoundTrips(k) && Inv(k, w) && job.fileId !in w.uploaded
    ensures var t := Upload(k, env, job, w.s).0;
            && Inv(k, World(t, w.uploaded[job.fileId := job.data]))
            && (Copies(k, w.s) ==> Copies(k, t)) && (Backed(w.s) ==> Backed(t))
  {
    hide Upload, Uploaded, RowsKnown, StoredOnline, Numbered, Catalog, Copies, Backed, RoundTrips;
    var (t, ok) := Upload(k, env, job, w.s);
    JobRowsUntouched(k, w, job);
    UploadPlaces(k, env, job, w.s);
    UploadKeepsRows(k, env, job, w.s, t, ok);
    UploadKeepsCatalog(k, env, job, w, t, ok);
    if Copies(k, w.s) {
      UploadKeepsCopies(k, env, job, w, t, ok);
    }
    if Backed(w.s) {
      UploadKeepsBacked(k, env, job, w, t, ok);
    }
  }

  /** Every step keeps the row, number and catalog invariants, tampering included. */
  lemma StepKeepsInv(k: Crypto, w: World, step: Step)
    requires RoundTrips(k) && Inv(k, w) && Enabled(w, step)
    ensures Inv(k, Apply(k, w, step))
  {
    hide Upload, Register, Download, Delete, RecoverNode, Heartbeat, RoundTrips, Tamper, Inv;
    match step {
      case DoUpload(env, job) => UploadKeeps(k, env, job, w);
      case DoRegister(env, n, node) => RegisterKeeps(k, env, n, node, w);
      case DoHeartbeat(n, avail, total, now) => HeartbeatKeeps(k, n, avail, total, now, w);
      case DoRecover(env, n) => RecoverKeepsInv(k, env, n, w);
      case DoDownload(env, f) => DownloadKeepsInv(k, env, f, w);
      case DoDelete(env, f) => DeleteKeeps(k, env, f, w);
      case DoTamper(key, contents) => TamperKeeps(k, key, contents, w);
    }
  }

  lemma TamperKeeps(k: Crypto, key: Key, contents: Option<Bytes>, w: World)
    requires Inv(k, w)
    ensures Inv(k, w.(s := Tamper(w.s, key, contents)))
  {
    hide Inv;
    var t := Tamper(w.s, key, contents);
    forall c ensures Holders(t, c) == Holders(w.s, c) {}
    GentleKeepsInv(k, w, t);
  }

  /** Without tampering every step also keeps a legible copy behind every row and a holder for every active chunk. */
  lemma StepKeepsSound(k: Crypto, w: World, step: Step)
    requires RoundTrips(k) && Sound(k, w) && Enabled(w, step) && !step.DoTamper?
    ensures Sound(k, Apply(k, w, step))
  {
    hide Upload, Register, Download, Delete, RecoverNode, Heartbeat, RoundTrips, Holders, RowsKnown, StoredOnline,
         Numbered, Catalog, Copies, Backed;
    StepKeepsInv(k, w, step);
    match step {
      case DoUpload(env, job) => UploadKeeps(k, env, job, w);
      case DoRegister(env, n, node) => RegisterKeeps(k, env, n, node, w);
      case DoHeartbeat(n, avail, total, now) => HeartbeatKeeps(k, n, avail, total, now, w);
      case DoRecover(env, n) =>
        RecoverKeepsCopies(k, env, n, w.s);
        RecoverKeepsBacked(k, env, n, w.s);
      case DoDownload(env, f) =>
        DownloadKeepsInv(k, env, f, w);
        DownloadKeepsBacked(k, env, f, w.s);
      case DoDelete(env, f) => DeleteKeeps(k, env, f, w);
    }
  }

  /** In every reachable state, tampered with or not: rows are known, STORED means ONLINE, numbers are positive and
      distinct, and the chunk table describes the uploaded bytes. */
  lemma {:induction false} RunKeepsInv(k: Crypto, w: World, steps: seq<Step>)
    requires RoundTrips(k) && Inv(k, w) && Legal(k, w, steps)
    ensures Inv(k, Exec(k, w, steps))
    decreases |steps|
  {
    hide Inv, Apply, RoundTrips;
    if steps != [] {
      StepKeepsInv(k, w, steps[0]);
      RunKeepsInv(k, Apply(k, w, steps[0]), steps[1..]);
    }
  }

  lemma {:induction false} RunKeepsSound(k: Crypto, w: World, steps: seq<Step>)
    requires RoundTrips(k) && Sound(k, w) && Legal(k, w, steps) && NoTampering(steps)
    ensures Sound(k, Exec(k, w, steps))
    decreases |steps|
  {
    hide Sound, Apply, RoundTrips;
    if steps != [] {
      StepKeepsSound(k, w, steps[0]);
      assert forall i :: 0 <= i < |steps[1..]| ==> steps[1..][i] == steps[i + 1];
      RunKeepsSound(k, Apply(k, w, steps[0]), steps[1..]);
    }
  }

  lemma InitIsSound(k: Crypto, w: World)
    requires Init(w)
    ensures Sound(k, w)
  {
    hide Legible, RecordsFile;
  }

  /** Every node that is ONLINE answers. */
  ghost predicate OnlineAnswers(env: Env, s: State) {
    forall c, n :: n in s.nodes && s.nodes[n].status.Online? ==> env.reply(c, n).Answered?
  }

  /** A held chunk of an existing file is servable. */
  lemma HeldServes(k: Crypto, env: Env, w: World, f: Id, c: Id)
    requires Inv(k, w) && Copies(k, w.s) && OnlineAnswers(env, w.s)
    requires f in w.s.files && c in w.s.chunks && w.s.chunks[c].fileId == f && Holders(w.s, c) != {}
    ensures Servable(k, env, w.s, w.s.files[f].encrypted, c)
  {
    hide Holders, Catalog, Numbered;
    var n :| n in Holders(w.s, c);
    HoldersHas(w.s, c, n);
    assert FetchOf(k, env, w.s, w.s.files[f].encrypted, c, w.s.chunks[c].sha, n).Good?;
  }

  /** The listing cs holds exactly the chunk ids f/0, ..., f/(n-1), each under its own sequence number. */
  ghost predicate Lists(chunks: map<Id, Chunk>, f: Id, cs: seq<Id>, n: nat) {
    && Distinct(cs)
    && (forall i :: 0 <= i < |cs| ==>
          cs[i] in chunks && chunks[cs[i]].seqNo < n && cs[i] == ChunkId(f, chunks[cs[i]].seqNo))
    && (forall i, j :: 0 <= i < j < |cs| ==> chunks[cs[i]].seqNo <= chunks[cs[j]].seqNo)
    && (forall v :: 0 <= v < n ==> ChunkId(f, v) in cs)
  }

  lemma ListsInOrder(chunks: map<Id, Chunk>, f: Id, cs: seq<Id>, n: nat)
    requires Lists(chunks, f, cs, n)
    ensures |cs| == n && forall i :: 0 <= i < n ==> chunks[cs[i]].seqNo == i
  {
    hide ChunkId;
    var nums := seq(|cs|, i requires 0 <= i < |cs| => chunks[cs[i]].seqNo);
    forall v | 0 <= v < n ensures v in nums {
      assert ChunkId(f, v) in cs;
      var i :| 0 <= i < |cs| && cs[i] == ChunkId(f, v);
      ChunkIdInjective(f, nums[i], f, v);
    }
    forall i, j | 0 <= i < j < |nums| ensures nums[i] < nums[j] {
      assert cs[i] != cs[j];
    }
    IncreasingCover(nums, n);
    assert forall i :: 0 <= i < n ==> nums[i] == chunks[cs[i]].seqNo;
  }

  /** The tables say exactly how the bytes of f were cut. */
  ghost predicate Filed(k: Crypto, s: State, f: Id, data: Bytes) {
    && RecordsFile(k, s, f, data)
    && forall c :: c in s.chunks && s.chunks[c].fileId == f ==> c == ChunkId(f, s.chunks[c].seqNo)
  }

  lemma CatalogFiles(k: Crypto, w: World, f: Id)
    requires Inv(k, w) && f in w.s.files
    ensures f in w.uploaded && Filed(k, w.s, f, w.uploaded[f])
  {
    hide ChunkId, Pieces, Concat, RowsKnown, StoredOnline, Numbered;
  }

  lemma FiledLists(k: Crypto, env: Env, s: State, f: Id, data: Bytes)
    requires Fair(env) && Filed(k, s, f, data)
    ensures Lists(s.chunks, f, ChunkList(s.chunks, env, f), |Pieces(data, s.files[f].chunkSize)|)
    ensures forall c :: c in ChunkList(s.chunks, env, f) ==> s.chunks[c].fileId == f
  {
    hide ChunkId, Pieces, ChunkList, Concat;
    var cs, ps := ChunkList(s.chunks, env, f), Pieces(data, s.files[f].chunkSize);
    forall i | 0 <= i < |cs|
      ensures cs[i] in s.chunks && s.chunks[cs[i]].seqNo < |ps| && cs[i] == ChunkId(f, s.chunks[cs[i]].seqNo)
    {
      assert cs[i] in cs;
    }
  }

  /** The chunk list of a recorded file is its pieces in order. */
  lemma ListedInOrder(k: Crypto, env: Env, s: State, f: Id, data: Bytes)
    requires Fair(env) && Filed(k, s, f, data)
    ensures var cs, ps := ChunkList(s.chunks, env, f), Pieces(data, s.files[f].chunkSize);
            |cs| == |ps| && forall i :: 0 <= i < |ps| ==> cs[i] in s.chunks && s.chunks[cs[i]].sha == k.hash(ps[i])
  {
    hide ChunkId, Pieces, ChunkList, Concat, Lists;
    var cs, ps := ChunkList(s.chunks, env, f), Pieces(data, s.files[f].chunkSize);
    FiledLists(k, env, s, f, data);
    ListsInOrder(s.chunks, f, cs, |ps|);
    forall i | 0 <= i < |ps| ensures cs[i] in s.chunks && s.chunks[cs[i]].sha == k.hash(ps[i]) {
      assert cs[i] in cs;
    }
  }

  /** Strictly increasing numbers below n that include all of them are 0, 1, ..., n - 1. */
  lemma {:induction false} IncreasingCover(nums: seq<nat>, n: nat)
    requires forall i, j :: 0 <= i < j < |nums| ==> nums[i] < nums[j]
    requires forall i :: 0 <= i < |nums| ==> nums[i] < n
    requires forall v :: 0 <= v < n ==> v in nums
    ensures |nums| == n && forall i :: 0 <= i < n ==> nums[i] == i
  {
    if nums == [] {
      assert n == 0 || 0 in nums;
    } else {
      var last := |nums| - 1;
      assert 0 <= nums[last] < n;
      assert n - 1 in nums;
      assert nums[last] == n - 1;
      var init := nums[..last];
      forall v | 0 <= v < n - 1 ensures v in init {
        assert v in nums;
      }
      IncreasingCover(init, n - 1);
    }
  }

  lemma {:induction false} ServedAllPieces(k: Crypto, env: Env, s: State, encrypted: bool, cs: seq<Id>, ps: seq<Bytes>)
    requires Fair(env) && CollisionFree(k) && |cs| == |ps|
    requires forall c :: c in cs ==> c in s.chunks
    requires forall i :: 0 <= i < |ps| ==> s.chunks[cs[i]].sha == k.hash(ps[i])
    requires ServedAll(k, env, s, encrypted, cs).Some?
    ensures ServedAll(k, env, s, encrypted, cs).value == Concat(ps)
  {
    hide Served;
    if cs != [] {
      ServedMeans(k, env, s, encrypted, cs[0]);
      ServedAllPieces(k, env, s, encrypted, cs[1..], ps[1..]);
    }
  }

  /** What an upload records is what a later download returns: the history only grows. */
  lemma {:induction false} HistoryKept(k: Crypto, w: World, steps: seq<Step>, f: Id)
    requires Legal(k, w, steps) && f in w.uploaded
    ensures f in Exec(k, w, steps).uploaded && Exec(k, w, steps).uploaded[f] == w.uploaded[f]
    decreases |steps|
  {
    hide Upload, Register, Download, Delete, RecoverNode, Heartbeat;
    if steps != [] {
      HistoryKept(k, Apply(k, w, steps[0]), steps[1..], f);
    }
  }

  predicate Sends(step: Step, f: Id, data: Bytes) {
    step.DoUpload? && step.job.fileId == f && step.job.data == data
  }

  /** The bytes on record for f are those some upload step of the run was given. */
  lemma {:induction false} UploadedByStep(k: Crypto, w: World, steps: seq<Step>, f: Id)
    requires Legal(k, w, steps) && f !in w.uploaded && f in Exec(k, w, steps).uploaded
    ensures exists i :: 0 <= i < |steps| && Sends(steps[i], f, Exec(k, w, steps).uploaded[f])
    decreases |steps|
  {
    hide Upload, Register, Download, Delete, RecoverNode, Heartbeat;
    if steps != [] {
      var next := Apply(k, w, steps[0]);
      if f in next.uploaded {
        HistoryKept(k, next, steps[1..], f);
        assert Sends(steps[0], f, Exec(k, w, steps).uploaded[f]);
      } else {
        UploadedByStep(k, next, steps[1..], f);
        var i :| 0 <= i < |steps[1..]| && Sends(steps[1..][i], f, Exec(k, next, steps[1..]).uploaded[f]);
        assert steps[i + 1] == steps[1..][i];
      }
    }
  }

  /** Durability: after any tamper-free run, an ACTIVE file asked for at least one replica downloads, from nodes that
      answer, to exactly the bytes an upload of the run was given under its id. */
  lemma ActiveFilesDownload(k: Crypto, env: Env, start: World, steps: seq<Step>, f: Id)
    requires CollisionFree(k) && RoundTrips(k) && Init(start) && Legal(k, start, steps) && NoTampering(steps)
    requires var w := Exec(k, start, steps);
             && Fair(env) && OnlineAnswers(env, w.s)
             && f in w.s.files && w.s.files[f].status.Active? && w.s.files[f].rf >= 1
    ensures var w := Exec(k, start, steps);
            && f in w.uploaded && Download(k, env, w.s, f).1 == Some(w.uploaded[f])
            && exists i :: 0 <= i < |steps| && Sends(steps[i], f, w.uploaded[f])
  {
    hide Exec, Legal, NoTampering, Copies, Backed, RowsKnown, StoredOnline, Numbered, RoundTrips, Sends;
    var w := Exec(k, start, steps);
    InitIsSound(k, start);
    RunKeepsSound(k, start, steps);
    SoundDownloads(k, env, w, f);
    UploadedByStep(k, start, steps, f);
  }

  lemma SoundDownloads(k: Crypto, env: Env, w: World, f: Id)
    requires CollisionFree(k) && Fair(env) && Sound(k, w) && OnlineAnswers(env, w.s)
    requires f in w.s.files && w.s.files[f].status.Active? && w.s.files[f].rf >= 1
    ensures f in w.uploaded && Download(k, env, w.s, f).1 == Some(w.uploaded[f])
  {
    hide Download, Servable, Copies, Inv, CollisionFree, OnlineAnswers, Holders;
    forall c | c in w.s.chunks && w.s.chunks[c].fileId == f ensures Servable(k, env, w.s, w.s.files[f].encrypted, c) {
      HeldServes(k, env, w, f, c);
    }
    CatalogFiles(k, w, f);
    ServableDownloads(k, env, w.s, f, w.uploaded[f]);
  }

  /** A download of a recorded file succeeds exactly when all its chunks are servable, and then delivers its pieces. */
  lemma ServableDelivers(k: Crypto, env: Env, s: State, f: Id, data: Bytes)
    requires CollisionFree(k) && Fair(env) && Filed(k, s, f, data)
    ensures var servable :=
              forall c :: c in s.chunks && s.chunks[c].fileId == f ==> Servable(k, env, s, s.files[f].encrypted, c);
            Download(k, env, s, f).1 == if servable then Some(Concat(Pieces(data, s.files[f].chunkSize))) else None
  {
    hide Download, ChunkList, ServedAll, Servable, Pieces, Concat, ChunkId, CollisionFree, DownloadLoses, Downgraded;
    var enc, cs := s.files[f].encrypted, ChunkList(s.chunks, env, f);
    DownloadExact(k, env, s, f);
    ListedInOrder(k, env, s, f, data);
    if ServedAll(k, env, s, enc, cs).Some? {
      ServedAllPieces(k, env, s, enc, cs, Pieces(data, s.files[f].chunkSize));
    }
  }

  /** Failover is exact in every reachable state, tampered with or not: a download succeeds if and only if every chunk
      of the file has a STORED replica on an ONLINE, answering node with the right bytes; and then it returns the
      uploaded bytes, unless the file was uploaded with a chunk size of zero. */
  lemma DownloadSucceedsExactly(k: Crypto, env: Env, start: World, steps: seq<Step>, f: Id)
    requires CollisionFree(k) && RoundTrips(k) && Init(start) && Legal(k, start, steps) && Fair(env)
    requires f in Exec(k, start, steps).s.files
    ensures var w := Exec(k, start, steps);
            var got := Download(k, env, w.s, f).1;
            && f in w.uploaded
            && (got.Some? <==> forall c :: c in w.s.chunks && w.s.chunks[c].fileId == f ==>
                                 Servable(k, env, w.s, w.s.files[f].encrypted, c))
            && (got.Some? ==> (got.value == w.uploaded[f] <==> w.s.files[f].chunkSize != 0 || w.uploaded[f] == []))
  {
    hide Exec, Init, Legal, Copies, Backed, Inv, RoundTrips, Download, Servable, Pieces, Concat, Filed;
    var w := Exec(k, start, steps);
    InitIsSound(k, start);
    RunKeepsInv(k, start, steps);
    CatalogFiles(k, w, f);
    ServableDelivers(k, env, w.s, f, w.uploaded[f]);
    SplitThenConcat(w.uploaded[f], w.s.files[f].chunkSize);
  }

  lemma ServableDownloads(k: Crypto, env: Env, s: State, f: Id, data: Bytes)
    requires CollisionFree(k) && Fair(env) && Filed(k, s, f, data) && s.files[f].status.Active?
    requires forall c :: c in s.chunks && s.chunks[c].fileId == f ==> Servable(k, env, s, s.files[f].encrypted, c)
    ensures Download(k, env, s, f).1 == Some(data)
  {
    hide Download, Servable, Pieces, Concat, ChunkId, CollisionFree;
    ServableDelivers(k, env, s, f, data);
    NoChunkSizeNoPieces(data);
    SplitThenConcat(data, s.files[f].chunkSize);
  }

  lemma NoChunkSizeNoPieces(data: Bytes)
    ensures Pieces(data, 0) == []
  {}

  // ---------- the replica ledger ----------

  /** Entries for one chunk: holders lost to a failed node, re-replicated, reconciled back, downgraded by a download. */
  datatype Ledger = Ledger(lost: nat, copied: nat, flipped: nat, downgraded: nat) {
    function Plus(other: Ledger): Ledger {
      Ledger(lost + other.lost, copied + other.copied, flipped + other.flipped, downgraded + other.downgraded)
    }
  }

  ghost function Entry(k: Crypto, s: State, step: Step, c: Id): Ledger
    requires step.DoDownload? ==> Fair(step.env)
  {
    match step
    case DoRecover(env, n) =>
      Ledger(if n in Holders(s, c) then 1 else 0, if c in RecoveredChunks(k, s, env, n) then 1 else 0, 0, 0)
    case DoRegister(env, n, _) => Ledger(0, 0, if Flips(k, s, env, n, c) then 1 else 0, 0)
    case DoDownload(env, f) => Ledger(0, 0, 0, |DownloadLoses(k, env, s, f, c)|)
    case _ => Ledger(0, 0, 0, 0)
  }

  ghost function Tally(k: Crypto, w: World, steps: seq<Step>, c: Id): Ledger
    requires Legal(k, w, steps)
    decreases |steps|
  {
    if steps == [] then Ledger(0, 0, 0, 0)
    else Entry(k, w.s, steps[0], c).Plus(Tally(k, Apply(k, w, steps[0]), steps[1..], c))
  }

  /** The nodes that are ONLINE and hold a STORED row of c. */
  ghost function OnlineHolders(s: State, c: Id): set<Id> {
    set n | n in Holders(s, c) && n in s.nodes && s.nodes[n].status.Online?
  }

  lemma HoldersAreOnline(s: State, c: Id)
    requires StoredOnline(s)
    ensures OnlineHolders(s, c) == Holders(s, c)
  {
    hide Holders;
  }

  lemma StepBalances(k: Crypto, w: World, step: Step, c: Id)
    requires RoundTrips(k) && Inv(k, w) && Enabled(w, step) && c in w.s.chunks
    ensures c in Apply(k, w, step).s.chunks
    ensures var e := Entry(k, w.s, step, c);
            |Holders(Apply(k, w, step).s, c)| == |Holders(w.s, c)| - e.lost + e.copied + e.flipped - e.downgraded
  {
    hide Upload, Register, Download, Delete, RecoverNode, Heartbeat, RoundTrips, Holders, Inv, Flips, DownloadLoses,
         RecoveredChunks;
    match step {
      case DoUpload(env, job) => UploadKeepsHolders(k, env, job, w, c);
      case DoRegister(env, n, node) =>
        RegisterRows(k, env, n, node, w.s, c, n);
        RegisterMovesHolders(k, env, n, node, w.s, c);
      case DoHeartbeat(n, avail, total, now) => QuietSteps(k, w, step, c);
      case DoRecover(env, n) => RecoverBalances(k, env, n, w.s, c);
      case DoDownload(env, f) => DownloadBalances(k, env, f, w.s, c);
      case DoDelete(env, f) => QuietSteps(k, w, step, c);
      case DoTamper(key, contents) => QuietSteps(k, w, step, c);
    }
  }

  lemma RecoverBalances(k: Crypto, env: Env, n: Id, s: State, c: Id)
    requires Fair(env)
    ensures RecoverNode(k, s, env, n).chunks == s.chunks
    ensures |Holders(RecoverNode(k, s, env, n), c)| == |Holders(s, c)|
              - (if n in Holders(s, c) then 1 else 0) + (if c in RecoveredChunks(k, s, env, n) then 1 else 0)
  {
    hide RecoverNode, Holders, RecoveredChunks, Target;
    RecoverDegrades(k, env, n, s);
    RecoveryMovesHolders(k, s, env, n, c);
    var kept := Holders(s, c) - {n};
    assert n in Holders(s, c) ==> |kept| == |Holders(s, c)| - 1;
    assert n !in Holders(s, c) ==> kept == Holders(s, c);
  }

  lemma DownloadBalances(k: Crypto, env: Env, f: Id, s: State, c: Id)
    requires Fair(env)
    ensures Download(k, env, s, f).0.chunks == s.chunks
    ensures |Holders(Download(k, env, s, f).0, c)| == |Holders(s, c)| - |DownloadLoses(k, env, s, f, c)|
  {
    hide Download, Holders, DownloadLoses;
    DownloadRows(k, env, s, f, c, "");
    DownloadMovesHolders(k, env, s, f, c);
    assert DownloadLoses(k, env, s, f, c) <= Holders(s, c);
  }

  lemma QuietSteps(k: Crypto, w: World, step: Step, c: Id)
    requires Enabled(w, step) && (step.DoHeartbeat? || step.DoDelete? || step.DoTamper?)
    ensures Apply(k, w, step).s.chunks == w.s.chunks && Holders(Apply(k, w, step).s, c) == Holders(w.s, c)
  {
    hide Upload, Register, Download, RecoverNode;
  }

  lemma UploadKeepsHolders(k: Crypto, env: Env, job: Job, w: World, c: Id)
    requires RoundTrips(k) && Inv(k, w) && Fair(env) && job.fileId !in w.uploaded && c in w.s.chunks
    ensures var t := Upload(k, env, job, w.s).0;
            c in t.chunks && Holders(t, c) == Holders(w.s, c)
  {
    hide Upload, Uploaded, Holders, RoundTrips, RowsKnown, StoredOnline, Numbered, Catalog;
    var (t, ok) := Upload(k, env, job, w.s);
    JobRowsUntouched(k, w, job);
    UploadPlaces(k, env, job, w.s);
    UploadTables(k, env, job, w.s, t, ok, c);
    SameHolders(w.s, t, c);
  }

  /** The ledger balances over every run, deletions and tampering included: the ONLINE holders of a chunk at the end are
      those at the start, less one per pass on a holder, plus one per re-replication and per reconciled row, less the
      rows downloads downgraded. */
  lemma {:induction false} LedgerBalances(k: Crypto, w: World, steps: seq<Step>, c: Id)
    requires RoundTrips(k) && Inv(k, w) && Legal(k, w, steps) && c in w.s.chunks
    ensures var total := Tally(k, w, steps, c);
            |OnlineHolders(Exec(k, w, steps).s, c)|
            == |OnlineHolders(w.s, c)| - total.lost + total.copied + total.flipped - total.downgraded
    decreases |steps|
  {
    hide Apply, RoundTrips, Entry, Enabled, RowsKnown, Numbered, Catalog, OnlineHolders;
    HoldersAreOnline(w.s, c);
    if steps != [] {
      var next := Apply(k, w, steps[0]);
      StepKeepsInv(k, w, steps[0]);
      StepBalances(k, w, steps[0], c);
      HoldersAreOnline(next.s, c);
      LedgerBalances(k, next, steps[1..], c);
    }
  }

  /** Passes that took a holder of c away and put none back. */
  ghost function Unreplaced(k: Crypto, w: World, steps: seq<Step>, c: Id): nat
    requires Legal(k, w, steps)
    decreases |steps|
  {
    if steps == [] then 0
    else (var e := Entry(k, w.s, steps[0], c); if e.lost > e.copied then 1 else 0)
         + Unreplaced(k, Apply(k, w, steps[0]), steps[1..], c)
  }

  lemma EntryBounds(k: Crypto, w: World, step: Step, c: Id)
    requires Sound(k, w) && Enabled(w, step)
    ensures Entry(k, w.s, step, c).downgraded == 0
    ensures Entry(k, w.s, step, c).lost <= 1
  {
    hide Inv, Copies, Backed, Holders, Flips, RecoveredChunks, DownloadLoses;
    if step.DoDownload? {
      DownloadLosesNothing(k, step.env, step.f, w.s, c);
    }
  }

  lemma {:induction false} TallyBounds(k: Crypto, w: World, steps: seq<Step>, c: Id)
    requires RoundTrips(k) && Sound(k, w) && Legal(k, w, steps) && NoTampering(steps)
    ensures Tally(k, w, steps, c).downgraded == 0
    ensures Tally(k, w, steps, c).lost <= Tally(k, w, steps, c).copied + Unreplaced(k, w, steps, c)
    decreases |steps|
  {
    hide Apply, RoundTrips, Sound, Entry, Enabled;
    if steps != [] {
      StepKeepsSound(k, w, steps[0]);
      EntryBounds(k, w, steps[0], c);
      assert forall i :: 0 <= i < |steps[1..]| ==> steps[1..][i] == steps[i + 1];
      TallyBounds(k, Apply(k, w, steps[0]), steps[1..], c);
    }
  }

  /** Without tampering a chunk never drops below its starting holders by more than the passes that failed to
      re-replicate it. */
  lemma HoldersDropOnlyByFailures(k: Crypto, w: World, steps: seq<Step>, c: Id)
    requires RoundTrips(k) && Sound(k, w) && Legal(k, w, steps) && NoTampering(steps) && c in w.s.chunks
    ensures |OnlineHolders(Exec(k, w, steps).s, c)| >= |OnlineHolders(w.s, c)| - Unreplaced(k, w, steps, c)
  {
    hide Exec, OnlineHolders, Inv, Copies, Backed, RoundTrips;
    LedgerBalances(k, w, steps, c);
    TallyBounds(k, w, steps, c);
  }

  // ---------- the exact condition for an upload to be downloadable ----------

  /** Each chunk of the job gets at least one node. */
  ghost predicate EveryChunkPlaced(k: Crypto, env: Env, job: Job, s: State) {
    forall i :: 0 <= i < |JobRows(k, job)| ==>
      Quota(|Candidates(JobRows(k, job)[i].chunk.size, OnlineRows(s.nodes, env), {})|, job.rf) >= 1
  }

  /** A successful upload can be read back, by a download every ONLINE node answers, exactly when each chunk was given
      at least one node; a replication factor of zero or a very negative one gives none and still counts as success. */
  lemma UploadReadable(k: Crypto, env: Env, job: Job, w: World, later: Env)
    requires CollisionFree(k) && RoundTrips(k) && Sound(k, w) && Fair(env) && Fair(later)
    requires job.fileId !in w.uploaded && Upload(k, env, job, w.s).1
    requires OnlineAnswers(later, Upload(k, env, job, w.s).0)
    ensures Download(k, later, Upload(k, env, job, w.s).0, job.fileId).1 == Some(job.data) <==>
            EveryChunkPlaced(k, env, job, w.s)
  {
    hide Upload, Download, Sound, JobRows, Candidates, OnlineRows, CollisionFree, RoundTrips, Quota, OnlineAnswers,
         Holders;
    var t, rows, after := Upload(k, env, job, w.s).0, JobRows(k, job), Apply(k, w, DoUpload(env, job));
    StepKeepsSound(k, w, DoUpload(env, job));
    SoundParts(k, w);
    SoundParts(k, after);
    UploadedFile(k, env, job, w);
    forall i | 0 <= i < |rows|
      ensures |Holders(t, rows[i].id)|
              == Quota(|Candidates(rows[i].chunk.size, OnlineRows(w.s.nodes, env), {})|, job.rf)
    {
      UploadedQuota(k, env, job, w, i);
    }
    if EveryChunkPlaced(k, env, job, w.s) {
      forall i | 0 <= i < |rows| ensures Holders(t, rows[i].id) != {} {
        assert |Holders(t, rows[i].id)| >= 1;
      }
      HeldFilesDownload(k, later, after, job);
    } else {
      var i :| 0 <= i < |rows| && |Holders(t, rows[i].id)| == 0;
      UnheldFilesFail(k, later, after, job, i);
    }
  }

  lemma SoundParts(k: Crypto, w: World)
    requires Sound(k, w)
    ensures Inv(k, w) && Copies(k, w.s) && Backed(w.s)
  {}

  lemma UploadedQuota(k: Crypto, env: Env, job: Job, w: World, i: nat)
    requires RoundTrips(k) && Inv(k, w) && Fair(env) && job.fileId !in w.uploaded && Upload(k, env, job, w.s).1
    requires i < |JobRows(k, job)|
    ensures var t, row := Upload(k, env, job, w.s).0, JobRows(k, job)[i];
            |Holders(t, row.id)| == Quota(|Candidates(row.chunk.size, OnlineRows(w.s.nodes, env), {})|, job.rf)
  {
    hide Upload, JobRows, Candidates, OnlineRows, RoundTrips, Quota, Holders, Inv;
    JobRowsUntouched(k, w, job);
    UploadExact(k, env, job, w.s, i);
  }

  /** The chunk rows of the uploaded file are the job's, and its file row is ACTIVE. */
  lemma UploadedFile(k: Crypto, env: Env, job: Job, w: World)
    requires RoundTrips(k) && Inv(k, w) && Fair(env) && job.fileId !in w.uploaded && Upload(k, env, job, w.s).1
    ensures var t, rows := Upload(k, env, job, w.s).0, JobRows(k, job);
            && job.fileId in t.files && t.files[job.fileId] == FileRow(k, job, FileStatus.Active)
            && (forall i :: 0 <= i < |rows| ==>
                rows[i].id in t.chunks && t.chunks[rows[i].id] == rows[i].chunk && rows[i].chunk.fileId == job.fileId)
            && (forall c :: c in t.chunks && t.chunks[c].fileId == job.fileId ==>
                exists i :: 0 <= i < |rows| && rows[i].id == c)
  {
    hide Upload, RoundTrips, StoredOnline, Numbered, RowsKnown, ChunkId, Pieces, Concat, Partly, Fully, OnlineRows,
         AddChunks, SameChunk;
    var (t, ok) := Upload(k, env, job, w.s);
    JobRowsUntouched(k, w, job);
    UploadPlaces(k, env, job, w.s);
    JobRowsDescribe(k, job);
    AddChunksHas(w.s.chunks, JobRows(k, job));
  }

  lemma HeldFilesDownload(k: Crypto, env: Env, w: World, job: Job)
    requires CollisionFree(k) && Fair(env) && Inv(k, w) && Copies(k, w.s) && OnlineAnswers(env, w.s)
    requires job.fileId in w.s.files && w.s.files[job.fileId].status.Active? && job.fileId in w.uploaded
             && w.uploaded[job.fileId] == job.data
    requires forall c :: c in w.s.chunks && w.s.chunks[c].fileId == job.fileId ==>
               exists i :: 0 <= i < |JobRows(k, job)| && JobRows(k, job)[i].id == c
    requires forall i :: 0 <= i < |JobRows(k, job)| ==> Holders(w.s, JobRows(k, job)[i].id) != {}
    ensures Download(k, env, w.s, job.fileId).1 == Some(job.data)
  {
    hide Download, JobRows, Inv, Copies, CollisionFree, OnlineAnswers, Holders, Servable;
    forall c | c in w.s.chunks && w.s.chunks[c].fileId == job.fileId
      ensures Servable(k, env, w.s, w.s.files[job.fileId].encrypted, c)
    {
      HeldServes(k, env, w, job.fileId, c);
    }
    CatalogFiles(k, w, job.fileId);
    ServableDownloads(k, env, w.s, job.fileId, w.uploaded[job.fileId]);
  }

  lemma UnheldFilesFail(k: Crypto, env: Env, w: World, job: Job, i: nat)
    requires Fair(env) && job.fileId in w.s.files && i < |JobRows(k, job)|
    requires JobRows(k, job)[i].id in w.s.chunks && w.s.chunks[JobRows(k, job)[i].id].fileId == job.fileId
    requires |Holders(w.s, JobRows(k, job)[i].id)| == 0
    ensures Download(k, env, w.s, job.fileId).1.None?
  {
    hide Download, JobRows, Holders, DownloadLoses, Downgraded, ServedAll, ChunkList;
    DownloadExact(k, env, w.s, job.fileId);
    assert !Servable(k, env, w.s, w.s.files[job.fileId].encrypted, JobRows(k, job)[i].id);
  }
}
