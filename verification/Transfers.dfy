/** Upload, download and delete, as functions of the tables and disks. */
module Transfers {
  import opened Types
  import opened Naming
  import opened Chunking
  import opened Placement
  import opened Recovery

  /** A disk copy that a download would accept for a chunk recorded with this hash. */
  predicate Legible(k: Crypto, encrypted: bool, sha: Digest, b: Bytes) {
    Plain(k, encrypted, b).Some? && k.hash(Plain(k, encrypted, b).value) == sha
  }

  datatype Job = Job(fileId: Id, data: Bytes, chunkSize: int, rf: int, encrypted: bool)

  function AddRow(s: State, c: Id, n: Id, number: int): State {
    s.(replicas := s.replicas[(c, n) := Replica(number, Stored)])
  }

  /** One replica: skip the transfer when the node verifies its copy, else PUT; false is an exception. */
  function Attempt(k: Crypto, env: Env, encrypted: bool, row: ChunkRow, payload: Bytes, s: State, n: Id, number: int)
    : (State, bool)
  {
    var key := (row.id, n);
    if !encrypted && env.verify(row.id, n) && key in s.disk && k.hash(s.disk[key]) == row.chunk.sha
    then (AddRow(s, row.id, n, number), true)
    else if env.reply(row.id, n).Lost? || (!encrypted && k.hash(payload) != row.chunk.sha) then (s, false)
    else
      var written := s.(disk := s.disk[key := payload]);
      if env.reply(row.id, n).Unheard? then (written, false) else (AddRow(written, row.id, n, number), true)
  }

  function UploadTargets(k: Crypto, env: Env, encrypted: bool, row: ChunkRow, payload: Bytes,
                         s: State, targets: seq<NodeRow>, number: int): (State, bool)
    decreases |targets|
  {
    if targets == [] then (s, true) else
    var (s1, ok) := Attempt(k, env, encrypted, row, payload, s, targets[0].id, number);
    if !ok then (s1, false)
    else UploadTargets(k, env, encrypted, row, payload, s1, targets[1..], number + 1)
  }

  function TargetsOf(job: Job, active: seq<NodeRow>, row: ChunkRow): seq<NodeRow> {
    match Select(row.chunk.size, active, job.rf, {})
    case None => []
    case Some(targets) => targets
  }

  function Payload(k: Crypto, env: Env, job: Job, row: ChunkRow, blob: Bytes): Bytes {
    if job.encrypted then k.seal(env.nonce(row.id), blob) else blob
  }

  function UploadChunks(k: Crypto, env: Env, job: Job, active: seq<NodeRow>,
                        rows: seq<ChunkRow>, blobs: seq<Bytes>, s: State): (State, bool)
    requires |rows| == |blobs|
    decreases |rows|
  {
    if rows == [] then (s, true)
    else if Select(rows[0].chunk.size, active, job.rf, {}).None? then (s, false)
    else
      var (s1, ok) := UploadTargets(k, env, job.encrypted, rows[0], Payload(k, env, job, rows[0], blobs[0]),
                                    s, TargetsOf(job, active, rows[0]), 1);
      if !ok then (s1, false) else UploadChunks(k, env, job, active, rows[1..], blobs[1..], s1)
  }

  function AddChunks(chunks: map<Id, Chunk>, rows: seq<ChunkRow>): map<Id, Chunk>
    decreases |rows|
  {
    if rows == [] then chunks else AddChunks(chunks[rows[0].id := rows[0].chunk], rows[1..])
  }

  function JobRows(k: Crypto, job: Job): seq<ChunkRow> {
    Models(k, job.fileId, Pieces(job.data, job.chunkSize))
  }

  function FileRow(k: Crypto, job: Job, status: FileStatus): File {
    File(|job.data|, k.hash(Concat(Pieces(job.data, job.chunkSize))), status, job.chunkSize, job.rf, job.encrypted)
  }

  /** create_file and create_chunks. */
  function Created(k: Crypto, job: Job, s: State): State {
    s.(files := s.files[job.fileId := FileRow(k, job, FileStatus.Uploading)],
       chunks := AddChunks(s.chunks, JobRows(k, job)))
  }

  /** process_file_upload; an empty chunk list fails after the loop, like every exception inside it. */
  function Upload(k: Crypto, env: Env, job: Job, s: State): (State, bool) {
    var created := Created(k, job, s);
    var active := OnlineRows(created.nodes, env);
    var (sent, ok) := if active == [] then (created, false)
      else UploadChunks(k, env, job, active, JobRows(k, job), Pieces(job.data, job.chunkSize), created);
    var done := ok && JobRows(k, job) != [];
    (sent.(files := WithStatus(sent.files, job.fileId, if done then FileStatus.Active else FileStatus.Corrupted)), done)
  }

  ghost function Ids(targets: seq<NodeRow>): set<Id> {
    set r | r in targets :: r.id
  }

  /** s and t agree on every row and every disk copy of c. */
  ghost predicate SameChunk(s: State, t: State, c: Id) {
    && (forall n :: (c, n) in s.replicas <==> (c, n) in t.replicas)
    && (forall n :: (c, n) in s.replicas ==> s.replicas[(c, n)] == t.replicas[(c, n)])
    && (forall n :: (c, n) in s.disk <==> (c, n) in t.disk)
    && (forall n :: (c, n) in s.disk ==> s.disk[(c, n)] == t.disk[(c, n)])
  }

  ghost predicate SameTables(s: State, t: State) {
    s.nodes == t.nodes && s.files == t.files && s.chunks == t.chunks
  }

  /** The rows of c are the first m targets, numbered from 1, STORED, each with a legible copy. */
  ghost predicate Placed(k: Crypto, encrypted: bool, t: State, c: Id, sha: Digest, targets: seq<NodeRow>, m: nat) {
    && m <= |targets|
    && (forall n :: (c, n) in t.replicas ==> n in Ids(targets[..m]))
    && (forall j :: 0 <= j < m ==>
          && (c, targets[j].id) in t.replicas && t.replicas[(c, targets[j].id)] == Replica(j + 1, Stored)
          && (c, targets[j].id) in t.disk && Legible(k, encrypted, sha, t.disk[(c, targets[j].id)]))
  }

  /** All an attempt can do: write the payload, then add the row once a legible copy is in place. */
  ghost predicate AttemptDoes(k: Crypto, encrypted: bool, sha: Digest, s: State, t: State, key: Key, number: int,
      ok: bool) {
    && SameTables(s, t)
    && t.replicas == (if ok then s.replicas[key := Replica(number, Stored)] else s.replicas)
    && (t.disk == s.disk
        || (key in t.disk && Legible(k, encrypted, sha, t.disk[key]) && t.disk == s.disk[key := t.disk[key]]))
    && (ok ==> key in t.disk && Legible(k, encrypted, sha, t.disk[key]))
  }

  lemma AttemptEffect(k: Crypto, env: Env, encrypted: bool, row: ChunkRow, payload: Bytes, s: State, n: Id, number: int)
    requires Legible(k, encrypted, row.chunk.sha, payload)
    ensures var (t, ok) := Attempt(k, env, encrypted, row, payload, s, n, number);
            AttemptDoes(k, encrypted, row.chunk.sha, s, t, (row.id, n), number, ok)
  {}

  lemma AttemptFrame(k: Crypto, encrypted: bool, sha: Digest, s: State, t: State, c: Id, n: Id, number: int, ok: bool,
                    d: Id)
    requires AttemptDoes(k, encrypted, sha, s, t, (c, n), number, ok) && d != c
    ensures SameChunk(s, t, d)
  {
    hide Legible;
  }

  lemma AttemptPlaces(k: Crypto, encrypted: bool, sha: Digest, s: State, t: State, c: Id,
                     targets: seq<NodeRow>, m: nat, ok: bool)
    requires m < |targets| && DistinctIds(targets)
    requires AttemptDoes(k, encrypted, sha, s, t, (c, targets[m].id), m + 1, ok)
    requires Placed(k, encrypted, s, c, sha, targets, m)
    ensures Placed(k, encrypted, t, c, sha, targets, if ok then m + 1 else m)
  {
    hide Legible, SameTables, Ids;
    assert forall j :: 0 <= j < m ==> targets[j].id != targets[m].id;
    IdsGrow(targets, m);
  }

  lemma IdsGrow(targets: seq<NodeRow>, m: nat)
    requires m < |targets|
    ensures Ids(targets[..m + 1]) == Ids(targets[..m]) + {targets[m].id}
  {
    assert targets[..m + 1] == targets[..m] + [targets[m]];
    assert targets[m] in targets[..m + 1];
    forall n | n in Ids(targets[..m]) ensures n in Ids(targets[..m + 1]) {
      var r :| r in targets[..m] && r.id == n;
      assert r in targets[..m + 1];
    }
  }

  /** The replicas of one chunk: some prefix of the chosen nodes, all of them exactly when no call failed. */
  lemma {:induction false} UploadTargetsPlaces(k: Crypto, env: Env, encrypted: bool, row: ChunkRow, payload: Bytes,
                                               s: State, targets: seq<NodeRow>, m: nat) returns (done: nat)
    requires m <= |targets| && DistinctIds(targets)
    requires Placed(k, encrypted, s, row.id, row.chunk.sha, targets, m)
    requires Legible(k, encrypted, row.chunk.sha, payload)
    ensures var (t, ok) := UploadTargets(k, env, encrypted, row, payload, s, targets[m..], m + 1);
            && SameTables(s, t) && (forall d :: d != row.id ==> SameChunk(s, t, d))
            && Placed(k, encrypted, t, row.id, row.chunk.sha, targets, done)
            && (ok <==> done == |targets|)
    decreases |targets| - m
  {
    hide Attempt, Placed, Legible, Ids, DistinctIds, SameChunk;
    done := m;
    if m < |targets| {
      var (s1, ok) := Attempt(k, env, encrypted, row, payload, s, targets[m].id, m + 1);
      AttemptEffect(k, env, encrypted, row, payload, s, targets[m].id, m + 1);
      AttemptPlaces(k, encrypted, row.chunk.sha, s, s1, row.id, targets, m, ok);
      forall d | d != row.id ensures SameChunk(s, s1, d) {
        AttemptFrame(k, encrypted, row.chunk.sha, s, s1, row.id, targets[m].id, m + 1, ok, d);
      }
      if ok {
        done := UploadTargetsPlaces(k, env, encrypted, row, payload, s1, targets, m + 1);
        assert targets[m..][1..] == targets[m + 1..];
        var t := UploadTargets(k, env, encrypted, row, payload, s1, targets[m + 1..], m + 2).0;
        forall d | d != row.id ensures SameChunk(s, t, d) {
          SameChunkTrans(s, s1, t, d);
        }
      }
    } else {
      forall d ensures SameChunk(s, s, d) { SameChunkRefl(s, d); }
    }
  }

  lemma SameChunkTrans(s: State, t: State, u: State, c: Id)
    requires SameChunk(s, t, c) && SameChunk(t, u, c)
    ensures SameChunk(s, u, c)
  {}

  lemma SameChunkRefl(s: State, c: Id)
    ensures SameChunk(s, s, c)
  {}

  lemma PlacedSame(k: Crypto, encrypted: bool, s: State, t: State, c: Id, sha: Digest, targets: seq<NodeRow>, m: nat)
    requires Placed(k, encrypted, s, c, sha, targets, m) && SameChunk(s, t, c)
    ensures Placed(k, encrypted, t, c, sha, targets, m)
  {
    hide Legible, Ids;
  }

  ghost predicate Partly(k: Crypto, job: Job, active: seq<NodeRow>, t: State, row: ChunkRow) {
    exists m :: Placed(k, job.encrypted, t, row.id, row.chunk.sha, TargetsOf(job, active, row), m)
  }

  ghost predicate Fully(k: Crypto, job: Job, active: seq<NodeRow>, t: State, row: ChunkRow) {
    && Select(row.chunk.size, active, job.rf, {}).Some?
    && Placed(k, job.encrypted, t, row.id, row.chunk.sha, TargetsOf(job, active, row), |TargetsOf(job, active, row)|)
  }

  ghost predicate DistinctChunks(rows: seq<ChunkRow>) {
    forall i, j :: 0 <= i < j < |rows| ==> rows[i].id != rows[j].id
  }

  /** The hashes recorded in rows are those of blobs. */
  ghost predicate Describes(k: Crypto, rows: seq<ChunkRow>, blobs: seq<Bytes>) {
    |rows| == |blobs| && forall i :: 0 <= i < |rows| ==> k.hash(blobs[i]) == rows[i].chunk.sha
  }

  ghost predicate Untouched(s: State, rows: seq<ChunkRow>) {
    forall i, n :: 0 <= i < |rows| ==> (rows[i].id, n) !in s.replicas
  }

  lemma TargetsDistinct(job: Job, active: seq<NodeRow>, row: ChunkRow)
    requires DistinctIds(active)
    ensures DistinctIds(TargetsOf(job, active, row))
    ensures forall r :: r in TargetsOf(job, active, row) ==> r in active && r.node.status.Online?
  {
    SelectTakes(row.chunk.size, active, job.rf, {});
  }

  lemma PartlySame(k: Crypto, job: Job, active: seq<NodeRow>, s: State, t: State, row: ChunkRow)
    requires SameChunk(s, t, row.id)
    ensures Partly(k, job, active, s, row) ==> Partly(k, job, active, t, row)
    ensures Fully(k, job, active, s, row) ==> Fully(k, job, active, t, row)
  {
    hide Placed, TargetsOf, SameChunk;
    var targets := TargetsOf(job, active, row);
    forall m | Placed(k, job.encrypted, s, row.id, row.chunk.sha, targets, m)
      ensures Placed(k, job.encrypted, t, row.id, row.chunk.sha, targets, m)
    {
      PlacedSame(k, job.encrypted, s, t, row.id, row.chunk.sha, targets, m);
    }
  }

  /** The first chunk of a list, uploaded or refused. */
  lemma FirstChunkPlaces(k: Crypto, env: Env, job: Job, active: seq<NodeRow>, row: ChunkRow, blob: Bytes, s: State)
    requires DistinctIds(active) && RoundTrips(k) && k.hash(blob) == row.chunk.sha
    requires forall n :: (row.id, n) !in s.replicas
    ensures var (t, ok) := UploadTargets(k, env, job.encrypted, row, Payload(k, env, job, row, blob), s,
                                         TargetsOf(job, active, row), 1);
            && SameTables(s, t) && (forall d :: d != row.id ==> SameChunk(s, t, d))
            && Partly(k, job, active, t, row)
            && (ok && Select(row.chunk.size, active, job.rf, {}).Some? ==> Fully(k, job, active, t, row))
  {
    hide UploadTargets, SameChunk, TargetsOf;
    var targets := TargetsOf(job, active, row);
    TargetsDistinct(job, active, row);
    assert Placed(k, job.encrypted, s, row.id, row.chunk.sha, targets, 0);
    assert targets[0..] == targets;
    var done := UploadTargetsPlaces(k, env, job.encrypted, row, Payload(k, env, job, row, blob), s, targets, 0);
  }

  lemma {:induction false} UploadChunksPlaces(k: Crypto, env: Env, job: Job, active: seq<NodeRow>,
                                              rows: seq<ChunkRow>, blobs: seq<Bytes>, s: State)
    requires DistinctIds(active) && RoundTrips(k) && DistinctChunks(rows) && Describes(k, rows, blobs)
             && Untouched(s, rows)
    ensures var (t, ok) := UploadChunks(k, env, job, active, rows, blobs, s);
            && SameTables(s, t)
            && (forall d :: (forall i :: 0 <= i < |rows| ==> rows[i].id != d) ==> SameChunk(s, t, d))
            && (forall i :: 0 <= i < |rows| ==> Partly(k, job, active, t, rows[i]))
            && (ok ==> forall i :: 0 <= i < |rows| ==> Fully(k, job, active, t, rows[i]))
    decreases |rows|
  {
    hide UploadTargets, SameChunk, TargetsOf, Placed, Partly, Fully, DistinctIds, Payload;
    if rows == [] {
      forall d ensures SameChunk(s, s, d) { SameChunkRefl(s, d); }
    } else if Select(rows[0].chunk.size, active, job.rf, {}).None? {
      forall d ensures SameChunk(s, s, d) { SameChunkRefl(s, d); }
      UntouchedIsPartly(k, job, active, rows, s);
    } else {
      FirstChunkPlaces(k, env, job, active, rows[0], blobs[0], s);
      var (s1, ok) := UploadTargets(k, env, job.encrypted, rows[0], Payload(k, env, job, rows[0], blobs[0]),
                                    s, TargetsOf(job, active, rows[0]), 1);
      UntouchedLater(s, s1, rows);
      if ok {
        UploadChunksPlaces(k, env, job, active, rows[1..], blobs[1..], s1);
        UploadChunksJoin(k, env, job, active, rows, blobs, s, s1);
      } else {
        UntouchedIsPartly(k, job, active, rows[1..], s1);
        forall i | 0 <= i < |rows| ensures Partly(k, job, active, s1, rows[i]) {
          assert i > 0 ==> rows[i] == rows[1..][i - 1];
        }
      }
    }
  }

  lemma UntouchedIsPartly(k: Crypto, job: Job, active: seq<NodeRow>, rows: seq<ChunkRow>, s: State)
    requires Untouched(s, rows)
    ensures forall i :: 0 <= i < |rows| ==> Partly(k, job, active, s, rows[i])
  {
    hide TargetsOf;
    forall i | 0 <= i < |rows| ensures Partly(k, job, active, s, rows[i]) {
      assert Placed(k, job.encrypted, s, rows[i].id, rows[i].chunk.sha, TargetsOf(job, active, rows[i]), 0);
    }
  }

  lemma UntouchedLater(s: State, t: State, rows: seq<ChunkRow>)
    requires rows != [] && DistinctChunks(rows) && Untouched(s, rows)
    requires forall d :: d != rows[0].id ==> SameChunk(s, t, d)
    ensures Untouched(t, rows[1..])
  {
    forall i, n | 0 <= i < |rows[1..]| ensures (rows[1..][i].id, n) !in t.replicas {
      assert rows[1..][i] == rows[i + 1] && rows[i + 1].id != rows[0].id;
      assert SameChunk(s, t, rows[i + 1].id);
      assert (rows[i + 1].id, n) !in s.replicas;
    }
  }

  lemma UploadChunksJoin(k: Crypto, env: Env, job: Job, active: seq<NodeRow>, rows: seq<ChunkRow>, blobs: seq<Bytes>,
                         s: State, s1: State)
    requires rows != [] && |rows| == |blobs| && DistinctChunks(rows)
    requires forall d :: d != rows[0].id ==> SameChunk(s, s1, d)
    requires Partly(k, job, active, s1, rows[0]) && Fully(k, job, active, s1, rows[0])
    requires var (t, ok) := UploadChunks(k, env, job, active, rows[1..], blobs[1..], s1);
             && (forall d :: (forall i :: 0 <= i < |rows[1..]| ==> rows[1..][i].id != d) ==> SameChunk(s1, t, d))
             && (forall i :: 0 <= i < |rows[1..]| ==> Partly(k, job, active, t, rows[1..][i]))
             && (ok ==> forall i :: 0 <= i < |rows[1..]| ==> Fully(k, job, active, t, rows[1..][i]))
    ensures var (t, ok) := UploadChunks(k, env, job, active, rows[1..], blobs[1..], s1);
            && (forall d :: (forall i :: 0 <= i < |rows| ==> rows[i].id != d) ==> SameChunk(s, t, d))
            && (forall i :: 0 <= i < |rows| ==> Partly(k, job, active, t, rows[i]))
            && (ok ==> forall i :: 0 <= i < |rows| ==> Fully(k, job, active, t, rows[i]))
  {
    hide UploadChunks, SameChunk, Partly, Fully;
    var (t, ok) := UploadChunks(k, env, job, active, rows[1..], blobs[1..], s1);
    var rest := rows[1..];
    assert forall i :: 0 < i < |rows| ==> rows[i] == rest[i - 1];
    assert SameChunk(s1, t, rows[0].id) by {
      assert forall i :: 0 <= i < |rest| ==> rest[i].id == rows[i + 1].id != rows[0].id;
    }
    PartlySame(k, job, active, s1, t, rows[0]);
    forall d | forall i :: 0 <= i < |rows| ==> rows[i].id != d ensures SameChunk(s, t, d) {
      assert rows[0].id != d;
      assert forall i :: 0 <= i < |rest| ==> rest[i].id == rows[i + 1].id != d;
      SameChunkTrans(s, s1, t, d);
    }
  }

  lemma JobRowsDescribe(k: Crypto, job: Job)
    ensures DistinctChunks(JobRows(k, job)) && Describes(k, JobRows(k, job), Pieces(job.data, job.chunkSize))
  {
    hide Pieces, ChunkId;
    var rows := JobRows(k, job);
    forall i, j | 0 <= i < j < |rows| ensures rows[i].id != rows[j].id {
      if ChunkId(job.fileId, i) == ChunkId(job.fileId, j) {
        ChunkIdInjective(job.fileId, i, job.fileId, j);
      }
    }
  }

  lemma {:induction false} AddChunksHas(chunks: map<Id, Chunk>, rows: seq<ChunkRow>)
    requires DistinctChunks(rows)
    ensures forall i :: 0 <= i < |rows| ==>
              rows[i].id in AddChunks(chunks, rows) && AddChunks(chunks, rows)[rows[i].id] == rows[i].chunk
    ensures forall c :: (forall i :: 0 <= i < |rows| ==> rows[i].id != c) ==>
              (c in AddChunks(chunks, rows) <==> c in chunks)
              && (c in chunks ==> AddChunks(chunks, rows)[c] == chunks[c])
    decreases |rows|
  {
    if rows != [] {
      var rest, next := rows[1..], chunks[rows[0].id := rows[0].chunk];
      assert forall i :: 0 < i < |rows| ==> rows[i] == rest[i - 1];
      AddChunksHas(next, rest);
      assert forall i :: 0 <= i < |rest| ==> rest[i].id == rows[i + 1].id != rows[0].id;
      forall c | forall i :: 0 <= i < |rows| ==> rows[i].id != c
        ensures (c in AddChunks(chunks, rows) <==> c in chunks)
                && (c in chunks ==> AddChunks(chunks, rows)[c] == chunks[c])
      {
        assert rows[0].id != c;
        assert forall i :: 0 <= i < |rest| ==> rest[i].id != c;
      }
    }
  }

  /** Everything an upload does: its file row, its chunk rows, and replicas of its own chunks only. */
  ghost predicate Uploaded(k: Crypto, env: Env, job: Job, s: State, t: State, ok: bool) {
    var rows, active := JobRows(k, job), OnlineRows(s.nodes, env);
    && t.nodes == s.nodes && t.chunks == AddChunks(s.chunks, rows)
    && t.files == s.files[job.fileId := FileRow(k, job, if ok then FileStatus.Active else FileStatus.Corrupted)]
    && (forall d :: (forall i :: 0 <= i < |rows| ==> rows[i].id != d) ==> SameChunk(s, t, d))
    && (forall i :: 0 <= i < |rows| ==> Partly(k, job, active, t, rows[i]))
    && (ok ==> rows != [] && forall i :: 0 <= i < |rows| ==> Fully(k, job, active, t, rows[i]))
  }

  /** An upload fills every chunk's chosen nodes or ends CORRUPTED, and disturbs no other chunk. */
  lemma UploadPlaces(k: Crypto, env: Env, job: Job, s: State)
    requires Fair(env) && RoundTrips(k) && Untouched(s, JobRows(k, job))
    ensures Uploaded(k, env, job, s, Upload(k, env, job, s).0, Upload(k, env, job, s).1)
  {
    hide JobRows, OnlineRows, AddChunks, SameChunk, Partly, Fully, UploadChunks, DistinctIds, DistinctChunks, FileRow,
         RoundTrips, Untouched;
    var created := Created(k, job, s);
    var rows, active := JobRows(k, job), OnlineRows(s.nodes, env);
    JobRowsDescribe(k, job);
    OnlineRowsDistinct(s.nodes, env);
    CreatedUntouched(k, job, s, rows);
    if active == [] {
      UntouchedIsPartly(k, job, active, rows, created);
      forall d ensures SameChunk(created, created, d) { SameChunkRefl(created, d); }
      UploadFinishes(k, env, job, s, created, false);
    } else {
      UploadChunksPlaces(k, env, job, active, rows, Pieces(job.data, job.chunkSize), created);
      var (sent, ok) := UploadChunks(k, env, job, active, rows, Pieces(job.data, job.chunkSize), created);
      UploadFinishes(k, env, job, s, sent, ok);
    }
  }

  lemma CreatedUntouched(k: Crypto, job: Job, s: State, rows: seq<ChunkRow>)
    ensures Untouched(s, rows) ==> Untouched(Created(k, job, s), rows)
    ensures forall d :: SameChunk(s, Created(k, job, s), d)
  {
    hide AddChunks, FileRow, JobRows;
  }

  lemma UploadFinishes(k: Crypto, env: Env, job: Job, s: State, sent: State, ok: bool)
    requires var rows, active := JobRows(k, job), OnlineRows(s.nodes, env);
             && SameTables(Created(k, job, s), sent)
             && (forall d :: (forall i :: 0 <= i < |rows| ==> rows[i].id != d) ==>
                 SameChunk(Created(k, job, s), sent, d))
             && (forall i :: 0 <= i < |rows| ==> Partly(k, job, active, sent, rows[i]))
             && (ok ==> forall i :: 0 <= i < |rows| ==> Fully(k, job, active, sent, rows[i]))
    ensures var done := ok && JobRows(k, job) != [];
            var status := if done then FileStatus.Active else FileStatus.Corrupted;
            Uploaded(k, env, job, s, sent.(files := WithStatus(sent.files, job.fileId, status)), done)
  {
    hide JobRows, OnlineRows, AddChunks, Select, TargetsOf, Legible, Ids, Placed, Partly, Fully, SameChunk;
    var done := ok && JobRows(k, job) != [];
    var status := if done then FileStatus.Active else FileStatus.Corrupted;
    var rows, active, t := JobRows(k, job), OnlineRows(s.nodes, env),
        sent.(files := WithStatus(sent.files, job.fileId, status));
    CreatedUntouched(k, job, s, rows);
    forall d ensures SameChunk(sent, t, d) { SameChunkFiles(sent, t, d); }
    forall d | forall i :: 0 <= i < |rows| ==> rows[i].id != d ensures SameChunk(s, t, d) {
      SameChunkTrans(s, Created(k, job, s), sent, d);
      SameChunkTrans(s, sent, t, d);
    }
    forall i | 0 <= i < |rows|
      ensures Partly(k, job, active, t, rows[i]) && (done ==> Fully(k, job, active, t, rows[i])) {
      PartlySame(k, job, active, sent, t, rows[i]);
    }
    FileRowStatus(k, job, status);
  }

  lemma FileRowStatus(k: Crypto, job: Job, status: FileStatus)
    ensures FileRow(k, job, FileStatus.Uploading).(status := status) == FileRow(k, job, status)
  {}

  lemma SameChunkFiles(s: State, t: State, d: Id)
    requires s.replicas == t.replicas && s.disk == t.disk
    ensures SameChunk(s, t, d)
  {}

  /** A placed row: an ONLINE node from the chosen list, its position as number, a legible copy. */
  lemma PlacedRow(k: Crypto, encrypted: bool, t: State, c: Id, sha: Digest, targets: seq<NodeRow>, m: nat, n: Id)
    returns (j: nat)
    requires Placed(k, encrypted, t, c, sha, targets, m) && (c, n) in t.replicas
    ensures j < m && targets[j].id == n && t.replicas[(c, n)] == Replica(j + 1, Stored)
    ensures (c, n) in t.disk && Legible(k, encrypted, sha, t.disk[(c, n)])
  {
    hide Legible;
    var r :| r in targets[..m] && r.id == n;
    j :| 0 <= j < m && targets[j] == r;
  }

  ghost predicate HasNumber(t: State, c: Id, j: int) {
    exists n :: (c, n) in t.replicas && t.replicas[(c, n)].number == j
  }

  /** A successful upload stores each chunk on exactly the quota of nodes, numbered from 1. */
  lemma UploadExact(k: Crypto, env: Env, job: Job, s: State, i: nat)
    requires Fair(env) && RoundTrips(k) && Untouched(s, JobRows(k, job))
    requires i < |JobRows(k, job)| && Upload(k, env, job, s).1
    ensures var t, row := Upload(k, env, job, s).0, JobRows(k, job)[i];
            var quota := Quota(|Candidates(row.chunk.size, OnlineRows(s.nodes, env), {})|, job.rf);
            && |Holders(t, row.id)| == quota
            && (forall n :: (row.id, n) in t.replicas ==> n in Holders(t, row.id))
            && (forall j :: 1 <= j <= quota ==> HasNumber(t, row.id, j))
            && (job.rf >= 1 ==> quota >= 1)
  {
    hide Upload, Select, Candidates, OnlineRows, JobRows, Legible;
    var t, row, active := Upload(k, env, job, s).0, JobRows(k, job)[i], OnlineRows(s.nodes, env);
    UploadPlaces(k, env, job, s);
    OnlineRowsDistinct(s.nodes, env);
    SelectTakes(row.chunk.size, active, job.rf, {});
    CandidatesNonEmpty(row.chunk.size, active, job.rf, {});
    assert Fully(k, job, active, t, row);
    FullyHolders(k, job, active, t, row);
  }

  lemma FullyHolders(k: Crypto, job: Job, active: seq<NodeRow>, t: State, row: ChunkRow)
    requires Fully(k, job, active, t, row) && DistinctIds(active)
    ensures |Holders(t, row.id)| == |TargetsOf(job, active, row)|
    ensures forall n :: (row.id, n) in t.replicas ==> n in Holders(t, row.id)
    ensures forall j :: 1 <= j <= |TargetsOf(job, active, row)| ==> HasNumber(t, row.id, j)
  {
    hide Legible, TargetsOf, Select, Holders;
    var targets := TargetsOf(job, active, row);
    TargetsDistinct(job, active, row);
    var ids := seq(|targets|, j requires 0 <= j < |targets| => targets[j].id);
    DistinctSize(ids);
    forall n ensures n in Holders(t, row.id) <==> n in Elements(ids)
      ensures (row.id, n) in t.replicas ==> n in Holders(t, row.id)
    {
      HoldersHas(t, row.id, n);
      if (row.id, n) in t.replicas {
        var j := PlacedRow(k, job.encrypted, t, row.id, row.chunk.sha, targets, |targets|, n);
        assert ids[j] == n;
      }
    }
    assert Holders(t, row.id) == Elements(ids);
    forall j | 1 <= j <= |targets| ensures HasNumber(t, row.id, j) {
      assert (row.id, targets[j - 1].id) in t.replicas;
    }
  }
}
