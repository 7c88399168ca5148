/** When an upload succeeds, and what a success is worth. */
module UploadOutcome {
  import opened Types
  import opened Chunking
  import opened Placement
  import opened Recovery
  import opened Transfers
  import opened Downloads
  import opened Runs

  /** The calls for one replica succeed: the PUT is answered, or a node asked first vouches for a copy it has. */
  predicate CallOk(k: Crypto, env: Env, encrypted: bool, s: State, row: ChunkRow, n: Id) {
    || env.reply(row.id, n).Answered?
    || (!encrypted && env.verify(row.id, n) && (row.id, n) in s.disk && k.hash(s.disk[(row.id, n)]) == row.chunk.sha)
  }

  /** Some ONLINE node has room for size bytes. */
  ghost predicate Room(s: State, size: nat) {
    exists n :: n in s.nodes && s.nodes[n].status.Online? && s.nodes[n].avail >= size
  }

  /** s and t agree on what n has of c. */
  predicate SameCopy(s: State, t: State, c: Id, n: Id) {
    ((c, n) in s.disk <==> (c, n) in t.disk) && ((c, n) in s.disk ==> s.disk[(c, n)] == t.disk[(c, n)])
  }

  lemma AttemptOk(k: Crypto, env: Env, encrypted: bool, row: ChunkRow, payload: Bytes, s: State, s0: State, n: Id,
      number: int)
    requires (!encrypted ==> k.hash(payload) == row.chunk.sha) && SameCopy(s, s0, row.id, n)
    ensures var (t, ok) := Attempt(k, env, encrypted, row, payload, s, n, number);
            && (ok <==> CallOk(k, env, encrypted, s0, row, n))
            && forall c, x :: (c, x) != (row.id, n) ==> SameCopy(t, s, c, x)
  {}

  lemma {:induction false} TargetsOk(k: Crypto, env: Env, encrypted: bool, row: ChunkRow, payload: Bytes, s: State,
                                     s0: State, targets: seq<NodeRow>, number: int)
    requires DistinctIds(targets) && (!encrypted ==> k.hash(payload) == row.chunk.sha)
    requires forall r :: r in targets ==> SameCopy(s, s0, row.id, r.id)
    ensures var (t, ok) := UploadTargets(k, env, encrypted, row, payload, s, targets, number);
            && (ok <==> forall r :: r in targets ==> CallOk(k, env, encrypted, s0, row, r.id))
            && forall c, x :: c != row.id ==> SameCopy(t, s, c, x)
    decreases |targets|
  {
    hide Attempt, CallOk;
    if targets != [] {
      var n, rest := targets[0].id, targets[1..];
      var (s1, ok) := Attempt(k, env, encrypted, row, payload, s, n, number);
      assert targets[0] in targets;
      AttemptOk(k, env, encrypted, row, payload, s, s0, n, number);
      assert forall r :: r in targets <==> r == targets[0] || r in rest;
      if ok {
        forall r | r in rest ensures SameCopy(s1, s0, row.id, r.id) {
          assert SameCopy(s1, s, row.id, r.id) && SameCopy(s, s0, row.id, r.id);
        }
        TargetsOk(k, env, encrypted, row, payload, s1, s0, rest, number + 1);
        var t := UploadTargets(k, env, encrypted, row, payload, s1, rest, number + 1).0;
        forall c, x | c != row.id ensures SameCopy(t, s, c, x) {
          assert SameCopy(t, s1, c, x) && SameCopy(s1, s, c, x);
        }
      }
    }
  }

  /** Chunk row is given nodes, and the calls for all of them succeed. */
  ghost predicate RowOk(k: Crypto, env: Env, job: Job, active: seq<NodeRow>, s: State, row: ChunkRow) {
    && Select(row.chunk.size, active, job.rf, {}).Some?
    && forall r :: r in TargetsOf(job, active, row) ==> CallOk(k, env, job.encrypted, s, row, r.id)
  }

  lemma {:induction false} ChunksOk(k: Crypto, env: Env, job: Job, active: seq<NodeRow>, rows: seq<ChunkRow>,
                                    blobs: seq<Bytes>, s: State, s0: State)
    requires DistinctIds(active) && DistinctChunks(rows) && Describes(k, rows, blobs)
    requires forall i, n :: 0 <= i < |rows| ==> SameCopy(s, s0, rows[i].id, n)
    ensures UploadChunks(k, env, job, active, rows, blobs, s).1 <==>
            forall i :: 0 <= i < |rows| ==> RowOk(k, env, job, active, s0, rows[i])
    decreases |rows|
  {
    hide UploadTargets, Select, SameCopy, CallOk, DistinctIds;
    if rows != [] {
      assert forall i :: 0 < i < |rows| ==> rows[i] == rows[1..][i - 1];
      if Select(rows[0].chunk.size, active, job.rf, {}).Some? {
        FirstRowOk(k, env, job, active, rows[0], blobs[0], s, s0);
        var (s1, ok) := UploadTargets(k, env, job.encrypted, rows[0], Payload(k, env, job, rows[0], blobs[0]), s,
                                      TargetsOf(job, active, rows[0]), 1);
        if ok {
          forall i, n | 0 <= i < |rows[1..]| ensures SameCopy(s1, s0, rows[1..][i].id, n) {
            assert rows[1..][i] == rows[i + 1];
            CopyTrans(s1, s, s0, rows[i + 1].id, n);
          }
          ChunksOk(k, env, job, active, rows[1..], blobs[1..], s1, s0);
        }
      }
    }
  }

  lemma CopyTrans(s: State, t: State, u: State, c: Id, n: Id)
    requires SameCopy(s, t, c, n) && SameCopy(t, u, c, n)
    ensures SameCopy(s, u, c, n)
  {}

  lemma FirstRowOk(k: Crypto, env: Env, job: Job, active: seq<NodeRow>, row: ChunkRow, blob: Bytes, s: State, s0: State)
    requires DistinctIds(active) && k.hash(blob) == row.chunk.sha && Select(row.chunk.size, active, job.rf, {}).Some?
    requires forall n :: SameCopy(s, s0, row.id, n)
    ensures var (t, ok) := UploadTargets(k, env, job.encrypted, row, Payload(k, env, job, row, blob), s,
                                         TargetsOf(job, active, row), 1);
            (ok <==> RowOk(k, env, job, active, s0, row)) && forall c, n :: c != row.id ==> SameCopy(t, s, c, n)
  {
    hide UploadTargets, Select, SameCopy, CallOk, DistinctIds;
    TargetsDistinct(job, active, row);
    TargetsOk(k, env, job.encrypted, row, Payload(k, env, job, row, blob), s, s0, TargetsOf(job, active, row), 1);
  }

  lemma RoomIsSelection(s: State, env: Env, size: nat, rf: int)
    requires Fair(env)
    ensures Select(size, OnlineRows(s.nodes, env), rf, {}).Some? <==> Room(s, size)
  {
    hide OnlineRows, Fair;
    var online, none: set<Id> := OnlineRows(s.nodes, env), {};
    OnlineRowsDistinct(s.nodes, env);
    SelectTakes(size, online, rf, none);
    forall r: NodeRow ensures Eligible(size, online, none, r) <==>
                              r.id in s.nodes && s.nodes[r.id] == r.node && r.node.status.Online?
                              && r.node.avail >= size
    {
      NodeRowsHas(s.nodes, env, r);
    }
    if Room(s, size) {
      var n :| n in s.nodes && s.nodes[n].status.Online? && s.nodes[n].avail >= size;
      assert Eligible(size, online, none, NodeRow(n, s.nodes[n]));
    }
  }

  /** An upload succeeds exactly when it has a chunk, every chunk finds an ONLINE node with room, and on each node
      chosen for a chunk the PUT is answered or a copy already there is vouched for. */
  lemma UploadSucceedsExactly(k: Crypto, env: Env, job: Job, s: State)
    requires Fair(env)
    ensures Upload(k, env, job, s).1 <==>
            && JobRows(k, job) != []
            && forall i :: 0 <= i < |JobRows(k, job)| ==>
                 var row := JobRows(k, job)[i];
                 Room(s, row.chunk.size)
                 && forall r :: r in TargetsOf(job, OnlineRows(s.nodes, env), row) ==>
                      CallOk(k, env, job.encrypted, s, row, r.id)
  {
    hide Fair, JobRows, Pieces, OnlineRows, UploadChunks, AddChunks, CallOk, Select, Room, DistinctIds, DistinctChunks,
         Describes, TargetsOf;
    var rows, blobs, active, created := JobRows(k, job), Pieces(job.data, job.chunkSize), OnlineRows(s.nodes, env),
        Created(k, job, s);
    JobRowsDescribe(k, job);
    OnlineRowsDistinct(s.nodes, env);
    RowsMatch(k, rows, blobs);
    forall i, n | 0 <= i < |rows| ensures SameCopy(created, s, rows[i].id, n) {}
    forall i | 0 <= i < |rows|
      ensures Select(rows[i].chunk.size, active, job.rf, {}).Some? <==> Room(s, rows[i].chunk.size) {
      RoomIsSelection(s, env, rows[i].chunk.size, job.rf);
    }
    if active == [] {
      if rows != [] {
        NobodySelected(rows[0].chunk.size, job.rf);
      }
    } else {
      ChunksOk(k, env, job, active, rows, blobs, created, s);
      forall i | 0 <= i < |rows| ensures RowOk(k, env, job, active, s, rows[i]) <==>
          Room(s, rows[i].chunk.size)
          && forall r :: r in TargetsOf(job, active, rows[i]) ==> CallOk(k, env, job.encrypted, s, rows[i], r.id)
      {}
    }
  }

  lemma RowsMatch(k: Crypto, rows: seq<ChunkRow>, blobs: seq<Bytes>)
    requires Describes(k, rows, blobs)
    ensures |rows| == |blobs|
  {}

  lemma NobodySelected(size: nat, rf: int)
    ensures Select(size, [], rf, {}).None?
  {}

  /** There is nothing to send exactly for an empty file or a chunk size of zero. */
  lemma NothingToSend(k: Crypto, job: Job)
    ensures JobRows(k, job) == [] <==> job.data == [] || job.chunkSize == 0
  {
    ReadSplits(job.data, 0, job.chunkSize);
  }

  /** The file row says how the upload ended; and an upload with nothing to send fails, whatever the cluster does. */
  lemma UploadEnds(k: Crypto, env: Env, job: Job, s: State)
    ensures var (t, ok) := Upload(k, env, job, s);
            && job.fileId in t.files
            && t.files[job.fileId].status == if ok then FileStatus.Active else FileStatus.Corrupted
    ensures job.data == [] || job.chunkSize == 0 ==> !Upload(k, env, job, s).1
  {
    hide JobRows, Pieces, OnlineRows, UploadChunks, AddChunks;
    NothingToSend(k, job);
    var created := Created(k, job, s);
    var active := OnlineRows(created.nodes, env);
    JobRowsDescribe(k, job);
    RowsMatch(k, JobRows(k, job), Pieces(job.data, job.chunkSize));
    if active != [] {
      ChunksKeepFiles(k, env, job, active, JobRows(k, job), Pieces(job.data, job.chunkSize), created);
    }
  }

  lemma {:induction false} ChunksKeepFiles(k: Crypto, env: Env, job: Job, active: seq<NodeRow>, rows: seq<ChunkRow>,
      blobs: seq<Bytes>, s: State)
    requires |rows| == |blobs|
    ensures UploadChunks(k, env, job, active, rows, blobs, s).0.files == s.files
    decreases |rows|
  {
    hide UploadTargets, Select;
    if rows != [] && Select(rows[0].chunk.size, active, job.rf, {}).Some? {
      var payload := Payload(k, env, job, rows[0], blobs[0]);
      var (s1, ok) := UploadTargets(k, env, job.encrypted, rows[0], payload, s, TargetsOf(job, active, rows[0]), 1);
      TargetsKeepFiles(k, env, job.encrypted, rows[0], payload, s, TargetsOf(job, active, rows[0]), 1);
      if ok {
        ChunksKeepFiles(k, env, job, active, rows[1..], blobs[1..], s1);
      }
    }
  }

  lemma {:induction false} TargetsKeepFiles(k: Crypto, env: Env, encrypted: bool, row: ChunkRow, payload: Bytes,
                                            s: State, targets: seq<NodeRow>, number: int)
    ensures UploadTargets(k, env, encrypted, row, payload, s, targets, number).0.files == s.files
    decreases |targets|
  {
    if targets != [] {
      var (s1, ok) := Attempt(k, env, encrypted, row, payload, s, targets[0].id, number);
      if ok {
        TargetsKeepFiles(k, env, encrypted, row, payload, s1, targets[1..], number + 1);
      }
    }
  }

  /** A replication factor of zero: with something to send and room for it, the upload succeeds whatever becomes of its
      calls, for it makes none; and no download can read the file. */
  lemma ZeroFactorSucceeds(k: Crypto, env: Env, job: Job, w: World, later: Env)
    requires RoundTrips(k) && Inv(k, w) && Fair(env) && Fair(later)
    requires job.rf == 0 && job.fileId !in w.uploaded && job.data != [] && job.chunkSize != 0
    requires forall i :: 0 <= i < |JobRows(k, job)| ==> Room(w.s, JobRows(k, job)[i].chunk.size)
    ensures Upload(k, env, job, w.s).1
    ensures Download(k, later, Upload(k, env, job, w.s).0, job.fileId).1.None?
  {
    hide Fair, JobRows, OnlineRows, CallOk, Room, Upload, Download, Inv, RoundTrips, Candidates, Holders;
    NothingToSend(k, job);
    UploadSucceedsExactly(k, env, job, w.s);
    forall i | 0 <= i < |JobRows(k, job)| ensures TargetsOf(job, OnlineRows(w.s.nodes, env), JobRows(k, job)[i]) == [] {
      NoTargets(job, OnlineRows(w.s.nodes, env), JobRows(k, job)[i]);
    }
    UploadedFile(k, env, job, w);
    UploadedQuota(k, env, job, w, 0);
    var after := World(Upload(k, env, job, w.s).0, w.uploaded[job.fileId := job.data]);
    UnheldFilesFail(k, later, after, job, 0);
  }

  lemma NoTargets(job: Job, active: seq<NodeRow>, row: ChunkRow)
    requires job.rf == 0
    ensures TargetsOf(job, active, row) == []
  {
    hide Candidates;
  }
}
