/** storage_manager.py as methods, proved against the upload, download and delete specifications. */
module StorageManagers {
  import opened Types
  import opened Placement
  import opened Recovery
  import opened Chunking
  import opened Transfers
  import opened Downloads
  import opened Tables

  class StorageManagerService {
    const k: Crypto
    const db: Database
    const lan: Lan
    const fs: FileSystem

    constructor (k: Crypto, db: Database, lan: Lan, fs: FileSystem)
      requires lan.k == k
      ensures this.k == k && this.db == db && this.lan == lan && this.fs == fs
    {
      this.k, this.db, this.lan, this.fs := k, db, lan, fs;
    }

    ghost predicate Valid() {
      lan.k == k
    }

    // ---------- upload ----------

    /** One replica of one chunk: verify first unless encrypted, else PUT; then the row. False is an exception. */
    method SendReplica(env: Env, encrypted: bool, row: ChunkRow, payload: Bytes, n: Id, number: int) returns (ok: bool)
      requires Valid()
      modifies db, lan
      ensures (Snapshot(db, lan), ok) == Attempt(k, env, encrypted, row, payload, old(Snapshot(db, lan)), n, number)
    {
      var already := false;
      if !encrypted {
        already := lan.VerifyChunk(env, row.id, n, row.chunk.sha);
      }
      if !already {
        var sent := lan.StoreChunk(env, row.id, n, payload, if encrypted then None else Some(row.chunk.sha));
        if !sent {
          return false;
        }
      }
      db.AddReplica(row.id, n, number, Stored);
      ok := true;
    }

    /** The replica loop of one chunk. */
    method SendChunk(env: Env, encrypted: bool, row: ChunkRow, payload: Bytes, targets: seq<NodeRow>) returns (ok: bool)
      requires Valid()
      modifies db, lan
      ensures (Snapshot(db, lan), ok)
              == UploadTargets(k, env, encrypted, row, payload, old(Snapshot(db, lan)), targets, 1)
    {
      hide Attempt;
      var number := 1;
      for i := 0 to |targets|
        invariant number == i + 1
        invariant UploadTargets(k, env, encrypted, row, payload, Snapshot(db, lan), targets[i..], i + 1)
                  == UploadTargets(k, env, encrypted, row, payload, old(Snapshot(db, lan)), targets, 1)
      {
        assert targets[i..][1..] == targets[i + 1..];
        ok := SendReplica(env, encrypted, row, payload, targets[i].id, number);
        if !ok {
          return;
        }
        number := number + 1;
      }
      ok := true;
    }

    /** The chunk loop; false is an exception that process_file_upload catches. */
    method SendChunks(env: Env, job: Job, active: seq<NodeRow>, rows: seq<ChunkRow>, blobs: seq<Bytes>)
      returns (ok: bool)
      requires Valid() && |rows| == |blobs|
      modifies db, lan
      ensures (Snapshot(db, lan), ok) == UploadChunks(k, env, job, active, rows, blobs, old(Snapshot(db, lan)))
    {
      hide UploadTargets, Select;
      for i := 0 to |rows|
        invariant UploadChunks(k, env, job, active, rows[i..], blobs[i..], Snapshot(db, lan))
                  == UploadChunks(k, env, job, active, rows, blobs, old(Snapshot(db, lan)))
      {
        assert rows[i..][1..] == rows[i + 1..] && blobs[i..][1..] == blobs[i + 1..];
        var targets := Select(rows[i].chunk.size, active, job.rf, {});
        if targets.None? {
          return false;
        }
        var payload := if job.encrypted then k.seal(env.nonce(rows[i].id), blobs[i]) else blobs[i];
        ok := SendChunk(env, job.encrypted, rows[i], payload, targets.value);
        if !ok {
          return;
        }
      }
      ok := true;
    }

    /** process_file_upload: every exception leads to the same handler, which marks the file CORRUPTED. */
    method ProcessFileUpload(env: Env, job: Job) returns (ok: bool)
      requires Valid()
      modifies db, lan
      ensures (Snapshot(db, lan), ok) == Upload(k, env, job, old(Snapshot(db, lan)))
    {
      hide UploadChunks, AddChunks, Pieces, Models, Concat, Select, NodeRows, WithStatus;
      var digest, size, described := GetFileInfoAndChunks(k, job.data, job.fileId, job.chunkSize);
      db.CreateFile(job.fileId, File(size, digest, FileStatus.Uploading, job.chunkSize, job.rf, job.encrypted));
      db.CreateChunks(described);
      var nodes := db.ListNodes(env);
      var active := Filter(nodes, (r: NodeRow) => r.node.status.Online?);
      assert active == OnlineRows(db.nodes, env);
      assert Snapshot(db, lan) == Created(k, job, old(Snapshot(db, lan)));
      ok := active != [];
      if ok {
        var rows, blobs := StreamChunks(k, job.data, job.fileId, job.chunkSize);
        assert |rows| == |blobs| by { ModelsSize(k, job.fileId, blobs); }
        ok := SendChunks(env, job, active, rows, blobs);
        ok := ok && rows != [];
      }
      db.UpdateFileStatus(job.fileId, if ok then FileStatus.Active else FileStatus.Corrupted);
    }

    // ---------- download ----------

    /** The failover loop for one chunk. */
    method FetchOne(env: Env, encrypted: bool, c: Id) returns (data: Option<Bytes>)
      requires Valid() && c in db.chunks
      modifies db
      ensures (Snapshot(db, lan), data) == FetchChunk(k, env, old(Snapshot(db, lan)), encrypted, c)
    {
      hide ChunkRows, Filter;
      var sha := db.chunks[c].sha;
      var replicas := db.GetReplicasForChunk(env, c);
      var stored := Filter(replicas, (r: Row) => r.status.Stored?);
      assert stored == StoredRows(db.replicas, env, c);
      for i := 0 to |stored|
        invariant db.nodes == old(db.nodes) && db.files == old(db.files) && db.chunks == old(db.chunks)
        invariant TryRows(k, env, Snapshot(db, lan), encrypted, c, sha, stored[i..])
                  == TryRows(k, env, old(Snapshot(db, lan)), encrypted, c, sha, stored)
      {
        assert stored[i..][1..] == stored[i + 1..];
        var n := stored[i].node;
        if n in db.nodes && db.nodes[n].status.Online? {
          var raw := lan.GetChunk(env, c, n);
          if raw.Some? {
            var plain := Plain(k, encrypted, raw.value);
            if plain.Some? {
              if k.hash(plain.value) == sha {
                return plain;
              }
              db.UpdateReplicaStatus(c, n, ReplicaStatus.Corrupted);
            }
          }
        }
      }
      data := None;
    }

    /** The chunk generator, run to its end or to the first chunk nobody serves. */
    method FetchStream(env: Env, encrypted: bool, cs: seq<Id>) returns (stream: seq<Option<Bytes>>)
      requires Valid() && forall c :: c in cs ==> c in db.chunks
      modifies db
      ensures (Snapshot(db, lan), Delivered(stream)) == FetchAll(k, env, old(Snapshot(db, lan)), encrypted, cs)
    {
      hide FetchChunk, Downgrade;
      ghost var s := Snapshot(db, lan);
      stream := [];
      AfterStart(k, env, s, encrypted, cs);
      for i := 0 to |cs|
        invariant db.chunks == old(db.chunks)
        invariant Delivered(stream).Some?
        invariant FetchAll(k, env, s, encrypted, cs)
                  == After(Delivered(stream).value, FetchAll(k, env, Snapshot(db, lan), encrypted, cs[i..]))
      {
        assert cs[i..][1..] == cs[i + 1..];
        ghost var now := Snapshot(db, lan);
        FetchChunkTables(k, env, now, encrypted, cs[i]);
        DowngradeTables(now, cs[i], Downgraded(k, env, now, encrypted, cs[i]));
        var data := FetchOne(env, encrypted, cs[i]);
        DeliveredSnoc(stream, data);
        AfterNext(k, env, now, encrypted, cs, i, Delivered(stream).value);
        stream := stream + [data];
        if data.None? {
          return;
        }
      }
      AfterEnd(k, env, Snapshot(db, lan), encrypted, cs, Delivered(stream).value);
    }

    /** stream_file_reconstruction: the tables lose only downgraded rows, the target is replaced all or nothing. */
    method StreamFileReconstruction(env: Env, f: Id, outPath: string) returns (ok: bool)
      requires Valid() && Fair(env)
      modifies db, fs
      ensures Snapshot(db, lan) == Download(k, env, old(Snapshot(db, lan)), f).0
      ensures ok <==> Download(k, env, old(Snapshot(db, lan)), f).1.Some?
      ensures ok ==>
                var data := Download(k, env, old(Snapshot(db, lan)), f).1.value;
                fs.files == (old(fs.files) - {outPath + ".tmp"})[outPath := data]
      ensures !ok ==> fs.files == if f in old(db.files) then old(fs.files) - {outPath + ".tmp"} else old(fs.files)
    {
      hide FetchAll, Delivered, ChunkList;
      if f !in db.files {
        return false;
      }
      var file := db.files[f];
      var chunks := db.GetChunksForFile(env, f);
      var stream := FetchStream(env, file.encrypted, chunks);
      ok := fs.Assemble(k, stream, outPath, file.digest);
    }

    // ---------- delete ----------

    /** The DELETE calls for the replicas of one chunk. */
    method DeleteCopies(env: Env, c: Id)
      requires Fair(env)
      modifies lan
      ensures lan.disk == WithoutCopies(env, old(Snapshot(db, lan)), {c})
    {
      hide ChunkRows, Fair, Removed;
      ghost var s := Snapshot(db, lan);
      var rows := db.GetReplicasForChunk(env, c);
      NoneErased(env, s, c, rows);
      for i := 0 to |rows|
        invariant lan.disk == WithoutRows(env, s, rows[..i])
      {
        var n := rows[i].node;
        ListedRow(s, env, c, rows[i]);
        EraseNext(env, s, rows, i);
        if n in db.nodes && db.nodes[n].status.Online? {
          lan.DeleteChunk(env, c, n);
        }
      }
      assert rows[..|rows|] == rows;
      RowsErased(env, s, c, rows);
    }

    /** delete_file; false when the file is unknown. */
    method DeleteFile(env: Env, f: Id) returns (found: bool)
      requires Fair(env)
      modifies db, lan
      ensures found <==> f in old(db.files)
      ensures Snapshot(db, lan) == Delete(env, old(Snapshot(db, lan)), f)
    {
      hide Fair, ChunkList, WithoutCopies, Delete;
      ghost var s := Snapshot(db, lan);
      found := f in db.files;
      if !found {
        DeleteUnknown(env, s, f);
        return;
      }
      var chunks := db.GetChunksForFile(env, f);
      NothingErased(env, s, chunks);
      for i := 0 to |chunks|
        invariant lan.disk == WithoutCopies(env, s, Elements(chunks[..i]))
        invariant Snapshot(db, lan) == s.(disk := lan.disk)
      {
        assert chunks[..i + 1] == chunks[..i] + [chunks[i]];
        DeleteCopies(env, chunks[i]);
        CopiesNext(env, s, Elements(chunks[..i]), chunks[i]);
        assert Elements(chunks[..i + 1]) == Elements(chunks[..i]) + {chunks[i]};
      }
      assert chunks[..|chunks|] == chunks;
      db.DeleteFile(f);
      DeleteIs(env, s, f, chunks);
    }
  }

  lemma ModelsSize(k: Crypto, f: Id, ps: seq<Bytes>)
    ensures |Models(k, f, ps)| == |ps|
  {}

  // ---------- the generator's loop ----------

  /** Bytes already delivered, put in front of what the rest of the generator does. */
  ghost function After(head: Bytes, rest: (State, Option<Bytes>)): (State, Option<Bytes>) {
    (rest.0, if rest.1.None? then None else Some(head + rest.1.value))
  }

  lemma AfterStart(k: Crypto, env: Env, s: State, encrypted: bool, cs: seq<Id>)
    requires forall c :: c in cs ==> c in s.chunks
    ensures After([], FetchAll(k, env, s, encrypted, cs[0..])) == FetchAll(k, env, s, encrypted, cs)
  {
    hide FetchAll;
    assert cs[0..] == cs;
    var all := FetchAll(k, env, s, encrypted, cs).1;
    assert all.Some? ==> [] + all.value == all.value;
  }

  lemma AfterEnd(k: Crypto, env: Env, s: State, encrypted: bool, cs: seq<Id>, head: Bytes)
    ensures After(head, FetchAll(k, env, s, encrypted, cs[|cs|..])) == (s, Some(head))
  {
    assert cs[|cs|..] == [] && head + [] == head;
  }

  lemma AfterNext(k: Crypto, env: Env, s: State, encrypted: bool, cs: seq<Id>, i: nat, head: Bytes)
    requires i < |cs| && forall c :: c in cs ==> c in s.chunks
    requires FetchChunk(k, env, s, encrypted, cs[i]).0.chunks == s.chunks
    ensures var (t, data) := FetchChunk(k, env, s, encrypted, cs[i]);
            After(head, FetchAll(k, env, s, encrypted, cs[i..])) ==
            if data.None? then (t, None) else After(head + data.value, FetchAll(k, env, t, encrypted, cs[i + 1..]))
  {
    hide FetchChunk;
    assert cs[i..][1..] == cs[i + 1..];
    var (t, data) := FetchChunk(k, env, s, encrypted, cs[i]);
    if data.Some? {
      var rest := FetchAll(k, env, t, encrypted, cs[i + 1..]).1;
      assert rest.Some? ==> head + (data.value + rest.value) == (head + data.value) + rest.value;
    }
  }

  // ---------- the delete loops ----------

  /** The DELETE call for this row is made and carried out. */
  predicate Removed(env: Env, s: State, key: Key) {
    key in s.replicas && key.1 in s.nodes && s.nodes[key.1].status.Online? && !env.reply(key.0, key.1).Lost?
  }

  ghost function WithoutCopies(env: Env, s: State, cs: set<Id>): map<Key, Bytes> {
    map key | key in s.disk && !(key.0 in cs && Removed(env, s, key)) :: s.disk[key]
  }

  ghost function WithoutRows(env: Env, s: State, rows: seq<Row>): map<Key, Bytes> {
    s.disk - set r | r in rows && Removed(env, s, (r.chunk, r.node)) :: (r.chunk, r.node)
  }

  lemma NoneErased(env: Env, s: State, c: Id, rows: seq<Row>)
    ensures WithoutRows(env, s, rows[..0]) == s.disk
  {}

  lemma ListedRow(s: State, env: Env, c: Id, r: Row)
    requires Fair(env) && r in ChunkRows(s.replicas, env, c)
    ensures r.chunk == c && (c, r.node) in s.replicas
    ensures Removed(env, s, (c, r.node)) <==>
            r.node in s.nodes && s.nodes[r.node].status.Online? && !env.reply(c, r.node).Lost?
  {
    ChunkRowsHas(s.replicas, env, c, r);
  }

  lemma EraseNext(env: Env, s: State, rows: seq<Row>, i: nat)
    requires i < |rows|
    ensures WithoutRows(env, s, rows[..i + 1]) ==
            if Removed(env, s, (rows[i].chunk, rows[i].node))
            then WithoutRows(env, s, rows[..i]) - {(rows[i].chunk, rows[i].node)}
            else WithoutRows(env, s, rows[..i])
  {
    hide Removed;
    assert rows[..i + 1] == rows[..i] + [rows[i]];
  }

  lemma RowsErased(env: Env, s: State, c: Id, rows: seq<Row>)
    requires Fair(env) && rows == ChunkRows(s.replicas, env, c)
    ensures WithoutRows(env, s, rows) == WithoutCopies(env, s, {c})
  {
    hide ChunkRows, Fair;
    forall key: Key | key in s.disk && key.0 == c && Removed(env, s, key)
      ensures exists r :: r in rows && (r.chunk, r.node) == key
    {
      var r := Row(c, key.1, s.replicas[key].number, s.replicas[key].status);
      ChunkRowsHas(s.replicas, env, c, r);
    }
    forall r | r in rows ensures r.chunk == c {
      ChunkRowsHas(s.replicas, env, c, r);
    }
  }

  lemma NothingErased(env: Env, s: State, cs: seq<Id>)
    ensures WithoutCopies(env, s, Elements(cs[..0])) == s.disk
  {}

  lemma CopiesNext(env: Env, s: State, cs: set<Id>, c: Id)
    ensures WithoutCopies(env, s.(disk := WithoutCopies(env, s, cs)), {c}) == WithoutCopies(env, s, cs + {c})
  {}

  lemma DeleteUnknown(env: Env, s: State, f: Id)
    requires f !in s.files
    ensures Delete(env, s, f) == s
  {}

  lemma DeleteIs(env: Env, s: State, f: Id, cs: seq<Id>)
    requires f in s.files && forall c :: c in cs <==> c in s.chunks && s.chunks[c].fileId == f
    ensures Delete(env, s, f) == s.(files := s.files - {f}, disk := WithoutCopies(env, s, Elements(cs)))
  {
    forall key: Key | key in s.disk ensures Erased(env, s, f, key) <==> key.0 in Elements(cs) && Removed(env, s, key) {}
  }
}
