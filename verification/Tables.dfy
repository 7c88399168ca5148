/** The manager's database and the storage nodes, as objects that the services below change in place. */
module Tables {
  import opened Types
  import opened Recovery
  import opened Chunking
  import opened Transfers
  import opened Downloads

  class Database {
    var nodes: map<Id, Node>
    var files: map<Id, File>
    var chunks: map<Id, Chunk>
    var replicas: map<Key, Replica>

    constructor ()
      ensures nodes == map[] && files == map[] && chunks == map[] && replicas == map[]
    {
      nodes, files, chunks, replicas := map[], map[], map[], map[];
    }

    method RegisterOrUpdateNode(n: Id, node: Node)
      modifies `nodes
      ensures nodes == old(nodes)[n := node]
    {
      nodes := nodes[n := node];
    }

    method UpdateNodeHeartbeat(n: Id, avail: int, total: int, status: NodeStatus, now: int) returns (found: bool)
      modifies `nodes
      ensures found <==> n in old(nodes)
      ensures nodes == if n in old(nodes) then old(nodes)[n := Node(total, avail, status, now)] else old(nodes)
    {
      found := n in nodes;
      if found {
        nodes := nodes[n := Node(total, avail, status, now)];
      }
    }

    method UpdateNodeStatus(n: Id, status: NodeStatus)
      modifies `nodes
      ensures nodes == if n in old(nodes) then old(nodes)[n := old(nodes)[n].(status := status)] else old(nodes)
    {
      if n in nodes {
        nodes := nodes[n := nodes[n].(status := status)];
      }
    }

    /** list_nodes. */
    method ListNodes(env: Env) returns (rows: seq<NodeRow>)
      ensures rows == NodeRows(nodes, env)
    {
      var ids := env.scan(AllNodes, nodes.Keys);
      rows := [];
      for i := 0 to |ids|
        invariant rows + NodesAt(nodes, ids[i..]) == NodesAt(nodes, ids)
      {
        NodesAtNext(nodes, ids, i, rows);
        if ids[i] in nodes {
          rows := rows + [NodeRow(ids[i], nodes[ids[i]])];
        }
      }
    }

    /** list_files, by id. */
    method ListFiles(env: Env) returns (fs: seq<Id>)
      requires Fair(env)
      ensures Enumerates(fs, files.Keys)
    {
      fs := env.scan(AllFiles, files.Keys);
    }

    method CreateFile(f: Id, file: File)
      modifies `files
      ensures files == old(files)[f := file]
    {
      files := files[f := file];
    }

    method UpdateFileStatus(f: Id, status: FileStatus)
      modifies `files
      ensures files == WithStatus(old(files), f, status)
    {
      if f in files {
        files := files[f := files[f].(status := status)];
      }
    }

    method DeleteFile(f: Id)
      modifies `files
      ensures files == old(files) - {f}
    {
      files := files - {f};
    }

    method CreateChunks(rows: seq<ChunkRow>)
      modifies `chunks
      ensures chunks == AddChunks(old(chunks), rows)
    {
      for i := 0 to |rows|
        invariant AddChunks(chunks, rows[i..]) == AddChunks(old(chunks), rows)
      {
        assert rows[i..][1..] == rows[i + 1..];
        chunks := chunks[rows[i].id := rows[i].chunk];
      }
    }

    /** get_chunks_for_file: the query's rows, one after the other. */
    method GetChunksForFile(env: Env, f: Id) returns (cs: seq<Id>)
      requires Fair(env)
      ensures cs == ChunkList(chunks, env, f)
    {
      hide ChunkList;
      var rows := ChunkList(chunks, env, f);
      cs := [];
      for i := 0 to |rows|
        invariant cs == rows[..i]
      {
        cs := cs + [rows[i]];
      }
    }

    method AddReplica(c: Id, n: Id, number: int, status: ReplicaStatus)
      modifies `replicas
      ensures replicas == old(replicas)[(c, n) := Replica(number, status)]
    {
      replicas := replicas[(c, n) := Replica(number, status)];
    }

    method UpdateReplicaStatus(c: Id, n: Id, status: ReplicaStatus)
      modifies `replicas
      ensures replicas == if (c, n) in old(replicas)
                          then old(replicas)[(c, n) := old(replicas)[(c, n)].(status := status)] else old(replicas)
    {
      if (c, n) in replicas {
        replicas := replicas[(c, n) := replicas[(c, n)].(status := status)];
      }
    }

    /** get_replicas_for_chunk. */
    method GetReplicasForChunk(env: Env, c: Id) returns (rows: seq<Row>)
      ensures rows == ChunkRows(replicas, env, c)
    {
      var ids := env.scan(RowsOfChunk(c), set key | key in replicas && key.0 == c :: key.1);
      rows := [];
      for i := 0 to |ids|
        invariant rows + RowsAt(replicas, c, ids[i..]) == RowsAt(replicas, c, ids)
      {
        RowsAtNext(replicas, c, ids, i, rows);
        if (c, ids[i]) in replicas {
          rows := rows + [Row(c, ids[i], replicas[(c, ids[i])].number, replicas[(c, ids[i])].status)];
        }
      }
    }

    /** get_replicas_for_node, by chunk id. */
    method GetReplicasForNode(env: Env, n: Id) returns (cs: seq<Id>)
      requires Fair(env)
      ensures Distinct(cs) && forall c :: c in cs <==> (c, n) in replicas
    {
      var held := set key | key in replicas && key.1 == n :: key.0;
      cs := env.scan(RowsOnNode(n), held);
      assert Enumerates(cs, held);
      forall c ensures c in held <==> (c, n) in replicas {
        assert (c, n) in replicas ==> (c, n).0 in held;
      }
    }
  }

  lemma NodesAtNext(nodes: map<Id, Node>, ids: seq<Id>, i: nat, rows: seq<NodeRow>)
    requires i < |ids|
    ensures rows + NodesAt(nodes, ids[i..]) ==
            (if ids[i] in nodes then rows + [NodeRow(ids[i], nodes[ids[i]])] else rows) + NodesAt(nodes, ids[i + 1..])
  {
    assert ids[i..][1..] == ids[i + 1..];
  }

  lemma RowsAtNext(replicas: map<Key, Replica>, c: Id, ids: seq<Id>, i: nat, rows: seq<Row>)
    requires i < |ids|
    ensures rows + RowsAt(replicas, c, ids[i..]) ==
            (if (c, ids[i]) in replicas
             then rows + [Row(c, ids[i], replicas[(c, ids[i])].number, replicas[(c, ids[i])].status)] else rows)
            + RowsAt(replicas, c, ids[i + 1..])
  {
    assert ids[i..][1..] == ids[i + 1..];
  }

  /** The storage nodes' request handlers, reached through a network that may lose calls or answers. */
  class Lan {
    const k: Crypto
    var disk: map<Key, Bytes>

    constructor (k: Crypto, disk: map<Key, Bytes>)
      ensures this.k == k && this.disk == disk
    {
      this.k, this.disk := k, disk;
    }

    /** GET /chunks/{id}/verify. */
    method VerifyChunk(env: Env, c: Id, n: Id, sha: Digest) returns (valid: bool)
      ensures valid <==> env.verify(c, n) && (c, n) in disk && k.hash(disk[(c, n)]) == sha
    {
      valid := env.verify(c, n) && (c, n) in disk && k.hash(disk[(c, n)]) == sha;
    }

    /** PUT /chunks/{id}: stored once the hash, when given, matches; true when the manager sees success. */
    method StoreChunk(env: Env, c: Id, n: Id, data: Bytes, expected: Option<Digest>) returns (ok: bool)
      modifies `disk
      ensures var stored := !env.reply(c, n).Lost? && (expected.None? || k.hash(data) == expected.value);
              && disk == (if stored then old(disk)[(c, n) := data] else old(disk))
              && (ok <==> stored && env.reply(c, n).Answered?)
    {
      if env.reply(c, n).Lost? || (expected.Some? && k.hash(data) != expected.value) {
        return false;
      }
      disk := disk[(c, n) := data];
      ok := env.reply(c, n).Answered?;
    }

    /** GET /chunks/{id}. */
    method GetChunk(env: Env, c: Id, n: Id) returns (data: Option<Bytes>)
      ensures data == if env.reply(c, n).Answered? && (c, n) in disk then Some(disk[(c, n)]) else None
    {
      if !env.reply(c, n).Answered? || (c, n) !in disk {
        return None;
      }
      data := Some(disk[(c, n)]);
    }

    /** POST /replicate: the target fetches from the source, checks the hash, and stores. */
    method ReplicateChunk(env: Env, c: Id, source: Id, target: Id, sha: Digest) returns (ok: bool)
      modifies `disk
      ensures var stored := !env.reply(c, target).Lost? && (c, source) in old(disk)
              && k.hash(old(disk)[(c, source)]) == sha;
              && disk == (if stored then old(disk)[(c, target) := old(disk)[(c, source)]] else old(disk))
              && (ok <==> stored && env.reply(c, target).Answered?)
    {
      if env.reply(c, target).Lost? || (c, source) !in disk || k.hash(disk[(c, source)]) != sha {
        return false;
      }
      disk := disk[(c, target) := disk[(c, source)]];
      ok := env.reply(c, target).Answered?;
    }

    /** DELETE /chunks/{id}. */
    method DeleteChunk(env: Env, c: Id, n: Id)
      modifies `disk
      ensures disk == if env.reply(c, n).Lost? then old(disk) else old(disk) - {(c, n)}
    {
      if !env.reply(c, n).Lost? {
        disk := disk - {(c, n)};
      }
    }
  }

  /** The state of the specification, read off the objects. */
  ghost function Snapshot(db: Database, lan: Lan): State
    reads db, lan
  {
    State(db.nodes, db.files, db.chunks, db.replicas, lan.disk)
  }
}
