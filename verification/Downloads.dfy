/** Download with failover, and delete. */
module Downloads {
  import opened Types
  import opened Placement
  import opened Recovery
  import opened Transfers

  /** One replica's answer: no usable bytes, bytes with the recorded hash, or bytes with another hash. */
  datatype Fetch = Skip | Good(plain: Bytes) | Bad

  function FetchOf(k: Crypto, env: Env, s: State, encrypted: bool, c: Id, sha: Digest, n: Id): Fetch {
    if n !in s.nodes || !s.nodes[n].status.Online? || !env.reply(c, n).Answered? || (c, n) !in s.disk then Skip
    else match Plain(k, encrypted, s.disk[(c, n)])
      case None => Skip
      case Some(p) => if k.hash(p) == sha then Good(p) else Bad
  }

  /** update_replica_status. */
  function SetStatus(s: State, c: Id, n: Id, status: ReplicaStatus): State {
    if (c, n) in s.replicas then s.(replicas := s.replicas[(c, n) := s.replicas[(c, n)].(status := status)]) else s
  }

  /** The failover loop over the STORED rows of one chunk. */
  function TryRows(k: Crypto, env: Env, s: State, encrypted: bool, c: Id, sha: Digest, rows: seq<Row>)
    : (State, Option<Bytes>)
    decreases |rows|
  {
    if rows == [] then (s, None)
    else match FetchOf(k, env, s, encrypted, c, sha, rows[0].node)
      case Skip => TryRows(k, env, s, encrypted, c, sha, rows[1..])
      case Good(p) => (s, Some(p))
      case Bad => TryRows(k, env, SetStatus(s, c, rows[0].node, ReplicaStatus.Corrupted), encrypted, c, sha, rows[1..])
  }

  function StoredRows(replicas: map<Key, Replica>, env: Env, c: Id): seq<Row> {
    Filter(ChunkRows(replicas, env, c), (r: Row) => r.status.Stored?)
  }

  /** Position of the first replica that answers with the right bytes; |rows| when there is none. */
  function FirstGood(k: Crypto, env: Env, s: State, encrypted: bool, c: Id, sha: Digest, rows: seq<Row>): (g: nat)
    ensures g <= |rows|
    ensures g < |rows| ==> FetchOf(k, env, s, encrypted, c, sha, rows[g].node).Good?
    ensures forall i :: 0 <= i < g ==> !FetchOf(k, env, s, encrypted, c, sha, rows[i].node).Good?
  {
    if rows == [] || FetchOf(k, env, s, encrypted, c, sha, rows[0].node).Good? then 0
    else 1 + FirstGood(k, env, s, encrypted, c, sha, rows[1..])
  }

  /** The answering replicas with other bytes ahead of position g. */
  ghost function BadBefore(k: Crypto, env: Env, s: State, encrypted: bool, c: Id, sha: Digest, rows: seq<Row>,
                           g: nat): set<Id>
    requires g <= |rows|
  {
    set i | 0 <= i < g && FetchOf(k, env, s, encrypted, c, sha, rows[i].node).Bad? :: rows[i].node
  }

  /** The rows of c on the nodes in bad set to CORRUPTED. */
  ghost function Downgrade(s: State, c: Id, bad: set<Id>): State {
    s.(replicas := map key | key in s.replicas ::
         if key.0 == c && key.1 in bad then s.replicas[key].(status := ReplicaStatus.Corrupted) else s.replicas[key])
  }

  lemma DowngradeRow(s: State, c: Id, bad: set<Id>, d: Id, x: Id)
    ensures (d, x) in Downgrade(s, c, bad).replicas <==> (d, x) in s.replicas
    ensures (d, x) in s.replicas ==>
              Downgrade(s, c, bad).replicas[(d, x)]
              == (if d == c && x in bad then s.replicas[(d, x)].(status := ReplicaStatus.Corrupted)
                  else s.replicas[(d, x)])
  {}

  lemma SetStatusRow(s: State, c: Id, n: Id, status: ReplicaStatus, d: Id, x: Id)
    ensures (d, x) in SetStatus(s, c, n, status).replicas <==> (d, x) in s.replicas
    ensures (d, x) in s.replicas ==>
              SetStatus(s, c, n, status).replicas[(d, x)]
              == (if d == c && x == n then s.replicas[(d, x)].(status := status) else s.replicas[(d, x)])
  {}

  lemma DowngradeStep(s: State, c: Id, n: Id, bad: set<Id>)
    ensures Downgrade(SetStatus(s, c, n, ReplicaStatus.Corrupted), c, bad) == Downgrade(s, c, {n} + bad)
  {
    var t := SetStatus(s, c, n, ReplicaStatus.Corrupted);
    var l, r := Downgrade(t, c, bad), Downgrade(s, c, {n} + bad);
    DowngradeTables(t, c, bad);
    DowngradeTables(s, c, {n} + bad);
    assert t == s.(replicas := t.replicas);
    hide Downgrade, SetStatus;
    forall key: Key ensures key in l.replicas <==> key in r.replicas
      ensures key in l.replicas ==> l.replicas[key] == r.replicas[key]
    {
      var (d, x) := key;
      SetStatusRow(s, c, n, ReplicaStatus.Corrupted, d, x);
      DowngradeRow(t, c, bad, d, x);
      DowngradeRow(s, c, {n} + bad, d, x);
    }
    assert l.replicas == r.replicas;
  }

  lemma DowngradeNone(s: State, c: Id)
    ensures Downgrade(s, c, {}) == s
  {}

  lemma FetchIgnoresRows(k: Crypto, env: Env, s: State, c: Id, n: Id, encrypted: bool, d: Id, sha: Digest, x: Id)
    ensures FetchOf(k, env, SetStatus(s, c, n, ReplicaStatus.Corrupted), encrypted, d, sha, x)
            == FetchOf(k, env, s, encrypted, d, sha, x)
  {}

  lemma {:induction false} FirstGoodIgnoresRows(k: Crypto, env: Env, s: State, t: State, encrypted: bool, c: Id,
                                                sha: Digest, rows: seq<Row>)
    requires s.nodes == t.nodes && s.disk == t.disk
    ensures FirstGood(k, env, s, encrypted, c, sha, rows) == FirstGood(k, env, t, encrypted, c, sha, rows)
  {
    if rows != [] {
      FirstGoodIgnoresRows(k, env, s, t, encrypted, c, sha, rows[1..]);
    }
  }

  lemma BadBeforeTail(k: Crypto, env: Env, s: State, t: State, encrypted: bool, c: Id, sha: Digest, rows: seq<Row>,
                      g: nat)
    requires rows != [] && s.nodes == t.nodes && s.disk == t.disk && g < |rows|
    ensures BadBefore(k, env, s, encrypted, c, sha, rows, g + 1) ==
            (if FetchOf(k, env, s, encrypted, c, sha, rows[0].node).Bad? then {rows[0].node} else {})
            + BadBefore(k, env, t, encrypted, c, sha, rows[1..], g)
  {
    var l, r := BadBefore(k, env, s, encrypted, c, sha, rows, g + 1),
        BadBefore(k, env, t, encrypted, c, sha, rows[1..], g);
    forall i | 0 <= i < g && FetchOf(k, env, t, encrypted, c, sha, rows[1..][i].node).Bad?
      ensures rows[1..][i].node in l
    {
      assert rows[1..][i] == rows[i + 1];
      assert FetchOf(k, env, s, encrypted, c, sha, rows[i + 1].node).Bad?;
    }
    forall i | 0 < i < g + 1 && FetchOf(k, env, s, encrypted, c, sha, rows[i].node).Bad?
      ensures rows[i].node in r
    {
      assert rows[1..][i - 1] == rows[i];
      assert FetchOf(k, env, t, encrypted, c, sha, rows[1..][i - 1].node).Bad?;
    }
  }

  /** The loop stops at the first good replica and downgrades exactly the bad ones before it. */
  lemma {:induction false} TryRowsExact(k: Crypto, env: Env, s: State, encrypted: bool, c: Id, sha: Digest,
                                        rows: seq<Row>)
    ensures var g := FirstGood(k, env, s, encrypted, c, sha, rows);
            && TryRows(k, env, s, encrypted, c, sha, rows).0
               == Downgrade(s, c, BadBefore(k, env, s, encrypted, c, sha, rows, g))
            && TryRows(k, env, s, encrypted, c, sha, rows).1 ==
                 (if g < |rows| then Some(FetchOf(k, env, s, encrypted, c, sha, rows[g].node).plain) else None)
    decreases |rows|
  {
    hide Downgrade, BadBefore, FetchOf, SetStatus;
    if rows == [] || FetchOf(k, env, s, encrypted, c, sha, rows[0].node).Good? {
      DowngradeNone(s, c);
      BadBeforeNothing(k, env, s, encrypted, c, sha, rows);
    } else {
      var bad := FetchOf(k, env, s, encrypted, c, sha, rows[0].node).Bad?;
      var t := if bad then SetStatus(s, c, rows[0].node, ReplicaStatus.Corrupted) else s;
      TryRowsExact(k, env, t, encrypted, c, sha, rows[1..]);
      NextRow(k, env, s, t, encrypted, c, sha, rows);
    }
  }

  lemma NextRow(k: Crypto, env: Env, s: State, t: State, encrypted: bool, c: Id, sha: Digest, rows: seq<Row>)
    requires rows != []
    requires t == if FetchOf(k, env, s, encrypted, c, sha, rows[0].node).Bad?
                  then SetStatus(s, c, rows[0].node, ReplicaStatus.Corrupted) else s
    ensures var g := FirstGood(k, env, t, encrypted, c, sha, rows[1..]);
            && g == FirstGood(k, env, s, encrypted, c, sha, rows[1..])
            && Downgrade(t, c, BadBefore(k, env, t, encrypted, c, sha, rows[1..], g))
               == Downgrade(s, c, BadBefore(k, env, s, encrypted, c, sha, rows, g + 1))
            && (g < |rows[1..]| ==> FetchOf(k, env, t, encrypted, c, sha, rows[1..][g].node)
                                    == FetchOf(k, env, s, encrypted, c, sha, rows[g + 1].node))
  {
    hide Downgrade, BadBefore, FetchOf;
    FirstGoodIgnoresRows(k, env, s, t, encrypted, c, sha, rows[1..]);
    var g := FirstGood(k, env, s, encrypted, c, sha, rows[1..]);
    var later := BadBefore(k, env, t, encrypted, c, sha, rows[1..], g);
    BadBeforeTail(k, env, s, t, encrypted, c, sha, rows, g);
    DowngradeStep(s, c, rows[0].node, later);
    assert {} + later == later;
    if g < |rows[1..]| {
      FetchIgnoresRows(k, env, s, c, rows[0].node, encrypted, c, sha, rows[1..][g].node);
    }
  }

  lemma BadBeforeNothing(k: Crypto, env: Env, s: State, encrypted: bool, c: Id, sha: Digest, rows: seq<Row>)
    ensures BadBefore(k, env, s, encrypted, c, sha, rows, 0) == {}
  {}

  /** What one chunk delivers, and what it costs in downgraded rows, in the state the download starts from. */
  function Served(k: Crypto, env: Env, s: State, encrypted: bool, c: Id): Option<Bytes>
    requires c in s.chunks
  {
    var rows, sha := StoredRows(s.replicas, env, c), s.chunks[c].sha;
    var g := FirstGood(k, env, s, encrypted, c, sha, rows);
    if g < |rows| then Some(FetchOf(k, env, s, encrypted, c, sha, rows[g].node).plain) else None
  }

  ghost function Downgraded(k: Crypto, env: Env, s: State, encrypted: bool, c: Id): set<Id>
    requires c in s.chunks
  {
    var rows, sha := StoredRows(s.replicas, env, c), s.chunks[c].sha;
    BadBefore(k, env, s, encrypted, c, sha, rows, FirstGood(k, env, s, encrypted, c, sha, rows))
  }

  lemma StoredRowsHas(replicas: map<Key, Replica>, env: Env, c: Id, r: Row)
    requires Fair(env)
    ensures r in StoredRows(replicas, env, c) <==>
            r.chunk == c && r.status.Stored? && (c, r.node) in replicas
            && replicas[(c, r.node)] == Replica(r.number, r.status)
  {
    ChunkRowsHas(replicas, env, c, r);
    FilterIn(ChunkRows(replicas, env, c), (r: Row) => r.status.Stored?, r);
  }

  /** A chunk is served exactly when some STORED replica answers from an ONLINE node with the right bytes. */
  lemma ServedMeans(k: Crypto, env: Env, s: State, encrypted: bool, c: Id)
    requires Fair(env) && c in s.chunks
    ensures Served(k, env, s, encrypted, c).Some? <==>
            exists n :: n in Holders(s, c) && FetchOf(k, env, s, encrypted, c, s.chunks[c].sha, n).Good?
    ensures Served(k, env, s, encrypted, c).Some? ==> k.hash(Served(k, env, s, encrypted, c).value) == s.chunks[c].sha
    ensures forall n :: n in Downgraded(k, env, s, encrypted, c) ==>
              n in Holders(s, c) && FetchOf(k, env, s, encrypted, c, s.chunks[c].sha, n).Bad?
  {
    hide StoredRows, Holders;
    var rows, sha := StoredRows(s.replicas, env, c), s.chunks[c].sha;
    var g := FirstGood(k, env, s, encrypted, c, sha, rows);
    forall i | 0 <= i < |rows| ensures rows[i].node in Holders(s, c) {
      StoredRowsHas(s.replicas, env, c, rows[i]);
      HoldersHas(s, c, rows[i].node);
    }
    forall n | n in Holders(s, c) ensures exists i :: 0 <= i < |rows| && rows[i].node == n {
      HoldersHas(s, c, n);
      var r := Row(c, n, s.replicas[(c, n)].number, s.replicas[(c, n)].status);
      StoredRowsHas(s.replicas, env, c, r);
    }
  }

  /** One chunk of the download generator. */
  function FetchChunk(k: Crypto, env: Env, s: State, encrypted: bool, c: Id): (State, Option<Bytes>)
    requires c in s.chunks
  {
    TryRows(k, env, s, encrypted, c, s.chunks[c].sha, StoredRows(s.replicas, env, c))
  }

  /** The generator run over the chunks of a file, stopping at the first chunk nobody serves. */
  function FetchAll(k: Crypto, env: Env, s: State, encrypted: bool, cs: seq<Id>): (r: (State, Option<Bytes>))
    requires forall c :: c in cs ==> c in s.chunks
    decreases |cs|
  {
    if cs == [] then (s, Some([])) else
    FetchChunkTables(k, env, s, encrypted, cs[0]);
    var (t, got) := FetchChunk(k, env, s, encrypted, cs[0]);
    if got.None? then (t, None) else
    var (u, rest) := FetchAll(k, env, t, encrypted, cs[1..]);
    (u, if rest.None? then None else Some(got.value + rest.value))
  }

  lemma FetchChunkTables(k: Crypto, env: Env, s: State, encrypted: bool, c: Id)
    requires c in s.chunks
    ensures FetchChunk(k, env, s, encrypted, c).0 == Downgrade(s, c, Downgraded(k, env, s, encrypted, c))
    ensures FetchChunk(k, env, s, encrypted, c).1 == Served(k, env, s, encrypted, c)
  {
    hide Downgrade, BadBefore, FetchOf, StoredRows;
    TryRowsExact(k, env, s, encrypted, c, s.chunks[c].sha, StoredRows(s.replicas, env, c));
  }

  /** The rows after the chunks in cs have been read: each chunk's own downgrades and nothing else. */
  ghost function DowngradeAll(k: Crypto, env: Env, s: State, encrypted: bool, cs: set<Id>): State {
    s.(replicas := map key | key in s.replicas ::
         if key.0 in cs && key.0 in s.chunks && key.1 in Downgraded(k, env, s, encrypted, key.0)
         then s.replicas[key].(status := ReplicaStatus.Corrupted) else s.replicas[key])
  }

  lemma OtherRowsKeep(k: Crypto, env: Env, s: State, t: State, encrypted: bool, d: Id)
    requires s.nodes == t.nodes && s.disk == t.disk && s.chunks == t.chunks && d in s.chunks
    requires forall n :: (d, n) in s.replicas <==> (d, n) in t.replicas
    requires forall n :: (d, n) in s.replicas ==> s.replicas[(d, n)] == t.replicas[(d, n)]
    ensures Served(k, env, s, encrypted, d) == Served(k, env, t, encrypted, d)
    ensures Downgraded(k, env, s, encrypted, d) == Downgraded(k, env, t, encrypted, d)
  {
    hide FirstGood;
    assert HolderIds(s.replicas, d) == HolderIds(t.replicas, d) by {
      forall n ensures n in HolderIds(s.replicas, d) <==> n in HolderIds(t.replicas, d) {
        assert n in HolderIds(s.replicas, d) <==> (d, n) in s.replicas;
        assert n in HolderIds(t.replicas, d) <==> (d, n) in t.replicas;
      }
    }
    RowsAtDependsOn(s.replicas, t.replicas, d, env.scan(RowsOfChunk(d), HolderIds(s.replicas, d)));
    FirstGoodIgnoresRows(k, env, s, t, encrypted, d, s.chunks[d].sha, StoredRows(s.replicas, env, d));
  }

  /** All the bytes, in chunk order, when every chunk is served. */
  function ServedAll(k: Crypto, env: Env, s: State, encrypted: bool, cs: seq<Id>): Option<Bytes>
    requires forall c :: c in cs ==> c in s.chunks
  {
    if cs == [] then Some([])
    else match (Served(k, env, s, encrypted, cs[0]), ServedAll(k, env, s, encrypted, cs[1..]))
      case (Some(a), Some(b)) => Some(a + b)
      case _ => None
  }

  /** How many chunks the generator gets to: up to and including the first one nobody serves. */
  function Reach(k: Crypto, env: Env, s: State, encrypted: bool, cs: seq<Id>): (r: nat)
    requires forall c :: c in cs ==> c in s.chunks
    ensures r <= |cs|
    ensures ServedAll(k, env, s, encrypted, cs).Some? ==> r == |cs|
  {
    if cs == [] then 0
    else if Served(k, env, s, encrypted, cs[0]).None? then 1
    else 1 + Reach(k, env, s, encrypted, cs[1..])
  }

  lemma DowngradeKeepsOthers(k: Crypto, env: Env, s: State, encrypted: bool, c: Id, d: Id)
    requires c in s.chunks && d in s.chunks && c != d
    ensures var t := Downgrade(s, c, Downgraded(k, env, s, encrypted, c));
            && Served(k, env, t, encrypted, d) == Served(k, env, s, encrypted, d)
            && Downgraded(k, env, t, encrypted, d) == Downgraded(k, env, s, encrypted, d)
  {
    hide Downgraded, Served;
    var t := Downgrade(s, c, Downgraded(k, env, s, encrypted, c));
    OtherRowsKeep(k, env, s, t, encrypted, d);
  }

  lemma {:induction false} ServedAllKeeps(k: Crypto, env: Env, s: State, encrypted: bool, c: Id, cs: seq<Id>)
    requires c in s.chunks && c !in cs && forall d :: d in cs ==> d in s.chunks
    ensures ServedAll(k, env, Downgrade(s, c, Downgraded(k, env, s, encrypted, c)), encrypted, cs)
            == ServedAll(k, env, s, encrypted, cs)
    ensures Reach(k, env, Downgrade(s, c, Downgraded(k, env, s, encrypted, c)), encrypted, cs)
            == Reach(k, env, s, encrypted, cs)
  {
    hide Downgraded, Served, Downgrade;
    DowngradeTables(s, c, Downgraded(k, env, s, encrypted, c));
    if cs != [] {
      DowngradeKeepsOthers(k, env, s, encrypted, c, cs[0]);
      ServedAllKeeps(k, env, s, encrypted, c, cs[1..]);
    }
  }

  lemma DowngradeTables(s: State, c: Id, bad: set<Id>)
    ensures Downgrade(s, c, bad) == s.(replicas := Downgrade(s, c, bad).replicas)
  {}

  lemma DowngradeAllStep(k: Crypto, env: Env, s: State, encrypted: bool, c: Id, cs: set<Id>)
    requires c in s.chunks && c !in cs && forall d :: d in cs ==> d in s.chunks
    ensures DowngradeAll(k, env, Downgrade(s, c, Downgraded(k, env, s, encrypted, c)), encrypted, cs) ==
            DowngradeAll(k, env, s, encrypted, {c} + cs)
  {
    hide Downgraded;
    forall d | d in cs ensures Downgraded(k, env, Downgrade(s, c, Downgraded(k, env, s, encrypted, c)), encrypted, d)
                               == Downgraded(k, env, s, encrypted, d)
    {
      DowngradeKeepsOthers(k, env, s, encrypted, c, d);
    }
  }

  /** The generator delivers all bytes exactly when every chunk is served from the starting state, and its only
      effect is, for each chunk it gets to, that chunk's own downgrades. */
  lemma {:induction false} FetchAllExact(k: Crypto, env: Env, s: State, encrypted: bool, cs: seq<Id>)
    requires Distinct(cs) && forall c :: c in cs ==> c in s.chunks
    ensures FetchAll(k, env, s, encrypted, cs).1 == ServedAll(k, env, s, encrypted, cs)
    ensures FetchAll(k, env, s, encrypted, cs).0
            == DowngradeAll(k, env, s, encrypted, Elements(cs[..Reach(k, env, s, encrypted, cs)]))
    decreases |cs|
  {
    hide Downgraded, Served, Downgrade, DowngradeAll, FetchChunk;
    if cs == [] {
      DowngradeAllNone(k, env, s, encrypted);
      assert Elements(cs[..0]) == {};
    } else {
      var c, rest := cs[0], cs[1..];
      var t := Downgrade(s, c, Downgraded(k, env, s, encrypted, c));
      FetchChunkTables(k, env, s, encrypted, c);
      DowngradeTables(s, c, Downgraded(k, env, s, encrypted, c));
      if Served(k, env, s, encrypted, c).Some? {
        FetchAllExact(k, env, t, encrypted, rest);
        ServedAllKeeps(k, env, s, encrypted, c, rest);
        var r := Reach(k, env, s, encrypted, rest);
        DowngradeAllStep(k, env, s, encrypted, c, Elements(rest[..r]));
        assert cs[..r + 1] == [c] + rest[..r];
        assert Elements(cs[..r + 1]) == {c} + Elements(rest[..r]);
      } else {
        DowngradeAllNone(k, env, t, encrypted);
        DowngradeAllStep(k, env, s, encrypted, c, {});
        assert Elements(cs[..1]) == {c} + {};
      }
    }
  }

  lemma DowngradeAllNone(k: Crypto, env: Env, s: State, encrypted: bool)
    ensures DowngradeAll(k, env, s, encrypted, {}) == s
  {
    hide Downgraded;
  }

  function FileChunks(chunks: map<Id, Chunk>, f: Id): set<Id> {
    set c | c in chunks && chunks[c].fileId == f
  }

  function SequenceKey(chunks: map<Id, Chunk>, c: Id): real {
    if c in chunks then -(chunks[c].seqNo as real) else 0.0
  }

  /** get_chunks_for_file: ascending sequence number, ties in any order. */
  function ChunkList(chunks: map<Id, Chunk>, env: Env, f: Id): (cs: seq<Id>)
    requires Fair(env)
    ensures Distinct(cs) && forall c :: c in cs <==> c in chunks && chunks[c].fileId == f
    ensures forall i, j :: 0 <= i < j < |cs| ==> chunks[cs[i]].seqNo <= chunks[cs[j]].seqNo
  {
    ChunkListIs(chunks, env, f);
    StableSort(env.scan(ChunksOfFile(f), FileChunks(chunks, f)), c => SequenceKey(chunks, c))
  }

  lemma ChunkListIs(chunks: map<Id, Chunk>, env: Env, f: Id)
    requires Fair(env)
    ensures var cs := StableSort(env.scan(ChunksOfFile(f), FileChunks(chunks, f)), c => SequenceKey(chunks, c));
            && Distinct(cs) && (forall c :: c in cs <==> c in chunks && chunks[c].fileId == f)
            && forall i, j :: 0 <= i < j < |cs| ==> chunks[cs[i]].seqNo <= chunks[cs[j]].seqNo
  {
    hide StableSort;
    var ids, key := env.scan(ChunksOfFile(f), FileChunks(chunks, f)), c => SequenceKey(chunks, c);
    var cs := StableSort(ids, key);
    assert Enumerates(ids, FileChunks(chunks, f));
    StableSortIs(ids, key, "");
    forall c ensures c in cs <==> c in FileChunks(chunks, f) {
      StableSortIs(ids, key, c);
    }
    forall i | 0 <= i < |cs| ensures cs[i] in chunks {
      assert cs[i] in cs;
    }
    forall i, j | 0 <= i < j < |cs| ensures chunks[cs[i]].seqNo <= chunks[cs[j]].seqNo {
      assert key(cs[i]) >= key(cs[j]);
    }
  }

  /** stream_file_reconstruction up to the overall hash check; None is an exception. */
  function Download(k: Crypto, env: Env, s: State, f: Id): (State, Option<Bytes>)
    requires Fair(env)
  {
    if f !in s.files then (s, None) else
    var (t, data) := FetchAll(k, env, s, s.files[f].encrypted, ChunkList(s.chunks, env, f));
    if data.Some? && k.hash(data.value) == s.files[f].digest then (t, data) else (t, None)
  }

  /** Some STORED replica of c on an ONLINE, answering node holds the right bytes. */
  ghost predicate Servable(k: Crypto, env: Env, s: State, encrypted: bool, c: Id) {
    c in s.chunks && exists n :: n in Holders(s, c) && FetchOf(k, env, s, encrypted, c, s.chunks[c].sha, n).Good?
  }

  lemma {:induction false} ServedAllMeans(k: Crypto, env: Env, s: State, encrypted: bool, cs: seq<Id>)
    requires Fair(env) && forall c :: c in cs ==> c in s.chunks
    ensures ServedAll(k, env, s, encrypted, cs).Some? <==> forall c :: c in cs ==> Servable(k, env, s, encrypted, c)
  {
    hide Served, Servable;
    if cs != [] {
      ServedAllMeans(k, env, s, encrypted, cs[1..]);
      assert Served(k, env, s, encrypted, cs[0]).Some? <==> Servable(k, env, s, encrypted, cs[0]) by {
        ServableMeans(k, env, s, encrypted, cs[0]);
      }
      assert forall c :: c in cs <==> c == cs[0] || c in cs[1..];
    }
  }

  lemma ServableMeans(k: Crypto, env: Env, s: State, encrypted: bool, c: Id)
    requires Fair(env) && c in s.chunks
    ensures Served(k, env, s, encrypted, c).Some? <==> Servable(k, env, s, encrypted, c)
  {
    ServedMeans(k, env, s, encrypted, c);
  }

  /** The rows of c a download of f downgrades. */
  ghost function DownloadLoses(k: Crypto, env: Env, s: State, f: Id, c: Id): set<Id>
    requires Fair(env)
  {
    if f !in s.files || c !in s.chunks then {} else
    var cs := ChunkList(s.chunks, env, f);
    if c in cs[..Reach(k, env, s, s.files[f].encrypted, cs)] then Downgraded(k, env, s, s.files[f].encrypted, c) else {}
  }

  /** Failover is exact: a download succeeds iff every chunk of the file is servable and the bytes hash to the file's
      digest; its only effect is that bad replicas ahead of a chunk's first good one become CORRUPTED. */
  lemma DownloadExact(k: Crypto, env: Env, s: State, f: Id)
    requires Fair(env) && f in s.files
    ensures var enc, cs := s.files[f].encrypted, ChunkList(s.chunks, env, f);
            var all := ServedAll(k, env, s, enc, cs);
            && (forall c :: c in cs <==> c in s.chunks && s.chunks[c].fileId == f)
            && (all.Some? <==> forall c :: c in s.chunks && s.chunks[c].fileId == f ==> Servable(k, env, s, enc, c))
            && Download(k, env, s, f).1 == (if all.Some? && k.hash(all.value) == s.files[f].digest then all else None)
            && (all.Some? ==> forall c :: c in cs ==> DownloadLoses(k, env, s, f, c) == Downgraded(k, env, s, enc, c))
  {
    hide Served, Servable, Downgraded;
    var enc, cs := s.files[f].encrypted, ChunkList(s.chunks, env, f);
    ServedAllMeans(k, env, s, enc, cs);
    FetchAllExact(k, env, s, enc, cs);
  }

  /** Row by row, in success and failure alike. */
  lemma DownloadRows(k: Crypto, env: Env, s: State, f: Id, c: Id, n: Id)
    requires Fair(env)
    ensures var t := Download(k, env, s, f).0;
            && t == s.(replicas := t.replicas)
            && ((c, n) in t.replicas <==> (c, n) in s.replicas)
            && ((c, n) in s.replicas ==>
                  t.replicas[(c, n)] == (if n in DownloadLoses(k, env, s, f, c)
                                         then s.replicas[(c, n)].(status := ReplicaStatus.Corrupted)
                                         else s.replicas[(c, n)]))
  {
    hide Downgraded, Reach, ServedAll, FetchAll;
    if f in s.files {
      FetchAllExact(k, env, s, s.files[f].encrypted, ChunkList(s.chunks, env, f));
    }
  }

  /** A download removes from the holders of c exactly the nodes it downgrades. */
  lemma DownloadMovesHolders(k: Crypto, env: Env, s: State, f: Id, c: Id)
    requires Fair(env)
    ensures Holders(Download(k, env, s, f).0, c) == Holders(s, c) - DownloadLoses(k, env, s, f, c)
    ensures forall n :: n in DownloadLoses(k, env, s, f, c) ==>
              && n in Holders(s, c) && c in s.chunks && s.chunks[c].fileId == f && f in s.files
              && FetchOf(k, env, s, s.files[f].encrypted, c, s.chunks[c].sha, n).Bad?
  {
    hide Downgraded, Reach, Download, FetchOf, Holders, ChunkList;
    var t := Download(k, env, s, f).0;
    if f in s.files && c in s.chunks {
      ServedMeans(k, env, s, s.files[f].encrypted, c);
      var cs := ChunkList(s.chunks, env, f);
      assert c in cs[..Reach(k, env, s, s.files[f].encrypted, cs)] ==> c in cs;
    }
    forall n ensures n in Holders(t, c) <==> n in Holders(s, c) - DownloadLoses(k, env, s, f, c) {
      DownloadRows(k, env, s, f, c, n);
      HoldersHas(s, c, n);
      HoldersHas(t, c, n);
    }
  }

  /** delete_file: the disk copies on reachable ONLINE nodes, then the file row; chunk and replica rows stay. */
  predicate Erased(env: Env, s: State, f: Id, key: Key) {
    && key in s.replicas && key.0 in s.chunks && s.chunks[key.0].fileId == f
    && key.1 in s.nodes && s.nodes[key.1].status.Online? && !env.reply(key.0, key.1).Lost?
  }

  function Delete(env: Env, s: State, f: Id): State {
    if f !in s.files then s
    else s.(files := s.files - {f}, disk := map key | key in s.disk && !Erased(env, s, f, key) :: s.disk[key])
  }
}
