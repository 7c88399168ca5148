/** What the consistency audit counts, stated on the tables. */
module Audits {
  import opened Types
  import opened Recovery

  /** A row of status kind; None matches every row. */
  predicate Matches(kind: Option<ReplicaStatus>, status: ReplicaStatus) {
    kind.None? || kind.value == status
  }

  ghost function RowKeys(replicas: map<Key, Replica>, cs: set<Id>, kind: Option<ReplicaStatus>): set<Key> {
    set key | key in replicas && key.0 in cs && Matches(kind, replicas[key].status)
  }

  datatype Counts = Counts(total: nat, stored: nat, missing: nat, corrupted: nat) {
    function Plus(other: Counts): Counts {
      Counts(total + other.total, stored + other.stored, missing + other.missing, corrupted + other.corrupted)
    }

    function Add(status: ReplicaStatus): Counts {
      Counts(total + 1, stored + (if status.Stored? then 1 else 0),
             missing + (if status.Missing? then 1 else 0), corrupted + (if status.Corrupted? then 1 else 0))
    }
  }

  /** The counters are the numbers of rows of the chunks in cs, in all and by status. */
  ghost predicate CountsRows(replicas: map<Key, Replica>, cs: set<Id>, counts: Counts) {
    && counts.total == |RowKeys(replicas, cs, None)|
    && counts.stored == |RowKeys(replicas, cs, Some(Stored))|
    && counts.missing == |RowKeys(replicas, cs, Some(Missing))|
    && counts.corrupted == |RowKeys(replicas, cs, Some(ReplicaStatus.Corrupted))|
  }

  lemma CountsNothing(replicas: map<Key, Replica>)
    ensures CountsRows(replicas, {}, Counts(0, 0, 0, 0))
  {}

  lemma RowKeysSplit(replicas: map<Key, Replica>, a: set<Id>, b: set<Id>, kind: Option<ReplicaStatus>)
    requires a !! b
    ensures |RowKeys(replicas, a + b, kind)| == |RowKeys(replicas, a, kind)| + |RowKeys(replicas, b, kind)|
  {
    hide Matches;
    assert RowKeys(replicas, a + b, kind) == RowKeys(replicas, a, kind) + RowKeys(replicas, b, kind);
    assert RowKeys(replicas, a, kind) !! RowKeys(replicas, b, kind);
  }

  lemma CountsAdd(replicas: map<Key, Replica>, a: set<Id>, x: Counts, b: set<Id>, y: Counts)
    requires a !! b && CountsRows(replicas, a, x) && CountsRows(replicas, b, y)
    ensures CountsRows(replicas, a + b, x.Plus(y))
  {
    hide RowKeys;
    RowKeysSplit(replicas, a, b, None);
    RowKeysSplit(replicas, a, b, Some(Stored));
    RowKeysSplit(replicas, a, b, Some(Missing));
    RowKeysSplit(replicas, a, b, Some(ReplicaStatus.Corrupted));
  }

  // ---------- one chunk: counting a listing counts its rows ----------

  ghost predicate DistinctNodes(rows: seq<Row>) {
    forall i, j :: 0 <= i < j < |rows| ==> rows[i].node != rows[j].node
  }

  lemma {:induction false} RowsAtDistinct(replicas: map<Key, Replica>, c: Id, ids: seq<Id>)
    requires Distinct(ids)
    ensures DistinctNodes(RowsAt(replicas, c, ids))
  {
    if ids != [] {
      var rest := RowsAt(replicas, c, ids[1..]);
      RowsAtDistinct(replicas, c, ids[1..]);
      forall j | 0 <= j < |rest| ensures rest[j].node != ids[0] {
        RowsAtHas(replicas, c, ids[1..], rest[j]);
      }
    }
  }

  /** The keys of the rows of one kind in a listing. */
  ghost function KeysOf(rows: seq<Row>, kind: Option<ReplicaStatus>): set<Key> {
    set r | r in rows && Matches(kind, r.status) :: (r.chunk, r.node)
  }

  lemma KeysGrow(rows: seq<Row>, i: nat, kind: Option<ReplicaStatus>)
    requires i < |rows| && DistinctNodes(rows)
    ensures |KeysOf(rows[..i + 1], kind)| == |KeysOf(rows[..i], kind)|
            + (if Matches(kind, rows[i].status) then 1 else 0)
  {
    hide Matches;
    var key := (rows[i].chunk, rows[i].node);
    var before, after := KeysOf(rows[..i], kind), KeysOf(rows[..i + 1], kind);
    assert rows[..i + 1] == rows[..i] + [rows[i]];
    assert after == (if Matches(kind, rows[i].status) then before + {key} else before) by {
      KeysSnoc(rows[..i], rows[i], kind);
    }
    assert key !in before;
  }

  lemma KeysSnoc(rows: seq<Row>, r: Row, kind: Option<ReplicaStatus>)
    ensures KeysOf(rows + [r], kind) == KeysOf(rows, kind)
            + (if Matches(kind, r.status) then {(r.chunk, r.node)} else {})
  {
    hide Matches;
    forall x | x in rows ensures x in rows + [r] {}
    assert r in rows + [r];
  }

  /** The counters after the first i rows of a listing. */
  ghost predicate CountsSoFar(rows: seq<Row>, counts: Counts) {
    && counts.total == |KeysOf(rows, None)|
    && counts.stored == |KeysOf(rows, Some(Stored))|
    && counts.missing == |KeysOf(rows, Some(Missing))|
    && counts.corrupted == |KeysOf(rows, Some(ReplicaStatus.Corrupted))|
  }

  lemma CountsStart(rows: seq<Row>)
    ensures CountsSoFar(rows[..0], Counts(0, 0, 0, 0))
  {}

  lemma CountsStep(rows: seq<Row>, i: nat, counts: Counts)
    requires i < |rows| && DistinctNodes(rows) && CountsSoFar(rows[..i], counts)
    ensures CountsSoFar(rows[..i + 1], counts.Add(rows[i].status))
  {
    hide KeysOf, DistinctNodes;
    KeysGrow(rows, i, None);
    KeysGrow(rows, i, Some(Stored));
    KeysGrow(rows, i, Some(Missing));
    KeysGrow(rows, i, Some(ReplicaStatus.Corrupted));
  }

  lemma ListingKeys(replicas: map<Key, Replica>, env: Env, c: Id, kind: Option<ReplicaStatus>)
    requires Fair(env)
    ensures KeysOf(ChunkRows(replicas, env, c), kind) == RowKeys(replicas, {c}, kind)
  {
    hide ChunkRows, Matches;
    var rows := ChunkRows(replicas, env, c);
    forall key: Key ensures key in KeysOf(rows, kind) <==> key in RowKeys(replicas, {c}, kind) {
      ListingKey(replicas, env, c, kind, key);
    }
  }

  lemma ListingKey(replicas: map<Key, Replica>, env: Env, c: Id, kind: Option<ReplicaStatus>, key: Key)
    requires Fair(env)
    ensures key in KeysOf(ChunkRows(replicas, env, c), kind) <==> key in RowKeys(replicas, {c}, kind)
  {
    hide ChunkRows, Matches, Fair;
    var rows, n := ChunkRows(replicas, env, c), key.1;
    if key in KeysOf(rows, kind) {
      var r :| r in rows && Matches(kind, r.status) && (r.chunk, r.node) == key;
      ChunkRowsHas(replicas, env, c, r);
    }
    if key in RowKeys(replicas, {c}, kind) {
      var r := Row(c, n, replicas[key].number, replicas[key].status);
      ChunkRowsHas(replicas, env, c, r);
    }
  }

  lemma ListingCounts(replicas: map<Key, Replica>, env: Env, c: Id, counts: Counts)
    requires Fair(env) && CountsSoFar(ChunkRows(replicas, env, c), counts)
    ensures CountsRows(replicas, {c}, counts)
  {
    hide ChunkRows, KeysOf, RowKeys, Fair;
    ListingKeys(replicas, env, c, None);
    ListingKeys(replicas, env, c, Some(Stored));
    ListingKeys(replicas, env, c, Some(Missing));
    ListingKeys(replicas, env, c, Some(ReplicaStatus.Corrupted));
  }

  lemma ListingDistinct(replicas: map<Key, Replica>, env: Env, c: Id)
    requires Fair(env)
    ensures DistinctNodes(ChunkRows(replicas, env, c))
  {
    assert Enumerates(env.scan(RowsOfChunk(c), HolderIds(replicas, c)), HolderIds(replicas, c));
    RowsAtDistinct(replicas, c, env.scan(RowsOfChunk(c), HolderIds(replicas, c)));
  }

  lemma {:induction false} PairsSize(c: Id, ns: set<Id>)
    ensures |set n | n in ns :: (c, n)| == |ns|
  {
    var image := set n | n in ns :: (c, n);
    if ns == {} {
      assert image == {};
    } else {
      var n :| n in ns;
      var rest := set x | x in ns - {n} :: (c, x);
      PairsSize(c, ns - {n});
      assert image == rest + {(c, n)};
      assert (c, n) !in rest;
    }
  }

  /** The STORED counter of one chunk is its number of holders. */
  lemma StoredRowsAreHolders(s: State, c: Id)
    ensures |RowKeys(s.replicas, {c}, Some(Stored))| == |Holders(s, c)|
  {
    PairsSize(c, Holders(s, c));
    var pairs := set n | n in Holders(s, c) :: (c, n);
    assert RowKeys(s.replicas, {c}, Some(Stored)) == pairs by {
      hide Holders;
      forall key: Key ensures key in RowKeys(s.replicas, {c}, Some(Stored)) <==> key in pairs {
        HoldersHas(s, key.0, key.1);
        assert key == (key.0, key.1);
      }
    }
  }

  // ---------- files ----------

  /** The chunk rows that belong to the files in fs. */
  ghost function ChunksOf(chunks: map<Id, Chunk>, fs: set<Id>): set<Id> {
    set c | c in chunks && chunks[c].fileId in fs
  }

  /** Some chunk of f has fewer STORED rows than f's replication factor asks for. */
  ghost predicate Short(s: State, f: Id) {
    f in s.files && exists c :: c in s.chunks && s.chunks[c].fileId == f && |Holders(s, c)| < s.files[f].rf
  }

  ghost function ShortFiles(s: State, fs: set<Id>): set<Id> {
    set f | f in fs && Short(s, f)
  }

  datatype Report = Report(files: nat, chunks: nat, counts: Counts, inconsistent: nat, healthy: bool)

  /** The counters after the files in fs. */
  ghost predicate Tallied(s: State, fs: set<Id>, chunks: nat, counts: Counts, inconsistent: nat) {
    && chunks == |ChunksOf(s.chunks, fs)|
    && CountsRows(s.replicas, ChunksOf(s.chunks, fs), counts)
    && inconsistent == |ShortFiles(s, fs)|
  }

  lemma TalliedNothing(s: State)
    ensures Tallied(s, {}, 0, Counts(0, 0, 0, 0), 0)
  {
    hide Short, CountsRows;
    assert ChunksOf(s.chunks, {}) == {};
    CountsNothing(s.replicas);
  }

  lemma TalliedNext(s: State, fs: set<Id>, chunks: nat, counts: Counts, inconsistent: nat, f: Id, own: nat,
      rows: Counts)
    requires f !in fs && Tallied(s, fs, chunks, counts, inconsistent)
    requires own == |ChunksOf(s.chunks, {f})| && CountsRows(s.replicas, ChunksOf(s.chunks, {f}), rows)
    ensures Tallied(s, fs + {f}, chunks + own, counts.Plus(rows), inconsistent + if Short(s, f) then 1 else 0)
  {
    hide Short, CountsRows, ChunksOf, ShortFiles;
    var before, mine := ChunksOf(s.chunks, fs), ChunksOf(s.chunks, {f});
    ChunksOfSplit(s, fs, f);
    ShortFilesNext(s, fs, f);
    CountsAdd(s.replicas, before, counts, mine, rows);
  }

  lemma ChunksOfSplit(s: State, fs: set<Id>, f: Id)
    requires f !in fs
    ensures var before, mine, after := ChunksOf(s.chunks, fs), ChunksOf(s.chunks, {f}), ChunksOf(s.chunks, fs + {f});
            after == before + mine && before !! mine && |after| == |before| + |mine|
  {
    var before, mine := ChunksOf(s.chunks, fs), ChunksOf(s.chunks, {f});
    assert ChunksOf(s.chunks, fs + {f}) == before + mine;
    assert |before + mine| == |before| + |mine|;
  }

  lemma ShortFilesNext(s: State, fs: set<Id>, f: Id)
    requires f !in fs
    ensures |ShortFiles(s, fs + {f})| == |ShortFiles(s, fs)| + if Short(s, f) then 1 else 0
  {
    hide Short;
    assert ShortFiles(s, fs + {f}) == ShortFiles(s, fs) + (if Short(s, f) then {f} else {});
  }

  /** No short file is what healthy means. */
  lemma NoShortFileMeans(s: State)
    ensures |ShortFiles(s, s.files.Keys)| == 0 <==> Healthy(s)
  {
    hide Holders;
    if Healthy(s) {
      assert ShortFiles(s, s.files.Keys) == {};
    }
    if |ShortFiles(s, s.files.Keys)| == 0 {
      forall c | c in s.chunks && s.chunks[c].fileId in s.files
        ensures |Holders(s, c)| >= s.files[s.chunks[c].fileId].rf {
        assert s.chunks[c].fileId !in ShortFiles(s, s.files.Keys);
      }
    }
  }
}
