/** What recovery, reconciliation and the audit do to the tables, stated without their loops. */
module Recovery {
  import opened Types
  import opened Placement

  function HolderIds(replicas: map<Key, Replica>, c: Id): set<Id> {
    set key | key in replicas && key.0 == c :: key.1
  }

  function RowsAt(replicas: map<Key, Replica>, c: Id, ids: seq<Id>): seq<Row> {
    if ids == [] then [] else
    (if (c, ids[0]) in replicas
     then [Row(c, ids[0], replicas[(c, ids[0])].number, replicas[(c, ids[0])].status)] else [])
    + RowsAt(replicas, c, ids[1..])
  }

  /** get_replicas_for_chunk. */
  function ChunkRows(replicas: map<Key, Replica>, env: Env, c: Id): seq<Row> {
    RowsAt(replicas, c, env.scan(RowsOfChunk(c), HolderIds(replicas, c)))
  }

  function NodesAt(nodes: map<Id, Node>, ids: seq<Id>): seq<NodeRow> {
    if ids == [] then [] else
    (if ids[0] in nodes then [NodeRow(ids[0], nodes[ids[0]])] else []) + NodesAt(nodes, ids[1..])
  }

  /** list_nodes. */
  function NodeRows(nodes: map<Id, Node>, env: Env): seq<NodeRow> {
    NodesAt(nodes, env.scan(AllNodes, nodes.Keys))
  }

  function OnlineRows(nodes: map<Id, Node>, env: Env): seq<NodeRow> {
    Filter(NodeRows(nodes, env), (r: NodeRow) => r.node.status.Online?)
  }

  lemma {:induction false} RowsAtHas(replicas: map<Key, Replica>, c: Id, ids: seq<Id>, r: Row)
    ensures r in RowsAt(replicas, c, ids) <==>
            && r.node in ids && r.chunk == c && (c, r.node) in replicas
            && replicas[(c, r.node)] == Replica(r.number, r.status)
  {
    if ids != [] {
      RowsAtHas(replicas, c, ids[1..], r);
      assert r.node in ids <==> r.node == ids[0] || r.node in ids[1..];
    }
  }

  /** A SELECT by chunk returns the chunk's rows and no others. */
  lemma ChunkRowsHas(replicas: map<Key, Replica>, env: Env, c: Id, r: Row)
    requires Fair(env)
    ensures r in ChunkRows(replicas, env, c) <==>
            r.chunk == c && (c, r.node) in replicas && replicas[(c, r.node)] == Replica(r.number, r.status)
  {
    var ids := env.scan(RowsOfChunk(c), HolderIds(replicas, c));
    RowsAtHas(replicas, c, ids, r);
    if (c, r.node) in replicas {
      assert (c, r.node).1 in HolderIds(replicas, c);
    }
    assert Enumerates(ids, HolderIds(replicas, c));
  }

  lemma {:induction false} NodesAtHas(nodes: map<Id, Node>, ids: seq<Id>, r: NodeRow)
    ensures r in NodesAt(nodes, ids) <==> r.id in ids && r.id in nodes && nodes[r.id] == r.node
  {
    if ids != [] {
      NodesAtHas(nodes, ids[1..], r);
      assert r.id in ids <==> r.id == ids[0] || r.id in ids[1..];
    }
  }

  lemma {:induction false} NodesAtDistinct(nodes: map<Id, Node>, ids: seq<Id>)
    requires Distinct(ids)
    ensures DistinctIds(NodesAt(nodes, ids))
  {
    if ids != [] {
      var rest := NodesAt(nodes, ids[1..]);
      NodesAtDistinct(nodes, ids[1..]);
      forall j | 0 <= j < |rest| ensures rest[j].id != ids[0] {
        NodesAtHas(nodes, ids[1..], rest[j]);
      }
    }
  }

  lemma NodeRowsHas(nodes: map<Id, Node>, env: Env, r: NodeRow)
    requires Fair(env)
    ensures r in NodeRows(nodes, env) <==> r.id in nodes && nodes[r.id] == r.node
    ensures r in OnlineRows(nodes, env) <==> r.id in nodes && nodes[r.id] == r.node && r.node.status.Online?
  {
    var ids := env.scan(AllNodes, nodes.Keys);
    assert Enumerates(ids, nodes.Keys);
    NodesAtHas(nodes, ids, r);
    FilterIn(NodeRows(nodes, env), (r: NodeRow) => r.node.status.Online?, r);
  }

  lemma {:induction false} FilterDistinctIds(rows: seq<NodeRow>, p: NodeRow -> bool)
    requires DistinctIds(rows)
    ensures DistinctIds(Filter(rows, p))
  {
    if rows != [] {
      FilterDistinctIds(rows[1..], p);
      var rest := Filter(rows[1..], p);
      forall j | 0 <= j < |rest| ensures rest[j].id != rows[0].id {
        FilterIn(rows[1..], p, rest[j]);
        assert rest[j] in rest;
      }
    }
  }

  lemma OnlineRowsDistinct(nodes: map<Id, Node>, env: Env)
    requires Fair(env)
    ensures DistinctIds(NodeRows(nodes, env)) && DistinctIds(OnlineRows(nodes, env))
  {
    assert Enumerates(env.scan(AllNodes, nodes.Keys), nodes.Keys);
    NodesAtDistinct(nodes, env.scan(AllNodes, nodes.Keys));
    FilterDistinctIds(NodeRows(nodes, env), (r: NodeRow) => r.node.status.Online?);
  }

  function MaxNumber(rows: seq<Row>): int {
    if rows == [] then 0
    else if |rows| == 1 || rows[0].number >= MaxNumber(rows[1..]) then rows[0].number
    else MaxNumber(rows[1..])
  }

  lemma {:induction false} MaxNumberBounds(rows: seq<Row>, r: Row)
    requires r in rows
    ensures r.number <= MaxNumber(rows)
  {
    if r in rows[1..] {
      MaxNumberBounds(rows[1..], r);
    }
  }

  /** The maximum is one of the numbers. */
  lemma {:induction false} MaxNumberListed(rows: seq<Row>) returns (r: Row)
    requires rows != []
    ensures r in rows && r.number == MaxNumber(rows)
  {
    r := rows[0];
    if |rows| > 1 && !(rows[0].number >= MaxNumber(rows[1..])) {
      r := MaxNumberListed(rows[1..]);
    }
  }

  predicate Survives(nodes: map<Id, Node>, r: Row) {
    r.status.Stored? && r.node in nodes && nodes[r.node].status.Online?
  }

  function Surviving(nodes: map<Id, Node>, rows: seq<Row>): seq<Row> {
    Filter(rows, r => Survives(nodes, r))
  }

  function Occupied(rows: seq<Row>): set<Id> {
    set r | r in rows && !r.status.Missing? :: r.node
  }

  /** What the manager decides for one affected chunk before calling the target. */
  datatype Plan = NoSurvivor | NoRecord | NoTarget | Copy(source: Id, target: Id, number: int)

  function PlanFor(m: State, env: Env, c: Id): Plan {
    var rows := ChunkRows(m.replicas, env, c);
    var surviving := Surviving(m.nodes, rows);
    if surviving == [] then NoSurvivor
    else if c !in m.chunks then NoRecord
    else match Select(m.chunks[c].size, OnlineRows(m.nodes, env), 1, Occupied(rows))
      case None => NoTarget
      case Some(targets) =>
        if targets == [] then NoTarget else Copy(surviving[0].node, targets[0].id, MaxNumber(rows) + 1)
  }

  /** Chunk c has a STORED row on a node that is ONLINE. */
  ghost predicate Survivor(m: State, c: Id, n: Id) {
    (c, n) in m.replicas && m.replicas[(c, n)].status.Stored? && n in m.nodes && m.nodes[n].status.Online?
  }

  ghost predicate CanReceive(m: State, c: Id, n: Id) {
    && n in m.nodes && m.nodes[n].status.Online?
    && ((c, n) in m.replicas ==> m.replicas[(c, n)].status.Missing?)
    && c in m.chunks && m.nodes[n].avail >= m.chunks[c].size
  }

  lemma SurvivingHas(m: State, env: Env, c: Id)
    requires Fair(env)
    ensures var surviving := Surviving(m.nodes, ChunkRows(m.replicas, env, c));
            && (surviving == [] <==> forall n :: !Survivor(m, c, n))
            && (surviving != [] ==> Survivor(m, c, surviving[0].node))
  {
    var rows := ChunkRows(m.replicas, env, c);
    var surviving := Surviving(m.nodes, rows);
    if surviving != [] {
      FilterIn(rows, r => Survives(m.nodes, r), surviving[0]);
      ChunkRowsHas(m.replicas, env, c, surviving[0]);
      assert Survivor(m, c, surviving[0].node);
    } else {
      forall n ensures !Survivor(m, c, n) {
        if Survivor(m, c, n) {
          var r := Row(c, n, m.replicas[(c, n)].number, m.replicas[(c, n)].status);
          ChunkRowsHas(m.replicas, env, c, r);
          FilterIn(rows, r => Survives(m.nodes, r), r);
        }
      }
    }
  }

  lemma OccupiedHas(m: State, env: Env, c: Id, n: Id)
    requires Fair(env)
    ensures n in Occupied(ChunkRows(m.replicas, env, c)) <==>
            (c, n) in m.replicas && !m.replicas[(c, n)].status.Missing?
  {
    var rows := ChunkRows(m.replicas, env, c);
    if (c, n) in m.replicas {
      var r := Row(c, n, m.replicas[(c, n)].number, m.replicas[(c, n)].status);
      ChunkRowsHas(m.replicas, env, c, r);
    }
    if n in Occupied(rows) {
      var r :| r in rows && !r.status.Missing? && r.node == n;
      ChunkRowsHas(m.replicas, env, c, r);
    }
  }

  lemma TargetHas(m: State, env: Env, c: Id)
    requires Fair(env) && c in m.chunks
    ensures var t := Select(m.chunks[c].size, OnlineRows(m.nodes, env), 1, Occupied(ChunkRows(m.replicas, env, c)));
            && (t.None? <==> forall n :: !CanReceive(m, c, n))
            && (t.Some? ==> |t.value| == 1 && CanReceive(m, c, t.value[0].id))
  {
    var online, size := OnlineRows(m.nodes, env), m.chunks[c].size;
    var excluded := Occupied(ChunkRows(m.replicas, env, c));
    OnlineRowsDistinct(m.nodes, env);
    SelectTakes(size, online, 1, excluded);
    forall n ensures CanReceive(m, c, n) <==> n in m.nodes && Eligible(size, online, excluded, NodeRow(n, m.nodes[n])) {
      OccupiedHas(m, env, c, n);
      if n in m.nodes {
        NodeRowsHas(m.nodes, env, NodeRow(n, m.nodes[n]));
      }
    }
    var t := Select(size, online, 1, excluded);
    forall r ensures Eligible(size, online, excluded, r) ==> CanReceive(m, c, r.id) {
      NodeRowsHas(m.nodes, env, r);
    }
    if t.Some? {
      CandidatesNonEmpty(size, online, 1, excluded);
      assert t.value[0] in t.value;
    }
  }

  lemma CandidatesNonEmpty(size: nat, available: seq<NodeRow>, rf: int, excluded: set<Id>)
    requires Select(size, available, rf, excluded).Some?
    ensures |Candidates(size, available, excluded)| >= 1
  {}

  /** The plan by its effect: when a chunk is lost, when it has nowhere to go, and what a copy uses. */
  lemma PlanMeans(m: State, env: Env, c: Id)
    requires Fair(env)
    ensures PlanFor(m, env, c).NoSurvivor? <==> forall n :: !Survivor(m, c, n)
    ensures PlanFor(m, env, c).NoRecord? ==> c !in m.chunks
    ensures PlanFor(m, env, c).NoTarget? ==> c in m.chunks && forall n :: !CanReceive(m, c, n)
    ensures PlanFor(m, env, c).Copy? ==>
              var p := PlanFor(m, env, c);
              && Survivor(m, c, p.source) && CanReceive(m, c, p.target)
              && forall n :: (c, n) in m.replicas ==> m.replicas[(c, n)].number < p.number
  {
    var rows := ChunkRows(m.replicas, env, c);
    SurvivingHas(m, env, c);
    if c in m.chunks {
      TargetHas(m, env, c);
      forall n | (c, n) in m.replicas ensures m.replicas[(c, n)].number <= MaxNumber(rows) {
        var r := Row(c, n, m.replicas[(c, n)].number, m.replicas[(c, n)].status);
        ChunkRowsHas(m.replicas, env, c, r);
        MaxNumberBounds(rows, r);
      }
    }
  }

  /** A copy is numbered one above the highest number in use. */
  lemma PlanNumbers(m: State, env: Env, c: Id) returns (top: Id)
    requires Fair(env) && PlanFor(m, env, c).Copy?
    ensures (c, top) in m.replicas && PlanFor(m, env, c).number == m.replicas[(c, top)].number + 1
    ensures forall n :: (c, n) in m.replicas ==> m.replicas[(c, n)].number <= m.replicas[(c, top)].number
  {
    hide ChunkRows, Select, Fair;
    var rows := ChunkRows(m.replicas, env, c);
    PlanMeans(m, env, c);
    var surviving := Surviving(m.nodes, rows);
    FilterIn(rows, r => Survives(m.nodes, r), surviving[0]);
    var r := MaxNumberListed(rows);
    ChunkRowsHas(m.replicas, env, c, r);
    top := r.node;
  }

  /** The decision for one chunk reads that chunk's rows and record and the node table, nothing else. */
  lemma PlanDependsOn(m: State, m': State, env: Env, c: Id)
    requires m.nodes == m'.nodes && m.chunks == m'.chunks
    requires forall n :: (c, n) in m.replicas <==> (c, n) in m'.replicas
    requires forall n :: (c, n) in m.replicas ==> m.replicas[(c, n)] == m'.replicas[(c, n)]
    ensures PlanFor(m, env, c) == PlanFor(m', env, c)
  {
    forall n ensures n in HolderIds(m.replicas, c) <==> n in HolderIds(m'.replicas, c) {
      assert n in HolderIds(m.replicas, c) <==> (c, n) in m.replicas;
      assert n in HolderIds(m'.replicas, c) <==> (c, n) in m'.replicas;
    }
    assert HolderIds(m.replicas, c) == HolderIds(m'.replicas, c);
    RowsAtDependsOn(m.replicas, m'.replicas, c, env.scan(RowsOfChunk(c), HolderIds(m.replicas, c)));
  }

  lemma {:induction false} RowsAtDependsOn(a: map<Key, Replica>, b: map<Key, Replica>, c: Id, ids: seq<Id>)
    requires forall n :: (c, n) in a <==> (c, n) in b
    requires forall n :: (c, n) in a ==> a[(c, n)] == b[(c, n)]
    ensures RowsAt(a, c, ids) == RowsAt(b, c, ids)
  {
    if ids != [] {
      RowsAtDependsOn(a, b, c, ids[1..]);
      assert (c, ids[0]) in a <==> (c, ids[0]) in b;
    }
  }

  /** The node asked to take a copy of c, when there is one. */
  function Target(m: State, env: Env, c: Id): Id {
    match PlanFor(m, env, c)
    case Copy(_, target, _) => target
    case _ => ""
  }

  /** The bytes that reach the target's disk: the source must still have them and they must hash right. */
  function CopyOf(k: Crypto, m: State, env: Env, c: Id): (r: Option<Bytes>)
    ensures r.Some? ==> c in m.chunks && k.hash(r.value) == m.chunks[c].sha
    ensures r.Some? ==> PlanFor(m, env, c).Copy?
                        && (c, PlanFor(m, env, c).source) in m.disk && r.value == m.disk[(c, PlanFor(m, env, c).source)]
  {
    match PlanFor(m, env, c)
    case Copy(source, target, _) =>
      if !env.reply(c, target).Lost? && (c, source) in m.disk && c in m.chunks
         && k.hash(m.disk[(c, source)]) == m.chunks[c].sha
      then Some(m.disk[(c, source)]) else None
    case _ => None
  }

  predicate Recovers(k: Crypto, m: State, env: Env, c: Id): (r: bool)
    ensures r ==> CopyOf(k, m, env, c).Some?
  {
    CopyOf(k, m, env, c).Some? && env.reply(c, Target(m, env, c)).Answered?
  }

  predicate Fails(k: Crypto, m: State, env: Env, c: Id) {
    !Recovers(k, m, env, c) && !PlanFor(m, env, c).NoRecord?
  }

  /** update_node_status(OFFLINE), then every row on the node to MISSING. */
  function Marked(s: State, n: Id): State {
    s.(nodes := if n in s.nodes then s.nodes[n := s.nodes[n].(status := Offline)] else s.nodes,
       replicas := map key | key in s.replicas ::
         if key.1 == n then s.replicas[key].(status := Missing) else s.replicas[key])
  }

  function Affected(s: State, n: Id): set<Id> {
    set key | key in s.replicas && key.1 == n :: key.0
  }

  ghost predicate Dooms(m: State, env: Env, done: set<Id>, f: Id) {
    exists c :: c in done && c in m.chunks && m.chunks[c].fileId == f && PlanFor(m, env, c).NoSurvivor?
  }

  ghost function NewRows(k: Crypto, m: State, env: Env, done: set<Id>): map<Key, Replica> {
    map c | c in done && Recovers(k, m, env, c) ::
      (c, Target(m, env, c)) := Replica(NumberFor(m, env, c), Stored)
  }

  ghost function NewCopies(k: Crypto, m: State, env: Env, done: set<Id>): map<Key, Bytes> {
    map c | c in done && CopyOf(k, m, env, c).Some? ::
      (c, Target(m, env, c)) := CopyOf(k, m, env, c).value
  }

  /** The state once the chunks in done have been processed, each decided on the marked state m alone. */
  ghost function Pass(k: Crypto, m: State, env: Env, done: set<Id>): State {
    m.(replicas := m.replicas + NewRows(k, m, env, done),
       disk := m.disk + NewCopies(k, m, env, done),
       files := map f | f in m.files ::
         if Dooms(m, env, done, f) then m.files[f].(status := FileStatus.Corrupted) else m.files[f])
  }

  /** The whole of _execute_node_recovery. */
  ghost function RecoverNode(k: Crypto, s: State, env: Env, n: Id): State {
    Pass(k, Marked(s, n), env, Affected(s, n))
  }

  ghost function RecoveredChunks(k: Crypto, s: State, env: Env, n: Id): set<Id> {
    set c | c in Affected(s, n) && Recovers(k, Marked(s, n), env, c)
  }

  ghost function FailedChunks(k: Crypto, s: State, env: Env, n: Id): set<Id> {
    set c | c in Affected(s, n) && Fails(k, Marked(s, n), env, c)
  }

  /** Where each row of the outcome comes from. */
  lemma PassRows(k: Crypto, m: State, env: Env, done: set<Id>, c: Id, n: Id)
    ensures var t := Pass(k, m, env, done);
            var added := c in done && Recovers(k, m, env, c) && Target(m, env, c) == n;
            && ((c, n) in t.replicas <==> (c, n) in m.replicas || added)
            && (added ==> t.replicas[(c, n)] == Replica(NumberFor(m, env, c), Stored))
            && (!added && (c, n) in m.replicas ==> t.replicas[(c, n)] == m.replicas[(c, n)])
  {
    hide PlanFor, Target, CopyOf, Recovers;
    var extra := NewRows(k, m, env, done);
    if c in done && Recovers(k, m, env, c) && Target(m, env, c) == n {
      assert (c, n) in extra;
    }
    assert (c, n) in extra ==> extra[(c, n)] == Replica(NumberFor(m, env, c), Stored);
  }

  lemma PassDisk(k: Crypto, m: State, env: Env, done: set<Id>, c: Id, n: Id)
    ensures var t := Pass(k, m, env, done);
            var added := c in done && CopyOf(k, m, env, c).Some? && Target(m, env, c) == n;
            && ((c, n) in t.disk <==> (c, n) in m.disk || added)
            && (added ==> t.disk[(c, n)] == CopyOf(k, m, env, c).value)
            && (!added && (c, n) in m.disk ==> t.disk[(c, n)] == m.disk[(c, n)])
  {
    hide PlanFor, Target, CopyOf, Recovers;
    var extra := NewCopies(k, m, env, done);
    if c in done && CopyOf(k, m, env, c).Some? && Target(m, env, c) == n {
      assert (c, n) in extra;
    }
    assert (c, n) in extra ==> extra[(c, n)] == CopyOf(k, m, env, c).value;
  }

  /** Processing other chunks first changes nothing about the decision for c, nor the bytes its source holds. */
  lemma PassLeavesPlan(k: Crypto, m: State, env: Env, done: set<Id>, c: Id)
    requires c !in done
    ensures PlanFor(Pass(k, m, env, done), env, c) == PlanFor(m, env, c)
    ensures CopyOf(k, Pass(k, m, env, done), env, c) == CopyOf(k, m, env, c)
  {
    hide PlanFor, Recovers;
    var t := Pass(k, m, env, done);
    forall n ensures (c, n) in m.replicas <==> (c, n) in t.replicas
      ensures (c, n) in m.replicas ==> m.replicas[(c, n)] == t.replicas[(c, n)]
      ensures (c, n) in m.disk <==> (c, n) in t.disk
      ensures (c, n) in m.disk ==> m.disk[(c, n)] == t.disk[(c, n)]
    {
      PassRows(k, m, env, done, c, n);
      PassDisk(k, m, env, done, c, n);
    }
    PlanDependsOn(m, t, env, c);
  }

  /** The nodes holding a STORED row of c. */
  ghost function Holders(s: State, c: Id): set<Id> {
    set key | key in s.replicas && key.0 == c && s.replicas[key].status.Stored? :: key.1
  }

  lemma HoldersHas(s: State, c: Id, n: Id)
    ensures n in Holders(s, c) <==> (c, n) in s.replicas && s.replicas[(c, n)].status.Stored?
  {
    assert (c, n) in s.replicas && s.replicas[(c, n)].status.Stored? ==> (c, n).1 in Holders(s, c);
  }

  lemma MarkedRows(s: State, n: Id, c: Id, x: Id)
    ensures (c, x) in Marked(s, n).replicas <==> (c, x) in s.replicas
    ensures (c, x) in s.replicas ==>
              Marked(s, n).replicas[(c, x)]
              == (if x == n then s.replicas[(c, x)].(status := Missing) else s.replicas[(c, x)])
    ensures c in Affected(s, n) <==> (c, n) in s.replicas
  {
    assert (c, n) in s.replicas ==> (c, n).0 in Affected(s, n);
  }

  /** One pass trades, per chunk, the failed node for at most one new ONLINE holder it did not have. */
  lemma RecoveryMovesHolders(k: Crypto, s: State, env: Env, n: Id, c: Id)
    requires Fair(env)
    ensures var t, target := RecoverNode(k, s, env, n), Target(Marked(s, n), env, c);
            && Holders(t, c) == Holders(s, c) - {n} +
                 (if c in RecoveredChunks(k, s, env, n) then {target} else {})
            && (c in RecoveredChunks(k, s, env, n) ==>
                  && target != n && target in s.nodes && s.nodes[target].status.Online?
                  && target !in Holders(s, c)
                  && ((c, target) in s.replicas ==> s.replicas[(c, target)].status.Missing?))
  {
    hide PlanFor, CopyOf, Pass;
    var m, t := Marked(s, n), RecoverNode(k, s, env, n);
    PlanMeans(m, env, c);
    forall x ensures x in Holders(t, c) <==>
                     x in Holders(s, c) - {n} + (if c in RecoveredChunks(k, s, env, n) then {Target(m, env, c)} else {})
    {
      HoldersHas(t, c, x);
      HoldersHas(s, c, x);
      MarkedRows(s, n, c, x);
      PassRows(k, m, env, Affected(s, n), c, x);
    }
    if c in RecoveredChunks(k, s, env, n) {
      var x := Target(m, env, c);
      assert CanReceive(m, c, x);
      HoldersHas(s, c, x);
      MarkedRows(s, n, c, x);
    }
  }

  /** The failed node ends OFFLINE with every row MISSING; no other node is touched. */
  lemma RecoveryClearsNode(k: Crypto, s: State, env: Env, n: Id)
    requires Fair(env)
    ensures var t := RecoverNode(k, s, env, n);
            && (n in s.nodes ==> t.nodes == s.nodes[n := s.nodes[n].(status := Offline)])
            && (n !in s.nodes ==> t.nodes == s.nodes)
            && t.chunks == s.chunks
            && forall c :: ((c, n) in t.replicas <==> (c, n) in s.replicas)
                           && ((c, n) in t.replicas ==> t.replicas[(c, n)] == s.replicas[(c, n)].(status := Missing))
  {
    hide PlanFor, CopyOf, Target;
    var m, t := Marked(s, n), RecoverNode(k, s, env, n);
    forall c ensures (c, n) in t.replicas <==> (c, n) in s.replicas
      ensures (c, n) in t.replicas ==> t.replicas[(c, n)] == s.replicas[(c, n)].(status := Missing)
    {
      RecoveryMovesHolders(k, s, env, n, c);
      PassRows(k, m, env, Affected(s, n), c, n);
      MarkedRows(s, n, c, n);
    }
  }

  /** A file is marked CORRUPTED exactly when one of its chunks had a row there and no STORED row on another ONLINE
      node. */
  lemma RecoveryCorruptsExactly(k: Crypto, s: State, env: Env, n: Id, f: Id)
    requires Fair(env) && f in s.files
    ensures var t := RecoverNode(k, s, env, n);
            var lost := exists c :: (c, n) in s.replicas && c in s.chunks && s.chunks[c].fileId == f
                                    && forall x :: x != n ==> !Survivor(s, c, x);
            && f in t.files
            && t.files[f] == if lost then s.files[f].(status := FileStatus.Corrupted) else s.files[f]
  {
    hide PlanFor, CopyOf, Target;
    var m := Marked(s, n);
    forall c ensures PlanFor(m, env, c).NoSurvivor? <==> forall x :: x != n ==> !Survivor(s, c, x)
      ensures c in Affected(s, n) <==> (c, n) in s.replicas
    {
      PlanMeans(m, env, c);
      MarkedRows(s, n, c, n);
      forall x ensures Survivor(m, c, x) <==> x != n && Survivor(s, c, x) {
        MarkedRows(s, n, c, x);
      }
    }
  }

  ghost function StoredKeys(s: State): set<Key> {
    set key | key in s.replicas && s.replicas[key].status.Stored?
  }

  lemma {:induction false} ImageSize(cs: set<Id>, to: Id -> Id)
    ensures |set c | c in cs :: (c, to(c))| == |cs|
  {
    var image := set c | c in cs :: (c, to(c));
    if cs == {} {
      assert image == {};
    } else {
      var c :| c in cs;
      var rest := set d | d in cs - {c} :: (d, to(d));
      ImageSize(cs - {c}, to);
      assert image == rest + {(c, to(c))};
      assert (c, to(c)) !in rest;
    }
  }

  ghost function StoredOn(s: State, n: Id): set<Key> {
    set key | key in StoredKeys(s) && key.1 == n
  }

  ghost function RowsAdded(k: Crypto, s: State, env: Env, n: Id): set<Key> {
    set c | c in RecoveredChunks(k, s, env, n) :: (c, Target(Marked(s, n), env, c))
  }

  lemma RecoveryMovesKeys(k: Crypto, s: State, env: Env, n: Id)
    requires Fair(env)
    ensures StoredKeys(RecoverNode(k, s, env, n)) == StoredKeys(s) - StoredOn(s, n) + RowsAdded(k, s, env, n)
    ensures StoredKeys(s) !! RowsAdded(k, s, env, n)
  {
    hide PlanFor, Target, RecoverNode, RecoveredChunks, Marked;
    var t := RecoverNode(k, s, env, n);
    forall key: Key ensures key in StoredKeys(t) <==> key in StoredKeys(s) - StoredOn(s, n) + RowsAdded(k, s, env, n)
      ensures key in RowsAdded(k, s, env, n) ==> key !in StoredKeys(s)
    {
      var (c, x) := key;
      RecoveryMovesHolders(k, s, env, n, c);
      HoldersHas(s, c, x);
      HoldersHas(t, c, x);
    }
  }

  /** STORED rows are conserved: all those on the failed node go, exactly recovered_chunks new ones come. */
  lemma RecoveryConserves(k: Crypto, s: State, env: Env, n: Id)
    requires Fair(env)
    ensures |StoredKeys(RecoverNode(k, s, env, n))| ==
            |StoredKeys(s)| - |StoredOn(s, n)| + |RecoveredChunks(k, s, env, n)|
  {
    hide PlanFor, Target, RecoverNode, RecoveredChunks, Marked, StoredKeys;
    RecoveryMovesKeys(k, s, env, n);
    var to := c => Target(Marked(s, n), env, c);
    ImageSize(RecoveredChunks(k, s, env, n), to);
    assert RowsAdded(k, s, env, n) == set c | c in RecoveredChunks(k, s, env, n) :: (c, to(c));
    assert StoredOn(s, n) <= StoredKeys(s);
  }

  /** The loop counts c, one way or the other. */
  lemma CountedMeans(k: Crypto, s: State, env: Env, n: Id, c: Id)
    requires Fair(env)
    ensures c in RecoveredChunks(k, s, env, n) + FailedChunks(k, s, env, n) <==>
            (c, n) in s.replicas && (c in s.chunks || forall x :: x != n ==> !Survivor(s, c, x))
  {
    hide PlanFor, CopyOf, Target;
    var m := Marked(s, n);
    MarkedRows(s, n, c, n);
    PlanMeans(m, env, c);
    NoRecordMeans(m, env, c);
    forall x ensures Survivor(m, c, x) <==> x != n && Survivor(s, c, x) {
      MarkedRows(s, n, c, x);
    }
  }

  /** recovered + failed counts every affected chunk unless one with a survivor has no chunk record. */
  lemma RecoveryCounts(k: Crypto, s: State, env: Env, n: Id)
    requires Fair(env)
    ensures |RecoveredChunks(k, s, env, n)| + |FailedChunks(k, s, env, n)| <= |Affected(s, n)|
    ensures |RecoveredChunks(k, s, env, n)| + |FailedChunks(k, s, env, n)| == |Affected(s, n)| <==>
            forall c, x :: (c, n) in s.replicas && x != n && Survivor(s, c, x) ==> c in s.chunks
  {
    hide PlanFor, CopyOf, Target, Recovers, Marked;
    var rec, bad, all := RecoveredChunks(k, s, env, n), FailedChunks(k, s, env, n), Affected(s, n);
    assert |rec + bad| == |rec| + |bad| by { assert rec !! bad; }
    SameSize(rec + bad, all);
    forall c ensures c in rec + bad <==>
                     (c, n) in s.replicas && (c in s.chunks || forall x :: x != n ==> !Survivor(s, c, x))
      ensures c in all <==> (c, n) in s.replicas
    {
      CountedMeans(k, s, env, n, c);
      MarkedRows(s, n, c, n);
    }
  }

  lemma SameSize<T>(a: set<T>, b: set<T>)
    requires a <= b
    ensures |a| <= |b| && (|a| == |b| <==> a == b)
  {
    assert b == a + (b - a);
  }

  lemma NoRecordMeans(m: State, env: Env, c: Id)
    requires Fair(env)
    ensures PlanFor(m, env, c).NoRecord? <==> c !in m.chunks && exists x :: Survivor(m, c, x)
  {
    SurvivingHas(m, env, c);
  }

  /** What audit_replica_consistency means by healthy. */
  ghost predicate Healthy(s: State) {
    forall c :: c in s.chunks && s.chunks[c].fileId in s.files ==>
      |Holders(s, c)| >= s.files[s.chunks[c].fileId].rf
  }

  /** A recovery that reports COMPLETED keeps a healthy cluster healthy. */
  lemma CompletedRecoveryKeepsHealth(k: Crypto, s: State, env: Env, n: Id)
    requires Fair(env) && Healthy(s) && FailedChunks(k, s, env, n) == {}
    ensures Healthy(RecoverNode(k, s, env, n))
  {
    hide PlanFor, CopyOf, Target, Holders;
    var m, t := Marked(s, n), RecoverNode(k, s, env, n);
    forall c | c in t.chunks && t.chunks[c].fileId in t.files
      ensures |Holders(t, c)| >= t.files[t.chunks[c].fileId].rf
    {
      RecoveryMovesHolders(k, s, env, n, c);
      HoldersHas(s, c, n);
      MarkedRows(s, n, c, n);
      PlanMeans(m, env, c);
      assert c in Affected(s, n) ==> c !in FailedChunks(k, s, env, n);
      var kept := Holders(s, c) - {n};
      assert n in Holders(s, c) ==> |kept| == |Holders(s, c)| - 1;
      assert n !in Holders(s, c) ==> kept == Holders(s, c);
    }
  }

  /** The rows a returning node gets back: MISSING, recorded, and verified by the node itself. */
  ghost predicate Flips(k: Crypto, s: State, env: Env, n: Id, c: Id) {
    && (c, n) in s.replicas && s.replicas[(c, n)].status.Missing? && c in s.chunks
    && env.verify(c, n) && (c, n) in s.disk && k.hash(s.disk[(c, n)]) == s.chunks[c].sha
  }

  /** reconcile_returning_node. */
  ghost function Reconcile(k: Crypto, s: State, env: Env, n: Id): State {
    if n !in s.nodes then s
    else s.(replicas := map key | key in s.replicas ::
              if key.1 == n && Flips(k, s, env, n, key.0) then s.replicas[key].(status := Stored) else s.replicas[key])
  }

  /** register_node: ONLINE first, then reconcile. */
  ghost function Register(k: Crypto, s: State, env: Env, n: Id, node: Node): State {
    Reconcile(k, s.(nodes := s.nodes[n := node.(status := Online)]), env, n)
  }

  /** Reconciliation adds the node to the holders of exactly the chunks it verifies. */
  lemma ReconcileMovesHolders(k: Crypto, s: State, env: Env, n: Id, c: Id)
    ensures Holders(Reconcile(k, s, env, n), c) ==
            Holders(s, c) + (if n in s.nodes && Flips(k, s, env, n, c) then {n} else {})
    ensures Flips(k, s, env, n, c) ==> n !in Holders(s, c)
  {
    var t := Reconcile(k, s, env, n);
    HoldersHas(s, c, n);
    forall x ensures x in Holders(t, c) <==>
                     x in Holders(s, c) + (if n in s.nodes && Flips(k, s, env, n, c) then {n} else {})
    {
      HoldersHas(t, c, x);
      HoldersHas(s, c, x);
    }
  }

  /** One loop iteration of a pass, as three table updates. */
  lemma PassStep(k: Crypto, m: State, env: Env, done: set<Id>, c: Id)
    requires c !in done
    ensures var before, after := Pass(k, m, env, done), Pass(k, m, env, done + {c});
            && after.nodes == before.nodes && after.chunks == before.chunks
            && after.replicas == (if Recovers(k, m, env, c)
                 then before.replicas[(c, Target(m, env, c)) := Replica(NumberFor(m, env, c), Stored)]
                 else before.replicas)
            && after.disk == (if CopyOf(k, m, env, c).Some?
                 then before.disk[(c, Target(m, env, c)) := CopyOf(k, m, env, c).value] else before.disk)
            && after.files == (if PlanFor(m, env, c).NoSurvivor? && c in m.chunks
                 then WithStatus(before.files, m.chunks[c].fileId, FileStatus.Corrupted) else before.files)
  {
    hide *;
    PassRowsStep(k, m, env, done, c);
    PassDiskStep(k, m, env, done, c);
    FilesStep(k, m, env, done, c);
    PassTables(k, m, env, done);
    PassTables(k, m, env, done + {c});
  }

  lemma PassTables(k: Crypto, m: State, env: Env, done: set<Id>)
    ensures Pass(k, m, env, done).nodes == m.nodes && Pass(k, m, env, done).chunks == m.chunks
  {
    hide NewRows, NewCopies, Dooms;
  }

  lemma PassRowsStep(k: Crypto, m: State, env: Env, done: set<Id>, c: Id)
    ensures Pass(k, m, env, done + {c}).replicas == if Recovers(k, m, env, c)
              then Pass(k, m, env, done).replicas[(c, Target(m, env, c)) := Replica(NumberFor(m, env, c), Stored)]
              else Pass(k, m, env, done).replicas
  {
    hide PlanFor, Target, CopyOf, Recovers, NumberFor, NewRows, NewCopies, Dooms;
    NewRowsStep(k, m, env, done, c);
  }

  lemma PassDiskStep(k: Crypto, m: State, env: Env, done: set<Id>, c: Id)
    ensures Pass(k, m, env, done + {c}).disk == if CopyOf(k, m, env, c).Some?
              then Pass(k, m, env, done).disk[(c, Target(m, env, c)) := CopyOf(k, m, env, c).value]
              else Pass(k, m, env, done).disk
  {
    hide PlanFor, Target, CopyOf, Recovers, NumberFor, NewRows, NewCopies, Dooms;
    NewCopiesStep(k, m, env, done, c);
  }

  lemma FilesStep(k: Crypto, m: State, env: Env, done: set<Id>, c: Id)
    ensures Pass(k, m, env, done + {c}).files ==
            (if PlanFor(m, env, c).NoSurvivor? && c in m.chunks
             then WithStatus(Pass(k, m, env, done).files, m.chunks[c].fileId, FileStatus.Corrupted)
             else Pass(k, m, env, done).files)
  {
    hide PlanFor, Target, CopyOf, Recovers, NumberFor, NewRows, NewCopies;
    forall f ensures Dooms(m, env, done + {c}, f) <==>
                     Dooms(m, env, done, f)
                     || (PlanFor(m, env, c).NoSurvivor? && c in m.chunks && m.chunks[c].fileId == f)
    {}
  }

  function NumberFor(m: State, env: Env, c: Id): int {
    match PlanFor(m, env, c)
    case Copy(_, _, number) => number
    case _ => 0
  }

  /** UPDATE files SET status: nothing happens when the row is gone. */
  function WithStatus(files: map<Id, File>, f: Id, status: FileStatus): map<Id, File> {
    if f in files then files[f := files[f].(status := status)] else files
  }

  lemma NewRowsStep(k: Crypto, m: State, env: Env, done: set<Id>, c: Id)
    ensures NewRows(k, m, env, done + {c}) == if Recovers(k, m, env, c)
              then NewRows(k, m, env, done)[(c, Target(m, env, c)) := Replica(NumberFor(m, env, c), Stored)]
              else NewRows(k, m, env, done)
  {
    hide PlanFor, Target, CopyOf, Recovers, NumberFor;
  }

  lemma NewCopiesStep(k: Crypto, m: State, env: Env, done: set<Id>, c: Id)
    ensures NewCopies(k, m, env, done + {c}) == if CopyOf(k, m, env, c).Some?
              then NewCopies(k, m, env, done)[(c, Target(m, env, c)) := CopyOf(k, m, env, c).value]
              else NewCopies(k, m, env, done)
  {
    hide PlanFor, Target, CopyOf, Recovers;
  }
}
