/** recovery_service.py and heartbeat_monitor.py as methods, proved against the closed forms. */
module RecoveryServices {
  import opened Types
  import opened Placement
  import opened Recovery
  import opened Transfers
  import opened Tables
  import opened Sweep
  import opened Audits
  import opened Runs

  datatype Outcome = Recovered | Failed | Skipped

  datatype RecoveryResult = RecoveryResult(completed: bool, recovered: nat, failed: nat)

  /** One iteration of the recovery loop on state s, as table updates. */
  ghost function ChunkDone(k: Crypto, s: State, env: Env, c: Id): State {
    s.(replicas := if Recovers(k, s, env, c)
         then s.replicas[(c, Target(s, env, c)) := Replica(NumberFor(s, env, c), Stored)] else s.replicas,
       disk := if CopyOf(k, s, env, c).Some?
         then s.disk[(c, Target(s, env, c)) := CopyOf(k, s, env, c).value] else s.disk,
       files := if PlanFor(s, env, c).NoSurvivor? && c in s.chunks
         then WithStatus(s.files, s.chunks[c].fileId, FileStatus.Corrupted) else s.files)
  }

  lemma PassExtends(k: Crypto, m: State, env: Env, done: set<Id>, c: Id)
    requires c !in done
    ensures var before := Pass(k, m, env, done);
            && ChunkDone(k, before, env, c) == Pass(k, m, env, done + {c})
            && (Recovers(k, before, env, c) <==> Recovers(k, m, env, c))
            && (Fails(k, before, env, c) <==> Fails(k, m, env, c))
  {
    hide PlanFor, CopyOf, Pass, WithStatus;
    PassStep(k, m, env, done, c);
    PassLeavesPlan(k, m, env, done, c);
    PassTables(k, m, env, done);
  }

  lemma PassNothing(k: Crypto, m: State, env: Env)
    ensures Pass(k, m, env, {}) == m
  {
    hide PlanFor, CopyOf, Recovers;
    assert NewRows(k, m, env, {}) == map[] && NewCopies(k, m, env, {}) == map[];
  }

  class RecoveryService {
    const k: Crypto
    const db: Database
    const lan: Lan

    constructor (k: Crypto, db: Database, lan: Lan)
      requires lan.k == k
      ensures this.k == k && this.db == db && this.lan == lan
    {
      this.k, this.db, this.lan := k, db, lan;
    }

    ghost predicate Valid() {
      lan.k == k
    }

    /** The body of the recovery loop for one affected chunk. */
    method RecoverChunk(env: Env, c: Id, online: seq<NodeRow>) returns (outcome: Outcome)
      requires Valid() && online == OnlineRows(db.nodes, env)
      modifies db, lan
      ensures Snapshot(db, lan) == ChunkDone(k, old(Snapshot(db, lan)), env, c)
      ensures outcome.Recovered? <==> Recovers(k, old(Snapshot(db, lan)), env, c)
      ensures outcome.Failed? <==> Fails(k, old(Snapshot(db, lan)), env, c)
    {
      hide ChunkRows, OnlineRows, Select, MaxNumber, Surviving, Occupied, WithStatus;
      ghost var s := Snapshot(db, lan);
      var rows := db.GetReplicasForChunk(env, c);
      var surviving := Surviving(db.nodes, rows);
      if surviving == [] {
        if c in db.chunks {
          db.UpdateFileStatus(db.chunks[c].fileId, FileStatus.Corrupted);
        }
        return Failed;
      }
      if c !in db.chunks {
        return Skipped;
      }
      var targets := Select(db.chunks[c].size, online, 1, Occupied(rows));
      if targets.None? || targets.value == [] {
        return Failed;
      }
      var target := targets.value[0].id;
      assert PlanFor(s, env, c) == Copy(surviving[0].node, target, MaxNumber(rows) + 1);
      var ok := lan.ReplicateChunk(env, c, surviving[0].node, target, db.chunks[c].sha);
      if !ok {
        return Failed;
      }
      db.AddReplica(c, target, MaxNumber(rows) + 1, Stored);
      outcome := Recovered;
    }

    /** recover_node_failure: mark, then re-replicate chunk by chunk. */
    method RecoverNodeFailure(env: Env, n: Id) returns (result: RecoveryResult)
      requires Valid() && Fair(env)
      modifies db, lan
      ensures Snapshot(db, lan) == RecoverNode(k, old(Snapshot(db, lan)), env, n)
      ensures result.recovered == |RecoveredChunks(k, old(Snapshot(db, lan)), env, n)|
      ensures result.failed == |FailedChunks(k, old(Snapshot(db, lan)), env, n)|
      ensures result.completed <==> result.failed == 0
    {
      hide RecoverNode, Marked, Affected, RecoveredChunks, FailedChunks, Pass, Fair, Recovers, Fails, OnlineRows,
           ChunkDone;
      ghost var s := Snapshot(db, lan);
      var affected := MarkNode(env, n);
      ghost var m := Marked(s, n);
      AffectedIs(s, n, affected);
      var nodes := db.ListNodes(env);
      var online := Filter(nodes, (r: NodeRow) => r.node.status.Online?);
      OnlineRowsIs(db.nodes, env, nodes);
      var recovered, failed := 0, 0;
      PassNothing(k, m, env);
      assert Elements(affected[..0]) == {};
      for i := 0 to |affected|
        invariant Snapshot(db, lan) == Pass(k, m, env, Elements(affected[..i]))
        invariant recovered == |Counted(k, m, env, Elements(affected[..i]), true)|
        invariant failed == |Counted(k, m, env, Elements(affected[..i]), false)|
        invariant online == OnlineRows(db.nodes, env)
      {
        var c := affected[i];
        NextAffected(affected, i);
        PassExtends(k, m, env, Elements(affected[..i]), c);
        PassTables(k, m, env, Elements(affected[..i]));
        PassTables(k, m, env, Elements(affected[..i + 1]));
        var outcome := RecoverChunk(env, c, online);
        CountNext(k, m, env, Elements(affected[..i]), c, true);
        CountNext(k, m, env, Elements(affected[..i]), c, false);
        if outcome.Recovered? {
          recovered := recovered + 1;
        } else if outcome.Failed? {
          failed := failed + 1;
        }
      }
      assert affected[..|affected|] == affected;
      RecoverNodeIs(k, s, env, n, affected);
      result := RecoveryResult(failed == 0, recovered, failed);
    }

    /** The first half: OFFLINE, then every row on the node MISSING. */
    method MarkNode(env: Env, n: Id) returns (affected: seq<Id>)
      requires Fair(env)
      modifies db
      ensures Snapshot(db, lan) == Marked(old(Snapshot(db, lan)), n)
      ensures Distinct(affected) && forall c :: c in affected <==> (c, n) in old(db.replicas)
    {
      hide MarkedSome, Elements, Fair, Distinct;
      ghost var s := Snapshot(db, lan);
      db.UpdateNodeStatus(n, Offline);
      affected := db.GetReplicasForNode(env, n);
      MarkedNone(s.replicas, n, affected);
      for i := 0 to |affected|
        invariant db.replicas == MarkedSome(s.replicas, n, Elements(affected[..i]))
        invariant db.nodes == Marked(s, n).nodes && db.files == s.files && db.chunks == s.chunks && lan.disk == s.disk
      {
        MarkNext(s.replicas, n, affected, i);
        db.UpdateReplicaStatus(affected[i], n, Missing);
      }
      assert affected[..|affected|] == affected;
      MarkedAll(s, n, affected);
    }

    /** reconcile_returning_node: each MISSING row the node verifies becomes STORED. */
    method ReconcileReturningNode(env: Env, n: Id) returns (reconciled: nat)
      requires Valid() && Fair(env)
      modifies db
      ensures Snapshot(db, lan) == Reconcile(k, old(Snapshot(db, lan)), env, n)
      ensures reconciled == if n in old(db.nodes)
                            then |Regained(k, old(Snapshot(db, lan)), env, n, Affected(old(Snapshot(db, lan)), n))|
                            else 0
    {
      hide Reconcile, Flips, FlippedSome, Affected, Regained, Filter, Fair, Distinct;
      ghost var s := Snapshot(db, lan);
      var held := db.GetReplicasForNode(env, n);
      var rows := db.replicas;
      var missing := Filter(held, c => (c, n) in rows && rows[(c, n)].status.Missing?);
      reconciled := 0;
      if n !in db.nodes {
        NoReconcile(k, s, env, n);
        return;
      }
      MissingIs(s.replicas, n, held, missing);
      FlippedNothing(k, s, env, n, missing);
      assert Regained(k, s, env, n, Elements(missing[..0])) == {} by { RegainedNothing(k, s, env, n, missing); }
      for i := 0 to |missing|
        invariant db.replicas == FlippedSome(k, s, env, n, Elements(missing[..i]))
        invariant db.nodes == s.nodes && db.files == s.files && db.chunks == s.chunks && lan.disk == s.disk
        invariant reconciled == |Regained(k, s, env, n, Elements(missing[..i]))|
      {
        var c := missing[i];
        FlipNext(k, s, env, n, missing, i);
        RegainNext(k, s, env, n, missing, i);
        if c in db.chunks {
          var valid := lan.VerifyChunk(env, c, n, db.chunks[c].sha);
          if valid {
            db.UpdateReplicaStatus(c, n, Stored);
            reconciled := reconciled + 1;
          }
        }
      }
      assert missing[..|missing|] == missing;
      FlippedAll(k, s, env, n, missing);
      RegainedAll(k, s, env, n, missing);
    }

    /** The register_node handler: the row goes in ONLINE, then its replicas are reconciled. */
    method RegisterNode(env: Env, n: Id, node: Node)
      requires Valid() && Fair(env)
      modifies db
      ensures Snapshot(db, lan) == Register(k, old(Snapshot(db, lan)), env, n, node)
    {
      hide Reconcile;
      db.RegisterOrUpdateNode(n, node.(status := Online));
      var reconciled := ReconcileReturningNode(env, n);
    }

    /** audit_replica_consistency: the loops count exactly the rows, and healthy means Healthy. */
    method AuditReplicaConsistency(env: Env) returns (report: Report)
      requires Fair(env)
      ensures report.files == |db.files|
      ensures Tallied(Snapshot(db, lan), db.files.Keys, report.chunks, report.counts, report.inconsistent)
      ensures report.healthy <==> Healthy(Snapshot(db, lan))
    {
      hide Tallied, Fair, Short, CountsRows, ChunksOf;
      ghost var s := Snapshot(db, lan);
      var files := db.ListFiles(env);
      var chunks, counts, inconsistent := 0, Counts(0, 0, 0, 0), 0;
      TalliedNothing(s);
      assert Elements(files[..0]) == {};
      for i := 0 to |files|
        invariant Tallied(s, Elements(files[..i]), chunks, counts, inconsistent)
      {
        var own, rows, short := AuditFile(env, files[i]);
        NextAffected(files, i);
        TalliedNext(s, Elements(files[..i]), chunks, counts, inconsistent, files[i], own, rows);
        chunks, counts := chunks + own, counts.Plus(rows);
        if short {
          inconsistent := inconsistent + 1;
        }
      }
      assert files[..|files|] == files;
      ListedFiles(files, db.files);
      NoShortFileMeans(s);
      TalliedShort(s, db.files.Keys, chunks, counts, inconsistent);
      report := Report(|files|, chunks, counts, inconsistent, inconsistent == 0);
    }

    /** One round of the audit's outer loop. */
    method AuditFile(env: Env, f: Id) returns (own: nat, counts: Counts, short: bool)
      requires Fair(env) && f in db.files
      ensures own == |ChunksOf(db.chunks, {f})| && CountsRows(db.replicas, ChunksOf(db.chunks, {f}), counts)
      ensures short <==> Short(Snapshot(db, lan), f)
    {
      hide Fair, CountsRows, Holders, ChunksOf;
      ghost var s := Snapshot(db, lan);
      var chunks := db.GetChunksForFile(env, f);
      counts, short := Counts(0, 0, 0, 0), false;
      CountsNothing(db.replicas);
      assert Elements(chunks[..0]) == {};
      for j := 0 to |chunks|
        invariant CountsRows(db.replicas, Elements(chunks[..j]), counts)
        invariant short <==> exists c :: c in Elements(chunks[..j]) && |Holders(s, c)| < db.files[f].rf
      {
        var rows := AuditChunk(env, chunks[j]);
        NextAffected(chunks, j);
        CountsAdd(db.replicas, Elements(chunks[..j]), counts, {chunks[j]}, rows);
        StoredRowsAreHolders(s, chunks[j]);
        assert rows.stored == |Holders(s, chunks[j])| by { StoredCount(s.replicas, {chunks[j]}, rows); }
        counts := counts.Plus(rows);
        if rows.stored < db.files[f].rf {
          short := true;
        }
      }
      assert chunks[..|chunks|] == chunks;
      own := |chunks|;
      ListedChunks(chunks, db.chunks, f);
    }

    /** The audit's inner loop. */
    method AuditChunk(env: Env, c: Id) returns (counts: Counts)
      requires Fair(env)
      ensures CountsRows(db.replicas, {c}, counts)
    {
      hide Fair, CountsRows, CountsSoFar, DistinctNodes, ChunkRows;
      var rows := db.GetReplicasForChunk(env, c);
      ListingDistinct(db.replicas, env, c);
      counts := Counts(0, 0, 0, 0);
      CountsStart(rows);
      for i := 0 to |rows|
        invariant CountsSoFar(rows[..i], counts)
      {
        CountsStep(rows, i, counts);
        counts := counts.Add(rows[i].status);
      }
      assert rows[..|rows|] == rows;
      ListingCounts(db.replicas, env, c, counts);
    }
  }

  /** The heartbeat monitor and the heartbeat handler. */
  class HeartbeatMonitor {
    const service: RecoveryService

    constructor (service: RecoveryService)
      ensures this.service == service
    {
      this.service := service;
    }

    /** check_nodes_now: one recovery per overdue node of the list read at the start. */
    method CheckNodesNow(env: Env, now: int, timeout: int, envs: Id -> Env)
      requires service.Valid() && AllFair(envs)
      modifies service.db, service.lan
      ensures Snapshot(service.db, service.lan) ==
              SweepFrom(service.k, old(Snapshot(service.db, service.lan)), NodeRows(old(service.db.nodes), env), now,
                        timeout, envs)
      ensures Fair(env) ==> forall n :: n in old(service.db.nodes) ==>
                var before := old(service.db.nodes)[n];
                && n in service.db.nodes
                && if before.status.Online? && now - before.heartbeat > timeout
                   then service.db.nodes[n] == before.(status := Offline)
                        && forall c :: (c, n) in service.db.replicas ==> service.db.replicas[(c, n)].status.Missing?
                   else service.db.nodes[n] == before
    {
      hide RecoverNode, Overdue, NodeRows, Fair, AllFair;
      ghost var s := Snapshot(service.db, service.lan);
      var nodes := service.db.ListNodes(env);
      for i := 0 to |nodes|
        invariant SweepFrom(service.k, Snapshot(service.db, service.lan), nodes[i..], now, timeout, envs)
                  == SweepFrom(service.k, old(Snapshot(service.db, service.lan)), nodes, now, timeout, envs)
      {
        assert nodes[i..][1..] == nodes[i + 1..];
        if Overdue(nodes[i], now, timeout) {
          EachFair(envs, nodes[i].id);
          var result := service.RecoverNodeFailure(envs(nodes[i].id), nodes[i].id);
        }
      }
      if Fair(env) {
        forall n | n in s.nodes
          ensures n in service.db.nodes
          ensures if s.nodes[n].status.Online? && now - s.nodes[n].heartbeat > timeout
                  then service.db.nodes[n] == s.nodes[n].(status := Offline)
                       && forall c :: (c, n) in service.db.replicas ==> service.db.replicas[(c, n)].status.Missing?
                  else service.db.nodes[n] == s.nodes[n]
        {
          SweepExact(service.k, s, env, now, timeout, envs, n);
        }
      }
    }

    /** handle_heartbeat; false is the refusal of an unknown node. */
    method HandleHeartbeat(n: Id, avail: int, total: int, status: NodeStatus, now: int) returns (known: bool)
      modifies service.db
      ensures known <==> n in old(service.db.nodes)
      ensures Snapshot(service.db, service.lan)
              == HeartbeatAs(old(Snapshot(service.db, service.lan)), n, avail, total, status, now)
    {
      known := service.db.UpdateNodeHeartbeat(n, avail, total, status, now);
    }
  }

  // ---------- marking ----------

  ghost function MarkedSome(replicas: map<Key, Replica>, n: Id, done: set<Id>): map<Key, Replica> {
    map key | key in replicas ::
      if key.1 == n && key.0 in done then replicas[key].(status := Missing) else replicas[key]
  }

  lemma MarkNext(replicas: map<Key, Replica>, n: Id, affected: seq<Id>, i: nat)
    requires i < |affected| && (affected[i], n) in replicas
    ensures var before, after := MarkedSome(replicas, n, Elements(affected[..i])),
                                 MarkedSome(replicas, n, Elements(affected[..i + 1]));
            (affected[i], n) in before
            && after == before[(affected[i], n) := before[(affected[i], n)].(status := Missing)]
  {
    assert affected[..i + 1] == affected[..i] + [affected[i]];
    var key := (affected[i], n);
    var before, after := MarkedSome(replicas, n, Elements(affected[..i])),
                         MarkedSome(replicas, n, Elements(affected[..i + 1]));
    forall x: Key | x in replicas ensures after[x] == before[key := before[key].(status := Missing)][x] {
      assert x == (x.0, x.1);
    }
  }

  lemma MarkedNone(replicas: map<Key, Replica>, n: Id, affected: seq<Id>)
    ensures MarkedSome(replicas, n, Elements(affected[..0])) == replicas
  {}

  lemma MarkedAll(s: State, n: Id, affected: seq<Id>)
    requires forall c :: c in affected <==> (c, n) in s.replicas
    ensures MarkedSome(s.replicas, n, Elements(affected)) == Marked(s, n).replicas
  {
    forall x: Key | x in s.replicas ensures x.1 == n ==> x.0 in Elements(affected) {
      assert x == (x.0, x.1);
    }
  }

  lemma AffectedIs(s: State, n: Id, affected: seq<Id>)
    requires forall c :: c in affected <==> (c, n) in s.replicas
    ensures Elements(affected) == Affected(s, n)
  {
    forall c ensures c in Affected(s, n) <==> (c, n) in s.replicas {
      MarkedRows(s, n, c, n);
    }
  }

  lemma OnlineRowsIs(nodes: map<Id, Node>, env: Env, rows: seq<NodeRow>)
    requires rows == NodeRows(nodes, env)
    ensures Filter(rows, (r: NodeRow) => r.node.status.Online?) == OnlineRows(nodes, env)
  {}

  // ---------- auditing ----------

  lemma StoredCount(replicas: map<Key, Replica>, cs: set<Id>, counts: Counts)
    requires CountsRows(replicas, cs, counts)
    ensures counts.stored == |RowKeys(replicas, cs, Some(Stored))|
  {}

  lemma TalliedShort(s: State, fs: set<Id>, chunks: nat, counts: Counts, inconsistent: nat)
    requires Tallied(s, fs, chunks, counts, inconsistent)
    ensures inconsistent == |ShortFiles(s, fs)|
  {}

  lemma ListedFiles(listed: seq<Id>, files: map<Id, File>)
    requires Enumerates(listed, files.Keys)
    ensures Elements(listed) == files.Keys && |listed| == |files|
  {
    DistinctSize(listed);
    assert Elements(listed) == files.Keys;
  }

  lemma ListedChunks(cs: seq<Id>, chunks: map<Id, Chunk>, f: Id)
    requires Distinct(cs) && forall c :: c in cs <==> c in chunks && chunks[c].fileId == f
    ensures Elements(cs) == ChunksOf(chunks, {f}) && |cs| == |ChunksOf(chunks, {f})|
  {
    DistinctSize(cs);
    assert Elements(cs) == ChunksOf(chunks, {f});
  }

  // ---------- counting ----------

  ghost predicate CountsAs(k: Crypto, m: State, env: Env, c: Id, good: bool) {
    if good then Recovers(k, m, env, c) else Fails(k, m, env, c)
  }

  ghost function Counted(k: Crypto, m: State, env: Env, done: set<Id>, good: bool): set<Id> {
    set c | c in done && CountsAs(k, m, env, c, good)
  }

  lemma CountNext(k: Crypto, m: State, env: Env, done: set<Id>, c: Id, good: bool)
    requires c !in done
    ensures |Counted(k, m, env, done + {c}, good)| ==
            |Counted(k, m, env, done, good)| + (if CountsAs(k, m, env, c, good) then 1 else 0)
  {
    hide CountsAs;
    var before := Counted(k, m, env, done, good);
    assert Counted(k, m, env, done + {c}, good) == if CountsAs(k, m, env, c, good) then before + {c} else before;
  }

  lemma NextAffected(cs: seq<Id>, i: nat)
    requires i < |cs| && Distinct(cs)
    ensures cs[i] !in Elements(cs[..i]) && Elements(cs[..i + 1]) == Elements(cs[..i]) + {cs[i]}
  {
    assert cs[..i + 1] == cs[..i] + [cs[i]];
  }

  lemma RecoverNodeIs(k: Crypto, s: State, env: Env, n: Id, affected: seq<Id>)
    requires Elements(affected) == Affected(s, n)
    ensures RecoverNode(k, s, env, n) == Pass(k, Marked(s, n), env, Elements(affected))
    ensures Counted(k, Marked(s, n), env, Elements(affected), true) == RecoveredChunks(k, s, env, n)
    ensures Counted(k, Marked(s, n), env, Elements(affected), false) == FailedChunks(k, s, env, n)
  {
    hide Recovers, Fails, Pass, Marked, Affected;
  }

  // ---------- reconciling ----------

  ghost function FlippedSome(k: Crypto, s: State, env: Env, n: Id, done: set<Id>): map<Key, Replica> {
    map key | key in s.replicas ::
      if key.1 == n && key.0 in done && Flips(k, s, env, n, key.0)
      then s.replicas[key].(status := Stored)
      else s.replicas[key]
  }

  lemma NoReconcile(k: Crypto, s: State, env: Env, n: Id)
    requires n !in s.nodes
    ensures Reconcile(k, s, env, n) == s
  {}

  lemma FlippedNothing(k: Crypto, s: State, env: Env, n: Id, cs: seq<Id>)
    ensures FlippedSome(k, s, env, n, Elements(cs[..0])) == s.replicas
  {}

  lemma MissingIs(replicas: map<Key, Replica>, n: Id, held: seq<Id>, missing: seq<Id>)
    requires Distinct(held) && forall c :: c in held <==> (c, n) in replicas
    requires missing == Filter(held, c => (c, n) in replicas && replicas[(c, n)].status.Missing?)
    ensures Distinct(missing) && forall c :: c in missing <==> (c, n) in replicas && replicas[(c, n)].status.Missing?
  {
    FilterDistinct(held, c => (c, n) in replicas && replicas[(c, n)].status.Missing?);
    forall c ensures c in missing <==> (c, n) in replicas && replicas[(c, n)].status.Missing? {
      FilterIn(held, c => (c, n) in replicas && replicas[(c, n)].status.Missing?, c);
    }
  }

  lemma FlipNext(k: Crypto, s: State, env: Env, n: Id, missing: seq<Id>, i: nat)
    requires i < |missing| && Distinct(missing) && (missing[i], n) in s.replicas
             && s.replicas[(missing[i], n)].status.Missing?
    ensures var c, before := missing[i], FlippedSome(k, s, env, n, Elements(missing[..i]));
            && (c, n) in before
            && FlippedSome(k, s, env, n, Elements(missing[..i + 1])) ==
               (if c in s.chunks && env.verify(c, n) && (c, n) in s.disk && k.hash(s.disk[(c, n)]) == s.chunks[c].sha
                then before[(c, n) := before[(c, n)].(status := Stored)] else before)
  {
    NextAffected(missing, i);
    var c := missing[i];
    assert Flips(k, s, env, n, c) <==>
           c in s.chunks && env.verify(c, n) && (c, n) in s.disk && k.hash(s.disk[(c, n)]) == s.chunks[c].sha;
    hide Flips;
    var before, after := FlippedSome(k, s, env, n, Elements(missing[..i])),
                         FlippedSome(k, s, env, n, Elements(missing[..i + 1]));
    forall x: Key | x in s.replicas && x != (c, n) ensures after[x] == before[x] {
      assert x == (x.0, x.1);
    }
    assert before[(c, n)] == s.replicas[(c, n)];
  }

  /** The reconciled count is the number of rows that became STORED. */
  lemma ReconcileConserves(k: Crypto, s: State, env: Env, n: Id)
    requires n in s.nodes
    ensures |StoredKeys(Reconcile(k, s, env, n))| == |StoredKeys(s)| + |Regained(k, s, env, n, Affected(s, n))|
  {
    hide Reconcile, Flips, Affected, StoredKeys;
    var back, t := Regained(k, s, env, n, Affected(s, n)), Reconcile(k, s, env, n);
    var to := c => n;
    var gained := set c | c in back :: (c, to(c));
    ImageSize(back, to);
    forall key: Key ensures key in StoredKeys(t) <==> key in StoredKeys(s) || key in gained
      ensures key in gained ==> key !in StoredKeys(s)
    {
      var (c, x) := key;
      assert key in gained <==> x == n && c in back by {
        assert c in back ==> (c, to(c)) in gained;
      }
      StoredReconciled(k, s, env, n, c, x);
      FlipsAffected(k, s, env, n, c);
    }
    assert StoredKeys(t) == StoredKeys(s) + gained;
    assert |StoredKeys(s) + gained| == |StoredKeys(s)| + |gained| by { assert StoredKeys(s) !! gained; }
  }

  lemma StoredReconciled(k: Crypto, s: State, env: Env, n: Id, c: Id, x: Id)
    requires n in s.nodes
    ensures (c, x) in StoredKeys(Reconcile(k, s, env, n)) <==>
            (c, x) in StoredKeys(s) || (x == n && Flips(k, s, env, n, c))
    ensures Flips(k, s, env, n, c) ==> (c, n) !in StoredKeys(s)
  {
    hide Reconcile, Flips, Holders;
    ReconcileMovesHolders(k, s, env, n, c);
    HoldersHas(s, c, x);
    HoldersHas(s, c, n);
    HoldersHas(Reconcile(k, s, env, n), c, x);
  }

  lemma FlipsAffected(k: Crypto, s: State, env: Env, n: Id, c: Id)
    ensures Flips(k, s, env, n, c) ==> c in Affected(s, n)
  {
    assert (c, n) in s.replicas ==> (c, n).0 in Affected(s, n);
  }

  /** The chunks of done that n gets back. */
  ghost function Regained(k: Crypto, s: State, env: Env, n: Id, done: set<Id>): set<Id> {
    set c | c in done && Flips(k, s, env, n, c)
  }

  lemma RegainedNothing(k: Crypto, s: State, env: Env, n: Id, cs: seq<Id>)
    ensures Regained(k, s, env, n, Elements(cs[..0])) == {}
  {}

  lemma RegainNext(k: Crypto, s: State, env: Env, n: Id, missing: seq<Id>, i: nat)
    requires i < |missing| && Distinct(missing) && (missing[i], n) in s.replicas
             && s.replicas[(missing[i], n)].status.Missing?
    ensures var c := missing[i];
            |Regained(k, s, env, n, Elements(missing[..i + 1]))| == |Regained(k, s, env, n, Elements(missing[..i]))|
              + if c in s.chunks && env.verify(c, n) && (c, n) in s.disk && k.hash(s.disk[(c, n)]) == s.chunks[c].sha
                then 1 else 0
  {
    NextAffected(missing, i);
    var c, before := missing[i], Regained(k, s, env, n, Elements(missing[..i]));
    assert Flips(k, s, env, n, c) <==>
           c in s.chunks && env.verify(c, n) && (c, n) in s.disk && k.hash(s.disk[(c, n)]) == s.chunks[c].sha;
    hide Flips;
    assert Regained(k, s, env, n, Elements(missing[..i + 1]))
           == if Flips(k, s, env, n, c) then before + {c} else before;
  }

  lemma RegainedAll(k: Crypto, s: State, env: Env, n: Id, missing: seq<Id>)
    requires forall c :: c in missing <==> (c, n) in s.replicas && s.replicas[(c, n)].status.Missing?
    ensures Regained(k, s, env, n, Elements(missing)) == Regained(k, s, env, n, Affected(s, n))
  {
    forall c ensures c in Affected(s, n) <==> (c, n) in s.replicas {
      MarkedRows(s, n, c, n);
    }
  }

  lemma FlippedAll(k: Crypto, s: State, env: Env, n: Id, missing: seq<Id>)
    requires n in s.nodes && forall c :: c in missing <==> (c, n) in s.replicas && s.replicas[(c, n)].status.Missing?
    ensures Reconcile(k, s, env, n) == s.(replicas := FlippedSome(k, s, env, n, Elements(missing)))
  {
    forall x: Key | x in s.replicas && x.1 == n && Flips(k, s, env, n, x.0) ensures x.0 in Elements(missing) {
      assert x == (x.0, x.1);
    }
  }
}
