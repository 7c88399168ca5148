/** A request that runs undisturbed does exactly what its atomic operation does. */
module Solo {
  import opened Types
  import opened Naming
  import opened Chunking
  import opened Placement
  import opened Recovery
  import opened Transfers
  import opened Downloads
  import opened Runs
  import opened Interleaving
  import opened Races
  import opened StorageManagers
  import opened RecoveryServices

  /** The state after an effect; the histories play no part in it. */
  function Changed(s: State, e: Effect): State {
    Act(Shared(s, map[], {}, {}), e).s
  }

  lemma ChangedIs(h: Shared, e: Effect)
    ensures Act(h, e).s == Changed(h.s, e)
  {
    hide AddChunks, WithStatus, AddRow, SetStatus;
  }

  /** n moves of one thread, all in one environment. */
  function Iterate(k: Crypto, env: Env, s: State, t: Thread, n: nat): (State, Thread)
    requires Fair(env)
    decreases n
  {
    if n == 0 then (s, t)
    else var (next, e) := Move(k, env, s, t); Iterate(k, env, Changed(s, e), next, n - 1)
  }

  ghost predicate Leads(k: Crypto, env: Env, s: State, t: Thread, s': State, t': Thread)
    requires Fair(env)
  {
    exists n: nat :: Iterate(k, env, s, t, n) == (s', t')
  }

  lemma Here(k: Crypto, env: Env, s: State, t: Thread)
    requires Fair(env)
    ensures Leads(k, env, s, t, s, t)
  {
    hide Fair, Move, Changed;
    assert Iterate(k, env, s, t, 0) == (s, t);
  }

  /** One move, then the rest. */
  lemma Then(k: Crypto, env: Env, s: State, t: Thread, s': State, t': Thread)
    requires Fair(env)
    requires var (next, e) := Move(k, env, s, t); Leads(k, env, Changed(s, e), next, s', t')
    ensures Leads(k, env, s, t, s', t')
  {
    hide Fair, Move, Changed;
    var (next, e) := Move(k, env, s, t);
    var n: nat :| Iterate(k, env, Changed(s, e), next, n) == (s', t');
    assert Iterate(k, env, s, t, n + 1) == (s', t');
  }

  lemma {:induction false} IterateAdd(k: Crypto, env: Env, s: State, t: Thread, m: nat, n: nat)
    requires Fair(env)
    ensures var (s1, t1) := Iterate(k, env, s, t, m); Iterate(k, env, s, t, m + n) == Iterate(k, env, s1, t1, n)
    decreases m
  {
    hide Fair, Move, Changed;
    if m > 0 {
      var (next, e) := Move(k, env, s, t);
      IterateAdd(k, env, Changed(s, e), next, m - 1, n);
    }
  }

  lemma Onward(k: Crypto, env: Env, s: State, t: Thread, s1: State, t1: Thread, s2: State, t2: Thread)
    requires Fair(env) && Leads(k, env, s, t, s1, t1) && Leads(k, env, s1, t1, s2, t2)
    ensures Leads(k, env, s, t, s2, t2)
  {
    hide Fair, Iterate;
    var m: nat :| Iterate(k, env, s, t, m) == (s1, t1);
    var n: nat :| Iterate(k, env, s1, t1, n) == (s2, t2);
    IterateAdd(k, env, s, t, m, n);
  }

  // ---------- upload ----------

  lemma SendAlone(k: Crypto, env: Env, s: State, job: Job, turn: Turn)
    requires Fair(env) && turn.i < |JobRows(k, job)| && turn.j < |turn.targets|
    requires UploadMove(k, env, s, job, Probe(turn)) == (Uploader(job, Send(turn)), Quiet)
    ensures var (t, ok) := Attempt(k, env, job.encrypted, JobRows(k, job)[turn.i], turn.payload, s,
                                   turn.targets[turn.j].id, turn.j + 1);
            Leads(k, env, s, Uploader(job, Send(turn)), t,
                  Uploader(job, if ok then Probe(turn.(j := turn.j + 1)) else SetOutcome(false)))
  {
    hide Fair, JobRows, Leads, Select, OnlineRows, Pieces, AddChunks, WithStatus, RecoveryMove, RegisterMove,
         DownloadMove, DeleteMove;
    var (t, ok) := Attempt(k, env, job.encrypted, JobRows(k, job)[turn.i], turn.payload, s,
                           turn.targets[turn.j].id, turn.j + 1);
    var last := Uploader(job, if ok then Probe(turn.(j := turn.j + 1)) else SetOutcome(false));
    Here(k, env, t, last);
    var (next, e) := UploadMove(k, env, s, job, Send(turn));
    if ok {
      Then(k, env, Changed(s, e), next, t, last);
    }
    Then(k, env, s, Uploader(job, Send(turn)), t, last);
  }

  lemma SkipAlone(k: Crypto, env: Env, s: State, job: Job, turn: Turn)
    requires Fair(env) && turn.i < |JobRows(k, job)| && turn.j < |turn.targets|
    requires UploadMove(k, env, s, job, Probe(turn)).0 == Uploader(job, AddReplica(turn))
    ensures var (t, ok) := Attempt(k, env, job.encrypted, JobRows(k, job)[turn.i], turn.payload, s,
                                   turn.targets[turn.j].id, turn.j + 1);
            ok && Leads(k, env, s, Uploader(job, AddReplica(turn)), t, Uploader(job, Probe(turn.(j := turn.j + 1))))
  {
    hide Fair, JobRows, Leads, Select, OnlineRows, Pieces, AddChunks, WithStatus, RecoveryMove, RegisterMove,
         DownloadMove, DeleteMove;
    var (t, ok) := Attempt(k, env, job.encrypted, JobRows(k, job)[turn.i], turn.payload, s,
                           turn.targets[turn.j].id, turn.j + 1);
    Here(k, env, t, Uploader(job, Probe(turn.(j := turn.j + 1))));
    Then(k, env, s, Uploader(job, AddReplica(turn)), t, Uploader(job, Probe(turn.(j := turn.j + 1))));
  }

  lemma ProbeGoes(k: Crypto, env: Env, s: State, job: Job, turn: Turn)
    requires Fair(env) && turn.i < |JobRows(k, job)| && turn.j < |turn.targets|
    ensures var (next, e) := UploadMove(k, env, s, job, Probe(turn));
            (next, e) == Move(k, env, s, Uploader(job, Probe(turn))) && Changed(s, e) == s
            && (next == Uploader(job, AddReplica(turn)) || (next, e) == (Uploader(job, Send(turn)), Quiet))
  {
    hide Fair, JobRows, Select, OnlineRows, Pieces, RecoveryMove, RegisterMove, DownloadMove, DeleteMove;
  }

  lemma AttemptAlone(k: Crypto, env: Env, s: State, job: Job, turn: Turn)
    requires Fair(env) && turn.i < |JobRows(k, job)| && turn.j < |turn.targets|
    ensures var (t, ok) := Attempt(k, env, job.encrypted, JobRows(k, job)[turn.i], turn.payload, s,
                                   turn.targets[turn.j].id, turn.j + 1);
            Leads(k, env, s, Uploader(job, Probe(turn)), t,
                  Uploader(job, if ok then Probe(turn.(j := turn.j + 1)) else SetOutcome(false)))
  {
    hide Fair, JobRows, Leads, Attempt, Move, UploadMove, Changed;
    var (t, ok) := Attempt(k, env, job.encrypted, JobRows(k, job)[turn.i], turn.payload, s,
                           turn.targets[turn.j].id, turn.j + 1);
    ProbeGoes(k, env, s, job, turn);
    if UploadMove(k, env, s, job, Probe(turn)).0 == Uploader(job, AddReplica(turn)) {
      SkipAlone(k, env, s, job, turn);
    } else {
      SendAlone(k, env, s, job, turn);
    }
    Then(k, env, s, Uploader(job, Probe(turn)), t,
         Uploader(job, if ok then Probe(turn.(j := turn.j + 1)) else SetOutcome(false)));
  }

  lemma {:induction false} TargetsAlone(k: Crypto, env: Env, s: State, job: Job, turn: Turn)
    requires Fair(env) && turn.i < |JobRows(k, job)| && turn.j <= |turn.targets|
    ensures var (t, ok) := UploadTargets(k, env, job.encrypted, JobRows(k, job)[turn.i], turn.payload, s,
                                         turn.targets[turn.j..], turn.j + 1);
            Leads(k, env, s, Uploader(job, Probe(turn)), t,
                  Uploader(job, if ok then Choose(turn.active, turn.i + 1) else SetOutcome(false)))
    decreases |turn.targets| - turn.j
  {
    hide Fair, JobRows, Leads, Select, OnlineRows, Pieces, Attempt;
    if turn.j == |turn.targets| {
      Here(k, env, s, Uploader(job, Choose(turn.active, turn.i + 1)));
      Then(k, env, s, Uploader(job, Probe(turn)), s, Uploader(job, Choose(turn.active, turn.i + 1)));
    } else {
      var (s1, ok) := Attempt(k, env, job.encrypted, JobRows(k, job)[turn.i], turn.payload, s,
                              turn.targets[turn.j].id, turn.j + 1);
      AttemptAlone(k, env, s, job, turn);
      assert turn.targets[turn.j..][1..] == turn.targets[turn.j + 1..];
      if ok {
        var later := turn.(j := turn.j + 1);
        TargetsAlone(k, env, s1, job, later);
        var (t, done) := UploadTargets(k, env, job.encrypted, JobRows(k, job)[turn.i], turn.payload, s1,
                                       turn.targets[turn.j + 1..], turn.j + 2);
        Onward(k, env, s, Uploader(job, Probe(turn)), s1, Uploader(job, Probe(later)),
               t, Uploader(job, if done then Choose(turn.active, turn.i + 1) else SetOutcome(false)));
      }
    }
  }

  lemma {:induction false} ChunksAlone(k: Crypto, env: Env, s: State, job: Job, active: seq<NodeRow>, i: nat)
    requires Fair(env) && i <= |JobRows(k, job)| == |Pieces(job.data, job.chunkSize)|
    ensures var rows, blobs := JobRows(k, job), Pieces(job.data, job.chunkSize);
            var (t, ok) := UploadChunks(k, env, job, active, rows[i..], blobs[i..], s);
            Leads(k, env, s, Uploader(job, Choose(active, i)), t, Uploader(job, SetOutcome(ok && rows != [])))
    decreases |JobRows(k, job)| - i
  {
    hide Fair, JobRows, Leads, Select, OnlineRows, Pieces, UploadTargets, Payload, RecoveryMove, RegisterMove,
         DownloadMove, DeleteMove;
    var rows, blobs, here := JobRows(k, job), Pieces(job.data, job.chunkSize), Uploader(job, Choose(active, i));
    var (t, ok) := UploadChunks(k, env, job, active, rows[i..], blobs[i..], s);
    var last := Uploader(job, SetOutcome(ok && rows != []));
    if i == |rows| || Select(rows[i].chunk.size, active, job.rf, {}).None? {
      Here(k, env, s, last);
      Then(k, env, s, here, s, last);
    } else {
      var targets := Select(rows[i].chunk.size, active, job.rf, {}).value;
      var payload := Payload(k, env, job, rows[i], blobs[i]);
      var turn := Turn(active, i, targets, 0, payload);
      var (s1, sent) := UploadTargets(k, env, job.encrypted, rows[i], payload, s, targets, 1);
      assert targets[0..] == targets && rows[i..][1..] == rows[i + 1..] && blobs[i..][1..] == blobs[i + 1..];
      TargetsAlone(k, env, s, job, turn);
      if sent {
        ChunksAlone(k, env, s1, job, active, i + 1);
        Onward(k, env, s, Uploader(job, Probe(turn)), s1, Uploader(job, Choose(active, i + 1)), t, last);
      }
      Then(k, env, s, here, t, last);
    }
  }

  lemma FilesAlone(k: Crypto, env: Env, s: State, job: Job)
    requires Fair(env)
    ensures Leads(k, env, s, Uploader(job, MakeFile), Created(k, job, s), Uploader(job, ReadNodes))
  {
    hide Fair, JobRows, Leads, Select, OnlineRows, Pieces, UploadChunks, WithStatus, AddChunks, FileRow, RecoveryMove,
         RegisterMove, DownloadMove, DeleteMove;
    var made := Created(k, job, s);
    Here(k, env, made, Uploader(job, ReadNodes));
    var filed := Changed(s, CreatesFile(job.fileId, FileRow(k, job, FileStatus.Uploading)));
    Then(k, env, filed, Uploader(job, MakeChunks), made, Uploader(job, ReadNodes));
    Then(k, env, s, Uploader(job, MakeFile), made, Uploader(job, ReadNodes));
  }

  lemma OutcomeAlone(k: Crypto, env: Env, s: State, job: Job, ok: bool)
    requires Fair(env)
    ensures Leads(k, env, s, Uploader(job, SetOutcome(ok)),
                  s.(files := WithStatus(s.files, job.fileId,
                                         if ok then FileStatus.Active else FileStatus.Corrupted)), Done)
  {
    hide Fair, Leads, WithStatus, RecoveryMove, RegisterMove, DownloadMove, DeleteMove;
    var t := s.(files := WithStatus(s.files, job.fileId, if ok then FileStatus.Active else FileStatus.Corrupted));
    Here(k, env, t, Done);
    Then(k, env, s, Uploader(job, SetOutcome(ok)), t, Done);
  }

  lemma ReadNodesAlone(k: Crypto, env: Env, s: State, job: Job, t: State, last: Thread)
    requires Fair(env)
    requires var active := OnlineRows(s.nodes, env);
             Leads(k, env, s, Uploader(job, if active == [] then SetOutcome(false) else Choose(active, 0)), t, last)
    ensures Leads(k, env, s, Uploader(job, ReadNodes), t, last)
  {
    hide Fair, Leads, OnlineRows, RecoveryMove, RegisterMove, DownloadMove, DeleteMove;
    Then(k, env, s, Uploader(job, ReadNodes), t, last);
  }

  /** An upload that runs undisturbed is the atomic upload. */
  lemma UploadAlone(k: Crypto, env: Env, s: State, job: Job)
    requires Fair(env)
    ensures Leads(k, env, s, Uploader(job, MakeFile), Upload(k, env, job, s).0, Done)
  {
    hide Fair, JobRows, Leads, OnlineRows, Pieces, UploadChunks, WithStatus, Created;
    var t, made := Upload(k, env, job, s).0, Created(k, job, s);
    var rows, blobs, active := JobRows(k, job), Pieces(job.data, job.chunkSize), OnlineRows(made.nodes, env);
    JobRowsMatch(k, job);
    FilesAlone(k, env, s, job);
    if active == [] {
      OutcomeAlone(k, env, made, job, false);
    } else {
      var (sent, ok) := UploadChunks(k, env, job, active, rows, blobs, made);
      ChunksAlone(k, env, made, job, active, 0);
      assert rows[0..] == rows && blobs[0..] == blobs;
      OutcomeAlone(k, env, sent, job, ok && rows != []);
      Onward(k, env, made, Uploader(job, Choose(active, 0)), sent, Uploader(job, SetOutcome(ok && rows != [])), t,
             Done);
    }
    ReadNodesAlone(k, env, made, job, t, Done);
    Onward(k, env, s, Uploader(job, MakeFile), made, Uploader(job, ReadNodes), t, Done);
  }

  lemma JobRowsMatch(k: Crypto, job: Job)
    ensures |JobRows(k, job)| == |Pieces(job.data, job.chunkSize)|
  {
    hide Pieces, ChunkId;
  }

  // ---------- recovery ----------

  lemma {:induction false} MarksAlone(k: Crypto, env: Env, s: State, n: Id, all: seq<Id>, i: nat)
    requires Fair(env) && i <= |all| && forall c :: c in all ==> (c, n) in s.replicas
    ensures Leads(k, env, s.(replicas := MarkedSome(s.replicas, n, Elements(all[..i]))),
                  Recoverer(n, MarkMissing(all, i)),
                  s.(replicas := MarkedSome(s.replicas, n, Elements(all))), Recoverer(n, ReadOnline(all)))
    decreases |all| - i
  {
    hide Fair, Leads, OnlineRows, Affected, MarkedSome, Elements, UploadMove, RegisterMove, DownloadMove, DeleteMove;
    var now := s.(replicas := MarkedSome(s.replicas, n, Elements(all[..i])));
    var end := s.(replicas := MarkedSome(s.replicas, n, Elements(all)));
    if i == |all| {
      assert all[..i] == all;
      Here(k, env, end, Recoverer(n, ReadOnline(all)));
    } else {
      MarkNext(s.replicas, n, all, i);
      MarksAlone(k, env, s, n, all, i + 1);
    }
    Then(k, env, now, Recoverer(n, MarkMissing(all, i)), end, Recoverer(n, ReadOnline(all)));
  }

  lemma ChunkAlone(k: Crypto, env: Env, s: State, n: Id, pass: Progress)
    requires Fair(env) && pass.i < |pass.all| && pass.online == OnlineRows(s.nodes, env) && pass.nodeMap == s.nodes
    ensures Leads(k, env, s, Recoverer(n, Decide(pass)), ChunkDone(k, s, env, pass.all[pass.i]),
                  Recoverer(n, Decide(pass.(i := pass.i + 1))))
  {
    hide Fair, Leads, OnlineRows, Affected, ChunkRows, Surviving, Select, Occupied, MaxNumber, WithStatus, UploadMove,
         RegisterMove, DownloadMove, DeleteMove;
    var c, here, last := pass.all[pass.i], Recoverer(n, Decide(pass)), Recoverer(n, Decide(pass.(i := pass.i + 1)));
    var end := ChunkDone(k, s, env, c);
    Here(k, env, end, last);
    match PlanFor(s, env, c) {
      case NoSurvivor => Then(k, env, s, Recoverer(n, Doom(pass)), end, last);
      case NoRecord =>
      case NoTarget =>
      case Copy(source, target, number) =>
        CopyAlone(k, env, s, n, pass, Copying(c, source, target, number, s.chunks[c].sha));
    }
    Then(k, env, s, here, end, last);
  }

  lemma StoreAlone(k: Crypto, env: Env, s: State, n: Id, pass: Progress, copying: Copying)
    requires Fair(env) && copying.chunk in s.chunks && copying.sha == s.chunks[copying.chunk].sha
    requires PlanFor(s, env, copying.chunk) == Copy(copying.source, copying.target, copying.number)
    requires (copying.chunk, copying.source) in s.disk && !env.reply(copying.chunk, copying.target).Lost?
    ensures Leads(k, env, s, Recoverer(n, Store(pass, copying, s.disk[(copying.chunk, copying.source)])),
                  ChunkDone(k, s, env, copying.chunk), Recoverer(n, Decide(pass.(i := pass.i + 1))))
  {
    hide Fair, Leads, OnlineRows, Affected, PlanFor, WithStatus, DecideMove, UploadMove, RegisterMove, DownloadMove,
         DeleteMove;
    var here, last := Recoverer(n, Store(pass, copying, s.disk[(copying.chunk, copying.source)])),
        Recoverer(n, Decide(pass.(i := pass.i + 1)));
    var end := ChunkDone(k, s, env, copying.chunk);
    Here(k, env, end, last);
    var (next, e) := RecoveryMove(k, env, s, n, here.rec);
    if next.rec.AddCopy? {
      Then(k, env, Changed(s, e), next, end, last);
    }
    Then(k, env, s, here, end, last);
  }

  lemma CopyAlone(k: Crypto, env: Env, s: State, n: Id, pass: Progress, copying: Copying)
    requires Fair(env) && copying.chunk in s.chunks && copying.sha == s.chunks[copying.chunk].sha
    requires PlanFor(s, env, copying.chunk) == Copy(copying.source, copying.target, copying.number)
    ensures Leads(k, env, s, Recoverer(n, Fetch(pass, copying)), ChunkDone(k, s, env, copying.chunk),
                  Recoverer(n, Decide(pass.(i := pass.i + 1))))
  {
    hide Fair, Leads, OnlineRows, Affected, PlanFor, WithStatus, DecideMove, UploadMove, RegisterMove, DownloadMove,
         DeleteMove;
    var here, last := Recoverer(n, Fetch(pass, copying)), Recoverer(n, Decide(pass.(i := pass.i + 1)));
    var end := ChunkDone(k, s, env, copying.chunk);
    Here(k, env, end, last);
    if (copying.chunk, copying.source) in s.disk && !env.reply(copying.chunk, copying.target).Lost? {
      StoreAlone(k, env, s, n, pass, copying);
    }
    Then(k, env, s, here, end, last);
  }

  lemma {:induction false} PassAlone(k: Crypto, env: Env, m: State, n: Id, pass: Progress)
    requires Fair(env) && pass.i <= |pass.all| && Distinct(pass.all)
    requires pass.online == OnlineRows(m.nodes, env) && pass.nodeMap == m.nodes
    ensures Leads(k, env, Pass(k, m, env, Elements(pass.all[..pass.i])), Recoverer(n, Decide(pass)),
                  Pass(k, m, env, Elements(pass.all)), Recoverer(n, RecoveryUnlocks))
    decreases |pass.all| - pass.i
  {
    hide Fair, Leads, OnlineRows, Pass, ChunkDone, Recovers, Fails, Elements, Distinct, UploadMove, RegisterMove,
         DownloadMove, DeleteMove;
    var i, here := pass.i, Recoverer(n, Decide(pass));
    var now, end := Pass(k, m, env, Elements(pass.all[..i])), Pass(k, m, env, Elements(pass.all));
    if i == |pass.all| {
      assert pass.all[..i] == pass.all;
      Here(k, env, end, Recoverer(n, RecoveryUnlocks));
      Then(k, env, end, here, end, Recoverer(n, RecoveryUnlocks));
    } else {
      var later := pass.(i := i + 1);
      NextAffected(pass.all, i);
      PassExtends(k, m, env, Elements(pass.all[..i]), pass.all[i]);
      PassTables(k, m, env, Elements(pass.all[..i]));
      ChunkAlone(k, env, now, n, pass);
      PassAlone(k, env, m, n, later);
      Onward(k, env, now, here, ChunkDone(k, now, env, pass.all[i]), Recoverer(n, Decide(later)), end,
             Recoverer(n, RecoveryUnlocks));
    }
  }

  lemma ListsAlone(k: Crypto, env: Env, m: State, n: Id, all: seq<Id>)
    requires Fair(env)
    ensures Leads(k, env, m, Recoverer(n, ReadOnline(all)), m,
                  Recoverer(n, Decide(Progress(all, OnlineRows(m.nodes, env), m.nodes, 0))))
  {
    hide Fair, Leads, OnlineRows, DecideMove, UploadMove, RegisterMove, DownloadMove, DeleteMove;
    var last := Recoverer(n, Decide(Progress(all, OnlineRows(m.nodes, env), m.nodes, 0)));
    Here(k, env, m, last);
    Then(k, env, m, Recoverer(n, ReadMap(all, OnlineRows(m.nodes, env))), m, last);
    Then(k, env, m, Recoverer(n, ReadOnline(all)), m, last);
  }

  /** The node OFFLINE, its rows not yet marked. */
  function Down(s: State, n: Id): State {
    Changed(s, TakesOffline(n))
  }

  lemma MarkedFromDown(s: State, n: Id, all: seq<Id>)
    requires forall c :: c in all <==> (c, n) in s.replicas
    ensures Down(s, n).(replicas := MarkedSome(Down(s, n).replicas, n, Elements(all))) == Marked(s, n)
    ensures Down(s, n).(replicas := MarkedSome(Down(s, n).replicas, n, Elements(all[..0]))) == Down(s, n)
    ensures Affected(Down(s, n), n) == Affected(s, n) && Down(s, n).replicas == s.replicas
  {
    hide MarkedSome, Elements, Affected;
    MarkedAll(s, n, all);
    MarkedNone(s.replicas, n, all);
    AffectedIs(s, n, all);
    AffectedIs(Down(s, n), n, all);
  }

  lemma AffectedListed(env: Env, s: State, n: Id)
    requires Fair(env)
    ensures var all := env.scan(RowsOnNode(n), Affected(s, n));
            Distinct(all) && (forall c :: c in all <==> (c, n) in s.replicas) && Elements(all) == Affected(s, n)
  {
    var all := env.scan(RowsOnNode(n), Affected(s, n));
    assert Enumerates(all, Affected(s, n));
    forall c ensures c in all <==> (c, n) in s.replicas {
      MarkedRows(s, n, c, n);
    }
  }

  /** After the affected rows have been read, marking and the chunk loop. */
  lemma AffectedAlone(k: Crypto, env: Env, s: State, n: Id, all: seq<Id>)
    requires Fair(env) && Distinct(all) && (forall c :: c in all <==> (c, n) in s.replicas)
             && Elements(all) == Affected(s, n)
    ensures Leads(k, env, Down(s, n), Recoverer(n, MarkMissing(all, 0)), RecoverNode(k, s, env, n),
                  Recoverer(n, RecoveryUnlocks))
  {
    hide Fair, Leads, OnlineRows, Pass, Marked, Down, MarkedSome, Affected, Distinct;
    var m, end := Marked(s, n), RecoverNode(k, s, env, n);
    MarkedFromDown(s, n, all);
    MarksAlone(k, env, Down(s, n), n, all, 0);
    ListsAlone(k, env, m, n, all);
    PassNothing(k, m, env);
    assert Elements(all[..0]) == {};
    PassAlone(k, env, m, n, Progress(all, OnlineRows(m.nodes, env), m.nodes, 0));
    Onward(k, env, m, Recoverer(n, ReadOnline(all)), m,
           Recoverer(n, Decide(Progress(all, OnlineRows(m.nodes, env), m.nodes, 0))),
           end, Recoverer(n, RecoveryUnlocks));
    Onward(k, env, Down(s, n), Recoverer(n, MarkMissing(all, 0)), m, Recoverer(n, ReadOnline(all)), end,
           Recoverer(n, RecoveryUnlocks));
  }

  lemma NothingAffected(k: Crypto, env: Env, s: State, n: Id)
    requires forall c :: (c, n) !in s.replicas
    ensures RecoverNode(k, s, env, n) == Down(s, n)
  {
    hide Down, Pass, Marked, MarkedSome;
    MarkedFromDown(s, n, []);
    AffectedIs(s, n, []);
    assert Elements<Id>([]) == {};
    var none: seq<Id> := [];
    assert none[..0] == none;
    PassNothing(k, Marked(s, n), env);
  }

  /** A recovery that runs undisturbed is the atomic recovery. */
  lemma RecoverAlone(k: Crypto, env: Env, s: State, n: Id)
    requires Fair(env)
    ensures Leads(k, env, s, Recoverer(n, RecoveryWaits), RecoverNode(k, s, env, n), Done)
  {
    hide Fair, Leads, OnlineRows, Pass, RecoverNode, Affected, DecideMove, UploadMove, RegisterMove, DownloadMove,
         DeleteMove, Distinct;
    var end := RecoverNode(k, s, env, n);
    Here(k, env, end, Done);
    Then(k, env, end, Recoverer(n, RecoveryUnlocks), end, Done);
    AffectedListed(env, s, n);
    var all := env.scan(RowsOnNode(n), Affected(s, n));
    MarkedFromDown(s, n, all);
    if all == [] {
      NothingAffected(k, env, s, n);
    } else {
      AffectedAlone(k, env, s, n, all);
      Onward(k, env, Down(s, n), Recoverer(n, MarkMissing(all, 0)), end, Recoverer(n, RecoveryUnlocks), end, Done);
    }
    Then(k, env, Down(s, n), Recoverer(n, ReadAffected), end, Done);
    Then(k, env, s, Recoverer(n, TakeOffline), end, Done);
    Then(k, env, s, Recoverer(n, RecoveryWaits), end, Done);
  }

  // ---------- registration ----------

  lemma {:induction false} AsksAlone(k: Crypto, env: Env, s: State, n: Id, node: Node, missing: seq<Id>, i: nat)
    requires Fair(env) && i <= |missing| && Distinct(missing)
    requires forall c :: c in missing ==> (c, n) in s.replicas && s.replicas[(c, n)].status.Missing?
    ensures Leads(k, env, s.(replicas := FlippedSome(k, s, env, n, Elements(missing[..i]))),
                  Registrar(n, node, Ask(missing, i)),
                  s.(replicas := FlippedSome(k, s, env, n, Elements(missing))), Registrar(n, node, ReconcileUnlocks))
    decreases |missing| - i
  {
    hide Fair, Leads, FlippedSome, Elements, Distinct, UploadMove, RecoveryMove, DownloadMove, DeleteMove;
    var now := s.(replicas := FlippedSome(k, s, env, n, Elements(missing[..i])));
    var end := s.(replicas := FlippedSome(k, s, env, n, Elements(missing)));
    var here, last := Registrar(n, node, Ask(missing, i)), Registrar(n, node, ReconcileUnlocks);
    if i == |missing| {
      assert missing[..i] == missing;
      Here(k, env, end, last);
    } else {
      FlipNext(k, s, env, n, missing, i);
      AsksAlone(k, env, s, n, node, missing, i + 1);
      if RegisterMove(k, env, now, n, node, Ask(missing, i)).0.reg.Flip? {
        Then(k, env, now, Registrar(n, node, Flip(missing, i)), end, last);
      }
    }
    Then(k, env, now, here, end, last);
  }

  lemma MissingListed(env: Env, replicas: map<Key, Replica>, n: Id)
    requires Fair(env)
    ensures var missing := MissingOn(env, replicas, n);
            Distinct(missing) && forall c :: c in missing <==> (c, n) in replicas && replicas[(c, n)].status.Missing?
  {
    var held := set key | key in replicas && key.1 == n :: key.0;
    var ids := env.scan(RowsOnNode(n), held);
    assert Enumerates(ids, held);
    forall c ensures c in ids <==> (c, n) in replicas {
      assert (c, n) in replicas ==> (c, n).0 in held;
    }
    MissingIs(replicas, n, ids, MissingOn(env, replicas, n));
  }

  /** From the wait for the lock on, a registration that runs undisturbed is the atomic reconciliation. */
  lemma ReconcileAlone(k: Crypto, env: Env, s: State, n: Id, node: Node)
    requires Fair(env) && n in s.nodes
    ensures Leads(k, env, s, Registrar(n, node, ReconcileWaits), Reconcile(k, s, env, n), Done)
  {
    hide Fair, Leads, MissingOn, Reconcile, FlippedSome, Distinct, UploadMove, RecoveryMove, DownloadMove, DeleteMove;
    var end, missing := Reconcile(k, s, env, n), MissingOn(env, s.replicas, n);
    MissingListed(env, s.replicas, n);
    FlippedAll(k, s, env, n, missing);
    FlippedNothing(k, s, env, n, missing);
    AsksAlone(k, env, s, n, node, missing, 0);
    Here(k, env, end, Done);
    Then(k, env, end, Registrar(n, node, ReconcileUnlocks), end, Done);
    Onward(k, env, s, Registrar(n, node, Ask(missing, 0)), end, Registrar(n, node, ReconcileUnlocks), end, Done);
    Then(k, env, s, Registrar(n, node, ReadNode(missing)), end, Done);
    Then(k, env, s, Registrar(n, node, ReadMissing), end, Done);
    Then(k, env, s, Registrar(n, node, ReconcileWaits), end, Done);
  }

  /** A registration that runs undisturbed is the atomic one. */
  lemma RegisterAlone(k: Crypto, env: Env, s: State, n: Id, node: Node)
    requires Fair(env)
    ensures Leads(k, env, s, Registrar(n, node, PutNode), Register(k, s, env, n, node), Done)
  {
    hide Fair, Leads, Reconcile, UploadMove, RecoveryMove, DownloadMove, DeleteMove;
    var put := s.(nodes := s.nodes[n := node.(status := Online)]);
    ReconcileAlone(k, env, put, n, node);
    Then(k, env, s, Registrar(n, node, PutNode), Register(k, s, env, n, node), Done);
  }

  // ---------- download ----------

  /** Where one chunk's failover loop leaves the download. */
  function AfterChunk(f: Id, r: Reading, data: Option<Bytes>): Thread {
    match data
    case None => Done
    case Some(plain) => Downloader(f, NextChunk(r.(i := r.i + 1, got := r.got + plain)))
  }

  lemma {:induction false} RowsAlone(k: Crypto, env: Env, s: State, f: Id, r: Reading, rows: seq<Row>, j: nat)
    requires Fair(env) && r.i < |r.cs| && r.cs[r.i] in s.chunks && r.nodeMap == s.nodes && j <= |rows|
    ensures var (t, data) := TryRows(k, env, s, r.file.encrypted, r.cs[r.i], s.chunks[r.cs[r.i]].sha, rows[j..]);
            Leads(k, env, s, Downloader(f, TryReplica(r, rows, j)), t, AfterChunk(f, r, data))
    decreases |rows| - j
  {
    hide Fair, Leads, Plain, ChunkList, StoredRows, UploadMove, RecoveryMove, RegisterMove, DeleteMove, SetStatus;
    var c, here := r.cs[r.i], Downloader(f, TryReplica(r, rows, j));
    var (t, data) := TryRows(k, env, s, r.file.encrypted, c, s.chunks[c].sha, rows[j..]);
    if j == |rows| {
      Here(k, env, s, Done);
      Then(k, env, s, here, s, Done);
    } else {
      assert rows[j..][1..] == rows[j + 1..];
      match FetchOf(k, env, s, r.file.encrypted, c, s.chunks[c].sha, rows[j].node) {
        case Skip => RowsAlone(k, env, s, f, r, rows, j + 1);
        case Good(plain) => Here(k, env, s, AfterChunk(f, r, Some(plain)));
        case Bad =>
          var s1 := SetStatus(s, c, rows[j].node, ReplicaStatus.Corrupted);
          StatusKeepsTables(s, c, rows[j].node, ReplicaStatus.Corrupted);
          RowsAlone(k, env, s1, f, r, rows, j + 1);
          Then(k, env, s, Downloader(f, Distrust(r, rows, j)), t, AfterChunk(f, r, data));
      }
      Then(k, env, s, here, t, AfterChunk(f, r, data));
    }
  }

  lemma StatusKeepsTables(s: State, c: Id, n: Id, status: ReplicaStatus)
    ensures SetStatus(s, c, n, status) == s.(replicas := SetStatus(s, c, n, status).replicas)
  {}

  /** Where the generator and the final hash check leave the download. */
  function AfterAll(k: Crypto, f: Id, file: File, got: Bytes, rest: Option<Bytes>): Thread {
    match rest
    case None => Done
    case Some(bytes) => if k.hash(got + bytes) == file.digest then Returned(f, got + bytes) else Done
  }

  lemma {:induction false} ReadingAlone(k: Crypto, env: Env, s: State, f: Id, r: Reading)
    requires Fair(env) && r.i <= |r.cs| && r.nodeMap == s.nodes && forall c :: c in r.cs ==> c in s.chunks
    ensures var (t, rest) := FetchAll(k, env, s, r.file.encrypted, r.cs[r.i..]);
            Leads(k, env, s, Downloader(f, NextChunk(r)), t, AfterAll(k, f, r.file, r.got, rest))
    decreases |r.cs| - r.i
  {
    hide Fair, Leads, ChunkList, StoredRows, TryRows, Downgrade, Downgraded, UploadMove, RecoveryMove, RegisterMove,
         DeleteMove;
    var here, enc := Downloader(f, NextChunk(r)), r.file.encrypted;
    var (t, rest) := FetchAll(k, env, s, enc, r.cs[r.i..]);
    var last := AfterAll(k, f, r.file, r.got, rest);
    if r.i == |r.cs| {
      assert r.got + [] == r.got;
      Here(k, env, s, last);
    } else {
      var c := r.cs[r.i];
      var rows := StoredRows(s.replicas, env, c);
      var (s1, data) := FetchChunk(k, env, s, enc, c);
      assert rows[0..] == rows && r.cs[r.i..][1..] == r.cs[r.i + 1..];
      RowsAlone(k, env, s, f, r, rows, 0);
      FetchChunkTables(k, env, s, enc, c);
      DowngradeTables(s, c, Downgraded(k, env, s, enc, c));
      if data.Some? {
        var later := r.(i := r.i + 1, got := r.got + data.value);
        ReadingAlone(k, env, s1, f, later);
        GotGrows(r.got, data.value, FetchAll(k, env, s1, enc, r.cs[r.i + 1..]).1);
        Onward(k, env, s, Downloader(f, TryReplica(r, rows, 0)), s1, Downloader(f, NextChunk(later)), t, last);
      }
    }
    Then(k, env, s, here, t, last);
  }

  lemma GotGrows(got: Bytes, data: Bytes, rest: Option<Bytes>)
    ensures rest.Some? ==> (got + data) + rest.value == got + (data + rest.value)
  {}

  /** A download that runs undisturbed is the atomic download. */
  lemma DownloadAlone(k: Crypto, env: Env, s: State, f: Id)
    requires Fair(env)
    ensures var (t, data) := Download(k, env, s, f);
            Leads(k, env, s, Downloader(f, ReadFile), t, if data.None? then Done else Returned(f, data.value))
  {
    hide Fair, Leads, ChunkList, FetchAll, UploadMove, RecoveryMove, RegisterMove, DeleteMove;
    var (t, data) := Download(k, env, s, f);
    var last := if data.None? then Done else Returned(f, data.value);
    if f !in s.files {
      Here(k, env, s, Done);
    } else {
      var file, cs := s.files[f], ChunkList(s.chunks, env, f);
      var rest := FetchAll(k, env, s, file.encrypted, cs).1;
      assert cs[0..] == cs && (rest.Some? ==> [] + rest.value == rest.value);
      ReadingAlone(k, env, s, f, Reading(file, cs, s.nodes, 0, []));
      Then(k, env, s, Downloader(f, ReadNodeMap(file, cs)), t, last);
      Then(k, env, s, Downloader(f, ReadChunks(file)), t, last);
    }
    Then(k, env, s, Downloader(f, ReadFile), t, last);
  }

  // ---------- delete ----------

  lemma {:induction false} CopiesAlone(k: Crypto, env: Env, s: State, f: Id, cs: seq<Id>, i: nat, rows: seq<Row>,
      j: nat)
    requires Fair(env) && i < |cs| && j <= |rows| && rows == ChunkRows(s.replicas, env, cs[i])
    ensures Leads(k, env, s.(disk := WithoutRows(env, s, rows[..j])), Deleter(f, EachRow(cs, s.nodes, i, rows, j)),
                  s.(disk := WithoutRows(env, s, rows)), Deleter(f, EachChunk(cs, s.nodes, i + 1)))
    decreases |rows| - j
  {
    hide Fair, Leads, ChunkRows, WithoutRows, Removed, UploadMove, RecoveryMove, RegisterMove, DownloadMove;
    var now, end := s.(disk := WithoutRows(env, s, rows[..j])), s.(disk := WithoutRows(env, s, rows));
    var last := Deleter(f, EachChunk(cs, s.nodes, i + 1));
    if j == |rows| {
      assert rows[..j] == rows;
      Here(k, env, end, last);
    } else {
      ListedRow(s, env, cs[i], rows[j]);
      EraseNext(env, s, rows, j);
      CopiesAlone(k, env, s, f, cs, i, rows, j + 1);
    }
    Then(k, env, now, Deleter(f, EachRow(cs, s.nodes, i, rows, j)), end, last);
  }

  lemma {:induction false} DeletesAlone(k: Crypto, env: Env, s: State, f: Id, cs: seq<Id>, i: nat)
    requires Fair(env) && i <= |cs|
    ensures Leads(k, env, s.(disk := WithoutCopies(env, s, Elements(cs[..i]))), Deleter(f, EachChunk(cs, s.nodes, i)),
                  s.(files := s.files - {f}, disk := WithoutCopies(env, s, Elements(cs))), Done)
    decreases |cs| - i
  {
    hide Fair, Leads, ChunkRows, WithoutCopies, WithoutRows, UploadMove, RecoveryMove, RegisterMove, DownloadMove;
    var now := s.(disk := WithoutCopies(env, s, Elements(cs[..i])));
    var end := s.(files := s.files - {f}, disk := WithoutCopies(env, s, Elements(cs)));
    if i == |cs| {
      assert cs[..i] == cs;
      Here(k, env, end, Done);
    } else {
      var rows := ChunkRows(s.replicas, env, cs[i]);
      NoneErased(env, now, cs[i], rows);
      CopiesAlone(k, env, now, f, cs, i, rows, 0);
      RowsErased(env, now, cs[i], rows);
      CopiesNext(env, s, Elements(cs[..i]), cs[i]);
      assert cs[..i + 1] == cs[..i] + [cs[i]];
      assert Elements(cs[..i + 1]) == Elements(cs[..i]) + {cs[i]};
      DeletesAlone(k, env, s, f, cs, i + 1);
      var later := s.(disk := WithoutCopies(env, s, Elements(cs[..i + 1])));
      Onward(k, env, now, Deleter(f, EachRow(cs, s.nodes, i, rows, 0)), later,
             Deleter(f, EachChunk(cs, s.nodes, i + 1)), end, Done);
    }
    Then(k, env, now, Deleter(f, EachChunk(cs, s.nodes, i)), end, Done);
  }

  /** A delete that runs undisturbed is the atomic delete. */
  lemma DeleteAlone(k: Crypto, env: Env, s: State, f: Id)
    requires Fair(env)
    ensures Leads(k, env, s, Deleter(f, FindFile), Delete(env, s, f), Done)
  {
    hide Fair, Leads, ChunkList, WithoutCopies, Erased, UploadMove, RecoveryMove, RegisterMove, DownloadMove;
    var end := Delete(env, s, f);
    if f !in s.files {
      Here(k, env, s, Done);
    } else {
      var cs := ChunkList(s.chunks, env, f);
      DeleteIs(env, s, f, cs);
      NothingErased(env, s, cs);
      DeletesAlone(k, env, s, f, cs, 0);
      Then(k, env, s, Deleter(f, FindNodes(cs)), end, Done);
      Then(k, env, s, Deleter(f, FindChunks), end, Done);
    }
    Then(k, env, s, Deleter(f, FindFile), end, Done);
  }

  // ---------- in the machine ----------

  function Repeat(a: Action, n: nat): seq<Action> {
    if n == 0 then [] else [a] + Repeat(a, n - 1)
  }

  /** A thread left alone while the lock is free, or its own, can make any number of moves. */
  lemma {:induction false} RunsAlone(k: Crypto, w: Machine, tid: nat, env: Env, n: nat)
    requires Fair(env) && MachineOk(k, w) && tid in w.threads && (w.lock.None? || w.lock == Some(tid))
    ensures Schedule(k, w, Repeat(Advance(tid, env), n))
    ensures var v := Play(k, w, Repeat(Advance(tid, env), n));
            && tid in v.threads && (v.h.s, v.threads[tid]) == Iterate(k, env, w.h.s, w.threads[tid], n)
            && MachineOk(k, v) && (v.lock.None? || v.lock == Some(tid))
    decreases n
  {
    hide Fair, MachineOk, Move, Act;
    if n > 0 {
      var a := Advance(tid, env);
      MayMove(k, w, tid, env);
      var next := Happen(k, w, a);
      ActionKeeps(k, w, a);
      ChangedIs(w.h, Move(k, env, w.h.s, w.threads[tid]).1);
      RunsAlone(k, next, tid, env, n - 1);
      assert Repeat(a, n)[1..] == Repeat(a, n - 1);
    }
  }

  lemma MayMove(k: Crypto, w: Machine, tid: nat, env: Env)
    requires Fair(env) && MachineOk(k, w) && tid in w.threads && (w.lock.None? || w.lock == Some(tid))
    ensures Possible(k, w, Advance(tid, env))
    ensures var lock := Happen(k, w, Advance(tid, env)).lock; lock.None? || lock == Some(tid)
  {
    hide Fair, SharedOk, ThreadsOk, OneUploadEach, Move, Act, Inside;
    MoveLocks(k, env, w.h.s, w.threads[tid]);
  }

  /** What the atomic layer says of a request, given its thread at the start. */
  ghost function Atomic(k: Crypto, env: Env, s: State, t: Thread): State
    requires Fair(env)
  {
    match t
    case Uploader(job, _) => Upload(k, env, job, s).0
    case Recoverer(n, _) => RecoverNode(k, s, env, n)
    case Registrar(n, node, _) => Register(k, s, env, n, node)
    case Downloader(f, _) => Download(k, env, s, f).0
    case Deleter(f, _) => Delete(env, s, f)
    case _ => s
  }

  predicate Starting(t: Thread) {
    (t.Uploader? && t.up.MakeFile?) || Newcomer(t)
  }

  /** The fine machine refines into the atomic steps: scheduled alone, every kind of request runs to its end and leaves
      exactly the state its atomic operation says, with the lock free again. */
  lemma AloneIsAtomic(k: Crypto, w: Machine, tid: nat, env: Env) returns (n: nat)
    requires Fair(env) && MachineOk(k, w) && w.lock.None? && tid in w.threads && Starting(w.threads[tid])
    ensures var run := Repeat(Advance(tid, env), n);
            && Schedule(k, w, run)
            && Play(k, w, run).h.s == Atomic(k, env, w.h.s, w.threads[tid])
            && tid in Play(k, w, run).threads
            && (Play(k, w, run).threads[tid].Done? || Play(k, w, run).threads[tid].Returned?)
            && Play(k, w, run).lock.None?
  {
    hide Fair, MachineOk, Iterate, Upload, RecoverNode, Register, Download, Delete, Play, Schedule, Repeat;
    var t, s := w.threads[tid], w.h.s;
    match t {
      case Uploader(job, _) => UploadAlone(k, env, s, job);
      case Recoverer(x, _) => RecoverAlone(k, env, s, x);
      case Registrar(x, node, _) => RegisterAlone(k, env, s, x, node);
      case Downloader(f, _) => DownloadAlone(k, env, s, f);
      case Deleter(f, _) => DeleteAlone(k, env, s, f);
    }
    var last := if t.Downloader? && Download(k, env, s, t.f).1.Some?
                then Returned(t.f, Download(k, env, s, t.f).1.value)
                else Done;
    assert Leads(k, env, s, t, Atomic(k, env, s, t), last);
    n :| Iterate(k, env, s, t, n) == (Atomic(k, env, s, t), last);
    RunsAlone(k, w, tid, env, n);
    OutsideMeansFree(k, Play(k, w, Repeat(Advance(tid, env), n)), tid);
  }

  lemma OutsideMeansFree(k: Crypto, w: Machine, tid: nat)
    requires MachineOk(k, w) && tid in w.threads && !Inside(w.threads[tid]) && (w.lock.None? || w.lock == Some(tid))
    ensures w.lock.None?
  {
    hide SharedOk, ThreadsOk, OneUploadEach, Inside;
  }
}
