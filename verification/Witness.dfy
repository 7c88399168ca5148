/** A run, from an empty cluster and without tampering, in which an ACTIVE file cannot be downloaded. */
module Witness {
  import opened Types
  import opened Naming
  import opened Chunking
  import opened Placement
  import opened Recovery
  import opened Transfers
  import opened Downloads
  import opened Runs
  import opened Interleaving
  import opened Races
  import opened Endurance
  import opened Hazards
  import opened Solo
  import opened RecoveryServices

  /** Reached from an empty cluster by a schedule in which nothing outside the system touches a disk. */
  ghost predicate Reached(k: Crypto, w: Machine) {
    exists start: Machine, actions: seq<Action> ::
      Idle(start) && Schedule(k, start, actions) && Play(k, start, actions) == w && Untampered(actions)
  }

  lemma {:induction false} PlayAppend(k: Crypto, w: Machine, a: seq<Action>, b: seq<Action>)
    requires Schedule(k, w, a) && Schedule(k, Play(k, w, a), b)
    ensures Schedule(k, w, a + b) && Play(k, w, a + b) == Play(k, Play(k, w, a), b)
    decreases |a|
  {
    hide Possible, Happen;
    if a == [] {
      assert a + b == b;
    } else {
      PlayAppend(k, Happen(k, w, a[0]), a[1..], b);
      assert (a + b)[1..] == a[1..] + b;
    }
  }

  lemma ReachMore(k: Crypto, w: Machine, more: seq<Action>)
    requires Reached(k, w) && Schedule(k, w, more) && Untampered(more)
    ensures Reached(k, Play(k, w, more)) && MachineOk(k, Play(k, w, more))
  {
    hide Schedule, Play, MachineOk, Idle;
    var start: Machine, actions: seq<Action> :|
      Idle(start) && Schedule(k, start, actions) && Play(k, start, actions) == w && Untampered(actions);
    PlayAppend(k, start, actions, more);
    assert Play(k, start, actions + more) == Play(k, w, more);
    IdleIsOk(k, start);
    PlayKeeps(k, start, actions + more);
  }

  lemma ReachOne(k: Crypto, w: Machine, a: Action)
    requires Reached(k, w) && Possible(k, w, a) && !a.TamperWith?
    ensures Reached(k, Happen(k, w, a)) && MachineOk(k, Happen(k, w, a))
  {
    hide Possible, Happen, MachineOk, Reached;
    assert Schedule(k, w, [a]) && Play(k, w, [a]) == Happen(k, w, a) by { One(k, w, a); }
    ReachMore(k, w, [a]);
  }

  lemma One(k: Crypto, w: Machine, a: Action)
    requires Possible(k, w, a)
    ensures Schedule(k, w, [a]) && Play(k, w, [a]) == Happen(k, w, a)
  {
    hide Possible, Happen;
    assert [a][1..] == [];
  }

  /** A thread moved alone, in a reached machine whose lock is free or the thread's. */
  lemma ReachAlong(k: Crypto, w: Machine, tid: nat, env: Env, s: State, t: Thread) returns (v: Machine)
    requires Fair(env) && Reached(k, w) && MachineOk(k, w) && w.lock.None? && tid in w.threads
    requires Leads(k, env, w.h.s, w.threads[tid], s, t) && !Inside(t)
    ensures Reached(k, v) && MachineOk(k, v) && v.lock.None? && v.h.s == s && tid in v.threads && v.threads[tid] == t
    ensures forall other :: other in w.threads && other != tid ==>
              other in v.threads && v.threads[other] == w.threads[other]
    ensures v.threads.Keys == w.threads.Keys && v.h.jobs == w.h.jobs
  {
    hide Fair, MachineOk, Iterate, Play, Schedule, Inside, Reached;
    var n: nat :| Iterate(k, env, w.h.s, w.threads[tid], n) == (s, t);
    RunsAlone(k, w, tid, env, n);
    NoTamperIn(Advance(tid, env), n);
    v := Play(k, w, Repeat(Advance(tid, env), n));
    ReachMore(k, w, Repeat(Advance(tid, env), n));
    OutsideMeansFree(k, v, tid);
    OthersStill(k, w, tid, env, n);
  }

  lemma {:induction false} NoTamperIn(a: Action, n: nat)
    requires !a.TamperWith?
    ensures Untampered(Repeat(a, n))
  {
    if n > 0 {
      NoTamperIn(a, n - 1);
    }
  }

  lemma {:induction false} OthersStill(k: Crypto, w: Machine, tid: nat, env: Env, n: nat)
    requires tid in w.threads && Schedule(k, w, Repeat(Advance(tid, env), n))
    ensures var v := Play(k, w, Repeat(Advance(tid, env), n));
            && v.threads.Keys == w.threads.Keys && v.h.jobs == w.h.jobs
            && forall other :: other in w.threads && other != tid ==> v.threads[other] == w.threads[other]
    decreases n
  {
    hide Fair, Move, Act;
    if n > 0 {
      var a := Advance(tid, env);
      assert Repeat(a, n)[1..] == Repeat(a, n - 1);
      HistoriesGrow(w.h, Move(k, env, w.h.s, w.threads[tid]).1);
      OthersStill(k, Happen(k, w, a), tid, env, n - 1);
    }
  }

  // ---------- one node, one chunk ----------

  lemma OneNode(env: Env, n: Id, node: Node)
    requires Fair(env) && node.status.Online?
    ensures OnlineRows(map[n := node], env) == [NodeRow(n, node)]
  {
    hide OnlineRows, Fair;
    var nodes := map[n := node];
    var rows := OnlineRows(nodes, env);
    NodeRowsHas(nodes, env, NodeRow(n, node));
    OnlineRowsDistinct(nodes, env);
    forall i | 0 <= i < |rows| ensures rows[i] == NodeRow(n, node) {
      NodeRowsHas(nodes, env, rows[i]);
      assert rows[i] in rows;
    }
    assert |rows| >= 2 ==> rows[0].id != rows[1].id;
  }

  lemma FilterOne<T>(x: T, p: T -> bool)
    requires p(x)
    ensures Filter([x], p) == [x]
  {
    assert [x][1..] == [];
  }

  lemma OneChoice(size: nat, r: NodeRow)
    requires r.node.status.Online? && r.node.avail >= size
    ensures Select(size, [r], 1, {}) == Some([r])
  {
    var excluded: set<Id> := {};
    FilterOne(r, (r: NodeRow) => r.node.status.Online? && r.id !in excluded && r.node.avail >= size);
    assert Candidates(size, [r], excluded) == [r];
    assert [r][..0] == [];
    assert StableSort([r], ByScore) == [r];
  }

  /** An unencrypted one-byte file in one chunk with one replica. */
  function SmallJob(f: Id): Job {
    Job(f, [0], 1, 1, false)
  }

  lemma OnePiece(k: Crypto, f: Id)
    ensures Pieces([0], 1) == [[0]]
    ensures JobRows(k, SmallJob(f)) == [Model(k, f, 0, [0])]
  {
    hide ChunkId;
    var b: Bytes := [0];
    assert Read(b, 0, 1) == b && Read(b, 1, 1) == [];
    assert PiecesFrom(b, 1, 1) == [];
    assert PiecesFrom(b, 0, 1) == [b] + PiecesFrom(b, 1, 1);
  }

  // ---------- the race ----------

  /** Every call is answered, and no node claims to have a chunk already. */
  ghost predicate Calm(env: Env) {
    Fair(env) && forall c, n :: env.reply(c, n).Answered? && !env.verify(c, n)
  }

  function Empty(n: Id, node: Node): State {
    State(map[n := node], map[], map[], map[], map[])
  }

  function SmallTurn(n: Id, node: Node): Turn {
    Turn([NodeRow(n, node)], 0, [NodeRow(n, node)], 0, [0])
  }

  /** The upload has sent its byte and is about to add its one row. */
  function Sent(k: Crypto, f: Id, n: Id, node: Node): State {
    Empty(n, node).(files := map[f := FileRow(k, SmallJob(f), FileStatus.Uploading)],
                    chunks := map[ChunkId(f, 0) := Model(k, f, 0, [0]).chunk],
                    disk := map[(ChunkId(f, 0), n) := [0]])
  }

  lemma SmallCreated(k: Crypto, f: Id, n: Id, node: Node)
    ensures Created(k, SmallJob(f), Empty(n, node)) == Sent(k, f, n, node).(disk := map[])
  {
    hide ChunkId, Pieces, FileRow;
    OnePiece(k, f);
    var row := Model(k, f, 0, [0]);
    assert [row][1..] == [];
    assert AddChunks(map[], [row]) == map[row.id := row.chunk];
  }

  lemma SmallUploadSends(k: Crypto, env: Env, f: Id, n: Id, node: Node)
    requires Calm(env) && node.status.Online? && node.avail >= 1
    ensures Leads(k, env, Empty(n, node), Uploader(SmallJob(f), MakeFile),
                  Sent(k, f, n, node), Uploader(SmallJob(f), AddReplica(SmallTurn(n, node))))
  {
    hide Fair, Leads, ChunkId, Pieces, FileRow, OnlineRows, Select, AddChunks, JobRows, RecoveryMove, RegisterMove,
         DownloadMove, DeleteMove;
    var made, end := Created(k, SmallJob(f), Empty(n, node)), Sent(k, f, n, node);
    var turn := SmallTurn(n, node);
    var last := Uploader(SmallJob(f), AddReplica(turn));
    SmallCreated(k, f, n, node);
    OnePiece(k, f);
    OneNode(env, n, node);
    OneChoice(1, NodeRow(n, node));
    FilesAlone(k, env, Empty(n, node), SmallJob(f));
    Here(k, env, end, last);
    Then(k, env, made, Uploader(SmallJob(f), Send(turn)), end, last);
    Then(k, env, made, Uploader(SmallJob(f), Probe(turn)), end, last);
    SmallChoice(k, env, f, n, node, made, end, last);
    ReadNodesAlone(k, env, made, SmallJob(f), end, last);
    Onward(k, env, Empty(n, node), Uploader(SmallJob(f), MakeFile), made, Uploader(SmallJob(f), ReadNodes), end, last);
  }

  lemma SmallChoice(k: Crypto, env: Env, f: Id, n: Id, node: Node, made: State, end: State, last: Thread)
    requires Fair(env) && node.status.Online? && node.avail >= 1
    requires Leads(k, env, made, Uploader(SmallJob(f), Probe(SmallTurn(n, node))), end, last)
    ensures Leads(k, env, made, Uploader(SmallJob(f), Choose([NodeRow(n, node)], 0)), end, last)
  {
    hide Fair, Leads, ChunkId, Pieces, FileRow, OnlineRows, Select, AddChunks, JobRows, RecoveryMove, RegisterMove,
         DownloadMove, DeleteMove;
    OnePiece(k, f);
    OneChoice(1, NodeRow(n, node));
    Then(k, env, made, Uploader(SmallJob(f), Choose([NodeRow(n, node)], 0)), end, last);
  }

  /** After a pass over the node, the upload still records its row and declares the file ACTIVE. */
  function Raced(k: Crypto, f: Id, n: Id, node: Node): State {
    Sent(k, f, n, node).(nodes := map[n := node.(status := Offline)],
                         files := map[f := FileRow(k, SmallJob(f), FileStatus.Active)],
                         replicas := map[(ChunkId(f, 0), n) := Replica(1, Stored)])
  }

  lemma SmallUploadEnds(k: Crypto, env: Env, f: Id, n: Id, node: Node)
    requires Fair(env)
    ensures Leads(k, env, Down(Sent(k, f, n, node), n), Uploader(SmallJob(f), AddReplica(SmallTurn(n, node))),
                  Raced(k, f, n, node), Done)
  {
    hide Fair, Leads, ChunkId, Pieces, OnlineRows, Select, AddChunks, JobRows, Concat, RecoveryMove, RegisterMove,
         DownloadMove, DeleteMove;
    var s, end, turn := Down(Sent(k, f, n, node), n), Raced(k, f, n, node), SmallTurn(n, node);
    OnePiece(k, f);
    var recorded := AddRow(s, ChunkId(f, 0), n, 1);
    OutcomeAlone(k, env, recorded, SmallJob(f), true);
    assert recorded.(files := WithStatus(recorded.files, f, FileStatus.Active)) == end;
    Then(k, env, recorded, Uploader(SmallJob(f), Choose(turn.active, 1)), end, Done);
    Then(k, env, recorded, Uploader(SmallJob(f), Probe(turn.(j := 1))), end, Done);
    Then(k, env, s, Uploader(SmallJob(f), AddReplica(turn)), end, Done);
  }

  /** No environment lets a download of the file succeed. */
  lemma RacedFails(k: Crypto, env: Env, f: Id, n: Id, node: Node)
    requires Fair(env)
    ensures Download(k, env, Raced(k, f, n, node), f).1.None?
  {
    hide ChunkId, Download, ServedAll, ChunkList, DownloadLoses, Downgraded, Pieces, Concat, Holders;
    var s, c := Raced(k, f, n, node), ChunkId(f, 0);
    DownloadExact(k, env, s, f);
    assert !Servable(k, env, s, false, c) by {
      forall x | x in Holders(s, c) ensures !FetchOf(k, env, s, false, c, s.chunks[c].sha, x).Good? {
        HoldersHas(s, c, x);
      }
    }
  }

  lemma EmptyCluster() returns (w: Machine)
    ensures Idle(w) && w.h.s == State(map[], map[], map[], map[], map[])
  {
    w := Machine(Shared(State(map[], map[], map[], map[], map[]), map[], {}, {}), None, map[]);
  }

  lemma SmallRegister(k: Crypto, env: Env, n: Id, node: Node)
    requires node.status.Online?
    ensures Register(k, State(map[], map[], map[], map[], map[]), env, n, node) == Empty(n, node)
  {}

  /** A cluster of one registered node. */
  lemma NodeUp(k: Crypto, env: Env, n: Id, node: Node) returns (w: Machine)
    requires Fair(env) && node.status.Online?
    ensures Reached(k, w) && MachineOk(k, w) && w.h.s == Empty(n, node) && w.h.jobs == map[] && w.lock.None?
    ensures w.threads == map[0 := Done]
  {
    hide Fair, Leads, Reached, MachineOk, Register, Move, Inside, Idle;
    var start := EmptyCluster();
    assert start.h.jobs == map[] && start.lock.None? && start.threads == map[] by { IdleMeans(start); }
    IdleReached(k, start);
    var a := StartRegister(0, n, node);
    ReachOne(k, start, a);
    w := Happen(k, start, a);
    RegisterAlone(k, env, start.h.s, n, node);
    SmallRegister(k, env, n, node);
    UploadersAreOutside(Done);
    w := ReachAlong(k, w, 0, env, Empty(n, node), Done);
  }

  lemma IdleMeans(w: Machine)
    requires Idle(w)
    ensures w.h.jobs == map[] && w.lock.None? && w.threads == map[]
  {}

  lemma IdleReached(k: Crypto, w: Machine)
    requires Idle(w)
    ensures Reached(k, w)
  {
    hide Idle;
    var none: seq<Action> := [];
    assert Schedule(k, w, none) && Play(k, w, none) == w && Untampered(none);
  }

  function Adding(f: Id, n: Id, node: Node): Thread {
    Uploader(SmallJob(f), AddReplica(SmallTurn(n, node)))
  }

  /** The upload has chosen the node and sent the byte; its row is still to be recorded. */
  lemma UploadPending(k: Crypto, env: Env, f: Id, n: Id, node: Node) returns (w: Machine)
    requires Calm(env) && node.status.Online? && node.avail >= 1
    ensures Reached(k, w) && MachineOk(k, w) && w.lock.None? && w.h.s == Sent(k, f, n, node)
    ensures w.threads == map[0 := Done, 1 := Adding(f, n, node)]
  {
    hide Fair, Leads, Reached, MachineOk, Sent, Empty, Move, Inside;
    w := NodeUp(k, env, n, node);
    var a := StartUpload(1, SmallJob(f));
    ReachOne(k, w, a);
    w := Happen(k, w, a);
    SmallUploadSends(k, env, f, n, node);
    UploadersAreOutside(Adding(f, n, node));
    w := ReachAlong(k, w, 1, env, Sent(k, f, n, node), Adding(f, n, node));
  }

  /** A whole recovery pass over the node runs in between. */
  lemma PassBetween(k: Crypto, env: Env, f: Id, n: Id, node: Node) returns (w: Machine)
    requires Calm(env) && node.status.Online? && node.avail >= 1
    ensures Reached(k, w) && MachineOk(k, w) && w.lock.None? && w.h.s == Down(Sent(k, f, n, node), n)
    ensures w.threads == map[0 := Done, 1 := Adding(f, n, node), 2 := Done]
  {
    hide Fair, Leads, Reached, MachineOk, Sent, Move, Down, Inside, Adding;
    w := UploadPending(k, env, f, n, node);
    var b := StartRecover(2, n);
    ReachOne(k, w, b);
    w := Happen(k, w, b);
    RecoverAlone(k, env, Sent(k, f, n, node), n);
    NothingSentAffected(k, env, f, n, node);
    UploadersAreOutside(Done);
    w := ReachAlong(k, w, 2, env, Down(Sent(k, f, n, node), n), Done);
  }

  /** Durability does not survive interleaving: from an empty cluster, with every call answered and no tampering, an
      upload picks the node while it is ONLINE, a recovery pass takes the node OFFLINE and finishes, and the upload then
      records its row and reports success. The file is ACTIVE, every request is done, and no download can succeed. */
  lemma UploadRace(k: Crypto, env: Env, f: Id, n: Id, node: Node) returns (w: Machine)
    requires Calm(env) && node.status.Online? && node.avail >= 1
    ensures Reached(k, w) && w.lock.None? && forall tid :: tid in w.threads ==> w.threads[tid].Done?
    ensures f in w.h.s.files && w.h.s.files[f].status.Active? && w.h.s.files[f].rf >= 1
    ensures IsStored(w.h.s, ChunkId(f, 0), n) && !IsOnline(w.h.s, n) && !Upright(w)
    ensures forall later: Env :: Fair(later) ==> Download(k, later, w.h.s, f).1.None?
  {
    hide Fair, Leads, Reached, MachineOk, Raced, Sent, ChunkId, Download, Move, Down, Inside;
    w := PassBetween(k, env, f, n, node);
    SmallUploadEnds(k, env, f, n, node);
    UploadersAreOutside(Done);
    w := ReachAlong(k, w, 1, env, Raced(k, f, n, node), Done);
    forall later: Env | Fair(later) ensures Download(k, later, w.h.s, f).1.None? {
      RacedFails(k, later, f, n, node);
    }
    RacedIs(k, f, n, node);
  }

  lemma UploadersAreOutside(t: Thread)
    requires t.Uploader? || t.Done?
    ensures !Inside(t)
  {}

  lemma NothingSentAffected(k: Crypto, env: Env, f: Id, n: Id, node: Node)
    ensures RecoverNode(k, Sent(k, f, n, node), env, n) == Down(Sent(k, f, n, node), n)
  {
    hide RecoverNode, Down, ChunkId;
    NothingAffected(k, env, Sent(k, f, n, node), n);
  }

  lemma RacedIs(k: Crypto, f: Id, n: Id, node: Node)
    ensures var s := Raced(k, f, n, node);
            && f in s.files && s.files[f].status.Active? && s.files[f].rf == 1
            && IsStored(s, ChunkId(f, 0), n) && !IsOnline(s, n)
  {
    hide ChunkId, Pieces, Concat;
  }

  // ---------- one node, one chunk, one row ----------

  /** The cluster with the small file recorded in one row of the one node. */
  function Lone(k: Crypto, f: Id, n: Id, node: Node, row: ReplicaStatus, file: FileStatus): State {
    Sent(k, f, n, node).(files := map[f := FileRow(k, SmallJob(f), file)],
                         replicas := map[(ChunkId(f, 0), n) := Replica(1, row)])
  }

  lemma LoneMarked(k: Crypto, f: Id, n: Id, node: Node, row: ReplicaStatus, file: FileStatus)
    ensures Marked(Lone(k, f, n, node, row, file), n) == Lone(k, f, n, node.(status := Offline), Missing, file)
    ensures Affected(Lone(k, f, n, node, row, file), n) == {ChunkId(f, 0)}
  {
    hide ChunkId, FileRow, Model;
  }

  lemma LoneLost(k: Crypto, env: Env, f: Id, n: Id, node: Node, file: FileStatus)
    requires Fair(env)
    ensures PlanFor(Lone(k, f, n, node, Missing, file), env, ChunkId(f, 0)).NoSurvivor?
  {
    hide ChunkId, FileRow, Model, PlanFor, Fair;
    PlanMeans(Lone(k, f, n, node, Missing, file), env, ChunkId(f, 0));
  }

  lemma LostCopiesNothing(k: Crypto, m: State, env: Env, c: Id)
    requires PlanFor(m, env, c).NoSurvivor?
    ensures CopyOf(k, m, env, c).None? && !Recovers(k, m, env, c)
  {
    hide PlanFor;
  }

  lemma LonePass(k: Crypto, env: Env, f: Id, n: Id, node: Node, file: FileStatus)
    requires PlanFor(Lone(k, f, n, node, Missing, file), env, ChunkId(f, 0)).NoSurvivor?
    ensures Pass(k, Lone(k, f, n, node, Missing, file), env, {ChunkId(f, 0)})
            == Lone(k, f, n, node, Missing, FileStatus.Corrupted)
  {
    hide ChunkId, Pieces, Concat, PlanFor, Pass, CopyOf, Recovers;
    var m, c := Lone(k, f, n, node, Missing, file), ChunkId(f, 0);
    LostCopiesNothing(k, m, env, c);
    PassNothing(k, m, env);
    PassStep(k, m, env, {}, c);
    assert {} + {c} == {c};
  }

  /** Recovering the node dooms the file: its only row is gone. */
  lemma LoneRecovery(k: Crypto, env: Env, f: Id, n: Id, node: Node, row: ReplicaStatus, file: FileStatus)
    requires Fair(env)
    ensures RecoverNode(k, Lone(k, f, n, node, row, file), env, n)
            == Lone(k, f, n, node.(status := Offline), Missing, FileStatus.Corrupted)
  {
    hide ChunkId, Lone, Pass, Marked, Affected, PlanFor;
    LoneMarked(k, f, n, node, row, file);
    LoneLost(k, env, f, n, node.(status := Offline), file);
    LonePass(k, env, f, n, node.(status := Offline), file);
  }

  lemma LoneFile(k: Crypto, f: Id, n: Id, node: Node, row: ReplicaStatus, file: FileStatus)
    ensures var s := Lone(k, f, n, node, row, file);
            && f in s.files && s.files[f].status == file && s.files[f].rf == 1 && n in s.nodes && s.nodes[n] == node
            && (forall c, x :: IsStored(s, c, x) ==> row.Stored? && c == ChunkId(f, 0) && x == n)
            && (row.Stored? ==> IsStored(s, ChunkId(f, 0), n))
  {
    hide ChunkId, Pieces, Concat;
  }

  /** Without a STORED row no environment lets a download succeed. */
  lemma LoneFails(k: Crypto, env: Env, f: Id, n: Id, node: Node, file: FileStatus)
    requires Fair(env)
    ensures Download(k, env, Lone(k, f, n, node, Missing, file), f).1.None?
  {
    hide ChunkId, Download, ServedAll, ChunkList, DownloadLoses, Downgraded, Pieces, Concat, Holders;
    var s, c := Lone(k, f, n, node, Missing, file), ChunkId(f, 0);
    DownloadExact(k, env, s, f);
    assert !Servable(k, env, s, false, c) by {
      forall x ensures x !in Holders(s, c) { HoldersHas(s, c, x); }
    }
  }

  lemma SmallRecorded(k: Crypto, env: Env, f: Id, n: Id, node: Node)
    requires Fair(env)
    ensures Leads(k, env, Sent(k, f, n, node), Adding(f, n, node),
                  Lone(k, f, n, node, Stored, FileStatus.Uploading), Uploader(SmallJob(f), SetOutcome(true)))
  {
    hide Fair, Leads, ChunkId, Pieces, OnlineRows, Select, AddChunks, JobRows, Concat, RecoveryMove, RegisterMove,
         DownloadMove, DeleteMove;
    var s, end, turn := Sent(k, f, n, node), Lone(k, f, n, node, Stored, FileStatus.Uploading), SmallTurn(n, node);
    var last := Uploader(SmallJob(f), SetOutcome(true));
    OnePiece(k, f);
    Here(k, env, end, last);
    Then(k, env, end, Uploader(SmallJob(f), Choose(turn.active, 1)), end, last);
    Then(k, env, end, Uploader(SmallJob(f), Probe(turn.(j := 1))), end, last);
    Then(k, env, s, Adding(f, n, node), end, last);
  }

  lemma SmallDeclared(k: Crypto, env: Env, f: Id, n: Id, node: Node, row: ReplicaStatus, file: FileStatus)
    requires Fair(env)
    ensures Leads(k, env, Lone(k, f, n, node, row, file), Uploader(SmallJob(f), SetOutcome(true)),
                  Lone(k, f, n, node, row, FileStatus.Active), Done)
  {
    hide Fair, Leads, ChunkId, Pieces, Concat;
    var s := Lone(k, f, n, node, row, file);
    OutcomeAlone(k, env, s, SmallJob(f), true);
    assert s.(files := WithStatus(s.files, f, FileStatus.Active)) == Lone(k, f, n, node, row, FileStatus.Active);
  }

  /** A whole pass over the node by thread tid. */
  lemma PassOver(k: Crypto, w: Machine, env: Env, tid: nat, f: Id, n: Id, node: Node, row: ReplicaStatus,
      file: FileStatus)
    returns (v: Machine)
    requires Fair(env) && Reached(k, w) && MachineOk(k, w) && w.lock.None? && tid !in w.threads
    requires w.h.s == Lone(k, f, n, node, row, file)
    ensures Reached(k, v) && MachineOk(k, v) && v.lock.None?
    ensures v.h.s == Lone(k, f, n, node.(status := Offline), Missing, FileStatus.Corrupted)
    ensures v.threads == w.threads[tid := Done]
  {
    hide Fair, Leads, Reached, MachineOk, Lone, Move, Inside;
    var a := StartRecover(tid, n);
    ReachOne(k, w, a);
    v := Happen(k, w, a);
    RecoverAlone(k, env, w.h.s, n);
    LoneRecovery(k, env, f, n, node, row, file);
    UploadersAreOutside(Done);
    v := ReachAlong(k, v, tid, env, Lone(k, f, n, node.(status := Offline), Missing, FileStatus.Corrupted), Done);
  }

  /** The upload has recorded its row and is about to report success. */
  lemma UploadRecorded(k: Crypto, env: Env, f: Id, n: Id, node: Node) returns (w: Machine)
    requires Calm(env) && node.status.Online? && node.avail >= 1
    ensures Reached(k, w) && MachineOk(k, w) && w.lock.None?
            && w.h.s == Lone(k, f, n, node, Stored, FileStatus.Uploading)
    ensures w.threads == map[0 := Done, 1 := Uploader(SmallJob(f), SetOutcome(true))]
  {
    hide Fair, Leads, Reached, MachineOk, Lone, Sent, Move, Inside, Adding;
    w := UploadPending(k, env, f, n, node);
    SmallRecorded(k, env, f, n, node);
    UploadersAreOutside(Uploader(SmallJob(f), SetOutcome(true)));
    w := ReachAlong(k, w, 1, env, Lone(k, f, n, node, Stored, FileStatus.Uploading),
                    Uploader(SmallJob(f), SetOutcome(true)));
  }

  /** A second way to lose a file, without any row recorded late: the upload records its row while the node is ONLINE; a
      whole pass over the node marks the row MISSING and the file CORRUPTED; the upload's last access overwrites that
      with ACTIVE. No row is STORED anywhere, every request is done, and no download can succeed. */
  lemma OverwriteRace(k: Crypto, env: Env, f: Id, n: Id, node: Node) returns (w: Machine)
    requires Calm(env) && node.status.Online? && node.avail >= 1
    ensures Reached(k, w) && w.lock.None? && Upright(w) && forall tid :: tid in w.threads ==> w.threads[tid].Done?
    ensures f in w.h.s.files && w.h.s.files[f].status.Active? && w.h.s.files[f].rf >= 1
    ensures forall c, x :: !IsStored(w.h.s, c, x)
    ensures forall later: Env :: Fair(later) ==> Download(k, later, w.h.s, f).1.None?
  {
    hide Fair, Leads, Reached, MachineOk, Lone, ChunkId, Download, Move, Inside, IsStored, IsOnline;
    var off := node.(status := Offline);
    w := UploadRecorded(k, env, f, n, node);
    w := PassOver(k, w, env, 2, f, n, node, Stored, FileStatus.Uploading);
    SmallDeclared(k, env, f, n, off, Missing, FileStatus.Corrupted);
    UploadersAreOutside(Done);
    w := ReachAlong(k, w, 1, env, Lone(k, f, n, off, Missing, FileStatus.Active), Done);
    LoneFile(k, f, n, off, Missing, FileStatus.Active);
    forall later: Env | Fair(later) ensures Download(k, later, w.h.s, f).1.None? {
      LoneFails(k, later, f, n, off, FileStatus.Active);
    }
  }

  // ---------- a reconciliation that comes late ----------

  /** Every verify call is answered. */
  ghost predicate Vouching(env: Env) {
    Fair(env) && forall c, n :: env.verify(c, n)
  }

  lemma LoneReconciled(k: Crypto, env: Env, f: Id, n: Id, node: Node, file: FileStatus)
    requires Vouching(env)
    ensures Reconcile(k, Lone(k, f, n, node, Missing, file), env, n) == Lone(k, f, n, node, Stored, file)
  {
    hide ChunkId, Pieces, Concat, Fair;
    assert Flips(k, Lone(k, f, n, node, Missing, file), env, n, ChunkId(f, 0));
  }

  lemma LonePut(k: Crypto, env: Env, f: Id, n: Id, old': Node, node: Node, file: FileStatus)
    requires Fair(env) && node.status.Online?
    ensures Leads(k, env, Lone(k, f, n, old', Missing, file), Registrar(n, node, PutNode),
                  Lone(k, f, n, node, Missing, file), Registrar(n, node, ReconcileWaits))
  {
    hide Fair, Leads, ChunkId, Pieces, Concat, FileRow, UploadMove, RecoveryMove, DownloadMove, DeleteMove;
    var end := Lone(k, f, n, node, Missing, file);
    assert map[n := old'][n := node] == map[n := node] && node.(status := Online) == node;
    Here(k, env, end, Registrar(n, node, ReconcileWaits));
    Then(k, env, Lone(k, f, n, old', Missing, file), Registrar(n, node, PutNode), end,
         Registrar(n, node, ReconcileWaits));
  }

  /** The node has come back: its row is ONLINE, its MISSING replica is still to be reconciled. */
  lemma NodeBack(k: Crypto, env: Env, f: Id, n: Id, node: Node) returns (w: Machine)
    requires Calm(env) && node.status.Online? && node.avail >= 1
    ensures Reached(k, w) && MachineOk(k, w) && w.lock.None?
            && w.h.s == Lone(k, f, n, node, Missing, FileStatus.Corrupted)
    ensures w.threads == map[0 := Done, 1 := Done, 2 := Done, 3 := Registrar(n, node, ReconcileWaits)]
  {
    hide Fair, Leads, Reached, MachineOk, Lone, Move, Inside;
    var off := node.(status := Offline);
    w := UploadRecorded(k, env, f, n, node);
    SmallDeclared(k, env, f, n, node, Stored, FileStatus.Uploading);
    UploadersAreOutside(Done);
    w := ReachAlong(k, w, 1, env, Lone(k, f, n, node, Stored, FileStatus.Active), Done);
    w := PassOver(k, w, env, 2, f, n, node, Stored, FileStatus.Active);
    w := Comes(k, w, env, f, n, off, node);
  }

  lemma Comes(k: Crypto, w: Machine, env: Env, f: Id, n: Id, off: Node, node: Node) returns (v: Machine)
    requires Fair(env) && node.status.Online? && Reached(k, w) && MachineOk(k, w) && w.lock.None?
    requires w.h.s == Lone(k, f, n, off, Missing, FileStatus.Corrupted) && 3 !in w.threads
    ensures Reached(k, v) && MachineOk(k, v) && v.lock.None?
            && v.h.s == Lone(k, f, n, node, Missing, FileStatus.Corrupted)
    ensures v.threads == w.threads[3 := Registrar(n, node, ReconcileWaits)]
  {
    hide Fair, Leads, Reached, MachineOk, Lone, Move;
    var a := StartRegister(3, n, node);
    ReachOne(k, w, a);
    v := Happen(k, w, a);
    LonePut(k, env, f, n, off, node, FileStatus.Corrupted);
    v := ReachAlong(k, v, 3, env, Lone(k, f, n, node, Missing, FileStatus.Corrupted),
                    Registrar(n, node, ReconcileWaits));
  }

  /** Reconciliations can be late too: the node registers and is ONLINE, a recovery pass over it, due to an older
      heartbeat, gets the lock first and takes it OFFLINE, and the reconciliation then records the row STORED. */
  lemma ReconcileRace(k: Crypto, env: Env, vouch: Env, f: Id, n: Id, node: Node) returns (w: Machine)
    requires Calm(env) && Vouching(vouch) && node.status.Online? && node.avail >= 1
    ensures Reached(k, w) && w.lock.None? && forall tid :: tid in w.threads ==> w.threads[tid].Done?
    ensures IsStored(w.h.s, ChunkId(f, 0), n) && !IsOnline(w.h.s, n) && !Upright(w)
  {
    hide Fair, Leads, Reached, MachineOk, Lone, ChunkId, Move, Inside, IsStored, Reconcile;
    var off := node.(status := Offline);
    w := NodeBack(k, env, f, n, node);
    w := PassOver(k, w, env, 4, f, n, node, Missing, FileStatus.Corrupted);
    LoneFile(k, f, n, off, Missing, FileStatus.Corrupted);
    ReconcileAlone(k, vouch, w.h.s, n, node);
    LoneReconciled(k, vouch, f, n, off, FileStatus.Corrupted);
    UploadersAreOutside(Done);
    w := ReachAlong(k, w, 3, vouch, Lone(k, f, n, off, Stored, FileStatus.Corrupted), Done);
    LoneFile(k, f, n, off, Stored, FileStatus.Corrupted);
  }
}
