/** The same services one table access or remote call at a time, any number of them interleaved. A thread is a request
    in progress: what it is for and what it has read so far. Each move of a thread reads the shared state and produces
    one effect on it. Only recovery passes and reconciliations take the lock. */
module Interleaving {
  import opened Types
  import opened Chunking
  import opened Placement
  import opened Recovery
  import opened Transfers
  import opened Downloads
  import opened Runs

  /** One replica in the making: chunk i of the job to targets[j]. */
  datatype Turn = Turn(active: seq<NodeRow>, i: nat, targets: seq<NodeRow>, j: nat, payload: Bytes)

  datatype UploadStage =
    | MakeFile | MakeChunks | ReadNodes
    | Choose(active: seq<NodeRow>, i: nat)
    | Probe(turn: Turn) | Send(turn: Turn) | AddReplica(turn: Turn)
    | SetOutcome(ok: bool)

  /** What a recovery pass has read: the affected chunks, the ONLINE list and the node map. */
  datatype Progress = Progress(all: seq<Id>, online: seq<NodeRow>, nodeMap: map<Id, Node>, i: nat)

  /** One re-replication decided on: where from, where to, under which number, with which hash. */
  datatype Copying = Copying(chunk: Id, source: Id, target: Id, number: int, sha: Digest)

  datatype RecoveryStage =
    | RecoveryWaits | TakeOffline | ReadAffected
    | MarkMissing(all: seq<Id>, i: nat)
    | ReadOnline(all: seq<Id>) | ReadMap(all: seq<Id>, online: seq<NodeRow>)
    | Decide(pass: Progress) | Doom(pass: Progress)
    | Fetch(pass: Progress, copying: Copying) | Store(pass: Progress, copying: Copying, data: Bytes)
    | AddCopy(pass: Progress, copying: Copying)
    | RecoveryUnlocks

  datatype RegisterStage =
    | PutNode | ReconcileWaits | ReadMissing | ReadNode(missing: seq<Id>)
    | Ask(missing: seq<Id>, i: nat) | Flip(missing: seq<Id>, i: nat)
    | ReconcileUnlocks

  /** A download so far: the file row, its chunks, the node map, the next chunk and the bytes delivered. */
  datatype Reading = Reading(file: File, cs: seq<Id>, nodeMap: map<Id, Node>, i: nat, got: Bytes)

  datatype DownloadStage =
    | ReadFile | ReadChunks(file: File) | ReadNodeMap(file: File, cs: seq<Id>)
    | NextChunk(reading: Reading) | TryReplica(reading: Reading, rows: seq<Row>, j: nat)
    | Distrust(reading: Reading, rows: seq<Row>, j: nat)

  datatype DeleteStage =
    | FindFile | FindChunks | FindNodes(cs: seq<Id>)
    | EachChunk(cs: seq<Id>, nodeMap: map<Id, Node>, i: nat)
    | EachRow(cs: seq<Id>, nodeMap: map<Id, Node>, i: nat, rows: seq<Row>, j: nat)

  datatype Thread =
    | Uploader(job: Job, up: UploadStage)
    | Recoverer(n: Id, rec: RecoveryStage)
    | Registrar(id: Id, node: Node, reg: RegisterStage)
    | Downloader(f: Id, down: DownloadStage)
    | Deleter(file: Id, del: DeleteStage)
    | Returned(of: Id, data: Bytes)
    | Done

  /** What one move does to the shared state. */
  datatype Effect =
    | Quiet
    | PutsNode(n: Id, node: Node) | TakesOffline(n: Id)
    | CreatesFile(f: Id, file: File) | CreatesChunks(f: Id, rows: seq<ChunkRow>)
    | SetsFile(f: Id, outcome: FileStatus) | DropsFile(f: Id)
    | PutsRow(c: Id, n: Id, number: int) | SetsRow(c: Id, n: Id, status: ReplicaStatus)
    | Writes(c: Id, n: Id, data: Bytes) | Erases(c: Id, n: Id)
    | Verifies(c: Id, n: Id)
    | BeginsDelete(f: Id)
    | Locks | Unlocks

  // ---------- one move of each kind of request ----------

  function UploadMove(k: Crypto, env: Env, s: State, job: Job, st: UploadStage): (Thread, Effect) {
    var rows := JobRows(k, job);
    match st
    case MakeFile => (Uploader(job, MakeChunks), CreatesFile(job.fileId, FileRow(k, job, FileStatus.Uploading)))
    case MakeChunks => (Uploader(job, ReadNodes), CreatesChunks(job.fileId, rows))
    case ReadNodes =>
      var active := OnlineRows(s.nodes, env);
      (Uploader(job, if active == [] then SetOutcome(false) else Choose(active, 0)), Quiet)
    case Choose(active, i) =>
      if i >= |rows| then (Uploader(job, SetOutcome(rows != [])), Quiet)
      else (match Select(rows[i].chunk.size, active, job.rf, {})
            case None => (Uploader(job, SetOutcome(false)), Quiet)
            case Some(targets) =>
              var payload := Payload(k, env, job, rows[i], Pieces(job.data, job.chunkSize)[i]);
              (Uploader(job, Probe(Turn(active, i, targets, 0, payload))), Quiet))
    case Probe(turn) =>
      if turn.i >= |rows| || turn.j >= |turn.targets| then (Uploader(job, Choose(turn.active, turn.i + 1)), Quiet)
      else
        var (c, n) := (rows[turn.i].id, turn.targets[turn.j].id);
        if !job.encrypted && env.verify(c, n) && (c, n) in s.disk && k.hash(s.disk[(c, n)]) == rows[turn.i].chunk.sha
        then (Uploader(job, AddReplica(turn)), Verifies(c, n))
        else (Uploader(job, Send(turn)), Quiet)
    case Send(turn) =>
      if turn.i >= |rows| || turn.j >= |turn.targets| then (Uploader(job, SetOutcome(false)), Quiet)
      else
        var (c, n) := (rows[turn.i].id, turn.targets[turn.j].id);
        if env.reply(c, n).Lost? || (!job.encrypted && k.hash(turn.payload) != rows[turn.i].chunk.sha)
        then (Uploader(job, SetOutcome(false)), Quiet)
        else (Uploader(job, if env.reply(c, n).Answered? then AddReplica(turn) else SetOutcome(false)),
              Writes(c, n, turn.payload))
    case AddReplica(turn) =>
      if turn.i >= |rows| || turn.j >= |turn.targets| then (Uploader(job, SetOutcome(false)), Quiet)
      else (Uploader(job, Probe(turn.(j := turn.j + 1))), PutsRow(rows[turn.i].id, turn.targets[turn.j].id, turn.j + 1))
    case SetOutcome(ok) => (Done, SetsFile(job.fileId, if ok then FileStatus.Active else FileStatus.Corrupted))
  }

  function DecideMove(env: Env, s: State, n: Id, pass: Progress): Thread {
    if pass.i >= |pass.all| then Recoverer(n, RecoveryUnlocks) else
    var c, next := pass.all[pass.i], Recoverer(n, Decide(pass.(i := pass.i + 1)));
    var rows := ChunkRows(s.replicas, env, c);
    var surviving := Surviving(pass.nodeMap, rows);
    if surviving == [] then Recoverer(n, Doom(pass))
    else if c !in s.chunks then next
    else match Select(s.chunks[c].size, pass.online, 1, Occupied(rows))
      case None => next
      case Some(targets) =>
        if targets == [] then next
        else Recoverer(n, Fetch(pass, Copying(c, surviving[0].node, targets[0].id,
                                              MaxNumber(rows) + 1, s.chunks[c].sha)))
  }

  function RecoveryMove(k: Crypto, env: Env, s: State, n: Id, st: RecoveryStage): (Thread, Effect) {
    match st
    case RecoveryWaits => (Recoverer(n, TakeOffline), Locks)
    case TakeOffline => (Recoverer(n, ReadAffected), TakesOffline(n))
    case ReadAffected =>
      var all := env.scan(RowsOnNode(n), Affected(s, n));
      (Recoverer(n, if all == [] then RecoveryUnlocks else MarkMissing(all, 0)), Quiet)
    case MarkMissing(all, i) =>
      if i >= |all| then (Recoverer(n, ReadOnline(all)), Quiet)
      else (Recoverer(n, MarkMissing(all, i + 1)), SetsRow(all[i], n, Missing))
    case ReadOnline(all) => (Recoverer(n, ReadMap(all, OnlineRows(s.nodes, env))), Quiet)
    case ReadMap(all, online) => (Recoverer(n, Decide(Progress(all, online, s.nodes, 0))), Quiet)
    case Decide(pass) => (DecideMove(env, s, n, pass), Quiet)
    case Doom(pass) =>
      var next := Recoverer(n, Decide(pass.(i := pass.i + 1)));
      if pass.i < |pass.all| && pass.all[pass.i] in s.chunks
      then (next, SetsFile(s.chunks[pass.all[pass.i]].fileId, FileStatus.Corrupted)) else (next, Quiet)
    case Fetch(pass, copying) =>
      if env.reply(copying.chunk, copying.target).Lost? || (copying.chunk, copying.source) !in s.disk
      then (Recoverer(n, Decide(pass.(i := pass.i + 1))), Quiet)
      else (Recoverer(n, Store(pass, copying, s.disk[(copying.chunk, copying.source)])), Quiet)
    case Store(pass, copying, data) =>
      var next := Recoverer(n, Decide(pass.(i := pass.i + 1)));
      if env.reply(copying.chunk, copying.target).Lost? || k.hash(data) != copying.sha then (next, Quiet)
      else (if env.reply(copying.chunk, copying.target).Answered? then Recoverer(n, AddCopy(pass, copying)) else next,
            Writes(copying.chunk, copying.target, data))
    case AddCopy(pass, copying) =>
      (Recoverer(n, Decide(pass.(i := pass.i + 1))), PutsRow(copying.chunk, copying.target, copying.number))
    case RecoveryUnlocks => (Done, Unlocks)
  }

  function MissingOn(env: Env, replicas: map<Key, Replica>, n: Id): seq<Id> {
    Filter(env.scan(RowsOnNode(n), set key | key in replicas && key.1 == n :: key.0),
           c => (c, n) in replicas && replicas[(c, n)].status.Missing?)
  }

  function RegisterMove(k: Crypto, env: Env, s: State, n: Id, node: Node, st: RegisterStage): (Thread, Effect) {
    match st
    case PutNode => (Registrar(n, node, ReconcileWaits), PutsNode(n, node.(status := Online)))
    case ReconcileWaits => (Registrar(n, node, ReadMissing), Locks)
    case ReadMissing => (Registrar(n, node, ReadNode(MissingOn(env, s.replicas, n))), Quiet)
    case ReadNode(missing) => (Registrar(n, node, if n in s.nodes then Ask(missing, 0) else ReconcileUnlocks), Quiet)
    case Ask(missing, i) =>
      if i >= |missing| then (Registrar(n, node, ReconcileUnlocks), Quiet)
      else
        var c := missing[i];
        if c in s.chunks && env.verify(c, n) && (c, n) in s.disk && k.hash(s.disk[(c, n)]) == s.chunks[c].sha
        then (Registrar(n, node, Flip(missing, i)), Verifies(c, n))
        else (Registrar(n, node, Ask(missing, i + 1)), Quiet)
    case Flip(missing, i) =>
      if i >= |missing| then (Registrar(n, node, ReconcileUnlocks), Quiet)
      else (Registrar(n, node, Ask(missing, i + 1)), SetsRow(missing[i], n, Stored))
    case ReconcileUnlocks => (Done, Unlocks)
  }

  /** One answer of a replica; the node's status comes from the map read at the start. */
  function TryMove(k: Crypto, env: Env, s: State, f: Id, r: Reading, rows: seq<Row>, j: nat): Thread {
    if r.i >= |r.cs| || j >= |rows| || r.cs[r.i] !in s.chunks then Done else
    var (c, n, next) := (r.cs[r.i], rows[j].node, Downloader(f, TryReplica(r, rows, j + 1)));
    if n !in r.nodeMap || !r.nodeMap[n].status.Online? || !env.reply(c, n).Answered? || (c, n) !in s.disk then next
    else match Plain(k, r.file.encrypted, s.disk[(c, n)])
      case None => next
      case Some(plain) =>
        if k.hash(plain) == s.chunks[c].sha then Downloader(f, NextChunk(r.(i := r.i + 1, got := r.got + plain)))
        else Downloader(f, Distrust(r, rows, j))
  }

  function DownloadMove(k: Crypto, env: Env, s: State, f: Id, st: DownloadStage): (Thread, Effect)
    requires Fair(env)
  {
    match st
    case ReadFile => (if f in s.files then Downloader(f, ReadChunks(s.files[f])) else Done, Quiet)
    case ReadChunks(file) => (Downloader(f, ReadNodeMap(file, ChunkList(s.chunks, env, f))), Quiet)
    case ReadNodeMap(file, cs) => (Downloader(f, NextChunk(Reading(file, cs, s.nodes, 0, []))), Quiet)
    case NextChunk(r) =>
      if r.i >= |r.cs| then (if k.hash(r.got) == r.file.digest then Returned(f, r.got) else Done, Quiet)
      else (Downloader(f, TryReplica(r, StoredRows(s.replicas, env, r.cs[r.i]), 0)), Quiet)
    case TryReplica(r, rows, j) => (TryMove(k, env, s, f, r, rows, j), Quiet)
    case Distrust(r, rows, j) =>
      if r.i >= |r.cs| || j >= |rows| then (Done, Quiet)
      else (Downloader(f, TryReplica(r, rows, j + 1)), SetsRow(r.cs[r.i], rows[j].node, ReplicaStatus.Corrupted))
  }

  function DeleteMove(env: Env, s: State, f: Id, st: DeleteStage): (Thread, Effect)
    requires Fair(env)
  {
    match st
    case FindFile => if f in s.files then (Deleter(f, FindChunks), BeginsDelete(f)) else (Done, Quiet)
    case FindChunks => (Deleter(f, FindNodes(ChunkList(s.chunks, env, f))), Quiet)
    case FindNodes(cs) => (Deleter(f, EachChunk(cs, s.nodes, 0)), Quiet)
    case EachChunk(cs, nodeMap, i) =>
      if i >= |cs| then (Done, DropsFile(f))
      else (Deleter(f, EachRow(cs, nodeMap, i, ChunkRows(s.replicas, env, cs[i]), 0)), Quiet)
    case EachRow(cs, nodeMap, i, rows, j) =>
      if i >= |cs| || j >= |rows| then (Deleter(f, EachChunk(cs, nodeMap, i + 1)), Quiet)
      else
        var (c, n) := (cs[i], rows[j].node);
        (Deleter(f, EachRow(cs, nodeMap, i, rows, j + 1)),
         if n in nodeMap && nodeMap[n].status.Online? && !env.reply(c, n).Lost? then Erases(c, n) else Quiet)
  }

  function Move(k: Crypto, env: Env, s: State, t: Thread): (Thread, Effect)
    requires Fair(env)
  {
    match t
    case Uploader(job, st) => UploadMove(k, env, s, job, st)
    case Recoverer(n, st) => RecoveryMove(k, env, s, n, st)
    case Registrar(n, node, st) => RegisterMove(k, env, s, n, node, st)
    case Downloader(f, st) => DownloadMove(k, env, s, f, st)
    case Deleter(f, st) => DeleteMove(env, s, f, st)
    case Returned(_, _) => (t, Quiet)
    case Done => (t, Quiet)
  }

  // ---------- the machine ----------

  /** The shared state, with three histories used only in statements: the jobs given to uploads, the files whose
      deletion has begun, and the disk copies tampered with since they were last stored or verified. */
  datatype Shared = Shared(s: State, jobs: map<Id, Job>, dying: set<Id>, tainted: set<Key>)

  datatype Machine = Machine(h: Shared, lock: Option<nat>, threads: map<nat, Thread>)

  function Act(h: Shared, e: Effect): Shared {
    match e
    case PutsNode(n, node) => h.(s := h.s.(nodes := h.s.nodes[n := node]))
    case TakesOffline(n) =>
      h.(s := h.s.(nodes := if n in h.s.nodes then h.s.nodes[n := h.s.nodes[n].(status := Offline)] else h.s.nodes))
    case CreatesFile(f, file) => h.(s := h.s.(files := h.s.files[f := file]))
    case CreatesChunks(_, rows) => h.(s := h.s.(chunks := AddChunks(h.s.chunks, rows)))
    case SetsFile(f, status) => h.(s := h.s.(files := WithStatus(h.s.files, f, status)))
    case DropsFile(f) => h.(s := h.s.(files := h.s.files - {f}))
    case PutsRow(c, n, number) => h.(s := AddRow(h.s, c, n, number))
    case SetsRow(c, n, status) => h.(s := SetStatus(h.s, c, n, status))
    case Writes(c, n, data) => h.(s := h.s.(disk := h.s.disk[(c, n) := data]), tainted := h.tainted - {(c, n)})
    case Erases(c, n) => h.(s := h.s.(disk := h.s.disk - {(c, n)}))
    case Verifies(c, n) => h.(tainted := h.tainted - {(c, n)})
    case BeginsDelete(f) => h.(dying := h.dying + {f})
    case Quiet | Locks | Unlocks => h
  }

  function LockAfter(lock: Option<nat>, tid: nat, e: Effect): Option<nat> {
    match e
    case Locks => Some(tid)
    case Unlocks => None
    case _ => lock
  }

  datatype Action =
    | StartUpload(tid: nat, job: Job) | StartRecover(tid: nat, n: Id) | StartRegister(tid: nat, n: Id, node: Node)
    | StartDownload(tid: nat, f: Id) | StartDelete(tid: nat, f: Id)
    | Advance(tid: nat, env: Env)
    | Beat(n: Id, avail: int, total: int, now: int)
    | TamperWith(key: Key, contents: Option<Bytes>)

  /** A request may start at any time under an unused thread id, an upload with an unused file id; a thread waiting for
      the lock moves only when it is free. */
  ghost predicate Possible(k: Crypto, w: Machine, a: Action) {
    match a
    case StartUpload(tid, job) => tid !in w.threads && job.fileId !in w.h.jobs
    case StartRecover(tid, _) => tid !in w.threads
    case StartRegister(tid, _, _) => tid !in w.threads
    case StartDownload(tid, _) => tid !in w.threads
    case StartDelete(tid, _) => tid !in w.threads
    case Advance(tid, env) => Fair(env) && tid in w.threads
        && (Move(k, env, w.h.s, w.threads[tid]).1.Locks? ==> w.lock.None?)
    case Beat(_, _, _, _) => true
    case TamperWith(_, _) => true
  }

  function Starts(w: Machine, tid: nat, t: Thread): Machine {
    w.(threads := w.threads[tid := t])
  }

  ghost function Happen(k: Crypto, w: Machine, a: Action): Machine
    requires Possible(k, w, a)
  {
    match a
    case StartUpload(tid, job) =>
        Starts(w, tid, Uploader(job, MakeFile)).(h := w.h.(jobs := w.h.jobs[job.fileId := job]))
    case StartRecover(tid, n) => Starts(w, tid, Recoverer(n, RecoveryWaits))
    case StartRegister(tid, n, node) => Starts(w, tid, Registrar(n, node, PutNode))
    case StartDownload(tid, f) => Starts(w, tid, Downloader(f, ReadFile))
    case StartDelete(tid, f) => Starts(w, tid, Deleter(f, FindFile))
    case Advance(tid, env) =>
      var (t, e) := Move(k, env, w.h.s, w.threads[tid]);
      Machine(Act(w.h, e), LockAfter(w.lock, tid, e), w.threads[tid := t])
    case Beat(n, avail, total, now) => w.(h := w.h.(s := Heartbeat(w.h.s, n, avail, total, now)))
    case TamperWith(key, contents) => w.(h := w.h.(s := Tamper(w.h.s, key, contents), tainted := w.h.tainted + {key}))
  }

  ghost predicate Schedule(k: Crypto, w: Machine, actions: seq<Action>)
    decreases |actions|
  {
    actions == [] || (Possible(k, w, actions[0]) && Schedule(k, Happen(k, w, actions[0]), actions[1..]))
  }

  ghost function Play(k: Crypto, w: Machine, actions: seq<Action>): Machine
    requires Schedule(k, w, actions)
    decreases |actions|
  {
    if actions == [] then w else Play(k, Happen(k, w, actions[0]), actions[1..])
  }

  /** Empty tables, nothing in progress; the disks may hold anything. */
  ghost predicate Idle(w: Machine) {
    && w.h.s == State(map[], map[], map[], map[], w.h.s.disk) && w.h.jobs == map[] && w.h.dying == {}
    && w.lock.None? && w.threads == map[]
  }
}
