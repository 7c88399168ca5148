/** What every interleaving keeps: a rely-guarantee argument over the effects threads may have on each other. */
module Races {
  import opened Types
  import opened Naming
  import opened Chunking
  import opened Placement
  import opened Recovery
  import opened Transfers
  import opened Downloads
  import opened Runs
  import opened Interleaving

  // ---------- what the shared state keeps ----------

  /** Chunk c belongs to a stored, unencrypted file whose deletion has not begun. */
  ghost predicate Covered(h: Shared, c: Id) {
    && c in h.s.chunks && h.s.chunks[c].fileId in h.s.files
    && !h.s.files[h.s.chunks[c].fileId].encrypted && h.s.chunks[c].fileId !in h.dying
  }

  ghost predicate Intact(k: Crypto, s: State, c: Id, n: Id) {
    (c, n) in s.disk && c in s.chunks && k.hash(s.disk[(c, n)]) == s.chunks[c].sha
  }

  ghost predicate GoodCopy(k: Crypto, h: Shared, c: Id, n: Id) {
    Covered(h, c) && (c, n) !in h.tainted ==> Intact(k, h.s, c, n)
  }

  ghost predicate RowsGood(k: Crypto, h: Shared) {
    forall c, n :: (c, n) in h.s.replicas ==>
      c in h.s.chunks && (h.s.replicas[(c, n)].status.Stored? ==> GoodCopy(k, h, c, n))
  }

  /** The file row says what the upload was given. */
  predicate Fits(k: Crypto, h: Shared, f: Id, file: File) {
    f in h.jobs && h.jobs[f].fileId == f && file == FileRow(k, h.jobs[f], file.status)
  }

  ghost predicate FilesKnown(k: Crypto, h: Shared) {
    forall f :: f in h.s.files ==> Fits(k, h, f, h.s.files[f])
  }

  ghost predicate ChunksKnown(h: Shared) {
    forall c :: c in h.s.chunks ==>
      h.s.chunks[c].fileId in h.jobs && c == ChunkId(h.s.chunks[c].fileId, h.s.chunks[c].seqNo)
  }

  ghost predicate SharedOk(k: Crypto, h: Shared) {
    RowsGood(k, h) && FilesKnown(k, h) && ChunksKnown(h)
  }

  // ---------- what each thread may rely on ----------

  ghost predicate NoChunks(s: State, f: Id) {
    forall c :: c in s.chunks ==> s.chunks[c].fileId != f
  }

  ghost predicate Tabled(k: Crypto, s: State, job: Job) {
    forall i :: 0 <= i < |JobRows(k, job)| ==>
      JobRows(k, job)[i].id in s.chunks && s.chunks[JobRows(k, job)[i].id] == JobRows(k, job)[i].chunk
  }

  ghost predicate UploadOk(k: Crypto, h: Shared, job: Job, st: UploadStage) {
    match st
    case MakeFile => job.fileId !in h.s.files && NoChunks(h.s, job.fileId)
    case MakeChunks => NoChunks(h.s, job.fileId)
    case AddReplica(turn) =>
      Tabled(k, h.s, job)
      && (turn.i < |JobRows(k, job)| && turn.j < |turn.targets| ==>
          GoodCopy(k, h, JobRows(k, job)[turn.i].id, turn.targets[turn.j].id))
    case _ => Tabled(k, h.s, job)
  }

  ghost predicate Recorded(h: Shared, copying: Copying) {
    copying.chunk in h.s.chunks && h.s.chunks[copying.chunk].sha == copying.sha
  }

  ghost predicate RecoveryOk(k: Crypto, h: Shared, st: RecoveryStage) {
    match st
    case Fetch(_, copying) => Recorded(h, copying)
    case Store(_, copying, _) => Recorded(h, copying)
    case AddCopy(_, copying) => Recorded(h, copying) && GoodCopy(k, h, copying.chunk, copying.target)
    case _ => true
  }

  ghost predicate RegisterOk(k: Crypto, h: Shared, n: Id, st: RegisterStage) {
    st.Flip? && st.i < |st.missing| ==> st.missing[st.i] in h.s.chunks && GoodCopy(k, h, st.missing[st.i], n)
  }

  ghost predicate DownloadOk(k: Crypto, h: Shared, f: Id, st: DownloadStage) {
    match st
    case ReadFile => true
    case ReadChunks(file) => Fits(k, h, f, file)
    case ReadNodeMap(file, _) => Fits(k, h, f, file)
    case NextChunk(r) => Fits(k, h, f, r.file)
    case TryReplica(r, _, _) => Fits(k, h, f, r.file)
    case Distrust(r, _, _) => Fits(k, h, f, r.file)
  }

  ghost predicate AllOf(s: State, f: Id, cs: seq<Id>) {
    forall c :: c in cs ==> c in s.chunks && s.chunks[c].fileId == f
  }

  ghost predicate DeleteOk(h: Shared, f: Id, st: DeleteStage) {
    match st
    case FindFile => true
    case FindChunks => f in h.dying
    case FindNodes(cs) => f in h.dying && AllOf(h.s, f, cs)
    case EachChunk(cs, _, _) => f in h.dying && AllOf(h.s, f, cs)
    case EachRow(cs, _, _, _, _) => f in h.dying && AllOf(h.s, f, cs)
  }

  ghost predicate ThreadOk(k: Crypto, h: Shared, t: Thread) {
    match t
    case Uploader(job, st) => job.fileId in h.jobs && h.jobs[job.fileId] == job && UploadOk(k, h, job, st)
    case Recoverer(_, st) => RecoveryOk(k, h, st)
    case Registrar(n, _, st) => RegisterOk(k, h, n, st)
    case Downloader(f, st) => DownloadOk(k, h, f, st)
    case Deleter(f, st) => DeleteOk(h, f, st)
    case Returned(f, data) => f in h.jobs && k.hash(data) == k.hash(Concat(Pieces(h.jobs[f].data, h.jobs[f].chunkSize)))
    case Done => true
  }

  // ---------- what a thread promises of each effect ----------

  ghost predicate FreshRows(h: Shared, f: Id, rows: seq<ChunkRow>) {
    forall i :: 0 <= i < |rows| ==>
      && rows[i].id !in h.s.chunks && rows[i].chunk.fileId == f && rows[i].id == ChunkId(f, rows[i].chunk.seqNo)
  }

  ghost predicate Allowed(k: Crypto, h: Shared, e: Effect) {
    match e
    case CreatesFile(f, file) => f !in h.s.files && NoChunks(h.s, f) && Fits(k, h, f, file)
    case CreatesChunks(f, rows) => f in h.jobs && NoChunks(h.s, f) && DistinctChunks(rows) && FreshRows(h, f, rows)
    case PutsRow(c, n, _) => c in h.s.chunks && GoodCopy(k, h, c, n)
    case SetsRow(c, n, status) => status.Stored? ==> GoodCopy(k, h, c, n)
    case Writes(c, n, data) => Covered(h, c) ==> k.hash(data) == h.s.chunks[c].sha
    case Erases(c, n) => !Covered(h, c)
    case Verifies(c, n) => Intact(k, h.s, c, n)
    case _ => true
  }

  /** The effect creates something under file id f. */
  predicate Names(e: Effect, f: Id) {
    (e.CreatesFile? || e.CreatesChunks?) && e.f == f
  }

  // ---------- allowed effects keep the shared state and every other thread's knowledge ----------

  lemma ChunksStay(k: Crypto, h: Shared, e: Effect, c: Id)
    requires Allowed(k, h, e) && c in h.s.chunks
    ensures c in Act(h, e).s.chunks && Act(h, e).s.chunks[c] == h.s.chunks[c]
  {
    hide Covered, Intact, GoodCopy, NoChunks, Fits, AddChunks, ChunkId;
    if e.CreatesChunks? {
      AddChunksHas(h.s.chunks, e.rows);
    }
  }

  lemma NewChunk(k: Crypto, h: Shared, e: Effect, c: Id)
    requires Allowed(k, h, e) && c in Act(h, e).s.chunks && c !in h.s.chunks
    ensures e.CreatesChunks? && e.f in h.jobs && Act(h, e).s.chunks[c].fileId == e.f
            && c == ChunkId(e.f, Act(h, e).s.chunks[c].seqNo)
  {
    hide Covered, Intact, GoodCopy, NoChunks, Fits, AddChunks, ChunkId;
    if e.CreatesChunks? {
      AddChunksHas(h.s.chunks, e.rows);
    }
  }

  lemma CoveredBefore(k: Crypto, h: Shared, e: Effect, c: Id)
    requires Allowed(k, h, e) && c in h.s.chunks && Covered(Act(h, e), c)
    ensures Covered(h, c)
  {
    hide Intact, GoodCopy, Fits, AddChunks, ChunkId;
    ChunksStay(k, h, e, c);
  }

  /** No allowed effect spoils a good copy. */
  lemma GoodCopyStays(k: Crypto, h: Shared, e: Effect, c: Id, n: Id)
    requires Allowed(k, h, e) && c in h.s.chunks && GoodCopy(k, h, c, n)
    ensures c in Act(h, e).s.chunks && GoodCopy(k, Act(h, e), c, n)
  {
    hide Covered, Fits, AddChunks, ChunkId, NoChunks, FreshRows;
    ChunksStay(k, h, e, c);
    if Covered(Act(h, e), c) {
      CoveredBefore(k, h, e, c);
    }
  }

  lemma RowAfter(k: Crypto, h: Shared, e: Effect, c: Id, n: Id)
    requires Allowed(k, h, e) && (c, n) in Act(h, e).s.replicas
    ensures (e.PutsRow? && (e.c, e.n) == (c, n)) || (c, n) in h.s.replicas
    ensures Act(h, e).s.replicas[(c, n)].status.Stored? ==>
              || ((e.PutsRow? || (e.SetsRow? && e.status.Stored?)) && (e.c, e.n) == (c, n))
              || ((c, n) in h.s.replicas && h.s.replicas[(c, n)].status.Stored?)
  {
    hide Covered, Fits, AddChunks, ChunkId, NoChunks, FreshRows, GoodCopy, Intact;
  }

  lemma RowsGoodKept(k: Crypto, h: Shared, e: Effect)
    requires Allowed(k, h, e) && RowsGood(k, h)
    ensures RowsGood(k, Act(h, e))
  {
    hide Covered, Fits, AddChunks, ChunkId, NoChunks, FreshRows, GoodCopy, Intact, Act;
    var g := Act(h, e);
    forall c, n | (c, n) in g.s.replicas
      ensures c in g.s.chunks && (g.s.replicas[(c, n)].status.Stored? ==> GoodCopy(k, g, c, n))
    {
      RowAfter(k, h, e, c, n);
      ChunksStay(k, h, e, c);
      if g.s.replicas[(c, n)].status.Stored? {
        GoodCopyStays(k, h, e, c, n);
      }
    }
  }

  lemma FilesKnownKept(k: Crypto, h: Shared, e: Effect)
    requires Allowed(k, h, e) && FilesKnown(k, h)
    ensures FilesKnown(k, Act(h, e))
  {
    hide Covered, AddChunks, ChunkId, NoChunks, FreshRows, GoodCopy, Intact, Pieces, Concat;
  }

  lemma ChunksKnownKept(k: Crypto, h: Shared, e: Effect)
    requires Allowed(k, h, e) && ChunksKnown(h)
    ensures ChunksKnown(Act(h, e))
  {
    hide Covered, AddChunks, ChunkId, NoChunks, FreshRows, GoodCopy, Intact, Pieces, Concat, Allowed;
    forall c | c in Act(h, e).s.chunks
      ensures var g := Act(h, e);
              g.s.chunks[c].fileId in g.jobs && c == ChunkId(g.s.chunks[c].fileId, g.s.chunks[c].seqNo)
    {
      if c in h.s.chunks {
        ChunksStay(k, h, e, c);
      } else {
        NewChunk(k, h, e, c);
      }
    }
  }

  lemma SharedKept(k: Crypto, h: Shared, e: Effect)
    requires Allowed(k, h, e) && SharedOk(k, h)
    ensures SharedOk(k, Act(h, e))
  {
    hide Allowed, RowsGood, FilesKnown, ChunksKnown, Act;
    RowsGoodKept(k, h, e);
    FilesKnownKept(k, h, e);
    ChunksKnownKept(k, h, e);
  }

  lemma HistoriesGrow(h: Shared, e: Effect)
    ensures Act(h, e).jobs == h.jobs && h.dying <= Act(h, e).dying
  {}

  lemma NoChunksStays(k: Crypto, h: Shared, e: Effect, f: Id)
    requires Allowed(k, h, e) && !Names(e, f)
    ensures NoChunks(h.s, f) ==> NoChunks(Act(h, e).s, f)
    ensures f !in h.s.files ==> f !in Act(h, e).s.files
  {
    hide Allowed, Fits, Covered, GoodCopy, Intact, FreshRows, AddChunks;
    if NoChunks(h.s, f) {
      forall c | c in Act(h, e).s.chunks ensures Act(h, e).s.chunks[c].fileId != f {
        if c in h.s.chunks {
          ChunksStay(k, h, e, c);
        } else {
          NewChunk(k, h, e, c);
        }
      }
    }
  }

  lemma TabledStays(k: Crypto, h: Shared, e: Effect, job: Job)
    requires Allowed(k, h, e) && Tabled(k, h.s, job)
    ensures Tabled(k, Act(h, e).s, job)
  {
    hide Allowed, Act, JobRows;
    var rows := JobRows(k, job);
    forall i | 0 <= i < |rows|
      ensures rows[i].id in Act(h, e).s.chunks && Act(h, e).s.chunks[rows[i].id] == rows[i].chunk {
      ChunksStay(k, h, e, rows[i].id);
    }
  }

  lemma UploadStays(k: Crypto, h: Shared, e: Effect, job: Job, st: UploadStage)
    requires Allowed(k, h, e) && UploadOk(k, h, job, st) && !Names(e, job.fileId)
    ensures UploadOk(k, Act(h, e), job, st)
  {
    hide Allowed, Act, JobRows, Tabled, GoodCopy, NoChunks, Names;
    NoChunksStays(k, h, e, job.fileId);
    if !st.MakeFile? && !st.MakeChunks? {
      TabledStays(k, h, e, job);
    }
    if st.AddReplica? && st.turn.i < |JobRows(k, job)| && st.turn.j < |st.turn.targets| {
      TabledRow(k, h.s, job, st.turn.i);
      GoodCopyStays(k, h, e, JobRows(k, job)[st.turn.i].id, st.turn.targets[st.turn.j].id);
    }
  }

  lemma TabledRow(k: Crypto, s: State, job: Job, i: nat)
    requires Tabled(k, s, job) && i < |JobRows(k, job)|
    ensures JobRows(k, job)[i].id in s.chunks && s.chunks[JobRows(k, job)[i].id] == JobRows(k, job)[i].chunk
  {
    hide JobRows;
  }

  lemma RecoveryStays(k: Crypto, h: Shared, e: Effect, st: RecoveryStage)
    requires Allowed(k, h, e) && RecoveryOk(k, h, st)
    ensures RecoveryOk(k, Act(h, e), st)
  {
    hide Allowed, Act, GoodCopy;
    if st.Fetch? || st.Store? || st.AddCopy? {
      ChunksStay(k, h, e, st.copying.chunk);
      if st.AddCopy? {
        GoodCopyStays(k, h, e, st.copying.chunk, st.copying.target);
      }
    }
  }

  lemma AllOfStays(k: Crypto, h: Shared, e: Effect, f: Id, cs: seq<Id>)
    requires Allowed(k, h, e) && AllOf(h.s, f, cs)
    ensures AllOf(Act(h, e).s, f, cs)
  {
    hide Allowed, Act;
    forall c | c in cs ensures c in Act(h, e).s.chunks && Act(h, e).s.chunks[c].fileId == f {
      ChunksStay(k, h, e, c);
    }
  }

  lemma FitsStays(k: Crypto, h: Shared, e: Effect, f: Id, file: File)
    requires Fits(k, h, f, file)
    ensures Fits(k, Act(h, e), f, file)
  {
    hide Act, Pieces, Concat;
    HistoriesGrow(h, e);
  }

  lemma DownloadStays(k: Crypto, h: Shared, e: Effect, f: Id, st: DownloadStage)
    requires DownloadOk(k, h, f, st)
    ensures DownloadOk(k, Act(h, e), f, st)
  {
    hide Act, Fits;
    match st {
      case ReadFile =>
      case ReadChunks(file) => FitsStays(k, h, e, f, file);
      case ReadNodeMap(file, _) => FitsStays(k, h, e, f, file);
      case NextChunk(r) => FitsStays(k, h, e, f, r.file);
      case TryReplica(r, _, _) => FitsStays(k, h, e, f, r.file);
      case Distrust(r, _, _) => FitsStays(k, h, e, f, r.file);
    }
  }

  lemma DeleteStays(k: Crypto, h: Shared, e: Effect, f: Id, st: DeleteStage)
    requires Allowed(k, h, e) && DeleteOk(h, f, st)
    ensures DeleteOk(Act(h, e), f, st)
  {
    hide Allowed, Act, AllOf;
    HistoriesGrow(h, e);
    if !st.FindFile? && !st.FindChunks? {
      AllOfStays(k, h, e, f, st.cs);
    }
  }

  /** Rely: what a thread knows survives every allowed effect of the others. */
  lemma ThreadStays(k: Crypto, h: Shared, e: Effect, t: Thread)
    requires Allowed(k, h, e) && ThreadOk(k, h, t) && (t.Uploader? ==> !Names(e, t.job.fileId))
    ensures ThreadOk(k, Act(h, e), t)
  {
    hide Allowed, Act, UploadOk, RecoveryOk, DownloadOk, DeleteOk, GoodCopy, Pieces, Concat, Names;
    HistoriesGrow(h, e);
    match t {
      case Uploader(job, st) => UploadStays(k, h, e, job, st);
      case Recoverer(_, st) => RecoveryStays(k, h, e, st);
      case Registrar(n, _, st) =>
        if st.Flip? && st.i < |st.missing| {
          GoodCopyStays(k, h, e, st.missing[st.i], n);
        }
      case Downloader(f, st) => DownloadStays(k, h, e, f, st);
      case Deleter(f, st) => DeleteStays(k, h, e, f, st);
      case Returned(_, _) =>
      case Done =>
    }
  }

  // ---------- every move of a thread is allowed and leaves the thread with what it may rely on ----------

  lemma CreatesRows(k: Crypto, h: Shared, job: Job)
    requires NoChunks(h.s, job.fileId) && ChunksKnown(h)
    ensures DistinctChunks(JobRows(k, job)) && FreshRows(h, job.fileId, JobRows(k, job))
  {
    hide ChunkId, Pieces;
    JobRowsDescribe(k, job);
    var rows := JobRows(k, job);
    forall i | 0 <= i < |rows| ensures rows[i].id !in h.s.chunks {
      if rows[i].id in h.s.chunks {
        var c := h.s.chunks[rows[i].id];
        ChunkIdInjective(c.fileId, c.seqNo, job.fileId, i);
      }
    }
  }

  lemma RowsMadeAreTabled(k: Crypto, s: State, job: Job)
    ensures Tabled(k, s.(chunks := AddChunks(s.chunks, JobRows(k, job))), job)
  {
    hide JobRows, AddChunks, DistinctChunks;
    JobRowsDescribe(k, job);
    AddChunksHas(s.chunks, JobRows(k, job));
  }

  /** A file's chunks are covered only while its row says unencrypted, as its job does. */
  lemma CoveredIsPlain(k: Crypto, h: Shared, job: Job, i: nat)
    requires SharedOk(k, h) && Tabled(k, h.s, job) && i < |JobRows(k, job)|
    requires job.fileId in h.jobs && h.jobs[job.fileId] == job
    ensures Covered(h, JobRows(k, job)[i].id) ==> !job.encrypted
  {
    hide Pieces, Concat, ChunkId, RowsGood, ChunksKnown;
    TabledRow(k, h.s, job, i);
  }

  lemma MakingOk(k: Crypto, env: Env, h: Shared, job: Job, st: UploadStage)
    requires SharedOk(k, h) && ThreadOk(k, h, Uploader(job, st)) && (st.MakeFile? || st.MakeChunks?)
    ensures var (t, e) := UploadMove(k, env, h.s, job, st);
            Allowed(k, h, e) && ThreadOk(k, Act(h, e), t)
  {
    hide JobRows, AddChunks, Tabled, DistinctChunks, FreshRows, RowsGood, ChunksKnown, FilesKnown, Pieces, Concat;
    if st.MakeFile? {
    } else {
      CreatesRows(k, h, job);
      RowsMadeAreTabled(k, h.s, job);
    }
  }

  /** The moves of an upload that touch neither rows nor disks. */
  lemma ChoosingOk(k: Crypto, env: Env, h: Shared, job: Job, st: UploadStage)
    requires ThreadOk(k, h, Uploader(job, st)) && (st.ReadNodes? || st.Choose? || st.SetOutcome?)
    ensures var (t, e) := UploadMove(k, env, h.s, job, st);
            Allowed(k, h, e) && ThreadOk(k, Act(h, e), t)
  {
    hide JobRows, OnlineRows, Select, Tabled, Pieces, Concat, Payload;
  }

  lemma ProbingOk(k: Crypto, env: Env, h: Shared, job: Job, st: UploadStage)
    requires SharedOk(k, h) && ThreadOk(k, h, Uploader(job, st)) && (st.Probe? || st.Send?)
    ensures var (t, e) := UploadMove(k, env, h.s, job, st);
            Allowed(k, h, e) && ThreadOk(k, Act(h, e), t)
  {
    hide JobRows, Tabled, SharedOk, Covered;
    if st.turn.i < |JobRows(k, job)| && st.turn.j < |st.turn.targets| {
      TabledRow(k, h.s, job, st.turn.i);
      CoveredIsPlain(k, h, job, st.turn.i);
      var (t, e) := UploadMove(k, env, h.s, job, st);
      TabledStays(k, h, e, job);
      if Covered(Act(h, e), JobRows(k, job)[st.turn.i].id) {
        CoveredBefore(k, h, e, JobRows(k, job)[st.turn.i].id);
      }
    }
  }

  lemma AddingOk(k: Crypto, env: Env, h: Shared, job: Job, st: UploadStage)
    requires ThreadOk(k, h, Uploader(job, st)) && st.AddReplica?
    ensures var (t, e) := UploadMove(k, env, h.s, job, st);
            Allowed(k, h, e) && ThreadOk(k, Act(h, e), t)
  {
    hide JobRows, Tabled, GoodCopy;
    if st.turn.i < |JobRows(k, job)| && st.turn.j < |st.turn.targets| {
      TabledRow(k, h.s, job, st.turn.i);
      TabledStays(k, h, UploadMove(k, env, h.s, job, st).1, job);
    }
  }

  lemma RecoveryMoveOk(k: Crypto, env: Env, h: Shared, n: Id, st: RecoveryStage)
    requires ThreadOk(k, h, Recoverer(n, st)) && !st.Store? && !st.Decide?
    ensures var (t, e) := RecoveryMove(k, env, h.s, n, st);
            Allowed(k, h, e) && ThreadOk(k, Act(h, e), t)
  {
    hide GoodCopy, OnlineRows, Affected;
  }

  lemma DecideOk(k: Crypto, env: Env, h: Shared, n: Id, pass: Progress)
    ensures ThreadOk(k, h, DecideMove(env, h.s, n, pass))
  {
    hide GoodCopy, ChunkRows, Surviving, Select, Occupied, MaxNumber;
  }

  lemma StoreOk(k: Crypto, env: Env, h: Shared, n: Id, st: RecoveryStage)
    requires ThreadOk(k, h, Recoverer(n, st)) && st.Store?
    ensures var (t, e) := RecoveryMove(k, env, h.s, n, st);
            Allowed(k, h, e) && ThreadOk(k, Act(h, e), t)
  {}

  lemma RegisterMoveOk(k: Crypto, env: Env, h: Shared, n: Id, node: Node, st: RegisterStage)
    requires ThreadOk(k, h, Registrar(n, node, st))
    ensures var (t, e) := RegisterMove(k, env, h.s, n, node, st);
            Allowed(k, h, e) && ThreadOk(k, Act(h, e), t)
  {
    hide MissingOn;
  }

  lemma DownloadMoveOk(k: Crypto, env: Env, h: Shared, f: Id, st: DownloadStage)
    requires Fair(env) && SharedOk(k, h) && ThreadOk(k, h, Downloader(f, st))
    ensures var (t, e) := DownloadMove(k, env, h.s, f, st);
            Allowed(k, h, e) && ThreadOk(k, Act(h, e), t)
  {
    hide ChunkList, StoredRows, Pieces, Concat, RowsGood, ChunksKnown, Plain, Fair;
  }

  lemma DeleteMoveOk(k: Crypto, env: Env, h: Shared, f: Id, st: DeleteStage)
    requires Fair(env) && ThreadOk(k, h, Deleter(f, st))
    ensures var (t, e) := DeleteMove(env, h.s, f, st);
            Allowed(k, h, e) && ThreadOk(k, Act(h, e), t)
  {
    hide ChunkRows, Fair;
  }

  /** Guarantee: a thread that knows what it should makes an allowed effect and knows what it should afterwards. */
  lemma MoveOk(k: Crypto, env: Env, h: Shared, t: Thread)
    requires Fair(env) && SharedOk(k, h) && ThreadOk(k, h, t)
    ensures var (next, e) := Move(k, env, h.s, t);
            Allowed(k, h, e) && ThreadOk(k, Act(h, e), next)
  {
    hide Fair, SharedOk, ThreadOk, Allowed, Act, UploadMove, RegisterMove, DownloadMove, DeleteMove, DecideMove;
    match t {
      case Uploader(job, st) =>
        if st.MakeFile? || st.MakeChunks? {
          MakingOk(k, env, h, job, st);
        } else if st.Probe? || st.Send? {
          ProbingOk(k, env, h, job, st);
        } else if st.AddReplica? {
          AddingOk(k, env, h, job, st);
        } else {
          ChoosingOk(k, env, h, job, st);
        }
      case Recoverer(n, st) =>
        if st.Store? {
          StoreOk(k, env, h, n, st);
        } else if st.Decide? {
          DecideOk(k, env, h, n, st.pass);
          QuietIsAllowed(k, h);
        } else {
          RecoveryMoveOk(k, env, h, n, st);
        }
      case Registrar(n, node, st) => RegisterMoveOk(k, env, h, n, node, st);
      case Downloader(f, st) => DownloadMoveOk(k, env, h, f, st);
      case Deleter(f, st) => DeleteMoveOk(k, env, h, f, st);
      case Returned(_, _) => QuietIsAllowed(k, h);
      case Done => QuietIsAllowed(k, h);
    }
  }

  lemma QuietIsAllowed(k: Crypto, h: Shared)
    ensures Allowed(k, h, Quiet) && Act(h, Quiet) == h
  {}

  // ---------- the whole machine ----------

  ghost predicate ThreadsOk(k: Crypto, h: Shared, threads: map<nat, Thread>) {
    forall tid :: tid in threads ==> ThreadOk(k, h, threads[tid])
  }

  /** No two threads upload under one file id. */
  ghost predicate OneUploadEach(threads: map<nat, Thread>) {
    forall a, b :: a in threads && b in threads && a != b && threads[a].Uploader? && threads[b].Uploader? ==>
      threads[a].job.fileId != threads[b].job.fileId
  }

  /** Between taking the lock and giving it back. */
  predicate Inside(t: Thread) {
    (t.Recoverer? && !t.rec.RecoveryWaits?) || (t.Registrar? && !t.reg.PutNode? && !t.reg.ReconcileWaits?)
  }

  /** Exactly the holder of the lock is inside a recovery or a reconciliation. */
  ghost predicate Exclusive(lock: Option<nat>, threads: map<nat, Thread>) {
    && (forall tid :: tid in threads ==> (Inside(threads[tid]) <==> lock == Some(tid)))
    && (lock.Some? ==> lock.value in threads)
  }

  ghost predicate MachineOk(k: Crypto, w: Machine) {
    SharedOk(k, w.h) && ThreadsOk(k, w.h, w.threads) && OneUploadEach(w.threads) && Exclusive(w.lock, w.threads)
  }

  /** The lock is taken on entering and given back on leaving, and at no other time. */
  ghost predicate LocksRightly(t: Thread, next: Thread, e: Effect) {
    && (e.Locks? ==> !Inside(t) && Inside(next))
    && (e.Unlocks? ==> Inside(t) && !Inside(next))
    && (!e.Locks? && !e.Unlocks? ==> (Inside(t) <==> Inside(next)))
  }

  lemma RecoveryLocks(k: Crypto, env: Env, s: State, n: Id, st: RecoveryStage)
    ensures LocksRightly(Recoverer(n, st), RecoveryMove(k, env, s, n, st).0, RecoveryMove(k, env, s, n, st).1)
  {
    hide OnlineRows, Select, ChunkRows, Surviving, Occupied, MaxNumber, Affected;
  }

  lemma RegisterLocks(k: Crypto, env: Env, s: State, n: Id, node: Node, st: RegisterStage)
    ensures LocksRightly(Registrar(n, node, st), RegisterMove(k, env, s, n, node, st).0,
                         RegisterMove(k, env, s, n, node, st).1)
  {
    hide MissingOn;
  }

  lemma UploadNeverLocks(k: Crypto, env: Env, s: State, job: Job, st: UploadStage)
    ensures LocksRightly(Uploader(job, st), UploadMove(k, env, s, job, st).0, UploadMove(k, env, s, job, st).1)
  {
    hide JobRows, OnlineRows, Select, Pieces, Payload;
  }

  lemma DownloadNeverLocks(k: Crypto, env: Env, s: State, f: Id, st: DownloadStage)
    requires Fair(env)
    ensures LocksRightly(Downloader(f, st), DownloadMove(k, env, s, f, st).0, DownloadMove(k, env, s, f, st).1)
  {
    hide Fair, ChunkList, StoredRows, Plain;
  }

  lemma DeleteNeverLocks(env: Env, s: State, f: Id, st: DeleteStage)
    requires Fair(env)
    ensures LocksRightly(Deleter(f, st), DeleteMove(env, s, f, st).0, DeleteMove(env, s, f, st).1)
  {
    hide Fair, ChunkList, ChunkRows;
  }

  lemma MoveLocks(k: Crypto, env: Env, s: State, t: Thread)
    requires Fair(env)
    ensures LocksRightly(t, Move(k, env, s, t).0, Move(k, env, s, t).1)
  {
    hide Fair, UploadMove, RecoveryMove, RegisterMove, DownloadMove, DeleteMove;
    match t {
      case Uploader(job, st) => UploadNeverLocks(k, env, s, job, st);
      case Recoverer(n, st) => RecoveryLocks(k, env, s, n, st);
      case Registrar(n, node, st) => RegisterLocks(k, env, s, n, node, st);
      case Downloader(f, st) => DownloadNeverLocks(k, env, s, f, st);
      case Deleter(f, st) => DeleteNeverLocks(env, s, f, st);
      case Returned(_, _) =>
      case Done =>
    }
  }

  lemma UploadsMove(k: Crypto, env: Env, s: State, t: Thread)
    requires Fair(env) && t.Uploader?
    ensures Move(k, env, s, t) == UploadMove(k, env, s, t.job, t.up) && t == Uploader(t.job, t.up)
  {
    hide UploadMove;
  }

  lemma RowNumber(k: Crypto, job: Job, i: nat)
    requires i < |JobRows(k, job)|
    ensures JobRows(k, job)[i].chunk.seqNo == i && JobRows(k, job)[i].chunk.fileId == job.fileId
  {
    hide Pieces, ChunkId;
  }

  lemma MoveKeepsJob(k: Crypto, env: Env, s: State, t: Thread)
    requires Fair(env)
    ensures var (next, e) := Move(k, env, s, t);
            && (next.Uploader? ==> t.Uploader? && next.job == t.job)
            && (forall f :: Names(e, f) ==> t.Uploader? && t.job.fileId == f)
  {
    hide Fair, OnlineRows, ChunkList, Select, ChunkRows, StoredRows, Surviving, JobRows, Plain;
  }

  lemma AdvanceKeeps(k: Crypto, w: Machine, tid: nat, env: Env)
    requires MachineOk(k, w) && Possible(k, w, Advance(tid, env))
    ensures MachineOk(k, Happen(k, w, Advance(tid, env)))
  {
    hide Fair, SharedOk, ThreadOk, Allowed, Act, Move, Inside, Names;
    var t := w.threads[tid];
    var (next, e) := Move(k, env, w.h.s, t);
    MoveOk(k, env, w.h, t);
    MoveLocks(k, env, w.h.s, t);
    MoveKeepsJob(k, env, w.h.s, t);
    SharedKept(k, w.h, e);
    forall other | other in w.threads && other != tid ensures ThreadOk(k, Act(w.h, e), w.threads[other]) {
      ThreadStays(k, w.h, e, w.threads[other]);
    }
  }

  /** A new request starts outside the lock, knowing nothing it could be wrong about. */
  lemma StartKeeps(k: Crypto, w: Machine, tid: nat, t: Thread)
    requires MachineOk(k, w) && tid !in w.threads && ThreadOk(k, w.h, t) && !Inside(t)
    requires t.Uploader? ==> forall other :: other in w.threads && w.threads[other].Uploader? ==>
               w.threads[other].job.fileId != t.job.fileId
    ensures MachineOk(k, Starts(w, tid, t))
  {
    hide SharedOk, ThreadOk, Inside;
  }

  /** The shared state as a new upload is announced. */
  function Announced(h: Shared, job: Job): Shared {
    h.(jobs := h.jobs[job.fileId := job])
  }

  lemma AnnounceKeeps(k: Crypto, w: Machine, job: Job)
    requires MachineOk(k, w) && job.fileId !in w.h.jobs
    ensures MachineOk(k, w.(h := Announced(w.h, job)))
    ensures ThreadOk(k, Announced(w.h, job), Uploader(job, MakeFile))
    ensures forall other :: other in w.threads && w.threads[other].Uploader? ==>
              w.threads[other].job.fileId != job.fileId
  {
    hide ThreadOk, Inside, Pieces, Concat, ChunkId;
    var g := Announced(w.h, job);
    forall c, n ensures GoodCopy(k, w.h, c, n) <==> GoodCopy(k, g, c, n) {}
    forall other | other in w.threads ensures ThreadOk(k, g, w.threads[other]) {
      KnowsOtherJob(k, w.h, job, w.threads[other]);
    }
    NewJobStarts(k, w.h, job);
    forall other | other in w.threads && w.threads[other].Uploader? ensures w.threads[other].job.fileId != job.fileId {
      UploaderIsKnown(k, w.h, w.threads[other]);
    }
  }

  lemma UploaderIsKnown(k: Crypto, h: Shared, t: Thread)
    requires ThreadOk(k, h, t) && t.Uploader?
    ensures t.job.fileId in h.jobs
  {}

  lemma NewJobStarts(k: Crypto, h: Shared, job: Job)
    requires SharedOk(k, h) && job.fileId !in h.jobs
    ensures ThreadOk(k, Announced(h, job), Uploader(job, MakeFile))
  {
    hide Pieces, Concat, ChunkId;
  }

  lemma KnowsOtherJob(k: Crypto, h: Shared, job: Job, t: Thread)
    requires ThreadOk(k, h, t) && job.fileId !in h.jobs
    ensures ThreadOk(k, Announced(h, job), t)
  {
    hide Pieces, Concat, ChunkId, JobRows, Tabled, NoChunks;
    forall c, n ensures GoodCopy(k, h, c, n) <==> GoodCopy(k, Announced(h, job), c, n) {}
    hide GoodCopy;
  }

  lemma BeatKeeps(k: Crypto, w: Machine, n: Id, avail: int, total: int, now: int)
    requires MachineOk(k, w)
    ensures MachineOk(k, w.(h := w.h.(s := Heartbeat(w.h.s, n, avail, total, now))))
  {
    hide ThreadOk, Inside, Allowed, SharedOk;
    var e := if n in w.h.s.nodes then PutsNode(n, Node(total, avail, Online, now)) else Quiet;
    assert Act(w.h, e) == w.h.(s := Heartbeat(w.h.s, n, avail, total, now));
    NodeEffectsAllowed(k, w.h, e);
    SharedKept(k, w.h, e);
    forall tid | tid in w.threads ensures ThreadOk(k, Act(w.h, e), w.threads[tid]) {
      ThreadStays(k, w.h, e, w.threads[tid]);
    }
  }

  lemma NodeEffectsAllowed(k: Crypto, h: Shared, e: Effect)
    requires e.PutsNode? || e.Quiet?
    ensures Allowed(k, h, e) && forall f :: !Names(e, f)
  {}

  /** Whatever tampering does to a disk, it also leaves its mark in the history. */
  function Tampered(h: Shared, key: Key, contents: Option<Bytes>): Shared {
    h.(s := Tamper(h.s, key, contents), tainted := h.tainted + {key})
  }

  lemma TamperSparesGood(k: Crypto, h: Shared, key: Key, contents: Option<Bytes>, c: Id, n: Id)
    requires GoodCopy(k, h, c, n)
    ensures GoodCopy(k, Tampered(h, key, contents), c, n)
  {}

  lemma TamperedShared(k: Crypto, h: Shared, key: Key, contents: Option<Bytes>)
    requires SharedOk(k, h)
    ensures SharedOk(k, Tampered(h, key, contents))
  {
    hide Pieces, Concat, ChunkId, GoodCopy;
    forall c, n | GoodCopy(k, h, c, n) ensures GoodCopy(k, Tampered(h, key, contents), c, n) {
      TamperSparesGood(k, h, key, contents, c, n);
    }
  }

  lemma TamperedThread(k: Crypto, h: Shared, key: Key, contents: Option<Bytes>, t: Thread)
    requires ThreadOk(k, h, t)
    ensures ThreadOk(k, Tampered(h, key, contents), t)
  {
    hide Pieces, Concat, ChunkId, GoodCopy, JobRows;
    forall c, n | GoodCopy(k, h, c, n) ensures GoodCopy(k, Tampered(h, key, contents), c, n) {
      TamperSparesGood(k, h, key, contents, c, n);
    }
  }

  /** Every action, of any thread or of the environment, keeps the machine's invariant. */
  lemma ActionKeeps(k: Crypto, w: Machine, a: Action)
    requires MachineOk(k, w) && Possible(k, w, a)
    ensures MachineOk(k, Happen(k, w, a))
  {
    hide MachineOk, ThreadOk, Move, Act, Fair, Heartbeat, Tamper;
    match a {
      case StartUpload(tid, job) =>
        AnnounceKeeps(k, w, job);
        StartKeeps(k, w.(h := Announced(w.h, job)), tid, Uploader(job, MakeFile));
      case StartRecover(tid, n) => StartsOk(k, w, tid, Recoverer(n, RecoveryWaits));
      case StartRegister(tid, n, node) => StartsOk(k, w, tid, Registrar(n, node, PutNode));
      case StartDownload(tid, f) => StartsOk(k, w, tid, Downloader(f, ReadFile));
      case StartDelete(tid, f) => StartsOk(k, w, tid, Deleter(f, FindFile));
      case Advance(tid, env) => AdvanceKeeps(k, w, tid, env);
      case Beat(n, avail, total, now) => BeatKeeps(k, w, n, avail, total, now);
      case TamperWith(key, contents) => TamperKeepsMachine(k, w, key, contents);
    }
  }

  predicate Newcomer(t: Thread) {
    || (t.Recoverer? && t.rec.RecoveryWaits?) || (t.Registrar? && t.reg.PutNode?)
    || (t.Downloader? && t.down.ReadFile?) || (t.Deleter? && t.del.FindFile?)
  }

  lemma StartsOk(k: Crypto, w: Machine, tid: nat, t: Thread)
    requires MachineOk(k, w) && tid !in w.threads
    requires Newcomer(t)
    ensures MachineOk(k, Starts(w, tid, t))
  {
    hide MachineOk;
    StartKeeps(k, w, tid, t);
  }

  lemma TamperKeepsMachine(k: Crypto, w: Machine, key: Key, contents: Option<Bytes>)
    requires MachineOk(k, w)
    ensures MachineOk(k, w.(h := Tampered(w.h, key, contents)))
  {
    hide ThreadOk, SharedOk, Inside, Tampered;
    TamperedShared(k, w.h, key, contents);
    forall tid | tid in w.threads ensures ThreadOk(k, Tampered(w.h, key, contents), w.threads[tid]) {
      TamperedThread(k, w.h, key, contents, w.threads[tid]);
    }
  }

  lemma {:induction false} PlayKeeps(k: Crypto, w: Machine, actions: seq<Action>)
    requires MachineOk(k, w) && Schedule(k, w, actions)
    ensures MachineOk(k, Play(k, w, actions))
    decreases |actions|
  {
    hide MachineOk, Happen, Possible;
    if actions != [] {
      ActionKeeps(k, w, actions[0]);
      PlayKeeps(k, Happen(k, w, actions[0]), actions[1..]);
    }
  }

  lemma IdleIsOk(k: Crypto, w: Machine)
    requires Idle(w)
    ensures MachineOk(k, w)
  {}

  // ---------- what follows for every interleaved run ----------

  /** Soundness under every interleaving, tampering included: a STORED row of an unencrypted file whose deletion has not
      begun has bytes behind it that hash to the chunk's recorded hash, unless that copy was tampered with since it was
      last stored or verified. */
  lemma StoredCopiesAreIntact(k: Crypto, start: Machine, actions: seq<Action>, c: Id, n: Id)
    requires Idle(start) && Schedule(k, start, actions)
    requires var h := Play(k, start, actions).h;
             (c, n) in h.s.replicas && h.s.replicas[(c, n)].status.Stored? && Covered(h, c) && (c, n) !in h.tainted
    ensures Intact(k, Play(k, start, actions).h.s, c, n)
  {
    hide Play, Schedule, Covered, Intact, Idle, ThreadOk, FilesKnown, ChunksKnown;
    IdleIsOk(k, start);
    PlayKeeps(k, start, actions);
  }

  /** At no time are two requests inside a recovery or a reconciliation. */
  lemma OnePassAtATime(k: Crypto, start: Machine, actions: seq<Action>, a: nat, b: nat)
    requires Idle(start) && Schedule(k, start, actions)
    requires var w := Play(k, start, actions);
             a in w.threads && b in w.threads && Inside(w.threads[a]) && Inside(w.threads[b])
    ensures a == b
  {
    hide Play, Schedule, Idle, ThreadOk, SharedOk, Inside;
    IdleIsOk(k, start);
    PlayKeeps(k, start, actions);
  }

  /** Whatever else goes on, a download that completes delivers the bytes uploaded under that file id. */
  lemma DeliveredIsUploaded(k: Crypto, start: Machine, actions: seq<Action>, tid: nat)
    requires CollisionFree(k) && Idle(start) && Schedule(k, start, actions)
    requires tid in Play(k, start, actions).threads && Play(k, start, actions).threads[tid].Returned?
    ensures var (w, t) := (Play(k, start, actions), Play(k, start, actions).threads[tid]);
            && t.of in w.h.jobs
            && (t.data == w.h.jobs[t.of].data <==> w.h.jobs[t.of].chunkSize != 0 || w.h.jobs[t.of].data == [])
  {
    hide Play, Schedule, Idle, SharedOk, Pieces, Concat;
    IdleIsOk(k, start);
    PlayKeeps(k, start, actions);
    var w := Play(k, start, actions);
    var t := w.threads[tid];
    assert ThreadOk(k, w.h, t);
    SplitThenConcat(w.h.jobs[t.of].data, w.h.jobs[t.of].chunkSize);
  }
}
