/** Without tampering: what stands behind every row under every interleaving, encrypted files included. */
module Endurance {
  import opened Types
  import opened Naming
  import opened Chunking
  import opened Placement
  import opened Recovery
  import opened Transfers
  import opened Downloads
  import opened Runs
  import opened Interleaving
  import opened Races

  /** Chunk c belongs to a file that exists and whose deletion has not begun. */
  ghost predicate Alive(h: Shared, c: Id) {
    c in h.s.chunks && h.s.chunks[c].fileId in h.s.files && h.s.chunks[c].fileId !in h.dying
  }

  /** A download of c's file would accept these bytes for c. */
  predicate Fitting(k: Crypto, h: Shared, c: Id, b: Bytes) {
    c in h.s.chunks && h.s.chunks[c].fileId in h.jobs
    && Legible(k, h.jobs[h.s.chunks[c].fileId].encrypted, h.s.chunks[c].sha, b)
  }

  ghost predicate Copied(k: Crypto, h: Shared, c: Id, n: Id) {
    Alive(h, c) ==> (c, n) in h.s.disk && Fitting(k, h, c, h.s.disk[(c, n)])
  }

  /** Every row, whatever its status, has an acceptable copy behind it. */
  ghost predicate RowsCopied(k: Crypto, h: Shared) {
    forall c, n :: (c, n) in h.s.replicas ==> Copied(k, h, c, n)
  }

  /** c is piece i of its job. */
  predicate IsPiece(k: Crypto, job: Job, c: Id, chunk: Chunk) {
    chunk.seqNo < |JobRows(k, job)| && JobRows(k, job)[chunk.seqNo] == ChunkRow(c, chunk)
  }

  ghost predicate ChunksFit(k: Crypto, h: Shared) {
    forall c :: c in h.s.chunks ==>
      h.s.chunks[c].fileId in h.jobs && IsPiece(k, h.jobs[h.s.chunks[c].fileId], c, h.s.chunks[c])
  }

  /** The chunk table lists the job completely, and there is something to list. */
  ghost predicate Listed(k: Crypto, h: Shared, f: Id) {
    f in h.jobs && Tabled(k, h.s, h.jobs[f]) && JobRows(k, h.jobs[f]) != []
  }

  ghost predicate ActiveListed(k: Crypto, h: Shared) {
    forall f :: f in h.s.files && h.s.files[f].status.Active? ==> Listed(k, h, f)
  }

  ghost predicate Solid(k: Crypto, h: Shared) {
    RowsCopied(k, h) && ChunksFit(k, h) && ActiveListed(k, h)
  }

  // ---------- what each thread knows besides ----------

  predicate PayloadFits(k: Crypto, job: Job, turn: Turn) {
    turn.i < |JobRows(k, job)| ==> Legible(k, job.encrypted, JobRows(k, job)[turn.i].chunk.sha, turn.payload)
  }

  ghost predicate UploadKnows(k: Crypto, h: Shared, job: Job, st: UploadStage) {
    match st
    case Probe(turn) => PayloadFits(k, job, turn)
    case Send(turn) => PayloadFits(k, job, turn)
    case AddReplica(turn) =>
      && PayloadFits(k, job, turn)
      && (turn.i < |JobRows(k, job)| && turn.j < |turn.targets| ==>
          Copied(k, h, JobRows(k, job)[turn.i].id, turn.targets[turn.j].id))
    case SetOutcome(ok) => Tabled(k, h.s, job) && (ok ==> JobRows(k, job) != [])
    case _ => true
  }

  ghost predicate RecoveryKnows(k: Crypto, h: Shared, st: RecoveryStage) {
    match st
    case Fetch(_, copying) => (copying.chunk, copying.source) in h.s.replicas
    case Store(_, copying, data) => Alive(h, copying.chunk) ==> Fitting(k, h, copying.chunk, data)
    case AddCopy(_, copying) => Copied(k, h, copying.chunk, copying.target)
    case _ => true
  }

  ghost predicate RowsThere(s: State, r: Reading, rows: seq<Row>) {
    r.i < |r.cs| ==> forall x :: x in rows ==> (r.cs[r.i], x.node) in s.replicas
  }

  ghost predicate DownloadKnows(k: Crypto, h: Shared, f: Id, st: DownloadStage) {
    match st
    case ReadNodeMap(_, cs) => AllOf(h.s, f, cs)
    case NextChunk(r) => AllOf(h.s, f, r.cs)
    case TryReplica(r, rows, _) => AllOf(h.s, f, r.cs) && RowsThere(h.s, r, rows)
    case Distrust(r, rows, _) => AllOf(h.s, f, r.cs) && RowsThere(h.s, r, rows)
        && (r.i < |r.cs| ==> !Alive(h, r.cs[r.i]))
    case _ => true
  }

  ghost predicate Knows(k: Crypto, h: Shared, t: Thread) {
    match t
    case Uploader(job, st) => UploadKnows(k, h, job, st)
    case Recoverer(_, st) => RecoveryKnows(k, h, st)
    case Downloader(f, st) => DownloadKnows(k, h, f, st)
    case _ => true
  }

  /** Effects that spoil no acceptable copy, distrust none and announce no file unprepared. */
  ghost predicate Mild(k: Crypto, h: Shared, e: Effect) {
    match e
    case CreatesFile(_, file) => file.status.Uploading?
    case CreatesChunks(f, rows) => f in h.jobs && rows == JobRows(k, h.jobs[f])
    case SetsFile(f, status) => status.Active? ==> Listed(k, h, f)
    case PutsRow(c, n, _) => Copied(k, h, c, n)
    case SetsRow(c, _, status) => status.Corrupted? ==> !Alive(h, c)
    case Writes(c, _, data) => Alive(h, c) ==> Fitting(k, h, c, data)
    case Erases(c, _) => !Alive(h, c)
    case _ => true
  }

  // ---------- what such effects keep ----------

  /** A dead chunk stays dead. */
  lemma AliveBefore(k: Crypto, h: Shared, e: Effect, c: Id)
    requires Allowed(k, h, e) && c in h.s.chunks && Alive(Act(h, e), c)
    ensures Alive(h, c)
  {
    hide Intact, GoodCopy, Fits, AddChunks, ChunkId;
    ChunksStay(k, h, e, c);
  }

  lemma FittingStays(k: Crypto, h: Shared, e: Effect, c: Id, b: Bytes)
    requires Allowed(k, h, e) && Fitting(k, h, c, b)
    ensures Fitting(k, Act(h, e), c, b)
  {
    hide Allowed, Act, Legible;
    ChunksStay(k, h, e, c);
    HistoriesGrow(h, e);
  }

  lemma DiskAfter(h: Shared, e: Effect, c: Id, n: Id)
    requires (c, n) in h.s.disk && !(e.Erases? && e.c == c && e.n == n)
    ensures (c, n) in Act(h, e).s.disk
    ensures Act(h, e).s.disk[(c, n)] == if e.Writes? && e.c == c && e.n == n then e.data else h.s.disk[(c, n)]
  {
    hide AddChunks, WithStatus;
  }

  lemma CopiedStays(k: Crypto, h: Shared, e: Effect, c: Id, n: Id)
    requires Allowed(k, h, e) && Mild(k, h, e) && c in h.s.chunks && Copied(k, h, c, n)
    ensures Copied(k, Act(h, e), c, n)
  {
    hide Allowed, Act, Fitting, Listed, JobRows, Alive;
    if Alive(Act(h, e), c) {
      AliveBefore(k, h, e, c);
      DiskAfter(h, e, c, n);
      FittingStays(k, h, e, c, Act(h, e).s.disk[(c, n)]);
    }
  }

  lemma RowsStay(h: Shared, e: Effect, c: Id, n: Id)
    requires (c, n) in h.s.replicas
    ensures (c, n) in Act(h, e).s.replicas
  {
    hide AddChunks, WithStatus;
  }

  lemma RowsCopiedKept(k: Crypto, h: Shared, e: Effect)
    requires Allowed(k, h, e) && Mild(k, h, e) && RowsGood(k, h) && RowsCopied(k, h)
    ensures RowsCopied(k, Act(h, e))
  {
    hide Act, Copied, GoodCopy, Intact, Covered, NoChunks, Fits, FreshRows, Alive, Fitting, Listed, JobRows;
    forall c, n | (c, n) in Act(h, e).s.replicas ensures Copied(k, Act(h, e), c, n) {
      RowAfter(k, h, e, c, n);
      CopiedStays(k, h, e, c, n);
    }
  }

  lemma ChunksFitKept(k: Crypto, h: Shared, e: Effect)
    requires Allowed(k, h, e) && Mild(k, h, e) && ChunksFit(k, h)
    ensures ChunksFit(k, Act(h, e))
  {
    hide Act, Allowed, Mild, IsPiece;
    HistoriesGrow(h, e);
    forall c | c in Act(h, e).s.chunks
      ensures var g := Act(h, e);
              g.s.chunks[c].fileId in g.jobs && IsPiece(k, g.jobs[g.s.chunks[c].fileId], c, g.s.chunks[c])
    {
      if c in h.s.chunks {
        ChunksStay(k, h, e, c);
      } else {
        NewChunk(k, h, e, c);
        NewPiece(k, h, e, c);
      }
    }
  }

  lemma NewPiece(k: Crypto, h: Shared, e: Effect, c: Id)
    requires Mild(k, h, e) && e.CreatesChunks? && c in Act(h, e).s.chunks && c !in h.s.chunks
    ensures IsPiece(k, h.jobs[e.f], c, Act(h, e).s.chunks[c])
  {
    hide AddChunks, JobRows;
    JobRowsDescribe(k, h.jobs[e.f]);
    AddChunksHas(h.s.chunks, e.rows);
    var i :| 0 <= i < |e.rows| && e.rows[i].id == c;
    RowNumber(k, h.jobs[e.f], i);
  }

  lemma ListedStays(k: Crypto, h: Shared, e: Effect, f: Id)
    requires Allowed(k, h, e) && Listed(k, h, f)
    ensures Listed(k, Act(h, e), f)
  {
    hide Allowed, Act, Tabled, JobRows;
    TabledStays(k, h, e, h.jobs[f]);
    HistoriesGrow(h, e);
  }

  lemma ActiveAfter(k: Crypto, h: Shared, e: Effect, f: Id)
    requires Mild(k, h, e) && f in Act(h, e).s.files && Act(h, e).s.files[f].status.Active?
    ensures Listed(k, h, f) || (f in h.s.files && h.s.files[f].status.Active?)
  {
    hide AddChunks, Listed, JobRows, Copied, Alive, Fitting;
  }

  lemma ActiveListedKept(k: Crypto, h: Shared, e: Effect)
    requires Allowed(k, h, e) && Mild(k, h, e) && ActiveListed(k, h)
    ensures ActiveListed(k, Act(h, e))
  {
    hide Allowed, Mild, Act, Listed;
    forall f | f in Act(h, e).s.files && Act(h, e).s.files[f].status.Active? ensures Listed(k, Act(h, e), f) {
      ActiveAfter(k, h, e, f);
      ListedStays(k, h, e, f);
    }
  }

  lemma SolidKept(k: Crypto, h: Shared, e: Effect)
    requires Allowed(k, h, e) && Mild(k, h, e) && SharedOk(k, h) && Solid(k, h)
    ensures Solid(k, Act(h, e))
  {
    hide Allowed, Mild, Act, RowsCopied, ChunksFit, ActiveListed, RowsGood, FilesKnown, ChunksKnown;
    RowsCopiedKept(k, h, e);
    ChunksFitKept(k, h, e);
    ActiveListedKept(k, h, e);
  }

  lemma UploadKeepsKnowing(k: Crypto, h: Shared, e: Effect, job: Job, st: UploadStage)
    requires Allowed(k, h, e) && Mild(k, h, e) && UploadOk(k, h, job, st) && UploadKnows(k, h, job, st)
    ensures UploadKnows(k, Act(h, e), job, st)
  {
    hide Allowed, Mild, Act, JobRows, Tabled, PayloadFits, Copied, GoodCopy, NoChunks;
    if st.AddReplica? && st.turn.i < |JobRows(k, job)| && st.turn.j < |st.turn.targets| {
      TabledRow(k, h.s, job, st.turn.i);
      CopiedStays(k, h, e, JobRows(k, job)[st.turn.i].id, st.turn.targets[st.turn.j].id);
    } else if st.SetOutcome? {
      TabledStays(k, h, e, job);
    }
  }

  lemma RecoveryKeepsKnowing(k: Crypto, h: Shared, e: Effect, st: RecoveryStage)
    requires Allowed(k, h, e) && Mild(k, h, e) && RecoveryOk(k, h, st) && RecoveryKnows(k, h, st)
    ensures RecoveryKnows(k, Act(h, e), st)
  {
    hide Allowed, Mild, Act, Copied, Alive, Fitting, GoodCopy;
    if st.Fetch? {
      RowsStay(h, e, st.copying.chunk, st.copying.source);
    } else if st.Store? {
      if Alive(Act(h, e), st.copying.chunk) {
        AliveBefore(k, h, e, st.copying.chunk);
        FittingStays(k, h, e, st.copying.chunk, st.data);
      }
    } else if st.AddCopy? {
      CopiedStays(k, h, e, st.copying.chunk, st.copying.target);
    }
  }

  lemma RowsThereStays(h: Shared, e: Effect, r: Reading, rows: seq<Row>)
    requires RowsThere(h.s, r, rows)
    ensures RowsThere(Act(h, e).s, r, rows)
  {
    hide Act;
    if r.i < |r.cs| {
      forall x | x in rows ensures (r.cs[r.i], x.node) in Act(h, e).s.replicas {
        RowsStay(h, e, r.cs[r.i], x.node);
      }
    }
  }

  lemma DownloadKeepsKnowing(k: Crypto, h: Shared, e: Effect, f: Id, st: DownloadStage)
    requires Allowed(k, h, e) && DownloadKnows(k, h, f, st)
    ensures DownloadKnows(k, Act(h, e), f, st)
  {
    hide Allowed, Act, AllOf, RowsThere, Alive;
    match st {
      case ReadFile =>
      case ReadChunks(_) =>
      case ReadNodeMap(_, cs) => AllOfStays(k, h, e, f, cs);
      case NextChunk(r) => AllOfStays(k, h, e, f, r.cs);
      case TryReplica(r, rows, _) =>
        AllOfStays(k, h, e, f, r.cs);
        RowsThereStays(h, e, r, rows);
      case Distrust(r, rows, _) =>
        AllOfStays(k, h, e, f, r.cs);
        RowsThereStays(h, e, r, rows);
        if r.i < |r.cs| && Alive(Act(h, e), r.cs[r.i]) {
          assert r.cs[r.i] in h.s.chunks by { ListedChunk(h.s, f, r.cs, r.i); }
          AliveBefore(k, h, e, r.cs[r.i]);
        }
    }
  }

  lemma ListedChunk(s: State, f: Id, cs: seq<Id>, i: nat)
    requires AllOf(s, f, cs) && i < |cs|
    ensures cs[i] in s.chunks && s.chunks[cs[i]].fileId == f
  {
    assert cs[i] in cs;
  }

  /** Rely, without tampering. */
  lemma KnowingStays(k: Crypto, h: Shared, e: Effect, t: Thread)
    requires Allowed(k, h, e) && Mild(k, h, e) && ThreadOk(k, h, t) && Knows(k, h, t)
    ensures Knows(k, Act(h, e), t)
  {
    hide Allowed, Mild, Act, UploadKnows, RecoveryKnows, DownloadKnows, UploadOk, RecoveryOk, DownloadOk;
    match t {
      case Uploader(job, st) => UploadKeepsKnowing(k, h, e, job, st);
      case Recoverer(_, st) => RecoveryKeepsKnowing(k, h, e, st);
      case Downloader(f, st) => DownloadKeepsKnowing(k, h, e, f, st);
      case Registrar(_, _, _) =>
      case Deleter(_, _) =>
      case Returned(_, _) =>
      case Done =>
    }
  }

  // ---------- every move is mild and leaves its thread knowing what it should ----------

  lemma PayloadIsFitting(k: Crypto, env: Env, job: Job, i: nat)
    requires RoundTrips(k) && i < |JobRows(k, job)|
    ensures i < |Pieces(job.data, job.chunkSize)|
    ensures var row := JobRows(k, job)[i];
            Legible(k, job.encrypted, row.chunk.sha, Payload(k, env, job, row, Pieces(job.data, job.chunkSize)[i]))
  {
    hide Pieces, ChunkId;
    JobRowsDescribe(k, job);
  }

  lemma StartingMild(k: Crypto, env: Env, h: Shared, job: Job, st: UploadStage)
    requires RoundTrips(k) && ThreadOk(k, h, Uploader(job, st)) && UploadKnows(k, h, job, st)
    requires st.MakeFile? || st.MakeChunks? || st.ReadNodes? || st.Choose? || st.SetOutcome?
    ensures var (t, e) := UploadMove(k, env, h.s, job, st);
            Mild(k, h, e) && Knows(k, Act(h, e), t)
  {
    hide JobRows, OnlineRows, Select, Tabled, Pieces, Payload, AddChunks, Legible, RoundTrips, NoChunks, Concat;
    if st.Choose? && st.i < |JobRows(k, job)| {
      PayloadIsFitting(k, env, job, st.i);
    }
  }

  lemma TransferMild(k: Crypto, env: Env, h: Shared, job: Job, st: UploadStage)
    requires ThreadOk(k, h, Uploader(job, st)) && UploadKnows(k, h, job, st)
             && (st.Probe? || st.Send? || st.AddReplica?)
    ensures var (t, e) := UploadMove(k, env, h.s, job, st);
            Mild(k, h, e) && Knows(k, Act(h, e), t)
  {
    hide JobRows, Tabled, Alive, GoodCopy, Intact;
    if st.turn.i < |JobRows(k, job)| && st.turn.j < |st.turn.targets| {
      TabledRow(k, h.s, job, st.turn.i);
      RowNumber(k, job, st.turn.i);
      TabledRemains(k, h, UploadMove(k, env, h.s, job, st).1, job);
    }
  }

  /** Row and disk effects leave the chunk table alone. */
  lemma TabledRemains(k: Crypto, h: Shared, e: Effect, job: Job)
    requires Tabled(k, h.s, job) && (e.Quiet? || e.Verifies? || e.Writes? || e.PutsRow?)
    ensures Tabled(k, Act(h, e).s, job)
  {
    hide JobRows;
  }

  lemma FetchingMild(k: Crypto, env: Env, h: Shared, n: Id, st: RecoveryStage)
    requires RowsCopied(k, h) && RecoveryKnows(k, h, st) && !st.Decide?
    ensures var (t, e) := RecoveryMove(k, env, h.s, n, st);
            Mild(k, h, e) && Knows(k, Act(h, e), t)
  {
    hide OnlineRows, Affected, Legible, AddChunks, WithStatus;
  }

  lemma DecideKnows(k: Crypto, env: Env, h: Shared, n: Id, pass: Progress)
    requires Fair(env)
    ensures Knows(k, h, DecideMove(env, h.s, n, pass))
  {
    hide ChunkRows, Select, Occupied, MaxNumber, Fair, Copied, Alive, Fitting;
    if pass.i < |pass.all| {
      var c := pass.all[pass.i];
      var rows := ChunkRows(h.s.replicas, env, c);
      var surviving := Surviving(pass.nodeMap, rows);
      if surviving != [] {
        FilterIn(rows, r => Survives(pass.nodeMap, r), surviving[0]);
        ChunkRowsHas(h.s.replicas, env, c, surviving[0]);
      }
    }
  }

  /** A replica of a living chunk that answers is never distrusted. */
  lemma TryKnows(k: Crypto, env: Env, h: Shared, f: Id, r: Reading, rows: seq<Row>, j: nat)
    requires RowsCopied(k, h) && AllOf(h.s, f, r.cs) && RowsThere(h.s, r, rows) && Fits(k, h, f, r.file)
    ensures Knows(k, h, TryMove(k, env, h.s, f, r, rows, j))
  {
    hide Plain, Alive, RowsThere, AllOf, Pieces, Concat, RowsCopied;
    if r.i < |r.cs| && j < |rows| && r.cs[r.i] in h.s.chunks {
      var c, n := r.cs[r.i], rows[j].node;
      ListedChunk(h.s, f, r.cs, r.i);
      RowThere(h.s, r, rows, j);
      assert Copied(k, h, c, n) by { RowCopied(k, h, c, n); }
    }
  }

  lemma RowThere(s: State, r: Reading, rows: seq<Row>, j: nat)
    requires RowsThere(s, r, rows) && r.i < |r.cs| && j < |rows|
    ensures (r.cs[r.i], rows[j].node) in s.replicas
  {
    assert rows[j] in rows;
  }

  lemma RowCopied(k: Crypto, h: Shared, c: Id, n: Id)
    requires RowsCopied(k, h) && (c, n) in h.s.replicas
    ensures Copied(k, h, c, n)
  {
    hide Copied;
  }

  lemma StoredRowsThere(env: Env, s: State, r: Reading)
    requires Fair(env) && r.i < |r.cs|
    ensures RowsThere(s, r, StoredRows(s.replicas, env, r.cs[r.i]))
  {
    hide StoredRows, Fair;
    forall x | x in StoredRows(s.replicas, env, r.cs[r.i]) ensures (r.cs[r.i], x.node) in s.replicas {
      StoredRowsHas(s.replicas, env, r.cs[r.i], x);
    }
  }

  lemma ReadingMild(k: Crypto, env: Env, h: Shared, f: Id, st: DownloadStage)
    requires Fair(env) && RowsCopied(k, h) && DownloadOk(k, h, f, st) && DownloadKnows(k, h, f, st)
    ensures var (t, e) := DownloadMove(k, env, h.s, f, st);
            Mild(k, h, e) && Knows(k, Act(h, e), t)
  {
    hide ChunkList, StoredRows, Fair, RowsCopied, Fits, Alive, RowsThere, TryMove;
    if st.NextChunk? && st.reading.i < |st.reading.cs| {
      StoredRowsThere(env, h.s, st.reading);
    } else if st.TryReplica? {
      TryKnows(k, env, h, f, st.reading, st.rows, st.j);
    } else if st.Distrust? {
      RowsThereStays(h, DownloadMove(k, env, h.s, f, st).1, st.reading, st.rows);
    }
  }

  lemma DeletingMild(k: Crypto, env: Env, h: Shared, f: Id, st: DeleteStage)
    requires Fair(env) && DeleteOk(h, f, st)
    ensures var (t, e) := DeleteMove(env, h.s, f, st);
            Mild(k, h, e) && Knows(k, Act(h, e), t)
  {
    hide ChunkRows, ChunkList, Fair;
  }

  lemma RegisteringMild(k: Crypto, env: Env, h: Shared, n: Id, node: Node, st: RegisterStage)
    ensures var (t, e) := RegisterMove(k, env, h.s, n, node, st);
            Mild(k, h, e) && Knows(k, Act(h, e), t)
  {
    hide MissingOn;
  }

  lemma QuietIsMild(k: Crypto, h: Shared)
    ensures Mild(k, h, Quiet) && Act(h, Quiet) == h
  {}

  /** Guarantee, without tampering. */
  lemma MoveMild(k: Crypto, env: Env, h: Shared, t: Thread)
    requires RoundTrips(k) && Fair(env) && Solid(k, h) && ThreadOk(k, h, t) && Knows(k, h, t)
    ensures var (next, e) := Move(k, env, h.s, t);
            Mild(k, h, e) && Knows(k, Act(h, e), next)
  {
    hide Fair, RoundTrips, Mild, Act, UploadMove, RegisterMove, DownloadMove, DeleteMove, DecideMove, RowsCopied,
         ChunksFit, ActiveListed, UploadOk, RecoveryOk, RegisterOk, DownloadOk, DeleteOk, UploadKnows, RecoveryKnows,
         DownloadKnows;
    match t {
      case Uploader(job, st) =>
        if st.Probe? || st.Send? || st.AddReplica? {
          TransferMild(k, env, h, job, st);
        } else {
          StartingMild(k, env, h, job, st);
        }
      case Recoverer(n, st) =>
        if st.Decide? {
          DecideKnows(k, env, h, n, st.pass);
          QuietIsMild(k, h);
        } else {
          FetchingMild(k, env, h, n, st);
        }
      case Registrar(n, node, st) => RegisteringMild(k, env, h, n, node, st);
      case Downloader(f, st) => ReadingMild(k, env, h, f, st);
      case Deleter(f, st) => DeletingMild(k, env, h, f, st);
      case Returned(_, _) => QuietIsMild(k, h);
      case Done => QuietIsMild(k, h);
    }
  }

  // ---------- the whole machine, without tampering ----------

  ghost predicate AllKnow(k: Crypto, h: Shared, threads: map<nat, Thread>) {
    forall tid :: tid in threads ==> Knows(k, h, threads[tid])
  }

  ghost predicate MachineSolid(k: Crypto, w: Machine) {
    Solid(k, w.h) && AllKnow(k, w.h, w.threads)
  }

  lemma AdvanceSolid(k: Crypto, w: Machine, tid: nat, env: Env)
    requires RoundTrips(k) && MachineOk(k, w) && MachineSolid(k, w) && Possible(k, w, Advance(tid, env))
    ensures MachineSolid(k, Happen(k, w, Advance(tid, env)))
  {
    hide Fair, RoundTrips, SharedOk, Solid, ThreadOk, Knows, Allowed, Mild, Act, Move, OneUploadEach, Exclusive;
    var t := w.threads[tid];
    var (next, e) := Move(k, env, w.h.s, t);
    MoveOk(k, env, w.h, t);
    MoveMild(k, env, w.h, t);
    SolidKept(k, w.h, e);
    forall other | other in w.threads && other != tid ensures Knows(k, Act(w.h, e), w.threads[other]) {
      KnowingStays(k, w.h, e, w.threads[other]);
    }
  }

  lemma AnnounceSolid(k: Crypto, h: Shared, job: Job)
    requires SharedOk(k, h) && Solid(k, h) && job.fileId !in h.jobs
    ensures Solid(k, Announced(h, job))
  {
    hide Legible, JobRows, Tabled, Pieces, Concat, ChunkId, RowsGood;
    var g := Announced(h, job);
    forall c, n | Copied(k, h, c, n) ensures Copied(k, g, c, n) {}
    hide Copied;
  }

  lemma AnnounceKnows(k: Crypto, h: Shared, job: Job, t: Thread)
    requires Knows(k, h, t) && job.fileId !in h.jobs
    ensures Knows(k, Announced(h, job), t)
  {
    hide Legible, JobRows, Tabled, AllOf, RowsThere, PayloadFits;
    var g := Announced(h, job);
    forall c, n | Copied(k, h, c, n) ensures Copied(k, g, c, n) {}
    forall c, b | Fitting(k, h, c, b) ensures Fitting(k, g, c, b) {}
    assert forall c :: Alive(g, c) <==> Alive(h, c);
    hide Copied, Alive, Fitting;
  }

  lemma BeatSolid(k: Crypto, w: Machine, n: Id, avail: int, total: int, now: int)
    requires MachineOk(k, w) && MachineSolid(k, w)
    ensures MachineSolid(k, w.(h := w.h.(s := Heartbeat(w.h.s, n, avail, total, now))))
  {
    hide SharedOk, Solid, ThreadOk, Knows, Allowed, Mild;
    var e := if n in w.h.s.nodes then PutsNode(n, Node(total, avail, Online, now)) else Quiet;
    assert Act(w.h, e) == w.h.(s := Heartbeat(w.h.s, n, avail, total, now));
    NodeEffectsAllowed(k, w.h, e);
    NodeEffectsMild(k, w.h, e);
    SolidKept(k, w.h, e);
    forall tid | tid in w.threads ensures Knows(k, Act(w.h, e), w.threads[tid]) {
      KnowingStays(k, w.h, e, w.threads[tid]);
    }
  }

  lemma NodeEffectsMild(k: Crypto, h: Shared, e: Effect)
    requires e.PutsNode? || e.Quiet?
    ensures Mild(k, h, e)
  {}

  lemma NewcomerKnows(k: Crypto, h: Shared, t: Thread)
    requires Newcomer(t) || (t.Uploader? && t.up.MakeFile?)
    ensures Knows(k, h, t)
  {}

  /** Without tampering every action keeps an acceptable copy behind every row of a living file. */
  lemma ActionSolid(k: Crypto, w: Machine, a: Action)
    requires RoundTrips(k) && MachineOk(k, w) && MachineSolid(k, w) && Possible(k, w, a) && !a.TamperWith?
    ensures MachineSolid(k, Happen(k, w, a))
  {
    hide Fair, RoundTrips, MachineOk, Solid, Knows, Move, Act, Heartbeat;
    match a {
      case StartUpload(tid, job) =>
        AnnouncedSolid(k, w, job);
        NewcomerKnows(k, Announced(w.h, job), Uploader(job, MakeFile));
      case StartRecover(tid, n) => NewcomerKnows(k, w.h, Recoverer(n, RecoveryWaits));
      case StartRegister(tid, n, node) => NewcomerKnows(k, w.h, Registrar(n, node, PutNode));
      case StartDownload(tid, f) => NewcomerKnows(k, w.h, Downloader(f, ReadFile));
      case StartDelete(tid, f) => NewcomerKnows(k, w.h, Deleter(f, FindFile));
      case Advance(tid, env) => AdvanceSolid(k, w, tid, env);
      case Beat(n, avail, total, now) => BeatSolid(k, w, n, avail, total, now);
    }
  }

  lemma AnnouncedSolid(k: Crypto, w: Machine, job: Job)
    requires MachineOk(k, w) && MachineSolid(k, w) && job.fileId !in w.h.jobs
    ensures MachineSolid(k, w.(h := Announced(w.h, job)))
  {
    hide SharedOk, Solid, ThreadsOk, OneUploadEach, Exclusive, Knows, Announced;
    AnnounceSolid(k, w.h, job);
    forall tid | tid in w.threads ensures Knows(k, Announced(w.h, job), w.threads[tid]) {
      AnnounceKnows(k, w.h, job, w.threads[tid]);
    }
  }

  /** No action of the schedule is tampering. */
  ghost predicate Untampered(actions: seq<Action>) {
    forall i :: 0 <= i < |actions| ==> !actions[i].TamperWith?
  }

  lemma {:induction false} PlaySolid(k: Crypto, w: Machine, actions: seq<Action>)
    requires RoundTrips(k) && MachineOk(k, w) && MachineSolid(k, w) && Schedule(k, w, actions) && Untampered(actions)
    ensures MachineSolid(k, Play(k, w, actions))
    decreases |actions|
  {
    hide MachineOk, MachineSolid, Happen, Possible, RoundTrips;
    if actions != [] {
      ActionKeeps(k, w, actions[0]);
      ActionSolid(k, w, actions[0]);
      assert forall i :: 0 <= i < |actions[1..]| ==> actions[1..][i] == actions[i + 1];
      PlaySolid(k, Happen(k, w, actions[0]), actions[1..]);
    }
  }

  lemma IdleIsSolid(k: Crypto, w: Machine)
    requires Idle(w)
    ensures MachineSolid(k, w)
  {}

  /** After any untampered interleaved run from the empty cluster, every row of a file that exists and is not being
      deleted, encrypted or not, whatever the row's status, has a copy behind it that a download would accept. */
  lemma UntamperedRowsAreLegible(k: Crypto, start: Machine, actions: seq<Action>, c: Id, n: Id)
    requires RoundTrips(k) && Idle(start) && Schedule(k, start, actions) && Untampered(actions)
    requires var h := Play(k, start, actions).h; (c, n) in h.s.replicas && Alive(h, c)
    ensures var s := Play(k, start, actions).h.s;
            && (c, n) in s.disk
            && Legible(k, s.files[s.chunks[c].fileId].encrypted, s.chunks[c].sha, s.disk[(c, n)])
  {
    hide Idle, Solid, Play, Schedule, RoundTrips, Legible, SharedOk, ThreadsOk, OneUploadEach, Exclusive, Untampered;
    IdleIsOk(k, start);
    IdleIsSolid(k, start);
    PlayKeeps(k, start, actions);
    PlaySolid(k, start, actions);
    RowIsLegible(k, Play(k, start, actions).h, c, n);
  }

  lemma RowIsLegible(k: Crypto, h: Shared, c: Id, n: Id)
    requires SharedOk(k, h) && Solid(k, h) && (c, n) in h.s.replicas && Alive(h, c)
    ensures (c, n) in h.s.disk
    ensures Legible(k, h.s.files[h.s.chunks[c].fileId].encrypted, h.s.chunks[c].sha, h.s.disk[(c, n)])
  {
    hide Legible, ChunksFit, ActiveListed;
    assert Copied(k, h, c, n);
  }
}
