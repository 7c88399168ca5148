/** When ACTIVE files stay readable under interleaving: exactly when no upload declares success blindly. */
module Durability {
  import opened Types
  import opened Naming
  import opened Chunking
  import opened Placement
  import opened Recovery
  import opened Transfers
  import opened Downloads
  import opened Runs
  import opened Interleaving
  import opened Races
  import opened Hazards
  import opened Endurance

  ghost predicate Held(s: State, c: Id) {
    exists n :: IsStored(s, c, n) && IsOnline(s, n)
  }

  /** The pass t has taken c up, or will, and has yet to decide what becomes of it. */
  predicate Owes(s: State, t: Thread, c: Id) {
    t.Recoverer? &&
    match t.rec
    case ReadAffected => (c, t.n) in s.replicas
    case MarkMissing(all, _) => c in all
    case ReadOnline(all) => c in all
    case ReadMap(all, _) => c in all
    case Decide(pass) => pass.i <= |pass.all| && c in pass.all[pass.i..]
    case Doom(pass) => pass.i <= |pass.all| && c in pass.all[pass.i..]
    case Fetch(pass, _) => pass.i < |pass.all| && c in pass.all[pass.i + 1..]
    case Store(pass, _, _) => pass.i < |pass.all| && c in pass.all[pass.i + 1..]
    case AddCopy(pass, _) => pass.i < |pass.all| && c in pass.all[pass.i + 1..]
    case _ => false
  }

  ghost predicate Undecided(w: Machine, c: Id) {
    w.lock.Some? && w.lock.value in w.threads && Owes(w.h.s, w.threads[w.lock.value], c)
  }

  ghost predicate Kept(w: Machine, c: Id) {
    Held(w.h.s, c) || Undecided(w, c)
  }

  /** c belongs to an ACTIVE file that asked for replicas and is not being deleted. */
  ghost predicate Wanted(h: Shared, c: Id) {
    Alive(h, c) && h.s.files[h.s.chunks[c].fileId].status.Active? && h.s.files[h.s.chunks[c].fileId].rf >= 1
  }

  /** Every wanted chunk has a STORED row on an ONLINE node, or the running pass has still to decide it. */
  ghost predicate Durable(w: Machine) {
    forall c :: Wanted(w.h, c) ==> Kept(w, c)
  }

  /** An upload reports success while some chunk of it is neither held by an ONLINE node nor before the running pass. */
  ghost predicate Blind(k: Crypto, w: Machine, a: Action) {
    && a.Advance? && a.tid in w.threads && w.threads[a.tid].Uploader? && w.threads[a.tid].up == SetOutcome(true)
    && var job := w.threads[a.tid].job;
       && job.rf >= 1 && job.fileId in w.h.s.files && job.fileId !in w.h.dying
       && exists i :: 0 <= i < |JobRows(k, job)| && !Kept(w, JobRows(k, job)[i].id)
  }

  // ---------- who can want more ----------

  /** A chunk wanted after an effect was wanted before, or its file has just been declared ACTIVE. */
  lemma WantedBefore(k: Crypto, h: Shared, e: Effect, c: Id)
    requires Allowed(k, h, e) && Mild(k, h, e) && SharedOk(k, h) && Solid(k, h) && Wanted(Act(h, e), c)
    ensures c in h.s.chunks && Alive(h, c) && Act(h, e).s.chunks[c] == h.s.chunks[c]
    ensures Wanted(h, c) || (e.SetsFile? && e.outcome.Active? && e.f == h.s.chunks[c].fileId && h.s.files[e.f].rf >= 1)
  {
    hide Allowed, Mild, RowsGood, FilesKnown, ChunksKnown, RowsCopied, ChunksFit, ActiveListed, JobRows, Tabled,
         AddChunks;
    if c !in h.s.chunks {
      NewChunk(k, h, e, c);
      NewChunkIsNotActive(k, h, e);
    } else {
      ChunksStay(k, h, e, c);
      AliveBefore(k, h, e, c);
      FileAfter(k, h, e, h.s.chunks[c].fileId);
    }
  }

  lemma NewChunkIsNotActive(k: Crypto, h: Shared, e: Effect)
    requires Allowed(k, h, e) && ActiveListed(k, h) && e.CreatesChunks?
    requires ChunksFit(k, h) && FilesKnown(k, h)
    ensures e.f in Act(h, e).s.files ==> !Act(h, e).s.files[e.f].status.Active?
  {
    hide AddChunks, FreshRows, DistinctChunks, JobRows, IsPiece, Pieces, Concat;
    if e.f in h.s.files && h.s.files[e.f].status.Active? {
      var job := h.jobs[e.f];
      TabledRow(k, h.s, job, 0);
      RowNumber(k, job, 0);
    }
  }

  /** What an effect can do to the row of an existing file that is still there afterwards. */
  lemma FileAfter(k: Crypto, h: Shared, e: Effect, f: Id)
    requires Allowed(k, h, e) && f in h.s.files && f in Act(h, e).s.files
    ensures Act(h, e).s.files[f] ==
            if e.SetsFile? && e.f == f then h.s.files[f].(status := e.outcome) else h.s.files[f]
  {
    hide AddChunks, FreshRows, DistinctChunks, NoChunks, Fits, GoodCopy, Covered, Intact;
  }

  // ---------- holders under an effect ----------

  lemma HolderStays(h: Shared, e: Effect, c: Id, n: Id)
    requires IsStored(h.s, c, n) && IsOnline(h.s, n)
    requires !(e.TakesOffline? && e.n == n) && (e.PutsNode? ==> e.node.status.Online?)
    requires !(e.SetsRow? && e.c == c && e.n == n && !e.status.Stored?)
    ensures Held(Act(h, e).s, c)
  {
    hide IsStored, IsOnline, Act;
    OnlineStays(h, e, n);
    StoredAfterwards(h, e, c, n);
  }

  lemma StoredAfterwards(h: Shared, e: Effect, c: Id, n: Id)
    requires IsStored(h.s, c, n) && !(e.SetsRow? && e.c == c && e.n == n && !e.status.Stored?)
    ensures IsStored(Act(h, e).s, c, n)
  {
    hide Act, IsStored;
    StoredAfter(h, e, c, n);
    StoresIfThere(h.s, e, c, n);
  }

  lemma StoresIfThere(s: State, e: Effect, c: Id, n: Id)
    requires IsStored(s, c, n)
    ensures e.SetsRow? && e.c == c && e.n == n && e.status.Stored? ==> Stores(s, e, c, n)
  {}

  /** Rows are only ever marked by the pass, distrusted by downloads, and flipped back by reconciliations. */
  lemma RowSetters(k: Crypto, env: Env, s: State, t: Thread)
    requires Fair(env) && Move(k, env, s, t).1.SetsRow?
    ensures var e := Move(k, env, s, t).1;
            || e.status.Stored? || e.status.Corrupted?
            || (e.status.Missing? && t.Recoverer? && t.rec.MarkMissing? && e.n == t.n
                && t.rec.i < |t.rec.all| && e.c == t.rec.all[t.rec.i])
  {
    hide Fair, OnlineRows, ChunkList, Select, ChunkRows, StoredRows, Surviving, JobRows, Plain, Affected, MissingOn,
         DecideMove;
  }

  // ---------- the holder of the lock moves ----------

  lemma InTail(c: Id, all: seq<Id>, i: nat)
    requires i < |all| && c in all[i..]
    ensures c == all[i] || c in all[i + 1..]
  {
    assert all[i..] == [all[i]] + all[i + 1..];
  }

  /** Reading steps of a pass keep what it owes. */
  lemma ReadingOwes(k: Crypto, env: Env, s: State, n: Id, st: RecoveryStage, c: Id)
    requires Fair(env) && Owes(s, Recoverer(n, st), c)
             && (st.ReadAffected? || st.MarkMissing? || st.ReadOnline? || st.ReadMap?)
    ensures Owes(s, RecoveryMove(k, env, s, n, st).0, c) && !RecoveryMove(k, env, s, n, st).1.Unlocks?
  {
    hide Affected, DecideMove, OnlineRows;
    if st.ReadAffected? {
      assert Enumerates(env.scan(RowsOnNode(n), Affected(s, n)), Affected(s, n));
      MarkedRows(s, n, c, n);
    } else if st.ReadMap? {
      assert st.all[0..] == st.all;
    }
  }

  /** A decision settles the chunk it is about: it has a holder, or it goes on to be doomed. */
  lemma DecidingOwes(k: Crypto, env: Env, s: State, n: Id, pass: Progress, c: Id)
    requires Fair(env) && Owes(s, Recoverer(n, Decide(pass)), c) && PassSees(s, pass)
    ensures Owes(s, DecideMove(env, s, n, pass), c) || Held(s, c)
  {
    hide Fair, ChunkRows, Select, Occupied, MaxNumber, Surviving, IsOnline;
    InTail(c, pass.all, pass.i);
    var rows := ChunkRows(s.replicas, env, pass.all[pass.i]);
    if c == pass.all[pass.i] && Surviving(pass.nodeMap, rows) != [] {
      SurvivorHolds(env, s, pass, c);
    }
  }

  lemma SurvivorHolds(env: Env, s: State, pass: Progress, c: Id)
    requires Fair(env) && PassSees(s, pass) && Surviving(pass.nodeMap, ChunkRows(s.replicas, env, c)) != []
    ensures Held(s, c)
  {
    hide Fair, ChunkRows;
    var rows := ChunkRows(s.replicas, env, c);
    var row := Surviving(pass.nodeMap, rows)[0];
    FilterIn(rows, r => Survives(pass.nodeMap, r), row);
    ChunkRowsHas(s.replicas, env, c, row);
    assert IsStored(s, c, row.node) && IsOnline(s, row.node);
  }

  /** Copying steps: the other chunks are still owed. */
  lemma CopyingOwes(k: Crypto, env: Env, h: Shared, n: Id, st: RecoveryStage, c: Id)
    requires Owes(h.s, Recoverer(n, st), c) && (st.Fetch? || st.Store? || st.AddCopy?)
    ensures var (t, e) := RecoveryMove(k, env, h.s, n, st);
            !e.Unlocks? && Owes(Act(h, e).s, t, c)
  {
    hide DecideMove, Act;
  }

  /** Dooming a chunk makes its file CORRUPTED, so that nothing of it is wanted. */
  lemma DoomOwes(k: Crypto, env: Env, h: Shared, n: Id, pass: Progress, c: Id)
    requires Owes(h.s, Recoverer(n, Doom(pass)), c)
    ensures var (t, e) := RecoveryMove(k, env, h.s, n, Doom(pass));
            !e.Unlocks? && (Wanted(Act(h, e), c) ==> Owes(Act(h, e).s, t, c))
  {
    hide DecideMove, Wanted, Act;
    InTail(c, pass.all, pass.i);
    if c == pass.all[pass.i] {
      DoomedIsUnwanted(h, c);
    }
  }

  lemma DoomedIsUnwanted(h: Shared, c: Id)
    ensures c in h.s.chunks ==> !Wanted(Act(h, SetsFile(h.s.chunks[c].fileId, FileStatus.Corrupted)), c)
    ensures c !in h.s.chunks ==> !Wanted(Act(h, Quiet), c)
  {}

  /** What the running pass owes it goes on owing, settles with a holder, or makes unwanted. */
  lemma HolderOwes(k: Crypto, env: Env, h: Shared, t: Thread, c: Id)
    requires Fair(env) && t.Recoverer? && SeesOnline(h.s, t.rec) && Owes(h.s, t, c)
    ensures var (next, e) := Move(k, env, h.s, t);
            && !e.Unlocks?
            && (Wanted(Act(h, e), c) ==> Owes(Act(h, e).s, next, c) || Held(Act(h, e).s, c))
  {
    hide Fair, DecideMove, Wanted, Held, PassSees, RecoveryMove, Act;
    MoveOfRecovery(k, env, h.s, t);
    var (next, e) := RecoveryMove(k, env, h.s, t.n, t.rec);
    if t.rec.Decide? {
      DecidingOwes(k, env, h.s, t.n, t.rec.pass, c);
      DecideIsQuiet(k, env, h.s, t.n, t.rec);
      NoEffect(h);
    } else if t.rec.Doom? {
      DoomOwes(k, env, h, t.n, t.rec.pass, c);
    } else if t.rec.Fetch? || t.rec.Store? || t.rec.AddCopy? {
      CopyingOwes(k, env, h, t.n, t.rec, c);
    } else {
      ReadingOwes(k, env, h.s, t.n, t.rec, c);
      OwesAfterReading(k, env, h, t.n, t.rec, c);
    }
  }

  lemma DecideIsQuiet(k: Crypto, env: Env, s: State, n: Id, st: RecoveryStage)
    requires st.Decide?
    ensures RecoveryMove(k, env, s, n, st) == (DecideMove(env, s, n, st.pass), Quiet)
  {
    hide DecideMove;
  }

  lemma OwesAfterReading(k: Crypto, env: Env, h: Shared, n: Id, st: RecoveryStage, c: Id)
    requires st.ReadAffected? || st.MarkMissing? || st.ReadOnline? || st.ReadMap?
    requires Owes(h.s, RecoveryMove(k, env, h.s, n, st).0, c)
    ensures var (t, e) := RecoveryMove(k, env, h.s, n, st); Owes(Act(h, e).s, t, c)
  {
    hide DecideMove, OnlineRows, Affected;
  }

  // ---------- one move ----------

  /** Taking a node OFFLINE, or marking a row, the pass takes up what it may deprive of its holder. */
  lemma TakerOwes(k: Crypto, env: Env, s: State, n: Id, st: RecoveryStage, c: Id)
    requires Fair(env) && IsStored(s, c, n)
    ensures var (t, e) := RecoveryMove(k, env, s, n, st);
            && (st.TakeOffline? ==> Owes(s, t, c) && !e.Unlocks? && !e.Locks?)
            && (st.MarkMissing? && st.i < |st.all| && c == st.all[st.i] ==> Owes(s, t, c) && !e.Unlocks? && !e.Locks?)
  {
    hide DecideMove, OnlineRows, Affected;
  }

  /** Who moves the lock's thread, and how far effects reach what it owes. */
  lemma OwesReach(h: Shared, e: Effect, t: Thread, c: Id)
    requires Owes(h.s, t, c)
    ensures Owes(Act(h, e).s, t, c)
  {
    hide Act;
    if t.rec.ReadAffected? {
      RowsStay(h, e, c, t.n);
    }
  }

  lemma TakersMarkers(k: Crypto, env: Env, s: State, t: Thread, n: Id)
    requires Fair(env)
    requires var e := Move(k, env, s, t).1;
             (e.TakesOffline? && e.n == n) || (e.SetsRow? && e.n == n && !e.status.Stored? && !e.status.Corrupted?)
    ensures t.Recoverer? && t.n == n && Inside(t) && (t.rec.TakeOffline? || t.rec.MarkMissing?)
    ensures Move(k, env, s, t).1.SetsRow? ==>
              t.rec.MarkMissing? && t.rec.i < |t.rec.all| && Move(k, env, s, t).1.c == t.rec.all[t.rec.i]
    ensures Move(k, env, s, t).1.TakesOffline? ==> t.rec.TakeOffline?
  {
    hide Fair, Move;
    NodeEffects(k, env, s, t);
    if Move(k, env, s, t).1.SetsRow? {
      RowSetters(k, env, s, t);
    }
  }

  /** A held chunk that is still alive after the move has kept its holder, or has come before the running pass. */
  lemma HeldKept(k: Crypto, w: Machine, tid: nat, env: Env, c: Id)
    requires MachineOk(k, w) && Possible(k, w, Advance(tid, env)) && Held(w.h.s, c) && c in w.h.s.chunks
    requires var e := Move(k, env, w.h.s, w.threads[tid]).1; Mild(k, w.h, e) && Allowed(k, w.h, e)
    requires Alive(Act(w.h, Move(k, env, w.h.s, w.threads[tid]).1), c)
    ensures Kept(Happen(k, w, Advance(tid, env)), c)
  {
    hide Fair, SharedOk, ThreadsOk, OneUploadEach, Move, Act, IsStored, IsOnline, Alive, Allowed, Fitting, Copied,
         Listed, Inside, Owes, JobRows;
    var t := w.threads[tid];
    var (next, e) := Move(k, env, w.h.s, t);
    var n :| IsStored(w.h.s, c, n) && IsOnline(w.h.s, n);
    NodeEffects(k, env, w.h.s, t);
    AliveBefore(k, w.h, e, c);
    if (e.TakesOffline? && e.n == n) || (e.SetsRow? && e.c == c && e.n == n && !e.status.Stored?) {
      TakersMarkers(k, env, w.h.s, t, n);
      TakerOwes(k, env, w.h.s, n, t.rec, c);
      MoveOfRecovery(k, env, w.h.s, t);
      OwesReach(w.h, e, next, c);
      assert w.lock == Some(tid);
    } else {
      HolderStays(w.h, e, c, n);
    }
  }

  /** A chunk before the running pass is still before it, or settled, or no longer wanted. */
  lemma UndecidedKept(k: Crypto, w: Machine, tid: nat, env: Env, c: Id)
    requires MachineOk(k, w) && PassesSee(w) && Possible(k, w, Advance(tid, env)) && Undecided(w, c)
    requires Wanted(Act(w.h, Move(k, env, w.h.s, w.threads[tid]).1), c)
    ensures Kept(Happen(k, w, Advance(tid, env)), c)
  {
    hide Fair, MachineOk, SeesOnline, Move, Act, Owes, Wanted, Held;
    var t := w.threads[tid];
    var (next, e) := Move(k, env, w.h.s, t);
    if w.lock.value == tid {
      assert t.Recoverer? && Inside(t) by { OwersAreInside(w.h.s, t, c); }
      HolderOwes(k, env, w.h, t, c);
      MoveLocks(k, env, w.h.s, t);
    } else {
      LockKept(k, w, tid, env);
      OwesReach(w.h, e, w.threads[w.lock.value], c);
    }
  }

  lemma OwersAreInside(s: State, t: Thread, c: Id)
    requires Owes(s, t, c)
    ensures t.Recoverer? && Inside(t)
  {}

  lemma KeptOn(k: Crypto, w: Machine, tid: nat, env: Env, c: Id)
    requires MachineOk(k, w) && PassesSee(w) && Possible(k, w, Advance(tid, env)) && Kept(w, c) && c in w.h.s.chunks
    requires var e := Move(k, env, w.h.s, w.threads[tid]).1; Mild(k, w.h, e) && Allowed(k, w.h, e)
    requires Wanted(Act(w.h, Move(k, env, w.h.s, w.threads[tid]).1), c)
    ensures Kept(Happen(k, w, Advance(tid, env)), c)
  {
    hide Fair, MachineOk, PassesSee, Move, Act, Held, Undecided, Alive, Mild, Allowed, Possible, Happen;
    if Held(w.h.s, c) {
      HeldKept(k, w, tid, env, c);
    } else {
      UndecidedKept(k, w, tid, env, c);
    }
  }

  /** Only an upload's last access declares a file ACTIVE. */
  lemma Declares(k: Crypto, env: Env, s: State, t: Thread)
    requires Fair(env)
    ensures var e := Move(k, env, s, t).1;
            e.SetsFile? && e.outcome.Active? <==> t.Uploader? && t.up == SetOutcome(true)
    ensures t.Uploader? && t.up == SetOutcome(true) ==>
              Move(k, env, s, t) == (Done, SetsFile(t.job.fileId, FileStatus.Active))
  {
    hide Fair, OnlineRows, ChunkList, Select, ChunkRows, StoredRows, Surviving, JobRows, Plain, Affected, MissingOn,
         DecideMove;
  }

  /** Unless the upload is blind, every chunk its declaration makes wanted is kept. */
  lemma DeclaredKept(k: Crypto, w: Machine, tid: nat, env: Env, c: Id)
    requires MachineOk(k, w) && MachineSolid(k, w) && Possible(k, w, Advance(tid, env))
             && !Blind(k, w, Advance(tid, env))
    requires var t := w.threads[tid];
             t.Uploader? && t.up == SetOutcome(true) && c in w.h.s.chunks && w.h.s.chunks[c].fileId == t.job.fileId
    requires Alive(w.h, c) && w.h.s.files[w.h.s.chunks[c].fileId].rf >= 1
    ensures Kept(w, c)
  {
    hide Fair, RowsGood, ChunksKnown, OneUploadEach, Exclusive, RowsCopied, ActiveListed, Kept, JobRows, Move, AllKnow;
    var t := w.threads[tid];
    assert ThreadOk(k, w.h, t);
    assert IsPiece(k, t.job, c, w.h.s.chunks[c]);
  }

  /** A blind declaration leaves a wanted chunk without a holder. */
  lemma BlindBreaks(k: Crypto, w: Machine, tid: nat, env: Env)
    requires MachineOk(k, w) && MachineSolid(k, w) && Possible(k, w, Advance(tid, env))
             && Blind(k, w, Advance(tid, env))
    ensures !Durable(Happen(k, w, Advance(tid, env)))
  {
    hide Fair, RowsGood, ChunksKnown, OneUploadEach, RowsCopied, ActiveListed, ChunksFit, JobRows, Move, AllKnow, Held,
         Owes, Pieces, Concat;
    var t := w.threads[tid];
    var job := t.job;
    Declares(k, env, w.h.s, t);
    assert ThreadOk(k, w.h, t);
    var i :| 0 <= i < |JobRows(k, job)| && !Kept(w, JobRows(k, job)[i].id);
    var c, next := JobRows(k, job)[i].id, Happen(k, w, Advance(tid, env));
    TabledRow(k, w.h.s, job, i);
    RowNumber(k, job, i);
    assert Wanted(next.h, c);
    SameHolding(w.h.s, next.h.s, c);
    if w.lock.Some? && w.lock.value in w.threads {
      assert w.lock.value != tid;
      SameOwing(w.h.s, next.h.s, w.threads[w.lock.value], c);
    }
  }

  lemma SameHolding(s: State, t: State, c: Id)
    requires s.nodes == t.nodes && s.replicas == t.replicas
    ensures Held(s, c) <==> Held(t, c)
  {
    forall n ensures IsStored(s, c, n) && IsOnline(s, n) <==> IsStored(t, c, n) && IsOnline(t, n) {}
  }

  lemma SameOwing(s: State, u: State, t: Thread, c: Id)
    requires s.replicas == u.replicas
    ensures Owes(s, t, c) <==> Owes(u, t, c)
  {}

  /** One move keeps every wanted chunk kept exactly when it is not a blind declaration. */
  lemma AdvanceDurable(k: Crypto, w: Machine, tid: nat, env: Env)
    requires RoundTrips(k) && MachineOk(k, w) && MachineSolid(k, w) && PassesSee(w) && Durable(w)
    requires Possible(k, w, Advance(tid, env))
    ensures Durable(Happen(k, w, Advance(tid, env))) <==> !Blind(k, w, Advance(tid, env))
  {
    hide Fair, RoundTrips, SharedOk, Solid, ThreadOk, Knows, OneUploadEach, Exclusive, PassesSee, Move, Act, Blind,
         Wanted, Kept, Alive, Mild, Allowed;
    var t := w.threads[tid];
    var (next, e) := Move(k, env, w.h.s, t);
    MoveOk(k, env, w.h, t);
    MoveMild(k, env, w.h, t);
    Declares(k, env, w.h.s, t);
    if Blind(k, w, Advance(tid, env)) {
      BlindBreaks(k, w, tid, env);
    } else {
      forall c | Wanted(Act(w.h, e), c) ensures Kept(Happen(k, w, Advance(tid, env)), c) {
        WantedBefore(k, w.h, e, c);
        if !Wanted(w.h, c) {
          DeclaredKept(k, w, tid, env, c);
        }
        KeptOn(k, w, tid, env, c);
      }
    }
  }

  // ---------- whole runs ----------

  lemma SameThreadOwes(w: Machine, v: Machine, c: Id)
    requires v.lock == w.lock && v.h.s.replicas == w.h.s.replicas
    requires forall tid :: tid in w.threads ==> tid in v.threads && v.threads[tid] == w.threads[tid]
    ensures Undecided(w, c) ==> Undecided(v, c)
  {
    hide Owes;
    if Undecided(w, c) {
      SameOwing(w.h.s, v.h.s, w.threads[w.lock.value], c);
    }
  }

  lemma HeldMonotone(s: State, t: State, c: Id)
    requires s.replicas == t.replicas && Held(s, c) && forall x :: IsOnline(s, x) ==> IsOnline(t, x)
    ensures Held(t, c)
  {
    hide IsOnline;
    var n :| IsStored(s, c, n) && IsOnline(s, n);
    assert IsStored(t, c, n) && IsOnline(t, n);
  }

  lemma BeatKeepsOnline(s: State, n: Id, avail: int, total: int, now: int, x: Id)
    requires IsOnline(s, x)
    ensures IsOnline(Heartbeat(s, n, avail, total, now), x)
  {}

  lemma OthersDurable(k: Crypto, w: Machine, a: Action)
    requires Possible(k, w, a) && Durable(w) && !a.Advance? && !a.TamperWith?
    ensures Durable(Happen(k, w, a))
  {
    hide Fair, Held, Undecided, IsOnline, Move, Act;
    var v := Happen(k, w, a);
    assert v.h.s.replicas == w.h.s.replicas && v.h.s.files == w.h.s.files && v.h.s.chunks == w.h.s.chunks
           && v.h.dying == w.h.dying;
    forall x | IsOnline(w.h.s, x) ensures IsOnline(v.h.s, x) {
      if a.Beat? {
        BeatKeepsOnline(w.h.s, a.n, a.avail, a.total, a.now, x);
      }
    }
    forall c | Wanted(v.h, c) ensures Kept(v, c) {
      assert Wanted(w.h, c);
      SameThreadOwes(w, v, c);
      if Held(w.h.s, c) {
        HeldMonotone(w.h.s, v.h.s, c);
      }
    }
  }

  /** One untampering action keeps every wanted chunk kept exactly when it is not a blind declaration. */
  lemma ActionDurable(k: Crypto, w: Machine, a: Action)
    requires RoundTrips(k) && MachineOk(k, w) && MachineSolid(k, w) && PassesSee(w) && Durable(w)
    requires Possible(k, w, a) && !a.TamperWith?
    ensures Durable(Happen(k, w, a)) <==> !Blind(k, w, a)
  {
    hide MachineOk, MachineSolid, PassesSee, Durable, Possible, Happen, RoundTrips;
    if a.Advance? {
      AdvanceDurable(k, w, a.tid, a.env);
    } else {
      OthersDurable(k, w, a);
    }
  }

  ghost predicate AlwaysDurable(k: Crypto, w: Machine, actions: seq<Action>)
    requires Schedule(k, w, actions)
    decreases |actions|
  {
    Durable(w) && (actions == [] || AlwaysDurable(k, Happen(k, w, actions[0]), actions[1..]))
  }

  ghost predicate NeverBlind(k: Crypto, w: Machine, actions: seq<Action>)
    requires Schedule(k, w, actions)
    decreases |actions|
  {
    actions == [] || (!Blind(k, w, actions[0]) && NeverBlind(k, Happen(k, w, actions[0]), actions[1..]))
  }

  /** Everything proved of machines that were not tampered with. */
  ghost predicate Sane(k: Crypto, w: Machine) {
    MachineOk(k, w) && MachineSolid(k, w) && PassesSee(w)
  }

  lemma ActionSane(k: Crypto, w: Machine, a: Action)
    requires RoundTrips(k) && Sane(k, w) && Possible(k, w, a) && !a.TamperWith?
    ensures Sane(k, Happen(k, w, a))
  {
    hide MachineOk, MachineSolid, PassesSee, Possible, Happen, RoundTrips;
    ActionKeeps(k, w, a);
    ActionSolid(k, w, a);
    ActionSees(k, w, a);
  }

  lemma IdleIsSane(k: Crypto, w: Machine)
    requires Idle(w)
    ensures Sane(k, w) && Durable(w)
  {
    hide MachineOk, MachineSolid;
    IdleIsOk(k, w);
    IdleIsSolid(k, w);
  }

  lemma Later(actions: seq<Action>)
    requires actions != [] && Untampered(actions)
    ensures Untampered(actions[1..]) && !actions[0].TamperWith?
  {
    assert forall i :: 0 <= i < |actions[1..]| ==> actions[1..][i] == actions[i + 1];
  }

  lemma {:induction false} PlaySane(k: Crypto, w: Machine, actions: seq<Action>)
    requires RoundTrips(k) && Sane(k, w) && Schedule(k, w, actions) && Untampered(actions)
    ensures Sane(k, Play(k, w, actions))
    decreases |actions|
  {
    hide Sane, Happen, Possible, RoundTrips, Untampered;
    if actions != [] {
      Later(actions);
      ActionSane(k, w, actions[0]);
      PlaySane(k, Happen(k, w, actions[0]), actions[1..]);
    }
  }

  lemma NotDurableAtOnce(k: Crypto, w: Machine, actions: seq<Action>)
    requires Schedule(k, w, actions) && !Durable(w)
    ensures !AlwaysDurable(k, w, actions)
  {
    hide Durable, Happen, Possible;
  }

  lemma {:induction false} DurableExactly(k: Crypto, w: Machine, actions: seq<Action>)
    requires RoundTrips(k) && Sane(k, w) && Durable(w) && Schedule(k, w, actions) && Untampered(actions)
    ensures AlwaysDurable(k, w, actions) <==> NeverBlind(k, w, actions)
    decreases |actions|
  {
    hide Sane, Durable, Happen, Possible, RoundTrips, Untampered, Blind;
    if actions != [] {
      Later(actions);
      var next := Happen(k, w, actions[0]);
      ActionSane(k, w, actions[0]);
      assert Durable(next) <==> !Blind(k, w, actions[0]) by { SaneActionDurable(k, w, actions[0]); }
      if Blind(k, w, actions[0]) {
        NotDurableAtOnce(k, next, actions[1..]);
      } else {
        DurableExactly(k, next, actions[1..]);
      }
    }
  }

  lemma SaneActionDurable(k: Crypto, w: Machine, a: Action)
    requires RoundTrips(k) && Sane(k, w) && Durable(w) && Possible(k, w, a) && !a.TamperWith?
    ensures Durable(Happen(k, w, a)) <==> !Blind(k, w, a)
  {
    hide MachineOk, MachineSolid, PassesSee, Durable, Possible, Happen, RoundTrips;
    ActionDurable(k, w, a);
  }

  /** Durability under interleaving, exactly: over an untampered run from the empty cluster, every chunk of an ACTIVE
      file that asked for replicas and is not being deleted has a STORED row on an ONLINE node, or is before the running
      pass, at every moment, if and only if no upload declares success while a chunk of it is neither. */
  lemma DurableUnlessBlind(k: Crypto, start: Machine, actions: seq<Action>)
    requires RoundTrips(k) && Idle(start) && Schedule(k, start, actions) && Untampered(actions)
    ensures AlwaysDurable(k, start, actions) <==> NeverBlind(k, start, actions)
  {
    hide Sane, Durable, AlwaysDurable, NeverBlind, Schedule, RoundTrips, Idle, Untampered;
    IdleIsSane(k, start);
    DurableExactly(k, start, actions);
  }

  lemma {:induction false} AlwaysEndsDurable(k: Crypto, w: Machine, actions: seq<Action>)
    requires Schedule(k, w, actions) && AlwaysDurable(k, w, actions)
    ensures Durable(Play(k, w, actions))
    decreases |actions|
  {
    hide Durable, Happen, Possible;
    if actions != [] {
      AlwaysEndsDurable(k, Happen(k, w, actions[0]), actions[1..]);
    }
  }

  // ---------- durable files can be read ----------

  lemma ActiveIsFiled(k: Crypto, h: Shared, f: Id)
    requires SharedOk(k, h) && Solid(k, h) && f in h.s.files && h.s.files[f].status.Active?
    ensures f in h.jobs && h.s.files[f].encrypted == h.jobs[f].encrypted && Filed(k, h.s, f, h.jobs[f].data)
  {
    hide RowsGood, RowsCopied, Pieces, Concat, ChunkId, Tabled, IsPiece, JobRows;
    var job, ps := h.jobs[f], Pieces(h.jobs[f].data, h.jobs[f].chunkSize);
    assert Fits(k, h, f, h.s.files[f]) && Listed(k, h, f);
    RowsArePieces(k, job);
    forall i | 0 <= i < |ps| ensures ChunkId(f, i) in h.s.chunks && h.s.chunks[ChunkId(f, i)].fileId == f {
      TabledRow(k, h.s, job, i);
    }
    forall c | c in h.s.chunks && h.s.chunks[c].fileId == f
      ensures h.s.chunks[c].seqNo < |ps| && h.s.chunks[c].sha == k.hash(ps[h.s.chunks[c].seqNo])
    {
      PieceIs(k, job, c, h.s.chunks[c]);
    }
    FiledIntro(k, h.s, f, job);
  }

  lemma RowsArePieces(k: Crypto, job: Job)
    ensures |JobRows(k, job)| == |Pieces(job.data, job.chunkSize)|
    ensures forall i :: 0 <= i < |JobRows(k, job)| ==>
              JobRows(k, job)[i].id == ChunkId(job.fileId, i) && JobRows(k, job)[i].chunk.fileId == job.fileId
  {
    hide Pieces, ChunkId;
  }

  lemma PieceIs(k: Crypto, job: Job, c: Id, chunk: Chunk)
    requires IsPiece(k, job, c, chunk)
    ensures chunk.seqNo < |Pieces(job.data, job.chunkSize)|
            && chunk.sha == k.hash(Pieces(job.data, job.chunkSize)[chunk.seqNo])
  {
    hide Pieces, ChunkId;
  }

  lemma FiledIntro(k: Crypto, s: State, f: Id, job: Job)
    requires f in s.files && s.files[f] == FileRow(k, job, s.files[f].status)
    requires var ps := Pieces(job.data, job.chunkSize);
             && ps != []
             && (forall i :: 0 <= i < |ps| ==> ChunkId(f, i) in s.chunks && s.chunks[ChunkId(f, i)].fileId == f)
             && (forall c :: c in s.chunks && s.chunks[c].fileId == f ==>
                   s.chunks[c].seqNo < |ps| && s.chunks[c].sha == k.hash(ps[s.chunks[c].seqNo]))
    requires forall c :: c in s.chunks && s.chunks[c].fileId == f ==> c == ChunkId(f, s.chunks[c].seqNo)
    ensures Filed(k, s, f, job.data)
  {
    hide Pieces, Concat, ChunkId;
  }

  lemma HeldIsServable(k: Crypto, env: Env, h: Shared, c: Id)
    requires SharedOk(k, h) && Solid(k, h) && Alive(h, c) && Held(h.s, c) && OnlineAnswers(env, h.s)
    ensures Servable(k, env, h.s, h.s.files[h.s.chunks[c].fileId].encrypted, c)
  {
    hide RowsGood, ChunksKnown, ChunksFit, ActiveListed, Pieces, Concat, Holders;
    var n :| IsStored(h.s, c, n) && IsOnline(h.s, n);
    HoldersHas(h.s, c, n);
    assert Copied(k, h, c, n);
    assert Fits(k, h, h.s.chunks[c].fileId, h.s.files[h.s.chunks[c].fileId]);
    assert FetchOf(k, env, h.s, h.s.files[h.s.chunks[c].fileId].encrypted, c, h.s.chunks[c].sha, n).Good?;
  }

  /** With no pass running, a durable file downloads, from nodes that answer, to the bytes its upload was given. */
  lemma DurableDownloads(k: Crypto, env: Env, w: Machine, f: Id)
    requires CollisionFree(k) && Fair(env) && OnlineAnswers(env, w.h.s) && Sane(k, w) && Durable(w) && w.lock.None?
    requires f in w.h.s.files && w.h.s.files[f].status.Active? && w.h.s.files[f].rf >= 1 && f !in w.h.dying
    ensures f in w.h.jobs && Download(k, env, w.h.s, f).1 == Some(w.h.jobs[f].data)
  {
    hide Fair, OnlineAnswers, SharedOk, Solid, PassesSee, ThreadsOk, OneUploadEach, Exclusive, AllKnow, Download,
         Servable, Filed, CollisionFree, Held;
    ActiveIsFiled(k, w.h, f);
    forall c | c in w.h.s.chunks && w.h.s.chunks[c].fileId == f
      ensures Servable(k, env, w.h.s, w.h.s.files[f].encrypted, c) {
      assert Wanted(w.h, c);
      HeldIsServable(k, env, w.h, c);
    }
    ServableDownloads(k, env, w.h.s, f, w.h.jobs[f].data);
  }

  /** So after any untampered run without a blind declaration, with no pass running, every ACTIVE file that asked for
      replicas and is not being deleted downloads to the bytes it was uploaded with, encrypted or not. */
  lemma SightedRunsDownload(k: Crypto, env: Env, start: Machine, actions: seq<Action>, f: Id)
    requires CollisionFree(k) && RoundTrips(k) && Idle(start) && Schedule(k, start, actions) && Untampered(actions)
    requires NeverBlind(k, start, actions)
    requires var w := Play(k, start, actions);
             && w.lock.None? && Fair(env) && OnlineAnswers(env, w.h.s)
             && f in w.h.s.files && w.h.s.files[f].status.Active? && w.h.s.files[f].rf >= 1 && f !in w.h.dying
    ensures var w := Play(k, start, actions);
            f in w.h.jobs && Download(k, env, w.h.s, f).1 == Some(w.h.jobs[f].data)
  {
    hide Sane, Durable, AlwaysDurable, NeverBlind, Schedule, Play, RoundTrips, CollisionFree, Idle, Untampered, Fair,
         OnlineAnswers, Download;
    IdleIsSane(k, start);
    DurableUnlessBlind(k, start, actions);
    AlwaysEndsDurable(k, start, actions);
    PlaySane(k, start, actions);
    DurableDownloads(k, env, Play(k, start, actions), f);
  }
}
