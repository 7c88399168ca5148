/** A schedule that cannot go blind: no pass takes down a node that an upload under way counts on. */
module CalmUploads {
  import opened Types
  import opened Chunking
  import opened Placement
  import opened Recovery
  import opened Transfers
  import opened Runs
  import opened Interleaving
  import opened Races
  import opened Hazards
  import opened Endurance
  import opened Durability

  ghost predicate Chosen(active: seq<NodeRow>, n: Id) {
    exists r :: r in active && r.id == n
  }

  /** From its reading of the nodes to its last access an upload counts on the nodes it read as ONLINE, and at the last
      access on those that have rows of its chunks. */
  ghost predicate CountsOn(k: Crypto, s: State, job: Job, st: UploadStage, n: Id) {
    job.rf >= 1 &&
    match st
    case Choose(active, _) => Chosen(active, n)
    case Probe(turn) => Chosen(turn.active, n)
    case Send(turn) => Chosen(turn.active, n)
    case AddReplica(turn) => Chosen(turn.active, n)
    case SetOutcome(ok) => ok && exists i :: 0 <= i < |JobRows(k, job)| && (JobRows(k, job)[i].id, n) in s.replicas
    case _ => false
  }

  /** The pass has taken its node OFFLINE and may still mark rows on it. */
  predicate TakesDown(t: Thread, n: Id) {
    t.Recoverer? && t.n == n && (t.rec.ReadAffected? || t.rec.MarkMissing?)
  }

  ghost predicate Disturbs(k: Crypto, s: State, a: Thread, b: Thread) {
    exists n :: a.Uploader? && CountsOn(k, s, a.job, a.up, n) && TakesDown(b, n)
  }

  ghost predicate Disturbed(k: Crypto, w: Machine) {
    exists a, b :: a in w.threads && b in w.threads && Disturbs(k, w.h.s, w.threads[a], w.threads[b])
  }

  ghost predicate NeverDisturbed(k: Crypto, w: Machine, actions: seq<Action>)
    requires Schedule(k, w, actions)
    decreases |actions|
  {
    !Disturbed(k, w) && (actions == [] || NeverDisturbed(k, Happen(k, w, actions[0]), actions[1..]))
  }

  // ---------- what an undisturbed upload can be sure of ----------

  ghost predicate On(s: State, c: Id, active: seq<NodeRow>) {
    exists r :: r in active && IsStored(s, c, r.id)
  }

  /** The chosen nodes are still ONLINE, and each of the first i chunks is STORED on one of them. */
  ghost predicate Secured(k: Crypto, s: State, job: Job, active: seq<NodeRow>, i: nat) {
    && DistinctIds(active) && AllOnline(s, active)
    && forall m :: 0 <= m < i && m < |JobRows(k, job)| ==> On(s, JobRows(k, job)[m].id, active)
  }

  ghost predicate TurnSecured(k: Crypto, s: State, job: Job, turn: Turn) {
    && Secured(k, s, job, turn.active, turn.i)
    && turn.targets != [] && (forall r :: r in turn.targets ==> r in turn.active)
    && (turn.j > 0 && turn.i < |JobRows(k, job)| ==> On(s, JobRows(k, job)[turn.i].id, turn.active))
  }

  /** Unless its file is gone or going. */
  ghost predicate Secure(k: Crypto, h: Shared, job: Job, st: UploadStage) {
    job.rf >= 1 && job.fileId in h.s.files && job.fileId !in h.dying ==>
      match st
      case Choose(active, i) => Secured(k, h.s, job, active, i)
      case Probe(turn) => TurnSecured(k, h.s, job, turn)
      case Send(turn) => TurnSecured(k, h.s, job, turn)
      case AddReplica(turn) => TurnSecured(k, h.s, job, turn)
      case SetOutcome(ok) => ok ==> forall m :: 0 <= m < |JobRows(k, job)| ==> Held(h.s, JobRows(k, job)[m].id)
      case _ => true
  }

  ghost predicate AllSecure(k: Crypto, h: Shared, threads: map<nat, Thread>) {
    forall tid :: tid in threads && threads[tid].Uploader? ==> Secure(k, h, threads[tid].job, threads[tid].up)
  }

  /** What an effect must not do to the nodes counted on, nor to the rows there. */
  ghost predicate Spares(h: Shared, e: Effect, n: Id) {
    && !(e.TakesOffline? && e.n == n)
    && (e.PutsNode? ==> e.node.status.Online?)
    && !(e.SetsRow? && e.n == n && e.status.Missing?)
  }

  lemma OnStays(k: Crypto, h: Shared, e: Effect, job: Job, m: nat, active: seq<NodeRow>)
    requires Allowed(k, h, e) && Mild(k, h, e) && m < |JobRows(k, job)| && Alive(h, JobRows(k, job)[m].id)
    requires On(h.s, JobRows(k, job)[m].id, active) && forall r :: r in active ==> Spares(h, e, r.id)
    requires e.SetsRow? ==> e.status.Stored? || e.status.Corrupted? || e.status.Missing?
    ensures On(Act(h, e).s, JobRows(k, job)[m].id, active)
  {
    hide Allowed, Act, IsStored, JobRows, Alive, Fitting, Copied, Listed;
    var c := JobRows(k, job)[m].id;
    var r :| r in active && IsStored(h.s, c, r.id);
    StoredAfterwards(h, e, c, r.id);
  }

  lemma SecuredStays(k: Crypto, h: Shared, e: Effect, job: Job, active: seq<NodeRow>, i: nat)
    requires Allowed(k, h, e) && Mild(k, h, e) && Secured(k, h.s, job, active, i)
    requires forall m :: 0 <= m < |JobRows(k, job)| ==> Alive(h, JobRows(k, job)[m].id)
    requires forall r :: r in active ==> Spares(h, e, r.id)
    requires e.SetsRow? ==> e.status.Stored? || e.status.Corrupted? || e.status.Missing?
    ensures Secured(k, Act(h, e).s, job, active, i)
  {
    hide Allowed, Mild, Act, IsOnline, JobRows, Alive, On, DistinctIds;
    forall r | r in active ensures IsOnline(Act(h, e).s, r.id) {
      OnlineStays(h, e, r.id);
    }
    forall m | 0 <= m < i && m < |JobRows(k, job)| ensures On(Act(h, e).s, JobRows(k, job)[m].id, active) {
      OnStays(k, h, e, job, m, active);
    }
  }

  lemma TurnSecuredStays(k: Crypto, h: Shared, e: Effect, job: Job, turn: Turn)
    requires Allowed(k, h, e) && Mild(k, h, e) && TurnSecured(k, h.s, job, turn)
    requires forall m :: 0 <= m < |JobRows(k, job)| ==> Alive(h, JobRows(k, job)[m].id)
    requires forall r :: r in turn.active ==> Spares(h, e, r.id)
    requires e.SetsRow? ==> e.status.Stored? || e.status.Corrupted? || e.status.Missing?
    ensures TurnSecured(k, Act(h, e).s, job, turn)
  {
    hide Allowed, Mild, Act, JobRows, Alive, On, Secured, Spares;
    SecuredStays(k, h, e, job, turn.active, turn.i);
    if turn.j > 0 && turn.i < |JobRows(k, job)| {
      OnStays(k, h, e, job, turn.i, turn.active);
    }
  }

  lemma HeldThrough(k: Crypto, h: Shared, e: Effect, c: Id)
    requires Mild(k, h, e) && Alive(h, c) && Held(h.s, c)
    requires forall n :: (c, n) in h.s.replicas ==> Spares(h, e, n)
    requires e.SetsRow? ==> e.status.Stored? || e.status.Corrupted? || e.status.Missing?
    ensures Held(Act(h, e).s, c)
  {
    hide Act, Alive, Fitting, Copied, Listed, IsOnline;
    var n :| IsStored(h.s, c, n) && IsOnline(h.s, n);
    HolderStays(h, e, c, n);
  }

  /** Another thread's effect leaves an upload secure as long as it spares the nodes counted on. */
  lemma SecureStays(k: Crypto, h: Shared, e: Effect, job: Job, st: UploadStage)
    requires Allowed(k, h, e) && Mild(k, h, e) && Secure(k, h, job, st) && UploadOk(k, h, job, st)
    requires !Names(e, job.fileId)
    requires forall n :: CountsOn(k, h.s, job, st, n) ==> Spares(h, e, n)
    requires e.SetsRow? ==> e.status.Stored? || e.status.Corrupted? || e.status.Missing?
    ensures Secure(k, Act(h, e), job, st)
  {
    hide Allowed, Mild, Act, JobRows, Alive, Held, TurnSecured, Secured, Spares, UploadOk;
    var g := Act(h, e);
    HistoriesGrow(h, e);
    if job.rf >= 1 && job.fileId in g.s.files && job.fileId !in g.dying {
      assert job.fileId in h.s.files by { FileWas(k, h, e, job.fileId); }
      match st {
        case MakeFile =>
        case MakeChunks =>
        case ReadNodes =>
        case Choose(active, i) =>
          JobAlive(k, h, job, st);
          SecuredStays(k, h, e, job, active, i);
        case Probe(turn) =>
          JobAlive(k, h, job, st);
          TurnSecuredStays(k, h, e, job, turn);
        case Send(turn) =>
          JobAlive(k, h, job, st);
          TurnSecuredStays(k, h, e, job, turn);
        case AddReplica(turn) =>
          JobAlive(k, h, job, st);
          TurnSecuredStays(k, h, e, job, turn);
        case SetOutcome(ok) =>
          if ok {
            JobAlive(k, h, job, st);
            forall m | 0 <= m < |JobRows(k, job)| ensures Held(g.s, JobRows(k, job)[m].id) {
              HeldThrough(k, h, e, JobRows(k, job)[m].id);
            }
          }
      }
    }
  }

  lemma FileWas(k: Crypto, h: Shared, e: Effect, f: Id)
    requires !Names(e, f) && f in Act(h, e).s.files
    ensures f in h.s.files
  {
    hide AddChunks;
  }

  lemma JobAlive(k: Crypto, h: Shared, job: Job, st: UploadStage)
    requires UploadOk(k, h, job, st) && !st.MakeFile? && !st.MakeChunks?
    requires job.fileId in h.s.files && job.fileId !in h.dying
    ensures forall m :: 0 <= m < |JobRows(k, job)| ==> Alive(h, JobRows(k, job)[m].id)
  {
    hide JobRows, GoodCopy;
    forall m | 0 <= m < |JobRows(k, job)| ensures Alive(h, JobRows(k, job)[m].id) {
      TabledRow(k, h.s, job, m);
      RowNumber(k, job, m);
    }
  }

  // ---------- the upload's own moves ----------

  /** Effects of an upload after its file has been described. */
  predicate OwnEffect(e: Effect) {
    e.Quiet? || e.Verifies? || e.Writes? || e.PutsRow?
  }

  lemma OwnSpares(h: Shared, e: Effect, n: Id)
    requires OwnEffect(e)
    ensures Spares(h, e, n)
  {}

  lemma TurnThrough(k: Crypto, h: Shared, e: Effect, job: Job, st: UploadStage, turn: Turn)
    requires Allowed(k, h, e) && Mild(k, h, e) && OwnEffect(e) && TurnSecured(k, h.s, job, turn)
    requires UploadOk(k, h, job, st) && !st.MakeFile? && !st.MakeChunks?
    requires job.fileId in h.s.files && job.fileId !in h.dying
    ensures TurnSecured(k, Act(h, e).s, job, turn)
  {
    hide Allowed, Mild, Act, TurnSecured, JobRows, UploadOk, Spares, Alive;
    JobAlive(k, h, job, st);
    forall r | r in turn.active ensures Spares(h, e, r.id) { OwnSpares(h, e, r.id); }
    TurnSecuredStays(k, h, e, job, turn);
  }

  lemma OwnKeepsFile(h: Shared, e: Effect)
    requires OwnEffect(e)
    ensures Act(h, e).s.files == h.s.files && Act(h, e).dying == h.dying
  {}

  lemma ReadsSecured(k: Crypto, env: Env, h: Shared, job: Job)
    requires Fair(env)
    ensures Secured(k, h.s, job, OnlineRows(h.s.nodes, env), 0)
  {
    hide OnlineRows, Fair, JobRows, DistinctIds;
    OnlineRowsAre(h.s, env);
    OnlineRowsDistinct(h.s.nodes, env);
  }

  lemma ChoosesSecured(k: Crypto, env: Env, h: Shared, job: Job, active: seq<NodeRow>, i: nat)
    requires Secured(k, h.s, job, active, i) && job.rf >= 1
    ensures var t := UploadMove(k, env, h.s, job, Choose(active, i)).0;
            t.Uploader? && (Secure(k, h, job, t.up))
  {
    hide JobRows, Select, Pieces, Payload, DistinctIds, IsStored, IsOnline;
    var rows := JobRows(k, job);
    if i >= |rows| {
      forall m | 0 <= m < |rows| ensures Held(h.s, rows[m].id) {
        assert On(h.s, rows[m].id, active);
        var r :| r in active && IsStored(h.s, rows[m].id, r.id);
        assert IsOnline(h.s, r.id);
      }
    } else if Select(rows[i].chunk.size, active, job.rf, {}).Some? {
      var targets := Select(rows[i].chunk.size, active, job.rf, {}).value;
      TargetsNonEmpty(job, active, rows[i]);
      forall r | r in targets ensures r in active {
        SelectedIsListed(rows[i].chunk.size, active, job.rf, {}, r);
      }
    }
  }

  lemma AddsSecured(k: Crypto, h: Shared, job: Job, turn: Turn)
    requires TurnSecured(k, h.s, job, turn) && turn.i < |JobRows(k, job)| && turn.j < |turn.targets|
    requires var e := PutsRow(JobRows(k, job)[turn.i].id, turn.targets[turn.j].id, turn.j + 1);
             TurnSecured(k, Act(h, e).s, job, turn)
    ensures var e := PutsRow(JobRows(k, job)[turn.i].id, turn.targets[turn.j].id, turn.j + 1);
            TurnSecured(k, Act(h, e).s, job, turn.(j := turn.j + 1))
  {
    hide JobRows, Secured;
    var e := PutsRow(JobRows(k, job)[turn.i].id, turn.targets[turn.j].id, turn.j + 1);
    assert turn.targets[turn.j] in turn.active;
    assert IsStored(Act(h, e).s, JobRows(k, job)[turn.i].id, turn.targets[turn.j].id);
  }

  lemma NextChunkSecured(k: Crypto, s: State, job: Job, turn: Turn)
    requires TurnSecured(k, s, job, turn) && (turn.i >= |JobRows(k, job)| || turn.j >= |turn.targets|)
    ensures Secured(k, s, job, turn.active, turn.i + 1)
  {
    hide JobRows, On, AllOnline, DistinctIds;
  }

  lemma TurnMoves(k: Crypto, env: Env, h: Shared, job: Job, st: UploadStage)
    requires ThreadOk(k, h, Uploader(job, st)) && Secure(k, h, job, st) && (st.Probe? || st.Send? || st.AddReplica?)
    requires var (t, e) := UploadMove(k, env, h.s, job, st); Allowed(k, h, e) && Mild(k, h, e)
    ensures var (t, e) := UploadMove(k, env, h.s, job, st);
            t.Uploader? && Secure(k, Act(h, e), job, t.up)
  {
    hide JobRows, UploadOk, Allowed, Mild, Act, TurnSecured, Secured;
    var (t, e) := UploadMove(k, env, h.s, job, st);
    OwnKeepsFile(h, e);
    if job.rf >= 1 && job.fileId in h.s.files && job.fileId !in h.dying {
      TurnThrough(k, h, e, job, st, st.turn);
      if st.Probe? && (st.turn.i >= |JobRows(k, job)| || st.turn.j >= |st.turn.targets|) {
        NextChunkSecured(k, Act(h, e).s, job, st.turn);
      } else if st.AddReplica? && st.turn.i < |JobRows(k, job)| && st.turn.j < |st.turn.targets| {
        AddsSecured(k, h, job, st.turn);
      }
    }
  }

  lemma SecureMoves(k: Crypto, env: Env, h: Shared, job: Job, st: UploadStage)
    requires Fair(env) && ThreadOk(k, h, Uploader(job, st)) && Secure(k, h, job, st)
    requires var (t, e) := UploadMove(k, env, h.s, job, st); Allowed(k, h, e) && Mild(k, h, e)
    ensures var (t, e) := UploadMove(k, env, h.s, job, st);
            t.Uploader? ==> Secure(k, Act(h, e), job, t.up)
  {
    hide Fair, JobRows, UploadOk, Allowed, Mild, Act, TurnSecured, Secured, OnlineRows, Select, Payload, Pieces;
    if st.Probe? || st.Send? || st.AddReplica? {
      TurnMoves(k, env, h, job, st);
    } else if st.ReadNodes? {
      ReadsSecured(k, env, h, job);
      NoEffect(h);
    } else if st.Choose? {
      NoEffect(h);
      if job.rf >= 1 && job.fileId in h.s.files && job.fileId !in h.dying {
        ChoosesSecured(k, env, h, job, st.active, st.i);
      }
    }
  }

  // ---------- the machine ----------

  /** A move that does not spare a node takes it down. */
  lemma UnsparingTakesDown(k: Crypto, env: Env, h: Shared, t: Thread, n: Id)
    requires Fair(env) && !Spares(h, Move(k, env, h.s, t).1, n)
    ensures var (next, e) := Move(k, env, h.s, t);
            (e.SetsRow? && TakesDown(t, n)) || (e.TakesOffline? && TakesDown(next, n))
  {
    hide Fair, Move, RecoveryMove;
    NodeEffects(k, env, h.s, t);
    var e := Move(k, env, h.s, t).1;
    if e.SetsRow? {
      RowSetters(k, env, h.s, t);
    } else {
      MoveOfRecovery(k, env, h.s, t);
      OfflineGoesOn(k, env, h.s, t.n, t.rec);
    }
  }

  lemma OfflineGoesOn(k: Crypto, env: Env, s: State, n: Id, st: RecoveryStage)
    requires st.TakeOffline?
    ensures RecoveryMove(k, env, s, n, st).0 == Recoverer(n, ReadAffected)
  {}

  lemma CountsAlike(k: Crypto, s: State, t: State, job: Job, st: UploadStage, n: Id)
    requires s.replicas == t.replicas
    ensures CountsOn(k, s, job, st, n) <==> CountsOn(k, t, job, st, n)
  {
    hide JobRows;
  }

  lemma DisturbedBy(k: Crypto, w: Machine, a: nat, b: nat, n: Id)
    requires a in w.threads && b in w.threads && w.threads[a].Uploader?
    requires CountsOn(k, w.h.s, w.threads[a].job, w.threads[a].up, n) && TakesDown(w.threads[b], n)
    ensures Disturbed(k, w)
  {
    hide CountsOn, TakesDown;
    assert Disturbs(k, w.h.s, w.threads[a], w.threads[b]);
  }

  lemma OthersSpared(k: Crypto, w: Machine, tid: nat, env: Env, other: nat, n: Id)
    requires Possible(k, w, Advance(tid, env)) && !Disturbed(k, w) && !Disturbed(k, Happen(k, w, Advance(tid, env)))
    requires other in w.threads && other != tid && w.threads[other].Uploader?
    requires CountsOn(k, w.h.s, w.threads[other].job, w.threads[other].up, n)
    ensures Spares(w.h, Move(k, env, w.h.s, w.threads[tid]).1, n)
  {
    hide Fair, Move, CountsOn, TakesDown, Spares, Act, Disturbed;
    var t, a := w.threads[tid], w.threads[other];
    var (next, e) := Move(k, env, w.h.s, t);
    var v := Happen(k, w, Advance(tid, env));
    if !Spares(w.h, e, n) {
      UnsparingTakesDown(k, env, w.h, t, n);
      if e.SetsRow? {
        DisturbedBy(k, w, other, tid, n);
      } else {
        OfflineKeepsRows(w.h, e);
        CountsAlike(k, w.h.s, v.h.s, a.job, a.up, n);
        DisturbedBy(k, v, other, tid, n);
      }
    }
  }

  lemma OfflineKeepsRows(h: Shared, e: Effect)
    requires e.TakesOffline?
    ensures Act(h, e).s.replicas == h.s.replicas
  {}

  lemma SetterStatus(k: Crypto, env: Env, s: State, t: Thread)
    requires Fair(env)
    ensures var e := Move(k, env, s, t).1; e.SetsRow? ==> e.status.Stored? || e.status.Corrupted? || e.status.Missing?
  {
    hide Fair, Move;
    if Move(k, env, s, t).1.SetsRow? {
      RowSetters(k, env, s, t);
    }
  }

  lemma AdvanceSecure(k: Crypto, w: Machine, tid: nat, env: Env)
    requires RoundTrips(k) && Sane(k, w) && AllSecure(k, w.h, w.threads) && Possible(k, w, Advance(tid, env))
    requires !Disturbed(k, w) && !Disturbed(k, Happen(k, w, Advance(tid, env)))
    ensures var v := Happen(k, w, Advance(tid, env)); AllSecure(k, v.h, v.threads)
  {
    hide Fair, RoundTrips, SharedOk, Solid, ThreadOk, Knows, Exclusive, PassesSee, Move, Act, Secure, Allowed, Mild,
         Disturbed, Spares, CountsOn, Names;
    var t := w.threads[tid];
    var (next, e) := Move(k, env, w.h.s, t);
    MoveOk(k, env, w.h, t);
    MoveMild(k, env, w.h, t);
    MoveKeepsJob(k, env, w.h.s, t);
    SetterStatus(k, env, w.h.s, t);
    forall other | other in w.threads && other != tid && w.threads[other].Uploader?
      ensures Secure(k, Act(w.h, e), w.threads[other].job, w.threads[other].up)
    {
      OtherSecure(k, w, tid, env, other);
    }
    if next.Uploader? {
      UploadsMove(k, env, w.h.s, t);
      SecureMoves(k, env, w.h, t.job, t.up);
    }
  }

  lemma OtherSecure(k: Crypto, w: Machine, tid: nat, env: Env, other: nat)
    requires Sane(k, w) && AllSecure(k, w.h, w.threads) && Possible(k, w, Advance(tid, env))
    requires !Disturbed(k, w) && !Disturbed(k, Happen(k, w, Advance(tid, env)))
    requires other in w.threads && other != tid && w.threads[other].Uploader?
    requires var e := Move(k, env, w.h.s, w.threads[tid]).1; Allowed(k, w.h, e) && Mild(k, w.h, e)
    ensures Secure(k, Act(w.h, Move(k, env, w.h.s, w.threads[tid]).1), w.threads[other].job, w.threads[other].up)
  {
    hide Fair, SharedOk, Solid, UploadOk, Knows, Exclusive, PassesSee, Move, Act, Secure, Allowed, Mild, Disturbed,
         Spares, CountsOn;
    var t, a := w.threads[tid], w.threads[other];
    var e := Move(k, env, w.h.s, t).1;
    MoveKeepsJob(k, env, w.h.s, t);
    SetterStatus(k, env, w.h.s, t);
    assert ThreadOk(k, w.h, a);
    forall n | CountsOn(k, w.h.s, a.job, a.up, n) ensures Spares(w.h, e, n) {
      OthersSpared(k, w, tid, env, other, n);
    }
    SecureStays(k, w.h, e, a.job, a.up);
  }

  /** A secure upload does not declare success blindly. */
  lemma SecureIsSighted(k: Crypto, w: Machine, a: Action)
    requires AllSecure(k, w.h, w.threads)
    ensures !Blind(k, w, a)
  {
    hide JobRows, Held, Undecided, Secured, TurnSecured;
  }

  lemma SameSecurity(k: Crypto, h: Shared, g: Shared, job: Job, st: UploadStage)
    requires g.s.replicas == h.s.replicas && g.s.files == h.s.files && g.dying == h.dying
    requires forall x :: IsOnline(h.s, x) ==> IsOnline(g.s, x)
    requires Secure(k, h, job, st)
    ensures Secure(k, g, job, st)
  {
    hide JobRows, IsOnline, DistinctIds;
    forall c | Held(h.s, c) ensures Held(g.s, c) { HeldMonotone(h.s, g.s, c); }
    forall c, active | On(h.s, c, active) ensures On(g.s, c, active) { SameOn(h.s, g.s, c, active); }
    hide Held, On;
  }

  lemma SameOn(s: State, t: State, c: Id, active: seq<NodeRow>)
    requires s.replicas == t.replicas && On(s, c, active)
    ensures On(t, c, active)
  {
    var r :| r in active && IsStored(s, c, r.id);
    assert IsStored(t, c, r.id);
  }

  lemma OthersSecure(k: Crypto, w: Machine, a: Action)
    requires Possible(k, w, a) && AllSecure(k, w.h, w.threads) && !a.Advance? && !a.TamperWith?
    ensures var v := Happen(k, w, a); AllSecure(k, v.h, v.threads)
  {
    hide Fair, Secure, IsOnline, Move, Act;
    var v := Happen(k, w, a);
    forall x | IsOnline(w.h.s, x) ensures IsOnline(v.h.s, x) {
      if a.Beat? {
        BeatKeepsOnline(w.h.s, a.n, a.avail, a.total, a.now, x);
      }
    }
    forall tid | tid in v.threads && v.threads[tid].Uploader?
      ensures Secure(k, v.h, v.threads[tid].job, v.threads[tid].up) {
      if tid in w.threads {
        SameSecurity(k, w.h, v.h, v.threads[tid].job, v.threads[tid].up);
      } else {
        StartsSecure(k, v.h, v.threads[tid].job);
      }
    }
  }

  lemma StartsSecure(k: Crypto, h: Shared, job: Job)
    ensures Secure(k, h, job, MakeFile)
  {}

  lemma {:induction false} UndisturbedIsSighted(k: Crypto, w: Machine, actions: seq<Action>)
    requires RoundTrips(k) && Sane(k, w) && AllSecure(k, w.h, w.threads) && Schedule(k, w, actions)
             && Untampered(actions)
    requires NeverDisturbed(k, w, actions)
    ensures NeverBlind(k, w, actions)
    decreases |actions|
  {
    hide Sane, Happen, Possible, RoundTrips, Untampered, Blind, AllSecure, Disturbed;
    if actions != [] {
      Later(actions);
      ActionSane(k, w, actions[0]);
      SecureIsSighted(k, w, actions[0]);
      if actions[0].Advance? {
        AdvanceSecure(k, w, actions[0].tid, actions[0].env);
      } else {
        OthersSecure(k, w, actions[0]);
      }
      UndisturbedIsSighted(k, Happen(k, w, actions[0]), actions[1..]);
    }
  }

  lemma IdleIsSecure(k: Crypto, w: Machine)
    requires Idle(w)
    ensures AllSecure(k, w.h, w.threads)
  {}

  /** What a scheduler can guarantee: over an untampered run from the empty cluster in which no pass is taking down a
      node that an upload under way counts on, durability holds at every moment. */
  lemma CalmRunsAreDurable(k: Crypto, start: Machine, actions: seq<Action>)
    requires RoundTrips(k) && Idle(start) && Schedule(k, start, actions) && Untampered(actions)
    requires NeverDisturbed(k, start, actions)
    ensures AlwaysDurable(k, start, actions)
  {
    hide Sane, Durable, AlwaysDurable, NeverBlind, NeverDisturbed, Schedule, RoundTrips, Idle, Untampered, AllSecure;
    IdleIsSane(k, start);
    IdleIsSecure(k, start);
    UndisturbedIsSighted(k, start, actions);
    DurableUnlessBlind(k, start, actions);
  }
}
