/** What the lock is for: replica numbers of a settled chunk stay distinct under every interleaving. */
module Numbering {
  import opened Types
  import opened Chunking
  import opened Placement
  import opened Recovery
  import opened Transfers
  import opened Downloads
  import opened Interleaving
  import opened Races
  import opened Hazards

  /** File f was announced and no thread may still add replicas for it. */
  ghost predicate Settled(h: Shared, threads: map<nat, Thread>, f: Id) {
    f in h.jobs &&
    forall tid :: tid in threads && threads[tid].Uploader? && threads[tid].job.fileId == f ==>
      threads[tid].up.SetOutcome?
  }

  ghost predicate NumbersDiffer(s: State, c: Id) {
    forall n, x :: (c, n) in s.replicas && (c, x) in s.replicas && n != x ==>
          s.replicas[(c, n)].number != s.replicas[(c, x)].number
  }

  predicate Plans(t: Thread, c: Id) {
    t.Recoverer? && (t.rec.Fetch? || t.rec.Store? || t.rec.AddCopy?) && t.rec.copying.chunk == c
  }

  ghost predicate Above(s: State, c: Id, number: int) {
    forall n :: (c, n) in s.replicas ==> s.replicas[(c, n)].number < number
  }

  /** Every copy of c being made carries a number above all of c's rows. */
  ghost predicate PlansAbove(s: State, threads: map<nat, Thread>, c: Id) {
    forall tid :: tid in threads && Plans(threads[tid], c) ==> Above(s, c, threads[tid].rec.copying.number)
  }

  ghost predicate Orderly(w: Machine, c: Id) {
    && c in w.h.s.chunks && Settled(w.h, w.threads, w.h.s.chunks[c].fileId)
    && NumbersDiffer(w.h.s, c) && PlansAbove(w.h.s, w.threads, c)
  }

  /** s and t have the same rows of c under the same numbers. */
  ghost predicate SameNumbers(s: State, t: State, c: Id) {
    && (forall n :: (c, n) in s.replicas <==> (c, n) in t.replicas)
    && (forall n :: (c, n) in s.replicas ==> s.replicas[(c, n)].number == t.replicas[(c, n)].number)
  }

  lemma NumbersStay(h: Shared, e: Effect, c: Id)
    requires !(e.PutsRow? && e.c == c)
    ensures SameNumbers(h.s, Act(h, e).s, c)
  {
    hide AddChunks, WithStatus;
  }

  lemma SameNumbersKeep(s: State, t: State, threads: map<nat, Thread>, c: Id)
    requires SameNumbers(s, t, c)
    ensures NumbersDiffer(s, c) ==> NumbersDiffer(t, c)
    ensures PlansAbove(s, threads, c) ==> PlansAbove(t, threads, c)
    ensures forall number :: Above(s, c, number) ==> Above(t, c, number)
  {}

  /** A decision to copy c takes a number above those it has read. */
  lemma DecidesAbove(env: Env, s: State, n: Id, pass: Progress, c: Id)
    requires Fair(env) && Plans(DecideMove(env, s, n, pass), c)
    ensures Above(s, c, DecideMove(env, s, n, pass).rec.copying.number)
  {
    hide Fair, ChunkRows, Surviving, Select, Occupied, MaxNumber;
    var rows := ChunkRows(s.replicas, env, c);
    forall x | (c, x) in s.replicas ensures s.replicas[(c, x)].number <= MaxNumber(rows) {
      var r := Row(c, x, s.replicas[(c, x)].number, s.replicas[(c, x)].status);
      ChunkRowsHas(s.replicas, env, c, r);
      MaxNumberBounds(rows, r);
    }
  }

  /** A plan comes from a decision or is carried on unchanged. */
  lemma PlanComes(k: Crypto, env: Env, h: Shared, n: Id, st: RecoveryStage, c: Id)
    requires Fair(env) && Plans(RecoveryMove(k, env, h.s, n, st).0, c)
    ensures !RecoveryMove(k, env, h.s, n, st).1.PutsRow?
    ensures var next := RecoveryMove(k, env, h.s, n, st).0;
            Above(h.s, c, next.rec.copying.number)
            || (Plans(Recoverer(n, st), c) && next.rec.copying.number == st.copying.number)
  {
    hide Fair, DecideMove, Above, OnlineRows, Affected;
    if st.Decide? {
      DecidesAbove(env, h.s, n, st.pass, c);
    }
  }

  /** Who adds rows: an upload, of its own chunks, or a pass, as planned. */
  lemma AddersAre(k: Crypto, env: Env, h: Shared, t: Thread)
    requires Fair(env) && ThreadOk(k, h, t) && Move(k, env, h.s, t).1.PutsRow?
    ensures var (next, e) := Move(k, env, h.s, t);
            || (t.Uploader? && !t.up.SetOutcome? && e.c in h.s.chunks && h.s.chunks[e.c].fileId == t.job.fileId)
            || (Inside(t) && Plans(t, e.c) && e.number == t.rec.copying.number && forall d :: !Plans(next, d))
  {
    hide Fair, OnlineRows, ChunkList, Select, ChunkRows, StoredRows, Surviving, JobRows, Plain, Affected, MissingOn,
         DecideMove, GoodCopy, Fits, Pieces, Concat;
    if t.Uploader? {
      AddsOwnChunk(k, env, h, t.job, t.up);
    }
  }

  lemma AddsOwnChunk(k: Crypto, env: Env, h: Shared, job: Job, st: UploadStage)
    requires UploadOk(k, h, job, st) && UploadMove(k, env, h.s, job, st).1.PutsRow?
    ensures var e := UploadMove(k, env, h.s, job, st).1;
            !st.SetOutcome? && e.c in h.s.chunks && h.s.chunks[e.c].fileId == job.fileId
  {
    hide OnlineRows, Select, JobRows, GoodCopy, Pieces, Payload, Tabled;
    TabledRow(k, h.s, job, st.turn.i);
    RowNumber(k, job, st.turn.i);
  }

  lemma PlannersAreInside(t: Thread, c: Id)
    requires Plans(t, c)
    ensures Inside(t)
  {}

  lemma AddAbove(s: State, c: Id, n: Id, number: int)
    requires NumbersDiffer(s, c) && Above(s, c, number)
    ensures NumbersDiffer(AddRow(s, c, n, number), c)
  {}

  lemma OutcomeEnds(k: Crypto, env: Env, s: State, t: Thread)
    requires Fair(env) && t.Uploader? && t.up.SetOutcome?
    ensures Move(k, env, s, t).0.Done?
  {
    hide Fair;
  }

  lemma SettledStays(k: Crypto, w: Machine, tid: nat, env: Env, f: Id)
    requires MachineOk(k, w) && Possible(k, w, Advance(tid, env)) && Settled(w.h, w.threads, f)
    ensures var next := Happen(k, w, Advance(tid, env)); Settled(next.h, next.threads, f)
  {
    hide Fair, MachineOk, Move, Act, Names;
    var t := w.threads[tid];
    MoveKeepsJob(k, env, w.h.s, t);
    HistoriesGrow(w.h, Move(k, env, w.h.s, t).1);
    if t.Uploader? && t.up.SetOutcome? {
      OutcomeEnds(k, env, w.h.s, t);
    }
  }

  /** Plans after a move that leaves the numbers of c alone. */
  lemma QuietPlans(k: Crypto, w: Machine, tid: nat, env: Env, c: Id)
    requires MachineOk(k, w) && Possible(k, w, Advance(tid, env)) && PlansAbove(w.h.s, w.threads, c)
    requires var e := Move(k, env, w.h.s, w.threads[tid]).1; !(e.PutsRow? && e.c == c)
    ensures var next := Happen(k, w, Advance(tid, env)); PlansAbove(next.h.s, next.threads, c)
  {
    hide Fair, MachineOk, Move, Act, Above, SameNumbers, RecoveryMove;
    var t := w.threads[tid];
    var (next, e) := Move(k, env, w.h.s, t);
    NumbersStay(w.h, e, c);
    SameNumbersKeep(w.h.s, Act(w.h, e).s, w.threads, c);
    if Plans(next, c) {
      OnlyRecoveryRecovers(k, env, w.h.s, t);
      MoveOfRecovery(k, env, w.h.s, t);
      PlanComes(k, env, w.h, t.n, t.rec, c);
    }
  }

  /** Adding a row to c: it must be the lock holder's planned copy. */
  lemma AddsInOrder(k: Crypto, w: Machine, tid: nat, env: Env, c: Id)
    requires MachineOk(k, w) && Possible(k, w, Advance(tid, env)) && Orderly(w, c)
    requires var e := Move(k, env, w.h.s, w.threads[tid]).1; e.PutsRow? && e.c == c
    ensures var next := Happen(k, w, Advance(tid, env));
            NumbersDiffer(next.h.s, c) && PlansAbove(next.h.s, next.threads, c)
  {
    hide Fair, SharedOk, ThreadOk, OneUploadEach, Move, Above, NumbersDiffer, Plans, Inside;
    var t := w.threads[tid];
    var (next, e) := Move(k, env, w.h.s, t);
    AddersAre(k, env, w.h, t);
    AddAbove(w.h.s, c, e.n, e.number);
    forall other | other in w.threads && other != tid ensures !Plans(w.threads[other], c) {
      if Plans(w.threads[other], c) {
        PlannersAreInside(w.threads[other], c);
      }
    }
  }

  lemma AdvanceOrderly(k: Crypto, w: Machine, tid: nat, env: Env, c: Id)
    requires MachineOk(k, w) && Possible(k, w, Advance(tid, env)) && Orderly(w, c)
    ensures Orderly(Happen(k, w, Advance(tid, env)), c)
    ensures Happen(k, w, Advance(tid, env)).h.s.chunks[c] == w.h.s.chunks[c]
  {
    hide Fair, MachineOk, Move, Act, PlansAbove, NumbersDiffer, Settled, Allowed;
    var t := w.threads[tid];
    var e := Move(k, env, w.h.s, t).1;
    assert Allowed(k, w.h, e) by { MoverIsAllowed(k, w, tid, env); }
    ChunksStay(k, w.h, e, c);
    SettledStays(k, w, tid, env, w.h.s.chunks[c].fileId);
    if e.PutsRow? && e.c == c {
      AddsInOrder(k, w, tid, env, c);
    } else {
      NumbersStay(w.h, e, c);
      SameNumbersKeep(w.h.s, Act(w.h, e).s, w.threads, c);
      QuietPlans(k, w, tid, env, c);
    }
  }

  lemma MoverIsAllowed(k: Crypto, w: Machine, tid: nat, env: Env)
    requires MachineOk(k, w) && Possible(k, w, Advance(tid, env))
    ensures Allowed(k, w.h, Move(k, env, w.h.s, w.threads[tid]).1)
  {
    hide Fair, SharedOk, ThreadOk, OneUploadEach, Move, Act, Allowed, Exclusive;
    MoveOk(k, env, w.h, w.threads[tid]);
  }

  lemma OthersOrderly(k: Crypto, w: Machine, a: Action, c: Id)
    requires Possible(k, w, a) && Orderly(w, c) && !a.Advance?
    ensures Orderly(Happen(k, w, a), c)
    ensures Happen(k, w, a).h.s.chunks[c] == w.h.s.chunks[c]
  {
    hide Fair, Above;
    var next := Happen(k, w, a);
    assert SameNumbers(w.h.s, next.h.s, c);
    SameNumbersKeep(w.h.s, next.h.s, w.threads, c);
  }

  lemma {:induction false} PlayOrderly(k: Crypto, w: Machine, actions: seq<Action>, c: Id)
    requires MachineOk(k, w) && Schedule(k, w, actions) && Orderly(w, c)
    ensures Orderly(Play(k, w, actions), c)
    decreases |actions|
  {
    hide MachineOk, Orderly, Happen, Possible;
    if actions != [] {
      ActionKeeps(k, w, actions[0]);
      if actions[0].Advance? {
        AdvanceOrderly(k, w, actions[0].tid, actions[0].env, c);
      } else {
        OthersOrderly(k, w, actions[0], c);
      }
      PlayOrderly(k, Happen(k, w, actions[0]), actions[1..], c);
    }
  }

  /** Once the upload of its file is over, a chunk with distinct replica numbers found while the lock is free keeps them
      distinct for ever, through any interleaving of passes, reconciliations, downloads and deletes. */
  lemma NumbersStayDistinct(k: Crypto, start: Machine, before: seq<Action>, after: seq<Action>, c: Id)
    requires Idle(start) && Schedule(k, start, before) && Schedule(k, Play(k, start, before), after)
    requires var w := Play(k, start, before);
             && w.lock.None? && c in w.h.s.chunks && Settled(w.h, w.threads, w.h.s.chunks[c].fileId)
             && NumbersDiffer(w.h.s, c)
    ensures NumbersDiffer(Play(k, Play(k, start, before), after).h.s, c)
  {
    hide Play, Schedule, Idle, NumbersDiffer, SharedOk, ThreadsOk, OneUploadEach, Settled, Plans, Inside;
    var w := Play(k, start, before);
    IdleIsOk(k, start);
    PlayKeeps(k, start, before);
    forall tid | tid in w.threads ensures !Plans(w.threads[tid], c) {
      if Plans(w.threads[tid], c) {
        PlannersAreInside(w.threads[tid], c);
      }
    }
    PlayOrderly(k, w, after, c);
  }
}
