/** When replica numbers are distinct, uploads under way included. */
module Distinctness {
  import opened Types
  import opened Naming
  import opened Chunking
  import opened Placement
  import opened Recovery
  import opened Transfers
  import opened Downloads
  import opened Interleaving
  import opened Races
  import opened Hazards
  import opened Numbering

  /** A row is recorded under a number that another row of the chunk already has. */
  ghost predicate Repeats(k: Crypto, w: Machine, a: Action, c: Id) {
    a.Advance? && Possible(k, w, a) && RepeatsNumber(w.h.s, Move(k, a.env, w.h.s, w.threads[a.tid]).1, c)
  }

  ghost predicate RepeatsNumber(s: State, e: Effect, c: Id) {
    e.PutsRow? && e.c == c && exists x :: x != e.n && (c, x) in s.replicas && s.replicas[(c, x)].number == e.number
  }

  lemma EffectDistinct(h: Shared, e: Effect, c: Id)
    requires NumbersDiffer(h.s, c)
    ensures NumbersDiffer(Act(h, e).s, c) <==> !RepeatsNumber(h.s, e, c)
  {
    hide Act;
    if e.PutsRow? && e.c == c {
      AddDistinct(h, c, e.n, e.number);
    } else {
      NumbersStay(h, e, c);
      SameNumbersKeep(h.s, Act(h, e).s, map[], c);
    }
  }

  lemma AddDistinct(h: Shared, c: Id, n: Id, number: int)
    requires NumbersDiffer(h.s, c)
    ensures NumbersDiffer(Act(h, PutsRow(c, n, number)).s, c) <==> !RepeatsNumber(h.s, PutsRow(c, n, number), c)
  {
    var t := Act(h, PutsRow(c, n, number)).s;
    if RepeatsNumber(h.s, PutsRow(c, n, number), c) {
      var x :| x != n && (c, x) in h.s.replicas && h.s.replicas[(c, x)].number == number;
      assert (c, x) in t.replicas && (c, n) in t.replicas && t.replicas[(c, x)].number == t.replicas[(c, n)].number;
    }
  }

  lemma ActionDistinct(k: Crypto, w: Machine, a: Action, c: Id)
    requires Possible(k, w, a) && NumbersDiffer(w.h.s, c)
    ensures NumbersDiffer(Happen(k, w, a).h.s, c) <==> !Repeats(k, w, a, c)
  {
    hide Fair, Move, Act, NumbersDiffer, RepeatsNumber;
    if a.Advance? {
      EffectDistinct(w.h, Move(k, a.env, w.h.s, w.threads[a.tid]).1, c);
    } else {
      SameRowsDiffer(w.h.s, Happen(k, w, a).h.s, c);
    }
  }

  lemma SameRowsDiffer(s: State, t: State, c: Id)
    requires s.replicas == t.replicas
    ensures NumbersDiffer(s, c) <==> NumbersDiffer(t, c)
  {}

  ghost predicate AlwaysDistinct(k: Crypto, w: Machine, actions: seq<Action>, c: Id)
    requires Schedule(k, w, actions)
    decreases |actions|
  {
    NumbersDiffer(w.h.s, c) && (actions == [] || AlwaysDistinct(k, Happen(k, w, actions[0]), actions[1..], c))
  }

  ghost predicate NeverRepeats(k: Crypto, w: Machine, actions: seq<Action>, c: Id)
    requires Schedule(k, w, actions)
    decreases |actions|
  {
    actions == [] || (!Repeats(k, w, actions[0], c) && NeverRepeats(k, Happen(k, w, actions[0]), actions[1..], c))
  }

  /** The numbers of a chunk are distinct at every moment exactly when no row, of an upload or of a pass, is recorded
      under a number already in use. */
  lemma {:induction false} DistinctUnlessRepeated(k: Crypto, w: Machine, actions: seq<Action>, c: Id)
    requires Schedule(k, w, actions) && NumbersDiffer(w.h.s, c)
    ensures AlwaysDistinct(k, w, actions, c) <==> NeverRepeats(k, w, actions, c)
    decreases |actions|
  {
    hide Happen, Possible, NumbersDiffer, Repeats;
    if actions != [] {
      ActionDistinct(k, w, actions[0], c);
      if !Repeats(k, w, actions[0], c) {
        DistinctUnlessRepeated(k, Happen(k, w, actions[0]), actions[1..], c);
      }
    }
  }

  // ---------- only a pass overlapping the upload can repeat a number ----------

  /** A pass has planned a copy of c while the upload of its file is under way. */
  ghost predicate Overlap(w: Machine, c: Id) {
    && c in w.h.s.chunks && !Settled(w.h, w.threads, w.h.s.chunks[c].fileId)
    && exists tid :: tid in w.threads && Plans(w.threads[tid], c)
  }

  ghost predicate NeverOverlaps(k: Crypto, w: Machine, actions: seq<Action>, c: Id)
    requires Schedule(k, w, actions)
    decreases |actions|
  {
    !Overlap(w, c) && (actions == [] || NeverOverlaps(k, Happen(k, w, actions[0]), actions[1..], c))
  }

  ghost predicate NoRows(s: State, c: Id) {
    forall n :: (c, n) !in s.replicas
  }

  ghost predicate AtMost(s: State, c: Id, number: int) {
    forall n :: (c, n) in s.replicas ==> s.replicas[(c, n)].number <= number
  }

  /** Where an upload stands with piece q of its job: not begun, numbered up to j, or past it. */
  ghost predicate NumberedSoFar(s: State, c: Id, q: nat, st: UploadStage) {
    match st
    case Choose(_, i) => i <= q ==> NoRows(s, c)
    case Probe(turn) => (turn.i < q ==> NoRows(s, c)) && (turn.i == q ==> AtMost(s, c, turn.j))
    case Send(turn) => (turn.i < q ==> NoRows(s, c)) && (turn.i == q ==> AtMost(s, c, turn.j))
    case AddReplica(turn) => (turn.i < q ==> NoRows(s, c)) && (turn.i == q ==> AtMost(s, c, turn.j))
    case SetOutcome(_) => true
    case _ => NoRows(s, c)
  }

  /** Every upload that has c among its pieces has numbered it in order. */
  ghost predicate UploadTidy(k: Crypto, s: State, job: Job, st: UploadStage, c: Id) {
    forall q :: 0 <= q < |JobRows(k, job)| && JobRows(k, job)[q].id == c ==> NumberedSoFar(s, c, q, st)
  }

  ghost predicate UploadsTidy(k: Crypto, s: State, threads: map<nat, Thread>, c: Id) {
    forall tid :: tid in threads && threads[tid].Uploader? ==> UploadTidy(k, s, threads[tid].job, threads[tid].up, c)
  }

  ghost predicate Tidy(k: Crypto, w: Machine, c: Id) {
    && NumbersDiffer(w.h.s, c) && UploadsTidy(k, w.h.s, w.threads, c)
    && (c in w.h.s.chunks && Settled(w.h, w.threads, w.h.s.chunks[c].fileId) ==> PlansAbove(w.h.s, w.threads, c))
  }

  lemma RowsAlike(s: State, t: State, c: Id)
    requires SameNumbers(s, t, c)
    ensures NoRows(s, c) ==> NoRows(t, c)
    ensures forall j :: AtMost(s, c, j) ==> AtMost(t, c, j)
  {}

  lemma UploadTidyStays(k: Crypto, s: State, t: State, job: Job, st: UploadStage, c: Id)
    requires SameNumbers(s, t, c) && UploadTidy(k, s, job, st, c)
    ensures UploadTidy(k, t, job, st, c)
  {
    hide SameNumbers, NoRows, AtMost, JobRows;
    RowsAlike(s, t, c);
  }

  /** An upload's own move, other than recording a row of c, keeps it tidy. */
  lemma UploadTidyMoves(k: Crypto, env: Env, h: Shared, job: Job, st: UploadStage, c: Id)
    requires UploadTidy(k, h.s, job, st, c)
    requires var e := UploadMove(k, env, h.s, job, st).1; !(e.PutsRow? && e.c == c)
    ensures var (t, e) := UploadMove(k, env, h.s, job, st);
            t.Uploader? ==> UploadTidy(k, Act(h, e).s, job, t.up, c)
  {
    hide JobRows, OnlineRows, Select, Payload, Pieces, Act, SameNumbers;
    var (t, e) := UploadMove(k, env, h.s, job, st);
    NumbersStay(h, e, c);
    RowsAlike(h.s, Act(h, e).s, c);
    hide NoRows, AtMost;
  }

  /** Recording replica j + 1 of c leaves its numbers at j + 1 at most, all distinct. */
  lemma UploadTidyAdds(k: Crypto, env: Env, h: Shared, job: Job, st: UploadStage, c: Id)
    requires UploadTidy(k, h.s, job, st, c) && NumbersDiffer(h.s, c)
    requires var e := UploadMove(k, env, h.s, job, st).1; e.PutsRow? && e.c == c
    ensures var (t, e) := UploadMove(k, env, h.s, job, st);
            t.Uploader? && UploadTidy(k, Act(h, e).s, job, t.up, c) && NumbersDiffer(Act(h, e).s, c)
  {
    hide OnlineRows, Select, Payload, Pieces, JobRows, DistinctChunks, Describes;
    JobRowsDescribe(k, job);
    SameRowOnce(k, job, st.turn.i, c);
    assert NumberedSoFar(h.s, c, st.turn.i, st);
    var t := UploadMove(k, env, h.s, job, st).0;
    forall q | 0 <= q < |JobRows(k, job)| && JobRows(k, job)[q].id == c ensures q == st.turn.i {
      SameRowOnce(k, job, q, c);
      RowsDistinct(k, job, q, st.turn.i);
    }
  }

  lemma SameRowOnce(k: Crypto, job: Job, i: nat, c: Id)
    requires i < |JobRows(k, job)|
    ensures JobRows(k, job)[i].id == ChunkId(job.fileId, i)
  {
    hide Pieces, ChunkId;
  }

  lemma RowsDistinct(k: Crypto, job: Job, i: nat, j: nat)
    requires i < |JobRows(k, job)| && j < |JobRows(k, job)| && JobRows(k, job)[i].id == JobRows(k, job)[j].id
    ensures i == j
  {
    hide JobRows;
    SameRowOnce(k, job, i, "");
    SameRowOnce(k, job, j, "");
    ChunkIdInjective(job.fileId, i, job.fileId, j);
  }

  lemma PieceOfFile(k: Crypto, h: Shared, job: Job, c: Id, q: nat)
    requires ChunksKnown(h) && c in h.s.chunks && q < |JobRows(k, job)| && JobRows(k, job)[q].id == c
    ensures h.s.chunks[c].fileId == job.fileId
  {
    hide JobRows, ChunkId;
    SameRowOnce(k, job, q, c);
    ChunkIdInjective(h.s.chunks[c].fileId, h.s.chunks[c].seqNo, job.fileId, q);
  }

  /** Uploads of other files, and uploads about to end, have nothing to keep tidy. */
  lemma TidyForOthers(k: Crypto, h: Shared, t: State, job: Job, st: UploadStage, c: Id)
    requires ChunksKnown(h) && c in h.s.chunks
    requires job.fileId == h.s.chunks[c].fileId ==> st.SetOutcome?
    ensures UploadTidy(k, t, job, st, c)
  {
    hide JobRows, NoRows, AtMost;
    forall q | 0 <= q < |JobRows(k, job)| && JobRows(k, job)[q].id == c ensures NumberedSoFar(t, c, q, st) {
      PieceOfFile(k, h, job, c, q);
    }
  }

  lemma AddedByUpload(k: Crypto, w: Machine, tid: nat, env: Env, c: Id)
    requires MachineOk(k, w) && Tidy(k, w, c) && Possible(k, w, Advance(tid, env)) && w.threads[tid].Uploader?
    requires var e := Move(k, env, w.h.s, w.threads[tid]).1; e.PutsRow? && e.c == c
    ensures var v := Happen(k, w, Advance(tid, env)); NumbersDiffer(v.h.s, c) && UploadsTidy(k, v.h.s, v.threads, c)
  {
    hide Fair, RowsGood, FilesKnown, ThreadOk, Exclusive, Move, Act, NumbersDiffer, UploadTidy, UploadMove;
    var t := w.threads[tid];
    var (next, e) := Move(k, env, w.h.s, t);
    AddersAre(k, env, w.h, t);
    assert !Inside(t);
    UploadsMove(k, env, w.h.s, t);
    MoveKeepsJob(k, env, w.h.s, t);
    UploadTidyAdds(k, env, w.h, t.job, t.up, c);
    forall other | other in w.threads && other != tid && w.threads[other].Uploader?
      ensures UploadTidy(k, Act(w.h, e).s, w.threads[other].job, w.threads[other].up, c)
    {
      TidyForOthers(k, w.h, Act(w.h, e).s, w.threads[other].job, w.threads[other].up, c);
    }
  }

  lemma AddedByPass(k: Crypto, w: Machine, tid: nat, env: Env, c: Id)
    requires MachineOk(k, w) && Tidy(k, w, c) && !Overlap(w, c)
    requires Possible(k, w, Advance(tid, env)) && !w.threads[tid].Uploader?
    requires var e := Move(k, env, w.h.s, w.threads[tid]).1; e.PutsRow? && e.c == c
    ensures c in w.h.s.chunks && Settled(w.h, w.threads, w.h.s.chunks[c].fileId)
    ensures var v := Happen(k, w, Advance(tid, env)); NumbersDiffer(v.h.s, c) && UploadsTidy(k, v.h.s, v.threads, c)
  {
    hide Fair, RowsGood, FilesKnown, OneUploadEach, Move, Act, NumbersDiffer, UploadTidy, Above, Inside;
    var t := w.threads[tid];
    var (next, e) := Move(k, env, w.h.s, t);
    assert ThreadOk(k, w.h, t);
    AddersAre(k, env, w.h, t);
    assert c in w.h.s.chunks by { PlannedIsRecorded(k, w.h, t, c); }
    assert ChunksKnown(w.h) && w.h.s.chunks[c].fileId in w.h.jobs;
    hide ChunksKnown, ThreadOk;
    AddAbove(w.h.s, c, e.n, e.number);
    AddIs(w.h, c, e.n, e.number);
    MoveKeepsJob(k, env, w.h.s, t);
    forall other | other in w.threads && w.threads[other].Uploader?
      ensures UploadTidy(k, Act(w.h, e).s, w.threads[other].job, w.threads[other].up, c)
    {
      TidyForOthers(k, w.h, Act(w.h, e).s, w.threads[other].job, w.threads[other].up, c);
    }
  }

  lemma AddIs(h: Shared, c: Id, n: Id, number: int)
    ensures Act(h, PutsRow(c, n, number)).s == AddRow(h.s, c, n, number)
  {}

  lemma PlannedIsRecorded(k: Crypto, h: Shared, t: Thread, c: Id)
    requires ThreadOk(k, h, t) && Plans(t, c)
    ensures c in h.s.chunks
  {
    hide GoodCopy;
  }

  lemma NotAdded(k: Crypto, w: Machine, tid: nat, env: Env, c: Id)
    requires MachineOk(k, w) && Tidy(k, w, c) && Possible(k, w, Advance(tid, env))
    requires var e := Move(k, env, w.h.s, w.threads[tid]).1; !(e.PutsRow? && e.c == c)
    ensures var v := Happen(k, w, Advance(tid, env)); NumbersDiffer(v.h.s, c) && UploadsTidy(k, v.h.s, v.threads, c)
  {
    hide Fair, MachineOk, Move, Act, NumbersDiffer, UploadTidy, SameNumbers, UploadMove;
    var t := w.threads[tid];
    var (next, e) := Move(k, env, w.h.s, t);
    NumbersStay(w.h, e, c);
    SameNumbersKeep(w.h.s, Act(w.h, e).s, w.threads, c);
    MoveKeepsJob(k, env, w.h.s, t);
    forall other | other in w.threads && other != tid && w.threads[other].Uploader?
      ensures UploadTidy(k, Act(w.h, e).s, w.threads[other].job, w.threads[other].up, c)
    {
      UploadTidyStays(k, w.h.s, Act(w.h, e).s, w.threads[other].job, w.threads[other].up, c);
    }
    if next.Uploader? {
      UploadsMove(k, env, w.h.s, t);
      UploadTidyMoves(k, env, w.h, t.job, t.up, c);
    }
  }

  /** Plans for a settled chunk stay above its numbers; a chunk is settled with no plan for it. */
  lemma PlansStayAbove(k: Crypto, w: Machine, tid: nat, env: Env, c: Id)
    requires MachineOk(k, w) && Tidy(k, w, c) && !Overlap(w, c) && Possible(k, w, Advance(tid, env))
    requires var v := Happen(k, w, Advance(tid, env));
             c in v.h.s.chunks && Settled(v.h, v.threads, v.h.s.chunks[c].fileId)
    ensures var v := Happen(k, w, Advance(tid, env)); PlansAbove(v.h.s, v.threads, c)
  {
    hide Fair, MachineOk, Move, Act, NumbersDiffer, UploadsTidy, Above, Allowed;
    var t := w.threads[tid];
    var (next, e) := Move(k, env, w.h.s, t);
    SettledHad(k, w, tid, env, c);
    if Settled(w.h, w.threads, w.h.s.chunks[c].fileId) {
      if e.PutsRow? && e.c == c {
        AddsInOrder(k, w, tid, env, c);
      } else {
        QuietPlans(k, w, tid, env, c);
      }
    } else {
      JustSettled(k, w, tid, env, c);
    }
  }

  lemma SettledHad(k: Crypto, w: Machine, tid: nat, env: Env, c: Id)
    requires MachineOk(k, w) && Possible(k, w, Advance(tid, env))
    requires var v := Happen(k, w, Advance(tid, env));
             c in v.h.s.chunks && Settled(v.h, v.threads, v.h.s.chunks[c].fileId)
    ensures c in w.h.s.chunks && Happen(k, w, Advance(tid, env)).h.s.chunks[c] == w.h.s.chunks[c]
    ensures w.h.s.chunks[c].fileId in w.h.jobs
  {
    hide Fair, RowsGood, FilesKnown, ThreadsOk, OneUploadEach, Exclusive, Move, Act, Allowed;
    var t := w.threads[tid];
    var (next, e) := Move(k, env, w.h.s, t);
    MoverIsAllowed(k, w, tid, env);
    if c in w.h.s.chunks {
      ChunksStay(k, w.h, e, c);
    } else {
      NewChunk(k, w.h, e, c);
      CreatorUnsettled(k, w, tid, env);
    }
  }

  lemma CreatorsGoOn(k: Crypto, env: Env, s: State, t: Thread)
    requires Fair(env) && Move(k, env, s, t).1.CreatesChunks?
    ensures var (next, e) := Move(k, env, s, t);
            t.Uploader? && next == Uploader(t.job, ReadNodes) && e.f == t.job.fileId
  {
    hide Fair, OnlineRows, ChunkList, Select, ChunkRows, StoredRows, Surviving, JobRows, Plain, Affected, MissingOn,
         DecideMove;
  }

  lemma CreatorUnsettled(k: Crypto, w: Machine, tid: nat, env: Env)
    requires Possible(k, w, Advance(tid, env)) && Move(k, env, w.h.s, w.threads[tid]).1.CreatesChunks?
    ensures var v := Happen(k, w, Advance(tid, env)); !Settled(v.h, v.threads, Move(k, env, w.h.s, w.threads[tid]).1.f)
  {
    hide Fair, Move, Act;
    CreatorsGoOn(k, env, w.h.s, w.threads[tid]);
    var v := Happen(k, w, Advance(tid, env));
    assert v.threads[tid] == Uploader(w.threads[tid].job, ReadNodes);
  }

  lemma JustSettled(k: Crypto, w: Machine, tid: nat, env: Env, c: Id)
    requires Possible(k, w, Advance(tid, env)) && c in w.h.s.chunks && !Overlap(w, c)
    requires w.h.s.chunks[c].fileId in w.h.jobs && !Settled(w.h, w.threads, w.h.s.chunks[c].fileId)
    requires var v := Happen(k, w, Advance(tid, env)); Settled(v.h, v.threads, w.h.s.chunks[c].fileId)
    ensures forall other :: other in Happen(k, w, Advance(tid, env)).threads ==>
              !Plans(Happen(k, w, Advance(tid, env)).threads[other], c)
  {
    hide Fair, Move, Act;
    var t := w.threads[tid];
    var other :| other in w.threads && w.threads[other].Uploader?
        && w.threads[other].job.fileId == w.h.s.chunks[c].fileId
                 && !w.threads[other].up.SetOutcome?;
    if other != tid {
      StaysUnsettled(k, w, tid, env, other);
    }
    UploadsDoNotRecover(k, env, w.h.s, t);
  }

  lemma StaysUnsettled(k: Crypto, w: Machine, tid: nat, env: Env, other: nat)
    requires Possible(k, w, Advance(tid, env)) && other in w.threads && other != tid
    requires w.threads[other].Uploader? && !w.threads[other].up.SetOutcome?
    ensures var v := Happen(k, w, Advance(tid, env)); !Settled(v.h, v.threads, w.threads[other].job.fileId)
  {
    hide Fair, Move, Act;
    assert Happen(k, w, Advance(tid, env)).threads[other] == w.threads[other];
  }

  lemma UploadsDoNotRecover(k: Crypto, env: Env, s: State, t: Thread)
    requires Fair(env) && t.Uploader?
    ensures !Move(k, env, s, t).0.Recoverer?
  {
    hide Fair, RecoveryMove;
    if Move(k, env, s, t).0.Recoverer? {
      OnlyRecoveryRecovers(k, env, s, t);
    }
  }

  lemma AdvanceTidy(k: Crypto, w: Machine, tid: nat, env: Env, c: Id)
    requires MachineOk(k, w) && Tidy(k, w, c) && !Overlap(w, c) && Possible(k, w, Advance(tid, env))
    ensures Tidy(k, Happen(k, w, Advance(tid, env)), c)
  {
    hide Fair, MachineOk, Move, Act, NumbersDiffer, UploadsTidy, PlansAbove, Settled, Overlap;
    var e := Move(k, env, w.h.s, w.threads[tid]).1;
    var v := Happen(k, w, Advance(tid, env));
    if e.PutsRow? && e.c == c {
      if w.threads[tid].Uploader? {
        AddedByUpload(k, w, tid, env, c);
      } else {
        AddedByPass(k, w, tid, env, c);
      }
    } else {
      NotAdded(k, w, tid, env, c);
    }
    if c in v.h.s.chunks && Settled(v.h, v.threads, v.h.s.chunks[c].fileId) {
      PlansStayAbove(k, w, tid, env, c);
    }
  }

  lemma StartTidy(k: Crypto, w: Machine, job: Job, c: Id)
    requires MachineOk(k, w) && job.fileId !in w.h.jobs
    ensures UploadTidy(k, w.h.s, job, MakeFile, c)
  {
    hide JobRows, FilesKnown, ThreadsOk, OneUploadEach, Exclusive, GoodCopy, ChunksKnown;
    if c in w.h.s.chunks {
      forall q | 0 <= q < |JobRows(k, job)| ensures JobRows(k, job)[q].id != c {
        NoPieceYet(k, w.h, job, c, q);
      }
    }
  }

  lemma NoPieceYet(k: Crypto, h: Shared, job: Job, c: Id, q: nat)
    requires ChunksKnown(h) && job.fileId !in h.jobs && c in h.s.chunks && q < |JobRows(k, job)|
    ensures JobRows(k, job)[q].id != c
  {
    hide JobRows, ChunkId;
    if JobRows(k, job)[q].id == c {
      PieceOfFile(k, h, job, c, q);
    }
  }

  lemma OthersTidy(k: Crypto, w: Machine, a: Action, c: Id)
    requires MachineOk(k, w) && Tidy(k, w, c) && Possible(k, w, a) && !a.Advance?
    ensures Tidy(k, Happen(k, w, a), c)
  {
    hide Fair, SharedOk, ThreadsOk, OneUploadEach, Exclusive, Above, UploadTidy, NumbersDiffer, Move, Act;
    var v := Happen(k, w, a);
    SameRowsDiffer(w.h.s, v.h.s, c);
    SameRowsAbove(w.h.s, v.h.s, c);
    forall tid | tid in v.threads && v.threads[tid].Uploader?
      ensures UploadTidy(k, v.h.s, v.threads[tid].job, v.threads[tid].up, c) {
      if tid in w.threads {
        SameRowsTidy(k, w.h.s, v.h.s, v.threads[tid].job, v.threads[tid].up, c);
      } else {
        StartTidy(k, w, a.job, c);
        SameRowsTidy(k, w.h.s, v.h.s, v.threads[tid].job, v.threads[tid].up, c);
      }
    }
    if c in v.h.s.chunks && Settled(v.h, v.threads, v.h.s.chunks[c].fileId) {
      StillSettled(k, w, a, c);
    }
  }

  lemma SameRowsAbove(s: State, t: State, c: Id)
    requires s.replicas == t.replicas
    ensures forall number :: Above(s, c, number) <==> Above(t, c, number)
  {}

  lemma SameRowsTidy(k: Crypto, s: State, t: State, job: Job, st: UploadStage, c: Id)
    requires s.replicas == t.replicas
    ensures UploadTidy(k, s, job, st, c) ==> UploadTidy(k, t, job, st, c)
  {
    hide JobRows;
    if UploadTidy(k, s, job, st, c) {
      UploadTidyStays(k, s, t, job, st, c);
    }
  }

  lemma StillSettled(k: Crypto, w: Machine, a: Action, c: Id)
    requires MachineOk(k, w) && Possible(k, w, a) && !a.Advance? && c in w.h.s.chunks
    requires var v := Happen(k, w, a); Settled(v.h, v.threads, w.h.s.chunks[c].fileId)
    ensures Settled(w.h, w.threads, w.h.s.chunks[c].fileId)
    ensures forall tid :: tid in Happen(k, w, a).threads && Plans(Happen(k, w, a).threads[tid], c) ==>
              tid in w.threads && w.threads[tid] == Happen(k, w, a).threads[tid]
  {
    hide Fair, RowsGood, FilesKnown, ThreadsOk, OneUploadEach, Exclusive, Move, Act, ChunkId;
    var v := Happen(k, w, a);
    assert w.h.s.chunks[c].fileId in w.h.jobs;
    forall tid | tid in w.threads && w.threads[tid].Uploader? && w.threads[tid].job.fileId == w.h.s.chunks[c].fileId
      ensures w.threads[tid].up.SetOutcome?
    {
      assert v.threads[tid] == w.threads[tid];
    }
  }

  lemma {:induction false} OverlapFreeNeverRepeats(k: Crypto, w: Machine, actions: seq<Action>, c: Id)
    requires MachineOk(k, w) && Tidy(k, w, c) && Schedule(k, w, actions) && NeverOverlaps(k, w, actions, c)
    ensures NeverRepeats(k, w, actions, c)
    decreases |actions|
  {
    hide MachineOk, Tidy, Happen, Possible, Overlap, Repeats, NumbersDiffer;
    if actions != [] {
      var next := Happen(k, w, actions[0]);
      ActionKeeps(k, w, actions[0]);
      if actions[0].Advance? {
        AdvanceTidy(k, w, actions[0].tid, actions[0].env, c);
      } else {
        OthersTidy(k, w, actions[0], c);
      }
      TidyDiffers(k, w, c);
      TidyDiffers(k, next, c);
      ActionDistinct(k, w, actions[0], c);
      OverlapFreeNeverRepeats(k, next, actions[1..], c);
    }
  }

  lemma TidyDiffers(k: Crypto, w: Machine, c: Id)
    requires Tidy(k, w, c)
    ensures NumbersDiffer(w.h.s, c)
  {}

  lemma IdleIsTidy(k: Crypto, w: Machine, c: Id)
    requires Idle(w)
    ensures Tidy(k, w, c)
  {}

  /** From the empty cluster, tampering included: the numbers of a chunk are distinct at every moment if and only if no
      row is recorded under a number in use; and none is as long as no pass plans a copy of the chunk while its upload
      is under way. */
  lemma NumbersDistinctExactly(k: Crypto, start: Machine, actions: seq<Action>, c: Id)
    requires Idle(start) && Schedule(k, start, actions)
    ensures AlwaysDistinct(k, start, actions, c) <==> NeverRepeats(k, start, actions, c)
    ensures NeverOverlaps(k, start, actions, c) ==> AlwaysDistinct(k, start, actions, c)
  {
    hide MachineOk, Tidy, AlwaysDistinct, NeverRepeats, NeverOverlaps, Schedule, NumbersDiffer, Idle;
    IdleIsOk(k, start);
    IdleIsTidy(k, start, c);
    TidyDiffers(k, start, c);
    DistinctUnlessRepeated(k, start, actions, c);
    if NeverOverlaps(k, start, actions, c) {
      OverlapFreeNeverRepeats(k, start, actions, c);
    }
  }
}
