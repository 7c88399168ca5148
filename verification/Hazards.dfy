/** What interleaving can break and what the lock saves: STORED-means-ONLINE and distinct replica numbers. */
module Hazards {
  import opened Types
  import opened Placement
  import opened Recovery
  import opened Transfers
  import opened Downloads
  import opened Runs
  import opened Interleaving
  import opened Races

  predicate IsOnline(s: State, n: Id) {
    n in s.nodes && s.nodes[n].status.Online?
  }

  predicate IsStored(s: State, c: Id, n: Id) {
    (c, n) in s.replicas && s.replicas[(c, n)].status.Stored?
  }

  /** A pass that has taken n OFFLINE and is still to mark this row. */
  predicate Shelters(t: Thread, c: Id, n: Id) {
    && t.Recoverer? && t.n == n
    && (t.rec.ReadAffected? || (t.rec.MarkMissing? && t.rec.i <= |t.rec.all| && c in t.rec.all[t.rec.i..]))
  }

  ghost predicate BeingMarked(w: Machine, c: Id, n: Id) {
    w.lock.Some? && w.lock.value in w.threads && Shelters(w.threads[w.lock.value], c, n)
  }

  ghost predicate Excused(w: Machine, c: Id, n: Id) {
    IsOnline(w.h.s, n) || BeingMarked(w, c, n)
  }

  /** Every STORED row is on an ONLINE node, or on one whose running pass has yet to mark that row. */
  ghost predicate Upright(w: Machine) {
    forall c, n :: IsStored(w.h.s, c, n) ==> Excused(w, c, n)
  }

  /** The effect makes the row of c on n STORED. */
  predicate Stores(s: State, e: Effect, c: Id, n: Id) {
    (e.PutsRow? && e.c == c && e.n == n)
    || (e.SetsRow? && e.c == c && e.n == n && e.status.Stored? && (c, n) in s.replicas)
  }

  /** A row is recorded STORED on a node that has meanwhile gone OFFLINE. */
  ghost predicate Late(k: Crypto, w: Machine, a: Action) {
    a.Advance? && Possible(k, w, a)
    && exists c, n :: Stores(w.h.s, Move(k, a.env, w.h.s, w.threads[a.tid]).1, c, n) && !Excused(w, c, n)
  }

  // ---------- what a pass has seen ONLINE stays ONLINE ----------

  ghost predicate AllOnline(s: State, rows: seq<NodeRow>) {
    forall r :: r in rows ==> IsOnline(s, r.id)
  }

  ghost predicate MapOnline(s: State, nodeMap: map<Id, Node>) {
    forall x :: x in nodeMap && nodeMap[x].status.Online? ==> IsOnline(s, x)
  }

  ghost predicate PassSees(s: State, pass: Progress) {
    AllOnline(s, pass.online) && MapOnline(s, pass.nodeMap)
  }

  ghost predicate SeesOnline(s: State, st: RecoveryStage) {
    match st
    case ReadMap(_, online) => AllOnline(s, online)
    case Decide(pass) => PassSees(s, pass)
    case Doom(pass) => PassSees(s, pass)
    case Fetch(pass, copying) => PassSees(s, pass) && IsOnline(s, copying.target)
    case Store(pass, copying, _) => PassSees(s, pass) && IsOnline(s, copying.target)
    case AddCopy(pass, copying) => PassSees(s, pass) && IsOnline(s, copying.target)
    case _ => true
  }

  ghost predicate PassesSee(w: Machine) {
    forall tid :: tid in w.threads && w.threads[tid].Recoverer? ==> SeesOnline(w.h.s, w.threads[tid].rec)
  }

  lemma OnlineStays(h: Shared, e: Effect, x: Id)
    requires IsOnline(h.s, x) && !(e.TakesOffline? && e.n == x) && (e.PutsNode? ==> e.node.status.Online?)
    ensures IsOnline(Act(h, e).s, x)
  {}

  lemma SeesStays(h: Shared, e: Effect, st: RecoveryStage)
    requires SeesOnline(h.s, st) && !e.TakesOffline? && (e.PutsNode? ==> e.node.status.Online?)
    ensures SeesOnline(Act(h, e).s, st)
  {
    hide Act, IsOnline;
    forall x | IsOnline(h.s, x) ensures IsOnline(Act(h, e).s, x) {
      OnlineStays(h, e, x);
    }
  }

  /** Nodes are put ONLINE by registration; only a pass, inside the lock, takes one OFFLINE. */
  lemma NodeEffects(k: Crypto, env: Env, s: State, t: Thread)
    requires Fair(env)
    ensures var e := Move(k, env, s, t).1;
            && (e.PutsNode? ==> e.node.status.Online?)
            && (e.TakesOffline? ==> t.Recoverer? && t.rec.TakeOffline? && e.n == t.n)
  {
    hide Fair, OnlineRows, ChunkList, Select, ChunkRows, StoredRows, Surviving, JobRows, Plain, Affected, MissingOn;
  }

  lemma OnlineRowsAre(s: State, env: Env)
    requires Fair(env)
    ensures AllOnline(s, OnlineRows(s.nodes, env))
  {
    hide OnlineRows;
    forall r | r in OnlineRows(s.nodes, env) ensures IsOnline(s, r.id) {
      NodeRowsHas(s.nodes, env, r);
    }
  }

  lemma NodesAreOnline(s: State)
    ensures MapOnline(s, s.nodes)
  {}

  lemma SelectedIsListed(size: nat, available: seq<NodeRow>, rf: int, excluded: set<Id>, r: NodeRow)
    requires Select(size, available, rf, excluded).Some? && r in Select(size, available, rf, excluded).value
    ensures r in available
  {
    CandidatesAreEligible(size, available, excluded, r);
    StableSortIs(Candidates(size, available, excluded), ByScore, r);
  }

  lemma DecideSees(env: Env, s: State, n: Id, pass: Progress)
    requires PassSees(s, pass)
    ensures var t := DecideMove(env, s, n, pass); t.Recoverer? && SeesOnline(s, t.rec)
  {
    hide ChunkRows, Surviving, Select, Occupied, MaxNumber;
    if pass.i < |pass.all| && pass.all[pass.i] in s.chunks {
      var c := pass.all[pass.i];
      var rows := ChunkRows(s.replicas, env, c);
      var targets := Select(s.chunks[c].size, pass.online, 1, Occupied(rows));
      if targets.Some? && targets.value != [] {
        SelectedIsListed(s.chunks[c].size, pass.online, 1, Occupied(rows), targets.value[0]);
      }
    }
  }

  lemma RecoverySees(k: Crypto, env: Env, h: Shared, n: Id, st: RecoveryStage)
    requires Fair(env) && SeesOnline(h.s, st)
    ensures var (t, e) := RecoveryMove(k, env, h.s, n, st);
            t.Recoverer? ==> SeesOnline(Act(h, e).s, t.rec)
  {
    hide OnlineRows, Fair, AllOnline, MapOnline, IsOnline, DecideMove, Affected, Act;
    var (t, e) := RecoveryMove(k, env, h.s, n, st);
    OnlineRowsAre(h.s, env);
    assert MapOnline(h.s, h.s.nodes) by { NodesAreOnline(h.s); }
    if st.Decide? {
      DecideSees(env, h.s, n, st.pass);
      NoEffect(h);
    } else if st.TakeOffline? {
    } else if t.Recoverer? {
      SeesStays(h, e, t.rec);
    }
  }

  lemma NoEffect(h: Shared)
    ensures Act(h, Quiet) == h
  {}

  lemma SeersAreInside(t: Thread, s: State)
    requires t.Recoverer? && !Inside(t)
    ensures SeesOnline(s, t.rec)
  {}

  lemma AdvanceSees(k: Crypto, w: Machine, tid: nat, env: Env)
    requires MachineOk(k, w) && PassesSee(w) && Possible(k, w, Advance(tid, env))
    ensures PassesSee(Happen(k, w, Advance(tid, env)))
  {
    hide Fair, SharedOk, ThreadsOk, OneUploadEach, SeesOnline, Move, Act, Inside;
    var t := w.threads[tid];
    var (next, e) := Move(k, env, w.h.s, t);
    NodeEffects(k, env, w.h.s, t);
    MoveLocks(k, env, w.h.s, t);
    forall other | other in w.threads && other != tid && w.threads[other].Recoverer?
      ensures SeesOnline(Act(w.h, e).s, w.threads[other].rec)
    {
      if e.TakesOffline? {
        assert Inside(t) by { TakersAreInside(t); }
        SeersAreInside(w.threads[other], Act(w.h, e).s);
      } else {
        SeesStays(w.h, e, w.threads[other].rec);
      }
    }
    if next.Recoverer? {
      OnlyRecoveryRecovers(k, env, w.h.s, t);
      RecoverySees(k, env, w.h, t.n, t.rec);
      MoveOfRecovery(k, env, w.h.s, t);
    }
  }

  lemma TakersAreInside(t: Thread)
    requires t.Recoverer? && t.rec.TakeOffline?
    ensures Inside(t)
  {}

  lemma OnlyRecoveryRecovers(k: Crypto, env: Env, s: State, t: Thread)
    requires Fair(env) && Move(k, env, s, t).0.Recoverer?
    ensures t.Recoverer?
  {
    hide Fair, OnlineRows, ChunkList, Select, ChunkRows, StoredRows, Surviving, JobRows, Plain, Affected, MissingOn,
         RecoveryMove;
  }

  lemma MoveOfRecovery(k: Crypto, env: Env, s: State, t: Thread)
    requires Fair(env) && t.Recoverer?
    ensures Move(k, env, s, t) == RecoveryMove(k, env, s, t.n, t.rec)
  {
    hide RecoveryMove;
  }

  /** Every action keeps it that passes work on nodes that are still ONLINE. */
  lemma ActionSees(k: Crypto, w: Machine, a: Action)
    requires MachineOk(k, w) && PassesSee(w) && Possible(k, w, a)
    ensures PassesSee(Happen(k, w, a))
  {
    hide MachineOk, SeesOnline, Move, Act, Fair, Tamper, Heartbeat;
    match a {
      case Advance(tid, env) => AdvanceSees(k, w, tid, env);
      case Beat(n, avail, total, now) =>
        forall tid | tid in w.threads && w.threads[tid].Recoverer?
          ensures SeesOnline(Heartbeat(w.h.s, n, avail, total, now), w.threads[tid].rec)
        {
          BeatSees(w.h, n, avail, total, now, w.threads[tid].rec);
        }
      case TamperWith(key, contents) =>
        forall tid | tid in w.threads && w.threads[tid].Recoverer?
          ensures SeesOnline(Tamper(w.h.s, key, contents), w.threads[tid].rec)
        {
          TamperSees(w.h.s, key, contents, w.threads[tid].rec);
        }
      case StartRecover(tid, n) => SeersAreInside(Recoverer(n, RecoveryWaits), w.h.s);
      case _ =>
    }
  }

  lemma BeatSees(h: Shared, n: Id, avail: int, total: int, now: int, st: RecoveryStage)
    requires SeesOnline(h.s, st)
    ensures SeesOnline(Heartbeat(h.s, n, avail, total, now), st)
  {
    hide SeesOnline;
    var e := if n in h.s.nodes then PutsNode(n, Node(total, avail, Online, now)) else Quiet;
    assert Act(h, e).s == Heartbeat(h.s, n, avail, total, now);
    SeesStays(h, e, st);
  }

  lemma TamperSees(s: State, key: Key, contents: Option<Bytes>, st: RecoveryStage)
    requires SeesOnline(s, st)
    ensures SeesOnline(Tamper(s, key, contents), st)
  {
    hide IsOnline;
    forall x | IsOnline(s, x) ensures IsOnline(Tamper(s, key, contents), x) {
      SameNodes(s, Tamper(s, key, contents), x);
    }
  }

  lemma SameNodes(s: State, t: State, x: Id)
    requires s.nodes == t.nodes
    ensures IsOnline(s, x) <==> IsOnline(t, x)
  {}

  // ---------- the exact condition for STORED to mean ONLINE ----------

  /** Which rows are STORED after an effect. */
  lemma StoredAfter(h: Shared, e: Effect, c: Id, n: Id)
    ensures IsStored(Act(h, e).s, c, n) <==>
            Stores(h.s, e, c, n) || (IsStored(h.s, c, n) && !(e.SetsRow? && e.c == c && e.n == n))
  {
    hide AddChunks, WithStatus;
  }

  /** Threads that record a STORED row shelter nothing, before or after. */
  lemma StorersShelterNothing(k: Crypto, env: Env, s: State, t: Thread, c: Id, n: Id)
    requires Fair(env) && Stores(s, Move(k, env, s, t).1, c, n)
    ensures forall d, x :: !Shelters(t, d, x) && !Shelters(Move(k, env, s, t).0, d, x)
    ensures t.Recoverer? ==> t.rec.AddCopy? && t.rec.copying.target == n
    ensures !Move(k, env, s, t).1.Locks? && !Move(k, env, s, t).1.Unlocks?
  {
    hide Fair, OnlineRows, ChunkList, Select, ChunkRows, StoredRows, Surviving, JobRows, Plain, Affected, MissingOn,
         DecideMove;
  }

  lemma ShelterMoves(k: Crypto, env: Env, s: State, n: Id, st: RecoveryStage, c: Id)
    requires Fair(env) && Shelters(Recoverer(n, st), c, n) && IsStored(s, c, n)
    ensures var (t, e) := RecoveryMove(k, env, s, n, st);
            && !e.Locks? && !e.Unlocks?
            && (Shelters(t, c, n) || (e.SetsRow? && e.c == c && e.n == n && !e.status.Stored?))
  {
    hide Affected, DecideMove, OnlineRows;
    if st.ReadAffected? {
      var all := env.scan(RowsOnNode(n), Affected(s, n));
      assert Enumerates(all, Affected(s, n));
      MarkedRows(s, n, c, n);
      assert all[0..] == all;
    } else {
      assert st.all[st.i..][1..] == st.all[st.i + 1..];
    }
  }

  lemma OfflineShelters(k: Crypto, env: Env, s: State, t: Thread, c: Id)
    requires Fair(env) && Move(k, env, s, t).1.TakesOffline?
    ensures Shelters(Move(k, env, s, t).0, c, Move(k, env, s, t).1.n) && Inside(t)
  {
    hide Fair, OnlineRows, ChunkList, Select, ChunkRows, StoredRows, Surviving, JobRows, Plain, Affected, MissingOn,
         DecideMove;
  }

  /** The lock changes hands only by the mover's own doing, and only when it is free or the mover's. */
  lemma LockKept(k: Crypto, w: Machine, tid: nat, env: Env)
    requires MachineOk(k, w) && Possible(k, w, Advance(tid, env)) && w.lock.Some? && w.lock.value != tid
    ensures Happen(k, w, Advance(tid, env)).lock == w.lock
    ensures w.lock.value in w.threads
            && Happen(k, w, Advance(tid, env)).threads[w.lock.value] == w.threads[w.lock.value]
  {
    hide Fair, SharedOk, ThreadsOk, OneUploadEach, Move, Act, Inside;
    MoveLocks(k, env, w.h.s, w.threads[tid]);
  }

  /** Sheltered rows stay sheltered until they are marked. */
  lemma MarkedLater(k: Crypto, w: Machine, tid: nat, env: Env, c: Id, n: Id)
    requires MachineOk(k, w) && Possible(k, w, Advance(tid, env))
    requires BeingMarked(w, c, n) && IsStored(w.h.s, c, n)
    ensures var e := Move(k, env, w.h.s, w.threads[tid]).1;
            BeingMarked(Happen(k, w, Advance(tid, env)), c, n)
            || (e.SetsRow? && e.c == c && e.n == n && !e.status.Stored?)
  {
    hide Fair, MachineOk, Move, Act, Shelters, IsStored;
    if w.lock.value == tid {
      var t := w.threads[tid];
      assert t.Recoverer? && t.n == n by { ShelterIsRecovery(t, c, n); }
      ShelterMoves(k, env, w.h.s, n, t.rec, c);
      MoveOfRecovery(k, env, w.h.s, t);
    } else {
      LockKept(k, w, tid, env);
    }
  }

  lemma ShelterIsRecovery(t: Thread, c: Id, n: Id)
    requires Shelters(t, c, n)
    ensures t.Recoverer? && t.n == n
  {}

  /** An excused STORED row that stays STORED stays excused. */
  lemma OldRowExcused(k: Crypto, w: Machine, tid: nat, env: Env, c: Id, n: Id)
    requires MachineOk(k, w) && Possible(k, w, Advance(tid, env)) && Excused(w, c, n) && IsStored(w.h.s, c, n)
    requires var e := Move(k, env, w.h.s, w.threads[tid]).1; !(e.SetsRow? && e.c == c && e.n == n)
    ensures Excused(Happen(k, w, Advance(tid, env)), c, n)
  {
    hide Fair, SharedOk, ThreadsOk, OneUploadEach, Move, Act, Shelters, IsStored, Inside, IsOnline;
    var t := w.threads[tid];
    var e := Move(k, env, w.h.s, t).1;
    NodeEffects(k, env, w.h.s, t);
    if IsOnline(w.h.s, n) {
      if e.TakesOffline? && e.n == n {
        OfflineShelters(k, env, w.h.s, t, c);
        assert w.lock == Some(tid);
      } else {
        OnlineStays(w.h, e, n);
      }
    } else {
      MarkedLater(k, w, tid, env, c, n);
    }
  }

  /** Recording a row leaves nodes and shelters as they are. */
  lemma StoringExcuses(k: Crypto, w: Machine, tid: nat, env: Env, c: Id, n: Id)
    requires MachineOk(k, w) && Possible(k, w, Advance(tid, env))
    requires Stores(w.h.s, Move(k, env, w.h.s, w.threads[tid]).1, c, n)
    ensures Excused(w, c, n) <==> Excused(Happen(k, w, Advance(tid, env)), c, n)
  {
    hide Fair, SharedOk, ThreadsOk, OneUploadEach, Move, Shelters, Inside;
    var t := w.threads[tid];
    StorersShelterNothing(k, env, w.h.s, t, c, n);
    var e := Move(k, env, w.h.s, t).1;
    assert Act(w.h, e).s.nodes == w.h.s.nodes;
    if w.lock.Some? && w.lock.value != tid {
      LockKept(k, w, tid, env);
    }
  }

  /** One move keeps STORED meaning ONLINE exactly when it does not record a row late. */
  lemma AdvanceUpright(k: Crypto, w: Machine, tid: nat, env: Env)
    requires MachineOk(k, w) && Upright(w) && Possible(k, w, Advance(tid, env))
    ensures Upright(Happen(k, w, Advance(tid, env))) <==> !Late(k, w, Advance(tid, env))
  {
    hide Fair, MachineOk, Move, Act, Excused, IsStored, Stores;
    var next := Happen(k, w, Advance(tid, env));
    var e := Move(k, env, w.h.s, w.threads[tid]).1;
    forall c, n ensures IsStored(next.h.s, c, n) <==>
            Stores(w.h.s, e, c, n) || (IsStored(w.h.s, c, n) && !(e.SetsRow? && e.c == c && e.n == n))
      ensures Stores(w.h.s, e, c, n) ==> (Excused(w, c, n) <==> Excused(next, c, n))
      ensures IsStored(w.h.s, c, n) && !(e.SetsRow? && e.c == c && e.n == n) ==> Excused(next, c, n)
    {
      StoredAfter(w.h, e, c, n);
      if Stores(w.h.s, e, c, n) {
        StoringExcuses(k, w, tid, env, c, n);
      }
      if IsStored(w.h.s, c, n) && !(e.SetsRow? && e.c == c && e.n == n) {
        OldRowExcused(k, w, tid, env, c, n);
      }
    }
  }

  /** A recovery pass never records late: what it saw ONLINE only another pass could take down. */
  lemma PassesAreNeverLate(k: Crypto, w: Machine, tid: nat, env: Env)
    requires MachineOk(k, w) && PassesSee(w) && Possible(k, w, Advance(tid, env)) && w.threads[tid].Recoverer?
    ensures !Late(k, w, Advance(tid, env))
  {
    hide Fair, MachineOk, Move, IsOnline, BeingMarked, AllOnline;
    var e := Move(k, env, w.h.s, w.threads[tid]).1;
    forall c, n | Stores(w.h.s, e, c, n) ensures Excused(w, c, n) {
      StorersShelterNothing(k, env, w.h.s, w.threads[tid], c, n);
    }
  }

  lemma {:induction false} PlaySees(k: Crypto, w: Machine, actions: seq<Action>)
    requires MachineOk(k, w) && PassesSee(w) && Schedule(k, w, actions)
    ensures PassesSee(Play(k, w, actions))
    decreases |actions|
  {
    hide MachineOk, PassesSee, Happen, Possible;
    if actions != [] {
      ActionKeeps(k, w, actions[0]);
      ActionSees(k, w, actions[0]);
      PlaySees(k, Happen(k, w, actions[0]), actions[1..]);
    }
  }

  /** In no run does a recovery pass record late; only uploads and reconciliations can. */
  lemma RecoveryIsNeverLate(k: Crypto, start: Machine, actions: seq<Action>, tid: nat, env: Env)
    requires Idle(start) && Schedule(k, start, actions)
    requires var w := Play(k, start, actions); Possible(k, w, Advance(tid, env)) && w.threads[tid].Recoverer?
    ensures !Late(k, Play(k, start, actions), Advance(tid, env))
  {
    hide MachineOk, Late, Play, Schedule, Possible;
    IdleIsOk(k, start);
    PlayKeeps(k, start, actions);
    PlaySees(k, start, actions);
    PassesAreNeverLate(k, Play(k, start, actions), tid, env);
  }

  lemma OthersUpright(k: Crypto, w: Machine, a: Action)
    requires MachineOk(k, w) && Upright(w) && Possible(k, w, a) && !a.Advance?
    ensures Upright(Happen(k, w, a))
  {
    hide Fair, SharedOk, ThreadsOk, OneUploadEach, Inside, Shelters;
    var next := Happen(k, w, a);
    forall c, n | IsStored(next.h.s, c, n) ensures Excused(next, c, n) {
      assert IsStored(w.h.s, c, n);
    }
  }

  /** One action keeps STORED meaning ONLINE exactly when it does not record a row late. */
  lemma ActionUpright(k: Crypto, w: Machine, a: Action)
    requires MachineOk(k, w) && Upright(w) && Possible(k, w, a)
    ensures Upright(Happen(k, w, a)) <==> !Late(k, w, a)
  {
    hide MachineOk, Upright, Happen, Possible;
    if a.Advance? {
      AdvanceUpright(k, w, a.tid, a.env);
    } else {
      OthersUpright(k, w, a);
    }
  }

  ghost predicate AlwaysUpright(k: Crypto, w: Machine, actions: seq<Action>)
    requires Schedule(k, w, actions)
    decreases |actions|
  {
    Upright(w) && (actions == [] || AlwaysUpright(k, Happen(k, w, actions[0]), actions[1..]))
  }

  ghost predicate NeverLate(k: Crypto, w: Machine, actions: seq<Action>)
    requires Schedule(k, w, actions)
    decreases |actions|
  {
    actions == [] || (!Late(k, w, actions[0]) && NeverLate(k, Happen(k, w, actions[0]), actions[1..]))
  }

  lemma {:induction false} UprightExactly(k: Crypto, w: Machine, actions: seq<Action>)
    requires MachineOk(k, w) && Upright(w) && Schedule(k, w, actions)
    ensures AlwaysUpright(k, w, actions) <==> NeverLate(k, w, actions)
    decreases |actions|
  {
    hide MachineOk, Upright, Happen, Possible, Late;
    if actions != [] {
      var next := Happen(k, w, actions[0]);
      ActionKeeps(k, w, actions[0]);
      ActionUpright(k, w, actions[0]);
      if !Late(k, w, actions[0]) {
        UprightExactly(k, next, actions[1..]);
      } else {
        NotUprightAtOnce(k, next, actions[1..]);
      }
    }
  }

  lemma NotUprightAtOnce(k: Crypto, w: Machine, actions: seq<Action>)
    requires Schedule(k, w, actions) && !Upright(w)
    ensures !AlwaysUpright(k, w, actions)
  {
    hide Upright, Happen, Possible;
  }

  /** From the start, STORED means ONLINE throughout a run exactly when no upload and no reconciliation of it records a
      row on a node that a pass has taken OFFLINE in the meantime. */
  lemma StoredMeansOnlineUnlessLate(k: Crypto, start: Machine, actions: seq<Action>)
    requires Idle(start) && Schedule(k, start, actions)
    ensures AlwaysUpright(k, start, actions) <==> NeverLate(k, start, actions)
  {
    hide MachineOk, AlwaysUpright, NeverLate, Schedule;
    IdleIsOk(k, start);
    UprightExactly(k, start, actions);
  }
}
