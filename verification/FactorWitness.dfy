/** Two runs from an empty cluster: recovery and reconciliation take a file above its replication factor and below. */
module FactorWitness {
  import opened Types
  import opened Naming
  import opened Chunking
  import opened Placement
  import opened Recovery
  import opened Transfers
  import opened Downloads
  import opened Runs
  import opened UploadOutcome
  import opened Replication

  /** Reached from the empty tables by atomic steps without tampering. */
  ghost predicate Visited(k: Crypto, w: World) {
    exists start: World, steps: seq<Step> ::
      Init(start) && Legal(k, start, steps) && NoTampering(steps) && Exec(k, start, steps) == w
  }

  lemma {:induction false} ExecSnoc(k: Crypto, w: World, steps: seq<Step>, step: Step)
    requires Legal(k, w, steps) && Enabled(Exec(k, w, steps), step)
    ensures Legal(k, w, steps + [step]) && Exec(k, w, steps + [step]) == Apply(k, Exec(k, w, steps), step)
    decreases |steps|
  {
    hide Apply, Enabled;
    if steps == [] {
      assert steps + [step] == [step] && [step][1..] == [];
    } else {
      ExecSnoc(k, Apply(k, w, steps[0]), steps[1..], step);
      assert (steps + [step])[1..] == steps[1..] + [step];
    }
  }

  lemma VisitNext(k: Crypto, w: World, step: Step)
    requires Visited(k, w) && Enabled(w, step) && !step.DoTamper?
    ensures Visited(k, Apply(k, w, step))
  {
    hide Apply, Enabled, Init, Legal, Exec;
    var start: World, steps: seq<Step> :|
      Init(start) && Legal(k, start, steps) && NoTampering(steps) && Exec(k, start, steps) == w;
    ExecSnoc(k, start, steps, step);
    assert NoTampering(steps + [step]);
  }

  lemma VisitedIsSound(k: Crypto, w: World)
    requires RoundTrips(k) && Visited(k, w)
    ensures Sound(k, w)
  {
    hide RoundTrips, Sound, Init, Legal, Exec;
    var start: World, steps: seq<Step> :|
      Init(start) && Legal(k, start, steps) && NoTampering(steps) && Exec(k, start, steps) == w;
    InitIsSound(k, start);
    RunKeepsSound(k, start, steps);
  }

  /** Every call is carried out and answered. */
  ghost predicate Helpful(env: Env) {
    Fair(env) && forall c, n :: env.reply(c, n).Answered? && env.verify(c, n)
  }

  // ---------- counting the nodes with room ----------

  ghost function Roomy(nodes: map<Id, Node>, size: nat): set<Id> {
    set n | n in nodes && nodes[n].status.Online? && nodes[n].avail >= size
  }

  lemma CandidateIds(nodes: map<Id, Node>, env: Env, size: nat, r: NodeRow)
    requires Fair(env)
    ensures r in Candidates(size, OnlineRows(nodes, env), {}) <==> r.id in Roomy(nodes, size) && nodes[r.id] == r.node
  {
    hide OnlineRows, Candidates, Fair;
    CandidatesAreEligible(size, OnlineRows(nodes, env), {}, r);
    NodeRowsHas(nodes, env, r);
  }

  /** The candidates for a chunk are as many as the ONLINE nodes with room for it. */
  lemma CandidatesCount(nodes: map<Id, Node>, env: Env, size: nat)
    requires Fair(env)
    ensures |Candidates(size, OnlineRows(nodes, env), {})| == |Roomy(nodes, size)|
  {
    hide OnlineRows, Roomy, Fair;
    var online, none: set<Id> := OnlineRows(nodes, env), {};
    var cands := Candidates(size, online, none);
    OnlineRowsDistinct(nodes, env);
    FilterDistinctIds(online, (r: NodeRow) => r.node.status.Online? && r.id !in none && r.node.avail >= size);
    assert DistinctIds(cands);
    hide Candidates;
    var ids := seq(|cands|, i requires 0 <= i < |cands| => cands[i].id);
    DistinctSize(ids);
    forall n ensures n in Elements(ids) <==> n in Roomy(nodes, size) {
      CandidateIdIn(nodes, env, size, ids, n);
    }
    assert Elements(ids) == Roomy(nodes, size);
  }

  lemma CandidateIdIn(nodes: map<Id, Node>, env: Env, size: nat, ids: seq<Id>, n: Id)
    requires Fair(env)
    requires var cands := Candidates(size, OnlineRows(nodes, env), {});
             |ids| == |cands| && forall i :: 0 <= i < |ids| ==> ids[i] == cands[i].id
    ensures n in ids <==> n in Roomy(nodes, size)
  {
    hide OnlineRows, Candidates, Fair;
    var cands := Candidates(size, OnlineRows(nodes, env), {});
    if n in ids {
      var i :| 0 <= i < |ids| && ids[i] == n;
      assert cands[i] in cands;
      CandidateIds(nodes, env, size, cands[i]);
    }
    if n in Roomy(nodes, size) {
      CandidateIds(nodes, env, size, NodeRow(n, nodes[n]));
      var i :| 0 <= i < |cands| && cands[i] == NodeRow(n, nodes[n]);
      assert ids[i] == n;
    }
  }

  // ---------- a file with two replicas ----------

  /** One byte, one chunk, two replicas asked for. */
  function PairJob(f: Id): Job {
    Job(f, [0], 1, 2, false)
  }

  lemma PairRows(k: Crypto, f: Id)
    ensures JobRows(k, PairJob(f)) == [Model(k, f, 0, [0])]
  {
    hide ChunkId;
    var b: Bytes := [0];
    assert Read(b, 0, 1) == b && Read(b, 1, 1) == [];
    assert PiecesFrom(b, 1, 1) == [];
    assert PiecesFrom(b, 0, 1) == [b] + PiecesFrom(b, 1, 1);
  }

  lemma Joined(k: Crypto, w: World, env: Env, n: Id, node: Node)
    requires Visited(k, w) && Fair(env) && node.status.Online? && w.s.replicas == map[]
    ensures var v := w.(s := w.s.(nodes := w.s.nodes[n := node]));
            Apply(k, w, DoRegister(env, n, node)) == v && Visited(k, v)
  {
    hide Visited, Fair;
    assert node.(status := Online) == node;
    VisitNext(k, w, DoRegister(env, n, node));
  }

  function Bare(nodes: map<Id, Node>): World {
    World(State(nodes, map[], map[], map[], map[]), map[])
  }

  lemma BareVisited(k: Crypto, env: Env, a: Id, b: Id, d: Id, node: Node)
    requires Fair(env) && node.status.Online?
    ensures Visited(k, Bare(map[a := node, b := node])) && Visited(k, Bare(map[a := node, b := node, d := node]))
  {
    hide Fair, Visited;
    assert Visited(k, Bare(map[])) by { NothingVisited(k); }
    Joined(k, Bare(map[]), env, a, node);
    assert map[][a := node] == map[a := node];
    Joined(k, Bare(map[a := node]), env, b, node);
    assert map[a := node][b := node] == map[a := node, b := node];
    Joined(k, Bare(map[a := node, b := node]), env, d, node);
    assert map[a := node, b := node][d := node] == map[a := node, b := node, d := node];
  }

  lemma NothingVisited(k: Crypto)
    ensures Visited(k, Bare(map[]))
  {
    var none: seq<Step> := [];
    assert Init(Bare(map[])) && Legal(k, Bare(map[]), none) && NoTampering(none)
           && Exec(k, Bare(map[]), none) == Bare(map[]);
  }

  /** The file is stored on two nodes, ACTIVE, and no node has another row of its chunk. */
  ghost predicate Paired(w: World, f: Id, nodes: map<Id, Node>) {
    var c := ChunkId(f, 0);
    && w.s.nodes == nodes && f in w.s.files && w.s.files[f].rf == 2 && w.s.files[f].status.Active?
    && !w.s.files[f].encrypted
    && c in w.s.chunks && w.s.chunks[c].fileId == f && w.s.chunks[c].size == 1
    && |Holders(w.s, c)| == 2 && forall n :: (c, n) in w.s.replicas ==> n in Holders(w.s, c)
  }

  lemma PairUploaded(k: Crypto, env: Env, f: Id, nodes: map<Id, Node>) returns (w: World)
    requires RoundTrips(k) && Helpful(env) && Visited(k, Bare(nodes)) && |Roomy(nodes, 1)| >= 2
    ensures Visited(k, w) && Paired(w, f, nodes)
  {
    hide RoundTrips, Fair, Visited, Upload, Sound, Holders, OnlineRows, Candidates, ChunkId, Roomy, Pieces, Concat;
    var job, v := PairJob(f), Bare(nodes);
    PairRows(k, f);
    PairSucceeds(k, env, f, nodes);
    VisitedIsSound(k, v);
    SoundParts(k, v);
    UploadedFile(k, env, job, v);
    UploadKeepsNodes(k, env, job, v);
    CandidatesCount(nodes, env, 1);
    JobRowsUntouched(k, v, job);
    UploadExact(k, env, job, v.s, 0);
    w := Apply(k, v, DoUpload(env, job));
    VisitNext(k, v, DoUpload(env, job));
  }

  lemma UploadKeepsNodes(k: Crypto, env: Env, job: Job, w: World)
    requires RoundTrips(k) && Inv(k, w) && Fair(env) && job.fileId !in w.uploaded
    ensures Upload(k, env, job, w.s).0.nodes == w.s.nodes
  {
    hide RoundTrips, Fair, Upload, JobRows, OnlineRows, AddChunks, SameChunk, Partly, Fully, FileRow, Inv;
    JobRowsUntouched(k, w, job);
    UploadPlaces(k, env, job, w.s);
  }

  lemma PairSucceeds(k: Crypto, env: Env, f: Id, nodes: map<Id, Node>)
    requires Helpful(env) && |Roomy(nodes, 1)| >= 2
    ensures Upload(k, env, PairJob(f), Bare(nodes).s).1
  {
    hide Fair, Upload, OnlineRows, TargetsOf, ChunkId;
    PairRows(k, f);
    UploadSucceedsExactly(k, env, PairJob(f), Bare(nodes).s);
    var n :| n in Roomy(nodes, 1);
    assert Room(Bare(nodes).s, 1);
  }

  // ---------- above the factor ----------

  lemma OtherMember(h: set<Id>, n: Id) returns (y: Id)
    requires |h| == 2 && n in h
    ensures y in h && y != n
  {
    assert |h - {n}| == 1;
    y :| y in h - {n};
  }

  /** Any holder failing is replaced when a third node has room. */
  lemma PairReplaceable(s: State, c: Id, n: Id, z: Id)
    requires StoredOnline(s) && c in s.chunks && s.chunks[c].size == 1 && |Holders(s, c)| == 2 && n in Holders(s, c)
    requires z !in Holders(s, c) && (c, z) !in s.replicas && z in s.nodes && s.nodes[z].status.Online?
             && s.nodes[z].avail >= 1
    ensures Replaceable(s, c, n)
  {
    hide Holders;
    var y := OtherMember(Holders(s, c), n);
    HoldersHas(s, c, y);
    assert Survivor(s, c, y) && CanReceive(s, c, z);
  }

  lemma ThirdNode(nodes: set<Id>, held: set<Id>) returns (z: Id)
    requires |held| < |nodes|
    ensures z in nodes && z !in held
  {
    assert nodes == nodes * held + (nodes - held);
    assert held == nodes * held + (held - nodes);
    z :| z in nodes - held;
  }

  /** A pass over one of the two holders gives the file its second replica back, on the third node. */
  lemma PassReplaces(k: Crypto, w: World, env: Env, f: Id, a: Id, b: Id, d: Id, node: Node, n: Id) returns (v: World)
    requires RoundTrips(k) && Helpful(env) && Visited(k, w) && |{a, b, d}| == 3 && node.status.Online?
             && node.avail >= 1
    requires Paired(w, f, map[a := node, b := node, d := node]) && n in Holders(w.s, ChunkId(f, 0))
    ensures Visited(k, v) && f in v.s.files && v.s.files[f].rf == 2 && !v.s.files[f].encrypted
    ensures var c := ChunkId(f, 0);
            && c in v.s.chunks && v.s.chunks[c].fileId == f && |Holders(v.s, c)| == 2
            && (c, n) in v.s.replicas && v.s.replicas[(c, n)].status.Missing?
  {
    hide RoundTrips, Fair, Visited, Holders, RecoverNode, Register, ChunkId, RecoveredChunks, Target, Upload, Download,
         Delete, RowsKnown, Numbered, Catalog, Backed, Copies, Replaceable;
    var c := ChunkId(f, 0);
    VisitedIsSound(k, w);
    var z := ThirdNode({a, b, d}, Holders(w.s, c));
    PairReplaceable(w.s, c, n, z);
    HoldersHas(w.s, c, n);
    AnswersAll(env, w.s);
    ReplicatedExactly(k, env, w.s, n, c);
    RecoverBalances(k, env, n, w.s, c);
    RecoveryClearsNode(k, w.s, env, n);
    FactorKept(k, env, w.s, n, f);
    SealKept(k, env, w.s, n, f);
    VisitNext(k, w, DoRecover(env, n));
    v := Apply(k, w, DoRecover(env, n));
  }

  lemma SealKept(k: Crypto, env: Env, s: State, n: Id, f: Id)
    requires Fair(env) && f in s.files && f in RecoverNode(k, s, env, n).files
    ensures RecoverNode(k, s, env, n).files[f].encrypted == s.files[f].encrypted
  {
    hide Dooms, NewRows, NewCopies, Affected;
  }

  /** A pass over a holder, then its return: the chunk has three STORED rows on ONLINE nodes, one above the factor. */
  lemma FactorExceeded(k: Crypto, env: Env, f: Id, a: Id, b: Id, d: Id, node: Node) returns (w: World)
    requires RoundTrips(k) && Helpful(env) && |{a, b, d}| == 3 && node.status.Online? && node.avail >= 1
    ensures Visited(k, w) && f in w.s.files && w.s.files[f].rf == 2 && |OnlineHolders(w.s, ChunkId(f, 0))| == 3
  {
    hide RoundTrips, Fair, Visited, Holders, ChunkId, OnlineHolders;
    var nodes, c := map[a := node, b := node, d := node], ChunkId(f, 0);
    BareVisited(k, env, a, b, d, node);
    assert Roomy(nodes, 1) == {a, b, d};
    w := PairUploaded(k, env, f, nodes);
    var n :| n in Holders(w.s, c);
    w := PassReplaces(k, w, env, f, a, b, d, node, n);
    w := ComesBack(k, w, env, f, n, node);
  }

  lemma AnswersAll(env: Env, s: State)
    requires Helpful(env)
    ensures OnlineAnswers(env, s)
  {}

  lemma ComesBack(k: Crypto, w: World, env: Env, f: Id, n: Id, node: Node) returns (v: World)
    requires RoundTrips(k) && Helpful(env) && Visited(k, w) && node.status.Online?
    requires f in w.s.files && w.s.files[f].rf == 2 && !w.s.files[f].encrypted
    requires var c := ChunkId(f, 0);
             && c in w.s.chunks && w.s.chunks[c].fileId == f && |Holders(w.s, c)| == 2
             && (c, n) in w.s.replicas && w.s.replicas[(c, n)].status.Missing?
    ensures Visited(k, v) && f in v.s.files && v.s.files[f].rf == 2 && |OnlineHolders(v.s, ChunkId(f, 0))| == 3
  {
    hide RoundTrips, Fair, Visited, Sound, Holders, Register, ChunkId, OnlineHolders, Legible, Flips, RecoverNode,
         Upload, Download, Delete;
    var c := ChunkId(f, 0);
    VisitedIsSound(k, w);
    SoundParts(k, w);
    assert Flips(k, w.s, env, n, c) by { MissingComesBack(k, w.s, env, n, c); }
    RegisterRows(k, env, n, node, w.s, c, n);
    RegisterMovesHolders(k, env, n, node, w.s, c);
    v := Apply(k, w, DoRegister(env, n, node));
    VisitNext(k, w, DoRegister(env, n, node));
    VisitedIsSound(k, v);
    SoundParts(k, v);
    HoldersAreOnline(v.s, c);
  }

  lemma MissingComesBack(k: Crypto, s: State, env: Env, n: Id, c: Id)
    requires Copies(k, s) && Helpful(env) && InPlainFile(s, c) && (c, n) in s.replicas
             && s.replicas[(c, n)].status.Missing?
    ensures Flips(k, s, env, n, c)
  {
    assert Legible(k, false, s.chunks[c].sha, s.disk[(c, n)]);
  }

  // ---------- below the factor ----------

  /** A pass over a holder in a cluster of two leaves one STORED row: one below the factor, the file still listed. */
  lemma FactorMissed(k: Crypto, env: Env, f: Id, a: Id, b: Id, node: Node) returns (w: World)
    requires RoundTrips(k) && Helpful(env) && a != b && node.status.Online? && node.avail >= 1
    ensures Visited(k, w) && f in w.s.files && w.s.files[f].rf == 2 && |OnlineHolders(w.s, ChunkId(f, 0))| == 1
  {
    hide RoundTrips, Fair, Visited, Sound, Holders, RecoverNode, Register, ChunkId, RecoveredChunks, OnlineHolders,
         Target, Upload, Download, Delete;
    var nodes, c := map[a := node, b := node], ChunkId(f, 0);
    BareVisited(k, env, a, b, b, node);
    assert Roomy(nodes, 1) == {a, b};
    w := PairUploaded(k, env, f, nodes);
    VisitedIsSound(k, w);
    SoundParts(k, w);
    PairEverywhere(w.s, c, a, b);
    HoldersHas(w.s, c, a);
    HoldersHas(w.s, c, b);
    AnswersAll(env, w.s);
    ReplicatedExactly(k, env, w.s, a, c);
    RecoverBalances(k, env, a, w.s, c);
    FactorKept(k, env, w.s, a, f);
    VisitNext(k, w, DoRecover(env, a));
    w := Apply(k, w, DoRecover(env, a));
    VisitedIsSound(k, w);
    SoundParts(k, w);
    HoldersAreOnline(w.s, c);
  }

  lemma PairEverywhere(s: State, c: Id, a: Id, b: Id)
    requires StoredOnline(s) && s.nodes.Keys == {a, b} && a != b && |Holders(s, c)| == 2
    ensures a in Holders(s, c) && b in Holders(s, c)
    ensures !Replaceable(s, c, a)
  {
    hide Holders;
    assert Holders(s, c) <= {a, b};
    assert {a, b} == Holders(s, c) + ({a, b} - Holders(s, c));
    HoldersHas(s, c, b);
  }
}
