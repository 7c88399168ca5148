/** A run, from an empty cluster and without tampering, that leaves two replicas of a chunk under one number. */
module NumberWitness {
  import opened Types
  import opened Naming
  import opened Chunking
  import opened Placement
  import opened Recovery
  import opened Transfers
  import opened Runs
  import opened Interleaving
  import opened Races
  import opened Hazards
  import opened Numbering
  import opened Solo
  import opened Witness

  /** Three nodes the upload sees, a fourth that joins later, and the file they are about. */
  datatype Cast = Cast(f: Id, a: Id, b: Id, d: Id, e: Id, node: Node) {
    predicate Apt() {
      a != b && a != d && a != e && b != d && b != e && d != e && node.status.Online? && node.avail >= 1
    }
    function C(): Id {
      ChunkId(f, 0)
    }
    function Nodes(): map<Id, Node> {
      map[a := node, b := node, d := node]
    }
    function Listing(): seq<NodeRow> {
      [NodeRow(a, node), NodeRow(b, node), NodeRow(d, node)]
    }
    /** One byte, one chunk, four replicas asked for. */
    function TheJob(): Job {
      Job(f, [0], 1, 4, false)
    }
    function TheTurn(j: nat): Turn {
      Turn(Listing(), 0, Listing(), j, [0])
    }
  }

  /** Calls are answered, and the three nodes are listed in order of their ids. */
  ghost predicate Orderly3(env: Env, x: Cast) {
    Calm(env) && env.scan(AllNodes, {x.a, x.b, x.d}) == [x.a, x.b, x.d]
  }

  function Blank(nodes: map<Id, Node>): State {
    State(nodes, map[], map[], map[], map[])
  }

  lemma NoRowsRegister(k: Crypto, env: Env, s: State, n: Id, node: Node)
    requires node.status.Online? && forall c :: (c, n) !in s.replicas
    ensures Register(k, s, env, n, node) == s.(nodes := s.nodes[n := node])
  {
    forall key: Key | key in s.replicas ensures key.1 != n {
      assert key == (key.0, key.1);
    }
  }

  lemma Joins(k: Crypto, w: Machine, env: Env, tid: nat, n: Id, node: Node) returns (v: Machine)
    requires Fair(env) && Reached(k, w) && MachineOk(k, w) && w.lock.None? && tid !in w.threads
    requires node.status.Online? && forall c :: (c, n) !in w.h.s.replicas
    ensures Reached(k, v) && MachineOk(k, v) && v.lock.None?
    ensures v.h.s == w.h.s.(nodes := w.h.s.nodes[n := node]) && v.threads == w.threads[tid := Done]
            && v.h.jobs == w.h.jobs
  {
    hide Fair, Leads, Reached, MachineOk, Register, Move, Inside;
    var a := StartRegister(tid, n, node);
    ReachOne(k, w, a);
    v := Happen(k, w, a);
    RegisterAlone(k, env, w.h.s, n, node);
    NoRowsRegister(k, env, w.h.s, n, node);
    UploadersAreOutside(Done);
    v := ReachAlong(k, v, tid, env, w.h.s.(nodes := w.h.s.nodes[n := node]), Done);
  }

  lemma TrioUp(k: Crypto, env: Env, x: Cast) returns (w: Machine)
    requires Fair(env) && x.Apt()
    ensures Reached(k, w) && MachineOk(k, w) && w.lock.None? && w.h.s == Blank(x.Nodes()) && w.h.jobs == map[]
    ensures w.threads == map[0 := Done, 1 := Done, 2 := Done]
  {
    hide Fair, Reached, MachineOk, Idle;
    w := EmptyCluster();
    IdleMeans(w);
    IdleReached(k, w);
    IdleIsOk(k, w);
    w := Joins(k, w, env, 0, x.a, x.node);
    w := Joins(k, w, env, 1, x.b, x.node);
    w := Joins(k, w, env, 2, x.d, x.node);
    assert w.h.s.nodes == x.Nodes();
  }

  // ---------- the upload up to its third row ----------

  lemma TrioOnline(env: Env, x: Cast)
    requires Orderly3(env, x) && x.Apt()
    ensures OnlineRows(x.Nodes(), env) == x.Listing()
  {
    hide Fair;
    var nodes, ids := x.Nodes(), [x.a, x.b, x.d];
    assert nodes.Keys == {x.a, x.b, x.d};
    assert ids[1..] == [x.b, x.d] && ids[1..][1..] == [x.d] && ids[1..][1..][1..] == [];
    assert NodesAt(nodes, []) == [];
    assert NodesAt(nodes, [x.d]) == [NodeRow(x.d, x.node)];
    assert NodesAt(nodes, [x.b, x.d]) == [NodeRow(x.b, x.node)] + NodesAt(nodes, [x.d]);
    assert NodesAt(nodes, ids) == [NodeRow(x.a, x.node)] + NodesAt(nodes, [x.b, x.d]);
    assert NodeRows(nodes, env) == x.Listing();
    FilterSize(x.Listing(), (r: NodeRow) => r.node.status.Online?);
  }

  lemma TrioChosen(x: Cast)
    requires x.Apt()
    ensures Select(1, x.Listing(), 4, {}) == Some(x.Listing())
  {
    var excluded: set<Id> := {};
    FilterSize(x.Listing(), (r: NodeRow) => r.node.status.Online? && r.id !in excluded && r.node.avail >= 1);
    assert Candidates(1, x.Listing(), excluded) == x.Listing();
  }

  lemma TheRows(k: Crypto, x: Cast)
    ensures Pieces([0], 1) == [[0]] && JobRows(k, x.TheJob()) == [Model(k, x.f, 0, [0])]
  {
    hide Model;
    OnePiece(k, x.f);
  }

  /** The chunk sent to the first j nodes and recorded on the first i. */
  function Placed3(k: Crypto, x: Cast, sent: map<Key, Bytes>, rows: map<Key, Replica>): State {
    State(x.Nodes(), map[x.f := FileRow(k, x.TheJob(), FileStatus.Uploading)],
          map[x.C() := Model(k, x.f, 0, [0]).chunk], rows, sent)
  }

  lemma Filed3(k: Crypto, x: Cast)
    ensures Created(k, x.TheJob(), Blank(x.Nodes())) == Placed3(k, x, map[], map[])
  {
    hide ChunkId, Pieces, FileRow;
    TheRows(k, x);
    var row := Model(k, x.f, 0, [0]);
    assert [row][1..] == [];
    assert AddChunks(map[], [row]) == map[row.id := row.chunk];
  }

  /** One replica sent and recorded. */
  lemma Sends3(k: Crypto, env: Env, x: Cast, sent: map<Key, Bytes>, rows: map<Key, Replica>, j: nat)
    requires Calm(env) && j < 3
    ensures var n := x.Listing()[j].id;
            Leads(k, env, Placed3(k, x, sent, rows), Uploader(x.TheJob(), Probe(x.TheTurn(j))),
                  Placed3(k, x, sent[(x.C(), n) := [0]], rows[(x.C(), n) := Replica(j + 1, Stored)]),
                  Uploader(x.TheJob(), Probe(x.TheTurn(j + 1))))
  {
    hide Fair, Leads, ChunkId, Pieces, FileRow, JobRows;
    TheRows(k, x);
    AttemptAlone(k, env, Placed3(k, x, sent, rows), x.TheJob(), x.TheTurn(j));
  }

  /** The third replica sent, not yet recorded. */
  lemma SendsLast(k: Crypto, env: Env, x: Cast, sent: map<Key, Bytes>, rows: map<Key, Replica>)
    requires Calm(env)
    ensures Leads(k, env, Placed3(k, x, sent, rows), Uploader(x.TheJob(), Probe(x.TheTurn(2))),
                  Placed3(k, x, sent[(x.C(), x.d) := [0]], rows), Uploader(x.TheJob(), AddReplica(x.TheTurn(2))))
  {
    hide Fair, Leads, ChunkId, Pieces, FileRow, OnlineRows, Select, AddChunks, JobRows, RecoveryMove, RegisterMove,
         DownloadMove, DeleteMove;
    TheRows(k, x);
    var s, end, last := Placed3(k, x, sent, rows), Placed3(k, x, sent[(x.C(), x.d) := [0]], rows),
        Uploader(x.TheJob(), AddReplica(x.TheTurn(2)));
    Here(k, env, end, last);
    Then(k, env, s, Uploader(x.TheJob(), Send(x.TheTurn(2))), end, last);
    Then(k, env, s, Uploader(x.TheJob(), Probe(x.TheTurn(2))), end, last);
  }

  lemma Chooses3(k: Crypto, env: Env, x: Cast, s: State, end: State, last: Thread)
    requires Fair(env) && x.Apt() && Leads(k, env, s, Uploader(x.TheJob(), Probe(x.TheTurn(0))), end, last)
    ensures Leads(k, env, s, Uploader(x.TheJob(), Choose(x.Listing(), 0)), end, last)
  {
    hide Fair, Leads, ChunkId, Pieces, FileRow, OnlineRows, Select, AddChunks, JobRows, RecoveryMove, RegisterMove,
         DownloadMove, DeleteMove;
    TheRows(k, x);
    TrioChosen(x);
    Then(k, env, s, Uploader(x.TheJob(), Choose(x.Listing(), 0)), end, last);
  }

  function Rows2(x: Cast): map<Key, Replica> {
    map[(x.C(), x.a) := Replica(1, Stored), (x.C(), x.b) := Replica(2, Stored)]
  }

  function Sent3(x: Cast): map<Key, Bytes> {
    map[(x.C(), x.a) := [0], (x.C(), x.b) := [0], (x.C(), x.d) := [0]]
  }

  lemma SentRows(x: Cast)
    ensures map[][(x.C(), x.a) := Replica(1, Stored)][(x.C(), x.b) := Replica(2, Stored)] == Rows2(x)
    ensures map[][(x.C(), x.a) := [0]][(x.C(), x.b) := [0]][(x.C(), x.d) := [0]] == Sent3(x)
  {
    hide ChunkId;
  }

  lemma SendsThree(k: Crypto, env: Env, x: Cast)
    requires Calm(env)
    ensures Leads(k, env, Placed3(k, x, map[], map[]), Uploader(x.TheJob(), Probe(x.TheTurn(0))),
                  Placed3(k, x, Sent3(x), Rows2(x)), Uploader(x.TheJob(), AddReplica(x.TheTurn(2))))
  {
    hide Fair, Leads, ChunkId, Placed3, Rows2, Sent3;
    var job := x.TheJob();
    var s0 := Placed3(k, x, map[], map[]);
    var sent1: map<Key, Bytes>, rows1: map<Key, Replica> :=
        map[][(x.C(), x.a) := [0]], map[][(x.C(), x.a) := Replica(1, Stored)];
    var sent2, rows2 := sent1[(x.C(), x.b) := [0]], rows1[(x.C(), x.b) := Replica(2, Stored)];
    var s1, s2, end := Placed3(k, x, sent1, rows1), Placed3(k, x, sent2, rows2), Placed3(k, x, Sent3(x), Rows2(x));
    SentRows(x);
    Sends3(k, env, x, map[], map[], 0);
    Sends3(k, env, x, sent1, rows1, 1);
    SendsLast(k, env, x, sent2, rows2);
    Onward(k, env, s1, Uploader(job, Probe(x.TheTurn(1))), s2, Uploader(job, Probe(x.TheTurn(2))), end,
           Uploader(job, AddReplica(x.TheTurn(2))));
    Onward(k, env, s0, Uploader(job, Probe(x.TheTurn(0))), s1, Uploader(job, Probe(x.TheTurn(1))), end,
           Uploader(job, AddReplica(x.TheTurn(2))));
  }

  lemma UploadsTwo(k: Crypto, env: Env, x: Cast)
    requires Orderly3(env, x) && x.Apt()
    ensures Leads(k, env, Blank(x.Nodes()), Uploader(x.TheJob(), MakeFile),
                  Placed3(k, x, Sent3(x), Rows2(x)), Uploader(x.TheJob(), AddReplica(x.TheTurn(2))))
  {
    hide Fair, Leads, ChunkId, Placed3, Rows2, Sent3, Created, OnlineRows, Select;
    var job, end, last := x.TheJob(), Placed3(k, x, Sent3(x), Rows2(x)), Uploader(x.TheJob(), AddReplica(x.TheTurn(2)));
    var made := Placed3(k, x, map[], map[]);
    FilesAlone(k, env, Blank(x.Nodes()), job);
    Filed3(k, x);
    SendsThree(k, env, x);
    Chooses3(k, env, x, made, end, last);
    TrioOnline(env, x);
    assert made.nodes == x.Nodes() by { PlacedNodes(k, x, map[], map[]); }
    ReadNodesAlone(k, env, made, job, end, last);
    Onward(k, env, Blank(x.Nodes()), Uploader(job, MakeFile), made, Uploader(job, ReadNodes), end, last);
  }

  lemma PlacedNodes(k: Crypto, x: Cast, sent: map<Key, Bytes>, rows: map<Key, Replica>)
    ensures Placed3(k, x, sent, rows).nodes == x.Nodes() && Placed3(k, x, sent, rows).replicas == rows
  {}

  // ---------- the pass in between ----------

  function Low(x: Cast): Node {
    Node(x.node.total, 0, Online, 0)
  }

  /** The third node has run out of room, a fourth has joined. */
  function Crowd(k: Crypto, x: Cast): State {
    Placed3(k, x, Sent3(x), Rows2(x)).(nodes := x.Nodes()[x.d := Low(x)][x.e := x.node])
  }

  lemma CrowdRow(k: Crypto, x: Cast, n: Id)
    requires x.Apt()
    ensures var m := Marked(Crowd(k, x), x.a);
            && ((x.C(), n) in m.replicas <==> n == x.a || n == x.b)
            && m.replicas[(x.C(), x.a)] == Replica(1, Missing) && m.replicas[(x.C(), x.b)] == Replica(2, Stored)
    ensures x.C() in Affected(Crowd(k, x), x.a)
  {
    hide ChunkId, FileRow, Model;
    MarkedRows(Crowd(k, x), x.a, x.C(), n);
    MarkedRows(Crowd(k, x), x.a, x.C(), x.a);
    MarkedRows(Crowd(k, x), x.a, x.C(), x.b);
  }

  lemma CrowdNodes(k: Crypto, x: Cast, n: Id)
    requires x.Apt()
    ensures var m := Marked(Crowd(k, x), x.a);
            && (n in m.nodes && m.nodes[n].status.Online? <==> n == x.b || n == x.d || n == x.e)
            && x.b in m.nodes && x.d in m.nodes && x.e in m.nodes
            && m.nodes[x.d].avail == 0 && m.nodes[x.e].avail >= 1
            && x.C() in m.chunks && m.chunks[x.C()].size == 1 && m.chunks[x.C()].sha == k.hash([0])
            && (x.C(), x.b) in m.disk && m.disk[(x.C(), x.b)] == [0]
  {
    hide ChunkId, FileRow;
  }

  /** The pass over the first node copies from the second to the fourth, as number three. */
  lemma CrowdPlan(k: Crypto, env: Env, x: Cast)
    requires Calm(env) && x.Apt()
    ensures PlanFor(Marked(Crowd(k, x), x.a), env, x.C()) == Copy(x.b, x.e, 3)
  {
    hide Fair, ChunkId, PlanFor, Crowd, Marked;
    var m, c := Marked(Crowd(k, x), x.a), x.C();
    PlanMeans(m, env, c);
    CrowdNodes(k, x, x.b);
    CrowdRow(k, x, x.b);
    CrowdNodes(k, x, x.e);
    CrowdRow(k, x, x.e);
    assert Survivor(m, c, x.b) && CanReceive(m, c, x.e);
    var p := PlanFor(m, env, c);
    CrowdNodes(k, x, p.source);
    CrowdRow(k, x, p.source);
    CrowdNodes(k, x, p.target);
    CrowdRow(k, x, p.target);
    var top := PlanNumbers(m, env, c);
    CrowdRow(k, x, top);
  }

  lemma CrowdRecovers(k: Crypto, env: Env, x: Cast)
    requires Calm(env) && x.Apt()
    ensures var t := RecoverNode(k, Crowd(k, x), env, x.a);
            (x.C(), x.e) in t.replicas && t.replicas[(x.C(), x.e)] == Replica(3, Stored)
  {
    hide Fair, ChunkId, PlanFor, Crowd, Marked, Pass, Affected;
    var m, c := Marked(Crowd(k, x), x.a), x.C();
    CrowdPlan(k, env, x);
    CrowdNodes(k, x, x.b);
    CrowdRow(k, x, x.b);
    assert Recovers(k, m, env, c);
    PassRows(k, m, env, Affected(Crowd(k, x), x.a), c, x.e);
  }

  // ---------- the upload goes on ----------

  /** The upload records its third row and reports success, whatever the tables have become. */
  lemma GoesOn(k: Crypto, env: Env, x: Cast, s: State)
    requires Fair(env)
    ensures var t := AddRow(s, x.C(), x.d, 3);
            Leads(k, env, s, Uploader(x.TheJob(), AddReplica(x.TheTurn(2))),
                  t.(files := WithStatus(t.files, x.f, FileStatus.Active)), Done)
  {
    hide Fair, Leads, ChunkId, Pieces, OnlineRows, Select, AddChunks, JobRows, Concat, WithStatus, RecoveryMove,
         RegisterMove, DownloadMove, DeleteMove;
    TheRows(k, x);
    var job, t := x.TheJob(), AddRow(s, x.C(), x.d, 3);
    var end := t.(files := WithStatus(t.files, x.f, FileStatus.Active));
    OutcomeAlone(k, env, t, job, true);
    Then(k, env, t, Uploader(job, Choose(x.Listing(), 1)), end, Done);
    Then(k, env, t, Uploader(job, Probe(x.TheTurn(3))), end, Done);
    Then(k, env, s, Uploader(job, AddReplica(x.TheTurn(2))), end, Done);
  }

  /** The upload stands before its third row in the changed cluster. */
  lemma CrowdStands(k: Crypto, env: Env, x: Cast) returns (w: Machine)
    requires Orderly3(env, x) && x.Apt()
    ensures Reached(k, w) && MachineOk(k, w) && w.lock.None? && w.h.s == Crowd(k, x) && x.f in w.h.jobs
    ensures w.threads == map[0 := Done, 1 := Done, 2 := Done,
                             3 := Uploader(x.TheJob(), AddReplica(x.TheTurn(2))), 4 := Done]
  {
    hide Fair, Leads, Reached, MachineOk, Move, Inside, Placed3, Rows2, Sent3, ChunkId;
    w := TrioUp(k, env, x);
    w := TwoPlaced(k, w, env, x);
    var beat := Beat(x.d, 0, x.node.total, 0);
    PlacedNodes(k, x, Sent3(x), Rows2(x));
    ReachOne(k, w, beat);
    w := Happen(k, w, beat);
    NoRowsOnFourth(x);
    w := Joins(k, w, env, 4, x.e, x.node);
  }

  lemma NoRowsOnFourth(x: Cast)
    requires x.Apt()
    ensures forall c :: (c, x.e) !in Rows2(x)
  {
    hide ChunkId;
  }

  lemma TwoPlaced(k: Crypto, w: Machine, env: Env, x: Cast) returns (v: Machine)
    requires Orderly3(env, x) && x.Apt() && Reached(k, w) && MachineOk(k, w) && w.lock.None? && w.h.jobs == map[]
    requires w.h.s == Blank(x.Nodes()) && 3 !in w.threads
    ensures Reached(k, v) && MachineOk(k, v) && v.lock.None? && v.h.s == Placed3(k, x, Sent3(x), Rows2(x))
            && x.f in v.h.jobs
    ensures v.threads == w.threads[3 := Uploader(x.TheJob(), AddReplica(x.TheTurn(2)))]
  {
    hide Fair, Leads, Reached, MachineOk, Move, Inside, Placed3, Rows2, Sent3;
    var a := StartUpload(3, x.TheJob());
    ReachOne(k, w, a);
    v := Happen(k, w, a);
    UploadsTwo(k, env, x);
    UploadersAreOutside(Uploader(x.TheJob(), AddReplica(x.TheTurn(2))));
    v := ReachAlong(k, v, 3, env, Placed3(k, x, Sent3(x), Rows2(x)), Uploader(x.TheJob(), AddReplica(x.TheTurn(2))));
  }

  lemma PassAmid(k: Crypto, w: Machine, env: Env, tid: nat, n: Id) returns (v: Machine)
    requires Fair(env) && Reached(k, w) && MachineOk(k, w) && w.lock.None? && tid !in w.threads
    ensures Reached(k, v) && MachineOk(k, v) && v.lock.None? && v.h.s == RecoverNode(k, w.h.s, env, n)
    ensures v.threads == w.threads[tid := Done] && v.h.jobs == w.h.jobs
  {
    hide Fair, Leads, Reached, MachineOk, RecoverNode, Move, Inside;
    var a := StartRecover(tid, n);
    ReachOne(k, w, a);
    v := Happen(k, w, a);
    RecoverAlone(k, env, w.h.s, n);
    UploadersAreOutside(Done);
    v := ReachAlong(k, v, tid, env, RecoverNode(k, w.h.s, env, n), Done);
  }

  /** Replica numbers do not survive an upload and a pass over the same chunk: with two of its rows recorded, a pass
      over the first node gives the number three to a new copy; the upload then gives it to its third. Every request is
      done, the lock is free, and two STORED rows of the chunk have one number. */
  lemma NumberRace(k: Crypto, env: Env, x: Cast) returns (w: Machine)
    requires Orderly3(env, x) && x.Apt()
    ensures Reached(k, w) && w.lock.None? && x.f in w.h.jobs && Settled(w.h, w.threads, x.f)
    ensures forall tid :: tid in w.threads ==> w.threads[tid].Done?
    ensures IsStored(w.h.s, x.C(), x.d) && IsStored(w.h.s, x.C(), x.e) && !NumbersDiffer(w.h.s, x.C())
  {
    hide Fair, Leads, Reached, MachineOk, RecoverNode, Move, Inside, Crowd, ChunkId, WithStatus;
    w := CrowdStands(k, env, x);
    w := PassAmid(k, w, env, 5, x.a);
    CrowdRecovers(k, env, x);
    GoesOn(k, env, x, w.h.s);
    UploadersAreOutside(Done);
    var t := AddRow(w.h.s, x.C(), x.d, 3);
    w := ReachAlong(k, w, 3, env, t.(files := WithStatus(t.files, x.f, FileStatus.Active)), Done);
    assert w.h.s.replicas[(x.C(), x.d)].number == w.h.s.replicas[(x.C(), x.e)].number;
  }
}
