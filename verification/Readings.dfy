/** What each access of an interleaved request goes by: which table it reads, and what it does with what was read
    before. */
module Readings {
  import opened Types
  import opened Placement
  import opened Recovery
  import opened Transfers
  import opened Downloads
  import opened Interleaving

  // ---------- which table each access reads ----------

  /** An upload reads the nodes once, before its first chunk, and after that only the disks it asks about copies. */
  lemma UploadReads(k: Crypto, env: Env, s: State, t: State, job: Job, st: UploadStage)
    requires st.ReadNodes? ==> s.nodes == t.nodes
    requires st.Probe? ==> s.disk == t.disk
    ensures UploadMove(k, env, s, job, st) == UploadMove(k, env, t, job, st)
  {}

  /** A pass reads the node table twice, after marking; what it decides about a chunk later goes by those readings and
      by the chunk's rows and record at that moment. The row it then adds was settled with the decision. */
  lemma RecoveryReads(k: Crypto, env: Env, s: State, t: State, n: Id, st: RecoveryStage)
    requires st.ReadAffected? || st.Decide? ==> s.replicas == t.replicas
    requires st.ReadOnline? || st.ReadMap? ==> s.nodes == t.nodes
    requires st.Decide? || st.Doom? ==> s.chunks == t.chunks
    requires st.Fetch? ==> s.disk == t.disk
    ensures RecoveryMove(k, env, s, n, st) == RecoveryMove(k, env, t, n, st)
  {}

  /** A registration lists the MISSING rows once; each is then asked about against its record and the disk. */
  lemma RegisterReads(k: Crypto, env: Env, s: State, t: State, n: Id, node: Node, st: RegisterStage)
    requires st.ReadMissing? ==> s.replicas == t.replicas
    requires st.ReadNode? ==> s.nodes == t.nodes
    requires st.Ask? ==> s.chunks == t.chunks && s.disk == t.disk
    ensures RegisterMove(k, env, s, n, node, st) == RegisterMove(k, env, t, n, node, st)
  {}

  /** A download reads the nodes once; the rows of a chunk once, when it comes to it; the copies as it tries them. */
  lemma DownloadReads(k: Crypto, env: Env, s: State, t: State, f: Id, st: DownloadStage)
    requires Fair(env)
    requires st.ReadFile? ==> s.files == t.files
    requires st.ReadChunks? || st.TryReplica? ==> s.chunks == t.chunks
    requires st.ReadNodeMap? ==> s.nodes == t.nodes
    requires st.NextChunk? ==> s.replicas == t.replicas
    requires st.TryReplica? ==> s.disk == t.disk
    ensures DownloadMove(k, env, s, f, st) == DownloadMove(k, env, t, f, st)
  {}

  /** A delete reads file, chunks and nodes once each, and the rows of a chunk when it comes to it. */
  lemma DeleteReads(env: Env, s: State, t: State, f: Id, st: DeleteStage)
    requires Fair(env)
    requires st.FindFile? ==> s.files == t.files
    requires st.FindChunks? ==> s.chunks == t.chunks
    requires st.FindNodes? ==> s.nodes == t.nodes
    requires st.EachChunk? ==> s.replicas == t.replicas
    ensures DeleteMove(env, s, f, st) == DeleteMove(env, t, f, st)
  {}

  // ---------- what is done with it ----------

  /** One try of a download: by the node map read at the start the replica is passed over unless its node was ONLINE,
      and also when it does not answer or cannot be decrypted; right bytes are kept, and only other bytes are
      distrusted. */
  lemma TryOutcome(k: Crypto, env: Env, s: State, f: Id, r: Reading, rows: seq<Row>, j: nat)
    requires Fair(env) && r.i < |r.cs| && j < |rows| && r.cs[r.i] in s.chunks
    ensures var (next, e) := Move(k, env, s, Downloader(f, TryReplica(r, rows, j)));
            var c, x := r.cs[r.i], rows[j].node;
            var plain := if !(x in r.nodeMap && r.nodeMap[x].status.Online? && env.reply(c, x).Answered?
                              && (c, x) in s.disk) then None
                         else if r.file.encrypted then k.open(s.disk[(c, x)]) else Some(s.disk[(c, x)]);
            && e == Quiet
            && next == Downloader(f, if plain.None? then TryReplica(r, rows, j + 1)
                                     else if k.hash(plain.value) == s.chunks[c].sha
                                     then NextChunk(Reading(r.file, r.cs, r.nodeMap, r.i + 1, r.got + plain.value))
                                     else Distrust(r, rows, j))
    ensures Move(k, env, s, Downloader(f, Distrust(r, rows, j)))
            == (Downloader(f, TryReplica(r, rows, j + 1)),
                SetsRow(r.cs[r.i], rows[j].node, ReplicaStatus.Corrupted))
  {}

  /** One decision of a pass: the file is doomed when no row is STORED now on a node that was ONLINE in the map read at
      the start; a copy goes from such a node to the highest ranked of the nodes that were ONLINE in the list read at
      the start, have room and have no row now but a MISSING one, under one number above all there are now; otherwise
      the chunk is passed over. */
  lemma DecideOutcome(k: Crypto, env: Env, s: State, n: Id, pass: Progress)
    requires Fair(env) && pass.i < |pass.all| && DistinctIds(pass.online)
    ensures var (next, e) := Move(k, env, s, Recoverer(n, Decide(pass)));
            var c := pass.all[pass.i];
            var source := exists x :: (c, x) in s.replicas && s.replicas[(c, x)].status.Stored?
                                      && x in pass.nodeMap && pass.nodeMap[x].status.Online?;
            var taker := c in s.chunks && exists r :: r in pass.online && Takes(s, c, r);
            && e == Quiet && next.Recoverer? && next.n == n
            && (if !source then next.rec == Doom(pass)
                else if !taker then next.rec == Decide(Progress(pass.all, pass.online, pass.nodeMap, pass.i + 1))
                else next.rec.Fetch? && next.rec.pass == pass && Fits(s, pass, c, next.rec.copying))
  {
    hide ChunkRows, Select, Occupied, MaxNumber, Surviving, Fair, Takes, Ranks;
    var c, m := pass.all[pass.i], s.(nodes := pass.nodeMap);
    SurvivingHas(m, env, c);
    SourceSeen(s, pass.nodeMap, c);
    NumbersHas(s, env, c);
    if c in s.chunks {
      TakersElect(s, env, c, pass.online);
    }
  }

  lemma SourceSeen(s: State, nodeMap: map<Id, Node>, c: Id)
    ensures (exists x :: Survivor(s.(nodes := nodeMap), c, x)) <==>
            exists x :: (c, x) in s.replicas && s.replicas[(c, x)].status.Stored?
                        && x in nodeMap && nodeMap[x].status.Online?
  {
    if x :| (c, x) in s.replicas && s.replicas[(c, x)].status.Stored? && x in nodeMap && nodeMap[x].status.Online? {
      assert Survivor(s.(nodes := nodeMap), c, x);
    }
    if x :| Survivor(s.(nodes := nodeMap), c, x) {}
  }

  /** r is the only node taken, a best one. */
  ghost predicate Elected(s: State, c: Id, online: seq<NodeRow>, r: NodeRow)
    requires c in s.chunks
  {
    r in online && Takes(s, c, r) && forall u :: u in online && Takes(s, c, u) ==> Ranks(r.node, u.node)
  }

  lemma TakersElect(s: State, env: Env, c: Id, online: seq<NodeRow>)
    requires Fair(env) && c in s.chunks && DistinctIds(online)
    ensures match Select(s.chunks[c].size, online, 1, Occupied(ChunkRows(s.replicas, env, c)))
            case None => forall r :: r in online ==> !Takes(s, c, r)
            case Some(picked) => |picked| == 1 && Elected(s, c, online, picked[0])
  {
    hide ChunkRows, Select, Occupied, Fair, Ranks;
    var size, occupied := s.chunks[c].size, Occupied(ChunkRows(s.replicas, env, c));
    SelectIs(size, online, 1, occupied);
    var fit := set r | r in online && r.node.status.Online? && r.id !in occupied && r.node.avail >= size;
    forall r | r in online ensures Takes(s, c, r) <==> r in fit {
      OccupiedHas(s, env, c, r.id);
    }
    if Select(size, online, 1, occupied).Some? {
      var picked := Select(size, online, 1, occupied).value;
      assert |picked| == 1;
      assert picked[0] in picked;
      forall u | u in online && Takes(s, c, u) ensures Ranks(picked[0].node, u.node) {
        assert u in fit;
        RanksItself(u.node);
        assert u in picked ==> u == picked[0];
      }
    } else {
      forall r | r in online ensures !Takes(s, c, r) {
        assert r !in fit;
      }
    }
  }

  lemma NumbersHas(s: State, env: Env, c: Id)
    requires Fair(env)
    ensures var top := MaxNumber(ChunkRows(s.replicas, env, c));
            && (forall x :: (c, x) in s.replicas ==> s.replicas[(c, x)].number <= top)
            && ((exists x :: (c, x) in s.replicas) ==>
                  exists x :: (c, x) in s.replicas && s.replicas[(c, x)].number == top)
  {
    hide ChunkRows, MaxNumber, Fair;
    var rows := ChunkRows(s.replicas, env, c);
    forall x | (c, x) in s.replicas
      ensures s.replicas[(c, x)].number <= MaxNumber(rows)
      ensures rows != []
    {
      var r := Row(c, x, s.replicas[(c, x)].number, s.replicas[(c, x)].status);
      ChunkRowsHas(s.replicas, env, c, r);
      MaxNumberBounds(rows, r);
    }
    if rows != [] {
      var r := MaxNumberListed(rows);
      ChunkRowsHas(s.replicas, env, c, r);
    }
  }

  ghost predicate Takes(s: State, c: Id, r: NodeRow)
    requires c in s.chunks
  {
    && r.node.status.Online? && r.node.avail >= s.chunks[c].size
    && ((c, r.id) in s.replicas ==> s.replicas[(c, r.id)].status.Missing?)
  }

  ghost predicate Fits(s: State, pass: Progress, c: Id, copying: Copying)
    requires c in s.chunks
  {
    && copying.chunk == c && copying.sha == s.chunks[c].sha
    && (c, copying.source) in s.replicas && s.replicas[(c, copying.source)].status.Stored?
    && copying.source in pass.nodeMap && pass.nodeMap[copying.source].status.Online?
    && (exists r :: Elected(s, c, pass.online, r) && r.id == copying.target)
    && (forall x :: (c, x) in s.replicas ==> s.replicas[(c, x)].number < copying.number)
    && exists x :: (c, x) in s.replicas && s.replicas[(c, x)].number == copying.number - 1
  }
}
