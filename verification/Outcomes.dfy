/** What each request leaves behind, row by row and copy by copy, read off the tables, the disks and the fate of its
    calls. */
module Outcomes {
  import opened Types
  import opened Placement
  import opened Recovery
  import opened Chunking
  import opened Transfers
  import opened Downloads
  import opened Runs

  // ---------- a recovery pass ----------

  /** A copy of c can be read from x while n is down. */
  ghost predicate Source(s: State, c: Id, n: Id, x: Id) {
    x != n && (c, x) in s.replicas && s.replicas[(c, x)].status.Stored? && x in s.nodes && s.nodes[x].status.Online?
  }

  /** x may be given a copy of c while n is down. */
  ghost predicate Taker(s: State, c: Id, n: Id, x: Id) {
    && x != n && x in s.nodes && s.nodes[x].status.Online? && c in s.chunks && s.nodes[x].avail >= s.chunks[c].size
    && ((c, x) in s.replicas ==> s.replicas[(c, x)].status.Missing?)
  }

  /** a comes first among the sources of c in the order in which the rows of c are listed. */
  ghost predicate FirstSource(s: State, env: Env, c: Id, n: Id, a: Id) {
    var ids := env.scan(RowsOfChunk(c), set key | key in s.replicas && key.0 == c :: key.1);
    Source(s, c, n, a) && forall i, j :: 0 <= i < j < |ids| && ids[j] == a ==> !Source(s, c, n, ids[i])
  }

  /** b ranks highest among the takers of c, and those listed ahead of it rank lower. */
  ghost predicate BestTaker(s: State, env: Env, c: Id, n: Id, b: Id) {
    var ids := env.scan(AllNodes, s.nodes.Keys);
    && Taker(s, c, n, b) && (forall y :: Taker(s, c, n, y) ==> Ranks(s.nodes[b], s.nodes[y]))
    && forall i, j :: 0 <= i < j < |ids| && ids[j] == b && Taker(s, c, n, ids[i]) ==>
         !Ranks(s.nodes[ids[i]], s.nodes[b])
  }

  /** a is the source, b the target and number the number of a copy of c that a pass over n goes for. */
  ghost predicate Chosen(s: State, env: Env, c: Id, n: Id, a: Id, b: Id, number: int) {
    && FirstSource(s, env, c, n, a) && BestTaker(s, env, c, n, b)
    && (forall x :: (c, x) in s.replicas ==> s.replicas[(c, x)].number < number)
    && exists x :: (c, x) in s.replicas && s.replicas[(c, x)].number == number - 1
  }

  lemma {:induction false} FirstListed(replicas: map<Key, Replica>, c: Id, ids: seq<Id>, p: Row -> bool)
    requires forall x :: x in ids ==> (c, x) in replicas
    ensures Filter(RowsAt(replicas, c, ids), p) != [] ==>
              exists j :: 0 <= j < |ids| && ids[j] == Filter(RowsAt(replicas, c, ids), p)[0].node
                          && forall i :: 0 <= i < j ==>
                               !p(Row(c, ids[i], replicas[(c, ids[i])].number, replicas[(c, ids[i])].status))
  {
    if ids != [] {
      var row := Row(c, ids[0], replicas[(c, ids[0])].number, replicas[(c, ids[0])].status);
      var rest := RowsAt(replicas, c, ids[1..]);
      assert RowsAt(replicas, c, ids) == [row] + rest;
      assert ([row] + rest)[1..] == rest;
      if !p(row) {
        FirstListed(replicas, c, ids[1..], p);
        if Filter(rest, p) != [] {
          var j :| 0 <= j < |ids[1..]| && ids[1..][j] == Filter(rest, p)[0].node
                   && forall i :: 0 <= i < j ==>
                        !p(Row(c, ids[1..][i], replicas[(c, ids[1..][i])].number, replicas[(c, ids[1..][i])].status));
          assert ids[j + 1] == ids[1..][j];
          forall i | 0 <= i < j + 1
            ensures !p(Row(c, ids[i], replicas[(c, ids[i])].number, replicas[(c, ids[i])].status))
          {
            assert i > 0 ==> ids[i] == ids[1..][i - 1];
          }
        }
      } else {
        assert ids[0] == row.node;
      }
    }
  }

  /** The source a plan names is the first one listed. */
  lemma PlanSource(s: State, env: Env, n: Id, c: Id)
    requires Fair(env) && PlanFor(Marked(s, n), env, c).Copy?
    ensures FirstSource(s, env, c, n, PlanFor(Marked(s, n), env, c).source)
  {
    hide PlanFor, RowsAt, Survives, Marked;
    var m, a := Marked(s, n), PlanFor(Marked(s, n), env, c).source;
    var held := set key | key in s.replicas && key.0 == c :: key.1;
    var ids, p := env.scan(RowsOfChunk(c), held), r => Survives(m.nodes, r);
    assert Enumerates(ids, held);
    SameHeld(s, n, c);
    PlanReads(m, env, c);
    forall x | x in ids ensures (c, x) in s.replicas && (c, x) in m.replicas {
      MarkedRows(s, n, c, x);
    }
    FirstListed(m.replicas, c, ids, p);
    var l :| 0 <= l < |ids| && ids[l] == a
             && forall i :: 0 <= i < l ==>
                  !p(Row(c, ids[i], m.replicas[(c, ids[i])].number, m.replicas[(c, ids[i])].status));
    PlanMeans(m, env, c);
    SourceIs(s, n, c, a);
    forall i, j | 0 <= i < j < |ids| && ids[j] == a ensures !Source(s, c, n, ids[i]) {
      assert j == l;
      SurvivesIs(s, n, c, ids[i]);
    }
  }

  lemma SameHeld(s: State, n: Id, c: Id)
    ensures HolderIds(Marked(s, n).replicas, c) == set key | key in s.replicas && key.0 == c :: key.1
  {}

  lemma SourceIs(s: State, n: Id, c: Id, x: Id)
    ensures Survivor(Marked(s, n), c, x) <==> Source(s, c, n, x)
  {
    MarkedRows(s, n, c, x);
  }

  lemma TakerIs(s: State, n: Id, c: Id, x: Id)
    ensures CanReceive(Marked(s, n), c, x) <==> Taker(s, c, n, x)
  {
    MarkedRows(s, n, c, x);
  }

  lemma SurvivesIs(s: State, n: Id, c: Id, x: Id)
    requires (c, x) in s.replicas
    ensures var row := Marked(s, n).replicas[(c, x)];
            Survives(Marked(s, n).nodes, Row(c, x, row.number, row.status)) <==> Source(s, c, n, x)
  {}

  lemma PlanReads(m: State, env: Env, c: Id)
    requires PlanFor(m, env, c).Copy?
    ensures var rows := RowsAt(m.replicas, c, env.scan(RowsOfChunk(c), HolderIds(m.replicas, c)));
            var left := Filter(rows, r => Survives(m.nodes, r));
            left != [] && left[0].node == PlanFor(m, env, c).source
  {}

  lemma {:induction false} NodesListed(nodes: map<Id, Node>, ids: seq<Id>, i: nat)
    requires i < |ids| && forall x :: x in ids ==> x in nodes
    ensures |NodesAt(nodes, ids)| == |ids| && NodesAt(nodes, ids)[i] == NodeRow(ids[i], nodes[ids[i]])
  {
    if |ids| > 1 {
      NodesListed(nodes, ids[1..], if i > 0 then i - 1 else 0);
    }
  }

  /** The nodes that can take a copy, as the selection sees them. */
  lemma TakerIsFit(s: State, env: Env, n: Id, c: Id, x: Id)
    requires Fair(env) && c in s.chunks && x in s.nodes
    ensures var m := Marked(s, n);
            var r := NodeRow(x, s.nodes[x]);
            (r in OnlineRows(m.nodes, env) && r.node.status.Online? && r.node.avail >= s.chunks[c].size
             && x !in Occupied(ChunkRows(m.replicas, env, c))) <==> Taker(s, c, n, x)
  {
    var m := Marked(s, n);
    hide ChunkRows, OnlineRows, Occupied, Fair;
    OccupiedHas(m, env, c, x);
    NodeRowsHas(m.nodes, env, NodeRow(x, s.nodes[x]));
    MarkedRows(s, n, c, x);
  }

  lemma MarkedNodes(s: State, n: Id)
    ensures Marked(s, n).chunks == s.chunks && Marked(s, n).disk == s.disk && Marked(s, n).nodes.Keys == s.nodes.Keys
    ensures forall x :: x in s.nodes && x != n ==> Marked(s, n).nodes[x] == s.nodes[x]
  {}

  lemma TakerNode(s: State, c: Id, n: Id, x: Id)
    requires Taker(s, c, n, x)
    ensures x in s.nodes && x != n && c in s.chunks
  {}

  /** The selection behind a plan takes one node. */
  lemma PlanSelects(s: State, env: Env, n: Id, c: Id)
    requires Fair(env) && PlanFor(Marked(s, n), env, c).Copy?
    ensures var m, b := Marked(s, n), PlanFor(Marked(s, n), env, c).target;
            && Taker(s, c, n, b) && c in s.chunks && b in s.nodes
            && Select(s.chunks[c].size, OnlineRows(m.nodes, env), 1, Occupied(ChunkRows(m.replicas, env, c)))
               == Some([NodeRow(b, s.nodes[b])])
  {
    hide ChunkRows, OnlineRows, Occupied, Fair, Select, Marked, Surviving, MaxNumber;
    var m, b := Marked(s, n), PlanFor(Marked(s, n), env, c).target;
    MarkedNodes(s, n);
    PlanMeans(m, env, c);
    TakerIs(s, n, c, b);
    var online, occupied := OnlineRows(m.nodes, env), Occupied(ChunkRows(m.replicas, env, c));
    OnlineRowsDistinct(m.nodes, env);
    SelectTakes(s.chunks[c].size, online, 1, occupied);
    TargetHas(m, env, c);
    var picked := Select(s.chunks[c].size, online, 1, occupied).value;
    assert picked[0] in picked;
    NodeRowsHas(m.nodes, env, picked[0]);
    TakerNode(s, c, n, b);
    assert picked == [picked[0]];
  }

  /** The target a plan names is the best one, the first listed of the best. */
  lemma PlanTarget(s: State, env: Env, n: Id, c: Id)
    requires Fair(env) && PlanFor(Marked(s, n), env, c).Copy?
    ensures BestTaker(s, env, c, n, PlanFor(Marked(s, n), env, c).target)
  {
    hide ChunkRows, OnlineRows, Occupied, Fair, Select, Ranks, PlanFor, Marked;
    var b, ids := PlanFor(Marked(s, n), env, c).target, env.scan(AllNodes, s.nodes.Keys);
    PlanSelects(s, env, n, c);
    forall y | Taker(s, c, n, y) ensures Ranks(s.nodes[b], s.nodes[y]) {
      TargetRanks(s, env, n, c, y);
    }
    forall i, j | 0 <= i < j < |ids| && ids[j] == b && Taker(s, c, n, ids[i])
      ensures !Ranks(s.nodes[ids[i]], s.nodes[b])
    {
      TieGoesFirst(s, env, n, c, i, j);
    }
  }

  lemma TargetRanks(s: State, env: Env, n: Id, c: Id, y: Id)
    requires Fair(env) && PlanFor(Marked(s, n), env, c).Copy? && Taker(s, c, n, y)
    ensures var b := PlanFor(Marked(s, n), env, c).target; b in s.nodes && Ranks(s.nodes[b], s.nodes[y])
  {
    hide ChunkRows, OnlineRows, Occupied, Fair, Select, Ranks, PlanFor, Marked, Taker;
    var m, b := Marked(s, n), PlanFor(Marked(s, n), env, c).target;
    PlanSelects(s, env, n, c);
    TakerNode(s, c, n, y);
    TakerIsFit(s, env, n, c, y);
    OnlineRowsDistinct(m.nodes, env);
    SelectIs(s.chunks[c].size, OnlineRows(m.nodes, env), 1, Occupied(ChunkRows(m.replicas, env, c)));
    RanksItself(s.nodes[b]);
    var picked := [NodeRow(b, s.nodes[b])];
    assert NodeRow(b, s.nodes[b]) in picked;
    if y != b {
      assert NodeRow(y, s.nodes[y]) !in picked;
    }
  }

  lemma TieGoesFirst(s: State, env: Env, n: Id, c: Id, i: nat, j: nat)
    requires Fair(env) && PlanFor(Marked(s, n), env, c).Copy?
    requires var ids, b := env.scan(AllNodes, s.nodes.Keys), PlanFor(Marked(s, n), env, c).target;
             i < j < |ids| && ids[j] == b && b in s.nodes && Taker(s, c, n, ids[i])
    ensures var ids := env.scan(AllNodes, s.nodes.Keys);
            !Ranks(s.nodes[ids[i]], s.nodes[PlanFor(Marked(s, n), env, c).target])
  {
    hide ChunkRows, Occupied, Fair, Select, Ranks, PlanFor, Marked, Taker, NodesAt;
    var m, b, ids := Marked(s, n), PlanFor(Marked(s, n), env, c).target, env.scan(AllNodes, s.nodes.Keys);
    PlanSelects(s, env, n, c);
    MarkedNodes(s, n);
    TakerNode(s, c, n, ids[i]);
    TakerNode(s, c, n, b);
    TargetRanks(s, env, n, c, ids[i]);
    TakerIsFit(s, env, n, c, ids[i]);
    FairScan(env, AllNodes, s.nodes.Keys);
    NodesListed(m.nodes, ids, i);
    NodesListed(m.nodes, ids, j);
    TakerIsFit(s, env, n, c, b);
    var x, y := FilterOrder(NodesAt(m.nodes, ids), (r: NodeRow) => r.node.status.Online?, i, j);
    OnlineRowsDistinct(m.nodes, env);
    if Ranks(s.nodes[ids[i]], s.nodes[b]) {
      SelectBreaksTies(s.chunks[c].size, OnlineRows(m.nodes, env), 1, Occupied(ChunkRows(m.replicas, env, c)), x, y);
    }
  }

  lemma FairScan(env: Env, q: Query, xs: set<Id>)
    requires Fair(env)
    ensures Enumerates(env.scan(q, xs), xs)
  {}

  /** A plan to copy is the choice made from the first source, the best taker and the next number. */
  lemma PlanIs(s: State, env: Env, n: Id, c: Id)
    requires Fair(env)
    ensures match PlanFor(Marked(s, n), env, c)
            case Copy(a, b, number) => Chosen(s, env, c, n, a, b, number)
            case _ => c !in s.chunks || (forall x :: !Source(s, c, n, x)) || (forall x :: !Taker(s, c, n, x))
    ensures PlanFor(Marked(s, n), env, c).NoSurvivor? <==> forall x :: !Source(s, c, n, x)
  {
    hide PlanFor, Marked, Source, Taker, FirstSource, BestTaker, Fair;
    var m := Marked(s, n);
    PlanMeans(m, env, c);
    MarkedNodes(s, n);
    forall x ensures Survivor(m, c, x) <==> Source(s, c, n, x)
      ensures CanReceive(m, c, x) <==> Taker(s, c, n, x)
    {
      SourceIs(s, n, c, x);
      TakerIs(s, n, c, x);
    }
    if PlanFor(m, env, c).Copy? {
      PlanSource(s, env, n, c);
      PlanTarget(s, env, n, c);
      var top := PlanNumbers(m, env, c);
      MarkedRows(s, n, c, top);
      forall x | (c, x) in s.replicas ensures s.replicas[(c, x)].number < PlanFor(m, env, c).number {
        MarkedRows(s, n, c, x);
      }
    }
  }

  /** One pass, chunk by chunk. A chunk with a row on the node is copied when it has a record, a source and a taker:
      from the first source to the best taker, if the call arrives, the source has the file and it hashes as recorded;
      the new row, with the next number, is there if moreover the call is answered. Nothing else about the chunk changes
      but its row on the node, which is MISSING. Chunks without a row there keep every row and copy. */
  lemma RecoveryOutcome(k: Crypto, env: Env, s: State, n: Id, c: Id) returns (a: Id, b: Id, number: int)
    requires Fair(env)
    ensures var copies := (c, n) in s.replicas && c in s.chunks
                          && (exists x :: Source(s, c, n, x)) && exists x :: Taker(s, c, n, x);
            var arrives := copies && !env.reply(c, b).Lost? && (c, a) in s.disk
                           && k.hash(s.disk[(c, a)]) == s.chunks[c].sha;
            var recorded := arrives && env.reply(c, b).Answered?;
            var t := RecoverNode(k, s, env, n);
            && (copies ==> Chosen(s, env, c, n, a, b, number))
            && forall x ::
                 && ((c, x) in t.replicas <==> (c, x) in s.replicas || (recorded && x == b))
                 && ((c, x) in t.replicas ==>
                       t.replicas[(c, x)] == if recorded && x == b then Replica(number, Stored)
                                             else if x == n then s.replicas[(c, x)].(status := Missing)
                                             else s.replicas[(c, x)])
                 && ((c, x) in t.disk <==> (c, x) in s.disk || (arrives && x == b))
                 && ((c, x) in t.disk ==>
                       t.disk[(c, x)] == if arrives && x == b then s.disk[(c, a)] else s.disk[(c, x)])
  {
    hide Marked, Chosen, Source, Taker, Fair;
    var m := Marked(s, n);
    PlanIs(s, env, n, c);
    a, b, number := "", "", 0;
    if PlanFor(m, env, c).Copy? {
      var plan := PlanFor(m, env, c);
      a, b, number := plan.source, plan.target, plan.number;
      PlanSelects(s, env, n, c);
      ChosenHas(s, env, c, n, a, b, number);
      TakerNode(s, c, n, b);
    }
    MarkedNodes(s, n);
    MarkedRows(s, n, c, n);
    var arriving := if c in Affected(s, n) then CopyOf(k, m, env, c) else None;
    CopyArrives(k, m, env, c);
    hide CopyOf, PlanFor, RecoverNode;
    var t := RecoverNode(k, s, env, n);
    forall x
      ensures (c, x) in t.replicas <==>
              (c, x) in s.replicas || (arriving.Some? && env.reply(c, b).Answered? && x == b)
      ensures (c, x) in t.replicas ==>
                t.replicas[(c, x)] == if arriving.Some? && env.reply(c, b).Answered? && x == b
                                      then Replica(number, Stored)
                                      else if x == n then s.replicas[(c, x)].(status := Missing)
                                      else s.replicas[(c, x)]
      ensures (c, x) in t.disk <==> (c, x) in s.disk || (arriving.Some? && x == b)
      ensures (c, x) in t.disk ==>
                t.disk[(c, x)] == if arriving.Some? && x == b then arriving.value else s.disk[(c, x)]
    {
      RowAfterPass(k, env, s, n, c, x);
      CopyAfterPass(k, env, s, n, c, x);
    }
  }

  /** The bytes on their way to the target of a plan. */
  lemma CopyArrives(k: Crypto, m: State, env: Env, c: Id)
    ensures match PlanFor(m, env, c)
            case Copy(a, b, _) =>
              && Target(m, env, c) == b && NumberFor(m, env, c) == PlanFor(m, env, c).number
              && CopyOf(k, m, env, c) == if !env.reply(c, b).Lost? && (c, a) in m.disk && c in m.chunks
                                            && k.hash(m.disk[(c, a)]) == m.chunks[c].sha
                                         then Some(m.disk[(c, a)]) else None
            case _ => CopyOf(k, m, env, c) == None
  {
    hide PlanFor;
  }

  lemma RowAfterPass(k: Crypto, env: Env, s: State, n: Id, c: Id, x: Id)
    requires Fair(env)
    ensures var m, t := Marked(s, n), RecoverNode(k, s, env, n);
            var b := Target(m, env, c);
            var added := c in Affected(s, n) && CopyOf(k, m, env, c).Some? && env.reply(c, b).Answered? && x == b;
            && ((c, x) in t.replicas <==> (c, x) in s.replicas || added)
            && ((c, x) in t.replicas ==>
                  t.replicas[(c, x)] == if added then Replica(NumberFor(m, env, c), Stored)
                                        else if x == n then s.replicas[(c, x)].(status := Missing)
                                        else s.replicas[(c, x)])
  {
    hide PlanFor, Target, CopyOf, NumberFor, Marked;
    MarkedRows(s, n, c, x);
    PassRows(k, Marked(s, n), env, Affected(s, n), c, x);
  }

  lemma CopyAfterPass(k: Crypto, env: Env, s: State, n: Id, c: Id, x: Id)
    ensures var m, t := Marked(s, n), RecoverNode(k, s, env, n);
            var added := c in Affected(s, n) && CopyOf(k, m, env, c).Some? && x == Target(m, env, c);
            && ((c, x) in t.disk <==> (c, x) in s.disk || added)
            && ((c, x) in t.disk ==> t.disk[(c, x)] == if added then CopyOf(k, m, env, c).value else s.disk[(c, x)])
  {
    hide PlanFor, Target, CopyOf, NumberFor, Marked;
    MarkedNodes(s, n);
    PassDisk(k, Marked(s, n), env, Affected(s, n), c, x);
  }

  lemma ChosenHas(s: State, env: Env, c: Id, n: Id, a: Id, b: Id, number: int)
    requires Chosen(s, env, c, n, a, b, number)
    ensures Source(s, c, n, a) && Taker(s, c, n, b)
  {}

  // ---------- a download ----------

  /** x holds a STORED row of c and answers a download with bytes that, decrypted if need be, hash as recorded (right)
      or do not; a copy that cannot be decrypted is neither. */
  ghost predicate Answers(k: Crypto, env: Env, s: State, encrypted: bool, c: Id, x: Id, right: bool) {
    && (c, x) in s.replicas && s.replicas[(c, x)].status.Stored?
    && x in s.nodes && s.nodes[x].status.Online? && env.reply(c, x).Answered? && (c, x) in s.disk && c in s.chunks
    && var plain := if encrypted then k.open(s.disk[(c, x)]) else Some(s.disk[(c, x)]);
       plain.Some? && (k.hash(plain.value) == s.chunks[c].sha <==> right)
  }

  /** Some row of c answers right. */
  ghost predicate Readable(k: Crypto, env: Env, s: State, encrypted: bool, c: Id) {
    exists x :: Answers(k, env, s, encrypted, c, x, true)
  }

  /** x answers wrong, and no row listed ahead of it answers right. */
  ghost predicate Caught(k: Crypto, env: Env, s: State, encrypted: bool, c: Id, x: Id) {
    var ids := env.scan(RowsOfChunk(c), set key | key in s.replicas && key.0 == c :: key.1);
    && Answers(k, env, s, encrypted, c, x, false)
    && forall i, j :: 0 <= i < j < |ids| && ids[j] == x ==> !Answers(k, env, s, encrypted, c, ids[i], true)
  }

  lemma AnswersIs(k: Crypto, env: Env, s: State, encrypted: bool, c: Id, x: Id)
    requires c in s.chunks && (c, x) in s.replicas && s.replicas[(c, x)].status.Stored?
    ensures var got := FetchOf(k, env, s, encrypted, c, s.chunks[c].sha, x);
            && (got.Good? <==> Answers(k, env, s, encrypted, c, x, true))
            && (got.Bad? <==> Answers(k, env, s, encrypted, c, x, false))
  {}

  lemma ReadableIs(k: Crypto, env: Env, s: State, encrypted: bool, c: Id)
    requires Fair(env) && c in s.chunks
    ensures Served(k, env, s, encrypted, c).Some? <==> Readable(k, env, s, encrypted, c)
  {
    hide Fair, Holders, Answers, FetchOf, Served, Downgraded;
    ServedMeans(k, env, s, encrypted, c);
    forall x ensures x in Holders(s, c) && FetchOf(k, env, s, encrypted, c, s.chunks[c].sha, x).Good? <==>
                     Answers(k, env, s, encrypted, c, x, true)
    {
      HoldersHas(s, c, x);
      if x in Holders(s, c) {
        AnswersIs(k, env, s, encrypted, c, x);
      } else {
        AnswersHolds(k, env, s, encrypted, c, x, true);
      }
    }
  }

  lemma AnswersHolds(k: Crypto, env: Env, s: State, encrypted: bool, c: Id, x: Id, right: bool)
    ensures Answers(k, env, s, encrypted, c, x, right) ==>
              (c, x) in s.replicas && s.replicas[(c, x)].status.Stored? && c in s.chunks
  {}

  /** The listing of a chunk's STORED rows keeps the order of the query. */
  lemma {:induction false} StoredListed(replicas: map<Key, Replica>, c: Id, ids: seq<Id>, a: nat)
    returns (i: nat)
    requires Distinct(ids) && (forall x :: x in ids ==> (c, x) in replicas)
    requires a < |ids| && replicas[(c, ids[a])].status.Stored?
    ensures var rows := Filter(RowsAt(replicas, c, ids), (r: Row) => r.status.Stored?);
            && i < |rows| && rows[i].node == ids[a]
            && forall b, j :: 0 <= b < |ids| && 0 <= j < |rows| && rows[j].node == ids[b] ==> (a < b <==> i < j)
  {
    hide RowsAt, Filter;
    var stored := (r: Row) => r.status.Stored?;
    var all := RowsAt(replicas, c, ids);
    forall l | 0 <= l < |ids| ensures |all| == |ids| && all[l].node == ids[l]
      ensures all[l].status == replicas[(c, ids[l])].status
    {
      RowsListed(replicas, c, ids, l);
    }
    var rows := Filter(all, stored);
    FilterIn(all, stored, all[a]);
    i :| 0 <= i < |rows| && rows[i] == all[a];
    FilterDistinct(all, stored);
    forall b, j | 0 <= b < |ids| && 0 <= j < |rows| && rows[j].node == ids[b] ensures a < b <==> i < j {
      FilterIn(all, stored, rows[j]);
      assert rows[j] in all;
      if a < b {
        var i', j' := FilterOrder(all, stored, a, b);
      } else if b < a {
        var j', i' := FilterOrder(all, stored, b, a);
      }
    }
  }

  lemma {:induction false} RowsListed(replicas: map<Key, Replica>, c: Id, ids: seq<Id>, i: nat)
    requires i < |ids| && forall x :: x in ids ==> (c, x) in replicas
    ensures |RowsAt(replicas, c, ids)| == |ids| && RowsAt(replicas, c, ids)[i].node == ids[i]
    ensures RowsAt(replicas, c, ids)[i].status == replicas[(c, ids[i])].status
  {
    if |ids| > 1 {
      RowsListed(replicas, c, ids[1..], if i > 0 then i - 1 else 0);
    }
  }

  ghost function Listing(s: State, env: Env, c: Id): seq<Id> {
    env.scan(RowsOfChunk(c), set key | key in s.replicas && key.0 == c :: key.1)
  }

  lemma ListingHas(s: State, env: Env, c: Id, x: Id)
    requires Fair(env)
    ensures Distinct(Listing(s, env, c)) && (x in Listing(s, env, c) <==> (c, x) in s.replicas)
    ensures StoredRows(s.replicas, env, c)
            == Filter(RowsAt(s.replicas, c, Listing(s, env, c)), (r: Row) => r.status.Stored?)
  {
    var held := set key | key in s.replicas && key.0 == c :: key.1;
    FairScan(env, RowsOfChunk(c), held);
    assert (c, x) in s.replicas ==> (c, x).1 in held;
  }

  lemma RowAnswers(k: Crypto, env: Env, s: State, encrypted: bool, c: Id, i: nat)
    requires Fair(env) && c in s.chunks && i < |StoredRows(s.replicas, env, c)|
    ensures var x := StoredRows(s.replicas, env, c)[i].node;
            var got := FetchOf(k, env, s, encrypted, c, s.chunks[c].sha, x);
            && x in Listing(s, env, c) && (c, x) in s.replicas && s.replicas[(c, x)].status.Stored?
            && (got.Good? <==> Answers(k, env, s, encrypted, c, x, true))
            && (got.Bad? <==> Answers(k, env, s, encrypted, c, x, false))
  {
    hide Fair, Answers, FetchOf, StoredRows, Listing;
    var row := StoredRows(s.replicas, env, c)[i];
    StoredRowsHas(s.replicas, env, c, row);
    ListingHas(s, env, c, row.node);
    AnswersIs(k, env, s, encrypted, c, row.node);
  }

  /** Where a STORED row stands among the STORED rows. */
  lemma StandsAt(s: State, env: Env, c: Id, a: nat) returns (i: nat)
    requires Fair(env) && a < |Listing(s, env, c)|
    requires (c, Listing(s, env, c)[a]) in s.replicas && s.replicas[(c, Listing(s, env, c)[a])].status.Stored?
    ensures var rows, ids := StoredRows(s.replicas, env, c), Listing(s, env, c);
            && i < |rows| && rows[i].node == ids[a]
            && forall b, j :: 0 <= b < |ids| && 0 <= j < |rows| && rows[j].node == ids[b] ==> (a < b <==> i < j)
  {
    hide Fair, StoredRows, Listing, RowsAt, Filter;
    var ids := Listing(s, env, c);
    ListingHas(s, env, c, "");
    forall x | x in ids ensures (c, x) in s.replicas {
      ListingHas(s, env, c, x);
    }
    i := StoredListed(s.replicas, c, ids, a);
  }

  /** A chunk's own downgrades. */
  lemma CaughtIs(k: Crypto, env: Env, s: State, encrypted: bool, c: Id, x: Id)
    requires Fair(env) && c in s.chunks
    ensures x in Downgraded(k, env, s, encrypted, c) <==> Caught(k, env, s, encrypted, c, x)
  {
    hide Downgraded, Caught;
    if x in Downgraded(k, env, s, encrypted, c) {
      DowngradedIsCaught(k, env, s, encrypted, c, x);
    }
    if Caught(k, env, s, encrypted, c, x) {
      CaughtIsDowngraded(k, env, s, encrypted, c, x);
    }
  }

  lemma DowngradedIsCaught(k: Crypto, env: Env, s: State, encrypted: bool, c: Id, x: Id)
    requires Fair(env) && c in s.chunks && x in Downgraded(k, env, s, encrypted, c)
    ensures Caught(k, env, s, encrypted, c, x)
  {
    hide Fair, Answers, FetchOf, StoredRows;
    var ids, rows, sha := Listing(s, env, c), StoredRows(s.replicas, env, c), s.chunks[c].sha;
    var g := FirstGood(k, env, s, encrypted, c, sha, rows);
    var l :| 0 <= l < g && rows[l].node == x && FetchOf(k, env, s, encrypted, c, sha, rows[l].node).Bad?;
    RowAnswers(k, env, s, encrypted, c, l);
    forall i, j | 0 <= i < j < |ids| && ids[j] == x ensures !Answers(k, env, s, encrypted, c, ids[i], true) {
      AnswersHolds(k, env, s, encrypted, c, ids[i], true);
      if Answers(k, env, s, encrypted, c, ids[i], true) {
        var h := StandsAt(s, env, c, i);
        RowAnswers(k, env, s, encrypted, c, h);
      }
    }
  }

  lemma CaughtIsDowngraded(k: Crypto, env: Env, s: State, encrypted: bool, c: Id, x: Id)
    requires Fair(env) && c in s.chunks && Caught(k, env, s, encrypted, c, x)
    ensures x in Downgraded(k, env, s, encrypted, c)
  {
    hide Fair, Answers, FetchOf, StoredRows;
    var ids, rows, sha := Listing(s, env, c), StoredRows(s.replicas, env, c), s.chunks[c].sha;
    var g := FirstGood(k, env, s, encrypted, c, sha, rows);
    AnswersHolds(k, env, s, encrypted, c, x, false);
    ListingHas(s, env, c, x);
    var j :| 0 <= j < |ids| && ids[j] == x;
    var l := StandsAt(s, env, c, j);
    RowAnswers(k, env, s, encrypted, c, l);
    if g < |rows| {
      RowAnswers(k, env, s, encrypted, c, g);
      var i :| 0 <= i < |ids| && ids[i] == rows[g].node;
      OneAnswer(k, env, s, encrypted, c, x);
      assert j < i <==> l < g;
      assert !(i < j);
    }
  }

  lemma OneAnswer(k: Crypto, env: Env, s: State, encrypted: bool, c: Id, x: Id)
    ensures !(Answers(k, env, s, encrypted, c, x, true) && Answers(k, env, s, encrypted, c, x, false))
  {}

  /** How far a download gets: to the chunks all of whose predecessors are served. */
  lemma {:induction false} ReachMeans(k: Crypto, env: Env, s: State, encrypted: bool, cs: seq<Id>, j: nat)
    requires j < |cs| && forall c :: c in cs ==> c in s.chunks
    ensures j < Reach(k, env, s, encrypted, cs) <==>
            forall i :: 0 <= i < j ==> Served(k, env, s, encrypted, cs[i]).Some?
  {
    hide Served;
    if j > 0 && Served(k, env, s, encrypted, cs[0]).Some? {
      ReachMeans(k, env, s, encrypted, cs[1..], j - 1);
      assert forall i :: 0 < i < j ==> cs[i] == cs[1..][i - 1];
      forall i | 0 <= i < j - 1 && (forall i :: 0 <= i < j ==> Served(k, env, s, encrypted, cs[i]).Some?)
        ensures Served(k, env, s, encrypted, cs[1..][i]).Some?
      {
        assert cs[1..][i] == cs[i + 1];
      }
    }
  }

  /** One download, row by row: it goes through the file's chunks in order up to the first that no row answers right,
      and of each chunk sets to CORRUPTED exactly the STORED rows on ONLINE nodes that answer with other bytes and stand
      ahead of every row that answers right. Everything else stays. */
  lemma DownloadOutcome(k: Crypto, env: Env, s: State, f: Id, c: Id, x: Id)
    requires Fair(env) && f in s.files
    ensures var t, enc, cs := Download(k, env, s, f).0, s.files[f].encrypted, ChunkList(s.chunks, env, f);
            var caught := Caught(k, env, s, enc, c, x)
                          && exists j :: 0 <= j < |cs| && cs[j] == c
                                         && forall i :: 0 <= i < j ==> Readable(k, env, s, enc, cs[i]);
            && t == s.(replicas := t.replicas)
            && ((c, x) in t.replicas <==> (c, x) in s.replicas)
            && ((c, x) in s.replicas ==>
                  t.replicas[(c, x)] == if caught then s.replicas[(c, x)].(status := ReplicaStatus.Corrupted)
                                        else s.replicas[(c, x)])
  {
    hide Fair, Download, Caught, Readable, ChunkList, Reach, Served, Downgraded;
    var enc, cs := s.files[f].encrypted, ChunkList(s.chunks, env, f);
    DownloadRows(k, env, s, f, c, x);
    forall j | 0 <= j < |cs|
      ensures cs[j] in cs
              && (j < Reach(k, env, s, enc, cs) <==> forall i :: 0 <= i < j ==> Readable(k, env, s, enc, cs[i]))
    {
      assert cs[j] in cs;
      ReachMeans(k, env, s, enc, cs, j);
      forall i | 0 <= i < j ensures Served(k, env, s, enc, cs[i]).Some? <==> Readable(k, env, s, enc, cs[i]) {
        assert cs[i] in cs;
        ReadableIs(k, env, s, enc, cs[i]);
      }
    }
    if c in s.chunks {
      CaughtIs(k, env, s, enc, c, x);
    } else {
      assert c !in cs;
    }
    var r := Reach(k, env, s, enc, cs);
    assert c in cs[..r] <==> exists j :: 0 <= j < |cs| && j < r && cs[j] == c;
  }

  // ---------- registration, heartbeat, delete ----------

  /** A registration puts the node's row in, ONLINE, and of the rows on it sets to STORED exactly the MISSING ones that
      have a record and that the node vouches for over the recorded hash. Numbers, other rows and disks stay. */
  lemma RegisterOutcome(k: Crypto, env: Env, s: State, n: Id, node: Node, c: Id, x: Id)
    ensures var t := Register(k, s, env, n, node);
            && t == s.(nodes := t.nodes, replicas := t.replicas)
            && t.nodes == s.nodes[n := Node(node.total, node.avail, Online, node.heartbeat)]
            && ((c, x) in t.replicas <==> (c, x) in s.replicas)
            && ((c, x) in s.replicas ==>
                  var back := x == n && s.replicas[(c, x)].status.Missing? && c in s.chunks && env.verify(c, n)
                              && (c, n) in s.disk && k.hash(s.disk[(c, n)]) == s.chunks[c].sha;
                  t.replicas[(c, x)] == Replica(s.replicas[(c, x)].number,
                                                if back then Stored else s.replicas[(c, x)].status))
  {}

  /** A heartbeat of a known node leaves a row with the reported figures; of an unknown one, nothing. */
  lemma HeartbeatOutcome(s: State, n: Id, avail: int, total: int, status: NodeStatus, now: int)
    ensures var t := HeartbeatAs(s, n, avail, total, status, now);
            && t == s.(nodes := t.nodes) && t.nodes.Keys == s.nodes.Keys
            && (n in s.nodes ==> t.nodes[n].avail == avail && t.nodes[n].total == total
                                 && t.nodes[n].status == status && t.nodes[n].heartbeat == now)
            && forall x :: x in s.nodes && x != n ==> t.nodes[x] == s.nodes[x]
    ensures Heartbeat(s, n, avail, total, now) == HeartbeatAs(s, n, avail, total, Online, now)
  {}

  /** Deleting a known file drops its row and, of the disk copies, exactly those of its chunks that have a row, of
      whatever status, on an ONLINE node that the call reaches. All other tables stay, rows of the chunks included. */
  lemma DeleteOutcome(env: Env, s: State, f: Id, c: Id, x: Id)
    ensures var t := Delete(env, s, f);
            && t == s.(files := t.files, disk := t.disk) && t.files == s.files - {f}
            && ((c, x) in t.disk <==>
                  (c, x) in s.disk
                  && !(f in s.files && c in s.chunks && s.chunks[c].fileId == f && (c, x) in s.replicas
                       && x in s.nodes && s.nodes[x].status.Online? && !env.reply(c, x).Lost?))
            && ((c, x) in t.disk ==> t.disk[(c, x)] == s.disk[(c, x)])
  {}

  // ---------- an upload ----------

  /** One replica. A copy the node vouches for is not sent again, unless encrypted; otherwise the payload is on disk
      unless the call is lost or the node finds the hash wrong, and the row is there once the answer is. */
  lemma AttemptOutcome(k: Crypto, env: Env, encrypted: bool, row: ChunkRow, payload: Bytes, s: State, n: Id,
      number: int)
    ensures var (t, ok) := Attempt(k, env, encrypted, row, payload, s, n, number);
            var vouched := !encrypted && env.verify(row.id, n) && (row.id, n) in s.disk
                           && k.hash(s.disk[(row.id, n)]) == row.chunk.sha;
            var stored := !vouched && !env.reply(row.id, n).Lost? && (encrypted || k.hash(payload) == row.chunk.sha);
            && t == s.(replicas := t.replicas, disk := t.disk)
            && t.disk == (if stored then s.disk[(row.id, n) := payload] else s.disk)
            && (ok <==> vouched || (stored && env.reply(row.id, n).Answered?))
            && t.replicas == if ok then s.replicas[(row.id, n) := Replica(number, Stored)] else s.replicas
  {}

  /** The tables after an upload: its file row and the rows of its pieces, lengths and hashes included; everything of
      other chunks stays as it was. */
  lemma UploadTablesOutcome(k: Crypto, env: Env, job: Job, s: State, c: Id)
    requires Fair(env) && RoundTrips(k) && Untouched(s, JobRows(k, job))
    ensures var (t, ok) := Upload(k, env, job, s);
            var rows := JobRows(k, job);
            && Tabulates(k, job.data, job.fileId, job.chunkSize, rows)
            && t.nodes == s.nodes
            && t.files == s.files[job.fileId := File(|job.data|, k.hash(if job.chunkSize == 0 then [] else job.data),
                                                     if ok then FileStatus.Active else FileStatus.Corrupted,
                                                     job.chunkSize, job.rf, job.encrypted)]
            && (forall i :: 0 <= i < |rows| ==> rows[i].id in t.chunks && t.chunks[rows[i].id] == rows[i].chunk)
            && ((forall i :: 0 <= i < |rows| ==> rows[i].id != c) ==>
                  && (c in t.chunks <==> c in s.chunks) && (c in s.chunks ==> t.chunks[c] == s.chunks[c])
                  && SameChunk(s, t, c))
  {
    hide Fair, RoundTrips, Untouched, Upload, AddChunks, Pieces, Models, Concat, SameChunk, Partly, Fully, OnlineRows,
         Tabulates, DistinctChunks, Describes;
    ModelsTabulate(k, job.data, job.fileId, job.chunkSize);
    DigestIs(job.data, job.chunkSize);
    UploadPlaces(k, env, job, s);
    JobRowsDescribe(k, job);
    AddChunksHas(s.chunks, JobRows(k, job));
  }

  /** The nodes a chunk of this size could go to. */
  ghost function Fit(s: State, size: nat): set<Id> {
    set x | x in s.nodes && s.nodes[x].status.Online? && s.nodes[x].avail >= size
  }

  ghost function Holding(t: State, c: Id): set<Id> {
    set key | key in t.replicas && key.0 == c :: key.1
  }

  /** The replicas of piece i after an upload, successful or not: on ONLINE nodes with room for the piece, STORED,
      numbered from one without gaps, over legible copies; after a success on as many nodes as asked for, none left out
      ranking above one taken, and numbered by rank unless the request took every node there was. */
  lemma UploadRowsOutcome(k: Crypto, env: Env, job: Job, s: State, i: nat)
    requires Fair(env) && RoundTrips(k) && Untouched(s, JobRows(k, job)) && i < |JobRows(k, job)|
    ensures var (t, ok) := Upload(k, env, job, s);
            var c, sha, fit := JobRows(k, job)[i].id, JobRows(k, job)[i].chunk.sha,
                Fit(s, JobRows(k, job)[i].chunk.size);
            var held := Holding(t, c);
            && held <= fit
            && (forall x :: x in held ==>
                  && (c, x) in t.replicas
                  && t.replicas[(c, x)].status.Stored? && 1 <= t.replicas[(c, x)].number <= |held|
                  && (c, x) in t.disk && Legible(k, job.encrypted, sha, t.disk[(c, x)]))
            && (forall x, y :: x in held && y in held && x != y ==>
                  t.replicas[(c, x)].number != t.replicas[(c, y)].number)
            && (job.rf <= |fit| ==> forall x, y ::
                  x in held && y in held && t.replicas[(c, x)].number < t.replicas[(c, y)].number ==>
                    x in s.nodes && y in s.nodes && Ranks(s.nodes[x], s.nodes[y]))
            && (ok ==>
                  && |held| == Asked(job.rf, |fit|)
                  && forall x, y :: x in held && y in fit && y !in held ==>
                       x in s.nodes && y in s.nodes && Ranks(s.nodes[x], s.nodes[y]))
  {
    hide Fair, RoundTrips, Untouched, Upload, JobRows, OnlineRows, AddChunks, SameChunk, TargetsOf, Placed, Legible,
         Ranks, Fit, Holding, FileRow, Select;
    var (t, ok) := Upload(k, env, job, s);
    var row, active := JobRows(k, job)[i], OnlineRows(s.nodes, env);
    UploadPlaces(k, env, job, s);
    assert Partly(k, job, active, t, row) && (ok ==> Fully(k, job, active, t, row));
    var targets := TargetsOf(job, active, row);
    var m: nat :| Placed(k, job.encrypted, t, row.id, row.chunk.sha, targets, m) && (ok ==> m == |targets|);
    TargetsAre(s, env, job, row);
    PlacedOutcome(k, s, t, job, row, targets, m);
  }

  /** As many of n nodes as a request for rf replicas takes. */
  function Asked(rf: int, n: nat): nat {
    if rf >= n then n else if rf >= 0 then rf else if n + rf >= 0 then n + rf else 0
  }

  /** targets are the best of the nodes that fit. */
  ghost predicate Best(s: State, rf: int, size: nat, targets: seq<NodeRow>) {
    var fit := Fit(s, size);
    && DistinctIds(targets)
    && (forall j :: 0 <= j < |targets| ==> targets[j].id in fit && targets[j].node == s.nodes[targets[j].id])
    && |targets| == Asked(rf, |fit|)
    && (rf <= |fit| ==> forall i, j :: 0 <= i < j < |targets| ==> Ranks(targets[i].node, targets[j].node))
    && forall j, y :: 0 <= j < |targets| && y in fit && (forall l :: 0 <= l < |targets| ==> targets[l].id != y) ==>
         Ranks(targets[j].node, s.nodes[y])
  }

  lemma {:induction false} RowsSize(nodes: map<Id, Node>, xs: set<Id>)
    requires xs <= nodes.Keys
    ensures |set x | x in xs :: NodeRow(x, nodes[x])| == |xs|
  {
    var rows := set x | x in xs :: NodeRow(x, nodes[x]);
    if xs == {} {
      assert rows == {};
    } else {
      var x :| x in xs;
      var rest := set y | y in xs - {x} :: NodeRow(y, nodes[y]);
      RowsSize(nodes, xs - {x});
      assert rows == rest + {NodeRow(x, nodes[x])};
      assert NodeRow(x, nodes[x]) !in rest;
    }
  }

  lemma TargetsAre(s: State, env: Env, job: Job, row: ChunkRow)
    requires Fair(env)
    ensures Best(s, job.rf, row.chunk.size, TargetsOf(job, OnlineRows(s.nodes, env), row))
  {
    hide Fair, OnlineRows, Select, Ranks;
    var size, active, none: set<Id> := row.chunk.size, OnlineRows(s.nodes, env), {};
    var fit := Fit(s, size);
    var rows := set r | r in active && r.node.status.Online? && r.id !in none && r.node.avail >= size;
    forall r: NodeRow ensures r in active <==> r.id in s.nodes && s.nodes[r.id] == r.node && r.node.status.Online? {
      NodeRowsHas(s.nodes, env, r);
    }
    assert rows == set x | x in fit :: NodeRow(x, s.nodes[x]);
    RowsSize(s.nodes, fit);
    OnlineRowsDistinct(s.nodes, env);
    SelectIs(size, active, job.rf, none);
    var targets := TargetsOf(job, active, row);
    if Select(size, active, job.rf, none).Some? {
      forall j, y | 0 <= j < |targets| && y in fit && (forall l :: 0 <= l < |targets| ==> targets[l].id != y)
        ensures Ranks(targets[j].node, s.nodes[y])
      {
        assert NodeRow(y, s.nodes[y]) in rows && NodeRow(y, s.nodes[y]) !in targets;
        assert targets[j] in targets;
      }
      forall j | 0 <= j < |targets| ensures targets[j] in rows {
        assert targets[j] in targets;
      }
    }
  }

  lemma HoldingIs(k: Crypto, encrypted: bool, t: State, c: Id, sha: Digest, targets: seq<NodeRow>, m: nat)
    requires Placed(k, encrypted, t, c, sha, targets, m) && DistinctIds(targets)
    ensures |Holding(t, c)| == m
    ensures forall j :: 0 <= j < m ==>
              targets[j].id in Holding(t, c) && t.replicas[(c, targets[j].id)] == Replica(j + 1, Stored)
  {
    hide Legible, Ids;
    var ids := seq(m, j requires 0 <= j < m => targets[j].id);
    DistinctSize(ids);
    forall x ensures x in Holding(t, c) <==> x in Elements(ids) {
      assert (c, x) in t.replicas ==> (c, x).1 in Holding(t, c);
      if x in Holding(t, c) {
        var j := PlacedRow(k, encrypted, t, c, sha, targets, m, x);
        assert ids[j] == x;
      }
    }
    assert Holding(t, c) == Elements(ids);
    forall j | 0 <= j < m ensures targets[j].id in Holding(t, c) {
      assert ids[j] == targets[j].id;
    }
  }

  /** What the prefix of the best nodes that got the chunk amounts to. */
  lemma PlacedOutcome(k: Crypto, s: State, t: State, job: Job, row: ChunkRow, targets: seq<NodeRow>, m: nat)
    requires Placed(k, job.encrypted, t, row.id, row.chunk.sha, targets, m)
    requires Best(s, job.rf, row.chunk.size, targets)
    ensures var c, fit, held := row.id, Fit(s, row.chunk.size), Holding(t, row.id);
            && held <= fit && |held| == m
            && (forall x :: x in held ==>
                  && (c, x) in t.replicas && x in s.nodes
                  && t.replicas[(c, x)].status.Stored? && 1 <= t.replicas[(c, x)].number <= |held|
                  && (c, x) in t.disk && Legible(k, job.encrypted, row.chunk.sha, t.disk[(c, x)]))
            && (forall x, y :: x in held && y in held && x != y ==>
                  t.replicas[(c, x)].number != t.replicas[(c, y)].number)
            && (job.rf <= |fit| ==> forall x, y ::
                  x in held && y in held && t.replicas[(c, x)].number < t.replicas[(c, y)].number ==>
                    x in s.nodes && y in s.nodes && Ranks(s.nodes[x], s.nodes[y]))
            && (m == |targets| ==>
                  forall x, y :: x in held && y in fit && y !in held ==>
                    x in s.nodes && y in s.nodes && Ranks(s.nodes[x], s.nodes[y]))
  {
    hide Legible, Ranks, Placed, Fit, Best, Holding, Positions;
    PlacedSize(k, job.encrypted, t, row.id, row.chunk.sha, targets, m);
    BestDiffer(s, job.rf, row.chunk.size, targets);
    HeldPositions(k, job.encrypted, t, row.id, row.chunk.sha, targets, m);
    PositionsMean(s, t, job.rf, row, targets, m);
  }

  lemma BestDiffer(s: State, rf: int, size: nat, targets: seq<NodeRow>)
    requires Best(s, rf, size, targets)
    ensures DistinctIds(targets)
  {}

  /** The rows of c are those of the first m targets, each under its position. */
  ghost predicate Positions(t: State, c: Id, targets: seq<NodeRow>, m: nat) {
    && m <= |targets| && |Holding(t, c)| == m
    && (forall j :: 0 <= j < m ==> targets[j].id in Holding(t, c))
    && forall x :: x in Holding(t, c) ==> Stands(t, c, targets, m, x)
  }

  ghost predicate Stands(t: State, c: Id, targets: seq<NodeRow>, m: nat, x: Id)
    requires m <= |targets|
  {
    && (c, x) in t.replicas && t.replicas[(c, x)].status.Stored? && 1 <= t.replicas[(c, x)].number <= m
    && targets[t.replicas[(c, x)].number - 1].id == x
  }

  lemma HeldPositions(k: Crypto, encrypted: bool, t: State, c: Id, sha: Digest, targets: seq<NodeRow>, m: nat)
    requires Placed(k, encrypted, t, c, sha, targets, m) && DistinctIds(targets) && m <= |targets|
    ensures Positions(t, c, targets, m)
    ensures forall x :: x in Holding(t, c) ==> (c, x) in t.disk && Legible(k, encrypted, sha, t.disk[(c, x)])
  {
    hide Legible, Placed, DistinctIds, Holding, Stands;
    HoldingIs(k, encrypted, t, c, sha, targets, m);
    forall x | x in Holding(t, c)
      ensures Stands(t, c, targets, m, x)
      ensures (c, x) in t.disk && Legible(k, encrypted, sha, t.disk[(c, x)])
    {
      HeldPosition(k, encrypted, t, c, sha, targets, m, x);
    }
  }

  lemma HeldPosition(k: Crypto, encrypted: bool, t: State, c: Id, sha: Digest, targets: seq<NodeRow>, m: nat, x: Id)
    requires Placed(k, encrypted, t, c, sha, targets, m) && m <= |targets| && x in Holding(t, c)
    ensures Stands(t, c, targets, m, x)
    ensures (c, x) in t.disk && Legible(k, encrypted, sha, t.disk[(c, x)])
  {
    hide Legible, Placed;
    var j := PlacedRow(k, encrypted, t, c, sha, targets, m, x);
  }

  lemma PositionsMean(s: State, t: State, rf: int, row: ChunkRow, targets: seq<NodeRow>, m: nat)
    requires Positions(t, row.id, targets, m) && Best(s, rf, row.chunk.size, targets)
    ensures var c, fit, held := row.id, Fit(s, row.chunk.size), Holding(t, row.id);
            && held <= fit && |held| == m && fit <= s.nodes.Keys
            && (forall x :: x in held ==>
                  (c, x) in t.replicas && t.replicas[(c, x)].status.Stored? && 1 <= t.replicas[(c, x)].number <= |held|)
            && (forall x, y :: x in held && y in held && x != y ==>
                  t.replicas[(c, x)].number != t.replicas[(c, y)].number)
            && (rf <= |fit| ==> forall x, y ::
                  x in held && y in held && t.replicas[(c, x)].number < t.replicas[(c, y)].number ==>
                    x in s.nodes && y in s.nodes && Ranks(s.nodes[x], s.nodes[y]))
            && (m == |targets| ==>
                  forall x, y :: x in held && y in fit && y !in held ==>
                    x in s.nodes && y in s.nodes && Ranks(s.nodes[x], s.nodes[y]))
  {
    hide Ranks, Fit, Holding, DistinctIds;
    FitIsKnown(s, row.chunk.size);
  }

  lemma PlacedSize(k: Crypto, encrypted: bool, t: State, c: Id, sha: Digest, targets: seq<NodeRow>, m: nat)
    requires Placed(k, encrypted, t, c, sha, targets, m)
    ensures m <= |targets|
  {}

  lemma FitIsKnown(s: State, size: nat)
    ensures Fit(s, size) <= s.nodes.Keys
  {}

  /** The chunk loop comes to an end at the first chunk that fails. */
  lemma {:induction false} ChunksStop(k: Crypto, env: Env, job: Job, active: seq<NodeRow>, rows: seq<ChunkRow>,
                                      blobs: seq<Bytes>, s: State) returns (i: nat)
    requires DistinctIds(active) && RoundTrips(k) && DistinctChunks(rows) && Describes(k, rows, blobs)
    requires Untouched(s, rows)
    ensures var (t, ok) := UploadChunks(k, env, job, active, rows, blobs, s);
            && i <= |rows| && (ok <==> i == |rows|)
            && (forall j :: 0 <= j < i ==> Fully(k, job, active, t, rows[j]))
            && forall j :: i < j < |rows| ==> SameChunk(s, t, rows[j].id)
    decreases |rows|
  {
    hide UploadTargets, SameChunk, TargetsOf, Fully, Partly, DistinctIds, Payload, Select, RoundTrips;
    i := 0;
    forall j | 0 <= j < |rows| ensures SameChunk(s, s, rows[j].id) { SameChunkRefl(s, rows[j].id); }
    if rows != [] && Select(rows[0].chunk.size, active, job.rf, {}).Some? {
      FirstChunkPlaces(k, env, job, active, rows[0], blobs[0], s);
      var (s1, ok) := UploadTargets(k, env, job.encrypted, rows[0], Payload(k, env, job, rows[0], blobs[0]), s,
                                    TargetsOf(job, active, rows[0]), 1);
      forall j | 0 < j < |rows| ensures SameChunk(s, s1, rows[j].id) {
        assert rows[0].id != rows[j].id;
      }
      if ok {
        var rest := rows[1..];
        UntouchedLater(s, s1, rows);
        i := ChunksStop(k, env, job, active, rest, blobs[1..], s1);
        var t := UploadChunks(k, env, job, active, rest, blobs[1..], s1).0;
        UploadChunksPlaces(k, env, job, active, rest, blobs[1..], s1);
        PartlySame(k, job, active, s1, t, rows[0]);
        forall j | 0 < j <= i ensures Fully(k, job, active, t, rows[j]) {
          assert rows[j] == rest[j - 1];
        }
        forall j | i + 1 < j < |rows| ensures SameChunk(s, t, rows[j].id) {
          assert rows[j] == rest[j - 1];
          SameChunkTrans(s, s1, t, rows[j].id);
        }
        i := i + 1;
      }
    }
  }

  /** An upload works through its pieces in order and stops at the first that fails: the ones before it are on as many
      nodes as asked for, the ones after it on none, their copies on disk untouched. */
  lemma UploadStops(k: Crypto, env: Env, job: Job, s: State) returns (i: nat)
    requires Fair(env) && RoundTrips(k) && Untouched(s, JobRows(k, job))
    ensures var (t, ok) := Upload(k, env, job, s);
            var rows := JobRows(k, job);
            && i <= |rows| && (ok <==> i == |rows| && rows != [])
            && (forall j :: 0 <= j < i ==>
                  |Holding(t, rows[j].id)| == Asked(job.rf, |Fit(s, rows[j].chunk.size)|))
            && forall j :: i < j < |rows| ==> SameChunk(s, t, rows[j].id)
  {
    hide Fair, RoundTrips, JobRows, OnlineRows, AddChunks, SameChunk, TargetsOf, Holding, Fit, Select, UploadChunks,
         DistinctIds, DistinctChunks, Pieces, Fully, Asked, Untouched;
    var rows, active, created := JobRows(k, job), OnlineRows(s.nodes, env), Created(k, job, s);
    var t := Upload(k, env, job, s).0;
    JobRowsDescribe(k, job);
    OnlineRowsDistinct(s.nodes, env);
    CreatedUntouched(k, job, s, rows);
    i := 0;
    var sent := created;
    forall j | 0 <= j < |rows| ensures SameChunk(created, created, rows[j].id) { SameChunkRefl(created, rows[j].id); }
    if active != [] {
      i := ChunksStop(k, env, job, active, rows, Pieces(job.data, job.chunkSize), created);
      sent := UploadChunks(k, env, job, active, rows, Pieces(job.data, job.chunkSize), created).0;
    }
    forall j | i < j < |rows| ensures SameChunk(s, t, rows[j].id) {
      SameChunkFiles(sent, t, rows[j].id);
      SameChunkTrans(s, created, sent, rows[j].id);
      SameChunkTrans(s, sent, t, rows[j].id);
    }
    forall j | 0 <= j < i ensures |Holding(t, rows[j].id)| == Asked(job.rf, |Fit(s, rows[j].chunk.size)|) {
      SameChunkFiles(sent, t, rows[j].id);
      PartlySame(k, job, active, sent, t, rows[j]);
      FullyHeld(k, env, job, s, t, rows[j]);
    }
  }

  lemma FullyHeld(k: Crypto, env: Env, job: Job, s: State, t: State, row: ChunkRow)
    requires Fair(env) && Fully(k, job, OnlineRows(s.nodes, env), t, row)
    ensures |Holding(t, row.id)| == Asked(job.rf, |Fit(s, row.chunk.size)|)
  {
    hide Fair, OnlineRows, TargetsOf, Holding, Fit, Select, Placed, Asked, Ranks;
    TargetsAre(s, env, job, row);
    var targets := TargetsOf(job, OnlineRows(s.nodes, env), row);
    HoldingIs(k, job.encrypted, t, row.id, row.chunk.sha, targets, |targets|);
  }
}
