/** The heartbeat monitor's sweep: one recovery per overdue node of a snapshot taken at the start. */
module Sweep {
  import opened Types
  import opened Recovery
  import opened Transfers
  import opened Downloads
  import opened Runs
  import opened Outcomes

  predicate Overdue(row: NodeRow, now: int, timeout: int) {
    row.node.status.Online? && now - row.node.heartbeat > timeout
  }

  /** check_nodes_now over the snapshot; envs gives each recovery its own environment. */
  ghost function SweepFrom(k: Crypto, s: State, snapshot: seq<NodeRow>, now: int, timeout: int, envs: Id -> Env): State
    decreases |snapshot|
  {
    if snapshot == [] then s
    else if Overdue(snapshot[0], now, timeout)
    then SweepFrom(k, RecoverNode(k, s, envs(snapshot[0].id), snapshot[0].id), snapshot[1..], now, timeout, envs)
    else SweepFrom(k, s, snapshot[1..], now, timeout, envs)
  }

  /** The recoveries a sweep performs, as steps of a run. */
  function SweepSteps(snapshot: seq<NodeRow>, now: int, timeout: int, envs: Id -> Env): seq<Step> {
    if snapshot == [] then []
    else (if Overdue(snapshot[0], now, timeout) then [DoRecover(envs(snapshot[0].id), snapshot[0].id)] else [])
         + SweepSteps(snapshot[1..], now, timeout, envs)
  }

  ghost predicate AllFair(envs: Id -> Env) {
    forall n :: Fair(envs(n))
  }

  lemma EachFair(envs: Id -> Env, n: Id)
    requires AllFair(envs)
    ensures Fair(envs(n))
  {}

  /** A sweep is a run of recoveries, so everything proved of runs holds of sweeps. */
  lemma {:induction false} SweepIsRun(k: Crypto, w: World, snapshot: seq<NodeRow>, now: int, timeout: int,
                                      envs: Id -> Env)
    requires AllFair(envs)
    ensures Legal(k, w, SweepSteps(snapshot, now, timeout, envs))
    ensures NoTampering(SweepSteps(snapshot, now, timeout, envs))
    ensures Exec(k, w, SweepSteps(snapshot, now, timeout, envs))
            == w.(s := SweepFrom(k, w.s, snapshot, now, timeout, envs))
    decreases |snapshot|
  {
    hide RecoverNode, Upload, Register, Download, Delete, Heartbeat;
    if snapshot != [] {
      var rest := SweepSteps(snapshot[1..], now, timeout, envs);
      if Overdue(snapshot[0], now, timeout) {
        var step := DoRecover(envs(snapshot[0].id), snapshot[0].id);
        SweepIsRun(k, Apply(k, w, step), snapshot[1..], now, timeout, envs);
        assert SweepSteps(snapshot, now, timeout, envs) == [step] + rest;
        assert ([step] + rest)[1..] == rest;
      } else {
        SweepIsRun(k, w, snapshot[1..], now, timeout, envs);
        assert SweepSteps(snapshot, now, timeout, envs) == rest;
      }
    }
  }

  /** Out of service: OFFLINE and every row MISSING. */
  ghost predicate Cleared(s: State, n: Id) {
    && n in s.nodes && s.nodes[n].status.Offline?
    && forall c :: (c, n) in s.replicas ==> s.replicas[(c, n)].status.Missing?
  }

  /** A cleared node stays cleared when another node is recovered: it is not a target. */
  lemma RecoveryKeepsCleared(k: Crypto, s: State, env: Env, n: Id, x: Id)
    requires Fair(env) && Cleared(s, x)
    ensures Cleared(RecoverNode(k, s, env, n), x)
  {
    hide RecoverNode, Fair;
    RecoveryClearsNode(k, s, env, n);
    var t := RecoverNode(k, s, env, n);
    forall c | (c, x) in t.replicas ensures t.replicas[(c, x)].status.Missing? {
      OfflineKeepsRows(k, s, env, n, c, x);
    }
  }

  /** A pass puts no row on a node that is not ONLINE. */
  lemma OfflineKeepsRows(k: Crypto, s: State, env: Env, n: Id, c: Id, x: Id)
    requires Fair(env) && x in s.nodes && !s.nodes[x].status.Online?
    ensures var t := RecoverNode(k, s, env, n);
            && ((c, x) in t.replicas <==> (c, x) in s.replicas)
            && ((c, x) in t.replicas ==>
                  t.replicas[(c, x)].status == if x == n then Missing else s.replicas[(c, x)].status)
  {
    hide RecoverNode, Fair, Chosen, Source, FirstSource;
    var a, b, number := RecoveryOutcome(k, env, s, n, c);
    if Chosen(s, env, c, n, a, b, number) {
      ChosenHas(s, env, c, n, a, b, number);
    }
  }

  lemma RecoveryClears(k: Crypto, s: State, env: Env, n: Id)
    requires Fair(env) && n in s.nodes
    ensures Cleared(RecoverNode(k, s, env, n), n)
    ensures RecoverNode(k, s, env, n).nodes == s.nodes[n := s.nodes[n].(status := Offline)]
  {
    hide RecoverNode, Fair;
    RecoveryClearsNode(k, s, env, n);
  }

  ghost predicate DueIn(snapshot: seq<NodeRow>, now: int, timeout: int, n: Id) {
    exists i :: 0 <= i < |snapshot| && snapshot[i].id == n && Overdue(snapshot[i], now, timeout)
  }

  /** Every overdue node of the snapshot ends cleared, whatever earlier recoveries put on it; no other node changes. */
  lemma {:induction false} SweepClears(k: Crypto, s: State, snapshot: seq<NodeRow>, now: int, timeout: int,
                                       envs: Id -> Env, n: Id)
    requires AllFair(envs) && n in s.nodes && forall i :: 0 <= i < |snapshot| ==> snapshot[i].id in s.nodes
    ensures var t := SweepFrom(k, s, snapshot, now, timeout, envs);
            && n in t.nodes
            && (DueIn(snapshot, now, timeout, n) || Cleared(s, n) ==> Cleared(t, n))
            && t.nodes[n] == if DueIn(snapshot, now, timeout, n) then s.nodes[n].(status := Offline) else s.nodes[n]
    decreases |snapshot|
  {
    hide RecoverNode, Cleared, Overdue, DueIn;
    if snapshot == [] {
      assert !DueIn(snapshot, now, timeout, n) by { NoneDue(now, timeout, n); }
    } else {
      var first, rest := snapshot[0], snapshot[1..];
      DueSplits(snapshot, now, timeout, n);
      assert forall i :: 0 <= i < |rest| ==> rest[i] == snapshot[i + 1];
      if Overdue(first, now, timeout) {
        RecoveryClears(k, s, envs(first.id), first.id);
        if Cleared(s, n) {
          RecoveryKeepsCleared(k, s, envs(first.id), first.id, n);
        }
        SweepClears(k, RecoverNode(k, s, envs(first.id), first.id), rest, now, timeout, envs, n);
      } else {
        SweepClears(k, s, rest, now, timeout, envs, n);
      }
    }
  }

  lemma NoneDue(now: int, timeout: int, n: Id)
    ensures !DueIn([], now, timeout, n)
  {}

  lemma DueSplits(snapshot: seq<NodeRow>, now: int, timeout: int, n: Id)
    requires snapshot != []
    ensures DueIn(snapshot, now, timeout, n) <==>
            (snapshot[0].id == n && Overdue(snapshot[0], now, timeout)) || DueIn(snapshot[1..], now, timeout, n)
  {
    hide Overdue;
    var rest := snapshot[1..];
    if DueIn(rest, now, timeout, n) {
      var i :| 0 <= i < |rest| && rest[i].id == n && Overdue(rest[i], now, timeout);
      assert snapshot[i + 1] == rest[i];
    }
    if DueIn(snapshot, now, timeout, n) {
      var i :| 0 <= i < |snapshot| && snapshot[i].id == n && Overdue(snapshot[i], now, timeout);
      assert i > 0 ==> rest[i - 1] == snapshot[i];
    }
  }

  /** check_nodes_now: a node that was ONLINE and silent for longer than the timeout ends OFFLINE with every row on it
      MISSING; every other node keeps its row. */
  lemma SweepExact(k: Crypto, s: State, env: Env, now: int, timeout: int, envs: Id -> Env, n: Id)
    requires Fair(env) && AllFair(envs) && n in s.nodes
    ensures var t := SweepFrom(k, s, NodeRows(s.nodes, env), now, timeout, envs);
            && n in t.nodes
            && (if s.nodes[n].status.Online? && now - s.nodes[n].heartbeat > timeout
                then t.nodes[n] == s.nodes[n].(status := Offline)
                     && forall c :: (c, n) in t.replicas ==> t.replicas[(c, n)].status.Missing?
                else t.nodes[n] == s.nodes[n])
  {
    hide SweepFrom, NodeRows;
    var snapshot := NodeRows(s.nodes, env);
    forall i | 0 <= i < |snapshot| ensures snapshot[i].id in s.nodes && snapshot[i].node == s.nodes[snapshot[i].id] {
      NodeRowsHas(s.nodes, env, snapshot[i]);
    }
    NodeRowsHas(s.nodes, env, NodeRow(n, s.nodes[n]));
    SweepClears(k, s, snapshot, now, timeout, envs, n);
    if Overdue(NodeRow(n, s.nodes[n]), now, timeout) {
      var i :| 0 <= i < |snapshot| && snapshot[i] == NodeRow(n, s.nodes[n]);
    }
  }
}
