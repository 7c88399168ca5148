/** What recovery does to the number of replicas, read off the tables before the call. */
module Replication {
  import opened Types
  import opened Naming
  import opened Chunking
  import opened Recovery
  import opened Transfers
  import opened Runs

  /** Another ONLINE node holds c STORED, and another ONLINE node without a live row of c has room for it. */
  ghost predicate Replaceable(s: State, c: Id, n: Id) {
    (exists x :: x != n && Survivor(s, c, x)) && (exists x :: x != n && CanReceive(s, c, x))
  }

  ghost predicate InPlainFile(s: State, c: Id) {
    c in s.chunks && s.chunks[c].fileId in s.files && !s.files[s.chunks[c].fileId].encrypted
  }

  ghost predicate InSealedFile(s: State, c: Id) {
    c in s.chunks && s.chunks[c].fileId in s.files && s.files[s.chunks[c].fileId].encrypted
  }

  lemma MarkedSurvivors(s: State, n: Id, c: Id, x: Id)
    ensures Survivor(Marked(s, n), c, x) <==> x != n && Survivor(s, c, x)
    ensures CanReceive(Marked(s, n), c, x) <==> x != n && CanReceive(s, c, x)
  {
    MarkedRows(s, n, c, x);
  }

  lemma PlansToCopy(s: State, env: Env, n: Id, c: Id)
    requires Fair(env) && c in s.chunks
    ensures PlanFor(Marked(s, n), env, c).Copy? <==> Replaceable(s, c, n)
  {
    hide PlanFor, Fair, Marked, Survivor, CanReceive;
    var m := Marked(s, n);
    PlanMeans(m, env, c);
    MarkedChunks(s, n);
    forall x ensures Survivor(m, c, x) <==> x != n && Survivor(s, c, x)
      ensures CanReceive(m, c, x) <==> x != n && CanReceive(s, c, x)
    {
      MarkedSurvivors(s, n, c, x);
    }
  }

  lemma MarkedChunks(s: State, n: Id)
    ensures Marked(s, n).chunks == s.chunks && Marked(s, n).disk == s.disk
  {}

  /** With calls answered and the copies behind the rows intact, a chunk of an unencrypted file with a row on the failed
      node is re-replicated exactly when the tables say it can be. */
  lemma ReplicatedExactly(k: Crypto, env: Env, s: State, n: Id, c: Id)
    requires Fair(env) && Copies(k, s) && OnlineAnswers(env, s) && InPlainFile(s, c) && (c, n) in s.replicas
    ensures c in RecoveredChunks(k, s, env, n) <==> Replaceable(s, c, n)
  {
    hide PlanFor, Fair, Marked, Copies, OnlineAnswers, Replaceable, Survivor, CanReceive;
    var m := Marked(s, n);
    PlansToCopy(s, env, n, c);
    MarkedRows(s, n, c, n);
    MarkedChunks(s, n);
    if PlanFor(m, env, c).Copy? {
      PlanMeans(m, env, c);
      MarkedSurvivors(s, n, c, PlanFor(m, env, c).source);
      MarkedSurvivors(s, n, c, PlanFor(m, env, c).target);
      SourceIsGood(k, s, c, PlanFor(m, env, c).source);
      TargetAnswers(env, s, c, PlanFor(m, env, c).target);
    }
  }

  lemma SourceIsGood(k: Crypto, s: State, c: Id, x: Id)
    requires Copies(k, s) && InPlainFile(s, c) && Survivor(s, c, x)
    ensures (c, x) in s.disk && k.hash(s.disk[(c, x)]) == s.chunks[c].sha
  {
    PlainCopyHashes(k, s, c, x);
  }

  lemma TargetAnswers(env: Env, s: State, c: Id, x: Id)
    requires OnlineAnswers(env, s) && CanReceive(s, c, x)
    ensures env.reply(c, x).Answered?
  {}

  /** No disk copy of c is the bytes whose hash is recorded; for an encrypted file these are the plaintext. */
  ghost predicate Sealed(k: Crypto, s: State, c: Id) {
    c in s.chunks && forall x :: (c, x) in s.disk ==> k.hash(s.disk[(c, x)]) != s.chunks[c].sha
  }

  /** Copies that do not hash as recorded are neither re-replicated nor reconciled. */
  lemma SealedStaysPut(k: Crypto, env: Env, s: State, n: Id, c: Id)
    requires Sealed(k, s, c)
    ensures c !in RecoveredChunks(k, s, env, n) && !Flips(k, s, env, n, c)
  {
    hide PlanFor, Marked, Target;
    MarkedChunks(s, n);
  }

  /** Replication and reconciliation work on a chunk of an encrypted file only where a disk holds the plaintext. */
  lemma EncryptedOnlyIfPlain(k: Crypto, env: Env, w: World, n: Id, c: Id)
    requires CollisionFree(k) && Inv(k, w) && InSealedFile(w.s, c)
    requires c in RecoveredChunks(k, w.s, env, n) || Flips(k, w.s, env, n, c)
    ensures var f := w.s.chunks[c].fileId;
            && f in w.uploaded && w.s.chunks[c].seqNo < |Pieces(w.uploaded[f], w.s.files[f].chunkSize)|
            && exists x :: (c, x) in w.s.disk &&
                 w.s.disk[(c, x)] == Pieces(w.uploaded[f], w.s.files[f].chunkSize)[w.s.chunks[c].seqNo]
  {
    hide RecoveredChunks, Flips, Pieces, Concat, ChunkId, Inv;
    var f := w.s.chunks[c].fileId;
    CatalogFiles(k, w, f);
    var piece := Pieces(w.uploaded[f], w.s.files[f].chunkSize)[w.s.chunks[c].seqNo];
    if Sealed(k, w.s, c) {
      SealedStaysPut(k, env, w.s, n, c);
    } else {
      var x :| (c, x) in w.s.disk && k.hash(w.s.disk[(c, x)]) == w.s.chunks[c].sha;
      assert k.hash(w.s.disk[(c, x)]) == k.hash(piece);
      assert w.s.disk[(c, x)] == piece;
    }
  }

  // ---------- holders after a call ----------

  /** c has a row on n and will be given another holder by a pass over n, whether or not it is held there. */
  ghost predicate Regrows(s: State, c: Id, n: Id) {
    (c, n) in s.replicas && InPlainFile(s, c) && Replaceable(s, c, n)
  }

  /** c has a MISSING row on n that n, registering again, answers for. */
  ghost predicate Returns(s: State, env: Env, c: Id, n: Id) {
    InPlainFile(s, c) && (c, n) in s.replicas && s.replicas[(c, n)].status.Missing? && env.verify(c, n)
  }

  ghost predicate Recorded(s: State, c: Id) {
    c in s.chunks && s.chunks[c].fileId in s.files
  }

  ghost function Factor(s: State, c: Id): int
    requires Recorded(s, c)
  {
    s.files[s.chunks[c].fileId].rf
  }

  /** The copies behind the rows are legible, and no ciphertext hashes as its plaintext does. */
  ghost predicate Usual(k: Crypto, s: State) {
    Copies(k, s) && forall c :: InSealedFile(s, c) ==> Sealed(k, s, c)
  }

  lemma HoldersAfterPass(k: Crypto, env: Env, s: State, n: Id, c: Id)
    requires Fair(env) && Usual(k, s) && OnlineAnswers(env, s) && Recorded(s, c)
    ensures |Holders(RecoverNode(k, s, env, n), c)| == |Holders(s, c) - {n}| + if Regrows(s, c, n) then 1 else 0
  {
    hide Fair, Copies, OnlineAnswers, RecoverNode, Holders, Replaceable, Sealed, Target;
    RecoveryMovesHolders(k, s, env, n, c);
    assert c in RecoveredChunks(k, s, env, n) <==> Regrows(s, c, n) by {
      if InPlainFile(s, c) && (c, n) in s.replicas {
        ReplicatedExactly(k, env, s, n, c);
      } else if InSealedFile(s, c) {
        SealedStaysPut(k, env, s, n, c);
      }
    }
  }

  lemma HoldersAfterRegistration(k: Crypto, env: Env, s: State, n: Id, node: Node, c: Id)
    requires Usual(k, s) && Recorded(s, c)
    ensures |Holders(Register(k, s, env, n, node), c)| == |Holders(s, c)| + if Returns(s, env, c, n) then 1 else 0
  {
    hide Register, Holders, Copies, Sealed;
    RegisterMovesHolders(k, env, n, node, s, c);
    if InPlainFile(s, c) && (c, n) in s.replicas {
      PlainCopyHashes(k, s, c, n);
    } else if InSealedFile(s, c) {
      SealedStaysPut(k, env, s, n, c);
    }
  }

  lemma PlainCopyHashes(k: Crypto, s: State, c: Id, n: Id)
    requires Copies(k, s) && InPlainFile(s, c) && (c, n) in s.replicas
    ensures (c, n) in s.disk && k.hash(s.disk[(c, n)]) == s.chunks[c].sha
  {
    assert Legible(k, false, s.chunks[c].sha, s.disk[(c, n)]);
  }

  lemma PassKeepsFactor(k: Crypto, env: Env, s: State, n: Id, c: Id)
    requires Fair(env)
    ensures var t := RecoverNode(k, s, env, n);
            (Recorded(t, c) <==> Recorded(s, c)) && (Recorded(s, c) ==> Factor(t, c) == Factor(s, c))
  {
    hide RecoverNode;
    FactorKept(k, env, s, n, if c in s.chunks then s.chunks[c].fileId else "");
  }

  lemma FactorKept(k: Crypto, env: Env, s: State, n: Id, f: Id)
    requires Fair(env)
    ensures f in RecoverNode(k, s, env, n).files <==> f in s.files
    ensures f in s.files ==> RecoverNode(k, s, env, n).files[f].rf == s.files[f].rf
    ensures RecoverNode(k, s, env, n).chunks == s.chunks
  {
    hide Dooms, NewRows, NewCopies, Affected;
  }

  lemma Less(held: set<Id>, n: Id)
    ensures |held - {n}| == |held| - if n in held then 1 else 0
  {
    if n !in held {
      assert held - {n} == held;
    }
  }

  // ---------- one pass and the audit ----------

  /** The failed node can be spared for c: there are replicas enough without it, or a new one will be made. */
  ghost predicate Spared(s: State, c: Id, n: Id) {
    n in Holders(s, c) && Recorded(s, c) ==>
      || |Holders(s, c)| > Factor(s, c)
      || (InPlainFile(s, c) && Replaceable(s, c, n))
  }

  lemma SparedMeans(k: Crypto, env: Env, s: State, n: Id, c: Id)
    requires Fair(env) && Usual(k, s) && OnlineAnswers(env, s) && Recorded(s, c) && |Holders(s, c)| >= Factor(s, c)
    ensures Spared(s, c, n) <==> |Holders(RecoverNode(k, s, env, n), c)| >= Factor(s, c)
  {
    hide Fair, Usual, OnlineAnswers, RecoverNode, Holders, Replaceable;
    HoldersAfterPass(k, env, s, n, c);
    Less(Holders(s, c), n);
    HoldersHas(s, c, n);
  }

  /** One pass, its calls answered, keeps a healthy cluster healthy exactly when every chunk held by the failed node can
      spare it. */
  lemma HealthKeptExactly(k: Crypto, env: Env, s: State, n: Id)
    requires Fair(env) && Usual(k, s) && OnlineAnswers(env, s) && Healthy(s)
    ensures Healthy(RecoverNode(k, s, env, n)) <==> forall c :: Spared(s, c, n)
  {
    hide Fair, Usual, OnlineAnswers, RecoverNode, Holders, Spared;
    var t := RecoverNode(k, s, env, n);
    forall c ensures Recorded(t, c) <==> Recorded(s, c)
      ensures Recorded(s, c) ==>
                && Factor(t, c) == Factor(s, c)
                && (Spared(s, c, n) <==> |Holders(t, c)| >= Factor(s, c))
      ensures !Recorded(s, c) ==> Spared(s, c, n)
    {
      PassKeepsFactor(k, env, s, n, c);
      if Recorded(s, c) {
        SparedMeans(k, env, s, n, c);
      }
      SparedOtherwise(s, c, n);
    }
  }

  lemma SparedOtherwise(s: State, c: Id, n: Id)
    ensures !Recorded(s, c) ==> Spared(s, c, n)
  {}

  // ---------- above the replication factor ----------

  /** No chunk has more holders than its file asked for. */
  ghost predicate NoneAbove(s: State) {
    forall c :: Recorded(s, c) ==> |Holders(s, c)| <= Factor(s, c)
  }

  /** One pass, its calls answered, leaves a chunk above its factor exactly when the holders it leaves alone and the one
      it makes are too many. */
  lemma NoneAboveAfterPass(k: Crypto, env: Env, s: State, n: Id)
    requires Fair(env) && Usual(k, s) && OnlineAnswers(env, s)
    ensures NoneAbove(RecoverNode(k, s, env, n)) <==>
            forall c :: Recorded(s, c) ==>
              |Holders(s, c) - {n}| + (if Regrows(s, c, n) then 1 else 0) <= Factor(s, c)
  {
    hide Fair, Usual, OnlineAnswers, RecoverNode, Holders, Regrows;
    var t := RecoverNode(k, s, env, n);
    forall c ensures Recorded(t, c) <==> Recorded(s, c)
      ensures Recorded(s, c) ==>
                && Factor(t, c) == Factor(s, c)
                && |Holders(t, c)| == |Holders(s, c) - {n}| + if Regrows(s, c, n) then 1 else 0
    {
      PassKeepsFactor(k, env, s, n, c);
      if Recorded(s, c) {
        HoldersAfterPass(k, env, s, n, c);
      }
    }
  }

  /** A registration leaves a chunk above its factor exactly when its holders and the row it reconciles are too many. */
  lemma NoneAboveAfterRegistration(k: Crypto, env: Env, s: State, n: Id, node: Node)
    requires Usual(k, s)
    ensures NoneAbove(Register(k, s, env, n, node)) <==>
            forall c :: Recorded(s, c) ==>
              |Holders(s, c)| + (if Returns(s, env, c, n) then 1 else 0) <= Factor(s, c)
  {
    hide Usual, Register, Holders, Returns;
    var t := Register(k, s, env, n, node);
    RegisterIsGentle(k, env, n, node, s);
    forall c | Recorded(s, c)
      ensures |Holders(t, c)| == |Holders(s, c)| + if Returns(s, env, c, n) then 1 else 0
    {
      HoldersAfterRegistration(k, env, s, n, node, c);
    }
  }

  /** Every chunk has exactly the holders its file asked for. */
  ghost predicate Exact(s: State) {
    forall c :: Recorded(s, c) ==> |Holders(s, c)| == Factor(s, c)
  }

  /** What docs/recovery.md promises: a pass preserves the replication factor exactly when the chunks held by the node
      are the ones it re-replicates. Those whose row there was MISSING or CORRUPTED already are re-replicated too. */
  lemma FactorPreservedExactly(k: Crypto, env: Env, s: State, n: Id)
    requires Fair(env) && Usual(k, s) && OnlineAnswers(env, s) && Exact(s)
    ensures Exact(RecoverNode(k, s, env, n)) <==>
            forall c :: Recorded(s, c) ==> (n in Holders(s, c) <==> Regrows(s, c, n))
  {
    hide Fair, Usual, OnlineAnswers, RecoverNode, Holders, Regrows;
    var t := RecoverNode(k, s, env, n);
    forall c ensures Recorded(t, c) <==> Recorded(s, c)
      ensures Recorded(s, c) ==>
                && Factor(t, c) == Factor(s, c)
                && (|Holders(t, c)| == Factor(t, c) <==> (n in Holders(s, c) <==> Regrows(s, c, n)))
    {
      PassKeepsFactor(k, env, s, n, c);
      if Recorded(s, c) {
        HoldersAfterPass(k, env, s, n, c);
        Less(Holders(s, c), n);
      }
    }
  }
}
