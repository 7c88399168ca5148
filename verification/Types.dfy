/** The manager's tables, the nodes' disks and the choices left to the environment. */
module Types {

  type Bytes = seq<bv8>
  type Id = string

  /** A hex digest; hexdigest() never returns the empty string. */
  type Digest = d: string | d != "" witness "0"

  /** A row of chunk_replicas and a chunk file on a disk are both addressed by (chunk, node). */
  type Key = (Id, Id)

  datatype Option<+T> = None | Some(value: T)

  datatype NodeStatus = Online | Offline | Recovering | Degraded
  datatype FileStatus = Uploading | Active | Degraded | Recovering | Corrupted | Deleted
  datatype ReplicaStatus = Stored | Missing | Corrupted | Pending

  datatype Node = Node(total: int, avail: int, status: NodeStatus, heartbeat: int)
  datatype NodeRow = NodeRow(id: Id, node: Node)
  datatype File = File(size: nat, digest: Digest, status: FileStatus, chunkSize: int, rf: int, encrypted: bool)
  datatype Chunk = Chunk(fileId: Id, seqNo: nat, size: nat, sha: Digest)
  datatype Replica = Replica(number: int, status: ReplicaStatus)
  datatype Row = Row(chunk: Id, node: Id, number: int, status: ReplicaStatus)

  /** Everything the protocol reads or writes: four tables and one disk per node. */
  datatype State = State(
    nodes: map<Id, Node>,
    files: map<Id, File>,
    chunks: map<Id, Chunk>,
    replicas: map<Key, Replica>,
    disk: map<Key, Bytes>)

  /** SHA-256 and AES-GCM are library calls: arbitrary functions here. */
  datatype Crypto = Crypto(hash: Bytes -> Digest, seal: (nat, Bytes) -> Bytes, open: Bytes -> Option<Bytes>)

  ghost predicate CollisionFree(k: Crypto) {
    forall a, b :: k.hash(a) == k.hash(b) ==> a == b
  }

  ghost predicate RoundTrips(k: Crypto) {
    forall nonce, b :: k.open(k.seal(nonce, b)) == Some(b)
  }

  /** What a reader of a chunk file gets after the optional decryption; None is an InvalidTag error. */
  function Plain(k: Crypto, encrypted: bool, b: Bytes): Option<Bytes> {
    if encrypted then k.open(b) else Some(b)
  }

  /** The fate of one remote call: answered, never delivered, or carried out with the answer lost. */
  datatype Reply = Answered | Lost | Unheard

  datatype Query = AllNodes | AllFiles | RowsOfChunk(chunk: Id) | RowsOnNode(node: Id) | ChunksOfFile(file: Id)

  /** The environment's choices for one operation: row order of each SELECT and fate of each call. */
  datatype Env = Env(
    scan: (Query, set<Id>) -> seq<Id>,
    reply: (Id, Id) -> Reply,
    verify: (Id, Id) -> bool,
    nonce: Id -> nat)

  ghost predicate Distinct<T>(xs: seq<T>) {
    forall i, j :: 0 <= i < j < |xs| ==> xs[i] != xs[j]
  }

  ghost predicate Enumerates(xs: seq<Id>, s: set<Id>) {
    Distinct(xs) && forall x :: x in xs <==> x in s
  }

  /** A SELECT returns each matching row exactly once, in any order. */
  ghost predicate Fair(env: Env) {
    forall q, s: set<Id> :: Enumerates(env.scan(q, s), s)
  }

  /** A Python list comprehension with a guard. */
  function Filter<T>(xs: seq<T>, p: T -> bool): seq<T> {
    if xs == [] then [] else (if p(xs[0]) then [xs[0]] else []) + Filter(xs[1..], p)
  }

  lemma {:induction false} FilterIn<T>(xs: seq<T>, p: T -> bool, y: T)
    ensures y in Filter(xs, p) <==> y in xs && p(y)
  {
    if xs != [] {
      FilterIn(xs[1..], p, y);
      assert y in xs <==> y == xs[0] || y in xs[1..];
    }
  }

  lemma {:induction false} FilterAppend<T>(xs: seq<T>, ys: seq<T>, p: T -> bool)
    ensures Filter(xs + ys, p) == Filter(xs, p) + Filter(ys, p)
  {
    if xs == [] {
      assert xs + ys == ys;
    } else {
      FilterAppend(xs[1..], ys, p);
      var head := if p(xs[0]) then [xs[0]] else [];
      var a, b := Filter(xs[1..], p), Filter(ys, p);
      assert (xs + ys)[1..] == xs[1..] + ys;
      assert Filter(xs + ys, p) == head + (a + b);
      assert head + (a + b) == (head + a) + b;
    }
  }

  lemma {:induction false} FilterDistinct<T>(xs: seq<T>, p: T -> bool)
    requires Distinct(xs)
    ensures Distinct(Filter(xs, p))
  {
    if xs != [] {
      FilterDistinct(xs[1..], p);
      FilterIn(xs[1..], p, xs[0]);
      assert xs[0] !in xs[1..];
    }
  }

  function Elements<T>(xs: seq<T>): set<T> {
    set x | x in xs
  }

  lemma {:induction false} DistinctSize<T>(xs: seq<T>)
    requires Distinct(xs)
    ensures |Elements(xs)| == |xs|
  {
    if xs != [] {
      DistinctSize(xs[1..]);
      assert Elements(xs) == {xs[0]} + Elements(xs[1..]);
    }
  }
}
