/** The N+M erasure codec: padded data shards, one XOR parity shard, and rotated parity shards. */
module Erasure {
  import opened Types

  datatype Error = ValueError | CodingError | IndexError
  datatype Result<+T> = Ok(value: T) | Err(error: Error)

  function ShardLen(n: nat, d: nat): nat
    requires d > 0
  {
    (n + d - 1) / d
  }

  /** The payload continued with zero bytes. */
  function ByteAt(data: Bytes, j: nat): bv8 {
    if j < |data| then data[j] else 0
  }

  function DataShard(data: Bytes, d: nat, i: nat): Bytes
    requires d > 0
  {
    var len := ShardLen(|data|, d);
    seq(len, b requires 0 <= b < len => ByteAt(data, i * len + b))
  }

  function Rotate(b: bv8, shift: nat): bv8
    requires shift < 8
  {
    if shift == 0 then b else (b << shift) | (b >> (8 - shift))
  }

  /** Parity p reads data shard i as it is for p = 0, rotated by i % 8 otherwise. */
  function Twist(p: nat, i: nat, b: bv8): bv8 {
    if p == 0 then b else Rotate(b, i % 8)
  }

  function Xor(a: bv8, b: bv8): bv8 {
    a ^ b
  }

  /** Byte b of parity p, over the first m data shards. */
  function ParityByte(data: Bytes, len: nat, p: nat, b: nat, m: nat): bv8 {
    if m == 0 then 0 else Xor(ParityByte(data, len, p, b, m - 1), Twist(p, m - 1, ByteAt(data, (m - 1) * len + b)))
  }

  function ParityShard(data: Bytes, d: nat, p: nat): Bytes
    requires d > 0
  {
    var len := ShardLen(|data|, d);
    seq(len, b requires 0 <= b < len => ParityByte(data, len, p, b, d))
  }

  /** Shard i of the d + p that a payload becomes. */
  function Shard(data: Bytes, d: nat, i: nat): Bytes
    requires d > 0
  {
    if i < d then DataShard(data, d, i) else ParityShard(data, d, i - d)
  }

  function Split(data: Bytes, d: nat, p: nat): seq<Bytes>
    requires d > 0
  {
    seq(d + p, i requires 0 <= i < d + p => Shard(data, d, i))
  }

  // ---------- the encoder ----------

  /** The inner loop over one shard. */
  method XorInto(buf: array<bv8>, shard: Bytes, p: nat, i: nat)
    requires |shard| == buf.Length
    modifies buf
    ensures forall b :: 0 <= b < buf.Length ==> buf[b] == old(buf[b]) ^ Twist(p, i, shard[b])
  {
    hide Twist;
    for b := 0 to buf.Length
      invariant forall x :: 0 <= x < b ==> buf[x] == old(buf[x]) ^ Twist(p, i, shard[x])
      invariant forall x :: b <= x < buf.Length ==> buf[x] == old(buf[x])
    {
      buf[b] := buf[b] ^ Twist(p, i, shard[b]);
    }
  }

  /** One parity shard, accumulated over the data shards. */
  method BuildParity(data: Bytes, d: nat, p: nat, shards: seq<Bytes>) returns (parity: Bytes)
    requires d > 0 && |shards| >= d && forall i :: 0 <= i < d ==> shards[i] == DataShard(data, d, i)
    ensures parity == ParityShard(data, d, p)
  {
    hide Twist, ByteAt;
    var len := ShardLen(|data|, d);
    var buf := new bv8[len](_ => 0);
    for i := 0 to d
      invariant forall b :: 0 <= b < len ==> buf[b] == ParityByte(data, len, p, b, i)
    {
      XorInto(buf, shards[i], p, i);
    }
    parity := buf[..];
  }

  /** ErasureEncoder.split_data. */
  method SplitData(data: Bytes, dataShards: int, parityShards: int) returns (r: Result<seq<Bytes>>)
    ensures r == if dataShards <= 0 || parityShards <= 0 then Err(ValueError)
                 else Ok(Split(data, dataShards, parityShards))
  {
    hide ParityShard, ByteAt;
    if dataShards <= 0 || parityShards <= 0 {
      return Err(ValueError);
    }
    var len := ShardLen(|data|, dataShards);
    ShardsCover(|data|, dataShards);
    var padded := data + seq(len * dataShards - |data|, _ => 0);
    var shards := [];
    for i := 0 to dataShards
      invariant |shards| == i && forall j :: 0 <= j < i ==> shards[j] == DataShard(data, dataShards, j)
    {
      SliceInside(i, dataShards, len);
      PaddedSlice(data, dataShards, i, padded);
      shards := shards + [padded[i * len..(i + 1) * len]];
    }
    for p := 0 to parityShards
      invariant |shards| == dataShards + p
      invariant forall j :: 0 <= j < dataShards + p ==> shards[j] == Shard(data, dataShards, j)
    {
      var parity := BuildParity(data, dataShards, p, shards);
      shards := shards + [parity];
    }
    assert shards == Split(data, dataShards, parityShards);
    return Ok(shards);
  }

  lemma SliceInside(i: nat, d: nat, len: nat)
    requires i < d
    ensures 0 <= i * len <= (i + 1) * len <= len * d && (i + 1) * len == i * len + len
  {
    Distribute(i, 1, len);
    Distribute(i + 1, d - i - 1, len);
    assert 0 <= (d - i - 1) * len && 0 <= i * len;
  }

  lemma Distribute(a: nat, b: nat, c: nat)
    ensures (a + b) * c == a * c + b * c
  {}

  lemma ShardsCover(n: nat, d: nat)
    requires d > 0
    ensures n <= ShardLen(n, d) * d
  {
    assert n + d - 1 == ShardLen(n, d) * d + (n + d - 1) % d;
  }

  lemma PaddedSlice(data: Bytes, d: nat, i: nat, padded: Bytes)
    requires d > 0 && i < d && |data| <= ShardLen(|data|, d) * d
    requires padded == data + seq(ShardLen(|data|, d) * d - |data|, _ => 0)
    requires 0 <= i * ShardLen(|data|, d) <= (i + 1) * ShardLen(|data|, d)
             == i * ShardLen(|data|, d) + ShardLen(|data|, d) <= |padded|
    ensures padded[i * ShardLen(|data|, d)..(i + 1) * ShardLen(|data|, d)] == DataShard(data, d, i)
  {
    hide ShardLen;
    assert forall j :: 0 <= j < |padded| ==> padded[j] == ByteAt(data, j);
  }

  // ---------- the decoder ----------

  function CountSome(shards: seq<Option<Bytes>>): nat {
    if shards == [] then 0 else CountSome(shards[..|shards| - 1]) + (if shards[|shards| - 1].Some? then 1 else 0)
  }

  /** Indices below d whose shard is missing, in order. */
  function MissingBelow(shards: seq<Option<Bytes>>, d: nat): seq<nat>
    requires d <= |shards|
  {
    if d == 0 then [] else MissingBelow(shards, d - 1) + (if shards[d - 1].None? then [d - 1] else [])
  }

  function FirstLength(shards: seq<Option<Bytes>>): nat {
    if shards == [] then 0 else if shards[0].Some? then |shards[0].value| else FirstLength(shards[1..])
  }

  function Join(shards: seq<Option<Bytes>>, d: nat): Bytes
    requires d <= |shards| && forall i :: 0 <= i < d ==> shards[i].Some?
  {
    if d == 0 then [] else Join(shards, d - 1) + shards[d - 1].value
  }

  /** Python's b[:n] for any integer n. */
  function Take(b: Bytes, n: int): Bytes {
    if n >= |b| then b else if n >= 0 then b[..n] else if |b| + n >= 0 then b[..|b| + n] else []
  }

  function Cell(shards: seq<Option<Bytes>>, i: nat, b: nat): bv8 {
    if i < |shards| && shards[i].Some? then ByteAt(shards[i].value, b) else 0
  }

  /** Byte b of the rebuilt shard after the first m data shards have been folded into the first parity. */
  function RebuiltByte(shards: seq<Option<Bytes>>, d: nat, missing: nat, b: nat, m: nat): bv8 {
    if m == 0 then Cell(shards, d, b)
    else if m - 1 == missing then RebuiltByte(shards, d, missing, b, m - 1)
    else Xor(RebuiltByte(shards, d, missing, b, m - 1), Cell(shards, m - 1, b))
  }

  function Length(shards: seq<Option<Bytes>>, i: nat): nat {
    if i < |shards| && shards[i].Some? then |shards[i].value| else 0
  }

  /** Some shard the loop indexes is shorter than the length taken from the first surviving one. */
  predicate TooShort(shards: seq<Option<Bytes>>, d: nat, missing: nat, len: nat, m: nat) {
    exists i :: 0 <= i < m && i != missing && Short(shards, d, len, i)
  }

  predicate Short(shards: seq<Option<Bytes>>, d: nat, len: nat, i: nat) {
    len > Length(shards, i) || len > Length(shards, d)
  }

  function Rebuilt(shards: seq<Option<Bytes>>, d: nat, missing: nat, len: nat): Bytes {
    seq(Length(shards, d), b requires 0 <= b < Length(shards, d) =>
      if b < len then RebuiltByte(shards, d, missing, b, d) else Cell(shards, d, b))
  }

  /** reconstruct_data on any integers; with no data shard to look at it answers with no bytes. */
  function Decode(shards: seq<Option<Bytes>>, size: int, d: int, p: int): Result<Bytes> {
    if |shards| != d + p || CountSome(shards) < d then Err(CodingError)
    else if d <= 0 then Ok([])
    else
      CountBounds(shards);
      var missing := MissingBelow(shards, d);
      MissingMeans(shards, d);
      if missing == [] then Ok(Take(Join(shards, d), size))
      else if |missing| == 1 && p > 0 && shards[d].Some? then
        var len := FirstLength(shards);
        if TooShort(shards, d, missing[0], len, d) then Err(IndexError)
        else
          var full := shards[missing[0] := Some(Rebuilt(shards, d, missing[0], len))];
          Ok(Take(Join(full, d), size))
      else Err(CodingError)
  }

  lemma {:induction false} CountBounds(shards: seq<Option<Bytes>>)
    ensures CountSome(shards) <= |shards|
  {
    if shards != [] {
      CountBounds(shards[..|shards| - 1]);
    }
  }

  lemma {:induction false} MissingHas(shards: seq<Option<Bytes>>, d: nat)
    requires d <= |shards|
    ensures forall i :: i in MissingBelow(shards, d) <==> 0 <= i < d && shards[i].None?
  {
    if d > 0 {
      MissingHas(shards, d - 1);
      var rest := MissingBelow(shards, d - 1);
      assert forall i :: i in MissingBelow(shards, d) <==> i in rest || (i == d - 1 && shards[i].None?);
    }
  }

  lemma MissingMeans(shards: seq<Option<Bytes>>, d: nat)
    requires d <= |shards|
    ensures forall i :: i in MissingBelow(shards, d) <==> 0 <= i < d && shards[i].None?
    ensures |MissingBelow(shards, d)| == 1 ==> MissingBelow(shards, d)[0] < d
    ensures |MissingBelow(shards, d)| == 1 ==>
              forall i :: 0 <= i < d && i != MissingBelow(shards, d)[0] ==> shards[i].Some?
    ensures MissingBelow(shards, d) == [] <==> forall i :: 0 <= i < d ==> shards[i].Some?
  {
    MissingHas(shards, d);
    hide MissingBelow;
    var missing := MissingBelow(shards, d);
    if missing != [] {
      assert missing[0] in missing;
    }
  }

  lemma {:induction false} MissingOnly(shards: seq<Option<Bytes>>, d: nat, i: nat)
    requires i < d <= |shards| && shards[i].None?
    requires forall j :: 0 <= j < d && j != i ==> shards[j].Some?
    ensures MissingBelow(shards, d) == [i]
  {
    if i < d - 1 {
      MissingOnly(shards, d - 1, i);
    } else {
      MissingMeans(shards, d - 1);
    }
  }

  /** The inner loop over one surviving shard; false is an IndexError. */
  method FoldShard(buf: array<bv8>, shard: Bytes, len: nat) returns (ok: bool)
    modifies buf
    ensures ok <==> len == 0 || (len <= |shard| && len <= buf.Length)
    ensures ok ==> forall b :: 0 <= b < buf.Length ==> buf[b] == if b < len then old(buf[b]) ^ shard[b] else old(buf[b])
  {
    for b := 0 to len
      invariant b > 0 ==> b <= |shard| && b <= buf.Length
      invariant forall x :: 0 <= x < buf.Length ==> buf[x] == if x < b then old(buf[x]) ^ shard[x] else old(buf[x])
    {
      if b >= |shard| || b >= buf.Length {
        return false;
      }
      buf[b] := buf[b] ^ shard[b];
    }
    ok := true;
  }

  method Rebuild(shards: seq<Option<Bytes>>, d: nat, missing: nat, len: nat) returns (r: Result<Bytes>)
    requires d < |shards| && shards[d].Some? && missing < d
    requires forall i :: 0 <= i < d && i != missing ==> shards[i].Some?
    ensures r == if TooShort(shards, d, missing, len, d) then Err(IndexError) else Ok(Rebuilt(shards, d, missing, len))
  {
    var p := shards[d].value;
    var buf := new bv8[|p|](b requires 0 <= b < |p| => p[b]);
    for i := 0 to d
      invariant !TooShort(shards, d, missing, len, i)
      invariant forall b :: 0 <= b < |p| ==>
                  buf[b] == if b < len then RebuiltByte(shards, d, missing, b, i) else Cell(shards, d, b)
    {
      if i != missing {
        var ok := FoldShard(buf, shards[i].value, len);
        if !ok {
          assert Short(shards, d, len, i);
          return Err(IndexError);
        }
      }
    }
    assert buf[..] == Rebuilt(shards, d, missing, len);
    r := Ok(buf[..]);
  }

  method JoinShards(shards: seq<Option<Bytes>>, d: nat) returns (data: Bytes)
    requires d <= |shards| && forall i :: 0 <= i < d ==> shards[i].Some?
    ensures data == Join(shards, d)
  {
    data := [];
    for i := 0 to d
      invariant data == Join(shards, i)
    {
      data := data + shards[i].value;
    }
  }

  /** ErasureEncoder.reconstruct_data. */
  method ReconstructData(shards: seq<Option<Bytes>>, originalSize: int, dataShards: int, parityShards: int)
    returns (r: Result<Bytes>)
    ensures r == Decode(shards, originalSize, dataShards, parityShards)
  {
    hide Join, Rebuilt, TooShort;
    if |shards| != dataShards + parityShards {
      return Err(CodingError);
    }
    var available := 0;
    for i := 0 to |shards|
      invariant available == CountSome(shards[..i])
    {
      assert shards[..i + 1][..i] == shards[..i];
      available := available + (if shards[i].Some? then 1 else 0);
    }
    assert shards[..|shards|] == shards;
    if available < dataShards {
      return Err(CodingError);
    }
    if dataShards <= 0 {
      return Ok([]);
    }
    CountBounds(shards);
    var missing := [];
    for i := 0 to dataShards
      invariant missing == MissingBelow(shards, i)
    {
      if shards[i].None? {
        missing := missing + [i];
      }
    }
    MissingMeans(shards, dataShards);
    if missing == [] {
      var data := JoinShards(shards, dataShards);
      return Ok(Take(data, originalSize));
    }
    if |missing| == 1 && parityShards > 0 && shards[dataShards].Some? {
      var len := SurvivorLength(shards);
      var rebuilt := Rebuild(shards, dataShards, missing[0], len);
      if rebuilt.Err? {
        return Err(IndexError);
      }
      var data := JoinShards(shards[missing[0] := Some(rebuilt.value)], dataShards);
      return Ok(Take(data, originalSize));
    }
    r := Err(CodingError);
  }

  /** The length of the first shard that survives. */
  method SurvivorLength(shards: seq<Option<Bytes>>) returns (len: nat)
    ensures len == FirstLength(shards)
  {
    len := 0;
    for i := 0 to |shards|
      invariant FirstLength(shards) == FirstLength(shards[i..])
    {
      if shards[i].Some? {
        return |shards[i].value|;
      }
      assert shards[i..][1..] == shards[i + 1..];
    }
  }

  // ---------- what decoding recovers ----------

  /** The shards of a payload with those in lost erased. */
  function Erase(shards: seq<Bytes>, lost: set<nat>): seq<Option<Bytes>> {
    seq(|shards|, i requires 0 <= i < |shards| => if i in lost then None else Some(shards[i]))
  }

  /** All data shards survive, or exactly one is lost and the first parity survives. */
  ghost predicate Decodable(d: nat, lost: set<nat>) {
    || (forall i :: 0 <= i < d ==> i !in lost)
    || (d !in lost && exists i :: 0 <= i < d && i in lost && forall j :: 0 <= j < d && j != i ==> j !in lost)
  }

  lemma {:induction false} CountSplit(shards: seq<Option<Bytes>>, m: nat)
    requires m <= |shards|
    ensures CountSome(shards) >= CountSome(shards[..m])
    ensures m < |shards| && shards[m].Some? ==> CountSome(shards) >= CountSome(shards[..m]) + 1
  {
    if m < |shards| {
      var init := shards[..|shards| - 1];
      CountSplit(init, m);
      assert init[..m] == shards[..m];
    } else {
      assert shards[..m] == shards;
    }
  }

  lemma {:induction false} CountMissing(shards: seq<Option<Bytes>>, d: nat)
    requires d <= |shards|
    ensures CountSome(shards[..d]) + |MissingBelow(shards, d)| == d
  {
    if d > 0 {
      CountMissing(shards, d - 1);
      assert shards[..d][..d - 1] == shards[..d - 1];
    } else {
      assert shards[..0] == [];
    }
  }

  /** XOR of the first m data bytes at position b, leaving out shard missing. */
  function Others(data: Bytes, len: nat, missing: nat, b: nat, m: nat): bv8 {
    if m == 0 then 0
    else if m - 1 == missing then Others(data, len, missing, b, m - 1)
    else Xor(Others(data, len, missing, b, m - 1), ByteAt(data, (m - 1) * len + b))
  }

  lemma {:induction false} ParityIsOthers(data: Bytes, len: nat, missing: nat, b: nat, m: nat)
    ensures ParityByte(data, len, 0, b, m) ==
            Xor(Others(data, len, missing, b, m), if missing < m then ByteAt(data, missing * len + b) else 0)
  {
    hide ByteAt;
    if m > 0 {
      ParityIsOthers(data, len, missing, b, m - 1);
    }
  }

  lemma {:induction false} RebuiltIsOthers(data: Bytes, d: nat, shards: seq<Option<Bytes>>, missing: nat, b: nat,
      m: nat)
    requires d > 0 && m <= d && |shards| > d && b < ShardLen(|data|, d)
    requires forall i :: 0 <= i < d && i != missing ==> shards[i] == Some(DataShard(data, d, i))
    ensures RebuiltByte(shards, d, missing, b, m)
            == Xor(Cell(shards, d, b), Others(data, ShardLen(|data|, d), missing, b, m))
  {
    hide ShardLen, ByteAt, Cell, DataShard;
    if m > 0 {
      RebuiltIsOthers(data, d, shards, missing, b, m - 1);
      if m - 1 != missing {
        CellIs(data, d, shards, m - 1, b);
        XorAssoc(Cell(shards, d, b), Others(data, ShardLen(|data|, d), missing, b, m - 1), Cell(shards, m - 1, b));
      }
    }
  }

  lemma XorAssoc(a: bv8, b: bv8, c: bv8)
    ensures Xor(Xor(a, b), c) == Xor(a, Xor(b, c))
  {}

  lemma CellIs(data: Bytes, d: nat, shards: seq<Option<Bytes>>, i: nat, b: nat)
    requires d > 0 && i < |shards| && b < ShardLen(|data|, d) && shards[i] == Some(DataShard(data, d, i))
    ensures Cell(shards, i, b) == ByteAt(data, i * ShardLen(|data|, d) + b)
  {
    hide ShardLen;
  }

  /** The rebuilt bytes are the lost shard. */
  lemma RebuiltIsShard(data: Bytes, d: nat, shards: seq<Option<Bytes>>, missing: nat)
    requires d > 0 && missing < d < |shards|
    requires shards[d] == Some(ParityShard(data, d, 0))
    requires forall i :: 0 <= i < d && i != missing ==> shards[i] == Some(DataShard(data, d, i))
    ensures !TooShort(shards, d, missing, ShardLen(|data|, d), d)
    ensures Rebuilt(shards, d, missing, ShardLen(|data|, d)) == DataShard(data, d, missing)
  {
    NoneTooShort(data, d, shards, missing);
    hide ShardLen, RebuiltByte, ParityByte, ByteAt, Cell, TooShort;
    var len := ShardLen(|data|, d);
    forall b | 0 <= b < len ensures RebuiltByte(shards, d, missing, b, d) == ByteAt(data, missing * len + b) {
      RebuiltByteIs(data, d, shards, missing, b);
    }
  }

  lemma NoneTooShort(data: Bytes, d: nat, shards: seq<Option<Bytes>>, missing: nat)
    requires d > 0 && missing < d < |shards|
    requires shards[d] == Some(ParityShard(data, d, 0))
    requires forall i :: 0 <= i < d && i != missing ==> shards[i] == Some(DataShard(data, d, i))
    ensures !TooShort(shards, d, missing, ShardLen(|data|, d), d)
  {
    hide ShardLen;
    var len := ShardLen(|data|, d);
    assert Length(shards, d) == len;
    forall i | 0 <= i < d && i != missing ensures !Short(shards, d, len, i) {
      assert shards[i] == Some(DataShard(data, d, i));
    }
  }

  lemma RebuiltByteIs(data: Bytes, d: nat, shards: seq<Option<Bytes>>, missing: nat, b: nat)
    requires d > 0 && missing < d < |shards| && b < ShardLen(|data|, d)
    requires shards[d] == Some(ParityShard(data, d, 0))
    requires forall i :: 0 <= i < d && i != missing ==> shards[i] == Some(DataShard(data, d, i))
    ensures RebuiltByte(shards, d, missing, b, d) == ByteAt(data, missing * ShardLen(|data|, d) + b)
  {
    hide ShardLen, RebuiltByte, ParityByte, Xor, Others, DataShard;
    var len := ShardLen(|data|, d);
    RebuiltIsOthers(data, d, shards, missing, b, d);
    ParityIsOthers(data, len, missing, b, d);
    assert Cell(shards, d, b) == ParityByte(data, len, 0, b, d);
    XorUndo(Others(data, len, missing, b, d), ByteAt(data, missing * len + b));
  }

  lemma {:induction false} JoinIsPadded(data: Bytes, d: nat, shards: seq<Option<Bytes>>, m: nat)
    requires d > 0 && m <= d <= |shards| && forall i :: 0 <= i < d ==> shards[i] == Some(DataShard(data, d, i))
    ensures |Join(shards, m)| == m * ShardLen(|data|, d)
    ensures forall j :: 0 <= j < |Join(shards, m)| ==> Join(shards, m)[j] == ByteAt(data, j)
  {
    hide ShardLen;
    if m > 0 {
      JoinIsPadded(data, d, shards, m - 1);
      Distribute(m - 1, 1, ShardLen(|data|, d));
    }
  }

  lemma JoinIsData(data: Bytes, d: nat, shards: seq<Option<Bytes>>)
    requires d > 0 && d <= |shards| && forall i :: 0 <= i < d ==> shards[i] == Some(DataShard(data, d, i))
    ensures Take(Join(shards, d), |data|) == data
  {
    hide ShardLen;
    JoinIsPadded(data, d, shards, d);
    ShardsCover(|data|, d);
    assert d * ShardLen(|data|, d) == ShardLen(|data|, d) * d;
  }

  lemma {:induction false} FirstLengthIs(shards: seq<Option<Bytes>>, i: nat, len: nat)
    requires i < |shards| && shards[i].Some?
    requires forall j :: 0 <= j < |shards| && shards[j].Some? ==> |shards[j].value| == len
    ensures FirstLength(shards) == len
  {
    if shards[0].None? {
      FirstLengthIs(shards[1..], i - 1, len);
    }
  }

  /** Shard i is the only data shard lost. */
  ghost predicate OnlyLost(d: nat, lost: set<nat>, i: nat) {
    0 <= i < d && i in lost && forall j :: 0 <= j < d && j != i ==> j !in lost
  }

  lemma ErasedShards(data: Bytes, d: nat, p: nat, lost: set<nat>)
    requires d > 0 && p > 0
    ensures var shards := Erase(Split(data, d, p), lost);
            && |shards| == d + p
            && (forall i :: 0 <= i < d ==> shards[i] == (if i in lost then None else Some(DataShard(data, d, i))))
            && shards[d] == (if d in lost then None else Some(ParityShard(data, d, 0)))
  {
    hide DataShard, ParityShard;
  }

  lemma DecodeIntact(data: Bytes, d: nat, p: nat, lost: set<nat>)
    requires d > 0 && p > 0 && forall i :: 0 <= i < d ==> i !in lost
    ensures Decode(Erase(Split(data, d, p), lost), |data|, d, p) == Ok(data)
  {
    hide CountSome, MissingBelow, FirstLength, Join, Rebuilt, TooShort, DataShard, ParityShard, Erase, Split;
    var shards := Erase(Split(data, d, p), lost);
    ErasedShards(data, d, p, lost);
    MissingMeans(shards, d);
    CountMissing(shards, d);
    CountSplit(shards, d);
    JoinIsData(data, d, shards);
  }

  lemma DecodeOneLost(data: Bytes, d: nat, p: nat, lost: set<nat>, i: nat)
    requires d > 0 && p > 0 && OnlyLost(d, lost, i)
    ensures Decode(Erase(Split(data, d, p), lost), |data|, d, p) == if d in lost then Err(CodingError) else Ok(data)
  {
    hide CountSome, MissingBelow, FirstLength, Join, Rebuilt, TooShort, DataShard, ParityShard, Erase, Split, ShardLen;
    var shards := Erase(Split(data, d, p), lost);
    ErasedShards(data, d, p, lost);
    MissingOnly(shards, d, i);
    if d !in lost {
      CountMissing(shards, d);
      CountSplit(shards, d);
      ShardLengths(data, d, p, lost);
      FirstLengthIs(shards, d, ShardLen(|data|, d));
      RebuiltIsShard(data, d, shards, i);
      JoinIsData(data, d, shards[i := Some(DataShard(data, d, i))]);
    }
  }

  lemma DecodeMoreLost(data: Bytes, d: nat, p: nat, lost: set<nat>, i: nat, j: nat)
    requires d > 0 && p > 0 && 0 <= i < j < d && i in lost && j in lost
    ensures Decode(Erase(Split(data, d, p), lost), |data|, d, p) == Err(CodingError)
  {
    hide CountSome, MissingBelow, FirstLength, Join, Rebuilt, TooShort, DataShard, ParityShard, Erase, Split;
    var shards := Erase(Split(data, d, p), lost);
    ErasedShards(data, d, p, lost);
    MissingMeans(shards, d);
    var missing := MissingBelow(shards, d);
    assert i in missing && j in missing;
  }

  /** Decoding the shards of a payload succeeds exactly in the decodable cases, and then returns the payload. */
  lemma DecodeExact(data: Bytes, d: nat, p: nat, lost: set<nat>)
    requires d > 0 && p > 0
    ensures var r := Decode(Erase(Split(data, d, p), lost), |data|, d, p);
            (r.Ok? <==> Decodable(d, lost)) && (r.Ok? ==> r.value == data)
  {
    hide Decode, Erase, Split;
    if forall i :: 0 <= i < d ==> i !in lost {
      DecodeIntact(data, d, p, lost);
    } else {
      var i :| 0 <= i < d && i in lost;
      if OnlyLost(d, lost, i) {
        DecodeOneLost(data, d, p, lost, i);
      } else {
        var j :| 0 <= j < d && j != i && j in lost;
        DecodeMoreLost(data, d, p, lost, if i < j then i else j, if i < j then j else i);
      }
    }
  }

  lemma ShardLengths(data: Bytes, d: nat, p: nat, lost: set<nat>)
    requires d > 0
    ensures var shards := Erase(Split(data, d, p), lost);
            forall j :: 0 <= j < |shards| && shards[j].Some? ==> |shards[j].value| == ShardLen(|data|, d)
  {
    hide ShardLen;
  }

  // ---------- any shards at all ----------

  /** With every data shard there, decoding joins them and cuts at size the way a Python slice does. */
  lemma DecodeCuts(shards: seq<Option<Bytes>>, size: int, d: nat, p: nat)
    requires d > 0 && |shards| == d + p && forall i :: 0 <= i < d ==> shards[i].Some?
    ensures var full := Join(shards, d);
            Decode(shards, size, d, p) == Ok(if size >= |full| then full
                                             else if size >= 0 then full[..size]
                                             else if |full| + size >= 0 then full[..|full| + size] else [])
  {
    hide CountSome, MissingBelow, Join, Rebuilt, TooShort;
    MissingMeans(shards, d);
    CountMissing(shards, d);
    CountSplit(shards, d);
  }

  /** With one data shard missing and the first parity there, the length of the first shard there decides: the rebuild
      fails exactly when another one is shorter. */
  lemma DecodeFailsShort(shards: seq<Option<Bytes>>, size: int, d: nat, p: nat, i: nat, first: nat)
    requires i < d && p > 0 && |shards| == d + p && shards[d].Some? && shards[i].None?
    requires forall j :: 0 <= j < d && j != i ==> shards[j].Some?
    requires first <= d && shards[first].Some? && forall j :: 0 <= j < first ==> shards[j].None?
    ensures Decode(shards, size, d, p).Err? <==>
            exists j :: 0 <= j <= d && shards[j].Some? && |shards[j].value| < |shards[first].value|
    ensures Decode(shards, size, d, p).Err? ==> Decode(shards, size, d, p).error == IndexError
  {
    hide CountSome, MissingBelow, FirstLength, Join, Rebuilt, TooShort;
    MissingOnly(shards, d, i);
    CountMissing(shards, d);
    CountSplit(shards, d);
    FirstLengthAt(shards, first);
    ShortMeans(shards, d, i, first);
  }

  /** XOR of the bytes at position b of the first m shards but shard i; a position past a shard's end counts as zero. */
  function OthersXor(shards: seq<Option<Bytes>>, i: nat, b: nat, m: nat): bv8
    requires m <= |shards|
  {
    if m == 0 then 0
    else
      var rest := OthersXor(shards, i, b, m - 1);
      if m - 1 != i && shards[m - 1].Some? && b < |shards[m - 1].value| then rest ^ shards[m - 1].value[b] else rest
  }

  /** And when it does not fail, the missing shard comes back as long as the first parity: the parity XOR the other data
      shards up to the length of the first shard there, the parity's own bytes after that. */
  lemma DecodeRebuilds(shards: seq<Option<Bytes>>, size: int, d: nat, p: nat, i: nat, first: nat, full: Bytes,
                       missing: Bytes)
    requires i < d && p > 0 && |shards| == d + p && shards[d].Some? && shards[i].None?
    requires forall j :: 0 <= j < d && j != i ==> shards[j].Some?
    requires first <= d && shards[first].Some? && forall j :: 0 <= j < first ==> shards[j].None?
    requires Decode(shards, size, d, p).Ok? && |missing| == |shards[d].value|
    requires forall b :: 0 <= b < |missing| ==>
               missing[b] == if b < |shards[first].value| then shards[d].value[b] ^ OthersXor(shards, i, b, d)
                             else shards[d].value[b]
    requires full == Join(shards[i := Some(missing)], d)
    ensures Decode(shards, size, d, p).value ==
            if size >= |full| then full else if size >= 0 then full[..size]
            else if |full| + size >= 0 then full[..|full| + size] else []
  {
    hide CountSome, MissingBelow, FirstLength, Join, Rebuilt, TooShort;
    MissingOnly(shards, d, i);
    CountMissing(shards, d);
    CountSplit(shards, d);
    FirstLengthAt(shards, first);
    RebuiltSpelled(shards, d, i, |shards[first].value|, missing);
  }

  lemma RebuiltSpelled(shards: seq<Option<Bytes>>, d: nat, i: nat, len: nat, missing: Bytes)
    requires i < d < |shards| && shards[d].Some? && |missing| == |shards[d].value|
    requires forall b :: 0 <= b < |missing| ==>
               missing[b] == if b < len then shards[d].value[b] ^ OthersXor(shards, i, b, d) else shards[d].value[b]
    ensures Rebuilt(shards, d, i, len) == missing
  {
    hide RebuiltByte, OthersXor;
    forall b | 0 <= b < |missing| ensures Rebuilt(shards, d, i, len)[b] == missing[b] {
      RebuiltByteXor(shards, d, i, b, d);
    }
    assert Rebuilt(shards, d, i, len) == missing;
  }

  lemma {:induction false} RebuiltByteXor(shards: seq<Option<Bytes>>, d: nat, i: nat, b: nat, m: nat)
    requires m <= d < |shards| && shards[d].Some? && b < |shards[d].value|
    ensures RebuiltByte(shards, d, i, b, m) == Xor(shards[d].value[b], OthersXor(shards, i, b, m))
  {
    hide RebuiltByte, OthersXor, Xor, Cell;
    if m == 0 {
      RebuiltNone(shards, d, i, b);
    } else {
      RebuiltByteXor(shards, d, i, b, m - 1);
      RebuiltNext(shards, d, i, b, m);
      XorAssoc(shards[d].value[b], OthersXor(shards, i, b, m - 1), Cell(shards, m - 1, b));
    }
  }

  lemma RebuiltNone(shards: seq<Option<Bytes>>, d: nat, i: nat, b: nat)
    requires d < |shards| && shards[d].Some? && b < |shards[d].value|
    ensures RebuiltByte(shards, d, i, b, 0) == Xor(shards[d].value[b], OthersXor(shards, i, b, 0))
  {
    XorWithNone(shards[d].value[b]);
    hide Xor;
  }

  lemma RebuiltNext(shards: seq<Option<Bytes>>, d: nat, i: nat, b: nat, m: nat)
    requires 0 < m <= d < |shards|
    ensures RebuiltByte(shards, d, i, b, m) == if m - 1 == i then RebuiltByte(shards, d, i, b, m - 1)
                                               else Xor(RebuiltByte(shards, d, i, b, m - 1), Cell(shards, m - 1, b))
    ensures OthersXor(shards, i, b, m) == if m - 1 == i then OthersXor(shards, i, b, m - 1)
                                          else Xor(OthersXor(shards, i, b, m - 1), Cell(shards, m - 1, b))
  {
    XorWithNone(OthersXor(shards, i, b, m - 1));
  }

  lemma {:induction false} FirstLengthAt(shards: seq<Option<Bytes>>, first: nat)
    requires first < |shards| && shards[first].Some? && forall j :: 0 <= j < first ==> shards[j].None?
    ensures FirstLength(shards) == |shards[first].value|
  {
    if first > 0 {
      FirstLengthAt(shards[1..], first - 1);
    }
  }

  lemma ShortMeans(shards: seq<Option<Bytes>>, d: nat, i: nat, first: nat)
    requires i < d < |shards| && shards[d].Some? && shards[i].None?
    requires forall j :: 0 <= j < d && j != i ==> shards[j].Some?
    requires first <= d && shards[first].Some? && forall j :: 0 <= j < first ==> shards[j].None?
    ensures TooShort(shards, d, i, |shards[first].value|, d) <==>
            exists j :: 0 <= j <= d && shards[j].Some? && |shards[j].value| < |shards[first].value|
  {
    var len := |shards[first].value|;
    if j :| 0 <= j <= d && shards[j].Some? && |shards[j].value| < len {
      assert Short(shards, d, len, if j < d then j else first);
    }
    if TooShort(shards, d, i, len, d) {
      var j :| 0 <= j < d && j != i && Short(shards, d, len, j);
      assert |shards[j].value| < len || |shards[d].value| < len;
    }
  }

  // ---------- linearity, and which refusals are forced ----------

  function XorBytes(x: Bytes, y: Bytes): Bytes
    requires |x| == |y|
  {
    seq(|x|, i requires 0 <= i < |x| => Xor(x[i], y[i]))
  }

  lemma RotateXor(a: bv8, b: bv8, shift: nat)
    requires shift < 8
    ensures Rotate(a ^ b, shift) == Rotate(a, shift) ^ Rotate(b, shift)
  {
    if shift == 1 { assert ((a ^ b) << 1) | ((a ^ b) >> 7) == ((a << 1) | (a >> 7)) ^ ((b << 1) | (b >> 7)); }
    else if shift == 2 { assert ((a ^ b) << 2) | ((a ^ b) >> 6) == ((a << 2) | (a >> 6)) ^ ((b << 2) | (b >> 6)); }
    else if shift == 3 { assert ((a ^ b) << 3) | ((a ^ b) >> 5) == ((a << 3) | (a >> 5)) ^ ((b << 3) | (b >> 5)); }
    else if shift == 4 { assert ((a ^ b) << 4) | ((a ^ b) >> 4) == ((a << 4) | (a >> 4)) ^ ((b << 4) | (b >> 4)); }
    else if shift == 5 { assert ((a ^ b) << 5) | ((a ^ b) >> 3) == ((a << 5) | (a >> 3)) ^ ((b << 5) | (b >> 3)); }
    else if shift == 6 { assert ((a ^ b) << 6) | ((a ^ b) >> 2) == ((a << 6) | (a >> 2)) ^ ((b << 6) | (b >> 2)); }
    else if shift == 7 { assert ((a ^ b) << 7) | ((a ^ b) >> 1) == ((a << 7) | (a >> 1)) ^ ((b << 7) | (b >> 1)); }
  }

  lemma TwistXor(p: nat, i: nat, a: bv8, b: bv8)
    ensures Twist(p, i, Xor(a, b)) == Xor(Twist(p, i, a), Twist(p, i, b))
  {
    hide Rotate;
    RotateXor(a, b, i % 8);
  }

  lemma {:induction false} ParityXor(x: Bytes, y: Bytes, len: nat, p: nat, b: nat, m: nat)
    requires |x| == |y|
    ensures ParityByte(XorBytes(x, y), len, p, b, m) == Xor(ParityByte(x, len, p, b, m), ParityByte(y, len, p, b, m))
  {
    hide Twist, ByteAt, XorBytes, Xor;
    XorNone();
    if m > 0 {
      ParityXor(x, y, len, p, b, m - 1);
      ByteAtXor(x, y, (m - 1) * len + b);
      ParityXorStep(XorBytes(x, y), x, y, len, p, b, m);
    }
  }

  lemma ParityXorStep(z: Bytes, x: Bytes, y: Bytes, len: nat, p: nat, b: nat, m: nat)
    requires m > 0
    requires ParityByte(z, len, p, b, m - 1) == Xor(ParityByte(x, len, p, b, m - 1), ParityByte(y, len, p, b, m - 1))
    requires ByteAt(z, (m - 1) * len + b) == Xor(ByteAt(x, (m - 1) * len + b), ByteAt(y, (m - 1) * len + b))
    ensures ParityByte(z, len, p, b, m) == Xor(ParityByte(x, len, p, b, m), ParityByte(y, len, p, b, m))
  {
    hide Twist, ByteAt, ParityByte, Xor;
    var u, v := ByteAt(x, (m - 1) * len + b), ByteAt(y, (m - 1) * len + b);
    TwistXor(p, m - 1, u, v);
    ParityNext(x, len, p, b, m);
    ParityNext(y, len, p, b, m);
    ParityNext(z, len, p, b, m);
    XorSwap(ParityByte(x, len, p, b, m - 1), ParityByte(y, len, p, b, m - 1), Twist(p, m - 1, u), Twist(p, m - 1, v));
  }

  lemma ParityNext(data: Bytes, len: nat, p: nat, b: nat, m: nat)
    requires m > 0
    ensures ParityByte(data, len, p, b, m)
            == Xor(ParityByte(data, len, p, b, m - 1), Twist(p, m - 1, ByteAt(data, (m - 1) * len + b)))
  {}

  lemma XorSwap(a: bv8, b: bv8, c: bv8, d: bv8)
    ensures Xor(Xor(a, b), Xor(c, d)) == Xor(Xor(a, c), Xor(b, d))
  {
    XorAssoc(a, b, Xor(c, d));
    XorAssoc(b, c, d);
    XorAssoc(c, b, d);
    XorAssoc(a, c, Xor(b, d));
    XorComm(b, c);
    hide Xor;
  }

  lemma XorNone()
    ensures Xor(0, 0) == 0
  {}

  lemma XorComm(a: bv8, b: bv8)
    ensures Xor(a, b) == Xor(b, a)
  {}

  lemma XorUndo(a: bv8, b: bv8)
    ensures Xor(Xor(a, b), a) == b
  {}

  lemma ByteAtXor(x: Bytes, y: Bytes, j: nat)
    requires |x| == |y|
    ensures ByteAt(XorBytes(x, y), j) == Xor(ByteAt(x, j), ByteAt(y, j))
  {}

  /** The code is XOR-linear on payloads of one length, data shards and every parity shard alike. */
  lemma SplitIsLinear(x: Bytes, y: Bytes, d: nat, p: nat, i: nat)
    requires |x| == |y| && d > 0 && i < d + p
    ensures |Split(x, d, p)[i]| == |Split(y, d, p)[i]|
    ensures Split(XorBytes(x, y), d, p)[i] == XorBytes(Split(x, d, p)[i], Split(y, d, p)[i])
  {
    hide ShardLen, ByteAt, ParityByte, Xor;
    var len := ShardLen(|x|, d);
    forall b | 0 <= b < len
      ensures Split(XorBytes(x, y), d, p)[i][b] == Xor(Split(x, d, p)[i][b], Split(y, d, p)[i][b])
    {
      if i < d {
        ByteAtXor(x, y, i * len + b);
      } else {
        ParityXor(x, y, len, i - d, b, d);
      }
    }
  }

  lemma ByteIs(data: Bytes, k: nat)
    ensures ByteAt(data, k) == if k < |data| then data[k] else 0
  {}

  lemma TwistIs(p: nat, i: nat, b: bv8)
    ensures Twist(p, i, b) == Turned(p, i % 8, b)
  {
    hide Rotate, Turned;
    RotateIs(p, i % 8, b);
  }

  lemma RotateIs(p: nat, r: nat, b: bv8)
    requires r < 8
    ensures Turned(p, r, b) == if p == 0 then b else Rotate(b, r)
  {}

  /** Parity 0 takes bytes as they are, the others turn them left by r bits. */
  function Turned(p: nat, r: nat, x: bv8): bv8
    requires r < 8
  {
    if p == 0 || r == 0 then x else (x << r) | (x >> (8 - r))
  }

  lemma XorWithNone(x: bv8)
    ensures Xor(0, x) == x && Xor(x, 0) == x
  {}

  lemma TurnedIs(p: nat, r: nat, x: bv8)
    requires r < 8
    ensures Turned(p, r, x) == if p == 0 || r == 0 then x else (x << r) | (x >> (8 - r))
  {}

  /** Parity of a payload with nothing outside data shard i. */
  lemma {:induction false} ParityOfOne(data: Bytes, len: nat, p: nat, b: nat, i: nat, m: nat)
    requires b < len && forall k :: 0 <= k < |data| && data[k] != 0 ==> i * len <= k < i * len + len
    ensures ParityByte(data, len, p, b, m) == if i < m then Twist(p, i, ByteAt(data, i * len + b)) else 0
  {
    hide Twist, ByteAt, Xor;
    XorNone();
    if m > 0 {
      ParityOfOne(data, len, p, b, i, m - 1);
      XorWithNone(Twist(p, i, ByteAt(data, i * len + b)));
      if m - 1 != i {
        OutsideIsZero(data, len, b, i, m - 1);
        TwistFixes(p, m - 1);
      }
    }
  }

  lemma OutsideIsZero(data: Bytes, len: nat, b: nat, i: nat, j: nat)
    requires b < len && j != i && forall k :: 0 <= k < |data| && data[k] != 0 ==> i * len <= k < i * len + len
    ensures ByteAt(data, j * len + b) == 0
  {
    if j < i {
      Distribute(j, i - j, len);
      assert (i - j) * len >= len;
    } else {
      Distribute(i, j - i, len);
      assert (j - i) * len >= len;
    }
  }

  /** The shards spelled out. Each has ceil(n / d) bytes; data shard i is the i-th run of the payload, continued with
      zeros; and the parities of a payload with nothing outside data shard i are that shard, bytes as they are in parity
      0 and rotated left by i % 8 bits in the others. By SplitIsLinear that fixes the parities of every payload. */
  lemma SplitSpelled(data: Bytes, d: nat, p: nat, i: nat, b: nat)
    requires d > 0 && i < d && b < (|data| + d - 1) / d
    ensures var shards, len := Split(data, d, p), (|data| + d - 1) / d;
            && |shards| == d + p && (forall j :: 0 <= j < d + p ==> |shards[j]| == len)
            && 0 <= i * len && shards[i][b] == (if i * len + b < |data| then data[i * len + b] else 0)
            && ((forall k :: 0 <= k < |data| && data[k] != 0 ==> i * len <= k < i * len + len) ==>
                  forall j :: d <= j < d + p ==>
                    shards[j][b] == if j == d || i % 8 == 0 then shards[i][b]
                                    else (shards[i][b] << (i % 8)) | (shards[i][b] >> (8 - i % 8)))
  {
    hide ParityByte, Twist, Turned, ByteAt;
    var len := ShardLen(|data|, d);
    assert 0 <= i * len;
    assert Split(data, d, p)[i][b] == ByteAt(data, i * len + b) by { hide ShardLen, ByteAt; }
    ByteIs(data, i * len + b);
    if forall k :: 0 <= k < |data| && data[k] != 0 ==> i * len <= k < i * len + len {
      forall j | d <= j < d + p
        ensures var x := Split(data, d, p)[i][b];
                Split(data, d, p)[j][b] == if j == d || i % 8 == 0 then x else (x << (i % 8)) | (x >> (8 - i % 8))
      {
        TurnedIs(j - d, i % 8, Split(data, d, p)[i][b]);
        ParityOfOne(data, len, j - d, b, i, d);
        TwistIs(j - d, i, Split(data, d, p)[i][b]);
      }
    }
  }

  /** All zero but for 0xFF in the first byte of data shards i and j. */
  function Flip(n: nat, d: nat, i: nat, j: nat): Bytes
    requires d > 0
  {
    seq(n, x => if x == i * ShardLen(n, d) || x == j * ShardLen(n, d) then 0xFF else 0)
  }

  lemma TwistFixes(p: nat, i: nat)
    ensures Twist(p, i, 0) == 0 && Twist(p, i, 0xFF) == 0xFF
  {
    RotateFixes(i % 8);
  }

  lemma RotateFixes(shift: nat)
    requires shift < 8
    ensures Rotate(0, shift) == 0 && Rotate(0xFF, shift) == 0xFF
  {
    if shift == 1 { assert (0xFF as bv8 << 1) | (0xFF as bv8 >> 7) == 0xFF; }
    else if shift == 2 { assert (0xFF as bv8 << 2) | (0xFF as bv8 >> 6) == 0xFF; }
    else if shift == 3 { assert (0xFF as bv8 << 3) | (0xFF as bv8 >> 5) == 0xFF; }
    else if shift == 4 { assert (0xFF as bv8 << 4) | (0xFF as bv8 >> 4) == 0xFF; }
    else if shift == 5 { assert (0xFF as bv8 << 5) | (0xFF as bv8 >> 3) == 0xFF; }
    else if shift == 6 { assert (0xFF as bv8 << 6) | (0xFF as bv8 >> 2) == 0xFF; }
    else if shift == 7 { assert (0xFF as bv8 << 7) | (0xFF as bv8 >> 1) == 0xFF; }
  }

  /** The flipped bytes cancel in every parity: each is fixed by rotation and occurs twice. */
  lemma {:induction false} FlipParity(n: nat, d: nat, i: nat, j: nat, p: nat, b: nat, m: nat)
    requires d > 0 && i < j < d && j * ShardLen(n, d) < n && b < ShardLen(n, d) && m <= d
    ensures ParityByte(Flip(n, d, i, j), ShardLen(n, d), p, b, m) == if b == 0 && i < m <= j then 0xFF else 0
  {
    hide ShardLen, Twist, ByteAt;
    if m > 0 {
      FlipParity(n, d, i, j, p, b, m - 1);
      FlipByte(n, d, i, j, m - 1, b);
      TwistFixes(p, m - 1);
    }
  }

  lemma FlipByte(n: nat, d: nat, i: nat, j: nat, q: nat, b: nat)
    requires d > 0 && i < j < d && j * ShardLen(n, d) < n && b < ShardLen(n, d)
    ensures ByteAt(Flip(n, d, i, j), q * ShardLen(n, d) + b) == if b == 0 && (q == i || q == j) then 0xFF else 0
  {
    hide ShardLen;
    var len := ShardLen(n, d);
    SameCell(q, i, len, b);
    SameCell(q, j, len, b);
    assert i * len <= j * len by { Distribute(i, j - i, len); }
  }

  lemma SameCell(q: nat, i: nat, len: nat, b: nat)
    requires b < len
    ensures q * len + b == i * len <==> b == 0 && q == i
  {
    if q < i {
      Distribute(q, i - q, len);
      assert (i - q) * len >= len;
    } else if q > i {
      Distribute(i, q - i, len);
      assert (q - i) * len >= len;
    }
  }

  /** Outside shards i and j the shards of the flip are zero. */
  lemma FlipVanishes(n: nat, d: nat, p: nat, i: nat, j: nat, q: nat)
    requires d > 0 && i < j < d && j * ShardLen(n, d) < n && q < d + p && q != i && q != j
    ensures forall b :: 0 <= b < |Split(Flip(n, d, i, j), d, p)[q]| ==> Split(Flip(n, d, i, j), d, p)[q][b] == 0
  {
    hide ShardLen, ByteAt, ParityByte, Flip;
    var x := Flip(n, d, i, j);
    assert |x| == n by { FlipLength(n, d, i, j); }
    forall b | 0 <= b < ShardLen(n, d) ensures Split(x, d, p)[q][b] == 0 {
      if q < d {
        FlipByte(n, d, i, j, q, b);
      } else {
        FlipParity(n, d, i, j, q - d, b, d);
      }
    }
  }

  lemma FlipLength(n: nat, d: nat, i: nat, j: nat)
    requires d > 0
    ensures |Flip(n, d, i, j)| == n
  {}

  /** Two payloads of one length look alike once the data shards i and j, holding payload bytes, are lost. */
  lemma TwoLostLookAlike(data: Bytes, d: nat, p: nat, lost: set<nat>, i: nat, j: nat)
    requires d > 0 && i < j < d && j * ShardLen(|data|, d) < |data| && i in lost && j in lost
    ensures var other := XorBytes(data, FlipOf(data, d, i, j));
            && |other| == |data| && other != data
            && Erase(Split(other, d, p), lost) == Erase(Split(data, d, p), lost)
  {
    hide ShardLen, Split, Flip;
    var flip := FlipOf(data, d, i, j);
    var other := XorBytes(data, flip);
    SplitLength(data, d, p);
    SplitLength(flip, d, p);
    SplitLength(other, d, p);
    forall q | 0 <= q < d + p && q !in lost ensures Split(other, d, p)[q] == Split(data, d, p)[q] {
      SplitIsLinear(data, flip, d, p, q);
      FlipVanishes(|data|, d, p, i, j, q);
      XorZero(Split(data, d, p)[q], Split(flip, d, p)[q]);
    }
    assert other[j * ShardLen(|data|, d)] != data[j * ShardLen(|data|, d)] by { FlipsByte(data, d, i, j); }
  }

  function FlipOf(data: Bytes, d: nat, i: nat, j: nat): (f: Bytes)
    requires d > 0
    ensures |f| == |data|
  {
    FlipLength(|data|, d, i, j);
    Flip(|data|, d, i, j)
  }

  lemma SplitLength(data: Bytes, d: nat, p: nat)
    requires d > 0
    ensures |Split(data, d, p)| == d + p
  {}

  lemma FlipsByte(data: Bytes, d: nat, i: nat, j: nat)
    requires d > 0 && j * ShardLen(|data|, d) < |data|
    ensures 0 <= j * ShardLen(|data|, d)
    ensures XorBytes(data, FlipOf(data, d, i, j))[j * ShardLen(|data|, d)] != data[j * ShardLen(|data|, d)]
  {
    hide ShardLen;
    var at := j * ShardLen(|data|, d);
    FlipsBits(data[at]);
  }

  lemma FlipsBits(b: bv8)
    ensures b ^ 0xFF != b
  {}

  lemma XorZero(x: Bytes, y: Bytes)
    requires |x| == |y| && forall b :: 0 <= b < |y| ==> y[b] == 0
    ensures XorBytes(x, y) == x
  {
    assert forall b :: 0 <= b < |x| ==> Xor(x[b], 0) == x[b];
  }

  /** So no decoder whatever recovers two such shards, from any number of parities: the refusal is forced. */
  lemma NoDecoderForTwo(decode: seq<Option<Bytes>> -> Bytes, data: Bytes, d: nat, p: nat, lost: set<nat>, i: nat,
      j: nat)
    requires d > 0 && i < j < d && j * ShardLen(|data|, d) < |data| && i in lost && j in lost
    ensures exists x: Bytes :: |x| == |data| && decode(Erase(Split(x, d, p), lost)) != x
  {
    hide ShardLen, Split, FlipOf;
    TwoLostLookAlike(data, d, p, lost, i, j);
    var other := XorBytes(data, FlipOf(data, d, i, j));
    assert decode(Erase(Split(data, d, p), lost)) == decode(Erase(Split(other, d, p), lost));
  }

  // ---------- when the surviving shards determine the payload ----------

  /** Data shard i is lost, and payload bytes were in it, not only padding. */
  ghost predicate LosesPayload(n: nat, d: nat, lost: set<nat>, i: nat)
    requires d > 0
  {
    i in lost && i < d && i * ShardLen(n, d) < n
  }

  ghost predicate LosesPayloadOnlyIn(n: nat, d: nat, lost: set<nat>, i: nat)
    requires d > 0
  {
    forall j: nat :: LosesPayload(n, d, lost, j) ==> j == i
  }

  predicate ParitySurvives(d: nat, p: nat, lost: set<nat>, q: nat) {
    q < p && d + q !in lost
  }

  /** No payload is lost, or it is lost in one data shard and some parity survives. */
  ghost predicate Determinable(n: nat, d: nat, p: nat, lost: set<nat>)
    requires d > 0
  {
    || (forall i: nat :: !LosesPayload(n, d, lost, i))
    || ((exists i: nat :: LosesPayloadOnlyIn(n, d, lost, i)) && exists q: nat :: ParitySurvives(d, p, lost, q))
  }

  /** No two payloads of n bytes look alike once the shards in lost are gone. */
  ghost predicate Determined(n: nat, d: nat, p: nat, lost: set<nat>)
    requires d > 0
  {
    forall x: Bytes, y: Bytes ::
      |x| == n && |y| == n && Erase(Split(x, d, p), lost) == Erase(Split(y, d, p), lost) ==> x == y
  }

  ghost predicate Decodes(decode: seq<Option<Bytes>> -> Bytes, n: nat, d: nat, p: nat, lost: set<nat>)
    requires d > 0
  {
    forall x: Bytes :: |x| == n ==> decode(Erase(Split(x, d, p), lost)) == x
  }

  /** For every set of lost shards: the others determine the payload exactly when at most one data shard with payload is
      lost, and none unless some parity survives. */
  lemma DeterminedExactly(n: nat, d: nat, p: nat, lost: set<nat>)
    requires d > 0
    ensures Determined(n, d, p, lost) <==> Determinable(n, d, p, lost)
  {
    hide Erase, Split, LosesPayload, ParitySurvives;
    if Determinable(n, d, p, lost) {
      forall x: Bytes, y: Bytes
        | |x| == n && |y| == n && Erase(Split(x, d, p), lost) == Erase(Split(y, d, p), lost)
        ensures x == y
      {
        SurvivorsTell(x, y, d, p, lost);
      }
    } else {
      var i: nat :| LosesPayload(n, d, lost, i);
      if j: nat :| LosesPayload(n, d, lost, j) && j != i {
        TwoLostInDoubt(n, d, p, lost, if i < j then i else j, if i < j then j else i);
      } else {
        assert LosesPayloadOnlyIn(n, d, lost, i);
        OneLostInDoubt(n, d, p, lost, i);
      }
    }
  }

  lemma TwoLostInDoubt(n: nat, d: nat, p: nat, lost: set<nat>, i: nat, j: nat)
    requires d > 0 && i < j && LosesPayload(n, d, lost, i) && LosesPayload(n, d, lost, j)
    ensures !Determined(n, d, p, lost)
  {
    hide ShardLen, Split, Erase, FlipOf;
    var data := seq(n, _ => 0);
    TwoLostLookAlike(data, d, p, lost, i, j);
  }

  /** All zero but for the first byte of data shard i. */
  function Mark(n: nat, d: nat, i: nat): Bytes
    requires d > 0
  {
    seq(n, x => if x == i * ShardLen(n, d) then 1 else 0)
  }

  lemma OneLostInDoubt(n: nat, d: nat, p: nat, lost: set<nat>, i: nat)
    requires d > 0 && LosesPayload(n, d, lost, i) && forall q: nat :: !ParitySurvives(d, p, lost, q)
    ensures !Determined(n, d, p, lost)
  {
    hide ShardLen, Split, Erase, Mark;
    var x, y := Mark(n, d, d), Mark(n, d, i);
    assert |x| == n && |y| == n && x != y by { MarkDiffers(n, d, i); }
    MarksLookAlike(n, d, p, lost, i);
  }

  lemma MarkDiffers(n: nat, d: nat, i: nat)
    requires d > 0 && i < d && i * ShardLen(n, d) < n
    ensures |Mark(n, d, d)| == n && |Mark(n, d, i)| == n && Mark(n, d, d) != Mark(n, d, i)
  {
    hide ShardLen;
    var len := ShardLen(n, d);
    Distribute(i, d - i, len);
    ShardsCover(n, d);
    assert 0 <= i * len && Mark(n, d, i)[i * len] == 1;
    assert d * len == len * d;
    assert Mark(n, d, d)[i * len] == 0;
  }

  lemma MarksLookAlike(n: nat, d: nat, p: nat, lost: set<nat>, i: nat)
    requires d > 0 && LosesPayload(n, d, lost, i) && forall q: nat :: !ParitySurvives(d, p, lost, q)
    ensures Erase(Split(Mark(n, d, d), d, p), lost) == Erase(Split(Mark(n, d, i), d, p), lost)
  {
    hide ShardLen, Mark, DataShard, ParityShard;
    var x, y := Mark(n, d, d), Mark(n, d, i);
    forall q | 0 <= q < d + p && q !in lost ensures Split(x, d, p)[q] == Split(y, d, p)[q] {
      SurvivorIsData(d, p, lost, q);
      MarkOutside(n, d, i, q);
    }
  }

  lemma SurvivorIsData(d: nat, p: nat, lost: set<nat>, q: nat)
    requires q < d + p && q !in lost
    ensures q >= d ==> ParitySurvives(d, p, lost, q - d)
  {}

  /** Data shards other than i do not see the mark. */
  lemma MarkOutside(n: nat, d: nat, i: nat, q: nat)
    requires d > 0 && q < d && i < d && q != i
    ensures DataShard(Mark(n, d, d), d, q) == DataShard(Mark(n, d, i), d, q)
  {
    MarkLength(n, d, d);
    MarkLength(n, d, i);
    hide ShardLen, ByteAt, Mark;
    forall b | 0 <= b < ShardLen(n, d)
      ensures DataShard(Mark(n, d, d), d, q)[b] == DataShard(Mark(n, d, i), d, q)[b]
    {
      MarkIsZero(n, d, d, q, b);
      MarkIsZero(n, d, i, q, b);
    }
  }

  lemma MarkLength(n: nat, d: nat, i: nat)
    requires d > 0
    ensures |Mark(n, d, i)| == n
  {}

  lemma MarkIsZero(n: nat, d: nat, i: nat, q: nat, b: nat)
    requires d > 0 && b < ShardLen(n, d) && q != i
    ensures ByteAt(Mark(n, d, i), q * ShardLen(n, d) + b) == 0
  {
    hide ShardLen;
    SameCell(q, i, ShardLen(n, d), b);
  }

  lemma SurvivorsTell(x: Bytes, y: Bytes, d: nat, p: nat, lost: set<nat>)
    requires |x| == |y| && d > 0 && Determinable(|x|, d, p, lost)
    requires Erase(Split(x, d, p), lost) == Erase(Split(y, d, p), lost)
    ensures x == y
  {
    hide ShardLen, ByteAt, Erase, Split, LosesPayload, ParitySurvives;
    ShardsCover(|x|, d);
    forall k | 0 <= k < |x| ensures ByteAt(x, k) == ByteAt(y, k) {
      var j, b := CellOf(k, ShardLen(|x|, d), d);
      if LosesPayload(|x|, d, lost, j) {
        var i: nat :| LosesPayloadOnlyIn(|x|, d, lost, i);
        var q: nat :| ParitySurvives(d, p, lost, q);
        assert i == j;
        ParityTells(x, y, d, p, lost, i, q, b);
      } else {
        ShardTells(x, y, d, p, lost, j, b);
      }
    }
    BytesAgree(x, y);
  }

  /** A data shard that survives, or is only padding, tells its bytes. */
  lemma ShardTells(x: Bytes, y: Bytes, d: nat, p: nat, lost: set<nat>, j: nat, b: nat)
    requires |x| == |y| && d > 0 && j < d && b < ShardLen(|x|, d) && !LosesPayload(|x|, d, lost, j)
    requires Erase(Split(x, d, p), lost) == Erase(Split(y, d, p), lost)
    ensures ByteAt(x, j * ShardLen(|x|, d) + b) == ByteAt(y, j * ShardLen(|x|, d) + b)
  {
    hide ShardLen, ByteAt;
    if j in lost {
      PaddingIsZero(x, j, ShardLen(|x|, d), b);
      PaddingIsZero(y, j, ShardLen(|x|, d), b);
    } else {
      KeptAgree(x, y, d, p, lost, j);
      assert DataShard(x, d, j)[b] == DataShard(y, d, j)[b];
    }
  }

  lemma KeptAgree(x: Bytes, y: Bytes, d: nat, p: nat, lost: set<nat>, q: nat)
    requires d > 0 && q < d + p && q !in lost && Erase(Split(x, d, p), lost) == Erase(Split(y, d, p), lost)
    ensures Shard(x, d, q) == Shard(y, d, q)
  {
    hide Shard;
    assert Erase(Split(x, d, p), lost)[q] == Some(Shard(x, d, q));
    assert Erase(Split(y, d, p), lost)[q] == Some(Shard(y, d, q));
  }

  /** Any one parity tells the bytes of the data shard i once the other data shards tell theirs. */
  lemma ParityTells(x: Bytes, y: Bytes, d: nat, p: nat, lost: set<nat>, i: nat, q: nat, b: nat)
    requires |x| == |y| && d > 0 && i < d && b < ShardLen(|x|, d)
    requires LosesPayloadOnlyIn(|x|, d, lost, i) && ParitySurvives(d, p, lost, q)
    requires Erase(Split(x, d, p), lost) == Erase(Split(y, d, p), lost)
    ensures ByteAt(x, i * ShardLen(|x|, d) + b) == ByteAt(y, i * ShardLen(|x|, d) + b)
  {
    hide ShardLen, ByteAt, ParityByte, Erase, Split, LosesPayload;
    KeptAgree(x, y, d, p, lost, d + q);
    assert ParityShard(x, d, q)[b] == ParityShard(y, d, q)[b];
    ParityTellsUpTo(x, y, d, p, lost, i, q, b, d);
  }

  lemma {:induction false} ParityTellsUpTo(x: Bytes, y: Bytes, d: nat, p: nat, lost: set<nat>, i: nat, q: nat, b: nat,
                                           m: nat)
    requires |x| == |y| && d > 0 && m <= d && b < ShardLen(|x|, d) && LosesPayloadOnlyIn(|x|, d, lost, i)
    requires Erase(Split(x, d, p), lost) == Erase(Split(y, d, p), lost)
    ensures var len := ShardLen(|x|, d);
            ParityByte(x, len, q, b, m) == ParityByte(y, len, q, b, m) <==>
            (i < m ==> ByteAt(x, i * len + b) == ByteAt(y, i * len + b))
  {
    hide ShardLen, ByteAt, Twist, Xor, Erase, Split, LosesPayload;
    if m > 0 {
      var len := ShardLen(|x|, d);
      ParityTellsUpTo(x, y, d, p, lost, i, q, b, m - 1);
      if m - 1 != i {
        ShardTells(x, y, d, p, lost, m - 1, b);
      }
      var u, v := ByteAt(x, (m - 1) * len + b), ByteAt(y, (m - 1) * len + b);
      TwistOneToOne(q, m - 1, u, v);
      XorCancels(ParityByte(x, len, q, b, m - 1), ParityByte(y, len, q, b, m - 1), Twist(q, m - 1, u),
                 Twist(q, m - 1, v));
    }
  }

  lemma XorCancels(a: bv8, b: bv8, c: bv8, d: bv8)
    ensures a == b ==> (Xor(a, c) == Xor(b, d) <==> c == d)
    ensures c == d ==> (Xor(a, c) == Xor(b, d) <==> a == b)
  {}

  lemma TwistOneToOne(p: nat, i: nat, a: bv8, b: bv8)
    ensures Twist(p, i, a) == Twist(p, i, b) <==> a == b
  {
    hide Rotate;
    RotateOneToOne(i % 8, a, b);
  }

  lemma RotateOneToOne(shift: nat, a: bv8, b: bv8)
    requires shift < 8
    ensures Rotate(a, shift) == Rotate(b, shift) <==> a == b
  {
    if shift == 1 { assert (a << 1) | (a >> 7) == (b << 1) | (b >> 7) <==> a == b; }
    else if shift == 2 { assert (a << 2) | (a >> 6) == (b << 2) | (b >> 6) <==> a == b; }
    else if shift == 3 { assert (a << 3) | (a >> 5) == (b << 3) | (b >> 5) <==> a == b; }
    else if shift == 4 { assert (a << 4) | (a >> 4) == (b << 4) | (b >> 4) <==> a == b; }
    else if shift == 5 { assert (a << 5) | (a >> 3) == (b << 5) | (b >> 3) <==> a == b; }
    else if shift == 6 { assert (a << 6) | (a >> 2) == (b << 6) | (b >> 2) <==> a == b; }
    else if shift == 7 { assert (a << 7) | (a >> 1) == (b << 7) | (b >> 1) <==> a == b; }
  }

  ghost function PayloadOf(shards: seq<Option<Bytes>>, n: nat, d: nat, p: nat, lost: set<nat>): Bytes
    requires d > 0
  {
    if exists x: Bytes :: |x| == n && shards == Erase(Split(x, d, p), lost) then
      var x: Bytes :| |x| == n && shards == Erase(Split(x, d, p), lost); x
    else []
  }

  /** So that is also when some decoder, any function of the surviving shards, gives every payload back. */
  lemma DecoderExists(n: nat, d: nat, p: nat, lost: set<nat>)
    requires d > 0
    ensures (exists decode: seq<Option<Bytes>> -> Bytes :: Decodes(decode, n, d, p, lost)) <==>
            Determinable(n, d, p, lost)
  {
    hide Erase, Split, Determinable;
    DeterminedExactly(n, d, p, lost);
    if Determined(n, d, p, lost) {
      var decode := shards => PayloadOf(shards, n, d, p, lost);
      forall x: Bytes | |x| == n ensures decode(Erase(Split(x, d, p), lost)) == x {}
      assert Decodes(decode, n, d, p, lost);
    } else if decode: seq<Option<Bytes>> -> Bytes :| Decodes(decode, n, d, p, lost) {
      DecodesTells(decode, n, d, p, lost);
    }
  }

  lemma DecodesTells(decode: seq<Option<Bytes>> -> Bytes, n: nat, d: nat, p: nat, lost: set<nat>)
    requires d > 0 && Decodes(decode, n, d, p, lost)
    ensures Determined(n, d, p, lost)
  {
    hide Erase, Split;
  }

  /** With one data shard and the first parity lost the code gives up, although any other parity would do. */
  lemma RefusalNotForced(data: Bytes, d: nat, p: nat, lost: set<nat>, i: nat, q: nat)
    requires d > 0 && OnlyLost(d, lost, i) && d in lost && ParitySurvives(d, p, lost, q)
    ensures Decode(Erase(Split(data, d, p), lost), |data|, d, p) == Err(CodingError)
    ensures exists decode: seq<Option<Bytes>> -> Bytes :: Decodes(decode, |data|, d, p, lost)
  {
    hide Decode, Erase, Split, ShardLen, Decodes;
    DecodeOneLost(data, d, p, lost, i);
    DecoderExists(|data|, d, p, lost);
    assert LosesPayloadOnlyIn(|data|, d, lost, i);
  }

  /** When shard j is only padding and the first parity survives, the surviving shards determine the payload: there the
      refusal is the code's choice. */
  lemma PaddingShardIsDetermined(x: Bytes, y: Bytes, d: nat, p: nat, i: nat, j: nat)
    requires |x| == |y| && d > 0 && p > 0 && i < j < d && j * ShardLen(|x|, d) >= |x|
    requires Erase(Split(x, d, p), {i, j}) == Erase(Split(y, d, p), {i, j})
    ensures x == y
  {
    hide ShardLen, Erase, Split;
    assert LosesPayloadOnlyIn(|x|, d, {i, j}, i);
    assert ParitySurvives(d, p, {i, j}, 0);
    SurvivorsTell(x, y, d, p, {i, j});
  }

  lemma BytesAgree(x: Bytes, y: Bytes)
    requires |x| == |y| && forall k :: 0 <= k < |x| ==> ByteAt(x, k) == ByteAt(y, k)
    ensures x == y
  {
    forall k | 0 <= k < |x| ensures x[k] == y[k] {
      assert ByteAt(x, k) == ByteAt(y, k);
    }
  }

  lemma PaddingIsZero(x: Bytes, j: nat, len: nat, b: nat)
    requires j * len >= |x|
    ensures ByteAt(x, j * len + b) == 0
  {}

  lemma CellOf(k: nat, len: nat, d: nat) returns (q: nat, b: nat)
    requires k < len * d
    ensures q < d && b < len && k == q * len + b
  {
    assert len > 0;
    q, b := k / len, k % len;
    assert q >= d ==> q * len >= d * len;
  }
}
