/** Chunk ids, and the file names the storage engine derives from them. */
module Naming {
  import opened Types

  function Digit(d: nat): char
    requires d < 10
  {
    "0123456789"[d]
  }

  function Digits(n: nat): string {
    if n < 10 then [Digit(n)] else Digits(n / 10) + [Digit(n % 10)]
  }

  function Zeros(n: nat): string {
    seq(n, _ => '0')
  }

  /** The format {n:06d}: zero padding to six places, longer numbers in full. */
  function Pad6(n: nat): string {
    var d := Digits(n);
    if |d| < 6 then Zeros(6 - |d|) + d else d
  }

  const MARK := "_chunk_"

  function ChunkId(fileId: Id, i: nat): Id {
    fileId + MARK + Pad6(i)
  }

  predicate IsDigit(c: char) {
    '0' <= c <= '9'
  }

  function Value(s: string): nat
    requires forall c :: c in s ==> IsDigit(c)
  {
    if s == "" then 0 else
    assert IsDigit(s[|s| - 1]) by { assert s[|s| - 1] in s; }
    10 * Value(s[..|s| - 1]) + (s[|s| - 1] as int - '0' as int)
  }

  /** Number of characters after the last underscore. */
  function TailLength(s: string): (n: nat)
    ensures n <= |s|
  {
    if s == "" || s[|s| - 1] == '_' then 0 else 1 + TailLength(s[..|s| - 1])
  }

  /** Reads a chunk id back: the part after the last underscore is the number. */
  function ParseChunkId(id: Id): Option<(Id, nat)> {
    var cut := |id| - TailLength(id);
    var head, tail := id[..cut], id[cut..];
    if |head| >= |MARK| && head[|head| - |MARK|..] == MARK && forall c :: c in tail ==> IsDigit(c)
    then Some((head[..|head| - |MARK|], Value(tail)))
    else None
  }

  lemma {:induction false} DigitsRead(n: nat)
    ensures forall c :: c in Digits(n) ==> IsDigit(c)
    ensures Value(Digits(n)) == n
  {
    if n >= 10 {
      DigitsRead(n / 10);
      assert Digits(n)[..|Digits(n)| - 1] == Digits(n / 10);
    }
  }

  lemma {:induction false} ZerosRead(k: nat, s: string)
    requires forall c :: c in s ==> IsDigit(c)
    ensures forall c :: c in Zeros(k) + s ==> IsDigit(c)
    ensures Value(Zeros(k) + s) == Value(s)
  {
    if s == "" {
      assert Zeros(k) + s == Zeros(k);
      if k > 0 {
        ZerosRead(k - 1, "");
        assert Zeros(k)[..k - 1] == Zeros(k - 1) == Zeros(k - 1) + "";
      }
    } else {
      var init := s[..|s| - 1];
      ZerosRead(k, init);
      assert (Zeros(k) + s)[..k + |s| - 1] == Zeros(k) + init;
    }
  }

  lemma {:induction false} TailOf(head: string, tail: string)
    requires head != "" && head[|head| - 1] == '_' && '_' !in tail
    ensures TailLength(head + tail) == |tail|
  {
    if tail == "" {
      assert head + tail == head;
    } else {
      TailOf(head, tail[..|tail| - 1]);
      assert (head + tail)[..|head + tail| - 1] == head + tail[..|tail| - 1];
    }
  }

  /** Every chunk id names one file and one sequence number, whatever the file id and however large the number. */
  lemma ChunkIdReads(fileId: Id, i: nat)
    ensures ParseChunkId(ChunkId(fileId, i)) == Some((fileId, i))
  {
    var tail := Pad6(i);
    DigitsRead(i);
    if |Digits(i)| < 6 {
      ZerosRead(6 - |Digits(i)|, Digits(i));
    }
    assert '_' !in tail;
    var head := fileId + MARK;
    TailOf(head, tail);
    var id := ChunkId(fileId, i);
    assert id[..|head|] == head && id[|head|..] == tail;
    assert head[|head| - |MARK|..] == MARK && head[..|head| - |MARK|] == fileId;
  }

  lemma {:induction false} DigitsLength(n: nat, m: nat, bound: nat)
    requires m >= 1 && bound == Power(m)
    ensures |Digits(n)| <= m <==> n < bound
    ensures Digits(n) != "" && (n > 0 ==> Digits(n)[0] != '0')
  {
    PowerTens(m - 1);
    if n >= 10 {
      if m > 1 {
        DigitsLength(n / 10, m - 1, Power(m - 1));
      } else {
        DigitsLength(n / 10, 1, 10);
      }
    }
  }

  lemma {:induction false} PowerTens(m: nat)
    ensures Power(m) >= 1
  {
    if m > 0 {
      PowerTens(m - 1);
    }
  }

  function Power(m: nat): nat {
    if m == 0 then 1 else 10 * Power(m - 1)
  }

  /** The id spelled out: the file id, the mark, and the number in decimal, in six places unless it needs more. */
  lemma ChunkIdShape(fileId: Id, i: nat)
    ensures var tail := Pad6(i);
            && ChunkId(fileId, i) == fileId + "_chunk_" + tail
            && (forall c :: c in tail ==> IsDigit(c)) && Value(tail) == i
            && (i < 1000000 ==> |tail| == 6) && (i >= 1000000 ==> |tail| > 6 && tail[0] != '0')
  {
    DigitsRead(i);
    DigitsLength(i, 6, 1000000);
    if |Digits(i)| < 6 {
      ZerosRead(6 - |Digits(i)|, Digits(i));
    }
  }

  lemma ChunkIdInjective(f: Id, i: nat, g: Id, j: nat)
    requires ChunkId(f, i) == ChunkId(g, j)
    ensures f == g && i == j
  {
    ChunkIdReads(f, i);
    ChunkIdReads(g, j);
  }

  /** ASCII letters and digits, '-' and '_'. */
  predicate Safe(c: char) {
    IsDigit(c) || 'a' <= c <= 'z' || 'A' <= c <= 'Z' || c == '-' || c == '_'
  }

  predicate Clean(id: Id) {
    forall c :: c in id ==> Safe(c)
  }

  /** str.isalnum beyond ASCII is library data: an arbitrary predicate. */
  predicate Kept(c: char, alnum: char -> bool) {
    Safe(c) || (c as int >= 128 && alnum(c))
  }

  function Sanitize(id: Id, alnum: char -> bool): string {
    Filter(id, c => Kept(c, alnum))
  }

  /** Every character of the id survives sanitising. */
  predicate Stable(id: Id, alnum: char -> bool) {
    forall c :: c in id ==> Kept(c, alnum)
  }

  lemma {:induction false} FilterSize<T>(xs: seq<T>, p: T -> bool)
    ensures |Filter(xs, p)| <= |xs|
    ensures Filter(xs, p) == xs <==> forall x :: x in xs ==> p(x)
  {
    if xs != [] {
      FilterSize(xs[1..], p);
      assert xs == [xs[0]] + xs[1..];
      assert forall x :: x in xs <==> x == xs[0] || x in xs[1..];
      if p(xs[0]) {
        assert Filter(xs, p)[1..] == Filter(xs[1..], p);
      }
    }
  }

  /** Sanitising spelled out: character by character, ASCII letters, digits, '-' and '_' stay, and beyond ASCII whatever
      counts as alphanumeric. */
  lemma SanitizeSpelled(a: Id, c: char, b: Id, alnum: char -> bool)
    ensures Sanitize("", alnum) == ""
    ensures Sanitize(a + [c] + b, alnum) == Sanitize(a, alnum) + Sanitize([c], alnum) + Sanitize(b, alnum)
    ensures Sanitize([c], alnum) ==
            if '0' <= c <= '9' || 'a' <= c <= 'z' || 'A' <= c <= 'Z' || c == '-' || c == '_'
               || (c as int >= 128 && alnum(c)) then [c] else ""
  {
    FilterAppend(a + [c], b, c => Kept(c, alnum));
    FilterAppend(a, [c], c => Kept(c, alnum));
  }

  /** Sanitising is the identity exactly on the ids all of whose characters it keeps. */
  lemma SanitizeExact(id: Id, alnum: char -> bool)
    ensures Sanitize(id, alnum) == id <==> Stable(id, alnum)
  {
    FilterSize(id, c => Kept(c, alnum));
  }

  /** Ids of ASCII letters, digits, '-' and '_' are among them, whatever counts as alphanumeric beyond ASCII. */
  lemma SanitizeClean(id: Id, alnum: char -> bool)
    requires Clean(id)
    ensures Stable(id, alnum) && Sanitize(id, alnum) == id
  {
    SanitizeExact(id, alnum);
  }

  lemma ChunkIdClean(fileId: Id, i: nat)
    requires Clean(fileId)
    ensures Clean(ChunkId(fileId, i))
  {
    DigitsRead(i);
  }

  /** Every id shares its file name with its sanitised form, so two ids collide as soon as one of them is not stable. */
  lemma SanitizeCollides(id: Id, alnum: char -> bool)
    ensures Sanitize(Sanitize(id, alnum), alnum) == Sanitize(id, alnum)
    ensures !Stable(id, alnum) <==> Sanitize(id, alnum) != id
    ensures id + "." != id && Sanitize(id + ".", alnum) == Sanitize(id, alnum)
  {
    FilterAppend(id, ".", c => Kept(c, alnum));
    assert Sanitize(".", alnum) == "";
    var p := c => Kept(c, alnum);
    forall c | c in Sanitize(id, alnum) ensures Kept(c, alnum) {
      FilterIn(id, p, c);
    }
    SanitizeExact(Sanitize(id, alnum), alnum);
    SanitizeExact(id, alnum);
  }

  /** Two ids land on one file exactly when they sanitise alike; on stable ids, only when they are the same. */
  lemma StableIdsDiffer(a: Id, b: Id, alnum: char -> bool)
    requires Stable(a, alnum) && Stable(b, alnum)
    ensures Sanitize(a, alnum) == Sanitize(b, alnum) <==> a == b
  {
    SanitizeExact(a, alnum);
    SanitizeExact(b, alnum);
  }
}
