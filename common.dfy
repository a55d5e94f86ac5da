/** Optional values and results with an error message, shared by the other modules. */
module Common {

  datatype Option<+T> = None | Some(value: T)

  datatype Result<+T> = Success(value: T) | Failure(error: string)

  function Min(a: int, b: int): (m: int)
    ensures m <= a && m <= b && (m == a || m == b)
  {
    if a <= b then a else b
  }

  // Facts about sequence concatenation that the string-building proofs use.

  lemma AppendAssociative<T>(a: seq<T>, b: seq<T>, c: seq<T>)
    ensures (a + b) + c == a + (b + c)
  {
  }

  predicate IsPrefix<T(==)>(a: seq<T>, b: seq<T>) {
    |a| <= |b| && b[..|a|] == a
  }

  lemma PrefixOfAppend<T>(a: seq<T>, b: seq<T>)
    ensures IsPrefix(a, a + b)
  {
  }

  lemma PrefixTransitive<T>(a: seq<T>, b: seq<T>, c: seq<T>)
    requires IsPrefix(a, b) && IsPrefix(b, c)
    ensures IsPrefix(a, c)
  {
    assert c[..|a|] == c[..|b|][..|a|];
  }

  lemma SliceAfterPrefix<T>(a: seq<T>, b: seq<T>, c: seq<T>)
    requires IsPrefix(a + b, c)
    ensures c[|a|..|a| + |b|] == b
  {
    assert c[|a|..|a| + |b|] == c[..|a| + |b|][|a|..];
  }

  /** The number of occurrences of `x` in `s`. */
  function Count<T(==)>(s: seq<T>, x: T): nat {
    if s == [] then 0
    else Count(s[..|s| - 1], x) + (if s[|s| - 1] == x then 1 else 0)
  }

  lemma {:induction false} CountAppend<T>(a: seq<T>, b: seq<T>, x: T)
    ensures Count(a + b, x) == Count(a, x) + Count(b, x)
  {
    if b == [] {
      assert a + b == a;
    } else {
      assert (a + b)[..|a + b| - 1] == a + b[..|b| - 1];
      CountAppend(a, b[..|b| - 1], x);
    }
  }

  lemma {:induction false} CountAbsent<T>(s: seq<T>, x: T)
    requires x !in s
    ensures Count(s, x) == 0
  {
    if s != [] {
      assert x !in s[..|s| - 1];
      CountAbsent(s[..|s| - 1], x);
    }
  }

  lemma PrefixAppendBoth<T>(h: seq<T>, a: seq<T>, b: seq<T>)
    requires IsPrefix(a, b)
    ensures IsPrefix(h + a, h + b)
  {
    assert (h + b)[..|h + a|] == h + b[..|a|];
  }

  lemma PrefixReflexive<T>(a: seq<T>)
    ensures IsPrefix(a, a)
  {
    assert a[..|a|] == a;
  }

  /** The part `item` of `doc = h + whole`, read back at its offset when `done + item` starts `whole`. */
  lemma SliceOfPrefix<T>(doc: seq<T>, h: seq<T>, whole: seq<T>, done: seq<T>, item: seq<T>, i: nat, j: nat)
    requires IsPrefix(done + item, whole) && doc == h + whole
    requires i == |h| + |done| && j == |h| + |done + item|
    ensures i + |item| == j <= |doc|
    ensures doc[i..j] == item
  {
    PrefixAppendBoth(h, done + item, whole);
    AppendAssociative(h, done, item);
    SliceAfterPrefix(h + done, item, doc);
  }

  lemma CountOfParts<T>(s: seq<T>, a: seq<T>, b: seq<T>, c: seq<T>, x: T)
    requires s == a + b + c
    ensures Count(s, x) == Count(a, x) + Count(b, x) + Count(c, x)
  {
    CountAppend(a, b, x);
    CountAppend(a + b, c, x);
  }

  lemma CountOfSplit<T>(s: seq<T>, a: seq<T>, b: seq<T>, x: T)
    requires s == a + b
    ensures Count(s, x) == Count(a, x) + Count(b, x)
  {
    CountAppend(a, b, x);
  }

  lemma CountAfterAbsent<T>(s: seq<T>, a: seq<T>, b: seq<T>, x: T)
    requires s == a + b && x !in a
    ensures Count(s, x) == Count(b, x)
  {
    CountAppend(a, b, x);
    CountAbsent(a, x);
  }

  lemma SplitAppend<T>(s: seq<T>, a: seq<T>, b: seq<T>)
    requires s == a + b
    ensures |a| <= |s| && s[..|a|] == a && s[|a|..] == b
  {
  }
}
