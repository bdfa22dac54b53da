/**
 * The two ways the catalog is ordered: Python's `random.shuffle` and
 * `sorted(..., key=...)` with Python's string comparison.
 */
module ListOrder {

  /** s with positions i and j exchanged. */
  function Swap<T>(s: seq<T>, i: nat, j: nat): (r: seq<T>)
    requires i < |s| && j < |s|
    ensures |r| == |s|
  {
    s[i := s[j]][j := s[i]]
  }

  /** Exchanging two positions moves those two elements and keeps the rest. */
  lemma SwapPermutes<T>(s: seq<T>, i: nat, j: nat)
    requires i < |s| && j < |s|
    ensures var r := Swap(s, i, j);
      && r[i] == s[j] && r[j] == s[i]
      && (forall k :: 0 <= k < |s| && k != i && k != j ==> r[k] == s[k])
      && multiset(r) == multiset(s)
  {
  }

  /** x reduced modulo n, by repeated subtraction. */
  function Reduce(x: nat, n: nat): (r: nat)
    requires n > 0
    ensures r < n
    decreases x
  {
    if x < n then x else Reduce(x - n, n)
  }

  /**
   * `random.shuffle`: for i from |s|-1 down to 1 it draws j in [0, i] and
   * swaps positions i and j, in place. The random numbers are the `draws`,
   * the k-th of them used by the k-th swap and reduced modulo i+1; a
   * missing draw is 0.
   */
  function Shuffle<T>(s: seq<T>, draws: seq<nat>): (r: seq<T>)
    ensures |r| == |s|
  {
    if s == [] then s else ShuffleDown(s, draws, |s| - 1)
  }

  /** The swaps for positions i down to 1. */
  function ShuffleDown<T>(s: seq<T>, draws: seq<nat>, i: nat): (r: seq<T>)
    requires i < |s|
    ensures |r| == |s|
    decreases i
  {
    if i == 0 then s
    else
      var k := |s| - 1 - i;
      var j := Reduce(if k < |draws| then draws[k] else 0, i + 1);
      ShuffleDown(Swap(s, i, j), draws, i - 1)
  }

  lemma {:induction false} ShuffleDownPermutes<T>(s: seq<T>, draws: seq<nat>, i: nat)
    requires i < |s|
    ensures multiset(ShuffleDown(s, draws, i)) == multiset(s)
    decreases i
  {
    if i > 0 {
      var k := |s| - 1 - i;
      var j := Reduce(if k < |draws| then draws[k] else 0, i + 1);
      SwapPermutes(s, i, j);
      ShuffleDownPermutes(Swap(s, i, j), draws, i - 1);
    }
  }

  /** Whatever the draws, a shuffle is a permutation. */
  lemma ShufflePermutes<T>(s: seq<T>, draws: seq<nat>)
    ensures multiset(Shuffle(s, draws)) == multiset(s)
  {
    if s != [] {
      ShuffleDownPermutes(s, draws, |s| - 1);
    }
  }

  /** Python's `<=` on `str`: lexicographic by code point, a prefix first. */
  predicate TextLessEq(a: string, b: string)
  {
    if a == [] then true
    else if b == [] then false
    else if a[0] != b[0] then a[0] < b[0]
    else TextLessEq(a[1..], b[1..])
  }

  lemma {:induction false} TextLessEqTotal(a: string, b: string)
    ensures TextLessEq(a, b) || TextLessEq(b, a)
  {
    if a != [] && b != [] && a[0] == b[0] {
      TextLessEqTotal(a[1..], b[1..]);
    }
  }

  lemma {:induction false} TextLessEqTransitive(a: string, b: string, c: string)
    requires TextLessEq(a, b) && TextLessEq(b, c)
    ensures TextLessEq(a, c)
  {
    if a != [] && b != [] && c != [] && a[0] == b[0] && b[0] == c[0] {
      TextLessEqTransitive(a[1..], b[1..], c[1..]);
    }
  }

  lemma {:induction false} TextLessEqAntisymmetric(a: string, b: string)
    requires TextLessEq(a, b) && TextLessEq(b, a)
    ensures a == b
  {
    if a != [] && b != [] {
      TextLessEqAntisymmetric(a[1..], b[1..]);
      assert a == [a[0]] + a[1..];
      assert b == [b[0]] + b[1..];
    }
  }

  /** Every neighbour pair is in order of its key. */
  ghost predicate SortedBy(s: seq<string>, key: string -> string)
  {
    forall k :: 0 < k < |s| ==> TextLessEq(key(s[k - 1]), key(s[k]))
  }

  /** Puts x before the first element whose key is not below x's, so that it stays ahead of its equals. */
  function Insert(x: string, s: seq<string>, key: string -> string): (r: seq<string>)
    requires SortedBy(s, key)
    ensures SortedBy(r, key) && multiset(r) == multiset(s) + multiset{x}
    ensures |r| > 0 && (r[0] == x || (s != [] && r[0] == s[0]))
  {
    if s == [] || TextLessEq(key(x), key(s[0])) then [x] + s
    else
      TextLessEqTotal(key(x), key(s[0]));
      var rest := Insert(x, s[1..], key);
      assert s == [s[0]] + s[1..];
      [s[0]] + rest
  }

  /** `sorted(s, key=key)`. */
  function SortBy(s: seq<string>, key: string -> string): (r: seq<string>)
    ensures SortedBy(r, key) && multiset(r) == multiset(s)
  {
    if s == [] then []
    else
      assert s == [s[0]] + s[1..];
      Insert(s[0], SortBy(s[1..], key), key)
  }
}
