/** Sequence helpers shared by the model: Swift's `firstIndex(of:)`, a run of
    one repeated element, occurrence counts and duplicate-freedom. */
module Sequences {

  /** Index of the first occurrence of `x` in `s`, or `|s|` when there is none
      (Swift's `firstIndex(of:)`, with `|s|` standing for nil). */
  function FirstIndexOf<T(==)>(s: seq<T>, x: T): (k: nat)
    ensures k <= |s|
    ensures forall i :: 0 <= i < k ==> s[i] != x
    ensures k < |s| ==> s[k] == x
    ensures k == |s| <==> x !in s
  {
    if s == [] then 0
    else if s[0] == x then 0
    else 1 + FirstIndexOf(s[1..], x)
  }

  /** `n` copies of `x`. */
  function Repeat<T>(x: T, n: nat): (r: seq<T>)
    ensures |r| == n
    ensures forall i :: 0 <= i < n ==> r[i] == x
  {
    if n == 0 then [] else [x] + Repeat(x, n - 1)
  }

  /** Number of occurrences of `x` in `s`. */
  function Count<T(==)>(s: seq<T>, x: T): (n: nat)
    ensures n <= |s|
    ensures n == 0 <==> x !in s
  {
    if s == [] then 0
    else (if s[0] == x then 1 else 0) + Count(s[1..], x)
  }

  /** Counting distributes over concatenation. */
  lemma {:induction false} CountConcat<T>(s: seq<T>, t: seq<T>, x: T)
    ensures Count(s + t, x) == Count(s, x) + Count(t, x)
  {
    if s != [] {
      CountConcat(s[1..], t, x);
      assert (s + t)[1..] == s[1..] + t;
    } else {
      assert s + t == t;
    }
  }

  lemma {:induction false} RepeatCount<T>(x: T, n: nat, y: T)
    ensures Count(Repeat(x, n), y) == if x == y then n else 0
  {
    if n > 0 {
      RepeatCount(x, n - 1, y);
      assert Repeat(x, n)[1..] == Repeat(x, n - 1);
    }
  }

  predicate NoDuplicates<T(==)>(s: seq<T>) {
    forall i, j :: 0 <= i < j < |s| ==> s[i] != s[j]
  }

  /** Removing the first occurrence of `x` takes exactly one `x` out of the
      sequence and leaves the count of every other element alone. */
  lemma RemoveFirstOccurrence<T>(s: seq<T>, x: T, y: T)
    requires x in s
    ensures var k := FirstIndexOf(s, x);
      Count(s[..k] + s[k + 1..], y) == Count(s, y) - (if y == x then 1 else 0)
  {
    var k := FirstIndexOf(s, x);
    var before, after := s[..k], s[k + 1..];
    assert s == before + [x] + after;
    CountConcat(before + [x], after, y);
    CountConcat(before, [x], y);
    CountConcat(before, after, y);
    assert [x][1..] == [];
  }

  /** Removing the first occurrence of `x` from a duplicate-free sequence
      leaves it duplicate-free, with `x` gone. */
  lemma RemoveFirstOccurrenceNoDuplicates<T>(s: seq<T>, x: T)
    requires x in s && NoDuplicates(s)
    ensures var k := FirstIndexOf(s, x);
      NoDuplicates(s[..k] + s[k + 1..]) && x !in s[..k] + s[k + 1..]
  {
    var k := FirstIndexOf(s, x);
    var r := s[..k] + s[k + 1..];
    forall i, j | 0 <= i < j < |r| ensures r[i] != r[j] {
      var i' := if i < k then i else i + 1;
      var j' := if j < k then j else j + 1;
      assert r[i] == s[i'] && r[j] == s[j'];
    }
    forall i | 0 <= i < |r| ensures r[i] != x {
      var i' := if i < k then i else i + 1;
      assert r[i] == s[i'] && i' != k;
    }
  }
}
