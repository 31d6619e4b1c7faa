/**
  The shuffler of shuffleplay: `4 * n` random transpositions applied in
  place to the array of song names.

  The random source is not modelled: each step is given as a `Roll`, the
  pair of raw values the two `rand()` calls of that step return.  `rand()`
  never returns a negative number, so the slot it picks is `roll % n`,
  and Dafny's `%` agrees with C's on these operands.
*/
module Shuffle {

  /** The two raw `rand()` results drawn by one transposition step. */
  type Roll = (nat, nat)

  /** `s` with the entries at `j` and `k` exchanged (nothing changes when `j == k`). */
  function Swap<T>(s: seq<T>, j: nat, k: nat): seq<T>
    requires j < |s| && k < |s|
  {
    s[j := s[k]][k := s[j]]
  }

  /** A transposition moves two entries and keeps the multiset of entries. */
  lemma SwapPermutes<T>(s: seq<T>, j: nat, k: nat)
    requires j < |s| && k < |s|
    ensures |Swap(s, j, k)| == |s| && Swap(s, j, k)[j] == s[k] && Swap(s, j, k)[k] == s[j]
    ensures forall m :: 0 <= m < |s| && m != j && m != k ==> Swap(s, j, k)[m] == s[m]
    ensures multiset(Swap(s, j, k)) == multiset(s)
  {
  }

  /**
    The order of `s` after the transposition steps chosen by `rolls`,
    applied first to last.  With no entries there can be no step, since
    each step reduces its rolls modulo the length.
  */
  function Shuffled<T>(s: seq<T>, rolls: seq<Roll>): (r: seq<T>)
    requires |s| > 0 || rolls == []
    ensures |r| == |s|
    decreases |rolls|
  {
    if rolls == [] then s
    else
      var t := Shuffled(s, rolls[..|rolls| - 1]);
      var roll := rolls[|rolls| - 1];
      Swap(t, roll.0 % |s|, roll.1 % |s|)
  }

  /** Shuffling loses, adds and duplicates nothing: the result is a permutation of the input. */
  lemma {:induction false} ShuffledPermutes<T>(s: seq<T>, rolls: seq<Roll>)
    requires |s| > 0 || rolls == []
    ensures multiset(Shuffled(s, rolls)) == multiset(s)
    decreases |rolls|
  {
    if rolls != [] {
      var t := Shuffled(s, rolls[..|rolls| - 1]);
      var roll := rolls[|rolls| - 1];
      ShuffledPermutes(s, rolls[..|rolls| - 1]);
      SwapPermutes(t, roll.0 % |s|, roll.1 % |s|);
    }
  }

  /** One transposition step: exchange two slots through a temporary. */
  method Exchange<T>(a: array<T>, j: nat, k: nat)
    requires j < a.Length && k < a.Length
    modifies a
    ensures a[..] == Swap(old(a[..]), j, k)
  {
    var t := a[j];
    a[j] := a[k];
    a[k] := t;
  }

  /**
    The C `shuffle`: exactly `4 * a.Length` steps, each drawing two
    slots and exchanging them through a temporary.  An empty array takes no
    step, so the modulo by zero is never evaluated.
  */
  method Shuffle<T>(a: array<T>, rolls: seq<Roll>)
    requires |rolls| == 4 * a.Length
    modifies a
    ensures a[..] == Shuffled(old(a[..]), rolls)
    ensures multiset(a[..]) == multiset(old(a[..]))
  {
    var n := a.Length;
    var i := 0;
    while i < 4 * n
      invariant 0 <= i <= 4 * n
      invariant a[..] == Shuffled(old(a[..]), rolls[..i])
    {
      var j, k := rolls[i].0 % n, rolls[i].1 % n;
      Exchange(a, j, k);
      assert rolls[..i + 1][..i] == rolls[..i];
      i := i + 1;
    }
    assert rolls[..4 * n] == rolls;
    ShuffledPermutes(old(a[..]), rolls);
  }
}
