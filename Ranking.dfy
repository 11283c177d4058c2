/**
 * The top-channel rankings of commands/vcstats.js (by time) and
 * commands/messagestats.js (by count): `sort((a, b) => key(b) - key(a))`,
 * `slice(0, 5)`, and a medal per rank. Array.prototype.sort is stable, so
 * entries with equal keys keep their order; the insertion sort below is
 * stable for the same reason (an element goes before the first element with
 * a smaller key only).
 */
module Ranking {
  import opened JsText

  const TopCount: nat := 5

  predicate SortedDesc<T>(s: seq<T>, key: T -> int)
  {
    forall i, j :: 0 <= i < j < |s| ==> key(s[i]) >= key(s[j])
  }

  /** Puts `x` before the first element with a smaller key. */
  function Insert<T>(x: T, s: seq<T>, key: T -> int): (r: seq<T>)
    ensures |r| == |s| + 1
    ensures multiset(r) == multiset(s) + multiset{x}
  {
    if s == [] then [x]
    else if key(x) >= key(s[0]) then [x] + s
    else
      assert s == [s[0]] + s[1..];
      [s[0]] + Insert(x, s[1..], key)
  }

  lemma {:induction false} InsertSorted<T>(x: T, s: seq<T>, key: T -> int)
    requires SortedDesc(s, key)
    ensures SortedDesc(Insert(x, s, key), key)
  {
    if s != [] && key(x) < key(s[0]) {
      var rest := Insert(x, s[1..], key);
      InsertSorted(x, s[1..], key);
      forall i | 0 <= i < |rest| ensures key(rest[i]) <= key(s[0]) {
        assert rest[i] in multiset(rest);
        assert rest[i] == x || rest[i] in multiset(s[1..]);
      }
      assert Insert(x, s, key) == [s[0]] + rest;
    }
  }

  /** The stable descending sort. */
  function SortDesc<T>(s: seq<T>, key: T -> int): (r: seq<T>)
    ensures SortedDesc(r, key)
    ensures multiset(r) == multiset(s)
    ensures |r| == |s|
  {
    if s == [] then []
    else
      assert s == [s[0]] + s[1..];
      InsertSorted(s[0], SortDesc(s[1..], key), key);
      Insert(s[0], SortDesc(s[1..], key), key)
  }

  /** Sorting what is already in order changes nothing. */
  lemma {:induction false} SortDescSorted<T>(s: seq<T>, key: T -> int)
    requires SortedDesc(s, key)
    ensures SortDesc(s, key) == s
  {
    if s != [] {
      assert SortedDesc(s[1..], key);
      SortDescSorted(s[1..], key);
      assert s == [s[0]] + s[1..];
    }
  }

  /** The first `n` of the sorted entries (all of them when there are fewer). */
  function TopN<T>(s: seq<T>, key: T -> int, n: nat): (r: seq<T>)
    ensures |r| == if |s| < n then |s| else n
  {
    var sorted := SortDesc(s, key);
    if |sorted| <= n then sorted else sorted[..n]
  }

  /** The first five. */
  function Top<T>(s: seq<T>, key: T -> int): (r: seq<T>)
    ensures |r| == if |s| < TopCount then |s| else TopCount
  {
    TopN(s, key, TopCount)
  }

  /**
   * The kept entries are in descending order, each one is an entry of the
   * input, and no entry left out has a larger key than one kept.
   */
  lemma TopNIsTop<T>(s: seq<T>, key: T -> int, n: nat)
    ensures SortedDesc(TopN(s, key, n), key)
    ensures multiset(TopN(s, key, n)) <= multiset(s)
    ensures forall x :: x in multiset(s) - multiset(TopN(s, key, n)) ==>
      forall i :: 0 <= i < |TopN(s, key, n)| ==> key(x) <= key(TopN(s, key, n)[i])
    ensures |s| <= n ==> multiset(TopN(s, key, n)) == multiset(s)
  {
    var sorted := SortDesc(s, key);
    var top := TopN(s, key, n);
    var rest := sorted[|top|..];
    assert sorted == top + rest;
    assert multiset(sorted) == multiset(top) + multiset(rest);
    PrefixBeatsRest(top, rest, key);
  }

  /** An entry of the input that is not kept has no larger key than any entry kept. */
  lemma TopNOmitted<T>(s: seq<T>, key: T -> int, n: nat, x: T)
    requires x in s && x !in TopN(s, key, n)
    ensures forall i :: 0 <= i < |TopN(s, key, n)| ==> key(x) <= key(TopN(s, key, n)[i])
  {
    TopNIsTop(s, key, n);
    assert x in multiset(s) && x !in multiset(TopN(s, key, n));
  }

  /** In a sequence sorted in descending order, everything after a prefix is no larger than anything in it. */
  lemma PrefixBeatsRest<T>(top: seq<T>, rest: seq<T>, key: T -> int)
    requires SortedDesc(top + rest, key)
    ensures forall x :: x in multiset(rest) ==> forall i :: 0 <= i < |top| ==> key(x) <= key(top[i])
  {
    forall x | x in multiset(rest) ensures forall i :: 0 <= i < |top| ==> key(x) <= key(top[i]) {
      var j :| 0 <= j < |rest| && rest[j] == x;
      assert (top + rest)[|top| + j] == x;
      forall i | 0 <= i < |top| ensures key(x) <= key(top[i]) {
        assert (top + rest)[i] == top[i];
      }
    }
  }

  /** The same, for the first five. */
  lemma TopIsTop<T>(s: seq<T>, key: T -> int)
    ensures SortedDesc(Top(s, key), key)
    ensures multiset(Top(s, key)) <= multiset(s)
    ensures forall x :: x in multiset(s) - multiset(Top(s, key)) ==>
      forall i :: 0 <= i < |Top(s, key)| ==> key(x) <= key(Top(s, key)[i])
    ensures |s| <= TopCount ==> multiset(Top(s, key)) == multiset(s)
  {
    TopNIsTop(s, key, TopCount);
  }

  /** 🥇 🥈 🥉 for the first three ranks, ▪️ after. */
  function Medal(rank: nat): Text
  {
    if rank == 0 then Utf16("🥇")
    else if rank == 1 then Utf16("🥈")
    else if rank == 2 then Utf16("🥉")
    else Utf16("▪️")
  }

  /** Each rank shown gets its own medal, and the medals are not empty. */
  lemma MedalsDistinct()
    ensures Medal(0) != Medal(1) && Medal(0) != Medal(2) && Medal(1) != Medal(2)
    ensures forall r: nat :: r >= 3 ==> Medal(r) == Medal(3)
    ensures forall r: nat :: Medal(r) != []
  {
    assert Medal(0) == [0xD83E, 0xDD47];
    assert Medal(1) == [0xD83E, 0xDD48];
    assert Medal(2) == [0xD83E, 0xDD49];
    assert Medal(3) == [0x25AA, 0xFE0F];
  }
}
