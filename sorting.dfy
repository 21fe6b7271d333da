/**
 * `Array.prototype.sort` with a comparator `(a, b) => key(b) - key(a)`:
 * a stable sort into non-increasing order of a real-valued key.
 */
module Sorting {

  /** Every element's key is at least the key of every later element. */
  ghost predicate SortedDesc<T>(s: seq<T>, key: T -> real)
  {
    forall i, j :: 0 <= i < j < |s| ==> key(s[i]) >= key(s[j])
  }

  /** Sum of the keys of `s`, from the front. */
  function SumBy<T>(s: seq<T>, key: T -> real): real
  {
    if s == [] then 0.0 else key(s[0]) + SumBy(s[1..], key)
  }

  /**
   * Inserts `x` into a sorted sequence in front of the first element whose key
   * does not exceed key(x); elements with an equal key that came from later in
   * the input therefore stay behind `x`.
   */
  function Insert<T>(x: T, s: seq<T>, key: T -> real): (r: seq<T>)
    requires SortedDesc(s, key)
    ensures |r| == |s| + 1
    ensures multiset(r) == multiset(s) + multiset{x}
    ensures SortedDesc(r, key)
    ensures SumBy(r, key) == key(x) + SumBy(s, key)
  {
    if s == [] || key(x) >= key(s[0]) then
      PrependKeepsSorted(x, s, key);
      [x] + s
    else
      TailStaysSorted(s, key);
      var rest := Insert(x, s[1..], key);
      InsertBehindHead(x, s, rest, key);
      [s[0]] + rest
  }

  /** The recursive case of `Insert`: the head stays in front of the insertion into the tail. */
  lemma {:induction false} InsertBehindHead<T>(x: T, s: seq<T>, rest: seq<T>, key: T -> real)
    requires SortedDesc(s, key) && s != [] && key(x) < key(s[0])
    requires multiset(rest) == multiset(s[1..]) + multiset{x} && SortedDesc(rest, key)
    requires SumBy(rest, key) == key(x) + SumBy(s[1..], key)
    ensures multiset([s[0]] + rest) == multiset(s) + multiset{x}
    ensures SortedDesc([s[0]] + rest, key)
    ensures SumBy([s[0]] + rest, key) == key(x) + SumBy(s, key)
  {
    assert s == [s[0]] + s[1..];
    assert ([s[0]] + rest)[1..] == rest;
    HeadStaysFirst(s[0], s[1..], x, rest, key);
  }

  lemma {:induction false} TailStaysSorted<T>(s: seq<T>, key: T -> real)
    requires SortedDesc(s, key) && s != []
    ensures SortedDesc(s[1..], key)
  {
    forall i, j | 0 <= i < j < |s| - 1
      ensures key(s[1..][i]) >= key(s[1..][j])
    {
      assert s[1..][i] == s[i + 1] && s[1..][j] == s[j + 1];
    }
  }

  /** An element whose key is at least that of the head of a sorted sequence can go first. */
  lemma {:induction false} PrependKeepsSorted<T>(x: T, s: seq<T>, key: T -> real)
    requires SortedDesc(s, key)
    requires s == [] || key(x) >= key(s[0])
    ensures SortedDesc([x] + s, key)
  {
    var r := [x] + s;
    forall i, j | 0 <= i < j < |r|
      ensures key(r[i]) >= key(r[j])
    {
      assert r[j] == s[j - 1];
      if i == 0 {
        assert key(s[0]) >= key(s[j - 1]) || j == 1;
      } else {
        assert r[i] == s[i - 1];
      }
    }
  }

  /** An element ahead of a sorted sequence, and with a larger key than `x`, stays ahead
      of that sequence with `x` inserted. */
  lemma {:induction false} HeadStaysFirst<T>(h: T, tail: seq<T>, x: T, rest: seq<T>, key: T -> real)
    requires SortedDesc([h] + tail, key) && SortedDesc(rest, key)
    requires multiset(rest) == multiset(tail) + multiset{x}
    requires key(x) < key(h)
    ensures SortedDesc([h] + rest, key)
  {
    forall j | 0 <= j < |rest|
      ensures key(h) >= key(rest[j])
    {
      assert rest[j] in multiset(rest);
      if rest[j] != x {
        assert rest[j] in multiset(tail);
        var m :| 0 <= m < |tail| && tail[m] == rest[j];
        assert ([h] + tail)[0] == h && ([h] + tail)[m + 1] == tail[m];
      }
    }
    var r := [h] + rest;
    forall i, j | 0 <= i < j < |r|
      ensures key(r[i]) >= key(r[j])
    {
      assert r[j] == rest[j - 1];
      if i > 0 {
        assert r[i] == rest[i - 1];
      }
    }
  }

  /** The stable descending sort: the result is sorted and a permutation of `s`. */
  function SortDesc<T>(s: seq<T>, key: T -> real): (r: seq<T>)
    ensures |r| == |s|
    ensures multiset(r) == multiset(s)
    ensures SortedDesc(r, key)
    ensures SumBy(r, key) == SumBy(s, key)
  {
    if s == [] then []
    else
      assert s == [s[0]] + s[1..];
      Insert(s[0], SortDesc(s[1..], key), key)
  }

  /** An element of a sorted sequence that is not in its first `m` entries has a key
      no larger than the last of them. */
  lemma {:induction false} BeyondPrefixIsNoGreater<T>(s: seq<T>, key: T -> real, m: nat, x: T)
    requires SortedDesc(s, key)
    requires 0 < m <= |s|
    requires x in s && x !in s[..m]
    ensures key(x) <= key(s[m - 1])
  {
    var j :| 0 <= j < |s| && s[j] == x;
    assert m <= j;
  }

  /** An entry whose key no other entry shares occurs once. */
  lemma {:induction false} OccursOnceByKey<T>(c: seq<T>, key: T -> real, l: nat)
    requires l < |c|
    requires forall i :: 0 <= i < |c| && i != l ==> key(c[i]) != key(c[l])
    ensures multiset(c)[c[l]] == 1
  {
    var rest := c[..l] + c[l + 1..];
    assert c == c[..l] + [c[l]] + c[l + 1..];
    assert multiset(c) == multiset(rest) + multiset{c[l]};
  }

  /** An entry found at two positions occurs at least twice. */
  lemma {:induction false} OccursTwice<T>(t: seq<T>, a: nat, b: nat)
    requires a < b < |t| && t[a] == t[b]
    ensures multiset(t)[t[a]] >= 2
  {
    assert t == t[..a] + [t[a]] + t[a + 1..b] + [t[b]] + t[b + 1..];
  }

  /** If one entry of `c` has a strictly larger key than all others, a sorted permutation
      of `c` starts with it and holds it nowhere else. */
  lemma {:induction false} UniqueMaximumFirst<T>(c: seq<T>, t: seq<T>, key: T -> real, l: nat)
    requires multiset(t) == multiset(c) && SortedDesc(t, key)
    requires l < |c|
    requires forall i :: 0 <= i < |c| && i != l ==> key(c[i]) < key(c[l])
    ensures |t| == |c| && t[0] == c[l]
    ensures forall k :: 1 <= k < |t| ==> exists i :: 0 <= i < |c| && i != l && t[k] == c[i]
  {
    assert |t| == |multiset(t)| == |multiset(c)| == |c|;
    OccursOnceByKey(c, key, l);
    assert c[l] in multiset(t);
    var kl :| 0 <= kl < |t| && t[kl] == c[l];
    forall k | 0 <= k < |t| && k != kl
      ensures exists i :: 0 <= i < |c| && i != l && t[k] == c[i]
    {
      assert t[k] in multiset(c);
      var i :| 0 <= i < |c| && c[i] == t[k];
      if i == l {
        if k < kl { OccursTwice(t, k, kl); } else { OccursTwice(t, kl, k); }
        assert false;
      }
    }
  }
}
