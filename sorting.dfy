/**
 * Python's `sorted(xs, key=...)` on string keys, and enumerations of a set in some order
 * (the order in which a directory happens to be read).
 */
module Sorting {
  import opened Strings

  /** `s` is in non-decreasing order of `key`. */
  ghost predicate SortedBy<T>(s: seq<T>, key: T -> string) {
    forall i, j :: 0 <= i < j < |s| ==> NotAfter(key(s[i]), key(s[j]))
  }

  function InsertBy<T>(x: T, s: seq<T>, key: T -> string): (r: seq<T>)
    ensures multiset(r) == multiset(s) + multiset{x}
  {
    if s == [] || NotAfter(key(x), key(s[0])) then [x] + s
    else
      assert s == [s[0]] + s[1..];
      [s[0]] + InsertBy(x, s[1..], key)
  }

  /** `sorted(s, key=key)`: an insertion sort that keeps equal keys in their original order. */
  function SortBy<T>(s: seq<T>, key: T -> string): seq<T> {
    if s == [] then [] else InsertBy(s[0], SortBy(s[1..], key), key)
  }

  lemma {:induction false} InsertKeepsSorted<T>(x: T, s: seq<T>, key: T -> string)
    requires SortedBy(s, key)
    ensures SortedBy(InsertBy(x, s, key), key)
  {
    if s == [] {
    } else if NotAfter(key(x), key(s[0])) {
      var r := [x] + s;
      forall i, j | 0 <= i < j < |r| ensures NotAfter(key(r[i]), key(r[j])) {
        if i == 0 && j > 1 {
          NotAfterTransitive(key(x), key(s[0]), key(s[j - 1]));
        }
      }
    } else {
      var t := InsertBy(x, s[1..], key);
      InsertKeepsSorted(x, s[1..], key);
      NotAfterTotal(key(x), key(s[0]));
      forall j | 0 <= j < |t| ensures NotAfter(key(s[0]), key(t[j])) {
        assert t[j] in multiset(t);
        if t[j] != x {
          assert t[j] in multiset(s[1..]);
          var k :| 0 <= k < |s[1..]| && s[1..][k] == t[j];
          assert s[1..][k] == s[k + 1];
        }
      }
      var r := [s[0]] + t;
      forall i, j | 0 <= i < j < |r| ensures NotAfter(key(r[i]), key(r[j])) {
        if i > 0 {
          assert r[i] == t[i - 1] && r[j] == t[j - 1];
        }
      }
    }
  }

  /** What `sorted` returns is in order of the key. */
  lemma {:induction false} SortBySorted<T>(s: seq<T>, key: T -> string)
    ensures SortedBy(SortBy(s, key), key)
  {
    if s != [] {
      SortBySorted(s[1..], key);
      InsertKeepsSorted(s[0], SortBy(s[1..], key), key);
    }
  }

  /** What `sorted` returns holds exactly the elements it was given, duplicates included. */
  lemma {:induction false} SortByPermutes<T>(s: seq<T>, key: T -> string)
    ensures multiset(SortBy(s, key)) == multiset(s)
  {
    if s != [] {
      SortByPermutes(s[1..], key);
      assert s == [s[0]] + s[1..];
    }
  }

  /** `order` lists the members of `s`, each exactly once. */
  ghost predicate Enumerates<T>(order: seq<T>, s: set<T>) {
    && (forall i, j :: 0 <= i < j < |order| ==> order[i] != order[j])
    && (set x | x in order) == s
  }

  /** Taking `x` out of the set still to visit: when `x` counts, it is enumerated next. */
  lemma EnumeratesStep<T>(order: seq<T>, all: set<T>, remaining: set<T>, x: T)
    requires Enumerates(order, all - remaining) && x in remaining
    requires forall i :: 0 <= i < |order| ==> order[i] in all
    ensures x in all ==> Enumerates(order + [x], all - (remaining - {x}))
    ensures x in all ==> forall i :: 0 <= i < |order + [x]| ==> (order + [x])[i] in all
    ensures x !in all ==> Enumerates(order, all - (remaining - {x}))
  {
    assert x !in all - remaining;
    if x in all {
      assert all - (remaining - {x}) == (all - remaining) + {x};
      var o := order + [x];
      assert forall i :: 0 <= i < |order| ==> o[i] == order[i];
      assert (set y | y in o) == (set y | y in order) + {x};
    } else {
      assert all - (remaining - {x}) == all - remaining;
    }
  }

  lemma {:induction false} EnumerationSize<T>(order: seq<T>, s: set<T>)
    requires Enumerates(order, s)
    ensures |order| == |s|
  {
    if order != [] {
      var rest := order[1..];
      assert Enumerates(rest, s - {order[0]}) by {
        forall x | x in rest ensures x != order[0] {
          var k :| 0 <= k < |rest| && rest[k] == x;
          assert order[k + 1] == x;
        }
        assert (set x | x in rest) == s - {order[0]};
      }
      EnumerationSize(rest, s - {order[0]});
    }
  }
}
