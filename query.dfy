/** The part of a document-store query the route handlers depend on: select the documents of a
    collection that match a filter, in natural (insertion) order, then sort them on one key and
    optionally keep the first `k`. A collection is a map from document id to document; ids are
    handed out in increasing order, so ascending id order is insertion order. */
module Query {

  type Id = nat

  /** Every id of `m` was handed out before `n`. */
  predicate IdsBelow<T>(m: map<Id, T>, n: nat) {
    forall k :: k in m ==> k < n
  }

  /** The documents with id below `n` that satisfy `p`, in ascending id order. */
  function Scan<T(!new)>(m: map<Id, T>, p: T -> bool, n: nat): (r: seq<(Id, T)>)
    ensures forall x :: x in r <==> x.0 < n && x.0 in m && m[x.0] == x.1 && p(x.1)
    ensures forall i, j :: 0 <= i < j < |r| ==> r[i].0 < r[j].0
  {
    if n == 0 then []
    else Scan(m, p, n - 1) + (if n - 1 in m && p(m[n - 1]) then [(n - 1, m[n - 1])] else [])
  }

  /** Ascending on `key` (a descending order is asked for with a negated key). */
  predicate SortedOn<T>(s: seq<(Id, T)>, key: T -> int) {
    forall i, j :: 0 <= i < j < |s| ==> key(s[i].1) <= key(s[j].1)
  }

  /** No document appears twice. */
  predicate DistinctIds<T>(s: seq<(Id, T)>) {
    forall i, j :: 0 <= i < j < |s| ==> s[i].0 != s[j].0
  }

  /** Puts `x` in front of the first entry whose key is not smaller. */
  function Insert<T>(x: (Id, T), s: seq<(Id, T)>, key: T -> int): (r: seq<(Id, T)>)
    ensures |r| == |s| + 1
    ensures multiset(r) == multiset(s) + multiset{x}
  {
    if s == [] then [x]
    else if key(x.1) <= key(s[0].1) then [x] + s
    else
      assert s == [s[0]] + s[1..];
      [s[0]] + Insert(x, s[1..], key)
  }

  lemma {:induction false} InsertSorted<T>(x: (Id, T), s: seq<(Id, T)>, key: T -> int)
    requires SortedOn(s, key)
    ensures SortedOn(Insert(x, s, key), key)
  {
    if s != [] && key(x.1) > key(s[0].1) {
      InsertSorted(x, s[1..], key);
      var t := Insert(x, s[1..], key);
      forall y | y in t ensures key(s[0].1) <= key(y.1) {
        assert y in multiset(t);
        if y != x {
          assert y in multiset(s[1..]);
          var j :| 0 <= j < |s[1..]| && s[1..][j] == y;
          assert s[j + 1] == y;
        }
      }
    }
  }

  lemma {:induction false} InsertDistinct<T>(x: (Id, T), s: seq<(Id, T)>, key: T -> int)
    requires DistinctIds(s)
    requires forall y :: y in s ==> y.0 != x.0
    ensures DistinctIds(Insert(x, s, key))
  {
    if s != [] && key(x.1) > key(s[0].1) {
      InsertDistinct(x, s[1..], key);
      var t := Insert(x, s[1..], key);
      forall y | y in t ensures y.0 != s[0].0 {
        assert y in multiset(t);
        if y != x {
          assert y in multiset(s[1..]);
          var j :| 0 <= j < |s[1..]| && s[1..][j] == y;
          assert s[j + 1] == y;
        }
      }
    }
  }

  /** A stable insertion sort on `key`: the result is sorted and a permutation of the input. */
  function SortOn<T>(s: seq<(Id, T)>, key: T -> int): (r: seq<(Id, T)>)
    ensures |r| == |s|
    ensures multiset(r) == multiset(s)
    ensures SortedOn(r, key)
  {
    if s == [] then []
    else
      var t := SortOn(s[1..], key);
      assert s == [s[0]] + s[1..];
      InsertSorted(s[0], t, key);
      Insert(s[0], t, key)
  }

  /** Sorting does not duplicate documents. */
  lemma {:induction false} SortOnDistinct<T>(s: seq<(Id, T)>, key: T -> int)
    requires DistinctIds(s)
    ensures DistinctIds(SortOn(s, key))
  {
    if s != [] {
      var t := SortOn(s[1..], key);
      assert s == [s[0]] + s[1..];
      assert DistinctIds(s[1..]) by {
        forall i, j | 0 <= i < j < |s[1..]| ensures s[1..][i].0 != s[1..][j].0 {
          assert s[1..][i] == s[i + 1] && s[1..][j] == s[j + 1];
        }
      }
      SortOnDistinct(s[1..], key);
      forall y | y in t ensures y.0 != s[0].0 {
        assert y in multiset(s[1..]);
        var j :| 0 <= j < |s[1..]| && s[1..][j] == y;
        assert s[j + 1] == y;
      }
      InsertDistinct(s[0], t, key);
    }
  }

  /** `.limit(k)`. */
  function Take<E>(s: seq<E>, k: nat): (r: seq<E>)
    ensures |r| == if |s| <= k then |s| else k
    ensures r == s[..|r|]
  {
    if |s| <= k then s else s[..k]
  }

  /** `.sort(key).limit(k)` keeps a prefix: everything dropped sorts no earlier than anything kept. */
  lemma TakeSorted<T>(all: seq<(Id, T)>, k: nat, key: T -> int)
    requires SortedOn(all, key)
    ensures SortedOn(Take(all, k), key)
    ensures DistinctIds(all) ==> DistinctIds(Take(all, k))
    ensures forall x :: x in Take(all, k) ==> x in all
    ensures forall x, i :: x in all && x !in Take(all, k) && 0 <= i < |Take(all, k)| ==> key(Take(all, k)[i].1) <= key(x.1)
  {
    var r := Take(all, k);
    forall x, i | x in all && x !in r && 0 <= i < |r| ensures key(r[i].1) <= key(x.1) {
      var j :| 0 <= j < |all| && all[j] == x;
      assert forall m :: 0 <= m < |r| ==> r[m] == all[m];
      assert r[i] == all[i];
    }
  }

  /** `find(filter).sort(key)`: exactly the matching documents, each once, sorted on `key`. */
  lemma FindSorted<T(!new)>(m: map<Id, T>, p: T -> bool, n: nat, key: T -> int)
    requires IdsBelow(m, n)
    ensures var r := SortOn(Scan(m, p, n), key);
      && (forall x :: x in r <==> x.0 in m && m[x.0] == x.1 && p(x.1))
      && SortedOn(r, key)
      && DistinctIds(r)
  {
    var s := Scan(m, p, n);
    var r := SortOn(s, key);
    SortOnDistinct(s, key);
    forall x ensures x in r <==> x in s {
      assert x in r <==> x in multiset(r);
      assert x in s <==> x in multiset(s);
    }
  }

  /** `Σ f(d)` over the documents of `s`. */
  function SumOf<T>(s: seq<(Id, T)>, f: T -> real): real {
    if s == [] then 0.0 else SumOf(s[..|s| - 1], f) + f(s[|s| - 1].1)
  }
}
