/**
 * The ordered keys of the std::map containers the transport code iterates:
 * a std::map<int, _> visits its keys in ascending order.
 */
module OrderedKeys {

  /** A set that is not empty has an element. */
  lemma HasElement(s: set<int>)
    requires s != {}
    ensures exists x :: x in s
  {
    if forall x :: x !in s {
      assert false;
    }
  }

  /** k is the least element of ks. */
  predicate IsMin(k: int, ks: set<int>) {
    k in ks && forall j :: j in ks ==> k <= j
  }

  /** The least element of a non-empty set. */
  ghost function Min(ks: set<int>): (k: int)
    requires ks != {}
    ensures IsMin(k, ks)
    decreases |ks|
  {
    HasElement(ks);
    var x :| x in ks;
    if ks == {x} then x
    else
      var m := Min(ks - {x});
      assert forall j :: j in ks ==> j == x || j in ks - {x};
      if x < m then x else m
  }

  /** A non-empty set has a least element. */
  lemma HasMin(ks: set<int>)
    requires ks != {}
    ensures exists k :: IsMin(k, ks)
  {
    var m := Min(ks);
  }

  /** r lists the elements of ks in strictly ascending order. */
  ghost predicate SortedOf(r: seq<int>, ks: set<int>) {
    |r| == |ks|
    && (forall i, j :: 0 <= i < j < |r| ==> r[i] < r[j])
    && (forall k :: k in ks <==> k in r)
  }

  /** Every finite set of keys can be listed in ascending order. */
  lemma {:induction false} SortedExists(ks: set<int>)
    ensures exists r :: SortedOf(r, ks)
    decreases |ks|
  {
    if ks == {} {
      assert SortedOf([], ks);
    } else {
      var k := Min(ks);
      SortedExists(ks - {k});
      var rest :| SortedOf(rest, ks - {k});
      var r := [k] + rest;
      forall i, j | 0 <= i < j < |r|
        ensures r[i] < r[j]
      {
        if i == 0 {
          assert r[j] == rest[j - 1] && rest[j - 1] in ks - {k};
        } else {
          assert r[i] == rest[i - 1] && r[j] == rest[j - 1];
        }
      }
      forall x
        ensures x in ks <==> x in r
      {
        if x != k {
          assert x in ks <==> x in ks - {k};
        }
      }
      assert SortedOf(r, ks);
    }
  }

  /** The ascending listing of a set is unique. */
  lemma {:induction false} SortedUnique(r1: seq<int>, r2: seq<int>, ks: set<int>)
    requires SortedOf(r1, ks) && SortedOf(r2, ks)
    ensures r1 == r2
    decreases |ks|
  {
    if ks != {} {
      FirstIsMin(r1, ks);
      FirstIsMin(r2, ks);
      assert r1[0] <= r2[0] && r2[0] <= r1[0];
      var k := r1[0];
      var t1, t2 := r1[1..], r2[1..];
      TailSorted(r1, ks);
      TailSorted(r2, ks);
      SortedUnique(t1, t2, ks - {k});
      assert r1 == [k] + t1 && r2 == [k] + t2;
    }
  }

  /** An ascending listing of a non-empty set starts with its least element. */
  lemma FirstIsMin(r: seq<int>, ks: set<int>)
    requires SortedOf(r, ks) && ks != {}
    ensures |r| > 0 && IsMin(r[0], ks)
  {
    assert |ks| != 0;
    assert r[0] in r;
    forall j | j in ks
      ensures r[0] <= j
    {
      assert j in r;
      var t :| 0 <= t < |r| && r[t] == j;
      if t > 0 {
        assert r[0] < r[t];
      }
    }
  }

  /** Dropping the least key of an ascending listing lists the remaining keys. */
  lemma TailSorted(r: seq<int>, ks: set<int>)
    requires SortedOf(r, ks) && ks != {}
    ensures SortedOf(r[1..], ks - {r[0]})
  {
    var t := r[1..];
    forall x
      ensures x in ks - {r[0]} <==> x in t
    {
      if x in t {
        var i :| 0 <= i < |t| && t[i] == x;
        assert r[i + 1] == x && r[0] < r[i + 1];
      }
      if x in ks - {r[0]} {
        assert x in r;
        var i :| 0 <= i < |r| && r[i] == x;
        assert i != 0;
        assert t[i - 1] == x;
      }
    }
    assert r[0] in ks;
  }

  /** The keys of a std::map in the order its iterator visits them: ascending. */
  ghost function SortedKeys(ks: set<int>): (r: seq<int>)
    ensures SortedOf(r, ks)
  {
    SortedExists(ks);
    var r :| SortedOf(r, ks);
    r
  }

  /** The iterator visits the least key first, then the others in order. */
  lemma SortedKeysFirst(ks: set<int>, k: int)
    requires IsMin(k, ks)
    ensures SortedKeys(ks) == [k] + SortedKeys(ks - {k})
  {
    var r, t := SortedKeys(ks), SortedKeys(ks - {k});
    var s := [k] + t;
    forall i, j | 0 <= i < j < |s|
      ensures s[i] < s[j]
    {
      if i == 0 {
        assert s[j] == t[j - 1] && t[j - 1] in ks - {k};
      } else {
        assert s[i] == t[i - 1] && s[j] == t[j - 1];
      }
    }
    forall x
      ensures x in ks <==> x in s
    {
      if x != k {
        assert x in ks <==> x in ks - {k};
      }
    }
    SortedUnique(r, s, ks);
  }
}
