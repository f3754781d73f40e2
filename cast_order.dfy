/**
 * Ordering of a movie's cast by billing order, as `sorted(cast, key=lambda x: x.get('order', 999))`
 * does it: ascending by key, a missing `order` counting as 999, and stable (members with equal
 * keys keep their input order). Sorting is an insertion sort; its contract states it is a
 * sorted, stable permutation, and StableSortIsUnique shows that this pins the result down.
 */
module CastOrder {
  import opened Wrappers
  import opened Movies

  /** The key used for a member whose `order` is absent. */
  const MissingOrder := 999

  function Key(m: CastMember): int {
    m.order.GetOr(MissingOrder)
  }

  ghost predicate SortedByKey(s: seq<CastMember>) {
    forall i, j :: 0 <= i < j < |s| ==> Key(s[i]) <= Key(s[j])
  }

  /** Sortedness follows from each member's key being at most the next one's. */
  lemma {:induction false} SortedFromNeighbours(s: seq<CastMember>)
    requires forall i :: 0 <= i < |s| - 1 ==> Key(s[i]) <= Key(s[i + 1])
    ensures SortedByKey(s)
  {
    if |s| > 1 {
      SortedFromNeighbours(s[1..]);
      forall i, j | 0 <= i < j < |s| ensures Key(s[i]) <= Key(s[j]) {
        if i > 0 {
          assert s[i] == s[1..][i - 1] && s[j] == s[1..][j - 1];
        } else if j > 1 {
          assert s[1] == s[1..][0] && s[j] == s[1..][j - 1];
        }
      }
    }
  }

  /** The members of `s` whose key is `k`, in their order in `s`. */
  function WithKey(s: seq<CastMember>, k: int): (r: seq<CastMember>)
    ensures |r| <= |s|
  {
    if s == [] then [] else (if Key(s[0]) == k then [s[0]] else []) + WithKey(s[1..], k)
  }

  /** Puts `x` in front of the first member of `s` whose key is not smaller than its own. */
  function Insert(x: CastMember, s: seq<CastMember>): (r: seq<CastMember>)
    ensures |r| == |s| + 1
  {
    if s == [] || Key(x) <= Key(s[0]) then [x] + s else [s[0]] + Insert(x, s[1..])
  }

  lemma {:induction false} InsertSorted(x: CastMember, s: seq<CastMember>)
    requires SortedByKey(s)
    ensures SortedByKey(Insert(x, s))
    ensures Insert(x, s)[0] == x || (s != [] && Insert(x, s)[0] == s[0])
  {
    if s != [] && Key(x) > Key(s[0]) {
      var t := Insert(x, s[1..]);
      InsertSorted(x, s[1..]);
      var r := [s[0]] + t;
      assert Key(s[0]) <= Key(t[0]);
      forall i, j | 0 <= i < j < |r| ensures Key(r[i]) <= Key(r[j]) {
        assert r[j] == t[j - 1];
        if i == 0 {
          assert Key(t[0]) <= Key(t[j - 1]);
        } else {
          assert r[i] == t[i - 1];
        }
      }
    }
  }

  lemma {:induction false} InsertPermutes(x: CastMember, s: seq<CastMember>)
    ensures multiset(Insert(x, s)) == multiset(s) + multiset{x}
  {
    if s != [] && Key(x) > Key(s[0]) {
      InsertPermutes(x, s[1..]);
      assert s == [s[0]] + s[1..];
    }
  }

  /** Insert keeps `x` ahead of the members of `s` that share its key. */
  lemma {:induction false} InsertWithKey(x: CastMember, s: seq<CastMember>, k: int)
    ensures WithKey(Insert(x, s), k) == if Key(x) == k then [x] + WithKey(s, k) else WithKey(s, k)
  {
    var r := Insert(x, s);
    if s == [] || Key(x) <= Key(s[0]) {
      assert r[1..] == s;
    } else {
      var t := Insert(x, s[1..]);
      assert r[1..] == t;
      InsertWithKey(x, s[1..], k);
    }
  }

  /** The cast stably sorted by Key. */
  function SortByOrder(cast: seq<CastMember>): (r: seq<CastMember>)
    ensures SortedByKey(r)
    ensures multiset(r) == multiset(cast)
    ensures forall k :: WithKey(r, k) == WithKey(cast, k)
  {
    if cast == [] then []
    else
      var rest := SortByOrder(cast[1..]);
      InsertKeepsOrder(cast, rest);
      Insert(cast[0], rest)
  }

  /**
   * Inserting the head of `cast` into a stable sort of its tail gives a stable sort of
   * `cast`: one insertion step of `SortByOrder`.
   */
  lemma InsertKeepsOrder(cast: seq<CastMember>, rest: seq<CastMember>)
    requires cast != []
    requires SortedByKey(rest)
    requires multiset(rest) == multiset(cast[1..])
    requires forall k :: WithKey(rest, k) == WithKey(cast[1..], k)
    ensures SortedByKey(Insert(cast[0], rest))
    ensures multiset(Insert(cast[0], rest)) == multiset(cast)
    ensures forall k :: WithKey(Insert(cast[0], rest), k) == WithKey(cast, k)
  {
    InsertSorted(cast[0], rest);
    InsertPermutes(cast[0], rest);
    assert cast == [cast[0]] + cast[1..];
    forall k ensures WithKey(Insert(cast[0], rest), k) == WithKey(cast, k) {
      InsertWithKey(cast[0], rest, k);
    }
  }

  lemma WithKeyOfHead(s: seq<CastMember>)
    requires s != []
    ensures WithKey(s, Key(s[0])) != []
  {
  }

  lemma {:induction false} WithKeyNonEmpty(s: seq<CastMember>, k: int)
    requires WithKey(s, k) != []
    ensures exists i :: 0 <= i < |s| && Key(s[i]) == k
  {
    if Key(s[0]) != k {
      WithKeyNonEmpty(s[1..], k);
      var i :| 0 <= i < |s[1..]| && Key(s[1..][i]) == k;
      assert Key(s[i + 1]) == k;
    }
  }

  /**
   * Two sorted sequences with the same members of each key, in the same order, are equal:
   * being sorted and stable determines the result, so SortByOrder is the stable sort.
   */
  lemma {:induction false} StableSortIsUnique(s: seq<CastMember>, t: seq<CastMember>)
    requires SortedByKey(s) && SortedByKey(t)
    requires forall k :: WithKey(s, k) == WithKey(t, k)
    ensures s == t
  {
    if s == [] && t == [] {
    } else if s == [] {
      WithKeyOfHead(t);
      assert false;
    } else if t == [] {
      WithKeyOfHead(s);
      assert false;
    } else {
      var ks, kt := Key(s[0]), Key(t[0]);
      assert WithKey(t, kt) != [];
      WithKeyNonEmpty(s, kt);
      assert ks <= kt;
      assert WithKey(s, ks) != [];
      WithKeyNonEmpty(t, ks);
      assert kt <= ks;
      assert WithKey(s, ks)[0] == s[0] && WithKey(t, ks)[0] == t[0];
      assert s[0] == t[0];
      forall k ensures WithKey(s[1..], k) == WithKey(t[1..], k) {
        var a, b := WithKey(s[1..], k), WithKey(t[1..], k);
        if k == ks {
          assert WithKey(s, k) == [s[0]] + a;
          assert WithKey(t, k) == [t[0]] + b;
          assert a == ([s[0]] + a)[1..];
          assert b == ([t[0]] + b)[1..];
        } else {
          assert WithKey(s, k) == a;
          assert WithKey(t, k) == b;
        }
      }
      StableSortIsUnique(s[1..], t[1..]);
      assert s == [s[0]] + s[1..] && t == [t[0]] + t[1..];
    }
  }

  /** A cast already in billing order is left as it is; in particular, sorting twice changes nothing. */
  lemma SortedCastUnchanged(cast: seq<CastMember>)
    requires SortedByKey(cast)
    ensures SortByOrder(cast) == cast
    ensures SortByOrder(SortByOrder(cast)) == SortByOrder(cast)
  {
    StableSortIsUnique(SortByOrder(cast), cast);
  }

  /** Members that carry an explicit order below 999 come before every member without one. */
  lemma {:induction false} MissingOrderSortsLast(cast: seq<CastMember>, i: int, j: int)
    requires 0 <= i < |SortByOrder(cast)| && 0 <= j < |SortByOrder(cast)|
    requires SortByOrder(cast)[i].order.Some? && SortByOrder(cast)[i].order.value < MissingOrder
    requires SortByOrder(cast)[j].order.None?
    ensures i < j
  {
  }

  /** An explicit order above 999 sorts after a member with no order at all. */
  lemma ExplicitOrderAboveDefaultSortsLast()
    ensures SortByOrder([CastMember("Extra", Some(1000)), CastMember("Lead", None)])
         == [CastMember("Lead", None), CastMember("Extra", Some(1000))]
  {
  }
}
