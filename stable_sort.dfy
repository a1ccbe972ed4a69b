/**
 * A stable sort by a lexicographic (major, minor) key. It stands for
 * java.util.Collections.sort, which the Java code calls with a comparator:
 * that library sort is stable, and every stable sort of a list by a total
 * preorder yields the same list, so insertion sort gives exactly its result.
 */
module StableSort {

  datatype Key = Key(major: int, minor: int)

  /** Lexicographic order on keys: the major component first, then the minor one. */
  predicate Less(a: Key, b: Key) {
    a.major < b.major || (a.major == b.major && a.minor < b.minor)
  }

  predicate LessEq(a: Key, b: Key) {
    !Less(b, a)
  }

  /** Inserts x before the first element whose key is not below x's key. */
  function Insert<T>(x: T, s: seq<T>, key: T -> Key): (r: seq<T>)
    ensures |r| == |s| + 1
    ensures multiset(r) == multiset(s) + multiset{x}
  {
    if s == [] then [x]
    else if Less(key(s[0]), key(x)) then
      assert s == [s[0]] + s[1..];
      [s[0]] + Insert(x, s[1..], key)
    else [x] + s
  }

  function Sort<T>(s: seq<T>, key: T -> Key): (r: seq<T>)
    ensures |r| == |s|
    ensures multiset(r) == multiset(s)
  {
    if s == [] then []
    else
      assert s == [s[0]] + s[1..];
      Insert(s[0], Sort(s[1..], key), key)
  }

  ghost predicate SortedBy<T>(s: seq<T>, key: T -> Key) {
    forall i, j :: 0 <= i < j < |s| ==> LessEq(key(s[i]), key(s[j]))
  }

  /** The elements of s whose key is k, in the order in which s holds them. */
  function Filter<T>(s: seq<T>, key: T -> Key, k: Key): seq<T> {
    if s == [] then []
    else (if key(s[0]) == k then [s[0]] else []) + Filter(s[1..], key, k)
  }

  ghost predicate Distinct<T>(s: seq<T>) {
    forall i, j :: 0 <= i < j < |s| ==> s[i] != s[j]
  }

  lemma {:induction false} InsertSorted<T>(x: T, s: seq<T>, key: T -> Key)
    requires SortedBy(s, key)
    ensures SortedBy(Insert(x, s, key), key)
  {
    if s == [] {
    } else if Less(key(s[0]), key(x)) {
      var t := s[1..];
      assert SortedBy(t, key) by {
        forall i, j | 0 <= i < j < |t| ensures LessEq(key(t[i]), key(t[j])) {
          assert t[i] == s[i + 1] && t[j] == s[j + 1];
        }
      }
      InsertSorted(x, t, key);
      var r := Insert(x, t, key);
      forall j | 0 <= j < |r| ensures LessEq(key(s[0]), key(r[j])) {
        assert r[j] in multiset(r);
        if r[j] != x {
          assert r[j] in multiset(t);
          var m :| 0 <= m < |t| && t[m] == r[j];
          assert s[m + 1] == r[j];
        }
      }
      var out := [s[0]] + r;
      forall i, j | 0 <= i < j < |out| ensures LessEq(key(out[i]), key(out[j])) {
        if i == 0 {
          assert out[j] == r[j - 1];
        } else {
          assert out[i] == r[i - 1] && out[j] == r[j - 1];
        }
      }
    } else {
      var out := [x] + s;
      forall i, j | 0 <= i < j < |out| ensures LessEq(key(out[i]), key(out[j])) {
        if i == 0 {
          assert out[j] == s[j - 1];
          assert LessEq(key(s[0]), key(s[j - 1])) || j - 1 == 0;
        } else {
          assert out[i] == s[i - 1] && out[j] == s[j - 1];
        }
      }
    }
  }

  lemma {:induction false} SortSorted<T>(s: seq<T>, key: T -> Key)
    ensures SortedBy(Sort(s, key), key)
  {
    if s != [] {
      SortSorted(s[1..], key);
      InsertSorted(s[0], Sort(s[1..], key), key);
    }
  }

  lemma {:induction false} FilterConcat<T>(a: seq<T>, b: seq<T>, key: T -> Key, k: Key)
    ensures Filter(a + b, key, k) == Filter(a, key, k) + Filter(b, key, k)
  {
    if a != [] {
      assert (a + b)[0] == a[0];
      assert (a + b)[1..] == a[1..] + b;
      FilterConcat(a[1..], b, key, k);
    } else {
      assert a + b == b;
    }
  }

  function Pick<T>(x: T, key: T -> Key, k: Key): seq<T> {
    if key(x) == k then [x] else []
  }

  lemma FilterSingleton<T>(x: T, key: T -> Key, k: Key)
    ensures Filter([x], key, k) == Pick(x, key, k)
  {
    assert [x][1..] == [];
  }

  /** Two elements with different keys cannot both be picked, so their picks commute. */
  lemma PickSwap<T>(a: T, b: T, key: T -> Key, k: Key, f: seq<T>)
    requires key(a) != key(b)
    ensures Pick(a, key, k) + (Pick(b, key, k) + f) == Pick(b, key, k) + (Pick(a, key, k) + f)
  {
    if key(a) == k {
      assert Pick(b, key, k) == [];
    } else {
      assert Pick(a, key, k) == [];
    }
  }

  lemma {:induction false} InsertFilter<T>(x: T, s: seq<T>, key: T -> Key, k: Key)
    ensures Filter(Insert(x, s, key), key, k) == Pick(x, key, k) + Filter(s, key, k)
  {
    FilterSingleton(x, key, k);
    if s == [] {
      assert Filter(s, key, k) == [];
      assert Insert(x, s, key) == [x];
    } else if Less(key(s[0]), key(x)) {
      InsertFilter(x, s[1..], key, k);
      InsertFilterPast(x, s, key, k);
    } else {
      assert Insert(x, s, key) == [x] + s;
      FilterConcat([x], s, key, k);
    }
  }

  /** The step of InsertFilter where x goes past the first element. */
  lemma InsertFilterPast<T>(x: T, s: seq<T>, key: T -> Key, k: Key)
    requires s != [] && Less(key(s[0]), key(x))
    requires Filter(Insert(x, s[1..], key), key, k) == Pick(x, key, k) + Filter(s[1..], key, k)
    ensures Filter(Insert(x, s, key), key, k) == Pick(x, key, k) + Filter(s, key, k)
  {
    var t := s[1..];
    var r := Insert(x, t, key);
    assert Insert(x, s, key) == [s[0]] + r;
    assert Filter(s, key, k) == Pick(s[0], key, k) + Filter(t, key, k);
    FilterSingleton(s[0], key, k);
    FilterConcat([s[0]], r, key, k);
    PickSwap(s[0], x, key, k, Filter(t, key, k));
  }

  /** Stability: the elements sharing a key keep their relative order. */
  lemma {:induction false} SortStable<T>(s: seq<T>, key: T -> Key, k: Key)
    ensures Filter(Sort(s, key), key, k) == Filter(s, key, k)
  {
    if s != [] {
      SortStable(s[1..], key, k);
      InsertFilter(s[0], Sort(s[1..], key), key, k);
    }
  }

  lemma {:induction false} InsertDistinct<T>(x: T, s: seq<T>, key: T -> Key)
    requires Distinct(s) && x !in s
    ensures Distinct(Insert(x, s, key))
  {
    if s != [] && Less(key(s[0]), key(x)) {
      var t := s[1..];
      assert Distinct(t) by {
        forall i, j | 0 <= i < j < |t| ensures t[i] != t[j] {
          assert t[i] == s[i + 1] && t[j] == s[j + 1];
        }
      }
      assert x !in t by {
        forall m | 0 <= m < |t| ensures t[m] != x {
          assert t[m] == s[m + 1];
        }
      }
      InsertDistinct(x, t, key);
      var r := Insert(x, t, key);
      assert s[0] !in r by {
        forall m | 0 <= m < |t| ensures t[m] != s[0] {
          assert t[m] == s[m + 1];
        }
        assert s[0] != x;
        assert s[0] !in multiset(t);
        assert s[0] !in multiset(r);
      }
      var out := [s[0]] + r;
      forall i, j | 0 <= i < j < |out| ensures out[i] != out[j] {
        assert out[j] == r[j - 1];
        if i > 0 {
          assert out[i] == r[i - 1];
        }
      }
    } else if s != [] {
      var out := [x] + s;
      forall i, j | 0 <= i < j < |out| ensures out[i] != out[j] {
        assert out[j] == s[j - 1];
        if i > 0 {
          assert out[i] == s[i - 1];
        }
      }
    }
  }

  lemma {:induction false} SortDistinct<T>(s: seq<T>, key: T -> Key)
    requires Distinct(s)
    ensures Distinct(Sort(s, key))
  {
    if s != [] {
      var t := s[1..];
      assert Distinct(t) by {
        forall i, j | 0 <= i < j < |t| ensures t[i] != t[j] {
          assert t[i] == s[i + 1] && t[j] == s[j + 1];
        }
      }
      SortDistinct(t, key);
      assert s[0] !in Sort(t, key) by {
        forall m | 0 <= m < |t| ensures t[m] != s[0] {
          assert t[m] == s[m + 1];
        }
        assert s[0] !in multiset(t);
        assert s[0] !in multiset(Sort(t, key));
      }
      InsertDistinct(s[0], Sort(t, key), key);
    }
  }

  /** Every element of the sorted list comes from the input and vice versa. */
  lemma SortMembers<T>(s: seq<T>, key: T -> Key, x: T)
    ensures x in Sort(s, key) <==> x in s
  {
    assert x in multiset(Sort(s, key)) <==> x in multiset(s);
  }
}
