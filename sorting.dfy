/** Python's `list.sort(key=...)` and `sorted(..., key=...)` as used by the
    vault builder: a stable sort on a key made of an integer and a string
    (a folder's level and its lower-cased name), modelled as an insertion
    sort that places each element after every earlier element whose key is
    not greater. */
module Sorting {
  import opened Base

  datatype Key = Key(major: int, minor: string)

  /** Tuple comparison `(major, minor) <= (major', minor')`. */
  predicate KeyLe(a: Key, b: Key) {
    a.major < b.major || (a.major == b.major && StrLe(a.minor, b.minor))
  }

  lemma KeyLeTotal(a: Key, b: Key)
    ensures KeyLe(a, b) || KeyLe(b, a)
  {
    StrLeTotal(a.minor, b.minor);
  }

  lemma KeyLeTrans(a: Key, b: Key, c: Key)
    requires KeyLe(a, b) && KeyLe(b, c)
    ensures KeyLe(a, c)
  {
    if a.major == b.major == c.major {
      StrLeTrans(a.minor, b.minor, c.minor);
    }
  }

  predicate SortedBy<T>(s: seq<T>, key: T -> Key) {
    forall i, j :: 0 <= i < j < |s| ==> KeyLe(key(s[i]), key(s[j]))
  }

  /** Inserts `x` after the last element of `s` whose key is not greater
      than `x`'s key. */
  function Insert<T>(s: seq<T>, x: T, key: T -> Key): seq<T> {
    if s == [] then [x]
    else if KeyLe(key(s[|s| - 1]), key(x)) then s + [x]
    else Insert(s[..|s| - 1], x, key) + [s[|s| - 1]]
  }

  function SortBy<T>(s: seq<T>, key: T -> Key): seq<T> {
    if s == [] then [] else Insert(SortBy(s[..|s| - 1], key), s[|s| - 1], key)
  }

  lemma {:induction false} InsertPerm<T>(s: seq<T>, x: T, key: T -> Key)
    ensures multiset(Insert(s, x, key)) == multiset(s) + multiset{x}
  {
    if s != [] && !KeyLe(key(s[|s| - 1]), key(x)) {
      InsertPerm(s[..|s| - 1], x, key);
      assert s == s[..|s| - 1] + [s[|s| - 1]];
    }
  }

  lemma {:induction false} InsertSorted<T>(s: seq<T>, x: T, key: T -> Key)
    requires SortedBy(s, key)
    ensures SortedBy(Insert(s, x, key), key)
  {
    if s == [] {
    } else if KeyLe(key(s[|s| - 1]), key(x)) {
      var r := s + [x];
      forall i, j | 0 <= i < j < |r| ensures KeyLe(key(r[i]), key(r[j])) {
        if j == |s| && i < |s| - 1 {
          KeyLeTrans(key(s[i]), key(s[|s| - 1]), key(x));
        }
      }
    } else {
      var init, last := s[..|s| - 1], s[|s| - 1];
      InsertSorted(init, x, key);
      InsertPerm(init, x, key);
      var ins := Insert(init, x, key);
      KeyLeTotal(key(last), key(x));
      forall i | 0 <= i < |ins| ensures KeyLe(key(ins[i]), key(last)) {
        assert ins[i] in multiset(ins);
        if ins[i] != x {
          assert ins[i] in multiset(init);
          var k :| 0 <= k < |init| && init[k] == ins[i];
          assert s[k] == init[k];
        }
      }
    }
  }

  lemma {:induction false} SortByPerm<T>(s: seq<T>, key: T -> Key)
    ensures multiset(SortBy(s, key)) == multiset(s)
  {
    if s != [] {
      var init, last := s[..|s| - 1], s[|s| - 1];
      SortByPerm(init, key);
      InsertPerm(SortBy(init, key), last, key);
      assert s == init + [last];
      assert multiset(s) == multiset(init) + multiset{last};
    }
  }

  lemma {:induction false} SortBySorted<T>(s: seq<T>, key: T -> Key)
    ensures SortedBy(SortBy(s, key), key)
  {
    if s != [] {
      SortBySorted(s[..|s| - 1], key);
      InsertSorted(SortBy(s[..|s| - 1], key), s[|s| - 1], key);
    }
  }

  /** The sort returns a sorted permutation of its input. */
  lemma SortByIsSortedPermutation<T>(s: seq<T>, key: T -> Key)
    ensures SortedBy(SortBy(s, key), key)
    ensures multiset(SortBy(s, key)) == multiset(s)
    ensures |SortBy(s, key)| == |s|
  {
    SortBySorted(s, key);
    SortByPerm(s, key);
    assert |multiset(SortBy(s, key))| == |multiset(s)|;
  }

  /** The elements of `s` whose key is `k`, in their order. */
  function WithKey<T>(s: seq<T>, key: T -> Key, k: Key): seq<T> {
    if s == [] then []
    else WithKey(s[..|s| - 1], key, k) + (if key(s[|s| - 1]) == k then [s[|s| - 1]] else [])
  }

  lemma WithKeySnoc<T>(s: seq<T>, y: T, key: T -> Key, k: Key)
    ensures WithKey(s + [y], key, k) == WithKey(s, key, k) + (if key(y) == k then [y] else [])
  {
    assert (s + [y])[..|s|] == s;
  }

  /** Inserting `x` puts it after every element with the same key. */
  lemma {:induction false} InsertWithKey<T>(s: seq<T>, x: T, key: T -> Key, k: Key)
    ensures WithKey(Insert(s, x, key), key, k)
         == WithKey(s, key, k) + (if key(x) == k then [x] else [])
  {
    if s == [] {
      assert Insert(s, x, key) == [] + [x];
      WithKeySnoc([], x, key, k);
    } else if KeyLe(key(s[|s| - 1]), key(x)) {
      WithKeySnoc(s, x, key, k);
    } else {
      var init, last := s[..|s| - 1], s[|s| - 1];
      InsertWithKey(init, x, key, k);
      KeyLeTotal(key(x), key(x));
      WithKeySnoc(Insert(init, x, key), last, key, k);
      assert s == init + [last];
      WithKeySnoc(init, last, key, k);
    }
  }

  /** The sort is stable: the elements sharing any one key come out in
      their input order. */
  lemma {:induction false} SortByStable<T>(s: seq<T>, key: T -> Key, k: Key)
    ensures WithKey(SortBy(s, key), key, k) == WithKey(s, key, k)
  {
    if s != [] {
      SortByStable(s[..|s| - 1], key, k);
      InsertWithKey(SortBy(s[..|s| - 1], key), s[|s| - 1], key, k);
    }
  }

  /** The elements of `s` that are not in `d`, in their order. */
  function Without<T(==)>(s: seq<T>, d: set<T>): seq<T> {
    if s == [] then []
    else Without(s[..|s| - 1], d) + (if s[|s| - 1] in d then [] else [s[|s| - 1]])
  }

  lemma {:induction false} WithoutMember<T>(s: seq<T>, d: set<T>, x: T)
    ensures x in Without(s, d) <==> x in s && x !in d
  {
    if s != [] {
      WithoutMember(s[..|s| - 1], d, x);
      assert s == s[..|s| - 1] + [s[|s| - 1]];
    }
  }

  lemma {:induction false} WithoutAppend<T>(a: seq<T>, b: seq<T>, d: set<T>)
    ensures Without(a + b, d) == Without(a, d) + Without(b, d)
  {
    if b != [] {
      WithoutAppend(a, b[..|b| - 1], d);
      assert (a + b)[..|a + b| - 1] == a + b[..|b| - 1];
    } else {
      assert a + b == a;
    }
  }

  lemma {:induction false} WithoutSnoc<T>(s: seq<T>, x: T, d: set<T>)
    ensures Without(s + [x], d) == Without(s, d) + (if x in d then [] else [x])
  {
    assert (s + [x])[..|s + [x]| - 1] == s;
  }

  lemma {:induction false} WithoutInsert<T>(s: seq<T>, x: T, d: set<T>, key: T -> Key)
    requires SortedBy(s, key)
    ensures Without(Insert(s, x, key), d)
         == if x in d then Without(s, d) else Insert(Without(s, d), x, key)
  {
    if s == [] {
      WithoutSnoc([], x, d);
    } else if KeyLe(key(s[|s| - 1]), key(x)) {
      WithoutInsertAtEnd(s, x, d, key);
    } else {
      var init, last := s[..|s| - 1], s[|s| - 1];
      assert SortedBy(init, key);
      WithoutInsert(init, x, d, key);
      assert s == init + [last];
      WithoutSnoc(init, last, d);
      WithoutInsertBefore(init, last, x, d, key);
    }
  }

  lemma {:induction false} WithoutInsertBefore<T>(init: seq<T>, last: T, x: T, d: set<T>, key: T -> Key)
    requires !KeyLe(key(last), key(x))
    requires Without(Insert(init, x, key), d)
          == if x in d then Without(init, d) else Insert(Without(init, d), x, key)
    ensures Without(Insert(init + [last], x, key), d)
         == if x in d then Without(init + [last], d) else Insert(Without(init + [last], d), x, key)
  {
    var ins := Insert(init, x, key);
    var s := init + [last];
    assert s[..|s| - 1] == init && s[|s| - 1] == last;
    assert Insert(s, x, key) == ins + [last];
    WithoutSnoc(ins, last, d);
    WithoutSnoc(init, last, d);
    var wi := Without(init, d);
    if x !in d {
      if last !in d {
        assert (wi + [last])[..|wi + [last]| - 1] == wi;
        assert Insert(wi + [last], x, key) == Insert(wi, x, key) + [last];
        calc {
          Without(Insert(s, x, key), d);
          Without(ins, d) + [last];
          Insert(wi, x, key) + [last];
          Insert(wi + [last], x, key);
          Insert(Without(s, d), x, key);
        }
      } else {
        calc {
          Without(Insert(s, x, key), d);
          Without(ins, d) + [];
          { assert Without(ins, d) + [] == Without(ins, d); }
          Insert(wi, x, key);
          { assert wi + [] == wi; }
          Insert(Without(s, d), x, key);
        }
      }
    }
  }

  lemma {:induction false} WithoutInsertAtEnd<T>(s: seq<T>, x: T, d: set<T>, key: T -> Key)
    requires SortedBy(s, key) && s != [] && KeyLe(key(s[|s| - 1]), key(x))
    ensures Without(Insert(s, x, key), d)
         == if x in d then Without(s, d) else Insert(Without(s, d), x, key)
  {
    WithoutSnoc(s, x, d);
    var w := Without(s, d);
    if x !in d && w != [] {
      // The last element kept is some element of s, so its key is at
      // most the key of s's last element, hence at most x's key.
      assert w[|w| - 1] in w;
      WithoutMember(s, d, w[|w| - 1]);
      var k :| 0 <= k < |s| && s[k] == w[|w| - 1];
      if k < |s| - 1 {
        KeyLeTrans(key(s[k]), key(s[|s| - 1]), key(x));
      }
    }
  }

  /** Sorting commutes with dropping a set of elements (the sort is stable). */
  lemma {:induction false} SortWithout<T>(s: seq<T>, d: set<T>, key: T -> Key)
    ensures SortBy(Without(s, d), key) == Without(SortBy(s, key), d)
  {
    if s != [] {
      var init, last := s[..|s| - 1], s[|s| - 1];
      SortWithout(init, d, key);
      SortBySorted(init, key);
      WithoutInsert(SortBy(init, key), last, d, key);
      var w := Without(init, d);
      if last !in d {
        assert (w + [last])[..|w + [last]| - 1] == w;
      } else {
        assert w + [] == w;
      }
    }
  }

  lemma {:induction false} WithoutTwice<T>(s: seq<T>, d1: set<T>, d2: set<T>)
    ensures Without(Without(s, d1), d2) == Without(s, d1 + d2)
  {
    if s != [] {
      var init, last := s[..|s| - 1], s[|s| - 1];
      WithoutTwice(init, d1, d2);
      var w := Without(init, d1);
      WithoutAppend(w, if last in d1 then [] else [last], d2);
      assert Without([last], d2) == Without([], d2) + (if last in d2 then [] else [last]);
      assert Without([], d2) == [];
    }
  }

  /** Dropping the elements of a prefix of a duplicate-free sequence leaves
      the rest of it. */
  lemma {:induction false} WithoutPrefix<T>(s: seq<T>, n: nat)
    requires NoDup(s) && n <= |s|
    ensures Without(s, Elems(s[..n])) == s[n..]
  {
    if |s| > n {
      var init, last := s[..|s| - 1], s[|s| - 1];
      assert init[..n] == s[..n];
      WithoutPrefix(init, n);
      assert last !in Elems(s[..n]);
      assert init[n..] + [last] == s[n..];
    } else {
      forall x | x in s ensures x in Elems(s[..n]) {
        assert s[..n] == s;
      }
      WithoutAll(s, Elems(s[..n]));
    }
  }

  lemma {:induction false} WithoutAll<T>(s: seq<T>, d: set<T>)
    requires forall x :: x in s ==> x in d
    ensures Without(s, d) == []
  {
    if s != [] {
      WithoutAll(s[..|s| - 1], d);
      assert s[|s| - 1] in s;
    }
  }

  lemma {:induction false} WithoutNoDup<T>(s: seq<T>, d: set<T>)
    requires NoDup(s)
    ensures NoDup(Without(s, d))
  {
    if s != [] {
      var init, last := s[..|s| - 1], s[|s| - 1];
      WithoutNoDup(init, d);
      assert last !in init;
      WithoutMember(init, d, last);
    }
  }

  /** A sort of a duplicate-free sequence is duplicate-free. */
  lemma PermNoDup<T>(s: seq<T>, r: seq<T>)
    requires NoDup(s) && multiset(r) == multiset(s)
    ensures NoDup(r)
  {
    forall i, j | 0 <= i < j < |r| ensures r[i] != r[j] {
      if r[i] == r[j] {
        var x := r[i];
        assert multiset(r)[x] >= 2 by {
          assert r == r[..i] + [x] + r[i + 1..j] + [x] + r[j + 1..];
        }
        MultisetNoDup(s, x);
      }
    }
  }

  lemma {:induction false} MultisetNoDup<T>(s: seq<T>, x: T)
    requires NoDup(s)
    ensures multiset(s)[x] <= 1
  {
    if s != [] {
      var init, last := s[..|s| - 1], s[|s| - 1];
      MultisetNoDup(init, x);
      assert s == init + [last];
      assert last !in init;
      if x == last {
        assert multiset(init)[x] == 0;
      }
    }
  }
}
