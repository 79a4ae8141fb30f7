/** Python's built-in `sorted` with a key: a stable sort. Every sort the
    retriever performs is expressed as an ascending stable sort on a real key
    (a descending sort with reverse=True is the ascending sort on the negated
    key, since reverse=True keeps equal elements in their original order). */
module Sorting {

  /** Apply f to every element, keeping the order (a list comprehension). */
  function MapSeq<T, U>(f: T -> U, s: seq<T>): (r: seq<U>)
    ensures |r| == |s|
    ensures forall i :: 0 <= i < |s| ==> r[i] == f(s[i])
  {
    if s == [] then [] else [f(s[0])] + MapSeq(f, s[1..])
  }

  /** s is in ascending order of key. */
  predicate SortedBy<T>(s: seq<T>, key: T -> real) {
    forall i, j :: 0 <= i < j < |s| ==> key(s[i]) <= key(s[j])
  }

  /** The elements of s whose key is k, in their order in s. */
  function WithKey<T>(s: seq<T>, key: T -> real, k: real): seq<T> {
    if s == [] then [] else (if key(s[0]) == k then [s[0]] else []) + WithKey(s[1..], key, k)
  }

  /** r keeps, for every key value, the elements of s with that key in s's order. */
  ghost predicate StableFor<T>(r: seq<T>, s: seq<T>, key: T -> real) {
    forall k :: WithKey(r, key, k) == WithKey(s, key, k)
  }

  /** Insert x before the first element whose key is not smaller. */
  function InsertBy<T>(x: T, s: seq<T>, key: T -> real): seq<T> {
    if s == [] || key(x) <= key(s[0]) then [x] + s
    else [s[0]] + InsertBy(x, s[1..], key)
  }

  /** Insertion sort: the reference for Python's stable `sorted(s, key=key)`. */
  function SortBy<T>(s: seq<T>, key: T -> real): seq<T> {
    if s == [] then [] else InsertBy(s[0], SortBy(s[1..], key), key)
  }

  lemma {:induction false} WithKeyConcat<T>(a: seq<T>, b: seq<T>, key: T -> real, k: real)
    ensures WithKey(a + b, key, k) == WithKey(a, key, k) + WithKey(b, key, k)
  {
    if a != [] {
      assert (a + b)[1..] == a[1..] + b;
      WithKeyConcat(a[1..], b, key, k);
    } else {
      assert a + b == b;
    }
  }

  lemma {:induction false} InsertPermutation<T>(x: T, s: seq<T>, key: T -> real)
    ensures multiset(InsertBy(x, s, key)) == multiset([x] + s)
  {
    if !(s == [] || key(x) <= key(s[0])) {
      InsertPermutation(x, s[1..], key);
      assert s == [s[0]] + s[1..];
    }
  }

  /** Inserting keeps a lower bound that both x and every element of s respect. */
  lemma InsertLowerBound<T>(x: T, s: seq<T>, key: T -> real, b: real)
    requires b <= key(x)
    requires forall i :: 0 <= i < |s| ==> b <= key(s[i])
    ensures forall i :: 0 <= i < |InsertBy(x, s, key)| ==> b <= key(InsertBy(x, s, key)[i])
  {
    var t := InsertBy(x, s, key);
    InsertPermutation(x, s, key);
    forall i | 0 <= i < |t| ensures b <= key(t[i]) {
      var y := t[i];
      assert y in multiset([x] + s);
      if y != x {
        assert y in s;
      }
    }
  }

  /** A sorted sequence stays sorted behind an element no larger than any of it. */
  lemma ConsSorted<T>(a: T, t: seq<T>, key: T -> real)
    requires SortedBy(t, key)
    requires forall i :: 0 <= i < |t| ==> key(a) <= key(t[i])
    ensures SortedBy([a] + t, key)
  {
    var r := [a] + t;
    forall i, j | 0 <= i < j < |r| ensures key(r[i]) <= key(r[j]) {
      assert r[j] == t[j - 1];
      if i > 0 {
        assert r[i] == t[i - 1];
      }
    }
  }

  lemma {:induction false} InsertSorted<T>(x: T, s: seq<T>, key: T -> real)
    requires SortedBy(s, key)
    ensures SortedBy(InsertBy(x, s, key), key)
  {
    if !(s == [] || key(x) <= key(s[0])) {
      SortedTail(s, key);
      InsertSorted(x, s[1..], key);
      assert forall i :: 0 <= i < |s[1..]| ==> key(s[0]) <= key(s[1..][i]) by {
        forall i | 0 <= i < |s[1..]| ensures key(s[0]) <= key(s[1..][i]) {
          assert s[1..][i] == s[i + 1];
        }
      }
      InsertLowerBound(x, s[1..], key, key(s[0]));
      ConsSorted(s[0], InsertBy(x, s[1..], key), key);
    }
  }

  lemma {:induction false} InsertStable<T>(x: T, s: seq<T>, key: T -> real, k: real)
    ensures WithKey(InsertBy(x, s, key), key, k) == WithKey([x] + s, key, k)
  {
    if !(s == [] || key(x) <= key(s[0])) {
      var t := InsertBy(x, s[1..], key);
      InsertStable(x, s[1..], key, k);
      WithKeyConcat([s[0]], t, key, k);
      WithKeyConcat([x], s[1..], key, k);
      WithKeyConcat([x], s, key, k);
      WithKeyConcat([s[0]], s[1..], key, k);
      assert s == [s[0]] + s[1..];
      assert WithKey([s[0]], key, k) == [] || WithKey([x], key, k) == [];
    }
  }

  /** The sort is ascending in the key. */
  lemma {:induction false} SortSorted<T>(s: seq<T>, key: T -> real)
    ensures SortedBy(SortBy(s, key), key)
  {
    if s != [] {
      SortSorted(s[1..], key);
      InsertSorted(s[0], SortBy(s[1..], key), key);
    }
  }

  /** The sort rearranges its input and nothing more. */
  lemma {:induction false} SortPermutation<T>(s: seq<T>, key: T -> real)
    ensures |SortBy(s, key)| == |s|
    ensures multiset(SortBy(s, key)) == multiset(s)
  {
    if s != [] {
      SortPermutation(s[1..], key);
      InsertPermutation(s[0], SortBy(s[1..], key), key);
      assert s == [s[0]] + s[1..];
      assert |multiset(SortBy(s, key))| == |multiset(s)|;
    }
  }

  /** The sort is stable: elements with equal keys keep their input order. */
  lemma {:induction false} SortStable<T>(s: seq<T>, key: T -> real)
    ensures StableFor(SortBy(s, key), s, key)
  {
    if s != [] {
      SortStable(s[1..], key);
      forall k ensures WithKey(SortBy(s, key), key, k) == WithKey(s, key, k) {
        InsertStable(s[0], SortBy(s[1..], key), key, k);
        WithKeyConcat([s[0]], SortBy(s[1..], key), key, k);
        WithKeyConcat([s[0]], s[1..], key, k);
        assert s == [s[0]] + s[1..];
      }
    }
  }

  /** Sorting commutes with a projection that keeps the key. */
  lemma {:induction false} InsertMap<T, U>(f: T -> U, x: T, s: seq<T>, key: T -> real, key': U -> real)
    requires forall y :: key'(f(y)) == key(y)
    ensures MapSeq(f, InsertBy(x, s, key)) == InsertBy(f(x), MapSeq(f, s), key')
  {
    if s == [] || key(x) <= key(s[0]) {
      assert ([x] + s)[1..] == s;
    } else {
      InsertMap(f, x, s[1..], key, key');
      assert ([s[0]] + InsertBy(x, s[1..], key))[1..] == InsertBy(x, s[1..], key);
    }
  }

  lemma {:induction false} SortMap<T, U>(f: T -> U, s: seq<T>, key: T -> real, key': U -> real)
    requires forall y :: key'(f(y)) == key(y)
    ensures MapSeq(f, SortBy(s, key)) == SortBy(MapSeq(f, s), key')
  {
    if s != [] {
      SortMap(f, s[1..], key, key');
      InsertMap(f, s[0], SortBy(s[1..], key), key, key');
    }
  }

  lemma {:induction false} WithKeyMembers<T>(s: seq<T>, key: T -> real, k: real, x: T)
    ensures x in WithKey(s, key, k) <==> x in s && key(x) == k
  {
    if s != [] {
      WithKeyMembers(s[1..], key, k, x);
      assert s == [s[0]] + s[1..];
    }
  }

  /** The first element of a sequence heads its own key class. */
  lemma WithKeyHead<T>(r: seq<T>, key: T -> real)
    requires r != []
    ensures WithKey(r, key, key(r[0])) != [] && WithKey(r, key, key(r[0]))[0] == r[0]
  {
  }

  lemma SortedTail<T>(r: seq<T>, key: T -> real)
    requires r != [] && SortedBy(r, key)
    ensures SortedBy(r[1..], key)
  {
    forall i, j | 0 <= i < j < |r[1..]| ensures key(r[1..][i]) <= key(r[1..][j]) {
      assert r[1..][i] == r[i + 1] && r[1..][j] == r[j + 1];
    }
  }

  /** In two stable arrangements, the head of one is no smaller than the head
      of the other when the other is sorted. */
  lemma HeadKeyBound<T>(r1: seq<T>, r2: seq<T>, key: T -> real)
    requires r1 != [] && r2 != [] && SortedBy(r2, key)
    requires StableFor(r1, r2, key)
    ensures key(r2[0]) <= key(r1[0])
  {
    var a := r1[0];
    WithKeyHead(r1, key);
    assert a in WithKey(r2, key, key(a));
    WithKeyMembers(r2, key, key(a), a);
    var i :| 0 <= i < |r2| && r2[i] == a;
    if i > 0 {
      assert key(r2[0]) <= key(r2[i]);
    }
  }

  /** Two stable arrangements with the same head agree on their tails. */
  lemma StableTail<T>(r1: seq<T>, r2: seq<T>, key: T -> real)
    requires r1 != [] && r2 != [] && r1[0] == r2[0]
    requires StableFor(r1, r2, key)
    ensures StableFor(r1[1..], r2[1..], key)
  {
    var a := r1[0];
    forall k ensures WithKey(r1[1..], key, k) == WithKey(r2[1..], key, k) {
      var h := if key(a) == k then [a] else [];
      assert WithKey(r1, key, k) == h + WithKey(r1[1..], key, k);
      assert WithKey(r2, key, k) == h + WithKey(r2[1..], key, k);
      assert WithKey(r1[1..], key, k) == (h + WithKey(r1[1..], key, k))[|h|..];
      assert WithKey(r2[1..], key, k) == (h + WithKey(r2[1..], key, k))[|h|..];
    }
  }

  /** Two sorted sequences that agree on every key class are the same sequence. */
  lemma {:induction false} SortedStableEqual<T>(r1: seq<T>, r2: seq<T>, key: T -> real)
    requires SortedBy(r1, key) && SortedBy(r2, key)
    requires StableFor(r1, r2, key)
    ensures r1 == r2
    decreases |r1| + |r2|
  {
    if r1 != [] {
      WithKeyHead(r1, key);
    }
    if r2 != [] {
      WithKeyHead(r2, key);
    }
    if r1 != [] && r2 != [] {
      HeadKeyBound(r1, r2, key);
      HeadKeyBound(r2, r1, key);
      assert r1[0] == r2[0] by {
        assert WithKey(r1, key, key(r1[0]))[0] == WithKey(r2, key, key(r1[0]))[0];
      }
      StableTail(r1, r2, key);
      SortedTail(r1, key);
      SortedTail(r2, key);
      SortedStableEqual(r1[1..], r2[1..], key);
      assert r1 == [r1[0]] + r1[1..] && r2 == [r2[0]] + r2[1..];
    }
  }

  /** SortBy is the only stable ascending arrangement of its input: any
      sequence that is sorted by key and keeps every key class in input order
      is SortBy's result. */
  lemma SortUnique<T>(s: seq<T>, r: seq<T>, key: T -> real)
    requires SortedBy(r, key) && StableFor(r, s, key)
    ensures r == SortBy(s, key)
  {
    SortSorted(s, key);
    SortStable(s, key);
    SortedStableEqual(r, SortBy(s, key), key);
  }
}
