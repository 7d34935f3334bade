/** Python's string order and `sorted(xs, key=..., reverse=True)`, which the
  * activity feed and the reports use to put the newest entries first. */
module Sorting {
  import opened Common

  /** `a <= b` on Python strings: code point by code point, a prefix first. */
  predicate LexLe(a: string, b: string)
    decreases |a|
  {
    a == [] || (b != [] && (a[0] < b[0] || (a[0] == b[0] && LexLe(a[1..], b[1..]))))
  }

  lemma {:induction false} LexLeTotal(a: string, b: string)
    ensures LexLe(a, b) || LexLe(b, a)
    decreases |a|
  {
    if a != [] && b != [] && a[0] == b[0] {
      LexLeTotal(a[1..], b[1..]);
    }
  }

  lemma {:induction false} LexLeTrans(a: string, b: string, c: string)
    requires LexLe(a, b) && LexLe(b, c)
    ensures LexLe(a, c)
    decreases |a|
  {
    if a != [] && b != [] && c != [] && a[0] == b[0] && b[0] == c[0] {
      LexLeTrans(a[1..], b[1..], c[1..]);
    }
  }

  /** Newest first: every key is at least every later key. */
  predicate Descending<T>(s: seq<T>, key: T -> string)
  {
    forall i, j :: 0 <= i < j < |s| ==> LexLe(key(s[j]), key(s[i]))
  }

  /** A head whose key is at least every key of a sorted tail keeps it sorted. */
  lemma ConsDescending<T>(h: T, rest: seq<T>, key: T -> string)
    requires Descending(rest, key)
    requires forall k :: 0 <= k < |rest| ==> LexLe(key(rest[k]), key(h))
    ensures Descending([h] + rest, key)
  {
    var r := [h] + rest;
    forall i, j | 0 <= i < j < |r| ensures LexLe(key(r[j]), key(r[i])) {
      assert r[j] == rest[j - 1];
      if i > 0 {
        assert r[i] == rest[i - 1];
      }
    }
  }

  /** Whatever is drawn from the tail of a sorted list and from elements whose
    * key is at most its head's has a key at most the head's. */
  lemma DrawnBelowHead<T>(s: seq<T>, x: T, rest: seq<T>, key: T -> string)
    requires Descending(s, key) && s != [] && LexLe(key(x), key(s[0]))
    requires multiset(rest) == multiset(s[1..]) + multiset{x}
    ensures forall k :: 0 <= k < |rest| ==> LexLe(key(rest[k]), key(s[0]))
  {
    forall k | 0 <= k < |rest| ensures LexLe(key(rest[k]), key(s[0])) {
      assert rest[k] in multiset(rest);
      if rest[k] != x {
        assert rest[k] in multiset(s[1..]);
        var m :| 0 <= m < |s[1..]| && s[1..][m] == rest[k];
        assert s[m + 1] == rest[k];
      }
    }
  }

  /** An element whose key is above the head's is above every key of a sorted list. */
  lemma AboveAll<T>(s: seq<T>, x: T, key: T -> string)
    requires Descending(s, key) && s != [] && !LexLe(key(x), key(s[0]))
    ensures forall k :: 0 <= k < |s| ==> LexLe(key(s[k]), key(x))
  {
    LexLeTotal(key(x), key(s[0]));
    forall k | 0 <= k < |s| ensures LexLe(key(s[k]), key(x)) {
      if k > 0 {
        LexLeTrans(key(s[k]), key(s[0]), key(x));
      }
    }
  }

  /** Puts `x` after every element whose key is at least its own, so equal keys
    * keep their input order. */
  function Insert<T>(s: seq<T>, x: T, key: T -> string): (r: seq<T>)
    requires Descending(s, key)
    ensures multiset(r) == multiset(s) + multiset{x}
    ensures Descending(r, key)
  {
    if s == [] then [x]
    else if LexLe(key(x), key(s[0])) then
      var rest := Insert(s[1..], x, key);
      assert s == [s[0]] + s[1..];
      DrawnBelowHead(s, x, rest, key);
      ConsDescending(s[0], rest, key);
      [s[0]] + rest
    else
      AboveAll(s, x, key);
      ConsDescending(x, s, key);
      [x] + s
  }

  /** `sorted(s, key=key, reverse=True)`: a newest-first permutation of s. */
  function SortDesc<T>(s: seq<T>, key: T -> string): (r: seq<T>)
    ensures multiset(r) == multiset(s)
    ensures |r| == |s|
    ensures Descending(r, key)
  {
    if s == [] then []
    else
      var r := Insert(SortDesc(s[..|s| - 1], key), s[|s| - 1], key);
      assert s == s[..|s| - 1] + [s[|s| - 1]];
      assert |r| == |multiset(r)|;
      r
  }

  /** The elements whose key is `k`. */
  function HasKey<T>(key: T -> string, k: string): T -> bool
  {
    (x: T) => key(x) == k
  }

  /** Filtering a list with a head added. */
  lemma FilterCons<T>(x: T, s: seq<T>, p: T -> bool)
    ensures Filter([x] + s, p) == (if p(x) then [x] else []) + Filter(s, p)
  {
    assert ([x] + s)[1..] == s;
  }

  /** An element at most the head's key goes into the tail. */
  lemma InsertBehind<T>(s: seq<T>, x: T, key: T -> string)
    requires Descending(s, key) && s != [] && LexLe(key(x), key(s[0]))
    ensures Descending(s[1..], key) && Insert(s, x, key) == [s[0]] + Insert(s[1..], x, key)
  {
  }

  /** An element above the head's key goes in front. */
  lemma InsertFront<T>(s: seq<T>, x: T, key: T -> string)
    requires Descending(s, key) && (s == [] || !LexLe(key(x), key(s[0])))
    ensures Insert(s, x, key) == [x] + s
  {
  }

  /** Insertion is stable: among the elements of one key, the inserted one comes
    * after those already in the list, which keep their order. */
  lemma {:induction false} InsertStable<T>(s: seq<T>, x: T, key: T -> string, k: string)
    requires Descending(s, key)
    ensures Filter(Insert(s, x, key), HasKey(key, k)) == Filter(s, HasKey(key, k)) + (if key(x) == k then [x] else [])
    decreases |s|
  {
    var p := HasKey(key, k);
    if s != [] && LexLe(key(x), key(s[0])) {
      InsertBehind(s, x, key);
      InsertStable(s[1..], x, key, k);
      ConsFilterShift(s[0], Insert(s[1..], x, key), s[1..], p, if key(x) == k then [x] else []);
      assert s == [s[0]] + s[1..];
    } else {
      InsertFront(s, x, key);
      FrontStable(s, x, key, k);
    }
  }

  /** An element put in front has no element of its own key behind it. */
  lemma FrontStable<T>(s: seq<T>, x: T, key: T -> string, k: string)
    requires Descending(s, key) && (s == [] || !LexLe(key(x), key(s[0])))
    ensures Filter([x] + s, HasKey(key, k)) == Filter(s, HasKey(key, k)) + (if key(x) == k then [x] else [])
  {
    var p := HasKey(key, k);
    FilterCons(x, s, p);
    assert forall y :: p(y) == (key(y) == k);
    if key(x) == k {
      KeysBelowHead(s, x, key);
      FilterNone(s, p);
    }
  }

  /** No element of a sorted list shares the key of an element above its head. */
  lemma KeysBelowHead<T>(s: seq<T>, x: T, key: T -> string)
    requires Descending(s, key) && (s == [] || !LexLe(key(x), key(s[0])))
    ensures forall i :: 0 <= i < |s| ==> key(s[i]) != key(x)
  {
    forall i | 0 <= i < |s| ensures key(s[i]) != key(x) {
      LexLeRefl(key(s[0]));
      assert LexLe(key(s[i]), key(s[0]));
    }
  }

  lemma {:induction false} LexLeRefl(a: string)
    ensures LexLe(a, a)
    decreases |a|
  {
    if a != [] {
      LexLeRefl(a[1..]);
    }
  }

  /** A common head keeps two filtered lists in the same relation. */
  lemma ConsFilterShift<T>(h: T, r: seq<T>, t: seq<T>, p: T -> bool, added: seq<T>)
    requires Filter(r, p) == Filter(t, p) + added
    ensures Filter([h] + r, p) == Filter([h] + t, p) + added
  {
    FilterCons(h, r, p);
    FilterCons(h, t, p);
    AppendAssoc(if p(h) then [h] else [], Filter(t, p), added);
  }

  lemma AppendAssoc<T>(a: seq<T>, b: seq<T>, c: seq<T>)
    ensures a + (b + c) == (a + b) + c
  {
  }

  /** The last element is inserted into the sorted rest. */
  lemma SortLast<T>(s: seq<T>, key: T -> string)
    requires s != []
    ensures SortDesc(s, key) == Insert(SortDesc(s[..|s| - 1], key), s[|s| - 1], key)
  {
  }

  /** Filtering a list with a last element added. */
  lemma FilterSnoc<T>(s: seq<T>, x: T, p: T -> bool)
    ensures Filter(s + [x], p) == Filter(s, p) + (if p(x) then [x] else [])
  {
    FilterAppend(s, [x], p);
    FilterCons(x, [], p);
    assert [x] + [] == [x];
  }

  /** `sorted` is stable: the elements of each key come out in their input order. */
  lemma {:induction false} SortStable<T>(s: seq<T>, key: T -> string, k: string)
    ensures Filter(SortDesc(s, key), HasKey(key, k)) == Filter(s, HasKey(key, k))
    decreases |s|
  {
    if s != [] {
      var init, last := s[..|s| - 1], s[|s| - 1];
      assert s == init + [last];
      SortLast(s, key);
      SortStable(init, key, k);
      InsertStable(SortDesc(init, key), last, key, k);
      FilterSnoc(init, last, HasKey(key, k));
      assert HasKey(key, k)(last) == (key(last) == k);
    }
  }

  /** A prefix of a sorted list is sorted and drawn from the list. */
  lemma TakeSorted<T>(s: seq<T>, n: nat, key: T -> string)
    requires Descending(s, key) && n <= |s|
    ensures Descending(s[..n], key)
    ensures multiset(s[..n]) <= multiset(s)
  {
    assert s == s[..n] + s[n..];
  }
}
