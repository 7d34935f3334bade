/** Shared vocabulary: optional values, Python truthiness, ASCII text helpers
  * and the list operations (filter, count, first match, max-with-default)
  * that the request handlers are built from. */
module Common {

  datatype Option<T> = None | Some(value: T)

  /** `x or default` for an optional string: a missing or empty string falls back. */
  function OrElse(o: Option<string>, default: string): string
  {
    if o.Some? && o.value != "" then o.value else default
  }

  /** `d.get(key, default)`: only a missing key falls back; a present empty string stays. */
  function GetOr<T>(o: Option<T>, default: T): T
  {
    if o.Some? then o.value else default
  }

  /** Python truthiness of an optional integer (None and 0 are falsy). */
  predicate TruthyInt(o: Option<int>)
  {
    o.Some? && o.value != 0
  }

  /** Python truthiness of an optional string (None and "" are falsy). */
  predicate TruthyStr(o: Option<string>)
  {
    o.Some? && o.value != ""
  }

  // ---------------------------------------------------------------- text

  function LowerChar(c: char): char
  {
    if 'A' <= c <= 'Z' then (c as int + 32) as char else c
  }

  /** `str.lower()` on ASCII letters. */
  function Lower(s: string): (r: string)
    ensures |r| == |s|
    ensures forall i :: 0 <= i < |s| ==> r[i] == LowerChar(s[i])
  {
    if s == [] then [] else [LowerChar(s[0])] + Lower(s[1..])
  }

  /** `needle in hay` for strings. */
  predicate IsSubstring(needle: string, hay: string)
  {
    exists i :: 0 <= i <= |hay| - |needle| && OccursAt(needle, hay, i)
  }

  predicate OccursAt(needle: string, hay: string, i: int)
    requires 0 <= i <= |hay| - |needle|
  {
    hay[i..i + |needle|] == needle
  }

  /** `s[:n]` */
  function Take(s: string, n: nat): (r: string)
    ensures |r| <= n && |r| <= |s|
    ensures r == s[..|r|]
    ensures |s| <= n ==> r == s
  {
    if |s| <= n then s else s[..n]
  }

  // ---------------------------------------------------------------- lists

  /** The list comprehension `[x for x in s if p(x)]`. */
  function Filter<T>(s: seq<T>, p: T -> bool): (r: seq<T>)
    ensures |r| <= |s|
    ensures forall i :: 0 <= i < |r| ==> r[i] in s && p(r[i])
    ensures forall i :: 0 <= i < |s| && p(s[i]) ==> s[i] in r
  {
    if s == [] then []
    else if p(s[0]) then [s[0]] + Filter(s[1..], p)
    else Filter(s[1..], p)
  }

  /** `len([x for x in s if p(x)])` */
  function Count<T>(s: seq<T>, p: T -> bool): nat
  {
    |Filter(s, p)|
  }

  /** The last element adds one to the count exactly when it passes. */
  lemma CountLast<T>(s: seq<T>, p: T -> bool)
    requires s != []
    ensures Count(s, p) == Count(s[..|s| - 1], p) + if p(s[|s| - 1]) then 1 else 0
  {
    var init, x := s[..|s| - 1], s[|s| - 1];
    assert s == init + [x];
    FilterAppend(init, [x], p);
    assert Filter([x], p) == if p(x) then [x] else [];
  }

  lemma {:induction false} FilterAppend<T>(a: seq<T>, b: seq<T>, p: T -> bool)
    ensures Filter(a + b, p) == Filter(a, p) + Filter(b, p)
  {
    if a == [] {
      assert a + b == b;
    } else {
      assert (a + b)[0] == a[0] && (a + b)[1..] == a[1..] + b;
      FilterAppend(a[1..], b, p);
      if p(a[0]) {
        calc {
          Filter(a + b, p);
          [a[0]] + Filter(a[1..] + b, p);
          [a[0]] + (Filter(a[1..], p) + Filter(b, p));
          ([a[0]] + Filter(a[1..], p)) + Filter(b, p);
        }
      }
    }
  }

  /** Filtering twice is filtering once by the conjunction. */
  lemma {:induction false} FilterFilter<T>(s: seq<T>, p: T -> bool, q: T -> bool, both: T -> bool)
    requires forall i :: 0 <= i < |s| ==> both(s[i]) == (p(s[i]) && q(s[i]))
    ensures Filter(Filter(s, p), q) == Filter(s, both)
  {
    if s != [] {
      assert both(s[0]) == (p(s[0]) && q(s[0]));
      FilterFilter(s[1..], p, q, both);
    }
  }

  /** Filters by predicates that agree on every element give the same list. */
  lemma {:induction false} FilterSame<T>(s: seq<T>, p: T -> bool, q: T -> bool)
    requires forall i :: 0 <= i < |s| ==> p(s[i]) == q(s[i])
    ensures Filter(s, p) == Filter(s, q)
  {
    if s != [] {
      assert p(s[0]) == q(s[0]);
      FilterSame(s[1..], p, q);
    }
  }

  /** A filter keeps the whole list exactly when every element passes it. */
  lemma {:induction false} FilterKeepsAll<T>(s: seq<T>, p: T -> bool)
    ensures |Filter(s, p)| == |s| <==> forall i :: 0 <= i < |s| ==> p(s[i])
  {
    if s != [] {
      FilterKeepsAll(s[1..], p);
      if !p(s[0]) {
        assert |Filter(s, p)| < |s|;
      } else if |Filter(s, p)| == |s| {
        forall i | 0 <= i < |s| ensures p(s[i]) {
          if i > 0 { assert s[i] == s[1..][i - 1]; }
        }
      }
    }
  }

  /** A filter by a predicate that holds everywhere is the identity. */
  lemma {:induction false} FilterTrue<T>(s: seq<T>, p: T -> bool)
    requires forall i :: 0 <= i < |s| ==> p(s[i])
    ensures Filter(s, p) == s
  {
    if s != [] {
      assert p(s[0]);
      FilterTrue(s[1..], p);
    }
  }

  /** One comprehension of a filter chain, applied only when its argument is non-empty. */
  function Narrow<T>(s: seq<T>, on: bool, p: T -> bool): seq<T>
  {
    if on then Filter(s, p) else s
  }

  /** The test `p` when the filter is on, and no test otherwise. */
  function Relaxed<T>(on: bool, p: T -> bool): T -> bool
  {
    (x: T) => !on || p(x)
  }

  /** A switchable stage of the chain is a filter by the relaxed test. */
  lemma NarrowAsFilter<T>(s: seq<T>, on: bool, p: T -> bool)
    ensures Narrow(s, on, p) == Filter(s, Relaxed(on, p))
  {
    if on {
      FilterSame(s, p, Relaxed(on, p));
    } else {
      FilterTrue(s, Relaxed(on, p));
    }
  }

  /** A filter by a predicate that holds nowhere is empty. */
  lemma {:induction false} FilterNone<T>(s: seq<T>, p: T -> bool)
    requires forall i :: 0 <= i < |s| ==> !p(s[i])
    ensures Filter(s, p) == []
  {
    if s != [] {
      FilterNone(s[1..], p);
    }
  }

  /** Reordering a list does not change how many of its elements pass a filter. */
  lemma {:induction false} FilterPermutation<T>(a: seq<T>, b: seq<T>, p: T -> bool)
    requires multiset(a) == multiset(b)
    ensures |Filter(a, p)| == |Filter(b, p)|
    decreases |a|
  {
    if a != [] {
      assert a[0] in multiset(b);
      var k :| 0 <= k < |b| && b[k] == a[0];
      var rest := b[..k] + b[k + 1..];
      assert b == b[..k] + [b[k]] + b[k + 1..];
      assert a == [a[0]] + a[1..];
      assert multiset(a) == multiset{a[0]} + multiset(a[1..]);
      assert multiset(b) == multiset(rest) + multiset{b[k]};
      calc {
        multiset(a[1..]);
        multiset(a) - multiset{a[0]};
        multiset(b) - multiset{b[k]};
        multiset(rest);
      }
      FilterPermutation(a[1..], rest, p);
      FilterAppend(b[..k], b[k + 1..], p);
      FilterAppend(b[..k] + [b[k]], b[k + 1..], p);
      FilterAppend(b[..k], [b[k]], p);
    }
  }

  /** An element is in a filtered list exactly when it is in the list and passes. */
  lemma FilterMembers<T>(s: seq<T>, p: T -> bool)
    ensures forall x :: x in Filter(s, p) <==> x in s && p(x)
  {
    forall x | x in s && p(x) ensures x in Filter(s, p) {
      var i :| 0 <= i < |s| && s[i] == x;
    }
  }

  /** The count is positive exactly when some element passes. */
  lemma CountPositive<T>(s: seq<T>, p: T -> bool)
    ensures Count(s, p) > 0 <==> exists i :: 0 <= i < |s| && p(s[i])
  {
    if Count(s, p) > 0 {
      var x := Filter(s, p)[0];
      assert x in s;
      var i :| 0 <= i < |s| && s[i] == x;
    }
  }

  /** Counts of mutually exclusive predicates add up to the count of their union. */
  lemma {:induction false} CountExclusive<T>(s: seq<T>, p: T -> bool, q: T -> bool, either: T -> bool)
    requires forall i :: 0 <= i < |s| ==> !(p(s[i]) && q(s[i])) && either(s[i]) == (p(s[i]) || q(s[i]))
    ensures Count(s, p) + Count(s, q) == Count(s, either) <= |s|
  {
    if s != [] {
      CountExclusive(s[1..], p, q, either);
    }
  }

  /** `next((x for x in s if p(x)), None)`, as an index. */
  function FindFirst<T>(s: seq<T>, p: T -> bool): (r: Option<nat>)
    ensures r.Some? ==> r.value < |s| && p(s[r.value])
    ensures r.Some? ==> forall j :: 0 <= j < r.value ==> !p(s[j])
    ensures r.None? <==> forall j :: 0 <= j < |s| ==> !p(s[j])
  {
    if s == [] then None
    else if p(s[0]) then Some(0)
    else match FindFirst(s[1..], p)
      case None => None
      case Some(k) => Some(k + 1)
  }

  /** Searching past the end of a prefix: the prefix's first match, else the new element. */
  lemma FindFirstAppend<T>(s: seq<T>, x: T, p: T -> bool)
    ensures FindFirst(s + [x], p) == if FindFirst(s, p).Some? then FindFirst(s, p)
                                     else if p(x) then Some(|s|) else None
  {
    var r := FindFirst(s + [x], p);
    assert forall j :: 0 <= j < |s| ==> (s + [x])[j] == s[j];
    assert (s + [x])[|s|] == x;
    if FindFirst(s, p).Some? {
      var k := FindFirst(s, p).value;
      assert p((s + [x])[k]);
    }
  }

  /** The present values of a list of options, in order. */
  function Somes<T>(xs: seq<Option<T>>): (r: seq<T>)
    ensures |r| <= |xs|
    decreases |xs|
  {
    if xs == [] then []
    else match xs[|xs| - 1]
      case None => Somes(xs[..|xs| - 1])
      case Some(v) => Somes(xs[..|xs| - 1]) + [v]
  }

  lemma SomesLast<T>(xs: seq<Option<T>>)
    requires xs != []
    ensures var n := |xs| - 1;
      Somes(xs) == if xs[n].None? then Somes(xs[..n]) else Somes(xs[..n]) + [xs[n].value]
  {
  }

  /** Somes(xs) lists xs's present values once each, in order: entry k is the
    * value at index idx[k], the indices increase, and an index is among them
    * exactly when its option is present. */
  lemma {:induction false} SomesSpec<T>(xs: seq<Option<T>>) returns (idx: seq<nat>)
    ensures |idx| == |Somes(xs)|
    ensures forall k :: 0 <= k < |idx| ==> idx[k] < |xs| && xs[idx[k]] == Some(Somes(xs)[k])
    ensures forall k, l :: 0 <= k < l < |idx| ==> idx[k] < idx[l]
    ensures forall i :: 0 <= i < |xs| ==> (xs[i].Some? <==> i in idx)
    decreases |xs|
  {
    if xs == [] {
      idx := [];
    } else {
      var n := |xs| - 1;
      var idx' := SomesSpec(xs[..n]);
      assert forall i :: 0 <= i < n ==> xs[..n][i] == xs[i];
      if xs[n].None? {
        idx := idx';
      } else {
        idx := idx' + [n];
      }
    }
  }

  /** `max(ids, default=0)` */
  function MaxOrZero(ids: seq<int>): (m: int)
    ensures forall i :: i in ids ==> i <= m
    ensures ids == [] ==> m == 0
    ensures ids != [] ==> m in ids
  {
    if ids == [] then 0
    else if |ids| == 1 then ids[0]
    else
      var rest := MaxOrZero(ids[1..]);
      assert forall i :: i in ids ==> i == ids[0] || i in ids[1..];
      if ids[0] >= rest then ids[0] else rest
  }

  /** `max([x['id'] for x in s], default=0) + 1`: an id no element of s carries. */
  function NextId<T>(s: seq<T>, id: T -> int): (r: int)
    ensures forall i :: 0 <= i < |s| ==> id(s[i]) < r
    ensures s == [] ==> r == 1
    ensures s != [] ==> exists i :: 0 <= i < |s| && id(s[i]) == r - 1
  {
    var ids := seq(|s|, i requires 0 <= i < |s| => id(s[i]));
    assert forall i :: 0 <= i < |s| ==> ids[i] == id(s[i]) && ids[i] in ids;
    assert forall x :: x in ids ==> exists i :: 0 <= i < |s| && ids[i] == x;
    MaxOrZero(ids) + 1
  }

  /** `xs.remove(x)` when `x in xs`: drops the first occurrence. */
  function RemoveFirst<T(==)>(xs: seq<T>, x: T): (r: seq<T>)
    ensures x in xs ==> |r| == |xs| - 1 && multiset(r) == multiset(xs) - multiset{x}
    ensures x !in xs ==> r == xs
  {
    if xs == [] then []
    else
      assert xs == [xs[0]] + xs[1..];
      if xs[0] == x then xs[1..]
      else [xs[0]] + RemoveFirst(xs[1..], x)
  }

  ghost function Is<T>(x: T): T -> bool { y => y == x }

  /** What RemoveFirst leaves: the list without the element at the first index holding x. */
  lemma RemoveFirstAt<T>(xs: seq<T>, x: T)
    requires x in xs
    ensures FindFirst(xs, Is(x)).Some?
    ensures RemoveFirst(xs, x) == xs[..FindFirst(xs, Is(x)).value] + xs[FindFirst(xs, Is(x)).value + 1..]
  {
    var k :| 0 <= k < |xs| && xs[k] == x;
    assert Is(x)(xs[k]);
    RemoveFirstIndex(xs, x, FindFirst(xs, Is(x)).value);
  }

  lemma {:induction false} RemoveFirstIndex<T>(xs: seq<T>, x: T, i: nat)
    requires FindFirst(xs, Is(x)) == Some(i)
    ensures RemoveFirst(xs, x) == xs[..i] + xs[i + 1..]
    decreases i
  {
    if i == 0 {
      RemoveFirstHead(xs, x);
    } else {
      FirstInTail(xs, x, i);
      RemoveFirstIndex(xs[1..], x, i - 1);
      RemoveFirstLater(xs, x, i - 1);
    }
  }

  /** A first match past the head is one place earlier in the tail. */
  lemma FirstInTail<T>(xs: seq<T>, x: T, i: nat)
    requires FindFirst(xs, Is(x)) == Some(i) && i > 0
    ensures xs != [] && xs[0] != x && FindFirst(xs[1..], Is(x)) == Some(i - 1)
  {
    assert !Is(x)(xs[0]);
  }

  lemma RemoveFirstHead<T>(xs: seq<T>, x: T)
    requires FindFirst(xs, Is(x)) == Some(0)
    ensures RemoveFirst(xs, x) == xs[..0] + xs[1..]
  {
    assert Is(x)(xs[0]);
  }

  /** One step of RemoveFirstIndex: the first match at i in the tail is removed with the head kept. */
  lemma RemoveFirstLater<T>(xs: seq<T>, x: T, i: nat)
    requires xs != [] && xs[0] != x && i + 1 < |xs|
    requires RemoveFirst(xs[1..], x) == xs[1..][..i] + xs[1..][i + 1..]
    ensures RemoveFirst(xs, x) == xs[..i + 1] + xs[i + 2..]
  {
    RemoveFirstCons(xs, x);
    ConsSplit(xs, i);
  }

  lemma RemoveFirstCons<T>(xs: seq<T>, x: T)
    requires xs != [] && xs[0] != x
    ensures RemoveFirst(xs, x) == [xs[0]] + RemoveFirst(xs[1..], x)
  {
  }

  lemma ConsSplit<T>(xs: seq<T>, i: nat)
    requires i + 1 < |xs|
    ensures [xs[0]] + (xs[1..][..i] + xs[1..][i + 1..]) == xs[..i + 1] + xs[i + 2..]
  {
    assert xs[..i + 1] == [xs[0]] + xs[1..][..i];
    assert xs[i + 2..] == xs[1..][i + 1..];
  }

  predicate NoDuplicates<T(==)>(xs: seq<T>)
  {
    forall i, j :: 0 <= i < j < |xs| ==> xs[i] != xs[j]
  }

  /** Removing the first occurrence from a list without duplicates removes every occurrence. */
  lemma {:induction false} RemoveFirstAll<T>(xs: seq<T>, x: T)
    requires NoDuplicates(xs)
    ensures x !in RemoveFirst(xs, x)
    ensures forall y :: y in RemoveFirst(xs, x) <==> y in xs && y != x
  {
    if xs != [] && xs[0] != x {
      assert NoDuplicates(xs[1..]) by {
        forall i, j | 0 <= i < j < |xs[1..]| ensures xs[1..][i] != xs[1..][j] {
          assert xs[1..][i] == xs[i + 1] && xs[1..][j] == xs[j + 1];
        }
      }
      RemoveFirstAll(xs[1..], x);
    } else if xs != [] {
      assert forall k :: 0 < k < |xs| ==> xs[k] != xs[0];
      assert forall y :: y in xs[1..] ==> y != x;
    }
  }
}
