/** Sequence helpers standing in for the JavaScript array operations the
    components use: `filter`, `includes`, `slice(0, n)`, index filtering
    and the add-or-remove toggle that three components share. */
module Seqs {

  /** `s.filter(p)`: the elements satisfying `p`, in their original order. */
  function Filter<T(!new)>(s: seq<T>, p: T -> bool): (r: seq<T>)
    ensures |r| <= |s|
    ensures forall x :: x in r <==> x in s && p(x)
  {
    if s == [] then [] else (if p(s[0]) then [s[0]] else []) + Filter(s[1..], p)
  }

  /** `a` is `b` with some elements dropped and the rest kept in order
      (greedy matching decides this exactly). */
  predicate IsSubsequence<T(==)>(a: seq<T>, b: seq<T>)
    decreases |b|
  {
    if a == [] then true
    else if b == [] then false
    else if a[0] == b[0] then IsSubsequence(a[1..], b[1..])
    else IsSubsequence(a, b[1..])
  }

  /** Filtering keeps the survivors in their original relative order. */
  lemma {:induction false} FilterIsSubsequence<T(!new)>(s: seq<T>, p: T -> bool)
    ensures IsSubsequence(Filter(s, p), s)
  {
    if s != [] {
      FilterIsSubsequence(s[1..], p);
      var rest := Filter(s[1..], p);
      if p(s[0]) {
        assert Filter(s, p) == [s[0]] + rest;
        assert (Filter(s, p))[1..] == rest;
      } else {
        assert Filter(s, p) == rest;
        SkipHeadKeepsSubsequence(rest, s);
      }
    }
  }

  /** Dropping the first element of the larger sequence keeps a
      subsequence relation that did not use it. */
  lemma {:induction false} SkipHeadKeepsSubsequence<T>(a: seq<T>, b: seq<T>)
    requires b != [] && IsSubsequence(a, b[1..])
    ensures IsSubsequence(a, b)
    decreases |b|, 0
  {
    if a != [] && a[0] == b[0] {
      SubsequenceTail(a, b[1..]);
    }
  }

  /** The tail of a subsequence is a subsequence. */
  lemma {:induction false} SubsequenceTail<T>(a: seq<T>, b: seq<T>)
    requires a != [] && IsSubsequence(a, b)
    ensures IsSubsequence(a[1..], b)
    decreases |b|, 1
  {
    if a[1..] != [] {
      if a[0] == b[0] {
        SkipHeadKeepsSubsequence(a[1..], b);
      } else {
        SubsequenceTail(a, b[1..]);
        SkipHeadKeepsSubsequence(a[1..], b);
      }
    }
  }

  /** A subsequence is never longer than the sequence it is taken from:
      a list view never shows more rows than it was given. */
  lemma {:induction false} SubsequenceLength<T>(a: seq<T>, b: seq<T>)
    requires IsSubsequence(a, b)
    ensures |a| <= |b|
    decreases |b|
  {
    if a != [] {
      if a[0] == b[0] {
        SubsequenceLength(a[1..], b[1..]);
      } else {
        SubsequenceLength(a, b[1..]);
      }
    }
  }

  /** Filtering distributes over concatenation. */
  lemma {:induction false} FilterAppend<T(!new)>(a: seq<T>, b: seq<T>, p: T -> bool)
    ensures Filter(a + b, p) == Filter(a, p) + Filter(b, p)
  {
    if a != [] {
      assert (a + b)[1..] == a[1..] + b;
      FilterAppend(a[1..], b, p);
    } else {
      assert a + b == b;
    }
  }

  /** A filter that every element passes changes nothing. */
  lemma {:induction false} FilterKeepsAll<T(!new)>(s: seq<T>, p: T -> bool)
    requires forall x :: x in s ==> p(x)
    ensures Filter(s, p) == s
  {
    if s != [] {
      FilterKeepsAll(s[1..], p);
    }
  }

  // ---------------------------------------------------------------------

  /** `s.filter(item => item !== x)`. */
  function RemoveAll<T(==,!new)>(s: seq<T>, x: T): (r: seq<T>)
    ensures x !in r
    ensures forall y :: y != x ==> (y in r <==> y in s)
  {
    if s == [] then []
    else if s[0] == x then RemoveAll(s[1..], x)
    else [s[0]] + RemoveAll(s[1..], x)
  }

  /** `s.includes(x) ? s.filter(i => i !== x) : [...s, x]`, the toggle
      shared by the wizard's check boxes and the expandable order rows. */
  function Toggle<T(==,!new)>(s: seq<T>, x: T): (r: seq<T>)
    ensures x in r <==> x !in s
    ensures forall y :: y != x ==> (y in r <==> y in s)
  {
    if x in s then RemoveAll(s, x) else s + [x]
  }

  /** Removing a value that is not there changes nothing. */
  lemma {:induction false} RemoveAllAbsent<T(!new)>(s: seq<T>, x: T)
    requires x !in s
    ensures RemoveAll(s, x) == s
  {
    if s != [] {
      RemoveAllAbsent(s[1..], x);
    }
  }

  /** Toggling an absent value twice restores the list exactly. */
  lemma ToggleTwiceAbsent<T(!new)>(s: seq<T>, x: T)
    requires x !in s
    ensures Toggle(Toggle(s, x), x) == s
  {
    RemoveAllAppend(s, [x], x);
    RemoveAllAbsent(s, x);
    assert RemoveAll([x], x) == [];
  }

  /** Toggling a present value twice moves it to the end: the same members,
      with every other value in its old order. */
  lemma ToggleTwicePresent<T(!new)>(s: seq<T>, x: T)
    requires x in s
    ensures Toggle(Toggle(s, x), x) == RemoveAll(s, x) + [x]
    ensures forall y :: y in Toggle(Toggle(s, x), x) <==> y in s
  {
  }

  /** Removal distributes over concatenation. */
  lemma {:induction false} RemoveAllAppend<T(!new)>(a: seq<T>, b: seq<T>, x: T)
    ensures RemoveAll(a + b, x) == RemoveAll(a, x) + RemoveAll(b, x)
  {
    if a != [] {
      assert (a + b)[1..] == a[1..] + b;
      RemoveAllAppend(a[1..], b, x);
    } else {
      assert a + b == b;
    }
  }

  // ---------------------------------------------------------------------

  /** `s.slice(0, n)`. */
  function Take<T>(s: seq<T>, n: nat): (r: seq<T>)
    ensures |r| == if n <= |s| then n else |s|
    ensures r == s[..|r|]
  {
    if n <= |s| then s[..n] else s
  }

  /** `s.filter((_, i) => i !== index)`, with positions counted from `base`. */
  function DropIndexFrom<T>(s: seq<T>, index: int, base: int): seq<T>
  {
    if s == [] then []
    else (if base != index then [s[0]] else []) + DropIndexFrom(s[1..], index, base + 1)
  }

  /** `s.filter((_, i) => i !== index)`. */
  function DropIndex<T>(s: seq<T>, index: int): seq<T> {
    DropIndexFrom(s, index, 0)
  }

  /** Index filtering against the positional definition: with the
      positions starting at `base`, it deletes exactly the element at
      `index - base` when that is in range and nothing otherwise. */
  lemma {:induction false} DropIndexFromSlices<T>(s: seq<T>, index: int, base: int)
    ensures base <= index < base + |s| ==>
      DropIndexFrom(s, index, base) == s[..index - base] + s[index - base + 1..]
    ensures !(base <= index < base + |s|) ==> DropIndexFrom(s, index, base) == s
  {
    if s != [] {
      DropIndexFromSlices(s[1..], index, base + 1);
      if index == base {
        assert s[..0] + s[1..] == s[1..];
      } else if base < index < base + |s| {
        assert s[..index - base] == [s[0]] + s[1..][..index - base - 1];
        assert s[index - base + 1..] == s[1..][index - base..];
      } else {
        assert [s[0]] + s[1..] == s;
      }
    }
  }

  /** `removeFile(i)` deletes exactly the element at `i` and keeps the
      rest in order; an index outside the list deletes nothing. */
  lemma DropIndexSlices<T>(s: seq<T>, index: int)
    ensures 0 <= index < |s| ==> DropIndex(s, index) == s[..index] + s[index + 1..]
    ensures !(0 <= index < |s|) ==> DropIndex(s, index) == s
  {
    DropIndexFromSlices(s, index, 0);
  }
}
