/** Sequence operations the services use through the JavaScript array library:
    `filter`, `find`/`findIndex` and `slice`, each with the properties the
    services rely on. */
module Seqs {
  import opened Wrappers

  /** `xs.filter(p)`: the elements satisfying `p`, in their original order,
      duplicates included. */
  function Filter<T(!new)>(s: seq<T>, p: T -> bool): (r: seq<T>)
    ensures |r| <= |s|
    ensures forall x :: x in r <==> x in s && p(x)
    ensures forall x :: multiset(r)[x] == if p(x) then multiset(s)[x] else 0
    decreases |s|
  {
    if s == [] then []
    else
      var rest := Filter(s[1..], p);
      assert s == [s[0]] + s[1..];
      if p(s[0]) then [s[0]] + rest else rest
  }

  /** Filtering a concatenation filters each part. */
  lemma {:induction false} FilterAppend<T(!new)>(a: seq<T>, b: seq<T>, p: T -> bool)
    ensures Filter(a + b, p) == Filter(a, p) + Filter(b, p)
    decreases |a|
  {
    if a == [] {
      assert a + b == b;
    } else {
      assert (a + b)[1..] == a[1..] + b;
      FilterAppend(a[1..], b, p);
    }
  }

  /** Filtering with a predicate that every element satisfies changes nothing. */
  lemma {:induction false} FilterAll<T(!new)>(s: seq<T>, p: T -> bool)
    requires forall i :: 0 <= i < |s| ==> p(s[i])
    ensures Filter(s, p) == s
    decreases |s|
  {
    if s != [] {
      FilterAll(s[1..], p);
    }
  }

  /** Filtering with a predicate that no element satisfies leaves nothing. */
  lemma {:induction false} FilterNone<T(!new)>(s: seq<T>, p: T -> bool)
    requires forall i :: 0 <= i < |s| ==> !p(s[i])
    ensures Filter(s, p) == []
    decreases |s|
  {
    if s != [] {
      FilterNone(s[1..], p);
    }
  }

  /** `xs.findIndex(p)` (with -1 as None): the first position whose element satisfies `p`. */
  function FindFirst<T>(s: seq<T>, p: T -> bool): (r: Option<nat>)
    ensures r.Some? ==> r.value < |s| && p(s[r.value])
    ensures r.Some? ==> forall k :: 0 <= k < r.value ==> !p(s[k])
    ensures r.None? <==> forall k :: 0 <= k < |s| ==> !p(s[k])
    decreases |s|
  {
    if s == [] then None
    else if p(s[0]) then Some(0)
    else match FindFirst(s[1..], p)
      case None => None
      case Some(i) => Some(i + 1)
  }

  /** The first value `f(k)` present, trying `k` from `i` up to `n`. */
  function FirstSome<T>(f: nat -> Option<T>, i: nat, n: nat): Option<T>
    decreases n - i
  {
    if f(i).Some? then f(i)
    else if i >= n then None
    else FirstSome(f, i + 1, n)
  }

  /** The search finds nothing exactly when no `f(k)` is present. */
  lemma {:induction false} FirstSomeNone<T>(f: nat -> Option<T>, i: nat, n: nat)
    requires i <= n
    ensures FirstSome(f, i, n).None? <==> forall k :: i <= k <= n ==> f(k).None?
    decreases n - i
  {
    if f(i).None? && i < n {
      FirstSomeNone(f, i + 1, n);
    }
  }

  /** What the search finds is `f(k)` for the least `k` where it is present. */
  lemma {:induction false} FirstSomeLeast<T>(f: nat -> Option<T>, i: nat, n: nat)
    requires i <= n
    ensures FirstSome(f, i, n).Some? ==>
      exists k :: i <= k <= n && f(k) == FirstSome(f, i, n) && forall k' :: i <= k' < k ==> f(k').None?
    decreases n - i
  {
    if f(i).None? && i < n && FirstSome(f, i, n).Some? {
      FirstSomeLeast(f, i + 1, n);
      var k :| i + 1 <= k <= n && f(k) == FirstSome(f, i + 1, n) && forall k' :: i + 1 <= k' < k ==> f(k').None?;
      assert forall k' :: i <= k' < k ==> f(k').None?;
    }
  }

  /** `r` occurs in `s` with its order kept (not necessarily contiguously).
      Greedy matching of the head is complete for subsequences. */
  ghost predicate IsSubseq<T>(r: seq<T>, s: seq<T>)
    decreases |s|
  {
    if r == [] then true
    else if s == [] then false
    else if r[0] == s[0] then IsSubseq(r[1..], s[1..])
    else IsSubseq(r, s[1..])
  }

  lemma {:induction false} SubseqDropHead<T>(r: seq<T>, s: seq<T>)
    requires r != [] && IsSubseq(r, s)
    ensures IsSubseq(r[1..], s)
    decreases |s|, 0
  {
    if r[0] != s[0] {
      SubseqDropHead(r, s[1..]);
      SubseqExtend(r[1..], s[0], s[1..]);
      assert [s[0]] + s[1..] == s;
    } else {
      SubseqExtend(r[1..], s[0], s[1..]);
      assert [s[0]] + s[1..] == s;
    }
  }

  lemma {:induction false} SubseqExtend<T>(r: seq<T>, x: T, s: seq<T>)
    requires IsSubseq(r, s)
    ensures IsSubseq(r, [x] + s)
    decreases |s|, 1
  {
    assert ([x] + s)[1..] == s;
    if r != [] && r[0] == x {
      SubseqDropHead(r, s);
    }
  }

  lemma {:induction false} SubseqTrans<T>(a: seq<T>, b: seq<T>, c: seq<T>)
    requires IsSubseq(a, b) && IsSubseq(b, c)
    ensures IsSubseq(a, c)
    decreases |c|
  {
    if a != [] {
      if b[0] == c[0] {
        if a[0] == b[0] {
          SubseqTrans(a[1..], b[1..], c[1..]);
        } else {
          SubseqTrans(a, b[1..], c[1..]);
        }
      } else {
        SubseqTrans(a, b, c[1..]);
        if a[0] == c[0] {
          SubseqDropHead(a, c[1..]);
        }
      }
    }
  }

  lemma {:induction false} FilterIsSubseq<T(!new)>(s: seq<T>, p: T -> bool)
    ensures IsSubseq(Filter(s, p), s)
    decreases |s|
  {
    if s != [] {
      FilterIsSubseq(s[1..], p);
    }
  }

  /** What a subsequence holds, the sequence holds. */
  lemma {:induction false} SubseqMembers<T>(r: seq<T>, s: seq<T>)
    requires IsSubseq(r, s)
    ensures forall x :: x in r ==> x in s
    decreases |s|
  {
    if r != [] {
      if r[0] == s[0] {
        SubseqMembers(r[1..], s[1..]);
        forall x | x in r
          ensures x in s
        {
          var i :| 0 <= i < |r| && r[i] == x;
          if i > 0 {
            assert r[1..][i - 1] == x;
            assert x in r[1..];
            var j :| 0 <= j < |s[1..]| && s[1..][j] == x;
            assert s[j + 1] == x;
          }
        }
      } else {
        SubseqMembers(r, s[1..]);
      }
    }
  }

  lemma {:induction false} SubseqRefl<T>(s: seq<T>)
    ensures IsSubseq(s, s)
    decreases |s|
  {
    if s != [] {
      SubseqRefl(s[1..]);
    }
  }

  /** A contiguous slice keeps order. */
  lemma {:induction false} SliceIsSubseq<T>(s: seq<T>, i: nat, j: nat)
    requires i <= j <= |s|
    ensures IsSubseq(s[i..j], s)
    decreases |s|
  {
    if s == [] {
    } else if i == 0 && j == |s| {
      assert s[i..j] == s;
      SubseqRefl(s);
    } else if i == 0 {
      if j == 0 {
      } else {
        SliceIsSubseq(s[1..], 0, j - 1);
        assert s[1..][0..j - 1] == s[i..j][1..];
      }
    } else {
      SliceIsSubseq(s[1..], i - 1, j - 1);
      assert s[1..][i - 1..j - 1] == s[i..j];
      SubseqExtend(s[i..j], s[0], s[1..]);
      assert [s[0]] + s[1..] == s;
    }
  }

  /** Where `Array.prototype.slice` puts a relative index for a sequence of length `len`. */
  function SliceIndex(len: nat, x: int): (k: nat)
    ensures k <= len
    ensures 0 <= x <= len ==> k == x
  {
    if x < 0 then (if len + x < 0 then 0 else len + x)
    else if x > len then len
    else x
  }

  /** `xs.slice(start, end)` with JavaScript's treatment of negative and
      out-of-range indices. */
  function JsSlice<T>(s: seq<T>, start: int, end: int): (r: seq<T>)
    ensures |r| <= |s|
    ensures 0 <= start <= end <= |s| ==> r == s[start..end]
  {
    var a := SliceIndex(|s|, start);
    var b := SliceIndex(|s|, end);
    if a < b then s[a..b] else []
  }

  /** A slice is a window of the sequence: it keeps order. */
  lemma JsSliceIsSubseq<T>(s: seq<T>, start: int, end: int)
    ensures IsSubseq(JsSlice(s, start, end), s)
  {
    var a := SliceIndex(|s|, start);
    var b := SliceIndex(|s|, end);
    if a < b {
      SliceIsSubseq(s, a, b);
    }
  }

  /** For a positive width `l`, `slice(x, x + l)` has at most `l` elements
      wherever `x` falls, negative offsets included. */
  lemma JsSliceWidth<T>(s: seq<T>, x: int, l: int)
    requires l > 0
    ensures |JsSlice(s, x, x + l)| <= l
  {
  }

  /** A window `slice(x, x + l)` keeps order, holds only elements of the
      sequence and, for a positive width, at most `l` of them. */
  lemma JsSliceWindow<T>(s: seq<T>, x: int, l: int)
    ensures IsSubseq(JsSlice(s, x, x + l), s)
    ensures forall y :: y in JsSlice(s, x, x + l) ==> y in s
    ensures l > 0 ==> |JsSlice(s, x, x + l)| <= l
  {
    JsSliceIsSubseq(s, x, x + l);
    SubseqMembers(JsSlice(s, x, x + l), s);
    if l > 0 {
      JsSliceWidth(s, x, l);
    }
  }

  /** A leading slice of a non-empty sequence starts with its first element. */
  lemma JsSliceHead<T>(s: seq<T>, n: int)
    requires s != [] && n >= 1
    ensures JsSlice(s, 0, n) != [] && JsSlice(s, 0, n)[0] == s[0]
  {
  }

  /** The positions of `s` whose element satisfies `p`. */
  ghost function Positions<T>(s: seq<T>, p: T -> bool): set<nat> {
    set i: nat | i < |s| && p(s[i])
  }

  /** Appending one element adds its position exactly when it satisfies `p`. */
  lemma PositionsSnoc<T>(s: seq<T>, x: T, p: T -> bool)
    ensures Positions(s + [x], p) == Positions(s, p) + (if p(x) then {|s|} else {})
    ensures |s| !in Positions(s, p)
  {
    var t := s + [x];
    assert forall i: nat :: i < |s| ==> t[i] == s[i];
    assert t[|s|] == x;
  }

  /** Appending one element adds one position exactly when it satisfies `p`. */
  lemma PositionsSnocCount<T>(s: seq<T>, x: T, p: T -> bool)
    ensures |Positions(s + [x], p)| == |Positions(s, p)| + if p(x) then 1 else 0
  {
    PositionsSnoc(s, x, p);
  }
}
