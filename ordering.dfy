/** Orders and sorting: an insertion sort (not stable) under any total preorder, and the order of strings. */
module Ordering {

  /** le is total and transitive on the elements of s. */
  ghost predicate TotalPreorderOn<T>(s: seq<T>, le: (T, T) -> bool) {
    && (forall a, b :: a in s && b in s ==> le(a, b) || le(b, a))
    && (forall a, b, c :: a in s && b in s && c in s && le(a, b) && le(b, c) ==> le(a, c))
  }

  predicate SortedBy<T>(s: seq<T>, le: (T, T) -> bool) {
    forall i, j :: 0 <= i < j < |s| ==> le(s[i], s[j])
  }

  /** Inserts x into the sorted sequence s before the first element it precedes. */
  function InsertBy<T>(x: T, s: seq<T>, le: (T, T) -> bool): (r: seq<T>)
    ensures multiset(r) == multiset{x} + multiset(s)
  {
    if s == [] then [x]
    else if le(x, s[0]) then [x] + s
    else
      assert s == [s[0]] + s[1..];
      [s[0]] + InsertBy(x, s[1..], le)
  }

  lemma {:induction false} InsertBySorted<T>(x: T, s: seq<T>, le: (T, T) -> bool)
    requires TotalPreorderOn([x] + s, le)
    requires SortedBy(s, le)
    ensures SortedBy(InsertBy(x, s, le), le)
  {
    if s == [] {
    } else if le(x, s[0]) {
      forall j | 0 <= j < |s| ensures le(x, s[j]) {
        if j > 0 {
          assert s[0] in [x] + s && s[j] in [x] + s && x in [x] + s;
        }
      }
    } else {
      var u := s[1..];
      assert forall a :: a in [x] + u ==> a in [x] + s;
      InsertBySorted(x, u, le);
      var t := InsertBy(x, u, le);
      assert s[0] in [x] + s && x in [x] + s;
      assert le(s[0], x);
      forall j | 0 <= j < |t| ensures le(s[0], t[j]) {
        assert t[j] in multiset(t);
        if t[j] != x {
          assert t[j] in u;
          var k :| 0 <= k < |u| && u[k] == t[j];
          assert s[k + 1] == t[j];
        }
      }
    }
  }

  /** Orders s by le; the result is a permutation of s. */
  function SortBy<T>(s: seq<T>, le: (T, T) -> bool): (r: seq<T>)
    requires TotalPreorderOn(s, le)
    ensures multiset(r) == multiset(s)
    ensures SortedBy(r, le)
  {
    if s == [] then []
    else
      assert s == [s[0]] + s[1..];
      assert forall a :: a in s[1..] ==> a in s;
      var t := SortBy(s[1..], le);
      assert forall a :: a in [s[0]] + t ==> a in s by {
        forall a | a in [s[0]] + t ensures a in s {
          if a != s[0] { assert a in multiset(t); }
        }
      }
      InsertBySorted(s[0], t, le);
      InsertBy(s[0], t, le)
  }

  /** Lexicographic order of strings by character code; a proper prefix comes first. */
  predicate StrLe(a: string, b: string) {
    if a == [] then true
    else if b == [] then false
    else if a[0] != b[0] then a[0] < b[0]
    else StrLe(a[1..], b[1..])
  }

  lemma {:induction false} StrLeTotal(a: string, b: string)
    ensures StrLe(a, b) || StrLe(b, a)
  {
    if a != [] && b != [] && a[0] == b[0] {
      StrLeTotal(a[1..], b[1..]);
    }
  }

  lemma {:induction false} StrLeTransitive(a: string, b: string, c: string)
    requires StrLe(a, b) && StrLe(b, c)
    ensures StrLe(a, c)
  {
    if a != [] && b != [] && c != [] && a[0] == b[0] && b[0] == c[0] {
      StrLeTransitive(a[1..], b[1..], c[1..]);
    }
  }
}
