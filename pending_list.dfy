/** The edits the route handlers make to a user's `pendingTasks` array:
    `indexOf`, `indexOf` followed by `push` (append when absent), `indexOf`
    followed by `splice(index, 1)` (remove the first occurrence), and the
    order-preserving `filter` that computes a list difference. */
module PendingList {

  /** Each element occurs at most once. */
  predicate NoDup<T(==)>(s: seq<T>) {
    forall i, j :: 0 <= i < j < |s| ==> s[i] != s[j]
  }

  /** `sub` is `s` with some elements dropped and the others kept in order. */
  predicate IsSubsequence<T(==)>(sub: seq<T>, s: seq<T>)
    decreases |s|
  {
    if s == [] then sub == []
    else IsSubsequence(sub, s[1..]) || (sub != [] && sub[0] == s[0] && IsSubsequence(sub[1..], s[1..]))
  }

  /** `s.indexOf(x)`: the first index holding `x`, or -1. */
  method IndexOf<T(==)>(s: seq<T>, x: T) returns (i: int)
    ensures -1 <= i < |s|
    ensures i == -1 <==> x !in s
    ensures 0 <= i ==> s[i] == x && x !in s[..i]
  {
    i := 0;
    while i < |s|
      invariant 0 <= i <= |s|
      invariant x !in s[..i]
    {
      if s[i] == x {
        return;
      }
      i := i + 1;
    }
    assert s[..i] == s;
    i := -1;
  }

  /** The list after `splice(s.indexOf(x), 1)` when `x` is present; unchanged otherwise. */
  function RemoveFirst<T(==)>(s: seq<T>, x: T): (r: seq<T>)
    ensures x !in s ==> r == s
    ensures multiset(r) == multiset(s) - multiset{x}
  {
    if s == [] then []
    else if s[0] == x then
      assert s == [s[0]] + s[1..];
      s[1..]
    else
      assert s == [s[0]] + s[1..];
      [s[0]] + RemoveFirst(s[1..], x)
  }

  /** The list after `if (s.indexOf(x) === -1) s.push(x)`. */
  function AppendIfAbsent<T(==)>(s: seq<T>, x: T): (r: seq<T>)
    ensures x in r
    ensures |s| <= |r| && r[..|s|] == s
    ensures multiset(r) == if x in s then multiset(s) else multiset(s) + multiset{x}
    ensures NoDup(s) ==> NoDup(r)
  {
    if x in s then s else s + [x]
  }

  /** `a.filter(y => b.indexOf(y) === -1)`: the entries of `a` that `b` lacks, in order. */
  function Without<T(==,!new)>(a: seq<T>, b: seq<T>): (r: seq<T>)
    ensures forall y :: y in r <==> y in a && y !in b
    ensures forall y :: y !in b ==> multiset(r)[y] == multiset(a)[y]
  {
    if a == [] then []
    else if a[0] in b then
      assert a == [a[0]] + a[1..];
      Without(a[1..], b)
    else
      assert a == [a[0]] + a[1..];
      [a[0]] + Without(a[1..], b)
  }

  lemma NoDupTail<T>(s: seq<T>)
    requires NoDup(s) && s != []
    ensures NoDup(s[1..]) && s[0] !in s[1..]
  {
  }

  lemma NoDupCons<T>(a: T, s: seq<T>)
    requires NoDup(s) && a !in s
    ensures NoDup([a] + s)
  {
  }

  /** Without duplicates, every element is counted at most once. */
  lemma {:induction false} NoDupAtMostOnce<T>(s: seq<T>, x: T)
    requires NoDup(s)
    ensures multiset(s)[x] <= 1
  {
    if s != [] {
      NoDupTail(s);
      NoDupAtMostOnce(s[1..], x);
      assert s == [s[0]] + s[1..];
      if s[0] == x {
        assert multiset(s[1..])[x] == 0;
      }
    }
  }

  /** `splice` at the index `indexOf` reports removes exactly the first occurrence. */
  lemma {:induction false} SpliceAtIndexOf<T>(s: seq<T>, x: T, i: nat)
    requires i < |s| && s[i] == x && x !in s[..i]
    ensures s[..i] + s[i + 1..] == RemoveFirst(s, x)
  {
    if i > 0 {
      var tail := s[1..];
      assert s[..i] == [s[0]] + tail[..i - 1];
      assert s[i + 1..] == tail[i..];
      SpliceAtIndexOf(tail, x, i - 1);
    }
  }

  /** On a list without duplicates, removing `x` removes every occurrence and keeps the list duplicate-free. */
  lemma {:induction false} RemoveFirstNoDup<T>(s: seq<T>, x: T)
    requires NoDup(s)
    ensures x !in RemoveFirst(s, x) && NoDup(RemoveFirst(s, x))
  {
    NoDupAtMostOnce(s, x);
    if s != [] && s[0] != x {
      NoDupTail(s);
      RemoveFirstNoDup(s[1..], x);
      var rest := RemoveFirst(s[1..], x);
      assert s[0] !in rest by {
        assert multiset(rest)[s[0]] <= multiset(s[1..])[s[0]];
      }
      NoDupCons(s[0], rest);
    } else if s != [] {
      NoDupTail(s);
    }
  }

  lemma {:induction false} SubsequenceOfItself<T>(s: seq<T>)
    ensures IsSubsequence(s, s)
  {
    if s != [] {
      SubsequenceOfItself(s[1..]);
    }
  }

  /** Removing the first occurrence keeps the order of the remaining entries. */
  lemma {:induction false} RemoveFirstIsSubsequence<T>(s: seq<T>, x: T)
    ensures IsSubsequence(RemoveFirst(s, x), s)
  {
    if s != [] {
      if s[0] == x {
        SubsequenceOfItself(s[1..]);
      } else {
        RemoveFirstIsSubsequence(s[1..], x);
        var r := RemoveFirst(s, x);
        assert r[0] == s[0] && r[1..] == RemoveFirst(s[1..], x);
      }
    }
  }

  /** The filter keeps the order of the entries it keeps. */
  lemma {:induction false} WithoutIsSubsequence<T(!new)>(a: seq<T>, b: seq<T>)
    ensures IsSubsequence(Without(a, b), a)
  {
    if a != [] {
      WithoutIsSubsequence(a[1..], b);
      if a[0] !in b {
        var r := Without(a, b);
        assert r[0] == a[0] && r[1..] == Without(a[1..], b);
      }
    }
  }
}
