/** Small vocabulary shared by every module: optional values, duplicate-free
    sequences and sums. */
module Common {

  datatype Option<+T> = None | Some(value: T)

  function Elems<T>(s: seq<T>): (r: set<T>) {
    set x | x in s
  }

  predicate NoDup<T(==)>(s: seq<T>) {
    forall i, j :: 0 <= i < j < |s| ==> s[i] != s[j]
  }

  function Sum(s: seq<nat>): nat {
    if |s| == 0 then 0 else Sum(s[..|s| - 1]) + s[|s| - 1]
  }

  /** JavaScript's `[...new Set(s)]`: first occurrences, in order. */
  function Dedup<T(==)>(s: seq<T>): (r: seq<T>)
    ensures NoDup(r) && Elems(r) == Elems(s)
  {
    if |s| == 0 then []
    else
      var r := Dedup(s[..|s| - 1]);
      var x := s[|s| - 1];
      assert s == s[..|s| - 1] + [x];
      if x in r then
        assert Elems(s) == Elems(s[..|s| - 1]);
        r
      else
        ElemsAppend(s[..|s| - 1], x);
        ElemsAppend(r, x);
        r + [x]
  }

  /** Each element stands where it first occurred: the positions rise, and none of them
      repeats an earlier element. */
  lemma {:induction false} DedupKeepsFirsts<T>(s: seq<T>) returns (at: seq<nat>)
    ensures |at| == |Dedup(s)| && forall i :: 0 <= i < |at| ==> at[i] < |s| && Dedup(s)[i] == s[at[i]] && s[at[i]] !in s[..at[i]]
    ensures forall i, j :: 0 <= i < j < |at| ==> at[i] < at[j]
  {
    if |s| == 0 {
      at := [];
    } else {
      var n := |s| - 1;
      at := DedupKeepsFirsts(s[..n]);
      forall i | 0 <= i < |at|
        ensures s[..n][..at[i]] == s[..at[i]]
      {
      }
      assert s[n] in Dedup(s[..n]) <==> s[n] in Elems(Dedup(s[..n]));
      if s[n] !in Dedup(s[..n]) {
        at := at + [n];
      }
    }
  }

  /** The text before the first `sep`. */
  function UpTo(text: string, sep: char): string {
    if |text| == 0 || text[0] == sep then "" else [text[0]] + UpTo(text[1..], sep)
  }

  lemma {:induction false} UpToSeparator(head: string, sep: char, tail: string)
    requires sep !in head && (tail == "" || tail[0] == sep)
    ensures UpTo(head + tail, sep) == head
  {
    if |head| > 0 {
      assert (head + tail)[1..] == head[1..] + tail;
      UpToSeparator(head[1..], sep, tail);
    } else {
      assert head + tail == tail;
    }
  }

  lemma ElemsAppend<T>(s: seq<T>, x: T)
    ensures Elems(s + [x]) == Elems(s) + {x}
  {
    assert forall y :: y in s + [x] <==> y in s || y == x;
  }

  lemma {:induction false} SumConcat(a: seq<nat>, b: seq<nat>)
    ensures Sum(a + b) == Sum(a) + Sum(b)
  {
    if |b| == 0 {
      assert a + b == a;
    } else {
      var c := b[..|b| - 1];
      assert (a + b)[..|a + b| - 1] == a + c;
      SumConcat(a, c);
    }
  }

  lemma {:induction false} SumRemove(b: seq<nat>, i: nat)
    requires i < |b|
    ensures Sum(b) == Sum(b[..i] + b[i + 1..]) + b[i]
  {
    var l, x, r := b[..i], b[i], b[i + 1..];
    assert b == l + ([x] + r);
    SumConcat(l, r);
    SumConcat([x], r);
    SumConcat(l, [x] + r);
    assert Sum([x]) == x by { assert [x][..0] == []; }
  }

  lemma MultisetRemove<T>(b: seq<T>, i: nat)
    requires i < |b|
    ensures multiset(b) == multiset(b[..i] + b[i + 1..]) + multiset{b[i]}
  {
    assert b == b[..i] + ([b[i]] + b[i + 1..]);
  }

  /** A sum does not depend on the order of its terms. */
  lemma {:induction false} SumOfPermutation(a: seq<nat>, b: seq<nat>)
    requires multiset(a) == multiset(b)
    ensures Sum(a) == Sum(b)
    decreases |a|
  {
    if |a| == 0 {
      assert |multiset(b)| == 0;
    } else {
      var n := |a| - 1;
      assert a[n] in multiset(b);
      var i :| 0 <= i < |b| && b[i] == a[n];
      SumRemove(a, n);
      SumRemove(b, i);
      MultisetRemove(a, n);
      MultisetRemove(b, i);
      assert a[..n] + a[n + 1..] == a[..n];
      PermutationTail(a[..n], b[..i] + b[i + 1..], a[n], a, b);
      SumOfPermutation(a[..n], b[..i] + b[i + 1..]);
    }
  }

  lemma PermutationTail<T>(c: seq<T>, d: seq<T>, x: T, a: seq<T>, b: seq<T>)
    requires multiset(a) == multiset(c) + multiset{x} && multiset(b) == multiset(d) + multiset{x}
    requires multiset(a) == multiset(b)
    ensures multiset(c) == multiset(d)
  {
    assert multiset(c) == multiset(a) - multiset{x};
    assert multiset(d) == multiset(b) - multiset{x};
  }

  lemma CountOfNoDup<T>(s: seq<T>, x: T)
    requires NoDup(s)
    ensures multiset(s)[x] == if x in s then 1 else 0
  {
    if x in s {
      var i :| 0 <= i < |s| && s[i] == x;
      assert s == s[..i] + [x] + s[i + 1..];
      assert x !in s[..i] && x !in s[i + 1..];
    }
  }

  /** Duplicate-free sequences with the same elements are permutations. */
  lemma NoDupSameElems<T>(a: seq<T>, b: seq<T>)
    requires NoDup(a) && NoDup(b) && Elems(a) == Elems(b)
    ensures multiset(a) == multiset(b)
  {
    forall x
      ensures multiset(a)[x] == multiset(b)[x]
    {
      CountOfNoDup(a, x);
      CountOfNoDup(b, x);
      assert x in a <==> x in Elems(a);
      assert x in b <==> x in Elems(b);
    }
  }
}
