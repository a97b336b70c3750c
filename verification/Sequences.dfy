/** List comprehensions, `dict.fromkeys` deduplication and subsequences. */
module Sequences {

  // `[x for x in s if p(x)]`
  function Filter<T>(p: T -> bool, s: seq<T>): seq<T> {
    if s == [] then []
    else if p(s[0]) then [s[0]] + Filter(p, s[1..])
    else Filter(p, s[1..])
  }

  lemma SameMultiplicities<T>(a: multiset<T>, b: multiset<T>)
    requires forall x :: a[x] == b[x]
    ensures a == b
  {
  }

  lemma {:induction false} FilterCount<T>(p: T -> bool, s: seq<T>, x: T)
    ensures multiset(Filter(p, s))[x] == if p(x) then multiset(s)[x] else 0
  {
    if s != [] {
      FilterCount(p, s[1..], x);
      assert s == [s[0]] + s[1..];
    }
  }

  lemma FilterMembers<T>(p: T -> bool, s: seq<T>)
    ensures forall x :: x in Filter(p, s) <==> x in s && p(x)
  {
    forall x ensures x in Filter(p, s) <==> x in s && p(x) {
      FilterCount(p, s, x);
      assert x in multiset(s) <==> x in s;
      assert x in multiset(Filter(p, s)) <==> x in Filter(p, s);
    }
  }

  // Filtering two orderings of the same elements gives two orderings of the same selection.
  lemma FilterPermutation<T>(p: T -> bool, s: seq<T>, t: seq<T>)
    requires multiset(s) == multiset(t)
    ensures multiset(Filter(p, s)) == multiset(Filter(p, t))
  {
    forall x: T ensures multiset(Filter(p, s))[x] == multiset(Filter(p, t))[x] {
      FilterCount(p, s, x);
      FilterCount(p, t, x);
    }
    SameMultiplicities(multiset(Filter(p, s)), multiset(Filter(p, t)));
  }

  // Two predicates that agree on the elements of a list select the same sublist.
  lemma {:induction false} FilterAgree<T>(p: T -> bool, q: T -> bool, s: seq<T>)
    requires forall x :: x in s ==> p(x) == q(x)
    ensures Filter(p, s) == Filter(q, s)
  {
    if s != [] {
      FilterAgree(p, q, s[1..]);
    }
  }

  lemma {:induction false} FilterAppend<T>(p: T -> bool, s: seq<T>, t: seq<T>)
    ensures Filter(p, s + t) == Filter(p, s) + Filter(p, t)
  {
    if s == [] {
      assert s + t == t;
    } else {
      assert (s + t)[1..] == s[1..] + t;
      FilterAppend(p, s[1..], t);
    }
  }

  // `list(dict.fromkeys(s))`: first occurrences, in order.
  function Dedup<T(==)>(s: seq<T>): seq<T> {
    if s == [] then []
    else [s[0]] + Filter(x => x != s[0], Dedup(s[1..]))
  }

  lemma {:induction false} DedupCount<T>(s: seq<T>, x: T)
    ensures multiset(Dedup(s))[x] == if x in s then 1 else 0
  {
    if s != [] {
      DedupCount(s[1..], x);
      FilterCount(y => y != s[0], Dedup(s[1..]), x);
    }
  }

  lemma DedupMembers<T>(s: seq<T>)
    ensures forall x :: x in Dedup(s) <==> x in s
  {
    forall x ensures x in Dedup(s) <==> x in s {
      DedupCount(s, x);
      assert x in multiset(Dedup(s)) <==> x in Dedup(s);
    }
  }

  lemma DedupPermutation<T>(s: seq<T>, t: seq<T>)
    requires forall x :: x in s <==> x in t
    ensures multiset(Dedup(s)) == multiset(Dedup(t))
  {
    forall x: T ensures multiset(Dedup(s))[x] == multiset(Dedup(t))[x] {
      DedupCount(s, x);
      DedupCount(t, x);
    }
    SameMultiplicities(multiset(Dedup(s)), multiset(Dedup(t)));
  }

  lemma SingletonMultiset<T>(s: seq<T>, t: seq<T>)
    requires multiset(s) == multiset(t)
    ensures |s| == |t|
    ensures |s| == 1 ==> s == t
  {
    assert |multiset(s)| == |s| && |multiset(t)| == |t|;
    if |s| == 1 {
      assert s[0] in multiset(t);
    }
  }

  lemma MultiplicityAtLeastTwo<T>(s: seq<T>, i: nat, j: nat)
    requires i < j < |s| && s[i] == s[j]
    ensures multiset(s)[s[i]] >= 2
  {
    assert s == s[..j] + [s[j]] + s[j + 1..];
    assert s[..j][i] == s[i];
    assert s[i] in multiset(s[..j]);
  }

  predicate Distinct<T(==)>(s: seq<T>) {
    forall i, j :: 0 <= i < j < |s| ==> s[i] != s[j]
  }

  lemma DedupDistinct<T>(s: seq<T>)
    ensures Distinct(Dedup(s))
  {
    forall i, j | 0 <= i < j < |Dedup(s)| ensures Dedup(s)[i] != Dedup(s)[j] {
      if Dedup(s)[i] == Dedup(s)[j] {
        MultiplicityAtLeastTwo(Dedup(s), i, j);
        DedupCount(s, Dedup(s)[i]);
      }
    }
  }

  // `sorted`: a stable insertion sort. `x` came before every element of `s` in the list.
  function Insert<T>(atMost: (T, T) -> bool, x: T, s: seq<T>): seq<T> {
    if s == [] || atMost(x, s[0]) then [x] + s else [s[0]] + Insert(atMost, x, s[1..])
  }

  function SortedBy<T>(atMost: (T, T) -> bool, s: seq<T>): seq<T> {
    if s == [] then [] else Insert(atMost, s[0], SortedBy(atMost, s[1..]))
  }

  lemma {:induction false} InsertAdds<T>(atMost: (T, T) -> bool, x: T, s: seq<T>)
    ensures multiset(Insert(atMost, x, s)) == multiset([x]) + multiset(s)
  {
    if s != [] && !atMost(x, s[0]) {
      InsertAdds(atMost, x, s[1..]);
      assert s == [s[0]] + s[1..];
    }
  }
}
