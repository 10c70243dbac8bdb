/** The one list operation several demos share: `list.filter(x => x !== o)`,
    removing every occurrence of one reference and keeping the rest in order. */
module Lists {

  function RemoveAll<T(==,!new)>(s: seq<T>, o: T): (r: seq<T>)
    ensures o !in r
    ensures |r| <= |s|
  {
    if |s| == 0 then []
    else
      assert s == [s[0]] + s[1..];
      (if s[0] == o then [] else [s[0]]) + RemoveAll(s[1..], o)
  }

  /** One filtering step: the head survives iff it is not the removed element. */
  lemma RemoveAllCons<T(!new)>(x: T, s: seq<T>, o: T)
    ensures RemoveAll([x] + s, o) == (if x == o then [] else [x]) + RemoveAll(s, o)
  {
    assert ([x] + s)[0] == x;
    assert ([x] + s)[1..] == s;
  }

  /** Removing an element that is not there changes nothing. */
  lemma {:induction false} RemoveAllAbsent<T(!new)>(s: seq<T>, o: T)
    ensures o !in s ==> RemoveAll(s, o) == s
  {
    if |s| > 0 && o !in s {
      RemoveAllAbsent(s[1..], o);
      assert s == [s[0]] + s[1..];
    }
  }

  /** Exactly the elements other than the removed one survive. */
  lemma {:induction false} RemoveAllMembers<T(!new)>(s: seq<T>, o: T)
    ensures forall x :: x in RemoveAll(s, o) <==> x in s && x != o
  {
    if |s| > 0 {
      RemoveAllMembers(s[1..], o);
      assert s == [s[0]] + s[1..];
    }
  }

  /** Every other element keeps its multiplicity. */
  lemma {:induction false} RemoveAllCounts<T(!new)>(s: seq<T>, o: T)
    ensures forall x :: x != o ==> multiset(RemoveAll(s, o))[x] == multiset(s)[x]
  {
    if |s| > 0 {
      RemoveAllCounts(s[1..], o);
      assert s == [s[0]] + s[1..];
      assert multiset(s) == multiset([s[0]]) + multiset(s[1..]);
    }
  }

  /** Filtering distributes over concatenation, so the survivors keep their
      relative order. */
  lemma {:induction false} RemoveAllAppend<T(!new)>(a: seq<T>, b: seq<T>, o: T)
    ensures RemoveAll(a + b, o) == RemoveAll(a, o) + RemoveAll(b, o)
  {
    if |a| == 0 {
      assert a + b == b;
    } else {
      var head := if a[0] == o then [] else [a[0]];
      assert a + b == [a[0]] + (a[1..] + b);
      assert a == [a[0]] + a[1..];
      RemoveAllCons(a[0], a[1..] + b, o);
      RemoveAllCons(a[0], a[1..], o);
      RemoveAllAppend(a[1..], b, o);
      assert head + (RemoveAll(a[1..], o) + RemoveAll(b, o)) == (head + RemoveAll(a[1..], o)) + RemoveAll(b, o);
    }
  }

  /** Removing a reference twice is the same as removing it once. */
  lemma RemoveAllIdempotent<T(!new)>(s: seq<T>, o: T)
    ensures RemoveAll(RemoveAll(s, o), o) == RemoveAll(s, o)
  {
    RemoveAllAbsent(RemoveAll(s, o), o);
  }

  /** Removing one element from a list of pairwise-distinct elements, the
      shapes the demos use. */
  lemma RemoveFromDistinct<T(!new)>(a: T, b: T, c: T)
    requires a != b && b != c && a != c
    ensures RemoveAll([a, b, c], a) == [b, c]
    ensures RemoveAll([a, b, c], b) == [a, c]
    ensures RemoveAll([a, b, c], c) == [a, b]
    ensures RemoveAll([a, b], b) == [a]
    ensures RemoveAll([a], a) == []
  {
    assert [a, b, c] == [a] + [b, c] && [b, c] == [b] + [c] && [a, b] == [a] + [b];
    RemoveAllCons(a, [b, c], a);
    RemoveAllCons(a, [b, c], b);
    RemoveAllCons(a, [b, c], c);
    RemoveAllCons(b, [c], b);
    RemoveAllCons(b, [c], c);
    RemoveAllCons(a, [b], b);
  }
}
