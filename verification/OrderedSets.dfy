/** `sorted(set(...))`: the one increasing listing of a finite set. */
module OrderedSets {
  import opened Sorting

  ghost predicate LinearOrder<T(!new)>(le: (T, T) -> bool) {
    TotalPreorder(le) && forall x, y :: le(x, y) && le(y, x) ==> x == y
  }

  ghost predicate NoDuplicates<T>(xs: seq<T>) {
    forall i, j :: 0 <= i < j < |xs| ==> xs[i] != xs[j]
  }

  function Elements<T>(xs: seq<T>): set<T> {
    set x | x in xs
  }

  lemma ElementsAppend<T>(xs: seq<T>, x: T)
    ensures Elements(xs + [x]) == Elements(xs) + {x}
    ensures NoDuplicates(xs) && x !in Elements(xs) ==> NoDuplicates(xs + [x])
  {
    assert forall y :: y in xs + [x] <==> y in xs || y == x;
    assert forall i :: 0 <= i < |xs| ==> xs[i] in Elements(xs);
  }

  ghost predicate Lists<T>(xs: seq<T>, s: set<T>, le: (T, T) -> bool) {
    Sorted(xs, le) && NoDuplicates(xs) && Elements(xs) == s
  }

  lemma ListsMultiset<T(!new)>(xs: seq<T>, s: set<T>, le: (T, T) -> bool)
    requires LinearOrder(le) && NoDuplicates(xs) && Elements(xs) == s
    ensures DistinctKeys(xs, le) && multiset(xs) == multiset(s)
  {
    forall x ensures multiset(xs)[x] == multiset(s)[x] {
      if x in s {
        ElementsOnce(xs, le, x);
      }
    }
  }

  /** A set has at most one increasing listing. */
  lemma ListsUnique<T(!new)>(a: seq<T>, b: seq<T>, s: set<T>, le: (T, T) -> bool)
    requires LinearOrder(le) && Lists(a, s, le) && Lists(b, s, le)
    ensures a == b
  {
    ListsMultiset(a, s, le);
    ListsMultiset(b, s, le);
    SortedUnique(a, b, le);
  }

  /** Sorting any listing without duplicates gives the increasing one. */
  lemma SortLists<T(!new)>(xs: seq<T>, s: set<T>, le: (T, T) -> bool)
    requires LinearOrder(le) && NoDuplicates(xs) && Elements(xs) == s
    ensures Lists(Sort(xs, le), s, le)
  {
    ListsMultiset(xs, s, le);
    SortSorted(xs, le);
    SortPermutes(xs, le);
    SortMembers(xs, le);
    DistinctKeysPermute(xs, Sort(xs, le), le);
    forall i, j | 0 <= i < j < |Sort(xs, le)| ensures Sort(xs, le)[i] != Sort(xs, le)[j] {
      assert le(Sort(xs, le)[i], Sort(xs, le)[i]);
    }
  }

  lemma {:induction false} SomeListing<T(!new)>(s: set<T>) returns (xs: seq<T>)
    ensures NoDuplicates(xs) && Elements(xs) == s
    decreases |s|
  {
    if s == {} {
      xs := [];
    } else {
      var x :| x in s;
      var rest := SomeListing(s - {x});
      ElementsAppend(rest, x);
      xs := rest + [x];
    }
  }

  lemma ListingExists<T(!new)>(s: set<T>, le: (T, T) -> bool)
    requires LinearOrder(le)
    ensures exists xs :: Lists(xs, s, le)
  {
    var xs := SomeListing(s);
    SortLists(xs, s, le);
  }

  ghost function Ordered<T(!new)>(s: set<T>, le: (T, T) -> bool): (xs: seq<T>)
    requires LinearOrder(le)
    ensures Lists(xs, s, le)
  {
    ListingExists(s, le);
    var xs :| Lists(xs, s, le);
    xs
  }

  /** Takes the elements in whatever order they come, then sorts. */
  method SortedSet<T(!new, ==)>(s: set<T>, le: (T, T) -> bool) returns (xs: seq<T>)
    requires LinearOrder(le)
    ensures xs == Ordered(s, le)
  {
    var rest := s;
    xs := [];
    while rest != {}
      invariant rest <= s && NoDuplicates(xs) && Elements(xs) == s - rest
      decreases |rest|
    {
      var x :| x in rest;
      ElementsAppend(xs, x);
      xs := xs + [x];
      rest := rest - {x};
    }
    SortLists(xs, s, le);
    ListsUnique(Sort(xs, le), Ordered(s, le), s, le);
    xs := Sort(xs, le);
  }

  lemma StringLeLinear()
    ensures LinearOrder(StringLe)
  {
    forall a, b ensures StringLe(a, b) || StringLe(b, a) {
      StringLeTotal(a, b);
    }
    forall a, b, c | StringLe(a, b) && StringLe(b, c) ensures StringLe(a, c) {
      StringLeTransitive(a, b, c);
    }
    forall a, b | StringLe(a, b) && StringLe(b, a) ensures a == b {
      StringLeAntisymmetric(a, b);
    }
  }
}
