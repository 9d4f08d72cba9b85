/** A stable sort by any total preorder, and the order of strings by code point. */
module Sorting {
  ghost predicate TotalPreorder<T(!new)>(le: (T, T) -> bool) {
    && (forall a, b :: le(a, b) || le(b, a))
    && (forall a, b, c :: le(a, b) && le(b, c) ==> le(a, c))
  }

  predicate SortedBy<T>(s: seq<T>, le: (T, T) -> bool) {
    forall i, j :: 0 <= i < j < |s| ==> le(s[i], s[j])
  }

  /** Insert after every element that may precede it. */
  function Insert<T>(s: seq<T>, x: T, le: (T, T) -> bool): seq<T>
    decreases |s|
  {
    if s == [] then [x]
    else if le(s[|s| - 1], x) then s + [x]
    else Insert(s[..|s| - 1], x, le) + [s[|s| - 1]]
  }

  function StableSort<T>(s: seq<T>, le: (T, T) -> bool): seq<T>
    decreases |s|
  {
    if s == [] then [] else Insert(StableSort(s[..|s| - 1], le), s[|s| - 1], le)
  }

  lemma {:induction false} InsertContents<T>(s: seq<T>, x: T, le: (T, T) -> bool)
    ensures multiset(Insert(s, x, le)) == multiset(s) + multiset{x}
    decreases |s|
  {
    if s != [] && !le(s[|s| - 1], x) {
      InsertContents(s[..|s| - 1], x, le);
      assert s == s[..|s| - 1] + [s[|s| - 1]];
    }
  }

  lemma {:induction false} InsertSorted<T(!new)>(s: seq<T>, x: T, le: (T, T) -> bool)
    requires TotalPreorder(le) && SortedBy(s, le)
    ensures SortedBy(Insert(s, x, le), le)
    decreases |s|
  {
    if s != [] {
      var init, last := s[..|s| - 1], s[|s| - 1];
      if le(last, x) {
        forall i | 0 <= i < |s|
          ensures le(s[i], x)
        {
          assert i == |s| - 1 || le(s[i], last);
        }
      } else {
        InsertSorted(init, x, le);
        InsertContents(init, x, le);
        var r := Insert(init, x, le);
        forall i | 0 <= i < |r|
          ensures le(r[i], last)
        {
          assert r[i] in multiset(r);
          if r[i] != x {
            assert r[i] in init;
          }
        }
      }
    }
  }

  lemma {:induction false} StableSortSorts<T(!new)>(s: seq<T>, le: (T, T) -> bool)
    requires TotalPreorder(le)
    ensures SortedBy(StableSort(s, le), le)
    ensures multiset(StableSort(s, le)) == multiset(s)
    decreases |s|
  {
    hide TotalPreorder, SortedBy, Insert;
    if s == [] {
      NothingIsSorted(le);
    } else {
      var init, last := s[..|s| - 1], s[|s| - 1];
      StableSortSorts(init, le);
      InsertSorted(StableSort(init, le), last, le);
      InsertContents(StableSort(init, le), last, le);
      assert s == init + [last];
    }
  }

  lemma NothingIsSorted<T(!new)>(le: (T, T) -> bool)
    ensures SortedBy([], le)
  {
  }

  /** The elements that tie with `x`, in order. */
  function Ties<T>(s: seq<T>, x: T, le: (T, T) -> bool): seq<T>
    decreases |s|
  {
    if s == [] then [] else
    var last := s[|s| - 1];
    Ties(s[..|s| - 1], x, le) + (if le(x, last) && le(last, x) then [last] else [])
  }

  lemma {:induction false} InsertStable<T(!new)>(s: seq<T>, y: T, x: T, le: (T, T) -> bool)
    requires TotalPreorder(le) && SortedBy(s, le)
    ensures Ties(Insert(s, y, le), x, le) == Ties(s, x, le) + (if le(x, y) && le(y, x) then [y] else [])
    decreases |s|
  {
    if s == [] {
      assert [y][..0] == [];
    } else {
      var init, last := s[..|s| - 1], s[|s| - 1];
      if le(last, y) {
        assert (s + [y])[..|s|] == s;
      } else {
        InsertStable(init, y, x, le);
        var r := Insert(init, y, le);
        assert (r + [last])[..|r|] == r;
        assert !(le(x, last) && le(last, x) && le(x, y) && le(y, x));
      }
    }
  }

  /** Stability: elements that tie keep their order. */
  lemma {:induction false} StableSortIsStable<T(!new)>(s: seq<T>, x: T, le: (T, T) -> bool)
    requires TotalPreorder(le)
    ensures Ties(StableSort(s, le), x, le) == Ties(s, x, le)
    decreases |s|
  {
    if s != [] {
      StableSortIsStable(s[..|s| - 1], x, le);
      StableSortSorts(s[..|s| - 1], le);
      InsertStable(StableSort(s[..|s| - 1], le), s[|s| - 1], x, le);
    }
  }

  /* ---- Strings by code point. ---- */

  predicate StringLe(a: string, b: string) {
    a == "" || (b != "" && (a[0] < b[0] || (a[0] == b[0] && StringLe(a[1..], b[1..]))))
  }

  lemma {:induction false} StringLeTotal(a: string, b: string)
    ensures StringLe(a, b) || StringLe(b, a)
  {
    if a != "" && b != "" {
      StringLeTotal(a[1..], b[1..]);
    }
  }

  lemma {:induction false} StringLeTransitive(a: string, b: string, c: string)
    requires StringLe(a, b) && StringLe(b, c)
    ensures StringLe(a, c)
  {
    if a != "" && a[0] == b[0] && b[0] == c[0] {
      StringLeTransitive(a[1..], b[1..], c[1..]);
    }
  }

  lemma {:induction false} StringLeAntisymmetric(a: string, b: string)
    requires StringLe(a, b) && StringLe(b, a)
    ensures a == b
  {
    if a != "" {
      StringLeAntisymmetric(a[1..], b[1..]);
      assert a == [a[0]] + a[1..] && b == [b[0]] + b[1..];
    }
  }
}
