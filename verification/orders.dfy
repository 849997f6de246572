/** Ordered listings: what an `ORDER BY` over a set of rows returns, and why that
    list is unique.  The code-point order of texts is the instance used throughout. */
module Orders {

  ghost predicate TotalOrder<T(!new)>(le: (T, T) -> bool) {
    && (forall x, y :: le(x, y) || le(y, x))
    && (forall x, y :: le(x, y) && le(y, x) ==> x == y)
    && (forall x, y, z :: le(x, y) && le(y, z) ==> le(x, z))
  }

  /** Strictly ascending, hence without repetitions. */
  ghost predicate Ascending<T(!new)>(s: seq<T>, le: (T, T) -> bool) {
    forall i, j :: 0 <= i < j < |s| ==> le(s[i], s[j]) && s[i] != s[j]
  }

  ghost predicate Lists<T(!new)>(s: seq<T>, elements: set<T>) {
    forall x :: x in s <==> x in elements
  }

  ghost predicate IsLeast<T(!new)>(least: T, elements: set<T>, le: (T, T) -> bool) {
    least in elements && forall x <- elements :: le(least, x)
  }

  lemma {:induction false} HasLeast<T(!new)>(elements: set<T>, le: (T, T) -> bool)
    requires TotalOrder(le) && elements != {}
    ensures exists least :: IsLeast(least, elements, le)
    decreases |elements|
  {
    var pick :| pick in elements;
    var others := elements - {pick};
    assert forall x <- elements :: x == pick || x in others;
    assert le(pick, pick);
    if others == {} {
      assert IsLeast(pick, elements, le);
    } else {
      HasLeast(others, le);
      var other :| IsLeast(other, others, le);
      var least := if le(pick, other) then pick else other;
      forall x <- elements ensures le(least, x) {
        if x != pick { assert x in others && le(other, x); }
      }
      assert IsLeast(least, elements, le);
    }
  }

  function Least<T(!new, ==)>(elements: set<T>, le: (T, T) -> bool): (least: T)
    requires TotalOrder(le) && elements != {}
    ensures IsLeast(least, elements, le)
  {
    HasLeast(elements, le);
    assert exists least :: IsLeast(least, elements, le);
    assert forall a, b :: IsLeast(a, elements, le) && IsLeast(b, elements, le) ==> a == b;
    var least :| least in elements && forall x <- elements :: le(least, x);
    least
  }

  /** The elements in ascending order. */
  function Sorted<T(!new, ==)>(elements: set<T>, le: (T, T) -> bool): (s: seq<T>)
    requires TotalOrder(le)
    ensures Ascending(s, le) && Lists(s, elements)
    decreases |elements|
  {
    if elements == {} then []
    else
      var least := Least(elements, le);
      var rest := Sorted(elements - {least}, le);
      assert forall x <- rest :: x in elements - {least};
      [least] + rest
  }

  lemma {:induction false} AscendingTail<T(!new)>(s: seq<T>, le: (T, T) -> bool)
    requires s != [] && Ascending(s, le)
    ensures Ascending(s[1..], le)
    ensures forall x :: x in s[1..] <==> x in s && x != s[0]
  {
  }

  /** Two ascending lists with the same elements are the same list. */
  lemma {:induction false} AscendingUnique<T(!new)>(a: seq<T>, b: seq<T>, le: (T, T) -> bool)
    requires TotalOrder(le) && Ascending(a, le) && Ascending(b, le)
    requires forall x :: x in a <==> x in b
    ensures a == b
  {
    if a == [] {
      assert forall i :: 0 <= i < |b| ==> b[i] in a;
    } else {
      assert a[0] in b;
      assert b[0] in a;
      assert a[0] == b[0];
      AscendingTail(a, le);
      AscendingTail(b, le);
      AscendingUnique(a[1..], b[1..], le);
    }
  }

  function Filter<T>(s: seq<T>, keep: T -> bool): seq<T> {
    if s == [] then []
    else if keep(s[0]) then [s[0]] + Filter(s[1..], keep)
    else Filter(s[1..], keep)
  }

  lemma {:induction false} FilterAscending<T(!new)>(s: seq<T>, keep: T -> bool, le: (T, T) -> bool)
    requires Ascending(s, le)
    ensures Ascending(Filter(s, keep), le)
    ensures forall x :: x in Filter(s, keep) <==> x in s && keep(x)
  {
    if s != [] {
      AscendingTail(s, le);
      FilterAscending(s[1..], keep, le);
      assert forall x :: x in s <==> x == s[0] || x in s[1..];
      forall x <- Filter(s[1..], keep) ensures le(s[0], x) && x != s[0] {
        var i :| 0 < i < |s| && s[i] == x;
      }
    }
  }

  // ------------------------------------------------------------------
  // Texts, compared by code point as Python compares `str`

  predicate TextLe(a: string, b: string) {
    if a == "" then true
    else if b == "" then false
    else a[0] < b[0] || (a[0] == b[0] && TextLe(a[1..], b[1..]))
  }

  lemma {:induction false} TextTotal(a: string, b: string)
    ensures TextLe(a, b) || TextLe(b, a)
    ensures TextLe(a, b) && TextLe(b, a) ==> a == b
  {
    if a != "" && b != "" {
      TextTotal(a[1..], b[1..]);
      if a[0] == b[0] && a[1..] == b[1..] {
        assert a == [a[0]] + a[1..];
        assert b == [b[0]] + b[1..];
      }
    }
  }

  lemma {:induction false} TextTransitive(a: string, b: string, c: string)
    requires TextLe(a, b) && TextLe(b, c)
    ensures TextLe(a, c)
  {
    if a != "" && b != "" && c != "" && a[0] == b[0] == c[0] {
      TextTransitive(a[1..], b[1..], c[1..]);
    }
  }

  lemma TextOrder()
    ensures TotalOrder(TextLe)
  {
    forall a, b
      ensures TextLe(a, b) || TextLe(b, a)
      ensures TextLe(a, b) && TextLe(b, a) ==> a == b
    {
      TextTotal(a, b);
    }
    forall a, b, c | TextLe(a, b) && TextLe(b, c) ensures TextLe(a, c) {
      TextTransitive(a, b, c);
    }
  }

  function SortedTexts(texts: set<string>): (s: seq<string>)
    ensures Ascending(s, TextLe) && Lists(s, texts)
  {
    TextOrder();
    Sorted(texts, TextLe)
  }

  // ------------------------------------------------------------------
  // Texts ordered by a number, ties by code point: `ORDER BY rank ASC, id ASC`

  function Ranked(rank: string -> int): (string, string) -> bool {
    (a, b) => rank(a) < rank(b) || (rank(a) == rank(b) && TextLe(a, b))
  }

  lemma RankedOrder(rank: string -> int)
    ensures TotalOrder(Ranked(rank))
  {
    TextOrder();
    var le := Ranked(rank);
    assert forall a, b :: le(a, b) <==> rank(a) < rank(b) || (rank(a) == rank(b) && TextLe(a, b));
  }

  function SortedByRank(texts: set<string>, rank: string -> int): (s: seq<string>)
    ensures Ascending(s, Ranked(rank)) && Lists(s, texts)
  {
    RankedOrder(rank);
    Sorted(texts, Ranked(rank))
  }

  /** A listing in strictly increasing rank is the ordered listing. */
  lemma IncreasingRankIsSorted(texts: set<string>, rank: string -> int, s: seq<string>)
    requires Lists(s, texts)
    requires forall i, j :: 0 <= i < j < |s| ==> rank(s[i]) < rank(s[j])
    ensures SortedByRank(texts, rank) == s
  {
    RankedOrder(rank);
    AscendingUnique(SortedByRank(texts, rank), s, Ranked(rank));
  }

  // ------------------------------------------------------------------
  // Integers

  predicate IntLe(a: int, b: int) { a <= b }

  function SortedInts(ints: set<int>): (s: seq<int>)
    ensures Ascending(s, IntLe) && Lists(s, ints)
  {
    assert TotalOrder(IntLe);
    Sorted(ints, IntLe)
  }
}
