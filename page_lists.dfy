/** The list helpers of the results page (index.tsx): `toggle` and the
    distinct-and-sorted facet lists. */
module PageLists {
  import opened PageOrder

  // ---------------------------------------------------------------------
  // toggle (lines 73-75)
  // ---------------------------------------------------------------------

  /** `arr.filter(x => x !== v)`: every occurrence of `v` dropped, the other
      elements kept. */
  function Without<T(==)>(arr: seq<T>, v: T): (r: seq<T>)
    ensures v !in r
  {
    if arr == [] then []
    else if arr[0] == v then Without(arr[1..], v) else [arr[0]] + Without(arr[1..], v)
  }

  /** Filtering drops every copy of `v` and keeps every other element as
      often as it occurs. */
  lemma {:induction false} WithoutCounts<T>(arr: seq<T>, v: T)
    ensures multiset(Without(arr, v)) == multiset(arr)[v := 0]
  {
    if arr != [] {
      WithoutCounts(arr[1..], v);
      assert arr == [arr[0]] + arr[1..];
    }
  }

  /** Filtering commutes with concatenation, so the kept elements stay in
      their order. */
  lemma {:induction false} WithoutConcat<T>(a: seq<T>, b: seq<T>, v: T)
    ensures Without(a + b, v) == Without(a, v) + Without(b, v)
  {
    if a == [] {
      assert a + b == b;
    } else {
      var ab := a + b;
      assert ab[0] == a[0] && ab[1..] == a[1..] + b;
      WithoutConcat(a[1..], b, v);
      var head := if a[0] == v then [] else [a[0]];
      var x, y := Without(a[1..], v), Without(b, v);
      assert Without(ab, v) == head + (x + y);
      assert Without(a, v) == head + x;
      assert head + (x + y) == (head + x) + y;
    }
  }

  /** Filtering out a value that does not occur changes nothing. */
  lemma {:induction false} WithoutAbsent<T>(arr: seq<T>, v: T)
    requires v !in arr
    ensures Without(arr, v) == arr
  {
    if arr != [] {
      WithoutAbsent(arr[1..], v);
      assert arr == [arr[0]] + arr[1..];
    }
  }

  /** `toggle(arr, v)`: removes `v` when present, appends it otherwise. */
  function Toggle<T(==)>(arr: seq<T>, v: T): (r: seq<T>)
    ensures v in r <==> v !in arr
    ensures v in arr ==> multiset(r) == multiset(arr)[v := 0]
    ensures v !in arr ==> r == arr + [v]
  {
    if v in arr then
      WithoutCounts(arr, v);
      Without(arr, v)
    else arr + [v]
  }

  /** Toggling a value that was not selected twice restores the list. */
  lemma ToggleRoundTrip<T>(arr: seq<T>, v: T)
    requires v !in arr
    ensures Toggle(Toggle(arr, v), v) == arr
  {
    WithoutConcat(arr, [v], v);
    WithoutAbsent(arr, v);
    assert Without([v], v) == [];
  }

  // ---------------------------------------------------------------------
  // Facets (lines 67-71): [...new Set(values)].sort(...)
  // ---------------------------------------------------------------------

  predicate StrictlySortedStr(s: seq<string>)
  {
    forall i, j :: 0 <= i < j < |s| ==> StrLt(s[i], s[j])
  }

  predicate StrictlySortedInt(s: seq<int>)
  {
    forall i, j :: 0 <= i < j < |s| ==> s[i] < s[j]
  }

  /** Adds `x` to a strictly sorted list of strings, keeping it so. */
  function InsertStr(sorted: seq<string>, x: string): (r: seq<string>)
    requires StrictlySortedStr(sorted)
    ensures StrictlySortedStr(r)
    ensures forall y :: y in r <==> y in sorted || y == x
  {
    if sorted == [] then [x]
    else if x == sorted[0] then sorted
    else if StrLt(x, sorted[0]) then
      forall j | 0 < j < |sorted| ensures StrLt(x, sorted[j]) {
        StrLtTrans(x, sorted[0], sorted[j]);
      }
      [x] + sorted
    else
      StrLtTrichotomy(x, sorted[0]);
      var rest := InsertStr(sorted[1..], x);
      assert forall y :: y in sorted <==> y == sorted[0] || y in sorted[1..];
      assert forall k :: 0 <= k < |rest| ==> StrLt(sorted[0], rest[k]) by {
        forall k | 0 <= k < |rest| ensures StrLt(sorted[0], rest[k]) {
          assert rest[k] in rest;
        }
      }
      [sorted[0]] + rest
  }

  /** Adds `x` to a strictly increasing list of integers, keeping it so. */
  function InsertInt(sorted: seq<int>, x: int): (r: seq<int>)
    requires StrictlySortedInt(sorted)
    ensures StrictlySortedInt(r)
    ensures forall y :: y in r <==> y in sorted || y == x
  {
    if sorted == [] then [x]
    else if x == sorted[0] then sorted
    else if x < sorted[0] then [x] + sorted
    else
      var rest := InsertInt(sorted[1..], x);
      assert forall y :: y in sorted <==> y == sorted[0] || y in sorted[1..];
      assert forall k :: 0 <= k < |rest| ==> sorted[0] < rest[k] by {
        forall k | 0 <= k < |rest| ensures sorted[0] < rest[k] {
          assert rest[k] in rest;
        }
      }
      [sorted[0]] + rest
  }

  /** The distinct values of `values`, in string order. */
  function StrFacet(values: seq<string>): (r: seq<string>)
    ensures StrictlySortedStr(r)
    ensures forall y :: y in r <==> y in values
  {
    if values == [] then []
    else
      var init := values[..|values| - 1];
      assert forall y :: y in values <==> y in init || y == values[|values| - 1] by {
        assert values == init + [values[|values| - 1]];
      }
      InsertStr(StrFacet(init), values[|values| - 1])
  }

  /** The distinct values of `values`, in increasing numeric order. */
  function IntFacet(values: seq<int>): (r: seq<int>)
    ensures StrictlySortedInt(r)
    ensures forall y :: y in r <==> y in values
  {
    if values == [] then []
    else
      var init := values[..|values| - 1];
      assert forall y :: y in values <==> y in init || y == values[|values| - 1] by {
        assert values == init + [values[|values| - 1]];
      }
      InsertInt(IntFacet(init), values[|values| - 1])
  }

  /** A list is empty exactly when nothing is in it. */
  lemma EmptyIffNoElements<T>(a: seq<T>)
    ensures a == [] <==> forall y :: y !in a
  {
    if a != [] {
      assert a[0] in a;
    }
  }

  /** Two strictly sorted lists holding the same strings start alike. */
  lemma StrHeadsAgree(a: seq<string>, b: seq<string>)
    requires a != [] && b != []
    requires StrictlySortedStr(a) && StrictlySortedStr(b)
    requires forall y :: y in a <==> y in b
    ensures a[0] == b[0]
  {
    assert a[0] in a && b[0] in b;
    var i :| 0 <= i < |b| && b[i] == a[0];
    var j :| 0 <= j < |a| && a[j] == b[0];
    StrLtTrichotomy(a[0], b[0]);
  }

  /** A strictly sorted list is determined by its elements: the facet is the
      only duplicate-free sorted list of the values present. */
  lemma {:induction false} StrictlySortedStrUnique(a: seq<string>, b: seq<string>)
    requires StrictlySortedStr(a) && StrictlySortedStr(b)
    requires forall y :: y in a <==> y in b
    ensures a == b
    decreases |a|
  {
    EmptyIffNoElements(a);
    EmptyIffNoElements(b);
    if a != [] {
      StrHeadsAgree(a, b);
      forall y ensures y in a[1..] <==> y in b[1..] {
        if y in a[1..] {
          var k :| 1 <= k < |a| && a[k] == y;
          assert StrLt(a[0], a[k]);
          assert y in a && y in b;
          var m :| 0 <= m < |b| && b[m] == y;
          assert b[1..][m - 1] == y;
        }
        if y in b[1..] {
          var k :| 1 <= k < |b| && b[k] == y;
          assert StrLt(b[0], b[k]);
          assert y in b && y in a;
          var m :| 0 <= m < |a| && a[m] == y;
          assert a[1..][m - 1] == y;
        }
      }
      StrictlySortedStrUnique(a[1..], b[1..]);
      assert a == [a[0]] + a[1..] && b == [b[0]] + b[1..];
    }
  }

  /** Two strictly increasing lists holding the same integers start alike. */
  lemma IntHeadsAgree(a: seq<int>, b: seq<int>)
    requires a != [] && b != []
    requires StrictlySortedInt(a) && StrictlySortedInt(b)
    requires forall y :: y in a <==> y in b
    ensures a[0] == b[0]
  {
    assert a[0] in a && b[0] in b;
    var i :| 0 <= i < |b| && b[i] == a[0];
    var j :| 0 <= j < |a| && a[j] == b[0];
  }

  /** The same for increasing lists of integers. */
  lemma {:induction false} StrictlySortedIntUnique(a: seq<int>, b: seq<int>)
    requires StrictlySortedInt(a) && StrictlySortedInt(b)
    requires forall y :: y in a <==> y in b
    ensures a == b
    decreases |a|
  {
    EmptyIffNoElements(a);
    EmptyIffNoElements(b);
    if a != [] {
      IntHeadsAgree(a, b);
      forall y ensures y in a[1..] <==> y in b[1..] {
        if y in a[1..] {
          var k :| 1 <= k < |a| && a[k] == y;
          assert y in a && y in b;
          var m :| 0 <= m < |b| && b[m] == y;
          assert b[1..][m - 1] == y;
        }
        if y in b[1..] {
          var k :| 1 <= k < |b| && b[k] == y;
          assert y in b && y in a;
          var m :| 0 <= m < |a| && a[m] == y;
          assert a[1..][m - 1] == y;
        }
      }
      StrictlySortedIntUnique(a[1..], b[1..]);
      assert a == [a[0]] + a[1..] && b == [b[0]] + b[1..];
    }
  }
}
