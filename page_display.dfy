/** What the results page shows (index.tsx, lines 67-100): the facet lists
    offered as filters, and `sejoursAffiches`, the records that pass the
    five filters, sorted by the chosen mode. */
module PageDisplay {
  import opened Wrappers
  import opened PageOrder
  import opened PageLists

  /** A stay as the page receives it (lines 4-14).  Prices are in cents. */
  datatype Sejour = Sejour(
    id: int, housingCode: string, housingType: string, comfortLevel: string, nbPersonnes: int,
    dateArrivee: string, duree: int, prix: int, prixOriginal: Option<int>)

  // ---------------------------------------------------------------------
  // Facets (lines 67-71)
  // ---------------------------------------------------------------------

  function AllComforts(sejours: seq<Sejour>): seq<string>
  {
    StrFacet(seq(|sejours|, k requires 0 <= k < |sejours| => sejours[k].comfortLevel))
  }

  function AllTypes(sejours: seq<Sejour>): seq<string>
  {
    StrFacet(seq(|sejours|, k requires 0 <= k < |sejours| => sejours[k].housingType))
  }

  function AllPersonnes(sejours: seq<Sejour>): seq<int>
  {
    IntFacet(seq(|sejours|, k requires 0 <= k < |sejours| => sejours[k].nbPersonnes))
  }

  function AllDurees(sejours: seq<Sejour>): seq<int>
  {
    IntFacet(seq(|sejours|, k requires 0 <= k < |sejours| => sejours[k].duree))
  }

  function AllDates(sejours: seq<Sejour>): seq<string>
  {
    StrFacet(seq(|sejours|, k requires 0 <= k < |sejours| => sejours[k].dateArrivee))
  }

  // Each facet is duplicate-free and sorted (in numeric order for the
  // capacities and durations, in string order otherwise), and offers
  // exactly the values that occur in the records.

  /** The comfort levels on offer, once each, in string order. */
  lemma ComfortFacet(sejours: seq<Sejour>, s: string)
    ensures StrictlySortedStr(AllComforts(sejours))
    ensures s in AllComforts(sejours) <==> exists k :: 0 <= k < |sejours| && sejours[k].comfortLevel == s
  {
    var values := seq(|sejours|, k requires 0 <= k < |sejours| => sejours[k].comfortLevel);
    if exists k :: 0 <= k < |sejours| && sejours[k].comfortLevel == s {
      var k :| 0 <= k < |sejours| && sejours[k].comfortLevel == s;
      assert values[k] == s;
    }
  }

  /** The cottage types on offer, once each, in string order. */
  lemma TypeFacet(sejours: seq<Sejour>, s: string)
    ensures StrictlySortedStr(AllTypes(sejours))
    ensures s in AllTypes(sejours) <==> exists k :: 0 <= k < |sejours| && sejours[k].housingType == s
  {
    var values := seq(|sejours|, k requires 0 <= k < |sejours| => sejours[k].housingType);
    if exists k :: 0 <= k < |sejours| && sejours[k].housingType == s {
      var k :| 0 <= k < |sejours| && sejours[k].housingType == s;
      assert values[k] == s;
    }
  }

  /** The capacities on offer, once each, in increasing order. */
  lemma PersonnesFacet(sejours: seq<Sejour>, n: int)
    ensures StrictlySortedInt(AllPersonnes(sejours))
    ensures n in AllPersonnes(sejours) <==> exists k :: 0 <= k < |sejours| && sejours[k].nbPersonnes == n
  {
    var values := seq(|sejours|, k requires 0 <= k < |sejours| => sejours[k].nbPersonnes);
    if exists k :: 0 <= k < |sejours| && sejours[k].nbPersonnes == n {
      var k :| 0 <= k < |sejours| && sejours[k].nbPersonnes == n;
      assert values[k] == n;
    }
  }

  /** The durations on offer, once each, in increasing order. */
  lemma DureeFacet(sejours: seq<Sejour>, n: int)
    ensures StrictlySortedInt(AllDurees(sejours))
    ensures n in AllDurees(sejours) <==> exists k :: 0 <= k < |sejours| && sejours[k].duree == n
  {
    var values := seq(|sejours|, k requires 0 <= k < |sejours| => sejours[k].duree);
    if exists k :: 0 <= k < |sejours| && sejours[k].duree == n {
      var k :| 0 <= k < |sejours| && sejours[k].duree == n;
      assert values[k] == n;
    }
  }

  /** The arrival dates on offer, once each, in string order. */
  lemma DateFacet(sejours: seq<Sejour>, s: string)
    ensures StrictlySortedStr(AllDates(sejours))
    ensures s in AllDates(sejours) <==> exists k :: 0 <= k < |sejours| && sejours[k].dateArrivee == s
  {
    var values := seq(|sejours|, k requires 0 <= k < |sejours| => sejours[k].dateArrivee);
    if exists k :: 0 <= k < |sejours| && sejours[k].dateArrivee == s {
      var k :| 0 <= k < |sejours| && sejours[k].dateArrivee == s;
      assert values[k] == s;
    }
  }

  // ---------------------------------------------------------------------
  // Filters (lines 80-84)
  // ---------------------------------------------------------------------

  /** The five selected-value lists. */
  datatype Filters = Filters(
    comfort: seq<string>, types: seq<string>, personnes: seq<int>, durees: seq<int>, dates: seq<string>)

  /** One of the five filters, with its list. */
  datatype Criterion =
    | ComfortIn(comforts: seq<string>)
    | TypeIn(types: seq<string>)
    | PersonnesIn(personnes: seq<int>)
    | DureeIn(durees: seq<int>)
    | DateIn(dates: seq<string>)

  predicate IsEmpty(c: Criterion)
  {
    match c
    case ComfortIn(l) => |l| == 0
    case TypeIn(l) => |l| == 0
    case PersonnesIn(l) => |l| == 0
    case DureeIn(l) => |l| == 0
    case DateIn(l) => |l| == 0
  }

  /** The `includes` test of the filter's callback. */
  predicate Matches(c: Criterion, s: Sejour)
  {
    match c
    case ComfortIn(l) => s.comfortLevel in l
    case TypeIn(l) => s.housingType in l
    case PersonnesIn(l) => s.nbPersonnes in l
    case DureeIn(l) => s.duree in l
    case DateIn(l) => s.dateArrivee in l
  }

  /** A record gets past a filter when the filter is empty or matches it. */
  predicate Admits(c: Criterion, s: Sejour)
  {
    IsEmpty(c) || Matches(c, s)
  }

  /** `result.filter(...)` with the criterion's test. */
  function Select(sejours: seq<Sejour>, c: Criterion): seq<Sejour>
  {
    if sejours == [] then []
    else if Matches(c, sejours[0]) then [sejours[0]] + Select(sejours[1..], c)
    else Select(sejours[1..], c)
  }

  /** One line of lines 80-84: the filter runs only when its list is not
      empty. */
  function Keep(sejours: seq<Sejour>, c: Criterion): seq<Sejour>
  {
    if IsEmpty(c) then sejours else Select(sejours, c)
  }

  /** The five filters in the order of lines 80-84. */
  function Filtered(sejours: seq<Sejour>, f: Filters): seq<Sejour>
  {
    var r1 := Keep(sejours, ComfortIn(f.comfort));
    var r2 := Keep(r1, TypeIn(f.types));
    var r3 := Keep(r2, PersonnesIn(f.personnes));
    var r4 := Keep(r3, DureeIn(f.durees));
    Keep(r4, DateIn(f.dates))
  }

  /** A record passes when every non-empty filter lists its value. */
  predicate Passes(f: Filters, s: Sejour)
  {
    && Admits(ComfortIn(f.comfort), s) && Admits(TypeIn(f.types), s)
    && Admits(PersonnesIn(f.personnes), s) && Admits(DureeIn(f.durees), s)
    && Admits(DateIn(f.dates), s)
  }

  /** A filter keeps every copy of the records it admits and no copy of the
      others. */
  lemma {:induction false} KeepCount(sejours: seq<Sejour>, c: Criterion)
    ensures forall x :: multiset(Keep(sejours, c))[x] == if Admits(c, x) then multiset(sejours)[x] else 0
  {
    if !IsEmpty(c) {
      SelectCount(sejours, c);
    }
  }

  lemma {:induction false} SelectCount(sejours: seq<Sejour>, c: Criterion)
    ensures forall x :: multiset(Select(sejours, c))[x] == if Matches(c, x) then multiset(sejours)[x] else 0
  {
    if sejours != [] {
      SelectCount(sejours[1..], c);
      assert sejours == [sejours[0]] + sejours[1..];
    }
  }

  /** A filter keeps the records it admits in their order. */
  lemma {:induction false} SelectConcat(a: seq<Sejour>, b: seq<Sejour>, c: Criterion)
    ensures Select(a + b, c) == Select(a, c) + Select(b, c)
  {
    if a != [] {
      SelectConcat(a[1..], b, c);
      assert (a + b)[1..] == a[1..] + b;
    } else {
      assert a + b == b;
    }
  }

  /** The filtered list holds each record that passes every filter as many
      times as the input does, and nothing else. */
  lemma FilteredCount(sejours: seq<Sejour>, f: Filters)
    ensures forall x :: multiset(Filtered(sejours, f))[x] == if Passes(f, x) then multiset(sejours)[x] else 0
  {
    var r1 := Keep(sejours, ComfortIn(f.comfort));
    var r2 := Keep(r1, TypeIn(f.types));
    var r3 := Keep(r2, PersonnesIn(f.personnes));
    var r4 := Keep(r3, DureeIn(f.durees));
    KeepCount(sejours, ComfortIn(f.comfort));
    KeepCount(r1, TypeIn(f.types));
    KeepCount(r2, PersonnesIn(f.personnes));
    KeepCount(r3, DureeIn(f.durees));
    KeepCount(r4, DateIn(f.dates));
  }

  /** With every filter list empty, nothing is filtered out. */
  lemma NoFilterKeepsAll(sejours: seq<Sejour>)
    ensures Filtered(sejours, Filters([], [], [], [], [])) == sejours
  {
  }

  // ---------------------------------------------------------------------
  // Sort modes (lines 86-97)
  // ---------------------------------------------------------------------

  datatype SortMode = PrixAsc | PrixDesc | DateAsc | Remise

  /** The discount ratio `1 - prix / prix_original` as a fraction with a
      positive denominator; a missing or zero original price gives 0. */
  function Discount(s: Sejour): (r: (int, int))
    ensures r.1 > 0
    ensures s.prixOriginal.None? || s.prixOriginal == Some(0) ==> r == (0, 1)
    ensures s.prixOriginal.Some? && s.prixOriginal.value != 0 ==>
      r.0 * s.prixOriginal.value == (s.prixOriginal.value - s.prix) * r.1
  {
    match s.prixOriginal
    case None => (0, 1)
    case Some(o) =>
      if o > 0 then (o - s.prix, o)
      else if o < 0 then (s.prix - o, -o)
      else (0, 1)
  }

  /** The discount of `x` is at most that of `y`. */
  predicate DiscountLe(x: Sejour, y: Sejour)
  {
    Discount(x).0 * Discount(y).1 <= Discount(y).0 * Discount(x).1
  }

  /** The comparator of the mode says `x` may stay before `y` (it is not
      positive). */
  predicate InOrder(mode: SortMode, x: Sejour, y: Sejour)
  {
    match mode
    case PrixAsc => x.prix <= y.prix
    case PrixDesc => y.prix <= x.prix
    case DateAsc => StrLe(x.dateArrivee, y.dateArrivee)
    case Remise => DiscountLe(y, x)
  }

  /** Every comparator orders any two records one way or the other. */
  lemma InOrderTotal(mode: SortMode, x: Sejour, y: Sejour)
    ensures InOrder(mode, x, y) || InOrder(mode, y, x)
  {
    if mode == DateAsc {
      StrLeTotal(x.dateArrivee, y.dateArrivee);
    }
  }

  /** Comparing discounts is transitive. */
  lemma DiscountLeTrans(x: Sejour, y: Sejour, z: Sejour)
    requires DiscountLe(x, y) && DiscountLe(y, z)
    ensures DiscountLe(x, z)
  {
    RatioLeTrans(Discount(x).0, Discount(x).1, Discount(y).0, Discount(y).1, Discount(z).0, Discount(z).1);
  }

  /** a/b <= c/d and c/d <= e/f give a/b <= e/f, for positive denominators. */
  lemma RatioLeTrans(a: int, b: int, c: int, d: int, e: int, f: int)
    requires b > 0 && d > 0 && f > 0
    requires a * d <= c * b && c * f <= e * d
    ensures a * f <= e * b
  {
    MulLeftMono(a * d, c * b, f);
    MulLeftMono(c * f, e * d, b);
    MulRegroup(a, d, f);
    MulRegroup(c, b, f);
    MulRegroup(e, d, b);
    if a * f > e * b {
      MulStrictMono(e * b, a * f, d);
    }
  }

  lemma MulLeftMono(p: int, q: int, k: int)
    requires p <= q && k > 0
    ensures p * k <= q * k
  {
  }

  lemma MulStrictMono(p: int, q: int, k: int)
    requires p < q && k > 0
    ensures p * k < q * k
  {
  }

  lemma MulRegroup(p: int, q: int, r: int)
    ensures (p * q) * r == (p * r) * q
  {
  }

  /** Each record may stay before the next one. */
  predicate AdjacentSorted(s: seq<Sejour>, mode: SortMode)
  {
    forall k :: 0 < k < |s| ==> InOrder(mode, s[k - 1], s[k])
  }

  /** `result.sort(comparator)`: insertion sort on the copied array. */
  method SortSejours(a: array<Sejour>, mode: SortMode)
    modifies a
    ensures AdjacentSorted(a[..], mode)
    ensures multiset(a[..]) == multiset(old(a[..]))
  {
    for i := 0 to a.Length
      invariant AdjacentSorted(a[..i], mode)
      invariant multiset(a[..]) == multiset(old(a[..]))
    {
      InsertLast(a, i, mode);
    }
    assert a[..a.Length] == a[..];
  }

  /** Moves `a[i]` down into the sorted prefix `a[..i]`, swapping it with
      each neighbour the comparator puts after it. */
  method InsertLast(a: array<Sejour>, i: nat, mode: SortMode)
    requires i < a.Length
    requires AdjacentSorted(a[..i], mode)
    modifies a
    ensures AdjacentSorted(a[..i + 1], mode)
    ensures multiset(a[..]) == multiset(old(a[..]))
  {
    var j := i;
    SortedButStart(a[..], i, mode);
    while j > 0 && !InOrder(mode, a[j - 1], a[j])
      invariant 0 <= j <= i
      invariant multiset(a[..]) == multiset(old(a[..]))
      invariant SortedBut(a[..], i, j, mode)
    {
      InOrderTotal(mode, a[j - 1], a[j]);
      SwapKeepsOrder(a[..], j, i, mode);
      SwapNeighbours(a, j);
      j := j - 1;
    }
    SortedButEnd(a[..], i, j, mode);
  }

  /** Exchanges `a[j - 1]` and `a[j]`. */
  method SwapNeighbours(a: array<Sejour>, j: nat)
    requires 0 < j < a.Length
    modifies a
    ensures a[..] == old(a[..])[j - 1 := old(a[j])][j := old(a[j - 1])]
  {
    a[j - 1], a[j] := a[j], a[j - 1];
  }

  /** While `s[j]` is moved down, `s[..i + 1]` is in order except just
      before `s[j]`, and the records on either side of it are in order. */
  ghost predicate SortedBut(s: seq<Sejour>, i: nat, j: nat, mode: SortMode)
  {
    && i < |s| && j <= i
    && (forall k :: 0 < k <= i && k != j ==> InOrder(mode, s[k - 1], s[k]))
    && (0 < j < i ==> InOrder(mode, s[j - 1], s[j + 1]))
  }

  lemma SortedButStart(s: seq<Sejour>, i: nat, mode: SortMode)
    requires i < |s| && AdjacentSorted(s[..i], mode)
    ensures SortedBut(s, i, i, mode)
  {
    assert forall k :: 0 <= k < i ==> s[..i][k] == s[k];
  }

  lemma SortedButEnd(s: seq<Sejour>, i: nat, j: nat, mode: SortMode)
    requires SortedBut(s, i, j, mode)
    requires j == 0 || InOrder(mode, s[j - 1], s[j])
    ensures AdjacentSorted(s[..i + 1], mode)
  {
    assert forall k :: 0 <= k <= i ==> s[..i + 1][k] == s[k];
  }

  /** One swap of the insertion: the moved record passes its neighbour, and
      the order holds everywhere in `s[..i + 1]` except just before it. */
  lemma SwapKeepsOrder(s: seq<Sejour>, j: nat, i: nat, mode: SortMode)
    requires 0 < j && SortedBut(s, i, j, mode)
    requires InOrder(mode, s[j], s[j - 1])
    ensures SortedBut(s[j - 1 := s[j]][j := s[j - 1]], i, j - 1, mode)
    ensures multiset(s[j - 1 := s[j]][j := s[j - 1]]) == multiset(s)
  {
  }

  /** Lines 77-100: the filtered copy of `sejours`, sorted by `tri`. */
  method SejoursAffiches(sejours: seq<Sejour>, f: Filters, tri: SortMode) returns (result: seq<Sejour>)
    ensures multiset(result) == multiset(Filtered(sejours, f))
    ensures AdjacentSorted(result, tri)
  {
    var filtered := Filtered(sejours, f);
    var a := new Sejour[|filtered|](k requires 0 <= k < |filtered| => filtered[k]);
    assert a[..] == filtered;
    SortSejours(a, tri);
    result := a[..];
  }

  // ---------------------------------------------------------------------
  // What the display promises
  // ---------------------------------------------------------------------

  /** A display with the filtered records holds exactly the records that
      pass every filter; with no filter it is a permutation of the input. */
  lemma DisplayedRecords(sejours: seq<Sejour>, f: Filters, shown: seq<Sejour>)
    requires multiset(shown) == multiset(Filtered(sejours, f))
    ensures forall x :: x in shown <==> x in sejours && Passes(f, x)
    ensures f == Filters([], [], [], [], []) ==> multiset(shown) == multiset(sejours)
  {
    FilteredCount(sejours, f);
    forall x ensures x in shown <==> x in sejours && Passes(f, x) {
      assert x in shown <==> multiset(shown)[x] > 0;
      assert x in sejours <==> multiset(sejours)[x] > 0;
    }
  }

  /** In ascending price mode, prices never decrease along the display. */
  lemma {:induction false} PrixAscSorted(s: seq<Sejour>)
    requires AdjacentSorted(s, PrixAsc)
    ensures forall i, j :: 0 <= i < j < |s| ==> s[i].prix <= s[j].prix
  {
    if |s| > 1 {
      var init := s[..|s| - 1];
      PrixAscSorted(init);
      forall i | 0 <= i < |s| - 1 ensures s[i].prix <= s[|s| - 1].prix {
        assert init[i] == s[i] && init[|s| - 2] == s[|s| - 2];
      }
    }
  }

  /** In descending price mode, prices never increase along the display. */
  lemma {:induction false} PrixDescSorted(s: seq<Sejour>)
    requires AdjacentSorted(s, PrixDesc)
    ensures forall i, j :: 0 <= i < j < |s| ==> s[i].prix >= s[j].prix
  {
    if |s| > 1 {
      var init := s[..|s| - 1];
      PrixDescSorted(init);
      forall i | 0 <= i < |s| - 1 ensures s[i].prix >= s[|s| - 1].prix {
        assert init[i] == s[i] && init[|s| - 2] == s[|s| - 2];
      }
    }
  }

  /** In date mode, arrival dates are in string order along the display. */
  lemma {:induction false} DateAscSorted(s: seq<Sejour>)
    requires AdjacentSorted(s, DateAsc)
    ensures forall i, j :: 0 <= i < j < |s| ==> StrLe(s[i].dateArrivee, s[j].dateArrivee)
  {
    if |s| > 1 {
      var init := s[..|s| - 1];
      DateAscSorted(init);
      forall i | 0 <= i < |s| - 1 ensures StrLe(s[i].dateArrivee, s[|s| - 1].dateArrivee) {
        assert init[i] == s[i] && init[|s| - 2] == s[|s| - 2];
        StrLeRefl(s[i].dateArrivee);
        StrLeTrans(s[i].dateArrivee, s[|s| - 2].dateArrivee, s[|s| - 1].dateArrivee);
      }
    }
  }

  /** In discount mode, discounts never increase along the display. */
  lemma {:induction false} RemiseSorted(s: seq<Sejour>)
    requires AdjacentSorted(s, Remise)
    ensures forall i, j :: 0 <= i < j < |s| ==> DiscountLe(s[j], s[i])
  {
    if |s| > 1 {
      var init := s[..|s| - 1];
      RemiseSorted(init);
      forall i | 0 <= i < |s| - 1 ensures DiscountLe(s[|s| - 1], s[i]) {
        assert init[i] == s[i] && init[|s| - 2] == s[|s| - 2];
        if i < |s| - 2 {
          DiscountLeTrans(s[|s| - 1], s[|s| - 2], s[i]);
        }
      }
    }
  }
}
