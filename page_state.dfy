/** The state the results page keeps between renders (index.tsx): the
    duration range of the next scraping run, picked with two sliders, and
    the five filter lists with the sort mode. */
module PageState {
  import opened Wrappers
  import opened PhpValues
  import opened Catalogue
  import opened Pricing
  import opened ScraperController
  import opened PageLists
  import opened PageDisplay

  // ---------------------------------------------------------------------
  // The duration range (lines 18-20, 56-58, 160-168, 188, 192)
  // ---------------------------------------------------------------------

  /** `DUREES`: the durations the sliders choose from, in nights. */
  const Durees: seq<int> := [2, 3, 4, 5, 6, 7, 10, 11, 14]

  /** `MAX_IDX`: the last slider position. */
  const MaxIdx: int := |Durees| - 1

  /** The estimate of pricing calls the page shows per duration. */
  const CallsPerDuree: int := 22

  /** `DUREES.slice(lo, hi + 1)` for slider positions `lo <= hi`: a
      non-empty run of consecutive entries of `DUREES`, still increasing. */
  function DureesBetween(lo: int, hi: int): (r: seq<int>)
    requires 0 <= lo <= hi <= MaxIdx
    ensures |r| == hi - lo + 1 > 0
    ensures forall k :: 0 <= k < |r| ==> r[k] == Durees[lo + k]
    ensures forall k, m :: 0 <= k < m < |r| ==> r[k] < r[m]
    ensures r[0] == Durees[lo] && r[|r| - 1] == Durees[hi]
  {
    Durees[lo..hi + 1]
  }

  /** `dureesScraping.length * 22`: the number of calls announced. */
  function CallEstimate(ds: seq<int>): int
  {
    CallsPerDuree * |ds|
  }

  /** The payload `{durees: dureesScraping}`: the durations travel as JSON
      integers and reach the controller as integer scalars. */
  function Payload(ds: seq<int>): (r: seq<RequestValue>)
    ensures |r| == |ds|
    ensures forall k :: 0 <= k < |r| ==> r[k].IntValue? && r[k].i == ds[k]
  {
    seq(|ds|, k requires 0 <= k < |ds| => IntValue(ds[k]))
  }

  /** The controller runs exactly the durations the sliders selected. */
  lemma PostedRangeReachesController(lo: int, hi: int)
    requires 0 <= lo <= hi <= MaxIdx
    ensures Durations(Some(Payload(DureesBetween(lo, hi)))) == DureesBetween(lo, hi)
  {
    var ds := DureesBetween(lo, hi);
    var sent := Durations(Some(Payload(ds)));
    assert |sent| == |ds|;
    forall k | 0 <= k < |ds| ensures sent[k] == ds[k] {
      assert IntVal(Payload(ds)[k]) == ds[k];
    }
  }

  /** The announced `~N appels` against the run: the controller makes one
      call per cottage and selected duration, so the estimate is the exact
      call count precisely when the catalogue holds 22 cottages. */
  lemma CallEstimateCountsCalls(cottages: seq<Cottage>, token: string, lo: int, hi: int)
    requires 0 <= lo <= hi <= MaxIdx
    ensures |AllQueries(cottages, Durations(Some(Payload(DureesBetween(lo, hi)))), token)| ==
            |cottages| * (hi - lo + 1)
    ensures CallEstimate(DureesBetween(lo, hi)) ==
            |AllQueries(cottages, Durations(Some(Payload(DureesBetween(lo, hi)))), token)|
            <==> |cottages| == CallsPerDuree
  {
    var ds := DureesBetween(lo, hi);
    PostedRangeReachesController(lo, hi);
    CallsIssued(cottages, ds, token);
    MulCancel(|cottages|, CallsPerDuree, |ds|);
  }

  /** A positive factor cancels from both sides. */
  lemma MulCancel(a: int, b: int, n: int)
    requires n > 0
    ensures a * n == b * n <==> a == b
  {
    if a < b {
      assert a * n < b * n;
    } else if a > b {
      assert a * n > b * n;
    }
  }

  /** Before any slider moves, the page posts the controller's own default
      list, so posting it or omitting the key scrapes the same durations. */
  lemma FullRangeIsDefault()
    ensures DureesBetween(0, MaxIdx) == DefaultDurees
    ensures Durations(Some(Payload(DureesBetween(0, MaxIdx)))) == Durations(None)
  {
    PostedRangeReachesController(0, MaxIdx);
  }

  /** The two slider positions, `minIdx` and `maxIdx`. */
  class DurationSlider {
    var minIdx: int
    var maxIdx: int

    ghost predicate Valid()
      reads this
    {
      0 <= minIdx <= maxIdx <= MaxIdx
    }

    /** The whole range is selected at first. */
    constructor ()
      ensures Valid() && minIdx == 0 && maxIdx == MaxIdx
    {
      minIdx, maxIdx := 0, MaxIdx;
    }

    /** The "Min" slider moved to `v`: it cannot pass the "Max" one. */
    method SetMin(v: int)
      requires Valid() && 0 <= v <= MaxIdx
      modifies this
      ensures Valid()
      ensures minIdx == if v < old(maxIdx) then v else old(maxIdx)
      ensures maxIdx == old(maxIdx)
    {
      minIdx := if v < maxIdx then v else maxIdx;
    }

    /** The "Max" slider moved to `v`: it cannot pass the "Min" one. */
    method SetMax(v: int)
      requires Valid() && 0 <= v <= MaxIdx
      modifies this
      ensures Valid()
      ensures maxIdx == if v > old(minIdx) then v else old(minIdx)
      ensures minIdx == old(minIdx)
    {
      maxIdx := if v > minIdx then v else minIdx;
    }

    /** `dureesScraping`. */
    function DureesScraping(): seq<int>
      reads this
      requires Valid()
    {
      DureesBetween(minIdx, maxIdx)
    }

    /** The button's `router.post`: the payload of the scraping request. */
    method Launch() returns (payload: seq<RequestValue>)
      requires Valid()
      ensures payload == Payload(DureesScraping())
      ensures Durations(Some(payload)) == DureesScraping()
    {
      payload := Payload(DureesBetween(minIdx, maxIdx));
      PostedRangeReachesController(minIdx, maxIdx);
    }
  }

  // ---------------------------------------------------------------------
  // The filter lists and the sort mode (lines 60-65, 102-111)
  // ---------------------------------------------------------------------

  /** `nbFiltresActifs`: how many values are selected over all five
      filters. */
  function ActiveFilters(f: Filters): (n: nat)
    ensures n == 0 <==> f == Filters([], [], [], [], [])
  {
    |f.comfort| + |f.types| + |f.personnes| + |f.durees| + |f.dates|
  }

  /** With no value selected anywhere, every record is shown. */
  lemma NoActiveFilterShowsAll(sejours: seq<Sejour>, f: Filters)
    requires ActiveFilters(f) == 0
    ensures Filtered(sejours, f) == sejours
  {
    NoFilterKeepsAll(sejours);
  }

  /** The five `filtre*` lists and `tri`. */
  class FilterState {
    var comfort: seq<string>
    var types: seq<string>
    var personnes: seq<int>
    var durees: seq<int>
    var dates: seq<string>
    var tri: SortMode

    /** Nothing selected, cheapest first. */
    constructor ()
      ensures Current() == Filters([], [], [], [], []) && tri == PrixAsc
    {
      comfort, types, personnes, durees, dates := [], [], [], [], [];
      tri := PrixAsc;
    }

    function Current(): Filters
      reads this
    {
      Filters(comfort, types, personnes, durees, dates)
    }

    /** A click on a comfort pill. */
    method ToggleComfort(v: string)
      modifies this
      ensures Current() == old(Current()).(comfort := Toggle(old(comfort), v))
      ensures tri == old(tri)
    {
      comfort := Toggle(comfort, v);
    }

    /** A click on a type pill. */
    method ToggleType(v: string)
      modifies this
      ensures Current() == old(Current()).(types := Toggle(old(types), v))
      ensures tri == old(tri)
    {
      types := Toggle(types, v);
    }

    /** A click on a capacity pill. */
    method TogglePersonnes(v: int)
      modifies this
      ensures Current() == old(Current()).(personnes := Toggle(old(personnes), v))
      ensures tri == old(tri)
    {
      personnes := Toggle(personnes, v);
    }

    /** A click on a duration pill. */
    method ToggleDuree(v: int)
      modifies this
      ensures Current() == old(Current()).(durees := Toggle(old(durees), v))
      ensures tri == old(tri)
    {
      durees := Toggle(durees, v);
    }

    /** A click on a date pill. */
    method ToggleDate(v: string)
      modifies this
      ensures Current() == old(Current()).(dates := Toggle(old(dates), v))
      ensures tri == old(tri)
    {
      dates := Toggle(dates, v);
    }

    /** A click on a sort button. */
    method SetTri(mode: SortMode)
      modifies this
      ensures tri == mode && Current() == old(Current())
    {
      tri := mode;
    }

    /** `resetFiltres`: every list emptied and the sort back to cheapest
        first, so no filter is counted and every record is shown. */
    method Reset()
      modifies this
      ensures Current() == Filters([], [], [], [], []) && tri == PrixAsc
      ensures ActiveFilters(Current()) == 0
      ensures forall sejours :: Filtered(sejours, Current()) == sejours
    {
      comfort, types, personnes, durees, dates := [], [], [], [], [];
      tri := PrixAsc;
      forall sejours: seq<Sejour> ensures Filtered(sejours, Current()) == sejours {
        NoFilterKeepsAll(sejours);
      }
    }

    /** The records on display for the current state. */
    method Displayed(sejours: seq<Sejour>) returns (result: seq<Sejour>)
      ensures multiset(result) == multiset(Filtered(sejours, Current()))
      ensures AdjacentSorted(result, tri)
    {
      result := SejoursAffiches(sejours, Current(), tri);
    }
  }
}
