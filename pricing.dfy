/** Pricing and row building (ScraperController.php, lines 95-148): one
    flexCalendar call per cottage and duration, cottages outermost; every
    date of a decoded answer becomes a row.  A call that throws, or an entry
    lacking a key the code reads, ends that pair only; rows already
    appended for the pair stay.  The HTTP client and `json_decode` are not
    modelled: `api(i, j, q)` is the decoded answer to the call made for the
    i-th cottage and the j-th duration, issued with query `q`. */
module Pricing {
  import opened Wrappers
  import opened Seqs
  import opened Catalogue

  /** Query string of a flexCalendar call (lines 105-115). */
  datatype PricingQuery = PricingQuery(
    univers: string, language: string, market: string, offer: string,
    housing: string, token: string, currency: string, displayPrice: string,
    duration: int)

  function QueryFor(c: Cottage, token: string, duree: int): (q: PricingQuery)
  {
    PricingQuery("cpe", "fr", "fr", "VN", c.housingCode, token, "EUR", "per_stay", duree)
  }

  /** The decoded JSON of one date entry, down to the keys the loop reads.
      `None` is a key whose read raises: a missing key, or an object that is
      JSON `null`.  A `null` leaf is given as `Some(0)`: a `null` discount is
      not positive and a `null` amount casts to 0, so neither raises.
      Amounts are in cents. */
  datatype Amount = Amount(rawBeforeTax: Option<int>)
  datatype Price = Price(promo: Option<Amount>, discount: Option<int>, original: Option<Amount>)
  datatype Cache = Cache(price: Option<Price>)
  datatype DateEntry = DateEntry(cache: Option<Cache>)

  /** The outcome of one call: it threw (transport error, non-2xx status,
      timeout), or it answered and `results.results.dates` was found
      (`Some`, in key order) or not (`None`, which includes a body that is
      not JSON, since `json_decode` then gives null). */
  datatype PricingResponse = CallFailed | Answered(dates: Option<seq<(string, DateEntry)>>)

  /** A row of the `sejours` table as the loop builds it (lines 128-140),
      without the two timestamps. */
  datatype Row = Row(
    housingCode: string, housingType: string, comfortLevel: string, nbPersonnes: int,
    dateArrivee: string, duree: int, prix: int, prixOriginal: Option<int>, urlSource: Option<string>)

  datatype EntryPrices = EntryPrices(prix: int, prixOriginal: Option<int>)

  /** Lines 122-126: the two prices of an entry, or `None` when reading them
      hits a missing key, which raises.  The original price is read only
      when the discount is positive. */
  function ReadEntry(e: DateEntry): Option<EntryPrices>
  {
    if e.cache.None? || e.cache.value.price.None? then None
    else
      var p := e.cache.value.price.value;
      if p.promo.None? || p.promo.value.rawBeforeTax.None? || p.discount.None? then None
      else if p.discount.value > 0 then
        if p.original.None? || p.original.value.rawBeforeTax.None? then None
        else Some(EntryPrices(p.promo.value.rawBeforeTax.value, Some(p.original.value.rawBeforeTax.value)))
      else Some(EntryPrices(p.promo.value.rawBeforeTax.value, None))
  }

  function MakeRow(c: Cottage, duree: int, date: string, p: EntryPrices): Row
  {
    Row(c.housingCode, c.housingType, c.comfortLevel, c.nbPersonnes, date, duree, p.prix, p.prixOriginal, None)
  }

  /** How many entries, from the first, read without raising. */
  function ReadablePrefix(dates: seq<(string, DateEntry)>): (n: nat)
    ensures n <= |dates|
    ensures forall m :: 0 <= m < n ==> ReadEntry(dates[m].1).Some?
    ensures n < |dates| ==> ReadEntry(dates[n].1).None?
  {
    if dates == [] || ReadEntry(dates[0].1).None? then 0 else 1 + ReadablePrefix(dates[1..])
  }

  /** The rows one pair contributes. */
  function PairRows(c: Cottage, duree: int, resp: PricingResponse): seq<Row>
  {
    match resp
    case CallFailed => []
    case Answered(None) => []
    case Answered(Some(dates)) =>
      seq(ReadablePrefix(dates), m requires 0 <= m < ReadablePrefix(dates) =>
        MakeRow(c, duree, dates[m].0, ReadEntry(dates[m].1).value))
  }

  function PairBlock(cottages: seq<Cottage>, durees: seq<int>, token: string,
                     api: (nat, nat, PricingQuery) -> PricingResponse, i: nat, j: nat): seq<Row>
    requires i < |cottages| && j < |durees|
  {
    PairRows(cottages[i], durees[j], api(i, j, QueryFor(cottages[i], token, durees[j])))
  }

  /** The rows of each duration of cottage `i`, one block per duration. */
  function PairBlocks(cottages: seq<Cottage>, durees: seq<int>, token: string,
                      api: (nat, nat, PricingQuery) -> PricingResponse, i: nat): (bs: seq<seq<Row>>)
    requires i < |cottages|
    ensures |bs| == |durees|
  {
    seq(|durees|, j requires 0 <= j < |durees| => PairBlock(cottages, durees, token, api, i, j))
  }

  /** The rows of each cottage, one block per cottage. */
  function CottageBlocks(cottages: seq<Cottage>, durees: seq<int>, token: string,
                         api: (nat, nat, PricingQuery) -> PricingResponse): (bs: seq<seq<Row>>)
    ensures |bs| == |cottages|
  {
    seq(|cottages|, i requires 0 <= i < |cottages| => Flatten(PairBlocks(cottages, durees, token, api, i)))
  }

  /** Every row the double loop collects, in cottage × duration × date order. */
  function AllRows(cottages: seq<Cottage>, durees: seq<int>, token: string,
                   api: (nat, nat, PricingQuery) -> PricingResponse): seq<Row>
  {
    Flatten(CottageBlocks(cottages, durees, token, api))
  }

  /** The queries issued for each cottage, one block per cottage, one query
      per duration. */
  function QueryBlocks(cottages: seq<Cottage>, durees: seq<int>, token: string): (bs: seq<seq<PricingQuery>>)
    ensures |bs| == |cottages|
    ensures forall i :: 0 <= i < |cottages| ==> |bs[i]| == |durees|
  {
    seq(|cottages|, i requires 0 <= i < |cottages| =>
      seq(|durees|, j requires 0 <= j < |durees| => QueryFor(cottages[i], token, durees[j])))
  }

  /** The queries issued, one per pair, in the order of the rows. */
  function AllQueries(cottages: seq<Cottage>, durees: seq<int>, token: string): seq<PricingQuery>
  {
    Flatten(QueryBlocks(cottages, durees, token))
  }

  /** Lines 103-142, the body of the `try`: the rows of one answer are
      appended until an entry raises. */
  method AppendPairRows(rows: seq<Row>, cottage: Cottage, duree: int, response: PricingResponse)
    returns (rows': seq<Row>)
    ensures rows' == rows + PairRows(cottage, duree, response)
  {
    rows' := rows;
    if response.Answered? && response.dates.Some? {
      var dates := response.dates.value;
      var m := 0;
      var failed := false;
      while m < |dates| && !failed
        decreases |dates| - m, !failed
        invariant m <= ReadablePrefix(dates)
        invariant failed ==> m == ReadablePrefix(dates)
        invariant rows' == rows + PairRows(cottage, duree, response)[..m]
      {
        var prices := ReadEntry(dates[m].1);
        if prices.None? {
          failed := true;   // the exception abandons the rest of this pair
        } else {
          rows' := rows' + [MakeRow(cottage, duree, dates[m].0, prices.value)];
          m := m + 1;
        }
      }
      assert PairRows(cottage, duree, response)[..m] == PairRows(cottage, duree, response);
    }
  }

  /** Lines 103-146, one pass of the inner `foreach`: the query for cottage
      `i` and duration `j` is issued and the rows of its answer appended. */
  method CollectPair(cottages: seq<Cottage>, durees: seq<int>, token: string,
                     api: (nat, nat, PricingQuery) -> PricingResponse, i: nat, j: nat,
                     rows: seq<Row>, queries: seq<PricingQuery>)
    returns (rows': seq<Row>, queries': seq<PricingQuery>)
    requires i < |cottages| && j < |durees|
    ensures rows' == rows + PairBlock(cottages, durees, token, api, i, j)
    ensures queries' == queries + [QueryFor(cottages[i], token, durees[j])]
  {
    var query := QueryFor(cottages[i], token, durees[j]);
    queries' := queries + [query];
    var response := api(i, j, query);
    rows' := AppendPairRows(rows, cottages[i], durees[j], response);
  }

  /** Lines 102-147, the inner `foreach` for cottage `i`: one call per
      duration, the rows of each answer appended in place. */
  method CollectCottage(cottages: seq<Cottage>, durees: seq<int>, token: string,
                        api: (nat, nat, PricingQuery) -> PricingResponse, i: nat,
                        rows: seq<Row>, queries: seq<PricingQuery>)
    returns (rows': seq<Row>, queries': seq<PricingQuery>)
    requires i < |cottages|
    ensures rows' == rows + CottageBlocks(cottages, durees, token, api)[i]
    ensures queries' == queries + QueryBlocks(cottages, durees, token)[i]
  {
    rows', queries' := rows, queries;
    ghost var pairs := PairBlocks(cottages, durees, token, api, i);
    ghost var issued := QueryBlocks(cottages, durees, token)[i];
    for j := 0 to |durees|
      invariant rows' == rows + Flatten(pairs[..j])
      invariant queries' == queries + issued[..j]
    {
      rows', queries' := CollectPair(cottages, durees, token, api, i, j, rows', queries');
      FlattenPrefixStep(pairs, j);
      assert issued[..j + 1] == issued[..j] + [issued[j]];
    }
    assert pairs[..|durees|] == pairs;
    assert issued[..|durees|] == issued;
  }

  /** Lines 99-148: the double loop over cottages (outer) and durations
      (inner), collecting every row in one list. */
  method BuildRows(cottages: seq<Cottage>, durees: seq<int>, token: string,
                   api: (nat, nat, PricingQuery) -> PricingResponse)
    returns (rows: seq<Row>, queries: seq<PricingQuery>)
    ensures rows == AllRows(cottages, durees, token, api)
    ensures queries == AllQueries(cottages, durees, token)
  {
    rows, queries := [], [];
    ghost var blocks := CottageBlocks(cottages, durees, token, api);
    ghost var queryBlocks := QueryBlocks(cottages, durees, token);
    for i := 0 to |cottages|
      invariant rows == Flatten(blocks[..i])
      invariant queries == Flatten(queryBlocks[..i])
    {
      rows, queries := CollectCottage(cottages, durees, token, api, i, rows, queries);
      FlattenPrefixStep(blocks, i);
      FlattenPrefixStep(queryBlocks, i);
    }
    assert blocks[..|cottages|] == blocks;
    assert queryBlocks[..|cottages|] == queryBlocks;
  }

  // ---------------------------------------------------------------------
  // Properties of the rows and of the calls.
  // ---------------------------------------------------------------------

  /** When the entry at `m0` raises, the pair keeps exactly the rows of the
      dates before it, and whatever follows is never read. */
  lemma {:induction false} PairStopsAtFailure(c: Cottage, duree: int, dates: seq<(string, DateEntry)>, m0: nat)
    requires m0 < |dates| && ReadEntry(dates[m0].1).None?
    requires forall m :: 0 <= m < m0 ==> ReadEntry(dates[m].1).Some?
    ensures PairRows(c, duree, Answered(Some(dates))) == PairRows(c, duree, Answered(Some(dates[..m0])))
    ensures |PairRows(c, duree, Answered(Some(dates)))| == m0
  {
    assert ReadablePrefix(dates) == m0;
    var pre := dates[..m0];
    assert forall m :: 0 <= m < m0 ==> pre[m] == dates[m];
    assert ReadablePrefix(pre) == m0;
  }

  /** A pair whose call fails, or whose answer lacks `results.results.dates`,
      contributes nothing; an answer whose entries all read contributes one
      row per date, in key order. */
  lemma PairRowsCount(c: Cottage, duree: int, resp: PricingResponse)
    ensures resp.CallFailed? || resp.dates.None? ==> PairRows(c, duree, resp) == []
    ensures resp.Answered? && resp.dates.Some? &&
            (forall m :: 0 <= m < |resp.dates.value| ==> ReadEntry(resp.dates.value[m].1).Some?) ==>
            |PairRows(c, duree, resp)| == |resp.dates.value|
  {
  }

  /** Row `r` is the one built from the `m`-th date of the answer to the
      call for cottage `i` and duration `j`, an entry that reads. */
  ghost predicate RowFrom(cottages: seq<Cottage>, durees: seq<int>, token: string,
                          api: (nat, nat, PricingQuery) -> PricingResponse, i: nat, j: nat, m: nat, r: Row)
  {
    && i < |cottages| && j < |durees|
    && var resp := api(i, j, QueryFor(cottages[i], token, durees[j]));
    && resp.Answered? && resp.dates.Some? && m < ReadablePrefix(resp.dates.value)
    && r == MakeRow(cottages[i], durees[j], resp.dates.value[m].0, ReadEntry(resp.dates.value[m].1).value)
  }

  /** Every row comes from a call that answered, for a cottage of the
      catalogue and a requested duration, and from a date of that answer. */
  lemma RowProvenance(cottages: seq<Cottage>, durees: seq<int>, token: string,
                      api: (nat, nat, PricingQuery) -> PricingResponse, r: Row)
    requires r in AllRows(cottages, durees, token, api)
    ensures exists i: nat, j: nat, m: nat :: RowFrom(cottages, durees, token, api, i, j, m, r)
  {
    var blocks := CottageBlocks(cottages, durees, token, api);
    FlattenMembership(blocks, r);
    var i :| 0 <= i < |blocks| && r in blocks[i];
    var pairs := PairBlocks(cottages, durees, token, api, i);
    FlattenMembership(pairs, r);
    var j :| 0 <= j < |pairs| && r in pairs[j];
    var resp := api(i, j, QueryFor(cottages[i], token, durees[j]));
    assert pairs[j] == PairRows(cottages[i], durees[j], resp);
    assert resp.Answered? && resp.dates.Some?;
    var m :| 0 <= m < |pairs[j]| && pairs[j][m] == r;
    assert m < ReadablePrefix(resp.dates.value);
    assert r == MakeRow(cottages[i], durees[j], resp.dates.value[m].0, ReadEntry(resp.dates.value[m].1).value);
    assert RowFrom(cottages, durees, token, api, i, j, m, r);
  }

  /** Conversely, every date that reads, of every pair that answered, has its
      row. */
  lemma RowCompleteness(cottages: seq<Cottage>, durees: seq<int>, token: string,
                        api: (nat, nat, PricingQuery) -> PricingResponse, i: nat, j: nat, m: nat)
    requires i < |cottages| && j < |durees|
    requires var resp := api(i, j, QueryFor(cottages[i], token, durees[j]));
      resp.Answered? && resp.dates.Some? && m < ReadablePrefix(resp.dates.value)
    ensures var resp := api(i, j, QueryFor(cottages[i], token, durees[j]));
      MakeRow(cottages[i], durees[j], resp.dates.value[m].0, ReadEntry(resp.dates.value[m].1).value)
        in AllRows(cottages, durees, token, api)
  {
    var resp := api(i, j, QueryFor(cottages[i], token, durees[j]));
    var r := MakeRow(cottages[i], durees[j], resp.dates.value[m].0, ReadEntry(resp.dates.value[m].1).value);
    var blocks := CottageBlocks(cottages, durees, token, api);
    var pairs := PairBlocks(cottages, durees, token, api, i);
    assert pairs[j] == PairRows(cottages[i], durees[j], resp);
    assert pairs[j][m] == r;
    FlattenMembership(pairs, r);
    assert r in blocks[i];
    FlattenMembership(blocks, r);
  }

  /** Only the failing pair's block differs between the two oracles. */
  lemma PairBlocksAgreeElsewhere(cottages: seq<Cottage>, durees: seq<int>, token: string,
                                 api: (nat, nat, PricingQuery) -> PricingResponse,
                                 api': (nat, nat, PricingQuery) -> PricingResponse, i0: nat, j0: nat, i: nat)
    requires i0 < |cottages| && j0 < |durees| && i < |cottages|
    requires forall i: nat, j: nat, q :: (i, j) != (i0, j0) ==> api'(i, j, q) == api(i, j, q)
    ensures i != i0 ==> PairBlocks(cottages, durees, token, api', i) == PairBlocks(cottages, durees, token, api, i)
    ensures i == i0 ==> forall j :: 0 <= j < |durees| && j != j0 ==>
      PairBlocks(cottages, durees, token, api', i)[j] == PairBlocks(cottages, durees, token, api, i)[j]
  {
    forall j | 0 <= j < |durees| && (i, j) != (i0, j0)
      ensures PairBlock(cottages, durees, token, api', i, j) == PairBlock(cottages, durees, token, api, i, j)
    {
    }
  }

  /** Within the failing pair's cottage, the failing duration's rows drop
      out and the other durations keep theirs, in place. */
  lemma FailingCottageBlock(cottages: seq<Cottage>, durees: seq<int>, token: string,
                            api: (nat, nat, PricingQuery) -> PricingResponse,
                            api': (nat, nat, PricingQuery) -> PricingResponse, i0: nat, j0: nat)
    requires i0 < |cottages| && j0 < |durees|
    requires forall i: nat, j: nat, q :: (i, j) != (i0, j0) ==> api'(i, j, q) == api(i, j, q)
    requires forall q :: api'(i0, j0, q) == CallFailed
    ensures var pairs := PairBlocks(cottages, durees, token, api, i0);
      && Flatten(pairs) == Flatten(pairs[..j0]) + pairs[j0] + Flatten(pairs[j0 + 1..])
      && Flatten(PairBlocks(cottages, durees, token, api', i0)) == Flatten(pairs[..j0]) + Flatten(pairs[j0 + 1..])
  {
    var pairs, pairs' := PairBlocks(cottages, durees, token, api, i0), PairBlocks(cottages, durees, token, api', i0);
    PairBlocksAgreeElsewhere(cottages, durees, token, api, api', i0, j0, i0);
    assert pairs'[j0] == PairBlock(cottages, durees, token, api', i0, j0) == [];
    assert pairs'[..j0] == pairs[..j0] by {
      forall k | 0 <= k < j0 ensures pairs'[..j0][k] == pairs[..j0][k] {
        assert pairs'[k] == pairs[k];
      }
    }
    var tail, tail' := pairs[j0 + 1..], pairs'[j0 + 1..];
    assert tail' == tail by {
      forall k | 0 <= k < |tail| ensures tail'[k] == tail[k] {
        assert pairs'[j0 + 1 + k] == pairs[j0 + 1 + k];
      }
    }
    FlattenWithout(pairs, j0);
    FlattenWithout(pairs', j0);
    var before, after := Flatten(pairs[..j0]), Flatten(pairs[j0 + 1..]);
    assert before + pairs'[j0] == before;
  }

  /** The rows of the pairs handled before pair `(i0, j0)`. */
  function RowsBefore(cottages: seq<Cottage>, durees: seq<int>, token: string,
                      api: (nat, nat, PricingQuery) -> PricingResponse, i0: nat, j0: nat): seq<Row>
    requires i0 < |cottages| && j0 < |durees|
  {
    Flatten(CottageBlocks(cottages, durees, token, api)[..i0]) +
    Flatten(PairBlocks(cottages, durees, token, api, i0)[..j0])
  }

  /** The rows of the pairs handled after pair `(i0, j0)`. */
  function RowsAfter(cottages: seq<Cottage>, durees: seq<int>, token: string,
                     api: (nat, nat, PricingQuery) -> PricingResponse, i0: nat, j0: nat): seq<Row>
    requires i0 < |cottages| && j0 < |durees|
  {
    Flatten(PairBlocks(cottages, durees, token, api, i0)[j0 + 1..]) +
    Flatten(CottageBlocks(cottages, durees, token, api)[i0 + 1..])
  }

  /** A call that fails removes exactly its own pair's rows: every other pair
      contributes the same rows at the same place, before and after it. */
  lemma FailureIsolation(cottages: seq<Cottage>, durees: seq<int>, token: string,
                         api: (nat, nat, PricingQuery) -> PricingResponse,
                         api': (nat, nat, PricingQuery) -> PricingResponse, i0: nat, j0: nat)
    requires i0 < |cottages| && j0 < |durees|
    requires forall i: nat, j: nat, q :: (i, j) != (i0, j0) ==> api'(i, j, q) == api(i, j, q)
    requires forall q :: api'(i0, j0, q) == CallFailed
    ensures AllRows(cottages, durees, token, api) ==
      RowsBefore(cottages, durees, token, api, i0, j0) + PairBlock(cottages, durees, token, api, i0, j0) +
      RowsAfter(cottages, durees, token, api, i0, j0)
    ensures AllRows(cottages, durees, token, api') ==
      RowsBefore(cottages, durees, token, api, i0, j0) + RowsAfter(cottages, durees, token, api, i0, j0)
  {
    var blocks, blocks' := CottageBlocks(cottages, durees, token, api), CottageBlocks(cottages, durees, token, api');
    var pairs := PairBlocks(cottages, durees, token, api, i0);
    forall i | 0 <= i < |cottages| && i != i0 ensures blocks'[i] == blocks[i] {
      PairBlocksAgreeElsewhere(cottages, durees, token, api, api', i0, j0, i);
    }
    FailingCottageBlock(cottages, durees, token, api, api', i0, j0);
    SpliceOut(blocks, blocks', i0, Flatten(pairs[..j0]), pairs[j0], Flatten(pairs[j0 + 1..]));
  }

  lemma ConcatRegroup<T>(l: seq<T>, a: seq<T>, x: seq<T>, b: seq<T>, r: seq<T>)
    ensures l + (a + x + b) + r == (l + a) + x + (b + r)
  {
  }

  lemma ConcatRegroupPair<T>(l: seq<T>, a: seq<T>, b: seq<T>, r: seq<T>)
    ensures l + (a + b) + r == (l + a) + (b + r)
  {
  }

  /** Two block lists that differ only at `k`, where one block is `a + x + b`
      and the other `a + b`, flatten to lists that differ by `x` alone. */
  lemma {:induction false} SpliceOut<T>(ss: seq<seq<T>>, ss': seq<seq<T>>, k: nat, a: seq<T>, x: seq<T>, b: seq<T>)
    requires |ss| == |ss'| && k < |ss|
    requires forall i :: 0 <= i < |ss| && i != k ==> ss'[i] == ss[i]
    requires ss[k] == a + x + b && ss'[k] == a + b
    ensures Flatten(ss) == (Flatten(ss[..k]) + a) + x + (b + Flatten(ss[k + 1..]))
    ensures Flatten(ss') == (Flatten(ss[..k]) + a) + (b + Flatten(ss[k + 1..]))
  {
    assert ss'[..k] == ss[..k];
    assert ss'[k + 1..] == ss[k + 1..];
    FlattenWithout(ss, k);
    FlattenWithout(ss', k);
    var left, right := Flatten(ss[..k]), Flatten(ss[k + 1..]);
    ConcatRegroup(left, a, x, b, right);
    ConcatRegroupPair(left, a, b, right);
  }

  lemma {:induction false} TotalLengthUniform<T>(ss: seq<seq<T>>, n: nat)
    requires forall k :: 0 <= k < |ss| ==> |ss[k]| == n
    ensures TotalLength(ss) == |ss| * n
  {
    if ss != [] {
      TotalLengthUniform(ss[..|ss| - 1], n);
    }
  }

  /** When every pair contributes `n` rows, there are `n` rows per cottage
      and duration in all. */
  lemma AllRowsCount(cottages: seq<Cottage>, durees: seq<int>, token: string,
                     api: (nat, nat, PricingQuery) -> PricingResponse, n: nat)
    requires forall i, j :: 0 <= i < |cottages| && 0 <= j < |durees| ==>
      |PairBlock(cottages, durees, token, api, i, j)| == n
    ensures |AllRows(cottages, durees, token, api)| == |cottages| * (|durees| * n)
  {
    var blocks := CottageBlocks(cottages, durees, token, api);
    forall i | 0 <= i < |cottages| ensures |blocks[i]| == |durees| * n {
      var pairs := PairBlocks(cottages, durees, token, api, i);
      FlattenLength(pairs);
      TotalLengthUniform(pairs, n);
    }
    FlattenLength(blocks);
    TotalLengthUniform(blocks, |durees| * n);
  }

  /** One call per cottage and duration, each with the fixed catalogue
      parameters, the cottage's code, the token and the duration. */
  lemma CallsIssued(cottages: seq<Cottage>, durees: seq<int>, token: string)
    ensures |AllQueries(cottages, durees, token)| == |cottages| * |durees|
    ensures forall q :: q in AllQueries(cottages, durees, token) ==>
      && q.univers == "cpe" && q.language == "fr" && q.market == "fr" && q.offer == "VN"
      && q.currency == "EUR" && q.displayPrice == "per_stay" && q.token == token
      && (exists c :: c in cottages && q.housing == c.housingCode)
      && q.duration in durees
  {
    var blocks := QueryBlocks(cottages, durees, token);
    FlattenLength(blocks);
    TotalLengthUniform(blocks, |durees|);
    forall q | q in AllQueries(cottages, durees, token)
      ensures exists i, j :: 0 <= i < |cottages| && 0 <= j < |durees| && q == QueryFor(cottages[i], token, durees[j])
    {
      FlattenMembership(blocks, q);
      var i :| 0 <= i < |blocks| && q in blocks[i];
      var j :| 0 <= j < |durees| && blocks[i][j] == q;
    }
    forall q | q in AllQueries(cottages, durees, token)
      ensures (exists c :: c in cottages && q.housing == c.housingCode) && q.duration in durees
    {
      var i, j :| 0 <= i < |cottages| && 0 <= j < |durees| && q == QueryFor(cottages[i], token, durees[j]);
      assert cottages[i] in cottages;
    }
  }
}
