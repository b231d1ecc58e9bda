/** `ScraperController::scraper` (ScraperController.php, lines 36-166): one
    scraping run, from the cottages page to the rewritten `sejours` table
    and the flash message shown afterwards. */
module ScraperController {
  import opened Wrappers
  import opened Seqs
  import opened PhpValues
  import opened TokenExtraction
  import opened Catalogue
  import opened Pricing
  import opened SejourStore

  /** What fetching the cottages page gives: either the exception's message,
      or the page body together with the anchors that the CSS selector
      `a.js-open-popinParticipants[data-housingcode]` picks in it, in
      document order. */
  datatype ListingPage = FetchFailed(message: string) | Page(html: string, anchors: seq<Anchor>)

  /** The flash message the redirect carries, under `success` or `error`. */
  datatype Outcome = Success(message: string) | Error(message: string)

  const TokenNotFound: string := "❌ Token introuvable."
  const NoCottageFound: string := "❌ Aucun cottage trouvé."
  const ErrorPrefix: string := "❌ Erreur : "
  const SuccessPrefix: string := "✅ "

  /** Line 95: the durations used when the request has no `durees` key. */
  const DefaultDurees: seq<int> := [2, 3, 4, 5, 6, 7, 10, 11, 14]

  /** Line 160: the report of a successful run. */
  function SuccessMessage(nb: int, nbCottages: int, nbDurees: int): string
  {
    SuccessPrefix + IntToString(nb) + " prix récupérés pour " + IntToString(nbCottages) +
    " cottages × " + IntToString(nbDurees) + " durées !"
  }

  /** Lines 95-97: the durations of the run.  `None` stands for a request
      without the key; a present list, even an empty one, is used as sent,
      each value through `intval`. */
  function Durations(input: Option<seq<RequestValue>>): seq<int>
  {
    match input
    case None => DefaultDurees
    case Some(values) => seq(|values|, k requires 0 <= k < |values| => IntVal(values[k]))
  }

  /** The effect of one run: the message, the rows written to the table
      (`None` when the table is left alone) and the pricing calls issued,
      in order. */
  datatype RunResult = RunResult(outcome: Outcome, written: Option<seq<Row>>, calls: seq<PricingQuery>)

  /** What a run does, as a function of the page, the request's `durees`
      and the pricing API's answers. */
  function Run(page: ListingPage, requestDurees: Option<seq<RequestValue>>,
               api: (nat, nat, PricingQuery) -> PricingResponse): RunResult
  {
    match page
    case FetchFailed(msg) => RunResult(Error(ErrorPrefix + msg), None, [])
    case Page(html, anchors) =>
      match ExtractToken(html)
      case None => RunResult(Error(TokenNotFound), None, [])
      case Some(token) =>
        var cottages := CatalogueOf(anchors);
        if cottages == [] then RunResult(Error(NoCottageFound), None, [])
        else
          var durees := Durations(requestDurees);
          var rows := AllRows(cottages, durees, token, api);
          RunResult(Success(SuccessMessage(|rows|, |cottages|, |durees|)), Some(rows),
                    AllQueries(cottages, durees, token))
  }

  /** The controller action: the table is rewritten only when the run gets
      as far as the save, and the message and the calls are those of `Run`. */
  method Scraper(table: SejourTable, page: ListingPage, requestDurees: Option<seq<RequestValue>>,
                 api: (nat, nat, PricingQuery) -> PricingResponse)
    returns (outcome: Outcome, calls: seq<PricingQuery>)
    modifies table
    ensures outcome == Run(page, requestDurees, api).outcome
    ensures calls == Run(page, requestDurees, api).calls
    ensures Run(page, requestDurees, api).written.None? ==> table.rows == old(table.rows)
    ensures Run(page, requestDurees, api).written.Some? ==> table.rows == Run(page, requestDurees, api).written.value
  {
    if page.FetchFailed? {
      return Error(ErrorPrefix + page.message), [];
    }
    var token := ExtractToken(page.html);
    if token.None? {
      return Error(TokenNotFound), [];
    }
    var cottages := ExtractCottages(page.anchors);
    if |cottages| == 0 {
      return Error(NoCottageFound), [];
    }
    var durees := Durations(requestDurees);
    var rows;
    rows, calls := BuildRows(cottages, durees, token.value, api);
    var batches := table.ReplaceAll(rows);
    outcome := Success(SuccessMessage(|rows|, |cottages|, |durees|));
  }

  // ---------------------------------------------------------------------
  // Properties of a run.
  // ---------------------------------------------------------------------

  /** Durations posted as integers, or as their decimal text, come back
      unchanged. */
  lemma PostedDurationsRoundTrip(ds: seq<int>, asText: bool)
    ensures Durations(Some(seq(|ds|, k requires 0 <= k < |ds| =>
      if asText then StringValue(IntToString(ds[k])) else IntValue(ds[k])))) == ds
  {
    var values := seq(|ds|, k requires 0 <= k < |ds| =>
      if asText then StringValue(IntToString(ds[k])) else IntValue(ds[k]));
    forall k | 0 <= k < |ds| ensures IntVal(values[k]) == ds[k] {
      IntCastRoundTrip(ds[k]);
    }
  }

  /** The table is written exactly when the run succeeds, and pricing calls
      are made only then. */
  lemma WritesOnlyOnSuccess(page: ListingPage, requestDurees: Option<seq<RequestValue>>,
                            api: (nat, nat, PricingQuery) -> PricingResponse)
    ensures Run(page, requestDurees, api).written.Some? <==> Run(page, requestDurees, api).outcome.Success?
    ensures Run(page, requestDurees, api).calls != [] ==> Run(page, requestDurees, api).outcome.Success?
  {
  }

  /** The error prefix tells a failed fetch apart from every other
      outcome: the message starts with it exactly when the page could not be
      fetched, and it is followed by the exception's own message; such a run
      calls nothing and writes nothing. */
  lemma FetchFailureReported(page: ListingPage, requestDurees: Option<seq<RequestValue>>,
                             api: (nat, nat, PricingQuery) -> PricingResponse)
    ensures page.FetchFailed? <==>
      var o := Run(page, requestDurees, api).outcome;
      o.Error? && |ErrorPrefix| <= |o.message| && o.message[..|ErrorPrefix|] == ErrorPrefix
    ensures page.FetchFailed? ==>
      && Run(page, requestDurees, api).outcome.message[|ErrorPrefix|..] == page.message
      && Run(page, requestDurees, api).calls == []
      && Run(page, requestDurees, api).written.None?
  {
    var o := Run(page, requestDurees, api).outcome;
    if page.Page? && o.Error? && |ErrorPrefix| <= |o.message| {
      assert o.message == TokenNotFound || o.message == NoCottageFound;
      assert o.message[2] != ErrorPrefix[2];
      assert o.message[..|ErrorPrefix|][2] != ErrorPrefix[2];
    }
  }

  /** On a fetched page, the run stops at the token exactly when the page
      yields none; nothing is called and nothing is written. */
  lemma TokenMissingStops(page: ListingPage, requestDurees: Option<seq<RequestValue>>,
                          api: (nat, nat, PricingQuery) -> PricingResponse)
    requires page.Page?
    ensures Run(page, requestDurees, api).outcome == Error(TokenNotFound) <==> ExtractToken(page.html).None?
    ensures ExtractToken(page.html).None? ==>
      Run(page, requestDurees, api).calls == [] && Run(page, requestDurees, api).written.None?
  {
  }

  /** With a token, the run stops for lack of cottages exactly when no
      anchor carries a code PHP finds truthy. */
  lemma NoCottageStops(page: ListingPage, requestDurees: Option<seq<RequestValue>>,
                       api: (nat, nat, PricingQuery) -> PricingResponse)
    requires page.Page? && ExtractToken(page.html).Some?
    ensures Run(page, requestDurees, api).outcome == Error(NoCottageFound) <==>
      forall k :: 0 <= k < |page.anchors| ==> KeyOf(page.anchors[k]).None?
  {
    var cottages := CatalogueOf(page.anchors);
    if cottages != [] {
      CatalogueKeys(page.anchors, cottages[0].housingCode);
      assert Codes(cottages)[0] == cottages[0].housingCode;
      var k :| 0 <= k < |page.anchors| && page.anchors[k].housingCode == Some(cottages[0].housingCode);
      assert KeyOf(page.anchors[k]).Some?;
    } else {
      forall k | 0 <= k < |page.anchors| ensures KeyOf(page.anchors[k]).None? {
        var a := page.anchors[k];
        if a.housingCode.Some? && Truthy(a.housingCode.value) {
          CatalogueKeys(page.anchors, a.housingCode.value);
        }
      }
    }
  }

  /** The number of prices can be read back from the success message. */
  lemma SuccessMessageCount(nb: nat, nbCottages: int, nbDurees: int)
    ensures SuccessMessage(nb, nbCottages, nbDurees)[..|SuccessPrefix|] == SuccessPrefix
    ensures IntCast(SuccessMessage(nb, nbCottages, nbDurees)[|SuccessPrefix|..]) == nb
  {
    var pieces := [" prix récupérés pour ", IntToString(nbCottages), " cottages × ", IntToString(nbDurees), " durées !"];
    MessageRegroup(SuccessPrefix, IntToString(nb), pieces[0], pieces[1], pieces[2], pieces[3], pieces[4]);
    var rest := pieces[0] + pieces[1] + pieces[2] + pieces[3] + pieces[4];
    assert rest[0] == ' ';
    IntCastReadsIntToString(nb, rest);
  }

  lemma MessageRegroup(p: string, n: string, a: string, b: string, c: string, d: string, e: string)
    ensures p + n + a + b + c + d + e == p + (n + (a + b + c + d + e))
    ensures (p + (n + (a + b + c + d + e)))[..|p|] == p
    ensures (p + (n + (a + b + c + d + e)))[|p|..] == n + (a + b + c + d + e)
  {
  }

  /** A successful run reports the number of rows written, the number of
      distinct cottages and the number of durations, and made one call per
      cottage and duration. */
  lemma SuccessReport(page: ListingPage, requestDurees: Option<seq<RequestValue>>,
                      api: (nat, nat, PricingQuery) -> PricingResponse)
    requires Run(page, requestDurees, api).outcome.Success?
    ensures page.Page? && ExtractToken(page.html).Some? && CatalogueOf(page.anchors) != []
    ensures Run(page, requestDurees, api).written.Some?
    ensures Run(page, requestDurees, api).outcome.message ==
      SuccessMessage(|Run(page, requestDurees, api).written.value|, |CatalogueOf(page.anchors)|, |Durations(requestDurees)|)
    ensures |Run(page, requestDurees, api).calls| == |CatalogueOf(page.anchors)| * |Durations(requestDurees)|
  {
    CallsIssued(CatalogueOf(page.anchors), Durations(requestDurees), ExtractToken(page.html).value);
  }

  /** An explicitly empty `durees` list is not replaced by the defaults: the
      run calls nothing, empties the table and reports zero prices. */
  lemma EmptyDurationsEmptyTable(page: ListingPage, api: (nat, nat, PricingQuery) -> PricingResponse)
    requires page.Page? && ExtractToken(page.html).Some? && CatalogueOf(page.anchors) != []
    ensures Run(page, Some([]), api).calls == []
    ensures Run(page, Some([]), api).written == Some([])
    ensures Run(page, Some([]), api).outcome == Success(SuccessMessage(0, |CatalogueOf(page.anchors)|, 0))
  {
    var cottages, token := CatalogueOf(page.anchors), ExtractToken(page.html).value;
    assert Durations(Some([])) == [];
    NoDurationsNothing(cottages, token, api);
  }

  /** Without durations there is neither a call nor a row. */
  lemma NoDurationsNothing(cottages: seq<Cottage>, token: string, api: (nat, nat, PricingQuery) -> PricingResponse)
    ensures AllQueries(cottages, [], token) == []
    ensures AllRows(cottages, [], token, api) == []
  {
    CallsIssued(cottages, [], token);
    forall i | 0 <= i < |cottages| ensures CottageBlocks(cottages, [], token, api)[i] == [] {
      assert PairBlocks(cottages, [], token, api, i) == [];
    }
    EmptyBlocksFlatten(CottageBlocks(cottages, [], token, api));
  }

  lemma {:induction false} EmptyBlocksFlatten<T>(ss: seq<seq<T>>)
    requires forall k :: 0 <= k < |ss| ==> ss[k] == []
    ensures Flatten(ss) == []
  {
    if ss != [] {
      EmptyBlocksFlatten(ss[..|ss| - 1]);
    }
  }
}
