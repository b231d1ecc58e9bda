/** One run on concrete inputs: a page with a token and three anchors,
    two of which share a code, and two durations answered with one date
    each. */
module ScraperScenario {
  import opened Wrappers
  import opened Seqs
  import opened Scan
  import opened PhpValues
  import opened TokenExtraction
  import opened Catalogue
  import opened Pricing
  import opened ScraperController

  /** Every call answers one readable date, priced 300 with no discount. */
  function OneDate(i: nat, j: nat, q: PricingQuery): PricingResponse
  {
    Answered(Some([("2026-05-01", DateEntry(Some(Cache(Some(Price(Some(Amount(Some(300))), Some(0), None))))))]))
  }

  /** A page body whose primary pattern captures "ab". */
  const Html: string := "\"token\":\"ab\""

  /** The token is the primary capture. */
  lemma ScenarioToken()
    ensures ExtractToken(Html) == Some("ab")
  {
    assert Html[0..7] == PrimaryKey && Html[7..7] == "" && Html[8..8] == "" && Html[9..11] == "ab";
    assert PrimaryMatchWith(Html, 0, "", "", "ab");
    assert LeftmostPrimary(Html, 0, "ab");
    TokenFromPrimary(Html, 0, "ab");
  }

  /** Three anchors: the third repeats the first one's code. */
  const Anchors: seq<Anchor> := [Anchor(Some("VN1"), Some("Cottage"), Some("VIP"), Some("6")),
                                 Anchor(Some("VN2"), None, None, None),
                                 Anchor(Some("VN1"), None, None, None)]

  /** The repeated code is dropped, absent attributes default to "Inconnu"
      and an absent capacity to 0. */
  lemma ScenarioCatalogue()
    ensures CatalogueOf(Anchors) == [Cottage("VN1", "Cottage", "VIP", 6), Cottage("VN2", "Inconnu", "Inconnu", 0)]
  {
    IntCastRoundTrip(6);
    assert IntToString(6) == "6";
    var first := Cottage("VN1", "Cottage", "VIP", 6);
    var second := Cottage("VN2", "Inconnu", "Inconnu", 0);
    assert Describe("VN1", Anchors[0]) == first;
    assert Describe("VN2", Anchors[1]) == second;
    var n1, n2 := Anchors[..1], Anchors[..2];
    assert n1[..0] == [];
    assert CatalogueOf(n1) == [first];
    assert n2[..1] == n1;
    assert Codes([first]) == ["VN1"];
    assert CatalogueOf(n2) == [first, second];
    assert Anchors[..2] == n2;
    assert Codes([first, second]) == ["VN1", "VN2"];
  }

  /** Two durations answered with one date each give two rows per cottage. */
  lemma ScenarioRows(cottages: seq<Cottage>)
    ensures |AllRows(cottages, [3, 7], "ab", OneDate)| == |cottages| * 2
  {
    forall i, j | 0 <= i < |cottages| && 0 <= j < 2 ensures |PairBlock(cottages, [3, 7], "ab", OneDate, i, j)| == 1 {
      var dates := OneDate(i, j, QueryFor(cottages[i], "ab", [3, 7][j])).dates.value;
      assert ReadablePrefix(dates[1..]) == 0;
    }
    AllRowsCount(cottages, [3, 7], "ab", OneDate, 1);
  }

  /** An integer and a numeric string are both read as durations. */
  lemma ScenarioDurations()
    ensures Durations(Some([IntValue(3), StringValue("7")])) == [3, 7]
  {
    IntCastRoundTrip(7);
    assert IntToString(7) == "7";
  }

  /** Four prices, for two distinct cottages and two durations. */
  lemma Scenario()
    ensures Run(Page(Html, Anchors), Some([IntValue(3), StringValue("7")]), OneDate).outcome ==
      Success("✅ 4 prix récupérés pour 2 cottages × 2 durées !")
  {
    var cottages := [Cottage("VN1", "Cottage", "VIP", 6), Cottage("VN2", "Inconnu", "Inconnu", 0)];
    ScenarioToken();
    ScenarioCatalogue();
    ScenarioDurations();
    ScenarioRows(cottages);
    ScenarioMessage();
  }

  lemma ScenarioMessage()
    ensures SuccessMessage(4, 2, 2) == "✅ 4 prix récupérés pour 2 cottages × 2 durées !"
  {
    assert IntToString(4) == "4" && IntToString(2) == "2";
    assert SuccessPrefix + "4" == "✅ 4";
    assert "✅ 4" + " prix récupérés pour " == "✅ 4 prix récupérés pour ";
    assert "✅ 4 prix récupérés pour " + "2" == "✅ 4 prix récupérés pour 2";
    assert "✅ 4 prix récupérés pour 2" + " cottages × " == "✅ 4 prix récupérés pour 2 cottages × ";
    assert "✅ 4 prix récupérés pour 2 cottages × " + "2" == "✅ 4 prix récupérés pour 2 cottages × 2";
  }
}
