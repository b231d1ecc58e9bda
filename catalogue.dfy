/** The cottage catalogue (ScraperController.php, lines 73-91): every
    selected anchor `a.js-open-popinParticipants[data-housingcode]` is read
    into an entry keyed by its housing code; a code seen before, or one that
    PHP finds falsy, is skipped.  The anchors arrive already selected, with
    each attribute present (`Some`) or absent (`None`), as `attr()` gives it. */
module Catalogue {
  import opened Wrappers
  import opened PhpValues

  datatype Anchor = Anchor(
    housingCode: Option<string>,   // data-housingcode
    housing: Option<string>,       // data-housing
    comfort: Option<string>,       // data-comfort
    maxCapacity: Option<string>)   // data-maxcapacity

  datatype Cottage = Cottage(housingCode: string, housingType: string, comfortLevel: string, nbPersonnes: int)

  /** Stands in for a missing type or comfort attribute. */
  const Unknown: string := "Inconnu"

  /** Lines 79-84: the entry built for an anchor carrying `code`.  `??`
      replaces an absent attribute only; `(int)` reads the capacity. */
  function Describe(code: string, a: Anchor): Cottage
  {
    Cottage(code, a.housing.GetOr(Unknown), a.comfort.GetOr(Unknown),
            match a.maxCapacity case None => 0 case Some(v) => IntCast(v))
  }

  /** The code under which an anchor is registered, if PHP finds it truthy. */
  function KeyOf(a: Anchor): Option<string>
  {
    if a.housingCode.Some? && Truthy(a.housingCode.value) then a.housingCode else None
  }

  /** The keys of the catalogue, in insertion order. */
  function Codes(cs: seq<Cottage>): seq<string>
  {
    seq(|cs|, i requires 0 <= i < |cs| => cs[i].housingCode)
  }

  /** The catalogue after the closure has run over every anchor of `nodes`. */
  function CatalogueOf(nodes: seq<Anchor>): seq<Cottage>
  {
    if nodes == [] then []
    else
      var cs := CatalogueOf(nodes[..|nodes| - 1]);
      var key := KeyOf(nodes[|nodes| - 1]);
      if key.Some? && key.value !in Codes(cs) then cs + [Describe(key.value, nodes[|nodes| - 1])] else cs
  }

  /** Lines 74-86: the catalogue is filled in place, one anchor at a time. */
  method ExtractCottages(nodes: seq<Anchor>) returns (cottages: seq<Cottage>)
    ensures cottages == CatalogueOf(nodes)
  {
    cottages := [];
    for i := 0 to |nodes|
      invariant cottages == CatalogueOf(nodes[..i])
    {
      assert nodes[..i + 1][..i] == nodes[..i];
      var code := nodes[i].housingCode;
      if code.Some? && Truthy(code.value) && code.value !in Codes(cottages) {
        cottages := cottages + [Describe(code.value, nodes[i])];
      }
    }
    assert nodes[..|nodes|] == nodes;
  }

  /** Position of the first anchor carrying `code`, or `|nodes|` if none does. */
  function FirstIndexOf(nodes: seq<Anchor>, code: string): (k: nat)
    ensures k <= |nodes|
    ensures k < |nodes| ==> nodes[k].housingCode == Some(code)
    ensures forall j :: 0 <= j < k ==> nodes[j].housingCode != Some(code)
  {
    if nodes == [] then 0
    else if nodes[0].housingCode == Some(code) then 0
    else 1 + FirstIndexOf(nodes[1..], code)
  }

  lemma FirstIndexOfPrefix(nodes: seq<Anchor>, code: string)
    requires nodes != []
    ensures var init := nodes[..|nodes| - 1];
      FirstIndexOf(init, code) < |init| ==> FirstIndexOf(nodes, code) == FirstIndexOf(init, code)
    ensures var init := nodes[..|nodes| - 1];
      FirstIndexOf(init, code) == |init| ==> FirstIndexOf(nodes, code) >= |init|
  {
  }

  /** A code is a key of the catalogue exactly when PHP finds it truthy and
      some anchor carries it. */
  lemma {:induction false} CatalogueKeys(nodes: seq<Anchor>, code: string)
    ensures code in Codes(CatalogueOf(nodes)) <==>
      Truthy(code) && exists k :: 0 <= k < |nodes| && nodes[k].housingCode == Some(code)
  {
    if nodes != [] {
      var init := nodes[..|nodes| - 1];
      CatalogueKeys(init, code);
      if exists k :: 0 <= k < |nodes| && nodes[k].housingCode == Some(code) {
        var k :| 0 <= k < |nodes| && nodes[k].housingCode == Some(code);
        if k < |init| { assert init[k] == nodes[k]; }
      }
      if exists k :: 0 <= k < |init| && init[k].housingCode == Some(code) {
        var k :| 0 <= k < |init| && init[k].housingCode == Some(code);
        assert nodes[k] == init[k];
      }
      var cs := CatalogueOf(init);
      var key := KeyOf(nodes[|nodes| - 1]);
      if key.Some? && key.value !in Codes(cs) {
        assert Codes(cs + [Describe(key.value, nodes[|nodes| - 1])]) == Codes(cs) + [key.value];
      }
    }
  }

  /** Each entry of `r` has a truthy code and is built from the first anchor
      of `nodes` carrying that code. */
  ghost predicate FromFirstAnchors(nodes: seq<Anchor>, r: seq<Cottage>)
  {
    forall p :: 0 <= p < |r| ==>
      Truthy(r[p].housingCode) && FirstIndexOf(nodes, r[p].housingCode) < |nodes| &&
      r[p] == Describe(r[p].housingCode, nodes[FirstIndexOf(nodes, r[p].housingCode)])
  }

  /** The entries of `r` are ordered by where their codes first occur. */
  ghost predicate InFirstSeenOrder(nodes: seq<Anchor>, r: seq<Cottage>)
  {
    forall p, q :: 0 <= p < q < |r| ==>
      FirstIndexOf(nodes, r[p].housingCode) < FirstIndexOf(nodes, r[q].housingCode)
  }

  /** Every entry is the one built from the FIRST anchor carrying its code,
      that code is truthy, and entries appear in the order in which their
      codes are first seen. */
  lemma {:induction false} CatalogueFirstSeen(nodes: seq<Anchor>)
    ensures FromFirstAnchors(nodes, CatalogueOf(nodes))
    ensures InFirstSeenOrder(nodes, CatalogueOf(nodes))
  {
    if nodes != [] {
      var init := nodes[..|nodes| - 1];
      CatalogueFirstSeen(init);
      var cs := CatalogueOf(init);
      forall p | 0 <= p < |cs|
        ensures FirstIndexOf(nodes, cs[p].housingCode) == FirstIndexOf(init, cs[p].housingCode)
      {
        assert FirstIndexOf(init, cs[p].housingCode) < |init|;
        FirstIndexOfPrefix(nodes, cs[p].housingCode);
      }
      var a := nodes[|nodes| - 1];
      var key := KeyOf(a);
      if key.Some? && key.value !in Codes(cs) {
        CatalogueKeys(init, key.value);
        FirstIndexOfPrefix(nodes, key.value);
        assert FirstIndexOf(init, key.value) == |init|;
        assert FirstIndexOf(nodes, key.value) == |init|;
        var r := cs + [Describe(key.value, a)];
        forall p | 0 <= p < |cs| ensures FirstIndexOf(nodes, r[p].housingCode) < FirstIndexOf(nodes, key.value) {
          assert r[p] == cs[p];
          assert FirstIndexOf(init, cs[p].housingCode) < |init|;
        }
      }
    }
  }

  /** At most one entry per housing code. */
  lemma CatalogueUniqueKeys(nodes: seq<Anchor>)
    ensures forall p, q :: 0 <= p < q < |CatalogueOf(nodes)| ==>
      CatalogueOf(nodes)[p].housingCode != CatalogueOf(nodes)[q].housingCode
  {
    CatalogueFirstSeen(nodes);
  }

  /** `??` supplies "Inconnu" only for an absent attribute: a present one,
      even empty, is copied; an absent capacity is 0 and a present one is
      read by `(int)`, so a rendered integer reads back as itself. */
  lemma DescribeDefaults(code: string, a: Anchor, n: int)
    ensures Describe(code, a).housingType == Unknown <==> a.housing in {None, Some(Unknown)}
    ensures Describe(code, a).comfortLevel == Unknown <==> a.comfort in {None, Some(Unknown)}
    ensures a.maxCapacity.None? ==> Describe(code, a).nbPersonnes == 0
    ensures a.maxCapacity == Some(IntToString(n)) ==> Describe(code, a).nbPersonnes == n
  {
    IntCastRoundTrip(n);
  }
}
