/** Worked examples: one journal-year of 1000 uses, 100 of them open access
    and 100 back catalog, allocated under each policy and then folded into a
    package. */
module Scenarios {
  import opened JsNumbers
  import opened Buckets
  import opened Subscriptions

  const Year: JournalYear := JournalYear(1000.0, 100.0, 100.0)

  /** The full node of the year: the 800 non-free uses served by the subscription. */
  const FullOfYear: Usage := Usage(0.0, 0.0, 800.0, 0.0, 100.0, 100.0)

  /** The full subscription serves the 800 non-free uses for 5000, 6.25 per paid use. */
  lemma FullScenario()
    ensures FullUsage(Year) == FullOfYear
    ensures FlatCost(Some(5000.0)) == 5000.0
  {
  }

  lemma FullScenarioPerUse()
    ensures GuardedDiv(5000.0, FullOfYear.Paid()) == Finite(6.25)
  {
    assert FullOfYear.Paid() == 800.0;
  }

  /** Under the free policy 80 of the 800 non-free uses are hard turnaways and 720 soft ones. */
  lemma FreeScenario()
    ensures FreeUsage(FullOfYear, EngineDefaults) == Usage(720.0, 80.0, 0.0, 0.0, 100.0, 100.0)
  {
  }

  /** Document delivery buys 80 documents for 2000; 720 uses remain soft turnaways and none is hard. */
  lemma DocdelScenario()
    ensures DocdelUsage(FullOfYear, EngineDefaults) == Usage(720.0, 0.0, 0.0, 80.0, 100.0, 100.0)
    ensures DocdelCost(FullOfYear, EngineDefaults) == 2000.0
  {
    RoundWhole(720);
    assert 800.0 - 800.0 * 0.1 == 720.0;
  }

  lemma RoundWhole(n: int)
    ensures JsRound(n as real) == n
  {
  }

  /** `makeSubscriptions(year, 5000)`'s full node. */
  method FullNode() returns (full: Subscription)
    ensures fresh(full) && full.State() == NodeState(Some(FullName), FullOfYear, 5000.0, None)
  {
    full := new Subscription.Full();
    full.SetFull(Year, Some(5000.0));
    FullScenario();
  }

  /** The document-delivery and free nodes `makeSubscriptions` derives from the full node. */
  method DerivedNodes(full: Subscription) returns (docdel: Subscription, free: Subscription)
    requires full.State() == NodeState(Some(FullName), FullOfYear, 5000.0, None)
    ensures fresh(docdel) && fresh(free)
    ensures docdel.State() == DocdelOfYear && free.State() == FreeOfYear
  {
    docdel := new Subscription.Docdel();
    docdel.SetDocdel(full, EngineDefaults);
    free := new Subscription.Free();
    free.SetFree(full, EngineDefaults);
    DocdelScenario();
    FreeScenario();
  }

  const DocdelOfYear: NodeState := NodeState(Some(DocdelName), Usage(720.0, 0.0, 0.0, 80.0, 100.0, 100.0), 2000.0, None)
  const FreeOfYear: NodeState := NodeState(Some(FreeName), Usage(720.0, 80.0, 0.0, 0.0, 100.0, 100.0), 0.0, None)

  /** The totals a package holds after folding the free and document-delivery nodes of the year. */
  lemma FoldedTotals()
    ensures TotalUsage([FreeOfYear, DocdelOfYear]).Total() == 2000.0
    ensures RoutedCost([FreeOfYear, DocdelOfYear], DocdelName) == 2000.0
    ensures RoutedCost([FreeOfYear, DocdelOfYear], FullName) == 0.0
  {
    TwoNodes(FreeOfYear, DocdelOfYear, DocdelName);
    TwoNodes(FreeOfYear, DocdelOfYear, FullName);
  }

  lemma TwoNodes(a: NodeState, b: NodeState, n: string)
    ensures TotalUsage([a, b]).Total() == a.usage.Total() + b.usage.Total()
    ensures RoutedCost([a, b], n) == (if a.name == Some(n) then a.cost else 0.0) + (if b.name == Some(n) then b.cost else 0.0)
  {
    var ns := [a, b];
    assert ns[1..] == [b] && [b][1..] == [];
    assert TotalUsage([b]) == b.usage.Plus(Zero);
    assert TotalUsage(ns) == a.usage.Plus(b.usage.Plus(Zero));
    assert RoutedCost([b], n) == (if b.name == Some(n) then b.cost else 0.0) + 0.0;
  }

  /** Two leaves flatten to their two values. */
  lemma FlattenTwo(a: Subscription, b: Subscription)
    ensures Flatten([Leaf(a), Leaf(b)]) == [a.State(), b.State()]
  {
    var ps := PartsOf([Leaf(a), Leaf(b)]);
    assert ps == [[a.State()], [b.State()]];
    assert ps[1..] == [[b.State()]] && ps[1..][1..] == [];
    assert Concat(ps[1..]) == [b.State()] + Concat([]);
  }

  /** Folding the free and the document-delivery nodes of the year into one
      package: 2000 uses, the delivery cost reported for `docdel`, nothing for
      the full subscription. */
  method FoldScenario() returns (useCount: real, docdelCost: real, fullCost: real)
    ensures useCount == 2000.0 && docdelCost == 2000.0 && fullCost == 0.0
  {
    var full := FullNode();
    var docdel, free := DerivedNodes(full);
    var xs := [Leaf(free), Leaf(docdel)];
    var p := new Package(xs, None);
    FlattenTwo(free, docdel);
    FoldedTotals();
    useCount := p.usage.Total();
    docdelCost := p.GetCostForUsageType(DocdelName);
    fullCost := p.GetCostForUsageType(FullName);
  }
}
