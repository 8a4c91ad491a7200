/** The subscription node hierarchy: the allocation rules of the full,
    document-delivery and free nodes, the nodes themselves, and the package
    that accumulates many nodes into three per-policy children. */
module Subscriptions {
  import opened JsNumbers
  import opened Buckets

  const FullName: string := "fullSubscription"
  const DocdelName: string := "docdel"
  const FreeName: string := "free"
  const AccumulatorName: string := "accumulator"

  /** The names of a package's children, in the order `makeBlankSubscriptions` lists them. */
  const ChildNames: seq<string> := [FullName, DocdelName, FreeName]

  // ---------------------------------------------------------------------------
  // Allocation rules, on values

  /** `cost || 0`, where `None` stands for an undefined or NaN cost. */
  function FlatCost(cost: Option<real>): real
  {
    if cost.Some? then cost.value else 0.0
  }

  /** The buckets `FullSubscription.set` assigns: every non-free use is served by the subscription. */
  function FullUsage(s: JournalYear): (u: Usage)
    ensures u.Total() == s.useCount
    ensures u.softTurnaway == 0.0 && u.hardTurnaway == 0.0 && u.docdel == 0.0
    ensures u.Turnaways() == 0.0
    ensures u.Paid() == s.useCount - (s.oaUseCount + s.backCatalogUseCount)
    ensures u.oa == s.oaUseCount && u.backCatalog == s.backCatalogUseCount
  {
    Usage(0.0, 0.0, s.useCount - (s.oaUseCount + s.backCatalogUseCount), 0.0, s.backCatalogUseCount, s.oaUseCount)
  }

  /** The buckets `DocdelSubscription.set` derives from a full node: the share
      `hardTurnawayProp` of the full node's subscription uses is bought by
      document delivery, the rest (rounded) are soft turnaways. */
  function DocdelUsage(full: Usage, c: Constants): (u: Usage)
    ensures u.hardTurnaway == 0.0 && u.fullSubscription == 0.0
    ensures u.docdel == full.fullSubscription * c.hardTurnawayProp
    ensures -0.5 < u.softTurnaway + u.docdel - full.fullSubscription <= 0.5
    ensures u.oa == full.oa && u.backCatalog == full.backCatalog
  {
    var turnaway := full.fullSubscription;
    var hardTurnawayCount := turnaway * c.hardTurnawayProp;
    Usage(JsRound(turnaway - hardTurnawayCount) as real, 0.0, 0.0, turnaway * c.hardTurnawayProp,
          full.backCatalog, full.oa)
  }

  /** `DocdelSubscription.set`'s cost: every delivered document is paid for. */
  function DocdelCost(full: Usage, c: Constants): (r: real)
    ensures r == c.docDelCostPerUse * DocdelUsage(full, c).docdel
  {
    c.docDelCostPerUse * (full.fullSubscription * c.hardTurnawayProp)
  }

  /** The buckets `FreeSubscription.set` derives from a full node: every
      subscription use becomes a turnaway, the share `hardTurnawayProp` of them hard. */
  function FreeUsage(full: Usage, c: Constants): (u: Usage)
    ensures u.Turnaways() == full.fullSubscription
    ensures u.hardTurnaway == full.fullSubscription * c.hardTurnawayProp
    ensures u.fullSubscription == 0.0 && u.docdel == 0.0
    ensures u.Paid() == 0.0
    ensures u.oa == full.oa && u.backCatalog == full.backCatalog
  {
    var turnaway := full.fullSubscription;
    var hardTurnawayCount := turnaway * c.hardTurnawayProp;
    Usage(turnaway - hardTurnawayCount, hardTurnawayCount, 0.0, 0.0, full.backCatalog, full.oa)
  }

  /** The three nodes `makeSubscriptions` builds from one usage record, as values. */
  function SubscriptionStates(s: JournalYear, cost: Option<real>, year: Option<int>, c: Constants): (r: seq<NodeState>)
    ensures |r| == 3
    ensures forall k :: 0 <= k < 3 ==> r[k].name == Some(ChildNames[k]) && r[k].year == year
    ensures forall k :: 0 <= k < 3 ==> r[k].usage.oa == s.oaUseCount && r[k].usage.backCatalog == s.backCatalogUseCount
    ensures r[0].usage.Total() == s.useCount && r[2].usage.Total() == s.useCount
    ensures -0.5 < r[1].usage.Total() - s.useCount <= 0.5
    ensures r[0].cost == FlatCost(cost) && r[1].cost == c.docDelCostPerUse * r[1].usage.docdel && r[2].cost == 0.0
    ensures r[1].usage.hardTurnaway == 0.0 && r[1].usage.docdel == r[2].usage.hardTurnaway
    ensures r[2].usage.hardTurnaway == c.hardTurnawayProp * r[0].usage.Paid()
  {
    var full := FullUsage(s);
    [NodeState(Some(FullName), full, FlatCost(cost), year),
     NodeState(Some(DocdelName), DocdelUsage(full, c), DocdelCost(full, c), year),
     NodeState(Some(FreeName), FreeUsage(full, c), 0.0, year)]
  }

  // ---------------------------------------------------------------------------
  // Nodes

  /** A `BaseSubscription` and its three subclasses; the subclass is told by
      `name` (`None` is the base class's `null`), which no method changes. */
  class Subscription {
    var usage: Usage
    var cost: real
    const name: Option<string>
    var year: Option<int>

    function State(): NodeState
      reads this
    {
      NodeState(name, usage, cost, year)
    }

    /** `new BaseSubscription()` */
    constructor ()
      ensures State() == NodeState(None, Zero, 0.0, None)
    {
      usage, cost, name, year := Zero, 0.0, None, None;
    }

    /** `new FullSubscription()` */
    constructor Full()
      ensures State() == NodeState(Some(FullName), Zero, 0.0, None)
    {
      usage, cost, name, year := Zero, 0.0, Some(FullName), None;
    }

    /** `new DocdelSubscription()`, without a full node to derive from */
    constructor Docdel()
      ensures State() == NodeState(Some(DocdelName), Zero, 0.0, None)
    {
      usage, cost, name, year := Zero, 0.0, Some(DocdelName), None;
    }

    /** `new FreeSubscription()`, without a full node to derive from */
    constructor Free()
      ensures State() == NodeState(Some(FreeName), Zero, 0.0, None)
    {
      usage, cost, name, year := Zero, 0.0, Some(FreeName), None;
    }

    // The count getters delegate to the arithmetic on the node's `usage`
    // value (`Usage.Total`, `Usage.Paid`, `Usage.Free`, `Usage.Turnaways`),
    // which the value-level allocation rules use as well.

    /** `useCount()`: every use is exactly one of paid, free or turned away. */
    function UseCount(): (r: real)
      reads this
      ensures r == usage.Paid() + usage.Free() + usage.Turnaways()
    {
      usage.Total()
    }

    /** `paidUseCount()`: the uses of the paid kind. */
    function PaidUseCount(): (r: real)
      reads this
      ensures r == KindSum(usage, PaidUse)
    {
      usage.Paid()
    }

    /** `freeUseCount()`: the uses of the free kind. */
    function FreeUseCount(): (r: real)
      reads this
      ensures r == KindSum(usage, FreeUse)
    {
      usage.Free()
    }

    /** `getTurnawaysCount()`: the uses of the turnaway kind. */
    function TurnawaysCount(): (r: real)
      reads this
      ensures r == KindSum(usage, TurnawayUse)
    {
      usage.Turnaways()
    }

    function FulfilledUsesCount(): (r: real)
      reads this
      ensures r + TurnawaysCount() == UseCount()
      ensures r == PaidUseCount() + FreeUseCount()
    {
      UseCount() - TurnawaysCount()
    }

    /** `costPerPaidUse()`: the document-delivery node overrides it with the constant price. */
    function CostPerPaidUse(c: Constants): (r: Quotient)
      reads this
      ensures name == Some(DocdelName) ==> r == Finite(c.docDelCostPerUse)
      ensures name != Some(DocdelName) ==> (r.Finite? <==> (PaidUseCount() != 0.0 || cost == 0.0))
      ensures name != Some(DocdelName) && PaidUseCount() != 0.0 ==> r.value * PaidUseCount() == cost
      ensures name != Some(DocdelName) && PaidUseCount() == 0.0 && cost == 0.0 ==> r == Finite(0.0)
    {
      if name == Some(DocdelName) then Finite(c.docDelCostPerUse) else GuardedDiv(cost, PaidUseCount())
    }

    /** `getCostForUsageType(useType)` */
    function GetCostForUsageType(useType: string): (r: real)
      reads this
      ensures r != 0.0 ==> name == Some(useType)
      ensures name == Some(useType) ==> r == cost
    {
      if name == Some(useType) then cost else 0.0
    }

    /** The cost this node attributes to each bucket. */
    function CostVector(): Usage
      reads this
    {
      Usage(GetCostForUsageType(Key(Bucket.SoftTurnaway)), GetCostForUsageType(Key(Bucket.HardTurnaway)),
            GetCostForUsageType(Key(Bucket.FullSubscription)), GetCostForUsageType(Key(Bucket.Docdel)),
            GetCostForUsageType(Key(Bucket.BackCatalog)), GetCostForUsageType(Key(Bucket.Oa)))
    }

    /** `usageStats()`: one row per bucket in display order; the rows share out
        every use, and only the bucket this node is named after carries its cost. */
    function UsageStats(): (r: seq<StatRow>)
      reads this
      ensures |r| == 6
      ensures forall i :: 0 <= i < 6 ==> Rank(r[i].name) == Some(i) && r[i].count == usage.Get(DisplayOrder[i])
      ensures forall i :: 0 <= i < 6 ==>
                r[i].percentage == Percent(r[i].count, usage.Total()) && r[i].costPerCount == GuardedDiv(r[i].cost, r[i].count)
      ensures SumCounts(r) == UseCount()
      ensures UseCount() != 0.0 ==> (forall i :: 0 <= i < 6 ==> r[i].percentage.Finite?) && SumPercentages(r) == 100.0
      ensures UseCount() == 0.0 ==> forall i :: 0 <= i < 6 ==> r[i].percentage == NonFinite
      ensures forall i :: 0 <= i < 6 && name == Some(r[i].name) ==> r[i].cost == cost
      ensures forall i :: 0 <= i < 6 && r[i].cost != 0.0 ==> name == Some(r[i].name) && r[i].cost == cost
    {
      var costs := CostVector();
      forall b: Bucket
        ensures costs.Get(b) == (if name == Some(Key(b)) then cost else 0.0)
      {
      }
      RowsPartition(usage, costs);
      RowsOwnCost(usage, costs, name, cost);
      Rows(usage, costs)
    }

    /** `addSubscriptionObj(other)`: bucket-wise and cost-wise addition; the name never changes. */
    method AddSubscriptionObj(other: Subscription)
      modifies this
      ensures usage == old(usage).Plus(old(other.usage))
      ensures cost == old(cost) + old(other.cost)
      ensures UseCount() == old(UseCount()) + old(other.UseCount())
      ensures year == old(year)
    {
      usage := MergeBuckets(usage, other.usage);
      cost := cost + other.cost;
    }

    /** `FullSubscription.set(apiUsageStats, cost)` */
    method SetFull(stats: JournalYear, price: Option<real>)
      requires name == Some(FullName)
      modifies this
      ensures usage == FullUsage(stats) && cost == FlatCost(price) && year == old(year)
    {
      usage := FullUsage(stats);
      cost := FlatCost(price);
    }

    /** `DocdelSubscription.set(myFullSubscription)` */
    method SetDocdel(full: Subscription, c: Constants)
      requires name == Some(DocdelName)
      modifies this
      ensures usage == DocdelUsage(old(full.usage), c) && cost == DocdelCost(old(full.usage), c)
      ensures year == old(full.year)
    {
      var fullUsage, fullYear := full.usage, full.year;
      usage := DocdelUsage(fullUsage, c);
      cost := DocdelCost(fullUsage, c);
      year := fullYear;
    }

    /** `FreeSubscription.set(myFullSubscription)` */
    method SetFree(full: Subscription, c: Constants)
      requires name == Some(FreeName)
      modifies this
      ensures usage == FreeUsage(old(full.usage), c) && cost == 0.0
      ensures year == old(full.year)
    {
      var fullUsage, fullYear := full.usage, full.year;
      usage := FreeUsage(fullUsage, c);
      cost := 0.0;
      year := fullYear;
    }
  }

  function StatesOf(subs: seq<Subscription>): (r: seq<NodeState>)
    reads subs
    ensures |r| == |subs| && forall i :: 0 <= i < |subs| ==> r[i] == subs[i].State()
  {
    if subs == [] then [] else [subs[0].State()] + StatesOf(subs[1..])
  }

  /** `makeBlankSubscriptions(year)` */
  method MakeBlankSubscriptions(year: Option<int>) returns (r: seq<Subscription>)
    ensures |r| == 3 && fresh(r[0]) && fresh(r[1]) && fresh(r[2])
    ensures forall k :: 0 <= k < 3 ==> r[k].State() == NodeState(Some(ChildNames[k]), Zero, 0.0, year)
  {
    var full := new Subscription.Full();
    var docdel := new Subscription.Docdel();
    var free := new Subscription.Free();
    r := [full, docdel, free];
    for i := 0 to 3
      invariant forall k :: 0 <= k < i ==> r[k].State() == NodeState(Some(ChildNames[k]), Zero, 0.0, year)
      invariant forall k :: i <= k < 3 ==> r[k].State() == NodeState(Some(ChildNames[k]), Zero, 0.0, None)
    {
      r[i].year := year;
    }
  }

  /** `makeSubscriptions(apiUsageStats, cost, year)`: a full node and the
      document-delivery and free nodes derived from it. */
  method MakeSubscriptions(stats: JournalYear, price: Option<real>, year: Option<int>, c: Constants)
    returns (r: seq<Subscription>)
    ensures |r| == 3 && fresh(r[0]) && fresh(r[1]) && fresh(r[2])
    ensures StatesOf(r) == SubscriptionStates(stats, price, year, c)
  {
    var full := NewFull(stats, price, year);
    var docdel := NewDocdel(full, c);
    var free := NewFree(full, c);
    r := [full, docdel, free];
  }

  /** The full node, set from the usage record and carrying `year`. */
  method NewFull(stats: JournalYear, price: Option<real>, year: Option<int>) returns (full: Subscription)
    ensures fresh(full) && full.State() == NodeState(Some(FullName), FullUsage(stats), FlatCost(price), year)
  {
    full := new Subscription.Full();
    full.SetFull(stats, price);
    full.year := year;
  }

  /** A document-delivery node set from `full`. */
  method NewDocdel(full: Subscription, c: Constants) returns (docdel: Subscription)
    ensures fresh(docdel)
    ensures docdel.State() == NodeState(Some(DocdelName), DocdelUsage(full.usage, c), DocdelCost(full.usage, c), full.year)
  {
    docdel := new Subscription.Docdel();
    docdel.SetDocdel(full, c);
  }

  /** A free node set from `full`. */
  method NewFree(full: Subscription, c: Constants) returns (free: Subscription)
    ensures fresh(free) && free.State() == NodeState(Some(FreeName), FreeUsage(full.usage, c), 0.0, full.year)
  {
    free := new Subscription.Free();
    free.SetFree(full, c);
  }

  // ---------------------------------------------------------------------------
  // The package

  /** What a package merges: a leaf node, or another package (a node whose
      name is `"accumulator"`). */
  datatype Node = Leaf(sub: Subscription) | Acc(pkg: Package)

  /** The leaf nodes whose state a merged node contributes. */
  function NodeObjects(x: Node): set<Subscription>
  {
    match x
    case Leaf(s) => {s}
    case Acc(p) => {p.full, p.docdel, p.free}
  }

  function NodesFrame(xs: seq<Node>): set<Subscription>
  {
    if xs == [] then {} else NodeObjects(xs[0]) + NodesFrame(xs[1..])
  }

  /** The leaf values a merged node stands for: a package is flattened into its children. */
  function Leaves(x: Node): seq<NodeState>
    reads NodeObjects(x)
  {
    match x
    case Leaf(s) => [s.State()]
    case Acc(p) => [p.full.State(), p.docdel.State(), p.free.State()]
  }

  /** The leaf values of each node in `xs`. */
  function PartsOf(xs: seq<Node>): (r: seq<seq<NodeState>>)
    reads NodesFrame(xs)
    ensures |r| == |xs| && forall j :: 0 <= j < |xs| ==> r[j] == Leaves(xs[j])
  {
    if xs == [] then [] else [Leaves(xs[0])] + PartsOf(xs[1..])
  }

  function Concat(ps: seq<seq<NodeState>>): seq<NodeState>
  {
    if ps == [] then [] else ps[0] + Concat(ps[1..])
  }

  /** All leaf values the nodes `xs` stand for, in order. */
  function Flatten(xs: seq<Node>): seq<NodeState>
    reads NodesFrame(xs)
  {
    Concat(PartsOf(xs))
  }

  /** A merge that does not fail: a package, or a leaf whose name one of the children carries. */
  predicate Routable(x: Node)
  {
    match x
    case Leaf(s) => s.name in {Some(FullName), Some(DocdelName), Some(FreeName)}
    case Acc(p) => p.Shaped()
  }

  /** A node whose buckets grew by `u` and whose cost grew by `c`, all else equal. */
  predicate Gained(after: NodeState, before: NodeState, u: Usage, c: real)
  {
    after.name == before.name && after.year == before.year &&
    after.usage == before.usage.Plus(u) && after.cost == before.cost + c
  }

  /** The child named `n` received what `leaves` routes to it. */
  predicate Received(after: NodeState, before: NodeState, leaves: seq<NodeState>, n: string)
  {
    Gained(after, before, RoutedUsage(leaves, n), RoutedCost(leaves, n))
  }

  /** `SubscriptionPackage`: its own totals and three children, one per policy. */
  class Package {
    var usage: Usage
    var cost: real
    var year: Option<int>
    const name: string
    const full: Subscription
    const docdel: Subscription
    const free: Subscription

    /** `this.subscriptions`, in the order `makeBlankSubscriptions` lists them. */
    function Subscriptions(): seq<Subscription>
    {
      [full, docdel, free]
    }

    /** The children are the three nodes `makeBlankSubscriptions` makes. */
    predicate Shaped()
    {
      full.name == Some(FullName) && docdel.name == Some(DocdelName) && free.name == Some(FreeName)
    }

    /** The package invariant: its own buckets and cost are the sums of its children's. */
    ghost predicate Valid()
      reads this, full, docdel, free
    {
      Shaped() && name == AccumulatorName &&
      usage == full.usage.Plus(docdel.usage).Plus(free.usage) &&
      cost == full.cost + docdel.cost + free.cost
    }

    /** A node this package can merge without aliasing its own children. */
    predicate Separate(x: Node)
    {
      match x
      case Leaf(s) => s !in Subscriptions()
      case Acc(p) => p.Shaped() && p.full !in Subscriptions() && p.docdel !in Subscriptions() && p.free !in Subscriptions()
    }

    /** `new SubscriptionPackage(subsToAdd, year)` */
    constructor (subsToAdd: seq<Node>, year: Option<int>)
      requires forall i :: 0 <= i < |subsToAdd| ==> Routable(subsToAdd[i])
      ensures Valid() && this.year == year
      ensures fresh(full) && fresh(docdel) && fresh(free)
      ensures full.State() == NodeState(Some(FullName), RoutedUsage(Flatten(subsToAdd), FullName),
                                        RoutedCost(Flatten(subsToAdd), FullName), year)
      ensures docdel.State() == NodeState(Some(DocdelName), RoutedUsage(Flatten(subsToAdd), DocdelName),
                                          RoutedCost(Flatten(subsToAdd), DocdelName), year)
      ensures free.State() == NodeState(Some(FreeName), RoutedUsage(Flatten(subsToAdd), FreeName),
                                        RoutedCost(Flatten(subsToAdd), FreeName), year)
      ensures usage == TotalUsage(Flatten(subsToAdd)) && cost == TotalCost(Flatten(subsToAdd))
    {
      usage, cost, name := Zero, 0.0, AccumulatorName;
      this.year := year;
      var blanks := MakeBlankSubscriptions(year);
      full, docdel, free := blanks[0], blanks[1], blanks[2];
      new;
      forall j | 0 <= j < |subsToAdd|
        ensures Separate(subsToAdd[j])
      {
        match subsToAdd[j]
        case Leaf(s) => {
          assert old(allocated(s));
        }
        case Acc(q) => {
          assert old(allocated(q.full)) && old(allocated(q.docdel)) && old(allocated(q.free));
        }
      }
      PlusZero(Zero);
      ghost var f0, d0, e0 := full.State(), docdel.State(), free.State();
      AddEach(subsToAdd);
      PlusZero(RoutedUsage(Flatten(subsToAdd), FullName));
      PlusZero(RoutedUsage(Flatten(subsToAdd), DocdelName));
      PlusZero(RoutedUsage(Flatten(subsToAdd), FreeName));
      FlattenRoutable(subsToAdd);
      RoutingCoversAll(Flatten(subsToAdd), FullName, DocdelName, FreeName);
    }

    /** The constructor's `subsToAdd.forEach(sub => this.addSubscriptionObj(sub))`. */
    method AddEach(subsToAdd: seq<Node>)
      requires Valid()
      requires forall j :: 0 <= j < |subsToAdd| ==> Routable(subsToAdd[j]) && Separate(subsToAdd[j])
      modifies this, full, docdel, free
      ensures Valid() && year == old(year)
      ensures Received(full.State(), old(full.State()), old(Flatten(subsToAdd)), FullName) &&
              Received(docdel.State(), old(docdel.State()), old(Flatten(subsToAdd)), DocdelName) &&
              Received(free.State(), old(free.State()), old(Flatten(subsToAdd)), FreeName)
      ensures Flatten(subsToAdd) == old(Flatten(subsToAdd))
    {
      ghost var parts := PartsOf(subsToAdd);
      ghost var f0, d0, e0 := full.State(), docdel.State(), free.State();
      PlusZero(f0.usage);
      PlusZero(d0.usage);
      PlusZero(e0.usage);
      for i := 0 to |subsToAdd|
        invariant Valid() && year == old(year)
        invariant forall j :: 0 <= j < |subsToAdd| ==> Leaves(subsToAdd[j]) == parts[j]
        invariant Received(full.State(), f0, Concat(parts[..i]), FullName)
        invariant Received(docdel.State(), d0, Concat(parts[..i]), DocdelName)
        invariant Received(free.State(), e0, Concat(parts[..i]), FreeName)
      {
        ghost var f1, d1, e1 := full.State(), docdel.State(), free.State();
        label before:
        var ok := AddSubscriptionObj(subsToAdd[i]);
        forall j | 0 <= j < |subsToAdd|
          ensures Leaves(subsToAdd[j]) == parts[j]
        {
          match subsToAdd[j]
          case Leaf(s) => {
            assert unchanged@before(s);
          }
          case Acc(q) => {
            assert unchanged@before(q.full, q.docdel, q.free);
          }
        }
        ConcatStep(parts, i);
        GainedAgain(f0, f1, full.State(), Concat(parts[..i]), parts[i], FullName);
        GainedAgain(d0, d1, docdel.State(), Concat(parts[..i]), parts[i], DocdelName);
        GainedAgain(e0, e1, free.State(), Concat(parts[..i]), parts[i], FreeName);
      }
      assert parts[..|subsToAdd|] == parts == PartsOf(subsToAdd);
    }

    /** `subscriptions.find(x => x.name === n)` as an index. */
    function Find(n: Option<string>): (r: Option<nat>)
      ensures r.Some? ==> r.value < 3 && Subscriptions()[r.value].name == n
      ensures r.Some? ==> forall k :: 0 <= k < r.value ==> Subscriptions()[k].name != n
      ensures r.None? <==> full.name != n && docdel.name != n && free.name != n
    {
      var subs := Subscriptions();
      assert subs[0] == full && subs[1] == docdel && subs[2] == free;
      FindFrom(subs, n, 0)
    }

    /** `getSubscription(name)`: the child with that name, if there is one. */
    function GetSubscription(n: string): (r: Option<Subscription>)
      requires Shaped()
      ensures r.Some? <==> n in ChildNames
      ensures r.Some? ==> r.value.name == Some(n) && r.value in Subscriptions()
    {
      match Find(Some(n))
      case Some(k) => Some(Subscriptions()[k])
      case None => None
    }

    /** `getCostForUsageType(usageType)`: only the full-subscription and
        document-delivery children's costs are reported. */
    function GetCostForUsageType(usageType: string): (r: real)
      reads full, docdel
      requires Shaped()
      ensures usageType == FullName ==> r == full.cost
      ensures usageType == DocdelName ==> r == docdel.cost
      ensures usageType != FullName && usageType != DocdelName ==> r == 0.0
    {
      if usageType == FullName || usageType == DocdelName then
        var child := GetSubscription(usageType);
        assert child.Some?;
        child.value.cost
      else 0.0
    }

    /** The inherited `usageStats()`, with the package's own `getCostForUsageType`,
        which puts the children's costs on `fullSubscription` and `docdel` and
        nothing elsewhere (`UsageStatsCosts`). */
    function UsageStats(): (r: seq<StatRow>)
      reads this, full, docdel
      requires Shaped()
      ensures |r| == 6
      ensures forall i :: 0 <= i < 6 ==> Rank(r[i].name) == Some(i) && r[i].count == usage.Get(DisplayOrder[i])
      ensures forall i :: 0 <= i < 6 ==>
                r[i].percentage == Percent(r[i].count, usage.Total()) && r[i].costPerCount == GuardedDiv(r[i].cost, r[i].count)
      ensures SumCounts(r) == usage.Total()
      ensures usage.Total() != 0.0 ==> (forall i :: 0 <= i < 6 ==> r[i].percentage.Finite?) && SumPercentages(r) == 100.0
      ensures usage.Total() == 0.0 ==> forall i :: 0 <= i < 6 ==> r[i].percentage == NonFinite
      ensures r[2].cost == docdel.cost && r[3].cost == full.cost
      ensures forall i :: 0 <= i < 6 && i != 2 && i != 3 ==> r[i].cost == 0.0
    {
      var costs := Usage(0.0, 0.0, full.cost, docdel.cost, 0.0, 0.0);
      RowsPartition(usage, costs);
      Rows(usage, costs)
    }

    /** Each row of the package's statistics carries the cost that the package's
        `getCostForUsageType` reports for the row's bucket. */
    lemma UsageStatsCosts()
      requires Shaped()
      ensures forall i :: 0 <= i < 6 ==> UsageStats()[i].cost == GetCostForUsageType(UsageStats()[i].name)
    {
      var r := UsageStats();
      forall i | 0 <= i < 6
        ensures r[i].cost == GetCostForUsageType(r[i].name)
      {
        assert r[i].name == Key(DisplayOrder[i]);
      }
    }

    /** `addSubscriptionObj(newSub)`: a package is flattened into its children;
        a leaf is merged into the child of the same name and into the
        package's own totals, or, when no child has its name, the call fails
        (a TypeError in the source) before anything changes. */
    method AddSubscriptionObj(x: Node) returns (ok: bool)
      requires Valid() && Separate(x)
      modifies this, full, docdel, free
      ensures Valid() && year == old(year)
      ensures ok <==> Routable(x)
      ensures ok ==> Received(full.State(), old(full.State()), old(Leaves(x)), FullName) &&
                     Received(docdel.State(), old(docdel.State()), old(Leaves(x)), DocdelName) &&
                     Received(free.State(), old(free.State()), old(Leaves(x)), FreeName)
      ensures !ok ==> usage == old(usage) && cost == old(cost) && unchanged(full, docdel, free)
    {
      match x
      case Acc(p) => {
        AddAccumulator(p);
        ok := true;
      }
      case Leaf(s) => {
        ok := AddLeaf(s);
      }
    }

    /** The leaf case of `addSubscriptionObj`. */
    method AddLeaf(s: Subscription) returns (ok: bool)
      requires Valid() && Separate(Leaf(s))
      modifies this, full, docdel, free
      ensures Valid() && year == old(year)
      ensures ok <==> Routable(Leaf(s))
      ensures Received(full.State(), old(full.State()), [old(s.State())], FullName) &&
              Received(docdel.State(), old(docdel.State()), [old(s.State())], DocdelName) &&
              Received(free.State(), old(free.State()), [old(s.State())], FreeName)
      ensures !ok ==> usage == old(usage) && cost == old(cost) && unchanged(full, docdel, free)
    {
      ghost var e := s.State();
      RoutedSingle(e, FullName);
      RoutedSingle(e, DocdelName);
      RoutedSingle(e, FreeName);
      PlusZero(full.usage);
      PlusZero(docdel.usage);
      PlusZero(free.usage);
      var found := Find(s.name);
      if found.None? {
        return false;
      }
      var child := Subscriptions()[found.value];
      child.AddSubscriptionObj(s);
      usage := MergeBuckets(usage, s.usage);
      cost := cost + s.cost;
      ok := true;
      PlusIntoOne(old(full.usage), old(docdel.usage), old(free.usage), e.usage);
    }

    /** `addAccumulator(accumulator)`: merges the other package's children one
        at a time, each as a leaf. */
    method AddAccumulator(p: Package)
      requires Valid() && Separate(Acc(p))
      modifies this, full, docdel, free
      ensures Valid() && year == old(year)
      ensures Received(full.State(), old(full.State()), old(Leaves(Acc(p))), FullName) &&
              Received(docdel.State(), old(docdel.State()), old(Leaves(Acc(p))), DocdelName) &&
              Received(free.State(), old(free.State()), old(Leaves(Acc(p))), FreeName)
    {
      var subs := p.Subscriptions();
      ghost var adds := Leaves(Acc(p));
      ghost var f0, d0, e0 := full.State(), docdel.State(), free.State();
      PlusZero(f0.usage);
      PlusZero(d0.usage);
      PlusZero(e0.usage);
      for i := 0 to |subs|
        invariant Valid() && year == old(year)
        invariant Leaves(Acc(p)) == adds
        invariant Received(full.State(), f0, adds[..i], FullName)
        invariant Received(docdel.State(), d0, adds[..i], DocdelName)
        invariant Received(free.State(), e0, adds[..i], FreeName)
      {
        ghost var f1, d1, e1 := full.State(), docdel.State(), free.State();
        var ok := AddLeaf(subs[i]);
        assert adds[..i + 1] == adds[..i] + [adds[i]];
        GainedAgain(f0, f1, full.State(), adds[..i], [adds[i]], FullName);
        GainedAgain(d0, d1, docdel.State(), adds[..i], [adds[i]], DocdelName);
        GainedAgain(e0, e1, free.State(), adds[..i], [adds[i]], FreeName);
      }
      assert adds[..|subs|] == adds;
    }
  }

  /** Receiving two batches one after the other is receiving their concatenation. */
  lemma GainedAgain(a: NodeState, b: NodeState, c: NodeState, done: seq<NodeState>, more: seq<NodeState>, n: string)
    requires Received(b, a, done, n) && Received(c, b, more, n)
    ensures Received(c, a, done + more, n)
  {
    RoutedAppend(done, more, n);
    PlusAssociates(a.usage, RoutedUsage(done, n), RoutedUsage(more, n));
  }

  function FindFrom(subs: seq<Subscription>, n: Option<string>, from: nat): (r: Option<nat>)
    requires from <= |subs|
    ensures r.Some? ==> from <= r.value < |subs| && subs[r.value].name == n
    ensures r.Some? ==> forall k :: from <= k < r.value ==> subs[k].name != n
    ensures r.None? ==> forall k :: from <= k < |subs| ==> subs[k].name != n
    decreases |subs| - from
  {
    if from == |subs| then None
    else if subs[from].name == n then Some(from)
    else FindFrom(subs, n, from + 1)
  }

  /** A single merged node is routed to the child of its own name only. */
  lemma RoutedSingle(e: NodeState, n: string)
    ensures RoutedUsage([e], n) == if e.name == Some(n) then e.usage else Zero
    ensures RoutedCost([e], n) == if e.name == Some(n) then e.cost else 0.0
  {
    assert [e][1..] == [];
    PlusZero(e.usage);
    PlusZero(Zero);
  }

  /** Flattening another package delivers each of its children to the child of the same name. */
  lemma RoutedToNamedChild(ns: seq<NodeState>, k: nat)
    requires |ns| == 3 && k < 3
    requires forall j :: 0 <= j < 3 ==> ns[j].name == Some(ChildNames[j])
    ensures RoutedUsage(ns, ChildNames[k]) == ns[k].usage
    ensures RoutedCost(ns, ChildNames[k]) == ns[k].cost
  {
    var n := ChildNames[k];
    assert ns == [ns[0]] + ([ns[1]] + [ns[2]]);
    RoutedAppend([ns[0]], [ns[1]] + [ns[2]], n);
    RoutedAppend([ns[1]], [ns[2]], n);
    RoutedSingle(ns[0], n);
    RoutedSingle(ns[1], n);
    RoutedSingle(ns[2], n);
    PlusZero(ns[k].usage);
    PlusZero(Zero);
  }

  /** Every leaf value of a batch of routable nodes carries one of the three child names. */
  lemma FlattenRoutable(xs: seq<Node>)
    requires forall j :: 0 <= j < |xs| ==> Routable(xs[j])
    ensures forall k :: 0 <= k < |Flatten(xs)| ==> Flatten(xs)[k].name in {Some(FullName), Some(DocdelName), Some(FreeName)}
  {
    var ps: seq<seq<NodeState>> := PartsOf(xs);
    forall j, k | 0 <= j < |ps| && 0 <= k < |ps[j]|
      ensures ps[j][k].name in {Some(FullName), Some(DocdelName), Some(FreeName)}
    {
      match xs[j]
      case Leaf(s) =>
      case Acc(p) =>
    }
    ConcatNamed(ps, {Some(FullName), Some(DocdelName), Some(FreeName)});
  }

  lemma {:induction false} ConcatNamed(ps: seq<seq<NodeState>>, names: set<Option<string>>)
    requires forall j, k :: 0 <= j < |ps| && 0 <= k < |ps[j]| ==> ps[j][k].name in names
    ensures forall k :: 0 <= k < |Concat(ps)| ==> Concat(ps)[k].name in names
  {
    if ps != [] {
      ConcatNamed(ps[1..], names);
      assert forall k :: 0 <= k < |Concat(ps[1..])| ==> Concat(ps[1..])[k].name in names;
      assert Concat(ps) == ps[0] + Concat(ps[1..]);
    }
  }

  lemma ConcatStep(ps: seq<seq<NodeState>>, i: nat)
    requires i < |ps|
    ensures Concat(ps[..i + 1]) == Concat(ps[..i]) + ps[i]
  {
    if i == 0 {
      assert ps[..1] == [ps[0]];
      assert ps[..1][1..] == [];
    } else {
      assert ps[..i + 1][1..] == ps[1..][..i];
      assert ps[..i][1..] == ps[1..][..i - 1];
      ConcatStep(ps[1..], i - 1);
    }
  }
}
