/** The six usage buckets a subscription node owns, the per-bucket statistics
    rows, and the sums an accumulator routes merged nodes by. */
module Buckets {
  import opened JsNumbers

  datatype Bucket = SoftTurnaway | HardTurnaway | FullSubscription | Docdel | BackCatalog | Oa

  /** The property name of a bucket in a node's `usage` object. */
  function Key(b: Bucket): string
  {
    match b
    case SoftTurnaway => "softTurnaway"
    case HardTurnaway => "hardTurnaway"
    case FullSubscription => "fullSubscription"
    case Docdel => "docdel"
    case BackCatalog => "backCatalog"
    case Oa => "oa"
  }

  /** The `usageSortOrder` table; a name outside it has no rank. */
  function Rank(name: string): Option<nat>
  {
    if name == "hardTurnaway" then Some(0)
    else if name == "softTurnaway" then Some(1)
    else if name == "docdel" then Some(2)
    else if name == "fullSubscription" then Some(3)
    else if name == "backCatalog" then Some(4)
    else if name == "oa" then Some(5)
    else None
  }

  /** The buckets in the order a blank node's `usage` object lists them. */
  const EntryOrder: seq<Bucket> := [SoftTurnaway, HardTurnaway, FullSubscription, Docdel, BackCatalog, Oa]

  /** The buckets in `usageSortOrder` order. */
  const DisplayOrder: seq<Bucket> := [HardTurnaway, SoftTurnaway, Docdel, FullSubscription, BackCatalog, Oa]

  /** One journal-year (or a sum of them) as the data source delivers it:
      all downloads, and the open-access and back-catalog shares of them. */
  datatype JournalYear = JournalYear(useCount: real, oaUseCount: real, backCatalogUseCount: real)

  /** A node's `usage` object: one count per bucket. */
  datatype Usage = Usage(softTurnaway: real, hardTurnaway: real, fullSubscription: real,
                         docdel: real, backCatalog: real, oa: real)
  {
    function Get(b: Bucket): real
    {
      match b
      case SoftTurnaway => softTurnaway
      case HardTurnaway => hardTurnaway
      case FullSubscription => fullSubscription
      case Docdel => docdel
      case BackCatalog => backCatalog
      case Oa => oa
    }

    /** `usage[k] = v` */
    function With(b: Bucket, v: real): (u: Usage)
      ensures u.Get(b) == v
      ensures forall c :: c != b ==> u.Get(c) == Get(c)
    {
      match b
      case SoftTurnaway => this.(softTurnaway := v)
      case HardTurnaway => this.(hardTurnaway := v)
      case FullSubscription => this.(fullSubscription := v)
      case Docdel => this.(docdel := v)
      case BackCatalog => this.(backCatalog := v)
      case Oa => this.(oa := v)
    }

    /** Bucket-wise sum: what merging a node with usage `o` into this one produces. */
    function Plus(o: Usage): Usage
    {
      Usage(softTurnaway + o.softTurnaway, hardTurnaway + o.hardTurnaway,
            fullSubscription + o.fullSubscription, docdel + o.docdel,
            backCatalog + o.backCatalog, oa + o.oa)
    }

    /** `useCount()`: the sum of all six buckets. */
    function Total(): real
    {
      softTurnaway + hardTurnaway + fullSubscription + docdel + backCatalog + oa
    }

    /** `paidUseCount()` */
    function Paid(): real { fullSubscription + docdel }

    /** `freeUseCount()` */
    function Free(): real { oa + backCatalog }

    /** `getTurnawaysCount()` */
    function Turnaways(): real { hardTurnaway + softTurnaway }
  }

  const Zero: Usage := Usage(0.0, 0.0, 0.0, 0.0, 0.0, 0.0)

  /** The three kinds of use a node's getters count: uses someone pays for,
      uses that are free to the library, and uses turned away. */
  datatype UseKind = PaidUse | FreeUse | TurnawayUse

  /** The kind of use each bucket counts. */
  function Kind(b: Bucket): UseKind
  {
    match b
    case FullSubscription | Docdel => PaidUse
    case Oa | BackCatalog => FreeUse
    case HardTurnaway | SoftTurnaway => TurnawayUse
  }

  /** The count of one bucket if it is of kind `k`, and 0 otherwise. */
  function Share(u: Usage, b: Bucket, k: UseKind): real
  {
    if Kind(b) == k then u.Get(b) else 0.0
  }

  /** The counts of the buckets of kind `k`, added up over all six buckets. */
  function KindSum(u: Usage, k: UseKind): real
  {
    Share(u, SoftTurnaway, k) + Share(u, HardTurnaway, k) + Share(u, FullSubscription, k)
    + Share(u, Docdel, k) + Share(u, BackCatalog, k) + Share(u, Oa, k)
  }

  lemma Extensional(u: Usage, v: Usage)
    requires forall b :: u.Get(b) == v.Get(b)
    ensures u == v
  {
    assert u.softTurnaway == v.Get(SoftTurnaway);
    assert u.hardTurnaway == v.Get(HardTurnaway);
    assert u.fullSubscription == v.Get(FullSubscription);
    assert u.docdel == v.Get(Docdel);
    assert u.backCatalog == v.Get(BackCatalog);
    assert u.oa == v.Get(Oa);
  }

  lemma PlusZero(u: Usage)
    ensures u.Plus(Zero) == u && Zero.Plus(u) == u
  {
  }

  /** Adding to one of three summands adds to their sum. */
  lemma PlusIntoOne(u0: Usage, u1: Usage, u2: Usage, v: Usage)
    ensures Zero.Plus(v).Plus(u0).Plus(Zero.Plus(u1)).Plus(Zero.Plus(u2)) == v.Plus(u0.Plus(u1).Plus(u2))
    ensures Zero.Plus(u0).Plus(v.Plus(u1)).Plus(Zero.Plus(u2)) == v.Plus(u0.Plus(u1).Plus(u2))
    ensures Zero.Plus(u0).Plus(Zero.Plus(u1)).Plus(v.Plus(u2)) == v.Plus(u0.Plus(u1).Plus(u2))
    ensures u0.Plus(v).Plus(u1).Plus(u2) == u0.Plus(u1).Plus(u2).Plus(v)
    ensures u0.Plus(u1.Plus(v)).Plus(u2) == u0.Plus(u1).Plus(u2).Plus(v)
    ensures u0.Plus(u1).Plus(u2.Plus(v)) == u0.Plus(u1).Plus(u2).Plus(v)
  {
  }

  lemma PlusCommutes(x: Usage, y: Usage)
    ensures x.Plus(y) == y.Plus(x)
  {
  }

  lemma PlusAssociates(x: Usage, y: Usage, z: Usage)
    ensures x.Plus(y.Plus(z)) == x.Plus(y).Plus(z)
  {
  }

  /** The merge loop `Object.entries(from).forEach(([k, v]) => into[k] += v)`,
      run over the six buckets of a `usage` object. */
  method MergeBuckets(into: Usage, from: Usage) returns (r: Usage)
    ensures r == into.Plus(from)
    ensures r.Total() == into.Total() + from.Total()
  {
    r := into;
    for i := 0 to |EntryOrder|
      invariant forall j :: 0 <= j < i ==> r.Get(EntryOrder[j]) == into.Get(EntryOrder[j]) + from.Get(EntryOrder[j])
      invariant forall j :: i <= j < |EntryOrder| ==> r.Get(EntryOrder[j]) == into.Get(EntryOrder[j])
    {
      var k := EntryOrder[i];
      r := r.With(k, r.Get(k) + from.Get(k));
    }
    forall b ensures r.Get(b) == into.Plus(from).Get(b) {
      var j := match b
        case SoftTurnaway => 0 case HardTurnaway => 1 case FullSubscription => 2
        case Docdel => 3 case BackCatalog => 4 case Oa => 5;
      assert EntryOrder[j] == b;
    }
    Extensional(r, into.Plus(from));
  }

  // ---------------------------------------------------------------------------
  // Statistics rows

  /** One row of `usageStats()` (the colour field is cosmetic and left out).
      The percentage is `NonFinite` on a node with no uses, where the source's
      `100 * v / useCount` is `NaN`. */
  datatype StatRow = StatRow(name: string, count: real, percentage: Quotient, cost: real, costPerCount: Quotient)

  /** The row of bucket `b`, given this node's counts and the cost that the node
      attributes to each bucket (`getCostForUsageType`, laid out as a Usage). */
  function Row(u: Usage, costs: Usage, b: Bucket): StatRow
  {
    StatRow(Key(b), u.Get(b), Percent(u.Get(b), u.Total()), costs.Get(b), GuardedDiv(costs.Get(b), u.Get(b)))
  }

  /** `100 * count / total`: the share of `total` that `count` is, in percent.
      It has no finite value when `total` is 0 (`NaN`, or an infinity for a
      nonzero count). Unlike a cost per count, no `|| 0` follows it. */
  function Percent(count: real, total: real): (q: Quotient)
    ensures q.Finite? <==> total != 0.0
    ensures q.Finite? ==> q.value * total == 100.0 * count
  {
    if total != 0.0 then Finite(100.0 * count / total) else NonFinite
  }

  /** The rows of all six buckets, already sorted by `usageSortOrder`. */
  function Rows(u: Usage, costs: Usage): (r: seq<StatRow>)
    ensures |r| == 6
    ensures forall i :: 0 <= i < 6 ==>
              r[i].name == Key(DisplayOrder[i]) && r[i].count == u.Get(DisplayOrder[i]) && r[i].cost == costs.Get(DisplayOrder[i])
    ensures forall i :: 0 <= i < 6 ==>
              r[i].percentage == Percent(r[i].count, u.Total()) && r[i].costPerCount == GuardedDiv(r[i].cost, r[i].count)
    ensures forall i :: 0 <= i < |r| ==> Rank(r[i].name) == Some(i)
  {
    DisplayOrderRanked();
    seq(6, i requires 0 <= i < 6 => Row(u, costs, DisplayOrder[i]))
  }

  /** `DisplayOrder` lists each bucket at the position its `usageSortOrder` rank names. */
  lemma DisplayOrderRanked()
    ensures forall i :: 0 <= i < |DisplayOrder| ==> Rank(Key(DisplayOrder[i])) == Some(i)
  {
    forall i | 0 <= i < |DisplayOrder| ensures Rank(Key(DisplayOrder[i])) == Some(i) {
      if i == 0 {} else if i == 1 {} else if i == 2 {} else if i == 3 {} else if i == 4 {} else {}
    }
  }

  function SumCounts(rows: seq<StatRow>): real
  {
    if rows == [] then 0.0 else rows[0].count + SumCounts(rows[1..])
  }

  /** The rows' percentages added up, where every one of them is finite. */
  function SumPercentages(rows: seq<StatRow>): real
    requires forall i :: 0 <= i < |rows| ==> rows[i].percentage.Finite?
  {
    if rows == [] then 0.0 else rows[0].percentage.value + SumPercentages(rows[1..])
  }

  lemma SumOfSixCounts(rows: seq<StatRow>)
    requires |rows| == 6
    ensures SumCounts(rows) == rows[0].count + rows[1].count + rows[2].count + rows[3].count + rows[4].count + rows[5].count
  {
    assert rows[5..][1..] == [];
    assert rows[4..][1..] == rows[5..];
    assert rows[3..][1..] == rows[4..];
    assert rows[2..][1..] == rows[3..];
    assert rows[1..][1..] == rows[2..];
    assert SumCounts(rows[5..]) == rows[5].count;
    assert SumCounts(rows[4..]) == rows[4].count + SumCounts(rows[5..]);
    assert SumCounts(rows[3..]) == rows[3].count + SumCounts(rows[4..]);
    assert SumCounts(rows[2..]) == rows[2].count + SumCounts(rows[3..]);
    assert SumCounts(rows[1..]) == rows[1].count + SumCounts(rows[2..]);
  }

  lemma SumOfSixPercentages(rows: seq<StatRow>)
    requires |rows| == 6 && forall i :: 0 <= i < 6 ==> rows[i].percentage.Finite?
    ensures SumPercentages(rows) == rows[0].percentage.value + rows[1].percentage.value + rows[2].percentage.value
                                    + rows[3].percentage.value + rows[4].percentage.value + rows[5].percentage.value
  {
    assert rows[5..][1..] == [];
    assert rows[4..][1..] == rows[5..];
    assert rows[3..][1..] == rows[4..];
    assert rows[2..][1..] == rows[3..];
    assert rows[1..][1..] == rows[2..];
    assert SumPercentages(rows[5..]) == rows[5].percentage.value;
    assert SumPercentages(rows[4..]) == rows[4].percentage.value + SumPercentages(rows[5..]);
    assert SumPercentages(rows[3..]) == rows[3].percentage.value + SumPercentages(rows[4..]);
    assert SumPercentages(rows[2..]) == rows[2].percentage.value + SumPercentages(rows[3..]);
    assert SumPercentages(rows[1..]) == rows[1].percentage.value + SumPercentages(rows[2..]);
  }

  lemma DivAdd(a: real, b: real, t: real)
    requires t != 0.0
    ensures a / t + b / t == (a + b) / t
  {
  }

  lemma PercentagesAddUp(h: real, so: real, d: real, f: real, bc: real, o: real)
    requires h + so + d + f + bc + o != 0.0
    ensures var t := h + so + d + f + bc + o;
            100.0 * h / t + 100.0 * so / t + 100.0 * d / t + 100.0 * f / t + 100.0 * bc / t + 100.0 * o / t == 100.0
  {
    var t := h + so + d + f + bc + o;
    DivAdd(100.0 * h, 100.0 * so, t);
    DivAdd(100.0 * h + 100.0 * so, 100.0 * d, t);
    DivAdd(100.0 * h + 100.0 * so + 100.0 * d, 100.0 * f, t);
    DivAdd(100.0 * h + 100.0 * so + 100.0 * d + 100.0 * f, 100.0 * bc, t);
    DivAdd(100.0 * h + 100.0 * so + 100.0 * d + 100.0 * f + 100.0 * bc, 100.0 * o, t);
    assert 100.0 * h + 100.0 * so + 100.0 * d + 100.0 * f + 100.0 * bc + 100.0 * o == 100.0 * t;
  }

  /** Six rows that hold the buckets' counts in display order account for every use. */
  lemma SixCounts(r: seq<StatRow>, u: Usage)
    requires |r| == 6
    requires r[0].count == u.hardTurnaway && r[1].count == u.softTurnaway && r[2].count == u.docdel
    requires r[3].count == u.fullSubscription && r[4].count == u.backCatalog && r[5].count == u.oa
    ensures SumCounts(r) == u.Total()
  {
    SumOfSixCounts(r);
  }

  /** Six rows whose percentages are taken of the sum of their counts add up to 100. */
  lemma SixPercentages(r: seq<StatRow>, t: real)
    requires |r| == 6 && t != 0.0 && SumCounts(r) == t
    requires forall i :: 0 <= i < 6 ==> r[i].percentage == Percent(r[i].count, t)
    ensures (forall i :: 0 <= i < |r| ==> r[i].percentage.Finite?) && SumPercentages(r) == 100.0
  {
    SumOfSixCounts(r);
    SumOfSixPercentages(r);
    PercentagesAddUp(r[0].count, r[1].count, r[2].count, r[3].count, r[4].count, r[5].count);
  }

  /** The rows account for every use exactly once. On a node with uses the
      percentages are finite and add up to 100; on one without, none is finite. */
  lemma RowsPartition(u: Usage, costs: Usage)
    ensures SumCounts(Rows(u, costs)) == u.Total()
    ensures u.Total() != 0.0 ==>
              (forall i :: 0 <= i < 6 ==> Rows(u, costs)[i].percentage.Finite?) && SumPercentages(Rows(u, costs)) == 100.0
    ensures u.Total() == 0.0 ==> forall i :: 0 <= i < 6 ==> Rows(u, costs)[i].percentage == NonFinite
  {
    var r := Rows(u, costs);
    SixCounts(r, u);
    if u.Total() != 0.0 {
      SixPercentages(r, u.Total());
    }
  }

  /** A node that puts its whole cost on the bucket it is named after has that
      cost on the row of that bucket and nothing on the others. */
  lemma RowsOwnCost(u: Usage, costs: Usage, name: Option<string>, cost: real)
    requires forall b :: costs.Get(b) == (if name == Some(Key(b)) then cost else 0.0)
    ensures forall i :: 0 <= i < 6 && name == Some(Rows(u, costs)[i].name) ==> Rows(u, costs)[i].cost == cost
    ensures forall i :: 0 <= i < 6 && Rows(u, costs)[i].cost != 0.0 ==>
              name == Some(Rows(u, costs)[i].name) && Rows(u, costs)[i].cost == cost
  {
  }

  // ---------------------------------------------------------------------------
  // Node values and the sums a package routes them by

  /** The value of a leaf node at one moment: its name (None for JavaScript's
      `null`), its bucket counts, its cost and its year. */
  datatype NodeState = NodeState(name: Option<string>, usage: Usage, cost: real, year: Option<int>)

  /** The bucket counts of all nodes in `ns` that are named `n`, added up. */
  function RoutedUsage(ns: seq<NodeState>, n: string): Usage
  {
    if ns == [] then Zero
    else (if ns[0].name == Some(n) then ns[0].usage else Zero).Plus(RoutedUsage(ns[1..], n))
  }

  /** The costs of all nodes in `ns` that are named `n`, added up. */
  function RoutedCost(ns: seq<NodeState>, n: string): real
  {
    if ns == [] then 0.0
    else (if ns[0].name == Some(n) then ns[0].cost else 0.0) + RoutedCost(ns[1..], n)
  }

  /** The bucket counts of all nodes in `ns`, added up. */
  function TotalUsage(ns: seq<NodeState>): Usage
  {
    if ns == [] then Zero else ns[0].usage.Plus(TotalUsage(ns[1..]))
  }

  /** The costs of all nodes in `ns`, added up. */
  function TotalCost(ns: seq<NodeState>): real
  {
    if ns == [] then 0.0 else ns[0].cost + TotalCost(ns[1..])
  }

  /** Merging two batches one after the other is merging their concatenation. */
  lemma {:induction false} RoutedAppend(a: seq<NodeState>, b: seq<NodeState>, n: string)
    ensures RoutedUsage(a + b, n) == RoutedUsage(a, n).Plus(RoutedUsage(b, n))
    ensures RoutedCost(a + b, n) == RoutedCost(a, n) + RoutedCost(b, n)
  {
    if a == [] {
      assert a + b == b;
      PlusZero(RoutedUsage(b, n));
    } else {
      var h := if a[0].name == Some(n) then a[0].usage else Zero;
      var c := if a[0].name == Some(n) then a[0].cost else 0.0;
      assert (a + b)[0] == a[0];
      assert (a + b)[1..] == a[1..] + b;
      RoutedAppend(a[1..], b, n);
      calc {
        RoutedUsage(a + b, n);
        h.Plus(RoutedUsage(a[1..] + b, n));
        h.Plus(RoutedUsage(a[1..], n).Plus(RoutedUsage(b, n)));
        { PlusAssociates(h, RoutedUsage(a[1..], n), RoutedUsage(b, n)); }
        h.Plus(RoutedUsage(a[1..], n)).Plus(RoutedUsage(b, n));
        RoutedUsage(a, n).Plus(RoutedUsage(b, n));
      }
      assert RoutedCost(a + b, n) == c + RoutedCost(a[1..] + b, n);
    }
  }

  /** Taking the first node of `a` out of `a`, and the same node out of `b`,
      leaves two rearrangements of each other. */
  lemma RemoveMatched(a: seq<NodeState>, b: seq<NodeState>, k: nat)
    requires multiset(a) == multiset(b) && a != [] && k < |b| && b[k] == a[0]
    ensures multiset(a[1..]) == multiset(b[..k] + b[k + 1..])
  {
    var rest := b[..k] + b[k + 1..];
    assert b == b[..k] + [b[k]] + b[k + 1..];
    assert a == [a[0]] + a[1..];
    assert multiset(b) == multiset(b[..k]) + multiset{b[k]} + multiset(b[k + 1..]);
    assert multiset(rest) == multiset(b[..k]) + multiset(b[k + 1..]);
    assert multiset(a[1..]) == multiset(a) - multiset{a[0]};
    assert multiset(rest) == multiset(b) - multiset{a[0]};
  }

  /** Repeated merges are order-independent: any rearrangement of the merged
      nodes gives the same per-name totals. */
  lemma {:induction false} RoutedPermutation(a: seq<NodeState>, b: seq<NodeState>, n: string)
    requires multiset(a) == multiset(b)
    ensures RoutedUsage(a, n) == RoutedUsage(b, n)
    ensures RoutedCost(a, n) == RoutedCost(b, n)
    decreases |a|
  {
    if a == [] {
      assert |b| == |multiset(b)| == 0;
    } else {
      assert a[0] in multiset(b);
      var k :| 0 <= k < |b| && b[k] == a[0];
      var rest := b[..k] + b[k + 1..];
      RemoveMatched(a, b, k);
      RoutedPermutation(a[1..], rest, n);
      assert b == b[..k] + ([b[k]] + b[k + 1..]);
      assert a == [a[0]] + a[1..];
      var x, y, z := RoutedUsage(b[..k], n), RoutedUsage([a[0]], n), RoutedUsage(b[k + 1..], n);
      calc {
        RoutedUsage(b, n);
        { RoutedAppend(b[..k], [b[k]] + b[k + 1..], n); }
        x.Plus(RoutedUsage([a[0]] + b[k + 1..], n));
        { RoutedAppend([a[0]], b[k + 1..], n); }
        x.Plus(y.Plus(z));
        { PlusAssociates(x, y, z); PlusCommutes(x, y); PlusAssociates(y, x, z); }
        y.Plus(x.Plus(z));
        { RoutedAppend(b[..k], b[k + 1..], n); }
        y.Plus(RoutedUsage(a[1..], n));
        { RoutedAppend([a[0]], a[1..], n); }
        RoutedUsage(a, n);
      }
      var cx, cy, cz := RoutedCost(b[..k], n), RoutedCost([a[0]], n), RoutedCost(b[k + 1..], n);
      calc {
        RoutedCost(b, n);
        { RoutedAppend(b[..k], [b[k]] + b[k + 1..], n); RoutedAppend([a[0]], b[k + 1..], n); }
        cx + (cy + cz);
        { RoutedAppend(b[..k], b[k + 1..], n); }
        cy + RoutedCost(a[1..], n);
        { RoutedAppend([a[0]], a[1..], n); }
        RoutedCost(a, n);
      }
    }
  }

  /** Routing loses nothing: when every node is named `f`, `d` or `e` (three
      distinct names), the three routed totals add up to the overall total. */
  lemma {:induction false} RoutingCoversAll(ns: seq<NodeState>, f: string, d: string, e: string)
    requires f != d && d != e && f != e
    requires forall i :: 0 <= i < |ns| ==> ns[i].name in {Some(f), Some(d), Some(e)}
    ensures RoutedUsage(ns, f).Plus(RoutedUsage(ns, d)).Plus(RoutedUsage(ns, e)) == TotalUsage(ns)
    ensures RoutedCost(ns, f) + RoutedCost(ns, d) + RoutedCost(ns, e) == TotalCost(ns)
  {
    if ns == [] {
      PlusZero(Zero);
    } else {
      RoutingCoversAll(ns[1..], f, d, e);
      var rf, rd, re := RoutedUsage(ns[1..], f), RoutedUsage(ns[1..], d), RoutedUsage(ns[1..], e);
      var h := ns[0].usage;
      if ns[0].name == Some(f) {
        PlusIntoOne(rf, rd, re, h);
      } else if ns[0].name == Some(d) {
        PlusIntoOne(rf, rd, re, h);
      } else {
        PlusIntoOne(rf, rd, re, h);
      }
    }
  }
}
