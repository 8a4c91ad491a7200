/** The snapshot engine: the six "mods" one journal-year is split into under
    a policy, and the getters a snapshot derives from its uses. */
module BaseSnap {
  import opened JsNumbers
  import Buckets
  import Subscriptions

  /** One use record `{name, price, count, isFulfillment, isPaid}`; its display
      colour is not modelled. */
  datatype Mod = Mod(name: string, price: real, count: real, isFulfillment: bool, isPaid: bool)

  /** A uses object `{key: mod, ...}` as its entries, in insertion order. */
  datatype Entry = Entry(key: string, mod: Mod)

  type Uses = seq<Entry>

  /** An object never holds a key twice. */
  predicate UniqueKeys(uses: Uses)
  {
    forall i, j :: 0 <= i < j < |uses| ==> uses[i].key != uses[j].key
  }

  /** The keys `makeMods` fills, in the order its `makers` table lists them. */
  const ModKeys: seq<string> := ["oa", "backCatalog", "fullSubscription", "docdel", "hardTurnaway", "softTurnaway"]

  const FullName: string := Subscriptions.FullName
  const DocdelName: string := Subscriptions.DocdelName
  const FreeName: string := Subscriptions.FreeName

  /** `blankMod()`. Its `name` is read from an unbound global, and every maker
      overwrites it; the model uses the empty string. */
  function BlankMod(): Mod
  {
    Mod("", 0.0, 0.0, true, false)
  }

  // ---------------------------------------------------------------------------
  // makeMods

  function FreeCount(jy: Buckets.JournalYear): real
  {
    jy.oaUseCount + jy.backCatalogUseCount
  }

  function UnFreeCount(jy: Buckets.JournalYear): real
  {
    jy.useCount - FreeCount(jy)
  }

  function HardTurnawayCount(jy: Buckets.JournalYear, c: Constants): real
  {
    UnFreeCount(jy) * c.hardTurnawayProp
  }

  function SoftTurnawayCount(jy: Buckets.JournalYear, c: Constants): real
  {
    UnFreeCount(jy) - HardTurnawayCount(jy, c)
  }

  /** The `makers.oa` entry. */
  function OaMod(jy: Buckets.JournalYear): Mod
  {
    BlankMod().(name := "oa", count := jy.oaUseCount)
  }

  /** The `makers.backCatalog` entry. */
  function BackCatalogMod(jy: Buckets.JournalYear): Mod
  {
    BlankMod().(name := "backCatalog", count := jy.backCatalogUseCount)
  }

  /** The `makers.fullSubscription` entry: priced and counted only under its own policy. */
  function FullMod(jy: Buckets.JournalYear, subscriptionName: string, subscriptionPrice: real): Mod
  {
    var ret := BlankMod().(name := "fullSubscription", isPaid := true);
    if subscriptionName == FullName then ret.(price := subscriptionPrice, count := UnFreeCount(jy)) else ret
  }

  /** The `makers.docdel` entry: priced and counted only under its own policy. */
  function DocdelMod(jy: Buckets.JournalYear, subscriptionName: string, c: Constants): Mod
  {
    var ret := BlankMod().(name := "docdel", isPaid := true);
    if subscriptionName == DocdelName then
      ret.(price := HardTurnawayCount(jy, c) * c.docDelCostPerUse, count := HardTurnawayCount(jy, c))
    else ret
  }

  /** The `makers.hardTurnaway` entry: only the free policy leaves hard turnaways. */
  function HardTurnawayMod(jy: Buckets.JournalYear, subscriptionName: string, c: Constants): Mod
  {
    var ret := BlankMod().(name := "hardTurnaway", isFulfillment := false);
    if subscriptionName == FreeName then ret.(count := HardTurnawayCount(jy, c)) else ret
  }

  /** The `makers.softTurnaway` entry: the full subscription leaves no soft turnaways. */
  function SoftTurnawayMod(jy: Buckets.JournalYear, subscriptionName: string, c: Constants): Mod
  {
    var ret := BlankMod().(name := "softTurnaway", isFulfillment := false);
    if subscriptionName != FullName then ret.(count := SoftTurnawayCount(jy, c)) else ret
  }

  /** `makeMods(journalYear, subscriptionName, subscriptionPrice)`: the six
      mods, each stored under its own name. */
  function MakeMods(jy: Buckets.JournalYear, subscriptionName: string, subscriptionPrice: real, c: Constants): (r: Uses)
    ensures |r| == 6
    ensures |r| == |ModKeys|
    ensures forall i :: 0 <= i < |r| ==> r[i].key == ModKeys[i] == r[i].mod.name
  {
    [Entry("oa", OaMod(jy)),
     Entry("backCatalog", BackCatalogMod(jy)),
     Entry("fullSubscription", FullMod(jy, subscriptionName, subscriptionPrice)),
     Entry("docdel", DocdelMod(jy, subscriptionName, c)),
     Entry("hardTurnaway", HardTurnawayMod(jy, subscriptionName, c)),
     Entry("softTurnaway", SoftTurnawayMod(jy, subscriptionName, c))]
  }

  /** `makeBlankMods()`: the mods of an empty journal-year under the free
      policy, one per key: every mod counts nothing and costs nothing, only
      the subscription and delivery mods are paid, and only the two turnaways
      are not fulfillments. */
  function MakeBlankMods(c: Constants): (r: Uses)
    ensures |r| == 6
    ensures forall e :: e in r ==> e.mod.count == 0.0 && e.mod.price == 0.0
    ensures forall e :: e in r ==> (e.mod.isPaid <==> e.key == "fullSubscription" || e.key == "docdel")
    ensures forall e :: e in r ==> (!e.mod.isFulfillment <==> e.key == "hardTurnaway" || e.key == "softTurnaway")
  {
    var jy := Buckets.JournalYear(0.0, 0.0, 0.0);
    assert HardTurnawayCount(jy, c) == 0.0 && SoftTurnawayCount(jy, c) == 0.0;
    MakeMods(jy, FreeName, 0.0, c)
  }

  // ---------------------------------------------------------------------------
  // The getters

  /** `.map(x => x.count).reduce((a, b) => a + b, 0)` */
  function CountSum(uses: Uses): real
  {
    if uses == [] then 0.0 else uses[0].mod.count + CountSum(uses[1..])
  }

  /** The filters the getters apply: `x => x.isFulfillment`, `x => x.price > 0`
      and `v => v.count > 0.1`. */
  datatype Filter = IsFulfillment | HasPrice | Equipped

  predicate Keeps(f: Filter, e: Entry)
  {
    match f
    case IsFulfillment => e.mod.isFulfillment
    case HasPrice => e.mod.price > 0.0
    case Equipped => e.mod.count > 0.1
  }

  /** `.filter(f)` */
  function Filtered(uses: Uses, f: Filter): Uses
  {
    if uses == [] then []
    else (if Keeps(f, uses[0]) then [uses[0]] else []) + Filtered(uses[1..], f)
  }

  /** `.map(x => x.price)` added up, the sum `getTotalCost` evidently means. */
  function PriceSum(uses: Uses): real
  {
    if uses == [] then 0.0 else uses[0].mod.price + PriceSum(uses[1..])
  }

  /** The counts of the entries `f` keeps, added up in place. */
  function KeptCount(uses: Uses, f: Filter): real
  {
    if uses == [] then 0.0 else (if Keeps(f, uses[0]) then uses[0].mod.count else 0.0) + KeptCount(uses[1..], f)
  }

  /** The plain sums over six entries, one term per entry. */
  lemma SixSums(u: Uses)
    requires |u| == 6
    ensures CountSum(u) == u[0].mod.count + u[1].mod.count + u[2].mod.count + u[3].mod.count + u[4].mod.count + u[5].mod.count
    ensures PriceSum(u) == u[0].mod.price + u[1].mod.price + u[2].mod.price + u[3].mod.price + u[4].mod.price + u[5].mod.price
  {
    assert u[5..][1..] == [];
    assert u[4..][1..] == u[5..];
    assert u[3..][1..] == u[4..];
    assert u[2..][1..] == u[3..];
    assert u[1..][1..] == u[2..];
    assert CountSum(u[5..]) == u[5].mod.count;
    assert CountSum(u[4..]) == u[4].mod.count + CountSum(u[5..]);
    assert CountSum(u[3..]) == u[3].mod.count + CountSum(u[4..]);
    assert CountSum(u[2..]) == u[2].mod.count + CountSum(u[3..]);
    assert CountSum(u[1..]) == u[1].mod.count + CountSum(u[2..]);
    assert PriceSum(u[5..]) == u[5].mod.price;
    assert PriceSum(u[4..]) == u[4].mod.price + PriceSum(u[5..]);
    assert PriceSum(u[3..]) == u[3].mod.price + PriceSum(u[4..]);
    assert PriceSum(u[2..]) == u[2].mod.price + PriceSum(u[3..]);
    assert PriceSum(u[1..]) == u[1].mod.price + PriceSum(u[2..]);
  }

  /** Summing the filtered list is summing the kept counts. */
  lemma {:induction false} FilteredCount(u: Uses, f: Filter)
    ensures CountSum(Filtered(u, f)) == KeptCount(u, f)
  {
    if u != [] {
      SumAppend(if Keeps(f, u[0]) then [u[0]] else [], Filtered(u[1..], f));
      FilteredCount(u[1..], f);
    }
  }

  /** The kept counts over six entries, one term per entry. */
  lemma SixKept(u: Uses, f: Filter)
    requires |u| == 6
    ensures KeptCount(u, f) == (if Keeps(f, u[0]) then u[0].mod.count else 0.0) + (if Keeps(f, u[1]) then u[1].mod.count else 0.0)
                               + (if Keeps(f, u[2]) then u[2].mod.count else 0.0) + (if Keeps(f, u[3]) then u[3].mod.count else 0.0)
                               + (if Keeps(f, u[4]) then u[4].mod.count else 0.0) + (if Keeps(f, u[5]) then u[5].mod.count else 0.0)
  {
    assert u[5..][1..] == [];
    assert u[4..][1..] == u[5..];
    assert u[3..][1..] == u[4..];
    assert u[2..][1..] == u[3..];
    assert u[1..][1..] == u[2..];
    assert KeptCount(u[5..], f) == (if Keeps(f, u[5]) then u[5].mod.count else 0.0);
    assert KeptCount(u[4..], f) == (if Keeps(f, u[4]) then u[4].mod.count else 0.0) + KeptCount(u[5..], f);
    assert KeptCount(u[3..], f) == (if Keeps(f, u[3]) then u[3].mod.count else 0.0) + KeptCount(u[4..], f);
    assert KeptCount(u[2..], f) == (if Keeps(f, u[2]) then u[2].mod.count else 0.0) + KeptCount(u[3..], f);
    assert KeptCount(u[1..], f) == (if Keeps(f, u[1]) then u[1].mod.count else 0.0) + KeptCount(u[2..], f);
  }

  lemma {:induction false} SumAppend(a: Uses, b: Uses)
    ensures CountSum(a + b) == CountSum(a) + CountSum(b)
  {
    if a == [] {
      assert a + b == b;
    } else {
      assert (a + b)[1..] == a[1..] + b;
      SumAppend(a[1..], b);
    }
  }

  /** The entries a filter keeps are exactly the entries that pass it, each unchanged. */
  lemma {:induction false} FilteredMembers(u: Uses, f: Filter)
    ensures forall e :: e in Filtered(u, f) <==> e in u && Keeps(f, e)
  {
    if u != [] {
      FilteredMembers(u[1..], f);
      assert u == [u[0]] + u[1..];
    }
  }

  /** A filter keeps nothing exactly when no entry passes it. */
  lemma FilteredEmpty(u: Uses, f: Filter)
    ensures Filtered(u, f) == [] <==> forall i :: 0 <= i < |u| ==> !Keeps(f, u[i])
  {
    FilteredMembers(u, f);
    if Filtered(u, f) != [] {
      var e := Filtered(u, f)[0];
      assert e in Filtered(u, f);
    }
  }

  /** Filtering keeps the entries in their order, so distinct keys stay distinct. */
  lemma {:induction false} FilteredUnique(u: Uses, f: Filter)
    ensures UniqueKeys(u) ==> UniqueKeys(Filtered(u, f))
  {
    if u != [] && UniqueKeys(u) {
      var tail := u[1..];
      assert UniqueKeys(tail) by {
        forall i, j | 0 <= i < j < |tail|
          ensures tail[i].key != tail[j].key
        {
          assert tail[i] == u[i + 1] && tail[j] == u[j + 1];
        }
      }
      FilteredUnique(tail, f);
      FilteredMembers(tail, f);
      var rest := Filtered(tail, f);
      forall j | 0 <= j < |rest|
        ensures u[0].key != rest[j].key
      {
        assert rest[j] in tail;
        var k :| 0 <= k < |tail| && tail[k] == rest[j];
        assert tail[k] == u[k + 1];
      }
      if Keeps(f, u[0]) {
        var r := [u[0]] + rest;
        assert Filtered(u, f) == r;
        forall i, j | 0 <= i < j < |r|
          ensures r[i].key != r[j].key
        {
          assert r[j] == rest[j - 1];
          if i > 0 {
            assert r[i] == rest[i - 1];
          }
        }
      } else {
        assert Filtered(u, f) == rest;
      }
    }
  }

  // ---------------------------------------------------------------------------
  // The getters of a snapshot over its uses

  /** `getFulfilledCount()`: `None` where `reduce` without an initial value
      throws, i.e. when no use is a fulfillment. */
  function FulfilledCount(uses: Uses): (r: Option<real>)
    ensures r.None? <==> forall i :: 0 <= i < |uses| ==> !uses[i].mod.isFulfillment
    ensures r.Some? ==> r.value == KeptCount(uses, IsFulfillment)
  {
    var kept := Filtered(uses, IsFulfillment);
    FilteredEmpty(uses, IsFulfillment);
    FilteredCount(uses, IsFulfillment);
    if kept == [] then None else Some(CountSum(kept))
  }

  /** `getTotalCost()` as written: it adds up the uses' counts, not their prices.
      `None` on an empty uses object, where `reduce` throws. */
  function TotalCost(uses: Uses): (r: Option<real>)
    ensures r.None? <==> uses == []
    ensures r.Some? ==> r.value == CountSum(uses)
  {
    if uses == [] then None else Some(CountSum(uses))
  }

  /** The total cost `getTotalCost` evidently means: the uses' prices added up.
      Unlike the getter as written, it is defined on an empty uses object, and
      uses that all cost nothing cost nothing in total. */
  function TotalPrice(uses: Uses): (r: real)
    ensures (forall i :: 0 <= i < |uses| ==> uses[i].mod.price == 0.0) ==> r == 0.0
  {
    FreePriceSum(uses);
    PriceSum(uses)
  }

  lemma {:induction false} FreePriceSum(uses: Uses)
    ensures (forall i :: 0 <= i < |uses| ==> uses[i].mod.price == 0.0) ==> PriceSum(uses) == 0.0
  {
    if uses != [] {
      FreePriceSum(uses[1..]);
      if forall i :: 0 <= i < |uses| ==> uses[i].mod.price == 0.0 {
        assert forall i :: 0 <= i < |uses[1..]| ==> uses[1..][i].mod.price == 0.0 by {
          forall i | 0 <= i < |uses[1..]| ensures uses[1..][i].mod.price == 0.0 {
            assert uses[1..][i] == uses[i + 1];
          }
        }
        assert uses[0].mod.price == 0.0;
      }
    }
  }

  /** `getPaidUsesCount()`: the counts of the priced uses, 0 when there are none. */
  function PaidUsesCount(uses: Uses): (r: real)
    ensures r == KeptCount(uses, HasPrice)
    ensures (forall i :: 0 <= i < |uses| ==> uses[i].mod.price <= 0.0) ==> r == 0.0
  {
    FilteredCount(uses, HasPrice);
    FilteredEmpty(uses, HasPrice);
    CountSum(Filtered(uses, HasPrice))
  }

  /** `getCostPerPaidUse()` as written: the fulfilled count, not the cost, per
      paid use; 0 when there is no paid use, `None` where `getFulfilledCount` throws. */
  function CostPerPaidUse(uses: Uses): (r: Option<real>)
    ensures PaidUsesCount(uses) == 0.0 ==> r == Some(0.0)
    ensures PaidUsesCount(uses) != 0.0 ==>
              (r.None? <==> forall i :: 0 <= i < |uses| ==> !uses[i].mod.isFulfillment)
    ensures PaidUsesCount(uses) != 0.0 && r.Some? ==> r.value * PaidUsesCount(uses) == KeptCount(uses, IsFulfillment)
  {
    var paid := PaidUsesCount(uses);
    if paid == 0.0 then Some(0.0)
    else match FulfilledCount(uses)
      case None => None
      case Some(fulfilled) => Some(fulfilled / paid)
  }

  /** The cost per paid use `getCostPerPaidUse` evidently means: total price
      over paid uses, 0 when there is no paid use. */
  function PricePerPaidUse(uses: Uses): (r: real)
    ensures PaidUsesCount(uses) == 0.0 ==> r == 0.0
    ensures PaidUsesCount(uses) != 0.0 ==> r * PaidUsesCount(uses) == TotalPrice(uses)
  {
    var paid := PaidUsesCount(uses);
    if paid == 0.0 then 0.0 else TotalPrice(uses) / paid
  }

  /** `getEquippedUses()`: the entries whose count exceeds 0.1, unchanged and
      under their own keys. */
  function EquippedUses(uses: Uses): (r: Uses)
    ensures forall e :: e in r <==> e in uses && e.mod.count > 0.1
    ensures UniqueKeys(uses) ==> UniqueKeys(r)
  {
    FilteredMembers(uses, Equipped);
    FilteredUnique(uses, Equipped);
    Filtered(uses, Equipped)
  }

  // ---------------------------------------------------------------------------
  // What makeMods promises

  /** The node bucket each of the keys `makeMods` fills stands for. */
  const ModBuckets: seq<Buckets.Bucket> :=
    [Buckets.Oa, Buckets.BackCatalog, Buckets.FullSubscription, Buckets.Docdel, Buckets.HardTurnaway, Buckets.SoftTurnaway]

  /** Under each of the three policies the six counts partition the journal-year's
      uses; under any other name the hard turnaways are left out. */
  lemma ModsPartition(jy: Buckets.JournalYear, n: string, p: real, c: Constants)
    ensures n == FullName || n == DocdelName || n == FreeName ==> CountSum(MakeMods(jy, n, p, c)) == jy.useCount
    ensures n != FullName && n != DocdelName && n != FreeName ==>
              CountSum(MakeMods(jy, n, p, c)) == jy.useCount - HardTurnawayCount(jy, c)
  {
    SixSums(MakeMods(jy, n, p, c));
  }

  /** Only the full-subscription and document-delivery mods can carry a price:
      the subscription price and the delivered documents' cost when selected. */
  lemma ModsPrices(jy: Buckets.JournalYear, n: string, p: real, c: Constants)
    ensures forall i :: 0 <= i < 6 && i != 2 && i != 3 ==> MakeMods(jy, n, p, c)[i].mod.price == 0.0
    ensures MakeMods(jy, n, p, c)[2].mod.price == (if n == FullName then p else 0.0)
    ensures MakeMods(jy, n, p, c)[3].mod.price == (if n == DocdelName then HardTurnawayCount(jy, c) * c.docDelCostPerUse else 0.0)
    ensures TotalPrice(MakeMods(jy, n, p, c)) ==
              if n == FullName then p else if n == DocdelName then HardTurnawayCount(jy, c) * c.docDelCostPerUse else 0.0
  {
    SixSums(MakeMods(jy, n, p, c));
  }

  /** Document delivery and the full subscription leave no hard turnaways, and
      the full subscription leaves no soft ones. */
  lemma ModsTurnaways(jy: Buckets.JournalYear, n: string, p: real, c: Constants)
    ensures MakeMods(jy, n, p, c)[4].mod.count != 0.0 ==> n == FreeName
    ensures n == FullName ==> MakeMods(jy, n, p, c)[5].mod.count == 0.0
    ensures n == FreeName ==> MakeMods(jy, n, p, c)[4].mod.count + MakeMods(jy, n, p, c)[5].mod.count == UnFreeCount(jy)
  {
  }

  /** Only the two turnaway mods are not fulfillments, so the fulfilled count
      is the total count less the turnaways. */
  lemma ModsFulfillment(jy: Buckets.JournalYear, n: string, p: real, c: Constants)
    ensures forall i :: 0 <= i < 6 ==>
              (!MakeMods(jy, n, p, c)[i].mod.isFulfillment <==> ModKeys[i] == "hardTurnaway" || ModKeys[i] == "softTurnaway")
    ensures FulfilledCount(MakeMods(jy, n, p, c)) ==
              Some(CountSum(MakeMods(jy, n, p, c)) - MakeMods(jy, n, p, c)[4].mod.count - MakeMods(jy, n, p, c)[5].mod.count)
  {
    var r := MakeMods(jy, n, p, c);
    SixSums(r);
    SixKept(r, IsFulfillment);
    assert r[0].mod.isFulfillment;
  }

  /** The blank mods have no uses and no cost. */
  lemma BlankModsEmpty(c: Constants)
    ensures |MakeBlankMods(c)| == 6
    ensures forall i :: 0 <= i < 6 ==> MakeBlankMods(c)[i].mod.count == 0.0 && MakeBlankMods(c)[i].mod.price == 0.0
    ensures TotalPrice(MakeBlankMods(c)) == 0.0 && PaidUsesCount(MakeBlankMods(c)) == 0.0
    ensures CostPerPaidUse(MakeBlankMods(c)) == Some(0.0)
  {
    var r := MakeBlankMods(c);
    assert forall i :: 0 <= i < 6 ==> r[i] in r;
    SixSums(r);
    SixKept(r, HasPrice);
  }

  /** Under the full and free policies the mods carry exactly the buckets the
      node engine gives the node of that name, and under every policy the same
      cost; under document delivery the counts agree up to the node engine's
      rounding of the soft turnaways. */
  lemma ModsMatchNodes(jy: Buckets.JournalYear, p: real, c: Constants)
    ensures var full := Subscriptions.FullUsage(jy);
            forall i :: 0 <= i < 6 ==> MakeMods(jy, FullName, p, c)[i].mod.count == full.Get(ModBuckets[i])
    ensures var free := Subscriptions.FreeUsage(Subscriptions.FullUsage(jy), c);
            forall i :: 0 <= i < 6 ==> MakeMods(jy, FreeName, p, c)[i].mod.count == free.Get(ModBuckets[i])
    ensures var docdel := Subscriptions.DocdelUsage(Subscriptions.FullUsage(jy), c);
            forall i :: 0 <= i < 5 ==> MakeMods(jy, DocdelName, p, c)[i].mod.count == docdel.Get(ModBuckets[i])
    ensures -0.5 <= MakeMods(jy, DocdelName, p, c)[5].mod.count
                    - Subscriptions.DocdelUsage(Subscriptions.FullUsage(jy), c).softTurnaway < 0.5
    ensures var nodes := Subscriptions.SubscriptionStates(jy, Some(p), None, c);
            TotalPrice(MakeMods(jy, FullName, p, c)) == nodes[0].cost
            && TotalPrice(MakeMods(jy, DocdelName, p, c)) == nodes[1].cost
            && TotalPrice(MakeMods(jy, FreeName, p, c)) == nodes[2].cost
  {
    ModsPrices(jy, FullName, p, c);
    ModsPrices(jy, DocdelName, p, c);
    ModsPrices(jy, FreeName, p, c);
  }

  // ---------------------------------------------------------------------------
  // The two getters that add up counts where the node engine adds up costs

  /** The journal-year of a worked example: 1000 uses, 100 open access and 100
      back catalog, bought by a subscription priced 5000. */
  const ExampleYear: Buckets.JournalYear := Buckets.JournalYear(1000.0, 100.0, 100.0)

  /** `getTotalCost` reports the 1000 uses where the subscription costs 5000. */
  lemma TotalCostExample()
    ensures TotalCost(MakeMods(ExampleYear, FullName, 5000.0, EngineDefaults)) == Some(1000.0)
    ensures TotalPrice(MakeMods(ExampleYear, FullName, 5000.0, EngineDefaults)) == 5000.0
    ensures Subscriptions.SubscriptionStates(ExampleYear, Some(5000.0), None, EngineDefaults)[0].cost == 5000.0
  {
    ModsPartition(ExampleYear, FullName, 5000.0, EngineDefaults);
    ModsPrices(ExampleYear, FullName, 5000.0, EngineDefaults);
  }

  /** `getCostPerPaidUse` gives 1000 / 800 = 1.25 where the node engine's
      `costPerPaidUse` gives 5000 / 800 = 6.25, as the corrected getter does. */
  lemma CostPerPaidUseExample()
    ensures CostPerPaidUse(MakeMods(ExampleYear, FullName, 5000.0, EngineDefaults)) == Some(1.25)
    ensures PricePerPaidUse(MakeMods(ExampleYear, FullName, 5000.0, EngineDefaults)) == 6.25
    ensures var node := Subscriptions.SubscriptionStates(ExampleYear, Some(5000.0), None, EngineDefaults)[0];
            GuardedDiv(node.cost, node.usage.Paid()) == Finite(6.25)
  {
    var r := MakeMods(ExampleYear, FullName, 5000.0, EngineDefaults);
    FullModsPaid(ExampleYear, 5000.0, EngineDefaults);
    assert PaidUsesCount(r) == 800.0;
    ModsFulfillment(ExampleYear, FullName, 5000.0, EngineDefaults);
    ModsPartition(ExampleYear, FullName, 5000.0, EngineDefaults);
    assert FulfilledCount(r) == Some(1000.0);
    ModsPrices(ExampleYear, FullName, 5000.0, EngineDefaults);
    assert TotalPrice(r) == 5000.0;
  }

  /** Under the full policy the paid uses are the non-free uses, when the subscription is priced. */
  lemma FullModsPaid(jy: Buckets.JournalYear, p: real, c: Constants)
    ensures PaidUsesCount(MakeMods(jy, FullName, p, c)) == if p > 0.0 then UnFreeCount(jy) else 0.0
  {
    SixKept(MakeMods(jy, FullName, p, c), HasPrice);
  }

  /** Under document delivery the paid uses are the delivered documents, when they cost something. */
  lemma DocdelModsPaid(jy: Buckets.JournalYear, p: real, c: Constants)
    ensures PaidUsesCount(MakeMods(jy, DocdelName, p, c)) ==
              if HardTurnawayCount(jy, c) * c.docDelCostPerUse > 0.0 then HardTurnawayCount(jy, c) else 0.0
  {
    SixKept(MakeMods(jy, DocdelName, p, c), HasPrice);
  }

  /** The total price of the mods is the total cost of the node of the same policy. */
  lemma TotalPriceIsNodeCost(jy: Buckets.JournalYear, n: string, p: real, c: Constants)
    requires n == FullName || n == DocdelName || n == FreeName
    ensures TotalPrice(MakeMods(jy, n, p, c)) ==
              Subscriptions.SubscriptionStates(jy, Some(p), None, c)[if n == FullName then 0 else if n == DocdelName then 1 else 2].cost
  {
    ModsMatchNodes(jy, p, c);
  }

  /** The corrected cost per paid use under the full policy is the node
      engine's `costPerPaidUse`: the subscription price over the subscription uses. */
  lemma FullPricePerPaidUse(jy: Buckets.JournalYear, p: real, c: Constants)
    requires p == 0.0 || (p > 0.0 && UnFreeCount(jy) != 0.0)
    ensures var node := Subscriptions.SubscriptionStates(jy, Some(p), None, c)[0];
            GuardedDiv(node.cost, node.usage.Paid()) == Finite(PricePerPaidUse(MakeMods(jy, FullName, p, c)))
  {
    FullModsPaid(jy, p, c);
    ModsPrices(jy, FullName, p, c);
  }

  /** The corrected cost per paid use under document delivery is the delivery
      price, the constant the node engine's document-delivery node reports. */
  lemma DocdelPricePerPaidUse(jy: Buckets.JournalYear, p: real, c: Constants)
    requires HardTurnawayCount(jy, c) * c.docDelCostPerUse > 0.0
    ensures PricePerPaidUse(MakeMods(jy, DocdelName, p, c)) == c.docDelCostPerUse
  {
    DocdelModsPaid(jy, p, c);
    ModsPrices(jy, DocdelName, p, c);
    var h := HardTurnawayCount(jy, c);
    assert h != 0.0;
    assert (h * c.docDelCostPerUse) / h == c.docDelCostPerUse;
  }
  /** The subscription node's costs and paid uses under the full policy. */
  lemma FullNodeShares(jy: Buckets.JournalYear, p: real, c: Constants)
    ensures var node := Subscriptions.SubscriptionStates(jy, Some(p), None, c)[0];
            node.cost == p && node.usage.Paid() == UnFreeCount(jy)
  {
  }

  /** Where the two engines' zero guards part, first case: a journal-year all of
      whose uses are free (100 uses, 50 open access, 50 back catalog, say) has
      no paid use. The subscription node divides its nonzero price by 0
      (`Infinity || 0` stays infinite); the getter answers 0. */
  lemma AllFreeGuardsDiffer(jy: Buckets.JournalYear, p: real, c: Constants)
    requires UnFreeCount(jy) == 0.0 && p != 0.0
    ensures var node := Subscriptions.SubscriptionStates(jy, Some(p), None, c)[0];
            GuardedDiv(node.cost, node.usage.Paid()) == NonFinite
    ensures PricePerPaidUse(MakeMods(jy, FullName, p, c)) == 0.0
  {
    FullNodeShares(jy, p, c);
    FullModsPaid(jy, p, c);
  }

  /** Second case: a negative price is no price to the getter, which answers 0,
      while the node divides it by the paid uses. */
  lemma NegativePriceGuardsDiffer(jy: Buckets.JournalYear, p: real, c: Constants)
    requires p < 0.0 && UnFreeCount(jy) != 0.0
    ensures var node := Subscriptions.SubscriptionStates(jy, Some(p), None, c)[0];
            GuardedDiv(node.cost, node.usage.Paid()) == Finite(p / UnFreeCount(jy))
    ensures PricePerPaidUse(MakeMods(jy, FullName, p, c)) == 0.0
  {
    FullNodeShares(jy, p, c);
    FullModsPaid(jy, p, c);
  }

  /** Third case: under document delivery with nothing delivered at a price
      (no hard turnaway, say), the getter answers 0, while the delivery node's
      `costPerPaidUse` is the constant price (25 by default). */
  lemma NothingDeliveredGuardsDiffer(jy: Buckets.JournalYear, p: real, c: Constants)
    requires HardTurnawayCount(jy, c) * c.docDelCostPerUse <= 0.0 && c.docDelCostPerUse != 0.0
    ensures PricePerPaidUse(MakeMods(jy, DocdelName, p, c)) == 0.0 != c.docDelCostPerUse
  {
    DocdelModsPaid(jy, p, c);
  }
}
