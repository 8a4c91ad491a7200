# A verified model of the jump subscription-allocation engine

jump helps a library decide how to buy its journals. For each journal and year
it takes the download counts: all downloads, the open-access ones and the
back-catalog ones. It then asks what would happen under each acquisition
policy. The policies are:

- a full subscription;
- document delivery of the requests that would otherwise be turned away;
- nothing at all ("free").

This project models the allocation core of the code base in Dafny and proves
properties of the model.

- **Node engine** (`subscription.dfy`, `buckets.dfy`):
  - The nodes hold six usage buckets (soft and hard turnaways, full
    subscription, document delivery, back catalog, open access) and a cost.
  - The three policy nodes derive their buckets from one usage record.
  - A node merges into another bucket by bucket.
  - The package (the accumulator) folds any number of leaf nodes and other
    packages into three children, one per policy. It keeps its own totals
    equal to the sum of its children's.
- **Snapshot engine** (`basesnap.dfy`): the six "mods" one journal-year is
  split into under a policy, and the getters over them.
- **API shaping** (`api.dfy`):
  - the per-year download records;
  - the downloads summed over all years;
  - the record kept per journal.
- **User settings** (`usersettings.dfy`):
  - the cost and impact parameters;
  - the policy chosen per journal;
  - the three-level memo cache keyed by journal, policy and function name.
- **Worked examples** (`scenarios.dfy`): one journal-year of 1000 downloads
  (100 open access, 100 back catalog, subscription price 5000), taken
  through every policy and through a package.
- **Numeric conventions**: the JavaScript idioms the code relies on, written
  out over exact reals. `(a / b) || 0` is `JsNumbers.GuardedDiv` and
  `Math.round` is `JsNumbers.JsRound` (`numbers.dfy`). The `x || 0` on a
  possibly undefined price is `Subscriptions.FlatCost` (`subscription.dfy`).

Where the source mutates objects (the nodes, the package, the settings), the
model uses Dafny classes with `modifies` clauses. Where it computes values, the
model uses functions and lemmas. The loops the source runs become `for` loops
with invariants:

- merging buckets;
- folding nodes into a package;
- folding another package's children;
- applying a settings list.

The hard-coded allocation constants (10% of the non-free uses would be hard
turnaways; a delivered document costs 25) are a parameter, `Constants`. The
values the code uses are `EngineDefaults`.

Some facts about the code that a reader might not expect:

- There is no `ill` policy or bucket: the children are `fullSubscription`,
  `docdel` and `free`. Yet `UserSettings` keeps an `illCostPerUse` and defaults
  the per-journal policy to `ill`.
- The document-delivery node rounds the soft turnaways, not the delivered
  count.
- The user settings' parameters are not read by the allocation engines. Their
  hard-turnaway default (0.5) differs from the engines' constant (0.1).

## Model

| member | source | states |
|---|---|---|
| JsNumbers.GuardedDiv | src/subscription.js:44-46 | `(a / b) \|\| 0`: the result is finite exactly when the divisor is nonzero or the dividend is zero. A finite quotient times a nonzero divisor gives the dividend back. `0 / 0` gives 0. |
| JsNumbers.JsRound | src/subscription.js:202 | `Math.round`: the result is within half a unit of its argument, with halves rounded up. |
| Buckets.Usage.With | src/subscription.js:98 | Writing one bucket sets that bucket to the new value and leaves the other five as they were. |
| Buckets.MergeBuckets | src/subscription.js:97-99 | The loop over the six `usage` entries produces the bucket-wise sum, so the use counts add. |
| Buckets.PlusZero | src/subscription.js:12-20 | Merging a blank node (all buckets 0) changes nothing, and merging into one gives the other node's buckets. |
| Buckets.PlusCommutes | src/subscription.js:94-101 | Merging is commutative. |
| Buckets.PlusAssociates | src/subscription.js:94-101 | Merging is associative. |
| Buckets.Rows | src/subscription.js:72-90 | `usageStats` yields six rows, one per bucket, after the sort. Row `i` carries the bucket whose `usageSortOrder` rank is `i`, with that bucket's count and cost, the percentage `100 * count / total` (not finite when the total is 0: `NaN`, or an infinity for a nonzero bucket) and the cost per count `(cost / count) \|\| 0`. |
| Buckets.DisplayOrderRanked | src/subscription.js:24-31 | The display order lists each bucket at the position of its `usageSortOrder` rank. |
| Buckets.RowsPartition | src/subscription.js:72-84 | The rows' counts add up to `useCount()`. Over a node with uses the percentages are finite and add up to 100; over a node without uses none of them is finite (`NaN`, or an infinity for a nonzero bucket). |
| Buckets.RowsOwnCost | src/subscription.js:60-62 | When a node charges its cost to the bucket of its name only, that bucket's row carries the cost and every other row carries none. |
| Buckets.RoutedAppend | src/subscription.js:116-118 | Folding two batches of nodes one after the other routes the same usage and cost to each child as folding their concatenation. |
| Buckets.RoutedPermutation | src/subscription.js:116-118 | Folding is order-independent: any rearrangement of the folded nodes gives each child the same buckets and cost. |
| Buckets.RoutingCoversAll | src/subscription.js:122-131 | When every folded node carries one of three distinct names, the three per-name totals add up to the overall usage and the overall cost. |
| Subscriptions.FullUsage | src/subscription.js:165-178 | The full subscription serves every non-free use. Its soft and hard turnaways and its delivery are 0, its total is the record's use count, and the open-access and back-catalog counts are copied. |
| Subscriptions.DocdelUsage | src/subscription.js:196-209 | Document delivery buys `hardTurnawayProp` of the full node's subscription uses and leaves no hard turnaway. The soft turnaways are the rest, rounded, so the total is within half a use of the full node's. The free buckets are copied. |
| Subscriptions.DocdelCost | src/subscription.js:210 | Every delivered document is paid at the per-use price. |
| Subscriptions.FreeUsage | src/subscription.js:231-242 | Every subscription use becomes a turnaway, `hardTurnawayProp` of them hard. The subscription and delivery buckets are 0, so nothing is paid, and the free buckets are copied. |
| Subscriptions.SubscriptionStates | src/subscription.js:271-281 | See the list under the table. |
| Subscriptions.Subscription.constructor | src/subscription.js:12-23 | A base node starts with all buckets 0, cost 0, and no name or year. |
| Subscriptions.Subscription.Full | src/subscription.js:159-163 | A blank node named `fullSubscription`. |
| Subscriptions.Subscription.Docdel | src/subscription.js:189-194 | A blank node named `docdel`, built without a full node to derive from. |
| Subscriptions.Subscription.Free | src/subscription.js:224-229 | A blank node named `free`, built without a full node to derive from. |
| Subscriptions.Subscription.UseCount | src/subscription.js:56-58 | The sum of all six buckets: every use is counted once, as a paid use, a free use or a turnaway. |
| Subscriptions.Subscription.PaidUseCount | src/subscription.js:48-50 | The uses of the paid kind: the `fullSubscription` and `docdel` buckets, the buckets `Buckets.Kind` classes as paid. |
| Subscriptions.Subscription.FreeUseCount | src/subscription.js:52-54 | The uses of the free kind: the `oa` and `backCatalog` buckets. |
| Subscriptions.Subscription.TurnawaysCount | src/subscription.js:64-66 | The uses of the turnaway kind: the `hardTurnaway` and `softTurnaway` buckets. |
| Subscriptions.Subscription.FulfilledUsesCount | src/subscription.js:64-70 | The fulfilled uses plus the turnaways are all uses. The fulfilled uses are exactly the paid uses plus the free uses. |
| Subscriptions.Subscription.CostPerPaidUse | src/subscription.js:44-50 | See the list under the table. |
| Subscriptions.Subscription.GetCostForUsageType | src/subscription.js:60-62 | A bucket is charged the node's cost exactly when it carries the node's name. Every other bucket is charged 0. |
| Subscriptions.Subscription.UsageStats | src/subscription.js:72-92 | Six rows in `usageSortOrder` order, each with its bucket's count. Each row's percentage is `100 * count / useCount()` and its cost per count is `(cost / count) \|\| 0`. The counts add up to `useCount()`. With uses, the percentages are finite and add up to 100; with none, no percentage is finite (`NaN`, or an infinity for a nonzero bucket). The row of the node's own bucket carries the node's cost, and a row with a nonzero cost is that row. |
| Subscriptions.Subscription.AddSubscriptionObj | src/subscription.js:94-101 | The buckets become the bucket-wise sum and the costs add, whatever the other node's name. The name and year are kept. |
| Subscriptions.Subscription.SetFull | src/subscription.js:165-181 | The node's buckets become the full allocation of the record. Its cost becomes the price, or 0 when the price is undefined. |
| Subscriptions.Subscription.SetDocdel | src/subscription.js:196-212 | The buckets and cost become the delivery allocation derived from the full node's buckets. The year is copied from the full node. |
| Subscriptions.Subscription.SetFree | src/subscription.js:231-245 | The buckets become the free allocation derived from the full node's buckets. The cost is 0, and the year is copied from the full node. |
| Subscriptions.MakeBlankSubscriptions | src/subscription.js:258-269 | Three fresh blank nodes named `fullSubscription`, `docdel` and `free`, in that order, all tagged with the year. |
| Subscriptions.MakeSubscriptions | src/subscription.js:271-281 | Three fresh nodes whose values are `SubscriptionStates` of the record, price and year. |
| Subscriptions.NewFull | src/subscription.js:272-274 | A fresh full node set from the record and the price, tagged with the year. |
| Subscriptions.NewDocdel | src/subscription.js:278 | A fresh document-delivery node derived from the full node, with the full node's year. |
| Subscriptions.NewFree | src/subscription.js:279 | A fresh free node derived from the full node, with the full node's year. |
| Subscriptions.Package.constructor | src/subscription.js:110-119 | See the list under the table. |
| Subscriptions.Package.AddEach | src/subscription.js:116-118 | Folding a list node by node keeps the package invariant. Each child receives exactly what the list routes to its name. |
| Subscriptions.Package.Find | src/subscription.js:126 | `find`: the first child with the name, or no child when none carries it. |
| Subscriptions.Package.GetSubscription | src/subscription.js:144-146 | A child is found exactly for the three child names, and it is the child carrying that name. |
| Subscriptions.Package.GetCostForUsageType | src/subscription.js:148-154 | `fullSubscription` and `docdel` report their child's cost. Every other bucket reports 0. |
| Subscriptions.Package.UsageStats | src/subscription.js:72-92 | The inherited statistics over the package's totals: six ranked rows, each with its bucket's count, its percentage `100 * count / useCount()` and its cost per count `(cost / count) \|\| 0`. The counts add up to the use count. With uses, the percentages are finite and add up to 100; with none, none of them is finite (`NaN`, or an infinity for a nonzero bucket). Only the `docdel` and `fullSubscription` rows carry a cost, namely the children's. |
| Subscriptions.Package.UsageStatsCosts | src/subscription.js:72-82 | Each row's cost is what the package's own `getCostForUsageType` (lines 148-154) reports for the row's bucket. |
| Subscriptions.Package.AddSubscriptionObj | src/subscription.js:122-132 | See the list under the table. |
| Subscriptions.Package.AddLeaf | src/subscription.js:125-131 | A leaf is added to the child of its name and to the package's totals. A leaf whose name no child carries fails and changes nothing. |
| Subscriptions.Package.AddAccumulator | src/subscription.js:134-138 | The other package's three children are folded in one at a time. Each child receives what they route to its name, and the invariant is kept. |
| Subscriptions.RoutedSingle | src/subscription.js:126-130 | One folded node reaches only the child of its own name. |
| Subscriptions.RoutedToNamedChild | src/subscription.js:134-138 | Folding another package's three children hands each of them, whole, to the child of the same name. |
| BaseSnap.MakeMods | src/BaseSnap.js:75-164 | Six mods under the keys `oa`, `backCatalog`, `fullSubscription`, `docdel`, `hardTurnaway` and `softTurnaway`, in that order, each stored under its own name. |
| BaseSnap.ModsPartition | src/BaseSnap.js:78-157 | See the list under the table. |
| BaseSnap.ModsPrices | src/BaseSnap.js:98-125 | See the list under the table. |
| BaseSnap.ModsTurnaways | src/BaseSnap.js:126-156 | Only the free policy leaves hard turnaways, and the full subscription leaves no soft ones. Under the free policy the two turnaway counts add up to the non-free uses. |
| BaseSnap.ModsFulfillment | src/BaseSnap.js:126-147 | Exactly the two turnaway mods are not fulfillments. The fulfilled count is the total count less the turnaways. |
| BaseSnap.MakeBlankMods | src/BaseSnap.js:65-72 | The mods of an empty journal-year under the free policy: six mods, each counting nothing and costing nothing. The subscription and delivery mods are the paid ones, and the two turnaways are the ones that are not fulfillments. |
| BaseSnap.BlankModsEmpty | src/BaseSnap.js:65-72 | The blank mods have no counts and no prices. Their total price and paid count are 0, and their cost per paid use is 0. |
| BaseSnap.ModsMatchNodes | src/BaseSnap.js:78-157 | See the list under the table. |
| BaseSnap.FulfilledCount | src/BaseSnap.js:15-20 | The sum of the fulfillment mods' counts. It is undefined (`reduce` throws) exactly when no mod is a fulfillment. |
| BaseSnap.TotalCost | src/BaseSnap.js:22-26 | As written: the sum of all the mods' counts. It is undefined exactly for an empty uses object. |
| BaseSnap.TotalPrice | src/BaseSnap.js:22-26 | Corrected: the sum of the mods' prices. Unlike the getter as written it is defined on an empty uses object, and uses that all cost nothing cost nothing in total. |
| BaseSnap.PaidUsesCount | src/BaseSnap.js:28-33 | The sum of the counts of the mods with a positive price. It is 0 when no mod is priced. |
| BaseSnap.CostPerPaidUse | src/BaseSnap.js:35-40 | See the list under the table. |
| BaseSnap.PricePerPaidUse | src/BaseSnap.js:35-40 | Corrected: the total price per paid use. Times the paid count it gives the total price back, and it is 0 when nothing is paid. |
| BaseSnap.EquippedUses | src/BaseSnap.js:42-48 | Keeps exactly the entries whose count exceeds 0.1, unchanged. Distinct keys stay distinct. |
| BaseSnap.TotalCostExample | src/BaseSnap.js:22-26 | For 1000 uses under a full subscription priced 5000, `getTotalCost` reports 1000. The mods' prices and the node's cost are both 5000. |
| BaseSnap.CostPerPaidUseExample | src/BaseSnap.js:35-40 | For the same year, `getCostPerPaidUse` reports 1.25. The corrected getter and the node engine's `costPerPaidUse` both give 6.25. |
| BaseSnap.FullModsPaid | src/BaseSnap.js:28-33 | Under the full policy the paid uses are the non-free uses when the price is positive, and 0 otherwise. |
| BaseSnap.DocdelModsPaid | src/BaseSnap.js:28-33 | Under document delivery the paid uses are the delivered documents when they cost something, and 0 otherwise. |
| BaseSnap.TotalPriceIsNodeCost | src/BaseSnap.js:22-26 | The corrected total cost of the mods of a policy equals the cost of the node engine's node of the same policy. |
| BaseSnap.FullPricePerPaidUse | src/BaseSnap.js:35-40 | Under the full policy, when the price is 0 or is positive with some non-free use, the corrected cost per paid use equals the node engine's `costPerPaidUse` of the full node. |
| BaseSnap.DocdelPricePerPaidUse | src/BaseSnap.js:35-40 | Under document delivery, when the delivered documents cost something, the corrected cost per paid use is the delivery price, the constant the document-delivery node reports. |
| BaseSnap.AllFreeGuardsDiffer | src/BaseSnap.js:35-40 | With no non-free use and a nonzero price, the full node's `costPerPaidUse` (src/subscription.js:45) divides by 0 and is not finite, while the corrected getter gives 0. |
| BaseSnap.NegativePriceGuardsDiffer | src/BaseSnap.js:35-40 | With a negative price and some non-free use, the full node (src/subscription.js:45) gives the price over the non-free uses, while the corrected getter gives 0. |
| BaseSnap.NothingDeliveredGuardsDiffer | src/BaseSnap.js:35-40 | Under document delivery with nothing delivered at a price, the corrected getter gives 0, which is not the constant the delivery node reports (src/subscription.js:219-221). |
| Api.At | src/api.js:55-57 | The value at an index is defined exactly inside the array, and it is that element. |
| Api.RecordsFrom | src/api.js:53-60 | The records from index `i` on: one per remaining entry of `year`, the `k`-th holding element `i + k` of `total`, `oa` and `back_catalog` (undefined past an array's end) and that year. |
| Api.DownloadsByYear | src/api.js:52-61 | One record per entry of `year`. |
| Api.DownloadsByYearShape | src/api.js:52-61 | Record `i` holds element `i` of `total`, `oa` and `back_catalog` (undefined past an array's end) and the year itself. |
| Api.DownloadsOverall | src/api.js:63-69 | The three arrays summed. With no download arrays the journal has no uses. When the arrays have the length of `year`, the per-year records add up field by field to the overall downloads. |
| Api.ToRecord | src/api.js:19-36 | See the list under the table. |
| Api.MakeRecordSubscriptions | src/api.js:35 | The nodes `makeSubscriptions` builds for a journal have exactly the values the journal record holds. |
| UserSettings.Hit | src/UserSettings.js:53-59 | `getCache` returns the stored value exactly when every level exists and the value is truthy. Otherwise it is a miss. |
| UserSettings.StoredReadBack | src/UserSettings.js:61-65 | A stored value reads back. A falsy one reads back as a miss. |
| UserSettings.StoredFrame | src/UserSettings.js:61-65 | Storing one entry leaves every other entry and every existing level alone. |
| UserSettings.ClearedIssnlEffect | src/UserSettings.js:66-68 | After clearing one journal, every lookup for it misses and every other journal's lookups are unchanged. |
| UserSettings.AppliedSnoc | src/UserSettings.js:84-86 | One more assignment sets its own setting and leaves the others alone. |
| UserSettings.AppliedLast | src/UserSettings.js:84-86 | The last assignment to a setting decides its value. A setting never assigned keeps its value. |
| UserSettings.Settings.constructor | src/UserSettings.js:17-41 | The defaults 25, 5, 0.5, 0.05, 0.08, 2000000, 0 and 0, no policy chosen, default policy `ill`, and an empty cache in which every lookup misses. |
| UserSettings.Settings.GetSubr | src/UserSettings.js:48-50 | The chosen policy, or the default when none or the empty name was chosen. |
| UserSettings.Settings.SetSubr | src/UserSettings.js:43-47 | Records the choice, which then reads back (the default for an empty name). Other journals' choices are unchanged. That journal's cache entries all miss, other journals' are unchanged, and no setting changes. |
| UserSettings.Settings.GetCache | src/UserSettings.js:53-59 | A hit is always truthy. |
| UserSettings.Settings.SetCache | src/UserSettings.js:61-65 | The missing levels are created and the entry written. It reads back (a miss when falsy), and every other entry, the choices and the settings are unchanged. |
| UserSettings.Settings.ClearCacheIssnl | src/UserSettings.js:66-68 | That journal's entries all miss and every other journal's are unchanged. |
| UserSettings.Settings.ClearCache | src/UserSettings.js:69-71 | The cache is empty and every lookup misses. Choices and settings are unchanged. |
| UserSettings.Settings.Set | src/UserSettings.js:85 | Writes one setting and nothing else. |
| UserSettings.Settings.SetFromList | src/UserSettings.js:82-88 | The cache ends empty and the choices are unchanged. Each setting ends with the value its last assignment in the list gives it. |
| Scenarios.FullScenario | src/subscription.js:165-181 | On the example year the full node serves the 800 non-free uses at cost 5000. |
| Scenarios.FullScenarioPerUse | src/subscription.js:44-46 | The full node's cost per paid use is 6.25. |
| Scenarios.FreeScenario | src/subscription.js:231-245 | The free node has 80 hard and 720 soft turnaways. |
| Scenarios.DocdelScenario | src/subscription.js:196-212 | The delivery node buys 80 documents for 2000 and leaves 720 soft turnaways. |
| Scenarios.FullNode | src/subscription.js:271-274 | The full node `makeSubscriptions` builds for the example year. |
| Scenarios.DerivedNodes | src/subscription.js:276-280 | The delivery and free nodes `makeSubscriptions` derives from that full node. |
| Scenarios.FoldScenario | src/subscription.js:110-154 | A package folding the free and delivery nodes holds 2000 uses. It reports 2000 for `docdel` and nothing for `fullSubscription`. |

The longer entries of the table:

- **Subscriptions.SubscriptionStates**:
  - the nodes `fullSubscription`, `docdel` and `free`, all with the given year and the record's free buckets;
  - the full and free nodes account for every use, and the delivery node for every use within half a use;
  - costs: the price (0 when undefined) for the full node, a per-use delivery price for the delivery node, nothing for the free node;
  - the delivered count equals the free node's hard turnaways, which are `hardTurnawayProp` of the paid uses.
- **Subscriptions.Subscription.CostPerPaidUse**:
  - the document-delivery node reports the constant per-use price;
  - any other node reports `(cost / paid) || 0`: finite exactly when something is paid or the cost is 0, cost over paid uses, and 0 for `0 / 0`.
- **Subscriptions.Package.constructor**:
  - a fresh package with three fresh children;
  - the package invariant: own buckets and cost equal the children's sums;
  - each child holds exactly the buckets and cost of the folded leaves carrying its name, with packages flattened into their children;
  - the package's totals are those of all the folded leaves.
- **Subscriptions.Package.AddSubscriptionObj**:
  - succeeds exactly for a package or a leaf whose name a child carries;
  - then each child receives what the node routes to its name, and the invariant is kept;
  - on failure nothing changes.
- **BaseSnap.ModsPartition**:
  - under each of the three policies the six counts add up to the journal-year's uses;
  - under any other name the hard turnaways are missing from the sum.
- **BaseSnap.ModsPrices**:
  - only the full-subscription and delivery mods carry a price;
  - they carry the subscription price and the delivered documents' cost, under their own policy only;
  - the total price follows from these.
- **BaseSnap.ModsMatchNodes**:
  - under the full and free policies the mods' counts equal the node engine's buckets of the same policy;
  - under document delivery they agree except for the soft turnaways, which differ by less than half a use because the node engine rounds;
  - under every policy the total price equals the node's cost.
- **BaseSnap.CostPerPaidUse**:
  - as written, the fulfilled count (not the cost) per paid use;
  - 0 when nothing is paid;
  - otherwise undefined exactly when no mod is a fulfillment, and times the paid count it gives the fulfilled count.
- **Api.ToRecord**:
  - copies the title, subject, ISSN-L, citations and the 2018 price;
  - the download records are exactly `DownloadsByYear` of the journal's downloads, one per year;
  - three nodes `fullSubscription`, `docdel`, `free` without a year, each with the summed open-access and back-catalog downloads;
  - the full and free nodes total the summed downloads;
  - the full node costs five times the 2018 price, or 0 when there is none;
  - the three nodes are exactly `SubscriptionStates` of the overall downloads and five times the 2018 price, with no year and the engine's default constants.

## Left out

- The HTTP request of `fetchJournals`, its loading state and its error logging are left out. The model covers the mapping of one journal of the parsed response; the `map` over the list is not modelled. `src/journal.js` is not part of this model.
- Floating point is left out: numbers are exact reals. `NaN` and `undefined` appear only where the code's behaviour depends on them. That covers `|| 0` on a cost (`Option`), division by zero (`Quotient`), `reduce` on an empty list (`Option`), and an index past an array's end.
- `Subscriptions.FullUsage`: the `|| 0` on the open-access and back-catalog counts matters only when they are `NaN` or undefined, and the model takes the record's counts to be numbers.
- Display colours (`usageColors`, the mods' `color`) and `selfStat` are left out. `selfStat` is never called by the modelled code.
- `getList` is left out. The settings names are a fixed datatype, and `setFromList` takes values already parsed (`parseFloat` is not modelled). A name outside the eight settings cannot be written.
- `BaseSnap.BlankMod`: its `name` comes from an unbound global in the source, and every maker overwrites it. The model uses the empty string.
- `Subscriptions.Subscription.Docdel` and `Subscriptions.Subscription.Free`: the constructors that take a full node are modelled as the blank constructor followed by `SetDocdel` or `SetFree`, which is what the source's constructor does.
- `Subscriptions.Package.constructor`: it requires every node to be routable. The source throws a TypeError part-way through construction, and the partially built package is not modelled. `AddSubscriptionObj` models the failure itself.
- `Subscriptions.Package.AddSubscriptionObj`, `Subscriptions.Package.AddEach`, `Subscriptions.Package.AddLeaf` and `Subscriptions.Package.AddAccumulator` require that the merged node shares no object with the package's own children. In the source, merging a package into itself breaks the package invariant. Say the children hold f, d and e, summing to the totals P. Merging the package's own full child doubles that child to 2f, and line 127 then adds the doubled usage to the totals. The totals become P + 2f while the children sum to 2f + d + e. The model does not capture this aliasing.
- The package's inherited `costPerPaidUse`, `paidUseCount` and friends act on the package's totals exactly as a node's do. They are modelled once, on `Subscription`. The node's count getters delegate to the same arithmetic on the `usage` value (`Buckets.Usage.Total`, `Paid`, `Free`, `Turnaways`), which the allocation rules use too.
- `BaseSnap.FullPricePerPaidUse` and `BaseSnap.DocdelPricePerPaidUse` hold only under their conditions, because the two engines guard a zero divisor differently. The getter returns 0 whenever `!paid` holds (src/BaseSnap.js:36), and a price that is not positive is no paid use to it. The node engine divides and then applies `|| 0` (src/subscription.js:45), which turns only `NaN` into 0. The delivery node always reports its constant (src/subscription.js:219-221). `BaseSnap.AllFreeGuardsDiffer`, `BaseSnap.NegativePriceGuardsDiffer` and `BaseSnap.NothingDeliveredGuardsDiffer` state where they part.
- `Subscriptions.DocdelUsage`: its contract states the rounded soft-turnaway count by its bounds. The exact `Math.round` value is in the body.
- The `downloads_by_year` sample object at the end of `src/api.js` is never read by the code and is not modelled.

## Findings

| source | as written | input that shows it | evidently intended | confidence | as-written member | corrected member |
|---|---|---|---|---|---|---|
| src/BaseSnap.js:22-26 | `getTotalCost` adds up the mods' `count` fields | a year of 1000 uses (100 open access, 100 back catalog) under a full subscription priced 5000 gives 1000 | the sum of the mods' `price` fields, 5000, the cost the node engine reports | not executed | BaseSnap.TotalCostExample | BaseSnap.TotalPriceIsNodeCost |
| src/BaseSnap.js:35-40 | `getCostPerPaidUse` divides the fulfilled count by the paid count | the same year gives 1000 / 800 = 1.25 | the total price per paid use, 5000 / 800 = 6.25, as the node engine's `costPerPaidUse` gives | not executed | BaseSnap.CostPerPaidUseExample | BaseSnap.FullPricePerPaidUse |
