/** The shaping of the journals API response: per-year download records, the
    downloads summed over all years, and the per-journal record the front end
    keeps. The HTTP request itself is not part of this model. */
module Api {
  import opened JsNumbers
  import opened Buckets
  import Subscriptions

  /** A journal's `downloads_by_year` object: parallel arrays indexed by year. */
  datatype Downloads = Downloads(year: seq<int>, total: seq<real>, oa: seq<real>, backCatalog: seq<real>)

  /** One element of `apiDownloadsByYear`'s result. A field is `None` where its
      array is shorter than `year` and the JavaScript index reads `undefined`. */
  datatype YearRecord = YearRecord(useCount: Option<real>, oaUseCount: Option<real>,
                                   backCatalogUseCount: Option<real>, year: int)

  /** `xs[i]`, with `undefined` past the end. */
  function At(xs: seq<real>, i: nat): (r: Option<real>)
    ensures r.Some? <==> i < |xs|
    ensures r.Some? ==> r.value == xs[i]
  {
    if i < |xs| then Some(xs[i]) else None
  }

  /** The records of the years from index `i` on: one per remaining year, in
      order, the `k`-th reading index `i + k` of every array. */
  function RecordsFrom(d: Downloads, i: nat): (r: seq<YearRecord>)
    requires i <= |d.year|
    ensures |r| == |d.year| - i
    ensures forall k :: 0 <= k < |r| ==>
              r[k] == YearRecord(At(d.total, i + k), At(d.oa, i + k), At(d.backCatalog, i + k), d.year[i + k])
    decreases |d.year| - i
  {
    if i == |d.year| then []
    else [YearRecord(At(d.total, i), At(d.oa, i), At(d.backCatalog, i), d.year[i])] + RecordsFrom(d, i + 1)
  }

  /** `apiDownloadsByYear(api_downloads)`: `year.map((year, i) => ...)`. */
  function DownloadsByYear(d: Downloads): (r: seq<YearRecord>)
    ensures |r| == |d.year|
  {
    RecordsFrom(d, 0)
  }

  /** `_.sum(xs)`, 0 for an empty array. */
  function Sum(xs: seq<real>): real
  {
    if xs == [] then 0.0 else xs[0] + Sum(xs[1..])
  }

  /** `apiDownloads(api_downloads)`: the three arrays summed. With no download
      arrays the journal has no uses at all; when every array has the length of
      `year`, the per-year records add up to the overall downloads. */
  function DownloadsOverall(d: Downloads): (r: JournalYear)
    ensures d.total == [] && d.oa == [] && d.backCatalog == [] ==> r == JournalYear(0.0, 0.0, 0.0)
    ensures |d.total| == |d.oa| == |d.backCatalog| == |d.year| ==> RecordsTotal(DownloadsByYear(d)) == r
  {
    if |d.total| == |d.oa| == |d.backCatalog| == |d.year| then
      RecordsSumFrom(d, 0);
      assert d.total[0..] == d.total && d.oa[0..] == d.oa && d.backCatalog[0..] == d.backCatalog;
      JournalYear(Sum(d.total), Sum(d.oa), Sum(d.backCatalog))
    else
      JournalYear(Sum(d.total), Sum(d.oa), Sum(d.backCatalog))
  }

  // ---------------------------------------------------------------------------
  // Per-year records

  /** One record per entry of `year`, in order; record `i` holds element `i` of
      each array and the year itself. */
  lemma DownloadsByYearShape(d: Downloads)
    ensures forall i :: 0 <= i < |d.year| ==>
              DownloadsByYear(d)[i].year == d.year[i]
              && DownloadsByYear(d)[i].useCount == At(d.total, i)
              && DownloadsByYear(d)[i].oaUseCount == At(d.oa, i)
              && DownloadsByYear(d)[i].backCatalogUseCount == At(d.backCatalog, i)
  {
  }

  /** A field read from a record, where `None` counts as nothing. */
  function ValueOr0(x: Option<real>): real
  {
    if x.Some? then x.value else 0.0
  }

  /** The three fields added up over a list of records. */
  function RecordsTotal(rs: seq<YearRecord>): JournalYear
  {
    if rs == [] then JournalYear(0.0, 0.0, 0.0)
    else
      var rest := RecordsTotal(rs[1..]);
      JournalYear(ValueOr0(rs[0].useCount) + rest.useCount,
                  ValueOr0(rs[0].oaUseCount) + rest.oaUseCount,
                  ValueOr0(rs[0].backCatalogUseCount) + rest.backCatalogUseCount)
  }

  lemma {:induction false} RecordsSumFrom(d: Downloads, i: nat)
    requires |d.total| == |d.oa| == |d.backCatalog| == |d.year|
    requires i <= |d.year|
    ensures RecordsTotal(RecordsFrom(d, i)) == JournalYear(Sum(d.total[i..]), Sum(d.oa[i..]), Sum(d.backCatalog[i..]))
    decreases |d.year| - i
  {
    if i < |d.year| {
      RecordsSumFrom(d, i + 1);
      var rs := RecordsFrom(d, i);
      assert rs[1..] == RecordsFrom(d, i + 1);
      assert d.total[i..][1..] == d.total[i + 1..];
      assert d.oa[i..][1..] == d.oa[i + 1..];
      assert d.backCatalog[i..][1..] == d.backCatalog[i + 1..];
    } else {
      assert d.total[i..] == [] && d.oa[i..] == [] && d.backCatalog[i..] == [];
    }
  }

  // ---------------------------------------------------------------------------
  // The journal record

  /** The fields of one element of the API's `list` that the front end reads. */
  datatype ApiJournal = ApiJournal(title: string, subject: string, issnL: string, citations: Option<real>,
                                   dollars2018Subscription: Option<real>, downloads: Downloads)

  datatype Meta = Meta(title: string, subject: string, issnl: string)

  /** What `fetchJournals` keeps per journal; `subscriptions` holds the values
      of the three nodes `makeSubscriptions` builds. */
  datatype JournalRecord = JournalRecord(meta: Meta, citations: Option<real>, yearlyDownloads: seq<YearRecord>,
                                         fullSubrCost2018: Option<real>, subscriptions: seq<NodeState>)

  /** `dollars_2018_subscription * 5`; an undefined price stays undefined (NaN). */
  function FiveYearPrice(dollars: Option<real>): Option<real>
  {
    if dollars.Some? then Some(5.0 * dollars.value) else None
  }

  /** The mapping of one journal of the response list. The nodes are built
      with no year and with the constants the allocation engine hard-codes. */
  function ToRecord(j: ApiJournal): (r: JournalRecord)
    ensures r.meta.title == j.title && r.meta.subject == j.subject && r.meta.issnl == j.issnL
    ensures r.citations == j.citations && r.fullSubrCost2018 == j.dollars2018Subscription
    ensures r.yearlyDownloads == DownloadsByYear(j.downloads) && |r.yearlyDownloads| == |j.downloads.year|
    ensures |r.subscriptions| == 3
    ensures forall k :: 0 <= k < 3 ==> r.subscriptions[k].name == Some(Subscriptions.ChildNames[k]) && r.subscriptions[k].year == None
    ensures r.subscriptions[0].usage.Total() == Sum(j.downloads.total) && r.subscriptions[2].usage.Total() == Sum(j.downloads.total)
    ensures forall k :: 0 <= k < 3 ==>
              r.subscriptions[k].usage.oa == Sum(j.downloads.oa) && r.subscriptions[k].usage.backCatalog == Sum(j.downloads.backCatalog)
    ensures r.subscriptions[0].cost == (if j.dollars2018Subscription.Some? then 5.0 * j.dollars2018Subscription.value else 0.0)
    ensures r.subscriptions == Subscriptions.SubscriptionStates(DownloadsOverall(j.downloads), FiveYearPrice(j.dollars2018Subscription), None, EngineDefaults)
  {
    var overall := DownloadsOverall(j.downloads);
    JournalRecord(Meta(j.title, j.subject, j.issnL), j.citations, DownloadsByYear(j.downloads),
                  j.dollars2018Subscription,
                  Subscriptions.SubscriptionStates(overall, FiveYearPrice(j.dollars2018Subscription), None, EngineDefaults))
  }

  /** The record's node values are those of the nodes `makeSubscriptions` builds. */
  method MakeRecordSubscriptions(j: ApiJournal) returns (r: seq<Subscriptions.Subscription>)
    ensures |r| == 3 && fresh(r[0]) && fresh(r[1]) && fresh(r[2])
    ensures Subscriptions.StatesOf(r) == ToRecord(j).subscriptions
  {
    r := Subscriptions.MakeSubscriptions(DownloadsOverall(j.downloads), FiveYearPrice(j.dollars2018Subscription), None, EngineDefaults);
  }
}
