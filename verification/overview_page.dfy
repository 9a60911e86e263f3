/** The overview page (app/page.tsx): totals over the week's insight rows, the
    number of running campaigns, the chart rows and the campaign table. */
module OverviewPage {
  import opened Common
  import opened Types

  /** `parseInt(field || '0')`: a missing or empty count is read as 0. */
  function CountOf(field: Option<Numeral>): (n: nat)
    ensures field.None? || field.value == "" ==> n == 0
    ensures field.Some? && field.value != "" ==> n == NumeralValue(field.value)
  {
    if field.Some? && field.value != "" then NumeralValue(field.value) else 0
  }

  function ImpressionsOf(i: Insight): Option<Numeral> { i.impressions }
  function ClicksOf(i: Insight): Option<Numeral> { i.clicks }

  /** The sum of one count field over all rows, in row order: a single row's
      total is its own count, every row's count is part of it, and it is 0
      exactly when every row counts 0 (missing or empty fields included). */
  function Total(insights: seq<Insight>, field: Insight -> Option<Numeral>): (sum: nat)
    ensures forall k :: 0 <= k < |insights| ==> CountOf(field(insights[k])) <= sum
    ensures sum == 0 <==> forall k :: 0 <= k < |insights| ==> CountOf(field(insights[k])) == 0
    ensures |insights| == 1 ==> sum == CountOf(field(insights[0]))
  {
    if |insights| == 0 then 0
    else
      var init := insights[..|insights| - 1];
      assert forall k :: 0 <= k < |init| ==> init[k] == insights[k];
      Total(init, field) + CountOf(field(insights[|insights| - 1]))
  }

  /** `totalImpressions`: a single row's impressions, at least each row's
      impressions, 0 exactly when no row has any. */
  function TotalImpressions(insights: seq<Insight>): (sum: nat)
    ensures forall k :: 0 <= k < |insights| ==> CountOf(insights[k].impressions) <= sum
    ensures sum == 0 <==> forall k :: 0 <= k < |insights| ==> CountOf(insights[k].impressions) == 0
    ensures |insights| == 1 ==> sum == CountOf(insights[0].impressions)
  {
    Total(insights, ImpressionsOf)
  }

  /** `totalClicks`: a single row's clicks, at least each row's clicks, 0
      exactly when no row has any. */
  function TotalClicks(insights: seq<Insight>): (sum: nat)
    ensures forall k :: 0 <= k < |insights| ==> CountOf(insights[k].clicks) <= sum
    ensures sum == 0 <==> forall k :: 0 <= k < |insights| ==> CountOf(insights[k].clicks) == 0
    ensures |insights| == 1 ==> sum == CountOf(insights[0].clicks)
  {
    Total(insights, ClicksOf)
  }

  /** Totals over two batches of rows add up. */
  lemma {:induction false} TotalAppend(a: seq<Insight>, b: seq<Insight>, field: Insight -> Option<Numeral>)
    ensures Total(a + b, field) == Total(a, field) + Total(b, field)
  {
    if |b| == 0 {
      assert a + b == a;
    } else {
      assert (a + b)[..|a + b| - 1] == a + b[..|b| - 1];
      TotalAppend(a, b[..|b| - 1], field);
    }
  }

  /** The click-through rate as shown: the text "0" when there are no
      impressions, a ratio of clicks to impressions otherwise. */
  datatype CtrText = ZeroText | Ratio(clicks: nat, impressions: nat)

  function AvgCtr(insights: seq<Insight>): (r: CtrText)
    ensures r.ZeroText? <==> TotalImpressions(insights) == 0
    ensures r.Ratio? ==> (r.impressions > 0 && r.impressions == TotalImpressions(insights)
      && r.clicks == TotalClicks(insights))
  {
    var impressions := TotalImpressions(insights);
    if impressions > 0 then Ratio(TotalClicks(insights), impressions) else ZeroText
  }

  /** Without a single counted impression the rate is the zero text, however
      many clicks there are. */
  lemma ZeroImpressionsZeroCtr(insights: seq<Insight>)
    requires forall i :: 0 <= i < |insights| ==> CountOf(insights[i].impressions) == 0
    ensures AvgCtr(insights) == ZeroText
  {
  }

  // ---------------------------------------------------------------------------
  // Campaigns

  predicate IsActive(c: Campaign) { c.status == ACTIVE }

  /** The number of campaigns with the active status. */
  function ActiveCampaigns(campaigns: seq<Campaign>): (n: nat)
    ensures n <= |campaigns|
  {
    |Filter(campaigns, IsActive)|
  }

  /** All campaigns are active exactly when the count reaches the list length. */
  lemma AllActive(campaigns: seq<Campaign>)
    ensures ActiveCampaigns(campaigns) == |campaigns| <==> forall i :: 0 <= i < |campaigns| ==> campaigns[i].status == ACTIVE
  {
    FilterKeepsAll(campaigns, IsActive);
  }

  /** The count over two lists of campaigns adds up. */
  lemma ActiveCampaignsAppend(a: seq<Campaign>, b: seq<Campaign>)
    ensures ActiveCampaigns(a + b) == ActiveCampaigns(a) + ActiveCampaigns(b)
  {
    FilterAppend(a, b, IsActive);
  }

  /** The campaign table: the first ten campaigns, or all of them when fewer. */
  function StatusTable(campaigns: seq<Campaign>): (rows: seq<Campaign>)
    ensures |rows| == if |campaigns| < 10 then |campaigns| else 10
    ensures rows == campaigns[..|rows|]
  {
    Take(campaigns, 10)
  }

  // ---------------------------------------------------------------------------
  // Chart

  /** One point of the chart (the spend series is floating point and left out). */
  datatype ChartRow = ChartRow(name: string, clicks: nat)

  /** One row per insight, in order, named after its campaign or "Unknown". */
  function ChartData(insights: seq<Insight>): (rows: seq<ChartRow>)
    ensures |rows| == |insights|
    ensures forall i :: 0 <= i < |rows| ==> rows[i].name == OrElse(insights[i].campaignName, "Unknown")
    ensures forall i :: 0 <= i < |rows| ==> rows[i].clicks == CountOf(insights[i].clicks)
  {
    seq(|insights|, i requires 0 <= i < |insights| =>
      ChartRow(OrElse(insights[i].campaignName, "Unknown"), CountOf(insights[i].clicks)))
  }

  /** The clicks plotted across the chart. */
  function ChartClicks(rows: seq<ChartRow>): nat {
    if |rows| == 0 then 0 else ChartClicks(rows[..|rows| - 1]) + rows[|rows| - 1].clicks
  }

  /** The chart plots exactly the clicks counted in the total. */
  lemma {:induction false} ChartMatchesTotal(insights: seq<Insight>)
    ensures ChartClicks(ChartData(insights)) == TotalClicks(insights)
  {
    if |insights| > 0 {
      var init := insights[..|insights| - 1];
      ChartMatchesTotal(init);
      assert ChartData(insights)[..|insights| - 1] == ChartData(init);
    }
  }
}
