/** The campaigns page (app/ads/page.tsx): it joins campaigns with their
    insight rows by campaign id, pauses or resumes a campaign, and shows 0
    for a campaign without insights. */
module AdsPage {
  import opened Common
  import opened Types

  // ---------------------------------------------------------------------------
  // The insights map

  /** The campaign id an insight is filed under: its id when that is non-empty. */
  predicate FiledUnder(insight: Insight, key: string) {
    Truthy(insight.campaignId) && insight.campaignId.value == key
  }

  /** The last insight filed under `key`, or None when there is none. */
  function LastInsightFor(insights: seq<Insight>, key: string): (r: Option<Insight>)
    ensures r.None? <==> forall i :: 0 <= i < |insights| ==> !FiledUnder(insights[i], key)
    ensures r.Some? ==> exists i :: (0 <= i < |insights| && insights[i] == r.value && FiledUnder(insights[i], key)
      && forall j :: i < j < |insights| ==> !FiledUnder(insights[j], key))
  {
    if |insights| == 0 then None
    else if FiledUnder(insights[|insights| - 1], key) then Some(insights[|insights| - 1])
    else
      var r := LastInsightFor(insights[..|insights| - 1], key);
      assert forall i :: 0 <= i < |insights| - 1 ==> insights[..|insights| - 1][i] == insights[i];
      r
  }

  /** `m` is the map the page builds from `insights`. */
  ghost predicate IsInsightsMap(m: map<string, Insight>, insights: seq<Insight>) {
    forall key :: (key in m <==> LastInsightFor(insights, key).Some?)
      && (key in m ==> LastInsightFor(insights, key) == Some(m[key]))
  }

  /** The map is built by filing every insight with a non-empty campaign id
      under that id, in order, each one replacing what was there. */
  method BuildInsightsMap(insights: seq<Insight>) returns (m: map<string, Insight>)
    ensures IsInsightsMap(m, insights)
    ensures forall key :: key in m ==> key != ""
  {
    m := map[];
    var i := 0;
    while i < |insights|
      invariant 0 <= i <= |insights|
      invariant IsInsightsMap(m, insights[..i])
      invariant forall key :: key in m ==> key != ""
    {
      var insight := insights[i];
      assert insights[..i + 1][..i] == insights[..i];
      if Truthy(insight.campaignId) {
        m := m[insight.campaignId.value := insight];
      }
      i := i + 1;
    }
    assert insights[..i] == insights;
  }

  /** An insight no later insight shares a campaign id with is the one the
      map keeps for that id, whatever came before it. */
  lemma {:induction false} LaterInsightWins(insights: seq<Insight>, j: nat, m: map<string, Insight>)
    requires j < |insights| && IsInsightsMap(m, insights)
    requires Truthy(insights[j].campaignId)
    requires forall k :: j < k < |insights| ==> insights[k].campaignId != insights[j].campaignId
    ensures insights[j].campaignId.value in m
    ensures m[insights[j].campaignId.value] == insights[j]
  {
    var key := insights[j].campaignId.value;
    var r := LastInsightFor(insights, key);
    assert FiledUnder(insights[j], key);
    var w :| 0 <= w < |insights| && insights[w] == r.value && FiledUnder(insights[w], key)
      && forall v :: w < v < |insights| ==> !FiledUnder(insights[v], key);
    assert w == j;
  }

  // ---------------------------------------------------------------------------
  // Pausing and resuming

  /** The status a toggle asks for: paused when active, active otherwise. */
  function NextStatus(current: Status): (next: Status)
    ensures next == PAUSED <==> current == ACTIVE
    ensures next == ACTIVE <==> current != ACTIVE
  {
    if current == ACTIVE then PAUSED else ACTIVE
  }

  /** From active or paused, two toggles come back to the start. */
  lemma ToggleTwice(s: Status)
    requires s == ACTIVE || s == PAUSED
    ensures NextStatus(NextStatus(s)) == s
  {
  }

  /** A deleted or archived campaign is first resumed, so two toggles end
      paused rather than where they started. */
  lemma ToggleTwiceFromDeleted()
    ensures NextStatus(DELETED) == ACTIVE && NextStatus(NextStatus(DELETED)) == PAUSED
    ensures NextStatus(ARCHIVED) == ACTIVE && NextStatus(NextStatus(ARCHIVED)) == PAUSED
  {
  }

  /** The local patch: every campaign with the given id gets the new status;
      everything else, and the length and order of the list, stays. */
  function ApplyStatus(campaigns: seq<Campaign>, id: string, status: Status): (r: seq<Campaign>)
    ensures |r| == |campaigns|
    ensures forall i :: 0 <= i < |r| && campaigns[i].id != id ==> r[i] == campaigns[i]
    ensures forall i :: 0 <= i < |r| && campaigns[i].id == id ==>
      r[i].status == status && r[i].id == id && r[i].name == campaigns[i].name
      && r[i].dailyBudget == campaigns[i].dailyBudget && r[i].objective == campaigns[i].objective
  {
    seq(|campaigns|, i requires 0 <= i < |campaigns| =>
      if campaigns[i].id == id then campaigns[i].(status := status) else campaigns[i])
  }

  /** A second patch of the same campaign overrides the first. */
  lemma ApplyStatusTwice(campaigns: seq<Campaign>, id: string, s1: Status, s2: Status)
    ensures ApplyStatus(ApplyStatus(campaigns, id, s1), id, s2) == ApplyStatus(campaigns, id, s2)
  {
    var a := ApplyStatus(ApplyStatus(campaigns, id, s1), id, s2);
    var b := ApplyStatus(campaigns, id, s2);
    assert forall i :: 0 <= i < |a| ==> a[i] == b[i];
  }

  /** Patching a campaign back to the status it already has changes nothing. */
  lemma ApplyOwnStatus(campaigns: seq<Campaign>, i: nat)
    requires i < |campaigns|
    requires forall j :: 0 <= j < |campaigns| && campaigns[j].id == campaigns[i].id ==> j == i
    ensures ApplyStatus(campaigns, campaigns[i].id, campaigns[i].status) == campaigns
  {
    var r := ApplyStatus(campaigns, campaigns[i].id, campaigns[i].status);
    assert forall j :: 0 <= j < |r| ==> r[j] == campaigns[j];
  }

  // ---------------------------------------------------------------------------
  // Table cells

  /** A count as the table shows it: a number, or NaN when the text is not a
      number at all. */
  datatype Cell = Shown(n: nat) | NotANumber

  /** `parseInt` of a count field: the empty or missing text is not a number. */
  function ParseCount(field: Option<Numeral>): (c: Cell)
    ensures c.NotANumber? <==> field.None? || field.value == ""
    ensures c.Shown? ==> c.n == NumeralValue(field.value)
  {
    if field.None? || field.value == "" then NotANumber else Shown(NumeralValue(field.value))
  }

  /** The impressions cell of a campaign's row: 0 without an insight. */
  function ImpressionsCell(insights: map<string, Insight>, c: Campaign): (cell: Cell)
    ensures c.id !in insights ==> cell == Shown(0)
    ensures c.id in insights ==> cell == ParseCount(insights[c.id].impressions)
  {
    if c.id in insights then ParseCount(insights[c.id].impressions) else Shown(0)
  }

  /** The clicks cell of a campaign's row: 0 without an insight. */
  function ClicksCell(insights: map<string, Insight>, c: Campaign): (cell: Cell)
    ensures c.id !in insights ==> cell == Shown(0)
    ensures c.id in insights ==> cell == ParseCount(insights[c.id].clicks)
  {
    if c.id in insights then ParseCount(insights[c.id].clicks) else Shown(0)
  }

  /** A campaign whose id no insight carries shows zero impressions and clicks. */
  lemma NoInsightShowsZero(insights: seq<Insight>, m: map<string, Insight>, c: Campaign)
    requires IsInsightsMap(m, insights)
    requires forall i :: 0 <= i < |insights| ==> insights[i].campaignId != Some(c.id)
    ensures ImpressionsCell(m, c) == Shown(0) && ClicksCell(m, c) == Shown(0)
  {
    assert LastInsightFor(insights, c.id).None?;
  }

  /** A campaign with an insight shows the counts of its last insight. */
  lemma LastInsightShown(insights: seq<Insight>, m: map<string, Insight>, c: Campaign)
    requires IsInsightsMap(m, insights)
    requires LastInsightFor(insights, c.id).Some?
    ensures ImpressionsCell(m, c) == ParseCount(LastInsightFor(insights, c.id).value.impressions)
    ensures ClicksCell(m, c) == ParseCount(LastInsightFor(insights, c.id).value.clicks)
  {
  }

  // ---------------------------------------------------------------------------
  // Page state

  /** One page-internal list fetch: it threw, or it returned a JSON body whose
      list may be missing. */
  datatype ListFetch<T> = FetchThrew | Fetched(list: Option<seq<T>>)

  /** The reply to the status PATCH: it threw, or it came back ok or not. */
  datatype PatchReply = PatchThrew | PatchAnswered(ok: bool)

  const UpdateFailedAlert := "Failed to update campaign status"

  class AdsView {
    var campaigns: seq<Campaign>
    var insights: map<string, Insight>
    var loading: bool
    var updating: Option<string>
    /** The status changes sent, as (campaign id, new status), in order. */
    var patches: seq<(string, Status)>
    var alerts: seq<string>

    constructor ()
      ensures campaigns == [] && insights == map[] && loading && updating.None?
      ensures patches == [] && alerts == []
    {
      campaigns := [];
      insights := map[];
      loading := true;
      updating := None;
      patches := [];
      alerts := [];
    }

    /** Reads the campaigns and the last seven days of insights. Nothing is
        replaced unless both reads complete; loading ends either way. */
    method FetchData(campaignsReply: ListFetch<Campaign>, insightsReply: ListFetch<Insight>)
      modifies this
      ensures !loading
      ensures updating == old(updating) && patches == old(patches) && alerts == old(alerts)
      ensures campaignsReply.Fetched? && insightsReply.Fetched? ==>
        campaigns == OrEmpty(campaignsReply.list) && IsInsightsMap(insights, OrEmpty(insightsReply.list))
      ensures campaignsReply.FetchThrew? || insightsReply.FetchThrew? ==>
        campaigns == old(campaigns) && insights == old(insights)
    {
      loading := true;
      if campaignsReply.Fetched? && insightsReply.Fetched? {
        campaigns := OrEmpty(campaignsReply.list);
        var m := BuildInsightsMap(OrEmpty(insightsReply.list));
        insights := m;
      }
      loading := false;
    }

    /** Asks for the toggled status of a campaign. The list is patched only
        when the answer is ok; a thrown request raises an alert; the row is no
        longer marked as updating at the end. */
    method ToggleCampaignStatus(campaignId: string, currentStatus: Status, reply: PatchReply)
      modifies this
      ensures patches == old(patches) + [(campaignId, NextStatus(currentStatus))]
      ensures reply == PatchAnswered(true) ==> campaigns == ApplyStatus(old(campaigns), campaignId, NextStatus(currentStatus))
      ensures reply != PatchAnswered(true) ==> campaigns == old(campaigns)
      ensures reply.PatchThrew? ==> alerts == old(alerts) + [UpdateFailedAlert]
      ensures !reply.PatchThrew? ==> alerts == old(alerts)
      ensures updating.None?
      ensures insights == old(insights) && loading == old(loading)
    {
      updating := Some(campaignId);
      var newStatus := NextStatus(currentStatus);
      patches := patches + [(campaignId, newStatus)];
      match reply {
        case PatchThrew =>
          alerts := alerts + [UpdateFailedAlert];
        case PatchAnswered(ok) =>
          if ok {
            campaigns := ApplyStatus(campaigns, campaignId, newStatus);
          }
      }
      updating := None;
    }
  }
}
