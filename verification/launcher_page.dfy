/** The campaign launcher (app/launcher/page.tsx): a form with a campaign
    name, an objective, a daily budget and a set of landing pages; launching
    creates one paused campaign and then one ad set per selected page. */
module LauncherPage {
  import opened Common

  const AdvertorialPages: seq<string> :=
    ["burnout-my-story", "burnout-case-study", "identity-shift", "founders-guide"]

  const Objectives: seq<string> :=
    ["OUTCOME_TRAFFIC", "OUTCOME_ENGAGEMENT", "OUTCOME_LEADS", "OUTCOME_SALES"]

  const DefaultBudget := "50"

  // ---------------------------------------------------------------------------
  // Page selection

  /** Every page other than `page`. */
  function OtherThan(page: string): string -> bool {
    (p: string) => p != page
  }

  /** `handlePageToggle`: a selected page is removed, any other page is
      appended at the end. */
  function TogglePage(selected: seq<string>, page: string): (r: seq<string>)
    ensures page in selected ==> page !in r && r == Filter(selected, OtherThan(page))
    ensures page !in selected ==> r == selected + [page]
  {
    if page in selected then
      var r := Filter(selected, OtherThan(page));
      assert forall i :: 0 <= i < |r| ==> r[i] != page;
      r
    else selected + [page]
  }

  /** After a toggle the page is selected exactly when it was not before, and
      every other page keeps its membership. */
  lemma ToggleMembership(selected: seq<string>, page: string, other: string)
    requires other != page
    ensures page in TogglePage(selected, page) <==> page !in selected
    ensures other in TogglePage(selected, page) <==> other in selected
  {
    if page in selected {
      var r := TogglePage(selected, page);
      if other in selected {
        var k :| 0 <= k < |selected| && selected[k] == other;
        assert OtherThan(page)(selected[k]);
      }
      if other in r {
        var k :| 0 <= k < |r| && r[k] == other;
      }
    }
  }

  /** The selection never holds a page twice. */
  lemma ToggleKeepsNoDuplicates(selected: seq<string>, page: string)
    requires NoDuplicates(selected)
    ensures NoDuplicates(TogglePage(selected, page))
  {
    if page in selected {
      FilterNoDuplicates(selected, OtherThan(page));
    }
  }

  /** Toggling a page that was not selected, twice, gives back the selection. */
  lemma ToggleTwiceUnselected(selected: seq<string>, page: string)
    requires page !in selected
    ensures TogglePage(TogglePage(selected, page), page) == selected
  {
    FilterAppend(selected, [page], OtherThan(page));
    FilterAll(selected, OtherThan(page));
    assert Filter([page], OtherThan(page)) == [];
  }

  /** Toggling a selected page twice keeps the same pages but moves that one
      to the end. */
  lemma ToggleTwiceSelected(selected: seq<string>, page: string)
    requires page in selected
    ensures TogglePage(TogglePage(selected, page), page) == Filter(selected, OtherThan(page)) + [page]
  {
  }

  /** Toggling pages offered by the form keeps the selection within those
      pages, each at most once. */
  lemma ToggleStaysWithinPages(selected: seq<string>, page: string)
    requires NoDuplicates(selected) && forall i :: 0 <= i < |selected| ==> selected[i] in AdvertorialPages
    requires page in AdvertorialPages
    ensures NoDuplicates(TogglePage(selected, page))
    ensures forall i :: 0 <= i < |TogglePage(selected, page)| ==> TogglePage(selected, page)[i] in AdvertorialPages
  {
    ToggleKeepsNoDuplicates(selected, page);
  }

  /** So the selection is restored exactly only up to order. */
  lemma ToggleTwiceReorders()
    ensures TogglePage(TogglePage(["burnout-my-story", "identity-shift"], "burnout-my-story"), "burnout-my-story")
         == ["identity-shift", "burnout-my-story"]
  {
    var sel := ["burnout-my-story", "identity-shift"];
    var once := TogglePage(sel, "burnout-my-story");
    assert Filter(sel[1..][1..], OtherThan("burnout-my-story")) == [];
    assert once == ["identity-shift"];
  }

  // ---------------------------------------------------------------------------
  // Launch plan

  /** The calls the page makes to the dashboard's own endpoints. The budget
      goes out as the form's text (its `parseFloat` is left out). */
  datatype Call =
    | CreateCampaign(name: string, objective: string, status: string)
    | CreateAdSet(campaignId: string, name: string, dailyBudget: string, targeting: Json)

  /** The audience of every ad set: United States, ages 25 to 65. */
  const UsTargeting: Json :=
    JObj([("geo_locations", JObj([("countries", JArr([JStr("US")]))])),
          ("age_min", JNum(25)), ("age_max", JNum(65))])

  /** The name of the ad set for one page. */
  function AdSetName(campaignName: string, page: string): (n: string)
    ensures |n| == |campaignName| + 3 + |page|
    ensures n[..|campaignName|] == campaignName && n[|campaignName|..|campaignName| + 3] == " - "
    ensures n[|campaignName| + 3..] == page
  {
    campaignName + " - " + page
  }

  /** Different pages give different ad-set names. */
  lemma AdSetNameInjective(campaignName: string, p: string, q: string)
    requires AdSetName(campaignName, p) == AdSetName(campaignName, q)
    ensures p == q
  {
    assert p == AdSetName(campaignName, p)[|campaignName| + 3..];
  }

  /** One ad-set call per selected page, in selection order, all on the new
      campaign with the same budget and audience. */
  function AdSetCalls(campaignId: string, campaignName: string, dailyBudget: string, pages: seq<string>): (calls: seq<Call>)
    ensures |calls| == |pages|
    ensures forall i :: 0 <= i < |calls| ==>
      calls[i] == CreateAdSet(campaignId, AdSetName(campaignName, pages[i]), dailyBudget, UsTargeting)
  {
    seq(|pages|, i requires 0 <= i < |pages| =>
      CreateAdSet(campaignId, AdSetName(campaignName, pages[i]), dailyBudget, UsTargeting))
  }

  /** With a duplicate-free selection, no two ad sets share a name. */
  lemma AdSetNamesDistinct(campaignId: string, campaignName: string, dailyBudget: string, pages: seq<string>)
    requires NoDuplicates(pages)
    ensures forall i, j :: 0 <= i < j < |pages| ==>
      AdSetCalls(campaignId, campaignName, dailyBudget, pages)[i].name
        != AdSetCalls(campaignId, campaignName, dailyBudget, pages)[j].name
  {
    var calls := AdSetCalls(campaignId, campaignName, dailyBudget, pages);
    forall i, j | 0 <= i < j < |pages| ensures calls[i].name != calls[j].name {
      if calls[i].name == calls[j].name {
        AdSetNameInjective(campaignName, pages[i], pages[j]);
        assert false;
      }
    }
  }

  // ---------------------------------------------------------------------------
  // Validation and outcome

  const NameAlert := "Please enter a campaign name"
  const PagesAlert := "Please select at least one landing page"

  /** A name of white space alone, or empty: exactly the names for which
      `!campaignName.trim()` holds. */
  predicate Blank(campaignName: string)
    ensures Blank(campaignName) <==> Trim(campaignName) == ""
  {
    TrimEmpty(campaignName);
    forall i :: 0 <= i < |campaignName| ==> IsJsWhitespace(campaignName[i])
  }

  /** The alert that stops a launch before any call, if any: a blank name
      first, then an empty selection. */
  function Validate(campaignName: string, pages: seq<string>): (alert: Option<string>)
    ensures Blank(campaignName) ==> alert == Some(NameAlert)
    ensures !Blank(campaignName) && |pages| == 0 ==> alert == Some(PagesAlert)
    ensures alert.None? <==> !Blank(campaignName) && |pages| > 0
  {
    if Blank(campaignName) then Some(NameAlert)
    else if |pages| == 0 then Some(PagesAlert)
    else None
  }

  /** A name with a single visible character passes the name check. */
  lemma VisibleNameAccepted(campaignName: string, pages: seq<string>, k: nat)
    requires k < |campaignName| && !IsJsWhitespace(campaignName[k]) && |pages| > 0
    ensures Validate(campaignName, pages).None?
  {
  }

  /** How the campaign call ended: it threw (network failure, unreadable
      reply), or it answered with an ok flag and the new campaign's id. */
  datatype CampaignReply = CampaignThrew(message: string) | CampaignAnswered(ok: bool, campaignId: string)

  /** The banner shown after a launch. */
  datatype LaunchResult = LaunchResult(success: bool, message: string)

  const CampaignFailed := "Failed to create campaign"

  function ErrorMessage(m: string): string {
    "\U{274C} Error: " + m
  }

  function SuccessMessage(campaignName: string, count: nat): string {
    "\U{2705} Campaign \"" + campaignName + "\" created successfully with " + NatToString(count) + " ad sets!"
  }

  /** The banner for a launch that passed validation. `adSetFailure` is the
      message of an ad-set call that threw, if any did; the status of an
      ad-set answer is never looked at. */
  function Outcome(campaignName: string, pages: seq<string>, reply: CampaignReply, adSetFailure: Option<string>): (r: LaunchResult)
    ensures r.success <==> reply.CampaignAnswered? && reply.ok && adSetFailure.None?
    ensures r.success ==> r.message == SuccessMessage(campaignName, |pages|)
    ensures reply.CampaignThrew? ==> r.message == ErrorMessage(reply.message)
    ensures reply.CampaignAnswered? && !reply.ok ==> r.message == ErrorMessage(CampaignFailed)
    ensures reply.CampaignAnswered? && reply.ok && adSetFailure.Some? ==>
      r.message == ErrorMessage(adSetFailure.value)
  {
    match reply
    case CampaignThrew(m) => LaunchResult(false, ErrorMessage(m))
    case CampaignAnswered(ok, _) =>
      if !ok then LaunchResult(false, ErrorMessage(CampaignFailed))
      else if adSetFailure.Some? then LaunchResult(false, ErrorMessage(adSetFailure.value))
      else LaunchResult(true, SuccessMessage(campaignName, |pages|))
  }

  /** The calls a launch that passed validation makes: the paused campaign
      first, then the ad sets only once the campaign call answered ok. */
  function LaunchCalls(campaignName: string, objective: string, dailyBudget: string, pages: seq<string>, reply: CampaignReply): (calls: seq<Call>)
    ensures |calls| > 0 && calls[0] == CreateCampaign(campaignName, objective, "PAUSED")
    ensures reply.CampaignAnswered? && reply.ok ==>
      calls[1..] == AdSetCalls(reply.campaignId, campaignName, dailyBudget, pages)
    ensures !(reply.CampaignAnswered? && reply.ok) ==> |calls| == 1
  {
    [CreateCampaign(campaignName, objective, "PAUSED")]
      + if reply.CampaignAnswered? && reply.ok then AdSetCalls(reply.campaignId, campaignName, dailyBudget, pages) else []
  }

  /** The success banner's count reads back as the number of ad sets requested. */
  lemma SuccessCountsAdSets(campaignName: string, objective: string, dailyBudget: string, pages: seq<string>, campaignId: string)
    ensures var calls := LaunchCalls(campaignName, objective, dailyBudget, pages, CampaignAnswered(true, campaignId));
      Outcome(campaignName, pages, CampaignAnswered(true, campaignId), None).message
        == SuccessMessage(campaignName, |calls| - 1)
  {
  }

  // ---------------------------------------------------------------------------
  // The form

  class LauncherForm {
    var campaignName: string
    var objective: string
    var dailyBudget: string
    var selectedPages: seq<string>
    var creating: bool
    var result: Option<LaunchResult>
    /** Every call made, in order. */
    var calls: seq<Call>
    var alerts: seq<string>

    constructor ()
      ensures campaignName == "" && objective == "OUTCOME_TRAFFIC" && dailyBudget == DefaultBudget
      ensures selectedPages == [] && !creating && result.None? && calls == [] && alerts == []
    {
      campaignName := "";
      objective := Objectives[0];
      dailyBudget := DefaultBudget;
      selectedPages := [];
      creating := false;
      result := None;
      calls := [];
      alerts := [];
    }

    method HandlePageToggle(page: string)
      modifies this
      ensures selectedPages == TogglePage(old(selectedPages), page)
      ensures campaignName == old(campaignName) && objective == old(objective) && dailyBudget == old(dailyBudget)
      ensures creating == old(creating) && result == old(result) && calls == old(calls) && alerts == old(alerts)
    {
      selectedPages := TogglePage(selectedPages, page);
    }

    /** `handleLaunch`, given how the campaign call and the ad-set calls end:
        an alert and nothing else when the form is not valid, the launch
        otherwise. */
    method HandleLaunch(reply: CampaignReply, adSetFailure: Option<string>)
      modifies this
      ensures objective == old(objective)
      ensures Validate(old(campaignName), old(selectedPages)).Some? ==>
        alerts == old(alerts) + [Validate(old(campaignName), old(selectedPages)).value]
        && calls == old(calls) && result == old(result) && creating == old(creating)
        && campaignName == old(campaignName) && selectedPages == old(selectedPages) && dailyBudget == old(dailyBudget)
      ensures Validate(old(campaignName), old(selectedPages)).None? ==>
        alerts == old(alerts) && !creating
        && calls == old(calls) + LaunchCalls(old(campaignName), objective, old(dailyBudget), old(selectedPages), reply)
        && result == Some(Outcome(old(campaignName), old(selectedPages), reply, adSetFailure))
        && (result.value.success ==> campaignName == "" && selectedPages == [] && dailyBudget == DefaultBudget)
        && (!result.value.success ==>
              campaignName == old(campaignName) && selectedPages == old(selectedPages) && dailyBudget == old(dailyBudget))
    {
      var alert := Validate(campaignName, selectedPages);
      if alert.Some? {
        alerts := alerts + [alert.value];
        return;
      }
      Launch(reply, adSetFailure);
    }

    /** The launch proper: the calls are made in order, the banner is set and,
        on success, the form is cleared; `creating` is down again at the end. */
    method Launch(reply: CampaignReply, adSetFailure: Option<string>)
      modifies this
      ensures objective == old(objective) && alerts == old(alerts) && !creating
      ensures calls == old(calls) + LaunchCalls(old(campaignName), objective, old(dailyBudget), old(selectedPages), reply)
      ensures result == Some(Outcome(old(campaignName), old(selectedPages), reply, adSetFailure))
      ensures result.value.success ==> campaignName == "" && selectedPages == [] && dailyBudget == DefaultBudget
      ensures !result.value.success ==>
        campaignName == old(campaignName) && selectedPages == old(selectedPages) && dailyBudget == old(dailyBudget)
    {
      creating := true;
      result := None;
      var name, pages := campaignName, selectedPages;
      calls := calls + LaunchCalls(name, objective, dailyBudget, pages, reply);
      var outcome := Outcome(name, pages, reply, adSetFailure);
      result := Some(outcome);
      if outcome.success {
        campaignName := "";
        selectedPages := [];
        dailyBudget := DefaultBudget;
      }
      creating := false;
    }
  }
}
