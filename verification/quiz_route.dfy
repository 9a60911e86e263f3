/** The quiz-funnel endpoint (app/api/funnel/quiz/route.ts): a fixed mock
    dataset of funnel groups, narrowed by up to three optional equality filters,
    returned with the distinct campaign, ad-set and ad names of the whole
    dataset for the page's selectors. */
module QuizRoute {
  import opened Common

  datatype FunnelStep = FunnelStep(step: string, count: int)

  /** One (campaign, ad set, ad) group with its ordered funnel steps. */
  datatype FunnelGroup = FunnelGroup(campaign: string, adSet: string, adName: string, steps: seq<FunnelStep>)

  /** The single group the endpoint serves in place of real event data. */
  const MockFunnelData: seq<FunnelGroup> := [
    FunnelGroup("Test Campaign", "Test Ad Set", "Test Ad", [
      FunnelStep("landing", 1000),
      FunnelStep("q1", 850),
      FunnelStep("q2", 720),
      FunnelStep("q3", 650),
      FunnelStep("q4", 600),
      FunnelStep("q5", 550),
      FunnelStep("email_submit", 500),
      FunnelStep("lovable_view", 480),
      FunnelStep("checkout_init", 120),
      FunnelStep("purchase", 45)
    ])
  ]

  /** The `campaign`, `adSet` and `adName` query parameters; None when absent. */
  datatype FunnelQuery = FunnelQuery(campaign: Option<string>, adSet: Option<string>, adName: Option<string>)

  datatype FunnelResponse = FunnelResponse(
    funnel: seq<FunnelGroup>,
    campaigns: seq<string>,
    adSets: seq<string>,
    adNames: seq<string>)

  /** A filter value takes effect when it is truthy and not "all". */
  predicate Applies(v: Option<string>) {
    Truthy(v) && v.value != "all"
  }

  /** `field` passes the filter `v`. */
  predicate Admits(v: Option<string>, field: string) {
    !Applies(v) || field == v.value
  }

  /** The conjunction of the three filters of `q`. */
  predicate Selected(q: FunnelQuery, g: FunnelGroup) {
    Admits(q.campaign, g.campaign) && Admits(q.adSet, g.adSet) && Admits(q.adName, g.adName)
  }

  function SelectionOf(q: FunnelQuery): FunnelGroup -> bool {
    (g: FunnelGroup) => Selected(q, g)
  }

  /** The single-field conditions of `filter(f => f.campaign === v)` and its siblings. */
  function CampaignIs(v: string): FunnelGroup -> bool { (g: FunnelGroup) => g.campaign == v }
  function AdSetIs(v: string): FunnelGroup -> bool { (g: FunnelGroup) => g.adSet == v }
  function AdNameIs(v: string): FunnelGroup -> bool { (g: FunnelGroup) => g.adName == v }

  function CampaignOf(g: FunnelGroup): string { g.campaign }
  function AdSetOf(g: FunnelGroup): string { g.adSet }
  function AdNameOf(g: FunnelGroup): string { g.adName }

  /** The funnel the endpoint returns for `q` over `data`: exactly the groups
      that pass every filter that applies, in the dataset's order. */
  function FunnelFor(data: seq<FunnelGroup>, q: FunnelQuery): (funnel: seq<FunnelGroup>)
    ensures forall i :: 0 <= i < |funnel| ==> Selected(q, funnel[i])
    ensures forall i :: 0 <= i < |data| ==> (data[i] in funnel <==> Selected(q, data[i]))
    ensures IsSubsequence(funnel, data)
    ensures forall g :: multiset(funnel)[g] == if Selected(q, g) then multiset(data)[g] else 0
  {
    FilterIsSubsequence(data, SelectionOf(q));
    FilterMultiset(data, SelectionOf(q));
    Filter(data, SelectionOf(q))
  }

  /** The filters of `q` up to and including the campaign, and up to and
      including the ad set. */
  function UpToCampaign(q: FunnelQuery): FunnelQuery { FunnelQuery(q.campaign, None, None) }
  function UpToAdSet(q: FunnelQuery): FunnelQuery { FunnelQuery(q.campaign, q.adSet, None) }

  lemma CampaignStep(data: seq<FunnelGroup>, q: FunnelQuery)
    ensures FunnelFor(data, UpToCampaign(q)) ==
      if Applies(q.campaign) then Filter(data, CampaignIs(q.campaign.value)) else data
  {
    if Applies(q.campaign) {
      FilterSameCondition(data, SelectionOf(UpToCampaign(q)), CampaignIs(q.campaign.value));
    } else {
      FilterAll(data, SelectionOf(UpToCampaign(q)));
    }
  }

  lemma AdSetStep(data: seq<FunnelGroup>, q: FunnelQuery)
    ensures FunnelFor(data, UpToAdSet(q)) ==
      var before := FunnelFor(data, UpToCampaign(q));
      if Applies(q.adSet) then Filter(before, AdSetIs(q.adSet.value)) else before
  {
    if Applies(q.adSet) {
      FilterFilter(data, SelectionOf(UpToCampaign(q)), AdSetIs(q.adSet.value), SelectionOf(UpToAdSet(q)));
    } else {
      FilterSameCondition(data, SelectionOf(UpToCampaign(q)), SelectionOf(UpToAdSet(q)));
    }
  }

  lemma AdNameStep(data: seq<FunnelGroup>, q: FunnelQuery)
    ensures FunnelFor(data, q) ==
      var before := FunnelFor(data, UpToAdSet(q));
      if Applies(q.adName) then Filter(before, AdNameIs(q.adName.value)) else before
  {
    if Applies(q.adName) {
      FilterFilter(data, SelectionOf(UpToAdSet(q)), AdNameIs(q.adName.value), SelectionOf(q));
    } else {
      FilterSameCondition(data, SelectionOf(UpToAdSet(q)), SelectionOf(q));
    }
  }

  /** Answers a request. The dataset is a parameter; the deployed route serves
      `MockFunnelData`. The filtered list is narrowed step by step, one filter
      at a time; the option lists come from the unfiltered data. */
  method Get(data: seq<FunnelGroup>, q: FunnelQuery) returns (resp: FunnelResponse)
    ensures resp.funnel == FunnelFor(data, q)
    ensures resp.campaigns == Unique(Project(data, CampaignOf))
    ensures resp.adSets == Unique(Project(data, AdSetOf))
    ensures resp.adNames == Unique(Project(data, AdNameOf))
  {
    var campaigns := Unique(Project(data, CampaignOf));
    var adSets := Unique(Project(data, AdSetOf));
    var adNames := Unique(Project(data, AdNameOf));

    var filteredData := data;
    if Applies(q.campaign) {
      filteredData := Filter(filteredData, CampaignIs(q.campaign.value));
    }
    CampaignStep(data, q);
    if Applies(q.adSet) {
      filteredData := Filter(filteredData, AdSetIs(q.adSet.value));
    }
    AdSetStep(data, q);
    if Applies(q.adName) {
      filteredData := Filter(filteredData, AdNameIs(q.adName.value));
    }
    AdNameStep(data, q);
    resp := FunnelResponse(filteredData, campaigns, adSets, adNames);
  }

  /** Absent, empty and "all" filters leave the data unchanged. */
  lemma NoFilterKeepsAll(data: seq<FunnelGroup>, q: FunnelQuery)
    requires !Applies(q.campaign) && !Applies(q.adSet) && !Applies(q.adName)
    ensures FunnelFor(data, q) == data
  {
    FilterAll(data, SelectionOf(q));
  }

  lemma CampaignListed(data: seq<FunnelGroup>, g: FunnelGroup)
    requires g in data
    ensures g.campaign in Project(data, CampaignOf)
  {
    var i :| 0 <= i < |data| && data[i] == g;
    assert Project(data, CampaignOf)[i] == g.campaign;
  }

  /** A campaign filter naming no campaign of the data empties the funnel. */
  lemma UnknownCampaignEmptiesFunnel(data: seq<FunnelGroup>, q: FunnelQuery)
    requires Applies(q.campaign)
    requires q.campaign.value !in Project(data, CampaignOf)
    ensures FunnelFor(data, q) == []
  {
    if |FunnelFor(data, q)| > 0 {
      CampaignListed(data, FunnelFor(data, q)[0]);
      assert false;
    }
  }

  /** Each option list is empty only when the data is. */
  lemma OptionsEmptyOnlyForNoData(data: seq<FunnelGroup>)
    ensures |Unique(Project(data, CampaignOf))| == 0 <==> |data| == 0
    ensures |Unique(Project(data, AdSetOf))| == 0 <==> |data| == 0
    ensures |Unique(Project(data, AdNameOf))| == 0 <==> |data| == 0
  {
    UniqueOfEmpty(Project(data, CampaignOf));
    UniqueOfEmpty(Project(data, AdSetOf));
    UniqueOfEmpty(Project(data, AdNameOf));
  }

  /** On the mock dataset, a campaign other than "Test Campaign" yields no
      groups while every option list still offers the mock's one value. */
  lemma MockUnknownCampaign(q: FunnelQuery)
    requires Applies(q.campaign) && q.campaign.value != "Test Campaign"
    ensures FunnelFor(MockFunnelData, q) == []
    ensures Unique(Project(MockFunnelData, CampaignOf)) == ["Test Campaign"]
    ensures Unique(Project(MockFunnelData, AdSetOf)) == ["Test Ad Set"]
    ensures Unique(Project(MockFunnelData, AdNameOf)) == ["Test Ad"]
  {
    assert Project(MockFunnelData, CampaignOf) == ["Test Campaign"];
    assert Project(MockFunnelData, AdSetOf) == ["Test Ad Set"];
    assert Project(MockFunnelData, AdNameOf) == ["Test Ad"];
    UnknownCampaignEmptiesFunnel(MockFunnelData, q);
  }

  /** Filtering the mock by its own campaign name returns the mock unchanged. */
  lemma MockTestCampaign()
    ensures FunnelFor(MockFunnelData, FunnelQuery(Some("Test Campaign"), None, None)) == MockFunnelData
  {
    FilterAll(MockFunnelData, SelectionOf(FunnelQuery(Some("Test Campaign"), None, None)));
  }

  /** The mock's counts never grow from one step to a later one. */
  lemma MockStepsNonIncreasing()
    ensures forall i, j :: 0 <= i <= j < |MockFunnelData[0].steps| ==>
      MockFunnelData[0].steps[i].count >= MockFunnelData[0].steps[j].count
  {
  }
}
