/** The advertising-platform client (lib/meta-api.ts), reduced to the requests
    it issues and to what it makes of the replies. The client holds an access
    token and an ad-account id, set once at construction and only read. */
module MetaApi {
  import opened Common
  import opened Types

  const ApiBase := "https://graph.facebook.com/v21.0"

  const CampaignFields := "id,name,status,daily_budget,lifetime_budget,objective,created_time"
  const AdSetFields := "id,name,campaign_id,status,daily_budget,lifetime_budget,targeting"
  const AdFields := "id,name,adset_id,status,creative{id,title,body,image_url}"
  const InsightFields := "campaign_id,campaign_name,spend,impressions,clicks,ctr,cpc,cpm,actions,action_values,purchase_roas"

  const DefaultDatePreset := "last_7d"

  /** The query parameters of a read. */
  datatype Query =
    | ListQuery(fields: string, limit: int)
    | PresetInsightsQuery(fields: string, datePreset: string, level: string, limit: int)
    | RangeInsightsQuery(fields: string, timeRange: Json, level: string, timeIncrement: int, limit: int)

  /** The JSON body of a write. */
  datatype Body =
    | StatusUpdate(status: string)
    | BudgetUpdate(dailyBudget: int)
    | NewCampaign(name: string, objective: string, status: string, specialAdCategories: seq<Json>)
    | NewAdSet(name: string, campaignId: string, dailyBudget: int, billingEvent: string,
               optimizationGoal: string, targeting: Json, status: string, startTime: string)

  /** One outgoing call: a read with query parameters or a write with a body,
      both carrying the client's headers. */
  datatype Request =
    | Get(url: string, headers: seq<(string, string)>, query: Query)
    | Post(url: string, headers: seq<(string, string)>, body: Body)

  /** The client's configuration. */
  datatype MetaAdsApi = MetaAdsApi(accessToken: string, adAccountId: string)

  /** `getHeaders`: bearer authorization with the access token, JSON content. */
  function Headers(api: MetaAdsApi): (h: seq<(string, string)>)
    ensures Lookup(h, "Authorization") == Some("Bearer " + api.accessToken)
    ensures Lookup(h, "Content-Type") == Some("application/json")
    ensures Keys(h) == ["Authorization", "Content-Type"]
  {
    [("Authorization", "Bearer " + api.accessToken), ("Content-Type", "application/json")]
  }

  /** The address of an object of the graph: the API base, then its id. */
  function Node(id: string): (url: string)
    ensures |url| > |ApiBase| && url[..|ApiBase|] == ApiBase && url[|ApiBase|] == '/'
    ensures url[|ApiBase| + 1..] == id
  {
    ApiBase + "/" + id
  }

  /** `getCampaigns`: the account's campaigns, first page of 100. */
  function GetCampaignsRequest(api: MetaAdsApi): (r: Request)
    ensures r.Get? && r.headers == Headers(api)
    ensures r.url == Node(api.adAccountId) + "/campaigns"
    ensures r.query == ListQuery(CampaignFields, 100)
  {
    Get(Node(api.adAccountId) + "/campaigns", Headers(api), ListQuery(CampaignFields, 100))
  }

  /** The object a list read is scoped to: the given id when it is truthy,
      the ad account otherwise. */
  function Scope(api: MetaAdsApi, id: Option<string>): (s: string)
    ensures Truthy(id) ==> s == id.value
    ensures !Truthy(id) ==> s == api.adAccountId
  {
    if Truthy(id) then id.value else api.adAccountId
  }

  /** `getAdSets`: the ad sets of a campaign, or of the whole account when no
      (or an empty) campaign id is given. */
  function GetAdSetsRequest(api: MetaAdsApi, campaignId: Option<string>): (r: Request)
    ensures r.Get? && r.headers == Headers(api)
    ensures Truthy(campaignId) ==> r.url == Node(campaignId.value) + "/adsets"
    ensures !Truthy(campaignId) ==> r.url == Node(api.adAccountId) + "/adsets"
    ensures r.query == ListQuery(AdSetFields, 100)
  {
    Get(Node(Scope(api, campaignId)) + "/adsets", Headers(api), ListQuery(AdSetFields, 100))
  }

  /** `getAds`: the ads of an ad set, or of the whole account when no (or an
      empty) ad-set id is given. */
  function GetAdsRequest(api: MetaAdsApi, adSetId: Option<string>): (r: Request)
    ensures r.Get? && r.headers == Headers(api)
    ensures Truthy(adSetId) ==> r.url == Node(adSetId.value) + "/ads"
    ensures !Truthy(adSetId) ==> r.url == Node(api.adAccountId) + "/ads"
    ensures r.query == ListQuery(AdFields, 100)
  {
    Get(Node(Scope(api, adSetId)) + "/ads", Headers(api), ListQuery(AdFields, 100))
  }

  /** `getInsights`: campaign-level insights over a named window. The default
      argument applies only when no preset is passed at all (an empty one is
      sent as it is). */
  function GetInsightsRequest(api: MetaAdsApi, datePreset: Option<string>): (r: Request)
    ensures r.Get? && r.headers == Headers(api)
    ensures r.url == Node(api.adAccountId) + "/insights"
    ensures r.query.PresetInsightsQuery?
    ensures datePreset.None? ==> r.query.datePreset == DefaultDatePreset
    ensures datePreset.Some? ==> r.query.datePreset == datePreset.value
    ensures r.query.fields == InsightFields && r.query.level == "campaign" && r.query.limit == 100
  {
    var preset := if datePreset.Some? then datePreset.value else DefaultDatePreset;
    Get(Node(api.adAccountId) + "/insights", Headers(api),
      PresetInsightsQuery(InsightFields, preset, "campaign", 100))
  }

  /** `getInsightsDateRange`: daily campaign-level insights between two dates,
      up to 1000 rows. The range is sent as the JSON text of this object. */
  function GetInsightsDateRangeRequest(api: MetaAdsApi, since: string, until: string): (r: Request)
    ensures r.Get? && r.headers == Headers(api)
    ensures r.url == Node(api.adAccountId) + "/insights"
    ensures r.query.RangeInsightsQuery?
    ensures r.query.timeRange.JObj?
    ensures Lookup(r.query.timeRange.members, "since") == Some(JStr(since))
    ensures Lookup(r.query.timeRange.members, "until") == Some(JStr(until))
    ensures r.query.fields == InsightFields && r.query.level == "campaign"
    ensures r.query.timeIncrement == 1 && r.query.limit == 1000
  {
    Get(Node(api.adAccountId) + "/insights", Headers(api),
      RangeInsightsQuery(InsightFields, JObj([("since", JStr(since)), ("until", JStr(until))]),
        "campaign", 1, 1000))
  }

  /** The wire name of a status. */
  function StatusName(s: Status): (name: string)
    ensures name != "" && (s == ACTIVE <==> name == "ACTIVE") && (s == PAUSED <==> name == "PAUSED")
  {
    match s
    case ACTIVE => "ACTIVE"
    case PAUSED => "PAUSED"
    case DELETED => "DELETED"
    case ARCHIVED => "ARCHIVED"
  }

  /** `updateCampaignStatus`: posts the new status, which the signature limits
      to active or paused, to the campaign itself. */
  function UpdateCampaignStatusRequest(api: MetaAdsApi, campaignId: string, status: Status): (r: Request)
    requires status == ACTIVE || status == PAUSED
    ensures r.Post? && r.headers == Headers(api)
    ensures r.url == Node(campaignId)
    ensures r.body == StatusUpdate(if status == ACTIVE then "ACTIVE" else "PAUSED")
  {
    Post(Node(campaignId), Headers(api), StatusUpdate(StatusName(status)))
  }

  /** Major currency units to the platform's minor units. */
  function Cents(major: int): (minor: int)
    ensures minor / 100 == major && minor % 100 == 0
  {
    major * 100
  }

  /** `updateAdSetBudget`: the daily budget, converted to minor units. */
  function UpdateAdSetBudgetRequest(api: MetaAdsApi, adSetId: string, dailyBudget: int): (r: Request)
    ensures r.Post? && r.headers == Headers(api)
    ensures r.url == Node(adSetId)
    ensures r.body.BudgetUpdate? && r.body.dailyBudget / 100 == dailyBudget
    ensures r.body.dailyBudget % 100 == 0
  {
    Post(Node(adSetId), Headers(api), BudgetUpdate(Cents(dailyBudget)))
  }

  /** The status a new campaign gets unless the caller passes one. */
  const DefaultCampaignStatus := "PAUSED"

  /** `createCampaign`: paused unless a status is passed; never in a special
      ad category. */
  function CreateCampaignRequest(api: MetaAdsApi, name: string, objective: string, status: Option<string>): (r: Request)
    ensures r.Post? && r.headers == Headers(api)
    ensures r.url == Node(api.adAccountId) + "/campaigns"
    ensures r.body.NewCampaign? && r.body.name == name && r.body.objective == objective
    ensures status.None? ==> r.body.status == DefaultCampaignStatus
    ensures status.Some? ==> r.body.status == status.value
    ensures r.body.specialAdCategories == []
  {
    var s := if status.Some? then status.value else DefaultCampaignStatus;
    Post(Node(api.adAccountId) + "/campaigns", Headers(api), NewCampaign(name, objective, s, []))
  }

  /** `createAdSet`: the ad set is created paused, billed on impressions and
      optimised for reach whatever the caller passes; the budget goes out in
      minor units; it starts at `startTime` when that is truthy and at `now`
      (the current time, as text) otherwise. */
  function CreateAdSetRequest(
    api: MetaAdsApi, campaignId: string, name: string, dailyBudget: int,
    targeting: Json, startTime: Option<string>, now: string): (r: Request)
    ensures r.Post? && r.headers == Headers(api)
    ensures r.url == Node(api.adAccountId) + "/adsets"
    ensures r.body.NewAdSet? && r.body.name == name && r.body.campaignId == campaignId
    ensures r.body.dailyBudget / 100 == dailyBudget && r.body.dailyBudget % 100 == 0
    ensures r.body.billingEvent == "IMPRESSIONS" && r.body.optimizationGoal == "REACH"
    ensures r.body.status == "PAUSED" && r.body.targeting == targeting
    ensures Truthy(startTime) ==> r.body.startTime == startTime.value
    ensures !Truthy(startTime) ==> r.body.startTime == now
  {
    Post(Node(api.adAccountId) + "/adsets", Headers(api),
      NewAdSet(name, campaignId, Cents(dailyBudget), "IMPRESSIONS", "REACH", targeting,
        "PAUSED", OrElse(startTime, now)))
  }

  // ---------------------------------------------------------------------------
  // Replies

  /** How a call ended: the transport threw (network failure or a non-2xx
      status), or it returned the reply's `data`. */
  datatype Reply<T> = Threw(message: string) | Returned(value: T)

  /** What a client operation yields: a value, or the error it rethrows. */
  datatype Outcome<T> = Ok(value: T) | Failed(message: string)

  /** Every list read: the reply's `data` list, [] when it has none; a thrown
      error is passed on unchanged. */
  function ReadList<T>(reply: Reply<Option<seq<T>>>): (r: Outcome<seq<T>>)
    ensures reply.Threw? ==> r == Failed(reply.message)
    ensures reply.Returned? && reply.value.None? ==> r == Ok([])
    ensures reply.Returned? && reply.value.Some? ==> r == Ok(reply.value.value)
  {
    match reply
    case Threw(m) => Failed(m)
    case Returned(data) => Ok(OrEmpty(data))
  }

  /** `updateCampaignStatus` and `updateAdSetBudget`: true once the post
      returns; a thrown error is passed on unchanged. */
  function Acknowledge<T>(reply: Reply<T>): (r: Outcome<bool>)
    ensures reply.Threw? <==> r.Failed?
    ensures reply.Threw? ==> r.message == reply.message
    ensures r.Ok? ==> r.value
  {
    match reply
    case Threw(m) => Failed(m)
    case Returned(_) => Ok(true)
  }
}
