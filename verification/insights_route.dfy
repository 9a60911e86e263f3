/** The insights endpoint (app/api/meta/insights/route.ts): it reads the date
    window from the query string, issues one insights read and answers with
    the rows or with a 500 error. */
module InsightsRoute {
  import opened Common
  import opened Types
  import opened MetaApi

  /** The query string of the incoming request, as ordered name/value pairs;
      reading a name gives its first value. */
  type SearchParams = seq<(string, string)>

  const DefaultPreset := "last_7d"
  const DefaultError := "Failed to fetch insights"

  /** Which of the two insights reads the route makes. */
  datatype Plan = DateRange(since: string, until: string) | Preset(datePreset: string)

  /** The date range when both bounds are non-empty; otherwise the named
      preset, `last_7d` when it is absent or empty. */
  function ChoosePlan(query: SearchParams): (p: Plan)
    ensures p.DateRange? <==> Truthy(Lookup(query, "since")) && Truthy(Lookup(query, "until"))
    ensures p.DateRange? ==> Some(p.since) == Lookup(query, "since") && Some(p.until) == Lookup(query, "until")
    ensures p.Preset? && Truthy(Lookup(query, "date_preset")) ==> Some(p.datePreset) == Lookup(query, "date_preset")
    ensures p.Preset? && !Truthy(Lookup(query, "date_preset")) ==> p.datePreset == DefaultPreset
  {
    var since := Lookup(query, "since");
    var until := Lookup(query, "until");
    if Truthy(since) && Truthy(until) then DateRange(since.value, until.value)
    else Preset(OrElse(Lookup(query, "date_preset"), DefaultPreset))
  }

  /** The read a plan issues. The preset is always passed explicitly. */
  function PlanRequest(api: MetaAdsApi, plan: Plan): (r: Request)
    ensures plan.DateRange? ==> r == GetInsightsDateRangeRequest(api, plan.since, plan.until)
    ensures plan.Preset? ==> r == GetInsightsRequest(api, Some(plan.datePreset))
  {
    match plan
    case DateRange(since, until) => GetInsightsDateRangeRequest(api, since, until)
    case Preset(p) => GetInsightsRequest(api, Some(p))
  }

  /** The request the route issues for a query string. */
  function IssuedRequest(api: MetaAdsApi, query: SearchParams): Request {
    PlanRequest(api, ChoosePlan(query))
  }

  /** What the route answers. */
  datatype RouteResponse = Json200(insights: seq<Insight>) | Error500(error: string)

  /** The rows of a returned read ([] when it has no `data`), or a 500 whose
      error is the thrown message, or the fixed text when that is empty. */
  function Respond(reply: Reply<Option<seq<Insight>>>): (resp: RouteResponse)
    ensures reply.Returned? <==> resp.Json200?
    ensures reply.Returned? ==> resp.insights == OrEmpty(reply.value)
    ensures reply.Threw? && reply.message != "" ==> resp.error == reply.message
    ensures reply.Threw? && reply.message == "" ==> resp.error == DefaultError
    ensures resp.Error500? ==> resp.error != ""
  {
    match ReadList(reply)
    case Ok(rows) => Json200(rows)
    case Failed(m) => Error500(OrElse(Some(m), DefaultError))
  }

  /** Both bounds present: the daily date-range read with exactly those bounds. */
  lemma DateRangeWhenBothBounds(api: MetaAdsApi, query: SearchParams, since: string, until: string)
    requires Lookup(query, "since") == Some(since) && since != ""
    requires Lookup(query, "until") == Some(until) && until != ""
    ensures IssuedRequest(api, query).url == Node(api.adAccountId) + "/insights"
    ensures IssuedRequest(api, query).query.RangeInsightsQuery?
    ensures IssuedRequest(api, query).query.timeRange == JObj([("since", JStr(since)), ("until", JStr(until))])
  {
  }

  /** A missing or empty bound: the preset read, whatever the other bound is,
      so a single bound is ignored. */
  lemma PresetWhenABoundIsMissing(api: MetaAdsApi, query: SearchParams)
    requires !Truthy(Lookup(query, "since")) || !Truthy(Lookup(query, "until"))
    ensures IssuedRequest(api, query) == GetInsightsRequest(api, Some(OrElse(Lookup(query, "date_preset"), DefaultPreset)))
    ensures IssuedRequest(api, query).query.datePreset != ""
  {
  }

  /** Only `since`, `until` and `date_preset` matter: queries that agree on
      them issue the same read. */
  lemma OtherParamsIgnored(api: MetaAdsApi, q1: SearchParams, q2: SearchParams)
    requires Lookup(q1, "since") == Lookup(q2, "since")
    requires Lookup(q1, "until") == Lookup(q2, "until")
    requires Lookup(q1, "date_preset") == Lookup(q2, "date_preset")
    ensures IssuedRequest(api, q1) == IssuedRequest(api, q2)
  {
  }

  /** The plain insights page query asks for the last seven days. */
  lemma AdsPageQuery(api: MetaAdsApi)
    ensures IssuedRequest(api, [("date_preset", "last_7d")]).query
         == PresetInsightsQuery(InsightFields, "last_7d", "campaign", 100)
  {
  }
}
