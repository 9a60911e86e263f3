# DGM analytics dashboard — a Dafny model of its logic

The dashboard is a Next.js application. It sits in front of two services: the
advertising platform's Graph API (campaigns, ad sets, ads, insights) and the
email platform (list profiles). Most of it forwards requests and renders
replies. This project models the parts that decide something, and proves
what they promise:

- `MetaApi` (lib/meta-api.ts): the requests the ads client builds. This covers
  headers, account-scoped or object-scoped endpoints, query parameters, write
  bodies with the budget converted to minor units, the fixed ad-set creation
  policy and the default arguments. It also covers how the client reads the
  replies.
- `InsightsRoute` (app/api/meta/insights/route.ts): the choice between the
  date-range read and the preset read, and the mapping of errors to a 500
  answer.
- `QuizRoute` (app/api/funnel/quiz/route.ts): the mock funnel dataset, the three
  optional filters applied one after another, and the de-duplicated option
  lists.
- `QuizPage` (app/quiz/page.tsx): the query built from the three selectors, the
  page state after a reply, the per-step aggregate and the conversion guard.
- `KlaviyoApi` (lib/klaviyo-api.ts): the daily and weekly signup counts, the
  list-size fallback, the twenty most recent signups, and signups grouped by
  source page.
- `AdsPage` (app/ads/page.tsx): the campaign-id-to-insight map, the pause/resume
  rule, the local patch of the campaign list, and the cells of the table.
- `OverviewPage` (app/page.tsx): totals of impressions and clicks, the
  click-through guard, active campaigns, chart rows and the ten-row table.
- `LauncherPage` (app/launcher/page.tsx): page selection, form validation, and
  the calls of a launch. A launch makes one paused campaign, then one ad set
  per page. The module also holds the resulting banner and the form reset.

`Common` holds shared helpers: an option type, JSON values and first-match
lookup in name/value lists. It also has order-preserving filtering,
de-duplication in first-occurrence order, decimal numerals, and JavaScript's
`trim`. `Types` holds the records of types/index.ts.

How the model reads the source:

- Calls to the outside world become data. A request is a `Request` or `Call`
  value appended to a log, and the reply it got is a parameter of the
  operation.
- Component state that a page changes through its setters becomes a class
  (`AdsView`, `QuizFunnelView`, `LauncherForm`). Its methods change the fields
  and say what the new state is.
- Loops that fill a dictionary are methods with loop invariants, proved against
  a specification function: `BuildInsightsMap` against `LastInsightFor`, and
  `GetSignupsByPage` against `PageCount`.
- The quiz route's filters reassign a variable one after another. `Get` does
  the same, and is proved equal to the single combined selection `FunnelFor`.

Two places where the code behaves differently from a natural reading of it:

- Toggling a selected landing page twice does not give back the same list. The
  page is removed and then appended, so it moves to the end
  (`ToggleTwiceReorders`). The set of pages is restored. The exact list is
  restored only when the page was not selected to begin with.
- Pausing or resuming a deleted or archived campaign asks for `ACTIVE`. So two
  toggles from those states end `PAUSED`, not where they started
  (`ToggleTwiceFromDeleted`).

## Model

| member | source | states |
|---|---|---|
| MetaApi.Headers | lib/meta-api.ts:16-21 | Authorization is `Bearer` and the access token; the content type is JSON; there are exactly these two headers, in this order |
| MetaApi.Node | lib/meta-api.ts:4-5 | An object's address is the v21.0 API base, a slash, then the id |
| MetaApi.GetCampaignsRequest | lib/meta-api.ts:24-36 | The campaign read goes to the account's `/campaigns` with the campaign fields and a limit of 100 |
| MetaApi.Scope | lib/meta-api.ts:46-48 | A truthy id is used as it is; a missing or empty one falls back to the ad account |
| MetaApi.GetAdSetsRequest | lib/meta-api.ts:44-57 | Ad sets are read under the campaign when its id is truthy, otherwise under the account; ad-set fields, limit 100 |
| MetaApi.GetAdsRequest | lib/meta-api.ts:65-78 | Ads are read under the ad set when its id is truthy, otherwise under the account; ad fields, limit 100 |
| MetaApi.GetInsightsRequest | lib/meta-api.ts:86-100 | Campaign-level insights with limit 100; the preset is `last_7d` only when none is passed, and a passed preset is sent unchanged |
| MetaApi.GetInsightsDateRangeRequest | lib/meta-api.ts:108-123 | Insights over a time range holding exactly the given since/until, with a daily time increment, campaign level and limit 1000 |
| MetaApi.StatusName | lib/meta-api.ts:131 | Each status has a non-empty wire name; it is `ACTIVE` or `PAUSED` exactly for those statuses |
| MetaApi.UpdateCampaignStatusRequest | lib/meta-api.ts:131-138 | Posts `{status}`, limited to active or paused, to the campaign's own address |
| MetaApi.Cents | lib/meta-api.ts:150 | Minor units are a multiple of 100 whose quotient by 100 is the major amount |
| MetaApi.UpdateAdSetBudgetRequest | lib/meta-api.ts:146-153 | Posts the daily budget times 100 to the ad set's address |
| MetaApi.CreateCampaignRequest | lib/meta-api.ts:161-173 | Posts name and objective to the account's campaigns; the status is `PAUSED` unless one is passed; special ad categories are always empty |
| MetaApi.CreateAdSetRequest | lib/meta-api.ts:181-203 | Whatever the inputs: status `PAUSED`, billing on impressions, optimisation for reach, budget times 100; the start time is the given one when truthy and the current time otherwise |
| MetaApi.ReadList | lib/meta-api.ts:36-40 | A list read yields the reply's `data`, or [] when it has none; a thrown error is passed on unchanged |
| MetaApi.Acknowledge | lib/meta-api.ts:146-157 | A write yields true once the post returns, and rethrows the transport's error otherwise |
| InsightsRoute.ChoosePlan | app/api/meta/insights/route.ts:7-21 | The date range is chosen exactly when both bounds are non-empty, and it carries those bounds; otherwise the preset is the query's `date_preset`, or `last_7d` when that is absent or empty |
| InsightsRoute.PlanRequest | app/api/meta/insights/route.ts:16-21 | A date-range plan issues the date-range read; a preset plan issues the preset read with that preset passed explicitly |
| InsightsRoute.Respond | app/api/meta/insights/route.ts:23-28 | A returned read answers 200 with its rows ([] without `data`); a thrown one answers 500 with its message, or `Failed to fetch insights` when the message is empty |
| InsightsRoute.DateRangeWhenBothBounds | app/api/meta/insights/route.ts:17-18 | With both bounds non-empty, the route reads the account's insights over exactly those bounds |
| InsightsRoute.PresetWhenABoundIsMissing | app/api/meta/insights/route.ts:19-20 | With either bound missing or empty, the route issues the preset read and ignores the other bound; the preset is never empty |
| InsightsRoute.OtherParamsIgnored | app/api/meta/insights/route.ts:6-21 | Two queries that agree on `since`, `until` and `date_preset` issue the same read |
| InsightsRoute.AdsPageQuery | app/ads/page.tsx:25 | The pages' `?date_preset=last_7d` query issues the campaign-level `last_7d` read with limit 100 |
| Common.Unique | app/api/funnel/quiz/route.ts:63-65 | `Array.from(new Set(xs))`: no duplicates, exactly the values of `xs`, in the order of their first occurrence |
| QuizRoute.CampaignStep | app/api/funnel/quiz/route.ts:68-71 | The first step keeps exactly the groups of the given campaign when that filter applies, and all groups otherwise |
| QuizRoute.AdSetStep | app/api/funnel/quiz/route.ts:72-74 | The second step narrows the first step's result by ad set when that filter applies, and keeps it otherwise |
| QuizRoute.AdNameStep | app/api/funnel/quiz/route.ts:75-77 | The third step narrows the second step's result by ad name when that filter applies, and keeps it otherwise |
| QuizRoute.FunnelFor | app/api/funnel/quiz/route.ts:68-77 | A group is returned exactly when it passes every applying filter, and the result is an order-preserving subsequence of the data. Every selected group keeps as many copies as the data has, and no other group appears |
| QuizRoute.Get | app/api/funnel/quiz/route.ts:25-84 | The step-by-step filtering returns the conjunction of the three filters; each option list is the de-duplicated list of that field over the unfiltered data, so it is the same for every query |
| QuizRoute.NoFilterKeepsAll | app/api/funnel/quiz/route.ts:69-77 | Absent, empty or `all` filters return the data unchanged |
| QuizRoute.CampaignListed | app/api/funnel/quiz/route.ts:63 | The campaign of every group appears among the campaign values |
| QuizRoute.UnknownCampaignEmptiesFunnel | app/api/funnel/quiz/route.ts:63-77 | A campaign filter naming no campaign of the data returns no groups |
| QuizRoute.OptionsEmptyOnlyForNoData | app/api/funnel/quiz/route.ts:63-65 | Each option list is empty exactly when the data is |
| QuizRoute.MockUnknownCampaign | app/api/funnel/quiz/route.ts:42-84 | On the mock data, any campaign other than `Test Campaign` gives an empty funnel while the option lists remain the mock's single values |
| QuizRoute.MockTestCampaign | app/api/funnel/quiz/route.ts:42-71 | Filtering the mock by `Test Campaign` returns the mock unchanged |
| QuizRoute.MockStepsNonIncreasing | app/api/funnel/quiz/route.ts:47-58 | The mock's counts never grow from a step to a later one |
| QuizPage.StepCount | app/quiz/page.tsx:64 | The count of the first step with the given name, or 0 when no step has it |
| QuizPage.StepTotal | app/quiz/page.tsx:64-73 | One step's `reduce` over the groups: 0 when no group lists the step, and a single group's own count |
| QuizPage.StepTotalAppend | app/quiz/page.tsx:64-73 | A step's total over two lists of groups is the sum of the two totals |
| QuizPage.StepTotalMonotone | app/quiz/page.tsx:64-73 | When each group counts at least as many for one step as for another, so does the total |
| QuizPage.StepTotals | app/quiz/page.tsx:64-73 | Ten totals, the k-th being the sum over the groups of the count of the k-th step of the display order |
| QuizPage.AggregateFunnel | app/quiz/page.tsx:63-74 | Null exactly for no groups; otherwise the ten fields, read in display order, are exactly the step totals |
| QuizPage.AggregateAdditive | app/quiz/page.tsx:63-74 | The aggregate of a concatenation is the step-by-step sum of the two aggregates |
| QuizPage.DropOff | app/quiz/page.tsx:192 | The loss shown beside a step: the step's total is the previous total less it, and it is non-negative exactly when the step did not grow |
| QuizPage.AggregateNonIncreasing | app/quiz/page.tsx:63-74 | When every group's counts are non-increasing along the step order, no drop-off between adjacent steps of the aggregate is negative |
| QuizPage.StepOrderDistinct | app/quiz/page.tsx:64-73 | The ten step names are distinct |
| QuizPage.StepCountInOrder | app/quiz/page.tsx:64-73 | Steps listed exactly in display order are found where they stand |
| QuizPage.MockFunnelNonIncreasing | app/api/funnel/quiz/route.ts:47-58 | The mock group is non-increasing along the page's step order, so its drop-offs are non-negative |
| QuizPage.CalculateConversion | app/quiz/page.tsx:76-79 | `0%` exactly when the previous count is 0; otherwise a percentage of exactly the given counts |
| QuizPage.LookupOtherKey | app/quiz/page.tsx:42-44 | Removing the pairs with one name leaves every other name's value as it was |
| QuizPage.SetParam | app/quiz/page.tsx:42-44 | `URLSearchParams.set` of a name not yet present appends the pair |
| QuizPage.SetParamLookup | app/quiz/page.tsx:42-44 | After a set, the name reads back the new value and every other name reads its old value |
| QuizPage.ParamPair | app/quiz/page.tsx:42-44 | A selection contributes at most one pair, under its name, reading back as its parameter; `all` is never sent |
| QuizPage.FunnelParams | app/quiz/page.tsx:41-44 | The query has one pair per selection other than `all`, and no value sent is `all` |
| QuizPage.FunnelParamsRead | app/quiz/page.tsx:41-44 | The route reads back `campaign`, `adSet` and `adName` exactly for the selections that are not `all`, with the selected values |
| QuizPage.BuildFunnelParams | app/quiz/page.tsx:41-44 | Setting the parameters one at a time builds exactly that query |
| QuizPage.SelectionsFilterFunnel | app/quiz/page.tsx:41-46 | Once the route reads the query, a group is shown exactly when each selector is `all` (or empty) or names the group's value |
| QuizPage.QuizFunnelView.constructor | app/quiz/page.tsx:20-30 | Empty lists, all three selectors at `all`, loading, no error |
| QuizPage.QuizFunnelView.FetchFunnelData | app/quiz/page.tsx:36-60 | Issues the selectors' query. An ok reply stores the four lists, with missing ones empty. A failed reply sets its error, or the fixed text. A thrown request sets its message, or the fixed text. The lists change only on an ok reply, and loading ends |
| QuizPage.QuizFunnelView.ReceiveFunnel | app/quiz/page.tsx:47-59 | The reply handling alone: lists on an ok reply, the error (or the fixed text) otherwise, nothing else touched |
| KlaviyoApi.SignupsSince | lib/klaviyo-api.ts:73-81 | The profiles created at or after a threshold: at most all of them, none exactly when no profile qualifies, all exactly when every one does |
| KlaviyoApi.SignupsSinceAppend | lib/klaviyo-api.ts:73-81 | One more profile adds one to the count exactly when it was created at or after the threshold |
| KlaviyoApi.SignupsSinceMonotone | lib/klaviyo-api.ts:70-81 | An earlier threshold never counts fewer signups |
| KlaviyoApi.GetEmailMetrics | lib/klaviyo-api.ts:64-89 | The total is the profile count. Daily and weekly are the counts created at or after now less 24 hours and now less 7 days, so daily ≤ weekly ≤ total. The list size is `profile_count` when truthy, the profile count otherwise. The recent signups are the first min(20, n) profiles, in order |
| KlaviyoApi.DayBoundaryCounts | lib/klaviyo-api.ts:70-76 | A profile created exactly 24 hours ago counts as a daily and a weekly signup |
| KlaviyoApi.WeekBoundaryCounts | lib/klaviyo-api.ts:71-81 | A profile created exactly 7 days ago counts as a weekly signup but not a daily one |
| KlaviyoApi.MissingCreatedNotCounted | lib/klaviyo-api.ts:73-81 | A profile without a creation time is in neither window but is in the total |
| KlaviyoApi.ExampleCount | lib/klaviyo-api.ts:73-81 | On five profiles at fixed offsets from now, the count from any threshold is the number of offsets at or after it |
| KlaviyoApi.FiveProfilesExample | lib/klaviyo-api.ts:69-86 | Those five profiles give two daily, four weekly and five total signups |
| KlaviyoApi.PageOf | lib/klaviyo-api.ts:103 | A signup's page is its truthy `source_page`, and `unknown` otherwise; it is never empty |
| KlaviyoApi.PageCountAppend | lib/klaviyo-api.ts:102-105 | One more profile adds one to its own page's count and nothing to the others |
| KlaviyoApi.PageCountPositive | lib/klaviyo-api.ts:102-105 | A page's count is positive exactly when some profile is counted under it |
| KlaviyoApi.CountOneMore | lib/klaviyo-api.ts:104 | Incrementing the entry of the new profile's page (from 0 when absent) keeps the map equal to the counts |
| KlaviyoApi.GetSignupsByPage | lib/klaviyo-api.ts:97-107 | The map has an entry exactly for each page that occurs, with `unknown` standing for a missing or empty page, and the entry is that page's count |
| KlaviyoApi.CountsOfOccurring | lib/klaviyo-api.ts:100-107 | A map of the counts has keys exactly for the occurring pages |
| KlaviyoApi.PageCountsSumToTotal | lib/klaviyo-api.ts:102-105 | Over any duplicate-free list of pages covering every profile, the counts sum to the number of profiles |
| KlaviyoApi.SignupsByPageTotal | lib/klaviyo-api.ts:97-107 | The per-page counts of the occurring pages sum to the number of profiles |
| AdsPage.LastInsightFor | app/ads/page.tsx:31-36 | None exactly when no insight has that non-empty campaign id; otherwise the last insight that has it |
| AdsPage.BuildInsightsMap | app/ads/page.tsx:31-36 | The map has key k exactly when some insight has campaign id k, maps it to the last such insight, and has no empty key |
| AdsPage.LaterInsightWins | app/ads/page.tsx:32-35 | An insight that no later insight shares a campaign id with is what the map holds for that id |
| AdsPage.NextStatus | app/ads/page.tsx:48 | `PAUSED` exactly when the campaign is active; `ACTIVE` for paused, deleted and archived campaigns |
| AdsPage.ToggleTwice | app/ads/page.tsx:48 | From active or paused, two toggles return to the start |
| AdsPage.ToggleTwiceFromDeleted | app/ads/page.tsx:48 | From deleted or archived, a toggle asks for active and a second one for paused |
| AdsPage.ApplyStatus | app/ads/page.tsx:58-60 | Only campaigns with the matching id change, and only in their status; length, order and all other campaigns stay |
| AdsPage.ApplyStatusTwice | app/ads/page.tsx:58-60 | A second patch of the same campaign overrides the first |
| AdsPage.ApplyOwnStatus | app/ads/page.tsx:58-60 | Patching a campaign with a unique id to the status it already has leaves the list unchanged |
| AdsPage.ParseCount | app/ads/page.tsx:139 | `parseInt` of a missing or empty count is NaN; of a numeral, its value |
| AdsPage.ImpressionsCell | app/ads/page.tsx:113-139 | 0 without an insight, otherwise the parsed impressions of the insight |
| AdsPage.ClicksCell | app/ads/page.tsx:113-142 | 0 without an insight, otherwise the parsed clicks of the insight |
| AdsPage.NoInsightShowsZero | app/ads/page.tsx:112-142 | A campaign that no insight names shows 0 impressions and 0 clicks |
| AdsPage.LastInsightShown | app/ads/page.tsx:112-142 | A campaign with insights shows the counts of its last insight |
| AdsPage.AdsView.constructor | app/ads/page.tsx:7-10 | No campaigns, no insights, loading, nothing being updated |
| AdsPage.AdsView.FetchData | app/ads/page.tsx:16-43 | When both reads complete, the campaigns (or []) and the insights map are replaced; when either throws, both stay; loading ends either way |
| AdsPage.AdsView.ToggleCampaignStatus | app/ads/page.tsx:45-68 | Sends the toggled status. The list is patched only on an ok answer. A thrown request raises the alert. Nothing is marked as updating at the end |
| OverviewPage.CountOf | app/page.tsx:48-49 | A missing or empty count is read as `'0'`, so it counts 0; a numeral counts its value |
| OverviewPage.Total | app/page.tsx:48-49 | The sum of one count field over the rows. A single row's total is its own count, each row's count is at most the sum, and the sum is 0 exactly when every row counts 0. With `TotalAppend` this fixes the sum |
| OverviewPage.TotalImpressions | app/page.tsx:48 | `totalImpressions`: a single row's own impressions, at least each row's impressions, and 0 exactly when no row has a counted impression |
| OverviewPage.TotalClicks | app/page.tsx:49 | `totalClicks`: a single row's own clicks, at least each row's clicks, and 0 exactly when no row has a counted click |
| OverviewPage.TotalAppend | app/page.tsx:48-49 | Totals over two lists of rows add up |
| OverviewPage.AvgCtr | app/page.tsx:50 | The text `0` exactly when total impressions are 0; otherwise the ratio of the click total to the positive impression total |
| OverviewPage.ZeroImpressionsZeroCtr | app/page.tsx:50 | Without a single counted impression the rate is `0`, whatever the clicks |
| OverviewPage.ActiveCampaigns | app/page.tsx:51 | The active count never exceeds the number of campaigns |
| OverviewPage.AllActive | app/page.tsx:51 | The count equals the number of campaigns exactly when every campaign is active |
| OverviewPage.ActiveCampaignsAppend | app/page.tsx:51 | Active counts over two lists add up |
| OverviewPage.StatusTable | app/page.tsx:158 | The table is the first min(10, n) campaigns |
| OverviewPage.ChartData | app/page.tsx:54-58 | One row per insight, in order, named after its campaign or `Unknown`, with its parsed clicks |
| OverviewPage.ChartMatchesTotal | app/page.tsx:49-58 | The clicks plotted across the chart add up to the total clicks |
| LauncherPage.TogglePage | app/launcher/page.tsx:27-31 | A selected page is removed, with every other page kept in order; any other page is appended at the end |
| LauncherPage.ToggleMembership | app/launcher/page.tsx:28-30 | After a toggle the page is selected exactly when it was not, and every other page keeps its membership |
| LauncherPage.ToggleKeepsNoDuplicates | app/launcher/page.tsx:28-30 | A duplicate-free selection stays duplicate-free |
| LauncherPage.ToggleStaysWithinPages | app/launcher/page.tsx:5-10 | Toggling pages the form offers keeps the selection within those four pages, each at most once |
| LauncherPage.ToggleTwiceUnselected | app/launcher/page.tsx:28-30 | Toggling an unselected page twice restores the selection exactly |
| LauncherPage.ToggleTwiceSelected | app/launcher/page.tsx:28-30 | Toggling a selected page twice moves it to the end |
| LauncherPage.ToggleTwiceReorders | app/launcher/page.tsx:28-30 | A concrete selection whose order two toggles change |
| LauncherPage.AdSetName | app/launcher/page.tsx:73 | The name is the campaign name, ` - `, then the page |
| LauncherPage.AdSetNameInjective | app/launcher/page.tsx:73 | Different pages give different names |
| LauncherPage.AdSetCalls | app/launcher/page.tsx:67-82 | One ad-set call per selected page, in order, each on the new campaign with the form's budget and the US 25–65 audience |
| LauncherPage.AdSetNamesDistinct | app/launcher/page.tsx:67-82 | With a duplicate-free selection, no two ad sets share a name |
| LauncherPage.Blank | app/launcher/page.tsx:34 | A name is blank (white space alone, or empty) exactly when `trim` leaves nothing of it |
| LauncherPage.Validate | app/launcher/page.tsx:34-42 | A blank name gives the name alert; otherwise an empty selection gives the pages alert; no alert exactly when the name is not blank and a page is selected |
| LauncherPage.VisibleNameAccepted | app/launcher/page.tsx:34-42 | A name with one visible character and a non-empty selection pass validation |
| LauncherPage.Outcome | app/launcher/page.tsx:59-99 | Success exactly when the campaign call answers ok and no ad-set call throws. Success names the page count. Otherwise the banner is the thrown message, `Failed to create campaign`, or the ad-set error, after `❌ Error: ` |
| LauncherPage.LaunchCalls | app/launcher/page.tsx:49-82 | The paused campaign call comes first; the ad-set calls follow exactly when that call answers ok; otherwise nothing follows |
| LauncherPage.SuccessCountsAdSets | app/launcher/page.tsx:84-89 | The success banner's count is the number of ad-set calls made |
| LauncherPage.LauncherForm.constructor | app/launcher/page.tsx:20-25 | Empty name, traffic objective, budget `50`, no pages, not creating, no banner |
| LauncherPage.LauncherForm.HandlePageToggle | app/launcher/page.tsx:27-31 | The selection becomes its toggle; nothing else changes |
| LauncherPage.LauncherForm.HandleLaunch | app/launcher/page.tsx:33-103 | An invalid form only raises its alert. A valid one makes the launch's calls and sets the banner. Only success resets name, pages and budget `50`. `creating` is down at the end |
| LauncherPage.LauncherForm.Launch | app/launcher/page.tsx:44-103 | The calls are appended in order and the banner set. The form resets exactly on success, and `creating` ends false |

## Left out

- Every number in the source is a JavaScript double, so its totals, counts and `parseInt` results are exact only below 2^53. Dafny's integers are unbounded, so the model does not capture precision lost above that.
- The `console.error` logging in the catch blocks of lib/meta-api.ts and the pages is not modelled. Only the rethrow or the state change that follows it is.
- The email platform's failures are not modelled, and neither is the catch-and-rethrow in `getEmailMetrics` and `getSignupsByPage` (lib/klaviyo-api.ts:90-92 and 108-110), logging included. `GetEmailMetrics` and `GetSignupsByPage` have no failure path: they compute from the already fetched profiles and list details, and that fetching is transport (below).
- Floating point is left out: spend, CTR, CPC and CPM, `parseFloat` of budgets, `toFixed`, the conversion percentage, and the launcher's total-budget display. Budgets are integer major units. Spend is kept as text.
- `parseInt` is modelled only on decimal digit strings (`Numeral`), including the empty string. Leading signs, white space and trailing garbage are not modelled.
- The transport is replaced by request records and given replies: axios, `fetch`, `NextResponse`, JSON parsing and `process.env` credentials. The query-string encoding of parameters is not modelled. The time range is the JSON object before `JSON.stringify`.
- Wall-clock time and ISO dates are parameters in integer milliseconds: `now`, `created`, and the ad-set start time as text. An unparsable creation time is `None`.
- The email platform's `getHeaders`, `getProfiles` and `getListDetails` are transport. Their results are the inputs of `GetEmailMetrics` and `GetSignupsByPage`.
- The thin pass-through routes are not modelled: campaigns, campaign by id, ad sets, email metrics. Neither are rendering-only files: the sidebar, metric cards, layout, the email and placeholder pages, and the Tailwind config.
- React effects that refetch when a selector changes are not modelled. Each fetch is one method call.
- The overview page's own `fetchData` state (loading and error) is not modelled. Its derived values are.
- The quiz route's catch branch cannot be reached, because nothing in its try block throws, so it is not modelled.
- The JavaScript object used as a dictionary in the insights map and in `getSignupsByPage` is a Dafny map. Keys that clash with built-in object properties are not modelled.
- LauncherPage.Outcome: `Promise.all` runs the ad-set calls concurrently and rejects with the first failure in time. The model takes that failure's message as a parameter instead of deriving which call failed first.
- LauncherPage.LaunchCalls: an ok campaign reply without a `campaign` member makes the source throw a `TypeError`. The model treats that case as `CampaignThrew` and does not model the missing member.
- QuizPage.CalculateConversion: returns the two counts of a non-zero conversion, not their formatted percentage.
- OverviewPage.AvgCtr: returns clicks and impressions, not the two-decimal percentage.
- MetaApi.UpdateAdSetBudgetRequest: the budget is an integer. A fractional budget times 100 in floating point is not modelled.
- MetaApi.CreateAdSetRequest: the budget is an integer, for the same reason.
