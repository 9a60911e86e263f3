/** The quiz-funnel page (app/quiz/page.tsx): it builds the request's query
    from the three selectors, stores the reply, sums each funnel step over the
    returned groups and shows step-to-step conversions. */
module QuizPage {
  import opened Common
  import opened QuizRoute

  /** The ten funnel steps in display order. */
  const StepOrder: seq<string> := [
    "landing", "q1", "q2", "q3", "q4", "q5",
    "email_submit", "lovable_view", "checkout_init", "purchase"
  ]

  /** The count of the first step called `name`, or 0 when there is none. */
  function StepCount(steps: seq<FunnelStep>, name: string): (n: int)
    ensures (forall i :: 0 <= i < |steps| ==> steps[i].step != name) ==> n == 0
    ensures forall i :: 0 <= i < |steps| ==>
      (steps[i].step == name && (forall j :: 0 <= j < i ==> steps[j].step != name)) ==> n == steps[i].count
  {
    if |steps| == 0 then 0
    else if steps[0].step == name then steps[0].count
    else
      var n := StepCount(steps[1..], name);
      assert forall i :: 1 <= i < |steps| ==> steps[i] == steps[1..][i - 1];
      n
  }

  /** A group that does not list step `name`. */
  predicate Lacks(g: FunnelGroup, name: string) {
    forall j :: 0 <= j < |g.steps| ==> g.steps[j].step != name
  }

  /** The sum over `groups`, from left to right, of each group's count for
      `name`: a step that no group lists totals 0, and a single group's
      total is its own count. */
  function StepTotal(groups: seq<FunnelGroup>, name: string): (total: int)
    ensures (forall i :: 0 <= i < |groups| ==> Lacks(groups[i], name)) ==> total == 0
    ensures |groups| == 1 ==> total == StepCount(groups[0].steps, name)
    decreases |groups|
  {
    if |groups| == 0 then 0
    else
      var init := groups[..|groups| - 1];
      assert forall i :: 0 <= i < |init| ==> init[i] == groups[i];
      StepTotal(init, name) + StepCount(groups[|groups| - 1].steps, name)
  }

  /** Step totals of a concatenation are the sums of the parts' totals. */
  lemma {:induction false} StepTotalAppend(a: seq<FunnelGroup>, b: seq<FunnelGroup>, name: string)
    ensures StepTotal(a + b, name) == StepTotal(a, name) + StepTotal(b, name)
    decreases |b|
  {
    if |b| == 0 {
      assert a + b == a;
    } else {
      assert (a + b)[..|a + b| - 1] == a + b[..|b| - 1];
      StepTotalAppend(a, b[..|b| - 1], name);
    }
  }

  /** When every group counts at least as many for `s` as for `t`, so do the totals. */
  lemma {:induction false} StepTotalMonotone(groups: seq<FunnelGroup>, s: string, t: string)
    requires forall i :: 0 <= i < |groups| ==> StepCount(groups[i].steps, s) >= StepCount(groups[i].steps, t)
    ensures StepTotal(groups, s) >= StepTotal(groups, t)
    decreases |groups|
  {
    if |groups| > 0 {
      StepTotalMonotone(groups[..|groups| - 1], s, t);
    }
  }

  /** The ten per-step totals shown by the page. */
  datatype Aggregate = Aggregate(
    landing: int, q1: int, q2: int, q3: int, q4: int, q5: int,
    emailSubmit: int, lovable: int, checkoutInit: int, purchase: int)

  /** The totals in `StepOrder` order. */
  function Totals(a: Aggregate): (r: seq<int>)
    ensures |r| == |StepOrder|
  {
    [a.landing, a.q1, a.q2, a.q3, a.q4, a.q5, a.emailSubmit, a.lovable, a.checkoutInit, a.purchase]
  }

  /** Each step's total over `groups`, in `StepOrder` order. */
  function StepTotals(groups: seq<FunnelGroup>): (t: seq<int>)
    ensures |t| == |StepOrder|
    ensures forall k :: 0 <= k < |StepOrder| ==> t[k] == StepTotal(groups, StepOrder[k])
  {
    seq(|StepOrder|, k requires 0 <= k < |StepOrder| => StepTotal(groups, StepOrder[k]))
  }

  /** The aggregate whose totals, in `StepOrder` order, are `t`. */
  function AggregateOf(t: seq<int>): (a: Aggregate)
    requires |t| == |StepOrder|
    ensures Totals(a) == t
  {
    Aggregate(t[0], t[1], t[2], t[3], t[4], t[5], t[6], t[7], t[8], t[9])
  }

  /** No aggregate for an empty reply; otherwise the step totals. */
  function AggregateFunnel(groups: seq<FunnelGroup>): (r: Option<Aggregate>)
    ensures r.None? <==> |groups| == 0
    ensures r.Some? ==> Totals(r.value) == StepTotals(groups)
  {
    if |groups| == 0 then None
    else Some(AggregateOf(StepTotals(groups)))
  }

  /** Aggregating a concatenation adds the two aggregates step by step. */
  lemma AggregateAdditive(a: seq<FunnelGroup>, b: seq<FunnelGroup>)
    requires |a| > 0 && |b| > 0
    ensures forall k :: 0 <= k < |StepOrder| ==>
      Totals(AggregateFunnel(a + b).value)[k] ==
      Totals(AggregateFunnel(a).value)[k] + Totals(AggregateFunnel(b).value)[k]
  {
    forall k | 0 <= k < |StepOrder| {
      StepTotalAppend(a, b, StepOrder[k]);
    }
  }

  /** A group whose counts never grow along the step order. */
  predicate NonIncreasing(steps: seq<FunnelStep>) {
    forall k :: 0 <= k < |StepOrder| - 1 ==> StepCount(steps, StepOrder[k]) >= StepCount(steps, StepOrder[k + 1])
  }

  /** The drop-off the page shows beside step `k + 1`: what step `k + 1`
      lost against step `k`, so that step `k + 1` is step `k` less it. */
  function DropOff(a: Aggregate, k: nat): (loss: int)
    requires k < |StepOrder| - 1
    ensures Totals(a)[k + 1] == Totals(a)[k] - loss
    ensures loss >= 0 <==> Totals(a)[k + 1] <= Totals(a)[k]
  {
    Totals(a)[k] - Totals(a)[k + 1]
  }

  /** When every group is non-increasing, so is the aggregate, and no drop-off
      the page shows is negative. */
  lemma AggregateNonIncreasing(groups: seq<FunnelGroup>)
    requires |groups| > 0
    requires forall i :: 0 <= i < |groups| ==> NonIncreasing(groups[i].steps)
    ensures forall k :: 0 <= k < |StepOrder| - 1 ==> DropOff(AggregateFunnel(groups).value, k) >= 0
  {
    forall k | 0 <= k < |StepOrder| - 1 {
      StepTotalMonotone(groups, StepOrder[k], StepOrder[k + 1]);
    }
  }

  lemma StepOrderDistinct()
    ensures NoDuplicates(StepOrder)
  {
  }

  /** Steps listed exactly in `StepOrder` are found where they stand. */
  lemma StepCountInOrder(steps: seq<FunnelStep>, k: nat)
    requires |steps| == |StepOrder| && k < |StepOrder|
    requires forall i :: 0 <= i < |steps| ==> steps[i].step == StepOrder[i]
    ensures StepCount(steps, StepOrder[k]) == steps[k].count
  {
    StepOrderDistinct();
    assert forall j :: 0 <= j < k ==> steps[j].step != StepOrder[k];
  }

  lemma MockFunnelNonIncreasing()
    ensures NonIncreasing(MockFunnelData[0].steps)
  {
    var steps := MockFunnelData[0].steps;
    assert forall i :: 0 <= i < |steps| ==> steps[i].step == StepOrder[i];
    MockStepsNonIncreasing();
    forall k | 0 <= k < |StepOrder| - 1
      ensures StepCount(steps, StepOrder[k]) >= StepCount(steps, StepOrder[k + 1])
    {
      StepCountInOrder(steps, k);
      StepCountInOrder(steps, k + 1);
    }
  }

  /** `calculateConversion`: "0%" when there is nothing to convert from, else
      the percentage current / previous (its formatting is not modelled). */
  datatype Conversion = ZeroPercent | Percent(current: int, previous: int)

  function CalculateConversion(current: int, previous: int): (r: Conversion)
    ensures r == ZeroPercent <==> previous == 0
    ensures r.Percent? ==> r.current == current && r.previous == previous
  {
    if previous == 0 then ZeroPercent else Percent(current, previous)
  }

  // ---------------------------------------------------------------------------
  // Query parameters

  function OtherKey(key: string): ((string, string)) -> bool {
    (p: (string, string)) => p.0 != key
  }

  /** Removing the pairs named `key` leaves every other name's value alone. */
  lemma {:induction false} LookupOtherKey(params: seq<(string, string)>, key: string, k: string)
    requires k != key
    ensures Lookup(Filter(params, OtherKey(key)), k) == Lookup(params, k)
  {
    if |params| > 0 {
      LookupOtherKey(params[1..], key, k);
      if params[0].0 != key {
        assert Filter(params, OtherKey(key)) == [params[0]] + Filter(params[1..], OtherKey(key));
      }
    }
  }

  /** `URLSearchParams.set`: the first pair named `key` takes the value and any
      later ones are removed; without one, the pair is appended. */
  function SetParam(params: seq<(string, string)>, key: string, value: string): (r: seq<(string, string)>)
    ensures (forall i :: 0 <= i < |params| ==> params[i].0 != key) ==> r == params + [(key, value)]
  {
    if |params| == 0 then [(key, value)]
    else if params[0].0 == key then [(key, value)] + Filter(params[1..], OtherKey(key))
    else [params[0]] + SetParam(params[1..], key, value)
  }

  /** After a set, the name reads back the new value and every other name
      reads what it did before. */
  lemma {:induction false} SetParamLookup(params: seq<(string, string)>, key: string, value: string, k: string)
    ensures Lookup(SetParam(params, key, value), k) == if k == key then Some(value) else Lookup(params, k)
  {
    if |params| > 0 {
      if params[0].0 == key {
        if k != key {
          LookupOtherKey(params[1..], key, k);
        }
      } else {
        SetParamLookup(params[1..], key, value, k);
      }
    }
  }

  /** The parameter a selector contributes: none for "all". */
  function ParamFor(selection: string): Option<string> {
    if selection != "all" then Some(selection) else None
  }

  /** The filters the route reads back from the parameters it receives. */
  function ReadQuery(params: seq<(string, string)>): FunnelQuery {
    FunnelQuery(Lookup(params, "campaign"), Lookup(params, "adSet"), Lookup(params, "adName"))
  }

  /** The pair a selection contributes to the query: its parameter under
      `name`, if it has one. */
  function ParamPair(name: string, selection: string): (pairs: seq<(string, string)>)
    ensures |pairs| <= 1 && Lookup(pairs, name) == ParamFor(selection)
    ensures forall i :: 0 <= i < |pairs| ==> pairs[i].0 == name && pairs[i].1 != "all"
  {
    match ParamFor(selection)
    case None => []
    case Some(value) => [(name, value)]
  }

  /** The query `fetchFunnelData` sends: each selection other than "all"
      under its name, in the order campaign, ad set, ad name; no value sent
      is "all". */
  function FunnelParams(selectedCampaign: string, selectedAdSet: string, selectedAdName: string): (params: seq<(string, string)>)
    ensures |params| == (if selectedCampaign != "all" then 1 else 0) + (if selectedAdSet != "all" then 1 else 0)
      + (if selectedAdName != "all" then 1 else 0)
    ensures forall i :: 0 <= i < |params| ==> params[i].1 != "all"
  {
    ParamPair("campaign", selectedCampaign) + ParamPair("adSet", selectedAdSet) + ParamPair("adName", selectedAdName)
  }

  /** The route reads back from the query exactly the selections that are
      not "all". */
  lemma FunnelParamsRead(selectedCampaign: string, selectedAdSet: string, selectedAdName: string)
    ensures ReadQuery(FunnelParams(selectedCampaign, selectedAdSet, selectedAdName))
         == FunnelQuery(ParamFor(selectedCampaign), ParamFor(selectedAdSet), ParamFor(selectedAdName))
  {
    var a := ParamPair("campaign", selectedCampaign);
    var b := ParamPair("adSet", selectedAdSet);
    var c := ParamPair("adName", selectedAdName);
    assert "campaign" != "adSet" && "campaign" != "adName" && "adSet" != "adName";
    forall k | k in ["campaign", "adSet", "adName"]
      ensures Lookup(a + b + c, k) == (if Lookup(a, k).Some? then Lookup(a, k) else if Lookup(b, k).Some? then Lookup(b, k) else Lookup(c, k))
    {
      LookupAppend(a + b, c, k);
      LookupAppend(a, b, k);
    }
  }

  /** Builds the query of `fetchFunnelData` from the three selections, setting
      one parameter at a time; as the names differ, each set appends. */
  method BuildFunnelParams(selectedCampaign: string, selectedAdSet: string, selectedAdName: string)
    returns (params: seq<(string, string)>)
    ensures params == FunnelParams(selectedCampaign, selectedAdSet, selectedAdName)
  {
    params := [];
    if selectedCampaign != "all" {
      params := SetParam(params, "campaign", selectedCampaign);
    }
    assert params == ParamPair("campaign", selectedCampaign);
    if selectedAdSet != "all" {
      assert forall i :: 0 <= i < |params| ==> params[i].0 == "campaign" != "adSet";
      params := SetParam(params, "adSet", selectedAdSet);
    }
    assert params == ParamPair("campaign", selectedCampaign) + ParamPair("adSet", selectedAdSet);
    if selectedAdName != "all" {
      assert forall i :: 0 <= i < |params| ==> params[i].0 in ["campaign", "adSet"];
      assert "adName" !in ["campaign", "adSet"];
      params := SetParam(params, "adName", selectedAdName);
    }
  }

  /** What the selections mean once the route has read them: a group is shown
      exactly when each selector is "all" (or empty) or names the group's value. */
  lemma SelectionsFilterFunnel(data: seq<FunnelGroup>, campaign: string, adSet: string, adName: string)
    ensures var shown := FunnelFor(data, FunnelQuery(ParamFor(campaign), ParamFor(adSet), ParamFor(adName)));
      forall i :: 0 <= i < |data| ==>
        (data[i] in shown <==>
          (campaign in {"all", ""} || data[i].campaign == campaign) &&
          (adSet in {"all", ""} || data[i].adSet == adSet) &&
          (adName in {"all", ""} || data[i].adName == adName))
  {
  }

  // ---------------------------------------------------------------------------
  // Page state

  /** The JSON body of the route's reply; absent members are None. */
  datatype FunnelBody = FunnelBody(
    funnel: Option<seq<FunnelGroup>>,
    campaigns: Option<seq<string>>,
    adSets: Option<seq<string>>,
    adNames: Option<seq<string>>,
    error: Option<string>)

  /** How the request ended: it threw (network or JSON error), or a reply came. */
  datatype FunnelReply = Threw(message: string) | Replied(ok: bool, body: FunnelBody)

  const DefaultFetchError := "Failed to fetch funnel data"

  class QuizFunnelView {
    var funnelData: seq<FunnelGroup>
    var campaigns: seq<string>
    var adSets: seq<string>
    var adNames: seq<string>
    var selectedCampaign: string
    var selectedAdSet: string
    var selectedAdName: string
    var loading: bool
    var error: Option<string>
    /** The query of every request issued, in order. */
    var requests: seq<seq<(string, string)>>

    constructor ()
      ensures funnelData == [] && campaigns == [] && adSets == [] && adNames == []
      ensures selectedCampaign == "all" && selectedAdSet == "all" && selectedAdName == "all"
      ensures loading && error == None && requests == []
    {
      funnelData, campaigns, adSets, adNames := [], [], [], [];
      selectedCampaign, selectedAdSet, selectedAdName := "all", "all", "all";
      loading, error, requests := true, None, [];
    }

    /** `fetchFunnelData`, with the reply to the request it issues as a parameter. */
    method FetchFunnelData(reply: FunnelReply)
      modifies this
      ensures requests == old(requests) + [FunnelParams(selectedCampaign, selectedAdSet, selectedAdName)]
      ensures selectedCampaign == old(selectedCampaign) && selectedAdSet == old(selectedAdSet)
      ensures selectedAdName == old(selectedAdName)
      ensures !loading
      ensures reply.Replied? && reply.ok ==>
        && error == None
        && funnelData == OrEmpty(reply.body.funnel)
        && campaigns == OrEmpty(reply.body.campaigns)
        && adSets == OrEmpty(reply.body.adSets)
        && adNames == OrEmpty(reply.body.adNames)
      ensures reply.Replied? && !reply.ok ==> error == Some(OrElse(reply.body.error, DefaultFetchError))
      ensures reply.Threw? ==> error == Some(OrElse(Some(reply.message), DefaultFetchError))
      ensures !(reply.Replied? && reply.ok) ==>
        && funnelData == old(funnelData) && campaigns == old(campaigns)
        && adSets == old(adSets) && adNames == old(adNames)
    {
      loading := true;
      error := None;
      var params := BuildFunnelParams(selectedCampaign, selectedAdSet, selectedAdName);
      requests := requests + [params];
      ReceiveFunnel(reply);
      loading := false;
    }

    /** The handling of the reply: the lists on an ok reply, the reply's error
        (or the fixed text) on a failed one, the thrown message (or the fixed
        text) when the request threw. */
    method ReceiveFunnel(reply: FunnelReply)
      modifies this
      ensures requests == old(requests) && loading == old(loading)
      ensures selectedCampaign == old(selectedCampaign) && selectedAdSet == old(selectedAdSet)
      ensures selectedAdName == old(selectedAdName)
      ensures reply.Replied? && reply.ok ==>
        && error == old(error)
        && funnelData == OrEmpty(reply.body.funnel)
        && campaigns == OrEmpty(reply.body.campaigns)
        && adSets == OrEmpty(reply.body.adSets)
        && adNames == OrEmpty(reply.body.adNames)
      ensures reply.Replied? && !reply.ok ==> error == Some(OrElse(reply.body.error, DefaultFetchError))
      ensures reply.Threw? ==> error == Some(OrElse(Some(reply.message), DefaultFetchError))
      ensures !(reply.Replied? && reply.ok) ==>
        && funnelData == old(funnelData) && campaigns == old(campaigns)
        && adSets == old(adSets) && adNames == old(adNames)
    {
      match reply {
        case Threw(message) =>
          error := Some(OrElse(Some(message), DefaultFetchError));
        case Replied(ok, body) =>
          if !ok {
            var thrown := OrElse(body.error, DefaultFetchError);
            error := Some(OrElse(Some(thrown), DefaultFetchError));
          } else {
            funnelData := OrEmpty(body.funnel);
            campaigns := OrEmpty(body.campaigns);
            adSets := OrEmpty(body.adSets);
            adNames := OrEmpty(body.adNames);
          }
      }
    }
  }
}
