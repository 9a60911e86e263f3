/** The signup metrics of the email platform client (lib/klaviyo-api.ts),
    computed from the profiles it fetched and the list's details. Time is in
    integer milliseconds; `now` is a parameter. */
module KlaviyoApi {
  import opened Common

  /** A subscriber profile. `created` is None when the platform sent no
      creation time (the source then compares an Invalid Date, which is never
      at or after anything); `sourcePage` is the custom `source_page` property. */
  datatype Profile = Profile(id: string, email: string, created: Option<int>, sourcePage: Option<string>)

  const DayMs: int := 24 * 60 * 60 * 1000
  const WeekMs: int := 7 * 24 * 60 * 60 * 1000

  /** Number of profiles that `recentSignups` keeps. */
  const RecentCount: nat := 20

  datatype EmailMetrics = EmailMetrics(
    totalSignups: nat,
    dailySignups: nat,
    weeklySignups: nat,
    listSize: int,
    recentSignups: seq<Profile>)

  /** The profile was created at or after `threshold`. */
  predicate CreatedSince(p: Profile, threshold: int) {
    p.created.Some? && p.created.value >= threshold
  }

  function CreatedSinceCondition(threshold: int): Profile -> bool {
    (p: Profile) => CreatedSince(p, threshold)
  }

  /** How many of `profiles` were created at or after `threshold`: none of
      them exactly when no profile qualifies, all of them exactly when every
      one does. */
  function SignupsSince(profiles: seq<Profile>, threshold: int): (n: nat)
    ensures n <= |profiles|
    ensures n == 0 <==> forall i :: 0 <= i < |profiles| ==> !CreatedSince(profiles[i], threshold)
    ensures n == |profiles| <==> forall i :: 0 <= i < |profiles| ==> CreatedSince(profiles[i], threshold)
  {
    var r := Filter(profiles, CreatedSinceCondition(threshold));
    FilterKeepsAll(profiles, CreatedSinceCondition(threshold));
    assert |r| > 0 ==> CreatedSince(r[0], threshold);
    |r|
  }

  /** One more profile adds one to the count exactly when it qualifies. */
  lemma SignupsSinceAppend(profiles: seq<Profile>, p: Profile, threshold: int)
    ensures SignupsSince(profiles + [p], threshold)
         == SignupsSince(profiles, threshold) + (if CreatedSince(p, threshold) then 1 else 0)
  {
    FilterAppend(profiles, [p], CreatedSinceCondition(threshold));
  }

  /** An earlier threshold never counts fewer profiles. */
  lemma SignupsSinceMonotone(profiles: seq<Profile>, earlier: int, later: int)
    requires earlier <= later
    ensures SignupsSince(profiles, later) <= SignupsSince(profiles, earlier)
  {
    FilterLengthMonotone(profiles, CreatedSinceCondition(later), CreatedSinceCondition(earlier));
  }

  /** `getEmailMetrics`: `profileCount` is the list's `profile_count` (None
      when the platform omitted it). */
  function GetEmailMetrics(profiles: seq<Profile>, profileCount: Option<int>, now: int): (m: EmailMetrics)
    ensures m.totalSignups == |profiles|
    ensures m.dailySignups == SignupsSince(profiles, now - DayMs)
    ensures m.weeklySignups == SignupsSince(profiles, now - WeekMs)
    ensures m.dailySignups <= m.weeklySignups <= m.totalSignups
    ensures profileCount.Some? && profileCount.value != 0 ==> m.listSize == profileCount.value
    ensures profileCount.None? || profileCount.value == 0 ==> m.listSize == |profiles|
    ensures |m.recentSignups| == if |profiles| < RecentCount then |profiles| else RecentCount
    ensures forall i :: 0 <= i < |m.recentSignups| ==> m.recentSignups[i] == profiles[i]
  {
    var daily := SignupsSince(profiles, now - DayMs);
    var weekly := SignupsSince(profiles, now - WeekMs);
    SignupsSinceMonotone(profiles, now - WeekMs, now - DayMs);
    EmailMetrics(
      |profiles|,
      daily,
      weekly,
      if profileCount.Some? && profileCount.value != 0 then profileCount.value else |profiles|,
      Take(profiles, RecentCount))
  }

  /** A profile created exactly 24 hours before `now` is a daily (and so a
      weekly) signup: appending it raises both counts by one. */
  lemma DayBoundaryCounts(profiles: seq<Profile>, p: Profile, listCount: Option<int>, now: int)
    requires p.created == Some(now - DayMs)
    ensures GetEmailMetrics(profiles + [p], listCount, now).dailySignups == GetEmailMetrics(profiles, listCount, now).dailySignups + 1
    ensures GetEmailMetrics(profiles + [p], listCount, now).weeklySignups == GetEmailMetrics(profiles, listCount, now).weeklySignups + 1
  {
    SignupsSinceAppend(profiles, p, now - DayMs);
    SignupsSinceAppend(profiles, p, now - WeekMs);
  }

  /** A profile created exactly 7 days before `now` is a weekly signup but not
      a daily one. */
  lemma WeekBoundaryCounts(profiles: seq<Profile>, p: Profile, listCount: Option<int>, now: int)
    requires p.created == Some(now - WeekMs)
    ensures GetEmailMetrics(profiles + [p], listCount, now).dailySignups == GetEmailMetrics(profiles, listCount, now).dailySignups
    ensures GetEmailMetrics(profiles + [p], listCount, now).weeklySignups == GetEmailMetrics(profiles, listCount, now).weeklySignups + 1
  {
    SignupsSinceAppend(profiles, p, now - DayMs);
    SignupsSinceAppend(profiles, p, now - WeekMs);
  }

  /** A profile without a creation time is in neither window, but still in the total. */
  lemma MissingCreatedNotCounted(profiles: seq<Profile>, p: Profile, listCount: Option<int>, now: int)
    requires p.created.None?
    ensures GetEmailMetrics(profiles + [p], listCount, now).dailySignups == GetEmailMetrics(profiles, listCount, now).dailySignups
    ensures GetEmailMetrics(profiles + [p], listCount, now).weeklySignups == GetEmailMetrics(profiles, listCount, now).weeklySignups
    ensures GetEmailMetrics(profiles + [p], listCount, now).totalSignups == GetEmailMetrics(profiles, listCount, now).totalSignups + 1
  {
    SignupsSinceAppend(profiles, p, now - DayMs);
    SignupsSinceAppend(profiles, p, now - WeekMs);
  }

  const HourMs: int := 60 * 60 * 1000

  /** Profiles created now, 23 hours, 25 hours, 6 days and 8 days before `now`. */
  function ExampleProfiles(now: int): seq<Profile> {
    [Profile("a", "a@example.com", Some(now), None),
     Profile("b", "b@example.com", Some(now - 23 * HourMs), None),
     Profile("c", "c@example.com", Some(now - 25 * HourMs), None),
     Profile("d", "d@example.com", Some(now - 6 * DayMs), None),
     Profile("e", "e@example.com", Some(now - 8 * DayMs), None)]
  }

  /** The number of profiles of the example counted from `threshold`. */
  lemma ExampleCount(now: int, threshold: int)
    ensures SignupsSince(ExampleProfiles(now), threshold) ==
      (if now >= threshold then 1 else 0) + (if now - 23 * HourMs >= threshold then 1 else 0)
      + (if now - 25 * HourMs >= threshold then 1 else 0) + (if now - 6 * DayMs >= threshold then 1 else 0)
      + (if now - 8 * DayMs >= threshold then 1 else 0)
  {
    var ps := ExampleProfiles(now);
    assert [] + [ps[0]] == ps[..1];
    SignupsSinceAppend([], ps[0], threshold);
    assert ps[..1] + [ps[1]] == ps[..2];
    SignupsSinceAppend(ps[..1], ps[1], threshold);
    assert ps[..2] + [ps[2]] == ps[..3];
    SignupsSinceAppend(ps[..2], ps[2], threshold);
    assert ps[..3] + [ps[3]] == ps[..4];
    SignupsSinceAppend(ps[..3], ps[3], threshold);
    assert ps[..4] + [ps[4]] == ps;
    SignupsSinceAppend(ps[..4], ps[4], threshold);
  }

  /** The example gives two daily and four weekly signups. */
  lemma FiveProfilesExample(now: int, listCount: Option<int>)
    ensures GetEmailMetrics(ExampleProfiles(now), listCount, now).dailySignups == 2
    ensures GetEmailMetrics(ExampleProfiles(now), listCount, now).weeklySignups == 4
    ensures GetEmailMetrics(ExampleProfiles(now), listCount, now).totalSignups == 5
  {
    ExampleCount(now, now - DayMs);
    ExampleCount(now, now - WeekMs);
  }

  // ---------------------------------------------------------------------------
  // Signups by source page

  const UnknownPage := "unknown"

  /** The page a signup is counted under: its `source_page`, or "unknown" when
      that is missing or empty. */
  function PageOf(p: Profile): (page: string)
    ensures page != ""
    ensures Truthy(p.sourcePage) ==> page == p.sourcePage.value
    ensures !Truthy(p.sourcePage) ==> page == UnknownPage
  {
    OrElse(p.sourcePage, UnknownPage)
  }

  /** How many of `profiles` are counted under `page`. */
  function PageCount(profiles: seq<Profile>, page: string): nat {
    if |profiles| == 0 then 0
    else PageCount(profiles[..|profiles| - 1], page) + (if PageOf(profiles[|profiles| - 1]) == page then 1 else 0)
  }

  lemma PageCountAppend(profiles: seq<Profile>, p: Profile, page: string)
    ensures PageCount(profiles + [p], page) == PageCount(profiles, page) + (if PageOf(p) == page then 1 else 0)
  {
    assert (profiles + [p])[..|profiles|] == profiles;
  }

  /** A page has a positive count exactly when some profile is counted under it. */
  lemma {:induction false} PageCountPositive(profiles: seq<Profile>, page: string)
    ensures PageCount(profiles, page) > 0 <==> exists i :: 0 <= i < |profiles| && PageOf(profiles[i]) == page
  {
    if |profiles| > 0 {
      var init := profiles[..|profiles| - 1];
      PageCountPositive(init, page);
      assert forall i :: 0 <= i < |init| ==> init[i] == profiles[i];
    }
  }

  /** `m` holds, for exactly the pages that occur in `profiles`, their counts. */
  ghost predicate CountsOf(m: map<string, nat>, profiles: seq<Profile>) {
    forall page :: (page in m <==> PageCount(profiles, page) > 0)
      && (page in m ==> m[page] == PageCount(profiles, page))
  }

  /** Counting one more profile: its page's entry goes up by one, starting
      from nothing. */
  lemma CountOneMore(m: map<string, nat>, profiles: seq<Profile>, p: Profile)
    requires CountsOf(m, profiles)
    ensures CountsOf(m[PageOf(p) := (if PageOf(p) in m then m[PageOf(p)] else 0) + 1], profiles + [p])
  {
    forall page
      ensures PageCount(profiles + [p], page) == PageCount(profiles, page) + (if PageOf(p) == page then 1 else 0)
    {
      PageCountAppend(profiles, p, page);
    }
  }

  /** `getSignupsByPage`: one entry per page that occurs, holding its count. */
  method GetSignupsByPage(profiles: seq<Profile>) returns (signupsByPage: map<string, nat>)
    ensures forall page :: page in signupsByPage <==> exists i :: 0 <= i < |profiles| && PageOf(profiles[i]) == page
    ensures forall page :: page in signupsByPage ==> signupsByPage[page] == PageCount(profiles, page)
  {
    signupsByPage := map[];
    var i := 0;
    while i < |profiles|
      invariant 0 <= i <= |profiles|
      invariant CountsOf(signupsByPage, profiles[..i])
    {
      var sourcePage := PageOf(profiles[i]);
      CountOneMore(signupsByPage, profiles[..i], profiles[i]);
      var previous := if sourcePage in signupsByPage then signupsByPage[sourcePage] else 0;
      signupsByPage := signupsByPage[sourcePage := previous + 1];
      assert profiles[..i + 1] == profiles[..i] + [profiles[i]];
      i := i + 1;
    }
    assert profiles[..i] == profiles;
    CountsOfOccurring(signupsByPage, profiles);
  }

  /** The pages with counts are the pages that occur. */
  lemma CountsOfOccurring(m: map<string, nat>, profiles: seq<Profile>)
    requires CountsOf(m, profiles)
    ensures forall page :: page in m <==> exists i :: 0 <= i < |profiles| && PageOf(profiles[i]) == page
    ensures forall page :: page in m ==> m[page] == PageCount(profiles, page)
  {
    forall page ensures PageCount(profiles, page) > 0 <==> exists i :: 0 <= i < |profiles| && PageOf(profiles[i]) == page {
      PageCountPositive(profiles, page);
    }
  }

  /** Sum of the counts of `pages`. */
  function SumCounts(profiles: seq<Profile>, pages: seq<string>): nat {
    if |pages| == 0 then 0 else PageCount(profiles, pages[0]) + SumCounts(profiles, pages[1..])
  }

  /** How many entries of `pages` equal `page`. */
  function Occurrences(pages: seq<string>, page: string): nat {
    if |pages| == 0 then 0 else (if pages[0] == page then 1 else 0) + Occurrences(pages[1..], page)
  }

  lemma {:induction false} OccursOnce(pages: seq<string>, page: string)
    requires NoDuplicates(pages) && page in pages
    ensures Occurrences(pages, page) == 1
  {
    if pages[0] == page {
      OccursNot(pages[1..], page);
    } else {
      OccursOnce(pages[1..], page);
    }
  }

  lemma {:induction false} OccursNot(pages: seq<string>, page: string)
    requires page !in pages
    ensures Occurrences(pages, page) == 0
  {
    if |pages| > 0 {
      OccursNot(pages[1..], page);
    }
  }

  lemma {:induction false} SumCountsAppend(profiles: seq<Profile>, p: Profile, pages: seq<string>)
    ensures SumCounts(profiles + [p], pages) == SumCounts(profiles, pages) + Occurrences(pages, PageOf(p))
  {
    if |pages| > 0 {
      PageCountAppend(profiles, p, pages[0]);
      SumCountsAppend(profiles, p, pages[1..]);
    }
  }

  /** Over any duplicate-free list of pages that includes every profile's page,
      the per-page counts add up to the number of profiles. */
  lemma {:induction false} PageCountsSumToTotal(profiles: seq<Profile>, pages: seq<string>)
    requires NoDuplicates(pages)
    requires forall i :: 0 <= i < |profiles| ==> PageOf(profiles[i]) in pages
    ensures SumCounts(profiles, pages) == |profiles|
    decreases |profiles|
  {
    if |profiles| == 0 {
      SumCountsEmpty(pages);
    } else {
      var init, last := profiles[..|profiles| - 1], profiles[|profiles| - 1];
      assert profiles == init + [last];
      PageCountsSumToTotal(init, pages);
      SumCountsAppend(init, last, pages);
      OccursOnce(pages, PageOf(last));
    }
  }

  lemma {:induction false} SumCountsEmpty(pages: seq<string>)
    ensures SumCounts([], pages) == 0
  {
    if |pages| > 0 {
      SumCountsEmpty(pages[1..]);
    }
  }

  /** The pages in order of first signup, each once; their counts sum to the total. */
  lemma SignupsByPageTotal(profiles: seq<Profile>)
    ensures SumCounts(profiles, Unique(Project(profiles, PageOf))) == |profiles|
  {
    PageCountsSumToTotal(profiles, Unique(Project(profiles, PageOf)));
  }
}
