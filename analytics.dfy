/** opinion-hub-frontend/components/AnalyticsDashboard.tsx: platform-wide
    figures over the loaded surveys, the five most answered surveys, the
    surveys still waiting for their results, and the connected user's own
    figures. Everything is computed from the survey list, the results map and
    the user's address. */
module Analytics {
  import opened Base
  import Utils
  import ResearchHook
  import InsightsChart
  import InsightsModal

  type SurveyInfo = ResearchHook.SurveyInfo

  // ---------------------------------------------------------------------
  // platformStats (lines 49-73)

  predicate IsActive(s: SurveyInfo) { s.isActive }
  predicate IsClosed(s: SurveyInfo) { !s.isActive }
  predicate IsOpen(s: SurveyInfo) { s.isOpenAccess }
  predicate IsRestricted(s: SurveyInfo) { !s.isOpenAccess }

  /** `surveys.reduce((sum, s) => sum + s.totalResponses, 0)`. */
  function SumResponses(surveys: seq<SurveyInfo>): nat {
    if surveys == [] then 0 else surveys[0].totalResponses + SumResponses(surveys[1..])
  }

  /** `Math.round(total / count)`, or 0 without surveys. */
  function Average(total: nat, count: nat): (r: int)
    ensures count == 0 ==> r == 0
    ensures count > 0 ==> 0 <= r && 2 * total - count < 2 * count * r <= 2 * total + count
  {
    if count > 0 then Utils.RoundedQuotient(total, count) else 0
  }

  /** The surveys a user created: their researcher matches the address
      ignoring case. */
  function CreatedBy(surveys: seq<SurveyInfo>, user: string): seq<SurveyInfo> {
    Filter(surveys, (s: SurveyInfo) => EqualsIgnoreCase(s.researcher, user))
  }

  /** A connected user, as JavaScript's truthiness sees the address: absent
      or empty means nobody. */
  predicate HasUser(userAddress: Option<string>) {
    userAddress.Some? && userAddress.value != ""
  }

  datatype PlatformStats = PlatformStats(
    totalSurveys: nat,
    activeSurveys: nat,
    closedSurveys: nat,
    totalResponses: nat,
    avgResponsesPerSurvey: int,
    openAccessSurveys: nat,
    restrictedSurveys: nat,
    userCreatedSurveys: nat)

  function Stats(surveys: seq<SurveyInfo>, userAddress: Option<string>): PlatformStats {
    PlatformStats(
      |surveys|,
      CountWhere(surveys, IsActive),
      CountWhere(surveys, IsClosed),
      SumResponses(surveys),
      Average(SumResponses(surveys), |surveys|),
      CountWhere(surveys, IsOpen),
      CountWhere(surveys, IsRestricted),
      if HasUser(userAddress) then |CreatedBy(surveys, userAddress.value)| else 0)
  }

  /** Every survey is counted once as active or closed (by its flag alone,
      not by the clock) and once as open or restricted; the user's surveys
      are some of them, none without a user. */
  lemma StatsPartition(surveys: seq<SurveyInfo>, userAddress: Option<string>)
    ensures Stats(surveys, userAddress).activeSurveys + Stats(surveys, userAddress).closedSurveys
            == Stats(surveys, userAddress).totalSurveys
    ensures Stats(surveys, userAddress).openAccessSurveys + Stats(surveys, userAddress).restrictedSurveys
            == Stats(surveys, userAddress).totalSurveys
    ensures Stats(surveys, userAddress).userCreatedSurveys <= Stats(surveys, userAddress).totalSurveys
    ensures !HasUser(userAddress) ==> Stats(surveys, userAddress).userCreatedSurveys == 0
  {
    CountWhereComplement(surveys, IsActive, IsClosed);
    CountWhereComplement(surveys, IsOpen, IsRestricted);
  }

  /** The test the survey cards apply at time `now`: the hook's status is
      Active. */
  function ShownActive(now: int): SurveyInfo -> bool {
    s => ResearchHook.GetSurveyStatus(s, now) == ResearchHook.Active
  }

  /** The dashboard's active count reads only the `isActive` flag, so it can
      exceed the number of surveys the cards show as active at `now`: it
      agrees with them exactly when every flagged survey is inside its
      launch-close window. */
  lemma {:induction false} ActiveCountCountsStaleSurveys(surveys: seq<SurveyInfo>, now: int)
    ensures CountWhere(surveys, ShownActive(now)) <= CountWhere(surveys, IsActive)
    ensures CountWhere(surveys, ShownActive(now)) == CountWhere(surveys, IsActive) <==>
      forall i :: 0 <= i < |surveys| && surveys[i].isActive ==> surveys[i].launchTime <= now <= surveys[i].closeTime
  {
    if surveys != [] {
      ActiveCountCountsStaleSurveys(surveys[1..], now);
      var s := surveys[0];
      if s.isActive && !(s.launchTime <= now <= s.closeTime) {
        assert !ShownActive(now)(s);
      }
      if (forall i :: 0 <= i < |surveys[1..]| && surveys[1..][i].isActive ==>
            surveys[1..][i].launchTime <= now <= surveys[1..][i].closeTime)
         && (s.isActive ==> s.launchTime <= now <= s.closeTime) {
        forall i | 0 <= i < |surveys| && surveys[i].isActive
          ensures surveys[i].launchTime <= now <= surveys[i].closeTime
        {
          if i > 0 {
            assert surveys[i] == surveys[1..][i - 1];
          }
        }
      }
    }
  }

  lemma {:induction false} SumAppend(a: seq<SurveyInfo>, b: seq<SurveyInfo>)
    ensures SumResponses(a + b) == SumResponses(a) + SumResponses(b)
  {
    if a == [] {
      assert a + b == b;
    } else {
      assert (a + b)[1..] == a[1..] + b;
      SumAppend(a[1..], b);
    }
  }

  /** When every survey has the same number of responses, the average is
      that number. */
  lemma {:induction false} UniformSum(surveys: seq<SurveyInfo>, c: nat)
    requires forall i :: 0 <= i < |surveys| ==> surveys[i].totalResponses == c
    ensures SumResponses(surveys) == |surveys| * c
  {
    if surveys != [] {
      UniformSum(surveys[1..], c);
    }
  }

  lemma AverageOfUniform(surveys: seq<SurveyInfo>, c: nat)
    requires |surveys| > 0
    requires forall i :: 0 <= i < |surveys| ==> surveys[i].totalResponses == c
    ensures Stats(surveys, None).avgResponsesPerSurvey == c
  {
    UniformSum(surveys, c);
    var n := |surveys|;
    assert 2 * (n * c) - n < 2 * n * c <= 2 * (n * c) + n;
    Utils.RoundedQuotientUnique(n * c, n, c);
  }

  /** The responses a user's surveys received are part of the platform's. */
  lemma {:induction false} FilteredSumAtMost(surveys: seq<SurveyInfo>, p: SurveyInfo -> bool)
    ensures SumResponses(Filter(surveys, p)) <= SumResponses(surveys)
  {
    if surveys != [] {
      FilteredSumAtMost(surveys[1..], p);
      var head := if p(surveys[0]) then [surveys[0]] else [];
      SumAppend(head, Filter(surveys[1..], p));
    }
  }

  // ---------------------------------------------------------------------
  // The user's own figures (lines 454-470)

  /** Responses received by the user's surveys and their rounded average
      (0 when the user created none). */
  function UserResponses(surveys: seq<SurveyInfo>, user: string): (r: nat)
    ensures r <= SumResponses(surveys)
  {
    FilteredSumAtMost(surveys, (s: SurveyInfo) => EqualsIgnoreCase(s.researcher, user));
    SumResponses(CreatedBy(surveys, user))
  }

  /** "Avg Responses per Survey": the user's responses divided by the
      number of surveys they created, rounded, or 0 when they created none. */
  function UserAverage(surveys: seq<SurveyInfo>, user: string): (r: int)
    ensures |CreatedBy(surveys, user)| == 0 ==> r == 0
    ensures |CreatedBy(surveys, user)| > 0 ==>
      && 0 <= r
      && 2 * UserResponses(surveys, user) - |CreatedBy(surveys, user)|
         < 2 * |CreatedBy(surveys, user)| * r
         <= 2 * UserResponses(surveys, user) + |CreatedBy(surveys, user)|
  {
    var total := UserResponses(surveys, user);
    var n := |CreatedBy(surveys, user)|;
    Average(total, n)
  }

  /** The user's figures do not depend on how the address is spelt. */
  lemma {:induction false} CreatedByIgnoresCase(surveys: seq<SurveyInfo>, u1: string, u2: string)
    requires EqualsIgnoreCase(u1, u2)
    ensures CreatedBy(surveys, u1) == CreatedBy(surveys, u2)
  {
    if surveys != [] {
      CreatedByIgnoresCase(surveys[1..], u1, u2);
    }
  }

  // ---------------------------------------------------------------------
  // topSurveys (lines 97-101): a stable sort on a copy, by responses,
  // largest first, then the first five.

  predicate SortedByResponses(s: seq<SurveyInfo>) {
    forall i, j :: 0 <= i < j < |s| ==> s[i].totalResponses >= s[j].totalResponses
  }

  /** Inserts `x` ahead of the first element with no more responses, so
      that `x` stays before the equal elements that followed it. */
  function Insert(x: SurveyInfo, s: seq<SurveyInfo>): (r: seq<SurveyInfo>)
    ensures |r| == |s| + 1
  {
    if s == [] || s[0].totalResponses <= x.totalResponses then [x] + s
    else [s[0]] + Insert(x, s[1..])
  }

  function SortByResponses(s: seq<SurveyInfo>): (r: seq<SurveyInfo>)
    ensures |r| == |s|
  {
    if s == [] then [] else Insert(s[0], SortByResponses(s[1..]))
  }

  lemma {:induction false} InsertPermutes(x: SurveyInfo, s: seq<SurveyInfo>)
    ensures multiset(Insert(x, s)) == multiset(s) + multiset{x}
  {
    if s != [] && s[0].totalResponses > x.totalResponses {
      InsertPermutes(x, s[1..]);
      assert s == [s[0]] + s[1..];
    }
  }

  /** A bound on `x` and on every element of `s` bounds the insertion. */
  lemma {:induction false} InsertBounded(x: SurveyInfo, s: seq<SurveyInfo>, b: nat)
    requires x.totalResponses <= b
    requires forall k :: 0 <= k < |s| ==> s[k].totalResponses <= b
    ensures forall k :: 0 <= k < |Insert(x, s)| ==> Insert(x, s)[k].totalResponses <= b
  {
    if s != [] && s[0].totalResponses > x.totalResponses {
      InsertBounded(x, s[1..], b);
    }
  }

  lemma {:induction false} InsertSorted(x: SurveyInfo, s: seq<SurveyInfo>)
    requires SortedByResponses(s)
    ensures SortedByResponses(Insert(x, s))
  {
    if s != [] && s[0].totalResponses > x.totalResponses {
      InsertSorted(x, s[1..]);
      InsertBounded(x, s[1..], s[0].totalResponses);
    }
  }

  /** The ranking is ordered, largest first, and is a rearrangement of the
      input: nothing lost, nothing added. */
  lemma {:induction false} SortByResponsesCorrect(s: seq<SurveyInfo>)
    ensures SortedByResponses(SortByResponses(s))
    ensures multiset(SortByResponses(s)) == multiset(s)
  {
    if s != [] {
      SortByResponsesCorrect(s[1..]);
      InsertSorted(s[0], SortByResponses(s[1..]));
      InsertPermutes(s[0], SortByResponses(s[1..]));
      assert s == [s[0]] + s[1..];
    }
  }

  const TopCount := 5

  function TopSurveys(surveys: seq<SurveyInfo>): (r: seq<SurveyInfo>)
    ensures |r| == if |surveys| < TopCount then |surveys| else TopCount
  {
    var sorted := SortByResponses(surveys);
    if |sorted| <= TopCount then sorted else sorted[..TopCount]
  }

  /** The top list holds min(5, n) surveys drawn from the input, largest
      first, and every survey left out has no more responses than the last
      one kept. */
  lemma TopSurveysCorrect(surveys: seq<SurveyInfo>)
    ensures SortedByResponses(TopSurveys(surveys))
    ensures multiset(TopSurveys(surveys)) <= multiset(surveys)
    ensures |TopSurveys(surveys)| == TopCount ==>
      forall x :: x in multiset(surveys) - multiset(TopSurveys(surveys)) ==>
        x.totalResponses <= TopSurveys(surveys)[TopCount - 1].totalResponses
  {
    var sorted := SortByResponses(surveys);
    SortByResponsesCorrect(surveys);
    if |sorted| > TopCount {
      assert sorted == sorted[..TopCount] + sorted[TopCount..];
      assert multiset(sorted) == multiset(sorted[..TopCount]) + multiset(sorted[TopCount..]);
      forall x | x in multiset(surveys) - multiset(TopSurveys(surveys))
        ensures x.totalResponses <= TopSurveys(surveys)[TopCount - 1].totalResponses
      {
        assert x in multiset(sorted[TopCount..]);
        var k :| TopCount <= k < |sorted| && sorted[k] == x;
      }
    }
  }

  // ---------------------------------------------------------------------
  // Results and the surveys awaiting analysis (lines 496-498, 516, 531-532)

  /** Closed surveys (by flag) that have no results entry yet, in list order. */
  function AwaitingAnalysis(surveys: seq<SurveyInfo>, results: map<nat, ResearchHook.SurveyResults>): seq<SurveyInfo> {
    Filter(surveys, (s: SurveyInfo) => !s.isActive && s.id !in results)
  }

  lemma AwaitingAnalysisExactly(surveys: seq<SurveyInfo>, results: map<nat, ResearchHook.SurveyResults>)
    ensures forall x :: x in AwaitingAnalysis(surveys, results) <==> x in surveys && !x.isActive && x.id !in results
  {
    var r := AwaitingAnalysis(surveys, results);
    forall x | x in r ensures x in surveys && !x.isActive && x.id !in results {
      var k :| 0 <= k < |r| && r[k] == x;
    }
    forall x | x in surveys && !x.isActive && x.id !in results ensures x in r {
      var k :| 0 <= k < |surveys| && surveys[k] == x;
    }
  }

  /** The waiting list keeps the surveys' order: filtering a list made of
      two parts lists the first part's waiting surveys before the second's. */
  lemma AwaitingKeepsOrder(a: seq<SurveyInfo>, b: seq<SurveyInfo>, results: map<nat, ResearchHook.SurveyResults>)
    ensures AwaitingAnalysis(a + b, results) == AwaitingAnalysis(a, results) + AwaitingAnalysis(b, results)
  {
    FilterAppend(a, b, (s: SurveyInfo) => !s.isActive && s.id !in results);
  }

  /** Storing a survey's decrypted results takes it off the waiting list
      and leaves every other survey where it was. */
  lemma DecryptedLeavesAwaiting(surveys: seq<SurveyInfo>, results: map<nat, ResearchHook.SurveyResults>,
                                id: nat, entry: ResearchHook.SurveyResults)
    ensures forall x :: x in AwaitingAnalysis(surveys, results[id := entry]) <==>
      x in AwaitingAnalysis(surveys, results) && x.id != id
  {
    AwaitingAnalysisExactly(surveys, results);
    AwaitingAnalysisExactly(surveys, results[id := entry]);
  }

  /** The props of one chart in "Survey Results Analysis" (lines 496-508). */
  datatype ChartProps = ChartProps(surveyTopic: string, choices: seq<string>, results: seq<nat>, totalResponses: nat)

  /** The chart drawn for the results entry `id`: none when no loaded survey
      has that id; otherwise the first such survey's topic and choices, the
      decrypted counts, and the survey's stored response count. */
  function ChartFor(surveys: seq<SurveyInfo>, results: map<nat, ResearchHook.SurveyResults>, id: nat): (c: Option<ChartProps>)
    requires id in results
    ensures c.None? <==> forall j :: 0 <= j < |surveys| ==> surveys[j].id != id
    ensures c.Some? ==> exists j ::
      && 0 <= j < |surveys| && surveys[j].id == id
      && (forall k :: 0 <= k < j ==> surveys[k].id != id)
      && c.value == ChartProps(surveys[j].topic, surveys[j].choices, results[id].results, surveys[j].totalResponses)
  {
    match ResearchHook.FindSurvey(surveys, id)
    case None => None
    case Some(j) => Some(ChartProps(surveys[j].topic, surveys[j].choices, results[id].results, surveys[j].totalResponses))
  }

  /** The results entries that get a chart: those whose id belongs to a
      loaded survey; the others are skipped. */
  function ChartedResultIds(surveys: seq<SurveyInfo>, results: map<nat, ResearchHook.SurveyResults>): (ids: set<nat>)
    ensures forall id :: id in ids <==> id in results && exists j :: 0 <= j < |surveys| && surveys[j].id == id
  {
    set id | id in results && ChartFor(surveys, results, id).Some?
  }

  /** The chart's total is the survey's stored response count: replacing
      the decrypted counts changes the bars, never the total they are
      divided by. */
  lemma ChartTotalIsStoredCount(surveys: seq<SurveyInfo>, results: map<nat, ResearchHook.SurveyResults>,
                                id: nat, entry: ResearchHook.SurveyResults)
    requires id in results && ChartFor(surveys, results, id).Some?
    ensures ChartFor(surveys, results[id := entry], id).Some?
    ensures ChartFor(surveys, results[id := entry], id).value
         == ChartFor(surveys, results, id).value.(results := entry.results)
  {
  }

  /** When the decrypted counts add up to no more than the stored count, as
      they do once every response is decrypted, every bar's share is a
      percentage between 0 and 100. */
  lemma ChartedSharesArePercentages(surveys: seq<SurveyInfo>, results: map<nat, ResearchHook.SurveyResults>, id: nat)
    requires id in results && ChartFor(surveys, results, id).Some?
    requires InsightsModal.Sum(results[id].results) <= ChartFor(surveys, results, id).value.totalResponses
    ensures var c := ChartFor(surveys, results, id).value;
      var data := InsightsChart.ChartData(c.choices, c.results, c.totalResponses);
      forall i :: 0 <= i < |data| ==> 0 <= data[i].percentage <= 100
  {
    var c := ChartFor(surveys, results, id).value;
    var data := InsightsChart.ChartData(c.choices, c.results, c.totalResponses);
    forall i | 0 <= i < |data| ensures 0 <= data[i].percentage <= 100 {
      if i < |c.results| {
        InsightsModal.ElementAtMostSum(c.results, i);
      }
      Utils.PercentageBounds(InsightsChart.ResultAt(c.results, i), c.totalResponses);
    }
  }
}
