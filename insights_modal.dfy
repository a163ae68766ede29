/** opinion-hub-frontend/components/InsightsModal.tsx: the dialog showing one
    survey's insights. It shows the decrypted results when there are some,
    otherwise offers decryption to the survey's researcher, and lets the
    researcher publish or export the results. */
module InsightsModal {
  import opened Base
  import Utils
  import ResearchHook
  import InsightsChart
  import LaunchForm

  type SurveyInfo = ResearchHook.SurveyInfo
  type SurveyResults = ResearchHook.SurveyResults

  /** `userAddress?.toLowerCase() === survey.researcher.toLowerCase()`:
      false without a connected address. */
  predicate IsViewerResearcher(userAddress: Option<string>, survey: SurveyInfo) {
    userAddress.Some? && EqualsIgnoreCase(userAddress.value, survey.researcher)
  }

  /** `results && results.isDecrypted`. */
  predicate HasResults(results: Option<SurveyResults>) {
    results.Some? && results.value.isDecrypted
  }

  function Sum(xs: seq<nat>): nat {
    if xs == [] then 0 else xs[0] + Sum(xs[1..])
  }

  /** Line 54: the decrypted counts' sum when there are results, the
      survey's stored count otherwise. */
  function TotalResponses(survey: SurveyInfo, results: Option<SurveyResults>): (t: nat)
    ensures HasResults(results) ==> t == Sum(results.value.results)
    ensures !HasResults(results) ==> t == survey.totalResponses
  {
    if HasResults(results) then Sum(results.value.results) else survey.totalResponses
  }

  lemma {:induction false} ElementAtMostSum(xs: seq<nat>, i: nat)
    requires i < |xs|
    ensures xs[i] <= Sum(xs)
  {
    if i > 0 {
      ElementAtMostSum(xs[1..], i - 1);
    }
  }

  /** With decrypted results, every share the chart and the response
      analysis show is a percentage between 0 and 100: each count is part of
      the total they are divided by. */
  lemma DecryptedSharesArePercentages(survey: SurveyInfo, results: Option<SurveyResults>)
    requires HasResults(results)
    ensures var data := InsightsChart.ChartData(survey.choices, results.value.results, TotalResponses(survey, results));
      forall i :: 0 <= i < |data| ==> 0 <= data[i].percentage <= 100
  {
    var counts := results.value.results;
    var data := InsightsChart.ChartData(survey.choices, counts, TotalResponses(survey, results));
    forall i | 0 <= i < |data| ensures 0 <= data[i].percentage <= 100 {
      if i < |counts| {
        ElementAtMostSum(counts, i);
      }
      Utils.PercentageBounds(InsightsChart.ResultAt(counts, i), Sum(counts));
    }
  }

  // ---------------------------------------------------------------------
  // Key insights (lines 258-299)

  /** `results.indexOf(Math.max(...results))`: the same first arg-max the
      chart names its winner by. */
  function MostPopularIndex(counts: seq<nat>): (k: nat)
    requires |counts| > 0
    ensures k < |counts|
    ensures forall j :: 0 <= j < |counts| ==> counts[j] <= counts[k]
    ensures forall j :: 0 <= j < k ==> counts[j] < counts[k]
  {
    InsightsChart.WinningIndex(counts)
  }

  /** The most popular choice has the largest share of every choice. */
  lemma MostPopularHasLargestShare(counts: seq<nat>, total: nat, i: nat)
    requires |counts| > 0 && i < |counts|
    ensures Utils.CalculatePercentage(counts[i], total) <= Utils.CalculatePercentage(counts[MostPopularIndex(counts)], total)
  {
    Utils.PercentageMonotone(counts[i], counts[MostPopularIndex(counts)], total);
  }

  /** `Math.round((closeTime - launchTime) / 3600)` (line 294). */
  function DurationHours(survey: SurveyInfo): (h: int)
    ensures 2 * (survey.closeTime - survey.launchTime) - 3600 < 7200 * h <= 2 * (survey.closeTime - survey.launchTime) + 3600
  {
    Utils.RoundedQuotient(survey.closeTime - survey.launchTime, 3600)
  }

  /** A survey launched from the form shows the duration that was typed
      into the form. */
  lemma DurationMatchesForm(survey: SurveyInfo, hours: int)
    requires survey.closeTime - survey.launchTime == hours * LaunchForm.SecondsPerHour
    ensures DurationHours(survey) == hours
  {
    Utils.RoundedQuotientUnique(hours * 3600, 3600, hours);
  }

  // ---------------------------------------------------------------------
  // What is offered (lines 202, 322-351, 367)

  /** The decrypt button: no results yet and the viewer is the researcher. */
  predicate ShowsDecrypt(userAddress: Option<string>, survey: SurveyInfo, results: Option<SurveyResults>) {
    !HasResults(results) && IsViewerResearcher(userAddress, survey)
  }

  /** The "Only the researcher can decrypt results" note. */
  predicate ShowsAccessRestricted(userAddress: Option<string>, survey: SurveyInfo, results: Option<SurveyResults>) {
    !HasResults(results) && !IsViewerResearcher(userAddress, survey)
  }

  /** The publish button: results, the researcher, and a publish callback. */
  predicate ShowsPublish(userAddress: Option<string>, survey: SurveyInfo, results: Option<SurveyResults>, hasPublishCallback: bool) {
    HasResults(results) && IsViewerResearcher(userAddress, survey) && hasPublishCallback
  }

  /** Decrypting and publishing are never offered together, and a viewer
      who is not the researcher (or not connected) is offered neither; the
      researcher test does not depend on the address's spelling. */
  lemma OffersAreExclusive(userAddress: Option<string>, survey: SurveyInfo, results: Option<SurveyResults>, hasPublishCallback: bool)
    ensures !(ShowsDecrypt(userAddress, survey, results) && ShowsPublish(userAddress, survey, results, hasPublishCallback))
    ensures !IsViewerResearcher(userAddress, survey) ==>
      !ShowsDecrypt(userAddress, survey, results) && !ShowsPublish(userAddress, survey, results, hasPublishCallback)
    ensures !HasResults(results) ==>
      (ShowsDecrypt(userAddress, survey, results) <==> !ShowsAccessRestricted(userAddress, survey, results))
    ensures userAddress.Some? ==>
      IsViewerResearcher(Some(ToLower(userAddress.value)), survey) == IsViewerResearcher(userAddress, survey)
  {
    if userAddress.Some? {
      var u := userAddress.value;
      assert ToLower(ToLower(u)) == ToLower(u);
    }
  }

  // ---------------------------------------------------------------------
  // Export (lines 69-94)

  datatype ExportData = ExportData(
    topic: string,
    description: string,
    choices: seq<string>,
    launchTime: int,
    closeTime: int,
    results: seq<nat>,
    totalResponses: nat,
    timestamp: string)

  /** The record written to the JSON file; nothing without results. The
      time stamp comes from the clock. */
  function Export(survey: SurveyInfo, results: Option<SurveyResults>, timestamp: string): (r: Option<ExportData>)
    ensures r.None? <==> !HasResults(results)
    ensures r.Some? ==> r.value.results == results.value.results && r.value.totalResponses == Sum(r.value.results)
    ensures r.Some? ==>
      && r.value.topic == survey.topic && r.value.description == survey.description
      && r.value.choices == survey.choices
      && r.value.launchTime == survey.launchTime && r.value.closeTime == survey.closeTime
      && r.value.timestamp == timestamp
  {
    if !HasResults(results) then None
    else Some(ExportData(survey.topic, survey.description, survey.choices, survey.launchTime, survey.closeTime,
                         results.value.results, TotalResponses(survey, results), timestamp))
  }

  // ---------------------------------------------------------------------
  // handlePublishInsights (lines 56-67)

  class PublishState {
    var isPublishing: bool

    constructor ()
      ensures !isPublishing
    {
      isPublishing := false;
    }

    /** Up to `await onPublishInsights(survey.id)`: nothing without a
        callback; otherwise the survey id is handed to it. */
    method BeginPublish(surveyId: nat, hasPublishCallback: bool) returns (call: Option<nat>)
      modifies this
      ensures !hasPublishCallback ==> call == None && unchanged(this)
      ensures hasPublishCallback ==> call == Some(surveyId) && isPublishing
    {
      if !hasPublishCallback {
        return None;
      }
      isPublishing := true;
      call := Some(surveyId);
    }

    /** Whatever the call's outcome, the flag is cleared; a failure is only
        logged. */
    method FinishPublish(succeeded: bool)
      modifies this
      ensures !isPublishing
    {
      isPublishing := false;
    }
  }
}
