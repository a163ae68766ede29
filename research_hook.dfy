/** opinion-hub-frontend/hooks/useOpinionResearch.tsx: the front-end's view of
    the registry. It keeps the list of surveys loaded from the chain and the
    decrypted results per survey id, and classifies each survey as upcoming,
    active or closed against the current time. The clock, the chain's
    answers and the decryption service are parameters. */
module ResearchHook {
  import opened Base
  import Registry
  import Addresses

  /** A survey as the front-end holds it: the chain's fields and its id. */
  datatype SurveyInfo = SurveyInfo(
    id: nat,
    topic: string,
    description: string,
    choices: seq<string>,
    researcher: string,
    launchTime: int,
    closeTime: int,
    isActive: bool,
    isOpenAccess: bool,
    totalResponses: nat)

  datatype Status = Upcoming | Closed | Active

  /** The status as the string the colour table and the badges key on. */
  function StatusName(s: Status): string {
    match s
    case Upcoming => "upcoming"
    case Closed => "closed"
    case Active => "active"
  }

  datatype SurveyResults = SurveyResults(surveyId: nat, results: seq<nat>, isDecrypted: bool)

  // ---------------------------------------------------------------------
  // getSurveyStatus (lines 340-350)

  /** Upcoming before the launch time, whatever the flag says; closed once
      past the close time or when the flag is cleared; active otherwise. */
  function GetSurveyStatus(s: SurveyInfo, now: int): (r: Status)
    ensures r == Upcoming <==> now < s.launchTime
    ensures r == Active ==> s.isActive && s.launchTime <= now <= s.closeTime
  {
    if now < s.launchTime then Upcoming
    else if now > s.closeTime || !s.isActive then Closed
    else Active
  }

  /** A survey not yet launched is upcoming even when it was closed early. */
  lemma UpcomingTakesPrecedence(s: SurveyInfo, now: int)
    requires now < s.launchTime && !s.isActive
    ensures GetSurveyStatus(s, now) == Upcoming
  {
  }

  /** The close test is strict: at the close time itself an active survey
      is still open, one second later it is closed. */
  lemma OpenUntilCloseTime(s: SurveyInfo)
    requires s.isActive && s.launchTime <= s.closeTime
    ensures GetSurveyStatus(s, s.closeTime) == Active
    ensures GetSurveyStatus(s, s.closeTime + 1) == Closed
  {
  }

  /** Over time a survey only moves forward: upcoming, then active, then
      closed, never back. */
  function Rank(s: Status): nat {
    match s
    case Upcoming => 0
    case Active => 1
    case Closed => 2
  }

  lemma StatusMonotoneInTime(s: SurveyInfo, now1: int, now2: int)
    requires now1 <= now2
    ensures Rank(GetSurveyStatus(s, now1)) <= Rank(GetSurveyStatus(s, now2))
  {
  }

  /** A survey the registry admitted and has not closed is active exactly
      between its launch and close times. */
  lemma AdmittedSurveyActiveWindow(s: SurveyInfo, now: int)
    requires s.isActive && s.closeTime > s.launchTime
    ensures GetSurveyStatus(s, now) == Active <==> s.launchTime <= now <= s.closeTime
  {
  }

  // ---------------------------------------------------------------------
  // closeSurvey's local update (lines 203-207)

  function CloseLocal(s: SurveyInfo, surveyId: nat): SurveyInfo {
    if s.id == surveyId then s.(isActive := false) else s
  }

  /** `prev.map(survey => survey.id === id ? {...survey, isActive: false} : survey)`. */
  function CloseSurveyLocal(surveys: seq<SurveyInfo>, surveyId: nat): (r: seq<SurveyInfo>)
    ensures |r| == |surveys|
    ensures forall i :: 0 <= i < |r| ==> r[i] == CloseLocal(surveys[i], surveyId)
  {
    seq(|surveys|, i requires 0 <= i < |surveys| => CloseLocal(surveys[i], surveyId))
  }

  /** After the local close the survey is never reported active again, every
      other survey is untouched, and closing twice is closing once. */
  lemma CloseSurveyLocalEffect(surveys: seq<SurveyInfo>, surveyId: nat, now: int)
    ensures forall i :: 0 <= i < |surveys| && surveys[i].id == surveyId ==>
      !CloseSurveyLocal(surveys, surveyId)[i].isActive
      && GetSurveyStatus(CloseSurveyLocal(surveys, surveyId)[i], now) != Active
    ensures forall i :: 0 <= i < |surveys| && surveys[i].id != surveyId ==>
      CloseSurveyLocal(surveys, surveyId)[i] == surveys[i]
    ensures CloseSurveyLocal(CloseSurveyLocal(surveys, surveyId), surveyId) == CloseSurveyLocal(surveys, surveyId)
  {
  }

  // ---------------------------------------------------------------------
  // loadSurveys (lines 53-99)

  function FromChain(id: nat, info: Registry.SurveyInfo): SurveyInfo {
    SurveyInfo(id, info.topic, info.description, info.choices, info.researcher,
               info.launchTime, info.closeTime, info.isActive, info.isOpenAccess, info.totalResponses)
  }

  /** The list `loadSurveys` builds from the first `n` ids: entry for id i
      when fetching it succeeded, nothing when it failed. */
  function Collected(n: nat, fetch: nat -> Option<Registry.SurveyInfo>): seq<SurveyInfo> {
    if n == 0 then []
    else Collected(n - 1, fetch) + (if fetch(n - 1).Some? then [FromChain(n - 1, fetch(n - 1).value)] else [])
  }

  /** The loaded list holds at most `n` surveys, every one under the id it
      was fetched with, ids strictly increasing. */
  lemma {:induction false} CollectedShape(n: nat, fetch: nat -> Option<Registry.SurveyInfo>)
    ensures |Collected(n, fetch)| <= n
    ensures forall j :: 0 <= j < |Collected(n, fetch)| ==>
      var id := Collected(n, fetch)[j].id;
      id < n && fetch(id).Some? && Collected(n, fetch)[j] == FromChain(id, fetch(id).value)
    ensures forall j, k :: 0 <= j < k < |Collected(n, fetch)| ==> Collected(n, fetch)[j].id < Collected(n, fetch)[k].id
  {
    if n > 0 {
      CollectedShape(n - 1, fetch);
    }
  }

  /** When no fetch fails, the i-th entry is survey i and none is missing. */
  lemma {:induction false} CollectedComplete(n: nat, fetch: nat -> Option<Registry.SurveyInfo>)
    requires forall i :: 0 <= i < n ==> fetch(i).Some?
    ensures |Collected(n, fetch)| == n
    ensures forall j :: 0 <= j < n ==> Collected(n, fetch)[j] == FromChain(j, fetch(j).value)
  {
    if n > 0 {
      CollectedComplete(n - 1, fetch);
    }
  }

  // ---------------------------------------------------------------------
  // decryptSurveyResults (lines 219-308)

  const NotReadyError := "FHEVM not ready, contract not deployed, or wallet not connected"
  const NotFoundError := "Survey not found"
  const NoSignatureError := "Unable to build FHEVM decryption signature"

  /** `surveys.find(s => s.id === surveyId)`: the first survey with the id. */
  function FindSurvey(surveys: seq<SurveyInfo>, surveyId: nat): (r: Option<nat>)
    ensures r.Some? ==>
      && r.value < |surveys| && surveys[r.value].id == surveyId
      && forall j :: 0 <= j < r.value ==> surveys[j].id != surveyId
    ensures r.None? ==> forall j :: 0 <= j < |surveys| ==> surveys[j].id != surveyId
  {
    if surveys == [] then None
    else if surveys[0].id == surveyId then Some(0)
    else match FindSurvey(surveys[1..], surveyId)
      case None => None
      case Some(k) => Some(k + 1)
  }

  /** The count shown for one choice: 0 for the zero handle (no response
      was ever tallied), the decrypted value otherwise. */
  function ClearCount(h: Registry.Handle, decrypt: Registry.Handle -> nat): nat {
    if h == Registry.ZeroHandle then 0 else decrypt(h)
  }

  /** The per-choice loop (lines 266-287): one count per choice, in choice
      order. */
  method CollectCounts(choiceCount: nat, handleOf: nat -> Registry.Handle, decrypt: Registry.Handle -> nat)
    returns (counts: seq<nat>)
    ensures |counts| == choiceCount
    ensures forall i :: 0 <= i < choiceCount ==> counts[i] == ClearCount(handleOf(i), decrypt)
  {
    counts := [];
    var i := 0;
    while i < choiceCount
      invariant 0 <= i <= choiceCount
      invariant |counts| == i
      invariant forall j :: 0 <= j < i ==> counts[j] == ClearCount(handleOf(j), decrypt)
    {
      counts := counts + [ClearCount(handleOf(i), decrypt)];
      i := i + 1;
    }
  }

  /** A survey no vote reached decrypts to all zeros, whatever the decryption
      service would answer. */
  lemma FreshSurveyDecryptsToZeros(handles: seq<Registry.Handle>, decrypt: Registry.Handle -> nat, i: nat)
    requires forall j :: 0 <= j < |handles| ==> handles[j] == Registry.ZeroHandle
    requires i < |handles|
    ensures ClearCount(handles[i], decrypt) == 0
  {
  }

  datatype DecryptOutcome = DecryptFailed(reason: string) | Decrypted(results: SurveyResults)

  /** The environment decryption depends on, fixed for one call. */
  datatype DecryptEnv = DecryptEnv(
    ready: bool,                                   // instance, contract address and signer all present
    signer: string,                                // the connected account
    publishFailure: Option<string>,                // what `publishInsights` throws, if it does
    hasSignature: bool,                            // whether a decryption signature could be built
    handleOf: nat -> Registry.Handle,              // `getEncryptedResponseCount(surveyId, i)`
    decrypt: Registry.Handle -> nat)               // `userDecrypt` of one handle

  /** Whether the caller created the survey; the comparison ignores case. */
  predicate IsSurveyResearcher(s: SurveyInfo, signer: string) {
    EqualsIgnoreCase(s.researcher, signer)
  }

  // ---------------------------------------------------------------------
  // isDeployed, hasParticipated, canParticipate (lines 48-50, 310-338)

  /** `config.chainId || 31337`: a missing or zero chain id means localhost. */
  function EffectiveChainId(chainId: Option<int>): (r: int)
    ensures chainId.None? || chainId.value == 0 ==> r == Addresses.LocalhostChainId
    ensures chainId.Some? && chainId.value != 0 ==> r == chainId.value
  {
    if chainId.None? || chainId.value == 0 then Addresses.LocalhostChainId else chainId.value
  }

  function ContractAddress(chainId: Option<int>): Option<string> {
    Addresses.GetContractAddress(EffectiveChainId(chainId))
  }

  predicate IsDeployed(chainId: Option<int>) {
    ContractAddress(chainId).Some?
  }

  /** The registry is reachable on localhost (also when no chain is known)
      and on Sepolia, and nowhere else. */
  lemma DeployedChains(chainId: Option<int>)
    ensures IsDeployed(chainId) <==>
      chainId.None? || chainId.value in {0, Addresses.LocalhostChainId, Addresses.SepoliaChainId}
  {
  }

  /** `hasParticipated` and `canParticipate`: false without a deployment,
      without a provider, or when the call reverts; the chain's answer
      otherwise. */
  function ParticipationQuery(contractAddress: Option<string>, hasProvider: bool, answer: Registry.Outcome<bool>): (r: bool)
    ensures r <==> contractAddress.Some? && hasProvider && answer == Registry.Ok(true)
  {
    if contractAddress.None? || !hasProvider then false
    else match answer
      case Ok(b) => b
      case Reverted(_) => false
  }

  /** Against a live registry the front-end's eligibility answer is the
      registry's rule, and an unknown survey id reads as "not eligible". */
  lemma CanParticipateMatchesRegistry(p: Registry.Platform, contractAddress: string, surveyId: nat, who: string)
    ensures ParticipationQuery(Some(contractAddress), true, p.CanParticipateInSurvey(surveyId, who)) <==>
      surveyId < |p.surveys| && (p.surveys[surveyId].isOpenAccess || who in p.surveys[surveyId].allowed)
  {
  }

  /** Against a live registry, `hasParticipated` reports exactly the
      addresses the registry recorded as having responded, and an unknown
      survey id reads as "has not participated". */
  lemma HasParticipatedMatchesRegistry(p: Registry.Platform, contractAddress: string, surveyId: nat, who: string)
    ensures ParticipationQuery(Some(contractAddress), true, p.HasResponded(surveyId, who)) <==>
      surveyId < |p.surveys| && who in p.surveys[surveyId].responded
  {
  }

  // ---------------------------------------------------------------------
  // The hook's state (lines 41-46)

  class OpinionResearch {
    var surveys: seq<SurveyInfo>
    var surveyResults: map<nat, SurveyResults>
    var isLoading: bool

    constructor ()
      ensures surveys == [] && surveyResults == map[] && !isLoading
    {
      surveys := [];
      surveyResults := map[];
      isLoading := false;
    }

    /** `loadSurveys`: nothing when the hook cannot interact; otherwise the
        list is rebuilt from ids 0 .. total-1, skipping failed fetches. When
        the provider is missing or the total cannot be read, the list is
        kept. `isLoading` is false afterwards. */
    method LoadSurveys(canInteract: bool, hasProvider: bool, total: Option<nat>,
                       fetch: nat -> Option<Registry.SurveyInfo>)
      modifies this`surveys, this`isLoading
      ensures !canInteract ==> unchanged(this)
      ensures canInteract ==> !isLoading
      ensures canInteract && hasProvider && total.Some? ==> surveys == Collected(total.value, fetch)
      ensures canInteract && !(hasProvider && total.Some?) ==> surveys == old(surveys)
    {
      if !canInteract {
        return;
      }
      isLoading := true;
      if hasProvider && total.Some? {
        var list := [];
        var i := 0;
        while i < total.value
          invariant 0 <= i <= total.value
          invariant list == Collected(i, fetch)
        {
          if fetch(i).Some? {
            list := list + [FromChain(i, fetch(i).value)];
          }
          i := i + 1;
        }
        surveys := list;
      }
      isLoading := false;
    }

    /** `closeSurvey`: the local update after the simulated delay. */
    method CloseSurvey(surveyId: nat)
      modifies this`surveys, this`isLoading
      ensures surveys == CloseSurveyLocal(old(surveys), surveyId)
      ensures !isLoading
    {
      isLoading := true;
      surveys := CloseSurveyLocal(surveys, surveyId);
      isLoading := false;
    }

    /** `decryptSurveyResults(surveyId)`. It fails before anything changes
        when the environment is not ready, fails with "Survey not found" for
        an unknown id, publishes first when the caller is not the survey's
        researcher (failing with the publish error if that transaction fails),
        fails when no decryption signature can be built, and otherwise stores
        one count per choice under the id. Other entries are untouched;
        `isLoading` ends false. */
    method DecryptSurveyResults(surveyId: nat, env: DecryptEnv) returns (published: bool, r: DecryptOutcome)
      modifies this`surveyResults, this`isLoading
      ensures !env.ready ==> r == DecryptFailed(NotReadyError) && !published && unchanged(this)
      ensures env.ready ==> !isLoading
      ensures env.ready && FindSurvey(surveys, surveyId).None? ==>
        r == DecryptFailed(NotFoundError) && !published
      ensures published <==>
        env.ready && FindSurvey(surveys, surveyId).Some?
        && !IsSurveyResearcher(surveys[FindSurvey(surveys, surveyId).value], env.signer)
      ensures (env.ready && FindSurvey(surveys, surveyId).Some?
               && !IsSurveyResearcher(surveys[FindSurvey(surveys, surveyId).value], env.signer)
               && env.publishFailure.Some?) ==> r == DecryptFailed(env.publishFailure.value)
      ensures (env.ready && FindSurvey(surveys, surveyId).Some?
               && (IsSurveyResearcher(surveys[FindSurvey(surveys, surveyId).value], env.signer) || env.publishFailure.None?)
               && !env.hasSignature) ==> r == DecryptFailed(NoSignatureError)
      ensures r.Decrypted? <==>
        env.ready && FindSurvey(surveys, surveyId).Some?
        && (IsSurveyResearcher(surveys[FindSurvey(surveys, surveyId).value], env.signer) || env.publishFailure.None?)
        && env.hasSignature
      ensures r.Decrypted? ==>
        var s := surveys[FindSurvey(surveys, surveyId).value];
        && r.results.surveyId == surveyId && r.results.isDecrypted
        && |r.results.results| == |s.choices|
        && (forall i :: 0 <= i < |s.choices| ==> r.results.results[i] == ClearCount(env.handleOf(i), env.decrypt))
        && surveyResults == old(surveyResults)[surveyId := r.results]
      ensures !r.Decrypted? ==> surveyResults == old(surveyResults)
    {
      published := false;
      if !env.ready {
        return published, DecryptFailed(NotReadyError);
      }
      isLoading := true;
      var k := FindSurvey(surveys, surveyId);
      if k.None? {
        isLoading := false;
        return published, DecryptFailed(NotFoundError);
      }
      var survey := surveys[k.value];
      if !IsSurveyResearcher(survey, env.signer) {
        published := true;
        if env.publishFailure.Some? {
          isLoading := false;
          return published, DecryptFailed(env.publishFailure.value);
        }
      }
      if !env.hasSignature {
        isLoading := false;
        return published, DecryptFailed(NoSignatureError);
      }
      var counts := CollectCounts(|survey.choices|, env.handleOf, env.decrypt);
      var results := SurveyResults(surveyId, counts, true);
      surveyResults := surveyResults[surveyId := results];
      isLoading := false;
      r := Decrypted(results);
    }
  }
}
