/** The OpinionResearchPlatform registry as its test suite
    (fhevm-hardhat-template/test/OpinionResearchPlatform.ts) pins it down: a
    platform owner, a set of researchers, a survey counter handing out ids,
    and per survey its fields, an allow-list and the set of addresses that
    responded. Encrypted tallies are opaque handles. Each transaction either
    succeeds, possibly emitting an event, or reverts with a reason string and
    changes nothing. */
module Registry {
  import opened Base

  /** An account, by its canonical spelling. */
  type Address = string

  /** An opaque ciphertext handle; `ZeroHandle` stands for the all-zero hash. */
  type Handle = nat
  const ZeroHandle: Handle := 0

  const OnlyOwnerReason := "Only platform owner can call this function"
  const OnlyResearcherReason := "Only researcher can call this function"
  const ChoiceCountReason := "Must have 2-4 choices"
  const TimeRangeReason := "Invalid time range"
  const NoSuchSurveyReason := "Survey does not exist"
  const OpenAccessReason := "Cannot restrict open access survey"
  const NotAuthorizedReason := "Not authorized"
  const CloseNotAuthorizedReason := "Not authorized to close survey"
  const AlreadyClosedReason := "Survey already closed"
  const ChoiceIndexReason := "Invalid choice index"

  datatype Survey = Survey(
    topic: string,
    description: string,
    choices: seq<string>,
    researcher: Address,
    launchTime: nat,
    closeTime: nat,
    isActive: bool,
    isOpenAccess: bool,
    totalResponses: nat,
    encryptedCounts: seq<Handle>,
    allowed: set<Address>,
    responded: set<Address>)

  /** What `getSurveyInfo` returns. */
  datatype SurveyInfo = SurveyInfo(
    topic: string,
    description: string,
    choices: seq<string>,
    researcher: Address,
    launchTime: nat,
    closeTime: nat,
    isActive: bool,
    isOpenAccess: bool,
    totalResponses: nat)

  datatype Event = SurveyLaunched(surveyId: nat, topic: string, researcher: Address) | SurveyClosed(surveyId: nat)

  /** A transaction's outcome: success with a value, or a revert with its reason. */
  datatype Outcome<+T> = Ok(value: T) | Reverted(reason: string)

  /** Every stored survey was admitted by `launchSurvey`'s guards. */
  predicate WellFormedSurvey(s: Survey) {
    && 2 <= |s.choices| <= 4
    && s.closeTime > s.launchTime
    && |s.encryptedCounts| == |s.choices|
  }

  /** The guards of `launchSurvey`: the caller must be a researcher, there
      must be two to four choices, and the close time must come after the
      launch time. The tests assert each reason alone; the order of the checks
      and the refusal of equal times are this model's choice. `None` means
      admitted. */
  function LaunchRejection(callerIsResearcher: bool, choices: seq<string>, launchTime: nat, closeTime: nat): (r: Option<string>)
    ensures r == None <==> callerIsResearcher && 2 <= |choices| <= 4 && closeTime > launchTime
    ensures !callerIsResearcher ==> r == Some(OnlyResearcherReason)
    ensures r == Some(ChoiceCountReason) <==> callerIsResearcher && !(2 <= |choices| <= 4)
    ensures r == Some(TimeRangeReason) <==> callerIsResearcher && 2 <= |choices| <= 4 && closeTime <= launchTime
  {
    if !callerIsResearcher then Some(OnlyResearcherReason)
    else if !(2 <= |choices| <= 4) then Some(ChoiceCountReason)
    else if closeTime <= launchTime then Some(TimeRangeReason)
    else None
  }

  /** A survey as `launchSurvey` stores it. */
  function NewSurvey(caller: Address, topic: string, description: string, choices: seq<string>,
                     launchTime: nat, closeTime: nat, isOpenAccess: bool): (s: Survey)
    requires LaunchRejection(true, choices, launchTime, closeTime) == None
    ensures WellFormedSurvey(s)
    ensures s.topic == topic && s.description == description && s.choices == choices
    ensures s.launchTime == launchTime && s.closeTime == closeTime && s.isOpenAccess == isOpenAccess
    ensures s.researcher == caller && s.isActive && s.totalResponses == 0
    ensures forall i :: 0 <= i < |s.encryptedCounts| ==> s.encryptedCounts[i] == ZeroHandle
    ensures s.allowed == {} && s.responded == {}
  {
    Survey(topic, description, choices, caller, launchTime, closeTime, true, isOpenAccess, 0,
           seq(|choices|, _ => ZeroHandle), {}, {})
  }

  function InfoOf(s: Survey): SurveyInfo {
    SurveyInfo(s.topic, s.description, s.choices, s.researcher, s.launchTime, s.closeTime,
               s.isActive, s.isOpenAccess, s.totalResponses)
  }

  class Platform {
    var platformOwner: Address
    var researchers: set<Address>
    var surveyCounter: nat
    var surveys: seq<Survey>

    ghost predicate Valid()
      reads this
    {
      && surveyCounter == |surveys|
      && forall i :: 0 <= i < |surveys| ==> WellFormedSurvey(surveys[i])
    }

    /** Deployment: the deployer owns the platform and is its first
        researcher; no survey exists yet (test lines 29-41). */
    constructor (deployer: Address)
      ensures Valid()
      ensures platformOwner == deployer && researchers == {deployer}
      ensures surveyCounter == 0 && surveys == []
    {
      platformOwner := deployer;
      researchers := {deployer};
      surveyCounter := 0;
      surveys := [];
    }

    /** `researchers(a)`. */
    function IsResearcher(a: Address): bool
      reads this
    {
      a in researchers
    }

    /** `setResearcher(researcher, flag)`: owner only (test lines 43-60). */
    method SetResearcher(caller: Address, researcher: Address, flag: bool) returns (r: Outcome<()>)
      requires Valid()
      modifies this`researchers
      ensures Valid()
      ensures caller != platformOwner ==> r == Reverted(OnlyOwnerReason) && researchers == old(researchers)
      ensures caller == platformOwner ==>
        && r == Ok(())
        && researchers == if flag then old(researchers) + {researcher} else old(researchers) - {researcher}
    {
      if caller != platformOwner {
        return Reverted(OnlyOwnerReason);
      }
      if flag {
        researchers := researchers + {researcher};
      } else {
        researchers := researchers - {researcher};
      }
      r := Ok(());
    }

    /** `launchSurvey(...)` (test lines 62-149): on success the new survey
        gets the current counter as id, the counter moves on by one, and
        SurveyLaunched(id, topic, caller) is emitted. */
    method LaunchSurvey(caller: Address, topic: string, description: string, choices: seq<string>,
                        launchTime: nat, closeTime: nat, isOpenAccess: bool) returns (r: Outcome<Event>)
      requires Valid()
      modifies this`surveys, this`surveyCounter
      ensures Valid()
      ensures LaunchRejection(caller in researchers, choices, launchTime, closeTime).Some? ==>
        && r == Reverted(LaunchRejection(caller in researchers, choices, launchTime, closeTime).value)
        && surveys == old(surveys) && surveyCounter == old(surveyCounter)
      ensures LaunchRejection(caller in researchers, choices, launchTime, closeTime) == None ==>
        && r == Ok(SurveyLaunched(old(surveyCounter), topic, caller))
        && surveyCounter == old(surveyCounter) + 1
        && surveys == old(surveys) + [NewSurvey(caller, topic, description, choices, launchTime, closeTime, isOpenAccess)]
    // The read-back the tests perform after a launch: the new id returns
    // the supplied fields, active, with nobody having responded and every
    // count a zero handle.
    ensures LaunchRejection(caller in researchers, choices, launchTime, closeTime) == None ==>
      && GetSurveyInfo(old(surveyCounter))
         == Ok(SurveyInfo(topic, description, choices, caller, launchTime, closeTime, true, isOpenAccess, 0))
      && (forall who :: HasResponded(old(surveyCounter), who) == Ok(false))
      && (forall i :: 0 <= i < |choices| ==> GetEncryptedResponseCount(old(surveyCounter), i) == Ok(ZeroHandle))
    {
      var rejection := LaunchRejection(caller in researchers, choices, launchTime, closeTime);
      if rejection.Some? {
        return Reverted(rejection.value);
      }
      var id := surveyCounter;
      surveys := surveys + [NewSurvey(caller, topic, description, choices, launchTime, closeTime, isOpenAccess)];
      surveyCounter := surveyCounter + 1;
      r := Ok(SurveyLaunched(id, topic, caller));
    }

    /** Who may edit a survey's allow-list: its researcher or the owner, and
        only on a restricted survey. Only the open-survey refusal of
        `grantAccess` is asserted by the tests; the rest is this model's
        choice. */
    function AccessRejection(caller: Address, surveyId: nat): (r: Option<string>)
      reads this
      ensures r == None <==>
        surveyId < |surveys| && (caller == surveys[surveyId].researcher || caller == platformOwner)
        && !surveys[surveyId].isOpenAccess
      ensures surveyId >= |surveys| ==> r == Some(NoSuchSurveyReason)
      ensures surveyId < |surveys| && caller != surveys[surveyId].researcher && caller != platformOwner ==>
        r == Some(NotAuthorizedReason)
      ensures (surveyId < |surveys| && surveys[surveyId].isOpenAccess
               && (caller == surveys[surveyId].researcher || caller == platformOwner)) ==> r == Some(OpenAccessReason)
    {
      if surveyId >= |surveys| then Some(NoSuchSurveyReason)
      else if caller != surveys[surveyId].researcher && caller != platformOwner then Some(NotAuthorizedReason)
      else if surveys[surveyId].isOpenAccess then Some(OpenAccessReason)
      else None
    }

    /** `grantAccess(id, addresses)` (test lines 218-223, 232-255). */
    method GrantAccess(caller: Address, surveyId: nat, addresses: seq<Address>) returns (r: Outcome<()>)
      requires Valid()
      modifies this`surveys
      ensures Valid() && |surveys| == |old(surveys)|
      ensures old(AccessRejection(caller, surveyId)).Some? ==>
        r == Reverted(old(AccessRejection(caller, surveyId)).value) && surveys == old(surveys)
      ensures old(AccessRejection(caller, surveyId)) == None ==>
        && r == Ok(())
        && surveys == old(surveys)[surveyId := old(surveys)[surveyId].(allowed := old(surveys)[surveyId].allowed + set a | a in addresses)]
    {
      var rejection := AccessRejection(caller, surveyId);
      if rejection.Some? {
        return Reverted(rejection.value);
      }
      var s := surveys[surveyId];
      surveys := surveys[surveyId := s.(allowed := s.allowed + set a | a in addresses)];
      r := Ok(());
    }

    /** `revokeAccess(id, addresses)` (test lines 225-230). */
    method RevokeAccess(caller: Address, surveyId: nat, addresses: seq<Address>) returns (r: Outcome<()>)
      requires Valid()
      modifies this`surveys
      ensures Valid() && |surveys| == |old(surveys)|
      ensures old(AccessRejection(caller, surveyId)).Some? ==>
        r == Reverted(old(AccessRejection(caller, surveyId)).value) && surveys == old(surveys)
      ensures old(AccessRejection(caller, surveyId)) == None ==>
        && r == Ok(())
        && surveys == old(surveys)[surveyId := old(surveys)[surveyId].(allowed := old(surveys)[surveyId].allowed - set a | a in addresses)]
    {
      var rejection := AccessRejection(caller, surveyId);
      if rejection.Some? {
        return Reverted(rejection.value);
      }
      var s := surveys[surveyId];
      surveys := surveys[surveyId := s.(allowed := s.allowed - set a | a in addresses)];
      r := Ok(());
    }

    /** The guards of `closeSurvey`: the survey exists, the caller is its
        researcher or the owner, and it is still active. */
    function CloseRejection(caller: Address, surveyId: nat): (r: Option<string>)
      reads this
      ensures r == None <==>
        surveyId < |surveys| && (caller == surveys[surveyId].researcher || caller == platformOwner)
        && surveys[surveyId].isActive
      ensures surveyId >= |surveys| ==> r == Some(NoSuchSurveyReason)
      ensures surveyId < |surveys| && caller != surveys[surveyId].researcher && caller != platformOwner ==>
        r == Some(CloseNotAuthorizedReason)
      ensures (surveyId < |surveys| && (caller == surveys[surveyId].researcher || caller == platformOwner)
               && !surveys[surveyId].isActive) ==> r == Some(AlreadyClosedReason)
    {
      if surveyId >= |surveys| then Some(NoSuchSurveyReason)
      else if caller != surveys[surveyId].researcher && caller != platformOwner then Some(CloseNotAuthorizedReason)
      else if !surveys[surveyId].isActive then Some(AlreadyClosedReason)
      else None
    }

    /** `closeSurvey(id)` (test lines 283-315): clears `isActive` and emits
        SurveyClosed(id). */
    method CloseSurvey(caller: Address, surveyId: nat) returns (r: Outcome<Event>)
      requires Valid()
      modifies this`surveys
      ensures Valid() && |surveys| == |old(surveys)|
      ensures old(CloseRejection(caller, surveyId)).Some? ==>
        r == Reverted(old(CloseRejection(caller, surveyId)).value) && surveys == old(surveys)
      ensures old(CloseRejection(caller, surveyId)) == None ==>
        && r == Ok(SurveyClosed(surveyId))
        && surveys == old(surveys)[surveyId := old(surveys)[surveyId].(isActive := false)]
    {
      var rejection := CloseRejection(caller, surveyId);
      if rejection.Some? {
        return Reverted(rejection.value);
      }
      surveys := surveys[surveyId := surveys[surveyId].(isActive := false)];
      r := Ok(SurveyClosed(surveyId));
    }

    /** `getSurveyInfo(id)` (test lines 176-186, 354-358). */
    function GetSurveyInfo(surveyId: nat): (r: Outcome<SurveyInfo>)
      reads this
      ensures r.Reverted? <==> surveyId >= |surveys|
      ensures r.Reverted? ==> r.reason == NoSuchSurveyReason
      ensures r.Ok? ==>
        && r.value.topic == surveys[surveyId].topic && r.value.description == surveys[surveyId].description
        && r.value.choices == surveys[surveyId].choices && r.value.researcher == surveys[surveyId].researcher
        && r.value.launchTime == surveys[surveyId].launchTime && r.value.closeTime == surveys[surveyId].closeTime
        && r.value.isActive == surveys[surveyId].isActive && r.value.isOpenAccess == surveys[surveyId].isOpenAccess
        && r.value.totalResponses == surveys[surveyId].totalResponses
    {
      if surveyId < |surveys| then Ok(InfoOf(surveys[surveyId])) else Reverted(NoSuchSurveyReason)
    }

    /** `getTotalSurveys()` (test lines 188-190). */
    function GetTotalSurveys(): nat
      reads this
    {
      surveyCounter
    }

    /** `canParticipateInSurvey(id, who)` (test lines 218-230, 347-350):
        everybody on an open survey, the allow-list on a restricted one. */
    function CanParticipateInSurvey(surveyId: nat, who: Address): (r: Outcome<bool>)
      reads this
      ensures r.Reverted? <==> surveyId >= |surveys|
      ensures r.Ok? ==> (r.value <==> surveys[surveyId].isOpenAccess || who in surveys[surveyId].allowed)
    {
      if surveyId >= |surveys| then Reverted(NoSuchSurveyReason)
      else Ok(surveys[surveyId].isOpenAccess || who in surveys[surveyId].allowed)
    }

    /** `hasResponded(id, who)` (test lines 343-345). */
    function HasResponded(surveyId: nat, who: Address): (r: Outcome<bool>)
      reads this
      ensures r.Reverted? <==> surveyId >= |surveys|
      ensures r.Ok? ==> (r.value <==> who in surveys[surveyId].responded)
    {
      if surveyId >= |surveys| then Reverted(NoSuchSurveyReason)
      else Ok(who in surveys[surveyId].responded)
    }

    /** `getEncryptedResponseCount(id, choice)` (test lines 360-382). */
    function GetEncryptedResponseCount(surveyId: nat, choiceIndex: nat): (r: Outcome<Handle>)
      reads this
      requires Valid()
      ensures surveyId >= |surveys| ==> r == Reverted(NoSuchSurveyReason)
      ensures surveyId < |surveys| && choiceIndex >= |surveys[surveyId].choices| ==> r == Reverted(ChoiceIndexReason)
      ensures r.Ok? <==> surveyId < |surveys| && choiceIndex < |surveys[surveyId].choices|
      ensures r.Ok? ==> r.value == surveys[surveyId].encryptedCounts[choiceIndex]
    {
      if surveyId >= |surveys| then Reverted(NoSuchSurveyReason)
      else if choiceIndex >= |surveys[surveyId].choices| then Reverted(ChoiceIndexReason)
      else Ok(surveys[surveyId].encryptedCounts[choiceIndex])
    }
  }

  // -----------------------------------------------------------------------
  // The test suite's scenarios, replayed against the contracts above. Each
  // starts from a fresh deployment, as the suite's `beforeEach` does.

  const Choices2: seq<string> := ["Choice A", "Choice B"]

  /** Deployment (test lines 29-41). */
  method DeploymentScenario(owner: Address) returns (isOwnerResearcher: bool, counter: nat, total: nat)
    ensures isOwnerResearcher && counter == 0 && total == 0
  {
    var p := new Platform(owner);
    isOwnerResearcher := p.IsResearcher(owner);
    counter := p.surveyCounter;
    total := p.GetTotalSurveys();
  }

  /** Researcher management (test lines 43-60): the owner adds and removes a
      researcher; anyone else is refused and changes nothing. */
  method ResearcherManagementScenario(owner: Address, researcher: Address, other: Address)
    returns (afterAdd: bool, afterRemove: bool, intruder: Outcome<()>, intruderGranted: bool)
    requires researcher != owner && other != owner
    ensures afterAdd && !afterRemove
    ensures intruder == Reverted(OnlyOwnerReason) && !intruderGranted
  {
    var p := new Platform(owner);
    var _ := p.SetResearcher(owner, researcher, true);
    afterAdd := p.IsResearcher(researcher);
    var _ := p.SetResearcher(owner, researcher, false);
    afterRemove := p.IsResearcher(researcher);
    intruder := p.SetResearcher(researcher, other, true);
    intruderGranted := p.IsResearcher(other);
  }

  /** Survey creation and information (test lines 62-149, 176-190). */
  method LaunchScenario(owner: Address, researcher: Address, participant: Address,
                        topic: string, description: string, choices: seq<string>, launchTime: nat)
    returns (launched: Outcome<Event>, info: Outcome<SurveyInfo>, total: nat,
             tooFew: Outcome<Event>, badTime: Outcome<Event>, outsider: Outcome<Event>)
    requires participant != owner && participant != researcher
    requires 2 <= |choices| <= 4 && launchTime >= 1800
    ensures launched == Ok(SurveyLaunched(0, topic, researcher))
    ensures info == Ok(SurveyInfo(topic, description, choices, researcher, launchTime, launchTime + 3600, true, true, 0))
    ensures total == 1
    ensures tooFew == Reverted(ChoiceCountReason)
    ensures badTime == Reverted(TimeRangeReason)
    ensures outsider == Reverted(OnlyResearcherReason)
  {
    var p := new Platform(owner);
    var _ := p.SetResearcher(owner, researcher, true);
    launched := p.LaunchSurvey(researcher, topic, description, choices, launchTime, launchTime + 3600, true);
    info := p.GetSurveyInfo(0);
    total := p.GetTotalSurveys();
    tooFew := p.LaunchSurvey(researcher, topic, description, ["Only One Choice"], launchTime, launchTime + 3600, true);
    badTime := p.LaunchSurvey(researcher, topic, description, Choices2, launchTime, launchTime - 1800, true);
    outsider := p.LaunchSurvey(participant, topic, description, Choices2, launchTime, launchTime + 3600, true);
  }

  /** Access control (test lines 193-256): on a restricted survey exactly the
      granted, not revoked addresses may take part; an open survey admits
      everybody and refuses allow-list edits. */
  method AccessControlScenario(owner: Address, researcher: Address, p1: Address, p2: Address, t: nat)
    returns (p1Granted: Outcome<bool>, p2Granted: Outcome<bool>, p1Revoked: Outcome<bool>,
             openGrant: Outcome<()>, openP2: Outcome<bool>)
    requires p1 != p2 && researcher != owner
    ensures p1Granted == Ok(true) && p2Granted == Ok(false) && p1Revoked == Ok(false)
    ensures openGrant == Reverted(OpenAccessReason) && openP2 == Ok(true)
  {
    var p := new Platform(owner);
    var _ := p.SetResearcher(owner, researcher, true);
    var _ := p.LaunchSurvey(researcher, "Private Survey", "Restricted Access Survey", Choices2, t, t + 3600, false);
    var _ := p.GrantAccess(researcher, 0, [p1]);
    p1Granted := p.CanParticipateInSurvey(0, p1);
    p2Granted := p.CanParticipateInSurvey(0, p2);
    var _ := p.RevokeAccess(researcher, 0, [p1]);
    p1Revoked := p.CanParticipateInSurvey(0, p1);
    var _ := p.LaunchSurvey(researcher, "Open Survey", "Open Access Survey", Choices2, t, t + 3600, true);
    openGrant := p.GrantAccess(researcher, 1, [p1]);
    openP2 := p.CanParticipateInSurvey(1, p2);
  }

  /** Survey closure (test lines 258-316): the researcher or the owner closes,
      anybody else is refused, a second close is refused. */
  method ClosureScenario(owner: Address, researcher: Address, other: Address, t: nat, byOwner: bool)
    returns (intruder: Outcome<Event>, closed: Outcome<Event>, active: Outcome<SurveyInfo>, again: Outcome<Event>)
    requires other != owner && other != researcher && researcher != owner
    ensures intruder == Reverted(CloseNotAuthorizedReason)
    ensures closed == Ok(SurveyClosed(0))
    ensures active.Ok? && !active.value.isActive
    ensures again == Reverted(AlreadyClosedReason)
  {
    var p := new Platform(owner);
    var _ := p.SetResearcher(owner, researcher, true);
    var _ := p.LaunchSurvey(researcher, "Test Survey", "Test Description", Choices2, t, t + 3600, true);
    intruder := p.CloseSurvey(other, 0);
    closed := p.CloseSurvey(if byOwner then owner else researcher, 0);
    active := p.GetSurveyInfo(0);
    again := p.CloseSurvey(researcher, 0);
  }

  /** Response status and edge cases (test lines 318-383). */
  method ResponseStatusScenario(owner: Address, researcher: Address, p1: Address, t: nat)
    returns (responded: Outcome<bool>, missing: Outcome<SurveyInfo>, badChoice: Outcome<Handle>)
    requires researcher != owner
    ensures responded == Ok(false)
    ensures missing == Reverted(NoSuchSurveyReason)
    ensures badChoice == Reverted(ChoiceIndexReason)
  {
    var p := new Platform(owner);
    missing := p.GetSurveyInfo(999);
    var _ := p.SetResearcher(owner, researcher, true);
    var _ := p.LaunchSurvey(researcher, "Test Survey", "Test Description", Choices2, t, t + 3600, true);
    responded := p.HasResponded(0, p1);
    badChoice := p.GetEncryptedResponseCount(0, 999);
  }
}
