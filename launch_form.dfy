/** opinion-hub-frontend/components/LaunchSurveyForm.tsx: the form a researcher
    fills in to launch a survey. It keeps two to four choice inputs, checks the
    inputs before submitting, and turns a duration in hours into the launch
    and close times the registry expects. */
module LaunchForm {
  import opened Base
  import Registry

  const TopicKey := "topic"
  const DescriptionKey := "description"
  const ChoicesKey := "choices"
  const DurationKey := "duration"

  const TopicError := "Topic is required"
  const DescriptionError := "Description is required"
  const ChoicesError := "At least 2 choices are required"
  const DurationError := "Duration must be at least 1 hour"

  const SecondsPerHour := 3600
  const DefaultDuration := 24

  /** A choice input that counts: not blank after trimming. */
  predicate IsFilled(choice: string) {
    !IsBlank(choice)
  }

  // ---------------------------------------------------------------------
  // The choice list (lines 43-59)

  /** `choices.filter((_, i) => i !== index)`: drops the entry at `index`,
      if there is one. */
  function RemoveIndex(choices: seq<string>, index: int): (r: seq<string>)
    ensures 0 <= index < |choices| ==>
      && |r| == |choices| - 1
      && (forall j :: 0 <= j < index ==> r[j] == choices[j])
      && (forall j :: index <= j < |r| ==> r[j] == choices[j + 1])
    ensures !(0 <= index < |choices|) ==> r == choices
  {
    if 0 <= index < |choices| then choices[..index] + choices[index + 1..] else choices
  }

  // ---------------------------------------------------------------------
  // validateForm (lines 61-83)

  /** The error record `validateForm` builds: one entry per failing check,
      under its own key. */
  function ValidateForm(topic: string, description: string, choices: seq<string>, duration: int): (errors: map<string, string>)
    ensures errors.Keys <= {TopicKey, DescriptionKey, ChoicesKey, DurationKey}
    ensures TopicKey in errors <==> IsBlank(topic)
    ensures DescriptionKey in errors <==> IsBlank(description)
    ensures ChoicesKey in errors <==> CountWhere(choices, IsFilled) < 2
    ensures DurationKey in errors <==> duration < 1
    ensures TopicKey in errors ==> errors[TopicKey] == TopicError
    ensures DescriptionKey in errors ==> errors[DescriptionKey] == DescriptionError
    ensures ChoicesKey in errors ==> errors[ChoicesKey] == ChoicesError
    ensures DurationKey in errors ==> errors[DurationKey] == DurationError
  {
    var e0: map<string, string> := map[];
    var e1 := if IsBlank(topic) then e0[TopicKey := TopicError] else e0;
    var e2 := if IsBlank(description) then e1[DescriptionKey := DescriptionError] else e1;
    var e3 := if CountWhere(choices, IsFilled) < 2 then e2[ChoicesKey := ChoicesError] else e2;
    if duration < 1 then e3[DurationKey := DurationError] else e3
  }

  /** The form passes exactly when all four checks pass. */
  predicate FormPasses(topic: string, description: string, choices: seq<string>, duration: int) {
    ValidateForm(topic, description, choices, duration) == map[]
  }

  lemma FormPassesIff(topic: string, description: string, choices: seq<string>, duration: int)
    ensures FormPasses(topic, description, choices, duration) <==>
      !IsBlank(topic) && !IsBlank(description) && CountWhere(choices, IsFilled) >= 2 && duration >= 1
  {
    var errors := ValidateForm(topic, description, choices, duration);
    if IsBlank(topic) {
      assert TopicKey in errors;
    } else if IsBlank(description) {
      assert DescriptionKey in errors;
    } else if CountWhere(choices, IsFilled) < 2 {
      assert ChoicesKey in errors;
    } else if duration < 1 {
      assert DurationKey in errors;
    }
  }

  // ---------------------------------------------------------------------
  // The submitted payload (lines 90-104)

  datatype Payload = Payload(
    topic: string,
    description: string,
    choices: seq<string>,
    launchTime: int,
    closeTime: int,
    isOpenAccess: bool)

  /** What `handleSubmit` passes on: trimmed topic and description, the
      non-blank choices as typed (not trimmed), in order, and a close time
      `duration` hours after `now`. */
  function BuildPayload(topic: string, description: string, choices: seq<string>, duration: int,
                        isOpenAccess: bool, now: int): (p: Payload)
    ensures p.topic == Trim(topic) && p.description == Trim(description)
    ensures p.choices == Filter(choices, IsFilled)
    ensures p.launchTime == now && p.closeTime - p.launchTime == duration * SecondsPerHour
    ensures p.isOpenAccess == isOpenAccess
  {
    Payload(Trim(topic), Trim(description), Filter(choices, IsFilled), now, now + duration * SecondsPerHour, isOpenAccess)
  }

  /** The choices a passing form submits: two to four, none blank. */
  lemma SubmittedChoices(choices: seq<string>)
    requires |choices| <= 4 && CountWhere(choices, IsFilled) >= 2
    ensures 2 <= |Filter(choices, IsFilled)| <= 4
    ensures forall i :: 0 <= i < |Filter(choices, IsFilled)| ==> !IsBlank(Filter(choices, IsFilled)[i])
  {
  }

  /** A form that passed validation, with its two to four choice inputs,
      submits two to four non-blank choices and a close time after the
      launch time, so the registry's "Must have 2-4 choices" and "Invalid
      time range" guards never fire on it: a researcher's launch is admitted. */
  lemma ValidatedPayloadPassesRegistryGuards(topic: string, description: string, choices: seq<string>,
                                             duration: int, isOpenAccess: bool, now: nat)
    requires 2 <= |choices| <= 4
    requires FormPasses(topic, description, choices, duration)
    ensures 2 <= |BuildPayload(topic, description, choices, duration, isOpenAccess, now).choices| <= 4
    ensures forall i :: 0 <= i < |Filter(choices, IsFilled)| ==> !IsBlank(Filter(choices, IsFilled)[i])
    ensures BuildPayload(topic, description, choices, duration, isOpenAccess, now).closeTime > now
    ensures Registry.LaunchRejection(true, Filter(choices, IsFilled), now, now + duration * SecondsPerHour) == None
  {
    FormPassesIff(topic, description, choices, duration);
    SubmittedChoices(choices);
  }

  // ---------------------------------------------------------------------
  // The form's state (lines 36-41) and handlers

  class LaunchSurveyForm {
    var topic: string
    var description: string
    var choices: seq<string>
    var duration: int
    var isOpenAccess: bool
    var errors: map<string, string>

    /** The add and remove buttons keep two to four choice inputs. */
    ghost predicate Valid()
      reads this
    {
      2 <= |choices| <= 4
    }

    constructor ()
      ensures Valid()
      ensures topic == "" && description == "" && choices == ["", ""]
      ensures duration == DefaultDuration && isOpenAccess && errors == map[]
    {
      topic := "";
      description := "";
      choices := ["", ""];
      duration := DefaultDuration;
      isOpenAccess := true;
      errors := map[];
    }

    /** The inputs' change handlers. */
    method SetInputs(topic': string, description': string, duration': int, isOpenAccess': bool)
      modifies this`topic, this`description, this`duration, this`isOpenAccess
      ensures topic == topic' && description == description' && duration == duration' && isOpenAccess == isOpenAccess'
    {
      topic, description, duration, isOpenAccess := topic', description', duration', isOpenAccess';
    }

    /** `addChoice`: a new empty input, only while fewer than four exist. */
    method AddChoice()
      requires Valid()
      modifies this`choices
      ensures Valid()
      ensures |old(choices)| < 4 ==> choices == old(choices) + [""]
      ensures |old(choices)| >= 4 ==> choices == old(choices)
    {
      if |choices| < 4 {
        choices := choices + [""];
      }
    }

    /** `removeChoice(index)`: only while more than two exist. */
    method RemoveChoice(index: int)
      requires Valid()
      modifies this`choices
      ensures Valid()
      ensures |old(choices)| > 2 ==> choices == RemoveIndex(old(choices), index)
      ensures |old(choices)| <= 2 ==> choices == old(choices)
    {
      if |choices| > 2 {
        choices := RemoveIndex(choices, index);
      }
    }

    /** `updateChoice(index, value)`; the rendering only passes the index of
        an existing input. */
    method UpdateChoice(index: int, value: string)
      requires Valid()
      requires 0 <= index < |choices|
      modifies this`choices
      ensures Valid()
      ensures |choices| == |old(choices)| && choices[index] == value
      ensures forall j :: 0 <= j < |choices| && j != index ==> choices[j] == old(choices)[j]
    {
      choices := choices[index := value];
    }

    /** `handleSubmit` up to `await onSubmit(...)`: records the errors and,
        when there are none, hands on the payload. */
    method BeginSubmit(now: int) returns (p: Option<Payload>)
      modifies this`errors
      ensures errors == ValidateForm(topic, description, choices, duration)
      ensures p.Some? <==> errors == map[]
      ensures p.Some? ==> p.value == BuildPayload(topic, description, choices, duration, isOpenAccess, now)
    {
      errors := ValidateForm(topic, description, choices, duration);
      if errors == map[] {
        p := Some(BuildPayload(topic, description, choices, duration, isOpenAccess, now));
      } else {
        p := None;
      }
    }

    /** The rest of `handleSubmit`: every field is reset after a successful
        launch; after a failure the form keeps what was typed. */
    method FinishSubmit(succeeded: bool)
      requires Valid()
      modifies this
      ensures Valid()
      ensures succeeded ==>
        && topic == "" && description == "" && choices == ["", ""]
        && duration == DefaultDuration && isOpenAccess && errors == map[]
      ensures !succeeded ==> unchanged(this)
    {
      if succeeded {
        topic := "";
        description := "";
        choices := ["", ""];
        duration := DefaultDuration;
        isOpenAccess := true;
        errors := map[];
      }
    }
  }

  /** `onSubmit(payload)`: the payload becomes a `launchSurvey` transaction
      from the researcher, which the registry admits when the payload passes
      its guards. */
  method SendLaunch(platform: Registry.Platform, researcher: Registry.Address, p: Payload)
    returns (r: Registry.Outcome<Registry.Event>)
    requires platform.Valid() && researcher in platform.researchers
    requires 0 <= p.launchTime && 0 <= p.closeTime
    requires Registry.LaunchRejection(true, p.choices, p.launchTime, p.closeTime) == None
    modifies platform`surveys, platform`surveyCounter
    ensures platform.Valid()
    ensures r == Registry.Ok(Registry.SurveyLaunched(old(platform.surveyCounter), p.topic, researcher))
    ensures platform.surveyCounter == old(platform.surveyCounter) + 1
    ensures platform.surveys == old(platform.surveys)
      + [Registry.NewSurvey(researcher, p.topic, p.description, p.choices, p.launchTime, p.closeTime, p.isOpenAccess)]
  {
    r := platform.LaunchSurvey(researcher, p.topic, p.description, p.choices, p.launchTime, p.closeTime, p.isOpenAccess);
  }

  /** A researcher's form, submitted, reaches the registry exactly when the
      form accepts its inputs, and is then admitted: the registry gains the
      survey the payload describes. A refused form sends nothing. */
  method SubmitToRegistry(platform: Registry.Platform, form: LaunchSurveyForm, researcher: Registry.Address, now: nat)
    returns (sent: Option<Payload>, r: Option<Registry.Outcome<Registry.Event>>)
    requires platform.Valid() && form.Valid() && researcher in platform.researchers
    modifies platform`surveys, platform`surveyCounter, form`errors
    ensures platform.Valid()
    ensures form.errors == ValidateForm(form.topic, form.description, form.choices, form.duration)
    ensures sent.Some? <==> FormPasses(form.topic, form.description, form.choices, form.duration)
    ensures sent.Some? <==> r.Some?
    ensures sent.Some? ==>
      && sent.value == BuildPayload(form.topic, form.description, form.choices, form.duration, form.isOpenAccess, now)
      && 0 <= sent.value.launchTime < sent.value.closeTime
      && Registry.LaunchRejection(true, sent.value.choices, sent.value.launchTime, sent.value.closeTime) == None
      && r.value == Registry.Ok(Registry.SurveyLaunched(old(platform.surveyCounter), sent.value.topic, researcher))
      && platform.surveyCounter == old(platform.surveyCounter) + 1
      && platform.surveys == old(platform.surveys) + [Registry.NewSurvey(researcher, sent.value.topic,
           sent.value.description, sent.value.choices, sent.value.launchTime, sent.value.closeTime, sent.value.isOpenAccess)]
    ensures sent.None? ==> platform.surveys == old(platform.surveys) && platform.surveyCounter == old(platform.surveyCounter)
  {
    sent := form.BeginSubmit(now);
    if sent.None? {
      return sent, None;
    }
    ValidatedPayloadPassesRegistryGuards(form.topic, form.description, form.choices, form.duration, form.isOpenAccess, now);
    var outcome := SendLaunch(platform, researcher, sent.value);
    r := Some(outcome);
  }
}
