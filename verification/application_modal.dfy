/** The v0 quest modal's behaviour: the field-routing input handler, the
    countdown timers, free level navigation, the submission guard and the
    reset after a successful submission. */
module ApplicationModal {
  import opened Util
  import opened ApplicationSchema

  const TotalLevels := 7
  const CodeTimer := "code-timer"
  const CodeTimerSeconds := 420

  /** The empty form; a truthy role in the opening context pre-fills the
      final transmission. */
  function InitialFormData(role: Option<string>): (d: ApplicationData)
    ensures role.Some? && role.value != "" ==>
      d.finalTransmission == "Applying for " + role.value + " position"
    ensures role.None? || role.value == "" ==> d.finalTransmission == ""
    ensures forall p :: p != Field("finalTransmission") ==>
      LeafAt(d, p) == None || LeafAt(d, p) == Some(Text("")) || LeafAt(d, p) == Some(Flag(false))
  {
    ApplicationData(
      "", Ratings("", "", "", "", "", ""), "", "", "", "", "", "", "", "", "",
      "", "", "", "", "", "", VibeCheck(false, false, false, false, false),
      if role.Some? && role.value != "" then "Applying for " + role.value + " position" else "",
      "")
  }

  /** A fresh form fails the check: the first name is empty. */
  lemma InitialFormInvalid(role: Option<string>, isEmail: string -> bool)
    ensures Issues(InitialFormData(role), isEmail) != []
  {
    IssuesEmptyIff(InitialFormData(role), isEmail);
  }

  // ------------------------------------------------------ input routing

  /** A change event: the input's name, its value, its checked state and
      whether it is a checkbox. */
  datatype InputEvent = InputEvent(name: string, value: string, checked: bool, isCheckbox: bool)

  /** A leaf of the form: a text or a flag. */
  datatype Leaf = Text(s: string) | Flag(b: bool)

  const VibePrefix := "vibe_"
  const RatingPrefix := "rating"

  const VibeKeys: set<string> := {"future", "speed", "ai", "greatness", "revolution"}
  const RatingKeys: set<string> := {"react", "ai", "edge", "db", "secretWeapon", "secretRating"}
  const TextFields: set<string> := {
    "domainPitch", "agent", "codeSolution", "visionPath", "visionResponse", "devEnv",
    "superpower", "manifesto", "availability", "customTimeline", "firstName", "lastName",
    "email", "phone", "github", "portfolio", "finalTransmission", "timestamp"}

  /** The address of a leaf: a top-level text field, a rating or a vibe
      flag (`firstName`, `ratings.react`, `vibeCheck.future`). */
  datatype Path = Field(name: string) | Rating(key: string) | Vibe(key: string)

  /** The top-level text field called `name`, if the form has one. */
  function TextAt(d: ApplicationData, name: string): Option<Leaf>
  {
    match name
    case "domainPitch" => Some(Text(d.domainPitch))
    case "agent" => Some(Text(d.agent))
    case "codeSolution" => Some(Text(d.codeSolution))
    case "visionPath" => Some(Text(d.visionPath))
    case "visionResponse" => Some(Text(d.visionResponse))
    case "devEnv" => Some(Text(d.devEnv))
    case "superpower" => Some(Text(d.superpower))
    case "manifesto" => Some(Text(d.manifesto))
    case "availability" => Some(Text(d.availability))
    case "customTimeline" => Some(Text(d.customTimeline))
    case "firstName" => Some(Text(d.firstName))
    case "lastName" => Some(Text(d.lastName))
    case "email" => Some(Text(d.email))
    case "phone" => Some(Text(d.phone))
    case "github" => Some(Text(d.github))
    case "portfolio" => Some(Text(d.portfolio))
    case "finalTransmission" => Some(Text(d.finalTransmission))
    case "timestamp" => Some(Text(d.timestamp))
    case _ => None
  }

  function RatingAt(r: Ratings, key: string): Option<Leaf>
  {
    match key
    case "react" => Some(Text(r.react))
    case "ai" => Some(Text(r.ai))
    case "edge" => Some(Text(r.edge))
    case "db" => Some(Text(r.db))
    case "secretWeapon" => Some(Text(r.secretWeapon))
    case "secretRating" => Some(Text(r.secretRating))
    case _ => None
  }

  function VibeAt(v: VibeCheck, key: string): Option<Leaf>
  {
    match key
    case "future" => Some(Flag(v.future))
    case "speed" => Some(Flag(v.speed))
    case "ai" => Some(Flag(v.ai))
    case "greatness" => Some(Flag(v.greatness))
    case "revolution" => Some(Flag(v.revolution))
    case _ => None
  }

  /** The leaf at a path, `None` for a path the form does not have. */
  function LeafAt(d: ApplicationData, p: Path): Option<Leaf>
  {
    match p
    case Field(name) => TextAt(d, name)
    case Rating(key) => RatingAt(d.ratings, key)
    case Vibe(key) => VibeAt(d.vibeCheck, key)
  }

  /** `{ ...prev.vibeCheck, [key]: checked }`. */
  function SetVibe(v: VibeCheck, key: string, checked: bool): VibeCheck
  {
    match key
    case "future" => v.(future := checked)
    case "speed" => v.(speed := checked)
    case "ai" => v.(ai := checked)
    case "greatness" => v.(greatness := checked)
    case "revolution" => v.(revolution := checked)
    case _ => v
  }

  /** `{ ...prev.ratings, [key]: value }`. */
  function SetRating(r: Ratings, key: string, value: string): Ratings
  {
    match key
    case "react" => r.(react := value)
    case "ai" => r.(ai := value)
    case "edge" => r.(edge := value)
    case "db" => r.(db := value)
    case "secretWeapon" => r.(secretWeapon := value)
    case "secretRating" => r.(secretRating := value)
    case _ => r
  }

  /** `{ ...prev, [name]: value }` for a top-level text field. */
  function SetText(d: ApplicationData, name: string, value: string): ApplicationData
  {
    match name
    case "domainPitch" => d.(domainPitch := value)
    case "agent" => d.(agent := value)
    case "codeSolution" => d.(codeSolution := value)
    case "visionPath" => d.(visionPath := value)
    case "visionResponse" => d.(visionResponse := value)
    case "devEnv" => d.(devEnv := value)
    case "superpower" => d.(superpower := value)
    case "manifesto" => d.(manifesto := value)
    case "availability" => d.(availability := value)
    case "customTimeline" => d.(customTimeline := value)
    case "firstName" => d.(firstName := value)
    case "lastName" => d.(lastName := value)
    case "email" => d.(email := value)
    case "phone" => d.(phone := value)
    case "github" => d.(github := value)
    case "portfolio" => d.(portfolio := value)
    case "finalTransmission" => d.(finalTransmission := value)
    case "timestamp" => d.(timestamp := value)
    case _ => d
  }

  /** `handleInputChange`: `vibe_X` sets the flag `X`, `ratingX` sets the
      rating named by `X` in lower case, `secretWeapon` and `secretRating`
      go into the ratings, and any other name sets the top-level field. */
  function HandleInputChange(prev: ApplicationData, e: InputEvent): ApplicationData
  {
    if StartsWith(e.name, VibePrefix) then
      prev.(vibeCheck := SetVibe(prev.vibeCheck, e.name[|VibePrefix|..], e.checked))
    else if StartsWith(e.name, RatingPrefix) then
      prev.(ratings := SetRating(prev.ratings, ToLowerAscii(e.name[|RatingPrefix|..]), e.value))
    else if e.name == "secretWeapon" || e.name == "secretRating" then
      prev.(ratings := SetRating(prev.ratings, e.name, e.value))
    else if e.isCheckbox then prev
    else SetText(prev, e.name, e.value)
  }

  /** The path of the leaf an event writes, if the form has it. */
  function Route(e: InputEvent): Option<Path>
  {
    if StartsWith(e.name, VibePrefix) then
      var key := e.name[|VibePrefix|..];
      if key in VibeKeys then Some(Vibe(key)) else None
    else if StartsWith(e.name, RatingPrefix) then
      var key := ToLowerAscii(e.name[|RatingPrefix|..]);
      if key in RatingKeys then Some(Rating(key)) else None
    else if e.name == "secretWeapon" || e.name == "secretRating" then Some(Rating(e.name))
    else if e.isCheckbox || e.name !in TextFields then None
    else Some(Field(e.name))
  }

  /** The value an event writes: the checked state for a vibe flag, the
      input's value otherwise. */
  function Written(e: InputEvent): Leaf
  {
    if StartsWith(e.name, VibePrefix) then Flag(e.checked) else Text(e.value)
  }

  /** The input handler writes exactly one leaf, the one `Route` names, and
      leaves every other leaf as it was; an event naming no leaf of the
      form changes nothing in it. */
  lemma InputChangeWritesOneLeaf(prev: ApplicationData, e: InputEvent)
    ensures Route(e).None? ==> HandleInputChange(prev, e) == prev
    ensures Route(e).Some? ==> LeafAt(HandleInputChange(prev, e), Route(e).value) == Some(Written(e))
    ensures forall q :: Route(e) != Some(q) ==> LeafAt(HandleInputChange(prev, e), q) == LeafAt(prev, q)
  {
    var next := HandleInputChange(prev, e);
    if StartsWith(e.name, VibePrefix) {
      VibeLeaf(prev, e.name[|VibePrefix|..], e.checked);
    } else if StartsWith(e.name, RatingPrefix) {
      RatingLeaf(prev, ToLowerAscii(e.name[|RatingPrefix|..]), e.value);
    } else if e.name == "secretWeapon" || e.name == "secretRating" {
      RatingLeaf(prev, e.name, e.value);
    } else if !e.isCheckbox {
      TextLeaf(prev, e.name, e.value);
    }
  }

  lemma VibeLeaf(prev: ApplicationData, key: string, checked: bool)
    ensures var next := prev.(vibeCheck := SetVibe(prev.vibeCheck, key, checked));
      (key !in VibeKeys ==> next == prev) &&
      (key in VibeKeys ==> LeafAt(next, Vibe(key)) == Some(Flag(checked))) &&
      forall q :: q != Vibe(key) ==> LeafAt(next, q) == LeafAt(prev, q)
  {
  }

  lemma RatingLeaf(prev: ApplicationData, key: string, value: string)
    ensures var next := prev.(ratings := SetRating(prev.ratings, key, value));
      (key !in RatingKeys ==> next == prev) &&
      (key in RatingKeys ==> LeafAt(next, Rating(key)) == Some(Text(value))) &&
      forall q :: q != Rating(key) ==> LeafAt(next, q) == LeafAt(prev, q)
  {
  }

  lemma TextLeaf(prev: ApplicationData, name: string, value: string)
    ensures var next := SetText(prev, name, value);
      (name !in TextFields ==> next == prev) &&
      (name in TextFields ==> LeafAt(next, Field(name)) == Some(Text(value))) &&
      forall q :: q != Field(name) ==> LeafAt(next, q) == LeafAt(prev, q)
  {
  }

  /** An input named `rating` plus a suffix writes the rating the suffix
      names in lower case (`ratingReact` writes `react`), whatever the case
      of the suffix, and nothing when no rating has that name. */
  lemma RatingInputRoute(prev: ApplicationData, suffix: string, e: InputEvent)
    requires e.name == RatingPrefix + suffix
    ensures Route(e) == if ToLowerAscii(suffix) in RatingKeys then Some(Rating(ToLowerAscii(suffix))) else None
    ensures HandleInputChange(prev, e) == prev.(ratings := SetRating(prev.ratings, ToLowerAscii(suffix), e.value))
  {
    assert e.name[0] == 'r';
    assert !StartsWith(e.name, VibePrefix);
    assert e.name[..|RatingPrefix|] == RatingPrefix;
    assert e.name[|RatingPrefix|..] == suffix;
  }

  // ---------------------------------------------------------- countdown

  /** The interval callback's arithmetic: one second less, stopping at 0. */
  function TickValue(current: int): (r: int)
    ensures r >= 0
    ensures r == 0 <==> current <= 1
    ensures r > 0 ==> r == current - 1
  {
    if current - 1 <= 0 then 0 else current - 1
  }

  /** The value after `n` ticks. */
  function Ticks(current: int, n: nat): int
    decreases n
  {
    if n == 0 then current else Ticks(TickValue(current), n - 1)
  }

  /** A countdown started at `v` shows `v - n` after `n` ticks, and 0 from
      then on once it gets there. */
  lemma {:induction false} TicksCountDown(v: int, n: nat)
    requires n >= 1
    ensures Ticks(v, n) == if v - n <= 0 then 0 else v - n
    decreases n
  {
    if n > 1 {
      TicksCountDown(TickValue(v), n - 1);
    }
  }

  /** `prev[timerId] || 0`. */
  function Current(timers: map<string, int>, id: string): int
  {
    if id in timers then timers[id] else 0
  }

  /** The `timers` state and the keys of `intervalRefs` (the running timers). */
  class Countdown {
    var timers: map<string, int>
    var running: set<string>

    constructor ()
      ensures timers == map[] && running == {}
    {
      timers := map[];
      running := {};
    }

    /** `startTimer`: restart the interval and set the value. */
    method StartTimer(id: string, seconds: int)
      modifies this
      ensures timers == old(timers)[id := seconds]
      ensures running == old(running) + {id}
    {
      timers := timers[id := seconds];
      running := running + {id};
    }

    /** One firing of a running timer's interval. */
    method Tick(id: string)
      requires id in running
      modifies this
      ensures timers == old(timers)[id := TickValue(Current(old(timers), id))]
      ensures running == if TickValue(Current(old(timers), id)) == 0 then old(running) - {id} else old(running)
    {
      var newTime := Current(timers, id) - 1;
      if newTime <= 0 {
        running := running - {id};
        timers := timers[id := 0];
      } else {
        timers := timers[id := newTime];
      }
    }

    /** `stopTimer`: clear the interval, keep the value. */
    method StopTimer(id: string)
      modifies this
      ensures timers == old(timers)
      ensures running == old(running) - {id}
    {
      if id in running {
        running := running - {id};
      }
    }

    /** `resetTimer`: stop, then set the value back. */
    method ResetTimer(id: string, initialSeconds: int)
      modifies this
      ensures timers == old(timers)[id := initialSeconds]
      ensures running == old(running) - {id}
    {
      StopTimer(id);
      timers := timers[id := initialSeconds];
    }
  }

  // ----------------------------------------------------------- the modal

  /** What the ClickUp service returned. */
  datatype SubmissionResult = SubmissionResult(success: bool, message: string,
                                               taskId: Option<string>, taskUrl: Option<string>,
                                               error: Option<string>)

  /** The outcome of awaiting the service: a result, or a rejection. */
  datatype ServiceOutcome = Returned(result: SubmissionResult) | Rejected

  const FallbackFailure := "Failed to submit application"
  const UnexpectedFailure := "An unexpected error occurred. Please try again."

  function Messages(errors: seq<Issue>): (r: seq<string>)
    ensures |r| == |errors| && forall i :: 0 <= i < |errors| ==> r[i] == errors[i].message
  {
    seq(|errors|, i requires 0 <= i < |errors| => errors[i].message)
  }

  predicate Succeeded(outcome: ServiceOutcome)
  {
    outcome.Returned? && outcome.result.success
  }

  /** The error list shown after the service answered: empty on success,
      the service's error (or a fixed fallback) on failure, a fixed message
      when the call rejected. */
  function SubmissionErrorsAfter(outcome: ServiceOutcome): (r: seq<string>)
    ensures Succeeded(outcome) ==> r == []
    ensures outcome.Rejected? ==> r == [UnexpectedFailure]
    ensures outcome.Returned? && !outcome.result.success ==> |r| == 1 && r[0] != ""
    ensures outcome.Returned? && !outcome.result.success ==>
      r == (if outcome.result.error.Some? && outcome.result.error.value != ""
            then [outcome.result.error.value] else [FallbackFailure])
  {
    match outcome
    case Returned(result) =>
      if result.success then []
      else if result.error.Some? && result.error.value != "" then [result.error.value]
      else [FallbackFailure]
    case Rejected => [UnexpectedFailure]
  }

  /** The component state. `closureForm` is the form seen by the
      `submitApplication` that the current `changeLevel` captured: the one
      of the render after the level last changed. */
  class Modal {
    var isOpen: bool
    var currentLevel: int
    var showSuccess: bool
    var isSubmitting: bool
    var submissionErrors: seq<string>
    var submissionResult: Option<SubmissionResult>
    var wordCount: nat
    var formData: ApplicationData
    var validationErrors: seq<Issue>
    var closureForm: ApplicationData
    const initialForm: ApplicationData
    const isEmail: string -> bool
    const countdown: Countdown

    predicate Valid()
      reads this
    {
      1 <= currentLevel <= TotalLevels
    }

    constructor (role: Option<string>, isEmail: string -> bool)
      ensures Valid() && fresh(countdown)
      ensures isOpen && currentLevel == 1 && !showSuccess && !isSubmitting
      ensures submissionErrors == [] && submissionResult.None? && wordCount == 0
      ensures formData == InitialFormData(role) && initialForm == formData && closureForm == formData
      ensures validationErrors == [] && this.isEmail == isEmail
    {
      this.isEmail := isEmail;
      initialForm := InitialFormData(role);
      formData := InitialFormData(role);
      closureForm := InitialFormData(role);
      isOpen := true;
      currentLevel := 1;
      showSuccess := false;
      isSubmitting := false;
      submissionErrors := [];
      submissionResult := None;
      wordCount := 0;
      validationErrors := [];
      countdown := new Countdown();
    }

    /** `validate`: run the schema and keep its issues. */
    method Validate(form: ApplicationData) returns (ok: bool)
      modifies this`validationErrors
      ensures validationErrors == Issues(form, isEmail)
      ensures ok <==> validationErrors == []
      ensures ok <==> SchemaValid(form, isEmail)
    {
      var found := Issues(form, isEmail);
      IssuesEmptyIff(form, isEmail);
      validationErrors := found;
      ok := |found| == 0;
    }

    /** What a run of `submitApplication` that was given the form `form`
        and the issue list `shown` and returned `sent` leaves behind. The
        stored issues are the schema's, and the form goes out exactly when
        it passes. A failed check shows the distinct messages of `shown`
        and keeps the flags. A sent form is the stamped one; the outcome
        decides the messages, the success flag and the result, and the
        submitting flag ends false. */
    twostate predicate SubmitEffect(form: ApplicationData, shown: seq<Issue>, outcome: ServiceOutcome,
                                    now: string, new sent: Option<ApplicationData>)
      reads this
    {
      validationErrors == Issues(form, isEmail) &&
      (sent.Some? <==> validationErrors == []) &&
      (sent.Some? <==> SchemaValid(form, isEmail)) &&
      (sent.None? ==>
        submissionErrors == Dedup(Messages(shown)) && NoDuplicates(submissionErrors) &&
        isSubmitting == old(isSubmitting) && showSuccess == old(showSuccess) &&
        submissionResult == old(submissionResult)) &&
      (sent.Some? ==>
        sent.value == form.(timestamp := now) && !isSubmitting &&
        submissionErrors == SubmissionErrorsAfter(outcome) &&
        showSuccess == (old(showSuccess) || Succeeded(outcome)) &&
        submissionResult == (if Succeeded(outcome) then Some(outcome.result) else old(submissionResult)))
    }

    /** `submitApplication` as captured with the form `form` and the issue
        list `shown` of its render. It returns the data sent to the
        service, if any; `now` is the ISO timestamp added to it. A failed
        check sends nothing and shows the distinct messages of `shown`. */
    method SubmitApplication(form: ApplicationData, shown: seq<Issue>,
                             outcome: ServiceOutcome, now: string) returns (sent: Option<ApplicationData>)
      modifies this`validationErrors, this`submissionErrors, this`isSubmitting,
               this`submissionResult, this`showSuccess
      ensures SubmitEffect(form, shown, outcome, now, sent)
    {
      submissionErrors := [];
      var ok := Validate(form);
      assert isSubmitting == old(isSubmitting) && showSuccess == old(showSuccess) &&
             submissionResult == old(submissionResult) && submissionErrors == [];
      if !ok {
        submissionErrors := Dedup(Messages(shown));
        sent := None;
        return;
      }
      sent := Send(form, outcome, now);
    }

    /** The part of `submitApplication` after a passing check: the call to
        the service and what its outcome shows. */
    method Send(form: ApplicationData, outcome: ServiceOutcome, now: string)
      returns (sent: Option<ApplicationData>)
      requires submissionErrors == []
      modifies this`submissionErrors, this`isSubmitting, this`submissionResult, this`showSuccess
      ensures sent == Some(form.(timestamp := now)) && !isSubmitting
      ensures submissionErrors == SubmissionErrorsAfter(outcome)
      ensures showSuccess == (old(showSuccess) || Succeeded(outcome))
      ensures submissionResult == if Succeeded(outcome) then Some(outcome.result) else old(submissionResult)
    {
      isSubmitting := true;
      sent := Some(form.(timestamp := now));
      match outcome {
        case Returned(result) =>
          if result.success {
            submissionResult := Some(result);
            showSuccess := true;
          } else {
            var message := if result.error.Some? && result.error.value != "" then result.error.value
                           else FallbackFailure;
            submissionErrors := [message];
          }
        case Rejected =>
          submissionErrors := [UnexpectedFailure];
      }
      isSubmitting := false;
    }

    /** `changeLevel(direction)`: clear both error lists, then move when the
        target is a level, with no check of the form; a step forward from
        the last level submits instead, through the captured closure. */
    method ChangeLevel(direction: int, outcome: ServiceOutcome, now: string)
      returns (sent: Option<ApplicationData>)
      requires Valid()
      modifies this`currentLevel, this`validationErrors, this`submissionErrors, this`isSubmitting,
               this`submissionResult, this`showSuccess, this`closureForm
      ensures Valid()
      ensures formData == old(formData) && currentLevel == Navigate(old(currentLevel), [direction])
      ensures 1 <= old(currentLevel) + direction <= TotalLevels ==>
        currentLevel == old(currentLevel) + direction && sent.None? &&
        validationErrors == [] && submissionErrors == [] &&
        closureForm == (if direction != 0 then old(formData) else old(closureForm))
      ensures !(1 <= old(currentLevel) + direction <= TotalLevels) ==>
        currentLevel == old(currentLevel) && closureForm == old(closureForm)
      ensures !(old(currentLevel) == TotalLevels && direction == 1) ==>
        isSubmitting == old(isSubmitting) && showSuccess == old(showSuccess) &&
        submissionResult == old(submissionResult)
      ensures (!(1 <= old(currentLevel) + direction <= TotalLevels) &&
               !(old(currentLevel) == TotalLevels && direction == 1)) ==>
        sent.None? && validationErrors == [] && submissionErrors == []
      ensures old(currentLevel) == TotalLevels && direction == 1 ==>
        SubmitEffect(old(closureForm), [], outcome, now, sent) &&
        (sent.None? ==> submissionErrors == [])
    {
      sent := None;
      var newLevel := currentLevel + direction;
      validationErrors := [];
      submissionErrors := [];
      if 1 <= newLevel <= TotalLevels {
        if newLevel != currentLevel {
          closureForm := formData;
        }
        currentLevel := newLevel;
      } else if currentLevel == TotalLevels && direction == 1 {
        // The captured closure saw the error list of its render, which the
        // level change that created it had just cleared.
        sent := SubmitApplication(closureForm, [], outcome, now);
      }
    }

    /** The footer's primary button: on the last level it calls the current
        `submitApplication`, elsewhere `changeLevel(1)`. */
    method PrimaryButton(outcome: ServiceOutcome, now: string) returns (sent: Option<ApplicationData>)
      requires Valid()
      modifies this`currentLevel, this`validationErrors, this`submissionErrors, this`isSubmitting,
               this`submissionResult, this`showSuccess, this`closureForm
      ensures Valid()
      ensures formData == old(formData)
      ensures old(currentLevel) == TotalLevels ==>
        currentLevel == TotalLevels && closureForm == old(closureForm) &&
        SubmitEffect(old(formData), old(validationErrors), outcome, now, sent)
      ensures old(currentLevel) < TotalLevels ==>
        currentLevel == old(currentLevel) + 1 && sent.None? &&
        validationErrors == [] && submissionErrors == [] && closureForm == old(formData) &&
        isSubmitting == old(isSubmitting) && showSuccess == old(showSuccess) &&
        submissionResult == old(submissionResult)
    {
      if currentLevel == TotalLevels {
        sent := SubmitApplication(formData, validationErrors, outcome, now);
      } else {
        sent := ChangeLevel(1, outcome, now);
        assert 1 <= old(currentLevel) + 1 <= TotalLevels;
      }
    }

    /** A change in any input but the manifesto. */
    method InputChange(e: InputEvent)
      modifies this`formData
      ensures formData == HandleInputChange(old(formData), e)
    {
      formData := HandleInputChange(formData, e);
    }

    /** The manifesto's change handler: store the text and count its words. */
    method ManifestoChange(e: InputEvent)
      modifies this`formData, this`wordCount
      ensures formData == HandleInputChange(old(formData), e)
      ensures wordCount == WordCount(e.value)
    {
      formData := HandleInputChange(formData, e);
      CountWordsIsWordCount(e.value);
      wordCount := CountWords(e.value);
    }

    /** The modal closes: on Escape, or when the timer set after a
        successful submission fires. */
    method Close()
      modifies this`isOpen
      ensures !isOpen
    {
      isOpen := false;
    }

    /** The effect that runs once the modal is closed after a success: back
        to level 1 with the initial form and no errors, the code timer reset
        to 420 seconds and stopped. Otherwise nothing changes. */
    method ResetEffect()
      requires Valid()
      modifies this, countdown
      ensures Valid()
      ensures old(!isOpen && showSuccess) ==>
        currentLevel == 1 && formData == initialForm && submissionResult.None? &&
        submissionErrors == [] && wordCount == 0 && validationErrors == [] && !showSuccess &&
        isOpen == old(isOpen) && isSubmitting == old(isSubmitting) &&
        closureForm == (if old(currentLevel) != 1 then initialForm else old(closureForm)) &&
        countdown.timers == old(countdown.timers)[CodeTimer := CodeTimerSeconds] &&
        countdown.running == old(countdown.running) - {CodeTimer}
      ensures !old(!isOpen && showSuccess) ==> unchanged(this) && unchanged(countdown)
    {
      if !isOpen && showSuccess {
        if currentLevel != 1 {
          closureForm := initialForm;
        }
        currentLevel := 1;
        formData := initialForm;
        submissionResult := None;
        submissionErrors := [];
        wordCount := 0;
        validationErrors := [];
        countdown.ResetTimer(CodeTimer, CodeTimerSeconds);
        showSuccess := false;
      }
    }
  }

  /** Free navigation: any sequence of direction steps that stay in range is
      followed exactly, whatever the form holds. */
  function Navigate(level: int, steps: seq<int>): int
    decreases |steps|
  {
    if steps == [] then level
    else
      var next := level + steps[0];
      Navigate(if 1 <= next <= TotalLevels then next else level, steps[1..])
  }

  /** Starting from any level in [1, 7], navigation stays in [1, 7]. */
  lemma {:induction false} NavigateStaysInRange(level: int, steps: seq<int>)
    requires 1 <= level <= TotalLevels
    ensures 1 <= Navigate(level, steps) <= TotalLevels
    decreases |steps|
  {
    if steps != [] {
      var next := level + steps[0];
      NavigateStaysInRange(if 1 <= next <= TotalLevels then next else level, steps[1..]);
    }
  }
}
