/** The validating seven-level quest modal: its form data, the per-level
    required-field check, the next / previous / submit handlers that move
    between levels, the rating label and the multi-select list operations. */
module QuestModal {
  import opened Util

  // -------------------------------------------------------------- form

  datatype BasicInfo = BasicInfo(firstName: string, lastName: string, email: string,
                                 location: string, portfolio: string, linkedin: string)
  datatype Experience = Experience(totalYears: string, currentRole: string,
                                   techStack: seq<string>, achievements: string)
  datatype TechnicalSkills = TechnicalSkills(frontendRating: int, backendRating: int,
                                             mobileRating: int, devOpsRating: int,
                                             specializations: seq<string>)
  datatype ProblemSolving = ProblemSolving(challengeDescription: string, approach: string,
                                           outcome: string, learnings: string)
  datatype SystemDesign = SystemDesign(scalabilityRating: int, architectureExperience: string,
                                       performanceOptimization: string, securityPractices: string)
  datatype Innovation = Innovation(innovationExample: string, emergingTech: seq<string>,
                                   continuousLearning: string, openSourceContributions: string)
  datatype Culture = Culture(workStyle: string, collaboration: string, mentorship: string,
                             values: seq<string>)
  datatype FormData = FormData(basicInfo: BasicInfo, experience: Experience,
                               technicalSkills: TechnicalSkills, problemSolving: ProblemSolving,
                               systemDesign: SystemDesign, innovation: Innovation,
                               culture: Culture)

  /** The form as the modal first renders it: every text empty, every list
      empty and every rating 0. */
  const InitialForm := FormData(
    BasicInfo("", "", "", "", "", ""),
    Experience("", "", [], ""),
    TechnicalSkills(0, 0, 0, 0, []),
    ProblemSolving("", "", "", ""),
    SystemDesign(0, "", "", ""),
    Innovation("", [], "", ""),
    Culture("", "", "", []))

  const FirstLevel := 1
  const LastLevel := 7

  // ------------------------------------------------- required fields

  /** One required-field test: the error key, the field's text and the
      message recorded when the text is empty. */
  datatype Check = Check(key: string, text: string, message: string)

  /** The tests each level runs, in the order the switch runs them. */
  function Checks(level: int, form: FormData): seq<Check>
  {
    var b, x, p := form.basicInfo, form.experience, form.problemSolving;
    var d, n, c := form.systemDesign, form.innovation, form.culture;
    if level == 1 then
      [Check("firstName", b.firstName, "First name is required"),
       Check("lastName", b.lastName, "Last name is required"),
       Check("email", b.email, "Email is required"),
       Check("location", b.location, "Location is required")]
    else if level == 2 then
      [Check("totalYears", x.totalYears, "Years of experience is required"),
       Check("currentRole", x.currentRole, "Current role is required"),
       Check("achievements", x.achievements, "Achievements are required")]
    else if level == 4 then
      [Check("challengeDescription", p.challengeDescription, "Challenge description is required"),
       Check("approach", p.approach, "Approach is required"),
       Check("outcome", p.outcome, "Outcome is required"),
       Check("learnings", p.learnings, "Learnings are required")]
    else if level == 5 then
      [Check("architectureExperience", d.architectureExperience, "Architecture experience is required"),
       Check("performanceOptimization", d.performanceOptimization, "Performance optimization is required"),
       Check("securityPractices", d.securityPractices, "Security practices are required")]
    else if level == 6 then
      [Check("innovationExample", n.innovationExample, "Innovation example is required"),
       Check("continuousLearning", n.continuousLearning, "Continuous learning approach is required")]
    else if level == 7 then
      [Check("workStyle", c.workStyle, "Work style is required"),
       Check("collaboration", c.collaboration, "Collaboration approach is required"),
       Check("mentorship", c.mentorship, "Mentorship experience is required")]
    else []
  }

  /** The error keys a level can report. */
  function RequiredKeys(level: int): set<string>
  {
    set c | c in Checks(level, InitialForm) :: c.key
  }

  /** One `if (!text) newErrors[key] = message`. */
  function AddIfEmpty(e: map<string, string>, c: Check): map<string, string>
  {
    if c.text == "" then e[c.key := c.message] else e
  }

  /** The record a run of tests fills, starting from `{}`. */
  function Errors(cs: seq<Check>): map<string, string>
    decreases |cs|
  {
    if cs == [] then map[] else AddIfEmpty(Errors(cs[..|cs| - 1]), cs[|cs| - 1])
  }

  /** The error record a level's check produces. */
  function LevelErrors(level: int, form: FormData): map<string, string>
  {
    Errors(Checks(level, form))
  }

  /** A key is reported exactly when some test for it finds its text empty. */
  lemma {:induction false} ErrorsKeys(cs: seq<Check>, k: string)
    ensures k in Errors(cs) <==> exists i :: 0 <= i < |cs| && cs[i].key == k && cs[i].text == ""
    decreases |cs|
  {
    if cs != [] {
      var init := cs[..|cs| - 1];
      ErrorsKeys(init, k);
      if exists i :: 0 <= i < |init| && init[i].key == k && init[i].text == "" {
        var i :| 0 <= i < |init| && init[i].key == k && init[i].text == "";
        assert cs[i] == init[i];
      }
      if exists i :: 0 <= i < |cs| && cs[i].key == k && cs[i].text == "" {
        var i :| 0 <= i < |cs| && cs[i].key == k && cs[i].text == "";
        if i < |init| {
          assert init[i] == cs[i];
        }
      }
    }
  }

  /** A reported key carries the message of its last failing test. */
  lemma {:induction false} ErrorsMessage(cs: seq<Check>, j: int)
    requires 0 <= j < |cs| && cs[j].text == ""
    requires forall i :: j < i < |cs| ==> cs[i].key != cs[j].key || cs[i].text != ""
    ensures cs[j].key in Errors(cs) && Errors(cs)[cs[j].key] == cs[j].message
    decreases |cs|
  {
    if j < |cs| - 1 {
      var init := cs[..|cs| - 1];
      assert forall i :: j < i < |init| ==> init[i] == cs[i];
      ErrorsMessage(init, j);
    }
  }

  /** Two runs of the same tests that find the same texts empty fill the
      same record. */
  lemma {:induction false} SameGapsSameErrors(cs: seq<Check>, ds: seq<Check>)
    requires |cs| == |ds|
    requires forall i :: 0 <= i < |cs| ==>
      cs[i].key == ds[i].key && cs[i].message == ds[i].message && (cs[i].text == "" <==> ds[i].text == "")
    ensures Errors(cs) == Errors(ds)
    decreases |cs|
  {
    if cs != [] {
      SameGapsSameErrors(cs[..|cs| - 1], ds[..|ds| - 1]);
    }
  }

  /** A level passes exactly when none of its tests finds an empty text. */
  lemma LevelPassesIff(level: int, form: FormData)
    ensures LevelErrors(level, form) == map[] <==>
      forall c :: c in Checks(level, form) ==> c.text != ""
  {
    var cs := Checks(level, form);
    if LevelErrors(level, form) == map[] {
      forall c | c in cs ensures c.text != "" {
        var i :| 0 <= i < |cs| && cs[i] == c;
        ErrorsKeys(cs, c.key);
      }
    } else {
      var k :| k in LevelErrors(level, form);
      ErrorsKeys(cs, k);
    }
  }

  /** The tests of a level differ from form to form only in the texts. */
  lemma ChecksShape(level: int, f: FormData, g: FormData)
    ensures |Checks(level, f)| == |Checks(level, g)|
    ensures forall i :: 0 <= i < |Checks(level, f)| ==>
      Checks(level, f)[i].key == Checks(level, g)[i].key &&
      Checks(level, f)[i].message == Checks(level, g)[i].message
  {
    if level == 1 || level == 2 || level == 4 {
      ChecksShapeEarly(level, f, g);
    } else if level == 5 || level == 6 || level == 7 {
      ChecksShapeLate(level, f, g);
    }
  }

  lemma ChecksShapeEarly(level: int, f: FormData, g: FormData)
    requires level == 1 || level == 2 || level == 4
    ensures |Checks(level, f)| == |Checks(level, g)|
    ensures forall i :: 0 <= i < |Checks(level, f)| ==>
      Checks(level, f)[i].key == Checks(level, g)[i].key &&
      Checks(level, f)[i].message == Checks(level, g)[i].message
  {
    if level == 1 {
    } else if level == 2 {
    }
  }

  lemma ChecksShapeLate(level: int, f: FormData, g: FormData)
    requires level == 5 || level == 6 || level == 7
    ensures |Checks(level, f)| == |Checks(level, g)|
    ensures forall i :: 0 <= i < |Checks(level, f)| ==>
      Checks(level, f)[i].key == Checks(level, g)[i].key &&
      Checks(level, f)[i].message == Checks(level, g)[i].message
  {
    if level == 5 {
    } else if level == 6 {
    }
  }

  /** Only the level's own keys are ever reported. */
  lemma ErrorsAreRequired(level: int, form: FormData, k: string)
    ensures k in LevelErrors(level, form) ==> k in RequiredKeys(level)
  {
    var cs := Checks(level, form);
    var base := Checks(level, InitialForm);
    ErrorsKeys(cs, k);
    if k in LevelErrors(level, form) {
      var i :| 0 <= i < |cs| && cs[i].key == k && cs[i].text == "";
      ChecksShape(level, form, InitialForm);
      assert base[i] in base;
    }
  }

  lemma LevelErrorsRequired(level: int, form: FormData)
    ensures forall k :: k in LevelErrors(level, form) ==> k in RequiredKeys(level)
  {
    forall k | k in LevelErrors(level, form) ensures k in RequiredKeys(level) {
      ErrorsAreRequired(level, form, k);
    }
  }

  /** The technical-skills level has nothing to check. */
  lemma LevelThreeAlwaysPasses(form: FormData)
    ensures LevelErrors(3, form) == map[]
  {
  }

  /** Only emptiness matters: two forms whose required fields are empty in
      the same places get the same errors, whatever the text (no email or
      number format is checked). */
  lemma OnlyEmptinessMatters(level: int, f: FormData, g: FormData)
    requires |Checks(level, f)| == |Checks(level, g)|
    requires forall i :: 0 <= i < |Checks(level, f)| ==>
      (Checks(level, f)[i].text == "" <==> Checks(level, g)[i].text == "")
    ensures LevelErrors(level, f) == LevelErrors(level, g)
  {
    ChecksShape(level, f, g);
    SameGapsSameErrors(Checks(level, f), Checks(level, g));
  }

  /** A missing email on the first level is reported with its message,
      whatever else is filled in. */
  lemma MissingEmailReported(form: FormData)
    requires form.basicInfo.email == ""
    ensures "email" in LevelErrors(1, form) && LevelErrors(1, form)["email"] == "Email is required"
  {
    ErrorsMessage(Checks(1, form), 2);
  }

  // Generic unfoldings of `Errors` on short runs.

  lemma Errors2(c1: Check, c2: Check)
    ensures Errors([c1, c2]) == AddIfEmpty(AddIfEmpty(map[], c1), c2)
  {
    assert [c1, c2][..1] == [c1];
    assert [c1][..0] == [];
    assert Errors([c1]) == AddIfEmpty(map[], c1);
  }

  lemma Errors3(c1: Check, c2: Check, c3: Check)
    ensures Errors([c1, c2, c3]) == AddIfEmpty(AddIfEmpty(AddIfEmpty(map[], c1), c2), c3)
  {
    assert [c1, c2, c3][..2] == [c1, c2];
    Errors2(c1, c2);
  }

  lemma Errors4(c1: Check, c2: Check, c3: Check, c4: Check)
    ensures Errors([c1, c2, c3, c4]) ==
      AddIfEmpty(AddIfEmpty(AddIfEmpty(AddIfEmpty(map[], c1), c2), c3), c4)
  {
    assert [c1, c2, c3, c4][..3] == [c1, c2, c3];
    Errors3(c1, c2, c3);
  }

  // The switch of `validateCurrentLevel`, one arm per level; each arm adds
  // an entry for every empty required field of its level.

  /** The switch of `validateCurrentLevel`: the record of the level's own
      tests, empty for the technical-skills level. */
  method RunChecks(level: int, form: FormData) returns (e: map<string, string>)
    requires FirstLevel <= level <= LastLevel
    ensures e == LevelErrors(level, form)
  {
    match level {
      case 1 => e := BasicInfoErrors(form);
      case 2 => e := ExperienceErrors(form);
      case 3 => e := map[];
      case 4 => e := ProblemSolvingErrors(form);
      case 5 => e := SystemDesignErrors(form);
      case 6 => e := InnovationErrors(form);
      case 7 => e := CultureErrors(form);
    }
  }

  method BasicInfoErrors(form: FormData) returns (e: map<string, string>)
    ensures e == LevelErrors(1, form)
  {
    var b := form.basicInfo;
    var cs := Checks(1, form);
    Errors4(cs[0], cs[1], cs[2], cs[3]);
    assert cs == [cs[0], cs[1], cs[2], cs[3]];
    e := map[];
    if b.firstName == "" { e := e["firstName" := "First name is required"]; }
    if b.lastName == "" { e := e["lastName" := "Last name is required"]; }
    if b.email == "" { e := e["email" := "Email is required"]; }
    if b.location == "" { e := e["location" := "Location is required"]; }
  }

  method ExperienceErrors(form: FormData) returns (e: map<string, string>)
    ensures e == LevelErrors(2, form)
  {
    var x := form.experience;
    var cs := Checks(2, form);
    Errors3(cs[0], cs[1], cs[2]);
    assert cs == [cs[0], cs[1], cs[2]];
    e := map[];
    if x.totalYears == "" { e := e["totalYears" := "Years of experience is required"]; }
    if x.currentRole == "" { e := e["currentRole" := "Current role is required"]; }
    if x.achievements == "" { e := e["achievements" := "Achievements are required"]; }
  }

  method ProblemSolvingErrors(form: FormData) returns (e: map<string, string>)
    ensures e == LevelErrors(4, form)
  {
    var p := form.problemSolving;
    var cs := Checks(4, form);
    Errors4(cs[0], cs[1], cs[2], cs[3]);
    assert cs == [cs[0], cs[1], cs[2], cs[3]];
    e := map[];
    if p.challengeDescription == "" { e := e["challengeDescription" := "Challenge description is required"]; }
    if p.approach == "" { e := e["approach" := "Approach is required"]; }
    if p.outcome == "" { e := e["outcome" := "Outcome is required"]; }
    if p.learnings == "" { e := e["learnings" := "Learnings are required"]; }
  }

  method SystemDesignErrors(form: FormData) returns (e: map<string, string>)
    ensures e == LevelErrors(5, form)
  {
    var d := form.systemDesign;
    var cs := Checks(5, form);
    Errors3(cs[0], cs[1], cs[2]);
    assert cs == [cs[0], cs[1], cs[2]];
    e := map[];
    if d.architectureExperience == "" { e := e["architectureExperience" := "Architecture experience is required"]; }
    if d.performanceOptimization == "" { e := e["performanceOptimization" := "Performance optimization is required"]; }
    if d.securityPractices == "" { e := e["securityPractices" := "Security practices are required"]; }
  }

  method InnovationErrors(form: FormData) returns (e: map<string, string>)
    ensures e == LevelErrors(6, form)
  {
    var n := form.innovation;
    var cs := Checks(6, form);
    Errors2(cs[0], cs[1]);
    assert cs == [cs[0], cs[1]];
    e := map[];
    if n.innovationExample == "" { e := e["innovationExample" := "Innovation example is required"]; }
    if n.continuousLearning == "" { e := e["continuousLearning" := "Continuous learning approach is required"]; }
  }

  method CultureErrors(form: FormData) returns (e: map<string, string>)
    ensures e == LevelErrors(7, form)
  {
    var c := form.culture;
    var cs := Checks(7, form);
    Errors3(cs[0], cs[1], cs[2]);
    assert cs == [cs[0], cs[1], cs[2]];
    e := map[];
    if c.workStyle == "" { e := e["workStyle" := "Work style is required"]; }
    if c.collaboration == "" { e := e["collaboration" := "Collaboration approach is required"]; }
    if c.mentorship == "" { e := e["mentorship" := "Mentorship experience is required"]; }
  }

  // ------------------------------------------------------- navigation

  datatype NavEvent = Next | Previous

  /** The level after one handler call, given the form. */
  function Step(level: int, form: FormData, e: NavEvent): int
  {
    match e
    case Next => if LevelErrors(level, form) == map[] && level < LastLevel then level + 1 else level
    case Previous => if level > FirstLevel then level - 1 else level
  }

  /** The level after a sequence of handler calls. */
  function Navigate(level: int, form: FormData, events: seq<NavEvent>): int
    decreases |events|
  {
    if events == [] then level else Navigate(Step(level, form, events[0]), form, events[1..])
  }

  /** From any level in [1, 7], and so from the initial level 1, every
      sequence of next / previous calls stays in [1, 7]. */
  lemma {:induction false} NavigateStaysInRange(level: int, form: FormData, events: seq<NavEvent>)
    requires FirstLevel <= level <= LastLevel
    ensures FirstLevel <= Navigate(level, form, events) <= LastLevel
    decreases |events|
  {
    if events != [] {
      NavigateStaysInRange(Step(level, form, events[0]), form, events[1..]);
    }
  }

  /** A level that fails its check cannot be left forwards. */
  lemma {:induction false} StuckUntilFixed(level: int, form: FormData, n: nat)
    requires LevelErrors(level, form) != map[]
    ensures Navigate(level, form, seq(n, _ => Next)) == level
    decreases n
  {
    if n > 0 {
      assert seq(n, _ => Next)[1..] == seq(n - 1, _ => Next);
      StuckUntilFixed(level, form, n - 1);
    }
  }

  // -------------------------------------------------------------- state

  /** The modal's state: the level, the form, the error record and the two
      submission flags. */
  class Modal {
    var currentLevel: int
    var formData: FormData
    var errors: map<string, string>
    var isSubmitting: bool
    var showThankYou: bool

    predicate Valid()
      reads this
    {
      FirstLevel <= currentLevel <= LastLevel &&
      forall k :: k in errors ==> k in RequiredKeys(currentLevel)
    }

    constructor ()
      ensures Valid()
      ensures currentLevel == FirstLevel && formData == InitialForm && errors == map[]
      ensures !isSubmitting && !showThankYou
    {
      currentLevel := FirstLevel;
      formData := InitialForm;
      errors := map[];
      isSubmitting := false;
      showThankYou := false;
    }

    /** `validateCurrentLevel`: the switch fills a fresh record, which
        replaces `errors`; the answer is whether it stayed empty. */
    method ValidateCurrentLevel() returns (ok: bool)
      requires Valid()
      modifies this`errors
      ensures Valid()
      ensures errors == LevelErrors(currentLevel, formData)
      ensures ok <==> errors == map[]
    {
      var newErrors := RunChecks(currentLevel, formData);
      LevelErrorsRequired(currentLevel, formData);
      errors := newErrors;
      ok := |newErrors| == 0;
    }

    /** `handleNext`: advance one level when the current one passes and is
        not the last; the errors left are the check's (empty on success). */
    method HandleNext()
      requires Valid()
      modifies this`currentLevel, this`errors
      ensures Valid()
      ensures currentLevel == Step(old(currentLevel), formData, Next)
      ensures currentLevel == (if LevelErrors(old(currentLevel), formData) == map[] && old(currentLevel) < LastLevel
                               then old(currentLevel) + 1 else old(currentLevel))
      ensures errors == LevelErrors(old(currentLevel), formData)
    {
      var ok := ValidateCurrentLevel();
      if ok && currentLevel < LastLevel {
        currentLevel := currentLevel + 1;
        errors := map[];
      }
    }

    /** `handlePrevious`: step back and clear the errors above level 1; do
        nothing at level 1. */
    method HandlePrevious()
      requires Valid()
      modifies this`currentLevel, this`errors
      ensures Valid()
      ensures currentLevel == Step(old(currentLevel), formData, Previous)
      ensures old(currentLevel) > FirstLevel ==> currentLevel == old(currentLevel) - 1 && errors == map[]
      ensures old(currentLevel) == FirstLevel ==> currentLevel == FirstLevel && errors == old(errors)
    {
      if currentLevel > FirstLevel {
        currentLevel := currentLevel - 1;
        errors := map[];
      }
    }

    /** `handleSubmit`. `hasOnSubmit` says whether the optional callback was
        given and `onSubmitThrows` whether it rejects; the result says
        whether it was called. Only the current level is checked. */
    method HandleSubmit(hasOnSubmit: bool, onSubmitThrows: bool) returns (called: bool)
      requires Valid()
      modifies this`errors, this`isSubmitting, this`showThankYou
      ensures Valid()
      ensures errors == LevelErrors(currentLevel, formData)
      ensures errors != map[] ==>
        !called && isSubmitting == old(isSubmitting) && showThankYou == old(showThankYou)
      ensures errors == map[] ==>
        called == hasOnSubmit && !isSubmitting &&
        showThankYou == (old(showThankYou) || !(hasOnSubmit && onSubmitThrows))
    {
      called := false;
      var ok := ValidateCurrentLevel();
      if !ok {
        return;
      }
      isSubmitting := true;
      if hasOnSubmit {
        called := true;
      }
      if !(hasOnSubmit && onSubmitThrows) {
        showThankYou := true;
      }
      isSubmitting := false;
    }

    /** The footer's primary button: Next below the last level, Submit on it. */
    method PrimaryButton(hasOnSubmit: bool, onSubmitThrows: bool) returns (called: bool)
      requires Valid()
      modifies this`currentLevel, this`errors, this`isSubmitting, this`showThankYou
      ensures Valid()
      ensures old(currentLevel) < LastLevel ==>
        !called && currentLevel == Step(old(currentLevel), formData, Next) &&
        errors == LevelErrors(old(currentLevel), formData) &&
        isSubmitting == old(isSubmitting) && showThankYou == old(showThankYou)
      ensures old(currentLevel) == LastLevel ==>
        currentLevel == LastLevel && errors == LevelErrors(LastLevel, formData)
      ensures old(currentLevel) == LastLevel && errors != map[] ==>
        !called && isSubmitting == old(isSubmitting) && showThankYou == old(showThankYou)
      ensures old(currentLevel) == LastLevel && errors == map[] ==>
        called == hasOnSubmit && !isSubmitting &&
        showThankYou == (old(showThankYou) || !(hasOnSubmit && onSubmitThrows))
    {
      called := false;
      if currentLevel < LastLevel {
        HandleNext();
      } else {
        called := HandleSubmit(hasOnSubmit, onSubmitThrows);
      }
    }
  }

  // ------------------------------------------------------------ rating

  /** The label beside a rating row: `value / max`, or `Not rated` for 0. */
  function RatingLabel(value: int, max: nat): string
  {
    if value > 0 then Join([IntToString(value), "/", NatToString(max)], ' ') else "Not rated"
  }

  /** A positive rating's label is `value / max` read back word by word: the
      value's digits, a slash and the maximum's digits. */
  lemma RatingLabelParts(value: nat, max: nat)
    requires value > 0
    ensures Split(RatingLabel(value, max), ' ') == [NatToString(value), "/", NatToString(max)]
    ensures ParseDecimal(Split(RatingLabel(value, max), ' ')[0]) == value
  {
    var parts := [NatToString(value), "/", NatToString(max)];
    assert forall p :: p in parts ==> ' ' !in p;
    SplitJoin(parts, ' ');
    ParsePrinted(value);
  }

  lemma UnratedLabel(max: nat)
    ensures RatingLabel(0, max) == "Not rated"
  {
  }

  // ------------------------------------------------------ multi-select

  /** `toggleOption`: a selected option is removed (every occurrence of it),
      an unselected one is appended. */
  function ToggleOption(selected: seq<string>, option: string): (r: seq<string>)
    ensures option in selected ==> option !in r
    ensures option in selected ==> forall x :: x != option ==> multiset(r)[x] == multiset(selected)[x]
    ensures option !in selected ==> r == selected + [option]
  {
    if option in selected then
      var keep := (item: string) => item != option;
      forall x | x != option ensures multiset(Filter(selected, keep))[x] == multiset(selected)[x] {
        FilterCount(selected, keep, x);
      }
      Filter(selected, keep)
    else selected + [option]
  }

  /** Toggling an unselected option twice gives back the selection. */
  lemma ToggleTwice(selected: seq<string>, option: string)
    requires option !in selected
    ensures ToggleOption(ToggleOption(selected, option), option) == selected
  {
    var keep := (item: string) => item != option;
    var once := selected + [option];
    assert option in once;
    FilterAppend(selected, [option], keep);
    FilterKeepsAll(selected, keep);
    assert Filter([option], keep) == [];
  }

  /** The selection with every copy of `option` dropped: what a toggle of
      a selected option leaves, and the list itself when it holds none. */
  function Removed(s: seq<string>, option: string): seq<string>
  {
    if option in s then ToggleOption(s, option) else s
  }

  /** Removal works piece by piece: removing from `a + b` removes from each
      part and keeps the parts in order. With `RemovedUnit` this fixes the
      result, so the options left keep their relative order. */
  lemma RemovedAppend(a: seq<string>, b: seq<string>, option: string)
    ensures Removed(a + b, option) == Removed(a, option) + Removed(b, option)
  {
    var keep := (item: string) => item != option;
    FilterAppend(a, b, keep);
    if option !in a {
      FilterKeepsAll(a, keep);
    }
    if option !in b {
      FilterKeepsAll(b, keep);
    }
    if option !in a + b {
      FilterKeepsAll(a + b, keep);
    }
  }

  /** On one element, removal drops exactly the option. */
  lemma RemovedUnit(x: string, option: string)
    ensures Removed([x], option) == if x == option then [] else [x]
  {
  }

  /** `clearAll` empties the selection. */
  function ClearAll(selected: seq<string>): (r: seq<string>)
    ensures |r| == 0
  {
    []
  }

  /** `selectAll` selects exactly the offered options, in their order. */
  function SelectAll(selected: seq<string>, options: seq<string>): (r: seq<string>)
    ensures forall i :: 0 <= i < |options| ==> i < |r| && r[i] == options[i]
    ensures |r| == |options|
  {
    options
  }
}
