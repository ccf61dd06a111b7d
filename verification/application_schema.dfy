/** The rule set of the v0 quest modal (`applicationSchema`), stated as
    predicates over the application data, together with the list of
    field-tagged issues a failed check reports, the field-error lookup and
    the live word counter. */
module ApplicationSchema {
  import opened Util

  datatype Ratings = Ratings(react: string, ai: string, edge: string, db: string,
                             secretWeapon: string, secretRating: string)
  datatype VibeCheck = VibeCheck(future: bool, speed: bool, ai: bool, greatness: bool,
                                 revolution: bool)
  datatype ApplicationData = ApplicationData(
    domainPitch: string, ratings: Ratings, agent: string, codeSolution: string,
    visionPath: string, visionResponse: string, devEnv: string, superpower: string,
    manifesto: string, availability: string, customTimeline: string,
    firstName: string, lastName: string, email: string, phone: string,
    github: string, portfolio: string, vibeCheck: VibeCheck,
    finalTransmission: string, timestamp: string)

  /** One reported problem: the dotted path of the field and its message. */
  datatype Issue = Issue(field: string, message: string)

  // ------------------------------------------------------------- rules

  /** `/^([1-9]|10)$/`: one digit from 1 to 9, or `10`. */
  predicate IsRating(s: string)
  {
    s == "10" || (|s| == 1 && '1' <= s[0] <= '9')
  }

  /** An optional rating passes when it is empty or a rating. */
  predicate OptionalRatingOk(s: string)
  {
    s == "" || IsRating(s)
  }

  const Agents: set<string> := {"flynn", "clu", "yori", "sark"}
  const VisionPaths: set<string> := {"builder", "visionary", "rebel"}
  const DevEnvs: set<string> := {"dark", "balanced", "bright", "caffeine"}
  const Superpowers: set<string> := {"debug", "docs", "legacy", "features"}
  const Availabilities: set<string> := {"immediate", "twoweeks", "custom"}

  const ManifestoWords := 42

  /** `val.trim().split(/\s+/).length === 42`. */
  predicate ManifestoOk(m: string)
  {
    |SplitOnSpace(Trim(m))| == ManifestoWords
  }

  predicate AllVibes(v: VibeCheck)
  {
    v.future && v.speed && v.ai && v.greatness && v.revolution
  }

  /** The five enumerated answers; a wrong one stops zod before the
      cross-field rule runs. */
  predicate EnumsOk(d: ApplicationData)
  {
    d.agent in Agents && d.visionPath in VisionPaths && d.devEnv in DevEnvs &&
    d.superpower in Superpowers && d.availability in Availabilities
  }

  /** The cross-field rule: a custom availability needs a timeline. */
  predicate TimelineOk(d: ApplicationData)
  {
    d.availability == "custom" ==> d.customTimeline != ""
  }

  /** Every rule of the schema except the manifesto's. `isEmail` is zod's
      e-mail format test. */
  predicate OtherRulesOk(d: ApplicationData, isEmail: string -> bool)
  {
    |d.firstName| >= 1 && |d.lastName| >= 1 && isEmail(d.email) &&
    |d.domainPitch| >= 10 &&
    IsRating(d.ratings.react) && IsRating(d.ratings.ai) &&
    IsRating(d.ratings.edge) && IsRating(d.ratings.db) &&
    OptionalRatingOk(d.ratings.secretRating) &&
    |d.codeSolution| >= 20 && |d.visionResponse| >= 50 &&
    EnumsOk(d) && AllVibes(d.vibeCheck) && TimelineOk(d)
  }

  /** Every rule of the schema, the manifesto's stated as "exactly 42
      words". */
  predicate SchemaValid(d: ApplicationData, isEmail: string -> bool)
  {
    OtherRulesOk(d, isEmail) && WordCount(d.manifesto) == ManifestoWords
  }

  // ------------------------------------------------------------ issues

  /** One rule of the schema, already evaluated: whether it holds, the
      dotted path of its field and the message it reports. */
  datatype Rule = Rule(ok: bool, field: string, message: string)

  const RatingMessage := "Rating must be between 1-10"
  const ManifestoMessage := "Manifesto must be exactly 42 words"
  const TimelineMessage := "Custom timeline description is required when \"Custom timeline\" is selected"

  /** The field rules in the order of the schema's shape, then the
      cross-field timeline rule, which is only reached (and so can only
      fail) when every enumerated answer is one of its values. */
  function Rules(d: ApplicationData, isEmail: string -> bool, manifestoOk: bool): (r: seq<Rule>)
    ensures |r| == RuleCount
  {
    seq(RuleCount, k => RuleAt(d, isEmail, manifestoOk, k))
  }

  /** The rule at position `k` of the list. */
  function RuleAt(d: ApplicationData, isEmail: string -> bool, manifestoOk: bool, k: int): Rule
  {
    if k == 0 then Rule(|d.firstName| >= 1, "firstName", "First name is required")
    else if k == 1 then Rule(|d.lastName| >= 1, "lastName", "Last name is required")
    else if k == 2 then Rule(isEmail(d.email), "email", "Invalid email address")
    else if k == 3 then Rule(|d.domainPitch| >= 10, "domainPitch", "Domain pitch must be at least 10 characters")
    else if k == 4 then Rule(d.agent in Agents, "agent", "Please select an agent")
    else if k == 5 then Rule(IsRating(d.ratings.react), "ratings.react", RatingMessage)
    else if k == 6 then Rule(IsRating(d.ratings.ai), "ratings.ai", RatingMessage)
    else if k == 7 then Rule(IsRating(d.ratings.edge), "ratings.edge", RatingMessage)
    else if k == 8 then Rule(IsRating(d.ratings.db), "ratings.db", RatingMessage)
    else if k == 9 then Rule(OptionalRatingOk(d.ratings.secretRating), "ratings.secretRating", "Secret rating must be between 1-10 if provided")
    else if k == 10 then Rule(|d.codeSolution| >= 20, "codeSolution", "Code solution must be at least 20 characters")
    else if k == 11 then Rule(d.visionPath in VisionPaths, "visionPath", "Please select a vision path")
    else if k == 12 then Rule(|d.visionResponse| >= 50, "visionResponse", "Vision response must be at least 50 characters")
    else if k == 13 then Rule(d.devEnv in DevEnvs, "devEnv", "Please select your dev environment")
    else if k == 14 then Rule(d.superpower in Superpowers, "superpower", "Please select your superpower")
    else if k == 15 then Rule(manifestoOk, "manifesto", ManifestoMessage)
    else if k == 16 then Rule(d.availability in Availabilities, "availability", "Please select your availability")
    else if k == 17 then Rule(d.vibeCheck.future, "vibeCheck.future", "The 'future' vibe check is required.")
    else if k == 18 then Rule(d.vibeCheck.speed, "vibeCheck.speed", "The 'speed' vibe check is required.")
    else if k == 19 then Rule(d.vibeCheck.ai, "vibeCheck.ai", "The 'AI' vibe check is required.")
    else if k == 20 then Rule(d.vibeCheck.greatness, "vibeCheck.greatness", "The 'greatness' vibe check is required.")
    else if k == 21 then Rule(d.vibeCheck.revolution, "vibeCheck.revolution", "The 'revolution' vibe check is required.")
    else Rule(!EnumsOk(d) || TimelineOk(d), "customTimeline", TimelineMessage)
  }

  const RuleCount := 23

  const ManifestoRule := 15
  const TimelineRuleIndex := 22

  /** The issues of the failing rules, in rule order. */
  function Failing(rules: seq<Rule>): (r: seq<Issue>)
    ensures |r| <= |rules|
    decreases |rules|
  {
    if rules == [] then []
    else if rules[0].ok then Failing(rules[1..])
    else [Issue(rules[0].field, rules[0].message)] + Failing(rules[1..])
  }

  /** Everything a failed parse reports. */
  function Issues(d: ApplicationData, isEmail: string -> bool): seq<Issue>
  {
    Failing(Rules(d, isEmail, ManifestoOk(d.manifesto)))
  }

  /** Nothing is reported exactly when every rule holds. */
  lemma {:induction false} FailingEmptyIff(rules: seq<Rule>)
    ensures Failing(rules) == [] <==> forall i :: 0 <= i < |rules| ==> rules[i].ok
    decreases |rules|
  {
    if rules != [] {
      FailingEmptyIff(rules[1..]);
      assert forall i :: 0 < i < |rules| ==> rules[i] == rules[1..][i - 1];
    }
  }

  /** The error shown for a field that only one rule speaks about is that
      rule's message when it fails, and nothing when it holds. */
  lemma {:induction false} FailingLookup(rules: seq<Rule>, k: nat)
    requires k < |rules|
    requires forall i :: 0 <= i < |rules| && i != k ==> rules[i].field != rules[k].field
    ensures GetFieldError(Failing(rules), rules[k].field) ==
      if rules[k].ok then None else Some(rules[k].message)
    decreases |rules|
  {
    var tail := rules[1..];
    assert forall i :: 0 <= i < |tail| ==> tail[i] == rules[i + 1];
    var f := rules[k].field;
    if k > 0 {
      FailingLookup(tail, k - 1);
    } else {
      FailingFields(tail, f);
    }
    if !rules[0].ok {
      assert Failing(rules)[1..] == Failing(tail);
    }
  }

  /** A field none of the rules speaks about gets no issue. */
  lemma {:induction false} FailingFields(rules: seq<Rule>, field: string)
    requires forall i :: 0 <= i < |rules| ==> rules[i].field != field
    ensures forall i :: 0 <= i < |Failing(rules)| ==> Failing(rules)[i].field != field
    decreases |rules|
  {
    if rules != [] {
      FailingFields(rules[1..], field);
      if !rules[0].ok {
        assert forall i :: 0 < i < |Failing(rules)| ==> Failing(rules)[i] == Failing(rules[1..])[i - 1];
      }
    }
  }

  /** The check passes, and reports nothing, exactly when every rule of the
      schema holds. */
  lemma IssuesEmptyIff(d: ApplicationData, isEmail: string -> bool)
    ensures Issues(d, isEmail) == [] <==> SchemaValid(d, isEmail)
  {
    var manifestoOk := ManifestoOk(d.manifesto);
    ManifestoIffWords(d.manifesto);
    FailingEmptyIff(Rules(d, isEmail, manifestoOk));
    RulesHoldIff(d, isEmail, manifestoOk);
    assert SchemaValid(d, isEmail) <==> OtherRulesOk(d, isEmail) && manifestoOk;
  }

  /** Every rule of the list holds exactly when the other rules and the
      manifesto's verdict do. */
  lemma RulesHoldIff(d: ApplicationData, isEmail: string -> bool, manifestoOk: bool)
    ensures (forall i :: 0 <= i < RuleCount ==> Rules(d, isEmail, manifestoOk)[i].ok) <==>
      OtherRulesOk(d, isEmail) && manifestoOk
  {
    var rules := Rules(d, isEmail, manifestoOk);
    if OtherRulesOk(d, isEmail) && manifestoOk {
      forall i | 0 <= i < RuleCount ensures rules[i].ok {
        assert rules[i] == RuleAt(d, isEmail, manifestoOk, i);
      }
    }
    if forall i :: 0 <= i < RuleCount ==> rules[i].ok {
      EachRuleHolds(d, isEmail, manifestoOk);
    }
  }

  /** Every rule holding gives each condition of the schema. */
  lemma EachRuleHolds(d: ApplicationData, isEmail: string -> bool, manifestoOk: bool)
    requires forall i :: 0 <= i < RuleCount ==> Rules(d, isEmail, manifestoOk)[i].ok
    ensures OtherRulesOk(d, isEmail) && manifestoOk
  {
    var rules := Rules(d, isEmail, manifestoOk);
    assert rules[0].ok && rules[1].ok && rules[2].ok && rules[3].ok && rules[4].ok && rules[5].ok;
    assert rules[6].ok && rules[7].ok && rules[8].ok && rules[9].ok && rules[10].ok && rules[11].ok;
    assert rules[12].ok && rules[13].ok && rules[14].ok && rules[15].ok && rules[16].ok;
    assert rules[17].ok && rules[18].ok && rules[19].ok && rules[20].ok && rules[21].ok && rules[22].ok;
  }

  /** No two rules share a field, so each field's error comes from its own
      rule. */
  lemma RuleLookup(d: ApplicationData, isEmail: string -> bool, manifestoOk: bool, k: nat)
    requires k == ManifestoRule || k == TimelineRuleIndex
    ensures var rule := Rules(d, isEmail, manifestoOk)[k];
      GetFieldError(Failing(Rules(d, isEmail, manifestoOk)), rule.field) ==
        if rule.ok then None else Some(rule.message)
  {
    var rules := Rules(d, isEmail, manifestoOk);
    if k == ManifestoRule {
      ManifestoFieldApart(d, isEmail, manifestoOk);
    } else {
      TimelineFieldApart(d, isEmail, manifestoOk);
    }
    FailingLookup(rules, k);
  }

  /** Only the manifesto rule speaks about the manifesto. */
  lemma ManifestoFieldApart(d: ApplicationData, isEmail: string -> bool, manifestoOk: bool)
    ensures forall i :: 0 <= i < RuleCount && i != ManifestoRule ==>
      Rules(d, isEmail, manifestoOk)[i].field != "manifesto"
  {
  }

  /** Only the timeline rule speaks about the custom timeline. */
  lemma TimelineFieldApart(d: ApplicationData, isEmail: string -> bool, manifestoOk: bool)
    ensures forall i :: 0 <= i < RuleCount && i != TimelineRuleIndex ==>
      Rules(d, isEmail, manifestoOk)[i].field != "customTimeline"
  {
  }

  /** The timeline rule: with a custom availability (and the other answers
      chosen) an empty timeline is reported; with any other availability,
      or before the other answers are chosen, nothing is reported for it,
      whatever it holds. */
  lemma TimelineRule(d: ApplicationData, isEmail: string -> bool)
    ensures GetFieldError(Issues(d, isEmail), "customTimeline") ==
      if d.availability == "custom" && EnumsOk(d) && d.customTimeline == "" then Some(TimelineMessage)
      else None
  {
    TimelineLookup(d, isEmail, ManifestoOk(d.manifesto));
  }

  lemma TimelineLookup(d: ApplicationData, isEmail: string -> bool, verdict: bool)
    ensures GetFieldError(Failing(Rules(d, isEmail, verdict)), "customTimeline") ==
      if d.availability == "custom" && EnumsOk(d) && d.customTimeline == "" then Some(TimelineMessage)
      else None
  {
    var rules := Rules(d, isEmail, verdict);
    assert rules[TimelineRuleIndex] == Rule(!EnumsOk(d) || TimelineOk(d), "customTimeline", TimelineMessage);
    RuleLookup(d, isEmail, verdict, TimelineRuleIndex);
  }

  lemma ManifestoLookup(d: ApplicationData, isEmail: string -> bool, verdict: bool)
    ensures GetFieldError(Failing(Rules(d, isEmail, verdict)), "manifesto") ==
      if verdict then None else Some(ManifestoMessage)
  {
    var rules := Rules(d, isEmail, verdict);
    assert rules[ManifestoRule] == Rule(verdict, "manifesto", ManifestoMessage);
    RuleLookup(d, isEmail, verdict, ManifestoRule);
  }

  /** The manifesto shows its error exactly when it does not have 42 words. */
  lemma ManifestoError(d: ApplicationData, isEmail: string -> bool)
    ensures GetFieldError(Issues(d, isEmail), "manifesto") ==
      if WordCount(d.manifesto) == ManifestoWords then None else Some(ManifestoMessage)
  {
    ManifestoLookup(d, isEmail, ManifestoOk(d.manifesto));
    ManifestoIffWords(d.manifesto);
  }

  /** The ratings accepted are exactly the printed numbers 1 to 10. */
  lemma RatingIff(s: string)
    ensures IsRating(s) <==> exists n :: 1 <= n <= 10 && s == NatToString(n)
  {
    assert NatToString(10) == "10" by {
      assert NatToString(1) == "1";
    }
    if IsRating(s) {
      if s == "10" {
        assert 1 <= 10 <= 10 && s == NatToString(10);
      } else {
        var n := s[0] as int - '0' as int;
        assert s == [s[0]];
        assert 1 <= n <= 10 && s == NatToString(n);
      }
    }
  }

  // --------------------------------------------------------- field errors

  /** A first issue for `field` at index `i`. */
  predicate FirstFor(errors: seq<Issue>, field: string, i: int)
  {
    0 <= i < |errors| && errors[i].field == field &&
    forall j :: 0 <= j < i ==> errors[j].field != field
  }

  /** `getFieldError`: the message of the first issue for `field`. */
  function GetFieldError(errors: seq<Issue>, field: string): (r: Option<string>)
    ensures r.None? <==> forall i :: 0 <= i < |errors| ==> errors[i].field != field
    decreases |errors|
  {
    if errors == [] then None
    else if errors[0].field == field then Some(errors[0].message)
    else
      assert forall j :: 0 < j < |errors| ==> errors[j] == errors[1..][j - 1];
      GetFieldError(errors[1..], field)
  }

  /** The message shown is the one of the first issue for the field. */
  lemma {:induction false} FieldErrorIsFirst(errors: seq<Issue>, field: string)
    ensures GetFieldError(errors, field).Some? ==>
      exists i :: FirstFor(errors, field, i) && errors[i].message == GetFieldError(errors, field).value
    decreases |errors|
  {
    if errors != [] && errors[0].field != field && GetFieldError(errors, field).Some? {
      var tail := errors[1..];
      FieldErrorIsFirst(tail, field);
      var i :| FirstFor(tail, field, i) && tail[i].message == GetFieldError(tail, field).value;
      assert FirstFor(errors, field, i + 1);
    } else if errors != [] && errors[0].field == field {
      assert FirstFor(errors, field, 0);
    }
  }

  /** After a passing check no field shows an error. */
  lemma ValidShowsNoError(d: ApplicationData, isEmail: string -> bool, field: string)
    requires SchemaValid(d, isEmail)
    ensures GetFieldError(Issues(d, isEmail), field).None?
  {
    IssuesEmptyIff(d, isEmail);
  }

  // ---------------------------------------------------------- word count

  /** `countWords`: 0 for a blank text, otherwise the length of the split
      of the trimmed text. */
  function CountWords(text: string): nat
  {
    if Trim(text) != [] then |SplitOnSpace(Trim(text))| else 0
  }

  /** The counter counts the words of the text: the maximal runs of
      non-space characters. */
  lemma CountWordsIsWordCount(text: string)
    ensures CountWords(text) == WordCount(text)
  {
    SplitTrimCount(text);
    BlankHasNoWords(text);
  }

  /** A white-space-only text counts 0. */
  lemma BlankCountsZero(text: string)
    requires AllSpace(text)
    ensures CountWords(text) == 0
  {
    TrimStartAllSpace(text);
  }

  /** The manifesto rule counts words: it passes exactly when the text has
      42 words. */
  lemma ManifestoIffWords(m: string)
    ensures ManifestoOk(m) <==> WordCount(m) == ManifestoWords
  {
    SplitTrimCount(m);
  }

  /** The counter and the manifesto rule agree: the manifesto passes exactly
      when the counter shows 42 (a blank text splits into one empty piece,
      which 42 never equals). */
  lemma ManifestoIffCount(m: string)
    ensures ManifestoOk(m) <==> CountWords(m) == ManifestoWords
  {
    SplitTrimCount(m);
    BlankHasNoWords(m);
  }
}
