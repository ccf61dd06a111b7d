# Bravetto recruitment site: a Dafny model of its logic

This project models the parts of the Bravetto recruitment site that hold
logic rather than markup, and proves what they do.

- **The quest modal (validating variant).** A seven-level form. Next
  advances only when every required text of the current level is filled in.
  Previous steps back freely. Submit re-checks the current level only. The
  modal also has a multi-select list and a rating label. The modal is a
  class whose methods change its level, form, error record and flags.
- **The quest modal (schema variant).** The application schema is a list of
  rules in schema order; an issue is reported for each rule that fails. The
  module also models:
  - free level navigation;
  - the field-routing input handler;
  - the word counter;
  - the per-field error lookup;
  - a countdown timer class;
  - the submission guard and the reset after a success.

  A forward step from level 7 goes through the `submitApplication` that
  `changeLevel` captured when the level last changed. It therefore checks
  the form as it stood then, and it shows the messages of an empty issue
  list. The model states this as the code has it.
- **The three submission routes.** The quest and application routes are
  functions from the parsed body, the environment, the downstream reply and
  the clock to the response and the list of outbound calls. The simulated
  application route makes no call: it is a function from the parsed body,
  the environment and the clock to the response.
- **The v0 integration utilities.** CSS-variable extraction and merging,
  duplicate detection, file-name handling and import maps; also the colour
  table, prop checking, animation options and interface generation.

Modules: `Util` (sequence and string helpers), `Json` (JavaScript values,
truthiness and property access), `Records` (insertion-ordered records),
`Http`, `QuestModal`, `ApplicationSchema`, `ApplicationModal`,
`SubmitQuestRoute`, `SubmitApplicationRoute`, `SimulatedApplicationRoute`,
`V0Analysis`, `V0Integration`.

The email format check is a parameter `isEmail`. The network, the clock and
environment variables are parameters too.

## Model

| member | source | states |
|---|---|---|
| QuestModal.ErrorsKeys | src/components/shared/Modal/BravettoQuestModal.tsx:1031-1070 | a key is in the error record exactly when one of the level's tests for that key found its text empty |
| QuestModal.ErrorsMessage | src/components/shared/Modal/BravettoQuestModal.tsx:1031-1070 | the message recorded for a key is the one of the last failing test for that key |
| QuestModal.LevelPassesIff | src/components/shared/Modal/BravettoQuestModal.tsx:1030-1072 | a level's check passes (empty record) exactly when every required text of that level is non-empty |
| QuestModal.ErrorsAreRequired | src/components/shared/Modal/BravettoQuestModal.tsx:1033-1068 | every reported key is one of the level's required keys |
| QuestModal.LevelThreeAlwaysPasses | src/components/shared/Modal/BravettoQuestModal.tsx:1045-1047 | level 3 reports nothing, whatever the form holds |
| QuestModal.OnlyEmptinessMatters | src/components/shared/Modal/BravettoQuestModal.tsx:1034-1067 | two forms whose required texts agree on emptiness get the same error record: no format is checked |
| QuestModal.SameGapsSameErrors | src/components/shared/Modal/BravettoQuestModal.tsx:1031-1070 | two test runs with the same keys, messages and emptiness pattern build the same record |
| QuestModal.MissingEmailReported | src/components/shared/Modal/BravettoQuestModal.tsx:1037 | on level 1 an empty email is reported as "Email is required", whatever else is filled in |
| QuestModal.RunChecks | src/components/shared/Modal/BravettoQuestModal.tsx:1033-1068 | the switch yields the record of the level's own tests, empty for level 3 |
| QuestModal.BasicInfoErrors | src/components/shared/Modal/BravettoQuestModal.tsx:1034-1039 | the level-1 arm fills exactly the level-1 error record |
| QuestModal.ExperienceErrors | src/components/shared/Modal/BravettoQuestModal.tsx:1040-1044 | the level-2 arm fills exactly the level-2 error record |
| QuestModal.ProblemSolvingErrors | src/components/shared/Modal/BravettoQuestModal.tsx:1048-1053 | the level-4 arm fills exactly the level-4 error record |
| QuestModal.SystemDesignErrors | src/components/shared/Modal/BravettoQuestModal.tsx:1054-1058 | the level-5 arm fills exactly the level-5 error record |
| QuestModal.InnovationErrors | src/components/shared/Modal/BravettoQuestModal.tsx:1059-1062 | the level-6 arm fills exactly the level-6 error record |
| QuestModal.CultureErrors | src/components/shared/Modal/BravettoQuestModal.tsx:1063-1067 | the level-7 arm fills exactly the level-7 error record |
| QuestModal.Modal.constructor | src/components/shared/Modal/BravettoQuestModal.tsx:948-998 | the modal opens on level 1 with the empty form, no errors and both flags false |
| QuestModal.Modal.ValidateCurrentLevel | src/components/shared/Modal/BravettoQuestModal.tsx:1030-1072 | the error record becomes the current level's record, the answer is whether it is empty, and the keys stay within the level's required keys |
| QuestModal.Modal.HandleNext | src/components/shared/Modal/BravettoQuestModal.tsx:1074-1079 | the level rises by exactly one when the current level passes and is below 7, and is unchanged otherwise; the form is untouched |
| QuestModal.Modal.HandlePrevious | src/components/shared/Modal/BravettoQuestModal.tsx:1081-1086 | above level 1 the level drops by one and the errors are cleared; at level 1 nothing changes |
| QuestModal.Modal.HandleSubmit | src/components/shared/Modal/BravettoQuestModal.tsx:1088-1100 | a failing current level stops before the callback; otherwise the callback is called if given, the submitting flag is false afterwards and the thank-you flag is set unless the callback threw |
| QuestModal.Modal.PrimaryButton | src/components/shared/Modal/BravettoQuestModal.tsx:1402-1430 | below level 7 it acts as Next (no callback, flags unchanged, errors the level's record); on level 7 as Submit: the errors become the level's record, a failing level calls nothing and keeps both flags, a passing one calls the callback when given, ends not submitting and shows the thank-you unless the callback threw |
| QuestModal.NavigateStaysInRange | src/components/shared/Modal/BravettoQuestModal.tsx:1074-1086 | from any level in [1, 7], any sequence of Next and Previous calls stays in [1, 7] |
| QuestModal.StuckUntilFixed | src/components/shared/Modal/BravettoQuestModal.tsx:1074-1079 | a level whose check fails is never left by any number of Next calls |
| QuestModal.RatingLabelParts | src/components/shared/Modal/BravettoQuestModal.tsx:273-275 | a positive rating's label splits into the value, a slash and the maximum, and the value reads back from it |
| QuestModal.UnratedLabel | src/components/shared/Modal/BravettoQuestModal.tsx:274 | a rating of 0 is labelled "Not rated" |
| QuestModal.ToggleOption | src/components/shared/Modal/BravettoQuestModal.tsx:324-330 | a selected option is removed (every copy) and every other option keeps its count; an unselected one is appended at the end |
| QuestModal.RemovedAppend | src/components/shared/Modal/BravettoQuestModal.tsx:324-330 | removal distributes over concatenation, so with RemovedUnit the options left keep their relative order |
| QuestModal.RemovedUnit | src/components/shared/Modal/BravettoQuestModal.tsx:324-330 | on one element, removal drops exactly the option |
| QuestModal.ToggleTwice | src/components/shared/Modal/BravettoQuestModal.tsx:324-330 | toggling an unselected option twice gives back the selection |
| QuestModal.ClearAll | src/components/shared/Modal/BravettoQuestModal.tsx:332-334 | the selection becomes empty |
| QuestModal.SelectAll | src/components/shared/Modal/BravettoQuestModal.tsx:336-338 | the selection becomes exactly the offered options, in order |
| ApplicationSchema.IssuesEmptyIff | src/components/shared/Modal/v0/bravetto-recruitment-platform-modal/components/bravetto-quest-modal.tsx:92-150 | the check reports no issue exactly when every schema rule holds: names present, a valid email, the minimum lengths, the enums, the ratings, 42 words, all vibes and the timeline rule |
| ApplicationSchema.RulesHoldIff | src/components/shared/Modal/v0/bravetto-recruitment-platform-modal/components/bravetto-quest-modal.tsx:92-150 | the rule list holds entry by entry exactly when the schema's predicates hold |
| ApplicationSchema.FailingEmptyIff | src/components/shared/Modal/v0/bravetto-recruitment-platform-modal/components/bravetto-quest-modal.tsx:220-235 | the issue list is empty exactly when every rule holds |
| ApplicationSchema.FailingLookup | src/components/shared/Modal/v0/bravetto-recruitment-platform-modal/components/bravetto-quest-modal.tsx:240-245 | for a field only one rule speaks about, the error shown is that rule's message when it fails and nothing when it holds |
| ApplicationSchema.TimelineRule | src/components/shared/Modal/v0/bravetto-recruitment-platform-modal/components/bravetto-quest-modal.tsx:139-150 | the timeline error appears exactly when availability is "custom", the timeline is empty and no enum answer is invalid; any other availability is unconstrained |
| ApplicationSchema.ManifestoError | src/components/shared/Modal/v0/bravetto-recruitment-platform-modal/components/bravetto-quest-modal.tsx:126 | the manifesto error appears exactly when the text does not have 42 words |
| ApplicationSchema.ManifestoIffWords | src/components/shared/Modal/v0/bravetto-recruitment-platform-modal/components/bravetto-quest-modal.tsx:126 | the manifesto rule (split of the trimmed text on white-space runs has 42 parts) holds exactly when the text has 42 words |
| ApplicationSchema.RatingIff | src/components/shared/Modal/v0/bravetto-recruitment-platform-modal/components/bravetto-quest-modal.tsx:102-113 | a rating string is accepted exactly when it is the decimal printing of a number from 1 to 10 |
| ApplicationSchema.GetFieldError | src/components/shared/Modal/v0/bravetto-recruitment-platform-modal/components/bravetto-quest-modal.tsx:240-245 | no message is found exactly when no issue names the field |
| ApplicationSchema.FieldErrorIsFirst | src/components/shared/Modal/v0/bravetto-recruitment-platform-modal/components/bravetto-quest-modal.tsx:240-245 | the message found is the one of the first issue that names the field |
| ApplicationSchema.ValidShowsNoError | src/components/shared/Modal/v0/bravetto-recruitment-platform-modal/components/bravetto-quest-modal.tsx:220-245 | after a passing check no field shows an error |
| ApplicationSchema.CountWordsIsWordCount | src/components/shared/Modal/v0/bravetto-recruitment-platform-modal/components/bravetto-quest-modal.tsx:412-416 | the word counter counts the maximal runs of non-space characters |
| ApplicationSchema.BlankCountsZero | src/components/shared/Modal/v0/bravetto-recruitment-platform-modal/components/bravetto-quest-modal.tsx:413 | a white-space-only text counts 0 words |
| ApplicationSchema.ManifestoIffCount | src/components/shared/Modal/v0/bravetto-recruitment-platform-modal/components/bravetto-quest-modal.tsx:412-416 | the manifesto rule passes exactly when the counter shows 42 |
| ApplicationModal.InitialFormData | src/components/shared/Modal/v0/bravetto-recruitment-platform-modal/components/bravetto-quest-modal.tsx:362-386 | every text field and rating is empty and every vibe false, except the final transmission, which a truthy role pre-fills with "Applying for <role> position" |
| ApplicationModal.InitialFormInvalid | src/components/shared/Modal/v0/bravetto-recruitment-platform-modal/components/bravetto-quest-modal.tsx:362-386 | the initial form never passes the check |
| ApplicationModal.InputChangeWritesOneLeaf | src/components/shared/Modal/v0/bravetto-recruitment-platform-modal/components/bravetto-quest-modal.tsx:391-410 | an input event writes exactly the leaf its name routes to (vibe_X to vibeCheck.X, ratingX to the lower-cased rating, secretWeapon and secretRating into ratings, other names to the top-level field) and every other leaf keeps its value |
| ApplicationModal.RatingInputRoute | src/components/shared/Modal/v0/bravetto-recruitment-platform-modal/components/bravetto-quest-modal.tsx:400-402 | a name `rating` + suffix writes the rating named by the lower-cased suffix |
| ApplicationModal.TickValue | src/components/shared/Modal/v0/bravetto-recruitment-platform-modal/components/bravetto-quest-modal.tsx:265-271 | one tick takes one second off and stops at 0, never below |
| ApplicationModal.TicksCountDown | src/components/shared/Modal/v0/bravetto-recruitment-platform-modal/components/bravetto-quest-modal.tsx:263-273 | after n ticks a countdown from v shows v - n, or 0 once it has got there |
| ApplicationModal.Countdown.constructor | src/components/shared/Modal/v0/bravetto-recruitment-platform-modal/components/bravetto-quest-modal.tsx:255-256 | no timer value and no running interval |
| ApplicationModal.Countdown.StartTimer | src/components/shared/Modal/v0/bravetto-recruitment-platform-modal/components/bravetto-quest-modal.tsx:258-263 | the value is set and the timer runs |
| ApplicationModal.Countdown.Tick | src/components/shared/Modal/v0/bravetto-recruitment-platform-modal/components/bravetto-quest-modal.tsx:263-272 | the value becomes the tick value of the previous one (0 when absent) and the timer stops when it reaches 0 |
| ApplicationModal.Countdown.StopTimer | src/components/shared/Modal/v0/bravetto-recruitment-platform-modal/components/bravetto-quest-modal.tsx:276-281 | the timer stops and keeps its value |
| ApplicationModal.Countdown.ResetTimer | src/components/shared/Modal/v0/bravetto-recruitment-platform-modal/components/bravetto-quest-modal.tsx:283-289 | the timer stops and its value becomes the initial seconds |
| ApplicationModal.Modal.constructor | src/components/shared/Modal/v0/bravetto-recruitment-platform-modal/components/bravetto-quest-modal.tsx:346-387 | open, on level 1, with the initial form and no errors |
| ApplicationModal.Modal.Validate | src/components/shared/Modal/v0/bravetto-recruitment-platform-modal/components/bravetto-quest-modal.tsx:220-238 | the stored issues become the check's issues and the answer is whether the form passes |
| ApplicationModal.Modal.SubmitApplication | src/components/shared/Modal/v0/bravetto-recruitment-platform-modal/components/bravetto-quest-modal.tsx:433-462 | (stated once as the two-state predicate SubmitEffect) the stored issues become the check's issues, and the form is sent exactly when there are none, which is exactly when the schema holds; an invalid form makes no service call and shows the distinct messages of the issue list the closure saw; a valid one sends the form stamped with the time, and then shows success, the service's error (or a fixed fallback) or the unexpected-error message, with the submitting flag false again |
| ApplicationModal.Modal.Send | src/components/shared/Modal/v0/bravetto-recruitment-platform-modal/components/bravetto-quest-modal.tsx:442-461 | the form goes out stamped with the time; a success stores the result and shows the success screen, any other outcome leaves them and shows its one message; the submitting flag ends false |
| ApplicationModal.SubmissionErrorsAfter | src/components/shared/Modal/v0/bravetto-recruitment-platform-modal/components/bravetto-quest-modal.tsx:446-458 | no message after a success, the unexpected-error message after a rejection, and after a failed result exactly the service's error when it is non-empty, else the fallback message |
| ApplicationModal.Modal.ChangeLevel | src/components/shared/Modal/v0/bravetto-recruitment-platform-modal/components/bravetto-quest-modal.tsx:418-431 | both error lists are cleared; the level moves by the step when the target is in [1, 7] (as Navigate gives), with no check, and a real move captures the current form for the next submit; a forward step from level 7 has SubmitEffect on the captured form, showing no message when it fails; every other step leaves the submitting flag, result and success flag alone |
| ApplicationModal.Modal.PrimaryButton | src/components/shared/Modal/v0/bravetto-recruitment-platform-modal/components/bravetto-quest-modal.tsx:1711-1712 | on level 7 it has SubmitEffect on the current form and keeps the level and captured form: the stored issues become the schema's, a failure shows the distinct messages of the issues stored before the click and keeps the flags, a success sends the stamped form and shows the outcome; elsewhere it moves one level on, clears both error lists and captures the form |
| ApplicationModal.Modal.InputChange | src/components/shared/Modal/v0/bravetto-recruitment-platform-modal/components/bravetto-quest-modal.tsx:391-410 | the form becomes the routed update of the old form |
| ApplicationModal.Modal.ManifestoChange | src/components/shared/Modal/v0/bravetto-recruitment-platform-modal/components/bravetto-quest-modal.tsx:1237-1240 | the form is updated and the counter shows the text's word count |
| ApplicationModal.Modal.Close | src/components/shared/Modal/v0/bravetto-recruitment-platform-modal/components/bravetto-quest-modal.tsx:493-494 | the modal is closed |
| ApplicationModal.Modal.ResetEffect | src/components/shared/Modal/v0/bravetto-recruitment-platform-modal/components/bravetto-quest-modal.tsx:464-474 | once closed after a success: level 1, the initial form, no result, no errors, 0 words, the code timer stopped at 420 seconds, the success flag off, the open and submitting flags kept; otherwise no field of the modal or the countdown changes |
| ApplicationModal.NavigateStaysInRange | src/components/shared/Modal/v0/bravetto-recruitment-platform-modal/components/bravetto-quest-modal.tsx:418-431 | from any level in [1, 7], any sequence of steps stays in [1, 7] |
| SubmitQuestRoute.Post | src/app/api/submit-quest/route.ts:52-238 | 400 exactly for a missing identity field, before the configuration check and with no call; 500 for a missing configuration with no call; on 200 the task call comes first, the webhook second only when configured, and success is true |
| SubmitQuestRoute.Candidates | src/app/api/submit-quest/route.ts:147-187 | nine custom-field candidates in payload order, entry i pairing the id configured for the i-th field with the value at that field's section and key |
| SubmitQuestRoute.CustomFieldsFilter | src/app/api/submit-quest/route.ts:147-187 | the payload keeps exactly the candidates with a truthy id and a value neither undefined nor empty, in order; a rating of 0 is kept |
| SubmitQuestRoute.SoftSuccess | src/app/api/submit-quest/route.ts:191-224 | a refused task still answers 200 with success and the id `QUEST-<now>` |
| SubmitQuestRoute.TaskIdFromClickUp | src/app/api/submit-quest/route.ts:199-224 | an accepted task with a truthy id reports that id |
| SubmitQuestRoute.OkResponse | src/app/api/submit-quest/route.ts:191-230 | a 200 answer needs the identity fields, the configuration and a JSON reply, and is the success body built from the created task (`null` after a refusal) |
| SubmitQuestRoute.WebhookDoesNotChangeResponse | src/app/api/submit-quest/route.ts:202-219 | the response is the same whether or not a webhook is configured |
| SubmitQuestRoute.EchoesIdentity | src/app/api/submit-quest/route.ts:225-230 | the response echoes first name, last name, email and `first last` as the full name |
| SubmitApplicationRoute.Post | src/app/api/submit-application/route.ts:3-98 | a missing configuration gives 500 with no call; an unparsable or JSON `null` body gives 500 with no call; an object body under a configuration makes exactly one task call named `first last - Application`; 200 exactly when the reply has a JSON body |
| SubmitApplicationRoute.OkResponse | src/app/api/submit-application/route.ts:81-91 | a 200 answer happens only for a configured, non-null body and a reply with a JSON body, and is then the success body built from the created task (the reply's body when it was accepted, `null` when refused) |
| SubmitApplicationRoute.TaskIdFromClickUp | src/app/api/submit-application/route.ts:81-91 | for an accepted task the answer is 200 with `success: true`, `taskId` the created task's truthy id or else `task_<now>`, and `taskUrl` its truthy url or else `null` |
| SubmitApplicationRoute.PhoneText | src/app/api/submit-application/route.ts:28 | a falsy phone prints as "Not provided" |
| SubmitApplicationRoute.Candidates | src/app/api/submit-application/route.ts:51-68 | four custom-field candidates in payload order, entry i pairing the id configured for the i-th field with the body's value under that field's key |
| SubmitApplicationRoute.CustomFieldsFilter | src/app/api/submit-application/route.ts:51-68 | the payload keeps exactly the candidates whose id and value are truthy; 0 and "" are dropped |
| SubmitApplicationRoute.SoftSuccess | src/app/api/submit-application/route.ts:73-91 | a refused task still answers 200 with success, `task_<now>` and a null URL |
| SubmitApplicationRoute.NoValidation | src/app/api/submit-application/route.ts:5-22 | with a configuration, any object body makes the task call |
| SimulatedApplicationRoute.Post | src/components/shared/Modal/v0/bravetto-recruitment-platform-modal/app/api/submit-application/route.ts:3-64 | a missing configuration gives 500 whatever the body; otherwise 200 exactly when the body parses to a non-null value, with the id `task_<now>` and the URL built from it |
| SimulatedApplicationRoute.SimulatedTaskId | src/components/shared/Modal/v0/bravetto-recruitment-platform-modal/app/api/submit-application/route.ts:48 | the id starts with `task_` |
| SimulatedApplicationRoute.ConfigBeforeParse | src/components/shared/Modal/v0/bravetto-recruitment-platform-modal/app/api/submit-application/route.ts:9-15 | without a configuration the answer does not depend on the body or the time |
| SimulatedApplicationRoute.TaskIdCarriesTime | src/components/shared/Modal/v0/bravetto-recruitment-platform-modal/app/api/submit-application/route.ts:48-49 | the time can be read back from the id |
| Http.OrFallback | src/app/api/submit-quest/route.ts:224 | `created?.key || fallback`: the downstream value when truthy, else the fallback |
| Http.ListTaskUrl | src/app/api/submit-quest/route.ts:135 | the task endpoint is the ClickUp list prefix, the list id and "/task", and the list id reads back from between them |
| Json.Prop | src/app/api/submit-quest/route.ts:58 | optional property access gives the value only for an object having the key |
| V0Analysis.AnalyzeV0Projects | src/lib/utils/v0-analysis.ts:49-69 | every list and both variable records are empty, for any paths |
| V0Analysis.FindBlock | src/lib/utils/v0-analysis.ts:84-93 | the block found is non-empty and holds no closing brace |
| V0Analysis.ReadDeclarations | src/lib/utils/v0-analysis.ts:86-89 | the loop builds the record of assigning each declaration in order |
| V0Analysis.ExtractCSSVariables | src/lib/utils/v0-analysis.ts:74-102 | light holds the declarations of the first `:root` block and dark those of the first `.dark` block (empty when absent) |
| V0Analysis.ExtractedValue | src/lib/utils/v0-analysis.ts:87-89 | a property declared several times takes its last value; one never declared is absent |
| V0Analysis.MergeInto | src/lib/utils/v0-analysis.ts:118-141 | the loop computes the merge step for one source record |
| V0Analysis.AppendDecls | src/lib/utils/v0-analysis.ts:145-151 | the loop appends one `  --k: v;` line per entry |
| V0Analysis.MergeCSSVariables | src/lib/utils/v0-analysis.ts:107-155 | the text is the light lines inside `:root {` and the dark lines inside `.dark {`, after merging landing then modal |
| V0Analysis.MergeUntouched | src/lib/utils/v0-analysis.ts:112-141 | a key that is no prefixed source key keeps its value |
| V0Analysis.MergeKeepsKeyOrder | src/lib/utils/v0-analysis.ts:112-141 | the existing keys keep their order and come first |
| V0Analysis.MergeAddsAbsent | src/lib/utils/v0-analysis.ts:118-141 | provided the source's keys are distinct and none of them already starts with the prefix, a source key whose own name is falsy in the record ends up under `prefix + key` with its source value |
| V0Analysis.PrefixedExistingKeyOverwritten | src/lib/utils/v0-analysis.ts:118-122 | an existing `v0-landing-x` is overwritten by the landing value of `x` |
| V0Analysis.RenderLines | src/lib/utils/v0-analysis.ts:144-152 | the text holds one line for each merged entry |
| V0Analysis.FindDuplicateComponents | src/lib/utils/v0-analysis.ts:160-169 | the landing names that equal some modal name ignoring case, with their repetitions, and no other |
| V0Analysis.DuplicatesAppend | src/lib/utils/v0-analysis.ts:160-169 | the search distributes over concatenation, so with DuplicatesUnit the duplicates keep their landing order |
| V0Analysis.DuplicatesUnit | src/lib/utils/v0-analysis.ts:160-169 | one landing name is reported exactly when some modal name equals it ignoring case |
| V0Analysis.StripCodeExt | src/lib/utils/v0-analysis.ts:178 | one trailing .ts, .tsx, .js or .jsx comes off; other names are unchanged |
| V0Analysis.StripAppendedExt | src/lib/utils/v0-analysis.ts:178 | stripping removes exactly an appended code extension |
| V0Analysis.NotComponentFiles | src/lib/utils/v0-analysis.ts:188-193 | for every stem and every extension starting with a dot, test, spec, declaration and style-sheet files are not component files |
| V0Analysis.ComponentFileHasStem | src/lib/utils/v0-analysis.ts:188-193 | a component file has a code extension, which stripping removes |
| V0Analysis.ExtractComponentName | src/lib/utils/v0-analysis.ts:198-201 | the name holds no directory separator |
| V0Analysis.ComponentNameOfPath | src/lib/utils/v0-analysis.ts:198-201 | a code file in a directory is named by its stem |
| V0Analysis.GenerateImportMap | src/lib/utils/v0-analysis.ts:174-183 | the loop builds the record of assigning each component's import path in order |
| V0Analysis.ImportMapLookup | src/lib/utils/v0-analysis.ts:177-180 | each name maps to `@/components/` + the path of its last component, extension stripped |
| V0Analysis.ImportMapAbsent | src/lib/utils/v0-analysis.ts:174-183 | a name that no component has is absent from the import map |
| V0Integration.MapV0ColorToShadcn | src/lib/utils/v0-integration.ts:19-34 | a listed name gets its table value; any other name comes back unchanged |
| V0Integration.MapColorIdempotent | src/lib/utils/v0-integration.ts:20-33 | mapping twice is mapping once |
| V0Integration.ValidateV0Props | src/lib/utils/v0-integration.ts:40-50 | missing lists exactly the required props absent from props, and valid holds exactly when none is |
| V0Integration.MissingAppend | src/lib/utils/v0-integration.ts:40-50 | the check distributes over concatenation of the required list, so with MissingUnit missing keeps the required order |
| V0Integration.MissingUnit | src/lib/utils/v0-integration.ts:40-50 | one required prop is missing exactly when props lacks it |
| V0Integration.CheckComponentNameConflict | src/lib/utils/v0-integration.ts:68-73 | exact, case-sensitive membership |
| V0Integration.ConvertV0Animation | src/lib/utils/v0-integration.ts:55-63 | initial is `from` if truthy else `initial`, animate is `to` if truthy else `animate`, exit is copied, a truthy transition passes through and a falsy one defaults to 0.3 s; a nullish argument throws |
| V0Integration.InterfaceLines | src/lib/utils/v0-integration.ts:79-90 | read line by line, the text is the header, one `  key?: type;` line per entry in order and the closing brace |
| V0Integration.InterfaceAsJoin | src/lib/utils/v0-integration.ts:83-89 | the text is the header, member lines and brace joined by line breaks |

## Left out

- Rendering, animation, focus trapping and the markup of every section; `progressPercent` (floating-point rounding).
- Network and platform calls are not executed: `fetch`, `request.json()`, `process.env`, `Date.now`, `toLocaleString`, `setTimeout` and `setInterval`. Their results are parameters: the downstream reply, the parsed body, the environment and `now`.
- The ClickUp client class in the schema variant (request ids, retries, its fallback messages) is not part of this model; its answer is the `ServiceOutcome` parameter.
- The long markdown task descriptions: only the name, email and phone lines are modelled, plus the conditions under which building the description throws.
- JSON numbers are integers; floating-point values, `NaN` and ratings given as fractions are not modelled.
- Records do not model JavaScript's ordering of integer-like keys or prototype keys such as `__proto__`.
- V0Integration.MapV0ColorToShadcn: `colorMap[v0Color]` also reads names inherited from `Object.prototype`, so "constructor" yields the `Object` function; the model treats only the listed names as present.
- V0Integration.ValidateV0Props: `props` is the set of names the `in` operator reports, so inherited names such as "toString" count as present in JavaScript; the model counts only the props given.
- V0Integration.GeneratePropsInterface: the sample values are JSON values, so `typeof` yields "object", "boolean", "number" or "string"; function and `undefined` samples ("function", "undefined") are not modelled.
- `toLowerCase` is modelled on ASCII letters only.
- String lengths count characters, where JavaScript counts UTF-16 code units.
- The zod library is not modelled. Its issue list is the list of failing rules in schema order, with one rule per field check. A failed enum aborts the object, so the cross-field timeline rule is then skipped. Issues for values of the wrong type are not modelled, because the form's fields are typed.
- ApplicationModal.HandleInputChange: a name that is not a field of the form (an unknown `vibe_` or rating key, or an unknown top-level name) adds a new key in JavaScript; the model leaves the form unchanged. A checkbox that is not a vibe flag is also ignored; the markup has none.
- ApplicationModal.Modal.Close: the `onClose` callback is not modelled.
- The countdown's unmount clean-up and the start/stop toggle in the markup are interface wiring; the timer operations themselves are modelled.
- The keyboard handler's key dispatch (ArrowRight and ArrowLeft call `changeLevel(1)` and `changeLevel(-1)`) is not a separate member; `ChangeLevel` models its effect.
- ApplicationModal.Modal.Send: the await on the service is one atomic step, so `isSubmitting` is set and cleared within one call and is never observed true. In the component it stays true while the call is pending. The footer buttons are disabled during that time, but the arrow-key handler and Escape still act, so an ArrowRight on level 7 can start a second submission before the first one returns. The model does not capture that interleaving.
- QuestModal.Modal.HandleSubmit: the awaited `onSubmit` callback is likewise one atomic step, so `isSubmitting` is never observed true between the call and its settling.
- The initial form (the `initialForm` field of `ApplicationModal.Modal`) is fixed when the modal is created. In the component it is recomputed whenever the opening context changes, and the reset effect uses the current one.
- `path.basename` is modelled for POSIX paths.
- The CSS regular expressions are modelled by hand-written matchers for those exact patterns, not by a general regular-expression engine.
- `mergeV0Styles` (a call into `twMerge`/`clsx`), `analyzeBravettoV0Projects` (a wrapper with fixed paths) and `scripts/integrate-v0.ts` (file-system I/O) are not part of this model.
