# Dormir Natural quiz funnel — a Dafny model

This project models the control logic of the Dormir Natural sleep-program funnel. It covers:

- the 18-step quiz;
- the offer page at its end;
- the analytics and telemetry derivations around it;
- the small in-memory server stores behind lead capture, checkout and magic-link sign-in.

Each source file of that core is one Dafny module. The helper modules are shared by the rest:

- `Wrappers` holds `Option`.
- `JsText` holds the JavaScript string operations: `trim`, UTF-16 length, `split`, `join`, global `replace` with its `$` patterns, and integer rendering.
- `JsValue` holds parsed JSON values with truthiness, property access, and the conversions to text and to number, including the ones that throw.

| module | file | source | form |
|---|---|---|---|
| `QuizTypes` | `quiz_types.dfy` | `src/lib/quiz/types.ts` | answers as closed enumerations, the flags record, the e-mail pattern as a predicate |
| `QuizEngine` | `quiz_engine.dfy` | `src/lib/quiz/engine.ts` | the forward and back tables, validation with its error priority, progress; `navigateToStep` as a method with a loop |
| `QuizStore` | `quiz_store.dfy` | `src/lib/quiz/store.ts` | a class: the state field, the listener list, the saved copy as ghost state, the store's own validity and skip tables |
| `QuizContent` | `quiz_content.dfy` | `src/lib/quiz/content.ts` | the step table, `{{nome}}` substitution and the flag- and answer-keyed variants |
| `QuizDriver` | `quiz_driver.dfy` | `src/components/quiz/QuizEngine.tsx` | a class over the store: the Next and Back handlers, lead submission, the step-to-field map |
| `QueryParams` | `query_params.dfy` | `QuizEngine.tsx` and `src/lib/quiz/analytics.ts` | the two query-string filters as loops |
| `OfferStep` | `offer_step.dfy` | `src/components/quiz/steps/OfferStep.tsx` | copy lines, the variant tag, the bullet builders with their fill loop, the prerequisite check, the checkout button guard |
| `QuizAnalytics` | `quiz_analytics.dfy` | `src/lib/quiz/analytics.ts` | the answer summary, the sanitiser, the branch trigger, the branch path, the offer id, the navigation counters |
| `Telemetry` | `telemetry.dfy` | `src/lib/telemetry/client.ts` | the recursive personal-data stripper and a class holding the session id |
| `LeadStorage` | `lead_storage.dfy` | `src/lib/storage/lead.ts` | a class over the lead map and the processed-key set; the e-mail mask |
| `RateWindow` | `rate_window.dfy` | `src/pages/api/lead.ts` and `src/lib/email/sender.ts` | the fixed-window limiter both files implement, as a class over its records |
| `LeadApi` | `lead_api.dfy` | `src/pages/api/lead.ts` | honeypot, UUID v4 pattern, payload rules and the POST handler's order |
| `EmailSender` | `email_sender.dfy` | `src/lib/email/sender.ts` | the provider choice, the send outcome, the per-address limiter |
| `MagicAuth` | `magic_auth.dfy` | `src/lib/auth/magic.ts` | a class over the user and token maps |
| `AbFlags` | `ab_flags.dfy` | `src/lib/abFlags.ts` | the 32-bit hash loop and the stored-variant filter |
| `Checkout` | `checkout.dfy` | `src/pages/api/checkout/create.ts` | request validation and the refusal and idempotency order |
| `EmailTemplates` | `email_templates.dfy` | `src/lib/email/templates.ts` | first-name extraction and where the link and names go |
| `TextField` | `text_field.dfy` | `src/components/quiz/ui/TextField.tsx` | `validateValue`, `formatName`, and a class with the field's state |
| `LeadForm` | `lead_form.dfy` | `src/components/quiz/steps/LeadForm.tsx` | `validateField`, and a class with the form data, messages and left fields |
| `CheckboxPill` | `checkbox_pill.dfy` | `src/components/quiz/ui/CheckboxPill.tsx` | the capped toggle, and a class with the selection |
| `MultipleChoice` | `multiple_choice.dfy` | `src/components/quiz/steps/MultipleChoice.tsx` | the capped check and uncheck, and a class with the selection |
| `QuizShell` | `quiz_shell.dfy` | `src/components/quiz/QuizShellUpdated.tsx` | the weighted progress computed on fractions, the label, navigation and keyboard rules |
| `Images` | `images.dfy` | `src/lib/images.ts` | the `sizes` and `srcset` strings and the no-width case of the optimised path |

## Modelling conventions

- **Clock and randomness.** The clock is a `now: int` parameter. Random session ids, user ids, tokens and mock message ids are parameters too. The token hash is a fixed function given to the store.
- **Outside services.** Replies of outside services are datatypes passed in: the e-mail provider, the payment provider, and the lead endpoint as seen from the quiz page.
- **State.** State the source changes in place is a class field. Examples are the quiz store's state and listeners, the server maps, and the components' hook state. Each method's `ensures` gives the whole new state in terms of the old one.
- **Numbers and text.**
  - JSON numbers are integers here. A string converted by `Number` follows the full numeric-literal grammar and gives NaN, an infinity or an exact `real`. The progress percentage is done on fractions too, with `real`, and it is proved equal to an integer formula.
  - Strings are sequences of Unicode scalar values. JavaScript's `.length` counts UTF-16 code units, and `JsLength` computes that count explicitly.

## Source behaviour kept as written

- The engine validates step 6 strictly: it trims the name and checks the e-mail pattern. The store's table only asks that the fields be present. `QuizStore.StepSixTablesDisagree` gives a state the two judge differently.
- Step 4 branches on the current diagnosis, but step 6 branches on a flag that is never cleared. See `QuizStore.FlagOutlivesAnswer`.
- `prevStep` from step 8 always gives 7.
- The quiz page stamps `completedAt` with the time of submission. The lead endpoint takes a completion less than 30 seconds old for a bot, so `LeadApi.DriverLeadLooksLikeBot` shows the page's own lead being refused.
- `storeLead` writes the lead before it reads `meta`. A payload without `meta` is therefore stored, yet reported as a failure.
- The offer page tests the impact and wish answers for values that no option of steps 9 and 11 offers. `OfferStep.NoProductivityFromOptions` and `OfferStep.WishBulletsUnreachable` state which bullets can never appear.

## Model

| member | source | states |
|---|---|---|
| QuizTypes.EmailCheckSound | src/lib/quiz/types.ts:103 | every string the direct e-mail check accepts has a split `local@host.tld` into non-empty runs without whitespace or `@` |
| QuizTypes.EmailCheckComplete | src/lib/quiz/types.ts:103 | every string of the form the e-mail pattern describes passes the direct check |
| QuizTypes.EmailPatternIff | src/lib/quiz/types.ts:103 | the direct check (one `@`, no whitespace, a `.` inside the domain) accepts exactly the strings the e-mail pattern matches |
| QuizEngine.ForwardTarget | src/lib/quiz/engine.ts:75-166 | the successor of any step below 18 lies strictly after it and at most at 18; from 18 on it is 18 |
| QuizEngine.NextStep | src/lib/quiz/engine.ts:62-172 | a state failing its own step's validation stays put, refuses and carries that message; a valid one proceeds with no message, strictly forward and never past 18 |
| QuizEngine.NextStepBranches | src/lib/quiz/engine.ts:77-166 | 4 goes to 6 exactly when diagnostico is sem_problemas (else 5); 6 goes to 10 exactly when the no-problems flag is set (else 7); 8 goes to 10 exactly when ansiedade is nunca (else 9); every other step below 18 goes to the next one |
| QuizEngine.FinalStepIsTerminal | src/lib/quiz/engine.ts:160-162 | from step 18 `nextStep` answers 18, proceeding, with no message, whatever the answers |
| QuizEngine.PrevStep | src/lib/quiz/engine.ts:177-229 | never below step 1; refuses at step 1 or below; otherwise proceeds strictly backwards |
| QuizEngine.PrevStepRules | src/lib/quiz/engine.ts:190-223 | 6 goes back to 4 under the no-problems flag, else 5; 10 goes back to 6, else 8 when ansiedade is nunca, else 9; 8 always goes back to 7; any other step to the one before |
| QuizEngine.BackUndoesForward | src/lib/quiz/engine.ts:62-229 | on every state whose flag agrees with its diagnosis and whose cursor is on its path, going back after a successful step forward returns to the step left |
| QuizEngine.ValidateStepRules | src/lib/quiz/engine.ts:265-358 | steps 1, 3, 12, 15, 17, 18 and unknown steps always pass; 5, 7, 8 pass under the no-problems flag; 9 passes exactly with impactos, the flag or ansiedade nunca; 10 and 11 pass exactly with a non-empty list |
| QuizEngine.StepSixPriority | src/lib/quiz/engine.ts:293-303 | step 6 reports the name message first, then the e-mail message, then the consent message, and passes exactly when all three checks pass |
| QuizEngine.ForwardResult | src/lib/quiz/engine.ts:239-259 | the forward walk from a step at most 18 ends between that step and 18; when it proceeds it reached the target or 18; when it refuses it stopped short of the target on a step that fails validation, with that step's message |
| QuizEngine.NavigateToStep | src/lib/quiz/engine.ts:234-260 | the loop computes the walk: `prevStep` backwards, the forward walk otherwise |
| QuizEngine.GetProgress | src/lib/quiz/engine.ts:363-365 | the result is the integer nearest to 100·step/18 (within half a point) |
| QuizEngine.ProgressFacts | src/lib/quiz/engine.ts:363-365 | progress is 6 at step 1, 50 at step 9, 100 at step 18, and between 0 and 100 on steps 0..18 |
| QuizEngine.ProgressMonotone | src/lib/quiz/engine.ts:363-365 | progress never decreases as the step grows |
| QuizEngine.CanGoBack | src/lib/quiz/engine.ts:370-372 | `canGoBack` holds exactly when `prevStep` proceeds from that step, for every state |
| QuizEngine.IsFinalStep | src/lib/quiz/engine.ts:377-379 | the final step is one `nextStep` maps to itself, proceeding, for every state; no step in 1..17 is final |
| QuizEngine.StepTypeMatchesValidation | src/lib/quiz/engine.ts:384-397 | the always-valid steps are exactly the presentation and loading steps, and the multiple-choice steps are exactly 9, 10, 11 |
| QuizEngine.BranchTags | src/lib/quiz/engine.ts:411-417 | at most five tags, and none exactly when no flag is set |
| QuizEngine.BranchTagsNameFlags | src/lib/quiz/engine.ts:412-417 | each of the five tags is present exactly when its flag is set |
| QuizEngine.BranchTagsPlain | src/lib/quiz/engine.ts:413-417 | no branch tag holds a comma or a space |
| QuizEngine.BranchInfoNamesFlags | src/lib/quiz/engine.ts:410-420 | the branch info is "default" exactly when no flag is set, and contains the tag of every set flag |
| QuizStore.MergeLaws | src/lib/quiz/store.ts:72-76 | merging an empty update changes nothing, and merging the same update twice is merging it once |
| QuizStore.MergeOnlyGivenFields | src/lib/quiz/store.ts:73-76 | a field the update gives takes the given value, and a field it does not give keeps its old value |
| QuizStore.AnsweredByPatch | src/lib/quiz/store.ts:98-208 | every setter's one-field update writes exactly its answer's field and leaves the flags alone |
| QuizStore.AnswerKeepsFlags | src/lib/quiz/store.ts:98-208 | no setter lowers a flag, and a setter whose answer triggers nothing leaves the flags unchanged |
| QuizStore.TriggerSetsOneFlag | src/lib/quiz/store.ts:102-190 | sem_problemas, frequente, sempre or muitas, tentei and medo_falhar each set their own flag to true and keep the other four |
| QuizStore.FlagsGrowOverRun | src/lib/quiz/store.ts:98-208 | over any sequence of setter calls every flag that was set stays set |
| QuizStore.FlagOutlivesAnswer | src/lib/quiz/store.ts:102-114 | after sem_problemas then another diagnosis the no-problems flag stays set: step 4 goes on to 5 while a valid step 6 still skips to 10 |
| QuizStore.StepSet | src/lib/quiz/store.ts:88-95 | the cursor moves and the flags stay; step 18 stamps the completion time only when it is not yet truthy; other steps keep it |
| QuizStore.EngineValidImpliesStoreValid | src/lib/quiz/store.ts:223-264 | any step the engine's validation accepts, the store's table accepts |
| QuizStore.StoreValidMatchesEngineOffSix | src/lib/quiz/store.ts:223-264 | on every step except 6 the store's table and the engine's validation agree exactly |
| QuizStore.StepSixTablesDisagree | src/lib/quiz/store.ts:234-235 | with a one-letter name, a valid e-mail and consent, the store accepts step 6 while the engine refuses it with the name message |
| QuizStore.SkippedStepsAreSkippable | src/lib/quiz/store.ts:267-289 | the steps the engine's forward table jumps over on each branch are steps the skip table marks |
| QuizStore.Broadcast | src/lib/quiz/store.ts:60-69 | one delivery per listener, in order, each with the same snapshot |
| QuizStore.Without | src/lib/quiz/store.ts:54-56 | the removed listener is gone and every other listener stays |
| QuizStore.WithoutKeepsDistinct | src/lib/quiz/store.ts:27 | removing a listener keeps the set free of repeats |
| QuizStore.Store.constructor | src/lib/quiz/store.ts:29-34 | the stored state is resumed only with a truthy sessionId and startedAt; otherwise a fresh state at step 1 with no flags; either way it is saved and there are no listeners |
| QuizStore.Store.Subscribe | src/lib/quiz/store.ts:50-51 | a listener already subscribed is not added twice; a new one is added last |
| QuizStore.Store.Unsubscribe | src/lib/quiz/store.ts:54-56 | the listener is removed and nothing else changes, so later notifications do not reach it |
| QuizStore.Store.Notify | src/lib/quiz/store.ts:60-69 | every listener receives the current snapshot exactly once, in subscription order, even when an earlier one throws |
| QuizStore.Store.SetState | src/lib/quiz/store.ts:72-80 | the state becomes the merge, is saved, and every listener is notified once with it |
| QuizStore.Store.SetStep | src/lib/quiz/store.ts:88-95 | the cursor moves and is broadcast; reaching 18 without a truthy completion time stamps it and broadcasts again |
| QuizStore.Store.Complete | src/lib/quiz/store.ts:210-212 | the completion time is always overwritten with now, saved and broadcast |
| QuizStore.Store.Apply | src/lib/quiz/store.ts:98-208 | the answer's field is written and broadcast, then the triggered flag raised and broadcast again; no flag is lowered |
| QuizStore.Store.SetLead | src/lib/quiz/store.ts:193-195 | nome, email and consent are written in one update and broadcast once |
| QuizStore.Store.Reset | src/lib/quiz/store.ts:215-220 | the state is a fresh one at step 1 with no flags, saved and broadcast |
| QuizStore.LeadSetters | src/lib/quiz/store.ts:197-208 | `setNome`, `setEmail` and `setConsent` each write their one field and raise no flag |
| QuizContent.TableTypesMatchEngine | src/lib/quiz/content.ts:4-204 | every step 1..18 has a table entry with its own id, whose declared type is the engine's step type |
| QuizContent.EntryTypeMatches | src/lib/quiz/content.ts:4-204 | the type column of the table agrees with the engine's step-type table on 1..18 |
| QuizContent.MinSelectionsMatchEngine | src/lib/quiz/content.ts:102-140 | steps 9, 10, 11 declare a minimum of one selection and no maximum; at 10 and 11 the engine passes exactly with at least one selection |
| QuizContent.EngineListRules | src/lib/quiz/engine.ts:325-335 | the engine passes step 10 exactly with at least one consequence, and step 11 exactly with at least one wish |
| QuizContent.OptionValues | src/lib/quiz/content.ts:95-136 | the option values, one per option, in order |
| QuizContent.AgeOptions | src/lib/quiz/content.ts:17-20 | step 2 offers the four age ranges of the state's enumeration, in order |
| QuizContent.DiagnosticoOptions | src/lib/quiz/content.ts:36-39 | step 4 offers the four diagnoses of the state's enumeration, in order |
| QuizContent.HorasOptions | src/lib/quiz/content.ts:48-51 | step 5 offers the four sleep-hour ranges of the state's enumeration, in order |
| QuizContent.RemediosOptions | src/lib/quiz/content.ts:70-73 | step 7 offers the four remedy answers of the state's enumeration, in order |
| QuizContent.AnsiedadeOptions | src/lib/quiz/content.ts:82-85 | step 8 offers the four anxiety frequencies of the state's enumeration, in order |
| QuizContent.ConhecimentoOptions | src/lib/quiz/content.ts:155-157 | step 13 offers the three knowledge levels of the state's enumeration, in order |
| QuizContent.DirecionamentoOptions | src/lib/quiz/content.ts:166-169 | step 14 offers the four directions of the state's enumeration, in order |
| QuizContent.MicroOptions | src/lib/quiz/content.ts:185-187 | step 16 offers the three commitments of the state's enumeration, in order |
| QuizContent.ImpactKeywords | src/lib/quiz/content.ts:95-100 | "produtividade" is no impact option while "energia" is one |
| QuizContent.WishKeywords | src/lib/quiz/content.ts:131-136 | "dormir_rapido" is no wish option |
| QuizContent.EnergiaIsNoWish | src/lib/quiz/content.ts:131-136 | "energia" is no wish option |
| QuizContent.PersonalizedShape | src/lib/quiz/content.ts:207-216 | a step outside the table has no content; otherwise the copy keeps id, type, options and rules, fills the name into the title as `replace` does (expanding `$` patterns in the name), and away from 12, 15, 18 changes the text only by filling the name in |
| QuizContent.NameOpensTitle | src/lib/quiz/content.ts:211-213 | with a name, a title opening with the placeholder opens with the name's substitution, which is the name itself when it holds no `$`; without a name the placeholder stays |
| QuizContent.DollarNameKeepsPlaceholder | src/lib/quiz/content.ts:211-213 | a name written `$&` stands for the match, so the placeholder stays at the head of the title |
| QuizContent.NamedTitles | src/lib/quiz/content.ts:176-201 | the titles of steps 15 and 18 open with the placeholder, so once named they open with the name's substitution, and with the name itself when it holds no `$` |
| JsText.SubstitutionPlain | src/lib/quiz/content.ts:212 | a replacement without `$` is inserted as it is |
| JsText.ReplaceAllLeading | src/lib/quiz/content.ts:212 | in a string opening with the pattern, that occurrence is replaced first, with empty text before it |
| QuizContent.TestimonialChoice | src/lib/quiz/content.ts:220-226 | step 12 shows the remedies testimonial if that flag is set, else the anxiety one if that flag is set, else its own text, and changes nothing else |
| QuizContent.PromiseChoice | src/lib/quiz/content.ts:228-236 | step 15's text follows the priority remedies, anxiety, experience, own text, and nothing else changes |
| QuizContent.OfferContent | src/lib/quiz/content.ts:238-250 | step 18's text is the direction's description followed by the price sentence; "profundo" and no answer give the complete-method description |
| QuizContent.OtherStepsOnlyNamed | src/lib/quiz/content.ts:218-252 | away from steps 12, 15 and 18 the named copy is returned as is |
| QuizContent.MessagesMatchEngine | src/lib/quiz/content.ts:265-272 | the name, e-mail, consent and minimum-selection messages are word for word the engine's |
| QuizDriver.FieldNameMatchesStepType | src/components/quiz/QuizEngine.tsx:289-304 | exactly the steps 1..18 that show choices map to a field; every other step maps to "" |
| QuizDriver.FieldNameInjective | src/components/quiz/QuizEngine.tsx:289-304 | no two steps map to the same field |
| QuizDriver.StepChangeSatisfiesStep | src/components/quiz/QuizEngine.tsx:162-167 | an answer for the step's own field (a non-empty list on list steps) makes the engine accept that step |
| QuizDriver.GetUtmParams | src/components/quiz/QuizEngine.tsx:146-159 | no window gives an empty record; otherwise the record holds the `utm_` keys of the query with their last values |
| QuizDriver.LeadFor | src/components/quiz/QuizEngine.tsx:114-124 | the lead carries the whole state as its answers, the state's start time, and the current time as its completion time |
| QuizDriver.ValidatedLeadIsComplete | src/components/quiz/QuizEngine.tsx:79-84 | a state that passes step 6 and proceeds always submits a lead with name, e-mail and consent, so the incomplete-lead throw never fires from Next |
| QuizDriver.RefusedNextShowsMessage | src/components/quiz/QuizEngine.tsx:70-76 | a refused Next leaves the store's state alone and shows the step's own validation message |
| QuizDriver.FailedLeadKeepsStep | src/components/quiz/QuizEngine.tsx:92-95 | a failed lead submission on step 6 keeps the quiz on step 6 and shows the generic error |
| QuizDriver.NextMovesForward | src/components/quiz/QuizEngine.tsx:65-98 | an advancing Next moves strictly forward, never past 18, and clears the message; one that does not advance leaves the state and shows a message; flags never change |
| QuizDriver.LoadingReachesOffer | src/components/quiz/QuizEngine.tsx:84-91 | Next from step 17 always reaches 18 and stamps the completion time |
| QuizDriver.BackAfterNext | src/components/quiz/QuizEngine.tsx:65-105 | on the branch-consistent path, Back right after an advancing Next returns to the step that was left |
| QuizDriver.NextEnabledWhenEngineProceeds | src/components/quiz/QuizEngine.tsx:307 | whenever the engine would proceed the Next button is enabled; away from step 6 it is enabled exactly then |
| QuizDriver.BackEnabledIffBackMoves | src/components/quiz/QuizEngine.tsx:308 | the Back button is enabled exactly when Back moves |
| QuizDriver.Driver.constructor | src/components/quiz/QuizEngine.tsx:23-25 | no message, not loading, nothing posted, captured or completed |
| QuizDriver.Driver.HandleLeadSubmission | src/components/quiz/QuizEngine.tsx:108-144 | succeeds exactly with a complete lead and a 2xx answer; a complete lead is posted, and handed on only on success; the message and loading flag are untouched |
| QuizDriver.Driver.HandleNext | src/components/quiz/QuizEngine.tsx:65-98 | the store ends in the next-state function's state with the matching message and loading off; a lead is posted only when leaving step 6 with complete data, and completion is reported only on reaching 18 |
| QuizDriver.Driver.HandleBack | src/components/quiz/QuizEngine.tsx:100-105 | the store moves to the engine's predecessor only when it proceeds, and otherwise stays |
| QuizDriver.Driver.HandleStepChange | src/components/quiz/QuizEngine.tsx:162-167 | the setter runs only for the current step's own field; any other answer changes nothing |
| QuizDriver.Driver.HandleLeadChange | src/components/quiz/QuizEngine.tsx:169-173 | each given lead field is written and the others keep their values |
| QueryParams.KeptParamsKeys | src/lib/quiz/analytics.ts:188-192 | the record's keys are exactly the query keys that pass the filter (`utm_` prefix, and `variant` for the tracker) |
| QueryParams.KeptParamsLastWins | src/lib/quiz/analytics.ts:188-192 | a kept key carries the value of its last occurrence in the query |
| QueryParams.PageKeepsLess | src/components/quiz/QuizEngine.tsx:152-156 | every key the page's filter keeps, the tracker's filter keeps too, with the same value |
| QueryParams.FilterQuery | src/components/quiz/QuizEngine.tsx:152-156 | the loop over the entries builds the filtered record of the whole query |
| OfferStep.CopyVariantsRules | src/components/quiz/steps/OfferStep.tsx:11-32 | at most three distinct lines; the remedies, anxiety and experience lines appear exactly when their flags are set; the reassurance line appears exactly when its flag is set and not all three others are; the no-problems flag plays no part |
| OfferStep.CopiesDistinct | src/components/quiz/steps/OfferStep.tsx:15-27 | the four copy lines are pairwise different |
| OfferStep.OfferTags | src/components/quiz/steps/OfferStep.tsx:36-41 | at most four tags, one per set offer flag |
| OfferStep.OfferTagsPlain | src/components/quiz/steps/OfferStep.tsx:38-41 | no tag is empty or holds a '+' |
| OfferStep.VariantStringRoundTrip | src/components/quiz/steps/OfferStep.tsx:35-44 | the variant string is "default" exactly when no offer flag is set, and otherwise splits at '+' back into the set flags' tags in order |
| OfferStep.FillKeeps | src/components/quiz/steps/OfferStep.tsx:83-87 | the fill loop keeps the bullets already there in front, adds no duplicate, and stops at four |
| OfferStep.FillAddsOnlyFallbacks | src/components/quiz/steps/OfferStep.tsx:83-87 | the fill loop adds nothing but fallbacks |
| OfferStep.FillCount | src/components/quiz/steps/OfferStep.tsx:83-87 | with distinct new fallbacks the fill adds them until there are four or the fallbacks run out |
| OfferStep.FillBullets | src/components/quiz/steps/OfferStep.tsx:83-87 | the `forEach` over the displayed texts, when texts tell bullets apart, gives the texts of the fill over the bullets |
| OfferStep.AntesTextsDiffer | src/components/quiz/steps/OfferStep.tsx:52-81 | no two "Antes" bullets show the same text |
| OfferStep.DepoisTextsDiffer | src/components/quiz/steps/OfferStep.tsx:99-118 | no two "Depois" bullets show the same text |
| OfferStep.MapMember | src/components/quiz/steps/OfferStep.tsx:84 | when texts tell elements apart, `includes` on the texts is membership of the element |
| OfferStep.TextsUnique | src/components/quiz/steps/OfferStep.tsx:47-128 | distinct bullets of one list are shown as distinct lines |
| OfferStep.AntesShape | src/components/quiz/steps/OfferStep.tsx:47-91 | three or four distinct "Antes" bullets, the answer-derived ones first and in order; fallbacks only when fewer than three were derived; nothing else appears |
| OfferStep.AntesAnswerBullets | src/components/quiz/steps/OfferStep.tsx:61-74 | the anxiety bullet appears exactly on sempre or muitas, the remedies bullet exactly on frequente or tentei_nao_resolveu, the productivity bullet exactly when "produtividade" is among the impacts |
| OfferStep.AntesOneDiagnosis | src/components/quiz/steps/OfferStep.tsx:50-59 | a diagnosis bullet on the list is the bullet of the state's own diagnosis |
| OfferStep.NoProductivityFromOptions | src/components/quiz/steps/OfferStep.tsx:72-74 | impacts chosen from step 9's options never produce the productivity bullet, since "produtividade" is not one of them |
| OfferStep.PushAntes | src/components/quiz/steps/OfferStep.tsx:48-76 | the pushes derive the "Antes" bullets from the answers: the diagnosis, the anxiety, the remedies, the productivity impact |
| OfferStep.GetAntesBullets | src/components/quiz/steps/OfferStep.tsx:47-91 | the pushes, the fallback loop and the slice give the texts of the "Antes" list |
| OfferStep.AntesTextsShape | src/components/quiz/steps/OfferStep.tsx:47-91 | the page shows three or four distinct "Antes" lines |
| OfferStep.DepoisShape | src/components/quiz/steps/OfferStep.tsx:94-128 | exactly four distinct "Depois" bullets, the derived ones first and in order, the rest fallbacks |
| OfferStep.DepoisAnswerBullets | src/components/quiz/steps/OfferStep.tsx:97-111 | each wish or flag bullet appears exactly when its wish is chosen or its flag set |
| OfferStep.WishBulletsUnreachable | src/components/quiz/steps/OfferStep.tsx:98-103 | wishes chosen from step 11's options never produce the two wish bullets, since neither "dormir_rapido" nor "energia" is a wish option |
| OfferStep.GetDepoisBullets | src/components/quiz/steps/OfferStep.tsx:94-128 | the pushes, the fallback loop and the slice give the texts of the "Depois" list |
| OfferStep.DepoisTextsShape | src/components/quiz/steps/OfferStep.tsx:94-128 | the page shows exactly four distinct "Depois" lines |
| OfferStep.FormValidMeetsPrerequisites | src/components/quiz/steps/OfferStep.tsx:198 | a state that passed step 6 meets the prerequisites exactly when it has a session id |
| OfferStep.OneLetterNameMeetsPrerequisites | src/components/quiz/steps/OfferStep.tsx:198 | the prerequisites accept a one-letter name that step 6 refuses |
| OfferStep.OfferView.constructor | src/components/quiz/steps/OfferStep.tsx:130-131 | not loading, nothing posted or requested, no error, no redirect, and the session's snapshot key as the tab holds it |
| OfferStep.OfferView.SendFinalSnapshot | src/components/quiz/steps/OfferStep.tsx:227-286 | nothing when the session's key is set; otherwise one snapshot of the state, with the variant in `meta` and the click's time standing in for a missing completion time, and the key set only when the endpoint accepted it; nothing else changes |
| OfferStep.OfferView.HandleCTAClick | src/components/quiz/steps/OfferStep.tsx:289-331 | a click while loading changes nothing; otherwise the final snapshot is posted unless the session already sent one, then one checkout request carries the variant string, and the page either redirects and stays loading or reports the checkout error and stops loading, whatever became of the snapshot |
| QuizAnalytics.SummariesCarryNoLeadData | src/lib/quiz/analytics.ts:201-263 | the answer summary and the user profile depend only on the choice answers, the list lengths and the flags, never on name, e-mail, consent or ids; the profile is the summary's seven choice fields |
| QuizAnalytics.SummaryCounts | src/lib/quiz/analytics.ts:201-217 | a list's count is 0 exactly when the list is empty; flags and diagnosis are passed through |
| QuizAnalytics.SanitizeValueFacts | src/lib/quiz/analytics.ts:219-224 | no array survives, sanitising twice is sanitising once, and non-arrays are kept |
| QuizAnalytics.TriggerVersusFlags | src/lib/quiz/analytics.ts:226-239 | the tracker's branch trigger agrees with the store's flags for diagnosis, remedies and commitment; for anxiety it fires on nunca, where the store raises no flag; "tentei" raises a flag the trigger does not report |
| QuizAnalytics.BranchPathRoundTrip | src/lib/quiz/analytics.ts:241-251 | the branch path is "default" exactly when no flag is set, and otherwise splits at ',' back into the set flags' tags |
| QuizAnalytics.PersonalizationRenamesFlags | src/lib/quiz/analytics.ts:265-273 | the personalisation record is the five flags renamed, nothing lost |
| QuizAnalytics.GetOfferIdFromState | src/lib/quiz/analytics.ts:275-288 | the suffix chain computes the offer id of the state's personalisation |
| QuizAnalytics.OfferIdRoundTrip | src/lib/quiz/analytics.ts:275-288 | reading the suffixes back from an offer id gives the fast-track, remedies, anxiety and reassurance choices; the experience flag does not change the id |
| QuizAnalytics.SkippedStepsOfForwardMoves | src/lib/quiz/analytics.ts:85-90 | a forward move skips three steps exactly on the no-problems jump 6 to 10, one step exactly on 4 to 6 or 8 to 10, and otherwise none |
| QuizAnalytics.StepsBackOfBackMoves | src/lib/quiz/analytics.ts:106 | a back move goes one to four steps, four exactly from 10 under the no-problems flag |
| QuizAnalytics.GetUtmParams | src/lib/quiz/analytics.ts:182-195 | no window gives an empty record; otherwise the `utm_` and `variant` keys of the query with their last values |
| Telemetry.SanitizedIsPiiFree | src/lib/telemetry/client.ts:30-56 | the sanitised detail holds none of the thirteen personal keys at any nesting depth |
| Telemetry.UpToIsKeptEntries | src/lib/telemetry/client.ts:35-53 | entry by entry, the sanitised object is the copy with the personal keys deleted and each object value sanitised in turn |
| Telemetry.KeepOutMore | src/lib/telemetry/client.ts:44-46 | deleting the personal keys one after another is deleting them all at once |
| Telemetry.LookupKeepOut | src/lib/telemetry/client.ts:44-46 | deleting other keys does not change what a key reads |
| Telemetry.NonPiiKeysSurvive | src/lib/telemetry/client.ts:35-53 | every non-personal key reads, after sanitising, its sanitised original value; every personal key reads as undefined |
| Telemetry.SanitizedScalars | src/lib/telemetry/client.ts:31-35 | a falsy detail becomes {}; a truthy non-object is kept; an array becomes an object with one entry per element |
| Telemetry.NumericKeysKept | src/lib/telemetry/client.ts:44-46 | array indices are never personal keys, so an array loses no element |
| Telemetry.SanitizeDetail | src/lib/telemetry/client.ts:30-56 | the copy, the deletions and the recursive pass compute the sanitised detail |
| Telemetry.DeletePii | src/lib/telemetry/client.ts:44-46 | the `forEach` of deletes removes exactly the entries with personal keys, keeping the order of the rest |
| Telemetry.SanitizeValues | src/lib/telemetry/client.ts:49-53 | every entry keeps its key and has its value sanitised |
| Telemetry.LogEventGuard | src/lib/telemetry/client.ts:5-27 | an event is logged exactly when the session id is a non-empty string; the row carries that id and a detail free of personal keys |
| Telemetry.Session.constructor | src/lib/telemetry/client.ts:144 | no session id and nothing logged |
| Telemetry.Session.SetSessionId | src/lib/telemetry/client.ts:146-148 | the session id is set and nothing is logged |
| Telemetry.Session.GetSessionId | src/lib/telemetry/client.ts:150-152 | returns the session id last set |
| Telemetry.Session.TrackPageView | src/lib/telemetry/client.ts:155-159 | one sanitised page-view row is logged exactly when a non-empty session id is set; otherwise nothing |
| Telemetry.Session.TrackPageExit | src/lib/telemetry/client.ts:162-167 | one sanitised page-exit row, with the time on page only for a truthy start time, is logged exactly when a non-empty session id is set |
| Telemetry.PageTrackingGated | src/lib/telemetry/client.ts:154-167 | a page view and exit before any session id log nothing; after a non-empty id is set they log two rows |
| LeadStorage.KeyIndex | src/lib/storage/lead.ts:5 | the position of a key in the lead map, or -1 exactly when no entry has that key |
| LeadStorage.PutFind | src/lib/storage/lead.ts:24 | after `set`, the key reads the new lead, every other key reads what it read before, keys stay distinct and in their places |
| LeadStorage.KeyIndexUnique | src/lib/storage/lead.ts:5 | in a map with distinct keys, a key's only entry is the one found |
| LeadStorage.FirstByEmailIsEarliest | src/lib/storage/lead.ts:70-85 | the lead returned by e-mail is the earliest inserted one with exactly that e-mail; none found means no lead has it |
| LeadStorage.FirstByEmailPrefix | src/lib/storage/lead.ts:70-84 | a match among the first leads is not displaced by leads inserted later |
| LeadStorage.Stars | src/lib/storage/lead.ts:111 | `'*'.repeat(n)` is n stars |
| LeadStorage.MaskEmailKeepsDomain | src/lib/storage/lead.ts:108-112 | an address with one `@` and a local part of two or more characters keeps its first character and its domain, with one to three stars between |
| LeadStorage.MaskEmailShortLocal | src/lib/storage/lead.ts:109-110 | a local part of at most one code unit leaves the address unchanged |
| LeadStorage.MaskEmailWithoutAt | src/lib/storage/lead.ts:109-111 | with no `@` the domain part is the text "undefined" |
| LeadStorage.Store.constructor | src/lib/storage/lead.ts:5-6 | both stores start empty |
| LeadStorage.Store.StoreLead | src/lib/storage/lead.ts:21-40 | the lead is set under its session id, replacing any earlier one; the result is false exactly when the log line throws on a missing `meta`, and the lead is stored anyway |
| LeadStorage.Store.GetLeadBySessionId | src/lib/storage/lead.ts:43-65 | the lead stored under the session id, with its fields copied and the creation time read from the clock, or null when none is stored |
| LeadStorage.Store.GetLeadByEmail | src/lib/storage/lead.ts:68-90 | the first lead in insertion order whose e-mail matches exactly, or null |
| LeadStorage.Store.CheckIdempotency | src/lib/storage/lead.ts:93-95 | a key is fresh exactly when it has not been marked processed |
| LeadStorage.Store.MarkProcessed | src/lib/storage/lead.ts:98-100 | the key joins the processed set and the leads are unchanged |
| LeadStorage.PutKeepsLeads | src/lib/storage/lead.ts:21-24 | storing a lead under its own session id keeps every entry filed under the session id it carries |
| LeadStorage.StoreThenGet | src/lib/storage/lead.ts:24-60 | a stored lead is read back under its session id with the same session id and e-mail |
| RateWindow.AdmitRules | src/pages/api/lead.ts:40-54 | a first call or one after the window is admitted and opens a new window; inside the window a call is admitted exactly while the count is under the cap, counting one more and keeping the window's end; a refused call changes nothing |
| RateWindow.WindowCap | src/pages/api/lead.ts:35-55 | within one window at most the cap of calls is admitted, the count kept equals the number admitted, and the window's end stays where the first call set it |
| RateWindow.SingleRequestWindow | src/pages/api/lead.ts:10-13 | with a cap of one, any later call inside the window is refused |
| RateWindow.Limiter.constructor | src/pages/api/lead.ts:8 | no key has a record |
| RateWindow.Limiter.Check | src/pages/api/lead.ts:35-55 | the key's record becomes the admitted record and the answer is the admission; every other key's record is unchanged |
| LeadApi.UuidV4Layout | src/pages/api/lead.ts:83 | the UUID pattern accepts exactly 36 characters with hyphens at 8, 13, 18, 23, hex digits elsewhere, version nibble 4 and variant bits binary 10 |
| LeadApi.FailedAmong | src/pages/api/lead.ts:58-87 | an issue is listed exactly when its rule is among those checked and fails |
| LeadApi.ValidatePayload | src/pages/api/lead.ts:58-92 | the errors are the failed rules in checking order, and the payload is valid exactly when there are none |
| LeadApi.ErrorsAreFailedRules | src/pages/api/lead.ts:58-87 | each issue is reported exactly when its own rule fails |
| LeadApi.RuleIndex | src/pages/api/lead.ts:62-86 | every rule sits somewhere in the checking order |
| LeadApi.ValidIffNoRuleFails | src/pages/api/lead.ts:88-91 | a payload is valid exactly when no rule fails |
| LeadApi.SessionIdRulesPass | src/pages/api/lead.ts:62-64 | the two session-id rules both pass exactly when the session id is a string matching the version-4 UUID pattern |
| LeadApi.ContactRulesPass | src/pages/api/lead.ts:66-72 | the name and e-mail rules pass exactly when both are strings, the trimmed name has at least two code units, and the e-mail matches the address pattern |
| LeadApi.ValidPayloadShape | src/pages/api/lead.ts:58-92 | a payload is valid exactly when it has a UUID v4 session id, a name of two code units after trimming, a matching e-mail, consent `true` and a non-zero numeric completion time |
| LeadApi.Messages | src/pages/api/lead.ts:120-123 | the details list one message per failed rule, in order |
| LeadApi.OutcomeOrder | src/pages/api/lead.ts:96-156 | a honeypot body gets 400 whatever else holds; a honeypot test or rate key that throws gets 500; past them, a body over quota gets 429 before it is validated; a lead is stored with 200 exactly when it reaches the rate limit, is admitted, passes validation and has `meta` |
| LeadApi.SecondLeadRefused | src/pages/api/lead.ts:35-55 | a second lead for the same session within five minutes of the first is refused with 429, valid or not, once it reaches the rate limit |
| LeadApi.NumericTimeVerdict | src/pages/api/lead.ts:16-32 | an object body with a numeric completion time is a honeypot exactly when a trap field is truthy or it was completed less than 30 seconds before now, and passes otherwise |
| LeadApi.TimeDecides | src/pages/api/lead.ts:22-31 | with no trap field filled and a completion time that converts, the 30-second test on the converted time decides |
| LeadApi.StringBodyIsHoneypot | src/pages/api/lead.ts:18-20 | a string body always has a truthy `link` (the inherited string method), so it is refused with 400 |
| LeadApi.TextTimeVerdict | src/pages/api/lead.ts:22-29 | a completion time written as text is judged by its value under `Number` |
| LeadApi.ExponentTimeIsHoneypot | src/pages/api/lead.ts:22-29 | a completion time written `<m>e<k>`, such as "1e13", counts as m·10^k milliseconds |
| LeadApi.OnlyCompletedAt | src/pages/api/lead.ts:18-24 | a body holding only a completion time fills no trap field and reads that time back |
| LeadApi.UnconvertibleTimeFails | src/pages/api/lead.ts:24-27 | a completion time that is an object with its own `toString` key makes the subtraction on line 25 throw, and the handler's catch (lines 148-154) answers 500 |
| JsValue.IntTextRoundTrip | src/pages/api/lead.ts:25 | the decimal rendering of any integer converts back to that integer |
| JsValue.DigitsText | src/pages/api/lead.ts:25 | a run of digits converts to its value, unsigned, after `+`, or negated after `-` |
| JsValue.ExponentNotation | src/pages/api/lead.ts:25 | `<m>e<k>` converts to m times ten to the k |
| JsValue.PointNotation | src/pages/api/lead.ts:25 | digits followed by `.0` convert to the digits' value |
| JsValue.PrefixedNotation | src/pages/api/lead.ts:25 | `0x`, `0o` and `0b` in either case, followed by digits of their base, convert to the digits' value in that base |
| JsValue.BlankIsZero | src/pages/api/lead.ts:25 | a string of whitespace converts to 0 |
| JsValue.WordIsNaN | src/pages/api/lead.ts:25 | text whose trimmed form opens with a lower-case letter converts to NaN |
| LeadApi.DriverLeadLooksLikeBot | src/pages/api/lead.ts:22-29 | the quiz stamps `completedAt` with the submission time, so its own lead reaching the endpoint within 30 seconds of that time is taken for a bot and refused with 400 |
| LeadApi.Endpoint.constructor | src/pages/api/lead.ts:8 | the endpoint starts with no rate records and the given lead store |
| LeadApi.Endpoint.Post | src/pages/api/lead.ts:96-156 | the answer is the outcome for the session's old rate record; any body that reaches the rate limit spends quota, valid or not, and no other body does; only an admitted valid body is written, even when the missing `meta` makes the answer a 500; idempotency keys are untouched |
| EmailSender.ProviderFallback | src/lib/email/sender.ts:110-124 | an unset or empty provider setting and any name other than postmark, sendgrid or ses, in any letter case, send through the mock sender; the KELVIN SIGN lowers to 'k', so "POSTMAR\u212A" picks Postmark |
| JsText.LowerCaseAt | src/lib/email/sender.ts:110 | `toLowerCase` lowers each character on its own, A–Z and the KELVIN SIGN to ASCII letters |
| JsText.LowerCaseAscii | src/lib/email/sender.ts:110 | a lowered character is ASCII exactly when it was ASCII or the KELVIN SIGN, so comparing with an ASCII name is exact |
| EmailSender.SendEmailOutcome | src/lib/email/sender.ts:17-125 | a send succeeds exactly when the mock sender is chosen or Postmark or SendGrid accepted it; a success carries a message id and no error, a failure an error and no id; SES always fails |
| EmailSender.EmailKey | src/lib/email/sender.ts:132 | the limiter key is `email:` followed by the address |
| EmailSender.EmailKeyInjective | src/lib/email/sender.ts:132 | distinct addresses never share a window record |
| EmailSender.EmailRateLimit.constructor | src/lib/email/sender.ts:128 | the limiter starts with no records |
| EmailSender.EmailRateLimit.CheckEmailRateLimit | src/lib/email/sender.ts:130-146 | the address's record becomes the admitted record of its fixed window (three sends an hour by default) and the answer is the admission; every other address's record is unchanged |
| MagicAuth.RedeemOrder | src/lib/auth/magic.ts:122-149 | an unknown token is "not found", a used one "already used", an expired one "expired" and deleted, in that order; the expiry instant still validates; a token past those checks is marked used even when its user is gone; no other token changes |
| MagicAuth.RedeemOnce | src/lib/auth/magic.ts:130-141 | a token validates at most once: after a success the next attempt finds it used |
| MagicAuth.RedeemFindsOwner | src/lib/auth/magic.ts:140-148 | a success hands back the user the token was issued to |
| MagicAuth.AuthStore.constructor | src/lib/auth/magic.ts:5-18 | both stores start empty |
| MagicAuth.AuthStore.UpsertUser | src/lib/auth/magic.ts:45-70 | the user with this e-mail, renamed only when a non-empty name is given, or else a new user with no enrollments; e-mails stay unique and tokens are untouched |
| MagicAuth.AuthStore.CreateEnrollment | src/lib/auth/magic.ts:73-92 | false exactly for an unknown user; otherwise the program is appended unless already enrolled, so no program is enrolled twice |
| MagicAuth.AuthStore.CleanupExpiredTokens | src/lib/auth/magic.ts:152-159 | exactly the tokens whose expiry has passed are deleted; the rest and the users are unchanged |
| MagicAuth.AuthStore.CreateMagicToken | src/lib/auth/magic.ts:95-119 | the user is upserted, the token's hash is stored unused with a 24-hour expiry, the other tokens are cleaned of expired entries, and the link carries the raw token |
| MagicAuth.AuthStore.ValidateMagicToken | src/lib/auth/magic.ts:122-149 | redeems the token stored under the hash of the given token, leaving the users unchanged |
| MagicAuth.AuthStore.UserById | src/lib/auth/magic.ts:162-164 | a user is found exactly when one is stored under the id, and it is that user |
| AbFlags.ToInt32 | src/lib/abFlags.ts:9 | `hash & hash` gives the signed 32-bit value congruent to the hash modulo 2^32 |
| AbFlags.GetVariant | src/lib/abFlags.ts:3-17 | the loop over the code units computes the variant of the seed's hash: 'A' when its absolute value is even |
| AbFlags.HashStepTimes31 | src/lib/abFlags.ts:8-9 | each round is the hash times 31 plus the code unit, wrapped to 32 bits once |
| AbFlags.SameResidue | src/lib/abFlags.ts:9 | the wrapped value depends only on the residue modulo 2^32 |
| AbFlags.ToInt32Parity | src/lib/abFlags.ts:9 | wrapping to 32 bits keeps parity |
| AbFlags.StepParity | src/lib/abFlags.ts:8-9 | one round changes the hash's parity by the parity of the code unit |
| AbFlags.HashParity | src/lib/abFlags.ts:5-10 | the final hash has the parity of the sum of the code units |
| AbFlags.VariantParity | src/lib/abFlags.ts:3-17 | a seed gets 'A' exactly when the sum of its UTF-16 code units is even; the empty seed gets 'A' |
| AbFlags.StoredVariant | src/lib/abFlags.ts:19-24 | a stored variant is taken only in the browser and only when it is exactly "A" or "B" |
| Checkout.Failures | src/pages/api/checkout/create.ts:17-32 | a rule's message is pushed exactly when the rule fails |
| Checkout.ValidateRequest | src/pages/api/checkout/create.ts:17-38 | the errors are the failed rules in checking order, and the request is valid exactly when there are none |
| Checkout.ValidRequestShape | src/pages/api/checkout/create.ts:17-38 | a request is valid exactly when its session id is a version-4 UUID string and its variant a non-empty string |
| Checkout.NumericSessionIdReportedTwice | src/pages/api/checkout/create.ts:20-31 | a non-zero number as session id is reported both as missing and as malformed |
| Checkout.Messages | src/pages/api/checkout/create.ts:48-51 | the details list one message per failed rule, in order |
| Checkout.RefusalOrder | src/pages/api/checkout/create.ts:40-156 | a session id whose conversion to text throws is a 500; otherwise an invalid request is a 400 whatever the store holds, a processed key a 409, an unknown session a 404, a lead without consent a 400; a redirect comes exactly when all four pass and the provider created a session |
| Checkout.SecondCheckoutIsDuplicate | src/pages/api/checkout/create.ts:58-66 | once a session was created and its key marked, the same request is a 409 duplicate |
| Checkout.FailedCheckoutRetryable | src/pages/api/checkout/create.ts:90-116 | a 500 whose session id converts to text (the UUID test of line 30 does not throw) came from the provider and leaves its key unmarked, so the same request can still get its session; one whose session id throws stays a 500 |
| Checkout.CheckoutEndpoint.constructor | src/pages/api/checkout/create.ts:1-15 | the endpoint uses the shared lead store |
| Checkout.CheckoutEndpoint.Post | src/pages/api/checkout/create.ts:40-157 | the answer is the response for the keys processed before the call; the key is marked exactly when a session was created, and no lead changes |
| EmailTemplates.FirstNameRule | src/lib/email/templates.ts:9 | the first name is the name up to its first space; an empty name or one starting with a space is greeted as "Olá" |
| EmailTemplates.RenderHtml | src/lib/email/templates.ts:8-72 | the subject is the fixed subject; the HTML body greets the first name, links the magic link from its button and names the full name in its footer |
| EmailTemplates.RenderText | src/lib/email/templates.ts:74-95 | the plain-text body opens with the same greeting and carries the same link |
| TextField.ValidateValueMeaning | src/components/quiz/ui/TextField.tsx:41-72 | a blank value fails exactly when the field is required; a non-blank one passes exactly when it meets the minimum length, is an address on an e-mail field, matches the pattern and satisfies the custom check, and a too-short value gets the minimum-length message |
| TextField.FormatWords | src/components/quiz/ui/TextField.tsx:75-85 | one formatted word per word, in place |
| TextField.FormatNameWords | src/components/quiz/ui/TextField.tsx:75-85 | when the case mappings bring in no spaces, a formatted name splits into the same number of words, each formatted in place, empty ones included |
| TextField.Field.constructor | src/components/quiz/ui/TextField.tsx:34-37 | the field shows the given value, with no message and not yet left |
| TextField.Field.HandleChange | src/components/quiz/ui/TextField.tsx:88-102 | the value is taken and reported as typed; before the first blur it is reported valid and no message changes, afterwards it is validated and reported by its message |
| TextField.Field.HandleBlur | src/components/quiz/ui/TextField.tsx:105-123 | the field is left; a non-empty text value is name-formatted; the final value is validated and reported, and an error shows exactly when it is invalid |
| TextField.Field.SyncValue | src/components/quiz/ui/TextField.tsx:131-139 | the new value is shown; a non-empty one is validated and reported, but its message stays hidden until the field has been left |
| LeadForm.ValidateFieldMeaning | src/components/quiz/steps/LeadForm.tsx:51-72 | the name passes exactly when the engine's name check passes, the e-mail when its trimmed form is an address, the consent when given, any other field always; an address the engine accepts passes here too |
| LeadForm.TrimOfSpaceFree | src/components/quiz/steps/LeadForm.tsx:60 | trimming a string without whitespace changes nothing |
| LeadForm.LeadingSpaceEmail | src/components/quiz/steps/LeadForm.tsx:59-62 | an address typed after a space passes the form, which trims, and fails the engine, which does not |
| LeadForm.Form.constructor | src/components/quiz/steps/LeadForm.tsx:22-30 | the form holds the given name, e-mail and consent, an empty trap field, no messages and no field left |
| LeadForm.Form.HandleChange | src/components/quiz/steps/LeadForm.tsx:74-87 | the field takes the value and only its own message, if any, is cleared, so it never shows as invalid right after an edit; other messages and the left fields are unchanged |
| LeadForm.Form.HandleBlur | src/components/quiz/steps/LeadForm.tsx:89-100 | the field is left and its message recomputed from the current data; it shows as invalid exactly when that message is not empty |
| LeadForm.Form.SyncProps | src/components/quiz/steps/LeadForm.tsx:42-49 | the name, e-mail and consent are taken from the props, the trap field, messages and left fields are kept |
| CheckboxPill.ToggleRules | src/components/quiz/ui/CheckboxPill.tsx:31-39 | an unselected value is appended, a selected one removed with every copy; the toggle is discarded exactly when a cap is set and the result would exceed it, which never refuses a removal within the cap |
| CheckboxPill.ToggleKeepsCap | src/components/quiz/ui/CheckboxPill.tsx:37-39 | a selection within a positive cap stays within it whatever is toggled |
| CheckboxPill.DisabledMeansDiscarded | src/components/quiz/ui/CheckboxPill.tsx:62-64 | a click on a disabled pill is always discarded, and one on a pill that is not disabled goes through within the cap |
| CheckboxPill.Pills.constructor | src/components/quiz/ui/CheckboxPill.tsx:21-28 | the pills show the given selection under the given limits; by default no selection, a minimum of 0 and no cap, so default pills count as answered |
| CheckboxPill.Pills.HandleChange | src/components/quiz/ui/CheckboxPill.tsx:31-47 | the toggle is applied and reported unless the cap discards it, in which case nothing changes |
| CheckboxPill.Pills.HandleKeyDown | src/components/quiz/ui/CheckboxPill.tsx:50-55 | Enter and Space toggle the pill, any other key does nothing |
| CheckboxPill.Pills.SyncValue | src/components/quiz/ui/CheckboxPill.tsx:58-60 | the selection becomes the new `value` prop |
| MultipleChoice.ChangeRules | src/components/quiz/steps/MultipleChoice.tsx:25-41 | a check is refused exactly when a cap is set and met and otherwise appends the value; an uncheck always goes through and removes every copy of the value, keeping the rest |
| MultipleChoice.ChangeKeepsCap | src/components/quiz/steps/MultipleChoice.tsx:28-33 | a selection within a positive cap stays within it |
| MultipleChoice.DisabledMeansRefused | src/components/quiz/steps/MultipleChoice.tsx:48-67 | checking a disabled option is refused; any option can be checked while the cap is not reached |
| MultipleChoice.Choice.constructor | src/components/quiz/steps/MultipleChoice.tsx:18-23 | the step shows the given selection, by default none, with one selection required by default |
| MultipleChoice.Choice.HandleChange | src/components/quiz/steps/MultipleChoice.tsx:25-41 | the change is applied and reported unless it is refused, in which case nothing changes |
| MultipleChoice.Choice.SyncValue | src/components/quiz/steps/MultipleChoice.tsx:44-46 | the selection becomes the new `value` prop |
| QuizShell.CalculateProgress | src/components/quiz/QuizShellUpdated.tsx:59-71 | the percentage computed on fractions equals the integer formula: the rounded share of the steps plus 5 from step 6 and 10 more from step 16, capped at 100, and 100 on the final step |
| QuizShell.FloorOfQuotient | src/components/quiz/QuizShellUpdated.tsx:70 | the floor of a quotient taken on fractions is the integer quotient |
| QuizShell.RoundedShare | src/components/quiz/QuizShellUpdated.tsx:61-70 | rounding the share plus the bonus is an integer quotient |
| QuizShell.ProgressBounds | src/components/quiz/QuizShellUpdated.tsx:59-71 | from the first step on the percentage lies between 0 and 100, and it is 100 on the final step |
| QuizShell.DivMonotone | src/components/quiz/QuizShellUpdated.tsx:70 | integer quotients by a positive divisor keep order |
| QuizShell.ProgressMonotone | src/components/quiz/QuizShellUpdated.tsx:59-71 | moving forward never lowers the percentage, between steps other than the final one |
| QuizShell.DefaultBarFullFromStep16 | src/components/quiz/QuizShellUpdated.tsx:66-70 | with the default 18 steps the bar is already full from step 16, while step 15 shows 88 |
| QuizShell.StepLabelCases | src/components/quiz/QuizShellUpdated.tsx:74-76 | the label is "Completo" exactly on the final step, and any other step is announced as "Etapa …" |
| QuizShell.AutoAdvanceAreSingleChoice | src/components/quiz/QuizShellUpdated.tsx:94-99 | the auto-advancing steps are the single-choice steps other than 16; every other kind of step shows the navigation except the final one |
| QuizShell.KeyDownRules | src/components/quiz/QuizShellUpdated.tsx:79-86 | no key press fires both callbacks; Enter without Ctrl or Meta does nothing; the forward shortcut fires only when going on is allowed and nothing is loading; Escape goes back exactly when allowed |
| Images.NatToStringInjective | src/lib/images.ts:12 | distinct natural numbers are rendered differently |
| Images.SignChar | src/lib/images.ts:12 | a rendering starts with '-' exactly for a negative number |
| Images.IntToStringInjective | src/lib/images.ts:12 | distinct integers are rendered differently |
| Images.ImageSizesShape | src/lib/images.ts:10-13 | the sizes string is the two fixed breakpoints followed by the width in pixels; the height is ignored and distinct widths give distinct strings |
| Images.Entries | src/lib/images.ts:16-17 | one candidate per width, in order, each the path asking for that width followed by the width descriptor |
| Images.Spaced | src/lib/images.ts:18 | each piece after the first gets a leading space |
| Images.JoinCommaSpace | src/lib/images.ts:18 | joining with ", " is joining with "," after a space in front of every later piece |
| Images.IntToStringNoComma | src/lib/images.ts:17 | a number's rendering holds no comma |
| Images.SrcSetPieces | src/lib/images.ts:15-19 | for a path without commas, splitting the srcset at its commas gives back exactly one candidate per width, in order; no widths give the empty string |
| Images.OptimizeImagePath | src/lib/images.ts:21-30 | without a width, or with width 0, the source comes back unchanged |

## Left out

- Session tokens (`createSessionToken` and `validateSession`, src/lib/auth/magic.ts:167-191): they are base64 and JSON encoding around the user store, outside the sign-in rules modelled here.
- SHA-256 and `randomBytes` in the sign-in code: the hash is a function given to `MagicAuth.AuthStore`, and the token and user id are parameters.
- `storeVariant` and `getUserVariant` (src/lib/abFlags.ts:26-51), cookies, and the consent helpers: these are browser storage I/O. The stored variant read by `getStoredVariant` is a parameter.
- Provider HTTP requests in the e-mail sender (Postmark, SendGrid): the provider's reply is the `Remote` parameter. The log line that masks the address is not modelled.
- Stripe session creation in the checkout endpoint: its result, including a missing secret key, is the `StripeOutcome` parameter. The session's metadata and URLs are not modelled.
- The Stripe webhook, the access-resend endpoint and the Supabase-backed modules: they are database and HTTP round trips.
- The `fetch` calls of the quiz page and the offer page: they become success or failure outcomes. The offer page's timed resends of a failed snapshot (up to two, with backoff), its once-per-view analytics events and the `offer_click` event are not modelled.
- The 405 answers to other HTTP methods (src/pages/api/lead.ts:159-169, src/pages/api/checkout/create.ts:160-162): each is a constant response.
- The 24-hour timer that forgets a processed key (src/lib/storage/lead.ts:102-104): in the model a processed key stays processed.
- Timers, transitions and animations (`QuizShellUpdated` transitions, the pill animation, the loading steps): these are presentation only.
- The tracker's event objects, dispatch, pixels and abandonment tracking (src/lib/quiz/analytics.ts:318-366). The `progress` and `completionPercent` fields (src/lib/quiz/analytics.ts:57, 113) compute the same expression as the engine's `getProgress`, which `QuizEngine.GetProgress` models.
- The `sessionStorage` JSON save and load of the store: the saved state is a ghost copy. A corrupt saved value is treated like an absent one. The getters and `clearStorage` (src/lib/quiz/store.ts:37-47, 326-330) only read or drop that copy.
- `setField` (src/lib/quiz/store.ts:83-86): it is the one-field `QuizStore.Store.SetState`, and it has no row of its own.
- `Math.random` session ids (src/lib/quiz/store.ts:4-10): the id is a parameter of the store's constructor.
- The telemetry database insert and its error logging: `Telemetry.LogEvent` returns the row that would be inserted.
- Render-only components (Presentation, SingleChoice, RadioTile, Notice, CTAButton, ProgressBarTop, ConsentBlock, StickyCTA, BeforeAfterGraph and the like): they are markup with no state worth proving.
- Non-integral and non-finite JSON numbers: JSON numbers are integers in this model, so a fractional `completedAt`, width or step is not represented.
- Rounding to doubles: `Number` of a string gives its exact value here. JavaScript rounds it to the nearest double, so the 30-second comparison of the honeypot can differ at its boundary for times written with more than about 15 significant digits.
- LeadApi.ValidatePayload and Checkout.ValidateRequest, taken alone, report a malformed session id where the UUID test would throw (an object with its own `toString` key, or an array holding one). The handlers answer 500 before they reach the validators in that case, and `Outcome` and `Respond` model that.
- Methods of the built-in prototypes are not JSON values. The one the handlers read, a string body's `link`, appears only as the truthiness that `JsValue.TruthyProp` gives it.
- Images.OptimizeImagePath: only the no-width case is stated. The URL parsing and query building for a width is the `resolve` parameter.
- QuizShell.CalculateProgress: it requires a positive total. With a total of 0 the source divides by zero and rounds a non-finite number.
- TextField.FormatNameWords: it is proved only for case mappings that bring in no space. Unicode case mapping is the `Casing` parameter.
- LeadStorage.MaskEmailKeepsDomain: it is stated for addresses with exactly one `@`. `LeadStorage.MaskEmailWithoutAt` covers an address with none. With several `@`, the text after the second one is dropped, as in the source, but no lemma names that case.
- LeadStorage.MaskEmail and TextField.FormatWord take the first Unicode scalar value. JavaScript indexes the first UTF-16 code unit, so the two differ for a name or address that starts with a character outside the Basic Multilingual Plane.
