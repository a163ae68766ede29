# Opinion hub: a Dafny model

Opinion hub is a survey dApp. Researchers launch surveys of two to four
choices on an on-chain registry (`OpinionResearchPlatform`), restrict them to
an allow-list or leave them open, and close them. Participants submit
encrypted responses, and the researcher decrypts and publishes the
per-choice counts. This project models:

- the registry's rules as its test suite states them (`registry.dfy`);
- the front-end's logic:
  - the survey hook: status, loading, local close and decryption (`research_hook.dfy`);
  - the launch form (`launch_form.dfy`);
  - the access-list editor (`access_modal.dfy`);
  - the survey card (`research_card.dfy`);
  - the analytics dashboard (`analytics.dfy`);
  - the results chart and the insights dialog (`insights_chart.dfy`, `insights_modal.dfy`);
  - the participation dialog (`participate_modal.dfy`);
  - the feedback dialog (`feedback.dfy`);
- the small utilities:
  - `utils.dfy`;
  - the in-memory store (`storage.dfy`);
  - the translation tables (`i18n.dfy`);
  - the deployed-address table (`addresses.dfy`);
- the command-line tasks (`cli_tasks.dfy`).

`base.dfy` holds the JavaScript string operations the rest relies on: `trim`,
ASCII lower-casing, counting and filtering.

Code that changes state step by step is modelled as classes:

- the registry contract;
- the hook's state;
- each dialog's React state;
- the store's `Map`.

Each handler is a method with a `modifies` clause. An `async` handler is split
at its `await` into `Begin…` (up to the remote call; it returns what is sent)
and `Finish…` (from the call's outcome on). Pure rendering decisions and
calculations are functions, and the properties relating them are lemmas. The
clock, the wallet, the RPC results and decryption are parameters.

The registry's Solidity source is not part of this model. Its rules are the
ones the test suite `fhevm-hardhat-template/test/OpinionResearchPlatform.ts`
asserts: the guards and their revert reasons, getters and events. Where the
tests leave a choice open (the order of the guards, an edge they never try, a
reason they never check), the model makes one, and "## Left out" names it. Each
`…Scenario` method replays one group of those tests against the model and
states the results the tests expect.

## Model

| member | source | states |
|---|---|---|
| Base.Trim | opinion-hub-frontend/components/LaunchSurveyForm.tsx:98-99 | `trim()` never lengthens a string, and a non-empty result neither starts nor ends with whitespace |
| Base.TrimIsSlice | opinion-hub-frontend/components/LaunchSurveyForm.tsx:98-99 | `trim()` removes whitespace at the two ends and nothing else: the result is a slice s[i..j] with only whitespace before i and after j |
| Base.BlankIffAllWhitespace | opinion-hub-frontend/components/LaunchSurveyForm.tsx:64-72 | `!s.trim()` holds exactly when every character of s is whitespace |
| Base.EqualsIgnoreCaseEquivalence | opinion-hub-frontend/hooks/useOpinionResearch.tsx:236 | comparing lower-cased addresses is reflexive, symmetric and transitive |
| Base.LowerSpellingMatches | opinion-hub-frontend/components/InsightsModal.tsx:52 | an address and its lower-cased spelling compare equal ignoring case, though they differ as strings when it holds a capital |
| Base.FilterAppend | opinion-hub-frontend/components/LaunchSurveyForm.tsx:94 | `filter` on a concatenation is the concatenation of the filtered parts, so the kept elements stay in their original order |
| Base.FilterSingleton | opinion-hub-frontend/components/LaunchSurveyForm.tsx:94 | a one-element list keeps its element iff the test holds |
| Registry.LaunchRejection | fhevm-hardhat-template/test/OpinionResearchPlatform.ts:62-149 | a launch is admitted iff the caller is a researcher, there are 2-4 choices and closeTime > launchTime; otherwise the first failing guard's reason, in the order researcher, choice count, time range (an order and an equal-times refusal the model chooses) |
| Registry.NewSurvey | fhevm-hardhat-template/test/OpinionResearchPlatform.ts:62-99 | a newly launched survey holds the supplied topic, description, choices, times and open flag, belongs to its caller, is active, has no responses, a zero handle per choice, an empty allow-list and nobody who responded |
| Registry.Platform.constructor | fhevm-hardhat-template/test/OpinionResearchPlatform.ts:29-41 | after deployment the deployer is the owner and the only researcher, and there are no surveys |
| Registry.Platform.SetResearcher | fhevm-hardhat-template/test/OpinionResearchPlatform.ts:43-60 | only the owner may change the researcher set (anyone else gets "Only platform owner can call this function" and no change); the owner's call adds or removes exactly that address |
| Registry.Platform.LaunchSurvey | fhevm-hardhat-template/test/OpinionResearchPlatform.ts:62-190 | a rejected launch reverts with LaunchRejection's reason and changes nothing; an admitted one appends the survey under id surveyCounter, increments the counter and emits SurveyLaunched, after which getSurveyInfo on that id returns the supplied fields, active with 0 responses, nobody has responded and every count is the zero handle |
| Registry.Platform.AccessRejection | fhevm-hardhat-template/test/OpinionResearchPlatform.ts:193-256 | an allow-list edit is admitted iff the survey exists, the caller is its researcher or the owner, and it is restricted; otherwise "Survey does not exist", "Not authorized" for anyone else, or "Cannot restrict open access survey" (only the last is asserted by the tests, for `grantAccess`) |
| Registry.Platform.GrantAccess | fhevm-hardhat-template/test/OpinionResearchPlatform.ts:218-223 | a refused grant reverts and changes nothing; otherwise exactly the given addresses join that survey's allow-list and no other survey changes |
| Registry.Platform.RevokeAccess | fhevm-hardhat-template/test/OpinionResearchPlatform.ts:225-230 | a refused revoke reverts and changes nothing; otherwise exactly the given addresses leave that survey's allow-list and no other survey changes |
| Registry.Platform.CloseRejection | fhevm-hardhat-template/test/OpinionResearchPlatform.ts:258-316 | a close is admitted iff the survey exists, the caller is its researcher or the owner, and it is still active; otherwise "Survey does not exist", "Not authorized to close survey" or "Survey already closed" |
| Registry.Platform.CloseSurvey | fhevm-hardhat-template/test/OpinionResearchPlatform.ts:283-315 | an admitted close clears only that survey's active flag and emits SurveyClosed; a refused one reverts with no change |
| Registry.Platform.GetSurveyInfo | fhevm-hardhat-template/test/OpinionResearchPlatform.ts:176-186 | reverts with "Survey does not exist" exactly for an unknown id; otherwise returns every stored field of that survey |
| Registry.Platform.CanParticipateInSurvey | fhevm-hardhat-template/test/OpinionResearchPlatform.ts:218-230 | a participant may take part iff the survey is open access or they are on its allow-list |
| Registry.Platform.HasResponded | fhevm-hardhat-template/test/OpinionResearchPlatform.ts:343-345 | true iff the address has responded to that survey |
| Registry.Platform.GetEncryptedResponseCount | fhevm-hardhat-template/test/OpinionResearchPlatform.ts:360-382 | an unknown survey gives "Survey does not exist" and an index past the choices "Invalid choice index"; otherwise the handle stored for that choice |
| Registry.DeploymentScenario | fhevm-hardhat-template/test/OpinionResearchPlatform.ts:29-41 | the deployer is a researcher and the counter and total are 0 |
| Registry.ResearcherManagementScenario | fhevm-hardhat-template/test/OpinionResearchPlatform.ts:43-60 | the owner adds then removes a researcher; a non-owner's call reverts and grants nothing |
| Registry.LaunchScenario | fhevm-hardhat-template/test/OpinionResearchPlatform.ts:62-190 | the launch emits SurveyLaunched(0, …), getSurveyInfo returns the launched fields and the total is 1; one choice, a reversed time range and a non-researcher each revert with their reason |
| Registry.AccessControlScenario | fhevm-hardhat-template/test/OpinionResearchPlatform.ts:193-256 | on a restricted survey only granted addresses may take part, a revoke takes the right away, and granting on an open survey reverts while anyone may take part |
| Registry.ClosureScenario | fhevm-hardhat-template/test/OpinionResearchPlatform.ts:258-316 | an outsider cannot close; the researcher or the owner can, which makes the survey inactive; closing again reverts with "Survey already closed" |
| Registry.ResponseStatusScenario | fhevm-hardhat-template/test/OpinionResearchPlatform.ts:318-383 | nobody has responded to a new survey, an unknown id reverts, and an index past the choices reverts |
| ResearchHook.GetSurveyStatus | opinion-hub-frontend/hooks/useOpinionResearch.tsx:340-350 | upcoming iff now < launchTime; active only for an active-flagged survey inside [launchTime, closeTime] |
| ResearchHook.UpcomingTakesPrecedence | opinion-hub-frontend/hooks/useOpinionResearch.tsx:343-345 | before the launch time a survey is upcoming even when closed early |
| ResearchHook.OpenUntilCloseTime | opinion-hub-frontend/hooks/useOpinionResearch.tsx:346-349 | an active survey is still active at its close time and closed one second later |
| ResearchHook.StatusMonotoneInTime | opinion-hub-frontend/hooks/useOpinionResearch.tsx:340-350 | as time passes, a status only moves forward: upcoming, then active, then closed |
| ResearchHook.AdmittedSurveyActiveWindow | opinion-hub-frontend/hooks/useOpinionResearch.tsx:340-350 | for an active survey the registry admitted, "active" holds exactly inside [launchTime, closeTime] |
| ResearchHook.CloseSurveyLocal | opinion-hub-frontend/hooks/useOpinionResearch.tsx:203-207 | the list keeps its length and each entry is itself, with the active flag cleared where the id matches |
| ResearchHook.CloseSurveyLocalEffect | opinion-hub-frontend/hooks/useOpinionResearch.tsx:203-207 | the closed survey is never reported active again, every other survey is untouched, and closing twice equals closing once |
| ResearchHook.CollectedShape | opinion-hub-frontend/hooks/useOpinionResearch.tsx:68-87 | loading ids 0..n-1 yields at most n surveys, each under the id it was fetched with, in increasing id order |
| ResearchHook.CollectedComplete | opinion-hub-frontend/hooks/useOpinionResearch.tsx:68-87 | when no fetch fails, entry i is survey i and none is missing |
| ResearchHook.FindSurvey | opinion-hub-frontend/hooks/useOpinionResearch.tsx:229-233 | finds the first survey with the id, or reports that none has it |
| ResearchHook.CollectCounts | opinion-hub-frontend/hooks/useOpinionResearch.tsx:266-287 | one count per choice, in choice order; the zero handle counts as 0 without decryption |
| ResearchHook.FreshSurveyDecryptsToZeros | opinion-hub-frontend/hooks/useOpinionResearch.tsx:270-276 | a survey no vote reached shows all-zero counts, whatever the decryption does |
| ResearchHook.EffectiveChainId | opinion-hub-frontend/hooks/useOpinionResearch.tsx:48-50 | a missing or zero chain id means 31337 |
| ResearchHook.DeployedChains | opinion-hub-frontend/hooks/useOpinionResearch.tsx:48-50 | the registry is deployed exactly on localhost (also the default) and Sepolia |
| ResearchHook.ParticipationQuery | opinion-hub-frontend/hooks/useOpinionResearch.tsx:310-338 | true exactly with a deployment, a provider and a registry answer of true; false on a revert or a false answer |
| ResearchHook.CanParticipateMatchesRegistry | opinion-hub-frontend/hooks/useOpinionResearch.tsx:324-338 | against a live registry, the front-end's eligibility equals the registry's open-access-or-allowed rule |
| ResearchHook.HasParticipatedMatchesRegistry | opinion-hub-frontend/hooks/useOpinionResearch.tsx:310-322 | against a live registry, `hasParticipated` is true exactly for an address the registry recorded as having responded to an existing survey |
| ResearchHook.OpinionResearch.constructor | opinion-hub-frontend/hooks/useOpinionResearch.tsx:41-46 | no surveys, no results, not loading |
| ResearchHook.OpinionResearch.LoadSurveys | opinion-hub-frontend/hooks/useOpinionResearch.tsx:53-99 | without interaction nothing changes; otherwise the list becomes the surveys fetched for ids 0..total-1, failed fetches skipped, and loading ends |
| ResearchHook.OpinionResearch.CloseSurvey | opinion-hub-frontend/hooks/useOpinionResearch.tsx:197-217 | the list becomes its local close and loading ends |
| ResearchHook.OpinionResearch.DecryptSurveyResults | opinion-hub-frontend/hooks/useOpinionResearch.tsx:219-308 | fails with the not-ready error, "Survey not found", the failed publish's own error (a caller other than the researcher publishes first) or "Unable to build FHEVM decryption signature", each in its own case and before any results change; on success stores the per-choice counts as decrypted results under the survey's id, and changes nothing else |
| LaunchForm.RemoveIndex | opinion-hub-frontend/components/LaunchSurveyForm.tsx:49-53 | drops exactly the entry at the index, keeping the others in order; an index out of range changes nothing |
| LaunchForm.ValidateForm | opinion-hub-frontend/components/LaunchSurveyForm.tsx:61-83 | one error per failing check under its own key, each with its message: blank topic, blank description, fewer than 2 non-blank choices, duration below 1 |
| LaunchForm.FormPassesIff | opinion-hub-frontend/components/LaunchSurveyForm.tsx:61-83 | the form passes iff all four checks pass |
| LaunchForm.BuildPayload | opinion-hub-frontend/components/LaunchSurveyForm.tsx:90-104 | trimmed topic and description, the choices kept by the non-blank filter (in order, by Base.FilterAppend), launch at now and close duration×3600 seconds later |
| LaunchForm.SubmittedChoices | opinion-hub-frontend/components/LaunchSurveyForm.tsx:72-74 | with at most four inputs and two non-blank ones, the submitted choices are two to four, none blank |
| LaunchForm.ValidatedPayloadPassesRegistryGuards | opinion-hub-frontend/components/LaunchSurveyForm.tsx:85-116 | a form that passed validation submits 2-4 non-blank choices and closeTime > launchTime, so the registry's choice-count and time-range guards admit it |
| LaunchForm.LaunchSurveyForm.constructor | opinion-hub-frontend/components/LaunchSurveyForm.tsx:36-41 | empty topic and description, two empty choices, 24 hours, open access, no errors |
| LaunchForm.LaunchSurveyForm.SetInputs | opinion-hub-frontend/components/LaunchSurveyForm.tsx:144-273 | the topic, description, duration and access inputs hold what was entered |
| LaunchForm.LaunchSurveyForm.AddChoice | opinion-hub-frontend/components/LaunchSurveyForm.tsx:43-47 | appends an empty choice only while there are fewer than four; keeps 2-4 choices |
| LaunchForm.LaunchSurveyForm.RemoveChoice | opinion-hub-frontend/components/LaunchSurveyForm.tsx:49-53 | removes the indexed choice only while there are more than two; keeps 2-4 choices |
| LaunchForm.LaunchSurveyForm.UpdateChoice | opinion-hub-frontend/components/LaunchSurveyForm.tsx:55-59 | replaces exactly the indexed choice |
| LaunchForm.LaunchSurveyForm.BeginSubmit | opinion-hub-frontend/components/LaunchSurveyForm.tsx:85-104 | records the validation errors; sends the payload iff there are none |
| LaunchForm.LaunchSurveyForm.FinishSubmit | opinion-hub-frontend/components/LaunchSurveyForm.tsx:106-115 | a successful launch resets every field; a failed one keeps what was typed |
| LaunchForm.SendLaunch | opinion-hub-frontend/hooks/useOpinionResearch.tsx:126-135 | a payload that passes the registry's guards, sent as `launchSurvey` by a researcher, is admitted: SurveyLaunched under the old counter, and the registry gains exactly that survey |
| LaunchForm.SubmitToRegistry | opinion-hub-frontend/components/LaunchSurveyForm.tsx:85-116 | the form records ValidateForm's errors and sends exactly when it validates; what it sends is BuildPayload's payload, which passes the registry's guards, so the registry gains exactly the survey it describes under id surveyCounter; a refused form leaves the registry unchanged |
| AccessModal.LowerCasedAddressValid | opinion-hub-frontend/components/AccessManagementModal.tsx:49-51 | lower-casing a valid address keeps it valid |
| AccessModal.AddToList | opinion-hub-frontend/components/AccessManagementModal.tsx:53-69 | blank input is ignored; a malformed address gives "Invalid Ethereum address format", a listed one "Address already in the list"; otherwise the address is appended |
| AccessModal.AddKeepsWellFormed | opinion-hub-frontend/components/AccessManagementModal.tsx:53-69 | adding keeps a pending list duplicate-free and made of valid addresses |
| AccessModal.RemoveAll | opinion-hub-frontend/components/AccessManagementModal.tsx:71-73 | exactly the entries other than the address remain |
| AccessModal.RemoveAllAppend | opinion-hub-frontend/components/AccessManagementModal.tsx:71-73 | removal from a concatenation is the concatenation of the removals, so the kept entries stay in order |
| AccessModal.RemoveAbsent | opinion-hub-frontend/components/AccessManagementModal.tsx:71-73 | removing an address that is not listed leaves the list unchanged |
| AccessModal.AddThenRemove | opinion-hub-frontend/components/AccessManagementModal.tsx:53-73 | adding an address and removing it again restores the list |
| AccessModal.RemoveKeepsWellFormed | opinion-hub-frontend/components/AccessManagementModal.tsx:71-73 | removal keeps a pending list well formed |
| AccessModal.AccessManagementModal.constructor | opinion-hub-frontend/components/AccessManagementModal.tsx:42-47 | empty input and lists, nothing in flight, no error |
| AccessModal.AccessManagementModal.SetNewAddress | opinion-hub-frontend/components/AccessManagementModal.tsx:42-47 | the input holds what was typed |
| AccessModal.AccessManagementModal.AddAddressToGrant | opinion-hub-frontend/components/AccessManagementModal.tsx:53-69 | the grant list and the error follow AddToList; a successful add clears the input |
| AccessModal.AccessManagementModal.RemoveAddressFromGrant | opinion-hub-frontend/components/AccessManagementModal.tsx:71-73 | the grant list loses that address |
| AccessModal.AccessManagementModal.AddAddressToRevoke | opinion-hub-frontend/components/AccessManagementModal.tsx:75-91 | the revoke list and the error follow AddToList; a successful add clears the input |
| AccessModal.AccessManagementModal.RemoveAddressFromRevoke | opinion-hub-frontend/components/AccessManagementModal.tsx:93-95 | the revoke list loses that address |
| AccessModal.AccessManagementModal.BeginGrantAccess | opinion-hub-frontend/components/AccessManagementModal.tsx:97-102 | an empty list sends nothing; otherwise the list is sent and the granting flag raised |
| AccessModal.AccessManagementModal.FinishGrantAccess | opinion-hub-frontend/components/AccessManagementModal.tsx:103-108 | the flag is lowered; the list is cleared only on success |
| AccessModal.AccessManagementModal.BeginRevokeAccess | opinion-hub-frontend/components/AccessManagementModal.tsx:111-116 | an empty list sends nothing; otherwise the list is sent and the revoking flag raised |
| AccessModal.AccessManagementModal.FinishRevokeAccess | opinion-hub-frontend/components/AccessManagementModal.tsx:117-122 | the flag is lowered; the list is cleared only on success |
| AccessModal.AccessManagementModal.HandleClose | opinion-hub-frontend/components/AccessManagementModal.tsx:125-133 | closing is refused while a transaction is in flight; otherwise every field is reset |
| ResearchCard.ActionArea | opinion-hub-frontend/components/ResearchCard.tsx:205-279 | the action area is left out iff the viewer can neither take part, nor has taken part, nor manages the survey |
| ResearchCard.RenderedButtonsMatchPredicates | opinion-hub-frontend/components/ResearchCard.tsx:67-69 | each rendered button appears exactly when its named predicate holds; Manage Access exactly for a manager of a restricted survey |
| ResearchCard.ConnectWalletOnlyForManagers | opinion-hub-frontend/components/ResearchCard.tsx:220-232 | the disabled Connect Wallet button is only rendered to a manager of an active open survey who cannot take part |
| ResearchCard.UpcomingOffersNoAction | opinion-hub-frontend/components/ResearchCard.tsx:205-279 | an upcoming survey offers no participate, close or connect button; insights only to someone who took part |
| ResearchCard.MessagesExclusive | opinion-hub-frontend/components/ResearchCard.tsx:181-201 | at most one of the two status messages shows, only on an active survey; "not authorized" exactly when neither the button nor the "already participated" note shows |
| ResearchCard.BadgeVariant | opinion-hub-frontend/components/ResearchCard.tsx:41-65 | the badge variant is the status itself or "info" |
| ResearchCard.BadgeShowsStatus | opinion-hub-frontend/components/ResearchCard.tsx:41-65 | every status the hook computes gets its own badge, never "info", and pulses only when active |
| Analytics.StatsPartition | opinion-hub-frontend/components/AnalyticsDashboard.tsx:49-73 | active + closed = open + restricted = total; the user's count is at most the total and 0 without a user |
| Analytics.Average | opinion-hub-frontend/components/AnalyticsDashboard.tsx:54 | 0 without surveys, otherwise a non-negative integer nearest to total/count |
| Analytics.AverageOfUniform | opinion-hub-frontend/components/AnalyticsDashboard.tsx:49-73 | when every survey has c responses the average is c |
| Analytics.ActiveCountCountsStaleSurveys | opinion-hub-frontend/components/AnalyticsDashboard.tsx:51 | the dashboard's active count, read from the flag alone, is at least the number of surveys the cards show as active at any time, and equals it exactly when every flagged survey is inside its launch-close window |
| Analytics.SumAppend | opinion-hub-frontend/components/AnalyticsDashboard.tsx:53 | the response total of two lists is the sum of their totals |
| Analytics.UniformSum | opinion-hub-frontend/components/AnalyticsDashboard.tsx:53 | n surveys of c responses total n×c |
| Analytics.FilteredSumAtMost | opinion-hub-frontend/components/AnalyticsDashboard.tsx:454-470 | any subset's responses are at most the platform's |
| Analytics.UserResponses | opinion-hub-frontend/components/AnalyticsDashboard.tsx:459-462 | the user's responses are at most the platform's |
| Analytics.UserAverage | opinion-hub-frontend/components/AnalyticsDashboard.tsx:464-468 | 0 when the user created no survey; otherwise a non-negative integer nearest to the user's responses divided by their survey count |
| Analytics.CreatedByIgnoresCase | opinion-hub-frontend/components/AnalyticsDashboard.tsx:454-470 | the user's surveys do not depend on how the address is spelt |
| Analytics.Insert | opinion-hub-frontend/components/AnalyticsDashboard.tsx:97-101 | one insertion step of the ranking grows the list by one |
| Analytics.InsertPermutes | opinion-hub-frontend/components/AnalyticsDashboard.tsx:97-101 | insertion adds exactly the inserted survey |
| Analytics.InsertBounded | opinion-hub-frontend/components/AnalyticsDashboard.tsx:97-101 | a bound on all inputs bounds the result |
| Analytics.InsertSorted | opinion-hub-frontend/components/AnalyticsDashboard.tsx:97-101 | insertion keeps the list ordered by responses, largest first |
| Analytics.SortByResponses | opinion-hub-frontend/components/AnalyticsDashboard.tsx:97-100 | the ranking has as many entries as the input |
| Analytics.SortByResponsesCorrect | opinion-hub-frontend/components/AnalyticsDashboard.tsx:97-100 | the ranking is ordered, largest first, and a rearrangement of the input |
| Analytics.TopSurveys | opinion-hub-frontend/components/AnalyticsDashboard.tsx:97-101 | min(5, n) entries |
| Analytics.TopSurveysCorrect | opinion-hub-frontend/components/AnalyticsDashboard.tsx:97-101 | the top list is ordered, drawn from the input, and no survey left out has more responses than the fifth |
| Analytics.AwaitingAnalysisExactly | opinion-hub-frontend/components/AnalyticsDashboard.tsx:516 | a survey awaits analysis iff it is closed and has no results entry |
| Analytics.AwaitingKeepsOrder | opinion-hub-frontend/components/AnalyticsDashboard.tsx:531-532 | the waiting list keeps the surveys' order: for a list in two parts, the first part's waiting surveys come first |
| Analytics.DecryptedLeavesAwaiting | opinion-hub-frontend/components/AnalyticsDashboard.tsx:531-532 | storing a survey's results takes exactly it off the waiting list |
| Analytics.ChartedResultIds | opinion-hub-frontend/components/AnalyticsDashboard.tsx:494-508 | a results entry is charted iff some loaded survey has its id |
| Analytics.ChartFor | opinion-hub-frontend/components/AnalyticsDashboard.tsx:494-508 | no chart when no loaded survey has the id; otherwise the first such survey's topic and choices, the decrypted counts, and the survey's stored response count |
| Analytics.ChartTotalIsStoredCount | opinion-hub-frontend/components/AnalyticsDashboard.tsx:506 | replacing the decrypted counts changes only the bars, never the total they are divided by |
| Analytics.ChartedSharesArePercentages | opinion-hub-frontend/components/AnalyticsDashboard.tsx:494-508 | when the decrypted counts add up to no more than the stored count, every bar's share is between 0 and 100 |
| InsightsChart.ChartData | opinion-hub-frontend/components/InsightsChart.tsx:25-30 | one entry per choice in order, with its count (0 when missing) and its share |
| InsightsChart.MaxValue | opinion-hub-frontend/components/InsightsChart.tsx:32 | a count that occurs and that no count exceeds |
| InsightsChart.IndexOf | opinion-hub-frontend/components/InsightsChart.tsx:33 | the first index holding the value, or -1 iff it does not occur |
| InsightsChart.WinningIndex | opinion-hub-frontend/components/InsightsChart.tsx:32-33 | the first index with the largest count |
| InsightsChart.WinningChoice | opinion-hub-frontend/components/InsightsChart.tsx:33 | the choice at the winning index, or none when the winner lies past the choices |
| InsightsChart.WinnerMarking | opinion-hub-frontend/components/InsightsChart.tsx:195 | every entry with the largest count is marked, ties included, the winner among them; with no responses all are marked |
| InsightsChart.ColorOf | opinion-hub-frontend/components/InsightsChart.tsx:149 | a colour of the palette |
| InsightsChart.ColorsCycle | opinion-hub-frontend/components/InsightsChart.tsx:35-42 | the seventh entry repeats the first and entries less than six apart differ |
| InsightsModal.TotalResponses | opinion-hub-frontend/components/InsightsModal.tsx:54 | the decrypted counts' sum when there are results, the stored total otherwise |
| InsightsModal.ElementAtMostSum | opinion-hub-frontend/components/InsightsModal.tsx:54 | each count is at most the total |
| InsightsModal.DecryptedSharesArePercentages | opinion-hub-frontend/components/InsightsModal.tsx:54 | with decrypted results every share shown is between 0 and 100 |
| InsightsModal.MostPopularIndex | opinion-hub-frontend/components/InsightsModal.tsx:259-261 | the first index with the largest count |
| InsightsModal.MostPopularHasLargestShare | opinion-hub-frontend/components/InsightsModal.tsx:259-261 | the most popular choice has the largest share |
| InsightsModal.DurationHours | opinion-hub-frontend/components/InsightsModal.tsx:294 | the nearest integer to the duration in hours |
| InsightsModal.DurationMatchesForm | opinion-hub-frontend/components/InsightsModal.tsx:294 | a survey launched from the form shows the hours typed into it |
| InsightsModal.OffersAreExclusive | opinion-hub-frontend/components/InsightsModal.tsx:322-351 | decrypting and publishing are never offered together, neither is offered to a non-researcher, and the researcher test ignores case |
| InsightsModal.Export | opinion-hub-frontend/components/InsightsModal.tsx:69-94 | nothing iff there are no decrypted results; otherwise the survey's topic, description, choices, launch and close times, the counts, their sum and the given time stamp |
| InsightsModal.PublishState.BeginPublish | opinion-hub-frontend/components/InsightsModal.tsx:56-67 | without a callback nothing happens; otherwise the survey id is sent and the flag raised |
| InsightsModal.PublishState.FinishPublish | opinion-hub-frontend/components/InsightsModal.tsx:56-67 | the flag is cleared whatever the outcome |
| ParticipateModal.ErrorMessage | opinion-hub-frontend/components/ParticipateModal.tsx:50-52 | an Error's own message, anything else "Failed to submit response" |
| ParticipateModal.SilentFailureNeedsEmptyMessage | opinion-hub-frontend/components/ParticipateModal.tsx:50-52 | the error banner stays empty only for an Error with an empty message |
| ParticipateModal.Dialog.constructor | opinion-hub-frontend/components/ParticipateModal.tsx:36-38 | nothing selected, nothing in flight, no error |
| ParticipateModal.Dialog.SelectChoice | opinion-hub-frontend/components/ParticipateModal.tsx:124-130 | a click selects the choice, except while a submission is in flight |
| ParticipateModal.Dialog.BeginSubmit | opinion-hub-frontend/components/ParticipateModal.tsx:40-45 | nothing without a selection; otherwise the survey id and choice are sent, the flag raised and the error cleared |
| ParticipateModal.Dialog.FinishSubmit | opinion-hub-frontend/components/ParticipateModal.tsx:46-56 | success closes and clears the selection; failure keeps it and shows the error; the flag is lowered either way |
| ParticipateModal.Dialog.HandleClose | opinion-hub-frontend/components/ParticipateModal.tsx:58-64 | refused while submitting; otherwise clears selection and error |
| ParticipateModal.SubmitOnce | opinion-hub-frontend/components/ParticipateModal.tsx:40-56 | a submitted choice is sent; success leaves the submit button disabled, failure leaves it enabled on the same choice |
| Feedback.FormValidIff | opinion-hub-frontend/components/FeedbackSystem.tsx:79 | the form is valid iff the message is not blank and a rating was chosen |
| Feedback.FilledStarsShowRating | opinion-hub-frontend/components/FeedbackSystem.tsx:172-186 | exactly the first `rating` stars are filled, none without a rating |
| Feedback.RatingLabel | opinion-hub-frontend/components/FeedbackSystem.tsx:198-201 | "Excellent!", "Good!", "Okay", "Could be better" and "Needs improvement" for 5 down to 1; the word ends in "!" iff the rating is 4 or 5 |
| Feedback.RatingLabelInjective | opinion-hub-frontend/components/FeedbackSystem.tsx:198-201 | different ratings get different words |
| Feedback.FeedbackForm.constructor | opinion-hub-frontend/components/FeedbackSystem.tsx:34-39 | type "general", no rating, empty texts, not submitting or submitted |
| Feedback.FeedbackForm.SetInputs | opinion-hub-frontend/components/FeedbackSystem.tsx:154-226 | the type, message and e-mail inputs hold what was chosen or typed; the rating is left alone |
| Feedback.FeedbackForm.SetRating | opinion-hub-frontend/components/FeedbackSystem.tsx:178 | a click on a star makes that star the rating |
| Feedback.FeedbackForm.BeginSubmit | opinion-hub-frontend/components/FeedbackSystem.tsx:48-50 | the submitting flag goes up, with no validity check of its own |
| Feedback.FeedbackForm.FinishSubmit | opinion-hub-frontend/components/FeedbackSystem.tsx:55-66 | the entry is logged as typed and the dialog shows its thank-you view |
| Feedback.FeedbackForm.TimedReset | opinion-hub-frontend/components/FeedbackSystem.tsx:69-76 | the dialog closes with every input back to its initial value, so submitting is disabled |
| Storage.InMemoryStorage.constructor | opinion-hub-frontend/hooks/useInMemoryStorage.tsx:13 | an empty store |
| Storage.InMemoryStorage.Get | opinion-hub-frontend/hooks/useInMemoryStorage.tsx:16-18 | the stored value, or nothing iff the key is absent |
| Storage.InMemoryStorage.Set | opinion-hub-frontend/hooks/useInMemoryStorage.tsx:20-22 | the store gains or overwrites exactly that entry |
| Storage.InMemoryStorage.Remove | opinion-hub-frontend/hooks/useInMemoryStorage.tsx:24-30 | the store loses exactly that key |
| Storage.InMemoryStorage.Clear | opinion-hub-frontend/hooks/useInMemoryStorage.tsx:32-34 | the store is empty |
| Storage.StoreLaws | opinion-hub-frontend/hooks/useInMemoryStorage.tsx:16-34 | read after write returns the value, other keys are unaffected, removal makes a key absent and removing a missing key changes nothing |
| Storage.RoundTrip | opinion-hub-frontend/hooks/useInMemoryStorage.tsx:16-30 | set then get returns the value; remove then get returns nothing |
| I18n.Lookup | opinion-hub-frontend/app/providers.tsx:172 | a key's entry is found iff the table writes it, and it is the key's last value |
| I18n.Translate | opinion-hub-frontend/app/providers.tsx:171-173 | the current table's non-empty entry, or the key itself when the table lacks it |
| I18n.TablesAgree | opinion-hub-frontend/app/providers.tsx:16-165 | the English and Chinese tables list the same keys in the same order, and neither has an empty entry |
| I18n.SwitchingKeepsTranslations | opinion-hub-frontend/app/providers.tsx:16-173 | a key translated in one language is translated in the other; only a key missing from both falls back to itself |
| I18n.LanguageProvider.constructor | opinion-hub-frontend/app/providers.tsx:169 | the language starts as English |
| I18n.LanguageProvider.T | opinion-hub-frontend/app/providers.tsx:171-173 | the current language's entry when the key is defined, the key itself otherwise |
| I18n.LanguageProvider.SetLanguage | opinion-hub-frontend/app/providers.tsx:169 | the language becomes the one chosen |
| Addresses.GetContractAddress | opinion-hub-frontend/abi/OpinionResearchPlatformAddresses.ts:9-18 | 31337 gives the localhost address, 11155111 the Sepolia address, every other chain nothing |
| Addresses.DeployedAddressesWellFormed | opinion-hub-frontend/abi/OpinionResearchPlatformAddresses.ts:4-7 | both addresses are "0x" and 40 hex digits, and they differ |
| Utils.RoundedQuotient | opinion-hub-frontend/lib/utils.ts:44 | the integer nearest to a/b, halves rounded up as Math.round does |
| Utils.RoundedQuotientUnique | opinion-hub-frontend/lib/utils.ts:44 | that integer is the only one within half a unit |
| Utils.CalculatePercentage | opinion-hub-frontend/lib/utils.ts:42-45 | 0 for a zero total, otherwise the nearest integer to 100·value/total |
| Utils.PercentageBounds | opinion-hub-frontend/lib/utils.ts:42-45 | a part of the total gets 0..100, the whole 100 |
| Utils.PercentageMonotone | opinion-hub-frontend/lib/utils.ts:42-45 | a larger value never gets a smaller percentage |
| Utils.JsSliceFromEnd | opinion-hub-frontend/lib/utils.ts:26 | slice(-k) is the last k characters, and the whole string for k = 0 |
| Utils.TruncateAddressAsWritten | opinion-hub-frontend/lib/utils.ts:22-27 | short addresses unchanged; longer ones as the first startChars, "..." and slice(-endChars) |
| Utils.TruncateZeroEndKeepsWholeAddress | opinion-hub-frontend/lib/utils.ts:26 | with endChars = 0 the whole address follows the ellipsis |
| Utils.TruncateAddress | opinion-hub-frontend/lib/utils.ts:22-27 | short addresses unchanged; longer ones as the first startChars, "..." and the last endChars, which is startChars+endChars+3 characters; equal to the code for endChars > 0 |
| Utils.StatusColors | opinion-hub-frontend/lib/utils.ts:29-40 | the three statuses get three different colours; any other status looks closed |
| Utils.JsRem | opinion-hub-frontend/lib/utils.ts:56 | JavaScript's remainder takes the dividend's sign |
| Utils.GenerateGradient | opinion-hub-frontend/lib/utils.ts:47-57 | a gradient of the table, or nothing for an index outside it |
| Utils.GradientCycles | opinion-hub-frontend/lib/utils.ts:56 | natural indices cycle through the six gradients |
| Utils.GradientNegative | opinion-hub-frontend/lib/utils.ts:56 | a negative index yields a gradient only when it is a multiple of six, and then the first |
| Utils.FormatTimeRemaining | opinion-hub-frontend/lib/utils.ts:13-17 | "Expired" iff the end is not after now |
| CliTasks.Split | fhevm-hardhat-template/tasks/OpinionResearchPlatform.ts:23 | one piece more than there are commas, none holding a comma |
| CliTasks.JoinSplit | fhevm-hardhat-template/tasks/OpinionResearchPlatform.ts:23 | joining the pieces with commas gives back the argument |
| CliTasks.SplitJoin | fhevm-hardhat-template/tasks/OpinionResearchPlatform.ts:23 | comma-free pieces joined and split again come back unchanged |
| CliTasks.ParseChoices | fhevm-hardhat-template/tasks/OpinionResearchPlatform.ts:23 | one choice per piece, trimmed, in order, empty pieces kept |
| CliTasks.OpenAccessOnlyForExactTrue | fhevm-hardhat-template/tasks/OpinionResearchPlatform.ts:26 | only "true" means open access; "True", " true" and "1" do not |
| CliTasks.ParseTrimmed | fhevm-hardhat-template/tasks/OpinionResearchPlatform.ts:25 | after the blanks: NaN exactly when no digit follows the sign (and "0x"), never negative without a minus sign |
| CliTasks.ParseInt | fhevm-hardhat-template/tasks/OpinionResearchPlatform.ts:25 | NaN exactly when no digit follows the blanks and sign |
| CliTasks.ParseIntDecimal | fhevm-hardhat-template/tasks/OpinionResearchPlatform.ts:25 | a duration written in decimal parses back to itself |
| CliTasks.ParseIntIgnoresSuffix | fhevm-hardhat-template/tasks/OpinionResearchPlatform.ts:25 | a blank, a decimal number and any suffix not starting with a digit or "x" parse as the number (" 42s" is 42) |
| CliTasks.ParseIntNegative | fhevm-hardhat-template/tasks/OpinionResearchPlatform.ts:25 | a minus sign before a decimal number parses as its negation ("-60" is -60) |
| CliTasks.ParseIntHex | fhevm-hardhat-template/tasks/OpinionResearchPlatform.ts:25 | "0x10" parses as 16 |
| CliTasks.ParseIntWord | fhevm-hardhat-template/tasks/OpinionResearchPlatform.ts:25 | "one hour" is NaN |
| CliTasks.LaunchTime | fhevm-hardhat-template/tasks/OpinionResearchPlatform.ts:24 | the clock's milliseconds rounded down to seconds |
| CliTasks.LaunchArguments | fhevm-hardhat-template/tasks/OpinionResearchPlatform.ts:23-26 | nothing iff the duration is NaN; otherwise the parsed choices, launch now, close duration seconds later, open access iff the flag is "true" |
| CliTasks.LaunchAdmittedIff | fhevm-hardhat-template/tasks/OpinionResearchPlatform.ts:18-36 | a researcher's command-line launch is admitted iff the list has 1-3 commas and the duration is positive |
| CliTasks.LineFor | fhevm-hardhat-template/tasks/OpinionResearchPlatform.ts:94-99 | each printed line names its own choice |
| CliTasks.EncryptedCounts | fhevm-hardhat-template/tasks/OpinionResearchPlatform.ts:80-101 | an unknown survey ends the task; otherwise one line per choice in order, an error line exactly where that call failed, and the stored handle elsewhere |
| CliTasks.CloseSurveyTask | fhevm-hardhat-template/tasks/OpinionResearchPlatform.ts:103-116 | the first account's closeSurvey succeeds iff the registry admits it, emitting SurveyClosed; then only that survey's active flag is cleared, and a revert changes nothing |

## Left out

- Homomorphic encryption is not modelled: encrypting a response, `userDecrypt` and the decryption signature's loading and signing. Decrypted counts and the signature's presence are inputs.
- Response submission (`submitResponse` in the hook and the contract) needs encrypted input. Only the registry's `hasResponded` view of it is modelled.
- `publishInsights` is modelled only as the call the dialog makes. What it does on-chain is not asserted by the tests.
- The encrypted tally arithmetic inside the contract is not modelled: no test asserts it.
- Wallet and RPC plumbing is not modelled: `useMetaMask`, providers, signers and transaction receipts. Their results are parameters.
- Timers and the simulated delays in `closeSurvey` and the feedback dialog are not modelled. Each delayed step is its own method.
- Status and toast messages, console logging and all styling are not modelled, except the colour and gradient tables.
- The file download in the insights export is not modelled: the file name, the Blob and the link click. Only the exported record is.
- The chart cells' `hsl` fill strings are not modelled.
- The relative-time branch of `formatTimeRemaining` is not modelled. It calls a date library.
- Utils.FormatTimeRemaining: only the "Expired" branch is modelled.
- JavaScript `Map` iteration order is not modelled: the hook's results map is a Dafny `map`.
- Analytics.SortByResponses: stability of the sort is not stated. The ranking is proved ordered and a permutation.
- LaunchForm.LaunchSurveyForm.UpdateChoice: requires an existing index. The rendering passes only those; the source would grow the array for any other index.
- The `duration` input's fractional values are not modelled: the form holds an integer.
- CliTasks.ParseInt: the digit value is exact. JavaScript would round a number beyond 2^53 to a float.
- CliTasks.LaunchArguments: a negative close time would be refused when the call is encoded. The model passes it on.
- ResearchHook.OpinionResearch.DecryptSurveyResults: an RPC failure inside the per-choice loop is not modelled. Handles and decryption are total functions.
- Registry.Platform.HasResponded and Registry.Platform.CanParticipateInSurvey revert on an unknown survey id, as `getSurveyInfo` does. The tests do not assert this.
- Registry.Platform.CloseRejection: the tests do not assert the order of the close guards. The model checks existence, then authorisation, then whether the survey is already closed.
- The address lookup and `task:get-survey-info` only print. `task:submit-response` is a stub that prints what it would send.
- `task:publish-insights` sends `publishInsights`, which the tests do not assert; it is not modelled.
- Registry.LaunchRejection: the tests assert each reason on its own, not the order of the guards; the model checks researcher, then choice count, then time range. The tests only try a close time before the launch time; the model also refuses equal times, so CliTasks.LaunchAdmittedIff needs a positive duration.
- Registry.Platform.AccessRejection: the tests assert only the open-survey refusal, and only for `grantAccess`. Refusing anyone but the survey's researcher or the owner, with "Not authorized", and refusing `revokeAccess` on an open survey are the model's choices.
- Utils.CalculatePercentage: computed on integers. The source rounds the float (value / total) * 100, which can fall just below a tie: (29, 200) gives 14.499999999999998 and so 14, where the model gives 15.
- Storage.InMemoryStorage.Get: the source reads the state of the last render; the model assumes a re-render between a write and the next read.
- I18n.Translate: a key naming an inherited JavaScript object member, such as "toString", would find that member in the source; the model treats it as missing and returns the key.

## Findings

| source | as written | input that shows it | evidently intended | confidence | as-written member | corrected member |
|---|---|---|---|---|---|---|
| opinion-hub-frontend/lib/utils.ts:26 | `address.slice(-endChars)` with `endChars` = 0 is `slice(0)`, the whole address | `truncateAddress("0x1234567890", 6, 0)` returns "0x1234...0x1234567890" | nothing after the ellipsis, for a result of startChars + endChars + 3 characters | not executed | Utils.TruncateZeroEndKeepsWholeAddress | Utils.TruncateAddress |
