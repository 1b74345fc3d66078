# Fraud operations dashboard — verified model

The dashboard is a single-page application for a fraud-operations team. It has
pages for:

- the actioned transactions;
- the performance of fraud rules;
- two rule builders, a form-based one and a visual one;
- a rule simulation sandbox;
- the deployment history of rules;
- a case inbox with a case detail page;
- an entity-links investigation view.

There are also two navigation sidebars. Everything runs on fixture data. This
model covers the logic inside those pages:

- the condition lists the builders edit;
- the scope multi-selects with their "apply to all" boxes;
- the clamped pagination of the entity-links tables;
- the block-ratio risk classifier and the consistency of the entity fixture;
- the final-decision resolver of the simulation;
- the conjunctive filters and their distinct-value dropdowns;
- the case status actions with their button guards;
- the grouping of deployments by rule and the pipeline action each record offers;
- the colour bands;
- active-link matching and the section toggles of the sidebars.

There is one module per page or component, plus these shared modules:

- `Common`: sequence filters, `Array.from(new Set(..))` as `Distinct`, set
  toggling, `String.prototype` helpers such as `replace`, `join`, `includes`,
  `toLowerCase`, `trim` and `parseInt`.
- `RuleConditions`: the condition list both builders edit, defined once.
- `CaseData`: the case record types.

Pure computations are functions with named results, and lemmas relate them.
A handler that replaces component state is a method of a class whose fields
are that state. The method states the new state through the functions, and the
properties are proved about those functions.

Values that come from outside are parameters:

- The clock (`Date.now()` ids) becomes a `freshId` argument, and the unique-id
  lemmas require that id to be unused.
- The route id is a parameter.
- The case list is a parameter.
- The rule-library lookup that names an edited rule is passed in as
  `existingName`.

## Model

| member | source | states |
|---|---|---|
| RuleConditions.AddCondition | src/pages/VisualRuleBuilder.tsx:551-559 | exactly one condition is appended, at the end (field `transaction_amount`, operator `>`, value `1000`, no time window, the fresh id); the earlier conditions are unchanged |
| RuleConditions.RemoveCondition | src/pages/VisualRuleBuilder.tsx:561-566 | the result holds exactly the conditions whose id differs, each as many times as before, as an in-order subsequence; an absent id leaves the list unchanged |
| RuleConditions.ApplyUpdate | src/pages/VisualRuleBuilder.tsx:570 | the spread `{ ...c, ...updates }`: each field present in the update replaces the old one, absent fields and the id are kept |
| RuleConditions.UpdateCondition | src/pages/VisualRuleBuilder.tsx:568-573 | same length and order; exactly the conditions with the id are updated, all others are unchanged |
| RuleConditions.FindIndex | src/pages/VisualRuleBuilder.tsx:580 | `findIndex`: none iff no condition has the id, otherwise the first index carrying it |
| RuleConditions.DuplicateCondition | src/pages/VisualRuleBuilder.tsx:575-589 | with the id present, the copy with the fresh id is inserted directly after the first condition carrying it and everything else keeps its place; with the id absent, no change |
| RuleConditions.RemoveAfterAdd | src/pages/VisualRuleBuilder.tsx:551-566 | removing the condition just added under an unused id gives the original list back |
| RuleConditions.AbsentIdKeepsAll | src/pages/VisualRuleBuilder.tsx:563 | the filter callback keeps every condition when none has the id |
| RuleConditions.RemoveInserted | src/pages/VisualRuleBuilder.tsx:563 | filtering out the one condition with an id removes just it from around the others |
| RuleConditions.AbsentFromSlice | src/pages/VisualRuleBuilder.tsx:582-584 | slices of a list without an id do not carry it either |
| RuleConditions.RemoveAfterDuplicate | src/pages/VisualRuleBuilder.tsx:561-589 | removing a copy just made under an unused id gives the original list back |
| RuleConditions.UpdateKeepsIds | src/pages/VisualRuleBuilder.tsx:568-573 | an update never adds or removes an id from the list |
| RuleConditions.UpdateIdempotent | src/pages/VisualRuleBuilder.tsx:568-573 | applying the same update twice equals applying it once |
| RuleConditions.UpdateWithoutEffect | src/pages/VisualRuleBuilder.tsx:568-573 | an update with no keys, or aimed at an absent id, changes nothing |
| RuleConditions.DuplicateCopiesContent | src/pages/VisualRuleBuilder.tsx:577-579 | the copy has the original's field, operator, value and time window, and differs only in its id |
| RuleConditions.AddKeepsUniqueIds | src/pages/VisualRuleBuilder.tsx:551-559 | with an unused fresh id, distinct ids stay distinct after add |
| RuleConditions.ConsKeepsUniqueIds | src/pages/VisualRuleBuilder.tsx:563 | a condition whose id no later one carries keeps the ids distinct when put in front |
| RuleConditions.RemoveKeepsUniqueIds | src/pages/VisualRuleBuilder.tsx:561-566 | remove keeps ids distinct |
| RuleConditions.UpdateKeepsUniqueIds | src/pages/VisualRuleBuilder.tsx:568-573 | update keeps ids distinct |
| RuleConditions.DuplicateKeepsUniqueIds | src/pages/VisualRuleBuilder.tsx:575-589 | with an unused fresh id, duplicate keeps ids distinct |
| VisualRuleBuilder.NeedsTimeWindowFields | src/pages/VisualRuleBuilder.tsx:130-136 | the time-window presets show exactly for the five velocity fields |
| VisualRuleBuilder.TimeWindowRowOfDefaults | src/pages/VisualRuleBuilder.tsx:530-538 | the page's initial condition shows the time-window row; a condition added by the button does not |
| VisualRuleBuilder.TimeWindowRowAfterUpdate | src/pages/VisualRuleBuilder.tsx:130-136 | after an update a row shows the time window exactly when its (possibly updated) field is a velocity field |
| VisualRuleBuilder.ConditionTexts | src/pages/VisualRuleBuilder.tsx:594-598 | one text per condition, in order |
| VisualRuleBuilder.NaturalLanguage | src/pages/VisualRuleBuilder.tsx:591-602 | the placeholder for no conditions; otherwise "When …, then … severity." with the texts joined by " OP " (a single condition gets no separator, which the model shows makes no difference) |
| VisualRuleBuilder.NaturalLanguageEmptyIff | src/pages/VisualRuleBuilder.tsx:592 | "No conditions defined yet." appears iff the list is empty |
| VisualRuleBuilder.ConditionTextParts | src/pages/VisualRuleBuilder.tsx:595-597 | the field is shown with every underscore replaced by a space, other characters unchanged; " within w" ends the text iff a non-empty window is set |
| VisualRuleBuilder.RunSimulation | src/pages/VisualRuleBuilder.tsx:308-322 | triggered iff the parsed transaction count exceeds 5; triggered gives BLOCK, DECLINE and two matched conditions, otherwise ALLOW, APPROVE and none |
| VisualRuleBuilder.SimulationReadsOnlyCount | src/pages/VisualRuleBuilder.tsx:310 | two test inputs with the same count give the same result: no other input is read |
| VisualRuleBuilder.DefaultTestDataTriggers | src/pages/VisualRuleBuilder.tsx:291-298 | the prefilled inputs (count "8") are blocked |
| VisualRuleBuilder.SimulationModal.constructor | src/pages/VisualRuleBuilder.tsx:291-306 | the modal opens with the default inputs and no result |
| VisualRuleBuilder.SimulationModal.SetTestData | src/pages/VisualRuleBuilder.tsx:401-403 | the edited inputs replace the old ones; the last result is kept |
| VisualRuleBuilder.SimulationModal.Run | src/pages/VisualRuleBuilder.tsx:308-322 | the stored result is the simulation of the current inputs |
| VisualRuleBuilder.RuleEditor.constructor | src/pages/VisualRuleBuilder.tsx:519-545 | status Draft, one initial condition, AND, BLOCK, High; the existing rule's name when one is given and non-empty |
| VisualRuleBuilder.RuleEditor.AddCondition | src/pages/VisualRuleBuilder.tsx:551-559 | conditions become `AddCondition` of the old list; ids stay distinct |
| VisualRuleBuilder.RuleEditor.RemoveCondition | src/pages/VisualRuleBuilder.tsx:561-566 | conditions become `RemoveCondition` of the old list; ids stay distinct |
| VisualRuleBuilder.RuleEditor.UpdateCondition | src/pages/VisualRuleBuilder.tsx:568-573 | conditions become `UpdateCondition` of the old list; ids stay distinct |
| VisualRuleBuilder.RuleEditor.DuplicateCondition | src/pages/VisualRuleBuilder.tsx:575-589 | conditions become `DuplicateCondition` of the old list; ids stay distinct |
| VisualRuleBuilder.RuleEditor.SetLogicOperator | src/pages/VisualRuleBuilder.tsx:540 | only the operator changes |
| VisualRuleBuilder.RuleEditor.SetActionType | src/pages/VisualRuleBuilder.tsx:541 | only the action type changes |
| VisualRuleBuilder.RuleEditor.SetSeverity | src/pages/VisualRuleBuilder.tsx:542 | only the severity changes |
| VisualRuleBuilder.RuleEditor.SaveToSandbox | src/pages/VisualRuleBuilder.tsx:612-615 | status becomes Sandbox; it is the only method whose frame includes `status` |
| VisualRuleBuilder.RuleEditor.Preview | src/pages/VisualRuleBuilder.tsx:591-592 | the preview is the placeholder iff there are no conditions |
| RuleBuilder.Toggle | src/pages/RuleBuilder.tsx:82-107 | the value flips membership and no other value does; removing keeps the flag and the order of the rest; adding appends at the end and clears the flag |
| RuleBuilder.ApplyToAll | src/pages/RuleBuilder.tsx:109-128 | the flag becomes the box; ticking it empties the selection, unticking keeps it |
| RuleBuilder.ToggleKeepsValid | src/pages/RuleBuilder.tsx:82-107 | selections stay duplicate-free, made of offered values, and empty while the flag is set |
| RuleBuilder.ApplyToAllKeepsValid | src/pages/RuleBuilder.tsx:109-128 | the same invariant survives the checkbox |
| RuleBuilder.ToggleTwice | src/pages/RuleBuilder.tsx:82-89 | toggling a value twice restores the selection list |
| RuleBuilder.ScopeJson | src/pages/RuleBuilder.tsx:138-142 | a scope entry is "ALL" iff the flag is set, otherwise exactly the selected list |
| RuleBuilder.ScopeWordingFaithful | src/pages/RuleBuilder.tsx:147-182 | for any texts that no offered value can begin, the all-text shows iff the export says "ALL" and the none-text shows iff the export is the empty list |
| RuleBuilder.OptionsDistinguishable | src/pages/RuleBuilder.tsx:391 | none of the offered networks, channels or types begins one of the fixed wordings |
| RuleBuilder.FormatScopeDisplay | src/pages/RuleBuilder.tsx:174-182 | "Applies to all values" when the box is ticked, "None selected" for an empty choice, otherwise the chosen values joined with ", " |
| RuleBuilder.ScopeDisplayToggleAdds | src/pages/RuleBuilder.tsx:174-182 | picking one more value appends ", " and that value to the card's list |
| RuleBuilder.SummaryCardFaithful | src/pages/RuleBuilder.tsx:174-182 | "Applies to all values" iff the export is "ALL", "None selected" iff it is the empty list |
| RuleBuilder.SentenceScopeFaithful | src/pages/RuleBuilder.tsx:148-164 | the summary's "all …" and "no …" words agree with the export in the same way |
| RuleBuilder.SummaryConditionTexts | src/pages/RuleBuilder.tsx:166-169 | one text per condition, in order |
| RuleBuilder.ConditionClauseAppend | src/pages/RuleBuilder.tsx:166-169 | adding a condition appends " OP " and its text to the condition part of the sentence, leaving the earlier part unchanged |
| RuleBuilder.ConditionClauseOneCondition | src/pages/RuleBuilder.tsx:166-169 | with at most one condition the operator never shows; a single condition's part is its own text |
| RuleBuilder.SummaryOneConditionIgnoresOperator | src/pages/RuleBuilder.tsx:146-172 | the whole sentence of a rule with at most one condition is the same under AND and OR |
| RuleBuilder.InitialSummary | src/pages/RuleBuilder.tsx:147-172 | the sentence of a fresh form, spelled out |
| RuleBuilder.RuleBuilderForm.constructor | src/pages/RuleBuilder.tsx:25-42 | the initial condition, AND, BLOCK, all three scopes "apply to all"; the existing name or "" |
| RuleBuilder.RuleBuilderForm.SetRuleName | src/pages/RuleBuilder.tsx:320 | the name becomes the typed text; nothing else changes |
| RuleBuilder.RuleBuilderForm.SetLogicalOperator | src/pages/RuleBuilder.tsx:646 | the operator becomes the selected one; nothing else changes |
| RuleBuilder.RuleBuilderForm.SetActionType | src/pages/RuleBuilder.tsx:352 | the final action becomes the selected one; nothing else changes |
| RuleBuilder.RuleBuilderForm.AddCondition | src/pages/RuleBuilder.tsx:47-55 | conditions become `AddCondition` of the old list; the scope invariant holds |
| RuleBuilder.RuleBuilderForm.RemoveCondition | src/pages/RuleBuilder.tsx:57-59 | conditions become `RemoveCondition` of the old list |
| RuleBuilder.RuleBuilderForm.UpdateCondition | src/pages/RuleBuilder.tsx:61-63 | conditions become `UpdateCondition` of the old list |
| RuleBuilder.RuleBuilderForm.ToggleValue | src/pages/RuleBuilder.tsx:82-107 | the dimension's scope becomes `Toggle` of the old one; the other two dimensions are unchanged; the invariant holds |
| RuleBuilder.RuleBuilderForm.SetApplyToAll | src/pages/RuleBuilder.tsx:109-128 | the dimension's scope becomes `ApplyToAll` of the old one; the other two dimensions are unchanged |
| EntityLinks.PageIsContiguousSlice | src/pages/EntityLinks.tsx:69-73 | a page is the contiguous slice `ts[10p .. min(10p+10, n)]`, at most ten items, empty when `10p >= n` |
| EntityLinks.TotalPages | src/pages/EntityLinks.tsx:75 | `ceil(n/10)`: the fewest pages that hold `n` items |
| EntityLinks.PagesArePrefix | src/pages/EntityLinks.tsx:69-75 | pages `0..k-1` read in turn are the list's first `min(10k, n)` items |
| EntityLinks.PagesReassemble | src/pages/EntityLinks.tsx:69-75 | all pages read in turn give back the whole list |
| EntityLinks.ChangedPageInRange | src/pages/EntityLinks.tsx:77-84 | from a page in range the result stays in `[0, total-1]`; an enabled Prev moves down by one, an enabled Next up by one, a disabled one stays |
| EntityLinks.ClicksStayInRange | src/pages/EntityLinks.tsx:26-31 | any run of clicks from an in-range page stays in range |
| EntityLinks.NextDisabledIffNoNextPage | src/pages/EntityLinks.tsx:182 | Next is disabled iff the following page is empty |
| EntityLinks.ShownRangeMatchesPage | src/pages/EntityLinks.tsx:170 | on a non-empty page `a..b` names the page's first and last items and `b-a+1` is its length |
| EntityLinks.EntityLinksView.constructor | src/pages/EntityLinks.tsx:23-31 | every section collapsed and on page 0 |
| EntityLinks.EntityLinksView.ToggleSection | src/pages/EntityLinks.tsx:33-43 | exactly the given section flips |
| EntityLinks.EntityLinksView.ChangePage | src/pages/EntityLinks.tsx:77-84 | only the given section's page changes, to the clamped value; in range stays in range |
| EntityInvestigation.RiskLevelByRatio | src/data/entityInvestigationData.ts:54-59 | for a positive total: High iff ratio > 0.5, Medium iff 0.2 < ratio <= 0.5, Low otherwise; for a zero total, as the infinite or undefined ratio compares |
| EntityInvestigation.RatioAbove | src/data/entityInvestigationData.ts:55-57 | the ratio exceeds `1/k` iff `k * blocks > total` |
| EntityInvestigation.RiskMonotone | src/data/entityInvestigationData.ts:54-59 | with the total fixed, more blocks never lower the level |
| EntityInvestigation.MockBindsEntities | src/data/entityInvestigationData.ts:62-80 | each link is about the base transaction's own device, IP, merchant and card |
| EntityInvestigation.MockLinksConsistent | src/data/entityInvestigationData.ts:78-796 | in every link the counts sum to the total, the list has that many entries, the stored level is the computed one, and the list opens with the base transaction |
| RuleSimulation.SomeBlock | src/pages/RuleSimulation.tsx:162 | true iff some result is BLOCK |
| RuleSimulation.SomeAlertOrCase | src/pages/RuleSimulation.tsx:164 | true iff some result is ALERT or CASE |
| RuleSimulation.Decide | src/pages/RuleSimulation.tsx:162-168 | BLOCKED iff some BLOCK; ALERT iff no BLOCK and some ALERT or CASE; APPROVED iff every result passes |
| RuleSimulation.DecideEmpty | src/pages/RuleSimulation.tsx:162-168 | an empty list is approved |
| RuleSimulation.DecideIgnoresOrder | src/pages/RuleSimulation.tsx:162-168 | lists with the same elements get the same decision |
| RuleSimulation.DecideMonotone | src/pages/RuleSimulation.tsx:162-168 | a sub-collection never gets a stricter decision |
| RuleSimulation.ProductionResults | src/pages/RuleSimulation.tsx:71-73 | exactly the sandbox results other than RULE-010 |
| RuleSimulation.ProductionResultsCounts | src/pages/RuleSimulation.tsx:71-73 | each kept result appears as many times as in the sandbox list |
| RuleSimulation.ProductionInSandboxOrder | src/pages/RuleSimulation.tsx:71-73 | production is an in-order subsequence of the sandbox list |
| RuleSimulation.ProductionNoStricter | src/pages/RuleSimulation.tsx:71-73 | production's decision is never stricter than the sandbox's |
| RuleSimulation.MockProduction | src/pages/RuleSimulation.tsx:28-73 | the mock production list is the four shared results |
| RuleSimulation.MockDecisions | src/pages/RuleSimulation.tsx:28-73 | both environments block the mock transaction |
| RuleSimulation.ScoreBarBandIntervals | src/pages/RuleSimulation.tsx:144-147 | red iff >= 80, yellow iff 50..79, blue iff 1..49, green iff <= 0 |
| RuleSimulation.SimulationPage.constructor | src/pages/RuleSimulation.tsx:6-21 | not running, not run, not comparing, both lists empty |
| RuleSimulation.SimulationPage.StartRun | src/pages/RuleSimulation.tsx:23-24 | running, so the Run button is disabled |
| RuleSimulation.SimulationPage.SetCompareSandboxProd | src/pages/RuleSimulation.tsx:307-313 | after a run, the checkbox sets the comparison flag and leaves both lists as they are |
| RuleSimulation.SimulationPage.CompleteRun | src/pages/RuleSimulation.tsx:75-78 | both lists filled (production derived from sandbox), not running, run recorded |
| RuleSimulation.SimulationPage.Reset | src/pages/RuleSimulation.tsx:82-86 | not run and both lists empty |
| RuleSimulation.SimulationPage.ShownResults | src/pages/RuleSimulation.tsx:327-349 | the sandbox results after a run, nothing before |
| ActionedTransactions.MatchesIsConjunction | src/pages/ActionedTransactions.tsx:27-55 | the callback with its early returns accepts iff every active filter holds |
| ActionedTransactions.FilteredTransactions | src/pages/ActionedTransactions.tsx:27-55 | a row is shown iff it is in the table and every active filter holds, and then as many times as in the table |
| ActionedTransactions.FilteredInTableOrder | src/pages/ActionedTransactions.tsx:27-55 | shown rows are an in-order subsequence of the table |
| ActionedTransactions.ShownRowsMatchDropdowns | src/pages/ActionedTransactions.tsx:30-36 | every shown row agrees with each dropdown not on "All" |
| ActionedTransactions.ShownRowsWithinAmounts | src/pages/ActionedTransactions.tsx:39-40 | every shown row is within each bound that is set |
| ActionedTransactions.ShownRowsMatchQuery | src/pages/ActionedTransactions.tsx:43-51 | with a query, every shown row has it in id, merchant or country ignoring case, or in the card digits |
| ActionedTransactions.DatesIgnored | src/pages/ActionedTransactions.tsx:16-17 | the date boxes never change what is shown |
| ActionedTransactions.ResetShowsAll | src/pages/ActionedTransactions.tsx:57-68 | with the default filters every row is shown |
| ActionedTransactions.DropdownOptions | src/pages/ActionedTransactions.tsx:22-24 | "All" first, then every value exactly once, in first-appearance order |
| ActionedTransactions.Actions | src/pages/ActionedTransactions.tsx:22 | the rows' actions, row by row |
| ActionedTransactions.Countries | src/pages/ActionedTransactions.tsx:23 | the rows' countries, row by row |
| ActionedTransactions.Channels | src/pages/ActionedTransactions.tsx:24 | the rows' channels, row by row |
| ActionedTransactions.CountryDropdownReachesEveryRow | src/pages/ActionedTransactions.tsx:23 | each row's country is offered and choosing it shows that row |
| ActionedTransactions.RiskScoreColorIntervals | src/pages/ActionedTransactions.tsx:272-276 | red iff >= 80, orange iff 50..79, green iff < 50 |
| ActionedTransactions.FilterPanel.constructor | src/pages/ActionedTransactions.tsx:10-19 | the default filters |
| ActionedTransactions.FilterPanel.Update | src/pages/ActionedTransactions.tsx:95-200 | the filters become the edited ones |
| ActionedTransactions.FilterPanel.Reset | src/pages/ActionedTransactions.tsx:57-68 | the default filters, under which every row shows |
| ActionedTransactions.FilterPanel.Shown | src/pages/ActionedTransactions.tsx:27-55 | the rows the current filters accept |
| CaseData.StatusNameHasNoSpace | src/data/caseData.ts:1-35 | no status name has a space |
| CaseData.StatusLabelHasNoUnderscore | src/pages/CaseInbox.tsx:210 | the badge text has no underscore |
| CaseData.StatusNameLengthsDiffer | src/data/caseData.ts:1-35 | the five status names have five different lengths |
| CaseData.StatusLabelInjective | src/pages/CaseInbox.tsx:210 | different statuses get different badge texts |
| CaseData.StatusLabelRoundTrip | src/pages/CaseInbox.tsx:210 | turning the spaces back into underscores gives the status name |
| CaseInbox.FilteredCases | src/pages/CaseInbox.tsx:11-16 | a case is listed iff it passes every dropdown not on "ALL", and then as many times as in the fixture |
| CaseInbox.FilteredInCaseOrder | src/pages/CaseInbox.tsx:11-16 | listed cases are an in-order subsequence |
| CaseInbox.AllFiltersShowAll | src/pages/CaseInbox.tsx:7-16 | with all three on "ALL" every case is listed |
| CaseInbox.ThreeDropdownsCombined | src/pages/CaseInbox.tsx:11-16 | three distinct dropdowns' tests together are the whole test |
| CaseInbox.DropdownsInAnyOrder | src/pages/CaseInbox.tsx:11-16 | filtering by the three dropdowns one at a time, in any order, gives the combined result |
| CaseInbox.Analysts | src/pages/CaseInbox.tsx:18 | the cases' analysts, case by case |
| CaseInbox.UniqueAnalysts | src/pages/CaseInbox.tsx:18 | duplicate-free, in first-appearance order, exactly the assigned analysts |
| CaseInbox.AnalystDropdownReachesEveryCase | src/pages/CaseInbox.tsx:18 | each case's analyst is offered and choosing it lists that case |
| CaseInbox.RiskDecorationByRank | src/pages/CaseInbox.tsx:48-53 | icon iff HIGH or CRITICAL, highlight iff CRITICAL, so a highlighted row always has the icon |
| CaseInbox.EmptyStateIff | src/pages/CaseInbox.tsx:242-246 | the empty-state message shows iff no case passes |
| CaseDetail.FindCase | src/pages/CaseDetail.tsx:22 | none iff no case has the id; otherwise a listed case with that id |
| CaseDetail.FindCaseIsFirst | src/pages/CaseDetail.tsx:22 | the case found is the first one with the id |
| CaseDetail.ButtonGuards | src/pages/CaseDetail.tsx:333-349 | at most one button disabled; all enabled for OPEN and UNDER_REVIEW; after an action exactly its own button is disabled |
| CaseDetail.NoteAfterAddCases | src/pages/CaseDetail.tsx:70-75 | a blank note is kept, any note with a non-blank character is cleared, and a second click changes nothing |
| CaseDetail.CaseDetailView.constructor | src/pages/CaseDetail.tsx:22-40 | the case is the looked-up one; "Case Not Found" shows iff no case carries the route id; the local status starts as its stored status; the note box is empty |
| CaseDetail.CaseDetailView.SetNewNote | src/pages/CaseDetail.tsx:24 | the note box holds the typed text |
| CaseDetail.CaseDetailView.AddNote | src/pages/CaseDetail.tsx:70-75 | cleared iff the trimmed text is non-empty, unchanged otherwise; the case record is a `const` and is not touched |
| CaseDetail.CaseDetailView.ChangeStatus | src/pages/CaseDetail.tsx:77-80 | only the local status changes |
| CaseDetail.CaseDetailView.Perform | src/pages/CaseDetail.tsx:82-93 | from any status, the status becomes the action's target and only that button is disabled |
| CaseDetail.CaseDetailView.HandleConfirmFraud | src/pages/CaseDetail.tsx:82-84 | CONFIRMED_FRAUD |
| CaseDetail.CaseDetailView.HandleMarkFalsePositive | src/pages/CaseDetail.tsx:86-88 | FALSE_POSITIVE |
| CaseDetail.CaseDetailView.HandleCloseCase | src/pages/CaseDetail.tsx:90-93 | CLOSED |
| CaseDetail.CaseDetailView.Label | src/pages/CaseDetail.tsx:127 | the badge text has no underscore |
| DeploymentHistory.RuleIds | src/pages/DeploymentHistory.tsx:49-55 | the records' rule ids, record by record |
| DeploymentHistory.GroupByRule | src/pages/DeploymentHistory.tsx:49-55 | the keys are the rule ids in first-appearance order (the `Object.entries` order) and each key's group is exactly its records, in list order |
| DeploymentHistory.NoRecordsNoGroup | src/pages/DeploymentHistory.tsx:49-55 | a rule id no record carries has no records |
| DeploymentHistory.EachRecordInOneGroup | src/pages/DeploymentHistory.tsx:49-55 | every record's rule is listed, and the record is in its own rule's group and in no other |
| DeploymentHistory.GroupsNonEmpty | src/pages/DeploymentHistory.tsx:100 | every listed group is non-empty, so `deployments[0]` exists |
| DeploymentHistory.GroupKeepsOrder | src/pages/DeploymentHistory.tsx:49-55 | a group is an in-order subsequence of the records |
| DeploymentHistory.SizeSumAppend | src/pages/DeploymentHistory.tsx:49-55 | one more record adds one to the group sizes of a distinct key list holding its rule |
| DeploymentHistory.GroupSizesSum | src/pages/DeploymentHistory.tsx:49-55 | the group sizes sum to the number of records |
| DeploymentHistory.DeployTargetIsNextStage | src/pages/DeploymentHistory.tsx:173 | Staging iff the stage is SANDBOX; otherwise Production, the next stage or the last |
| DeploymentHistory.ActionsByStatusAndStage | src/pages/DeploymentHistory.tsx:159-184 | PENDING offers approve and reject, APPROVED one deploy button, DEPLOYED at PRODUCTION rollback, and everything else nothing |
| DeploymentHistory.CountWordSingular | src/pages/DeploymentHistory.tsx:105 | "deployment" iff the group has exactly one record |
| RulePerformance.FilteredRules | src/pages/RulePerformance.tsx:40-42 | "ALL" gives every rule in order; any other action gives exactly the rules with that action |
| RulePerformance.FilteredInRuleOrder | src/pages/RulePerformance.tsx:40-42 | the result is an in-order subsequence |
| RulePerformance.ActionViewsPartition | src/pages/RulePerformance.tsx:40-42 | the BLOCK, ALERT and CASE views together hold each rule exactly as often as the list |
| RulePerformance.FPColorIntervals | src/pages/RulePerformance.tsx:68-72 | green iff < 5, yellow iff 5..10, red iff > 10 |
| RulePerformance.KpiAgreesWithTable | src/pages/RulePerformance.tsx:144-157 | the KPI card's text colour is the table's for the same rate and its background the matching shade |
| RulePerformance.RowColorsDistinct | src/pages/RulePerformance.tsx:57-66 | the three health levels get three different row classes, the default exactly for Healthy |
| Sidebar.SectionPathsCover | src/components/Sidebar.tsx:26-49 | every link of every section is among the listed paths |
| Sidebar.SidebarPathsListed | src/components/Sidebar.tsx:26-49 | the sidebar's paths, in order |
| Sidebar.ActiveOnExtensions | src/components/Sidebar.tsx:71 | a non-root link is active on its path followed by anything |
| Sidebar.ActiveOnSiblingLocation | src/components/Sidebar.tsx:71 | the match is by characters: "/case-inbox" is active on "/case-inboxes" |
| Sidebar.AtMostOneActive | src/components/Sidebar.tsx:67-72 | in a prefix-free path list at most one link is active |
| Sidebar.SidebarPathsPrefixFree | src/components/Sidebar.tsx:26-49 | the sidebar's paths are prefix-free |
| Sidebar.OneActiveLink | src/components/Sidebar.tsx:114 | wherever the user is, at most one sidebar link is highlighted |
| Sidebar.SidebarState.constructor | src/components/Sidebar.tsx:53 | nothing collapsed |
| Sidebar.SidebarState.ToggleSection | src/components/Sidebar.tsx:55-65 | exactly the given title flips |
| Sidebar.SidebarState.ItemsShown | src/components/Sidebar.tsx:93-111 | a section's links show iff its title is not collapsed |
| NavigationSidebar.NavigationPathsListed | src/components/NavigationSidebar.tsx:31-58 | the sidebar's paths, in order |
| NavigationSidebar.InlineActiveAgrees | src/components/NavigationSidebar.tsx:115-118 | the inline rule is exactly `isActive` of the collapsible sidebar |
| NavigationSidebar.NavigationPathsPrefixFree | src/components/NavigationSidebar.tsx:31-58 | the paths are prefix-free |
| NavigationSidebar.OneInlineActiveLink | src/components/NavigationSidebar.tsx:115-118 | at most one link is highlighted |
| NavigationSidebar.NavigationState.constructor | src/components/NavigationSidebar.tsx:62-64 | all three sections expanded |
| NavigationSidebar.NavigationState.ToggleSection | src/components/NavigationSidebar.tsx:66-76 | exactly the given title flips |
| NavigationSidebar.NavigationState.ItemsShown | src/components/NavigationSidebar.tsx:94-111 | a section's links show iff its title is expanded |
| Common.Filter | src/pages/RulePerformance.tsx:42 | `Array.prototype.filter`: exactly the elements that pass, never more than the input |
| Common.FilterMultiset | src/pages/RulePerformance.tsx:42 | each passing element is kept as often as it occurs, each failing one dropped |
| Common.FilterIsSubsequence | src/pages/CaseInbox.tsx:11 | a filter keeps order |
| Common.Slice | src/pages/EntityLinks.tsx:72 | `Array.prototype.slice` with non-negative bounds: clamped to the length, element by element |
| Common.Distinct | src/pages/CaseInbox.tsx:18 | `Array.from(new Set(xs))`: duplicate-free, same members, first-appearance order |
| Common.Toggled | src/components/Sidebar.tsx:55-65 | the copied set with one member flipped, others unchanged |
| Common.ToggledTwice | src/components/Sidebar.tsx:55-65 | toggling the same member twice is the identity |
| Common.ReplaceAll | src/pages/CaseDetail.tsx:127 | `replace(/x/g, y)`: same length, each `x` replaced |
| Common.ReplaceAllInverse | src/pages/CaseDetail.tsx:127 | when the replacement character does not occur, replacing back restores the text |
| Common.Join | src/pages/VisualRuleBuilder.tsx:601 | `join`: "" for none, the element itself for one; with `JoinAppend`, each further part adds the separator and the part |
| Common.JoinAppend | src/pages/VisualRuleBuilder.tsx:601 | joining one more part appends the separator and that part |
| Common.JoinSeparatorIrrelevant | src/pages/VisualRuleBuilder.tsx:600-601 | with at most one part the separator never shows |
| Common.JoinStartsWithFirst | src/pages/RuleBuilder.tsx:181 | a joined list begins with its first part |
| Common.Contains | src/pages/ActionedTransactions.tsx:45-49 | `includes`: true iff the query occurs at some position |
| Common.ToLower | src/pages/ActionedTransactions.tsx:44 | `toLowerCase` on ASCII, character by character |
| Common.Trim | src/pages/CaseDetail.tsx:71 | `trim()` is empty iff every character is whitespace |
| Common.ParseInt | src/pages/VisualRuleBuilder.tsx:310 | `parseInt` in base ten; a number comes out only if a digit is present |
| Common.ParseDigits | src/pages/VisualRuleBuilder.tsx:310 | a value comes out iff the text starts with a digit |
| Common.ParseIntOf | src/pages/VisualRuleBuilder.tsx:310 | white space, an optional sign, digits `d`, then anything but a digit: the value of `d`, negated after "-" |
| Common.ParseSignedOf | src/pages/VisualRuleBuilder.tsx:310 | the same once the white space is gone, for each of the three signs |
| Common.ParseSignedUnsigned | src/pages/VisualRuleBuilder.tsx:310 | with no sign, the digit run's value |
| Common.ParseSignedAfterSign | src/pages/VisualRuleBuilder.tsx:310 | after "+" the digit run's value, after "-" its negation |
| Common.ParseDigitsThen | src/pages/VisualRuleBuilder.tsx:310 | the digit run stops at the first non-digit, and its value is that of the digits before it |
| Common.TrimStartSkipsWhitespace | src/pages/VisualRuleBuilder.tsx:310 | leading white space is skipped up to the first other character |
| Common.ParseIntNaN | src/pages/VisualRuleBuilder.tsx:310 | `NaN` iff no digit follows the white space and the optional sign |
| Common.ParseIntOfDigits | src/pages/VisualRuleBuilder.tsx:310 | a string of decimal digits parses to its value |

## Left out

- Rendering is not modelled: JSX and styling classes (beyond the colour bands above), icons, charts, and drag-and-drop of condition blocks. Navigation through `navigate`/`Link`, and routing, are not modelled either.
- `alert` pop-ups and the `setTimeout` delays are not modelled. A simulation run is an atomic start step followed by an atomic completion step. Closing a case does not return to the inbox after a delay.
- `Date.now()` ids become a `freshId` argument. The unique-id results require that id to be unused. With duplicate ids, remove and update act on every copy and duplicate acts on the first; the model states exactly that.
- `JSON.stringify` output is not modelled. Only the scope part of the exported rule (`"ALL"` or the list) is.
- Numbers: every amount, rate and ratio is a `real`. Floating-point rounding, `toFixed` and `toLocaleString` are not modelled.
- The amount boxes hold the result of `parseFloat` as an optional real. `None` stands for both the empty text and `NaN`, and in either case no bound applies, as in the source. The parsing itself is left out.
- Common.ParseInt: hexadecimal prefixes and the other radix rules of JavaScript's `parseInt` are not modelled. The count box is `type="number"`, so it does not hold such text. The value is the exact integer; the rounding of very long digit runs to a double is not modelled.
- Common.ToLower: lower-cases ASCII letters only. JavaScript's `toLowerCase` also maps non-ASCII letters.
- The page's own fixture arrays are parameters, not constants: transactions, cases, rules and deployment records. Their hand-written KPI totals are not derived from the arrays, and no property is stated about them.
- The entity fixture's per-decision counts are not stated. The related-transaction lists do not carry the counts their summaries claim. For example, the device list holds 7 BLOCK entries against the 8 in its summary.
- DeploymentHistory.GroupByRule: JavaScript lists integer-like keys before the others in `Object.entries`. Keys such as `constructor` would also find inherited values in a plain `{}` accumulator. The model assumes rule ids are ordinary strings, so keys come in first-appearance order.
- In the case inbox an analyst literally named "ALL" cannot be chosen on its own. The model keeps that, because the source compares with the same sentinel.
- The case detail page sets the local status to OPEN when no case is found, but never shows it. The model keeps the value.
- RuleSimulation: the transaction input fields of the simulation form are not modelled. The results do not depend on them.
- The rule-library lookup that supplies an edited rule's name is not part of this model. Its result is the `existingName` parameter.
- The KPI card, the transaction detail modal, the templates page and the overview charts are presentational, and are not part of this model.
