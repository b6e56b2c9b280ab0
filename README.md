# Arelle DBA filing rules and instance statistics, modelled in Dafny

This project models two parts of Arelle, the XBRL processor.

**The Danish Business Authority (DBA) validation plugin.** These are the "FR" rules a Danish annual
report must pass: required facts, forbidden texts, balance-sheet inequalities, tax and profit
allocation for the reporting period, and report language. Each rule reads the facts of an XBRL
instance and yields errors or warnings with a code such as `DBA.FR74a`. The rules share the plugin's
data object, `PluginValidationDataExtension`. Its cached views are the per-context fact index and the
list of reporting-period contexts sorted by end date. The model keeps both caches as fields of a
class.

**The `instanceInfo` plugin's statistics.** These are:
- context statistics: the dimension frequencies, distinct instants and durations, and the bytes
  saveable by shorter context ids;
- the fact index;
- the classification of duplicate facts as consistent or inconsistent;
- the counting of repeated inline-XBRL `style` attributes.

An XBRL instance is a sequence of `Fact` values in document order. Each fact has a concept name
(`QName`), a context id, a unit id, a validity flag, a value (`Num`, `Str`, or `NoValue` for nil), a
nil flag and a language. A context has an id, a period (instant, duration or forever) and its
dimensions. A rule returns the diagnostics it yields, in yield order, as a sequence of `Diagnostic`
values (code, severity, the facts it points at).

Modules:
- `Seqs` (seqs.dfy): the insertion-ordered dictionary that Python's `dict` provides. It is given by
  the order in which keys first appear (`KeyOrder`), the elements under each key (`Group`), and the
  folds `CountsOf` and `GroupsOf`, which the imperative loops are proved against.
- `Xbrl` (xbrl.dfy): facts, contexts, diagnostics, lookup by concept, and grouping by context id.
- `DbaData` (dba_data.dfy): the plugin data class, its constants and its two caches.
- `FrRequired`, `FrText`, `FrAmounts`, `FrPeriods`, `FrBalance`: the rules of `fr.py`, by family.
- `InstanceInfo` (instance_info.dfy): the statistics loops of `instanceInfo.py`.

Code that loops and updates variables is written as Dafny methods with loop invariants. Each method
is proved equal to a specification function, and the meaning of that function is proved in lemmas.

## Model

| member | source | states |
|---|---|---|
| `Seqs.KeyOrder` | arelle/plugin/instanceInfo.py:130 | the keys of an insertion-ordered dict built from a sequence occur once each, in first-appearance order, and are exactly the keys of its elements |
| `Seqs.Group` | arelle/plugin/instanceInfo.py:82 | the list appended under a key holds exactly the elements with that key, in order |
| `Seqs.CountsOfCounts` | arelle/plugin/instanceInfo.py:81 | the `get(k, 0) + 1` counting loop holds, for each key that occurs, the number of elements with that key, and holds no other key |
| `Seqs.GroupsOfGroups` | arelle/plugin/instanceInfo.py:82 | the `defaultdict(list)` append loop holds, for each key in first-appearance order, the list of elements with that key |
| `Seqs.NoDuplicatesLength` | arelle/plugin/instanceInfo.py:131 | a duplicate-free sequence drawn from a set is no longer than the set |
| `Seqs.DistinctCount` | arelle/plugin/instanceInfo.py:131 | the distinct keys of a dict are as many as its entries |
| `Xbrl.FactsOf` | arelle/plugin/validate/DBA/rules/fr.py:39 | the facts of one concept are exactly the instance's facts with that name, and there are none exactly when the concept is absent (`factsByQname.get` is falsy) |
| `Xbrl.FactsOfAny` | arelle/plugin/validate/DBA/rules/fr.py:205 | the facts of a list of concepts are exactly the facts whose name is in the list |
| `Xbrl.GroupedContextIds` | arelle/plugin/validate/DBA/rules/fr.py:718-719 | the keys of the facts grouped by context id occur once each, and are exactly the contexts of facts of the listed concepts |
| `Xbrl.ContextGroup` | arelle/plugin/validate/DBA/rules/fr.py:718-724 | the group of one context holds exactly the facts of the listed concepts in that context |
| `DbaData.LastFactOf` | arelle/plugin/validate/DBA/PluginValidationDataExtension.py:51-52 | the fact the index keeps for a context and concept is absent exactly when no fact has both, and otherwise is such a fact |
| `DbaData.ContextFactMapHoldsLastFact` | arelle/plugin/validate/DBA/PluginValidationDataExtension.py:48-53 | the per-context index holds, for each context and concept, the last such fact in document order |
| `DbaData.ContextFactMapKeys` | arelle/plugin/validate/DBA/PluginValidationDataExtension.py:50-52 | a context id is a key of the index exactly when some fact uses it |
| `DbaData.LastFactOfIsLast` | arelle/plugin/validate/DBA/PluginValidationDataExtension.py:52 | the kept fact is one of the instance's facts |
| `DbaData.ReportingPeriodCandidates` | arelle/plugin/validate/DBA/PluginValidationDataExtension.py:73-82 | a context is kept exactly when it is a duration and its only dimension, if any, is ConsolidatedSoloDimension with member ConsolidatedMember |
| `DbaData.TypedDimensionExcludes` | arelle/plugin/validate/DBA/PluginValidationDataExtension.py:77-80 | a context with a typed dimension is never a reporting-period context: the dimension is either another one than ConsolidatedSoloDimension or has no member, which is not ConsolidatedMember |
| `DbaData.InsertByEndDate` | arelle/plugin/validate/DBA/PluginValidationDataExtension.py:83 | inserting into the sorted list adds exactly that context |
| `DbaData.SortByEndDate` | arelle/plugin/validate/DBA/PluginValidationDataExtension.py:83 | sorting is a permutation of its input |
| `DbaData.InsertKeepsSorted` | arelle/plugin/validate/DBA/PluginValidationDataExtension.py:83 | insertion keeps a list sorted by end date |
| `DbaData.SortByEndDateSorted` | arelle/plugin/validate/DBA/PluginValidationDataExtension.py:83 | the result is sorted by end date |
| `DbaData.InsertByEndDateStable` | arelle/plugin/validate/DBA/PluginValidationDataExtension.py:83 | insertion keeps the relative order of contexts that share an end date |
| `DbaData.SortByEndDateStable` | arelle/plugin/validate/DBA/PluginValidationDataExtension.py:83 | the sort is stable: the contexts with each end date stay in input order |
| `DbaData.ReportingPeriodContextsSpec` | arelle/plugin/validate/DBA/PluginValidationDataExtension.py:66-84 | the reporting-period contexts are the candidate contexts, each once, sorted by end date, in a stable order |
| `DbaData.LastTwo` | arelle/plugin/validate/DBA/PluginValidationDataExtension.py:59-64 | the result is the last two contexts, or all of them when there are fewer than three (the empty list included) |
| `DbaData.LastTwoEndLatest` | arelle/plugin/validate/DBA/PluginValidationDataExtension.py:55-64 | no context left out of the last two ends later than one kept |
| `DbaData.LastTwoIds` | arelle/plugin/validate/DBA/PluginValidationDataExtension.py:57 | at most two context ids come out |
| `DbaData.CurrentAndPreviousAreLatest` | arelle/plugin/validate/DBA/PluginValidationDataExtension.py:55-64 | the current and previous contexts are reporting-period contexts, end no earlier than any other, and have at most two ids |
| `DbaData.PluginValidationDataExtension.constructor` | arelle/plugin/validate/DBA/PluginValidationDataExtension.py:21-22 | both caches start empty |
| `DbaData.PluginValidationDataExtension.ContextFactMap` | arelle/plugin/validate/DBA/PluginValidationDataExtension.py:48-53 | the first call builds the index and caches it; later calls return the cached index; the other cache is unchanged |
| `DbaData.PluginValidationDataExtension.GetReportingPeriodContexts` | arelle/plugin/validate/DBA/PluginValidationDataExtension.py:66-84 | the first call computes the sorted reporting-period contexts and caches them; later calls return the cache |
| `DbaData.PluginValidationDataExtension.GetCurrentAndPreviousReportingPeriodContexts` | arelle/plugin/validate/DBA/PluginValidationDataExtension.py:55-64 | the result is the last two of the cached reporting-period contexts, filling the cache if it was empty |
| `DbaData.CachedViewsAreStable` | arelle/plugin/validate/DBA/PluginValidationDataExtension.py:49-53 | two calls of each view agree even when the second is given a different instance; when a cache was empty, the first call returns the view of its own instance; the caches then hold the first results |
| `FrRequired.Fr1` | arelle/plugin/validate/DBA/rules/fr.py:39-47 | one DBA.FR1 error exactly when a general-meeting date is tagged and the chairman's name is not |
| `FrRequired.RequireValidNonNilFact` | arelle/plugin/validate/DBA/rules/fr.py:91-97 | one error of the given code unless some listed concept has a valid non-nil fact |
| `FrRequired.Fr20` | arelle/plugin/validate/DBA/rules/fr.py:79-103 | no DBA.FR20 error exactly when a management-endorsement concept has a valid non-nil fact; otherwise exactly one |
| `FrRequired.Fr35` | arelle/plugin/validate/DBA/rules/fr.py:219-242 | no DBA.FR35 error exactly when an accounting-policy concept has a valid non-nil fact; otherwise exactly one |
| `FrRequired.RequireOneTaggedWhenTagged` | arelle/plugin/validate/DBA/rules/fr.py:533-539 | one diagnostic exactly when the indicator concept is tagged and none of the listed concepts is |
| `FrRequired.Fr58` | arelle/plugin/validate/DBA/rules/fr.py:518-547 | one DBA.FR58 warning exactly when the audit reporting-responsibilities concept is tagged and no declaration-obligation concept is |
| `FrRequired.Fr73` | arelle/plugin/validate/DBA/rules/fr.py:675-702 | one DBA.FR73 warning exactly when the extended-review reporting-responsibilities concept is tagged and no reporting-obligation concept is |
| `FrRequired.Fr48` | arelle/plugin/validate/DBA/rules/fr.py:360-385 | one DBA.FR48 warning exactly when an extraordinary costs, income or result fact exists; it points at exactly those facts |
| `FrRequired.Fr52` | arelle/plugin/validate/DBA/rules/fr.py:391-407 | one DBA.FR52 warning exactly when a proposed extraordinary dividend is tagged; it points at those facts |
| `FrRequired.Fr81` | arelle/plugin/validate/DBA/rules/fr.py:846-865 | no DBA.FR81 error exactly when some fact has language `da` or `en`; otherwise exactly one |
| `FrRequired.TriggeredFacts` | arelle/plugin/validate/DBA/rules/fr.py:432-434 | the trigger facts are exactly the valid string facts whose value is one of the listed values |
| `FrRequired.RequiredWhenValue` | arelle/plugin/validate/DBA/rules/fr.py:430-460 | one diagnostic per triggering fact, in order and pointing at it, when some required concept is missing; none otherwise |
| `FrRequired.RequiredWhenValueMeaning` | arelle/plugin/validate/DBA/rules/fr.py:430-460 | every diagnostic points at one valid trigger fact with a listed value, and there is one exactly when a trigger exists and a required concept is missing |
| `FrRequired.Fr53` | arelle/plugin/validate/DBA/rules/fr.py:413-460 | DBA.FR53 warnings point at valid assistance facts with an assurance value, and come exactly when such a fact exists and the audit firm's CVR number or name is missing; then there is one warning per such fact, in the order of the concept's facts |
| `FrRequired.Fr72` | arelle/plugin/validate/DBA/rules/fr.py:635-669 | DBA.FR72 warnings point at valid modified-opinion facts, and come exactly when one exists and no qualification description is tagged; then there is one warning per such fact, in the order of the concept's facts |
| `FrRequired.Fr92` | arelle/plugin/validate/DBA/rules/fr.py:871-914 | DBA.FR92 errors point at valid signed-report facts, and come exactly when one exists and the auditor's signature date is missing; then there is one error per such fact, in the order of the concept's facts |
| `FrText.FoundTextsMeaning` | arelle/plugin/validate/DBA/rules/fr.py:264-265 | the found texts are exactly the forbidden texts that occur in the value |
| `FrText.TextHits` | arelle/plugin/validate/DBA/rules/fr.py:264-266 | one error per forbidden text found in the fact (as many as the found texts), each pointing at the fact; some exactly when a text occurs in the value |
| `FrText.TextHitsCount` | arelle/plugin/validate/DBA/rules/fr.py:264-270 | a fact draws exactly as many errors as the forbidden texts its value contains, and none pointing at another fact |
| `FrText.DescriptionHits` | arelle/plugin/validate/DBA/rules/fr.py:262-266 | the hits are exactly the errors for valid description facts that contain a forbidden text |
| `FrText.DescriptionHitsCount` | arelle/plugin/validate/DBA/rules/fr.py:262-270 | each valid description fact draws one error per forbidden text it contains, for each time it occurs; an invalid one draws none |
| `FrText.ScanDescriptions` | arelle/plugin/validate/DBA/rules/fr.py:260-270 | the scan of the description facts yields exactly the description hits, in order |
| `FrText.ScanTexts` | arelle/plugin/validate/DBA/rules/fr.py:264-270 | the loop over the forbidden texts appends exactly the hits of one description fact |
| `FrText.Fr36` | arelle/plugin/validate/DBA/rules/fr.py:248-270 | a DBA.FR36 error is yielded exactly for each valid reviewed-statements qualification fact that contains a no-reservations text, and the errors are the description hits, one per contained text |
| `FrText.Fr37` | arelle/plugin/validate/DBA/rules/fr.py:276-298 | a DBA.FR37 error is yielded exactly for each valid assurance-engagement qualification fact that contains a no-reservations text, and the errors are the description hits, one per contained text |
| `FrText.RepeatCount` | arelle/plugin/validate/DBA/rules/fr.py:124-134 | each diagnostic occurs in the repeated scan once per qualifying assistance fact for each time it occurs in one scan |
| `FrText.AssistedHitsCount` | arelle/plugin/validate/DBA/rules/fr.py:122-140 | the nested loops yield one error per (qualifying assistance fact, occurrence of a valid description fact, forbidden text it contains), and none for an invalid description fact |
| `FrText.RepeatMeaning` | arelle/plugin/validate/DBA/rules/fr.py:124-134 | the inner scan repeated once per qualifying assistance fact has that many times as many diagnostics and the same members, none when there is no such fact |
| `FrText.ScanAgain` | arelle/plugin/validate/DBA/rules/fr.py:128-134 | one more qualifying assistance fact appends one more copy of the description hits |
| `FrText.AssistanceFactsWith` | arelle/plugin/validate/DBA/rules/fr.py:124-129 | the qualifying assistance facts are exactly the valid ones whose value is the Danish or English wording |
| `FrText.ForbiddenTextWhenAssisted` | arelle/plugin/validate/DBA/rules/fr.py:121-140 | the nested loops yield the description hits once per qualifying assistance fact |
| `FrText.Fr24` | arelle/plugin/validate/DBA/rules/fr.py:109-140 | DBA.FR24 yields the description hits once per qualifying assistance fact (so qualifying-assistance count times hit count errors); a diagnostic occurs exactly when audited-statements assistance is declared and a valid audited-statements qualification contains a no-reservations text |
| `FrText.Fr25` | arelle/plugin/validate/DBA/rules/fr.py:146-177 | the same as FR24 for extended review, with code DBA.FR25: the description hits once per qualifying assistance fact |
| `FrText.AssistedMeaning` | arelle/plugin/validate/DBA/rules/fr.py:124-129 | some assistance fact qualifies exactly when a valid assistance fact carries the Danish or English wording |
| `FrAmounts.NonZeroOf` | arelle/plugin/validate/DBA/rules/fr.py:196-199 | the kept equity facts are exactly the valid ones with a non-zero value |
| `FrAmounts.NonZeroEquityFacts` | arelle/plugin/validate/DBA/rules/fr.py:193-199 | the loop collects the non-zero valid equity facts in order |
| `FrAmounts.Fr34` | arelle/plugin/validate/DBA/rules/fr.py:183-213 | one DBA.FR34 error exactly when a valid non-zero equity fact exists and none of the six balance-sheet concepts is tagged; it points at exactly the valid non-zero equity facts, in the order of the equity facts (`NonZeroOf`) |
| `FrAmounts.ExceedingOf` | arelle/plugin/validate/DBA/rules/fr.py:573-579 | the facts of one concept in error are exactly the valid numeric ones in the asset's context whose value exceeds the assets |
| `FrAmounts.Exceeding` | arelle/plugin/validate/DBA/rules/fr.py:570-579 | the facts in error for one asset are exactly the exceeding facts of the listed balance-sheet concepts |
| `FrAmounts.ExceedingIn` | arelle/plugin/validate/DBA/rules/fr.py:573-579 | the inner loop collects exactly the exceeding facts of one concept, in order |
| `FrAmounts.CollectExceeding` | arelle/plugin/validate/DBA/rules/fr.py:570-579 | the loop over the listed concepts collects exactly the facts in error for the asset |
| `FrAmounts.Fr63OverMembership` | arelle/plugin/validate/DBA/rules/fr.py:566-587 | a diagnostic is yielded exactly for each valid numeric assets fact with facts in error, pointing at them |
| `FrAmounts.Fr63Source` | arelle/plugin/validate/DBA/rules/fr.py:566-587 | each FR63 error can be traced to the valid numeric assets fact whose exceeding facts it lists |
| `FrAmounts.AssetErrors` | arelle/plugin/validate/DBA/rules/fr.py:567-587 | one assets fact yields one error listing the facts that exceed it when it is valid and numeric and some do, and nothing otherwise |
| `FrAmounts.Fr63` | arelle/plugin/validate/DBA/rules/fr.py:553-587 | DBA.FR63 yields, per valid assets fact, one error listing the balance-sheet facts that exceed it |
| `FrAmounts.Fr63Sound` | arelle/plugin/validate/DBA/rules/fr.py:566-587 | every FR63 error has code DBA.FR63, points at facts, and stems from a valid numeric assets fact |
| `FrAmounts.Fr63Complete` | arelle/plugin/validate/DBA/rules/fr.py:566-587 | every valid listed fact exceeding a valid assets fact in its context is reported (units are not compared) |
| `FrAmounts.NegativeOf` | arelle/plugin/validate/DBA/rules/fr.py:621-623 | the facts kept are exactly the valid negative personnel costs |
| `FrAmounts.NegativeCosts` | arelle/plugin/validate/DBA/rules/fr.py:613-623 | the negative costs are exactly the valid negative facts of the four personnel-cost concepts |
| `FrAmounts.NegativeIn` | arelle/plugin/validate/DBA/rules/fr.py:621-623 | the inner loop collects exactly the negative costs of one concept, in order |
| `FrAmounts.Fr71` | arelle/plugin/validate/DBA/rules/fr.py:593-629 | one DBA.FR71 warning exactly when some personnel cost is valid and negative; it points at exactly the negative personnel costs, concept by concept in the order of the list (`NegativeCosts`) |
| `FrPeriods.KeysIn` | arelle/plugin/validate/DBA/rules/fr.py:333 | the filtered dict keeps exactly the keys among the current and previous context ids, each once |
| `FrPeriods.Fr41Over` | arelle/plugin/validate/DBA/rules/fr.py:334-354 | at most one warning per context; a warning occurs exactly for a context where the rule fires, pointing at its profit fact |
| `FrPeriods.Fr41Loop` | arelle/plugin/validate/DBA/rules/fr.py:334-354 | the loop over the kept contexts yields the FR41 warnings of those contexts in order |
| `FrPeriods.Fr41` | arelle/plugin/validate/DBA/rules/fr.py:304-354 | the rule keeps the caches those of the instance, leaves both filled, and yields the FR41 result |
| `FrPeriods.Fr41Meaning` | arelle/plugin/validate/DBA/rules/fr.py:332-354 | a DBA.FR41 warning is yielded exactly for each current or previous reporting-period context whose kept profit fact is invalid or above 1000 and which has no non-nil tax fact of either kind |
| `FrPeriods.Fr41AtMostTwo` | arelle/plugin/validate/DBA/rules/fr.py:332-334 | FR41 yields at most two warnings |
| `FrPeriods.FirstOutside` | arelle/plugin/validate/DBA/rules/fr.py:491-496 | the chosen profit fact is absent exactly when no valid fact lies outside ±1000, and otherwise is such a fact |
| `FrPeriods.FirstOutsideIsFirst` | arelle/plugin/validate/DBA/rules/fr.py:491-496 | the chosen fact is one of the context's facts |
| `FrPeriods.FirstOutsideThreshold` | arelle/plugin/validate/DBA/rules/fr.py:490-496 | the loop with `break` finds the first valid profit fact outside ±1000 |
| `FrPeriods.AnyNonNil` | arelle/plugin/validate/DBA/rules/fr.py:500-504 | the loop with `break` reports whether some distribution fact is non-nil |
| `FrPeriods.Fr56OverMembership` | arelle/plugin/validate/DBA/rules/fr.py:487-512 | a warning is yielded exactly for each grouped context that warns |
| `FrPeriods.Fr56Loop` | arelle/plugin/validate/DBA/rules/fr.py:487-512 | the loop over the contexts of the profit/loss facts yields the FR56 warnings of those contexts in order |
| `FrPeriods.Fr56Context` | arelle/plugin/validate/DBA/rules/fr.py:488-512 | the loop body skips other contexts, takes the first valid profit/loss fact outside the threshold, and reports it only when every distribution fact is nil |
| `FrPeriods.Fr56` | arelle/plugin/validate/DBA/rules/fr.py:466-512 | the rule keeps the caches those of the instance, fills the reporting-period cache, leaves the fact index cache untouched, and yields the FR56 result |
| `FrPeriods.Fr56ForMeaning` | arelle/plugin/validate/DBA/rules/fr.py:487-512 | a context warns exactly when it is a current or previous reporting period, has a valid profit outside ±1000, and has no non-nil distribution fact |
| `FrPeriods.Fr56Sound` | arelle/plugin/validate/DBA/rules/fr.py:487-512 | every FR56 warning comes from a current or previous context with a profit/loss beyond the threshold and only nil distribution facts |
| `FrPeriods.Fr56Complete` | arelle/plugin/validate/DBA/rules/fr.py:487-512 | every such context gets its warning, pointing at its first profit/loss fact beyond the threshold |
| `FrPeriods.Fr56Meaning` | arelle/plugin/validate/DBA/rules/fr.py:481-512 | a DBA.FR56 warning is yielded exactly for each warning context, pointing at its first profit fact outside the threshold |
| `FrBalance.FillSlots` | arelle/plugin/validate/DBA/rules/fr.py:724-732 | the slot loop leaves in each slot the last DKK fact of that concept |
| `FrBalance.SlotDiagnosticsMeaning` | arelle/plugin/validate/DBA/rules/fr.py:733-754 | the "a" error occurs exactly when equity, total and the first item are present and valid and total − equity < item − margin; the same for the "b" error with the second item; no other code occurs |
| `FrBalance.CheckSlots` | arelle/plugin/validate/DBA/rules/fr.py:733-754 | the two checks yield exactly the slot diagnostics |
| `FrBalance.CheckBalance` | arelle/plugin/validate/DBA/rules/fr.py:718-754 | the loop over grouped contexts yields the balance result |
| `FrBalance.Fr74` | arelle/plugin/validate/DBA/rules/fr.py:708-754 | DBA.FR74 with the balance-sheet total matched as LiabilitiesAndEquity yields the balance result |
| `FrBalance.Fr77` | arelle/plugin/validate/DBA/rules/fr.py:794-840 | the same for DBA.FR77 with long- and short-term liabilities |
| `FrBalance.SlotsWithoutTotal` | arelle/plugin/validate/DBA/rules/fr.py:727 | with no fact of the matched total concept the total slot stays empty |
| `FrBalance.BalanceOverWithoutTotal` | arelle/plugin/validate/DBA/rules/fr.py:718-754 | when the matched total concept is not among the grouped concepts, nothing is yielded |
| `FrBalance.Fr74AsWrittenNeverFires` | arelle/plugin/validate/DBA/rules/fr.py:718-733 | FR74 as written, grouping by LiabilitiesAndEquity but matching Liabilities, yields nothing on every instance |
| `FrBalance.Fr77AsWrittenNeverFires` | arelle/plugin/validate/DBA/rules/fr.py:804-819 | FR77 as written yields nothing on every instance |
| `FrBalance.LastWith` | arelle/plugin/validate/DBA/rules/fr.py:724-732 | the last fact of a concept and unit is one of the group's facts with that concept and unit |
| `FrBalance.SlotsAreLast` | arelle/plugin/validate/DBA/rules/fr.py:724-732 | each slot holds the last DKK fact of its concept in the group |
| `FrBalance.LastWithInGroup` | arelle/plugin/validate/DBA/rules/fr.py:718-732 | the last fact of a concept in a context's group is its last fact in that context in the whole instance |
| `FrBalance.BalanceOverMembership` | arelle/plugin/validate/DBA/rules/fr.py:719-754 | a diagnostic is yielded exactly when it is a slot diagnostic of some grouped context |
| `FrBalance.Fr74Breaches` | arelle/plugin/validate/DBA/rules/fr.py:708-754 | a DBA.FR74a/b error is yielded exactly when, in some grouped context, the last DKK equity, LiabilitiesAndEquity and provisions (or other liabilities) facts are valid and breach the inequality |
| `FrBalance.Fr77Breaches` | arelle/plugin/validate/DBA/rules/fr.py:794-840 | the same for DBA.FR77a/b with long-term and short-term liabilities |
| `FrBalance.BalanceBreaches` | arelle/plugin/validate/DBA/rules/fr.py:718-754 | for any balance rule whose concepts are distinct and grouped, the result is exactly the breaches of the reference slots per grouped context |
| `FrBalance.FillStaffSlots` | arelle/plugin/validate/DBA/rules/fr.py:775-781 | the slot loop of FR75 computes the staff slots |
| `FrBalance.Present` | arelle/plugin/validate/DBA/rules/fr.py:787 | the facts pointed at are exactly the benefits and wages facts that were found |
| `FrBalance.CheckStaff` | arelle/plugin/validate/DBA/rules/fr.py:782-788 | the check yields exactly the staff diagnostics |
| `FrBalance.Fr75` | arelle/plugin/validate/DBA/rules/fr.py:760-788 | the loop over grouped contexts yields the FR75 result |
| `FrBalance.StaffSlotsFilled` | arelle/plugin/validate/DBA/rules/fr.py:775-781 | a slot is filled exactly when a fact meeting its condition exists, and holds such a fact |
| `FrBalance.LastHighCost` | arelle/plugin/validate/DBA/rules/fr.py:776-779 | the last high cost of a concept is a fact of the group with that concept, in DKK, valid and at least the threshold |
| `FrBalance.StaffSlotsAreLast` | arelle/plugin/validate/DBA/rules/fr.py:775-781 | later qualifying facts overwrite earlier ones: the benefits and wages slots hold the last qualifying fact of each |
| `FrBalance.LastHighCostInGroup` | arelle/plugin/validate/DBA/rules/fr.py:771-779 | the last high cost in a context's group is the last one of that context in the whole instance |
| `FrBalance.StaffSlotsOfContext` | arelle/plugin/validate/DBA/rules/fr.py:771-781 | a context's benefits and wages slots hold the context's last high benefits fact and last high wages fact |
| `FrBalance.Fr75OverMembership` | arelle/plugin/validate/DBA/rules/fr.py:771-788 | a diagnostic is yielded exactly when some grouped context yields it |
| `FrBalance.Fr75ErrorsForWhen` | arelle/plugin/validate/DBA/rules/fr.py:775-788 | a context yields an error exactly when it has valid DKK benefits or wages ≥ the threshold and no valid positive employee count |
| `FrBalance.StaffDiagnosticsContent` | arelle/plugin/validate/DBA/rules/fr.py:782-788 | an FR75 error from filled slots points only at the high benefits or wages facts they hold |
| `FrBalance.Fr75ErrorsForContent` | arelle/plugin/validate/DBA/rules/fr.py:782-788 | each FR75 diagnostic is one DBA.FR75 error pointing at high benefits or wages facts of that context |
| `FrBalance.Fr75ErrorsForExactly` | arelle/plugin/validate/DBA/rules/fr.py:775-788 | a context yields nothing unless staff costs are high and no employee count is given, and then exactly one DBA.FR75 error pointing at its last high benefits fact and its last high wages fact, in that order |
| `FrBalance.WarnedContextIsGrouped` | arelle/plugin/validate/DBA/rules/fr.py:770-771 | a context that warns is among the grouped contexts |
| `FrBalance.Fr75Meaning` | arelle/plugin/validate/DBA/rules/fr.py:760-788 | a DBA.FR75 error is yielded exactly for the contexts where staff costs are high and no employee count is given |
| `InstanceInfo.CountDims` | arelle/plugin/instanceInfo.py:41-42 | each dimension of one context gets one more in the frequency map |
| `InstanceInfo.FrequencyMapCounts` | arelle/plugin/instanceInfo.py:39-42 | the frequency map holds, for each dimension used, the number of contexts that use it |
| `InstanceInfo.DimFrequencyZero` | arelle/plugin/instanceInfo.py:41-42 | a dimension no context uses has frequency zero |
| `InstanceInfo.ContextStatistics` | arelle/plugin/instanceInfo.py:38-48 | the context loop computes the dimension total, the dimension frequencies, the distinct instants, the distinct durations and the saveable bytes |
| `InstanceInfo.DimFrequencyAtMostSum` | arelle/plugin/instanceInfo.py:40-42 | no dimension is used more often than dimensions are used in total |
| `InstanceInfo.ContextIdSavingsZero` | arelle/plugin/instanceInfo.py:47-48 | the saveable bytes are never negative, and are zero exactly when no context id is longer than the short length |
| `InstanceInfo.Resolved` | arelle/plugin/instanceInfo.py:80 | the indexed facts are exactly those whose context and concept resolve |
| `InstanceInfo.CountFact` | arelle/plugin/instanceInfo.py:81 | one more fact is counted under its context |
| `InstanceInfo.FileFact` | arelle/plugin/instanceInfo.py:82 | the fact is appended to the bucket of its aspect hash |
| `InstanceInfo.IndexFacts` | arelle/plugin/instanceInfo.py:80-83 | the fact loop counts resolved facts per context, buckets them by hash in first-appearance order, and adds their context-id savings without a guard |
| `InstanceInfo.IndexMeaning` | arelle/plugin/instanceInfo.py:80-82 | the per-context counts count exactly the resolved facts of each context, and each bucket holds exactly the resolved facts with its hash |
| `InstanceInfo.FactIdSavingsUnguarded` | arelle/plugin/instanceInfo.py:83 | the unguarded sum never exceeds the guarded sum, and equals it exactly when no resolved fact's context id is shorter than the short length |
| `InstanceInfo.BoundsAttained` | arelle/plugin/instanceInfo.py:110-114 | the largest lower bound and the smallest upper bound of a group bound all the others and belong to facts of the group |
| `InstanceInfo.IntervalBounds` | arelle/plugin/instanceInfo.py:110-114 | the aMax/bMin loop ends with the largest lower bound and the smallest upper bound of the group |
| `InstanceInfo.IntervalsMeet` | arelle/plugin/instanceInfo.py:109-115 | `bMin < aMax` is false exactly when all the facts' value ranges share a point |
| `InstanceInfo.InconsistentMeaning` | arelle/plugin/instanceInfo.py:102-117 | numeric with nils: inconsistent iff not all are nil; same decimals: iff some value differs from the first; differing decimals: iff the ranges share no point; non-numeric: iff some fact is not v-equal to the first; a single fact is consistent |
| `InstanceInfo.ClassifyGroup` | arelle/plugin/instanceInfo.py:102-117 | the classification, with its aMax/bMin loop, equals the inconsistency predicate |
| `InstanceInfo.UndeterminedDecimalsMixed` | arelle/plugin/instanceInfo.py:106 | a duplicate with NaN inferred decimals makes the decimals differ, so its group is judged by the value intervals |
| `InstanceInfo.GroupByAspect` | arelle/plugin/instanceInfo.py:99-100 | the bucket's facts are grouped by concept, context, unit and language in first-appearance order |
| `InstanceInfo.GroupOfKey` | arelle/plugin/instanceInfo.py:101-102 | each aspect group is non-empty, so `fList[0]` exists |
| `InstanceInfo.CountAspectGroup` | arelle/plugin/instanceInfo.py:102-121 | one aspect group adds one to the inconsistent counter when it is inconsistent, and to the consistent one otherwise |
| `InstanceInfo.CountAspectGroups` | arelle/plugin/instanceInfo.py:101-121 | each aspect group adds one to exactly one of the two counters |
| `InstanceInfo.CountDuplicateFacts` | arelle/plugin/instanceInfo.py:95-122 | the duplicate loop over the hash buckets yields the consistent and inconsistent counts of the duplicate specification |
| `InstanceInfo.CountGroupsTotal` | arelle/plugin/instanceInfo.py:118-121 | the two counters of one bucket sum to its number of aspect groups |
| `InstanceInfo.DuplicateGroupsCountedOnce` | arelle/plugin/instanceInfo.py:95-122 | consistent plus inconsistent equals the number of distinct aspect groups over the buckets with more than one fact |
| `InstanceInfo.CountStyle` | arelle/plugin/instanceInfo.py:129-130 | one non-empty style adds one to its own count, first recording the style when it is new |
| `InstanceInfo.CountStylesIn` | arelle/plugin/instanceInfo.py:127-130 | the inner loop counts each non-empty style of one root element |
| `InstanceInfo.CountStyles` | arelle/plugin/instanceInfo.py:125-130 | the style map counts each non-empty style attribute over all roots, keys in first-appearance order |
| `InstanceInfo.NumDupStylesMeaning` | arelle/plugin/instanceInfo.py:131 | the number of duplicate styles is the number of distinct styles used more than once |
| `InstanceInfo.NumDupStylesAsSet` | arelle/plugin/instanceInfo.py:131 | the generator sum counts the set of keys with count above one |
| `InstanceInfo.WeightedAll` | arelle/plugin/instanceInfo.py:127-132 | each distinct style length times its number of occurrences sums to the total length of the style attributes |
| `InstanceInfo.CssSavingsAsWeighted` | arelle/plugin/instanceInfo.py:132 | the savings plus one copy of each distinct style equal that weighted sum |
| `InstanceInfo.CssSavingsMeaning` | arelle/plugin/instanceInfo.py:132 | the bytes saveable by CSS are the total length of all style attributes minus the total length of the distinct ones |

## Left out

- `rule_fr7` of `fr.py` is not part of this model.
- Message texts, message arguments other than the facts pointed at, and logging are left out. Diagnostics carry code, severity and facts only.
- FR1, FR20, FR35 and FR81 point at the model document; the model gives these diagnostics an empty fact list.
- `xValid`, `xValue`, `isNil`, `unit.id` and `xmlLang` are fields of `Fact`. How XBRL parsing computes them is not modelled; validity is a boolean (`xValid >= VALID`).
- `cast(decimal.Decimal, ...)` on a value does not convert it, and the comparison after it raises on a value other than a decimal. The rules that compare amounts require that exactly the facts the source compares carry numbers: `FrPeriods.Fr41CastsNumbers`, `FrPeriods.Fr56CastsNumbers`, `FrBalance.BalanceCastsNumbers` and `FrBalance.StaffCastsNumbers`. The raising path itself is not modelled. Decimal arithmetic is modelled as exact `real`.
- The concept names, texts and thresholds that the plugin data object of this version does not declare are left as inputs. These are the lists of concepts, the Danish and English wordings, the DKK unit id, the rounding margin and the personnel-expense threshold, and they are the fields of `DbaData.Settings`. Concept names the rules name directly are constants with their taxonomy names.
- `modelXbrl.factsByQname` lives outside the modelled files. The model takes it as the facts of a concept in document order. In Arelle it maps a concept to a set, whose iteration order need not be document order. So, in the rules that loop over `factsByQname` (FR24, FR25, FR34, FR36, FR37, FR48, FR53, FR63, FR71, FR72 and FR92), the order of the diagnostics and of the facts they point at is a model choice. Their number and their members do not depend on it. The same may hold for the order within the groups of `getFactsGroupedByContextId`, which is not part of this model either. That order decides the fact FR56 picks and the last fact the FR74, FR75 and FR77 chains keep. The per-context index of `contextFactMap` iterates `modelXbrl.facts`, a list in document order.
- `Xbrl.Context`: `dims` stands for the host's `qnameDims`, which holds explicit and typed dimensions. A typed dimension has no member QName (`dimMemberQname` gives `None`), so the model maps it to `Xbrl.NoMemberQn`, the empty name, which is never `ConsolidatedMemberQn`. `DbaData.IsReportingPeriodContext` and `InstanceInfo.ContextStatistics` therefore see typed dimensions as the source does. Typed-dimension values are not modelled.
- One `facts` sequence stands for three host collections. In `DbaData` (the `contextFactMap` index) it is `modelXbrl.facts`, a list. In `InstanceInfo` it is `modelXbrl.factsInInstance`, which in Arelle is a set and includes facts nested in tuples; the model takes the facts as a sequence in its iteration order (`InstanceInfo.IndexFacts`); a set holds each fact once, which the model does not require, and tuples are not modelled. In the FR rules it is read through `factsByQname`, as the facts of each concept (`Xbrl.FactsOf`).
- `Xbrl.HasFacts`: the model takes `factsByQname.get(qname)` to be `None` exactly when the instance has no fact of that concept, that is, the host adds no empty entries. FR53, FR58, FR72 and FR73 test `is None` (fr.py:447, 537, 661 and 692) and rely on this.
- `getFactsGroupedByContextId` lives outside the modelled files. It is modelled as grouping in first-appearance order of context ids.
- `FrRequired.Fr48`: the source builds a list of lists of facts for its one warning; the model flattens it to the facts themselves.
- `FrBalance.Present`: FR75 points at `[benefitsFact, wagesFact]`, where one entry may be `None`; the model drops the missing entries.
- `FrAmounts.Fr34` follows the code's list of six concepts; the docstring also names CurrentAssets, which the code does not check.
- `FrText.TextHits`: Python's `str` of a `Decimal` value is not modelled. The model gives a numeric value no text, so a number never matches a forbidden text. Description concepts carry strings.
- In `instanceInfo.py` the short context-id length is `int(log10(numContexts)) + 2`. Floating point and log10 are left out, so the model takes this length as a parameter `shortLen`.
- `instanceInfo.py` lines 49-79 and 84-93 are left out: logging, text-block and continuation statistics, the sort keys at lines 53 and 85, and the averages at lines 87-88. Most of these lines only feed log messages, but some of them can raise and end the statistics early. Line 87 divides by the TableTextBlock count, which is zero in an instance without TableTextBlock facts. Line 88 divides the TextBlock length by the same TableTextBlock count. Line 90 indexes the first per-context count, which fails when no fact resolves. Lines 38, 52 and 91 divide by, or take the logarithm of, the number of contexts, which fails when there are none.
- `InstanceInfo.CountDuplicateFacts` and `InstanceInfo.CountStyles` describe only runs that get past line 93. On the inputs above, the source raises before it reaches lines 95-132. `InstanceInfo.ContextStatistics` and `InstanceInfo.IndexFacts` take the short length as given, and with no contexts line 38 raises before either runs.
- `InstanceInfo.ContextStatistics`: the source keys the dimension frequencies by `str(d.dimensionQname)`, the prefixed name `prefix:localName`; the model keys them by the expanded name (namespace and local name). The two differ when one namespace is written with two prefixes, or two namespaces with one prefix.
- The conceptContextUnitLangHash, `concept.isNumeric`, `inferredDecimals`, `rangeValue` and `isVEqualTo` are opaque functions of the `InstanceInfo.Host` parameter. Their internals live in other Arelle modules. The floating-point result of `inferredDecimals` becomes a number of places, exact (infinity), or undetermined (NaN); Python's `==` on it never holds for NaN (`InstanceInfo.DecimalsEqual`).
- `InstanceInfo.CountDuplicateFacts` takes the values of the hash-bucket dictionary as a sequence in the dictionary's order. `InstanceInfo.IndexFacts` proves that order to be first appearance.
- `InstanceInfo.CountStyles` takes, per inline-XBRL root element, the `style` attribute of each descendant as an optional string. lxml traversal is left out.
- `InstanceInfo.IndexFacts` models line 83 as written: the bytes saved per fact are added without the length guard of line 47, so they can be negative. `InstanceInfo.FactIdSavingsUnguarded` states the difference.

## Findings

| source | as written | input that shows it | evidently intended | confidence | as-written member | corrected member |
|---|---|---|---|---|---|---|
| arelle/plugin/validate/DBA/rules/fr.py:718-754, 804-840 | FR74 and FR77 group facts by `liabilitiesAndEquityQn` but fill the balance-sheet total from facts named `liabilitiesQn`. No grouped fact has that name, so the total stays `None` and neither rule can fire. | any instance, e.g. one context with valid DKK Equity 100, LiabilitiesAndEquity 50 and Provisions 200: no FR74a error, although 50 − 100 < 200 − margin for any rounding margin below 250 | match the total against `liabilitiesAndEquityQn`, the concept the docstrings and messages name | not executed; depends on `liabilitiesQn` naming a concept other than LiabilitiesAndEquity (it is declared outside the modelled files) | `FrBalance.Fr74AsWrittenNeverFires`, `FrBalance.Fr77AsWrittenNeverFires` | `FrBalance.Fr74Breaches`, `FrBalance.Fr77Breaches` |
