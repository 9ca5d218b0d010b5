# Use-case prioritisation: a verified model of the scoring and planning core

This project models, in Dafny, the logic of a single-page application for
prioritising organisational use cases. Each use case is scored on a
registry of weighted parameters, and the composite score drives the list,
table, kanban and roadmap views. The model covers:

- the weighted scoring engine: legacy level mapping, completion of partial
  score maps and the composite score rounded to a fifth;
- the use-case collection: add, update, delete, rescoring when the
  parameters change, highlights and sorting;
- the parameter editors: the parameter manager and the weights panel;
- the roadmap: the initial selection, phase assignment by score
  percentile, weeks and FTE read from free text, drag-and-drop surgery on
  the item lists, totals, per-role FTE sums, and the roadmap card's role
  editor;
- filtering and sorting: the table, the list, the smart filter panel and
  the kanban board;
- the similar-use-case ranker and the use-case form's state machine;
- the challenge registry: threshold auto-selection, the selected-first
  list order and the challenge form;
- the two CSV writers: the spreadsheet export and the roadmap export.
  Both are checked against a reader for comma-separated records as
  section 2 of RFC 4180 describes them.

There is one module per source file. Three modules are shared:

- `Types` holds the records and the default parameter registry.
- `Seqs` holds filtering, a stable insertion sort driven by a
  JavaScript-style comparator, subsequences and sums.
- `Text` holds the string operations the source borrows from JavaScript:
  trimming, lowercasing, whitespace splitting, `includes` and `parseInt`.

Each source file is modelled in its own form:

- A React component or hook that holds state is a class. Its fields are
  the state variables.
- Each handler is a method with a `modifies this` clause. Its
  postcondition gives the new state through a specification function.
- Each callback the component makes to its parent, such as pushing
  parameters, saving or emitting ids, is appended to a log field. The
  postconditions can then say what was sent and how many times.
- Pure filter, sort and map chains are functions. Their meaning is
  proved in lemmas: membership, order, permutation, and what a repeat
  or a reversal gives back.
- Loops in the source, such as the score accumulation, the keyword count
  and the CSV writers, are methods with loop invariants. Each is proved
  against the function that specifies it.

Floating-point numbers are exact `real`s. Dates are integers.
Identifiers, the clock and formatting are parameters of the operations
that need them.

## Model

| member | source | states |
|---|---|---|
| Types.PhaseKinds | src/types/types.ts:9 | every roadmap phase is exactly one of the three timeline phases or the four quarterly ones, and distinct phases have distinct tags |
| Types.DefaultParametersShape | src/types/types.ts:101-158 | the default registry has seven parameters with distinct ids, each with default value 3 and a weight between 0.6 and 1.0, each with a direction; only `ethicalConsiderations` prefers low |
| Types.ApplyPatch | src/hooks/useUseCases.tsx:122-128 | spreading a partial form over a use case keeps its id, score and dates, takes a supplied status and keeps the scores when none are supplied |
| Types.ApplyPatchProperties | src/hooks/useUseCases.tsx:122-128 | an empty patch changes nothing, and applying the same patch twice is the same as once |
| Types.OrElse | src/hooks/useUseCases.tsx:83-84 | `a \|\| b` on optional text: a non-empty `a` wins, otherwise `b` |
| ScoreUtils.LevelToScore | src/utils/scoreUtils.ts:4-20 | a legacy level maps to 1, 3 or 5: 5 exactly for high, 1 exactly for low, 3 for medium and anything else |
| ScoreUtils.Round | src/utils/scoreUtils.ts:57 | `Math.round` gives the integer within half of x, halves rounding up |
| ScoreUtils.CalculateScore | src/utils/scoreUtils.ts:23-62 | the accumulating loop returns the composite score: 0 without scores, parameters or weight, otherwise round(5 x weighted mean) / 5 |
| ScoreUtils.AccumulateUnscored | src/utils/scoreUtils.ts:33-51 | when no listed parameter has a score, both accumulators stay 0 |
| ScoreUtils.CompositeScoreZero | src/utils/scoreUtils.ts:27-54 | the score is 0 when the map is absent, the list is empty, or no listed parameter is scored |
| ScoreUtils.LowPreferenceMirrors | src/utils/scoreUtils.ts:39-41 | a low-preferred parameter scored s contributes like a high-preferred one scored 6 - s |
| ScoreUtils.NeutralHalves | src/utils/scoreUtils.ts:44-46 | a neutral parameter contributes half the weight and half the weighted score of a high-preferred one |
| ScoreUtils.AccumulateAgreeing | src/utils/scoreUtils.ts:33-34 | the accumulators depend only on the scores of listed parameters |
| ScoreUtils.CompositeScoreIgnoresOtherIds | src/utils/scoreUtils.ts:33-34 | extra keys in the score map do not change the score |
| ScoreUtils.CompositeScoreOnFifths | src/utils/scoreUtils.ts:57 | the score is always a multiple of 1/5 |
| ScoreUtils.AccumulateBounds | src/utils/scoreUtils.ts:33-51 | with positive weights, weightedSum lies between totalWeight and 5 x totalWeight, and totalWeight is positive once a listed parameter is scored |
| ScoreUtils.ContributionBounds | src/utils/scoreUtils.ts:36-49 | one parameter's contribution lies between its weight and 5 x its weight |
| ScoreUtils.CompositeScoreBounds | src/utils/scoreUtils.ts:27-57 | with positive weights and at least one scored parameter the score lies in [1, 5] |
| ScoreUtils.AccumulateConcat | src/utils/scoreUtils.ts:30-51 | both accumulators are sums over the parameter list, additive over concatenation |
| ScoreUtils.AccumulatePermutation | src/utils/scoreUtils.ts:30-51 | reordering the parameters leaves both accumulators unchanged |
| ScoreUtils.CompositeScorePermutation | src/utils/scoreUtils.ts:23-57 | the score does not depend on the order of the parameter list |
| ScoreUtils.DefaultScores | src/utils/scoreUtils.ts:65-80 | the default scores have exactly the parameter ids as keys |
| ScoreUtils.CreateDefaultScores | src/utils/scoreUtils.ts:65-80 | the `forEach` filling the dictionary yields the default scores |
| ScoreUtils.DefaultScoresValues | src/utils/scoreUtils.ts:68-77 | a parameter's entry is the mapped legacy level for impact or ease when one is given, else its default value or 3 (the last parameter with an id wins) |
| ScoreUtils.Completed | src/utils/scoreUtils.ts:88-96 | completing keeps every existing entry, orphans included, and the keys become the old keys plus the parameter ids |
| ScoreUtils.EnsureComplete | src/utils/scoreUtils.ts:83-97 | the result has a score for every parameter id |
| ScoreUtils.EnsureCompleteScores | src/utils/scoreUtils.ts:83-97 | the loop over a copy yields the completed scores |
| ScoreUtils.CompletedFillsDefaults | src/utils/scoreUtils.ts:90-94 | a missing parameter gets its default value or 3 (the first parameter with an id wins) |
| ScoreUtils.CompletedUnchanged | src/utils/scoreUtils.ts:88-96 | a map that already has every parameter id is returned unchanged |
| ScoreUtils.EnsureCompleteIdempotent | src/utils/scoreUtils.ts:83-97 | completing twice gives the same map as completing once |
| ScoreUtils.EnsureCompleteMissing | src/utils/scoreUtils.ts:84-86 | without a map, exactly one entry per parameter, equal to its default value or 3 |
| UseCases.Normalize | src/hooks/useUseCases.tsx:30-40 | a loaded use case gets complete scores; a non-zero stored score is kept, a zero one is recomputed |
| UseCases.Loaded | src/hooks/useUseCases.tsx:18-48 | nothing saved or an empty list gives the seed data; otherwise every saved entry, normalized, in order |
| UseCases.LoadedScoreMayBeStale | src/hooks/useUseCases.tsx:36 | a stored score such as 19.7 is kept although it is not the score its scores give |
| UseCases.NewUseCaseConsistent | src/hooks/useUseCases.tsx:70-94 | a new use case has the fresh id, the form's title and status, complete scores that keep the submitted ones, the score those give, both dates now, and the form's team or else the current one |
| UseCases.UpdatedScores | src/hooks/useUseCases.tsx:102-116 | the scores after an update always cover every parameter id |
| UseCases.UpdatedScoresKeepsChoice | src/hooks/useUseCases.tsx:102-116 | submitted scores are stored as submitted; without them a legacy impact level sets the impact score, and without either the stored scores are only completed |
| UseCases.LegacyOverrideAsWritten | src/hooks/useUseCases.tsx:105-112 | as written, submitting impact 4 together with the level "high" stores 5 |
| UseCases.UpdatedOnlyTarget | src/hooks/useUseCases.tsx:97-133 | an update keeps length and every other entry; the matching entry keeps id and creation date, gets updatedAt now, complete scores and the score they give |
| UseCases.RecomputedConsistent | src/hooks/useUseCases.tsx:143-159 | a parameter change keeps length, order, ids and titles; every use case keeps its scores, gains the missing ones and gets the score they give |
| UseCases.RecomputedReorderInvariant | src/hooks/useUseCases.tsx:143-159 | reordering distinct parameters changes no recomputed score |
| UseCases.SameIdsOfPermutation | src/hooks/useUseCases.tsx:143-159 | reordered parameter lists have the same ids and members |
| UseCases.CompletedDependsOnlyOnDefaults | src/hooks/useUseCases.tsx:149 | completing with reordered distinct parameters gives the same map |
| UseCases.DeletedSpec | src/hooks/useUseCases.tsx:162-163 | deleting keeps exactly the entries with another id, in order |
| UseCases.ViewFiltersSpec | src/hooks/useUseCases.tsx:60-67 | the project filter keeps the current project's entries (all without a project); in team view with a team only that team's entries, otherwise all |
| UseCases.ScoreDescendingConsistent | src/hooks/useUseCases.tsx:173 | `b.score - a.score` is a consistent ordering |
| UseCases.SortedUseCasesSpec | src/hooks/useUseCases.tsx:172-174 | the sorted list is a permutation of the project's use cases with non-increasing scores |
| UseCases.FilterByStatus | src/hooks/useUseCases.tsx:177-180 | 'all' gives the project's list; any other status exactly its entries with that status |
| UseCases.FindById | src/hooks/useUseCases.tsx:183-185 | nothing exactly when no entry has the id, otherwise the first entry with it: no earlier entry has that id |
| UseCases.Highlights | src/hooks/useUseCases.tsx:188-210 | every parameter id gets a highlight, and only those |
| UseCases.HighlightOf | src/hooks/useUseCases.tsx:188-210 | the highlight of a parameter id is its last parameter's direction applied to the use case's score for it, or to 3 when it has none |
| UseCases.HighlightGoodIffNormalizedHigh | src/hooks/useUseCases.tsx:188-210 | for a scored parameter with a high or low direction, its highlight is good exactly when its direction-adjusted score is at least 4 |
| UseCases.ClassifyAgreesWithScoring | src/hooks/useUseCases.tsx:192-206 | preferring low scored s is classed as preferring high scored 6 - s; 3 (the missing score) is never remarkable; with a direction, good means a normalized score of at least 4; neutral or no direction is never remarkable |
| UseCases.ColumnsSpec | src/hooks/useUseCases.tsx:213-235 | the columns are title, one `scores.<id>` per parameter with its name, score and status, all sortable |
| UseCases.UseCaseStore.constructor | src/hooks/useUseCases.tsx:18-48 | the store starts with the loaded use cases |
| UseCases.UseCaseStore.AddUseCase | src/hooks/useUseCases.tsx:70-94 | appends exactly the new use case and returns it; its roadmap flag is the form's, absent when the form has none |
| UseCases.UseCaseStore.UpdateUseCase | src/hooks/useUseCases.tsx:97-140 | the list becomes the updated list as the code writes it: a legacy impact or ease level in the update overrides the submitted score for it |
| UseCases.UpdatedScoresAsWritten | src/hooks/useUseCases.tsx:102-116 | the scores after an update as the code writes them still cover every parameter id |
| UseCases.UpdatedScoresAgreeWithoutLevels | src/hooks/useUseCases.tsx:102-116 | without a legacy impact or ease level in the update, the as-written scores are the intended ones |
| UseCases.UseCaseStore.UpdateParameters | src/hooks/useUseCases.tsx:143-159 | the parameters are replaced and every use case recomputed |
| UseCases.UseCaseStore.DeleteUseCase | src/hooks/useUseCases.tsx:162-169 | the list becomes the list without the id |
| UseCases.UseCaseStore.GetParameterHighlights | src/hooks/useUseCases.tsx:188-210 | the loop filling the dictionary yields the highlights |
| UseCases.UseCaseStore.GetUseCaseColumns | src/hooks/useUseCases.tsx:213-235 | the loop pushing columns yields the column list |
| ParameterManager.SliderWeight | src/components/ParameterManager.tsx:191 | a slider position 1..10 becomes a weight between 0.1 and 1.0, always positive |
| ParameterManager.EditAllOnlyTarget | src/components/ParameterManager.tsx:43-47 | an edit keeps length, ids and order, leaves every other parameter as it was, and changes only the named field of the matching one (a weight as slider / 10) |
| ParameterManager.AddedSpec | src/components/ParameterManager.tsx:50-63 | a blank name adds nothing; otherwise exactly one parameter with the fresh id, the draft's name and weight is appended, earlier ones unchanged, ids stay distinct |
| ParameterManager.DeletedSpec | src/components/ParameterManager.tsx:81-93 | delete is refused with one parameter or fewer; otherwise exactly the parameters with another id remain, in order, and with distinct ids at least one remains |
| ParameterManager.Swap | src/components/ParameterManager.tsx:106 | swapping two slots exchanges them and changes nothing else |
| ParameterManager.SwapPermutes | src/components/ParameterManager.tsx:106 | a swap is a permutation and undoes itself |
| ParameterManager.MovesPermute | src/components/ParameterManager.tsx:103-118 | moving up or down is a permutation, moving down undoes moving up and vice versa, and moving up exchanges an entry with its predecessor |
| ParameterManager.Editor.constructor | src/components/ParameterManager.tsx:31-40 | the editor starts with a copy of the parameters, nothing in edit and a blank draft |
| ParameterManager.Editor.HandleParameterEdit | src/components/ParameterManager.tsx:43-47 | the local list becomes the edited list; nothing is pushed |
| ParameterManager.Editor.SetDraft | src/components/ParameterManager.tsx:339 | only the draft changes |
| ParameterManager.Editor.HandleAddParameter | src/components/ParameterManager.tsx:50-78 | adds exactly when the name is not blank: the list is extended, pushed once and the draft reset to weight 0.5, default 3, direction high; otherwise nothing changes |
| ParameterManager.Editor.HandleDeleteParameter | src/components/ParameterManager.tsx:81-100 | deletes exactly when more than one parameter is left, then pushes the new list once; otherwise nothing changes |
| ParameterManager.Editor.MoveParameterUp | src/components/ParameterManager.tsx:103-109 | index 0 changes nothing; otherwise the entry swaps with its predecessor and the list is pushed |
| ParameterManager.Editor.MoveParameterDown | src/components/ParameterManager.tsx:112-118 | the last index changes nothing; otherwise the entry swaps with its successor and the list is pushed |
| ParameterManager.Editor.ToggleEditMode | src/components/ParameterManager.tsx:121-133 | closing the open edit pushes the local list; opening another one pushes nothing |
| WeightsPanel.EditsKeepShape | src/components/WeightsPanel.tsx:29-43 | any sequence of weight and direction changes keeps length, ids, names and order |
| WeightsPanel.EditsOnlyTargets | src/components/WeightsPanel.tsx:29-43 | a parameter that no change names stays as it was |
| WeightsPanel.Panel.constructor | src/components/WeightsPanel.tsx:26-27 | the panel starts with the incoming parameters and no changes |
| WeightsPanel.Panel.HandleWeightChange | src/components/WeightsPanel.tsx:29-35 | sets weight slider / 10 on the matching parameter and sets the changed flag |
| WeightsPanel.Panel.HandleDirectionChange | src/components/WeightsPanel.tsx:37-43 | sets the direction of the matching parameter and sets the changed flag |
| WeightsPanel.Panel.SaveChanges | src/components/WeightsPanel.tsx:45-48 | pushes the local list and clears the flag |
| WeightsPanel.Panel.ResetChanges | src/components/WeightsPanel.tsx:50-53 | restores the current `parameters` prop, which is the saved list once the owner has rendered again, and clears the flag |
| WeightsPanel.Panel.ReceiveParameters | src/components/WeightsPanel.tsx:16-26 | a new prop replaces only the prop: the local copy, the flag and the save log are not resynced |
| RoadmapState.IdsOf | src/hooks/useRoadmapState.ts:22-24 | the ids of a list, one per entry, in order |
| RoadmapState.InitialSelectionSpec | src/hooks/useRoadmapState.ts:20-37 | no use cases leave the selection alone; if any has its roadmap flag set to true, exactly those ids are selected; otherwise the ids of the top five (or all, when fewer) |
| RoadmapState.MarkedSelected | src/hooks/useRoadmapState.ts:21-26 | when some use case has its roadmap flag set to true, every such id is selected and every selected id is a marked one |
| RoadmapState.BestSelected | src/hooks/useRoadmapState.ts:27-34 | when none is marked, five ids are selected, or all when there are fewer use cases, each the id of a use case |
| RoadmapState.SyncMembership | src/hooks/useRoadmapState.ts:90-97 | the loop sends, in order, one update for each use case whose roadmap flag is absent or disagrees with the selection, as the write-back function describes |
| RoadmapState.SendOrders | src/hooks/useRoadmapState.ts:218-222 | the loop sends, in order, one order update per item of the reordered column, giving each its position |
| RoadmapState.TopFiveAreBest | src/hooks/useRoadmapState.ts:29-32 | every use case left out of the top five scores no higher than each one taken |
| RoadmapState.IndexOf | src/hooks/useRoadmapState.ts:53 | `indexOf`: -1 exactly when absent, otherwise the first position holding the id |
| RoadmapState.PhaseForPercentileSpec | src/hooks/useRoadmapState.ts:56-65 | the quarterly view gives a quarter and the others a timeline phase; a higher percentile never gives an earlier phase; below 0.25 the first quarter or short term |
| RoadmapState.BestGoesFirst | src/hooks/useRoadmapState.ts:44-65 | an unplaced item that sorts first by score goes to the first quarter or the short term |
| RoadmapState.EstimatesSpec | src/hooks/useRoadmapState.ts:68-78 | defined weeks and FTE are kept; otherwise weeks are 4 x the first run of digits (4 when there is none) and FTE that run (1 when there is none) |
| RoadmapState.SelectedUseCases | src/hooks/useRoadmapState.ts:41-42 | every chosen use case is selected |
| RoadmapState.ItemsSpec | src/hooks/useRoadmapState.ts:40-88 | the items are exactly the selected use cases in use-case order, each keeping its phase when it has one, with weeks and FTE always defined |
| RoadmapState.WriteBackSpec | src/hooks/useRoadmapState.ts:90-97 | exactly the use cases whose `inRoadmap` is absent or disagrees with the selection are written back, each with the flag the selection gives; nothing when all are set and agree |
| RoadmapState.UnsetFlagWrittenBack | src/hooks/useRoadmapState.ts:90-97 | a use case that never had the flag is written back whether it is selected or not |
| RoadmapState.TotalsIgnoreOrder | src/hooks/useRoadmapState.ts:232-239 | the totals of weeks and FTE do not depend on the order of the items |
| RoadmapState.AllRoleAllocationsSpec | src/hooks/useRoadmapState.ts:227-229 | the allocations are the in-order concatenation of every item's allocations |
| RoadmapState.PhaseFiltersSplit | src/hooks/useRoadmapState.ts:180-184 | the source column, the destination column and the other items together are the items |
| RoadmapState.ReplaceKeepsTotals | src/hooks/useRoadmapState.ts:187 | changing an item's phase does not change the totals |
| RoadmapState.CrossPhaseMovePermutes | src/hooks/useRoadmapState.ts:176-196 | a cross-phase drag gives the old items with only the moved one changed, to the destination phase |
| RoadmapState.CrossPhaseMovePosition | src/hooks/useRoadmapState.ts:186-194 | the moved item sits at the destination index among the destination items (at the end when the index is past it) |
| RoadmapState.CrossPhaseMoveTotals | src/hooks/useRoadmapState.ts:176-196 | a cross-phase drag keeps the totals |
| RoadmapState.OrderUpdates | src/hooks/useRoadmapState.ts:218-222 | one order update per item of the column, its position in the column |
| RoadmapState.SamePhaseMovePermutes | src/hooks/useRoadmapState.ts:209-216 | a same-phase drag is a permutation of the items |
| RoadmapState.SamePhaseMoveSpec | src/hooks/useRoadmapState.ts:209-222 | a same-phase drag keeps the totals, and the moved item sits at the destination index of its reordered column |
| RoadmapState.AvailableReorderAsWritten | src/hooks/useRoadmapState.ts:208-216 | as written, a drag within the available list appends an `undefined` entry to the items |
| RoadmapState.Board.constructor | src/hooks/useRoadmapState.ts:16-17 | the board starts empty, with nothing selected |
| RoadmapState.Board.Initialize | src/hooks/useRoadmapState.ts:20-37 | the selection becomes the initial selection when there are use cases |
| RoadmapState.Board.Refresh | src/hooks/useRoadmapState.ts:40-98 | the items are rebuilt from the selection and every absent or disagreeing `inRoadmap` flag is written back |
| RoadmapState.Board.AddUseCaseToRoadmap | src/hooks/useRoadmapState.ts:101-107 | the id is appended to the selection |
| RoadmapState.Board.RemoveUseCaseFromRoadmap | src/hooks/useRoadmapState.ts:110-116 | every occurrence of the id leaves the selection |
| RoadmapState.Board.UpdateEstimatedTime | src/hooks/useRoadmapState.ts:119-128 | the change is sent, and only the matching items get the new weeks |
| RoadmapState.Board.UpdateEstimatedFte | src/hooks/useRoadmapState.ts:131-140 | the change is sent, and only the matching items get the new FTE |
| RoadmapState.Board.UpdateRoleAllocations | src/hooks/useRoadmapState.ts:143-152 | the change is sent, and only the matching items get the new allocations |
| RoadmapState.Board.HandleDragEnd | src/hooks/useRoadmapState.ts:155-224 | no destination changes nothing; available to a column selects the dragged use case; a column to available deselects it; column to column moves it and sends its new phase; within a column reorders it and sends every position; within the available list nothing changes |
| RoadmapState.Board.MoveAcross | src/hooks/useRoadmapState.ts:176-207 | the items become the cross-phase move and the new phase is sent |
| RoadmapState.Board.MoveWithin | src/hooks/useRoadmapState.ts:208-223 | the items become the same-phase move and one order update per column item is sent |
| RoadmapStats.RoleTotals | src/components/roadmap/RoadmapStats.tsx:21-24 | a role is a key exactly when some allocation has it, so a role without allocation is absent |
| RoadmapStats.RoleTotalsPerRole | src/components/roadmap/RoadmapStats.tsx:21-24 | each role maps to the sum of the FTE of its allocations |
| RoadmapStats.RoleTotalsSum | src/components/roadmap/RoadmapStats.tsx:18-24 | the per-role totals add up to the sum of all allocations' FTE, and the map is empty exactly when there are no allocations |
| RoleAllocations.AddedFromSpec | src/components/form/RoleAllocations.tsx:36-46 | nothing is added exactly when every default role is used; otherwise the first unused role in list order is appended at 0.5 FTE, keeping roles distinct |
| RoleAllocations.AppendKeepsDistinct | src/components/form/RoleAllocations.tsx:41-44 | appending an unused role keeps the roles distinct |
| RoleAllocations.AddRefusedIffFull | src/components/form/RoleAllocations.tsx:36-46 | with distinct roles drawn from the defaults, adding is refused exactly when there are as many allocations as default roles |
| RoleAllocations.AddDisabledSpec | src/components/form/RoleAllocations.tsx:84 | the add button is disabled exactly when adding would do nothing |
| RoleAllocations.RemovedAtSpec | src/components/form/RoleAllocations.tsx:52 | removing index i drops exactly that entry and keeps the order; an index out of range changes nothing |
| RoleAllocations.RemovedAtKeepsDistinct | src/components/form/RoleAllocations.tsx:52 | removing keeps the roles distinct |
| RoleAllocations.EntryChangesSpec | src/components/form/RoleAllocations.tsx:56-70 | a role or FTE change alters only entry i, and only that field; changing to a role not yet used keeps the roles distinct |
| RoleAllocations.Allocation.constructor | src/types/types.ts:15-18 | an allocation object holds the given role and FTE |
| RoleAllocations.ValuesAppend | src/components/form/RoleAllocations.tsx:41-44 | the contents of an extended list are the old contents plus the new entry |
| RoleAllocations.ValuesRemovedAt | src/components/form/RoleAllocations.tsx:52 | removing an object removes its contents |
| RoleAllocations.HandleAddRole | src/components/form/RoleAllocations.tsx:32-47 | without a callback nothing is emitted; otherwise a list is emitted exactly when a role is unused, made of the old objects and one fresh one holding the added role |
| RoleAllocations.HandleRemoveRole | src/components/form/RoleAllocations.tsx:49-54 | without a callback nothing is emitted; otherwise the list without index i |
| RoleAllocations.HandleRoleChange | src/components/form/RoleAllocations.tsx:56-62 | the shared object at index i gets the role in place, so every position holding that object changes; the same list is emitted |
| RoleAllocations.HandleFteChange | src/components/form/RoleAllocations.tsx:64-70 | the shared object at index i gets the FTE in place; the same list is emitted |
| RoadmapCard.InitialValuesSpec | src/components/roadmap/RoadmapItem.tsx:37-38 | weeks and FTE start as given, or as 4 and 1 when missing or 0 |
| RoadmapCard.PositiveInput | src/components/roadmap/RoadmapItem.tsx:45-46 | an accepted input is positive and is what `parseInt` reads |
| RoadmapCard.PositiveInputOfShown | src/components/roadmap/RoadmapItem.tsx:45-46 | a number typed in, followed by anything that does not continue it, is accepted exactly when it is positive |
| RoadmapCard.NonPositiveInputRefused | src/components/roadmap/RoadmapItem.tsx:45-46 | negative and blank inputs are refused |
| RoadmapCard.FractionalFteTruncated | src/components/roadmap/RoadmapItem.tsx:52-57 | "2.5" is taken as an FTE of 2 |
| RoadmapCard.Card.constructor | src/components/roadmap/RoadmapItem.tsx:37-42 | the card starts with the initial weeks, FTE and the use case's allocations, the same values or none when it has none |
| RoadmapCard.Card.HandleTimeChange | src/components/roadmap/RoadmapItem.tsx:44-50 | a positive input sets the weeks and sends them; anything else changes nothing |
| RoadmapCard.Card.HandleFteChange | src/components/roadmap/RoadmapItem.tsx:52-58 | a positive input sets the FTE (truncated) and sends it; anything else changes nothing |
| RoadmapCard.Card.AddRoleAllocation | src/components/roadmap/RoadmapItem.tsx:67-81 | appends a fresh allocation with the first unused role at 0.5 and sends the list; does nothing when all roles are used |
| RoadmapCard.Card.RemoveRoleAllocation | src/components/roadmap/RoadmapItem.tsx:83-87 | drops index i, keeps the order, and sends the list |
| RoadmapCard.Card.UpdateRole | src/components/roadmap/RoadmapItem.tsx:89-94 | the shared object at index i gets the role in place (every alias sees it) and the list is sent |
| RoadmapCard.Card.UpdateRoleFte | src/components/roadmap/RoadmapItem.tsx:96-101 | the shared object at index i gets the FTE in place and the list is sent |
| RoadmapCard.Card.CalculateTotalFte | src/components/roadmap/RoadmapItem.tsx:104-114 | no allocations return the current FTE; otherwise the sum of the allocations, sent and stored only when it differs |
| TableUtils.SearchedSpec | src/components/table/tableUtils.ts:18-30 | a blank query keeps everything; otherwise an entry stays exactly when the lowercased query occurs in its title, description, business objective, status, a team or a technology; the result is a subsequence of the input |
| TableUtils.Before | src/components/table/tableUtils.ts:39 | the text before the first occurrence of a character: a prefix without it, followed by it when shorter |
| TableUtils.DottedPartsOf | src/components/table/tableUtils.ts:39 | splitting `parent.child` at the dot gives both parts back |
| TableUtils.BeforeUnique | src/components/table/tableUtils.ts:39 | the text before the first occurrence is the only prefix with those properties |
| TableUtils.CompareFlips | src/components/table/tableUtils.ts:38-80 | for every kind of key, descending compares a with b as ascending compares b with a |
| TableUtils.SortedFilteredDataSpec | src/components/table/tableUtils.ts:13-36 | no sort key returns the filtered list in its order; any key returns a permutation of it |
| TableUtils.ScoreCompare | src/components/table/tableUtils.ts:41-48 | a `scores.<id>` key compares that score, a missing score as 0, in the chosen direction |
| TableUtils.ScoreColumnSorted | src/components/table/tableUtils.ts:36-48 | sorting by `scores.<id>` gives scores non-decreasing for asc and non-increasing for desc |
| TableUtils.SortedByScore | src/components/table/tableUtils.ts:36-48 | a comparator that subtracts one parameter score from the other sorts by that score, rising for asc and falling for desc |
| TableUtils.OtherDottedKeyKeepsOrder | src/components/table/tableUtils.ts:38-50 | any other dotted key compares everything equal, so the filtered order is kept |
| TableView.NextSort | src/components/table/TableView.tsx:67-73 | requesting a key always sorts by that key |
| TableView.NextSortAlternates | src/components/table/TableView.tsx:67-73 | a new key sorts ascending; the direction is desc exactly when the same key was ascending; requesting the same key twice flips the direction |
| TableView.ScoreEditSpec | src/components/table/TableView.tsx:79-93 | an unknown id emits nothing; otherwise the emitted change replaces only `scoreKey` in the old scores and nothing else of the use case |
| TableView.StatusEditSpec | src/components/table/TableView.tsx:96-98 | a status change alters only the status |
| TableView.Table.constructor | src/components/table/TableView.tsx:29-33 | the table starts sorted by score, descending, with an empty search and no row in edit |
| TableView.Table.SetSearchQuery | src/components/table/TableView.tsx:29 | only the query changes |
| TableView.Table.RequestSort | src/components/table/TableView.tsx:67-73 | the sort becomes the next sort for the key |
| TableView.Table.HandleScoreChange | src/components/table/TableView.tsx:79-93 | an unknown id emits nothing; otherwise the score edit is emitted once |
| TableView.Table.HandleStatusChange | src/components/table/TableView.tsx:96-98 | the status edit is emitted once |
| TableView.Table.ToggleEditMode | src/components/table/TableView.tsx:101-111 | toggling the row in edit clears the edit; any other row becomes the one in edit |
| SmartFiltering.FilterCount | src/components/SmartFilteringSystem.tsx:55-60 | at most four filters are active, and none exactly when the query is empty, the status is all and no team or technology is chosen |
| SmartFiltering.CountActive | src/components/SmartFilteringSystem.tsx:55-60 | the counting steps give the number of active filters |
| SmartFiltering.FilterPipeline | src/components/SmartFilteringSystem.tsx:63-126 | the filter steps and the sort, run one after another, give the list the pipeline function describes |
| SmartFiltering.StepSpec | src/components/SmartFilteringSystem.tsx:63-94 | a switched-off step keeps the list, a switched-on one keeps exactly the entries passing it, always a subsequence |
| SmartFiltering.FilteredSpec | src/components/SmartFilteringSystem.tsx:63-94 | the pipeline keeps exactly the entries that pass every active filter, in order |
| SmartFiltering.SearchStepSpec | src/components/SmartFilteringSystem.tsx:66-75 | a non-blank query keeps entries whose lowercased title, description, business objective, a team or a technology contains it |
| SmartFiltering.StatusStepSpec | src/components/SmartFilteringSystem.tsx:78-80 | a status other than all keeps exactly the entries with that status |
| SmartFiltering.TeamStepSpec | src/components/SmartFilteringSystem.tsx:83-87 | chosen teams keep the entries sharing at least one of them |
| SmartFiltering.TechStepSpec | src/components/SmartFilteringSystem.tsx:90-94 | chosen technologies keep the entries sharing at least one of them |
| SmartFiltering.PipelinePermutes | src/components/SmartFilteringSystem.tsx:96-128 | the emitted list is a permutation of the filtered entries |
| SmartFiltering.BlankQueryCountsButKeepsAll | src/components/SmartFilteringSystem.tsx:55-75 | a whitespace-only query counts as a filter but removes nothing |
| SmartFiltering.ScoreSortOrder | src/components/SmartFilteringSystem.tsx:97-126 | sorting by score gives non-increasing scores for desc and non-decreasing for asc |
| SmartFiltering.MissingScoreComparesEqual | src/components/SmartFilteringSystem.tsx:104-113 | the impact or ease sort compares a pair as equal when either lacks that score, otherwise by the difference in the chosen direction |
| SmartFiltering.Toggled | src/components/SmartFilteringSystem.tsx:132-147 | toggling flips the membership of exactly that value |
| SmartFiltering.ToggleTwice | src/components/SmartFilteringSystem.tsx:132-147 | toggling twice restores the members, and the list itself when the value was absent |
| SmartFiltering.DistinctValues | src/components/SmartFilteringSystem.tsx:40-50 | the set-building loop gives every value that occurs, each once, in the order of first appearance |
| SmartFiltering.FirstAppearances | src/components/SmartFilteringSystem.tsx:40-50 | the values in the order of first appearance: exactly the values that occur, none twice |
| SmartFiltering.FlattenMembers | src/components/SmartFilteringSystem.tsx:40-50 | a value occurs in the joined lists exactly when it occurs in one of them |
| SmartFiltering.Panel.constructor | src/components/SmartFilteringSystem.tsx:29-37 | the panel starts with the default filters, count 0 and nothing emitted |
| SmartFiltering.Panel.CollectAvailable | src/components/SmartFilteringSystem.tsx:40-51 | the available teams and technologies are exactly those that occur in the use cases |
| SmartFiltering.Panel.ApplyFilters | src/components/SmartFilteringSystem.tsx:54-129 | the count is the number of active filters and the sorted, filtered list is emitted once |
| SmartFiltering.Panel.SetFilters | src/components/SmartFilteringSystem.tsx:29-34 | only the filter settings change |
| SmartFiltering.Panel.ToggleTeamFilter | src/components/SmartFilteringSystem.tsx:132-138 | the team filter is toggled for that team |
| SmartFiltering.Panel.ToggleTechFilter | src/components/SmartFilteringSystem.tsx:141-147 | the technology filter is toggled for that technology |
| SmartFiltering.Panel.ResetFilters | src/components/SmartFilteringSystem.tsx:150-157 | query empty, status all, no team or technology, sorted by score descending |
| UseCaseList.LevelValue | src/components/UseCaseList.tsx:70-86 | high, medium and low rank 3, 2 and 1, anything else 0 |
| UseCaseList.ShownSpec | src/components/UseCaseList.tsx:30-67 | the list shown is a permutation of the kept subsequence: entries with the chosen status (any for all) whose lowercased title, description, business objective, a team or a technology contains a non-blank query |
| UseCaseList.NothingFiltered | src/components/UseCaseList.tsx:30-50 | status all and a blank query show every use case |
| UseCaseList.ShownOrdered | src/components/UseCaseList.tsx:51-67 | the list is non-increasing in the chosen key: score (missing as 0), impact or ease rank, or last update (missing as 0) |
| UseCaseList.ShownStable | src/components/UseCaseList.tsx:51-67 | a list already in that order is shown as it is |
| Kanban.ColumnsPartition | src/components/KanbanView.tsx:80-83 | the four columns together hold exactly the use cases whose status is one of the four |
| Kanban.ColumnsKeepOrder | src/components/KanbanView.tsx:80-83 | each column is the subsequence of use cases with its status |
| Kanban.ColumnsShare | src/components/KanbanView.tsx:80-83 | for any four distinct statuses that are exactly the board's, the four filtered columns together hold each use case on the board once, and no other |
| Kanban.DropEditSpec | src/components/KanbanView.tsx:106-124 | no edit exactly for a drop outside a column or at the same place; otherwise an edit of the dragged use case that sets only its status, to the destination column |
| Kanban.ReorderWithinColumnChangesNothing | src/components/KanbanView.tsx:113-123 | moving a card within its column sends an edit that leaves the use case unchanged |
| Kanban.NextScrollSpec | src/components/KanbanView.tsx:94-96 | scrolling stays within the four columns: left stops at 0, right at 3 |
| Kanban.Board.constructor | src/components/KanbanView.tsx:86 | the board starts scrolled to 0 |
| Kanban.Board.HandleScroll | src/components/KanbanView.tsx:89-104 | without the container nothing changes; otherwise the position moves one column, clamped to [0, 3] |
| Kanban.Board.HandleDragEnd | src/components/KanbanView.tsx:106-124 | the drop edit is sent once when there is one |
| SimilarSuggestions.KeywordsSpec | src/components/SimilarUseCaseSuggestions.tsx:31-37 | a keyword is exactly a whitespace-separated word of the lowercased title or description longer than three characters and not one of the seven common words |
| SimilarSuggestions.SimilarityOf | src/components/SimilarUseCaseSuggestions.tsx:40-63 | the loop's score is ten per shared team, eight per shared technology and five per keyword found in the lowercased title and description |
| SimilarSuggestions.ScoredAll | src/components/SimilarUseCaseSuggestions.tsx:40-64 | each use case is paired, in order, with its similarity |
| SimilarSuggestions.UseCasesOf | src/components/SimilarUseCaseSuggestions.tsx:68 | the pairs' use cases, in order |
| SimilarSuggestions.GetSimilarUseCases | src/components/SimilarUseCaseSuggestions.tsx:26-69 | the method computes the suggestions the specification function describes |
| SimilarSuggestions.PositiveSorted | src/components/SimilarUseCaseSuggestions.tsx:65-66 | keeping positive scores and sorting gives exactly the positive pairs, highest score first |
| SimilarSuggestions.ScoredAllMembers | src/components/SimilarUseCaseSuggestions.tsx:40-64 | a pair is scored exactly when its use case is in the list and its score is that use case's similarity |
| SimilarSuggestions.RankedSpec | src/components/SimilarUseCaseSuggestions.tsx:39-66 | the ranking holds exactly the use cases with positive similarity, highest first |
| SimilarSuggestions.TopOf | src/components/SimilarUseCaseSuggestions.tsx:67-68 | at most three, the head of the ranking in order, and all of it when it has fewer than three |
| SimilarSuggestions.TopThreeSpec | src/components/SimilarUseCaseSuggestions.tsx:39-68 | at most three use cases, each from the list with positive similarity, highest first, and every similar one when fewer than three are shown |
| SimilarSuggestions.TopOfRanking | src/components/SimilarUseCaseSuggestions.tsx:65-68 | the first three of any ranking of the similar use cases, most similar first, are at most three similar use cases from the list in that order, and all of them when fewer than three are similar |
| SimilarSuggestions.SimilarSpec | src/components/SimilarUseCaseSuggestions.tsx:26-69 | an empty draft gives no suggestions; otherwise the top three of the ranking, each from the list with positive similarity, highest first |
| UseCaseForm.DefaultFormScoresSpec | src/hooks/useUseCaseForm.tsx:10-18 | the form's scores have exactly the seven score keys, each the initial use case's score when it has one and 3 otherwise |
| UseCaseForm.InitialFormSpec | src/components/UseCaseForm.tsx:35-54 | a new form has default scores and the current team; an edit form keeps the use case's title and non-empty team; the status is never empty; the hook's form has no team |
| UseCaseForm.LevelScoreRoundTrip | src/hooks/useUseCaseForm.tsx:65-127 | a level read back from its select score is the same level; a score survives the trip through its level exactly when it is 1, 3 or 5 (4 becomes 5, 2 becomes 3) |
| UseCaseForm.SelectChangeSpec | src/hooks/useUseCaseForm.tsx:65-94 | choosing impact or ease sets that level and its score (high 5, medium 3, anything else 1) and leaves every other score; any other field is set as given |
| UseCaseForm.ScoreChangeSpec | src/hooks/useUseCaseForm.tsx:96-127 | a score change sets that score alone, and for impact or ease also the level (4 and up high, 2 and up medium, else low); the select then agrees with the score exactly when it is 1, 3 or 5 |
| UseCaseForm.AddTagSpec | src/hooks/useUseCaseForm.tsx:136-161 | a tag is added exactly when the trimmed input is non-blank and new, at the end and trimmed, clearing the input; the list stays free of duplicates and removing the tag undoes the addition |
| UseCaseForm.RemovedAppended | src/hooks/useUseCaseForm.tsx:146-151 | removing a tag just appended gives the list back |
| UseCaseForm.RemoveTagSpec | src/hooks/useUseCaseForm.tsx:146-168 | removal keeps, in order, exactly the other tags, and leaves a list without the tag unchanged |
| UseCaseForm.FromTemplateSpec | src/hooks/useUseCaseForm.tsx:182-199 | a template's copy has the title with " (Copy)" added, backlog status, the same scores, teams and technologies, and no team owner |
| UseCaseForm.SelectionReshowsAsWritten | src/hooks/useUseCaseForm.tsx:44-58 | choosing a suggestion that changes a watched field leaves the suggestions shown, because the effect runs after the hide |
| UseCaseForm.AfterEffectKeepsInStep | src/hooks/useUseCaseForm.tsx:44-58 | the panel is shown exactly when not editing and the form is relevant, and every change keeps that so |
| UseCaseForm.SubmissionSpec | src/components/UseCaseForm.tsx:189-206 | an update is sent exactly when editing an existing use case, and to that one; a form without a team is sent with the current team, one with a team keeps it |
| UseCaseForm.SubmittedImpactScore | src/hooks/useUseCases.tsx:105-112 | an impact score of 4 or 2 set on the form is stored as 5 or 3 by the as-written update, and as set by the corrected one |
| UseCaseForm.SubmittedImpactScoreAt | src/hooks/useUseCases.tsx:105-112 | for any impact score set on the form, the as-written update stores the level's select score and the corrected one stores the score itself |
| UseCaseForm.SuggestionCandidatesSpec | src/components/UseCaseForm.tsx:231-236 | when editing, every use case but the one edited, in order; otherwise all of them |
| UseCaseForm.FormState.constructor | src/components/UseCaseForm.tsx:35-77 | the form starts from its initial data, with empty tag inputs and the panel shown exactly when not editing and relevant |
| UseCaseForm.FormState.SetForm | src/hooks/useUseCaseForm.tsx:20-58 | the form is replaced and the panel follows the effect |
| UseCaseForm.FormState.HandleInputChange | src/hooks/useUseCaseForm.tsx:60-63 | the named text field is set, nothing else |
| UseCaseForm.FormState.HandleSelectChange | src/hooks/useUseCaseForm.tsx:65-94 | the select change is applied and the panel follows the effect |
| UseCaseForm.FormState.HandleScoreChange | src/hooks/useUseCaseForm.tsx:96-127 | the score change is applied; the panel is untouched |
| UseCaseForm.FormState.UpdateRoleAllocations | src/hooks/useUseCaseForm.tsx:129-134 | only the role allocations change |
| UseCaseForm.FormState.SetTeamInput | src/hooks/useUseCaseForm.tsx:38 | only the team input changes |
| UseCaseForm.FormState.SetTechInput | src/hooks/useUseCaseForm.tsx:39 | only the technology input changes |
| UseCaseForm.FormState.AddTeam | src/hooks/useUseCaseForm.tsx:136-144 | the team list and input become the tag addition's result, nothing else in the form changes |
| UseCaseForm.FormState.RemoveTeam | src/hooks/useUseCaseForm.tsx:146-151 | the team is removed from the list, nothing else changes |
| UseCaseForm.FormState.AddTechnology | src/hooks/useUseCaseForm.tsx:153-161 | the technology list and input become the tag addition's result |
| UseCaseForm.FormState.RemoveTechnology | src/hooks/useUseCaseForm.tsx:163-168 | the technology is removed from the list, nothing else changes |
| UseCaseForm.FormState.HandleSubmit | src/components/UseCaseForm.tsx:189-206 | one submission of the form (with the team fallback in the component), and the completion callback when there is one |
| UseCaseForm.FormState.HandleSuggestionSelectAsWritten | src/hooks/useUseCaseForm.tsx:182-203 | the form becomes the template copy and the panel ends as the effect leaves it, not hidden |
| UseCaseForm.FormState.HandleSuggestionSelect | src/hooks/useUseCaseForm.tsx:182-203 | the form becomes the template copy and the panel is hidden |
| Challenges.IdsOf | src/hooks/useChallenges.tsx:31-33 | the challenges' ids, in order |
| Challenges.NewChallengeSpec | src/hooks/useChallenges.tsx:41-54 | a new challenge has the given id and time as both stamps, is not selected, takes the form's title, status and scores, and the current team when the form names none |
| Challenges.UpdatedSpec | src/hooks/useChallenges.tsx:61-72 | the list keeps its length, ids and creation times; the challenge with the id is merged and stamped, every other one is unchanged |
| Challenges.MergeSpec | src/hooks/useChallenges.tsx:64-68 | every field present in the update replaces the old one, every absent one is kept; id and creation time are kept and the stamp is the given time |
| Challenges.UpdatedTwice | src/hooks/useChallenges.tsx:61-72 | applying the same update twice at the same time is applying it once |
| Challenges.DeletedSpec | src/hooks/useChallenges.tsx:75-77 | deletion keeps, in order, exactly the challenges with another id, and changes nothing when no challenge has the id |
| Challenges.AddThenDelete | src/hooks/useChallenges.tsx:41-77 | deleting a challenge just added with a fresh id gives the list back |
| Challenges.AutoSelectedSpec | src/hooks/useChallenges.tsx:80-97 | the two passes amount to one: afterwards a challenge is selected exactly when its id is among those given |
| Challenges.AutoSelectedIdempotent | src/hooks/useChallenges.tsx:80-97 | auto-selecting the same ids again changes nothing |
| Challenges.SelectAllCons | src/hooks/useChallenges.tsx:88-96 | selection works challenge by challenge |
| Challenges.ShownSelectAll | src/hooks/useChallenges.tsx:26-28 | selecting then keeping the team's challenges is keeping them then selecting |
| Challenges.SelectedOfSelectAllEntries | src/hooks/useChallenges.tsx:31-33 | after selection, the selected challenges are exactly those whose id was given, in order |
| Challenges.SelectedOfSelectAll | src/hooks/useChallenges.tsx:31-33 | after selection, the selected ids are the given ids that occur, in list order |
| Challenges.SelectedAfterAutoSelect | src/hooks/useChallenges.tsx:26-33 | after auto-selection, the selected ids are those of the shown challenges whose id was given |
| Challenges.ShownSpec | src/hooks/useChallenges.tsx:26-28 | in team view with a team, exactly the team's challenges in order; otherwise all of them |
| Challenges.SelectedIdsSpec | src/hooks/useChallenges.tsx:31-33 | an id is selected exactly when a shown challenge with it is selected |
| Challenges.ChallengeStore.constructor | src/hooks/useChallenges.tsx:8-12 | the store starts with the saved challenges and the team context |
| Challenges.ChallengeStore.AddChallenge | src/hooks/useChallenges.tsx:41-58 | the new challenge is appended and returned |
| Challenges.ChallengeStore.UpdateChallenge | src/hooks/useChallenges.tsx:61-72 | the list becomes the updated list |
| Challenges.ChallengeStore.DeleteChallenge | src/hooks/useChallenges.tsx:75-77 | the list loses the challenges with the id |
| Challenges.ChallengeStore.AutoSelectChallenges | src/hooks/useChallenges.tsx:80-97 | every challenge is selected exactly when its id is given, and the selected ids become those of the shown challenges whose id was given |
| ChallengeAutoSelector.PreviewSpec | src/components/ChallengeAutoSelector.tsx:40-52 | the preview keeps, in order, exactly the challenges with scores meeting all three thresholds (3 each by default) |
| ChallengeAutoSelector.StricterFiltersAgain | src/components/ChallengeAutoSelector.tsx:40-52 | under stricter thresholds the preview is the old preview filtered again |
| ChallengeAutoSelector.RaisingNeverAdds | src/components/ChallengeAutoSelector.tsx:40-52 | raising a threshold never adds a challenge to the preview |
| ChallengeAutoSelector.ApplySelectsPicked | src/components/ChallengeAutoSelector.tsx:56-60 | with distinct ids, applying selects exactly the challenges that meet the thresholds |
| ChallengeAutoSelector.TeamViewClearsOtherTeams | src/hooks/useChallenges.tsx:80-97 | applying in team view deselects every other team's challenge, which the preview never showed |
| ChallengeAutoSelector.ShowIntInjective | src/components/ChallengeAutoSelector.tsx:75 | distinct numbers are written differently |
| ChallengeAutoSelector.SignShown | src/components/ChallengeAutoSelector.tsx:75 | a number's text is non-empty and starts with a minus exactly when it is negative |
| ChallengeAutoSelector.ScoreLabelSpec | src/components/ChallengeAutoSelector.tsx:62-77 | scores 1 to 5 get a name with the score in brackets, any other gets "Score: " and the number, and distinct scores get distinct labels |
| ChallengeAutoSelector.LabelInitial | src/components/ChallengeAutoSelector.tsx:62-77 | a label starts with S exactly for a score outside 1 to 5 |
| ChallengeAutoSelector.Selector.constructor | src/components/ChallengeAutoSelector.tsx:31-37 | thresholds start at 3, closed |
| ChallengeAutoSelector.Selector.SetImpact | src/components/ChallengeAutoSelector.tsx:114-116 | only the impact threshold changes |
| ChallengeAutoSelector.Selector.SetFeasibility | src/components/ChallengeAutoSelector.tsx:133-137 | only the feasibility threshold changes |
| ChallengeAutoSelector.Selector.SetPriority | src/components/ChallengeAutoSelector.tsx:155-159 | only the priority threshold changes |
| ChallengeAutoSelector.Selector.SetOpen | src/components/ChallengeAutoSelector.tsx:37 | only the open flag changes |
| ChallengeAutoSelector.Selector.ApplyAutoSelection | src/components/ChallengeAutoSelector.tsx:56-60 | the preview's ids are emitted once and the popover closes |
| ChallengeList.SelectedFirstOrder | src/components/ChallengeList.tsx:42-49 | a challenge may come first exactly when it is selected and the other not, or both are alike and it is newer or as new |
| ChallengeList.SelectedFirstConsistent | src/components/ChallengeList.tsx:42-49 | the comparator is total and transitive on any list |
| ChallengeList.RenderedSpec | src/components/ChallengeList.tsx:31-49 | an empty list shows only the notice; otherwise the cards are a permutation with selected ones first and newer first within each group |
| ChallengeList.OrderedRenderedAsIs | src/components/ChallengeList.tsx:42-49 | a list already in that order is shown as it is |
| ChallengeForm.SubmittedSpec | src/components/ChallengeForm.tsx:42-56 | a non-blank title is sent trimmed and non-empty, with the category and scores as set, the initial status or backlog, and the current team for a new challenge |
| ChallengeForm.EditUntouchedRoundTrip | src/components/ChallengeForm.tsx:22-56 | editing a challenge with a trimmed title, a status, scores and a team and submitting it untouched changes only its update time |
| ChallengeForm.EditGivesDefaultScores | src/components/ChallengeForm.tsx:24-28 | editing a challenge without scores gives it 3, 3, 3 |
| ChallengeForm.ChallengeFormState.constructor | src/components/ChallengeForm.tsx:22-28 | the form starts from the initial challenge, scores 3, 3, 3 when it has none |
| ChallengeForm.ChallengeFormState.SetTitle | src/components/ChallengeForm.tsx:22 | only the title changes |
| ChallengeForm.ChallengeFormState.SetCategory | src/components/ChallengeForm.tsx:23 | only the category changes |
| ChallengeForm.ChallengeFormState.HandleScoreChange | src/components/ChallengeForm.tsx:69-71 | only the scores change |
| ChallengeForm.ChallengeFormState.HandleSubmit | src/components/ChallengeForm.tsx:42-67 | nothing for a blank title; otherwise one submission, and a new-challenge form is cleared while an edit form is kept |
| Csv.Escape | src/lib/excelExport.ts:74 | escaping never shortens a text |
| Csv.ReadQuoted | src/lib/excelExport.ts:74-75 | reading an enclosed field always leaves less than it was given |
| Csv.ReadBare | src/components/roadmap/ExportOptions.tsx:28 | a bare field and its rest make up the text; the field has no comma and the rest starts at one |
| Csv.Texts | src/lib/excelExport.ts:71-77 | the fields' texts, in order |
| Csv.ReadQuotedEscape | src/lib/excelExport.ts:74-75 | an escaped text followed by a closing quote reads back as the text, stopping after the quote |
| Csv.UnquoteQuote | src/lib/excelExport.ts:74-75 | a quoted field reads back as its text |
| Csv.ReadBareOf | src/components/roadmap/ExportOptions.tsx:28 | a bare text without commas reads back as itself, stopping at the comma after it |
| Csv.FirstField | src/lib/excelExport.ts:71-77 | a record's first field reads back as its text, and reading goes on after the comma |
| Csv.ParseRecord | src/lib/excelExport.ts:71-77 | a well-formed record reads back as its fields' texts |
| Csv.EscapeChars | src/lib/excelExport.ts:74 | escaping adds and removes no character other than quotes |
| Csv.RecordNoBreak | src/lib/excelExport.ts:77 | a record has a line break only where a field has one |
| Csv.BreaksConcat | src/lib/excelExport.ts:68-78 | line breaks of joined texts add up |
| Csv.NoBreaks | src/lib/excelExport.ts:68-78 | a text without line feeds counts none |
| ExcelExport.WeightRow | src/lib/excelExport.ts:35-58 | the weight row has one cell per column |
| ExcelExport.UseCaseRow | src/lib/excelExport.ts:11-32 | a use case row has one cell per column: the title first, the score to one decimal, an empty impact cell exactly when there is no impact score, and both dates always formatted |
| ExcelExport.Worksheet | src/lib/excelExport.ts:61-64 | the sheet has the weight row and one row per use case |
| ExcelExport.WorksheetRows | src/lib/excelExport.ts:61-64 | the first row is the weight row, headed by its title, and row i + 1 is the row of use case i |
| ExcelExport.Cells | src/lib/excelExport.ts:71-76 | one quoted field per cell |
| ExcelExport.LinesSnoc | src/lib/excelExport.ts:70-78 | the lines of a sheet are those of all rows but the last, then the last one's |
| ExcelExport.ExportToExcel | src/lib/excelExport.ts:4-78 | the method computes the file text the specification function describes, or the error |
| ExcelExport.WriteRows | src/lib/excelExport.ts:68-78 | the loop writes the header, a line break, then one line per row |
| ExcelExport.ExcelCsvSpec | src/lib/excelExport.ts:4-78 | exporting fails exactly for no use cases, with its message; otherwise the weight row comes first, then each use case's row in order, after the header line |
| ExcelExport.RecordReadsBack | src/lib/excelExport.ts:70-77 | every row reads back as its cells' texts, whatever they hold |
| ExcelExport.CellTextSpec | src/lib/excelExport.ts:72-75 | an empty, zero or missing value is written empty, text and non-zero numbers as themselves, and every cell reads back through its quotes |
| ExcelExport.ZeroWeightEmpty | src/lib/excelExport.ts:46 | a zero impact weight is written as an empty cell |
| ExcelExport.LinesBreaks | src/lib/excelExport.ts:70-78 | with no line break inside a cell, the rows end in exactly as many line feeds as there are rows |
| ExcelExport.LineCount | src/lib/excelExport.ts:61-78 | with no line break inside a cell, the file has one line per use case plus the header and the weight row |
| ExcelExport.JoinedNoBreak | src/lib/excelExport.ts:68 | joining texts without line feeds gives none |
| ExcelExport.HeaderNoBreak | src/lib/excelExport.ts:67-68 | the header line has no line feed |
| ExportOptions.Labelled | src/components/roadmap/ExportOptions.tsx:19-22 | each item, in order, with the phase caption |
| ExportOptions.PhaseIds | src/components/roadmap/ExportOptions.tsx:16 | the phases' ids, in order |
| ExportOptions.FieldsAsWritten | src/components/roadmap/ExportOptions.tsx:28 | the line as written has seven fields |
| ExportOptions.Fields | src/components/roadmap/ExportOptions.tsx:28 | the corrected line has seven fields |
| ExportOptions.RoadmapLinesSnoc | src/components/roadmap/ExportOptions.tsx:27-29 | the lines of the first i+1 items are those of the first i, then the next one's as the source writes it |
| ExportOptions.ExportRoadmap | src/components/roadmap/ExportOptions.tsx:15-29 | the method computes the file text as the source writes it: titles and descriptions between quotes, quotes inside them not doubled |
| ExportOptions.WriteLines | src/components/roadmap/ExportOptions.tsx:25-29 | the loop writes the header, a line break, then one line per item as the source writes it |
| ExportOptions.ListedAsCons | src/components/roadmap/ExportOptions.tsx:16-23 | an item is listed under a caption exactly when the first phase has its id and that caption, or a later one lists it |
| ExportOptions.BlockMembers | src/components/roadmap/ExportOptions.tsx:17-22 | a phase's block holds exactly the items in that phase, with its caption |
| ExportOptions.ExportItemsMembers | src/components/roadmap/ExportOptions.tsx:16-23 | an entry is exported exactly when its item is on the roadmap and a phase with the item's phase id has the entry's caption |
| ExportOptions.ListedCount | src/components/roadmap/ExportOptions.tsx:16-23 | with distinct phase ids, the items in some phase are those in the first plus those in a later one |
| ExportOptions.ExportCount | src/components/roadmap/ExportOptions.tsx:16-23 | with distinct phase ids, every item in a listed phase is exported once and no other item is |
| ExportOptions.ItemsOf | src/components/roadmap/ExportOptions.tsx:19-22 | the entries' items, in order |
| ExportOptions.ItemsOfConcat | src/components/roadmap/ExportOptions.tsx:16 | the items of joined blocks are joined |
| ExportOptions.DistinctRest | src/components/roadmap/ExportOptions.tsx:16 | later phases stay distinct and none of them lists the first phase's id |
| ExportOptions.PhaseOrderKept | src/components/roadmap/ExportOptions.tsx:16-23 | with distinct phase ids, the items exported for a phase are that phase's items in roadmap order |
| ExportOptions.LineReadsBack | src/components/roadmap/ExportOptions.tsx:28 | a corrected line whose bare fields are plain reads back as its seven texts |
| ExportOptions.EscapeWithoutQuotes | src/components/roadmap/ExportOptions.tsx:28 | escaping a text without quotes changes nothing |
| ExportOptions.RecordSameEncodings | src/components/roadmap/ExportOptions.tsx:28 | fields written alike give the same record |
| ExportOptions.AsWrittenAgreesWithoutQuotes | src/components/roadmap/ExportOptions.tsx:28 | without quotes in the caption, title or description, the line as written is the corrected line |
| ExportOptions.UnclosedField | src/components/roadmap/ExportOptions.tsx:28 | a field that never closes does not read |
| ExportOptions.BareRecordNoQuote | src/components/roadmap/ExportOptions.tsx:28 | bare fields without quotes give a record without quotes |
| ExportOptions.LoneQuoteUnclosed | src/components/roadmap/ExportOptions.tsx:28 | a record starting with an enclosed lone quote and an empty enclosed field does not read |
| ExportOptions.LoneQuoteRecord | src/components/roadmap/ExportOptions.tsx:28 | a line as written whose title is a lone quote and whose description is empty does not read |
| ExportOptions.QuoteInTitleBreaksLine | src/components/roadmap/ExportOptions.tsx:28 | for a title that is a lone quote and an empty description, the line as written does not read while the corrected one reads back |
| Text.TrimStart | src/components/SmartFilteringSystem.tsx:66 | the result is a suffix of the text, what it drops is whitespace, and it does not start with whitespace |
| Text.TrimEnd | src/components/SmartFilteringSystem.tsx:66 | the result is a prefix of the text, what it drops is whitespace, and it does not end with whitespace |
| Text.Trim | src/components/SmartFilteringSystem.tsx:66 | the result is no longer than the text and neither starts nor ends with whitespace |
| Text.TrimEmptyIffBlank | src/components/SmartFilteringSystem.tsx:66 | trimming gives the empty text exactly when the text is whitespace only |
| Text.TrimIdempotent | src/components/table/tableUtils.ts:19 | trimming a trimmed text changes nothing |
| Text.LowerChar | src/components/SmartFilteringSystem.tsx:67 | A to Z move to a to z, every other character is kept |
| Text.Lower | src/components/SmartFilteringSystem.tsx:67 | the same length, A to Z lowercased in place and every other character kept |
| Text.LowerIdempotent | src/components/SmartFilteringSystem.tsx:67 | a lowercased text has no capital letter, and lowercasing it again changes nothing |
| Text.IncludesAt | src/components/SmartFilteringSystem.tsx:69-73 | `includes` holds exactly when the searched text occurs at some position |
| Text.IncludesEmpty | src/components/SmartFilteringSystem.tsx:69-73 | the empty text is included in every text |
| Text.IncludesSlice | src/components/SmartFilteringSystem.tsx:69-73 | every slice of a text is included in it |
| Text.SplitWhitespace | src/components/SimilarUseCaseSuggestions.tsx:33-34 | splitting on whitespace always gives at least one piece |
| Text.SplitWhitespacePieces | src/components/SimilarUseCaseSuggestions.tsx:33-34 | no piece holds whitespace, and the pieces joined are the text with its whitespace removed |
| Text.LeadingDigits | src/hooks/useRoadmapState.ts:70 | the leading run of digits: a prefix of the text, all digits, followed by a non-digit or the end |
| Text.ShowNat | src/hooks/useRoadmapState.ts:70-71 | a number is written as a non-empty run of digits |
| Text.ShowNatValue | src/hooks/useRoadmapState.ts:70-71 | the digits written for a number read back as that number |
| Text.FirstNumber | src/hooks/useRoadmapState.ts:70 | matching the first run of digits fails exactly when the text holds no digit |
| Text.FirstNumberIsFirstRun | src/hooks/useRoadmapState.ts:70-71 | the first run of digits is the one starting at the first digit, and its value is the match |
| Text.FirstNumberOfShown | src/hooks/useRoadmapState.ts:70-71 | a written number followed by a non-digit matches as that number |
| Text.LeadingDigitsOfShown | src/hooks/useRoadmapState.ts:70 | digits followed by a non-digit are exactly the leading run |
| Text.ParseInt | src/components/roadmap/RoadmapItem.tsx:45 | `parseInt` of a blank text is not a number |
| Text.ReadDigits | src/components/roadmap/RoadmapItem.tsx:45 | reading digits never counts fewer than it started with |
| Text.ReadDecimalDigits | src/components/roadmap/RoadmapItem.tsx:45 | reading decimal digits followed by a non-digit adds their value, shifted past the accumulated one, and counts them |
| Text.DigitsValueFront | src/components/roadmap/RoadmapItem.tsx:45 | the first digit weighs its power of ten, the rest their own value |
| Text.ParseMagnitudeDecimal | src/components/roadmap/RoadmapItem.tsx:45 | an unsigned run of decimal digits, not followed by a digit or an x, reads as its value |
| Text.ParseIntOfDigits | src/components/roadmap/RoadmapItem.tsx:45 | `parseInt` of digits followed by a non-digit that is not an x gives their value |
| Text.ParseIntUnsigned | src/components/roadmap/RoadmapItem.tsx:45 | a text starting with a digit parses as its unsigned magnitude, and fails when that fails |
| Text.ParseIntOfShown | src/components/roadmap/RoadmapItem.tsx:45 | `parseInt` of a written number gives that number back |
| Seqs.Sort | src/components/table/tableUtils.ts:36-48 | sorting gives a permutation of its input |
| Seqs.SortSorted | src/components/table/tableUtils.ts:36-48 | with a comparator that is a total preorder on the entries, the sorted list is ordered by it |
| Seqs.SortKeepsOrder | src/components/table/tableUtils.ts:36-48 | a list already in order is left as it is, so equal entries keep their order |
| Seqs.Filter | src/components/KanbanView.tsx:80 | `filter` keeps exactly the entries that pass, never adding any |
| Seqs.FilterIsSubsequence | src/components/KanbanView.tsx:80 | `filter` keeps the entries in their order |
| Seqs.Take | src/components/SimilarUseCaseSuggestions.tsx:67 | `slice(0, n)` gives a prefix of at most n entries, the whole list when it is no longer |
| Seqs.RemoveAt | src/hooks/useRoadmapState.ts:214 | `splice(i, 1)` removes exactly the entry at i: one shorter, one copy of that entry fewer, the entries before it in place and the ones after it moved up by one |
| Seqs.InsertAt | src/hooks/useRoadmapState.ts:215 | `splice(i, 0, x)` puts x at i, or at the end when i is past it, keeping the entries before it: one longer, one copy of x more |

## Left out

- Persistence: loading from and saving to `localStorage`, and the JSON parsing and date normalisation on load. The stores start from a given list. The one normalisation rule that matters for scores (a stored non-zero score is kept) is modelled in `UseCases.Normalize`.
- The simulated loading delay (`isLoading` with a one-second timer) in the use-case and challenge hooks.
- Identifier generation (`uuid`) and `new Date()`: both are parameters (`id`, `now`). The fresh-id requirement on `UseCases.UseCaseStore.AddUseCase` and `ParameterManager.Editor.HandleAddParameter` stands for what `uuid` guarantees.
- Number and date formatting: `toFixed(1)`, `toLocaleDateString` and JavaScript's number-to-string are formatter parameters. The model does not fix their output.
- Floating point: weights, FTE and scores are exact reals. IEEE rounding of the weighted mean and `NaN` from `parseInt` on non-numeric text are not modelled. `Math.round` is modelled on reals as rounding half up.
- `localeCompare`: a comparator parameter. Sortedness under it is proved only where it is a total preorder on the list.
- The team context: the current team and the team-view flag are fixed per store and form. Switching teams is not modelled.
- Rendering, toasts, dialogs, the placeholder rotation in the challenge form, tabs, and the Challenges page's view toggle.
- The Blob download, the PDF export (`html2canvas`, `jsPDF`) and the anchor element in both exporters. Only the CSV text is modelled.
- The canvas priority matrix and its hit-testing, the seed data, authentication, routing and projects.
- React scheduling: each handler is one atomic step. The suggestion-visibility effect is modelled as running after each change to the fields it watches, which is what makes the re-show in the findings visible.
- `linkedUseCases` and the project and owner fields that no modelled operation reads.
- RoadmapState.PhaseForPercentile: follows the code's cut-offs at 0.33 and 0.66 for the timeline and list views, not exact thirds.
- RoadmapState.Board.HandleDragEnd: requires the drag's source index to lie within the list it came from. The drag-and-drop library only reports such indexes; the source would throw on any other.
- ParameterManager.Editor.MoveParameterUp: requires an index within the list, as every rendered row's button passes; the same holds for MoveParameterDown.
- RoadmapCard.Card.UpdateRole: requires an index within the role list, as the rendered rows pass; the source would throw on any other. The same holds for UpdateRoleFte, RoleAllocations.HandleRoleChange and RoleAllocations.HandleFteChange.
- Optional text fields: `businessObjective`, `expectedOutcome`, `successCriteria`, `estimatedTime` and `estimatedResources` are optional in the use-case record but plain strings here, because the seed data and the form always supply them. The failures an absent one would cause are not modelled: `toLowerCase` on an absent business objective in the table and smart-filter searches, the `.match` on `undefined` when reading weeks, and an absent expected outcome or success criteria copied as `undefined` from a chosen suggestion (src/hooks/useUseCaseForm.tsx:193-194, src/components/UseCaseForm.tsx:219-220).
- UseCaseForm.AfterEffect: the effect runs when the watched fields differ by value, where React compares its dependencies by identity. A field set again to an equal value that is a new object would run the effect in the source and not here.
- The delete confirmation in the parameter manager (`confirmDeleteId` and its dialog): the model deletes at once, as the confirmed dialog does; a cancelled dialog changes nothing.
- SimilarSuggestions.GetSimilarUseCases: the keyword test is the JavaScript `includes` on the lowercased title and description. Unicode case folding beyond ASCII is not modelled (`Text.Lower` maps A to Z only).
- Text.LowerChar: lowercases A to Z only and keeps every other character, where `toLowerCase` also lowercases the rest of Unicode (À to à, Σ to σ, and the special cases such as final sigma).
- Text.Lower: applies `Text.LowerChar` to each character, so it is ASCII-only lowercasing. It stands for `toLowerCase` in all four searches: `TableUtils.Searched` (src/components/table/tableUtils.ts:21-28), `UseCaseList.Keep` (src/components/UseCaseList.tsx:39-45), `SmartFiltering.SearchMatches` (src/components/SmartFilteringSystem.tsx:67-73) and the keywords and similarity text of `SimilarSuggestions` (src/components/SimilarUseCaseSuggestions.tsx:33-34, 56). A query "é" finds a title "École" in the source and not in the model.
- UseCaseForm.Relevant: string lengths are counted in Unicode scalar values, where JavaScript's `.length` counts UTF-16 code units. A title of two emoji has length 4 in the source, so the form is relevant there (src/hooks/useUseCaseForm.tsx:52-53, src/components/UseCaseForm.tsx:71-72), and length 2 here, so it is not. The same holds for the description's length.
- SimilarSuggestions.KeywordsSpec: the keyword test `word.length > 3` (src/components/SimilarUseCaseSuggestions.tsx:36) is modelled as more than three scalar values, so a word with characters outside the Basic Multilingual Plane can be a keyword in the source and not in the model.

## Findings

| source | as written | input that shows it | evidently intended | confidence | as-written member | corrected member |
|---|---|---|---|---|---|---|
| src/hooks/useUseCases.tsx:105-112 | an update that carries both scores and the legacy impact level overwrites the impact score with the level's mapping, and the form always sends the level derived from the score (src/hooks/useUseCaseForm.tsx:99-107) | edit a use case and set impact to 4: the form sends score 4 and level "high", and 5 is stored | the score chosen on the form is stored | high, not executed | UseCases.LegacyOverrideAsWritten, UseCases.UseCaseStore.UpdateUseCase | UseCases.UpdatedScoresKeepsChoice |
| src/hooks/useRoadmapState.ts:208-222 | a reorder inside the available list takes the `else` branch, finds no item and appends `undefined` to the roadmap items; the loop after it then reads `item.id` of `undefined` | drag an available use case to another position in the available list | a drag within the available list changes nothing | medium, not executed | RoadmapState.AvailableReorderAsWritten | RoadmapState.Board.HandleDragEnd |
| src/components/roadmap/ExportOptions.tsx:28 | phase, title and description are put between quotes without doubling the quotes inside them | a use case titled `"` with an empty description: its line does not read back as a record | quotes inside a field are doubled, as the spreadsheet export does | high, not executed | ExportOptions.QuoteInTitleBreaksLine, ExportOptions.ExportRoadmap | ExportOptions.LineReadsBack |
| src/hooks/useUseCaseForm.tsx:182-203 | choosing a suggestion hides the panel, but the new form changes the title, so the visibility effect runs next and shows the panel again | a new use case form; choose any suggested use case: the copy's title has more than three characters | the panel stays hidden after a suggestion is chosen | medium, not executed | UseCaseForm.SelectionReshowsAsWritten | UseCaseForm.FormState.HandleSuggestionSelect |
