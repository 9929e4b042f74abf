# Mergify engine core: merge train and pull request context

A Dafny model of two parts of the Mergify engine.

**The merge train.** This is the speculative-merge queue of one branch.

- Queued pull requests wait in priority order.
- The first `speculative_checks` pulls of the head pull's queue rule each get a *car*. A car is a throwaway pull request that tests the pull on top of every pull before it.
- Adding a pull, removing one (merged or not) and refreshing change the cars.
- A train is saved to and loaded from a key-value store.

The train's implementation file, `merge_train.py`, is not part of this model. The train is modelled from the behaviour its unit tests assert. Each test scenario is replayed as a lemma on the model:

- `add_pull`;
- `remove_pull`;
- `refresh`;
- `save`/`load`;
- the `get_cars_content` and `get_waiting_content` readings.

General invariants of those operations are proved alongside.

**The pull request context.** These are the values rule conditions read about a pull request:

- consolidated reviews, which keep only reviews by bots or by users with write permission, and only each user's latest review of each kind;
- consolidated check runs and commit statuses, where the newest check run wins and a status overrides a check run;
- the attribute resolver, with its known names, its list attributes and the `_` to `-` spelling;
- expansion of `@team` and `@org/team` mentions;
- the order in which configuration files are looked for;
- the readiness test for pull request data.

Python dictionaries are insertion-ordered. A re-assigned key keeps its first position, and the last value assigned wins. `OrderedDict` models this once, against an independent reference definition. The reviews and checks modules build on it.

Files:

| file | module | content |
|---|---|---|
| `wrappers.dfy` | `Wrappers` | `Option`, `Result` |
| `queue_config.dfy` | `QueueConfig` | queue rules and per-pull queue configuration |
| `merge_train.dfy` | `MergeTrain` | the train: cars, waiting pulls, add, remove, refresh |
| `train_properties.dfy` | `TrainProperties` | invariants of the train operations |
| `train_store.dfy` | `TrainStore` | JSON-like encoding, schema-checked decoding, save and load |
| `train_scenarios.dfy` | `TrainScenarios` | the unit-test scenarios, replayed |
| `ordered_dict.dfy` | `OrderedDict` | insertion-ordered dictionaries |
| `checks.dfy` | `Checks` | consolidated check runs and statuses; updating a check run |
| `reviews.dfy` | `Reviews` | write permission, valid reviewers, consolidated reviews |
| `teams.dfy` | `Teams` | `_resolve_login`, `resolve_teams` |
| `pull_attributes.dfy` | `PullAttributes` | `_get_consolidated_data`, `ATTRIBUTES`, `LIST_ATTRIBUTES`, `__getattr__` |
| `config_files.dfy` | `ConfigFiles` | candidate configuration paths and their order |
| `readiness.dfy` | `Readiness` | `_is_data_complete`, `_is_background_github_processing_completed`, one `_ensure_complete` attempt |

## Model

| member | source | states |
|---|---|---|
| QueueConfig.MakeConfig | mergify_engine/tests/unit/test_train.py:184-200 | the configuration keeps the rule's name and width and the user priority; with rule rank 0 the effective priority is the user priority |
| QueueConfig.RulePriorityDominates | mergify_engine/tests/unit/test_train.py:184-200 | a pull of a higher-ranked rule sorts before a pull of a lower-ranked rule, whatever their user priorities below the offset |
| MergeTrain.AddPull | mergify_engine/tests/unit/test_train.py:204-217 | re-adding a queued pull only replaces its configuration in place: pulls and car contents are unchanged; a new pull is inserted at its priority position and only the cars before that position are kept |
| MergeTrain.RemovePull | mergify_engine/tests/unit/test_train.py:236-306 | removing an absent pull changes nothing; a merged head drops only its own car; any other removal takes the pull out of the queue and keeps only the cars before it |
| MergeTrain.Refresh | mergify_engine/tests/unit/test_train.py:204-232 | the queue is unchanged; the number of cars is the width of the head's rule, capped by the queue length; kept cars are untouched; new cars get their throwaway pull from the materializer; the first new car is based on the last kept car's content, and each later one on the car before it |
| MergeTrain.FillCars | mergify_engine/tests/unit/test_train.py:204-232 | adds as many cars as there are free places and waiting pulls, front of the queue first, chained onto the last existing car, without changing the queue |
| MergeTrain.CarsContent | mergify_engine/tests/unit/test_train.py:149-153 | no contract; each car reads as its parents followed by its own pull, characterised by TrainProperties.RootedCarsArePrefixes and the scenario lemmas |
| MergeTrain.WaitingContent | mergify_engine/tests/unit/test_train.py:156-157 | no contract; the waiting pull numbers in order, characterised by the scenario lemmas |
| MergeTrain.BuildCars | mergify_engine/tests/unit/test_train.py:149-153 | new cars cover exactly the waiting pulls given, the first builds on the base content, and each extends the previous car's content |
| TrainProperties.AddPullPreservesValid | mergify_engine/tests/unit/test_train.py:204-217 | adding keeps every pull queued once and the cars chained |
| TrainProperties.RemovePullPreservesValid | mergify_engine/tests/unit/test_train.py:223-225 | removing keeps every pull queued once and the cars chained |
| TrainProperties.RefreshPreservesValid | mergify_engine/tests/unit/test_train.py:204-232 | refreshing keeps every pull queued once and the cars chained |
| TrainProperties.RefreshWidthBound | mergify_engine/tests/unit/test_train.py:361-365 | after a refresh there are never more cars than the head rule's width; while pulls still wait, the width is filled exactly |
| TrainProperties.RefreshIdempotent | mergify_engine/tests/unit/test_train.py:367-373 | refreshing twice is refreshing once |
| TrainProperties.AddPullEntry | mergify_engine/tests/unit/test_train.py:322-326 | after adding, the pull is queued and its entry carries the new configuration |
| TrainProperties.AddPullIdempotent | mergify_engine/tests/unit/test_train.py:322-326 | re-adding a queued pull changes neither the queue order nor the car contents; adding twice with one configuration is adding once |
| TrainProperties.RemovePullIdempotent | mergify_engine/tests/unit/test_train.py:332-338 | after removal the pull is gone, and removing it again changes nothing |
| TrainProperties.MergedHeadStaysParent | mergify_engine/tests/unit/test_train.py:302-306 | when the head lands, the next car still has the landed pull among its parents and the landed pull leaves the queue |
| TrainProperties.RootedCarsArePrefixes | mergify_engine/tests/unit/test_train.py:204-219 | in a train whose first car has no parents, car i tests exactly the first i + 1 queued pulls |
| TrainProperties.RootedPreserved | mergify_engine/tests/unit/test_train.py:204-232 | add, unmerged remove and refresh never make a train with no landed parent rest on one |
| TrainStore.Save | mergify_engine/tests/unit/test_train.py:221-232 | no contract; characterised by TrainStore.LoadSave |
| TrainStore.Load | mergify_engine/tests/unit/test_train.py:204-206 | no contract; characterised by TrainStore.LoadSave: loading returns what was saved under the key, and a key never saved loads as the empty train |
| TrainStore.DecodeItems | mergify_engine/tests/unit/test_train.py:221-223 | decoding a list succeeds with one item per element, each decoded by the item decoder, or fails because some element fails |
| TrainStore.TrainRoundTrip | mergify_engine/tests/unit/test_train.py:221-223 | decoding an encoded train gives back the train |
| TrainStore.LoadSave | mergify_engine/tests/unit/test_train.py:204-232 | loading after saving under the same key gives the saved train; other keys are untouched; a key never saved loads as the empty train |
| TrainScenarios.GetConfig | mergify_engine/tests/unit/test_train.py:184-200 | no contract; it is QueueConfig.MakeConfig with the offset 10000, so that contract applies |
| TrainScenarios.ScenarioAddPull | mergify_engine/tests/unit/test_train.py:204-232 | cars [[1]], [[1],[1,2]], [[1],[1,2],[1,2,3]]; survives a reload; removing 2 gives [[1],[1,3]], which survives a reload |
| TrainScenarios.ScenarioRemoveMiddleMerged | mergify_engine/tests/unit/test_train.py:236-251 | removing merged middle pull 2 gives [[1],[1,3]] |
| TrainScenarios.ScenarioRemoveMiddleNotMerged | mergify_engine/tests/unit/test_train.py:255-268 | pulls added as 1, 3, 2 with priorities 1000, 100, 1000 give [[1],[1,2],[1,2,3]]; removing 2 gives [[1],[1,3]] |
| TrainScenarios.ScenarioRemoveHeadNotMerged | mergify_engine/tests/unit/test_train.py:272-286 | removing unmerged head 1 gives [[2],[2,3]] |
| TrainScenarios.ScenarioRemoveHeadMerged | mergify_engine/tests/unit/test_train.py:290-306 | removing merged head 1 gives [[1,2],[1,2,3]] |
| TrainScenarios.ScenarioAddRemoveIdempotent | mergify_engine/tests/unit/test_train.py:310-342 | re-adding 1 with another priority keeps every car; removing 2 twice equals removing it once; both survive a reload |
| TrainScenarios.ScenarioMultipleQueuesWidth | mergify_engine/tests/unit/test_train.py:346-365 | a head of width 2 gives two cars and the rest waits; a higher-ranked pull 5 waits before 3 and 4 |
| TrainScenarios.ScenarioMultipleQueuesBacklog | mergify_engine/tests/unit/test_train.py:367-378 | four more low pulls only lengthen the waiting list [5,3,4,6,7,8,9]; survives a reload |
| TrainScenarios.ScenarioMultipleQueuesRemovals | mergify_engine/tests/unit/test_train.py:380-398 | removing 2 gives [[1],[1,5]]; removing 1 and 5 makes the width-5 rule lead: five cars from 3 and 9 waiting; survives a reload |
| OrderedDict.Find | mergify_engine/context.py:577-580 | a key is found exactly when present, at a position holding it, with no later position holding it |
| OrderedDict.Put | mergify_engine/context.py:577-580 | assignment keeps keys distinct; a present key keeps the key order; a new key is appended last |
| OrderedDict.PutGet | mergify_engine/context.py:577-580 | after `d[k] = v`, reading k gives v and every other key reads as before |
| OrderedDict.FromPairsGet | mergify_engine/context.py:743-748 | a dictionary built from pairs maps each key to the value of its last pair |
| OrderedDict.FromPairsKeyOrder | mergify_engine/context.py:582-584 | the keys are those of the pairs, ordered by first occurrence |
| OrderedDict.LastValueReverse | mergify_engine/context.py:743-745 | the last value of a key in the reversed list is its first value in the list |
| OrderedDict.KeysWhere | mergify_engine/context.py:666-683 | the selected keys are a subsequence of the dictionary's keys, so they keep dictionary order |
| OrderedDict.KeysWhereNoDuplicates | mergify_engine/context.py:666-683 | a dictionary with distinct keys yields each selected key once |
| OrderedDict.KeysWhereGet | mergify_engine/context.py:666-683 | a key is selected exactly when it is present and its value passes the filter |
| Checks.ConsolidatedChecks | mergify_engine/context.py:736-749 | the consolidated states have no duplicate name |
| Checks.ChecksPrecedence | mergify_engine/context.py:736-749 | a name's state is its last status if any, else its newest check run's conclusion, else absent |
| Checks.NamesInStateExact | mergify_engine/context.py:666-683 | a name is listed in a state exactly when its status is in it, or, without a status, its newest run concluded in it; each name appears once, in the consolidated dictionary's order |
| Checks.WithoutName | mergify_engine/context.py:687-690 | keeps exactly the runs with another name; the runs of every other name are kept in their order, duplicates included |
| Checks.WithoutNameAppend | mergify_engine/context.py:687-690 | filtering distributes over concatenation, so the kept runs keep their relative order across names too |
| Checks.UpdateCheckRuns | mergify_engine/context.py:687-691 | afterwards the reported run is the only run of its name, and the runs of every other name are those before, in the same order |
| Checks.UpdateCheckRunsReplaces | mergify_engine/context.py:687-691 | the updated list ends with the new run, holds no other run of its name, keeps every other run, each name's runs in their order, and adds nothing; updating twice is updating once |
| Checks.NewestRunOfName | mergify_engine/context.py:743-745 | the newest run of a name is the first run reported under that name |
| Checks.UpdateKeepsOtherNames | mergify_engine/context.py:687-691 | reporting a run leaves the consolidated state of every other name unchanged |
| Checks.UpdatedRunDecides | mergify_engine/context.py:687-691 | without a status of that name, the updated run's conclusion is the consolidated state |
| Teams.ResolveLogin | mergify_engine/context.py:751-781 | no contract; characterised by Teams.ResolveLoginSimple, Teams.MentionedTeamSpec, Teams.ResolveForeignTeam and Teams.ResolveOwnTeam |
| Teams.ResolveLoginSimple | mergify_engine/context.py:751-781 | an empty name resolves to nothing; a name not starting with `@` is kept as it is; a team lookup failing other than on the client side fails the resolution |
| Teams.ResolveAll | mergify_engine/context.py:789-794 | no contract; characterised by Teams.ResolveAllAppend and Teams.ResolveAllPlain |
| Teams.ResolveTeams | mergify_engine/context.py:783-794 | no contract; characterised by Teams.ResolveTeamsEmpty and Teams.ResolveOneAsList |
| Teams.ResolveTeamsEmpty | mergify_engine/context.py:783-785 | an absent value, an empty name and an empty list resolve to nothing |
| Teams.Partition | mergify_engine/context.py:759-760 | splits at the first slash: the parts rebuild the string and the first part has no slash |
| Teams.MentionedTeamSpec | mergify_engine/context.py:751-772 | a name designates a team exactly when it is `@slug`, or `@owner/slug` with a non-empty slug; a slug has no slash |
| Teams.ResolveForeignTeam | mergify_engine/context.py:759-767 | a mention of another organisation's team is kept verbatim |
| Teams.ResolveOwnTeam | mergify_engine/context.py:768-781 | a mention of the owner's team resolves to its members, or to itself on a client-side error |
| Teams.ResolveAllAppend | mergify_engine/context.py:783-794 | resolving a concatenated list resolves the parts and concatenates, the first failure winning |
| Teams.ResolveAllPlain | mergify_engine/context.py:751-757 | a list of non-empty names without `@` resolves to itself |
| Teams.ResolveOneAsList | mergify_engine/context.py:783-787 | a single value resolves as the list holding it |
| Reviews.HasWritePermission | mergify_engine/context.py:389-393 | no contract; the permission levels that allow writing are `admin`, `maintain` and `write` |
| Reviews.ValidUserIds | mergify_engine/context.py:547-557 | no contract; characterised by Reviews.ValidUserIdsExact |
| Reviews.ConsolidatedReviews | mergify_engine/context.py:559-585 | no contract; characterised by Reviews.ConsolidatedReviewsSplit, Reviews.LatestReviewWins and Reviews.ConsolidatedShape |
| Reviews.Keyed | mergify_engine/context.py:568-580 | the pairs fed to the dictionaries are exactly the counted reviews of one kind, each keyed by its own login |
| Reviews.ValidUserIdsExact | mergify_engine/context.py:547-557 | a review counts exactly when some bot or write-permission author among the reviews has its author's id; every such author's review counts |
| Reviews.ConsolidateSplits | mergify_engine/context.py:568-580 | the single loop builds the comment and verdict dictionaries as two independent assignment sequences |
| Reviews.ConsolidatedReviewsSplit | mergify_engine/context.py:560-585 | the consolidated lists are the values of the by-login dictionaries of comments and of verdicts |
| Reviews.LatestReviewWins | mergify_engine/context.py:568-580 | each author keeps exactly their latest counted review of each kind |
| Reviews.ConsolidatedShape | mergify_engine/context.py:547-585 | one entry per login; each entry is counted, of the right kind, filed under its author's login; every trusted author's review of that kind is represented |
| PullAttributes.GetConsolidatedData | mergify_engine/context.py:587-685 | an unknown name fails with `PullRequestAttributeError` of that name; only known names succeed |
| PullAttributes.KnownNamesResolve | mergify_engine/context.py:1037-1067 | a name resolves exactly when it is an attribute, a list attribute or `draft` |
| PullAttributes.ListAttributesAreLists | mergify_engine/context.py:1052-1067 | every list attribute resolves to a list |
| PullAttributes.GetAttr | mergify_engine/context.py:1069-1070 | no contract; characterised by PullAttributes.GetAttrSpellings |
| PullAttributes.GetAttrSpellings | mergify_engine/context.py:1069-1070 | `a_b` and `a-b` read the same; the lookup fails exactly for unknown dashed names, with the dashed name |
| PullAttributes.ReviewRequestedExact | mergify_engine/context.py:594-597 | an entry is a requested reviewer's login, or `@` followed by a requested team's slug |
| PullAttributes.ReviewersInStateExact | mergify_engine/context.py:641-657 | a login is listed for a review state exactly when its latest counted review of that kind is in that state; each login appears once, in the consolidated dictionary's order |
| PullAttributes.ApprovedReviewersExact | mergify_engine/context.py:641-643 | a login approves exactly when its latest counted verdict is an approval |
| PullAttributes.CommentersExact | mergify_engine/context.py:654-657 | a login is a commenter exactly when it has a counted comment, and no login appears twice |
| PullAttributes.CheckSuccessExact | mergify_engine/context.py:666-671 | `status-success` reads the same list as `check-success`, which holds a name exactly when its consolidated state is success, and no name appears twice |
| PullAttributes.CheckFailureExact | mergify_engine/context.py:672-677 | `status-failure` reads the same list as `check-failure`, which holds a name exactly when its consolidated state is failure, and no name appears twice |
| PullAttributes.CheckNeutralExact | mergify_engine/context.py:678-683 | `status-neutral` reads the same list as `check-neutral`, which holds a name exactly when its consolidated state is neutral, and no name appears twice |
| PullAttributes.VerdictAttributesExact | mergify_engine/context.py:641-653 | `approved-reviews-by`, `dismissed-reviews-by` and `changes-requested-reviews-by` each hold a login exactly when its latest counted verdict is an approval, a dismissal or a change request respectively, and no login appears twice in any of them |
| PullAttributes.BooleanAttributes | mergify_engine/context.py:599-630 | `merged`, `draft` and `locked` are the pull request's flags; `closed` holds exactly when the state is `closed`; `conflict` exactly when the mergeable state is `dirty` |
| ConfigFiles.Prefer | mergify_engine/context.py:234-237 | no contract; characterised by ConfigFiles.PreferSpec and ConfigFiles.PreferMembers |
| ConfigFiles.ConfigFile | mergify_engine/context.py:261-281 | no contract; characterised by ConfigFiles.ConfigFileSpec, ConfigFiles.PreferredFileUsed, ConfigFiles.PreferredFileMissing and ConfigFiles.DefaultOrderUsed |
| ConfigFiles.FoundFiles | mergify_engine/context.py:239-250 | the paths holding a file are exactly the tried paths that exist |
| ConfigFiles.PreferSpec | mergify_engine/context.py:234-237 | a preferred name is moved to the front and the others keep their order; the result is a permutation; a name that is not a candidate is an error; no preference changes nothing |
| ConfigFiles.PreferMembers | mergify_engine/context.py:234-237 | whatever the preference, the paths tried are exactly the candidates |
| ConfigFiles.ConfigFileSpec | mergify_engine/context.py:234-281 | the file used exists and is a candidate; none is used only when no candidate exists |
| ConfigFiles.PreferredFileUsed | mergify_engine/context.py:234-237 | a preferred path that holds a file is the one used |
| ConfigFiles.PreferredFileMissing | mergify_engine/context.py:234-250 | a preferred path that holds no file changes nothing: the result is that of no preference |
| ConfigFiles.DefaultOrderUsed | mergify_engine/context.py:207-211 | without a preference, the first existing path in the fixed order is used |
| Readiness.IsDataComplete | mergify_engine/context.py:820-833 | complete exactly when every controlled field is present |
| Readiness.ProcessingCompleted | mergify_engine/context.py:835-839 | a missing field fails with a field that is one of the controlled ones |
| Readiness.ProcessingCompletedExact | mergify_engine/context.py:796-839 | on complete data it never fails, and it is done exactly when closed or the mergeable state is neither null nor `unknown` |
| Readiness.EnsureCompleteOnce | mergify_engine/context.py:806-818 | no contract; characterised by Readiness.EnsureCompleteOnceSpec |
| Readiness.EnsureCompleteOnceSpec | mergify_engine/context.py:806-818 | a success carries processed data; complete processed data is kept without refetching; a refetched complete copy still being processed is reported as unknown mergeability |

## Left out

- `merge_train.py` is not part of this model. The train follows what `test_train.py` asserts.
- `add_pull` of a new pull that sorts before an existing car has no asserting test. The model discards the cars from the insertion point on, consistent with the other operations.
- Refresh keeps existing cars and only truncates or appends. It does not rebuild a car whose content no longer matches the queue prefix, because `test_train.py:302-306` expects the remaining cars to keep the landed pull as a parent.
- The rank of queue rules "two" and "five" comes from a rules schema that is not part of this model. The scenarios need "two" to rank above "five", so they use ranks 2 and 1.
- QueueConfig.MakeConfig: the `strict_method`, `bot_account` and `update_bot_account` fields that `get_config` sets are not modelled and not stored. They do not affect the order or the cars of a train.
- `QUEUE_PRIORITY_OFFSET` is defined in a file that is not part of this model. It is a parameter, and the scenarios use 10000.
- The GitHub client, Redis caching, the `async` machinery and logging are left out. Fetched data (reviews, files, check runs, statuses, team members, permissions, file presence) is passed as parameters.
- The tenacity retry around `_ensure_complete` is left out. One attempt is modelled, with the refetched pull passed as a parameter.
- TrainCar creation, update and deletion of the throwaway pull requests are left out. The throwaway number comes from a materializer parameter.
- The store's byte-level serialization format is left out. Only its document structure and the load/save round trip are modelled.
- Locking is left out.
- PullAttributes.GetAttr: Python calls `__getattr__` only when ordinary attribute lookup fails, so names `PullRequest` defines itself (`context`, `items`, `render_template`, `ATTRIBUTES`, `LIST_ATTRIBUTES`) never reach it. The model states `__getattr__` called on its own, not `getattr` on a pull request object.
- `render_template`, `_template_exceptions_mapping`, `__str__` and `PullRequest.items` are left out. They produce text, not rule values.
- Teams.ResolveLogin: the branch for a non-string value is left out, because names are typed as strings.
- Teams.TeamLookup: the HTTP error taxonomy is reduced to client-side errors, which are handled, and everything else, which propagates.
- `get_mergify_config_file` records the location where the file was found for next time. That cache update is left out, and the previous location is a parameter.
- PullAttributes.GetConsolidatedData: the string and number attributes (`author`, `merged-by`, `milestone`, `number`, `base`, `head`, `title`, `body`) are plain projections of pull request fields. Their contracts state only that they resolve; the boolean attributes are stated by PullAttributes.BooleanAttributes.
- Readiness.IsDataComplete: JSON values other than null, strings and booleans are collapsed into one opaque value.
