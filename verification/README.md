# Verified model of the operations assistant

The repository is an operations assistant for an IoT platform. It reads company
device data, plans and runs diagnostic workflows, and answers from the evidence it
collected. This project models the parts that carry real state and proves what
they keep over every input, every run and every interleaving.

* **Company read model** (`MetricMerge`, `DeviceRecord`, `StableSort`, `DeviceJoin`,
  `DeviceAccount`, `DeviceReadModel`). One pass over stored content instances attributes each row to a
  device through a first-wins alias index, creates devices on the way, and updates
  them in place. `DeviceReadModel` holds device objects and dictionaries and is proved
  against the fold in `DeviceJoin`; the fold is proved equal to per-device
  specifications (newest reading per name, first row of the greatest timestamp, first
  status, stable sort, conserved counters).
* **Resource linker** (`ResourceLinker`, `ResourceReport`) and **threshold scan** (`ThresholdScan`).
* **Rate limiter** (`RateLimiter`, `RateLimiterBounds`) and **request pacer** (`RequestPacer`): bounds over
  every run, with clocks that are read before a lock is taken.
* **IOA v3** (`WorkflowPlanner`, `PlanReport`, `FollowupFilter`, `WorkflowGraph`): plan rewrites, the
  follow-up filter, and the policy graph with its streaming form.
* **LangGraph agent** (`LangGraphPolicy`, `EvidenceSanitizer`), the **IOA v2 loop**
  (`ReasoningLoop`), the **MCP session** (`McpSession`), the **Loki fallback**
  (`LokiFallback`).

`Options` and `FiniteSets` hold what several modules share. Run `dafny verify dfyconfig.toml` to check everything.

## Where the code does not do what one would expect

The model follows the code. Each of these is stated exactly, with the condition under
which the expected property does hold.

* The rate limiter reads its clock before it takes the lock. Its budget holds over every
  full window if and only if there is no delay between the two or the budget is one
  request (`RateLimiterBounds.FullWindowBoundIff`). In general it holds over exactly
  the windows that are no longer than the limiter's window less the skew, and with a
  budget of one over all windows up to the full one (`RateLimiterBounds.BoundedLengths`).
* `retry_after` truncates the wait. Waiting for exactly that long is enough if and only
  if the wait is at most one second or a whole number of seconds
  (`RateLimiter.RetryAfterSufficesIff`), and a caller that does so can be refused again in
  some run if and only if the window is longer than a second
  (`RateLimiterBounds.RetryCanFailIff`).
* The IOA v2 loop raises, instead of answering, exactly when the model announces an action
  and names none (`ReasoningLoop.UnansweredExactlyOn`).
* The linker visits containers before application entities, once. A container linked
  only through an application entity is missed (`ResourceLinker.OutOfOrderLinkIsMissed`).
  Exactly the rows reached by a chain in processing order are found
  (`ResourceLinker.RelatedExactly`).
* A failed attempt to open an MCP session leaves a shutdown sentinel in the queue, and
  the next worker takes it and exits. A retried session serves requests if and only if
  no attempt had failed (`McpSession.ServesIffFirstAttemptOpened`).
* The default of two Loki fallback hours is not clamped to the requested window
  (`LokiFallback.SearchStaysInsideIff`, `LokiFallback.OneHourSearchLeavesWindow`).
* Under the five infrastructure terms a planned health workflow loses its parameters when
  OneM2M work takes the plan over first (`PlanReport.HealthIsKeptIff`).
* In the LangGraph agent the classifier looks for identifiers in the lower-cased text and
  the authoriser in the original. For simulator devices the two can disagree, which is one
  of the two ways to reach `missing_device_identifier`
  (`LangGraphPolicy.DenialsExactly`); for company devices they never do
  (`LangGraphPolicy.IdentifierTestsAgree`).

## Model

| member | source | states |
|---|---|---|
| MetricMerge.PanelShowsNewestPerName | services/company_data_service.py:1632-1658 | after any rows the displayed metrics are exactly the first eight distinct names in order of first appearance, each with the reading of greatest timestamp for its name, ties to the earlier row, although replacement and truncation happen in place row by row |
| MetricMerge.UncappedIsFaithful | services/company_data_service.py:1638-1656 | without the cap, the merged list and the remembered timestamps are an argmax over all named readings at once |
| MetricMerge.CapIgnoresTheTail | services/company_data_service.py:1643-1658 | two panels that agree on their first eight metrics and on the remembered timestamps still agree after merging any metric, so truncation never disturbs what is shown |
| MetricMerge.MergeSamplesTracksUncapped | services/company_data_service.py:1632-1658 | the row-by-row truncating merge shows the first eight of the untruncated merge of all readings |
| MetricMerge.FirstPositionsAreInOrder | services/company_data_service.py:1653-1654 | the append positions are exactly the positions at which a new name appears, in increasing order |
| MetricMerge.FindMetric | services/company_data_service.py:1644-1651 | the search loop returns the first position with the name, or the length when there is none |
| MetricMerge.ObservationsInOrder | services/company_data_service.py:1632-1636 | the readings that the panel is compared with are exactly the named metrics of all rows, in row order and in each row's own order |
| DeviceRecord.CompanyDevice.constructor | services/company_data_service.py:1551-1590 | a new device has no status, metrics, rows or rules and shows the header it is created with |
| DeviceRecord.CompanyDevice.MergeMetrics | services/company_data_service.py:1632-1656 | the in-place merge loop over one row changes only the metrics and their timestamps, as the specification merge of that row |
| DeviceRecord.CompanyDevice.AbsorbRow | services/company_data_service.py:1602-1658 | attributing a row to a device object is one step of the fold whose meaning the lemmas below give |
| DeviceRecord.HeaderIsOfLatestRow | services/company_data_service.py:1613-1627 | the final timestamp is the maximum of the initial one and all non-zero row timestamps; container, format and payload summary come together from the first-processed row attaining a new maximum |
| DeviceRecord.UpdatesIffRecord | services/company_data_service.py:1613-1616 | the comparison against the current header succeeds exactly for rows whose timestamp exceeds the initial one and those of all earlier rows |
| DeviceRecord.CarriedFields | services/company_data_service.py:1618-1627 | record id, tenant and application domain hold the last non-empty value that a row with a new maximum brought, else the initial value |
| DeviceRecord.StatusIsOfFirstReport | services/company_data_service.py:1628-1630 | the status is written at most once, by the first row that carries one |
| DeviceRecord.NothingIsLost | services/company_data_service.py:1603-1610 | history and record count account for every attributed row in order, and the panel is the merge of exactly those rows |
| StableSort.SortIsStable | services/company_data_service.py:1677-1680 | the sorted history is ordered by timestamp and keeps the items of each timestamp in processing order |
| StableSort.StableSortIsUnique | services/company_data_service.py:1677-1680 | a sorted stable rearrangement is unique, so the library sort cannot give anything else |
| DeviceJoin.ResolvedByAlias | services/company_data_service.py:1237-1244 | for every iteration order, resolution returns a device that shares an alias, and returns none only when no device shares one |
| DeviceJoin.PlacedByAliasOnly | services/company_data_service.py:1503-1600 | a telemetry row is attributed only through an alias shared by its payload or by the container it names, founds a device only when it names one and shares no alias, and otherwise goes nowhere: never by guesswork |
| DeviceAccount.RowsBelongToTheirDevice | services/company_data_service.py:1503-1610 | in every run, each entry of a device of the final list holds the header of some row and the metrics and status that decoding gave for it, in row order; the row shares an alias with the device, itself or through the container it names, and was decoded for this device, or is the row that founded it, decoded for none |
| DeviceAccount.FoundingHeader | services/company_data_service.py:1551-1590 | a device that telemetry founded starts with the header of its first row, under that row's name or else the device's own |
| DeviceAccount.ContainerExactly | services/company_data_service.py:1510-1517 | the container of a row is the last one with the id it refers to, else the last one with that name, and is missing only when there is neither |
| DeviceAccount.ResolvesFirstAlias | services/company_data_service.py:1237-1244 | resolution takes the first alias in iteration order that any device has, and for it the first device in the list |
| DeviceJoin.TelemetryOnlyDevicesAreDisjoint | services/company_data_service.py:1546-1594 | in every run a device founded by telemetry shares no alias with any earlier device |
| DeviceJoin.RowIsCountedOnce | services/company_data_service.py:1484-1603 | each row raises exactly one counter of each partition, and a telemetry row is either recorded on one device, counted as unmapped, or has no metrics and no device |
| DeviceJoin.CountersAreConserved | services/company_data_service.py:1478-1603 | over any rows: rows = invalid + parseable, parseable = commands + telemetry, telemetry = sum of device record counts + unmapped + device-less rows without metrics |
| DeviceAccount.CountersByKind | services/company_data_service.py:1484-1501 | each counter equals the number of rows of its payload kind |
| DeviceJoin.RowTouchesOneDevice | services/company_data_service.py:1596-1658 | a row changes at most the device it is placed on, and that one by absorbing exactly this row |
| DeviceJoin.DeviceIsFoldOfItsRows | services/company_data_service.py:1484-1658 | the interleaved pass leaves each device as if only its own rows had been absorbed, in order, since its creation |
| DeviceAccount.RuleCountIsNaming | services/company_data_service.py:1660-1675 | a device's rule count is the number of rules that name it through some target, each counted once |
| DeviceAccount.FinishedDevice | services/company_data_service.py:1484-1682 | every device of the finished model in terms of rows that belong to it: header and status, the first eight metric names with their newest readings, and a sorted history whose items hold what decoding each row gave |
| DeviceReadModel.Register | services/company_data_service.py:1382-1383 | registering aliases adds all of them and never displaces an earlier holder |
| DeviceReadModel.RegisterKeepsFirstWins | services/company_data_service.py:1593-1594 | appending a device and registering its aliases keeps the index pointing at the first device that has each alias |
| DeviceReadModel.IndexContainers | services/company_data_service.py:1385-1393 | the two container dictionaries answer as the last container of the id, and of the non-empty name, in the list |
| DeviceReadModel.ReadModel.constructor | services/company_data_service.py:1370-1393 | an empty model satisfies the index invariant and its container dictionaries agree with the container list |
| DeviceReadModel.ReadModel.AddDevice | services/company_data_service.py:1379-1383 | appends one fresh device, changes no other device and keeps the index invariant |
| DeviceReadModel.ReadModel.ResolveDevice | services/company_data_service.py:1237-1244 | the dictionary walk finds the device that scanning the list for each alias would find |
| DeviceReadModel.ReadModel.FindContainer | services/company_data_service.py:1510-1517 | the reference falls back from parent container to `pi`, and the lookup from id to name |
| DeviceReadModel.ReadModel.FindOwner | services/company_data_service.py:1503-1527 | the object found is the one the placement function names, and none is found exactly when a device is to be created or the row goes nowhere |
| DeviceReadModel.ReadModel.PlaceRow | services/company_data_service.py:1503-1658 | placing a telemetry row updates, creates or skips exactly as the specification delivers it, and keeps the index invariant |
| DeviceReadModel.ReadModel.AddContentInstance | services/company_data_service.py:1484-1658 | one iteration of the join is one step of the fold, on counters and on all devices |
| DeviceReadModel.ReadModel.AddContentInstances | services/company_data_service.py:1484-1658 | the whole in-place loop refines the fold over all rows |
| DeviceReadModel.ReadModel.LoadInventory | services/company_data_service.py:1373-1383 | the inventory loop creates one new device per child entity, in order |
| DeviceReadModel.ReadModel.CountRule | services/company_data_service.py:1660-1675 | a rule adds one to each device that some target names first, however often it names it, and nothing to the others |
| DeviceReadModel.ReadModel.CountRules | services/company_data_service.py:1660-1675 | rule counts grow by the number of rules that name the device |
| DeviceReadModel.ReadModel.SortHistories | services/company_data_service.py:1677-1682 | every history is replaced by its stable sort and nothing else changes |
| DeviceReadModel.ReadModel.History | services/company_data_service.py:1841-1865 | the linear scan of the history lookup finds a device exactly when the index holds the alias, and the same device; it returns the newest items, at least 1 and at most 100 of them |
| DeviceReadModel.LoadReadModel | services/company_data_service.py:1247-1702 | the whole load: counters and devices are those of the fold, every device shows exactly what its inventory entry, the rows that belong to it and the rules that name it give, and the index still agrees with the list |
| ResourceLinker.AcceptedIffReached | services/company_data_service.py:2611-2631 | the one-pass test accepts a row if and only if an ordered chain of links reaches it |
| ResourceLinker.ReachedByChain | services/company_data_service.py:2564-2631 | every accepted row has a finite chain of shared raw or normalised references back to a start |
| ResourceLinker.ChainReaches | services/company_data_service.py:2564-2631 | every row at the end of a chain in processing order is accepted |
| ResourceLinker.ChainsStartAtDirectMatches | services/company_data_service.py:2591-2609 | a chain can start only at a direct match or at a row linked to a directly matched identity or content instance |
| ResourceLinker.RelatedExactly | services/company_data_service.py:2584-2648 | for each of the six labels, exactly which keys are reported |
| ResourceReport.RelatedReports | services/company_data_service.py:2584-2648 | for each of the six labels exactly which rows are reported: the direct matches in order, then the reached rows in order, each left out only if an earlier one has the same, non-empty set of references |
| ResourceReport.DedupReports | services/company_data_service.py:2633-2646 | de-duplication reports exactly the first row of each set of references and every row that has none, in order; each row found is represented by a reported one that was found no later |
| ResourceReport.KeysAgree | services/company_data_service.py:2640 | two rows have the same key if and only if all their references are the same, or they have none and are the same row |
| ResourceReport.ReferencesExactly | services/company_data_service.py:2511-2542 | the references of a document are the non-empty ids and normalised texts of its reference fields, all of them |
| ResourceReport.LinkedExactly | services/company_data_service.py:2564-2581 | two documents are linked if and only if a reference of the one equals one of the other, as it is or in the form in which it is compared |
| ResourceLinker.RelatedHasNoDuplicates | services/company_data_service.py:2633-2646 | no two reported rows of a label have the same key |
| ResourceLinker.DedupKeepsKeys | services/company_data_service.py:2633-2646 | de-duplication keeps every key, adds no row, and leaves keys distinct |
| ResourceLinker.RelatedIsMonotone | services/company_data_service.py:2584-2648 | adding rows anywhere in any collection never removes a reported key |
| ResourceLinker.OutOfOrderLinkIsMissed | services/company_data_service.py:2611-2619 | a container linked only through an application entity is not reported |
| ResourceLinker.OutOfOrderExample | services/company_data_service.py:2611-2619 | such documents exist |
| ResourceLinker.LinkLabel | services/company_data_service.py:2611-2627 | the loop that tests list membership and references while extending both equals the direct matches followed by the accepted rows |
| ResourceLinker.LinkUriMappings | services/company_data_service.py:2629-2631 | the last loop tests against the known references and adds none |
| ResourceLinker.Dedupe | services/company_data_service.py:2635-2646 | the loop with its `seen` set equals the de-duplication function |
| ResourceLinker.RelatedRows | services/company_data_service.py:2584-2648 | all stages in order; without an identifier every row is returned unchanged |
| ThresholdScan.CollectNumericValues | services/company_data_service.py:300-319 | the recursive collector appends exactly the depth-first numeric leaves within the member and item limits to the list it is given |
| ThresholdScan.LeavesAreWalked | services/company_data_service.py:300-319 | the leaves are exactly the numbers that a walk through first children leads to (32 members, 10 items), each once, under the path the walk spells, in depth-first order |
| ThresholdScan.ScanLeaves | services/company_data_service.py:3307-3323 | the inner loop with its break yields the first twenty of what was found before and the matches of this payload |
| ThresholdScan.ScanPayloads | services/company_data_service.py:3293-3326 | the nested early-exit loops return exactly the first twenty of all matches in row order, stop no earlier than the twentieth, and count exactly the parseable rows visited |
| ThresholdScan.AllMatchesAreHits | services/company_data_service.py:3307-3320 | a match is listed if and only if some row has such a leaf with a configured name and a value above the threshold |
| ThresholdScan.NothingMissedBelowTheCap | services/company_data_service.py:3322-3326 | every reported match is real, and fewer than twenty matches means that none was missed |
| ThresholdScan.ParseableIsCounted | services/company_data_service.py:3300-3303 | the parseable rows are exactly those whose payload is neither missing nor a text |
| RateLimiter.SlidingWindowRateLimiter.Check | services/company_mongo_proxy.py:171-196 | the deque loop and its verdict equal the specification of one call, and no other key changes |
| RateLimiter.SlidingWindowRateLimiter.Clear | services/company_mongo_proxy.py:198-200 | clearing empties the deque of every key |
| RateLimiter.SkewedWindowBound | services/company_mongo_proxy.py:171-196 | if callers take the lock within d seconds of reading the clock, every half-open interval of length window - d holds at most `requests` accepted times of a key, in every run, although a deque may be unsorted |
| RateLimiterBounds.BoundedLengths | services/company_mongo_proxy.py:171-196 | for every limit and skew, the lengths over which the budget holds in every run are exactly those up to the window less the skew, and with a budget of one those up to the window |
| RateLimiterBounds.FullWindowBoundIff | services/company_mongo_proxy.py:180-196 | every full window of every run respects the budget if and only if there is no skew or the budget is one |
| RateLimiterBounds.SingleBudgetSpaces | services/company_mongo_proxy.py:183-196 | with a budget of one, accepted times of a key are at least a window apart, whatever the skew |
| RateLimiterBounds.BurstExceeds | services/company_mongo_proxy.py:180-196 | every longer window is exceeded by a burst of the budget, one call a window later, and one that read the clock earlier and takes the lock last |
| RateLimiterBounds.RetryCanFailIff | services/company_mongo_proxy.py:189-194 | with ordered clocks, some run refuses a retry that comes exactly when it was announced if and only if the window is longer than a second |
| RateLimiter.DequeIsExact | services/company_mongo_proxy.py:183-187 | without skew a call finds exactly the accepted calls of its key still inside the window, oldest first |
| RateLimiter.DequeNeverOverflows | services/company_mongo_proxy.py:189-196 | a deque never holds more than `requests` times |
| RateLimiter.RefusalAnnouncesTheWait | services/company_mongo_proxy.py:189-194 | a refusal has a positive true wait until the head expires, and `retry_after` is at least one and within one second of it |
| RateLimiter.RetryAdmittedIffHeadExpired | services/company_mongo_proxy.py:186-196 | with nothing else accepted, a retry is admitted exactly when the head has expired |
| RateLimiter.RetryAfterSufficesIff | services/company_mongo_proxy.py:190-193 | a retry after exactly `retry_after` seconds is admitted if and only if the wait was at most one second or a whole number of seconds |
| WorkflowPlanner.RewriteIsWellFormed | agents/ioa_v3_agent.py:5362-5605 | whatever plan and classifier choice come in, at most five workflows come out and no tool but the log query occurs twice |
| WorkflowPlanner.ClassifiedToolLeads | agents/ioa_v3_agent.py:5382-5574 | a metric-runbook, OneM2M or drill-down choice is at the head of the plan, unless the five-term rewrite fires and plans exactly the five infrastructure tools |
| WorkflowPlanner.RewriteIsIdempotent | agents/ioa_v3_agent.py:5362-5605 | running the four rewrites again leaves the sequence of tools unchanged, and the whole plan unless the infrastructure rewrite fires |
| PlanReport.RewriteMakesThePlan | agents/ioa_v3_agent.py:5362-5605 | for each kind of choice exactly which proposed workflows survive and in which order, when log queries are added and for which services, and that the five terms keep the last planned workflow of each health tool |
| PlanReport.HealthIsKeptIff | agents/ioa_v3_agent.py:5533-5574 | under the five terms a planned health workflow keeps its parameters if and only if the choice is not OneM2M work, and is a metric runbook or the plan has no OneM2M work |
| WorkflowPlanner.AcceptableExactly | agents/ioa_v3_agent.py:5188-5207 | a proposal is acceptable exactly with a known, compatible tool and a numeric confidence of at least 0.55 |
| WorkflowPlanner.NormalizeItems | agents/ioa_v3_agent.py:5176-5223 | of the first five proposed items it keeps, in order, exactly the acceptable ones whose tool no earlier acceptable item has |
| PlanReport.PlanSemantically | agents/ioa_v3_agent.py:5176-5239 | any proposal of the language model gives exactly the plan made of its normalised form, which is well formed |
| WorkflowPlanner.DetectAdditional | agents/ioa_v3_agent.py:5953-6004 | of the signals that the text raises, exactly the first of each tool but the primary is picked, in table order |
| PlanReport.PlanDeterministically | agents/ioa_v3_agent.py:5921-5951 | the fallback gives exactly the plan made of the first five of the classified tool and the additional ones, and is well formed |
| FollowupFilter.AdmittedCollidesWithNone | agents/ioa_v3_agent.py:1698-1710 | the shared `seen` set admits a text exactly when it is not blank, repeats no action, and collides with nothing kept in text or action |
| FollowupFilter.CollideExactly | agents/ioa_v3_agent.py:1700-1714 | two texts collide in the shared `seen` set exactly when their normalised texts or their actions are equal, or one's text is the other's action |
| FollowupFilter.KeptAreDistinct | agents/ioa_v3_agent.py:1648-1716 | kept follow-ups are pairwise distinct in normalised text and action; none is blank or repeats the current or a completed action |
| FollowupFilter.CandidateFate | agents/ioa_v3_agent.py:1689-1716 | the selection is greedy: each candidate is added exactly when nothing kept before it stands in its way |
| FollowupFilter.DroppedForAReason | agents/ioa_v3_agent.py:1662-1687 | below the cap a compatible candidate that is not shown is blank, repeats an action, or collides with one that is shown |
| FollowupFilter.AddCandidate | agents/ioa_v3_agent.py:1689-1716 | one call of the loop body, on the list, on the `seen` set and on the returned flag |
| FollowupFilter.CompatibleInOrder | agents/ioa_v3_agent.py:1676-1678 | exactly the compatible planner items are offered, in order |
| FollowupFilter.EnforceRequiredBranches | agents/ioa_v3_agent.py:1648-1687 | required candidates come before compatible planner ones; the first five of the selection are returned, pairwise distinct and none a repetition |
| WorkflowGraph.AuthorizedArePermitted | agents/ioa_v3_agent.py:5893-5919 | authorisation keeps exactly the planned workflows that are registered, use allowed parameters, and use the company database only on the company source |
| WorkflowGraph.AuthorizedInOrder | agents/ioa_v3_agent.py:439-449 | the permitted workflows are kept in the order of the plan, none left out |
| WorkflowGraph.DecidedIffPermitted | agents/ioa_v3_agent.py:5893-5919 | the decision on one workflow and the reason it carries, each with its exact condition |
| WorkflowGraph.ExecuteStopsAtFailure | agents/ioa_v3_agent.py:488-496 | the workflows started are the list up to and including the first that raises, and without an exception there is one result for each, in order |
| WorkflowGraph.OnlyPermittedWorkflowsRun | agents/ioa_v3_agent.py:423-530 | in every run, also one that a tool, the rules or the answer breaks off, at most `max_tool_executions` workflows are started, each permitted; a company tool only when the selected source is `company` and the active one `company_mongodb` |
| WorkflowGraph.FinishedRunKeepsResults | agents/ioa_v3_agent.py:488-510 | a finished run holds the result of every workflow it started, and counts them |
| WorkflowGraph.FinishedRunIsAccounted | agents/ioa_v3_agent.py:353-530 | every step and the answer of every finished run: an invalid request or one with nothing permitted is denied with that reason, and any other is answered by generating from exactly the results of all permitted workflows, after the rules were applied to them |
| WorkflowGraph.DeniedIff | agents/ioa_v3_agent.py:356-459 | a run ends in a denial exactly when the request is invalid or no workflow within the budget is permitted |
| WorkflowGraph.GraphIsContinue | agents/ioa_v3_agent.py:271-296 | the compiled graph is the node list of the streaming form with an exit at every denial |
| WorkflowGraph.RunIsNumbered | agents/ioa_v3_agent.py:356-530 | in every finished run the step iterations are exactly 1..n |
| WorkflowGraph.StreamNodes | agents/ioa_v3_agent.py:7667-7711 | the node loop, which updates the state in place, emits two events per step, starts the workflows the graph starts, and stops at a failure or a denial with the state the graph would have |
| WorkflowGraph.RunStream | agents/ioa_v3_agent.py:7651-7745 | every stream shows numbered steps and one final event at its end, and starts only permitted workflows, the graph's; without an exception its steps and answer are the graph's, accounted for by the evidence; with one it ends in an error step and says whether a workflow or the answer failed |
| WorkflowGraph.OneFinalEvent | agents/ioa_v3_agent.py:7637-7745 | the last event of a stream is final and no other is |
| WorkflowGraph.StepIsShownTwice | agents/ioa_v3_agent.py:7637-7649 | each step is shown as its thought and then its observation, in order |
| LangGraphPolicy.IdentifierTestsAgree | agents/langgraph_agent.py:977-1007 | a company identifier is found in the lower-cased text if and only if one is found in the text as given |
| LangGraphPolicy.DispatchCoversRegistry | agents/langgraph_agent.py:547-584 | the tool node has a branch for a tool if and only if the tool is registered |
| LangGraphPolicy.DispatchPassesIdentifier | agents/langgraph_agent.py:553-582 | exactly the tools that require an identifier are called with one, the one the authoriser tests |
| LangGraphPolicy.ChosenToolFits | agents/langgraph_agent.py:282-431 | the classifier picks only registered tools of the request's own source and intent; the tools that need a device are those for which it tested the lower-cased text or saw a history keyword |
| LangGraphPolicy.DenialsExactly | agents/langgraph_agent.py:243-750 | the denial of every request in closed form: five reasons are reachable, the others and both permission errors are not |
| LangGraphPolicy.OneToolOfTheRequestedSource | agents/langgraph_agent.py:532-590 | at most one tool runs, its data source is the request's, and a tool that needs a device is called with one that the text names |
| LangGraphPolicy.AnswersFromTheCall | agents/langgraph_agent.py:282-768 | a request that is not denied before runs exactly one call, the one its source and first matching keyword group lead to, and passes on what that call returned, sanitised; with nothing returned it passes on a note and is denied |
| LangGraphPolicy.SecondSanitisingIsIdentity | agents/langgraph_agent.py:733-750 | evidence validation never changes what the tool node stored, which is the tool's result, sanitised and within the evidence bounds |
| EvidenceSanitizer.SanitizedIsBounded | agents/langgraph_agent.py:709-731 | for every nested value the output is bounded in depth, width, key length and string length, with distinct keys, also when truncated keys collide |
| EvidenceSanitizer.BoundedIsUnchanged | agents/langgraph_agent.py:709-731 | a value within the bounds is returned unchanged |
| EvidenceSanitizer.SanitizeIsIdempotent | agents/ioa_v3_agent.py:7523-7553 | sanitising twice is sanitising once, and the bounded values are exactly the fixed points |
| EvidenceSanitizer.CollidingKeysKeepTheLast | agents/langgraph_agent.py:713-718 | under each truncated key the output holds the value of the last entry with that key within the width, and it has no other entries |
| EvidenceSanitizer.KeysStandInOrder | agents/langgraph_agent.py:713-718 | the keys of a sanitised dictionary stand in the order in which they first appear |
| EvidenceSanitizer.SanitizedFollowsInput | agents/langgraph_agent.py:709-731 | a cut text is the beginning of the original, and a list or tuple keeps its first items, each sanitised one level down |
| McpSession.EveryRunAccounts | services/mcp_client.py:199-248 | in every interleaving, completed futures, the one in progress and those still entitled add up, in order, to what was put before the first sentinel |
| McpSession.CompletionsAreFifo | services/mcp_client.py:205-223 | completed futures are an initial part, in FIFO order, of those put before the first sentinel, each with its own outcome and none twice |
| McpSession.QuiescentMeansServed | services/mcp_client.py:205-248 | when a closed session can do nothing more, all those futures are complete and the worker has exited |
| McpSession.WorkerExits | services/mcp_client.py:205-223 | the worker takes at most two steps per future it owes and one for the sentinel, and has exited when it has taken them |
| McpSession.CleanSessionServesAll | services/mcp_client.py:143-248 | from an empty queue exactly the requests put before the close are served |
| McpSession.StaleSentinelKillsSession | services/mcp_client.py:146-161 | after a failed open attempt the next worker completes nothing and exits at its first step |
| McpSession.ServesIffFirstAttemptOpened | services/mcp_client.py:146-161 | an opened session can complete a request if and only if no open attempt had failed |
| McpSession.SyncMcpToolSession.Enter | services/mcp_client.py:143-161 | entering tries up to three times and leaves one sentinel in the queue for each failed attempt |
| McpSession.SyncMcpToolSession.Put | services/mcp_client.py:229-230 | putting an item changes what the session owes, and nothing it has completed |
| McpSession.SyncMcpToolSession.TakeRequest | services/mcp_client.py:206-211 | the worker starts on the future that is owed next; when it exits instead, on the sentinel, every owed future is complete |
| McpSession.SyncMcpToolSession.CompleteFuture | services/mcp_client.py:213-223 | exactly the future that is owed next is completed, with its own outcome |
| McpSession.SyncMcpToolSession.Interleave | services/mcp_client.py:199-248 | under any schedule of callers and worker the object's steps are a run of the machine, and the completed futures are, in order, the first of those put before the sentinel |
| RequestPacer.Pacer.StampInTurn | services/mcp_client.py:44-49 | computing the wait and sleeping puts the new stamp at least the interval after the old one, and no later than that by more than the clock itself adds |
| RequestPacer.Pacer.Pace | services/mcp_client.py:37-49 | a paced call moves the stamp forward by at least the interval; a non-positive interval touches neither stamp nor clock |
| RequestPacer.Pacer.PaceAll | services/mcp_client.py:37-49 | any sequence of critical sections is spaced, so that no interval of length T holds more than floor(T / interval) + 1 of their stamps |
| RequestPacer.StampsAreSpaced | services/mcp_client.py:44-49 | stamps of any two paced requests are at least the interval apart per request between them, with any number of threads |
| RequestPacer.PacedRequestsAreBounded | services/mcp_client.py:37-49 | any interval of length T holds at most floor(T / interval) + 1 paced requests |
| ReasoningLoop.ContinueIsNumbered | agents/ioa_v2_agent.py:85-184 | from any point of a run, observations only grow, stay numbered, and never exceed the iteration limit |
| ReasoningLoop.AnswersRestOnEvidence | agents/ioa_v2_agent.py:85-184 | for any model, a run answers from between 1 and `max_iterations` observations numbered 1..k, unless it ends, before the limit, on an unknown tool or on an empty action |
| ReasoningLoop.UnansweredExactlyOn | agents/ioa_v2_agent.py:531-546 | a run raises exactly when the loop asks and the model announces an action without naming one, and ends on an invalid tool exactly when it asks and the model names that tool |
| ReasoningLoop.AnswersExactly | agents/ioa_v2_agent.py:85-184 | every answer is the model's own, cleaned, after an observation, or generated from all observations: at the limit, when no action is named, or as soon as a system request has overview and alarms; every observation is a tool's output for the target |
| ReasoningLoop.AskedIsGenuine | agents/ioa_v2_agent.py:560-581 | while the loop goes on it never has both overview and alarms of a system request; its first observation is the required evidence only when the model asked for none |
| ReasoningLoop.EndsOnTheReply | agents/ioa_v2_agent.py:113-146 | from any point, a run that does not answer ends on the reply that its last observations brought |
| ReasoningLoop.ReasoningAgent.Run | agents/ioa_v2_agent.py:85-184 | the plain loop, its conversation history and its last target, also when it breaks off |
| ReasoningLoop.ReasoningAgent.RunStream | agents/ioa_v2_agent.py:260-397 | the streaming loop shows exactly the outcome of the plain loop and leaves the same history and last target; when it raises it has shown all observations so far and nothing else |
| ReasoningLoop.StreamDeterminesOutcome | agents/ioa_v2_agent.py:260-397 | equal streams come from equal outcomes: nothing the plain form returns is missing from the stream |
| ReasoningLoop.StreamShows | agents/ioa_v2_agent.py:260-397 | each observation is shown as its thought, with its action, and then as a whole, in order |
| ReasoningLoop.StreamEnds | agents/ioa_v2_agent.py:260-397 | after the observations comes exactly the event that tells the outcome |
| LokiFallback.CoercePositive | services/mcp_observability_service.py:38-44 | a value in range is returned as it is, one out of range becomes the nearer bound, and one that does not parse the default |
| LokiFallback.QueryLogs | services/mcp_observability_service.py:650-789 | the most recent non-empty hour is returned, `unavailable` is reported if and only if every query failed or no datasource was found, and the hours searched run backwards from now |
| LokiFallback.SearchedHoursTile | services/mcp_observability_service.py:720-723 | the hours searched are adjacent, do not overlap, and cover exactly the last n hours |
| LokiFallback.ChunkInsideIff | services/mcp_observability_service.py:720-723 | hour k lies in the requested window exactly when k is below the number of requested hours |
| LokiFallback.SearchStaysInsideIff | services/mcp_observability_service.py:678-717 | every hour that may be searched lies in the requested window if and only if a chunk count is configured or at least two hours are requested |
| LokiFallback.OneHourSearchLeavesWindow | services/mcp_observability_service.py:711-723 | a one-hour request with the default chunk count does search outside its window |

## Left out

- Text-level functions (key normalisation, payload parsing, metric extraction, inference and unit enrichment, keyword tests, follow-up formatting and action signatures, matching tests) are parameters of the model: the theorems hold for all of them.
- Timestamps are integers, with 0 for a missing or falsy one; values for which the source's integer conversion raises are not modelled.
- Payload readings, thresholds and confidences are real numbers: not-a-number and infinite values, and rounding, are not modelled.
- The iteration order of an alias set is a given sequence, arbitrary in every theorem, that enumerates the set; a device's own alias set is fixed at creation, as in the source.
- Display-only inventory fields, the join of identities, debug samples, and the summaries of rules and filters are not part of the devices.
- The extra fetch of rows per telemetry container (services/company_data_service.py:1394-1473), off unless configured, only extends the list of rows, which is arbitrary here.
- The built-in list sort is a function that is proved sorted and stable, not an algorithm.
- Database, MCP transport, language model and webhook access are oracles: a value, a failure, or an arbitrary function of what was seen so far.
- Environment settings do not change during a run: limits, windows and intervals are constants of it.
- `RateLimiter`: a run starts from an empty limiter, so clearing in the middle of a run starts a new run; times are real numbers without rounding; the login and telemetry limiters (routes/auth_routes.py:32-60, routes/telemetry_routes.py:38-71) use the same algorithm and are not repeated.
- The read proxy that calls the limiter, with its allow-lists and audit events, would add only easy members.
- `read_onem2m_resource_sets` feeds the linker; its collections are arbitrary sequences here.
- `WorkflowPlanner`: parameters, reasons and confidences of a workflow are one opaque text; the text of the classifier is an arbitrary choice; the hours that the text asks for in log parameters are not modelled, and the log workflows are determined by their service names.
- `WorkflowGraph`: node labels, thoughts and summaries, token accounting across nodes, and the evidence rendering are not in the steps; a tool either returns a result or raises.
- LangGraph streaming and answer generation are left out; both agents' sanitisers are one function with different limits.
- Cutting a text into tokens is not modelled: the LangGraph tokens are given, and lower-casing acts on each of them without emptying any.
- In the LangGraph agent, the number that the threshold tool takes from the text is part of what the tool returns.
- `ReasoningLoop`: token accounting and the runs with operational context (agents/ioa_v2_agent.py:186-258) are left out; an exception from the model call, a tool or the answer generation ends a run and is not modelled.
- `McpSession`: requests put after the sentinel are never completed, and the callers waiting for them are outside the model; event loop shutdown is not modelled; the server decides each outcome independently of timing.
- `RequestPacer`: the clock is assumed never to go back and to advance by at least the time slept; how far it advances otherwise is arbitrary.
- `LokiFallback`: the result limit, the datasource cache and the retries inside one query are left out; a query is a failure or a list of entries.
- Routes, templates, simulators, migrations, benchmarks and answer rendering are not modelled.
