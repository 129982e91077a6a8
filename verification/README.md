# Import/export core of the IA-to-plan-graphic bridge, modelled in Dafny

The system moves production data between an ERP's REST collections
(entities, routes, phases, operations, departments, equipment, daily tasks,
batches) and a planning system. Its core is a set of exports. Each export
reads the collections, indexes them with `list_to_dict`, sorts the
operations by `nop` and walks them route by route. It builds the planning
system's records:
- phases with their incoming, processing and outgoing departments;
- the phases and operations of the technological processes;
- daily tasks merged with the previous snapshot;
- work in progress, stock (`zapasy`) and the BFG plan.

The order variant (`iaimportexport_with_orders.py`) repeats the
phase and operation exports once per production order, and collects these
orders from the daily tasks. Three CSV readers turn ERP files into records:
- actual output (`erp_fact_from_csv.py`);
- plan (`erp_plan_from_csv.py`);
- the stock report with its daily backup (`raport_from_csv.py`).

The model has one module per export, plus modules for the Python semantics
the exports rely on:
- `PyStr`: slicing, `split`, `endswith`, string order;
- `PyDict`: insertion-ordered dictionaries;
- `Sorting`: the stable `sorted`, and subsequences;
- `Tallies`: `defaultdict(float)` sums.
- `Grouping`: the `operations_list[key].append(row)` grouping and per-group `nop` sort shared by the BFG plan and the ERP fact reader.

The REST collections and CSV files are parameters: typed records in place of
field-name dictionaries. The exports' loops are methods proved equal to
specification functions, and the lemmas state what the reports mean:
- which records appear, and each one once;
- which department a phase is processed in;
- the totals counted, and what a rerun changes.

`IaImportExport`, the class that caches the phase table and the main
routes, and `OrderRegistry`, which holds `entity_orders` and
`routes_orders`, are Dafny classes whose methods update those fields.

## Model

| member | source | states |
|---|---|---|
| ListToDict.ListToDict | utils/list_to_dict.py:1-6 | returns a dict exactly when every row has the column; the dict is the index of the rows by that column; otherwise the error names the first row without it |
| ListToDict.IndexBy | utils/list_to_dict.py:2-4 | the index is a well-formed insertion-ordered dict with no more keys than rows |
| ListToDict.IndexByKeys | utils/list_to_dict.py:3-4 | a key is in the index iff some row has it |
| ListToDict.IndexByLastWins | utils/list_to_dict.py:4 | a key maps to the last row that carries it |
| ListToDict.IndexByDistinctValues | utils/list_to_dict.py:1-6 | with distinct keys, the dict's keys are the rows' keys in order and its values are the rows themselves |
| PyDict.Put | logic/iaimportexport.py:184-186 | `d[k] = v` updates the map and appends k to the key order only when it is new |
| PyDict.Values | logic/iaimportexport.py:178 | the values come out in key order, one per key |
| PyDict.Empty | logic/iaimportexport.py:163 | `{}` has no keys |
| Wrappers.Get | logic/iaimportexport.py:161 | `dict.get` is Some exactly for a present key, holding its value |
| Records.SortByNop | logic/iaimportexport.py:291-294 | sorting by `nop` keeps the number of operations |
| Records.SortByNopMembers | logic/iaimportexport.py:291-294 | sorting by `nop` is a permutation: same multiset, same members |
| Records.PhaseOf | logic/iaimportexport.py:161 | an operation id has a phase exactly when the phase table holds it |
| PhaseResolver.OperationDictLastByNop | logic/iaimportexport.py:169-172 | an id is in the operation dict iff some operation has it, and it maps to an operation with that id whose `nop` is the greatest among them |
| PhaseResolver.PhaseTableOfStep | logic/iaimportexport.py:178-186 | one more key of the loop extends the phase table by that operation's phase, if it has one |
| PhaseResolver.FillPhaseTable | logic/iaimportexport.py:163-186 | the loop fills the table with the phase-table function of the dict and writes a warning for each phase-less operation whose identity has no `(` |
| PhaseResolver.WarningsFor | logic/iaimportexport.py:179-183 | the warnings are the phase-less operations without `(`, in dict order |
| PhaseResolver.PhaseTableResolves | logic/iaimportexport.py:178-188 | an operation with a unique id resolves to its phase's identity when it has a phase link, and to nothing otherwise |
| PhaseResolver.UnknownOperationHasNoPhase | logic/iaimportexport.py:188 | an id no operation has resolves to `None` |
| PhaseResolver.MainRouteList | logic/iaimportexport.py:1179-1185 | the main routes are exactly the routes with `alternate` false (their order is `PhaseResolver.MainRouteListSubsequence`'s) |
| PhaseResolver.MainRouteListSubsequence | logic/iaimportexport.py:1179-1185 | the main routes keep their order in the route list: they form a subsequence of it |
| PhaseResolver.EntityLastPhaseAsWritten | logic/iaimportexport.py:1174-1216 | as written: `None` without a main route, and an error exactly when the main route has no entry in the index of last operations; where it is Ok it agrees with `PhaseResolver.EntityLastPhase`, whose value `PhaseResolver.EntityLastPhaseIsLastByNop` proves is the phase of the route's last operation by `nop` |
| PhaseResolver.EntityLastPhase | logic/iaimportexport.py:1174-1216 | as intended: `None` without a main route, `None` wherever the as-written version raises `KeyError` (the main route has no operation), and the as-written value wherever that one is Ok |
| PhaseResolver.EntityLastPhaseRaises | logic/iaimportexport.py:1211-1214 | an entity whose main route has no operation makes the written code raise where the intended one returns `None` |
| PhaseResolver.EntityLastPhaseIsLastByNop | logic/iaimportexport.py:1196-1205 | the phase found belongs to an operation on the main route with the greatest `nop` there |
| PhaseResolver.FillLastOperations | logic/iaimportexport.py:1201-1205 | the loop leaves each route mapped to the operation indexing the sorted operations by route would keep |
| PhaseResolver.LastKeptIsLast | logic/iaimportexport.py:1196-1205 | over operations sorted by `nop`, the operation a dict keeps for a key (here the route) has that key and the greatest `nop` among the operations with it |
| PhaseResolver.IaImportExport.constructor | logic/iaimportexport.py:57 | a new instance starts with empty caches |
| PhaseResolver.IaImportExport.GetPhaseWithOperationId | logic/iaimportexport.py:158-188 | the first call fills the cached table and logs the warnings; every call returns the table's entry for the id |
| PhaseResolver.IaImportExport.GetEntityLastPhase | logic/iaimportexport.py:1174-1216 | returns the as-written result, the error included; afterwards the main routes are cached, the last operations are cached iff the entity has a main route (else unchanged), and the phase table is filled and its warnings written once only when that route has an operation (else both unchanged) |
| PhaseResolver.ResolveTwice | logic/iaimportexport.py:160-161 | two calls with the same id return the same phase, whichever call filled the table |
| RouteWalk.OnRoute | logic/iaimportexport.py:301-302 | every operation of a route's sequence has that route, and the sequence is no longer than the walk (its order is `RouteWalk.OnRouteSubsequence`'s, the converse `RouteWalk.OnRouteMembers`') |
| RouteWalk.OnRouteSubsequence | logic/iaimportexport.py:301-302 | a route's operations form a subsequence of the walk |
| RouteWalk.OnRouteMembers | logic/iaimportexport.py:301-302 | an operation belongs to a route's sequence iff it is on the walk and has that route |
| RouteWalk.OnRouteStep | logic/iaimportexport.py:317-318 | one more operation extends only its own route's sequence |
| RouteWalk.OnRoutePrefix | logic/iaimportexport.py:317-318 | a route's operations up to a point are a prefix of all its operations |
| RouteWalk.PhaseSeq | logic/iaimportexport.py:319 | one phase lookup per operation, in order |
| RouteWalk.PhaseSeqPrefix | logic/iaimportexport.py:319 | the phases of a prefix of the walk are a prefix of the phases |
| RouteWalk.PhaseSeqAppend | logic/iaimportexport.py:319 | one more operation appends its own phase |
| RouteWalk.LastKnown | logic/iaimportexport.py:320-329 | `prev_phase` of a walker that skips phase-less operations is a phase that occurred, or `None` when none did |
| RouteWalk.Known | logic/iaimportexport.py:320-321 | there are no more known phases than phases (which ones is `RouteWalk.KnownMembers`') |
| RouteWalk.KnownMembers | logic/iaimportexport.py:320-321 | the known phases are exactly the values that occur among the phases that are not `None` |
| RouteWalk.Compress | logic/iaimportexport.py:327-329 | collapsing equal neighbours keeps the first and the last element and never lengthens (that it only leaves elements out is `RouteWalk.CompressSubsequence`') |
| RouteWalk.CompressSubsequence | logic/iaimportexport.py:327-329 | the collapsed phases form a subsequence of the phases |
| RouteWalk.CompressNoRepeats | logic/iaimportexport.py:327-329 | no two neighbours of the collapsed phases are equal |
| RouteWalk.LastKnownIsLastOfKnown | logic/iaimportexport.py:327-329 | the last phase seen is the last of the known phases |
| RouteWalk.RunsIsCompressedLength | logic/iaimportexport.py:326-328 | `route_step` is the number of runs of equal phases on the route |
| RouteWalk.RunsMonotone | logic/iaimportexport.py:327-328 | `route_step` never decreases along the walk |
| RouteWalk.RunsAppend | logic/iaimportexport.py:327-329 | one more phase adds a run exactly when it differs from the last phase seen |
| RouteWalk.RunsBounds | logic/iaimportexport.py:326-328 | a phased route has at least one step, and never more steps than phases |
| RouteWalk.KnownSet | logic/iaimportexport.py:316 | the phases seen so far, as a set |
| RouteWalk.CountersAfterStep | logic/iaimportexport.py:324-329 | one operation's update of `prev_phase` and `route_step` |
| RouteWalk.CountersAreRuns | logic/iaimportexport.py:324-329 | after the loop, each route's counter is its number of runs and `prev_phase` its last phase seen |
| RouteWalk.CountersKnown | logic/iaimportexport.py:320-329 | only phases that are not `None` are stored in `prev_phase` |
| RouteWalk.Where | logic/iaimportexport.py:438-448 | `filter` never lengthens the list (that it keeps accepted operations only, in order, is `RouteWalk.WhereSubsequence`'s; that it keeps every accepted one, `RouteWalk.WhereMembers`') |
| RouteWalk.WhereSubsequence | logic/iaimportexport.py:438-448 | the filtered operations form a subsequence of the input, and every one of them is accepted |
| RouteWalk.WhereStep | logic/iaimportexport.py:438-448 | filtering one more operation appends it exactly when it is accepted |
| RouteWalk.WhereMembers | logic/iaimportexport.py:438-448 | an operation is in the filtered list iff it is in the list and accepted |
| ExportPhases.DeptListAppend | logic/iaimportexport.py:304-310 | the first pass appends an operation's department exactly when its phase differs from `prev_phase` |
| ExportPhases.DeptListPrefix | logic/iaimportexport.py:301-310 | the department list of a prefix of a route is a prefix of the route's list |
| ExportPhases.NewRunIsChange | logic/iaimportexport.py:308-327 | a new step of the second pass is also a change in the first pass |
| ExportPhases.RunsWithinDeptList | logic/iaimportexport.py:299-338 | the step counter never passes the length of the department list, and equals it for the intended list |
| ExportPhases.DeptRoute | logic/iaimportexport.py:305-312 | `dept_route[route]` starts and ends with the `None` sentinels |
| ExportPhases.StepFacts | logic/iaimportexport.py:317-330 | the route's operations up to operation k extend those before it by k, and so do their phases |
| ExportPhases.StepInRange | logic/iaimportexport.py:330-338 | the indices `i - 1`, `i` and `i + 1` into `dept_route` are in range for a phased operation |
| ExportPhases.RecordAtParts | logic/iaimportexport.py:331-344 | a record's departments are `dept_route[i - 1]`, `dept_route[i]` and `dept_route[i + 1]` at the route's step |
| ExportPhases.Identities | logic/iaimportexport.py:345-347 | the identities of the report's records, one per record |
| ExportPhases.ReportStep | logic/iaimportexport.py:317-347 | a phase-less operation adds nothing; a phased one adds its record exactly at its phase's first occurrence |
| ExportPhases.ReportPhasesOnce | logic/iaimportexport.py:313-349 | the report names each phase of the operations exactly once, with the record built at its first occurrence |
| ExportPhases.FirstOccurrenceOnRoute | logic/iaimportexport.py:345-347 | no earlier operation on the route has the phase of a first occurrence |
| ExportPhases.IntendedProcessingDepartment | logic/iaimportexport.py:336 | with the intended department list, a phase is processed in the department of the operation where it first appears |
| ExportPhases.FirstPassPrevPhase | logic/iaimportexport.py:304-310 | after the first pass, `prev_phase` holds each route's last phase, including `None` |
| ExportPhases.FirstPassRoute | logic/iaimportexport.py:299-312 | after the first pass, a route has a department list iff it has operations, and the list is the departments at its phase changes |
| ExportPhases.RecordDepartment | logic/iaimportexport.py:304-310 | the first pass's body on one operation is its step function: a department is appended at a change of phase |
| ExportPhases.DepartmentRoutes | logic/iaimportexport.py:299-312 | the first-pass loop builds `dept_route` for exactly the routes with operations, each equal to its department route |
| ExportPhases.AdvanceCounters | logic/iaimportexport.py:324-329 | the second pass's update of `prev_phase` and `route_step` is the counters' step function |
| ExportPhases.ExportPhases | logic/iaimportexport.py:282-349 | the export equals the report over the operations sorted by `nop`, with the as-written department lists |
| ExportPhases.ShiftExampleRoute | logic/iaimportexport.py:317-320 | on the example route the phases read P1, none, P2 |
| ExportPhases.ShiftExampleSteps | logic/iaimportexport.py:327-330 | on the example route the step of P2 is 2 |
| ExportPhases.ShiftExampleDeptLists | logic/iaimportexport.py:304-310 | on the example the written list is D1, D2, D3 and the intended list is D1, D3 |
| ExportPhases.UnphasedOperationShiftsDepartments | logic/iaimportexport.py:304-338 | as written, P2 is processed in D2, the department of the phase-less operation; the intended list gives D3 |
| Classifier.ControlCentre | logic/iaimportexport_with_orders.py:470-472 | the work centre ends in `777` and has no `-` before it |
| Classifier.OrderFilterDropsEnTest | logic/iaimportexport.py:438-448 | the order variant's operation filter is the base filter without the `н` test (likewise at logic/iaimportexport_with_orders.py:406-416) |
| Classifier.SuffixTestsAreEndsWith | logic/iaimportexport.py:442-445 | the `[-1:]` and `[-2:]` slice tests are `endswith` tests |
| Classifier.NopSuffixDecides | logic/iaimportexport.py:443 | when no identity test fires, either filter keeps an operation iff its `nop` does not end in `_1`; a `nop` written as a stem and `_1` is always dropped |
| ExportCaPhases.Vpsk | logic/iaimportexport.py:400-402 | the `_VPSK` identity ends in `_VPSK` |
| ExportCaPhases.CaPhasesAfterStep | logic/iaimportexport.py:370-414 | the loop's state after one more operation is the step function applied to it |
| ExportCaPhases.IdentitySet | logic/iaimportexport.py:368 | every reported record's identity is in the set (that nothing else is: `ExportCaPhases.IdentitySetMembers`) |
| ExportCaPhases.IdentitySetMembers | logic/iaimportexport.py:368 | the set holds exactly the reported records' identities |
| ExportCaPhases.IdentitySetAppend | logic/iaimportexport.py:391-413 | appending records adds their identities to the set |
| ExportCaPhases.VpskSet | logic/iaimportexport.py:399-402 | each phase without `-` contributes its `_VPSK` identity |
| ExportCaPhases.VpskSetAdd | logic/iaimportexport.py:399-413 | one more phase adds its `_VPSK` identity exactly when it has no `-` |
| ExportCaPhases.ListPhaseFacts | logic/iaimportexport.py:390-414 | listing a phase keeps `unique_identities` equal to the reported identities, adds the phase and its `_VPSK` identity when new, and reports nothing twice |
| ExportCaPhases.CandidatePhasesStep | logic/iaimportexport.py:370-378 | one more operation adds its phase when it has no `н` or `с` and has a phase |
| ExportCaPhases.CaPhasesCounters | logic/iaimportexport.py:382-388 | `phase_route` and `route_step` are the counters of a walk over the operations without `н` or `с` |
| ExportCaPhases.CaPhasesUniqueIsReported | logic/iaimportexport.py:368 | `unique_identities` is exactly the set of reported identities (likewise at logic/iaimportexport.py:411-414) |
| ExportCaPhases.CaPhasesIdentities | logic/iaimportexport.py:390-414 | the reported identities are the candidates' phases plus the `_VPSK` identities of those without `-` (no phase itself ending in `_VPSK`) |
| ExportCaPhases.CaPhasesDistinct | logic/iaimportexport.py:390-414 | no identity is reported twice when no phase itself ends in `_VPSK` |
| ExportCaPhases.AdvancePhaseRoute | logic/iaimportexport.py:382-388 | the update of `phase_route` and `route_step` is the counters' step function |
| ExportCaPhases.ExportCaPhases | logic/iaimportexport.py:351-416 | the export equals the specified listing over the operations sorted by `nop` |
| ExportCaPhases.CaPhasesLoop | logic/iaimportexport.py:370-414 | the loop over the sorted operations produces the report of the specified listing |
| ExportCaPhases.ListPhaseInto | logic/iaimportexport.py:390-414 | listing one phase updates `unique_identities` and the report as the listing step function says |
| ExportCaPhases.CaPhasePriority | logic/iaimportexport.py:396 | a route's `route_step` is its number of phase runs among the candidate operations |
| ExportCaOperations.OperationIdentity | logic/iaimportexport.py:473-476 | the identity starts with the phase and ends with the `nop`'s last `_` part |
| ExportCaOperations.Report | logic/iaimportexport.py:450-495 | the report after n kept operations has at most n records |
| ExportCaOperations.CountsAfterStep | logic/iaimportexport.py:455-457 | one more kept operation adds one to its route's counter |
| ExportCaOperations.CountsAreRouteLengths | logic/iaimportexport.py:453-457 | each route's counter is the number of its kept operations so far |
| ExportCaOperations.CountIsPriority | logic/iaimportexport.py:457-490 | the counter read right after counting an operation is its priority |
| ExportCaOperations.ReportStep | logic/iaimportexport.py:467-493 | one more kept operation adds its record exactly when its `nop` has `_` and it has a phase |
| ExportCaOperations.RecordAtParts | logic/iaimportexport.py:478-493 | a record's fields, field by field, from the lookups |
| ExportCaOperations.CountOperation | logic/iaimportexport.py:455-457 | `operation_priority[route] += 1`, a new route starting at 0 |
| ExportCaOperations.KeptLookups | logic/iaimportexport.py:459-488 | the dictionary lookups of the loop succeed on every kept operation |
| ExportCaOperations.ListOperation | logic/iaimportexport.py:453-493 | one pass of the loop: the route counter becomes its count after the operation, and the report becomes the specified report one operation further |
| ExportCaOperations.ExportCaOperations | logic/iaimportexport.py:418-495 | the export equals the specified report over the kept operations sorted by `nop` |
| ExportCaOperations.PriorityIsRank | logic/iaimportexport.py:453-490 | an operation's priority is its 1-based rank among its route's kept operations, skipped ones included |
| ExportCaOperations.PriorityIncreases | logic/iaimportexport.py:490 | priorities strictly increase along one route |
| ExportCaOperations.ReportMembers | logic/iaimportexport.py:467-493 | the report holds exactly the records of the kept operations with `_` in the `nop` and a phase |
| ExportCaOperations.RouteCount | logic/iaimportexport.py:453-457 | the last kept operation of a route has its route's full count |
| DailyTasks.SlotOf | logic/iaimportexport.py:745-748 | a task is in the evening shift exactly when its (shifted) hour is 12 or later |
| DailyTasks.SlotText | logic/iaimportexport.py:745-748 | the shift text has eight characters, no `_`, and is `19:00:00` exactly for the evening |
| DailyTasks.DeltaWholeTask | logic/iaimportexport.py:753-755 | a task without labour marks, or with zero marks, finishes its whole floored amount |
| DailyTasks.DeltaNonNegative | logic/iaimportexport.py:753-755 | a non-negative amount with marks that do not go backwards finishes no negative number of units |
| DailyTasks.DeltaSplits | logic/iaimportexport.py:753-755 | splitting a task at a non-zero labour mark splits its units exactly |
| DailyTasks.OrderPrefix | logic/iaimportexport_with_orders.py:655-659 | the order prefix is empty without an order, else at most ten characters ending in `_` (likewise at logic/iaimportexport_with_orders.py:777) |
| DailyTasks.Stamp | logic/iaimportexport.py:766 | a record identity starts with its ten-character date |
| DailyTasks.PrefixSplit | logic/iaimportexport_with_orders.py:777 | two identities with `_`-terminated order prefixes of at most ten characters split the same way |
| DailyTasks.StampSplit | logic/iaimportexport.py:766 | equal identities have equal date, shift and operation |
| DailyTasks.KeyInjective | logic/iaimportexport.py:765-783 | distinct (order, operation, date, shift) buckets get distinct identities (likewise at logic/iaimportexport_with_orders.py:776-795) |
| DailyTasks.KeysInjective | logic/iaimportexport.py:765-783 | the identity function is injective on all buckets |
| DailyTasks.AddView | logic/iaimportexport.py:753-763 | one task's accumulation keeps the equipment table well formed |
| DailyTasks.Aggregated | logic/iaimportexport.py:695-763 | the accumulation over the tasks keeps the equipment table well formed |
| DailyTasks.AggregatedStep | logic/iaimportexport.py:695-763 | the accumulation over one more task is one more step |
| DailyTasks.TotalAppend | logic/iaimportexport.py:753-755 | a bucket's total over concatenated tasks is the sum of the totals |
| DailyTasks.AggregatedQuantities | logic/iaimportexport.py:753-755 | a bucket exists exactly when some counted task lands in it, and holds those tasks' units |
| DailyTasks.AddViewEquipment | logic/iaimportexport.py:760-763 | one task adds its units to its own equipment entry and leaves every other entry alone |
| DailyTasks.AggregatedEquipment | logic/iaimportexport.py:757-763 | an equipment entry exists exactly when some task used that equipment in that cell, and holds those tasks' units |
| DailyTasks.LastAssemblyExists | logic/iaimportexport.py:731-732 | an operation has a last assembly element exactly when some task names it |
| DailyTasks.AggregatedAssemblies | logic/iaimportexport.py:731-732 | `operation_entity_dict` holds the assembly element of each operation's last task |
| DailyTasks.CountedHaveAssemblies | logic/iaimportexport.py:770 | every counted operation has an assembly element, so `operation_entity_dict[operation]` never fails |
| DailyTasks.TaskRecords | logic/iaimportexport.py:765-783 | one record per bucket under its own identity, and nothing else |
| DailyTasks.RecordTotals | logic/iaimportexport.py:765-783 | a bucket's quantity and equipment quantities are the totals of its tasks |
| DailyTasks.FirstCarried | logic/iaimportexport.py:791-799 | a carried row is a backup row with that identity dated today or later |
| DailyTasks.MergedRecords | logic/iaimportexport.py:785-801 | the merge keeps every new record; another identity is present iff a backup row dated today or later has it, taken from the first such row |
| DailyTasks.MergedCarriedAreCurrent | logic/iaimportexport.py:792-799 | a carried row is dated today or later, with quantity 0 and no equipment |
| DailyTasks.MergedIdentities | logic/iaimportexport.py:794-797 | records stay under their own identity through the merge |
| DailyTasks.RecordsUpcoming | logic/iaimportexport.py:750-751 | when every counted task is dated today or later, so is every record |
| DailyTasks.MergedUpcoming | logic/iaimportexport.py:792-793 | the merge only carries rows dated today or later |
| DailyTasks.MergeSnapshot | logic/iaimportexport.py:785-801 | the backup loop equals the merge, and a missing file merges nothing |
| DailyTasks.Output | logic/iaimportexport.py:803-814 | an empty result is an error (`[0]` on an empty list); otherwise one value per key (the key order is `DailyTasks.OutputSorted`'s) |
| DailyTasks.OutputSorted | logic/iaimportexport.py:814 | the output lists every record exactly once, in strictly increasing order of identity |
| DailyTasks.OutputMembers | logic/iaimportexport.py:814 | the output holds only records of the result |
| DailyTasks.ExportUpcoming | logic/iaimportexport.py:750-793 | no output record is dated before today, whatever the backup holds |
| DailyTasks.Accumulate | logic/iaimportexport.py:731-763 | the loop's `+=` on the nested defaultdicts and the assembly element is the accumulation step |
| SimTasks.SecondPart | logic/iaimportexport.py:726 | `nop.split('_')[1]` holds no `_` |
| SimTasks.BaseGateCases | logic/iaimportexport.py:699-751 | a task passes iff its department passes both filters, its operation passes the six tests and its `nop` has `_`; it is due iff also dated today or later |
| SimTasks.BaseGateUnfold | logic/iaimportexport.py:699-751 | the gate case by case, with every lookup it makes |
| SimTasks.GateTask | logic/iaimportexport.py:696-751 | the loop body up to the date test equals the gate, each `continue` giving Skip |
| DailyTasksBase.BaseEquipment | logic/iaimportexport.py:757-760 | a task counts equipment only under a non-empty identity |
| DailyTasksBase.BaseViews | logic/iaimportexport.py:695 | one classification per task, in query order |
| DailyTasksBase.BaseViewsUpcoming | logic/iaimportexport.py:750-755 | the base variant counts only tasks dated today or later, never under an order |
| DailyTasksBase.ClassifyBaseCases | logic/iaimportexport.py:699-763 | a task is counted iff it passes every test and is dated today or later, and then with the units it finishes in its shift |
| DailyTasksBase.ClassifyTask | logic/iaimportexport.py:696-760 | the loop body up to the accumulation equals the classification |
| DailyTasksBase.ExportCaDailyTasks | logic/iaimportexport.py:651-814 | the export equals the output of the backup merge over the records of the accumulated tasks |
| DailyTasksBase.ExportCaDailyTasksUpcoming | logic/iaimportexport.py:750-793 | no record the base export returns is dated before today |
| DailyTasksOrders.SuffixMarks | logic/iaimportexport_with_orders.py:665-674 | a setup or preparation operation's identity carries the mark that forces quantity 1 (likewise at logic/iaimportexport_with_orders.py:782) |
| DailyTasksOrders.IdentitiesAgree | logic/iaimportexport_with_orders.py:675-679 | for a two-part `nop` without setup or preparation time, both variants build the same operation identity (likewise at logic/iaimportexport.py:724-727) |
| DailyTasksOrders.OrderGateCases | logic/iaimportexport_with_orders.py:632-703 | a task is skipped iff its department fails the department filter or the order filter (the five identity and `nop` tests, no `н` test) drops its operation; it is due iff not skipped and dated today or later; a task not skipped carries its operation identity and the identity of its route's entity |
| DailyTasksOrders.OrderGateUnfold | logic/iaimportexport_with_orders.py:632-703 | the order gate case by case, with every lookup it makes |
| DailyTasksOrders.GateOrderTask | logic/iaimportexport_with_orders.py:629-703 | the loop body up to the date test equals the order gate, and a passing task's order is its batch's order name cut to nine characters |
| DailyTasksOrders.OrderEquipment | logic/iaimportexport_with_orders.py:709-726 | a task counts equipment only under a non-empty identity |
| DailyTasksOrders.ControlAlwaysCounted | logic/iaimportexport_with_orders.py:714-717 | an inspection class always counts, under the department's `777` work centre |
| DailyTasksOrders.OrderViews | logic/iaimportexport_with_orders.py:628 | one classification per task, in query order |
| DailyTasksOrders.ClassifyOrderCases | logic/iaimportexport_with_orders.py:632-729 | a task is counted iff it passes the order gate and is due, under its order and with the units it finishes |
| DailyTasksOrders.OrderViewsUpcoming | logic/iaimportexport_with_orders.py:702-707 | the order variant counts only tasks dated today or later, each under its order |
| DailyTasksOrders.ClassifyOrderTask | logic/iaimportexport_with_orders.py:629-729 | the loop body equals the order classification |
| DailyTasksOrders.ExportCaDailyTasksWithOrders | logic/iaimportexport_with_orders.py:576-826 | the export equals the output of the backup merge over the order records of the accumulated tasks |
| DailyTasksOrders.ExportCaDailyTasksWithOrdersUpcoming | logic/iaimportexport_with_orders.py:702-703 | no record the order export returns is dated before today (likewise at logic/iaimportexport_with_orders.py:804-805) |
| DailyTasksOrders.MarkedRecordsCountOne | logic/iaimportexport_with_orders.py:782-788 | a marked operation's record has quantity 1 and equipment quantities 1; others have their tasks' totals |
| Orders.OrderKeyOf | logic/iaimportexport_with_orders.py:569-573 | `name[:9]` is a prefix of the name, and the whole name when it has at most nine characters |
| Orders.OrderList | logic/iaimportexport_with_orders.py:203 | iterating a key's order set lists each of its orders exactly once and nothing else (likewise at logic/iaimportexport_with_orders.py:308) |
| Orders.AddOrder | logic/iaimportexport_with_orders.py:574 | `orders[k].add(o)` adds o to key k and changes no other key |
| Orders.AddOrdersStep | logic/iaimportexport_with_orders.py:316 | adding one more order of the loop updates that key's set only |
| Orders.AddOrdersUnion | logic/iaimportexport_with_orders.py:308-316 | adding orders one by one adds exactly them, to that key only |
| Orders.FileStep | logic/iaimportexport_with_orders.py:512-574 | one more filing adds its orders under its key |
| Orders.FileMembers | logic/iaimportexport_with_orders.py:512-574 | a key holds an order after the filings iff it held it before or some filing under that key adds it |
| Orders.FileTwice | logic/iaimportexport_with_orders.py:574 | filing the same orders again adds nothing |
| Orders.FlattenStep | logic/iaimportexport_with_orders.py:197-204 | flattening one more block appends it |
| Orders.FlattenAppend | logic/iaimportexport_with_orders.py:197-204 | flattening distributes over concatenation |
| Orders.FlattenMembers | logic/iaimportexport_with_orders.py:197-204 | a record is in the flattened blocks iff it is in one of them |
| Orders.TaskFilingFiles | logic/iaimportexport_with_orders.py:512-574 | a task files order o under entity e iff it passes the tests, is dated today or later, and o is its batch's order under its entity |
| Orders.TaskFilings | logic/iaimportexport_with_orders.py:512 | one filing per task, in query order |
| Orders.CollectedMembers | logic/iaimportexport_with_orders.py:512-574 | an entity holds an order after the loop iff it held it before or some task files it there |
| Orders.CollectTwice | logic/iaimportexport_with_orders.py:482-574 | collecting the same tasks a second time adds nothing |
| Orders.EntityRecords | logic/iaimportexport_with_orders.py:197-203 | one record per order of the entity, and only those |
| Orders.ExportEntitiesMembers | logic/iaimportexport_with_orders.py:195-204 | a record is emitted iff it is an entity under one of its orders, with the order in front of the identity and vendor code |
| Orders.RouteRecords | logic/iaimportexport_with_orders.py:308-315 | one record per order of the route's entity, in iteration order |
| Orders.RouteRecordsMembers | logic/iaimportexport_with_orders.py:308-315 | a record is written for a route iff it is that route's record for one of the orders of its entity |
| Orders.RouteBlockToRecord | logic/iaimportexport_with_orders.py:307-315 | every record of the routes' blocks is some route's record for one of its entity's orders |
| Orders.RouteOrdersLoop | logic/iaimportexport_with_orders.py:308-316 | the inner loop appends one record per order, in order, prefixing the order to the route and the entity, and files every order under the route |
| Orders.RouteOrders | logic/iaimportexport_with_orders.py:307-316 | one route's pass writes that route's records and files the route under each order of its entity |
| Orders.RouteBlocks | logic/iaimportexport_with_orders.py:307-316 | one block of records per route, in order |
| Orders.RoutesReportMembers | logic/iaimportexport_with_orders.py:299-318 | every route record names a route under one of its entity's orders, and every such record is emitted |
| Orders.RouteFilings | logic/iaimportexport_with_orders.py:316 | each route files its entity's orders under the route's identity |
| Orders.RoutesOrdersMembers | logic/iaimportexport_with_orders.py:307-316 | afterwards a route identity holds exactly its earlier orders and the orders of the entities of the routes with that identity |
| Orders.OrderRegistry.constructor | logic/iaimportexport_with_orders.py:55-56 | both order tables start empty |
| Orders.OrderRegistry.CollectOrdersFromDailyTasks | logic/iaimportexport_with_orders.py:482-574 | `entity_orders` becomes the collection over the tasks; `routes_orders` is unchanged |
| Orders.OrderRegistry.ExportOrderEntities | logic/iaimportexport_with_orders.py:195-204 | a record is emitted iff it is an entity under one of the orders filed for it |
| Orders.OrderRegistry.ExportRouteOrders | logic/iaimportexport_with_orders.py:308-316 | one route's records, and its entity's orders filed under its identity |
| Orders.OrderRegistry.ExportCaRoutes | logic/iaimportexport_with_orders.py:299-318 | the report of all routes, each route's orders filed in `routes_orders`, and `entity_orders` unchanged |
| OrderPhases.Block | logic/iaimportexport_with_orders.py:360-367 | a phase record is written once per order of its route, each with the order in front of its identity and process |
| OrderPhases.Blocks | logic/iaimportexport_with_orders.py:359-378 | one block per base record, in order |
| OrderPhases.ExpandAppend | logic/iaimportexport_with_orders.py:359-378 | expanding records per order distributes over concatenation |
| OrderPhases.ExpandOne | logic/iaimportexport_with_orders.py:360-367 | expanding one record gives its block |
| OrderPhases.ExpandMembers | logic/iaimportexport_with_orders.py:359-378 | a record is in the expansion iff it is a base record written for one of its route's orders |
| OrderPhases.OrderCaPhasesAfterStep | logic/iaimportexport_with_orders.py:339-382 | the loop's state after one more operation is the order step function applied to it |
| OrderPhases.ListPhaseExpand | logic/iaimportexport_with_orders.py:359-382 | one phase listed by both variants: the order variant lists the same identities and writes the base records once per order (likewise at logic/iaimportexport.py:390-414) |
| OrderPhases.OrderPhasesExpand | logic/iaimportexport_with_orders.py:320-384 | the order variant's report is the base report with each record written once per order of its route (no phase ending in `_VPSK`) |
| OrderPhases.AppendBlock | logic/iaimportexport_with_orders.py:360-367 | the inner loop over a route's orders appends the record's block |
| OrderPhases.ExportCaPhasesWithOrders | logic/iaimportexport_with_orders.py:320-384 | the export equals the order listing over the operations sorted by `nop`, read from `routes_orders` |
| OrderPhases.OrderCaPhasesLoop | logic/iaimportexport_with_orders.py:339-382 | the loop over the sorted operations produces the report of the order listing |
| OrderPhases.OrderPhasesCounters | logic/iaimportexport_with_orders.py:351-357 | the order variant's counters are the base export's |
| OrderOperations.OrderBlock | logic/iaimportexport_with_orders.py:446-478 | a listed kept operation gives one record per order of its assembly element; an unlisted one gives none |
| OrderOperations.OrderBlocks | logic/iaimportexport_with_orders.py:421-478 | one block per kept operation, in order |
| OrderOperations.OrderReportMembers | logic/iaimportexport_with_orders.py:421-480 | a record is reported iff it is the record of a listed kept operation for one of its element's orders |
| OrderOperations.OrderBlockToRecord | logic/iaimportexport_with_orders.py:446-478 | every record of the blocks is the record of a listed kept operation for one order of its assembly element |
| OrderOperations.OrderRecordRefinesBase | logic/iaimportexport_with_orders.py:446-478 | the order record is the base record with the order in front of its identity, phase, element and process; setup or preparation marks its identity, number and name (likewise at logic/iaimportexport.py:478-493) |
| OrderOperations.ControlWorkCenter | logic/iaimportexport_with_orders.py:469-472 | an inspection class's work centre ends in `777` with no `-` before it |
| OrderOperations.KeptAgree | logic/iaimportexport_with_orders.py:406-416 | without `н` identities the two filters keep the same operations (likewise at logic/iaimportexport.py:438-448) |
| OrderOperations.OrderKeptIsKept | logic/iaimportexport_with_orders.py:406-416 | without `н` identities the order variant keeps the base export's operations |
| OrderOperations.OrderKeptLookups | logic/iaimportexport_with_orders.py:427-473 | the dictionary lookups of the loop succeed on every kept operation |
| OrderOperations.EmitOrders | logic/iaimportexport_with_orders.py:446-478 | the inner loop over the orders appends the operation's block |
| OrderOperations.ExportCaOperationsWithOrders | logic/iaimportexport_with_orders.py:386-480 | the export equals the order report over the kept operations, read from `entity_orders` |
| Catalogue.ExportEntities | logic/iaimportexport.py:190-200 | one row per entity, its identity doubling as vendor code |
| Catalogue.OrderEntitiesPrefixBase | logic/iaimportexport_with_orders.py:195-204 | an order-variant entity row is a base row with an order of that entity in front of identity and vendor code (likewise at logic/iaimportexport.py:196-200) |
| Catalogue.ExportDepartments | logic/iaimportexport.py:202-213 | one row per department with its identity and name |
| Catalogue.ExportCaEquipment | logic/iaimportexport.py:215-221 | one row per equipment class with its identity and name |
| Catalogue.ExportCaRoutes | logic/iaimportexport.py:266-280 | one row per route, naming the route and its entity's identity |
| Catalogue.OrderRoutesPrefixBase | logic/iaimportexport_with_orders.py:299-318 | an order-variant route row is a base row with an order of the route's entity in front of identity and element (likewise at logic/iaimportexport.py:273-278) |
| Catalogue.OrderRoutesToBase | logic/iaimportexport_with_orders.py:307-315 | an order-variant route record is a base route row with one order of its assembly prefixed to identity and assembly (likewise at logic/iaimportexport.py:273-278) |
| Catalogue.OrderRoutesFromBase | logic/iaimportexport_with_orders.py:307-315 | conversely, every base route row with an order of its assembly prefixed is an order-variant route record (likewise at logic/iaimportexport.py:273-278) |
| Catalogue.EquipmentRows | logic/iaimportexport.py:232-244 | only equipment with a non-empty identity is listed, with the identity as its number |
| Catalogue.EquipmentRowsStep | logic/iaimportexport.py:233-242 | one more piece of equipment appends its row exactly when its identity is set |
| Catalogue.EquipmentRowsMembers | logic/iaimportexport.py:233-242 | a row is listed iff it is the row of some equipment with an identity |
| Catalogue.AppendEquipment | logic/iaimportexport.py:233-242 | the loop appends the equipment rows |
| Catalogue.ExportCaEquipmentNew | logic/iaimportexport.py:223-244 | the export equals the equipment rows |
| Catalogue.ClassIndex | logic/iaimportexport_with_orders.py:241-243 | the equipment class dict is well formed |
| Catalogue.DepartmentIndex | logic/iaimportexport_with_orders.py:238-240 | the department dict is well formed |
| Catalogue.DepartmentValuesDistinct | logic/iaimportexport_with_orders.py:228 | with distinct ids, `departments_dict.values()` are the departments in order |
| Catalogue.NonControlRows | logic/iaimportexport_with_orders.py:222-227 | no listed class is `Контроль`, and there are no more rows than classes |
| Catalogue.NonControlRowsStep | logic/iaimportexport_with_orders.py:222-227 | one more class appends its row exactly when it is not `Контроль` |
| Catalogue.NonControlRowsFilterBase | logic/iaimportexport_with_orders.py:222-227 | the order variant's class rows are the base rows without `Контроль` (likewise at logic/iaimportexport.py:218-221) |
| Catalogue.ControlRows | logic/iaimportexport_with_orders.py:228-232 | one `777` inspection row per department |
| Catalogue.AppendControlRows | logic/iaimportexport_with_orders.py:228-232 | the loop appends the inspection rows |
| Catalogue.ExportCaEquipmentWithOrders | logic/iaimportexport_with_orders.py:215-233 | the export is the non-inspection class rows followed by one inspection row per department |
| Catalogue.EquipmentWithOrdersRows | logic/iaimportexport_with_orders.py:215-233 | a row is exported iff it is a non-inspection class or a department's inspection centre |
| Catalogue.ClassDepartmentsStep | logic/iaimportexport_with_orders.py:246-247 | one more piece of equipment sets its class's department |
| Catalogue.ClassDepartmentsLastWins | logic/iaimportexport_with_orders.py:245-247 | a class has a department iff some equipment has that class, and it is the department of the last such equipment |
| Catalogue.ManualRows | logic/iaimportexport_with_orders.py:257-268 | at most one row per class |
| Catalogue.ManualRowsStep | logic/iaimportexport_with_orders.py:257-268 | one more class appends a row exactly when it is `Ручные операции` with a known department |
| Catalogue.ManualRowsMembers | logic/iaimportexport_with_orders.py:257-268 | a row is listed iff it is a manual class with a known department; one without is skipped, as the `KeyError` handler does |
| Catalogue.ControlEquipmentRows | logic/iaimportexport_with_orders.py:270-277 | one `777` inspection equipment row per department |
| Catalogue.SetClassDepartments | logic/iaimportexport_with_orders.py:245-256 | the loop sets the class departments and lists the equipment rows |
| Catalogue.ExportCaEquipmentNewWithOrders | logic/iaimportexport_with_orders.py:235-278 | the export is the equipment rows, then the manual-class rows, then one inspection row per department |
| Catalogue.AppendManualRows | logic/iaimportexport_with_orders.py:257-268 | the loop appends the manual-class rows |
| Catalogue.AppendControlEquipment | logic/iaimportexport_with_orders.py:270-277 | the loop appends the inspection equipment rows |
| Catalogue.ManualClassRows | logic/iaimportexport_with_orders.py:245-268 | a manual class with equipment is listed under the department of its last piece of equipment |
| BfgPlan.PyIndex | logic/iaimportexport.py:607-614 | `s[i]` succeeds iff `-len(s) <= i < len(s)`, a negative index counting from the end; otherwise `IndexError` |
| BfgPlan.PlanDate | logic/iaimportexport.py:626-633 | `max(task_date, today)`: one of the two dates, and before neither of them |
| BfgPlan.PlanEntries | logic/iaimportexport.py:599-640 | one entry per task in query order: the task's phase, date and quantity, or nothing when it is skipped |
| BfgPlan.FirstTypeIsLowestNop | logic/iaimportexport.py:579-611 | a task counted for export type 0 is the operation with the lowest `nop` of its phase |
| BfgPlan.PhaseListMembers | logic/iaimportexport.py:568-577 | every operation of a phase group has that phase and no `н` |
| BfgPlan.AddTotalAt | logic/iaimportexport.py:638-640 | `report[p][d] += q` adds q to that cell, creates it if new, and changes no other cell |
| BfgPlan.TotalsAfter | logic/iaimportexport.py:597-640 | the nested totals stay well formed |
| BfgPlan.TotalsAfterStep | logic/iaimportexport.py:599-640 | one more task adds its entry, if any |
| BfgPlan.TotalsAreSums | logic/iaimportexport.py:597-640 | each total is the sum of the quantities counted at that phase and date, present iff some task was counted there |
| BfgPlan.PhaseRecords | logic/iaimportexport.py:642-649 | one record per date of a phase, in key order |
| BfgPlan.PlanRecordsMembers | logic/iaimportexport.py:642-649 | a record is written iff its phase and date are present, with their total |
| BfgPlan.PlanTotals | logic/iaimportexport.py:597-649 | a record for a phase and date iff some task is counted there, with the sum of their quantities, never dated before today |
| BfgPlan.PlanEntriesUpcoming | logic/iaimportexport.py:626-633 | every entry of the export is dated today or later |
| BfgPlan.GroupByPhase | logic/iaimportexport.py:563-582 | the grouping loop and sort give each phase's group in (route, `nop`) order, then sorted by `nop` |
| BfgPlan.GroupPhases | logic/iaimportexport.py:568-577 | the grouping loop puts in each phase's group the operations without `н` that have that phase, in input order |
| BfgPlan.CountTask | logic/iaimportexport.py:604-640 | the loop body adds the task's entry to the totals, or nothing when it is skipped |
| BfgPlan.ExportBfgPlan | logic/iaimportexport.py:550-649 | the export equals the records of the totals over the tasks' entries |
| Wip.Round | logic/iaimportexport.py:1021 | `round` gives an integer within 0.5 of its argument, a tie going to the even one |
| Wip.ResolvedPhase | logic/iaimportexport.py:1002-1014 | a batch with an operation takes that operation's phase; one without takes its entity's last main-route phase, only when its progress is not 0 and the entity has a main route |
| Wip.ResolveBatch | logic/iaimportexport.py:1003-1014 | the loop's phase resolution for a batch equals the resolution function, the skips included |
| Wip.ExportCaWip | logic/iaimportexport.py:981-1025 | the export equals the WIP report of the totals and departments accumulated over the batches |
| Wip.WipRecords | logic/iaimportexport.py:1000-1023 | a record is written per phase counted, iff some batch counts there, with the rounded sum of the amounts and the last such batch's department code; no phase twice |
| Wip.UnroutedEntities | logic/iaimportexport.py:1154-1160 | at most one logged entity per batch |
| Wip.UnroutedEntitiesMembers | logic/iaimportexport.py:1154-1160 | an entity is logged iff some live batch of it resolves to no phase |
| Wip.ExportPgWip | logic/iaimportexport.py:1111-1172 | the export equals the PG report of the totals over the live batches, and the log lists the unrouted entities |
| Wip.EntriesPrefix | logic/iaimportexport.py:1002-1016 | the entries of a prefix of the batches are a prefix of the entries (likewise at logic/iaimportexport.py:1139-1162) |
| Wip.PgTotalsAreWipTotals | logic/iaimportexport.py:1139-1162 | the PG total of a phase is the base WIP total of that phase over the batches that are not snapshots (likewise at logic/iaimportexport.py:1002-1016) |
| Wip.BatchDepartment | logic/iaimportexport.py:1071-1076 | the department lookup succeeds iff the batch has an operation, the operation is known and so is its department |
| Wip.StockKey | logic/iaimportexport.py:1072-1075 | the `phase|department|entity` key has at least three `|` parts |
| Wip.StockKeysSplit | logic/iaimportexport.py:1101-1108 | every accumulated key has at least three `|` parts, so `split('|')[2]` never fails |
| Wip.StockTotals | logic/iaimportexport.py:1057-1084 | the stock totals are well formed and every key splits into three parts |
| Wip.ReroutedBatches | logic/iaimportexport.py:1077-1083 | at most one printed batch identity per batch |
| Wip.ReroutedBatchesMembers | logic/iaimportexport.py:1077-1083 | a batch is printed iff it counts and its department lookup fails |
| Wip.CountStock | logic/iaimportexport.py:1071-1084 | the `try`/`except KeyError` adds the amount under the batch's department, or under `02904` with the batch printed |
| Wip.StockBatch | logic/iaimportexport.py:1058-1084 | one batch adds its entry to `report_temp`, or nothing when it is skipped, and is printed iff it is sent to `02904` |
| Wip.StockLoop | logic/iaimportexport.py:1057-1084 | the loop's `report_temp` is the tally of the batches' entries and the printed batches are those sent to `02904` |
| Wip.ExportCaZapasy | logic/iaimportexport.py:1027-1109 | the export equals the stock report of the totals, and the printed batches are those sent to `02904` |
| Wip.StockKeyRoundTrip | logic/iaimportexport.py:1072-1106 | splitting a key built from parts without `|` gives back phase, department and entity |
| Wip.StockRecords | logic/iaimportexport.py:1057-1108 | a stock record per key iff some batch counts there, with the sum of its amounts and the fields recovered from the key; no key twice |
| Tallies.Add | logic/iaimportexport.py:1015 | `d[k] += x` adds x to k's total, 0 for a new key, and adds only k to the keys (likewise at logic/erp_fact_from_csv.py:48) |
| Tallies.Tally | logic/iaimportexport.py:1000-1016 | the totals are a well-formed dictionary |
| Tallies.Notes | logic/iaimportexport.py:1016 | the side dictionary (`department[key] = ...`) has exactly the keys of the totals |
| Tallies.TallyStep | logic/iaimportexport.py:1002-1016 | one more row adds its entry, if any, to totals and notes |
| Tallies.TallyIsSum | logic/iaimportexport.py:1015 | each total is the sum of the amounts counted under its key, and a key is present iff something was counted under it (likewise at logic/erp_fact_from_csv.py:48) |
| Tallies.NotesLastWins | logic/iaimportexport.py:1016 | the note kept for a key is that of the last row counted under it |
| Tallies.SumSwap | logic/erp_fact_from_csv.py:35-48 | swapping two neighbouring rows changes no total |
| ErpFact.FactGroupMember | logic/erp_fact_from_csv.py:21-33 | an operation is in `operations_list[key]` iff it is one of the operations, its route is known and its group key is `key` |
| ErpFact.FactGroupLast | logic/erp_fact_from_csv.py:30-43 | `[-1]` of a sorted group has the greatest `nop` of the group |
| ErpFact.FactKey | logic/erp_fact_from_csv.py:45-47 | the `prefix|date` key has at least two `|` parts, so `split('|')[1]` never fails |
| ErpFact.FactKeysSplit | logic/erp_fact_from_csv.py:50-57 | every key accumulated from such keys has at least two `|` parts |
| ErpFact.FactTotals | logic/erp_fact_from_csv.py:35-48 | `summ` is a well-formed dictionary whose every key splits into two parts |
| Grouping.AppendToGroup | logic/erp_fact_from_csv.py:28 | `operations_list[key].append(row)` appends to that key's group alone and keeps the dictionary well formed (likewise at logic/iaimportexport.py:577) |
| ErpFact.GroupRoutes | logic/erp_fact_from_csv.py:21-28 | the grouping loop puts in each group the operations with its key, in the order of the sorted operations |
| Grouping.SortGroups | logic/erp_fact_from_csv.py:30-33 | every group after the sorting loop is the group before it sorted by `nop` (likewise at logic/iaimportexport.py:579-582) |
| ErpFact.FactLoop | logic/erp_fact_from_csv.py:35-48 | the loop over the rows accumulates `summ` as the totals of the rows' entries |
| ErpFact.GroupByRoute | logic/erp_fact_from_csv.py:16-33 | the groups equal the operations with that key, taken in (route, `nop`) order and sorted by `nop` |
| ErpFact.GetErpFact | logic/erp_fact_from_csv.py:7-59 | the report equals the records of the totals over the rows' entries |
| ErpFact.FactCountsLastOperation | logic/erp_fact_from_csv.py:36-44 | a row counts only when its code begins the identity of an operation of its prefix's group that has the greatest `nop` in that group |
| ErpFact.FactRecords | logic/erp_fact_from_csv.py:35-57 | a record is in the report iff some row was counted under its identity, with the sum of those rows' amounts and the fields read from the key; no identity twice |
| ErpFact.FactKeyRoundTrip | logic/erp_fact_from_csv.py:45-55 | reading back the key of a prefix and a date without `|` gives the prefix as the transition and the date as the date |
| ErpPlan.Decimal | logic/erp_plan_from_csv.py:11 | the decimal writing of a number is a non-empty string of digits |
| ErpPlan.DigitsOfDecimal | logic/erp_plan_from_csv.py:11 | the digits of a written number read back as that number |
| ErpPlan.ParseDecimal | logic/erp_plan_from_csv.py:11 | `int` reads back a written integer, with or without its sign |
| ErpPlan.ParseIntAccepts | logic/erp_plan_from_csv.py:11 | the model's `int` accepts exactly a non-empty run of ASCII digits after at most one `+` or `-`; `amount or 0` also accepts the empty amount |
| ErpPlan.GetErpPlan | logic/erp_plan_from_csv.py:4-13 | the import succeeds iff every amount reads as an integer, giving one record per row in order with identity, transition, dashed date and quantity; otherwise it fails on the first amount that does not read |
| Raport.Reset | logic/raport_from_csv.py:12 | the backup's codes all start at 0 |
| Raport.Merge | logic/raport_from_csv.py:15-18 | the loop over the new rows keeps the dictionary well formed |
| Raport.LastQuantityIsLast | logic/raport_from_csv.py:17-18 | the quantity found for a code is that of its last row, and none is found iff no row has the code |
| Raport.MergeAt | logic/raport_from_csv.py:15-18 | after the loop a code is present iff it was before or some row has it, with its last row's quantity, or its old value when no row has it |
| Raport.MergeKeys | logic/raport_from_csv.py:15-18 | codes already present keep their places, and no code is added when every row's code was present |
| Raport.ResetKeys | logic/raport_from_csv.py:12 | a backup of distinct codes gives them in the file's order |
| Raport.ResetIn | logic/raport_from_csv.py:12 | a code is in the reset dictionary iff it is in the backup |
| Raport.Start | logic/raport_from_csv.py:6-14 | the start is the backup's codes at 0, or empty without a backup file |
| Raport.Lines | logic/raport_from_csv.py:20-23 | one line per code of the dictionary |
| Raport.GetRaport | logic/raport_from_csv.py:5-36 | the report and the backup written equal the lines of the merged dictionary, or the `IndexError` of an empty report |
| Raport.RaportLines | logic/raport_from_csv.py:6-23 | a code has a line iff it is in the backup or in the new file, with its last quantity in the new file or 0; no code twice |
| Raport.RerunAt | logic/raport_from_csv.py:6-34 | starting again from the codes a run ended with changes no code's presence or quantity |
| Raport.RerunKeys | logic/raport_from_csv.py:6-34 | starting again from the codes a run ended with adds no code and keeps their order |
| Raport.RerunItems | logic/raport_from_csv.py:6-34 | starting again from the codes a run ended with gives every code the same quantity |
| Raport.RerunMerge | logic/raport_from_csv.py:6-34 | the loop over the same rows from the codes it ended with ends where it did |
| Raport.RaportRerun | logic/raport_from_csv.py:5-36 | a second run on the same file, reading the backup the first wrote, returns the same report |
| PyStr.Take | logic/iaimportexport.py:400 | `s[:n]` has `min(n, len(s))` characters and is a prefix of `s` (likewise at logic/erp_fact_from_csv.py:38) |
| PyStr.Drop | logic/erp_fact_from_csv.py:25-26 | `s[:n] + s[n:]` is `s` |
| PyStr.TakeLast | logic/iaimportexport.py:442-445 | `s[-n:]` is the whole string for 0 or a longer n, otherwise n characters, and always a suffix of `s` (likewise at logic/iaimportexport.py:1016) |
| PyStr.TakeLastIsEndsWith | logic/iaimportexport.py:442-445 | `s[-len(t):] == t` iff `s` ends with `t` |
| PyStr.ReplaceChar | logic/erp_plan_from_csv.py:10 | `replace(a, b)` of one character changes every `a` to `b` and nothing else (likewise at logic/erp_fact_from_csv.py:47) |
| PyStr.RemoveChar | logic/iaimportexport_with_orders.py:230 | `replace('-', '')` leaves no `-`, adds no character and never lengthens (how often each other character is kept: `PyStr.RemoveCharCounts`; in what order: `Sorting.RemoveCharSubsequence`) |
| PyStr.RemoveCharCounts | logic/iaimportexport_with_orders.py:230 | every character other than `-` is kept exactly as often as it occurs, and `-` not at all |
| Sorting.RemoveCharSubsequence | logic/iaimportexport_with_orders.py:230 | the characters `replace('-', '')` keeps form a subsequence of the input, so with `PyStr.RemoveChar` they are the input's other characters in order |
| PyStr.JoinSplit | logic/iaimportexport.py:1103-1105 | joining the parts of `split` gives back the string |
| PyStr.SplitJoin | logic/iaimportexport.py:1103-1105 | splitting parts joined by a separator none of them holds gives back the parts |
| PyStr.SplitPartsFree | logic/iaimportexport.py:1103-1105 | no part of `split` holds the separator |
| PyStr.SplitCount | logic/iaimportexport.py:1103-1105 | `split` gives more than one part iff the separator occurs |
| PyStr.LastPart | logic/iaimportexport.py:475 | `split('_')[-1]` holds no `_` |
| PyStr.LastPartOfTail | logic/iaimportexport.py:470-476 | the last `_` part of `phase_nop` is the `nop`'s last part when that has no `_` |
| PyStr.Join3 | logic/iaimportexport.py:1072-1075 | three parts without `|` joined by `|` split back into those three parts |
| PyStr.LexTotal | logic/iaimportexport.py:291-294 | any two strings are ordered one way or the other |
| PyStr.LexAntisym | logic/iaimportexport.py:291-294 | two strings each no greater than the other are equal |
| PyStr.LexTrans | logic/iaimportexport.py:291-294 | the string order is transitive |
| Sorting.SortByPermutes | logic/iaimportexport.py:291-294 | `sorted` returns a permutation of its input |
| Sorting.SortBySorted | logic/iaimportexport.py:291-294 | `sorted` returns its input in key order |
| Sorting.SortByStable | logic/iaimportexport.py:291-294 | `sorted` is stable: the elements of one key keep their order |
| Sorting.SortedElements | logic/iaimportexport.py:814 | a set's elements listed in increasing order, each once |

## Left out

- The REST client (`_get_from_rest_collection`, login, sessions, `__enter__`/`__exit__`, `from_config`): the collections it returns are parameters of the model, as typed records in place of field-name dictionaries.
- Sending the reports and writing files: the exports return their records. The CSV files read are parameters (their rows), and the backup the stock report writes is its result.
- `tqdm` progress bars, `print` and logging: where they report something (unrouted entities, rerouted batches), the model returns that list beside the report.
- Timestamp parsing: the `%Y-%m-%dT%H:%M:%S%z` parse and the 3-hour shift are left out. Task dates are given as `YYYY-MM-DD` text with an hour, and `datetime.today()` is a parameter.
- ExportCaOperations.RecordAtParts: the `pieceTime` field (`round(prod_time / 60 / 60 * 10000) / 10000`) is not modelled; records carry every other field, and operations carry no production time.
- ExportCaOperations.ListOperation: the record it appends has no `pieceTime` field, as for `RecordAtParts`.
- ExportCaOperations.ExportCaOperations: its records have no `pieceTime` field, as for `RecordAtParts`.
- OrderOperations.OrderBlockToRecord: the order variant's `pieceTime` (`op_time`, taken from the setup, preparation or production time by the same test that picks the name suffix) is not modelled; the name, number and identity that test picks are.
- OrderOperations.ExportCaOperationsWithOrders: its records have no `pieceTime` field, as for `OrderBlockToRecord`.
- Wip.ResolveBatch: for a batch without an operation, with non-zero progress, whose entity's main route has no operation, the source raises `KeyError` in `get_entity_last_phase` and aborts the export. The model uses the corrected `PhaseResolver.EntityLastPhase` instead (see Findings), so the batch resolves to no phase.
- Wip.ExportCaWip: counts such a batch under a `None` transition where the source aborts, as for `Wip.ResolveBatch`.
- Wip.ExportPgWip: logs such a batch's entity as unrouted where the source aborts, as for `Wip.ResolveBatch`.
- Wip.ExportCaZapasy: counts such a batch under a `None` transition where the source aborts, as for `Wip.ResolveBatch`.
- Floating point: amounts are Dafny reals, so binary rounding of `float` is not modelled. `float(row['AMOUNT'])` is not parsed: the amount is given as a number.
- ErpPlan.ParseIntAccepts: states what the model's `ParseInt` accepts, not all of what Python's `int()` accepts; the difference is the next line.
- Integer parsing: `int()` accepts surrounding whitespace, `_` digit separators and decimal digits of any script (Arabic-Indic, full-width and the other Unicode decimal digits). Those forms are left out; only ASCII digits with an optional sign are modelled.
- Dangling references: a missing department, route, entity, phase link or equipment class makes the source raise `KeyError` and abort the export. The methods require those lookups to succeed (`…Resolves` predicates, `routeId in routes`) rather than modelling the abort. The one `KeyError` not handled this way is the lookup in `get_entity_last_phase`, listed above for the `Wip` exports.
- `defaultdict` reads: `operations_list[k]` on a missing key inserts an empty list. This changes no output and is modelled as a read of an empty group.
- Set iteration: the order of `entity_orders` sets is unspecified in Python. It is modelled as ascending string order.
- `export_ca_spec` (both variants), `export_phases_labor`, `export_ca_daily_tasks_from_raport`, `export_ca_employee_from_file`, `_get_operations_for_phases`, and the file-name and URL helpers are not part of this model: they are outside the exports and readers modelled here.
- `export_erp_finish`, `export_erp_fact`, `export_bfg_launch` and `export_bfg_finish` only forward to the CSV readers or to `export_bfg_plan` with fixed arguments, and are not modelled separately.
- The order variant's `export_ca_wip`, `export_ca_zapasy`, `export_pg_wip`, `get_entity_last_phase` and `get_phase_with_operation_id` repeat the base class's code and are modelled once, by `Wip` and `PhaseResolver`.
- `collect_orders_from_daily_tasks` fetches the daily tasks itself; the model takes the fetched tasks as a parameter. `OrderRegistry`'s constructor stands for the attributes `__init__` sets; the rest of `__init__` (credentials, URL, session) is left out.
- Wip.ResolveBatch: `export_ca_wip`, `export_ca_zapasy` and `export_pg_wip` each build their own `main_routes` from the routes indexed by id, and the resolver keeps another built from the route list. The model uses the resolver's `PhaseResolver.MainRoutes` for both, which have the same entities as long as route ids are distinct, as the ERP's ids are.
- `export_pg_wip` computes `last_operations` but never reads it, so the model leaves it out.
- ExportCaPhases.CaPhasesIdentities, ExportCaPhases.CaPhasesDistinct and OrderPhases.OrderPhasesExpand hold only when no phase identity already ends in `_VPSK`. Otherwise an ordinary phase can collide with a generated `_VPSK` phase.
- DailyTasksOrders.ExportCaDailyTasksWithOrders: the equipment buckets of the order variant are keyed by equipment and date, not by order, as in the source; no lemma states per-order equipment totals.
- Wip.Round: Python's `round` on a binary float can round a decimal tie the other way; the model rounds the exact real half to even.

## Findings

| source | as written | input that shows it | evidently intended | confidence | as-written member | corrected member |
|---|---|---|---|---|---|---|
| logic/iaimportexport.py:306-310, logic/iaimportexport.py:320-332 | the first pass of `export_phases` appends a department at every change of phase, `None` included, while the second pass skips operations without a phase when it counts steps | one route whose operations are P1 in D1, an operation without a phase in D2, then P2 in D3: P2 is reported as processed in D2 | a phase is processed in the department of its first operation (D3) | not executed | ExportPhases.UnphasedOperationShiftsDepartments | ExportPhases.IntendedProcessingDepartment |
| logic/iaimportexport.py:1211-1214 | `get_entity_last_phase` catches `IndexError` around a dictionary lookup, which raises `KeyError` | an entity whose main route has no operation: the lookup raises `KeyError` and ends the export | such an entity has no last phase (`None`) | not executed | PhaseResolver.EntityLastPhaseRaises | PhaseResolver.EntityLastPhase |

The exports use the corrected behaviour of the second row: `Wip` resolves a batch without an operation through `PhaseResolver.EntityLastPhase`. For the first row, `ExportPhases.DeptList`, `ExportPhases.RecordAt` and `ExportPhases.Report` take a flag that selects the list as written (`false`) or as intended (`true`). `ExportPhases.ExportPhases` is proved against the list as written, because that is what the export sends. No other part of the model reads its records.
