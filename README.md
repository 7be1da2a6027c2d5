# pydevlake subtask engine and plugin base, in Dafny

This project models the core of `pydevlake`, the Python SDK for DevLake
plugins:

- the resumable subtask run-loop `Subtask.run`, with `_start_subtask` and
  `_get_last_state`;
- the stage kinds built on it: `Collector`, `SubstreamCollector`,
  `Extractor` and `Convertor`, with their `fetch`, `process`, `_save` and
  `delete`;
- the `Plugin` base class: its stream registry, name and description,
  subtask list, stream lookup, pipeline plan and remote-scope answer.

The database is held in memory (`Store.Session`):

- the `SubtaskRun` checkpoint table is a sequence of rows whose id is their
  row number;
- raw and tool tables are sequences per stream;
- domain tables are a map keyed by table and id;
- `session.merge` is an upsert by primary key.

The stream callbacks (`collect`, `extract`, `convert`) and
`generate_domain_id` are foreign code. They are the arrows of
`Subtasks.Callbacks`:

- a `collect` generator is the finite list of `(data, state)` pairs it
  yields, plus whether it raises afterwards;
- `extract` answers `None` where it raises;
- `convert` raises, returns one value, or is a generator of values that may
  raise after its last one.

Modules:

- `Values`: `Option`, `Result`, JSON values and the state bag.
- `Text`: `str.lower`, `str.capitalize` and `str.removesuffix` over ASCII.
- `Store`: records, table operations and the `Session` class.
- `Cadence`: the control flow of the run-loop with items left abstract.
  It covers which sync points are met, where the loop stops, and which
  state is bound last.
- `Subtasks`: names, the checkpoint query, the stage kinds and the run.
  - `Run` is proved against `Expected`, the run as a function of the rows
    and tables it starts from.
  - `ExpectedClosedForm` characterises `Expected` without the loop.
  - The run's properties are lemmas about `Expected`.
- `Plugins`: the registry fold `Register`, the `Plugin` class whose
  constructor computes it, and the plan and scope builders.

## Model

All source paths are below `backend/python/pydevlake/pydevlake/`; the table
writes them in full.

| member | source | states |
|---|---|---|
| Text.Lower | backend/python/pydevlake/pydevlake/subtasks.py:42 | `lower()` keeps the length and lower-cases each character in place |
| Text.Capitalize | backend/python/pydevlake/pydevlake/subtasks.py:38 | `capitalize()` upper-cases the first character and lower-cases every other, keeping the length |
| Text.RemoveSuffix | backend/python/pydevlake/pydevlake/plugin.py:46 | `removesuffix` drops exactly one trailing occurrence (result + suffix is the input) and leaves a string without it unchanged |
| Store.DeleteByParams | backend/python/pydevlake/pydevlake/subtasks.py:158-161 | the delete removes every row tagged with the scope's params and keeps every other row as many times as it was there |
| Store.Upsert | backend/python/pydevlake/pydevlake/subtasks.py:184 | a merge leaves the record in the table, adds nothing else, keeps every row of another key, and grows the table by at most one row |
| Store.UpsertKeepsKeysUnique | backend/python/pydevlake/pydevlake/subtasks.py:184 | on a table with unique keys, a merge keeps keys unique and the merged record is the only row under its key |
| Store.UpsertIdempotent | backend/python/pydevlake/pydevlake/subtasks.py:184 | merging the same record twice leaves the table as merging it once |
| Store.Session.constructor | backend/python/pydevlake/pydevlake/subtasks.py:49 | a session opens on the stored checkpoint rows, data tables and clock, given that the stored rows are numbered by id, started before the clock, and the data tables are well keyed |
| Store.Session.Now | backend/python/pydevlake/pydevlake/subtasks.py:76 | each clock reading returns the current time and moves the clock forward |
| Store.Session.AddRun | backend/python/pydevlake/pydevlake/subtasks.py:87 | `session.add` appends the new run row, keeping ids equal to row numbers |
| Store.Session.MergeRun | backend/python/pydevlake/pydevlake/subtasks.py:64 | merging a run row replaces the row with its id and nothing else |
| Store.Session.InsertRaw | backend/python/pydevlake/pydevlake/subtasks.py:150 | `session.add(raw_model)` appends to that stream's raw table only |
| Store.Session.DeleteRaw | backend/python/pydevlake/pydevlake/subtasks.py:160-161 | the delete statement filters that stream's raw table only |
| Store.Session.MergeTool | backend/python/pydevlake/pydevlake/subtasks.py:184 | merging a tool record upserts into that stream's tool table only, keeps primary keys unique, and leaves the record the only row under its key |
| Store.Session.MergeDomain | backend/python/pydevlake/pydevlake/subtasks.py:212 | merging a domain record stores it under its table and id, keeping every domain record under its own key |
| Cadence.Checkpoints | backend/python/pydevlake/pydevlake/subtasks.py:61-71 | the sync points met over the first k items; `CheckpointsSound`, `CheckpointsComplete` and `CheckpointsOrdered` characterise it |
| Cadence.CheckpointState | backend/python/pydevlake/pydevlake/subtasks.py:63-64 | the state a run's row holds after the sync points met so far: the last one's, or the row's starting state; `SyncLoop` states that the row holds it |
| Cadence.Turn | backend/python/pydevlake/pydevlake/subtasks.py:58-71 | one turn of the loop: bind the pair's state, stop on an exception or a zero interval, record a sync point at a non-zero multiple of the interval; `TraceAll` states where the turns lead |
| Cadence.CheckpointsSound | backend/python/pydevlake/pydevlake/subtasks.py:61-71 | every sync point met over the first k items is at a non-zero multiple of the interval below k, carries increment = interval and current = its index, and saves the state paired with that item |
| Cadence.CheckpointsComplete | backend/python/pydevlake/pydevlake/subtasks.py:61 | every non-zero multiple of the interval below k has its sync point |
| Cadence.CheckpointsOrdered | backend/python/pydevlake/pydevlake/subtasks.py:58-71 | sync points come in increasing index order |
| Cadence.NoCheckpointsWithoutInterval | backend/python/pydevlake/pydevlake/subtasks.py:61 | with interval 0 no sync point is ever met |
| Cadence.DefaultCadenceOverTwoHundredFifty | backend/python/pydevlake/pydevlake/subtasks.py:48 | with the default interval of 100, 250 items give progress events (100, 100) and (100, 200) and nothing else; index 0 never gives one |
| Cadence.SyncPointsBelowTwoHundredFifty | backend/python/pydevlake/pydevlake/subtasks.py:61-71 | a sound, complete, ordered list of sync points for interval 100 below 250 is the one at 100 followed by the one at 200 |
| Cadence.Trace | backend/python/pydevlake/pydevlake/subtasks.py:57-73 | the loop never processes more items than it has been offered |
| Cadence.TraceFailed | backend/python/pydevlake/pydevlake/subtasks.py:57-73 | after k turns an exception has been caught exactly when the interval is 0 or `process` raised on one of the first k items |
| Cadence.TraceProcessed | backend/python/pydevlake/pydevlake/subtasks.py:58-59 | after k turns the loop has processed items in fetch order up to the first exception, and the bound state is the one fetched with the last of them (the initial state if none) |
| Cadence.TraceSyncs | backend/python/pydevlake/pydevlake/subtasks.py:61-71 | after k turns the sync points met are exactly those below k and below the first raising item |
| Cadence.TraceAll | backend/python/pydevlake/pydevlake/subtasks.py:57-73 | the whole loop in closed form: caught flag, items processed, state bound last and sync points |
| Cadence.TraceStaysFailed | backend/python/pydevlake/pydevlake/subtasks.py:57-73 | once an exception is caught, further items change nothing |
| Cadence.RaisingItemEndsLoop | backend/python/pydevlake/pydevlake/subtasks.py:58-59 | when item k is the first to raise, the loop stops after it, has caught the exception, keeps the state bound with item k, and met no sync point at or after k |
| Cadence.CleanLoopRunsAll | backend/python/pydevlake/pydevlake/subtasks.py:58-59 | when no item raises and the interval is not 0, every item is processed and the state fetched with the last one is bound |
| Subtasks.Name | backend/python/pydevlake/pydevlake/subtasks.py:38 | `Subtask.name`: the lower-case verb, then the plugin name and the stream name capitalised; `NameDependsOnVerb` states what it distinguishes |
| Subtasks.Description | backend/python/pydevlake/pydevlake/subtasks.py:42 | `Subtask.description`: the capitalised verb, the plugin name and the lower-cased stream name, separated by spaces; `DescriptionDependsOnVerb` states what it distinguishes |
| Subtasks.ParamsOf | backend/python/pydevlake/pydevlake/subtasks.py:152-156 | `Collector._params`: the connection id and scope id of the context |
| Subtasks.LastState | backend/python/pydevlake/pydevlake/subtasks.py:107-118 | `_get_last_state`: the state of the row `EarliestCompleted` finds, or `{}` when there is none |
| Subtasks.Fetch | backend/python/pydevlake/pydevlake/subtasks.py:141-196 | `fetch` of each stage kind: the stream's `collect` for a collector, `collect` over every parent for a substream collector, every stored raw or tool row with the input state for an extractor or convertor; `StoredRowsFetch` and `CollectedItemsAreData` state it |
| Subtasks.CollectChildren | backend/python/pydevlake/pydevlake/subtasks.py:165-167 | `SubstreamCollector.fetch`: `collect` on each parent tool record in turn, results concatenated, stopping at the first that raises; `CollectChildrenAppend` states it |
| Subtasks.ProcessEffect | backend/python/pydevlake/pydevlake/subtasks.py:144-212 | what one `process` call does to the tables for each stage kind; `Process` is proved against it |
| Subtasks.DeleteEffect | backend/python/pydevlake/pydevlake/subtasks.py:158-161 | what `delete` does to the tables: a collector filters its raw table by its params, the other stages do nothing; `Delete` is proved against it |
| Subtasks.SavePlan | backend/python/pydevlake/pydevlake/subtasks.py:198-204 | the `_save` calls `Convertor.process` makes for one tool record; `SavePlanSteps` states them |
| Subtasks.Expected | backend/python/pydevlake/pydevlake/subtasks.py:48-78 | the outcome of a run as a function of the stored rows and tables: never more items processed than fetched; `Run` is proved against it and `ExpectedClosedForm` characterises it |
| Subtasks.ApplySavesKeepsKeys | backend/python/pydevlake/pydevlake/subtasks.py:211-212 | saving under the generated id keeps every domain record filed under its own key |
| Subtasks.ProcessKeepsKeys | backend/python/pydevlake/pydevlake/subtasks.py:181-184 | a `process` step keeps tool keys unique and domain records under their own keys, and after an extraction the merged record is the only row under its key |
| Subtasks.ProcessUpToKeepsKeys | backend/python/pydevlake/pydevlake/subtasks.py:58-59 | any number of `process` steps keep the tables well keyed |
| Subtasks.RunKeepsKeys | backend/python/pydevlake/pydevlake/subtasks.py:48-78 | a whole run keeps the tables well keyed |
| Subtasks.NameDependsOnVerb | backend/python/pydevlake/pydevlake/subtasks.py:38 | two subtasks of one stream have the same name exactly when their verbs agree, so a substream collector shares a plain collector's checkpoint rows |
| Subtasks.DescriptionDependsOnVerb | backend/python/pydevlake/pydevlake/subtasks.py:42 | two subtasks of one stream have the same description exactly when their verbs agree |
| Subtasks.EarliestCompleted | backend/python/pydevlake/pydevlake/subtasks.py:107-115 | the row found is completed, of this subtask and connection, started no later than any other such row and strictly before every earlier-listed one; none is found exactly when no such row exists |
| Subtasks.LastStateIgnoresOpenRun | backend/python/pydevlake/pydevlake/subtasks.py:50-52 | the row `_start_subtask` has just added is not completed, so it does not change the resumption state |
| Subtasks.ResumptionPointAfterRun | backend/python/pydevlake/pydevlake/subtasks.py:107-118 | a newly finalised run becomes the resumption point only when no completed run of the same subtask and connection exists; otherwise the earliest one stays |
| Subtasks.ResumesFromEarliestCompleted | backend/python/pydevlake/pydevlake/subtasks.py:113-117 | of two completed runs the one started first is resumed from |
| Subtasks.CollectChildrenAppend | backend/python/pydevlake/pydevlake/subtasks.py:165-167 | collecting over parents a + b is collecting over a, then, unless that raised, over b |
| Subtasks.StoredRowsFetch | backend/python/pydevlake/pydevlake/subtasks.py:175-179 | extractor and convertor fetch every stored row of their input table, in table order, each with the unchanged input state, and never raise |
| Subtasks.CollectedItemsAreData | backend/python/pydevlake/pydevlake/subtasks.py:141-142 | a collector's fetch yields only collected data |
| Subtasks.SavePlanSteps | backend/python/pydevlake/pydevlake/subtasks.py:198-212 | a conversion saves one step per value produced, in order; a step upserts exactly when the value is a domain model, under `generate_domain_id(tool, connection_id)` in the value's own table |
| Subtasks.ConvertUpsertCounts | backend/python/pydevlake/pydevlake/subtasks.py:198-212 | a single domain model is upserted once, a generator of two domain models twice, and a single non-domain value not at all (it is skipped without raising) |
| Subtasks.ApplySavesAt | backend/python/pydevlake/pydevlake/subtasks.py:211-212 | after the saves a key holds the last record saved under it, or what it held before |
| Subtasks.ApplySavesIdempotent | backend/python/pydevlake/pydevlake/subtasks.py:211-212 | re-converting a tool record leaves the domain tables as converting it once |
| Subtasks.CollectorProcess | backend/python/pydevlake/pydevlake/subtasks.py:144-150 | one raw record with the context's params and the item as payload is appended to the stream's raw table |
| Subtasks.ExtractorProcess | backend/python/pydevlake/pydevlake/subtasks.py:181-184 | a decoded payload becomes a tool record pointing at its raw record, merged into the stream's tool table, where it is then the only row under its primary key; an undecodable one raises and changes nothing; the tables stay well keyed |
| Subtasks.ConvertorSave | backend/python/pydevlake/pydevlake/subtasks.py:206-212 | a non-domain value is logged and skipped; a domain value is upserted under its generated id |
| Subtasks.ConvertorProcess | backend/python/pydevlake/pydevlake/subtasks.py:198-204 | the domain tables become the saves of the single result or of every generated value, in order; it raises when `convert` raises or the generator raises |
| Subtasks.Process | backend/python/pydevlake/pydevlake/subtasks.py:59 | `process` of each stage kind raises and changes the tables as `ProcessRaises` and `ProcessEffect` say |
| Subtasks.Delete | backend/python/pydevlake/pydevlake/subtasks.py:158-161 | a collector's `delete` removes its scope's raw rows; the extractor's and convertor's change nothing |
| Subtasks.StartSubtask | backend/python/pydevlake/pydevlake/subtasks.py:80-88 | the new row has the next id, the subtask's name, the connection, the current time, state `{}` and no completion time |
| Subtasks.ExpectedClosedForm | backend/python/pydevlake/pydevlake/subtasks.py:48-78 | a run processes the fetched items up to and including the first raising one (only item 0 when the interval is 0), finalises with the state fetched with the last item processed, meets the sync points before the first raising item, and catches exactly when the modulo, `process` or `fetch` raised |
| Subtasks.ProcessNext | backend/python/pydevlake/pydevlake/subtasks.py:59 | processing item i takes the tables from the first i items' effect to the first i+1 items' effect |
| Subtasks.SyncTurn | backend/python/pydevlake/pydevlake/subtasks.py:61-71 | after `process`, the turn stops on an exception or the modulo; at a sync point it writes the state paired with item i into the run's row and records the progress, otherwise the row keeps its state; the row always holds the state of the last sync point met (or its starting state) |
| Subtasks.SyncItem | backend/python/pydevlake/pydevlake/subtasks.py:58-71 | one turn of the loop moves the loop state and the tables one item forward, touches only the run's own row, and writes item i's state into it exactly when i is a sync point and `process` did not raise |
| Subtasks.SyncLoop | backend/python/pydevlake/pydevlake/subtasks.py:57-73 | the try block ends with the bound state, sync points, caught flag and tables of the loop over all fetched pairs; only the run's own row is rewritten, and it holds the state saved at the last sync point, or its starting state when none was met |
| Subtasks.Begin | backend/python/pydevlake/pydevlake/subtasks.py:49-55 | the run opens its row; when incremental it reads the resumption state, otherwise it calls `delete` and starts from `{}` |
| Subtasks.Body | backend/python/pydevlake/pydevlake/subtasks.py:57-78 | after the loop the run's row gets the last bound state and a completion time, whether or not an exception was caught |
| Subtasks.Run | backend/python/pydevlake/pydevlake/subtasks.py:48-78 | a run yields the sync points, catches, leaves the tables as `Expected` says, and appends one completed row with the final state |
| Subtasks.RawForEach | backend/python/pydevlake/pydevlake/subtasks.py:144-150 | over collected data, one raw record per item, in order, carrying the item |
| Subtasks.CollectorAppends | backend/python/pydevlake/pydevlake/subtasks.py:144-150 | a collector's process steps append to its own raw table and touch no other table |
| Subtasks.CollectorRunTables | backend/python/pydevlake/pydevlake/subtasks.py:51-59 | `delete` (when not incremental) and then k process steps leave the old rows (less this scope's when not incremental) followed by the new ones, other tables untouched |
| Subtasks.CollectorRawTable | backend/python/pydevlake/pydevlake/subtasks.py:51-59 | a collector run leaves its old raw rows (less its scope's when not incremental) followed by one row per processed item, and touches no other table |
| Subtasks.FetchedRowPerItem | backend/python/pydevlake/pydevlake/subtasks.py:144-150 | the rows for the first k fetched items are one per item, in order |
| Subtasks.CollectorRowPerItem | backend/python/pydevlake/pydevlake/subtasks.py:144-150 | a collector run adds exactly one raw row per processed item, in order, with the context's params |
| Subtasks.FullRefreshKeepsOnlyNewRows | backend/python/pydevlake/pydevlake/subtasks.py:53-54 | after a non-incremental collector run every raw row of the scope is one this run added |
| Subtasks.StoredRowStagesKeepState | backend/python/pydevlake/pydevlake/subtasks.py:175-179 | extractor and convertor runs end on the state they started with, and their fetch never raises |
| Subtasks.RaisingItemEndsRun | backend/python/pydevlake/pydevlake/subtasks.py:58-59 | when `process` first raises on item k, the run processes k+1 items, catches, finalises with the state paired with item k, and meets no sync point at or after k |
| Subtasks.FetchErrorKeepsLastState | backend/python/pydevlake/pydevlake/subtasks.py:72-75 | when `fetch` raises after its last pair and no `process` raised, every item is processed and the run finalises with the last fetched state (the initial one if none) |
| Plugins.PluginName | backend/python/pydevlake/pydevlake/plugin.py:46 | `Plugin.name`: the lower-cased class name less a trailing "plugin"; `PluginNameOfClass` states it |
| Plugins.PluginDescription | backend/python/pydevlake/pydevlake/plugin.py:50 | `Plugin.description`: the name followed by " plugin"; `DescriptionNamesPlugin` states it |
| Plugins.Register | backend/python/pydevlake/pydevlake/plugin.py:34-39 | the registry `__init__` builds, one declaration at a time; `RegisterWellFormed`, `RegisterHas`, `RegisterKeepsLast` and `RegisterExtends` state it |
| Plugins.SubtasksOf | backend/python/pydevlake/pydevlake/plugin.py:76 | the subtasks of the registered streams, stream by stream in registry order; `SubtasksOfAppend` and `SubtasksOfMembers` state it |
| Plugins.DomainScopesOf | backend/python/pydevlake/pydevlake/plugin.py:126-133 | the domain scopes of every tool scope, tool scope by tool scope; `DomainScopesOfAppend` and `DomainScopesOfMembers` state it |
| Plugins.Plugin.Name | backend/python/pydevlake/pydevlake/plugin.py:41-46 | `Plugin.name` of this plugin's class; `PluginNameOfClass` states it |
| Plugins.PluginNameOfClass | backend/python/pydevlake/pydevlake/plugin.py:46 | the name is the lower-cased class name less one trailing "plugin"; it is no longer than the class name and has no upper-case letter |
| Plugins.DescriptionNamesPlugin | backend/python/pydevlake/pydevlake/plugin.py:50 | the description ends in " plugin" and removing that gives back the name |
| Plugins.Instantiate | backend/python/pydevlake/pydevlake/plugin.py:37-38 | a stream class is instantiated with the plugin's name; a stream object is kept as it is |
| Plugins.RegisterWellFormed | backend/python/pydevlake/pydevlake/plugin.py:34-39 | the registry lists each key once, its keys are exactly the registered names, and each stream is filed under its own name |
| Plugins.RegisterHas | backend/python/pydevlake/pydevlake/plugin.py:34-39 | a name is registered exactly when some entry declares it |
| Plugins.RegisterKeepsLast | backend/python/pydevlake/pydevlake/plugin.py:39 | the stream under a name is the one the last entry of that name declares |
| Plugins.RegisterExtends | backend/python/pydevlake/pydevlake/plugin.py:34-39 | registering more entries keeps the earlier key order as a prefix |
| Plugins.SubtasksOfAppend | backend/python/pydevlake/pydevlake/plugin.py:76 | flattening subtasks distributes over concatenation of the stream order |
| Plugins.SubtasksOfMembers | backend/python/pydevlake/pydevlake/plugin.py:76 | a subtask is in the flat list exactly when some registered stream contributes it |
| Plugins.DomainScopesOfAppend | backend/python/pydevlake/pydevlake/plugin.py:126-133 | flattening domain scopes distributes over concatenation of the tool scopes |
| Plugins.DomainScopesOfMembers | backend/python/pydevlake/pydevlake/plugin.py:126-133 | a domain scope is in the pipeline exactly when some tool scope yields it |
| Plugins.AsRemoteScopes | backend/python/pydevlake/pydevlake/plugin.py:109-117 | one remote scope per tool scope, in order, with id and name copied |
| Plugins.MakeRemoteScopes | backend/python/pydevlake/pydevlake/plugin.py:107-119 | with a set, non-empty group id, the group's remote scopes with id and name copied; otherwise the scope groups unchanged |
| Plugins.Plugin.Description | backend/python/pydevlake/pydevlake/plugin.py:50 | the description ends in " plugin", and removing that gives back the plugin's name |
| Plugins.Plugin.constructor | backend/python/pydevlake/pydevlake/plugin.py:34-39 | construction registers the declared streams in turn, as the `Register` fold says, and leaves a well-formed registry |
| Plugins.Plugin.GetStream | backend/python/pydevlake/pydevlake/plugin.py:155-159 | a registered name gives its stream, whose name is that name; any other name gives the error "Unkown stream <name>" |
| Plugins.Plugin.AllSubtasks | backend/python/pydevlake/pydevlake/plugin.py:74-76 | the subtasks of the registered streams concatenated in registry order (`SubtasksOf`), so a subtask is listed exactly when a registered stream contributes it |
| Plugins.Plugin.MakePipelineStage | backend/python/pydevlake/pydevlake/plugin.py:142-153 | one task: this plugin, no skip on failure, every subtask by name in order, options exactly scopeId and scopeName of the scope |
| Plugins.Plugin.MakePipelinePlan | backend/python/pydevlake/pydevlake/plugin.py:139-140 | one stage per scope, in scope order |
| Plugins.Plugin.MakePipeline | backend/python/pydevlake/pydevlake/plugin.py:121-137 | the pipeline carries the plan of the tool scopes and the domain scopes of every tool scope concatenated in tool-scope order (`DomainScopesOf`), so a domain scope is present exactly when some tool scope yields it |
| Plugins.GetStreamOfDeclared | backend/python/pydevlake/pydevlake/plugin.py:155-159 | on a plugin built from its declarations, lookup succeeds exactly for declared names and answers the last declaration of the name |
| Plugins.PlanOfScopes | backend/python/pydevlake/pydevlake/plugin.py:139-153 | each stage of the plan has one task for the plugin's name, naming its scope and running every subtask |

## Where the code and its description differ

- `_get_last_state` orders completed runs by `started` ascending and takes
  the first (`subtasks.py:113-115`). It therefore resumes from the
  EARLIEST-started completed run. The `fetch` docstring
  (`subtasks.py:96`) says it is called with the state of the last run of the
  subtask. The model follows the code (`Subtasks.EarliestCompleted`,
  `Subtasks.ResumesFromEarliestCompleted`).
- The loop at `subtasks.py:58` binds `state` before calling `process`. A
  raising item therefore still leaves its own state to be written at
  finalisation (`Subtasks.RaisingItemEndsRun`).
- `Extractor.fetch` reads every raw row of the stream, not only the rows of
  the current scope (`subtasks.py:177-178`). The model does the same.

## Left out

- SQL and session mechanics: commits, transactions, query plans. The tables
  live in memory, and `merge` is an upsert by primary key.
- JSON encoding of state, params and payloads: treated as lossless. Values
  are kept unencoded, and numbers are integers only.
- `datetime.now()`: a counter that moves forward on every reading.
- `logger.error`: the caught exception is the `caught` result of `Run`; the
  skip in `_save` is the `logged` result of `ConvertorSave`. The messages are
  not modelled.
- Generator suspension: the progress events are returned as a list once the
  run ends. A consumer that stops iterating early is not modelled.
- Exceptions outside the `try` block (in `_start_subtask`, `delete`,
  `_get_last_state` or the final merge) are not modelled; those calls never
  raise in the model.
- The content of exceptions: `collect` raising after its last pair,
  `extract` answering `None`, and `convert` raising are each one flag.
- `collect` is assumed to yield only data JSON can encode: its pairs carry
  `Json` values, so the `json.dumps` failure at `subtasks.py:148` never occurs
  in a collector run. `Collector.process` raises only on an item that is not
  collected data, which a collector's `fetch` never yields.
- Rows of `_get_last_state` that started at the same time: the query leaves
  their order open; the model takes them in table order.
- `convert` is called twice for a generator (`subtasks.py:199-201`); the
  model assumes `convert` is pure, so both calls give the same values.
- Case mapping covers ASCII letters only.
- Stream classes, `raw_model`, `tool_model` and `parent_stream`: stream.py
  is not part of this model. A stream is its plugin name, its name and its
  parent's name. Its subtask list is given with it.
- `Plugin.collect`, `extract` and `convert`: these only look up a stream
  and run its subtask, which is `GetStream` and `Run`.
- `Plugin.startup`, `plugin_info`, `_plugin_path`, `start` and
  `run_migrations`: HTTP registration, reflection, the CLI and a stub.
- The abstract hooks `remote_scopes`, `remote_scope_groups` and
  `domain_scopes` are parameters. `scope.dict(exclude_unset=True)` is
  assumed already applied to what `domain_scopes` returns.
- The stream a registry entry holds (`Plugins.StreamObj`) and the stream
  its subtasks name (`Subtasks.Stream`) are independent values: the model
  does not require a stream's subtasks to be bound to that same stream,
  which stream.py, not part of this model, arranges.
