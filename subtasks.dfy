/**
 * The resumable subtask engine: the run-loop that drives a stage's
 * fetch/process/delete trio, checkpoints its state every
 * `sync_point_interval` items and finalises its `SubtaskRun` row, together
 * with the three stage kinds (collector, extractor, convertor).
 *
 * The stream's own callbacks (`collect`, `extract`, `convert`) and
 * `generate_domain_id` are foreign code; they are the arrows of `Callbacks`.
 */
module Subtasks {
  import opened Values
  import opened Text
  import opened Store
  import opened Cadence

  /** The part of a stream the engine looks at: its plugin, its name and the stream it is a substream of. */
  datatype Stream = Stream(pluginName: string, name: string, parent: string)

  /** A subtask: a stage kind bound to the stream it works for. */
  datatype Stage =
    | Collector(stream: Stream)
    | SubstreamCollector(stream: Stream)
    | Extractor(stream: Stream)
    | Convertor(stream: Stream)

  /** What a subtask runs in: the connection, the scope and the mode flag. */
  datatype Context = Context(connectionId: int, scopeId: string, incremental: bool)

  function Verb(stage: Stage): string {
    match stage
    case Collector(_) => "collect"
    case SubstreamCollector(_) => "collect"
    case Extractor(_) => "extract"
    case Convertor(_) => "convert"
  }

  /** `Subtask.name`: the lower-case verb, then the plugin and the stream names capitalised. */
  function Name(stage: Stage): string {
    Lower(Verb(stage)) + Capitalize(stage.stream.pluginName) + Capitalize(stage.stream.name)
  }

  /** `Subtask.description` */
  function Description(stage: Stage): string {
    Capitalize(Verb(stage)) + " " + stage.stream.pluginName + " " + Lower(stage.stream.name)
  }

  /**
   * The checkpoint rows of two subtasks of one stream are kept apart exactly
   * when their verbs differ: a substream collector shares its name (and so
   * its resumption state) with a plain collector of the same stream.
   */
  lemma NameDependsOnVerb(a: Stage, b: Stage)
    requires a.stream == b.stream
    ensures Name(a) == Name(b) <==> Verb(a) == Verb(b)
  {
    if Name(a) == Name(b) {
      var na, nb := Name(a), Name(b);
      assert na[2] == ToLowerChar(Verb(a)[2]);
      assert nb[2] == ToLowerChar(Verb(b)[2]);
    }
  }

  /** Likewise, two subtasks of one stream have the same description exactly when their verbs agree. */
  lemma DescriptionDependsOnVerb(a: Stage, b: Stage)
    requires a.stream == b.stream
    ensures Description(a) == Description(b) <==> Verb(a) == Verb(b)
  {
    if Description(a) == Description(b) {
      var da, db := Description(a), Description(b);
      assert da[0] == ToUpperChar(Verb(a)[0]) && da[2] == ToLowerChar(Verb(a)[2]);
      assert db[0] == ToUpperChar(Verb(b)[0]) && db[2] == ToLowerChar(Verb(b)[2]);
    }
  }

  /** `Collector._params`: the `{connection_id, scope_id}` object of the context. */
  function ParamsOf(ctx: Context): Params {
    Params(ctx.connectionId, ctx.scopeId)
  }

  // ---------------------------------------------------------------------------
  // Checkpoint store
  // ---------------------------------------------------------------------------

  /** The filter of `_get_last_state`: same subtask name, same connection, completed. */
  predicate Resumable(run: SubtaskRun, name: string, connectionId: int) {
    run.subtaskName == name && run.connectionId == connectionId && run.completed.Some?
  }

  /**
   * The row `_get_last_state` reads: among the resumable rows ordered by
   * `started` ascending, the first one, so the EARLIEST-started. The query
   * leaves rows that started at the same time unordered; the model takes
   * them in table order.
   */
  function EarliestCompleted(runs: seq<SubtaskRun>, name: string, connectionId: int): (r: Option<nat>)
    ensures r.None? <==> forall i :: 0 <= i < |runs| ==> !Resumable(runs[i], name, connectionId)
    ensures r.Some? ==> r.value < |runs| && Resumable(runs[r.value], name, connectionId)
    ensures r.Some? ==> forall i :: 0 <= i < |runs| && Resumable(runs[i], name, connectionId) ==>
                          runs[r.value].started <= runs[i].started
    ensures r.Some? ==> forall i :: 0 <= i < r.value && Resumable(runs[i], name, connectionId) ==>
                          runs[r.value].started < runs[i].started
  {
    if runs == [] then None
    else
      var n := |runs| - 1;
      var e := EarliestCompleted(runs[..n], name, connectionId);
      if Resumable(runs[n], name, connectionId) && (e.None? || runs[n].started < runs[e.value].started)
      then Some(n)
      else e
  }

  /** `_get_last_state`: the state of that row, or `{}` when there is none. */
  function LastState(runs: seq<SubtaskRun>, name: string, connectionId: int): State {
    match EarliestCompleted(runs, name, connectionId)
    case None => map[]
    case Some(k) => runs[k].state
  }

  /** The run `_start_subtask` has just opened is not completed, so it is never its own resumption point. */
  lemma LastStateIgnoresOpenRun(runs: seq<SubtaskRun>, run: SubtaskRun, name: string, connectionId: int)
    requires run.completed.None?
    ensures LastState(runs + [run], name, connectionId) == LastState(runs, name, connectionId)
  {
    assert (runs + [run])[..|runs|] == runs;
  }

  /**
   * Finalising a run that started after every existing row makes it the
   * resumption point only when no completed run of the same subtask and
   * connection exists yet; otherwise the earliest such run stays the
   * resumption point for good, and later runs' states are never resumed from.
   */
  lemma ResumptionPointAfterRun(runs: seq<SubtaskRun>, run: SubtaskRun, name: string, connectionId: int)
    requires forall i :: 0 <= i < |runs| ==> runs[i].started < run.started
    requires Resumable(run, name, connectionId)
    ensures LastState(runs + [run], name, connectionId) ==
            if EarliestCompleted(runs, name, connectionId).Some? then LastState(runs, name, connectionId)
            else run.state
  {
    assert (runs + [run])[..|runs|] == runs;
  }

  /** Two completed runs: the one started first is resumed from, not the later one. */
  lemma ResumesFromEarliestCompleted(a: SubtaskRun, b: SubtaskRun, name: string, connectionId: int)
    requires Resumable(a, name, connectionId) && Resumable(b, name, connectionId)
    requires a.started < b.started
    ensures LastState([a, b], name, connectionId) == a.state
  {
    assert [a, b][..1] == [a];
    assert [a][..0] == [];
    assert EarliestCompleted([a], name, connectionId) == Some(0);
  }

  // ---------------------------------------------------------------------------
  // Stage contract: what fetch yields, what process and delete do
  // ---------------------------------------------------------------------------

  /** One fetched item: collected data, a raw record, or a tool record. */
  datatype Item = Data(data: Json) | Raw(raw: RawRecord) | Tool(tool: ToolRecord)

  /** What a stream's `collect` generator yields, and whether it raises after its last pair. */
  datatype Collected = Collected(pairs: seq<(Json, State)>, raises: bool)

  /** What a stage's `fetch` yields, and whether it raises after its last pair. */
  datatype Fetched = Fetched(pairs: seq<(Item, State)>, raises: bool)

  /** The fields a stream's `extract` decodes from a raw payload. */
  datatype ToolFields = ToolFields(key: string, fields: Json)

  /** A value a stream's `convert` produces: a domain model of some domain table, or anything else. */
  datatype DomainValue = Domain(table: string, fields: Json) | NotDomain(description: string)

  /**
   * What `convert` returns: it raises, returns one value (anything that is
   * not a generator, a list included), or is a generator that yields
   * `values` and then possibly raises.
   */
  datatype Converted =
    | Raised
    | Single(value: DomainValue)
    | Many(values: seq<DomainValue>, raisesAfter: bool)

  /** The foreign code the engine calls; `extract` answers None where it raises. */
  datatype Callbacks = Callbacks(
    collect: (Stream, State, Context, Option<ToolRecord>) -> Collected,
    extract: (Stream, Json) -> Option<ToolFields>,
    convert: (Stream, ToolRecord) -> Converted,
    domainId: (ToolRecord, int) -> string)

  function AsData(ps: seq<(Json, State)>): (r: seq<(Item, State)>)
    ensures |r| == |ps|
    ensures forall i :: 0 <= i < |ps| ==> r[i] == (Data(ps[i].0), ps[i].1)
  {
    seq(|ps|, i requires 0 <= i < |ps| => (Data(ps[i].0), ps[i].1))
  }

  /**
   * `SubstreamCollector.fetch`: `collect` on every parent tool record in turn,
   * each with the same input state, the results concatenated; a child that
   * raises ends the whole sequence.
   */
  function CollectChildren(cb: Callbacks, s: Stream, state: State, ctx: Context, parents: seq<ToolRecord>): Collected
  {
    if parents == [] then Collected([], false)
    else
      var c := cb.collect(s, state, ctx, Some(parents[0]));
      if c.raises then c
      else
        var rest := CollectChildren(cb, s, state, ctx, parents[1..]);
        Collected(c.pairs + rest.pairs, rest.raises)
  }

  /** Collecting over `a + b` is collecting over `a`, then (unless that raised) over `b`. */
  lemma {:induction false} CollectChildrenAppend(cb: Callbacks, s: Stream, state: State, ctx: Context,
                                                 a: seq<ToolRecord>, b: seq<ToolRecord>)
    ensures var ca := CollectChildren(cb, s, state, ctx, a);
            var cb' := CollectChildren(cb, s, state, ctx, b);
            CollectChildren(cb, s, state, ctx, a + b) ==
              if ca.raises then ca else Collected(ca.pairs + cb'.pairs, cb'.raises)
  {
    if a == [] {
      assert a + b == b;
    } else {
      assert (a + b)[0] == a[0];
      assert (a + b)[1..] == a[1..] + b;
      CollectChildrenAppend(cb, s, state, ctx, a[1..], b);
    }
  }

  /** `Extractor.fetch`: every stored raw record, paired with the unchanged input state. */
  function RawPairs(rows: seq<RawRecord>, state: State): seq<(Item, State)> {
    seq(|rows|, i requires 0 <= i < |rows| => (Raw(rows[i]), state))
  }

  /** `Convertor.fetch`: every stored tool record, paired with the unchanged input state. */
  function ToolPairs(rows: seq<ToolRecord>, state: State): seq<(Item, State)> {
    seq(|rows|, i requires 0 <= i < |rows| => (Tool(rows[i]), state))
  }

  /** `fetch` of each stage kind, on the tables as they are when the loop starts. */
  function Fetch(cb: Callbacks, stage: Stage, state: State, t: Tables, ctx: Context): Fetched {
    match stage
    case Collector(s) =>
      var c := cb.collect(s, state, ctx, None);
      Fetched(AsData(c.pairs), c.raises)
    case SubstreamCollector(s) =>
      var c := CollectChildren(cb, s, state, ctx, Table(t.tool, s.parent));
      Fetched(AsData(c.pairs), c.raises)
    case Extractor(s) => Fetched(RawPairs(Table(t.raw, s.name), state), false)
    case Convertor(s) => Fetched(ToolPairs(Table(t.tool, s.name), state), false)
  }

  /**
   * Extractor and convertor fetch every row of their input table, in table
   * order, each with the input state unchanged, and never raise.
   */
  lemma StoredRowsFetch(cb: Callbacks, stage: Stage, state: State, t: Tables, ctx: Context)
    requires stage.Extractor? || stage.Convertor?
    ensures var f := Fetch(cb, stage, state, t, ctx);
            && !f.raises
            && (forall i :: 0 <= i < |f.pairs| ==> f.pairs[i].1 == state)
            && (stage.Extractor? ==>
                  var rows := Table(t.raw, stage.stream.name);
                  |f.pairs| == |rows| && forall i :: 0 <= i < |rows| ==> f.pairs[i].0 == Raw(rows[i]))
            && (stage.Convertor? ==>
                  var rows := Table(t.tool, stage.stream.name);
                  |f.pairs| == |rows| && forall i :: 0 <= i < |rows| ==> f.pairs[i].0 == Tool(rows[i]))
  {
  }

  /** A collector's fetch yields only collected data. */
  lemma CollectedItemsAreData(cb: Callbacks, stage: Stage, state: State, t: Tables, ctx: Context)
    requires stage.Collector? || stage.SubstreamCollector?
    ensures var f := Fetch(cb, stage, state, t, ctx);
            forall i :: 0 <= i < |f.pairs| ==> f.pairs[i].0.Data?
  {
  }

  /** One step of `Convertor._save`: upsert a domain value under its generated id, or log and skip. */
  datatype SaveStep = Save(record: DomainRecord) | Skip(value: DomainValue)

  function SaveStepOf(cb: Callbacks, tool: ToolRecord, v: DomainValue, connectionId: int): SaveStep {
    match v
    case NotDomain(_) => Skip(v)
    case Domain(table, fields) => Save(DomainRecord(table, cb.domainId(tool, connectionId), fields))
  }

  /** The `_save` steps `Convertor.process` performs for one tool record. */
  function SavePlan(cb: Callbacks, s: Stream, tool: ToolRecord, connectionId: int): seq<SaveStep> {
    match cb.convert(s, tool)
    case Raised => []
    case Single(v) => [SaveStepOf(cb, tool, v, connectionId)]
    case Many(vs, _) => SaveSteps(cb, tool, vs, connectionId)
  }

  /** One save step per value of a list `convert` returned, in order. */
  function SaveSteps(cb: Callbacks, tool: ToolRecord, vs: seq<DomainValue>, connectionId: int): (r: seq<SaveStep>)
    ensures |r| == |vs|
    ensures forall i :: 0 <= i < |vs| ==> r[i] == SaveStepOf(cb, tool, vs[i], connectionId)
  {
    if vs == [] then []
    else [SaveStepOf(cb, tool, vs[0], connectionId)] + SaveSteps(cb, tool, vs[1..], connectionId)
  }

  /**
   * The saves of one conversion: one step per value produced, in order; a
   * step upserts exactly when its value is a domain model, and then under the
   * id `generate_domain_id(tool, connection_id)` in the value's own table.
   */
  lemma SavePlanSteps(cb: Callbacks, s: Stream, tool: ToolRecord, connectionId: int)
    ensures var plan := SavePlan(cb, s, tool, connectionId);
            var vs := match cb.convert(s, tool)
                      case Raised => []
                      case Single(v) => [v]
                      case Many(vs, _) => vs;
            && |plan| == |vs|
            && forall i :: 0 <= i < |vs| ==>
                 (plan[i].Save? <==> vs[i].Domain?)
                 && (plan[i].Skip? ==> plan[i].value == vs[i])
                 && (plan[i].Save? ==>
                       plan[i].record == DomainRecord(vs[i].table, cb.domainId(tool, connectionId), vs[i].fields))
  {
  }

  /** The number of upserts a list of save steps performs. */
  function Upserts(steps: seq<SaveStep>): nat {
    if steps == [] then 0 else Upserts(steps[..|steps| - 1]) + (if steps[|steps| - 1].Save? then 1 else 0)
  }

  /**
   * A single domain model is upserted once, a generator of two domain models
   * twice, and a single value that is not a domain model not at all: it is
   * logged and skipped, without raising.
   */
  lemma ConvertUpsertCounts(cb: Callbacks, s: Stream, tool: ToolRecord, connectionId: int)
    ensures cb.convert(s, tool).Single? && cb.convert(s, tool).value.Domain? ==>
              Upserts(SavePlan(cb, s, tool, connectionId)) == 1
    ensures cb.convert(s, tool).Single? && cb.convert(s, tool).value.NotDomain? ==>
              Upserts(SavePlan(cb, s, tool, connectionId)) == 0 &&
              SavePlan(cb, s, tool, connectionId) == [Skip(cb.convert(s, tool).value)]
    ensures cb.convert(s, tool).Many? && |cb.convert(s, tool).values| == 2 &&
            cb.convert(s, tool).values[0].Domain? && cb.convert(s, tool).values[1].Domain? ==>
              Upserts(SavePlan(cb, s, tool, connectionId)) == 2
  {
    var plan := SavePlan(cb, s, tool, connectionId);
    match cb.convert(s, tool)
    case Raised =>
    case Single(v) =>
      assert plan[..0] == [];
    case Many(vs, _) =>
      if |vs| == 2 && vs[0].Domain? && vs[1].Domain? {
        assert plan[0].Save? && plan[1].Save?;
        assert plan[..1][..0] == [];
        assert plan[..1][0] == plan[0];
        assert Upserts(plan[..1]) == 1;
      }
  }

  /** The domain tables after a list of save steps. */
  function ApplySaves(d: map<DomainKey, DomainRecord>, steps: seq<SaveStep>): map<DomainKey, DomainRecord> {
    if steps == [] then d
    else
      var d' := ApplySaves(d, steps[..|steps| - 1]);
      match steps[|steps| - 1]
      case Skip(_) => d'
      case Save(rec) => d'[KeyOf(rec) := rec]
  }

  /** The last record a list of steps saves under key `k`, if any. */
  function LastSaved(steps: seq<SaveStep>, k: DomainKey): Option<DomainRecord> {
    if steps == [] then None
    else
      var last := steps[|steps| - 1];
      if last.Save? && KeyOf(last.record) == k then Some(last.record)
      else LastSaved(steps[..|steps| - 1], k)
  }

  /** After the steps, a key holds the last record saved under it, or what it held before. */
  lemma {:induction false} ApplySavesAt(d: map<DomainKey, DomainRecord>, steps: seq<SaveStep>, k: DomainKey)
    ensures k in ApplySaves(d, steps) <==> LastSaved(steps, k).Some? || k in d
    ensures k in ApplySaves(d, steps) ==>
              ApplySaves(d, steps)[k] == if LastSaved(steps, k).Some? then LastSaved(steps, k).value else d[k]
  {
    if steps != [] {
      ApplySavesAt(d, steps[..|steps| - 1], k);
    }
  }

  /** Re-converting the same tool record leaves the domain tables as converting it once. */
  lemma ApplySavesIdempotent(d: map<DomainKey, DomainRecord>, steps: seq<SaveStep>)
    ensures ApplySaves(ApplySaves(d, steps), steps) == ApplySaves(d, steps)
  {
    var once := ApplySaves(d, steps);
    var twice := ApplySaves(once, steps);
    forall k
      ensures k in twice <==> k in once
      ensures k in twice ==> twice[k] == once[k]
    {
      ApplySavesAt(d, steps, k);
      ApplySavesAt(once, steps, k);
    }
  }

  /** Whether `process` raises on an item: for the convertor, also after saving a generator's values. */
  function ProcessRaises(cb: Callbacks, stage: Stage, item: Item): bool {
    match stage
    case Collector(_) => !item.Data?
    case SubstreamCollector(_) => !item.Data?
    case Extractor(s) => !item.Raw? || cb.extract(s, item.raw.data).None?
    case Convertor(s) =>
      !item.Tool? ||
      var c := cb.convert(s, item.tool);
      c.Raised? || (c.Many? && c.raisesAfter)
  }

  /** The tool record `Extractor.process` merges for a raw record whose payload decodes. */
  function Extracted(fields: ToolFields, raw: RawRecord): ToolRecord {
    ToolRecord(fields.key, fields.fields, raw)
  }

  /** What `process` does to the tables, including what it did before raising. */
  function ProcessEffect(cb: Callbacks, stage: Stage, item: Item, t: Tables, ctx: Context): Tables {
    match stage
    case Collector(s) =>
      if item.Data? then t.(raw := t.raw[s.name := Table(t.raw, s.name) + [RawRecord(ParamsOf(ctx), item.data)]]) else t
    case SubstreamCollector(s) =>
      if item.Data? then t.(raw := t.raw[s.name := Table(t.raw, s.name) + [RawRecord(ParamsOf(ctx), item.data)]]) else t
    case Extractor(s) =>
      if item.Raw? && cb.extract(s, item.raw.data).Some? then
        t.(tool := t.tool[s.name := Upsert(Table(t.tool, s.name), Extracted(cb.extract(s, item.raw.data).value, item.raw))])
      else t
    case Convertor(s) =>
      if item.Tool? then t.(domain := ApplySaves(t.domain, SavePlan(cb, s, item.tool, ctx.connectionId))) else t
  }

  /** What `delete` does: a collector removes its own scope's raw records; the other stages do nothing. */
  function DeleteEffect(stage: Stage, t: Tables, ctx: Context): Tables {
    match stage
    case Collector(s) => t.(raw := t.raw[s.name := DeleteByParams(Table(t.raw, s.name), ParamsOf(ctx))])
    case SubstreamCollector(s) => t.(raw := t.raw[s.name := DeleteByParams(Table(t.raw, s.name), ParamsOf(ctx))])
    case Extractor(_) => t
    case Convertor(_) => t
  }

  /** `Collector.process`: one raw record with the context's params and the item as payload. */
  method CollectorProcess(session: Session, s: Stream, item: Item, ctx: Context) returns (raised: bool)
    modifies session`raw
    ensures raised == !item.Data?
    ensures session.raw ==
      if item.Data? then old(session.raw)[s.name := Table(old(session.raw), s.name) + [RawRecord(ParamsOf(ctx), item.data)]]
      else old(session.raw)
  {
    if !item.Data? {
      return true;
    }
    session.InsertRaw(s.name, RawRecord(ParamsOf(ctx), item.data));
    raised := false;
  }

  /** `Extractor.process`: decode the payload, point the tool record at its raw record, merge it. */
  method ExtractorProcess(cb: Callbacks, session: Session, s: Stream, item: Item) returns (raised: bool)
    requires session.Valid()
    modifies session`tool
    ensures session.Valid()
    ensures raised == (!item.Raw? || cb.extract(s, item.raw.data).None?)
    ensures !raised ==> forall x :: x in Table(session.tool, s.name) && x.key == cb.extract(s, item.raw.data).value.key ==>
                          x == Extracted(cb.extract(s, item.raw.data).value, item.raw)
    ensures session.tool ==
      if raised then old(session.tool)
      else old(session.tool)[s.name := Upsert(Table(old(session.tool), s.name), Extracted(cb.extract(s, item.raw.data).value, item.raw))]
  {
    if !item.Raw? {
      return true;
    }
    var decoded := cb.extract(s, item.raw.data);
    if decoded.None? {
      return true;
    }
    session.MergeTool(s.name, Extracted(decoded.value, item.raw));
    raised := false;
  }

  /** `Convertor._save`: skip (and log) a value that is not a domain model, else upsert it under its generated id. */
  method ConvertorSave(cb: Callbacks, session: Session, tool: ToolRecord, v: DomainValue, connectionId: int)
    returns (logged: bool)
    requires session.Valid()
    modifies session`domain
    ensures session.Valid()
    ensures logged == v.NotDomain?
    ensures session.domain == ApplySaves(old(session.domain), [SaveStepOf(cb, tool, v, connectionId)])
  {
    assert [SaveStepOf(cb, tool, v, connectionId)][..0] == [];
    if v.NotDomain? {
      return true;
    }
    session.MergeDomain(DomainRecord(v.table, cb.domainId(tool, connectionId), v.fields));
    logged := false;
  }

  /** `Convertor.process`: save the single result, or every value the generator yields. */
  method ConvertorProcess(cb: Callbacks, session: Session, s: Stream, item: Item, ctx: Context) returns (raised: bool)
    requires session.Valid()
    modifies session`domain
    ensures session.Valid()
    ensures raised == ProcessRaises(cb, Convertor(s), item)
    ensures session.domain ==
      if item.Tool? then ApplySaves(old(session.domain), SavePlan(cb, s, item.tool, ctx.connectionId))
      else old(session.domain)
  {
    if !item.Tool? {
      return true;
    }
    var tool := item.tool;
    var res := cb.convert(s, tool);
    match res {
      case Raised =>
        raised := true;
      case Single(v) =>
        var _ := ConvertorSave(cb, session, tool, v, ctx.connectionId);
        raised := false;
      case Many(vs, raisesAfter) =>
        ghost var plan := SavePlan(cb, s, tool, ctx.connectionId);
        var i := 0;
        while i < |vs|
          invariant 0 <= i <= |vs|
          invariant session.domain == ApplySaves(old(session.domain), plan[..i])
          invariant session.Valid()
        {
          var _ := ConvertorSave(cb, session, tool, vs[i], ctx.connectionId);
          assert plan[..i + 1][..i] == plan[..i];
          i := i + 1;
        }
        assert plan[..|vs|] == plan;
        raised := raisesAfter;
    }
  }

  /** `process`, dispatched on the stage kind. */
  method Process(cb: Callbacks, session: Session, stage: Stage, item: Item, ctx: Context) returns (raised: bool)
    requires session.Valid()
    modifies session`raw, session`tool, session`domain
    ensures session.Valid()
    ensures raised == ProcessRaises(cb, stage, item)
    ensures session.Snapshot() == ProcessEffect(cb, stage, item, old(session.Snapshot()), ctx)
  {
    match stage
    case Collector(s) => raised := CollectorProcess(session, s, item, ctx);
    case SubstreamCollector(s) => raised := CollectorProcess(session, s, item, ctx);
    case Extractor(s) => raised := ExtractorProcess(cb, session, s, item);
    case Convertor(s) => raised := ConvertorProcess(cb, session, s, item, ctx);
  }

  /** `delete`: `Collector.delete` removes the raw records tagged with this scope's params; the others `pass`. */
  method Delete(session: Session, stage: Stage, ctx: Context)
    modifies session`raw
    ensures session.Snapshot() == DeleteEffect(stage, old(session.Snapshot()), ctx)
  {
    match stage
    case Collector(s) => session.DeleteRaw(s.name, ParamsOf(ctx));
    case SubstreamCollector(s) => session.DeleteRaw(s.name, ParamsOf(ctx));
    case Extractor(_) =>
    case Convertor(_) =>
  }

  /** `_start_subtask`: a new row for this subtask and connection, started now, with state `{}` and not completed. */
  method StartSubtask(session: Session, stage: Stage, connectionId: int) returns (run: SubtaskRun)
    requires session.Valid()
    modifies session`runs, session`clock
    ensures session.Valid()
    ensures run == SubtaskRun(|old(session.runs)|, Name(stage), connectionId, old(session.clock), None, map[])
    ensures session.runs == old(session.runs) + [run] && session.clock == old(session.clock) + 1
  {
    var now := session.Now();
    run := SubtaskRun(|session.runs|, Name(stage), connectionId, now, None, map[]);
    session.AddRun(run);
  }

  // ---------------------------------------------------------------------------
  // The run-loop
  // ---------------------------------------------------------------------------

  /** Whether `process` raises, item by item. */
  function Raises(cb: Callbacks, stage: Stage, pairs: seq<(Item, State)>): (r: seq<bool>)
    ensures |r| == |pairs|
    ensures forall i :: 0 <= i < |pairs| ==> r[i] == ProcessRaises(cb, stage, pairs[i].0)
  {
    if pairs == [] then []
    else [ProcessRaises(cb, stage, pairs[0].0)] + Raises(cb, stage, pairs[1..])
  }

  /** Tables after `process` on the first `k` items, in fetch order. */
  function ProcessUpTo(cb: Callbacks, stage: Stage, pairs: seq<(Item, State)>, k: nat, t: Tables, ctx: Context): Tables
    requires k <= |pairs|
  {
    if k == 0 then t else ProcessEffect(cb, stage, pairs[k - 1].0, ProcessUpTo(cb, stage, pairs, k - 1, t, ctx), ctx)
  }

  /** The initial state: `_get_last_state` when incremental, `{}` otherwise. */
  function InitialState(stage: Stage, ctx: Context, runs: seq<SubtaskRun>): State {
    if ctx.incremental then LastState(runs, Name(stage), ctx.connectionId) else map[]
  }

  /** The tables fetch starts from: untouched when incremental, after `delete` otherwise. */
  function InitialTables(stage: Stage, ctx: Context, t: Tables): Tables {
    if ctx.incremental then t else DeleteEffect(stage, t, ctx)
  }

  /** Everything a run produces, as a function of the tables and checkpoint rows it starts from. */
  datatype Outcome = Outcome(
    initial: State,
    fetched: Fetched,
    attempted: nat,
    finalState: State,
    tables: Tables,
    syncs: seq<SyncPoint>,
    caught: bool)

  /**
   * What a run produces: the loop of `Trace` over what `fetch` yields from
   * the initial state and tables, with the tables `process` leaves behind
   * on the items it was called on.
   */
  function Expected(cb: Callbacks, stage: Stage, ctx: Context, interval: int, runs: seq<SubtaskRun>, t: Tables): (o: Outcome)
    ensures o.attempted <= |o.fetched.pairs|
  {
    var init := InitialState(stage, ctx, runs);
    var t0 := InitialTables(stage, ctx, t);
    var f := Fetch(cb, stage, init, t0, ctx);
    var p := Trace(interval, init, f.pairs, Raises(cb, stage, f.pairs), |f.pairs|);
    Outcome(init, f, p.processed, p.state, ProcessUpTo(cb, stage, f.pairs, p.processed, t0, ctx), p.syncs, p.failed || f.raises)
  }

  /**
   * A run in closed form: it processes the fetched items up to and
   * including the first whose `process` raises (only the first item when the
   * interval is 0, since the modulo raises), finalises with the state
   * fetched with the last item processed (the initial state if none), meets
   * the sync points before the first raising item, and catches an exception
   * exactly when the modulo, some `process` or `fetch` itself raised.
   */
  lemma ExpectedClosedForm(cb: Callbacks, stage: Stage, ctx: Context, interval: int, runs: seq<SubtaskRun>, t: Tables)
    ensures var o := Expected(cb, stage, ctx, interval, runs, t);
            var n := |o.fetched.pairs|;
            var fr := FirstTrue(Raises(cb, stage, o.fetched.pairs));
            && o.initial == InitialState(stage, ctx, runs)
            && o.fetched == Fetch(cb, stage, o.initial, InitialTables(stage, ctx, t), ctx)
            && o.attempted == Attempted(n, fr, interval)
            && o.finalState == StateAfter(o.initial, o.fetched.pairs, o.attempted)
            && o.tables == ProcessUpTo(cb, stage, o.fetched.pairs, o.attempted, InitialTables(stage, ctx, t), ctx)
            && o.syncs == Checkpoints(o.fetched.pairs, fr, interval)
            && o.caught == ((interval == 0 && n > 0) || fr < n || o.fetched.raises)
  {
    var init := InitialState(stage, ctx, runs);
    var t0 := InitialTables(stage, ctx, t);
    var f := Fetch(cb, stage, init, t0, ctx);
    TraceAll(interval, init, f.pairs, Raises(cb, stage, f.pairs));
  }

  /** `process` on item `i`: the tables go from `ProcessUpTo(i)` to `ProcessUpTo(i + 1)`. */
  method ProcessNext(cb: Callbacks, session: Session, stage: Stage, ctx: Context,
                     pairs: seq<(Item, State)>, ghost t0: Tables, i: nat)
    returns (raised: bool)
    requires i < |pairs| && session.Snapshot() == ProcessUpTo(cb, stage, pairs, i, t0, ctx)
    requires session.Valid()
    modifies session`raw, session`tool, session`domain
    ensures session.Valid()
    ensures raised == ProcessRaises(cb, stage, pairs[i].0)
    ensures session.Snapshot() == ProcessUpTo(cb, stage, pairs, i + 1, t0, ctx)
  {
    raised := Process(cb, session, stage, pairs[i].0, ctx);
  }

  /**
   * The rest of the turn on item `i`, once `process` has returned or raised:
   * the pair's state is the one bound; stop if `process` or the modulo
   * raised, or else, at a sync point, merge the state into the run's row
   * and record the progress.
   */
  method SyncTurn(session: Session, interval: int, ghost init: State, pairs: seq<(Item, State)>,
                  ghost raises: seq<bool>, i: nat, before: Progress, raised: bool, saved: SubtaskRun, ghost s0: State)
    returns (after: Progress, saved': SubtaskRun)
    requires |raises| == |pairs| && i < |pairs| && raised == raises[i]
    requires before == Trace(interval, init, pairs, raises, i) && !before.failed
    requires session.Valid() && saved.id < |session.runs| && session.runs[saved.id] == saved
    requires saved.state == CheckpointState(before.syncs, s0)
    modifies session`runs
    ensures session.Valid()
    ensures after == Turn(interval, before, pairs[i], raised, i) == Trace(interval, init, pairs, raises, i + 1)
    ensures saved' == saved.(state := saved'.state) && session.runs == old(session.runs)[saved.id := saved']
    ensures saved'.state == if !raised && IsSyncPoint(i, interval) then pairs[i].1 else saved.state
    ensures saved'.state == CheckpointState(after.syncs, s0)
  {
    var state := pairs[i].1;
    var syncs := before.syncs;
    var failed := false;
    saved' := saved;
    if raised || interval == 0 {
      failed := true;
    } else if i % interval == 0 && i != 0 {
      saved' := saved'.(state := state);
      session.MergeRun(saved');
      syncs := syncs + [SyncPoint(state, RemoteProgress(interval, i))];
    }
    after := Progress(state, syncs, i + 1, failed);
  }

  /** One turn of the loop on item `i`: `process` it, then `SyncTurn`. */
  method SyncItem(cb: Callbacks, session: Session, stage: Stage, ctx: Context, interval: int,
                  ghost init: State, pairs: seq<(Item, State)>, ghost raises: seq<bool>, ghost t0: Tables,
                  i: nat, before: Progress, saved: SubtaskRun, ghost s0: State)
    returns (after: Progress, saved': SubtaskRun)
    requires |raises| == |pairs| && i < |pairs| && raises[i] == ProcessRaises(cb, stage, pairs[i].0)
    requires before == Trace(interval, init, pairs, raises, i) && !before.failed
    requires session.Snapshot() == ProcessUpTo(cb, stage, pairs, i, t0, ctx)
    requires session.Valid() && saved.id < |session.runs| && session.runs[saved.id] == saved
    requires saved.state == CheckpointState(before.syncs, s0)
    modifies session`raw, session`tool, session`domain, session`runs
    ensures session.Valid()
    ensures after == Trace(interval, init, pairs, raises, i + 1)
    ensures session.Snapshot() == ProcessUpTo(cb, stage, pairs, i + 1, t0, ctx)
    ensures saved' == saved.(state := saved'.state) && session.runs == old(session.runs)[saved.id := saved']
    ensures saved'.state == if !raises[i] && IsSyncPoint(i, interval) then pairs[i].1 else saved.state
    ensures saved'.state == CheckpointState(after.syncs, s0)
  {
    var raised := ProcessNext(cb, session, stage, ctx, pairs, t0, i);
    after, saved' := SyncTurn(session, interval, init, pairs, raises, i, before, raised, saved, s0);
  }

  /**
   * The `try` block of `Subtask.run`: walk the fetched pairs in order, one
   * `SyncItem` turn each, until the first exception.
   */
  method SyncLoop(cb: Callbacks, session: Session, stage: Stage, ctx: Context, interval: int,
                  init: State, pairs: seq<(Item, State)>, run: SubtaskRun)
    returns (state: State, syncs: seq<SyncPoint>, failed: bool, saved: SubtaskRun)
    requires session.Valid() && run.id < |session.runs| && session.runs[run.id] == run
    modifies session`raw, session`tool, session`domain, session`runs
    ensures session.Valid()
    ensures var p := Trace(interval, init, pairs, Raises(cb, stage, pairs), |pairs|);
            && state == p.state && syncs == p.syncs && failed == p.failed
            && session.Snapshot() == ProcessUpTo(cb, stage, pairs, p.processed, old(session.Snapshot()), ctx)
    ensures saved == run.(state := saved.state) && session.runs == old(session.runs)[run.id := saved]
    ensures saved.state == CheckpointState(syncs, run.state)
  {
    ghost var t0 := session.Snapshot();
    ghost var runs0 := session.runs;
    ghost var raises := Raises(cb, stage, pairs);
    var p := Progress(init, [], 0, false);
    saved := run;
    var i := 0;
    while i < |pairs| && !p.failed
      invariant i <= |pairs|
      invariant p == Trace(interval, init, pairs, raises, i) && p.processed == i
      invariant session.Snapshot() == ProcessUpTo(cb, stage, pairs, i, t0, ctx)
      invariant saved == run.(state := saved.state)
      invariant session.runs == runs0[run.id := saved]
      invariant session.Valid()
      invariant saved.state == CheckpointState(p.syncs, run.state)
    {
      p, saved := SyncItem(cb, session, stage, ctx, interval, init, pairs, raises, t0, i, p, saved, run.state);
      i := i + 1;
    }
    if p.failed {
      TraceStaysFailed(interval, init, pairs, raises, i, |pairs|);
    }
    state, syncs, failed := p.state, p.syncs, p.failed;
  }

  /**
   * `Subtask.run`: open a run row; take the resumption state (incremental) or
   * call `delete` and start from `{}`; run the sync loop over what `fetch`
   * yields, catching whatever it raises; finally write the last bound state
   * and the completion time, whether or not an exception was caught.
   */
  method Run(cb: Callbacks, session: Session, stage: Stage, ctx: Context, interval: int)
    returns (syncs: seq<SyncPoint>, caught: bool)
    requires session.Valid()
    modifies session
    ensures session.Valid()
    ensures var o := Expected(cb, stage, ctx, interval, old(session.runs), old(session.Snapshot()));
            && syncs == o.syncs
            && caught == o.caught
            && session.Snapshot() == o.tables
            && session.runs == old(session.runs) +
                 [SubtaskRun(|old(session.runs)|, Name(stage), ctx.connectionId,
                             old(session.clock), Some(old(session.clock) + 1), o.finalState)]
            && session.clock == old(session.clock) + 2
  {
    var run, state := Begin(session, stage, ctx);
    syncs, caught := Body(cb, session, stage, ctx, interval, run, state);
  }

  /**
   * The rest of `Subtask.run`, once the run row is open and the initial
   * state chosen: the sync loop over what `fetch` yields, then the final
   * write of the last bound state and the completion time to the run's row.
   */
  method Body(cb: Callbacks, session: Session, stage: Stage, ctx: Context, interval: int, run: SubtaskRun, init: State)
    returns (syncs: seq<SyncPoint>, caught: bool)
    requires session.Valid() && run.id < |session.runs| && session.runs[run.id] == run
    modifies session`raw, session`tool, session`domain, session`runs, session`clock
    ensures session.Valid()
    ensures var f := Fetch(cb, stage, init, old(session.Snapshot()), ctx);
            var p := Trace(interval, init, f.pairs, Raises(cb, stage, f.pairs), |f.pairs|);
            && syncs == p.syncs
            && caught == (p.failed || f.raises)
            && session.Snapshot() == ProcessUpTo(cb, stage, f.pairs, p.processed, old(session.Snapshot()), ctx)
            && session.runs == old(session.runs)[run.id := run.(state := p.state, completed := Some(old(session.clock)))]
            && session.clock == old(session.clock) + 1
  {
    var fetched := Fetch(cb, stage, init, session.Snapshot(), ctx);
    var state, failed, saved;
    state, syncs, failed, saved := SyncLoop(cb, session, stage, ctx, interval, init, fetched.pairs, run);
    caught := failed || fetched.raises;
    var now := session.Now();
    saved := saved.(state := state, completed := Some(now));
    session.MergeRun(saved);
  }

  /**
   * The start of `Subtask.run`: open the run row, then take the resumption
   * state (incremental) or call `delete` and start from `{}`.
   */
  method Begin(session: Session, stage: Stage, ctx: Context) returns (run: SubtaskRun, state: State)
    requires session.Valid()
    modifies session`runs, session`clock, session`raw
    ensures session.Valid()
    ensures run == SubtaskRun(|old(session.runs)|, Name(stage), ctx.connectionId, old(session.clock), None, map[])
    ensures session.runs == old(session.runs) + [run] && session.clock == old(session.clock) + 1
    ensures state == InitialState(stage, ctx, old(session.runs))
    ensures session.Snapshot() == InitialTables(stage, ctx, old(session.Snapshot()))
  {
    ghost var runs0 := session.runs;
    run := StartSubtask(session, stage, ctx.connectionId);
    if ctx.incremental {
      state := LastState(session.runs, Name(stage), ctx.connectionId);
      LastStateIgnoresOpenRun(runs0, run, Name(stage), ctx.connectionId);
    } else {
      Delete(session, stage, ctx);
      state := map[];
    }
  }

  // ---------------------------------------------------------------------------
  // Properties of a run
  // ---------------------------------------------------------------------------

  /** The raw records `process` inserts for the collected items, with params `p`. */
  function RawFor(p: Params, ps: seq<(Item, State)>): seq<RawRecord> {
    if ps == [] then []
    else RawFor(p, ps[..|ps| - 1]) + if ps[|ps| - 1].0.Data? then [RawRecord(p, ps[|ps| - 1].0.data)] else []
  }

  /** One raw record per collected item, in order, carrying the item as payload. */
  lemma {:induction false} RawForEach(p: Params, ps: seq<(Item, State)>)
    requires forall j :: 0 <= j < |ps| ==> ps[j].0.Data?
    ensures |RawFor(p, ps)| == |ps|
    ensures forall j :: 0 <= j < |ps| ==> RawFor(p, ps)[j] == RawRecord(p, ps[j].0.data)
  {
    if ps != [] {
      RawForEach(p, ps[..|ps| - 1]);
    }
  }

  /** A collector's process steps append to its own raw table and touch nothing else. */
  lemma {:induction false} CollectorAppends(cb: Callbacks, stage: Stage, pairs: seq<(Item, State)>, k: nat, t: Tables, ctx: Context)
    requires stage.Collector? || stage.SubstreamCollector?
    requires k <= |pairs|
    ensures var r := ProcessUpTo(cb, stage, pairs, k, t, ctx);
            && Table(r.raw, stage.stream.name) == Table(t.raw, stage.stream.name) + RawFor(ParamsOf(ctx), pairs[..k])
            && (forall name :: name != stage.stream.name ==> Table(r.raw, name) == Table(t.raw, name))
            && r.tool == t.tool && r.domain == t.domain
  {
    if k > 0 {
      CollectorAppends(cb, stage, pairs, k - 1, t, ctx);
      var name, p, item := stage.stream.name, ParamsOf(ctx), pairs[k - 1].0;
      var prev := ProcessUpTo(cb, stage, pairs, k - 1, t, ctx);
      var added := if item.Data? then [RawRecord(p, item.data)] else [];
      assert ProcessUpTo(cb, stage, pairs, k, t, ctx) == ProcessEffect(cb, stage, item, prev, ctx);
      assert Table(ProcessEffect(cb, stage, item, prev, ctx).raw, name) == Table(prev.raw, name) + added;
      assert pairs[..k][..k - 1] == pairs[..k - 1];
      assert RawFor(p, pairs[..k]) == RawFor(p, pairs[..k - 1]) + added;
    }
  }

  /**
   * A collector's `delete` (when not incremental) and its first `k` process
   * steps leave in its raw table the rows it started with, less its own
   * scope's when not incremental, followed by one row per data item; other
   * tables are untouched.
   */
  lemma CollectorRunTables(cb: Callbacks, stage: Stage, ctx: Context, pairs: seq<(Item, State)>, k: nat, t: Tables)
    requires stage.Collector? || stage.SubstreamCollector?
    requires k <= |pairs|
    ensures var r := ProcessUpTo(cb, stage, pairs, k, InitialTables(stage, ctx, t), ctx);
            var name := stage.stream.name;
            var p := ParamsOf(ctx);
            var before := if ctx.incremental then Table(t.raw, name) else DeleteByParams(Table(t.raw, name), p);
            && Table(r.raw, name) == before + RawFor(p, pairs[..k])
            && (forall other :: other != name ==> Table(r.raw, other) == Table(t.raw, other))
            && r.tool == t.tool && r.domain == t.domain
  {
    CollectorAppends(cb, stage, pairs, k, InitialTables(stage, ctx, t), ctx);
  }

  /**
   * A collector run leaves in its raw table the rows it started with (all of
   * them when incremental; when not, all but those of its own scope, which
   * `delete` removed), followed by the rows of the items it processed; it
   * touches no other table.
   */
  lemma CollectorRawTable(cb: Callbacks, stage: Stage, ctx: Context, interval: int, runs: seq<SubtaskRun>, t: Tables)
    requires stage.Collector? || stage.SubstreamCollector?
    ensures var o := Expected(cb, stage, ctx, interval, runs, t);
            var name := stage.stream.name;
            var p := ParamsOf(ctx);
            var before := if ctx.incremental then Table(t.raw, name) else DeleteByParams(Table(t.raw, name), p);
            && Table(o.tables.raw, name) == before + RawFor(p, o.fetched.pairs[..o.attempted])
            && (forall other :: other != name ==> Table(o.tables.raw, other) == Table(t.raw, other))
            && o.tables.tool == t.tool && o.tables.domain == t.domain
  {
    var o := Expected(cb, stage, ctx, interval, runs, t);
    CollectorRunTables(cb, stage, ctx, o.fetched.pairs, o.attempted, t);
  }

  /** The rows a collector run adds: exactly one per item processed, in order, each carrying that item. */
  lemma CollectorRowPerItem(cb: Callbacks, stage: Stage, ctx: Context, interval: int, runs: seq<SubtaskRun>, t: Tables)
    requires stage.Collector? || stage.SubstreamCollector?
    ensures var o := Expected(cb, stage, ctx, interval, runs, t);
            var added := RawFor(ParamsOf(ctx), o.fetched.pairs[..o.attempted]);
            && |added| == o.attempted
            && forall j :: 0 <= j < o.attempted ==> added[j] == RawRecord(ParamsOf(ctx), o.fetched.pairs[j].0.data)
  {
    var o := Expected(cb, stage, ctx, interval, runs, t);
    FetchedRowPerItem(cb, stage, ctx, o.initial, InitialTables(stage, ctx, t), o.attempted);
  }

  /** The rows for the first `k` items a collector's fetch yields: one per item, in order. */
  lemma FetchedRowPerItem(cb: Callbacks, stage: Stage, ctx: Context, state: State, t: Tables, k: nat)
    requires stage.Collector? || stage.SubstreamCollector?
    requires k <= |Fetch(cb, stage, state, t, ctx).pairs|
    ensures var pairs := Fetch(cb, stage, state, t, ctx).pairs;
            var added := RawFor(ParamsOf(ctx), pairs[..k]);
            && |added| == k
            && forall j :: 0 <= j < k ==> added[j] == RawRecord(ParamsOf(ctx), pairs[j].0.data)
  {
    var pairs := Fetch(cb, stage, state, t, ctx).pairs;
    CollectedItemsAreData(cb, stage, state, t, ctx);
    RawForEach(ParamsOf(ctx), pairs[..k]);
  }

  /** After a full-refresh collector run, every raw row of the scope is one this run added. */
  lemma FullRefreshKeepsOnlyNewRows(cb: Callbacks, stage: Stage, ctx: Context, interval: int, runs: seq<SubtaskRun>, t: Tables)
    requires stage.Collector? || stage.SubstreamCollector?
    requires !ctx.incremental
    ensures var o := Expected(cb, stage, ctx, interval, runs, t);
            var added := RawFor(ParamsOf(ctx), o.fetched.pairs[..o.attempted]);
            forall x :: x in Table(o.tables.raw, stage.stream.name) && x.params == ParamsOf(ctx) ==> x in added
  {
    var o := Expected(cb, stage, ctx, interval, runs, t);
    var name, p := stage.stream.name, ParamsOf(ctx);
    CollectorRawTable(cb, stage, ctx, interval, runs, t);
    var before := DeleteByParams(Table(t.raw, name), p);
    var added := RawFor(p, o.fetched.pairs[..o.attempted]);
    forall x | x in Table(o.tables.raw, name) && x.params == p
      ensures x in added
    {
      assert x in before + added;
    }
  }

  /** The extractor and the convertor never move the state: their run ends on the state it started with. */
  lemma StoredRowStagesKeepState(cb: Callbacks, stage: Stage, ctx: Context, interval: int, runs: seq<SubtaskRun>, t: Tables)
    requires stage.Extractor? || stage.Convertor?
    ensures var o := Expected(cb, stage, ctx, interval, runs, t);
            o.finalState == o.initial && !o.fetched.raises
  {
    var o := Expected(cb, stage, ctx, interval, runs, t);
    ExpectedClosedForm(cb, stage, ctx, interval, runs, t);
    StoredRowsFetch(cb, stage, o.initial, InitialTables(stage, ctx, t), ctx);
  }

  /**
   * When `process` raises on item `k` (and on none before it), the run
   * stops there, records the exception, and still finalises with the state
   * fetched with item `k`, since the loop binds it before calling `process`;
   * no sync point is reached at or after `k`.
   */
  lemma RaisingItemEndsRun(cb: Callbacks, stage: Stage, ctx: Context, interval: int, runs: seq<SubtaskRun>, t: Tables, k: nat)
    requires interval != 0
    requires var f := Expected(cb, stage, ctx, interval, runs, t).fetched;
             && k < |f.pairs| && ProcessRaises(cb, stage, f.pairs[k].0)
             && forall j :: 0 <= j < k ==> !ProcessRaises(cb, stage, f.pairs[j].0)
    ensures var o := Expected(cb, stage, ctx, interval, runs, t);
            && o.attempted == k + 1
            && o.finalState == o.fetched.pairs[k].1
            && o.caught
            && forall j :: 0 <= j < |o.syncs| ==> o.syncs[j].progress.current < k
  {
    var o := Expected(cb, stage, ctx, interval, runs, t);
    RaisingItemEndsLoop(interval, o.initial, o.fetched.pairs, Raises(cb, stage, o.fetched.pairs), k);
  }

  /**
   * When `fetch` raises after its last pair and no `process` raised, every
   * item was processed, the run records the exception and finalises with the
   * state fetched with the last item (the initial state when nothing was
   * fetched).
   */
  lemma FetchErrorKeepsLastState(cb: Callbacks, stage: Stage, ctx: Context, interval: int, runs: seq<SubtaskRun>, t: Tables)
    requires interval != 0
    requires var f := Expected(cb, stage, ctx, interval, runs, t).fetched;
             && f.raises
             && forall j :: 0 <= j < |f.pairs| ==> !ProcessRaises(cb, stage, f.pairs[j].0)
    ensures var o := Expected(cb, stage, ctx, interval, runs, t);
            var n := |o.fetched.pairs|;
            && o.attempted == n
            && o.finalState == (if n == 0 then o.initial else o.fetched.pairs[n - 1].1)
            && o.caught
  {
    var o := Expected(cb, stage, ctx, interval, runs, t);
    CleanLoopRunsAll(interval, o.initial, o.fetched.pairs, Raises(cb, stage, o.fetched.pairs));
  }

  /** Saving under `KeyOf` keeps every domain record filed under its own key. */
  lemma {:induction false} ApplySavesKeepsKeys(d: map<DomainKey, DomainRecord>, steps: seq<SaveStep>)
    requires forall k :: k in d ==> KeyOf(d[k]) == k
    ensures forall k :: k in ApplySaves(d, steps) ==> KeyOf(ApplySaves(d, steps)[k]) == k
  {
    if steps != [] {
      var init := steps[..|steps| - 1];
      ApplySavesKeepsKeys(d, init);
      match steps[|steps| - 1]
      case Skip(_) =>
        assert ApplySaves(d, steps) == ApplySaves(d, init);
      case Save(rec) =>
        assert ApplySaves(d, steps) == ApplySaves(d, init)[KeyOf(rec) := rec];
    }
  }

  /**
   * A `process` step keeps the tables well keyed; after an extraction the
   * merged tool record is the only row under its primary key.
   */
  lemma ProcessKeepsKeys(cb: Callbacks, stage: Stage, item: Item, t: Tables, ctx: Context)
    requires WellKeyed(t.tool, t.domain)
    ensures var t' := ProcessEffect(cb, stage, item, t, ctx);
            && WellKeyed(t'.tool, t'.domain)
            && (stage.Extractor? && !ProcessRaises(cb, stage, item) ==>
                  var rec := Extracted(cb.extract(stage.stream, item.raw.data).value, item.raw);
                  forall x :: x in Table(t'.tool, stage.stream.name) && x.key == rec.key ==> x == rec)
  {
    match stage
    case Collector(_) =>
    case SubstreamCollector(_) =>
    case Extractor(s) =>
      if item.Raw? && cb.extract(s, item.raw.data).Some? {
        UpsertKeepsKeysUnique(Table(t.tool, s.name), Extracted(cb.extract(s, item.raw.data).value, item.raw));
      }
    case Convertor(s) =>
      if item.Tool? {
        var d' := ApplySaves(t.domain, SavePlan(cb, s, item.tool, ctx.connectionId));
        ApplySavesKeepsKeys(t.domain, SavePlan(cb, s, item.tool, ctx.connectionId));
        assert ProcessEffect(cb, stage, item, t, ctx) == t.(domain := d');
      }
  }

  lemma {:induction false} ProcessUpToKeepsKeys(cb: Callbacks, stage: Stage, pairs: seq<(Item, State)>, k: nat, t: Tables, ctx: Context)
    requires k <= |pairs| && WellKeyed(t.tool, t.domain)
    ensures var t' := ProcessUpTo(cb, stage, pairs, k, t, ctx); WellKeyed(t'.tool, t'.domain)
  {
    if k > 0 {
      ProcessUpToKeepsKeys(cb, stage, pairs, k - 1, t, ctx);
      ProcessKeepsKeys(cb, stage, pairs[k - 1].0, ProcessUpTo(cb, stage, pairs, k - 1, t, ctx), ctx);
    }
  }

  /** A run leaves every tool table with unique primary keys and every domain record under its own key. */
  lemma RunKeepsKeys(cb: Callbacks, stage: Stage, ctx: Context, interval: int, runs: seq<SubtaskRun>, t: Tables)
    requires WellKeyed(t.tool, t.domain)
    ensures var t' := Expected(cb, stage, ctx, interval, runs, t).tables; WellKeyed(t'.tool, t'.domain)
  {
    var o := Expected(cb, stage, ctx, interval, runs, t);
    ProcessUpToKeepsKeys(cb, stage, o.fetched.pairs, o.attempted, InitialTables(stage, ctx, t), ctx);
  }
}
