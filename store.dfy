/**
 * The storage the engine reads and writes: the `SubtaskRun` checkpoint table,
 * one raw table and one tool table per stream, and the domain tables, held
 * in memory. A merge is an upsert by primary key.
 */
module Store {
  import opened Values

  /** One row of the checkpoint table: one execution attempt of one subtask for one connection. */
  datatype SubtaskRun = SubtaskRun(
    id: nat,
    subtaskName: string,
    connectionId: int,
    started: nat,
    completed: Option<nat>,
    state: State)

  /** The `{connection_id, scope_id}` object a collector tags its raw records with. */
  datatype Params = Params(connectionId: int, scopeId: string)

  /** A raw payload as collected, with the params of the scope it was collected for. */
  datatype RawRecord = RawRecord(params: Params, data: Json)

  /** A tool record, keyed by its primary key, pointing back at the raw record it was extracted from. */
  datatype ToolRecord = ToolRecord(key: string, fields: Json, origin: RawRecord)

  /** A domain record lives in the table of its domain type, under its generated id. */
  datatype DomainRecord = DomainRecord(table: string, id: string, fields: Json)
  datatype DomainKey = DomainKey(table: string, id: string)

  function KeyOf(d: DomainRecord): DomainKey {
    DomainKey(d.table, d.id)
  }

  /** The data tables (everything but the checkpoint table), by stream name. */
  datatype Tables = Tables(
    raw: map<string, seq<RawRecord>>,
    tool: map<string, seq<ToolRecord>>,
    domain: map<DomainKey, DomainRecord>)

  /** The rows of a named table; a table never written to is empty. */
  function Table<R>(m: map<string, seq<R>>, name: string): seq<R> {
    if name in m then m[name] else []
  }

  /**
   * `DELETE FROM raw WHERE params = p`, keeping the order of the surviving rows:
   * every row tagged with `p` goes, every other row stays as often as it was there.
   */
  function DeleteByParams(rows: seq<RawRecord>, p: Params): (r: seq<RawRecord>)
    ensures forall x :: x in r <==> x in rows && x.params != p
    ensures forall x :: multiset(r)[x] == if x.params == p then 0 else multiset(rows)[x]
    ensures |r| <= |rows|
  {
    if rows == [] then []
    else
      assert rows == [rows[0]] + rows[1..];
      if rows[0].params == p then DeleteByParams(rows[1..], p)
      else [rows[0]] + DeleteByParams(rows[1..], p)
  }

  predicate UniqueKeys(rows: seq<ToolRecord>) {
    forall i, j :: 0 <= i < j < |rows| ==> rows[i].key != rows[j].key
  }

  /**
   * `session.merge(tool_record)`: the row with the same primary key is replaced
   * in place; without one, the record is appended.
   */
  function Upsert(rows: seq<ToolRecord>, rec: ToolRecord): (r: seq<ToolRecord>)
    ensures rec in r
    ensures forall x :: x in r ==> x == rec || x in rows
    ensures forall x :: x in rows && x.key != rec.key ==> x in r
    ensures |r| == |rows| || |r| == |rows| + 1
  {
    if rows == [] then [rec]
    else if rows[0].key == rec.key then [rec] + rows[1..]
    else [rows[0]] + Upsert(rows[1..], rec)
  }

  /** On a table with unique keys, a merge keeps the keys unique and leaves `rec` the only row under its key. */
  lemma {:induction false} UpsertKeepsKeysUnique(rows: seq<ToolRecord>, rec: ToolRecord)
    requires UniqueKeys(rows)
    ensures UniqueKeys(Upsert(rows, rec))
    ensures forall x :: x in Upsert(rows, rec) && x.key == rec.key ==> x == rec
  {
    if rows != [] && rows[0].key != rec.key {
      UpsertKeepsKeysUnique(rows[1..], rec);
      var r := Upsert(rows, rec);
      assert r == [rows[0]] + Upsert(rows[1..], rec);
      assert forall j :: 0 < j < |r| ==> r[j] in Upsert(rows[1..], rec);
    }
  }

  /** Merging the same record twice leaves the table as merging it once. */
  lemma {:induction false} UpsertIdempotent(rows: seq<ToolRecord>, rec: ToolRecord)
    ensures Upsert(Upsert(rows, rec), rec) == Upsert(rows, rec)
  {
    if rows != [] && rows[0].key != rec.key {
      UpsertIdempotent(rows[1..], rec);
      assert Upsert(rows, rec)[1..] == Upsert(rows[1..], rec);
    }
  }

  /**
   * The primary keys the tables are stored under: a tool table holds at most
   * one row per primary key, and a domain record is filed under its own
   * (table, id) key.
   */
  predicate WellKeyed(tool: map<string, seq<ToolRecord>>, domain: map<DomainKey, DomainRecord>) {
    && (forall n :: n in tool ==> UniqueKeys(tool[n]))
    && (forall k :: k in domain ==> KeyOf(domain[k]) == k)
  }

  /** The session the engine works in: every table, plus the clock `datetime.now()` reads. */
  class Session {
    var runs: seq<SubtaskRun>
    var raw: map<string, seq<RawRecord>>
    var tool: map<string, seq<ToolRecord>>
    var domain: map<DomainKey, DomainRecord>
    var clock: nat

    /**
     * A run's id is its row number (ids are assigned in insertion order), every
     * run started before the clock's current reading, and the data tables are
     * well keyed.
     */
    ghost predicate Valid()
      reads this`runs, this`clock, this`tool, this`domain
    {
      && (forall i :: 0 <= i < |runs| ==> runs[i].id == i && runs[i].started < clock)
      && WellKeyed(tool, domain)
    }

    function Snapshot(): Tables
      reads this`raw, this`tool, this`domain
    {
      Tables(raw, tool, domain)
    }

    /** `Session(engine)`: a session on the rows already stored, with the clock past every recorded start. */
    constructor (runs0: seq<SubtaskRun>, t: Tables, clock0: nat)
      requires forall i :: 0 <= i < |runs0| ==> runs0[i].id == i && runs0[i].started < clock0
      requires WellKeyed(t.tool, t.domain)
      ensures Valid() && runs == runs0 && Snapshot() == t && clock == clock0
    {
      runs := runs0;
      raw, tool, domain := t.raw, t.tool, t.domain;
      clock := clock0;
    }

    /** `datetime.now()`: a counter that moves forward on every reading. */
    method Now() returns (t: nat)
      requires Valid()
      modifies this`clock
      ensures Valid() && t == old(clock) && clock == old(clock) + 1
    {
      t := clock;
      clock := clock + 1;
    }

    /** `session.add(subtask_run)` */
    method AddRun(run: SubtaskRun)
      requires Valid() && run.id == |runs| && run.started < clock
      modifies this`runs
      ensures Valid() && runs == old(runs) + [run]
    {
      runs := runs + [run];
    }

    /** `session.merge(subtask_run)` for a run already in the table. */
    method MergeRun(run: SubtaskRun)
      requires Valid() && run.id < |runs| && run.started < clock
      modifies this`runs
      ensures Valid() && runs == old(runs)[run.id := run]
    {
      runs := runs[run.id := run];
    }

    /** `session.add(raw_record)` on the raw table `name`. */
    method InsertRaw(name: string, rec: RawRecord)
      modifies this`raw
      ensures raw == old(raw)[name := Table(old(raw), name) + [rec]]
    {
      raw := raw[name := Table(raw, name) + [rec]];
    }

    /** `DELETE FROM name WHERE params = p` */
    method DeleteRaw(name: string, p: Params)
      modifies this`raw
      ensures raw == old(raw)[name := DeleteByParams(Table(old(raw), name), p)]
    {
      raw := raw[name := DeleteByParams(Table(raw, name), p)];
    }

    /**
     * `session.merge(tool_record)` on the tool table `name`: the record
     * replaces the row with its primary key, which stays unique.
     */
    method MergeTool(name: string, rec: ToolRecord)
      requires Valid()
      modifies this`tool
      ensures Valid()
      ensures tool == old(tool)[name := Upsert(Table(old(tool), name), rec)]
      ensures forall x :: x in tool[name] && x.key == rec.key ==> x == rec
    {
      UpsertKeepsKeysUnique(Table(tool, name), rec);
      tool := tool[name := Upsert(Table(tool, name), rec)];
    }

    /** `session.merge(domain_record)` */
    method MergeDomain(rec: DomainRecord)
      requires Valid()
      modifies this`domain
      ensures Valid()
      ensures domain == old(domain)[KeyOf(rec) := rec]
    {
      domain := domain[KeyOf(rec) := rec];
    }
  }
}
