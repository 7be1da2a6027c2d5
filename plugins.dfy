/**
 * The plugin base class: the registry of the plugin's streams, its name and
 * description, the flattened list of its subtasks, stream lookup, and the
 * pipeline plan and remote-scope answers it builds for the server.
 *
 * The abstract hooks a concrete plugin provides (`remote_scopes`,
 * `remote_scope_groups`, `domain_scopes`) are foreign code; they appear as
 * parameters.
 */
module Plugins {
  import opened Values
  import opened Text
  import Subtasks

  // ---------------------------------------------------------------------------
  // Naming
  // ---------------------------------------------------------------------------

  /** `Plugin.name`: the class name lower-cased, with one trailing "plugin" removed. */
  function PluginName(className: string): string {
    RemoveSuffix(Lower(className), "plugin")
  }

  /** `Plugin.description` */
  function PluginDescription(name: string): string {
    name + " plugin"
  }

  /**
   * A plugin's name is its lower-cased class name, less the word "plugin"
   * when the class name ends with it; it is never longer than the class name.
   */
  lemma PluginNameOfClass(className: string)
    ensures var lower := Lower(className);
            && (EndsWith(lower, "plugin") ==> PluginName(className) + "plugin" == lower)
            && (!EndsWith(lower, "plugin") ==> PluginName(className) == lower)
            && |PluginName(className)| <= |className|
            && forall i :: 0 <= i < |PluginName(className)| ==> !IsUpperChar(PluginName(className)[i])
  {
    var lower := Lower(className);
    var r := PluginName(className);
    if EndsWith(lower, "plugin") {
      assert |r| + 6 == |lower|;
      forall i | 0 <= i < |r|
        ensures !IsUpperChar(r[i])
      {
        assert r[i] == (r + "plugin")[i] == lower[i];
      }
    }
  }

  /** The name can be read back from the description. */
  lemma DescriptionNamesPlugin(name: string)
    ensures EndsWith(PluginDescription(name), " plugin")
    ensures RemoveSuffix(PluginDescription(name), " plugin") == name
  {
    var d := PluginDescription(name);
    assert d[|d| - 7..] == " plugin";
    assert d[..|d| - 7] == name;
  }

  // ---------------------------------------------------------------------------
  // The stream registry
  // ---------------------------------------------------------------------------

  /**
   * A stream object as the registry holds it: the plugin name it was built
   * with, its name, and the subtasks it contributes, in order.
   */
  datatype StreamObj = StreamObj(pluginName: string, name: string, subtasks: seq<Subtasks.Stage>)

  /**
   * An entry of the plugin's `streams` list: a stream object, or a stream
   * class with its name and the subtasks an instance built for a given
   * plugin name has.
   */
  datatype StreamDecl =
    | Instance(obj: StreamObj)
    | Class(name: string, subtasksFor: string -> seq<Subtasks.Stage>)

  /** `stream(self.name)` for a class entry; an object entry is taken as it is. */
  function Instantiate(d: StreamDecl, pluginName: string): (s: StreamObj)
    ensures d.Class? ==> s.pluginName == pluginName && s.name == d.name
    ensures d.Instance? ==> s == d.obj
  {
    match d
    case Instance(obj) => obj
    case Class(name, subtasksFor) => StreamObj(pluginName, name, subtasksFor(pluginName))
  }

  /**
   * The `_streams` dict: its keys in insertion order, and the stream under
   * each key.
   */
  datatype Registry = Registry(order: seq<string>, streams: map<string, StreamObj>)

  /**
   * The dict after registering `decls` in turn: a new name is appended to
   * the key order; a name seen before keeps its place and gets the new
   * stream.
   */
  function Register(decls: seq<StreamDecl>, pluginName: string): Registry {
    if decls == [] then Registry([], map[])
    else
      var r := Register(decls[..|decls| - 1], pluginName);
      var s := Instantiate(decls[|decls| - 1], pluginName);
      Registry(if s.name in r.streams then r.order else r.order + [s.name], r.streams[s.name := s])
  }

  /** The keys are listed once each, in the order, and each stream is filed under its own name. */
  ghost predicate WellFormed(r: Registry) {
    && (forall a, b :: 0 <= a < b < |r.order| ==> r.order[a] != r.order[b])
    && (forall n :: n in r.streams <==> n in r.order)
    && (forall n :: n in r.streams ==> r.streams[n].name == n)
  }

  lemma {:induction false} RegisterWellFormed(decls: seq<StreamDecl>, pluginName: string)
    ensures WellFormed(Register(decls, pluginName))
  {
    if decls != [] {
      RegisterWellFormed(decls[..|decls| - 1], pluginName);
    }
  }

  /** `n` is the name of the stream declared at index `j`, and no later entry has that name. */
  ghost predicate LastDeclaredAt(decls: seq<StreamDecl>, pluginName: string, n: string, j: int) {
    && 0 <= j < |decls|
    && Instantiate(decls[j], pluginName).name == n
    && forall k :: j < k < |decls| ==> Instantiate(decls[k], pluginName).name != n
  }

  /** A name is registered exactly when some entry declares it. */
  lemma {:induction false} RegisterHas(decls: seq<StreamDecl>, pluginName: string, n: string)
    ensures n in Register(decls, pluginName).streams <==>
            exists j :: 0 <= j < |decls| && Instantiate(decls[j], pluginName).name == n
  {
    if decls != [] {
      var init := decls[..|decls| - 1];
      RegisterHas(init, pluginName, n);
      assert forall j :: 0 <= j < |init| ==> init[j] == decls[j];
    }
  }

  /**
   * The stream registered under a name is the one the last entry declaring
   * that name declares: a later stream of the same name replaces an earlier
   * one.
   */
  lemma {:induction false} RegisterKeepsLast(decls: seq<StreamDecl>, pluginName: string, n: string, j: int)
    requires LastDeclaredAt(decls, pluginName, n, j)
    ensures n in Register(decls, pluginName).streams
    ensures Register(decls, pluginName).streams[n] == Instantiate(decls[j], pluginName)
  {
    var last := |decls| - 1;
    if j < last {
      var init := decls[..last];
      assert forall k :: 0 <= k < |init| ==> init[k] == decls[k];
      assert Instantiate(decls[last], pluginName).name != n;
      RegisterKeepsLast(init, pluginName, n, j);
    }
  }

  /** Registering more entries never loses a name, and keeps the names already in order where they were. */
  lemma {:induction false} RegisterExtends(decls: seq<StreamDecl>, more: seq<StreamDecl>, pluginName: string)
    ensures var r := Register(decls, pluginName);
            var r' := Register(decls + more, pluginName);
            |r.order| <= |r'.order| && r'.order[..|r.order|] == r.order
  {
    if more != [] {
      var m := more[..|more| - 1];
      assert (decls + more)[..|decls + more| - 1] == decls + m;
      RegisterExtends(decls, m, pluginName);
    } else {
      assert decls + more == decls;
    }
  }

  // ---------------------------------------------------------------------------
  // Subtasks, pipelines and remote scopes
  // ---------------------------------------------------------------------------

  /** The subtasks of the streams named in `order`, concatenated in that order. */
  function SubtasksOf(order: seq<string>, streams: map<string, StreamObj>): seq<Subtasks.Stage>
    requires forall n :: n in order ==> n in streams
  {
    if order == [] then []
    else SubtasksOf(order[..|order| - 1], streams) + streams[order[|order| - 1]].subtasks
  }

  /** Flattening distributes over concatenation of the stream order. */
  lemma {:induction false} SubtasksOfAppend(a: seq<string>, b: seq<string>, streams: map<string, StreamObj>)
    requires forall n :: n in a ==> n in streams
    requires forall n :: n in b ==> n in streams
    ensures SubtasksOf(a + b, streams) == SubtasksOf(a, streams) + SubtasksOf(b, streams)
  {
    if b == [] {
      assert a + b == a;
    } else {
      var b', last := b[..|b| - 1], b[|b| - 1];
      assert forall n :: n in b' ==> n in b;
      assert (a + b)[..|a + b| - 1] == a + b';
      assert (a + b)[|a + b| - 1] == last;
      SubtasksOfAppend(a, b', streams);
      calc {
        SubtasksOf(a + b, streams);
        SubtasksOf(a + b', streams) + streams[last].subtasks;
        SubtasksOf(a, streams) + SubtasksOf(b', streams) + streams[last].subtasks;
        SubtasksOf(a, streams) + SubtasksOf(b, streams);
      }
    }
  }

  /** A subtask is in the flattened list exactly when some registered stream contributes it. */
  lemma {:induction false} SubtasksOfMembers(order: seq<string>, streams: map<string, StreamObj>, st: Subtasks.Stage)
    requires forall n :: n in order ==> n in streams
    ensures st in SubtasksOf(order, streams) <==>
            exists j :: 0 <= j < |order| && st in streams[order[j]].subtasks
  {
    if order != [] {
      var init := order[..|order| - 1];
      SubtasksOfMembers(init, streams, st);
      if exists j :: 0 <= j < |order| && st in streams[order[j]].subtasks {
        var j :| 0 <= j < |order| && st in streams[order[j]].subtasks;
        if j < |init| {
          assert init[j] == order[j];
        }
      }
      if st in SubtasksOf(init, streams) {
        var j :| 0 <= j < |init| && st in streams[init[j]].subtasks;
        assert order[j] == init[j];
      }
    }
  }

  /** `[f(x) for x in xs]` */
  function Map<A, B>(f: A -> B, xs: seq<A>): (r: seq<B>)
    ensures |r| == |xs|
    ensures forall i :: 0 <= i < |xs| ==> r[i] == f(xs[i])
  {
    if xs == [] then [] else Map(f, xs[..|xs| - 1]) + [f(xs[|xs| - 1])]
  }

  /** A tool scope as the plan builder reads it. */
  datatype ToolScope = ToolScope(id: string, name: string)

  /** A domain scope in the dynamic form the pipeline carries: its type name and its fields. */
  datatype DomainScope = DomainScope(typeName: string, data: Json)

  /** One task of a pipeline stage. */
  datatype PipelineTask = PipelineTask(
    plugin: string,
    skipOnFail: bool,
    subtasks: seq<string>,
    options: map<string, string>)

  /** What `make_pipeline` returns. */
  datatype PipelineData = PipelineData(plan: seq<seq<PipelineTask>>, scopes: seq<DomainScope>)

  /** A node of the remote-scope tree: a scope with its tool scope, or a group. */
  datatype RemoteNode =
    | RemoteScope(id: string, name: string, scope: ToolScope)
    | RemoteScopeGroup(groupId: string, groupName: string)

  /** `make_pipeline`'s domain scopes: `domain_scopes` of every tool scope, flattened in order. */
  function DomainScopesOf(toolScopes: seq<ToolScope>, domainScopes: ToolScope -> seq<DomainScope>): seq<DomainScope> {
    if toolScopes == [] then []
    else DomainScopesOf(toolScopes[..|toolScopes| - 1], domainScopes) + domainScopes(toolScopes[|toolScopes| - 1])
  }

  /** Flattening the domain scopes distributes over concatenation of the tool scopes. */
  lemma {:induction false} DomainScopesOfAppend(a: seq<ToolScope>, b: seq<ToolScope>, domainScopes: ToolScope -> seq<DomainScope>)
    ensures DomainScopesOf(a + b, domainScopes) == DomainScopesOf(a, domainScopes) + DomainScopesOf(b, domainScopes)
  {
    if b == [] {
      assert a + b == a;
    } else {
      var b' := b[..|b| - 1];
      assert (a + b)[..|a + b| - 1] == a + b';
      assert (a + b)[|a + b| - 1] == b[|b| - 1];
      DomainScopesOfAppend(a, b', domainScopes);
    }
  }

  /** A domain scope is in the pipeline exactly when some tool scope has it among its domain scopes. */
  lemma {:induction false} DomainScopesOfMembers(toolScopes: seq<ToolScope>, domainScopes: ToolScope -> seq<DomainScope>, d: DomainScope)
    ensures d in DomainScopesOf(toolScopes, domainScopes) <==>
            exists j :: 0 <= j < |toolScopes| && d in domainScopes(toolScopes[j])
  {
    if toolScopes != [] {
      var init := toolScopes[..|toolScopes| - 1];
      DomainScopesOfMembers(init, domainScopes, d);
      if exists j :: 0 <= j < |toolScopes| && d in domainScopes(toolScopes[j]) {
        var j :| 0 <= j < |toolScopes| && d in domainScopes(toolScopes[j]);
        if j < |init| {
          assert init[j] == toolScopes[j];
        }
      }
      if d in DomainScopesOf(init, domainScopes) {
        var j :| 0 <= j < |init| && d in domainScopes(init[j]);
        assert toolScopes[j] == init[j];
      }
    }
  }

  /** One `RemoteScope` per tool scope, with its id and name copied. */
  function AsRemoteScopes(scopes: seq<ToolScope>): (r: seq<RemoteNode>)
    ensures |r| == |scopes|
    ensures forall i :: 0 <= i < |scopes| ==> r[i] == RemoteScope(scopes[i].id, scopes[i].name, scopes[i])
  {
    if scopes == [] then []
    else AsRemoteScopes(scopes[..|scopes| - 1]) + [RemoteScope(scopes[|scopes| - 1].id, scopes[|scopes| - 1].name, scopes[|scopes| - 1])]
  }

  /**
   * `make_remote_scopes`: with a group id that is set and non-empty, the
   * remote scopes of that group; otherwise the scope groups, as they come.
   */
  function MakeRemoteScopes(groupId: Option<string>, remoteScopes: string -> seq<ToolScope>,
                            scopeGroups: seq<RemoteNode>): (r: seq<RemoteNode>)
    ensures groupId.Some? && groupId.value != "" ==>
              var scopes := remoteScopes(groupId.value);
              && |r| == |scopes|
              && forall i :: 0 <= i < |scopes| ==> r[i] == RemoteScope(scopes[i].id, scopes[i].name, scopes[i])
    ensures !(groupId.Some? && groupId.value != "") ==> r == scopeGroups
  {
    if groupId.Some? && groupId.value != "" then AsRemoteScopes(remoteScopes(groupId.value)) else scopeGroups
  }

  /** The options of the task for one scope. */
  function ScopeOptions(scope: ToolScope): map<string, string> {
    map["scopeId" := scope.id, "scopeName" := scope.name]
  }

  // ---------------------------------------------------------------------------
  // The plugin
  // ---------------------------------------------------------------------------

  /**
   * A plugin instance: its class name and the `_streams` dict built when it
   * is constructed, held as its key order and its entries.
   */
  class Plugin {
    const className: string
    var order: seq<string>
    var streams: map<string, StreamObj>

    ghost predicate Valid()
      reads this
    {
      WellFormed(Registry(order, streams))
    }

    /** `Plugin.name` */
    function Name(): string {
      PluginName(className)
    }

    /** `Plugin.description` */
    function Description(): (d: string)
      ensures EndsWith(d, " plugin")
      ensures RemoveSuffix(d, " plugin") == Name()
    {
      DescriptionNamesPlugin(Name());
      PluginDescription(Name())
    }

    /**
     * `Plugin.__init__`: register every declared stream in turn under its
     * name, instantiating stream classes with the plugin's name first.
     */
    constructor (className: string, decls: seq<StreamDecl>)
      ensures this.className == className
      ensures Registry(order, streams) == Register(decls, PluginName(className))
      ensures Valid()
    {
      this.className := className;
      order := [];
      streams := map[];
      new;
      var name := Name();
      var i := 0;
      while i < |decls|
        invariant i <= |decls|
        invariant Registry(order, streams) == Register(decls[..i], name)
      {
        var stream := Instantiate(decls[i], name);
        assert decls[..i + 1][..i] == decls[..i];
        if stream.name !in streams {
          order := order + [stream.name];
        }
        streams := streams[stream.name := stream];
        i := i + 1;
      }
      assert decls[..i] == decls;
      RegisterWellFormed(decls, name);
    }

    /** `Plugin.get_stream`: the stream registered under the name, or an error for an unknown name. */
    function GetStream(streamName: string): (r: Result<StreamObj>)
      requires Valid()
      reads this
      ensures r.Ok? <==> streamName in order
      ensures r.Ok? ==> r.value == streams[streamName] && r.value.name == streamName
      ensures r.Err? ==> r.message == "Unkown stream " + streamName
    {
      if streamName in streams then Ok(streams[streamName]) else Err("Unkown stream " + streamName)
    }

    /** `Plugin.subtasks`: the subtasks of every registered stream, in registration order. */
    function AllSubtasks(): (r: seq<Subtasks.Stage>)
      requires Valid()
      reads this
      ensures r == SubtasksOf(order, streams)
      ensures forall st :: st in r <==> exists j :: 0 <= j < |order| && st in streams[order[j]].subtasks
    {
      forall st ensures st in SubtasksOf(order, streams) <==>
                        exists j :: 0 <= j < |order| && st in streams[order[j]].subtasks {
        SubtasksOfMembers(order, streams, st);
      }
      SubtasksOf(order, streams)
    }

    /**
     * `make_pipeline_stage`: a single task for this plugin that runs every
     * subtask by name, does not skip on failure, and carries the scope's id
     * and name.
     */
    function MakePipelineStage(scope: ToolScope): (r: seq<PipelineTask>)
      requires Valid()
      reads this
      ensures |r| == 1
      ensures r[0].plugin == Name() && !r[0].skipOnFail
      ensures |r[0].subtasks| == |AllSubtasks()|
      ensures forall i :: 0 <= i < |AllSubtasks()| ==> r[0].subtasks[i] == Subtasks.Name(AllSubtasks()[i])
      ensures r[0].options.Keys == {"scopeId", "scopeName"}
      ensures r[0].options["scopeId"] == scope.id && r[0].options["scopeName"] == scope.name
    {
      [PipelineTask(Name(), false, Map(Subtasks.Name, AllSubtasks()), ScopeOptions(scope))]
    }

    /** `make_pipeline_plan`: one stage per scope, in scope order. */
    function MakePipelinePlan(scopes: seq<ToolScope>): (plan: seq<seq<PipelineTask>>)
      requires Valid()
      reads this
      ensures |plan| == |scopes|
      ensures forall i :: 0 <= i < |scopes| ==> plan[i] == MakePipelineStage(scopes[i])
    {
      if scopes == [] then []
      else MakePipelinePlan(scopes[..|scopes| - 1]) + [MakePipelineStage(scopes[|scopes| - 1])]
    }

    /** `make_pipeline`: the plan for the tool scopes, and all their domain scopes in order. */
    function MakePipeline(toolScopes: seq<ToolScope>, domainScopes: ToolScope -> seq<DomainScope>): (p: PipelineData)
      requires Valid()
      reads this
      ensures p.plan == MakePipelinePlan(toolScopes)
      ensures p.scopes == DomainScopesOf(toolScopes, domainScopes)
      ensures forall d :: d in p.scopes <==> exists j :: 0 <= j < |toolScopes| && d in domainScopes(toolScopes[j])
    {
      forall d ensures d in DomainScopesOf(toolScopes, domainScopes) <==>
                       exists j :: 0 <= j < |toolScopes| && d in domainScopes(toolScopes[j]) {
        DomainScopesOfMembers(toolScopes, domainScopes, d);
      }
      PipelineData(MakePipelinePlan(toolScopes), DomainScopesOf(toolScopes, domainScopes))
    }
  }

  /**
   * On a plugin built from `decls`, `get_stream` finds exactly the declared
   * names, and answers the stream the last entry of that name declares.
   */
  lemma GetStreamOfDeclared(p: Plugin, decls: seq<StreamDecl>, n: string)
    requires p.Valid() && Registry(p.order, p.streams) == Register(decls, PluginName(p.className))
    ensures p.GetStream(n).Ok? <==> exists j :: 0 <= j < |decls| && Instantiate(decls[j], p.Name()).name == n
    ensures forall j :: LastDeclaredAt(decls, p.Name(), n, j) ==> p.GetStream(n) == Ok(Instantiate(decls[j], p.Name()))
  {
    RegisterHas(decls, p.Name(), n);
    forall j | LastDeclaredAt(decls, p.Name(), n, j)
      ensures p.GetStream(n) == Ok(Instantiate(decls[j], p.Name()))
    {
      RegisterKeepsLast(decls, p.Name(), n, j);
    }
  }

  /**
   * On a well-formed plugin, the stage the plan holds for scope `i` is a
   * single task for the plugin's name that names that scope and runs every
   * subtask the registered streams contribute.
   */
  lemma PlanOfScopes(p: Plugin, scopes: seq<ToolScope>, i: nat)
    requires p.Valid() && i < |scopes|
    ensures var stage := p.MakePipelinePlan(scopes)[i];
            && |stage| == 1
            && stage[0].plugin == PluginName(p.className)
            && stage[0].options["scopeId"] == scopes[i].id
            && stage[0].options["scopeName"] == scopes[i].name
            && forall st :: st in p.AllSubtasks() ==> Subtasks.Name(st) in stage[0].subtasks
  {
    var stage := p.MakePipelinePlan(scopes)[i];
    forall st | st in p.AllSubtasks()
      ensures Subtasks.Name(st) in stage[0].subtasks
    {
      var k :| 0 <= k < |p.AllSubtasks()| && p.AllSubtasks()[k] == st;
      assert stage[0].subtasks[k] == Subtasks.Name(st);
    }
  }
}
