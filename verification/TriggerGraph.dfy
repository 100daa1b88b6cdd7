/**
  * Validation of trigger graphs (code_auditor/poc_artifacts.py:147-309): what the validator accepts, and
  * what its last message means.
  */
module TriggerGraph {
  import Fences
  import opened Reachability

  datatype Field =
    | SchemaVersion | FindingId | Title | Trigger | EvidenceBasis | Nodes | Edges
    | Id | Function | Location | Role | Description | Evidence | KeyParameters
    | Name | ParameterValue | Origin | SecurityRole
    | From | To | EdgeLabel | Condition | AttackerControlled
    | OtherField(text: string)

  datatype Value =
    | Null | Bool(b: bool) | Int(i: int) | Float(r: real) | Str(s: string)
    | Arr(items: seq<Value>) | Obj(fields: map<Field, Value>)

  type Dict = map<Field, Value>

  const MAX_NODES := 128
  const MAX_EDGES := 256
  const MAX_PARAMETERS := 32

  function Get(d: Dict, k: Field): Value {
    if k in d then d[k] else Null
  }

  /** The text of a value without outer white space; empty when it is no text. */
  function Text(v: Value): string {
    if v.Str? then Fences.Strip(v.s) else ""
  }

  predicate IsRequired(v: Value, most: nat) {
    Text(v) != "" && |Text(v)| <= most
  }

  predicate IsOptional(v: Value, most: nat) {
    v.Null? || (v.Str? && |v.s| <= most)
  }

  predicate IsLetter(c: char) {
    'A' <= c <= 'Z' || 'a' <= c <= 'z'
  }

  predicate IsIdChar(c: char) {
    IsLetter(c) || '0' <= c <= '9' || c == '_' || c == '.' || c == ':' || c == '-'
  }

  predicate IsNodeId(s: string) {
    1 <= |s| <= 64 && IsLetter(s[0]) && forall i :: 0 <= i < |s| ==> IsIdChar(s[i])
  }

  predicate IsBoth(v: Value) {
    v == Str("source-and-sink")
  }

  predicate IsSource(v: Value) {
    v == Str("trigger") || v == Str("source") || IsBoth(v)
  }

  predicate IsSink(v: Value) {
    v == Str("sink") || IsBoth(v)
  }

  predicate IsRole(v: Value) {
    IsSource(v) || IsSink(v) || v == Str("propagation") || v == Str("guard")
  }

  // ----- what is well formed ------------------------------------------------------------------

  predicate ConformsParameter(v: Value) {
    && v.Obj? && IsRequired(Get(v.fields, Name), 256)
    && IsOptional(Get(v.fields, ParameterValue), 2048) && IsOptional(Get(v.fields, Origin), 2048)
    && IsOptional(Get(v.fields, SecurityRole), 2048) && IsOptional(Get(v.fields, Description), 2048)
  }

  /** A missing list of parameters is an empty one; a null one is not. */
  function ParametersOf(d: Dict): Value {
    if KeyParameters in d then d[KeyParameters] else Arr([])
  }

  predicate ConformsParameters(v: Value) {
    && v.Arr? && |v.items| <= MAX_PARAMETERS
    && forall i :: 0 <= i < |v.items| ==> ConformsParameter(v.items[i])
  }

  predicate ConformsNodeTexts(d: Dict) {
    && IsRequired(Get(d, Id), 64) && IsNodeId(Text(Get(d, Id)))
    && IsRequired(Get(d, Function), 512) && IsRequired(Get(d, Location), 1024)
    && IsRequired(Get(d, Description), 4096) && IsOptional(Get(d, Evidence), 4096)
  }

  predicate ConformsNode(v: Value) {
    v.Obj? && ConformsNodeTexts(v.fields) && IsRole(Get(v.fields, Role)) && ConformsParameters(ParametersOf(v.fields))
  }

  function IdOf(v: Value): string {
    if v.Obj? then Text(Get(v.fields, Id)) else ""
  }

  function RoleOf(v: Value): Value {
    if v.Obj? then Get(v.fields, Role) else Null
  }

  /** The ids of the nodes that pass a test. */
  function IdsWith(nodes: seq<Value>, test: Value -> bool): set<string> {
    if nodes == [] then {} else IdsWith(nodes[..|nodes| - 1], test) + IdIf(nodes[|nodes| - 1], test)
  }

  function IdIf(v: Value, test: Value -> bool): set<string> {
    if IdOf(v) != "" && test(RoleOf(v)) then {IdOf(v)} else {}
  }

  predicate Any(v: Value) {
    true
  }

  function IdsOf(nodes: seq<Value>): set<string> {
    IdsWith(nodes, Any)
  }

  predicate ConformNodes(nodes: seq<Value>) {
    nodes == [] ||
    var most, v := nodes[..|nodes| - 1], nodes[|nodes| - 1];
    ConformNodes(most) && ConformsNode(v) && IdOf(v) !in IdsOf(most)
  }

  predicate ConformsEdge(v: Value, ids: set<string>) {
    && v.Obj?
    && IsRequired(Get(v.fields, From), 64) && IsRequired(Get(v.fields, To), 64)
    && Text(Get(v.fields, From)) in ids && Text(Get(v.fields, To)) in ids
    && IsRequired(Get(v.fields, EdgeLabel), 512) && IsOptional(Get(v.fields, Condition), 2048)
    && (AttackerControlled in v.fields ==> v.fields[AttackerControlled].Bool?)
  }

  predicate ConformEdges(edges: seq<Value>, ids: set<string>) {
    edges == [] || (ConformEdges(edges[..|edges| - 1], ids) && ConformsEdge(edges[|edges| - 1], ids))
  }

  /** An edge counts when it joins two known nodes, whatever else is wrong with it. */
  predicate IsAccepted(v: Value, ids: set<string>) {
    v.Obj? && Text(Get(v.fields, From)) in ids && Text(Get(v.fields, To)) in ids
  }

  function AddEdge(g: Graph, v: Value, ids: set<string>): Graph {
    if !IsAccepted(v, ids) then g else
      var from := Text(Get(v.fields, From));
      g[from := Targets(g, from) + {Text(Get(v.fields, To))}]
  }

  function NoEdges(ids: set<string>): Graph {
    map id | id in ids :: {}
  }

  function GraphOf(edges: seq<Value>, ids: set<string>): Graph {
    if edges == [] then NoEdges(ids) else AddEdge(GraphOf(edges[..|edges| - 1], ids), edges[|edges| - 1], ids)
  }

  predicate Joins(v: Value, ids: set<string>, x: string, y: string) {
    IsAccepted(v, ids) && Text(Get(v.fields, From)) == x && Text(Get(v.fields, To)) == y
  }

  /** The graph has exactly the accepted edges. */
  lemma {:induction false} GraphHasAcceptedEdges(edges: seq<Value>, ids: set<string>, x: string, y: string)
    ensures y in Targets(GraphOf(edges, ids), x) <==> exists i :: 0 <= i < |edges| && Joins(edges[i], ids, x, y)
    ensures GraphOf(edges, ids).Keys == ids && StaysWithin(GraphOf(edges, ids), ids)
    decreases |edges|
  {
    if edges != [] {
      var most, n := edges[..|edges| - 1], |edges| - 1;
      GraphHasAcceptedEdges(most, ids, x, y);
      assert forall i :: 0 <= i < n ==> most[i] == edges[i];
      assert y in Targets(GraphOf(edges, ids), x) <==>
             y in Targets(GraphOf(most, ids), x) || Joins(edges[n], ids, x, y);
    }
  }

  function NodeList(data: Dict): seq<Value> {
    if Get(data, Nodes).Arr? then Get(data, Nodes).items else []
  }

  function EdgeList(data: Dict): seq<Value> {
    if Get(data, Edges).Arr? then Get(data, Edges).items else []
  }

  function SourcesOf(data: Dict): set<string> {
    IdsWith(NodeList(data), IsSource)
  }

  function SinksOf(data: Dict): set<string> {
    IdsWith(NodeList(data), IsSink)
  }

  ghost predicate HasPath(data: Dict) {
    exists x :: x in SinksOf(data) && IsReachable(GraphOf(EdgeList(data), IdsOf(NodeList(data))), SourcesOf(data), x)
  }

  predicate ConformsHeader(data: Dict, expected: string) {
    && Get(data, SchemaVersion) == Int(1)
    && IsRequired(Get(data, FindingId), 64) && (expected != "" ==> Text(Get(data, FindingId)) == expected)
    && IsRequired(Get(data, Title), 512) && IsRequired(Get(data, Trigger), 4096)
    && IsRequired(Get(data, EvidenceBasis), 4096)
  }

  predicate ConformsLists(data: Dict) {
    && Get(data, Nodes).Arr? && 0 < |NodeList(data)| <= MAX_NODES && ConformNodes(NodeList(data))
    && Get(data, Edges).Arr? && |EdgeList(data)| <= MAX_EDGES && ConformEdges(EdgeList(data), IdsOf(NodeList(data)))
  }

  ghost predicate IsWellFormed(v: Value, expected: string) {
    v.Obj? && ConformsHeader(v.fields, expected) && ConformsLists(v.fields) && HasPath(v.fields)
  }

  /** Testing an unhashable role for membership in a set raises, once the node has an id. */
  predicate Raises(v: Value) {
    IdOf(v) != "" && (RoleOf(v).Arr? || RoleOf(v).Obj?)
  }

  predicate RaisesAny(nodes: seq<Value>) {
    nodes != [] && (RaisesAny(nodes[..|nodes| - 1]) || Raises(nodes[|nodes| - 1]))
  }

  lemma {:induction false} StillRaises(nodes: seq<Value>, i: nat)
    requires i <= |nodes| && RaisesAny(nodes[..i])
    ensures RaisesAny(nodes)
    decreases |nodes|
  {
    if i < |nodes| {
      assert nodes[..|nodes| - 1][..i] == nodes[..i];
      StillRaises(nodes[..|nodes| - 1], i);
    } else {
      assert nodes[..i] == nodes;
    }
  }

  // ----- the validator ------------------------------------------------------------------------

  function When(bad: bool, problem: string): (r: seq<string>)
    ensures r == [] <==> !bad
  {
    if bad then [problem] else []
  }

  method ValidateParameters(v: Value) returns (errors: seq<string>)
    ensures errors == [] <==> ConformsParameters(v)
  {
    if !v.Arr? {
      return ["key_parameters must be an array"];
    }
    errors := When(|v.items| > MAX_PARAMETERS, "too many key_parameters");
    for i := 0 to |v.items|
      invariant errors == [] <==>
                |v.items| <= MAX_PARAMETERS && forall j :: 0 <= j < i ==> ConformsParameter(v.items[j])
    {
      errors := errors + When(!ConformsParameter(v.items[i]), "parameter");
    }
  }

  method ValidateNode(v: Value, seen: set<string>) returns (errors: seq<string>)
    ensures errors == [] <==> ConformsNode(v) && IdOf(v) !in seen
  {
    if !v.Obj? {
      return ["node must be an object"];
    }
    errors := When(!ConformsNodeTexts(v.fields), "node text");
    errors := errors + When(IdOf(v) in seen, "id must be unique");
    errors := errors + When(!IsRole(Get(v.fields, Role)), "role");
    var parameters := ValidateParameters(ParametersOf(v.fields));
    errors := errors + parameters;
  }

  method RecordNode(v: Value, ids0: set<string>, sources0: set<string>, sinks0: set<string>)
    returns (ids: set<string>, sources: set<string>, sinks: set<string>)
    ensures ids == ids0 + IdIf(v, Any) && sources == sources0 + IdIf(v, IsSource) && sinks == sinks0 + IdIf(v, IsSink)
  {
    ids, sources, sinks := ids0, sources0, sinks0;
    if IdOf(v) != "" {
      ids := ids + {IdOf(v)};
      if IsSource(RoleOf(v)) {
        sources := sources + {IdOf(v)};
      }
      if IsSink(RoleOf(v)) {
        sinks := sinks + {IdOf(v)};
      }
    }
  }

  method ValidateNodes(nodes: seq<Value>)
    returns (errors: seq<string>, ids: set<string>, sources: set<string>, sinks: set<string>, raised: bool)
    ensures raised <==> RaisesAny(nodes)
    ensures !raised ==> ids == IdsOf(nodes) && sources == IdsWith(nodes, IsSource) && sinks == IdsWith(nodes, IsSink)
    ensures !raised ==> (errors == [] <==> ConformNodes(nodes))
  {
    errors, ids, sources, sinks, raised := [], {}, {}, {}, false;
    for i := 0 to |nodes|
      invariant !RaisesAny(nodes[..i])
      invariant ids == IdsOf(nodes[..i])
      invariant sources == IdsWith(nodes[..i], IsSource) && sinks == IdsWith(nodes[..i], IsSink)
      invariant errors == [] <==> ConformNodes(nodes[..i])
    {
      var v := nodes[i];
      assert nodes[..i + 1][..i] == nodes[..i];
      if Raises(v) {
        StillRaises(nodes, i + 1);
        return errors, ids, sources, sinks, true;
      }
      var problems := ValidateNode(v, ids);
      errors := errors + problems;
      ids, sources, sinks := RecordNode(v, ids, sources, sinks);
    }
    assert nodes[..|nodes|] == nodes;
  }

  method ValidateEdges(edges: seq<Value>, ids: set<string>) returns (errors: seq<string>, adjacency: Graph)
    ensures adjacency == GraphOf(edges, ids)
    ensures errors == [] <==> ConformEdges(edges, ids)
  {
    errors, adjacency := [], NoEdges(ids);
    for i := 0 to |edges|
      invariant adjacency == GraphOf(edges[..i], ids)
      invariant errors == [] <==> ConformEdges(edges[..i], ids)
    {
      assert edges[..i + 1][..i] == edges[..i];
      adjacency := AddEdge(adjacency, edges[i], ids);
      errors := errors + When(!ConformsEdge(edges[i], ids), "edge");
    }
    assert edges[..|edges|] == edges;
  }

  datatype GraphError = NoSource | NoSink | NoPath

  /** The last checks: there are sources and sinks, and a path joins them. */
  method ValidatePaths(data: Dict, adjacency: Graph, ids: set<string>, sources: set<string>, sinks: set<string>)
    returns (errors: set<GraphError>)
    requires ids == IdsOf(NodeList(data)) && adjacency == GraphOf(EdgeList(data), ids)
    requires sources == SourcesOf(data) && sinks == SinksOf(data)
    ensures NoSource in errors <==> NodeList(data) != [] && sources == {}
    ensures NoSink in errors <==> NodeList(data) != [] && sinks == {}
    ensures NoPath in errors <==> sources != {} && sinks != {} && !HasPath(data)
  {
    errors := {};
    if NodeList(data) != [] && sources == {} {
      errors := errors + {NoSource};
    }
    if NodeList(data) != [] && sinks == {} {
      errors := errors + {NoSink};
    }
    if sources != {} && sinks != {} {
      IdsAreIds(NodeList(data), IsSource);
      GraphHasAcceptedEdges(EdgeList(data), ids, "", "");
      var reachable := Search(adjacency, ids, sources);
      if reachable !! sinks {
        errors := errors + {NoPath};
      }
    }
  }

  lemma {:induction false} IdsAreIds(nodes: seq<Value>, test: Value -> bool)
    ensures IdsWith(nodes, test) <= IdsOf(nodes)
    decreases |nodes|
  {
    if nodes != [] {
      IdsAreIds(nodes[..|nodes| - 1], test);
    }
  }

  /** A path has both ends. */
  lemma {:induction false} PathHasEnds(data: Dict)
    requires HasPath(data)
    ensures SourcesOf(data) != {} && SinksOf(data) != {}
  {
  }

  /** A document of one node with an id and a list as its role. */
  function ListAsRole(): Value {
    Obj(map[Nodes := Arr([Obj(map[Id := Str("A"), Role := Arr([])])])])
  }

  /** It is such a document that the validator raises on, see Validate. */
  lemma {:induction false} ListAsRoleRaises()
    ensures ListAsRole().Obj? && RaisesAny(NodeList(ListAsRole().fields))
  {
    var v := Obj(map[Id := Str("A"), Role := Arr([])]);
    assert Fences.Strip("A") == "A";
    assert IdOf(v) == "A" && RoleOf(v) == Arr([]);
    assert NodeList(ListAsRole().fields) == [v];
  }

  /**
    * The validator raises exactly for a node with an id and an unhashable role. Otherwise it reports
    * nothing exactly for well-formed graphs, and it reports a missing path exactly when there are sources
    * and sinks and no accepted edges lead from one to the other.
    */
  method Validate(data: Value, expected: string) returns (shape: seq<string>, graph: set<GraphError>, raised: bool)
    ensures raised <==> data.Obj? && RaisesAny(NodeList(data.fields))
    ensures !raised ==> (shape == [] && graph == {} <==> IsWellFormed(data, expected))
    ensures !raised ==>
              (NoPath in graph <==>
               data.Obj? && SourcesOf(data.fields) != {} && SinksOf(data.fields) != {} && !HasPath(data.fields))
  {
    if !data.Obj? {
      return ["trigger graph must be a JSON object"], {}, false;
    }
    shape, graph, raised := ValidateObject(data.fields, expected);
  }

  method ValidateObject(d: Dict, expected: string) returns (shape: seq<string>, graph: set<GraphError>, raised: bool)
    ensures raised <==> RaisesAny(NodeList(d))
    ensures !raised ==> (shape == [] <==> ConformsHeader(d, expected) && ConformsLists(d))
    ensures !raised && NodeList(d) != [] ==> (graph == {} <==> HasPath(d))
    ensures !raised ==> (NoPath in graph <==> SourcesOf(d) != {} && SinksOf(d) != {} && !HasPath(d))
  {
    shape := When(!ConformsHeader(d, expected), "header");
    shape := shape + When(NodeList(d) == [] || |NodeList(d)| > MAX_NODES, "nodes");
    var nodeErrors, ids, sources, sinks, failed := ValidateNodes(NodeList(d));
    if failed {
      return shape + nodeErrors, {}, true;
    }
    shape := shape + nodeErrors;
    shape := shape + When(!Get(d, Edges).Arr? || |EdgeList(d)| > MAX_EDGES, "edges");
    var edgeErrors, adjacency := ValidateEdges(EdgeList(d), ids);
    shape := shape + edgeErrors;
    graph := ValidatePaths(d, adjacency, ids, sources, sinks);
    raised := false;
    Verdict(d, graph);
  }

  lemma {:induction false} Verdict(d: Dict, graph: set<GraphError>)
    requires NoSource in graph <==> NodeList(d) != [] && SourcesOf(d) == {}
    requires NoSink in graph <==> NodeList(d) != [] && SinksOf(d) == {}
    requires NoPath in graph <==> SourcesOf(d) != {} && SinksOf(d) != {} && !HasPath(d)
    ensures NodeList(d) != [] ==> (graph == {} <==> HasPath(d))
  {
    if HasPath(d) {
      PathHasEnds(d);
    }
    assert graph == {} <==> NoSource !in graph && NoSink !in graph && NoPath !in graph by {
      forall e | e in graph
        ensures e == NoSource || e == NoSink || e == NoPath
      {
      }
    }
  }

  // ----- what acceptance means ----------------------------------------------------------------

  /** Every node has an id that no node before it has. */
  predicate HaveNewIds(nodes: seq<Value>) {
    nodes == [] ||
    var most, v := nodes[..|nodes| - 1], nodes[|nodes| - 1];
    HaveNewIds(most) && IdOf(v) != "" && IdOf(v) !in IdsOf(most)
  }

  lemma {:induction false} ConformingHasId(v: Value)
    requires ConformsNode(v)
    ensures IdOf(v) != ""
  {
  }

  lemma {:induction false} ConformingHaveNewIds(nodes: seq<Value>)
    requires ConformNodes(nodes)
    ensures HaveNewIds(nodes)
    decreases |nodes|
  {
    if nodes != [] {
      ConformingHaveNewIds(nodes[..|nodes| - 1]);
      ConformingHasId(nodes[|nodes| - 1]);
    }
  }

  lemma {:induction false} LaterNodesDiffer(nodes: seq<Value>, i: nat, j: nat)
    requires HaveNewIds(nodes) && i < j < |nodes|
    ensures IdOf(nodes[i]) != IdOf(nodes[j])
    decreases |nodes|
  {
    var n := |nodes| - 1;
    if j < n {
      LaterNodesDiffer(nodes[..n], i, j);
    } else {
      NodeIsIn(nodes[..n], i);
    }
  }

  lemma {:induction false} NodeIsIn(nodes: seq<Value>, i: nat)
    requires HaveNewIds(nodes) && i < |nodes|
    ensures IdOf(nodes[i]) in IdsOf(nodes)
    decreases |nodes|
  {
    var n := |nodes| - 1;
    if i < n {
      NodeIsIn(nodes[..n], i);
    }
  }

  lemma {:induction false} EdgeAt(edges: seq<Value>, ids: set<string>, i: nat)
    requires ConformEdges(edges, ids) && i < |edges|
    ensures IsAccepted(edges[i], ids)
    decreases |edges|
  {
    if i < |edges| - 1 {
      EdgeAt(edges[..|edges| - 1], ids, i);
    }
  }

  // ----- what a path is -----------------------------------------------------------------------

  const SOURCE_ROLES := {"trigger", "source", "source-and-sink"}
  const SINK_ROLES := {"sink", "source-and-sink"}

  predicate IsNodeAt(nodes: seq<Value>, i: nat, id: string) {
    i < |nodes| && nodes[i].Obj? && Text(Get(nodes[i].fields, Id)) == id && id != ""
  }

  predicate HasRoleAt(nodes: seq<Value>, i: nat, roles: set<string>)
    requires i < |nodes| && nodes[i].Obj?
  {
    Get(nodes[i].fields, Role).Str? && Get(nodes[i].fields, Role).s in roles
  }

  /** A node of the document has the id, and one of the roles. */
  predicate IsNodeWith(nodes: seq<Value>, id: string, roles: set<string>) {
    exists i :: 0 <= i < |nodes| && IsNodeAt(nodes, i, id) && HasRoleAt(nodes, i, roles)
  }

  predicate IsNode(nodes: seq<Value>, id: string) {
    exists i :: 0 <= i < |nodes| && IsNodeAt(nodes, i, id)
  }

  predicate JoinsAt(edges: seq<Value>, i: nat, x: string, y: string) {
    i < |edges| && edges[i].Obj? && Text(Get(edges[i].fields, From)) == x && Text(Get(edges[i].fields, To)) == y
  }

  predicate AreJoined(edges: seq<Value>, x: string, y: string) {
    exists i :: 0 <= i < |edges| && JoinsAt(edges, i, x, y)
  }

  /** A walk through the nodes along the edges of the document, from a source to a sink. */
  predicate IsWalk(data: Dict, p: seq<string>) {
    && p != []
    && IsNodeWith(NodeList(data), p[0], SOURCE_ROLES) && IsNodeWith(NodeList(data), p[|p| - 1], SINK_ROLES)
    && forall k :: 0 < k < |p| ==> IsStep(data, p, k)
  }

  predicate IsStep(data: Dict, p: seq<string>, k: int)
    requires 0 < k < |p|
  {
    && AreJoined(EdgeList(data), p[k - 1], p[k])
    && IsNode(NodeList(data), p[k - 1]) && IsNode(NodeList(data), p[k])
  }

  lemma {:induction false} IdsPass(nodes: seq<Value>, test: Value -> bool, id: string)
    ensures id in IdsWith(nodes, test) <==>
            exists i :: 0 <= i < |nodes| && IsNodeAt(nodes, i, id) && test(RoleOf(nodes[i]))
    decreases |nodes|
  {
    if nodes != [] {
      var n := |nodes| - 1;
      IdsPass(nodes[..n], test, id);
      assert forall i: nat :: i < n ==> (IsNodeAt(nodes[..n], i, id) <==> IsNodeAt(nodes, i, id));
      assert id in IdIf(nodes[n], test) <==> IsNodeAt(nodes, n, id) && test(RoleOf(nodes[n]));
    }
  }

  lemma {:induction false} RolesAreTexts(v: Value)
    ensures IsSource(v) <==> v.Str? && v.s in SOURCE_ROLES
    ensures IsSink(v) <==> v.Str? && v.s in SINK_ROLES
  {
  }

  lemma {:induction false} SourcesHaveRoles(data: Dict, id: string)
    ensures id in SourcesOf(data) <==> IsNodeWith(NodeList(data), id, SOURCE_ROLES)
  {
    var nodes := NodeList(data);
    IdsPass(nodes, IsSource, id);
    forall i: nat | IsNodeAt(nodes, i, id)
      ensures IsSource(RoleOf(nodes[i])) <==> HasRoleAt(nodes, i, SOURCE_ROLES)
    {
      RolesAreTexts(RoleOf(nodes[i]));
    }
  }

  lemma {:induction false} SinksHaveRoles(data: Dict, id: string)
    ensures id in SinksOf(data) <==> IsNodeWith(NodeList(data), id, SINK_ROLES)
  {
    var nodes := NodeList(data);
    IdsPass(nodes, IsSink, id);
    forall i: nat | IsNodeAt(nodes, i, id)
      ensures IsSink(RoleOf(nodes[i])) <==> HasRoleAt(nodes, i, SINK_ROLES)
    {
      RolesAreTexts(RoleOf(nodes[i]));
    }
  }

  lemma {:induction false} IdsAreNodes(data: Dict, id: string)
    ensures id in IdsOf(NodeList(data)) <==> IsNode(NodeList(data), id)
  {
    IdsPass(NodeList(data), Any, id);
  }

  lemma {:induction false} EdgeIsStep(data: Dict, p: seq<string>, k: int)
    requires 0 < k < |p|
    ensures IsEdgeAt(GraphOf(EdgeList(data), IdsOf(NodeList(data))), p, k) <==> IsStep(data, p, k)
  {
    var edges, ids := EdgeList(data), IdsOf(NodeList(data));
    GraphHasAcceptedEdges(edges, ids, p[k - 1], p[k]);
    IdsAreNodes(data, p[k - 1]);
    IdsAreNodes(data, p[k]);
    assert forall i: nat :: i < |edges| ==>
        (Joins(edges[i], ids, p[k - 1], p[k]) <==> JoinsAt(edges, i, p[k - 1], p[k]) && p[k - 1] in ids && p[k] in ids);
  }

  lemma {:induction false} WalksArePaths(data: Dict, p: seq<string>)
    ensures IsWalk(data, p) <==>
            IsPath(GraphOf(EdgeList(data), IdsOf(NodeList(data))), SourcesOf(data), p) && p[|p| - 1] in SinksOf(data)
  {
    if p != [] {
      SourcesHaveRoles(data, p[0]);
      SinksHaveRoles(data, p[|p| - 1]);
      forall k | 0 < k < |p|
        ensures IsEdgeAt(GraphOf(EdgeList(data), IdsOf(NodeList(data))), p, k) <==> IsStep(data, p, k)
      {
        EdgeIsStep(data, p, k);
      }
    }
  }

  /** The graph passes the last check exactly when there is a walk from a source to a sink. */
  lemma {:induction false} PathIsWalk(data: Dict)
    ensures HasPath(data) <==> exists p :: IsWalk(data, p)
  {
    var g, sources := GraphOf(EdgeList(data), IdsOf(NodeList(data))), SourcesOf(data);
    if HasPath(data) {
      var x :| x in SinksOf(data) && IsReachable(g, sources, x);
      var p :| IsPath(g, sources, p) && p[|p| - 1] == x;
      WalksArePaths(data, p);
    }
    if p :| IsWalk(data, p) {
      WalksArePaths(data, p);
      assert IsReachable(g, sources, p[|p| - 1]);
    }
  }

  /** An accepted graph has unique ids, edges between its nodes, and a walk from a source to a sink. */
  lemma {:induction false} AcceptedGraphs(v: Value, expected: string)
    requires IsWellFormed(v, expected)
    ensures var nodes, edges := NodeList(v.fields), EdgeList(v.fields);
            && (forall i, j :: 0 <= i < j < |nodes| ==> IdOf(nodes[i]) != IdOf(nodes[j]))
            && (forall i :: 0 <= i < |edges| ==> IsAccepted(edges[i], IdsOf(nodes)))
            && exists p :: IsWalk(v.fields, p)
  {
    var nodes, edges := NodeList(v.fields), EdgeList(v.fields);
    ConformingHaveNewIds(nodes);
    forall i, j | 0 <= i < j < |nodes|
      ensures IdOf(nodes[i]) != IdOf(nodes[j])
    {
      LaterNodesDiffer(nodes, i, j);
    }
    forall i | 0 <= i < |edges|
      ensures IsAccepted(edges[i], IdsOf(nodes))
    {
      EdgeAt(edges, IdsOf(nodes), i);
    }
    PathIsWalk(v.fields);
  }
}
