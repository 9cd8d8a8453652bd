/**
  Validation of generated user-interface documents: a recursive check of a JSON tree
  that threads a component budget through a pointer.
 */
module UiSchema {
  import opened Wrappers
  import opened Strings

  datatype JSON = JNull | JBool(b: bool) | JNumber(n: real) | JString(s: string) | JArray(items: seq<JSON>)
                | JObject(fields: map<string, JSON>)

  type Fields = map<string, JSON>

  datatype UIError = InvalidDocument | TooDeep | TooMany | UnknownComponent | TooLarge

  const MAX_DEPTH: nat := 8
  const MAX_COMPONENTS: nat := 100
  const MAX_CHILDREN: nat := 50
  const MAX_PROPS_SIZE: nat := 65536
  const UI_VERSION := "runspace.ui/v1"

  const COMPONENTS: seq<string> := [
    "Markdown", "CodeReference", "DiffViewer", "TaskCard", "TestReport", "Timeline",
    "DataTable", "MetricGroup", "ApprovalRequest", "D3Artifact"]

  /** The number of bytes of a string in UTF-8, which is what Go's `len` counts. */
  function ByteLength(s: string): nat {
    if s == "" then 0
    else ByteLength(s[1..]) +
         if s[0] < '\U{80}' then 1 else if s[0] < '\U{800}' then 2 else if s[0] < '\U{10000}' then 3 else 4
  }

  // ------------------------------------------------------------ component props

  predicate TextOk(props: Fields, key: string, limit: nat) {
    key in props && props[key].JString? && Trim(props[key].s) != "" && ByteLength(props[key].s) <= limit
  }

  predicate ArrayOk(props: Fields, key: string, limit: nat) {
    key in props && props[key].JArray? && |props[key].items| <= limit
  }

  datatype Demand =
    | Text(key: string, limit: nat)
    | Items(key: string, limit: nat)
    | Exactly(key: string, value: string)

  /** What each component demands, property by property. */
  function Demands(component: string): seq<Demand> {
    match component
    case "Markdown" => [Text("content", 20000)]
    case "CodeReference" => [Text("resource", 500), Text("path", 500)]
    case "DiffViewer" => [Text("resource", 500)]
    case "TestReport" => [Text("resource", 500)]
    case "TaskCard" => [Text("title", 500), Text("status", 500)]
    case "Timeline" => [Items("items", 50)]
    case "MetricGroup" => [Items("items", 12)]
    case "DataTable" => [Items("columns", 12), Items("rows", 100)]
    case "ApprovalRequest" => [Text("title", 500), Text("operation", 500), Text("resource", 500)]
    case "D3Artifact" =>
      [Text("kind", 80), Exactly("kind", "dependency_graph"), Items("nodes", 100), Items("edges", 200)]
    case _ => []
  }

  predicate Meets(props: Fields, d: Demand) {
    match d
    case Text(key, limit) => TextOk(props, key, limit)
    case Items(key, limit) => ArrayOk(props, key, limit)
    case Exactly(key, value) => key in props && props[key] == JString(value)
  }

  predicate MeetsAll(props: Fields, demands: seq<Demand>) {
    forall i :: 0 <= i < |demands| ==> Meets(props, demands[i])
  }

  /** A registered component whose demands are all met. */
  predicate ShapeOk(component: string, props: Fields) {
    component in COMPONENTS && MeetsAll(props, Demands(component))
  }

  lemma IsRegistered(name: string)
    ensures name in COMPONENTS <==>
              || name == "Markdown" || name == "CodeReference" || name == "DiffViewer" || name == "TaskCard"
              || name == "TestReport" || name == "Timeline" || name == "DataTable" || name == "MetricGroup"
              || name == "ApprovalRequest" || name == "D3Artifact"
  {
    assert COMPONENTS[0] == "Markdown" && COMPONENTS[1] == "CodeReference" && COMPONENTS[2] == "DiffViewer";
    assert COMPONENTS[3] == "TaskCard" && COMPONENTS[4] == "TestReport" && COMPONENTS[5] == "Timeline";
    assert COMPONENTS[6] == "DataTable" && COMPONENTS[7] == "MetricGroup" && COMPONENTS[8] == "ApprovalRequest";
    assert COMPONENTS[9] == "D3Artifact";
  }

  lemma MeetsOne(props: Fields, d: Demand)
    ensures MeetsAll(props, [d]) <==> Meets(props, d)
  {
    assert [d][0] == d;
  }

  lemma MeetsTwo(props: Fields, d: Demand, e: Demand)
    ensures MeetsAll(props, [d, e]) <==> Meets(props, d) && Meets(props, e)
  {
    assert [d, e][0] == d && [d, e][1] == e;
  }

  lemma MeetsThree(props: Fields, d: Demand, e: Demand, f: Demand)
    ensures MeetsAll(props, [d, e, f]) <==> Meets(props, d) && Meets(props, e) && Meets(props, f)
  {
    assert [d, e, f][0] == d && [d, e, f][1] == e && [d, e, f][2] == f;
  }

  lemma MeetsFour(props: Fields, d: Demand, e: Demand, f: Demand, g: Demand)
    ensures MeetsAll(props, [d, e, f, g]) <==> Meets(props, d) && Meets(props, e) && Meets(props, f) && Meets(props, g)
  {
    assert [d, e, f, g][0] == d && [d, e, f, g][1] == e && [d, e, f, g][2] == f && [d, e, f, g][3] == g;
  }

  predicate GraphOk(props: Fields) {
    && TextOk(props, "kind", 80) && props["kind"] == JString("dependency_graph")
    && ArrayOk(props, "nodes", 100) && ArrayOk(props, "edges", 200)
  }

  lemma MeetsGraph(props: Fields)
    ensures MeetsAll(props, Demands("D3Artifact")) <==> GraphOk(props)
  {
    var kind, exact := Text("kind", 80), Exactly("kind", "dependency_graph");
    var nodes, edges := Items("nodes", 100), Items("edges", 200);
    MeetsFour(props, kind, exact, nodes, edges);
    assert Demands("D3Artifact") == [kind, exact, nodes, edges];
  }

  method RequireText(props: Fields, key: string, limit: nat) returns (error: Option<UIError>)
    ensures error == if TextOk(props, key, limit) then None else Some(InvalidDocument)
  {
    if key !in props || !props[key].JString? || Trim(props[key].s) == "" || ByteLength(props[key].s) > limit {
      return Some(InvalidDocument);
    }
    return None;
  }

  method RequireTexts(props: Fields, keys: seq<string>, limit: nat) returns (error: Option<UIError>)
    ensures error == if forall i :: 0 <= i < |keys| ==> TextOk(props, keys[i], limit) then None
                     else Some(InvalidDocument)
  {
    for i := 0 to |keys|
      invariant forall j :: 0 <= j < i ==> TextOk(props, keys[j], limit)
    {
      error := RequireText(props, keys[i], limit);
      if error.Some? {
        return error;
      }
    }
    return None;
  }

  method BoundedArray(props: Fields, key: string, limit: nat) returns (error: Option<UIError>)
    ensures error == if ArrayOk(props, key, limit) then None else Some(InvalidDocument)
  {
    if key !in props || !props[key].JArray? || |props[key].items| > limit {
      return Some(InvalidDocument);
    }
    return None;
  }

  method KnownUIComponent(name: string) returns (known: bool)
    ensures known <==> name in COMPONENTS
  {
    for i := 0 to |COMPONENTS|
      invariant forall j :: 0 <= j < i ==> COMPONENTS[j] != name
    {
      if COMPONENTS[i] == name {
        return true;
      }
    }
    return false;
  }

  /** `size` is the length of the properties' JSON encoding. */
  method ValidateProps(component: string, props: Fields, size: Fields -> nat) returns (error: Option<UIError>)
    ensures error.None? <==> size(props) <= MAX_PROPS_SIZE && ShapeOk(component, props)
    ensures error.Some? ==> error == Some(if size(props) > MAX_PROPS_SIZE then TooLarge else InvalidDocument)
  {
    if size(props) > MAX_PROPS_SIZE {
      return Some(TooLarge);
    }
    error := ValidateShape(component, props);
  }

  /** The branches of the validator: components made of texts first. */
  method ValidateShape(component: string, props: Fields) returns (error: Option<UIError>)
    ensures error == if ShapeOk(component, props) then None else Some(InvalidDocument)
  {
    IsRegistered(component);
    if component == "Markdown" {
      MeetsOne(props, Text("content", 20000));
      error := RequireText(props, "content", 20000);
    } else if component == "CodeReference" {
      MeetsTwo(props, Text("resource", 500), Text("path", 500));
      error := RequireTwo(props, "resource", "path");
    } else if component == "DiffViewer" || component == "TestReport" {
      MeetsOne(props, Text("resource", 500));
      error := RequireText(props, "resource", 500);
    } else if component == "TaskCard" {
      MeetsTwo(props, Text("title", 500), Text("status", 500));
      error := RequireTwo(props, "title", "status");
    } else if component == "ApprovalRequest" {
      MeetsThree(props, Text("title", 500), Text("operation", 500), Text("resource", 500));
      error := RequireThree(props, "title", "operation", "resource");
    } else {
      error := ValidateCollections(component, props);
    }
  }

  /** The branches for components that hold arrays, and the default one. */
  method ValidateCollections(component: string, props: Fields) returns (error: Option<UIError>)
    requires component !in ["Markdown", "CodeReference", "DiffViewer", "TestReport", "TaskCard", "ApprovalRequest"]
    ensures error == if ShapeOk(component, props) then None else Some(InvalidDocument)
  {
    IsRegistered(component);
    if component == "Timeline" {
      MeetsOne(props, Items("items", 50));
      error := BoundedArray(props, "items", 50);
    } else if component == "MetricGroup" {
      MeetsOne(props, Items("items", 12));
      error := BoundedArray(props, "items", 12);
    } else if component == "DataTable" {
      MeetsTwo(props, Items("columns", 12), Items("rows", 100));
      error := ValidateTable(props);
    } else if component == "D3Artifact" {
      MeetsGraph(props);
      error := ValidateGraph(props);
    } else {
      assert component !in COMPONENTS;
      return Some(InvalidDocument);
    }
  }

  method RequireTwo(props: Fields, first: string, second: string) returns (error: Option<UIError>)
    ensures error == if TextOk(props, first, 500) && TextOk(props, second, 500) then None else Some(InvalidDocument)
  {
    var keys := [first, second];
    error := RequireTexts(props, keys, 500);
    assert keys[0] == first && keys[1] == second;
  }

  method RequireThree(props: Fields, first: string, second: string, third: string) returns (error: Option<UIError>)
    ensures error == if TextOk(props, first, 500) && TextOk(props, second, 500) && TextOk(props, third, 500) then None
                     else Some(InvalidDocument)
  {
    var keys := [first, second, third];
    error := RequireTexts(props, keys, 500);
    assert keys[0] == first && keys[1] == second && keys[2] == third;
  }

  method ValidateTable(props: Fields) returns (error: Option<UIError>)
    ensures error == if ArrayOk(props, "columns", 12) && ArrayOk(props, "rows", 100) then None
                     else Some(InvalidDocument)
  {
    error := BoundedArray(props, "columns", 12);
    if error.Some? {
      return error;
    }
    error := BoundedArray(props, "rows", 100);
  }

  method ValidateGraph(props: Fields) returns (error: Option<UIError>)
    ensures error == if GraphOk(props) then None else Some(InvalidDocument)
  {
    error := RequireText(props, "kind", 80);
    if error.Some? {
      return error;
    }
    if props["kind"] != JString("dependency_graph") {
      return Some(InvalidDocument);
    }
    error := BoundedArray(props, "nodes", 100);
    if error.Some? {
      return error;
    }
    error := BoundedArray(props, "edges", 200);
  }

  // ------------------------------------------------- what a document looks like

  function NodeType(node: Fields): string {
    if "type" in node && node["type"].JString? then node["type"].s else ""
  }

  predicate IsLayout(node: Fields) {
    NodeType(node) == "Stack" || NodeType(node) == "Grid"
  }

  /** The children of a layout; nothing else has any. */
  function Children(node: Fields): (items: seq<JSON>)
    ensures items != [] ==> "children" in node && node["children"] == JArray(items)
  {
    if IsLayout(node) && "children" in node && node["children"].JArray? then node["children"].items else []
  }

  /** How many nodes a document has. */
  function Nodes(j: JSON): nat
    decreases j, 0
  {
    if !j.JObject? then 0 else if Children(j.fields) == [] then 1 else 1 + NodesOf(Children(j.fields))
  }

  function NodesOf(items: seq<JSON>): nat
    decreases items, 1
  {
    if items == [] then 0 else Nodes(items[0]) + NodesOf(items[1..])
  }

  /** How deep the deepest node lies below the given one. */
  function Height(j: JSON): nat
    decreases j, 0
  {
    if !j.JObject? || Children(j.fields) == [] then 0 else HeightOf(Children(j.fields))
  }

  function HeightOf(items: seq<JSON>): nat
    decreases items, 1
  {
    if items == [] then 0
    else var first, rest := (if items[0].JObject? then 1 + Height(items[0]) else 0), HeightOf(items[1..]);
         if first > rest then first else rest
  }

  /** Layouts have 1 to 50 children, all objects; every leaf is a known component with valid properties. */
  predicate WellShaped(j: JSON, size: Fields -> nat)
    decreases j, 0
  {
    j.JObject? &&
    var node := j.fields;
    if IsLayout(node) then
      1 <= |Children(node)| <= MAX_CHILDREN && AllShaped(Children(node), size)
    else
      && "props" in node && node["props"].JObject? && NodeType(node) in COMPONENTS
      && size(node["props"].fields) <= MAX_PROPS_SIZE && ShapeOk(NodeType(node), node["props"].fields)
  }

  predicate AllShaped(items: seq<JSON>, size: Fields -> nat)
    decreases items, 1
  {
    items == [] || (WellShaped(items[0], size) && AllShaped(items[1..], size))
  }

  lemma ChildIsSmaller(node: Fields, items: seq<JSON>, i: nat)
    requires items == Children(node) && i < |items|
    ensures items[i] < JObject(node)
  {
    assert node["children"] < JObject(node);
  }

  /**
    The recursive check. From depth `depth` and budget `budget` it succeeds exactly on the
    well-shaped documents within both limits, and each error is justified. `calls` counts
    the calls made, this one included.
   */
  method ValidateNode(node: Fields, depth: nat, budget: nat, size: Fields -> nat)
    returns (error: Option<UIError>, used: nat, ghost calls: nat)
    requires budget <= MAX_COMPONENTS
    ensures error.None? <==> && WellShaped(JObject(node), size)
                             && depth + Height(JObject(node)) <= MAX_DEPTH
                             && budget + Nodes(JObject(node)) <= MAX_COMPONENTS
    ensures error.None? ==> used == budget + Nodes(JObject(node))
    ensures error == Some(TooDeep) ==> depth + Height(JObject(node)) > MAX_DEPTH
    ensures error == Some(TooMany) ==> budget + Nodes(JObject(node)) > MAX_COMPONENTS
    ensures error.Some? && error != Some(TooDeep) && error != Some(TooMany) ==> !WellShaped(JObject(node), size)
    ensures budget <= used <= MAX_COMPONENTS + 1 && (used == MAX_COMPONENTS + 1 ==> error == Some(TooMany))
    ensures calls <= used - budget + if error == Some(TooDeep) then 1 else 0
    decreases JObject(node), 1
  {
    used, calls := budget, 1;
    if depth > MAX_DEPTH {
      return Some(TooDeep), used, calls;
    }
    used := used + 1;
    if used > MAX_COMPONENTS {
      return Some(TooMany), used, calls;
    }
    if IsLayout(node) {
      if "children" !in node || !node["children"].JArray? || |node["children"].items| == 0
         || |node["children"].items| > MAX_CHILDREN {
        return Some(InvalidDocument), used, calls;
      }
      error, used, calls := ValidateChildren(node, depth, used, size);
      return error, used, calls + 1;
    }
    if "props" !in node || !node["props"].JObject? {
      return Some(UnknownComponent), used, calls;
    }
    var known := KnownUIComponent(NodeType(node));
    if !known {
      return Some(UnknownComponent), used, calls;
    }
    error := ValidateProps(NodeType(node), node["props"].fields, size);
  }

  /** The loop over the children of a layout, which all share the budget. */
  method ValidateChildren(node: Fields, depth: nat, budget: nat, size: Fields -> nat)
    returns (error: Option<UIError>, used: nat, ghost calls: nat)
    requires depth <= MAX_DEPTH && budget <= MAX_COMPONENTS && Children(node) != []
    ensures error.None? <==> && AllShaped(Children(node), size)
                             && depth + HeightOf(Children(node)) <= MAX_DEPTH
                             && budget + NodesOf(Children(node)) <= MAX_COMPONENTS
    ensures error.None? ==> used == budget + NodesOf(Children(node))
    ensures error == Some(TooDeep) ==> depth + HeightOf(Children(node)) > MAX_DEPTH
    ensures error == Some(TooMany) ==> budget + NodesOf(Children(node)) > MAX_COMPONENTS
    ensures error.Some? && error != Some(TooDeep) && error != Some(TooMany) ==> !AllShaped(Children(node), size)
    ensures budget <= used <= MAX_COMPONENTS + 1 && (used == MAX_COMPONENTS + 1 ==> error == Some(TooMany))
    ensures calls <= used - budget + if error == Some(TooDeep) then 1 else 0
    decreases JObject(node), 0
  {
    var children := node["children"].items;
    used, calls := budget, 0;
    for i := 0 to |children|
      invariant budget <= used <= MAX_COMPONENTS && calls <= used - budget
      invariant AllShaped(children, size) <==> AllShaped(children[i..], size)
      invariant used + NodesOf(children[i..]) == budget + NodesOf(children)
      invariant depth + HeightOf(children) <= MAX_DEPTH <==> depth + HeightOf(children[i..]) <= MAX_DEPTH
    {
      assert children[i..][0] == children[i] && children[i..][1..] == children[i + 1..];
      if !children[i].JObject? {
        return Some(InvalidDocument), used, calls;
      }
      ChildIsSmaller(node, children, i);
      var more, spent: nat;
      ghost var below: nat;
      more, spent, below := ValidateNode(children[i].fields, depth + 1, used, size);
      assert children[i] == JObject(children[i].fields);
      used, calls := spent, calls + below;
      if more.Some? {
        return more, used, calls;
      }
    }
    assert children[|children|..] == [];
    return None, used, calls;
  }

  datatype UIDocument = UIDocument(version: string, title: string, layout: Option<Fields>)

  /**
    A document is accepted if and only if its header is right and its tree has at most 100
    nodes, none deeper than 8, all well shaped; and however large the document is, at most
    101 calls are made.
   */
  method ValidateDocument(d: UIDocument, size: Fields -> nat) returns (error: Option<UIError>, ghost calls: nat)
    ensures error.None? <==>
              && d.version == UI_VERSION && Trim(d.title) != "" && ByteLength(d.title) <= 160 && d.layout.Some?
              && WellShaped(JObject(d.layout.value), size)
              && Height(JObject(d.layout.value)) <= MAX_DEPTH
              && Nodes(JObject(d.layout.value)) <= MAX_COMPONENTS
    ensures calls <= MAX_COMPONENTS + 1
  {
    if d.version != UI_VERSION || Trim(d.title) == "" || ByteLength(d.title) > 160 || d.layout.None? {
      return Some(InvalidDocument), 0;
    }
    var used: nat;
    error, used, calls := ValidateNode(d.layout.value, 0, 0, size);
  }

  /** Bytes are at least the characters and at most four times as many, and as many exactly in ASCII. */
  lemma {:induction false} ByteLengthBounds(s: string)
    ensures |s| <= ByteLength(s) <= 4 * |s|
    ensures ByteLength(s) == |s| <==> forall i :: 0 <= i < |s| ==> s[i] < '\U{80}'
  {
    if s != "" {
      ByteLengthBounds(s[1..]);
      if forall i :: 0 <= i < |s| ==> s[i] < '\U{80}' {
        assert forall i :: 0 <= i < |s[1..]| ==> s[1..][i] == s[i + 1];
      } else if s[0] < '\U{80}' {
        var i :| 0 <= i < |s| && s[i] >= '\U{80}';
        assert s[1..][i - 1] == s[i];
      }
    }
  }
}
