/** Rewriting JSON schemas for OpenAI's strict mode (model/openai/responses.go). */
module StrictSchema {
  import opened Events
  import opened SortedNames

  /** Values of a schema, by their type in the program: only arrays of type List are visited. */
  datatype Value =
    | Map(fields: Node)
    | List(items: seq<Value>)
    | TypedList(nodes: seq<Node>)
    | Names(names: seq<string>)
    | Text(text: string)
    | Flag(flag: bool)
    | Scalar(literal: string)

  type Node = map<string, Value>

  // ----- The rewriting -----

  predicate Combinator(key: string) { key == "anyOf" || key == "oneOf" || key == "allOf" }

  predicate Reference(n: Node) { "$ref" in n }

  predicate Describes(n: Node) { "properties" in n && n["properties"].Map? }

  predicate Typed(n: Node) { "type" in n && n["type"] == Text("object") }

  predicate ObjectNode(n: Node) { Typed(n) || (Describes(n) && n["properties"].fields != map[]) }

  /** A value in the place of a schema. */
  ghost function StrictIn(v: Value): Value
    decreases v, 2
  {
    if v.Map? then Strict(v) else v
  }

  ghost function StrictEntries(v: Value): Value
    requires v.Map?
    decreases v, 0
  {
    Map(map k | k in v.fields :: StrictIn(v.fields[k]))
  }

  ghost function StrictItems(v: Value): Value
    requires v.List?
    decreases v, 0
  {
    List(seq(|v.items|, i requires 0 <= i < |v.items| => StrictIn(v.items[i])))
  }

  ghost function StrictField(v: Value, key: string): Value
    requires v.Map? && key in v.fields
    decreases v, 0
  {
    var x := v.fields[key];
    if (key == "$defs" || key == "properties") && x.Map? then StrictEntries(x)
    else if Combinator(key) && x.List? then StrictItems(x)
    else if key == "items" then StrictIn(x)
    else x
  }

  ghost function Marked(n: Node, m: Node): Node {
    var closed := if ObjectNode(n) then m["additionalProperties" := Flag(false)] else m;
    if ObjectNode(n) && Describes(n) then closed["required" := Names(Sorted(n["properties"].fields.Keys))] else closed
  }

  /** A schema after the rewriting. */
  ghost function Strict(v: Value): Value
    requires v.Map?
    decreases v, 1
  {
    if Reference(v.fields) then Map(map["$ref" := v.fields["$ref"]])
    else Map(Marked(v.fields, map k | k in v.fields :: StrictField(v, k)))
  }

  /** What strict mode asks of one schema. */
  ghost predicate Compliant(n: Node) {
    if Reference(n) then n.Keys == {"$ref"}
    else
      ObjectNode(n) ==>
        && "additionalProperties" in n && n["additionalProperties"] == Flag(false)
        && (Describes(n) ==>
              && "required" in n && n["required"].Names?
              && IsSorted(n["required"].names, n["properties"].fields.Keys))
  }

  // ----- Where schemas occur inside a schema -----

  datatype Hop = Definition(name: string) | Property(name: string) | Alternative(key: string, index: nat) | Item

  function MapIn(v: Value): Option<Value> { if v.Map? then Some(v) else None }

  function EntryIn(n: Node, key: string, name: string): Option<Value> {
    if key in n && n[key].Map? && name in n[key].fields then MapIn(n[key].fields[name]) else None
  }

  /** The schema one hop away: references lead nowhere, and both kinds of array hold alternatives. */
  function Child(n: Node, h: Hop): Option<Value> {
    if Reference(n) then None
    else match h
      case Definition(name) => EntryIn(n, "$defs", name)
      case Property(name) => EntryIn(n, "properties", name)
      case Item => if "items" in n then MapIn(n["items"]) else None
      case Alternative(key, i) =>
        if key !in ["anyOf", "oneOf", "allOf"] || key !in n then None
        else if n[key].List? && i < |n[key].items| then MapIn(n[key].items[i])
        else if n[key].TypedList? && i < |n[key].nodes| then Some(Map(n[key].nodes[i]))
        else None
  }

  predicate ThroughTypedList(n: Node, h: Hop) { h.Alternative? && h.key in n && n[h.key].TypedList? }

  function Descend(v: Value, path: seq<Hop>): Option<Value>
    requires v.Map?
    ensures Descend(v, path).Some? ==> Descend(v, path).value.Map?
    decreases path
  {
    if path == [] then Some(v)
    else
      var w := Child(v.fields, path[0]);
      if w.None? then None else Descend(w.value, path[1..])
  }

  /** The path leads through an array the rewriting does not visit. */
  predicate Unvisited(v: Value, path: seq<Hop>)
    requires v.Map?
    decreases path
  {
    path != [] && Child(v.fields, path[0]).Some? &&
    (ThroughTypedList(v.fields, path[0]) || Unvisited(Child(v.fields, path[0]).value, path[1..]))
  }

  ghost function StrictAt(v: Option<Value>): Option<Value>
    requires v.Some? ==> v.value.Map?
  {
    if v.Some? then Some(Strict(v.value)) else None
  }

  /** Only the two keys it sets are not rewritten in place. */
  lemma FieldRewritten(v: Value, key: string)
    requires v.Map? && !Reference(v.fields) && key != "additionalProperties" && key != "required"
    ensures key in Strict(v).fields <==> key in v.fields
    ensures key in v.fields ==> Strict(v).fields[key] == StrictField(v, key)
  {
  }

  lemma EntryIsRewritten(v: Value, key: string, name: string)
    requires v.Map? && !Reference(v.fields) && (key == "$defs" || key == "properties")
    ensures EntryIn(Strict(v).fields, key, name) == StrictAt(EntryIn(v.fields, key, name))
  {
    FieldRewritten(v, key);
    if key in v.fields && v.fields[key].Map? {
      assert StrictField(v, key) == StrictEntries(v.fields[key]);
      assert name in v.fields[key].fields ==> StrictEntries(v.fields[key]).fields[name] == StrictIn(v.fields[key].fields[name]);
    }
  }

  lemma ChildIsRewritten(v: Value, h: Hop)
    requires v.Map?
    ensures
      var c := Child(v.fields, h);
      Child(Strict(v).fields, h) == if ThroughTypedList(v.fields, h) then c else StrictAt(c)
    ensures Child(v.fields, h).Some? ==> ThroughTypedList(Strict(v).fields, h) == ThroughTypedList(v.fields, h)
  {
    if !Reference(v.fields) {
      var n := Strict(v).fields;
      FieldRewritten(v, "$ref");
      match h {
        case Definition(name) =>
          EntryIsRewritten(v, "$defs", name);
        case Property(name) =>
          EntryIsRewritten(v, "properties", name);
        case Item =>
          FieldRewritten(v, "items");
        case Alternative(key, i) =>
          if Combinator(key) {
            FieldRewritten(v, key);
            if key in v.fields && v.fields[key].List? && i < |v.fields[key].items| {
              assert StrictItems(v.fields[key]).items[i] == StrictIn(v.fields[key].items[i]);
            }
          }
      }
    }
  }

  /** The rewriting keeps the shape of a schema: along every path stands the rewriting of what
      stood there, or the same as before once the path has led through an unvisited array. */
  lemma {:induction false} EveryNodeIsRewritten(v: Value, path: seq<Hop>)
    requires v.Map?
    ensures Descend(Strict(v), path) == if Unvisited(v, path) then Descend(v, path) else StrictAt(Descend(v, path))
  {
    if path != [] {
      ChildIsRewritten(v, path[0]);
      var w := Child(v.fields, path[0]);
      if w.Some? && !ThroughTypedList(v.fields, path[0]) {
        EveryNodeIsRewritten(w.value, path[1..]);
      }
    }
  }

  lemma StrictIsCompliant(v: Value)
    requires v.Map?
    ensures Compliant(Strict(v).fields)
  {
    var n := Strict(v).fields;
    if Reference(v.fields) {
      assert n.Keys == {"$ref"};
    } else {
      assert !Reference(n);
      FieldRewritten(v, "$ref");
      FieldRewritten(v, "type");
      PropertiesKept(v);
    }
  }

  lemma PropertiesKept(v: Value)
    requires v.Map? && !Reference(v.fields)
    ensures Describes(Strict(v).fields) == Describes(v.fields)
    ensures Describes(v.fields) ==> Strict(v).fields["properties"].fields.Keys == v.fields["properties"].fields.Keys
  {
    FieldRewritten(v, "properties");
  }

  ghost predicate CompliantEverywhere(v: Value)
    requires v.Map?
  {
    forall path :: Descend(v, path).Some? ==> Compliant(Descend(v, path).value.fields)
  }

  ghost predicate CompliantWhereUnvisited(v: Value)
    requires v.Map?
  {
    forall path :: Descend(v, path).Some? && Unvisited(v, path) ==> Compliant(Descend(v, path).value.fields)
  }

  /** Everywhere in the rewritten schema strict mode's demands are met exactly when they were
      already met wherever the original leads through an array of typed maps. */
  lemma StrictEverywhere(v: Value)
    requires v.Map?
    ensures CompliantEverywhere(Strict(v)) <==> CompliantWhereUnvisited(v)
  {
    forall path
      ensures Descend(Strict(v), path) == if Unvisited(v, path) then Descend(v, path) else StrictAt(Descend(v, path))
      ensures Descend(v, path).Some? ==> Compliant(Strict(Descend(v, path).value).fields)
    {
      EveryNodeIsRewritten(v, path);
      if Descend(v, path).Some? {
        StrictIsCompliant(Descend(v, path).value);
      }
    }
    if CompliantEverywhere(Strict(v)) {
      forall path | Descend(v, path).Some? && Unvisited(v, path) ensures Compliant(Descend(v, path).value.fields) {
        assert Descend(Strict(v), path) == Descend(v, path);
      }
    }
  }

  /** A schema is left as it is exactly when every visited place in it meets the demands. */
  lemma UnchangedWhenCompliant(v: Value)
    requires v.Map?
    ensures Strict(v) == v <==> CompliantWhereVisited(v)
  {
    if Strict(v) == v {
      forall path | Descend(v, path).Some? && !Unvisited(v, path) ensures Compliant(Descend(v, path).value.fields) {
        EveryNodeIsRewritten(v, path);
        StrictIsCompliant(Descend(v, path).value);
      }
    }
    if CompliantWhereVisited(v) {
      CompliantIsFixed(v);
    }
  }

  ghost predicate CompliantWhereVisited(v: Value)
    requires v.Map?
  {
    forall path :: Descend(v, path).Some? && !Unvisited(v, path) ==> Compliant(Descend(v, path).value.fields)
  }

  lemma BelowIsCompliantToo(v: Value, h: Hop)
    requires v.Map? && CompliantWhereVisited(v)
    requires Child(v.fields, h).Some? && !ThroughTypedList(v.fields, h)
    ensures CompliantWhereVisited(Child(v.fields, h).value)
  {
    var w := Child(v.fields, h).value;
    forall path | Descend(w, path).Some? && !Unvisited(w, path) ensures Compliant(Descend(w, path).value.fields) {
      assert ([h] + path)[1..] == path;
      assert Descend(v, [h] + path) == Descend(w, path);
      assert !Unvisited(v, [h] + path);
    }
  }

  lemma {:induction false} CompliantIsFixed(v: Value)
    requires v.Map? && CompliantWhereVisited(v)
    ensures Strict(v) == v
    decreases v, 1
  {
    assert Descend(v, []) == Some(v);
    assert Compliant(v.fields);
    if Reference(v.fields) {
      assert v.fields == map["$ref" := v.fields["$ref"]];
    } else {
      forall key | key in v.fields ensures StrictField(v, key) == v.fields[key] {
        FieldIsFixed(v, key);
      }
      if ObjectNode(v.fields) && Describes(v.fields) {
        var keys := v.fields["properties"].fields.Keys;
        SortedIsUnique(Sorted(keys), v.fields["required"].names, keys);
      }
      assert Strict(v).fields == v.fields;
    }
  }

  lemma {:induction false} FieldIsFixed(v: Value, key: string)
    requires v.Map? && CompliantWhereVisited(v) && !Reference(v.fields) && key in v.fields
    ensures StrictField(v, key) == v.fields[key]
    decreases v, 0
  {
    var x := v.fields[key];
    if (key == "$defs" || key == "properties") && x.Map? {
      forall k | k in x.fields ensures StrictIn(x.fields[k]) == x.fields[k] {
        if x.fields[k].Map? {
          BelowIsCompliantToo(v, if key == "$defs" then Definition(k) else Property(k));
          CompliantIsFixed(x.fields[k]);
        }
      }
    } else if Combinator(key) && x.List? {
      forall i | 0 <= i < |x.items| ensures StrictIn(x.items[i]) == x.items[i] {
        if x.items[i].Map? {
          BelowIsCompliantToo(v, Alternative(key, i));
          CompliantIsFixed(x.items[i]);
        }
      }
    } else if key == "items" && x.Map? {
      BelowIsCompliantToo(v, Item);
      CompliantIsFixed(x);
    }
  }

  /** Rewriting twice is rewriting once. */
  lemma StrictIsIdempotent(v: Value)
    requires v.Map?
    ensures Strict(Strict(v)) == Strict(v)
  {
    forall path | Descend(Strict(v), path).Some? && !Unvisited(Strict(v), path)
      ensures Compliant(Descend(Strict(v), path).value.fields)
    {
      EveryNodeIsRewritten(v, path);
      UnvisitedIsKept(v, path);
      StrictIsCompliant(Descend(v, path).value);
    }
    CompliantIsFixed(Strict(v));
  }

  lemma {:induction false} UnvisitedIsKept(v: Value, path: seq<Hop>)
    requires v.Map?
    ensures Unvisited(Strict(v), path) == Unvisited(v, path)
    decreases path
  {
    if path != [] {
      ChildIsRewritten(v, path[0]);
      var w := Child(v.fields, path[0]);
      if w.Some? && !ThroughTypedList(v.fields, path[0]) {
        UnvisitedIsKept(w.value, path[1..]);
      }
    }
  }

  /** The converter of response schemas writes anyOf as an array of typed maps, so an object
      among its alternatives is not made strict. */
  lemma AlternativesAreMissed()
    ensures
      var inner: Node := map["type" := Text("object")];
      var v := Map(map["anyOf" := TypedList([inner])]);
      Strict(v) == v && Descend(v, [Alternative("anyOf", 0)]) == Some(Map(inner)) && !Compliant(inner)
  {
    var inner: Node := map["type" := Text("object")];
    var v := Map(map["anyOf" := TypedList([inner])]);
    assert !Reference(v.fields) && !ObjectNode(v.fields);
    assert StrictField(v, "anyOf") == v.fields["anyOf"];
    assert Strict(v).fields == v.fields;
    assert [Alternative("anyOf", 0)][1..] == [];
    assert Combinator("anyOf") && Child(v.fields, Alternative("anyOf", 0)) == Some(Map(inner));
    assert Typed(inner) && !Reference(inner);
  }

  // ----- The program -----

  /** Every schema among the values of a map is rewritten, in whatever order they come. */
  method EnforceEntries(v: Value) returns (r: Value)
    requires v.Map?
    ensures r == StrictEntries(v)
    decreases v, 0
  {
    var fields := v.fields;
    var left := v.fields.Keys;
    while left != {}
      invariant left <= v.fields.Keys && fields.Keys == v.fields.Keys
      invariant forall k :: k in fields ==> fields[k] == if k in left then v.fields[k] else StrictIn(v.fields[k])
      decreases left
    {
      var k :| k in left;
      if fields[k].Map? {
        var w := Enforce(v.fields[k]);
        fields := fields[k := w];
      }
      left := left - {k};
    }
    r := Map(fields);
  }

  method EnforceItems(v: Value) returns (r: Value)
    requires v.List?
    ensures r == StrictItems(v)
    decreases v, 0
  {
    var items := v.items;
    for i := 0 to |v.items|
      invariant |items| == |v.items|
      invariant forall j :: 0 <= j < |items| ==> items[j] == if j < i then StrictIn(v.items[j]) else v.items[j]
    {
      if v.items[i].Map? {
        var w := Enforce(v.items[i]);
        items := items[i := w];
      }
    }
    r := List(items);
  }

  /** A schema whose listed fields were rewritten. */
  ghost function Partly(v: Value, done: set<string>): Node
    requires v.Map?
  {
    map k | k in v.fields :: if k in done then StrictField(v, k) else v.fields[k]
  }

  method EnforceField(v: Value, node: Node, key: string, ghost done: set<string>) returns (r: Node)
    requires v.Map? && node == Partly(v, done) && key !in done
    ensures r == Partly(v, done + {key})
    decreases v, 1
  {
    r := node;
    if key in node {
      var x := node[key];
      if (key == "$defs" || key == "properties") && x.Map? {
        x := EnforceEntries(x);
      } else if Combinator(key) && x.List? {
        x := EnforceItems(x);
      } else if key == "items" && x.Map? {
        x := Enforce(x);
      }
      assert x == StrictField(v, key);
      r := node[key := x];
    }
  }

  ghost predicate Nested(done: set<string>) {
    "$defs" in done && "anyOf" in done && "oneOf" in done && "allOf" in done && "items" in done
  }

  /** The six keys are all there is to rewrite. */
  lemma PartlyIsAll(v: Value, done: set<string>)
    requires v.Map?
    requires Nested(done) && ("properties" in done || !ObjectNode(v.fields))
    ensures Partly(v, done) == map k | k in v.fields :: StrictField(v, k)
  {
    if "properties" !in done && Describes(v.fields) {
      assert StrictEntries(v.fields["properties"]) == Map(map[]);
    }
  }

  method EnforceNested(v: Value) returns (r: Node, ghost done: set<string>)
    requires v.Map?
    ensures r == Partly(v, done) && Nested(done) && "properties" !in done
    decreases v, 2
  {
    r, done := v.fields, {};
    assert r == Partly(v, {});
    r := EnforceField(v, r, "$defs", {});
    r := EnforceField(v, r, "anyOf", {"$defs"});
    r := EnforceField(v, r, "oneOf", {"$defs", "anyOf"});
    r := EnforceField(v, r, "allOf", {"$defs", "anyOf", "oneOf"});
    done := {"$defs", "anyOf", "oneOf", "allOf"};
    r := EnforceField(v, r, "items", done);
    done := done + {"items"};
  }

  method Mark(n: Node, m: Node) returns (r: Node)
    requires ObjectNode(n)
    ensures r == Marked(n, m)
  {
    r := m["additionalProperties" := Flag(false)];
    if Describes(n) {
      var required := SortedKeys(n["properties"].fields.Keys);
      r := r["required" := Names(required)];
    }
  }

  method Enforce(v: Value) returns (r: Value)
    requires v.Map?
    ensures r == Strict(v)
    decreases v, 3
  {
    if Reference(v.fields) {
      return Map(map["$ref" := v.fields["$ref"]]);
    }
    var node;
    ghost var done;
    node, done := EnforceNested(v);
    if ObjectNode(v.fields) {
      node := EnforceField(v, node, "properties", done);
      PartlyIsAll(v, done + {"properties"});
      node := Mark(v.fields, node);
    } else {
      PartlyIsAll(v, done);
    }
    r := Map(node);
  }
}
