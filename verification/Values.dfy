/** Values as the program holds them, scalars and references into a finite graph of arrays and
    objects, and the JSON trees they are copied into. */
module Values {

  datatype Number = Finite(value: real) | NonFinite(text: string)

  /** `Hole` stands for an empty slot of an array. */
  datatype Value =
    | Null
    | Bool(bit: bool)
    | Num(number: Number)
    | Str(text: string)
    | Undefined
    | Hole
    | BigInt(text: string)
    | Function
    | Symbol
    | Ref(id: nat)

  datatype Field = Field(key: string, value: Value)

  /** What the prototype of an object is: the ordinary one, none, or anything else. */
  datatype Kind = PlainKind | NullKind | OtherKind

  /** `fields` are an object's own enumerable properties in the order they are listed. A date's text
      is missing when the date is invalid. */
  datatype Node =
    | Arr(items: seq<Value>)
    | Obj(kind: Kind, fields: seq<Field>)
    | Date(iso: seq<string>)

  type Graph = map<nat, Node>

  function Children(node: Node): seq<Value> {
    match node
    case Arr(items) => items
    case Obj(_, fields) => seq(|fields|, i requires 0 <= i < |fields| => fields[i].value)
    case Date(_) => []
  }

  predicate Known(g: Graph, v: Value) {
    v.Ref? ==> v.id in g
  }

  predicate ItemsKnown(g: Graph, items: seq<Value>) {
    forall i :: 0 <= i < |items| ==> Known(g, items[i])
  }

  predicate FieldsKnown(g: Graph, fields: seq<Field>) {
    forall i :: 0 <= i < |fields| ==> Known(g, fields[i].value)
  }

  /** Every reference leads somewhere. Graphs may be cyclic and may share nodes. */
  predicate Closed(g: Graph) {
    forall id :: id in g ==>
      (g[id].Arr? ==> ItemsKnown(g, g[id].items)) && (g[id].Obj? ==> FieldsKnown(g, g[id].fields))
  }

  /** Entering a node leads to known values and leaves fewer nodes to enter. */
  lemma Enter(g: Graph, id: nat, seen: set<nat>)
    requires Closed(g) && id in g && id !in seen
    ensures |g.Keys - (seen + {id})| < |g.Keys - seen|
    ensures ItemsKnown(g, Children(g[id]))
  {
    assert g.Keys - seen == (g.Keys - (seen + {id})) + {id};
  }

  // ---- Paths ----

  /** The nodes met when following references down from a value. */
  predicate IsPath(g: Graph, v: Value, path: seq<nat>)
    decreases |path|
  {
    path != [] ==>
      && v == Ref(path[0]) && path[0] in g
      && (path[1..] != [] ==>
            exists i :: 0 <= i < |Children(g[path[0]])| && IsPath(g, Children(g[path[0]])[i], path[1..]))
  }

  predicate Distinct(path: seq<nat>) {
    forall i, j :: 0 <= i < j < |path| ==> path[i] != path[j]
  }

  predicate Avoids(path: seq<nat>, seen: set<nat>) {
    forall i :: 0 <= i < |path| ==> path[i] !in seen
  }

  lemma PathThrough(g: Graph, id: nat, i: nat, rest: seq<nat>)
    requires id in g && i < |Children(g[id])| && IsPath(g, Children(g[id])[i], rest)
    ensures IsPath(g, Ref(id), [id] + rest)
  {
    assert ([id] + rest)[1..] == rest;
  }

  // ---- Trees ----

  datatype Member = Member(key: string, value: Json)

  /** The prototype of a copied object: the ordinary one, none, or another copied value. */
  datatype Proto = Plain | NoProto | Inherits(parent: Json)

  datatype Json =
    | JNull
    | JBool(bit: bool)
    | JNumber(number: real)
    | JString(text: string)
    | JArray(items: seq<Json>)
    | JObject(proto: Proto, members: seq<Member>)

  const ProtoKey := "__proto__"

  /** Setting a property of an ordinary object; setting the property `__proto__` replaces the
      prototype when the value is an object or null, and otherwise does nothing. */
  function Assign(proto: Proto, members: seq<Member>, key: string, value: Json): (Proto, seq<Member>) {
    if key != ProtoKey then (proto, members + [Member(key, value)])
    else if value.JArray? || value.JObject? then (Inherits(value), members)
    else if value.JNull? then (NoProto, members)
    else (proto, members)
  }

  predicate ReplacesProto(value: Json) {
    value.JArray? || value.JObject? || value.JNull?
  }

  /** The tree is made of ordinary objects only. */
  predicate AllPlain(j: Json) {
    match j
    case JArray(items) => forall i :: 0 <= i < |items| ==> AllPlain(items[i])
    case JObject(proto, members) => proto == Plain && forall i :: 0 <= i < |members| ==> AllPlain(members[i].value)
    case _ => true
  }

  /** No object of the tree has a property called `__proto__`. */
  predicate NoProtoMember(j: Json) {
    match j
    case JArray(items) => forall i :: 0 <= i < |items| ==> NoProtoMember(items[i])
    case JObject(_, members) =>
      forall i :: 0 <= i < |members| ==> members[i].key != ProtoKey && NoProtoMember(members[i].value)
    case _ => true
  }

  /** `j` is the tree unfolding of `v`: each array and each object without a special prototype is
      copied, once for every way that leads to it. */
  predicate Unfolds(g: Graph, v: Value, j: Json)
    decreases j
  {
    match v
    case Null => j == JNull
    case Bool(b) => j == JBool(b)
    case Num(n) => n.Finite? && j == JNumber(n.value)
    case Str(s) => j == JString(s)
    case Ref(id) =>
      && id in g
      && (match g[id]
          case Arr(items) =>
            j.JArray? && |j.items| == |items| && forall i :: 0 <= i < |items| ==> Unfolds(g, items[i], j.items[i])
          case Obj(kind, fields) =>
            && kind != OtherKind && j.JObject? && j.proto == Plain && |j.members| == |fields|
            && forall i :: 0 <= i < |fields| ==>
                 j.members[i].key == fields[i].key && Unfolds(g, fields[i].value, j.members[i].value)
          case Date(_) => false)
    case _ => false
  }

  function KindOf(proto: Proto): Kind {
    match proto case Plain => PlainKind case NoProto => NullKind case Inherits(_) => OtherKind
  }

  /** `v` is a value whose content is `j`, prototypes included. */
  predicate Denotes(g: Graph, v: Value, j: Json)
    decreases j
  {
    match v
    case Null => j == JNull
    case Bool(b) => j == JBool(b)
    case Num(n) => n.Finite? && j == JNumber(n.value)
    case Str(s) => j == JString(s)
    case Ref(id) =>
      && id in g
      && (match g[id]
          case Arr(items) =>
            j.JArray? && |j.items| == |items| && forall i :: 0 <= i < |items| ==> Denotes(g, items[i], j.items[i])
          case Obj(kind, fields) =>
            && j.JObject? && kind == KindOf(j.proto) && |j.members| == |fields|
            && forall i :: 0 <= i < |fields| ==>
                 j.members[i].key == fields[i].key && Denotes(g, fields[i].value, j.members[i].value)
          case Date(_) => false)
    case _ => false
  }

  lemma {:induction false} PlainDenotesUnfolds(g: Graph, v: Value, j: Json)
    requires Denotes(g, v, j) && AllPlain(j)
    ensures Unfolds(g, v, j)
    decreases j
  {
    if v.Ref? {
      match g[v.id]
      case Arr(items) =>
        forall i | 0 <= i < |items| ensures Unfolds(g, items[i], j.items[i]) {
          PlainDenotesUnfolds(g, items[i], j.items[i]);
        }
      case Obj(_, fields) =>
        forall i | 0 <= i < |fields| ensures Unfolds(g, fields[i].value, j.members[i].value) {
          PlainDenotesUnfolds(g, fields[i].value, j.members[i].value);
        }
      case Date(_) =>
    }
  }

  /** A value has at most one unfolding. */
  lemma {:induction false} UnfoldingIsUnique(g: Graph, v: Value, j: Json, k: Json)
    requires Unfolds(g, v, j) && Unfolds(g, v, k)
    ensures j == k
    decreases j
  {
    if v.Ref? {
      match g[v.id]
      case Arr(items) =>
        forall i | 0 <= i < |items| ensures j.items[i] == k.items[i] {
          UnfoldingIsUnique(g, items[i], j.items[i], k.items[i]);
        }
        assert j.items == k.items;
      case Obj(_, fields) =>
        forall i | 0 <= i < |fields| ensures j.members[i] == k.members[i] {
          UnfoldingIsUnique(g, fields[i].value, j.members[i].value, k.members[i].value);
        }
        assert j.members == k.members;
      case Date(_) =>
    }
  }

  // ---- Depth ----

  /** No path from `v` has more than `n` nodes. */
  predicate Fits(g: Graph, v: Value, n: nat)
    decreases n
  {
    v.Ref? ==>
      n > 0 && v.id in g && forall i :: 0 <= i < |Children(g[v.id])| ==> Fits(g, Children(g[v.id])[i], n - 1)
  }

  lemma {:induction false} FitsMore(g: Graph, v: Value, n: nat, m: nat)
    requires Fits(g, v, n) && n <= m
    ensures Fits(g, v, m)
    decreases n
  {
    if v.Ref? {
      forall i | 0 <= i < |Children(g[v.id])| ensures Fits(g, Children(g[v.id])[i], m - 1) {
        FitsMore(g, Children(g[v.id])[i], n - 1, m - 1);
      }
    }
  }

  lemma AllFitMore(g: Graph, items: seq<Value>, n: nat, m: nat)
    requires n <= m && forall i :: 0 <= i < |items| ==> Fits(g, items[i], n)
    ensures forall i :: 0 <= i < |items| ==> Fits(g, items[i], m)
  {
    forall i | 0 <= i < |items| ensures Fits(g, items[i], m) {
      FitsMore(g, items[i], n, m);
    }
  }

  /** A value with an unfolding has no cycle below it. */
  lemma {:induction false} UnfoldingIsFinite(g: Graph, v: Value, j: Json) returns (n: nat)
    requires Unfolds(g, v, j)
    ensures Fits(g, v, n)
    decreases j
  {
    n := 0;
    if v.Ref? {
      var children := Children(g[v.id]);
      for i := 0 to |children|
        invariant forall k :: 0 <= k < i ==> Fits(g, children[..i][k], n)
      {
        var m := UnfoldingIsFinite(g, children[i], if j.JArray? then j.items[i] else j.members[i].value);
        AllFitMore(g, children[..i], n, n + m);
        FitsMore(g, children[i], m, n + m);
        n := n + m;
        assert children[..i + 1] == children[..i] + [children[i]];
      }
      assert children[..|children|] == children;
      n := n + 1;
    }
  }
}
