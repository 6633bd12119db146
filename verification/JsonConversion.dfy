/** Copying a value from an execution boundary into a JSON tree, and the protocol's test of what may
    be sent: both walk a graph that may be cyclic, keeping the set of the nodes they are inside of. */
module JsonConversion {
  import opened Wrappers
  import opened Values

  datatype ConvertError = NotFinite | Unsupported | Circular | NotPlain

  // ---- Conversion ----

  function ToProtocolJsonValue(g: Graph, v: Value, seen: set<nat>): Result<Json, ConvertError>
    requires Closed(g) && Known(g, v)
    decreases |g.Keys - seen|, 0, 0
  {
    match v
    case Null => Ok(JNull)
    case Bool(b) => Ok(JBool(b))
    case Str(s) => Ok(JString(s))
    case Num(n) => if n.Finite? then Ok(JNumber(n.value)) else Err(NotFinite)
    case Ref(id) =>
      if id in seen then Err(Circular)
      else
        Enter(g, id, seen);
        (match g[id]
         case Arr(items) =>
           (match ConvertItems(g, items, seen + {id})
            case Ok(js) => Ok(JArray(js))
            case Err(e) => Err(e))
         case Obj(kind, fields) =>
           if kind == OtherKind then Err(NotPlain)
           else
             (match ConvertFields(g, fields, seen + {id})
              case Ok(r) => Ok(JObject(r.0, r.1))
              case Err(e) => Err(e))
         case Date(_) => Err(NotPlain))
    case _ => Err(Unsupported)
  }

  function ConvertItems(g: Graph, items: seq<Value>, seen: set<nat>): Result<seq<Json>, ConvertError>
    requires Closed(g) && ItemsKnown(g, items)
    decreases |g.Keys - seen|, 1, |items|
  {
    if items == [] then Ok([])
    else
      match ConvertItems(g, items[..|items| - 1], seen)
      case Err(e) => Err(e)
      case Ok(js) =>
        match ToProtocolJsonValue(g, items[|items| - 1], seen)
        case Err(e) => Err(e)
        case Ok(j) => Ok(js + [j])
  }

  function ConvertFields(g: Graph, fields: seq<Field>, seen: set<nat>): Result<(Proto, seq<Member>), ConvertError>
    requires Closed(g) && FieldsKnown(g, fields)
    decreases |g.Keys - seen|, 1, |fields|
  {
    if fields == [] then Ok((Plain, []))
    else
      match ConvertFields(g, fields[..|fields| - 1], seen)
      case Err(e) => Err(e)
      case Ok(r) =>
        match ToProtocolJsonValue(g, fields[|fields| - 1].value, seen)
        case Err(e) => Err(e)
        case Ok(j) => Ok(Assign(r.0, r.1, fields[|fields| - 1].key, j))
  }

  lemma {:induction false} ItemsConvert(g: Graph, items: seq<Value>, seen: set<nat>)
    requires Closed(g) && ItemsKnown(g, items)
    ensures ConvertItems(g, items, seen).Ok? <==>
            forall i :: 0 <= i < |items| ==> ToProtocolJsonValue(g, items[i], seen).Ok?
    ensures ConvertItems(g, items, seen).Ok? ==>
              var js := ConvertItems(g, items, seen).value;
              && |js| == |items|
              && forall i :: 0 <= i < |items| ==> ToProtocolJsonValue(g, items[i], seen) == Ok(js[i])
    decreases |items|
  {
    if items != [] {
      ItemsConvert(g, items[..|items| - 1], seen);
    }
  }

  /** Only ordinary keys become members; a key `__proto__` never does. */
  lemma {:induction false} FieldsConvert(g: Graph, fields: seq<Field>, seen: set<nat>)
    requires Closed(g) && FieldsKnown(g, fields)
    ensures ConvertFields(g, fields, seen).Ok? <==>
            forall i :: 0 <= i < |fields| ==> ToProtocolJsonValue(g, fields[i].value, seen).Ok?
    ensures ConvertFields(g, fields, seen).Ok? ==>
              var (proto, ms) := ConvertFields(g, fields, seen).value;
              && |ms| <= |fields|
              && ((forall i :: 0 <= i < |fields| ==> fields[i].key != ProtoKey) <==> |ms| == |fields|)
              && (|ms| == |fields| ==>
                    && proto == Plain
                    && forall i :: 0 <= i < |fields| ==>
                         && ms[i].key == fields[i].key
                         && ToProtocolJsonValue(g, fields[i].value, seen) == Ok(ms[i].value))
    decreases |fields|
  {
    if fields != [] {
      FieldsConvert(g, fields[..|fields| - 1], seen);
    }
  }

  // ---- The protocol's test ----

  predicate IsProtocolValue(g: Graph, v: Value, optional: bool, ancestors: set<nat>)
    requires Closed(g) && Known(g, v)
    decreases |g.Keys - ancestors|, 0
  {
    match v
    case Undefined => optional
    case Null => true
    case Bool(_) => true
    case Num(_) => true
    case Str(_) => true
    case Ref(id) =>
      if id in ancestors then false
      else
        Enter(g, id, ancestors);
        (match g[id]
         case Arr(items) => forall i :: 0 <= i < |items| && items[i] != Hole ==>
                              IsProtocolValue(g, items[i], false, ancestors + {id})
         case Obj(kind, fields) =>
           kind == PlainKind && forall i :: 0 <= i < |fields| ==>
             IsProtocolValue(g, fields[i].value, true, ancestors + {id})
         case Date(_) => false)
    case _ => false
  }

  // ---- What either demands of a graph ----

  datatype Rule = Conversion | Protocol

  /** A scalar, or a reference, that may stand in a position of this sort. */
  predicate LeafOk(rule: Rule, v: Value, inArray: bool, inObject: bool) {
    match v
    case Num(n) => rule == Protocol || n.Finite?
    case Undefined => rule == Protocol && inObject
    case Hole => rule == Protocol && inArray
    case BigInt(_) => false
    case Function => false
    case Symbol => false
    case _ => true
  }

  predicate NodeOk(rule: Rule, node: Node) {
    match node
    case Arr(items) => forall i :: 0 <= i < |items| ==> LeafOk(rule, items[i], true, false)
    case Obj(kind, fields) =>
      && (kind == PlainKind || (kind == NullKind && rule == Conversion))
      && forall i :: 0 <= i < |fields| ==> LeafOk(rule, fields[i].value, false, true)
    case Date(_) => false
  }

  /** No path from `v` meets a node twice, a node of `seen`, or a node that is not fit. */
  predicate CleanPath(g: Graph, rule: Rule, seen: set<nat>, path: seq<nat>) {
    Distinct(path) && Avoids(path, seen) && forall k :: 0 <= k < |path| ==> path[k] in g && NodeOk(rule, g[path[k]])
  }

  ghost predicate PathsClean(g: Graph, v: Value, rule: Rule, seen: set<nat>) {
    forall path :: IsPath(g, v, path) ==> CleanPath(g, rule, seen, path)
  }

  lemma ScalarPaths(g: Graph, v: Value, rule: Rule, seen: set<nat>)
    requires !v.Ref?
    ensures PathsClean(g, v, rule, seen)
  {
  }

  /** The paths from a node, in terms of the paths from its children. */
  lemma PathsCleanStep(g: Graph, id: nat, rule: Rule, seen: set<nat>)
    requires id in g
    ensures PathsClean(g, Ref(id), rule, seen) <==>
            && id !in seen && NodeOk(rule, g[id])
            && forall i :: 0 <= i < |Children(g[id])| ==> PathsClean(g, Children(g[id])[i], rule, seen + {id})
  {
    var children := Children(g[id]);
    if PathsClean(g, Ref(id), rule, seen) {
      assert IsPath(g, Ref(id), [id]);
      assert CleanPath(g, rule, seen, [id]);
      assert [id][0] == id;
      forall i | 0 <= i < |children|
        ensures PathsClean(g, children[i], rule, seen + {id})
      {
        forall rest | IsPath(g, children[i], rest)
          ensures CleanPath(g, rule, seen + {id}, rest)
        {
          PathThrough(g, id, i, rest);
          CleanTail(g, rule, seen, id, rest);
        }
      }
    }
    if id !in seen && NodeOk(rule, g[id]) &&
       forall i :: 0 <= i < |children| ==> PathsClean(g, children[i], rule, seen + {id}) {
      forall path | IsPath(g, Ref(id), path)
        ensures CleanPath(g, rule, seen, path)
      {
        if path != [] {
          assert path == [id] + path[1..];
          if path[1..] != [] {
            var i :| 0 <= i < |children| && IsPath(g, children[i], path[1..]);
          } else {
            assert CleanPath(g, rule, seen + {id}, []);
          }
          CleanTail(g, rule, seen, id, path[1..]);
        }
      }
    }
  }

  lemma CleanTail(g: Graph, rule: Rule, seen: set<nat>, id: nat, rest: seq<nat>)
    requires id in g && id !in seen && NodeOk(rule, g[id])
    ensures CleanPath(g, rule, seen, [id] + rest) <==> CleanPath(g, rule, seen + {id}, rest)
  {
    var path := [id] + rest;
    assert forall i :: 0 <= i < |rest| ==> path[i + 1] == rest[i];
    if CleanPath(g, rule, seen, path) {
      forall i | 0 <= i < |rest| ensures rest[i] !in seen + {id} && rest[i] in g && NodeOk(rule, g[rest[i]]) {
        assert path[i + 1] != path[0];
      }
    }
    if CleanPath(g, rule, seen + {id}, rest) {
      assert forall i :: 0 < i < |path| ==> path[i] == rest[i - 1];
    }
  }

  /** Conversion succeeds exactly when no path from the value closes a cycle and every leaf and
      container on the way is JSON-plain. Nodes may be shared. */
  lemma {:induction false} ConvertsIff(g: Graph, v: Value, seen: set<nat>)
    requires Closed(g) && Known(g, v)
    ensures ToProtocolJsonValue(g, v, seen).Ok? <==>
            LeafOk(Conversion, v, false, false) && PathsClean(g, v, Conversion, seen)
    decreases |g.Keys - seen|
  {
    if v.Ref? && v.id !in seen {
      Enter(g, v.id, seen);
      var children := Children(g[v.id]);
      forall i | 0 <= i < |children|
        ensures ToProtocolJsonValue(g, children[i], seen + {v.id}).Ok? <==>
                LeafOk(Conversion, children[i], false, false) && PathsClean(g, children[i], Conversion, seen + {v.id})
      {
        ConvertsIff(g, children[i], seen + {v.id});
      }
      ChildrenConvert(g, v.id, seen);
    }
    if v.Ref? {
      PathsCleanStep(g, v.id, Conversion, seen);
      NodeLeaves(Conversion, g[v.id]);
    } else {
      ScalarPaths(g, v, Conversion, seen);
    }
  }

  lemma NodeLeaves(rule: Rule, node: Node)
    requires rule == Conversion
    ensures NodeOk(rule, node) <==>
            && (node.Arr? || (node.Obj? && node.kind != OtherKind))
            && forall i :: 0 <= i < |Children(node)| ==> LeafOk(rule, Children(node)[i], false, false)
  {
    match node
    case Arr(items) => assert Children(node) == items;
    case Obj(_, fields) => assert forall i :: 0 <= i < |fields| ==> Children(node)[i] == fields[i].value;
    case Date(_) =>
  }

  lemma ChildrenConvert(g: Graph, id: nat, seen: set<nat>)
    requires Closed(g) && id in g && id !in seen
    ensures ToProtocolJsonValue(g, Ref(id), seen).Ok? <==>
            && (g[id].Arr? || (g[id].Obj? && g[id].kind != OtherKind))
            && forall i :: 0 <= i < |Children(g[id])| ==> ToProtocolJsonValue(g, Children(g[id])[i], seen + {id}).Ok?
  {
    match g[id]
    case Arr(items) =>
      ItemsConvert(g, items, seen + {id});
      assert Children(g[id]) == items;
    case Obj(_, fields) =>
      FieldsConvert(g, fields, seen + {id});
      assert forall i :: 0 <= i < |fields| ==> Children(g[id])[i] == fields[i].value;
    case Date(_) =>
  }

  /** The protocol's test passes exactly when no path closes a cycle and every container and leaf on
      the way may be sent: undefined only as a property, ordinary prototypes only. */
  lemma {:induction false} ProtocolValueIff(g: Graph, v: Value, optional: bool, seen: set<nat>)
    requires Closed(g) && Known(g, v)
    ensures IsProtocolValue(g, v, optional, seen) <==>
            LeafOk(Protocol, v, false, optional) && PathsClean(g, v, Protocol, seen)
    decreases |g.Keys - seen|
  {
    if !v.Ref? {
      ScalarPaths(g, v, Protocol, seen);
    } else {
      PathsCleanStep(g, v.id, Protocol, seen);
      if v.id !in seen {
        Enter(g, v.id, seen);
        match g[v.id]
        case Arr(items) =>
          forall i | 0 <= i < |items|
            ensures items[i] == Children(g[v.id])[i]
            ensures (items[i] == Hole || IsProtocolValue(g, items[i], false, seen + {v.id})) <==>
                    LeafOk(Protocol, items[i], true, false) && PathsClean(g, items[i], Protocol, seen + {v.id})
          {
            ProtocolValueIff(g, items[i], false, seen + {v.id});
          }
        case Obj(_, fields) =>
          forall i | 0 <= i < |fields|
            ensures fields[i].value == Children(g[v.id])[i]
            ensures IsProtocolValue(g, fields[i].value, true, seen + {v.id}) <==>
                    LeafOk(Protocol, fields[i].value, false, true) &&
                    PathsClean(g, fields[i].value, Protocol, seen + {v.id})
          {
            ProtocolValueIff(g, fields[i].value, true, seen + {v.id});
          }
        case Date(_) =>
      }
    }
  }
}
