/** What the error of a refused conversion says: there is such a defect on the way. */
module JsonErrors {
  import opened Wrappers
  import opened Values
  import opened JsonConversion
  import opened Sanitizer

  /** The value, met while the walk is inside of these nodes, is a defect of this sort. */
  predicate IsDefect(g: Graph, e: ConvertError, v: Value, inside: set<nat>) {
    match e
    case NotFinite => v.Num? && v.number.NonFinite?
    case Unsupported => v.Undefined? || v.Hole? || v.BigInt? || v.Function? || v.Symbol?
    case Circular => v.Ref? && v.id in inside
    case NotPlain =>
      v.Ref? && v.id !in inside && v.id in g && (g[v.id].Date? || (g[v.id].Obj? && g[v.id].kind == OtherKind))
  }

  /** A child of the last node of a path. */
  predicate IsBelow(g: Graph, path: seq<nat>, w: Value) {
    path != [] && path[|path| - 1] in g && w in Children(g[path[|path| - 1]])
  }

  /** The value itself is the defect, or a child of a node that the walk comes to be inside of. */
  ghost predicate MeetsDefect(g: Graph, v: Value, seen: set<nat>, e: ConvertError) {
    || IsDefect(g, e, v, seen)
    || exists path, w :: Visits(g, v, seen, path) && IsBelow(g, path, w) && IsDefect(g, e, w, PathSet(path) + seen)
  }

  lemma DefectBelow(g: Graph, id: nat, i: nat, seen: set<nat>, e: ConvertError)
    requires id in g && id !in seen && i < |Children(g[id])| && MeetsDefect(g, Children(g[id])[i], seen + {id}, e)
    ensures MeetsDefect(g, Ref(id), seen, e)
  {
    var child := Children(g[id])[i];
    if IsDefect(g, e, child, seen + {id}) {
      assert Visits(g, Ref(id), seen, [id]) && IsBelow(g, [id], child);
      assert PathSet([id]) + seen == seen + {id};
    } else {
      var rest, w :| Visits(g, child, seen + {id}, rest) && IsBelow(g, rest, w) &&
                     IsDefect(g, e, w, PathSet(rest) + (seen + {id}));
      VisitsChild(g, id, i, seen, rest);
      assert IsBelow(g, [id] + rest, w);
    }
  }

  lemma {:induction false} ItemsFailLikeOne(g: Graph, items: seq<Value>, seen: set<nat>) returns (i: nat)
    requires Closed(g) && ItemsKnown(g, items) && ConvertItems(g, items, seen).Err?
    ensures i < |items| && ToProtocolJsonValue(g, items[i], seen) == Err(ConvertItems(g, items, seen).error)
    decreases |items|
  {
    var n := |items| - 1;
    if ConvertItems(g, items[..n], seen).Err? {
      i := ItemsFailLikeOne(g, items[..n], seen);
    } else {
      i := n;
    }
  }

  lemma {:induction false} FieldsFailLikeOne(g: Graph, fields: seq<Field>, seen: set<nat>) returns (i: nat)
    requires Closed(g) && FieldsKnown(g, fields) && ConvertFields(g, fields, seen).Err?
    ensures i < |fields| && ToProtocolJsonValue(g, fields[i].value, seen) == Err(ConvertFields(g, fields, seen).error)
    decreases |fields|
  {
    var n := |fields| - 1;
    if ConvertFields(g, fields[..n], seen).Err? {
      i := FieldsFailLikeOne(g, fields[..n], seen);
    } else {
      i := n;
    }
  }

  /** A conversion that is refused met a defect of the sort that its error names. */
  lemma {:induction false} ErrorNamesDefect(g: Graph, v: Value, seen: set<nat>)
    requires Closed(g) && Known(g, v) && ToProtocolJsonValue(g, v, seen).Err?
    ensures MeetsDefect(g, v, seen, ToProtocolJsonValue(g, v, seen).error)
    decreases |g.Keys - seen|
  {
    if v.Ref? && v.id !in seen && !IsDefect(g, NotPlain, v, seen) {
      Enter(g, v.id, seen);
      var i;
      match g[v.id]
      case Arr(items) =>
        i := ItemsFailLikeOne(g, items, seen + {v.id});
        assert Children(g[v.id])[i] == items[i];
        ErrorNamesDefect(g, items[i], seen + {v.id});
        DefectBelow(g, v.id, i, seen, ToProtocolJsonValue(g, v, seen).error);
      case Obj(_, fields) =>
        i := FieldsFailLikeOne(g, fields, seen + {v.id});
        assert Children(g[v.id])[i] == fields[i].value;
        ErrorNamesDefect(g, fields[i].value, seen + {v.id});
        DefectBelow(g, v.id, i, seen, ToProtocolJsonValue(g, v, seen).error);
    }
  }
}
