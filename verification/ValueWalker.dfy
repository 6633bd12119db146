/** The walks as the program performs them: one set of the nodes the walk is inside of, to which a
    node is added when it is entered and from which it is taken when it is left, however that ends. */
module ValueWalker {
  import opened Wrappers
  import opened Values
  import opened JsonConversion
  import opened Sanitizer

  class Walker {
    const g: Graph
    var seen: set<nat>

    constructor (g: Graph)
      ensures this.g == g && seen == {}
    {
      this.g, seen := g, {};
    }

    method ToJson(v: Value) returns (r: Result<Json, ConvertError>)
      requires Closed(g) && Known(g, v)
      modifies this`seen
      ensures seen == old(seen) && r == ToProtocolJsonValue(g, v, old(seen))
      decreases |g.Keys - seen|, 0
    {
      match v {
        case Null => return Ok(JNull);
        case Bool(b) => return Ok(JBool(b));
        case Str(s) => return Ok(JString(s));
        case Num(n) =>
          if n.NonFinite? {
            return Err(NotFinite);
          }
          return Ok(JNumber(n.value));
        case Ref(id) =>
          if id in seen {
            return Err(Circular);
          }
          if g[id].Date? || (g[id].Obj? && g[id].kind == OtherKind) {
            return Err(NotPlain);
          }
          Enter(g, id, seen);
          seen := seen + {id};
          if g[id].Arr? {
            var js := ItemsToJson(g[id].items);
            r := if js.Ok? then Ok(JArray(js.value)) else Err(js.error);
          } else {
            var o := FieldsToJson(g[id].fields);
            r := if o.Ok? then Ok(JObject(o.value.0, o.value.1)) else Err(o.error);
          }
          seen := seen - {id};
        case _ => return Err(Unsupported);
      }
    }

    method ItemsToJson(items: seq<Value>) returns (r: Result<seq<Json>, ConvertError>)
      requires Closed(g) && ItemsKnown(g, items)
      modifies this`seen
      ensures seen == old(seen) && r == ConvertItems(g, items, old(seen))
      decreases |g.Keys - seen|, 1
    {
      var result: seq<Json> := [];
      for i := 0 to |items|
        invariant seen == old(seen) && ConvertItems(g, items[..i], seen) == Ok(result)
      {
        ItemsNext(g, items, seen, i);
        var entry := ToJson(items[i]);
        if entry.Err? {
          return Err(entry.error);
        }
        result := result + [entry.value];
      }
      assert items[..|items|] == items;
      r := Ok(result);
    }

    method FieldsToJson(fields: seq<Field>) returns (r: Result<(Proto, seq<Member>), ConvertError>)
      requires Closed(g) && FieldsKnown(g, fields)
      modifies this`seen
      ensures seen == old(seen) && r == ConvertFields(g, fields, old(seen))
      decreases |g.Keys - seen|, 1
    {
      var proto, members := Plain, [];
      for i := 0 to |fields|
        invariant seen == old(seen) && ConvertFields(g, fields[..i], seen) == Ok((proto, members))
      {
        FieldsNext(g, fields, seen, i);
        var entry := ToJson(fields[i].value);
        if entry.Err? {
          return Err(entry.error);
        }
        var target := Assign(proto, members, fields[i].key, entry.value);
        proto, members := target.0, target.1;
      }
      assert fields[..|fields|] == fields;
      r := Ok((proto, members));
    }

    method SanitizeDetails(v: Value) returns (r: Result<Option<Json>, DateError>)
      requires Closed(g) && Known(g, v)
      modifies this`seen
      ensures seen == old(seen) && r == Sanitize(g, v, old(seen))
      decreases |g.Keys - seen|, 2
    {
      match v {
        case Null => return Ok(Some(JNull));
        case Bool(b) => return Ok(Some(JBool(b)));
        case Str(s) => return Ok(Some(JString(s)));
        case Num(n) => return Ok(Some(if n.Finite? then JNumber(n.value) else JString(n.text)));
        case BigInt(text) => return Ok(Some(JString(text)));
        case Ref(id) => r := SanitizeNode(id);
        case _ => return Ok(None);
      }
    }

    method SanitizeNode(id: nat) returns (r: Result<Option<Json>, DateError>)
      requires Closed(g) && id in g
      modifies this`seen
      ensures seen == old(seen) && r == Sanitize(g, Ref(id), old(seen))
      decreases |g.Keys - seen|, 1
    {
      if g[id].Date? {
        return if g[id].iso == [] then Err(InvalidDate) else Ok(Some(JString(g[id].iso[0])));
      }
      if id in seen {
        return Ok(Some(JString(CircularText)));
      }
      Enter(g, id, seen);
      seen := seen + {id};
      if g[id].Arr? {
        var js := SanitizeArray(g[id].items);
        r := if js.Ok? then Ok(Some(JArray(js.value))) else Err(js.error);
      } else {
        var o := SanitizeObject(g[id].fields);
        r := if o.Ok? then Ok(Some(JObject(o.value.0, o.value.1))) else Err(o.error);
      }
      seen := seen - {id};
    }

    method SanitizeArray(items: seq<Value>) returns (r: Result<seq<Json>, DateError>)
      requires Closed(g) && ItemsKnown(g, items)
      modifies this`seen
      ensures seen == old(seen) && r == SanitizeItems(g, items, old(seen))
      decreases |g.Keys - seen|, 3
    {
      var result: seq<Json> := [];
      for i := 0 to |items|
        invariant seen == old(seen) && SanitizeItems(g, items[..i], seen) == Ok(result)
      {
        SanitizeItemsNext(g, items, seen, i);
        var entry := SanitizeDetails(items[i]);
        if entry.Err? {
          return Err(InvalidDate);
        }
        result := result + [if entry.value.Some? then entry.value.value else JNull];
      }
      assert items[..|items|] == items;
      r := Ok(result);
    }

    method SanitizeObject(fields: seq<Field>) returns (r: Result<(Proto, seq<Member>), DateError>)
      requires Closed(g) && FieldsKnown(g, fields)
      modifies this`seen
      ensures seen == old(seen) && r == SanitizeFields(g, fields, old(seen))
      decreases |g.Keys - seen|, 3
    {
      var proto, members := Plain, [];
      for i := 0 to |fields|
        invariant seen == old(seen) && SanitizeFields(g, fields[..i], seen) == Ok((proto, members))
      {
        SanitizeFieldsNext(g, fields, seen, i);
        var entry := SanitizeDetails(fields[i].value);
        if entry.Err? {
          return Err(InvalidDate);
        }
        if entry.value.Some? {
          var target := Assign(proto, members, fields[i].key, entry.value.value);
          proto, members := target.0, target.1;
        }
      }
      assert fields[..|fields|] == fields;
      r := Ok((proto, members));
    }

    /** `optional` is whether undefined may stand here. */
    method CheckProtocolValue(v: Value, optional: bool) returns (r: bool)
      requires Closed(g) && Known(g, v)
      modifies this`seen
      ensures seen == old(seen) && r == IsProtocolValue(g, v, optional, old(seen))
      decreases |g.Keys - seen|, 2
    {
      match v {
        case Undefined => return optional;
        case Null => return true;
        case Bool(_) => return true;
        case Num(_) => return true;
        case Str(_) => return true;
        case Ref(id) => r := CheckNode(id);
        case _ => return false;
      }
    }

    method CheckNode(id: nat) returns (r: bool)
      requires Closed(g) && id in g
      modifies this`seen
      ensures seen == old(seen)
      ensures forall optional :: r == IsProtocolValue(g, Ref(id), optional, old(seen))
      decreases |g.Keys - seen|, 1
    {
      if id in seen {
        return false;
      }
      Enter(g, id, seen);
      seen := seen + {id};
      match g[id] {
        case Arr(items) => r := CheckItems(items);
        case Obj(kind, fields) =>
          if kind == PlainKind {
            r := CheckFields(fields);
          } else {
            r := false;
          }
        case Date(_) => r := false;
      }
      seen := seen - {id};
    }

    method CheckItems(items: seq<Value>) returns (r: bool)
      requires Closed(g) && ItemsKnown(g, items)
      modifies this`seen
      ensures seen == old(seen)
      ensures r <==> forall i :: 0 <= i < |items| && items[i] != Hole ==> IsProtocolValue(g, items[i], false, old(seen))
      decreases |g.Keys - seen|, 3
    {
      for i := 0 to |items|
        invariant seen == old(seen)
        invariant forall k :: 0 <= k < i && items[k] != Hole ==> IsProtocolValue(g, items[k], false, seen)
      {
        if items[i] != Hole {
          r := CheckProtocolValue(items[i], false);
          if !r {
            return;
          }
        }
      }
      r := true;
    }

    method CheckFields(fields: seq<Field>) returns (r: bool)
      requires Closed(g) && FieldsKnown(g, fields)
      modifies this`seen
      ensures seen == old(seen)
      ensures r <==> forall i :: 0 <= i < |fields| ==> IsProtocolValue(g, fields[i].value, true, old(seen))
      decreases |g.Keys - seen|, 3
    {
      for i := 0 to |fields|
        invariant seen == old(seen)
        invariant forall k :: 0 <= k < i ==> IsProtocolValue(g, fields[k].value, true, seen)
      {
        r := CheckProtocolValue(fields[i].value, true);
        if !r {
          return;
        }
      }
      r := true;
    }
  }

  /** The first failure decides. */
  lemma {:induction false} ItemsFail(g: Graph, items: seq<Value>, seen: set<nat>, n: nat)
    requires Closed(g) && ItemsKnown(g, items) && n <= |items| && ConvertItems(g, items[..n], seen).Err?
    ensures ConvertItems(g, items, seen) == ConvertItems(g, items[..n], seen)
    decreases |items|
  {
    if n < |items| {
      var front := items[..|items| - 1];
      assert front[..n] == items[..n];
      ItemsFail(g, front, seen, n);
    } else {
      assert items[..n] == items;
    }
  }

  lemma {:induction false} FieldsFail(g: Graph, fields: seq<Field>, seen: set<nat>, n: nat)
    requires Closed(g) && FieldsKnown(g, fields) && n <= |fields| && ConvertFields(g, fields[..n], seen).Err?
    ensures ConvertFields(g, fields, seen) == ConvertFields(g, fields[..n], seen)
    decreases |fields|
  {
    if n < |fields| {
      var front := fields[..|fields| - 1];
      assert front[..n] == fields[..n];
      FieldsFail(g, front, seen, n);
    } else {
      assert fields[..n] == fields;
    }
  }

  lemma ItemsNext(g: Graph, items: seq<Value>, seen: set<nat>, i: nat)
    requires Closed(g) && ItemsKnown(g, items) && i < |items| && ConvertItems(g, items[..i], seen).Ok?
    ensures match ToProtocolJsonValue(g, items[i], seen)
            case Ok(j) => ConvertItems(g, items[..i + 1], seen) == Ok(ConvertItems(g, items[..i], seen).value + [j])
            case Err(e) => ConvertItems(g, items, seen) == Err(e)
  {
    assert items[..i + 1][..i] == items[..i];
    if ToProtocolJsonValue(g, items[i], seen).Err? {
      ItemsFail(g, items, seen, i + 1);
    }
  }

  lemma FieldsNext(g: Graph, fields: seq<Field>, seen: set<nat>, i: nat)
    requires Closed(g) && FieldsKnown(g, fields) && i < |fields| && ConvertFields(g, fields[..i], seen).Ok?
    ensures match ToProtocolJsonValue(g, fields[i].value, seen)
            case Ok(j) =>
              var o := ConvertFields(g, fields[..i], seen).value;
              ConvertFields(g, fields[..i + 1], seen) == Ok(Assign(o.0, o.1, fields[i].key, j))
            case Err(e) => ConvertFields(g, fields, seen) == Err(e)
  {
    assert fields[..i + 1][..i] == fields[..i];
    if ToProtocolJsonValue(g, fields[i].value, seen).Err? {
      FieldsFail(g, fields, seen, i + 1);
    }
  }

  lemma SanitizeItemsNext(g: Graph, items: seq<Value>, seen: set<nat>, i: nat)
    requires Closed(g) && ItemsKnown(g, items) && i < |items| && SanitizeItems(g, items[..i], seen).Ok?
    ensures match Sanitize(g, items[i], seen)
            case Ok(o) =>
              SanitizeItems(g, items[..i + 1], seen) ==
              Ok(SanitizeItems(g, items[..i], seen).value + [if o.Some? then o.value else JNull])
            case Err(_) => SanitizeItems(g, items, seen) == Err(InvalidDate)
  {
    assert items[..i + 1][..i] == items[..i];
    ItemsSanitize(g, items, seen);
    if Sanitize(g, items[i], seen).Err? {
      var r := SanitizeItems(g, items, seen);
      assert r.Err? && r.error.InvalidDate?;
    }
  }

  lemma SanitizeFieldsNext(g: Graph, fields: seq<Field>, seen: set<nat>, i: nat)
    requires Closed(g) && FieldsKnown(g, fields) && i < |fields| && SanitizeFields(g, fields[..i], seen).Ok?
    ensures match Sanitize(g, fields[i].value, seen)
            case Ok(o) =>
              var r := SanitizeFields(g, fields[..i], seen).value;
              SanitizeFields(g, fields[..i + 1], seen) ==
              Ok(if o.Some? then Assign(r.0, r.1, fields[i].key, o.value) else r)
            case Err(_) => SanitizeFields(g, fields, seen) == Err(InvalidDate)
  {
    assert fields[..i + 1][..i] == fields[..i];
    FieldsSanitize(g, fields, seen);
    if Sanitize(g, fields[i].value, seen).Err? {
      var r := SanitizeFields(g, fields, seen);
      assert r.Err? && r.error.InvalidDate?;
    }
  }
}
