/** The lossy copy of a tool's diagnostic details: it never refuses a value because of a cycle or an
    unsupported leaf, and agrees with the strict conversion wherever that one succeeds. */
module Sanitizer {
  import opened Wrappers
  import opened Values
  import opened JsonConversion
  import opened JsonUnfolding

  datatype DateError = InvalidDate

  const CircularText := "[Circular]"

  /** `None` stands for undefined. */
  function Sanitize(g: Graph, v: Value, seen: set<nat>): Result<Option<Json>, DateError>
    requires Closed(g) && Known(g, v)
    decreases |g.Keys - seen|, 0, 0
  {
    match v
    case Null => Ok(Some(JNull))
    case Bool(b) => Ok(Some(JBool(b)))
    case Str(s) => Ok(Some(JString(s)))
    case Num(Finite(n)) => Ok(Some(JNumber(n)))
    case Num(NonFinite(text)) => Ok(Some(JString(text)))
    case BigInt(text) => Ok(Some(JString(text)))
    case Ref(id) =>
      if g[id].Date? then
        if g[id].iso == [] then Err(InvalidDate) else Ok(Some(JString(g[id].iso[0])))
      else if id in seen then Ok(Some(JString(CircularText)))
      else
        Enter(g, id, seen);
        (match g[id]
         case Arr(items) =>
           (match SanitizeItems(g, items, seen + {id})
            case Ok(js) => Ok(Some(JArray(js)))
            case Err(e) => Err(e))
         case Obj(_, fields) =>
           (match SanitizeFields(g, fields, seen + {id})
            case Ok(r) => Ok(Some(JObject(r.0, r.1)))
            case Err(e) => Err(e)))
    case _ => Ok(None)
  }

  function SanitizeItems(g: Graph, items: seq<Value>, seen: set<nat>): Result<seq<Json>, DateError>
    requires Closed(g) && ItemsKnown(g, items)
    decreases |g.Keys - seen|, 1, |items|
  {
    if items == [] then Ok([])
    else
      match SanitizeItems(g, items[..|items| - 1], seen)
      case Err(e) => Err(e)
      case Ok(js) =>
        match Sanitize(g, items[|items| - 1], seen)
        case Err(e) => Err(e)
        case Ok(None) => Ok(js + [JNull])
        case Ok(Some(j)) => Ok(js + [j])
  }

  function SanitizeFields(g: Graph, fields: seq<Field>, seen: set<nat>): Result<(Proto, seq<Member>), DateError>
    requires Closed(g) && FieldsKnown(g, fields)
    decreases |g.Keys - seen|, 1, |fields|
  {
    if fields == [] then Ok((Plain, []))
    else
      match SanitizeFields(g, fields[..|fields| - 1], seen)
      case Err(e) => Err(e)
      case Ok(r) =>
        match Sanitize(g, fields[|fields| - 1].value, seen)
        case Err(e) => Err(e)
        case Ok(None) => Ok(r)
        case Ok(Some(j)) => Ok(Assign(r.0, r.1, fields[|fields| - 1].key, j))
  }

  /** Where the strict conversion succeeds, sanitizing gives the same: on JSON trees it is the
      identity. */
  lemma {:induction false} SanitizeKeepsJson(g: Graph, v: Value, seen: set<nat>)
    requires Closed(g) && Known(g, v) && ToProtocolJsonValue(g, v, seen).Ok?
    ensures Sanitize(g, v, seen) == Ok(Some(ToProtocolJsonValue(g, v, seen).value))
    decreases |g.Keys - seen|, 0, 0
  {
    if v.Ref? {
      Enter(g, v.id, seen);
      match g[v.id]
      case Arr(items) => SanitizeKeepsItems(g, items, seen + {v.id});
      case Obj(_, fields) => SanitizeKeepsFields(g, fields, seen + {v.id});
      case Date(_) =>
    }
  }

  lemma {:induction false} SanitizeKeepsItems(g: Graph, items: seq<Value>, seen: set<nat>)
    requires Closed(g) && ItemsKnown(g, items) && ConvertItems(g, items, seen).Ok?
    ensures SanitizeItems(g, items, seen) == Ok(ConvertItems(g, items, seen).value)
    decreases |g.Keys - seen|, 1, |items|
  {
    if items != [] {
      SanitizeKeepsItems(g, items[..|items| - 1], seen);
      SanitizeKeepsJson(g, items[|items| - 1], seen);
    }
  }

  lemma {:induction false} SanitizeKeepsFields(g: Graph, fields: seq<Field>, seen: set<nat>)
    requires Closed(g) && FieldsKnown(g, fields) && ConvertFields(g, fields, seen).Ok?
    ensures SanitizeFields(g, fields, seen) == Ok(ConvertFields(g, fields, seen).value)
    decreases |g.Keys - seen|, 1, |fields|
  {
    if fields != [] {
      SanitizeKeepsFields(g, fields[..|fields| - 1], seen);
      SanitizeKeepsJson(g, fields[|fields| - 1].value, seen);
    }
  }

  // ---- Simple paths ----

  /** The nodes a sanitizer can be inside of: a path that meets no node twice. */
  ghost predicate Visits(g: Graph, v: Value, seen: set<nat>, path: seq<nat>) {
    IsPath(g, v, path) && path != [] && Distinct(path) && Avoids(path, seen)
  }

  function PathSet(path: seq<nat>): set<nat> {
    set x | x in path
  }

  lemma VisitsChild(g: Graph, id: nat, i: nat, seen: set<nat>, rest: seq<nat>)
    requires id in g && i < |Children(g[id])| && id !in seen && Visits(g, Children(g[id])[i], seen + {id}, rest)
    ensures Visits(g, Ref(id), seen, [id] + rest)
    ensures ([id] + rest)[|rest|] == rest[|rest| - 1]
    ensures PathSet([id] + rest) + seen == PathSet(rest) + (seen + {id})
  {
    PathThrough(g, id, i, rest);
    var path := [id] + rest;
    assert forall k :: 0 < k < |path| ==> path[k] == rest[k - 1];
    assert rest[|rest| - 1] in rest;
  }

  lemma VisitsBelow(g: Graph, id: nat, seen: set<nat>, path: seq<nat>) returns (i: nat)
    requires id in g && Visits(g, Ref(id), seen, path) && |path| > 1
    ensures path[0] == id && i < |Children(g[id])| && Visits(g, Children(g[id])[i], seen + {id}, path[1..])
    ensures path[1..][|path| - 2] == path[|path| - 1]
    ensures PathSet(path) + seen == PathSet(path[1..]) + (seen + {id})
  {
    var j :| 0 <= j < |Children(g[id])| && IsPath(g, Children(g[id])[j], path[1..]);
    i := j;
    var rest := path[1..];
    assert forall k :: 0 <= k < |rest| ==> rest[k] == path[k + 1];
    assert rest[|rest| - 1] == path[|path| - 1];
    assert path == [id] + rest;
    assert PathSet(path) == PathSet(rest) + {id};
  }

  // ---- What a sanitizer meets on the way ----

  /** A date that cannot be written, or a property `__proto__` whose copy becomes a prototype. */
  datatype Sight = BadDate | LostProto

  /** What a sanitizer meets at a node while it is inside of these nodes. */
  predicate Shows(g: Graph, sight: Sight, id: nat, inside: set<nat>) {
    && id in g
    && match sight
       case BadDate => g[id] == Date([])
       case LostProto =>
         g[id].Obj? && exists i :: 0 <= i < |g[id].fields| && g[id].fields[i].key == ProtoKey &&
                                   BecomesProto(g, g[id].fields[i].value, inside)
  }

  /** The copy is null, an array or an object. */
  predicate BecomesProto(g: Graph, v: Value, inside: set<nat>) {
    v == Null || (v.Ref? && v.id in g && !g[v.id].Date? && v.id !in inside)
  }

  ghost predicate Meets(g: Graph, v: Value, seen: set<nat>, sight: Sight) {
    exists path :: Visits(g, v, seen, path) && Shows(g, sight, path[|path| - 1], PathSet(path) + seen)
  }

  lemma MeetsBelow(g: Graph, id: nat, i: nat, seen: set<nat>, sight: Sight)
    requires id in g && id !in seen && i < |Children(g[id])| && Meets(g, Children(g[id])[i], seen + {id}, sight)
    ensures Meets(g, Ref(id), seen, sight)
  {
    var rest :| Visits(g, Children(g[id])[i], seen + {id}, rest) &&
                Shows(g, sight, rest[|rest| - 1], PathSet(rest) + (seen + {id}));
    VisitsChild(g, id, i, seen, rest);
    assert Visits(g, Ref(id), seen, [id] + rest);
  }

  lemma MeetsHere(g: Graph, id: nat, seen: set<nat>, sight: Sight)
    requires id in g && id !in seen && Shows(g, sight, id, seen + {id})
    ensures Meets(g, Ref(id), seen, sight)
  {
    assert Visits(g, Ref(id), seen, [id]);
    assert PathSet([id]) + seen == seen + {id};
  }

  lemma MeetsStep(g: Graph, id: nat, seen: set<nat>, sight: Sight)
    requires id in g && id !in seen
    ensures Meets(g, Ref(id), seen, sight) <==>
            || Shows(g, sight, id, seen + {id})
            || exists i :: 0 <= i < |Children(g[id])| && Meets(g, Children(g[id])[i], seen + {id}, sight)
  {
    if Meets(g, Ref(id), seen, sight) {
      var path :| Visits(g, Ref(id), seen, path) && Shows(g, sight, path[|path| - 1], PathSet(path) + seen);
      if |path| > 1 {
        var i := VisitsBelow(g, id, seen, path);
        assert Meets(g, Children(g[id])[i], seen + {id}, sight);
      } else {
        assert path == [id];
        assert PathSet([id]) + seen == seen + {id};
      }
    }
    if Shows(g, sight, id, seen + {id}) {
      MeetsHere(g, id, seen, sight);
    }
    if i :| 0 <= i < |Children(g[id])| && Meets(g, Children(g[id])[i], seen + {id}, sight) {
      MeetsBelow(g, id, i, seen, sight);
    }
  }

  lemma {:induction false} ItemsSanitize(g: Graph, items: seq<Value>, seen: set<nat>)
    requires Closed(g) && ItemsKnown(g, items)
    ensures SanitizeItems(g, items, seen).Ok? <==> forall i :: 0 <= i < |items| ==> Sanitize(g, items[i], seen).Ok?
    ensures SanitizeItems(g, items, seen).Ok? ==>
              var js := SanitizeItems(g, items, seen).value;
              && |js| == |items|
              && forall i :: 0 <= i < |items| ==>
                   var r := Sanitize(g, items[i], seen);
                   r.Ok? && js[i] == if r.value.Some? then r.value.value else JNull
    decreases |items|
  {
    if items != [] {
      ItemsSanitize(g, items[..|items| - 1], seen);
    }
  }

  lemma {:induction false} FieldsSanitize(g: Graph, fields: seq<Field>, seen: set<nat>)
    requires Closed(g) && FieldsKnown(g, fields)
    ensures SanitizeFields(g, fields, seen).Ok? <==>
            forall i :: 0 <= i < |fields| ==> Sanitize(g, fields[i].value, seen).Ok?
    decreases |fields|
  {
    if fields != [] {
      FieldsSanitize(g, fields[..|fields| - 1], seen);
    }
  }

  ghost predicate NoDates(g: Graph, seen: set<nat>) {
    forall id :: id in seen && id in g ==> !g[id].Date?
  }

  lemma ChildrenSanitize(g: Graph, id: nat, seen: set<nat>)
    requires Closed(g) && id in g && id !in seen && !g[id].Date?
    ensures Sanitize(g, Ref(id), seen).Ok? <==>
            forall i :: 0 <= i < |Children(g[id])| ==> Sanitize(g, Children(g[id])[i], seen + {id}).Ok?
  {
    match g[id]
    case Arr(items) =>
      ItemsSanitize(g, items, seen + {id});
      assert Children(g[id]) == items;
    case Obj(_, fields) =>
      FieldsSanitize(g, fields, seen + {id});
      assert forall i :: 0 <= i < |fields| ==> Children(g[id])[i] == fields[i].value;
  }

  /** Sanitizing fails exactly when it meets an invalid date; cycles never make it fail. */
  lemma {:induction false} SanitizeFailsIff(g: Graph, v: Value, seen: set<nat>)
    requires Closed(g) && Known(g, v) && NoDates(g, seen)
    ensures Sanitize(g, v, seen).Err? <==> Meets(g, v, seen, BadDate)
    decreases |g.Keys - seen|
  {
    if v.Ref? && v.id !in seen {
      MeetsStep(g, v.id, seen, BadDate);
      if !g[v.id].Date? {
        Enter(g, v.id, seen);
        ChildrenSanitize(g, v.id, seen);
        forall i | 0 <= i < |Children(g[v.id])|
          ensures Sanitize(g, Children(g[v.id])[i], seen + {v.id}).Err? <==>
                  Meets(g, Children(g[v.id])[i], seen + {v.id}, BadDate)
        {
          SanitizeFailsIff(g, Children(g[v.id])[i], seen + {v.id});
        }
      }
    }
  }

  // ---- Sanitized details pass through the strict conversion ----

  /** The object made from these fields is ordinary throughout exactly when every copied member is,
      and no property `__proto__` became its prototype. */
  lemma {:induction false} FieldsPlainIff(g: Graph, fields: seq<Field>, seen: set<nat>)
    requires Closed(g) && FieldsKnown(g, fields) && SanitizeFields(g, fields, seen).Ok?
    ensures var (proto, ms) := SanitizeFields(g, fields, seen).value;
            AllPlain(JObject(proto, ms)) <==>
            forall i :: 0 <= i < |fields| ==> FieldPlain(g, fields[i], seen)
    decreases |fields|
  {
    if fields != [] {
      FieldsSanitize(g, fields, seen);
      var n := |fields| - 1;
      FieldsPlainIff(g, fields[..n], seen);
      var (proto, ms) := SanitizeFields(g, fields[..n], seen).value;
      var r := Sanitize(g, fields[n].value, seen).value;
      if r.Some? {
        AssignPlainIff(proto, ms, fields[n].key, r.value);
      }
    }
  }

  ghost predicate FieldPlain(g: Graph, field: Field, seen: set<nat>)
    requires Closed(g) && Known(g, field.value)
  {
    var r := Sanitize(g, field.value, seen);
    r.Ok? && r.value.Some? ==> AllPlain(r.value.value) && (field.key == ProtoKey ==> !ReplacesProto(r.value.value))
  }

  lemma AssignPlainIff(proto: Proto, ms: seq<Member>, key: string, j: Json)
    ensures var (proto', ms') := Assign(proto, ms, key, j);
            AllPlain(JObject(proto', ms')) <==>
            AllPlain(JObject(proto, ms)) && AllPlain(j) && (key == ProtoKey ==> !ReplacesProto(j))
  {
    if key != ProtoKey {
      var ms' := ms + [Member(key, j)];
      assert ms'[|ms|] == Member(key, j);
      assert forall i :: 0 <= i < |ms| ==> ms'[i] == ms[i];
    }
  }

  lemma ReplacesIff(g: Graph, v: Value, inside: set<nat>)
    requires Closed(g) && Known(g, v) && Sanitize(g, v, inside).Ok?
    ensures var r := Sanitize(g, v, inside).value;
            (r.Some? && ReplacesProto(r.value)) <==> BecomesProto(g, v, inside)
  {
  }

  /** The sanitized tree has ordinary objects only, exactly when no property `__proto__` met on the
      way has a copy that is null, an array or an object. */
  lemma {:induction false} PlainIffNothingLost(g: Graph, v: Value, seen: set<nat>)
    requires Closed(g) && Known(g, v) && Sanitize(g, v, seen).Ok? && Sanitize(g, v, seen).value.Some?
    ensures AllPlain(Sanitize(g, v, seen).value.value) <==> !Meets(g, v, seen, LostProto)
    decreases |g.Keys - seen|, 3
  {
    if v.Ref? && v.id !in seen && !g[v.id].Date? {
      NodePlainIff(g, v.id, seen);
    } else {
      ScalarIsPlain(g, v, seen);
    }
  }

  lemma ScalarIsPlain(g: Graph, v: Value, seen: set<nat>)
    requires Closed(g) && Known(g, v) && Sanitize(g, v, seen).Ok? && Sanitize(g, v, seen).value.Some?
    requires v.Ref? ==> v.id in seen || g[v.id].Date?
    ensures AllPlain(Sanitize(g, v, seen).value.value) && !Meets(g, v, seen, LostProto)
  {
    if v.Ref? && v.id !in seen {
      MeetsStep(g, v.id, seen, LostProto);
    }
  }

  lemma {:induction false} NodePlainIff(g: Graph, id: nat, seen: set<nat>)
    requires Closed(g) && id in g && id !in seen && !g[id].Date? && Sanitize(g, Ref(id), seen).Ok?
    ensures AllPlain(Sanitize(g, Ref(id), seen).value.value) <==> !Meets(g, Ref(id), seen, LostProto)
    decreases |g.Keys - seen|, 2
  {
    if g[id].Arr? {
      ArrayPlainIff(g, id, seen);
    } else {
      ObjectPlainIff(g, id, seen);
    }
  }

  lemma {:induction false} ArrayPlainIff(g: Graph, id: nat, seen: set<nat>)
    requires Closed(g) && id in g && id !in seen && g[id].Arr? && Sanitize(g, Ref(id), seen).Ok?
    ensures AllPlain(Sanitize(g, Ref(id), seen).value.value) <==> !Meets(g, Ref(id), seen, LostProto)
    decreases |g.Keys - seen|, 1
  {
    Enter(g, id, seen);
    var items := g[id].items;
    ItemsPlainIff(g, items, seen + {id});
    assert Children(g[id]) == items;
    MeetsStep(g, id, seen, LostProto);
  }

  lemma {:induction false} ObjectPlainIff(g: Graph, id: nat, seen: set<nat>)
    requires Closed(g) && id in g && id !in seen && g[id].Obj? && Sanitize(g, Ref(id), seen).Ok?
    ensures AllPlain(Sanitize(g, Ref(id), seen).value.value) <==> !Meets(g, Ref(id), seen, LostProto)
    decreases |g.Keys - seen|, 1
  {
    Enter(g, id, seen);
    MembersPlainIff(g, g[id].fields, seen + {id});
    ProtoShows(g, id, seen + {id});
    MeetsStep(g, id, seen, LostProto);
  }

  lemma ProtoShows(g: Graph, id: nat, inside: set<nat>)
    requires id in g && g[id].Obj?
    ensures var fields := g[id].fields;
            (forall i :: 0 <= i < |fields| ==>
               && !Meets(g, fields[i].value, inside, LostProto)
               && !(fields[i].key == ProtoKey && BecomesProto(g, fields[i].value, inside))) <==>
            && !Shows(g, LostProto, id, inside)
            && forall i :: 0 <= i < |Children(g[id])| ==> !Meets(g, Children(g[id])[i], inside, LostProto)
  {
    assert forall i :: 0 <= i < |g[id].fields| ==> Children(g[id])[i] == g[id].fields[i].value;
  }

  lemma {:induction false} ItemsPlainIff(g: Graph, items: seq<Value>, seen: set<nat>)
    requires Closed(g) && ItemsKnown(g, items) && SanitizeItems(g, items, seen).Ok?
    ensures AllPlain(JArray(SanitizeItems(g, items, seen).value)) <==>
            forall i :: 0 <= i < |items| ==> !Meets(g, items[i], seen, LostProto)
    decreases |g.Keys - seen|, 4
  {
    ItemsSanitize(g, items, seen);
    var js := SanitizeItems(g, items, seen).value;
    forall i | 0 <= i < |items|
      ensures AllPlain(js[i]) <==> !Meets(g, items[i], seen, LostProto)
    {
      if Sanitize(g, items[i], seen).value.Some? {
        PlainIffNothingLost(g, items[i], seen);
      }
    }
  }

  lemma {:induction false} MembersPlainIff(g: Graph, fields: seq<Field>, seen: set<nat>)
    requires Closed(g) && FieldsKnown(g, fields) && SanitizeFields(g, fields, seen).Ok?
    ensures var (proto, ms) := SanitizeFields(g, fields, seen).value;
            AllPlain(JObject(proto, ms)) <==>
            forall i :: 0 <= i < |fields| ==>
              && !Meets(g, fields[i].value, seen, LostProto)
              && !(fields[i].key == ProtoKey && BecomesProto(g, fields[i].value, seen))
    decreases |g.Keys - seen|, 4
  {
    FieldsSanitize(g, fields, seen);
    FieldsPlainIff(g, fields, seen);
    forall i | 0 <= i < |fields|
      ensures FieldPlain(g, fields[i], seen) <==>
              && !Meets(g, fields[i].value, seen, LostProto)
              && !(fields[i].key == ProtoKey && BecomesProto(g, fields[i].value, seen))
    {
      ReplacesIff(g, fields[i].value, seen);
      if Sanitize(g, fields[i].value, seen).value.Some? {
        PlainIffNothingLost(g, fields[i].value, seen);
      }
    }
  }

  /** A sanitized tree never has a property `__proto__`. */
  lemma {:induction false} SanitizedHasNoProto(g: Graph, v: Value, seen: set<nat>)
    requires Closed(g) && Known(g, v) && Sanitize(g, v, seen).Ok? && Sanitize(g, v, seen).value.Some?
    ensures NoProtoMember(Sanitize(g, v, seen).value.value)
    decreases |g.Keys - seen|, 0, 0
  {
    if v.Ref? && v.id !in seen {
      Enter(g, v.id, seen);
      match g[v.id]
      case Arr(items) =>
        ItemsSanitize(g, items, seen + {v.id});
        forall i | 0 <= i < |items| && Sanitize(g, items[i], seen + {v.id}).value.Some?
          ensures NoProtoMember(Sanitize(g, items[i], seen + {v.id}).value.value)
        {
          SanitizedHasNoProto(g, items[i], seen + {v.id});
        }
      case Obj(_, fields) => FieldsHaveNoProto(g, fields, seen + {v.id});
      case Date(_) =>
    }
  }

  lemma {:induction false} FieldsHaveNoProto(g: Graph, fields: seq<Field>, seen: set<nat>)
    requires Closed(g) && FieldsKnown(g, fields) && SanitizeFields(g, fields, seen).Ok?
    ensures NoProtoMember(JObject(Plain, SanitizeFields(g, fields, seen).value.1))
    decreases |g.Keys - seen|, 1, |fields|
  {
    if fields != [] {
      FieldsHaveNoProto(g, fields[..|fields| - 1], seen);
      if Sanitize(g, fields[|fields| - 1].value, seen).value.Some? {
        SanitizedHasNoProto(g, fields[|fields| - 1].value, seen);
      }
    }
  }

  /** A defined result, held as a value in any way, passes through the strict conversion unchanged,
      and the protocol's test accepts it, exactly when no property `__proto__` met on the way has a
      copy that is null, an array or an object. */
  lemma SanitizedPassesIff(g: Graph, v: Value, h: Graph, w: Value, j: Json)
    requires Closed(g) && Known(g, v) && Sanitize(g, v, {}) == Ok(Some(j))
    requires Closed(h) && Known(h, w) && Denotes(h, w, j)
    ensures ToProtocolJsonValue(h, w, {}) == Ok(j) <==> !Meets(g, v, {}, LostProto)
    ensures IsProtocolValue(h, w, false, {}) <==> !Meets(g, v, {}, LostProto)
  {
    SanitizedHasNoProto(g, v, {});
    PlainIffNothingLost(g, v, {});
    UnchangedIffPlain(h, w, j);
    AcceptedIffPlain(h, w, j);
  }

  /** The same holds of the strict conversion's own result. */
  lemma ConvertedPassesIff(g: Graph, v: Value, h: Graph, w: Value, j: Json)
    requires Closed(g) && Known(g, v) && ToProtocolJsonValue(g, v, {}) == Ok(j)
    requires Closed(h) && Known(h, w) && Denotes(h, w, j)
    ensures ToProtocolJsonValue(h, w, {}) == Ok(j) <==> !Meets(g, v, {}, LostProto)
    ensures IsProtocolValue(h, w, false, {}) <==> !Meets(g, v, {}, LostProto)
  {
    SanitizeKeepsJson(g, v, {});
    SanitizedPassesIff(g, v, h, w, j);
  }

  /** A plain object with a property `__proto__` that holds an object: it converts and sanitizes to the
      same tree, and a value with that content is refused by both later checks. */
  lemma CopyIsRefused()
    ensures var g: Graph := map[0 := Obj(PlainKind, [Field(ProtoKey, Ref(1))]), 1 := Obj(PlainKind, [])];
            var h: Graph := map[0 := Obj(OtherKind, [])];
            var j := JObject(Inherits(JObject(Plain, [])), []);
            && Closed(g) && ToProtocolJsonValue(g, Ref(0), {}) == Ok(j) && Sanitize(g, Ref(0), {}) == Ok(Some(j))
            && Closed(h) && Denotes(h, Ref(0), j)
            && ToProtocolJsonValue(h, Ref(0), {}) == Err(NotPlain) && !IsProtocolValue(h, Ref(0), false, {})
  {
    var g: Graph := map[0 := Obj(PlainKind, [Field(ProtoKey, Ref(1))]), 1 := Obj(PlainKind, [])];
    ProtoKeyIsLost();
    SanitizeKeepsJson(g, Ref(0), {});
  }
}
