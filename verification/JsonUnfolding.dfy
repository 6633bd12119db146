/** What a conversion returns: the tree unfolding of the value, unless a property called `__proto__`
    is on the way; and what becomes of the returned tree when it is checked or converted again. */
module JsonUnfolding {
  import opened Wrappers
  import opened Values
  import opened JsonConversion

  predicate NoProtoField(node: Node) {
    node.Obj? ==> forall i :: 0 <= i < |node.fields| ==> node.fields[i].key != ProtoKey
  }

  /** No object on a path from `v` has a property called `__proto__`. */
  ghost predicate NoProtoReachable(g: Graph, v: Value) {
    forall path :: IsPath(g, v, path) && path != [] ==>
      path[|path| - 1] in g && NoProtoField(g[path[|path| - 1]])
  }

  lemma NoProtoStep(g: Graph, id: nat)
    requires id in g
    ensures NoProtoReachable(g, Ref(id)) <==>
            NoProtoField(g[id]) && forall i :: 0 <= i < |Children(g[id])| ==> NoProtoReachable(g, Children(g[id])[i])
  {
    var children := Children(g[id]);
    if NoProtoReachable(g, Ref(id)) {
      assert IsPath(g, Ref(id), [id]);
      forall i | 0 <= i < |children|
        ensures NoProtoReachable(g, children[i])
      {
        forall rest | IsPath(g, children[i], rest) && rest != []
          ensures rest[|rest| - 1] in g && NoProtoField(g[rest[|rest| - 1]])
        {
          PathThrough(g, id, i, rest);
          assert ([id] + rest)[|rest|] == rest[|rest| - 1];
        }
      }
    }
    if NoProtoField(g[id]) && forall i :: 0 <= i < |children| ==> NoProtoReachable(g, children[i]) {
      forall path | IsPath(g, Ref(id), path) && path != []
        ensures path[|path| - 1] in g && NoProtoField(g[path[|path| - 1]])
      {
        if path[1..] != [] {
          var i :| 0 <= i < |children| && IsPath(g, children[i], path[1..]);
          assert path[|path| - 1] == path[1..][|path| - 2];
        }
      }
    }
  }

  lemma ScalarUnfolds(g: Graph, v: Value, seen: set<nat>)
    requires Closed(g) && !v.Ref? && ToProtocolJsonValue(g, v, seen).Ok?
    ensures Unfolds(g, v, ToProtocolJsonValue(g, v, seen).value) && NoProtoReachable(g, v)
  {
  }

  /** A conversion that succeeds returns the tree unfolding exactly when no object it visited has a
      property called `__proto__`. */
  lemma {:induction false} ConvertedUnfoldsIff(g: Graph, v: Value, seen: set<nat>)
    requires Closed(g) && Known(g, v) && ToProtocolJsonValue(g, v, seen).Ok?
    ensures Unfolds(g, v, ToProtocolJsonValue(g, v, seen).value) <==> NoProtoReachable(g, v)
    decreases |g.Keys - seen|, 1
  {
    match v
    case Ref(id) =>
      NoProtoStep(g, id);
      if g[id].Arr? {
        ConvertedItemsUnfoldIff(g, id, seen);
      } else {
        ConvertedFieldsUnfoldIff(g, id, seen);
      }
    case _ => ScalarUnfolds(g, v, seen);
  }

  lemma {:induction false} ConvertedItemsUnfoldIff(g: Graph, id: nat, seen: set<nat>)
    requires Closed(g) && id in g && g[id].Arr? && ToProtocolJsonValue(g, Ref(id), seen).Ok?
    ensures Unfolds(g, Ref(id), ToProtocolJsonValue(g, Ref(id), seen).value) <==>
            forall i :: 0 <= i < |Children(g[id])| ==> NoProtoReachable(g, Children(g[id])[i])
    decreases |g.Keys - seen|, 0
  {
    Enter(g, id, seen);
    var items := g[id].items;
    assert Children(g[id]) == items;
    ItemsConvert(g, items, seen + {id});
    var js := ConvertItems(g, items, seen + {id}).value;
    forall i | 0 <= i < |items|
      ensures Unfolds(g, items[i], js[i]) <==> NoProtoReachable(g, items[i])
    {
      ConvertedUnfoldsIff(g, items[i], seen + {id});
    }
  }

  lemma {:induction false} ConvertedFieldsUnfoldIff(g: Graph, id: nat, seen: set<nat>)
    requires Closed(g) && id in g && g[id].Obj? && ToProtocolJsonValue(g, Ref(id), seen).Ok?
    ensures Unfolds(g, Ref(id), ToProtocolJsonValue(g, Ref(id), seen).value) <==>
            && NoProtoField(g[id])
            && forall i :: 0 <= i < |Children(g[id])| ==> NoProtoReachable(g, Children(g[id])[i])
    decreases |g.Keys - seen|, 0
  {
    Enter(g, id, seen);
    var fields := g[id].fields;
    FieldsConvert(g, fields, seen + {id});
    var (proto, ms) := ConvertFields(g, fields, seen + {id}).value;
    if |ms| == |fields| {
      forall i | 0 <= i < |fields|
        ensures Children(g[id])[i] == fields[i].value
        ensures Unfolds(g, fields[i].value, ms[i].value) <==> NoProtoReachable(g, fields[i].value)
      {
        ConvertedUnfoldsIff(g, fields[i].value, seen + {id});
      }
    }
  }

  /** Every node of `seen` has a longer path below it than `n`. */
  ghost predicate Deeper(g: Graph, seen: set<nat>, n: nat) {
    forall id :: id in seen ==> !Fits(g, Ref(id), n)
  }

  /** A value with an unfolding is converted to it. */
  lemma {:induction false} UnfoldingConverts(g: Graph, v: Value, j: Json, seen: set<nat>, n: nat)
    requires Closed(g) && Known(g, v) && Unfolds(g, v, j) && NoProtoMember(j)
    requires Fits(g, v, n) && Deeper(g, seen, n)
    ensures ToProtocolJsonValue(g, v, seen) == Ok(j)
    decreases n, 1
  {
    if v.Ref? {
      ShallowerSeen(g, seen, n);
      if Fits(g, v, n - 1) {
        UnfoldingConverts(g, v, j, seen, n - 1);
      } else if g[v.id].Arr? {
        UnfoldingItemsConvert(g, v.id, j, seen, n);
      } else {
        UnfoldingFieldsConvert(g, v.id, j, seen, n);
      }
    }
  }

  lemma {:induction false} UnfoldingItemsConvert(g: Graph, id: nat, j: Json, seen: set<nat>, n: nat)
    requires Closed(g) && Unfolds(g, Ref(id), j) && NoProtoMember(j) && g[id].Arr?
    requires n > 0 && Fits(g, Ref(id), n) && id !in seen && Deeper(g, seen + {id}, n - 1)
    ensures ToProtocolJsonValue(g, Ref(id), seen) == Ok(j)
    decreases n, 0
  {
    Enter(g, id, seen);
    var items := g[id].items;
    ItemsConvert(g, items, seen + {id});
    forall i | 0 <= i < |items|
      ensures ToProtocolJsonValue(g, items[i], seen + {id}) == Ok(j.items[i])
    {
      assert Children(g[id])[i] == items[i];
      UnfoldingConverts(g, items[i], j.items[i], seen + {id}, n - 1);
    }
    assert ConvertItems(g, items, seen + {id}).value == j.items;
  }

  lemma {:induction false} UnfoldingFieldsConvert(g: Graph, id: nat, j: Json, seen: set<nat>, n: nat)
    requires Closed(g) && Unfolds(g, Ref(id), j) && NoProtoMember(j) && g[id].Obj?
    requires n > 0 && Fits(g, Ref(id), n) && id !in seen && Deeper(g, seen + {id}, n - 1)
    ensures ToProtocolJsonValue(g, Ref(id), seen) == Ok(j)
    decreases n, 0
  {
    Enter(g, id, seen);
    var fields := g[id].fields;
    FieldsConvert(g, fields, seen + {id});
    forall i | 0 <= i < |fields|
      ensures j.members[i].key == fields[i].key != ProtoKey
      ensures ToProtocolJsonValue(g, fields[i].value, seen + {id}) == Ok(j.members[i].value)
    {
      assert Children(g[id])[i] == fields[i].value;
      UnfoldingConverts(g, fields[i].value, j.members[i].value, seen + {id}, n - 1);
    }
    assert ConvertFields(g, fields, seen + {id}).value.1 == j.members;
  }

  lemma ShallowerSeen(g: Graph, seen: set<nat>, n: nat)
    requires Deeper(g, seen, n)
    ensures n > 0 ==> Deeper(g, seen, n - 1)
  {
    if n > 0 {
      forall id | id in seen ensures !Fits(g, Ref(id), n - 1) {
        if Fits(g, Ref(id), n - 1) {
          FitsMore(g, Ref(id), n - 1, n);
        }
      }
    }
  }

  /** The conversion computes the tree unfolding: on a value from which no property `__proto__` is
      reachable it returns `j` exactly when `j` is the value's unfolding. */
  lemma ConversionIsUnfolding(g: Graph, v: Value, j: Json)
    requires Closed(g) && Known(g, v) && NoProtoReachable(g, v)
    ensures ToProtocolJsonValue(g, v, {}) == Ok(j) <==> Unfolds(g, v, j)
  {
    if ToProtocolJsonValue(g, v, {}) == Ok(j) {
      ConvertedUnfoldsIff(g, v, {});
    }
    if Unfolds(g, v, j) {
      var n := UnfoldingIsFinite(g, v, j);
      UnfoldingHasNoProto(g, v, j);
      UnfoldingConverts(g, v, j, {}, n);
    }
  }

  lemma {:induction false} UnfoldingHasNoProto(g: Graph, v: Value, j: Json)
    requires Unfolds(g, v, j) && NoProtoReachable(g, v)
    ensures NoProtoMember(j)
    decreases j
  {
    if v.Ref? {
      NoProtoStep(g, v.id);
      match g[v.id]
      case Arr(items) =>
        forall i | 0 <= i < |items| ensures NoProtoMember(j.items[i]) {
          assert Children(g[v.id])[i] == items[i];
          UnfoldingHasNoProto(g, items[i], j.items[i]);
        }
      case Obj(_, fields) =>
        forall i | 0 <= i < |fields| ensures NoProtoMember(j.members[i].value) {
          assert Children(g[v.id])[i] == fields[i].value;
          UnfoldingHasNoProto(g, fields[i].value, j.members[i].value);
        }
      case Date(_) =>
    }
  }

  /** A plain object with a property `__proto__` that holds a JSON object: the conversion succeeds,
      but the property is gone and has become the prototype of the copy. */
  lemma ProtoKeyIsLost()
    ensures var g: Graph := map[0 := Obj(PlainKind, [Field(ProtoKey, Ref(1))]), 1 := Obj(PlainKind, [])];
            && Closed(g)
            && ToProtocolJsonValue(g, Ref(0), {}) == Ok(JObject(Inherits(JObject(Plain, [])), []))
            && Unfolds(g, Ref(0), JObject(Plain, [Member(ProtoKey, JObject(Plain, []))]))
  {
    var g: Graph := map[0 := Obj(PlainKind, [Field(ProtoKey, Ref(1))]), 1 := Obj(PlainKind, [])];
    var fields := [Field(ProtoKey, Ref(1))];
    assert ConvertFields(g, [], {0, 1}) == Ok((Plain, []));
    assert {0} + {1} == {0, 1};
    assert ToProtocolJsonValue(g, Ref(1), {0}) == Ok(JObject(Plain, []));
    assert fields[..0] == [];
    assert ConvertFields(g, fields, {0}) == Ok((Inherits(JObject(Plain, [])), []));
    assert {} + {0} == {0};
  }

  // ---- The returned tree as a value again ----

  lemma {:induction false} DenotingIsFinite(g: Graph, v: Value, j: Json) returns (n: nat)
    requires Denotes(g, v, j)
    ensures Fits(g, v, n)
    decreases j
  {
    n := 0;
    if v.Ref? {
      var children := Children(g[v.id]);
      for i := 0 to |children|
        invariant forall k :: 0 <= k < i ==> Fits(g, children[..i][k], n)
      {
        var m := DenotingIsFinite(g, children[i], if j.JArray? then j.items[i] else j.members[i].value);
        AllFitMore(g, children[..i], n, n + m);
        FitsMore(g, children[i], m, n + m);
        n := n + m;
        assert children[..i + 1] == children[..i] + [children[i]];
      }
      assert children[..|children|] == children;
      n := n + 1;
    }
  }

  lemma {:induction false} PlainIsProtocolValue(h: Graph, w: Value, j: Json, optional: bool, seen: set<nat>, n: nat)
    requires Closed(h) && Known(h, w) && Denotes(h, w, j) && AllPlain(j)
    requires Fits(h, w, n) && Deeper(h, seen, n)
    ensures IsProtocolValue(h, w, optional, seen)
    decreases n, 1
  {
    if w.Ref? {
      ShallowerSeen(h, seen, n);
      if Fits(h, w, n - 1) {
        PlainIsProtocolValue(h, w, j, optional, seen, n - 1);
      } else {
        PlainChildren(h, w.id, j, seen, n);
      }
    }
  }

  lemma {:induction false} PlainChildren(h: Graph, id: nat, j: Json, seen: set<nat>, n: nat)
    requires Closed(h) && Denotes(h, Ref(id), j) && AllPlain(j) && n > 0 && Fits(h, Ref(id), n)
    requires Deeper(h, seen + {id}, n - 1)
    requires id !in seen
    ensures IsProtocolValue(h, Ref(id), false, seen) && IsProtocolValue(h, Ref(id), true, seen)
    decreases n, 0
  {
    var children := Children(h[id]);
    Enter(h, id, seen);
    forall i, optional | 0 <= i < |children|
      ensures Known(h, children[i]) && IsProtocolValue(h, children[i], optional, seen + {id})
    {
      var part := if j.JArray? then j.items[i] else j.members[i].value;
      PlainIsProtocolValue(h, children[i], part, optional, seen + {id}, n - 1);
    }
    match h[id]
    case Arr(items) => assert children == items;
    case Obj(_, fields) => assert forall i :: 0 <= i < |fields| ==> children[i] == fields[i].value;
    case Date(_) =>
  }

  lemma {:induction false} ProtocolValueIsPlain(h: Graph, w: Value, j: Json, optional: bool, seen: set<nat>)
    requires Closed(h) && Known(h, w) && Denotes(h, w, j) && IsProtocolValue(h, w, optional, seen)
    ensures AllPlain(j)
    decreases j
  {
    if w.Ref? {
      Enter(h, w.id, seen);
      match h[w.id]
      case Arr(items) =>
        forall i | 0 <= i < |items| ensures AllPlain(j.items[i]) {
          assert Children(h[w.id])[i] == items[i];
          ProtocolValueIsPlain(h, items[i], j.items[i], false, seen + {w.id});
        }
      case Obj(_, fields) =>
        forall i | 0 <= i < |fields| ensures AllPlain(j.members[i].value) {
          assert Children(h[w.id])[i] == fields[i].value;
          ProtocolValueIsPlain(h, fields[i].value, j.members[i].value, true, seen + {w.id});
        }
      case Date(_) =>
    }
  }

  /** The protocol's test accepts a tree, however it is held, exactly when its objects are ordinary. */
  lemma AcceptedIffPlain(h: Graph, w: Value, j: Json)
    requires Closed(h) && Known(h, w) && Denotes(h, w, j)
    ensures IsProtocolValue(h, w, false, {}) <==> AllPlain(j)
  {
    if AllPlain(j) {
      var n := DenotingIsFinite(h, w, j);
      PlainIsProtocolValue(h, w, j, false, {}, n);
    }
    if IsProtocolValue(h, w, false, {}) {
      ProtocolValueIsPlain(h, w, j, false, {});
    }
  }

  /** What the conversion makes of a tree without properties `__proto__` is ordinary throughout. */
  lemma {:induction false} ConvertedAgainIsPlain(h: Graph, w: Value, j: Json, seen: set<nat>)
    requires Closed(h) && Known(h, w) && Denotes(h, w, j) && NoProtoMember(j)
    requires ToProtocolJsonValue(h, w, seen).Ok?
    ensures AllPlain(ToProtocolJsonValue(h, w, seen).value)
    decreases j
  {
    if w.Ref? {
      Enter(h, w.id, seen);
      match h[w.id]
      case Arr(items) =>
        ItemsConvert(h, items, seen + {w.id});
        forall i | 0 <= i < |items|
          ensures AllPlain(ToProtocolJsonValue(h, items[i], seen + {w.id}).value)
        {
          ConvertedAgainIsPlain(h, items[i], j.items[i], seen + {w.id});
        }
      case Obj(_, fields) =>
        FieldsConvert(h, fields, seen + {w.id});
        forall i | 0 <= i < |fields|
          ensures fields[i].key != ProtoKey
          ensures AllPlain(ToProtocolJsonValue(h, fields[i].value, seen + {w.id}).value)
        {
          assert j.members[i].key == fields[i].key;
          ConvertedAgainIsPlain(h, fields[i].value, j.members[i].value, seen + {w.id});
        }
      case Date(_) =>
    }
  }

  /** Converting a tree again changes nothing, exactly when its objects are ordinary. */
  lemma UnchangedIffPlain(h: Graph, w: Value, j: Json)
    requires Closed(h) && Known(h, w) && Denotes(h, w, j) && NoProtoMember(j)
    ensures ToProtocolJsonValue(h, w, {}) == Ok(j) <==> AllPlain(j)
  {
    if AllPlain(j) {
      PlainDenotesUnfolds(h, w, j);
      var n := UnfoldingIsFinite(h, w, j);
      UnfoldingConverts(h, w, j, {}, n);
    }
    if ToProtocolJsonValue(h, w, {}) == Ok(j) {
      ConvertedAgainIsPlain(h, w, j, {});
    }
  }
}
