/** What a sanitized tree looks like, node by node and leaf by leaf, with no walk in it. */
module SanitizerCopies {
  import opened Wrappers
  import opened Values
  import opened JsonUnfolding
  import opened Sanitizer

  /** Values that leave nothing: a property disappears, an array entry becomes null. */
  predicate Vanishes(v: Value) {
    v.Undefined? || v.Hole? || v.Function? || v.Symbol?
  }

  /** The properties that stay, in order. */
  function Kept(fields: seq<Field>): (r: seq<Field>)
    ensures forall i :: 0 <= i < |r| ==> !Vanishes(r[i].value) && r[i] in fields
  {
    if fields == [] then []
    else Kept(fields[..|fields| - 1]) + if Vanishes(fields[|fields| - 1].value) then [] else [fields[|fields| - 1]]
  }

  /** `j` is the diagnostic copy of `v` inside of these nodes: numbers that are not finite, big integers and
      dates become text, a reference back to where the walk is becomes `[Circular]`, and everything else is
      copied, once for every way that leads to it. */
  ghost predicate IsCopy(g: Graph, v: Value, inside: set<nat>, j: Json)
    decreases j, 0
  {
    match v
    case Null => j == JNull
    case Bool(b) => j == JBool(b)
    case Str(s) => j == JString(s)
    case Num(n) => j == if n.Finite? then JNumber(n.value) else JString(n.text)
    case BigInt(digits) => j == JString(digits)
    case Ref(id) =>
      && id in g
      && (if g[id].Date? then g[id].iso != [] && j == JString(g[id].iso[0])
          else if id in inside then j == JString("[Circular]")
          else if g[id].Arr? then
            var items := g[id].items;
            j.JArray? && |j.items| == |items| &&
            forall i :: 0 <= i < |items| ==> IsEntryCopy(g, items[i], inside + {id}, j.items[i])
          else
            var kept := Kept(g[id].fields);
            j.JObject? && j.proto == Plain && |j.members| == |kept| &&
            forall i :: 0 <= i < |kept| ==>
              j.members[i].key == kept[i].key && IsCopy(g, kept[i].value, inside + {id}, j.members[i].value))
    case _ => false
  }

  ghost predicate IsEntryCopy(g: Graph, v: Value, inside: set<nat>, j: Json)
    decreases j, 1
  {
    if Vanishes(v) then j == JNull else IsCopy(g, v, inside, j)
  }

  /** The members made of fields without `__proto__` are those of the fields that stay. */
  lemma {:induction false} FieldsAreKept(g: Graph, fields: seq<Field>, seen: set<nat>)
    requires Closed(g) && FieldsKnown(g, fields)
    requires forall i :: 0 <= i < |fields| ==> fields[i].key != ProtoKey
    ensures FieldsKnown(g, Kept(fields))
    ensures SanitizeFields(g, fields, seen).Ok? <==> AllSanitize(g, Kept(fields), seen)
    ensures SanitizeFields(g, fields, seen).Ok? ==>
              && SanitizeFields(g, fields, seen).value.0 == Plain
              && AreMembers(g, Kept(fields), seen, SanitizeFields(g, fields, seen).value.1)
    decreases |fields|
  {
    if fields != [] {
      var front, last := fields[..|fields| - 1], fields[|fields| - 1];
      FieldsAreKept(g, front, seen);
      VanishesIff(g, last.value, seen);
      LastKept(fields);
      if !Vanishes(last.value) {
        OneMoreField(g, Kept(front), last, seen);
        if SanitizeFields(g, front, seen).Ok? && Sanitize(g, last.value, seen).Ok? {
          OneMoreMember(g, Kept(front), last, seen, SanitizeFields(g, front, seen).value.1,
                        Sanitize(g, last.value, seen).value.value);
        }
      }
    }
  }

  ghost predicate AllSanitize(g: Graph, fields: seq<Field>, seen: set<nat>)
    requires Closed(g) && FieldsKnown(g, fields)
  {
    forall i :: 0 <= i < |fields| ==> Sanitize(g, fields[i].value, seen).Ok?
  }

  /** Each field, in order, has become this member. */
  ghost predicate AreMembers(g: Graph, fields: seq<Field>, seen: set<nat>, ms: seq<Member>)
    requires Closed(g) && FieldsKnown(g, fields)
  {
    && |ms| == |fields|
    && forall i :: 0 <= i < |ms| ==>
         ms[i].key == fields[i].key && Sanitize(g, fields[i].value, seen) == Ok(Some(ms[i].value))
  }

  lemma OneMoreField(g: Graph, fields: seq<Field>, field: Field, seen: set<nat>)
    requires Closed(g) && FieldsKnown(g, fields) && Known(g, field.value)
    ensures FieldsKnown(g, fields + [field])
    ensures AllSanitize(g, fields + [field], seen) <==> AllSanitize(g, fields, seen) && Sanitize(g, field.value, seen).Ok?
  {
    var more := fields + [field];
    assert more[|fields|] == field;
    assert forall i :: 0 <= i < |fields| ==> more[i] == fields[i];
  }

  lemma OneMoreMember(g: Graph, fields: seq<Field>, field: Field, seen: set<nat>, ms: seq<Member>, j: Json)
    requires Closed(g) && FieldsKnown(g, fields) && Known(g, field.value) && FieldsKnown(g, fields + [field])
    requires AreMembers(g, fields, seen, ms) && Sanitize(g, field.value, seen) == Ok(Some(j))
    ensures AreMembers(g, fields + [field], seen, ms + [Member(field.key, j)])
  {
    var more, all := fields + [field], ms + [Member(field.key, j)];
    forall i | 0 <= i < |more|
      ensures all[i].key == more[i].key && Sanitize(g, more[i].value, seen) == Ok(Some(all[i].value))
    {
      if i < |fields| {
        assert more[i] == fields[i] && all[i] == ms[i];
      }
    }
  }

  lemma LastKept(fields: seq<Field>)
    requires fields != []
    ensures var n := |fields| - 1;
            Kept(fields) == if Vanishes(fields[n].value) then Kept(fields[..n]) else Kept(fields[..n]) + [fields[n]]
  {
  }

  /** Nothing is left of a value exactly if it is of a kind that vanishes. */
  lemma VanishesIff(g: Graph, v: Value, seen: set<nat>)
    requires Closed(g) && Known(g, v)
    ensures Sanitize(g, v, seen) == Ok(None) <==> Vanishes(v)
  {
  }

  /** The sanitizer returns a tree exactly if it is the copy of the value; where no property `__proto__` is
      reachable. */
  lemma {:induction false} SanitizedIffCopy(g: Graph, v: Value, seen: set<nat>, j: Json)
    requires Closed(g) && Known(g, v) && NoProtoReachable(g, v)
    ensures Sanitize(g, v, seen) == Ok(Some(j)) <==> IsCopy(g, v, seen, j)
    decreases |g.Keys - seen|, 1
  {
    if v.Ref? && v.id !in seen && !g[v.id].Date? {
      NoProtoStep(g, v.id);
      if g[v.id].Arr? {
        ArrayIffCopy(g, v.id, seen, j);
      } else {
        ObjectIffCopy(g, v.id, seen, j);
      }
    }
  }

  lemma {:induction false} ArrayIffCopy(g: Graph, id: nat, seen: set<nat>, j: Json)
    requires Closed(g) && id in g && id !in seen && g[id].Arr?
    requires forall i :: 0 <= i < |Children(g[id])| ==> NoProtoReachable(g, Children(g[id])[i])
    ensures Sanitize(g, Ref(id), seen) == Ok(Some(j)) <==> IsCopy(g, Ref(id), seen, j)
    decreases |g.Keys - seen|, 0
  {
    Enter(g, id, seen);
    ArrayNode(g, id, seen, j);
    assert Children(g[id]) == g[id].items;
    if j.JArray? {
      EntriesIff(g, g[id].items, seen + {id}, j.items);
    }
  }

  ghost predicate AreEntries(g: Graph, items: seq<Value>, inside: set<nat>, js: seq<Json>) {
    |js| == |items| && forall i :: 0 <= i < |items| ==> IsEntryCopy(g, items[i], inside, js[i])
  }

  lemma ArrayNode(g: Graph, id: nat, seen: set<nat>, j: Json)
    requires Closed(g) && id in g && id !in seen && g[id].Arr?
    ensures IsCopy(g, Ref(id), seen, j) <==> j.JArray? && AreEntries(g, g[id].items, seen + {id}, j.items)
    ensures Sanitize(g, Ref(id), seen) == Ok(Some(j)) <==>
            j.JArray? && SanitizeItems(g, g[id].items, seen + {id}) == Ok(j.items)
  {
  }

  lemma {:induction false} EntriesIff(g: Graph, items: seq<Value>, seen: set<nat>, js: seq<Json>)
    requires Closed(g) && ItemsKnown(g, items) && forall i :: 0 <= i < |items| ==> NoProtoReachable(g, items[i])
    ensures SanitizeItems(g, items, seen) == Ok(js) <==> AreEntries(g, items, seen, js)
    decreases |g.Keys - seen|, 3
  {
    ItemsIff(g, items, seen, js);
    if |js| == |items| {
      forall i | 0 <= i < |items|
        ensures EntryIs(Sanitize(g, items[i], seen), js[i]) <==> IsEntryCopy(g, items[i], seen, js[i])
      {
        EntryIff(g, items[i], seen, js[i]);
      }
    }
  }

  lemma {:induction false} EntryIff(g: Graph, v: Value, seen: set<nat>, j: Json)
    requires Closed(g) && Known(g, v) && NoProtoReachable(g, v)
    ensures EntryIs(Sanitize(g, v, seen), j) <==> IsEntryCopy(g, v, seen, j)
    decreases |g.Keys - seen|, 2
  {
    VanishesIff(g, v, seen);
    SanitizedIffCopy(g, v, seen, j);
  }

  /** An array entry with this outcome becomes this. */
  predicate EntryIs(outcome: Result<Option<Json>, DateError>, j: Json) {
    outcome == Ok(Some(j)) || (outcome == Ok(None) && j == JNull)
  }

  lemma ItemsIff(g: Graph, items: seq<Value>, seen: set<nat>, js: seq<Json>)
    requires Closed(g) && ItemsKnown(g, items)
    ensures SanitizeItems(g, items, seen) == Ok(js) <==>
            |js| == |items| && forall i :: 0 <= i < |items| ==> EntryIs(Sanitize(g, items[i], seen), js[i])
  {
    ItemsSanitize(g, items, seen);
    if |js| == |items| && forall i :: 0 <= i < |items| ==> EntryIs(Sanitize(g, items[i], seen), js[i]) {
      assert SanitizeItems(g, items, seen).value == js;
    }
  }

  lemma {:induction false} ObjectIffCopy(g: Graph, id: nat, seen: set<nat>, j: Json)
    requires Closed(g) && id in g && id !in seen && g[id].Obj? && NoProtoField(g[id])
    requires forall i :: 0 <= i < |Children(g[id])| ==> NoProtoReachable(g, Children(g[id])[i])
    ensures Sanitize(g, Ref(id), seen) == Ok(Some(j)) <==> IsCopy(g, Ref(id), seen, j)
    decreases |g.Keys - seen|, 0
  {
    Enter(g, id, seen);
    var kept := Kept(g[id].fields);
    FieldsAreKept(g, g[id].fields, seen + {id});
    forall i | 0 <= i < |kept|
      ensures NoProtoReachable(g, kept[i].value)
    {
      KeptIsChild(g, id, i);
    }
    ObjectNode(g, id, seen, j);
    if j.JObject? {
      MembersIff(g, kept, seen + {id}, j.members);
      if AreMembers(g, kept, seen + {id}, j.members) {
        MembersAreUnique(g, kept, seen + {id}, j.members);
      }
    }
  }

  ghost predicate AreMemberCopies(g: Graph, fields: seq<Field>, inside: set<nat>, ms: seq<Member>) {
    && |ms| == |fields|
    && forall i :: 0 <= i < |fields| ==> ms[i].key == fields[i].key && IsCopy(g, fields[i].value, inside, ms[i].value)
  }

  lemma ObjectNode(g: Graph, id: nat, seen: set<nat>, j: Json)
    requires Closed(g) && id in g && id !in seen && g[id].Obj?
    ensures IsCopy(g, Ref(id), seen, j) <==>
            j.JObject? && j.proto == Plain && AreMemberCopies(g, Kept(g[id].fields), seen + {id}, j.members)
    ensures Sanitize(g, Ref(id), seen) == Ok(Some(j)) <==>
            j.JObject? && SanitizeFields(g, g[id].fields, seen + {id}) == Ok((j.proto, j.members))
  {
  }

  lemma {:induction false} MembersIff(g: Graph, fields: seq<Field>, seen: set<nat>, ms: seq<Member>)
    requires Closed(g) && FieldsKnown(g, fields) && forall i :: 0 <= i < |fields| ==> NoProtoReachable(g, fields[i].value)
    ensures AreMembers(g, fields, seen, ms) <==> AreMemberCopies(g, fields, seen, ms)
    decreases |g.Keys - seen|, 3
  {
    if |ms| == |fields| {
      forall i | 0 <= i < |fields|
        ensures Sanitize(g, fields[i].value, seen) == Ok(Some(ms[i].value)) <==> IsCopy(g, fields[i].value, seen, ms[i].value)
      {
        SanitizedIffCopy(g, fields[i].value, seen, ms[i].value);
      }
    }
  }

  lemma KeptIsChild(g: Graph, id: nat, i: nat)
    requires id in g && g[id].Obj? && i < |Kept(g[id].fields)|
    ensures Kept(g[id].fields)[i].value in Children(g[id])
  {
    var k :| 0 <= k < |g[id].fields| && g[id].fields[k] == Kept(g[id].fields)[i];
    assert Children(g[id])[k] == Kept(g[id].fields)[i].value;
  }

  lemma MembersAreUnique(g: Graph, fields: seq<Field>, seen: set<nat>, ms: seq<Member>)
    requires Closed(g) && FieldsKnown(g, fields) && AreMembers(g, fields, seen, ms)
    ensures AllSanitize(g, fields, seen) && forall other :: AreMembers(g, fields, seen, other) ==> other == ms
  {
    forall other | AreMembers(g, fields, seen, other)
      ensures other == ms
    {
      assert forall i :: 0 <= i < |ms| ==> other[i] == ms[i];
    }
  }

  /** A value has at most one copy. */
  lemma CopyIsUnique(g: Graph, v: Value, seen: set<nat>, j: Json, k: Json)
    requires Closed(g) && Known(g, v) && NoProtoReachable(g, v) && IsCopy(g, v, seen, j) && IsCopy(g, v, seen, k)
    ensures j == k
  {
    SanitizedIffCopy(g, v, seen, j);
    SanitizedIffCopy(g, v, seen, k);
  }
}
