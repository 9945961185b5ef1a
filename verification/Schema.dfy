/** A subagent's result and the schema its parent gave (agent/src/subagent.rs): the nulls a
    strict wire adds are dropped before the result is checked. The checks are the subset of
    sections 6.1.1, 6.1.2 and 6.5.3 of JSON Schema Validation 2020-12 that the code reads. */
module Schema {
  import opened Conversation

  function Property(schema: Json, key: string): Json {
    Get(Get(schema, "properties"), key)
  }

  function Items(schema: Json): Json {
    Get(schema, "items")
  }

  /** The strings an array lists; what else it lists is passed over. */
  predicate Lists(list: Json, text: string) {
    list.Arr? && Str(text) in list.items
  }

  predicate AllowsNull(schema: Json) {
    match Get(schema, "type")
    case Str(t) => t == "null"
    case Arr(ts) => Str("null") in ts
    case _ => true
  }

  /** A null the schema neither requires nor lets be null. */
  predicate Droppable(schema: Json, key: string, value: Json) {
    value.Null? && !Lists(Get(schema, "required"), key) && !AllowsNull(Property(schema, key))
  }

  function Settle(schema: Json, value: Json): Json
    decreases value
  {
    match value
    case Obj(members) =>
      Obj(map k | k in members && !Droppable(schema, k, members[k]) :: Settle(Property(schema, k), members[k]))
    case Arr(items) =>
      Arr(seq(|items|, i requires 0 <= i < |items| => Settle(Items(schema), items[i])))
    case _ => value
  }

  // --------------------------------------------------------------- the check

  predicate FitsType(name: string, value: Json) {
    match name
    case "object" => value.Obj?
    case "array" => value.Arr?
    case "string" => value.Str?
    case "integer" => value.Number? && value.integral
    case "number" => value.Number?
    case "boolean" => value.Bool?
    case "null" => value.Null?
    case _ => true
  }

  predicate Typed(schema: Json) {
    Get(schema, "type").Str? || Get(schema, "type").Arr?
  }

  predicate Fits(schema: Json, value: Json) {
    match Get(schema, "type")
    case Str(t) => FitsType(t, value)
    case Arr(ts) => exists i :: 0 <= i < |ts| && ts[i].Str? && FitsType(ts[i].text, value)
    case _ => true
  }

  predicate Enumerated(schema: Json, value: Json) {
    Get(schema, "enum").Arr? ==> value in Get(schema, "enum").items
  }

  predicate Declared(schema: Json, key: string) {
    Get(schema, "properties").Obj? && key in Get(schema, "properties").members
  }

  predicate Complete(schema: Json, members: map<string, Json>) {
    Get(schema, "required").Arr? ==>
      forall i :: 0 <= i < |Get(schema, "required").items| && Get(schema, "required").items[i].Str? ==>
        Get(schema, "required").items[i].text in members
  }

  predicate Admits(schema: Json, key: string) {
    Declared(schema, key) || Get(schema, "additionalProperties") != Bool(false)
  }

  /** Whether the value has the shape the schema describes. Without a type nothing below
      the value itself is looked at. */
  predicate Check(schema: Json, value: Json)
    decreases value
  {
    Enumerated(schema, value) &&
    (Typed(schema) ==>
      Fits(schema, value) &&
      match value
      case Obj(members) =>
        Complete(schema, members) &&
        forall k :: k in members ==>
          Admits(schema, k) && (Declared(schema, k) ==> Check(Property(schema, k), members[k]))
      case Arr(items) => forall i :: 0 <= i < |items| ==> Check(Items(schema), items[i])
      case _ => true)
  }

  // --------------------------------------------------------------- what settling does

  /** `padded` is `plain` with nothing but droppable nulls added, at any depth. */
  predicate Pads(schema: Json, plain: Json, padded: Json)
    decreases padded
  {
    match padded
    case Obj(members) =>
      plain.Obj? && plain.members.Keys <= members.Keys &&
      forall k :: k in members ==>
        if k in plain.members then Pads(Property(schema, k), plain.members[k], members[k])
        else Droppable(schema, k, members[k])
    case Arr(items) =>
      plain.Arr? && |plain.items| == |items| &&
      forall i :: 0 <= i < |items| ==> Pads(Items(schema), plain.items[i], items[i])
    case _ => plain == padded
  }

  /** Settling deletes nothing but droppable nulls. */
  lemma {:induction false} SettleOnlyDrops(schema: Json, value: Json)
    ensures Pads(schema, Settle(schema, value), value)
    decreases value
  {
    match value {
      case Obj(members) =>
        forall k | k in members && !Droppable(schema, k, members[k])
          ensures Pads(Property(schema, k), Settle(Property(schema, k), members[k]), members[k])
        {
          SettleOnlyDrops(Property(schema, k), members[k]);
        }
      case Arr(items) =>
        forall i | 0 <= i < |items|
          ensures Pads(Items(schema), Settle(Items(schema), items[i]), items[i])
        {
          SettleOnlyDrops(Items(schema), items[i]);
        }
      case _ =>
    }
  }

  /** No droppable null is left, at any depth. */
  predicate Settled(schema: Json, value: Json)
    decreases value
  {
    match value
    case Obj(members) =>
      forall k :: k in members ==> !Droppable(schema, k, members[k]) && Settled(Property(schema, k), members[k])
    case Arr(items) => forall i :: 0 <= i < |items| ==> Settled(Items(schema), items[i])
    case _ => true
  }

  lemma {:induction false} SettleLeavesNone(schema: Json, value: Json)
    ensures Settled(schema, Settle(schema, value))
    ensures Settle(schema, value).Null? <==> value.Null?
    decreases value
  {
    match value {
      case Obj(members) =>
        forall k | k in members && !Droppable(schema, k, members[k])
          ensures Settled(Property(schema, k), Settle(Property(schema, k), members[k]))
          ensures !Droppable(schema, k, Settle(Property(schema, k), members[k]))
        {
          SettleLeavesNone(Property(schema, k), members[k]);
        }
      case Arr(items) =>
        forall i | 0 <= i < |items|
          ensures Settled(Items(schema), Settle(Items(schema), items[i]))
        {
          SettleLeavesNone(Items(schema), items[i]);
        }
      case _ =>
    }
  }

  /** A value is unchanged exactly when it has no droppable null. */
  lemma {:induction false} SettledIsFixed(schema: Json, value: Json)
    ensures Settle(schema, value) == value <==> Settled(schema, value)
    decreases value
  {
    SettleLeavesNone(schema, value);
    if Settled(schema, value) {
      match value {
        case Obj(members) =>
          forall k | k in members
            ensures Settle(Property(schema, k), members[k]) == members[k]
          {
            SettledIsFixed(Property(schema, k), members[k]);
          }
          assert Settle(schema, value).members == members;
        case Arr(items) =>
          forall i | 0 <= i < |items|
            ensures Settle(Items(schema), items[i]) == items[i]
          {
            SettledIsFixed(Items(schema), items[i]);
          }
          assert Settle(schema, value).items == items;
        case _ =>
      }
    }
  }

  lemma {:induction false} SettleIsIdempotent(schema: Json, value: Json)
    ensures Settle(schema, Settle(schema, value)) == Settle(schema, value)
  {
    SettleLeavesNone(schema, value);
    SettledIsFixed(schema, Settle(schema, value));
  }

  lemma {:induction false} NullsMatch(schema: Json, plain: Json, padded: Json)
    requires Pads(schema, plain, padded)
    ensures plain.Null? <==> padded.Null?
  {
  }

  lemma {:induction false} MembersSettleAlike(schema: Json, a: map<string, Json>, b: map<string, Json>)
    requires forall k :: k in a ==> k in b && Settle(Property(schema, k), b[k]) == Settle(Property(schema, k), a[k])
    requires forall k :: k in a && k in b ==> (Droppable(schema, k, b[k]) <==> Droppable(schema, k, a[k]))
    requires forall k :: k in b && k !in a ==> Droppable(schema, k, b[k])
    ensures Settle(schema, Obj(b)) == Settle(schema, Obj(a))
  {
    var x, y := Settle(schema, Obj(a)).members, Settle(schema, Obj(b)).members;
    assert forall k :: k in x <==> k in y;
    assert x == y;
  }

  lemma {:induction false} ItemsSettleAlike(schema: Json, a: seq<Json>, b: seq<Json>)
    requires |a| == |b| && forall i :: 0 <= i < |b| ==> Settle(Items(schema), b[i]) == Settle(Items(schema), a[i])
    ensures Settle(schema, Arr(b)) == Settle(schema, Arr(a))
  {
    assert Settle(schema, Arr(b)).items == Settle(schema, Arr(a)).items;
  }

  /** Whatever padding a value carries, it settles to what the value itself settles to. */
  lemma {:induction false} PaddingSettlesAway(schema: Json, plain: Json, padded: Json)
    requires Pads(schema, plain, padded)
    ensures Settle(schema, padded) == Settle(schema, plain)
    decreases padded
  {
    match padded {
      case Obj(members) =>
        forall k | k in plain.members
          ensures Settle(Property(schema, k), members[k]) == Settle(Property(schema, k), plain.members[k])
          ensures Droppable(schema, k, members[k]) <==> Droppable(schema, k, plain.members[k])
        {
          NullsMatch(Property(schema, k), plain.members[k], members[k]);
          PaddingSettlesAway(Property(schema, k), plain.members[k], members[k]);
        }
        MembersSettleAlike(schema, plain.members, members);
      case Arr(items) =>
        forall i | 0 <= i < |items|
          ensures Settle(Items(schema), items[i]) == Settle(Items(schema), plain.items[i])
        {
          PaddingSettlesAway(Items(schema), plain.items[i], items[i]);
        }
        ItemsSettleAlike(schema, plain.items, items);
      case _ =>
    }
  }

  // --------------------------------------------------------------- settling and the check

  /** The enumeration, if there is one, lists an unpadded value that this one is a padding of. */
  predicate ListsUnpadded(schema: Json, value: Json) {
    Get(schema, "enum").Arr? ==>
      exists i :: 0 <= i < |Get(schema, "enum").items| && Unpads(schema, Get(schema, "enum").items[i], value)
  }

  predicate Unpads(schema: Json, plain: Json, value: Json) {
    Pads(schema, plain, value) && Settled(schema, plain)
  }

  /** There is only one such value, the settled one. */
  lemma {:induction false} UnpadsIsSettle(schema: Json, plain: Json, value: Json)
    ensures Unpads(schema, plain, value) <==> plain == Settle(schema, value)
  {
    if Unpads(schema, plain, value) {
      PaddingSettlesAway(schema, plain, value);
      SettledIsFixed(schema, plain);
    }
    SettleOnlyDrops(schema, value);
    SettleLeavesNone(schema, value);
  }

  lemma {:induction false} ListsUnpaddedIsSettled(schema: Json, value: Json)
    ensures ListsUnpadded(schema, value) <==> Enumerated(schema, Settle(schema, value))
  {
    if Get(schema, "enum").Arr? {
      var options := Get(schema, "enum").items;
      forall i | 0 <= i < |options|
        ensures Unpads(schema, options[i], value) <==> options[i] == Settle(schema, value)
      {
        UnpadsIsSettle(schema, options[i], value);
      }
    }
  }

  /** Every enumeration the value meets, at any depth, lists it without its padding. */
  predicate EnumsAgree(schema: Json, value: Json)
    decreases value
  {
    ListsUnpadded(schema, value) &&
    (Typed(schema) ==>
      match value
      case Obj(members) =>
        forall k :: k in members && Declared(schema, k) && !Droppable(schema, k, members[k]) ==>
          EnumsAgree(Property(schema, k), members[k])
      case Arr(items) => forall i :: 0 <= i < |items| ==> EnumsAgree(Items(schema), items[i])
      case _ => true)
  }

  lemma {:induction false} SettleKeepsKind(schema: Json, value: Json)
    ensures Fits(schema, Settle(schema, value)) == Fits(schema, value)
  {
    match Get(schema, "type") {
      case Str(t) =>
      case Arr(ts) =>
        assert forall i :: 0 <= i < |ts| && ts[i].Str? ==>
          FitsType(ts[i].text, Settle(schema, value)) == FitsType(ts[i].text, value);
      case _ =>
    }
  }

  /** No member that is required is dropped. */
  lemma {:induction false} SettleKeepsRequired(schema: Json, value: Json)
    requires value.Obj? && Complete(schema, value.members)
    ensures Complete(schema, Settle(schema, value).members)
  {
    if Get(schema, "required").Arr? {
      var names := Get(schema, "required").items;
      forall i | 0 <= i < |names| && names[i].Str?
        ensures names[i].text in Settle(schema, value).members
      {
        assert names[i] in names && names[i] == Str(names[i].text);
      }
    }
  }

  /** A value that passes still passes once settled, exactly when every enumeration it
      meets lists it without its padding. */
  lemma {:induction false} SettlePreservesCheckIff(schema: Json, value: Json)
    requires Check(schema, value)
    ensures Check(schema, Settle(schema, value)) <==> EnumsAgree(schema, value)
    decreases value
  {
    SettleKeepsKind(schema, value);
    ListsUnpaddedIsSettled(schema, value);
    if Typed(schema) {
      match value {
        case Obj(members) =>
          SettleKeepsRequired(schema, value);
          var kept := Settle(schema, value).members;
          forall k | k in kept && Declared(schema, k)
            ensures Check(Property(schema, k), kept[k]) <==> EnumsAgree(Property(schema, k), members[k])
          {
            SettlePreservesCheckIff(Property(schema, k), members[k]);
          }
        case Arr(items) =>
          var settled := Settle(schema, value).items;
          forall i | 0 <= i < |items|
            ensures Check(Items(schema), settled[i]) <==> EnumsAgree(Items(schema), items[i])
          {
            SettlePreservesCheckIff(Items(schema), items[i]);
          }
        case _ =>
      }
    }
  }

  /** Every enumeration, at any depth of the schema, lists only values that carry no
      padding themselves, scalars among them. */
  predicate PlainEnums(schema: Json)
    decreases schema
  {
    (Get(schema, "enum").Arr? ==>
      forall i :: 0 <= i < |Get(schema, "enum").items| ==> Settled(schema, Get(schema, "enum").items[i])) &&
    (schema.Obj? && "items" in schema.members ==> PlainEnums(schema.members["items"])) &&
    (schema.Obj? && "properties" in schema.members && schema.members["properties"].Obj? ==>
      forall k :: k in schema.members["properties"].members ==> PlainEnums(schema.members["properties"].members[k]))
  }

  lemma {:induction false} PlainEnumsAgree(schema: Json, value: Json)
    requires PlainEnums(schema) && Check(schema, value)
    ensures EnumsAgree(schema, value)
    decreases value
  {
    if Get(schema, "enum").Arr? {
      SettledIsFixed(schema, value);
    }
    ListsUnpaddedIsSettled(schema, value);
    if Typed(schema) {
      match value {
        case Obj(members) =>
          forall k | k in members && Declared(schema, k)
            ensures EnumsAgree(Property(schema, k), members[k])
          {
            PlainEnumsAgree(Property(schema, k), members[k]);
          }
        case Arr(items) =>
          forall i | 0 <= i < |items|
            ensures EnumsAgree(Items(schema), items[i])
          {
            PlainEnumsAgree(Items(schema), items[i]);
          }
        case _ =>
      }
    }
  }

  /** A result that differs from one that passes only by padding passes once settled. */
  lemma {:induction false} PaddedResultPasses(schema: Json, plain: Json, padded: Json)
    requires Pads(schema, plain, padded) && Check(schema, plain) && PlainEnums(schema)
    ensures Check(schema, Settle(schema, padded))
    ensures Settle(schema, padded) == Settle(schema, plain)
  {
    PaddingSettlesAway(schema, plain, padded);
    PlainEnumsAgree(schema, plain);
    SettlePreservesCheckIff(schema, plain);
  }

  /** An enumeration that lists an object with its padding turns that object away. */
  lemma {:induction false} PaddedEnumFails()
    ensures var option := Obj(map["a" := Null]);
      var schema := Obj(map["enum" := Arr([option]),
                            "properties" := Obj(map["a" := Obj(map["type" := Str("string")])])]);
      Check(schema, option) && !Check(schema, Settle(schema, option))
  {
    var option := Obj(map["a" := Null]);
    var schema := Obj(map["enum" := Arr([option]),
                          "properties" := Obj(map["a" := Obj(map["type" := Str("string")])])]);
    assert Property(schema, "a") == Obj(map["type" := Str("string")]);
    assert Get(schema, "required") == Null && Get(schema, "type") == Null;
    assert "a" !in Settle(schema, option).members;
  }

  // --------------------------------------------------------------- names of no type

  predicate TypeName(name: string) {
    name in {"object", "array", "string", "integer", "number", "boolean", "null"}
  }

  /** The schema's type, or one of them, has a name the check does not know. */
  predicate NamesUnknown(schema: Json) {
    match Get(schema, "type")
    case Str(t) => !TypeName(t)
    case Arr(ts) => exists i :: 0 <= i < |ts| && ts[i].Str? && !TypeName(ts[i].text)
    case _ => false
  }

  lemma {:induction false} NullFits(name: string)
    ensures FitsType(name, Null) <==> name == "null" || !TypeName(name)
  {
  }

  /** Settling and the check disagree on null, one taking it for padding and the other
      letting it pass, exactly when null is not among the types and some name is unknown. */
  lemma {:induction false} NullDisputedIff(schema: Json)
    ensures !AllowsNull(schema) && Fits(schema, Null) <==> !AllowsNull(schema) && NamesUnknown(schema)
  {
    match Get(schema, "type") {
      case Str(t) => NullFits(t);
      case Arr(ts) =>
        forall i | 0 <= i < |ts| && ts[i].Str?
          ensures FitsType(ts[i].text, Null) <==> ts[i].text == "null" || !TypeName(ts[i].text)
        {
          NullFits(ts[i].text);
        }
        assert forall i :: 0 <= i < |ts| && ts[i].Str? && ts[i].text == "null" ==> ts[i] == Str("null");
      case _ =>
    }
  }

  /** So a null that passes under a type called `any` is dropped from the result, which
      passes without it too. */
  lemma {:induction false} UnknownTypeDropsNull()
    ensures var schema := Obj(map["type" := Str("object"), "properties" := Obj(map["a" := Obj(map["type" := Str("any")])])]);
      var value := Obj(map["a" := Null]);
      Check(schema, value) && Settle(schema, value) == Obj(map[]) && Check(schema, Settle(schema, value))
  {
    var anything := Obj(map["type" := Str("any")]);
    var schema := Obj(map["type" := Str("object"), "properties" := Obj(map["a" := anything])]);
    var value := Obj(map["a" := Null]);
    assert Property(schema, "a") == anything && Get(anything, "type") == Str("any") && !TypeName("any");
    NullDisputedIff(anything);
    assert Get(schema, "required") == Null && Get(schema, "enum") == Null && Get(anything, "enum") == Null;
    assert Droppable(schema, "a", Null);
    assert Settle(schema, value).members == map[];
  }

  // --------------------------------------------------------------- what passes

  /** Which values a known type name lets pass. */
  lemma {:induction false} TypeDecides(schema: Json, name: string, value: Json)
    requires Get(schema, "type") == Str(name) && Check(schema, value)
    ensures name == "object" ==> value.Obj?
    ensures name == "array" ==> value.Arr?
    ensures name == "string" ==> value.Str?
    ensures name == "integer" ==> value.Number? && value.integral
    ensures name == "number" ==> value.Number?
    ensures name == "boolean" ==> value.Bool?
    ensures name == "null" ==> value.Null?
  {
  }

  /** And each lets all of those pass, when nothing else is asked. */
  lemma {:induction false} TypeSuffices(name: string, value: Json)
    requires !value.Obj? && !value.Arr?
    requires name == "string" ==> value.Str?
    requires name == "integer" ==> value.Number? && value.integral
    requires name == "number" ==> value.Number?
    requires name == "boolean" ==> value.Bool?
    requires name == "null" ==> value.Null?
    requires name != "object" && name != "array"
    ensures Check(Obj(map["type" := Str(name)]), value)
  {
    assert Get(Obj(map["type" := Str(name)]), "enum") == Null;
  }

  /** An object that passes has all that is required of it, nothing that is not admitted, and
      members that pass, and its enumeration lists it if there is one. */
  lemma {:induction false} ObjectIsWhole(schema: Json, members: map<string, Json>, key: string)
    requires Typed(schema) && Check(schema, Obj(members))
    ensures Lists(Get(schema, "required"), key) ==> key in members
    ensures key in members && Get(schema, "additionalProperties") == Bool(false) ==> Declared(schema, key)
    ensures key in members && Declared(schema, key) ==> Check(Property(schema, key), members[key])
    ensures Get(schema, "enum").Arr? ==> Obj(members) in Get(schema, "enum").items
  {
    if Lists(Get(schema, "required"), key) {
      var items := Get(schema, "required").items;
      var i :| 0 <= i < |items| && items[i] == Str(key);
    }
  }

  /** So does one with everything that was asked. */
  lemma {:induction false} WholeObjectPasses(schema: Json, members: map<string, Json>)
    requires Get(schema, "type") == Str("object") && Enumerated(schema, Obj(members))
    requires forall key :: Lists(Get(schema, "required"), key) ==> key in members
    requires forall key :: key in members ==> Admits(schema, key) && (Declared(schema, key) ==> Check(Property(schema, key), members[key]))
    ensures Check(schema, Obj(members))
  {
    if Get(schema, "required").Arr? {
      var items := Get(schema, "required").items;
      forall i | 0 <= i < |items| && items[i].Str?
        ensures items[i].text in members
      {
        assert Lists(Get(schema, "required"), items[i].text);
      }
    }
  }
}
