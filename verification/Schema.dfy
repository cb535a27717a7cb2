/**
  JSON values, the part of JSON Schema that custom resource types produce, and what it means for a
  value to be valid (draft-wright-json-schema-validation-00: `type`, `enum`, `properties`, `required`,
  `additionalProperties`, `items`, `oneOf`, `anyOf`).
 */
module Schema {
  import opened Common

  datatype Json =
    | JNull
    | JBool(b: bool)
    | JNum(n: real)
    | JStr(s: string)
    | JArr(elems: seq<Json>)
    | JObj(fields: map<string, Json>)

  datatype InstanceType = TNull | TBoolean | TObject | TArray | TNumber | TString | TInteger

  datatype TypeSpec = Single(t: InstanceType) | Several(ts: seq<InstanceType>)

  datatype Metadata = Metadata(title: Option<string>, description: Option<string>)

  datatype Schema = Bool(b: bool) | Object(o: SchemaObject)

  datatype Branches = NoBranches | Branches(list: seq<Schema>)

  datatype ObjectValidation = ObjectValidation(
    properties: map<string, Schema>,
    required: set<string>,
    additional: Option<Schema>)

  datatype SchemaObject = SchemaObject(
    metadata: Option<Metadata>,
    types: Option<TypeSpec>,
    enums: Option<seq<Json>>,
    oneOf: Branches,
    anyOf: Branches,
    obj: Option<ObjectValidation>,
    items: Option<Schema>,
    preserveUnknown: bool) // the extension `x-kubernetes-preserve-unknown-fields`

  const EMPTY_OBJECT := ObjectValidation(map[], {}, None)

  // ---------- Validity ----------

  predicate HasType(x: Json, t: InstanceType) {
    match x
    case JNull => t == TNull
    case JBool(_) => t == TBoolean
    case JNum(n) => t == TNumber || (t == TInteger && n == n.Floor as real)
    case JStr(_) => t == TString
    case JArr(_) => t == TArray
    case JObj(_) => t == TObject
  }

  predicate TypesOk(types: Option<TypeSpec>, x: Json) {
    match types
    case None => true
    case Some(Single(t)) => HasType(x, t)
    case Some(Several(ts)) => exists t :: t in ts && HasType(x, t)
  }

  predicate Valid(s: Schema, x: Json)
    decreases s
  {
    match s
    case Bool(b) => b
    case Object(o) => ValidObject(o, x)
  }

  predicate ValidObject(o: SchemaObject, x: Json)
    decreases o
  {
    && TypesOk(o.types, x)
    && (o.enums.Some? ==> x in o.enums.value)
    && (o.obj.Some? && x.JObj? ==> FieldsValid(o.obj.value, x.fields))
    && (o.items.Some? && x.JArr? ==> forall i :: 0 <= i < |x.elems| ==> Valid(o.items.value, x.elems[i]))
    && (o.oneOf.Branches? ==> CountValid(o.oneOf.list, x) == 1)
    && (o.anyOf.Branches? ==> exists i :: 0 <= i < |o.anyOf.list| && Valid(o.anyOf.list[i], x))
  }

  predicate FieldsValid(v: ObjectValidation, fields: map<string, Json>)
    decreases v
  {
    && v.required <= fields.Keys
    && (forall k :: k in fields && k in v.properties ==> Valid(v.properties[k], fields[k]))
    && (v.additional.Some? ==>
          forall k :: k in fields && k !in v.properties ==> Valid(v.additional.value, fields[k]))
  }

  function CountValid(list: seq<Schema>, x: Json): nat
    decreases list
  {
    if list == [] then 0 else (if Valid(list[0], x) then 1 else 0) + CountValid(list[1..], x)
  }

  lemma {:induction false} CountZero(list: seq<Schema>, x: Json)
    ensures CountValid(list, x) == 0 <==> forall i :: 0 <= i < |list| ==> !Valid(list[i], x)
  {
    if list != [] {
      CountZero(list[1..], x);
      assert forall i :: 1 <= i < |list| ==> list[i] == list[1..][i - 1];
    }
  }

  ghost predicate OnlyValid(list: seq<Schema>, x: Json, i: nat) {
    i < |list| && Valid(list[i], x) && forall j :: 0 <= j < |list| && j != i ==> !Valid(list[j], x)
  }

  /** `oneOf` holds exactly when some branch is valid and no other branch is. */
  lemma {:induction false} CountOne(list: seq<Schema>, x: Json)
    ensures CountValid(list, x) == 1 <==> exists i: nat :: OnlyValid(list, x, i)
  {
    if list != [] {
      var rest := list[1..];
      assert forall i :: 1 <= i < |list| ==> list[i] == rest[i - 1];
      if Valid(list[0], x) {
        CountZero(rest, x);
        assert CountValid(list, x) == 1 ==> OnlyValid(list, x, 0);
      } else {
        CountOne(rest, x);
        if i: nat :| OnlyValid(rest, x, i) {
          assert OnlyValid(list, x, i + 1);
        }
        if i: nat :| OnlyValid(list, x, i) {
          assert OnlyValid(rest, x, i - 1);
        }
      }
    }
  }

  /**
    No object in `x` has a field that the schema says nothing about. The API server prunes such
    fields before it stores anything.
   */
  predicate Declared(s: Schema, x: Json)
    decreases s
  {
    s.Object? ==>
      && (s.o.obj.Some? && x.JObj? ==> FieldsDeclared(s.o.obj.value, s.o.preserveUnknown, x.fields))
      && (s.o.items.Some? && x.JArr? ==>
            forall i :: 0 <= i < |x.elems| ==> Declared(s.o.items.value, x.elems[i]))
  }

  predicate FieldsDeclared(v: ObjectValidation, preserve: bool, fields: map<string, Json>)
    decreases v
  {
    forall k :: k in fields ==>
      if k in v.properties then Declared(v.properties[k], fields[k])
      else if v.additional.Some? then Declared(v.additional.value, fields[k])
      else preserve
  }
}
