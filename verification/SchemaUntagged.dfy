/**
  Untagged enums, the shape whose meaning the rewriter does not preserve: what hoisting out of `anyOf`
  does to any schema, and exactly which values the whole visitor leaves valid, at any depth.
 */
module SchemaUntagged {
  import opened Common
  import opened Schema
  import opened SchemaRewriter
  import opened SchemaNormalForm
  import opened SchemaMeaning

  // ---------- Hoisting out of anyOf, for every schema ----------

  /** What a schema says besides its type and its fields. */
  predicate RestValid(o: SchemaObject, x: Json) {
    ValidObject(o.(types := None, obj := None), x)
  }

  lemma ValidParts(o: SchemaObject, x: Json)
    ensures ValidObject(o, x) <==>
              && TypesOk(o.types, x) && RestValid(o, x)
              && (o.obj.Some? && x.JObj? ==> FieldsValid(o.obj.value, x.fields))
  {
  }

  function Hoisted(v: Schema): Schema {
    if IsObjectBranch(v) then Strip(v) else v
  }

  /** What is left of a branch once its type and its definitions have moved to the root. */
  predicate BranchMet(v: Schema, x: Json) {
    if IsObjectBranch(v) then RestValid(v.o, x) && (x.JObj? ==> v.o.obj.value.required <= x.fields.Keys)
    else Valid(v, x)
  }

  lemma HoistedValid(v: Schema, x: Json)
    ensures Valid(Hoisted(v), x) <==> BranchMet(v, x)
  {
    if IsObjectBranch(v) {
      ValidParts(Strip(v).o, x);
      assert RestValid(Strip(v).o, x) == RestValid(v.o, x);
    }
  }

  ghost predicate TypesMet(list: seq<Schema>, x: Json) {
    forall i :: 0 <= i < |list| && IsObjectBranch(list[i]) ==> TypesOk(list[i].o.types, x)
  }

  /** Every field that a schema of the map defines fits it. */
  ghost predicate PropsFit(props: map<string, Schema>, fields: map<string, Json>) {
    forall k :: k in props && k in fields ==> Valid(props[k], fields[k])
  }

  ghost predicate FitsEveryVariant(list: seq<Schema>, fields: map<string, Json>) {
    forall i :: 0 <= i < |list| && IsObjectBranch(list[i]) ==> PropsFit(list[i].o.obj.value.properties, fields)
  }

  ghost predicate Defines(list: seq<Schema>, k: string) {
    exists i :: 0 <= i < |list| && IsObjectBranch(list[i]) && k in list[i].o.obj.value.properties
  }

  ghost predicate HasObjectBranch(list: seq<Schema>) {
    exists i :: 0 <= i < |list| && IsObjectBranch(list[i])
  }

  /** The fields fit the root and every object branch; what none of them defines is left to the root. */
  ghost predicate RootFits(root: ObjectValidation, list: seq<Schema>, fields: map<string, Json>) {
    && root.required <= fields.Keys && PropsFit(root.properties, fields) && FitsEveryVariant(list, fields)
    && (root.additional.Some? ==>
          forall k :: k in fields && k !in root.properties && !Defines(list, k) ==>
            Valid(root.additional.value, fields[k]))
  }

  lemma ListOf(list: seq<Schema>, x: Json, fields: map<string, Json>, k: string)
    requires list != []
    ensures TypesMet(list, x) <==> (IsObjectBranch(list[0]) ==> TypesOk(list[0].o.types, x)) && TypesMet(list[1..], x)
    ensures FitsEveryVariant(list, fields) <==>
              && (IsObjectBranch(list[0]) ==> PropsFit(list[0].o.obj.value.properties, fields))
              && FitsEveryVariant(list[1..], fields)
    ensures Defines(list, k) <==>
              (IsObjectBranch(list[0]) && k in list[0].o.obj.value.properties) || Defines(list[1..], k)
    ensures HasObjectBranch(list) <==> IsObjectBranch(list[0]) || HasObjectBranch(list[1..])
  {
    assert forall i :: 1 <= i < |list| ==> list[i] == list[1..][i - 1];
  }

  /** Hoisting replaces each branch by what is left of it and leaves what the root requires alone. */
  lemma {:induction false} HoistGives(h: Hoist, list: seq<Schema>)
    requires HoistProperties(h, list).Some?
    ensures var (h1, out) := HoistProperties(h, list).value;
            && |out| == |list| && (forall i :: 0 <= i < |list| ==> out[i] == Hoisted(list[i]))
            && RootObject(h1).required == RootObject(h).required
            && RootObject(h1).additional == RootObject(h).additional
            && (h1.common.Some? <==> h.common.Some? || HasObjectBranch(list))
    decreases |list|
  {
    if list != [] {
      var (h1, v) := HoistVariant(h, list[0]).value;
      HoistGives(h1, list[1..]);
      ListOf(list, JNull, map[], "");
    }
  }

  /** The root's type after hoisting asks for everything that its own and the branches' types asked for. */
  lemma {:induction false} HoistTypes(h: Hoist, list: seq<Schema>, x: Json)
    requires HoistProperties(h, list).Some?
    ensures TypesOk(HoistProperties(h, list).value.0.types, x) <==> TypesOk(h.types, x) && TypesMet(list, x)
    decreases |list|
  {
    if list != [] {
      HoistTypes(HoistVariant(h, list[0]).value.0, list[1..], x);
      ListOf(list, x, map[], "");
    }
  }

  lemma MovedFit(v: Schema, fields: map<string, Json>)
    requires IsObjectBranch(v)
    ensures Contribution(v).Keys == Tags(v)
    ensures PropsFit(Contribution(v), fields) <==> PropsFit(v.o.obj.value.properties, fields)
  {
    forall k | k in Tags(v) && k in fields
      ensures Valid(Contribution(v)[k], fields[k]) == Valid(v.o.obj.value.properties[k], fields[k])
    {
      ContributionMeaning(v, k, fields[k]);
    }
  }

  lemma HoistVariantFits(h: Hoist, v: Schema, fields: map<string, Json>)
    requires IsObjectBranch(v) && HoistVariant(h, v).Some?
    ensures var props := RootObject(HoistVariant(h, v).value.0).properties;
            && (PropsFit(props, fields) <==>
                  PropsFit(RootObject(h).properties, fields) && PropsFit(v.o.obj.value.properties, fields))
            && props.Keys == RootObject(h).properties.Keys + Tags(v)
  {
    MovedFit(v, fields);
    var root, moved := RootObject(h).properties, Contribution(v);
    assert RootObject(HoistVariant(h, v).value.0).properties == root + moved;
    assert forall k :: k in root && k in moved ==> root[k] == moved[k];
  }

  /** The root's definitions after hoisting are its own and those of every branch, and no others. */
  lemma {:induction false} HoistFits(h: Hoist, list: seq<Schema>, fields: map<string, Json>, k: string)
    requires HoistProperties(h, list).Some?
    ensures var props := RootObject(HoistProperties(h, list).value.0).properties;
            && (PropsFit(props, fields) <==>
                  PropsFit(RootObject(h).properties, fields) && FitsEveryVariant(list, fields))
            && (k in props <==> k in RootObject(h).properties || Defines(list, k))
    decreases |list|
  {
    if list != [] {
      if IsObjectBranch(list[0]) {
        HoistVariantFits(h, list[0], fields);
      }
      HoistFits(HoistVariant(h, list[0]).value.0, list[1..], fields, k);
      ListOf(list, JNull, fields, k);
    }
  }

  lemma HoistedRootFits(h: Hoist, list: seq<Schema>, fields: map<string, Json>)
    requires HoistProperties(h, list).Some?
    ensures FieldsValid(RootObject(HoistProperties(h, list).value.0), fields) <==> RootFits(RootObject(h), list, fields)
  {
    HoistGives(h, list);
    HoistFits(h, list, fields, "");
    forall k ensures k in RootObject(HoistProperties(h, list).value.0).properties <==>
                k in RootObject(h).properties || Defines(list, k)
    {
      HoistFits(h, list, fields, k);
    }
  }

  /** The parts of a schema once its `anyOf` has been hoisted, in terms of the schema before. */
  lemma AnyOfParts(o: SchemaObject, x: Json)
    requires o.anyOf.Branches? && RewriteAnyOf(o).Some?
    ensures var r, list := RewriteAnyOf(o).value, o.anyOf.list;
            && (r.obj.Some? <==> o.obj.Some? || HasObjectBranch(list))
            && (TypesOk(r.types, x) <==> TypesOk(o.types, x) && TypesMet(list, x))
            && (RestValid(r, x) <==>
                  RestValid(o.(anyOf := NoBranches), x) && exists i :: 0 <= i < |list| && BranchMet(list[i], x))
            && (r.obj.Some? && x.JObj? ==>
                  (FieldsValid(r.obj.value, x.fields) <==> RootFits(RootObject(Hoist(o.obj, o.types)), list, x.fields)))
  {
    var h, list := Hoist(o.obj, o.types), o.anyOf.list;
    HoistGives(h, list);
    HoistTypes(h, list, x);
    if x.JObj? {
      HoistedRootFits(h, list, x.fields);
    }
    forall i | 0 <= i < |list| ensures Valid(Hoisted(list[i]), x) <==> BranchMet(list[i], x) {
      HoistedValid(list[i], x);
    }
    HoistedAny(o, RewriteAnyOf(o).value, x);
  }

  lemma HoistedAny(o: SchemaObject, r: SchemaObject, x: Json)
    requires o.anyOf.Branches? && r == o.(obj := r.obj, types := r.types, anyOf := r.anyOf)
    requires r.anyOf.Branches? && |r.anyOf.list| == |o.anyOf.list|
    requires forall i :: 0 <= i < |r.anyOf.list| ==> (Valid(r.anyOf.list[i], x) <==> BranchMet(o.anyOf.list[i], x))
    ensures RestValid(r, x) <==>
              && RestValid(o.(anyOf := NoBranches), x)
              && exists i :: 0 <= i < |o.anyOf.list| && BranchMet(o.anyOf.list[i], x)
  {
    var q := r.(types := None, obj := None);
    assert q.anyOf == r.anyOf;
    if i :| 0 <= i < |o.anyOf.list| && BranchMet(o.anyOf.list[i], x) {
      assert Valid(q.anyOf.list[i], x);
    }
    if i :| 0 <= i < |q.anyOf.list| && Valid(q.anyOf.list[i], x) {
      assert BranchMet(o.anyOf.list[i], x);
    }
  }

  /**
    What hoisting out of `anyOf` means, for every schema on which it does not panic and every value.
    The type and the definitions of each object branch bind every value, whichever branch it takes;
    of an object branch itself only what it requires is left, so a closed one is closed no longer.
   */
  lemma AnyOfMeaning(o: SchemaObject, x: Json)
    requires o.anyOf.Branches? && RewriteAnyOf(o).Some?
    ensures ValidObject(RewriteAnyOf(o).value, x) <==>
              && TypesOk(o.types, x) && TypesMet(o.anyOf.list, x)
              && RestValid(o.(anyOf := NoBranches), x)
              && (x.JObj? ==> RootFits(RootObject(Hoist(o.obj, o.types)), o.anyOf.list, x.fields))
              && exists i :: 0 <= i < |o.anyOf.list| && BranchMet(o.anyOf.list[i], x)
  {
    AnyOfParts(o, x);
    ValidParts(RewriteAnyOf(o).value, x);
  }

  // ---------- Schemas with untagged enums anywhere ----------

  /** An untagged enum: any branches, and nothing said by the root itself. */
  predicate UntaggedEnum(o: SchemaObject) {
    && o.anyOf.Branches? && o.oneOf.NoBranches?
    && o.obj.None? && o.enums.None? && o.items.None? && o.types.None?
  }

  /** Supported schemas and untagged enums of them, nested in each other to any depth. */
  predicate Covered(s: Schema)
    decreases s
  {
    s.Object? ==>
      && (NoBranchesIn(s.o) || TaggedEnum(s.o) || PlainEnum(s.o) || UntaggedEnum(s.o))
      && CoveredChildren(s.o)
  }

  predicate CoveredChildren(o: SchemaObject)
    decreases o
  {
    && (o.oneOf.Branches? ==> forall i :: 0 <= i < |o.oneOf.list| ==> Covered(o.oneOf.list[i]))
    && (o.anyOf.Branches? ==> forall i :: 0 <= i < |o.anyOf.list| ==> Covered(o.anyOf.list[i]))
    && (o.obj.Some? ==> CoveredFields(o.obj.value))
    && (o.items.Some? ==> Covered(o.items.value))
  }

  predicate CoveredFields(v: ObjectValidation)
    decreases v
  {
    && (forall k :: k in v.properties ==> Covered(v.properties[k]))
    && (v.additional.Some? ==> Covered(v.additional.value))
  }

  // ---------- What is valid afterwards, said of the schema before ----------

  /** The schema defines fields, or will once its branches have been hoisted. */
  predicate DefinesFields(s: Schema)
    decreases s
  {
    s.Object? &&
    (s.o.obj.Some? || TaggedEnum(s.o) ||
     (UntaggedEnum(s.o) && exists i :: 0 <= i < |s.o.anyOf.list| && DefinesFields(s.o.anyOf.list[i])))
  }

  /** The value has the type that the schema, or any branch below it that defines fields, asks for. */
  predicate TypeAfter(s: Schema, x: Json)
    decreases s
  {
    s.Object? &&
    if s.o.obj.Some? then TypesOk(s.o.types, x)
    else if TaggedEnum(s.o) then x.JObj?
    else UntaggedEnum(s.o) && forall i :: 0 <= i < |s.o.anyOf.list| && DefinesFields(s.o.anyOf.list[i]) ==>
           TypeAfter(s.o.anyOf.list[i], x)
  }

  /** Every field fits all definitions that the schema, or any branch below it, has for it. */
  predicate FieldsAfter(s: Schema, fields: map<string, Json>)
    decreases s, 0
  {
    s.Object? &&
    if s.o.obj.Some? then OwnFieldsAfter(s.o.obj.value, fields)
    else if TaggedEnum(s.o) then
      forall i :: 0 <= i < |s.o.oneOf.list| ==> OwnFieldsAfter(s.o.oneOf.list[i].o.obj.value, fields)
    else UntaggedEnum(s.o) && forall i :: 0 <= i < |s.o.anyOf.list| && DefinesFields(s.o.anyOf.list[i]) ==>
           FieldsAfter(s.o.anyOf.list[i], fields)
  }

  predicate OwnFieldsAfter(v: ObjectValidation, fields: map<string, Json>)
    decreases v
  {
    forall k :: k in v.properties && k in fields ==> After(v.properties[k], fields[k])
  }

  predicate OthersAfter(v: ObjectValidation, fields: map<string, Json>)
    decreases v
  {
    v.additional.Some? ==> forall k :: k in fields && k !in v.properties ==> After(v.additional.value, fields[k])
  }

  /** The value has all of a variant's tag; a value that is not an object has nothing to lack. */
  predicate HoldsTag(v: Schema, x: Json)
    requires IsObjectBranch(v)
  {
    x.JObj? ==> Tags(v) <= x.fields.Keys
  }

  predicate HoldsOnlyTag(list: seq<Schema>, x: Json, i: nat)
    requires TaggedList(list) && i < |list|
  {
    HoldsTag(list[i], x) && forall j :: 0 <= j < |list| && j != i ==> !HoldsTag(list[j], x)
  }

  /** What is left of the schema without its type and its definitions: required fields, tags, alternatives. */
  predicate ShapeAfter(s: Schema, x: Json)
    decreases s, 0
  {
    s.Object? &&
    if s.o.obj.Some? then
      && (s.o.enums.Some? ==> x in s.o.enums.value) && ItemsAfter(s.o, x)
      && (x.JObj? ==> s.o.obj.value.required <= x.fields.Keys)
    else if TaggedEnum(s.o) then exists i :: 0 <= i < |s.o.oneOf.list| && HoldsOnlyTag(s.o.oneOf.list, x, i)
    else UntaggedEnum(s.o) && exists i :: 0 <= i < |s.o.anyOf.list| && TakesBranch(s.o.anyOf.list[i], x)
  }

  /** The value takes this branch of an untagged enum, its type and definitions aside. */
  predicate TakesBranch(s: Schema, x: Json)
    decreases s, 2
  {
    if DefinesFields(s) then ShapeAfter(s, x) else After(s, x)
  }

  predicate ItemsAfter(o: SchemaObject, x: Json)
    decreases o
  {
    o.items.Some? && x.JArr? ==> forall i :: 0 <= i < |x.elems| ==> After(o.items.value, x.elems[i])
  }

  /** The value is valid once the schema has been rewritten, without rewriting it. */
  predicate After(s: Schema, x: Json)
    decreases s, 1
  {
    match s
    case Bool(b) => b
    case Object(o) =>
      if DefinesFields(s) then
        && TypeAfter(s, x) && ShapeAfter(s, x)
        && (x.JObj? ==> FieldsAfter(s, x.fields) && (o.obj.Some? ==> OthersAfter(o.obj.value, x.fields)))
      else if UntaggedEnum(o) then exists i :: 0 <= i < |o.anyOf.list| && TakesBranch(o.anyOf.list[i], x)
      else if PlainEnum(o) then ValidObject(o, x)
      else TypesOk(o.types, x) && (o.enums.Some? ==> x in o.enums.value) && ItemsAfter(o, x)
  }

  // ---------- The rewritten schema accepts exactly that ----------

  /** `t` says of `x` what was said of `s`, as a whole and part by part. */
  ghost predicate Agrees(s: Schema, t: Schema, x: Json) {
    && (IsObjectBranch(t) <==> DefinesFields(s))
    && (Valid(t, x) <==> After(s, x))
    && (BranchMet(t, x) <==> TakesBranch(s, x))
    && (DefinesFields(s) ==>
          && (TypesOk(t.o.types, x) <==> TypeAfter(s, x))
          && (x.JObj? ==> (PropsFit(t.o.obj.value.properties, x.fields) <==> FieldsAfter(s, x.fields))))
  }

  /** On every covered schema that the visitor returns from, for every value. */
  lemma {:induction false} AfterIsExact(s: Schema, x: Json)
    requires Covered(s) && Rewrite(s).Some?
    ensures Agrees(s, Rewrite(s).value, x)
    decreases s
  {
    if s.Object? {
      if UntaggedEnum(s.o) {
        UntaggedAgrees(s.o, x);
      } else if TaggedEnum(s.o) {
        TaggedAgrees(s.o, x);
      } else if PlainEnum(s.o) {
        PlainEnumChildren(s.o);
        PlainEnumRoot(s.o);
        PlainEnumMeaning(s.o, x);
      } else {
        StructAgrees(s.o, x);
      }
    }
  }

  lemma {:induction false} FieldsAgree(v: ObjectValidation, fields: map<string, Json>)
    requires CoveredFields(v) && RewriteFields(v).Some?
    ensures var w := RewriteFields(v).value;
            && w.properties.Keys == v.properties.Keys && w.required == v.required
            && (PropsFit(w.properties, fields) <==> OwnFieldsAfter(v, fields))
            && (FieldsValid(w, fields) <==>
                  v.required <= fields.Keys && OwnFieldsAfter(v, fields) && OthersAfter(v, fields))
    decreases v
  {
    var w := RewriteFields(v).value;
    forall k | k in v.properties && k in fields
      ensures Valid(w.properties[k], fields[k]) <==> After(v.properties[k], fields[k])
    {
      AfterIsExact(v.properties[k], fields[k]);
    }
    if v.additional.Some? {
      forall k | k in fields ensures Valid(w.additional.value, fields[k]) <==> After(v.additional.value, fields[k]) {
        AfterIsExact(v.additional.value, fields[k]);
      }
    }
  }

  lemma {:induction false} ItemsAgree(o: SchemaObject, x: Json)
    requires o.items.Some? && Covered(o.items.value) && Rewrite(o.items.value).Some? && x.JArr?
    ensures ItemsAfter(o, x) <==> forall i :: 0 <= i < |x.elems| ==> Valid(Rewrite(o.items.value).value, x.elems[i])
    decreases o, 0
  {
    forall i | 0 <= i < |x.elems|
      ensures Valid(Rewrite(o.items.value).value, x.elems[i]) <==> After(o.items.value, x.elems[i])
    {
      AfterIsExact(o.items.value, x.elems[i]);
    }
  }

  lemma {:induction false} StructAgrees(o: SchemaObject, x: Json)
    requires NoBranchesIn(o) && CoveredChildren(o) && RewriteObject(o).Some?
    ensures Agrees(Object(o), Object(RewriteObject(o).value), x)
    decreases o, 1
  {
    ChildrenParts(o);
    var c, r := RewriteChildren(o).value, RewriteObject(o).value;
    assert r == RewriteFlattened(c);
    if o.items.Some? && x.JArr? {
      ItemsAgree(o, x);
    }
    if o.obj.Some? && x.JObj? {
      FieldsAgree(o.obj.value, x.fields);
      FlattenedMeaning(c, x.fields);
    }
    StructSays(o, r, x);
  }

  /** A schema without branches, from what its parts say. */
  lemma StructSays(o: SchemaObject, r: SchemaObject, x: Json)
    requires NoBranchesIn(o) && NoBranchesIn(r) && o.types == r.types && o.enums == r.enums
    requires (o.items.Some? <==> r.items.Some?) && (o.obj.Some? <==> r.obj.Some?)
    requires o.items.Some? && x.JArr? ==>
               (ItemsAfter(o, x) <==> forall i :: 0 <= i < |x.elems| ==> Valid(r.items.value, x.elems[i]))
    requires o.obj.Some? ==> r.obj.value.required == o.obj.value.required
    requires o.obj.Some? && x.JObj? ==>
               && (PropsFit(r.obj.value.properties, x.fields) <==> OwnFieldsAfter(o.obj.value, x.fields))
               && (FieldsValid(r.obj.value, x.fields) <==>
                     && o.obj.value.required <= x.fields.Keys
                     && OwnFieldsAfter(o.obj.value, x.fields) && OthersAfter(o.obj.value, x.fields))
    ensures Agrees(Object(o), Object(r), x)
  {
    ValidParts(r, x);
    var s := Object(o);
    assert DefinesFields(s) <==> o.obj.Some?;
    assert RestValid(r, x) <==> (o.enums.Some? ==> x in o.enums.value) && ItemsAfter(o, x);
  }

  // ---------- Tagged enums ----------

  lemma HoldsTagValid(v: Schema, x: Json)
    requires TaggedVariant(v)
    ensures Valid(Strip(v), x) <==> HoldsTag(v, x)
  {
    if x.JObj? {
      StrippedValid(v, x);
    }
  }

  /** One stripped branch is valid exactly if one tag is held and no other. */
  lemma TagsHeld(list: seq<Schema>, x: Json)
    requires TaggedList(list)
    ensures CountValid(StripAll(list), x) == 1 <==> exists i :: 0 <= i < |list| && HoldsOnlyTag(list, x, i)
  {
    var stripped := StripAll(list);
    forall i | 0 <= i < |list| ensures Valid(stripped[i], x) <==> HoldsTag(list[i], x) {
      HoldsTagValid(list[i], x);
    }
    CountOne(stripped, x);
    if i: nat :| OnlyValid(stripped, x, i) {
      assert HoldsOnlyTag(list, x, i);
    }
    if i :| 0 <= i < |list| && HoldsOnlyTag(list, x, i) {
      assert OnlyValid(stripped, x, i);
    }
  }

  /** The collected definitions are those of every variant. */
  lemma CollectFits(list: seq<Schema>, fields: map<string, Json>)
    requires TaggedList(list)
    ensures PropsFit(Collect(map[], list), fields) <==>
              forall i :: 0 <= i < |list| ==> PropsFit(list[i].o.obj.value.properties, fields)
  {
    forall i, k | 0 <= i < |list| && k in Tags(list[i]) && k in fields
      ensures k in Collect(map[], list)
      ensures Valid(Collect(map[], list)[k], fields[k]) == Valid(list[i].o.obj.value.properties[k], fields[k])
    {
      CollectHas(map[], list, i, k);
      ContributionMeaning(list[i], k, fields[k]);
    }
    forall k | k in Collect(map[], list) ensures exists i :: 0 <= i < |list| && k in Tags(list[i]) {
      CollectOnly(map[], list, k);
    }
  }

  lemma {:induction false} VariantAgrees(v: Schema, fields: map<string, Json>)
    requires TaggedVariant(v) && Covered(v) && Rewrite(v).Some?
    ensures TaggedVariant(Rewrite(v).value) && Tags(Rewrite(v).value) == Tags(v)
    ensures PropsFit(Rewrite(v).value.o.obj.value.properties, fields) <==> OwnFieldsAfter(v.o.obj.value, fields)
    decreases v
  {
    TaggedVariantRewrites(v);
    assert CoveredChildren(v.o) && CoveredFields(v.o.obj.value);
    ChildrenParts(v.o);
    FieldsAgree(v.o.obj.value, fields);
  }

  /** Variant by variant, `after` has the same tags and accepts the same payloads. */
  ghost predicate VariantsAgree(before: seq<Schema>, after: seq<Schema>, fields: map<string, Json>) {
    && TaggedList(before) && TaggedList(after) && |before| == |after|
    && forall i :: 0 <= i < |before| ==>
         && Tags(after[i]) == Tags(before[i])
         && (PropsFit(after[i].o.obj.value.properties, fields) <==> OwnFieldsAfter(before[i].o.obj.value, fields))
  }

  lemma {:induction false} TaggedChildrenAgree(o: SchemaObject, fields: map<string, Json>)
    requires TaggedEnum(o) && CoveredChildren(o) && RewriteChildren(o).Some?
    ensures TaggedEnum(RewriteChildren(o).value)
    ensures VariantsAgree(o.oneOf.list, RewriteChildren(o).value.oneOf.list, fields)
    decreases o, 0
  {
    TaggedChildren(o);
    var before, after := o.oneOf.list, RewriteChildren(o).value.oneOf.list;
    forall i | 0 <= i < |before|
      ensures Tags(after[i]) == Tags(before[i])
      ensures PropsFit(after[i].o.obj.value.properties, fields) <==> OwnFieldsAfter(before[i].o.obj.value, fields)
    {
      VariantAgrees(before[i], fields);
    }
  }

  lemma {:induction false} TaggedAgrees(o: SchemaObject, x: Json)
    requires TaggedEnum(o) && CoveredChildren(o) && RewriteObject(o).Some?
    ensures Agrees(Object(o), Object(RewriteObject(o).value), x)
    decreases o, 1
  {
    var fields := if x.JObj? then x.fields else map[];
    TaggedChildrenAgree(o, fields);
    TaggedWhole(o, RewriteChildren(o).value, x);
  }

  lemma TaggedWhole(o: SchemaObject, c: SchemaObject, x: Json)
    requires TaggedEnum(o) && TaggedEnum(c)
    requires VariantsAgree(o.oneOf.list, c.oneOf.list, if x.JObj? then x.fields else map[])
    ensures RewriteRoot(c).Some? && Agrees(Object(o), Object(RewriteRoot(c).value), x)
  {
    if x.JObj? {
      CollectFits(c.oneOf.list, x.fields);
    }
    TaggedRoot(c);
    TagsHeld(c.oneOf.list, x);
    SameTagsHeld(o.oneOf.list, c.oneOf.list, x);
    TaggedSays(o, RewriteRoot(c).value, x);
  }

  lemma SameTagsHeld(before: seq<Schema>, after: seq<Schema>, x: Json)
    requires TaggedList(before) && TaggedList(after) && |before| == |after|
    requires forall i :: 0 <= i < |before| ==> Tags(after[i]) == Tags(before[i])
    ensures (exists i :: 0 <= i < |after| && HoldsOnlyTag(after, x, i)) <==>
            (exists i :: 0 <= i < |before| && HoldsOnlyTag(before, x, i))
  {
    forall i | 0 <= i < |before| ensures HoldsOnlyTag(after, x, i) <==> HoldsOnlyTag(before, x, i) {
      assert forall j :: 0 <= j < |before| ==> (HoldsTag(after[j], x) <==> HoldsTag(before[j], x));
    }
  }

  lemma TaggedSays(o: SchemaObject, r: SchemaObject, x: Json)
    requires TaggedEnum(o)
    requires r.types == OBJECT_TYPE && r.enums.None? && r.items.None? && r.anyOf.NoBranches? && r.oneOf.Branches?
    requires r.obj.Some? && r.obj.value.required == {} && r.obj.value.additional.None?
    requires CountValid(r.oneOf.list, x) == 1 <==>
               exists i :: 0 <= i < |o.oneOf.list| && HoldsOnlyTag(o.oneOf.list, x, i)
    requires x.JObj? ==> (PropsFit(r.obj.value.properties, x.fields) <==> FieldsAfter(Object(o), x.fields))
    ensures Agrees(Object(o), Object(r), x)
  {
    ValidParts(r, x);
    assert RestValid(r, x) <==> CountValid(r.oneOf.list, x) == 1;
  }

  // ---------- Untagged enums ----------

  ghost predicate BranchesAgree(before: seq<Schema>, after: seq<Schema>, x: Json) {
    |before| == |after| && forall i :: 0 <= i < |before| ==> Agrees(before[i], after[i], x)
  }

  lemma {:induction false} UntaggedChildrenAgree(o: SchemaObject, x: Json)
    requires UntaggedEnum(o) && CoveredChildren(o) && RewriteChildren(o).Some?
    ensures UntaggedEnum(RewriteChildren(o).value)
    ensures BranchesAgree(o.anyOf.list, RewriteChildren(o).value.anyOf.list, x)
    decreases o, 0
  {
    ChildrenParts(o);
    var before, after := o.anyOf.list, RewriteChildren(o).value.anyOf.list;
    RewriteAllAt(before);
    forall i | 0 <= i < |before| ensures Agrees(before[i], after[i], x) {
      AfterIsExact(before[i], x);
    }
  }

  lemma {:induction false} UntaggedAgrees(o: SchemaObject, x: Json)
    requires UntaggedEnum(o) && CoveredChildren(o) && RewriteObject(o).Some?
    ensures Agrees(Object(o), Object(RewriteObject(o).value), x)
    decreases o, 1
  {
    UntaggedChildrenAgree(o, x);
    UntaggedWhole(o, RewriteChildren(o).value, x);
  }

  /** Rewriting an untagged enum is hoisting out of it: there is nothing to flatten. */
  lemma UntaggedIsHoisted(c: SchemaObject)
    requires UntaggedEnum(c)
    ensures RewriteRoot(c) == RewriteAnyOf(c)
    ensures RewriteRoot(c).Some? && RewriteRoot(c).value.obj.Some? ==>
              var v := RewriteRoot(c).value.obj.value; v.required == {} && v.additional.None?
  {
    if RewriteAnyOf(c).Some? {
      HoistGives(Hoist(None, None), c.anyOf.list);
    }
  }

  /** The parts of a rewritten untagged enum, in terms of its branches. */
  lemma UntaggedParts(c: SchemaObject, x: Json)
    requires UntaggedEnum(c) && RewriteRoot(c).Some?
    ensures var r, list := RewriteRoot(c).value, c.anyOf.list;
            && (r.obj.Some? <==> HasObjectBranch(list))
            && (TypesOk(r.types, x) <==> TypesMet(list, x))
            && (RestValid(r, x) <==> exists i :: 0 <= i < |list| && BranchMet(list[i], x))
            && (r.obj.Some? ==> r.obj.value.required == {} && r.obj.value.additional.None?)
            && (r.obj.Some? && x.JObj? ==>
                  (PropsFit(r.obj.value.properties, x.fields) <==> FitsEveryVariant(list, x.fields)))
  {
    UntaggedIsHoisted(c);
    AnyOfParts(c, x);
    assert RestValid(c.(anyOf := NoBranches), x);
    if x.JObj? {
      HoistFits(Hoist(None, None), c.anyOf.list, x.fields, "");
    }
  }

  lemma UntaggedWhole(o: SchemaObject, c: SchemaObject, x: Json)
    requires UntaggedEnum(o) && UntaggedEnum(c) && RewriteRoot(c).Some?
    requires BranchesAgree(o.anyOf.list, c.anyOf.list, x)
    ensures Agrees(Object(o), Object(RewriteRoot(c).value), x)
  {
    UntaggedParts(c, x);
    UntaggedFacets(o.anyOf.list, c.anyOf.list, x);
    UntaggedSays(o, RewriteRoot(c).value, x);
  }

  ghost predicate AnyDefinesFields(list: seq<Schema>) {
    exists i :: 0 <= i < |list| && DefinesFields(list[i])
  }

  ghost predicate AllTypesAfter(list: seq<Schema>, x: Json) {
    forall i :: 0 <= i < |list| && DefinesFields(list[i]) ==> TypeAfter(list[i], x)
  }

  ghost predicate AllFieldsAfter(list: seq<Schema>, fields: map<string, Json>) {
    forall i :: 0 <= i < |list| && DefinesFields(list[i]) ==> FieldsAfter(list[i], fields)
  }

  ghost predicate AnyTaken(list: seq<Schema>, x: Json) {
    exists i :: 0 <= i < |list| && TakesBranch(list[i], x)
  }

  /** What is said of an untagged enum is what is said of its branches together. */
  lemma UntaggedAfter(o: SchemaObject, x: Json)
    requires UntaggedEnum(o)
    ensures var s, list := Object(o), o.anyOf.list;
            && (DefinesFields(s) <==> AnyDefinesFields(list))
            && (TypeAfter(s, x) <==> AllTypesAfter(list, x))
            && (ShapeAfter(s, x) <==> AnyTaken(list, x))
            && (x.JObj? ==> (FieldsAfter(s, x.fields) <==> AllFieldsAfter(list, x.fields)))
            && (TakesBranch(s, x) <==> AnyTaken(list, x) && (AnyDefinesFields(list) || After(s, x)))
            && (After(s, x) <==>
                  && AnyTaken(list, x)
                  && (AnyDefinesFields(list) ==>
                        AllTypesAfter(list, x) && (x.JObj? ==> AllFieldsAfter(list, x.fields))))
  {
  }

  /** What the visited branches say together is what was said of the branches before. */
  lemma UntaggedFacets(before: seq<Schema>, after: seq<Schema>, x: Json)
    requires BranchesAgree(before, after, x)
    ensures HasObjectBranch(after) <==> AnyDefinesFields(before)
    ensures TypesMet(after, x) <==> AllTypesAfter(before, x)
    ensures (exists i :: 0 <= i < |after| && BranchMet(after[i], x)) <==> AnyTaken(before, x)
    ensures x.JObj? ==> (FitsEveryVariant(after, x.fields) <==> AllFieldsAfter(before, x.fields))
  {
    assert forall i :: 0 <= i < |before| ==> (IsObjectBranch(after[i]) <==> DefinesFields(before[i]));
    assert forall i :: 0 <= i < |before| ==> (BranchMet(after[i], x) <==> TakesBranch(before[i], x));
  }

  lemma UntaggedSays(o: SchemaObject, r: SchemaObject, x: Json)
    requires UntaggedEnum(o)
    requires r.obj.Some? <==> AnyDefinesFields(o.anyOf.list)
    requires TypesOk(r.types, x) <==> AllTypesAfter(o.anyOf.list, x)
    requires RestValid(r, x) <==> AnyTaken(o.anyOf.list, x)
    requires r.obj.Some? ==> r.obj.value.required == {} && r.obj.value.additional.None?
    requires r.obj.Some? && x.JObj? ==>
               (PropsFit(r.obj.value.properties, x.fields) <==> AllFieldsAfter(o.anyOf.list, x.fields))
    ensures Agrees(Object(o), Object(r), x)
  {
    ValidParts(r, x);
    UntaggedAfter(o, x);
  }

  // ---------- What an untagged enum loses and what it gains ----------

  /**
    Exactly what hoisting makes of an untagged enum, whatever its branches are: without an object
    branch nothing changes; with one, a value must have the type of every object branch and fit all
    their definitions, and meet what is left of some branch.
   */
  lemma UntaggedMeaning(o: SchemaObject, x: Json)
    requires UntaggedEnum(o) && RewriteRoot(o).Some?
    ensures ValidObject(RewriteRoot(o).value, x) <==>
              if HasObjectBranch(o.anyOf.list) then
                && TypesMet(o.anyOf.list, x) && (x.JObj? ==> FitsEveryVariant(o.anyOf.list, x.fields))
                && exists i :: 0 <= i < |o.anyOf.list| && BranchMet(o.anyOf.list[i], x)
              else ValidObject(o, x)
  {
    var r, list := RewriteRoot(o).value, o.anyOf.list;
    UntaggedParts(o, x);
    ValidParts(r, x);
    UntaggedValid(o, x);
    if !HasObjectBranch(list) {
      assert forall i :: 0 <= i < |list| ==> (BranchMet(list[i], x) <==> Valid(list[i], x));
    }
  }

  /** An untagged enum accepts what one of its branches accepts. */
  lemma UntaggedValid(o: SchemaObject, x: Json)
    requires UntaggedEnum(o)
    ensures ValidObject(o, x) <==> exists i :: 0 <= i < |o.anyOf.list| && Valid(o.anyOf.list[i], x)
  {
  }

  predicate OthersValid(v: ObjectValidation, fields: map<string, Json>) {
    v.additional.Some? ==> forall k :: k in fields && k !in v.properties ==> Valid(v.additional.value, fields[k])
  }

  lemma BranchValid(v: Schema, x: Json)
    requires IsObjectBranch(v)
    ensures Valid(v, x) <==>
              && BranchMet(v, x) && TypesOk(v.o.types, x)
              && (x.JObj? ==> PropsFit(v.o.obj.value.properties, x.fields) && OthersValid(v.o.obj.value, x.fields))
  {
    ValidParts(v.o, x);
  }

  /** Of the values that were valid, exactly those are lost that some object branch's type or definitions refuse. */
  lemma UntaggedLoss(o: SchemaObject, x: Json)
    requires UntaggedEnum(o) && RewriteRoot(o).Some? && ValidObject(o, x)
    ensures ValidObject(RewriteRoot(o).value, x) <==>
              TypesMet(o.anyOf.list, x) && (x.JObj? ==> FitsEveryVariant(o.anyOf.list, x.fields))
  {
    UntaggedMeaning(o, x);
    UntaggedValid(o, x);
    var i :| 0 <= i < |o.anyOf.list| && Valid(o.anyOf.list[i], x);
    if IsObjectBranch(o.anyOf.list[i]) {
      BranchValid(o.anyOf.list[i], x);
    }
    assert BranchMet(o.anyOf.list[i], x);
  }

  /** Of the values valid afterwards, exactly those were not valid before that only closed branches let in. */
  lemma UntaggedGain(o: SchemaObject, x: Json)
    requires UntaggedEnum(o) && RewriteRoot(o).Some? && ValidObject(RewriteRoot(o).value, x)
    ensures ValidObject(o, x) <==> exists i :: 0 <= i < |o.anyOf.list| && StaysOpen(o.anyOf.list[i], x)
  {
    var list := o.anyOf.list;
    UntaggedMeaning(o, x);
    UntaggedValid(o, x);
    forall i | 0 <= i < |list| ensures StaysOpen(list[i], x) <==> Valid(list[i], x) {
      if IsObjectBranch(list[i]) {
        BranchValid(list[i], x);
      }
    }
  }

  /** The value meets what is left of the branch, and the branch did not shut out its other fields. */
  predicate StaysOpen(v: Schema, x: Json) {
    BranchMet(v, x) && (IsObjectBranch(v) && x.JObj? ==> OthersValid(v.o.obj.value, x.fields))
  }

  // ---------- The same through the whole visitor ----------

  lemma SupportedIsCovered(s: Schema)
    requires Supported(s)
    ensures Covered(s)
    decreases s
  {
    if s.Object? {
      var o := s.o;
      if o.oneOf.Branches? {
        forall i | 0 <= i < |o.oneOf.list| ensures Covered(o.oneOf.list[i]) {
          SupportedIsCovered(o.oneOf.list[i]);
        }
      }
      if o.obj.Some? {
        SupportedFieldsAreCovered(o.obj.value);
      }
      if o.items.Some? {
        SupportedIsCovered(o.items.value);
      }
    }
  }

  lemma SupportedFieldsAreCovered(v: ObjectValidation)
    requires SupportedFields(v)
    ensures CoveredFields(v)
    decreases v
  {
    forall k | k in v.properties ensures Covered(v.properties[k]) {
      SupportedIsCovered(v.properties[k]);
    }
    if v.additional.Some? {
      SupportedIsCovered(v.additional.value);
    }
  }

  /** On supported schemas the description agrees with validity before, up to undeclared fields. */
  lemma SupportedAfter(s: Schema, x: Json)
    requires Supported(s)
    ensures Covered(s) && Rewrite(s).Some?
    ensures Valid(s, x) ==> After(s, x)
    ensures After(s, x) && Declared(Rewrite(s).value, x) ==> Valid(s, x)
  {
    SupportedIsCovered(s);
    MeaningPreserved(s, x);
    AfterIsExact(s, x);
  }

  /** One of the branches, each rewritten on its own, accepts the value. */
  ghost predicate AnyAfter(list: seq<Schema>, x: Json) {
    exists i :: 0 <= i < |list| && After(list[i], x)
  }

  /** The value has the type of every branch that defines fields, and its fields fit all their definitions. */
  ghost predicate FitsAllAfter(list: seq<Schema>, x: Json) {
    AllTypesAfter(list, x) && (x.JObj? ==> AllFieldsAfter(list, x.fields))
  }

  lemma TakenAfter(s: Schema, x: Json)
    ensures After(s, x) ==> TakesBranch(s, x)
    ensures After(s, x) <==>
              && OpenAfter(s, x)
              && (DefinesFields(s) ==> TypeAfter(s, x) && (x.JObj? ==> FieldsAfter(s, x.fields)))
  {
  }

  lemma BranchesAfter(list: seq<Schema>, x: Json)
    ensures AnyAfter(list, x) ==> AnyTaken(list, x)
    ensures !AnyDefinesFields(list) ==> (AnyAfter(list, x) <==> AnyTaken(list, x))
    ensures FitsAllAfter(list, x) ==> (AnyAfter(list, x) <==> exists i :: 0 <= i < |list| && OpenAfter(list[i], x))
  {
    forall i | 0 <= i < |list|
      ensures After(list[i], x) ==> TakesBranch(list[i], x)
      ensures FitsAllAfter(list, x) ==> (OpenAfter(list[i], x) <==> After(list[i], x))
    {
      TakenAfter(list[i], x);
    }
  }

  /**
    Exactly which values the visitor leaves valid for an untagged enum of covered branches, nested ones
    included, said of the original: without a branch that defines fields, those that some branch
    accepts; with one, those that fit all such branches and take one of the branches. Compared with the
    branches rewritten on their own, what is lost is what does not fit all of them, and what is
    gained is what only closed branches let in.
   */
  lemma UntaggedMeaningVisited(o: SchemaObject, x: Json)
    requires UntaggedEnum(o) && CoveredChildren(o) && RewriteObject(o).Some?
    ensures var accepted, list := ValidObject(RewriteObject(o).value, x), o.anyOf.list;
            && (accepted <==>
                  if AnyDefinesFields(list) then FitsAllAfter(list, x) && AnyTaken(list, x) else AnyAfter(list, x))
            && (AnyAfter(list, x) ==> (accepted <==> FitsAllAfter(list, x)))
            && (accepted ==> (AnyAfter(list, x) <==> exists i :: 0 <= i < |list| && OpenAfter(list[i], x)))
  {
    AfterIsExact(Object(o), x);
    UntaggedAfter(o, x);
    BranchesAfter(o.anyOf.list, x);
  }

  /** The value takes the branch, and the branch did not shut out its other fields. */
  predicate OpenAfter(s: Schema, x: Json) {
    TakesBranch(s, x) && (s.Object? && s.o.obj.Some? && x.JObj? ==> OthersAfter(s.o.obj.value, x.fields))
  }

  // ---------- Compared with validity before ----------

  /** Every field fits the original definitions of a supported branch. */
  ghost predicate DefinitionsFit(s: Schema, fields: map<string, Json>) {
    s.Object? &&
    if s.o.obj.Some? then PropsFit(s.o.obj.value.properties, fields)
    else TaggedEnum(s.o) &&
         forall i :: 0 <= i < |s.o.oneOf.list| ==> PropsFit(s.o.oneOf.list[i].o.obj.value.properties, fields)
  }

  /** No field holds anything that its definition does not declare. */
  ghost predicate DeclaredFit(props: map<string, Schema>, fields: map<string, Json>) {
    forall k :: k in props && k in fields ==> Declared(props[k], fields[k])
  }

  ghost predicate FitsAllBefore(list: seq<Schema>, x: Json) {
    forall i :: 0 <= i < |list| && DefinesFields(list[i]) ==>
      TypeAfter(list[i], x) && (x.JObj? ==> DefinitionsFit(list[i], x.fields))
  }

  /** The value takes this branch: of one that defines fields the shape counts, of any other its validity. */
  ghost predicate TakenBefore(s: Schema, x: Json) {
    if DefinesFields(s) then ShapeAfter(s, x) else Valid(s, x)
  }

  lemma OwnFieldsBefore(v: ObjectValidation, fields: map<string, Json>)
    requires SupportedFields(v)
    ensures RewriteFields(v).Some?
    ensures PropsFit(v.properties, fields) ==> OwnFieldsAfter(v, fields)
    ensures OwnFieldsAfter(v, fields) && DeclaredFit(RewriteFields(v).value.properties, fields) ==>
              PropsFit(v.properties, fields)
  {
    FieldsNeverPanic(v);
    forall k | k in v.properties && k in fields
      ensures Valid(v.properties[k], fields[k]) ==> After(v.properties[k], fields[k])
      ensures After(v.properties[k], fields[k]) && Declared(RewriteFields(v).value.properties[k], fields[k]) ==>
                Valid(v.properties[k], fields[k])
    {
      SupportedAfter(v.properties[k], fields[k]);
    }
  }

  lemma SupportedParts(s: Schema)
    requires Supported(s) && s.Object? && s.o.obj.Some?
    ensures SupportedFields(s.o.obj.value)
  {
    assert SupportedChildren(s.o);
  }

  lemma DefinitionsForward(s: Schema, fields: map<string, Json>)
    requires Supported(s) && DefinesFields(s) && DefinitionsFit(s, fields)
    ensures FieldsAfter(s, fields)
  {
    if s.o.obj.Some? {
      SupportedParts(s);
      OwnFieldsBefore(s.o.obj.value, fields);
    } else {
      assert SupportedChildren(s.o);
      forall i | 0 <= i < |s.o.oneOf.list| ensures OwnFieldsAfter(s.o.oneOf.list[i].o.obj.value, fields) {
        assert TaggedVariant(s.o.oneOf.list[i]);
        SupportedParts(s.o.oneOf.list[i]);
        OwnFieldsBefore(s.o.oneOf.list[i].o.obj.value, fields);
      }
    }
  }

  /** The definitions collected from tagged variants declare what those of each variant do. */
  lemma CollectDeclares(list: seq<Schema>, fields: map<string, Json>, i: nat)
    requires TaggedList(list) && DeclaredFit(Collect(map[], list), fields) && i < |list|
    ensures DeclaredFit(list[i].o.obj.value.properties, fields)
  {
    forall k | k in Tags(list[i]) && k in fields ensures Declared(list[i].o.obj.value.properties[k], fields[k]) {
      CollectHas(map[], list, i, k);
      ContributionMeaning(list[i], k, fields[k]);
    }
  }

  lemma VariantBackward(v: Schema, fields: map<string, Json>)
    requires TaggedVariant(v) && Supported(v) && Rewrite(v).Some? && IsObjectBranch(Rewrite(v).value)
    requires OwnFieldsAfter(v.o.obj.value, fields) && DeclaredFit(Rewrite(v).value.o.obj.value.properties, fields)
    ensures PropsFit(v.o.obj.value.properties, fields)
  {
    SupportedParts(v);
    OwnFieldsBefore(v.o.obj.value, fields);
    ChildrenParts(v.o);
  }

  lemma TaggedBackwardFields(o: SchemaObject, fields: map<string, Json>)
    requires Supported(Object(o)) && TaggedEnum(o) && RewriteObject(o).Some? && RewriteObject(o).value.obj.Some?
    requires FieldsAfter(Object(o), fields) && DeclaredFit(RewriteObject(o).value.obj.value.properties, fields)
    ensures DefinitionsFit(Object(o), fields)
  {
    TaggedChildren(o);
    var before, c := o.oneOf.list, RewriteChildren(o).value;
    TaggedRoot(c);
    assert SupportedChildren(o);
    forall i | 0 <= i < |before| ensures PropsFit(before[i].o.obj.value.properties, fields) {
      CollectDeclares(c.oneOf.list, fields, i);
      VariantBackward(before[i], fields);
    }
  }

  lemma DefinitionsBackward(s: Schema, fields: map<string, Json>)
    requires Supported(s) && Rewrite(s).Some? && DefinesFields(s) && IsObjectBranch(Rewrite(s).value)
    requires FieldsAfter(s, fields) && DeclaredFit(Rewrite(s).value.o.obj.value.properties, fields)
    ensures DefinitionsFit(s, fields)
  {
    if s.o.obj.Some? {
      SupportedParts(s);
      OwnFieldsBefore(s.o.obj.value, fields);
      ChildrenParts(s.o);
      assert Rewrite(s).value.o.obj.value.properties == RewriteFields(s.o.obj.value).value.properties;
    } else {
      TaggedBackwardFields(s.o, fields);
    }
  }

  /** Definitions that differ in their descriptions declare the same. */
  lemma UndescribedDeclares(p: Schema, q: Schema, x: Json)
    requires Undescribed(p) == Undescribed(q)
    ensures Declared(p, x) == Declared(q, x)
  {
  }

  /** What the rewritten enum declares is what each of its visited branches declares. */
  lemma HoistedDeclares(c: SchemaObject, x: Json, i: nat)
    requires UntaggedEnum(c) && RewriteRoot(c).Some? && x.JObj? && i < |c.anyOf.list| && IsObjectBranch(c.anyOf.list[i])
    requires Declared(Object(RewriteRoot(c).value), x)
    ensures DeclaredFit(c.anyOf.list[i].o.obj.value.properties, x.fields)
  {
    UntaggedIsHoisted(c);
    HoistPropertiesKeeps(Hoist(None, None), c.anyOf.list);
    HoistGives(Hoist(None, None), c.anyOf.list);
    var r, props := RewriteRoot(c).value, c.anyOf.list[i].o.obj.value.properties;
    assert HasObjectBranch(c.anyOf.list) && r.obj.Some?;
    assert FieldsDeclared(r.obj.value, r.preserveUnknown, x.fields);
    forall k | k in props && k in x.fields ensures Declared(props[k], x.fields[k]) {
      UndescribedDeclares(props[k], r.obj.value.properties[k], x.fields[k]);
    }
  }

  lemma BranchBackward(o: SchemaObject, x: Json, i: nat)
    requires UntaggedEnum(o) && RewriteObject(o).Some? && x.JObj? && i < |o.anyOf.list| && Supported(o.anyOf.list[i])
    requires Declared(Object(RewriteObject(o).value), x)
    requires DefinesFields(o.anyOf.list[i]) && FieldsAfter(o.anyOf.list[i], x.fields)
    ensures DefinitionsFit(o.anyOf.list[i], x.fields)
  {
    ChildrenParts(o);
    RewriteAllAt(o.anyOf.list);
    var c := RewriteChildren(o).value;
    SupportedAfter(o.anyOf.list[i], x);
    AfterIsExact(o.anyOf.list[i], x);
    HoistedDeclares(c, x, i);
    DefinitionsBackward(o.anyOf.list[i], x.fields);
  }

  lemma CoveredBranches(o: SchemaObject)
    requires UntaggedEnum(o) && forall i :: 0 <= i < |o.anyOf.list| ==> Supported(o.anyOf.list[i])
    ensures CoveredChildren(o)
  {
    forall i | 0 <= i < |o.anyOf.list| ensures Covered(o.anyOf.list[i]) {
      SupportedIsCovered(o.anyOf.list[i]);
    }
  }

  /** Nothing that was valid and fits the original definitions of all branches is lost. */
  lemma UntaggedForward(o: SchemaObject, x: Json)
    requires UntaggedEnum(o) && RewriteObject(o).Some?
    requires forall i :: 0 <= i < |o.anyOf.list| ==> Supported(o.anyOf.list[i])
    requires ValidObject(o, x) && FitsAllBefore(o.anyOf.list, x)
    ensures ValidObject(RewriteObject(o).value, x)
  {
    CoveredBranches(o);
    UntaggedMeaningVisited(o, x);
    UntaggedValid(o, x);
    var i :| 0 <= i < |o.anyOf.list| && Valid(o.anyOf.list[i], x);
    SupportedAfter(o.anyOf.list[i], x);
    if x.JObj? {
      forall j | 0 <= j < |o.anyOf.list| && DefinesFields(o.anyOf.list[j])
        ensures FieldsAfter(o.anyOf.list[j], x.fields)
      {
        DefinitionsForward(o.anyOf.list[j], x.fields);
      }
    }
  }

  /**
    Conversely a value valid afterwards, without anything undeclared, fits the original definitions of
    all branches and takes one of the branches.
   */
  lemma UntaggedBackward(o: SchemaObject, x: Json)
    requires UntaggedEnum(o) && RewriteObject(o).Some?
    requires forall i :: 0 <= i < |o.anyOf.list| ==> Supported(o.anyOf.list[i])
    requires ValidObject(RewriteObject(o).value, x) && Declared(Object(RewriteObject(o).value), x)
    requires forall i :: 0 <= i < |o.anyOf.list| && !DefinesFields(o.anyOf.list[i]) ==>
               Rewrite(o.anyOf.list[i]).Some? && Declared(Rewrite(o.anyOf.list[i]).value, x)
    ensures FitsAllBefore(o.anyOf.list, x)
    ensures exists i :: 0 <= i < |o.anyOf.list| && TakenBefore(o.anyOf.list[i], x)
  {
    var list := o.anyOf.list;
    CoveredBranches(o);
    UntaggedMeaningVisited(o, x);
    BranchesAfter(list, x);
    var i :| 0 <= i < |list| && TakesBranch(list[i], x);
    SupportedAfter(list[i], x);
    assert TakenBefore(list[i], x);
    forall j | 0 <= j < |list| && DefinesFields(list[j])
      ensures TypeAfter(list[j], x) && (x.JObj? ==> DefinitionsFit(list[j], x.fields))
    {
      if x.JObj? {
        BranchBackward(o, x, j);
      }
    }
  }

  /** Every branch is an object that leaves other fields alone. */
  predicate OpenObjects(list: seq<Schema>) {
    forall i :: 0 <= i < |list| ==>
      IsObjectBranch(list[i]) && NoBranchesIn(list[i].o) && list[i].o.types == OBJECT_TYPE
      && list[i].o.obj.value.additional.None?
  }

  /** For open object variants that is exact, up to undeclared fields: valid before and fitting them all. */
  lemma OpenUntaggedVisited(o: SchemaObject, x: Json)
    requires UntaggedEnum(o) && RewriteObject(o).Some? && OpenObjects(o.anyOf.list)
    requires forall i :: 0 <= i < |o.anyOf.list| ==> Supported(o.anyOf.list[i])
    ensures ValidObject(o, x) && x.JObj? && FitsEveryVariant(o.anyOf.list, x.fields) ==>
              ValidObject(RewriteObject(o).value, x)
    ensures ValidObject(RewriteObject(o).value, x) && Declared(Object(RewriteObject(o).value), x) ==>
              ValidObject(o, x) && x.JObj? && FitsEveryVariant(o.anyOf.list, x.fields)
  {
    var list, r := o.anyOf.list, RewriteObject(o).value;
    assert forall i :: 0 <= i < |list| ==> DefinesFields(list[i]);
    if ValidObject(o, x) && x.JObj? && FitsEveryVariant(list, x.fields) {
      UntaggedForward(o, x);
    }
    if ValidObject(r, x) && Declared(Object(r), x) {
      UntaggedBackward(o, x);
      var i :| 0 <= i < |list| && TakenBefore(list[i], x);
      assert TypeAfter(list[i], x) && x.JObj?;
      OpenBranchValid(list[i], x);
      UntaggedValid(o, x);
    }
  }

  /** A branch with fields of its own that leaves other fields alone was taken before if it is taken now. */
  lemma OpenBranchValid(s: Schema, x: Json)
    requires s.Object? && NoBranchesIn(s.o) && s.o.obj.Some? && x.JObj?
    requires TypeAfter(s, x) && DefinitionsFit(s, x.fields) && ShapeAfter(s, x) && OthersValid(s.o.obj.value, x.fields)
    ensures Valid(s, x)
  {
    BranchValid(s, x);
  }

  // ---------- Values lost and gained ----------

  /** A schema for an object with one string field. */
  function StringField(name: string, additional: Option<Schema>): Schema {
    Object(SchemaObject(None, OBJECT_TYPE, None, NoBranches, NoBranches,
                        Some(ObjectValidation(map[name := Text()], {name}, additional)), None, false))
  }

  function Text(): Schema {
    Object(SchemaObject(None, Some(Single(TString)), None, NoBranches, NoBranches, None, None, false))
  }

  function Either(v: Schema, w: Schema): SchemaObject {
    SchemaObject(None, None, None, NoBranches, Branches([v, w]), None, None, false)
  }

  lemma StringFieldNormal(name: string, closed: bool)
    ensures Normal(StringField(name, if closed then Some(Bool(false)) else None))
  {
    var v := StringField(name, if closed then Some(Bool(false)) else None);
    assert NormalChildren(Text().o) && Normal(Text()) && Normal(Bool(false));
    assert NormalFields(v.o.obj.value);
    assert NormalChildren(v.o);
  }

  /** An enum of two branches in normal form is rewritten by hoisting alone. */
  lemma EitherRewrites(v: Schema, w: Schema)
    requires Normal(v) && Normal(w)
    ensures UntaggedEnum(Either(v, w)) && RewriteObject(Either(v, w)) == RewriteRoot(Either(v, w))
    ensures RewriteAnyOf(Either(v, w)) == RewriteRoot(Either(v, w))
  {
    var o := Either(v, w);
    AllFixed([v, w]);
    ChildrenParts(o);
    UntaggedIsHoisted(o);
  }

  lemma EitherHoists(v: Schema, w: Schema, h1: Hoist, h2: Hoist)
    requires HoistVariant(Hoist(None, None), v).Some? && HoistVariant(Hoist(None, None), v).value.0 == h1
    requires HoistVariant(h1, w).Some? && HoistVariant(h1, w).value.0 == h2
    ensures RewriteAnyOf(Either(v, w)).Some?
  {
    var list := [v, w];
    assert list[1..] == [w] && list[1..][1..] == [];
    HoistCons(h1, list[1..], h2, Hoisted(w), h2, []);
    HoistCons(Hoist(None, None), list, h1, Hoisted(v), h2, [Hoisted(w)] + []);
  }

  lemma FieldsHoist(a: string, b: string, additional: Option<Schema>)
    requires a != b
    ensures RewriteAnyOf(Either(StringField(a, additional), StringField(b, additional))).Some?
  {
    var v, w := StringField(a, additional), StringField(b, additional);
    var h1 := HoistVariant(Hoist(None, None), v).value.0;
    assert RootObject(h1).properties.Keys == {a};
    assert Contribution(w).Keys == {b};
    assert !Conflict(RootObject(h1).properties, Contribution(w));
    EitherHoists(v, w, h1, HoistVariant(h1, w).value.0);
  }

  lemma TextValid(x: Json)
    ensures Valid(Text(), x) <==> x.JStr?
  {
    assert Valid(Text(), x) == ValidObject(Text().o, x);
  }

  lemma StringFieldFits(name: string, additional: Option<Schema>, fields: map<string, Json>)
    ensures PropsFit(StringField(name, additional).o.obj.value.properties, fields) <==>
              (name in fields ==> fields[name].JStr?)
  {
    if name in fields {
      TextValid(fields[name]);
    }
  }

  lemma StringFieldMet(name: string, additional: Option<Schema>, x: Json)
    ensures BranchMet(StringField(name, additional), x) <==> (x.JObj? ==> name in x.fields)
  {
    assert RestValid(StringField(name, additional).o, x);
  }

  /** A field of another variant must suddenly fit that variant: a value is lost. */
  lemma UntaggedCanLoseValues(a: string, b: string)
    requires a != b
    ensures var o, x := Either(StringField(a, None), StringField(b, None)), JObj(map[a := JStr(""), b := JNull]);
            RewriteObject(o).Some? && ValidObject(o, x) && !ValidObject(RewriteObject(o).value, x)
  {
    var v, w, x := StringField(a, None), StringField(b, None), JObj(map[a := JStr(""), b := JNull]);
    var o := Either(v, w);
    StringFieldNormal(a, false);
    StringFieldNormal(b, false);
    EitherRewrites(v, w);
    FieldsHoist(a, b, None);
    StringFieldFits(a, None, x.fields);
    StringFieldFits(b, None, x.fields);
    StringFieldMet(a, None, x);
    BranchValid(v, x);
    assert Valid(o.anyOf.list[0], x);
    UntaggedLoss(o, x);
    assert IsObjectBranch(o.anyOf.list[1]);
  }

  /** Next to an object variant, every value of a variant that is not an object is lost. */
  lemma NonObjectVariantIsLost(a: string, text: string)
    ensures var o, x := Either(Text(), StringField(a, None)), JStr(text);
            RewriteObject(o).Some? && ValidObject(o, x) && !ValidObject(RewriteObject(o).value, x)
  {
    var w, x := StringField(a, None), JStr(text);
    var o := Either(Text(), w);
    StringFieldNormal(a, false);
    assert NormalChildren(Text().o);
    EitherRewrites(Text(), w);
    var h := Hoist(None, None);
    EitherHoists(Text(), w, h, HoistVariant(h, w).value.0);
    TextValid(x);
    assert Valid(o.anyOf.list[0], x);
    UntaggedLoss(o, x);
    assert IsObjectBranch(o.anyOf.list[1]);
  }

  /** Closed variants are closed no longer: a value with the fields of both was invalid and is valid. */
  lemma ClosedVariantsOpenUp(a: string, b: string)
    requires a != b
    ensures var o := Either(StringField(a, Some(Bool(false))), StringField(b, Some(Bool(false))));
            var x := JObj(map[a := JStr(""), b := JStr("")]);
            && RewriteObject(o).Some? && !ValidObject(o, x)
            && ValidObject(RewriteObject(o).value, x) && Declared(Object(RewriteObject(o).value), x)
  {
    var no, x := Some(Bool(false)), JObj(map[a := JStr(""), b := JStr("")]);
    var v, w := StringField(a, no), StringField(b, no);
    var o := Either(v, w);
    StringFieldNormal(a, true);
    StringFieldNormal(b, true);
    EitherRewrites(v, w);
    FieldsHoist(a, b, no);
    StringFieldFits(a, no, x.fields);
    StringFieldFits(b, no, x.fields);
    StringFieldMet(a, no, x);
    assert BranchMet(o.anyOf.list[0], x) && IsObjectBranch(o.anyOf.list[0]);
    UntaggedMeaning(o, x);
    ClosedShutsOut(v, x, b);
    ClosedShutsOut(w, x, a);
    UntaggedValid(o, x);
    BothDeclared(o, v, w, x);
  }

  lemma ClosedShutsOut(v: Schema, x: Json, k: string)
    requires IsObjectBranch(v) && v.o.obj.value.additional == Some(Bool(false))
    requires x.JObj? && k in x.fields && k !in v.o.obj.value.properties
    ensures !Valid(v, x)
  {
    BranchValid(v, x);
    assert !Valid(Bool(false), x.fields[k]);
  }

  lemma BothDeclared(o: SchemaObject, v: Schema, w: Schema, x: Json)
    requires IsObjectBranch(v) && IsObjectBranch(w) && o == Either(v, w) && RewriteRoot(o).Some? && x.JObj?
    requires x.fields.Keys <= Tags(v) + Tags(w) && forall k :: k in x.fields ==> x.fields[k].JStr?
    ensures Declared(Object(RewriteRoot(o).value), x)
  {
    UntaggedIsHoisted(o);
    HoistGives(Hoist(None, None), o.anyOf.list);
    var r := RewriteRoot(o).value;
    assert r.items.None?;
    forall k | k in x.fields ensures r.obj.Some? ==> k in r.obj.value.properties {
      HoistFits(Hoist(None, None), o.anyOf.list, x.fields, k);
      assert IsObjectBranch(o.anyOf.list[0]) && IsObjectBranch(o.anyOf.list[1]);
    }
    assert forall k :: k in x.fields ==> forall p :: Declared(p, x.fields[k]);
  }
}
