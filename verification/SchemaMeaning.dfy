/**
  The rewriter preserves meaning on the schemas it is documented to support: structs, lists, maps,
  externally tagged enums and plain enums, nested to any depth.
 */
module SchemaMeaning {
  import opened Common
  import opened Schema
  import opened SchemaRewriter
  import opened SchemaNormalForm

  const OBJECT_TYPE: Option<TypeSpec> := Some(Single(TObject))

  // ---------- The supported schemas ----------

  predicate NoBranchesIn(o: SchemaObject) {
    o.oneOf.NoBranches? && o.anyOf.NoBranches?
  }

  /** One variant of an externally tagged enum: an object with exactly one field, the tag. */
  predicate TaggedVariant(v: Schema) {
    && v.Object? && NoBranchesIn(v.o)
    && v.o.types == OBJECT_TYPE && v.o.enums.None? && v.o.items.None?
    && v.o.obj.Some?
    && |v.o.obj.value.properties| == 1
    && v.o.obj.value.required == v.o.obj.value.properties.Keys
    && v.o.obj.value.additional == Some(Bool(false))
  }

  function Tags(v: Schema): set<string>
    requires IsObjectBranch(v)
  {
    v.o.obj.value.properties.Keys
  }

  predicate TaggedList(list: seq<Schema>) {
    && (forall i :: 0 <= i < |list| ==> TaggedVariant(list[i]))
    && (forall i, j :: 0 <= i < j < |list| ==> Tags(list[i]) !! Tags(list[j]))
  }

  predicate TaggedEnum(o: SchemaObject) {
    && o.oneOf.Branches? && o.anyOf.NoBranches? && o.oneOf.list != []
    && o.obj.None? && o.enums.None? && o.items.None?
    && (o.types.None? || o.types == OBJECT_TYPE) && !o.preserveUnknown
    && TaggedList(o.oneOf.list)
  }

  /** Some values of a plain enum; a documented value gets a variant of its own. */
  predicate UnitVariant(v: Schema, types: Option<TypeSpec>) {
    && v.Object? && NoBranchesIn(v.o)
    && v.o.types == types && v.o.enums.Some? && v.o.items.None? && v.o.obj.None?
  }

  predicate UnitList(list: seq<Schema>, types: Option<TypeSpec>) {
    && types.Some?
    && (forall i :: 0 <= i < |list| ==> UnitVariant(list[i], types))
    && (forall i, j, x :: 0 <= i < j < |list| && x in list[i].o.enums.value ==> x !in list[j].o.enums.value)
  }

  predicate PlainEnum(o: SchemaObject) {
    && o.oneOf.Branches? && o.anyOf.NoBranches? && o.oneOf.list != []
    && o.obj.None? && o.enums.None? && o.items.None?
    && o.oneOf.list[0].Object?
    && UnitList(o.oneOf.list, o.oneOf.list[0].o.types)
    && (o.types.None? || o.types == o.oneOf.list[0].o.types)
  }

  predicate Supported(s: Schema)
    decreases s
  {
    s.Object? ==> (NoBranchesIn(s.o) || TaggedEnum(s.o) || PlainEnum(s.o)) && SupportedChildren(s.o)
  }

  predicate SupportedChildren(o: SchemaObject)
    decreases o
  {
    && (o.oneOf.Branches? ==> forall i :: 0 <= i < |o.oneOf.list| ==> Supported(o.oneOf.list[i]))
    && (o.obj.Some? ==> SupportedFields(o.obj.value))
    && (o.items.Some? ==> Supported(o.items.value))
  }

  predicate SupportedFields(v: ObjectValidation)
    decreases v
  {
    && (forall k :: k in v.properties ==> Supported(v.properties[k]))
    && (v.additional.Some? ==> Supported(v.additional.value))
  }

  // ---------- Hoisting tagged variants ----------

  lemma DescribeKeepsMeaning(p: Schema, description: string, x: Json)
    ensures Valid(Describe(p, description), x) == Valid(p, x)
    ensures Declared(Describe(p, description), x) == Declared(p, x)
  {
    if p.Object? {
      var q := Describe(p, description);
      assert ValidObject(q.o, x) == ValidObject(p.o, x);
    }
  }

  /** The definition that a tagged variant contributes for its tag. */
  function Contribution(v: Schema): map<string, Schema>
    requires IsObjectBranch(v)
  {
    MoveDescription(v.o.metadata, v.o.obj.value.properties)
  }

  lemma ContributionMeaning(v: Schema, k: string, x: Json)
    requires IsObjectBranch(v) && k in Tags(v)
    ensures k in Contribution(v)
    ensures Valid(Contribution(v)[k], x) == Valid(v.o.obj.value.properties[k], x)
    ensures Declared(Contribution(v)[k], x) == Declared(v.o.obj.value.properties[k], x)
  {
    if v.o.metadata.Some? && v.o.metadata.value.description.Some? {
      DescribeKeepsMeaning(v.o.obj.value.properties[k], v.o.metadata.value.description.value, x);
    }
  }

  function StripAll(list: seq<Schema>): seq<Schema>
    requires forall i :: 0 <= i < |list| ==> IsObjectBranch(list[i])
  {
    seq(|list|, i requires 0 <= i < |list| => Strip(list[i]))
  }

  /** The root's properties once every variant has contributed. */
  function Collect(before: map<string, Schema>, list: seq<Schema>): map<string, Schema>
    requires forall i :: 0 <= i < |list| ==> IsObjectBranch(list[i])
    decreases |list|
  {
    if list == [] then before else Collect(before + Contribution(list[0]), list[1..])
  }

  lemma {:induction false} CollectKeeps(before: map<string, Schema>, list: seq<Schema>, k: string)
    requires forall i :: 0 <= i < |list| ==> IsObjectBranch(list[i]) && k !in Tags(list[i])
    ensures (k in Collect(before, list)) == (k in before)
    ensures k in before ==> Collect(before, list)[k] == before[k]
    decreases |list|
  {
    if list != [] {
      assert Contribution(list[0]).Keys == Tags(list[0]);
      CollectKeeps(before + Contribution(list[0]), list[1..], k);
    }
  }

  /** A tag that only one variant has gets that variant's definition. */
  lemma {:induction false} CollectHas(before: map<string, Schema>, list: seq<Schema>, i: nat, k: string)
    requires forall j :: 0 <= j < |list| ==> IsObjectBranch(list[j])
    requires i < |list| && k in Tags(list[i])
    requires forall j :: i < j < |list| ==> k !in Tags(list[j])
    ensures k in Contribution(list[i])
    ensures k in Collect(before, list) && Collect(before, list)[k] == Contribution(list[i])[k]
    decreases |list|
  {
    assert Contribution(list[i]).Keys == Tags(list[i]);
    if i == 0 {
      CollectKeeps(before + Contribution(list[0]), list[1..], k);
    } else {
      assert list[1..][i - 1] == list[i];
      CollectHas(before + Contribution(list[0]), list[1..], i - 1, k);
    }
  }

  lemma {:induction false} CollectOnly(before: map<string, Schema>, list: seq<Schema>, k: string)
    requires forall j :: 0 <= j < |list| ==> IsObjectBranch(list[j])
    requires k in Collect(before, list) && k !in before
    ensures exists i :: 0 <= i < |list| && k in Tags(list[i])
  {
    if forall i :: 0 <= i < |list| ==> k !in Tags(list[i]) {
      CollectKeeps(before, list, k);
      assert false;
    }
  }

  lemma HoistTaggedVariant(h: Hoist, v: Schema)
    requires TaggedVariant(v) && (h.types.None? || h.types == OBJECT_TYPE)
    requires Tags(v) !! RootObject(h).properties.Keys
    ensures HoistVariant(h, v)
         == Some((Hoist(Some(RootObject(h).(properties := RootObject(h).properties + Contribution(v))), OBJECT_TYPE),
                  Strip(v)))
  {
    assert Contribution(v).Keys == Tags(v);
    assert !Conflict(RootObject(h).properties, Contribution(v));
  }

  /** The root after its first variant: an object, collecting definitions. */
  function Collecting(root: ObjectValidation, props: map<string, Schema>): Hoist {
    Hoist(Some(root.(properties := props)), OBJECT_TYPE)
  }

  lemma TailOfTagged(list: seq<Schema>)
    requires TaggedList(list) && list != []
    ensures TaggedList(list[1..])
    ensures forall i :: 0 <= i < |list[1..]| ==> Tags(list[1..][i]) !! Tags(list[0])
    ensures [Strip(list[0])] + StripAll(list[1..]) == StripAll(list)
  {
    assert forall i :: 0 <= i < |list[1..]| ==> list[1..][i] == list[i + 1];
  }

  lemma {:induction false} HoistTagged(root: ObjectValidation, props: map<string, Schema>, list: seq<Schema>)
    requires TaggedList(list)
    requires forall i :: 0 <= i < |list| ==> Tags(list[i]) !! props.Keys
    ensures HoistProperties(Collecting(root, props), list)
         == Some((Collecting(root, Collect(props, list)), StripAll(list)))
    decreases |list|
  {
    if list == [] {
      assert StripAll(list) == [];
    } else {
      HoistTaggedRest(root, Collecting(root, props), props, list);
    }
  }

  lemma HoistFirstTagged(root: ObjectValidation, h: Hoist, props: map<string, Schema>, v: Schema)
    requires TaggedVariant(v) && Tags(v) !! props.Keys
    requires RootObject(h) == root.(properties := props) && (h.types.None? || h.types == OBJECT_TYPE)
    ensures HoistVariant(h, v) == Some((Collecting(root, props + Contribution(v)), Strip(v)))
    ensures (props + Contribution(v)).Keys == props.Keys + Tags(v)
  {
    HoistTaggedVariant(h, v);
    assert Contribution(v).Keys == Tags(v);
  }

  /** A first variant, on a root that may not be an object yet, and the variants after it. */
  lemma {:induction false} HoistTaggedRest(
    root: ObjectValidation, h: Hoist, props: map<string, Schema>, list: seq<Schema>)
    requires TaggedList(list) && list != []
    requires forall i :: 0 <= i < |list| ==> Tags(list[i]) !! props.Keys
    requires RootObject(h) == root.(properties := props) && (h.types.None? || h.types == OBJECT_TYPE)
    ensures HoistProperties(h, list) == Some((Collecting(root, Collect(props, list)), StripAll(list)))
    decreases |list|, 0
  {
    var more := props + Contribution(list[0]);
    HoistFirstTagged(root, h, props, list[0]);
    TailOfTagged(list);
    HoistTagged(root, more, list[1..]);
    assert Collect(props, list) == Collect(more, list[1..]);
    var all := Collecting(root, Collect(more, list[1..]));
    HoistCons(h, list, Collecting(root, more), Strip(list[0]), all, StripAll(list[1..]));
  }

  // ---------- Tagged enums keep their meaning ----------

  /** An instance of a tagged variant has the tag, a valid payload and nothing else. */
  lemma TaggedValid(v: Schema, x: Json)
    requires TaggedVariant(v)
    ensures Valid(v, x) <==>
              && x.JObj? && x.fields.Keys == Tags(v)
              && forall k :: k in Tags(v) ==> Valid(v.o.obj.value.properties[k], x.fields[k])
  {
    if x.JObj? {
      assert ValidObject(v.o, x) == FieldsValid(v.o.obj.value, x.fields);
      ClosedFields(v.o.obj.value, x.fields);
    }
  }

  /** Requiring all properties and admitting no others fixes the set of fields. */
  lemma ClosedFields(v: ObjectValidation, fields: map<string, Json>)
    requires v.required == v.properties.Keys && v.additional == Some(Bool(false))
    ensures FieldsValid(v, fields) <==>
              && fields.Keys == v.properties.Keys
              && forall k :: k in v.properties && k in fields ==> Valid(v.properties[k], fields[k])
  {
    if FieldsValid(v, fields) {
      forall k | k in fields ensures k in v.properties {
        assert !Valid(Bool(false), fields[k]);
      }
    }
  }

  /** A stripped variant only asks for the tag. */
  lemma StrippedValid(v: Schema, x: Json)
    requires TaggedVariant(v) && x.JObj?
    ensures Valid(Strip(v), x) <==> Tags(v) <= x.fields.Keys
  {
    assert ValidObject(Strip(v).o, x) == FieldsValid(Strip(v).o.obj.value, x.fields);
  }

  /** The children of a tagged enum are rewritten in place: each variant keeps its shape. */
  lemma TaggedVariantRewrites(v: Schema)
    requires TaggedVariant(v) && Rewrite(v).Some?
    ensures TaggedVariant(Rewrite(v).value) && Tags(Rewrite(v).value) == Tags(v)
    ensures forall k :: k in Tags(v) ==>
              Rewrite(v.o.obj.value.properties[k]) == Some(Rewrite(v).value.o.obj.value.properties[k])
  {
    ChildrenParts(v.o);
    assert Rewrite(Bool(false)) == Some(Bool(false));
    var p, q := v.o.obj.value.properties, RewriteFields(v.o.obj.value).value.properties;
    assert q.Keys == p.Keys;
    assert |q| == |q.Keys| && |p| == |p.Keys|;
  }

  lemma StrippedHasNoEnums(list: seq<Schema>)
    requires TaggedList(list)
    ensures NoEnumBranch(StripAll(list))
  {
  }

  lemma TaggedOneOf(c: SchemaObject)
    requires TaggedEnum(c)
    ensures RewriteOneOf(c) == Some(c.(obj := Some(EMPTY_OBJECT.(properties := Collect(map[], c.oneOf.list))),
                                       types := OBJECT_TYPE, oneOf := Branches(StripAll(c.oneOf.list))))
  {
    var list := c.oneOf.list;
    HoistTaggedRest(EMPTY_OBJECT, Hoist(c.obj, c.types), map[], list);
    var stripped := StripAll(list);
    assert stripped[0] == Strip(list[0]);
    StrippedHasNoEnums(list);
    HoistEnumsFixed(Gather(c.enums, OBJECT_TYPE), stripped);
  }

  /** The rewritten tagged enum, spelled out. */
  lemma TaggedRoot(c: SchemaObject)
    requires TaggedEnum(c)
    ensures RewriteRoot(c).Some?
    ensures var r := RewriteRoot(c).value;
            && r.types == OBJECT_TYPE && r.enums.None? && r.items.None? && r.anyOf.NoBranches?
            && r.oneOf == Branches(StripAll(c.oneOf.list))
            && r.obj.Some? && r.obj.value.required == {} && r.obj.value.additional.None?
            && r.obj.value.properties == Collect(map[], c.oneOf.list)
            && r.preserveUnknown == c.preserveUnknown
  {
    TaggedOneOf(c);
  }

  /** Two sets of one tag each: an object holds all of one or none of it. */
  lemma TagInOrOut(v: Schema, keys: set<string>)
    requires TaggedVariant(v)
    ensures Tags(v) <= keys || Tags(v) !! keys
  {
    var k :| k in v.o.obj.value.properties;
    if Tags(v) != {k} {
      var other :| other in Tags(v) && other != k;
      assert {k, other} <= Tags(v);
      SubsetCardinality({k, other}, Tags(v));
      assert false;
    }
  }

  lemma {:induction false} SubsetCardinality<T>(a: set<T>, b: set<T>)
    requires a <= b
    ensures |a| <= |b|
    decreases b
  {
    if a != {} {
      var x :| x in a;
      SubsetCardinality(a - {x}, b - {x});
    }
  }

  /** Nothing valid is lost, and nothing new becomes valid among values without undeclared fields. */
  ghost predicate SameMeaning(s: Schema, t: Schema, x: Json) {
    && (Valid(s, x) ==> Valid(t, x))
    && (Valid(t, x) && Declared(t, x) ==> Valid(s, x))
  }

  /** The payloads of `x` mean the same to each variant and to its rewritten form. */
  ghost predicate SamePayloads(before: seq<Schema>, after: seq<Schema>, x: Json) {
    && TaggedList(before) && TaggedList(after) && |before| == |after|
    && forall i :: 0 <= i < |before| ==>
         && Tags(after[i]) == Tags(before[i])
         && forall k :: k in Tags(before[i]) && x.JObj? && k in x.fields ==>
              SameMeaning(before[i].o.obj.value.properties[k], after[i].o.obj.value.properties[k], x.fields[k])
  }

  lemma OwnTagOnly(list: seq<Schema>, x: Json, i: nat)
    requires TaggedList(list) && i < |list| && x.JObj? && x.fields.Keys == Tags(list[i])
    ensures OnlyValid(StripAll(list), x, i)
  {
    forall j | 0 <= j < |list| ensures Valid(StripAll(list)[j], x) <==> j == i {
      StrippedValid(list[j], x);
      assert StripAll(list)[j] == Strip(list[j]);
      if j != i {
        assert Tags(list[j]) !! Tags(list[i]);
        assert Tags(list[j]) != {};
      }
    }
  }

  lemma TaggedFields(list: seq<Schema>, x: Json, i: nat)
    requires TaggedList(list) && i < |list| && x.JObj? && x.fields.Keys == Tags(list[i])
    requires forall k :: k in Tags(list[i]) ==> Valid(list[i].o.obj.value.properties[k], x.fields[k])
    ensures forall k :: k in x.fields ==>
              k in Collect(map[], list) && Valid(Collect(map[], list)[k], x.fields[k])
  {
    forall k | k in x.fields ensures k in Collect(map[], list) && Valid(Collect(map[], list)[k], x.fields[k]) {
      CollectHas(map[], list, i, k);
      ContributionMeaning(list[i], k, x.fields[k]);
    }
  }

  /** Forward: the one valid variant of `x` stays the one branch whose tag it has. */
  lemma TaggedForward(o: SchemaObject, c: SchemaObject, x: Json, i: nat)
    requires TaggedEnum(o) && TaggedEnum(c) && SamePayloads(o.oneOf.list, c.oneOf.list, x)
    requires OnlyValid(o.oneOf.list, x, i)
    ensures RewriteRoot(c).Some? && ValidObject(RewriteRoot(c).value, x)
  {
    var after := c.oneOf.list;
    TaggedValid(o.oneOf.list[i], x);
    OwnTagOnly(after, x, i);
    CountOne(StripAll(after), x);
    TaggedFields(after, x, i);
    TaggedRoot(c);
    var r := RewriteRoot(c).value;
    assert FieldsValid(r.obj.value, x.fields);
  }

  /** The only stripped branch that `x` fits is the only variant whose tag it has. */
  lemma OnlyTagHeld(list: seq<Schema>, x: Json, i: nat)
    requires TaggedList(list) && x.JObj? && OnlyValid(StripAll(list), x, i)
    ensures Tags(list[i]) <= x.fields.Keys
    ensures forall j :: 0 <= j < |list| && j != i ==> Tags(list[j]) !! x.fields.Keys
  {
    forall j | 0 <= j < |list|
      ensures if j == i then Tags(list[j]) <= x.fields.Keys else Tags(list[j]) !! x.fields.Keys
    {
      StrippedValid(list[j], x);
      TagInOrOut(list[j], x.fields.Keys);
      assert StripAll(list)[j] == Strip(list[j]);
    }
  }

  /** If every field is a collected one and only one variant's tag is held, the fields are that tag. */
  lemma FieldsAreTheTag(list: seq<Schema>, fields: map<string, Json>, i: nat)
    requires TaggedList(list) && i < |list| && Tags(list[i]) <= fields.Keys
    requires forall j :: 0 <= j < |list| && j != i ==> Tags(list[j]) !! fields.Keys
    requires fields.Keys <= Collect(map[], list).Keys
    ensures fields.Keys == Tags(list[i])
  {
    forall k | k in fields ensures k in Tags(list[i]) {
      CollectOnly(map[], list, k);
    }
  }

  lemma PayloadsValid(before: seq<Schema>, after: seq<Schema>, x: Json, i: nat)
    requires SamePayloads(before, after, x) && i < |before| && x.JObj? && x.fields.Keys == Tags(before[i])
    requires forall k :: k in x.fields && k in Collect(map[], after) ==>
               Valid(Collect(map[], after)[k], x.fields[k]) && Declared(Collect(map[], after)[k], x.fields[k])
    ensures Valid(before[i], x)
  {
    forall k | k in Tags(before[i]) ensures Valid(before[i].o.obj.value.properties[k], x.fields[k]) {
      CollectHas(map[], after, i, k);
      ContributionMeaning(after[i], k, x.fields[k]);
      assert SameMeaning(before[i].o.obj.value.properties[k], after[i].o.obj.value.properties[k], x.fields[k]);
    }
    TaggedValid(before[i], x);
  }

  lemma OwnTagIsOwnVariant(list: seq<Schema>, x: Json, i: nat)
    requires TaggedList(list) && i < |list| && x.JObj? && x.fields.Keys == Tags(list[i]) && Valid(list[i], x)
    ensures OnlyValid(list, x, i)
  {
    forall j | 0 <= j < |list| && j != i ensures !Valid(list[j], x) {
      TaggedValid(list[j], x);
      assert Tags(list[j]) != {};
    }
  }

  /** Backward: without undeclared fields, having one tag and no other is being that variant. */
  lemma TaggedBackward(o: SchemaObject, c: SchemaObject, x: Json, i: nat)
    requires TaggedEnum(o) && TaggedEnum(c) && SamePayloads(o.oneOf.list, c.oneOf.list, x)
    requires RewriteRoot(c).Some? && ValidObject(RewriteRoot(c).value, x)
    requires Declared(Object(RewriteRoot(c).value), x)
    requires OnlyValid(StripAll(c.oneOf.list), x, i)
    ensures OnlyValid(o.oneOf.list, x, i)
  {
    TaggedRoot(c);
    var r := RewriteRoot(c).value;
    var before, after := o.oneOf.list, c.oneOf.list;
    OnlyTagHeld(after, x, i);
    assert FieldsValid(r.obj.value, x.fields) && FieldsDeclared(r.obj.value, r.preserveUnknown, x.fields);
    FieldsAreTheTag(after, x.fields, i);
    PayloadsValid(before, after, x, i);
    OwnTagIsOwnVariant(before, x, i);
  }

  // ---------- Plain enums keep their meaning ----------

  lemma UnitVariantRewrites(v: Schema, types: Option<TypeSpec>)
    requires UnitVariant(v, types)
    ensures Rewrite(v) == Some(v)
  {
    ChildrenParts(v.o);
  }

  lemma {:induction false} GatherUnits(g: Gather, list: seq<Schema>, types: Option<TypeSpec>)
    requires UnitList(list, types) && (g.types.None? || g.types == types)
    requires g.enums.Some?
    ensures HoistEnums(g, list).Some? && HoistEnums(g, list).value.1 == []
    ensures var g1 := HoistEnums(g, list).value.0;
            && g1.enums.Some? && g1.types == (if list == [] then g.types else types)
            && (forall x :: x in g1.enums.value <==>
                  x in g.enums.value || exists i :: 0 <= i < |list| && x in list[i].o.enums.value)
    decreases |list|
  {
    if list != [] {
      var v, rest := list[0], list[1..];
      assert UnitVariant(v, types);
      assert forall i :: 0 <= i < |rest| ==> rest[i] == list[i + 1];
      var g1 := GatherVariant(g, v.o).value;
      GatherUnits(g1, rest, types);
      var g2 := HoistEnums(g1, rest).value.0;
      forall x ensures x in g2.enums.value <==>
                 x in g.enums.value || exists i :: 0 <= i < |list| && x in list[i].o.enums.value
      {
        if i :| 0 <= i < |list| && x in list[i].o.enums.value {
          if i > 0 {
            assert x in rest[i - 1].o.enums.value;
          }
        }
        if x in g2.enums.value && x !in g1.enums.value {
          var i :| 0 <= i < |rest| && x in rest[i].o.enums.value;
          assert x in list[i + 1].o.enums.value;
        }
      }
    }
  }

  /** The rewritten plain enum: one list of values under the common type. */
  lemma PlainEnumRoot(o: SchemaObject)
    requires PlainEnum(o)
    ensures RewriteRoot(o).Some?
    ensures var r := RewriteRoot(o).value;
            && NoBranchesIn(r) && r.obj.None? && r.items.None? && r.enums.Some?
            && r.types == o.oneOf.list[0].o.types
            && forall x :: x in r.enums.value <==>
                 exists i :: 0 <= i < |o.oneOf.list| && x in o.oneOf.list[i].o.enums.value
  {
    var list, types := o.oneOf.list, o.oneOf.list[0].o.types;
    assert forall i :: 0 <= i < |list| ==> UnitVariant(list[i], types);
    HoistPropertiesFixed(Hoist(o.obj, o.types), list);
    GatherUnits(Gather(Some([]), o.types), list, types);
    assert HoistEnums(Gather(o.enums, o.types), list) == HoistEnums(Gather(Some([]), o.types), list);
  }

  lemma PlainEnumMeaning(o: SchemaObject, x: Json)
    requires PlainEnum(o)
    ensures RewriteRoot(o).Some? && (ValidObject(o, x) <==> ValidObject(RewriteRoot(o).value, x))
  {
    PlainEnumRoot(o);
    var list, types := o.oneOf.list, o.oneOf.list[0].o.types;
    forall i | 0 <= i < |list| ensures Valid(list[i], x) <==> TypesOk(types, x) && x in list[i].o.enums.value {
      assert UnitVariant(list[i], types);
      assert Valid(list[i], x) == ValidObject(list[i].o, x);
    }
    CountOne(list, x);
    if TypesOk(types, x) {
      if i :| 0 <= i < |list| && x in list[i].o.enums.value {
        assert OnlyValid(list, x, i);
      }
    }
  }

  // ---------- The theorem ----------

  /** The pass never panics on a supported schema. */
  lemma {:induction false} SupportedNeverPanics(s: Schema)
    requires Supported(s)
    ensures Rewrite(s).Some?
    decreases s
  {
    if s.Object? {
      var o := s.o;
      ChildrenParts(o);
      if o.oneOf.Branches? {
        AllNeverPanic(o.oneOf.list);
      }
      if o.obj.Some? {
        FieldsNeverPanic(o.obj.value);
      }
      if o.items.Some? {
        SupportedNeverPanics(o.items.value);
      }
      RootNeverPanics(o);
    }
  }

  lemma {:induction false} AllNeverPanic(list: seq<Schema>)
    requires forall i :: 0 <= i < |list| ==> Supported(list[i])
    ensures RewriteAll(list).Some?
    decreases list
  {
    RewriteAllAt(list);
    forall i | 0 <= i < |list| ensures Rewrite(list[i]).Some? {
      SupportedNeverPanics(list[i]);
    }
  }

  lemma {:induction false} FieldsNeverPanic(v: ObjectValidation)
    requires SupportedFields(v)
    ensures RewriteFields(v).Some?
    decreases v
  {
    forall k | k in v.properties ensures Rewrite(v.properties[k]).Some? {
      SupportedNeverPanics(v.properties[k]);
    }
    if v.additional.Some? {
      SupportedNeverPanics(v.additional.value);
    }
  }

  lemma PlainEnumChildren(o: SchemaObject)
    requires PlainEnum(o)
    ensures RewriteChildren(o) == Some(o)
  {
    ChildrenParts(o);
    var list := o.oneOf.list;
    RewriteAllAt(list);
    forall i | 0 <= i < |list| ensures Rewrite(list[i]) == Some(list[i]) {
      UnitVariantRewrites(list[i], list[0].o.types);
    }
    assert RewriteAll(list).value == list;
  }

  lemma TaggedChildren(o: SchemaObject)
    requires TaggedEnum(o) && RewriteChildren(o).Some?
    ensures var c := RewriteChildren(o).value;
            && TaggedEnum(c) && |c.oneOf.list| == |o.oneOf.list|
            && forall i :: 0 <= i < |o.oneOf.list| ==> Rewrite(o.oneOf.list[i]) == Some(c.oneOf.list[i])
  {
    ChildrenParts(o);
    var list, out := o.oneOf.list, RewriteAll(o.oneOf.list).value;
    RewriteAllAt(list);
    forall i | 0 <= i < |list| ensures TaggedVariant(out[i]) && Tags(out[i]) == Tags(list[i]) {
      TaggedVariantRewrites(list[i]);
    }
  }

  lemma RootNeverPanics(o: SchemaObject)
    requires NoBranchesIn(o) || TaggedEnum(o) || PlainEnum(o)
    requires RewriteChildren(o).Some?
    ensures RewriteObject(o).Some?
  {
    if TaggedEnum(o) {
      TaggedChildren(o);
      TaggedRoot(RewriteChildren(o).value);
    } else if PlainEnum(o) {
      PlainEnumChildren(o);
      PlainEnumRoot(o);
    } else {
      ChildrenParts(o);
    }
  }

  /**
    Meaning is preserved. For every supported schema and every JSON value: a value valid before the
    pass is valid after it, and a value valid after it that has no undeclared fields was valid before.
   */
  lemma {:induction false} MeaningPreserved(s: Schema, x: Json)
    requires Supported(s)
    ensures Rewrite(s).Some? && SameMeaning(s, Rewrite(s).value, x)
    decreases s
  {
    SupportedNeverPanics(s);
    if s.Object? {
      if TaggedEnum(s.o) {
        TaggedMeaning(s.o, x);
      } else if PlainEnum(s.o) {
        PlainEnumChildren(s.o);
        PlainEnumMeaning(s.o, x);
      } else {
        StructMeaning(s.o, x);
      }
    }
  }

  lemma {:induction false} TaggedMeaning(o: SchemaObject, x: Json)
    requires Supported(Object(o)) && TaggedEnum(o) && RewriteObject(o).Some?
    ensures SameMeaning(Object(o), Object(RewriteObject(o).value), x)
    decreases o
  {
    TaggedChildren(o);
    var c := RewriteChildren(o).value;
    var before, after := o.oneOf.list, c.oneOf.list;
    forall i | 0 <= i < |before| ensures Tags(after[i]) == Tags(before[i]) {
      TaggedVariantRewrites(before[i]);
    }
    forall i, k | 0 <= i < |before| && k in Tags(before[i]) && x.JObj? && k in x.fields
      ensures SameMeaning(before[i].o.obj.value.properties[k], after[i].o.obj.value.properties[k], x.fields[k])
    {
      PayloadMeaning(before[i], k, x.fields[k]);
    }
    assert SamePayloads(before, after, x);
    TaggedEither(o, c, x);
  }

  lemma {:induction false} PayloadMeaning(v: Schema, k: string, y: Json)
    requires TaggedVariant(v) && Supported(v) && Rewrite(v).Some? && k in Tags(v)
    ensures TaggedVariant(Rewrite(v).value) && k in Tags(Rewrite(v).value)
    ensures SameMeaning(v.o.obj.value.properties[k], Rewrite(v).value.o.obj.value.properties[k], y)
    decreases v
  {
    TaggedVariantRewrites(v);
    assert SupportedChildren(v.o);
    assert SupportedFields(v.o.obj.value);
    MeaningPreserved(v.o.obj.value.properties[k], y);
  }

  lemma TaggedEither(o: SchemaObject, c: SchemaObject, x: Json)
    requires TaggedEnum(o) && TaggedEnum(c) && SamePayloads(o.oneOf.list, c.oneOf.list, x)
    ensures RewriteRoot(c).Some? && SameMeaning(Object(o), Object(RewriteRoot(c).value), x)
  {
    TaggedRoot(c);
    var r := RewriteRoot(c).value;
    CountOne(o.oneOf.list, x);
    CountOne(r.oneOf.list, x);
    if ValidObject(o, x) {
      var i: nat :| OnlyValid(o.oneOf.list, x, i);
      TaggedForward(o, c, x, i);
    }
    if ValidObject(r, x) && Declared(Object(r), x) {
      var i: nat :| OnlyValid(r.oneOf.list, x, i);
      TaggedBackward(o, c, x, i);
      TaggedValid(o.oneOf.list[i], x);
      assert ValidObject(o, x);
    }
  }

  lemma {:induction false} StructMeaning(o: SchemaObject, x: Json)
    requires Supported(Object(o)) && NoBranchesIn(o) && RewriteObject(o).Some?
    ensures SameMeaning(Object(o), Object(RewriteObject(o).value), x)
    decreases o
  {
    ChildrenParts(o);
    var c := RewriteChildren(o).value;
    var r := RewriteObject(o).value;
    assert r == RewriteFlattened(c);
    if o.items.Some? && x.JArr? {
      forall i | 0 <= i < |x.elems| ensures SameMeaning(o.items.value, r.items.value, x.elems[i]) {
        MeaningPreserved(o.items.value, x.elems[i]);
      }
    }
    if o.obj.Some? && x.JObj? {
      FieldsMeaning(o.obj.value, c.preserveUnknown, x.fields);
      FlattenedMeaning(c, x.fields);
    }
    StructParts(o, r, x);
  }

  /** A schema without branches means what its parts mean. */
  lemma StructParts(o: SchemaObject, r: SchemaObject, x: Json)
    requires NoBranchesIn(o) && NoBranchesIn(r) && o.types == r.types && o.enums == r.enums
    requires o.items.Some? == r.items.Some? && o.obj.Some? == r.obj.Some?
    requires o.items.Some? && x.JArr? ==>
               forall i :: 0 <= i < |x.elems| ==> SameMeaning(o.items.value, r.items.value, x.elems[i])
    requires o.obj.Some? && x.JObj? ==>
               && (FieldsValid(o.obj.value, x.fields) ==> FieldsValid(r.obj.value, x.fields))
               && (FieldsValid(r.obj.value, x.fields) && FieldsDeclared(r.obj.value, r.preserveUnknown, x.fields) ==>
                     FieldsValid(o.obj.value, x.fields))
    ensures SameMeaning(Object(o), Object(r), x)
  {
    assert Valid(Object(o), x) == ValidObject(o, x);
    assert Valid(Object(r), x) == ValidObject(r, x);
  }

  lemma FlattenedMeaning(c: SchemaObject, fields: map<string, Json>)
    requires c.obj.Some?
    ensures var r := RewriteFlattened(c);
            && r.obj.Some?
            && (FieldsValid(r.obj.value, fields) <==> FieldsValid(c.obj.value, fields))
            && (FieldsDeclared(r.obj.value, r.preserveUnknown, fields) <==>
                  FieldsDeclared(c.obj.value, c.preserveUnknown, fields))
  {
    var r := RewriteFlattened(c);
    if r != c {
      assert forall x :: Valid(Bool(true), x) && Declared(Bool(true), x);
      assert r.obj.value.properties == c.obj.value.properties;
    }
  }

  lemma {:induction false} FieldsMeaning(v: ObjectValidation, preserve: bool, fields: map<string, Json>)
    requires SupportedFields(v)
    ensures RewriteFields(v).Some?
    ensures FieldsValid(v, fields) ==> FieldsValid(RewriteFields(v).value, fields)
    ensures FieldsValid(RewriteFields(v).value, fields) && FieldsDeclared(RewriteFields(v).value, preserve, fields) ==>
              FieldsValid(v, fields)
    decreases v
  {
    FieldsNeverPanic(v);
    var w := RewriteFields(v).value;
    forall k | k in fields && k in v.properties ensures SameMeaning(v.properties[k], w.properties[k], fields[k]) {
      MeaningPreserved(v.properties[k], fields[k]);
    }
    if v.additional.Some? {
      forall k | k in fields && k !in v.properties
        ensures SameMeaning(v.additional.value, w.additional.value, fields[k])
      {
        MeaningPreserved(v.additional.value, fields[k]);
      }
    }
  }

  // ---------- Nothing known is pruned ----------

  /**
    Every field is one that the schema says something about, or the variant that the value is an
    instance of does.
   */
  predicate Known(s: Schema, x: Json)
    decreases s
  {
    s.Object? ==>
      && (s.o.obj.Some? && x.JObj? ==> FieldsKnown(s.o.obj.value, s.o.preserveUnknown, x.fields))
      && (s.o.items.Some? && x.JArr? ==> forall i :: 0 <= i < |x.elems| ==> Known(s.o.items.value, x.elems[i]))
      && (s.o.oneOf.Branches? ==>
            forall i :: 0 <= i < |s.o.oneOf.list| && Valid(s.o.oneOf.list[i], x) ==> Known(s.o.oneOf.list[i], x))
  }

  predicate FieldsKnown(v: ObjectValidation, preserve: bool, fields: map<string, Json>)
    decreases v
  {
    forall k :: k in fields ==>
      if k in v.properties then Known(v.properties[k], fields[k])
      else if v.additional.Some? then Known(v.additional.value, fields[k])
      else preserve
  }

  /**
    Nothing is pruned that the original schema knows: a value that was valid and whose fields were all
    known has no undeclared fields after the pass. In particular a struct with a flattened map goes
    on keeping the fields it does not name.
   */
  lemma {:induction false} KnownStaysDeclared(s: Schema, x: Json)
    requires Supported(s) && Valid(s, x) && Known(s, x)
    ensures Rewrite(s).Some? && Declared(Rewrite(s).value, x)
    decreases s
  {
    SupportedNeverPanics(s);
    if s.Object? {
      if TaggedEnum(s.o) {
        TaggedStaysDeclared(s.o, x);
      } else if PlainEnum(s.o) {
        PlainEnumChildren(s.o);
        PlainEnumRoot(s.o);
      } else {
        StructStaysDeclared(s.o, x);
      }
    }
  }

  lemma {:induction false} FieldsStayDeclared(v: ObjectValidation, preserve: bool, fields: map<string, Json>)
    requires SupportedFields(v) && FieldsValid(v, fields) && FieldsKnown(v, preserve, fields)
    ensures RewriteFields(v).Some? && FieldsDeclared(RewriteFields(v).value, preserve, fields)
    decreases v
  {
    FieldsNeverPanic(v);
    forall k | k in fields && k in v.properties
      ensures Declared(RewriteFields(v).value.properties[k], fields[k])
    {
      KnownStaysDeclared(v.properties[k], fields[k]);
    }
    if v.additional.Some? {
      forall k | k in fields && k !in v.properties
        ensures Declared(RewriteFields(v).value.additional.value, fields[k])
      {
        KnownStaysDeclared(v.additional.value, fields[k]);
      }
    }
  }

  lemma {:induction false} StructStaysDeclared(o: SchemaObject, x: Json)
    requires Supported(Object(o)) && NoBranchesIn(o) && RewriteObject(o).Some?
    requires ValidObject(o, x) && Known(Object(o), x)
    ensures Declared(Object(RewriteObject(o).value), x)
    decreases o
  {
    ChildrenParts(o);
    var c := RewriteChildren(o).value;
    assert RewriteObject(o).value == RewriteFlattened(c);
    assert SupportedChildren(o);
    if o.items.Some? && x.JArr? {
      forall i | 0 <= i < |x.elems| ensures Declared(c.items.value, x.elems[i]) {
        KnownStaysDeclared(o.items.value, x.elems[i]);
      }
    }
    if o.obj.Some? && x.JObj? {
      FieldsStayDeclared(o.obj.value, o.preserveUnknown, x.fields);
      FlattenedMeaning(c, x.fields);
    }
  }

  /** A payload of the variant that the value is an instance of. */
  lemma {:induction false} PayloadStaysDeclared(v: Schema, x: Json, k: string)
    requires TaggedVariant(v) && Supported(v) && Rewrite(v).Some? && k in Tags(v)
    requires Valid(v, x) && Known(v, x)
    ensures TaggedVariant(Rewrite(v).value) && k in Tags(Rewrite(v).value)
    ensures x.JObj? && k in x.fields && Declared(Rewrite(v).value.o.obj.value.properties[k], x.fields[k])
    decreases v
  {
    TaggedVariantRewrites(v);
    TaggedValid(v, x);
    assert SupportedChildren(v.o) && SupportedFields(v.o.obj.value);
    assert FieldsKnown(v.o.obj.value, v.o.preserveUnknown, x.fields);
    KnownStaysDeclared(v.o.obj.value.properties[k], x.fields[k]);
  }

  lemma {:induction false} InstanceStaysDeclared(o: SchemaObject, c: SchemaObject, x: Json, i: nat)
    requires TaggedEnum(o) && TaggedEnum(c) && SupportedChildren(o) && i < |o.oneOf.list| == |c.oneOf.list|
    requires Rewrite(o.oneOf.list[i]) == Some(c.oneOf.list[i])
    requires Valid(o.oneOf.list[i], x) && Known(o.oneOf.list[i], x)
    ensures x.JObj?
    ensures forall k :: k in x.fields ==>
              k in Collect(map[], c.oneOf.list) && Declared(Collect(map[], c.oneOf.list)[k], x.fields[k])
    decreases o, 0
  {
    var v := o.oneOf.list[i];
    TaggedValid(v, x);
    TaggedVariantRewrites(v);
    forall k | k in x.fields
      ensures k in Collect(map[], c.oneOf.list) && Declared(Collect(map[], c.oneOf.list)[k], x.fields[k])
    {
      PayloadStaysDeclared(v, x, k);
      CollectHas(map[], c.oneOf.list, i, k);
      ContributionMeaning(c.oneOf.list[i], k, x.fields[k]);
    }
  }

  lemma {:induction false} TaggedStaysDeclared(o: SchemaObject, x: Json)
    requires Supported(Object(o)) && TaggedEnum(o) && RewriteObject(o).Some?
    requires ValidObject(o, x) && Known(Object(o), x)
    ensures Declared(Object(RewriteObject(o).value), x)
    decreases o, 1
  {
    TaggedChildren(o);
    var c := RewriteChildren(o).value;
    TaggedRoot(c);
    CountOne(o.oneOf.list, x);
    var i: nat :| OnlyValid(o.oneOf.list, x, i);
    InstanceStaysDeclared(o, c, x, i);
  }

  // ---------- Descriptions move with their variants ----------

  function DescriptionOf(s: Schema): Option<string> {
    if s.Object? && s.o.metadata.Some? then s.o.metadata.value.description else None
  }

  /** A branch with no definition, or with several, leaves its description to none of them. */
  lemma SharedDescriptionIsDropped(h: Hoist, v: Schema)
    requires IsObjectBranch(v) && |v.o.obj.value.properties| != 1 && HoistVariant(h, v).Some?
    ensures var (h1, w) := HoistVariant(h, v).value;
            && RootObject(h1).properties == RootObject(h).properties + v.o.obj.value.properties
            && DescriptionOf(w).None?
  {
  }

  /**
    Each variant's definition keeps a description: that of the variant if it has one, and otherwise its
    own. Nothing but its description differs from what the variant defined.
   */
  lemma DescriptionsMove(c: SchemaObject, i: nat, k: string)
    requires TaggedEnum(c) && i < |c.oneOf.list| && k in Tags(c.oneOf.list[i])
    requires c.oneOf.list[i].o.obj.value.properties[k].Object?
    ensures RewriteRoot(c).Some? && RewriteRoot(c).value.obj.Some? && k in RewriteRoot(c).value.obj.value.properties
    ensures var v, p := c.oneOf.list[i], RewriteRoot(c).value.obj.value.properties[k];
            && Undescribed(p) == Undescribed(v.o.obj.value.properties[k])
            && DescriptionOf(p) ==
               if DescriptionOf(v).Some? then DescriptionOf(v) else DescriptionOf(v.o.obj.value.properties[k])
  {
    TaggedRoot(c);
    CollectHas(map[], c.oneOf.list, i, k);
  }
}
