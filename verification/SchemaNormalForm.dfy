/** What a pass of the rewriter leaves behind, for every schema on which it does not panic. */
module SchemaNormalForm {
  import opened Common
  import opened Schema
  import opened SchemaRewriter

  // ---------- Normal form ----------

  /** An object branch that defines nothing: no properties, no additional properties, no type, no description. */
  predicate Bare(v: Schema) {
    IsObjectBranch(v) ==>
      && v.o.obj.value.properties == map[] && v.o.obj.value.additional.None?
      && v.o.types.None?
      && (v.o.metadata.Some? ==> v.o.metadata.value.description.None?)
  }

  /** Every object branch is bare, and the root has the place its definitions were moved to. */
  predicate BareBranches(list: seq<Schema>, obj: Option<ObjectValidation>) {
    && (forall i :: 0 <= i < |list| ==> Bare(list[i]))
    && ((exists i :: 0 <= i < |list| && IsObjectBranch(list[i])) ==> obj.Some?)
  }

  predicate NoEnumBranch(list: seq<Schema>) {
    forall i :: 0 <= i < |list| ==> !IsEnumBranch(list[i])
  }

  predicate NormalRoot(o: SchemaObject) {
    && (o.oneOf.Branches? ==>
          o.oneOf.list != [] && NoEnumBranch(o.oneOf.list) && BareBranches(o.oneOf.list, o.obj))
    && (o.anyOf.Branches? ==> BareBranches(o.anyOf.list, o.obj))
    && (o.obj.Some? ==> o.obj.value.properties == map[] || o.obj.value.additional != Some(Bool(true)))
  }

  /** Normal at every depth. */
  predicate Normal(s: Schema)
    decreases s
  {
    s.Object? ==> NormalRoot(s.o) && NormalChildren(s.o)
  }

  predicate NormalChildren(o: SchemaObject)
    decreases o
  {
    && (o.oneOf.Branches? ==> forall i :: 0 <= i < |o.oneOf.list| ==> Normal(o.oneOf.list[i]))
    && (o.anyOf.Branches? ==> forall i :: 0 <= i < |o.anyOf.list| ==> Normal(o.anyOf.list[i]))
    && (o.obj.Some? ==> NormalFields(o.obj.value))
    && (o.items.Some? ==> Normal(o.items.value))
  }

  predicate NormalFields(v: ObjectValidation)
    decreases v
  {
    && (forall k :: k in v.properties ==> Normal(v.properties[k]))
    && (v.additional.Some? ==> Normal(v.additional.value))
  }

  predicate AllNormal(list: seq<Schema>) {
    forall i :: 0 <= i < |list| ==> Normal(list[i])
  }

  // ---------- One pass reaches it ----------

  lemma StripNormal(v: Schema)
    requires IsObjectBranch(v) && Normal(v)
    ensures Normal(Strip(v)) && Bare(Strip(v)) && IsEnumBranch(Strip(v)) == IsEnumBranch(v)
  {
    var w := Strip(v).o;
    assert NormalRoot(v.o) && NormalChildren(v.o);
    assert NormalRoot(w);
    assert NormalFields(w.obj.value);
    assert NormalChildren(w);
  }

  lemma DescribeNormal(p: Schema, description: string)
    requires Normal(p)
    ensures Normal(Describe(p, description))
  {
    if p.Object? {
      var q := Describe(p, description).o;
      assert NormalRoot(p.o) && NormalChildren(p.o);
      assert NormalRoot(q) && NormalChildren(q);
    }
  }

  lemma MoveDescriptionNormal(v: Schema)
    requires IsObjectBranch(v) && Normal(v)
    ensures var moved := MoveDescription(v.o.metadata, v.o.obj.value.properties);
            forall k :: k in moved ==> Normal(moved[k])
  {
    assert NormalChildren(v.o);
    assert NormalFields(v.o.obj.value);
    var props := v.o.obj.value.properties;
    var moved := MoveDescription(v.o.metadata, props);
    forall k | k in moved ensures Normal(moved[k]) {
      if moved != props {
        DescribeNormal(props[k], v.o.metadata.value.description.value);
      }
    }
  }

  lemma HoistVariantNormal(h: Hoist, v: Schema)
    requires Normal(v) && NormalFields(RootObject(h)) && HoistVariant(h, v).Some?
    ensures var (h1, v1) := HoistVariant(h, v).value;
            && Normal(v1) && Bare(v1) && NormalFields(RootObject(h1))
            && (IsObjectBranch(v1) || h.common.Some? ==> h1.common.Some?)
            && IsEnumBranch(v1) == IsEnumBranch(v)
  {
    if IsObjectBranch(v) {
      StripNormal(v);
      MoveDescriptionNormal(v);
    }
  }

  lemma {:induction false} HoistPropertiesNormal(h: Hoist, list: seq<Schema>)
    requires AllNormal(list) && NormalFields(RootObject(h)) && HoistProperties(h, list).Some?
    ensures var (h1, out) := HoistProperties(h, list).value;
            && AllNormal(out) && BareBranches(out, h1.common) && NormalFields(RootObject(h1))
            && (h.common.Some? ==> h1.common.Some?)
            && |out| == |list|
            && (NoEnumBranch(list) ==> NoEnumBranch(out))
    decreases |list|
  {
    if list != [] {
      HoistVariantNormal(h, list[0]);
      var (h1, v) := HoistVariant(h, list[0]).value;
      HoistPropertiesNormal(h1, list[1..]);
    }
  }

  /** Gathering enum values only drops branches: all enum branches and no others. */
  lemma {:induction false} HoistEnumsKeepsRest(g: Gather, list: seq<Schema>)
    requires HoistEnums(g, list).Some?
    ensures var out := HoistEnums(g, list).value.1;
            && NoEnumBranch(out)
            && (forall v :: v in out <==> v in list && !IsEnumBranch(v))
    decreases |list|
  {
    if list != [] {
      if IsEnumBranch(list[0]) {
        HoistEnumsKeepsRest(GatherVariant(g, list[0].o).value, list[1..]);
      } else {
        HoistEnumsKeepsRest(g, list[1..]);
      }
      assert list == [list[0]] + list[1..];
    }
  }

  lemma OneOfNormal(o: SchemaObject)
    requires NormalChildren(o) && RewriteOneOf(o).Some?
    ensures var r := RewriteOneOf(o).value;
            && NormalChildren(r)
            && (r.oneOf.Branches? ==>
                  r.oneOf.list != [] && NoEnumBranch(r.oneOf.list) && BareBranches(r.oneOf.list, r.obj))
  {
    if o.oneOf.Branches? {
      var h := Hoist(o.obj, o.types);
      HoistPropertiesNormal(h, o.oneOf.list);
      var (h1, list) := HoistProperties(h, o.oneOf.list).value;
      var g := Gather(o.enums, h1.types);
      HoistEnumsKeepsRest(g, list);
      var kept := HoistEnums(g, list).value.1;
      forall i | 0 <= i < |kept|
        ensures Normal(kept[i]) && Bare(kept[i]) && (IsObjectBranch(kept[i]) ==> h1.common.Some?)
      {
        assert kept[i] in list;
      }
    }
  }

  lemma AnyOfNormal(o: SchemaObject)
    requires NormalChildren(o) && RewriteAnyOf(o).Some?
    requires o.oneOf.Branches? ==> BareBranches(o.oneOf.list, o.obj)
    ensures var r := RewriteAnyOf(o).value;
            && NormalChildren(r) && r.oneOf == o.oneOf
            && (r.oneOf.Branches? ==> BareBranches(r.oneOf.list, r.obj))
            && (r.anyOf.Branches? ==> BareBranches(r.anyOf.list, r.obj))
  {
    if o.anyOf.Branches? {
      HoistPropertiesNormal(Hoist(o.obj, o.types), o.anyOf.list);
    }
  }

  lemma RootNormal(o: SchemaObject)
    requires NormalChildren(o) && RewriteRoot(o).Some?
    ensures NormalRoot(RewriteRoot(o).value) && NormalChildren(RewriteRoot(o).value)
  {
    OneOfNormal(o);
    AnyOfNormal(RewriteOneOf(o).value);
  }

  /** Whenever the pass does not panic, its result is in normal form at every depth. */
  lemma {:induction false} PassGivesNormalForm(s: Schema)
    requires Rewrite(s).Some?
    ensures Normal(Rewrite(s).value)
    decreases s
  {
    if s.Object? {
      ObjectNormal(s.o);
    }
  }

  lemma {:induction false} ObjectNormal(o: SchemaObject)
    requires RewriteObject(o).Some?
    ensures Normal(Object(RewriteObject(o).value))
    decreases o
  {
    ChildrenParts(o);
    var c := RewriteChildren(o).value;
    if o.oneOf.Branches? {
      BranchesNormal(o.oneOf.list);
    }
    if o.anyOf.Branches? {
      BranchesNormal(o.anyOf.list);
    }
    if o.obj.Some? {
      FieldsNormal(o.obj.value);
    }
    if o.items.Some? {
      PassGivesNormalForm(o.items.value);
    }
    RootNormal(c);
  }

  lemma {:induction false} BranchesNormal(list: seq<Schema>)
    requires RewriteAll(list).Some?
    ensures AllNormal(RewriteAll(list).value)
    decreases list
  {
    RewriteAllAt(list);
    forall i | 0 <= i < |list| ensures Normal(RewriteAll(list).value[i]) {
      PassGivesNormalForm(list[i]);
    }
  }

  lemma {:induction false} FieldsNormal(v: ObjectValidation)
    requires RewriteFields(v).Some?
    ensures NormalFields(RewriteFields(v).value)
    decreases v
  {
    forall k | k in v.properties ensures Normal(RewriteFields(v).value.properties[k]) {
      PassGivesNormalForm(v.properties[k]);
    }
    if v.additional.Some? {
      PassGivesNormalForm(v.additional.value);
    }
  }

  // ---------- A second pass changes nothing ----------

  lemma {:induction false} HoistPropertiesFixed(h: Hoist, list: seq<Schema>)
    requires BareBranches(list, h.common)
    ensures HoistProperties(h, list) == Some((h, list))
  {
    if list != [] {
      var v := list[0];
      if IsObjectBranch(v) {
        assert Bare(v);
        assert MoveDescription(v.o.metadata, map[]) == map[];
        assert RootObject(h).properties + map[] == RootObject(h).properties;
        assert Strip(v) == v;
      }
      assert HoistVariant(h, v) == Some((h, v));
      HoistPropertiesFixed(h, list[1..]);
      assert [v] + list[1..] == list;
    }
  }

  lemma {:induction false} HoistEnumsFixed(g: Gather, list: seq<Schema>)
    requires NoEnumBranch(list)
    ensures HoistEnums(g, list) == Some((g, list))
  {
    if list != [] {
      HoistEnumsFixed(g, list[1..]);
      assert [list[0]] + list[1..] == list;
    }
  }

  lemma RootFixed(o: SchemaObject)
    requires NormalRoot(o)
    ensures RewriteRoot(o) == Some(o)
  {
    if o.oneOf.Branches? {
      HoistPropertiesFixed(Hoist(o.obj, o.types), o.oneOf.list);
      HoistEnumsFixed(Gather(o.enums, o.types), o.oneOf.list);
    }
    if o.anyOf.Branches? {
      HoistPropertiesFixed(Hoist(o.obj, o.types), o.anyOf.list);
    }
  }

  /** The pass leaves every schema in normal form alone. */
  lemma {:induction false} NormalFormIsFixed(s: Schema)
    requires Normal(s)
    ensures Rewrite(s) == Some(s)
    decreases s
  {
    if s.Object? {
      ObjectFixed(s.o);
    }
  }

  lemma {:induction false} ObjectFixed(o: SchemaObject)
    requires NormalRoot(o) && NormalChildren(o)
    ensures RewriteObject(o) == Some(o)
    decreases o
  {
    if o.oneOf.Branches? {
      AllFixed(o.oneOf.list);
    }
    if o.anyOf.Branches? {
      AllFixed(o.anyOf.list);
    }
    if o.obj.Some? {
      FieldsFixed(o.obj.value);
    }
    if o.items.Some? {
      NormalFormIsFixed(o.items.value);
    }
    ChildrenParts(o);
    RootFixed(o);
  }

  lemma {:induction false} AllFixed(list: seq<Schema>)
    requires AllNormal(list)
    ensures RewriteAll(list) == Some(list)
    decreases list
  {
    forall i | 0 <= i < |list| ensures Rewrite(list[i]) == Some(list[i]) {
      NormalFormIsFixed(list[i]);
    }
    RewriteAllAt(list);
    assert RewriteAll(list).value == list;
  }

  lemma {:induction false} FieldsFixed(v: ObjectValidation)
    requires NormalFields(v)
    ensures RewriteFields(v) == Some(v)
    decreases v
  {
    forall k | k in v.properties ensures Rewrite(v.properties[k]) == Some(v.properties[k]) {
      NormalFormIsFixed(v.properties[k]);
    }
    assert (map k | k in v.properties :: Rewrite(v.properties[k]).value) == v.properties;
    if v.additional.Some? {
      NormalFormIsFixed(v.additional.value);
    }
  }

  lemma SecondPassChangesNothing(s: Schema)
    requires Rewrite(s).Some?
    ensures Rewrite(Rewrite(s).value) == Rewrite(s)
  {
    PassGivesNormalForm(s);
    NormalFormIsFixed(Rewrite(s).value);
  }

  // ---------- No property definition is lost ----------

  /** A property definition without its description, the one part that hoisting may change. */
  function Undescribed(p: Schema): Schema {
    match p
    case Bool(_) => p
    case Object(o) =>
      var m := if o.metadata.Some? then o.metadata.value else Metadata(None, None);
      Object(o.(metadata := Some(m.(description := None))))
  }

  /** Every definition in `from` is in `to`, up to its description. */
  predicate Carries(from: map<string, Schema>, to: map<string, Schema>) {
    forall k :: k in from ==> k in to && Undescribed(to[k]) == Undescribed(from[k])
  }

  predicate Extends(small: map<string, Schema>, big: map<string, Schema>) {
    forall k :: k in small ==> k in big && big[k] == small[k]
  }

  lemma {:induction false} HoistPropertiesKeeps(h: Hoist, list: seq<Schema>)
    requires HoistProperties(h, list).Some?
    ensures var props := RootObject(HoistProperties(h, list).value.0).properties;
            && Extends(RootObject(h).properties, props)
            && (forall i :: 0 <= i < |list| && IsObjectBranch(list[i]) ==>
                  Carries(list[i].o.obj.value.properties, props))
    decreases |list|
  {
    if list != [] {
      var h1 := HoistVariant(h, list[0]).value.0;
      HoistPropertiesKeeps(h1, list[1..]);
      if IsObjectBranch(list[0]) {
        var props := list[0].o.obj.value.properties;
        var moved := MoveDescription(list[0].o.metadata, props);
        assert Carries(props, moved);
        assert Extends(moved, RootObject(h1).properties);
      }
    }
  }

  /** The property definitions of a schema's own object part. */
  function OwnProperties(o: SchemaObject): map<string, Schema> {
    if o.obj.Some? then o.obj.value.properties else map[]
  }

  /**
    The (already rewritten) property definitions of a schema and of its object branches are all
    definitions of the rewritten schema: its own unchanged, the branches' up to a moved description.
   */
  lemma NoPropertyIsLost(o: SchemaObject)
    requires RewriteObject(o).Some?
    ensures var before, after := RewriteChildren(o).value, OwnProperties(RewriteObject(o).value);
            && Extends(OwnProperties(before), after)
            && (before.oneOf.Branches? ==>
                  forall i :: 0 <= i < |before.oneOf.list| && IsObjectBranch(before.oneOf.list[i]) ==>
                    Carries(before.oneOf.list[i].o.obj.value.properties, after))
            && (before.anyOf.Branches? ==>
                  forall i :: 0 <= i < |before.anyOf.list| && IsObjectBranch(before.anyOf.list[i]) ==>
                    Carries(before.anyOf.list[i].o.obj.value.properties, after))
  {
    var c := RewriteChildren(o).value;
    var c1 := RewriteOneOf(c).value;
    var c2 := RewriteAnyOf(c1).value;
    if c.oneOf.Branches? {
      HoistPropertiesKeeps(Hoist(c.obj, c.types), c.oneOf.list);
    }
    if c1.anyOf.Branches? {
      HoistPropertiesKeeps(Hoist(c1.obj, c1.types), c1.anyOf.list);
    }
    assert Extends(OwnProperties(c1), OwnProperties(c2));
    assert OwnProperties(RewriteFlattened(c2)) == OwnProperties(c2);
  }
}
