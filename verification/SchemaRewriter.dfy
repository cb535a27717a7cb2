/**
  The structural schema rewriter. A panic of the original is the result `None`; everything that the
  original changes through a mutable reference is returned.
 */
module SchemaRewriter {
  import opened Common
  import opened Schema

  // ---------- What one pass computes ----------

  /** What hoisting has collected for the root: its object validation and its instance type. */
  datatype Hoist = Hoist(common: Option<ObjectValidation>, types: Option<TypeSpec>)

  function Describe(p: Schema, description: string): Schema {
    match p
    case Bool(_) => p
    case Object(o) =>
      var m := if o.metadata.Some? then o.metadata.value else Metadata(None, None);
      Object(o.(metadata := Some(m.(description := Some(description)))))
  }

  function DropDescription(m: Option<Metadata>): Option<Metadata> {
    if m.Some? then Some(m.value.(description := None)) else None
  }

  /** A branch's description moves to its property when it has exactly one. */
  function MoveDescription(m: Option<Metadata>, props: map<string, Schema>): map<string, Schema> {
    if m.Some? && m.value.description.Some? && |props| == 1 then
      map k | k in props :: Describe(props[k], m.value.description.value)
    else props
  }

  predicate Conflict(a: map<string, Schema>, b: map<string, Schema>) {
    exists k :: k in a && k in b && a[k] != b[k]
  }

  /** `merge_metadata`: `None` when two branches disagree on the type. */
  function MergeType(common: Option<TypeSpec>, variant: Option<TypeSpec>): Option<Option<TypeSpec>> {
    if variant.None? then Some(common)
    else if common.None? || common == variant then Some(variant)
    else None
  }

  predicate IsObjectBranch(v: Schema) {
    v.Object? && v.o.obj.Some?
  }

  function RootObject(h: Hoist): ObjectValidation {
    if h.common.Some? then h.common.value else EMPTY_OBJECT
  }

  /** An object branch keeps only what it requires; a Kubernetes branch may not define anything. */
  function Strip(v: Schema): Schema
    requires IsObjectBranch(v)
  {
    Object(v.o.(metadata := DropDescription(v.o.metadata),
                types := None,
                obj := Some(ObjectValidation(map[], v.o.obj.value.required, None))))
  }

  function HoistVariant(h: Hoist, v: Schema): Option<(Hoist, Schema)> {
    if !IsObjectBranch(v) then Some((h, v))
    else
      var props := MoveDescription(v.o.metadata, v.o.obj.value.properties);
      var types := MergeType(h.types, v.o.types);
      if Conflict(RootObject(h).properties, props) || types.None? then None
      else
        var common := RootObject(h).(properties := RootObject(h).properties + props);
        Some((Hoist(Some(common), types.value), Strip(v)))
  }

  function HoistProperties(h: Hoist, list: seq<Schema>): Option<(Hoist, seq<Schema>)>
    decreases |list|
  {
    if list == [] then Some((h, []))
    else
      match HoistVariant(h, list[0])
      case None => None
      case Some((h1, v)) =>
        match HoistProperties(h1, list[1..])
        case None => None
        case Some((h2, rest)) => Some((h2, [v] + rest))
  }

  lemma HoistCons(h: Hoist, list: seq<Schema>, h1: Hoist, v: Schema, h2: Hoist, rest: seq<Schema>)
    requires list != [] && HoistVariant(h, list[0]) == Some((h1, v))
    requires HoistProperties(h1, list[1..]) == Some((h2, rest))
    ensures HoistProperties(h, list) == Some((h2, [v] + rest))
  {
  }

  predicate IsEnumBranch(v: Schema) {
    v.Object? && v.o.enums.Some?
  }

  datatype Gather = Gather(enums: Option<seq<Json>>, types: Option<TypeSpec>)

  function GatherVariant(g: Gather, v: SchemaObject): Option<Gather>
    requires v.enums.Some?
  {
    var types := MergeType(g.types, v.types);
    if types.None? then None
    else Some(Gather(Some((if g.enums.Some? then g.enums.value else []) + v.enums.value), types.value))
  }

  /** Enum values move to the root and their branches disappear. */
  function HoistEnums(g: Gather, list: seq<Schema>): Option<(Gather, seq<Schema>)>
    decreases |list|
  {
    if list == [] then Some((g, []))
    else if IsEnumBranch(list[0]) then
      match GatherVariant(g, list[0].o)
      case None => None
      case Some(g1) => HoistEnums(g1, list[1..])
    else
      match HoistEnums(g, list[1..])
      case None => None
      case Some((g1, rest)) => Some((g1, [list[0]] + rest))
  }

  function RewriteOneOf(o: SchemaObject): Option<SchemaObject> {
    if o.oneOf.NoBranches? then Some(o)
    else
      match HoistProperties(Hoist(o.obj, o.types), o.oneOf.list)
      case None => None
      case Some((h, list)) =>
        match HoistEnums(Gather(o.enums, h.types), list)
        case None => None
        case Some((g, kept)) =>
          Some(o.(obj := h.common, types := g.types, enums := g.enums,
                  oneOf := if kept == [] then NoBranches else Branches(kept)))
  }

  function RewriteAnyOf(o: SchemaObject): Option<SchemaObject> {
    if o.anyOf.NoBranches? then Some(o)
    else
      match HoistProperties(Hoist(o.obj, o.types), o.anyOf.list)
      case None => None
      case Some((h, list)) => Some(o.(obj := h.common, types := h.types, anyOf := Branches(list)))
  }

  /** A struct with named fields that also takes any others keeps unknown fields instead. */
  function RewriteFlattened(o: SchemaObject): SchemaObject {
    if o.obj.Some? && o.obj.value.properties != map[] && o.obj.value.additional == Some(Bool(true)) then
      o.(obj := Some(o.obj.value.(additional := None)), preserveUnknown := true)
    else o
  }

  /** The rewriting of one schema whose subschemas have been rewritten. */
  function RewriteRoot(o: SchemaObject): Option<SchemaObject> {
    match RewriteOneOf(o)
    case None => None
    case Some(o1) =>
      match RewriteAnyOf(o1)
      case None => None
      case Some(o2) => Some(RewriteFlattened(o2))
  }

  function Rewrite(s: Schema): Option<Schema>
    decreases s
  {
    match s
    case Bool(_) => Some(s)
    case Object(o) =>
      match RewriteObject(o)
      case None => None
      case Some(r) => Some(Object(r))
  }

  /** The visitor: subschemas first, then the schema itself. */
  function RewriteObject(o: SchemaObject): Option<SchemaObject>
    decreases o, 1
  {
    match RewriteChildren(o)
    case None => None
    case Some(c) => RewriteRoot(c)
  }

  function RewriteChildren(o: SchemaObject): Option<SchemaObject>
    decreases o, 0
  {
    var oneOf := RewriteBranches(o.oneOf);
    var anyOf := RewriteBranches(o.anyOf);
    var obj := if o.obj.Some? then RewriteFields(o.obj.value) else None;
    var items := if o.items.Some? then Rewrite(o.items.value) else None;
    if oneOf.None? || anyOf.None? || (o.obj.Some? && obj.None?) || (o.items.Some? && items.None?) then None
    else Some(o.(oneOf := oneOf.value, anyOf := anyOf.value, obj := obj, items := items))
  }

  function RewriteBranches(b: Branches): Option<Branches>
    decreases b
  {
    match b
    case NoBranches => Some(b)
    case Branches(list) =>
      match RewriteAll(list)
      case None => None
      case Some(l) => Some(Branches(l))
  }

  function RewriteAll(list: seq<Schema>): Option<seq<Schema>>
    decreases list
  {
    if list == [] then Some([])
    else
      var first := Rewrite(list[0]);
      var rest := RewriteAll(list[1..]);
      if first.None? || rest.None? then None else Some([first.value] + rest.value)
  }

  function RewriteFields(v: ObjectValidation): Option<ObjectValidation>
    decreases v
  {
    var additional := if v.additional.Some? then Rewrite(v.additional.value) else None;
    if (v.additional.Some? && additional.None?) || exists k :: k in v.properties && Rewrite(v.properties[k]).None?
    then None
    else Some(v.(properties := map k | k in v.properties :: Rewrite(v.properties[k]).value, additional := additional))
  }

  lemma {:induction false} RewriteAllAt(list: seq<Schema>)
    ensures RewriteAll(list).Some? <==> forall i :: 0 <= i < |list| ==> Rewrite(list[i]).Some?
    ensures RewriteAll(list).Some? ==>
              && |RewriteAll(list).value| == |list|
              && forall i :: 0 <= i < |list| ==> RewriteAll(list).value[i] == Rewrite(list[i]).value
  {
    if list != [] {
      RewriteAllAt(list[1..]);
      assert forall i :: 1 <= i < |list| ==> list[i] == list[1..][i - 1];
    }
  }

  /** The parts of a visited schema, before its own rewriting. */
  lemma ChildrenParts(o: SchemaObject)
    ensures RewriteChildren(o).Some? <==>
              && (o.oneOf.Branches? ==> RewriteAll(o.oneOf.list).Some?)
              && (o.anyOf.Branches? ==> RewriteAll(o.anyOf.list).Some?)
              && (o.obj.Some? ==> RewriteFields(o.obj.value).Some?)
              && (o.items.Some? ==> Rewrite(o.items.value).Some?)
    ensures RewriteChildren(o).Some? ==>
              RewriteChildren(o).value == o.(
                oneOf := if o.oneOf.Branches? then Branches(RewriteAll(o.oneOf.list).value) else NoBranches,
                anyOf := if o.anyOf.Branches? then Branches(RewriteAll(o.anyOf.list).value) else NoBranches,
                obj := if o.obj.Some? then RewriteFields(o.obj.value) else None,
                items := if o.items.Some? then Rewrite(o.items.value) else None)
  {
    assert o.oneOf.Branches? ==> RewriteBranches(o.oneOf).Some? == RewriteAll(o.oneOf.list).Some?;
    assert o.anyOf.Branches? ==> RewriteBranches(o.anyOf).Some? == RewriteAll(o.anyOf.list).Some?;
  }

  // ---------- The loops of the original ----------

  /** The loop that moves a branch's properties into the root's. */
  method MoveProperties(common: map<string, Schema>, props: map<string, Schema>)
    returns (r: Option<map<string, Schema>>)
    ensures r == if Conflict(common, props) then None else Some(common + props)
  {
    var merged := common;
    var todo := props.Keys;
    while todo != {}
      invariant todo <= props.Keys && merged.Keys == common.Keys + (props.Keys - todo)
      invariant forall k :: k in common ==> merged[k] == common[k]
      invariant forall k :: k in props && k !in todo ==> merged[k] == props[k]
      decreases |todo|
    {
      var k :| k in todo;
      if k in merged {
        if props[k] != merged[k] {
          return None;
        }
      } else {
        merged := merged[k := props[k]];
      }
      todo := todo - {k};
    }
    assert merged == common + props;
    r := Some(merged);
  }

  /** The body of the loop over the branches. */
  method HoistBranch(h: Hoist, v: Schema) returns (r: Option<(Hoist, Schema)>)
    ensures r == HoistVariant(h, v)
  {
    if v.Object? && v.o.obj.Some? {
      var root := if h.common.Some? then h.common.value else EMPTY_OBJECT;
      var props := MoveDescription(v.o.metadata, v.o.obj.value.properties);
      var merged := MoveProperties(root.properties, props);
      if merged.None? {
        return None;
      }
      var types := MergeType(h.types, v.o.types);
      if types.None? {
        return None;
      }
      r := Some((Hoist(Some(root.(properties := merged.value)), types.value), Strip(v)));
    } else {
      r := Some((h, v));
    }
  }

  /** The outcome of a loop that has already put out `done` and still has `r` to add. */
  ghost function Prefixed<A>(done: seq<Schema>, r: Option<(A, seq<Schema>)>): Option<(A, seq<Schema>)> {
    if r.None? then None else Some((r.value.0, done + r.value.1))
  }

  lemma PrefixedCons<A>(done: seq<Schema>, v: Schema, r: Option<(A, seq<Schema>)>)
    requires r.Some?
    ensures Prefixed(done, Some((r.value.0, [v] + r.value.1))) == Prefixed(done + [v], r)
  {
    assert done + ([v] + r.value.1) == (done + [v]) + r.value.1;
  }

  lemma PrefixedNil<A>(r: Option<(A, seq<Schema>)>)
    ensures Prefixed([], r) == r
  {
    if r.Some? {
      assert [] + r.value.1 == r.value.1;
    }
  }

  method HoistSubschemaProperties(list: seq<Schema>, common: Option<ObjectValidation>, types: Option<TypeSpec>)
    returns (r: Option<(Hoist, seq<Schema>)>)
    ensures r == HoistProperties(Hoist(common, types), list)
  {
    var h := Hoist(common, types);
    var out: seq<Schema> := [];
    var i := 0;
    ghost var whole := HoistProperties(h, list);
    assert list[0..] == list;
    PrefixedNil(whole);
    while i < |list|
      invariant i <= |list|
      invariant whole == Prefixed(out, HoistProperties(h, list[i..]))
    {
      assert list[i..][1..] == list[i + 1..];
      var hoisted := HoistBranch(h, list[i]);
      if hoisted.None? {
        return None;
      }
      ghost var rest := HoistProperties(hoisted.value.0, list[i + 1..]);
      if rest.Some? {
        PrefixedCons(out, hoisted.value.1, rest);
      }
      h, out, i := hoisted.value.0, out + [hoisted.value.1], i + 1;
    }
    r := Some((h, out));
    assert out + [] == out;
  }

  method HoistSubschemaEnumValues(list: seq<Schema>, enums: Option<seq<Json>>, types: Option<TypeSpec>)
    returns (r: Option<(Gather, seq<Schema>)>)
    ensures r == HoistEnums(Gather(enums, types), list)
  {
    var g := Gather(enums, types);
    var kept: seq<Schema> := [];
    var i := 0;
    ghost var whole := HoistEnums(g, list);
    assert list[0..] == list;
    PrefixedNil(whole);
    while i < |list|
      invariant i <= |list|
      invariant whole == Prefixed(kept, HoistEnums(g, list[i..]))
    {
      assert list[i..][1..] == list[i + 1..];
      if list[i].Object? && list[i].o.enums.Some? {
        var next := GatherVariant(g, list[i].o);
        if next.None? {
          return None;
        }
        g := next.value;
      } else {
        ghost var rest := HoistEnums(g, list[i + 1..]);
        if rest.Some? {
          PrefixedCons(kept, list[i], rest);
        }
        kept := kept + [list[i]];
      }
      i := i + 1;
    }
    r := Some((g, kept));
    assert kept + [] == kept;
  }

  /** `visit_schema_object` on a schema whose subschemas have been visited. */
  method VisitRoot(o: SchemaObject) returns (r: Option<SchemaObject>)
    ensures r == RewriteRoot(o)
  {
    var s := o;
    if s.oneOf.Branches? {
      var hoisted := HoistSubschemaProperties(s.oneOf.list, s.obj, s.types);
      if hoisted.None? {
        return None;
      }
      var gathered := HoistSubschemaEnumValues(hoisted.value.1, s.enums, hoisted.value.0.types);
      if gathered.None? {
        return None;
      }
      s := s.(obj := hoisted.value.0.common, types := gathered.value.0.types, enums := gathered.value.0.enums,
              oneOf := Branches(gathered.value.1));
      if s.oneOf.list == [] {
        s := s.(oneOf := NoBranches);
      }
    }
    if s.anyOf.Branches? {
      var hoisted := HoistSubschemaProperties(s.anyOf.list, s.obj, s.types);
      if hoisted.None? {
        return None;
      }
      s := s.(obj := hoisted.value.0.common, types := hoisted.value.0.types, anyOf := Branches(hoisted.value.1));
    }
    r := Some(RewriteFlattened(s));
  }

  method VisitSchema(s: Schema) returns (r: Option<Schema>)
    ensures r == Rewrite(s)
    decreases s
  {
    match s
    case Bool(_) => r := Some(s);
    case Object(o) =>
      var visited := VisitSchemaObject(o);
      r := if visited.None? then None else Some(Object(visited.value));
  }

  /** `visit_schema_object`: the provided walk over all subschemas, then the rewriting. */
  method VisitSchemaObject(o: SchemaObject) returns (r: Option<SchemaObject>)
    ensures r == RewriteObject(o)
    decreases o
  {
    var s := o;
    if o.oneOf.Branches? {
      var l := VisitAll(o.oneOf.list);
      assert RewriteBranches(o.oneOf) == if l.None? then None else Some(Branches(l.value));
      if l.None? { return None; }
      s := s.(oneOf := Branches(l.value));
    }
    if o.anyOf.Branches? {
      var l := VisitAll(o.anyOf.list);
      assert RewriteBranches(o.anyOf) == if l.None? then None else Some(Branches(l.value));
      if l.None? { return None; }
      s := s.(anyOf := Branches(l.value));
    }
    if o.items.Some? {
      var items := VisitSchema(o.items.value);
      if items.None? { return None; }
      s := s.(items := items);
    }
    if o.obj.Some? {
      var v := VisitFields(o.obj.value);
      if v.None? { return None; }
      s := s.(obj := v);
    }
    assert RewriteChildren(o) == Some(s);
    r := VisitRoot(s);
  }

  method VisitAll(list: seq<Schema>) returns (r: Option<seq<Schema>>)
    ensures r == RewriteAll(list)
    decreases list
  {
    var out: seq<Schema> := [];
    var i := 0;
    RewriteAllAt(list);
    while i < |list|
      invariant i <= |list| && |out| == i
      invariant forall j :: 0 <= j < i ==> Rewrite(list[j]) == Some(out[j])
    {
      var v := VisitSchema(list[i]);
      if v.None? { return None; }
      out := out + [v.value];
      i := i + 1;
    }
    r := Some(out);
    assert out == RewriteAll(list).value;
  }

  method VisitFields(v: ObjectValidation) returns (r: Option<ObjectValidation>)
    ensures r == RewriteFields(v)
    decreases v
  {
    var props: map<string, Schema> := map[];
    var todo := v.properties.Keys;
    while todo != {}
      invariant todo <= v.properties.Keys && props.Keys == v.properties.Keys - todo
      invariant forall k :: k in props ==> Rewrite(v.properties[k]) == Some(props[k])
      decreases |todo|
    {
      var k :| k in todo;
      var p := VisitSchema(v.properties[k]);
      if p.None? { return None; }
      props := props[k := p.value];
      todo := todo - {k};
    }
    var additional := v.additional;
    if v.additional.Some? {
      additional := VisitSchema(v.additional.value);
      if additional.None? { return None; }
    }
    assert props == map k | k in v.properties :: Rewrite(v.properties[k]).value;
    r := Some(v.(properties := props, additional := additional));
  }
}
