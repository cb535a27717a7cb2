/**
  JSON Patch (RFC 6902) restricted to the one document member that the finalizer helper
  addresses, `/metadata/finalizers`. The member is absent, or a list of names.
 */
module JsonPatch {
  import opened Common

  type Name = string

  /** The three pointer shapes the helper builds, written under `/metadata/finalizers`. */
  datatype Path =
    | ListPath          // the member itself
    | IndexPath(i: nat) // `/{i}`
    | EndPath           // `/-`

  datatype Value = Null | Str(s: Name) | List(items: seq<Name>)

  datatype Op =
    | Test(path: Path, value: Value)
    | Add(path: Path, value: Value)
    | Remove(path: Path)

  /** `None` when the object has no `finalizers` member. */
  type Doc = Option<seq<Name>>

  function RemoveAt(l: seq<Name>, i: nat): seq<Name>
    requires i < |l|
  {
    l[..i] + l[i + 1..]
  }

  /**
    Sections 4.1, 4.2 and 4.6. A `test` against a location that does not exist is an error in the
    RFC; the Kubernetes API server lets `null` match an absent member, which `absentIsNull` selects.
   */
  function ApplyOp(doc: Doc, op: Op, absentIsNull: bool): (r: Option<Doc>) {
    match op
    case Test(ListPath, Null) => if doc.None? && absentIsNull then Some(doc) else None
    case Test(ListPath, List(l)) => if doc == Some(l) then Some(doc) else None
    case Test(IndexPath(i), Str(s)) =>
      if doc.Some? && i < |doc.value| && doc.value[i] == s then Some(doc) else None
    case Test(_, _) => None
    case Add(ListPath, List(l)) => Some(Some(l))
    case Add(IndexPath(i), Str(s)) =>
      if doc.Some? && i <= |doc.value| then Some(Some(doc.value[..i] + [s] + doc.value[i..])) else None
    case Add(EndPath, Str(s)) => if doc.Some? then Some(Some(doc.value + [s])) else None
    case Add(_, _) => None
    case Remove(ListPath) => if doc.Some? then Some(Option.None) else None
    case Remove(IndexPath(i)) =>
      if doc.Some? && i < |doc.value| then Some(Some(RemoveAt(doc.value, i))) else None
    case Remove(EndPath) => None
  }

  /** Section 5: operations run in order and one failure rejects the whole patch. */
  function ApplyPatch(doc: Doc, patch: seq<Op>, absentIsNull: bool): (r: Option<Doc>)
    decreases |patch|
  {
    if patch == [] then Some(doc)
    else
      var first := ApplyOp(doc, patch[0], absentIsNull);
      if first.None? then None else ApplyPatch(first.value, patch[1..], absentIsNull)
  }

  /** Both patches the helper sends are a test followed by one change. */
  lemma TwoStepPatch(doc: Doc, a: Op, b: Op, absentIsNull: bool)
    ensures var first := ApplyOp(doc, a, absentIsNull);
            ApplyPatch(doc, [a, b], absentIsNull)
            == if first.None? then None else ApplyOp(first.value, b, absentIsNull)
  {
    var first := ApplyOp(doc, a, absentIsNull);
    assert [a, b][1..] == [b];
    if first.Some? {
      var second := ApplyOp(first.value, b, absentIsNull);
      assert [b][1..] == [];
      assert second.Some? ==> ApplyPatch(second.value, [], absentIsNull) == second;
    }
  }

  /** The API server omits an empty list when it serialises an object. */
  function ToDoc(l: seq<Name>): Doc {
    if l == [] then None else Some(l)
  }

  function OfDoc(doc: Doc): seq<Name> {
    if doc.Some? then doc.value else []
  }

  /** A patch as the API server runs it on a stored finalizer list. */
  function PatchList(l: seq<Name>, patch: seq<Op>, absentIsNull: bool): (r: Option<seq<Name>>) {
    var doc := ApplyPatch(ToDoc(l), patch, absentIsNull);
    if doc.None? then None else Some(OfDoc(doc.value))
  }

  /** The names other than `name`, in order and with multiplicity. */
  function Others(l: seq<Name>, name: Name): seq<Name> {
    if l == [] then []
    else (if l[0] == name then [] else [l[0]]) + Others(l[1..], name)
  }

  lemma {:induction false} OthersConcat(a: seq<Name>, b: seq<Name>, name: Name)
    ensures Others(a + b, name) == Others(a, name) + Others(b, name)
  {
    if a == [] {
      assert a + b == b;
    } else {
      assert (a + b)[1..] == a[1..] + b;
      OthersConcat(a[1..], b, name);
    }
  }
}
