/**
  API discovery: parsing resource lists, and the cache that answers lookups which could also be put
  to the API server directly.
 */
module Discovery {
  import opened Common
  import opened Versions

  // ---------- Group versions ----------

  datatype GroupVersion = GroupVersion(group: string, version: string)

  datatype Kind = Kind(group: string, version: string, kind: string)

  /** The first slash of a string, or its length. */
  function SlashIndex(s: string): (n: nat)
    ensures n <= |s| && '/' !in s[..n] && (n < |s| ==> s[n] == '/')
  {
    if s == "" || s[0] == '/' then 0
    else
      var n := 1 + SlashIndex(s[1..]);
      assert s[..n] == [s[0]] + s[1..][..n - 1];
      n
  }

  /** `GroupVersion::from_str`. Splitting in at most two gives one part or two, so it cannot fail. */
  function FromStr(s: string): GroupVersion {
    var n := SlashIndex(s);
    if n == |s| then GroupVersion("", s) else GroupVersion(s[..n], s[n + 1..])
  }

  function ApiVersion(group: string, version: string): string {
    if group == "" then version else group + "/" + version
  }

  lemma {:induction false} SlashIndexAt(a: string, b: string)
    requires '/' !in a
    ensures SlashIndex(a + "/" + b) == |a|
  {
    if a != "" {
      SlashIndexAt(a[1..], b);
      assert (a + "/" + b)[1..] == a[1..] + "/" + b;
    }
  }

  /** Reading back an apiVersion string gives the group and version exactly when neither hides a slash. */
  lemma ApiVersionRoundTrip(group: string, version: string)
    ensures FromStr(ApiVersion(group, version)) == GroupVersion(group, version)
       <==> if group == "" then '/' !in version else '/' !in group
  {
    var s := ApiVersion(group, version);
    if group != "" && '/' !in group {
      SlashIndexAt(group, version);
      assert s[..|group|] == group && s[|group| + 1..] == version;
    }
    if group == "" && '/' !in version {
      assert SlashIndex(s) == |s|;
    }
  }

  // ---------- Parsing a resource list ----------

  datatype APIResource = APIResource(
    name: string,
    namespaced: bool,
    group: Option<string>,
    version: Option<string>,
    kind: string,
    verbs: seq<string>)

  datatype APIResourceList = APIResourceList(groupVersion: string, resources: seq<APIResource>)

  datatype ApiResource = ApiResource(group: string, version: string, apiVersion: string, kind: string, plural: string)

  datatype Scope = Cluster | Namespaced

  datatype Capabilities = Capabilities(scope: Scope, subresources: seq<Discovered>, operations: seq<string>)

  datatype Discovered = Discovered(resource: ApiResource, capabilities: Capabilities)

  function ParseResource(r: APIResource, groupVersion: string): ApiResource {
    var gv := FromStr(groupVersion);
    ApiResource(
      if r.group.Some? then r.group.value else gv.group,
      if r.version.Some? then r.version.value else gv.version,
      ApiVersion(gv.group, gv.version),
      r.kind,
      r.name)
  }

  /** The first resource with a name. */
  function FindName(resources: seq<APIResource>, name: string): Option<APIResource> {
    if resources == [] then None
    else if resources[0].name == name then Some(resources[0])
    else FindName(resources[1..], name)
  }

  function LongestName(resources: seq<APIResource>): (n: nat)
    ensures forall r :: r in resources ==> |r.name| <= n
  {
    if resources == [] then 0
    else
      var n := LongestName(resources[1..]);
      if n < |resources[0].name| then |resources[0].name| else n
  }

  predicate IsSubresource(r: APIResource, name: string) {
    name + "/" <= r.name
  }

  /**
    Capabilities of the resource called `name`; `None` if the list has none. The recursion is on the
    names of subresources, each longer than the last and none longer than the longest in the list.
   */
  function ParseCapabilities(list: APIResourceList, name: string): Option<Capabilities>
    decreases LongestName(list.resources) - |name|, 1, 0
  {
    match FindName(list.resources, name)
    case None => None
    case Some(r) =>
      match ParseSubresources(list, name, 0)
      case None => None
      case Some(subs) => Some(Capabilities(if r.namespaced then Namespaced else Cluster, subs, r.verbs))
  }

  function ParseSubresources(list: APIResourceList, name: string, i: nat): Option<seq<Discovered>>
    requires i <= |list.resources|
    decreases LongestName(list.resources) - |name|, 0, |list.resources| - i
  {
    if i == |list.resources| then Some([])
    else
      var r := list.resources[i];
      if !IsSubresource(r, name) then ParseSubresources(list, name, i + 1)
      else
        match ParseCapabilities(list, r.name)
        case None => None
        case Some(caps) =>
          match ParseSubresources(list, name, i + 1)
          case None => None
          case Some(rest) =>
            Some([Discovered(ParseResource(r, list.groupVersion).(plural := r.name[|name| + 1..]), caps)] + rest)
  }

  /** `parse_apicapabilities`, its loop and its recursion. */
  method ParseApiCapabilities(list: APIResourceList, name: string) returns (r: Option<Capabilities>)
    ensures r == ParseCapabilities(list, name)
    decreases LongestName(list.resources) - |name|
  {
    var found := FindName(list.resources, name);
    if found.None? {
      return None;
    }
    var subresources: seq<Discovered> := [];
    ghost var whole := ParseSubresources(list, name, 0);
    assert whole.Some? ==> [] + whole.value == whole.value;
    var i := 0;
    while i < |list.resources|
      invariant i <= |list.resources|
      invariant whole == match ParseSubresources(list, name, i)
                         case None => None
                         case Some(rest) => Some(subresources + rest)
    {
      var res := list.resources[i];
      if IsSubresource(res, name) {
        var caps := ParseApiCapabilities(list, res.name);
        if caps.None? {
          return None;
        }
        var sub := Discovered(ParseResource(res, list.groupVersion).(plural := res.name[|name| + 1..]), caps.value);
        ghost var rest := ParseSubresources(list, name, i + 1);
        assert rest.Some? ==> subresources + ([sub] + rest.value) == (subresources + [sub]) + rest.value;
        subresources := subresources + [sub];
      }
      i := i + 1;
    }
    assert subresources + [] == subresources;
    r := Some(Capabilities(if found.value.namespaced then Namespaced else Cluster, subresources, found.value.verbs));
  }

  lemma {:induction false} FindNameFinds(resources: seq<APIResource>, name: string)
    ensures FindName(resources, name).Some? <==> exists r :: r in resources && r.name == name
  {
    if resources != [] {
      FindNameFinds(resources[1..], name);
      assert resources == [resources[0]] + resources[1..];
    }
  }

  /** Parsing fails only for a name that the list does not have. */
  lemma {:induction false} CapabilitiesTotal(list: APIResourceList, name: string)
    ensures ParseCapabilities(list, name).Some? <==> exists r :: r in list.resources && r.name == name
    decreases LongestName(list.resources) - |name|, 1, 0
  {
    FindNameFinds(list.resources, name);
    if FindName(list.resources, name).Some? {
      SubresourcesTotal(list, name, 0);
    }
  }

  lemma {:induction false} SubresourcesTotal(list: APIResourceList, name: string, i: nat)
    requires i <= |list.resources|
    ensures ParseSubresources(list, name, i).Some?
    decreases LongestName(list.resources) - |name|, 0, |list.resources| - i
  {
    if i < |list.resources| {
      if IsSubresource(list.resources[i], name) {
        CapabilitiesTotal(list, list.resources[i].name);
      }
      SubresourcesTotal(list, name, i + 1);
    }
  }

  /** The subresource names below `name`, in list order. */
  function NamesBelow(resources: seq<APIResource>, name: string): seq<string> {
    if resources == [] then []
    else
      (if IsSubresource(resources[0], name) then [resources[0].name[|name| + 1..]] else [])
      + NamesBelow(resources[1..], name)
  }

  function Plurals(subs: seq<Discovered>): seq<string> {
    seq(|subs|, i requires 0 <= i < |subs| => subs[i].resource.plural)
  }

  /** A resource's subresources are exactly the list's names below it, in order. */
  lemma {:induction false} SubresourceNames(list: APIResourceList, name: string, i: nat)
    requires i <= |list.resources|
    ensures ParseSubresources(list, name, i).Some?
    ensures Plurals(ParseSubresources(list, name, i).value) == NamesBelow(list.resources[i..], name)
    decreases |list.resources| - i
  {
    SubresourcesTotal(list, name, i);
    if i < |list.resources| {
      SubresourceNames(list, name, i + 1);
      assert list.resources[i..][1..] == list.resources[i + 1..];
    }
  }

  // ---------- What the parsed entries say ----------

  /** A resource's own group and version go first, then those of its list, whose apiVersion it always has. */
  lemma ParsedResourceFields(r: APIResource, group: string, version: string)
    requires if group == "" then '/' !in version else '/' !in group
    ensures var parsed := ParseResource(r, ApiVersion(group, version));
            && parsed.group == (if r.group.Some? then r.group.value else group)
            && parsed.version == (if r.version.Some? then r.version.value else version)
            && parsed.apiVersion == ApiVersion(group, version)
            && parsed.kind == r.kind && parsed.plural == r.name
  {
    ApiVersionRoundTrip(group, version);
  }

  ghost predicate FirstNamed(resources: seq<APIResource>, name: string, i: nat) {
    i < |resources| && resources[i].name == name && forall j :: 0 <= j < i ==> resources[j].name != name
  }

  lemma {:induction false} FindNameIsFirst(resources: seq<APIResource>, name: string, i: nat)
    requires FirstNamed(resources, name, i)
    ensures FindName(resources, name) == Some(resources[i])
  {
    if i > 0 {
      assert FirstNamed(resources[1..], name, i - 1) by {
        assert forall j :: 0 <= j < i - 1 ==> resources[1..][j] == resources[j + 1];
      }
      assert resources[0].name != name;
      FindNameIsFirst(resources[1..], name, i - 1);
    }
  }

  /** The scope and the operations are those of the first resource with the name. */
  lemma CapabilitiesAreTheFirst(list: APIResourceList, name: string, i: nat)
    requires FirstNamed(list.resources, name, i)
    ensures ParseCapabilities(list, name).Some?
    ensures var caps := ParseCapabilities(list, name).value;
            && (caps.scope == Namespaced <==> list.resources[i].namespaced)
            && caps.operations == list.resources[i].verbs
  {
    assert list.resources[i] in list.resources;
    CapabilitiesTotal(list, name);
    FindNameIsFirst(list.resources, name, i);
  }

  /** The resources below `name`, in list order. */
  function Below(resources: seq<APIResource>, name: string): seq<APIResource> {
    if resources == [] then []
    else (if IsSubresource(resources[0], name) then [resources[0]] else []) + Below(resources[1..], name)
  }

  /** What a subresource is listed as: the resource parsed under its short name, with its own capabilities. */
  ghost predicate ListedAs(list: APIResourceList, name: string, r: APIResource, sub: Discovered) {
    && IsSubresource(r, name)
    && sub.resource == ParseResource(r, list.groupVersion).(plural := r.name[|name| + 1..])
    && ParseCapabilities(list, r.name) == Some(sub.capabilities)
  }

  ghost predicate AllListedAs(list: APIResourceList, name: string, below: seq<APIResource>, subs: seq<Discovered>) {
    |subs| == |below| && forall k :: 0 <= k < |subs| ==> ListedAs(list, name, below[k], subs[k])
  }

  lemma ListedOneMore(
    list: APIResourceList, name: string, r: APIResource, sub: Discovered,
    below: seq<APIResource>, subs: seq<Discovered>)
    requires ListedAs(list, name, r, sub) && AllListedAs(list, name, below, subs)
    ensures AllListedAs(list, name, [r] + below, [sub] + subs)
  {
  }

  /** Each subresource stands for the resource below the name at its place. */
  lemma {:induction false} SubresourcesAreListed(list: APIResourceList, name: string, i: nat)
    requires i <= |list.resources|
    ensures ParseSubresources(list, name, i).Some?
    ensures AllListedAs(list, name, Below(list.resources[i..], name), ParseSubresources(list, name, i).value)
    decreases |list.resources| - i
  {
    SubresourcesTotal(list, name, i);
    if i < |list.resources| {
      SubresourcesAreListed(list, name, i + 1);
      var r, below := list.resources[i], Below(list.resources[i + 1..], name);
      var subs := ParseSubresources(list, name, i).value;
      assert list.resources[i..][1..] == list.resources[i + 1..];
      if IsSubresource(r, name) {
        ListedOneMore(list, name, r, subs[0], below, subs[1..]);
      }
    }
  }
}
