/**
  Discovery against an API server: the cache filled by a run over every group, the direct lookup of
  one kind, and the selection of each kind's most stable version.
 */
module DiscoveryCache {
  import opened Common
  import opened Versions
  import opened Discovery

  // ---------- The server ----------

  datatype ServedVersion = ServedVersion(groupVersion: string, version: string)

  datatype APIGroup = APIGroup(name: string, versions: seq<ServedVersion>, preferred: Option<string>)

  /** Resource lists by the path they are requested under. */
  type Lists = map<string, APIResourceList>

  /** What the server answers to discovery requests; a request for a missing list fails. */
  datatype Server = Server(
    groups: seq<APIGroup>,
    groupLists: Lists,
    coreVersions: seq<string>,
    coreLists: Lists)

  datatype Error = RequestFailed | EmptyApiGroup(name: string) | MissingResource(name: string) | MissingKind(gvk: Kind)

  function Request(lists: Lists, key: string): Result<APIResourceList, Error> {
    if key in lists then Ok(lists[key]) else Err(RequestFailed)
  }

  // ---------- One group version ----------

  datatype GroupVersionData = GroupVersionData(version: string, resources: seq<Discovered>)

  /** The resources from position `i` on that are not subresources, parsed. */
  function TopLevel(list: APIResourceList, i: nat): Result<seq<Discovered>, Error>
    requires i <= |list.resources|
    decreases |list.resources| - i
  {
    if i == |list.resources| then Ok([])
    else
      var res := list.resources[i];
      if '/' in res.name then TopLevel(list, i + 1)
      else
        match ParseCapabilities(list, res.name)
        case None => Err(MissingResource(res.name))
        case Some(caps) =>
          match TopLevel(list, i + 1)
          case Err(e) => Err(e)
          case Ok(rest) => Ok([Discovered(ParseResource(res, list.groupVersion), caps)] + rest)
  }

  function DataOf(version: string, list: APIResourceList): Result<GroupVersionData, Error> {
    match TopLevel(list, 0)
    case Err(e) => Err(e)
    case Ok(resources) => Ok(GroupVersionData(version, resources))
  }

  /** `GroupVersionData::new`. Its error paths are dead: the parsed name comes from the list itself. */
  method NewGroupVersionData(version: string, list: APIResourceList) returns (r: Result<GroupVersionData, Error>)
    ensures r == DataOf(version, list) && r.Ok?
  {
    var resources: seq<Discovered> := [];
    TopLevelTotal(list, 0);
    ghost var whole := TopLevel(list, 0).value;
    assert [] + whole == whole;
    var i := 0;
    while i < |list.resources|
      invariant i <= |list.resources|
      invariant TopLevel(list, i).Ok? && whole == resources + TopLevel(list, i).value
    {
      var res := list.resources[i];
      if '/' !in res.name {
        var caps := ParseApiCapabilities(list, res.name);
        if caps.None? {
          return Err(MissingResource(res.name));
        }
        var d := Discovered(ParseResource(res, list.groupVersion), caps.value);
        ghost var rest := TopLevel(list, i + 1).value;
        assert resources + ([d] + rest) == (resources + [d]) + rest;
        resources := resources + [d];
      }
      i := i + 1;
    }
    assert resources + [] == resources;
    r := Ok(GroupVersionData(version, resources));
  }

  lemma {:induction false} TopLevelTotal(list: APIResourceList, i: nat)
    requires i <= |list.resources|
    ensures TopLevel(list, i).Ok?
    decreases |list.resources| - i
  {
    if i < |list.resources| {
      assert list.resources[i] in list.resources;
      CapabilitiesTotal(list, list.resources[i].name);
      TopLevelTotal(list, i + 1);
    }
  }

  // ---------- One group ----------

  datatype ApiGroup = ApiGroup(name: string, data: seq<GroupVersionData>, preferred: Option<string>)

  function DataPriority(d: GroupVersionData): Priority {
    PriorityOf(Parse(d.version))
  }

  /** The data of each version, asked of the server in order; the first failure is the result. */
  function QueryVersions(lists: Lists, versions: seq<ServedVersion>): Result<seq<GroupVersionData>, Error> {
    if versions == [] then Ok([])
    else
      var n := |versions| - 1;
      match QueryVersions(lists, versions[..n])
      case Err(e) => Err(e)
      case Ok(before) =>
        match Request(lists, versions[n].groupVersion)
        case Err(e) => Err(e)
        case Ok(list) =>
          match DataOf(versions[n].version, list)
          case Err(e) => Err(e)
          case Ok(d) => Ok(before + [d])
  }

  function QueryGroup(lists: Lists, name: string, versions: seq<ServedVersion>, preferred: Option<string>)
    : Result<ApiGroup, Error>
  {
    if versions == [] then Err(EmptyApiGroup(name))
    else
      match QueryVersions(lists, versions)
      case Err(e) => Err(e)
      case Ok(data) => Ok(ApiGroup(name, Sort(data, DataPriority), preferred))
  }

  function QueryApis(server: Server, g: APIGroup): Result<ApiGroup, Error> {
    QueryGroup(server.groupLists, g.name, g.versions, g.preferred)
  }

  /** The core group's lists are asked for by version alone. */
  function CoreServed(server: Server): seq<ServedVersion> {
    seq(|server.coreVersions|, i requires 0 <= i < |server.coreVersions| =>
      ServedVersion(server.coreVersions[i], server.coreVersions[i]))
  }

  function QueryCore(server: Server): Result<ApiGroup, Error> {
    QueryGroup(server.coreLists, "", CoreServed(server), Some("v1"))
  }

  /** The loop shared by `query_apis` and `query_core`. */
  method FetchVersions(lists: Lists, versions: seq<ServedVersion>) returns (r: Result<seq<GroupVersionData>, Error>)
    ensures r == QueryVersions(lists, versions)
  {
    var data: seq<GroupVersionData> := [];
    var i := 0;
    while i < |versions|
      invariant i <= |versions|
      invariant QueryVersions(lists, versions[..i]) == Ok(data)
    {
      assert versions[..i + 1][..i] == versions[..i] && versions[..i + 1][i] == versions[i];
      var list := Request(lists, versions[i].groupVersion);
      if list.Err? {
        QueryFailsEarly(lists, versions, i + 1);
        return Err(list.error);
      }
      var d := NewGroupVersionData(versions[i].version, list.value);
      data := data + [d.value];
      i := i + 1;
    }
    assert versions[..i] == versions;
    r := Ok(data);
  }

  lemma {:induction false} QueryFailsEarly(lists: Lists, versions: seq<ServedVersion>, i: nat)
    requires i <= |versions| && QueryVersions(lists, versions[..i]).Err?
    ensures QueryVersions(lists, versions) == QueryVersions(lists, versions[..i])
  {
    if i == |versions| {
      assert versions[..i] == versions;
    } else {
      var n := |versions| - 1;
      assert versions[..n][..i] == versions[..i];
      QueryFailsEarly(lists, versions[..n], i);
    }
  }

  /** `query_apis` and, with the core lists, `query_core`. */
  method FetchGroup(lists: Lists, name: string, versions: seq<ServedVersion>, preferred: Option<string>)
    returns (r: Result<ApiGroup, Error>)
    ensures r == QueryGroup(lists, name, versions, preferred)
  {
    if versions == [] {
      return Err(EmptyApiGroup(name));
    }
    var data := FetchVersions(lists, versions);
    if data.Err? {
      return Err(data.error);
    }
    r := Ok(ApiGroup(name, Sort(data.value, DataPriority), preferred));
  }

  // ---------- Lookups ----------

  function FirstData(data: seq<GroupVersionData>, version: string): Option<GroupVersionData> {
    if data == [] then None
    else if data[0].version == version then Some(data[0])
    else FirstData(data[1..], version)
  }

  function VersionedResources(g: ApiGroup, version: string): seq<Discovered> {
    match FirstData(g.data, version)
    case None => []
    case Some(d) => d.resources
  }

  function FirstOfKind(resources: seq<Discovered>, kind: string): Option<Discovered> {
    if resources == [] then None
    else if resources[0].resource.kind == kind then Some(resources[0])
    else FirstOfKind(resources[1..], kind)
  }

  function ResolveGvk(groups: map<string, ApiGroup>, gvk: Kind): Option<Discovered> {
    if gvk.group !in groups then None
    else FirstOfKind(VersionedResources(groups[gvk.group], gvk.version), gvk.kind)
  }

  /** The direct lookup in a fetched list, from position `i` on. */
  function QueryList(list: APIResourceList, gvk: Kind, i: nat): Result<Discovered, Error>
    requires i <= |list.resources|
    decreases |list.resources| - i
  {
    if i == |list.resources| then Err(MissingKind(gvk))
    else
      var res := list.resources[i];
      if res.kind == gvk.kind && '/' !in res.name then
        match ParseCapabilities(list, res.name)
        case None => Err(MissingResource(res.name))
        case Some(caps) => Ok(Discovered(ParseResource(res, list.groupVersion), caps))
      else QueryList(list, gvk, i + 1)
  }

  function QueryGvk(server: Server, gvk: Kind): Result<Discovered, Error> {
    var lists := if gvk.group == "" then server.coreLists else server.groupLists;
    match Request(lists, ApiVersion(gvk.group, gvk.version))
    case Err(e) => Err(e)
    case Ok(list) => QueryList(list, gvk, 0)
  }

  // ---------- The run ----------

  datatype DiscoveryMode = Allow(groups: seq<string>) | Block(groups: seq<string>)

  predicate IsQueryable(mode: DiscoveryMode, group: string) {
    match mode
    case Allow(allowed) => group in allowed
    case Block(blocked) => group !in blocked
  }

  /** The cache after the named groups, in order: a later group of the same name replaces an earlier. */
  function Cached(server: Server, mode: DiscoveryMode, gs: seq<APIGroup>): Result<map<string, ApiGroup>, Error> {
    if gs == [] then Ok(map[])
    else
      var n := |gs| - 1;
      match Cached(server, mode, gs[..n])
      case Err(e) => Err(e)
      case Ok(before) =>
        if !IsQueryable(mode, gs[n].name) then Ok(before)
        else
          match QueryApis(server, gs[n])
          case Err(e) => Err(e)
          case Ok(group) => Ok(before[gs[n].name := group])
  }

  function CacheAfterRun(server: Server, mode: DiscoveryMode): Result<map<string, ApiGroup>, Error> {
    match Cached(server, mode, server.groups)
    case Err(e) => Err(e)
    case Ok(before) =>
      if !IsQueryable(mode, "") then Ok(before)
      else
        match QueryCore(server)
        case Err(e) => Err(e)
        case Ok(group) => Ok(before["" := group])
  }

  lemma {:induction false} RunFailsEarly(server: Server, mode: DiscoveryMode, gs: seq<APIGroup>, i: nat)
    requires i <= |gs| && Cached(server, mode, gs[..i]).Err?
    ensures Cached(server, mode, gs) == Cached(server, mode, gs[..i])
  {
    if i == |gs| {
      assert gs[..i] == gs;
    } else {
      var n := |gs| - 1;
      assert gs[..n][..i] == gs[..i];
      RunFailsEarly(server, mode, gs[..n], i);
    }
  }

  class Discoverer {
    var groups: map<string, ApiGroup>
    var mode: DiscoveryMode

    constructor ()
      ensures groups == map[] && mode == Block([])
    {
      groups := map[];
      mode := Block([]);
    }

    /** Whatever was cached before, a successful run leaves exactly what the server serves now. */
    method Run(server: Server) returns (r: Result<(), Error>)
      modifies this`groups
      ensures r.Ok? ==> CacheAfterRun(server, mode) == Ok(groups)
      ensures r.Err? ==> CacheAfterRun(server, mode) == Err(r.error)
    {
      groups := map[];
      var i := 0;
      while i < |server.groups|
        invariant i <= |server.groups|
        invariant Cached(server, mode, server.groups[..i]) == Ok(groups)
      {
        var g := server.groups[i];
        assert server.groups[..i + 1][..i] == server.groups[..i] && server.groups[..i + 1][i] == g;
        if IsQueryable(mode, g.name) {
          var group := FetchGroup(server.groupLists, g.name, g.versions, g.preferred);
          if group.Err? {
            RunFailsEarly(server, mode, server.groups, i + 1);
            return Err(group.error);
          }
          groups := groups[g.name := group.value];
        }
        i := i + 1;
      }
      assert server.groups[..i] == server.groups;
      if IsQueryable(mode, "") {
        var group := FetchGroup(server.coreLists, "", CoreServed(server), Some("v1"));
        if group.Err? {
          return Err(group.error);
        }
        groups := groups["" := group.value];
      }
      r := Ok(());
    }
  }

  // ---------- Cached and direct lookup agree ----------

  /** A group as the API conventions have it: named, free of slashes, its versions qualified by its name. */
  ghost predicate GroupConforms(g: APIGroup) {
    && g.name != "" && '/' !in g.name
    && forall v :: v in g.versions ==> '/' !in v.version && v.groupVersion == ApiVersion(g.name, v.version)
  }

  /** Exactly the listed versions are served. */
  ghost predicate ServesWhatItLists(server: Server) {
    && (forall g :: g in server.groups ==> GroupConforms(g))
    && (forall key :: key in server.groupLists <==>
                      exists g, v :: g in server.groups && v in g.versions && v.groupVersion == key)
    && (forall key :: key in server.coreLists <==> key in server.coreVersions)
  }

  ghost predicate Conforms(server: Server) {
    && ServesWhatItLists(server)
    && (forall i, j :: 0 <= i < j < |server.groups| ==> server.groups[i].name != server.groups[j].name)
  }

  /** A qualified version names one group and one version. */
  lemma ApiVersionInjective(group: string, version: string, a: string, b: string)
    requires group != "" && '/' !in group && '/' !in version && a != ""
    requires ApiVersion(a, b) == ApiVersion(group, version)
    ensures a == group && b == version
  {
    var s := group + "/" + version;
    assert s == a + "/" + b;
    assert s[|a|] == '/';
    assert forall i :: 0 <= i < |s| && s[i] == '/' ==> i == |group|;
    assert s[..|a|] == a && s[..|group|] == group;
    assert s[|a| + 1..] == b && s[|group| + 1..] == version;
  }

  /** Looking a kind up in parsed data is the direct lookup in the list it was parsed from. */
  lemma {:induction false} ParsedLookup(list: APIResourceList, gvk: Kind, i: nat)
    requires i <= |list.resources|
    ensures TopLevel(list, i).Ok?
    ensures QueryList(list, gvk, i) == match FirstOfKind(TopLevel(list, i).value, gvk.kind)
                                       case Some(d) => Ok(d)
                                       case None => Err(MissingKind(gvk))
    decreases |list.resources| - i
  {
    TopLevelTotal(list, i);
    if i < |list.resources| {
      ParsedLookup(list, gvk, i + 1);
    }
  }

  /** Fetched data is, version by version, the parse of what the server lists. */
  lemma {:induction false} FetchedData(lists: Lists, versions: seq<ServedVersion>)
    requires QueryVersions(lists, versions).Ok?
    ensures var data := QueryVersions(lists, versions).value;
            |data| == |versions| &&
            forall i :: 0 <= i < |versions| ==>
              versions[i].groupVersion in lists &&
              Ok(data[i]) == DataOf(versions[i].version, lists[versions[i].groupVersion])
  {
    if versions != [] {
      FetchedData(lists, versions[..|versions| - 1]);
    }
  }

  lemma FetchOneMore(lists: Lists, versions: seq<ServedVersion>)
    requires versions != []
    ensures QueryVersions(lists, versions).Ok? <==>
              QueryVersions(lists, versions[..|versions| - 1]).Ok? && versions[|versions| - 1].groupVersion in lists
  {
    var key := versions[|versions| - 1].groupVersion;
    if key in lists {
      TopLevelTotal(lists[key], 0);
    }
  }

  /** Fetching fails only on a list that is not served. */
  lemma {:induction false} FetchSucceeds(lists: Lists, versions: seq<ServedVersion>)
    ensures QueryVersions(lists, versions).Ok? <==>
            forall i :: 0 <= i < |versions| ==> versions[i].groupVersion in lists
  {
    if versions != [] {
      FetchOneMore(lists, versions);
      FetchSucceeds(lists, versions[..|versions| - 1]);
    }
  }

  lemma {:induction false} FirstDataFinds(data: seq<GroupVersionData>, version: string)
    ensures match FirstData(data, version)
            case Some(d) => d in data && d.version == version
            case None => forall d :: d in data ==> d.version != version
  {
    if data != [] {
      FirstDataFinds(data[1..], version);
      assert data == [data[0]] + data[1..];
    }
  }

  lemma SortKeepsElements<T>(s: seq<T>, key: T -> Priority, x: T)
    ensures x in Sort(s, key) <==> x in s
  {
    SortSorts(s, key);
    assert x in Sort(s, key) <==> x in multiset(Sort(s, key));
    assert x in s <==> x in multiset(s);
  }

  /** Lookup in a fetched group, when each version determines the list it is asked for under. */
  lemma GroupLookup(
    lists: Lists, name: string, versions: seq<ServedVersion>, preferred: Option<string>, gvk: Kind)
    requires QueryGroup(lists, name, versions, preferred).Ok?
    requires forall v :: v in versions && v.version == gvk.version ==>
               v.groupVersion == ApiVersion(gvk.group, gvk.version)
    ensures var group := QueryGroup(lists, name, versions, preferred).value;
            var found := FirstOfKind(VersionedResources(group, gvk.version), gvk.kind);
            var key := ApiVersion(gvk.group, gvk.version);
            if exists v :: v in versions && v.version == gvk.version then
              && key in lists
              && QueryList(lists[key], gvk, 0) == match found case Some(d) => Ok(d) case None => Err(MissingKind(gvk))
            else found == None
  {
    var group := QueryGroup(lists, name, versions, preferred).value;
    var data := QueryVersions(lists, versions).value;
    FetchedData(lists, versions);
    FirstDataFinds(group.data, gvk.version);
    var first := FirstData(group.data, gvk.version);
    if first.Some? {
      SortKeepsElements(data, DataPriority, first.value);
      var k :| 0 <= k < |data| && data[k] == first.value;
      assert versions[k] in versions && versions[k].version == gvk.version;
      ParsedLookup(lists[ApiVersion(gvk.group, gvk.version)], gvk, 0);
    } else {
      forall i | 0 <= i < |versions| ensures versions[i].version != gvk.version {
        SortKeepsElements(data, DataPriority, data[i]);
      }
    }
  }

  lemma CachedOneMore(server: Server, mode: DiscoveryMode, gs: seq<APIGroup>, g: APIGroup)
    requires Cached(server, mode, gs + [g]).Ok?
    ensures Cached(server, mode, gs).Ok?
    ensures if IsQueryable(mode, g.name)
            then
              && QueryApis(server, g).Ok?
              && Cached(server, mode, gs + [g]).value
                 == Cached(server, mode, gs).value[g.name := QueryApis(server, g).value]
            else Cached(server, mode, gs + [g]) == Cached(server, mode, gs)
  {
    assert (gs + [g])[..|gs|] == gs;
  }

  /** The cache holds the queryable ones of the listed groups, each as the server describes it. */
  ghost predicate Mirrors(server: Server, mode: DiscoveryMode, gs: seq<APIGroup>, cache: map<string, ApiGroup>) {
    && (forall name :: name in cache ==> IsQueryable(mode, name) && exists g :: g in gs && g.name == name)
    && (forall g :: g in gs && IsQueryable(mode, g.name) ==>
          g.name in cache && QueryApis(server, g) == Ok(cache[g.name]))
  }

  lemma MirrorsOneMore(
    server: Server, mode: DiscoveryMode, gs: seq<APIGroup>, g: APIGroup,
    before: map<string, ApiGroup>, after: map<string, ApiGroup>)
    requires Mirrors(server, mode, gs, before) && forall h :: h in gs ==> h.name != g.name
    requires if IsQueryable(mode, g.name)
             then QueryApis(server, g).Ok? && after == before[g.name := QueryApis(server, g).value]
             else after == before
    ensures Mirrors(server, mode, gs + [g], after)
  {
    var more := gs + [g];
    assert g in more;
    forall name | name in after ensures exists h :: h in more && h.name == name {
      if name != g.name {
        var h :| h in gs && h.name == name;
        assert h in more;
      }
    }
  }

  lemma {:induction false} CachedGroups(server: Server, mode: DiscoveryMode, gs: seq<APIGroup>)
    requires forall i, j :: 0 <= i < j < |gs| ==> gs[i].name != gs[j].name
    requires Cached(server, mode, gs).Ok?
    ensures Mirrors(server, mode, gs, Cached(server, mode, gs).value)
  {
    if gs != [] {
      var n := |gs| - 1;
      var before, g := gs[..n], gs[n];
      assert gs == before + [g];
      CachedOneMore(server, mode, before, g);
      CachedGroups(server, mode, before);
      MirrorsOneMore(server, mode, before, g, Cached(server, mode, before).value, Cached(server, mode, gs).value);
    }
  }

  /** Groups of one name are one group. */
  lemma OneGroupPerName(server: Server, g: APIGroup, h: APIGroup)
    requires Conforms(server) && g in server.groups && h in server.groups && g.name == h.name
    ensures g == h
  {
    var i :| 0 <= i < |server.groups| && server.groups[i] == g;
    var j :| 0 <= j < |server.groups| && server.groups[j] == h;
    assert i == j;
  }

  /** A list under a group's qualified version belongs to a listed version of that group. */
  lemma ServedIsListed(server: Server, g: APIGroup, version: string) returns (v: ServedVersion)
    requires Conforms(server) && g in server.groups && ApiVersion(g.name, version) in server.groupLists
    ensures v in g.versions && v.version == version
  {
    var h: APIGroup;
    h, v :| h in server.groups && v in h.versions && v.groupVersion == ApiVersion(g.name, version);
    assert GroupConforms(h) && GroupConforms(g);
    ApiVersionInjective(h.name, v.version, g.name, version);
    OneGroupPerName(server, g, h);
  }

  /** What a conforming server serves under a group's name belongs to that group. */
  lemma ServedUnder(server: Server, g: APIGroup, version: string)
    requires Conforms(server) && g in server.groups
    ensures ApiVersion(g.name, version) in server.groupLists <==> exists v :: v in g.versions && v.version == version
  {
    if ApiVersion(g.name, version) in server.groupLists {
      var v := ServedIsListed(server, g, version);
    } else {
      assert GroupConforms(g);
    }
  }

  /**
    After a successful run against a conforming server, looking up any kind of a queryable group in
    the cache gives what asking the server directly gives: the same resource with the same
    capabilities, or a failure of both.
   */
  lemma CacheAgreesWithServer(server: Server, mode: DiscoveryMode, gvk: Kind)
    requires Conforms(server) && CacheAfterRun(server, mode).Ok?
    requires IsQueryable(mode, gvk.group)
    ensures ResolveGvk(CacheAfterRun(server, mode).value, gvk)
         == match QueryGvk(server, gvk) case Ok(d) => Some(d) case Err(_) => None
  {
    CachedGroups(server, mode, server.groups);
    if gvk.group == "" {
      CoreAgrees(server, gvk);
    } else if exists g :: g in server.groups && g.name == gvk.group {
      var g :| g in server.groups && g.name == gvk.group;
      ListedAgrees(server, g, gvk);
    } else {
      UnlistedIsNotServed(server, gvk.group, gvk.version);
    }
  }

  lemma UnlistedIsNotServed(server: Server, group: string, version: string)
    requires Conforms(server) && group != ""
    requires forall g :: g in server.groups ==> g.name != group
    ensures ApiVersion(group, version) !in server.groupLists
  {
    forall h, v | h in server.groups && v in h.versions ensures v.groupVersion != ApiVersion(group, version) {
      if v.groupVersion == ApiVersion(group, version) {
        ApiVersionInjective(h.name, v.version, group, version);
        assert false;
      }
    }
  }

  lemma ListedAgrees(server: Server, g: APIGroup, gvk: Kind)
    requires Conforms(server) && g in server.groups && g.name == gvk.group && QueryApis(server, g).Ok?
    ensures FirstOfKind(VersionedResources(QueryApis(server, g).value, gvk.version), gvk.kind)
         == match QueryGvk(server, gvk) case Ok(d) => Some(d) case Err(_) => None
  {
    assert GroupConforms(g);
    GroupLookup(server.groupLists, g.name, g.versions, g.preferred, gvk);
    ServedUnder(server, g, gvk.version);
  }

  lemma CoreAgrees(server: Server, gvk: Kind)
    requires Conforms(server) && QueryCore(server).Ok? && gvk.group == ""
    ensures FirstOfKind(VersionedResources(QueryCore(server).value, gvk.version), gvk.kind)
         == match QueryGvk(server, gvk) case Ok(d) => Some(d) case Err(_) => None
  {
    var versions := CoreServed(server);
    GroupLookup(server.coreLists, "", versions, Some("v1"), gvk);
    if gvk.version in server.coreVersions {
      var i :| 0 <= i < |server.coreVersions| && server.coreVersions[i] == gvk.version;
      assert versions[i] in versions && versions[i].version == gvk.version;
    }
  }

  /** A group that the mode shuts out is never resolved. */
  lemma UnqueryableIsUnresolved(server: Server, mode: DiscoveryMode, gvk: Kind)
    requires Conforms(server) && CacheAfterRun(server, mode).Ok?
    requires !IsQueryable(mode, gvk.group)
    ensures ResolveGvk(CacheAfterRun(server, mode).value, gvk) == None
  {
    CachedGroups(server, mode, server.groups);
  }

  /** The cache holds exactly the listed groups and the core group, as far as the mode lets them through. */
  lemma CachesExactly(server: Server, mode: DiscoveryMode, name: string)
    requires Conforms(server) && CacheAfterRun(server, mode).Ok?
    ensures name in CacheAfterRun(server, mode).value <==>
              && (name == "" || exists g :: g in server.groups && g.name == name)
              && (mode.Allow? ==> name in mode.groups) && (mode.Block? ==> name !in mode.groups)
  {
    CachedGroups(server, mode, server.groups);
  }

  /** Against a conforming server a run fails exactly when some queryable group serves no version. */
  lemma RunSucceeds(server: Server, mode: DiscoveryMode)
    requires Conforms(server)
    ensures CacheAfterRun(server, mode).Ok? <==>
            && (forall g :: g in server.groups && IsQueryable(mode, g.name) ==> g.versions != [])
            && (IsQueryable(mode, "") ==> server.coreVersions != [])
  {
    CachingSucceeds(server, mode, server.groups);
    FetchSucceeds(server.coreLists, CoreServed(server));
    assert forall v :: v in CoreServed(server) ==> v.groupVersion in server.coreVersions;
  }

  lemma {:induction false} CachingSucceeds(server: Server, mode: DiscoveryMode, gs: seq<APIGroup>)
    requires Conforms(server) && forall g :: g in gs ==> g in server.groups
    ensures Cached(server, mode, gs).Ok? <==> forall g :: g in gs && IsQueryable(mode, g.name) ==> g.versions != []
  {
    if gs != [] {
      var n := |gs| - 1;
      CachingSucceeds(server, mode, gs[..n]);
      assert gs == gs[..n] + [gs[n]];
      FetchSucceeds(server.groupLists, gs[n].versions);
    }
  }

  /** A group replaces an earlier one of its name, and with it the versions only that one had. */
  lemma LaterGroupReplaces(server: Server, first: APIGroup, second: APIGroup, gvk: Kind)
    requires server.groups == [first, second] && first.name == second.name == gvk.group && gvk.group != ""
    requires QueryApis(server, first).Ok? && QueryApis(server, second).Ok?
    requires forall v :: v in second.versions ==> v.version != gvk.version
    ensures var run := CacheAfterRun(server, Allow([gvk.group]));
            run.Ok? && ResolveGvk(run.value, gvk) == None
  {
    var mode := Allow([gvk.group]);
    assert [first, second][..1] == [first] && [first][..0] == [];
    assert Cached(server, mode, []) == Ok(map[]);
    assert Cached(server, mode, [first]) == Ok(map[gvk.group := QueryApis(server, first).value]);
    GroupLookup(server.groupLists, second.name, second.versions, second.preferred, gvk);
  }

  /** A server that lists one group twice, with a version each. */
  function ListedTwice(name: string, v: string, w: string, list: APIResourceList, other: APIResourceList): Server {
    Server(
      [APIGroup(name, [ServedVersion(ApiVersion(name, v), v)], None),
       APIGroup(name, [ServedVersion(ApiVersion(name, w), w)], None)],
      map[ApiVersion(name, w) := other][ApiVersion(name, v) := list],
      [], map[])
  }

  lemma ListedTwiceServes(name: string, v: string, w: string, list: APIResourceList, other: APIResourceList)
    requires name != "" && '/' !in name && '/' !in v && '/' !in w
    ensures ServesWhatItLists(ListedTwice(name, v, w, list, other))
  {
    var server := ListedTwice(name, v, w, list, other);
    var first, second := server.groups[0], server.groups[1];
    assert first in server.groups && second in server.groups;
    assert first.versions[0] in first.versions && second.versions[0] in second.versions;
  }

  lemma OneVersionFetched(server: Server, g: APIGroup)
    requires |g.versions| == 1 && g.versions[0].groupVersion in server.groupLists
    ensures QueryApis(server, g).Ok?
  {
    FetchSucceeds(server.groupLists, g.versions);
  }

  /** Listing a group once is needed: otherwise every kind of the earlier version is lost to the cache. */
  lemma RepeatedGroupIsForgotten(
    name: string, v: string, w: string, list: APIResourceList, other: APIResourceList, kind: string)
    requires name != "" && '/' !in name && '/' !in v && '/' !in w && v != w
    requires QueryList(list, Kind(name, v, kind), 0).Ok?
    ensures var server, gvk := ListedTwice(name, v, w, list, other), Kind(name, v, kind);
            var run := CacheAfterRun(server, Allow([name]));
            ServesWhatItLists(server) && run.Ok? && ResolveGvk(run.value, gvk) == None && QueryGvk(server, gvk).Ok?
  {
    var server := ListedTwice(name, v, w, list, other);
    var first, second := server.groups[0], server.groups[1];
    ListedTwiceServes(name, v, w, list, other);
    OneVersionFetched(server, first);
    OneVersionFetched(server, second);
    LaterGroupReplaces(server, first, second, Kind(name, v, kind));
  }

  // ---------- Selection by stability ----------

  /** A fetched group keeps its name and preference; the core group prefers `v1` and has no name. */
  lemma FetchedGroupIsNamed(server: Server, g: APIGroup)
    ensures QueryApis(server, g).Ok? ==>
              QueryApis(server, g).value.name == g.name && QueryApis(server, g).value.preferred == g.preferred
    ensures QueryCore(server).Ok? ==>
              QueryCore(server).value.name == "" && QueryCore(server).value.preferred == Some("v1")
    ensures g.versions == [] ==> QueryApis(server, g) == Err(EmptyApiGroup(g.name))
    ensures server.coreVersions == [] ==> QueryCore(server) == Err(EmptyApiGroup(""))
  {
  }

  /** A fetched group's versions come in order of descending priority, and there is at least one. */
  lemma VersionsDescend(lists: Lists, name: string, versions: seq<ServedVersion>, preferred: Option<string>)
    requires QueryGroup(lists, name, versions, preferred).Ok?
    ensures var data := QueryGroup(lists, name, versions, preferred).value.data;
            && data != [] && Descending(data, DataPriority)
            && multiset(data) == multiset(QueryVersions(lists, versions).value)
  {
    FetchedData(lists, versions);
    SortSorts(QueryVersions(lists, versions).value, DataPriority);
  }

  function All(data: seq<GroupVersionData>): seq<Discovered> {
    if data == [] then [] else All(data[..|data| - 1]) + data[|data| - 1].resources
  }

  function OfKind(s: seq<Discovered>, kind: string): seq<Discovered> {
    if s == [] then []
    else OfKind(s[..|s| - 1], kind) + (if s[|s| - 1].resource.kind == kind then [s[|s| - 1]] else [])
  }

  function ResourcePriority(d: Discovered): Priority {
    PriorityOf(Parse(d.resource.version))
  }

  /** The lookup table groups a run of resources by kind, each kind in order of appearance. */
  ghost predicate Groups(lookup: map<string, seq<Discovered>>, s: seq<Discovered>) {
    && (forall kind :: kind in lookup <==> OfKind(s, kind) != [])
    && (forall kind :: kind in lookup ==> lookup[kind] == OfKind(s, kind))
  }

  /** The entries of one kind are the resources of that kind. */
  lemma {:induction false} OfKindHas(s: seq<Discovered>, kind: string, d: Discovered)
    ensures d in OfKind(s, kind) <==> d in s && d.resource.kind == kind
  {
    if s != [] {
      OfKindHas(s[..|s| - 1], kind, d);
      assert s == s[..|s| - 1] + [s[|s| - 1]];
    }
  }

  lemma GroupsGrow(lookup: map<string, seq<Discovered>>, s: seq<Discovered>, d: Discovered)
    requires Groups(lookup, s)
    ensures var kind := d.resource.kind;
            Groups(lookup[kind := (if kind in lookup then lookup[kind] else []) + [d]], s + [d])
  {
    assert (s + [d])[..|s|] == s;
    assert forall kind :: OfKind(s + [d], kind) == OfKind(s, kind) + if d.resource.kind == kind then [d] else [];
  }

  /** The inner loop: one version's resources join the table. */
  method AddResources(lookup: map<string, seq<Discovered>>, resources: seq<Discovered>, ghost before: seq<Discovered>)
    returns (table: map<string, seq<Discovered>>)
    requires Groups(lookup, before)
    ensures Groups(table, before + resources)
  {
    table := lookup;
    var i := 0;
    assert before + resources[..0] == before;
    while i < |resources|
      invariant i <= |resources|
      invariant Groups(table, before + resources[..i])
    {
      var d := resources[i];
      assert (before + resources[..i]) + [d] == before + resources[..i + 1];
      GroupsGrow(table, before + resources[..i], d);
      var kind := d.resource.kind;
      table := table[kind := (if kind in table then table[kind] else []) + [d]];
      i := i + 1;
    }
    assert resources[..i] == resources;
  }

  /** The best entry of each kind: of highest priority, and the first listed among equals. */
  ghost predicate Best(d: Discovered, s: seq<Discovered>) {
    && d in s
    && (forall e :: e in s && e.resource.kind == d.resource.kind ==> Leq(ResourcePriority(e), ResourcePriority(d)))
    && var ties := Level(OfKind(s, d.resource.kind), ResourcePriority, ResourcePriority(d));
       ties != [] && ties[0] == d
  }

  lemma HeadIsBest(s: seq<Discovered>, kind: string)
    requires OfKind(s, kind) != []
    ensures Sort(OfKind(s, kind), ResourcePriority) != []
    ensures Sort(OfKind(s, kind), ResourcePriority)[0].resource.kind == kind
    ensures Best(Sort(OfKind(s, kind), ResourcePriority)[0], s)
  {
    var same := OfKind(s, kind);
    var sorted := Sort(same, ResourcePriority);
    SortSorts(same, ResourcePriority);
    var d := sorted[0];
    SortKeepsElements(same, ResourcePriority, d);
    OfKindHas(s, kind, d);
    forall e | e in s && e.resource.kind == kind ensures Leq(ResourcePriority(e), ResourcePriority(d)) {
      OfKindHas(s, kind, e);
      SortKeepsElements(same, ResourcePriority, e);
      LeqReflexive(ResourcePriority(d));
      var k :| 0 <= k < |sorted| && sorted[k] == e;
    }
    SortIsStable(same, ResourcePriority, ResourcePriority(d));
  }

  /** Exactly one entry for each kind of the group, each the best of its kind. */
  ghost predicate OneBestPerKind(result: seq<Discovered>, s: seq<Discovered>) {
    && (forall d :: d in result ==> Best(d, s))
    && (forall i, j :: 0 <= i < j < |result| ==> result[i].resource.kind != result[j].resource.kind)
    && (forall e :: e in s ==> exists d :: d in result && d.resource.kind == e.resource.kind)
  }

  /** `resources_by_stability`; the table's values come in no particular order. */
  method ResourcesByStability(g: ApiGroup) returns (result: seq<Discovered>)
    ensures OneBestPerKind(result, All(g.data))
  {
    var lookup: map<string, seq<Discovered>> := map[];
    var i := 0;
    while i < |g.data|
      invariant i <= |g.data|
      invariant Groups(lookup, All(g.data[..i]))
    {
      assert g.data[..i + 1][..i] == g.data[..i];
      lookup := AddResources(lookup, g.data[i].resources, All(g.data[..i]));
      i := i + 1;
    }
    assert g.data[..i] == g.data;
    result := PickBest(lookup, All(g.data));
  }

  /** The kinds outside `left` are done. */
  ghost predicate Picked(result: seq<Discovered>, s: seq<Discovered>, kinds: set<string>, left: set<string>) {
    && left <= kinds
    && (forall d :: d in result ==> Best(d, s) && d.resource.kind !in left)
    && (forall i, j :: 0 <= i < j < |result| ==> result[i].resource.kind != result[j].resource.kind)
    && (forall kind :: kind in kinds && kind !in left ==> exists d :: d in result && d.resource.kind == kind)
  }

  lemma PickedGrows(
    result: seq<Discovered>, s: seq<Discovered>, kinds: set<string>, left: set<string>, best: Discovered)
    requires Picked(result, s, kinds, left)
    requires Best(best, s) && best.resource.kind in left
    requires forall d :: d in result ==> d.resource.kind != best.resource.kind
    ensures Picked(result + [best], s, kinds, left - {best.resource.kind})
  {
    var more := result + [best];
    assert best in more;
    forall kind | kind in kinds && kind !in left - {best.resource.kind}
      ensures exists d :: d in more && d.resource.kind == kind
    {
      if kind != best.resource.kind {
        var d :| d in result && d.resource.kind == kind;
        assert d in more;
      }
    }
  }

  method PickBest(lookup: map<string, seq<Discovered>>, ghost s: seq<Discovered>) returns (result: seq<Discovered>)
    requires Groups(lookup, s)
    ensures OneBestPerKind(result, s)
  {
    result := [];
    var left := lookup.Keys;
    while left != {}
      invariant Picked(result, s, lookup.Keys, left)
      decreases |left|
    {
      var kind :| kind in left;
      HeadIsBest(s, kind);
      var best := Sort(lookup[kind], ResourcePriority)[0];
      PickedGrows(result, s, lookup.Keys, left, best);
      result := result + [best];
      left := left - {kind};
    }
    EveryKindPicked(lookup, s, result);
  }

  lemma EveryKindPicked(lookup: map<string, seq<Discovered>>, s: seq<Discovered>, result: seq<Discovered>)
    requires Groups(lookup, s) && Picked(result, s, lookup.Keys, {})
    ensures OneBestPerKind(result, s)
  {
    forall e | e in s ensures exists d :: d in result && d.resource.kind == e.resource.kind {
      OfKindHas(s, e.resource.kind, e);
      assert e.resource.kind in lookup.Keys;
    }
  }
}
