/**
  Kubeconfig files: merging them so that the first file wins, reading one or many, and resolving a
  context, cluster and user in the merged result.
 */
module Kubeconfigs {
  import opened Common

  // ---------- The configuration ----------

  datatype Named<+T> = Named(name: string, value: Option<T>)

  datatype Cluster = Cluster(server: Option<string>, certificateAuthority: Option<string>)

  datatype AuthInfo = AuthInfo(
    username: Option<string>,
    clientCertificate: Option<string>,
    clientKey: Option<string>,
    tokenFile: Option<string>)

  datatype Context = Context(cluster: string, user: string, namespace: Option<string>)

  datatype Kubeconfig = Kubeconfig(
    preferences: Option<string>,
    clusters: seq<Named<Cluster>>,
    authInfos: seq<Named<AuthInfo>>,
    contexts: seq<Named<Context>>,
    currentContext: Option<string>,
    extensions: Option<string>,
    kind: Option<string>,
    apiVersion: Option<string>)

  const DEFAULT := Kubeconfig(None, [], [], [], None, None, None, None)

  datatype Error =
    | KindMismatch
    | ApiVersionMismatch
    | ReadConfig(path: string)
    | CurrentContextNotSet
    | LoadContext(name: string)
    | LoadClusterOfContext(name: string)
    | FindUser(name: string)

  function Or<T>(a: Option<T>, b: Option<T>): Option<T> {
    if a.Some? then a else b
  }

  // ---------- Merging ----------

  function Names<T(==)>(s: seq<Named<T>>): set<string> {
    set x | x in s :: x.name
  }

  /** The entries whose names are new. */
  function Unseen<T>(s: seq<Named<T>>, existing: set<string>): seq<Named<T>> {
    if s == [] then []
    else Unseen(s[..|s| - 1], existing) + if s[|s| - 1].name in existing then [] else [s[|s| - 1]]
  }

  function Appended<T(==)>(base: seq<Named<T>>, next: seq<Named<T>>): seq<Named<T>> {
    base + Unseen(next, Names(base))
  }

  predicate Conflict(a: Option<string>, b: Option<string>) {
    a.Some? && b.Some? && a != b
  }

  function Merged(a: Kubeconfig, b: Kubeconfig): Result<Kubeconfig, Error> {
    if Conflict(a.kind, b.kind) then Err(KindMismatch)
    else if Conflict(a.apiVersion, b.apiVersion) then Err(ApiVersionMismatch)
    else Ok(Kubeconfig(
              Or(a.preferences, b.preferences),
              Appended(a.clusters, b.clusters),
              Appended(a.authInfos, b.authInfos),
              Appended(a.contexts, b.contexts),
              Or(a.currentContext, b.currentContext),
              Or(a.extensions, b.extensions),
              Or(a.kind, b.kind),
              Or(a.apiVersion, b.apiVersion)))
  }

  /** `append_new_named`. Names repeated within `next` itself are all kept. */
  method AppendNewNamed<T(==)>(base: seq<Named<T>>, next: seq<Named<T>>) returns (r: seq<Named<T>>)
    ensures r == Appended(base, next)
  {
    var existing: set<string> := {};
    var i := 0;
    while i < |base|
      invariant i <= |base|
      invariant existing == Names(base[..i])
    {
      assert base[..i + 1] == base[..i] + [base[i]];
      existing := existing + {base[i].name};
      i := i + 1;
    }
    assert base[..i] == base;
    r := base;
    var k := 0;
    while k < |next|
      invariant k <= |next|
      invariant r == base + Unseen(next[..k], existing)
    {
      assert next[..k + 1][..k] == next[..k];
      if next[k].name !in existing {
        r := r + [next[k]];
      }
      k := k + 1;
    }
    assert next[..k] == next;
  }

  method Merge(config: Kubeconfig, next: Kubeconfig) returns (r: Result<Kubeconfig, Error>)
    ensures r == Merged(config, next)
  {
    var self := config;
    if self.kind.Some? && next.kind.Some? && self.kind != next.kind {
      return Err(KindMismatch);
    }
    if self.apiVersion.Some? && next.apiVersion.Some? && self.apiVersion != next.apiVersion {
      return Err(ApiVersionMismatch);
    }
    self := self.(kind := Or(self.kind, next.kind));
    self := self.(apiVersion := Or(self.apiVersion, next.apiVersion));
    self := self.(preferences := Or(self.preferences, next.preferences));
    var clusters := AppendNewNamed(self.clusters, next.clusters);
    var authInfos := AppendNewNamed(self.authInfos, next.authInfos);
    var contexts := AppendNewNamed(self.contexts, next.contexts);
    self := self.(clusters := clusters, authInfos := authInfos, contexts := contexts);
    self := self.(currentContext := Or(self.currentContext, next.currentContext));
    self := self.(extensions := Or(self.extensions, next.extensions));
    r := Ok(self);
  }

  // ---------- The algebra of merging ----------

  lemma {:induction false} UnseenOfConcat<T>(a: seq<Named<T>>, b: seq<Named<T>>, existing: set<string>)
    ensures Unseen(a + b, existing) == Unseen(a, existing) + Unseen(b, existing)
  {
    if b == [] {
      assert a + b == a;
    } else {
      var n := |b| - 1;
      UnseenOfConcat(a, b[..n], existing);
      assert (a + b)[..|a + b| - 1] == a + b[..n];
    }
  }

  lemma {:induction false} UnseenTwice<T>(s: seq<Named<T>>, p: set<string>, q: set<string>)
    ensures Unseen(Unseen(s, p), q) == Unseen(s, p + q)
  {
    if s != [] {
      var n := |s| - 1;
      UnseenTwice(s[..n], p, q);
      var last := if s[n].name in p then [] else [s[n]];
      UnseenOfConcat(Unseen(s[..n], p), last, q);
      assert last != [] ==> last[..0] == [];
    }
  }

  lemma {:induction false} UnseenHas<T>(s: seq<Named<T>>, existing: set<string>, x: Named<T>)
    ensures x in Unseen(s, existing) <==> x in s && x.name !in existing
  {
    if s != [] {
      UnseenHas(s[..|s| - 1], existing, x);
      assert s == s[..|s| - 1] + [s[|s| - 1]];
    }
  }

  lemma {:induction false} UnseenOfNothing<T>(s: seq<Named<T>>)
    ensures Unseen(s, {}) == s
  {
    if s != [] {
      UnseenOfNothing(s[..|s| - 1]);
    }
  }

  lemma AppendedNames<T>(a: seq<Named<T>>, b: seq<Named<T>>)
    ensures Names(Appended(a, b)) == Names(a) + Names(b)
  {
    var names := Names(Appended(a, b));
    forall x | x in b ensures x.name in names {
      UnseenHas(b, Names(a), x);
      if x.name in Names(a) {
        var y :| y in a && y.name == x.name;
        assert y in Appended(a, b);
      }
    }
    forall x | x in Appended(a, b) ensures x.name in Names(a) + Names(b) {
      UnseenHas(b, Names(a), x);
    }
    assert forall x :: x in a ==> x in Appended(a, b);
  }

  lemma AppendedAssociates<T>(a: seq<Named<T>>, b: seq<Named<T>>, c: seq<Named<T>>)
    ensures Appended(Appended(a, b), c) == Appended(a, Appended(b, c))
  {
    var added := Unseen(b, Names(a));
    var rest := Unseen(c, Names(a) + Names(b));
    assert Appended(Appended(a, b), c) == (a + added) + rest by {
      AppendedNames(a, b);
    }
    assert Unseen(Unseen(c, Names(b)), Names(a)) == rest by {
      UnseenTwice(c, Names(b), Names(a));
      assert Names(b) + Names(a) == Names(a) + Names(b);
    }
    assert Appended(a, Appended(b, c)) == a + (added + rest) by {
      UnseenOfConcat(b, Unseen(c, Names(b)), Names(a));
    }
  }

  lemma AppendedIdentity<T>(s: seq<Named<T>>)
    ensures Appended([], s) == s && Appended(s, []) == s
  {
    assert Names<T>([]) == {};
    UnseenOfNothing(s);
  }

  /** The empty configuration changes nothing on either side. */
  lemma DefaultIsIdentity(c: Kubeconfig)
    ensures Merged(DEFAULT, c) == Ok(c)
    ensures Merged(c, DEFAULT) == Ok(c)
  {
    AppendedIdentity(c.clusters);
    AppendedIdentity(c.authInfos);
    AppendedIdentity(c.contexts);
  }

  /** Merging a configuration into the result of an earlier merge. */
  function Then(a: Result<Kubeconfig, Error>, b: Result<Kubeconfig, Error>): Result<Kubeconfig, Error> {
    if a.Err? then a else if b.Err? then b else Merged(a.value, b.value)
  }

  /** The same outcome, except that two failures may name different mismatches. */
  predicate Agree(a: Result<Kubeconfig, Error>, b: Result<Kubeconfig, Error>) {
    (a.Err? && b.Err?) || a == b
  }

  /** However three configurations are bracketed, merging succeeds on the same ones with one result. */
  lemma MergeAssociates(a: Kubeconfig, b: Kubeconfig, c: Kubeconfig)
    ensures Agree(Then(Merged(a, b), Ok(c)), Then(Ok(a), Merged(b, c)))
  {
    AppendedAssociates(a.clusters, b.clusters, c.clusters);
    AppendedAssociates(a.authInfos, b.authInfos, c.authInfos);
    AppendedAssociates(a.contexts, b.contexts, c.contexts);
  }

  /**
    Exactly when the two bracketings differ, that is when they blame different fields: some two kinds and
    some two API versions conflict, and the first merge would blame the kind on one side only.
   */
  lemma BlameDiffersIff(a: Kubeconfig, b: Kubeconfig, c: Kubeconfig)
    ensures Then(Merged(a, b), Ok(c)) != Then(Ok(a), Merged(b, c)) <==>
              && (Conflict(a.kind, b.kind) || Conflict(b.kind, c.kind) || Conflict(a.kind, c.kind))
              && (Conflict(a.apiVersion, b.apiVersion) || Conflict(b.apiVersion, c.apiVersion)
                  || Conflict(a.apiVersion, c.apiVersion))
              && (Conflict(a.kind, b.kind) || !Conflict(a.apiVersion, b.apiVersion))
                 != (Conflict(b.kind, c.kind) || !Conflict(b.apiVersion, c.apiVersion))
  {
    MergeAssociates(a, b, c);
  }

  /** Three configurations for which they do. */
  lemma BracketingChangesBlame()
    ensures var a := DEFAULT.(kind := Some("Config"), apiVersion := Some("v1"));
            var b := DEFAULT.(apiVersion := Some("v2"));
            var c := DEFAULT.(kind := Some("Other"), apiVersion := Some("v2"));
            Then(Merged(a, b), Ok(c)) == Err(ApiVersionMismatch) && Then(Ok(a), Merged(b, c)) == Err(KindMismatch)
  {
  }

  /** All documents merged in order: the fold of `from_yaml`. */
  function MergeAll(docs: seq<Kubeconfig>): Result<Kubeconfig, Error> {
    if docs == [] then Ok(DEFAULT) else Then(MergeAll(docs[..|docs| - 1]), Ok(docs[|docs| - 1]))
  }

  /** Merging two groups of documents one after the other is merging the merged groups. */
  lemma {:induction false} MergeAllOfConcat(a: seq<Kubeconfig>, b: seq<Kubeconfig>)
    ensures Agree(MergeAll(a + b), Then(MergeAll(a), MergeAll(b)))
  {
    if b == [] {
      assert a + b == a;
      if MergeAll(a).Ok? {
        DefaultIsIdentity(MergeAll(a).value);
      }
    } else {
      var n := |b| - 1;
      MergeAllOfConcat(a, b[..n]);
      assert (a + b)[..|a + b| - 1] == a + b[..n] && (a + b)[|a + b| - 1] == b[n];
      if MergeAll(a).Ok? && MergeAll(b[..n]).Ok? {
        MergeAssociates(MergeAll(a).value, MergeAll(b[..n]).value, b[n]);
      }
    }
  }

  lemma {:induction false} MergeFailsEarly(docs: seq<Kubeconfig>, i: nat)
    requires i <= |docs| && MergeAll(docs[..i]).Err?
    ensures MergeAll(docs) == MergeAll(docs[..i])
  {
    if i == |docs| {
      assert docs[..i] == docs;
    } else {
      var n := |docs| - 1;
      assert docs[..n][..i] == docs[..i];
      MergeFailsEarly(docs[..n], i);
    }
  }

  // ---------- Reading a file ----------

  /**
    A file's documents, and how a path relative to its directory becomes absolute: `None` for a path
    that is left alone.
   */
  datatype File = File(documents: seq<Kubeconfig>, absolute: string -> Option<string>)

  function Located(absolute: string -> Option<string>, path: Option<string>): Option<string> {
    if path.Some? && absolute(path.value).Some? then absolute(path.value) else path
  }

  function LocateCluster(absolute: string -> Option<string>): Cluster -> Cluster {
    (c: Cluster) => c.(certificateAuthority := Located(absolute, c.certificateAuthority))
  }

  function LocateAuthInfo(absolute: string -> Option<string>): AuthInfo -> AuthInfo {
    (a: AuthInfo) => a.(
      clientCertificate := Located(absolute, a.clientCertificate),
      clientKey := Located(absolute, a.clientKey),
      tokenFile := Located(absolute, a.tokenFile))
  }

  /** Each path is made absolute on its own, and nothing else of a cluster or user changes. */
  lemma OnlyPathsAreLocated(absolute: string -> Option<string>, c: Cluster, a: AuthInfo)
    ensures var d, b := LocateCluster(absolute)(c), LocateAuthInfo(absolute)(a);
            && d.server == c.server && b.username == a.username
            && IsLocated(absolute, c.certificateAuthority, d.certificateAuthority)
            && IsLocated(absolute, a.clientCertificate, b.clientCertificate)
            && IsLocated(absolute, a.clientKey, b.clientKey)
            && IsLocated(absolute, a.tokenFile, b.tokenFile)
  {
  }

  /** `to` is the absolute form of `from` if it has one, and `from` itself otherwise. */
  predicate IsLocated(absolute: string -> Option<string>, from: Option<string>, to: Option<string>) {
    match from
    case None => to == None
    case Some(path) => to == match absolute(path) case Some(a) => Some(a) case None => Some(path)
  }

  function MapNamed<T>(x: Named<T>, f: T -> T): Named<T> {
    if x.value.Some? then Named(x.name, Some(f(x.value.value))) else x
  }

  function MapAll<T>(s: seq<Named<T>>, f: T -> T): seq<Named<T>> {
    if s == [] then [] else MapAll(s[..|s| - 1], f) + [MapNamed(s[|s| - 1], f)]
  }

  /** A configuration with every path made absolute. */
  function Relocated(c: Kubeconfig, absolute: string -> Option<string>): Kubeconfig {
    c.(clusters := MapAll(c.clusters, LocateCluster(absolute)),
       authInfos := MapAll(c.authInfos, LocateAuthInfo(absolute)))
  }

  function RelocateAll(docs: seq<Kubeconfig>, absolute: string -> Option<string>): seq<Kubeconfig> {
    if docs == [] then [] else RelocateAll(docs[..|docs| - 1], absolute) + [Relocated(docs[|docs| - 1], absolute)]
  }

  /** One of the loops that rewrite the entries of a list in place. */
  method RewriteEntries<T>(s: seq<Named<T>>, f: T -> T) returns (r: seq<Named<T>>)
    ensures r == MapAll(s, f)
  {
    r := s;
    var i := 0;
    while i < |s|
      invariant i <= |s| && |r| == |s|
      invariant r[..i] == MapAll(s[..i], f) && r[i..] == s[i..]
    {
      assert r[i] == r[i..][0] == s[i];
      assert s[..i + 1][..i] == s[..i];
      r := r[i := MapNamed(r[i], f)];
      i := i + 1;
    }
    assert s[..i] == s && r[..i] == r;
  }

  lemma {:induction false} MapKeepsNames<T>(s: seq<Named<T>>, f: T -> T)
    ensures Names(MapAll(s, f)) == Names(s)
  {
    if s != [] {
      var n := |s| - 1;
      MapKeepsNames(s[..n], f);
      NamesOfConcat(s[..n], [s[n]]);
      NamesOfConcat(MapAll(s[..n], f), [MapNamed(s[n], f)]);
      assert s == s[..n] + [s[n]];
    }
  }

  lemma NamesOfConcat<T>(a: seq<Named<T>>, b: seq<Named<T>>)
    ensures Names(a + b) == Names(a) + Names(b)
  {
    assert forall x :: x in a + b <==> x in a || x in b;
  }

  lemma {:induction false} MapOfConcat<T>(a: seq<Named<T>>, b: seq<Named<T>>, f: T -> T)
    ensures MapAll(a + b, f) == MapAll(a, f) + MapAll(b, f)
  {
    if b == [] {
      assert a + b == a;
    } else {
      MapOfConcat(a, b[..|b| - 1], f);
      assert (a + b)[..|a + b| - 1] == a + b[..|b| - 1];
    }
  }

  lemma {:induction false} MapOfUnseen<T>(s: seq<Named<T>>, existing: set<string>, f: T -> T)
    ensures MapAll(Unseen(s, existing), f) == Unseen(MapAll(s, f), existing)
  {
    if s != [] {
      var n := |s| - 1;
      MapOfUnseen(s[..n], existing, f);
      assert MapAll(s, f)[..|MapAll(s, f)| - 1] == MapAll(s[..n], f);
      assert MapNamed(s[n], f).name == s[n].name;
      var last := if s[n].name in existing then [] else [s[n]];
      MapOfConcat(Unseen(s[..n], existing), last, f);
      assert last != [] ==> last[..0] == [];
    }
  }

  lemma MapOfAppended<T>(a: seq<Named<T>>, b: seq<Named<T>>, f: T -> T)
    ensures MapAll(Appended(a, b), f) == Appended(MapAll(a, f), MapAll(b, f))
  {
    MapKeepsNames(a, f);
    MapOfConcat(a, Unseen(b, Names(a)), f);
    MapOfUnseen(b, Names(a), f);
  }

  function Relocating(r: Result<Kubeconfig, Error>, absolute: string -> Option<string>): Result<Kubeconfig, Error> {
    if r.Err? then r else Ok(Relocated(r.value, absolute))
  }

  lemma RelocatedMerge(a: Kubeconfig, b: Kubeconfig, absolute: string -> Option<string>)
    ensures Merged(Relocated(a, absolute), Relocated(b, absolute)) == Relocating(Merged(a, b), absolute)
  {
    MapOfAppended(a.clusters, b.clusters, LocateCluster(absolute));
    MapOfAppended(a.authInfos, b.authInfos, LocateAuthInfo(absolute));
  }

  /** Making paths absolute before merging the documents or after comes to the same. */
  lemma {:induction false} RelocatedMergeAll(docs: seq<Kubeconfig>, absolute: string -> Option<string>)
    ensures MergeAll(RelocateAll(docs, absolute)) == Relocating(MergeAll(docs), absolute)
  {
    if docs != [] {
      var n := |docs| - 1;
      RelocatedMergeAll(docs[..n], absolute);
      var all := RelocateAll(docs, absolute);
      assert all[..|all| - 1] == RelocateAll(docs[..n], absolute);
      if MergeAll(docs[..n]).Ok? {
        RelocatedMerge(MergeAll(docs[..n]).value, docs[n], absolute);
      }
    }
  }

  /** The loops of `read_from` over the entries of one document. */
  method Relocate(config: Kubeconfig, absolute: string -> Option<string>) returns (r: Kubeconfig)
    ensures r == Relocated(config, absolute)
  {
    var clusters := RewriteEntries(config.clusters, LocateCluster(absolute));
    var authInfos := RewriteEntries(config.authInfos, LocateAuthInfo(absolute));
    r := config.(clusters := clusters, authInfos := authInfos);
  }

  /**
    `read_from`: it starts from nothing and relocates each document, and yields what `from_yaml`
    yields on the same documents, with the same error, and with the paths made absolute.
   */
  method ReadFrom(file: File) returns (r: Result<Kubeconfig, Error>)
    ensures r == Relocating(MergeAll(file.documents), file.absolute)
    ensures r == MergeAll(RelocateAll(file.documents, file.absolute))
  {
    RelocatedMergeAll(file.documents, file.absolute);
    var merged: Option<Kubeconfig> := None;
    var i := 0;
    ghost var done: seq<Kubeconfig> := [];
    while i < |file.documents|
      invariant i <= |file.documents|
      invariant done == RelocateAll(file.documents[..i], file.absolute)
      invariant MergeAll(done) == Ok(if merged.Some? then merged.value else DEFAULT)
    {
      var config := Relocate(file.documents[i], file.absolute);
      RelocateOneMore(file.documents, file.absolute, i);
      MergeOneMore(done, config);
      done := done + [config];
      if merged.Some? {
        var m := Merge(merged.value, config);
        if m.Err? {
          RelocatedPrefix(file.documents, file.absolute, i + 1);
          MergeFailsEarly(RelocateAll(file.documents, file.absolute), i + 1);
          return m;
        }
        merged := Some(m.value);
      } else {
        DefaultIsIdentity(config);
        merged := Some(config);
      }
      i := i + 1;
    }
    assert file.documents[..i] == file.documents;
    r := Ok(if merged.Some? then merged.value else DEFAULT);
  }

  lemma MergeOneMore(docs: seq<Kubeconfig>, last: Kubeconfig)
    ensures MergeAll(docs + [last]) == Then(MergeAll(docs), Ok(last))
  {
    assert (docs + [last])[..|docs|] == docs;
  }

  lemma RelocateOneMore(docs: seq<Kubeconfig>, absolute: string -> Option<string>, i: nat)
    requires i < |docs|
    ensures RelocateAll(docs[..i + 1], absolute) == RelocateAll(docs[..i], absolute) + [Relocated(docs[i], absolute)]
  {
    assert docs[..i + 1][..i] == docs[..i];
  }

  lemma RelocatedPrefix(docs: seq<Kubeconfig>, absolute: string -> Option<string>, i: nat)
    requires i <= |docs|
    ensures |RelocateAll(docs, absolute)| == |docs|
    ensures RelocateAll(docs, absolute)[..i] == RelocateAll(docs[..i], absolute)
  {
    RelocateAllAt(docs, absolute);
    RelocateAllAt(docs[..i], absolute);
  }

  lemma {:induction false} RelocateAllAt(docs: seq<Kubeconfig>, absolute: string -> Option<string>)
    ensures |RelocateAll(docs, absolute)| == |docs|
    ensures forall i :: 0 <= i < |docs| ==> RelocateAll(docs, absolute)[i] == Relocated(docs[i], absolute)
  {
    if docs != [] {
      RelocateAllAt(docs[..|docs| - 1], absolute);
    }
  }

  // ---------- Reading the files of KUBECONFIG ----------

  function NonEmpty(paths: seq<string>): seq<string> {
    if paths == [] then []
    else NonEmpty(paths[..|paths| - 1]) + if paths[|paths| - 1] == "" then [] else [paths[|paths| - 1]]
  }

  lemma {:induction false} NonEmptyOfConcat(a: seq<string>, b: seq<string>)
    ensures NonEmpty(a + b) == NonEmpty(a) + NonEmpty(b)
  {
    if b == [] {
      assert a + b == a;
    } else {
      NonEmptyOfConcat(a, b[..|b| - 1]);
      assert (a + b)[..|a + b| - 1] == a + b[..|b| - 1];
    }
  }

  /** Empty names are ignored wherever they stand, and no others. */
  lemma EmptyNamesAreIgnored(a: seq<string>, b: seq<string>, path: string)
    ensures NonEmpty(a + [path] + b) == NonEmpty(a) + (if path == "" then [] else [path]) + NonEmpty(b)
  {
    NonEmptyOfConcat(a + [path], b);
    NonEmptyOfConcat(a, [path]);
    assert [path][..0] == [];
  }

  /** What reading one path yields. */
  function ReadPath(disk: map<string, File>, path: string): Result<Kubeconfig, Error> {
    if path !in disk then Err(ReadConfig(path)) else MergeAll(RelocateAll(disk[path].documents, disk[path].absolute))
  }

  function MergePaths(disk: map<string, File>, paths: seq<string>): Result<Kubeconfig, Error> {
    if paths == [] then Ok(DEFAULT)
    else Then(MergePaths(disk, paths[..|paths| - 1]), ReadPath(disk, paths[|paths| - 1]))
  }

  /** `from_env`, given the paths of the variable if it is set; `Ok(None)` when it names no file. */
  function FromEnv(disk: map<string, File>, variable: Option<seq<string>>): Result<Option<Kubeconfig>, Error> {
    if variable.None? || NonEmpty(variable.value) == [] then Ok(None)
    else
      match MergePaths(disk, NonEmpty(variable.value))
      case Err(e) => Err(e)
      case Ok(c) => Ok(Some(c))
  }

  /** Every document of every file, in order, with absolute paths. */
  function DocumentsOf(disk: map<string, File>, paths: seq<string>): seq<Kubeconfig>
    requires forall p :: p in paths ==> p in disk
  {
    if paths == [] then []
    else
      var file := disk[paths[|paths| - 1]];
      DocumentsOf(disk, paths[..|paths| - 1]) + RelocateAll(file.documents, file.absolute)
  }

  /**
    File boundaries do not matter: reading many files is merging all their documents as if they
    stood in one, and it fails exactly when a file is missing or that merge fails.
   */
  lemma {:induction false} FilesAreOneStream(disk: map<string, File>, paths: seq<string>)
    ensures if forall p :: p in paths ==> p in disk
            then Agree(MergePaths(disk, paths), MergeAll(DocumentsOf(disk, paths)))
            else MergePaths(disk, paths).Err?
  {
    if paths != [] {
      var n := |paths| - 1;
      FilesAreOneStream(disk, paths[..n]);
      assert paths == paths[..n] + [paths[n]];
      if forall p :: p in paths ==> p in disk {
        var file := disk[paths[n]];
        MergeAllOfConcat(DocumentsOf(disk, paths[..n]), RelocateAll(file.documents, file.absolute));
      }
    }
  }

  // ---------- Loading ----------

  datatype ConfigLoader = ConfigLoader(currentContext: Context, cluster: Cluster, user: AuthInfo)

  /** The first entry with a name. */
  function Find<T>(s: seq<Named<T>>, name: string): Option<Named<T>> {
    if s == [] then None else if s[0].name == name then Some(s[0]) else Find(s[1..], name)
  }

  function Value<T>(entry: Option<Named<T>>): Option<T> {
    if entry.None? then None else entry.value.value
  }

  function Load(config: Kubeconfig, context: Option<string>, cluster: Option<string>, user: Option<string>)
    : Result<ConfigLoader, Error>
  {
    var contextName := Or(context, config.currentContext);
    if contextName.None? then Err(CurrentContextNotSet)
    else
      var current := Value(Find(config.contexts, contextName.value));
      if current.None? then Err(LoadContext(contextName.value))
      else
        var clusterName := if cluster.Some? then cluster.value else current.value.cluster;
        var clusterInfo := Value(Find(config.clusters, clusterName));
        if clusterInfo.None? then Err(LoadClusterOfContext(clusterName))
        else
          var userName := if user.Some? then user.value else current.value.user;
          var userInfo := Value(Find(config.authInfos, userName));
          if userInfo.None? then Err(FindUser(userName))
          else Ok(ConfigLoader(current.value, clusterInfo.value, userInfo.value))
  }

  /** The first answer that some document gives. */
  function FirstAnswer<T>(docs: seq<Kubeconfig>, ask: Kubeconfig -> Option<T>): Option<T> {
    if docs == [] then None else Or(ask(docs[0]), FirstAnswer(docs[1..], ask))
  }

  function AskContext(name: string): Kubeconfig -> Option<Named<Context>> {
    (c: Kubeconfig) => Find(c.contexts, name)
  }

  function AskCluster(name: string): Kubeconfig -> Option<Named<Cluster>> {
    (c: Kubeconfig) => Find(c.clusters, name)
  }

  function AskUser(name: string): Kubeconfig -> Option<Named<AuthInfo>> {
    (c: Kubeconfig) => Find(c.authInfos, name)
  }

  function AskPreferences(): Kubeconfig -> Option<string> {
    (c: Kubeconfig) => c.preferences
  }

  function AskExtensions(): Kubeconfig -> Option<string> {
    (c: Kubeconfig) => c.extensions
  }

  function AskKind(): Kubeconfig -> Option<string> {
    (c: Kubeconfig) => c.kind
  }

  function AskApiVersion(): Kubeconfig -> Option<string> {
    (c: Kubeconfig) => c.apiVersion
  }

  function AskCurrent(): Kubeconfig -> Option<string> {
    (c: Kubeconfig) => c.currentContext
  }

  lemma {:induction false} FindInConcat<T>(a: seq<Named<T>>, b: seq<Named<T>>, name: string)
    ensures Find(a + b, name) == Or(Find(a, name), Find(b, name))
  {
    if a == [] {
      assert a + b == b;
    } else {
      FindInConcat(a[1..], b, name);
      assert (a + b)[1..] == a[1..] + b;
    }
  }

  lemma {:induction false} FindMeansNamed<T>(s: seq<Named<T>>, name: string)
    ensures Find(s, name).Some? <==> name in Names(s)
  {
    if s != [] {
      FindMeansNamed(s[1..], name);
      NamesOfConcat([s[0]], s[1..]);
      assert s == [s[0]] + s[1..];
    }
  }

  lemma {:induction false} FindInUnseen<T>(s: seq<Named<T>>, existing: set<string>, name: string)
    requires name !in existing
    ensures Find(Unseen(s, existing), name) == Find(s, name)
  {
    if s != [] {
      var n := |s| - 1;
      FindInUnseen(s[..n], existing, name);
      assert s == s[..n] + [s[n]];
      FindInConcat(s[..n], [s[n]], name);
      FindInConcat(Unseen(s[..n], existing), if s[n].name in existing then [] else [s[n]], name);
    }
  }

  /** Through lookup, appending is asking the base first. */
  lemma FindInAppended<T>(a: seq<Named<T>>, b: seq<Named<T>>, name: string)
    ensures Find(Appended(a, b), name) == Or(Find(a, name), Find(b, name))
  {
    FindInConcat(a, Unseen(b, Names(a)), name);
    FindMeansNamed(a, name);
    if name !in Names(a) {
      FindInUnseen(b, Names(a), name);
    }
  }

  lemma {:induction false} LastAnswer<T>(docs: seq<Kubeconfig>, last: Kubeconfig, ask: Kubeconfig -> Option<T>)
    ensures FirstAnswer(docs + [last], ask) == Or(FirstAnswer(docs, ask), ask(last))
  {
    if docs == [] {
      assert (docs + [last])[1..] == [];
    } else {
      LastAnswer(docs[1..], last, ask);
      assert (docs + [last])[1..] == docs[1..] + [last];
    }
  }

  /** Every lookup of the merged configuration is answered by the first document that can answer it. */
  lemma {:induction false} MergedLookups(docs: seq<Kubeconfig>, name: string)
    requires MergeAll(docs).Ok?
    ensures var m := MergeAll(docs).value;
            && Find(m.contexts, name) == FirstAnswer(docs, AskContext(name))
            && Find(m.clusters, name) == FirstAnswer(docs, AskCluster(name))
            && Find(m.authInfos, name) == FirstAnswer(docs, AskUser(name))
            && m.currentContext == FirstAnswer(docs, AskCurrent())
  {
    if docs != [] {
      var n := |docs| - 1;
      var before, last := docs[..n], docs[n];
      MergedLookups(before, name);
      assert docs == before + [last];
      var m := MergeAll(before).value;
      FindInAppended(m.contexts, last.contexts, name);
      FindInAppended(m.clusters, last.clusters, name);
      FindInAppended(m.authInfos, last.authInfos, name);
      LastAnswer(before, last, AskContext(name));
      LastAnswer(before, last, AskCluster(name));
      LastAnswer(before, last, AskUser(name));
      LastAnswer(before, last, AskCurrent());
    }
  }

  /** So are the fields that a document has once. */
  lemma {:induction false} MergedFields(docs: seq<Kubeconfig>)
    requires MergeAll(docs).Ok?
    ensures var m := MergeAll(docs).value;
            && m.preferences == FirstAnswer(docs, AskPreferences())
            && m.extensions == FirstAnswer(docs, AskExtensions())
            && m.kind == FirstAnswer(docs, AskKind())
            && m.apiVersion == FirstAnswer(docs, AskApiVersion())
  {
    if docs != [] {
      var n := |docs| - 1;
      var before, last := docs[..n], docs[n];
      MergedFields(before);
      assert docs == before + [last];
      LastAnswer(before, last, AskPreferences());
      LastAnswer(before, last, AskExtensions());
      LastAnswer(before, last, AskKind());
      LastAnswer(before, last, AskApiVersion());
    }
  }

  /** Loading straight from the documents: each name means the first entry of the first document defining it. */
  function LoadAcross(docs: seq<Kubeconfig>, context: Option<string>, cluster: Option<string>, user: Option<string>)
    : Result<ConfigLoader, Error>
  {
    var contextName := Or(context, FirstAnswer(docs, AskCurrent()));
    if contextName.None? then Err(CurrentContextNotSet)
    else
      match Value(FirstAnswer(docs, AskContext(contextName.value)))
      case None => Err(LoadContext(contextName.value))
      case Some(current) =>
        var clusterName := if cluster.Some? then cluster.value else current.cluster;
        match Value(FirstAnswer(docs, AskCluster(clusterName)))
        case None => Err(LoadClusterOfContext(clusterName))
        case Some(clusterInfo) =>
          var userName := if user.Some? then user.value else current.user;
          match Value(FirstAnswer(docs, AskUser(userName)))
          case None => Err(FindUser(userName))
          case Some(userInfo) => Ok(ConfigLoader(current, clusterInfo, userInfo))
  }

  lemma LoadFollowsLookups(
    m: Kubeconfig, docs: seq<Kubeconfig>, context: Option<string>, cluster: Option<string>, user: Option<string>)
    requires m.currentContext == FirstAnswer(docs, AskCurrent())
    requires forall name :: Find(m.contexts, name) == FirstAnswer(docs, AskContext(name))
    requires forall name :: Find(m.clusters, name) == FirstAnswer(docs, AskCluster(name))
    requires forall name :: Find(m.authInfos, name) == FirstAnswer(docs, AskUser(name))
    ensures Load(m, context, cluster, user) == LoadAcross(docs, context, cluster, user)
  {
  }

  /** Loading from the merged documents resolves every name in the first document that defines it. */
  lemma LoadResolvesInFirstDocument(
    docs: seq<Kubeconfig>, context: Option<string>, cluster: Option<string>, user: Option<string>)
    requires MergeAll(docs).Ok?
    ensures Load(MergeAll(docs).value, context, cluster, user) == LoadAcross(docs, context, cluster, user)
  {
    var m := MergeAll(docs).value;
    forall name
      ensures Find(m.contexts, name) == FirstAnswer(docs, AskContext(name))
      ensures Find(m.clusters, name) == FirstAnswer(docs, AskCluster(name))
      ensures Find(m.authInfos, name) == FirstAnswer(docs, AskUser(name))
      ensures m.currentContext == FirstAnswer(docs, AskCurrent())
    {
      MergedLookups(docs, name);
    }
    MergedLookups(docs, "");
    LoadFollowsLookups(m, docs, context, cluster, user);
  }

  /** From the variable to the loader: the files' documents in order decide, whatever the boundaries. */
  lemma LoadFromEnv(
    disk: map<string, File>, variable: seq<string>,
    context: Option<string>, cluster: Option<string>, user: Option<string>)
    requires FromEnv(disk, Some(variable)).Ok? && FromEnv(disk, Some(variable)).value.Some?
    ensures forall p :: p in NonEmpty(variable) ==> p in disk
    ensures Load(FromEnv(disk, Some(variable)).value.value, context, cluster, user)
         == LoadAcross(DocumentsOf(disk, NonEmpty(variable)), context, cluster, user)
  {
    FilesAreOneStream(disk, NonEmpty(variable));
    LoadResolvesInFirstDocument(DocumentsOf(disk, NonEmpty(variable)), context, cluster, user);
  }

  /** An entry without contents still shadows a later file's entry of the same name. */
  lemma EmptyEntryShadows(name: string, later: Kubeconfig, cluster: Option<string>, user: Option<string>)
    ensures var first := DEFAULT.(contexts := [Named(name, None)]);
            var m := Merged(first, later);
            m.Ok? && Load(m.value, Some(name), cluster, user) == Err(LoadContext(name))
  {
    var first := DEFAULT.(contexts := [Named(name, None)]);
    FindInAppended(first.contexts, later.contexts, name);
  }
}
