/** The module side of the registry protocol: the storage path whose entries
    are a module's versions, the version-list handler with its one-element
    `modules` wrapper, and the `X-Terraform-Get` answer to a download
    request. */
module Modules {
  import opened Wrappers
  import opened GoStrings
  import opened FilePath
  import opened Json
  import opened Http
  import opened Storage
  import opened Config
  import Versions

  /** Namespace, name, provider and version are ordinary path names. */
  predicate PlainModule(m: Module) {
    PlainSegment(m.namespace) && PlainSegment(m.name) && PlainSegment(m.provider) && PlainSegment(m.version)
  }

  // ---------------------------------------------------------------------
  // Version listing.

  /** The directory whose entries are the module's versions. */
  function ModulePath(params: CmdLineParams, namespace: string, name: string, provider: string): string {
    Join([params.mprefix] + [namespace, name, provider])
  }

  /** The directory is the prefix's names followed by namespace, name and provider. */
  lemma ModulePathShape(params: CmdLineParams, namespace: string, name: string, provider: string)
    requires NoParentRefs(params.mprefix)
    requires PlainSegment(namespace) && PlainSegment(name) && PlainSegment(provider)
    ensures ModulePath(params, namespace, name, provider)
         == Render(params.mprefix != "" && params.mprefix[0] == Separator, Names(params.mprefix) + [namespace, name, provider])
  {
    PrefixedJoin(params.mprefix, [namespace, name, provider]);
  }

  /** Different modules never share a version directory. */
  lemma ModulePathInjective(params: CmdLineParams, m1: Module, m2: Module)
    requires NoParentRefs(params.mprefix) && PlainModule(m1) && PlainModule(m2)
    requires ModulePath(params, m1.namespace, m1.name, m1.provider) == ModulePath(params, m2.namespace, m2.name, m2.provider)
    ensures m1.namespace == m2.namespace && m1.name == m2.name && m1.provider == m2.provider
  {
    PrefixedTripleInjective(params.mprefix, m1.namespace, m1.name, m1.provider, m2.namespace, m2.name, m2.provider);
  }

  /** `getModuleVersions`: the listing's entries as version records, wrapped
      as the single element of `modules`; or an empty response and the
      listing's error. */
  method GetModuleVersions(store: Store, modPath: string) returns (resp: ModuleVersionsResp, err: Option<string>)
    ensures store.readDir(modPath).Failure? ==>
      resp == ModuleVersionsResp([]) && err == Some(store.readDir(modPath).error)
    ensures store.readDir(modPath).Success? ==>
      && err == None
      && |resp.modules| == 1
      && Versions.Lists(resp.modules[0].versions, store.readDir(modPath).value)
      && Versions.AscendingVersions(resp.modules[0].versions)
  {
    match store.readDir(modPath)
    case Failure(e) =>
      resp, err := ModuleVersionsResp([]), Some(e);
    case Success(entries) =>
      var records := Versions.Collect(entries);
      Versions.ListsAscending(records, entries);
      resp, err := ModuleVersionsResp([ModuleVersions(records)]), None;
  }

  /** `httpGetModuleVersions`: a listing error becomes a 500 carrying the
      error text, also when the module does not exist; otherwise the JSON
      document holds one module listing every entry. */
  method HandleModuleVersions(params: CmdLineParams, store: Store, namespace: string, name: string, provider: string)
    returns (resp: Response)
    ensures var listing := store.readDir(ModulePath(params, namespace, name, provider));
      && (listing.Failure? ==> resp == Http.Error(listing.error, StatusInternalServerError))
      && (listing.Success? ==>
            && resp.status == StatusOK
            && resp.headers == map["Content-Type" := "application/json"]
            && resp.body.JsonBody?
            && DecodeModuleVersionsResp(resp.body.json).Some?
            && |DecodeModuleVersionsResp(resp.body.json).value.modules| == 1
            && Versions.Lists(DecodeModuleVersionsResp(resp.body.json).value.modules[0].versions, listing.value)
            && Versions.AscendingVersions(DecodeModuleVersionsResp(resp.body.json).value.modules[0].versions))
  {
    var modPath := ModulePath(params, namespace, name, provider);
    var modVers, err := GetModuleVersions(store, modPath);
    if err.Some? {
      resp := Http.Error(err.value, StatusInternalServerError);
      return;
    }
    ModuleVersionsRespRoundTrip(modVers);
    resp := JsonResponse(ModuleVersionsRespJson(modVers));
  }

  // ---------------------------------------------------------------------
  // The download answer.

  /** The archive's file name: the module name with ".tgz". */
  function ArchiveName(m: Module): string {
    m.name + ".tgz"
  }

  /** The `X-Terraform-Get` value: where the archive is downloaded from. */
  function ModuleDownloadHeader(m: Module): string {
    Join(["/download/modules", m.namespace, m.name, m.provider, m.version, ArchiveName(m)])
  }

  /** `httpGetModuleDownloadURL`: status 204, the one header, and no body. */
  function HandleModuleDownload(m: Module): (resp: Response)
    ensures resp.status == StatusNoContent
    ensures resp.headers.Keys == {"X-Terraform-Get"}
    ensures resp.body.NoBody?
    ensures PlainModule(m) ==> ParseModuleHeader(resp.headers["X-Terraform-Get"]) == Some(m)
  {
    var header := ModuleDownloadHeader(m);
    assert PlainModule(m) ==> ParseModuleHeader(header) == Some(m) by {
      if PlainModule(m) {
        ModuleHeaderRoundTrip(m);
      }
    }
    Response(StatusNoContent, map["X-Terraform-Get" := header], NoBody)
  }

  /** Reads the module back out of a download header: the pieces between
      separators must be "", "download", "modules", four names, and the
      name again with ".tgz". */
  function ParseModuleHeader(header: string): Option<Module> {
    var parts := SplitOn(header, Separator);
    if |parts| == 8 && parts[0] == "" && parts[1] == "download" && parts[2] == "modules"
       && parts[7] == parts[4] + ".tgz"
    then
      Some(Module(parts[3], parts[4], parts[5], parts[6]))
    else
      None
  }

  /** An archive name is a plain name whenever the module name is. */
  lemma ArchiveNamePlain(m: Module)
    requires PlainSegment(m.name)
    ensures PlainSegment(ArchiveName(m))
  {
    var a := ArchiveName(m);
    assert |a| >= 5;
    assert Separator !in a by {
      forall k | 0 <= k < |a| ensures a[k] != Separator {
        if k >= |m.name| {
          assert a[k] == ".tgz"[k - |m.name|];
        }
      }
    }
  }

  /** The route prefix of module archives, as a rooted path of two names. */
  lemma ModuleRoute()
    ensures "/download/modules" == [Separator] + "download" + [Separator] + "modules"
    ensures PlainSegment("download") && PlainSegment("modules")
  {
  }

  /** The header pieces, joined: "", "download", "modules", the four names
      and the archive name. */
  lemma ModuleHeaderPieces(m: Module)
    requires PlainModule(m)
    ensures ModuleDownloadHeader(m)
         == JoinOn(["", "download", "modules", m.namespace, m.name, m.provider, m.version, ArchiveName(m)], Separator)
  {
    var tail := [m.namespace, m.name, m.provider, m.version, ArchiveName(m)];
    assert PlainSegment(ArchiveName(m)) by { ArchiveNamePlain(m); }
    assert Segments(tail) == tail && AllNoParentRefs(tail) by { SegmentsOfPlain(tail); }
    ModuleHeaderElems(m);
    RootedPairJoin("download", "modules", tail);
  }

  /** The header's elements and pieces, spelled out. */
  lemma ModuleHeaderElems(m: Module)
    ensures ["/download/modules", m.namespace, m.name, m.provider, m.version, ArchiveName(m)]
         == [[Separator] + "download" + [Separator] + "modules"] + [m.namespace, m.name, m.provider, m.version, ArchiveName(m)]
    ensures [""] + (["download", "modules"] + [m.namespace, m.name, m.provider, m.version, ArchiveName(m)])
         == ["", "download", "modules", m.namespace, m.name, m.provider, m.version, ArchiveName(m)]
    ensures PlainSegment("download") && PlainSegment("modules")
  {
    ModuleRoute();
  }

  /** For plain names, the header is "/download/modules/" followed by the
      four names and the archive name, separated by '/'. */
  lemma ModuleHeaderShape(m: Module)
    requires PlainModule(m)
    ensures ModuleDownloadHeader(m)
         == "/download/modules/" + m.namespace + "/" + m.name + "/" + m.provider + "/" + m.version + "/" + m.name + ".tgz"
    ensures HasSuffix(ModuleDownloadHeader(m), "/" + m.name + ".tgz")
  {
    ModuleHeaderPieces(m);
    HeaderText(m.namespace, m.name, m.provider, m.version);
    var front := "/download/modules/" + m.namespace + "/" + m.name + "/" + m.provider + "/" + m.version;
    SuffixAfter(front, m.name);
  }

  lemma SuffixAfter(front: string, name: string)
    ensures HasSuffix(front + "/" + name + ".tgz", "/" + name + ".tgz")
  {
    assert (front + "/" + name + ".tgz")[|front|..] == "/" + name + ".tgz";
  }

  lemma HeaderText(namespace: string, name: string, provider: string, version: string)
    ensures JoinOn(["", "download", "modules", namespace, name, provider, version, name + ".tgz"], Separator)
         == "/download/modules/" + namespace + "/" + name + "/" + provider + "/" + version + "/" + name + ".tgz"
  {
    var tgz := name + ".tgz";
    var tail := [name, provider, version, tgz];
    JoinOnFour(name, provider, version, tgz, Separator);
    JoinOnCons(namespace, tail, Separator);
    RouteText([namespace] + tail);
    HeaderPieces(namespace, tail);
    HeaderAssoc("/download/modules/", namespace, name, provider, version, JoinOn(tail, Separator));
  }

  lemma HeaderPieces(namespace: string, tail: seq<string>)
    requires |tail| == 4
    ensures ["", "download", "modules", namespace, tail[0], tail[1], tail[2], tail[3]]
         == ["", "download", "modules"] + ([namespace] + tail)
  {
  }

  lemma HeaderAssoc(route: string, namespace: string, name: string, provider: string, version: string, rest: string)
    requires rest == name + [Separator] + provider + [Separator] + version + [Separator] + (name + ".tgz")
    ensures route + (namespace + [Separator] + rest)
         == route + namespace + "/" + name + "/" + provider + "/" + version + "/" + name + ".tgz"
  {
  }

  /** Three leading pieces "", "download" and "modules" put "/download/modules/" in front. */
  lemma RouteText(rest: seq<string>)
    requires |rest| >= 1
    ensures JoinOn(["", "download", "modules"] + rest, Separator) == "/download/modules/" + JoinOn(rest, Separator)
  {
    ThreePiecesText("", "download", "modules", rest);
    RouteSpelling();
  }

  lemma RouteSpelling()
    ensures "" + "/" + "download" + "/" + "modules" + "/" == "/download/modules/"
  {
  }

  /** The bucket key the archive route serves for the header: the header
      without "/download/", always under "modules/", whatever prefix the
      version directories are listed under. */
  lemma ModuleArchiveKey(m: Module)
    requires PlainModule(m)
    ensures StripPrefix(ModuleDownloadHeader(m), "/download/")
         == Some("modules/" + m.namespace + "/" + m.name + "/" + m.provider + "/" + m.version + "/" + m.name + ".tgz")
  {
    ModuleHeaderShape(m);
    assert "/download/modules/" == "/download/" + "modules/";
    ArchiveKeyText("/download/", "modules/", m.namespace, m.name, m.provider, m.version);
    StripDownload("modules/" + m.namespace + "/" + m.name + "/" + m.provider + "/" + m.version + "/" + m.name + ".tgz");
  }

  lemma ArchiveKeyText(front: string, back: string, namespace: string, name: string, provider: string, version: string)
    ensures front + back + namespace + "/" + name + "/" + provider + "/" + version + "/" + name + ".tgz"
         == front + (back + namespace + "/" + name + "/" + provider + "/" + version + "/" + name + ".tgz")
  {
  }

  lemma StripDownload(rest: string)
    ensures StripPrefix("/download/" + rest, "/download/") == Some(rest)
  {
    assert ("/download/" + rest)[|"/download/"|..] == rest;
  }

  /** The header names the module it was built for. */
  lemma ModuleHeaderRoundTrip(m: Module)
    requires PlainModule(m)
    ensures ParseModuleHeader(ModuleDownloadHeader(m)) == Some(m)
  {
    var parts := ["", "download", "modules", m.namespace, m.name, m.provider, m.version, ArchiveName(m)];
    ModuleHeaderPieces(m);
    assert PlainSegment(ArchiveName(m)) by { ArchiveNamePlain(m); }
    assert forall i :: 0 <= i < |parts| ==> Separator !in parts[i];
    SplitJoinOn(parts, Separator);
  }

  /** Different modules get different download headers. */
  lemma ModuleHeaderInjective(m1: Module, m2: Module)
    requires PlainModule(m1) && PlainModule(m2)
    requires ModuleDownloadHeader(m1) == ModuleDownloadHeader(m2)
    ensures m1 == m2
  {
    ModuleHeaderRoundTrip(m1);
    ModuleHeaderRoundTrip(m2);
  }
}
