/** The provider side of the registry protocol: the storage path whose
    entries are the versions, the version-list handler, and the download
    descriptor — filename, download and checksum URLs, the SHA-256 of the
    artifact, and the one signing key. */
module Providers {
  import opened Wrappers
  import opened GoStrings
  import opened Bytes
  import opened FilePath
  import opened Json
  import opened Http
  import opened Storage
  import opened Config
  import Versions

  /** Everything outside the handler: the bucket, the local file system
      holding the key file, and SHA-256 as an opaque function. */
  datatype Env = Env(store: Store, readLocal: string -> FileRead, sha256: seq<byte> -> Digest)

  /** Namespace, provider and version are ordinary path names. */
  predicate PlainProvider(p: Provider) {
    PlainSegment(p.namespace) && PlainSegment(p.provider) && PlainSegment(p.version)
  }

  // ---------------------------------------------------------------------
  // Version listing.

  /** The directory whose entries are the provider's versions. */
  function ProviderPath(params: CmdLineParams, namespace: string, provider: string): string {
    Join([params.pprefix] + [namespace, provider])
  }

  /** The directory is the prefix's names followed by namespace and provider. */
  lemma ProviderPathShape(params: CmdLineParams, namespace: string, provider: string)
    requires NoParentRefs(params.pprefix) && PlainSegment(namespace) && PlainSegment(provider)
    ensures ProviderPath(params, namespace, provider)
         == Render(params.pprefix != "" && params.pprefix[0] == Separator, Names(params.pprefix) + [namespace, provider])
  {
    PrefixedJoin(params.pprefix, [namespace, provider]);
  }

  /** Different providers never share a version directory. */
  lemma ProviderPathInjective(params: CmdLineParams, ns1: string, prov1: string, ns2: string, prov2: string)
    requires NoParentRefs(params.pprefix)
    requires PlainSegment(ns1) && PlainSegment(prov1) && PlainSegment(ns2) && PlainSegment(prov2)
    requires ProviderPath(params, ns1, prov1) == ProviderPath(params, ns2, prov2)
    ensures ns1 == ns2 && prov1 == prov2
  {
    PrefixedPairInjective(params.pprefix, ns1, prov1, ns2, prov2);
  }

  /** `getProviderVersions`: the listing's entries as version records, or
      an empty record and the listing's error. */
  method GetProviderVersions(store: Store, provPath: string) returns (p: ProviderVersions, err: Option<string>)
    ensures store.readDir(provPath).Failure? ==>
      p == ProviderVersions([]) && err == Some(store.readDir(provPath).error)
    ensures store.readDir(provPath).Success? ==>
      && err == None
      && Versions.Lists(p.versions, store.readDir(provPath).value)
      && Versions.AscendingVersions(p.versions)
  {
    match store.readDir(provPath)
    case Failure(e) =>
      p, err := ProviderVersions([]), Some(e);
    case Success(entries) =>
      var records := Versions.Collect(entries);
      Versions.ListsAscending(records, entries);
      p, err := ProviderVersions(records), None;
  }

  /** `httpGetProviderVersions`: a listing error becomes a 500 carrying the
      error text; otherwise the JSON document lists every entry. */
  method HandleProviderVersions(params: CmdLineParams, store: Store, namespace: string, provider: string)
    returns (resp: Response)
    ensures var listing := store.readDir(ProviderPath(params, namespace, provider));
      && (listing.Failure? ==> resp == Http.Error(listing.error, StatusInternalServerError))
      && (listing.Success? ==>
            && resp.status == StatusOK
            && resp.headers == map["Content-Type" := "application/json"]
            && resp.body.JsonBody?
            && DecodeProviderVersions(resp.body.json).Some?
            && Versions.Lists(DecodeProviderVersions(resp.body.json).value.versions, listing.value)
            && Versions.AscendingVersions(DecodeProviderVersions(resp.body.json).value.versions))
  {
    var provPath := ProviderPath(params, namespace, provider);
    var provVers, err := GetProviderVersions(store, provPath);
    if err.Some? {
      resp := Http.Error(err.value, StatusInternalServerError);
      return;
    }
    ProviderVersionsRoundTrip(provVers);
    resp := JsonResponse(ProviderVersionsJson(provVers));
  }

  // ---------------------------------------------------------------------
  // Names and URLs of the download descriptor.

  /** The artifact's file name. */
  function ProviderFilename(p: Provider): string {
    "terraform-provider-" + p.provider + "_" + p.version + "_" + p.os + "_" + p.arch + ".zip"
  }

  const FilenamePrefix: string := "terraform-provider-"
  const FilenameSuffix: string := ".zip"

  /** Reads provider, version, os and arch back out of an artifact file name. */
  function ParseProviderFilename(filename: string): Option<(string, string, string, string)> {
    if HasPrefix(filename, FilenamePrefix) && HasSuffix(filename, FilenameSuffix)
       && |filename| >= |FilenamePrefix| + |FilenameSuffix|
    then
      var fields := SplitOn(filename[|FilenamePrefix|..|filename| - |FilenameSuffix|], '_');
      if |fields| == 4 then Some((fields[0], fields[1], fields[2], fields[3])) else None
    else
      None
  }

  /** The file name encodes provider, version, os and arch, as long as none
      of them contains the '_' that separates them. */
  lemma ProviderFilenameRoundTrip(p: Provider)
    requires '_' !in p.provider && '_' !in p.version && '_' !in p.os && '_' !in p.arch
    ensures ParseProviderFilename(ProviderFilename(p)) == Some((p.provider, p.version, p.os, p.arch))
  {
    var fields := [p.provider, p.version, p.os, p.arch];
    var middle := p.provider + "_" + p.version + "_" + p.os + "_" + p.arch;
    JoinOnFour(p.provider, p.version, p.os, p.arch, '_');
    FilenameAssoc(FilenamePrefix, p.provider, p.version, p.os, p.arch, FilenameSuffix);
    MiddleOf(FilenamePrefix, middle, FilenameSuffix);
    SplitJoinOn(fields, '_');
  }

  lemma FilenameAssoc(pre: string, a: string, b: string, c: string, d: string, suf: string)
    ensures pre + a + "_" + b + "_" + c + "_" + d + suf == pre + (a + "_" + b + "_" + c + "_" + d) + suf
  {
  }

  lemma MiddleOf(pre: string, mid: string, suf: string)
    ensures |pre + mid + suf| >= |pre| + |suf|
    ensures HasPrefix(pre + mid + suf, pre) && HasSuffix(pre + mid + suf, suf)
    ensures (pre + mid + suf)[|pre|..|pre + mid + suf| - |suf|] == mid
  {
    assert (pre + mid + suf)[..|pre|] == pre;
    assert (pre + mid + suf)[|pre + mid + suf| - |suf|..] == suf;
  }

  /** `downloadPrefix`: the public directory of the artifact. */
  function DownloadPrefix(params: CmdLineParams, p: Provider): string {
    Join(["/download/", params.pprefix, "/", p.namespace, p.provider, p.version])
  }

  /** `signaturePrefix`: the directory of the checksum and signature files. */
  function SignaturePrefix(params: CmdLineParams, p: Provider): string {
    Join(["/", params.pprefix, "/", p.namespace, p.provider, p.version, "/signatures"])
  }

  function DownloadURL(params: CmdLineParams, p: Provider): string {
    DownloadPrefix(params, p) + "/" + ProviderFilename(p)
  }

  function ShasumsURL(params: CmdLineParams, p: Provider): string {
    SignaturePrefix(params, p) + "/SHA256SUMS"
  }

  function ShasumsSignatureURL(params: CmdLineParams, p: Provider): string {
    SignaturePrefix(params, p) + "/SHA256SUMS.sig"
  }

  /** The signature file sits beside the checksum list, with ".sig" added. */
  lemma SignatureURLExtendsShasums(params: CmdLineParams, p: Provider)
    ensures ShasumsSignatureURL(params, p) == ShasumsURL(params, p) + ".sig"
  {
    SigBeside(SignaturePrefix(params, p));
  }

  lemma SigBeside(dir: string)
    ensures dir + "/SHA256SUMS.sig" == dir + "/SHA256SUMS" + ".sig"
  {
  }

  /** Where the artifact lies in the bucket: the provider prefix's names,
      namespace, provider, version, and the file name. */
  function ArtifactPath(params: CmdLineParams, p: Provider): string {
    JoinOn(Names(params.pprefix) + [p.namespace, p.provider, p.version] + [ProviderFilename(p)], Separator)
  }

  lemma ArtifactPathStart(params: CmdLineParams, p: Provider)
    requires PlainProvider(p)
    ensures ArtifactPath(params, p) != ""
    ensures Names(params.pprefix) == [] ==> ArtifactPath(params, p)[0] == p.namespace[0]
    ensures Names(params.pprefix) != [] ==> ArtifactPath(params, p)[0] == Names(params.pprefix)[0][0]
  {
    var parts := Names(params.pprefix) + [p.namespace, p.provider, p.version] + [ProviderFilename(p)];
    FirstCharOfJoinOn(parts);
  }

  /** The route prefix of artifact downloads, as a rooted directory. */
  lemma DownloadRoute()
    ensures "/download/" == [Separator] + "download" + [Separator]
    ensures PlainSegment("download")
  {
  }

  /** The download URL is "/download/" followed by the artifact's place in
      the bucket, and it ends with "/" and the file name. */
  lemma DownloadURLShape(params: CmdLineParams, p: Provider)
    requires NoParentRefs(params.pprefix) && PlainProvider(p)
    ensures DownloadURL(params, p) == "/download/" + ArtifactPath(params, p)
    ensures HasPrefix(DownloadURL(params, p), "/download/")
    ensures HasSuffix(DownloadURL(params, p), "/" + ProviderFilename(p))
  {
    var tail := [p.namespace, p.provider, p.version];
    assert ["/download/", params.pprefix, "/", p.namespace, p.provider, p.version]
        == [[Separator] + "download" + [Separator], params.pprefix, [Separator]] + tail by { DownloadRoute(); }
    DownloadRoute();
    DirPrefixJoin("download", params.pprefix, tail, ProviderFilename(p));
    SuffixOfJoin(DownloadPrefix(params, p), ProviderFilename(p));
  }

  /** A path followed by "/" and a name ends with "/" and that name. */
  lemma SuffixOfJoin(dir: string, name: string)
    ensures HasSuffix(dir + "/" + name, "/" + name)
  {
    assert (dir + "/" + name)[|dir|..] == "/" + name;
  }

  /** The checksum list URL: "/", the prefix's names, namespace, provider,
      version, "signatures" and "SHA256SUMS". */
  lemma ShasumsURLShape(params: CmdLineParams, p: Provider)
    requires NoParentRefs(params.pprefix) && PlainProvider(p)
    ensures ShasumsURL(params, p)
         == "/" + JoinOn(Names(params.pprefix) + [p.namespace, p.provider, p.version] + ["signatures", "SHA256SUMS"], Separator)
  {
    var tail := [p.namespace, p.provider, p.version];
    SignatureElems(params.pprefix, tail);
    RootPrefixJoin(params.pprefix, tail, "signatures", "SHA256SUMS");
    ChecksumFileUnder(SignaturePrefix(params, p));
  }

  lemma SignatureElems(pprefix: string, tail: seq<string>)
    requires |tail| == 3
    ensures ["/", pprefix, "/", tail[0], tail[1], tail[2], "/signatures"]
         == [[Separator], pprefix, [Separator]] + tail + [[Separator] + "signatures"]
    ensures PlainSegment("signatures")
  {
    assert "/signatures" == [Separator] + "signatures";
    assert tail == [tail[0], tail[1], tail[2]];
  }

  lemma ChecksumFileUnder(dir: string)
    ensures dir + "/SHA256SUMS" == dir + [Separator] + "SHA256SUMS"
  {
  }

  /** With the prefix "providers", the checksum URL lies under the provider
      base path, where the signature route serves it. */
  lemma ShasumsURLUnderBasePath(params: CmdLineParams, p: Provider)
    requires params.pprefix == "providers" && PlainProvider(p)
    ensures ShasumsURL(params, p)
         == ProviderBasePath + "/" + p.namespace + "/" + p.provider + "/" + p.version + "/signatures/SHA256SUMS"
  {
    assert Names("providers") == ["providers"] && NoParentRefs("providers") by { PlainNames("providers"); }
    ShasumsURLShape(params, p);
    ChecksumPathText(p.namespace, p.provider, p.version);
  }

  lemma ChecksumPathText(namespace: string, provider: string, version: string)
    ensures "/" + JoinOn(["providers"] + [namespace, provider, version] + ["signatures", "SHA256SUMS"], Separator)
         == ProviderBasePath + "/" + namespace + "/" + provider + "/" + version + "/signatures/SHA256SUMS"
  {
    var rest := [version, "signatures", "SHA256SUMS"];
    assert ["providers"] + [namespace, provider, version] + ["signatures", "SHA256SUMS"]
        == ["providers", namespace, provider] + rest;
    ThreePiecesText("providers", namespace, provider, rest);
    JoinOnThree(version, "signatures", "SHA256SUMS");
    ChecksumSpelling();
    Glue("/", "providers", namespace, provider, version, "signatures", "SHA256SUMS",
      ProviderBasePath, "/signatures/SHA256SUMS");
  }

  lemma ChecksumSpelling()
    ensures "/" + "providers" == ProviderBasePath
    ensures "/" + "signatures" + "/" + "SHA256SUMS" == "/signatures/SHA256SUMS"
  {
  }

  lemma Glue(root: string, base: string, ns: string, prov: string, ver: string, sig: string, sums: string,
             baseText: string, tailText: string)
    requires baseText == root + base
    requires tailText == "/" + sig + "/" + sums
    ensures root + (base + "/" + ns + "/" + prov + "/" + (ver + "/" + sig + "/" + sums))
         == baseText + "/" + ns + "/" + prov + "/" + ver + tailText
  {
  }

  /** What chi matches against the route of checksum and signature files,
      the base path followed by namespace, provider and version parameters,
      "signatures" and a wildcard: an empty piece before the leading '/', the base path's name, three
      non-empty names, "signatures", and anything after it. */
  predicate SignatureRouteMatches(urlPath: string) {
    SignatureRoutePieces(SplitOn(urlPath, Separator))
  }

  predicate SignatureRoutePieces(parts: seq<string>) {
    && |parts| >= 7
    && parts[0] == ""
    && [Separator] + parts[1] == ProviderBasePath
    && parts[2] != "" && parts[3] != "" && parts[4] != ""
    && parts[5] == "signatures"
  }

  /** The checksum URL reaches the signature route only when the provider
      prefix's first name is "providers", and it always does when that is
      the prefix's only name: the route ignores the prefix. */
  lemma ShasumsURLRouting(params: CmdLineParams, p: Provider)
    requires NoParentRefs(params.pprefix) && PlainProvider(p)
    ensures SignatureRouteMatches(ShasumsURL(params, p))
        ==> |Names(params.pprefix)| >= 1 && Names(params.pprefix)[0] == "providers"
    ensures Names(params.pprefix) == ["providers"] ==> SignatureRouteMatches(ShasumsURL(params, p))
  {
    var url := ShasumsURL(params, p);
    var names := Names(params.pprefix);
    var list := names + [p.namespace, p.provider, p.version] + ["signatures", "SHA256SUMS"];
    assert SplitOn(url, Separator) == [""] + list by {
      ShasumsURLShape(params, p);
      NamesWithoutSeparator(params.pprefix);
      RootedListSplits(names, p.namespace, p.provider, p.version, list);
    }
    PiecesRouted(names, [p.namespace, p.provider, p.version], [""] + list);
  }

  /** The pieces of a checksum URL match the route exactly as the prefix's
      names allow. */
  lemma PiecesRouted(names: seq<string>, tail: seq<string>, parts: seq<string>)
    requires |tail| == 3 && forall i :: 0 <= i < 3 ==> PlainSegment(tail[i])
    requires parts == [""] + (names + tail + ["signatures", "SHA256SUMS"])
    ensures SignatureRoutePieces(parts) ==> |names| >= 1 && names[0] == "providers"
    ensures names == ["providers"] ==> SignatureRoutePieces(parts)
  {
    ProviderBaseName();
    if |names| == 0 {
      assert |parts| == 6;
    } else {
      assert parts[1] == names[0];
    }
    if names == ["providers"] {
      assert parts == ["", "providers", tail[0], tail[1], tail[2], "signatures", "SHA256SUMS"];
    }
  }

  lemma ProviderBaseName()
    ensures [Separator] + "providers" == ProviderBasePath
    ensures forall n :: [Separator] + n == ProviderBasePath ==> n == "providers"
  {
    forall n | [Separator] + n == ProviderBasePath ensures n == "providers" {
      assert n == ([Separator] + n)[1..];
    }
  }

  /** Splitting "/" and a joined list of separator-free names gives back an
      empty piece and the list. */
  lemma RootedListSplits(names: seq<string>, namespace: string, provider: string, version: string, list: seq<string>)
    requires forall i :: 0 <= i < |names| ==> Separator !in names[i]
    requires PlainSegment(namespace) && PlainSegment(provider) && PlainSegment(version)
    requires list == names + [namespace, provider, version] + ["signatures", "SHA256SUMS"]
    ensures SplitOn("/" + JoinOn(list, Separator), Separator) == [""] + list
  {
    JoinOnCons("", list, Separator);
    assert forall i :: 0 <= i < |[""] + list| ==> Separator !in ([""] + list)[i];
    SplitJoinOn([""] + list, Separator);
  }

  // ---------------------------------------------------------------------
  // The checksum and the key.

  /** The characters `strings.Trim` removes from the download URL. */
  const ShasumCutset: string := "downla/"

  /** The object hashed for `shasum`, as written: the download URL with
      every leading and trailing cutset character trimmed. */
  function ShasumKey(downloadPath: string): string {
    Trim(downloadPath, ShasumCutset)
  }

  /** The object the artifact route serves for a URL path: the path with its
      "/download/" prefix stripped, or nothing when it lacks that prefix. */
  function ServedArtifactKey(urlPath: string): Option<string> {
    StripPrefix(urlPath, "/download/")
  }

  /** The key the checksum should use: the object served at the URL. */
  function CorrectedShasumKey(downloadPath: string): (key: string)
    ensures ServedArtifactKey(downloadPath).Some? ==> key == ServedArtifactKey(downloadPath).value
    ensures ServedArtifactKey(downloadPath).Some? ==> "/download/" + key == downloadPath
  {
    match ServedArtifactKey(downloadPath)
    case Some(key) => key
    case None => downloadPath
  }

  /** Opening, reading and hashing one object. A failed open leaves a nil
      file, and copying from it panics; a failed read ends the process
      through `log.Fatal`; otherwise the digest is written as hex. */
  function HashObject(env: Env, key: string): (r: Run<string>)
    ensures env.store.open(key).OpenFailed? <==> r.Panics?
    ensures env.store.open(key).ReadFailed? <==> r.Exits?
    ensures env.store.open(key).Contents? ==>
      && r.Returns?
      && |r.value| == 64
      && IsLowerHex(r.value)
      && HexDecode(r.value) == Some(env.sha256(env.store.open(key).bytes))
  {
    match env.store.open(key)
    case OpenFailed(_) => Panics("invalid memory address or nil pointer dereference")
    case ReadFailed(_, message) => Exits(message)
    case Contents(bytes) =>
      var digest := env.sha256(bytes);
      HexRoundTrip(digest);
      Returns(HexEncode(digest))
  }

  /** `getSHASUM` as written: it hashes the trimmed key. */
  function GetShasumAsWritten(env: Env, downloadPath: string): Run<string> {
    HashObject(env, ShasumKey(downloadPath))
  }

  /** `getSHASUM` with the corrected key: it hashes the object the download
      route serves for the URL. The descriptor uses this one. */
  function GetShasum(env: Env, downloadPath: string): Run<string> {
    HashObject(env, CorrectedShasumKey(downloadPath))
  }

  /** `getGPGkey`: the whole key file as a string. Printing `content[0:10]`
      panics only when the capacity is below 10, which happens only for the
      nil slice of a file that could not be opened; a read error still
      yields the bytes read before it. */
  function GetGpgKey(read: FileRead): (r: Run<string>)
    ensures r.Panics? <==> read.OpenFailed?
    ensures !r.Exits?
    ensures read.Contents? ==> r.Returns? && StringToBytes(r.value) == Some(read.bytes)
    ensures read.ReadFailed? ==> r.Returns? && StringToBytes(r.value) == Some(read.partial)
  {
    var content := OsReadFile(read);
    if content.capacity < 10 then
      Panics("slice bounds out of range [:10] with capacity 0")
    else
      BytesToStringRoundTrip(content.data);
      Returns(BytesToString(content.data))
  }

  /** The one key id the descriptor lists. */
  const KeyId: string := "terraform-registry"

  // ---------------------------------------------------------------------
  // The descriptor.

  /** `httpGetProviderDownloadURL` up to the JSON encoding: the checksum is
      computed first and the key read second; either may end the request.
      The checksum is taken of the corrected key (see `CorrectedShasumKey`). */
  function DescribeDownload(params: CmdLineParams, env: Env, p: Provider): (r: Run<ProviderResp>)
    ensures env.store.open(CorrectedShasumKey(DownloadURL(params, p))).OpenFailed? ==> r.Panics?
    ensures env.store.open(CorrectedShasumKey(DownloadURL(params, p))).ReadFailed? ==> r.Exits?
    ensures env.store.open(CorrectedShasumKey(DownloadURL(params, p))).Contents? ==>
      env.readLocal(params.gpgKey).OpenFailed? ==> r.Panics?
    ensures r.Returns? <==>
      env.store.open(CorrectedShasumKey(DownloadURL(params, p))).Contents? && !env.readLocal(params.gpgKey).OpenFailed?
    ensures r.Returns? ==>
      && r.value.filename == ProviderFilename(p)
      && r.value.os == p.os && r.value.arch == p.arch
      && r.value.downloadURL == DownloadURL(params, p)
      && HasSuffix(r.value.downloadURL, "/" + r.value.filename)
      && r.value.shasumsURL == ShasumsURL(params, p)
      && r.value.shasumsSignatureURL == r.value.shasumsURL + ".sig"
    ensures r.Returns? ==>
      && |r.value.shasum| == 64 && IsLowerHex(r.value.shasum)
      && HexDecode(r.value.shasum) == Some(env.sha256(env.store.open(CorrectedShasumKey(DownloadURL(params, p))).bytes))
    ensures r.Returns? ==>
      && |r.value.signingKeys| == 1
      && r.value.signingKeys[0].keyId == KeyId
      && StringToBytes(r.value.signingKeys[0].asciiArmor) == Some(Delivered(env.readLocal(params.gpgKey)))
  {
    var filename := ProviderFilename(p);
    var downloadURL := DownloadURL(params, p);
    var shasum :- GetShasum(env, downloadURL);
    var armor :- GetGpgKey(env.readLocal(params.gpgKey));
    SignatureURLExtendsShasums(params, p);
    SuffixOfJoin(DownloadPrefix(params, p), filename);
    Returns(ProviderResp(
      downloadURL,
      shasum,
      p.os,
      p.arch,
      filename,
      ShasumsURL(params, p),
      ShasumsSignatureURL(params, p),
      [GpgPublicKey(KeyId, armor)]))
  }

  /** The handler: a descriptor is answered as a JSON document that reads
      back as that descriptor; a panic or an exit ends the request. */
  function HandleProviderDownload(params: CmdLineParams, env: Env, p: Provider): (r: Run<Response>)
    ensures r.Returns? <==> DescribeDownload(params, env, p).Returns?
    ensures r.Panics? <==> DescribeDownload(params, env, p).Panics?
    ensures r.Returns? ==>
      && r.value.status == StatusOK
      && r.value.headers == map["Content-Type" := "application/json"]
      && r.value.body.JsonBody?
      && DecodeProviderResp(r.value.body.json) == Some(DescribeDownload(params, env, p).value)
  {
    var descriptor :- DescribeDownload(params, env, p);
    ProviderRespRoundTrip(descriptor);
    Returns(JsonResponse(ProviderRespJson(descriptor)))
  }

  // ---------------------------------------------------------------------
  // Which object the checksum covers.

  lemma TrimLeavesZipEnd(s: string)
    requires HasSuffix(s, FilenameSuffix)
    ensures TrimRight(s, ShasumCutset) == s
  {
    assert s[|s| - 1] == 'p';
  }

  /** "/download/" is made only of cutset characters. */
  lemma DownloadRouteInCutset()
    ensures forall k :: 0 <= k < |"/download/"| ==> "/download/"[k] in ShasumCutset
  {
  }

  /** As written, the hashed key is the artifact path with its leading
      cutset characters removed as well. */
  lemma ShasumKeyAsWritten(params: CmdLineParams, p: Provider)
    requires NoParentRefs(params.pprefix) && PlainProvider(p)
    ensures ShasumKey(DownloadURL(params, p)) == TrimLeft(ArtifactPath(params, p), ShasumCutset)
  {
    var url := DownloadURL(params, p);
    var path := ArtifactPath(params, p);
    assert url == "/download/" + path && HasSuffix(url, "/" + ProviderFilename(p)) by {
      DownloadURLShape(params, p);
    }
    ZipEnd(url, "/" + ProviderFilename(p));
    TrimmedRouteKey(url, path);
  }

  /** A string ending in a name that ends in ".zip" ends in ".zip". */
  lemma ZipEnd(url: string, name: string)
    requires HasSuffix(url, name) && HasSuffix(name, FilenameSuffix)
    ensures HasSuffix(url, FilenameSuffix)
  {
    assert url[|url| - 4..] == name[|name| - 4..];
  }

  /** Trimming a "/download/" URL that ends in ".zip" trims only the
      path's leading cutset characters. */
  lemma TrimmedRouteKey(url: string, path: string)
    requires url == "/download/" + path && HasSuffix(url, FilenameSuffix)
    ensures ShasumKey(url) == TrimLeft(path, ShasumCutset)
  {
    TrimLeavesZipEnd(url);
    DownloadRouteInCutset();
    TrimLeftSkips("/download/", path, ShasumCutset);
  }

  /** The checksum covers the served artifact exactly when the artifact path
      does not begin with one of the characters d, o, w, n, l, a or '/'. */
  lemma ShasumKeyMatchesServedIff(params: CmdLineParams, p: Provider)
    requires NoParentRefs(params.pprefix) && PlainProvider(p)
    ensures ServedArtifactKey(DownloadURL(params, p)) == Some(ArtifactPath(params, p))
    ensures ShasumKey(DownloadURL(params, p)) == ArtifactPath(params, p)
        <==> ArtifactPath(params, p)[0] !in ShasumCutset
  {
    DownloadURLShape(params, p);
    ShasumKeyAsWritten(params, p);
    ArtifactPathStart(params, p);
    assert ("/download/" + ArtifactPath(params, p))[|"/download/"|..] == ArtifactPath(params, p);
  }

  /** The corrected key always names the served artifact. */
  lemma CorrectedShasumKeyLocatesArtifact(params: CmdLineParams, p: Provider)
    requires NoParentRefs(params.pprefix) && PlainProvider(p)
    ensures CorrectedShasumKey(DownloadURL(params, p)) == ArtifactPath(params, p)
  {
    ShasumKeyMatchesServedIff(params, p);
  }

  /** A descriptor's checksum is the digest of the artifact the download URL
      serves, and it is only given when that artifact could be read. */
  lemma DescriptorShasumCoversArtifact(params: CmdLineParams, env: Env, p: Provider)
    requires NoParentRefs(params.pprefix) && PlainProvider(p)
    requires DescribeDownload(params, env, p).Returns?
    ensures env.store.open(ArtifactPath(params, p)).Contents?
    ensures HexDecode(DescribeDownload(params, env, p).value.shasum)
         == Some(env.sha256(env.store.open(ArtifactPath(params, p)).bytes))
  {
    CorrectedShasumKeyLocatesArtifact(params, p);
  }

  /** Without prefix names, the artifact path starts with the namespace and a separator. */
  lemma UnprefixedArtifactPath(params: CmdLineParams, p: Provider)
    requires Names(params.pprefix) == []
    ensures ArtifactPath(params, p)
         == p.namespace + "/" + JoinOn([p.provider, p.version, ProviderFilename(p)], Separator)
  {
    var rest := [p.provider, p.version, ProviderFilename(p)];
    assert Names(params.pprefix) + [p.namespace, p.provider, p.version] + [ProviderFilename(p)] == [p.namespace] + rest;
    JoinOnCons(p.namespace, rest, Separator);
  }

  /** With an empty provider prefix, a namespace such as "acme" loses its
      leading "a": the checksum is taken of an object other than the one the
      download route serves. */
  lemma ShasumKeyLosesNamespaceLetter(params: CmdLineParams, p: Provider)
    requires params.pprefix == "" && p.namespace == "acme"
    requires PlainSegment(p.provider) && PlainSegment(p.version)
    ensures ArtifactPath(params, p)[..5] == "acme/"
    ensures ServedArtifactKey(DownloadURL(params, p)) == Some(ArtifactPath(params, p))
    ensures ShasumKey(DownloadURL(params, p)) == ArtifactPath(params, p)[1..]
  {
    assert Names("") == [] by {
      assert Parts("") == [""];
      KeepOne("");
    }
    UnprefixedArtifactPath(params, p);
    var path := ArtifactPath(params, p);
    assert path[..5] == "acme/" && path[0] == 'a' && path[1] == 'c';
    assert NoParentRefs("") && PlainProvider(p);
    ShasumKeyAsWritten(params, p);
    ShasumKeyMatchesServedIff(params, p);
    assert path[0] in ShasumCutset && path[1] !in ShasumCutset by { CutsetLetters(); }
    LeadingCutsetChar(path, ShasumCutset);
  }

  /** `getSHASUM` as written hashes the artifact path with its leading
      cutset characters removed; the corrected one hashes the artifact path. */
  lemma ShasumAsWrittenHashes(params: CmdLineParams, env: Env, p: Provider)
    requires NoParentRefs(params.pprefix) && PlainProvider(p)
    ensures GetShasumAsWritten(env, DownloadURL(params, p))
         == HashObject(env, TrimLeft(ArtifactPath(params, p), ShasumCutset))
    ensures GetShasum(env, DownloadURL(params, p)) == HashObject(env, ArtifactPath(params, p))
  {
    ShasumKeyAsWritten(params, p);
    CorrectedShasumKeyLocatesArtifact(params, p);
  }

  /** With an empty provider prefix and namespace "acme", `getSHASUM` as
      written opens the artifact path without its first letter: where only
      the served artifact exists it panics, and the corrected one returns
      that artifact's checksum. */
  lemma AsWrittenPanicsOnServedArtifact(params: CmdLineParams, env: Env, p: Provider)
    requires params.pprefix == "" && p.namespace == "acme"
    requires PlainSegment(p.provider) && PlainSegment(p.version)
    ensures GetShasumAsWritten(env, DownloadURL(params, p)) == HashObject(env, ArtifactPath(params, p)[1..])
    ensures GetShasum(env, DownloadURL(params, p)) == HashObject(env, ArtifactPath(params, p))
    ensures env.store.open(ArtifactPath(params, p)[1..]).OpenFailed? && env.store.open(ArtifactPath(params, p)).Contents?
        ==> GetShasumAsWritten(env, DownloadURL(params, p)).Panics? && GetShasum(env, DownloadURL(params, p)).Returns?
  {
    ShasumKeyLosesNamespaceLetter(params, p);
  }

  lemma CutsetLetters()
    ensures 'a' in ShasumCutset && 'c' !in ShasumCutset
  {
  }
}
