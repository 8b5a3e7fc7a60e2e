/** The registry's fixed base paths, the identity records built from request
    parameters, the response records, and how each response record is
    written as JSON (key names and nesting) and read back. */
module Config {
  import opened Wrappers
  import opened Json

  const ProviderBasePath: string := "/providers"
  const ModuleBasePath: string := "/modules"

  /** The service-discovery document. */
  datatype ServiceDiscoveryResp = ServiceDiscoveryResp(providersV1: string, modulesV1: string)

  /** One `map[string]string` per version; an empty sequence stands for Go's nil slice. */
  datatype ProviderVersions = ProviderVersions(versions: seq<map<string, string>>)

  /** The request parameters that name one provider artifact. */
  datatype Provider = Provider(namespace: string, provider: string, version: string, os: string, arch: string)

  /** One entry of `signing_keys.gpg_public_keys`. */
  datatype GpgPublicKey = GpgPublicKey(keyId: string, asciiArmor: string)

  /** The provider download descriptor. Go keeps `signing_keys` as a
      `map[string]any`; the handler always fills it as
      `{"gpg_public_keys": [...]}`, so the model keeps just the key list. */
  datatype ProviderResp = ProviderResp(
    downloadURL: string,
    shasum: string,
    os: string,
    arch: string,
    filename: string,
    shasumsURL: string,
    shasumsSignatureURL: string,
    signingKeys: seq<GpgPublicKey>)

  datatype ModuleVersions = ModuleVersions(versions: seq<map<string, string>>)

  datatype ModuleVersionsResp = ModuleVersionsResp(modules: seq<ModuleVersions>)

  /** The request parameters that name one module; no os or arch. */
  datatype Module = Module(namespace: string, name: string, provider: string, version: string)

  /** The command-line parameters the core reads: the provider and module
      path prefixes inside the bucket and the public key file. */
  datatype CmdLineParams = CmdLineParams(pprefix: string, mprefix: string, gpgKey: string)

  // ---------------------------------------------------------------------
  // JSON key names.

  const ProviderRespKeys: set<string> := {
    "download_url", "shasum", "os", "arch", "filename",
    "shasums_url", "shasums_signature_url", "signing_keys"
  }

  function DiscoveryJson(d: ServiceDiscoveryResp): (j: Json)
    ensures j.Obj? && j.fields.Keys == {"providers.v1", "modules.v1"}
  {
    Obj(map["providers.v1" := Str(d.providersV1), "modules.v1" := Str(d.modulesV1)])
  }

  function DecodeDiscovery(j: Json): Option<ServiceDiscoveryResp> {
    var providers :- StrField(j, "providers.v1");
    var modules :- StrField(j, "modules.v1");
    Some(ServiceDiscoveryResp(providers, modules))
  }

  /** `{"versions": [...]}`, with `null` for an empty list. */
  function VersionsJson(versions: seq<map<string, string>>): (j: Json)
    ensures j.Obj? && j.fields.Keys == {"versions"}
  {
    Obj(map["versions" := ListJson(versions, StringMapJson)])
  }

  function DecodeVersions(j: Json): Option<seq<map<string, string>>> {
    if j.Obj? && "versions" in j.fields then DecodeList(j.fields["versions"], DecodeStringMap) else None
  }

  function ProviderVersionsJson(p: ProviderVersions): Json {
    VersionsJson(p.versions)
  }

  function DecodeProviderVersions(j: Json): Option<ProviderVersions> {
    var versions :- DecodeVersions(j);
    Some(ProviderVersions(versions))
  }

  function ModuleVersionsJson(m: ModuleVersions): Json {
    VersionsJson(m.versions)
  }

  function DecodeModuleVersions(j: Json): Option<ModuleVersions> {
    var versions :- DecodeVersions(j);
    Some(ModuleVersions(versions))
  }

  /** `{"modules": [{"versions": [...]}, ...]}`. */
  function ModuleVersionsRespJson(r: ModuleVersionsResp): (j: Json)
    ensures j.Obj? && j.fields.Keys == {"modules"}
  {
    Obj(map["modules" := ListJson(r.modules, ModuleVersionsJson)])
  }

  function DecodeModuleVersionsResp(j: Json): Option<ModuleVersionsResp> {
    if j.Obj? && "modules" in j.fields then
      var modules :- DecodeList(j.fields["modules"], DecodeModuleVersions);
      Some(ModuleVersionsResp(modules))
    else
      None
  }

  function GpgPublicKeyJson(k: GpgPublicKey): Json {
    Obj(map["key_id" := Str(k.keyId), "ascii_armor" := Str(k.asciiArmor)])
  }

  function DecodeGpgPublicKey(j: Json): Option<GpgPublicKey> {
    var keyId :- StrField(j, "key_id");
    var armor :- StrField(j, "ascii_armor");
    Some(GpgPublicKey(keyId, armor))
  }

  function SigningKeysJson(keys: seq<GpgPublicKey>): Json {
    Obj(map["gpg_public_keys" := ListJson(keys, GpgPublicKeyJson)])
  }

  function DecodeSigningKeys(j: Json): Option<seq<GpgPublicKey>> {
    if j.Obj? && "gpg_public_keys" in j.fields then
      DecodeList(j.fields["gpg_public_keys"], DecodeGpgPublicKey)
    else
      None
  }

  /** The descriptor object: exactly the eight protocol keys. */
  function ProviderRespJson(r: ProviderResp): (j: Json)
    ensures j.Obj? && j.fields.Keys == ProviderRespKeys
  {
    Obj(map[
      "download_url" := Str(r.downloadURL),
      "shasum" := Str(r.shasum),
      "os" := Str(r.os),
      "arch" := Str(r.arch),
      "filename" := Str(r.filename),
      "shasums_url" := Str(r.shasumsURL),
      "shasums_signature_url" := Str(r.shasumsSignatureURL),
      "signing_keys" := SigningKeysJson(r.signingKeys)])
  }

  function DecodeProviderResp(j: Json): Option<ProviderResp> {
    var downloadURL :- StrField(j, "download_url");
    var shasum :- StrField(j, "shasum");
    var os :- StrField(j, "os");
    var arch :- StrField(j, "arch");
    var filename :- StrField(j, "filename");
    var shasumsURL :- StrField(j, "shasums_url");
    var signatureURL :- StrField(j, "shasums_signature_url");
    var keys :- if j.Obj? && "signing_keys" in j.fields then DecodeSigningKeys(j.fields["signing_keys"]) else None;
    Some(ProviderResp(downloadURL, shasum, os, arch, filename, shasumsURL, signatureURL, keys))
  }

  // ---------------------------------------------------------------------
  // Every response record is recovered from its JSON.

  lemma DiscoveryRoundTrip(d: ServiceDiscoveryResp)
    ensures DecodeDiscovery(DiscoveryJson(d)) == Some(d)
  {
  }

  lemma VersionsRoundTrip(versions: seq<map<string, string>>)
    ensures DecodeVersions(VersionsJson(versions)) == Some(versions)
  {
    forall i | 0 <= i < |versions|
      ensures DecodeStringMap(StringMapJson(versions[i])) == Some(versions[i])
    {
      StringMapRoundTrip(versions[i]);
    }
    ListRoundTrip(versions, StringMapJson, DecodeStringMap);
  }

  lemma ProviderVersionsRoundTrip(p: ProviderVersions)
    ensures DecodeProviderVersions(ProviderVersionsJson(p)) == Some(p)
  {
    VersionsRoundTrip(p.versions);
  }

  lemma ModuleVersionsRespRoundTrip(r: ModuleVersionsResp)
    ensures DecodeModuleVersionsResp(ModuleVersionsRespJson(r)) == Some(r)
  {
    forall i | 0 <= i < |r.modules|
      ensures DecodeModuleVersions(ModuleVersionsJson(r.modules[i])) == Some(r.modules[i])
    {
      VersionsRoundTrip(r.modules[i].versions);
    }
    ListRoundTrip(r.modules, ModuleVersionsJson, DecodeModuleVersions);
  }

  lemma ProviderRespRoundTrip(r: ProviderResp)
    ensures DecodeProviderResp(ProviderRespJson(r)) == Some(r)
  {
    ListRoundTrip(r.signingKeys, GpgPublicKeyJson, DecodeGpgPublicKey);
  }
}
