# tf-registry: the protocol-to-storage layer, in Dafny

This project models the part of the tf-registry server that turns Terraform
registry protocol requests into bucket paths and JSON answers:

- **Paths and URLs.** The storage directories whose entries are provider and
  module versions. The provider artifact's file name, its download URL, and
  the `SHA256SUMS` and `SHA256SUMS.sig` URLs. The module `X-Terraform-Get`
  header. All of these are built with Go's `filepath.Join`, which the
  `FilePath` module models by its documented lexical rules. Go's Join drops
  leading empty elements, joins the rest with '/', then cleans the result:
  empty and "." names go, ".." removes the name before it, and a leading '/'
  is kept.
- **Version listing.** Every directory entry becomes a `{"version": name}`
  record, in the order `fs.ReadDir` returns the entries: sorted by name
  (the model also takes the names to be distinct). Module listings are wrapped as the one element
  of `modules`. A listing error becomes a 500.
- **The provider download descriptor.** The checksum is the SHA-256 of one
  bucket object, written as lower-case hex. The code names that object with
  `strings.Trim(downloadURL, "downla/")`, which can drop letters of the
  namespace (see "## Findings"). `Providers.GetShasumAsWritten` keeps that
  key. The descriptor uses the corrected key, the object the download route
  serves. The signing key entry carries the whole key file. The model keeps the
  ways the Go code can end a request: a panic (a nil file, a slice past its
  capacity) and `log.Fatal`.
- **Response records and discovery.** The records of `config/config.go`, how
  each is written as JSON (key names and nesting, `null` for a nil slice) and
  read back, and the discovery document served at "/" and
  "/.well-known/terraform.json".

The bucket, the local file system holding the key file, and SHA-256 are
parameters. `Storage.Store` and `Providers.Env` hold them as function values:
a directory listing yields names in ascending order, or an error message, and a whole-file read
yields bytes, an open failure, or a read failure with the bytes read so far.

Modules: `Wrappers` (Option, Result, and `Run`, the outcome of a handler that
may panic or exit), `GoStrings` (`Trim`, `Split`/`Join`, prefixes),
`Bytes` (bytes, 32-byte digests, hex, `string(bytes)`), `FilePath`,
`Json`, `Http`, `Storage`, `Config`, `Versions` (the listing loop both
handlers share), `Providers`, `Modules`, `Discovery`.

Points where the code does something other than its names or comments
suggest, which the model follows:

- `CmdLineParams.GpgKeys` is documented as a folder (config/config.go:73),
  but the handler reads the single file `C.GpgKey` and lists it under the
  fixed key id "terraform-registry" (internal/cmd/providers.go:137).
  `CmdLineParams` declares no field `GpgKey` (config/config.go:70-80), so
  that line does not compile as written; the model reads it as the path of
  one key file, `CmdLineParams.gpgKey`.
- Every listing error is answered with status 500, a missing version
  directory included; a 404 is left as a TODO at internal/cmd/modules.go:42.
- The debug print `content[0:10]` in `getGPGkey` does not panic for a short
  readable file. Go checks a slice expression's upper bound against the
  slice's capacity, and `os.ReadFile` allocates at least 512 bytes for any
  file it opened. Only a file that cannot be opened gives a nil slice of
  capacity 0, and that panics. A read error part-way still returns the bytes
  read. `Storage.OsReadFile` and `Providers.GetGpgKey` state this.
- In `getSHASUM` an open error is only printed; the nil file it leaves makes
  `io.Copy` panic (internal/cmd/providers.go:84-90). A read failure ends the
  process through `log.Fatal`.
- Version directories are listed with `fs.ReadDir`, whose contract returns
  the entries sorted by name. The version arrays therefore come out in
  name order; `Storage.Listing` carries that order, taking the names to be
  distinct as well.
- The checksum and signature URLs are built under `C.Pprefix`
  (internal/cmd/providers.go:122), but the route that serves them is
  registered under the fixed base path "/providers"
  (internal/cmd/root.go:138). They reach that route only when the prefix's
  first name is "providers"; `Providers.ShasumsURLRouting` states this.
- Module versions are listed under `C.Mprefix` (internal/cmd/modules.go:38),
  but the `X-Terraform-Get` header always points to "/download/modules/…"
  (internal/cmd/modules.go:81-88), which the archive route serves from the
  bucket key "modules/…" (internal/cmd/modules.go:98). With any other prefix
  the archive is looked up outside the listed directory;
  `Modules.ModuleArchiveKey` states the served key.
- Strings are sequences of characters. Names, URLs and JSON text are read
  as Unicode code points; UTF-8 keeps code point order, so comparing
  characters agrees with Go's comparison of bytes. `string(content)` of the
  key file is modelled one character per byte (`Bytes.BytesToString`),
  which agrees with Go's reading for ASCII key files.

## Model

| member | source | states |
|---|---|---|
| Versions.Collect | internal/cmd/providers.go:46-50 | One record per directory entry, in listing order; record i has the single key "version" mapped to entry i's name. |
| Versions.ListsAscending | internal/cmd/providers.go:41-50 | Records built from an `fs.ReadDir` listing carry ascending version names, and no record appears twice. |
| GoStrings.NameLessAsymmetric | internal/cmd/providers.go:41 | Go's string order, which sorts `fs.ReadDir` entries, is strict: no name comes before itself, and of two names at most one comes first. |
| GoStrings.NameLessTotal | internal/cmd/providers.go:41 | Of two different names one comes first, so the sorted order of a listing is fixed. |
| GoStrings.AscendingDistinct | internal/cmd/modules.go:58 | A listing in ascending order names every entry once. |
| Versions.ListsDetermines | internal/cmd/modules.go:63-67 | A listing determines its version records completely: two record lists that both list the same entries are equal. |
| Providers.GetProviderVersions | internal/cmd/providers.go:37-52 | A listing error gives an empty `ProviderVersions` and that error; a listing gives no error and one version record per entry, in order, with ascending version names. |
| Providers.HandleProviderVersions | internal/cmd/providers.go:56-77 | A listing error of the provider directory is answered by `http.Error` with status 500 and the error text; otherwise status 200, a JSON Content-Type, and a document that decodes to one record per entry, in ascending version order. |
| Providers.ProviderPathShape | internal/cmd/providers.go:63 | For plain namespace and provider names and a prefix without "..", the directory is the prefix's names followed by namespace and provider, rooted exactly when the prefix starts with '/'. |
| Providers.ProviderPathInjective | internal/cmd/providers.go:63 | Two plain (namespace, provider) pairs that get the same directory are the same pair. |
| Providers.ProviderFilenameRoundTrip | internal/cmd/providers.go:123 | The file name "terraform-provider-" + provider + "_" + version + "_" + os + "_" + arch + ".zip" gives back all four fields when none contains '_'. |
| Providers.DownloadURLShape | internal/cmd/providers.go:121-129 | The download URL is "/download/" followed by the artifact's bucket path (prefix names, namespace, provider, version, file name); it starts with "/download/" and ends with "/" and the file name. |
| Providers.ShasumsURLShape | internal/cmd/providers.go:122-133 | The checksum-list URL is "/" followed by the prefix names, namespace, provider, version, "signatures" and "SHA256SUMS", separated by '/'. |
| Providers.ShasumsURLRouting | internal/cmd/root.go:138 | The checksum-list URL matches the signature route only if the provider prefix's first name is "providers", and always matches when "providers" is the prefix's only name. |
| Providers.ShasumsURLUnderBasePath | internal/cmd/root.go:138 | With the provider prefix "providers", the checksum-list URL is the provider base path, namespace, provider, version and "signatures/SHA256SUMS", the place the signature route serves. |
| Providers.SignatureURLExtendsShasums | internal/cmd/providers.go:133-136 | The signature URL is the checksum-list URL with ".sig" appended. |
| Providers.HashObject | internal/cmd/providers.go:84-95 | An object that cannot be opened panics; one whose read fails exits; otherwise the result is 64 lower-case hex digits that decode to the digest of the object's bytes. |
| Providers.GetGpgKey | internal/cmd/providers.go:99-107 | Panics exactly when the key file cannot be opened; never exits; otherwise returns the file's bytes (or the bytes read before a read error) as a string whose characters give those bytes back. |
| Providers.DescribeDownload | internal/cmd/providers.go:110-137 | A descriptor is returned exactly when the checksum object (under the corrected key) reads and the key file opens; it echoes os and arch, holds the file name, the download URL ending in "/" + file name, the checksum URL and that URL + ".sig", a 64-digit hex checksum of the hashed object, and one key "terraform-registry" carrying the key file's bytes. Open and read failures of the checksum object panic and exit. |
| Providers.DescriptorShasumCoversArtifact | internal/cmd/providers.go:129-132 | For plain names and a prefix without "..", a returned descriptor's checksum decodes to the digest of the artifact the download URL serves, and that artifact was readable. |
| Providers.HandleProviderDownload | internal/cmd/providers.go:145-149 | The handler answers exactly when a descriptor is built, with status 200, a JSON Content-Type and a document that decodes to that descriptor; it panics exactly when building panics. |
| GoStrings.TrimIsInfix | internal/cmd/providers.go:82 | `strings.Trim` keeps an infix of its input: everything before and after it is in the cutset, and its first and last characters are not. |
| Providers.TrimLeavesZipEnd | internal/cmd/providers.go:82 | Trimming the cutset "downla/" removes nothing at the right of a string ending in ".zip". |
| Providers.ShasumKeyAsWritten | internal/cmd/providers.go:82 | The object hashed is the artifact's bucket path with its leading cutset characters also trimmed away. |
| Providers.ShasumKeyMatchesServedIff | internal/cmd/providers.go:82 | The download route serves the artifact's bucket path for the download URL; the hashed object is that path exactly when the path does not begin with d, o, w, n, l, a or '/'. |
| Providers.ShasumAsWrittenHashes | internal/cmd/providers.go:80-96 | `getSHASUM` as written hashes the artifact path with its leading characters from "downla/" removed; with the corrected key it hashes the artifact path itself. |
| Providers.AsWrittenPanicsOnServedArtifact | internal/cmd/providers.go:82-90 | With an empty prefix and namespace "acme", `getSHASUM` as written opens the artifact path without its first letter; when only the served artifact exists it panics where the corrected one returns a checksum. |
| Providers.ShasumKeyLosesNamespaceLetter | internal/cmd/providers.go:82 | With an empty provider prefix and namespace "acme", the artifact path starts "acme/", the route serves it, and the object hashed is that path without its first letter. |
| Providers.CorrectedShasumKey | internal/cmd/providers.go:158 | The corrected key is what the download route serves for a "/download/" URL: the URL with that prefix stripped. |
| Providers.CorrectedShasumKeyLocatesArtifact | internal/cmd/providers.go:158 | For plain names and any prefix without "..", the corrected key is always the artifact's bucket path. |
| Storage.OsReadFile | internal/cmd/providers.go:101 | `os.ReadFile` gives a nil slice (capacity 0, no data) exactly when the file cannot be opened, and otherwise a slice of capacity at least 512 holding all the file's bytes, or those read before a read error. |
| Bytes.HexEncode | internal/cmd/providers.go:92 | `hex.EncodeToString` writes two lower-case digits per byte, high nibble first. |
| Bytes.HexRoundTrip | internal/cmd/providers.go:92 | Decoding the hex encoding gives the bytes back. |
| Bytes.HexCanonical | internal/cmd/providers.go:92 | The lower-case encoding is the only string that decodes to given bytes. |
| Bytes.BytesToStringRoundTrip | internal/cmd/providers.go:106 | `string(content)` keeps every byte: the string's characters give the bytes back. |
| GoStrings.StripPrefix | internal/cmd/providers.go:158 | Stripping "/download/" succeeds exactly for paths that start with it, and the prefix plus the rest is the path. |
| FilePath.JoinKeeps | internal/cmd/modules.go:38 | `filepath.Join` of elements without "..", not all empty, is the rendering of their names in order, rooted when the first non-empty element starts with '/'. |
| FilePath.PrefixedJoinInjective | internal/cmd/modules.go:38 | Joining one prefix with two lists of plain names gives the same path only for the same list. |
| FilePath.DirPrefixJoin | internal/cmd/providers.go:121 | Joining a rooted directory "/x/", the prefix, "/" and plain names, then adding "/" and a last name, gives "/x/" followed by all the names separated by '/'. |
| FilePath.RootPrefixJoin | internal/cmd/providers.go:122 | Joining "/", the prefix, "/", plain names and "/x", then adding "/" and a last name, gives "/" followed by all the names separated by '/'. |
| FilePath.RootedPairJoin | internal/cmd/modules.go:81-88 | Joining "/x/y" with names that clean to themselves gives the pieces "", x, y and those names joined with '/'. |
| GoStrings.SplitJoinOn | internal/cmd/modules.go:81-88 | Splitting a '/'-joined list of pieces without '/' gives the pieces back. |
| Modules.ModulePathShape | internal/cmd/modules.go:38 | For plain names and a prefix without "..", the module directory is the prefix's names followed by namespace, name and provider. |
| Modules.ModulePathInjective | internal/cmd/modules.go:38 | Two plain modules with the same directory agree on namespace, name and provider. |
| Modules.GetModuleVersions | internal/cmd/modules.go:53-71 | A listing error gives an empty response and that error; a listing gives no error and exactly one `ModuleVersions` listing every entry in order, with ascending version names. |
| Modules.HandleModuleVersions | internal/cmd/modules.go:31-51 | Any listing error, a missing module included, is answered with status 500 and the error text; otherwise status 200, a JSON Content-Type, and a document that decodes to one module listing every entry, in ascending version order. |
| Modules.HandleModuleDownload | internal/cmd/modules.go:73-92 | Status 204, exactly the header `X-Terraform-Get`, no body; for plain names the header reads back as the requested module. |
| Modules.ModuleHeaderShape | internal/cmd/modules.go:81-88 | For plain names the header is "/download/modules/" + namespace + "/" + name + "/" + provider + "/" + version + "/" + name + ".tgz", ending in "/" + name + ".tgz". |
| Modules.ModuleArchiveKey | internal/cmd/modules.go:81-98 | For plain names the archive route serves the header's bucket key "modules/" + namespace + "/" + name + "/" + provider + "/" + version + "/" + name + ".tgz", independent of the module prefix the versions are listed under. |
| Modules.ModuleHeaderRoundTrip | internal/cmd/modules.go:81-88 | Parsing the header gives back namespace, name, provider and version. |
| Modules.ModuleHeaderInjective | config/config.go:62-67 | The header depends on all four fields of a `Module` and nothing else: different plain modules get different headers. |
| Config.DiscoveryJson | config/config.go:24-27 | The discovery document has exactly the keys "providers.v1" and "modules.v1". |
| Config.DiscoveryRoundTrip | config/config.go:24-27 | The discovery document reads back as the record it was written from. |
| Config.VersionsJson | config/config.go:29-31 | A versions document has exactly the key "versions". |
| Config.VersionsRoundTrip | config/config.go:29-31 | A versions document reads back as its list of string maps, `null` standing for the empty list. |
| Json.ListJson | config/config.go:30 | A slice is written as `null` exactly when it is empty (nil), otherwise as an array of the encoded elements, in order. |
| Json.StringMapRoundTrip | config/config.go:30 | A `map[string]string` is written as an object with the same keys and reads back as the same map. |
| Config.ProviderRespJson | config/config.go:41-50 | The descriptor object has exactly the eight keys download_url, shasum, os, arch, filename, shasums_url, shasums_signature_url and signing_keys. |
| Config.ProviderRespRoundTrip | config/config.go:41-50 | The descriptor document reads back as the descriptor, signing keys included. |
| Config.ModuleVersionsRespJson | config/config.go:56-59 | The module versions document has exactly the key "modules". |
| Config.ModuleVersionsRespRoundTrip | config/config.go:52-59 | The nested document `{"modules": [{"versions": [...]}]}` reads back as the response record. |
| Discovery.HandleServiceDiscovery | internal/cmd/root.go:175-183 | Status 200, a JSON Content-Type, and a document with exactly the keys "providers.v1" and "modules.v1" that reads back as "/providers" and "/modules". |
| Discovery.ServeDiscovery | internal/cmd/root.go:121-124 | A discovery answer exists exactly for "/" and "/.well-known/terraform.json", and it reads back as the two base paths. |
| Discovery.DiscoveryRoutesAgree | internal/cmd/root.go:121-124 | Both discovery routes give the same answer. |

## Left out

- Request routing: chi's route matching, path parameters and middleware are not modelled; handlers take their parameters directly. The routes in internal/cmd/root.go:129-132 lack the `/providers` prefix that discovery advertises; that mismatch is routing and is not modelled.
- `httpGetProvider`, `httpGetSignatures`, `httpGetModule` and the `/files/*` route: byte passthrough through `http.FileServer`. Only the key the artifact route serves (the path without "/download/") is modelled, as `Providers.ServedArtifactKey`.
- internal/cmd/root.go apart from discovery, and cmd/main.go: flags, the AWS session and bucket setup, the TLS server, and the `/alive` and `/s3_reachable` handlers.
- SHA-256 itself: a parameter from bytes to a 32-byte digest.
- The bucket client and file reads: parameters returning data or an error.
- JSON text: the model stops at a JSON tree. Key order, escaping, the newline `json.Encoder` adds, and encoder errors (which the handlers only print) are not modelled.
- All `fmt.Println` logging.
- What the client sees after a panic (`middleware.Recoverer` turns it into a 500) and after `log.Fatal` (the process ends): the model stops at `Panics` and `Exits`.
- Providers.ProviderFilenameRoundTrip: holds only when provider, version, os and arch contain no '_', because the file name separates them with '_' and the code does not check.
- Modules.ModuleHeaderShape: stated for plain names only (non-empty, no '/', not "." or ".."), because `filepath.Join` cleans other names away.
- Providers.DownloadURLShape: stated for plain names and a provider prefix without "..", because ".." climbs out of the path.
- Providers.ShasumsURLShape: stated for plain names and a provider prefix without "..", for the same reason.
- Providers.DescribeDownload: hashes the object under the corrected key, not the trimmed key of internal/cmd/providers.go:82; `Providers.GetShasumAsWritten` keeps the trimmed key, and "## Findings" shows where the two differ.
- Providers.GetGpgKey: models one key file, as internal/cmd/providers.go:137 reads it; nothing scans a key folder.
- Providers.GetGpgKey: non-ASCII key bytes are not modelled as Go reads them. `string(content)` is modelled one character per byte, while encoding/json writes the string's UTF-8 code points and replaces invalid UTF-8 with U+FFFD.
- Storage.Listing: assumes the entry names are distinct as well as sorted. `fs.ReadDir` documents only the sort, and a bucket-backed file system might list an object and a prefix under one name.

## Findings

| source | as written | input that shows it | evidently intended | confidence | as-written member | corrected member |
|---|---|---|---|---|---|---|
| internal/cmd/providers.go:82 | The object hashed for `shasum` is `strings.Trim(downloadURL, "downla/")`. That trims every leading character in the set d, o, w, n, l, a, '/', not the string "/download/". | Empty provider prefix, namespace "acme": the download URL is "/download/acme/…" and the route serves "acme/…", but the object hashed is "cme/…". | Hash the object the download route serves, the URL without its "/download/" prefix, as internal/cmd/providers.go:158 strips it. | not executed | Providers.AsWrittenPanicsOnServedArtifact | Providers.DescriptorShasumCoversArtifact |
