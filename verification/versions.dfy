/** Turning a directory listing into version records, the loop both
    version handlers share: every entry name becomes `{"version": name}`. */
module Versions {
  import opened GoStrings

  /** `map[string]string{"version": name}`. */
  predicate IsVersionRecord(record: map<string, string>, name: string) {
    record.Keys == {"version"} && record["version"] == name
  }

  /** One record per entry, in listing order. */
  predicate Lists(records: seq<map<string, string>>, names: seq<string>) {
    && |records| == |names|
    && forall i :: 0 <= i < |names| ==> IsVersionRecord(records[i], names[i])
  }

  /** The `for _, v := range versionDirs { ... append ... }` loop. */
  method Collect(entries: seq<string>) returns (records: seq<map<string, string>>)
    ensures Lists(records, entries)
  {
    records := [];
    var i := 0;
    while i < |entries|
      invariant 0 <= i <= |entries|
      invariant Lists(records, entries[..i])
    {
      records := records + [map["version" := entries[i]]];
      i := i + 1;
    }
    assert entries[..i] == entries;
  }

  /** A listing determines its records completely. */
  lemma ListsDetermines(a: seq<map<string, string>>, b: seq<map<string, string>>, names: seq<string>)
    requires Lists(a, names) && Lists(b, names)
    ensures a == b
  {
    forall i | 0 <= i < |names| ensures a[i] == b[i] {
      assert a[i].Keys == b[i].Keys;
      assert forall k :: k in a[i] ==> a[i][k] == b[i][k];
    }
  }

  /** The records' versions ascend by name. */
  predicate AscendingVersions(records: seq<map<string, string>>) {
    && (forall i :: 0 <= i < |records| ==> "version" in records[i])
    && (forall i, j :: 0 <= i < j < |records| ==> NameLess(records[i]["version"], records[j]["version"]))
  }

  /** Records listing an ascending directory ascend too, and no version
      record appears twice. */
  lemma ListsAscending(records: seq<map<string, string>>, names: seq<string>)
    requires Lists(records, names) && Ascending(names)
    ensures AscendingVersions(records)
    ensures forall i, j :: 0 <= i < j < |records| ==> records[i] != records[j]
  {
    AscendingDistinct(names);
    forall i, j | 0 <= i < j < |records| ensures records[i] != records[j] {
      assert records[i]["version"] == names[i] && records[j]["version"] == names[j];
    }
  }
}
