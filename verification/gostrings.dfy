/** The parts of Go's `strings` package the registry relies on: `Trim` with a
    cutset, `Split`/`Join` around a single separator character, and the
    prefix/suffix tests. Strings are sequences of characters. */
module GoStrings {
  import opened Wrappers

  predicate HasPrefix(s: string, prefix: string) {
    prefix <= s
  }

  predicate HasSuffix(s: string, suffix: string) {
    |suffix| <= |s| && s[|s| - |suffix|..] == suffix
  }

  /** `strings.TrimLeft`: drops every leading character that occurs in `cutset`. */
  function TrimLeft(s: string, cutset: string): (r: string)
    ensures |r| <= |s| && r == s[|s| - |r|..]
    ensures forall i :: 0 <= i < |s| - |r| ==> s[i] in cutset
    ensures |r| > 0 ==> r[0] !in cutset
    decreases |s|
  {
    if |s| > 0 && s[0] in cutset then
      var rest := TrimLeft(s[1..], cutset);
      assert forall i :: 1 <= i < |s| - |rest| ==> s[i] == s[1..][i - 1];
      rest
    else
      s
  }

  /** `strings.TrimRight`: drops every trailing character that occurs in `cutset`. */
  function TrimRight(s: string, cutset: string): (r: string)
    ensures |r| <= |s| && r == s[..|r|]
    ensures forall i :: |r| <= i < |s| ==> s[i] in cutset
    ensures |r| > 0 ==> r[|r| - 1] !in cutset
    decreases |s|
  {
    if |s| > 0 && s[|s| - 1] in cutset then
      var rest := TrimRight(s[..|s| - 1], cutset);
      assert forall i :: |rest| <= i < |s| - 1 ==> s[i] == s[..|s| - 1][i];
      rest
    else
      s
  }

  /** `strings.Trim`: Go trims the right end first and then the left end. */
  function Trim(s: string, cutset: string): string {
    TrimLeft(TrimRight(s, cutset), cutset)
  }

  /** Trim keeps an infix of `s`: everything before and after it is in the
      cutset, and its two end characters are not. */
  lemma TrimIsInfix(s: string, cutset: string)
    ensures exists i, j :: InfixWitness(s, cutset, Trim(s, cutset), i, j)
    ensures var r := Trim(s, cutset);
      |r| > 0 ==> r[0] !in cutset && r[|r| - 1] !in cutset
  {
    var right := TrimRight(s, cutset);
    var r := TrimLeft(right, cutset);
    assert Trim(s, cutset) == r;
    InfixOfTrims(s, cutset, right, r);
    assert InfixWitness(s, cutset, Trim(s, cutset), |right| - |r|, |right|);
  }

  /** `r` is `s[i..j]` with only cutset characters around it. */
  predicate InfixWitness(s: string, cutset: string, r: string, i: int, j: int) {
    && 0 <= i <= j <= |s|
    && r == s[i..j]
    && (forall k :: 0 <= k < i ==> s[k] in cutset)
    && (forall k :: j <= k < |s| ==> s[k] in cutset)
  }

  /** What trimming the right end and then the left end leaves. */
  lemma InfixOfTrims(s: string, cutset: string, right: string, r: string)
    requires |right| <= |s| && right == s[..|right|]
    requires forall k :: |right| <= k < |s| ==> s[k] in cutset
    requires |right| > 0 ==> right[|right| - 1] !in cutset
    requires |r| <= |right| && r == right[|right| - |r|..]
    requires forall k :: 0 <= k < |right| - |r| ==> right[k] in cutset
    requires |r| > 0 ==> r[0] !in cutset
    ensures InfixWitness(s, cutset, r, |right| - |r|, |right|)
    ensures |r| > 0 ==> r[0] !in cutset && r[|r| - 1] !in cutset
  {
    assert forall k :: 0 <= k < |right| ==> s[k] == right[k];
    if |r| > 0 {
      assert r[|r| - 1] == right[|right| - 1];
    }
  }

  /** TrimLeft drops a first character in the cutset and stops at a second one outside it. */
  lemma LeadingCutsetChar(s: string, cutset: string)
    requires |s| >= 2 && s[0] in cutset && s[1] !in cutset
    ensures TrimLeft(s, cutset) == s[1..]
  {
    assert s[1..][0] == s[1];
  }

  /** Trimming the left end skips a prefix made only of cutset characters. */
  lemma {:induction false} TrimLeftSkips(a: string, b: string, cutset: string)
    requires forall k :: 0 <= k < |a| ==> a[k] in cutset
    ensures TrimLeft(a + b, cutset) == TrimLeft(b, cutset)
    decreases |a|
  {
    if |a| > 0 {
      assert (a + b)[0] == a[0];
      assert (a + b)[1..] == a[1..] + b;
      TrimLeftSkips(a[1..], b, cutset);
    } else {
      assert a + b == b;
    }
  }

  /** `strings.Split(s, sep)` for a one-character separator: there is always
      at least one part, and no part contains the separator. */
  function SplitOn(s: string, sep: char): (parts: seq<string>)
    ensures |parts| >= 1
    ensures forall i :: 0 <= i < |parts| ==> sep !in parts[i]
    decreases |s|
  {
    if |s| == 0 then [""]
    else if s[0] == sep then [""] + SplitOn(s[1..], sep)
    else
      var rest := SplitOn(s[1..], sep);
      [[s[0]] + rest[0]] + rest[1..]
  }

  /** `strings.Join(parts, string(sep))`. */
  function JoinOn(parts: seq<string>, sep: char): string
  {
    if |parts| == 0 then ""
    else if |parts| == 1 then parts[0]
    else parts[0] + [sep] + JoinOn(parts[1..], sep)
  }

  lemma {:induction false} SplitOnNoSep(s: string, sep: char)
    requires sep !in s
    ensures SplitOn(s, sep) == [s]
    decreases |s|
  {
    if |s| > 0 {
      assert s[0] != sep;
      assert sep !in s[1..] by {
        forall k | 0 <= k < |s[1..]| ensures s[1..][k] != sep {
          assert s[1..][k] == s[k + 1];
        }
      }
      SplitOnNoSep(s[1..], sep);
      assert [s[0]] + s[1..] == s;
    }
  }

  /** Splitting around one separator splits the two sides independently. */
  lemma {:induction false} SplitOnAppend(a: string, b: string, sep: char)
    ensures SplitOn(a + [sep] + b, sep) == SplitOn(a, sep) + SplitOn(b, sep)
    decreases |a|
  {
    var s := a + [sep] + b;
    if |a| == 0 {
      assert s[0] == sep;
      assert s[1..] == b;
    } else {
      assert s[0] == a[0];
      assert s[1..] == a[1..] + [sep] + b;
      SplitOnAppend(a[1..], b, sep);
    }
  }

  lemma {:induction false} JoinOnCons(x: string, rest: seq<string>, sep: char)
    requires |rest| >= 1
    ensures JoinOn([x] + rest, sep) == x + [sep] + JoinOn(rest, sep)
  {
    assert ([x] + rest)[1..] == rest;
  }

  lemma {:induction false} JoinOnAppend(a: seq<string>, b: seq<string>, sep: char)
    requires |a| >= 1 && |b| >= 1
    ensures JoinOn(a + b, sep) == JoinOn(a, sep) + [sep] + JoinOn(b, sep)
    decreases |a|
  {
    if |a| == 1 {
      assert a + b == [a[0]] + b;
      JoinOnCons(a[0], b, sep);
    } else {
      assert a + b == [a[0]] + (a[1..] + b);
      JoinOnCons(a[0], a[1..] + b, sep);
      JoinOnAppend(a[1..], b, sep);
      assert a == [a[0]] + a[1..];
      JoinOnCons(a[0], a[1..], sep);
    }
  }

  /** Four parts joined around a separator. */
  lemma JoinOnFour(a: string, b: string, c: string, d: string, sep: char)
    ensures JoinOn([a, b, c, d], sep) == a + [sep] + b + [sep] + c + [sep] + d
  {
    JoinOnCons(c, [d], sep);
    JoinOnCons(b, [c, d], sep);
    JoinOnCons(a, [b, c, d], sep);
    assert [c] + [d] == [c, d];
    assert [b] + [c, d] == [b, c, d];
    assert [a] + [b, c, d] == [a, b, c, d];
    JoinAssoc4(a, b, c, d, [sep]);
  }

  lemma JoinAssoc4(a: string, b: string, c: string, d: string, s: string)
    ensures a + s + (b + s + (c + s + d)) == a + s + b + s + c + s + d
  {
  }

  /** Moving the separator between a joined list and one more element. */
  lemma JoinOnShift(x: string, mid: seq<string>, last: string, sep: char)
    ensures JoinOn([x] + mid, sep) + [sep] + last == x + [sep] + JoinOn(mid + [last], sep)
  {
    if |mid| == 0 {
      assert [x] + mid == [x] && mid + [last] == [last];
    } else {
      JoinOnCons(x, mid, sep);
      JoinOnAppend(mid, [last], sep);
    }
  }

  /** Split undoes Join when no part contains the separator. */
  lemma {:induction false} SplitJoinOn(parts: seq<string>, sep: char)
    requires |parts| >= 1
    requires forall i :: 0 <= i < |parts| ==> sep !in parts[i]
    ensures SplitOn(JoinOn(parts, sep), sep) == parts
    decreases |parts|
  {
    SplitOnNoSep(parts[0], sep);
    if |parts| > 1 {
      SplitOnAppend(parts[0], JoinOn(parts[1..], sep), sep);
      SplitJoinOn(parts[1..], sep);
      assert parts == [parts[0]] + parts[1..];
    }
  }

  /** `strings.TrimPrefix` combined with the test `http.StripPrefix` makes:
      the rest of `s` after `prefix`, or None when `s` does not start with it. */
  function StripPrefix(s: string, prefix: string): (r: Option<string>)
    ensures r.Some? <==> HasPrefix(s, prefix)
    ensures r.Some? ==> prefix + r.value == s
  {
    if HasPrefix(s, prefix) then Some(s[|prefix|..]) else None
  }

  // ---------------------------------------------------------------------
  // Go's string order.

  /** Go's `<` on strings: the first differing character decides, and a
      proper prefix comes first. UTF-8 keeps code point order, so comparing
      characters agrees with Go's comparison of the bytes. */
  predicate NameLess(a: string, b: string)
    decreases |a|
  {
    if |a| == 0 then |b| > 0
    else if |b| == 0 then false
    else if a[0] != b[0] then a[0] < b[0]
    else NameLess(a[1..], b[1..])
  }

  /** No string comes before itself, and of two strings at most one comes
      first. */
  lemma {:induction false} NameLessAsymmetric(a: string, b: string)
    ensures NameLess(a, b) ==> !NameLess(b, a)
    ensures !NameLess(a, a)
    decreases |a|
  {
    if |a| > 0 && |b| > 0 && a[0] == b[0] {
      NameLessAsymmetric(a[1..], b[1..]);
    }
    if |a| > 0 {
      NameLessAsymmetric(a[1..], a[1..]);
    }
  }

  /** Of two different strings, one comes first. */
  lemma {:induction false} NameLessTotal(a: string, b: string)
    requires a != b
    ensures NameLess(a, b) || NameLess(b, a)
    decreases |a|
  {
    if |a| > 0 && |b| > 0 && a[0] == b[0] {
      assert a == [a[0]] + a[1..] && b == [b[0]] + b[1..];
      NameLessTotal(a[1..], b[1..]);
    }
  }

  /** Names in strictly ascending order: `fs.ReadDir`'s sort, with
      distinct names. */
  predicate Ascending(names: seq<string>) {
    forall i, j :: 0 <= i < j < |names| ==> NameLess(names[i], names[j])
  }

  /** An ascending list names nothing twice. */
  lemma AscendingDistinct(names: seq<string>)
    requires Ascending(names)
    ensures forall i, j :: 0 <= i < j < |names| ==> names[i] != names[j]
  {
    forall i, j | 0 <= i < j < |names| ensures names[i] != names[j] {
      NameLessAsymmetric(names[i], names[i]);
    }
  }
}
