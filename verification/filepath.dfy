/** Go's `path/filepath` on a Unix system, as its documented lexical rules:
    `Join` drops leading empty elements, joins the rest with '/', and cleans
    the result; `Clean` splits on '/', drops empty and "." names, lets ".."
    remove the name before it, and keeps a leading '/' on a rooted path.
    The model works on the list of names rather than on bytes. */
module FilePath {
  import opened GoStrings

  const Separator: char := '/'

  /** The pieces of a path between separators, empty ones included. */
  function Parts(path: string): (parts: seq<string>)
    ensures |parts| >= 1
  {
    SplitOn(path, Separator)
  }

  /** An identifier that filepath treats as exactly one ordinary name. */
  predicate PlainSegment(s: string) {
    s != "" && s != "." && s != ".." && Separator !in s
  }

  /** A path none of whose pieces is "..", so cleaning never climbs. */
  predicate NoParentRefs(path: string) {
    ".." !in Parts(path)
  }

  /** Clean keeps a piece unless it is empty or ".". */
  predicate Kept(c: string) {
    c != "" && c != "."
  }

  /** The pieces Clean keeps, in order. */
  function Keep(pieces: seq<string>): (r: seq<string>)
    ensures forall i :: 0 <= i < |r| ==> Kept(r[i]) && r[i] in pieces
  {
    if |pieces| == 0 then []
    else if Kept(pieces[0]) then [pieces[0]] + Keep(pieces[1..])
    else Keep(pieces[1..])
  }

  /** The names a path contributes once cleaned, when it has no "..". */
  function Names(path: string): seq<string> {
    Keep(Parts(path))
  }

  /** One piece of Clean's scan. ".." removes the last real name; when there
      is none it is dropped from a rooted path and kept in a relative one. */
  function Step(stack: seq<string>, piece: string, rooted: bool): seq<string> {
    if !Kept(piece) then stack
    else if piece == ".." then
      if |stack| > 0 && stack[|stack| - 1] != ".." then stack[..|stack| - 1]
      else if rooted then stack
      else stack + [".."]
    else stack + [piece]
  }

  function Resolve(stack: seq<string>, pieces: seq<string>, rooted: bool): (r: seq<string>)
    ensures (forall i :: 0 <= i < |stack| ==> Kept(stack[i])) ==>
              forall i :: 0 <= i < |r| ==> Kept(r[i])
    decreases |pieces|
  {
    if |pieces| == 0 then stack
    else Resolve(Step(stack, pieces[0], rooted), pieces[1..], rooted)
  }

  /** A path from its rootedness and its names; a relative path without names is ".". */
  function Render(rooted: bool, names: seq<string>): string {
    if rooted then [Separator] + JoinOn(names, Separator)
    else if names == [] then "."
    else JoinOn(names, Separator)
  }

  /** `filepath.Clean`. */
  function Clean(path: string): (r: string)
    ensures r != ""
  {
    if path == "" then "."
    else
      var rooted := path[0] == Separator;
      var names := Resolve([], Parts(path), rooted);
      assert names != [] ==> names[0] != "";
      Render(rooted, names)
  }

  function DropLeadingEmpty(elems: seq<string>): (r: seq<string>)
    ensures |r| <= |elems| && r == elems[|elems| - |r|..]
    ensures forall i :: 0 <= i < |elems| - |r| ==> elems[i] == ""
    ensures |r| > 0 ==> r[0] != ""
  {
    if |elems| > 0 && elems[0] == "" then
      var rest := DropLeadingEmpty(elems[1..]);
      assert forall i :: 1 <= i < |elems| - |rest| ==> elems[i] == elems[1..][i - 1];
      rest
    else
      elems
  }

  /** `filepath.Join`: the elements from the first non-empty one on, joined
      with the separator and cleaned; "" when every element is empty. */
  function Join(elems: seq<string>): (r: string)
    ensures r == "" <==> forall i :: 0 <= i < |elems| ==> elems[i] == ""
  {
    var rest := DropLeadingEmpty(elems);
    if |rest| == 0 then "" else Clean(JoinOn(rest, Separator))
  }

  /** Whether Join's result is rooted: its first non-empty element starts with '/'. */
  predicate JoinRooted(elems: seq<string>) {
    var rest := DropLeadingEmpty(elems);
    |rest| > 0 && rest[0][0] == Separator
  }

  /** The names every element contributes once cleaned, in order. */
  function Segments(elems: seq<string>): seq<string> {
    if |elems| == 0 then [] else Names(elems[0]) + Segments(elems[1..])
  }

  /** No element of the list holds a ".." piece. */
  predicate AllNoParentRefs(elems: seq<string>) {
    forall i :: 0 <= i < |elems| ==> NoParentRefs(elems[i])
  }

  // ---------------------------------------------------------------------
  // The lexical shape of Clean and Join when nothing climbs.

  lemma {:induction false} KeepAppend(a: seq<string>, b: seq<string>)
    ensures Keep(a + b) == Keep(a) + Keep(b)
    decreases |a|
  {
    if |a| > 0 {
      assert (a + b)[0] == a[0];
      assert (a + b)[1..] == a[1..] + b;
      KeepAppend(a[1..], b);
    } else {
      assert a + b == b;
    }
  }

  /** Without "..", Clean's scan just keeps the real names. */
  lemma {:induction false} ResolveKeeps(stack: seq<string>, pieces: seq<string>, rooted: bool)
    requires ".." !in pieces
    ensures Resolve(stack, pieces, rooted) == stack + Keep(pieces)
    decreases |pieces|
  {
    if |pieces| > 0 {
      var kept := if Kept(pieces[0]) then [pieces[0]] else [];
      StepKeeps(stack, pieces[0], rooted);
      NotInTail(pieces, "..");
      ResolveKeeps(stack + kept, pieces[1..], rooted);
      AppendAssoc(stack, kept, Keep(pieces[1..]));
    }
  }

  /** A step on anything but ".." pushes the piece when Clean keeps it. */
  lemma StepKeeps(stack: seq<string>, piece: string, rooted: bool)
    requires piece != ".."
    ensures Step(stack, piece, rooted) == stack + (if Kept(piece) then [piece] else [])
  {
  }

  lemma NotInTail<T>(s: seq<T>, x: T)
    requires |s| > 0 && x !in s
    ensures x !in s[1..]
  {
  }

  lemma FrontAssoc<T>(a: seq<T>, b: seq<T>, c: seq<T>, d: seq<T>)
    ensures a + b + c + d == a + (b + c + d)
  {
  }

  lemma AppendAssoc<T>(a: seq<T>, b: seq<T>, c: seq<T>)
    ensures a + b + c == a + (b + c)
  {
  }

  /** Clean of a path without "..": its rootedness and its kept names. */
  lemma CleanKeeps(path: string)
    requires path != "" && NoParentRefs(path)
    ensures Clean(path) == Render(path[0] == Separator, Names(path))
  {
    ResolveKeeps([], Parts(path), path[0] == Separator);
    assert [] + Keep(Parts(path)) == Names(path);
  }

  /** The names of a list of elements are the kept pieces of all of them. */
  lemma {:induction false} SegmentsArePieces(elems: seq<string>)
    requires |elems| >= 1
    ensures Parts(JoinOn(elems, Separator)) == Pieces(elems)
    ensures Keep(Pieces(elems)) == Segments(elems)
    decreases |elems|
  {
    if |elems| == 1 {
      assert Pieces(elems) == Parts(elems[0]) + Pieces(elems[1..]);
      assert Pieces(elems) == Parts(elems[0]);
    } else {
      SegmentsArePieces(elems[1..]);
      SplitOnAppend(elems[0], JoinOn(elems[1..], Separator), Separator);
      KeepAppend(Parts(elems[0]), Pieces(elems[1..]));
    }
  }

  /** Every piece of every element, in order. */
  function Pieces(elems: seq<string>): seq<string> {
    if |elems| == 0 then [] else Parts(elems[0]) + Pieces(elems[1..])
  }

  lemma {:induction false} PiecesNoParentRefs(elems: seq<string>)
    requires AllNoParentRefs(elems)
    ensures ".." !in Pieces(elems)
    decreases |elems|
  {
    if |elems| > 0 {
      assert NoParentRefs(elems[0]);
      PiecesNoParentRefs(elems[1..]);
    }
  }

  /** Leading empty elements contribute no names. */
  lemma {:induction false} SegmentsSkipEmpty(elems: seq<string>)
    ensures Segments(DropLeadingEmpty(elems)) == Segments(elems)
    decreases |elems|
  {
    if |elems| > 0 && elems[0] == "" {
      assert Parts("") == [""];
      SegmentsSkipEmpty(elems[1..]);
    }
  }

  lemma FirstCharOfJoinOn(parts: seq<string>)
    requires |parts| >= 1 && parts[0] != ""
    ensures JoinOn(parts, Separator) != "" && JoinOn(parts, Separator)[0] == parts[0][0]
  {
  }

  /** Join of elements without "..": rooted exactly when its first non-empty
      element is, and made of every element's names in order. */
  lemma JoinKeeps(elems: seq<string>)
    requires !forall i :: 0 <= i < |elems| ==> elems[i] == ""
    requires AllNoParentRefs(elems)
    ensures Join(elems) == Render(JoinRooted(elems), Segments(elems))
  {
    var rest := DropLeadingEmpty(elems);
    SuffixNoParentRefs(elems, rest);
    JoinOfRestRendered(elems, rest);
    SegmentsSkipEmpty(elems);
  }

  lemma JoinOfRestRendered(elems: seq<string>, rest: seq<string>)
    requires !forall i :: 0 <= i < |elems| ==> elems[i] == ""
    requires rest == DropLeadingEmpty(elems) && AllNoParentRefs(rest)
    ensures Join(elems) == Render(JoinRooted(elems), Segments(rest))
  {
    JoinOfRest(elems);
    CleanOfJoined(rest);
  }

  /** Clean of joined elements without "..", the first non-empty. */
  lemma CleanOfJoined(rest: seq<string>)
    requires |rest| > 0 && rest[0] != "" && AllNoParentRefs(rest)
    ensures Clean(JoinOn(rest, Separator)) == Render(rest[0][0] == Separator, Segments(rest))
  {
    var joined := JoinOn(rest, Separator);
    FirstCharOfJoinOn(rest);
    SegmentsArePieces(rest);
    PiecesNoParentRefs(rest);
    CleanKeeps(joined);
  }

  /** Join cleans the joined elements that follow the leading empty ones. */
  lemma JoinOfRest(elems: seq<string>)
    requires !forall i :: 0 <= i < |elems| ==> elems[i] == ""
    ensures |DropLeadingEmpty(elems)| > 0
    ensures Join(elems) == Clean(JoinOn(DropLeadingEmpty(elems), Separator))
    ensures JoinRooted(elems) == (DropLeadingEmpty(elems)[0][0] == Separator)
  {
  }

  lemma SuffixNoParentRefs(elems: seq<string>, rest: seq<string>)
    requires AllNoParentRefs(elems)
    requires |rest| <= |elems| && rest == elems[|elems| - |rest|..]
    ensures AllNoParentRefs(rest)
  {
    forall i | 0 <= i < |rest| ensures NoParentRefs(rest[i]) {
      assert rest[i] == elems[|elems| - |rest| + i];
    }
  }

  lemma SegmentsCons(x: string, rest: seq<string>)
    ensures Segments([x] + rest) == Names(x) + Segments(rest)
  {
    assert ([x] + rest)[0] == x;
    assert ([x] + rest)[1..] == rest;
  }

  lemma AllNoParentRefsCons(x: string, rest: seq<string>)
    requires NoParentRefs(x) && AllNoParentRefs(rest)
    ensures AllNoParentRefs([x] + rest)
  {
    assert forall i :: 1 <= i < |rest| + 1 ==> ([x] + rest)[i] == rest[i - 1];
  }

  lemma KeepOne(c: string)
    ensures Keep([c]) == if Kept(c) then [c] else []
  {
    assert [c][1..] == [];
  }

  /** A plain identifier is one piece and one name. */
  lemma PlainNames(s: string)
    requires PlainSegment(s)
    ensures Parts(s) == [s] && Names(s) == [s] && NoParentRefs(s)
  {
    SplitOnNoSep(s, Separator);
    KeepOne(s);
  }

  /** A leading separator adds an empty first piece. */
  lemma PartsUnderRoot(inner: string)
    ensures Parts([Separator] + inner) == [""] + Parts(inner)
  {
    SplitOnAppend("", inner, Separator);
    assert "" + [Separator] + inner == [Separator] + inner;
    assert Parts("") == [""];
  }

  /** A trailing separator adds an empty last piece. */
  lemma PartsWithTrailingSep(inner: string)
    ensures Parts(inner + [Separator]) == Parts(inner) + [""]
  {
    SplitOnAppend(inner, "", Separator);
    assert inner + [Separator] + "" == inner + [Separator];
    assert Parts("") == [""];
  }

  /** Two plain names around a separator are two pieces. */
  lemma PartsOfPair(x: string, y: string)
    requires PlainSegment(x) && PlainSegment(y)
    ensures Parts(x + [Separator] + y) == [x, y]
  {
    SplitOnNoSep(x, Separator);
    SplitOnNoSep(y, Separator);
    SplitOnAppend(x, y, Separator);
  }

  lemma KeepLeadingEmpty(pieces: seq<string>)
    ensures Keep([""] + pieces) == Keep(pieces)
  {
    assert ([""] + pieces)[1..] == pieces;
  }

  lemma KeepTrailingEmpty(pieces: seq<string>)
    ensures Keep(pieces + [""]) == Keep(pieces)
  {
    KeepAppend(pieces, [""]);
    KeepOne("");
  }

  lemma KeepPlainPair(x: string, y: string)
    requires PlainSegment(x) && PlainSegment(y)
    ensures Keep([x, y]) == [x, y]
  {
    KeepAppend([x], [y]);
    KeepOne(x);
    KeepOne(y);
    assert [x, y] == [x] + [y];
  }

  /** "/x" is rooted and names only x. */
  lemma RootedNames(x: string)
    requires PlainSegment(x)
    ensures Parts([Separator] + x) == ["", x]
    ensures Names([Separator] + x) == [x] && NoParentRefs([Separator] + x)
  {
    PlainNames(x);
    PartsUnderRoot(x);
    KeepLeadingEmpty([x]);
    assert [""] + [x] == ["", x];
  }

  /** "/x/" is rooted and names only x. */
  lemma RootedDirNames(x: string)
    requires PlainSegment(x)
    ensures Names([Separator] + x + [Separator]) == [x] && NoParentRefs([Separator] + x + [Separator])
  {
    var inner := x + [Separator];
    assert [Separator] + x + [Separator] == [Separator] + inner;
    PlainNames(x);
    PartsWithTrailingSep(x);
    PartsUnderRoot(inner);
    KeepLeadingEmpty([x] + [""]);
    KeepTrailingEmpty([x]);
    assert [""] + ([x] + [""]) == ["", x, ""];
  }

  /** "/" names nothing. */
  lemma RootNames()
    ensures Names([Separator]) == [] && NoParentRefs([Separator])
  {
    PartsUnderRoot("");
    assert [Separator] + "" == [Separator];
    assert Parts("") == [""];
    KeepLeadingEmpty([""]);
    KeepOne("");
    assert [""] + [""] == ["", ""];
  }

  /** "/x/y" is rooted and names x and y. */
  lemma RootedPairNames(x: string, y: string)
    requires PlainSegment(x) && PlainSegment(y)
    ensures Names([Separator] + x + [Separator] + y) == [x, y]
    ensures NoParentRefs([Separator] + x + [Separator] + y)
  {
    var inner := x + [Separator] + y;
    FrontAssoc([Separator], x, [Separator], y);
    PartsOfPair(x, y);
    PartsUnderRoot(inner);
    KeepLeadingEmpty([x, y]);
    KeepPlainPair(x, y);
    assert [""] + [x, y] == ["", x, y];
  }

  /** Plain identifiers name themselves and never climb. */
  lemma {:induction false} SegmentsOfPlain(names: seq<string>)
    requires forall i :: 0 <= i < |names| ==> PlainSegment(names[i])
    ensures Segments(names) == names && AllNoParentRefs(names)
    decreases |names|
  {
    if |names| > 0 {
      PlainNames(names[0]);
      SegmentsOfPlain(names[1..]);
      assert names == [names[0]] + names[1..];
      AllNoParentRefsCons(names[0], names[1..]);
    }
  }

  /** Join of a prefix followed by plain identifiers: rooted when the prefix
      is, and made of the prefix's names followed by the identifiers. */
  lemma PrefixedJoin(prefix: string, names: seq<string>)
    requires NoParentRefs(prefix)
    requires |names| >= 1 && forall i :: 0 <= i < |names| ==> PlainSegment(names[i])
    ensures Join([prefix] + names) == Render(prefix != "" && prefix[0] == Separator, Names(prefix) + names)
  {
    var elems := [prefix] + names;
    SegmentsOfPlain(names);
    SegmentsCons(prefix, names);
    AllNoParentRefsCons(prefix, names);
    assert elems[1] == names[0];
    JoinKeeps(elems);
    if prefix == "" {
      assert elems[1..] == names;
      assert DropLeadingEmpty(elems) == DropLeadingEmpty(names) == names;
      assert names[0][0] in names[0];
    }
  }

  /** Join of a prefix and plain identifiers determines the identifiers. */
  lemma PrefixedJoinInjective(prefix: string, t1: seq<string>, t2: seq<string>)
    requires NoParentRefs(prefix)
    requires |t1| >= 1 && forall i :: 0 <= i < |t1| ==> PlainSegment(t1[i])
    requires |t2| >= 1 && forall i :: 0 <= i < |t2| ==> PlainSegment(t2[i])
    requires Join([prefix] + t1) == Join([prefix] + t2)
    ensures t1 == t2
  {
    var rooted := prefix != "" && prefix[0] == Separator;
    var names := Names(prefix);
    PrefixedJoin(prefix, t1);
    PrefixedJoin(prefix, t2);
    NamesWithoutSeparator(prefix);
    ConcatWithoutSeparator(names, t1);
    ConcatWithoutSeparator(names, t2);
    RenderInjective(rooted, names + t1, names + t2);
    AppendCancel(names, t1, t2);
  }

  lemma ConcatWithoutSeparator(names: seq<string>, t: seq<string>)
    requires forall i :: 0 <= i < |names| ==> Separator !in names[i]
    requires forall i :: 0 <= i < |t| ==> PlainSegment(t[i])
    ensures forall i :: 0 <= i < |names + t| ==> Separator !in (names + t)[i]
  {
    forall i | 0 <= i < |names + t| ensures Separator !in (names + t)[i] {
      if i >= |names| { assert (names + t)[i] == t[i - |names|]; }
    }
  }

  lemma AppendCancel<T>(a: seq<T>, b: seq<T>, c: seq<T>)
    requires a + b == a + c
    ensures b == c
  {
    assert b == (a + b)[|a|..];
    assert c == (a + c)[|a|..];
  }

  /** Joining one prefix with two plain names: the names are determined. */
  lemma PrefixedPairInjective(prefix: string, a1: string, b1: string, a2: string, b2: string)
    requires NoParentRefs(prefix)
    requires PlainSegment(a1) && PlainSegment(b1) && PlainSegment(a2) && PlainSegment(b2)
    requires Join([prefix] + [a1, b1]) == Join([prefix] + [a2, b2])
    ensures a1 == a2 && b1 == b2
  {
    PlainList([a1, b1]);
    PlainList([a2, b2]);
    PrefixedJoinInjective(prefix, [a1, b1], [a2, b2]);
    assert [a1, b1][0] == [a2, b2][0] && [a1, b1][1] == [a2, b2][1];
  }

  /** Joining one prefix with three plain names: the names are determined. */
  lemma PrefixedTripleInjective(prefix: string, a1: string, b1: string, c1: string, a2: string, b2: string, c2: string)
    requires NoParentRefs(prefix)
    requires PlainSegment(a1) && PlainSegment(b1) && PlainSegment(c1)
    requires PlainSegment(a2) && PlainSegment(b2) && PlainSegment(c2)
    requires Join([prefix] + [a1, b1, c1]) == Join([prefix] + [a2, b2, c2])
    ensures a1 == a2 && b1 == b2 && c1 == c2
  {
    PlainList([a1, b1, c1]);
    PlainList([a2, b2, c2]);
    PrefixedJoinInjective(prefix, [a1, b1, c1], [a2, b2, c2]);
    assert [a1, b1, c1][0] == [a2, b2, c2][0] && [a1, b1, c1][1] == [a2, b2, c2][1];
    assert [a1, b1, c1][2] == [a2, b2, c2][2];
  }

  /** A short list of plain names, stated element by element. */
  lemma PlainList(t: seq<string>)
    requires 1 <= |t| <= 3
    requires PlainSegment(t[0])
    requires |t| >= 2 ==> PlainSegment(t[1])
    requires |t| >= 3 ==> PlainSegment(t[2])
    ensures forall i :: 0 <= i < |t| ==> PlainSegment(t[i])
  {
  }

  /** The names of a path never contain the separator. */
  lemma NamesWithoutSeparator(path: string)
    ensures forall i :: 0 <= i < |Names(path)| ==> Separator !in Names(path)[i]
  {
  }

  /** Different name lists render as different paths. */
  lemma RenderInjective(rooted: bool, a: seq<string>, b: seq<string>)
    requires |a| >= 1 && |b| >= 1
    requires forall i :: 0 <= i < |a| ==> Separator !in a[i]
    requires forall i :: 0 <= i < |b| ==> Separator !in b[i]
    requires Render(rooted, a) == Render(rooted, b)
    ensures a == b
  {
    if rooted {
      assert JoinOn(a, Separator) == Render(rooted, a)[1..];
      assert JoinOn(b, Separator) == Render(rooted, b)[1..];
    }
    SplitJoinOn(a, Separator);
    SplitJoinOn(b, Separator);
  }
  lemma {:induction false} SegmentsAppend(a: seq<string>, b: seq<string>)
    ensures Segments(a + b) == Segments(a) + Segments(b)
    decreases |a|
  {
    if |a| > 0 {
      assert (a + b)[0] == a[0];
      assert (a + b)[1..] == a[1..] + b;
      SegmentsAppend(a[1..], b);
    } else {
      assert a + b == b;
    }
  }

  /** Join of elements without "..", the first of them rooted. */
  lemma RootedJoin(elems: seq<string>)
    requires |elems| > 0 && elems[0] != "" && elems[0][0] == Separator
    requires AllNoParentRefs(elems)
    ensures Join(elems) == [Separator] + JoinOn(Segments(elems), Separator)
  {
    assert DropLeadingEmpty(elems) == elems;
    JoinKeeps(elems);
  }

  /** Moving a separator and a last name under a leading separator. */
  lemma ShiftUnderRoot(path: string, joined: string, first: string, rest: string, last: string)
    requires path == [Separator] + joined
    requires joined + [Separator] + last == first + [Separator] + rest
    ensures path + [Separator] + last == [Separator] + first + [Separator] + rest
  {
    assert path + [Separator] + last == [Separator] + (joined + [Separator] + last);
  }

  /** The names of three elements followed by more. */
  lemma SegmentsOfThree(a: string, b: string, c: string, tail: seq<string>)
    ensures Segments([a, b, c] + tail) == Names(a) + (Names(b) + (Names(c) + Segments(tail)))
  {
    var r1 := [c] + tail;
    var r2 := [b] + r1;
    assert [a, b, c] + tail == [a] + r2;
    SegmentsCons(c, tail);
    SegmentsCons(b, r1);
    SegmentsCons(a, r2);
  }

  /** The elements "/x/", a prefix, "/" and elements that name themselves:
      the name x, the prefix's names, then those elements. */
  lemma DirPrefixSegments(x: string, prefix: string, tail: seq<string>)
    requires PlainSegment(x)
    requires Segments(tail) == tail
    ensures Segments([[Separator] + x + [Separator], prefix, [Separator]] + tail) == [x] + (Names(prefix) + tail)
  {
    var dir := [Separator] + x + [Separator];
    var sep := [Separator];
    SegmentsOfThree(dir, prefix, sep, tail);
    RootedDirNames(x);
    RootNames();
    EmptyFront(tail);
  }

  lemma EmptyFront<T>(s: seq<T>)
    ensures [] + s == s
  {
  }

  lemma DirPrefixNoParentRefs(x: string, prefix: string, tail: seq<string>)
    requires PlainSegment(x) && NoParentRefs(prefix) && AllNoParentRefs(tail)
    ensures AllNoParentRefs([[Separator] + x + [Separator], prefix, [Separator]] + tail)
  {
    var dir := [Separator] + x + [Separator];
    var sep := [Separator];
    assert NoParentRefs(dir) by { RootedDirNames(x); }
    assert NoParentRefs(sep) by { RootNames(); }
    var e := [dir, prefix, sep] + tail;
    forall i | 0 <= i < |e| ensures NoParentRefs(e[i]) {
      if i >= 3 { assert e[i] == tail[i - 3]; }
    }
  }

  /** The elements "/", a prefix, "/", elements that name themselves and
      "/x": the prefix's names, those elements, then x. */
  lemma RootPrefixSegments(prefix: string, tail: seq<string>, x: string)
    requires PlainSegment(x)
    requires Segments(tail) == tail
    ensures Segments([[Separator], prefix, [Separator]] + tail + [[Separator] + x]) == Names(prefix) + tail + [x]
  {
    var last := [Separator] + x;
    var sep := [Separator];
    var rest := tail + [last];
    AppendAssoc([sep, prefix, sep], tail, [last]);
    SegmentsOfThree(sep, prefix, sep, rest);
    RootNames();
    RootedNames(x);
    SegmentsAppend(tail, [last]);
    SegmentsOne(last);
    EmptyFront(tail + [x]);
    AppendAssoc(Names(prefix), tail, [x]);
  }

  lemma SegmentsOne(e: string)
    ensures Segments([e]) == Names(e)
  {
    assert [e][1..] == [];
  }

  lemma RootPrefixNoParentRefs(prefix: string, tail: seq<string>, x: string)
    requires PlainSegment(x) && NoParentRefs(prefix) && AllNoParentRefs(tail)
    ensures AllNoParentRefs([[Separator], prefix, [Separator]] + tail + [[Separator] + x])
  {
    var last := [Separator] + x;
    var sep := [Separator];
    assert NoParentRefs(last) by { RootedNames(x); }
    assert NoParentRefs(sep) by { RootNames(); }
    var e := [sep, prefix, sep] + tail + [last];
    forall i | 0 <= i < |e| ensures NoParentRefs(e[i]) {
      if 3 <= i < |e| - 1 { assert e[i] == tail[i - 3]; }
    }
  }

  /** Join of "/x/", a prefix, "/" and elements that name themselves is
      rooted and made of x, the prefix's names and those elements. */
  lemma DirPrefixRooted(x: string, prefix: string, tail: seq<string>)
    requires PlainSegment(x) && NoParentRefs(prefix)
    requires Segments(tail) == tail && AllNoParentRefs(tail)
    ensures Join([[Separator] + x + [Separator], prefix, [Separator]] + tail)
         == [Separator] + JoinOn([x] + (Names(prefix) + tail), Separator)
  {
    var elems := [[Separator] + x + [Separator], prefix, [Separator]] + tail;
    DirPrefixSegments(x, prefix, tail);
    DirPrefixNoParentRefs(x, prefix, tail);
    RootedJoinOf(elems, [x] + (Names(prefix) + tail));
  }

  /** Join of "/", a prefix, "/", elements that name themselves and "/x" is
      rooted and made of the prefix's names, those elements and x. */
  lemma RootPrefixRooted(prefix: string, tail: seq<string>, x: string)
    requires PlainSegment(x) && NoParentRefs(prefix)
    requires Segments(tail) == tail && AllNoParentRefs(tail)
    ensures Join([[Separator], prefix, [Separator]] + tail + [[Separator] + x])
         == [Separator] + JoinOn(Names(prefix) + tail + [x], Separator)
  {
    var elems := [[Separator], prefix, [Separator]] + tail + [[Separator] + x];
    RootPrefixSegments(prefix, tail, x);
    RootPrefixNoParentRefs(prefix, tail, x);
    RootedJoinOf(elems, Names(prefix) + tail + [x]);
  }

  /** Join of elements without "..", the first of them rooted, given their names. */
  lemma RootedJoinOf(elems: seq<string>, names: seq<string>)
    requires |elems| > 0 && elems[0] != "" && elems[0][0] == Separator
    requires AllNoParentRefs(elems) && Segments(elems) == names
    ensures Join(elems) == [Separator] + JoinOn(names, Separator)
  {
    RootedJoin(elems);
  }

  lemma DirPrefixJoinCore(x: string, prefix: string, tail: seq<string>, last: string)
    requires PlainSegment(x) && NoParentRefs(prefix)
    requires Segments(tail) == tail && AllNoParentRefs(tail)
    ensures Join([[Separator] + x + [Separator], prefix, [Separator]] + tail) + [Separator] + last
         == [Separator] + x + [Separator] + JoinOn(Names(prefix) + tail + [last], Separator)
  {
    var mid := Names(prefix) + tail;
    var j := Join([[Separator] + x + [Separator], prefix, [Separator]] + tail);
    assert j == [Separator] + JoinOn([x] + mid, Separator) by { DirPrefixRooted(x, prefix, tail); }
    assert JoinOn([x] + mid, Separator) + [Separator] + last == x + [Separator] + JoinOn(mid + [last], Separator) by {
      JoinOnShift(x, mid, last, Separator);
    }
    ShiftUnderRoot(j, JoinOn([x] + mid, Separator), x, JoinOn(mid + [last], Separator), last);
  }

  /** Join of "/x/", a prefix, "/" and plain identifiers, followed by a
      separator and a last name: rooted, x, the prefix's names, the
      identifiers, then the last name. */
  lemma DirPrefixJoin(x: string, prefix: string, tail: seq<string>, last: string)
    requires PlainSegment(x) && NoParentRefs(prefix)
    requires forall i :: 0 <= i < |tail| ==> PlainSegment(tail[i])
    ensures Join([[Separator] + x + [Separator], prefix, [Separator]] + tail) + [Separator] + last
         == [Separator] + x + [Separator] + JoinOn(Names(prefix) + tail + [last], Separator)
  {
    SegmentsOfPlain(tail);
    DirPrefixJoinCore(x, prefix, tail, last);
  }

  /** Appending a separator and a last name under a leading separator. */
  lemma AppendUnderRoot(path: string, joined: string, last: string, whole: string)
    requires path == [Separator] + joined
    requires whole == joined + [Separator] + last
    ensures path + [Separator] + last == [Separator] + whole
  {
  }

  lemma RootPrefixJoinCore(prefix: string, tail: seq<string>, x: string, last: string)
    requires PlainSegment(x) && NoParentRefs(prefix)
    requires Segments(tail) == tail && AllNoParentRefs(tail)
    ensures Join([[Separator], prefix, [Separator]] + tail + [[Separator] + x]) + [Separator] + last
         == [Separator] + JoinOn(Names(prefix) + tail + [x, last], Separator)
  {
    var front := Names(prefix) + tail + [x];
    assert front + [last] == Names(prefix) + tail + [x, last];
    var j := Join([[Separator], prefix, [Separator]] + tail + [[Separator] + x]);
    assert j == [Separator] + JoinOn(front, Separator) by { RootPrefixRooted(prefix, tail, x); }
    assert JoinOn(front + [last], Separator) == JoinOn(front, Separator) + [Separator] + last by {
      JoinOnAppend(front, [last], Separator);
    }
    AppendUnderRoot(j, JoinOn(front, Separator), last, JoinOn(front + [last], Separator));
  }

  /** Join of "/", a prefix, "/", plain identifiers and "/x", followed by a
      separator and a last name: rooted, the prefix's names, the
      identifiers, x, then the last name. */
  lemma RootPrefixJoin(prefix: string, tail: seq<string>, x: string, last: string)
    requires PlainSegment(x) && NoParentRefs(prefix)
    requires forall i :: 0 <= i < |tail| ==> PlainSegment(tail[i])
    ensures Join([[Separator], prefix, [Separator]] + tail + [[Separator] + x]) + [Separator] + last
         == [Separator] + JoinOn(Names(prefix) + tail + [x, last], Separator)
  {
    SegmentsOfPlain(tail);
    RootPrefixJoinCore(prefix, tail, x, last);
  }

  lemma RootedPairRooted(x: string, y: string, tail: seq<string>)
    requires PlainSegment(x) && PlainSegment(y)
    requires Segments(tail) == tail && AllNoParentRefs(tail)
    ensures Join([[Separator] + x + [Separator] + y] + tail) == [Separator] + JoinOn([x, y] + tail, Separator)
  {
    var route := [Separator] + x + [Separator] + y;
    var elems := [route] + tail;
    assert Names(route) == [x, y] && NoParentRefs(route) by { RootedPairNames(x, y); }
    assert Segments(elems) == [x, y] + tail by { SegmentsCons(route, tail); }
    assert AllNoParentRefs(elems) by { AllNoParentRefsCons(route, tail); }
    RootedJoin(elems);
  }

  /** A leading empty piece joins as a leading separator. */
  lemma LeadingEmptyPiece(parts: seq<string>)
    requires |parts| >= 1
    ensures JoinOn([""] + parts, Separator) == [Separator] + JoinOn(parts, Separator)
  {
    JoinOnCons("", parts, Separator);
    assert "" + [Separator] + JoinOn(parts, Separator) == [Separator] + JoinOn(parts, Separator);
  }

  /** Join of "/x/y" and elements that name themselves: the pieces "", x, y
      and those elements, joined by separators. */
  lemma RootedPairJoin(x: string, y: string, tail: seq<string>)
    requires PlainSegment(x) && PlainSegment(y)
    requires Segments(tail) == tail && AllNoParentRefs(tail)
    ensures Join([[Separator] + x + [Separator] + y] + tail) == JoinOn([""] + ([x, y] + tail), Separator)
  {
    RootedPairRooted(x, y, tail);
    LeadingEmptyPiece([x, y] + tail);
  }

  /** Three joined names in front of a non-empty list. */
  lemma ThreePiecesText(a: string, b: string, c: string, rest: seq<string>)
    requires |rest| >= 1
    ensures JoinOn([a, b, c] + rest, Separator) == a + "/" + b + "/" + c + "/" + JoinOn(rest, Separator)
  {
    var j := JoinOn(rest, Separator);
    var s1 := [c] + rest;
    var s2 := [b] + s1;
    var s3 := [a] + s2;
    assert JoinOn(s1, Separator) == c + [Separator] + j by { JoinOnCons(c, rest, Separator); }
    assert JoinOn(s2, Separator) == b + [Separator] + (c + [Separator] + j) by { JoinOnCons(b, s1, Separator); }
    assert JoinOn(s3, Separator) == a + [Separator] + (b + [Separator] + (c + [Separator] + j)) by {
      JoinOnCons(a, s2, Separator);
    }
    assert [a, b, c] + rest == s3;
    Reassociate(a, b, c, j);
  }

  lemma Reassociate(a: string, b: string, c: string, j: string)
    ensures a + [Separator] + (b + [Separator] + (c + [Separator] + j)) == a + "/" + b + "/" + c + "/" + j
  {
  }

  /** Three names joined by separators. */
  lemma JoinOnThree(a: string, b: string, c: string)
    ensures JoinOn([a, b, c], Separator) == a + "/" + b + "/" + c
  {
    JoinOnCons(b, [c], Separator);
    JoinOnCons(a, [b, c], Separator);
    assert [a] + [b, c] == [a, b, c];
    assert [b] + [c] == [b, c];
    Reassociate3(a, b, c);
  }

  lemma Reassociate3(a: string, b: string, c: string)
    ensures a + [Separator] + (b + [Separator] + c) == a + "/" + b + "/" + c
  {
  }

}
