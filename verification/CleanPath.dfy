/** Go's path.Clean and path.Join, and filepath.Base where the separator is a slash. */
module CleanPath {
  import opened Paths

  /** The elements between slashes, empty ones included. */
  function Split(path: string): (es: seq<string>)
    ensures es != []
  {
    if path == "" then [""]
    else
      var es := Split(path[1..]);
      if path[0] == '/' then [""] + es else [[path[0]] + es[0]] + es[1..]
  }

  function Glue(es: seq<string>): string {
    if es == [] then "" else if |es| == 1 then es[0] else es[0] + "/" + Glue(es[1..])
  }

  /** One element after the ones kept so far: drop empty ones and ".", let ".." undo its predecessor. */
  function Absorb(rooted: bool, kept: seq<string>, e: string): seq<string> {
    if e == "" || e == "." then kept
    else if e != ".." then kept + [e]
    else if kept != [] && kept[|kept| - 1] != ".." then kept[..|kept| - 1]
    else if rooted then kept
    else kept + [".."]
  }

  function Reduce(rooted: bool, kept: seq<string>, es: seq<string>): seq<string>
    decreases es
  {
    if es == [] then kept else Reduce(rooted, Absorb(rooted, kept, es[0]), es[1..])
  }

  predicate Rooted(path: string) {
    path != "" && path[0] == '/'
  }

  function Clean(path: string): string {
    var body := Glue(Reduce(Rooted(path), [], Split(path)));
    if Rooted(path) then "/" + body else if body == "" then "." else body
  }

  /** The elements with slashes between them, leading empty ones skipped. */
  function JoinRaw(buffer: string, elems: seq<string>): string
    decreases elems
  {
    if elems == [] then buffer
    else if buffer != "" then JoinRaw(buffer + "/" + elems[0], elems[1..])
    else JoinRaw(elems[0], elems[1..])
  }

  function Join(elems: seq<string>): string {
    var raw := JoinRaw("", elems);
    if raw == "" then "" else Clean(raw)
  }

  function Base(path: string): string {
    if path == "" then "."
    else if TrimRight(path) == "" then "/"
    else AfterLastSlash(TrimRight(path))
  }

  // ----- a few elements -----

  lemma Tails<T>(a: T, b: T, c: T)
    ensures [a, b, c][1..] == [b, c] && [b, c][1..] == [c] && [c][1..] == [] && [a, b][1..] == [b] && [b][1..] == []
  {
  }

  lemma FewJoined(a: string, b: string, c: string)
    requires a != ""
    ensures JoinRaw("", [a, b]) == a + "/" + b && JoinRaw("", [a, b, c]) == a + "/" + b + "/" + c
  {
    Tails(a, b, c);
    assert JoinRaw("", [a, b]) == JoinRaw(a, [b]) == JoinRaw(a + "/" + b, []);
    assert JoinRaw("", [a, b, c]) == JoinRaw(a, [b, c]) == JoinRaw(a + "/" + b, [c])
        == JoinRaw(a + "/" + b + "/" + c, []);
  }

  lemma FewGlued(a: string, b: string, c: string)
    ensures Glue([a, b]) == a + "/" + b && Glue([a, b, c]) == a + "/" + b + "/" + c
  {
    Tails(a, b, c);
    assert Glue([b, c]) == b + "/" + Glue([c]);
    assert a + "/" + (b + "/" + c) == a + "/" + b + "/" + c;
  }

  lemma FewReduced(rooted: bool, a: string, b: string, c: string)
    ensures Reduce(rooted, [], [a, b]) == Absorb(rooted, Absorb(rooted, [], a), b)
    ensures Reduce(rooted, [], [a, b, c]) == Absorb(rooted, Absorb(rooted, Absorb(rooted, [], a), b), c)
  {
    Tails(a, b, c);
    var k := Absorb(rooted, [], a);
    var k' := Absorb(rooted, k, b);
    assert Reduce(rooted, k, [b]) == Reduce(rooted, k', []) == k';
    assert Reduce(rooted, k, [b, c]) == Reduce(rooted, k', [c]) == Reduce(rooted, Absorb(rooted, k', c), []);
  }

  lemma FewElements(rooted: bool, a: string, b: string, c: string)
    ensures a != "" ==> JoinRaw("", [a, b]) == a + "/" + b
    ensures a != "" ==> JoinRaw("", [a, b, c]) == a + "/" + b + "/" + c
    ensures Glue([a, b]) == a + "/" + b && Glue([a, b, c]) == a + "/" + b + "/" + c
    ensures Reduce(rooted, [], [a, b]) == Absorb(rooted, Absorb(rooted, [], a), b)
    ensures Reduce(rooted, [], [a, b, c]) == Absorb(rooted, Absorb(rooted, Absorb(rooted, [], a), b), c)
  {
    if a != "" {
      FewJoined(a, b, c);
    }
    FewGlued(a, b, c);
    FewReduced(rooted, a, b, c);
  }

  // ----- splitting and gluing -----

  lemma {:induction false} SplitPlain(e: string)
    requires !HasSlash(e)
    ensures Split(e) == [e]
  {
    if e != "" {
      SplitPlain(e[1..]);
      assert e == [e[0]] + e[1..];
    }
  }

  lemma {:induction false} SplitAt(e: string, rest: string)
    requires !HasSlash(e)
    ensures Split(e + "/" + rest) == [e] + Split(rest)
  {
    var path := e + "/" + rest;
    if e == "" {
      assert path[1..] == rest;
    } else {
      assert path[1..] == e[1..] + "/" + rest;
      SplitAt(e[1..], rest);
      assert e == [e[0]] + e[1..];
    }
  }

  /** Elements that survive cleaning. */
  predicate Ordinary(e: string) {
    e != "" && e != "." && e != ".." && !HasSlash(e)
  }

  /** What Reduce leaves: ordinary elements after, in a relative path, some "..". */
  ghost predicate Normal(rooted: bool, es: seq<string>) {
    && (forall i :: 0 <= i < |es| ==> Ordinary(es[i]) || (!rooted && es[i] == ".."))
    && (forall i :: 0 < i < |es| && es[i] == ".." ==> es[i - 1] == "..")
  }

  lemma {:induction false} ReduceIsNormal(rooted: bool, kept: seq<string>, es: seq<string>)
    requires Normal(rooted, kept) && forall e :: e in es ==> !HasSlash(e)
    ensures Normal(rooted, Reduce(rooted, kept, es))
    decreases |es|
  {
    if es != [] {
      assert es[0] in es;
      ReduceIsNormal(rooted, Absorb(rooted, kept, es[0]), es[1..]);
    }
  }

  lemma {:induction false} ReduceKeepsNormal(rooted: bool, kept: seq<string>, es: seq<string>)
    requires Normal(rooted, kept + es)
    ensures Reduce(rooted, kept, es) == kept + es
    decreases |es|
  {
    if es != [] {
      assert (kept + es)[|kept|] == es[0];
      if es[0] == ".." && kept != [] {
        assert (kept + es)[|kept| - 1] == "..";
      }
      assert Absorb(rooted, kept, es[0]) == kept + [es[0]];
      assert kept + es == (kept + [es[0]]) + es[1..];
      ReduceKeepsNormal(rooted, kept + [es[0]], es[1..]);
    }
  }

  lemma {:induction false} SplitHasNoSlash(path: string)
    ensures forall e :: e in Split(path) ==> !HasSlash(e)
  {
    if path != "" {
      SplitHasNoSlash(path[1..]);
      var es := Split(path[1..]);
      assert es[0] in es;
      assert es == [es[0]] + es[1..];
    }
  }

  lemma {:induction false} SplitGlue(es: seq<string>)
    requires es != [] && forall e :: e in es ==> !HasSlash(e)
    ensures Split(Glue(es)) == es
    decreases |es|
  {
    assert es[0] in es;
    if |es| == 1 {
      SplitPlain(es[0]);
    } else {
      SplitGlue(es[1..]);
      SplitAt(es[0], Glue(es[1..]));
    }
  }

  lemma GlueStart(es: seq<string>)
    requires es != [] && es[0] != "" && !HasSlash(es[0])
    ensures Glue(es) != "" && !Rooted(Glue(es))
  {
    assert Glue(es)[0] == es[0][0] && es[0][0] in es[0];
  }

  /** Cleaning changes nothing about a path made of normal elements. */
  lemma CleanRelative(es: seq<string>)
    requires es != [] && Normal(false, es)
    ensures Clean(Glue(es)) == Glue(es)
  {
    NormalHasNoSlash(false, es);
    SplitGlue(es);
    GlueStart(es);
    ReduceKeepsNormal(false, [], es);
    assert [] + es == es;
  }

  lemma CleanRooted(es: seq<string>)
    requires es != [] && Normal(true, es)
    ensures Clean("/" + Glue(es)) == "/" + Glue(es)
  {
    NormalHasNoSlash(true, es);
    SplitGlue(es);
    SplitAt("", Glue(es));
    assert "" + "/" + Glue(es) == "/" + Glue(es);
    assert ([""] + es)[1..] == es;
    assert Reduce(true, [], [""] + es) == Reduce(true, [], es);
    ReduceKeepsNormal(true, [], es);
    assert [] + es == es;
  }

  lemma NormalHasNoSlash(rooted: bool, es: seq<string>)
    requires Normal(rooted, es)
    ensures forall e :: e in es ==> e != "" && !HasSlash(e)
  {
  }

  /** Cleaning twice is cleaning once. */
  lemma CleanIsIdempotent(path: string)
    ensures Clean(Clean(path)) == Clean(path)
  {
    var es := Reduce(Rooted(path), [], Split(path));
    SplitHasNoSlash(path);
    ReduceIsNormal(Rooted(path), [], Split(path));
    if es == [] {
      CleanTrivial();
    } else if Rooted(path) {
      CleanRooted(es);
    } else {
      NormalHasNoSlash(false, es);
      GlueStart(es);
      CleanRelative(es);
    }
  }

  lemma CleanTrivial()
    ensures Clean("/") == "/" && Clean(".") == "."
  {
    SplitAt("", "");
    assert "" + "/" + "" == "/";
    SplitPlain(".");
    assert Reduce(true, [], ["", ""]) == Reduce(true, [], [""]) == [];
  }

  // ----- a trailing slash -----

  lemma {:induction false} SplitSlashEnd(path: string)
    ensures Split(path + "/") == Split(path) + [""]
  {
    if path == "" {
      assert "" + "/" == "/" && "/"[1..] == "";
    } else {
      assert (path + "/")[1..] == path[1..] + "/";
      SplitSlashEnd(path[1..]);
    }
  }

  lemma {:induction false} ReduceEmptyEnd(rooted: bool, kept: seq<string>, es: seq<string>)
    ensures Reduce(rooted, kept, es + [""]) == Reduce(rooted, kept, es)
    decreases |es|
  {
    if es == [] {
      assert es + [""] == [""] && [""][1..] == [];
    } else {
      assert (es + [""])[1..] == es[1..] + [""];
      ReduceEmptyEnd(rooted, Absorb(rooted, kept, es[0]), es[1..]);
    }
  }

  lemma CleanSlashEnd(path: string)
    requires path != ""
    ensures Clean(path + "/") == Clean(path)
  {
    SplitSlashEnd(path);
    ReduceEmptyEnd(Rooted(path), [], Split(path));
    assert (path + "/")[0] == path[0];
  }

  /** Above the root is the root. */
  lemma NothingAboveRoot(path: string)
    ensures Clean("/../" + path) == Clean("/" + path)
  {
    assert !HasSlash("") && !HasSlash("..");
    SplitAt("..", path);
    SplitAt("", path);
    SplitAt("", ".." + "/" + path);
    assert "/../" + path == "" + "/" + (".." + "/" + path);
    assert "/" + path == "" + "/" + path;
    var es := Split(path);
    assert (["", ".."] + es)[1..] == [".."] + es && ([".."] + es)[1..] == es && ([""] + es)[1..] == es;
    assert [""] + ([".."] + es) == ["", ".."] + es;
    assert Reduce(true, [], ["", ".."] + es) == Reduce(true, [], [".."] + es) == Reduce(true, [], es);
  }

  /** What the empty cases come to. */
  lemma EmptyCases()
    ensures Clean("") == "." && Base("") == "." && Base("/") == "/" && Join([]) == "" && Join([""]) == ""
  {
    assert [""][1..] == [];
    assert Split("") == [""] && Reduce(false, [], [""]) == Reduce(false, [], []) == [];
    assert TrimRight("/") == TrimRight("") == "";
    assert JoinRaw("", [""]) == JoinRaw("", []) == "";
  }

  /** Base names have no slash, except "/" itself, and are never empty. */
  lemma BaseIsOneElement(path: string)
    ensures Base(path) != "" && (Base(path) != "/" ==> !HasSlash(Base(path)))
  {
    if path != "" && TrimRight(path) != "" {
      TrimRightSplits(path);
      var from := SegmentSplits(TrimRight(path));
    } else {
      assert "."[0] == '.';
    }
  }
}
