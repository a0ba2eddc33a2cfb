/**
 The bucket keys of recordings: written by services/vod-recorder, read back by prefix in
 services/streams. The two services share nothing but this scheme.
 */
module ObjectKeys {
  import opened Common
  import opened Paths
  import opened CleanPath
  import opened Sorting
  import opened StringOrder

  datatype Segment = Segment(path: string, localPath: string)

  /** strings.ContainsAny(s, "/\\") */
  predicate ContainsPathTraversal(s: string) {
    '/' in s || '\\' in s
  }

  /** loadSegment on the values of MTX_PATH and MTX_SEGMENT_PATH, "" if unset. */
  function LoadSegment(path: string, localPath: string): Option<Segment> {
    if path == "" || ContainsPathTraversal(path) || localPath == "" then None
    else Some(Segment(path, localPath))
  }

  /**
   A segment is accepted exactly if both variables are set and the path has neither a slash
   nor a backslash, and then it carries their values.
   */
  lemma AcceptedExactlyWhen(path: string, localPath: string)
    ensures LoadSegment(path, localPath).Some? <==>
            && |path| > 0 && |localPath| > 0
            && forall i :: 0 <= i < |path| ==> path[i] != '/' && path[i] != '\\'
    ensures LoadSegment(path, localPath).Some? ==>
            LoadSegment(path, localPath).value.path == path && LoadSegment(path, localPath).value.localPath == localPath
    ensures forall slug :: ReadableSlug(slug) <==> forall i :: 0 <= i < |slug| ==> slug[i] != '/' && slug[i] != '\\'
  {
  }

  const ROOT: string := "recordings"

  function ObjectKey(seg: Segment): string {
    Join([ROOT, seg.path, Base(seg.localPath)])
  }

  /** What ListRecordings asks the bucket for. */
  function Prefix(slug: string): string {
    Join([ROOT, slug]) + "/"
  }

  /** The slugs newListRecordingsHandler passes on. */
  predicate ReadableSlug(slug: string) {
    !ContainsPathTraversal(slug)
  }

  // ----- the keys, computed -----

  lemma RootIsOrdinary()
    ensures Ordinary(ROOT)
  {
    assert |ROOT| == 10;
    forall i | 0 <= i < |ROOT| ensures ROOT[i] != '/' {
    }
  }

  /** Joining an ordinary first element with a second one that has no slash. */
  lemma JoinTwo(root: string, path: string)
    requires Ordinary(root) && !HasSlash(path)
    ensures Join([root, path]) == if path == "" || path == "." then root
                                  else if path == ".." then "."
                                  else root + "/" + path
  {
    var raw := root + "/" + path;
    FewElements(false, root, path, "");
    SplitAt(root, path);
    SplitPlain(path);
    assert raw[0] == root[0] && root[0] in root;
    assert Absorb(false, [], root) == [root];
    assert path == ".." ==> Absorb(false, [root], path) == [];
  }

  /** Cleaning root/path/name, where only the root is known to be ordinary. */
  function Shape(root: string, path: string, name: string): string {
    if name == "" || name == "." then
      if path == "" || path == "." then root else if path == ".." then "." else root + "/" + path
    else if name == ".." then
      if path == "" || path == "." then "." else if path == ".." then ".." else root
    else
      if path == "" || path == "." then root + "/" + name
      else if path == ".." then name
      else root + "/" + path + "/" + name
  }

  /** A relative path of these elements. */
  function Relative(es: seq<string>): string {
    if Glue(es) == "" then "." else Glue(es)
  }

  lemma CleanOfThree(root: string, path: string, name: string)
    requires Ordinary(root) && !HasSlash(path) && !HasSlash(name)
    ensures Clean(root + "/" + path + "/" + name) == Relative(Absorb(false, Absorb(false, [root], path), name))
  {
    var raw := root + "/" + path + "/" + name;
    FewElements(false, root, path, name);
    SplitThree(root, path, name);
    assert raw[0] == root[0] && root[0] in root;
    assert Absorb(false, [], root) == [root];
  }

  lemma CleanThree(root: string, path: string, name: string)
    requires Ordinary(root) && !HasSlash(path) && !HasSlash(name)
    ensures Clean(root + "/" + path + "/" + name) == Shape(root, path, name)
  {
    CleanOfThree(root, path, name);
    FewElements(false, root, path, name);
    FewElements(false, root, name, "");
    if path == "" || path == "." {
      AbsorbLast([root], name);
      assert [root] + [name] == [root, name];
    } else if path == ".." {
      assert Absorb(false, [root], path) == [];
      AbsorbLast([], name);
      assert [] + [name] == [name];
    } else {
      assert Absorb(false, [root], path) == [root, path];
      AbsorbLast([root, path], name);
      assert [root, path][..1] == [root];
      assert [root, path] + [name] == [root, path, name];
    }
  }

  lemma AbsorbLast(kept: seq<string>, name: string)
    requires kept == [] || kept[|kept| - 1] != ".."
    ensures Absorb(false, kept, name) == if name == "" || name == "." then kept
                                         else if name != ".." then kept + [name]
                                         else if kept == [] then [".."]
                                         else kept[..|kept| - 1]
  {
  }

  /** The third element may also be the single slash that is the base name of a root directory. */
  lemma JoinThree(root: string, path: string, name: string)
    requires Ordinary(root) && !HasSlash(path) && (name == "/" || !HasSlash(name))
    ensures Join([root, path, name]) == Shape(root, path, if name == "/" then "" else name)
  {
    FewElements(false, root, path, name);
    if name == "/" {
      CleanSlashEnd(root + "/" + path + "/");
      assert root + "/" + path + "/" + "" == root + "/" + path + "/";
      CleanThree(root, path, "");
    } else {
      CleanThree(root, path, name);
    }
  }

  lemma SplitThree(a: string, b: string, c: string)
    requires !HasSlash(a) && !HasSlash(b) && !HasSlash(c)
    ensures Split(a + "/" + b + "/" + c) == [a, b, c]
  {
    assert a + "/" + b + "/" + c == a + "/" + (b + "/" + c);
    SplitAt(a, b + "/" + c);
    SplitAt(b, c);
    SplitPlain(c);
  }

  /** The key of a segment, for every path without a slash and every local path. */
  lemma KeyShape(path: string, localPath: string)
    requires !HasSlash(path)
    ensures var name := Base(localPath);
            ObjectKey(Segment(path, localPath)) == Shape(ROOT, path, if name == "/" then "" else name)
  {
    RootIsOrdinary();
    BaseIsOneElement(localPath);
    JoinThree(ROOT, path, Base(localPath));
  }

  lemma PrefixShape(slug: string)
    requires !HasSlash(slug)
    ensures Prefix(slug) == if slug == "" || slug == "." then ROOT + "/"
                            else if slug == ".." then "./"
                            else ROOT + "/" + slug + "/"
  {
    RootIsOrdinary();
    JoinTwo(ROOT, slug);
  }

  // ----- prefixes -----

  lemma CommonRoot(root: string, x: string, y: string)
    ensures root + x <= root + y <==> x <= y
  {
    if root + x <= root + y {
      assert x == (root + x)[|root|..] && y == (root + y)[|root|..];
      assert forall i :: 0 <= i < |x| ==> x[i] == (root + x)[|root| + i] == (root + y)[|root| + i] == y[i];
    }
  }

  /** A slash-free name ended by a slash is a prefix only of itself. */
  lemma NamePrefix(s: string, w: string, rest: string)
    requires !HasSlash(s) && !HasSlash(w)
    ensures s + "/" <= w + "/" + rest <==> s == w
    ensures !(s + "/" <= w)
  {
    var x, y := s + "/", w + "/" + rest;
    if x <= y {
      var tail := y[|x|..];
      assert y == s + "/" + tail;
      SplitAt(s, tail);
      SplitAt(w, rest);
      assert s == Split(y)[0] == w;
    }
    assert x[|s|] == '/';
    PrefixHas(x, w, '/');
  }

  lemma PrefixHas(x: string, y: string, c: char)
    ensures x <= y && c in x ==> c in y
  {
  }

  /**
   For everything the uploader accepts and every slug the reader passes on, exactly when
   a segment is listed. Neither guard excludes "." and "..", so the two sides agree only
   apart from these and from base names that are no file names.
   */
  lemma ListedExactlyWhen(path: string, localPath: string, slug: string)
    requires LoadSegment(path, localPath).Some? && ReadableSlug(slug)
    ensures var name := Base(localPath);
            Prefix(slug) <= ObjectKey(LoadSegment(path, localPath).value) <==>
              if slug == "" || slug == "." then path != ".." && (Ordinary(name) || (path != "." && name != ".."))
              else path == slug && slug != ".." && Ordinary(name)
  {
    KeyShape(path, localPath);
    PrefixShape(slug);
    BaseIsOneElement(localPath);
    var name := if Base(localPath) == "/" then "" else Base(localPath);
    if slug == ".." {
      NeverUnderDot(path, name);
    } else if slug == "" || slug == "." {
      UnderRoot(path, name);
    } else {
      UnderSlug(path, name, slug);
    }
  }

  /** Elements of a cleaned path: the base name of a file, or one that cleaning removes. */
  predicate Element(name: string) {
    Ordinary(name) || name == "" || name == "." || name == ".."
  }

  lemma NeverUnderDot(path: string, name: string)
    requires !HasSlash(path) && path != "" && Element(name)
    ensures !("./" <= Shape(ROOT, path, name))
  {
    var key := Shape(ROOT, path, name);
    if path == ".." && Ordinary(name) {
      NamePrefix(".", name, "");
    } else if key == "." || key == ".." {
      assert "./"[1] == '/' && (|key| < 2 || key[1] == '.');
    } else {
      assert key[0] == ROOT[0] && "./"[0] == '.';
    }
  }

  lemma UnderRoot(path: string, name: string)
    requires !HasSlash(path) && path != "" && Element(name)
    ensures ROOT + "/" <= Shape(ROOT, path, name) <==>
            path != ".." && (Ordinary(name) || (path != "." && name != ".."))
  {
    RootIsOrdinary();
    var key := Shape(ROOT, path, name);
    if HasSlash(key) {
      assert ROOT + "/" <= key;
    } else {
      NamePrefix(ROOT, key, "");
    }
  }

  lemma UnderSlug(path: string, name: string, slug: string)
    requires !HasSlash(path) && path != "" && Element(name)
    requires !HasSlash(slug) && slug != "" && slug != "." && slug != ".."
    ensures ROOT + "/" + slug + "/" <= Shape(ROOT, path, name) <==> path == slug && Ordinary(name)
  {
    RootIsOrdinary();
    var root := ROOT + "/";
    var key := Shape(ROOT, path, name);
    assert ROOT + "/" + slug + "/" == root + (slug + "/");
    if path == ".." || (path == "." && !Ordinary(name)) || name == ".." {
      NamePrefix(ROOT, key, "");
      assert root <= ROOT + "/" + slug + "/";
    } else if path == "." {
      CommonRoot(root, slug + "/", name);
      NamePrefix(slug, name, "");
    } else if Ordinary(name) {
      assert key == root + (path + "/" + name);
      CommonRoot(root, slug + "/", path + "/" + name);
      NamePrefix(slug, path, name);
    } else {
      CommonRoot(root, slug + "/", path);
      NamePrefix(slug, path, "");
    }
  }

  /** The reader's view of one slug is the writer's, for every accepted segment. */
  ghost predicate Agrees(slug: string) {
    forall path, localPath :: LoadSegment(path, localPath).Some? && Ordinary(Base(localPath)) ==>
      (Prefix(slug) <= ObjectKey(LoadSegment(path, localPath).value) <==> path == slug)
  }

  /** Writer and reader agree on a slug if and only if it is not empty, "." or "..". */
  lemma AgreementExactlyWhen(slug: string)
    requires ReadableSlug(slug)
    ensures Agrees(slug) <==> slug != "" && slug != "." && slug != ".."
  {
    forall path, localPath | LoadSegment(path, localPath).Some? && Ordinary(Base(localPath))
      ensures Prefix(slug) <= ObjectKey(LoadSegment(path, localPath).value) <==>
              path != ".." && (slug == "" || slug == "." || slug == path)
    {
      ListedExactlyWhen(path, localPath, slug);
    }
    if slug == "" || slug == "." || slug == ".." {
      AgreementFails(slug);
    }
  }

  /** A recording of another path is listed, or the slug's own one is not. */
  lemma AgreementFails(slug: string)
    requires slug == "" || slug == "." || slug == ".."
    ensures !Agrees(slug)
  {
    var path := if slug == ".." then ".." else "a";
    FileNamedA();
    ListedExactlyWhen(path, "a", slug);
  }

  lemma FileNamedA()
    ensures Ordinary(Base("a")) && LoadSegment("a", "a").Some? && LoadSegment("..", "a").Some?
  {
    PlainSegment("a");
    assert TrimRight("a") == "a";
  }

  /** The elements of a key give back the path and the file name. */
  lemma KeyElements(path: string, localPath: string)
    requires path != "" && !HasSlash(path) && Ordinary(Base(localPath))
    ensures Split(ObjectKey(Segment(path, localPath))) ==
              if path == "." then [ROOT, Base(localPath)]
              else if path == ".." then [Base(localPath)]
              else [ROOT, path, Base(localPath)]
  {
    RootIsOrdinary();
    var name := Base(localPath);
    KeyShape(path, localPath);
    SplitPlain(name);
    SplitAt(ROOT, name);
    SplitThree(ROOT, path, name);
  }

  /** Accepted segments with different paths or different file names never share a key. */
  lemma KeysAreInjective(a: Segment, b: Segment)
    requires LoadSegment(a.path, a.localPath) == Some(a) && Ordinary(Base(a.localPath))
    requires LoadSegment(b.path, b.localPath) == Some(b) && Ordinary(Base(b.localPath))
    requires ObjectKey(a) == ObjectKey(b)
    ensures a.path == b.path && Base(a.localPath) == Base(b.localPath)
  {
    KeyElements(a.path, a.localPath);
    KeyElements(b.path, b.localPath);
    var x, y := Split(ObjectKey(a)), Split(ObjectKey(b));
    assert x[|x| - 1] == y[|y| - 1];
    if |x| == 3 {
      assert x[1] == y[1];
    }
  }

  /** The file name MediaMTX gives a segment, in whatever directory, is its base name. */
  lemma BaseOfFile(dir: string, name: string)
    requires Ordinary(name)
    ensures Base(dir + "/" + name) == name
  {
    var path := dir + "/" + name;
    assert name[|name| - 1] in name;
    assert path[|path| - 1] == name[|name| - 1] != '/';
    assert TrimRight(path) == path;
    AfterSlash(dir, name);
  }

  lemma {:induction false} AfterSlash(dir: string, name: string)
    requires !HasSlash(name)
    ensures AfterLastSlash(dir + "/" + name) == name
    decreases |name|
  {
    var path := dir + "/" + name;
    if name == "" {
      assert path[|path| - 1] == '/';
    } else {
      var front := name[..|name| - 1];
      assert path[..|path| - 1] == dir + "/" + front;
      assert path[|path| - 1] == name[|name| - 1] && name[|name| - 1] in name;
      AfterSlash(dir, front);
    }
  }

  /** In the ordinary case: recordings/<path>/<file>, and recordings/<slug>/ to list it. */
  lemma OrdinaryKey(path: string, dir: string, file: string)
    requires Ordinary(path) && Ordinary(file)
    ensures ObjectKey(Segment(path, dir + "/" + file)) == "recordings/" + path + "/" + file
    ensures Prefix(path) == "recordings/" + path + "/"
  {
    BaseOfFile(dir, file);
    KeyShape(path, dir + "/" + file);
    PrefixShape(path);
    assert ROOT + "/" == "recordings/";
  }

  // ----- uploading and listing -----

  /** PutObject of each segment in turn into an empty bucket. */
  function UploadAll(segs: seq<Segment>): map<string, Segment> {
    if segs == [] then map[]
    else var last := segs[|segs| - 1]; UploadAll(segs[..|segs| - 1])[ObjectKey(last) := last]
  }

  /** What the bucket holds under a prefix. */
  function Listed(bucket: map<string, Segment>, prefix: string): set<string> {
    set key | key in bucket && prefix <= key
  }

  lemma {:induction false} UploadedKeys(segs: seq<Segment>)
    ensures UploadAll(segs).Keys == set seg | seg in segs :: ObjectKey(seg)
    decreases |segs|
  {
    if segs != [] {
      var before, last := segs[..|segs| - 1], segs[|segs| - 1];
      UploadedKeys(before);
      assert segs == before + [last];
    }
  }

  /** The keys of the segments recorded under a path. */
  function KeysOf(segs: seq<Segment>, path: string): set<string> {
    set seg | seg in segs && seg.path == path && Ordinary(Base(seg.localPath)) :: ObjectKey(seg)
  }

  /** Round trip: listing a slug finds exactly the keys of the segments recorded under that path. */
  lemma ListingFindsOwnSegments(segs: seq<Segment>, slug: string)
    requires forall seg :: seg in segs ==> LoadSegment(seg.path, seg.localPath) == Some(seg)
    requires ReadableSlug(slug) && slug != "" && slug != "." && slug != ".."
    ensures Listed(UploadAll(segs), Prefix(slug)) == KeysOf(segs, slug)
  {
    UploadedKeys(segs);
    forall seg | seg in segs
      ensures Prefix(slug) <= ObjectKey(seg) <==> seg.path == slug && Ordinary(Base(seg.localPath))
    {
      ListedExactlyWhen(seg.path, seg.localPath, slug);
    }
  }

  // ----- reading page by page -----

  /** The keys with this prefix, in the order of the server's index. */
  function Under(index: seq<string>, prefix: string): seq<string> {
    if index == [] then []
    else (if prefix <= index[0] then [index[0]] else []) + Under(index[1..], prefix)
  }

  lemma {:induction false} UnderHas(index: seq<string>, prefix: string)
    ensures Elements(Under(index, prefix)) == set key | key in index && prefix <= key
  {
    if index != [] {
      UnderHas(index[1..], prefix);
      assert index == [index[0]] + index[1..];
      forall key ensures key in Under(index, prefix) <==> key in index && prefix <= key {
        assert key in Elements(Under(index[1..], prefix)) <==> key in index[1..] && prefix <= key;
      }
    }
  }

  lemma {:induction false} UnderIsSelection(index: seq<string>, prefix: string)
    requires Ascending(Less, index)
    ensures Ascending(Less, Under(index, prefix))
    ensures Elements(Under(index, prefix)) == set key | key in index && prefix <= key
  {
    if index != [] {
      UnderIsSelection(index[1..], prefix);
      UnderHas(index, prefix);
      var rest := Under(index[1..], prefix);
      forall i | 0 <= i < |rest| ensures Less(index[0], rest[i]) {
        assert rest[i] in Elements(rest);
      }
    }
  }

  /**
   Through the pages too, the reader gets back what the recorder wrote: the objects listed
   for a slug are the keys of its own segments, each once, in ascending order.
   */
  lemma ListingReadsBackRecordings(segs: seq<Segment>, index: seq<string>, slug: string)
    requires forall seg :: seg in segs ==> LoadSegment(seg.path, seg.localPath) == Some(seg)
    requires ReadableSlug(slug) && slug != "" && slug != "." && slug != ".."
    requires Ascending(Less, index) && Elements(index) == UploadAll(segs).Keys
    ensures Elements(Under(index, Prefix(slug))) == KeysOf(segs, slug)
    ensures Ascending(Less, Under(index, Prefix(slug)))
  {
    UnderIsSelection(index, Prefix(slug));
    ListingFindsOwnSegments(segs, slug);
    forall key ensures key in index <==> key in UploadAll(segs) {
      assert key in Elements(index) <==> key in UploadAll(segs).Keys;
    }
  }

  /** How many pages the server needs for n keys; a page without keys is one too. */
  function PageCount(n: int, pageSize: int): (count: nat)
    requires pageSize > 0
    ensures count >= 1
  {
    if n <= pageSize then 1 else 1 + PageCount(n - pageSize, pageSize)
  }

  /** One answer: the keys after the first token ones, and whether more follow. */
  function Fetch(keys: seq<string>, token: nat, pageSize: nat): (page: (seq<string>, bool))
    requires token <= |keys|
    ensures page.1 <==> |keys| - token > pageSize
    ensures |page.0| == if page.1 then pageSize else |keys| - token
    ensures keys[..token] + page.0 == keys[..token + |page.0|]
  {
    if |keys| - token <= pageSize then (keys[token..], false) else (keys[token..token + pageSize], true)
  }

  method AppendAll(objects: seq<string>, contents: seq<string>) returns (all: seq<string>)
    ensures all == objects + contents
  {
    all := objects;
    for i := 0 to |contents|
      invariant all == objects + contents[..i]
    {
      all := all + [contents[i]];
    }
  }

  /**
   ListRecordings: the page loop over the bucket with this index; fails(i) says whether
   the i-th page cannot be fetched. The answer is an error exactly if one of the pages
   there are fails, and otherwise every key with the prefix of the slug, in order.
   */
  method ListRecordings(index: seq<string>, slug: string, pageSize: nat, fails: nat -> bool)
    returns (keys: Option<seq<string>>)
    requires pageSize > 0
    ensures keys.None? <==> exists i: nat :: i < PageCount(|Under(index, Prefix(slug))|, pageSize) && fails(i)
    ensures keys.Some? ==> keys.value == Under(index, Prefix(slug))
  {
    var found := Under(index, Prefix(slug));
    keys := ReadPages(found, pageSize, fails);
  }

  method ReadPages(found: seq<string>, pageSize: nat, fails: nat -> bool) returns (keys: Option<seq<string>>)
    requires pageSize > 0
    ensures keys.None? <==> exists i: nat :: i < PageCount(|found|, pageSize) && fails(i)
    ensures keys.Some? ==> keys.value == found
  {
    var objects, pages, hasMorePages := [], 0, true;
    while hasMorePages
      invariant |objects| <= |found| && objects == found[..|objects|]
      invariant !hasMorePages ==> |objects| == |found| && pages == PageCount(|found|, pageSize)
      invariant hasMorePages ==> PageCount(|found|, pageSize) == pages + PageCount(|found| - |objects|, pageSize)
      invariant forall i: nat :: i < pages ==> !fails(i)
      decreases hasMorePages, |found| - |objects|
    {
      if fails(pages) {
        return None;
      }
      var page := Fetch(found, |objects|, pageSize);
      objects := AppendAll(objects, page.0);
      hasMorePages := page.1;
      pages := pages + 1;
    }
    keys := Some(objects);
  }
}
