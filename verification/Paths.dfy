/** Slash-separated paths: the trimming and splitting of Go's strings package. */
module Paths {

  function TrimLeft(path: string): string {
    if path != [] && path[0] == '/' then TrimLeft(path[1..]) else path
  }

  function TrimRight(path: string): string {
    if path != [] && path[|path| - 1] == '/' then TrimRight(path[..|path| - 1]) else path
  }

  /** The part after the last slash. */
  function AfterLastSlash(path: string): string {
    if path == [] || path[|path| - 1] == '/' then []
    else AfterLastSlash(path[..|path| - 1]) + [path[|path| - 1]]
  }

  predicate HasSlash(s: string) {
    '/' in s
  }

  lemma {:induction false} SegmentSplits(path: string) returns (from: nat)
    ensures from <= |path| && path[from..] == AfterLastSlash(path)
    ensures !HasSlash(AfterLastSlash(path)) && (from == 0 || path[from - 1] == '/')
    decreases |path|
  {
    if path == [] || path[|path| - 1] == '/' {
      from := |path|;
    } else {
      var front := path[..|path| - 1];
      from := SegmentSplits(front);
      assert path[from..] == front[from..] + [path[|path| - 1]];
    }
  }

  lemma {:induction false} TrimRightSplits(path: string)
    ensures TrimRight(path) <= path && forall i :: |TrimRight(path)| <= i < |path| ==> path[i] == '/'
    ensures TrimRight(path) != [] ==> TrimRight(path)[|TrimRight(path)| - 1] != '/'
    decreases |path|
  {
    if path != [] && path[|path| - 1] == '/' {
      TrimRightSplits(path[..|path| - 1]);
    }
  }

  lemma {:induction false} TrimLeftSplits(path: string) returns (k: nat)
    ensures k <= |path| && path[k..] == TrimLeft(path) && forall i :: 0 <= i < k ==> path[i] == '/'
    decreases |path|
  {
    if path != [] && path[0] == '/' {
      k := TrimLeftSplits(path[1..]);
      assert path[k + 1..] == path[1..][k..];
      forall i | 0 < i < k + 1 ensures path[i] == '/' {
        assert path[i] == path[1..][i - 1];
      }
      k := k + 1;
    } else {
      k := 0;
    }
  }

  lemma {:induction false} PlainSegment(name: string)
    requires !HasSlash(name)
    ensures AfterLastSlash(name) == name
    decreases |name|
  {
    if name != [] {
      PlainSegment(name[..|name| - 1]);
    }
  }
}
