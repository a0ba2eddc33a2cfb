/** The order of strings by character, as Go's < and the listing of a bucket use it. */
module StringOrder {
  import opened Sorting

  predicate Less(a: string, b: string) {
    b != "" && (a == "" || a[0] < b[0] || (a[0] == b[0] && Less(a[1..], b[1..])))
  }

  lemma {:induction false} LessIrreflexive(a: string)
    ensures !Less(a, a)
  {
    if a != "" {
      LessIrreflexive(a[1..]);
    }
  }

  lemma {:induction false} LessTotal(a: string, b: string)
    requires a != b
    ensures Less(a, b) || Less(b, a)
  {
    if a != "" && b != "" && a[0] == b[0] {
      assert a == [a[0]] + a[1..] && b == [b[0]] + b[1..];
      LessTotal(a[1..], b[1..]);
    }
  }

  lemma {:induction false} LessTransitive(a: string, b: string, c: string)
    requires Less(a, b) && Less(b, c)
    ensures Less(a, c)
  {
    if a != "" && a[0] == b[0] == c[0] {
      LessTransitive(a[1..], b[1..], c[1..]);
    }
  }

  lemma LessIsTotalOrder(s: set<string>)
    ensures StrictTotalOn(Less, s)
  {
    forall a | a in s ensures !Less(a, a) {
      LessIrreflexive(a);
    }
    forall a, b | a in s && b in s && a != b ensures Less(a, b) || Less(b, a) {
      LessTotal(a, b);
    }
    forall a, b, c | a in s && b in s && c in s && Less(a, b) && Less(b, c) ensures Less(a, c) {
      LessTransitive(a, b, c);
    }
  }

  /** The first difference decides, and a proper prefix comes first. */
  ghost predicate DiffersAt(a: string, b: string, n: nat) {
    && n <= |a| && n < |b| && a[..n] == b[..n]
    && (n == |a| || a[n] < b[n])
  }

  lemma {:induction false} LessIsLexicographic(a: string, b: string)
    ensures Less(a, b) <==> exists n: nat :: DiffersAt(a, b, n)
  {
    if a == "" || b == "" || a[0] != b[0] {
      assert DiffersAt(a, b, 0) <==> Less(a, b);
      assert forall n: nat :: DiffersAt(a, b, n) && n > 0 ==> a[..n][0] == b[..n][0];
    } else {
      LessIsLexicographic(a[1..], b[1..]);
      if Less(a, b) {
        var n: nat :| DiffersAt(a[1..], b[1..], n);
        assert a[..n + 1] == [a[0]] + a[1..][..n] && b[..n + 1] == [b[0]] + b[1..][..n];
        assert DiffersAt(a, b, n + 1);
      }
      forall n: nat | DiffersAt(a, b, n) ensures Less(a, b) {
        assert n > 0;
        assert a[1..][..n - 1] == a[..n][1..] && b[1..][..n - 1] == b[..n][1..];
        assert DiffersAt(a[1..], b[1..], n - 1);
      }
    }
  }
}
