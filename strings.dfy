/** The parts of Go's string and path libraries that the farm relies on:
    strings.HasPrefix, strings.TrimPrefix, the built-in ordering `<` on
    strings, and filepath.Join (kept uninterpreted). */
module Strings {

  /** strings.HasPrefix(s, prefix) */
  predicate HasPrefix(s: string, prefix: string) {
    |prefix| <= |s| && s[..|prefix|] == prefix
  }

  /** `p` is a proper prefix of `s` */
  predicate IsStrictPrefix(p: string, s: string) {
    |p| < |s| && s[..|p|] == p
  }

  /** `dir` names a directory that contains `path`: `path` is `dir`, a
      separator, and something more. */
  predicate IsAncestor(dir: string, path: string) {
    |dir| + 1 < |path| && path[..|dir|] == dir && path[|dir|] == '/'
  }

  /** strings.TrimPrefix(s, prefix): `s` without `prefix` when it starts
      with it, `s` unchanged otherwise. */
  function TrimPrefix(s: string, prefix: string): (r: string)
    ensures HasPrefix(s, prefix) ==> prefix + r == s
    ensures !HasPrefix(s, prefix) ==> r == s
    ensures r == [] <==> s == prefix || s == []
  {
    if HasPrefix(s, prefix) then s[|prefix|..] else s
  }

  /** Lexicographic order, stated directly: `a` is a proper prefix of `b`,
      or at the first position where they differ `a` has the smaller
      character. */
  predicate LexLess(a: string, b: string) {
    IsStrictPrefix(a, b) || exists i :: 0 <= i < |a| && SmallerAt(a, b, i)
  }

  /** `a` and `b` agree before position `i`, where `a` has the smaller
      character. */
  predicate SmallerAt(a: string, b: string, i: int) {
    0 <= i < |a| && i < |b| && a[..i] == b[..i] && a[i] < b[i]
  }

  /** How LexLess looks at the first characters of two non-empty strings. */
  lemma LexLessStep(a: string, b: string)
    requires |a| > 0 && |b| > 0
    ensures a[0] != b[0] ==> (LexLess(a, b) <==> a[0] < b[0])
    ensures a[0] == b[0] ==> (LexLess(a, b) <==> LexLess(a[1..], b[1..]))
  {
    if a[0] != b[0] {
      if a[0] < b[0] {
        assert SmallerAt(a, b, 0);
      }
    } else {
      LexLessTail(a, b);
    }
  }

  /** Two strings that start alike compare as their tails do. */
  lemma LexLessTail(a: string, b: string)
    requires |a| > 0 && |b| > 0 && a[0] == b[0]
    ensures LexLess(a, b) <==> LexLess(a[1..], b[1..])
  {
    if IsStrictPrefix(a, b) {
      assert b[1..][..|a| - 1] == b[1..|a|] == b[..|a|][1..];
    }
    if IsStrictPrefix(a[1..], b[1..]) {
      assert b[..|a|] == [b[0]] + b[1..][..|a| - 1];
    }
    if i :| 0 <= i < |a| && SmallerAt(a, b, i) {
      if i == 0 {
        assert false;
      }
      assert a[1..][..i - 1] == a[1..i] == a[..i][1..];
      assert b[1..][..i - 1] == b[1..i] == b[..i][1..];
      assert SmallerAt(a[1..], b[1..], i - 1);
    }
    if i :| 0 <= i < |a| - 1 && SmallerAt(a[1..], b[1..], i) {
      assert a[..i + 1] == [a[0]] + a[1..][..i];
      assert b[..i + 1] == [b[0]] + b[1..][..i];
      assert SmallerAt(a, b, i + 1);
    }
  }

  /** Go's `a < b` on strings. Go compares the UTF-8 bytes; UTF-8 encoding
      preserves the order of code points, so comparing characters one by one
      gives the same answer. A proper prefix is smaller than its extensions. */
  function Less(a: string, b: string): (r: bool)
    ensures r <==> LexLess(a, b)
    decreases |a|
  {
    if |a| == 0 then |b| > 0
    else if |b| == 0 then false
    else
      LexLessStep(a, b);
      if a[0] != b[0] then a[0] < b[0]
      else Less(a[1..], b[1..])
  }

  lemma {:induction false} LessIrreflexive(a: string)
    ensures !Less(a, a)
    decreases |a|
  {
    if |a| > 0 {
      LessIrreflexive(a[1..]);
    }
  }

  lemma {:induction false} LessAsymmetric(a: string, b: string)
    ensures Less(a, b) ==> !Less(b, a)
    decreases |a|
  {
    if |a| > 0 && |b| > 0 && a[0] == b[0] {
      LessAsymmetric(a[1..], b[1..]);
    }
  }

  lemma {:induction false} LessTransitive(a: string, b: string, c: string)
    requires Less(a, b) && Less(b, c)
    ensures Less(a, c)
    decreases |a|
  {
    if |a| > 0 && a[0] == b[0] && b[0] == c[0] {
      LessTransitive(a[1..], b[1..], c[1..]);
    }
  }

  /** Go's string order is total: two different strings are ordered one way
      or the other. */
  lemma {:induction false} LessTotal(a: string, b: string)
    ensures a == b || Less(a, b) || Less(b, a)
    decreases |a|
  {
    if |a| > 0 && |b| > 0 && a[0] == b[0] {
      LessTotal(a[1..], b[1..]);
      if a[1..] == b[1..] {
        assert a == [a[0]] + a[1..] && b == [b[0]] + b[1..];
      }
    }
  }

  /** "Not after" is transitive: `!Less(b, a)` reads `a <= b`. */
  lemma NotLessTransitive(a: string, b: string, c: string)
    requires !Less(b, a) && !Less(c, b)
    ensures !Less(c, a)
  {
    LessTotal(a, b);
    LessTotal(b, c);
    if Less(a, b) && Less(b, c) {
      LessTransitive(a, b, c);
      LessAsymmetric(a, c);
    } else if Less(a, b) {
      LessAsymmetric(a, c);
    } else if Less(b, c) {
      LessAsymmetric(a, c);
    } else {
      LessIrreflexive(a);
    }
  }

  /** The fact the farm's sequencing rests on: a proper prefix sorts before
      every extension of it. */
  lemma {:induction false} PrefixLess(p: string, s: string)
    requires IsStrictPrefix(p, s)
    ensures Less(p, s)
    decreases |p|
  {
    if |p| > 0 {
      assert s[1..][..|p| - 1] == p[1..];
      PrefixLess(p[1..], s[1..]);
    }
  }

  /** A containing directory sorts before the paths inside it. */
  lemma AncestorLess(dir: string, path: string)
    requires IsAncestor(dir, path)
    ensures IsStrictPrefix(dir, path) && Less(dir, path)
  {
    PrefixLess(dir, path);
  }

  /** filepath.Join(dir, name). Its normalisation is not modelled: a joined
      path is kept as the pair it was built from. */
  datatype Joined = Join(dir: string, name: string)
}
