/**
 * The parts of Python's `str`, `os.path` (POSIX) and `sorted` that the
 * regression harness uses, on `string` values.
 */
module PyText {

  /** `p` occurs in `s` starting at offset `i`. */
  predicate OccursAt(s: string, p: string, i: nat)
  {
    i + |p| <= |s| && s[i..i + |p|] == p
  }

  lemma OccursAtShift(a: string, b: string, p: string, i: nat)
    requires OccursAt(b, p, i)
    ensures OccursAt(a + b, p, |a| + i)
  {
    assert (a + b)[|a| + i..|a| + i + |p|] == b[i..i + |p|];
  }

  lemma OccursAtTail(s: string, p: string, i: nat)
    requires s != []
    ensures OccursAt(s[1..], p, i) <==> OccursAt(s, p, i + 1)
  {
    if i + 1 + |p| <= |s| {
      assert s[1..][i..i + |p|] == s[i + 1..i + 1 + |p|];
    }
  }

  /** Python's `p in s`. */
  function Contains(s: string, p: string): (b: bool)
    ensures b <==> exists i: nat :: OccursAt(s, p, i)
    decreases |s|
  {
    if |p| > |s| then false
    else if s[..|p|] == p then
      assert OccursAt(s, p, 0);
      true
    else
      var rest := Contains(s[1..], p);
      assert rest <==> exists i: nat :: OccursAt(s, p, i) by {
        forall i: nat ensures OccursAt(s[1..], p, i) <==> OccursAt(s, p, i + 1) {
          OccursAtTail(s, p, i);
        }
        assert !OccursAt(s, p, 0);
        assert forall i: nat :: OccursAt(s, p, i) ==> i > 0 && OccursAt(s[1..], p, i - 1);
      }
      rest
  }

  /** `p` matches `s` character by character from offset `i`: the same as `OccursAt`. */
  predicate MatchesAt(s: string, p: string, i: nat)
  {
    i + |p| <= |s| && forall e :: 0 <= e < |p| ==> s[i + e] == p[e]
  }

  lemma MatchesAtIsOccursAt(s: string, p: string, i: nat)
    ensures MatchesAt(s, p, i) <==> OccursAt(s, p, i)
  {
    if i + |p| <= |s| {
      var w := s[i..i + |p|];
      assert forall e :: 0 <= e < |p| ==> w[e] == s[i + e];
    }
  }

  /**
   * Python's `s.replace(pattern, repl)`: every occurrence of `pattern`, scanning left to
   * right without overlap, is replaced by `repl`; an empty `pattern` puts `repl`
   * before every character and at the end.
   */
  function Replace(s: string, pattern: string, repl: string): string
  {
    ReplaceFrom(s, pattern, repl, 0)
  }

  /** The scan of `Replace` from offset `i` of `s` on. */
  function ReplaceFrom(s: string, pattern: string, repl: string, i: nat): string
    requires i <= |s|
    decreases |s| - i
  {
    if pattern == "" then
      if i == |s| then repl else repl + [s[i]] + ReplaceFrom(s, pattern, repl, i + 1)
    else if MatchesAt(s, pattern, i) then repl + ReplaceFrom(s, pattern, repl, i + |pattern|)
    else if i == |s| then ""
    else [s[i]] + ReplaceFrom(s, pattern, repl, i + 1)
  }

  lemma {:induction false} ReplaceFromAbsent(s: string, pattern: string, repl: string, i: nat)
    requires pattern != "" && i <= |s| && !Contains(s, pattern)
    ensures ReplaceFrom(s, pattern, repl, i) == s[i..]
    decreases |s| - i
  {
    MatchesAtIsOccursAt(s, pattern, i);
    if i < |s| {
      ReplaceFromAbsent(s, pattern, repl, i + 1);
      ConsSuffix(s, i);
    }
  }

  lemma ConsSuffix(s: string, i: nat)
    requires i < |s|
    ensures [s[i]] + s[i + 1..] == s[i..]
  {
  }

  /** Replacing a non-empty pattern that does not occur leaves the text as it is. */
  lemma ReplaceAbsent(s: string, pattern: string, repl: string)
    requires pattern != "" && !Contains(s, pattern)
    ensures Replace(s, pattern, repl) == s
  {
    ReplaceFromAbsent(s, pattern, repl, 0);
    assert s[0..] == s;
  }

  /**
   * From offset `i`, everything before the first occurrence of the pattern
   * (at `k`) is kept, that occurrence is replaced, and the scan resumes after it.
   */
  lemma {:induction false} ReplaceFirstAt(s: string, pattern: string, repl: string, i: nat, k: nat)
    requires pattern != "" && i <= k && MatchesAt(s, pattern, k)
    requires forall j :: i <= j < k ==> !MatchesAt(s, pattern, j)
    ensures ReplaceFrom(s, pattern, repl, i) == s[i..k] + repl + ReplaceFrom(s, pattern, repl, k + |pattern|)
    decreases k - i
  {
    if i == k {
      EmptySliceGlue(s, k, repl, ReplaceFrom(s, pattern, repl, k + |pattern|));
    } else {
      assert !MatchesAt(s, pattern, i);
      ReplaceFirstAt(s, pattern, repl, i + 1, k);
      ConsSliceGlue(s, i, k, repl, ReplaceFrom(s, pattern, repl, k + |pattern|));
    }
  }

  lemma EmptySliceGlue(s: string, k: nat, repl: string, y: string)
    requires k <= |s|
    ensures s[k..k] + repl + y == repl + y
  {
    assert s[k..k] + repl == repl;
  }

  lemma ConsSliceGlue(s: string, i: nat, k: nat, repl: string, y: string)
    requires i < k <= |s|
    ensures [s[i]] + (s[i + 1..k] + repl + y) == s[i..k] + repl + y
  {
    assert [s[i]] + s[i + 1..k] == s[i..k];
  }

  /** Once the scan reaches the end of the text nothing more is produced. */
  lemma ReplaceFromEnd(s: string, pattern: string, repl: string, i: nat)
    requires pattern != "" && i == |s|
    ensures ReplaceFrom(s, pattern, repl, i) == ""
  {
  }

  /** The pattern matches where it was placed. */
  lemma MatchesWherePlaced(u: string, p: string, t: string)
    ensures MatchesAt(u + p + t, p, |u|)
  {
    forall e | 0 <= e < |p| ensures (u + p + t)[|u| + e] == p[e] {
      assert (u + p + t)[|u| + e] == (u + p)[|u| + e];
    }
  }

  /** When the pattern ends the text and no match starts earlier, only that last occurrence is replaced. */
  lemma ReplaceAtEnd(stem: string, pattern: string, repl: string)
    requires pattern != ""
    requires forall i :: 0 <= i < |stem| ==> !MatchesAt(stem + pattern, pattern, i)
    ensures Replace(stem + pattern, pattern, repl) == stem + repl
  {
    var s := stem + pattern;
    MatchesWherePlaced(stem, pattern, "");
    assert stem + pattern + "" == s;
    ReplaceFirstAt(s, pattern, repl, 0, |stem|);
    ReplaceFromEnd(s, pattern, repl, |stem| + |pattern|);
    assert s[0..|stem|] == stem;
    assert stem + repl + "" == stem + repl;
  }

  /** From `m` on, the only match is at `k`, where the pattern ends the text: it alone is replaced. */
  lemma ReplaceLastAt(s: string, pattern: string, repl: string, m: nat, k: nat)
    requires pattern != "" && m <= k && k + |pattern| == |s| && MatchesAt(s, pattern, k)
    requires forall j :: m <= j < k ==> !MatchesAt(s, pattern, j)
    ensures ReplaceFrom(s, pattern, repl, m) == s[m..k] + repl
  {
    ReplaceFirstAt(s, pattern, repl, m, k);
    ReplaceFromEnd(s, pattern, repl, k + |pattern|);
    assert s[m..k] + repl + "" == s[m..k] + repl;
  }

  /**
   * Text whose only matches are at `k1` and at `k2`, where the pattern ends
   * the text, has both replaced and everything else kept.
   */
  lemma ReplaceTwoAt(s: string, pattern: string, repl: string, k1: nat, k2: nat)
    requires pattern != "" && k1 + |pattern| <= k2 && k2 + |pattern| == |s|
    requires MatchesAt(s, pattern, k1) && MatchesAt(s, pattern, k2)
    requires forall j :: 0 <= j < k1 ==> !MatchesAt(s, pattern, j)
    requires forall j :: k1 + |pattern| <= j < k2 ==> !MatchesAt(s, pattern, j)
    ensures Replace(s, pattern, repl) == s[0..k1] + repl + s[k1 + |pattern|..k2] + repl
  {
    ReplaceLastAt(s, pattern, repl, k1 + |pattern|, k2);
    ReplaceFirstAt(s, pattern, repl, 0, k1);
    ReplaceTwoGlue(s, pattern, repl, k1, k2);
  }

  lemma ReplaceTwoGlue(s: string, pattern: string, repl: string, k1: nat, k2: nat)
    requires k1 + |pattern| <= k2 <= |s|
    requires ReplaceFrom(s, pattern, repl, 0) == s[0..k1] + repl + ReplaceFrom(s, pattern, repl, k1 + |pattern|)
    requires ReplaceFrom(s, pattern, repl, k1 + |pattern|) == s[k1 + |pattern|..k2] + repl
    ensures Replace(s, pattern, repl) == s[0..k1] + repl + s[k1 + |pattern|..k2] + repl
  {
    Associate(s[0..k1], repl, s[k1 + |pattern|..k2]);
  }

  lemma Associate(a: string, repl: string, b: string)
    ensures a + repl + (b + repl) == a + repl + b + repl
  {
  }

  /** Text with two occurrences of the pattern, and no match before either, has both replaced. */
  lemma ReplaceTwoOccurrences(a: string, b: string, pattern: string, repl: string)
    requires pattern != ""
    requires forall i :: 0 <= i < |a| ==> !MatchesAt(a + pattern + b + pattern, pattern, i)
    requires forall i :: |a| + |pattern| <= i < |a| + |pattern| + |b| ==> !MatchesAt(a + pattern + b + pattern, pattern, i)
    ensures Replace(a + pattern + b + pattern, pattern, repl) == a + repl + b + repl
  {
    TwoOccurrencesShape(a, b, pattern);
    ReplaceTwoAt(a + pattern + b + pattern, pattern, repl, |a|, |a| + |pattern| + |b|);
  }

  lemma TwoOccurrencesShape(a: string, b: string, p: string)
    ensures MatchesAt(a + p + b + p, p, |a|)
    ensures MatchesAt(a + p + b + p, p, |a| + |p| + |b|)
    ensures (a + p + b + p)[0..|a|] == a
    ensures (a + p + b + p)[|a| + |p|..|a| + |p| + |b|] == b
  {
    MatchesWherePlaced(a, p, b + p);
    assert a + p + (b + p) == a + p + b + p;
    MatchesWherePlaced(a + p + b, p, "");
    assert a + p + b + p + "" == a + p + b + p;
    assert (a + p + b + p)[0..|a|] == a;
    assert (a + p + b + p)[|a| + |p|..|a| + |p| + |b|] == b;
  }

  /** A pattern whose first character does not recur in it. */
  predicate HeadUnique(p: string)
  {
    p != [] && forall e :: 1 <= e < |p| ==> p[e] != p[0]
  }

  /**
   * No match of such a pattern starts inside a part `a` that does not contain
   * it and is followed by the pattern, whatever precedes `a` or follows.
   */
  lemma NoMatchInside(u: string, a: string, p: string, t: string, i: nat)
    requires HeadUnique(p) && !Contains(a, p) && |u| <= i < |u| + |a|
    ensures !MatchesAt(u + a + p + t, p, i)
  {
    var s := u + a + p + t;
    var d := i - |u|;
    if d + |p| <= |a| {
      MatchesAtIsOccursAt(a, p, d);
      var e :| 0 <= e < |p| && a[d + e] != p[e];
      assert s[i + e] == a[d + e];
    } else if i + |p| <= |s| {
      var e := |a| - d;
      assert s[i + e] == s[|u| + |a|] == p[0];
      assert p[e] != p[0];
    }
  }

  lemma VcfHeadUnique()
    ensures HeadUnique(".vcf")
  {
  }

  /**
   * A path that ends in ".vcf" and has no other ".vcf" in it has exactly that
   * suffix substituted: "x/y.vcf" becomes "x/y" + repl.
   */
  lemma VcfSuffixReplaced(stem: string, repl: string)
    requires !Contains(stem, ".vcf")
    ensures Replace(stem + ".vcf", ".vcf", repl) == stem + repl
  {
    VcfHeadUnique();
    assert "" + stem + ".vcf" + "" == stem + ".vcf";
    forall i | 0 <= i < |stem| ensures !MatchesAt(stem + ".vcf", ".vcf", i) {
      NoMatchInside("", stem, ".vcf", "", i);
    }
    ReplaceAtEnd(stem, ".vcf", repl);
  }

  /** A path with two ".vcf" in it, as in "d.vcf/x.vcf", has both substituted. */
  lemma BothVcfReplaced(dir: string, name: string, repl: string)
    requires !Contains(dir, ".vcf") && !Contains(name, ".vcf")
    ensures Replace(dir + ".vcf" + name + ".vcf", ".vcf", repl) == dir + repl + name + repl
  {
    var s := dir + ".vcf" + name + ".vcf";
    VcfHeadUnique();
    assert "" + dir + ".vcf" + (name + ".vcf") == s;
    assert dir + ".vcf" + name + ".vcf" + "" == s;
    forall i | 0 <= i < |dir| ensures !MatchesAt(s, ".vcf", i) {
      NoMatchInside("", dir, ".vcf", name + ".vcf", i);
    }
    forall i | |dir| + |".vcf"| <= i < |dir| + |".vcf"| + |name| ensures !MatchesAt(s, ".vcf", i) {
      NoMatchInside(dir + ".vcf", name, ".vcf", "", i);
    }
    ReplaceTwoOccurrences(dir, name, ".vcf", repl);
  }

  /** posixpath.join(a, b): an absolute `b` replaces `a`; otherwise one separator between them. */
  function Join(a: string, b: string): string
  {
    if |b| > 0 && b[0] == '/' then b
    else if a == "" || a[|a| - 1] == '/' then a + b
    else a + "/" + b
  }

  /** posixpath.join(a, *parts). */
  function JoinAll(a: string, parts: seq<string>): string
    decreases |parts|
  {
    if parts == [] then a else JoinAll(Join(a, parts[0]), parts[1..])
  }

  /** No character of `s` is a path separator. */
  predicate NoSeparator(s: string)
  {
    forall i :: 0 <= i < |s| ==> s[i] != '/'
  }

  /** A concatenation of two separator-free strings is separator-free. */
  lemma NoSeparatorConcat(a: string, b: string)
    requires NoSeparator(a) && NoSeparator(b)
    ensures NoSeparator(a + b)
  {
    forall i | 0 <= i < |a + b| ensures (a + b)[i] != '/' {
      if i < |a| {
        assert (a + b)[i] == a[i];
      } else {
        assert (a + b)[i] == b[i - |a|];
      }
    }
  }

  /** The index of the last '/' in `p`, or -1 when there is none. */
  function LastSeparator(p: string): (k: int)
    ensures -1 <= k < |p|
    ensures k >= 0 ==> p[k] == '/'
    ensures forall j :: k < j < |p| ==> p[j] != '/'
    decreases |p|
  {
    if p == [] then -1
    else if p[|p| - 1] == '/' then |p| - 1
    else
      var k := LastSeparator(p[..|p| - 1]);
      assert forall j :: k < j < |p| - 1 ==> p[j] == p[..|p| - 1][j];
      k
  }

  /** posixpath.basename(p): what follows the last '/', all of `p` when there is none. */
  function BaseName(p: string): (r: string)
    ensures NoSeparator(r)
    ensures |r| <= |p| && r == p[|p| - |r|..]
    ensures |r| < |p| ==> p[|p| - |r| - 1] == '/'
  {
    p[LastSeparator(p) + 1..]
  }

  /** After a directory that is empty or ends in '/', the last separator is the directory's own last character. */
  lemma {:induction false} LastSeparatorAfterDirectory(dir: string, name: string)
    requires dir == "" || dir[|dir| - 1] == '/'
    requires NoSeparator(name)
    ensures LastSeparator(dir + name) == |dir| - 1
    decreases |name|
  {
    var p := dir + name;
    if name == [] {
      assert p == dir;
    } else {
      var init := name[..|name| - 1];
      assert p[|p| - 1] == name[|name| - 1];
      assert p[..|p| - 1] == dir + init;
      LastSeparatorAfterDirectory(dir, init);
    }
  }

  /** The base name of a file joined onto a directory is the file's name. */
  lemma BaseNameOfJoin(dir: string, name: string)
    requires NoSeparator(name)
    ensures BaseName(Join(dir, name)) == name
  {
    if |name| > 0 && name[0] == '/' {
    } else if dir == "" || dir[|dir| - 1] == '/' {
      LastSeparatorAfterDirectory(dir, name);
      assert (dir + name)[|dir|..] == name;
    } else {
      assert Join(dir, name) == (dir + "/") + name;
      LastSeparatorAfterDirectory(dir + "/", name);
      assert ((dir + "/") + name)[|dir| + 1..] == name;
    }
  }

  // ---------------------------------------------------------------------------
  // Ordering of str values and sorted()
  // ---------------------------------------------------------------------------

  /** Python's `a <= b` on str: code points compared left to right, a proper prefix first. */
  predicate LexLe(a: string, b: string)
    decreases |a|
  {
    a == [] || (b != [] && (a[0] < b[0] || (a[0] == b[0] && LexLe(a[1..], b[1..]))))
  }

  lemma {:induction false} LexLeTotal(a: string, b: string)
    ensures LexLe(a, b) || LexLe(b, a)
    decreases |a|
  {
    if a != [] && b != [] && a[0] == b[0] {
      LexLeTotal(a[1..], b[1..]);
    }
  }

  lemma {:induction false} LexLeTransitive(a: string, b: string, c: string)
    requires LexLe(a, b) && LexLe(b, c)
    ensures LexLe(a, c)
    decreases |a|
  {
    if a != [] && a[0] == b[0] && b[0] == c[0] {
      LexLeTransitive(a[1..], b[1..], c[1..]);
    }
  }

  lemma {:induction false} LexLeAntisymmetric(a: string, b: string)
    requires LexLe(a, b) && LexLe(b, a)
    ensures a == b
    decreases |a|
  {
    if a != [] {
      LexLeAntisymmetric(a[1..], b[1..]);
      assert a == [a[0]] + a[1..] && b == [b[0]] + b[1..];
    }
  }

  predicate Sorted(xs: seq<string>)
  {
    forall i, j :: 0 <= i < j < |xs| ==> LexLe(xs[i], xs[j])
  }

  lemma LexLeReflexive(a: string)
    ensures LexLe(a, a)
  {
  }

  /** `x` put into `xs` just before the first element it does not exceed. */
  function Insert(x: string, xs: seq<string>): seq<string>
  {
    if xs == [] then [x]
    else if LexLe(x, xs[0]) then [x] + xs
    else [xs[0]] + Insert(x, xs[1..])
  }

  lemma {:induction false} InsertElements(x: string, xs: seq<string>)
    ensures multiset(Insert(x, xs)) == multiset(xs) + multiset{x}
  {
    if xs != [] && !LexLe(x, xs[0]) {
      InsertElements(x, xs[1..]);
      assert xs == [xs[0]] + xs[1..];
    }
  }

  /** A lower bound of a sorted list can be put in front of it. */
  lemma ConsSorted(y: string, rest: seq<string>)
    requires Sorted(rest)
    requires forall k :: 0 <= k < |rest| ==> LexLe(y, rest[k])
    ensures Sorted([y] + rest)
  {
    var r := [y] + rest;
    forall i, j | 0 <= i < j < |r| ensures LexLe(r[i], r[j]) {
      assert r[j] == rest[j - 1];
      if i > 0 { assert r[i] == rest[i - 1]; }
    }
  }

  /** A lower bound of `x` and of every element of `xs` bounds every element of `Insert(x, xs)`. */
  lemma InsertBounded(y: string, x: string, xs: seq<string>)
    requires LexLe(y, x)
    requires forall k :: 0 <= k < |xs| ==> LexLe(y, xs[k])
    ensures forall k :: 0 <= k < |Insert(x, xs)| ==> LexLe(y, Insert(x, xs)[k])
  {
    var r := Insert(x, xs);
    InsertElements(x, xs);
    forall k | 0 <= k < |r| ensures LexLe(y, r[k]) {
      assert r[k] in multiset(r);
      if r[k] != x {
        assert r[k] in multiset(xs);
        var j :| 0 <= j < |xs| && xs[j] == r[k];
      }
    }
  }

  lemma {:induction false} InsertSorted(x: string, xs: seq<string>)
    requires Sorted(xs)
    ensures Sorted(Insert(x, xs))
  {
    if xs == [] {
    } else if LexLe(x, xs[0]) {
      forall k | 0 <= k < |xs| ensures LexLe(x, xs[k]) {
        if k > 0 { LexLeTransitive(x, xs[0], xs[k]); }
      }
      ConsSorted(x, xs);
    } else {
      SortedTail(xs);
      InsertSorted(x, xs[1..]);
      LexLeTotal(x, xs[0]);
      forall k | 0 <= k < |xs[1..]| ensures LexLe(xs[0], xs[1..][k]) {
        assert xs[1..][k] == xs[k + 1];
      }
      InsertBounded(xs[0], x, xs[1..]);
      ConsSorted(xs[0], Insert(x, xs[1..]));
    }
  }

  /** Python's `sorted` on a list of str: the sorted permutation of the list. */
  function Sort(xs: seq<string>): (r: seq<string>)
    ensures Sorted(r) && multiset(r) == multiset(xs)
  {
    if xs == [] then []
    else
      var rest := Sort(xs[1..]);
      SortStep(xs, rest);
      Insert(xs[0], rest)
  }

  /** Inserting the head into a sorted permutation of the tail gives a sorted permutation of the list. */
  lemma SortStep(xs: seq<string>, rest: seq<string>)
    requires xs != [] && Sorted(rest) && multiset(rest) == multiset(xs[1..])
    ensures Sorted(Insert(xs[0], rest)) && multiset(Insert(xs[0], rest)) == multiset(xs)
  {
    InsertSorted(xs[0], rest);
    InsertElements(xs[0], rest);
    assert xs == [xs[0]] + xs[1..];
  }

  lemma MultisetTail(a: seq<string>)
    requires a != []
    ensures multiset(a[1..]) == multiset(a) - multiset{a[0]}
  {
    assert a == [a[0]] + a[1..];
  }

  lemma SortedTail(a: seq<string>)
    requires a != [] && Sorted(a)
    ensures Sorted(a[1..])
  {
    forall i, j | 0 <= i < j < |a[1..]| ensures LexLe(a[1..][i], a[1..][j]) {
      assert a[1..][i] == a[i + 1] && a[1..][j] == a[j + 1];
    }
  }

  /** A sorted list starts with an element no greater than any of its elements. */
  lemma SortedHeadLeast(a: seq<string>, y: string)
    requires a != [] && Sorted(a) && y in multiset(a)
    ensures LexLe(a[0], y)
  {
    var i :| 0 <= i < |a| && a[i] == y;
    if i == 0 { LexLeReflexive(y); }
  }

  /** Two sorted lists with the same elements start with the same element. */
  lemma SortedSameHead(a: seq<string>, b: seq<string>)
    requires a != [] && Sorted(a) && Sorted(b) && multiset(a) == multiset(b)
    ensures b != [] && a[0] == b[0]
  {
    assert a[0] in multiset(a);
    assert b != [];
    assert b[0] in multiset(b);
    SortedHeadLeast(a, b[0]);
    SortedHeadLeast(b, a[0]);
    LexLeAntisymmetric(a[0], b[0]);
  }

  /** Two sorted lists with the same elements are the same list. */
  lemma {:induction false} SortedUnique(a: seq<string>, b: seq<string>)
    requires Sorted(a) && Sorted(b) && multiset(a) == multiset(b)
    ensures a == b
    decreases |a|
  {
    if a == [] {
      assert |multiset(b)| == 0;
    } else {
      SortedSameHead(a, b);
      MultisetTail(a);
      MultisetTail(b);
      SortedTail(a);
      SortedTail(b);
      SortedUnique(a[1..], b[1..]);
      assert a == [a[0]] + a[1..] && b == [b[0]] + b[1..];
    }
  }

  /** sorted() makes the result independent of the order the listing came in. */
  lemma SortIgnoresOrder(xs: seq<string>, ys: seq<string>)
    requires multiset(xs) == multiset(ys)
    ensures Sort(xs) == Sort(ys)
  {
    SortedUnique(Sort(xs), Sort(ys));
  }

  // ---------------------------------------------------------------------------
  // str() of a list of str
  // ---------------------------------------------------------------------------

  /** repr() of a str that holds neither quotes nor backslashes. */
  function Quote(s: string): string
  {
    "'" + s + "'"
  }

  function ReprItems(xs: seq<string>): string
    decreases |xs|
  {
    if xs == [] then ""
    else if |xs| == 1 then Quote(xs[0])
    else Quote(xs[0]) + ", " + ReprItems(xs[1..])
  }

  /** str(list) for a list of str: "['a', 'b']". */
  function ReprList(xs: seq<string>): string
  {
    "[" + ReprItems(xs) + "]"
  }

  lemma {:induction false} ReprItemsListsAll(xs: seq<string>, k: nat)
    requires k < |xs|
    ensures Contains(ReprItems(xs), Quote(xs[k]))
    decreases |xs|
  {
    if k == 0 {
      assert OccursAt(ReprItems(xs), Quote(xs[0]), 0);
    } else {
      ReprItemsListsAll(xs[1..], k - 1);
      var i: nat :| OccursAt(ReprItems(xs[1..]), Quote(xs[k]), i);
      OccursAtShift(Quote(xs[0]) + ", ", ReprItems(xs[1..]), Quote(xs[k]), i);
    }
  }

  /** Every element of the list appears, quoted, in its str(). */
  lemma ReprListListsAll(xs: seq<string>, k: nat)
    requires k < |xs|
    ensures Contains(ReprList(xs), Quote(xs[k]))
  {
    ReprItemsListsAll(xs, k);
    var i: nat :| OccursAt(ReprItems(xs), Quote(xs[k]), i);
    OccursAtShift("[", ReprItems(xs), Quote(xs[k]), i);
    assert ReprList(xs) == "[" + ReprItems(xs) + "]";
    assert ("[" + ReprItems(xs) + "]")[..1 + |ReprItems(xs)|] == "[" + ReprItems(xs);
    assert OccursAt(ReprList(xs), Quote(xs[k]), 1 + i);
  }
}
