/**
 * The inclusion/exclusion rule engine of the project extractor (extractor.py).
 *
 * A rule file is a list of lines; "+path" includes, "-path" excludes, blank
 * lines and "#" comments are ignored. A path is processed when a non-empty
 * inclusion matches it and its longest matching inclusion is at least as long
 * as its longest matching exclusion.
 * Matching is a raw string prefix test (Python's str.startswith), so the rule
 * "src" also matches "src2/x". Path normalisation (os.path.normpath) is a
 * parameter `norm` that the model treats as an arbitrary function.
 */
module PathRules {

  /** `prefix` is a prefix of `s`, character by character (str.startswith). */
  predicate StartsWith(s: string, prefix: string) {
    prefix <= s
  }

  // ---------------------------------------------------------------------------
  // str.strip()
  // ---------------------------------------------------------------------------

  /** The characters for which Python's str.isspace() holds. */
  predicate IsSpace(c: char) {
    var n := c as int;
    (9 <= n <= 13) || (28 <= n <= 32) || n == 0x85 || n == 0xA0 || n == 0x1680
    || (0x2000 <= n <= 0x200A) || n == 0x2028 || n == 0x2029 || n == 0x202F
    || n == 0x205F || n == 0x3000
  }

  /** The number of whitespace characters at the start of `s`. */
  function LeadingSpaces(s: string): (k: nat)
    ensures k <= |s|
  {
    if s != [] && IsSpace(s[0]) then 1 + LeadingSpaces(s[1..]) else 0
  }

  /** The number of whitespace characters at the end of `s`. */
  function TrailingSpaces(s: string): (k: nat)
    ensures k <= |s|
  {
    if s != [] && IsSpace(s[|s| - 1]) then 1 + TrailingSpaces(s[..|s| - 1]) else 0
  }

  /** Python's str.strip() with no argument: drop leading and trailing whitespace. */
  function Strip(s: string): string {
    var t := s[LeadingSpaces(s)..];
    t[..|t| - TrailingSpaces(t)]
  }

  lemma {:induction false} LeadingSpacesSpec(s: string)
    ensures forall i :: 0 <= i < LeadingSpaces(s) ==> IsSpace(s[i])
    ensures LeadingSpaces(s) == |s| || !IsSpace(s[LeadingSpaces(s)])
    decreases |s|
  {
    if s != [] && IsSpace(s[0]) {
      LeadingSpacesSpec(s[1..]);
    }
  }

  lemma {:induction false} TrailingSpacesSpec(s: string)
    ensures forall i :: |s| - TrailingSpaces(s) <= i < |s| ==> IsSpace(s[i])
    ensures TrailingSpaces(s) == |s| || !IsSpace(s[|s| - 1 - TrailingSpaces(s)])
    decreases |s|
  {
    if s != [] && IsSpace(s[|s| - 1]) {
      TrailingSpacesSpec(s[..|s| - 1]);
    }
  }

  /** What Strip keeps is the slice of `s` after the leading whitespace, and whitespace follows it. */
  lemma StripSlice(s: string)
    ensures var r, lo := Strip(s), LeadingSpaces(s);
      && lo + |r| <= |s| && r == s[lo..lo + |r|]
      && (forall i :: lo + |r| <= i < |s| ==> IsSpace(s[i]))
      && (r == [] || !IsSpace(r[|r| - 1]))
  {
    var lo := LeadingSpaces(s);
    var t := s[lo..];
    var n := TrailingSpaces(t);
    var r := t[..|t| - n];
    assert Strip(s) == r;
    assert r == s[lo..lo + |r|];
    TrailingSpacesSpec(t);
    assert forall i :: lo + |r| <= i < |s| ==> IsSpace(s[i]) by {
      forall i | lo + |r| <= i < |s|
        ensures IsSpace(s[i])
      {
        assert s[i] == t[i - lo];
      }
    }
    assert r == [] || !IsSpace(r[|r| - 1]) by {
      if r != [] {
        assert r[|r| - 1] == t[|t| - 1 - n];
      }
    }
  }

  /**
   * Strip removes exactly the whitespace at both ends: what remains is the
   * slice s[lo..hi], everything outside it is whitespace, and it neither starts
   * nor ends with whitespace; it is empty exactly when `s` is all whitespace.
   */
  lemma StripSpec(s: string)
    ensures var r, lo := Strip(s), LeadingSpaces(s);
      && lo + |r| <= |s| && r == s[lo..lo + |r|]
      && (forall i :: 0 <= i < lo ==> IsSpace(s[i]))
      && (forall i :: lo + |r| <= i < |s| ==> IsSpace(s[i]))
      && (r == [] || (!IsSpace(r[0]) && !IsSpace(r[|r| - 1])))
      && (r == [] <==> forall i :: 0 <= i < |s| ==> IsSpace(s[i]))
  {
    var r, lo := Strip(s), LeadingSpaces(s);
    LeadingSpacesSpec(s);
    StripSlice(s);
    if r != [] {
      assert r[0] == s[lo];
    }
  }

  // ---------------------------------------------------------------------------
  // parse_rules
  // ---------------------------------------------------------------------------

  /** What one line of a rule file contributes. */
  datatype LineKind = Include | Exclude | Skipped | Invalid

  function Classify(line: string): LineKind {
    var s := Strip(line);
    if s == [] || s[0] == '#' then Skipped
    else if s[0] == '+' then Include
    else if s[0] == '-' then Exclude
    else Invalid
  }

  /** The normalised path a non-blank line names: its stripped text minus the first character. */
  function RulePath(line: string, norm: string -> string): string
    requires Strip(line) != []
  {
    norm(Strip(line)[1..])
  }

  /** The paths of the lines of the given kind, in file order. */
  function Collect(lines: seq<string>, kind: LineKind, norm: string -> string): seq<string>
  {
    if lines == [] then []
    else
      Collect(lines[..|lines| - 1], kind, norm) + Contribution(lines[|lines| - 1], kind, norm)
  }

  /** What one line adds to the list of the given kind. */
  function Contribution(line: string, kind: LineKind, norm: string -> string): seq<string> {
    if (kind == Include || kind == Exclude) && Classify(line) == kind then [RulePath(line, norm)] else []
  }

  /**
   * parse_rules over lines already read from the rule file: every "+" line's
   * normalised remainder goes to `inclusions`, every "-" line's to `exclusions`.
   */
  method ParseRules(lines: seq<string>, norm: string -> string)
    returns (inclusions: seq<string>, exclusions: seq<string>)
    ensures inclusions == Collect(lines, Include, norm)
    ensures exclusions == Collect(lines, Exclude, norm)
    ensures |inclusions| + |exclusions| <= |lines|
  {
    inclusions, exclusions := [], [];
    for n := 0 to |lines|
      invariant ParsedSoFar(lines, n, inclusions, exclusions, norm)
    {
      ParseNext(lines, n, inclusions, exclusions, norm);
      var plus, minus := ParseLine(lines[n], norm);
      inclusions, exclusions := inclusions + plus, exclusions + minus;
    }
    assert lines[..|lines|] == lines;
  }

  /**
   * The body of parse_rules' loop for one line: blank and "#" lines are
   * skipped, a "+" line yields an inclusion, a "-" line an exclusion, and any
   * other line nothing.
   */
  method ParseLine(line: string, norm: string -> string) returns (plus: seq<string>, minus: seq<string>)
    ensures plus == Contribution(line, Include, norm)
    ensures minus == Contribution(line, Exclude, norm)
  {
    plus, minus := [], [];
    var stripped := Strip(line);
    if stripped == [] || stripped[0] == '#' {
      return;
    }
    var path := norm(stripped[1..]);
    if stripped[0] == '+' {
      plus := [path];
    } else if stripped[0] == '-' {
      minus := [path];
    }
  }

  /** The lists parse_rules holds after reading the first n lines. */
  predicate ParsedSoFar(lines: seq<string>, n: nat, inclusions: seq<string>, exclusions: seq<string>, norm: string -> string) {
    n <= |lines|
    && inclusions == Collect(lines[..n], Include, norm)
    && exclusions == Collect(lines[..n], Exclude, norm)
    && |inclusions| + |exclusions| <= n
  }

  /** Reading line n adds its contribution to the list of its kind. */
  lemma ParseNext(lines: seq<string>, n: nat, inclusions: seq<string>, exclusions: seq<string>, norm: string -> string)
    requires n < |lines| && ParsedSoFar(lines, n, inclusions, exclusions, norm)
    ensures ParsedSoFar(lines, n + 1, inclusions + Contribution(lines[n], Include, norm),
                        exclusions + Contribution(lines[n], Exclude, norm), norm)
  {
    assert lines[..n + 1] == lines[..n] + [lines[n]];
    CollectStep(lines[..n], lines[n], norm);
  }

  /** One more line adds its contribution to the list of its kind and nothing to the other. */
  lemma CollectStep(before: seq<string>, line: string, norm: string -> string)
    ensures Collect(before + [line], Include, norm) == Collect(before, Include, norm) + Contribution(line, Include, norm)
    ensures Collect(before + [line], Exclude, norm) == Collect(before, Exclude, norm) + Contribution(line, Exclude, norm)
    ensures |Contribution(line, Include, norm)| + |Contribution(line, Exclude, norm)| <= 1
  {
    assert (before + [line])[..|before|] == before;
  }

  lemma {:induction false} CollectAppend(a: seq<string>, b: seq<string>, kind: LineKind, norm: string -> string)
    ensures Collect(a + b, kind, norm) == Collect(a, kind, norm) + Collect(b, kind, norm)
    decreases |b|
  {
    if b == [] {
      assert a + b == a;
    } else {
      var b' := b[..|b| - 1];
      assert (a + b)[..|a + b| - 1] == a + b';
      CollectAppend(a, b', kind, norm);
    }
  }

  /** Blank, comment and invalid lines add nothing to either list, wherever they stand. */
  lemma IgnoredLineAddsNothing(before: seq<string>, line: string, after: seq<string>, kind: LineKind, norm: string -> string)
    requires Classify(line) == Skipped || Classify(line) == Invalid
    ensures Collect(before + [line] + after, kind, norm) == Collect(before + after, kind, norm)
  {
    assert Contribution(line, kind, norm) == [];
    CollectStep(before, line, norm);
    assert Collect(before + [line], kind, norm) == Collect(before, kind, norm) by {
      assert (before + [line])[..|before|] == before;
    }
    CollectAppend(before + [line], after, kind, norm);
    CollectAppend(before, after, kind, norm);
  }

  /** A "+" line appends its path to the inclusions and leaves the exclusions alone. */
  lemma IncludeLineAppends(before: seq<string>, line: string, norm: string -> string)
    requires Classify(line) == Include
    ensures Collect(before + [line], Include, norm) == Collect(before, Include, norm) + [RulePath(line, norm)]
    ensures Collect(before + [line], Exclude, norm) == Collect(before, Exclude, norm)
  {
    assert (before + [line])[..|before|] == before;
  }

  /** A "-" line appends its path to the exclusions and leaves the inclusions alone. */
  lemma ExcludeLineAppends(before: seq<string>, line: string, norm: string -> string)
    requires Classify(line) == Exclude
    ensures Collect(before + [line], Exclude, norm) == Collect(before, Exclude, norm) + [RulePath(line, norm)]
    ensures Collect(before + [line], Include, norm) == Collect(before, Include, norm)
  {
    assert (before + [line])[..|before|] == before;
  }

  /** The line is a rule of the given kind naming path `p`. */
  predicate Names(line: string, kind: LineKind, norm: string -> string, p: string)
    requires kind == Include || kind == Exclude
  {
    Classify(line) == kind && RulePath(line, norm) == p
  }

  lemma ContributionNames(line: string, kind: LineKind, norm: string -> string, p: string)
    requires kind == Include || kind == Exclude
    ensures p in Contribution(line, kind, norm) <==> Names(line, kind, norm, p)
  {
  }

  /** Every collected path comes from a line of that kind, and every such line's path is collected. */
  lemma {:induction false} CollectMembers(lines: seq<string>, kind: LineKind, norm: string -> string, p: string)
    requires kind == Include || kind == Exclude
    ensures p in Collect(lines, kind, norm) <==> exists i :: 0 <= i < |lines| && Names(lines[i], kind, norm, p)
    decreases |lines|
  {
    if lines != [] {
      var init, last := lines[..|lines| - 1], lines[|lines| - 1];
      CollectMembers(init, kind, norm, p);
      ContributionNames(last, kind, norm, p);
      assert Collect(lines, kind, norm) == Collect(init, kind, norm) + Contribution(last, kind, norm);
      NamedSplit(lines, kind, norm, p);
    }
  }

  /** A line of `lines` names p exactly when a line before the last does or the last one does. */
  lemma NamedSplit(lines: seq<string>, kind: LineKind, norm: string -> string, p: string)
    requires lines != [] && (kind == Include || kind == Exclude)
    ensures var init, last := lines[..|lines| - 1], lines[|lines| - 1];
      (exists i :: 0 <= i < |lines| && Names(lines[i], kind, norm, p))
      <==> (exists i :: 0 <= i < |init| && Names(init[i], kind, norm, p)) || Names(last, kind, norm, p)
  {
    var init := lines[..|lines| - 1];
    if exists i :: 0 <= i < |lines| && Names(lines[i], kind, norm, p) {
      var i :| 0 <= i < |lines| && Names(lines[i], kind, norm, p);
      if i < |init| {
        assert init[i] == lines[i];
      }
    }
    if exists i :: 0 <= i < |init| && Names(init[i], kind, norm, p) {
      var i :| 0 <= i < |init| && Names(init[i], kind, norm, p);
      assert lines[i] == init[i];
    }
  }

  // ---------------------------------------------------------------------------
  // should_process_path
  // ---------------------------------------------------------------------------

  /** The length of the longest rule that is a prefix of `p`; 0 when none (or only "") is. */
  function Longest(p: string, rules: seq<string>): nat
  {
    if rules == [] then 0
    else
      var r := rules[|rules| - 1];
      var rest := Longest(p, rules[..|rules| - 1]);
      if StartsWith(p, r) && |r| > rest then |r| else rest
  }

  /** The decision once the two longest matches are known. */
  function Decide(longestIncl: nat, longestExcl: nat): bool {
    if longestExcl > longestIncl then false
    else longestIncl > 0
  }

  /** Whether the (already normalised) path `p` is processed under the rules. */
  function Processed(p: string, inclusions: seq<string>, exclusions: seq<string>): bool {
    Decide(Longest(p, inclusions), Longest(p, exclusions))
  }

  /**
   * should_process_path: the exclusion wins only when strictly longer than
   * the inclusion; otherwise the path is processed iff some non-empty
   * inclusion matches.
   */
  method ShouldProcessPath(path: string, inclusions: seq<string>, exclusions: seq<string>, norm: string -> string)
    returns (r: bool)
    ensures r == Processed(norm(path), inclusions, exclusions)
    ensures r <==> Longest(norm(path), exclusions) <= Longest(norm(path), inclusions)
                   && Longest(norm(path), inclusions) > 0
  {
    var p := norm(path);
    var longestIncl := "";
    var longestExcl := "";
    for n := 0 to |inclusions|
      invariant |longestIncl| == Longest(p, inclusions[..n])
    {
      assert inclusions[..n + 1][..n] == inclusions[..n];
      var incl := inclusions[n];
      if StartsWith(p, incl) && |incl| > |longestIncl| {
        longestIncl := incl;
      }
    }
    for n := 0 to |exclusions|
      invariant |longestExcl| == Longest(p, exclusions[..n])
    {
      assert exclusions[..n + 1][..n] == exclusions[..n];
      var excl := exclusions[n];
      if StartsWith(p, excl) && |excl| > |longestExcl| {
        longestExcl := excl;
      }
    }
    assert inclusions[..|inclusions|] == inclusions;
    assert exclusions[..|exclusions|] == exclusions;
    if |longestExcl| > |longestIncl| {
      return false;
    }
    if longestIncl != "" {
      return true;
    }
    return false;
  }

  /** Longest is the maximum length over the rules that are prefixes of `p`. */
  lemma {:induction false} LongestIsMaximum(p: string, rules: seq<string>)
    ensures forall r :: r in rules && StartsWith(p, r) ==> |r| <= Longest(p, rules)
    ensures Longest(p, rules) == 0 || exists r :: r in rules && StartsWith(p, r) && |r| == Longest(p, rules)
    decreases |rules|
  {
    if rules != [] {
      var init := rules[..|rules| - 1];
      LongestIsMaximum(p, init);
      assert forall r :: r in rules ==> r in init || r == rules[|rules| - 1];
      if Longest(p, rules) == Longest(p, init) && Longest(p, rules) != 0 {
        var r :| r in init && StartsWith(p, r) && |r| == Longest(p, init);
        assert r in rules;
      }
    }
  }

  /** Longest depends only on the set of rules that match `p`. */
  lemma LongestByMatchingSet(p: string, a: seq<string>, b: seq<string>)
    requires forall r :: StartsWith(p, r) ==> (r in a <==> r in b)
    ensures Longest(p, a) == Longest(p, b)
  {
    LongestIsMaximum(p, a);
    LongestIsMaximum(p, b);
  }

  /** Reordering the rule lists does not change the decision. */
  lemma ProcessedReorder(p: string, incl: seq<string>, excl: seq<string>, incl': seq<string>, excl': seq<string>)
    requires multiset(incl) == multiset(incl') && multiset(excl) == multiset(excl')
    ensures Processed(p, incl, excl) == Processed(p, incl', excl')
  {
    forall r ensures r in incl <==> r in incl' {
      assert r in incl <==> r in multiset(incl);
      assert r in incl' <==> r in multiset(incl');
    }
    forall r ensures r in excl <==> r in excl' {
      assert r in excl <==> r in multiset(excl);
      assert r in excl' <==> r in multiset(excl');
    }
    LongestByMatchingSet(p, incl, incl');
    LongestByMatchingSet(p, excl, excl');
  }

  /** Adding, anywhere, a rule that is not a prefix of the path does not change the decision. */
  lemma ProcessedIgnoresNonMatching(p: string, incl: seq<string>, excl: seq<string>, k: nat, q: string, toInclusions: bool)
    requires !StartsWith(p, q)
    requires k <= (if toInclusions then |incl| else |excl|)
    ensures toInclusions ==> Processed(p, incl[..k] + [q] + incl[k..], excl) == Processed(p, incl, excl)
    ensures !toInclusions ==> Processed(p, incl, excl[..k] + [q] + excl[k..]) == Processed(p, incl, excl)
  {
    if toInclusions {
      var incl' := incl[..k] + [q] + incl[k..];
      assert incl == incl[..k] + incl[k..];
      forall r | StartsWith(p, r) ensures r in incl <==> r in incl' {
        assert r in incl' <==> r in incl[..k] || r == q || r in incl[k..];
      }
      LongestByMatchingSet(p, incl, incl');
    } else {
      var excl' := excl[..k] + [q] + excl[k..];
      assert excl == excl[..k] + excl[k..];
      forall r | StartsWith(p, r) ensures r in excl <==> r in excl' {
        assert r in excl' <==> r in excl[..k] || r == q || r in excl[k..];
      }
      LongestByMatchingSet(p, excl, excl');
    }
  }

  /** With no non-empty inclusion matching, the path is not processed, whatever the exclusions. */
  lemma NoInclusionNotProcessed(p: string, incl: seq<string>, excl: seq<string>)
    requires forall r :: r in incl && StartsWith(p, r) ==> r == ""
    ensures !Processed(p, incl, excl)
  {
    LongestIsMaximum(p, incl);
  }

  /**
   * The decision in terms of matching rules: an exclusion strictly longer than
   * every matching inclusion blocks the path; otherwise any non-empty matching
   * inclusion admits it (so an equal-length tie is processed).
   */
  lemma ProcessedByMatches(p: string, incl: seq<string>, excl: seq<string>)
    ensures !Processed(p, incl, excl) <==>
      (exists e :: e in excl && StartsWith(p, e) && forall i :: i in incl && StartsWith(p, i) ==> |i| < |e|)
      || (forall i :: i in incl && StartsWith(p, i) ==> i == "")
  {
    LongestIsMaximum(p, incl);
    LongestIsMaximum(p, excl);
    if Longest(p, excl) > Longest(p, incl) {
      var e :| e in excl && StartsWith(p, e) && |e| == Longest(p, excl);
      assert forall i :: i in incl && StartsWith(p, i) ==> |i| < |e|;
    }
  }

  // ---------------------------------------------------------------------------
  // walk_roots
  // ---------------------------------------------------------------------------

  /** No inclusion other than `p` itself is a prefix of `p`. */
  predicate IsTopLevel(p: string, inclusions: seq<string>) {
    !exists i :: 0 <= i < |inclusions| && StartsWith(p, inclusions[i]) && p != inclusions[i]
  }

  /** The elements of `within` that are top-level among `inclusions`, each as often as it occurs. */
  function TopLevel(inclusions: seq<string>, within: seq<string>): (r: seq<string>)
    ensures forall p :: p in r <==> p in within && IsTopLevel(p, inclusions)
    ensures forall p :: multiset(r)[p] == if IsTopLevel(p, inclusions) then multiset(within)[p] else 0
  {
    if within == [] then []
    else
      var rest := TopLevel(inclusions, within[1..]);
      assert within == [within[0]] + within[1..];
      if IsTopLevel(within[0], inclusions) then [within[0]] + rest else rest
  }

  /** walk_roots: the top-level inclusions, sorted (extractor.py, line 77). */
  function WalkRoots(inclusions: seq<string>): (roots: seq<string>)
    ensures Sorted(roots)
    ensures forall p :: multiset(roots)[p] == if IsTopLevel(p, inclusions) then multiset(inclusions)[p] else 0
    ensures forall p :: p in roots <==> p in inclusions && IsTopLevel(p, inclusions)
  {
    var top := TopLevel(inclusions, inclusions);
    var roots := Sort(top);
    assert forall p :: p in roots <==> p in multiset(roots);
    assert forall p :: p in top <==> p in multiset(top);
    roots
  }

  /** Every inclusion has a walk root as a prefix: walking from the roots reaches every inclusion. */
  lemma {:induction false} RootsCoverInclusions(inclusions: seq<string>, p: string)
    requires p in inclusions
    ensures exists q :: q in WalkRoots(inclusions) && StartsWith(p, q)
    decreases |p|
  {
    if IsTopLevel(p, inclusions) {
      assert p in WalkRoots(inclusions);
    } else {
      var i :| 0 <= i < |inclusions| && StartsWith(p, inclusions[i]) && p != inclusions[i];
      var q := inclusions[i];
      RootsCoverInclusions(inclusions, q);
      var root :| root in WalkRoots(inclusions) && StartsWith(q, root);
      assert StartsWith(p, root);
    }
  }

  // ---------------------------------------------------------------------------
  // sorted() on strings: code-point lexicographic order
  // ---------------------------------------------------------------------------

  /** Python's `<=` on str: lexicographic by code point, a prefix first. */
  predicate LexLe(a: string, b: string) {
    if a == [] then true
    else if b == [] then false
    else if a[0] != b[0] then a[0] < b[0]
    else LexLe(a[1..], b[1..])
  }

  lemma {:induction false} LexReflexive(a: string)
    ensures LexLe(a, a)
    decreases |a|
  {
    if a != [] {
      LexReflexive(a[1..]);
    }
  }

  lemma {:induction false} LexTotal(a: string, b: string)
    ensures LexLe(a, b) || LexLe(b, a)
    decreases |a|
  {
    if a != [] && b != [] && a[0] == b[0] {
      LexTotal(a[1..], b[1..]);
    }
  }

  lemma {:induction false} LexTransitive(a: string, b: string, c: string)
    requires LexLe(a, b) && LexLe(b, c)
    ensures LexLe(a, c)
    decreases |a|
  {
    if a != [] && b != [] && c != [] && a[0] == b[0] && b[0] == c[0] {
      LexTransitive(a[1..], b[1..], c[1..]);
    }
  }

  lemma {:induction false} LexAntisymmetric(a: string, b: string)
    requires LexLe(a, b) && LexLe(b, a)
    ensures a == b
    decreases |a|
  {
    if a != [] && b != [] {
      LexAntisymmetric(a[1..], b[1..]);
      assert a == [a[0]] + a[1..] && b == [b[0]] + b[1..];
    }
  }

  predicate Sorted(s: seq<string>) {
    forall i, j :: 0 <= i < j < |s| ==> LexLe(s[i], s[j])
  }

  function Insert(x: string, s: seq<string>): (r: seq<string>)
    requires Sorted(s)
    ensures Sorted(r)
    ensures multiset(r) == multiset(s) + multiset{x}
  {
    if s == [] then [x]
    else if LexLe(x, s[0]) then
      BelowHead(x, s);
      SortedCons(x, s);
      [x] + s
    else
      LexTotal(x, s[0]);
      var rest := Insert(x, s[1..]);
      assert s == [s[0]] + s[1..];
      InsertedAbove(s, x, rest);
      SortedCons(s[0], rest);
      [s[0]] + rest
  }

  /** A string at most every element of a sorted sequence can go in front of it. */
  lemma SortedCons(h: string, s: seq<string>)
    requires Sorted(s) && forall y :: y in s ==> LexLe(h, y)
    ensures Sorted([h] + s)
  {
    var r := [h] + s;
    forall i, j | 0 <= i < j < |r| ensures LexLe(r[i], r[j]) {
      if i == 0 {
        assert r[j] == s[j - 1] && r[j] in s;
      } else {
        assert r[i] == s[i - 1] && r[j] == s[j - 1];
      }
    }
  }

  /** A string at most the head of a sorted sequence is at most all of it. */
  lemma BelowHead(x: string, s: seq<string>)
    requires Sorted(s) && s != [] && LexLe(x, s[0])
    ensures forall y :: y in s ==> LexLe(x, y)
  {
    forall y | y in s ensures LexLe(x, y) {
      var j :| 0 <= j < |s| && s[j] == y;
      if j > 0 {
        LexTransitive(x, s[0], s[j]);
      }
    }
  }

  /** Inserting x above the head h keeps every element of the tail's insertion at least h. */
  lemma InsertedAbove(s: seq<string>, x: string, rest: seq<string>)
    requires Sorted(s) && s != [] && LexLe(s[0], x)
    requires multiset(rest) == multiset(s[1..]) + multiset{x}
    ensures forall y :: y in rest ==> LexLe(s[0], y)
  {
    forall y | y in rest ensures LexLe(s[0], y) {
      assert y in multiset(rest);
      if y != x {
        assert y in multiset(s[1..]);
        var j :| 0 <= j < |s[1..]| && s[1..][j] == y;
        assert s[j + 1] == y;
      }
    }
  }

  /** Insertion sort; Python's sorted() gives the same sequence (see SortedUnique). */
  function Sort(s: seq<string>): (r: seq<string>)
    ensures Sorted(r)
    ensures multiset(r) == multiset(s)
  {
    if s == [] then []
    else
      assert s == [s[0]] + s[1..];
      Insert(s[0], Sort(s[1..]))
  }

  lemma SortedHeadIsLeast(s: seq<string>, x: string)
    requires Sorted(s) && x in s
    ensures LexLe(s[0], x)
  {
    var i :| 0 <= i < |s| && s[i] == x;
    if i == 0 { LexReflexive(x); }
  }

  lemma TailMultiset(s: seq<string>)
    requires s != []
    ensures multiset(s[1..]) == multiset(s) - multiset{s[0]}
  {
    assert s == [s[0]] + s[1..];
  }

  /** Two sorted sequences with the same elements are equal, so any correct sort agrees with Sort. */
  lemma {:induction false} SortedUnique(a: seq<string>, b: seq<string>)
    requires Sorted(a) && Sorted(b) && multiset(a) == multiset(b)
    ensures a == b
    decreases |a|
  {
    assert |b| == |multiset(b)| == |multiset(a)| == |a|;
    if a != [] {
      assert a[0] in multiset(b) && b[0] in multiset(a);
      SortedHeadIsLeast(b, a[0]);
      SortedHeadIsLeast(a, b[0]);
      LexAntisymmetric(a[0], b[0]);
      TailMultiset(a);
      TailMultiset(b);
      SortedUnique(a[1..], b[1..]);
      assert a == [a[0]] + a[1..] && b == [b[0]] + b[1..];
    }
  }
}
