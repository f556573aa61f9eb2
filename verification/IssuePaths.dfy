/** Issue paths (JSON Pointers, RFC 6901) and the normalized schema issue list of the decode kernel. */
module IssuePaths {
  import opened Options
  import opened Utf16Text
  import opened Sorting

  const NUL: CodeUnit := 0x00
  const SLASH: CodeUnit := 0x2F
  const TILDE: CodeUnit := 0x7E
  const ZERO: CodeUnit := 0x30
  const ONE: CodeUnit := 0x31

  // ---------------------------------------------------------------- escaping

  /** `value.replaceAll(from, to)` for a one-unit pattern. */
  function ReplaceUnit(t: Text, from: CodeUnit, to: Text): Text {
    if t == [] then [] else (if t[0] == from then to else [t[0]]) + ReplaceUnit(t[1..], from, to)
  }

  /** `value.replaceAll(pattern, to)` for a two-unit pattern. */
  function ReplacePair(t: Text, first: CodeUnit, second: CodeUnit, to: CodeUnit): Text {
    if |t| < 2 then t
    else if t[0] == first && t[1] == second then [to] + ReplacePair(t[2..], first, second, to)
    else [t[0]] + ReplacePair(t[1..], first, second, to)
  }

  function PointerSegment(t: Text): Text {
    ReplaceUnit(ReplaceUnit(t, TILDE, [TILDE, ZERO]), SLASH, [TILDE, ONE])
  }

  function ChildPath(path: Text, key: Text): Text {
    path + [SLASH] + PointerSegment(key)
  }

  /** Section 4 of RFC 6901: first `~1` becomes `/`, then `~0` becomes `~`. */
  function Unescape(t: Text): Text {
    ReplacePair(ReplacePair(t, TILDE, ONE, SLASH), TILDE, ZERO, TILDE)
  }

  lemma {:induction false} SegmentStep(t: Text)
    requires t != []
    ensures PointerSegment(t) ==
            (if t[0] == TILDE then [TILDE, ZERO] else if t[0] == SLASH then [TILDE, ONE] else [t[0]]) + PointerSegment(t[1..])
  {
    var rest := ReplaceUnit(t[1..], TILDE, [TILDE, ZERO]);
    var once := ReplaceUnit(t, TILDE, [TILDE, ZERO]);
    if t[0] == TILDE {
      assert once == [TILDE] + ([ZERO] + rest);
      assert once[1..] == [ZERO] + rest;
      assert ([ZERO] + rest)[1..] == rest;
      assert ReplaceUnit([ZERO] + rest, SLASH, [TILDE, ONE]) == [ZERO] + PointerSegment(t[1..]);
    } else {
      assert once[1..] == rest;
    }
  }

  lemma {:induction false} SlashesComeBack(t: Text)
    ensures ReplacePair(PointerSegment(t), TILDE, ONE, SLASH) == ReplaceUnit(t, TILDE, [TILDE, ZERO])
  {
    if t != [] {
      SlashesComeBack(t[1..]);
      SegmentStep(t);
      var rest := PointerSegment(t[1..]);
      if t[0] == TILDE {
        assert [TILDE, ZERO] + rest == [TILDE] + ([ZERO] + rest);
        PairStep(TILDE, [ZERO] + rest, TILDE, ONE, SLASH);
        PairStep(ZERO, rest, TILDE, ONE, SLASH);
      } else if t[0] == SLASH {
        assert [TILDE, ONE] + rest == [TILDE] + ([ONE] + rest) && ([ONE] + rest)[1..] == rest;
        PairStep(TILDE, [ONE] + rest, TILDE, ONE, SLASH);
      } else {
        PairStep(t[0], rest, TILDE, ONE, SLASH);
      }
    }
  }

  lemma PairStep(u: CodeUnit, rest: Text, first: CodeUnit, second: CodeUnit, to: CodeUnit)
    ensures ReplacePair([u] + rest, first, second, to)
            == if u == first && rest != [] && rest[0] == second then [to] + ReplacePair(rest[1..], first, second, to)
               else [u] + ReplacePair(rest, first, second, to)
  {
    assert ([u] + rest)[1..] == rest;
    if rest != [] { assert ([u] + rest)[2..] == rest[1..]; }
  }

  lemma {:induction false} TildesComeBack(t: Text)
    ensures ReplacePair(ReplaceUnit(t, TILDE, [TILDE, ZERO]), TILDE, ZERO, TILDE) == t
  {
    if t != [] {
      TildesComeBack(t[1..]);
      var s, rest := ReplaceUnit(t, TILDE, [TILDE, ZERO]), ReplaceUnit(t[1..], TILDE, [TILDE, ZERO]);
      if t[0] == TILDE {
        assert s[2..] == rest;
      } else {
        assert s[1..] == rest;
      }
    }
  }

  lemma UnescapeUndoesPointerSegment(t: Text)
    ensures Unescape(PointerSegment(t)) == t
  {
    SlashesComeBack(t);
    TildesComeBack(t);
  }

  lemma {:induction false} SegmentHasNoSlash(t: Text)
    ensures SLASH !in PointerSegment(t)
  {
    if t != [] {
      SegmentHasNoSlash(t[1..]);
      SegmentStep(t);
    }
  }

  // ---------------------------------------------------------------- whole pointers

  /** The path that `ChildPath` builds from the root along `keys`. */
  function PathOf(keys: seq<Text>): Text {
    if keys == [] then [] else ChildPath(PathOf(keys[..|keys| - 1]), keys[|keys| - 1])
  }

  /** Where the last reference token of a pointer starts: just after its last slash. */
  function LastToken(path: Text): nat
    ensures LastToken(path) <= |path|
  {
    if path == [] || path[|path| - 1] == SLASH then |path| else LastToken(path[..|path| - 1])
  }

  /** Section 3 of RFC 6901: a pointer is a sequence of tokens, each led by a slash. */
  function KeysOf(path: Text): seq<Text>
    decreases |path|
  {
    var start := LastToken(path);
    if start == 0 then [] else KeysOf(path[..start - 1]) + [Unescape(path[start..])]
  }

  lemma {:induction false} LastTokenOfChild(path: Text, token: Text)
    requires SLASH !in token
    ensures LastToken(path + [SLASH] + token) == |path| + 1
  {
    var whole := path + [SLASH] + token;
    if token != [] {
      assert whole[..|whole| - 1] == path + [SLASH] + token[..|token| - 1];
      assert whole[|whole| - 1] == token[|token| - 1];
      LastTokenOfChild(path, token[..|token| - 1]);
    }
  }

  lemma KeysOfChild(path: Text, key: Text)
    ensures KeysOf(ChildPath(path, key)) == KeysOf(path) + [key]
  {
    var whole := ChildPath(path, key);
    SegmentHasNoSlash(key);
    UnescapeUndoesPointerSegment(key);
    LastTokenOfChild(path, PointerSegment(key));
    assert whole[..|path|] == path;
    assert whole[|path| + 1..] == PointerSegment(key);
  }

  /** The keys can be read back from the path, so different locations have different paths. */
  lemma {:induction false} PathDeterminesKeys(keys: seq<Text>)
    ensures KeysOf(PathOf(keys)) == keys
  {
    if keys != [] {
      var front, last := keys[..|keys| - 1], keys[|keys| - 1];
      PathDeterminesKeys(front);
      KeysOfChild(PathOf(front), last);
    }
  }

  lemma PathsAreInjective(a: seq<Text>, b: seq<Text>)
    requires PathOf(a) == PathOf(b)
    ensures a == b
  {
    PathDeterminesKeys(a);
    PathDeterminesKeys(b);
  }

  // ---------------------------------------------------------------- order on texts

  /** JavaScript's `<` on strings: lexicographic by code unit. */
  predicate TextLess(a: Text, b: Text) {
    if b == [] then false
    else if a == [] then true
    else a[0] < b[0] || (a[0] == b[0] && TextLess(a[1..], b[1..]))
  }

  lemma {:induction false} TextLessTotal(a: Text, b: Text)
    ensures TextLess(a, b) || TextLess(b, a) || a == b
    ensures !(TextLess(a, b) && TextLess(b, a))
    ensures a == b ==> !TextLess(a, b)
  {
    if a != [] && b != [] {
      TextLessTotal(a[1..], b[1..]);
      if a[1..] == b[1..] && a[0] == b[0] {
        assert a == [a[0]] + a[1..] && b == [b[0]] + b[1..];
      }
    }
  }

  lemma {:induction false} TextLessTransitive(a: Text, b: Text, c: Text)
    requires TextLess(a, b) && TextLess(b, c)
    ensures TextLess(a, c)
  {
    if a != [] && a[0] == b[0] == c[0] {
      TextLessTransitive(a[1..], b[1..], c[1..]);
    }
  }

  // ---------------------------------------------------------------- schema issues

  /** What the schema validator reports of one violation. */
  datatype SchemaError = SchemaError(
    keyword: string, instancePath: Text,
    missingProperty: Option<Text>, additionalProperty: Option<Text>)

  datatype Rule = AdditionalProperty | Format | Literal | Range | Reference | Required | Structure | Type

  datatype Issue = Issue(path: Text, rule: Rule)

  function IssueRule(error: SchemaError): Rule {
    var k := error.keyword;
    if k == "required" then Required
    else if k == "additionalProperties" then AdditionalProperty
    else if k in ["const", "enum"] then Literal
    else if k in ["pattern", "format", "propertyNames"] then Format
    else if k in ["minimum", "maximum", "exclusiveMinimum", "exclusiveMaximum", "multipleOf", "minLength",
                  "maxLength", "minItems", "maxItems", "minProperties", "maxProperties"] then Range
    else if k == "$ref" then Reference
    else if k in ["anyOf", "oneOf", "allOf", "not", "items", "contains", "uniqueItems", "dependencies",
                  "dependentRequired", "dependentSchemas"] then Structure
    else if k == "type" then Type else Structure
  }

  function IssuePath(error: SchemaError): Text {
    if error.keyword == "required" && error.missingProperty.Some?
    then ChildPath(error.instancePath, error.missingProperty.value)
    else if error.keyword == "additionalProperties" && error.additionalProperty.Some?
    then ChildPath(error.instancePath, error.additionalProperty.value)
    else error.instancePath
  }

  function IssueOf(error: SchemaError): Issue {
    Issue(IssuePath(error), IssueRule(error))
  }

  /** The rule's name, by which rules are compared and keyed. */
  function RuleName(rule: Rule): string {
    match rule
    case AdditionalProperty => "additional_property"
    case Format => "format"
    case Literal => "literal"
    case Range => "range"
    case Reference => "reference"
    case Required => "required"
    case Structure => "structure"
    case Type => "type"
  }

  function Ascii(s: string): (t: Text)
    requires forall i | 0 <= i < |s| :: s[i] < 128 as char
    ensures |t| == |s| && forall i | 0 <= i < |s| :: t[i] as int == s[i] as int
  {
    seq(|s|, i requires 0 <= i < |s| => s[i] as int as CodeUnit)
  }

  function RuleText(rule: Rule): Text {
    Ascii(RuleName(rule))
  }

  /** The map key of an issue: path, NUL, rule name. */
  function IssueKey(issue: Issue): Text {
    issue.path + [NUL] + RuleText(issue.rule)
  }

  lemma RuleNamesDiffer(a: Rule, b: Rule)
    requires RuleText(a) == RuleText(b)
    ensures a == b
  {
    var s, t := RuleName(a), RuleName(b);
    assert |s| == |t| && forall i | 0 <= i < |s| :: RuleText(a)[i] == RuleText(b)[i];
    forall i | 0 <= i < |s| ensures s[i] == t[i] {
      assert RuleText(a)[i] as int == s[i] as int && RuleText(b)[i] as int == t[i] as int;
    }
    assert s == t;
  }

  lemma RuleNamesHaveNoNul(a: Rule)
    ensures NUL !in RuleText(a)
  {
    assert forall i | 0 <= i < |RuleName(a)| :: RuleName(a)[i] != '\0';
  }

  /** A path may itself contain NUL, yet no two issues share a key. */
  lemma IssueKeysAreInjective(a: Issue, b: Issue)
    requires IssueKey(a) == IssueKey(b)
    ensures a == b
  {
    RuleNamesHaveNoNul(a.rule);
    RuleNamesHaveNoNul(b.rule);
    var m, n := |a.path|, |b.path|;
    assert IssueKey(a)[m] == NUL && IssueKey(b)[n] == NUL;
    assert m == n;
    assert a.path == IssueKey(a)[..m] == IssueKey(b)[..n] == b.path;
    assert RuleText(a.rule) == IssueKey(a)[m + 1..] == IssueKey(b)[n + 1..] == RuleText(b.rule);
    RuleNamesDiffer(a.rule, b.rule);
  }

  predicate IssueLess(a: Issue, b: Issue) {
    TextLess(a.path, b.path) || (a.path == b.path && TextLess(RuleText(a.rule), RuleText(b.rule)))
  }

  function IssueSet(errors: seq<SchemaError>): set<Issue> {
    set i | 0 <= i < |errors| :: IssueOf(errors[i])
  }

  lemma IssueSetSnoc(errors: seq<SchemaError>, n: nat)
    requires n < |errors|
    ensures IssueSet(errors[..n + 1]) == IssueSet(errors[..n]) + {IssueOf(errors[n])}
  {
    assert errors[..n + 1] == errors[..n] + [errors[n]];
  }

  lemma IssueOrderIsTotal()
    ensures StrictTotalOrder(IssueLess)
  {
    forall a, b ensures !IssueLess(a, a) && (IssueLess(a, b) || IssueLess(b, a) || a == b) {
      TextLessTotal(a.path, b.path);
      TextLessTotal(a.path, a.path);
      TextLessTotal(RuleText(a.rule), RuleText(b.rule));
      TextLessTotal(RuleText(a.rule), RuleText(a.rule));
      if a.path == b.path && RuleText(a.rule) == RuleText(b.rule) {
        RuleNamesDiffer(a.rule, b.rule);
      }
    }
    forall a, b, c | IssueLess(a, b) && IssueLess(b, c) ensures IssueLess(a, c) {
      if TextLess(a.path, b.path) && TextLess(b.path, c.path) {
        TextLessTransitive(a.path, b.path, c.path);
      } else if a.path == b.path == c.path {
        TextLessTransitive(RuleText(a.rule), RuleText(b.rule), RuleText(c.rule));
      }
    }
  }

  /** `normalizeIssues`: one issue per (path, rule), sorted by path, then rule. */
  method NormalizeIssues(errors: seq<SchemaError>) returns (issues: seq<Issue>)
    ensures Sorted(IssueLess, issues)
    ensures forall x :: x in issues <==> x in IssueSet(errors)
  {
    // A JavaScript map: entries by key, in insertion order.
    var unique: map<Text, Issue> := map[];
    var values: seq<Issue> := [];
    for n := 0 to |errors|
      invariant forall x :: x in values ==> IssueKey(x) in unique
      invariant forall k | k in unique :: IssueKey(unique[k]) == k && unique[k] in values
      invariant AllDistinct(values)
      invariant forall x :: x in values <==> x in IssueSet(errors[..n])
    {
      var issue := IssueOf(errors[n]);
      var key := IssueKey(issue);
      if key in unique {
        IssueKeysAreInjective(issue, unique[key]);
      } else {
        values := values + [issue];
      }
      unique := unique[key := issue];
      IssueSetSnoc(errors, n);
    }
    assert errors[..|errors|] == errors;
    IssueOrderIsTotal();
    SortSorts(IssueLess, values);
    issues := Sort(IssueLess, values);
  }

  /** The list is a function of the set of (path, rule) pairs: neither the order nor the repetition
      of the reported errors can show. */
  lemma NormalizedIssuesDependOnTheSet(errors: seq<SchemaError>, others: seq<SchemaError>, a: seq<Issue>, b: seq<Issue>)
    requires IssueSet(errors) == IssueSet(others)
    requires Sorted(IssueLess, a) && forall x :: x in a <==> x in IssueSet(errors)
    requires Sorted(IssueLess, b) && forall x :: x in b <==> x in IssueSet(others)
    ensures a == b
  {
    IssueOrderIsTotal();
    SortedIsUnique(IssueLess, a, b);
  }
}
