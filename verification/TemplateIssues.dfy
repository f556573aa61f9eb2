/** Public validation issues of an Actor template, and the order and deduplication of a report. */
module TemplateIssues {
  import opened Options
  import opened Utf16Text
  import opened BrickBodies
  import opened ProjectTables
  import opened Sorting
  import opened IssuePaths

  datatype IssueCode =
    | DuplicateBrickRef | RefNotFound | BrickKindMismatch | BackendConfigInvalid | ToolProviderInvalid
    | BackendToolsetIncompatible | WorkspaceRootNotFound | WorkspacePathEscape | SchemaInvalid

  /** The place of a code's name among the names in code unit order. */
  function Rank(c: IssueCode): nat {
    match c
    case BackendConfigInvalid => 0
    case BackendToolsetIncompatible => 1
    case BrickKindMismatch => 2
    case DuplicateBrickRef => 3
    case RefNotFound => 4
    case SchemaInvalid => 5
    case ToolProviderInvalid => 6
    case WorkspacePathEscape => 7
    case WorkspaceRootNotFound => 8
  }

  datatype PublicIssue = PublicIssue(
    code: IssueCode, path: Text, resource: Option<BrickId>, revision: Option<int>,
    expectedKind: Option<BrickKind>, actualKind: Option<BrickKind>, provider: Option<Text>)

  function Plain(code: IssueCode, path: Text): PublicIssue {
    PublicIssue(code, path, None, None, None, None, None)
  }

  // ---------------------------------------------------------------- sort, then keep first copies

  datatype Indexed = Indexed(issue: PublicIssue, index: nat)

  /** Path, then code, then position. */
  predicate Before(a: Indexed, b: Indexed) {
    || TextLess(a.issue.path, b.issue.path)
    || (a.issue.path == b.issue.path && Rank(a.issue.code) < Rank(b.issue.code))
    || (a.issue.path == b.issue.path && a.issue.code == b.issue.code && a.index < b.index)
  }

  function IndexAll(issues: seq<PublicIssue>): (r: seq<Indexed>)
    ensures |r| == |issues| && forall i | 0 <= i < |r| :: r[i] == Indexed(issues[i], i)
  {
    seq(|issues|, i requires 0 <= i < |issues| => Indexed(issues[i], i))
  }

  /** Each issue where it occurs first. */
  function FirstCopies(s: seq<Indexed>): seq<PublicIssue> {
    if s == [] then []
    else
      var front := FirstCopies(s[..|s| - 1]);
      var last := s[|s| - 1].issue;
      if last in front then front else front + [last]
  }

  function ReportIssues(issues: seq<PublicIssue>): seq<PublicIssue> {
    FirstCopies(Sort(Before, IndexAll(issues)))
  }

  /** Not after, by path and code alone. */
  predicate InOrder(a: PublicIssue, b: PublicIssue) {
    TextLess(a.path, b.path) || (a.path == b.path && (a.code == b.code || Rank(a.code) < Rank(b.code)))
  }

  lemma BeforeIsTransitive(a: Indexed, b: Indexed, c: Indexed)
    requires Before(a, b) && Before(b, c)
    ensures Before(a, c)
  {
    if TextLess(a.issue.path, b.issue.path) && TextLess(b.issue.path, c.issue.path) {
      TextLessTransitive(a.issue.path, b.issue.path, c.issue.path);
    }
  }

  lemma BeforeIsTotal(a: Indexed, b: Indexed)
    requires a.index != b.index
    ensures Before(a, b) || Before(b, a)
  {
    TextLessTotal(a.issue.path, b.issue.path);
  }

  ghost predicate Ascending(s: seq<Indexed>) {
    forall i, j | 0 <= i < j < |s| :: Before(s[i], s[j])
  }

  lemma {:induction false} InsertedIsAscending(sorted: seq<Indexed>, x: Indexed)
    requires Ascending(sorted) && forall y | y in sorted :: y.index != x.index
    ensures Ascending(Insert(Before, sorted, x))
    ensures forall y :: y in Insert(Before, sorted, x) <==> y in sorted || y == x
  {
    if sorted != [] {
      assert sorted == [sorted[0]] + sorted[1..] && sorted[0] in sorted;
      BeforeIsTotal(sorted[0], x);
      if Before(sorted[0], x) {
        InsertedIsAscending(sorted[1..], x);
        var rest := Insert(Before, sorted[1..], x);
        forall j | 0 <= j < |rest| ensures Before(sorted[0], rest[j]) {
          assert rest[j] in rest;
          if rest[j] != x { var k :| 0 <= k < |sorted[1..]| && sorted[1..][k] == rest[j]; assert sorted[k + 1] == rest[j]; }
        }
      } else {
        forall j | 0 <= j < |sorted| ensures Before(x, sorted[j]) {
          if j > 0 { BeforeIsTransitive(x, sorted[0], sorted[j]); }
        }
      }
    }
  }

  lemma {:induction false} SortedIsAscending(s: seq<Indexed>)
    requires forall i, j | 0 <= i < j < |s| :: s[i].index != s[j].index
    ensures Ascending(Sort(Before, s))
    ensures forall y :: y in Sort(Before, s) <==> y in s
  {
    if s != [] {
      var front, last := s[..|s| - 1], s[|s| - 1];
      SortedIsAscending(front);
      assert s == front + [last];
      forall y | y in Sort(Before, front) ensures y.index != last.index {
        var i :| 0 <= i < |front| && front[i] == y;
        assert s[i] == y;
      }
      InsertedIsAscending(Sort(Before, front), last);
    }
  }

  lemma {:induction false} FirstCopiesKeepsOrder(s: seq<Indexed>)
    requires Ascending(s)
    ensures forall x :: x in FirstCopies(s) <==> exists i | 0 <= i < |s| :: s[i].issue == x
    ensures AllDistinct(FirstCopies(s))
    ensures forall i, j | 0 <= i < j < |FirstCopies(s)| :: InOrder(FirstCopies(s)[i], FirstCopies(s)[j])
  {
    if s != [] {
      var front := s[..|s| - 1];
      var last := s[|s| - 1];
      FirstCopiesKeepsOrder(front);
      var copies := FirstCopies(front);
      forall i | 0 <= i < |copies| ensures InOrder(copies[i], last.issue) {
        assert copies[i] in copies;
        var k :| 0 <= k < |front| && front[k].issue == copies[i];
        assert Before(s[k], last);
      }
      assert forall i | 0 <= i < |front| :: front[i] == s[i];
      forall x | x in copies ensures exists i | 0 <= i < |s| :: s[i].issue == x {
        var k :| 0 <= k < |front| && front[k].issue == x;
        assert s[k].issue == x;
      }
    }
  }

  /** A report holds exactly the issues found, each once, ordered by path and code. */
  lemma ReportHoldsEachOnce(issues: seq<PublicIssue>)
    ensures forall x :: x in ReportIssues(issues) <==> x in issues
    ensures AllDistinct(ReportIssues(issues))
    ensures forall i, j | 0 <= i < j < |ReportIssues(issues)| :: InOrder(ReportIssues(issues)[i], ReportIssues(issues)[j])
  {
    var all := IndexAll(issues);
    SortedIsAscending(all);
    var sorted := Sort(Before, all);
    FirstCopiesKeepsOrder(sorted);
    forall x | x in issues ensures x in ReportIssues(issues) {
      var i :| 0 <= i < |issues| && issues[i] == x;
      assert all[i] in all && all[i] in sorted;
      var k :| 0 <= k < |sorted| && sorted[k] == all[i];
      assert sorted[k].issue == x;
    }
    forall x | x in ReportIssues(issues) ensures x in issues {
      var k :| 0 <= k < |sorted| && sorted[k].issue == x;
      assert sorted[k] in sorted && sorted[k] in all;
    }
  }

  /** `sortAndDeduplicateIssues` */
  method SortAndDeduplicateIssues(issues: seq<PublicIssue>) returns (unique: seq<PublicIssue>)
    ensures unique == ReportIssues(issues)
  {
    var sorted := Sort(Before, IndexAll(issues));
    unique := [];
    var seen: set<PublicIssue> := {};
    for n := 0 to |sorted|
      invariant unique == FirstCopies(sorted[..n])
      invariant forall x :: x in seen <==> x in unique
    {
      assert sorted[..n + 1][..n] == sorted[..n];
      var issue := sorted[n].issue;
      if issue !in seen {
        seen := seen + {issue};
        unique := unique + [issue];
      }
    }
    assert sorted[..|sorted|] == sorted;
  }
}
