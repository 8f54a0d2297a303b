/** The gateway's own scan of a diff, used when the security agent reports nothing. */
module HeuristicScan {
  import opened ReviewTypes

  datatype Rule = Rule(title: string, severity: Severity)

  datatype Located = Located(title: string, severity: Severity, startLine: nat, snippet: string)

  /** A rule matching an added line. */
  datatype Hit = Hit(line: nat, rule: nat)

  /** Added lines start with a plus sign; file headers start with three. */
  predicate Added(line: string) {
    |line| > 0 && line[0] == '+' && !(|line| >= 3 && line[..3] == "+++")
  }

  /** Exactly the lines that begin with one or two plus signs, but not three, are added lines. */
  lemma AddedMeans(line: string)
    ensures Added(line) <==> |line| >= 1 && line[0] == '+' && !(|line| >= 3 && line[1] == '+' && line[2] == '+')
  {
  }

  predicate Before(h: Hit, g: Hit) {
    h.line < g.line || (h.line == g.line && h.rule < g.rule)
  }

  predicate IsHit(lines: seq<string>, rules: seq<Rule>, test: (Rule, string) -> bool, h: Hit) {
    h.line < |lines| && h.rule < |rules| && Added(lines[h.line]) && test(rules[h.rule], lines[h.line])
  }

  function Report(lines: seq<string>, rules: seq<Rule>, h: Hit): Located
    requires h.line < |lines| && h.rule < |rules|
  {
    var line := lines[h.line];
    Located(rules[h.rule].title, rules[h.rule].severity, h.line + 1, if |line| > 120 then line[..120] else line)
  }

  /** A finding names its rule, the line's number from one, and up to 120 characters from the line's start. */
  lemma ReportSays(lines: seq<string>, rules: seq<Rule>, h: Hit)
    requires h.line < |lines| && h.rule < |rules|
    ensures var f, line := Report(lines, rules, h), lines[h.line];
            && f.title == rules[h.rule].title && f.severity == rules[h.rule].severity && f.startLine == h.line + 1
            && |f.snippet| == (if |line| < 120 then |line| else 120)
            && forall i :: 0 <= i < |f.snippet| ==> f.snippet[i] == line[i]
  {
  }

  /** A hit before `end` that no earlier hit of the same title precedes. */
  ghost predicate FirstOfTitle(lines: seq<string>, rules: seq<Rule>, test: (Rule, string) -> bool, end: Hit, h: Hit) {
    && IsHit(lines, rules, test, h) && Before(h, end)
    && forall g :: IsHit(lines, rules, test, g) && rules[g.rule].title == rules[h.rule].title ==> !Before(g, h)
  }

  /** In order, exactly the first hit of every title among the hits before `end`. */
  ghost predicate Scanned(lines: seq<string>, rules: seq<Rule>, test: (Rule, string) -> bool, end: Hit, hits: seq<Hit>) {
    && (forall i, j :: 0 <= i < j < |hits| ==> Before(hits[i], hits[j]))
    && (forall h :: h in hits <==> FirstOfTitle(lines, rules, test, end, h))
  }

  /** Some hit of this title is among the reported ones. */
  ghost predicate Known(rules: seq<Rule>, hits: seq<Hit>, title: string) {
    exists k :: 0 <= k < |hits| && hits[k].rule < |rules| && rules[hits[k].rule].title == title
  }

  /** Every hit before `end` has its title reported. */
  lemma HitsAreReported(lines: seq<string>, rules: seq<Rule>, test: (Rule, string) -> bool, end: Hit, hits: seq<Hit>, h: Hit)
    requires Scanned(lines, rules, test, end, hits)
    requires IsHit(lines, rules, test, h) && Before(h, end)
    ensures Known(rules, hits, rules[h.rule].title)
    decreases h.line, h.rule
  {
    if FirstOfTitle(lines, rules, test, end, h) {
      assert h in hits;
    } else {
      var g :| IsHit(lines, rules, test, g) && rules[g.rule].title == rules[h.rule].title && Before(g, h);
      HitsAreReported(lines, rules, test, end, hits, g);
    }
  }

  /** A hit is the first of its title exactly when the title is not yet reported. */
  lemma FirstUnlessKnown(lines: seq<string>, rules: seq<Rule>, test: (Rule, string) -> bool, at: Hit, hits: seq<Hit>)
    requires Scanned(lines, rules, test, at, hits) && IsHit(lines, rules, test, at)
    ensures Known(rules, hits, rules[at.rule].title) <==>
            !FirstOfTitle(lines, rules, test, at.(rule := at.rule + 1), at)
  {
    if Known(rules, hits, rules[at.rule].title) {
      var k :| 0 <= k < |hits| && hits[k].rule < |rules| && rules[hits[k].rule].title == rules[at.rule].title;
      assert hits[k] in hits;
      assert IsHit(lines, rules, test, hits[k]) && Before(hits[k], at);
    }
    if g :| IsHit(lines, rules, test, g) && rules[g.rule].title == rules[at.rule].title && Before(g, at) {
      HitsAreReported(lines, rules, test, at, hits, g);
    }
  }

  /** The hits reported after one more position is examined. */
  ghost function Extended(lines: seq<string>, rules: seq<Rule>, test: (Rule, string) -> bool, at: Hit, hits: seq<Hit>): seq<Hit>
    requires at.rule < |rules|
  {
    if IsHit(lines, rules, test, at) && !Known(rules, hits, rules[at.rule].title) then hits + [at] else hits
  }

  lemma Extend(lines: seq<string>, rules: seq<Rule>, test: (Rule, string) -> bool, at: Hit, hits: seq<Hit>)
    requires Scanned(lines, rules, test, at, hits) && at.rule < |rules| && at.line < |lines|
    ensures Scanned(lines, rules, test, at.(rule := at.rule + 1), Extended(lines, rules, test, at, hits))
  {
    var next := at.(rule := at.rule + 1);
    var r := Extended(lines, rules, test, at, hits);
    if IsHit(lines, rules, test, at) {
      FirstUnlessKnown(lines, rules, test, at, hits);
    }
    forall h
      ensures h in r <==> FirstOfTitle(lines, rules, test, next, h)
    {
      assert Before(h, next) <==> Before(h, at) || h == at;
      if h != at {
        assert h in r <==> h in hits;
      } else {
        assert at !in hits;
      }
    }
    assert forall k :: 0 <= k < |hits| ==> hits[k] in hits;
  }

  lemma NextLine(lines: seq<string>, rules: seq<Rule>, test: (Rule, string) -> bool, i: nat, j: nat, hits: seq<Hit>)
    requires Scanned(lines, rules, test, Hit(i, j), hits) && i < |lines|
    requires j == |rules| || (j == 0 && !Added(lines[i]))
    ensures Scanned(lines, rules, test, Hit(i + 1, 0), hits)
  {
  }

  /** The findings are the reports of the hits. */
  ghost predicate Reports(lines: seq<string>, rules: seq<Rule>, hits: seq<Hit>, findings: seq<Located>) {
    && |findings| == |hits|
    && forall k :: 0 <= k < |hits| ==>
         hits[k].line < |lines| && hits[k].rule < |rules| && findings[k] == Report(lines, rules, hits[k])
  }

  /** What the scan returns: in order, the first hit of every title. */
  ghost predicate ScanOf(lines: seq<string>, rules: seq<Rule>, test: (Rule, string) -> bool, findings: seq<Located>) {
    exists hits :: Scanned(lines, rules, test, Hit(|lines|, 0), hits) && Reports(lines, rules, hits, findings)
  }

  /** The duplicate test on findings is the one on hits. */
  lemma KnownByFindings(lines: seq<string>, rules: seq<Rule>, hits: seq<Hit>, findings: seq<Located>, title: string)
    requires Reports(lines, rules, hits, findings)
    ensures Known(rules, hits, title) <==> exists f :: f in findings && f.title == title
  {
  }

  /**
   The nested loops report, for every title some rule of which matches an added line, exactly one
   finding: the first match in order of line and then of rule.
   */
  method GatewayHeuristicScan(lines: seq<string>, rules: seq<Rule>, test: (Rule, string) -> bool)
    returns (findings: seq<Located>)
    ensures ScanOf(lines, rules, test, findings)
  {
    findings := [];
    ghost var hits: seq<Hit> := [];
    var i := 0;
    while i < |lines|
      invariant 0 <= i <= |lines|
      invariant Scanned(lines, rules, test, Hit(i, 0), hits)
      invariant Reports(lines, rules, hits, findings)
    {
      var line := lines[i];
      var j := 0;
      while Added(line) && j < |rules|
        invariant 0 <= j <= |rules| && (!Added(line) ==> j == 0)
        invariant Scanned(lines, rules, test, Hit(i, j), hits)
        invariant Reports(lines, rules, hits, findings)
      {
        var rule := rules[j];
        Extend(lines, rules, test, Hit(i, j), hits);
        KnownByFindings(lines, rules, hits, findings, rule.title);
        hits := Extended(lines, rules, test, Hit(i, j), hits);
        if test(rule, line) {
          if !(exists f :: f in findings && f.title == rule.title) {
            findings := findings + [Report(lines, rules, Hit(i, j))];
          }
        }
        j := j + 1;
      }
      NextLine(lines, rules, test, i, j, hits);
      i := i + 1;
    }
  }

  lemma {:induction false} SameOrdered(a: seq<Hit>, b: seq<Hit>)
    requires forall i, j :: 0 <= i < j < |a| ==> Before(a[i], a[j])
    requires forall i, j :: 0 <= i < j < |b| ==> Before(b[i], b[j])
    requires forall h :: h in a <==> h in b
    ensures a == b
  {
    assert b != [] ==> b[0] in b && b[0] in a;
    if a != [] {
      assert a[0] in b && b != [];
      assert b[0] in a;
      assert a[0] == b[0];
      forall h ensures h in a[1..] <==> h in b[1..]
      {
        assert h in a <==> h == a[0] || h in a[1..];
        assert h in b <==> h == b[0] || h in b[1..];
        assert a[0] !in a[1..] && b[0] !in b[1..];
      }
      SameOrdered(a[1..], b[1..]);
    }
  }

  /** The declarative meaning leaves no choice: one diff, one list of findings. */
  lemma ScanIsDetermined(lines: seq<string>, rules: seq<Rule>, test: (Rule, string) -> bool,
                         findings: seq<Located>, others: seq<Located>)
    requires ScanOf(lines, rules, test, findings) && ScanOf(lines, rules, test, others)
    ensures findings == others
  {
    var end := Hit(|lines|, 0);
    var hits :| Scanned(lines, rules, test, end, hits) && Reports(lines, rules, hits, findings);
    var hits' :| Scanned(lines, rules, test, end, hits') && Reports(lines, rules, hits', others);
    SameOrdered(hits, hits');
  }

  /** A rule matches an added line. */
  ghost predicate Matches(lines: seq<string>, rules: seq<Rule>, test: (Rule, string) -> bool, line: int, rule: int) {
    && 0 <= line < |lines| && 0 <= rule < |rules| && test(rules[rule], lines[line])
    && |lines[line]| >= 1 && lines[line][0] == '+'
    && !(|lines[line]| >= 3 && lines[line][1] == '+' && lines[line][2] == '+')
  }

  /** The first added line a rule matches. */
  ghost predicate FirstMatch(lines: seq<string>, rules: seq<Rule>, test: (Rule, string) -> bool, h: Hit) {
    Matches(lines, rules, test, h.line, h.rule) && forall i :: 0 <= i < h.line ==> !Matches(lines, rules, test, i, h.rule)
  }

  lemma HitMatches(lines: seq<string>, rules: seq<Rule>, test: (Rule, string) -> bool, h: Hit)
    ensures IsHit(lines, rules, test, h) <==> Matches(lines, rules, test, h.line, h.rule)
  {
    if h.line < |lines| {
      AddedMeans(lines[h.line]);
    }
  }

  /** First matches of two rules, by line and then by rule. */
  ghost predicate InOrder(lines: seq<string>, rules: seq<Rule>, test: (Rule, string) -> bool, g: Hit, h: Hit) {
    FirstMatch(lines, rules, test, g) && FirstMatch(lines, rules, test, h) && g.rule != h.rule
    && (g.line < h.line || (g.line == h.line && g.rule < h.rule))
  }

  ghost predicate Precedes(lines: seq<string>, rules: seq<Rule>, test: (Rule, string) -> bool, e: Located, f: Located) {
    exists g, h :: InOrder(lines, rules, test, g, h) && e == Report(lines, rules, g) && f == Report(lines, rules, h)
  }

  lemma RulesDiffer(lines: seq<string>, rules: seq<Rule>, test: (Rule, string) -> bool, g: Hit, h: Hit)
    requires FirstMatch(lines, rules, test, g) && FirstMatch(lines, rules, test, h) && Before(g, h)
    ensures g.rule != h.rule
  {
    assert Matches(lines, rules, test, g.line, g.rule);
  }

  lemma FirstOfRule(lines: seq<string>, rules: seq<Rule>, test: (Rule, string) -> bool, h: Hit)
    requires forall i, j :: 0 <= i < j < |rules| ==> rules[i].title != rules[j].title
    ensures FirstMatch(lines, rules, test, h) <==> FirstOfTitle(lines, rules, test, Hit(|lines|, 0), h)
  {
    forall k: nat
      ensures IsHit(lines, rules, test, Hit(k, h.rule)) <==> Matches(lines, rules, test, k, h.rule)
    {
      HitMatches(lines, rules, test, Hit(k, h.rule));
    }
    HitMatches(lines, rules, test, h);
    if IsHit(lines, rules, test, h) {
      forall g | IsHit(lines, rules, test, g) && rules[g.rule].title == rules[h.rule].title
        ensures g == Hit(g.line, h.rule)
      {
      }
    }
  }

  /**
   With distinct titles: one finding per rule that matches some added line, about its first such
   line, in the order of the lines and, within a line, of the rules.
   */
  lemma OneFindingPerRule(lines: seq<string>, rules: seq<Rule>, test: (Rule, string) -> bool, findings: seq<Located>)
    requires ScanOf(lines, rules, test, findings)
    requires forall i, j :: 0 <= i < j < |rules| ==> rules[i].title != rules[j].title
    ensures forall h :: FirstMatch(lines, rules, test, h) ==> Report(lines, rules, h) in findings
    ensures forall f :: f in findings ==> exists h :: FirstMatch(lines, rules, test, h) && f == Report(lines, rules, h)
    ensures forall i, j :: 0 <= i < j < |findings| ==> Precedes(lines, rules, test, findings[i], findings[j])
  {
    var hits :| Scanned(lines, rules, test, Hit(|lines|, 0), hits) && Reports(lines, rules, hits, findings);
    forall h
      ensures FirstMatch(lines, rules, test, h) <==> h in hits
    {
      FirstOfRule(lines, rules, test, h);
    }
    forall h | FirstMatch(lines, rules, test, h)
      ensures Report(lines, rules, h) in findings
    {
      var k :| 0 <= k < |hits| && hits[k] == h;
      assert findings[k] in findings;
    }
    forall f | f in findings
      ensures exists h :: FirstMatch(lines, rules, test, h) && f == Report(lines, rules, h)
    {
      var k :| 0 <= k < |findings| && findings[k] == f;
      assert hits[k] in hits;
    }
    forall i, j | 0 <= i < j < |findings|
      ensures Precedes(lines, rules, test, findings[i], findings[j])
    {
      assert hits[i] in hits && hits[j] in hits;
      RulesDiffer(lines, rules, test, hits[i], hits[j]);
      assert InOrder(lines, rules, test, hits[i], hits[j]);
    }
  }
}
