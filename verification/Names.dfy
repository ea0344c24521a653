/** Names of the artifacts that the operator creates for a SiddhiProcess, and which of
    them can and cannot coincide. */
module Names {
  import opened Decimal

  const PVC_EXTENSION := "-pvc"
  const DEP_CM_EXTENSION := "-depyml"
  const PARSER_EXTENSION := "-parser"

  /** Deployment and service of the `i`-th application of process `p`. */
  function AppName(p: string, i: nat): string {
    p + "-" + Itoa(i)
  }

  function ParserName(p: string): string {
    p + PARSER_EXTENSION
  }

  function ClaimName(app: string): string {
    app + PVC_EXTENSION
  }

  /** Config map with the runner configuration of a process or of one application. */
  function RunnerConfigName(base: string): string {
    base + DEP_CM_EXTENSION
  }

  /** Config map with the Siddhi files of an application at a version. */
  function AppsConfigName(app: string, version: int): string {
    app + Itoa(version)
  }

  ghost predicate IsAppOf(n: string, p: string) {
    exists i: nat :: n == AppName(p, i)
  }

  ghost predicate IsDeploymentOf(n: string, p: string) {
    n == ParserName(p) || IsAppOf(n, p)
  }

  ghost predicate IsClaimOf(n: string, p: string) {
    exists i: nat :: n == ClaimName(AppName(p, i))
  }

  ghost predicate IsAppsConfigOf(n: string, p: string) {
    exists i: nat, v: nat :: n == AppsConfigName(AppName(p, i), v)
  }

  ghost predicate IsRunnerConfigOf(n: string, p: string) {
    n == RunnerConfigName(p) || exists i: nat :: n == RunnerConfigName(AppName(p, i))
  }

  ghost predicate IsConfigOf(n: string, p: string) {
    IsRunnerConfigOf(n, p) || IsAppsConfigOf(n, p)
  }

  /** Neither process is named like an application of the other. */
  ghost predicate Apart(p: string, q: string) {
    !IsAppOf(p, q) && !IsAppOf(q, p)
  }

  /** A deployment name determines the process and the index. */
  lemma AppNameInjective(p: string, i: nat, q: string, j: nat)
    requires AppName(p, i) == AppName(q, j)
    ensures p == q && i == j
  {
    assert '-' !in Digits(i) && '-' !in Digits(j);
    SplitUnique(p, '-', Digits(i), q, Digits(j));
    DigitsInjective(i, j);
  }

  lemma AppIsNotParser(p: string, i: nat, q: string)
    ensures AppName(p, i) != ParserName(q)
  {
    var n := AppName(p, i);
    assert IsDigit(n[|n| - 1]);
    assert ParserName(q)[|ParserName(q)| - 1] == 'r';
  }

  lemma DeploymentOwnerUnique(n: string, p: string, q: string)
    requires IsDeploymentOf(n, p) && IsDeploymentOf(n, q)
    ensures p == q
  {
    if n == ParserName(p) && n == ParserName(q) {
      SuffixUnique(p, q, PARSER_EXTENSION);
    } else if n == ParserName(p) {
      var j: nat :| n == AppName(q, j);
      AppIsNotParser(q, j, p);
    } else if n == ParserName(q) {
      var i: nat :| n == AppName(p, i);
      AppIsNotParser(p, i, q);
    } else {
      var i: nat :| n == AppName(p, i);
      var j: nat :| n == AppName(q, j);
      AppNameInjective(p, i, q, j);
    }
  }

  lemma ClaimNameInjective(a: string, b: string)
    requires ClaimName(a) == ClaimName(b)
    ensures a == b
  {
    SuffixUnique(a, b, PVC_EXTENSION);
  }

  lemma RunnerConfigNameInjective(a: string, b: string)
    requires RunnerConfigName(a) == RunnerConfigName(b)
    ensures a == b
  {
    SuffixUnique(a, b, DEP_CM_EXTENSION);
  }

  lemma ClaimOwnerUnique(n: string, p: string, q: string)
    requires IsClaimOf(n, p) && IsClaimOf(n, q)
    ensures p == q
  {
    var i: nat :| n == ClaimName(AppName(p, i));
    var j: nat :| n == ClaimName(AppName(q, j));
    ClaimNameInjective(AppName(p, i), AppName(q, j));
    AppNameInjective(p, i, q, j);
  }

  /** A config map of Siddhi files is never taken for one with a runner configuration. */
  lemma AppsConfigIsNotRunnerConfig(app: string, v: nat, base: string)
    ensures AppsConfigName(app, v) != RunnerConfigName(base)
  {
    var n := AppsConfigName(app, v);
    assert n[|n| - 1] == Digits(v)[|Digits(v)| - 1];
    assert RunnerConfigName(base)[|RunnerConfigName(base)| - 1] == 'l';
  }

  /** Two names of Siddhi-file config maps agree only within one process, and only when the
      digits of index and version run together to the same string. */
  lemma AppsConfigSplit(p: string, i: nat, v: nat, q: string, j: nat, w: nat)
    requires AppsConfigName(AppName(p, i), v) == AppsConfigName(AppName(q, j), w)
    ensures p == q && Digits(i) + Digits(v) == Digits(j) + Digits(w)
  {
    AppsConfigShape(p, i, v);
    AppsConfigShape(q, j, w);
    SplitUnique(p, '-', Digits(i) + Digits(v), q, Digits(j) + Digits(w));
  }

  lemma AppsConfigShape(p: string, i: nat, v: nat)
    ensures AppsConfigName(AppName(p, i), v) == p + ['-'] + (Digits(i) + Digits(v))
    ensures '-' !in Digits(i) + Digits(v)
  {
  }

  /** Deleting the config map of a removed application never hits a surviving one: the
      survivor has the smaller index and mounts no newer version. */
  lemma RemovedConfigIsNotSurvivors(p: string, i: nat, prev: nat, j: nat, v: nat)
    requires j < i && v <= prev
    ensures AppsConfigName(AppName(p, i), prev) != AppsConfigName(AppName(p, j), v)
  {
    if AppsConfigName(AppName(p, i), prev) == AppsConfigName(AppName(p, j), v) {
      AppsConfigSplit(p, i, prev, p, j, v);
      ConcatCollision(i, prev, j, v);
    }
  }

  /** Rolling out a version that differs modulo ten from another writes none of the other
      version's config maps, whatever the two indices. */
  lemma VersionsApart(p: string, i: nat, v: nat, q: string, j: nat, w: nat)
    requires v % 10 != w % 10
    ensures AppsConfigName(AppName(p, i), v) != AppsConfigName(AppName(q, j), w)
  {
    if AppsConfigName(AppName(p, i), v) == AppsConfigName(AppName(q, j), w) {
      AppsConfigSplit(p, i, v, q, j, w);
      ConcatLastDigit(i, v, j, w);
    }
  }

  lemma ConsecutiveVersionsApart(p: string, i: nat, v: nat, j: nat)
    ensures AppsConfigName(AppName(p, i), v) != AppsConfigName(AppName(p, j), v + 1)
  {
    VersionsApart(p, i, v, p, j, v + 1);
  }

  /** Within one rollout all applications have different config maps. */
  lemma SameVersionDistinct(p: string, i: nat, j: nat, v: nat)
    requires AppsConfigName(AppName(p, i), v) == AppsConfigName(AppName(p, j), v)
    ensures i == j
  {
    SuffixUnique(AppName(p, i), AppName(p, j), Itoa(v));
    AppNameInjective(p, i, p, j);
  }

  /** Versions that agree modulo ten can collide. */
  lemma DistantVersionsCollide(p: string)
    ensures AppsConfigName(AppName(p, 1), 11) == AppsConfigName(AppName(p, 11), 1)
  {
  }

  lemma AppsConfigOwnerUnique(n: string, p: string, q: string)
    requires IsAppsConfigOf(n, p) && IsConfigOf(n, q)
    ensures p == q
  {
    var i: nat, v: nat :| n == AppsConfigName(AppName(p, i), v);
    if IsAppsConfigOf(n, q) {
      var j: nat, w: nat :| n == AppsConfigName(AppName(q, j), w);
      AppsConfigSplit(p, i, v, q, j, w);
    } else if n == RunnerConfigName(q) {
      AppsConfigIsNotRunnerConfig(AppName(p, i), v, q);
    } else {
      var j: nat :| n == RunnerConfigName(AppName(q, j));
      AppsConfigIsNotRunnerConfig(AppName(p, i), v, AppName(q, j));
    }
  }

  /** Two processes share a config map name exactly when one of them is named like an
      application of the other. */
  lemma ConfigsSharedIff(p: string, q: string)
    requires p != q
    ensures (exists n :: IsConfigOf(n, p) && IsConfigOf(n, q)) <==> !Apart(p, q)
  {
    if exists n :: IsConfigOf(n, p) && IsConfigOf(n, q) {
      var n :| IsConfigOf(n, p) && IsConfigOf(n, q);
      if Apart(p, q) {
        ConfigOwnerUnique(n, p, q);
      }
    }
    if IsAppOf(p, q) {
      assert IsConfigOf(RunnerConfigName(p), p) && IsConfigOf(RunnerConfigName(p), q);
    } else if IsAppOf(q, p) {
      assert IsConfigOf(RunnerConfigName(q), p) && IsConfigOf(RunnerConfigName(q), q);
    }
  }

  lemma ConfigOwnerUnique(n: string, p: string, q: string)
    requires IsConfigOf(n, p) && IsConfigOf(n, q)
    requires Apart(p, q)
    ensures p == q
  {
    if IsAppsConfigOf(n, p) {
      AppsConfigOwnerUnique(n, p, q);
    } else if IsAppsConfigOf(n, q) {
      AppsConfigOwnerUnique(n, q, p);
    } else {
      var a := RunnerBase(n, p);
      var b := RunnerBase(n, q);
      RunnerConfigNameInjective(a, b);
      if a != p && b != q {
        var i: nat :| a == AppName(p, i);
        var j: nat :| b == AppName(q, j);
        AppNameInjective(p, i, q, j);
      }
    }
  }

  lemma RunnerBase(n: string, p: string) returns (base: string)
    requires IsRunnerConfigOf(n, p)
    ensures n == RunnerConfigName(base) && (base == p || IsAppOf(base, p))
  {
    if n == RunnerConfigName(p) {
      base := p;
    } else {
      var i: nat :| n == RunnerConfigName(AppName(p, i));
      base := AppName(p, i);
    }
  }
}
