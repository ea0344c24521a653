/** The one Ingress named `siddhi` that all processes share. */
module Ingress {
  import opened SiddhiTypes
  import opened Decimal

  const INGRESS_NAME := "siddhi"

  datatype IngressPath = IngressPath(path: string, service: string, port: int)

  datatype Rule = Rule(host: string, paths: seq<IngressPath>)

  /** `tls` is the secret name, empty when the TLS section is absent. */
  datatype Ingress = Ingress(tls: string, rules: seq<Rule>)

  function PathString(service: string, port: int): string {
    "/" + service + "/" + (Itoa(port) + "(/|$)(.*)")
  }

  function PathsOf(service: string, ports: seq<Port>): seq<IngressPath> {
    seq(|ports|, i requires 0 <= i < |ports| =>
      IngressPath(PathString(service, ports[i].number), service, ports[i].number))
  }

  function WithPath(paths: seq<IngressPath>, p: IngressPath): seq<IngressPath> {
    if p in paths then paths else paths + [p]
  }

  /** `paths` with those of `wanted` appended, one by one, that are not yet there. */
  function WithPaths(paths: seq<IngressPath>, wanted: seq<IngressPath>): seq<IngressPath> {
    if wanted == [] then paths else WithPath(WithPaths(paths, wanted[..|wanted| - 1]), wanted[|wanted| - 1])
  }

  function MergeRule(r: Rule, wanted: seq<IngressPath>): Rule {
    if r.host == INGRESS_NAME then Rule(r.host, WithPaths(r.paths, wanted)) else r
  }

  predicate HasRule(rules: seq<Rule>) {
    exists k :: 0 <= k < |rules| && rules[k].host == INGRESS_NAME
  }

  function MergeRules(rules: seq<Rule>, wanted: seq<IngressPath>): seq<Rule> {
    if HasRule(rules) then seq(|rules|, i requires 0 <= i < |rules| => MergeRule(rules[i], wanted))
    else rules + [Rule(INGRESS_NAME, wanted)]
  }

  /** `IngressMutateFunc`. */
  function Merge(ing: Ingress, tls: string, wanted: seq<IngressPath>): Ingress {
    Ingress(tls, MergeRules(ing.rules, wanted))
  }

  /** The object `CreateOrUpdateIngress` constructs before it knows whether one exists. */
  function Fresh(tls: string, wanted: seq<IngressPath>): Ingress {
    Ingress(tls, [Rule(INGRESS_NAME, wanted)])
  }

  function CreateOrMerge(current: Option<Ingress>, tls: string, wanted: seq<IngressPath>): Ingress {
    match current
    case None => Merge(Fresh(tls, wanted), tls, wanted)
    case Some(ing) => Merge(ing, tls, wanted)
  }

  ghost predicate Distinct(paths: seq<IngressPath>) {
    forall i, j :: 0 <= i < j < |paths| ==> paths[i] != paths[j]
  }

  lemma {:induction false} WithPathsElements(paths: seq<IngressPath>, wanted: seq<IngressPath>)
    ensures paths <= WithPaths(paths, wanted)
    ensures forall p :: p in WithPaths(paths, wanted) <==> p in paths || p in wanted
  {
    if wanted != [] {
      var init := wanted[..|wanted| - 1];
      WithPathsElements(paths, init);
      assert wanted == init + [wanted[|wanted| - 1]];
    }
  }

  lemma {:induction false} WithPathsDistinct(paths: seq<IngressPath>, wanted: seq<IngressPath>)
    requires Distinct(paths)
    ensures Distinct(WithPaths(paths, wanted))
  {
    if wanted != [] {
      WithPathsDistinct(paths, wanted[..|wanted| - 1]);
    }
  }

  lemma {:induction false} WithPathsSettled(paths: seq<IngressPath>, wanted: seq<IngressPath>)
    requires forall p | p in wanted :: p in paths
    ensures WithPaths(paths, wanted) == paths
  {
    if wanted != [] {
      var init := wanted[..|wanted| - 1];
      assert wanted == init + [wanted[|wanted| - 1]];
      WithPathsSettled(paths, init);
    }
  }

  /** The merge keeps every path list as a prefix, leaves the rules of other hosts alone, adds
      no duplicate to an existing `siddhi` rule, and adds exactly the requested paths to it. */
  lemma MergeExtends(ing: Ingress, tls: string, wanted: seq<IngressPath>, k: nat)
    requires k < |ing.rules|
    ensures var m := Merge(ing, tls, wanted);
            && k < |m.rules| && m.rules[k].host == ing.rules[k].host
            && ing.rules[k].paths <= m.rules[k].paths
            && (ing.rules[k].host != INGRESS_NAME ==> m.rules[k] == ing.rules[k])
            && (ing.rules[k].host == INGRESS_NAME ==>
                  && (Distinct(ing.rules[k].paths) ==> Distinct(m.rules[k].paths))
                  && forall p :: p in m.rules[k].paths <==> p in ing.rules[k].paths || p in wanted)
  {
    WithPathsElements(ing.rules[k].paths, wanted);
    if Distinct(ing.rules[k].paths) {
      WithPathsDistinct(ing.rules[k].paths, wanted);
    }
  }

  lemma MergeFreshUnchanged(tls: string, wanted: seq<IngressPath>)
    ensures Merge(Fresh(tls, wanted), tls, wanted) == Fresh(tls, wanted)
  {
    WithPathsSettled(wanted, wanted);
    assert Fresh(tls, wanted).rules[0].host == INGRESS_NAME;
    assert MergeRules(Fresh(tls, wanted).rules, wanted) == Fresh(tls, wanted).rules;
  }

  /** All `siddhi` rules hold the requested paths, and there is one. */
  predicate Serves(ing: Ingress, wanted: seq<IngressPath>) {
    && HasRule(ing.rules)
    && forall k | 0 <= k < |ing.rules| && ing.rules[k].host == INGRESS_NAME ::
         forall p | p in wanted :: p in ing.rules[k].paths
  }

  lemma MergeServes(ing: Ingress, tls: string, wanted: seq<IngressPath>)
    ensures Serves(Merge(ing, tls, wanted), wanted)
  {
    var m := Merge(ing, tls, wanted);
    if HasRule(ing.rules) {
      var k :| 0 <= k < |ing.rules| && ing.rules[k].host == INGRESS_NAME;
      assert m.rules[k].host == INGRESS_NAME;
    } else {
      assert m.rules[|ing.rules|].host == INGRESS_NAME;
    }
    forall k | 0 <= k < |m.rules| && m.rules[k].host == INGRESS_NAME
      ensures forall p | p in wanted :: p in m.rules[k].paths
    {
      if k < |ing.rules| {
        MergeExtends(ing, tls, wanted, k);
      }
    }
  }

  /** Merging is the identity exactly when the paths are served and the TLS secret is the same. */
  lemma MergeSettledIff(ing: Ingress, tls: string, wanted: seq<IngressPath>)
    ensures Merge(ing, tls, wanted) == ing <==> Serves(ing, wanted) && ing.tls == tls
  {
    if Serves(ing, wanted) {
      forall k | 0 <= k < |ing.rules| ensures MergeRule(ing.rules[k], wanted) == ing.rules[k] {
        if ing.rules[k].host == INGRESS_NAME {
          WithPathsSettled(ing.rules[k].paths, wanted);
        }
      }
      assert MergeRules(ing.rules, wanted) == ing.rules;
    } else {
      MergeServes(ing, tls, wanted);
    }
  }

  lemma MergeIdempotent(ing: Ingress, tls: string, wanted: seq<IngressPath>)
    ensures var once := Merge(ing, tls, wanted); Merge(once, tls, wanted) == once
  {
    MergeServes(ing, tls, wanted);
    MergeSettledIff(Merge(ing, tls, wanted), tls, wanted);
  }

  /** Later merges never take a served path away. */
  lemma MergeKeepsServing(ing: Ingress, tls: string, wanted: seq<IngressPath>, served: seq<IngressPath>)
    requires Serves(ing, served)
    ensures Serves(Merge(ing, tls, wanted), served)
  {
    var m := Merge(ing, tls, wanted);
    var k :| 0 <= k < |ing.rules| && ing.rules[k].host == INGRESS_NAME;
    assert m.rules[k].host == INGRESS_NAME;
    forall k | 0 <= k < |m.rules| && m.rules[k].host == INGRESS_NAME
      ensures forall p | p in served :: p in m.rules[k].paths
    {
      MergeExtends(ing, tls, wanted, k);
    }
  }

  /** One call of `CreateOrUpdateIngress`. */
  datatype Request = Request(service: string, tls: string, ports: seq<Port>)

  function AfterRequests(rs: seq<Request>): Option<Ingress> {
    if rs == [] then None
    else
      var r := rs[|rs| - 1];
      Some(CreateOrMerge(AfterRequests(rs[..|rs| - 1]), r.tls, PathsOf(r.service, r.ports)))
  }

  ghost predicate Requested(rs: seq<Request>, p: IngressPath) {
    exists k :: 0 <= k < |rs| && p in PathsOf(rs[k].service, rs[k].ports)
  }

  /** `p` is the entry of one port of a service: it sends what starts with `/service/port` to that port. */
  ghost predicate EntryFor(p: IngressPath, service: string, port: Port) {
    && p.service == service && p.port == port.number
    && p.path == "/" + service + "/" + Itoa(port.number) + "(/|$)(.*)"
  }

  /** A request asks for one entry for each of its ports, in order, and for no other. */
  lemma PathsOfExact(service: string, ports: seq<Port>)
    ensures var paths := PathsOf(service, ports);
            && |paths| == |ports| && (forall j :: 0 <= j < |ports| ==> EntryFor(paths[j], service, ports[j]))
            && forall p :: p in paths <==> exists j :: 0 <= j < |ports| && EntryFor(p, service, ports[j])
  {
    var paths := PathsOf(service, ports);
    forall j | 0 <= j < |ports| ensures EntryFor(paths[j], service, ports[j]) {
      EntryShape(service, ports[j].number);
    }
    forall p ensures p in paths <==> exists j :: 0 <= j < |ports| && EntryFor(p, service, ports[j]) {
      if p in paths {
        var j :| 0 <= j < |paths| && paths[j] == p;
        assert EntryFor(p, service, ports[j]);
      }
      if exists j :: 0 <= j < |ports| && EntryFor(p, service, ports[j]) {
        var j :| 0 <= j < |ports| && EntryFor(p, service, ports[j]);
        assert p == paths[j];
      }
    }
  }

  lemma EntryShape(service: string, port: int)
    ensures PathString(service, port) == "/" + service + "/" + Itoa(port) + "(/|$)(.*)"
  {
  }

  /** Starting without an ingress, any history of calls leaves one rule for the host `siddhi`, with an entry
      for each port of each call and no other, and the TLS secret of the last call. */
  lemma IngressHistory(rs: seq<Request>)
    requires rs != []
    ensures AfterRequests(rs).Some?
    ensures var ing := AfterRequests(rs).value;
            && ing.tls == rs[|rs| - 1].tls
            && |ing.rules| == 1 && ing.rules[0].host == "siddhi"
            && forall p :: p in ing.rules[0].paths <==>
                             exists k, j :: 0 <= k < |rs| && 0 <= j < |rs[k].ports|
                                            && EntryFor(p, rs[k].service, rs[k].ports[j])
  {
    RequestHistory(rs);
    forall p ensures Requested(rs, p) <==>
                     exists k, j :: 0 <= k < |rs| && 0 <= j < |rs[k].ports|
                                    && EntryFor(p, rs[k].service, rs[k].ports[j]) {
      RequestedIff(rs, p);
    }
  }

  lemma RequestedIff(rs: seq<Request>, p: IngressPath)
    ensures Requested(rs, p) <==>
            exists k, j :: 0 <= k < |rs| && 0 <= j < |rs[k].ports| && EntryFor(p, rs[k].service, rs[k].ports[j])
  {
    if Requested(rs, p) {
      var k :| 0 <= k < |rs| && p in PathsOf(rs[k].service, rs[k].ports);
      PathsOfExact(rs[k].service, rs[k].ports);
      var j :| 0 <= j < |rs[k].ports| && EntryFor(p, rs[k].service, rs[k].ports[j]);
    }
    if exists k, j :: 0 <= k < |rs| && 0 <= j < |rs[k].ports| && EntryFor(p, rs[k].service, rs[k].ports[j]) {
      var k, j :| 0 <= k < |rs| && 0 <= j < |rs[k].ports| && EntryFor(p, rs[k].service, rs[k].ports[j]);
      PathsOfExact(rs[k].service, rs[k].ports);
      assert p in PathsOf(rs[k].service, rs[k].ports);
    }
  }

  lemma {:induction false} RequestHistory(rs: seq<Request>)
    requires rs != []
    ensures AfterRequests(rs).Some?
    ensures var ing := AfterRequests(rs).value;
            && ing.tls == rs[|rs| - 1].tls
            && |ing.rules| == 1 && ing.rules[0].host == INGRESS_NAME
            && forall p :: p in ing.rules[0].paths <==> Requested(rs, p)
  {
    var init, r := rs[..|rs| - 1], rs[|rs| - 1];
    var asked := PathsOf(r.service, r.ports);
    var ing := AfterRequests(rs).value;
    assert AfterRequests(rs) == Some(CreateOrMerge(AfterRequests(init), r.tls, asked));
    if init == [] {
      MergeFreshUnchanged(r.tls, asked);
      assert AfterRequests(init) == None;
      assert ing == CreateOrMerge(None, r.tls, asked);
      assert ing.rules == [Rule(INGRESS_NAME, asked)];
    } else {
      RequestHistory(init);
      var before := AfterRequests(init).value;
      assert before.rules[0].host == INGRESS_NAME;
      MergeExtends(before, r.tls, asked, 0);
      assert ing == Merge(before, r.tls, asked);
    }
    forall p ensures p in ing.rules[0].paths <==> Requested(rs, p) {
      RequestedLast(rs, p);
      assert init == [] ==> !Requested(init, p);
    }
  }

  lemma RequestedLast(rs: seq<Request>, p: IngressPath)
    requires rs != []
    ensures var r := rs[|rs| - 1];
            Requested(rs, p) <==> Requested(rs[..|rs| - 1], p) || p in PathsOf(r.service, r.ports)
  {
  }

  lemma PathStringInjective(s: string, p: int, t: string, q: int)
    requires '/' !in s && '/' !in t
    requires PathString(s, p) == PathString(t, q)
    ensures s == t && p == q
  {
    var e := "(/|$)(.*)";
    PathStringShape(s, p);
    PathStringShape(t, q);
    FirstSplitUnique(s, '/', Itoa(p) + e, t, Itoa(q) + e);
    SuffixUnique(Itoa(p), Itoa(q), e);
    ItoaInjective(p, q);
  }

  lemma PathStringShape(s: string, p: int)
    ensures PathString(s, p)[1..] == s + ['/'] + (Itoa(p) + "(/|$)(.*)")
  {
  }

  /** No two entries of the ingress send the same path to different backends. */
  lemma IngressConflictFree(rs: seq<Request>, p: IngressPath, q: IngressPath)
    requires forall k | 0 <= k < |rs| :: '/' !in rs[k].service
    requires Requested(rs, p) && Requested(rs, q) && p.path == q.path
    ensures p == q
  {
    var k :| 0 <= k < |rs| && p in PathsOf(rs[k].service, rs[k].ports);
    var m :| 0 <= m < |rs| && q in PathsOf(rs[m].service, rs[m].ports);
    PathStringInjective(p.service, p.port, q.service, q.port);
  }

  /** The order in which calls arrive does not matter for the set of paths. */
  lemma IngressOrderIrrelevant(rs: seq<Request>, ts: seq<Request>)
    requires rs != [] && multiset(rs) == multiset(ts)
    ensures ts != []
    ensures AfterRequests(rs).Some? && AfterRequests(ts).Some?
    ensures |AfterRequests(rs).value.rules| == 1 && |AfterRequests(ts).value.rules| == 1
    ensures forall p :: p in AfterRequests(rs).value.rules[0].paths <==> p in AfterRequests(ts).value.rules[0].paths
  {
    assert rs[0] in multiset(ts);
    RequestHistory(rs);
    RequestHistory(ts);
    forall p ensures Requested(rs, p) <==> Requested(ts, p) {
      if Requested(rs, p) {
        RequestedPermuted(rs, ts, p);
      }
      if Requested(ts, p) {
        RequestedPermuted(ts, rs, p);
      }
    }
  }

  lemma RequestedPermuted(rs: seq<Request>, ts: seq<Request>, p: IngressPath)
    requires multiset(rs) == multiset(ts) && Requested(rs, p)
    ensures Requested(ts, p)
  {
    var k :| 0 <= k < |rs| && p in PathsOf(rs[k].service, rs[k].ports);
    assert rs[k] in multiset(ts);
    var m :| 0 <= m < |ts| && ts[m] == rs[k];
  }

  /** A rule as the API object holds it: the path list sits behind a reference. */
  class RuleObject {
    const host: string
    var paths: seq<IngressPath>

    constructor (host: string, paths: seq<IngressPath>)
      ensures this.host == host && this.paths == paths
    {
      this.host := host;
      this.paths := paths;
    }

    function Value(): Rule
      reads this
    {
      Rule(host, paths)
    }
  }

  function Values(rules: seq<RuleObject>): seq<Rule>
    reads rules
  {
    seq(|rules|, i requires 0 <= i < |rules| reads rules => rules[i].Value())
  }

  method PathContains(paths: seq<IngressPath>, path: IngressPath) returns (r: bool)
    ensures r == (path in paths)
  {
    for i := 0 to |paths|
      invariant path !in paths[..i]
    {
      if paths[i] == path {
        return true;
      }
    }
    assert paths[..|paths|] == paths;
    return false;
  }

  method AppendMissing(rule: RuleObject, wanted: seq<IngressPath>)
    modifies rule
    ensures rule.paths == WithPaths(old(rule.paths), wanted)
  {
    for j := 0 to |wanted|
      invariant rule.paths == WithPaths(old(rule.paths), wanted[..j])
    {
      assert wanted[..j + 1][..j] == wanted[..j];
      var contained := PathContains(rule.paths, wanted[j]);
      if !contained {
        rule.paths := rule.paths + [wanted[j]];
      }
    }
    assert wanted[..|wanted|] == wanted;
  }

  /** `IngressMutateFunc`: extends the existing rules in place or appends a new one. */
  method MergeInPlace(rules: seq<RuleObject>, wanted: seq<IngressPath>) returns (result: seq<RuleObject>)
    requires forall i, j :: 0 <= i < j < |rules| ==> rules[i] != rules[j]
    modifies rules
    ensures Values(result) == MergeRules(old(Values(rules)), wanted)
  {
    ghost var was := Values(rules);
    var ruleExists := false;
    for i := 0 to |rules|
      invariant ruleExists <==> exists k :: 0 <= k < i && was[k].host == INGRESS_NAME
      invariant forall k :: 0 <= k < i ==> rules[k].Value() == MergeRule(was[k], wanted)
      invariant forall k :: i <= k < |rules| ==> rules[k].Value() == was[k]
    {
      if rules[i].host == INGRESS_NAME {
        assert was[i].host == INGRESS_NAME;
        ruleExists := true;
        AppendMissing(rules[i], wanted);
      }
    }
    result := rules;
    if !ruleExists {
      var added := new RuleObject(INGRESS_NAME, wanted);
      result := result + [added];
      assert Values(result) == was + [Rule(INGRESS_NAME, wanted)];
    } else {
      assert Values(result) == MergeRules(was, wanted);
    }
  }
}
