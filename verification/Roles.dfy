/** Role resolution over compiled bindings, and the table of grants each role compiles to. */
module Roles {
  import opened Text

  /** "Any kind" is narrowed == false, never an empty list. */
  datatype Binding = Binding(name: string, roles: seq<string>, narrowed: bool, kinds: seq<string>)

  /** A wildcard or regular-expression binding: its subject pattern by what it matches. */
  datatype Pattern = Pattern(matches: string -> bool, binding: Binding)

  datatype Provider = Provider(exact: map<string, seq<Binding>>, patterns: seq<Pattern>)

  predicate Known(kind: string) { kind == "User" || kind == "Client" }

  predicate Admits(b: Binding, kind: string) {
    !b.narrowed || (Known(kind) && kind in b.kinds)
  }

  // ------------------------------------------------------------ specification

  /** The bindings whose subject matches key, exact ones first. */
  function Matching(patterns: seq<Pattern>, key: string): seq<Binding> {
    if patterns == [] then []
    else (if patterns[0].matches(key) then [patterns[0].binding] else []) + Matching(patterns[1..], key)
  }

  function Exact(p: Provider, key: string): seq<Binding> {
    if key in p.exact then p.exact[key] else []
  }

  function Bound(p: Provider, key: string): seq<Binding> {
    Exact(p, key) + Matching(p.patterns, key)
  }

  function RolesOf(bs: seq<Binding>, kind: string): seq<string> {
    if bs == [] then [] else (if Admits(bs[0], kind) then bs[0].roles else []) + RolesOf(bs[1..], kind)
  }

  /** The names of the bindings that admit kind, or that do not. */
  function NamesOf(bs: seq<Binding>, kind: string, admitted: bool): seq<string> {
    if bs == [] then []
    else (if Admits(bs[0], kind) == admitted then [bs[0].name] else []) + NamesOf(bs[1..], kind, admitted)
  }

  // ------------------------------------------------------------ resolution

  datatype Names = Names(contributed: seq<string>, skipped: seq<string>)

  /** The outcome of matching a list of bindings, added to what came before. */
  function Added(names: Names, bs: seq<Binding>, kind: string, collect: bool): Names {
    if collect then Names(names.contributed + NamesOf(bs, kind, true), names.skipped + NamesOf(bs, kind, false)) else names
  }

  lemma {:induction false} RolesOfAppend(a: seq<Binding>, b: seq<Binding>, kind: string)
    ensures RolesOf(a + b, kind) == RolesOf(a, kind) + RolesOf(b, kind)
  {
    if a == [] {
      assert a + b == b;
    } else {
      assert (a + b)[1..] == a[1..] + b;
      RolesOfAppend(a[1..], b, kind);
    }
  }

  lemma {:induction false} NamesOfAppend(a: seq<Binding>, b: seq<Binding>, kind: string, admitted: bool)
    ensures NamesOf(a + b, kind, admitted) == NamesOf(a, kind, admitted) + NamesOf(b, kind, admitted)
  {
    if a == [] {
      assert a + b == b;
    } else {
      assert (a + b)[1..] == a[1..] + b;
      NamesOfAppend(a[1..], b, kind, admitted);
    }
  }

  /** One subject match. */
  method MatchOne(b: Binding, kind: string, collect: bool, roles: seq<string>, names: Names) returns (roles': seq<string>, names': Names)
    ensures roles' == roles + RolesOf([b], kind)
    ensures names' == Added(names, [b], kind, collect)
  {
    roles', names' := roles, names;
    assert [b][1..] == [] && roles + [] == roles;
    assert NamesOf([b], kind, Admits(b, kind)) == [b.name] && NamesOf([b], kind, !Admits(b, kind)) == [];
    assert names.contributed + [] == names.contributed && names.skipped + [] == names.skipped;
    if !Admits(b, kind) {
      if collect { names' := names'.(skipped := names'.skipped + [b.name]); }
      return;
    }
    roles' := roles' + b.roles;
    if collect { names' := names'.(contributed := names'.contributed + [b.name]); }
  }

  /** The exact matches. */
  method MatchExact(bs: seq<Binding>, kind: string, collect: bool) returns (roles: seq<string>, names: Names)
    ensures roles == RolesOf(bs, kind)
    ensures names == Added(Names([], []), bs, kind, collect)
  {
    roles, names := [], Names([], []);
    for i := 0 to |bs|
      invariant roles == RolesOf(bs[..i], kind)
      invariant names == Added(Names([], []), bs[..i], kind, collect)
    {
      StepOver(bs[..i], bs[i], kind);
      assert bs[..i + 1] == bs[..i] + [bs[i]];
      roles, names := MatchOne(bs[i], kind, collect, roles, names);
    }
    assert bs[..|bs|] == bs;
  }

  /** The wildcard and regular-expression matches. Without a collector a pattern that does not
      admit the kind is skipped before it is matched. */
  method MatchPatterns(ps: seq<Pattern>, key: string, kind: string, collect: bool) returns (roles: seq<string>, names: Names)
    ensures roles == RolesOf(Matching(ps, key), kind)
    ensures names == Added(Names([], []), Matching(ps, key), kind, collect)
  {
    roles, names := [], Names([], []);
    for i := 0 to |ps|
      invariant roles == RolesOf(Matching(ps[..i], key), kind)
      invariant names == Added(Names([], []), Matching(ps[..i], key), kind, collect)
    {
      MatchingSnoc(ps, i, key);
      StepOver(Matching(ps[..i], key), ps[i].binding, kind);
      assert roles + [] == roles && Matching(ps[..i], key) + [] == Matching(ps[..i], key);
      assert [ps[i].binding][1..] == [];
      if !collect && !Admits(ps[i].binding, kind) {
        continue;
      }
      if ps[i].matches(key) {
        roles, names := MatchOne(ps[i].binding, kind, collect, roles, names);
      }
    }
    assert ps[..|ps|] == ps;
  }

  /** resolveRoles: the roles do not depend on whether names are collected, and the names are
      those of the matching bindings, split by whether they admit the kind. */
  method ResolveRoles(p: Provider, key: string, kind: string, collect: bool) returns (roles: seq<string>, names: Names)
    ensures roles == RolesOf(Bound(p, key), kind)
    ensures names == Added(Names([], []), Bound(p, key), kind, collect)
  {
    var r1, n1 := MatchExact(Exact(p, key), kind, collect);
    var r2, n2 := MatchPatterns(p.patterns, key, kind, collect);
    roles := r1 + r2;
    names := Names(n1.contributed + n2.contributed, n1.skipped + n2.skipped);
    RolesOfAppend(Exact(p, key), Matching(p.patterns, key), kind);
    NamesOfAppend(Exact(p, key), Matching(p.patterns, key), kind, true);
    NamesOfAppend(Exact(p, key), Matching(p.patterns, key), kind, false);
  }

  lemma StepOver(done: seq<Binding>, b: Binding, kind: string)
    ensures RolesOf(done + [b], kind) == RolesOf(done, kind) + RolesOf([b], kind)
    ensures NamesOf(done + [b], kind, true) == NamesOf(done, kind, true) + NamesOf([b], kind, true)
    ensures NamesOf(done + [b], kind, false) == NamesOf(done, kind, false) + NamesOf([b], kind, false)
  {
    RolesOfAppend(done, [b], kind);
    NamesOfAppend(done, [b], kind, true);
    NamesOfAppend(done, [b], kind, false);
  }

  lemma {:induction false} MatchingSnoc(ps: seq<Pattern>, i: nat, key: string)
    requires i < |ps|
    ensures Matching(ps[..i + 1], key) == Matching(ps[..i], key) + (if ps[i].matches(key) then [ps[i].binding] else [])
  {
    if i == 0 {
      assert ps[..1] == [ps[0]] && ps[..0] == [];
    } else {
      assert ps[..i + 1][1..] == ps[1..][..i] && ps[..i][1..] == ps[1..][..i - 1];
      MatchingSnoc(ps[1..], i - 1, key);
    }
  }

  // ------------------------------------------------------------ kinds

  /** a is b with some elements left out. */
  predicate Subsequence(a: seq<string>, b: seq<string>) {
    a == [] || (b != [] && ((a[0] == b[0] && Subsequence(a[1..], b[1..])) || Subsequence(a, b[1..])))
  }

  lemma {:induction false} SubsequenceSkip(a: seq<string>, skipped: seq<string>, b: seq<string>)
    requires Subsequence(a, b)
    ensures Subsequence(a, skipped + b)
  {
    if skipped == [] {
      assert skipped + b == b;
    } else if a != [] {
      assert (skipped + b)[1..] == skipped[1..] + b;
      SubsequenceSkip(a, skipped[1..], b);
    }
  }

  lemma {:induction false} SubsequenceKeep(kept: seq<string>, a: seq<string>, b: seq<string>)
    requires Subsequence(a, b)
    ensures Subsequence(kept + a, kept + b)
  {
    if kept == [] {
      assert kept + a == a && kept + b == b;
    } else {
      assert (kept + a)[1..] == kept[1..] + a && (kept + b)[1..] == kept[1..] + b;
      SubsequenceKeep(kept[1..], a, b);
    }
  }

  /** A kind this release does not know gets no role any other kind would not get for the same
      key, in the same order: exactly the roles of the bindings that are not narrowed. */
  lemma {:induction false} UnknownKindIsLeast(bs: seq<Binding>, unknown: string, kind: string)
    requires !Known(unknown)
    ensures Subsequence(RolesOf(bs, unknown), RolesOf(bs, kind))
  {
    if bs != [] {
      UnknownKindIsLeast(bs[1..], unknown, kind);
      var a, b := RolesOf(bs[1..], unknown), RolesOf(bs[1..], kind);
      if !bs[0].narrowed {
        SubsequenceKeep(bs[0].roles, a, b);
      } else {
        assert RolesOf(bs, unknown) == a && (!Admits(bs[0], kind) ==> RolesOf(bs, kind) == b);
        if Admits(bs[0], kind) { SubsequenceSkip(a, bs[0].roles, b); }
      }
    }
  }

  lemma {:induction false} UnknownKindRoles(bs: seq<Binding>, unknown: string, role: string)
    requires !Known(unknown)
    ensures role in RolesOf(bs, unknown) <==> exists i :: 0 <= i < |bs| && !bs[i].narrowed && role in bs[i].roles
  {
    if bs != [] {
      UnknownKindRoles(bs[1..], unknown, role);
      if i :| 0 <= i < |bs| && !bs[i].narrowed && role in bs[i].roles {
        if i > 0 { assert bs[1..][i - 1] == bs[i]; }
      }
      if i :| 0 <= i < |bs[1..]| && !bs[1..][i].narrowed && role in bs[1..][i].roles {
        assert bs[i + 1] == bs[1..][i];
      }
    }
  }

  /** A role is resolved for a kind if and only if some binding lists it and is not narrowed,
      or names that kind, which is one of the two there are. */
  lemma {:induction false} RoleResolvedIff(bs: seq<Binding>, kind: string, role: string)
    ensures role in RolesOf(bs, kind) <==>
      exists i | 0 <= i < |bs| :: role in bs[i].roles && (!bs[i].narrowed || ((kind == "User" || kind == "Client") && kind in bs[i].kinds))
  {
    if bs != [] {
      var rest := bs[1..];
      RoleResolvedIff(rest, kind, role);
      if i :| 0 <= i < |bs| && role in bs[i].roles && (!bs[i].narrowed || ((kind == "User" || kind == "Client") && kind in bs[i].kinds)) {
        if i > 0 { assert rest[i - 1] == bs[i]; }
      }
      if i :| 0 <= i < |rest| && role in rest[i].roles && (!rest[i].narrowed || ((kind == "User" || kind == "Client") && kind in rest[i].kinds)) {
        assert bs[i + 1] == rest[i];
      }
    }
  }

  /** The names collected are those of the bindings that admit the kind, and of those that do
      not. */
  lemma {:induction false} NamesIff(bs: seq<Binding>, kind: string, admitted: bool, name: string)
    ensures name in NamesOf(bs, kind, admitted) <==>
      exists i | 0 <= i < |bs| :: name == bs[i].name && (!bs[i].narrowed || ((kind == "User" || kind == "Client") && kind in bs[i].kinds)) == admitted
  {
    if bs != [] {
      var rest := bs[1..];
      NamesIff(rest, kind, admitted, name);
      assert forall i | 0 <= i < |rest| :: rest[i] == bs[i + 1];
      assert forall i | 0 < i < |bs| :: bs[i] == rest[i - 1];
    }
  }

  /** The bindings considered for a key are those written for it, and those whose pattern
      matches it. */
  lemma BoundIff(p: Provider, key: string, b: Binding)
    ensures b in Bound(p, key) <==>
      (key in p.exact && b in p.exact[key]) || exists i :: 0 <= i < |p.patterns| && p.patterns[i].matches(key) && p.patterns[i].binding == b
  {
    MatchingIff(p.patterns, key, b);
  }

  lemma {:induction false} MatchingIff(ps: seq<Pattern>, key: string, b: Binding)
    ensures b in Matching(ps, key) <==> exists i :: 0 <= i < |ps| && ps[i].matches(key) && ps[i].binding == b
  {
    if ps != [] {
      var rest := ps[1..];
      MatchingIff(rest, key, b);
      if i :| 0 <= i < |ps| && ps[i].matches(key) && ps[i].binding == b {
        if i > 0 { assert rest[i - 1].matches(key) && rest[i - 1].binding == b; }
      }
      if i :| 0 <= i < |rest| && rest[i].matches(key) && rest[i].binding == b {
        assert ps[i + 1].matches(key) && ps[i + 1].binding == b;
      }
    }
  }

  // ------------------------------------------------------------ grants

  datatype Rule = Rule(resources: seq<string>, resourceNames: seq<string>, verbs: seq<string>, scopes: seq<string>)
  datatype Role = Role(name: string, rules: seq<Rule>)

  predicate Malformed(resource: string, resourceName: string, verb: string) {
    ':' in resource || ':' in verb || ':' in resourceName || '{' in resourceName || '}' in resourceName
  }

  function Grant(resource: string, resourceName: string, verb: string): string {
    resource + ":" + resourceName + ":" + verb
  }

  /** A rule's instance names; none stands for the empty one. */
  function InstanceNames(rule: Rule): seq<string> {
    if rule.resourceNames == [] then [""] else rule.resourceNames
  }

  /** The rule writes the grant of this triple. */
  predicate Writes(rule: Rule, resource: string, resourceName: string, verb: string) {
    && rule.scopes == []
    && resource in rule.resources && resourceName in InstanceNames(rule) && verb in rule.verbs
    && !Malformed(resource, resourceName, verb)
  }

  /** The rule writes g as an opaque scope. */
  predicate WritesScope(rule: Rule, g: string) {
    g in rule.scopes && ':' !in g
  }

  /** What the rules, together, may put in the table: each grant from one triple or one scope. */
  ghost predicate Explains(rules: seq<Rule>, g: string) {
    exists i :: 0 <= i < |rules| && (WritesScope(rules[i], g) || WritesTriple(rules[i], g))
  }

  ghost predicate WritesTriple(rule: Rule, g: string) {
    exists resource, name, verb :: Writes(rule, resource, name, verb) && g == Grant(resource, name, verb)
  }

  /** The opaque scopes of a rule. */
  method ScopesOf(rule: Rule) returns (grants: seq<string>)
    ensures forall g :: g in grants <==> WritesScope(rule, g)
  {
    grants := [];
    for i := 0 to |rule.scopes|
      invariant forall g :: g in grants <==> g in rule.scopes[..i] && ':' !in g
    {
      if ':' !in rule.scopes[i] { grants := grants + [rule.scopes[i]]; }
      assert rule.scopes[..i + 1] == rule.scopes[..i] + [rule.scopes[i]];
    }
    assert rule.scopes[..|rule.scopes|] == rule.scopes;
  }

  /** Three nested loops, as three sequences of verbs, instance names and resources. */
  ghost predicate Covers(resources: seq<string>, names: seq<string>, verbs: seq<string>, g: string) {
    exists r, n, v :: r in resources && n in names && v in verbs && !Malformed(r, n, v) && g == Grant(r, n, v)
  }

  method VerbGrants(r: string, n: string, verbs: seq<string>) returns (grants: seq<string>)
    ensures forall g :: g in grants <==> Covers([r], [n], verbs, g)
  {
    grants := [];
    for i := 0 to |verbs|
      invariant forall g :: g in grants <==> Covers([r], [n], verbs[..i], g)
    {
      assert verbs[..i + 1] == verbs[..i] + [verbs[i]];
      VerbSnoc(r, n, verbs[..i], verbs[i]);
      if !Malformed(r, n, verbs[i]) { grants := grants + [Grant(r, n, verbs[i])]; }
    }
    assert verbs[..|verbs|] == verbs;
  }

  lemma VerbSnoc(r: string, n: string, verbs: seq<string>, v: string)
    ensures forall g :: Covers([r], [n], verbs + [v], g) <==>
      Covers([r], [n], verbs, g) || (!Malformed(r, n, v) && g == Grant(r, n, v))
  {
  }

  method NameGrants(r: string, names: seq<string>, verbs: seq<string>) returns (grants: seq<string>)
    ensures forall g :: g in grants <==> Covers([r], names, verbs, g)
  {
    grants := [];
    for i := 0 to |names|
      invariant forall g :: g in grants <==> Covers([r], names[..i], verbs, g)
    {
      assert names[..i + 1] == names[..i] + [names[i]];
      NameSnoc(r, names[..i], names[i], verbs);
      var more := VerbGrants(r, names[i], verbs);
      grants := grants + more;
    }
    assert names[..|names|] == names;
  }

  lemma NameSnoc(r: string, names: seq<string>, n: string, verbs: seq<string>)
    ensures forall g :: Covers([r], names + [n], verbs, g) <==> Covers([r], names, verbs, g) || Covers([r], [n], verbs, g)
  {
  }

  method ResourceGrants(resources: seq<string>, names: seq<string>, verbs: seq<string>) returns (grants: seq<string>)
    ensures forall g :: g in grants <==> Covers(resources, names, verbs, g)
  {
    grants := [];
    for i := 0 to |resources|
      invariant forall g :: g in grants <==> Covers(resources[..i], names, verbs, g)
    {
      assert resources[..i + 1] == resources[..i] + [resources[i]];
      ResourceSnoc(resources[..i], resources[i], names, verbs);
      var more := NameGrants(resources[i], names, verbs);
      grants := grants + more;
    }
    assert resources[..|resources|] == resources;
  }

  lemma ResourceSnoc(resources: seq<string>, r: string, names: seq<string>, verbs: seq<string>)
    ensures forall g :: Covers(resources + [r], names, verbs, g) <==> Covers(resources, names, verbs, g) || Covers([r], names, verbs, g)
  {
  }

  method RuleGrants(rule: Rule) returns (grants: seq<string>)
    ensures forall g :: g in grants <==> WritesScope(rule, g) || WritesTriple(rule, g)
  {
    if |rule.scopes| > 0 {
      grants := ScopesOf(rule);
      return;
    }
    grants := ResourceGrants(rule.resources, InstanceNames(rule), rule.verbs);
    forall g ensures Covers(rule.resources, InstanceNames(rule), rule.verbs, g) <==> WritesTriple(rule, g) {
      if Covers(rule.resources, InstanceNames(rule), rule.verbs, g) {
        var r, n, v :| r in rule.resources && n in InstanceNames(rule) && v in rule.verbs && !Malformed(r, n, v) && g == Grant(r, n, v);
        assert Writes(rule, r, n, v);
      }
      if WritesTriple(rule, g) {
        var r, n, v :| Writes(rule, r, n, v) && g == Grant(r, n, v);
        assert r in rule.resources && n in InstanceNames(rule) && v in rule.verbs;
      }
    }
  }

  /** The grants of one role. */
  method RoleGrants(role: Role) returns (grants: seq<string>)
    ensures Holds(grants, role.rules)
  {
    grants := [];
    for i := 0 to |role.rules|
      invariant Holds(grants, role.rules[..i])
    {
      assert role.rules[..i + 1] == role.rules[..i] + [role.rules[i]];
      var more := RuleGrants(role.rules[i]);
      ExplainsSnoc(role.rules[..i], role.rules[i]);
      grants := grants + more;
    }
    assert role.rules[..|role.rules|] == role.rules;
  }

  lemma ExplainsSnoc(rules: seq<Rule>, rule: Rule)
    ensures forall g :: Explains(rules + [rule], g) <==> Explains(rules, g) || WritesScope(rule, g) || WritesTriple(rule, g)
  {
    var all := rules + [rule];
    forall g ensures Explains(all, g) <==> Explains(rules, g) || WritesScope(rule, g) || WritesTriple(rule, g) {
      assert all[|rules|] == rule;
      if Explains(rules, g) {
        var i :| 0 <= i < |rules| && (WritesScope(rules[i], g) || WritesTriple(rules[i], g));
        assert all[i] == rules[i];
      }
    }
  }

  /** The last role of a name, which is the one the table keeps. */
  predicate Last(roles: seq<Role>, i: nat)
    requires i < |roles|
  {
    forall j :: i < j < |roles| ==> roles[j].name != roles[i].name
  }

  /** The list holds exactly the grants the rules write. */
  ghost predicate Holds(grants: seq<string>, rules: seq<Rule>) {
    forall g :: g in grants <==> Explains(rules, g)
  }

  /** buildMappingTable: every role has an entry, and nothing else has; and the entry of a name
      holds exactly the grants that the rules of the last role of that name write. */
  method BuildMappingTable(roles: seq<Role>) returns (table: map<string, seq<string>>)
    ensures forall i :: 0 <= i < |roles| ==> roles[i].name in table
    ensures forall n :: n in table ==> exists i :: 0 <= i < |roles| && roles[i].name == n && Last(roles, i) && Holds(table[n], roles[i].rules)
  {
    table := map[];
    ghost var origin: map<string, nat> := map[];
    for k := 0 to |roles|
      invariant origin.Keys == table.Keys
      invariant forall i :: 0 <= i < k ==> roles[i].name in table
      invariant forall n :: n in origin ==> origin[n] < k && roles[origin[n]].name == n && Holds(table[n], roles[origin[n]].rules)
      invariant forall n, j :: n in origin && origin[n] < j < k ==> roles[j].name != n
    {
      var grants := RoleGrants(roles[k]);
      table, origin := table[roles[k].name := grants], origin[roles[k].name := k];
    }
    forall n | n in table ensures exists i :: 0 <= i < |roles| && roles[i].name == n && Last(roles, i) && Holds(table[n], roles[i].rules) {
      assert Last(roles, origin[n]);
    }
  }

  /** Every structured grant splits on ':' back into the one triple that wrote it, and no
      opaque scope is one: whatever the rules say, a grant means what was written. */
  lemma GrantsMeanWhatTheySay(rules: seq<Rule>, g: string)
    requires Explains(rules, g)
    ensures |Split(':', g)| == 1 || |Split(':', g)| == 3
    ensures |Split(':', g)| == 1 ==> ':' !in g && exists i :: 0 <= i < |rules| && WritesScope(rules[i], g)
    ensures |Split(':', g)| == 3 ==>
      exists i :: 0 <= i < |rules| && Writes(rules[i], Split(':', g)[0], Split(':', g)[1], Split(':', g)[2])
  {
    var i :| 0 <= i < |rules| && (WritesScope(rules[i], g) || WritesTriple(rules[i], g));
    if WritesScope(rules[i], g) {
      SplitPiece(':', g);
    } else {
      var r, n, v :| Writes(rules[i], r, n, v) && g == Grant(r, n, v);
      GrantSplits(r, n, v);
    }
  }

  lemma GrantSplits(r: string, n: string, v: string)
    requires !Malformed(r, n, v)
    ensures Split(':', Grant(r, n, v)) == [r, n, v]
    ensures ':' in Grant(r, n, v)
  {
    var tail := n + [':'] + v;
    assert Grant(r, n, v) == r + [':'] + tail;
    SplitPrefix(':', r, tail);
    SplitPrefix(':', n, v);
    SplitPiece(':', v);
    assert Grant(r, n, v)[|r|] == ':';
  }
}
