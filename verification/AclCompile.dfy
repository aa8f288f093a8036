/**
 Compiling a parsed policy document into rules, and the version that identifies a rule list.

 Parsing (HuJSON, addresses, ports as numbers in text) is not modelled: a document arrives
 parsed, with each rule's display text, and `Syntax` supplies how an address literal and a port
 specification read.
 */
module AclCompile {
  import opened Wrappers
  import opened AclPolicy
  import opened LengthPrefix
  import opened Text

  datatype Grant = Grant(text: string, src: seq<string>, dst: seq<string>, ip: seq<string>)
  datatype LegacyAcl = LegacyAcl(text: string, action: string, src: seq<string>, dst: seq<string>)

  datatype Document = Document(
    groups: map<string, seq<string>>, hosts: map<string, string>, ipsets: map<string, seq<Prefix>>,
    grants: seq<Grant>, acls: seq<LegacyAcl>)

  datatype Syntax = Syntax(
    trim: string -> string,
    prefix: string -> Option<Prefix>,
    port: string -> Option<PortSpec>)

  function CompileAutogroup(name: string, dir: Directory): Selector {
    match name
    case "internet" => Internet
    case "self" => Self
    case "owner" => Role(["owner"], dir)
    case "admin" => Role(["owner", "admin"], dir)
    case "member" => Member
    case _ => Opaque("autogroup:" + name + " cannot be evaluated from flow data")
  }

  function CompileSelector(s: string, d: Document, dir: Directory, x: Syntax): Selector {
    if s == "*" then Any
    else if HasPrefix(s, "tag:") then Tag(s)
    else if HasPrefix(s, "group:") then
      if s in d.groups then Users(d.groups[s])
      else Opaque("group " + s + " is referenced but not declared in the policy")
    else if HasPrefix(s, "ipset:") then
      if s in d.ipsets then Prefixes(d.ipsets[s])
      else Opaque("ipset " + s + " is referenced but not declared in the policy")
    else if HasPrefix(s, "svc:") then Opaque("VIP service " + s + " cannot be resolved to addresses here")
    else if HasPrefix(s, "autogroup:") then CompileAutogroup(s[|"autogroup:"|..], dir)
    else if '@' in s then Users([s])
    else
      var a := if s in d.hosts then d.hosts[s] else s;
      match x.prefix(a)
      case Some(p) => Prefixes([p])
      case None => Opaque("selector " + a + " is not a form this evaluator understands")
  }

  function CompileSelectors(ss: seq<string>, d: Document, dir: Directory, x: Syntax): seq<Selector> {
    seq(|ss|, i requires 0 <= i < |ss| => CompileSelector(x.trim(ss[i]), d, dir, x))
  }

  // Specifications that do not read as ports are dropped.
  function CompilePorts(specs: seq<string>, x: Syntax): seq<PortSpec> {
    if specs == [] then []
    else
      var rest := CompilePorts(specs[1..], x);
      match x.port(specs[0])
      case Some(p) => [p] + rest
      case None => rest
  }

  // "host:port" of a legacy destination, with the bracketed form of an IPv6 literal.
  function SplitLegacyDst(s: string): (string, string) {
    var end := LastIndex(s, ']');
    if HasPrefix(s, "[") && end >= 1 then
      var rest := s[end + 1..];
      (s[1..end], if HasPrefix(rest, ":") then rest[1..] else rest)
    else
      var i := LastIndex(s, ':');
      if i >= 0 then (s[..i], s[i + 1..]) else (s, "*")
  }

  // The last occurrence is where nothing follows.
  lemma LastIndexAt(s: string, c: char, i: nat)
    requires i < |s| && s[i] == c && forall k | i < k < |s| :: s[k] != c
    ensures LastIndex(s, c) == i
  {}

  // What was joined comes apart again, with and without brackets; no port means every port.
  lemma SplitPlain(host: string, port: string)
    requires ':' !in port && (host == "" || host[0] != '[')
    ensures SplitLegacyDst(host + ":" + port) == (host, port)
    ensures ':' !in host ==> SplitLegacyDst(host) == (host, "*")
  {
    var s := host + ":" + port;
    assert forall k | |host| < k < |s| :: s[k] == port[k - |host| - 1];
    LastIndexAt(s, ':', |host|);
    assert s[0] == if host == "" then ':' else host[0];
    assert !HasPrefix(s, "[") && !HasPrefix(host, "[");
    assert s[..|host|] == host && s[|host| + 1..] == port;
  }

  lemma SplitBracketed(host: string, port: string)
    requires ']' !in port
    ensures SplitLegacyDst("[" + host + "]:" + port) == (host, port)
  {
    var s, end := "[" + host + "]:" + port, |host| + 1;
    assert s == ("[" + host + "]") + (":" + port);
    assert s[end] == ']' && s[end + 1] == ':' && s[end + 1..] == ":" + port;
    assert forall k | end + 1 < k < |s| :: s[k] == port[k - end - 2];
    LastIndexAt(s, ']', end);
    assert s[..1] == "[" && s[1..end] == host;
    assert (":" + port)[..1] == ":" && (":" + port)[1..] == port;
  }

  function GrantRule(g: Grant, d: Document, dir: Directory, x: Syntax): Rule {
    Rule("grant", g.text, CompileSelectors(g.src, d, dir, x), CompileSelectors(g.dst, d, dir, x),
         CompilePorts(g.ip, x))
  }

  // Destinations and ports become two independent lists.
  function AclRule(a: LegacyAcl, d: Document, dir: Directory, x: Syntax): Rule {
    var hosts := seq(|a.dst|, i requires 0 <= i < |a.dst| => SplitLegacyDst(a.dst[i]).0);
    var ports := seq(|a.dst|, i requires 0 <= i < |a.dst| => SplitLegacyDst(a.dst[i]).1);
    Rule("acl", a.text, CompileSelectors(a.src, d, dir, x), CompileSelectors(hosts, d, dir, x),
         CompilePorts(ports, x))
  }

  // Only accept entries are rules.
  function Accepted(acls: seq<LegacyAcl>): seq<LegacyAcl> {
    if acls == [] then []
    else if acls[0].action == "accept" then [acls[0]] + Accepted(acls[1..])
    else Accepted(acls[1..])
  }

  // The rule list of a document: grants in order, then the accepted legacy entries in order.
  ghost function RulesOf(d: Document, dir: Directory, x: Syntax): seq<Rule> {
    var acls := Accepted(d.acls);
    seq(|d.grants|, i requires 0 <= i < |d.grants| => GrantRule(d.grants[i], d, dir, x))
    + seq(|acls|, i requires 0 <= i < |acls| => AclRule(acls[i], d, dir, x))
  }

  lemma {:induction false} AcceptedSnoc(acls: seq<LegacyAcl>, a: LegacyAcl)
    ensures Accepted(acls + [a]) == Accepted(acls) + if a.action == "accept" then [a] else []
  {
    if acls == [] {
      assert acls + [a] == [a] && [a][1..] == [];
    } else {
      assert (acls + [a])[1..] == acls[1..] + [a];
      AcceptedSnoc(acls[1..], a);
    }
  }

  method CompileRules(d: Document, dir: Directory, x: Syntax) returns (rules: seq<Rule>)
    ensures rules == RulesOf(d, dir, x)
  {
    rules := [];
    ghost var grants := seq(|d.grants|, i requires 0 <= i < |d.grants| => GrantRule(d.grants[i], d, dir, x));
    for i := 0 to |d.grants|
      invariant rules == grants[..i]
    {
      rules := rules + [GrantRule(d.grants[i], d, dir, x)];
    }
    assert grants[..|d.grants|] == grants;
    ghost var n := 0;
    ghost var acls := Accepted(d.acls);
    ghost var tail := seq(|acls|, i requires 0 <= i < |acls| => AclRule(acls[i], d, dir, x));
    for i := 0 to |d.acls|
      invariant n == |Accepted(d.acls[..i])| <= |acls| && acls[..n] == Accepted(d.acls[..i])
      invariant rules == grants + tail[..n]
    {
      var a := d.acls[i];
      assert d.acls[..i + 1] == d.acls[..i] + [a];
      AcceptedSnoc(d.acls[..i], a);
      AcceptedPrefix(d.acls, i + 1);
      if a.action != "accept" {
        continue;
      }
      assert acls[n] == a;
      rules := rules + [AclRule(a, d, dir, x)];
      n := n + 1;
    }
    assert d.acls[..|d.acls|] == d.acls;
    assert tail[..n] == tail;
  }

  lemma {:induction false} AcceptedPrefix(acls: seq<LegacyAcl>, i: nat)
    requires i <= |acls|
    ensures Accepted(acls[..i]) <= Accepted(acls)
    decreases |acls| - i
  {
    if i == |acls| {
      assert acls[..i] == acls;
    } else {
      assert acls[..i + 1] == acls[..i] + [acls[i]];
      AcceptedSnoc(acls[..i], acls[i]);
      AcceptedPrefix(acls, i + 1);
    }
  }

  /* ---------------------------------------------------------------------- version */

  // Kind and source of every rule, in order: what a version stands for.
  ghost function Fields(rules: seq<Rule>): seq<string> {
    if rules == [] then [] else [rules[0].kind, rules[0].source] + Fields(rules[1..])
  }

  ghost function VersionPreimage(rules: seq<Rule>): Preimage {
    Concat(Field64, Fields(rules))
  }

  lemma {:induction false} FieldsSnoc(rules: seq<Rule>, r: Rule)
    ensures Fields(rules + [r]) == Fields(rules) + [r.kind] + [r.source]
  {
    if rules == [] {
      assert rules + [r] == [r] && [r][1..] == [];
    } else {
      assert (rules + [r])[1..] == rules[1..] + [r];
      FieldsSnoc(rules[1..], r);
    }
  }

  // The bytes written into the running hash.
  method WriteVersion(rules: seq<Rule>) returns (written: Preimage)
    ensures written == VersionPreimage(rules)
  {
    written := [];
    for i := 0 to |rules|
      invariant written == Concat(Field64, Fields(rules[..i]))
    {
      var r := rules[i];
      assert rules[..i + 1] == rules[..i] + [r];
      FieldsSnoc(rules[..i], r);
      ConcatSnoc(Field64, Fields(rules[..i]), r.kind);
      ConcatSnoc(Field64, Fields(rules[..i]) + [r.kind], r.source);
      written := written + Field64(r.kind);
      written := written + Field64(r.source);
    }
    assert rules[..|rules|] == rules;
  }

  ghost predicate GoRules(rules: seq<Rule>) {
    forall i | 0 <= i < |rules| :: GoString(rules[i].kind) && GoString(rules[i].source)
  }

  // The same rules, as far as display and attribution can tell.
  ghost predicate SameText(a: seq<Rule>, b: seq<Rule>) {
    |a| == |b| && forall i | 0 <= i < |a| :: a[i].kind == b[i].kind && a[i].source == b[i].source
  }

  lemma {:induction false} FieldsAt(rules: seq<Rule>, i: nat)
    requires i < |rules|
    ensures |Fields(rules)| == 2 * |rules|
    ensures Fields(rules)[2 * i] == rules[i].kind && Fields(rules)[2 * i + 1] == rules[i].source
  {
    FieldsLength(rules);
    if i > 0 {
      FieldsAt(rules[1..], i - 1);
      assert Fields(rules)[2 * i] == Fields(rules[1..])[2 * (i - 1)];
      assert Fields(rules)[2 * i + 1] == Fields(rules[1..])[2 * (i - 1) + 1];
    }
  }

  lemma {:induction false} FieldsLength(rules: seq<Rule>)
    ensures |Fields(rules)| == 2 * |rules|
  {
    if rules != [] {
      FieldsLength(rules[1..]);
    }
  }

  // What is hashed determines the ordered list of kinds and sources.
  lemma VersionPreimageInjective(a: seq<Rule>, b: seq<Rule>)
    requires GoRules(a) && GoRules(b) && VersionPreimage(a) == VersionPreimage(b)
    ensures SameText(a, b)
  {
    FieldsLength(a);
    FieldsLength(b);
    forall k | 0 <= k < |Fields(a)| ensures GoString(Fields(a)[k]) {
      FieldsAt(a, k / 2);
    }
    forall k | 0 <= k < |Fields(b)| ensures GoString(Fields(b)[k]) {
      FieldsAt(b, k / 2);
    }
    Field64PrefixFree();
    ConcatInjective(Field64, GoString, Fields(a), Fields(b));
    forall i | 0 <= i < |a| ensures a[i].kind == b[i].kind && a[i].source == b[i].source {
      FieldsAt(a, i);
      FieldsAt(b, i);
    }
  }

  // The version does not depend on the identity directory: role changes never move it.
  lemma {:induction false} SameTextSamePreimage(a: seq<Rule>, b: seq<Rule>)
    requires SameText(a, b)
    ensures VersionPreimage(a) == VersionPreimage(b)
  {
    if a != [] {
      assert SameText(a[1..], b[1..]);
      FieldsFromText(a, b);
    }
  }

  lemma {:induction false} FieldsFromText(a: seq<Rule>, b: seq<Rule>)
    requires SameText(a, b)
    ensures Fields(a) == Fields(b)
  {
    if a != [] {
      FieldsFromText(a[1..], b[1..]);
    }
  }

  lemma DirectoryKeepsVersion(d: Document, dir: Directory, dir': Directory, x: Syntax)
    ensures SameText(RulesOf(d, dir, x), RulesOf(d, dir', x))
    ensures VersionPreimage(RulesOf(d, dir, x)) == VersionPreimage(RulesOf(d, dir', x))
  {
    SameTextSamePreimage(RulesOf(d, dir, x), RulesOf(d, dir', x));
  }
}
