/**
 What a policy document says, written down from its grammar, and that the compiled rules say the
 same.

 `Describes` is when a selector, as it stands in the document, describes an endpoint; a grant
 covers a connection if its sources describe one end, its destinations the other, and one of its
 ports fits.  An accepted legacy entry does the same with its destinations and their ports taken
 independently.  Forms that flow data cannot decide are named by `Obscure`, with the reason given
 for them.
 */
module AclMeaning {
  import opened Wrappers
  import opened Text
  import opened AclPolicy
  import opened AclCompile
  import opened AclTheorems

  const AUTOGROUP := "autogroup:"

  // The address a name stands for: its alias, or itself.
  ghost function Resolve(s: string, d: Document): string {
    if s in d.hosts then d.hosts[s] else s
  }

  // Why a selector cannot be decided from flow data, if it cannot.
  ghost function Obscure(s: string, d: Document, x: Syntax): Option<string> {
    if s == "*" || HasPrefix(s, "tag:") then None
    else if HasPrefix(s, "group:") then
      if s in d.groups then None else Some("group " + s + " is referenced but not declared in the policy")
    else if HasPrefix(s, "ipset:") then
      if s in d.ipsets then None else Some("ipset " + s + " is referenced but not declared in the policy")
    else if HasPrefix(s, "svc:") then Some("VIP service " + s + " cannot be resolved to addresses here")
    else if HasPrefix(s, AUTOGROUP) then
      var name := s[|AUTOGROUP|..];
      if name in {"internet", "self", "owner", "admin", "member"} then None
      else Some("autogroup:" + name + " cannot be evaluated from flow data")
    else if '@' in s || x.prefix(Resolve(s, d)).Some? then None
    else Some("selector " + Resolve(s, d) + " is not a form this evaluator understands")
  }

  // The people and machines an automatic group stands for.  An owner is an admin too.
  ghost predicate InAutogroup(name: string, k: Known, other: Known, c: Conn, t: Truth) {
    || (name == "internet" && c.isExit)
    || (name == "self" && k.user != "" && other.user == k.user)
    || (name == "owner" && k.user != "" && t.roles(k.user) == "owner")
    || (name == "admin" && k.user != "" && (t.roles(k.user) == "owner" || t.roles(k.user) == "admin"))
    || (name == "member" && k.user != "" && k.tags == [])
  }

  // A selector describes the endpoint k, with `other` at the far end.
  ghost predicate Describes(s: string, k: Known, other: Known, c: Conn, t: Truth, d: Document, x: Syntax) {
    if Obscure(s, d, x).Some? then t.answers(Obscure(s, d, x).value, k, other)
    else if s == "*" then true
    else if HasPrefix(s, "tag:") then s in k.tags
    else if HasPrefix(s, "group:") then k.user != "" && k.user in d.groups[s]
    else if HasPrefix(s, "ipset:") then InSome(d.ipsets[s], k.addr)
    else if HasPrefix(s, AUTOGROUP) then InAutogroup(s[|AUTOGROUP|..], k, other, c, t)
    else if '@' in s then k.user == s
    else x.prefix(Resolve(s, d)).Some? && x.prefix(Resolve(s, d)).value.Contains(k.addr)
  }

  ghost predicate AnyDescribes(ss: seq<string>, k: Known, other: Known, c: Conn, t: Truth, d: Document, x: Syntax) {
    exists i :: 0 <= i < |ss| && Describes(x.trim(ss[i]), k, other, c, t, d, x)
  }

  // One of the port specifications that read as such fits.
  ghost predicate AnyPort(specs: seq<string>, c: Conn, t: Truth, x: Syntax) {
    exists i :: 0 <= i < |specs| && x.port(specs[i]).Some? && PortHolds(x.port(specs[i]).value, c, t)
  }

  ghost predicate GrantCovers(g: Grant, c: Conn, t: Truth, d: Document, x: Syntax) {
    AnyDescribes(g.src, t.src, t.dst, c, t, d, x) && AnyDescribes(g.dst, t.dst, t.src, c, t, d, x) && AnyPort(g.ip, c, t, x)
  }

  ghost predicate EntryCovers(a: LegacyAcl, c: Conn, t: Truth, d: Document, x: Syntax) {
    && AnyDescribes(a.src, t.src, t.dst, c, t, d, x)
    && (exists i :: 0 <= i < |a.dst| && HostPart(a.dst[i], c, t, d, x))
    && (exists i :: 0 <= i < |a.dst| && PortPart(a.dst[i], c, t, x))
  }

  ghost predicate HostPart(dst: string, c: Conn, t: Truth, d: Document, x: Syntax) {
    Describes(x.trim(SplitLegacyDst(dst).0), t.dst, t.src, c, t, d, x)
  }

  ghost predicate PortPart(dst: string, c: Conn, t: Truth, x: Syntax) {
    x.port(SplitLegacyDst(dst).1).Some? && PortHolds(x.port(SplitLegacyDst(dst).1).value, c, t)
  }

  // The document covers the connection.
  ghost predicate Covers(d: Document, c: Conn, t: Truth, x: Syntax) {
    || (exists i :: 0 <= i < |d.grants| && GrantCovers(d.grants[i], c, t, d, x))
    || (exists i :: 0 <= i < |d.acls| && d.acls[i].action == "accept" && EntryCovers(d.acls[i], c, t, d, x))
  }

  /* ------------------------------------------------------------------------ selectors */

  lemma AutogroupMeaning(name: string, dir: Directory, k: Known, other: Known, c: Conn, t: Truth)
    requires name in {"internet", "self", "owner", "admin", "member"}
    ensures Holds(CompileAutogroup(name, dir), k, other, c, t) <==> InAutogroup(name, k, other, c, t)
    ensures !CompileAutogroup(name, dir).Opaque?
  {}

  // Declared groups and sets, and services.
  lemma DeclaredMeaning(s: string, d: Document, dir: Directory, x: Syntax, k: Known, other: Known, c: Conn, t: Truth)
    requires s != "*" && !HasPrefix(s, "tag:")
    requires HasPrefix(s, "group:") || HasPrefix(s, "ipset:") || HasPrefix(s, "svc:")
    ensures Means(CompileSelector(s, d, dir, x), s, d, dir, x, k, other, c, t)
  {}

  lemma GroupMeaning(s: string, d: Document, dir: Directory, x: Syntax, k: Known, other: Known, c: Conn, t: Truth)
    requires HasPrefix(s, AUTOGROUP) && s != "*" && !HasPrefix(s, "tag:")
    requires !HasPrefix(s, "group:") && !HasPrefix(s, "ipset:") && !HasPrefix(s, "svc:")
    ensures Means(CompileSelector(s, d, dir, x), s, d, dir, x, k, other, c, t)
  {
    var name := s[|AUTOGROUP|..];
    assert CompileSelector(s, d, dir, x) == CompileAutogroup(name, dir);
    if name in {"internet", "self", "owner", "admin", "member"} {
      AutogroupMeaning(name, dir, k, other, c, t);
    }
  }

  // A login, a host alias or an address.
  lemma PlainMeaning(s: string, d: Document, dir: Directory, x: Syntax, k: Known, other: Known, c: Conn, t: Truth)
    requires s != "*" && !HasPrefix(s, "tag:") && !HasPrefix(s, AUTOGROUP)
    requires !HasPrefix(s, "group:") && !HasPrefix(s, "ipset:") && !HasPrefix(s, "svc:")
    ensures Means(CompileSelector(s, d, dir, x), s, d, dir, x, k, other, c, t)
  {
    if x.prefix(Resolve(s, d)).Some? {
      OnePrefix(x.prefix(Resolve(s, d)).value, k.addr);
    }
  }

  ghost predicate Means(sel: Selector, s: string, d: Document, dir: Directory, x: Syntax, k: Known, other: Known, c: Conn, t: Truth) {
    && (Holds(sel, k, other, c, t) <==> Describes(s, k, other, c, t, d, x))
    && (sel.Opaque? <==> Obscure(s, d, x).Some?)
    && (sel.Role? ==> sel.dir == dir)
  }

  // A compiled selector holds exactly when the selector describes the endpoint; it is opaque exactly
  // when it is obscure; and it looks roles up in the directory it was compiled with.
  lemma SelectorMeaning(s: string, d: Document, dir: Directory, x: Syntax, k: Known, other: Known, c: Conn, t: Truth)
    ensures var sel := CompileSelector(s, d, dir, x);
            && (Holds(sel, k, other, c, t) <==> Describes(s, k, other, c, t, d, x))
            && (sel.Opaque? <==> Obscure(s, d, x).Some?)
            && (sel.Role? ==> sel.dir == dir)
  {
    if s == "*" || HasPrefix(s, "tag:") {
    } else if HasPrefix(s, "group:") || HasPrefix(s, "ipset:") || HasPrefix(s, "svc:") {
      DeclaredMeaning(s, d, dir, x, k, other, c, t);
    } else if HasPrefix(s, AUTOGROUP) {
      GroupMeaning(s, d, dir, x, k, other, c, t);
    } else {
      PlainMeaning(s, d, dir, x, k, other, c, t);
    }
  }

  lemma OnePrefix(p: Prefix, a: Addr)
    ensures InSome([p], a) <==> p.Contains(a)
  {
    assert [p][0] == p;
  }

  lemma SelectorsMeaning(ss: seq<string>, d: Document, dir: Directory, x: Syntax, k: Known, other: Known, c: Conn, t: Truth)
    ensures var sels := CompileSelectors(ss, d, dir, x);
            SomeHolds(sels, k, other, c, t) <==> AnyDescribes(ss, k, other, c, t, d, x)
  {
    var sels := CompileSelectors(ss, d, dir, x);
    forall i | 0 <= i < |ss|
      ensures Holds(sels[i], k, other, c, t) <==> Describes(x.trim(ss[i]), k, other, c, t, d, x)
    {
      SelectorMeaning(x.trim(ss[i]), d, dir, x, k, other, c, t);
    }
  }

  lemma {:induction false} PortsMeaning(specs: seq<string>, x: Syntax, c: Conn, t: Truth)
    ensures var ports := CompilePorts(specs, x);
            SomePort(ports, c, t) <==> AnyPort(specs, c, t, x)
  {
    if specs != [] {
      var rest, ports := CompilePorts(specs[1..], x), CompilePorts(specs, x);
      PortsMeaning(specs[1..], x, c, t);
      if AnyPort(specs, c, t, x) {
        var i :| 0 <= i < |specs| && x.port(specs[i]).Some? && PortHolds(x.port(specs[i]).value, c, t);
        if i == 0 {
          assert ports[0] == x.port(specs[0]).value;
        } else {
          assert specs[1..][i - 1] == specs[i];
          var j :| 0 <= j < |rest| && PortHolds(rest[j], c, t);
          assert ports[j + |ports| - |rest|] == rest[j];
          assert SomePort(ports, c, t);
        }
      }
      if j :| 0 <= j < |ports| && PortHolds(ports[j], c, t) {
        if x.port(specs[0]).Some? && j == 0 {
          assert PortHolds(x.port(specs[0]).value, c, t);
        } else {
          assert rest[j - (|ports| - |rest|)] == ports[j];
          assert SomePort(rest, c, t);
          var i :| 0 <= i < |specs[1..]| && x.port(specs[1..][i]).Some? && PortHolds(x.port(specs[1..][i]).value, c, t);
          assert specs[i + 1] == specs[1..][i];
        }
      }
    }
  }

  /* ---------------------------------------------------------------------------- rules */

  // The i-th rule is the i-th grant: its text, and exactly the connections it covers.
  lemma GrantMeaning(d: Document, dir: Directory, x: Syntax, i: nat, c: Conn, t: Truth)
    requires i < |d.grants|
    ensures var r := RulesOf(d, dir, x)[i];
            && r.kind == "grant" && r.source == d.grants[i].text
            && (RuleHolds(r, c, t) <==> GrantCovers(d.grants[i], c, t, d, x))
  {
    var g := d.grants[i];
    assert RulesOf(d, dir, x)[i] == GrantRule(g, d, dir, x);
    SelectorsMeaning(g.src, d, dir, x, t.src, t.dst, c, t);
    SelectorsMeaning(g.dst, d, dir, x, t.dst, t.src, c, t);
    PortsMeaning(g.ip, x, c, t);
  }

  // After the grants come the accepted legacy entries, in order.
  lemma EntryMeaning(d: Document, dir: Directory, x: Syntax, j: nat, c: Conn, t: Truth)
    requires j < |Accepted(d.acls)|
    ensures var r := RulesOf(d, dir, x)[|d.grants| + j];
            && r.kind == "acl" && r.source == Accepted(d.acls)[j].text
            && (RuleHolds(r, c, t) <==> EntryCovers(Accepted(d.acls)[j], c, t, d, x))
  {
    assert RulesOf(d, dir, x)[|d.grants| + j] == AclRule(Accepted(d.acls)[j], d, dir, x);
    AclRuleMeaning(Accepted(d.acls)[j], d, dir, x, c, t);
  }

  lemma AclRuleMeaning(a: LegacyAcl, d: Document, dir: Directory, x: Syntax, c: Conn, t: Truth)
    ensures RuleHolds(AclRule(a, d, dir, x), c, t) <==> EntryCovers(a, c, t, d, x)
  {
    var hosts := seq(|a.dst|, i requires 0 <= i < |a.dst| => SplitLegacyDst(a.dst[i]).0);
    var ports := seq(|a.dst|, i requires 0 <= i < |a.dst| => SplitLegacyDst(a.dst[i]).1);
    SelectorsMeaning(a.src, d, dir, x, t.src, t.dst, c, t);
    SelectorsMeaning(hosts, d, dir, x, t.dst, t.src, c, t);
    PortsMeaning(ports, x, c, t);
    HostsDescribe(a, hosts, d, x, c, t);
    PortsFit(a, ports, x, c, t);
  }

  lemma HostsDescribe(a: LegacyAcl, hosts: seq<string>, d: Document, x: Syntax, c: Conn, t: Truth)
    requires |hosts| == |a.dst| && forall i | 0 <= i < |a.dst| :: hosts[i] == SplitLegacyDst(a.dst[i]).0
    ensures AnyDescribes(hosts, t.dst, t.src, c, t, d, x) <==> exists i :: 0 <= i < |a.dst| && HostPart(a.dst[i], c, t, d, x)
  {
    if i :| 0 <= i < |a.dst| && HostPart(a.dst[i], c, t, d, x) {
      assert Describes(x.trim(hosts[i]), t.dst, t.src, c, t, d, x);
    }
    if i :| 0 <= i < |hosts| && Describes(x.trim(hosts[i]), t.dst, t.src, c, t, d, x) {
      assert HostPart(a.dst[i], c, t, d, x);
    }
  }

  lemma PortsFit(a: LegacyAcl, ports: seq<string>, x: Syntax, c: Conn, t: Truth)
    requires |ports| == |a.dst| && forall i | 0 <= i < |a.dst| :: ports[i] == SplitLegacyDst(a.dst[i]).1
    ensures AnyPort(ports, c, t, x) <==> exists i :: 0 <= i < |a.dst| && PortPart(a.dst[i], c, t, x)
  {
    if i :| 0 <= i < |a.dst| && PortPart(a.dst[i], c, t, x) {
      assert x.port(ports[i]).Some? && PortHolds(x.port(ports[i]).value, c, t);
    }
    if i :| 0 <= i < |ports| && x.port(ports[i]).Some? && PortHolds(x.port(ports[i]).value, c, t) {
      assert PortPart(a.dst[i], c, t, x);
    }
  }

  // Accepted entries are those of the document with that action, each once and in order.
  lemma {:induction false} AcceptedAre(acls: seq<LegacyAcl>) returns (places: seq<nat>)
    ensures |places| == |Accepted(acls)|
    ensures forall j, k | 0 <= j < k < |places| :: places[j] < places[k]
    ensures forall j | 0 <= j < |places| ::
              places[j] < |acls| && acls[places[j]] == Accepted(acls)[j] && acls[places[j]].action == "accept"
    ensures forall i | 0 <= i < |acls| && acls[i].action == "accept" :: i in places
    decreases |acls|
  {
    if acls == [] {
      places := [];
    } else {
      var n := |acls| - 1;
      var init, last := acls[..n], acls[n];
      places := AcceptedAre(init);
      assert acls == init + [last];
      AcceptedSnoc(init, last);
      if last.action == "accept" {
        places := places + [n];
        assert places[|places| - 1] == n;
      }
    }
  }

  /* ------------------------------------------------------------------------ documents */

  lemma RulesCovered(d: Document, dir: Directory, x: Syntax, c: Conn, t: Truth, i: nat)
    requires i < |RulesOf(d, dir, x)| && RuleHolds(RulesOf(d, dir, x)[i], c, t)
    ensures Covers(d, c, t, x)
  {
    if i < |d.grants| {
      GrantMeaning(d, dir, x, i, c, t);
    } else {
      var j := i - |d.grants|;
      var places := AcceptedAre(d.acls);
      EntryMeaning(d, dir, x, j, c, t);
      assert EntryCovers(d.acls[places[j]], c, t, d, x);
    }
  }

  lemma CoveredByRules(d: Document, dir: Directory, x: Syntax, c: Conn, t: Truth)
    requires Covers(d, c, t, x)
    ensures exists i :: 0 <= i < |RulesOf(d, dir, x)| && RuleHolds(RulesOf(d, dir, x)[i], c, t)
  {
    var rules, n := RulesOf(d, dir, x), |d.grants|;
    if i :| 0 <= i < n && GrantCovers(d.grants[i], c, t, d, x) {
      GrantMeaning(d, dir, x, i, c, t);
    } else {
      var i :| 0 <= i < |d.acls| && d.acls[i].action == "accept" && EntryCovers(d.acls[i], c, t, d, x);
      var places := AcceptedAre(d.acls);
      var j :| 0 <= j < |places| && places[j] == i;
      EntryMeaning(d, dir, x, j, c, t);
      assert RuleHolds(rules[n + j], c, t);
    }
  }

  // Some rule covers a connection exactly when the document does.
  lemma DocumentMeaning(d: Document, dir: Directory, x: Syntax, c: Conn, t: Truth)
    ensures var rules := RulesOf(d, dir, x);
            (exists i :: 0 <= i < |rules| && RuleHolds(rules[i], c, t)) <==> Covers(d, c, t, x)
  {
    var rules := RulesOf(d, dir, x);
    if i :| 0 <= i < |rules| && RuleHolds(rules[i], c, t) {
      RulesCovered(d, dir, x, c, t, i);
    }
    if Covers(d, c, t, x) {
      CoveredByRules(d, dir, x, c, t);
    }
  }

  // What a verdict says about the document: Permitted names an entry that covers the connection in
  // the reported direction, and NoRule means that the document covers it in neither.
  lemma VerdictMeaning(d: Document, dir: Directory, x: Syntax, c: Conn, t: Truth, res: Result)
    requires AllowsConn(c, t) && (forall u | u in dir :: t.roles(u) == dir[u])
    requires IsEvaluation(RulesOf(d, dir, x), c, res)
    ensures res.verdict.Permitted? ==>
              if res.reversed then Covers(d, c.Reversed(), t.Reversed(), x) else Covers(d, c, t, x)
    ensures res.verdict.NoRule? ==> !Covers(d, c, t, x) && !Covers(d, c.Reversed(), t.Reversed(), x)
  {
    var rules := RulesOf(d, dir, x);
    RolesAreTrue(d, dir, x, t);
    Soundness(rules, c, t, res);
    DocumentMeaning(d, dir, x, c, t);
    DocumentMeaning(d, dir, x, c.Reversed(), t.Reversed());
    if res.verdict.Permitted? {
      EvaluationVerdict(rules, c, res);
      assert 0 <= res.rule < |rules|;
    }
  }

  lemma RolesAreTrue(d: Document, dir: Directory, x: Syntax, t: Truth)
    requires forall u | u in dir :: t.roles(u) == dir[u]
    ensures AllowsRules(RulesOf(d, dir, x), t)
  {
    forall ss: seq<string>, i | 0 <= i < |ss| ensures AllowsDir(CompileSelectors(ss, d, dir, x)[i], t) {
      SelectorMeaning(x.trim(ss[i]), d, dir, x, t.src, t.dst, Conn(Endpoint("", [], None), Endpoint("", [], None), "", 0, false, 0, false, false), t);
    }
  }
}
