/**
 When the evaluator says no more than the data supports.

 A `Truth` is one way things may really be: who owns each endpoint, which addresses and ports
 were used, who holds which role, and what every selector the evaluator cannot interpret would
 answer.  An observation is partial knowledge of a truth.

 The evaluator reads an address without a node behind it as belonging to no tailnet device, so
 without owner and without tags.  Under that reading (`Allows`, `MoreEndpoint`) a definite
 verdict holds in every truth (`Soundness`) and learning more never changes it (`Monotone`).
 A record can also lack the node of a device that has one.  If that is allowed for (`AllowsOpen`,
 `MoreOpen`), both hold exactly for connections without an address-only endpoint
 (`SoundIffSettled`, `MonotoneIffSettled`).
 */
module AclTheorems {
  import opened Wrappers
  import opened AclPolicy

  datatype Known = Known(user: string, tags: seq<string>, addr: Addr)

  datatype Truth = Truth(
    src: Known, dst: Known, dstPort: Option<int>, srcPort: Option<int>,
    roles: string -> string, answers: (string, Known, Known) -> bool)
  {
    ghost function Reversed(): Truth {
      Truth(dst, src, srcPort, dstPort, roles, answers)
    }
  }

  ghost predicate InSome(prefixes: seq<Prefix>, a: Addr) {
    exists i :: 0 <= i < |prefixes| && prefixes[i].Contains(a)
  }

  // Two-valued meaning of a selector.
  ghost predicate Holds(s: Selector, ep: Known, other: Known, c: Conn, t: Truth) {
    match s
    case Any => true
    case Opaque(reason) => t.answers(reason, ep, other)
    case Tag(tag) => tag in ep.tags
    case Users(users) => ep.user != "" && ep.user in users
    case Role(roles, _) => ep.user != "" && t.roles(ep.user) in roles
    case Member => |ep.tags| == 0 && ep.user != ""
    case Self => ep.user != "" && ep.user == other.user
    case Internet => c.isExit
    case Prefixes(prefixes) => InSome(prefixes, ep.addr)
  }

  // A specification that names no protocol speaks of tcp and udp.
  ghost predicate SpeaksOf(p: PortSpec, proto: string) {
    (p.proto == proto && proto != "") || (p.proto == "" && (proto == "tcp" || proto == "udp"))
  }

  ghost predicate PortHolds(p: PortSpec, c: Conn, t: Truth) {
    p.any || (SpeaksOf(p, c.proto) && (p.allPorts || (t.dstPort.Some? && p.lo <= t.dstPort.value <= p.hi)))
  }

  ghost predicate SomeHolds(sels: seq<Selector>, ep: Known, other: Known, c: Conn, t: Truth) {
    exists i :: 0 <= i < |sels| && Holds(sels[i], ep, other, c, t)
  }

  ghost predicate SomePort(specs: seq<PortSpec>, c: Conn, t: Truth) {
    exists i :: 0 <= i < |specs| && PortHolds(specs[i], c, t)
  }

  // A rule covers a connection: a source, a destination and a port of it do.
  ghost predicate RuleHolds(r: Rule, c: Conn, t: Truth) {
    SomeHolds(r.src, t.src, t.dst, c, t) && SomeHolds(r.dst, t.dst, t.src, c, t) && SomePort(r.ports, c, t)
  }

  // The evaluator's reading: an identified endpoint's owner and tags are exactly what was observed,
  // even if only its address was; an unidentified one may be anybody, and a missing address may be
  // any address.
  ghost predicate Allows(ep: Endpoint, k: Known) {
    && (ep.Identified() ==> k.user == ep.user && k.tags == ep.tags)
    && (ep.addr.Some? ==> k.addr == ep.addr.value)
  }

  ghost predicate AllowsConn(c: Conn, t: Truth) {
    && Allows(c.src, t.src) && Allows(c.dst, t.dst)
    && (c.hasPort ==> t.dstPort == Some(c.dstPort))
    && (c.hasSrcPort ==> t.srcPort == Some(c.srcPort))
  }

  // A directory entry is the truth about that login's role.
  ghost predicate AllowsDir(s: Selector, t: Truth) {
    s.Role? ==> forall u | u in s.dir :: t.roles(u) == s.dir[u]
  }

  ghost predicate AllowsRules(rules: seq<Rule>, t: Truth) {
    forall i | 0 <= i < |rules| ::
      && (forall k | 0 <= k < |rules[i].src| :: AllowsDir(rules[i].src[k], t))
      && (forall k | 0 <= k < |rules[i].dst| :: AllowsDir(rules[i].dst[k], t))
  }

  /* -------------------------------------------------------------------- soundness */

  lemma SelectorSound(s: Selector, ep: Endpoint, other: Endpoint, c: Conn, k: Known, o: Known, t: Truth)
    requires Allows(ep, k) && Allows(other, o) && AllowsDir(s, t)
    ensures s.Match(ep, other, c) == Yes ==> Holds(s, k, o, c, t)
    ensures s.Match(ep, other, c) == No ==> !Holds(s, k, o, c, t)
  {}

  lemma SideSound(sels: seq<Selector>, ep: Endpoint, other: Endpoint, c: Conn, k: Known, o: Known, t: Truth)
    requires Allows(ep, k) && Allows(other, o) && forall i | 0 <= i < |sels| :: AllowsDir(sels[i], t)
    ensures Side(sels, ep, other, c) == Yes ==> SomeHolds(sels, k, o, c, t)
    ensures Side(sels, ep, other, c) == No ==> !SomeHolds(sels, k, o, c, t)
  {
    var answers := SideAnswers(sels, ep, other, c);
    if Yes in answers {
      var i :| 0 <= i < |answers| && answers[i] == Yes;
      SelectorSound(sels[i], ep, other, c, k, o, t);
    } else if Unknown !in answers {
      forall i | 0 <= i < |sels| ensures !Holds(sels[i], k, o, c, t) {
        assert answers[i] == sels[i].Match(ep, other, c) && answers[i] in answers;
        SelectorSound(sels[i], ep, other, c, k, o, t);
      }
    }
  }

  lemma PortsSound(specs: seq<PortSpec>, c: Conn, t: Truth)
    requires c.hasPort ==> t.dstPort == Some(c.dstPort)
    ensures Ports(specs, c) == Yes ==> SomePort(specs, c, t)
    ensures Ports(specs, c) == No ==> !SomePort(specs, c, t)
  {
    var answers := PortAnswers(specs, c);
    if Yes in answers {
      var i :| 0 <= i < |answers| && answers[i] == Yes;
      assert PortHolds(specs[i], c, t);
    } else if Unknown !in answers {
      forall i | 0 <= i < |specs| ensures !PortHolds(specs[i], c, t) {
        assert answers[i] == specs[i].Match(c) && answers[i] in answers;
      }
    }
  }

  lemma RuleSound(r: Rule, c: Conn, t: Truth)
    requires AllowsConn(c, t) && AllowsRules([r], t)
    ensures RuleTri(r, c) == Yes ==> RuleHolds(r, c, t)
    ensures RuleTri(r, c) == No ==> !RuleHolds(r, c, t)
  {
    assert [r][0] == r;
    SideSound(r.src, c.src, c.dst, c, t.src, t.dst, t);
    SideSound(r.dst, c.dst, c.src, c, t.dst, t.src, t);
    PortsSound(r.ports, c, t);
  }

  lemma OneWaySound(rules: seq<Rule>, c: Conn, t: Truth, res: Result)
    requires AllowsConn(c, t) && AllowsRules(rules, t) && IsOneWay(rules, c, res)
    ensures res.verdict.Permitted? ==> RuleHolds(rules[res.rule], c, t)
    ensures OneWay(rules, c).NoRule? ==> forall i | 0 <= i < |rules| :: !RuleHolds(rules[i], c, t)
  {
    forall i | 0 <= i < |rules|
      ensures RuleTri(rules[i], c) == Yes ==> RuleHolds(rules[i], c, t)
      ensures RuleTri(rules[i], c) == No ==> !RuleHolds(rules[i], c, t)
    {
      RuleSound(rules[i], c, t);
    }
  }

  lemma OneWayUnique(rules: seq<Rule>, c: Conn) returns (res: Result)
    ensures IsOneWay(rules, c, res)
  {
    var i := 0;
    while i < |rules| && RuleTri(rules[i], c) != Yes
      invariant 0 <= i <= |rules| && Decides(rules, c, i)
    {
      i := i + 1;
    }
    if i < |rules| {
      return Result(Permitted, i, false, "");
    }
    if exists k :: 0 <= k < |rules| && RuleTri(rules[k], c) == Unknown {
      return Result(Undetermined, -1, false, NO_PORT);
    }
    return Result(NoRule, -1, false, "");
  }

  // Three-valued soundness.  In every truth the observation allows: a Permitted verdict names a
  // rule that really covers the connection in the reported direction, and NoRule means that no
  // rule covers it in either direction.
  lemma Soundness(rules: seq<Rule>, c: Conn, t: Truth, res: Result)
    requires AllowsConn(c, t) && AllowsRules(rules, t) && IsEvaluation(rules, c, res)
    ensures res.verdict.Permitted? && !res.reversed ==> RuleHolds(rules[res.rule], c, t)
    ensures res.verdict.Permitted? && res.reversed ==> RuleHolds(rules[res.rule], c.Reversed(), t.Reversed())
    ensures res.verdict.NoRule? ==>
              forall i | 0 <= i < |rules| ::
                !RuleHolds(rules[i], c, t) && !RuleHolds(rules[i], c.Reversed(), t.Reversed())
  {
    var fwd := OneWayUnique(rules, c);
    var back := OneWayUnique(rules, c.Reversed());
    assert AllowsConn(c.Reversed(), t.Reversed());
    assert AllowsRules(rules, t.Reversed());
    OneWaySound(rules, c, t, if res.reversed then fwd else res);
    OneWaySound(rules, c.Reversed(), t.Reversed(), if res.reversed then res.(reversed := false) else back);
    if res.reversed {
      OneWayVerdict(rules, c.Reversed(), res.(reversed := false));
    } else {
      OneWayVerdict(rules, c, res);
    }
  }

  /* ------------------------------------------------- how much "undecided" gives away */

  // Undecided selectors that nothing could ever satisfy: an empty list, or a person-to-own-device
  // selector with a known ownerless machine on one side.
  ghost predicate Vacuous(s: Selector, ep: Endpoint, other: Endpoint) {
    match s
    case Users(users) => forall u | u in users :: u == ""
    case Role(roles, _) => roles == []
    case Self => (ep.Identified() && ep.user == "") || (other.Identified() && other.user == "")
    case Prefixes(prefixes) => forall a: Addr :: !InSome(prefixes, a)
    case _ => false
  }

  // Undecided selectors that everything satisfies: prefixes that cover every address there is.
  ghost predicate Covering(s: Selector) {
    s.Prefixes? && forall a: Addr :: InSome(s.prefixes, a)
  }

  lemma {:induction false} FreshString(ss: set<string>) returns (x: string)
    ensures x != "" && forall y | y in ss :: |y| < |x|
    decreases |ss|
  {
    if ss == {} {
      return "x";
    }
    var y :| y in ss;
    x := FreshString(ss - {y});
    if |x| <= |y| {
      x := y + "x";
    }
  }

  // The owner, tags and address an endpoint is taken to have where nothing says otherwise.
  ghost function Default(ep: Endpoint): Known {
    Known(ep.user, ep.tags, if ep.addr.Some? then ep.addr.value else 0)
  }

  ghost function Roles(dir: Directory, fallback: string): string -> string {
    u => if u in dir then dir[u] else fallback
  }

  ghost function Believe(k: Known, o: Known, roles: string -> string, answer: bool): Truth {
    Truth(k, o, None, None, roles, (_, _, _) => answer)
  }

  // One way things may be, as far as this selector and these endpoints are concerned.
  ghost predicate Possible(s: Selector, ep: Endpoint, other: Endpoint, k: Known, o: Known, t: Truth) {
    Allows(ep, k) && Allows(other, o) && AllowsDir(s, t)
  }

  // An undecided selector that is not vacuous may hold.
  lemma UndecidedMayHold(s: Selector, ep: Endpoint, other: Endpoint, c: Conn) returns (k: Known, o: Known, t: Truth)
    requires s.Match(ep, other, c) == Unknown && !Vacuous(s, ep, other)
    ensures Possible(s, ep, other, k, o, t) && Holds(s, k, o, c, t)
  {
    k, o := Default(ep), Default(other);
    t := Believe(k, o, Roles(map[], ""), true);
    match s
    case Opaque(_) =>
    case Tag(tag) => k := k.(tags := [tag]);
    case Users(users) =>
      var u :| u in users && u != "";
      k := k.(user := u);
    case Role(roles, dir) =>
      var who := FreshString(dir.Keys);
      k := if ep.user == "" then k.(user := who) else k;
      t := Believe(k, o, Roles(dir, roles[0]), true);
    case Member => k := k.(user := "x", tags := []);
    case Self =>
      var who := if ep.user != "" then ep.user else if other.user != "" then other.user else "x";
      k, o := k.(user := who), o.(user := who);
    case Prefixes(prefixes) =>
      var a: Addr :| InSome(prefixes, a);
      k := k.(addr := a);
  }

  // An undecided selector that does not cover every address may fail.
  lemma UndecidedMayFail(s: Selector, ep: Endpoint, other: Endpoint, c: Conn) returns (k: Known, o: Known, t: Truth)
    requires s.Match(ep, other, c) == Unknown && !Covering(s)
    ensures Possible(s, ep, other, k, o, t) && !Holds(s, k, o, c, t)
  {
    k, o := Default(ep), Default(other);
    t := Believe(k, o, Roles(map[], ""), false);
    match s
    case Role(roles, dir) =>
      var what := FreshString(set r | r in roles);
      t := Believe(k, o, Roles(dir, what), false);
    case Prefixes(prefixes) =>
      var a: Addr :| !InSome(prefixes, a);
      k := k.(addr := a);
    case _ =>
  }

  // What "undecided" gives away, exactly: some way things may be satisfies the selector if and
  // only if it is not vacuous, and some way fails it if and only if it does not cover every
  // address.  Otherwise the evaluator is more cautious than it need be.
  lemma UndecidedIsExact(s: Selector, ep: Endpoint, other: Endpoint, c: Conn)
    requires s.Match(ep, other, c) == Unknown
    ensures Vacuous(s, ep, other) <==> forall k, o, t | Possible(s, ep, other, k, o, t) :: !Holds(s, k, o, c, t)
    ensures Covering(s) <==> forall k, o, t | Possible(s, ep, other, k, o, t) :: Holds(s, k, o, c, t)
  {
    if Vacuous(s, ep, other) {
      forall k, o, t | Possible(s, ep, other, k, o, t) ensures !Holds(s, k, o, c, t) {
        VacuousNeverHolds(s, ep, other, c, k, o, t);
      }
    } else {
      var k, o, t := UndecidedMayHold(s, ep, other, c);
    }
    if !Covering(s) {
      var k, o, t := UndecidedMayFail(s, ep, other, c);
    }
  }

  lemma VacuousNeverHolds(s: Selector, ep: Endpoint, other: Endpoint, c: Conn, k: Known, o: Known, t: Truth)
    requires s.Match(ep, other, c) == Unknown && Vacuous(s, ep, other)
    requires Allows(ep, k) && Allows(other, o)
    ensures !Holds(s, k, o, c, t)
  {}

  // The covering case is real: 0.0.0.0/0 and ::/0 together, with no address to compare, are
  // undecided and yet hold whatever the address is.
  lemma EverywhereWitness(ep: Endpoint, other: Endpoint, c: Conn)
    requires ep.addr.None?
    ensures var s := Prefixes([Prefix(a => a < V4), Prefix(a => a >= V4)]);
            s.Match(ep, other, c) == Unknown && Covering(s) && !Vacuous(s, ep, other)
  {
    var v4, v6 := Prefix(a => a < V4), Prefix(a => a >= V4);
    var prefixes := [v4, v6];
    forall a: Addr ensures InSome(prefixes, a) {
      assert prefixes[if a < V4 then 0 else 1].Contains(a);
    }
    assert InSome(prefixes, 0);
  }

  /* ------------------------------------------------------ what an undecided answer lacks */

  // The fact that is missing when a selector is undecided.
  ghost predicate SelectorLacks(s: Selector, ep: Endpoint, other: Endpoint) {
    match s
    case Opaque(_) => true
    case Prefixes(_) => ep.addr.None?
    case Tag(_) => !ep.Identified()
    case Users(_) => !ep.Identified()
    case Member => !ep.Identified()
    case Role(_, dir) => !ep.Identified() || (ep.user != "" && ep.user !in dir)
    case Self =>
      && (!ep.Identified() || !other.Identified())
      && !(ep.user == "" && ep.tags != []) && !(other.user == "" && other.tags != [])
    case _ => false
  }

  // A particular port is asked for, and the record has none.
  ghost predicate PortLacks(p: PortSpec, c: Conn) {
    !p.any && SpeaksOf(p, c.proto) && !p.allPorts && !c.hasPort
  }

  lemma SelectorUndecidedIff(s: Selector, ep: Endpoint, other: Endpoint, c: Conn)
    ensures s.Match(ep, other, c) == Unknown <==> SelectorLacks(s, ep, other)
  {}

  lemma PortUndecidedIff(p: PortSpec, c: Conn)
    ensures p.Match(c) == Unknown <==> PortLacks(p, c)
  {}

  // An undecided port list has a specification that asks for a particular port of a record without
  // one; with a port the list is always decided.
  lemma PortsUndecided(specs: seq<PortSpec>, c: Conn)
    requires Ports(specs, c) == Unknown
    ensures !c.hasPort && exists i :: 0 <= i < |specs| && PortLacks(specs[i], c)
  {
    var answers := PortAnswers(specs, c);
    var i :| 0 <= i < |answers| && answers[i] == Unknown;
    PortUndecidedIff(specs[i], c);
  }

  // What undecided ports give away, exactly: without a port none holds; and some holds for some port
  // if and only if one of the ranges asked for is not empty.
  lemma UndecidedPortsAreExact(specs: seq<PortSpec>, c: Conn, t: Truth)
    requires Ports(specs, c) == Unknown
    ensures !SomePort(specs, c, t.(dstPort := None))
    ensures (exists port: int :: SomePort(specs, c, t.(dstPort := Some(port)))) <==>
            exists i :: 0 <= i < |specs| && PortLacks(specs[i], c) && specs[i].lo <= specs[i].hi
  {
    PortsUndecided(specs, c);
    forall i | 0 <= i < |specs|
      ensures !(specs[i].any || (SpeaksOf(specs[i], c.proto) && specs[i].allPorts))
    {
      assert PortAnswers(specs, c)[i] == specs[i].Match(c) && PortAnswers(specs, c)[i] in PortAnswers(specs, c);
    }
    if i :| 0 <= i < |specs| && PortLacks(specs[i], c) && specs[i].lo <= specs[i].hi {
      var port: int := specs[i].lo;
      assert PortHolds(specs[i], c, t.(dstPort := Some(port)));
      assert SomePort(specs, c, t.(dstPort := Some(port)));
    }
  }

  // A rule lacks a fact about a connection.
  ghost predicate RuleLacks(r: Rule, c: Conn) {
    || (exists i :: 0 <= i < |r.src| && SelectorLacks(r.src[i], c.src, c.dst))
    || (exists i :: 0 <= i < |r.dst| && SelectorLacks(r.dst[i], c.dst, c.src))
    || (exists i :: 0 <= i < |r.ports| && PortLacks(r.ports[i], c))
  }

  lemma SideUndecided(sels: seq<Selector>, ep: Endpoint, other: Endpoint, c: Conn)
    requires Side(sels, ep, other, c) == Unknown
    ensures exists i :: 0 <= i < |sels| && SelectorLacks(sels[i], ep, other)
  {
    var answers := SideAnswers(sels, ep, other, c);
    var i :| 0 <= i < |answers| && answers[i] == Unknown;
    SelectorUndecidedIff(sels[i], ep, other, c);
  }

  lemma RuleUndecided(r: Rule, c: Conn)
    requires RuleTri(r, c) == Unknown
    ensures RuleLacks(r, c)
  {
    if Side(r.src, c.src, c.dst, c) == Unknown {
      SideUndecided(r.src, c.src, c.dst, c);
    } else if Side(r.dst, c.dst, c.src, c) == Unknown {
      SideUndecided(r.dst, c.dst, c.src, c);
    } else {
      PortsUndecided(r.ports, c);
    }
  }

  // An undetermined verdict is for want of a stated fact about some rule, in one direction.
  lemma UndeterminedForMissingFact(rules: seq<Rule>, c: Conn, res: Result)
    requires IsEvaluation(rules, c, res) && res.verdict.Undetermined?
    ensures exists i :: 0 <= i < |rules| && (RuleLacks(rules[i], c) || RuleLacks(rules[i], c.Reversed()))
  {
    EvaluationVerdict(rules, c, res);
    if OneWay(rules, c).Undetermined? {
      var i :| 0 <= i < |rules| && RuleTri(rules[i], c) == Unknown;
      RuleUndecided(rules[i], c);
    } else {
      var i :| 0 <= i < |rules| && RuleTri(rules[i], c.Reversed()) == Unknown;
      RuleUndecided(rules[i], c.Reversed());
    }
  }

  // With every fact at hand the verdict is the truth: Permitted exactly when a rule covers the
  // connection in one of the directions, and NoRule otherwise.
  lemma DecidedIsTruth(rules: seq<Rule>, c: Conn, t: Truth, res: Result)
    requires AllowsConn(c, t) && AllowsRules(rules, t) && IsEvaluation(rules, c, res)
    requires forall i | 0 <= i < |rules| :: !RuleLacks(rules[i], c) && !RuleLacks(rules[i], c.Reversed())
    ensures res.verdict.Permitted? <==>
            exists i :: 0 <= i < |rules| && (RuleHolds(rules[i], c, t) || RuleHolds(rules[i], c.Reversed(), t.Reversed()))
    ensures res.verdict.NoRule? <==> !res.verdict.Permitted?
  {
    Soundness(rules, c, t, res);
    EvaluationVerdict(rules, c, res);
    if res.verdict.Undetermined? {
      UndeterminedForMissingFact(rules, c, res);
    }
  }

  // The direction as observed comes first, and in each the first rule that definitely matches.
  lemma FirstMatchWins(rules: seq<Rule>, c: Conn, res: Result, i: nat)
    requires IsEvaluation(rules, c, res) && i < |rules|
    ensures RuleTri(rules[i], c) == Yes ==>
              res.verdict.Permitted? && !res.reversed && 0 <= res.rule <= i && RuleTri(rules[res.rule], c) == Yes
    ensures RuleTri(rules[i], c.Reversed()) == Yes && (forall k | 0 <= k < |rules| :: RuleTri(rules[k], c) != Yes) ==>
              res.verdict.Permitted? && res.reversed && 0 <= res.rule <= i && RuleTri(rules[res.rule], c.Reversed()) == Yes
  {}

  /* ------------------------------------------------------------------ monotonicity */

  // ep' is ep with possibly more known about it.
  ghost predicate MoreEndpoint(ep: Endpoint, ep': Endpoint) {
    && (ep.Identified() ==> ep'.user == ep.user && ep'.tags == ep.tags)
    && (ep.addr.Some? ==> ep'.addr == ep.addr)
  }

  ghost predicate MoreConn(c: Conn, c': Conn) {
    && MoreEndpoint(c.src, c'.src) && MoreEndpoint(c.dst, c'.dst)
    && c'.proto == c.proto && c'.isExit == c.isExit
    && (c.hasPort ==> c'.hasPort && c'.dstPort == c.dstPort)
    && (c.hasSrcPort ==> c'.hasSrcPort && c'.srcPort == c.srcPort)
  }

  // A selector that could not be interpreted may become any other; a role directory may grow.
  ghost predicate MoreSelector(s: Selector, s': Selector) {
    || s' == s
    || s.Opaque?
    || (s.Role? && s'.Role? && s'.roles == s.roles && forall u | u in s.dir :: u in s'.dir && s'.dir[u] == s.dir[u])
  }

  ghost predicate MoreSelectors(ss: seq<Selector>, ss': seq<Selector>) {
    |ss'| == |ss| && forall i | 0 <= i < |ss| :: MoreSelector(ss[i], ss'[i])
  }

  ghost predicate MoreRules(rules: seq<Rule>, rules': seq<Rule>) {
    && |rules'| == |rules|
    && forall i | 0 <= i < |rules| ::
         && MoreSelectors(rules[i].src, rules'[i].src) && MoreSelectors(rules[i].dst, rules'[i].dst)
         && rules'[i].ports == rules[i].ports
  }

  // Information order on answers: undecided may become anything, decided stays.
  ghost predicate Firmer(a: Tri, b: Tri) {
    a == Unknown || b == a
  }

  lemma SelectorMonotone(s: Selector, s': Selector, ep: Endpoint, ep': Endpoint, other: Endpoint, other': Endpoint, c: Conn, c': Conn)
    requires MoreSelector(s, s') && MoreEndpoint(ep, ep') && MoreEndpoint(other, other') && c'.isExit == c.isExit
    ensures Firmer(s.Match(ep, other, c), s'.Match(ep', other', c'))
  {}

  lemma AnyOfMonotone(a: seq<Tri>, b: seq<Tri>)
    requires |a| == |b| && forall i | 0 <= i < |a| :: Firmer(a[i], b[i])
    ensures Firmer(AnyOf(a), AnyOf(b))
  {
    if Yes in a {
      var i :| 0 <= i < |a| && a[i] == Yes;
      assert b[i] == Yes;
    } else if Unknown !in a {
      forall i | 0 <= i < |b| ensures b[i] == No {
        assert a[i] in a;
      }
    }
  }

  lemma SideMonotone(ss: seq<Selector>, ss': seq<Selector>, ep: Endpoint, ep': Endpoint, other: Endpoint, other': Endpoint, c: Conn, c': Conn)
    requires MoreSelectors(ss, ss') && MoreEndpoint(ep, ep') && MoreEndpoint(other, other') && c'.isExit == c.isExit
    ensures Firmer(Side(ss, ep, other, c), Side(ss', ep', other', c'))
  {
    forall i | 0 <= i < |ss| ensures Firmer(SideAnswers(ss, ep, other, c)[i], SideAnswers(ss', ep', other', c')[i]) {
      SelectorMonotone(ss[i], ss'[i], ep, ep', other, other', c, c');
    }
    AnyOfMonotone(SideAnswers(ss, ep, other, c), SideAnswers(ss', ep', other', c'));
  }

  lemma RuleMonotone(r: Rule, r': Rule, c: Conn, c': Conn)
    requires MoreRules([r], [r']) && MoreConn(c, c')
    ensures Firmer(RuleTri(r, c), RuleTri(r', c'))
  {
    assert [r][0] == r && [r'][0] == r';
    SideMonotone(r.src, r'.src, c.src, c'.src, c.dst, c'.dst, c, c');
    SideMonotone(r.dst, r'.dst, c.dst, c'.dst, c.src, c'.src, c, c');
    AnyOfMonotone(PortAnswers(r.ports, c), PortAnswers(r'.ports, c'));
  }

  lemma NthRuleMonotone(rules: seq<Rule>, rules': seq<Rule>, c: Conn, c': Conn, i: nat)
    requires MoreRules(rules, rules') && MoreConn(c, c') && i < |rules|
    ensures i < |rules'| && Firmer(RuleTri(rules[i], c), RuleTri(rules'[i], c'))
  {
    RuleMonotone(rules[i], rules'[i], c, c');
  }

  lemma OneWayMonotone(rules: seq<Rule>, rules': seq<Rule>, c: Conn, c': Conn)
    requires MoreRules(rules, rules') && MoreConn(c, c')
    ensures OneWay(rules, c).Permitted? ==> OneWay(rules', c').Permitted?
    ensures OneWay(rules, c).NoRule? ==> OneWay(rules', c').NoRule?
  {
    forall i | 0 <= i < |rules| ensures Firmer(RuleTri(rules[i], c), RuleTri(rules'[i], c')) {
      NthRuleMonotone(rules, rules', c, c', i);
    }
    if OneWay(rules, c).Permitted? {
      var i :| 0 <= i < |rules| && RuleTri(rules[i], c) == Yes;
      assert RuleTri(rules'[i], c') == Yes;
    }
  }

  lemma EvaluationVerdict(rules: seq<Rule>, c: Conn, res: Result)
    requires IsEvaluation(rules, c, res)
    ensures
      var fwd, back := OneWay(rules, c), OneWay(rules, c.Reversed());
      res.verdict == if fwd.Permitted? || back.Permitted? then Permitted
                     else if fwd.Undetermined? || back.Undetermined? then Undetermined
                     else NoRule
  {
    if res.reversed {
      OneWayVerdict(rules, c.Reversed(), res.(reversed := false));
    } else {
      OneWayVerdict(rules, c, res);
    }
  }

  // Learning more about the endpoints, ports, roles or selectors never changes a definite verdict.
  lemma Monotone(rules: seq<Rule>, rules': seq<Rule>, c: Conn, c': Conn, res: Result, res': Result)
    requires MoreRules(rules, rules') && MoreConn(c, c')
    requires IsEvaluation(rules, c, res) && IsEvaluation(rules', c', res')
    ensures !res.verdict.Undetermined? ==> res'.verdict == res.verdict
  {
    OneWayMonotone(rules, rules', c, c');
    OneWayMonotone(rules, rules', c.Reversed(), c'.Reversed());
    EvaluationVerdict(rules, c, res);
    EvaluationVerdict(rules', c', res');
  }

  // Evaluating the return half gives the same verdict; when only one direction is permitted it
  // names the same rule with the direction flipped.  Undetermined always explains itself.
  lemma DirectionSymmetric(rules: seq<Rule>, c: Conn, res: Result, back: Result)
    requires IsEvaluation(rules, c, res) && IsEvaluation(rules, c.Reversed(), back)
    ensures back.verdict == res.verdict
    ensures OneWay(rules, c).Permitted? != OneWay(rules, c.Reversed()).Permitted? ==>
              back.rule == res.rule && back.reversed == !res.reversed
    ensures res.verdict.Undetermined? <==> res.reason != ""
    ensures res.rule == -1 <==> !res.verdict.Permitted?
  {
    assert c.Reversed().Reversed() == c;
    EvaluationVerdict(rules, c, res);
    EvaluationVerdict(rules, c.Reversed(), back);
  }

  // Nothing fails open: without rules, or without ports, nothing is permitted.
  lemma NeverFailsOpen(rules: seq<Rule>, c: Conn, res: Result)
    requires IsEvaluation(rules, c, res)
    requires forall i | 0 <= i < |rules| :: rules[i].ports == [] || rules[i].src == [] || rules[i].dst == []
    ensures res.verdict.NoRule?
  {
    forall i, d: Conn | 0 <= i < |rules| ensures RuleTri(rules[i], d) == No {
      assert SideAnswers([], d.src, d.dst, d) == [] && SideAnswers([], d.dst, d.src, d) == [];
    }
    EvaluationVerdict(rules, c, res);
  }

  /* ------------------------------------------------------------ address-only endpoints */

  // Every way things may be: owner and tags are known only of a named endpoint.
  ghost predicate AllowsOpen(ep: Endpoint, k: Known) {
    && (ep.Named() ==> k.user == ep.user && k.tags == ep.tags)
    && (ep.addr.Some? ==> k.addr == ep.addr.value)
  }

  ghost predicate AllowsConnOpen(c: Conn, t: Truth) {
    && AllowsOpen(c.src, t.src) && AllowsOpen(c.dst, t.dst)
    && (c.hasPort ==> t.dstPort == Some(c.dstPort))
    && (c.hasSrcPort ==> t.srcPort == Some(c.srcPort))
  }

  ghost predicate MoreOpen(ep: Endpoint, ep': Endpoint) {
    && (ep.Named() ==> ep'.user == ep.user && ep'.tags == ep.tags)
    && (ep.addr.Some? ==> ep'.addr == ep.addr)
  }

  ghost predicate MoreConnOpen(c: Conn, c': Conn) {
    && MoreOpen(c.src, c'.src) && MoreOpen(c.dst, c'.dst)
    && c'.proto == c.proto && c'.isExit == c.isExit
    && (c.hasPort ==> c'.hasPort && c'.dstPort == c.dstPort)
    && (c.hasSrcPort ==> c'.hasSrcPort && c'.srcPort == c.srcPort)
  }

  // Each endpoint has a user, a tag or no address.
  ghost predicate Settled(c: Conn) {
    (c.src.Named() || c.src.addr.None?) && (c.dst.Named() || c.dst.addr.None?)
  }

  // A definite verdict is right: the named rule covers the connection in the reported direction,
  // or no rule covers it in either.
  ghost predicate Right(rules: seq<Rule>, c: Conn, t: Truth, res: Result) {
    && (res.verdict.Permitted? ==>
          && 0 <= res.rule < |rules|
          && if res.reversed then RuleHolds(rules[res.rule], c.Reversed(), t.Reversed())
             else RuleHolds(rules[res.rule], c, t))
    && (res.verdict.NoRule? ==>
          forall i | 0 <= i < |rules| ::
            !RuleHolds(rules[i], c, t) && !RuleHolds(rules[i], c.Reversed(), t.Reversed()))
  }

  // What an endpoint without a node might carry, and a selector that would then match it.
  ghost function Guess(ep: Endpoint, tag: string): Selector {
    if ep.Named() then Any else Tag(tag)
  }

  ghost function Learned(ep: Endpoint, tag: string): Endpoint {
    if ep.Named() then ep else ep.(tags := [tag])
  }

  ghost function GuessRule(c: Conn, tag: string): Rule {
    Rule("grant", "", [Guess(c.src, tag)], [Guess(c.dst, tag)], [PortSpec(true, "", 0, 0, true)])
  }

  lemma OneSelector(s: Selector, ep: Endpoint, other: Endpoint, c: Conn)
    ensures Side([s], ep, other, c) == s.Match(ep, other, c)
  {
    assert SideAnswers([s], ep, other, c) == [s.Match(ep, other, c)];
  }

  // Without the tag, an address-only endpoint is said not to carry it, in either direction.
  lemma GuessIsDenied(c: Conn, tag: string)
    requires !Settled(c) && tag !in c.src.tags && tag !in c.dst.tags
    ensures RuleTri(GuessRule(c, tag), c) == No && RuleTri(GuessRule(c, tag), c.Reversed()) == No
  {
    OneSelector(Guess(c.src, tag), c.src, c.dst, c);
    OneSelector(Guess(c.dst, tag), c.dst, c.src, c);
    OneSelector(Guess(c.src, tag), c.dst, c.src, c.Reversed());
    OneSelector(Guess(c.dst, tag), c.src, c.dst, c.Reversed());
  }

  lemma DeniedIsNoRule(r: Rule, c: Conn)
    requires RuleTri(r, c) == No && RuleTri(r, c.Reversed()) == No
    ensures IsEvaluation([r], c, Result(NoRule, -1, false, ""))
  {
    assert forall d: Conn, i | 0 <= i < 1 :: RuleTri([r][i], d) == RuleTri(r, d);
  }

  // With the tag, it is permitted.
  lemma GuessIsPermitted(c: Conn, tag: string)
    ensures var c' := c.(src := Learned(c.src, tag), dst := Learned(c.dst, tag));
            RuleTri(GuessRule(c, tag), c') == Yes
            && IsEvaluation([GuessRule(c, tag)], c', Result(Permitted, 0, false, ""))
  {
    var r := GuessRule(c, tag);
    var c' := c.(src := Learned(c.src, tag), dst := Learned(c.dst, tag));
    OneSelector(Guess(c.src, tag), c'.src, c'.dst, c');
    OneSelector(Guess(c.dst, tag), c'.dst, c'.src, c');
    assert PortAnswers(r.ports, c') == [Yes];
    assert Yes in PortAnswers(r.ports, c');
    assert RuleTri([r][0], c') == Yes;
  }

  lemma FreshTag(c: Conn) returns (tag: string)
    ensures tag !in c.src.tags && tag !in c.dst.tags
  {
    var used := (set x | x in c.src.tags) + (set x | x in c.dst.tags);
    tag := FreshString(used);
    assert forall x | x in c.src.tags :: x in used;
    assert forall x | x in c.dst.tags :: x in used;
  }

  // The input on which a definite verdict is wrong: one endpoint has an address and nothing else.
  // It is said to match no rule, and in truth it carries a tag that a rule permits.
  lemma AddressOnlyIsMisjudged(c: Conn) returns (r: Rule, res: Result, t: Truth)
    requires !Settled(c)
    ensures IsEvaluation([r], c, res) && res.verdict.NoRule?
    ensures AllowsConnOpen(c, t) && AllowsRules([r], t) && RuleHolds(r, c, t)
  {
    var tag := FreshTag(c);
    r, res := GuessRule(c, tag), Result(NoRule, -1, false, "");
    GuessIsDenied(c, tag);
    DeniedIsNoRule(r, c);
    var src, dst := Default(Learned(c.src, tag)), Default(Learned(c.dst, tag));
    t := Truth(src, dst, if c.hasPort then Some(c.dstPort) else None, if c.hasSrcPort then Some(c.srcPort) else None,
               u => "", (_, _, _) => false);
    assert Holds(r.src[0], t.src, t.dst, c, t) && Holds(r.dst[0], t.dst, t.src, c, t) && PortHolds(r.ports[0], c, t);
  }

  lemma SettledIsClosed(c: Conn, t: Truth)
    requires Settled(c)
    ensures AllowsConnOpen(c, t) <==> AllowsConn(c, t)
  {}

  // Soundness, exactly: every definite verdict about a connection is right in every way things may
  // be if and only if each of its endpoints has a user, a tag or no address.
  lemma SoundIffSettled(c: Conn)
    ensures Settled(c) <==>
            forall rules, t, res |
              AllowsConnOpen(c, t) && AllowsRules(rules, t) && IsEvaluation(rules, c, res) :: Right(rules, c, t, res)
  {
    if Settled(c) {
      forall rules, t, res | AllowsConnOpen(c, t) && AllowsRules(rules, t) && IsEvaluation(rules, c, res)
        ensures Right(rules, c, t, res)
      {
        SettledIsClosed(c, t);
        Soundness(rules, c, t, res);
      }
    } else {
      var r, res, t := AddressOnlyIsMisjudged(c);
      assert RuleHolds([r][0], c, t);
      assert !Right([r], c, t, res);
    }
  }

  // A concrete case: a source known by its address alone, and a rule for one tag.  NoRule becomes
  // Permitted when the record names the source's tag.
  lemma LearningATagWitness()
    ensures var dst := Endpoint("alice@example.com", [], None);
            var c := Conn(Endpoint("", [], Some(7)), dst, "tcp", 22, true, 40000, true, false);
            var c' := c.(src := Endpoint("", ["tag:x"], Some(7)));
            var rules := [Rule("grant", "", [Tag("tag:x")], [Any], [PortSpec(true, "", 0, 0, true)])];
            && MoreConnOpen(c, c')
            && IsEvaluation(rules, c, Result(NoRule, -1, false, ""))
            && IsEvaluation(rules, c', Result(Permitted, 0, false, ""))
  {
    var dst := Endpoint("alice@example.com", [], None);
    var c := Conn(Endpoint("", [], Some(7)), dst, "tcp", 22, true, 40000, true, false);
    GuessIsDenied(c, "tag:x");
    DeniedIsNoRule(GuessRule(c, "tag:x"), c);
    GuessIsPermitted(c, "tag:x");
  }

  // What a connection with more known about it is, in the open reading, and how it is judged.
  ghost predicate Refines(rules: seq<Rule>, rules': seq<Rule>, c: Conn, c': Conn, res: Result, res': Result) {
    MoreRules(rules, rules') && MoreConnOpen(c, c') && IsEvaluation(rules, c, res) && IsEvaluation(rules', c', res')
  }

  // Monotonicity, exactly, with the same condition.
  lemma MonotoneIffSettled(c: Conn)
    ensures Settled(c) <==>
            forall rules, rules', c', res, res' | Refines(rules, rules', c, c', res, res') ::
              !res.verdict.Undetermined? ==> res'.verdict == res.verdict
  {
    if Settled(c) {
      forall rules, rules', c', res, res' | Refines(rules, rules', c, c', res, res')
        ensures !res.verdict.Undetermined? ==> res'.verdict == res.verdict
      {
        assert MoreConn(c, c');
        Monotone(rules, rules', c, c', res, res');
      }
    } else {
      var tag := FreshTag(c);
      var rules := [GuessRule(c, tag)];
      GuessIsDenied(c, tag);
      DeniedIsNoRule(rules[0], c);
      GuessIsPermitted(c, tag);
      var c' := c.(src := Learned(c.src, tag), dst := Learned(c.dst, tag));
      assert Refines(rules, rules, c, c', Result(NoRule, -1, false, ""), Result(Permitted, 0, false, ""));
    }
  }
}
