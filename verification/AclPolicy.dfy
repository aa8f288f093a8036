/**
 The network-policy evaluator: three-valued selectors, rules over them, and the decision
 whether an observed connection is explained by the policy.
 */
module AclPolicy {
  import opened Wrappers

  type uint16 = x: int | 0 <= x < 0x1_0000

  const V4: int := 0x1_0000_0000
  const V6: int := 0x1_0000_0000_0000_0000_0000_0000_0000_0000

  // Every IPv4 address, then every IPv6 address.  A prefix is known by what it contains.
  type Addr = x: int | 0 <= x < V4 + V6
  datatype Prefix = Prefix(contains: Addr -> bool) {
    predicate Contains(a: Addr) {
      contains(a)
    }
  }

  type Directory = map<string, string>

  datatype Endpoint = Endpoint(user: string, tags: seq<string>, addr: Option<Addr>) {
    predicate Identified() {
      user != "" || |tags| > 0 || addr.Some?
    }

    // A node is known behind the endpoint, not just an address.
    predicate Named() {
      user != "" || |tags| > 0
    }
  }

  datatype Conn = Conn(
    src: Endpoint, dst: Endpoint, proto: string,
    dstPort: uint16, hasPort: bool, srcPort: uint16, hasSrcPort: bool, isExit: bool)
  {
    // The connection as its return half would appear.
    function Reversed(): Conn {
      Conn(dst, src, proto, srcPort, hasSrcPort, dstPort, hasPort, isExit)
    }
  }

  datatype Tri = No | Yes | Unknown

  datatype Selector =
    | Any
    | Opaque(reason: string)
    | Tag(tag: string)
    | Users(users: seq<string>)
    | Role(roles: seq<string>, dir: Directory)
    | Member
    | Self
    | Internet
    | Prefixes(prefixes: seq<Prefix>)
  {
    function Match(ep: Endpoint, other: Endpoint, c: Conn): Tri {
      match this
      case Any => Yes
      case Opaque(_) => Unknown
      case Tag(tag) =>
        if tag in ep.tags then Yes
        else if ep.user != "" || |ep.tags| > 0 then No
        else if ep.addr.Some? then No
        else Unknown
      case Users(users) =>
        if ep.user == "" then if |ep.tags| > 0 || ep.addr.Some? then No else Unknown
        else if ep.user in users then Yes
        else No
      case Role(roles, dir) =>
        if ep.user == "" then if |ep.tags| > 0 || ep.addr.Some? then No else Unknown
        else if ep.user !in dir then Unknown
        else if dir[ep.user] in roles then Yes
        else No
      case Member =>
        if |ep.tags| > 0 then No
        else if ep.user == "" then if ep.addr.Some? then No else Unknown
        else Yes
      case Self =>
        if ep.user == "" || other.user == "" then
          if (ep.user == "" && |ep.tags| > 0) || (other.user == "" && |other.tags| > 0) then No
          else if ep.Identified() && other.Identified() then No
          else Unknown
        else if ep.user == other.user then Yes
        else No
      case Internet => if c.isExit then Yes else No
      case Prefixes(prefixes) =>
        if ep.addr.None? then Unknown
        else if exists i :: 0 <= i < |prefixes| && prefixes[i].Contains(ep.addr.value) then Yes
        else No
    }

    // The explanation of an undecided match; most kinds have none of their own.
    function Why(): string {
      match this
      case Opaque(reason) => reason
      case Role(_, _) =>
        "the tailnet role of an endpoint's owner is not known (is the users collector enabled?)"
      case _ => ""
    }
  }

  datatype PortSpec = PortSpec(any: bool, proto: string, lo: uint16, hi: uint16, allPorts: bool) {
    // A bare port number describes tcp and udp only.
    predicate Covers(p: string) {
      if proto == "" then p == "tcp" || p == "udp" else proto == p
    }

    function Match(c: Conn): Tri {
      if any then Yes
      else if !Covers(c.proto) then No
      else if allPorts then Yes
      else if !c.hasPort then Unknown
      else if lo <= c.dstPort <= hi then Yes
      else No
    }
  }

  datatype Rule = Rule(kind: string, source: string, src: seq<Selector>, dst: seq<Selector>, ports: seq<PortSpec>)

  datatype Verdict = Undetermined | Permitted | NoRule

  datatype Result = Result(verdict: Verdict, rule: int, reversed: bool, reason: string)

  const NO_IDENTITY := "an endpoint carries no identity to match on"
  const NO_PORT := "a rule names specific ports but the record carries none"

  /* ------------------------------------------------------- what the loops compute */

  // A disjunction of three-valued answers: any definite match wins, otherwise anything
  // undecided makes the whole undecided.
  ghost function AnyOf(answers: seq<Tri>): Tri {
    if Yes in answers then Yes else if Unknown in answers then Unknown else No
  }

  ghost function SideAnswers(sels: seq<Selector>, ep: Endpoint, other: Endpoint, c: Conn): seq<Tri> {
    seq(|sels|, i requires 0 <= i < |sels| => sels[i].Match(ep, other, c))
  }

  ghost function Side(sels: seq<Selector>, ep: Endpoint, other: Endpoint, c: Conn): Tri {
    AnyOf(SideAnswers(sels, ep, other, c))
  }

  ghost function PortAnswers(specs: seq<PortSpec>, c: Conn): seq<Tri> {
    seq(|specs|, i requires 0 <= i < |specs| => specs[i].Match(c))
  }

  ghost function Ports(specs: seq<PortSpec>, c: Conn): Tri {
    AnyOf(PortAnswers(specs, c))
  }

  // A conjunction of three answers.
  ghost function RuleTri(r: Rule, c: Conn): Tri {
    var s, d, p := Side(r.src, c.src, c.dst, c), Side(r.dst, c.dst, c.src, c), Ports(r.ports, c);
    if s == No || d == No || p == No then No
    else if s == Yes && d == Yes && p == Yes then Yes
    else Unknown
  }

  ghost predicate Decides(rules: seq<Rule>, c: Conn, i: nat)
    requires i <= |rules|
  {
    forall k | 0 <= k < i :: RuleTri(rules[k], c) != Yes
  }

  // The outcome in one direction: the first rule that definitely matches; failing that,
  // undetermined (with a reason) if some rule could not be decided; else no rule.
  ghost predicate IsOneWay(rules: seq<Rule>, c: Conn, res: Result) {
    && !res.reversed
    && match res.verdict
       case Permitted =>
         && 0 <= res.rule < |rules| && res.reason == ""
         && RuleTri(rules[res.rule], c) == Yes && Decides(rules, c, res.rule)
       case Undetermined =>
         && res.rule == -1 && res.reason != "" && Decides(rules, c, |rules|)
         && exists i :: 0 <= i < |rules| && RuleTri(rules[i], c) == Unknown
       case NoRule =>
         && res.rule == -1 && res.reason == ""
         && forall i | 0 <= i < |rules| :: RuleTri(rules[i], c) == No
  }

  // Why a side is undecided: what its first undecided selector with anything to say says, or
  // that an endpoint has nothing to match on.
  ghost predicate SideReason(sels: seq<Selector>, ep: Endpoint, other: Endpoint, c: Conn, why: string) {
    || (&& why == "an endpoint carries no identity to match on"
        && forall k | 0 <= k < |sels| && sels[k].Match(ep, other, c) == Unknown :: sels[k].Why() == "")
    || exists k :: 0 <= k < |sels| && FirstSays(sels, ep, other, c, k, why)
  }

  ghost predicate FirstSays(sels: seq<Selector>, ep: Endpoint, other: Endpoint, c: Conn, k: nat, why: string)
    requires k < |sels|
  {
    && why != "" && sels[k].Match(ep, other, c) == Unknown && sels[k].Why() == why
    && forall j | 0 <= j < k && sels[j].Match(ep, other, c) == Unknown :: sels[j].Why() == ""
  }

  // What the first i selectors have said, given their answers.
  ghost predicate Said(sels: seq<Selector>, answers: seq<Tri>, i: nat, reason: string)
    requires i <= |sels| == |answers|
  {
    if reason == "" then forall k | 0 <= k < i && answers[k] == Unknown :: sels[k].Why() == ""
    else exists k :: 0 <= k < i && SaidBy(sels, answers, k, reason)
  }

  ghost predicate SaidBy(sels: seq<Selector>, answers: seq<Tri>, k: nat, reason: string)
    requires k < |sels| == |answers|
  {
    answers[k] == Unknown && sels[k].Why() == reason && forall j | 0 <= j < k && answers[j] == Unknown :: sels[j].Why() == ""
  }

  lemma SaysNext(sels: seq<Selector>, answers: seq<Tri>, i: nat, reason: string)
    requires i < |sels| == |answers| && Said(sels, answers, i, reason) && answers[i] == Unknown
    ensures Said(sels, answers, i + 1, if reason == "" then sels[i].Why() else reason)
  {
    if reason != "" {
      var k :| 0 <= k < i && SaidBy(sels, answers, k, reason);
      assert 0 <= k < i + 1;
    } else if sels[i].Why() != "" {
      assert SaidBy(sels, answers, i, sels[i].Why());
    }
  }

  lemma SaysNothing(sels: seq<Selector>, answers: seq<Tri>, i: nat, reason: string)
    requires i < |sels| == |answers| && Said(sels, answers, i, reason) && answers[i] != Unknown
    ensures Said(sels, answers, i + 1, reason)
  {
    if reason != "" {
      var k :| 0 <= k < i && SaidBy(sels, answers, k, reason);
      assert 0 <= k < i + 1;
    }
  }

  lemma SaidAll(sels: seq<Selector>, ep: Endpoint, other: Endpoint, c: Conn, reason: string)
    requires Said(sels, SideAnswers(sels, ep, other, c), |sels|, reason)
    ensures SideReason(sels, ep, other, c, if reason == "" then NO_IDENTITY else reason)
  {
    var answers := SideAnswers(sels, ep, other, c);
    if reason != "" {
      var k :| 0 <= k < |sels| && SaidBy(sels, answers, k, reason);
      assert FirstSays(sels, ep, other, c, k, reason);
    }
  }

  // Why a rule is undecided: its sources first, then its destinations, then its ports.
  ghost predicate RuleReason(r: Rule, c: Conn, why: string) {
    if Side(r.src, c.src, c.dst, c) == Unknown then SideReason(r.src, c.src, c.dst, c, why)
    else if Side(r.dst, c.dst, c.src, c) == Unknown then SideReason(r.dst, c.dst, c.src, c, why)
    else why == "a rule names specific ports but the record carries none"
  }

  // The reason is that of the first undecided rule.
  ghost predicate Explains(rules: seq<Rule>, c: Conn, why: string) {
    exists i :: 0 <= i < |rules| && ExplainedBy(rules, c, i, why)
  }

  ghost predicate ExplainedBy(rules: seq<Rule>, c: Conn, i: nat, why: string)
    requires i < |rules|
  {
    && RuleTri(rules[i], c) == Unknown && RuleReason(rules[i], c, why)
    && forall k | 0 <= k < i :: RuleTri(rules[k], c) != Unknown
  }

  /* ------------------------------------------------------------------- the loops */

  method MatchSide(sels: seq<Selector>, ep: Endpoint, other: Endpoint, c: Conn) returns (t: Tri, why: string)
    ensures t == Side(sels, ep, other, c)
    ensures why != "" <==> t == Unknown
    ensures t == Unknown ==> SideReason(sels, ep, other, c, why)
  {
    var reason := "";
    var unknown := false;
    ghost var answers := SideAnswers(sels, ep, other, c);
    for i := 0 to |sels|
      invariant forall k | 0 <= k < i :: answers[k] != Yes
      invariant unknown <==> exists k | 0 <= k < i :: answers[k] == Unknown
      invariant (!unknown ==> reason == "") && Said(sels, answers, i, reason)
    {
      assert answers[i] == sels[i].Match(ep, other, c);
      match sels[i].Match(ep, other, c)
      case Yes =>
        return Yes, "";
      case Unknown =>
        unknown := true;
        SaysNext(sels, answers, i, reason);
        if reason == "" {
          reason := sels[i].Why();
        }
      case No =>
        SaysNothing(sels, answers, i, reason);
    }
    if unknown {
      SaidAll(sels, ep, other, c, reason);
      if reason == "" {
        reason := NO_IDENTITY;
      }
      return Unknown, reason;
    }
    return No, "";
  }

  method MatchPorts(specs: seq<PortSpec>, c: Conn) returns (t: Tri)
    ensures t == Ports(specs, c)
  {
    ghost var answers := PortAnswers(specs, c);
    var unknown := false;
    for i := 0 to |specs|
      invariant forall k | 0 <= k < i :: answers[k] != Yes
      invariant unknown <==> exists k | 0 <= k < i :: answers[k] == Unknown
    {
      var p := specs[i];
      assert answers[i] == p.Match(c);
      if p.any {
        return Yes;
      } else if p.proto != "" && p.proto != c.proto {
        continue;
      } else if p.proto == "" && c.proto != "tcp" && c.proto != "udp" {
        continue;
      } else if p.allPorts {
        return Yes;
      } else if !c.hasPort {
        unknown := true;
      } else if p.lo <= c.dstPort <= p.hi {
        return Yes;
      }
    }
    t := if unknown then Unknown else No;
  }

  // One rule: a side or port list that cannot match settles it before the next is looked at.
  method EvaluateRule(r: Rule, c: Conn) returns (t: Tri, why: string)
    ensures t == RuleTri(r, c)
    ensures why != "" <==> t == Unknown
    ensures t == Unknown ==> RuleReason(r, c, why)
  {
    var srcT, srcWhy := MatchSide(r.src, c.src, c.dst, c);
    if srcT == No {
      return No, "";
    }
    var dstT, dstWhy := MatchSide(r.dst, c.dst, c.src, c);
    if dstT == No {
      return No, "";
    }
    var portT := MatchPorts(r.ports, c);
    if portT == No {
      return No, "";
    }
    if srcT == Yes && dstT == Yes && portT == Yes {
      return Yes, "";
    }
    return Unknown, if srcWhy != "" then srcWhy else if dstWhy != "" then dstWhy else NO_PORT;
  }

  method EvaluateOneWay(rules: seq<Rule>, c: Conn) returns (res: Result)
    ensures IsOneWay(rules, c, res)
    ensures res.verdict.Undetermined? ==> Explains(rules, c, res.reason)
  {
    var unknown := false;
    var reason := "";
    ghost var first := 0;
    for i := 0 to |rules|
      invariant Decides(rules, c, i)
      invariant unknown <==> reason != ""
      invariant if unknown then 0 <= first < i && ExplainedBy(rules, c, first, reason)
                else forall k | 0 <= k < i :: RuleTri(rules[k], c) == No
    {
      var t, why := EvaluateRule(rules[i], c);
      if t == No {
        continue;
      }
      if t == Yes {
        return Result(Permitted, i, false, "");
      }
      unknown := true;
      if reason == "" {
        reason, first := why, i;
      }
    }
    res := if unknown then Result(Undetermined, -1, false, reason) else Result(NoRule, -1, false, "");
  }

  // What the policy as a whole says in one direction.
  ghost function OneWay(rules: seq<Rule>, c: Conn): Verdict {
    if exists i :: 0 <= i < |rules| && RuleTri(rules[i], c) == Yes then Permitted
    else if exists i :: 0 <= i < |rules| && RuleTri(rules[i], c) == Unknown then Undetermined
    else NoRule
  }

  // The direction as observed wins, then the return half; an undecided direction keeps the
  // connection from being called unexplained.
  ghost predicate IsEvaluation(rules: seq<Rule>, c: Conn, res: Result) {
    var fwd, back := OneWay(rules, c), OneWay(rules, c.Reversed());
    var useBack := !fwd.Permitted? && (back.Permitted? || (fwd.NoRule? && back.Undetermined?));
    if useBack then res.reversed && IsOneWay(rules, c.Reversed(), res.(reversed := false))
    else IsOneWay(rules, c, res)
  }

  lemma OneWayVerdict(rules: seq<Rule>, c: Conn, res: Result)
    requires IsOneWay(rules, c, res)
    ensures res.verdict == OneWay(rules, c)
  {}

  method Evaluate(rules: seq<Rule>, c: Conn) returns (res: Result)
    ensures IsEvaluation(rules, c, res)
    ensures res.verdict.Undetermined? ==> Explains(rules, if res.reversed then c.Reversed() else c, res.reason)
  {
    res := EvaluateOneWay(rules, c);
    OneWayVerdict(rules, c, res);
    if res.verdict == Permitted {
      return;
    }
    var back := EvaluateOneWay(rules, c.Reversed());
    OneWayVerdict(rules, c.Reversed(), back);
    if back.verdict == Permitted {
      return back.(reversed := true);
    }
    if res.verdict == Undetermined {
      return;
    }
    if back.verdict == Undetermined {
      return back.(reversed := true);
    }
  }
}
