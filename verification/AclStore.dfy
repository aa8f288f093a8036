/**
 The policy store: the newest document and directory, the policy compiled from them, and a
 bounded history of rule lists by version, so that retained traffic is shown against the rules
 it was evaluated with.
 */
module AclStore {
  import opened Wrappers
  import opened AclPolicy
  import opened AclCompile
  import opened AclTheorems
  import opened LengthPrefix

  const MAX_RETAINED := 16

  type Bytes = seq<int>
  type History = map<string, seq<Rule>>

  datatype Policy = Policy(rules: seq<Rule>, version: string)

  ghost predicate NoDuplicates(order: seq<string>) {
    forall i, j | 0 <= i < j < |order| :: order[i] != order[j]
  }

  // The queue after at most one version was filed: newest last, the oldest dropped when full.
  ghost predicate Rolled(before: seq<string>, after: seq<string>) {
    || after == before
    || (after != [] && after == (before + [after[|after| - 1]])[if |before| < MAX_RETAINED then 0 else 1..])
  }

  lemma FiledLast(before: seq<string>, after: seq<string>, v: string)
    requires after == before || after == (before + [v])[if |before| < MAX_RETAINED then 0 else 1..]
    ensures Rolled(before, after)
  {
    if after != before {
      assert after[|after| - 1] == v;
    }
  }

  class Store {
    // how a document parses, and the truncated hash of a preimage
    const parse: Bytes -> Option<Document>
    const syntax: Syntax
    const digest: Preimage -> string

    // None stands for Go's nil slice and nil map
    var doc: Option<Bytes>
    var dir: Option<Directory>
    var compiled: Option<Policy>
    var failure: bool
    var history: Option<History>
    var order: seq<string>

    static function Roles(dir: Option<Directory>): Directory {
      if dir.Some? then dir.value else map[]
    }

    static function Content(doc: Option<Bytes>): Bytes {
      if doc.Some? then doc.value else []
    }

    static function Held(history: Option<History>): History {
      if history.Some? then history.value else map[]
    }

    ghost function VersionOf(rules: seq<Rule>): string {
      digest(VersionPreimage(rules))
    }

    // Compile: nothing but the document can make it fail.
    ghost function Compiled(bytes: Bytes, dir: Option<Directory>): Option<Policy> {
      match parse(bytes)
      case None => None
      case Some(d) =>
        var rules := RulesOf(d, Roles(dir), syntax);
        Some(Policy(rules, VersionOf(rules)))
    }

    ghost predicate HistoryOk()
      reads this
    {
      && NoDuplicates(order) && |order| <= MAX_RETAINED
      && (forall v :: v in Held(history) <==> v in order)
      && (forall v | v in Held(history) :: VersionOf(Held(history)[v]) == v)
    }

    // What holds whenever the mutex is free.
    ghost predicate Valid()
      reads this
    {
      && HistoryOk()
      && (doc.Some? ==> compiled.Some? && compiled == Compiled(doc.value, dir))
      && (compiled.Some? ==>
            compiled.value.version == VersionOf(compiled.value.rules) && compiled.value.version in Held(history))
    }

    constructor (p: Bytes -> Option<Document>, x: Syntax, h: Preimage -> string)
      ensures Valid() && parse == p && syntax == x && digest == h
      ensures doc.None? && compiled.None? && history.None? && !failure
    {
      parse, syntax, digest := p, x, h;
      doc, dir, compiled, failure, history, order := None, None, None, false, None, [];
    }

    method Compile(bytes: Bytes, dir: Option<Directory>) returns (p: Option<Policy>)
      ensures p == Compiled(bytes, dir)
    {
      match parse(bytes)
      case None => p := None;
      case Some(d) =>
        var rules := CompileRules(d, Roles(dir), syntax);
        var written := WriteVersion(rules);
        p := Some(Policy(rules, digest(written)));
    }

    // Drop the oldest versions beyond the bound.
    static method Evict(held: History, queue: seq<string>) returns (next: History, kept: seq<string>)
      requires NoDuplicates(queue) && forall v :: v in held <==> v in queue
      ensures kept == queue[if |queue| <= MAX_RETAINED then 0 else |queue| - MAX_RETAINED..]
      ensures forall v :: v in next <==> v in kept
      ensures forall v | v in next :: v in held && next[v] == held[v]
    {
      next, kept := held, queue;
      ghost var cut := 0;
      while |kept| > MAX_RETAINED
        invariant 0 <= cut <= |queue| && kept == queue[cut..] && (cut == 0 || |kept| >= MAX_RETAINED)
        invariant forall v :: v in next <==> v in kept
        invariant forall v | v in next :: v in held && next[v] == held[v]
        decreases |kept|
      {
        var oldest := kept[0];
        assert kept == [oldest] + kept[1..];
        assert kept[1..] == queue[cut + 1..];
        assert forall i | cut + 1 <= i < |queue| :: queue[i] != oldest;
        assert oldest !in kept[1..];
        next := next - {oldest};
        kept := kept[1..];
        cut := cut + 1;
      }
    }

    // File a freshly compiled policy, evicting the oldest beyond the bound.  A version already
    // held is left alone, and no entry that stays is ever rewritten.
    method RetainLocked(p: Policy)
      requires HistoryOk() && p.version == VersionOf(p.rules)
      modifies this`history, this`order
      ensures HistoryOk() && p.version in Held(history)
      ensures forall v | v in Held(history) && v in old(Held(history)) :: Held(history)[v] == old(Held(history))[v]
      ensures forall v | v in Held(history) && v !in old(Held(history)) :: v == p.version && Held(history)[v] == p.rules
      ensures p.version in old(Held(history)) ==> history == old(history) && order == old(order)
      ensures p.version !in old(Held(history)) ==>
                order == (old(order) + [p.version])[if |old(order)| < 16 then 0 else 1..]
    {
      var v := p.version;
      var cur := history;
      if cur.Some? && v in cur.value {
        return;
      }
      assert v !in Held(cur) && v !in order;
      var next := Held(cur)[v := p.rules];
      var queue := order + [v];
      var kept;
      next, kept := Evict(next, queue);
      assert kept[|kept| - 1] == queue[|queue| - 1];
      order := kept;
      history := Some(next);
    }

    // Rebuild the policy from the current inputs; with no document there is nothing to compile.
    method RecompileLocked() returns (ok: bool)
      requires HistoryOk()
      requires compiled.Some? ==>
                 compiled.value.version == VersionOf(compiled.value.rules) && compiled.value.version in Held(history)
      modifies this`compiled, this`failure, this`history, this`order
      ensures ok <==> doc.None? || parse(doc.value).Some?
      ensures ok ==> Valid() && (doc.Some? ==> !failure)
      ensures !ok ==> HistoryOk() && failure && compiled == old(compiled) && history == old(history) && order == old(order)
      ensures ok && doc.Some? && Compiled(doc.value, dir).value.version in old(Held(history)) ==>
                history == old(history) && order == old(order)
      ensures forall v | v in Held(history) && v in old(Held(history)) :: Held(history)[v] == old(Held(history))[v]
      ensures Rolled(old(order), order)
    {
      if doc.None? {
        return true;
      }
      var p := Compile(doc.value, dir);
      if p.None? {
        failure := true;
        return false;
      }
      RetainLocked(p.value);
      assert Rolled(old(order), order) by {
        FiledLast(old(order), order, p.value.version);
      }
      compiled := p;
      failure := false;
      return true;
    }

    // A new document.  One that does not compile leaves everything but the failure as it was; an
    // identical one changes nothing at all, not even a recorded failure.
    method SetDocument(bytes: Option<Bytes>) returns (ok: bool)
      requires Valid()
      modifies this
      ensures Valid() && dir == old(dir)
      ensures old(doc).Some? && old(doc).value == Content(bytes) ==>
                ok && doc == old(doc) && compiled == old(compiled) && failure == old(failure) && history == old(history)
      ensures !ok ==>
                bytes.Some? && parse(bytes.value).None? && failure
                && doc == old(doc) && compiled == old(compiled) && history == old(history) && order == old(order)
      ensures ok && !(old(doc).Some? && old(doc).value == Content(bytes)) ==> doc == bytes
      ensures ok && bytes.Some? ==> doc.Some? && doc.value == bytes.value && compiled == Compiled(bytes.value, dir)
      ensures forall v | v in Held(history) && v in old(Held(history)) :: Held(history)[v] == old(Held(history))[v]
      ensures Rolled(old(order), order)
    {
      if doc.Some? && doc.value == Content(bytes) {
        return true;
      }
      var prev := doc;
      doc := bytes;
      ok := RecompileLocked();
      if !ok {
        doc := prev;
      }
    }

    // A new directory.  It can never be refused, because the document in place compiles.
    method SetDirectory(d: Option<Directory>) returns (ok: bool)
      requires Valid()
      modifies this
      ensures Valid() && ok && doc == old(doc)
      ensures Roles(dir) == Roles(d)
      ensures doc.Some? && old(compiled).Some? ==>
                compiled.Some? && compiled.value.version == old(compiled).value.version
                && history == old(history) && order == old(order)
      ensures Rolled(old(order), order)
    {
      if dir.Some? && dir.value == Roles(d) {
        return true;
      }
      if doc.Some? {
        DirectoryKeepsVersion(parse(doc.value).value, Roles(dir), Roles(d), syntax);
      }
      var prev := dir;
      dir := d;
      ok := RecompileLocked();
      dir := if ok then dir else prev;
    }

    // The rule list a version compiled to, while it is retained.
    method Snapshot(version: string) returns (r: Option<seq<Rule>>)
      requires Valid()
      ensures r.Some? <==> version in order
      ensures r.Some? ==> version in Held(history) && r.value == Held(history)[version] && VersionOf(r.value) == version
      ensures compiled.Some? && version == compiled.value.version ==> r.Some?
    {
      if history.Some? && version in history.value {
        r := Some(history.value[version]);
      } else {
        r := None;
      }
    }
  }

  // The hash does not collide on these two inputs.
  ghost predicate NoCollision(digest: Preimage -> string, a: Preimage, b: Preimage) {
    digest(a) == digest(b) ==> a == b
  }

  // Attribution.  Traffic was evaluated against `was`, whose version is v; later, after any
  // edits and evictions, a snapshot answers v with `now`.  Then every index names the same rule.
  lemma Attribution(digest: Preimage -> string, was: seq<Rule>, now: seq<Rule>, v: string)
    requires GoRules(was) && GoRules(now)
    requires digest(VersionPreimage(was)) == v && digest(VersionPreimage(now)) == v
    requires NoCollision(digest, VersionPreimage(was), VersionPreimage(now))
    ensures SameText(was, now)
  {
    VersionPreimageInjective(was, now);
  }

  datatype Edit = NewDocument(bytes: Option<Bytes>) | NewDirectory(dir: Option<Directory>)

  ghost predicate FromEnd(order: seq<string>, v: string, d: int) {
    0 <= d < |order| && order[|order| - 1 - d] == v
  }

  lemma RolledKeeps(before: seq<string>, after: seq<string>, v: string, d: int)
    requires FromEnd(before, v, d) && d + 1 < MAX_RETAINED && Rolled(before, after)
    ensures FromEnd(after, v, d) || FromEnd(after, v, d + 1)
  {
    if after != before {
      var all := before + [after[|after| - 1]];
      assert all[|all| - 2 - d] == v;
    }
  }

  // Any run of edits: whatever was current before is, as long as its version is still answered,
  // answered with the same rules; and the newest version outlives any fifteen further edits.
  method Edits(s: Store, edits: seq<Edit>)
    requires s.Valid() && s.compiled.Some?
    modifies s
    ensures s.Valid()
    ensures var was := old(s.compiled.value);
            && was.version in Store.Held(s.history)
            && GoRules(was.rules) && GoRules(Store.Held(s.history)[was.version])
            && NoCollision(s.digest, VersionPreimage(was.rules), VersionPreimage(Store.Held(s.history)[was.version]))
            ==> SameText(was.rules, Store.Held(s.history)[was.version])
    ensures FromEnd(old(s.order), old(s.compiled.value.version), 0) && |edits| <= 15 ==>
              old(s.compiled.value.version) in Store.Held(s.history)
  {
    ghost var was := s.compiled.value;
    ghost var newest := FromEnd(s.order, was.version, 0) && |edits| < MAX_RETAINED;
    ghost var d := 0;
    for i := 0 to |edits|
      invariant s.Valid() && 0 <= d <= i
      invariant newest ==> FromEnd(s.order, was.version, d)
    {
      ghost var before := s.order;
      var ok;
      match edits[i] {
        case NewDocument(bytes) => ok := s.SetDocument(bytes);
        case NewDirectory(dir) => ok := s.SetDirectory(dir);
      }
      if newest {
        RolledKeeps(before, s.order, was.version, d);
        d := if FromEnd(s.order, was.version, d) then d else d + 1;
      }
    }
    ghost var held := Store.Held(s.history);
    if was.version in held && GoRules(was.rules) && GoRules(held[was.version])
       && NoCollision(s.digest, VersionPreimage(was.rules), VersionPreimage(held[was.version])) {
      Attribution(s.digest, was.rules, held[was.version], was.version);
    }
  }

  /* --------------------------------------------------------- resolving retained rows */

  datatype RuleStat = RuleStat(version: string, rule: int)
  datatype Row = Row(version: string, rule: int, available: bool, kind: string, source: string)

  // Name the rule behind every retained count, or say that it is unavailable.  A named rule is
  // the one its version had at that index, whichever policy was in force then.
  method ExercisedRules(s: Store?, stats: seq<RuleStat>) returns (rows: seq<Row>)
    requires s != null ==> s.Valid()
    ensures |rows| == |stats|
    ensures forall i | 0 <= i < |rows| :: rows[i].version == stats[i].version && rows[i].rule == stats[i].rule
    ensures forall i | 0 <= i < |rows| && !rows[i].available :: rows[i].kind == "" && rows[i].source == ""
    ensures s == null ==> forall i | 0 <= i < |rows| :: !rows[i].available
    ensures s != null ==> forall i | 0 <= i < |rows| :: rows[i].available <==> CanName(s, stats[i])
    ensures s != null ==> forall i | 0 <= i < |rows| && rows[i].available :: NamesRightRule(s, stats[i], rows[i])
  {
    rows := [];
    for i := 0 to |stats|
      invariant |rows| == i
      invariant forall k | 0 <= k < i :: RowFits(s, stats[k], rows[k])
    {
      var st := stats[i];
      var row := Row(st.version, st.rule, false, "", "");
      if s != null {
        var snap := s.Snapshot(st.version);
        if snap.Some? && 0 <= st.rule < |snap.value| {
          var r := snap.value[st.rule];
          row := row.(available := true, kind := r.kind, source := r.source);
        }
      }
      rows := rows + [row];
    }
    if s != null {
      forall i | 0 <= i < |rows| && rows[i].available ensures NamesRightRule(s, stats[i], rows[i]) {
        FitsNames(s, stats[i], rows[i]);
      }
    }
  }

  // The version is still held and has a rule at that index.
  ghost predicate CanName(s: Store, st: RuleStat)
    reads s
  {
    st.version in Store.Held(s.history) && 0 <= st.rule < |Store.Held(s.history)[st.version]|
  }

  // Whatever rule list had that version, barring a hash collision, had this rule at that index.
  ghost predicate NamesRightRule(s: Store, st: RuleStat, row: Row)
    reads s
  {
    && CanName(s, st)
    && forall was: seq<Rule> |
         && s.VersionOf(was) == st.version && GoRules(was) && GoRules(Store.Held(s.history)[st.version])
         && NoCollision(s.digest, VersionPreimage(was), VersionPreimage(Store.Held(s.history)[st.version])) ::
         st.rule < |was| && row.kind == was[st.rule].kind && row.source == was[st.rule].source
  }

  lemma FitsNames(s: Store, st: RuleStat, row: Row)
    requires s.Valid() && RowFits(s, st, row) && row.available
    ensures NamesRightRule(s, st, row)
  {
    var now := Store.Held(s.history)[st.version];
    forall was: seq<Rule> |
      && s.VersionOf(was) == st.version && GoRules(was) && GoRules(now)
      && NoCollision(s.digest, VersionPreimage(was), VersionPreimage(now))
      ensures st.rule < |was| && row.kind == was[st.rule].kind && row.source == was[st.rule].source
    {
      Attribution(s.digest, was, now, st.version);
    }
  }

  ghost predicate RowFits(s: Store?, st: RuleStat, row: Row)
    reads s
  {
    && row.version == st.version && row.rule == st.rule
    && (!row.available ==> row.kind == "" && row.source == "")
    && (row.available <==> s != null && CanName(s, st))
    && (row.available ==>
          var r := Store.Held(s.history)[st.version][st.rule]; row.kind == r.kind && row.source == r.source)
  }

  /* -------------------------------------------------------- recompiling and verdicts */

  // A directory that only gained entries never changes a definite verdict.
  lemma GrowingDirectoryKeepsVerdicts(d: Document, dir: Directory, dir': Directory, x: Syntax, c: Conn, res: Result, res': Result)
    requires forall u | u in dir :: u in dir' && dir'[u] == dir[u]
    requires IsEvaluation(RulesOf(d, dir, x), c, res) && IsEvaluation(RulesOf(d, dir', x), c, res')
    ensures !res.verdict.Undetermined? ==> res'.verdict == res.verdict
  {
    MoreRulesOf(d, dir, dir', x);
    Monotone(RulesOf(d, dir, x), RulesOf(d, dir', x), c, c, res, res');
  }

  lemma MoreCompiled(ss: seq<string>, d: Document, dir: Directory, dir': Directory, x: Syntax)
    requires forall u | u in dir :: u in dir' && dir'[u] == dir[u]
    ensures MoreSelectors(CompileSelectors(ss, d, dir, x), CompileSelectors(ss, d, dir', x))
  {
    forall i | 0 <= i < |ss|
      ensures MoreSelector(CompileSelectors(ss, d, dir, x)[i], CompileSelectors(ss, d, dir', x)[i])
    {
    }
  }

  lemma MoreRulesOf(d: Document, dir: Directory, dir': Directory, x: Syntax)
    requires forall u | u in dir :: u in dir' && dir'[u] == dir[u]
    ensures MoreRules(RulesOf(d, dir, x), RulesOf(d, dir', x))
  {
    forall ss: seq<string> ensures MoreSelectors(CompileSelectors(ss, d, dir, x), CompileSelectors(ss, d, dir', x)) {
      MoreCompiled(ss, d, dir, dir', x);
    }
  }
}
