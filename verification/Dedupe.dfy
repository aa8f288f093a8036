/**
 The persisted set of published annotation keys.

 `State` is the set together with the checkpoint file behind it: the file store keeps its own
 map in memory (`cache`) and rewrites the file (`disk`) from it, so a failed write is made good
 by the next one.  Persisting takes a batch under the mutex and writes it after releasing it, so
 claims may fall in between; one goroutine persists.  Times are nanoseconds.
 */
module Dedupe {
  import opened LengthPrefix

  type Key = string
  type Times = map<Key, int>

  datatype Batch = NoBatch | Batch(updates: Times, deletes: set<Key>)

  datatype State = State(
    durable: bool, disk: Times, cache: Times, seen: Times, dirty: Times, batch: Batch)

  datatype Op =
    | Claim(key: Key, at: int)
    | Take(cutoff: int)          // Persist, under the mutex
    | Write(landed: bool)        // Persist, after it: the file was replaced, or was not
    | Restart(opens: bool)       // a new process, which could open the state file or could not

  // `over` wins.
  ghost function Overlay(under: Times, over: Times): Times {
    under + over
  }

  // What the file store holds once the batch in flight has been handed to it.
  ghost function Settled(s: State): Times {
    if s.batch.NoBatch? then s.cache else Overlay(s.cache - s.batch.deletes, s.batch.updates)
  }

  ghost function Stale(seen: Times, cutoff: int): set<Key> {
    set k | k in seen && seen[k] < cutoff
  }

  ghost function AfterClaim(s: State, k: Key, at: int): State {
    if k in s.seen && at <= s.seen[k] then s
    else s.(seen := s.seen[k := at], dirty := s.dirty[k := at])
  }

  // One entry, moved to the later of its times.
  ghost function Refreshed(times: Times, k: Key, at: int): Times {
    times[k := if k in times && times[k] > at then times[k] else at]
  }

  ghost function AfterTake(s: State, cutoff: int): State {
    if !s.durable || s.batch.Batch? then s
    else
      var gone := Stale(s.seen, cutoff);
      var updates := s.dirty - gone;
      s.(seen := s.seen - gone, dirty := map[],
         batch := if updates == map[] && gone == {} then NoBatch else Batch(updates, gone))
  }

  ghost function AfterWrite(s: State, landed: bool): State {
    if s.batch.NoBatch? then s
    else s.(cache := Settled(s), disk := if landed then Settled(s) else s.disk, batch := NoBatch)
  }

  ghost function AfterRestart(s: State, opens: bool): State {
    var loaded := if opens then s.disk else map[];
    State(opens, s.disk, loaded, loaded, map[], NoBatch)
  }

  ghost function After(s: State, op: Op): State {
    match op
    case Claim(k, at) => AfterClaim(s, k, at)
    case Take(cutoff) => AfterTake(s, cutoff)
    case Write(landed) => AfterWrite(s, landed)
    case Restart(opens) => AfterRestart(s, opens)
  }

  ghost function Exec(s: State, ops: seq<Op>): State
    decreases |ops|
  {
    if ops == [] then s else After(Exec(s, ops[..|ops| - 1]), ops[|ops| - 1])
  }

  ghost function FirstStart(disk: Times, opens: bool): State {
    AfterRestart(State(opens, disk, map[], map[], map[], NoBatch), opens)
  }

  // The state of a process that has just started.
  ghost predicate Begun(s: State) {
    s == FirstStart(s.disk, s.durable)
  }

  /* ------------------------------------------------------------------- state invariant */

  // The file store, the batch in flight and the dirty entries together are the in-memory view.
  ghost predicate Coherent(s: State) {
    && (s.durable ==> Overlay(Settled(s), s.dirty) == s.seen)
    && (!s.durable ==> s.batch.NoBatch? && s.cache == map[])
  }

  lemma TakeCoherent(s: State, cutoff: int)
    requires Coherent(s)
    ensures Coherent(AfterTake(s, cutoff))
  {
    if s.durable && s.batch.NoBatch? {
      var s' := AfterTake(s, cutoff);
      var gone := Stale(s.seen, cutoff);
      assert s.cache - gone + (s.dirty - gone) == s.seen - gone;
      assert gone == {} ==> s.cache - gone == s.cache;
      assert Settled(s') == s'.seen;
      assert Overlay(Settled(s'), map[]) == Settled(s');
    }
  }

  lemma CoherentKept(s: State, op: Op)
    requires Coherent(s)
    ensures Coherent(After(s, op))
  {
    if op.Take? {
      TakeCoherent(s, op.cutoff);
    }
    if op.Claim? && s.durable {
      assert Overlay(Settled(s), s.dirty[op.key := op.at]) == Overlay(Settled(s), s.dirty)[op.key := op.at];
    }
    if op.Restart? {
      assert Overlay(s.disk, map[]) == s.disk;
    }
  }

  lemma {:induction false} CoherentAlways(disk: Times, opens: bool, ops: seq<Op>)
    ensures Coherent(Exec(FirstStart(disk, opens), ops))
    decreases |ops|
  {
    if ops == [] {
      assert Overlay(disk, map[]) == disk;
    } else {
      CoherentAlways(disk, opens, ops[..|ops| - 1]);
      CoherentKept(Exec(FirstStart(disk, opens), ops[..|ops| - 1]), ops[|ops| - 1]);
    }
  }

  // Once a batch lands and nothing newer was claimed, a restart remembers exactly what was seen.
  lemma RestartAfterLanding(disk: Times, opens: bool, ops: seq<Op>)
    requires var s := Exec(FirstStart(disk, opens), ops); s.durable && s.batch.Batch? && s.dirty == map[]
    ensures var s := Exec(FirstStart(disk, opens), ops);
            After(After(s, Write(true)), Restart(true)).seen == s.seen
  {
    CoherentAlways(disk, opens, ops);
    var s := Exec(FirstStart(disk, opens), ops);
    assert Overlay(Settled(s), map[]) == Settled(s);
  }

  /* ------------------------------------------------------------------------ whole runs */

  // The state in which step i is taken.
  ghost function At(s0: State, ops: seq<Op>, i: nat): State
    requires i <= |ops|
  {
    Exec(s0, ops[..i])
  }

  lemma AtNext(s0: State, ops: seq<Op>, i: nat)
    requires i < |ops|
    ensures At(s0, ops, i + 1) == After(At(s0, ops, i), ops[i])
  {
    assert ops[..i + 1][..i] == ops[..i];
  }

  // Step i is a claim of k at time t that its caller won, and so published.
  ghost predicate Won(s0: State, ops: seq<Op>, i: nat, k: Key, t: int)
    requires i < |ops|
  {
    ops[i] == Claim(k, t) && k !in At(s0, ops, i).seen
  }

  // A map that names k with a time no older than t.
  ghost predicate Knows(times: Times, k: Key, t: int) {
    k in times && t <= times[k]
  }

  // Step m evicts an entry for k that is no older than t, yet older than the cutoff.
  ghost predicate Evicts(s0: State, ops: seq<Op>, m: nat, k: Key, t: int)
    requires m < |ops|
  {
    var s := At(s0, ops, m);
    ops[m].Take? && s.durable && s.batch.NoBatch? && Knows(s.seen, k, t) && s.seen[k] < ops[m].cutoff
  }

  // Step m replaces the file by one that names k, with a time no older than t.
  ghost predicate Lands(s0: State, ops: seq<Op>, m: nat, k: Key, t: int)
    requires m < |ops|
  {
    ops[m] == Write(true) && At(s0, ops, m).batch.Batch? && Knows(Settled(At(s0, ops, m)), k, t)
  }

  ghost predicate Landed(s0: State, ops: seq<Op>, i: nat, n: nat, k: Key, t: int)
    requires n <= |ops|
  {
    exists m: nat | i < m < n :: Lands(s0, ops, m, k, t)
  }

  // Step m starts a process that cannot know of the claim made at i: it cannot open the file, or
  // the file does not have the claim and no write since has brought it there.
  ghost predicate Forgets(s0: State, ops: seq<Op>, i: nat, m: nat, k: Key, t: int)
    requires m < |ops|
  {
    && ops[m].Restart?
    && (!ops[m].opens || (!Landed(s0, ops, i, m, k, t) && !Knows(At(s0, ops, m).disk, k, t)))
  }

  // Between the claim made at i and step n, something permits k to be published again.
  ghost predicate Excused(s0: State, ops: seq<Op>, i: nat, n: nat, k: Key, t: int)
    requires n <= |ops|
  {
    exists m: nat | i < m < n :: Evicts(s0, ops, m, k, t) || Forgets(s0, ops, i, m, k, t)
  }

  // What is known of a claim of k at t, won or refused, made at step i, when step n comes.
  ghost predicate Tracked(s0: State, ops: seq<Op>, i: nat, n: nat, k: Key, t: int)
    requires n <= |ops|
  {
    var s := At(s0, ops, n);
    || Excused(s0, ops, i, n, k, t)
    || (&& Knows(s.seen, k, t)
        && (Landed(s0, ops, i, n, k, t) ==> Knows(Settled(s), k, t) && Knows(s.disk, k, t)))
  }

  lemma TrackedFromClaim(s0: State, ops: seq<Op>, i: nat, k: Key, t: int)
    requires i < |ops| && ops[i] == Claim(k, t)
    ensures Tracked(s0, ops, i, i + 1, k, t)
  {
    AtNext(s0, ops, i);
  }

  lemma TrackedKept(s0: State, ops: seq<Op>, i: nat, n: nat, k: Key, t: int)
    requires i < n < |ops| && Tracked(s0, ops, i, n, k, t) && Coherent(At(s0, ops, n))
    ensures Tracked(s0, ops, i, n + 1, k, t)
  {
    AtNext(s0, ops, n);
    var s, op := At(s0, ops, n), ops[n];
    if Excused(s0, ops, i, n, k, t) {
      var m: nat :| i < m < n && (Evicts(s0, ops, m, k, t) || Forgets(s0, ops, i, m, k, t));
      assert Excused(s0, ops, i, n + 1, k, t);
    } else if Evicts(s0, ops, n, k, t) || Forgets(s0, ops, i, n, k, t) {
      assert Excused(s0, ops, i, n + 1, k, t);
    } else {
      if Landed(s0, ops, i, n + 1, k, t) && !Landed(s0, ops, i, n, k, t) {
        assert Lands(s0, ops, n, k, t);
      }
      TrackedState(s0, ops, i, n, k, t);
    }
  }

  // The remaining case: nothing excuses the claim, and the state still holds it.
  lemma TrackedState(s0: State, ops: seq<Op>, i: nat, n: nat, k: Key, t: int)
    requires i < n < |ops| && Tracked(s0, ops, i, n, k, t) && Coherent(At(s0, ops, n))
    requires !Excused(s0, ops, i, n, k, t) && !Evicts(s0, ops, n, k, t) && !Forgets(s0, ops, i, n, k, t)
    ensures var s' := After(At(s0, ops, n), ops[n]);
            && Knows(s'.seen, k, t)
            && (Landed(s0, ops, i, n, k, t) || Lands(s0, ops, n, k, t) ==>
                  Knows(Settled(s'), k, t) && Knows(s'.disk, k, t))
  {
    if ops[n].Take? {
      TakeKeeps(At(s0, ops, n), ops[n].cutoff, k, t);
    }
  }

  lemma TakeKeeps(s: State, cutoff: int, k: Key, t: int)
    requires Coherent(s) && Knows(s.seen, k, t)
    requires s.durable && s.batch.NoBatch? ==> cutoff <= s.seen[k]
    ensures var s' := AfterTake(s, cutoff);
            Knows(s'.seen, k, t) && (Knows(Settled(s), k, t) ==> Knows(Settled(s'), k, t))
  {
    CoherentKept(s, Take(cutoff));
    var s' := AfterTake(s, cutoff);
    if s.durable && s.batch.NoBatch? {
      assert k !in Stale(s.seen, cutoff);
      assert Overlay(Settled(s'), map[]) == Settled(s');
    }
  }

  lemma {:induction false} TrackedAlways(disk: Times, opens: bool, ops: seq<Op>, i: nat, n: nat, k: Key, t: int)
    requires i < n <= |ops| && ops[i] == Claim(k, t)
    ensures Tracked(FirstStart(disk, opens), ops, i, n, k, t)
  {
    var s0 := FirstStart(disk, opens);
    if n == i + 1 {
      TrackedFromClaim(s0, ops, i, k, t);
    } else {
      CoherentAlways(disk, opens, ops[..n - 1]);
      TrackedAlways(disk, opens, ops, i, n - 1, k, t);
      TrackedKept(s0, ops, i, n - 1, k, t);
    }
  }

  // Published once.  In any run, with restarts, failed writes and claims between taking a batch
  // and writing it: if a key is won after it was claimed, whether that claim was won or refused,
  // then in between either an entry for it no older than that claim had passed out of retention
  // and was evicted, or a process started that could not read the file, or started before the
  // claim had reached the file.  So a key seen again and again is not won again while its latest
  // sighting is within retention.
  lemma WinsAreSeparated(disk: Times, opens: bool, ops: seq<Op>, i: nat, j: nat, k: Key, t: int, u: int)
    requires i < j < |ops|
    requires ops[i] == Claim(k, t) && Won(FirstStart(disk, opens), ops, j, k, u)
    ensures Excused(FirstStart(disk, opens), ops, i, j, k, t)
  {
    TrackedAlways(disk, opens, ops, i, j, k, t);
  }

  // The ordinary case: the file opens, and every restart finds the claim written.
  lemma PersistedWinsAreSeparatedByEviction(disk: Times, opens: bool, ops: seq<Op>, i: nat, j: nat, k: Key, t: int, u: int)
    requires i < j < |ops|
    requires ops[i] == Claim(k, t) && Won(FirstStart(disk, opens), ops, j, k, u)
    requires forall m: nat | i < m < j && ops[m].Restart? ::
               ops[m].opens && Landed(FirstStart(disk, opens), ops, i, m, k, t)
    ensures exists m: nat | i < m < j :: Evicts(FirstStart(disk, opens), ops, m, k, t)
  {
    WinsAreSeparated(disk, opens, ops, i, j, k, t, u);
  }

  // Step m makes the set forget k without a restart.
  ghost predicate Drops(s0: State, ops: seq<Op>, m: nat, k: Key)
    requires m < |ops|
  {
    !ops[m].Restart? && k in At(s0, ops, m).seen && k !in At(s0, ops, m + 1).seen
  }

  // A key still being observed is not dropped: when one is, every claim of it that nothing excused
  // since, however many and whether won or refused, lies before the cutoff; and one of them, or
  // the file, gave the entry its time.
  lemma DroppedOnlyWhenOld(disk: Times, opens: bool, ops: seq<Op>, i: nat, m: nat, k: Key, t: int)
    requires i < m < |ops| && ops[i] == Claim(k, t) && Drops(FirstStart(disk, opens), ops, m, k)
    requires !Excused(FirstStart(disk, opens), ops, i, m, k, t)
    ensures ops[m].Take? && t < ops[m].cutoff
    ensures exists u | t <= u < ops[m].cutoff :: Sourced(disk, ops[..m], k, u)
  {
    var s0 := FirstStart(disk, opens);
    TrackedAlways(disk, opens, ops, i, m, k, t);
    AtNext(s0, ops, m);
    SeenWasClaimed(disk, opens, ops[..m], k);
    assert Sourced(disk, ops[..m], k, At(s0, ops, m).seen[k]);
  }

  ghost predicate Claimed(ops: seq<Op>, k: Key) {
    exists i | 0 <= i < |ops| :: ops[i].Claim? && ops[i].key == k
  }

  // The time u of k was in the first file or is the time of a claim.
  ghost predicate Sourced(disk: Times, ops: seq<Op>, k: Key, u: int) {
    (k in disk && disk[k] == u) || Claim(k, u) in ops
  }

  ghost predicate AllSourced(times: Times, disk: Times, ops: seq<Op>, k: Key) {
    k in times ==> Sourced(disk, ops, k, times[k])
  }

  lemma SourcedGrows(times: Times, disk: Times, ops: seq<Op>, op: Op, k: Key)
    requires AllSourced(times, disk, ops, k)
    ensures AllSourced(times, disk, ops + [op], k)
  {}

  // Whatever the state has on record for k came from there.
  ghost predicate StateSourced(s: State, disk: Times, ops: seq<Op>, k: Key) {
    && AllSourced(s.seen, disk, ops, k) && AllSourced(s.disk, disk, ops, k)
    && AllSourced(Settled(s), disk, ops, k) && AllSourced(s.dirty, disk, ops, k)
  }

  lemma StateSourcedGrows(s: State, disk: Times, ops: seq<Op>, op: Op, k: Key)
    requires StateSourced(s, disk, ops, k)
    ensures StateSourced(s, disk, ops + [op], k)
  {
    SourcedGrows(s.seen, disk, ops, op, k);
    SourcedGrows(s.disk, disk, ops, op, k);
    SourcedGrows(Settled(s), disk, ops, op, k);
    SourcedGrows(s.dirty, disk, ops, op, k);
  }

  lemma SourcedStep(s: State, op: Op, disk: Times, ops: seq<Op>, k: Key)
    requires Coherent(s) && op in ops && StateSourced(s, disk, ops, k)
    ensures StateSourced(After(s, op), disk, ops, k)
  {
    match op
    case Claim(_, _) =>
    case Take(_) =>
    case Write(_) =>
    case Restart(_) =>
  }

  lemma {:induction false} SourcedAlways(disk: Times, opens: bool, ops: seq<Op>, k: Key)
    ensures StateSourced(Exec(FirstStart(disk, opens), ops), disk, ops, k)
    decreases |ops|
  {
    if ops != [] {
      var n := |ops| - 1;
      var before := ops[..n];
      SourcedAlways(disk, opens, before, k);
      CoherentAlways(disk, opens, before);
      StateSourcedGrows(Exec(FirstStart(disk, opens), before), disk, before, ops[n], k);
      assert ops == before + [ops[n]];
      SourcedStep(Exec(FirstStart(disk, opens), before), ops[n], disk, ops, k);
    }
  }

  // A claim is refused only for a key that was claimed before, or was in the file to begin with;
  // and the time on record for it came from there.
  lemma SeenWasClaimed(disk: Times, opens: bool, ops: seq<Op>, k: Key)
    requires k in Exec(FirstStart(disk, opens), ops).seen
    ensures Sourced(disk, ops, k, Exec(FirstStart(disk, opens), ops).seen[k])
    ensures k in disk || Claimed(ops, k)
  {
    SourcedAlways(disk, opens, ops, k);
    var u := Exec(FirstStart(disk, opens), ops).seen[k];
    if Claim(k, u) in ops {
      var i :| 0 <= i < |ops| && ops[i] == Claim(k, u);
    }
  }

  // Writing matters: a restart before the batch lands publishes the same key again.
  lemma UnwrittenClaimIsRepublished(k: Key)
    ensures var s0 := FirstStart(map[], true);
            var ops := [Claim(k, 5), Take(0), Write(false), Restart(true), Claim(k, 5)];
            Won(s0, ops, 0, k, 5) && Won(s0, ops, 4, k, 5)
  {
    var s0 := FirstStart(map[], true);
    var ops := [Claim(k, 5), Take(0), Write(false), Restart(true), Claim(k, 5)];
    AtNext(s0, ops, 0);
    AtNext(s0, ops, 1);
    AtNext(s0, ops, 2);
    AtNext(s0, ops, 3);
    assert At(s0, ops, 0) == s0;
  }

  /* -------------------------------------------------------------------------- identity */

  // Rule-scoped form of a key.
  function DedupeKeyFor(ruleId: string, key: string): string {
    ruleId + "|" + key
  }

  // Keys are digests of one length, so the separator cannot be mistaken.
  lemma DedupeKeyForInjective(r: string, k: string, r': string, k': string)
    requires |k| == |k'| && DedupeKeyFor(r, k) == DedupeKeyFor(r', k')
    ensures r == r' && k == k'
  {
    var s, s' := r + "|" + k, r' + "|" + k';
    assert |r| == |r'|;
    assert r == s[..|r|] && r' == s'[..|r'|];
    assert k == s[|r| + 1..] && k' == s'[|r'| + 1..];
  }

  const DOMAIN := "tailscale2otel/annotation-dedupe/v1\0"

  ghost function IdentityPreimage(tailnet: string, ruleId: string, identity: seq<string>): Preimage {
    Codes(DOMAIN) + Concat(FieldDecimal, [tailnet, ruleId] + identity)
  }

  lemma FieldInPieces(head: Preimage, before: Preimage, part: string)
    ensures head + before + (Decimal(|part|) + [COLON]) + Codes(part) + [0] == head + (before + FieldDecimal(part))
  {
    var d, c := Decimal(|part|), Codes(part);
    Assoc(head + before, d + [COLON], c);
    Assoc(head + before, (d + [COLON]) + c, [0]);
    Assoc(d, [COLON], c);
    Assoc(d, [COLON] + c, [0]);
    Assoc(head, before, FieldDecimal(part));
  }

  lemma NextPart(parts: seq<string>, i: nat)
    requires i < |parts|
    ensures Concat(FieldDecimal, parts[..i + 1]) == Concat(FieldDecimal, parts[..i]) + FieldDecimal(parts[i])
  {
    assert parts[..i + 1] == parts[..i] + [parts[i]];
    ConcatSnoc(FieldDecimal, parts[..i], parts[i]);
  }

  // The bytes hashed into a key.
  method WriteIdentity(tailnet: string, ruleId: string, identity: seq<string>) returns (written: Preimage)
    ensures written == IdentityPreimage(tailnet, ruleId, identity)
  {
    var parts := [tailnet, ruleId] + identity;
    written := Codes(DOMAIN);
    ghost var fields := [];
    for i := 0 to |parts|
      invariant fields == Concat(FieldDecimal, parts[..i]) && written == Codes(DOMAIN) + fields
    {
      var part := parts[i];
      FieldInPieces(Codes(DOMAIN), fields, part);
      NextPart(parts, i);
      written := written + (Decimal(|part|) + [COLON]);
      written := written + Codes(part);
      written := written + [0];
      fields := fields + FieldDecimal(part);
    }
    assert parts[..|parts|] == parts;
  }

  // What is hashed determines the tailnet, the rule and every part of the identity.
  lemma IdentityPreimageInjective(t: string, r: string, id: seq<string>, t': string, r': string, id': seq<string>)
    requires IdentityPreimage(t, r, id) == IdentityPreimage(t', r', id')
    ensures t == t' && r == r' && id == id'
  {
    var a, b := [t, r] + id, [t', r'] + id';
    SplitEqual(Codes(DOMAIN), Concat(FieldDecimal, a), Codes(DOMAIN), Concat(FieldDecimal, b));
    FieldDecimalPrefixFree();
    ConcatInjective(FieldDecimal, AnyString, a, b);
    assert a[0] == b[0] && a[1] == b[1] && a[2..] == id && b[2..] == id';
  }

  /* ---------------------------------------------------------------------- the live set */

  datatype Claimant = Claimant(key: Key, at: int)

  ghost function Claims(cs: seq<Claimant>): seq<Op> {
    seq(|cs|, i requires 0 <= i < |cs| => Claim(cs[i].key, cs[i].at))
  }

  lemma ExecSnoc(s: State, ops: seq<Op>, op: Op)
    ensures Exec(s, ops + [op]) == After(Exec(s, ops), op)
  {
    assert (ops + [op])[..|ops|] == ops;
  }

  class DedupeStore {
    const retention: int
    const durable: bool
    // the file store
    var disk: Times
    var cache: Times
    // the set
    var seen: Times
    var dirty: Times
    var batch: Batch
    // the run so far, over this process and those before it
    ghost const first: State
    ghost var ops: seq<Op>

    ghost function View(): State
      reads this
    {
      State(durable, disk, cache, seen, dirty, batch)
    }

    // What this object holds is where its run has led.
    ghost predicate Valid()
      reads this
    {
      View() == Exec(first, ops) && Begun(first)
    }

    // Load the set; without a store the set starts empty and nothing is ever persisted.
    constructor (file: Times, opens: bool, keep: int)
      ensures Valid() && View() == FirstStart(file, opens) && ops == [] && retention == keep
    {
      retention, durable := keep, opens;
      disk, cache := file, if opens then file else map[];
      dirty, batch := map[], NoBatch;
      var loaded: Times := map[];
      if opens {
        loaded := LoadAll(file);
      }
      seen := loaded;
      first, ops := FirstStart(file, opens), [];
    }

    // The next process, over the file that a run left behind.
    constructor Reopen(file: Times, opens: bool, keep: int, ghost start: State, ghost run: seq<Op>)
      requires Begun(start) && file == Exec(start, run).disk
      ensures Valid() && first == start && ops == run + [Restart(opens)] && retention == keep
      ensures View() == After(Exec(start, run), Restart(opens))
    {
      retention, durable := keep, opens;
      disk, cache := file, if opens then file else map[];
      dirty, batch := map[], NoBatch;
      var loaded: Times := map[];
      if opens {
        loaded := LoadAll(file);
      }
      seen := loaded;
      first, ops := start, run + [Restart(opens)];
      new;
      ExecSnoc(start, run, Restart(opens));
    }

    static method LoadAll(file: Times) returns (loaded: Times)
      ensures loaded == file
    {
      loaded := map[];
      var left := file.Keys;
      while left != {}
        invariant left <= file.Keys
        invariant loaded.Keys == file.Keys - left && forall k | k in loaded :: loaded[k] == file[k]
      {
        var key :| key in left;
        loaded := loaded[key := file[key]];
        left := left - {key};
      }
    }

    // A caller publishes only on true.
    method Claim(ruleId: string, key: string, at: int) returns (won: bool)
      requires Valid()
      modifies this`seen, this`dirty, this`ops
      ensures Valid() && ops == old(ops) + [Op.Claim(DedupeKeyFor(ruleId, key), at)]
      ensures View() == After(old(View()), Op.Claim(DedupeKeyFor(ruleId, key), at))
      ensures won <==> ruleId + "|" + key !in old(seen)
      ensures seen == Refreshed(old(seen), ruleId + "|" + key, at)
    {
      won := ClaimStored(DedupeKeyFor(ruleId, key), at);
    }

    method ClaimStored(stored: Key, at: int) returns (won: bool)
      requires Valid()
      modifies this`seen, this`dirty, this`ops
      ensures Valid() && ops == old(ops) + [Op.Claim(stored, at)]
      ensures View() == After(old(View()), Op.Claim(stored, at))
      ensures won <==> stored !in old(seen)
      ensures seen == Refreshed(old(seen), stored, at)
    {
      ExecSnoc(first, ops, Op.Claim(stored, at));
      ops := ops + [Op.Claim(stored, at)];
      if stored in seen {
        if at > seen[stored] {
          seen := seen[stored := at];
          dirty := dirty[stored := at];
        }
        return false;
      }
      seen := seen[stored := at];
      dirty := dirty[stored := at];
      return true;
    }

    // The part of Persist under the mutex: whatever order the entries come in, exactly those
    // older than the retention window leave both maps.
    method TakeBatch(now: int)
      requires Valid() && durable && batch.NoBatch?
      modifies this`seen, this`dirty, this`batch, this`ops
      ensures Valid() && ops == old(ops) + [Take(now - retention)]
      ensures View() == After(old(View()), Take(now - retention))
      ensures seen == map k | k in old(seen) && old(seen)[k] >= now - retention :: old(seen)[k]
    {
      ExecSnoc(first, ops, Take(now - retention));
      var updates, deletes;
      seen, updates, deletes := Sweep(seen, dirty, now - retention);
      dirty := map[];
      batch := if updates == map[] && deletes == {} then NoBatch else Batch(updates, deletes);
      ops := ops + [Take(now - retention)];
    }

    static method Sweep(was: Times, changed: Times, cutoff: int) returns (kept: Times, updates: Times, deletes: set<Key>)
      ensures deletes == Stale(was, cutoff) && kept == was - deletes && updates == changed - deletes
    {
      kept, updates, deletes := was, changed, {};
      var left := was.Keys;
      ghost var gone := Stale(was, cutoff);
      while left != {}
        invariant left <= was.Keys && deletes == gone - left
        invariant kept == was - deletes && updates == changed - deletes
      {
        var key :| key in left;
        if key in kept && kept[key] < cutoff {
          kept := kept - {key};
          updates := updates - {key};
          deletes := deletes + {key};
        }
        left := left - {key};
      }
      assert deletes == gone;
    }

    // UpdateCheckpointBatch on the file store: its map first, then the file.
    method WriteBatch(landed: bool)
      requires Valid()
      modifies this`disk, this`cache, this`batch, this`ops
      ensures Valid() && ops == old(ops) + [Write(landed)] && batch.NoBatch?
      ensures View() == After(old(View()), Write(landed))
      ensures disk == if landed && old(batch).Batch? then cache else old(disk)
    {
      ExecSnoc(first, ops, Write(landed));
      ops := ops + [Write(landed)];
      if batch.NoBatch? {
        return;
      }
      cache := (cache - batch.deletes) + batch.updates;
      if landed {
        disk := cache;
      }
      batch := NoBatch;
    }

    // What persisting adds to the run: nothing without a store.
    ghost function Persisting(now: int, others: seq<Claimant>, landed: bool): seq<Op> {
      if durable then [Take(now - retention)] + Claims(others) + [Write(landed)] else []
    }

    // Persist, with the claims of other goroutines that arrive after the mutex is released.
    method Persist(now: int, others: seq<Claimant>, landed: bool)
      requires Valid() && batch.NoBatch?
      modifies this`disk, this`cache, this`seen, this`dirty, this`batch, this`ops
      ensures Valid() && batch.NoBatch?
      ensures ops == old(ops) + Persisting(now, others, landed)
    {
      if !durable {
        return;
      }
      TakeBatch(now);
      ClaimAll(others);
      WriteBatch(landed);
      assert old(ops) + [Take(now - retention)] + Claims(others) + [Write(landed)]
             == old(ops) + ([Take(now - retention)] + Claims(others) + [Write(landed)]);
    }

    method ClaimAll(others: seq<Claimant>)
      requires Valid()
      modifies this`seen, this`dirty, this`ops
      ensures Valid() && ops == old(ops) + Claims(others)
    {
      for i := 0 to |others|
        invariant Valid() && ops == old(ops) + Claims(others)[..i]
      {
        var won := ClaimStored(others[i].key, others[i].at);
        assert Claims(others)[..i + 1] == Claims(others)[..i] + [Op.Claim(others[i].key, others[i].at)];
      }
      assert Claims(others)[..|others|] == Claims(others);
    }
  }
}
