/**
 Rollup buckets of the annotation recorder: occurrences of a rolled-up category are counted per
 tailnet, category and interval, and each interval is published once as a region.

 A flush takes the closed buckets under the mutex and publishes them after releasing it; one
 goroutine flushes.  Times are nanoseconds since Go's zero time.
 */
module Rollup {
  import opened Wrappers
  import opened LengthPrefix
  import opened Dedupe

  type Category = string

  const LIFECYCLE: Category := "lifecycle"
  const SECOND := 1_000_000_000

  datatype Occurrence = Occurrence(category: Category, tailnet: string, ruleId: string, time: int, title: string)
  datatype BucketKey = BucketKey(tailnet: string, category: Category, start: int)
  datatype Bucket = Bucket(count: nat, titles: map<string, nat>)
  datatype Due = Due(key: BucketKey, b: Bucket)

  datatype Annotation =
    | Marker(o: Occurrence)
    | Summary(category: Category, tailnet: string, ruleId: string, from: int, to: int, b: Bucket, dedupeKey: string)

  // Truncate, for a positive interval: down to a multiple of it.
  function Truncate(t: int, interval: int): (r: int)
    requires interval > 0
    ensures r <= t < r + interval && r % interval == 0
  {
    TruncateIsMultiple(t, interval);
    t - t % interval
  }

  lemma TruncateIsMultiple(t: int, interval: int)
    requires interval > 0
    ensures (t - t % interval) % interval == 0
  {
    assert t - t % interval == interval * (t / interval) + 0;
    MultipleHasNoRemainder(t / interval, interval);
  }

  lemma MultipleHasNoRemainder(k: int, d: int)
    requires d > 0
    ensures (d * k) % d == 0
  {
    var q, r := (d * k) / d, (d * k) % d;
    assert d * k == d * q + r;
    MultiplesApart(k, q, d);
    MultiplesApart(q, k, d);
  }

  lemma MultiplesApart(p: int, q: int, d: int)
    requires d > 0
    ensures p > q ==> d * p >= d * q + d
  {
    assert p > q ==> d * (p - q - 1) >= 0;
  }

  function KeyOf(o: Occurrence, interval: int): BucketKey
    requires interval > 0
  {
    BucketKey(o.tailnet, o.category, Truncate(o.time, interval))
  }

  // An occurrence without a title is counted under its rule.
  function TitleOf(o: Occurrence): string {
    if o.title == "" then o.ruleId else o.title
  }

  function RollupRuleId(c: Category): string {
    c + ".rollup"
  }

  /* -------------------------------------------------------------------------- tallies */

  ghost function SumTitles(titles: map<string, nat>): nat {
    if titles == map[] then 0
    else
      var t :| t in titles;
      titles[t] + SumTitles(titles - {t})
  }

  lemma {:induction false} SumWithout(titles: map<string, nat>, t: string)
    requires t in titles
    ensures SumTitles(titles) == titles[t] + SumTitles(titles - {t})
    decreases |titles|
  {
    var u :| u in titles && SumTitles(titles) == titles[u] + SumTitles(titles - {u});
    if u != t {
      SumWithout(titles - {u}, t);
      SumWithout(titles - {t}, u);
      assert titles - {u} - {t} == titles - {t} - {u};
    }
  }

  function Bumped(b: Bucket, title: string): Bucket {
    Bucket(b.count + 1, b.titles[title := (if title in b.titles then b.titles[title] else 0) + 1])
  }

  lemma BumpAddsOne(b: Bucket, title: string)
    ensures SumTitles(Bumped(b, title).titles) == SumTitles(b.titles) + 1
  {
    var after := Bumped(b, title).titles;
    SumWithout(after, title);
    assert after - {title} == b.titles - {title};
    if title in b.titles {
      SumWithout(b.titles, title);
    } else {
      assert b.titles - {title} == b.titles;
    }
  }

  // A bucket is never empty, and its count is the sum of its titles.
  ghost predicate Sound(b: Bucket) {
    b.count > 0 && b.count == SumTitles(b.titles)
  }

  // How many occurrences a bucket counts, in all or under one title.
  ghost function Weight(b: Bucket, title: Option<string>): nat {
    match title
    case None => b.count
    case Some(t) => if t in b.titles then b.titles[t] else 0
  }

  ghost function Open(buckets: map<BucketKey, Bucket>, k: BucketKey, title: Option<string>): nat {
    if k in buckets then Weight(buckets[k], title) else 0
  }

  ghost function Held(ds: seq<Due>, k: BucketKey, title: Option<string>): nat {
    if ds == [] then 0
    else Held(ds[..|ds| - 1], k, title) + if ds[|ds| - 1].key == k then Weight(ds[|ds| - 1].b, title) else 0
  }

  ghost function Sent(sink: seq<Annotation>, k: BucketKey, title: Option<string>): nat {
    if sink == [] then 0
    else
      var a := sink[|sink| - 1];
      Sent(sink[..|sink| - 1], k, title)
      + if a.Summary? && BucketKey(a.tailnet, a.category, a.from) == k then Weight(a.b, title) else 0
  }

  // An occurrence of this tailnet and category, within this interval, and under this title if one
  // is asked for; an occurrence without a title goes under its rule.
  ghost predicate Belongs(o: Occurrence, interval: int, k: BucketKey, title: Option<string>)
    requires interval > 0
  {
    && o.tailnet == k.tailnet && o.category == k.category
    && k.start % interval == 0 && k.start <= o.time < k.start + interval
    && (title.Some? ==> (o.title != "" && title.value == o.title) || (o.title == "" && title.value == o.ruleId))
  }

  // Every occurrence belongs to exactly one bucket, and there to exactly one title.
  lemma BelongsToItsBucket(o: Occurrence, interval: int, k: BucketKey, title: Option<string>)
    requires interval > 0
    ensures Belongs(o, interval, k, title) <==> KeyOf(o, interval) == k && (title.None? || title.value == TitleOf(o))
  {
    var s := Truncate(o.time, interval);
    if k.start % interval == 0 && k.start <= o.time < k.start + interval {
      MultiplesApart(s / interval, k.start / interval, interval);
      MultiplesApart(k.start / interval, s / interval, interval);
      assert s == interval * (s / interval) && k.start == interval * (k.start / interval);
    }
  }

  ghost function Accepted(os: seq<Occurrence>, interval: int, k: BucketKey, title: Option<string>): nat
    requires interval > 0
  {
    if os == [] then 0
    else
      var o := os[|os| - 1];
      Accepted(os[..|os| - 1], interval, k, title)
      + if Belongs(o, interval, k, title) then 1 else 0
  }

  lemma HeldSnoc(ds: seq<Due>, d: Due, k: BucketKey, title: Option<string>)
    ensures Held(ds + [d], k, title) == Held(ds, k, title) + if d.key == k then Weight(d.b, title) else 0
  {
    assert (ds + [d])[..|ds|] == ds;
  }

  lemma {:induction false} HeldFirst(ds: seq<Due>, k: BucketKey, title: Option<string>)
    requires ds != []
    ensures Held(ds, k, title) == Held(ds[1..], k, title) + if ds[0].key == k then Weight(ds[0].b, title) else 0
  {
    if |ds| > 1 {
      HeldFirst(ds[..|ds| - 1], k, title);
      assert ds[..|ds| - 1][1..] == ds[1..][..|ds| - 2];
    }
  }

  lemma SentSnoc(sink: seq<Annotation>, a: Annotation, k: BucketKey, title: Option<string>)
    ensures Sent(sink + [a], k, title) == Sent(sink, k, title)
            + if a.Summary? && BucketKey(a.tailnet, a.category, a.from) == k then Weight(a.b, title) else 0
  {
    assert (sink + [a])[..|sink|] == sink;
  }

  lemma AcceptedSnoc(os: seq<Occurrence>, o: Occurrence, interval: int, k: BucketKey, title: Option<string>)
    requires interval > 0
    ensures Accepted(os + [o], interval, k, title) == Accepted(os, interval, k, title)
            + if Belongs(o, interval, k, title) then 1 else 0
  {
    assert (os + [o])[..|os|] == os;
  }

  /* --------------------------------------------------------------- the books of a run */

  // Everything a recorder has taken in and put out.
  datatype Books = Books(
    buckets: map<BucketKey, Bucket>, ready: seq<Due>, sink: seq<Annotation>,
    accepted: seq<Occurrence>, suppressed: seq<Due>)

  // For every interval and every title: accepted is open, in flight, published or suppressed.
  ghost predicate Balanced(b: Books, interval: int)
    requires interval > 0
  {
    forall k, title ::
      Accepted(b.accepted, interval, k, title)
      == Open(b.buckets, k, title) + Held(b.ready, k, title) + Sent(b.sink, k, title) + Held(b.suppressed, k, title)
  }

  // Every bucket counts what its titles say, and every published region is its interval.
  ghost predicate Regular(b: Books, interval: int)
    requires interval > 0
  {
    && (forall k | k in b.buckets :: Sound(b.buckets[k]) && k.start % interval == 0)
    && (forall i | 0 <= i < |b.ready| :: Sound(b.ready[i].b) && b.ready[i].key.start % interval == 0)
    && (forall i | 0 <= i < |b.suppressed| :: Sound(b.suppressed[i].b) && b.suppressed[i].key.start % interval == 0)
    && (forall i | 0 <= i < |b.sink| && b.sink[i].Summary? ::
          && Sound(b.sink[i].b) && b.sink[i].to == b.sink[i].from + interval && b.sink[i].from % interval == 0
          && b.sink[i].ruleId == b.sink[i].category + ".rollup")
  }

  ghost function Counted(b: Books, o: Occurrence, interval: int): Books
    requires interval > 0
  {
    var k := KeyOf(o, interval);
    var bucket := if k in b.buckets then b.buckets[k] else Bucket(0, map[]);
    b.(buckets := b.buckets[k := Bumped(bucket, TitleOf(o))], accepted := b.accepted + [o])
  }

  lemma CountedKeeps(b: Books, o: Occurrence, interval: int)
    requires interval > 0 && Balanced(b, interval) && Regular(b, interval)
    ensures Balanced(Counted(b, o, interval), interval) && Regular(Counted(b, o, interval), interval)
  {
    var k := KeyOf(o, interval);
    var bucket := if k in b.buckets then b.buckets[k] else Bucket(0, map[]);
    BumpAddsOne(bucket, TitleOf(o));
    assert Sound(Bumped(bucket, TitleOf(o)));
    var b' := Counted(b, o, interval);
    forall k2, title
      ensures Accepted(b'.accepted, interval, k2, title)
              == Open(b'.buckets, k2, title) + Held(b'.ready, k2, title) + Sent(b'.sink, k2, title)
                 + Held(b'.suppressed, k2, title)
    {
      AcceptedSnoc(b.accepted, o, interval, k2, title);
      BelongsToItsBucket(o, interval, k2, title);
      assert Accepted(b.accepted, interval, k2, title)
             == Open(b.buckets, k2, title) + Held(b.ready, k2, title) + Sent(b.sink, k2, title)
                + Held(b.suppressed, k2, title);
    }
  }

  // A bucket moves from the open ones to those in flight.
  ghost function Taken(b: Books, k: BucketKey): Books
    requires k in b.buckets
  {
    b.(buckets := b.buckets - {k}, ready := b.ready + [Due(k, b.buckets[k])])
  }

  lemma TakenKeeps(b: Books, k: BucketKey, interval: int)
    requires interval > 0 && k in b.buckets && Balanced(b, interval) && Regular(b, interval)
    ensures Balanced(Taken(b, k), interval) && Regular(Taken(b, k), interval)
  {
    var b' := Taken(b, k);
    forall k2, title
      ensures Accepted(b'.accepted, interval, k2, title)
              == Open(b'.buckets, k2, title) + Held(b'.ready, k2, title) + Sent(b'.sink, k2, title)
                 + Held(b'.suppressed, k2, title)
    {
      HeldSnoc(b.ready, Due(k, b.buckets[k]), k2, title);
      assert Accepted(b.accepted, interval, k2, title)
             == Open(b.buckets, k2, title) + Held(b.ready, k2, title) + Sent(b.sink, k2, title)
                + Held(b.suppressed, k2, title);
    }
  }

  ghost function DueKeys(ds: seq<Due>): set<BucketKey> {
    set i | 0 <= i < |ds| :: ds[i].key
  }

  // Distinct buckets, each as it was.
  ghost predicate DueFrom(ds: seq<Due>, was: map<BucketKey, Bucket>) {
    && (forall i | 0 <= i < |ds| :: ds[i].key in was && ds[i].b == was[ds[i].key])
    && (forall i, j | 0 <= i < j < |ds| :: ds[i].key != ds[j].key)
  }

  lemma DueKeysSnoc(ds: seq<Due>, d: Due)
    ensures DueKeys(ds + [d]) == DueKeys(ds) + {d.key}
  {
    var more := ds + [d];
    assert more[|ds|] == d;
    forall k | k in DueKeys(ds) ensures k in DueKeys(more) {
      var i :| 0 <= i < |ds| && ds[i].key == k;
      assert more[i].key == k;
    }
  }

  lemma LastTaken(b: Books, ds: seq<Due>)
    requires ds != [] && b.ready == [] && DueFrom(ds, b.buckets)
    ensures var n := |ds| - 1;
            var before := b.(buckets := b.buckets - DueKeys(ds[..n]), ready := ds[..n]);
            && ds[n].key in before.buckets
            && Taken(before, ds[n].key) == b.(buckets := b.buckets - DueKeys(ds), ready := ds)
  {
    var n := |ds| - 1;
    assert ds == ds[..n] + [ds[n]];
    DueKeysSnoc(ds[..n], ds[n]);
    assert ds[n].key !in DueKeys(ds[..n]);
    assert b.buckets - DueKeys(ds) == b.buckets - DueKeys(ds[..n]) - {ds[n].key};
  }

  lemma {:induction false} AllTakenKeeps(b: Books, ds: seq<Due>, interval: int)
    requires interval > 0 && b.ready == [] && DueFrom(ds, b.buckets) && Balanced(b, interval) && Regular(b, interval)
    ensures var b' := b.(buckets := b.buckets - DueKeys(ds), ready := ds); Balanced(b', interval) && Regular(b', interval)
    decreases |ds|
  {
    if ds == [] {
      assert b.buckets - DueKeys(ds) == b.buckets;
    } else {
      var n := |ds| - 1;
      AllTakenKeeps(b, ds[..n], interval);
      LastTaken(b, ds);
      TakenKeeps(b.(buckets := b.buckets - DueKeys(ds[..n]), ready := ds[..n]), ds[n].key, interval);
    }
  }

  ghost function Settle(b: Books, won: bool, dedupeKey: string, interval: int): Books
    requires b.ready != []
  {
    var d := b.ready[0];
    var left := b.(ready := b.ready[1..]);
    if won then
      left.(sink := b.sink + [Summary(d.key.category, d.key.tailnet, RollupRuleId(d.key.category),
                                      d.key.start, d.key.start + interval, d.b, dedupeKey)])
    else left.(suppressed := b.suppressed + [d])
  }

  lemma SettleKeeps(b: Books, won: bool, dedupeKey: string, interval: int)
    requires interval > 0 && b.ready != [] && Balanced(b, interval) && Regular(b, interval)
    ensures var b' := Settle(b, won, dedupeKey, interval); Balanced(b', interval) && Regular(b', interval)
  {
    var b' := Settle(b, won, dedupeKey, interval);
    var d := b.ready[0];
    forall k, title
      ensures Accepted(b'.accepted, interval, k, title)
              == Open(b'.buckets, k, title) + Held(b'.ready, k, title) + Sent(b'.sink, k, title)
                 + Held(b'.suppressed, k, title)
    {
      HeldFirst(b.ready, k, title);
      if won {
        SentSnoc(b.sink, b'.sink[|b.sink|], k, title);
      } else {
        HeldSnoc(b.suppressed, d, k, title);
      }
      assert Accepted(b.accepted, interval, k, title)
             == Open(b.buckets, k, title) + Held(b.ready, k, title) + Sent(b.sink, k, title)
                + Held(b.suppressed, k, title);
    }
  }

  lemma MarkerKeeps(b: Books, o: Occurrence, interval: int)
    requires interval > 0 && Balanced(b, interval) && Regular(b, interval)
    ensures var b' := b.(sink := b.sink + [Marker(o)]); Balanced(b', interval) && Regular(b', interval)
  {
    var b' := b.(sink := b.sink + [Marker(o)]);
    forall k, title
      ensures Accepted(b'.accepted, interval, k, title)
              == Open(b'.buckets, k, title) + Held(b'.ready, k, title) + Sent(b'.sink, k, title)
                 + Held(b'.suppressed, k, title)
    {
      SentSnoc(b.sink, Marker(o), k, title);
      assert Accepted(b.accepted, interval, k, title)
             == Open(b.buckets, k, title) + Held(b.ready, k, title) + Sent(b.sink, k, title)
                + Held(b.suppressed, k, title);
    }
  }

  /* ---------------------------------------------------------------------- identity */

  // How the recorder names things: the truncated digest of a preimage, and RFC 3339 of a second.
  datatype Naming = Naming(digest: Preimage -> string, second: int -> string)

  const KEY_LENGTH := 32

  ghost predicate GoodNaming(n: Naming) {
    && (forall p :: |n.digest(p)| == KEY_LENGTH)
    && (forall a, b | n.second(a) == n.second(b) :: a == b)
  }

  ghost function RollupPreimage(k: BucketKey, n: Naming): Preimage {
    IdentityPreimage(k.tailnet, RollupRuleId(k.category), [n.second(k.start / SECOND)])
  }

  // The dedupe key a bucket is claimed under.
  ghost function StoredKey(k: BucketKey, n: Naming): Key {
    DedupeKeyFor(RollupRuleId(k.category), n.digest(RollupPreimage(k, n)))
  }

  // With an interval of at least a second, distinct intervals begin in distinct seconds.
  lemma StartsInDistinctSeconds(a: int, b: int, interval: int)
    requires interval >= SECOND && a % interval == 0 && b % interval == 0 && a / SECOND == b / SECOND
    ensures a == b
  {
    SameSecondIsClose(a, b);
    MultiplesApart(a / interval, b / interval, interval);
    MultiplesApart(b / interval, a / interval, interval);
    assert a == interval * (a / interval) && b == interval * (b / interval);
  }

  lemma SameSecondIsClose(a: int, b: int)
    requires a / SECOND == b / SECOND
    ensures -SECOND < a - b < SECOND
  {
  }

  // The digest does not collide on the preimages of these two buckets.
  ghost predicate NoCollision(a: BucketKey, b: BucketKey, n: Naming) {
    n.digest(RollupPreimage(a, n)) == n.digest(RollupPreimage(b, n)) ==> RollupPreimage(a, n) == RollupPreimage(b, n)
  }

  // Two buckets share a dedupe key only if they are the same bucket, barring a hash collision.
  lemma StoredKeyInjective(a: BucketKey, b: BucketKey, n: Naming, interval: int)
    requires GoodNaming(n) && interval >= SECOND && a.start % interval == 0 && b.start % interval == 0
    requires NoCollision(a, b, n) && StoredKey(a, n) == StoredKey(b, n)
    ensures a == b
  {
    DedupeKeyForInjective(RollupRuleId(a.category), n.digest(RollupPreimage(a, n)),
                          RollupRuleId(b.category), n.digest(RollupPreimage(b, n)));
    var x, y := RollupRuleId(a.category), RollupRuleId(b.category);
    assert a.category == x[..|x| - |".rollup"|] && b.category == y[..|y| - |".rollup"|];
    IdentityPreimageInjective(a.tailnet, x, [n.second(a.start / SECOND)], b.tailnet, y, [n.second(b.start / SECOND)]);
    assert [n.second(a.start / SECOND)][0] == [n.second(b.start / SECOND)][0];
    StartsInDistinctSeconds(a.start, b.start, interval);
  }

  // The dedupe key of a single occurrence.
  ghost function OccurrenceKey(s: Sighting, n: Naming): Key {
    DedupeKeyFor(s.o.ruleId, n.digest(IdentityPreimage(s.o.tailnet, s.o.ruleId, s.identity)))
  }

  // A rollup's key is never an occurrence's, collision or not, as long as no rule is named like
  // the rollup of its category.
  lemma RollupIsNoOccurrence(k: BucketKey, s: Sighting, n: Naming)
    requires GoodNaming(n) && s.o.ruleId != k.category + ".rollup"
    ensures StoredKey(k, n) != OccurrenceKey(s, n)
  {
    if StoredKey(k, n) == OccurrenceKey(s, n) {
      DedupeKeyForInjective(RollupRuleId(k.category), n.digest(RollupPreimage(k, n)), s.o.ruleId,
                            n.digest(IdentityPreimage(s.o.tailnet, s.o.ruleId, s.identity)));
    }
  }

  // Barring a collision, two occurrences share a key only if rule, tailnet and identity agree.
  lemma OccurrenceKeyInjective(s: Sighting, s': Sighting, n: Naming)
    requires GoodNaming(n) && OccurrenceKey(s, n) == OccurrenceKey(s', n)
    requires var p, p' := IdentityPreimage(s.o.tailnet, s.o.ruleId, s.identity),
                          IdentityPreimage(s'.o.tailnet, s'.o.ruleId, s'.identity);
             n.digest(p) == n.digest(p') ==> p == p'
    ensures s.o.tailnet == s'.o.tailnet && s.o.ruleId == s'.o.ruleId && s.identity == s'.identity
  {
    var p, p' := IdentityPreimage(s.o.tailnet, s.o.ruleId, s.identity),
                 IdentityPreimage(s'.o.tailnet, s'.o.ruleId, s'.identity);
    DedupeKeyForInjective(s.o.ruleId, n.digest(p), s'.o.ruleId, n.digest(p'));
    IdentityPreimageInjective(s.o.tailnet, s.o.ruleId, s.identity, s'.o.tailnet, s'.o.ruleId, s'.identity);
  }

  // Two intervals of one tailnet and category that claim the same key without any collision.
  ghost predicate Confused(tailnet: string, category: Category, a: int, b: int, n: Naming) {
    var x, y := BucketKey(tailnet, category, a), BucketKey(tailnet, category, b);
    NoCollision(x, y, n) && StoredKey(x, n) == StoredKey(y, n)
  }

  // A second is exactly the limit: every shorter interval has two buckets with one key, so the
  // later one is dropped as a duplicate although it counts other occurrences.
  lemma OneSecondIsTheLimit(n: Naming, interval: int, tailnet: string, category: Category)
    requires GoodNaming(n) && interval > 0
    ensures interval >= SECOND <==>
            forall a: int, b: int | a % interval == 0 && b % interval == 0 && Confused(tailnet, category, a, b, n) :: a == b
  {
    if interval >= SECOND {
      forall a: int, b: int | a % interval == 0 && b % interval == 0 && Confused(tailnet, category, a, b, n)
        ensures a == b
      {
        StoredKeyInjective(BucketKey(tailnet, category, a), BucketKey(tailnet, category, b), n, interval);
      }
    } else {
      assert 0 % interval == 0 && interval % interval == 0;
      assert 0 / SECOND == interval / SECOND == 0;
      assert Confused(tailnet, category, 0, interval, n);
    }
  }

  // Names of the kind the limit speaks of exist.
  lemma GoodNamingExists() returns (n: Naming)
    ensures GoodNaming(n)
  {
    n := Naming(p => seq(KEY_LENGTH, i => '0'), Unary);
    forall a, b | n.second(a) == n.second(b) ensures a == b {
      assert |Unary(a)| == |Unary(b)|;
    }
  }

  ghost function Unary(a: int): (r: string)
    ensures |r| == if a < 0 then -2 * a - 1 else 2 * a
  {
    seq(if a < 0 then -2 * a - 1 else 2 * a, i => '1')
  }

  /* ------------------------------------------------------------ what claims were made */

  // A bucket, and the step of the dedupe run that claimed it.
  datatype Bid = Bid(key: BucketKey, at: nat)

  ghost predicate IsBid(s0: State, ops: seq<Op>, p: Bid, n: Naming, won: bool) {
    && p.at < |ops| && ops[p.at] == Op.Claim(StoredKey(p.key, n), p.key.start)
    && (won <==> StoredKey(p.key, n) !in At(s0, ops, p.at).seen)
  }

  ghost predicate Bids(s0: State, ops: seq<Op>, bids: seq<Bid>, n: Naming, won: bool) {
    && (forall i | 0 <= i < |bids| :: IsBid(s0, ops, bids[i], n, won))
    && (forall i, j | 0 <= i < j < |bids| :: bids[i].at < bids[j].at)
  }

  lemma BidsStay(s0: State, ops: seq<Op>, more: seq<Op>, bids: seq<Bid>, n: Naming, won: bool)
    requires Bids(s0, ops, bids, n, won)
    ensures Bids(s0, ops + more, bids, n, won)
  {
    forall i | 0 <= i < |bids| ensures IsBid(s0, ops + more, bids[i], n, won) {
      assert IsBid(s0, ops, bids[i], n, won);
      assert (ops + more)[..bids[i].at] == ops[..bids[i].at];
    }
  }

  ghost function KeysOf(bids: seq<Bid>): seq<BucketKey> {
    seq(|bids|, i requires 0 <= i < |bids| => bids[i].key)
  }

  ghost function DueList(ds: seq<Due>): seq<BucketKey> {
    seq(|ds|, i requires 0 <= i < |ds| => ds[i].key)
  }

  ghost function RegionOf(a: Annotation): BucketKey
    requires a.Summary?
  {
    BucketKey(a.tailnet, a.category, a.from)
  }

  // The regions among what was sent, in order.
  ghost function Regions(sink: seq<Annotation>): seq<BucketKey> {
    if sink == [] then []
    else
      var a := sink[|sink| - 1];
      Regions(sink[..|sink| - 1]) + if a.Summary? then [RegionOf(a)] else []
  }

  lemma RegionsSnoc(sink: seq<Annotation>, a: Annotation)
    ensures Regions(sink + [a]) == Regions(sink) + if a.Summary? then [RegionOf(a)] else []
  {
    assert (sink + [a])[..|sink|] == sink;
  }

  lemma {:induction false} RegionsPrefix(sink: seq<Annotation>, i: nat)
    requires i <= |sink|
    ensures Regions(sink[..i]) <= Regions(sink)
    decreases |sink| - i
  {
    if i == |sink| {
      assert sink[..i] == sink;
    } else {
      assert sink[..i + 1] == sink[..i] + [sink[i]];
      RegionsSnoc(sink[..i], sink[i]);
      RegionsPrefix(sink, i + 1);
    }
  }

  // The place of a summary among the regions.
  lemma RegionAt(sink: seq<Annotation>, i: nat) returns (k: nat)
    requires i < |sink| && sink[i].Summary?
    ensures k == |Regions(sink[..i])| < |Regions(sink)| && Regions(sink)[k] == RegionOf(sink[i])
  {
    k := |Regions(sink[..i])|;
    assert sink[..i + 1] == sink[..i] + [sink[i]];
    RegionsSnoc(sink[..i], sink[i]);
    RegionsPrefix(sink, i + 1);
  }

  /* ---------------------------------------------------------------------- the recorder */

  // The dedupe run, the claims won and lost in it, and what was sent and dropped on their account.
  datatype Trail = Trail(
    s0: State, ops: seq<Op>, earlier: seq<Bid>, published: seq<Bid>, refused: seq<Bid>,
    regions: seq<BucketKey>, dropped: seq<BucketKey>)

  ghost predicate Faithful(t: Trail, n: Naming) {
    && Bids(t.s0, t.ops, t.published, n, true)
    && Bids(t.s0, t.ops, t.refused, n, false)
    && t.earlier <= t.published && KeysOf(t.published) == KeysOf(t.earlier) + t.regions
    && KeysOf(t.refused) == t.dropped
  }

  lemma TrailGrows(t: Trail, more: seq<Op>, n: Naming)
    requires Faithful(t, n)
    ensures Faithful(t.(ops := t.ops + more), n)
  {
    BidsStay(t.s0, t.ops, more, t.published, n, true);
    BidsStay(t.s0, t.ops, more, t.refused, n, false);
  }

  ghost function Claiming(t: Trail, k: BucketKey, n: Naming): Trail {
    t.(ops := t.ops + [Op.Claim(StoredKey(k, n), k.start)])
  }

  ghost function Published(t: Trail, k: BucketKey, n: Naming): Trail {
    Claiming(t, k, n).(published := t.published + [Bid(k, |t.ops|)], regions := t.regions + [k])
  }

  ghost function Refused(t: Trail, k: BucketKey, n: Naming): Trail {
    Claiming(t, k, n).(refused := t.refused + [Bid(k, |t.ops|)], dropped := t.dropped + [k])
  }

  lemma BidMade(s0: State, ops: seq<Op>, bids: seq<Bid>, k: BucketKey, n: Naming, won: bool)
    requires Bids(s0, ops, bids, n, won) && (won <==> StoredKey(k, n) !in Exec(s0, ops).seen)
    ensures Bids(s0, ops + [Op.Claim(StoredKey(k, n), k.start)], bids + [Bid(k, |ops|)], n, won)
    ensures KeysOf(bids + [Bid(k, |ops|)]) == KeysOf(bids) + [k]
  {
    var op := Op.Claim(StoredKey(k, n), k.start);
    forall i | 0 <= i < |bids| ensures bids[i].at < |ops| {
      assert IsBid(s0, ops, bids[i], n, won);
    }
    BidsStay(s0, ops, [op], bids, n, won);
    assert (ops + [op])[..|ops|] == ops;
    assert IsBid(s0, ops + [op], Bid(k, |ops|), n, won);
  }

  lemma TrailPublishes(t: Trail, k: BucketKey, n: Naming)
    requires Faithful(t, n) && StoredKey(k, n) !in Exec(t.s0, t.ops).seen
    ensures Faithful(Published(t, k, n), n)
  {
    BidMade(t.s0, t.ops, t.published, k, n, true);
    TrailGrows(t, [Op.Claim(StoredKey(k, n), k.start)], n);
  }

  lemma TrailRefuses(t: Trail, k: BucketKey, n: Naming)
    requires Faithful(t, n) && StoredKey(k, n) in Exec(t.s0, t.ops).seen
    ensures Faithful(Refused(t, k, n), n)
  {
    BidMade(t.s0, t.ops, t.refused, k, n, false);
    TrailGrows(t, [Op.Claim(StoredKey(k, n), k.start)], n);
  }

  lemma DueListSnoc(ds: seq<Due>, d: Due)
    ensures DueList(ds + [d]) == DueList(ds) + [d.key]
  {}

  // An occurrence and the identity its rule gives it.
  datatype Sighting = Sighting(o: Occurrence, identity: seq<string>)

  class Recorder {
    const interval: int
    const rollup: set<Category>
    const naming: Naming
    const dedupe: DedupeStore

    var buckets: map<BucketKey, Bucket>
    var ready: seq<Due>
    var sink: seq<Annotation>
    ghost var accepted: seq<Occurrence>
    ghost var suppressed: seq<Due>
    // every interval published so far, by this process and those before it, and those refused
    ghost const earlier: seq<Bid>
    ghost var published: seq<Bid>
    ghost var refused: seq<Bid>

    ghost function View(): Books
      reads this
    {
      Books(buckets, ready, sink, accepted, suppressed)
    }

    // interval <= 0 switches rollups off, so there are no books to keep
    ghost predicate Kept()
      reads this
    {
      if interval > 0 then Balanced(View(), interval) && Regular(View(), interval)
      else buckets == map[] && ready == []
    }

    ghost function Log(): Trail
      reads this, dedupe
    {
      Trail(dedupe.first, dedupe.ops, earlier, published, refused, Regions(sink), DueList(suppressed))
    }

    // What was sent and what was suppressed are the claims won and lost in the dedupe run.
    ghost predicate Logged()
      reads this, dedupe
    {
      dedupe.Valid() && Faithful(Log(), naming)
    }

    ghost predicate Valid()
      reads this, dedupe
    {
      Kept() && Logged()
    }

    // A recorder over a dedupe set whose run so far published the intervals `before`.
    constructor (width: int, cats: set<Category>, n: Naming, d: DedupeStore, ghost before: seq<Bid>)
      requires d.Valid() && Bids(d.first, d.ops, before, n, true)
      ensures Valid() && interval == width && rollup == cats && naming == n && dedupe == d
      ensures View() == Books(map[], [], [], [], []) && published == earlier == before
    {
      interval, rollup, naming, dedupe := width, cats, n, d;
      buckets, ready, sink, accepted, suppressed := map[], [], [], [], [];
      earlier, published, refused := before, before, [];
    }

    predicate RollsUp(c: Category) {
      c != LIFECYCLE && c in rollup && interval > 0
    }

    // Not counted but published as it comes: the lifecycle, a category that is not rolled up, or
    // any category when rollups are off.
    ghost predicate AtOnce(o: Occurrence) {
      o.category == "lifecycle" || o.category !in rollup || interval <= 0
    }

    // One rule that matched: only the first sighting of an identity goes on.
    method Observe(s: Sighting) returns (won: bool)
      requires Valid()
      modifies this`buckets, this`sink, this`accepted, dedupe`seen, dedupe`dirty, dedupe`ops
      ensures Valid() && dedupe.batch == old(dedupe.batch)
      ensures won <==> OccurrenceKey(s, naming) !in old(dedupe.seen)
      ensures dedupe.ops == old(dedupe.ops) + [Op.Claim(OccurrenceKey(s, naming), s.o.time)]
      ensures !won ==> View() == old(View())
      ensures won && AtOnce(s.o) ==> View() == old(View()).(sink := old(sink) + [Marker(s.o)])
      ensures won && !AtOnce(s.o) ==> View() == Counted(old(View()), s.o, interval) && accepted == old(accepted) + [s.o]
    {
      var written := WriteIdentity(s.o.tailnet, s.o.ruleId, s.identity);
      won := ClaimFor(s.o.ruleId, naming.digest(written), s.o.time);
      if won {
        Emit(s.o);
      }
    }

    // A claim that is not a rollup's leaves all that was logged in place.
    method ClaimFor(ruleId: string, key: string, at: int) returns (won: bool)
      requires Logged()
      modifies dedupe`seen, dedupe`dirty, dedupe`ops
      ensures Logged() && dedupe.ops == old(dedupe.ops) + [Op.Claim(DedupeKeyFor(ruleId, key), at)]
      ensures won <==> DedupeKeyFor(ruleId, key) !in old(dedupe.seen)
    {
      TrailGrows(Log(), [Op.Claim(DedupeKeyFor(ruleId, key), at)], naming);
      won := dedupe.Claim(ruleId, key, at);
    }

    // Publish at once, or count in the bucket of the interval.
    method Emit(o: Occurrence)
      requires Valid()
      modifies this`buckets, this`sink, this`accepted
      ensures Valid()
      ensures AtOnce(o) ==> View() == old(View()).(sink := old(sink) + [Marker(o)])
      ensures !AtOnce(o) ==> View() == Counted(old(View()), o, interval) && accepted == old(accepted) + [o]
    {
      ghost var t := Log();
      if interval > 0 {
        MarkerKeeps(View(), o, interval);
        CountedKeeps(View(), o, interval);
      }
      if !RollsUp(o.category) {
        SendMarker(o);
      } else {
        Count(o);
      }
      assert Log() == t;
    }

    method SendMarker(o: Occurrence)
      modifies this`sink
      ensures View() == old(View()).(sink := old(sink) + [Marker(o)]) && Log() == old(Log())
    {
      RegionsSnoc(sink, Marker(o));
      sink := sink + [Marker(o)];
    }

    method Count(o: Occurrence)
      requires interval > 0
      modifies this`buckets, this`accepted
      ensures View() == Counted(old(View()), o, interval) && Log() == old(Log())
    {
      var start := Truncate(o.time, interval);
      var k := BucketKey(o.tailnet, o.category, start);
      var b := if k in buckets then buckets[k] else Bucket(0, map[]);
      b := b.(count := b.count + 1);
      var title := o.title;
      if title == "" {
        title := o.ruleId;
      }
      b := b.(titles := b.titles[title := (if title in b.titles then b.titles[title] else 0) + 1]);
      buckets := buckets[k := b];
      accepted := accepted + [o];
    }

    // Exactly the buckets whose interval has closed leave, each with everything it counted.
    method TakeReady(now: int, all: bool)
      requires Kept() && interval > 0 && ready == []
      modifies this`buckets, this`ready
      ensures Kept()
      ensures buckets == map k | k in old(buckets) && !all && now < k.start + interval :: old(buckets)[k]
      ensures DueFrom(ready, old(buckets)) && DueKeys(ready) == old(buckets).Keys - buckets.Keys
    {
      ghost var b := View();
      buckets, ready := Part(buckets, now, all, interval);
      AllTakenKeeps(b, ready, interval);
      assert buckets == old(buckets) - DueKeys(ready);
    }

    static method Part(was: map<BucketKey, Bucket>, now: int, all: bool, interval: int)
      returns (open: map<BucketKey, Bucket>, due: seq<Due>)
      ensures open == map k | k in was && !all && now < k.start + interval :: was[k]
      ensures DueFrom(due, was) && DueKeys(due) == was.Keys - open.Keys
    {
      open, due := was, [];
      var left := was.Keys;
      while left != {}
        invariant left <= was.Keys && DueFrom(due, was) && DueKeys(due) == was.Keys - open.Keys
        invariant forall k :: k in open <==> k in was && (k in left || (!all && now < k.start + interval))
        invariant forall k | k in open :: open[k] == was[k]
      {
        var k :| k in left;
        if all || now >= k.start + interval {
          DueKeysSnoc(due, Due(k, open[k]));
          due := due + [Due(k, open[k])];
          open := open - {k};
        }
        left := left - {k};
      }
    }

    // One bucket taken by the flush: published if its claim is won, otherwise a duplicate.
    method PublishNext() returns (won: bool)
      requires Valid() && interval > 0 && ready != []
      modifies this`ready, this`sink, this`suppressed, this`published, this`refused
      modifies dedupe`seen, dedupe`dirty, dedupe`ops
      ensures Valid() && dedupe.batch == old(dedupe.batch)
      ensures won <==> StoredKey(old(ready)[0].key, naming) !in old(dedupe.seen)
      ensures dedupe.ops == old(dedupe.ops) + [Op.Claim(StoredKey(old(ready)[0].key, naming), old(ready)[0].key.start)]
      ensures View() == Settle(old(View()), won, naming.digest(RollupPreimage(old(ready)[0].key, naming)), interval)
    {
      ghost var key := naming.digest(RollupPreimage(ready[0].key, naming));
      SettleKeeps(View(), StoredKey(ready[0].key, naming) !in dedupe.seen, key, interval);
      won := ClaimNext();
    }

    method ClaimNext() returns (won: bool)
      requires Logged() && ready != []
      modifies this`ready, this`sink, this`suppressed, this`published, this`refused
      modifies dedupe`seen, dedupe`dirty, dedupe`ops
      ensures Logged()
      ensures won <==> StoredKey(old(ready)[0].key, naming) !in old(dedupe.seen)
      ensures dedupe.ops == old(dedupe.ops) + [Op.Claim(StoredKey(old(ready)[0].key, naming), old(ready)[0].key.start)]
      ensures View() == Settle(old(View()), won, naming.digest(RollupPreimage(old(ready)[0].key, naming)), interval)
    {
      var d := ready[0];
      ready := ready[1..];
      ghost var t := Log();
      var key;
      won, key := ClaimBucket(d.key, t);
      SettleClaim(d, won, key, t);
    }

    // Publish on a claim that was won, drop on one that was lost.
    method SettleClaim(d: Due, won: bool, key: string, ghost t: Trail)
      requires Faithful(t, naming) && Log() == Claiming(t, d.key, naming)
      requires won <==> StoredKey(d.key, naming) !in Exec(t.s0, t.ops).seen
      modifies this`sink, this`suppressed, this`published, this`refused
      ensures Faithful(Log(), naming) && Log().s0 == t.s0
      ensures !won ==> View() == old(View()).(suppressed := old(suppressed) + [d])
      ensures won ==>
                View() == old(View()).(sink := old(sink) + [Summary(d.key.category, d.key.tailnet, RollupRuleId(d.key.category),
                                                                    d.key.start, d.key.start + interval, d.b, key)])
    {
      if !won {
        TrailRefuses(t, d.key, naming);
        Refuse(d, t);
        return;
      }
      TrailPublishes(t, d.key, naming);
      var ruleId := RollupRuleId(d.key.category);
      Publish(d, Summary(d.key.category, d.key.tailnet, ruleId, d.key.start, d.key.start + interval, d.b, key), t);
    }

    method ClaimBucket(k: BucketKey, ghost t: Trail) returns (won: bool, key: string)
      requires dedupe.Valid() && t == Log()
      modifies dedupe`seen, dedupe`dirty, dedupe`ops
      ensures dedupe.Valid() && key == naming.digest(RollupPreimage(k, naming))
      ensures Log() == Claiming(t, k, naming)
      ensures won <==> StoredKey(k, naming) !in old(dedupe.seen)
      ensures won <==> StoredKey(k, naming) !in Exec(t.s0, t.ops).seen
    {
      var ruleId := RollupRuleId(k.category);
      var written := WriteIdentity(k.tailnet, ruleId, [naming.second(k.start / SECOND)]);
      key := naming.digest(written);
      won := dedupe.Claim(ruleId, key, k.start);
    }

    // The claim just made was lost.
    method Refuse(d: Due, ghost t: Trail)
      requires Log() == Claiming(t, d.key, naming)
      modifies this`suppressed, this`refused
      ensures Log() == Refused(t, d.key, naming) && View() == old(View()).(suppressed := old(suppressed) + [d])
    {
      DueListSnoc(suppressed, d);
      suppressed := suppressed + [d];
      refused := refused + [Bid(d.key, |t.ops|)];
    }

    // The claim just made was won.
    method Publish(d: Due, a: Annotation, ghost t: Trail)
      requires Log() == Claiming(t, d.key, naming) && a.Summary? && RegionOf(a) == d.key
      modifies this`sink, this`published
      ensures Log() == Published(t, d.key, naming) && View() == old(View()).(sink := old(sink) + [a])
    {
      RegionsSnoc(sink, a);
      sink := sink + [a];
      published := published + [Bid(d.key, |t.ops|)];
    }

    // A whole flush, with what other goroutines observe while it publishes.  Every closed bucket
    // is published or suppressed; only late occurrences can open one again.
    method Flush(now: int, all: bool, others: seq<Sighting>)
      requires Valid() && ready == []
      modifies this`buckets, this`ready, this`sink, this`accepted, this`suppressed, this`published, this`refused
      modifies dedupe`seen, dedupe`dirty, dedupe`ops
      ensures Valid() && ready == [] && dedupe.batch == old(dedupe.batch) && old(dedupe.ops) <= dedupe.ops
      ensures old(sink) <= sink && old(suppressed) <= suppressed && old(accepted) <= accepted
      ensures interval <= 0 ==> View() == old(View())
      ensures interval > 0 && others == [] ==>
                && accepted == old(accepted)
                && buckets == map k | k in old(buckets) && !all && now < k.start + interval :: old(buckets)[k]
      ensures interval > 0 ==>
                forall k | k in buckets && (all || k.start + interval <= now) ::
                  exists i | 0 <= i < |others| :: KeyOf(others[i].o, interval) == k
    {
      if interval <= 0 {
        return;
      }
      TakeReady(now, all);
      ghost var open := buckets;
      var i := 0;
      while ready != []
        invariant Valid() && 0 <= i <= |others|
        invariant dedupe.batch == old(dedupe.batch) && old(dedupe.ops) <= dedupe.ops
        invariant old(sink) <= sink && old(suppressed) <= suppressed && old(accepted) <= accepted
        invariant i == 0 ==> buckets == open && accepted == old(accepted)
        invariant forall k | k in buckets :: k in open || exists j | 0 <= j < i :: KeyOf(others[j].o, interval) == k
        decreases |ready|
      {
        if i < |others| {
          FlushOne(Some(others[i]));
          i := i + 1;
        } else {
          FlushOne(None);
        }
      }
    }

    // One bucket of a flush, perhaps after another goroutine's observation.
    method FlushOne(other: Option<Sighting>)
      requires Valid() && interval > 0 && ready != []
      modifies this`buckets, this`ready, this`sink, this`accepted, this`suppressed, this`published, this`refused
      modifies dedupe`seen, dedupe`dirty, dedupe`ops
      ensures Valid() && |ready| == |old(ready)| - 1
      ensures dedupe.batch == old(dedupe.batch) && old(dedupe.ops) <= dedupe.ops
      ensures old(sink) <= sink && old(suppressed) <= suppressed && old(accepted) <= accepted
      ensures other.None? ==> buckets == old(buckets) && accepted == old(accepted)
      ensures forall k | k in buckets :: k in old(buckets) || (other.Some? && KeyOf(other.value.o, interval) == k)
    {
      if other.Some? {
        var first := Observe(other.value);
      }
      var won := PublishNext();
    }

    // The flush at shutdown: everything accepted has been published or suppressed, interval by
    // interval and title by title, and every occurrence is in a region that covers its time.
    method FlushAll(now: int)
      requires Valid() && ready == []
      modifies this`buckets, this`ready, this`sink, this`accepted, this`suppressed, this`published, this`refused
      modifies dedupe`seen, dedupe`dirty, dedupe`ops
      ensures Valid() && ready == [] && buckets == map[] && accepted == old(accepted)
      ensures interval > 0 ==>
                forall k, title ::
                  Accepted(accepted, interval, k, title) == Sent(sink, k, title) + Held(suppressed, k, title)
      ensures interval > 0 ==>
                forall i | 0 <= i < |accepted| :: InRegion(sink, accepted[i]) || InDropped(suppressed, accepted[i], interval)
    {
      Flush(now, true, []);
      if interval > 0 {
        FlushedDry(View(), interval);
      }
    }

    // One tick of the publisher: close intervals, then persist the dedupe set.
    method Tick(now: int, others: seq<Sighting>, meanwhile: seq<Claimant>, landed: bool) returns (ghost flushed: seq<Op>)
      requires Valid() && ready == [] && dedupe.batch.NoBatch?
      modifies this`buckets, this`ready, this`sink, this`accepted, this`suppressed, this`published, this`refused
      modifies dedupe`disk, dedupe`cache, dedupe`seen, dedupe`dirty, dedupe`batch, dedupe`ops
      ensures Valid() && ready == [] && dedupe.batch.NoBatch? && old(dedupe.ops) <= dedupe.ops
      ensures old(sink) <= sink && old(accepted) <= accepted
      ensures interval > 0 ==>
                forall k | k in buckets && k.start + interval <= now ::
                  exists i | 0 <= i < |others| :: KeyOf(others[i].o, interval) == k
      ensures old(dedupe.ops) <= flushed && dedupe.ops == flushed + dedupe.Persisting(now, meanwhile, landed)
    {
      Flush(now, false, others);
      flushed := dedupe.ops;
      Persist(now, meanwhile, landed);
    }

    // Persisting leaves all that was logged in place.
    method Persist(now: int, meanwhile: seq<Claimant>, landed: bool)
      requires Logged() && dedupe.batch.NoBatch?
      modifies dedupe`disk, dedupe`cache, dedupe`seen, dedupe`dirty, dedupe`batch, dedupe`ops
      ensures Logged() && dedupe.batch.NoBatch?
      ensures dedupe.ops == old(dedupe.ops) + dedupe.Persisting(now, meanwhile, landed)
    {
      ghost var t := Log();
      dedupe.Persist(now, meanwhile, landed);
      ghost var more := dedupe.ops[|t.ops|..];
      assert dedupe.ops == t.ops + more;
      TrailGrows(t, more, naming);
    }
  }

  /* ---------------------------------------------------------------------- consequences */

  ghost predicate InRegion(sink: seq<Annotation>, o: Occurrence) {
    exists i | 0 <= i < |sink| :: Covers(sink[i], o)
  }

  // A region of the occurrence's tailnet and category, around its time, that names its title.
  ghost predicate Covers(a: Annotation, o: Occurrence) {
    && a.Summary? && a.tailnet == o.tailnet && a.category == o.category && a.from <= o.time < a.to
    && (if o.title == "" then o.ruleId else o.title) in a.b.titles
  }

  ghost predicate InDropped(ds: seq<Due>, o: Occurrence, interval: int)
    requires interval > 0
  {
    exists i | 0 <= i < |ds| ::
      && ds[i].key.tailnet == o.tailnet && ds[i].key.category == o.category
      && ds[i].key.start <= o.time < ds[i].key.start + interval
      && (if o.title == "" then o.ruleId else o.title) in ds[i].b.titles
  }

  lemma {:induction false} AcceptedCounts(os: seq<Occurrence>, interval: int, i: nat)
    requires interval > 0 && i < |os|
    ensures Accepted(os, interval, KeyOf(os[i], interval), Some(TitleOf(os[i]))) > 0
  {
    BelongsToItsBucket(os[i], interval, KeyOf(os[i], interval), Some(TitleOf(os[i])));
    if i < |os| - 1 {
      AcceptedCounts(os[..|os| - 1], interval, i);
    }
  }

  lemma {:induction false} SentSomewhere(sink: seq<Annotation>, k: BucketKey, title: string) returns (i: nat)
    requires Sent(sink, k, Some(title)) > 0
    ensures i < |sink| && sink[i].Summary? && RegionOf(sink[i]) == k && title in sink[i].b.titles
  {
    var n := |sink| - 1;
    if Sent(sink[..n], k, Some(title)) > 0 {
      i := SentSomewhere(sink[..n], k, title);
    } else {
      i := n;
    }
  }

  lemma {:induction false} HeldSomewhere(ds: seq<Due>, k: BucketKey, title: string) returns (i: nat)
    requires Held(ds, k, Some(title)) > 0
    ensures i < |ds| && ds[i].key == k && title in ds[i].b.titles
  {
    var n := |ds| - 1;
    if Held(ds[..n], k, Some(title)) > 0 {
      i := HeldSomewhere(ds[..n], k, title);
    } else {
      i := n;
    }
  }

  // With nothing open or in flight, every occurrence is accounted for.
  lemma FlushedDry(b: Books, interval: int)
    requires interval > 0 && Balanced(b, interval) && Regular(b, interval) && b.ready == [] && b.buckets == map[]
    ensures forall k, title ::
              Accepted(b.accepted, interval, k, title) == Sent(b.sink, k, title) + Held(b.suppressed, k, title)
    ensures forall i | 0 <= i < |b.accepted| ::
              InRegion(b.sink, b.accepted[i]) || InDropped(b.suppressed, b.accepted[i], interval)
  {
    forall k, title
      ensures Accepted(b.accepted, interval, k, title) == Sent(b.sink, k, title) + Held(b.suppressed, k, title)
    {
      assert Accepted(b.accepted, interval, k, title)
             == Open(b.buckets, k, title) + Held(b.ready, k, title) + Sent(b.sink, k, title) + Held(b.suppressed, k, title);
    }
    forall i | 0 <= i < |b.accepted|
      ensures InRegion(b.sink, b.accepted[i]) || InDropped(b.suppressed, b.accepted[i], interval)
    {
      OccurrenceFound(b, interval, i);
    }
  }

  lemma OccurrenceFound(b: Books, interval: int, i: nat)
    requires interval > 0 && Regular(b, interval) && i < |b.accepted|
    requires var k, title := KeyOf(b.accepted[i], interval), Some(TitleOf(b.accepted[i]));
             Accepted(b.accepted, interval, k, title) == Sent(b.sink, k, title) + Held(b.suppressed, k, title)
    ensures InRegion(b.sink, b.accepted[i]) || InDropped(b.suppressed, b.accepted[i], interval)
  {
    var o := b.accepted[i];
    var k := KeyOf(o, interval);
    AcceptedCounts(b.accepted, interval, i);
    if Sent(b.sink, k, Some(TitleOf(o))) > 0 {
      var j := SentSomewhere(b.sink, k, TitleOf(o));
      assert Covers(b.sink[j], o);
    } else {
      var j := HeldSomewhere(b.suppressed, k, TitleOf(o));
    }
  }

  // Published once.  Over everything published in this life and those before it: between two
  // publications of one interval, an entry for it no older than the interval's start passed out
  // of retention and was evicted, or a process started that could not know of the first.
  lemma PublishedOnce(r: Recorder, i: nat, j: nat)
    requires r.Valid() && i < j < |r.published| && r.published[i].key == r.published[j].key
    ensures var a, b, k := r.published[i].at, r.published[j].at, r.published[i].key;
            a < b < |r.dedupe.ops| && Excused(r.dedupe.first, r.dedupe.ops, a, b, StoredKey(k, r.naming), k.start)
  {
    var s0, k := r.dedupe.first, r.published[i].key;
    assert IsBid(s0, r.dedupe.ops, r.published[i], r.naming, true);
    assert IsBid(s0, r.dedupe.ops, r.published[j], r.naming, true);
    WinsAreSeparated(s0.disk, s0.durable, r.dedupe.ops, r.published[i].at, r.published[j].at,
                     StoredKey(k, r.naming), k.start, k.start);
  }

  // The same, of two summaries that reached the sink.
  lemma SummaryOnce(r: Recorder, x: nat, y: nat) returns (a: nat, b: nat)
    requires r.Valid() && x < y < |r.sink| && r.sink[x].Summary? && r.sink[y].Summary?
    requires RegionOf(r.sink[x]) == RegionOf(r.sink[y])
    ensures a < b < |r.dedupe.ops|
    ensures var k := RegionOf(r.sink[x]);
            && Won(r.dedupe.first, r.dedupe.ops, a, StoredKey(k, r.naming), k.start)
            && Won(r.dedupe.first, r.dedupe.ops, b, StoredKey(k, r.naming), k.start)
            && Excused(r.dedupe.first, r.dedupe.ops, a, b, StoredKey(k, r.naming), k.start)
  {
    var i := PlaceOf(r.Log(), r.sink, x, r.naming);
    var j := PlaceOf(r.Log(), r.sink, y, r.naming);
    RegionsAscend(r.sink, x, y);
    PublishedOnce(r, i, j);
    a, b := r.published[i].at, r.published[j].at;
  }

  lemma RegionsAscend(sink: seq<Annotation>, x: nat, y: nat)
    requires x < y <= |sink| && sink[x].Summary?
    ensures |Regions(sink[..x])| < |Regions(sink[..y])|
  {
    assert sink[..y][..x + 1] == sink[..x] + [sink[x]];
    RegionsSnoc(sink[..x], sink[x]);
    RegionsPrefix(sink[..y], x + 1);
  }

  // Where a summary stands among everything published, and the claim it won.
  lemma PlaceOf(t: Trail, sink: seq<Annotation>, x: nat, n: Naming) returns (i: nat)
    requires Faithful(t, n) && t.regions == Regions(sink) && x < |sink| && sink[x].Summary?
    ensures i == |t.earlier| + |Regions(sink[..x])| < |t.published| && t.published[i].key == RegionOf(sink[x])
    ensures t.published[i].at < |t.ops|
    ensures Won(t.s0, t.ops, t.published[i].at, StoredKey(RegionOf(sink[x]), n), RegionOf(sink[x]).start)
  {
    var p := RegionAt(sink, x);
    i := |t.earlier| + p;
    assert KeysOf(t.published)[i] == Regions(sink)[p];
    assert IsBid(t.s0, t.ops, t.published[i], n, true);
  }

  // A bucket was suppressed only because its key had been claimed before, or was in the file the
  // first process started from; and, barring a collision with it, no other interval, tailnet or
  // category has that key.
  lemma SuppressedByItself(r: Recorder, i: nat)
    requires r.Valid() && i < |r.suppressed|
    ensures var k := r.suppressed[i].key;
            && i < |r.refused| && r.refused[i].key == k && r.refused[i].at < |r.dedupe.ops|
            && (|| StoredKey(k, r.naming) in r.dedupe.first.disk
                || Claimed(r.dedupe.ops[..r.refused[i].at], StoredKey(k, r.naming)))
    ensures var k := r.suppressed[i].key;
            GoodNaming(r.naming) && r.interval >= SECOND ==>
              forall other: BucketKey |
                && other.start % r.interval == 0 && NoCollision(other, k, r.naming)
                && StoredKey(other, r.naming) == StoredKey(k, r.naming) :: other == k
  {
    var k, s0 := r.suppressed[i].key, r.dedupe.first;
    assert KeysOf(r.refused)[i] == DueList(r.suppressed)[i];
    assert IsBid(s0, r.dedupe.ops, r.refused[i], r.naming, false);
    SeenWasClaimed(s0.disk, s0.durable, r.dedupe.ops[..r.refused[i].at], StoredKey(k, r.naming));
    if GoodNaming(r.naming) && r.interval >= SECOND {
      forall other: BucketKey | other.start % r.interval == 0 && NoCollision(other, k, r.naming)
                                && StoredKey(other, r.naming) == StoredKey(k, r.naming)
        ensures other == k
      {
        StoredKeyInjective(other, k, r.naming, r.interval);
      }
    }
  }
}
