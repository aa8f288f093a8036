/**
 Choosing a replay window: the ordered walk over the pending entries that the store offers to
 the coordinator, and the sort both sides rely on.
 */
module WalWindow {
  import opened IngressProtocol

  ghost predicate SortedBy(q: seq<Gen>, rank: map<Gen, nat>) {
    && (forall i | 0 <= i < |q| :: q[i] in rank)
    && (forall i, j | 0 <= i < j < |q| :: rank[q[i]] <= rank[q[j]])
  }

  ghost predicate Distinct(q: seq<Gen>) {
    forall i, j | 0 <= i < j < |q| :: q[i] != q[j]
  }

  // q with g put in front of the first element that ranks above it.
  function Insert(q: seq<Gen>, g: Gen, rank: map<Gen, nat>): (r: seq<Gen>)
    requires g in rank && g !in q && Distinct(q) && SortedBy(q, rank)
    ensures forall h :: h in r <==> h in q || h == g
    ensures SortedBy(r, rank) && Distinct(r)
  {
    if q == [] || rank[g] < rank[q[0]] then [g] + q
    else
      var rest := Insert(q[1..], g, rank);
      HeadStays(q, g, rank, rest);
      [q[0]] + rest
  }

  lemma HeadStays(q: seq<Gen>, g: Gen, rank: map<Gen, nat>, rest: seq<Gen>)
    requires q != [] && g in rank && g !in q && Distinct(q) && SortedBy(q, rank) && rank[q[0]] <= rank[g]
    requires SortedBy(rest, rank) && Distinct(rest) && forall h :: h in rest <==> h in q[1..] || h == g
    ensures SortedBy([q[0]] + rest, rank) && Distinct([q[0]] + rest)
    ensures forall h :: h in [q[0]] + rest <==> h in q || h == g
  {
    forall k | 0 <= k < |rest| ensures rest[k] != q[0] && rank[q[0]] <= rank[rest[k]] {
      assert rest[k] in rest;
      if rest[k] != g {
        var j :| 0 <= j < |q[1..]| && q[1..][j] == rest[k];
        assert q[j + 1] == rest[k];
      }
    }
    assert q == [q[0]] + q[1..];
  }

  // Every key exactly once, by ascending rank.
  method SortBy(keys: set<Gen>, rank: map<Gen, nat>) returns (q: seq<Gen>)
    requires keys <= rank.Keys
    ensures SortedBy(q, rank) && Distinct(q)
    ensures forall g :: g in q <==> g in keys
  {
    q := [];
    var rest := keys;
    while rest != {}
      invariant rest <= keys && SortedBy(q, rank) && Distinct(q)
      invariant forall g :: g in q <==> g in keys && g !in rest
      decreases |rest|
    {
      var g :| g in rest;
      q := Insert(q, g, rank);
      rest := rest - {g};
    }
  }

  // Total encoded size of a list of pending entries.
  ghost function Sizes(q: seq<Gen>, pending: map<Gen, Entry>): nat
    requires forall i | 0 <= i < |q| :: q[i] in pending
  {
    if q == [] then 0 else pending[q[0]].size + Sizes(q[1..], pending)
  }

  lemma {:induction false} SizesSnoc(q: seq<Gen>, g: Gen, pending: map<Gen, Entry>)
    requires g in pending && forall i | 0 <= i < |q| :: q[i] in pending
    ensures Sizes(q + [g], pending) == Sizes(q, pending) + pending[g].size
  {
    if q != [] {
      SizesSnoc(q[1..], g, pending);
      assert (q + [g])[1..] == q[1..] + [g];
    } else {
      assert (q + [g])[1..] == [];
    }
  }

  lemma {:induction false} SizesSame(q: seq<Gen>, pending: map<Gen, Entry>, pending': map<Gen, Entry>)
    requires forall i | 0 <= i < |q| :: q[i] in pending && q[i] in pending' && pending[q[i]] == pending'[q[i]]
    ensures Sizes(q, pending) == Sizes(q, pending')
  {
    if q != [] {
      SizesSame(q[1..], pending, pending');
    }
  }

  // What the store may offer: durable, not completed, and not already held by the caller.
  predicate Offerable(wal: Wal, held: set<Gen>, g: Gen) {
    g in wal.pending && g in wal.durable && g !in wal.marked && g !in held
  }

  function Min(a: nat, b: nat): nat {
    if a < b then a else b
  }

  ghost predicate Ascending(q: seq<Gen>) {
    forall i, j | 0 <= i < j < |q| :: q[i] < q[j]
  }

  // How many of an ascending list come before h.
  ghost function Before(q: seq<Gen>, h: Gen): (n: nat)
    ensures n <= |q|
  {
    if q == [] || q[|q| - 1] < h then |q| else Before(q[..|q| - 1], h)
  }

  // h did not fit what the chosen ones before it had left of the budget.
  ghost predicate NoRoom(h: Gen, chosen: seq<Gen>, pending: map<Gen, Entry>, budget: nat)
    requires forall i | 0 <= i < |chosen| :: chosen[i] in pending
  {
    h in pending && Sizes(chosen[..Before(chosen, h)], pending) + pending[h].size > budget
  }

  // Why h was not chosen: it did not fit, or the list was full or out of slots before its turn came.
  ghost predicate PassedOver(h: Gen, chosen: seq<Gen>, pending: map<Gen, Entry>, budget: nat, limit: nat, held: nat, slots: nat)
    requires forall i | 0 <= i < |chosen| :: chosen[i] in pending
  {
    NoRoom(h, chosen, pending, budget)
    || ((|chosen| == limit || held + |chosen| >= slots) && Before(chosen, h) == |chosen|)
  }

  lemma NoRoomNow(h: Gen, chosen: seq<Gen>, pending: map<Gen, Entry>, budget: nat)
    requires (forall i | 0 <= i < |chosen| :: chosen[i] in pending && chosen[i] < h) && h in pending
    requires Sizes(chosen, pending) + pending[h].size > budget
    ensures NoRoom(h, chosen, pending, budget)
  {
    assert Before(chosen, h) == |chosen| && chosen[..|chosen|] == chosen;
  }

  lemma NoRoomStays(h: Gen, chosen: seq<Gen>, g: Gen, pending: map<Gen, Entry>, budget: nat)
    requires g in pending && h < g && forall i | 0 <= i < |chosen| :: chosen[i] in pending
    requires NoRoom(h, chosen, pending, budget)
    ensures NoRoom(h, chosen + [g], pending, budget)
  {
    assert (chosen + [g])[..|chosen|] == chosen;
    assert (chosen + [g])[..Before(chosen, h)] == chosen[..Before(chosen, h)];
  }

  // The walk has reached index i: what it chose is in order, within the budget and among those it
  // has seen, and those it has seen and not chosen did not fit.
  ghost predicate Chosen(sorted: seq<Gen>, i: nat, result: seq<Gen>, pending: map<Gen, Entry>, budget: nat)
    requires i <= |sorted|
  {
    && Ascending(result)
    && (forall k | 0 <= k < |result| :: result[k] in sorted && result[k] in pending && (i < |sorted| ==> result[k] < sorted[i]))
    && Sizes(result, pending) <= budget
    && (forall k | 0 <= k < i :: sorted[k] in result || NoRoom(sorted[k], result, pending, budget))
  }

  lemma ChosenSkip(sorted: seq<Gen>, i: nat, result: seq<Gen>, pending: map<Gen, Entry>, budget: nat)
    requires i < |sorted| && Ascending(sorted) && Chosen(sorted, i, result, pending, budget)
    requires sorted[i] in pending && Sizes(result, pending) + pending[sorted[i]].size > budget
    ensures Chosen(sorted, i + 1, result, pending, budget)
  {
    NoRoomNow(sorted[i], result, pending, budget);
    assert i + 1 < |sorted| ==> sorted[i] < sorted[i + 1];
  }

  lemma ChosenTake(sorted: seq<Gen>, i: nat, result: seq<Gen>, pending: map<Gen, Entry>, budget: nat)
    requires i < |sorted| && Ascending(sorted) && Chosen(sorted, i, result, pending, budget)
    requires sorted[i] in pending && Sizes(result, pending) + pending[sorted[i]].size <= budget
    ensures Sizes(result + [sorted[i]], pending) == Sizes(result, pending) + pending[sorted[i]].size
    ensures Chosen(sorted, i + 1, result + [sorted[i]], pending, budget)
  {
    var g := sorted[i];
    SizesSnoc(result, g, pending);
    assert i + 1 < |sorted| ==> g < sorted[i + 1];
    forall k | 0 <= k < i + 1 ensures sorted[k] in result + [g] || NoRoom(sorted[k], result + [g], pending, budget) {
      if k == i {
        assert (result + [g])[|result|] == g;
      } else if sorted[k] !in result {
        NoRoomStays(sorted[k], result, g, pending, budget);
      }
    }
  }

  lemma ChosenWhenFull(sorted: seq<Gen>, i: nat, result: seq<Gen>, pending: map<Gen, Entry>, budget: nat, k: nat)
    requires i <= k < |sorted| && Ascending(sorted) && Chosen(sorted, i, result, pending, budget)
    ensures Before(result, sorted[k]) == |result|
  {
    assert sorted[i] <= sorted[k];
  }

  // The walk itself, over the candidates in sequence order.
  method Walk(sorted: seq<Gen>, pending: map<Gen, Entry>, tokens: set<Gen>, slots: nat, limit: nat, budget: nat)
    returns (result: seq<Gen>)
    requires Ascending(sorted) && forall i | 0 <= i < |sorted| :: sorted[i] in pending
    ensures |result| <= limit && Ascending(result)
    ensures forall i | 0 <= i < |result| :: result[i] in sorted && result[i] in pending
    ensures Sizes(result, pending) <= budget
    ensures forall i | 0 <= i < |sorted| :: sorted[i] in result || PassedOver(sorted[i], result, pending, budget, limit, |tokens|, slots)
  {
    var bytes := 0;
    var newTokens := 0;
    result := [];
    var i := 0;
    while i < |sorted| && |result| < limit
      invariant 0 <= i <= |sorted| && newTokens <= |result| <= limit
      invariant Chosen(sorted, i, result, pending, budget) && bytes == Sizes(result, pending)
    {
      var g := sorted[i];
      if pending[g].size > budget - bytes {
        ChosenSkip(sorted, i, result, pending, budget);
        i := i + 1;
        continue;
      }
      if g !in tokens && |tokens| + newTokens >= slots {
        break;
      }
      ChosenTake(sorted, i, result, pending, budget);
      result := result + [g];
      bytes := bytes + pending[g].size;
      if g !in tokens {
        newTokens := newTokens + 1;
      }
      i := i + 1;
    }
    forall k | i <= k < |sorted| ensures PassedOver(sorted[k], result, pending, budget, limit, |tokens|, slots) {
      ChosenWhenFull(sorted, i, result, pending, budget, k);
    }
  }

  // Oldest first, skipping what does not fit the byte budget and stopping at the entry limit
  // or when no token slot is left.  Never idle: if something offerable fits the whole budget
  // and a slot is free, something is chosen.
  method SelectWindow(cfg: Config, wal: Wal, held: set<Gen>, maxEntries: nat, maxBytes: nat)
    returns (result: seq<Gen>)
    requires cfg.Valid() && 0 < maxEntries && 0 < maxBytes <= MAX_INT64
    ensures |result| <= maxEntries && Ascending(result)
    ensures forall i | 0 <= i < |result| :: result[i] in wal.pending && Offerable(wal, held, result[i])
    ensures Sizes(result, wal.pending) <= maxBytes
    ensures result == [] && |wal.prepared| < cfg.Cap() ==>
              forall g | Offerable(wal, held, g) :: wal.pending[g].size > Min(maxBytes, cfg.maxBytes)
    ensures forall g | Offerable(wal, held, g) ::
              g in result || PassedOver(g, result, wal.pending, Min(maxBytes, cfg.maxBytes), Min(maxEntries, cfg.Cap()),
                                        |wal.prepared|, cfg.Cap())
  {
    var offered := set g | g in wal.pending && Offerable(wal, held, g);
    var sorted := SortBy(offered, map g | g in offered :: g);
    result := Walk(sorted, wal.pending, wal.prepared.Keys, cfg.Cap(), Min(maxEntries, cfg.Cap()),
                   Min(maxBytes, cfg.maxBytes));
    assert |wal.prepared.Keys| == |wal.prepared|;
    forall g | Offerable(wal, held, g)
      ensures g in result || PassedOver(g, result, wal.pending, Min(maxBytes, cfg.maxBytes), Min(maxEntries, cfg.Cap()),
                                        |wal.prepared|, cfg.Cap())
    {
      assert g in sorted;
    }
    if result == [] && |wal.prepared| < cfg.Cap() {
      forall g | Offerable(wal, held, g) ensures wal.pending[g].size > Min(maxBytes, cfg.maxBytes) {
        assert NoRoom(g, result, wal.pending, Min(maxBytes, cfg.maxBytes));
      }
    }
  }
}
