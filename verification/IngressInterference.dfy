/**
 What the replay worker may rely on while other goroutines run.

 Receivers append and acknowledge, delivery advances receipts, Close may come at any time;
 none of them touches the window's membership, its orders, its prepared work or its tokens,
 and none of them retires an entry that is still waiting.
 */
module IngressInterference {
  import opened Wrappers
  import opened IngressProtocol
  import opened IngressInvariants

  ghost predicate SameSlot(p: Progress, p': Progress) {
    && p'.entry == p.entry && p'.order == p.order && p'.work == p.work
    && p'.receipt.Some? == p.receipt.Some?
    && (p.receipt.Some? ==> p.receipt.value.Advances(p'.receipt.value))
  }

  ghost predicate KeepsWindow(w: World, w': World) {
    && w'.cfg == w.cfg
    && w'.co.terminal == w.co.terminal && w'.co.order == w.co.order && w'.co.hand == w.co.hand
    && w'.hist.prepares == w.hist.prepares && w'.hist.entered == w.hist.entered
    && w.hist.ripe <= w'.hist.ripe
    && w'.co.progress.Keys == w.co.progress.Keys
    && forall g | g in w.co.progress :: SameSlot(w.co.progress[g], w'.co.progress[g])
  }

  ghost predicate KeepsDisk(w: World, w': World) {
    && w'.wal.prepared == w.wal.prepared && w'.wal.marked <= w.wal.marked && w.wal.next <= w'.wal.next
    && (w.wal.closed ==> w'.wal.closed)
    && w.hist.landed <= w'.hist.landed
    && w'.hist.delivered == w.hist.delivered && w'.hist.expired == w.hist.expired
    && w'.hist.accounted == w.hist.accounted && w'.hist.owed == w.hist.owed && w'.hist.cut == w.hist.cut
    && (forall g | g in w.hist.log :: g in w'.hist.log && w'.hist.log[g] == w.hist.log[g])
    && (forall g | g in w'.wal.pending && g < w.wal.next && g in w.wal.marked :: g in w'.wal.marked)
    && (forall g | g in w.wal.pending && g !in w.wal.marked ::
          && g in w'.wal.pending && w'.wal.pending[g] == w.wal.pending[g]
          && (g in w.wal.durable ==> g in w'.wal.durable))
    && (forall g | g in w'.wal.pending :: g in w.wal.pending || w.wal.next <= g)
    && (w.hist.failedEver ==> w'.hist.failedEver)
  }

  ghost predicate EnvKeeps(w: World, w': World) {
    KeepsWindow(w, w') && KeepsDisk(w, w')
  }

  lemma OutsideKeepsWindow(w: World, s: OutsideStep)
    requires OutsideEnabled(w, s)
    ensures KeepsWindow(w, OutsideAfter(w, s))
  {}

  lemma OutsideKeepsDisk(w: World, s: OutsideStep)
    requires DiskOk(w) && LogOk(w) && OutsideEnabled(w, s)
    ensures KeepsDisk(w, OutsideAfter(w, s))
  {
    if s.Land? {
      LandKeepsDisk(w, s.entry);
    }
  }

  lemma LandKeepsDisk(w: World, e: Entry)
    requires DiskOk(w) && LogOk(w) && OutsideEnabled(w, Land(e))
    ensures KeepsDisk(w, OutsideAfter(w, Land(e)))
  {}

  lemma EnvStepKeeps(w: World, s: Step)
    requires DiskOk(w) && LogOk(w) && IsEnv(s) && Enabled(w, s)
    ensures EnvKeeps(w, After(w, s))
  {
    if s.Outside? {
      OutsideKeepsWindow(w, s.o);
      OutsideKeepsDisk(w, s.o);
    }
  }

  lemma KeepsWindowTrans(a: World, b: World, c: World)
    requires KeepsWindow(a, b) && KeepsWindow(b, c)
    ensures KeepsWindow(a, c)
  {
    forall g | g in a.co.progress ensures SameSlot(a.co.progress[g], c.co.progress[g]) {
      assert SameSlot(a.co.progress[g], b.co.progress[g]) && SameSlot(b.co.progress[g], c.co.progress[g]);
    }
  }

  lemma EnvTrans(a: World, b: World, c: World)
    requires EnvKeeps(a, b) && EnvKeeps(b, c)
    ensures EnvKeeps(a, c)
  {
    KeepsWindowTrans(a, b, c);
  }

  /* ------------------------------------------------- relations the worker's phases keep */

  ghost predicate Onward(w: World, w': World) {
    && w'.cfg == w.cfg && w.wal.next <= w'.wal.next
    && (w.wal.closed ==> w'.wal.closed)
    && (w.hist.failedEver ==> w'.hist.failedEver)
  }

  // What matters of interference to the worker: its window stays as it is.
  ghost predicate Lull(w: World, w': World) {
    KeepsWindow(w, w') && Onward(w, w')
  }

  lemma LullTrans(a: World, b: World, c: World)
    requires Lull(a, b) && Lull(b, c)
    ensures Lull(a, c)
  {
    KeepsWindowTrans(a, b, c);
  }

  // Cleanup and commit: the window only loses entries; nothing is prepared or applied.
  ghost predicate Settles(w: World, w': World) {
    && Onward(w, w')
    && w'.co.terminal == w.co.terminal && w'.co.order == w.co.order && w'.co.hand == w.co.hand
    && w'.hist.prepares == w.hist.prepares && w'.hist.entered == w.hist.entered
    && w'.co.progress.Keys <= w.co.progress.Keys
    && (forall g | g in w'.co.progress :: SameSlot(w.co.progress[g], w'.co.progress[g]))
  }

  lemma SettlesTrans(a: World, b: World, c: World)
    requires Settles(a, b) && Settles(b, c)
    ensures Settles(a, c)
  {
    forall g | g in c.co.progress ensures SameSlot(a.co.progress[g], c.co.progress[g]) {
      assert SameSlot(a.co.progress[g], b.co.progress[g]) && SameSlot(b.co.progress[g], c.co.progress[g]);
    }
  }

  // Filling: what stays in the window is untouched, and nothing is prepared or applied.
  ghost predicate Fills(w: World, w': World) {
    && Onward(w, w')
    && w'.co.terminal == w.co.terminal && w.co.order <= w'.co.order && w'.co.hand == w.co.hand
    && w'.hist.prepares == w.hist.prepares && w'.hist.entered == w.hist.entered
    && (forall g | g in w.co.progress && g in w'.co.progress ::
          w'.co.progress[g].order == w.co.progress[g].order || w.co.order < w'.co.progress[g].order)
    && (forall g | g in w'.co.progress && g !in w.co.progress ::
          w.co.order < w'.co.progress[g].order && w'.co.progress[g].receipt.None?)
  }

  // The offered entries joined the window, the i-th with the i-th next admission order.
  ghost predicate Admits(w: World, w': World, q: seq<Gen>) {
    && w'.cfg == w.cfg && w'.wal == w.wal && w'.hist == w.hist
    && w'.co.terminal == w.co.terminal && w'.co.hand == w.co.hand && w'.co.order == w.co.order + |q|
    && (forall g | g in w'.co.progress :: g in w.co.progress || g in q)
    && (forall g | g in w.co.progress :: g in w'.co.progress && w'.co.progress[g] == w.co.progress[g])
    && (forall i | 0 <= i < |q| ::
          && q[i] in w.wal.pending && q[i] !in w.co.progress && q[i] in w'.co.progress
          && w'.co.progress[q[i]] == Progress(w.wal.pending[q[i]], w.co.order + 1 + i, false, None))
  }

  // The window after the entries q of the disk joined it.
  ghost function Admitted(was: map<Gen, Progress>, pending: map<Gen, Entry>, q: seq<Gen>, order: nat): map<Gen, Progress>
    requires forall i | 0 <= i < |q| :: q[i] in pending
  {
    if q == [] then was
    else
      var n := |q| - 1;
      Admitted(was, pending, q[..n], order)[q[n] := Progress(pending[q[n]], order + 1 + n, false, None)]
  }

  lemma {:induction false} AdmittedFacts(was: map<Gen, Progress>, pending: map<Gen, Entry>, q: seq<Gen>, order: nat)
    requires forall i | 0 <= i < |q| :: q[i] in pending && q[i] !in was
    requires forall i, j | 0 <= i < j < |q| :: q[i] != q[j]
    ensures
      var now := Admitted(was, pending, q, order);
      && (forall g | g in now :: g in was || g in q)
      && (forall g | g in was :: g in now && now[g] == was[g])
      && (forall i | 0 <= i < |q| :: q[i] in now && now[q[i]] == Progress(pending[q[i]], order + 1 + i, false, None))
  {
    if q != [] {
      var n := |q| - 1;
      AdmittedFacts(was, pending, q[..n], order);
      forall i | 0 <= i < n ensures q[i] == q[..n][i] && q[i] != q[n] {
      }
      assert q == q[..n] + [q[n]];
    }
  }

  lemma AdmittedNext(was: map<Gen, Progress>, pending: map<Gen, Entry>, q: seq<Gen>, i: nat, order: nat)
    requires i < |q| && forall k | 0 <= k < |q| :: q[k] in pending
    ensures Admitted(was, pending, q[..i + 1], order)
            == Admitted(was, pending, q[..i], order)[q[i] := Progress(pending[q[i]], order + 1 + i, false, None)]
  {
    assert q[..i + 1][..i] == q[..i];
  }

  lemma AdmittedKeys(was: map<Gen, Progress>, pending: map<Gen, Entry>, q: seq<Gen>, i: nat, order: nat)
    requires forall k | 0 <= k < |q| :: q[k] in pending && q[k] !in was
    requires forall j, k | 0 <= j < k < |q| :: q[j] < q[k]
    requires i < |q|
    ensures q[i] !in Admitted(was, pending, q[..i], order)
  {
    AdmittedFacts(was, pending, q[..i], order);
  }

  lemma SettlesThenAdmits(a: World, b: World, c: World, q: seq<Gen>)
    requires Settles(a, b) && Admits(b, c, q)
    ensures Fills(a, c)
  {
    forall g | g in c.co.progress && g !in b.co.progress
      ensures a.co.order < c.co.progress[g].order && c.co.progress[g].receipt.None?
    {
      var i :| 0 <= i < |q| && q[i] == g;
    }
  }

  // Among the newcomers, admission order is sequence order.
  lemma AdmitsInOrder(w: World, w': World, q: seq<Gen>, g: Gen, h: Gen)
    requires Admits(w, w', q) && forall i, j | 0 <= i < j < |q| :: q[i] < q[j]
    requires g in w'.co.progress && h in w'.co.progress && g !in w.co.progress && h !in w.co.progress && g < h
    ensures w'.co.progress[g].order < w'.co.progress[h].order
  {
    var i :| 0 <= i < |q| && q[i] == g;
    var j :| 0 <= j < |q| && q[j] == h;
  }

  // Delivery of g is over.
  ghost predicate WholeAt(window: map<Gen, Progress>, g: Gen) {
    g in window && window[g].receipt.Some? && Whole(window[g].receipt.value)
  }

  // Nothing is left to commit for g: it has left the window, or its receipt is poisoned.
  predicate DoneWith(window: map<Gen, Progress>, g: Gen) {
    g !in window || Holds(window, g, Poisoned)
  }

  lemma DoneStays(w: World, w': World, g: Gen)
    requires Settles(w, w')
    ensures DoneWith(w.co.progress, g) ==> DoneWith(w'.co.progress, g)
    ensures WholeAt(w.co.progress, g) ==> WholeAt(w'.co.progress, g) || DoneWith(w'.co.progress, g)
  {
    if g in w'.co.progress {
      assert SameSlot(w.co.progress[g], w'.co.progress[g]);
    }
  }

  // Application of one entry g: the window keeps its members, entries and orders, only g's own
  // slot changes its work or receipt by the worker's doing, and the logs only grow.
  ghost predicate AppliesOne(w: World, w': World, g: Gen) {
    && Onward(w, w')
    && w'.co.terminal == w.co.terminal && w'.co.order == w.co.order
    && w.hist.prepares <= w'.hist.prepares && w.hist.entered <= w'.hist.entered
    && w'.co.progress.Keys == w.co.progress.Keys
    && (forall h | h in w.co.progress :: SameEntry(w.co.progress[h], w'.co.progress[h]))
    && (forall h | h in w.co.progress && h != g :: SameSlot(w.co.progress[h], w'.co.progress[h]))
  }

  predicate SameEntry(p: Progress, p': Progress) {
    p'.entry == p.entry && p'.order == p.order
  }

  lemma AppliesOneTrans(a: World, b: World, c: World, g: Gen)
    requires AppliesOne(a, b, g) && AppliesOne(b, c, g)
    ensures AppliesOne(a, c, g)
  {
    forall h | h in a.co.progress && h != g ensures SameSlot(a.co.progress[h], c.co.progress[h]) {
      assert SameSlot(a.co.progress[h], b.co.progress[h]) && SameSlot(b.co.progress[h], c.co.progress[h]);
    }
    forall h | h in a.co.progress ensures SameEntry(a.co.progress[h], c.co.progress[h]) {
      assert SameEntry(a.co.progress[h], b.co.progress[h]) && SameEntry(b.co.progress[h], c.co.progress[h]);
    }
  }

  lemma EnvApplies(w: World, w': World, g: Gen)
    requires EnvKeeps(w, w')
    ensures AppliesOne(w, w', g)
    ensures g in w.co.progress && FifoClear(w.cfg, w.co.progress, g) ==> FifoClear(w.cfg, w'.co.progress, g)
  {
    forall h | h in w.co.progress ensures SameEntry(w.co.progress[h], w'.co.progress[h]) {
      assert SameSlot(w.co.progress[h], w'.co.progress[h]);
    }
  }

  // Worker steps that concern g alone.
  predicate StepOn(s: WorkerStep, g: Gen) {
    match s
    case Prepare(h) => h == g
    case Reserve(h, _, _) => h == g
    case Drop(h) => h == g
    case Enter(h) => h == g
    case Finish(h, _) => h == g
    case ClearWork(h) => h == g
    case ClearHand => true
    case _ => false
  }

  lemma TouchApplies(w: World, w': World, g: Gen, p: Progress)
    requires w' == w.(co := w'.co, hist := w'.hist)
    requires w'.co.terminal == w.co.terminal && w'.co.order == w.co.order
    requires w.hist.prepares <= w'.hist.prepares && w.hist.entered <= w'.hist.entered
    requires w'.hist.failedEver == w.hist.failedEver
    requires g in w.co.progress && SameEntry(w.co.progress[g], p)
    requires w'.co.progress == w.co.progress[g := p]
    ensures AppliesOne(w, w', g)
  {}

  lemma {:induction false} WorkerApplies(w: World, s: WorkerStep, g: Gen)
    requires WorkerEnabled(w, s) && StepOn(s, g)
    ensures AppliesOne(w, w.(co := WorkerCo(w, s), hist := WorkerHist(w, s)), g)
  {
    if !s.ClearHand? {
      TouchApplies(w, w.(co := WorkerCo(w, s), hist := WorkerHist(w, s)), g, WorkerCo(w, s).progress[g]);
    }
  }

  // A whole pass of applications.
  ghost predicate Applies(w: World, w': World) {
    && Onward(w, w')
    && w'.co.terminal == w.co.terminal && w'.co.order == w.co.order
    && w.hist.prepares <= w'.hist.prepares && w.hist.entered <= w'.hist.entered
    && w'.co.progress.Keys == w.co.progress.Keys
    && (forall g | g in w.co.progress :: SameEntry(w.co.progress[g], w'.co.progress[g]))
  }

  lemma AppliesTrans(a: World, b: World, c: World, g: Gen)
    requires Applies(a, b) && AppliesOne(b, c, g)
    ensures Applies(a, c)
  {
    forall h | h in a.co.progress ensures SameEntry(a.co.progress[h], c.co.progress[h]) {
      assert SameEntry(a.co.progress[h], b.co.progress[h]) && SameEntry(b.co.progress[h], c.co.progress[h]);
    }
  }

  // An entry the pass has dealt with: it has a receipt, or its provider pushed back.
  predicate Served(cfg: Config, window: map<Gen, Progress>, g: Gen, blocked: set<Provider>) {
    && g in window
    && (window[g].receipt.Some?
        || (cfg.ProviderOf(window[g].entry).Some? && cfg.ProviderOf(window[g].entry).value in blocked))
  }

  lemma ServedStays(w: World, w': World, g: Gen, h: Gen, blocked: set<Provider>, blocked': set<Provider>)
    requires AppliesOne(w, w', g) && h != g && blocked <= blocked'
    ensures Served(w.cfg, w.co.progress, h, blocked) ==> Served(w.cfg, w'.co.progress, h, blocked')
  {
    if h in w.co.progress {
      assert SameSlot(w.co.progress[h], w'.co.progress[h]);
    }
  }

  /* ------------------------------------------------------------------ whole passes */

  // Nothing was prepared or applied.
  ghost predicate Frozen(w: World, w': World) {
    && Onward(w, w')
    && w'.hist.prepares == w.hist.prepares && w'.hist.entered == w.hist.entered
    && (w.co.terminal ==> w'.co.terminal)
  }

  // The logs only grew.
  ghost predicate Grows(w: World, w': World) {
    && Onward(w, w')
    && w.hist.prepares <= w'.hist.prepares && w.hist.entered <= w'.hist.entered
    && (w.co.terminal ==> w'.co.terminal)
  }

  lemma FrozenTrans(a: World, b: World, c: World)
    requires Frozen(a, b) && Frozen(b, c)
    ensures Frozen(a, c)
  {}

  lemma GrowsTrans(a: World, b: World, c: World)
    requires Grows(a, b) && Grows(b, c)
    ensures Grows(a, c)
  {}

  lemma PhasesGrow(w: World, w': World)
    ensures EnvKeeps(w, w') ==> Frozen(w, w')
    ensures Lull(w, w') ==> Frozen(w, w')
    ensures Settles(w, w') ==> Frozen(w, w')
    ensures Fills(w, w') ==> Frozen(w, w')
    ensures Frozen(w, w') ==> Grows(w, w')
    ensures Applies(w, w') ==> Grows(w, w')
  {}

  /* ----------------------------------------------------------------------- expiry */

  // Exactly the generations xs and lost were retired for age, xs to be reported, lost cut off;
  // everything else that was waiting still is.
  ghost predicate Expires(w: World, w': World, xs: set<Gen>, lost: set<Gen>) {
    && Onward(w, w')
    && w'.wal.prepared == w.wal.prepared && w'.co.progress.Keys == w.co.progress.Keys
    && w'.wal.marked <= w.wal.marked + xs + lost
    && w'.hist.expired == w.hist.expired + xs + lost && w'.hist.accounted == w.hist.accounted
    && w'.hist.owed == w.hist.owed + xs && w'.hist.cut == w.hist.cut + lost
    && w'.hist.delivered == w.hist.delivered
    && (forall g | g in w'.wal.pending :: g in w.wal.pending || w.wal.next <= g)
    && forall g | g in w.wal.pending && g !in w.wal.marked && g !in xs && g !in lost ::
         g in w'.wal.pending && g !in w'.wal.marked && w'.wal.pending[g] == w.wal.pending[g]
  }

  lemma ExpiresTrans(a: World, b: World, c: World, xs: set<Gen>, ls: set<Gen>, ys: set<Gen>, ms: set<Gen>)
    requires Expires(a, b, xs, ls) && Expires(b, c, ys, ms)
    ensures Expires(a, c, xs + ys, ls + ms)
  {}

  lemma EnvExpires(w: World, w': World)
    requires EnvKeeps(w, w')
    ensures Expires(w, w', {}, {})
  {}
}
