/**
 What every step of the protocol keeps, and what that says about whole runs.

 Each invariant is one predicate with one preservation lemma; `InvAlways` collects
 them over every run, with any number of crashes and restarts in it.
 */
module IngressInvariants {
  import opened Wrappers
  import opened IngressProtocol

  /* -------------------------------------------------------------- invariants */

  ghost predicate DiskOk(w: World) {
    && (forall g | g in w.wal.pending :: g < w.wal.next && 0 < w.wal.pending[g].size <= w.cfg.maxBytes)
    && (forall g | g in w.wal.durable :: g in w.wal.pending)
    && (forall g | g in w.wal.marked :: g < w.wal.next && (g in w.wal.pending ==> g in w.wal.durable))
    && (forall g | g in w.wal.soft :: g in w.wal.marked)
    && (forall g | g in w.hist.landed :: g < w.wal.next && (g in w.wal.pending ==> g in w.wal.durable))
  }

  // A token marks an entry the store still holds, or one whose delivery was confirmed.
  ghost predicate TokensOk(w: World) {
    && (forall g | g in w.wal.prepared ::
          && g < w.wal.next
          && (w.wal.prepared[g] ==> g !in w.wal.pending && g !in w.wal.marked)
          && (!w.wal.prepared[g] && g !in w.co.progress ==> g in w.wal.pending && g !in w.wal.marked))
    && (forall g | g in w.co.progress ::
          && g < w.wal.next
          && (g in w.wal.pending ==> w.wal.pending[g] == w.co.progress[g].entry)
          && (g !in w.wal.pending || g in w.wal.marked ==> g in w.hist.ripe && g in w.hist.delivered)
          && (g !in w.wal.prepared ==> g !in w.wal.pending && g !in w.wal.marked))
  }

  ghost predicate OrdersOk(w: World) {
    && (forall g | g in w.co.progress :: w.co.progress[g].order <= w.co.order)
    && (forall g, h | g in w.co.progress && h in w.co.progress && g != h ::
          w.co.progress[g].order != w.co.progress[h].order)
  }

  ghost predicate WindowOk(w: World) {
    |w.co.progress| <= w.cfg.Cap() && Bytes(w.co.progress) <= w.cfg.maxBytes
  }

  // Delivery is over: the callback has finished and nothing went wrong with it, and both the metrics
  // and the logs were accepted (or are not exported at all).
  ghost predicate Whole(r: Receipt) {
    r.metricOk && r.logOk && (r.phase == Ready || r.phase == Covered || r.phase == Delivered)
  }

  ghost predicate WasWhole(h: History, g: Gen) {
    exists r :: (g, r) in h.shown && Whole(r)
  }

  ghost predicate ReceiptsOk(w: World) {
    && w.hist.ripe <= w.hist.everRipe
    && (forall g | g in w.hist.everRipe :: WasWhole(w.hist, g))
    && (forall g | g in w.co.progress && w.co.progress[g].receipt.Some? ::
          w.co.progress[g].receipt.value.Eligible() ==> g in w.hist.ripe)
  }

  // The worker's hand holds a reserved receipt whose work is kept for a retry.
  ghost predicate HandOk(w: World) {
    w.co.hand.Some? ==>
      && w.co.hand.value in w.co.progress
      && w.co.progress[w.co.hand.value].receipt.Some?
      && w.co.progress[w.co.hand.value].work
      && FifoClear(w.cfg, w.co.progress, w.co.hand.value)
  }

  // A callback that was entered still has its receipt, or its entry is off the disk.
  ghost predicate EnteredEntry(w: World, e: Entered) {
    && e.gen < w.wal.next
    && e.order <= w.co.order
    && w.co.hand != Some(e.gen)
    && (e.gen !in w.co.progress ==> e.gen !in w.wal.pending && e.gen in w.hist.delivered)
    && (e.gen in w.co.progress ==>
          && w.co.progress[e.gen].order == e.order
          && w.co.progress[e.gen].receipt.Some?
          && !w.co.progress[e.gen].receipt.value.phase.Reserved?)
  }

  ghost predicate EnteredOk(w: World) {
    && (forall i | 0 <= i < |w.hist.entered| :: EnteredEntry(w, w.hist.entered[i]))
    && (forall i, j | 0 <= i < j < |w.hist.entered| :: w.hist.entered[i].gen != w.hist.entered[j].gen)
  }

  // h, still in the window, was not overtaken by e: they are the same entry, h came later,
  // it belongs to another provider, or it holds a receipt that is past the worker's hand.
  ghost predicate NotOvertaken(w: World, e: Entered, h: Gen)
    requires h in w.co.progress
  {
    || h == e.gen
    || e.order < w.co.progress[h].order
    || (w.co.progress[h].order < e.order
        && (w.cfg.ProviderOf(w.co.progress[h].entry) == Some(e.provider)
            ==> w.co.progress[h].receipt.Some? && w.co.hand != Some(h)))
  }

  // Nothing of a provider is overtaken by a later admission of the same provider.
  ghost predicate FifoOk(w: World) {
    && (forall i, h | 0 <= i < |w.hist.entered| && h in w.co.progress :: NotOvertaken(w, w.hist.entered[i], h))
    && (forall i, j | 0 <= i < j < |w.hist.entered| ::
          w.hist.entered[i].provider == w.hist.entered[j].provider
          ==> w.hist.entered[i].order < w.hist.entered[j].order)
  }

  // Receipts are handed out in admission order, provider by provider: whoever has one, every
  // earlier entry of the same provider has one too, and nobody is ahead of the worker's hand.
  ghost predicate QueueOk(w: World) {
    && (forall g | g in w.co.progress && w.co.progress[g].receipt.Some? :: FifoClear(w.cfg, w.co.progress, g))
    && (w.co.hand.Some? && w.co.hand.value in w.co.progress ==> NoneAhead(w.cfg, w.co.progress, w.co.hand.value))
  }

  ghost predicate NoneAhead(cfg: Config, progress: map<Gen, Progress>, g: Gen)
    requires g in progress
  {
    forall h | h in progress ::
      progress[g].order < progress[h].order
      && cfg.ProviderOf(progress[h].entry) == cfg.ProviderOf(progress[g].entry)
      ==> progress[h].receipt.None?
  }

  ghost predicate PreparesOk(w: World) {
    && (forall g | g in w.hist.prepares ::
          && g < w.wal.next
          && (g !in w.co.progress ==> g !in w.wal.pending)
          && (g in w.co.progress ==> w.co.progress[g].work || w.co.progress[g].receipt.Some?))
    && (forall i, j | 0 <= i < j < |w.hist.prepares| :: w.hist.prepares[i] != w.hist.prepares[j])
  }

  // Where an entry is: waiting, gone because delivered, or gone because too old.
  ghost predicate LedgerOk(w: World) {
    && w.hist.acked <= w.hist.landed
    && w.hist.delivered <= w.hist.everRipe
    && w.hist.delivered !! w.hist.expired
    && (forall g | g in w.hist.delivered + w.hist.expired ::
          g < w.wal.next && (g in w.wal.pending ==> g in w.wal.marked))
    && (forall g | g in w.wal.marked :: g in w.hist.delivered + w.hist.expired)
    && (forall g | g in w.hist.landed && g !in w.wal.pending :: g in w.hist.delivered + w.hist.expired)
  }

  // The loss account: an expired entry is reported exactly once, still to be reported, or cut off.
  ghost predicate LossOk(w: World) {
    && w.hist.owed !! w.hist.cut && w.hist.owed !! w.wal.soft
    && (forall g | g in w.hist.owed || g in w.hist.cut || g in w.hist.accounted :: g in w.hist.expired)
    && (forall g | g in w.hist.accounted :: g !in w.wal.soft)
    && (forall g | g in w.hist.expired ::
          w.hist.accounted[g] == if g in w.hist.owed || g in w.hist.cut then 0 else 1)
  }

  // What is on disk or in the window is what was written, once per request, and every callback
  // ran for the provider of what was written.
  ghost predicate LogOk(w: World) {
    && (forall g | g in w.hist.log :: g < w.wal.next)
    && (forall g | g in w.wal.pending :: g in w.hist.log && w.wal.pending[g] == w.hist.log[g])
    && (forall g | g in w.co.progress :: g in w.hist.log && w.co.progress[g].entry == w.hist.log[g])
    && (forall g | g in w.hist.landed :: g in w.hist.log)
    && (forall g, h | g in w.wal.pending && h in w.wal.pending && Equivalent(w.wal.pending[g], w.wal.pending[h]) ::
          g == h)
    && (forall i | 0 <= i < |w.hist.entered| :: EnteredFrom(w, w.hist.entered[i]))
  }

  ghost predicate EnteredFrom(w: World, e: Entered) {
    e.gen in w.hist.log && w.cfg.ProviderOf(w.hist.log[e.gen]) == Some(e.provider)
  }

  // Only requests of a configured route are taken up, so only they ever become eligible.
  ghost predicate RoutesOk(w: World) {
    && (forall g | g in w.hist.ripe :: g in w.hist.log && w.cfg.ProviderOf(w.hist.log[g]).Some?)
    && (forall g | g in w.co.progress && w.co.progress[g].receipt.Some? ::
          w.cfg.ProviderOf(w.co.progress[g].entry).Some?)
  }

  ghost predicate StateOk(w: World) {
    && (w.co.state == Failed ==> w.hist.failedEver)
    && (w.hist.failedEver ==> w.co.state == Failed || w.co.state == Stopped)
    && (w.co.state == Stopped ==> w.wal.closed)
    && (w.hist.lateAck ==> w.wal.closed)
  }

  // The window and what was done with it.
  ghost predicate WindowGroup(w: World) {
    OrdersOk(w) && WindowOk(w) && ReceiptsOk(w) && HandOk(w) && EnteredOk(w) && FifoOk(w) && QueueOk(w)
    && PreparesOk(w)
  }

  // The disk, its tokens and the accounts kept of it.
  ghost predicate StoreGroup(w: World) {
    DiskOk(w) && TokensOk(w) && LedgerOk(w) && LossOk(w) && LogOk(w) && RoutesOk(w) && StateOk(w)
  }

  ghost predicate Inv(w: World) {
    w.cfg.Valid() && StoreGroup(w) && WindowGroup(w)
  }

  /* ------------------------------------------------------------- sum of sizes */

  lemma {:induction false} BytesAt(m: map<Gen, Progress>, g: Gen)
    requires g in m
    ensures Bytes(m) == m[g].entry.size + Bytes(m - {g})
    decreases |m|
  {
    var h :| h in m && Bytes(m) == m[h].entry.size + Bytes(m - {h});
    if h != g {
      assert m.Keys == (m - {h}).Keys + {h};
      assert m.Keys == (m - {g}).Keys + {g};
      BytesAt(m - {h}, g);
      BytesAt(m - {g}, h);
      assert m - {h} - {g} == m - {g} - {h};
    }
  }

  lemma BytesAdd(m: map<Gen, Progress>, g: Gen, p: Progress)
    requires g !in m
    ensures Bytes(m[g := p]) == Bytes(m) + p.entry.size
    ensures |m[g := p]| == |m| + 1
  {
    BytesAt(m[g := p], g);
    assert m[g := p] - {g} == m;
    assert m[g := p].Keys == m.Keys + {g};
  }

  lemma BytesSame(m: map<Gen, Progress>, g: Gen, p: Progress)
    requires g in m && p.entry == m[g].entry
    ensures Bytes(m[g := p]) == Bytes(m)
    ensures |m[g := p]| == |m|
  {
    BytesAt(m, g);
    BytesAt(m[g := p], g);
    assert m[g := p] - {g} == m - {g};
    assert m[g := p].Keys == m.Keys;
  }

  lemma BytesRemove(m: map<Gen, Progress>, g: Gen)
    ensures Bytes(m - {g}) <= Bytes(m)
    ensures |m - {g}| <= |m|
  {
    if g in m {
      BytesAt(m, g);
      assert m.Keys == (m - {g}).Keys + {g};
    } else {
      assert m - {g} == m;
    }
  }

  lemma {:induction false} BytesSub(sub: map<Gen, Progress>, m: map<Gen, Progress>)
    requires forall g | g in sub :: g in m && m[g].entry == sub[g].entry
    ensures Bytes(sub) <= Bytes(m) && |sub| <= |m|
    decreases |sub|
  {
    if sub != map[] {
      var g :| g in sub;
      BytesAt(m, g);
      BytesAt(sub, g);
      assert m.Keys == (m - {g}).Keys + {g};
      assert sub.Keys == (sub - {g}).Keys + {g};
      BytesSub(sub - {g}, m - {g});
    }
  }

  /* ------------------------------------------- steps that leave the window alone */

  // Nothing in the window changed, and the disk gained no old generation.
  ghost predicate Quiet(w: World, w': World) {
    && w'.cfg == w.cfg
    && w'.co.order == w.co.order && w'.co.progress == w.co.progress && w'.co.hand == w.co.hand
    && w'.hist.ripe == w.hist.ripe && w'.hist.everRipe == w.hist.everRipe && w'.hist.shown == w.hist.shown
    && w'.hist.entered == w.hist.entered && w'.hist.prepares == w.hist.prepares
    && w.hist.delivered <= w'.hist.delivered
    && w.wal.next <= w'.wal.next
    && forall g | g in w'.wal.pending :: g in w.wal.pending || w.wal.next <= g
  }

  lemma QuietKept(w: World, w': World)
    requires WindowGroup(w) && Quiet(w, w')
    ensures WindowGroup(w')
  {}

  lemma OutsideQuiet(w: World, s: OutsideStep)
    requires OutsideEnabled(w, s) && !s.Advance?
    ensures Quiet(w, OutsideAfter(w, s))
  {}

  lemma StorageQuiet(w: World, s: StorageStep)
    requires StorageEnabled(w, s)
    ensures Quiet(w, w.(wal := StorageWal(w.wal, s), hist := StorageHist(w.hist, s)))
  {}

  /* ------------------------------------------------------------ preservation */

  lemma DiskOutside(w: World, s: OutsideStep)
    requires DiskOk(w) && OutsideEnabled(w, s)
    ensures DiskOk(OutsideAfter(w, s))
  {}

  lemma DiskStorage(w: World, s: StorageStep)
    requires DiskOk(w) && StorageEnabled(w, s)
    ensures DiskOk(w.(wal := StorageWal(w.wal, s), hist := StorageHist(w.hist, s)))
  {}

  lemma LedgerOutside(w: World, s: OutsideStep)
    requires DiskOk(w) && LedgerOk(w) && OutsideEnabled(w, s)
    ensures LedgerOk(OutsideAfter(w, s))
  {}

  lemma LedgerStorage(w: World, s: StorageStep)
    requires DiskOk(w) && ReceiptsOk(w) && LedgerOk(w) && StorageEnabled(w, s)
    ensures LedgerOk(w.(wal := StorageWal(w.wal, s), hist := StorageHist(w.hist, s)))
  {}

  lemma LedgerWorker(w: World, s: WorkerStep)
    requires LedgerOk(w) && WorkerEnabled(w, s)
    ensures LedgerOk(w.(co := WorkerCo(w, s), hist := WorkerHist(w, s)))
  {}

  lemma LedgerCrash(w: World, lostEntries: set<Gen>, lostMarks: set<Gen>, next: Config)
    requires DiskOk(w) && LedgerOk(w) && Enabled(w, Crash(lostEntries, lostMarks, next))
    ensures LedgerOk(Restart(w, lostEntries, lostMarks, next))
  {}

  lemma LossOutside(w: World, s: OutsideStep)
    requires LossOk(w) && OutsideEnabled(w, s)
    ensures LossOk(OutsideAfter(w, s))
  {}

  lemma LossMark(w: World, s: StorageStep)
    requires DiskOk(w) && LedgerOk(w) && LossOk(w) && StorageEnabled(w, s) && s.Mark?
    ensures LossOk(w.(wal := StorageWal(w.wal, s), hist := StorageHist(w.hist, s)))
  {
    assert s.g !in w.hist.expired && s.g !in w.hist.accounted;
  }

  lemma LossReport(w: World, s: StorageStep)
    requires LossOk(w) && StorageEnabled(w, s) && (s.Account? || s.CutOff?)
    ensures LossOk(w.(wal := StorageWal(w.wal, s), hist := StorageHist(w.hist, s)))
  {}

  lemma LossStorage(w: World, s: StorageStep)
    requires DiskOk(w) && LedgerOk(w) && LossOk(w) && StorageEnabled(w, s)
    ensures LossOk(w.(wal := StorageWal(w.wal, s), hist := StorageHist(w.hist, s)))
  {
    if s.Mark? {
      LossMark(w, s);
    } else if s.Account? || s.CutOff? {
      LossReport(w, s);
    }
  }

  lemma LossCrash(w: World, lostEntries: set<Gen>, lostMarks: set<Gen>, next: Config)
    requires DiskOk(w) && LossOk(w) && Enabled(w, Crash(lostEntries, lostMarks, next))
    ensures LossOk(Restart(w, lostEntries, lostMarks, next))
  {}

  lemma LogOutside(w: World, s: OutsideStep)
    requires DiskOk(w) && TokensOk(w) && LogOk(w) && OutsideEnabled(w, s)
    ensures LogOk(OutsideAfter(w, s))
  {
    if s.Land? {
      LogLand(w, s.entry);
    } else {
      LogOther(w, s);
    }
  }

  lemma LogLand(w: World, e: Entry)
    requires LogOk(w) && OutsideEnabled(w, Land(e))
    ensures LogOk(OutsideAfter(w, Land(e)))
  {
    var w' := OutsideAfter(w, Land(e));
    forall x | EnteredFrom(w, x) ensures EnteredFrom(w', x) {
    }
  }

  lemma LogOther(w: World, s: OutsideStep)
    requires DiskOk(w) && LogOk(w) && !s.Land? && OutsideEnabled(w, s)
    ensures LogOk(OutsideAfter(w, s))
  {
    var w' := OutsideAfter(w, s);
    assert w'.hist.log == w.hist.log && w'.hist.entered == w.hist.entered && w'.wal.pending == w.wal.pending && w'.cfg == w.cfg;
    forall x | EnteredFrom(w, x) ensures EnteredFrom(w', x) {
    }
  }

  lemma LogStorage(w: World, s: StorageStep)
    requires LogOk(w) && StorageEnabled(w, s)
    ensures LogOk(After(w, Storage(s)))
  {
    forall e | EnteredFrom(w, e) ensures EnteredFrom(After(w, Storage(s)), e) {
    }
  }

  lemma LogWorker(w: World, s: WorkerStep)
    requires LogOk(w) && WorkerEnabled(w, s)
    ensures LogOk(After(w, Worker(s)))
  {
    var w' := After(w, Worker(s));
    forall e | EnteredFrom(w, e) ensures EnteredFrom(w', e) {
    }
    forall g | g in w'.co.progress ensures g in w.hist.log && w'.co.progress[g].entry == w.hist.log[g] {
    }
  }

  lemma LogCrash(w: World, lostEntries: set<Gen>, lostMarks: set<Gen>, next: Config)
    requires LogOk(w)
    ensures LogOk(Restart(w, lostEntries, lostMarks, next))
  {}

  lemma RoutesOutside(w: World, s: OutsideStep)
    requires LogOk(w) && RoutesOk(w) && OutsideEnabled(w, s)
    ensures RoutesOk(OutsideAfter(w, s))
  {}

  lemma RoutesStorage(w: World, s: StorageStep)
    requires RoutesOk(w) && StorageEnabled(w, s)
    ensures RoutesOk(After(w, Storage(s)))
  {}

  lemma RoutesWorker(w: World, s: WorkerStep)
    requires LogOk(w) && RoutesOk(w) && WorkerEnabled(w, s)
    ensures RoutesOk(After(w, Worker(s)))
  {
    var w' := After(w, Worker(s));
    assert w'.cfg == w.cfg && w'.hist.log == w.hist.log;
    if s.Finish? {
      assert w'.hist.ripe <= w.hist.ripe + {s.g};
    } else {
      assert w'.hist.ripe == w.hist.ripe;
    }
  }

  lemma StateKept(w: World, s: Step)
    requires StateOk(w) && Enabled(w, s)
    ensures StateOk(After(w, s))
  {}

  lemma TokensOutside(w: World, s: OutsideStep)
    requires DiskOk(w) && TokensOk(w) && OutsideEnabled(w, s)
    ensures TokensOk(OutsideAfter(w, s))
  {}

  lemma TokensStorage(w: World, s: StorageStep)
    requires DiskOk(w) && TokensOk(w) && StorageEnabled(w, s)
    ensures TokensOk(w.(wal := StorageWal(w.wal, s), hist := StorageHist(w.hist, s)))
  {}

  lemma TokensWorker(w: World, s: WorkerStep)
    requires DiskOk(w) && TokensOk(w) && WorkerEnabled(w, s)
    ensures TokensOk(w.(co := WorkerCo(w, s), hist := WorkerHist(w, s)))
  {}

  // What was shown stays shown, and what makes a receipt eligible is that delivery is over.
  lemma RipenKept(h: History, g: Gen, r: Receipt)
    requires forall x | x in h.everRipe :: WasWhole(h, x)
    ensures forall x | x in Ripen(h, g, r).everRipe :: WasWhole(Ripen(h, g, r), x)
  {
    var h' := Ripen(h, g, r);
    forall x | x in h'.everRipe ensures WasWhole(h', x) {
      if x in h.everRipe {
        var s :| (x, s) in h.shown && Whole(s);
        assert (x, s) in h'.shown;
      } else {
        assert (g, r) in h'.shown && Whole(r);
      }
    }
  }

  lemma AdvanceKept(w: World, s: OutsideStep)
    requires OrdersOk(w) && WindowOk(w) && ReceiptsOk(w) && HandOk(w) && PreparesOk(w) && OutsideEnabled(w, s) && s.Advance?
    ensures OrdersOk(OutsideAfter(w, s)) && WindowOk(OutsideAfter(w, s)) && ReceiptsOk(OutsideAfter(w, s))
    ensures HandOk(OutsideAfter(w, s)) && PreparesOk(OutsideAfter(w, s))
  {
    BytesSame(w.co.progress, s.g, OutsideAfter(w, s).co.progress[s.g]);
    AdvanceReceipts(w, s);
  }

  lemma AdvanceReceipts(w: World, s: OutsideStep)
    requires ReceiptsOk(w) && OutsideEnabled(w, s) && s.Advance?
    ensures ReceiptsOk(OutsideAfter(w, s))
  {
    RipenKept(w.hist, s.g, s.to);
  }

  lemma AdvanceQueue(w: World, s: OutsideStep)
    requires QueueOk(w) && OutsideEnabled(w, s) && s.Advance?
    ensures QueueOk(OutsideAfter(w, s))
  {}

  lemma QueueAdmit(w: World, s: WorkerStep)
    requires OrdersOk(w) && QueueOk(w) && WorkerEnabled(w, s) && s.Admit?
    ensures QueueOk(w.(co := WorkerCo(w, s), hist := WorkerHist(w, s)))
  {}

  // Taking a receipt in turn, or giving the newest one back.
  lemma QueueHand(w: World, s: WorkerStep)
    requires OrdersOk(w) && HandOk(w) && QueueOk(w) && WorkerEnabled(w, s) && (s.Reserve? || s.Drop?)
    ensures QueueOk(w.(co := WorkerCo(w, s), hist := WorkerHist(w, s)))
  {}

  lemma QueueOther(w: World, s: WorkerStep)
    requires QueueOk(w) && WorkerEnabled(w, s) && !s.Admit? && !s.Reserve? && !s.Drop?
    ensures QueueOk(w.(co := WorkerCo(w, s), hist := WorkerHist(w, s)))
  {
    QueueStep(w, s);
    QueueThrough(w, w.(co := WorkerCo(w, s), hist := WorkerHist(w, s)));
  }

  // The window at most lost entries; what is left stands where it stood.
  ghost predicate SameQueue(p: map<Gen, Progress>, p': map<Gen, Progress>) {
    forall g | g in p' ::
      && g in p && p'[g].entry == p[g].entry && p'[g].order == p[g].order
      && (p'[g].receipt.Some? <==> p[g].receipt.Some?)
  }

  lemma QueueStep(w: World, s: WorkerStep)
    requires WorkerEnabled(w, s) && !s.Admit? && !s.Reserve? && !s.Drop?
    ensures SameQueue(w.co.progress, WorkerCo(w, s).progress)
    ensures WorkerCo(w, s).hand == w.co.hand || WorkerCo(w, s).hand.None?
  {}

  lemma QueueThrough(w: World, w': World)
    requires QueueOk(w) && w'.cfg == w.cfg && SameQueue(w.co.progress, w'.co.progress)
    requires w'.co.hand == w.co.hand || w'.co.hand.None?
    ensures QueueOk(w')
  {}

  lemma QueueWorker(w: World, s: WorkerStep)
    requires OrdersOk(w) && HandOk(w) && QueueOk(w) && WorkerEnabled(w, s)
    ensures QueueOk(w.(co := WorkerCo(w, s), hist := WorkerHist(w, s)))
  {
    if s.Admit? {
      QueueAdmit(w, s);
    } else if s.Reserve? || s.Drop? {
      QueueHand(w, s);
    } else {
      QueueOther(w, s);
    }
  }

  lemma AdvanceEntered(w: World, s: OutsideStep)
    requires EnteredOk(w) && FifoOk(w) && OutsideEnabled(w, s) && s.Advance?
    ensures EnteredOk(OutsideAfter(w, s)) && FifoOk(OutsideAfter(w, s))
  {
    AdvanceFifo(w, s);
  }

  lemma AdvanceFifo(w: World, s: OutsideStep)
    requires FifoOk(w) && OutsideEnabled(w, s) && s.Advance?
    ensures FifoOk(OutsideAfter(w, s))
  {}

  lemma OrdersWorker(w: World, s: WorkerStep)
    requires OrdersOk(w) && WorkerEnabled(w, s)
    ensures OrdersOk(w.(co := WorkerCo(w, s), hist := WorkerHist(w, s)))
  {}

  lemma ReceiptsWorker(w: World, s: WorkerStep)
    requires ReceiptsOk(w) && WorkerEnabled(w, s)
    ensures ReceiptsOk(w.(co := WorkerCo(w, s), hist := WorkerHist(w, s)))
  {
    if s.Finish? {
      RipenKept(w.hist, s.g, w.co.progress[s.g].receipt.value.Sealed(s.quiet));
    }
  }

  lemma WindowWorker(w: World, s: WorkerStep)
    requires WindowOk(w) && WorkerEnabled(w, s)
    ensures WindowOk(w.(co := WorkerCo(w, s), hist := WorkerHist(w, s)))
  {
    var m, m' := w.co.progress, WorkerCo(w, s).progress;
    match s
    case ClearHand =>
    case SetTerminal =>
    case Admit(g) => BytesAdd(m, g, m'[g]);
    case Forget(g) => BytesRemove(m, g);
    case _ => BytesSame(m, s.g, m'[s.g]);
  }

  lemma HandWorker(w: World, s: WorkerStep)
    requires OrdersOk(w) && HandOk(w) && WorkerEnabled(w, s)
    ensures HandOk(w.(co := WorkerCo(w, s), hist := WorkerHist(w, s)))
  {}

  lemma EnteredWorker(w: World, s: WorkerStep)
    requires DiskOk(w) && TokensOk(w) && EnteredOk(w) && WorkerEnabled(w, s) && !s.Enter?
    ensures EnteredOk(w.(co := WorkerCo(w, s), hist := WorkerHist(w, s)))
  {}

  lemma EnteredEnter(w: World, g: Gen)
    requires TokensOk(w) && OrdersOk(w) && EnteredOk(w) && WorkerEnabled(w, Enter(g))
    ensures EnteredOk(w.(co := WorkerCo(w, Enter(g)), hist := WorkerHist(w, Enter(g))))
  {}

  lemma FifoWorker(w: World, s: WorkerStep)
    requires OrdersOk(w) && HandOk(w) && EnteredOk(w) && FifoOk(w) && WorkerEnabled(w, s) && !s.Enter?
    ensures FifoOk(w.(co := WorkerCo(w, s), hist := WorkerHist(w, s)))
  {}

  // The receipt in hand belongs to the earliest unapplied entry of its provider, so
  // entering it cannot be behind anything the provider has already seen.
  lemma FifoEnterOrder(w: World, g: Gen, i: nat)
    requires OrdersOk(w) && EnteredOk(w) && FifoOk(w) && WorkerEnabled(w, Enter(g))
    requires i < |w.hist.entered|
    requires Some(w.hist.entered[i].provider) == w.cfg.ProviderOf(w.co.progress[g].entry)
    ensures w.hist.entered[i].order < w.co.progress[g].order
  {
    assert EnteredEntry(w, w.hist.entered[i]) && NotOvertaken(w, w.hist.entered[i], g);
  }

  lemma FifoEnter(w: World, g: Gen)
    requires OrdersOk(w) && HandOk(w) && EnteredOk(w) && FifoOk(w) && WorkerEnabled(w, Enter(g))
    ensures FifoOk(w.(co := WorkerCo(w, Enter(g)), hist := WorkerHist(w, Enter(g))))
  {
    forall i | 0 <= i < |w.hist.entered|
               && Some(w.hist.entered[i].provider) == w.cfg.ProviderOf(w.co.progress[g].entry)
      ensures w.hist.entered[i].order < w.co.progress[g].order
    {
      FifoEnterOrder(w, g, i);
    }
  }

  lemma PreparesWorker(w: World, s: WorkerStep)
    requires DiskOk(w) && TokensOk(w) && HandOk(w) && PreparesOk(w) && WorkerEnabled(w, s)
    ensures PreparesOk(w.(co := WorkerCo(w, s), hist := WorkerHist(w, s)))
  {}

  lemma CrashKept(w: World, lostEntries: set<Gen>, lostMarks: set<Gen>, next: Config)
    requires Inv(w) && Enabled(w, Crash(lostEntries, lostMarks, next))
    ensures DiskOk(Restart(w, lostEntries, lostMarks, next)) && TokensOk(Restart(w, lostEntries, lostMarks, next))
    ensures WindowGroup(Restart(w, lostEntries, lostMarks, next))
  {}

  lemma OutsideStore(w: World, o: OutsideStep)
    requires StoreGroup(w) && OutsideEnabled(w, o)
    ensures StoreGroup(OutsideAfter(w, o))
  {
    StateKept(w, Outside(o));
    DiskOutside(w, o);
    LogOutside(w, o);
    RoutesOutside(w, o);
    LedgerOutside(w, o);
    LossOutside(w, o);
    TokensOutside(w, o);
  }

  lemma OutsideWindow(w: World, o: OutsideStep)
    requires WindowGroup(w) && OutsideEnabled(w, o)
    ensures WindowGroup(OutsideAfter(w, o))
  {
    if o.Advance? {
      AdvanceKept(w, o);
      AdvanceQueue(w, o);
      AdvanceEntered(w, o);
    } else {
      OutsideQuiet(w, o);
      QuietKept(w, OutsideAfter(w, o));
    }
  }

  lemma StorageStore(w: World, d: StorageStep)
    requires StoreGroup(w) && ReceiptsOk(w) && StorageEnabled(w, d)
    ensures StoreGroup(After(w, Storage(d)))
  {
    StateKept(w, Storage(d));
    DiskStorage(w, d);
    LedgerStorage(w, d);
    LossStorage(w, d);
    LogStorage(w, d);
    RoutesStorage(w, d);
    TokensStorage(w, d);
  }

  // The worker's own steps leave the disk and the loss account alone.
  lemma DiskWorker(w: World, k: WorkerStep)
    requires DiskOk(w) && LossOk(w) && WorkerEnabled(w, k)
    ensures DiskOk(After(w, Worker(k))) && LossOk(After(w, Worker(k)))
  {}

  lemma WorkerStore(w: World, k: WorkerStep)
    requires StoreGroup(w) && WorkerEnabled(w, k)
    ensures StoreGroup(After(w, Worker(k)))
  {
    DiskWorker(w, k);
    StateKept(w, Worker(k));
    LedgerWorker(w, k);
    LogWorker(w, k);
    RoutesWorker(w, k);
    TokensWorker(w, k);
  }

  lemma WorkerSlots(w: World, k: WorkerStep)
    requires DiskOk(w) && TokensOk(w) && WindowGroup(w) && WorkerEnabled(w, k)
    ensures var w' := After(w, Worker(k)); OrdersOk(w') && WindowOk(w') && ReceiptsOk(w') && HandOk(w') && QueueOk(w') && PreparesOk(w')
  {
    OrdersWorker(w, k);
    ReceiptsWorker(w, k);
    WindowWorker(w, k);
    HandWorker(w, k);
    PreparesWorker(w, k);
    QueueWorker(w, k);
  }

  lemma WorkerEntered(w: World, k: WorkerStep)
    requires DiskOk(w) && TokensOk(w) && OrdersOk(w) && HandOk(w) && EnteredOk(w) && FifoOk(w) && WorkerEnabled(w, k)
    ensures var w' := After(w, Worker(k)); EnteredOk(w') && FifoOk(w')
  {
    if k.Enter? {
      EnteredEnter(w, k.g);
      FifoEnter(w, k.g);
    } else {
      EnteredWorker(w, k);
      FifoWorker(w, k);
    }
  }

  lemma CrashInv(w: World, lostEntries: set<Gen>, lostMarks: set<Gen>, next: Config)
    requires Inv(w) && Enabled(w, Crash(lostEntries, lostMarks, next))
    ensures Inv(Restart(w, lostEntries, lostMarks, next))
  {
    StateKept(w, Crash(lostEntries, lostMarks, next));
    LedgerCrash(w, lostEntries, lostMarks, next);
    LossCrash(w, lostEntries, lostMarks, next);
    LogCrash(w, lostEntries, lostMarks, next);
    CrashKept(w, lostEntries, lostMarks, next);
  }

  lemma InvKept(w: World, s: Step)
    requires Inv(w)
    ensures Inv(Do(w, s))
  {
    if Enabled(w, s) {
      match s
      case Outside(o) =>
        OutsideStore(w, o);
        OutsideWindow(w, o);
      case Storage(d) =>
        StorageStore(w, d);
        StorageQuiet(w, d);
        QuietKept(w, After(w, s));
      case Worker(k) =>
        WorkerStore(w, k);
        WorkerSlots(w, k);
        WorkerEntered(w, k);
      case Crash(lostEntries, lostMarks, next) => CrashInv(w, lostEntries, lostMarks, next);
    }
  }

  lemma {:induction false} InvRun(w: World, run: seq<Step>)
    requires Inv(w)
    ensures Inv(Exec(w, run))
    decreases |run|
  {
    if run != [] {
      InvRun(w, run[..|run| - 1]);
      InvKept(Exec(w, run[..|run| - 1]), run[|run| - 1]);
    }
  }

  lemma InvAlways(cfg: Config, run: seq<Step>)
    requires cfg.Valid()
    ensures Inv(Exec(EmptyWorld(cfg), run))
  {
    InvRun(EmptyWorld(cfg), run);
  }
}
