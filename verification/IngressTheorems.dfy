/**
 The promises of the ingress WAL, as statements about every run of the protocol.
 */
module IngressTheorems {
  import opened Wrappers
  import opened IngressProtocol
  import opened IngressInvariants

  ghost predicate Waiting(w: World, g: Gen) {
    g in w.wal.pending && g !in w.wal.marked
  }

  ghost predicate CrashFree(run: seq<Step>) {
    forall i | 0 <= i < |run| :: !run[i].Crash?
  }

  lemma {:induction false} ExecConcat(w: World, a: seq<Step>, b: seq<Step>)
    ensures Exec(w, a + b) == Exec(Exec(w, a), b)
    decreases |b|
  {
    if b == [] {
      assert a + b == a;
    } else {
      ExecConcat(w, a, b[..|b| - 1]);
      assert (a + b)[..|a + b| - 1] == a + b[..|b| - 1];
    }
  }

  lemma ExecSnoc(w: World, run: seq<Step>, s: Step)
    ensures Exec(w, run + [s]) == Do(Exec(w, run), s)
  {
    assert (run + [s])[..|run|] == run;
  }

  // Conservation.  However receivers, delivery, expiry, shutdown and crashes interleave, an
  // acknowledged entry is in exactly one of three places: still waiting on disk; retired after
  // its own callback had finished and its metrics and logs were accepted; or retired for age, and
  // then it was reported exactly once, is about to be, or its report was cut off by a fault or a
  // crash.
  lemma Conservation(cfg: Config, run: seq<Step>, g: Gen)
    requires cfg.Valid()
    requires g in Exec(EmptyWorld(cfg), run).hist.acked
    ensures
      var w := Exec(EmptyWorld(cfg), run);
      && (Waiting(w, g) || g in w.hist.delivered || g in w.hist.expired)
      && !(Waiting(w, g) && g in w.hist.delivered + w.hist.expired)
      && !(g in w.hist.delivered && g in w.hist.expired)
      && (g in w.hist.delivered ==> WasWhole(w.hist, g))
      && LossSettled(w, g)
  {
    InvAlways(cfg, run);
  }

  // What a receipt can be once delivery of its entry was over: still so, or poisoned since.
  ghost predicate Judged(r: Receipt) {
    Whole(r) || r.phase == Poisoned
  }

  // An entry whose receipt became eligible in this life has such a receipt, or is off the disk.
  ghost predicate RipeOk(w: World) {
    forall g | g in w.hist.ripe ::
      if g in w.co.progress then w.co.progress[g].receipt.Some? && Judged(w.co.progress[g].receipt.value)
      else g !in w.wal.pending && g < w.wal.next
  }

  lemma RipeOutside(w: World, o: OutsideStep)
    requires TokensOk(w) && RipeOk(w) && OutsideEnabled(w, o)
    ensures RipeOk(OutsideAfter(w, o))
  {}

  lemma RipeStorage(w: World, d: StorageStep)
    requires RipeOk(w) && StorageEnabled(w, d)
    ensures RipeOk(After(w, Storage(d)))
  {}

  lemma RipeWorker(w: World, k: WorkerStep)
    requires TokensOk(w) && RipeOk(w) && WorkerEnabled(w, k)
    ensures RipeOk(w.(co := WorkerCo(w, k), hist := WorkerHist(w, k)))
  {}

  lemma {:induction false} RipeAlways(cfg: Config, run: seq<Step>)
    requires cfg.Valid()
    ensures RipeOk(Exec(EmptyWorld(cfg), run))
    decreases |run|
  {
    if run != [] {
      var before, s := run[..|run| - 1], run[|run| - 1];
      RipeAlways(cfg, before);
      InvAlways(cfg, before);
      var w := Exec(EmptyWorld(cfg), before);
      RipeKept(w, s);
    }
  }

  lemma RipeKept(w: World, s: Step)
    requires TokensOk(w) && RipeOk(w)
    ensures RipeOk(Do(w, s))
  {
    if Enabled(w, s) {
      match s
      case Outside(o) => RipeOutside(w, o);
      case Storage(d) => RipeStorage(w, d);
      case Worker(k) => RipeWorker(w, k);
      case Crash(_, _, _) =>
    }
  }

  // The marker of a delivered entry is written on a receipt whose callback has finished and whose
  // metrics and logs were accepted, unless and only unless the receipt has been poisoned since.
  lemma MarkedWholeUnlessPoisoned(cfg: Config, run: seq<Step>, g: Gen, softly: bool)
    requires cfg.Valid() && Enabled(Exec(EmptyWorld(cfg), run), Storage(Mark(g, ByDelivery, softly)))
    ensures var p := Exec(EmptyWorld(cfg), run).co.progress;
            g in p && p[g].receipt.Some? && (Whole(p[g].receipt.value) <==> p[g].receipt.value.phase != Poisoned)
  {
    RipeAlways(cfg, run);
  }

  ghost function PoisonRun(e: Entry): seq<Step> {
    [Outside(Land(e)), Outside(Sync(0)), Storage(Register(0)), Worker(Admit(0)), Worker(Prepare(0)),
     Worker(Reserve(0, true, true)), Worker(Enter(0))]
  }

  // And it can be: eligibility is looked at before the marker is written, so a receipt that is
  // poisoned in between does not stop the retirement.
  lemma PoisonedWhenMarkedWitness(cfg: Config, e: Entry)
    requires cfg.Valid() && e.route in cfg.routes && 0 < e.size <= cfg.maxBytes
    ensures var run := PoisonRun(e) + [Worker(Finish(0, false))]
                       + [Outside(Advance(0, Receipt(Poisoned, true, true)))] + [Storage(Mark(0, ByDelivery, false))];
            var w := Exec(EmptyWorld(cfg), run);
            0 in w.hist.delivered && Holds(w.co.progress, 0, Poisoned)
  {
    var w0, run := EmptyWorld(cfg), PoisonRun(e);
    AfterEntering(cfg, e);
    var a, b, c := Worker(Finish(0, false)), Outside(Advance(0, Receipt(Poisoned, true, true))), Storage(Mark(0, ByDelivery, false));
    ExecSnoc(w0, run, a);
    ExecSnoc(w0, run + [a], b);
    ExecSnoc(w0, run + [a] + [b], c);
    PoisonedThenMarked(Exec(w0, run), e);
  }

  lemma AfterEntering(cfg: Config, e: Entry)
    requires cfg.Valid() && e.route in cfg.routes && 0 < e.size <= cfg.maxBytes
    ensures Entering(Exec(EmptyWorld(cfg), PoisonRun(e)), e)
  {
    var w0, run := EmptyWorld(cfg), PoisonRun(e);
    var w1 := Do(w0, run[0]);
    var w2 := Do(w1, run[1]);
    EntersFrom(Do(w2, run[2]), e);
    Exec7(w0, run[0], run[1], run[2], run[3], run[4], run[5], run[6]);
  }

  lemma EntersFrom(w: World, e: Entry)
    requires w.cfg.Valid() && e.route in w.cfg.routes && e.size <= w.cfg.maxBytes
    requires w.co == Coord(Replaying, false, 0, map[], None) && w.wal.pending == map[0 := e]
    requires w.wal.durable == {0} && w.wal.marked == {} && w.wal.prepared == map[0 := false]
    ensures Entering(Do(Do(Do(Do(w, Worker(Admit(0))), Worker(Prepare(0))), Worker(Reserve(0, true, true))), Worker(Enter(0))), e)
  {
    assert Bytes(w.co.progress) == 0;
    var w1 := Do(w, Worker(Admit(0)));
    var w2 := Do(w1, Worker(Prepare(0)));
    var w3 := Do(w2, Worker(Reserve(0, true, true)));
  }

  // The first entry's callback is running.
  ghost predicate Entering(w: World, e: Entry) {
    && w.co.progress == map[0 := Progress(e, 1, true, Some(Receipt(Building, true, true)))]
    && 0 in w.wal.pending && 0 in w.wal.durable && 0 !in w.wal.marked
  }

  lemma PoisonedThenMarked(w: World, e: Entry)
    requires Entering(w, e)
    ensures var a, b, c := Worker(Finish(0, false)), Outside(Advance(0, Receipt(Poisoned, true, true))), Storage(Mark(0, ByDelivery, false));
            var w' := Do(Do(Do(w, a), b), c);
            0 in w'.hist.delivered && Holds(w'.co.progress, 0, Poisoned)
  {
    var w1 := Do(w, Worker(Finish(0, false)));
    assert w1.co.progress[0].receipt == Some(Receipt(Delivered, true, true)) && 0 in w1.hist.ripe;
  }

  // The loss account of one generation: if it expired, it was reported exactly once, or the
  // expiry call that retired it still owes the report, or that call was cut off; otherwise it
  // was never reported.
  ghost predicate LossSettled(w: World, g: Gen) {
    && (g in w.hist.expired ==>
          || (w.hist.accounted[g] == 1 && g !in w.hist.owed && g !in w.hist.cut)
          || (w.hist.accounted[g] == 0 && g in w.hist.owed && g !in w.hist.cut)
          || (w.hist.accounted[g] == 0 && g !in w.hist.owed && g in w.hist.cut))
    && (g !in w.hist.expired ==> w.hist.accounted[g] == 0 && g !in w.hist.owed && g !in w.hist.cut)
  }

  ghost predicate CutForGood(w: World, g: Gen) {
    g in w.hist.cut && g !in w.wal.soft
  }

  lemma StorageKeepsLosses(w: World, d: StorageStep, g: Gen)
    requires LedgerOk(w) && LossOk(w) && StorageEnabled(w, d)
    ensures CutForGood(w, g) ==> g in StorageHist(w.hist, d).cut && g !in StorageWal(w.wal, d).soft
    ensures g in w.hist.accounted ==> g in StorageHist(w.hist, d).accounted
  {}

  lemma StepKeepsLosses(w: World, s: Step, g: Gen)
    requires LedgerOk(w) && LossOk(w)
    ensures CutForGood(w, g) ==> CutForGood(Do(w, s), g)
    ensures g in w.hist.accounted ==> g in Do(w, s).hist.accounted
  {
    if s.Storage? && Enabled(w, s) {
      StorageKeepsLosses(w, s.d, g);
    }
  }

  // A cut-off retirement is never made up for: unless its marker can still be undone by a crash,
  // the entry stays retired and unreported in every continuation.
  lemma {:induction false} CutOffIsFinal(w: World, run: seq<Step>, g: Gen)
    requires Inv(w) && CutForGood(w, g)
    ensures var w' := Exec(w, run); CutForGood(w', g) && w'.hist.accounted[g] == 0 && !Waiting(w', g)
    decreases |run|
  {
    InvRun(w, run);
    if run != [] {
      CutOffIsFinal(w, run[..|run| - 1], g);
      InvRun(w, run[..|run| - 1]);
      StepKeepsLosses(Exec(w, run[..|run| - 1]), run[|run| - 1], g);
    }
  }

  // A report is never taken back or repeated.
  lemma {:induction false} ReportIsFinal(w: World, run: seq<Step>, g: Gen)
    requires Inv(w) && g in w.hist.accounted
    ensures var w' := Exec(w, run); w'.hist.accounted[g] == 1 && g in w'.hist.expired && !Waiting(w', g)
    decreases |run|
  {
    InvRun(w, run);
    if run != [] {
      ReportIsFinal(w, run[..|run| - 1], g);
      InvRun(w, run[..|run| - 1]);
      StepKeepsLosses(Exec(w, run[..|run| - 1]), run[|run| - 1], g);
    }
  }

  // One request waits at most once, and whatever a generation is applied as, it is applied for
  // the provider of the request that was written.
  lemma OneEntryPerRequest(cfg: Config, run: seq<Step>, g: Gen, h: Gen, i: nat)
    requires cfg.Valid()
    ensures
      var w := Exec(EmptyWorld(cfg), run);
      && (Waiting(w, g) && Waiting(w, h) && Equivalent(w.wal.pending[g], w.wal.pending[h]) ==> g == h)
      && (Waiting(w, g) ==> g in w.hist.log && w.wal.pending[g] == w.hist.log[g])
      && (i < |w.hist.entered| ==>
            w.hist.entered[i].gen in w.hist.log
            && w.cfg.ProviderOf(w.hist.log[w.hist.entered[i].gen]) == Some(w.hist.entered[i].provider))
  {
    InvAlways(cfg, run);
    var w := Exec(EmptyWorld(cfg), run);
    if i < |w.hist.entered| {
      assert EnteredFrom(w, w.hist.entered[i]);
    }
  }

  // Within one process life no application callback is entered twice, and preparation of a
  // generation succeeds at most once.
  lemma AppliedAtMostOnce(cfg: Config, run: seq<Step>, i: nat, j: nat)
    requires cfg.Valid()
    ensures
      var h := Exec(EmptyWorld(cfg), run).hist;
      && (i < j < |h.entered| ==> h.entered[i].gen != h.entered[j].gen)
      && (i < j < |h.prepares| ==> h.prepares[i] != h.prepares[j])
  {
    InvAlways(cfg, run);
  }

  // Every provider sees applications in admission order.  Of two window entries of one provider,
  // if the later one has a receipt so has the earlier; and no window entry is behind a later one
  // of its provider that was applied, whether or not that one is still there, unless it has a
  // receipt.
  lemma ProviderFifo(cfg: Config, run: seq<Step>, i: nat, j: nat, g: Gen, h: Gen)
    requires cfg.Valid()
    ensures
      var w := Exec(EmptyWorld(cfg), run);
      && (i < j < |w.hist.entered| && w.hist.entered[i].provider == w.hist.entered[j].provider
          ==> w.hist.entered[i].order < w.hist.entered[j].order)
      && (g in w.co.progress && h in w.co.progress
          && w.cfg.ProviderOf(w.co.progress[h].entry) == w.cfg.ProviderOf(w.co.progress[g].entry)
          && w.co.progress[h].order < w.co.progress[g].order && w.co.progress[g].receipt.Some?
          ==> w.co.progress[h].receipt.Some?)
      && (j < |w.hist.entered| && h in w.co.progress
          && w.cfg.ProviderOf(w.co.progress[h].entry) == Some(w.hist.entered[j].provider)
          && w.co.progress[h].order < w.hist.entered[j].order
          ==> w.co.progress[h].receipt.Some?)
  {
    InvAlways(cfg, run);
    var w := Exec(EmptyWorld(cfg), run);
    if j < |w.hist.entered| && h in w.co.progress {
      assert EnteredEntry(w, w.hist.entered[j]) && NotOvertaken(w, w.hist.entered[j], h);
    }
  }

  // The replay window never outgrows its entry or byte budget, and admission orders are unique.
  lemma WindowBounded(cfg: Config, run: seq<Step>, g: Gen, h: Gen)
    requires cfg.Valid()
    ensures
      var w := Exec(EmptyWorld(cfg), run);
      && |w.co.progress| <= 64 && |w.co.progress| <= w.cfg.maxEntries
      && Bytes(w.co.progress) <= w.cfg.maxBytes <= MAX_INT64
      && (g in w.co.progress && h in w.co.progress && w.co.progress[g].order == w.co.progress[h].order ==> g == h)
  {
    InvAlways(cfg, run);
  }

  /* ---------------------------------------------------------------- unknown routes */

  // An entry that waits for a route this process does not have.
  ghost predicate Stranded(w: World, g: Gen) {
    Waiting(w, g) && w.wal.pending[g].route !in w.cfg.routes
  }

  lemma StrandedStorage(w: World, d: StorageStep, g: Gen)
    requires LogOk(w) && RoutesOk(w) && Stranded(w, g) && StorageEnabled(w, d)
    ensures Stranded(After(w, Storage(d)), g)
  {
    assert g !in w.hist.ripe;
  }

  lemma StrandedOutside(w: World, o: OutsideStep, g: Gen)
    requires DiskOk(w) && Stranded(w, g) && OutsideEnabled(w, o)
    ensures Stranded(OutsideAfter(w, o), g)
  {}

  lemma StrandedStep(w: World, s: Step, g: Gen)
    requires Inv(w) && Stranded(w, g) && !s.Crash?
    ensures Stranded(Do(w, s), g)
  {
    if Enabled(w, s) {
      match s
      case Storage(d) => StrandedStorage(w, d, g);
      case Outside(o) => StrandedOutside(w, o, g);
      case Worker(k) =>
    }
  }

  lemma StrandedIdle(w: World, g: Gen)
    requires LogOk(w) && RoutesOk(w) && Stranded(w, g)
    ensures forall i | 0 <= i < |w.hist.entered| :: w.hist.entered[i].gen != g
    ensures g in w.co.progress ==> w.co.progress[g].receipt.None?
  {
    forall i | 0 <= i < |w.hist.entered| ensures w.hist.entered[i].gen != g {
      assert EnteredFrom(w, w.hist.entered[i]);
    }
  }

  // For the rest of this process's life it waits: it is never applied, committed or expired.
  lemma {:induction false} StrandedWaits(w: World, run: seq<Step>, g: Gen)
    requires Inv(w) && Stranded(w, g) && CrashFree(run)
    ensures Stranded(Exec(w, run), g)
    ensures forall i | 0 <= i < |Exec(w, run).hist.entered| :: Exec(w, run).hist.entered[i].gen != g
    ensures g in Exec(w, run).co.progress ==> Exec(w, run).co.progress[g].receipt.None?
    decreases |run|
  {
    if run != [] {
      StrandedWaits(w, run[..|run| - 1], g);
      InvRun(w, run[..|run| - 1]);
      StrandedStep(Exec(w, run[..|run| - 1]), run[|run| - 1], g);
    }
    InvRun(w, run);
    StrandedIdle(Exec(w, run), g);
  }

  // And the next process can serve it: whether an entry is stranded is up to the configuration.
  lemma StrandedUntilConfigured(w: World, lostEntries: set<Gen>, lostMarks: set<Gen>, next: Config, g: Gen)
    requires Inv(w) && Stranded(w, g) && g in w.hist.landed && Enabled(w, Crash(lostEntries, lostMarks, next))
    ensures var w' := Restart(w, lostEntries, lostMarks, next);
            Waiting(w', g) && (Stranded(w', g) <==> w.wal.pending[g].route !in next.routes)
  {}

  /* -------------------------------------------------------------- terminal drain */

  // Once terminal is set, nothing is prepared or applied for the rest of the process's life.
  lemma TerminalStep(w: World, s: Step)
    requires w.co.terminal && !s.Crash?
    ensures var w' := Do(w, s);
            && w'.co.terminal && w'.hist.entered == w.hist.entered && w'.hist.prepares == w.hist.prepares
            && w'.co.progress.Keys <= w.co.progress.Keys
  {
    if Enabled(w, s) {
      match s
      case Worker(k) => TerminalWorker(w, k);
      case Outside(o) => TerminalOutside(w, o);
      case Storage(d) =>
    }
  }

  lemma TerminalOutside(w: World, o: OutsideStep)
    requires w.co.terminal && OutsideEnabled(w, o)
    ensures var w' := OutsideAfter(w, o);
            && w'.co.terminal && w'.hist.entered == w.hist.entered && w'.hist.prepares == w.hist.prepares
            && w'.co.progress.Keys == w.co.progress.Keys
  {}

  lemma TerminalWorker(w: World, k: WorkerStep)
    requires w.co.terminal && WorkerEnabled(w, k)
    ensures WorkerHist(w, k).entered == w.hist.entered && WorkerHist(w, k).prepares == w.hist.prepares
    ensures WorkerCo(w, k).terminal && WorkerCo(w, k).progress.Keys <= w.co.progress.Keys
  {}

  lemma {:induction false} TerminalFreezes(w: World, run: seq<Step>)
    requires w.co.terminal && CrashFree(run)
    ensures Exec(w, run).co.terminal
    ensures Exec(w, run).hist.entered == w.hist.entered
    ensures Exec(w, run).hist.prepares == w.hist.prepares
    ensures Exec(w, run).co.progress.Keys <= w.co.progress.Keys
    decreases |run|
  {
    if run != [] {
      TerminalFreezes(w, run[..|run| - 1]);
      TerminalStep(Exec(w, run[..|run| - 1]), run[|run| - 1]);
    }
  }

  ghost predicate NoLiveReceipt(w: World) {
    forall g | g in w.co.progress && w.co.progress[g].receipt.Some? ::
      w.co.progress[g].receipt.value.phase.Poisoned?
  }

  // What a drained coordinator means: every callback this process entered belongs to an entry
  // that was delivered and is off the disk, or to a poisoned receipt still in the window.
  lemma DrainedMeansSettled(cfg: Config, run: seq<Step>, i: nat)
    requires cfg.Valid()
    requires NoLiveReceipt(Exec(EmptyWorld(cfg), run)) && i < |Exec(EmptyWorld(cfg), run).hist.entered|
    ensures
      var w := Exec(EmptyWorld(cfg), run);
      var g := w.hist.entered[i].gen;
      || (g !in w.wal.pending && g in w.hist.delivered)
      || Holds(w.co.progress, g, Poisoned)
  {
    InvAlways(cfg, run);
    var w := Exec(EmptyWorld(cfg), run);
    assert EnteredEntry(w, w.hist.entered[i]);
  }

  // Settled stays settled: after the terminal flag, a window without live receipts never
  // grows one again.
  lemma {:induction false} DrainedStaysDrained(w: World, run: seq<Step>)
    requires w.co.terminal && NoLiveReceipt(w) && CrashFree(run)
    ensures NoLiveReceipt(Exec(w, run)) && Exec(w, run).co.terminal
    decreases |run|
  {
    if run != [] {
      DrainedStaysDrained(w, run[..|run| - 1]);
    }
  }

  /* --------------------------------------------------------- acknowledge or refuse */

  // A failed coordinator remembers it until the process ends.
  lemma {:induction false} FailureRemembered(w: World, run: seq<Step>)
    requires w.hist.failedEver && CrashFree(run)
    ensures Exec(w, run).hist.failedEver
    decreases |run|
  {
    if run != [] {
      FailureRemembered(w, run[..|run| - 1]);
    }
  }

  // Once failed, an append can be acknowledged exactly when the coordinator has been closed
  // since (and the write itself succeeded before that).
  lemma AckAfterFailureOnlyWhenStopped(cfg: Config, run: seq<Step>, g: Gen, p: Provider)
    requires cfg.Valid() && Exec(EmptyWorld(cfg), run).hist.failedEver
    ensures
      var w := Exec(EmptyWorld(cfg), run);
      Enabled(w, Outside(Ack(g, p))) <==> w.co.state == Stopped && g in w.hist.landed && p !in w.failing
    ensures Exec(EmptyWorld(cfg), run).co.state == Stopped ==> Exec(EmptyWorld(cfg), run).wal.closed
  {
    InvAlways(cfg, run);
  }

  // In a run without Close, every acknowledgement of this life was given while the coordinator
  // had never failed.
  lemma AcksPrecedeFailure(cfg: Config, run: seq<Step>)
    requires cfg.Valid() && !Exec(EmptyWorld(cfg), run).wal.closed
    ensures !Exec(EmptyWorld(cfg), run).hist.lateAck
  {
    InvAlways(cfg, run);
  }

  // The Close exception is real: a write that lands, a failure, a Close, and then the
  // receiver's second check passes because the state reads Stopped instead of Failed.
  lemma LateAckWitness(cfg: Config, e: Entry)
    requires cfg.Valid() && e.route in cfg.routes && 0 < e.size <= cfg.maxBytes
    ensures
      var run := [Outside(Land(e)), Outside(Sync(0)), Outside(AppendOk(0)), Outside(SetState(Failed)),
                  Outside(CloseWal), Outside(Stop), Outside(Ack(0, cfg.routes[e.route]))];
      0 in Exec(EmptyWorld(cfg), run).hist.acked && Exec(EmptyWorld(cfg), run).hist.lateAck
  {
    var w0 := EmptyWorld(cfg);
    var w1 := Do(w0, Outside(Land(e)));
    var w2 := Do(w1, Outside(Sync(0)));
    var w3 := Do(w2, Outside(AppendOk(0)));
    var w4 := Do(w3, Outside(SetState(Failed)));
    var w5 := Do(w4, Outside(CloseWal));
    var w6 := Do(w5, Outside(Stop));
    Exec7(w0, Outside(Land(e)), Outside(Sync(0)), Outside(AppendOk(0)), Outside(SetState(Failed)),
          Outside(CloseWal), Outside(Stop), Outside(Ack(0, cfg.routes[e.route])));
  }

  // A failure set from outside does not stop the pass under way: an entry admitted before it can
  // still be reserved and entered.  Only a replay that begins on a failed coordinator is frozen.
  lemma AppliedAfterFailureWitness(cfg: Config, e: Entry)
    requires cfg.Valid() && e.route in cfg.routes && 0 < e.size <= cfg.maxBytes
    ensures
      var run := [Outside(Land(e)), Outside(Sync(0)), Outside(AppendOk(0)), Storage(Register(0)),
                  Worker(Admit(0)), Worker(Prepare(0)), Outside(SetState(Failed))];
      var failed := Exec(EmptyWorld(cfg), run);
      var after := Exec(EmptyWorld(cfg), run + [Worker(Reserve(0, false, false))] + [Worker(Enter(0))]);
      && failed.hist.failedEver && failed.hist.entered == []
      && after.co.state == Failed && |after.hist.entered| == 1
  {
    var w0 := EmptyWorld(cfg);
    var run := [Outside(Land(e)), Outside(Sync(0)), Outside(AppendOk(0)), Storage(Register(0)),
                Worker(Admit(0)), Worker(Prepare(0)), Outside(SetState(Failed))];
    var w1 := Do(w0, run[0]);
    var w2 := Do(w1, run[1]);
    var w3 := Do(w2, run[2]);
    var w4 := Do(w3, run[3]);
    var w5 := Do(w4, run[4]);
    assert Bytes(w4.co.progress) == 0;
    var w6 := Do(w5, run[5]);
    var w7 := Do(w6, run[6]);
    Exec7(w0, run[0], run[1], run[2], run[3], run[4], run[5], run[6]);
    assert Exec(w0, run) == w7;
    AppliedWhileFailed(w7, e);
    ExecSnoc(w0, run, Worker(Reserve(0, false, false)));
    ExecSnoc(w0, run + [Worker(Reserve(0, false, false))], Worker(Enter(0)));
  }

  lemma AppliedWhileFailed(w: World, e: Entry)
    requires w.co == Coord(Failed, false, 1, map[0 := Progress(e, 1, true, None)], None) && e.route in w.cfg.routes
    ensures var w' := Do(Do(w, Worker(Reserve(0, false, false))), Worker(Enter(0)));
            w'.co.state == Failed && |w'.hist.entered| == |w.hist.entered| + 1
  {}

  // An entry can be acknowledged, retired for age and off the disk, and then stay unreported in
  // every continuation: the marker took effect and the call broke off before returning it.
  lemma UnreportedExpiryWitness(cfg: Config, e: Entry, more: seq<Step>)
    requires cfg.Valid() && e.route in cfg.routes && 0 < e.size <= cfg.maxBytes
    ensures
      var run := CutOffRun(e, cfg.routes[e.route]);
      var w := Exec(EmptyWorld(cfg), run + more);
      && 0 in Exec(EmptyWorld(cfg), run).hist.acked && 0 !in Exec(EmptyWorld(cfg), run).wal.pending
      && 0 in w.hist.cut && w.hist.accounted[0] == 0 && !Waiting(w, 0)
  {
    var run := CutOffRun(e, cfg.routes[e.route]);
    AfterCutOff(cfg, e);
    InvAlways(cfg, run);
    ExecConcat(EmptyWorld(cfg), run, more);
    CutOffIsFinal(Exec(EmptyWorld(cfg), run), more, 0);
  }

  ghost function CutOffRun(e: Entry, p: Provider): seq<Step> {
    [Outside(Land(e)), Outside(Sync(0)), Outside(AppendOk(0)), Outside(Ack(0, p)),
     Storage(Mark(0, ByExpiry, false)), Storage(Unlink(0)), Storage(CutOff(0))]
  }

  lemma AfterCutOff(cfg: Config, e: Entry)
    requires cfg.Valid() && e.route in cfg.routes && 0 < e.size <= cfg.maxBytes
    ensures
      var w := Exec(EmptyWorld(cfg), CutOffRun(e, cfg.routes[e.route]));
      0 in w.hist.acked && 0 !in w.wal.pending && CutForGood(w, 0)
  {
    var w0 := EmptyWorld(cfg);
    var w1 := Do(w0, Outside(Land(e)));
    var w2 := Do(w1, Outside(Sync(0)));
    var w3 := Do(w2, Outside(AppendOk(0)));
    var w4 := Do(w3, Outside(Ack(0, cfg.routes[e.route])));
    var w5 := Do(w4, Storage(Mark(0, ByExpiry, false)));
    var w6 := Do(w5, Storage(Unlink(0)));
    var run := CutOffRun(e, cfg.routes[e.route]);
    Exec7(w0, run[0], run[1], run[2], run[3], run[4], run[5], run[6]);
  }

  lemma Exec7(w: World, a: Step, b: Step, c: Step, d: Step, e: Step, f: Step, g: Step)
    ensures Exec(w, [a, b, c, d, e, f, g]) == Do(Do(Do(Do(Do(Do(Do(w, a), b), c), d), e), f), g)
  {
    ExecSnoc(w, [], a);
    ExecSnoc(w, [a], b);
    ExecSnoc(w, [a, b], c);
    ExecSnoc(w, [a, b, c], d);
    ExecSnoc(w, [a, b, c, d], e);
    ExecSnoc(w, [a, b, c, d, e], f);
    ExecSnoc(w, [a, b, c, d, e, f], g);
    assert [a, b, c, d, e, f] + [g] == [a, b, c, d, e, f, g];
    assert [a, b, c, d, e] + [f] == [a, b, c, d, e, f];
    assert [a, b, c, d] + [e] == [a, b, c, d, e];
    assert [a, b, c] + [d] == [a, b, c, d];
    assert [a, b] + [c] == [a, b, c];
    assert [a] + [b] == [a, b];
    assert [] + [a] == [a];
  }
}
