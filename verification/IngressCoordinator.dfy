/**
 The ingress WAL coordinator as the program runs it.

 The methods follow the coordinator's control flow, field update by field update.  Each
 update is certified as one step of the protocol (`Certify`), and wherever a lock is released
 other goroutines get to run (`Interfere`), so `Valid` says that what the code has done so
 far, together with everything that interleaved with it, is a run of the protocol.  Every
 theorem about runs therefore holds of the code at every point a crash could hit.

 Calls into the operating system, the exporters and the route's preparation function can end
 either way; how they end is a parameter (`Luck`, `Disk`, `Reply`) or an arbitrary value (`*`).
 The contracts say what may happen whichever way they end, and that nothing else is to blame
 for an error.
 */
module IngressCoordinator {
  import opened Wrappers
  import opened IngressProtocol
  import opened IngressInvariants
  import opened IngressInterference
  import opened IngressTheorems
  import opened IngressErrors
  import opened WalWindow

  newtype int64 = x: int | -0x8000_0000_0000_0000 <= x <= MAX_INT64

  // Where a completion attempt breaks off, if it does.
  datatype Fault = NoFault | BeforeMark | MarkUncertain | BeforeUnlink | BeforeUnmark | AfterUnmark

  // How the calls out of a pass end: whether the context lives, and where storage fails.
  datatype Luck = Luck(alive: bool, faulty: map<Gen, Fault>, unread: set<Gen>, broken: bool) {
    function FaultOf(g: Gen): Fault {
      if g in faulty then faulty[g] else NoFault
    }

    // Nothing goes wrong with the completion of g.
    predicate With(g: Gen) {
      alive && FaultOf(g).NoFault? && g !in unread
    }

    // Nothing goes wrong at all.
    predicate Fair() {
      alive && !broken && unread == {} && forall g | g in faulty :: faulty[g].NoFault?
    }
  }

  // How the calls of one append end: whether the byte budget has room, the file is created and
  // synced, and where the cleanup of a completed twin fails.
  datatype Disk = Disk(room: bool, lands: bool, syncs: bool, cleanup: Fault) {
    predicate Fair() {
      room && lands && syncs && cleanup.NoFault?
    }
  }

  // The store can take e: the same request waits already, or there is room for one more.
  ghost predicate Fits(w: World, e: Entry) {
    || (exists g :: Waiting(w, g) && Equivalent(w.wal.pending[g], e))
    || (|w.wal.pending| < w.cfg.maxEntries && e.size <= w.cfg.maxBytes)
  }

  datatype Reservation = Granted(metricOk: bool, logOk: bool) | Refused(why: Error)

  // How the application of one entry goes: preparation, reservation, a refusal before the callback
  // is entered and whether the reservation can be returned then, and the callback itself.
  datatype Reply = Reply(prepared: bool, answer: Reservation, refusal: Error, stuck: bool, fails: bool, quiet: bool) {
    // The provider is full, before or after granting a reservation.
    predicate PushesBack() {
      if answer.Refused? then Backpressure in answer.why else Backpressure in refusal && !stuck
    }

    // Something other than a full provider stands in the way.
    predicate Trouble() {
      || !prepared
      || (answer.Refused? && Backpressure !in answer.why)
      || (answer.Granted? && refusal != {} && (stuck || Backpressure !in refusal))
      || (answer.Granted? && refusal == {} && fails)
    }
  }

  datatype Outcome = Applied | Blocked | Broken(why: Error)

  // How expiry ends for one candidate; lost is retired without being returned.
  datatype Expiry = TooNew | Skipped | Retired | Broke(why: Error, lost: set<Gen>)

  ghost predicate Candidate(w: World, g: Gen) {
    Waiting(w, g) && g !in w.wal.prepared
  }

  // What expiry may report: old enough, for a configured route, and completed without a fault.
  ghost predicate Due(w: World, cutoff: int, faults: Gen -> Fault, g: Gen) {
    && Candidate(w, g) && w.wal.pending[g].accepted < cutoff
    && w.wal.pending[g].route in w.cfg.routes && faults(g).NoFault?
  }

  // What expiry leaves alone: an unconfigured route, or anything from the first young entry on.
  ghost predicate Spared(w: World, cutoff: int, g: Gen) {
    && Candidate(w, g)
    && (w.wal.pending[g].route !in w.cfg.routes
        || exists h: Gen :: h <= g && Candidate(w, h) && w.wal.pending[h].accepted >= cutoff)
  }

  // Why expiry may stop at g with an error: the store is closed, the context ended, the entry cannot
  // be read, or it is due and its completion breaks off.
  ghost predicate Obstructed(w0: World, w: World, cutoff: int, faults: Gen -> Fault, alive: bool, unread: set<Gen>, g: Gen) {
    && Candidate(w0, g)
    && (|| w.wal.closed || !alive || g in unread
        || (!faults(g).NoFault? && w0.wal.pending[g].accepted < cutoff && w0.wal.pending[g].route in w0.cfg.routes))
  }

  // Durably gone: neither the entry nor its marker is left, and the number is not free again.
  ghost predicate Off(w: World, g: Gen) {
    g < w.wal.next && g !in w.wal.pending && g !in w.wal.marked
  }

  ghost function ToSet(q: seq<Gen>): set<Gen> {
    set g | g in q
  }

  // The candidates in order.
  ghost predicate Queue(w: World, q: seq<Gen>) {
    Ascending(q) && forall k | 0 <= k < |q| :: Candidate(w, q[k])
  }

  // What has been reported so far, all of it before index i of the queue.
  ghost predicate Reports(w0: World, w: World, cutoff: int, faults: Gen -> Fault, q: seq<Gen>, i: nat, reported: seq<Gen>)
    requires i <= |q|
  {
    && Ascending(reported)
    && forall k | 0 <= k < |reported| ::
         (i == |q| || reported[k] < q[i]) && Due(w0, cutoff, faults, reported[k]) && Off(w, reported[k])
  }

  ghost predicate Passed(w0: World, cutoff: int, q: seq<Gen>, i: nat, reported: seq<Gen>)
    requires i <= |q|
  {
    forall k | 0 <= k < i :: q[k] in reported || Spared(w0, cutoff, q[k])
  }

  // The walk over the candidates q has reached index i and reported these.
  ghost predicate Walked(w0: World, w: World, cutoff: int, faults: Gen -> Fault, q: seq<Gen>, i: nat, reported: seq<Gen>)
    requires i <= |q|
  {
    && Expires(w0, w, ToSet(reported), {}) && Queue(w0, q)
    && Reports(w0, w, cutoff, faults, q, i, reported) && Passed(w0, cutoff, q, i, reported)
  }

  lemma WalkStart(w: World, cutoff: int, faults: Gen -> Fault, q: seq<Gen>)
    requires Queue(w, q)
    ensures Walked(w, w, cutoff, faults, q, 0, [])
  {
    assert ToSet([]) == {};
  }

  // What a finished or broken-off walk guarantees.
  ghost predicate WalkResult(w0: World, w: World, cutoff: int, faults: Gen -> Fault, reported: seq<Gen>, lost: set<Gen>, err: Error) {
    && Expires(w0, w, ToSet(reported), lost) && Ascending(reported)
    && (forall k | 0 <= k < |reported| :: Due(w0, cutoff, faults, reported[k]) && Off(w, reported[k]))
    && (lost != {} ==> err != {})
    && (lost == {} || exists g :: lost == {g} && Candidate(w0, g) && !faults(g).NoFault? && !faults(g).BeforeMark?)
    && (err == {} ==> forall g | Candidate(w0, g) :: g in reported || Spared(w0, cutoff, g))
  }

  lemma WalkDone(w0: World, w: World, cutoff: int, faults: Gen -> Fault, q: seq<Gen>, i: nat, reported: seq<Gen>)
    requires i <= |q| && Walked(w0, w, cutoff, faults, q, i, reported)
    requires i < |q| ==> w0.wal.pending[q[i]].accepted >= cutoff
    requires forall g | Candidate(w0, g) :: g in q
    ensures WalkResult(w0, w, cutoff, faults, reported, {}, {})
  {
  }

  lemma WalkBreak(w0: World, mid: World, w: World, cutoff: int, faults: Gen -> Fault, q: seq<Gen>, i: nat, reported: seq<Gen>, lost: set<Gen>, err: Error)
    requires i < |q| && Walked(w0, mid, cutoff, faults, q, i, reported) && Expires(mid, w, {}, lost) && err != {}
    requires lost == {} || (lost == {q[i]} && !faults(q[i]).NoFault? && !faults(q[i]).BeforeMark?)
    ensures WalkResult(w0, w, cutoff, faults, reported, lost, err)
  {
    ExpiresTrans(w0, mid, w, ToSet(reported), {}, {}, lost);
    assert ToSet(reported) + {} == ToSet(reported) && {} + lost == lost;
  }

  lemma WalkNext(w0: World, w: World, cutoff: int, faults: Gen -> Fault, q: seq<Gen>, i: nat, reported: seq<Gen>)
    requires i < |q| && Walked(w0, w, cutoff, faults, q, i, reported)
    ensures Candidate(w, q[i]) && w.wal.pending[q[i]] == w0.wal.pending[q[i]]
  {
    assert q[i] !in reported;
  }

  lemma WalkStop(w0: World, mid: World, w: World, cutoff: int, faults: Gen -> Fault, q: seq<Gen>, i: nat, reported: seq<Gen>)
    requires i < |q| && Walked(w0, mid, cutoff, faults, q, i, reported) && Expires(mid, w, {}, {})
    ensures Walked(w0, w, cutoff, faults, q, i, reported)
  {
    ExpiresTrans(w0, mid, w, ToSet(reported), {}, {}, {});
    assert ToSet(reported) + {} == ToSet(reported);
  }

  lemma WalkSkip(w0: World, mid: World, w: World, cutoff: int, faults: Gen -> Fault, q: seq<Gen>, i: nat, reported: seq<Gen>)
    requires i < |q| && Walked(w0, mid, cutoff, faults, q, i, reported) && Expires(mid, w, {}, {})
    requires w0.wal.pending[q[i]].route !in w0.cfg.routes
    ensures Walked(w0, w, cutoff, faults, q, i + 1, reported)
  {
    WalkStop(w0, mid, w, cutoff, faults, q, i, reported);
    assert i + 1 < |q| ==> q[i] < q[i + 1];
  }

  lemma ReportsStay(w0: World, mid: World, w: World, cutoff: int, faults: Gen -> Fault, q: seq<Gen>, i: nat, reported: seq<Gen>, g: Gen)
    requires i < |q| && Queue(w0, q) && Reports(w0, mid, cutoff, faults, q, i, reported)
    requires Expires(mid, w, {g}, {}) && g == q[i] && Due(w0, cutoff, faults, g) && Off(w, g)
    ensures Reports(w0, w, cutoff, faults, q, i + 1, reported + [g])
  {
    assert i + 1 < |q| ==> q[i] < q[i + 1];
    forall k | 0 <= k < |reported| ensures Off(w, reported[k]) {
      assert Off(mid, reported[k]) && reported[k] != g;
    }
  }

  lemma PassedOn(w0: World, cutoff: int, q: seq<Gen>, i: nat, reported: seq<Gen>)
    requires i < |q| && Passed(w0, cutoff, q, i, reported)
    ensures Passed(w0, cutoff, q, i + 1, reported + [q[i]])
  {
    assert (reported + [q[i]])[|reported|] == q[i];
    forall k | 0 <= k < i && q[k] in reported ensures q[k] in reported + [q[i]] {
    }
  }

  lemma WalkRetire(w0: World, mid: World, w: World, cutoff: int, faults: Gen -> Fault, q: seq<Gen>, i: nat, reported: seq<Gen>)
    requires i < |q| && Walked(w0, mid, cutoff, faults, q, i, reported) && Expires(mid, w, {q[i]}, {})
    requires Due(w0, cutoff, faults, q[i]) && Off(w, q[i])
    ensures Walked(w0, w, cutoff, faults, q, i + 1, reported + [q[i]])
  {
    ExpiresTrans(w0, mid, w, ToSet(reported), {}, {q[i]}, {});
    assert ToSet(reported + [q[i]]) == ToSet(reported) + {q[i]};
    ReportsStay(w0, mid, w, cutoff, faults, q, i, reported, q[i]);
    PassedOn(w0, cutoff, q, i, reported);
  }

  // The loss account after expiry: of the entries this call retired, exactly those completed
  // without a fault are reported, once; at most one was not, and then the call says so.
  ghost predicate ExpiryResult(w0: World, w: World, cutoff: int, faults: Gen -> Fault, err: Error) {
    var gone := w.hist.expired - w0.hist.expired;
    && w0.hist.expired <= w.hist.expired && w.hist.owed == w0.hist.owed
    && (forall g | g in gone ::
          && Candidate(w0, g) && w.hist.accounted[g] == (if faults(g).NoFault? then 1 else 0)
          && (g in w.hist.cut <==> !faults(g).NoFault?))
    && (forall g | g !in gone :: w.hist.accounted[g] == w0.hist.accounted[g])
    && (forall g, h | g in gone && h in gone && !faults(g).NoFault? && !faults(h).NoFault? :: g == h)
    && (forall g | g in gone && !faults(g).NoFault? :: err != {})
    && (err == {} ==> forall g | Candidate(w0, g) :: g in w.hist.expired || Spared(w0, cutoff, g))
  }

  ghost predicate Untouched(w: World, g: Gen) {
    g !in w.hist.expired && g !in w.hist.owed && g !in w.hist.cut
  }

  lemma ReportedIsFresh(w0: World, w: World, cutoff: int, faults: Gen -> Fault, reported: seq<Gen>, lost: set<Gen>, err: Error)
    requires LedgerOk(w0) && LossOk(w0) && WalkResult(w0, w, cutoff, faults, reported, lost, err)
    ensures forall g | g in ToSet(reported) + lost :: Candidate(w0, g) && Untouched(w0, g) && g !in w.hist.accounted
    ensures forall k | 0 <= k < |reported| :: reported[k] in w.hist.owed && Off(w, reported[k])
  {
    forall g | g in ToSet(reported) + lost
      ensures Candidate(w0, g) && Untouched(w0, g) && g !in w.hist.accounted
    {
      if g in reported {
        var k :| 0 <= k < |reported| && reported[k] == g;
        assert Due(w0, cutoff, faults, reported[k]);
      }
    }
    forall k | 0 <= k < |reported| ensures reported[k] in w.hist.owed {
      assert reported[k] in ToSet(reported);
    }
  }

  lemma ExpiryMeaning(w0: World, mid: World, w: World, cutoff: int, faults: Gen -> Fault, reported: seq<Gen>, lost: set<Gen>, why: Error, err: Error)
    requires LedgerOk(w0) && LossOk(w0) && WalkResult(w0, mid, cutoff, faults, reported, lost, why)
    requires w.hist == mid.hist.(accounted := mid.hist.accounted + multiset(reported),
                                 owed := mid.hist.owed - ToSet(reported))
    requires err == {} <==> why == {}
    ensures ExpiryResult(w0, w, cutoff, faults, err)
  {
    ReportedIsFresh(w0, mid, cutoff, faults, reported, lost, why);
    var gone := w.hist.expired - w0.hist.expired;
    assert gone == ToSet(reported) + lost;
    forall g | g in reported ensures multiset(reported)[g] == 1 && faults(g).NoFault? {
      var k :| 0 <= k < |reported| && reported[k] == g;
      assert Due(w0, cutoff, faults, reported[k]);
      OnceEach(reported, k);
    }
  }

  lemma {:induction false} OnceEach(q: seq<Gen>, k: nat)
    requires Ascending(q) && k < |q|
    ensures multiset(q)[q[k]] == 1
  {
    assert q == q[..k] + [q[k]] + q[k + 1..];
    assert q[k] !in q[..k] && q[k] !in q[k + 1..];
  }

  // The window's tokens are all registered.
  predicate Held(w: World) {
    w.co.progress.Keys <= w.wal.prepared.Keys
  }

  const SMOOTH := Reply(true, Granted(false, false), {}, false, false, false)

  function ReplyOf(replies: map<Gen, Reply>, g: Gen): Reply {
    if g in replies then replies[g] else SMOOTH
  }

  // Exactly the provider of this entry joined the blocked ones, and it did push back.
  predicate BlockedBy(cfg: Config, e: Entry, reply: Reply, blocked: set<Provider>, blocked': set<Provider>) {
    e.route in cfg.routes && blocked' == blocked + {cfg.routes[e.route]} && reply.PushesBack()
  }

  // How the calls out of one pass end.
  datatype Turn = Turn(luck: Luck, replies: map<Gen, Reply>)

  // A pass has work left: a live receipt in a drain, anything on disk otherwise.
  ghost predicate Unfinished(w: World) {
    if w.co.terminal then !NoLiveReceipt(w) else w.wal.pending != map[]
  }

  // Why a pass that began in w and committed from mid on may end in w' with a real error: the store
  // is closed, a call went wrong, an entry could not be applied, or a commit was hampered.
  ghost predicate Adverse(w: World, mid: World, w': World, turn: Turn) {
    || w'.wal.closed
    || (!w.co.terminal && (!turn.luck.Fair() || !Held(w)))
    || (!w.co.terminal && exists g :: Spoiled(w.cfg, mid.co.progress, g, ReplyOf(turn.replies, g)))
    || exists g :: Hampered(mid, w', g, turn.luck)
  }

  // A call of Replay or Drain: whether it began failed, the passes it completed without a verdict,
  // and where the last pass began and began to commit.
  datatype Call = Call(failed: bool, passes: nat, at: World, mid: World)

  // Why such a call may end in w with an error: it began failed, the context ended after all its
  // waits, or its last pass met something adverse.
  ghost predicate Explained(call: Call, w: World, plan: seq<Turn>, err: Error) {
    || call.failed
    || (call.passes == |plan| && err == {Canceled})
    || (call.passes < |plan| && FlushErr !in err && Adverse(call.at, call.mid, w, plan[call.passes]))
  }

  // Why an entry may fail a pass: its route is unknown, its receipt is poisoned, or its application
  // met something other than a full provider.
  predicate Spoiled(cfg: Config, window: map<Gen, Progress>, g: Gen, reply: Reply) {
    g in window && (window[g].entry.route !in cfg.routes || Holds(window, g, Poisoned) || reply.Trouble())
  }

  // Every entry whose delivery was over, and with whose completion nothing went wrong, is done with.
  ghost predicate Lucky(w0: World, window: map<Gen, Progress>, luck: Luck) {
    forall g | WholeAt(w0.co.progress, g) && g in w0.wal.prepared && luck.With(g) :: DoneWith(window, g)
  }

  // Why the commit of g may report an error: the store is closed, the call on it did not go well, its
  // token was gone, or its receipt has been poisoned.
  ghost predicate Hampered(w0: World, w: World, g: Gen, luck: Luck) {
    && g in w0.co.progress
    && (w.wal.closed || !luck.With(g) || g !in w0.wal.prepared || Holds(w.co.progress, g, Poisoned))
  }

  lemma HamperedStays(w0: World, w: World, w': World, g: Gen, luck: Luck)
    requires Hampered(w0, w, g, luck) && Settles(w, w') && (g in w.co.progress ==> g in w'.co.progress)
    ensures Hampered(w0, w', g, luck)
  {
    if Holds(w.co.progress, g, Poisoned) {
      assert SameSlot(w.co.progress[g], w'.co.progress[g]);
    }
  }

  // The commit loop has reached index i.
  ghost predicate Committing(w0: World, w: World, q: seq<Gen>, i: nat, combined: Error, luck: Luck)
    requires i <= |q|
  {
    && Settles(w0, w) && (forall k | i <= k < |q| :: q[k] in w.co.progress)
    && (forall k | i <= k < |q| && q[k] in w0.wal.prepared :: q[k] in w.wal.prepared)
    && RouteErr !in combined && FlushErr !in combined
    && (forall k | 0 <= k < i && WholeAt(w0.co.progress, q[k]) && (combined == {} || Fortunate(w0, w, q[k], luck)) ::
          DoneWith(w.co.progress, q[k]))
    && (combined != {} ==> exists k :: 0 <= k < i && Hampered(w0, w, q[k], luck))
  }

  ghost predicate Fortunate(w0: World, w: World, g: Gen, luck: Luck) {
    !w.wal.closed && g in w0.wal.prepared && luck.With(g)
  }

  lemma NextCommitted(w0: World, w: World, w': World, q: seq<Gen>, i: nat, sofar: Error, combined: Error, luck: Luck)
    requires i < |q| && Distinct(q) && Committing(w0, w, q, i, sofar, luck) && Settles(w, w') && Settles(w0, w')
    requires sofar <= combined && RouteErr !in combined && FlushErr !in combined
    requires w.co.progress.Keys - {q[i]} <= w'.co.progress.Keys && w.wal.prepared.Keys - {q[i]} <= w'.wal.prepared.Keys
    requires WholeAt(w0.co.progress, q[i]) && (combined == {} || Fortunate(w0, w', q[i], luck)) ==> DoneWith(w'.co.progress, q[i])
    requires sofar == {} && combined != {} ==> Hampered(w0, w', q[i], luck)
    ensures Committing(w0, w', q, i + 1, combined, luck)
  {
    if sofar != {} {
      var k :| 0 <= k < i && Hampered(w0, w, q[k], luck);
      HamperedStays(w0, w, w', q[k], luck);
    }
    forall k | 0 <= k < i && WholeAt(w0.co.progress, q[k]) && (combined == {} || Fortunate(w0, w', q[k], luck))
      ensures DoneWith(w'.co.progress, q[k])
    {
      DoneStays(w, w', q[k]);
    }
  }

  // Some entry of provider p was refused for lack of room.
  ghost predicate PushedBack(cfg: Config, window: map<Gen, Progress>, replies: map<Gen, Reply>, p: Provider) {
    exists g :: g in window && cfg.ProviderOf(window[g].entry) == Some(p) && ReplyOf(replies, g).PushesBack()
  }

  // The application loop has served everything before index i.
  ghost predicate Applying(w0: World, w: World, q: seq<Gen>, i: nat, blocked: set<Provider>, replies: map<Gen, Reply>)
    requires i <= |q|
  {
    && Applies(w0, w) && (forall g :: g in q <==> g in w.co.progress)
    && (forall j, k | 0 <= j < k < |q| :: w.co.progress[q[j]].order <= w.co.progress[q[k]].order)
    && (forall k | 0 <= k < i :: Served(w.cfg, w.co.progress, q[k], blocked))
    && (forall k | 0 <= k < i :: !Holds(w0.co.progress, q[k], Poisoned))
    && (forall k | i <= k < |q| && Holds(w0.co.progress, q[k], Poisoned) :: Holds(w.co.progress, q[k], Poisoned))
    && (forall p | p in blocked :: PushedBack(w.cfg, w.co.progress, replies, p))
  }

  // What was served or poisoned, and in which order, stays so while q[i] has its turn.
  lemma NextApplied(w0: World, w: World, w': World, q: seq<Gen>, i: nat, was: set<Provider>, blocked: set<Provider>, replies: map<Gen, Reply>)
    requires i < |q| && Distinct(q) && Applying(w0, w, q, i, was, replies)
    requires AppliesOne(w, w', q[i]) && Applies(w0, w') && was <= blocked
    requires Served(w.cfg, w'.co.progress, q[i], blocked) && !Holds(w.co.progress, q[i], Poisoned)
    requires forall p | p in blocked :: PushedBack(w'.cfg, w'.co.progress, replies, p)
    ensures Applying(w0, w', q, i + 1, blocked, replies)
  {
    StillServed(w, w', q, i, was, blocked);
    StillOrdered(w, w', q, i);
  }

  lemma StillServed(w: World, w': World, q: seq<Gen>, i: nat, was: set<Provider>, blocked: set<Provider>)
    requires i < |q| && Distinct(q) && AppliesOne(w, w', q[i]) && was <= blocked
    requires forall k | 0 <= k < i :: Served(w.cfg, w.co.progress, q[k], was)
    ensures forall k | 0 <= k < i :: Served(w.cfg, w'.co.progress, q[k], blocked)
  {
    forall k | 0 <= k < i ensures Served(w.cfg, w'.co.progress, q[k], blocked) {
      ServedStays(w, w', q[i], q[k], was, blocked);
    }
  }

  lemma StillOrdered(w: World, w': World, q: seq<Gen>, i: nat)
    requires i < |q| && Distinct(q) && AppliesOne(w, w', q[i]) && forall k | 0 <= k < |q| :: q[k] in w.co.progress
    requires forall j, k | 0 <= j < k < |q| :: w.co.progress[q[j]].order <= w.co.progress[q[k]].order
    ensures forall j, k | 0 <= j < k < |q| :: w'.co.progress[q[j]].order <= w'.co.progress[q[k]].order
    ensures forall k | i < k < |q| && Holds(w.co.progress, q[k], Poisoned) :: Holds(w'.co.progress, q[k], Poisoned)
  {
    forall k | 0 <= k < |q| ensures w'.co.progress[q[k]].order == w.co.progress[q[k]].order {
      assert SameEntry(w.co.progress[q[k]], w'.co.progress[q[k]]);
    }
    forall k | i < k < |q| && Holds(w.co.progress, q[k], Poisoned) ensures Holds(w'.co.progress, q[k], Poisoned) {
      assert SameSlot(w.co.progress[q[k]], w'.co.progress[q[k]]);
    }
  }

  lemma AllPushedBack(w: World, w': World, replies: map<Gen, Reply>, was: set<Provider>, blocked: set<Provider>, g: Gen)
    requires AppliesOne(w, w', g) && g in w.co.progress
    requires forall p | p in was :: PushedBack(w.cfg, w.co.progress, replies, p)
    requires blocked != was ==> BlockedBy(w.cfg, w'.co.progress[g].entry, ReplyOf(replies, g), was, blocked)
    ensures forall p | p in blocked :: PushedBack(w.cfg, w'.co.progress, replies, p)
  {
    forall p | p in blocked ensures PushedBack(w.cfg, w'.co.progress, replies, p) {
      if p in was {
        assert PushedBack(w.cfg, w.co.progress, replies, p);
        var h :| h in w.co.progress && w.cfg.ProviderOf(w.co.progress[h].entry) == Some(p) && ReplyOf(replies, h).PushesBack();
        assert SameEntry(w.co.progress[h], w'.co.progress[h]);
      } else {
        assert g in w'.co.progress && w.cfg.ProviderOf(w'.co.progress[g].entry) == Some(p);
      }
    }
  }

  // Every callback this process entered belongs to an entry that was delivered and is off the
  // disk, or to a poisoned receipt.
  ghost predicate AllSettled(w: World) {
    forall i | 0 <= i < |w.hist.entered| ::
      || (w.hist.entered[i].gen !in w.wal.pending && w.hist.entered[i].gen in w.hist.delivered)
      || Holds(w.co.progress, w.hist.entered[i].gen, Poisoned)
  }

  lemma NotFewer(prepared: map<Gen, bool>, g: Gen)
    ensures |prepared| <= |prepared[g := false]|
  {
    assert prepared[g := false].Keys == prepared.Keys + {g};
    assert g !in prepared ==> |prepared.Keys + {g}| == |prepared.Keys| + 1;
    assert g in prepared ==> prepared.Keys + {g} == prepared.Keys;
  }

  // What a fill that began in w has left out by w': of all that could be offered, only what did not
  // fit after the entries offered before it, or came when the window or the tokens were used up.
  ghost predicate Stocked(w: World, w': World, offer: seq<Gen>, tokens: nat) {
    var room, budget := w.cfg.Cap() - |w.co.progress|, w.cfg.maxBytes - Bytes(w.co.progress);
    room > 0 && budget > 0 ==>
      && (forall i | 0 <= i < |offer| :: offer[i] in w'.wal.pending && offer[i] in w'.co.progress)
      && tokens <= |w'.wal.prepared|
      && forall g | Offerable(w'.wal, w.co.progress.Keys, g) ::
           g in offer || PassedOver(g, offer, w'.wal.pending, budget, room, tokens, w.cfg.Cap())
  }

  // A fill that leaves an empty window empty although a token is free found nothing to offer.
  lemma NeverIdle(w: World, w': World, offer: seq<Gen>, tokens: nat)
    requires w.cfg.Valid() && w'.cfg == w.cfg && Stocked(w, w', offer, tokens)
    requires forall g | g in w'.wal.pending :: w'.wal.pending[g].size <= w.cfg.maxBytes
    ensures w.co.progress == map[] && w'.co.progress == map[] && |w'.wal.prepared| < w.cfg.Cap() ==>
              forall g :: !Offerable(w'.wal, {}, g)
  {
    if w.co.progress == map[] && w'.co.progress == map[] && |w'.wal.prepared| < w.cfg.Cap() {
      assert w.co.progress.Keys == {};
      NothingAdmitted(offer, w'.co.progress);
    }
  }

  lemma NothingAdmitted(offer: seq<Gen>, window: map<Gen, Progress>)
    requires forall i | 0 <= i < |offer| :: offer[i] in window
    ensures window == map[] ==> offer == []
  {
    if offer != [] {
      assert offer[0] in window;
    }
  }

  // What the program does next does not depend on what it has forgotten.
  lemma HistoryIsBlind(w: World, s: OutsideStep)
    requires OutsideEnabled(w, s)
    ensures var seen := OutsideAfter(w.(hist := NO_HISTORY), s);
            seen.(hist := OutsideAfter(w, s).hist) == OutsideAfter(w, s)
  {}

  // Every entry of the window has a receipt, or its provider has pushed back.
  ghost predicate AllServed(w: World, replies: map<Gen, Reply>) {
    forall g | g in w.co.progress ::
      || w.co.progress[g].receipt.Some?
      || (w.co.progress[g].entry.route in w.cfg.routes
          && PushedBack(w.cfg, w.co.progress, replies, w.cfg.routes[w.co.progress[g].entry.route]))
  }

  lemma Fewer(pending: map<Gen, Entry>, g: Gen)
    ensures |pending - {g}| <= |pending|
  {
    assert (pending - {g}).Keys == pending.Keys - {g};
  }

  // The next of an offer takes one place and its own bytes.
  lemma RoomForNext(window: map<Gen, Progress>, pending: map<Gen, Entry>, q: seq<Gen>, i: nat, order: nat)
    requires i < |q| && q[i] !in window && forall k | 0 <= k < |q| :: q[k] in pending
    ensures Sizes(q[i..], pending) == pending[q[i]].size + Sizes(q[i + 1..], pending)
    ensures var now := window[q[i] := Progress(pending[q[i]], order, false, None)];
            |now| == |window| + 1 && Bytes(now) == Bytes(window) + pending[q[i]].size
  {
    assert q[i..][0] == q[i] && q[i..][1..] == q[i + 1..];
    BytesAdd(window, q[i], Progress(pending[q[i]], order, false, None));
  }

  class Coordinator {
    const cfg: Config
    // the store and the providers, as far as the coordinator depends on them
    var wal: Wal
    var failing: set<Provider>
    // the coordinator's own fields
    var state: State
    var terminal: bool
    var order: nat
    var progress: map<Gen, Progress>
    var hand: Option<Gen>
    // what has happened, in this process and those before it, from the first configuration on
    ghost const origin: Config
    ghost var hist: History
    ghost var trace: seq<Step>

    // What the code can see.
    function Face(): World
      reads this
    {
      World(cfg, wal, failing, Coord(state, terminal, order, progress, hand), NO_HISTORY)
    }

    ghost function Now(): World
      reads this
    {
      Face().(hist := hist)
    }

    ghost predicate Valid()
      reads this
    {
      cfg.Valid() && origin.Valid() && Now() == Exec(EmptyWorld(origin), trace)
    }

    // The next process, with its own configuration, over the directory a crashed one left: whatever
    // was not durable may be gone, nothing of the old window is left, and the run goes on.
    constructor Reopen(config: Config, was: World, ghost start: Config, ghost run: seq<Step>, lostEntries: set<Gen>, lostMarks: set<Gen>)
      requires start.Valid() && was == Exec(EmptyWorld(start), run)
      requires Enabled(was, Crash(lostEntries, lostMarks, config))
      ensures Valid() && cfg == config && trace == run + [Crash(lostEntries, lostMarks, config)]
      ensures Now() == Restart(was, lostEntries, lostMarks, config) && hand.None? && !terminal && progress == map[]
      ensures forall g | g in was.hist.acked && Waiting(was, g) :: Waiting(Now(), g) && g in wal.durable
    {
      cfg := config;
      var w := Restart(was, lostEntries, lostMarks, config);
      wal := w.wal;
      failing := {};
      state, terminal, order, progress, hand := Replaying, false, 0, map[], None;
      origin, hist, trace := start, w.hist, run + [Crash(lostEntries, lostMarks, config)];
      new;
      ExecSnoc(EmptyWorld(start), run, Crash(lostEntries, lostMarks, config));
      InvAlways(start, run);
    }

    constructor (config: Config)
      requires config.Valid()
      ensures Valid() && cfg == config && trace == [] && Now() == EmptyWorld(config)
    {
      cfg := config;
      wal := EmptyWorld(config).wal;
      failing := {};
      state, terminal, order, progress, hand := Replaying, false, 0, map[], None;
      origin, hist, trace := config, NO_HISTORY, [];
    }

    lemma Sound()
      requires Valid()
      ensures Inv(Now())
    {
      InvAlways(origin, trace);
    }

    lemma SoftAreMarked()
      requires Valid()
      ensures wal.soft <= wal.marked
    {
      Sound();
    }

    lemma WindowIsOld(g: Gen)
      requires Valid() && g in progress
      ensures g < wal.next
    {
      Sound();
    }

    lemma EnvSound(s: Step)
      requires Valid() && IsEnv(s) && Enabled(Now(), s)
      ensures EnvKeeps(Now(), After(Now(), s))
    {
      Sound();
      EnvStepKeeps(Now(), s);
    }

    ghost method Certify(before: World, s: Step)
      requires cfg.Valid() && origin.Valid() && before == Exec(EmptyWorld(origin), trace)
      requires Enabled(before, s) && Now() == After(before, s)
      modifies this`trace
      ensures Valid() && trace == old(trace) + [s]
    {
      ExecSnoc(EmptyWorld(origin), trace, s);
      trace := trace + [s];
    }

    /* ---------------------------------------------------- what others do meanwhile */

    method TakeOutside(s: OutsideStep)
      requires Valid() && OutsideEnabled(Now(), s)
      modifies this
      ensures Valid() && trace == old(trace) + [Outside(s)]
      ensures Now() == OutsideAfter(old(Now()), s) && EnvKeeps(old(Now()), Now())
    {
      EnvSound(Outside(s));
      ghost var before := Now();
      HistoryIsBlind(before, s);
      var w := OutsideAfter(Face(), s);
      wal, failing, state, progress := w.wal, w.failing, w.co.state, w.co.progress;
      hist := OutsideAfter(before, s).hist;
      Certify(before, Outside(s));
    }

    method TakeStorage(s: StorageStep)
      requires Valid() && StorageEnabled(Now(), s)
      modifies this`wal, this`hist, this`trace
      ensures Valid() && trace == old(trace) + [Storage(s)]
      ensures wal == StorageWal(old(wal), s) && hist == StorageHist(old(hist), s)
    {
      ghost var before := Now();
      wal, hist := StorageWal(wal, s), StorageHist(hist, s);
      Certify(before, Storage(s));
    }

    method TakeCleanup(g: Gen)
      requires Valid() && g in wal.marked
      modifies this
      ensures Valid() && old(trace) <= trace && EnvKeeps(old(Now()), Now())
    {
      var s := if g in wal.pending then Unlink(g) else Unmark(g);
      EnvSound(Storage(s));
      TakeStorage(s);
    }

    // Any number of steps by receivers, delivery and shutdown.
    method Interfere()
      requires Valid()
      modifies this
      ensures Valid() && old(trace) <= trace && EnvKeeps(old(Now()), Now())
    {
      var budget: int := *;
      var n := if budget < 0 then 0 else budget;
      for i := 0 to n
        invariant Valid() && old(trace) <= trace && EnvKeeps(old(Now()), Now())
      {
        ghost var w := Now();
        var s: OutsideStep := *;
        var g: Gen := *;
        if OutsideEnabled(Face(), s) {
          TakeOutside(s);
        } else if g in wal.marked {
          TakeCleanup(g);
        } else {
          ghost var acked: Gen := *;
          ghost var p: Provider := *;
          SomeAck(acked, p);
        }
        EnvTrans(old(Now()), w, Now());
      }
    }

    // A receiver that has passed its second look answers its sender.  The coordinator does not
    // notice.
    ghost method SomeAck(g: Gen, p: Provider)
      requires Valid()
      modifies this`hist, this`trace
      ensures Valid() && old(trace) <= trace && EnvKeeps(old(Now()), Now())
    {
      if OutsideEnabled(Now(), Ack(g, p)) {
        EnvSound(Outside(Ack(g, p)));
        var before := Now();
        hist := OutsideAfter(before, Ack(g, p)).hist;
        Certify(before, Outside(Ack(g, p)));
      }
    }

    // The same, for callers to whom only the window matters.
    method Pause()
      requires Valid()
      modifies this
      ensures Valid() && old(trace) <= trace && Lull(old(Now()), Now())
      ensures wal.prepared == old(wal.prepared) && wal.marked <= old(wal.marked)
      ensures forall g | Off(old(Now()), g) :: Off(Now(), g)
    {
      Interfere();
    }

    // The same, for the expiry walk at a candidate.
    method PauseAt(g: Gen)
      requires Valid() && Candidate(Now(), g)
      modifies this
      ensures Valid() && old(trace) <= trace && Expires(old(Now()), Now(), {}, {})
      ensures Candidate(Now(), g) && wal.pending[g] == old(wal.pending)[g]
    {
      Interfere();
      EnvExpires(old(Now()), Now());
    }

    method CtxErr(alive: bool) returns (err: Error)
      ensures err == {} || err == {Canceled} || err == {Deadline}
      ensures alive ==> err == {}
    {
      var done: bool := *;
      var timeout: bool := *;
      err := if alive || !done then {} else if timeout then {Deadline} else {Canceled};
    }

    // A failure of the storage layer below the coordinator.
    method StorageErr() returns (err: Error)
      ensures err != {} && ApplyErr !in err && RouteErr !in err && FlushErr !in err
    {
      var kind: Err := *;
      err := if kind.ApplyErr? || kind.RouteErr? || kind.FlushErr? then {Other} else {kind};
    }

    method SetState(x: State)
      requires Valid() && x != Stopped
      modifies this
      ensures Valid() && old(trace) <= trace && EnvKeeps(old(Now()), Now())
      ensures state == NextState(old(state), x) && wal == old(wal)
    {
      TakeOutside(OutsideStep.SetState(x));
    }
  
    /* ----------------------------------------------------------------- completion */

    // Remove a completed entry, then its marker.
    method Cleanup(g: Gen, fault: Fault) returns (err: Error)
      requires Valid() && g in wal.marked
      modifies this`wal, this`hist, this`trace
      ensures Valid() && old(trace) <= trace && hist == old(hist)
      ensures g in old(wal.pending) ==>
                (err == {} <==> !fault.BeforeUnlink? && !fault.BeforeUnmark? && !fault.AfterUnmark?)
      ensures fault.NoFault? ==> err == {}
      ensures err == {} ==> g !in wal.pending && g !in wal.marked
      ensures ApplyErr !in err && RouteErr !in err && FlushErr !in err
      ensures wal.pending == old(wal.pending) || wal.pending == old(wal.pending) - {g}
      ensures wal == old(wal).(pending := wal.pending, durable := wal.durable, marked := wal.marked, soft := wal.soft)
      ensures wal.soft <= old(wal.soft) && wal.marked <= old(wal.marked) && old(wal.marked) <= wal.marked + {g}
      ensures wal.durable <= old(wal.durable) <= wal.durable + {g} && (err == {} ==> g !in wal.soft)
      ensures g in wal.pending ==> g in wal.marked
    {
      err := {};
      if g in wal.pending {
        if fault.BeforeUnlink? {
          err := StorageErr();
          return;
        }
        TakeStorage(Unlink(g));
      }
      if fault.BeforeUnmark? {
        err := StorageErr();
        return;
      }
      TakeStorage(Unmark(g));
      if fault.AfterUnmark? {
        err := StorageErr();
      }
    }
  
    // Write the completion marker of a waiting entry, or pick up one already there, and clean up.
    // The entry counts as retired from the moment the marker takes effect, error or not.
    method CommitGeneration(g: Gen, cause: Cause, fault: Fault) returns (err: Error)
      requires Valid()
      requires if cause.ByDelivery? then g in progress && g in hist.ripe
               else g !in wal.prepared && g !in progress && (g in wal.pending ==> wal.pending[g].route in cfg.routes)
      modifies this`wal, this`hist, this`trace
      ensures Valid() && old(trace) <= trace
      ensures ApplyErr !in err && RouteErr !in err && FlushErr !in err
      ensures wal == old(wal).(pending := wal.pending, durable := wal.durable, marked := wal.marked, soft := wal.soft)
      ensures wal.pending == old(wal.pending) || wal.pending == old(wal.pending) - {g}
      ensures wal.marked <= old(wal.marked) + {g} && old(wal.marked) <= wal.marked + {g}
      ensures err == {} ==> g !in wal.pending && g !in wal.marked && g !in wal.soft
      ensures old(Waiting(Now(), g)) && !wal.closed ==> (err == {} <==> fault.NoFault?)
      ensures fault.NoFault? && !wal.closed ==> err == {}
      ensures old(Waiting(Now(), g)) && fault.BeforeMark? ==> wal == old(wal)
      ensures
        var took := old(Waiting(Now(), g)) && !wal.closed && !fault.BeforeMark?;
        hist == if !took then old(hist)
                else if cause.ByDelivery? then old(hist).(delivered := old(hist.delivered) + {g})
                else if fault.NoFault? then
                  old(hist).(expired := old(hist.expired) + {g}, owed := old(hist.owed) + {g})
                else old(hist).(expired := old(hist.expired) + {g}, cut := old(hist.cut) + {g})
    {
      err := {};
      SoftAreMarked();
      if wal.closed {
        err := {Closed};
      } else if g in wal.marked {
        err := Cleanup(g, fault);
      } else if g in wal.pending {
        if fault.BeforeMark? {
          err := StorageErr();
          return;
        }
        if g !in wal.durable {
          ghost var before := Now();
          wal := wal.(durable := wal.durable + {g});
          Certify(before, Outside(Sync(g)));
        }
        err := MarkAndClean(g, cause, fault);
      }
    }

    // The marker, then the cleanup.  An expiry that breaks off after the marker has lost its report.
    method MarkAndClean(g: Gen, cause: Cause, fault: Fault) returns (err: Error)
      requires Valid() && Waiting(Now(), g) && g in wal.durable && !fault.BeforeMark?
      requires if cause.ByDelivery? then g in progress && g in hist.ripe
               else g !in wal.prepared && g !in progress && (g in wal.pending ==> wal.pending[g].route in cfg.routes)
      modifies this`wal, this`hist, this`trace
      ensures Valid() && old(trace) <= trace
      ensures ApplyErr !in err && RouteErr !in err && FlushErr !in err
      ensures wal == old(wal).(pending := wal.pending, durable := wal.durable, marked := wal.marked, soft := wal.soft)
      ensures wal.pending == old(wal.pending) || wal.pending == old(wal.pending) - {g}
      ensures wal.marked <= old(wal.marked) + {g} && old(wal.marked) <= wal.marked + {g}
      ensures err == {} ==> g !in wal.pending && g !in wal.marked && g !in wal.soft
      ensures err == {} <==> fault.NoFault?
      ensures hist == if cause.ByDelivery? then old(hist).(delivered := old(hist.delivered) + {g})
                      else if fault.NoFault? then
                        old(hist).(expired := old(hist.expired) + {g}, owed := old(hist.owed) + {g})
                      else old(hist).(expired := old(hist.expired) + {g}, cut := old(hist.cut) + {g})
    {
      WaitingIsNew(g);
      TakeStorage(Mark(g, cause, fault.MarkUncertain?));
      if fault.MarkUncertain? {
        err := StorageErr();
        return;
      }
      err := Cleanup(g, fault);
      if err != {} && cause.ByExpiry? {
        TakeStorage(CutOff(g));
        assert old(hist.owed) + {g} - {g} == old(hist.owed);
      }
    }

    lemma WaitingIsNew(g: Gen)
      requires Valid() && Waiting(Now(), g)
      ensures Untouched(Now(), g) && wal.soft <= wal.marked
    {
      Sound();
    }

    // The only way a prepared entry is completed; true means it is durably gone.
    method CommitPrepared(g: Gen, luck: Luck) returns (retired: bool, err: Error)
      requires Valid() && g in progress && g in hist.ripe
      modifies this
      ensures Valid() && old(trace) <= trace && Settles(old(Now()), Now())
      ensures progress.Keys == old(progress.Keys) && wal.prepared.Keys == old(wal.prepared.Keys)
      ensures luck.With(g) && !wal.closed && g in wal.prepared ==> retired
      ensures retired <==> err == {}
      ensures retired ==> g in wal.prepared && wal.prepared[g]
      ensures ApplyErr !in err && RouteErr !in err && FlushErr !in err
    {
      retired := false;
      err := CtxErr(luck.alive);
      if err != {} {
        return;
      }
      Pause();
      if wal.closed {
        err := {Closed};
        return;
      }
      if g !in wal.prepared {
        err := {Other};
        return;
      }
      if wal.prepared[g] {
        retired := true;
        return;
      }
      retired, err := Complete(g, luck);
    }

    // Complete a registered entry and check the directory that nothing of it is left.
    method Complete(g: Gen, luck: Luck) returns (retired: bool, err: Error)
      requires Valid() && g in progress && g in hist.ripe && g in wal.prepared
      modifies this
      ensures Valid() && old(trace) <= trace && Settles(old(Now()), Now())
      ensures progress.Keys == old(progress.Keys) && wal.prepared.Keys == old(wal.prepared.Keys)
      ensures luck.With(g) && !wal.closed ==> retired
      ensures retired <==> err == {}
      ensures retired ==> g in wal.prepared && wal.prepared[g]
      ensures ApplyErr !in err && RouteErr !in err && FlushErr !in err
    {
      retired := false;
      WindowIsOld(g);
      err := CommitGeneration(g, ByDelivery, luck.FaultOf(g));
      if err != {} {
        return;
      }
      assert Off(Now(), g);
      Pause();
      if g in luck.unread {
        err := StorageErr();
        return;
      }
      if g !in wal.pending && g !in wal.marked {
        TakeStorage(Retire(g));
        retired := true;
      }
    }

    // Give back the token and the receipt of a retired entry, and forget it.
    method ReleaseProgress(g: Gen) returns (err: Error)
      requires Valid() && g in progress && progress[g].receipt.Some? && hand.None?
      modifies this
      ensures Valid() && old(trace) <= trace && Settles(old(Now()), Now())
      ensures old(progress.Keys) - {g} <= progress.Keys && old(wal.prepared.Keys) - {g} <= wal.prepared.Keys
      ensures wal.marked <= old(wal.marked)
      ensures err == {} <==> g !in progress
      ensures WholeAt(old(progress), g) && g in old(wal.prepared) && old(wal.prepared)[g] ==> DoneWith(progress, g)
      ensures RouteErr !in err && FlushErr !in err
    {
      ghost var w0 := Now();
      if g !in wal.prepared || !wal.prepared[g] {
        err := {Other};
        return;
      }
      TakeStorage(Release(g));
      ghost var mid := Now();
      err := GiveUp(g);
      SettlesTrans(w0, mid, Now());
    }

    method GiveUp(g: Gen) returns (err: Error)
      requires Valid() && g in progress && progress[g].receipt.Some? && hand.None? && g !in wal.prepared
      modifies this
      ensures Valid() && old(trace) <= trace && Settles(old(Now()), Now())
      ensures old(progress.Keys) - {g} <= progress.Keys && wal.prepared == old(wal.prepared) && wal.marked <= old(wal.marked)
      ensures err == {} <==> g !in progress
      ensures WholeAt(old(progress), g) ==> DoneWith(progress, g)
      ensures RouteErr !in err && FlushErr !in err
    {
      ghost var w0 := Now();
      Pause();
      DoneStays(w0, Now(), g);
      if !progress[g].receipt.value.Eligible() {
        err := {ApplyErr};
        return;
      }
      ghost var before := Now();
      progress := progress - {g};
      Certify(before, Worker(Forget(g)));
      err := {};
    }

    // The store's notice that a registered generation was retired while cleaning up.
    method ObserveCommit(g: Gen)
      requires Valid() && hand.None?
      modifies this
      ensures Valid() && old(trace) <= trace && Settles(old(Now()), Now())
      ensures old(progress.Keys) - {g} <= progress.Keys && wal.marked <= old(wal.marked)
      ensures WholeAt(old(progress), g) && g in old(wal.prepared) && old(wal.prepared)[g] ==> DoneWith(progress, g)
    {
      if g in progress && progress[g].receipt.Some? && progress[g].receipt.value.Eligible() {
        var _ := ReleaseProgress(g);
      }
    }

    /* ------------------------------------------------------------------- commit */

    method OrderedWindow() returns (q: seq<Gen>)
      ensures Distinct(q) && forall g :: g in q <==> g in progress
      ensures forall i, j | 0 <= i < j < |q| :: progress[q[i]].order <= progress[q[j]].order
    {
      q := SortBy(progress.Keys, map g | g in progress :: progress[g].order);
    }

    lemma EligibleIsRipe(g: Gen)
      requires Valid() && g in progress && progress[g].receipt.Some? && progress[g].receipt.value.Eligible()
      ensures g in hist.ripe
    {
      Sound();
    }

    method CommitOne(g: Gen, luck: Luck) returns (err: Error)
      requires Valid() && g in progress && hand.None?
      modifies this
      ensures Valid() && old(trace) <= trace && Settles(old(Now()), Now())
      ensures old(progress.Keys) - {g} <= progress.Keys && old(wal.prepared.Keys) - {g} <= wal.prepared.Keys
      ensures err == {} && (WholeAt(old(progress), g) || DoneWith(old(progress), g)) ==> DoneWith(progress, g)
      ensures luck.With(g) && !wal.closed && g in old(wal.prepared) && WholeAt(old(progress), g) ==> DoneWith(progress, g)
      ensures err != {} ==> Hampered(old(Now()), Now(), g, luck)
      ensures RouteErr !in err && FlushErr !in err
    {
      Pause();
      DoneStays(old(Now()), Now(), g);
      err := {};
      if progress[g].receipt.None? || !progress[g].receipt.value.Eligible() {
        return;
      }
      err := CommitWhole(g, luck, old(Now()));
    }

    // Retire an eligible entry, then give it up.
    method CommitWhole(g: Gen, luck: Luck, ghost w0: World) returns (err: Error)
      requires Valid() && hand.None? && Settles(w0, Now()) && w0.wal.prepared == wal.prepared
      requires g in progress && progress[g].receipt.Some? && progress[g].receipt.value.Eligible()
      modifies this
      ensures Valid() && old(trace) <= trace && Settles(w0, Now())
      ensures old(progress.Keys) - {g} <= progress.Keys && w0.wal.prepared.Keys - {g} <= wal.prepared.Keys
      ensures err == {} <==> g !in progress
      ensures luck.With(g) && !wal.closed && g in w0.wal.prepared && WholeAt(old(progress), g) ==> DoneWith(progress, g)
      ensures RouteErr !in err && FlushErr !in err
    {
      EligibleIsRipe(g);
      ghost var start := Now();
      var retired;
      retired, err := CommitPrepared(g, luck);
      SettlesTrans(w0, start, Now());
      DoneStays(start, Now(), g);
      if err == {} && retired {
        ghost var mid := Now();
        err := ReleaseProgress(g);
        DoneStays(mid, Now(), g);
        SettlesTrans(w0, mid, Now());
      }
    }

    // Finish every receipt of the window whose delivery is over.  Without an error none is left; and
    // whatever goes wrong with one does not stop another.
    method CommitEligible(luck: Luck) returns (combined: Error)
      requires Valid() && hand.None?
      modifies this
      ensures Valid() && old(trace) <= trace && Settles(old(Now()), Now())
      ensures RouteErr !in combined && FlushErr !in combined
      ensures combined == {} ==> forall g | WholeAt(old(progress), g) :: DoneWith(progress, g)
      ensures !wal.closed ==> Lucky(old(Now()), progress, luck)
      ensures combined != {} ==> exists g :: Hampered(old(Now()), Now(), g, luck)
    {
      ghost var w0 := Now();
      combined := {};
      var q := OrderedWindow();
      var i := 0;
      while i < |q|
        invariant 0 <= i <= |q| && Valid() && old(trace) <= trace && Committing(w0, Now(), q, i, combined, luck)
      {
        combined := CommitNext(w0, q, i, combined, luck);
        i := i + 1;
      }
    }

    method CommitNext(ghost w0: World, q: seq<Gen>, i: nat, sofar: Error, luck: Luck) returns (combined: Error)
      requires Valid() && hand.None? && i < |q| && Distinct(q) && Committing(w0, Now(), q, i, sofar, luck)
      modifies this
      ensures Valid() && old(trace) <= trace && hand.None? && Committing(w0, Now(), q, i + 1, combined, luck)
    {
      ghost var before := Now();
      DoneStays(w0, before, q[i]);
      var err := CommitOne(q[i], luck);
      SettlesTrans(w0, before, Now());
      combined := sofar + err;
      NextCommitted(w0, before, Now(), q, i, sofar, combined, luck);
    }

    // Is some applied receipt still waiting for delivery or retirement?
    method LiveReceipts() returns (live: bool)
      requires Valid()
      modifies this
      ensures Valid() && old(trace) <= trace && Lull(old(Now()), Now())
      ensures !live <==> NoLiveReceipt(Now())
    {
      ghost var w0 := Now();
      live := false;
      var q := OrderedWindow();
      var i := 0;
      while i < |q|
        invariant 0 <= i <= |q| && Valid() && old(trace) <= trace && Lull(w0, Now())
        invariant forall k | 0 <= k < i :: progress[q[k]].receipt.Some? ==> Holds(progress, q[k], Poisoned)
      {
        ghost var before := Now();
        Pause();
        LullTrans(w0, before, Now());
        if progress[q[i]].receipt.Some? && !progress[q[i]].receipt.value.phase.Poisoned? {
          live := true;
          return;
        }
        i := i + 1;
      }
      forall g | g in progress && progress[g].receipt.Some?
        ensures progress[g].receipt.value.phase.Poisoned?
      {
        assert g in q;
      }
    }

    /* ----------------------------------------------------------------- the window */

    // Finish one leftover completion and tell the coordinator.
    method RecoverOne(g: Gen, luck: Luck) returns (err: Error)
      requires Valid() && hand.None?
      modifies this
      ensures Valid() && old(trace) <= trace && Settles(old(Now()), Now())
      ensures wal.marked <= old(wal.marked) && (err == {} ==> g !in wal.marked)
      ensures luck.With(g) && !wal.closed ==> err == {}
      ensures ApplyErr !in err && RouteErr !in err && FlushErr !in err
    {
      Pause();
      err := CtxErr(luck.alive);
      if err == {} && wal.closed {
        err := {Closed};
      }
      if err != {} || g !in wal.marked {
        return;
      }
      err := Cleanup(g, luck.FaultOf(g));
      if err == {} {
        if g in wal.prepared {
          TakeStorage(Retire(g));
        }
        ghost var mid := Now();
        ObserveCommit(g);
        SettlesTrans(old(Now()), mid, Now());
      }
    }

    // Finish every leftover completion.
    method RecoverAll(luck: Luck) returns (err: Error)
      requires Valid() && hand.None?
      modifies this
      ensures Valid() && old(trace) <= trace && Settles(old(Now()), Now())
      ensures err == {} ==> wal.marked == {}
      ensures (forall g | g in old(wal.marked) :: luck.With(g)) && !wal.closed ==> err == {}
      ensures ApplyErr !in err && RouteErr !in err && FlushErr !in err
    {
      ghost var w0 := Now();
      err := {};
      var todo := wal.marked;
      while todo != {}
        invariant Valid() && old(trace) <= trace && Settles(w0, Now()) && err == {}
        invariant wal.marked <= todo <= w0.wal.marked
        decreases |todo|
      {
        var g :| g in todo;
        todo := todo - {g};
        ghost var before := Now();
        err := RecoverOne(g, luck);
        SettlesTrans(w0, before, Now());
        if err != {} {
          return;
        }
      }
      ghost var before := Now();
      Pause();
      SettlesTrans(w0, before, Now());
    }

    ghost predicate Registered(q: seq<Gen>)
      reads this
    {
      forall i | 0 <= i < |q| ::
        && q[i] in wal.pending && q[i] in wal.prepared && !wal.prepared[q[i]]
        && q[i] !in progress
    }

    // Storage-only recovery, then a window of originals in sequence order.
    method PrepareWindow(maxEntries: nat, maxBytes: nat, held: set<Gen>, luck: Luck)
      returns (result: seq<Gen>, err: Error, ghost tokens: nat)
      requires Valid() && hand.None? && !terminal && progress.Keys <= held
      requires 0 < maxEntries && 0 < maxBytes <= MAX_INT64
      modifies this
      ensures Valid() && old(trace) <= trace && Settles(old(Now()), Now())
      ensures |result| <= maxEntries && Ascending(result) && Registered(result)
      ensures Sizes(result, wal.pending) <= maxBytes
      ensures err == {} ==> wal.marked == {}
      ensures luck.Fair() && !wal.closed && held <= old(wal.prepared.Keys) ==> err == {}
      ensures err == {} ==> tokens <= |wal.prepared|
      ensures err == {} ==>
                forall g | Offerable(wal, held, g) ::
                  g in result || PassedOver(g, result, wal.pending, Min(maxBytes, cfg.maxBytes), Min(maxEntries, cfg.Cap()),
                                            tokens, cfg.Cap())
      ensures err == {} && result == [] && |wal.prepared| < cfg.Cap() ==>
                forall g | Offerable(wal, held, g) :: wal.pending[g].size > Min(maxBytes, cfg.maxBytes)
      ensures ApplyErr !in err && RouteErr !in err && FlushErr !in err
    {
      result, tokens := [], 0;
      err := CtxErr(luck.alive);
      if err != {} {
        return;
      }
      Pause();
      if wal.closed {
        err := {Closed};
        return;
      }
      if !(held <= wal.prepared.Keys) {
        err := {Other};
        return;
      }
      ghost var before := Now();
      err := RecoverAll(luck);
      SettlesTrans(old(Now()), before, Now());
      if err != {} {
        return;
      }
      if luck.broken {
        err := StorageErr();
        return;
      }
      result := SelectWindow(cfg, wal, held, maxEntries, maxBytes);
      tokens := |wal.prepared|;
      RegisterAll(result);
    }

    method RegisterAll(q: seq<Gen>)
      requires Valid() && !terminal && Ascending(q)
      requires forall i | 0 <= i < |q| :: q[i] in wal.pending && Offerable(wal, progress.Keys, q[i])
      modifies this`wal, this`hist, this`trace
      ensures Valid() && old(trace) <= trace && hist == old(hist) && Registered(q)
      ensures wal == old(wal).(prepared := wal.prepared) && (q == [] ==> wal == old(wal))
      ensures |old(wal.prepared)| <= |wal.prepared|
    {
      ghost var was, h := wal, hist;
      var i := 0;
      while i < |q|
        invariant 0 <= i <= |q| && Valid() && old(trace) <= trace && hist == h && Registering(was, q, i)
      {
        assert Offerable(was, progress.Keys, q[i]);
        RegisterOne(q[i]);
        i := i + 1;
      }
    }

    // The first i of q have their tokens, and nothing else of the store has changed.
    ghost predicate Registering(was: Wal, q: seq<Gen>, i: nat)
      reads this
      requires i <= |q|
    {
      && wal == was.(prepared := wal.prepared) && |was.prepared| <= |wal.prepared| && (i == 0 ==> wal == was)
      && forall k | 0 <= k < i :: q[k] in wal.prepared && !wal.prepared[q[k]]
    }

    method RegisterOne(g: Gen)
      requires Valid() && !terminal && Offerable(wal, progress.Keys, g)
      modifies this`wal, this`hist, this`trace
      ensures Valid() && old(trace) <= trace && hist == old(hist)
      ensures wal == old(wal).(prepared := old(wal.prepared)[g := false]) && |old(wal.prepared)| <= |wal.prepared|
    {
      NotFewer(wal.prepared, g);
      TakeStorage(Register(g));
    }

    lemma WindowFacts()
      requires Valid()
      ensures |progress| <= cfg.Cap() && Bytes(progress) <= cfg.maxBytes
    {
      Sound();
    }

    // Bytes held by the window, in the source's 64-bit budget arithmetic.  The budget can
    // never be exceeded: the over-budget branch of the loop is dead.
    method UsedBytes() returns (used: int64)
      requires Valid()
      ensures used as int == Bytes(progress) <= cfg.maxBytes
    {
      WindowFacts();
      used := 0;
      var rest := progress;
      while rest != map[]
        invariant used as int + Bytes(rest) == Bytes(progress) && 0 <= used as int
        decreases |rest|
      {
        var g :| g in rest;
        if rest[g].entry.size > (cfg.maxBytes as int64 - used) as int {
          BytesAt(rest, g);
          assert false;
        }
        BytesAt(rest, g);
        assert rest.Keys == (rest - {g}).Keys + {g};
        used := used + rest[g].entry.size as int64;
        rest := rest - {g};
      }
    }

    method AdmitOne(g: Gen)
      requires Valid() && !terminal && g !in progress
      requires g in wal.pending && g in wal.prepared && !wal.prepared[g]
      requires |progress| < cfg.Cap() && Bytes(progress) + wal.pending[g].size <= cfg.maxBytes
      modifies this`progress, this`order, this`trace
      ensures Valid() && old(trace) <= trace && order == old(order) + 1
      ensures progress == old(progress)[g := Progress(wal.pending[g], order, false, None)]
    {
      ghost var before := Now();
      order := order + 1;
      progress := progress[g := Progress(wal.pending[g], order, false, None)];
      Certify(before, Worker(Admit(g)));
    }

    // What is left of an offer, from index i on, still fits the window.
    ghost predicate Room(q: seq<Gen>, i: nat)
      reads this
      requires i <= |q| && forall k | 0 <= k < |q| :: q[k] in wal.pending
    {
      |progress| + (|q| - i) <= cfg.Cap() && Bytes(progress) + Sizes(q[i..], wal.pending) <= cfg.maxBytes
    }

    // The first i of the offer have joined the window that was there.
    ghost predicate Joining(was: map<Gen, Progress>, from: nat, q: seq<Gen>, i: nat)
      reads this
      requires i <= |q| && forall k | 0 <= k < |q| :: q[k] in wal.pending
    {
      order == from + i && progress == Admitted(was, wal.pending, q[..i], from) && Room(q, i)
    }

    method AdmitNext(ghost was: map<Gen, Progress>, ghost from: nat, q: seq<Gen>, i: nat)
      requires Valid() && !terminal && i < |q| && Ascending(q)
      requires forall k | 0 <= k < |q| :: q[k] in wal.pending && q[k] !in was && q[k] in wal.prepared && !wal.prepared[q[k]]
      requires Joining(was, from, q, i)
      modifies this`progress, this`order, this`trace
      ensures Valid() && old(trace) <= trace && Joining(was, from, q, i + 1)
    {
      AdmittedKeys(was, wal.pending, q, i, from);
      if q[i] in progress {
        assert false;
      }
      RoomForNext(progress, wal.pending, q, i, order + 1);
      AdmittedNext(was, wal.pending, q, i, from);
      AdmitOne(q[i]);
    }

    // Admit the offered entries; the i-th gets the i-th next admission order.
    method AdmitAll(q: seq<Gen>)
      requires Valid() && !terminal && Registered(q) && Ascending(q) && Room(q, 0)
      modifies this`progress, this`order, this`trace
      ensures Valid() && old(trace) <= trace && order == old(order) + |q|
      ensures progress == Admitted(old(progress), wal.pending, q, old(order))
    {
      ghost var was, from := progress, order;
      var i := 0;
      while i < |q|
        invariant 0 <= i <= |q| && Valid() && old(trace) <= trace && Joining(was, from, q, i)
      {
        AdmitNext(was, from, q, i);
        i := i + 1;
      }
      assert q[..|q|] == q;
    }

    method AdmitOffer(q: seq<Gen>)
      requires Valid() && !terminal && Registered(q) && Ascending(q) && Room(q, 0)
      modifies this`progress, this`order, this`trace
      ensures Valid() && old(trace) <= trace && Admits(old(Now()), Now(), q)
    {
      AdmitAll(q);
      AdmittedFacts(old(progress), wal.pending, q, old(order));
    }

    // The window only shrank while it was being filled, so the offer made for the old
    // window fits the new one.
    lemma OfferFits(was: map<Gen, Progress>, q: seq<Gen>, used: nat)
      requires Valid() && forall k | 0 <= k < |q| :: q[k] in wal.pending
      requires forall g | g in progress :: g in was && progress[g].entry == was[g].entry
      requires |q| <= cfg.Cap() - |was| && used == Bytes(was) && used + Sizes(q, wal.pending) <= cfg.maxBytes
      ensures Room(q, 0)
    {
      BytesSub(progress, was);
      assert q[0..] == q;
    }

    // Top the window up from the store.
    method FillWindow(luck: Luck) returns (err: Error, ghost offer: seq<Gen>, ghost tokens: nat)
      requires Valid() && !terminal && hand.None?
      modifies this
      ensures Valid() && old(trace) <= trace && Fills(old(Now()), Now())
      ensures ApplyErr !in err && RouteErr !in err && FlushErr !in err
      ensures luck.Fair() && !wal.closed && old(Held(Now())) ==> err == {}
      ensures forall g, h | g in progress && h in progress && g !in old(progress) && h !in old(progress) && g < h ::
                progress[g].order < progress[h].order
      ensures err == {} && old(progress) == map[] && progress == map[] && |wal.prepared| < cfg.Cap() ==>
                forall g :: !Offerable(wal, {}, g)
      ensures err == {} ==> Stocked(old(Now()), Now(), offer, tokens)
    {
      err, offer, tokens := {}, [], 0;
      var was := progress;
      var used := UsedBytes();
      var remaining := cfg.Cap() - |was|;
      if remaining <= 0 || used as int >= cfg.maxBytes {
        return;
      }
      WindowFacts();
      var entries;
      entries, err, tokens := PrepareWindow(remaining, cfg.maxBytes - used as int, was.Keys, luck);
      offer := entries;
      if err != {} {
        return;
      }
      AdmitEntries(old(Now()), entries, used as int);
      NothingOffered();
      NeverIdle(old(Now()), Now(), offer, tokens);
    }

    // Admit what was offered for the window as it stood in w0; it has only shrunk since.
    method AdmitEntries(ghost w0: World, q: seq<Gen>, ghost used: nat)
      requires Valid() && !terminal && hand.None? && Settles(w0, Now()) && Registered(q) && Ascending(q)
      requires |q| <= cfg.Cap() - |w0.co.progress| && used == Bytes(w0.co.progress)
      requires used + Sizes(q, wal.pending) <= cfg.maxBytes
      modifies this`progress, this`order, this`trace
      ensures Valid() && old(trace) <= trace && Fills(w0, Now()) && forall i | 0 <= i < |q| :: q[i] in progress
      ensures forall g, h | g in progress && h in progress && g !in w0.co.progress && h !in w0.co.progress && g < h ::
                progress[g].order < progress[h].order
    {
      OfferFits(w0.co.progress, q, used);
      ghost var mid := Now();
      AdmitOffer(q);
      SettlesThenAdmits(w0, mid, Now(), q);
      forall g, h | g in progress && h in progress && g !in mid.co.progress && h !in mid.co.progress && g < h
        ensures progress[g].order < progress[h].order
      {
        AdmitsInOrder(mid, Now(), q, g, h);
      }
    }

    // Every entry on disk fits an empty window.
    lemma NothingOffered()
      requires Valid()
      ensures forall g | g in wal.pending :: wal.pending[g].size <= cfg.maxBytes
    {
      Sound();
    }

    /* ------------------------------------------------------------------ application */

    method TakeWorker(s: WorkerStep)
      requires Valid() && WorkerEnabled(Now(), s)
      modifies this`terminal, this`order, this`progress, this`hand, this`hist, this`trace
      ensures Valid() && trace == old(trace) + [Worker(s)]
      ensures Now() == old(Now()).(co := WorkerCo(old(Now()), s), hist := WorkerHist(old(Now()), s))
    {
      ghost var before := Now();
      var co := WorkerCo(Face(), s);
      terminal, order, progress, hand := co.terminal, co.order, co.progress, co.hand;
      hist := WorkerHist(before, s);
      Certify(before, Worker(s));
    }

    // One worker step that concerns g alone.
    method TakeOn(g: Gen, s: WorkerStep)
      requires Valid() && WorkerEnabled(Now(), s) && StepOn(s, g)
      modifies this
      ensures Valid() && old(trace) <= trace && AppliesOne(old(Now()), Now(), g)
      ensures Now() == old(Now()).(co := WorkerCo(old(Now()), s), hist := WorkerHist(old(Now()), s))
    {
      WorkerApplies(Now(), s, g);
      TakeWorker(s);
    }

    ghost function EntryLog(g: Gen): Entered
      reads this
      requires g in progress && cfg.ProviderOf(progress[g].entry).Some?
    {
      Entered(g, cfg.ProviderOf(progress[g].entry).value, progress[g].order)
    }

    // Run the prepared callback under the receipt in hand.  The callback is entered at most
    // here; a refusal before entry gives the receipt back, anything after entry keeps it.
    method ApplyIngress(g: Gen, reply: Reply, alive: bool) returns (outcome: Outcome)
      requires Valid() && !terminal && hand == Some(g) && Holds(progress, g, Reserved)
      requires cfg.ProviderOf(progress[g].entry).Some? && reply.answer.Granted?
      modifies this
      ensures Valid() && old(trace) <= trace && hand.None? && AppliesOne(old(Now()), Now(), g)
      ensures outcome.Applied? ==>
                progress[g].receipt.Some? && hist.entered == old(hist.entered) + [old(EntryLog(g))]
      ensures outcome.Blocked? ==> progress[g].receipt.None? && hist.entered == old(hist.entered)
      ensures outcome.Blocked? ==> reply.PushesBack()
      ensures outcome.Broken? ==> outcome.why != {} && (reply.Trouble() || Holds(progress, g, Poisoned))
      ensures outcome.Broken? ==> FlushErr !in outcome.why
    {
      Interfere();
      EnvApplies(old(Now()), Now(), g);
      ReservedStays(old(Now()), Now(), g);
      ghost var mid := Now();
      if reply.refusal != {} || !progress[g].receipt.value.phase.Reserved? {
        outcome := GiveBack(g, reply, alive);
      } else {
        outcome := RunCallback(g, reply);
      }
      AppliesOneTrans(old(Now()), mid, Now(), g);
    }

    // Nobody but the worker starts a callback, so a receipt in hand is untouched or poisoned.
    lemma ReservedStays(w: World, w': World, g: Gen)
      requires EnvKeeps(w, w') && Holds(w.co.progress, g, Reserved)
      ensures Holds(w'.co.progress, g, Reserved) || Holds(w'.co.progress, g, Poisoned)
    {
      assert SameSlot(w.co.progress[g], w'.co.progress[g]);
    }

    method RunCallback(g: Gen, reply: Reply) returns (outcome: Outcome)
      requires Valid() && !terminal && hand == Some(g) && Holds(progress, g, Reserved)
      requires cfg.ProviderOf(progress[g].entry).Some?
      modifies this
      ensures Valid() && old(trace) <= trace && hand.None? && AppliesOne(old(Now()), Now(), g)
      ensures progress[g].receipt.Some? && hist.entered == old(hist.entered) + [old(EntryLog(g))]
      ensures outcome.Applied? || outcome == Broken({ApplyErr})
      ensures outcome.Broken? ==> reply.fails || Holds(progress, g, Poisoned)
    {
      TakeOn(g, Enter(g));
      ghost var entered := Now();
      outcome := FinishCallback(g, reply);
      AppliesOneTrans(old(Now()), entered, Now(), g);
    }

    // ApplyIngress refused before the callback.
    method GiveBack(g: Gen, reply: Reply, alive: bool) returns (outcome: Outcome)
      requires Valid() && hand == Some(g) && g in progress && progress[g].receipt.Some?
      requires Holds(progress, g, Reserved) || Holds(progress, g, Poisoned)
      modifies this
      ensures Valid() && old(trace) <= trace && hand.None? && AppliesOne(old(Now()), Now(), g)
      ensures !outcome.Applied? && (outcome.Broken? ==> outcome.why != {} && FlushErr !in outcome.why)
      ensures hist.entered == old(hist.entered) && (outcome.Blocked? ==> progress[g].receipt.None?)
      ensures old(Holds(progress, g, Poisoned)) ==> outcome.Broken? && Holds(progress, g, Poisoned)
      ensures !old(Holds(progress, g, Poisoned)) ==> (outcome.Blocked? <==> Backpressure in reply.refusal && !reply.stuck)
      ensures outcome.Broken? && alive ==> outcome.why == {ApplyErr}
    {
      if reply.stuck || !progress[g].receipt.value.phase.Reserved? {
        TakeOn(g, ClearHand);
        outcome := Broken({ApplyErr});
      } else {
        TakeOn(g, Drop(g));
        if Backpressure in reply.refusal {
          outcome := Blocked;
        } else {
          var err := CtxErr(alive);
          outcome := Broken(if err == {} then {ApplyErr} else err);
        }
      }
    }

    // The callback returns, fails or panics.
    method FinishCallback(g: Gen, reply: Reply) returns (outcome: Outcome)
      requires Valid() && hand.None? && Holds(progress, g, Building)
      modifies this
      ensures Valid() && old(trace) <= trace && hand.None? && AppliesOne(old(Now()), Now(), g)
      ensures progress[g].receipt.Some? && hist.entered == old(hist.entered)
      ensures outcome.Applied? || outcome == Broken({ApplyErr})
      ensures outcome.Broken? <==> Holds(progress, g, Poisoned)
      ensures reply.fails ==> outcome.Broken?
    {
      Interfere();
      EnvApplies(old(Now()), Now(), g);
      BuildingStays(old(Now()), Now(), g);
      ghost var mid := Now();
      var r := progress[g].receipt.value;
      if reply.fails {
        TakeOutside(Advance(g, r.(phase := Poisoned)));
        EnvApplies(mid, Now(), g);
        outcome := Broken({ApplyErr});
      } else if !r.phase.Building? {
        outcome := Broken({ApplyErr});
      } else {
        SealCallback(g, reply.quiet);
        outcome := Applied;
      }
      AppliesOneTrans(old(Now()), mid, Now(), g);
    }

    lemma BuildingStays(w: World, w': World, g: Gen)
      requires EnvKeeps(w, w') && Holds(w.co.progress, g, Building)
      ensures Holds(w'.co.progress, g, Building) || Holds(w'.co.progress, g, Poisoned)
    {
      assert SameSlot(w.co.progress[g], w'.co.progress[g]);
    }

    // The callback succeeded: the receipt is ready for delivery, or delivered if nothing is left to
    // deliver, and the work is dropped.
    method SealCallback(g: Gen, quiet: bool)
      requires Valid() && hand.None? && Holds(progress, g, Building)
      modifies this
      ensures Valid() && old(trace) <= trace && hand.None? && AppliesOne(old(Now()), Now(), g)
      ensures var r := old(progress)[g].receipt.value;
              var phase := if r.metricOk && (r.logOk || quiet) then Delivered else Ready;
              progress[g].receipt == Some(Receipt(phase, r.metricOk, r.logOk || quiet)) && !progress[g].work
      ensures hist.entered == old(hist.entered)
    {
      TakeOn(g, Finish(g, quiet));
      ghost var ready := Now();
      TakeOn(g, ClearWork(g));
      AppliesOneTrans(old(Now()), ready, Now(), g);
    }

    // Prepare (once), reserve and apply one entry that has no receipt yet.
    method ApplyEntry(g: Gen, reply: Reply, alive: bool) returns (outcome: Outcome)
      requires Valid() && !terminal && hand.None? && g in progress && progress[g].receipt.None?
      requires cfg.ProviderOf(progress[g].entry).Some? && FifoClear(cfg, progress, g)
      modifies this
      ensures Valid() && old(trace) <= trace && hand.None? && AppliesOne(old(Now()), Now(), g)
      ensures outcome.Applied? ==>
                progress[g].receipt.Some? && hist.entered == old(hist.entered) + [old(EntryLog(g))]
      ensures outcome.Blocked? ==> progress[g].receipt.None? && hist.entered == old(hist.entered)
      ensures outcome.Blocked? ==> reply.PushesBack()
      ensures outcome.Broken? ==> outcome.why != {} && (reply.Trouble() || Holds(progress, g, Poisoned))
      ensures outcome.Broken? ==> FlushErr !in outcome.why
    {
      var err := EnsureWork(g, reply, alive);
      if err != {} {
        outcome := Broken(err);
        return;
      }
      ghost var mid := Now();
      outcome := ReserveAndApply(g, reply, alive);
      AppliesOneTrans(old(Now()), mid, Now(), g);
    }

    // route.prepare, unless an earlier pass already did it.
    method EnsureWork(g: Gen, reply: Reply, alive: bool) returns (err: Error)
      requires Valid() && !terminal && hand.None? && g in progress && progress[g].receipt.None?
      requires FifoClear(cfg, progress, g)
      modifies this
      ensures Valid() && old(trace) <= trace && hand.None? && AppliesOne(old(Now()), Now(), g)
      ensures hist.entered == old(hist.entered) && progress[g].receipt.None? && FifoClear(cfg, progress, g)
      ensures err == {} ==> progress[g].work
      ensures old(progress)[g].work ==> err == {} && hist.prepares == old(hist.prepares)
      ensures !old(progress)[g].work ==> (err == {} <==> reply.prepared)
      ensures FlushErr !in err && (err != {} && alive ==> err == {ApplyErr})
    {
      err := {};
      Interfere();
      EnvApplies(old(Now()), Now(), g);
      if progress[g].work {
        return;
      }
      ghost var mid := Now();
      if reply.prepared {
        TakeOn(g, Prepare(g));
        AppliesOneTrans(old(Now()), mid, Now(), g);
      } else {
        err := CtxErr(alive);
        if err == {} {
          err := {ApplyErr};
        }
      }
    }

    method ReserveAndApply(g: Gen, reply: Reply, alive: bool) returns (outcome: Outcome)
      requires Valid() && !terminal && hand.None? && g in progress && progress[g].work && progress[g].receipt.None?
      requires cfg.ProviderOf(progress[g].entry).Some? && FifoClear(cfg, progress, g)
      modifies this
      ensures Valid() && old(trace) <= trace && hand.None? && AppliesOne(old(Now()), Now(), g)
      ensures outcome.Applied? ==>
                progress[g].receipt.Some? && hist.entered == old(hist.entered) + [old(EntryLog(g))]
      ensures outcome.Blocked? ==> progress[g].receipt.None? && hist.entered == old(hist.entered)
      ensures outcome.Blocked? ==> reply.PushesBack()
      ensures outcome.Broken? ==> outcome.why != {} && (reply.Trouble() || Holds(progress, g, Poisoned))
      ensures outcome.Broken? ==> FlushErr !in outcome.why
    {
      match reply.answer
      case Refused(why) =>
        outcome := if Backpressure in why then Blocked else Broken({ApplyErr});
      case Granted(metricOk, logOk) =>
        TakeOn(g, Reserve(g, metricOk, logOk));
        ghost var mid := Now();
        outcome := ApplyIngress(g, reply, alive);
        AppliesOneTrans(old(Now()), mid, Now(), g);
    }

    // One turn of the application loop.  A provider that pushed back earlier in the pass is
    // left alone, which is what keeps its entries in order.
    method ApplyTurn(g: Gen, blocked: set<Provider>, reply: Reply, alive: bool) returns (err: Error, blocked': set<Provider>)
      requires Valid() && !terminal && hand.None? && g in progress
      requires Served(cfg, progress, g, blocked) || FifoClear(cfg, progress, g)
      modifies this
      ensures Valid() && old(trace) <= trace && hand.None? && AppliesOne(old(Now()), Now(), g)
      ensures blocked <= blocked' && (err == {} ==> Served(cfg, progress, g, blocked'))
      ensures blocked' != blocked ==> BlockedBy(cfg, progress[g].entry, reply, blocked, blocked')
      ensures Holds(old(progress), g, Poisoned) ==> err != {}
      ensures cfg.ProviderOf(progress[g].entry).None? && old(progress)[g].receipt.None? ==> err != {}
      ensures err != {} && alive ==> Spoiled(cfg, progress, g, reply)
      ensures FlushErr !in err
    {
      blocked' := blocked;
      Interfere();
      EnvApplies(old(Now()), Now(), g);
      PoisonStays(old(Now()), Now(), g);
      ghost var mid := Now();
      err := CtxErr(alive);
      if err != {} {
        return;
      }
      if progress[g].receipt.Some? {
        if progress[g].receipt.value.phase.Poisoned? {
          err := {ApplyErr};
        }
        return;
      }
      if progress[g].entry.route !in cfg.routes {
        err := {RouteErr};
        return;
      }
      var p := cfg.routes[progress[g].entry.route];
      if p in blocked {
        return;
      }
      var outcome := ApplyEntry(g, reply, alive);
      AppliesOneTrans(old(Now()), mid, Now(), g);
      match outcome
      case Applied =>
      case Blocked => blocked' := blocked + {p};
      case Broken(why) => err := why;
    }

    lemma PoisonStays(w: World, w': World, g: Gen)
      requires EnvKeeps(w, w')
      ensures Holds(w.co.progress, g, Poisoned) ==> Holds(w'.co.progress, g, Poisoned)
    {
      if Holds(w.co.progress, g, Poisoned) {
        assert SameSlot(w.co.progress[g], w'.co.progress[g]);
      }
    }

    // Everything before the i-th entry of the ordered window has been served, so the i-th is
    // the earliest of its provider unless the provider is blocked.
    lemma NextIsFirst(q: seq<Gen>, i: nat, blocked: set<Provider>)
      requires i < |q| && forall g :: g in q <==> g in progress
      requires forall j, k | 0 <= j < k < |q| :: progress[q[j]].order <= progress[q[k]].order
      requires forall k | 0 <= k < i :: Served(cfg, progress, q[k], blocked)
      ensures Served(cfg, progress, q[i], blocked) || FifoClear(cfg, progress, q[i])
    {
      if !Served(cfg, progress, q[i], blocked) {
        forall h | h in progress && progress[h].order < progress[q[i]].order
                   && cfg.ProviderOf(progress[h].entry) == cfg.ProviderOf(progress[q[i]].entry)
          ensures progress[h].receipt.Some?
        {
          var k :| 0 <= k < |q| && q[k] == h;
          assert k < i;
          assert Served(cfg, progress, q[k], blocked);
        }
      }
    }

    // Apply the window in admission order, skipping providers that push back.  The pass fails on an
    // unknown route and on a poisoned receipt, and with a live context on nothing but these and
    // real trouble with an application.
    method ApplyWindow(replies: map<Gen, Reply>, alive: bool) returns (err: Error, blocked: set<Provider>)
      requires Valid() && !terminal && hand.None?
      modifies this
      ensures Valid() && old(trace) <= trace && hand.None? && Applies(old(Now()), Now())
      ensures err == {} ==> forall g | g in progress :: Served(cfg, progress, g, blocked)
      ensures err == {} ==> AllServed(Now(), replies)
      ensures (exists g :: g in progress && progress[g].entry.route !in cfg.routes) ==> err != {}
      ensures (exists g :: Holds(old(progress), g, Poisoned)) ==> err != {}
      ensures forall p | p in blocked :: PushedBack(cfg, progress, replies, p)
      ensures err != {} && alive ==> exists g :: Spoiled(cfg, progress, g, ReplyOf(replies, g))
      ensures FlushErr !in err
    {
      ghost var w0 := Now();
      err, blocked := {}, {};
      var q := OrderedWindow();
      var i := 0;
      while i < |q|
        invariant 0 <= i <= |q| && Valid() && old(trace) <= trace && hand.None? && err == {}
        invariant Applying(w0, Now(), q, i, blocked, replies)
      {
        err, blocked := ApplyNext(w0, q, i, blocked, replies, alive);
        if err != {} {
          return;
        }
        i := i + 1;
      }
      AllRoutesKnown(blocked);
    }

    method ApplyNext(ghost w0: World, q: seq<Gen>, i: nat, sofar: set<Provider>, replies: map<Gen, Reply>, alive: bool)
      returns (err: Error, blocked: set<Provider>)
      requires Valid() && !terminal && hand.None? && i < |q| && Distinct(q) && Applying(w0, Now(), q, i, sofar, replies)
      modifies this
      ensures Valid() && old(trace) <= trace && hand.None? && terminal == old(terminal) && Applies(w0, Now())
      ensures err == {} ==> Applying(w0, Now(), q, i + 1, blocked, replies)
      ensures forall p | p in blocked :: PushedBack(cfg, progress, replies, p)
      ensures err != {} && alive ==> Spoiled(cfg, progress, q[i], ReplyOf(replies, q[i]))
      ensures FlushErr !in err
    {
      NextIsFirst(q, i, sofar);
      ghost var before := Now();
      err, blocked := ApplyTurn(q[i], sofar, ReplyOf(replies, q[i]), alive);
      AppliesTrans(w0, before, Now(), q[i]);
      AllPushedBack(before, Now(), replies, sofar, blocked, q[i]);
      if err == {} {
        NextApplied(w0, before, Now(), q, i, sofar, blocked, replies);
      }
    }

    // A pass that served every entry met no unknown route.
    lemma AllRoutesKnown(blocked: set<Provider>)
      requires Valid() && forall g | g in progress :: Served(cfg, progress, g, blocked)
      ensures forall g | g in progress :: progress[g].entry.route in cfg.routes
    {
      Sound();
      forall g | g in progress ensures progress[g].entry.route in cfg.routes {
        assert Served(cfg, progress, g, blocked);
      }
    }

    /* ---------------------------------------------------------------- replay passes */

    // Fill and apply, unless the drain has begun.
    method AdvanceWindow(luck: Luck, replies: map<Gen, Reply>) returns (err: Error, ghost filled: World)
      requires Valid() && hand.None?
      modifies this
      ensures Valid() && old(trace) <= trace && hand.None? && terminal == old(terminal)
      ensures Grows(old(Now()), Now())
      ensures old(terminal) ==> err == {} && Now() == old(Now())
      ensures err != {} && luck.Fair() && !wal.closed && old(Held(Now())) ==>
                exists g :: Spoiled(cfg, progress, g, ReplyOf(replies, g))
      ensures FlushErr !in err
      ensures !old(terminal) && err == {} ==>
                (exists offer, tokens :: Stocked(old(Now()), filled, offer, tokens)) && AllServed(Now(), replies)
    {
      err, filled := {}, Now();
      PhasesGrow(Now(), Now());
      if terminal {
        return;
      }
      ghost var offer, tokens;
      err, offer, tokens := FillWindow(luck);
      PhasesGrow(old(Now()), Now());
      filled := Now();
      if err == {} {
        var blocked;
        err, blocked := ApplyWindow(replies, luck.alive);
        PhasesGrow(filled, Now());
        GrowsTrans(old(Now()), filled, Now());
      }
    }

    // Nothing failed: finished, or healthy work is still waiting for its delivery.
    method SettleUp() returns (err: Error)
      requires Valid() && hand.None?
      modifies this
      ensures Valid() && old(trace) <= trace && Lull(old(Now()), Now())
      ensures err == {} || err == {FlushErr}
      ensures terminal ==> (err == {} <==> NoLiveReceipt(Now()))
      ensures !terminal ==> (err == {} <==> wal.pending == map[])
      ensures err == {FlushErr} && !terminal ==> state in {ReadyState, Retrying, Failed, Stopped}
    {
      if terminal {
        var live := LiveReceipts();
        err := if live then {FlushErr} else {};
        return;
      }
      Pause();
      if |wal.pending| == 0 {
        err := {};
        return;
      }
      assert wal.pending != map[];
      ghost var mid := Now();
      var retrying: bool := *;
      SetState(if retrying then Retrying else ReadyState);
      LullTrans(old(Now()), mid, Now());
      err := {FlushErr};
    }

    // Something failed: report its bounded class, and close the coordinator if it is permanent.
    method Fail(err: Error) returns (bounded: Error)
      requires Valid() && err != {}
      modifies this
      ensures Valid() && old(trace) <= trace && EnvKeeps(old(Now()), Now())
      ensures bounded == Bounded(err).0 && bounded != {}
      ensures IsPermanent(bounded) ==> state == Failed || state == Stopped
      ensures !IsPermanent(bounded) && terminal ==> state == old(state)
      ensures !IsPermanent(bounded) && !terminal ==> state == NextState(old(state), Retrying)
    {
      BoundedMeaning(err);
      var (b, permanent) := Bounded(err);
      bounded := b;
      if permanent {
        SetState(Failed);
      } else if !terminal {
        SetState(Retrying);
      }
    }

    // One pass under the replay lock.  Whatever filling and applying came to, the receipts of the
    // window as they then stood (`mid`) are committed.
    method ReplayPass(luck: Luck, replies: map<Gen, Reply>) returns (err: Error, ghost filled: World, ghost mid: World)
      requires Valid() && hand.None?
      modifies this
      ensures Valid() && old(trace) <= trace && hand.None? && terminal == old(terminal)
      ensures Grows(old(Now()), Now()) && Grows(old(Now()), mid) && (old(terminal) ==> mid == old(Now()))
      ensures !wal.closed ==> Lucky(mid, progress, luck)
      ensures old(terminal) ==> Frozen(old(Now()), Now())
      ensures err == {} && terminal ==> NoLiveReceipt(Now())
      ensures err == {} && !terminal ==> wal.pending == map[]
      ensures IsPermanent(err) ==> state == Failed || state == Stopped
      ensures FlushErr in err ==> err == {FlushErr} && Unfinished(Now())
      ensures err != {} && FlushErr !in err ==> Adverse(old(Now()), mid, Now(), Turn(luck, replies))
      ensures !old(terminal) && err <= {FlushErr} ==>
                (exists offer, tokens :: Stocked(old(Now()), filled, offer, tokens)) && AllServed(mid, replies)
    {
      ghost var w0 := Now();
      err, filled := AdvanceWindow(luck, replies);
      mid := Now();
      ghost var spoiled := err != {};
      err := CommitAndEnd(w0, luck, err);
      assert err != {} && FlushErr !in err && !spoiled ==> Adverse(w0, mid, Now(), Turn(luck, replies));
    }

    // The second half of a pass.
    method CommitAndEnd(ghost w0: World, luck: Luck, sofar: Error) returns (err: Error)
      requires Valid() && hand.None? && Grows(w0, Now()) && FlushErr !in sofar
      modifies this
      ensures Valid() && old(trace) <= trace && hand.None? && terminal == old(terminal)
      ensures Grows(w0, Now()) && Frozen(old(Now()), Now())
      ensures !wal.closed ==> Lucky(old(Now()), progress, luck)
      ensures err == {} ==> sofar == {} && !Unfinished(Now())
      ensures FlushErr in err ==> sofar == {} && err == {FlushErr} && Unfinished(Now())
      ensures err != {} && FlushErr !in err ==> sofar != {} || exists g :: Hampered(old(Now()), Now(), g, luck)
      ensures IsPermanent(err) ==> state == Failed || state == Stopped
    {
      ghost var mid := Now();
      var c := CommitEligible(luck);
      PhasesGrow(mid, Now());
      GrowsTrans(w0, mid, Now());
      ghost var done := Now();
      err := EndPass(sofar + c);
      LuckyStays(mid, done, Now(), luck);
      GrowsTrans(w0, done, Now());
      FrozenTrans(mid, done, Now());
      if c != {} {
        ghost var g :| Hampered(mid, done, g, luck);
        HamperedStays(mid, done, Now(), g, luck);
      }
    }

    method EndPass(err: Error) returns (result: Error)
      requires Valid() && hand.None?
      modifies this
      ensures Valid() && old(trace) <= trace && hand.None? && terminal == old(terminal) && Lull(old(Now()), Now())
      ensures Frozen(old(Now()), Now()) && Grows(old(Now()), Now())
      ensures result == {} ==> err == {}
      ensures err == {} ==> result == {} || result == {FlushErr}
      ensures err != {} ==> result == Bounded(err).0
      ensures err == {} ==> (result == {} <==> !Unfinished(Now()))
      ensures FlushErr !in err && FlushErr in result ==> err == {}
      ensures IsPermanent(result) ==> state == Failed || state == Stopped
    {
      if err == {} {
        result := SettleUp();
      } else {
        result := Fail(err);
      }
      PhasesGrow(old(Now()), Now());
    }

    lemma LuckyStays(mid: World, w: World, w': World, luck: Luck)
      requires Lull(w, w')
      ensures Lucky(mid, w.co.progress, luck) ==> Lucky(mid, w'.co.progress, luck)
    {
      forall g ensures DoneWith(w.co.progress, g) ==> DoneWith(w'.co.progress, g) {
        DoneStays(w, w', g);
      }
    }

    // Between passes the lock is free: a shutdown may begin its drain and commit for us.
    method Unlocked()
      requires Valid() && hand.None?
      modifies this
      ensures Valid() && old(trace) <= trace && hand.None? && Frozen(old(Now()), Now())
    {
      Interfere();
      PhasesGrow(old(Now()), Now());
      var draining: bool := *;
      if draining {
        ghost var mid := Now();
        TakeWorker(SetTerminal);
        ghost var drained := Now();
        var luck: Luck := *;
        var _ := CommitEligible(luck);
        PhasesGrow(drained, Now());
      }
    }

    // Replay until the backlog is empty, an error is not a pending delivery, or the context ends; the
    // plan says how each pass goes, and the context survives as many waits.  A failed coordinator
    // only commits what is already delivered.
    method Replay(plan: seq<Turn>) returns (err: Error, ghost call: Call)
      requires Valid() && hand.None?
      modifies this
      ensures Valid() && old(trace) <= trace && hand.None? && Grows(old(Now()), Now())
      ensures old(state) == Failed ==> ApplyErr in err && Frozen(old(Now()), Now())
      ensures IsPermanent(err) ==> state == Failed || state == Stopped
      ensures err == {} && !terminal ==> forall g | g in wal.pending :: old(wal.next) <= g
      ensures FlushErr !in err && (err == {} ==> state in {ReadyState, Failed, Stopped})
      ensures (call.failed <==> old(state) == Failed) && (err != {} ==> Explained(call, Now(), plan, err))
    {
      call := Call(state == Failed, 0, Now(), Now());
      if state == Failed {
        var luck: Luck := *;
        err := ReplayFailed(luck);
        PhasesGrow(old(Now()), Now());
        return;
      }
      SetState(Replaying);
      PhasesGrow(old(Now()), Now());
      err, call := ReplayPasses(plan, old(Now()));
    }

    method ReplayPasses(plan: seq<Turn>, ghost w0: World) returns (err: Error, ghost call: Call)
      requires Valid() && hand.None? && Grows(w0, Now())
      modifies this
      ensures Valid() && old(trace) <= trace && hand.None? && Grows(w0, Now())
      ensures IsPermanent(err) ==> state == Failed || state == Stopped
      ensures err == {} ==> state in {ReadyState, Failed, Stopped} && (!terminal ==> wal.pending == map[])
      ensures FlushErr !in err && !call.failed && (err != {} ==> Explained(call, Now(), plan, err))
    {
      call := Call(false, 0, Now(), Now());
      for i := 0 to |plan|
        invariant Valid() && old(trace) <= trace && hand.None? && Grows(w0, Now())
      {
        ghost var at, mid := Now(), Now();
        ghost var filled;
        err, filled, mid := ReplayPass(plan[i].luck, plan[i].replies);
        GrowsTrans(w0, at, Now());
        call := Call(false, i, at, mid);
        if err == {} {
          BecomeReady(w0);
          return;
        }
        if FlushErr !in err {
          return;
        }
        WaitAround(w0);
      }
      err, call := {Canceled}, Call(false, |plan|, w0, w0);
    }

    method BecomeReady(ghost w0: World)
      requires Valid() && hand.None? && Grows(w0, Now())
      modifies this
      ensures Valid() && old(trace) <= trace && hand.None? && Grows(w0, Now()) && wal == old(wal)
      ensures state in {ReadyState, Failed, Stopped} && terminal == old(terminal)
    {
      SetState(ReadyState);
      PhasesGrow(old(Now()), Now());
      GrowsTrans(w0, old(Now()), Now());
    }

    // A wait between passes or calls.
    method WaitAround(ghost w0: World)
      requires Valid() && hand.None? && Grows(w0, Now())
      modifies this
      ensures Valid() && old(trace) <= trace && hand.None? && Grows(w0, Now())
    {
      Unlocked();
      PhasesGrow(old(Now()), Now());
      GrowsTrans(w0, old(Now()), Now());
    }

    method ReplayFailed(luck: Luck) returns (err: Error)
      requires Valid() && hand.None? && state == Failed
      modifies this
      ensures Valid() && old(trace) <= trace && hand.None? && Frozen(old(Now()), Now())
      ensures ApplyErr in err && FlushErr !in err && (state == Failed || state == Stopped)
      ensures !wal.closed ==> Lucky(old(Now()), progress, luck)
    {
      FailedIsFinal();
      var c := CommitEligible(luck);
      PhasesGrow(old(Now()), Now());
      FailedIsFinal();
      BoundedMeaning(c);
      err := {ApplyErr} + if c == {} then {} else Bounded(c).0;
    }

    // The startup drain, for as many retries as the context survives.  It reports success only
    // when every entry accepted before it began has left the log (or a shutdown has taken over),
    // and an error other than a cancellation only when the coordinator has failed for good.
    method ReplayStartup(plans: seq<seq<Turn>>) returns (err: Error, ghost calls: seq<Call>)
      requires Valid() && hand.None?
      modifies this
      ensures Valid() && old(trace) <= trace && hand.None? && Grows(old(Now()), Now())
      ensures err == {} && !terminal ==> forall g | g in wal.pending :: old(wal.next) <= g
      ensures err == {} || Canceled in err || Deadline in err || state == Failed
      ensures |calls| <= |plans|
      ensures err != {} ==>
                || (|calls| == |plans| && err == {Canceled})
                || (calls != [] && Explained(calls[|calls| - 1], Now(), plans[|calls| - 1], err))
    {
      ghost var w0 := Now();
      PhasesGrow(Now(), Now());
      calls := [];
      for i := 0 to |plans|
        invariant Valid() && old(trace) <= trace && hand.None? && Grows(w0, Now()) && |calls| == i
      {
        ghost var mid, call := Now(), Call(false, 0, Now(), Now());
        err, call := Replay(plans[i]);
        calls := calls + [call];
        GrowsTrans(w0, mid, Now());
        if err == {} {
          return;
        }
        if Canceled in err || Deadline in err {
          return;
        }
        if state == Failed {
          return;
        }
        WaitAround(w0);
      }
      err := {Canceled};
    }

    lemma FailedIsFinal()
      requires Valid()
      ensures state == Failed ==> hist.failedEver
      ensures hist.failedEver ==> state == Failed || state == Stopped
      ensures state == Stopped ==> wal.closed
    {
      Sound();
    }

    // Terminal drain: success means no applied receipt is left alive.
    method Drain(plan: seq<Turn>) returns (err: Error, ghost call: Call)
      requires Valid() && hand.None?
      modifies this
      ensures Valid() && old(trace) <= trace && hand.None? && terminal
      ensures Frozen(old(Now()), Now())
      ensures err == {} ==> NoLiveReceipt(Now())
      ensures err == {} ==> AllSettled(Now())
      ensures FlushErr !in err && !call.failed && (err != {} ==> Explained(call, Now(), plan, err))
    {
      TakeWorker(SetTerminal);
      ghost var mid := Now();
      SetState(Draining);
      PhasesGrow(mid, Now());
      FrozenTrans(old(Now()), mid, Now());
      err, call := DrainPasses(plan, old(Now()));
    }

    method DrainPasses(plan: seq<Turn>, ghost w0: World) returns (err: Error, ghost call: Call)
      requires Valid() && hand.None? && terminal && Frozen(w0, Now())
      modifies this
      ensures Valid() && old(trace) <= trace && hand.None? && terminal && Frozen(w0, Now())
      ensures err == {} ==> NoLiveReceipt(Now()) && AllSettled(Now())
      ensures FlushErr !in err && !call.failed && (err != {} ==> Explained(call, Now(), plan, err))
    {
      call := Call(false, 0, w0, w0);
      for i := 0 to |plan|
        invariant Valid() && old(trace) <= trace && hand.None? && terminal && Frozen(w0, Now())
      {
        ghost var at, mid := Now(), Now();
        err, mid := DrainPass(plan[i]);
        call := Call(false, i, at, mid);
        FrozenTrans(w0, at, Now());
        if FlushErr !in err {
          return;
        }
        at := Now();
        OthersPass();
        FrozenTrans(w0, at, Now());
      }
      err, call := {Canceled}, Call(false, |plan|, w0, w0);
    }

    method DrainPass(turn: Turn) returns (err: Error, ghost mid: World)
      requires Valid() && hand.None? && terminal
      modifies this
      ensures Valid() && old(trace) <= trace && hand.None? && terminal && Frozen(old(Now()), Now())
      ensures err == {} ==> NoLiveReceipt(Now()) && AllSettled(Now())
      ensures err != {} && FlushErr !in err ==> Adverse(old(Now()), mid, Now(), turn)
    {
      ghost var filled;
      err, filled, mid := ReplayPass(turn.luck, turn.replies);
      if err == {} {
        ghost var done := Now();
        ReportDrained();
        FrozenTrans(old(Now()), done, Now());
      }
    }

    // While the drain waits, the live worker may still run its own passes.
    method OthersPass()
      requires Valid() && hand.None? && terminal
      modifies this
      ensures Valid() && old(trace) <= trace && hand.None? && terminal && Frozen(old(Now()), Now())
    {
      Interfere();
      PhasesGrow(old(Now()), Now());
      var busy: bool := *;
      if busy {
        ghost var mid := Now();
        var luck: Luck := *;
        var replies: map<Gen, Reply> := *;
        var err;
        ghost var filled, at;
        err, filled, at := ReplayPass(luck, replies);
        FrozenTrans(old(Now()), mid, Now());
      }
    }

    method ReportDrained()
      requires Valid() && hand.None? && terminal && NoLiveReceipt(Now())
      modifies this
      ensures Valid() && old(trace) <= trace && hand.None? && terminal && Frozen(old(Now()), Now())
      ensures NoLiveReceipt(Now())
      ensures AllSettled(Now())
    {
      SetState(Draining);
      PhasesGrow(old(Now()), Now());
      forall g | g in progress && progress[g].receipt.Some?
        ensures progress[g].receipt.value.phase.Poisoned?
      {
        assert SameSlot(old(progress)[g], progress[g]);
      }
      forall i | 0 <= i < |hist.entered|
        ensures || (hist.entered[i].gen !in wal.pending && hist.entered[i].gen in hist.delivered)
                || Holds(progress, hist.entered[i].gen, Poisoned)
      {
        DrainedMeansSettled(origin, trace, i);
      }
    }

    // The live worker, one replay after another as planned.  `broke` is the world at the end of the first
    // replay that left the coordinator failed, whoever failed it: unless the coordinator has been
    // closed since, nothing has been prepared or applied after that.
    method Run(plans: seq<seq<Turn>>) returns (ghost broke: Option<World>, ghost calls: seq<Call>)
      requires Valid() && hand.None?
      modifies this
      ensures Valid() && old(trace) <= trace && hand.None? && Grows(old(Now()), Now())
      ensures broke.Some? && !wal.closed ==> state == Failed && Frozen(broke.value, Now())
      ensures broke.None? && plans != [] ==> state != Failed
      ensures |calls| == |plans|
    {
      broke, calls := None, [];
      PhasesGrow(Now(), Now());
      for i := 0 to |plans|
        invariant Valid() && old(trace) <= trace && hand.None? && Grows(old(Now()), Now()) && |calls| == i
        invariant broke.Some? && !wal.closed ==> state == Failed && Frozen(broke.value, Now())
        invariant broke.None? && i > 0 ==> state != Failed
      {
        ghost var mid := Now();
        var err;
        ghost var call;
        err, call := Round(plans[i]);
        calls := calls + [call];
        GrowsTrans(old(Now()), mid, Now());
        FailedIsFinal();
        if state == Failed && broke.None? {
          broke := Some(Now());
        }
      }
    }

    // One round: others run, then a replay.
    method Round(plan: seq<Turn>) returns (err: Error, ghost call: Call)
      requires Valid() && hand.None?
      modifies this
      ensures Valid() && old(trace) <= trace && hand.None? && Grows(old(Now()), Now())
      ensures old(state) == Failed && !wal.closed ==> state == Failed && Frozen(old(Now()), Now())
      ensures IsPermanent(err) ==> state == Failed || state == Stopped
      ensures err != {} ==> Explained(call, Now(), plan, err)
    {
      FailedIsFinal();
      Unlocked();
      FailedIsFinal();
      PhasesGrow(old(Now()), Now());
      ghost var mid := Now();
      err, call := Replay(plan);
      FailedIsFinal();
      GrowsTrans(old(Now()), mid, Now());
    }

    /* -------------------------------------------------------------------- receivers */

    // The store's append: a new file, or the file of the same request that is still waiting.
    method StoreAppend(e: Entry, disk: Disk) returns (err: Error, g: Gen)
      requires Valid() && e.route in cfg.routes && 0 < e.size
      modifies this
      ensures Valid() && old(trace) <= trace && EnvKeeps(old(Now()), Now())
      ensures err == {} ==> g in hist.landed && Waiting(Now(), g) && g in wal.durable && !wal.closed
      ensures err == {} ==> Wrote(old(Now()), Now(), g, e)
      ensures old(wal.closed) ==> err == {Closed} && Now() == old(Now())
      ensures !old(wal.closed) && disk.Fair() && Fits(old(Now()), e) ==> err == {}
    {
      g := 0;
      if wal.closed {
        err := {Closed};
        return;
      }
      var found;
      err, found := ReuseTwin(e, disk);
      if err != {} || found.Some? {
        g := if found.Some? then found.value else 0;
        return;
      }
      ghost var mid := Now();
      err, g := CreateEntry(e, disk);
      EnvTrans(old(Now()), mid, Now());
    }

    // Is the same request still on disk?  If it waits, that entry serves; if it is completed, its
    // cleanup comes first.
    method ReuseTwin(e: Entry, disk: Disk) returns (err: Error, found: Option<Gen>)
      requires Valid() && !wal.closed
      modifies this
      ensures Valid() && old(trace) <= trace && EnvKeeps(old(Now()), Now()) && !wal.closed
      ensures err == {} && found.Some? ==>
                found.value in hist.landed && Waiting(Now(), found.value) && found.value in wal.durable
                && Wrote(old(Now()), Now(), found.value, e)
      ensures err == {} && found.None? ==> forall h | h in wal.pending :: !Equivalent(wal.pending[h], e)
      ensures disk.Fair() ==> err == {}
      ensures found.Some? <==> exists h :: Waiting(old(Now()), h) && Equivalent(old(wal.pending)[h], e)
      ensures |wal.pending| <= |old(wal.pending)|
    {
      err, found := {}, None;
      var twins := set h | h in wal.pending && Equivalent(wal.pending[h], e);
      if twins == {} {
        assert forall h | h in wal.pending :: h !in twins;
        return;
      }
      var h :| h in twins;
      LoggedAs(h);
      if h in wal.marked {
        err := FinishTwin(h, e, disk.cleanup);
      } else {
        err := MakeDurable(h, disk.syncs);
        found := Some(h);
      }
    }

    // A look at the health finds the coordinator or the provider failed.
    ghost predicate Unhealthy(w: World, p: Provider) {
      w.co.state == Failed || p in w.failing
    }

    // With room and nothing going wrong, the answer is yes exactly if the second look is good.
    ghost predicate Answered(first: World, e: Entry, disk: Disk, second: World, err: Error)
      requires e.route in first.cfg.routes
    {
      !first.wal.closed && disk.Fair() && Fits(first, e) ==>
        EnvKeeps(first, second) && (err == {} <==> !Unhealthy(second, first.cfg.routes[e.route]))
    }

    // g holds the request e, and was waiting before or was written since.
    ghost predicate Wrote(w: World, w': World, g: Gen, e: Entry) {
      && g in w'.hist.log && Equivalent(w'.hist.log[g], e)
      && (Waiting(w, g) || w.wal.next <= g)
    }

    lemma LoggedAs(g: Gen)
      requires Valid() && g in wal.pending
      ensures g in hist.log && wal.pending[g] == hist.log[g]
      ensures forall h | h in wal.pending && Equivalent(wal.pending[g], wal.pending[h]) :: h == g
    {
      Sound();
    }

    // The same request is completed but not cleaned up yet: do that first.
    method FinishTwin(g: Gen, e: Entry, fault: Fault) returns (err: Error)
      requires Valid() && g in wal.pending && g in wal.marked && Equivalent(wal.pending[g], e) && !wal.closed
      modifies this
      ensures Valid() && old(trace) <= trace && EnvKeeps(old(Now()), Now()) && !wal.closed
      ensures err == {} ==> forall h | h in wal.pending :: !Equivalent(wal.pending[h], e)
      ensures (fault.NoFault? ==> err == {}) && |wal.pending| <= |old(wal.pending)|
    {
      LoggedAs(g);
      Fewer(wal.pending, g);
      err := Cleanup(g, fault);
    }

    method CreateEntry(e: Entry, disk: Disk) returns (err: Error, g: Gen)
      requires Valid() && e.route in cfg.routes && 0 < e.size && !wal.closed
      requires forall h | h in wal.pending :: !Equivalent(wal.pending[h], e)
      modifies this
      ensures Valid() && old(trace) <= trace && EnvKeeps(old(Now()), Now())
      ensures err == {} ==> g in hist.landed && Waiting(Now(), g) && g in wal.durable && !wal.closed
      ensures err == {} ==> g == old(wal.next) && g in hist.log && hist.log[g] == e
      ensures |old(wal.pending)| >= cfg.maxEntries || e.size > cfg.maxBytes || !disk.room ==>
                err == {Full} && Now() == old(Now())
      ensures |old(wal.pending)| < cfg.maxEntries && e.size <= cfg.maxBytes && disk.Fair() ==> err == {}
    {
      err, g := {}, 0;
      if |wal.pending| >= cfg.maxEntries || e.size > cfg.maxBytes || !disk.room {
        err := {Full};
        return;
      }
      if !disk.lands {
        err := StorageErr();
        return;
      }
      NextIsFree();
      var id := wal.next;
      TakeOutside(Land(e));
      ghost var mid := Now();
      err := MakeDurable(id, disk.syncs);
      g := id;
      EnvTrans(old(Now()), mid, Now());
    }

    lemma NextIsFree()
      requires Valid()
      ensures wal.next !in wal.marked
    {
      Sound();
    }

    // Sync the directory; only then does the append count as done.
    method MakeDurable(g: Gen, syncs: bool) returns (err: Error)
      requires Valid() && Waiting(Now(), g) && !wal.closed
      modifies this
      ensures Valid() && old(trace) <= trace && EnvKeeps(old(Now()), Now())
      ensures Waiting(Now(), g) && wal.pending == old(wal.pending) && wal.closed == old(wal.closed)
      ensures err == {} ==> g in hist.landed && g in wal.durable
      ensures err == {} <==> syncs || g in old(wal.durable)
    {
      err := {};
      if g !in wal.durable {
        if !syncs {
          err := StorageErr();
          return;
        }
        TakeOutside(Sync(g));
      }
      ghost var mid := Now();
      TakeOutside(AppendOk(g));
      EnvTrans(old(Now()), mid, Now());
    }

    // What a receiver calls.  Success is given only after an entry that holds this very request is
    // durable and a second look found the coordinator not failed; so, unless it has been closed,
    // it had never failed.  `first` and `second` are the worlds at the two looks.
    method Append(e: Entry, disk: Disk) returns (err: Error, g: Gen, ghost first: World, ghost second: World)
      requires Valid() && 0 < e.size
      modifies this
      ensures Valid() && old(trace) <= trace && EnvKeeps(old(Now()), Now())
      ensures e.route !in cfg.routes ==> err == {RouteErr} && Now() == old(Now())
      ensures err == {} ==> g in hist.landed && g in hist.acked && state != Failed
      ensures err == {} ==> Wrote(old(Now()), Now(), g, e)
      ensures err == {} ==> cfg.routes[e.route] !in failing
      ensures err == {} && !wal.closed ==> !hist.failedEver
      ensures e.route in cfg.routes ==> EnvKeeps(old(Now()), first)
      ensures e.route in cfg.routes && Unhealthy(first, cfg.routes[e.route]) ==> err == {AppendErr} && wal == first.wal
      ensures e.route in cfg.routes && !Unhealthy(first, cfg.routes[e.route]) ==> Answered(first, e, disk, second, err)
    {
      ghost var w0 := Now();
      g, first, second := 0, w0, w0;
      if e.route !in cfg.routes {
        err := {RouteErr};
        return;
      }
      var p := cfg.routes[e.route];
      MarkedAreOld();
      Interfere();
      first := Now();
      if state == Failed || p in failing {
        SetState(Failed);
        EnvTrans(w0, first, Now());
        err := {AppendErr};
        return;
      }
      err, g, second := WriteAndLook(e, disk, p);
      EnvTrans(w0, first, Now());
      WroteEarlier(w0, first, Now(), g, e);
    }

    // The write, and the second look after it.
    method WriteAndLook(e: Entry, disk: Disk, p: Provider) returns (err: Error, g: Gen, ghost second: World)
      requires Valid() && e.route in cfg.routes && 0 < e.size && p == cfg.routes[e.route]
      modifies this
      ensures Valid() && old(trace) <= trace && EnvKeeps(old(Now()), Now())
      ensures err == {} ==> g in hist.landed && g in hist.acked && state != Failed && p !in failing
      ensures err == {} ==> Wrote(old(Now()), Now(), g, e)
      ensures err == {} && !wal.closed ==> !hist.failedEver
      ensures Answered(old(Now()), e, disk, second, err)
    {
      ghost var w0 := Now();
      second := w0;
      var why;
      why, g := StoreAppend(e, disk);
      ghost var mid := Now();
      if why != {} {
        err := RefuseAppend(why);
      } else {
        err, second := Acknowledge(g, p);
        EnvTrans(w0, mid, second);
        WroteLater(w0, mid, Now(), g, e);
      }
      EnvTrans(w0, mid, Now());
    }

    lemma WroteLater(w: World, mid: World, w': World, g: Gen, e: Entry)
      requires Wrote(w, mid, g, e) && EnvKeeps(mid, w')
      ensures Wrote(w, w', g, e)
    {}

    lemma MarkedAreOld()
      requires Valid()
      ensures forall h | h in wal.marked :: h < wal.next
    {
      Sound();
    }

    lemma WroteEarlier(w: World, mid: World, w': World, g: Gen, e: Entry)
      requires EnvKeeps(w, mid) && (forall h | h in w.wal.marked :: h < w.wal.next)
      ensures Wrote(mid, w', g, e) ==> Wrote(w, w', g, e)
    {}

    method RefuseAppend(why: Error) returns (err: Error)
      requires Valid() && why != {}
      modifies this
      ensures Valid() && old(trace) <= trace && EnvKeeps(old(Now()), Now())
      ensures err != {} && (Full in why ==> err == {AppendErr, Full})
      ensures Full in why && old(state) != Failed && old(state) != Stopped ==> state == FullState
      ensures Full !in why && (Canceled in why || Deadline in why) ==> err == why && state == old(state)
      ensures Full !in why && Canceled !in why && Deadline !in why ==>
                err == {AppendErr} && (state == Failed || state == Stopped)
    {
      if Full in why {
        SetState(FullState);
        err := {AppendErr, Full};
      } else if Canceled in why || Deadline in why {
        err := why;
      } else {
        SetState(Failed);
        err := {AppendErr};
      }
    }

    // The check after the write.
    method Acknowledge(g: Gen, p: Provider) returns (err: Error, ghost second: World)
      requires Valid() && g in hist.landed
      modifies this
      ensures Valid() && old(trace) <= trace && EnvKeeps(old(Now()), Now())
      ensures err == {} ==> g in hist.landed && g in hist.acked && state != Failed && p !in failing
      ensures err == {} && !wal.closed ==> !hist.failedEver
      ensures EnvKeeps(old(Now()), second)
      ensures if Unhealthy(second, p) then err == {AppendErr} && wal == second.wal else err == {}
    {
      Interfere();
      ghost var mid := Now();
      second := mid;
      FailedIsFinal();
      if state == Failed || p in failing {
        SetState(Failed);
        err := {AppendErr};
      } else {
        TakeOutside(Ack(g, p));
        err := {};
      }
      EnvTrans(old(Now()), mid, Now());
    }

    // Stop for good: the store first, then the state.
    method Close()
      requires Valid()
      modifies this
      ensures Valid() && old(trace) <= trace && wal.closed && state == Stopped
      ensures EnvKeeps(old(Now()), Now())
    {
      TakeOutside(CloseWal);
      ghost var mid := Now();
      Interfere();
      EnvTrans(old(Now()), mid, Now());
      mid := Now();
      TakeOutside(Stop);
      EnvTrans(old(Now()), mid, Now());
    }

    /* ----------------------------------------------------------------------- expiry */

    lemma WaitingIsFresh(g: Gen)
      requires Valid() && Waiting(Now(), g) && g !in wal.prepared
      ensures g !in hist.expired && g !in hist.accounted && g !in progress && g < wal.next
    {
      Sound();
    }

    // One candidate: too new to go on, not ours to account for, retired, or an error.
    method ExpireOne(g: Gen, cutoff: int, fault: Fault, alive: bool, readable: bool) returns (verdict: Expiry)
      requires Valid() && Waiting(Now(), g) && g !in wal.prepared
      modifies this
      ensures Valid() && old(trace) <= trace
      ensures verdict.TooNew? ==> Expires(old(Now()), Now(), {}, {}) && old(wal.pending)[g].accepted >= cutoff
      ensures verdict.Skipped? ==> Expires(old(Now()), Now(), {}, {}) && old(wal.pending)[g].route !in cfg.routes
      ensures verdict.Retired? ==>
                Expires(old(Now()), Now(), {g}, {}) && fault.NoFault? && Off(Now(), g)
                && old(wal.pending)[g].accepted < cutoff && old(wal.pending)[g].route in cfg.routes
      ensures verdict.Broke? ==>
                verdict.why != {} && Expires(old(Now()), Now(), {}, verdict.lost)
                && (verdict.lost == {} || (verdict.lost == {g} && !fault.NoFault? && !fault.BeforeMark?))
      ensures verdict.Broke? && alive && readable && !wal.closed ==>
                !fault.NoFault? && old(wal.pending)[g].accepted < cutoff && old(wal.pending)[g].route in cfg.routes
    {
      ghost var w0 := Now();
      PauseAt(g);
      var err := MayExpire(alive, readable);
      if err != {} {
        verdict := Broke(err, {});
      } else if wal.pending[g].accepted >= cutoff {
        verdict := TooNew;
      } else if wal.pending[g].route !in cfg.routes {
        verdict := Skipped;
      } else {
        verdict := ExpireAged(w0, g, fault);
      }
    }

    method ExpireAged(ghost w0: World, g: Gen, fault: Fault) returns (verdict: Expiry)
      requires Valid() && Candidate(Now(), g) && !wal.closed && wal.pending[g].route in cfg.routes
      requires Expires(w0, Now(), {}, {})
      modifies this
      ensures Valid() && old(trace) <= trace
      ensures if fault.NoFault? then verdict.Retired? else verdict.Broke?
      ensures verdict.Retired? ==> Expires(w0, Now(), {g}, {}) && Off(Now(), g)
      ensures verdict.Broke? ==>
                verdict.why != {} && Expires(w0, Now(), {}, verdict.lost)
                && (verdict.lost == {} || (verdict.lost == {g} && !fault.BeforeMark?))
    {
      ghost var mid := Now();
      var err, lost := ExpireDue(g, fault);
      ExpiresTrans(w0, mid, Now(), {}, {}, if fault.NoFault? then {g} else {}, lost);
      assert {} + lost == lost;
      verdict := if err == {} then Retired else Broke(err, lost);
    }

    method MayExpire(alive: bool, readable: bool) returns (err: Error)
      ensures err == {} ==> !wal.closed
      ensures alive && readable && !wal.closed ==> err == {}
    {
      err := CtxErr(alive);
      if err == {} && wal.closed {
        err := {Closed};
      } else if err == {} && !readable {
        err := StorageErr();
      }
    }

    // Complete an entry that is due, without replay.
    method ExpireDue(g: Gen, fault: Fault) returns (err: Error, lost: set<Gen>)
      requires Valid() && Candidate(Now(), g) && !wal.closed && wal.pending[g].route in cfg.routes
      modifies this`wal, this`hist, this`trace
      ensures Valid() && old(trace) <= trace && (err == {} <==> fault.NoFault?)
      ensures lost == if fault.NoFault? || fault.BeforeMark? then {} else {g}
      ensures Expires(old(Now()), Now(), if fault.NoFault? then {g} else {}, lost)
      ensures err == {} ==> Off(Now(), g)
    {
      WaitingIsFresh(g);
      err := CommitGeneration(g, ByExpiry, fault);
      lost := if fault.NoFault? || fault.BeforeMark? then {} else {g};
    }

    method ExpireTurn(ghost w0: World, cutoff: int, faults: Gen -> Fault, alive: bool, unread: set<Gen>, q: seq<Gen>, i: nat, reported: seq<Gen>)
      returns (verdict: Expiry, reported': seq<Gen>)
      requires Valid() && i < |q| && Walked(w0, Now(), cutoff, faults, q, i, reported)
      modifies this
      ensures Valid() && old(trace) <= trace
      ensures verdict.TooNew? ==>
                reported' == reported && Walked(w0, Now(), cutoff, faults, q, i, reported)
                && w0.wal.pending[q[i]].accepted >= cutoff
      ensures verdict.Skipped? || verdict.Retired? ==> Walked(w0, Now(), cutoff, faults, q, i + 1, reported')
      ensures verdict.Broke? ==>
                reported' == reported && WalkResult(w0, Now(), cutoff, faults, reported, verdict.lost, verdict.why)
      ensures verdict.Broke? ==> Obstructed(w0, Now(), cutoff, faults, alive, unread, q[i])
    {
      reported' := reported;
      ghost var mid := Now();
      WalkNext(w0, mid, cutoff, faults, q, i, reported);
      verdict := ExpireOne(q[i], cutoff, faults(q[i]), alive, q[i] !in unread);
      match verdict
      case TooNew =>
        WalkStop(w0, mid, Now(), cutoff, faults, q, i, reported);
      case Skipped =>
        WalkSkip(w0, mid, Now(), cutoff, faults, q, i, reported);
      case Retired =>
        WalkRetire(w0, mid, Now(), cutoff, faults, q, i, reported);
        reported' := reported + [q[i]];
      case Broke(why, lost) =>
        WalkBreak(w0, mid, Now(), cutoff, faults, q, i, reported, lost, why);
    }

    method ExpiryQueue() returns (q: seq<Gen>)
      ensures Queue(Now(), q) && forall g | Candidate(Now(), g) :: g in q
    {
      var cands := set g | g in wal.pending && g !in wal.marked && g !in wal.prepared;
      q := SortBy(cands, map g | g in cands :: g);
    }

    // The store's walk, oldest first, up to the first entry that is not before the cutoff.
    method ExpireBefore(cutoff: int, faults: Gen -> Fault, alive: bool, unread: set<Gen>)
      returns (reported: seq<Gen>, lost: set<Gen>, err: Error)
      requires Valid()
      modifies this
      ensures Valid() && old(trace) <= trace
      ensures WalkResult(old(Now()), Now(), cutoff, faults, reported, lost, err)
      ensures err != {} ==> exists g :: Obstructed(old(Now()), Now(), cutoff, faults, alive, unread, g)
    {
      ghost var w0 := Now();
      reported, lost, err := [], {}, {};
      var q := ExpiryQueue();
      WalkStart(Now(), cutoff, faults, q);
      var i := 0;
      while i < |q|
        invariant 0 <= i <= |q| && Valid() && old(trace) <= trace && err == {} && lost == {}
        invariant Walked(w0, Now(), cutoff, faults, q, i, reported)
      {
        var verdict;
        verdict, reported := ExpireTurn(w0, cutoff, faults, alive, unread, q, i, reported);
        if verdict.Broke? {
          err, lost := verdict.why, verdict.lost;
          return;
        }
        if verdict.TooNew? {
          break;
        }
        i := i + 1;
      }
      WalkDone(w0, Now(), cutoff, faults, q, i, reported);
    }

    // Report each expired entry once, adding up its bytes.
    method AccountAll(q: seq<Gen>, sizes: map<Gen, Entry>) returns (bytes: nat)
      requires Valid() && Ascending(q) && forall k | 0 <= k < |q| :: q[k] in sizes
      requires forall k | 0 <= k < |q| :: q[k] in hist.owed && Off(Now(), q[k])
      modifies this`wal, this`hist, this`trace
      ensures Valid() && old(trace) <= trace && wal == old(wal) && bytes == Sizes(q, sizes)
      ensures hist == old(hist).(accounted := old(hist.accounted) + multiset(q), owed := old(hist.owed) - ToSet(q))
    {
      bytes := 0;
      var i := 0;
      while i < |q|
        invariant 0 <= i <= |q| && Valid() && old(trace) <= trace && wal == old(wal)
        invariant bytes == Sizes(q[..i], sizes)
        invariant hist == old(hist).(accounted := old(hist.accounted) + multiset(q[..i]),
                                     owed := old(hist.owed) - ToSet(q[..i]))
      {
        assert q[..i + 1] == q[..i] + [q[i]];
        assert q[i] !in q[..i];
        assert ToSet(q[..i + 1]) == ToSet(q[..i]) + {q[i]};
        SizesSnoc(q[..i], q[i], sizes);
        TakeStorage(Account(q[i]));
        bytes := bytes + sizes[q[i]].size;
        i := i + 1;
      }
      assert q[..i] == q;
    }

    /** Retire, without replay, what was accepted before the cutoff, and report each to the loss
        account.  An entry this call retired is reported exactly when its completion met no fault;
        the one that did (at most one, and then the call returns an error) is retired all the same
        and never reported. */
    method ExpireStale(cutoff: Option<int>, faults: Gen -> Fault, alive: bool, unread: set<Gen>)
      returns (entries: nat, bytes: nat, err: Error)
      requires Valid()
      modifies this
      ensures Valid() && old(trace) <= trace
      ensures cutoff.None? ==> Now() == old(Now()) && entries == 0 && bytes == 0 && err == {}
      ensures cutoff.Some? ==> ExpiryResult(old(Now()), Now(), cutoff.value, faults, err)
      ensures cutoff.Some? && err != {} ==>
                exists g :: Obstructed(old(Now()), Now(), cutoff.value, faults, alive, unread, g)
      ensures exists reported: seq<Gen> ::
                && (forall k | 0 <= k < |reported| :: reported[k] in old(wal.pending))
                && entries == |reported| && bytes == Sizes(reported, old(wal.pending))
                && hist.accounted == old(hist.accounted) + multiset(reported)
    {
      if cutoff.None? {
        entries, bytes, err := 0, 0, {};
        assert Sizes([], wal.pending) == 0 && hist.accounted == hist.accounted + multiset([]);
        return;
      }
      ghost var reported;
      entries, bytes, err, reported := ExpireNow(cutoff.value, faults, alive, unread);
    }

    method ExpireNow(cutoff: int, faults: Gen -> Fault, alive: bool, unread: set<Gen>)
      returns (entries: nat, bytes: nat, err: Error, ghost reported: seq<Gen>)
      requires Valid()
      modifies this
      ensures Valid() && old(trace) <= trace
      ensures ExpiryResult(old(Now()), Now(), cutoff, faults, err)
      ensures err != {} ==> exists g :: Obstructed(old(Now()), Now(), cutoff, faults, alive, unread, g)
      ensures && (forall k | 0 <= k < |reported| :: reported[k] in old(wal.pending))
              && entries == |reported| && bytes == Sizes(reported, old(wal.pending))
              && hist.accounted == old(hist.accounted) + multiset(reported)
    {
      Sound();
      ghost var w0 := Now();
      var was := wal.pending;
      var retired, lost, why := ExpireBefore(cutoff, faults, alive, unread);
      ghost var mid := Now();
      ReportedIsFresh(w0, mid, cutoff, faults, retired, lost, why);
      entries, reported := |retired|, retired;
      bytes := AccountAll(retired, was);
      err := if why == {} then {} else Bounded(why).0;
      BoundedMeaning(why);
      ExpiryMeaning(w0, mid, Now(), cutoff, faults, retired, lost, why, err);
      if why != {} {
        ghost var g :| Obstructed(w0, mid, cutoff, faults, alive, unread, g);
        assert Obstructed(w0, Now(), cutoff, faults, alive, unread, g);
      }
    }
  }
}
