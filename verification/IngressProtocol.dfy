/**
 The ingress write-ahead log protocol as a labelled transition system.

 A `World` joins three parties: the WAL store on disk, the delivery providers and
 the coordinator that replays one into the other.  A `Step` is what one of them does
 while nobody else can look: the stretch of code between two lock releases.  Every
 interleaving of receivers, the replay worker, delivery, expiry, shutdown and crashes
 is a sequence of steps, and `Exec` runs one.

 `History` holds what the program itself forgets (who was acknowledged, what was
 applied and in which order), so that properties of whole runs are properties of the
 last world.
 */
module IngressProtocol {
  import opened Wrappers

  // Identity of one entry file.  The store numbers entries in append order and qualifies
  // the number by the open store; here numbers are simply never used twice.
  type Gen = nat
  type Provider = nat

  const MAX_INT64: int := 0x7FFF_FFFF_FFFF_FFFF
  const WINDOW_ENTRIES := 64

  datatype RouteKey = RouteKey(tailnet: string, source: string, signal: string)
  datatype Entry = Entry(route: RouteKey, body: string, accepted: int, size: nat)

  // The same request: an entry's identity is derived from its route and body.
  predicate Equivalent(a: Entry, b: Entry) {
    a.route == b.route && a.body == b.body
  }

  datatype Config = Config(routes: map<RouteKey, Provider>, maxEntries: nat, maxBytes: nat) {
    predicate Valid() {
      maxEntries > 0 && 0 < maxBytes <= MAX_INT64
    }

    function Cap(): nat {
      if maxEntries < WINDOW_ENTRIES then maxEntries else WINDOW_ENTRIES
    }

    function ProviderOf(e: Entry): Option<Provider> {
      if e.route in routes then Some(routes[e.route]) else None
    }
  }

  /* ---------------------------------------------------------------- receipts */

  datatype Phase = Reserved | Building | Ready | Covered | Delivered | Poisoned {
    function Rank(): nat {
      match this
      case Reserved => 0
      case Building => 1
      case Ready => 2
      case Covered => 3
      case Delivered => 4
      case Poisoned => 5
    }
  }

  // metricOk and logOk: the signal is excluded or its export was acknowledged.
  datatype Receipt = Receipt(phase: Phase, metricOk: bool, logOk: bool) {
    predicate Eligible() {
      phase != Reserved && phase != Building && phase != Poisoned && metricOk && logOk
    }

    // What the delivery side may do to a receipt behind the worker's back.  Only the
    // worker starts or finishes a callback, so Reserved and Building can only be poisoned.
    predicate Advances(to: Receipt) {
      && phase.Rank() <= to.phase.Rank()
      && (metricOk ==> to.metricOk)
      && (logOk ==> to.logOk)
      && (phase.Reserved? || phase.Building? ==> to.phase == phase || to.phase.Poisoned?)
    }

    // The callback has finished; quiet if it logged nothing.
    function Sealed(quiet: bool): Receipt {
      var done := Receipt(Ready, metricOk, logOk || quiet);
      if done.Eligible() then done.(phase := Delivered) else done
    }
  }

  datatype Progress = Progress(
    entry: Entry, order: nat, work: bool, receipt: Option<Receipt>)

  /* ------------------------------------------------------------------- world */

  datatype State =
    Disabled | Replaying | ReadyState | Retrying | FullState | Failed | Draining | Stopped

  // marked: generations with a completion marker; soft: markers whose write was reported
  // failed, so a crash may undo them.  prepared maps a registered token to "retired".
  datatype Wal = Wal(
    pending: map<Gen, Entry>,
    durable: set<Gen>,
    marked: set<Gen>,
    soft: set<Gen>,
    prepared: map<Gen, bool>,
    next: Gen,
    closed: bool)

  // hand: the generation whose reservation the worker holds and has not entered yet.
  datatype Coord = Coord(
    state: State,
    terminal: bool,
    order: nat,
    progress: map<Gen, Progress>,
    hand: Option<Gen>)

  datatype Entered = Entered(gen: Gen, provider: Provider, order: nat)

  // ripe, prepares, entered, failedEver and lateAck speak of the current process life;
  // everything else survives a crash.  log is what each generation was written with,
  // shown every state that delivery or a finished callback put its receipts in.  Of the expired,
  // owed are those the expiry call still has to report, cut those it lost track of.
  datatype History = History(
    log: map<Gen, Entry>,
    shown: set<(Gen, Receipt)>,
    landed: set<Gen>,
    acked: set<Gen>,
    everRipe: set<Gen>,
    delivered: set<Gen>,
    expired: set<Gen>,
    owed: set<Gen>,
    cut: set<Gen>,
    accounted: multiset<Gen>,
    ripe: set<Gen>,
    prepares: seq<Gen>,
    entered: seq<Entered>,
    failedEver: bool,
    lateAck: bool)

  datatype World = World(cfg: Config, wal: Wal, failing: set<Provider>, co: Coord, hist: History)

  const NO_HISTORY := History(map[], {}, {}, {}, {}, {}, {}, {}, {}, multiset{}, {}, [], [], false, false)

  function EmptyWorld(cfg: Config): World {
    World(
      cfg,
      Wal(map[], {}, {}, {}, map[], 0, false),
      {},
      Coord(Replaying, false, 0, map[], None),
      NO_HISTORY)
  }

  /* ------------------------------------------------------------------- steps */

  datatype Cause = ByDelivery | ByExpiry

  // Receivers, shutdown and delivery: they run at any time.
  datatype OutsideStep =
    | Land(entry: Entry)
    | AppendOk(g: Gen)
    | Sync(g: Gen)
    | Ack(g: Gen, p: Provider)
    | SetState(state: State)
    | CloseWal
    | Stop
    | FailProvider(p: Provider)
    | Advance(g: Gen, to: Receipt)

  // The store's completion and token protocol.
  datatype StorageStep =
    | Mark(g: Gen, cause: Cause, softly: bool)
    | Unlink(g: Gen)
    | Unmark(g: Gen)
    | Retire(g: Gen)
    | Account(g: Gen)
    | CutOff(g: Gen)
    | Register(g: Gen)
    | Release(g: Gen)

  // The replay worker, which holds the coordinator's replay lock.
  datatype WorkerStep =
    | Admit(g: Gen)
    | Prepare(g: Gen)
    | Reserve(g: Gen, metricOk: bool, logOk: bool)
    | Drop(g: Gen)
    | Enter(g: Gen)
    | Finish(g: Gen, quiet: bool)
    | ClearWork(g: Gen)
    | ClearHand
    | Forget(g: Gen)
    | SetTerminal

  datatype Step =
    | Outside(o: OutsideStep)
    | Storage(d: StorageStep)
    | Worker(k: WorkerStep)
    // the process dies; a new one, perhaps configured differently, opens the same directory
    | Crash(lostEntries: set<Gen>, lostMarks: set<Gen>, next: Config)

  // Steps other goroutines may take while the replay worker is inside a pass: everything
  // outside, and the cleanup of finished entries that an append performs on its way.
  predicate IsEnv(s: Step) {
    s.Outside? || (s.Storage? && (s.d.Unlink? || s.d.Unmark?))
  }

  // setState: Stopped is final, and Failed yields only to Stopped.
  function NextState(from: State, to: State): State {
    if from != Stopped && (from != Failed || to == Stopped) then to else from
  }

  /* ------------------------------------------------------------- when and how */

  predicate OutsideEnabled(w: World, s: OutsideStep) {
    match s
    case Land(e) =>
      && !w.wal.closed && e.route in w.cfg.routes && 0 < e.size <= w.cfg.maxBytes
      && forall g | g in w.wal.pending :: !Equivalent(w.wal.pending[g], e)
    case AppendOk(g) =>
      !w.wal.closed && g in w.wal.durable && g !in w.wal.marked
    case Sync(g) => g in w.wal.pending
    case Ack(g, p) =>
      g in w.hist.landed && w.co.state != Failed && p !in w.failing
    case SetState(x) => x != Stopped
    case CloseWal => true
    case Stop => w.wal.closed
    case FailProvider(p) => true
    case Advance(g, to) =>
      g in w.co.progress && w.co.progress[g].receipt.Some? && w.co.progress[g].receipt.value.Advances(to)
  }

  predicate StorageEnabled(w: World, s: StorageStep) {
    match s
    case Mark(g, cause, softly) =>
      && g in w.wal.pending && g in w.wal.durable && g !in w.wal.marked
      && (if cause.ByDelivery?
          then g in w.co.progress && g in w.hist.ripe
          else g !in w.wal.prepared && g !in w.co.progress && w.wal.pending[g].route in w.cfg.routes)
    case Unlink(g) => g in w.wal.marked && g in w.wal.pending
    case Unmark(g) => g in w.wal.marked && g !in w.wal.pending
    case Retire(g) => g in w.wal.prepared && g !in w.wal.pending && g !in w.wal.marked
    case Account(g) => g in w.hist.owed && g !in w.wal.pending && g !in w.wal.marked
    case CutOff(g) => g in w.hist.owed
    case Register(g) =>
      && !w.co.terminal
      && g in w.wal.pending && g in w.wal.durable && g !in w.wal.marked
      && g !in w.co.progress
    case Release(g) => g in w.wal.prepared && w.wal.prepared[g]
  }

  // Every earlier-admitted entry of g's provider already has a receipt.
  predicate FifoClear(cfg: Config, progress: map<Gen, Progress>, g: Gen)
    requires g in progress
  {
    forall h | h in progress ::
      progress[h].order < progress[g].order
      && cfg.ProviderOf(progress[h].entry) == cfg.ProviderOf(progress[g].entry)
      ==> progress[h].receipt.Some?
  }

  // Total encoded size of the entries in the window.
  ghost function Bytes(progress: map<Gen, Progress>): nat
    decreases |progress|
  {
    if progress == map[] then 0
    else
      var g :| g in progress;
      assert |progress - {g}| < |progress| by { assert progress.Keys == (progress - {g}).Keys + {g}; }
      progress[g].entry.size + Bytes(progress - {g})
  }

  predicate Holds(progress: map<Gen, Progress>, g: Gen, phase: Phase) {
    g in progress && progress[g].receipt.Some? && progress[g].receipt.value.phase == phase
  }

  ghost predicate WorkerEnabled(w: World, s: WorkerStep) {
    match s
    case Admit(g) =>
      && !w.co.terminal
      && g in w.wal.prepared && !w.wal.prepared[g]
      && g !in w.co.progress && g in w.wal.pending
      && |w.co.progress| < w.cfg.Cap()
      && Bytes(w.co.progress) + w.wal.pending[g].size <= w.cfg.maxBytes
    case Prepare(g) =>
      !w.co.terminal && g in w.co.progress && !w.co.progress[g].work && w.co.progress[g].receipt.None?
    case Reserve(g, metricOk, logOk) =>
      && !w.co.terminal && w.co.hand.None?
      && g in w.co.progress && w.co.progress[g].work && w.co.progress[g].receipt.None?
      && w.cfg.ProviderOf(w.co.progress[g].entry).Some?
      && FifoClear(w.cfg, w.co.progress, g)
    case Drop(g) => w.co.hand == Some(g) && Holds(w.co.progress, g, Reserved)
    case Enter(g) =>
      && !w.co.terminal
      && w.co.hand == Some(g) && Holds(w.co.progress, g, Reserved)
      && w.cfg.ProviderOf(w.co.progress[g].entry).Some?
    case Finish(g, quiet) => Holds(w.co.progress, g, Building)
    case ClearWork(g) => g in w.co.progress && w.co.progress[g].receipt.Some? && w.co.hand != Some(g)
    case ClearHand => true
    case Forget(g) =>
      && g in w.co.progress && w.co.progress[g].receipt.Some?
      && w.co.progress[g].receipt.value.Eligible() && g !in w.wal.prepared
      && w.co.hand != Some(g)
    case SetTerminal => true
  }

  ghost predicate Enabled(w: World, s: Step) {
    match s
    case Outside(o) => OutsideEnabled(w, o)
    case Storage(d) => StorageEnabled(w, d)
    case Worker(k) => WorkerEnabled(w, k)
    case Crash(lostEntries, lostMarks, next) =>
      && lostEntries <= w.wal.pending.Keys - w.wal.durable
      && lostMarks <= w.wal.soft * w.wal.pending.Keys
      // opening reserves room for what is there, and refuses a directory that does not fit
      && next.Valid() && forall g | g in w.wal.pending && g !in lostEntries :: w.wal.pending[g].size <= next.maxBytes
  }

  // A receipt change is recorded for good, and so is that the generation became eligible.
  function Ripen(h: History, g: Gen, r: Receipt): History {
    var shown := h.shown + {(g, r)};
    if r.Eligible() then h.(shown := shown, ripe := h.ripe + {g}, everRipe := h.everRipe + {g})
    else h.(shown := shown)
  }

  function WithReceipt(progress: map<Gen, Progress>, g: Gen, r: Option<Receipt>): map<Gen, Progress>
    requires g in progress
  {
    progress[g := progress[g].(receipt := r)]
  }

  function OutsideAfter(w: World, s: OutsideStep): World
    requires s.Advance? ==> s.g in w.co.progress
  {
    match s
    case Land(e) =>
      w.(wal := w.wal.(pending := w.wal.pending[w.wal.next := e], next := w.wal.next + 1),
         hist := w.hist.(log := w.hist.log[w.wal.next := e]))
    case AppendOk(g) => w.(hist := w.hist.(landed := w.hist.landed + {g}))
    case Sync(g) => w.(wal := w.wal.(durable := w.wal.durable + {g}))
    case Ack(g, p) =>
      w.(hist := w.hist.(acked := w.hist.acked + {g}, lateAck := w.hist.lateAck || w.hist.failedEver))
    case SetState(x) =>
      var x' := NextState(w.co.state, x);
      w.(co := w.co.(state := x'), hist := w.hist.(failedEver := w.hist.failedEver || x' == Failed))
    case CloseWal => w.(wal := w.wal.(closed := true))
    case Stop => w.(co := w.co.(state := Stopped))
    case FailProvider(p) => w.(failing := w.failing + {p})
    case Advance(g, to) =>
      w.(co := w.co.(progress := WithReceipt(w.co.progress, g, Some(to))), hist := Ripen(w.hist, g, to))
  }

  function StorageWal(wal: Wal, s: StorageStep): Wal {
    match s
    case Mark(g, cause, softly) =>
      wal.(marked := wal.marked + {g}, soft := if softly then wal.soft + {g} else wal.soft)
    case Unlink(g) => wal.(pending := wal.pending - {g}, durable := wal.durable - {g})
    case Unmark(g) => wal.(marked := wal.marked - {g}, soft := wal.soft - {g})
    case Retire(g) => wal.(prepared := wal.prepared[g := true])
    case Account(g) => wal
    case CutOff(g) => wal
    case Register(g) => wal.(prepared := wal.prepared[g := false])
    case Release(g) => wal.(prepared := wal.prepared - {g})
  }

  function StorageHist(h: History, s: StorageStep): History {
    match s
    case Mark(g, ByDelivery, softly) => h.(delivered := h.delivered + {g})
    case Mark(g, ByExpiry, softly) =>
      if softly then h.(expired := h.expired + {g}, cut := h.cut + {g})
      else h.(expired := h.expired + {g}, owed := h.owed + {g})
    case Account(g) => h.(accounted := h.accounted + multiset{g}, owed := h.owed - {g})
    case CutOff(g) => h.(owed := h.owed - {g}, cut := h.cut + {g})
    case _ => h
  }

  function WorkerCo(w: World, s: WorkerStep): Coord
    requires WorkerEnabled(w, s)
  {
    var co := w.co;
    match s
    case Admit(g) =>
      co.(order := co.order + 1,
          progress := co.progress[g := Progress(w.wal.pending[g], co.order + 1, false, None)])
    case Prepare(g) => co.(progress := co.progress[g := co.progress[g].(work := true)])
    case Reserve(g, metricOk, logOk) =>
      co.(hand := Some(g),
          progress := WithReceipt(co.progress, g, Some(Receipt(Reserved, metricOk, logOk))))
    case Drop(g) => co.(hand := None, progress := WithReceipt(co.progress, g, None))
    case Enter(g) =>
      co.(hand := None,
          progress := WithReceipt(co.progress, g, Some(co.progress[g].receipt.value.(phase := Building))))
    case Finish(g, quiet) =>
      co.(progress := WithReceipt(co.progress, g, Some(co.progress[g].receipt.value.Sealed(quiet))))
    case ClearWork(g) => co.(progress := co.progress[g := co.progress[g].(work := false)])
    case ClearHand => co.(hand := None)
    case Forget(g) => co.(progress := co.progress - {g})
    case SetTerminal => co.(terminal := true)
  }

  function WorkerHist(w: World, s: WorkerStep): History
    requires WorkerEnabled(w, s)
  {
    match s
    case Prepare(g) => w.hist.(prepares := w.hist.prepares + [g])
    case Enter(g) =>
      var p := w.co.progress[g];
      w.hist.(entered := w.hist.entered + [Entered(g, w.cfg.ProviderOf(p.entry).value, p.order)])
    case Finish(g, quiet) => Ripen(w.hist, g, w.co.progress[g].receipt.value.Sealed(quiet))
    case _ => w.hist
  }

  function Restart(w: World, lostEntries: set<Gen>, lostMarks: set<Gen>, next: Config): World {
    World(
      next,
      // Opening the directory re-establishes durability of whatever is still there.
      Wal(w.wal.pending - lostEntries, w.wal.pending.Keys - lostEntries,
          w.wal.marked - lostMarks, w.wal.soft - lostMarks, map[], w.wal.next, false),
      {},
      Coord(Replaying, false, 0, map[], None),
      w.hist.(delivered := w.hist.delivered - lostMarks, expired := w.hist.expired - lostMarks,
              owed := {}, cut := w.hist.cut + w.hist.owed - lostMarks,
              ripe := {}, prepares := [], entered := [], failedEver := false, lateAck := false))
  }

  function After(w: World, s: Step): World
    requires Enabled(w, s)
  {
    match s
    case Outside(o) => OutsideAfter(w, o)
    case Storage(d) => w.(wal := StorageWal(w.wal, d), hist := StorageHist(w.hist, d))
    case Worker(k) => w.(co := WorkerCo(w, k), hist := WorkerHist(w, k))
    case Crash(lostEntries, lostMarks, next) => Restart(w, lostEntries, lostMarks, next)
  }

  // A step that cannot happen leaves the world alone, so every sequence is a run.
  ghost function Do(w: World, s: Step): World {
    if Enabled(w, s) then After(w, s) else w
  }

  ghost function Exec(w: World, run: seq<Step>): World
    decreases |run|
  {
    if run == [] then w else Do(Exec(w, run[..|run| - 1]), run[|run| - 1])
  }
}
