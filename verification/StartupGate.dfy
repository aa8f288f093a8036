/**
 The startup gate: receivers may open once the ingress WAL's startup drain has completed, or once
 its budget has run out, but not when the log is already known to be unusable.

 Two goroutines, the drain and the gate, run against a budget timer, a cancellation, the
 coordinator, whose state other goroutines set, and the lifecycle's teardown, which closes the
 coordinator only after it has joined the receivers and taken the drain's exit value.  Each
 statement that another goroutine can observe is one step; a run is any interleaving.
 */
module StartupGate {
  import opened Wrappers
  import opened IngressProtocol

  // Where the drain goroutine is.  `stopped` says that its error was a cancellation.
  datatype DrainAt =
    | Underway
    | Broken(stopped: bool)     // the drain returned an error
    | Recorded(stopped: bool)   // walStartupFatal is set, unless it was a cancellation
    | Announced(stopped: bool)  // failed is closed
    | Complete                  // the drain returned nil
    | Serving                   // replayed is closed and the live worker runs
    | Gone                      // the exit channel has its value

  datatype GateAt =
    | Waiting
    | Looking                   // the timer branch, before the health is read
    | Refusing
    | Opening
    | Cleared                   // walStartupPending is false, open is about to be closed
    | Ended

  // What held when the gate decided to open.
  datatype Decision = Decision(replayed: bool, timer: bool, state: State, fatal: bool)

  datatype Startup = Startup(
    drain: DrainAt, gate: GateAt,
    replayed: nat, failed: nat, open: nat, done: nat,      // how often each was closed or sent
    timer: bool, canceled: bool, state: State,
    pending: bool, fatal: bool, receivers: bool, joined: bool,
    decision: Option<Decision>)

  // The timer, the context, other goroutines that set the coordinator's state, the receivers and
  // the teardown.
  datatype Outside = TimerFires | Cancel | Sets(to: State) | JoinReceivers | CloseCoordinator | ReceiverStarts
  datatype DrainMove = Returns(err: bool, stopped: bool) | Record | CloseFailed | CloseReplayed | SendDone
  datatype GateMove =
    SeeReplayed | SeeFailed | SeeCanceled | SeeTimer | ReadHealth | ClearPending | CloseOpen

  datatype Move = ByOthers(o: Outside) | ByDrain(d: DrainMove) | ByGate(g: GateMove)

  ghost function Begin(state: State): Startup {
    Startup(Underway, Waiting, 0, 0, 0, 0, false, false, state, true, false, false, false, None)
  }

  // The drain broke for good before now.
  ghost predicate BrokeForGood(s: Startup) {
    (s.drain.Broken? || s.drain.Recorded? || s.drain.Announced?) && !s.drain.stopped
  }

  ghost predicate OthersCan(s: Startup, m: Outside) {
    match m
    case TimerFires => !s.timer
    case Cancel => true
    case Sets(to) => to != Stopped
    case JoinReceivers => s.canceled
    case CloseCoordinator => s.joined && s.done > 0
    case ReceiverStarts => s.open > 0 && !s.joined
  }

  // A drain error other than a cancellation comes from a coordinator that has failed.
  ghost predicate DrainCan(s: Startup, m: DrainMove) {
    match m
    case Returns(err, stopped) => s.drain == Underway && (err && !stopped ==> s.state == Failed)
    case Record => s.drain.Broken?
    case CloseFailed => s.drain.Recorded?
    case CloseReplayed => s.drain == Complete
    case SendDone => s.drain.Announced? || s.drain == Serving
  }

  // A select takes any branch that is ready.
  ghost predicate GateCan(s: Startup, m: GateMove) {
    match m
    case SeeReplayed => s.gate == Waiting && s.replayed > 0
    case SeeFailed => s.gate == Waiting && s.failed > 0
    case SeeCanceled => s.gate == Waiting && s.canceled
    case SeeTimer => s.gate == Waiting && s.timer
    case ReadHealth => s.gate == Looking
    case ClearPending => s.gate == Opening || s.gate == Refusing
    case CloseOpen => s.gate == Cleared
  }

  ghost predicate Can(s: Startup, m: Move) {
    match m
    case ByOthers(o) => OthersCan(s, o)
    case ByDrain(d) => DrainCan(s, d)
    case ByGate(g) => GateCan(s, g)
  }

  ghost function Seen(s: Startup): Decision {
    Decision(s.replayed > 0, s.timer, s.state, BrokeForGood(s) || s.fatal)
  }

  ghost function Decide(s: Startup): Startup {
    s.(gate := Opening, decision := Some(Seen(s)))
  }

  ghost function OthersMade(s: Startup, m: Outside): Startup {
    match m
    case TimerFires => s.(timer := true)
    case Cancel => s.(canceled := true)
    case Sets(to) => s.(state := NextState(s.state, to))
    case JoinReceivers => s.(joined := true)
    case CloseCoordinator => s.(state := Stopped)
    case ReceiverStarts => s.(receivers := true)
  }

  ghost function DrainMade(s: Startup, m: DrainMove): Startup
    requires DrainCan(s, m)
  {
    match m
    case Returns(err, stopped) => s.(drain := if err then Broken(stopped) else Complete)
    case Record => s.(drain := Recorded(s.drain.stopped), fatal := s.fatal || !s.drain.stopped)
    case CloseFailed => s.(drain := Announced(s.drain.stopped), failed := s.failed + 1)
    case CloseReplayed => s.(drain := Serving, replayed := s.replayed + 1)
    case SendDone => s.(drain := Gone, done := s.done + 1)
  }

  ghost function GateMade(s: Startup, m: GateMove): Startup {
    match m
    case SeeReplayed => Decide(s)
    case SeeFailed => s.(gate := Refusing)
    case SeeCanceled => s.(gate := Refusing)
    case SeeTimer => s.(gate := Looking)
    case ReadHealth => if s.state == Failed then s.(gate := Refusing) else Decide(s)
    case ClearPending => s.(gate := if s.gate == Opening then Cleared else Ended, pending := false)
    case CloseOpen => s.(gate := Ended, open := s.open + 1)
  }

  ghost function Made(s: Startup, m: Move): Startup
    requires Can(s, m)
  {
    match m
    case ByOthers(o) => OthersMade(s, o)
    case ByDrain(d) => DrainMade(s, d)
    case ByGate(g) => GateMade(s, g)
  }

  ghost predicate IsRun(ss: seq<Startup>, moves: seq<Move>, from: State) {
    && |ss| == |moves| + 1 && ss[0] == Begin(from)
    && forall i | 0 <= i < |moves| :: Can(ss[i], moves[i]) && ss[i + 1] == Made(ss[i], moves[i])
  }

  // One closing of each channel, one value on the exit channel, and never both outcomes.
  ghost predicate Channels(s: Startup) {
    match s.drain
    case Announced(_) => s.replayed == 0 && s.failed == 1 && s.done == 0
    case Serving => s.replayed == 1 && s.failed == 0 && s.done == 0
    case Gone => s.replayed + s.failed == 1 && s.done == 1
    case _ => s.replayed == 0 && s.failed == 0 && s.done == 0
  }

  // The decision comes first, then the flag falls, then the channel closes.
  ghost predicate Ordered(s: Startup) {
    && s.open <= 1 && (s.receivers ==> s.open == 1)
    && match s.gate
       case Cleared => s.decision.Some? && !s.pending && s.open == 0
       case Ended => !s.pending && (s.decision.Some? <==> s.open == 1)
       case Opening => s.decision.Some? && s.pending && s.open == 0
       case Looking => s.decision.None? && s.pending && s.open == 0 && s.timer
       case _ => s.decision.None? && s.pending && s.open == 0
  }

  // A failure for good stays visible until the coordinator is closed, after the receivers are joined.
  ghost predicate Visible(s: Startup) {
    && (s.state == Stopped ==> s.joined)
    && (BrokeForGood(s) || s.fatal ==> s.replayed == 0 && (s.state == Failed || s.state == Stopped))
    && (s.fatal ==> s.drain.Recorded? || s.drain.Announced? || s.drain == Gone)
  }

  // What a decision to open rests on; and one taken after a fatal drain comes too late to matter.
  ghost predicate Justified(s: Startup) {
    s.decision.Some? ==>
      var d := s.decision.value;
      && (d.replayed || (d.timer && d.state != Failed))
      && (d.fatal ==> !d.replayed && d.state == Stopped && s.joined && !s.receivers)
  }

  ghost predicate Inv(s: Startup) {
    Channels(s) && Ordered(s) && Visible(s) && Justified(s)
  }

  lemma OthersKeep(s: Startup, m: Outside)
    requires Inv(s) && OthersCan(s, m)
    ensures Inv(OthersMade(s, m))
  {}

  lemma DrainKeeps(s: Startup, m: DrainMove)
    requires Inv(s) && DrainCan(s, m)
    ensures Inv(DrainMade(s, m))
  {}

  lemma GateKeeps(s: Startup, m: GateMove)
    requires Inv(s) && GateCan(s, m)
    ensures Inv(GateMade(s, m))
  {}

  lemma InvKept(s: Startup, m: Move)
    requires Inv(s) && Can(s, m)
    ensures Inv(Made(s, m))
  {
    match m
    case ByOthers(o) => OthersKeep(s, o);
    case ByDrain(d) => DrainKeeps(s, d);
    case ByGate(g) => GateKeeps(s, g);
  }

  lemma {:induction false} InvHolds(ss: seq<Startup>, moves: seq<Move>, from: State, i: nat)
    requires IsRun(ss, moves, from) && from != Stopped && i < |ss|
    ensures Inv(ss[i])
  {
    if i > 0 {
      InvHolds(ss, moves, from, i - 1);
      InvKept(ss[i - 1], moves[i - 1]);
    }
  }

  // The gate over every interleaving: `open` is closed at most once and no channel twice; it is
  // closed only on a decision that saw the drain completed, or the budget spent on a coordinator
  // that had not failed; if the drain had broken for good by then, the coordinator had been closed
  // and no receiver ever starts; and startup is no longer pending once the gate ends.
  lemma GateIsSafe(ss: seq<Startup>, moves: seq<Move>, from: State, i: nat)
    requires IsRun(ss, moves, from) && from != Stopped && i < |ss|
    ensures var s := ss[i];
            && s.open <= 1 && s.replayed <= 1 && s.failed <= 1 && s.done <= 1
            && !(s.replayed == 1 && s.failed == 1)
            && (s.open == 1 ==>
                  && s.decision.Some? && !s.pending
                  && (s.decision.value.replayed || (s.decision.value.timer && s.decision.value.state != Failed))
                  && (s.decision.value.fatal ==> s.decision.value.state == Stopped && !s.receivers))
            && (s.gate == Ended ==> !s.pending)
            && (s.receivers ==> s.open == 1)
  {
    InvHolds(ss, moves, from, i);
  }

  ghost predicate Decides(m: Move) {
    m == ByGate(SeeReplayed) || m == ByGate(ReadHealth)
  }

  lemma DecidedOnce(s: Startup, m: Move)
    requires Ordered(s) && Can(s, m)
    ensures Made(s, m).decision == s.decision || (Decides(m) && Made(s, m).decision == Some(Seen(s)))
    ensures s.decision.Some? ==> Made(s, m).decision == s.decision
  {
    match m
    case ByOthers(o) => OthersDecideNothing(s, o);
    case ByDrain(d) => DrainDecidesNothing(s, d);
    case ByGate(g) => GateDecidesOnce(s, g);
  }

  lemma OthersDecideNothing(s: Startup, m: Outside)
    ensures OthersMade(s, m).decision == s.decision
  {}

  lemma DrainDecidesNothing(s: Startup, m: DrainMove)
    requires DrainCan(s, m)
    ensures DrainMade(s, m).decision == s.decision
  {}

  lemma GateDecidesOnce(s: Startup, m: GateMove)
    requires Ordered(s) && GateCan(s, m)
    ensures || GateMade(s, m).decision == s.decision
            || ((m == SeeReplayed || m == ReadHealth) && GateMade(s, m).decision == Some(Seen(s)))
    ensures s.decision.Some? ==> GateMade(s, m).decision == s.decision
  {}

  // What a decision records is what held in the state it was taken in.
  lemma {:induction false} DecisionIsTrue(ss: seq<Startup>, moves: seq<Move>, from: State, i: nat) returns (k: nat)
    requires IsRun(ss, moves, from) && from != Stopped && i < |ss| && ss[i].decision.Some?
    ensures k < i && Decides(moves[k]) && ss[i].decision.value == Seen(ss[k])
  {
    k := i - 1;
    InvHolds(ss, moves, from, k);
    DecidedOnce(ss[k], moves[k]);
    if ss[k].decision.Some? {
      k := DecisionIsTrue(ss, moves, from, k);
    }
  }

  // What can keep the gate from opening: the drain failed, the run was canceled, or the state read
  // as failed when the budget was spent.
  ghost predicate Excused(ss: seq<Startup>, moves: seq<Move>, i: nat)
    requires |ss| == |moves| + 1 && i < |ss|
  {
    || ss[i].failed > 0 || ss[i].canceled
    || exists k | 0 <= k < i :: moves[k] == ByGate(ReadHealth) && ss[k].state == Failed && ss[k].timer
  }

  lemma ExcuseStays(ss: seq<Startup>, moves: seq<Move>, from: State, i: nat)
    requires IsRun(ss, moves, from) && i < |moves| && Excused(ss, moves, i)
    ensures Excused(ss, moves, i + 1)
  {
    MadeHeard(ss[i], moves[i]);
    if k :| 0 <= k < i && moves[k] == ByGate(ReadHealth) && ss[k].state == Failed && ss[k].timer {
      assert 0 <= k < i + 1;
    }
  }

  // A gate that refuses, or has ended without opening, has one of these excuses.
  ghost predicate HasRefused(s: Startup) {
    s.gate == Refusing || (s.gate == Ended && s.open == 0)
  }

  lemma RefusalStep(s: Startup, m: GateMove)
    requires Ordered(s) && GateCan(s, m) && HasRefused(GateMade(s, m)) && !HasRefused(s)
    ensures || (m == SeeFailed && s.failed > 0) || (m == SeeCanceled && s.canceled)
            || (m == ReadHealth && s.state == Failed && s.timer)
  {}

  lemma RefusalIsTheGates(s: Startup, m: Move)
    requires Can(s, m) && !m.ByGate?
    ensures Made(s, m).gate == s.gate && Made(s, m).open == s.open
  {
    match m
    case ByOthers(o) => OthersLeaveGate(s, o);
    case ByDrain(d) => DrainLeavesGate(s, d);
  }

  lemma OthersLeaveGate(s: Startup, m: Outside)
    ensures OthersMade(s, m).gate == s.gate && OthersMade(s, m).open == s.open
  {}

  lemma DrainLeavesGate(s: Startup, m: DrainMove)
    requires DrainCan(s, m)
    ensures DrainMade(s, m).gate == s.gate && DrainMade(s, m).open == s.open
  {}

  lemma {:induction false} RefusedForAReason(ss: seq<Startup>, moves: seq<Move>, from: State, i: nat)
    requires IsRun(ss, moves, from) && from != Stopped && i < |ss| && HasRefused(ss[i])
    ensures Excused(ss, moves, i)
  {
    var k := i - 1;
    InvHolds(ss, moves, from, k);
    if HasRefused(ss[k]) {
      RefusedForAReason(ss, moves, from, k);
      ExcuseStays(ss, moves, from, k);
    } else if moves[k].ByGate? {
      RefusalStep(ss[k], moves[k].g);
      MadeHeard(ss[k], moves[k]);
    } else {
      RefusalIsTheGates(ss[k], moves[k]);
    }
  }

  /* ------------------------------------------------------------- what the drain announces */

  ghost predicate Returned(moves: seq<Move>, i: nat, err: bool, stopped: bool)
    requires i <= |moves|
  {
    exists k | 0 <= k < i :: Returning(moves[k], err, stopped)
  }

  // Where the drain is, and what it has told, is what it returned.
  ghost predicate Tells(s: Startup, moves: seq<Move>, i: nat)
    requires i <= |moves|
  {
    TellsOf(s, Returned(moves, i, true, true), Returned(moves, i, true, false),
            Returned(moves, i, false, true) || Returned(moves, i, false, false))
  }

  // The drain returned a cancellation, another error, or nothing at all.
  ghost predicate TellsOf(s: Startup, stopped: bool, broke: bool, completed: bool) {
    && (s.failed > 0 ==> stopped || broke)
    && (s.fatal ==> broke)
    && (s.replayed > 0 ==> completed)
    && match s.drain
       case Underway => !s.fatal && !stopped && !broke && !completed
       case Complete => completed && !stopped && !broke && !s.fatal
       case Serving => s.replayed > 0 && !stopped && !broke && !s.fatal
       case Gone => (s.failed > 0 || s.replayed > 0) && (s.fatal <==> broke)
       case _ =>
         && (if s.drain.stopped then stopped && !broke else broke && !stopped) && !completed
         && (s.drain.Announced? <==> s.failed > 0)
         && (s.fatal <==> !s.drain.stopped && !s.drain.Broken?)
  }

  lemma ReturnedNext(moves: seq<Move>, i: nat, err: bool, stopped: bool)
    requires i < |moves|
    ensures Returned(moves, i + 1, err, stopped) <==>
            Returned(moves, i, err, stopped) || Returning(moves[i], err, stopped)
  {
    if k :| 0 <= k < i && Returning(moves[k], err, stopped) {
      assert 0 <= k < i + 1;
    }
  }

  lemma TellsStep(s: Startup, moves: seq<Move>, i: nat)
    requires i < |moves| && Tells(s, moves, i) && Can(s, moves[i])
    ensures Tells(Made(s, moves[i]), moves, i + 1)
  {
    ReturnedNext(moves, i, true, true);
    ReturnedNext(moves, i, true, false);
    ReturnedNext(moves, i, false, true);
    ReturnedNext(moves, i, false, false);
    MadeTells(s, moves[i], Returned(moves, i, true, true), Returned(moves, i, true, false),
              Returned(moves, i, false, true) || Returned(moves, i, false, false));
  }

  ghost predicate Returning(m: Move, err: bool, stopped: bool) {
    m == ByDrain(Returns(err, stopped))
  }

  lemma MadeTells(s: Startup, m: Move, stopped: bool, broke: bool, completed: bool)
    requires Can(s, m) && TellsOf(s, stopped, broke, completed)
    ensures TellsOf(Made(s, m), stopped || Returning(m, true, true), broke || Returning(m, true, false),
                    completed || Returning(m, false, true) || Returning(m, false, false))
  {
    match m
    case ByOthers(o) => OthersLeaveDrain(s, o);
    case ByGate(g) => GateLeavesDrain(s, g);
    case ByDrain(d) => DrainTells(s, d, stopped, broke, completed);
  }

  lemma DrainTells(s: Startup, m: DrainMove, stopped: bool, broke: bool, completed: bool)
    requires DrainCan(s, m) && TellsOf(s, stopped, broke, completed)
    ensures TellsOf(DrainMade(s, m), stopped || m == Returns(true, true), broke || m == Returns(true, false),
                    completed || (m.Returns? && !m.err))
  {}

  lemma OthersLeaveDrain(s: Startup, m: Outside)
    ensures var s' := OthersMade(s, m);
            s'.drain == s.drain && s'.failed == s.failed && s'.replayed == s.replayed && s'.fatal == s.fatal
  {}

  lemma GateLeavesDrain(s: Startup, m: GateMove)
    ensures var s' := GateMade(s, m);
            s'.drain == s.drain && s'.failed == s.failed && s'.replayed == s.replayed && s'.fatal == s.fatal
  {
    match m case SeeReplayed => case ReadHealth => case _ =>
  }

  // `replayed` is closed only by a drain that completed, `failed` only by one that returned an error,
  // and the error is kept as fatal exactly when it was no cancellation.
  lemma {:induction false} DrainTellsTheTruth(ss: seq<Startup>, moves: seq<Move>, from: State, i: nat)
    requires IsRun(ss, moves, from) && i < |ss|
    ensures Tells(ss[i], moves, i)
  {
    if i > 0 {
      DrainTellsTheTruth(ss, moves, from, i - 1);
      TellsStep(ss[i - 1], moves, i - 1);
    }
  }

  // Steps of the gate itself still to come.
  ghost function StepsLeft(g: GateAt): nat {
    match g
    case Waiting => 4 case Looking => 3 case Opening => 2 case Refusing => 1 case Cleared => 1 case Ended => 0
  }

  // The gate is never stuck: as soon as there is something to see it has a step to take, and each
  // step brings it nearer its end.
  lemma GateHasAStep(s: Startup) returns (m: GateMove)
    requires s.gate != Ended
    requires s.timer || s.canceled || s.replayed > 0 || s.failed > 0
    ensures GateCan(s, m) && StepsLeft(GateMade(s, m).gate) < StepsLeft(s.gate)
  {
    match s.gate
    case Waiting =>
      m := if s.replayed > 0 then SeeReplayed else if s.failed > 0 then SeeFailed
           else if s.canceled then SeeCanceled else SeeTimer;
    case Looking => m := ReadHealth;
    case Cleared => m := CloseOpen;
    case _ => m := ClearPending;
  }

  /* --------------------------------------------------------- what the fields say of the run */

  ghost predicate Happened(moves: seq<Move>, i: nat, m: Move)
    requires i <= |moves|
  {
    exists k | 0 <= k < i :: moves[k] == m
  }

  lemma HappenedNext(moves: seq<Move>, i: nat, m: Move)
    requires i < |moves|
    ensures Happened(moves, i + 1, m) <==> Happened(moves, i, m) || moves[i] == m
  {
    if k :| 0 <= k < i && moves[k] == m {
      assert 0 <= k < i + 1;
    }
  }

  // The timer and the context are as others left them, and each channel is closed by its closing.
  ghost predicate Heard(s: Startup, moves: seq<Move>, i: nat)
    requires i <= |moves|
  {
    && (s.timer <==> Happened(moves, i, ByOthers(TimerFires)))
    && (s.canceled <==> Happened(moves, i, ByOthers(Cancel)))
    && (s.replayed > 0 <==> Happened(moves, i, ByDrain(CloseReplayed)))
    && (s.failed > 0 <==> Happened(moves, i, ByDrain(CloseFailed)))
  }

  ghost predicate HeardNext(s: Startup, s': Startup, m: Move) {
    && (s'.timer <==> s.timer || m == ByOthers(TimerFires))
    && (s'.canceled <==> s.canceled || m == ByOthers(Cancel))
    && (s'.replayed > 0 <==> s.replayed > 0 || m == ByDrain(CloseReplayed))
    && (s'.failed > 0 <==> s.failed > 0 || m == ByDrain(CloseFailed))
    && (s'.state == Failed ==> s.state == Failed || m == ByOthers(Sets(Failed)))
  }

  lemma OthersHeard(s: Startup, m: Outside)
    ensures HeardNext(s, OthersMade(s, m), ByOthers(m))
  {
    match m case Sets(to) => case _ =>
  }

  lemma DrainHeard(s: Startup, m: DrainMove)
    requires DrainCan(s, m)
    ensures HeardNext(s, DrainMade(s, m), ByDrain(m))
  {}

  lemma GateHeard(s: Startup, m: GateMove)
    ensures HeardNext(s, GateMade(s, m), ByGate(m))
  {
    GateLeavesOthers(s, m);
    GateLeavesDrain(s, m);
  }

  lemma GateLeavesOthers(s: Startup, m: GateMove)
    ensures var s' := GateMade(s, m); s'.timer == s.timer && s'.canceled == s.canceled && s'.state == s.state
  {}

  lemma MadeHeard(s: Startup, m: Move)
    requires Can(s, m)
    ensures HeardNext(s, Made(s, m), m)
  {
    match m
    case ByOthers(o) => OthersHeard(s, o);
    case ByDrain(d) => DrainHeard(s, d);
    case ByGate(g) => GateHeard(s, g);
  }

  lemma {:induction false} HeardAlways(ss: seq<Startup>, moves: seq<Move>, from: State, i: nat)
    requires IsRun(ss, moves, from) && i < |ss|
    ensures Heard(ss[i], moves, i)
    ensures ss[i].state == Failed ==> from == Failed || Happened(moves, i, ByOthers(Sets(Failed)))
  {
    if i > 0 {
      HeardAlways(ss, moves, from, i - 1);
      MadeHeard(ss[i - 1], moves[i - 1]);
      HappenedNext(moves, i - 1, ByOthers(TimerFires));
      HappenedNext(moves, i - 1, ByOthers(Cancel));
      HappenedNext(moves, i - 1, ByDrain(CloseReplayed));
      HappenedNext(moves, i - 1, ByDrain(CloseFailed));
      HappenedNext(moves, i - 1, ByOthers(Sets(Failed)));
    }
  }

  // Something has happened that the gate waits for.
  ghost predicate Awaited(moves: seq<Move>, i: nat)
    requires i <= |moves|
  {
    || Happened(moves, i, ByOthers(TimerFires)) || Happened(moves, i, ByOthers(Cancel))
    || Happened(moves, i, ByDrain(CloseReplayed)) || Happened(moves, i, ByDrain(CloseFailed))
  }

  // Once the budget has run out, the run was canceled or the drain has ended, the gate always has
  // a step to take and is at most four steps from its end.
  lemma GateMovesOn(ss: seq<Startup>, moves: seq<Move>, from: State, i: nat) returns (m: GateMove)
    requires IsRun(ss, moves, from) && i < |ss| && ss[i].gate != Ended && Awaited(moves, i)
    ensures GateCan(ss[i], m) && StepsLeft(GateMade(ss[i], m).gate) < StepsLeft(ss[i].gate) <= 4
  {
    HeardAlways(ss, moves, from, i);
    m := GateHasAStep(ss[i]);
  }

  // Nothing went wrong in the first i moves: no cancellation, no error from the drain, and nobody
  // set the coordinator failed.
  ghost predicate Untroubled(moves: seq<Move>, i: nat)
    requires i <= |moves|
  {
    forall k | 0 <= k < i ::
      && moves[k] != ByOthers(Cancel) && moves[k] != ByOthers(Sets(Failed))
      && !Returning(moves[k], true, true) && !Returning(moves[k], true, false)
  }

  // The gate does open: in an untroubled run a gate that has ended has opened.
  lemma GateOpens(ss: seq<Startup>, moves: seq<Move>, from: State, i: nat)
    requires IsRun(ss, moves, from) && from != Stopped && from != Failed && i < |ss|
    requires ss[i].gate == Ended && Untroubled(moves, i)
    ensures ss[i].open == 1
  {
    InvHolds(ss, moves, from, i);
    if HasRefused(ss[i]) {
      RefusedForAReason(ss, moves, from, i);
      HeardAlways(ss, moves, from, i);
      DrainTellsTheTruth(ss, moves, from, i);
      var k :| 0 <= k < i && moves[k] == ByGate(ReadHealth) && ss[k].state == Failed && ss[k].timer;
      HeardAlways(ss, moves, from, k);
    }
  }

  lemma Extend(ss: seq<Startup>, moves: seq<Move>, from: State, m: Move) returns (ss': seq<Startup>, moves': seq<Move>)
    requires IsRun(ss, moves, from) && Can(ss[|moves|], m)
    ensures IsRun(ss', moves', from) && ss'[|moves'|] == Made(ss[|moves|], m)
  {
    ss', moves' := ss + [Made(ss[|moves|], m)], moves + [m];
  }

  lemma LookAfterFatal(s: Startup)
    requires Visible(s) && s.gate == Looking && (BrokeForGood(s) || s.fatal)
    ensures GateMade(s, ReadHealth).gate == Opening <==> s.state == Stopped
    ensures GateMade(s, ReadHealth).gate == Refusing <==> s.state == Failed
  {}

  // A gate that reads the health after the drain broke for good opens exactly when the coordinator
  // has been closed; until then it refuses.
  lemma AfterFatalOpensIffStopped(ss: seq<Startup>, moves: seq<Move>, from: State, i: nat)
    requires IsRun(ss, moves, from) && from != Stopped && i < |ss|
    requires ss[i].gate == Looking && (BrokeForGood(ss[i]) || ss[i].fatal)
    ensures GateMade(ss[i], ReadHealth).gate == Opening <==> ss[i].state == Stopped
    ensures GateMade(ss[i], ReadHealth).gate == Refusing <==> ss[i].state == Failed
  {
    InvHolds(ss, moves, from, i);
    LookAfterFatal(ss[i]);
  }

  // The drain breaks for good and says so; then the teardown runs to its end.
  lemma BrokenAndAnnounced() returns (ss: seq<Startup>, moves: seq<Move>)
    ensures IsRun(ss, moves, Replaying)
    ensures ss[|moves|] == Begin(Replaying).(drain := Announced(false), failed := 1, fatal := true, state := Failed)
  {
    ss, moves := [Begin(Replaying)], [];
    ss, moves := Extend(ss, moves, Replaying, ByOthers(Sets(Failed)));
    ss, moves := Extend(ss, moves, Replaying, ByDrain(Returns(true, false)));
    ss, moves := Extend(ss, moves, Replaying, ByDrain(Record));
    ss, moves := Extend(ss, moves, Replaying, ByDrain(CloseFailed));
  }

  lemma BrokenThenClosed() returns (ss: seq<Startup>, moves: seq<Move>)
    ensures IsRun(ss, moves, Replaying)
    ensures ss[|moves|] == Begin(Replaying).(drain := Gone, failed := 1, done := 1, fatal := true,
                                             canceled := true, joined := true, state := Stopped)
  {
    ss, moves := BrokenAndAnnounced();
    ss, moves := Extend(ss, moves, Replaying, ByDrain(SendDone));
    ss, moves := Extend(ss, moves, Replaying, ByOthers(Cancel));
    ss, moves := Extend(ss, moves, Replaying, ByOthers(JoinReceivers));
    ss, moves := Extend(ss, moves, Replaying, ByOthers(CloseCoordinator));
  }

  // Closing matters: a coordinator closed after the drain broke for good no longer reads as
  // failed, and a gate that has not run until then may open on the spent budget.
  lemma OpenedAfterFatalWitness() returns (ss: seq<Startup>, moves: seq<Move>)
    ensures IsRun(ss, moves, Replaying) && ss[|moves|].fatal && ss[|moves|].open == 1
  {
    ss, moves := BrokenThenClosed();
    ss, moves := Extend(ss, moves, Replaying, ByOthers(TimerFires));
    ss, moves := Extend(ss, moves, Replaying, ByGate(SeeTimer));
    ss, moves := Extend(ss, moves, Replaying, ByGate(ReadHealth));
    ss, moves := Extend(ss, moves, Replaying, ByGate(ClearPending));
    ss, moves := Extend(ss, moves, Replaying, ByGate(CloseOpen));
  }
}
