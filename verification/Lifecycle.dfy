/**
 The daemon lifecycle protocol of daemon/service.go, daemon/daemon.go and
 wails/node.go as a transition system.

 Threads are the run loop, the health relay of the supervised daemon, and any
 number of callers of Restart, Stop, RecoverNeutrino, VerifyConfig and
 RestartNode. A step of a thread is one section between two points where
 another thread can interfere: a critical section of `cmux`, an operation on
 `d.mu`, a channel operation or a call on the signal interceptor. `d.stop` is
 two steps, because it cancels the daemon's context while it holds `d.mu` and
 requests the interceptor's shutdown only afterwards.

 Every choice the program leaves to its environment (a timeout, an error, which
 ready case of a `select` runs) is a choice of event, so a run is a sequence of
 events with the states between them, each step allowed by Next.
 */
module Lifecycle {
  import opened Wrappers
  import opened Updates

  datatype Tid = RunLoop | Relay | Caller(id: nat)

  /** Why the run loop is parked at the retry gate. */
  datatype Cause = StartupFailed | Crashed(err: Error)

  /** Points inside `(*flndDaemon).stop` (about to lock d.mu; holding d.mu with
      d.ctx cancelled) and inside `waitForShutdown` (phase 1; natural exit seen;
      phase 2; about to set closed). */
  datatype Point = EnterStop | Teardown | AwaitExit | Reap | Drain | MarkClosed

  /** Points inside `stopDaemon` and `RestartWithConfig`: about to lock cmux in
      either, and about to send on retryNow. */
  datatype Op = Claim | Look | Deposit

  /** Program counters. The methods behind In and Svc are called by several
      threads; `next` is what the thread does when the call returns. */
  datatype Pc =
    | Absent
    | In(point: Point, d: nat, next: Pc)
    | Svc(op: Op, next: Pc)
      // the run loop
    | Boot | Head | Acquire | Build(ic: nat) | Launch(d: nat) | Cleanup(d: nat) | Fail
    | Spawn(d: nat) | Register(d: nat) | Join(d: nat) | Clear(d: nat, crash: Option<Error>)
    | Gate(cause: Cause) | Exited
      // the relay
    | Listen(d: nat) | Got(d: nat, u: Update) | Checked(d: nat, u: Update) | RelayDone(d: nat)
      // other callers
    | CancelCtx | WaitLoop | Purge
    | TryAcquire(bounce: bool) | Validate(held: Option<nat>, bounce: bool)
    | Release(held: Option<nat>) | AwaitQuit(ic: nat) | Returned

  /** One flndDaemon. `exec` is true while its exec goroutine runs flnd.Main;
      `supervised` records that superviseDaemon was entered for it. */
  datatype Daemon = Daemon(
    ic: nat, stopping: bool, cancelled: bool, closed: bool, exec: bool,
    mu: Option<Tid>, supervised: bool)

  /** One signal.Interceptor: who acquired it, whether RequestShutdown was
      called, whether its ShutdownChannel is closed, and whether the
      process-wide `started` flag it set has been cleared. */
  datatype Interceptor = Interceptor(owner: Tid, requested: bool, quit: bool, freed: bool)

  /** What the current (or latest) relay received and published; `late` counts
      publications made when the daemon's stopping flag was already set. */
  datatype RelayLog = RelayLog(consumed: seq<Update>, published: seq<Update>, late: nat, crash: Option<Error>)

  datatype State = State(
    live: bool,                 // s.ctx is not cancelled
    client: Option<nat>,        // s.client, named by the daemon it belongs to
    daemon: Option<nat>,        // s.daemon
    retry: bool,                // retryNow holds its one token
    daemons: seq<Daemon>,
    ics: seq<Interceptor>,
    threads: map<Tid, Pc>,
    log: RelayLog)

  const EMPTY_LOG := RelayLog([], [], 0, None)

  const INIT := State(true, None, None, false, [], [], map[RunLoop := Boot], EMPTY_LOG)

  // ---------------------------------------------------------------- events

  /** Steps of d.stop and d.waitForShutdown. */
  datatype DaemonEv = StopNoop | StopBegin | StopEnd | SawExit | SawCancel | Reaped | Drained | SetClosed

  datatype LoopEv =
    | BootUp | Begin | Quit | AcquireOk | AcquireFail | BuildOk | BuildFail | StartOk | StartFail
    | CleanupOver | FailPublished | SpawnRelay | RegisterConn | JoinRelay | ClearPointers(crash: Option<Error>)
    | GatePass | GateQuit

  datatype RelayEv = Receive(u: Update) | Suppress | Admit | Publish | Cancelled | HealthClosed

  datatype Entry = DoRestart | DoStop | DoRecover | DoVerify | DoRestartNode

  datatype CallEv =
    | Arrive(entry: Entry) | CallCancel | LoopGone | Purged(ok: bool)
    | AcquireGot | AcquireBusy | AcquireError | Validated(ok: bool) | Released | QuitSeen

  /** Sections that touch the service's pointers or the retry channel. */
  datatype ServiceEv = ClaimDaemon | LookDaemon | DepositToken

  datatype EnvEv = ParentCancel | ExecExit(d: nat) | IcQuit(i: nat) | IcFree(i: nat)

  datatype Event =
    | OnDaemon(t: Tid, dev: DaemonEv)
    | OnService(t: Tid, sev: ServiceEv)
    | OnLoop(lev: LoopEv)
    | OnRelay(rev: RelayEv)
    | OnCall(id: nat, cev: CallEv)
    | OnEnv(eev: EnvEv)

  // ----------------------------------------------------------------- steps

  function At(s: State, t: Tid): Pc {
    if t in s.threads then s.threads[t] else Absent
  }

  function Go(s: State, t: Tid, pc: Pc): State {
    s.(threads := s.threads[t := pc])
  }

  function Put(s: State, d: nat, dm: Daemon): State
    requires d < |s.daemons|
  {
    s.(daemons := s.daemons[d := dm])
  }

  /** interceptor.RequestShutdown */
  function Request(s: State, i: nat): State {
    if i < |s.ics| then s.(ics := s.ics[i := s.ics[i].(requested := true)]) else s
  }

  function DaemonStep(s: State, t: Tid, ev: DaemonEv): Option<State> {
    var pc := At(s, t);
    if !pc.In? || pc.d >= |s.daemons| then None
    else
      var x := s.daemons[pc.d];
      match ev
      case StopNoop =>
        if pc.point.EnterStop? && x.mu.None? && x.closed then Some(Go(s, t, pc.next)) else None
      case StopBegin =>
        if pc.point.EnterStop? && x.mu.None? && !x.closed
        then Some(Go(Put(s, pc.d, x.(stopping := true, cancelled := true, mu := Some(t))),
                     t, pc.(point := Teardown)))
        else None
      case StopEnd =>
        if pc.point.Teardown?
        then Some(Go(Request(Put(s, pc.d, x.(mu := None)), x.ic), t, pc.next)) else None
      case SawExit =>
        if pc.point.AwaitExit? && !x.exec then Some(Go(s, t, pc.(point := Reap))) else None
      case SawCancel =>
        if pc.point.AwaitExit? && (x.cancelled || !s.live)
        then Some(Go(s, t, pc.(point := Drain))) else None
      case Reaped =>
        if pc.point.Reap? then Some(Go(Request(s, x.ic), t, pc.(point := MarkClosed))) else None
      case Drained =>
        if pc.point.Drain? && !x.exec then Some(Go(s, t, pc.(point := MarkClosed))) else None
      case SetClosed =>
        if pc.point.MarkClosed? && x.mu.None?
        then Some(Go(Put(s, pc.d, x.(closed := true)), t, pc.next)) else None
  }

  function ServiceStep(s: State, t: Tid, ev: ServiceEv): Option<State> {
    var pc := At(s, t);
    if !pc.Svc? then None
    else
      match ev
      case ClaimDaemon =>
        if pc.op.Claim?
        then Some(Go(s.(daemon := None, client := None), t,
                     if s.daemon.Some?
                     then In(EnterStop, s.daemon.value, In(AwaitExit, s.daemon.value, pc.next))
                     else pc.next))
        else None
      case LookDaemon =>
        if pc.op.Look?
        then Some(Go(s.(daemon := None, client := None), t,
                     if s.daemon.Some? then In(EnterStop, s.daemon.value, pc.next) else Svc(Deposit, pc.next)))
        else None
      case DepositToken =>
        if pc.op.Deposit? then Some(Go(s.(retry := true), t, pc.next)) else None
  }

  function LoopStep(s: State, ev: LoopEv): Option<State> {
    var pc := At(s, RunLoop);
    match ev
    case BootUp => if pc.Boot? then Some(Go(s, RunLoop, Head)) else None
    case Begin => if pc.Head? && s.live then Some(Go(s, RunLoop, Acquire)) else None
    case Quit => if pc.Head? && !s.live then Some(Go(s, RunLoop, Svc(Claim, Exited))) else None
    case AcquireOk =>
      if pc.Acquire? && AllFreed(s)
      then Some(Go(s.(ics := s.ics + [Interceptor(RunLoop, false, false, false)]), RunLoop, Build(|s.ics|)))
      else None
    case AcquireFail => if pc.Acquire? then Some(Go(s, RunLoop, Fail)) else None
    case BuildOk =>
      if pc.Build?
      then Some(Go(s.(daemons := s.daemons + [Daemon(pc.ic, false, false, false, true, None, false)]),
                   RunLoop, Launch(|s.daemons|)))
      else None
    case BuildFail => if pc.Build? then Some(Go(Request(s, pc.ic), RunLoop, Fail)) else None
    case StartOk => if pc.Launch? then Some(Go(s, RunLoop, Spawn(pc.d))) else None
    case StartFail => if pc.Launch? then Some(Go(s, RunLoop, In(EnterStop, pc.d, Cleanup(pc.d)))) else None
    case CleanupOver => if pc.Cleanup? then Some(Go(s, RunLoop, Fail)) else None
    case FailPublished => if pc.Fail? then Some(Go(s, RunLoop, Gate(StartupFailed))) else None
    case SpawnRelay =>
      if pc.Spawn? && pc.d < |s.daemons|
      then Some(Go(Go(Put(s, pc.d, s.daemons[pc.d].(supervised := true)).(log := EMPTY_LOG),
                      Relay, Listen(pc.d)), RunLoop, Register(pc.d)))
      else None
    case RegisterConn =>
      if pc.Register?
      then Some(Go(s.(client := Some(pc.d), daemon := Some(pc.d), retry := false),
                   RunLoop, In(AwaitExit, pc.d, Join(pc.d))))
      else None
    case JoinRelay =>
      if pc.Join? && At(s, Relay).RelayDone?
      then Some(Go(Go(s, Relay, Absent), RunLoop, Clear(pc.d, s.log.crash))) else None
    case ClearPointers(crash) =>
      if pc.Clear? && pc.crash == crash
      then Some(Go(s.(daemon := None, client := None), RunLoop,
                   if crash.Some? then Gate(Crashed(crash.value)) else Head))
      else None
    case GatePass => if pc.Gate? && s.retry then Some(Go(s.(retry := false), RunLoop, Head)) else None
    case GateQuit => if pc.Gate? && !s.live then Some(Go(s, RunLoop, Exited)) else None
  }

  /** signal.Intercept succeeds only while no earlier interceptor is started. */
  predicate AllFreed(s: State) {
    forall i :: 0 <= i < |s.ics| ==> s.ics[i].freed
  }

  function RelayStep(s: State, ev: RelayEv): Option<State> {
    var pc := At(s, Relay);
    match ev
    case Receive(u) =>
      if pc.Listen?
      then Some(Go(s.(log := s.log.(consumed := s.log.consumed + [u])), Relay, Got(pc.d, u))) else None
    case Suppress =>
      if pc.Got? && pc.d < |s.daemons| && s.daemons[pc.d].mu.None? && s.daemons[pc.d].stopping
      then Some(Go(s, Relay, Listen(pc.d))) else None
    case Admit =>
      if pc.Got? && pc.d < |s.daemons| && s.daemons[pc.d].mu.None? && !s.daemons[pc.d].stopping
      then Some(Go(s, Relay, Checked(pc.d, pc.u))) else None
    case Publish =>
      if pc.Checked? && pc.d < |s.daemons|
      then Some(Go(s.(log := s.log.(
                   published := s.log.published + [pc.u],
                   late := s.log.late + (if s.daemons[pc.d].stopping then 1 else 0),
                   crash := if pc.u.state == Down && s.log.crash.None? then pc.u.err else s.log.crash)),
                   Relay, if pc.u.state == Down then In(EnterStop, pc.d, Listen(pc.d)) else Listen(pc.d)))
      else None
    case Cancelled =>
      if pc.Listen? && (!s.live || At(s, RunLoop) == Join(pc.d))
      then Some(Go(s, Relay, In(EnterStop, pc.d, RelayDone(pc.d)))) else None
    case HealthClosed =>
      if pc.Listen? then Some(Go(s, Relay, RelayDone(pc.d))) else None
  }

  function FirstPc(entry: Entry): Pc {
    match entry
    case DoRestart => Svc(Look, Returned)
    case DoStop => Svc(Claim, CancelCtx)
    case DoRecover => Svc(Claim, Purge)
    case DoVerify => TryAcquire(false)
    case DoRestartNode => TryAcquire(true)
  }

  function CallStep(s: State, id: nat, ev: CallEv): Option<State> {
    var t := Caller(id);
    var pc := At(s, t);
    match ev
    case Arrive(entry) => if pc.Absent? then Some(Go(s, t, FirstPc(entry))) else None
    case CallCancel => if pc.CancelCtx? then Some(Go(s.(live := false), t, WaitLoop)) else None
    case LoopGone =>
      if pc.WaitLoop? && (At(s, RunLoop).Boot? || At(s, RunLoop).Exited?)
      then Some(Go(s, t, Returned)) else None
    case Purged(ok) => if pc.Purge? then Some(Go(s, t, if ok then Svc(Look, Returned) else Returned)) else None
    case AcquireGot =>
      if pc.TryAcquire? && AllFreed(s)
      then Some(Go(s.(ics := s.ics + [Interceptor(t, false, false, false)]), t,
                   Validate(Some(|s.ics|), pc.bounce)))
      else None
    case AcquireBusy =>
      if pc.TryAcquire? && !AllFreed(s) then Some(Go(s, t, Validate(None, pc.bounce))) else None
    case AcquireError => if pc.TryAcquire? then Some(Go(s, t, Returned)) else None
    case Validated(ok) =>
      if pc.Validate?
      then Some(Go(s, t, if ok && pc.bounce then Svc(Look, Release(pc.held)) else Release(pc.held))) else None
    case Released =>
      if pc.Release?
      then Some(if pc.held.Some? then Go(Request(s, pc.held.value), t, AwaitQuit(pc.held.value))
                else Go(s, t, Returned))
      else None
    case QuitSeen =>
      if pc.AwaitQuit? && pc.ic < |s.ics| && s.ics[pc.ic].quit then Some(Go(s, t, Returned)) else None
  }

  /** The parent context ends, flnd.Main returns, an interceptor's handler
      closes its channel and then clears the process-wide flag. */
  function EnvStep(s: State, ev: EnvEv): Option<State> {
    match ev
    case ParentCancel => Some(s.(live := false))
    case ExecExit(d) =>
      if d < |s.daemons| then Some(Put(s, d, s.daemons[d].(exec := false))) else None
    case IcQuit(i) =>
      if i < |s.ics| then Some(s.(ics := s.ics[i := s.ics[i].(quit := true)])) else None
    case IcFree(i) =>
      if i < |s.ics| && s.ics[i].quit then Some(s.(ics := s.ics[i := s.ics[i].(freed := true)])) else None
  }

  function Next(s: State, e: Event): Option<State> {
    match e
    case OnDaemon(t, ev) => DaemonStep(s, t, ev)
    case OnService(t, ev) => ServiceStep(s, t, ev)
    case OnLoop(ev) => LoopStep(s, ev)
    case OnRelay(ev) => RelayStep(s, ev)
    case OnCall(id, ev) => CallStep(s, id, ev)
    case OnEnv(ev) => EnvStep(s, ev)
  }

  // ------------------------------------------------------------------ runs

  /** Events, and the states before, between and after them. */
  datatype History = History(events: seq<Event>, states: seq<State>)

  predicate StepAt(h: History, i: nat)
    requires i < |h.events| && |h.states| == |h.events| + 1
  {
    Next(h.states[i], h.events[i]) == Some(h.states[i + 1])
  }

  /** Every event leads from the state before it to the state after it. */
  predicate IsPath(h: History) {
    |h.states| == |h.events| + 1 && forall i :: 0 <= i < |h.events| ==> StepAt(h, i)
  }

  /** A possible run from the initial state. */
  predicate IsRun(h: History) {
    IsPath(h) && h.states[0] == INIT
  }

  /** One step, as a path; proofs unfold Next only where they call StepMeans. */
  predicate Steps(s: State, e: Event, s': State) {
    IsPath(History([e], [s, s']))
  }

  lemma StepMeans(s: State, e: Event, s': State)
    ensures Steps(s, e, s') <==> Next(s, e) == Some(s')
  {
    assert Steps(s, e, s') ==> StepAt(History([e], [s, s']), 0);
  }

  predicate EndsIn(h: History, s: State) {
    IsRun(h) && h.states[|h.events|] == s
  }

  ghost predicate Reachable(s: State) {
    exists h :: EndsIn(h, s)
  }
}

/** No thread is stuck but for what it has to wait for. */
module Progress {
  import opened Wrappers
  import opened Updates
  import opened Lifecycle
  import opened LifecycleInvariant

  /** What a thread may have to wait for: d.mu, the end of flnd.Main or of the context,
      the relay, the retry token, the run loop, an interceptor's shutdown. */
  predicate Waits(s: State, t: Tid) {
    match At(s, t)
    case In(p, d, _) =>
      d < |s.daemons| && WaitsAt(s, p, s.daemons[d])
    case Join(_) => !At(s, Relay).RelayDone?
    case Gate(_) => !s.retry && s.live
    case Got(d, _) => d < |s.daemons| && s.daemons[d].mu.Some?
    case WaitLoop => !At(s, RunLoop).Boot? && !At(s, RunLoop).Exited?
    case AwaitQuit(i) => i < |s.ics| && !s.ics[i].quit
    case _ => false
  }

  predicate WaitsAt(s: State, p: Point, x: Daemon) {
    match p
    case EnterStop => x.mu.Some?
    case Teardown => false
    case AwaitExit => x.exec && !x.cancelled && s.live
    case Reap => false
    case Drain => x.exec
    case MarkClosed => x.mu.Some?
  }

  predicate Over(pc: Pc) {
    pc.Absent? || pc.Exited? || pc.RelayDone? || pc.Returned?
  }

  /** Every thread that is neither over nor waiting can take a step. */
  lemma ThreadCanMove(s: State, t: Tid) returns (e: Event)
    requires Inv(s) && !Over(At(s, t)) && !Waits(s, t)
    ensures Mover(e) == t && Next(s, e).Some?
  {
    if At(s, t).In? {
      var ev := MoveInside(s, t);
      e := OnDaemon(t, ev);
    } else if At(s, t).Svc? {
      e := OnService(t, match At(s, t).op
                        case Claim => ClaimDaemon
                        case Look => LookDaemon
                        case Deposit => DepositToken);
    } else {
      match t
      case RunLoop => var ev := MoveLoop(s); e := OnLoop(ev);
      case Relay => var ev := MoveRelay(s); e := OnRelay(ev);
      case Caller(id) => var ev := MoveCall(s, id); e := OnCall(id, ev);
    }
  }

  lemma MoveInside(s: State, t: Tid) returns (ev: DaemonEv)
    requires Inv(s) && At(s, t).In? && !Waits(s, t)
    ensures DaemonStep(s, t, ev).Some?
  {
    Continuation(s, t);
    var x := s.daemons[At(s, t).d];
    match At(s, t).point
    case EnterStop => ev := if x.closed then StopNoop else StopBegin;
    case Teardown => ev := StopEnd;
    case AwaitExit => ev := if x.exec then SawCancel else SawExit;
    case Reap => ev := Reaped;
    case Drain => ev := Drained;
    case MarkClosed => ev := SetClosed;
  }

  lemma MoveLoop(s: State) returns (ev: LoopEv)
    requires Inv(s) && !Over(At(s, RunLoop)) && !Waits(s, RunLoop) && !At(s, RunLoop).In? && !At(s, RunLoop).Svc?
    ensures LoopStep(s, ev).Some?
  {
    assert RunShape(s, At(s, RunLoop));
    match At(s, RunLoop)
    case Boot => ev := BootUp;
    case Head => ev := if s.live then Begin else Quit;
    case Acquire => ev := AcquireFail;
    case Build(_) => ev := BuildOk;
    case Launch(_) => ev := StartOk;
    case Cleanup(_) => ev := CleanupOver;
    case Fail => ev := FailPublished;
    case Spawn(_) => ev := SpawnRelay;
    case Register(_) => ev := RegisterConn;
    case Join(_) => ev := JoinRelay;
    case Clear(_, crash) => ev := ClearPointers(crash);
    case Gate(_) => ev := if s.retry then GatePass else GateQuit;
  }

  lemma MoveRelay(s: State) returns (ev: RelayEv)
    requires Inv(s) && !Over(At(s, Relay)) && !Waits(s, Relay) && !At(s, Relay).In? && !At(s, Relay).Svc?
    ensures RelayStep(s, ev).Some?
  {
    assert RelayShape(At(s, RunLoop), At(s, Relay)) && RunShape(s, At(s, RunLoop));
    match At(s, Relay)
    case Listen(_) => ev := Receive(Update(Syncing, None));
    case Got(d, _) => ev := if s.daemons[d].stopping then Suppress else Admit;
    case Checked(_, _) => ev := Publish;
  }

  lemma MoveCall(s: State, id: nat) returns (ev: CallEv)
    requires Inv(s) && !Over(At(s, Caller(id))) && !Waits(s, Caller(id))
    requires !At(s, Caller(id)).In? && !At(s, Caller(id)).Svc?
    ensures CallStep(s, id, ev).Some?
  {
    assert CallerShape(s, At(s, Caller(id)));
    match At(s, Caller(id))
    case CancelCtx => ev := CallCancel;
    case WaitLoop => ev := LoopGone;
    case Purge => ev := Purged(true);
    case TryAcquire(_) => ev := if AllFreed(s) then AcquireGot else AcquireBusy;
    case Validate(_, _) => ev := Validated(true);
    case Release(_) => ev := Released;
    case AwaitQuit(_) => ev := QuitSeen;
  }

  /** Nobody waits for ever on d.mu or on the relay: whoever holds d.mu can take the
      step that frees it, and while the run loop waits for the relay, the relay, or
      whoever holds d.mu, can move. */
  lemma HolderCanMove(s: State, d: nat)
    requires Inv(s) && d < |s.daemons| && s.daemons[d].mu.Some?
    ensures DaemonStep(s, s.daemons[d].mu.value, StopEnd).Some?
  {
    assert DaemonOk(s, d);
  }

  lemma JoinedRelayCanMove(s: State) returns (e: Event)
    requires Inv(s) && At(s, RunLoop).Join? && !At(s, Relay).RelayDone?
    ensures Next(s, e).Some? && !e.OnEnv? && !(e.OnRelay? && e.rev.Receive?)
  {
    assert RelayShape(At(s, RunLoop), At(s, Relay)) && RunShape(s, At(s, RunLoop)) && Fact(s, At(s, RunLoop));
    var d := At(s, RunLoop).d;
    if s.daemons[d].mu.Some? {
      HolderCanMove(s, d);
      e := OnDaemon(s.daemons[d].mu.value, StopEnd);
    } else if At(s, Relay).Listen? {
      e := OnRelay(Cancelled);
    } else {
      e := ThreadCanMove(s, Relay);
    }
  }
}

/** What every step of the lifecycle protocol keeps. */
module LifecycleInvariant {
  import opened Wrappers
  import opened Updates
  import opened Lifecycle

  // ------------------------------------------------------- facts about a state

  /** The daemon whose relay is running: from the relay's spawn to its join. */
  function Scope(pc: Pc): Option<nat> {
    match pc
    case Register(d) => Some(d)
    case In(p, d, _) => if Waiting(p) then Some(d) else None
    case Join(d) => Some(d)
    case _ => None
  }

  /** The daemon the run loop has registered and not yet cleared. */
  function Tracked(pc: Pc): Option<nat> {
    match pc
    case In(p, d, _) => if Waiting(p) then Some(d) else None
    case Join(d) => Some(d)
    case Clear(d, _) => Some(d)
    case _ => None
  }

  /** Inside waitForShutdown. */
  predicate Waiting(p: Point) {
    !p.EnterStop? && !p.Teardown?
  }

  predicate IsDaemon(s: State, d: nat) {
    d < |s.daemons| && s.daemons[d].ic < |s.ics| && s.ics[s.daemons[d].ic].owner == RunLoop
  }

  /** The daemon's interceptor has had its shutdown requested, or the service
      context has ended. */
  predicate Settled(s: State, d: nat) {
    IsDaemon(s, d) && (s.ics[s.daemons[d].ic].requested || !s.live)
  }

  /** A daemon whose supervision was entered. */
  predicate IsSupervised(s: State, d: nat) {
    IsDaemon(s, d) && s.daemons[d].supervised
  }

  predicate RunShape(s: State, pc: Pc) {
    match pc
    case Boot => true
    case Head => true
    case Acquire => true
    case Fail => true
    case Gate(_) => true
    case Exited => true
    case Svc(op, n) => op == Claim && n == Exited
    case Build(i) => i < |s.ics| && s.ics[i].owner == RunLoop
    case Launch(d) => IsDaemon(s, d)
    case Cleanup(d) => IsDaemon(s, d)
    case Spawn(d) => IsDaemon(s, d)
    case Register(d) => IsSupervised(s, d)
    case Join(d) => IsSupervised(s, d)
    case Clear(d, _) => IsSupervised(s, d)
    case In(p, d, n) =>
      if Waiting(p) then IsSupervised(s, d) && n == Join(d) else IsDaemon(s, d) && n == Cleanup(d)
    case _ => false
  }

  /** The relay is present exactly while its daemon is in scope. */
  predicate RelayShape(run: Pc, pc: Pc) {
    match pc
    case Absent => Scope(run).None?
    case Listen(d) => Scope(run) == Some(d)
    case Got(d, _) => Scope(run) == Some(d)
    case Checked(d, _) => Scope(run) == Some(d)
    case RelayDone(d) => Scope(run) == Some(d)
    case In(p, d, n) => Scope(run) == Some(d) && !Waiting(p) && (n == Listen(d) || n == RelayDone(d))
    case _ => false
  }

  predicate CallerShape(s: State, pc: Pc) {
    match pc
    case In(_, d, n) => IsDaemon(s, d) && Resumable(n) && CallerShape(s, n)
    case Svc(_, n) => Resumable(n) && CallerShape(s, n)
    case Absent => true
    case CancelCtx => true
    case WaitLoop => true
    case Purge => true
    case TryAcquire(_) => true
    case Validate(h, _) => h.Some? ==> HeldByCaller(s, h.value)
    case Release(h) => h.Some? ==> HeldByCaller(s, h.value)
    case AwaitQuit(i) => HeldByCaller(s, i)
    case Returned => true
    case _ => false
  }

  predicate HeldByCaller(s: State, i: nat) {
    i < |s.ics| && s.ics[i].owner.Caller?
  }

  /** A continuation that needs no fact of its own to resume. */
  predicate Resumable(pc: Pc) {
    match pc
    case In(p, _, _) => p.EnterStop? || p.AwaitExit?
    case CancelCtx => true
    case Purge => true
    case Release(_) => true
    case Returned => true
    case _ => false
  }

  /** What a thread knows at its program counter. Each fact is stable: no step
      of another thread takes it away. */
  predicate Fact(s: State, pc: Pc) {
    match pc
    case In(p, d, _) => d < |s.daemons| && PointFact(s, p, d)
    case Cleanup(d) => Settled(s, d)
    case Join(d) => d < |s.daemons| && s.daemons[d].closed
    case Clear(d, _) => d < |s.daemons| && s.daemons[d].closed
    case AwaitQuit(i) => i < |s.ics| && s.ics[i].requested
    case _ => true
  }

  predicate PointFact(s: State, p: Point, d: nat)
    requires d < |s.daemons|
  {
    match p
    case EnterStop => true
    case Teardown => s.daemons[d].stopping
    case AwaitExit => true
    case Reap => !s.daemons[d].exec
    case Drain => s.daemons[d].cancelled || !s.live
    case MarkClosed => !s.daemons[d].exec && (s.daemons[d].cancelled || Settled(s, d))
  }

  predicate DaemonOk(s: State, d: nat)
    requires d < |s.daemons|
  {
    var x := s.daemons[d];
    && IsDaemon(s, d)
    && (x.stopping ==> x.cancelled)
    && (x.cancelled && x.mu.None? ==> s.ics[x.ic].requested)
    && (x.closed ==> !x.exec && Settled(s, d))
    && (x.mu.Some? ==> InTeardown(At(s, x.mu.value)) && At(s, x.mu.value).d == d)
    && (x.supervised && Scope(At(s, RunLoop)) != Some(d) ==> x.closed)
  }

  predicate InTeardown(pc: Pc) {
    pc.In? && pc.point.Teardown?
  }

  /** The interceptor the run loop is responsible for at this point. */
  function RunHolds(s: State, pc: Pc): Option<nat> {
    match pc
    case Build(i) => Some(i)
    case Launch(d) => IcOf(s, d)
    case Spawn(d) => IcOf(s, d)
    case Register(d) => IcOf(s, d)
    case In(_, d, _) => IcOf(s, d)
    case _ => None
  }

  function IcOf(s: State, d: nat): Option<nat> {
    if d < |s.daemons| then Some(s.daemons[d].ic) else None
  }

  /** The interceptor a caller of VerifyConfig or RestartNode will still release. */
  function CallerHolds(pc: Pc): Option<nat> {
    match pc
    case Validate(h, _) => h
    case Release(h) => h
    case In(_, _, n) => CallerHolds(n)
    case Svc(_, n) => CallerHolds(n)
    case _ => None
  }

  predicate IcOk(s: State, i: nat)
    requires i < |s.ics|
  {
    match s.ics[i].owner
    case RunLoop => s.ics[i].requested || !s.live || RunHolds(s, At(s, RunLoop)) == Some(i)
    case Caller(id) =>
      || CallerHolds(At(s, Caller(id))) == Some(i)
      || (s.ics[i].requested && (At(s, Caller(id)) == AwaitQuit(i) || (s.ics[i].quit && At(s, Caller(id)) == Returned)))
    case Relay => false
  }

  /** The relay publishes a prefix of what it consumes, one update behind while
      it holds one, and stops publishing for good once it has suppressed one. */
  predicate LogOk(s: State, pc: Pc) {
    var held := if pc.Got? || pc.Checked? then 1 else 0;
    && |s.log.published| + held <= |s.log.consumed|
    && s.log.published == s.log.consumed[..|s.log.published|]
    && (held == 1 ==> s.log.consumed[|s.log.consumed| - 1] == pc.u)
    && s.log.crash == FirstCrash(s.log.published)
    && s.log.late <= 1
    && (Relaying(pc) ==>
          && (|s.log.published| + held < |s.log.consumed| || s.log.late == 1
              ==> pc.d < |s.daemons| && s.daemons[pc.d].stopping && !pc.Checked?))
  }

  predicate Relaying(pc: Pc) {
    pc.Listen? || pc.Got? || pc.Checked? || pc.In?
  }

  ghost predicate ThreadsOk(s: State) {
    && RunShape(s, At(s, RunLoop))
    && RelayShape(At(s, RunLoop), At(s, Relay))
    && forall id: nat :: CallerShape(s, At(s, Caller(id)))
  }

  ghost predicate FactsOk(s: State) {
    forall t: Tid :: Fact(s, At(s, t))
  }

  ghost predicate LocksOk(s: State) {
    forall t: Tid :: InTeardown(At(s, t)) ==>
      At(s, t).d < |s.daemons| && s.daemons[At(s, t).d].mu == Some(t)
  }

  ghost predicate DaemonsOk(s: State) {
    forall d :: 0 <= d < |s.daemons| ==> DaemonOk(s, d)
  }

  ghost predicate IcsOk(s: State) {
    && (forall i :: 0 <= i < |s.ics| ==> IcOk(s, i))
    && (forall i :: 0 <= i < |s.ics| - 1 ==> s.ics[i].freed)
  }

  ghost predicate PointersOk(s: State) {
    && s.client == s.daemon
    && (s.daemon.Some? ==> Tracked(At(s, RunLoop)) == s.daemon)
  }

  ghost predicate RelayOk(s: State) {
    && LogOk(s, At(s, Relay))
    && (At(s, RunLoop).Clear? ==> At(s, RunLoop).crash == s.log.crash)
    && (At(s, RunLoop).Gate? && At(s, RunLoop).cause.Crashed? ==> s.log.crash == Some(At(s, RunLoop).cause.err))
  }

  ghost predicate Inv(s: State) {
    ThreadsOk(s) && FactsOk(s) && LocksOk(s) && DaemonsOk(s) && IcsOk(s) && PointersOk(s) && RelayOk(s)
  }

  // -------------------------------------------------- what only ever changes one way

  /** Flags are only raised, goroutines only exit, the context only ends. */
  ghost predicate Later(s: State, s': State) {
    && |s.daemons| <= |s'.daemons|
    && |s.ics| <= |s'.ics|
    && (s'.live ==> s.live)
    && (forall d :: 0 <= d < |s.daemons| ==> LaterDaemon(s.daemons[d], s'.daemons[d]))
    && (forall i :: 0 <= i < |s.ics| ==> LaterIc(s.ics[i], s'.ics[i]))
  }

  predicate LaterDaemon(x: Daemon, y: Daemon) {
    && x.ic == y.ic
    && (x.stopping ==> y.stopping)
    && (x.cancelled ==> y.cancelled)
    && (x.closed ==> y.closed)
    && (y.exec ==> x.exec)
    && (x.supervised ==> y.supervised)
  }

  predicate LaterIc(x: Interceptor, y: Interceptor) {
    && x.owner == y.owner
    && (x.requested ==> y.requested)
    && (x.quit ==> y.quit)
    && (x.freed ==> y.freed)
  }

  lemma StepLater(s: State, e: Event, s': State)
    requires Steps(s, e, s')
    ensures Later(s, s')
  {
    StepMeans(s, e, s');
    match e
    case OnDaemon(t, ev) => LaterOnDaemon(s, t, ev, s');
    case OnService(t, ev) => LaterOnService(s, t, ev, s');
    case OnLoop(ev) => LaterOnLoop(s, ev, s');
    case OnRelay(ev) => LaterOnRelay(s, ev, s');
    case OnCall(id, ev) => LaterOnCall(s, id, ev, s');
    case OnEnv(ev) => LaterOnEnv(s, ev, s');
  }

  lemma LaterOnService(s: State, t: Tid, ev: ServiceEv, s': State)
    requires ServiceStep(s, t, ev) == Some(s')
    ensures Later(s, s')
  {
  }

  lemma LaterOnEnv(s: State, ev: EnvEv, s': State)
    requires EnvStep(s, ev) == Some(s')
    ensures Later(s, s')
  {
  }

  lemma LaterOnDaemon(s: State, t: Tid, ev: DaemonEv, s': State)
    requires DaemonStep(s, t, ev) == Some(s')
    ensures Later(s, s')
  {
    LaterFlags(s, t, ev, s');
    LaterIcs(s, t, ev, s');
  }

  lemma LaterFlags(s: State, t: Tid, ev: DaemonEv, s': State)
    requires DaemonStep(s, t, ev) == Some(s')
    ensures |s'.daemons| == |s.daemons| && s'.live == s.live
    ensures forall d :: 0 <= d < |s.daemons| ==> LaterDaemon(s.daemons[d], s'.daemons[d])
  {
    OneDaemonMoves(s, t, ev, s');
  }

  lemma OneDaemonMoves(s: State, t: Tid, ev: DaemonEv, s': State)
    requires DaemonStep(s, t, ev) == Some(s')
    ensures At(s, t).In? && At(s, t).d < |s.daemons| == |s'.daemons| && s'.live == s.live
    ensures LaterDaemon(s.daemons[At(s, t).d], s'.daemons[At(s, t).d])
    ensures s'.daemons == s.daemons[At(s, t).d := s'.daemons[At(s, t).d]]
  {
  }

  lemma LaterIcs(s: State, t: Tid, ev: DaemonEv, s': State)
    requires DaemonStep(s, t, ev) == Some(s')
    ensures |s'.ics| == |s.ics|
    ensures forall i :: 0 <= i < |s.ics| ==> LaterIc(s.ics[i], s'.ics[i])
  {
  }

  lemma LaterOnLoop(s: State, ev: LoopEv, s': State)
    requires LoopStep(s, ev) == Some(s')
    ensures Later(s, s')
  {
  }

  lemma LaterOnRelay(s: State, ev: RelayEv, s': State)
    requires RelayStep(s, ev) == Some(s')
    ensures Later(s, s')
  {
  }

  lemma LaterOnCall(s: State, id: nat, ev: CallEv, s': State)
    requires CallStep(s, id, ev) == Some(s')
    ensures Later(s, s')
  {
    CallDaemons(s, id, ev, s');
    CallInterceptors(s, id, ev, s');
  }

  lemma CallDaemons(s: State, id: nat, ev: CallEv, s': State)
    requires CallStep(s, id, ev) == Some(s')
    ensures s'.daemons == s.daemons && (s'.live ==> s.live)
  {
  }

  lemma CallInterceptors(s: State, id: nat, ev: CallEv, s': State)
    requires CallStep(s, id, ev) == Some(s')
    ensures |s.ics| <= |s'.ics|
    ensures forall i :: 0 <= i < |s.ics| ==> LaterIc(s.ics[i], s'.ics[i])
  {
  }

  lemma FactStable(s: State, s': State, pc: Pc)
    requires Later(s, s') && Fact(s, pc)
    ensures Fact(s', pc)
  {
  }

  lemma {:induction false} CallerShapeStable(s: State, s': State, pc: Pc)
    requires Later(s, s') && CallerShape(s, pc)
    ensures CallerShape(s', pc)
    decreases pc
  {
    match pc
    case In(_, _, n) => CallerShapeStable(s, s', n);
    case Svc(_, n) => CallerShapeStable(s, s', n);
    case _ =>
  }

  // ------------------------------------------------------------- one step

  /** The thread an event moves. */
  function Mover(e: Event): Tid {
    match e
    case OnDaemon(t, _) => t
    case OnService(t, _) => t
    case OnLoop(_) => RunLoop
    case OnRelay(_) => Relay
    case OnCall(id, _) => Caller(id)
    case OnEnv(_) => RunLoop
  }

  /** The run loop also creates and removes the relay. */
  predicate MovesRelay(e: Event) {
    e.OnLoop? && (e.lev.SpawnRelay? || e.lev.JoinRelay?)
  }

  /** The threads an event does not move keep their program counter. */
  lemma Others(s: State, e: Event, s': State, t: Tid)
    requires Steps(s, e, s')
    requires t != Mover(e) && !(MovesRelay(e) && t == Relay)
    ensures At(s', t) == At(s, t)
  {
    StepMeans(s, e, s');
    match e
    case OnDaemon(m, ev) => DaemonOthers(s, m, ev, s', t);
    case OnService(_, ev) =>
    case OnLoop(ev) => LoopOthers(s, ev, s', t);
    case OnRelay(ev) => RelayOthers(s, ev, s', t);
    case OnCall(id, ev) => CallOthers(s, id, ev, s', t);
    case OnEnv(ev) =>
  }

  lemma DaemonOthers(s: State, m: Tid, ev: DaemonEv, s': State, t: Tid)
    requires DaemonStep(s, m, ev) == Some(s') && t != m
    ensures At(s', t) == At(s, t)
  {
  }

  lemma LoopOthers(s: State, ev: LoopEv, s': State, t: Tid)
    requires LoopStep(s, ev) == Some(s')
    requires t != RunLoop && !((ev.SpawnRelay? || ev.JoinRelay?) && t == Relay)
    ensures At(s', t) == At(s, t)
  {
  }

  lemma RelayOthers(s: State, ev: RelayEv, s': State, t: Tid)
    requires RelayStep(s, ev) == Some(s') && t != Relay
    ensures At(s', t) == At(s, t)
  {
  }

  lemma CallOthers(s: State, id: nat, ev: CallEv, s': State, t: Tid)
    requires CallStep(s, id, ev) == Some(s') && t != Caller(id)
    ensures At(s', t) == At(s, t)
  {
  }

  // ---- what the threads that do not move keep

  /** Every thread but a and b stays where it is. */
  ghost predicate OnlyMove(s: State, s': State, a: Tid, b: Tid) {
    forall t: Tid :: t != a && t != b ==> At(s', t) == At(s, t)
  }

  lemma FactsFrame(s: State, s': State, a: Tid, b: Tid)
    requires FactsOk(s) && Later(s, s') && OnlyMove(s, s', a, b) && Fact(s', At(s', a)) && Fact(s', At(s', b))
    ensures FactsOk(s')
  {
    forall t: Tid ensures Fact(s', At(s', t)) {
      if t != a && t != b {
        FactStable(s, s', At(s, t));
      }
    }
  }

  lemma CallersFrame(s: State, s': State, a: Tid, b: Tid)
    requires ThreadsOk(s) && Later(s, s') && OnlyMove(s, s', a, b)
    requires a.Caller? ==> CallerShape(s', At(s', a))
    requires b.Caller? ==> CallerShape(s', At(s', b))
    ensures forall id: nat :: CallerShape(s', At(s', Caller(id)))
  {
    forall id: nat ensures CallerShape(s', At(s', Caller(id))) {
      assert CallerShape(s, At(s, Caller(id)));
      if Caller(id) != a && Caller(id) != b {
        CallerShapeStable(s, s', At(s, Caller(id)));
      }
    }
  }

  lemma LocksFrame(s: State, s': State, a: Tid, b: Tid)
    requires LocksOk(s) && OnlyMove(s, s', a, b) && !InTeardown(At(s', a))
    requires At(s', b) == At(s, b) || !InTeardown(At(s', b))
    requires |s.daemons| <= |s'.daemons|
    requires forall d :: 0 <= d < |s.daemons| ==> s'.daemons[d].mu == s.daemons[d].mu
    ensures LocksOk(s')
  {
  }

  lemma DaemonsFrame(s: State, s': State, a: Tid)
    requires DaemonsOk(s) && Later(s, s') && OnlyMove(s, s', a, a) && !InTeardown(At(s, a))
    requires s'.daemons == s.daemons && Scope(At(s', RunLoop)) == Scope(At(s, RunLoop))
    ensures DaemonsOk(s')
  {
    forall d | 0 <= d < |s'.daemons| ensures DaemonOk(s', d) {
      assert DaemonOk(s, d);
      DaemonFrame(s, s', d);
    }
  }

  lemma IcStable(s: State, s': State, i: nat)
    requires i < |s.ics| && IcOk(s, i) && Later(s, s') && At(s', s.ics[i].owner) == At(s, s.ics[i].owner)
    ensures IcOk(s', i)
  {
  }

  /** The interceptors of the threads that stay, those of the thread that moves, and
      the one it may have acquired when all earlier ones were free. */
  lemma IcsFrame(s: State, s': State, a: Tid)
    requires IcsOk(s) && Later(s, s') && OnlyMove(s, s', a, Relay)
    requires forall i :: 0 <= i < |s.ics| && s.ics[i].owner == a ==> IcOk(s', i)
    requires |s'.ics| == |s.ics| || (|s'.ics| == |s.ics| + 1 && AllFreed(s) && IcOk(s', |s.ics|))
    ensures IcsOk(s')
  {
    forall i | 0 <= i < |s'.ics| ensures IcOk(s', i) {
      if i < |s.ics| && s.ics[i].owner != a {
        assert IcOk(s, i);
        IcStable(s, s', i);
      }
    }
    forall i | 0 <= i < |s'.ics| - 1 ensures s'.ics[i].freed {
      assert i < |s.ics| && s.ics[i].freed;
    }
  }

  // ---- facts

  lemma SpawnedRelay(s: State, ev: LoopEv, s': State)
    requires LoopStep(s, ev) == Some(s') && (ev.SpawnRelay? || ev.JoinRelay?)
    ensures At(s', Relay).Absent? || At(s', Relay).Listen?
  {
  }

  /** Every thread's continuation inside stop and waitForShutdown is one that
      its kind of thread uses. */
  lemma Continuation(s: State, t: Tid)
    requires Inv(s) && At(s, t).In?
    ensures IsDaemon(s, At(s, t).d)
    ensures t == RunLoop ==> At(s, t).next == if Waiting(At(s, t).point) then Join(At(s, t).d) else Cleanup(At(s, t).d)
    ensures t == Relay ==> !Waiting(At(s, t).point) && (At(s, t).next.Listen? || At(s, t).next.RelayDone?)
    ensures t.Caller? ==> Resumable(At(s, t).next) && CallerShape(s, At(s, t).next) && Fact(s, At(s, t).next)
  {
    if t.Caller? {
      assert CallerShape(s, At(s, Caller(t.id)));
      ResumableFact(s, At(s, t).next);
    }
  }

  lemma ResumableFact(s: State, pc: Pc)
    requires Resumable(pc) && CallerShape(s, pc)
    ensures Fact(s, pc)
  {
  }

  lemma DaemonFact(s: State, t: Tid, ev: DaemonEv, s': State)
    requires Inv(s) && DaemonStep(s, t, ev) == Some(s')
    ensures Fact(s', At(s', t))
  {
    Continuation(s, t);
    LaterOnDaemon(s, t, ev, s');
    if t.Caller? {
      FactStable(s, s', At(s, t).next);
    }
    assert Fact(s, At(s, t));
    assert DaemonOk(s, At(s, t).d);
    FactAfter(s, t, ev, s');
  }

  /** What a thread knows after a step of stop or waitForShutdown. */
  lemma FactAfter(s: State, t: Tid, ev: DaemonEv, s': State)
    requires DaemonStep(s, t, ev) == Some(s') && Fact(s, At(s, t)) && DaemonOk(s, At(s, t).d)
    requires var next := At(s, t).next;
             Fact(s', next) || next == Join(At(s, t).d) || next == Cleanup(At(s, t).d)
             || next.Listen? || next.RelayDone?
    requires Waiting(At(s, t).point) ==> !At(s, t).next.Cleanup?
    requires !Waiting(At(s, t).point) ==> !At(s, t).next.Join?
    ensures Fact(s', At(s', t))
  {
    if ev.StopNoop? || ev.StopBegin? || ev.StopEnd? {
      FactAfterStop(s, t, ev, s');
    } else {
      FactAfterWait(s, t, ev, s');
    }
  }

  lemma FactAfterStop(s: State, t: Tid, ev: DaemonEv, s': State)
    requires DaemonStep(s, t, ev) == Some(s') && Fact(s, At(s, t)) && DaemonOk(s, At(s, t).d)
    requires ev.StopNoop? || ev.StopBegin? || ev.StopEnd?
    requires var next := At(s, t).next;
             Fact(s', next) || next == Cleanup(At(s, t).d) || next.Listen? || next.RelayDone?
    ensures Fact(s', At(s', t))
  {
  }

  lemma FactAfterWait(s: State, t: Tid, ev: DaemonEv, s': State)
    requires DaemonStep(s, t, ev) == Some(s') && Fact(s, At(s, t)) && DaemonOk(s, At(s, t).d)
    requires !ev.StopNoop? && !ev.StopBegin? && !ev.StopEnd?
    requires var next := At(s, t).next;
             Fact(s', next) || next == Join(At(s, t).d) || next.Listen? || next.RelayDone?
    ensures Fact(s', At(s', t))
  {
  }

  lemma ServiceFact(s: State, t: Tid, ev: ServiceEv, s': State)
    requires Inv(s) && ServiceStep(s, t, ev) == Some(s')
    ensures Fact(s', At(s', t))
  {
    if t.Caller? {
      assert CallerShape(s, At(s, Caller(t.id)));
      ResumableFact(s, At(s, t).next);
    }
    assert s.daemon.Some? ==> RunShape(s, At(s, RunLoop));
  }

  lemma LoopFact(s: State, ev: LoopEv, s': State)
    requires Inv(s) && LoopStep(s, ev) == Some(s')
    ensures Fact(s', At(s', RunLoop))
  {
    assert Fact(s, At(s, RunLoop));
  }

  lemma RelayFact(s: State, ev: RelayEv, s': State)
    requires Inv(s) && RelayStep(s, ev) == Some(s')
    ensures Fact(s', At(s', Relay))
  {
  }

  lemma CallFact(s: State, id: nat, ev: CallEv, s': State)
    requires Inv(s) && CallStep(s, id, ev) == Some(s')
    ensures Fact(s', At(s', Caller(id)))
  {
    assert CallerShape(s, At(s, Caller(id)));
    assert Fact(s, At(s, Caller(id)));
  }

  // ---- threads

  lemma RunShapeStable(s: State, s': State, pc: Pc)
    requires Later(s, s') && RunShape(s, pc)
    ensures RunShape(s', pc)
  {
  }

  lemma CallerInDaemon(s: State, ev: DaemonEv, s': State, id: nat)
    requires DaemonStep(s, Caller(id), ev) == Some(s') && CallerShape(s', At(s, Caller(id)))
    ensures CallerShape(s', At(s', Caller(id)))
  {
  }

  lemma CallerInService(s: State, ev: ServiceEv, s': State, id: nat)
    requires ServiceStep(s, Caller(id), ev) == Some(s') && CallerShape(s', At(s, Caller(id)))
    requires s.daemon.Some? ==> IsDaemon(s', s.daemon.value)
    ensures CallerShape(s', At(s', Caller(id)))
  {
  }

  lemma CallerInCall(s: State, ev: CallEv, s': State, id: nat)
    requires CallStep(s, id, ev) == Some(s') && CallerShape(s', At(s, Caller(id)))
    ensures CallerShape(s', At(s', Caller(id)))
  {
  }

  lemma PointedDaemon(s: State, s': State)
    requires Inv(s) && Later(s, s')
    ensures s.daemon.Some? ==> IsDaemon(s', s.daemon.value)
  {
  }

  lemma CallShape(s: State, id: nat, ev: CallEv, s': State)
    requires CallStep(s, id, ev) == Some(s')
    ensures At(s', RunLoop) == At(s, RunLoop) && At(s', Relay) == At(s, Relay)
  {
    CallOthers(s, id, ev, s', RunLoop);
    CallOthers(s, id, ev, s', Relay);
  }

  lemma EnvShape(s: State, ev: EnvEv, s': State)
    requires EnvStep(s, ev) == Some(s')
    ensures At(s', RunLoop) == At(s, RunLoop) && At(s', Relay) == At(s, Relay)
  {
  }

  lemma DaemonShape(s: State, t: Tid, ev: DaemonEv, s': State)
    requires Inv(s) && DaemonStep(s, t, ev) == Some(s')
    requires RunShape(s', At(s, RunLoop))
    ensures RunShape(s', At(s', RunLoop)) && RelayShape(At(s', RunLoop), At(s', Relay))
  {
    match t
    case RunLoop => DaemonOthers(s, t, ev, s', Relay); RunInDaemon(s, ev, s');
    case Relay => DaemonOthers(s, t, ev, s', RunLoop); RelayInDaemon(s, ev, s');
    case Caller(_) =>
      DaemonOthers(s, t, ev, s', RunLoop);
      DaemonOthers(s, t, ev, s', Relay);
  }

  lemma RunInDaemon(s: State, ev: DaemonEv, s': State)
    requires DaemonStep(s, RunLoop, ev) == Some(s') && RunShape(s', At(s, RunLoop))
    ensures RunShape(s', At(s', RunLoop)) && Scope(At(s', RunLoop)) == Scope(At(s, RunLoop))
  {
  }

  lemma RelayInDaemon(s: State, ev: DaemonEv, s': State)
    requires DaemonStep(s, Relay, ev) == Some(s') && RelayShape(At(s, RunLoop), At(s, Relay))
    ensures RelayShape(At(s, RunLoop), At(s', Relay))
  {
  }

  lemma ServiceShape(s: State, t: Tid, ev: ServiceEv, s': State)
    requires Inv(s) && ServiceStep(s, t, ev) == Some(s')
    requires RunShape(s', At(s, RunLoop))
    ensures RunShape(s', At(s', RunLoop)) && RelayShape(At(s', RunLoop), At(s', Relay))
  {
  }

  lemma LoopShape(s: State, ev: LoopEv, s': State)
    requires ThreadsOk(s) && LoopStep(s, ev) == Some(s')
    ensures RunShape(s', At(s', RunLoop)) && RelayShape(At(s', RunLoop), At(s', Relay))
  {
    LoopRunShape(s, ev, s');
    LoopRelayShape(s, ev, s');
  }

  lemma LoopRunShape(s: State, ev: LoopEv, s': State)
    requires RunShape(s, At(s, RunLoop)) && LoopStep(s, ev) == Some(s')
    ensures RunShape(s', At(s', RunLoop))
  {
    if StartsUp(ev) { StartRunShape(s, ev, s'); } else { SuperviseRunShape(s, ev, s'); }
  }

  /** The steps of an attempt up to the daemon's start. */
  predicate StartsUp(ev: LoopEv) {
    ev.AcquireOk? || ev.AcquireFail? || ev.BuildOk? || ev.BuildFail? || ev.StartOk? || ev.StartFail?
  }

  lemma StartRunShape(s: State, ev: LoopEv, s': State)
    requires RunShape(s, At(s, RunLoop)) && LoopStep(s, ev) == Some(s') && StartsUp(ev)
    ensures RunShape(s', At(s', RunLoop))
  {
  }

  lemma SuperviseRunShape(s: State, ev: LoopEv, s': State)
    requires RunShape(s, At(s, RunLoop)) && LoopStep(s, ev) == Some(s') && !StartsUp(ev)
    ensures RunShape(s', At(s', RunLoop))
  {
  }

  lemma LoopRelayShape(s: State, ev: LoopEv, s': State)
    requires RelayShape(At(s, RunLoop), At(s, Relay)) && LoopStep(s, ev) == Some(s')
    ensures RelayShape(At(s', RunLoop), At(s', Relay))
  {
    if ev.SpawnRelay? || ev.JoinRelay? {
      RelayComesAndGoes(s, ev, s');
    } else {
      LoopOthers(s, ev, s', Relay);
      SameScope(s, ev, s');
    }
  }

  lemma RelayComesAndGoes(s: State, ev: LoopEv, s': State)
    requires RelayShape(At(s, RunLoop), At(s, Relay)) && LoopStep(s, ev) == Some(s')
    requires ev.SpawnRelay? || ev.JoinRelay?
    ensures RelayShape(At(s', RunLoop), At(s', Relay))
  {
  }

  lemma SameScope(s: State, ev: LoopEv, s': State)
    requires LoopStep(s, ev) == Some(s') && !ev.SpawnRelay? && !ev.JoinRelay?
    ensures Scope(At(s', RunLoop)) == Scope(At(s, RunLoop))
  {
  }

  lemma RelayMoves(s: State, ev: RelayEv, s': State)
    requires Inv(s) && RelayStep(s, ev) == Some(s')
    requires RunShape(s', At(s, RunLoop))
    ensures RunShape(s', At(s', RunLoop)) && RelayShape(At(s', RunLoop), At(s', Relay))
  {
  }

  // ---- locks

  lemma ServiceLocks(s: State, t: Tid, ev: ServiceEv, s': State)
    requires ThreadsOk(s) && ServiceStep(s, t, ev) == Some(s')
    ensures s'.daemons == s.daemons && !InTeardown(At(s', t))
  {
    if t.Caller? {
      assert CallerShape(s, At(s, Caller(t.id)));
    }
  }

  lemma RelayLocks(s: State, ev: RelayEv, s': State)
    requires RelayStep(s, ev) == Some(s')
    ensures s'.daemons == s.daemons && !InTeardown(At(s', Relay))
  {
  }

  lemma CallLocks(s: State, id: nat, ev: CallEv, s': State)
    requires CallStep(s, id, ev) == Some(s')
    ensures s'.daemons == s.daemons && !InTeardown(At(s', Caller(id)))
  {
  }

  lemma LoopLocks(s: State, ev: LoopEv, s': State)
    requires LoopStep(s, ev) == Some(s')
    ensures |s.daemons| <= |s'.daemons|
    ensures forall d :: 0 <= d < |s.daemons| ==> s'.daemons[d].mu == s.daemons[d].mu
    ensures forall d :: |s.daemons| <= d < |s'.daemons| ==> s'.daemons[d].mu.None?
    ensures !InTeardown(At(s', RunLoop)) && (At(s', Relay) == At(s, Relay) || !At(s', Relay).In?)
  {
    LoopKeepsMutexes(s, ev, s');
    LoopEntersNoTeardown(s, ev, s');
  }

  lemma LoopKeepsMutexes(s: State, ev: LoopEv, s': State)
    requires LoopStep(s, ev) == Some(s')
    ensures |s.daemons| <= |s'.daemons|
    ensures forall d :: 0 <= d < |s.daemons| ==> s'.daemons[d].mu == s.daemons[d].mu
    ensures forall d :: |s.daemons| <= d < |s'.daemons| ==> s'.daemons[d].mu.None?
  {
  }

  lemma LoopEntersNoTeardown(s: State, ev: LoopEv, s': State)
    requires LoopStep(s, ev) == Some(s')
    ensures !InTeardown(At(s', RunLoop)) && (At(s', Relay) == At(s, Relay) || !At(s', Relay).In?)
  {
  }

  lemma DaemonLocks(s: State, m: Tid, ev: DaemonEv, s': State)
    requires Inv(s) && DaemonStep(s, m, ev) == Some(s')
    ensures LocksOk(s')
  {
    Continuation(s, m);
    forall t: Tid | InTeardown(At(s', t))
      ensures At(s', t).d < |s'.daemons| && s'.daemons[At(s', t).d].mu == Some(t)
    {
      if t != m {
        DaemonOthers(s, m, ev, s', t);
        assert InTeardown(At(s, t));
      }
      assert InTeardown(At(s, m)) ==> s.daemons[At(s, m).d].mu == Some(m);
    }
  }

  // ---- daemons

  /** A step that leaves every daemon alone and moves neither a thread inside
      stop's critical section nor the relay's scope keeps every daemon sound. */
  lemma DaemonFrame(s: State, s': State, d: nat)
    requires d < |s.daemons| && DaemonOk(s, d) && Later(s, s')
    requires s'.daemons[d] == s.daemons[d]
    requires s.daemons[d].mu.Some? ==> At(s', s.daemons[d].mu.value) == At(s, s.daemons[d].mu.value)
    requires Scope(At(s, RunLoop)) != Some(d) ==> Scope(At(s', RunLoop)) != Some(d) || !s.daemons[d].supervised
    requires Scope(At(s, RunLoop)) == Some(d) && Scope(At(s', RunLoop)) != Some(d) ==> s.daemons[d].closed
    ensures DaemonOk(s', d)
  {
  }

  lemma DaemonsOnDaemon(s: State, m: Tid, ev: DaemonEv, s': State)
    requires Inv(s) && DaemonStep(s, m, ev) == Some(s')
    ensures DaemonsOk(s')
  {
    LaterOnDaemon(s, m, ev, s');
    Continuation(s, m);
    var own := At(s, m).d;
    DaemonScope(s, m, ev, s');
    forall d | 0 <= d < |s'.daemons| ensures DaemonOk(s', d) {
      assert DaemonOk(s, d);
      if d == own {
        OwnDaemon(s, m, ev, s');
      } else {
        if s.daemons[d].mu.Some? && s.daemons[d].mu.value != m {
          DaemonOthers(s, m, ev, s', s.daemons[d].mu.value);
        }
        DaemonFrame(s, s', d);
      }
    }
  }

  lemma DaemonScope(s: State, m: Tid, ev: DaemonEv, s': State)
    requires Inv(s) && DaemonStep(s, m, ev) == Some(s')
    ensures Scope(At(s', RunLoop)) == Scope(At(s, RunLoop))
  {
    Continuation(s, m);
    if m != RunLoop { DaemonOthers(s, m, ev, s', RunLoop); }
  }

  lemma OwnDaemon(s: State, m: Tid, ev: DaemonEv, s': State)
    requires Inv(s) && DaemonStep(s, m, ev) == Some(s')
    requires IsDaemon(s, At(s, m).d) && Scope(At(s', RunLoop)) == Scope(At(s, RunLoop))
    ensures DaemonOk(s', At(s, m).d)
  {
    var d := At(s, m).d;
    assert DaemonOk(s, d) && Fact(s, At(s, m));
    if s.daemons[d].mu.Some? && s.daemons[d].mu.value != m {
      DaemonOthers(s, m, ev, s', s.daemons[d].mu.value);
    }
    assert InTeardown(At(s, m)) ==> s.daemons[d].mu == Some(m);
    if ev.StopNoop? || ev.StopBegin? || ev.StopEnd? {
      StoppedDaemon(s, m, ev, s', d);
    } else {
      AwaitedDaemon(s, m, ev, s', d);
    }
  }

  /** Thread m is inside stop or waitForShutdown of daemon d and takes a step. */
  predicate Acts(s: State, m: Tid, ev: DaemonEv, s': State, d: nat) {
    && At(s, m).In? && At(s, m).d == d && d < |s.daemons| && DaemonOk(s, d)
    && DaemonStep(s, m, ev) == Some(s') && Scope(At(s', RunLoop)) == Scope(At(s, RunLoop))
    && (s.daemons[d].mu.Some? && s.daemons[d].mu.value != m ==>
          At(s', s.daemons[d].mu.value) == At(s, s.daemons[d].mu.value))
  }

  lemma StoppedDaemon(s: State, m: Tid, ev: DaemonEv, s': State, d: nat)
    requires Acts(s, m, ev, s', d) && (ev.StopNoop? || ev.StopBegin? || ev.StopEnd?)
    requires InTeardown(At(s, m)) ==> s.daemons[d].mu == Some(m)
    ensures DaemonOk(s', d)
  {
  }

  lemma AwaitedDaemon(s: State, m: Tid, ev: DaemonEv, s': State, d: nat)
    requires Acts(s, m, ev, s', d) && !ev.StopNoop? && !ev.StopBegin? && !ev.StopEnd?
    requires PointFact(s, At(s, m).point, d) && !InTeardown(At(s, m))
    ensures DaemonOk(s', d)
  {
  }

  lemma DaemonsOnLoop(s: State, ev: LoopEv, s': State)
    requires Inv(s) && LoopStep(s, ev) == Some(s')
    ensures DaemonsOk(s')
  {
    LaterOnLoop(s, ev, s');
    LoopDaemons(s, ev, s');
    forall d | 0 <= d < |s'.daemons| ensures DaemonOk(s', d) {
      if d < |s.daemons| {
        OldDaemonOnLoop(s, ev, s', d);
      } else {
        BuiltDaemon(s, s', d);
      }
    }
  }

  lemma OldDaemonOnLoop(s: State, ev: LoopEv, s': State, d: nat)
    requires Inv(s) && LoopStep(s, ev) == Some(s') && Later(s, s') && d < |s.daemons|
    requires s'.daemons[d] == (if ev.SpawnRelay? && At(s', RunLoop) == Register(d)
                               then s.daemons[d].(supervised := true) else s.daemons[d])
    ensures DaemonOk(s', d)
  {
    assert DaemonOk(s, d);
    LoopScope(s, ev, s');
    if s.daemons[d].mu.Some? {
      LoopHoldsNoLock(s, ev, s', s.daemons[d].mu.value);
    }
    if ev.SpawnRelay? && At(s', RunLoop) == Register(d) {
      SpawnedDaemon(s, s', d);
    } else {
      DaemonFrame(s, s', d);
    }
  }

  lemma BuiltDaemon(s: State, s': State, d: nat)
    requires RunShape(s, At(s, RunLoop)) && At(s, RunLoop).Build? && s'.ics == s.ics && d < |s'.daemons|
    requires s'.daemons[d] == Daemon(At(s, RunLoop).ic, false, false, false, true, None, false)
    ensures DaemonOk(s', d)
  {
  }

  lemma SpawnedDaemon(s: State, s': State, d: nat)
    requires d < |s.daemons| && DaemonOk(s, d) && Later(s, s')
    requires s'.daemons[d] == s.daemons[d].(supervised := true) && Scope(At(s', RunLoop)) == Some(d)
    requires s.daemons[d].mu.Some? ==> At(s', s.daemons[d].mu.value) == At(s, s.daemons[d].mu.value)
    ensures DaemonOk(s', d)
  {
  }

  lemma LoopDaemons(s: State, ev: LoopEv, s': State)
    requires LoopStep(s, ev) == Some(s')
    ensures forall d :: 0 <= d < |s.daemons| ==>
              s'.daemons[d] == (if ev.SpawnRelay? && At(s', RunLoop) == Register(d)
                                then s.daemons[d].(supervised := true) else s.daemons[d])
    ensures forall d :: |s.daemons| <= d < |s'.daemons| ==>
              && At(s, RunLoop).Build? && s'.ics == s.ics
              && s'.daemons[d] == Daemon(At(s, RunLoop).ic, false, false, false, true, None, false)
  {
  }

  lemma LoopScope(s: State, ev: LoopEv, s': State)
    requires Inv(s) && LoopStep(s, ev) == Some(s')
    ensures forall d :: Scope(At(s', RunLoop)) == Some(d) ==>
              Scope(At(s, RunLoop)) == Some(d) || (ev.SpawnRelay? && At(s', RunLoop) == Register(d))
    ensures forall d :: 0 <= d < |s.daemons| && Scope(At(s, RunLoop)) == Some(d) && Scope(At(s', RunLoop)) != Some(d)
                        ==> s.daemons[d].closed
  {
    assert Fact(s, At(s, RunLoop));
  }

  lemma LoopHoldsNoLock(s: State, ev: LoopEv, s': State, t: Tid)
    requires Inv(s) && LoopStep(s, ev) == Some(s') && InTeardown(At(s, t))
    ensures At(s', t) == At(s, t)
  {
    assert ThreadsOk(s);
  }

  // ---- interceptors

  /** Only the run loop and callers acquire interceptors, one at a time and only
      when every earlier one is free; whoever acquires one holds it. */
  lemma IcsGrow(s: State, e: Event, s': State)
    requires Steps(s, e, s')
    ensures |s'.ics| == |s.ics| || (|s'.ics| == |s.ics| + 1 && AllFreed(s) && IcOk(s', |s.ics|))
  {
    StepMeans(s, e, s');
    match e
    case OnDaemon(t, ev) => DaemonIcs(s, t, ev, s');
    case OnService(t, ev) =>
    case OnLoop(ev) => LoopIcs(s, ev, s');
    case OnRelay(ev) => RelayIcs(s, ev, s');
    case OnCall(id, ev) => CallIcs(s, id, ev, s');
    case OnEnv(ev) =>
  }

  lemma DaemonIcs(s: State, t: Tid, ev: DaemonEv, s': State)
    requires DaemonStep(s, t, ev) == Some(s')
    ensures |s'.ics| == |s.ics|
  {
  }

  lemma LoopIcs(s: State, ev: LoopEv, s': State)
    requires LoopStep(s, ev) == Some(s')
    ensures |s'.ics| == |s.ics| || (|s'.ics| == |s.ics| + 1 && AllFreed(s) && IcOk(s', |s.ics|))
  {
  }

  lemma RelayIcs(s: State, ev: RelayEv, s': State)
    requires RelayStep(s, ev) == Some(s')
    ensures s'.ics == s.ics
  {
  }

  lemma CallIcs(s: State, id: nat, ev: CallEv, s': State)
    requires CallStep(s, id, ev) == Some(s')
    ensures |s'.ics| == |s.ics| || (|s'.ics| == |s.ics| + 1 && AllFreed(s) && IcOk(s', |s.ics|))
  {
  }

  lemma RunIcDaemon(s: State, ev: DaemonEv, s': State, i: nat)
    requires Inv(s) && DaemonStep(s, RunLoop, ev) == Some(s') && Later(s, s')
    requires i < |s.ics| && s.ics[i].owner == RunLoop
    ensures IcOk(s', i)
  {
    Continuation(s, RunLoop);
    assert IcOk(s, i) && DaemonOk(s, At(s, RunLoop).d) && Fact(s, At(s, RunLoop));
  }

  lemma RunIcLoop(s: State, ev: LoopEv, s': State, i: nat)
    requires Inv(s) && LoopStep(s, ev) == Some(s') && Later(s, s')
    requires i < |s.ics| && s.ics[i].owner == RunLoop
    ensures IcOk(s', i)
  {
    assert IcOk(s, i) && Fact(s, At(s, RunLoop));
  }

  lemma CallerIcDaemon(s: State, id: nat, ev: DaemonEv, s': State)
    requires DaemonStep(s, Caller(id), ev) == Some(s')
    ensures CallerHolds(At(s', Caller(id))) == CallerHolds(At(s, Caller(id)))
    ensures !At(s, Caller(id)).AwaitQuit? && !At(s, Caller(id)).Returned?
  {
  }

  lemma CallerIcService(s: State, id: nat, ev: ServiceEv, s': State)
    requires ServiceStep(s, Caller(id), ev) == Some(s')
    ensures CallerHolds(At(s', Caller(id))) == CallerHolds(At(s, Caller(id)))
    ensures !At(s, Caller(id)).AwaitQuit? && !At(s, Caller(id)).Returned?
  {
  }

  lemma CallerIcCall(s: State, id: nat, ev: CallEv, s': State, i: nat)
    requires i < |s.ics| && s.ics[i].owner == Caller(id) && IcOk(s, i)
    requires CallStep(s, id, ev) == Some(s') && Later(s, s')
    ensures IcOk(s', i)
  {
  }

  // ---- pointers

  lemma PointersOnService(s: State, t: Tid, ev: ServiceEv, s': State)
    requires PointersOk(s) && RunShape(s, At(s, RunLoop)) && ServiceStep(s, t, ev) == Some(s')
    ensures PointersOk(s')
  {
  }

  lemma PointersOnRelay(s: State, ev: RelayEv, s': State)
    requires PointersOk(s) && RelayStep(s, ev) == Some(s')
    ensures PointersOk(s')
  {
  }

  lemma PointersOnCall(s: State, id: nat, ev: CallEv, s': State)
    requires PointersOk(s) && CallStep(s, id, ev) == Some(s')
    ensures PointersOk(s')
  {
  }

  lemma PointersOnDaemon(s: State, t: Tid, ev: DaemonEv, s': State)
    requires Inv(s) && DaemonStep(s, t, ev) == Some(s')
    ensures PointersOk(s')
  {
    Continuation(s, t);
    if t != RunLoop { DaemonOthers(s, t, ev, s', RunLoop); }
  }

  lemma PointersOnLoop(s: State, ev: LoopEv, s': State)
    requires PointersOk(s) && LoopStep(s, ev) == Some(s')
    ensures PointersOk(s')
  {
  }

  // ---- the relay's log

  /** A step that leaves the log and the relay alone keeps the log sound. */
  lemma LogStable(s: State, s': State, pc: Pc)
    requires LogOk(s, pc) && Later(s, s') && s'.log == s.log
    ensures LogOk(s', pc)
  {
  }

  lemma LogOnDaemon(s: State, t: Tid, ev: DaemonEv, s': State)
    requires Inv(s) && DaemonStep(s, t, ev) == Some(s')
    ensures RelayOk(s')
  {
    LaterOnDaemon(s, t, ev, s');
    SameLog(s, t, ev, s');
    LogStable(s, s', At(s, Relay));
    if t == RunLoop { RunNotAtEnd(s, ev, s'); } else { DaemonOthers(s, t, ev, s', RunLoop); }
    if t == Relay { LogOnRelayStop(s, ev, s'); } else { DaemonOthers(s, t, ev, s', Relay); }
  }

  lemma SameLog(s: State, t: Tid, ev: DaemonEv, s': State)
    requires DaemonStep(s, t, ev) == Some(s')
    ensures s'.log == s.log
  {
  }

  lemma RunNotAtEnd(s: State, ev: DaemonEv, s': State)
    requires DaemonStep(s, RunLoop, ev) == Some(s') && RunShape(s, At(s, RunLoop))
    ensures !At(s', RunLoop).Clear? && !At(s', RunLoop).Gate?
  {
  }

  lemma LogOnRelayStop(s: State, ev: DaemonEv, s': State)
    requires DaemonStep(s, Relay, ev) == Some(s') && RelayShape(At(s, RunLoop), At(s, Relay))
    requires LogOk(s', At(s, Relay))
    ensures LogOk(s', At(s', Relay))
  {
  }

  lemma LogOnService(s: State, t: Tid, ev: ServiceEv, s': State)
    requires ThreadsOk(s) && RelayOk(s) && ServiceStep(s, t, ev) == Some(s')
    ensures RelayOk(s')
  {
  }

  lemma LogOnLoop(s: State, ev: LoopEv, s': State)
    requires Inv(s) && LoopStep(s, ev) == Some(s')
    ensures RelayOk(s')
  {
    if ev.SpawnRelay? || ev.JoinRelay? {
      LogWithRelay(s, ev, s');
    } else {
      LaterOnLoop(s, ev, s');
      LoopOthers(s, ev, s', Relay);
      LoopLog(s, ev, s');
      LogStable(s, s', At(s, Relay));
    }
  }

  lemma LoopLog(s: State, ev: LoopEv, s': State)
    requires RelayOk(s) && LoopStep(s, ev) == Some(s') && !ev.SpawnRelay? && !ev.JoinRelay?
    ensures s'.log == s.log && !At(s', RunLoop).Clear?
    ensures At(s', RunLoop).Gate? && At(s', RunLoop).cause.Crashed? ==>
              s.log.crash == Some(At(s', RunLoop).cause.err)
  {
  }

  lemma LogWithRelay(s: State, ev: LoopEv, s': State)
    requires RelayShape(At(s, RunLoop), At(s, Relay)) && RelayOk(s) && LoopStep(s, ev) == Some(s')
    requires ev.SpawnRelay? || ev.JoinRelay?
    ensures RelayOk(s')
  {
  }

  lemma LogOnRelay(s: State, ev: RelayEv, s': State)
    requires ThreadsOk(s) && RelayOk(s) && RelayStep(s, ev) == Some(s')
    ensures RelayOk(s')
  {
    if ev.Publish? {
      FirstCrashAppend(s.log.published, At(s, Relay).u);
    }
  }

  lemma LogOnCall(s: State, id: nat, ev: CallEv, s': State)
    requires RelayOk(s) && CallStep(s, id, ev) == Some(s')
    requires At(s', RunLoop) == At(s, RunLoop) && At(s', Relay) == At(s, Relay)
    ensures RelayOk(s')
  {
    LaterOnCall(s, id, ev, s');
    CallLog(s, id, ev, s');
    LogStable(s, s', At(s, Relay));
  }

  lemma CallLog(s: State, id: nat, ev: CallEv, s': State)
    requires CallStep(s, id, ev) == Some(s')
    ensures s'.log == s.log
  {
  }

  lemma LogOnEnv(s: State, ev: EnvEv, s': State)
    requires RelayOk(s) && EnvStep(s, ev) == Some(s')
    ensures RelayOk(s')
  {
  }

  // ---- every run

  lemma InvOnDaemon(s: State, t: Tid, ev: DaemonEv, s': State)
    requires Inv(s) && DaemonStep(s, t, ev) == Some(s')
    ensures Inv(s')
  {
    LaterOnDaemon(s, t, ev, s');
    DaemonMoves(s, t, ev, s');
    DaemonFact(s, t, ev, s');
    FactsFrame(s, s', t, t);
    ThreadsOnDaemon(s, t, ev, s');
    DaemonLocks(s, t, ev, s');
    DaemonsOnDaemon(s, t, ev, s');
    IcsOnDaemon(s, t, ev, s');
    PointersOnDaemon(s, t, ev, s');
    LogOnDaemon(s, t, ev, s');
  }

  lemma DaemonMoves(s: State, t: Tid, ev: DaemonEv, s': State)
    requires DaemonStep(s, t, ev) == Some(s')
    ensures OnlyMove(s, s', t, t) && OnlyMove(s, s', t, Relay)
  {
  }

  lemma ThreadsOnDaemon(s: State, t: Tid, ev: DaemonEv, s': State)
    requires Inv(s) && DaemonStep(s, t, ev) == Some(s') && Later(s, s') && OnlyMove(s, s', t, t)
    ensures ThreadsOk(s')
  {
    RunShapeStable(s, s', At(s, RunLoop));
    DaemonShape(s, t, ev, s');
    if t.Caller? {
      assert CallerShape(s, At(s, Caller(t.id)));
      CallerShapeStable(s, s', At(s, t));
      CallerInDaemon(s, ev, s', t.id);
    }
    CallersFrame(s, s', t, t);
  }

  lemma IcsOnDaemon(s: State, t: Tid, ev: DaemonEv, s': State)
    requires Inv(s) && DaemonStep(s, t, ev) == Some(s') && Later(s, s') && OnlyMove(s, s', t, Relay)
    ensures IcsOk(s')
  {
    DaemonIcs(s, t, ev, s');
    forall i | 0 <= i < |s.ics| && s.ics[i].owner == t ensures IcOk(s', i) {
      assert IcOk(s, i);
      match t
      case RunLoop => RunIcDaemon(s, ev, s', i);
      case Caller(id) => CallerIcDaemon(s, id, ev, s');
    }
    IcsFrame(s, s', t);
  }

  lemma InvOnService(s: State, t: Tid, ev: ServiceEv, s': State)
    requires Inv(s) && ServiceStep(s, t, ev) == Some(s')
    ensures Inv(s')
  {
    ServiceFrame(s, t, ev, s');
    ServiceFact(s, t, ev, s');
    FactsFrame(s, s', t, t);
    ThreadsOnService(s, t, ev, s');
    ServiceLocks(s, t, ev, s');
    LocksFrame(s, s', t, t);
    DaemonsFrame(s, s', t);
    IcsOnService(s, t, ev, s');
    PointersOnService(s, t, ev, s');
    LogOnService(s, t, ev, s');
  }

  lemma ServiceFrame(s: State, t: Tid, ev: ServiceEv, s': State)
    requires ThreadsOk(s) && ServiceStep(s, t, ev) == Some(s')
    ensures Later(s, s') && OnlyMove(s, s', t, t) && s'.daemons == s.daemons && s'.ics == s.ics
    ensures !InTeardown(At(s, t)) && Scope(At(s', RunLoop)) == Scope(At(s, RunLoop))
  {
  }

  lemma ThreadsOnService(s: State, t: Tid, ev: ServiceEv, s': State)
    requires Inv(s) && ServiceStep(s, t, ev) == Some(s') && Later(s, s') && OnlyMove(s, s', t, t)
    ensures ThreadsOk(s')
  {
    RunShapeStable(s, s', At(s, RunLoop));
    ServiceShape(s, t, ev, s');
    if t.Caller? {
      assert CallerShape(s, At(s, Caller(t.id)));
      CallerShapeStable(s, s', At(s, t));
      PointedDaemon(s, s');
      CallerInService(s, ev, s', t.id);
    }
    CallersFrame(s, s', t, t);
  }

  lemma IcsOnService(s: State, t: Tid, ev: ServiceEv, s': State)
    requires Inv(s) && ServiceStep(s, t, ev) == Some(s')
    requires Later(s, s') && OnlyMove(s, s', t, t) && s'.ics == s.ics
    ensures IcsOk(s')
  {
    assert RunShape(s, At(s, RunLoop));
    forall i | 0 <= i < |s.ics| && s.ics[i].owner == t ensures IcOk(s', i) {
      assert IcOk(s, i);
      if t.Caller? { CallerIcService(s, t.id, ev, s'); }
    }
    IcsFrame(s, s', t);
  }

  lemma InvOnLoop(s: State, ev: LoopEv, s': State)
    requires Inv(s) && LoopStep(s, ev) == Some(s')
    ensures Inv(s')
  {
    LaterOnLoop(s, ev, s');
    LoopMoves(s, ev, s');
    ThreadsOnLoop(s, ev, s');
    DaemonsOnLoop(s, ev, s');
    IcsOnLoop(s, ev, s');
    PointersOnLoop(s, ev, s');
    LogOnLoop(s, ev, s');
  }

  lemma ThreadsOnLoop(s: State, ev: LoopEv, s': State)
    requires Inv(s) && LoopStep(s, ev) == Some(s') && Later(s, s')
    requires OnlyMove(s, s', RunLoop, Relay) && Fact(s', At(s', Relay))
    ensures FactsOk(s') && ThreadsOk(s') && LocksOk(s')
  {
    LoopFact(s, ev, s');
    FactsFrame(s, s', RunLoop, Relay);
    CallersFrame(s, s', RunLoop, Relay);
    LoopShape(s, ev, s');
    LoopLocks(s, ev, s');
    LocksFrame(s, s', RunLoop, Relay);
  }

  /** The run loop also creates and removes the relay. */
  lemma LoopMoves(s: State, ev: LoopEv, s': State)
    requires Inv(s) && LoopStep(s, ev) == Some(s')
    ensures OnlyMove(s, s', RunLoop, Relay) && Fact(s', At(s', Relay))
  {
    LaterOnLoop(s, ev, s');
    FactStable(s, s', At(s, Relay));
    if ev.SpawnRelay? || ev.JoinRelay? {
      SpawnedRelay(s, ev, s');
    }
    forall t: Tid | t != RunLoop && t != Relay ensures At(s', t) == At(s, t) {
      LoopOthers(s, ev, s', t);
    }
    if !ev.SpawnRelay? && !ev.JoinRelay? {
      LoopOthers(s, ev, s', Relay);
    }
  }

  lemma IcsOnLoop(s: State, ev: LoopEv, s': State)
    requires Inv(s) && LoopStep(s, ev) == Some(s') && Later(s, s') && OnlyMove(s, s', RunLoop, Relay)
    ensures IcsOk(s')
  {
    LoopIcs(s, ev, s');
    forall i | 0 <= i < |s.ics| && s.ics[i].owner == RunLoop ensures IcOk(s', i) {
      RunIcLoop(s, ev, s', i);
    }
    IcsFrame(s, s', RunLoop);
  }

  lemma InvOnRelay(s: State, ev: RelayEv, s': State)
    requires Inv(s) && RelayStep(s, ev) == Some(s')
    ensures Inv(s')
  {
    RelayFrame(s, ev, s');
    RelayFact(s, ev, s');
    FactsFrame(s, s', Relay, Relay);
    CallersFrame(s, s', Relay, Relay);
    RunShapeStable(s, s', At(s, RunLoop));
    RelayMoves(s, ev, s');
    LocksFrame(s, s', Relay, Relay);
    DaemonsFrame(s, s', Relay);
    IcsOnRelay(s, s');
    PointersOnRelay(s, ev, s');
    LogOnRelay(s, ev, s');
  }

  lemma RelayFrame(s: State, ev: RelayEv, s': State)
    requires RelayStep(s, ev) == Some(s')
    ensures Later(s, s') && OnlyMove(s, s', Relay, Relay) && s'.daemons == s.daemons && s'.ics == s.ics
    ensures !InTeardown(At(s, Relay)) && !InTeardown(At(s', Relay))
  {
    LaterOnRelay(s, ev, s');
    RelayLocks(s, ev, s');
    RelayIcs(s, ev, s');
    forall t: Tid | t != Relay ensures At(s', t) == At(s, t) {
      RelayOthers(s, ev, s', t);
    }
  }

  lemma IcsOnRelay(s: State, s': State)
    requires IcsOk(s) && Later(s, s') && OnlyMove(s, s', Relay, Relay) && s'.ics == s.ics
    ensures IcsOk(s')
  {
    forall i | 0 <= i < |s.ics| && s.ics[i].owner == Relay ensures IcOk(s', i) {
      assert IcOk(s, i);
    }
    IcsFrame(s, s', Relay);
  }

  lemma InvOnCall(s: State, id: nat, ev: CallEv, s': State)
    requires Inv(s) && CallStep(s, id, ev) == Some(s')
    ensures Inv(s')
  {
    var t := Caller(id);
    CallFrame(s, id, ev, s');
    CallFact(s, id, ev, s');
    FactsFrame(s, s', t, t);
    ThreadsOnCall(s, id, ev, s');
    LocksFrame(s, s', t, t);
    DaemonsFrame(s, s', t);
    IcsOnCall(s, id, ev, s');
    PointersOnCall(s, id, ev, s');
    LogOnCall(s, id, ev, s');
  }

  lemma CallFrame(s: State, id: nat, ev: CallEv, s': State)
    requires CallStep(s, id, ev) == Some(s')
    ensures Later(s, s') && OnlyMove(s, s', Caller(id), Caller(id)) && s'.daemons == s.daemons
    ensures !InTeardown(At(s, Caller(id))) && !InTeardown(At(s', Caller(id)))
  {
    LaterOnCall(s, id, ev, s');
    CallLocks(s, id, ev, s');
    forall t: Tid | t != Caller(id) ensures At(s', t) == At(s, t) {
      CallOthers(s, id, ev, s', t);
    }
  }

  lemma ThreadsOnCall(s: State, id: nat, ev: CallEv, s': State)
    requires Inv(s) && CallStep(s, id, ev) == Some(s') && Later(s, s') && OnlyMove(s, s', Caller(id), Caller(id))
    ensures ThreadsOk(s')
  {
    RunShapeStable(s, s', At(s, RunLoop));
    assert CallerShape(s, At(s, Caller(id)));
    CallerShapeStable(s, s', At(s, Caller(id)));
    CallerInCall(s, ev, s', id);
    CallersFrame(s, s', Caller(id), Caller(id));
  }

  lemma IcsOnCall(s: State, id: nat, ev: CallEv, s': State)
    requires Inv(s) && CallStep(s, id, ev) == Some(s') && Later(s, s') && OnlyMove(s, s', Caller(id), Caller(id))
    ensures IcsOk(s')
  {
    CallIcs(s, id, ev, s');
    forall i | 0 <= i < |s.ics| && s.ics[i].owner == Caller(id) ensures IcOk(s', i) {
      assert IcOk(s, i);
      CallerIcCall(s, id, ev, s', i);
    }
    IcsFrame(s, s', Caller(id));
  }

  lemma InvOnEnv(s: State, ev: EnvEv, s': State)
    requires Inv(s) && EnvStep(s, ev) == Some(s')
    ensures Inv(s')
  {
    EnvFrame(s, ev, s');
    FactStable(s, s', At(s, Relay));
    FactsFrame(s, s', Relay, Relay);
    CallersFrame(s, s', Relay, Relay);
    RunShapeStable(s, s', At(s, RunLoop));
    DaemonsOnEnv(s, s');
    IcsOnEnv(s, s');
    LogOnEnv(s, ev, s');
  }

  lemma EnvFrame(s: State, ev: EnvEv, s': State)
    requires EnvStep(s, ev) == Some(s')
    ensures Later(s, s') && s'.threads == s.threads && s'.client == s.client && s'.daemon == s.daemon
    ensures |s'.daemons| == |s.daemons| && |s'.ics| == |s.ics|
    ensures forall d :: 0 <= d < |s.daemons| ==>
              (s'.daemons[d].exec ==> s.daemons[d].exec) && s'.daemons[d].(exec := s.daemons[d].exec) == s.daemons[d]
  {
    LaterOnEnv(s, ev, s');
  }

  lemma DaemonsOnEnv(s: State, s': State)
    requires DaemonsOk(s) && Later(s, s') && s'.threads == s.threads && |s'.daemons| == |s.daemons|
    requires forall d :: 0 <= d < |s.daemons| ==>
               (s'.daemons[d].exec ==> s.daemons[d].exec) && s'.daemons[d].(exec := s.daemons[d].exec) == s.daemons[d]
    ensures DaemonsOk(s')
  {
    forall d | 0 <= d < |s'.daemons| ensures DaemonOk(s', d) {
      assert DaemonOk(s, d);
    }
  }

  lemma IcsOnEnv(s: State, s': State)
    requires IcsOk(s) && Later(s, s') && s'.threads == s.threads && |s'.ics| == |s.ics|
    ensures IcsOk(s')
  {
    forall i | 0 <= i < |s.ics| ensures IcOk(s', i) {
      assert IcOk(s, i);
      IcStable(s, s', i);
    }
    forall i | 0 <= i < |s'.ics| - 1 ensures s'.ics[i].freed {
      assert s.ics[i].freed;
    }
  }

  /** Every step of every thread keeps the invariant. */
  lemma InvStep(s: State, e: Event, s': State)
    requires Inv(s) && Steps(s, e, s')
    ensures Inv(s')
  {
    StepMeans(s, e, s');
    match e
    case OnDaemon(t, ev) => InvOnDaemon(s, t, ev, s');
    case OnService(t, ev) => InvOnService(s, t, ev, s');
    case OnLoop(ev) => InvOnLoop(s, ev, s');
    case OnRelay(ev) => InvOnRelay(s, ev, s');
    case OnCall(id, ev) => InvOnCall(s, id, ev, s');
    case OnEnv(ev) => InvOnEnv(s, ev, s');
  }

  /** The invariant holds in every state of every run. */
  lemma {:induction false} RunKeepsInv(h: History, n: nat)
    requires IsRun(h) && n <= |h.events|
    ensures Inv(h.states[n])
  {
    if n == 0 {
      InvInit();
    } else {
      RunKeepsInv(h, n - 1);
      StepTaken(h, n - 1);
      InvStep(h.states[n - 1], h.events[n - 1], h.states[n]);
    }
  }

  lemma InvInit()
    ensures Inv(INIT)
  {
  }

  lemma StepTaken(h: History, i: nat)
    requires IsRun(h) && i < |h.events|
    ensures Steps(h.states[i], h.events[i], h.states[i + 1])
    ensures Next(h.states[i], h.events[i]) == Some(h.states[i + 1])
  {
    assert StepAt(h, i);
    StepMeans(h.states[i], h.events[i], h.states[i + 1]);
  }

  /** The step a run takes at position i, and what held before it. */
  lemma StepOf(h: History, i: nat)
    requires IsRun(h) && i < |h.events|
    ensures Inv(h.states[i]) && Steps(h.states[i], h.events[i], h.states[i + 1])
    ensures Next(h.states[i], h.events[i]) == Some(h.states[i + 1])
  {
    RunKeepsInv(h, i);
    StepTaken(h, i);
  }
}
