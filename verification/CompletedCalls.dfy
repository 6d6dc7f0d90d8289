/** What calls of stop, waitForShutdown, stopDaemon, RestartWithConfig and Stop have
    brought about when they return. */
module CompletedCalls {
  import opened Wrappers
  import opened Updates
  import opened Lifecycle
  import opened LifecycleInvariant

  predicate StoppedOrClosed(s: State, d: nat) {
    d < |s.daemons| && (s.daemons[d].stopping || s.daemons[d].closed)
  }

  /** flnd.Main has returned and waitForShutdown has seen it. */
  predicate Gone(s: State, d: nat) {
    d < |s.daemons| && s.daemons[d].closed && !s.daemons[d].exec
  }

  lemma StoppedStays(h: History, i: nat, d: nat)
    requires IsRun(h) && i < |h.events|
    ensures StoppedOrClosed(h.states[i], d) ==> StoppedOrClosed(h.states[i + 1], d)
    ensures Gone(h.states[i], d) ==> Gone(h.states[i + 1], d)
  {
    StepOf(h, i);
    StepLater(h.states[i], h.events[i], h.states[i + 1]);
    assert d < |h.states[i].daemons| ==> LaterDaemon(h.states[i].daemons[d], h.states[i + 1].daemons[d]);
  }

  // -------------------------------------------- inside stop and waitForShutdown

  /** From pc, inside stop or waitForShutdown of d, a thread either stays in that
      call or returns from it, and then the call has done its work. */
  predicate CallGoesOn(pc: Pc, s': State, pc': Pc)
    requires pc.In?
  {
    || (pc'.In? && pc'.d == pc.d && pc'.next == pc.next && Waiting(pc'.point) == Waiting(pc.point))
    || (pc' == pc.next && (if Waiting(pc.point) then Gone(s', pc.d) else StoppedOrClosed(s', pc.d)))
  }

  lemma InsideStep(h: History, i: nat, t: Tid)
    requires IsRun(h) && i < |h.events| && At(h.states[i], t).In?
    ensures CallGoesOn(At(h.states[i], t), h.states[i + 1], At(h.states[i + 1], t))
  {
    StepOf(h, i);
    var s, s' := h.states[i], h.states[i + 1];
    match h.events[i]
    case OnDaemon(m, ev) => if m == t { InsideDaemon(h, i, t, ev); } else { DaemonOthers(s, m, ev, s', t); }
    case OnService(m, ev) => InsideService(s, m, ev, s', t);
    case OnLoop(ev) => InsideLoop(s, ev, s', t);
    case OnRelay(ev) => InsideRelay(s, ev, s', t);
    case OnCall(id, ev) => InsideCall(s, id, ev, s', t);
    case OnEnv(ev) =>
  }

  lemma InsideDaemon(h: History, i: nat, t: Tid, ev: DaemonEv)
    requires IsRun(h) && i < |h.events| && h.events[i] == OnDaemon(t, ev) && At(h.states[i], t).In?
    ensures CallGoesOn(At(h.states[i], t), h.states[i + 1], At(h.states[i + 1], t))
  {
    StepOf(h, i);
    var s, s' := h.states[i], h.states[i + 1];
    var d := At(s, t).d;
    assert Fact(s, At(s, t)) && d < |s.daemons|;
    StepLater(s, h.events[i], s');
    RunKeepsInv(h, i + 1);
    assert DaemonOk(s', d);
    InsideFlags(s, t, ev, s');
  }

  lemma InsideFlags(s: State, t: Tid, ev: DaemonEv, s': State)
    requires DaemonStep(s, t, ev) == Some(s') && At(s, t).In? && Fact(s, At(s, t))
    requires At(s, t).d < |s'.daemons| && (s'.daemons[At(s, t).d].closed ==> !s'.daemons[At(s, t).d].exec)
    ensures CallGoesOn(At(s, t), s', At(s', t))
  {
  }

  lemma InsideService(s: State, m: Tid, ev: ServiceEv, s': State, t: Tid)
    requires ServiceStep(s, m, ev) == Some(s')
    ensures At(s, t).In? ==> At(s', t) == At(s, t)
  {
  }

  lemma InsideLoop(s: State, ev: LoopEv, s': State, t: Tid)
    requires ThreadsOk(s) && LoopStep(s, ev) == Some(s')
    ensures At(s, t).In? ==> At(s', t) == At(s, t)
  {
  }

  lemma InsideRelay(s: State, ev: RelayEv, s': State, t: Tid)
    requires RelayStep(s, ev) == Some(s')
    ensures At(s, t).In? ==> At(s', t) == At(s, t)
  {
  }

  lemma InsideCall(s: State, id: nat, ev: CallEv, s': State, t: Tid)
    requires CallStep(s, id, ev) == Some(s')
    ensures At(s, t).In? ==> At(s', t) == At(s, t)
  {
  }

  /** Whoever calls stop on a daemon, the run loop, the relay or a caller, finds it
      stopping or closed when the call is over. */
  lemma {:induction false} StopTakesEffect(h: History, i: nat, n: nat, t: Tid, d: nat)
    requires IsRun(h) && i <= n <= |h.events| && At(h.states[i], t).In? && At(h.states[i], t).d == d
    requires !Waiting(At(h.states[i], t).point) && !At(h.states[n], t).In?
    ensures StoppedOrClosed(h.states[n], d)
    decreases n - i
  {
    InsideStep(h, i, t);
    if StoppedOrClosed(h.states[i + 1], d) {
      StoppedUntil(h, i + 1, n, d);
    } else {
      StopTakesEffect(h, i + 1, n, t, d);
    }
  }

  lemma {:induction false} StoppedUntil(h: History, i: nat, n: nat, d: nat)
    requires IsRun(h) && i <= n <= |h.events|
    ensures StoppedOrClosed(h.states[i], d) ==> StoppedOrClosed(h.states[n], d)
    ensures Gone(h.states[i], d) ==> Gone(h.states[n], d)
    decreases n
  {
    if i < n {
      StoppedUntil(h, i, n - 1, d);
      StoppedStays(h, n - 1, d);
    }
  }

  /** Whoever calls waitForShutdown finds flnd.Main gone when the call is over. */
  lemma {:induction false} WaitTakesEffect(h: History, i: nat, n: nat, t: Tid, d: nat)
    requires IsRun(h) && i <= n <= |h.events| && At(h.states[i], t).In? && At(h.states[i], t).d == d
    requires Waiting(At(h.states[i], t).point) && !At(h.states[n], t).In?
    ensures Gone(h.states[n], d)
    decreases n - i
  {
    InsideStep(h, i, t);
    if Gone(h.states[i + 1], d) {
      StoppedUntil(h, i + 1, n, d);
    } else {
      WaitTakesEffect(h, i + 1, n, t, d);
    }
  }

  /** Inside a stop that is followed by a wait for the same daemon. */
  lemma {:induction false} StopAndWaitTakesEffect(h: History, i: nat, n: nat, t: Tid, d: nat)
    requires IsRun(h) && i <= n <= |h.events| && At(h.states[i], t).In? && At(h.states[i], t).d == d
    requires !Waiting(At(h.states[i], t).point) && !At(h.states[n], t).In?
    requires var next := At(h.states[i], t).next; next.In? && Waiting(next.point) && next.d == d
    ensures Gone(h.states[n], d)
    decreases n - i
  {
    InsideStep(h, i, t);
    if Waiting(At(h.states[i + 1], t).point) {
      WaitTakesEffect(h, i + 1, n, t, d);
    } else {
      StopAndWaitTakesEffect(h, i + 1, n, t, d);
    }
  }

  // ------------------------------------------------- stopDaemon and restarts

  /** stopDaemon stops the daemon it took and waits for it: whenever its caller is
      past the call (about to purge, to cancel, or later), flnd.Main has returned
      and the daemon is closed. */
  lemma StopDaemonWaits(h: History, i: nat, n: nat, t: Tid, d: nat)
    requires IsRun(h) && i < n <= |h.events| && h.events[i] == OnService(t, ClaimDaemon)
    requires h.states[i].daemon == Some(d) && !At(h.states[n], t).In?
    ensures Gone(h.states[n], d)
  {
    StepOf(h, i);
    ClaimEntersStop(h.states[i], t, h.states[i + 1], d);
    StopAndWaitTakesEffect(h, i + 1, n, t, d);
  }

  lemma ClaimEntersStop(s: State, t: Tid, s': State, d: nat)
    requires ServiceStep(s, t, ClaimDaemon) == Some(s') && s.daemon == Some(d)
    ensures var pc := At(s', t);
            && pc.In? && pc.d == d && !Waiting(pc.point)
            && pc.next.In? && Waiting(pc.next.point) && pc.next.d == d
  {
  }

  /** A restart stops the daemon it took: whenever its caller is past the call, the
      daemon is stopping or closed. */
  lemma RestartStops(h: History, i: nat, n: nat, t: Tid, d: nat)
    requires IsRun(h) && i < n <= |h.events| && h.events[i] == OnService(t, LookDaemon)
    requires h.states[i].daemon == Some(d) && !At(h.states[n], t).In?
    ensures StoppedOrClosed(h.states[n], d)
  {
    StepOf(h, i);
    LookEntersStop(h.states[i], t, h.states[i + 1], d);
    StopTakesEffect(h, i + 1, n, t, d);
  }

  lemma LookEntersStop(s: State, t: Tid, s': State, d: nat)
    requires ServiceStep(s, t, LookDaemon) == Some(s') && s.daemon == Some(d)
    ensures At(s', t).In? && At(s', t).d == d && !Waiting(At(s', t).point)
  {
  }

  /** The relay stops the daemon whose Down it has published. */
  lemma PublishedDownStops(h: History, i: nat, n: nat)
    requires IsRun(h) && i < n <= |h.events| && h.events[i] == OnRelay(Publish)
    requires At(h.states[i], Relay).Checked? && At(h.states[i], Relay).u.state == Down && !At(h.states[n], Relay).In?
    ensures StoppedOrClosed(h.states[n], At(h.states[i], Relay).d)
  {
    var d := At(h.states[i], Relay).d;
    StepOf(h, i);
    DownEntersStop(h.states[i], h.states[i + 1], d);
    StopTakesEffect(h, i + 1, n, Relay, d);
  }

  lemma DownEntersStop(s: State, s': State, d: nat)
    requires RelayStep(s, Publish) == Some(s') && At(s, Relay).u.state == Down && At(s, Relay).d == d
    ensures At(s', Relay).In? && At(s', Relay).d == d && !Waiting(At(s', Relay).point)
  {
  }

  /** The relay also stops its daemon when its context ends. */
  lemma CancelledRelayStops(h: History, i: nat, n: nat)
    requires IsRun(h) && i < n <= |h.events| && h.events[i] == OnRelay(Cancelled)
    requires At(h.states[i], Relay).Listen? && !At(h.states[n], Relay).In?
    ensures StoppedOrClosed(h.states[n], At(h.states[i], Relay).d)
  {
    var d := At(h.states[i], Relay).d;
    StepOf(h, i);
    CancelEntersStop(h.states[i], h.states[i + 1], d);
    StopTakesEffect(h, i + 1, n, Relay, d);
  }

  lemma CancelEntersStop(s: State, s': State, d: nat)
    requires RelayStep(s, Cancelled) == Some(s') && At(s, Relay).d == d
    ensures At(s', Relay).In? && At(s', Relay).d == d && !Waiting(At(s', Relay).point)
  {
  }

  // ---------------------------------------- a restart is never without effect

  function SectionOf(op: Op): ServiceEv {
    match op
    case Claim => ClaimDaemon
    case Look => LookDaemon
    case Deposit => DepositToken
  }

  /** A caller leaves a section of the service only by carrying it out. */
  lemma LeavesSection(h: History, p: nat, n: nat, t: Tid) returns (y: nat)
    requires IsRun(h) && p <= n <= |h.events| && t.Caller? && At(h.states[p], t).Svc?
    requires At(h.states[n], t) != At(h.states[p], t)
    ensures p <= y < n && h.events[y] == OnService(t, SectionOf(At(h.states[p], t).op))
    ensures At(h.states[y], t) == At(h.states[p], t)
  {
    y := p;
    while At(h.states[y + 1], t) == At(h.states[p], t)
      invariant p <= y < n && At(h.states[y], t) == At(h.states[p], t)
      decreases n - y
    {
      y := y + 1;
    }
    SectionStep(h, y, t);
  }

  lemma SectionStep(h: History, i: nat, t: Tid)
    requires IsRun(h) && i < |h.events| && t.Caller? && At(h.states[i], t).Svc?
    ensures At(h.states[i + 1], t) == At(h.states[i], t)
            || h.events[i] == OnService(t, SectionOf(At(h.states[i], t).op))
  {
    StepOf(h, i);
    if t != Mover(h.events[i]) {
      Others(h.states[i], h.events[i], h.states[i + 1], t);
    } else {
      SectionMoves(h.states[i], h.events[i], h.states[i + 1], t);
    }
  }

  lemma SectionMoves(s: State, e: Event, s': State, t: Tid)
    requires Steps(s, e, s') && Mover(e) == t && t.Caller? && At(s, t).Svc?
    ensures e == OnService(t, SectionOf(At(s, t).op))
  {
    StepMeans(s, e, s');
  }

  /** Step a commits caller t to a restart: a restart call, a recovery that has
      purged, or a validated RestartNode. */
  predicate AsksRestart(h: History, a: nat, t: Tid)
    requires a < |h.events| <= |h.states|
  {
    match h.events[a]
    case OnCall(id, ev) =>
      t == Caller(id)
      && (ev == Arrive(DoRestart) || ev == Purged(true)
          || (ev == Validated(true) && At(h.states[a], t).Validate? && At(h.states[a], t).bounce))
    case _ => false
  }

  /** Such a caller, when it is past the restart, has looked for a daemon; one it
      found is stopping or closed, and if it found none it has left a token. */
  lemma RestartActs(h: History, a: nat, n: nat, t: Tid) returns (l: nat, m: nat)
    requires IsRun(h) && a < n <= |h.events| && AsksRestart(h, a, t)
    requires !At(h.states[n], t).In? && !At(h.states[n], t).Svc?
    ensures a < l < n && h.events[l] == OnService(t, LookDaemon)
    ensures h.states[l].daemon.Some? ==> StoppedOrClosed(h.states[n], h.states[l].daemon.value)
    ensures h.states[l].daemon.None? ==> l < m < n && h.events[m] == OnService(t, DepositToken)
  {
    AskedLooks(h, a, t);
    l := LeavesSection(h, a + 1, n, t);
    m := l;
    if h.states[l].daemon.Some? {
      RestartStops(h, l, n, t, h.states[l].daemon.value);
    } else {
      StepOf(h, l);
      EmptyLookDeposits(h.states[l], t, h.states[l + 1]);
      m := LeavesSection(h, l + 1, n, t);
    }
  }

  lemma AskedLooks(h: History, a: nat, t: Tid)
    requires IsRun(h) && a < |h.events| && AsksRestart(h, a, t)
    ensures t.Caller? && At(h.states[a + 1], t).Svc? && At(h.states[a + 1], t).op.Look?
  {
    StepOf(h, a);
  }

  lemma EmptyLookDeposits(s: State, t: Tid, s': State)
    requires ServiceStep(s, t, LookDaemon) == Some(s') && s.daemon.None?
    ensures At(s', t).Svc? && At(s', t).op.Deposit?
  {
  }

  // ------------------------------------------------------------ Stop, recovery

  /** Neither in an attempt nor parked after one. */
  predicate OutOfAttempts(pc: Pc) {
    pc.Boot? || pc.Head? || pc.Exited? || pc == Svc(Claim, Exited)
  }

  /** How far a call of Stop has come. */
  predicate StopPath(s: State, pc: Pc) {
    match pc
    case Svc(op, next) => op.Claim? && next == CancelCtx
    case In(p, d, next) => next == if Waiting(p) then CancelCtx else In(AwaitExit, d, CancelCtx)
    case CancelCtx => true
    case WaitLoop => !s.live
    case Returned => !s.live && OutOfAttempts(At(s, RunLoop))
    case _ => false
  }

  lemma StopPathStep(h: History, i: nat, t: Tid)
    requires IsRun(h) && i < |h.events| && t.Caller? && StopPath(h.states[i], At(h.states[i], t))
    ensures StopPath(h.states[i + 1], At(h.states[i + 1], t))
  {
    StepOf(h, i);
    StepLater(h.states[i], h.events[i], h.states[i + 1]);
    if At(h.states[i], t).In? {
      InsideStep(h, i, t);
    } else if At(h.states[i], t).Svc? {
      SectionStep(h, i, t);
    }
    LoopStaysOut(h, i);
    var s, s' := h.states[i], h.states[i + 1];
    if t != Mover(h.events[i]) {
      Others(s, h.events[i], s', t);
    } else {
      match h.events[i]
      case OnDaemon(m, ev) =>
      case OnService(m, ev) => StopPathService(s, t, ev, s');
      case OnCall(id, ev) => StopPathCall(s, id, ev, s');
    }
  }

  lemma StopPathService(s: State, t: Tid, ev: ServiceEv, s': State)
    requires ServiceStep(s, t, ev) == Some(s') && At(s, t) == Svc(Claim, CancelCtx)
    ensures StopPath(s', At(s', t))
  {
  }

  lemma StopPathCall(s: State, id: nat, ev: CallEv, s': State)
    requires CallStep(s, id, ev) == Some(s') && StopPath(s, At(s, Caller(id)))
    ensures StopPath(s', At(s', Caller(id)))
  {
  }

  /** Without a context the run loop never begins an attempt. */
  lemma LoopStaysOut(h: History, i: nat)
    requires IsRun(h) && i < |h.events|
    ensures !h.states[i].live && OutOfAttempts(At(h.states[i], RunLoop)) ==> OutOfAttempts(At(h.states[i + 1], RunLoop))
    ensures !h.states[i].live ==> h.events[i] != OnLoop(Begin)
  {
    StepOf(h, i);
    var s, s' := h.states[i], h.states[i + 1];
    match h.events[i]
    case OnDaemon(m, ev) => if m != RunLoop { DaemonOthers(s, m, ev, s', RunLoop); }
    case OnService(m, ev) => OutInService(s, m, ev, s');
    case OnLoop(ev) => OutInLoop(s, ev, s');
    case OnRelay(ev) => RelayOthers(s, ev, s', RunLoop);
    case OnCall(id, ev) => CallOthers(s, id, ev, s', RunLoop);
    case OnEnv(ev) => EnvShape(s, ev, s');
  }

  lemma OutInService(s: State, m: Tid, ev: ServiceEv, s': State)
    requires Inv(s) && ServiceStep(s, m, ev) == Some(s')
    ensures OutOfAttempts(At(s, RunLoop)) ==> OutOfAttempts(At(s', RunLoop))
  {
  }

  lemma OutInLoop(s: State, ev: LoopEv, s': State)
    requires LoopStep(s, ev) == Some(s')
    ensures !s.live && OutOfAttempts(At(s, RunLoop)) ==> OutOfAttempts(At(s', RunLoop))
    ensures !s.live ==> !ev.Begin?
  {
  }

  lemma {:induction false} StopPathHolds(h: History, a: nat, n: nat, t: Tid)
    requires IsRun(h) && a < n <= |h.events| && t.Caller? && StopPath(h.states[a + 1], At(h.states[a + 1], t))
    ensures StopPath(h.states[n], At(h.states[n], t))
    decreases n
  {
    if a + 1 < n {
      StopPathHolds(h, a, n - 1, t);
      StopPathStep(h, n - 1, t);
    }
  }

  lemma StopBegins(h: History, a: nat, id: nat)
    requires IsRun(h) && a < |h.events| && h.events[a] == OnCall(id, Arrive(DoStop))
    ensures At(h.states[a + 1], Caller(id)) == Svc(Claim, CancelCtx)
  {
    StepOf(h, a);
  }

  /** When a call of Stop has returned, the context has ended, the run loop is in no
      attempt, every daemon it ever supervised is gone, and no attempt begins any
      more. */
  lemma StopLeavesNothingRunning(h: History, a: nat, n: nat, id: nat)
    requires IsRun(h) && a < n <= |h.events| && h.events[a] == OnCall(id, Arrive(DoStop))
    requires At(h.states[n], Caller(id)).Returned?
    ensures !h.states[n].live && OutOfAttempts(At(h.states[n], RunLoop))
    ensures forall d :: 0 <= d < |h.states[n].daemons| && h.states[n].daemons[d].supervised ==> Gone(h.states[n], d)
    ensures forall j :: n <= j < |h.events| ==> h.events[j] != OnLoop(Begin)
  {
    StopBegins(h, a, id);
    StopPathHolds(h, a, n, Caller(id));
    RunKeepsInv(h, n);
    forall d | 0 <= d < |h.states[n].daemons| && h.states[n].daemons[d].supervised ensures Gone(h.states[n], d) {
      assert DaemonOk(h.states[n], d);
    }
    forall j | n <= j < |h.events| ensures h.events[j] != OnLoop(Begin) {
      ContextStaysOver(h, n, j);
      LoopStaysOut(h, j);
    }
  }

  lemma {:induction false} ContextStaysOver(h: History, n: nat, j: nat)
    requires IsRun(h) && n <= j <= |h.events| && !h.states[n].live
    ensures !h.states[j].live
    decreases j
  {
    if n < j {
      ContextStaysOver(h, n, j - 1);
      StepOf(h, j - 1);
      StepLater(h.states[j - 1], h.events[j - 1], h.states[j]);
    }
  }

  /** RecoverNeutrino purges only after its stopDaemon: it has claimed what was
      registered, and a daemon it found is gone. */
  lemma RecoveryPurgesAfterStop(h: History, a: nat, n: nat, id: nat) returns (l: nat)
    requires IsRun(h) && a < n <= |h.events| && h.events[a] == OnCall(id, Arrive(DoRecover))
    requires At(h.states[n], Caller(id)).Purge?
    ensures a < l < n && h.events[l] == OnService(Caller(id), ClaimDaemon)
    ensures h.states[l].daemon.Some? ==> Gone(h.states[n], h.states[l].daemon.value)
  {
    StepOf(h, a);
    l := LeavesSection(h, a + 1, n, Caller(id));
    if h.states[l].daemon.Some? {
      StopDaemonWaits(h, l, n, Caller(id), h.states[l].daemon.value);
    }
  }

  // ------------------------------------------------ VerifyConfig, RestartNode

  /** Nothing but the release of an interceptor is left to do. */
  predicate Winding(pc: Pc) {
    pc.Release? || pc.AwaitQuit? || pc.Returned?
  }

  predicate Verifying(pc: Pc) {
    Winding(pc) || pc == TryAcquire(false) || (pc.Validate? && !pc.bounce)
  }

  lemma VerifyStep(h: History, i: nat, id: nat)
    requires IsRun(h) && i < |h.events|
    ensures Verifying(At(h.states[i], Caller(id))) ==> Verifying(At(h.states[i + 1], Caller(id)))
    ensures Winding(At(h.states[i], Caller(id))) ==> Winding(At(h.states[i + 1], Caller(id)))
    ensures Verifying(At(h.states[i], Caller(id))) ==> !(h.events[i].OnService? && h.events[i].t == Caller(id))
  {
    StepOf(h, i);
    if Caller(id) != Mover(h.events[i]) {
      Others(h.states[i], h.events[i], h.states[i + 1], Caller(id));
    } else {
      VerifyMoves(h.states[i], h.events[i], h.states[i + 1], id);
    }
  }

  lemma VerifyMoves(s: State, e: Event, s': State, id: nat)
    requires Steps(s, e, s') && Mover(e) == Caller(id)
    ensures Verifying(At(s, Caller(id))) ==> Verifying(At(s', Caller(id))) && !e.OnService?
    ensures Winding(At(s, Caller(id))) ==> Winding(At(s', Caller(id)))
  {
    StepMeans(s, e, s');
  }

  /** VerifyConfig, a RestartNode that could not get an interceptor or whose
      configuration is not valid, and a recovery that could not purge leave the daemon
      and the retry gate alone. */
  lemma RefusedCallsTouchNothing(h: History, a: nat, x: nat, id: nat)
    requires IsRun(h) && a < x < |h.events| && h.events[a].OnCall? && h.events[a].id == id
    requires h.events[a].cev in {Arrive(DoVerify), AcquireError, Validated(false), Purged(false)}
    ensures !(h.events[x].OnService? && h.events[x].t == Caller(id))
  {
    VerifyBegins(h, a, id);
    VerifyHolds(h, a + 1, x, id);
    VerifyStep(h, x, id);
  }

  lemma VerifyBegins(h: History, a: nat, id: nat)
    requires IsRun(h) && a < |h.events| && h.events[a].OnCall? && h.events[a].id == id
    requires h.events[a].cev in {Arrive(DoVerify), AcquireError, Validated(false), Purged(false)}
    ensures Verifying(At(h.states[a + 1], Caller(id)))
  {
    StepOf(h, a);
  }

  lemma {:induction false} VerifyHolds(h: History, a: nat, n: nat, id: nat)
    requires IsRun(h) && a <= n <= |h.events| && Verifying(At(h.states[a], Caller(id)))
    ensures Verifying(At(h.states[n], Caller(id)))
    decreases n
  {
    if a < n {
      VerifyHolds(h, a, n - 1, id);
      VerifyStep(h, n - 1, id);
    }
  }

  /** An interceptor that is in use is no failure: the caller goes on to validate, and
      holds none. */
  lemma BusyCallerGoesOn(h: History, i: nat, id: nat)
    requires IsRun(h) && i < |h.events| && h.events[i] == OnCall(id, AcquireBusy)
    ensures !AllFreed(h.states[i])
    ensures var pc := At(h.states[i + 1], Caller(id));
            pc.Validate? && pc.held.None? && CallerHolds(pc).None?
  {
    StepOf(h, i);
  }

  /** On its way to the validation, the caller is a RestartNode. */
  predicate Bouncing(pc: Pc) {
    (pc.TryAcquire? ==> pc.bounce) && (pc.Validate? ==> pc.bounce) && !pc.Absent?
  }

  lemma BounceStep(h: History, i: nat, id: nat)
    requires IsRun(h) && i < |h.events| && Bouncing(At(h.states[i], Caller(id)))
    ensures Bouncing(At(h.states[i + 1], Caller(id)))
  {
    StepOf(h, i);
    var s, s', t := h.states[i], h.states[i + 1], Caller(id);
    assert CallerShape(s, At(s, t));
    if t != Mover(h.events[i]) {
      Others(s, h.events[i], s', t);
    } else {
      match h.events[i]
      case OnDaemon(m, ev) => InsideStep(h, i, t);
      case OnService(m, ev) => BounceInService(s, ev, s', id);
      case OnCall(_, ev) => BounceInCall(s, ev, s', id);
    }
  }

  lemma BounceInService(s: State, ev: ServiceEv, s': State, id: nat)
    requires ServiceStep(s, Caller(id), ev) == Some(s') && CallerShape(s, At(s, Caller(id)))
    ensures Bouncing(At(s', Caller(id)))
  {
  }

  lemma BounceInCall(s: State, ev: CallEv, s': State, id: nat)
    requires CallStep(s, id, ev) == Some(s') && Bouncing(At(s, Caller(id)))
    ensures Bouncing(At(s', Caller(id)))
  {
  }

  lemma {:induction false} BounceHolds(h: History, a: nat, n: nat, id: nat)
    requires IsRun(h) && a <= n <= |h.events| && Bouncing(At(h.states[a], Caller(id)))
    ensures Bouncing(At(h.states[n], Caller(id)))
    decreases n
  {
    if a < n {
      BounceHolds(h, a, n - 1, id);
      BounceStep(h, n - 1, id);
    }
  }

  lemma BounceBegins(h: History, a: nat, id: nat)
    requires IsRun(h) && a < |h.events| && h.events[a] == OnCall(id, Arrive(DoRestartNode))
    ensures Bouncing(At(h.states[a + 1], Caller(id)))
  {
    StepOf(h, a);
  }

  lemma ValidatesAt(h: History, v: nat, id: nat)
    requires IsRun(h) && v < |h.events| && h.events[v] == OnCall(id, Validated(true))
    ensures At(h.states[v], Caller(id)).Validate?
  {
    StepOf(h, v);
  }

  /** A RestartNode whose configuration is valid restarts. */
  lemma ValidRestartNodeActs(h: History, a: nat, v: nat, n: nat, id: nat) returns (l: nat, m: nat)
    requires IsRun(h) && a < v < n <= |h.events| && h.events[a] == OnCall(id, Arrive(DoRestartNode))
    requires h.events[v] == OnCall(id, Validated(true))
    requires !At(h.states[n], Caller(id)).In? && !At(h.states[n], Caller(id)).Svc?
    ensures v < l < n && h.events[l] == OnService(Caller(id), LookDaemon)
    ensures h.states[l].daemon.Some? ==> StoppedOrClosed(h.states[n], h.states[l].daemon.value)
    ensures h.states[l].daemon.None? ==> l < m < n && h.events[m] == OnService(Caller(id), DepositToken)
  {
    BounceBegins(h, a, id);
    BounceHolds(h, a + 1, v, id);
    ValidatesAt(h, v, id);
    l, m := RestartActs(h, v, n, Caller(id));
  }
}
