/** What holds in every reachable state of the lifecycle protocol, and of every step
    of a run. */
module LifecycleTheorems {
  import opened Wrappers
  import opened Updates
  import opened Lifecycle
  import opened LifecycleInvariant

  lemma Reached(s: State)
    requires Reachable(s)
    ensures Inv(s)
  {
    var h :| EndsIn(h, s);
    RunKeepsInv(h, |h.events|);
  }

  // ----------------------------------------------------------- interceptors

  /** While the service context is live, a run loop that is at its head or
      parked at the retry gate has left no interceptor behind. */
  lemma NoInterceptorLeak(s: State, i: nat)
    requires Reachable(s) && s.live
    requires At(s, RunLoop).Head? || At(s, RunLoop).Gate?
    requires i < |s.ics| && s.ics[i].owner == RunLoop
    ensures s.ics[i].requested
  {
    Reached(s);
    assert IcOk(s, i);
  }

  /** VerifyConfig and RestartNode hold no interceptor once they have returned:
      whatever they acquired was shut down and its channel was seen to close. */
  lemma CallersReleaseInterceptors(s: State, id: nat, i: nat)
    requires Reachable(s) && At(s, Caller(id)) == Returned
    requires i < |s.ics| && s.ics[i].owner == Caller(id)
    ensures s.ics[i].requested && s.ics[i].quit
  {
    Reached(s);
    assert IcOk(s, i);
  }

  /** At most one interceptor is alive at a time, across all threads: what the
      contract of signal.Intercept, which fails while one is, gives the protocol. */
  lemma OneInterceptor(s: State, i: nat, j: nat)
    requires Reachable(s) && i < |s.ics| && j < |s.ics|
    requires !s.ics[i].freed && !s.ics[j].freed
    ensures i == j
  {
    Reached(s);
  }

  // --------------------------------------------------- pointers, supervision

  /** s.client and s.daemon are both nil or both those of the one daemon the run
      loop supervises, whatever restarts and stops do meanwhile. */
  lemma PointersFollowSupervision(s: State)
    requires Reachable(s)
    ensures s.client == s.daemon
    ensures s.daemon.Some? ==> Tracked(At(s, RunLoop)) == s.daemon
  {
    Reached(s);
  }

  /** Both pointers are nil outside supervision, so when runOnce returns and
      when the run loop's own final stopDaemon looks for something to stop. */
  lemma PointersNilOutsideSupervision(s: State)
    requires Reachable(s)
    requires var pc := At(s, RunLoop); pc.Head? || pc.Gate? || pc == Svc(Claim, Exited)
    ensures s.client.None? && s.daemon.None?
  {
    Reached(s);
  }

  /** When an attempt begins, every daemon ever supervised has been closed and its
      exec goroutine has exited. */
  lemma ExecGoneBeforeNextAttempt(h: History, i: nat, d: nat)
    requires IsRun(h) && i < |h.events| && h.events[i] == OnLoop(Begin)
    requires d < |h.states[i].daemons| && h.states[i].daemons[d].supervised
    ensures !h.states[i].daemons[d].exec && h.states[i].daemons[d].closed
  {
    StepOf(h, i);
    assert DaemonOk(h.states[i], d);
  }

  /** At most one supervised daemon runs flnd.Main at any time. */
  lemma OneSupervisedExec(s: State, d1: nat, d2: nat)
    requires Reachable(s) && d1 < |s.daemons| && d2 < |s.daemons|
    requires s.daemons[d1].supervised && s.daemons[d1].exec
    requires s.daemons[d2].supervised && s.daemons[d2].exec
    ensures d1 == d2
  {
    Reached(s);
    assert DaemonOk(s, d1) && DaemonOk(s, d2);
  }

  // ------------------------------------------------------------ the relay

  /** The relay publishes a prefix of what it consumes, publishes at most one
      update after the stopping flag is up, and remembers the first published
      crash. */
  lemma RelayPublishesPrefix(s: State)
    requires Reachable(s)
    ensures s.log.published <= s.log.consumed
    ensures s.log.late <= 1
    ensures s.log.crash == FirstCrash(s.log.published)
  {
    Reached(s);
    assert LogOk(s, At(s, Relay));
  }

  /** An attempt ends at the retry gate exactly when startup failed or its relay
      published a crash, and at the loop's head otherwise. */
  lemma GateIffCrash(h: History, i: nat)
    requires IsRun(h) && i < |h.events| && h.events[i].OnLoop?
    requires h.events[i].lev.FailPublished? || h.events[i].lev.ClearPointers?
    ensures var pc := At(h.states[i + 1], RunLoop);
            var crash := FirstCrash(h.states[i].log.published);
            && (pc.Gate? <==> h.events[i].lev.FailPublished? || crash.Some?)
            && (pc.Gate? || pc.Head?)
            && (pc.Gate? && h.events[i].lev.ClearPointers? ==> pc.cause == Crashed(crash.value))
  {
    StepOf(h, i);
    EndOfAttempt(h.states[i], h.events[i].lev, h.states[i + 1]);
  }

  lemma EndOfAttempt(s: State, ev: LoopEv, s': State)
    requires RelayOk(s) && LoopStep(s, ev) == Some(s')
    requires ev.FailPublished? || ev.ClearPointers?
    ensures At(s', RunLoop).Gate? <==> ev.FailPublished? || FirstCrash(s.log.published).Some?
    ensures At(s', RunLoop).Gate? || At(s', RunLoop).Head?
    ensures At(s', RunLoop).Gate? && ev.ClearPointers? ==>
              At(s', RunLoop).cause == Crashed(FirstCrash(s.log.published).value)
  {
  }

  /** Nothing but the end of an attempt leads to the gate. */
  lemma GateEntry(h: History, i: nat)
    requires IsRun(h) && i < |h.events|
    requires !At(h.states[i], RunLoop).Gate? && At(h.states[i + 1], RunLoop).Gate?
    ensures h.events[i].OnLoop? && (h.events[i].lev.FailPublished? || h.events[i].lev.ClearPointers?)
  {
    StepOf(h, i);
    var s, s' := h.states[i], h.states[i + 1];
    match h.events[i]
    case OnDaemon(t, ev) => GateNotFromDaemon(s, t, ev, s');
    case OnService(t, ev) => GateNotFromService(s, t, ev, s');
    case OnLoop(ev) => GateFromLoop(s, ev, s');
    case OnRelay(ev) => RelayOthers(s, ev, s', RunLoop);
    case OnCall(id, ev) => CallOthers(s, id, ev, s', RunLoop);
    case OnEnv(ev) => EnvShape(s, ev, s');
  }


  lemma GateNotFromDaemon(s: State, t: Tid, ev: DaemonEv, s': State)
    requires Inv(s) && DaemonStep(s, t, ev) == Some(s') && !At(s, RunLoop).Gate?
    ensures !At(s', RunLoop).Gate?
  {
    Continuation(s, t);
    if t != RunLoop { DaemonOthers(s, t, ev, s', RunLoop); }
  }

  lemma GateNotFromService(s: State, t: Tid, ev: ServiceEv, s': State)
    requires RunShape(s, At(s, RunLoop)) && ServiceStep(s, t, ev) == Some(s') && !At(s, RunLoop).Gate?
    ensures !At(s', RunLoop).Gate?
  {
  }

  lemma GateFromLoop(s: State, ev: LoopEv, s': State)
    requires LoopStep(s, ev) == Some(s') && !At(s, RunLoop).Gate? && At(s', RunLoop).Gate?
    ensures ev.FailPublished? || ev.ClearPointers?
  {
  }
}

/** The retry gate: where its tokens come from and what they allow. */
module RetryGate {
  import opened Wrappers
  import opened Lifecycle
  import opened LifecycleInvariant

  /** Things that happen in a run; the first four are what can become of a
      restart that found no registered daemon. */
  datatype Kind = Deposited | Passed | Flushed | Dropped | Attempted | CleanEnd

  predicate IsKind(s: State, e: Event, k: Kind) {
    match k
    case Deposited => e.OnService? && e.sev.DepositToken?
    case Passed => e == OnLoop(GatePass)
    case Flushed => e == OnLoop(RegisterConn) && s.retry
    case Dropped => e.OnService? && e.sev.DepositToken? && s.retry
    case Attempted => e == OnLoop(Begin)
    case CleanEnd => e == OnLoop(ClearPointers(None))
  }

  /** How often something of a kind happens in the first n steps of a run. */
  function Count(h: History, n: nat, k: Kind): nat
    requires n <= |h.events| && |h.states| == |h.events| + 1
  {
    if n == 0 then 0
    else Count(h, n - 1, k) + if IsKind(h.states[n - 1], h.events[n - 1], k) then 1 else 0
  }

  lemma TokenStep(s: State, e: Event, s': State)
    requires Steps(s, e, s')
    ensures (if IsKind(s, e, Deposited) then 1 else 0) + (if s.retry then 1 else 0)
            == (if IsKind(s, e, Passed) then 1 else 0) + (if IsKind(s, e, Flushed) then 1 else 0)
               + (if IsKind(s, e, Dropped) then 1 else 0) + (if s'.retry then 1 else 0)
  {
    StepMeans(s, e, s');
    match e
    case OnDaemon(t, ev) => DaemonTokens(s, t, ev, s');
    case OnService(t, ev) =>
    case OnLoop(ev) => LoopTokens(s, ev, s');
    case OnRelay(ev) => RelayTokens(s, ev, s');
    case OnCall(id, ev) => CallTokens(s, id, ev, s');
    case OnEnv(ev) =>
  }

  lemma DaemonTokens(s: State, t: Tid, ev: DaemonEv, s': State)
    requires DaemonStep(s, t, ev) == Some(s')
    ensures s'.retry == s.retry
  {
  }

  lemma LoopTokens(s: State, ev: LoopEv, s': State)
    requires LoopStep(s, ev) == Some(s')
    ensures ev.GatePass? ==> s.retry && !s'.retry
    ensures ev.RegisterConn? ==> !s'.retry
    ensures !ev.GatePass? && !ev.RegisterConn? ==> s'.retry == s.retry
  {
  }

  lemma RelayTokens(s: State, ev: RelayEv, s': State)
    requires RelayStep(s, ev) == Some(s')
    ensures s'.retry == s.retry
  {
  }

  lemma CallTokens(s: State, id: nat, ev: CallEv, s': State)
    requires CallStep(s, id, ev) == Some(s')
    ensures s'.retry == s.retry
  {
  }

  /** Tokens are conserved: every restart that found no registered daemon and
      made its deposit is accounted for by a gate pass, a drain, a drop on the
      full buffer, or the one token the buffer holds. */
  lemma {:induction false} TokensConserved(h: History, n: nat)
    requires IsRun(h) && n <= |h.events|
    ensures Count(h, n, Deposited)
            == Count(h, n, Passed) + Count(h, n, Flushed) + Count(h, n, Dropped) + (if h.states[n].retry then 1 else 0)
  {
    if n > 0 {
      TokensConserved(h, n - 1);
      TokensAt(h, n - 1);
    }
  }

  lemma TokensAt(h: History, i: nat)
    requires IsRun(h) && i < |h.events|
    ensures var s, e := h.states[i], h.events[i];
            (if IsKind(s, e, Deposited) then 1 else 0) + (if s.retry then 1 else 0)
            == (if IsKind(s, e, Passed) then 1 else 0) + (if IsKind(s, e, Flushed) then 1 else 0)
               + (if IsKind(s, e, Dropped) then 1 else 0) + (if h.states[i + 1].retry then 1 else 0)
  {
    StepOf(h, i);
    TokenStep(h.states[i], h.events[i], h.states[i + 1]);
  }

  /** Between Begin and the end of an attempt, or parked after it. */
  predicate Busy(pc: Pc) {
    !pc.Boot? && !pc.Head? && !pc.Svc? && !pc.Exited?
  }

  lemma BusyStep(s: State, e: Event, s': State)
    requires Inv(s) && Steps(s, e, s')
    ensures IsKind(s, e, Attempted) ==> !Busy(At(s, RunLoop)) && Busy(At(s', RunLoop))
    ensures IsKind(s, e, Passed) || IsKind(s, e, CleanEnd) ==> Busy(At(s, RunLoop)) && !Busy(At(s', RunLoop))
    ensures !IsKind(s, e, Attempted) && !Busy(At(s, RunLoop)) ==> !Busy(At(s', RunLoop))
    ensures Busy(At(s, RunLoop)) && !Busy(At(s', RunLoop)) ==>
              IsKind(s, e, Passed) || IsKind(s, e, CleanEnd) || At(s', RunLoop).Exited?
    ensures At(s, RunLoop).Exited? ==> At(s', RunLoop).Exited?
  {
    StepMeans(s, e, s');
    match e
    case OnDaemon(t, ev) => BusyDaemon(s, t, ev, s');
    case OnService(t, ev) => BusyService(s, t, ev, s');
    case OnLoop(ev) => BusyLoop(s, ev, s');
    case OnRelay(ev) => RelayOthers(s, ev, s', RunLoop);
    case OnCall(id, ev) => CallOthers(s, id, ev, s', RunLoop);
    case OnEnv(ev) => EnvShape(s, ev, s');
  }

  lemma BusyDaemon(s: State, t: Tid, ev: DaemonEv, s': State)
    requires Inv(s) && DaemonStep(s, t, ev) == Some(s')
    ensures Busy(At(s', RunLoop)) == Busy(At(s, RunLoop))
    ensures At(s, RunLoop).Exited? ==> At(s', RunLoop).Exited?
  {
    Continuation(s, t);
    if t != RunLoop { DaemonOthers(s, t, ev, s', RunLoop); }
  }

  lemma BusyService(s: State, t: Tid, ev: ServiceEv, s': State)
    requires Inv(s) && ServiceStep(s, t, ev) == Some(s')
    ensures Busy(At(s', RunLoop)) == Busy(At(s, RunLoop))
    ensures At(s, RunLoop).Exited? ==> At(s', RunLoop).Exited?
  {
  }

  lemma BusyLoop(s: State, ev: LoopEv, s': State)
    requires LoopStep(s, ev) == Some(s')
    ensures ev == Begin ==> !Busy(At(s, RunLoop)) && Busy(At(s', RunLoop))
    ensures ev == GatePass || ev == ClearPointers(None) ==> Busy(At(s, RunLoop)) && At(s', RunLoop).Head?
    ensures ev != Begin && !Busy(At(s, RunLoop)) ==> !Busy(At(s', RunLoop))
    ensures Busy(At(s, RunLoop)) && !Busy(At(s', RunLoop)) ==>
              ev == GatePass || ev == ClearPointers(None) || At(s', RunLoop).Exited?
    ensures !At(s, RunLoop).Exited?
  {
  }

  /** The run loop makes at most one attempt more than its clean ends and gate
      passes; exactly that many more while an attempt is in progress or parked. */
  lemma {:induction false} AttemptsAccounted(h: History, n: nat)
    requires IsRun(h) && n <= |h.events|
    ensures var due, pc := Count(h, n, CleanEnd) + Count(h, n, Passed), At(h.states[n], RunLoop);
            && due <= Count(h, n, Attempted) <= due + 1
            && (Busy(pc) ==> Count(h, n, Attempted) == due + 1)
            && (!Busy(pc) && !pc.Exited? ==> Count(h, n, Attempted) == due)
  {
    if n > 0 {
      AttemptsAccounted(h, n - 1);
      StepOf(h, n - 1);
      BusyStep(h.states[n - 1], h.events[n - 1], h.states[n]);
    }
  }

  // ------------------------------------------------- where a token came from

  predicate IsDeposit(e: Event) {
    e.OnService? && e.sev.DepositToken?
  }

  predicate Takes(e: Event) {
    e == OnLoop(RegisterConn) || e == OnLoop(GatePass)
  }

  /** No step from position lo to position hi takes a token out of the buffer. */
  predicate Untouched(h: History, lo: nat, hi: nat)
    requires hi <= |h.events|
  {
    forall x :: lo <= x < hi ==> !Takes(h.events[x])
  }

  /** The token in the buffer after n steps is the one stored by step m. */
  predicate Origin(h: History, n: nat, m: nat)
    requires n <= |h.events| && |h.states| == |h.events| + 1
  {
    m < n && IsDeposit(h.events[m]) && Untouched(h, m + 1, n) && !h.states[m].retry
  }

  /** How one event changes whether the buffer is full. */
  predicate Moves(e: Event, full: bool, full': bool) {
    && (full' ==> !Takes(e) && (full || IsDeposit(e)))
    && (full && !Takes(e) ==> full')
    && (IsDeposit(e) ==> full')
    && (e == OnLoop(GatePass) ==> full)
  }

  lemma FullStep(h: History, i: nat)
    requires IsRun(h) && i < |h.events|
    ensures Moves(h.events[i], h.states[i].retry, h.states[i + 1].retry)
  {
    StepOf(h, i);
    StepMoves(h.states[i], h.events[i], h.states[i + 1]);
  }

  lemma StepMoves(s: State, e: Event, s': State)
    requires Steps(s, e, s')
    ensures Moves(e, s.retry, s'.retry)
  {
    TokenStep(s, e, s');
    if e.OnLoop? {
      StepMeans(s, e, s');
      LoopTokens(s, e.lev, s');
    }
  }

  /** A token in the buffer was deposited after the latest registerConnection
      drain and after the latest gate pass. */
  lemma TokenOrigin(h: History, n: nat) returns (m: nat)
    requires IsRun(h) && n <= |h.events| && h.states[n].retry
    ensures Origin(h, n, m)
  {
    m := n - 1;
    FullStep(h, m);
    while h.states[m].retry
      invariant 0 <= m < n && h.states[m + 1].retry && Untouched(h, m + 1, n)
      invariant Moves(h.events[m], h.states[m].retry, h.states[m + 1].retry)
      decreases m
    {
      m := m - 1;
      FullStep(h, m);
    }
  }

  /** Some attempt between steps lo and hi ended cleanly. */
  predicate EndedCleanly(h: History, lo: nat, hi: nat)
    requires hi <= |h.events|
  {
    exists k :: lo < k < hi && h.events[k] == OnLoop(ClearPointers(None))
  }

  /** Between two attempts, either one ended cleanly or the loop passed the gate
      by consuming a token deposited after the latest drain. */
  lemma SecondAttemptNeedsCause(h: History, i: nat, j: nat)
    requires IsRun(h) && i < j < |h.events| && h.events[i] == OnLoop(Begin) && h.events[j] == OnLoop(Begin)
    ensures EndedCleanly(h, i, j)
            || (exists k, m :: i < k < j && h.events[k] == OnLoop(GatePass) && Origin(h, k, m))
  {
    if !EndedCleanly(h, i, j) {
      var k := PassBetween(h, i, j);
      FullStep(h, k);
      var m := TokenOrigin(h, k);
    }
  }

  /** A run loop that begins an attempt after another one has passed the gate in
      between, unless an attempt ended cleanly. */
  lemma PassBetween(h: History, i: nat, j: nat) returns (k: nat)
    requires IsRun(h) && i < j < |h.events| && h.events[i] == OnLoop(Begin) && h.events[j] == OnLoop(Begin)
    requires !EndedCleanly(h, i, j)
    ensures i < k < j && h.events[k] == OnLoop(GatePass)
  {
    LeaveStep(h, i);
    LeaveStep(h, j);
    k := i + 1;
    while k < j && h.events[k] != OnLoop(GatePass)
      invariant i < k <= j
      invariant At(h.states[k], RunLoop).Exited? || Busy(At(h.states[k], RunLoop))
    {
      LeaveStep(h, k);
      assert h.events[k] != OnLoop(ClearPointers(None));
      k := k + 1;
    }
  }

  predicate LeavesBusy(e: Event, pc: Pc, pc': Pc) {
    && (Busy(pc) && !Busy(pc') ==> e == OnLoop(GatePass) || e == OnLoop(ClearPointers(None)) || pc'.Exited?)
    && (pc.Exited? ==> pc'.Exited?)
    && (e == OnLoop(Begin) ==> pc.Head? && Busy(pc'))
  }

  lemma LeaveStep(h: History, i: nat)
    requires IsRun(h) && i < |h.events|
    ensures LeavesBusy(h.events[i], At(h.states[i], RunLoop), At(h.states[i + 1], RunLoop))
  {
    StepOf(h, i);
    BusyStep(h.states[i], h.events[i], h.states[i + 1]);
    if h.events[i] == OnLoop(Begin) {
      HeadBegins(h.states[i]);
    }
  }

  lemma HeadBegins(s: State)
    requires Next(s, OnLoop(Begin)).Some?
    ensures At(s, RunLoop).Head?
  {
  }

  // ------------------------------------------------ what the gate does not promise

  lemma {:induction false} FullStaysUntil(h: History, lo: nat, hi: nat)
    requires IsRun(h) && lo <= hi <= |h.events| && h.states[lo].retry && Untouched(h, lo, hi)
    ensures h.states[hi].retry
    decreases hi
  {
    if lo < hi {
      FullStaysUntil(h, lo, hi - 1);
      FullStep(h, hi - 1);
    }
  }

  /** If nothing was taken out between lo and n, the token in the buffer at n was
      stored since lo exactly when the buffer was empty at lo. */
  lemma StoredSinceIff(h: History, lo: nat, n: nat, m: nat)
    requires IsRun(h) && lo <= n <= |h.events| && Untouched(h, lo, n) && Origin(h, n, m)
    ensures lo <= m <==> !h.states[lo].retry
  {
    if h.states[lo].retry {
      if lo <= m {
        FullStaysUntil(h, lo, m);
      }
    } else if m < lo {
      FullStep(h, m);
      FullStaysUntil(h, m + 1, lo);
    }
  }

  lemma OriginUnique(h: History, n: nat, m: nat, m': nat)
    requires IsRun(h) && n <= |h.events| && Origin(h, n, m) && Origin(h, n, m')
    ensures m == m'
  {
    var a, b := if m < m' then m else m', if m < m' then m' else m;
    if a < b {
      FullStep(h, a);
      FullStaysUntil(h, a + 1, b);
    }
  }

  /** Between the look of RestartWithConfig and its send on retryNow. */
  predicate Depositing(pc: Pc) {
    pc.Svc? && pc.op.Deposit?
  }

  /** The restart that makes the deposit of step m looked for a daemon at step l. */
  predicate LookOf(h: History, m: nat, l: nat)
    requires m < |h.events| && |h.states| == |h.events| + 1
  {
    && l < m && IsDeposit(h.events[m]) && h.events[l] == OnService(h.events[m].t, LookDaemon)
    && forall x :: l < x <= m ==> Depositing(At(h.states[x], h.events[m].t))
  }

  /** Only the look of a restart leads to its deposit. */
  lemma DepositFollowsLook(h: History, i: nat, t: Tid)
    requires IsRun(h) && i < |h.events|
    requires !Depositing(At(h.states[i], t)) && Depositing(At(h.states[i + 1], t))
    ensures h.events[i] == OnService(t, LookDaemon)
  {
    StepOf(h, i);
    var s, s' := h.states[i], h.states[i + 1];
    match h.events[i]
    case OnDaemon(m, ev) => NoDepositFromDaemon(s, m, ev, s', t);
    case OnService(m, ev) => DepositFromLook(s, m, ev, s', t);
    case OnLoop(ev) => NoDepositFromLoop(s, ev, s', t);
    case OnRelay(ev) => NoDepositFromRelay(s, ev, s', t);
    case OnCall(id, ev) => NoDepositFromCall(s, id, ev, s', t);
    case OnEnv(ev) => EnvOthers(s, ev, s', t);
  }

  lemma EnvOthers(s: State, ev: EnvEv, s': State, t: Tid)
    requires EnvStep(s, ev) == Some(s')
    ensures At(s', t) == At(s, t)
  {
  }


  lemma NoDepositFromDaemon(s: State, m: Tid, ev: DaemonEv, s': State, t: Tid)
    requires Inv(s) && DaemonStep(s, m, ev) == Some(s') && !Depositing(At(s, t))
    ensures !Depositing(At(s', t))
  {
    if t == m { Continuation(s, m); } else { DaemonOthers(s, m, ev, s', t); }
  }

  lemma DepositFromLook(s: State, m: Tid, ev: ServiceEv, s': State, t: Tid)
    requires ThreadsOk(s) && ServiceStep(s, m, ev) == Some(s')
    requires !Depositing(At(s, t)) && Depositing(At(s', t))
    ensures m == t && ev == LookDaemon
  {
    if m.Caller? {
      assert CallerShape(s, At(s, Caller(m.id)));
    }
  }

  lemma NoDepositFromLoop(s: State, ev: LoopEv, s': State, t: Tid)
    requires LoopStep(s, ev) == Some(s') && !Depositing(At(s, t))
    ensures !Depositing(At(s', t))
  {
  }

  lemma NoDepositFromRelay(s: State, ev: RelayEv, s': State, t: Tid)
    requires RelayStep(s, ev) == Some(s') && !Depositing(At(s, t))
    ensures !Depositing(At(s', t))
  {
  }

  lemma NoDepositFromCall(s: State, id: nat, ev: CallEv, s': State, t: Tid)
    requires CallStep(s, id, ev) == Some(s') && !Depositing(At(s, t))
    ensures !Depositing(At(s', t))
  {
  }

  lemma DepositorDeposits(h: History, m: nat)
    requires IsRun(h) && m < |h.events| && IsDeposit(h.events[m])
    ensures Depositing(At(h.states[m], h.events[m].t))
  {
    StepOf(h, m);
  }

  /** A deposit whose caller was not about to make it at p was looked for since p. */
  lemma FindLook(h: History, p: nat, m: nat) returns (l: nat)
    requires IsRun(h) && p <= m < |h.events| && IsDeposit(h.events[m])
    requires !Depositing(At(h.states[p], h.events[m].t))
    ensures p <= l && LookOf(h, m, l)
  {
    var t := h.events[m].t;
    DepositorDeposits(h, m);
    l := m;
    while Depositing(At(h.states[l], t))
      invariant p <= l <= m && forall x :: l < x <= m ==> Depositing(At(h.states[x], t))
      invariant l == m ==> Depositing(At(h.states[l], t))
      decreases l
    {
      l := l - 1;
    }
    DepositFollowsLook(h, l, t);
  }

  /** When does a pass of the gate answer a restart that looked for a daemon since
      position p of the run? Let p be any position after the latest drain and the
      latest pass, such as the publication of a crash or the moment the run loop
      parks, and m the deposit the pass consumes. Then the restart behind m looked
      since p exactly when, at p, the buffer was empty and its caller was not
      already past its look. */
  lemma PassLookedSinceIff(h: History, p: nat, k: nat) returns (m: nat)
    requires IsRun(h) && p <= k < |h.events| && h.events[k] == OnLoop(GatePass) && Untouched(h, p, k)
    ensures Origin(h, k, m) && forall m': nat :: Origin(h, k, m') ==> m' == m
    ensures (exists l: nat :: p <= l && LookOf(h, m, l)) <==>
            !h.states[p].retry && !Depositing(At(h.states[p], h.events[m].t))
  {
    FullStep(h, k);
    m := TokenOrigin(h, k);
    forall m': nat | Origin(h, k, m') ensures m' == m {
      OriginUnique(h, k, m, m');
    }
    StoredSinceIff(h, p, k, m);
    if Depositing(At(h.states[p], h.events[m].t)) {
      NotDepositedYet(h, p, k, m);
    } else if !h.states[p].retry {
      var l := FindLook(h, p, m);
    }
  }

  /** A caller past its look at p can only look again after its deposit, and that
      fills the buffer. */
  lemma NotDepositedYet(h: History, p: nat, k: nat, m: nat)
    requires IsRun(h) && p <= k <= |h.events| && Untouched(h, p, k) && Origin(h, k, m)
    requires Depositing(At(h.states[p], h.events[m].t))
    ensures forall l: nat :: p <= l < m ==> !LookOf(h, m, l)
  {
    var t := h.events[m].t;
    forall l: nat | p <= l < m && LookOf(h, m, l) ensures false {
      LookerLooks(h, l, t);
      var y := LeavesDeposit(h, p, l, t);
      FullStep(h, y);
      FullStaysUntil(h, y + 1, m);
    }
  }

  lemma LookerLooks(h: History, l: nat, t: Tid)
    requires IsRun(h) && l < |h.events| && h.events[l] == OnService(t, LookDaemon)
    ensures !Depositing(At(h.states[l], t))
  {
    StepOf(h, l);
  }

  /** A caller leaves the point before its deposit only by making it. */
  lemma LeavesDeposit(h: History, p: nat, l: nat, t: Tid) returns (y: nat)
    requires IsRun(h) && p <= l <= |h.events|
    requires Depositing(At(h.states[p], t)) && !Depositing(At(h.states[l], t))
    ensures p <= y < l && h.events[y] == OnService(t, DepositToken)
  {
    y := p;
    while Depositing(At(h.states[y + 1], t))
      invariant p <= y < l && Depositing(At(h.states[y], t))
      decreases l - y
    {
      y := y + 1;
    }
    DepositEnds(h, y, t);
  }

  lemma DepositEnds(h: History, i: nat, t: Tid)
    requires IsRun(h) && i < |h.events|
    requires Depositing(At(h.states[i], t)) && !Depositing(At(h.states[i + 1], t))
    ensures h.events[i] == OnService(t, DepositToken)
  {
    StepOf(h, i);
    OnlyCallersDeposit(h.states[i], t);
    if t != Mover(h.events[i]) {
      Others(h.states[i], h.events[i], h.states[i + 1], t);
    } else {
      DepositorMoves(h.states[i], h.events[i], h.states[i + 1], t);
    }
  }

  lemma DepositorMoves(s: State, e: Event, s': State, t: Tid)
    requires Steps(s, e, s') && Mover(e) == t && t.Caller? && Depositing(At(s, t))
    ensures e == OnService(t, DepositToken)
  {
    StepMeans(s, e, s');
  }

  lemma OnlyCallersDeposit(s: State, t: Tid)
    requires ThreadsOk(s) && Depositing(At(s, t))
    ensures t.Caller?
  {
  }

  // ------------------------------------------------- when the restart was called

  /** The caller that makes the deposit of step m was called at step a. */
  predicate CallOf(h: History, m: nat, a: nat)
    requires m < |h.events|
  {
    && a < m && IsDeposit(h.events[m]) && h.events[a].OnCall? && h.events[a].cev.Arrive?
    && h.events[m].t == Caller(h.events[a].id)
  }

  predicate Called(s: State, t: Tid) {
    !At(s, t).Absent?
  }

  lemma CalledInDaemon(s: State, m: Tid, ev: DaemonEv, s': State, t: Tid)
    requires Inv(s) && DaemonStep(s, m, ev) == Some(s') && t.Caller?
    ensures Called(s', t) == Called(s, t)
  {
    if t == m { Continuation(s, m); } else { DaemonOthers(s, m, ev, s', t); }
  }

  lemma CalledInService(s: State, m: Tid, ev: ServiceEv, s': State, t: Tid)
    requires ThreadsOk(s) && ServiceStep(s, m, ev) == Some(s') && t.Caller?
    ensures Called(s', t) == Called(s, t)
  {
    assert CallerShape(s, At(s, Caller(t.id)));
  }

  lemma CalledInCall(s: State, id: nat, ev: CallEv, s': State, t: Tid)
    requires CallStep(s, id, ev) == Some(s')
    ensures Called(s, t) ==> Called(s', t)
    ensures !Called(s, t) && Called(s', t) ==> ev.Arrive? && t == Caller(id)
  {
  }

  /** A call is made once, by an Arrive, and is never undone. */
  lemma CalledAt(h: History, i: nat, t: Tid)
    requires IsRun(h) && i < |h.events| && t.Caller?
    ensures Called(h.states[i], t) ==> Called(h.states[i + 1], t)
    ensures !Called(h.states[i], t) && Called(h.states[i + 1], t) ==>
              h.events[i].OnCall? && h.events[i].cev.Arrive? && t == Caller(h.events[i].id)
  {
    StepOf(h, i);
    var s, s' := h.states[i], h.states[i + 1];
    match h.events[i]
    case OnDaemon(m, ev) => CalledInDaemon(s, m, ev, s', t);
    case OnService(m, ev) => CalledInService(s, m, ev, s', t);
    case OnLoop(ev) => LoopOthers(s, ev, s', t);
    case OnRelay(ev) => RelayOthers(s, ev, s', t);
    case OnCall(id, ev) => CalledInCall(s, id, ev, s', t);
    case OnEnv(ev) => EnvOthers(s, ev, s', t);
  }

  lemma {:induction false} CalledStays(h: History, p: nat, n: nat, t: Tid)
    requires IsRun(h) && p <= n <= |h.events| && t.Caller? && Called(h.states[p], t)
    ensures Called(h.states[n], t)
    decreases n
  {
    if p < n {
      CalledStays(h, p, n - 1, t);
      CalledAt(h, n - 1, t);
    }
  }

  /** A caller absent at p and present at m was called in between. */
  lemma FindCall(h: History, p: nat, m: nat, t: Tid) returns (a: nat)
    requires IsRun(h) && p <= m <= |h.events| && t.Caller? && !Called(h.states[p], t) && Called(h.states[m], t)
    ensures p <= a < m && h.events[a].OnCall? && h.events[a].cev.Arrive? && t == Caller(h.events[a].id)
  {
    a := p;
    while !Called(h.states[a + 1], t)
      invariant p <= a < m && !Called(h.states[a], t)
      decreases m - a
    {
      a := a + 1;
    }
    CalledAt(h, a, t);
  }

  lemma CalledFromAbsent(h: History, a: nat)
    requires IsRun(h) && a < |h.events| && h.events[a].OnCall? && h.events[a].cev.Arrive?
    ensures !Called(h.states[a], Caller(h.events[a].id))
  {
    StepOf(h, a);
  }

  lemma DepositorWasCalled(h: History, m: nat)
    requires IsRun(h) && m < |h.events| && IsDeposit(h.events[m])
    ensures h.events[m].t.Caller? && Called(h.states[m], h.events[m].t)
  {
    DepositorDeposits(h, m);
    RunKeepsInv(h, m);
    OnlyCallersDeposit(h.states[m], h.events[m].t);
  }

  /** When does a pass of the gate answer a restart requested since position p of
      the run, the moment a crash is published or the run loop parks? The call
      behind the one deposit the pass consumes was made since p exactly when, at
      p, the buffer was empty and the depositor had not been called yet. */
  lemma PassIsPromptedIff(h: History, p: nat, k: nat) returns (m: nat)
    requires IsRun(h) && p <= k < |h.events| && h.events[k] == OnLoop(GatePass) && Untouched(h, p, k)
    ensures Origin(h, k, m) && forall m': nat :: Origin(h, k, m') ==> m' == m
    ensures (exists a: nat :: p <= a && CallOf(h, m, a)) <==>
            !h.states[p].retry && At(h.states[p], h.events[m].t).Absent?
  {
    m := PassLookedSinceIff(h, p, k);
    StoredSinceIff(h, p, k, m);
    DepositorWasCalled(h, m);
    var t := h.events[m].t;
    if !h.states[p].retry && !Called(h.states[p], t) {
      var a := FindCall(h, p, m, t);
      assert CallOf(h, m, a);
    }
    forall a: nat | p <= a && CallOf(h, m, a) ensures !Called(h.states[p], t) {
      CalledFromAbsent(h, a);
      if Called(h.states[p], t) {
        CalledStays(h, p, a, t);
      }
    }
  }

  /** The call a thread is in can still come to a deposit. */
  predicate MayDeposit(pc: Pc) {
    match pc
    case Svc(op, n) => !op.Claim? || MayDeposit(n)
    case In(_, _, n) => MayDeposit(n)
    case Purge => true
    case TryAcquire(bounce) => bounce
    case Validate(_, bounce) => bounce
    case _ => false
  }

  lemma SpentInDaemon(s: State, m: Tid, ev: DaemonEv, s': State, t: Tid)
    requires DaemonStep(s, m, ev) == Some(s') && !MayDeposit(At(s, t))
    ensures !MayDeposit(At(s', t))
  {
    if t != m { DaemonOthers(s, m, ev, s', t); }
  }

  lemma SpentInService(s: State, m: Tid, ev: ServiceEv, s': State, t: Tid)
    requires ServiceStep(s, m, ev) == Some(s') && !MayDeposit(At(s, t))
    ensures !MayDeposit(At(s', t))
  {
  }

  lemma SpentInCall(s: State, id: nat, ev: CallEv, s': State, t: Tid)
    requires CallStep(s, id, ev) == Some(s') && Called(s, t) && !MayDeposit(At(s, t))
    ensures !MayDeposit(At(s', t))
  {
  }

  lemma {:induction false} SpentStays(h: History, p: nat, n: nat, t: Tid)
    requires IsRun(h) && p <= n <= |h.events| && t.Caller?
    requires Called(h.states[p], t) && !MayDeposit(At(h.states[p], t))
    ensures Called(h.states[n], t) && !MayDeposit(At(h.states[n], t))
    decreases n
  {
    if p < n {
      SpentStays(h, p, n - 1, t);
      CalledAt(h, n - 1, t);
      SpentAt(h, n - 1, t);
    }
  }

  lemma SpentAt(h: History, i: nat, t: Tid)
    requires IsRun(h) && i < |h.events| && t.Caller?
    requires Called(h.states[i], t) && !MayDeposit(At(h.states[i], t))
    ensures !MayDeposit(At(h.states[i + 1], t))
  {
    StepOf(h, i);
    var s, s' := h.states[i], h.states[i + 1];
    match h.events[i]
    case OnDaemon(m, ev) => SpentInDaemon(s, m, ev, s', t);
    case OnService(m, ev) => SpentInService(s, m, ev, s', t);
    case OnLoop(ev) => LoopOthers(s, ev, s', t);
    case OnRelay(ev) => RelayOthers(s, ev, s', t);
    case OnCall(id, ev) => SpentInCall(s, id, ev, s', t);
    case OnEnv(ev) => EnvOthers(s, ev, s', t);
  }

  /** What can be checked when a crash is published or the run loop parks: with an
      empty buffer and no call under way that can still come to a deposit, the
      gate opens only for a restart called since. */
  lemma QuietGateNeedsRestart(h: History, p: nat, k: nat) returns (m: nat, a: nat)
    requires IsRun(h) && p <= k < |h.events| && h.events[k] == OnLoop(GatePass) && Untouched(h, p, k)
    requires !h.states[p].retry && forall t: Tid :: !MayDeposit(At(h.states[p], t))
    ensures Origin(h, k, m) && p <= a && CallOf(h, m, a)
  {
    m := PassIsPromptedIff(h, p, k);
    StoredSinceIff(h, p, k, m);
    DepositorWasCalled(h, m);
    DepositorDeposits(h, m);
    var t := h.events[m].t;
    if Called(h.states[p], t) {
      SpentStays(h, p, m, t);
    }
    a :| p <= a && CallOf(h, m, a);
  }
}

/** Runs that show what the protocol does not promise. */
module LifecycleLimits {
  import opened Wrappers
  import opened Updates
  import opened Lifecycle

  predicate Continues(h: History, h': History) {
    h.events <= h'.events && h.states <= h'.states
  }

  lemma Extend(h: History, s: State, e: Event) returns (h': History, s': State)
    requires EndsIn(h, s) && Next(s, e).Some?
    ensures EndsIn(h', s') && h'.events == h.events + [e] && h'.states == h.states + [s'] && Next(s, e) == Some(s')
  {
    s' := Next(s, e).value;
    h' := History(h.events + [e], h.states + [s']);
    forall i | 0 <= i < |h'.events| ensures StepAt(h', i) {
      assert i < |h.events| ==> StepAt(h, i);
    }
  }

  const IC := Interceptor(RunLoop, false, false, false)
  const DM := Daemon(0, false, false, false, true, None, true)
  const WAITING := In(AwaitExit, 0, Join(0))

  /** The service is starting its first daemon and a restart has looked for one
      and found none, but has not made its deposit. */
  const LOOKED := Svc(Deposit, Returned)

  /** ... or has only been called. */
  const CALLED := Svc(Look, Returned)

  function Starting(caller: Pc): State {
    State(true, None, None, false, [], [], map[RunLoop := Acquire, Caller(0) := caller], EMPTY_LOG)
  }

  /** The daemon has been built. */
  function Built(caller: Pc): State {
    State(true, None, None, false, [DM.(supervised := false)], [IC],
          map[RunLoop := Launch(0), Caller(0) := caller], EMPTY_LOG)
  }

  /** The daemon is supervised and registered; the deposit is still to come. */
  function UpWith(caller: Pc): State {
    State(true, Some(0), Some(0), false, [DM], [IC],
          map[RunLoop := WAITING, Relay := Listen(0), Caller(0) := caller], EMPTY_LOG)
  }

  const UP := UpWith(LOOKED)

  lemma ReachStarting(caller: Pc) returns (h: History)
    requires caller == LOOKED || caller == CALLED
    ensures EndsIn(h, Starting(caller))
  {
    var s := INIT;
    h := History([], [INIT]);
    h, s := Extend(h, s, OnLoop(BootUp));
    h, s := Extend(h, s, OnLoop(Begin));
    h, s := Extend(h, s, OnCall(0, Arrive(DoRestart)));
    assert s.threads == Starting(CALLED).threads;
    if caller == LOOKED {
      h, s := Extend(h, s, OnService(Caller(0), LookDaemon));
      assert s.threads == Starting(LOOKED).threads;
    }
  }

  lemma AcquireIt(h: History, s: State) returns (h': History)
    requires EndsIn(h, s) && At(s, RunLoop).Acquire? && s.ics == []
    ensures EndsIn(h', s.(ics := [IC], threads := s.threads[RunLoop := Build(0)]))
  {
    var s';
    h', s' := Extend(h, s, OnLoop(AcquireOk));
    assert s'.ics == [IC];
  }

  lemma BuildIt(h: History, s: State) returns (h': History)
    requires EndsIn(h, s) && At(s, RunLoop) == Build(0) && s.daemons == []
    ensures EndsIn(h', s.(daemons := [DM.(supervised := false)], threads := s.threads[RunLoop := Launch(0)]))
  {
    var s';
    h', s' := Extend(h, s, OnLoop(BuildOk));
    assert s'.daemons == [DM.(supervised := false)];
  }

  lemma SpawnIt(h: History, s: State) returns (h': History)
    requires EndsIn(h, s) && At(s, RunLoop) == Spawn(0) && s.daemons == [DM.(supervised := false)]
    ensures EndsIn(h', s.(daemons := [DM], log := EMPTY_LOG,
                          threads := s.threads[RunLoop := Register(0)][Relay := Listen(0)]))
  {
    var s';
    h', s' := Extend(h, s, OnLoop(SpawnRelay));
    assert s'.daemons == [DM];
    assert s'.threads == s.threads[RunLoop := Register(0)][Relay := Listen(0)];
  }

  lemma ReachBuilt(caller: Pc) returns (h: History)
    requires caller == LOOKED || caller == CALLED
    ensures EndsIn(h, Built(caller))
  {
    var s := Starting(caller);
    h := ReachStarting(caller);
    h := AcquireIt(h, s);
    h := BuildIt(h, s.(ics := [IC], threads := s.threads[RunLoop := Build(0)]));
    assert s.threads[RunLoop := Build(0)][RunLoop := Launch(0)] == Built(caller).threads;
  }

  lemma ReachUp(caller: Pc) returns (h: History)
    requires caller == LOOKED || caller == CALLED
    ensures EndsIn(h, UpWith(caller))
  {
    var s;
    h, s := ReachSpawned(caller);
    h, s := Extend(h, s, OnLoop(RegisterConn));
    assert s.threads == UpWith(caller).threads;
  }

  lemma ReachSpawned(caller: Pc) returns (h: History, s: State)
    requires caller == LOOKED || caller == CALLED
    ensures EndsIn(h, s) && s.threads == UpWith(caller).threads[RunLoop := Register(0)]
    ensures s == UpWith(caller).(client := None, daemon := None, threads := s.threads)
  {
    h, s := ReachStarted(caller);
    h := SpawnIt(h, s);
    s := h.states[|h.events|];
    assert s.threads == UpWith(caller).threads[RunLoop := Register(0)];
  }

  lemma ReachStarted(caller: Pc) returns (h: History, s: State)
    requires caller == LOOKED || caller == CALLED
    ensures EndsIn(h, s) && s == Built(caller).(threads := Built(caller).threads[RunLoop := Spawn(0)])
  {
    h := ReachBuilt(caller);
    h, s := Extend(h, Built(caller), OnLoop(StartOk));
  }

  const CRASH := Update(Down, Some("crash"))
  const CRASH_LOG := RelayLog([CRASH], [CRASH], 0, Some("crash"))
  const DOOMED := DM.(stopping := true, cancelled := true)

  lemma LateDeposit(h: History) returns (h': History)
    requires EndsIn(h, UP)
    ensures h'.events == h.events + [OnService(Caller(0), DepositToken)]
    ensures EndsIn(h', UP.(retry := true, threads := UP.threads[Caller(0) := Returned]))
  {
    var s;
    h', s := Extend(h, UP, OnService(Caller(0), DepositToken));
  }

  /** The relay of a healthy supervised daemon publishes a crash. */
  lemma PublishCrash(h: History, s: State) returns (h': History, s': State)
    requires EndsIn(h, s) && s.daemons == [DM] && At(s, Relay) == Listen(0) && s.log == EMPTY_LOG
    ensures EndsIn(h', s') && Continues(h, h')
    ensures h'.events == h.events + [OnRelay(Receive(CRASH)), OnRelay(Admit), OnRelay(Publish)]
    ensures s' == s.(log := CRASH_LOG, threads := s'.threads)
    ensures s'.threads == s.threads[Relay := In(EnterStop, 0, Listen(0))]
  {
    var checked, s1 := CheckCrash(h, s);
    h', s' := Extend(checked, s1, OnRelay(Publish));
    assert s'.log.published == [CRASH];
  }

  lemma CheckCrash(h: History, s: State) returns (h': History, s': State)
    requires EndsIn(h, s) && s.daemons == [DM] && At(s, Relay) == Listen(0) && s.log == EMPTY_LOG
    ensures EndsIn(h', s') && Continues(h, h') && h'.events == h.events + [OnRelay(Receive(CRASH)), OnRelay(Admit)]
    ensures s' == s.(log := EMPTY_LOG.(consumed := [CRASH]), threads := s.threads[Relay := Checked(0, CRASH)])
  {
    h', s' := Extend(h, s, OnRelay(Receive(CRASH)));
    h', s' := Extend(h', s', OnRelay(Admit));
  }

  /** The relay stops the daemon. */
  lemma StopIt(h: History, s: State) returns (h': History, s': State)
    requires EndsIn(h, s) && s.daemons == [DM] && |s.ics| == 1 && At(s, Relay) == In(EnterStop, 0, Listen(0))
    ensures EndsIn(h', s') && Continues(h, h')
    ensures s' == s.(daemons := [DOOMED], ics := s'.ics, threads := s'.threads)
    ensures s'.threads == s.threads[Relay := Listen(0)]
  {
    h', s' := Extend(h, s, OnDaemon(Relay, StopBegin));
    h', s' := Extend(h', s', OnDaemon(Relay, StopEnd));
    assert s'.daemons == [DOOMED];
  }

  /** The run loop sees the stopped daemon exit. */
  lemma DrainIt(h: History, s: State) returns (h': History, s': State)
    requires EndsIn(h, s) && s.daemons == [DOOMED] && At(s, RunLoop) == WAITING
    ensures EndsIn(h', s') && Continues(h, h')
    ensures s' == s.(daemons := [DOOMED.(exec := false, closed := true)], threads := s'.threads)
    ensures s'.threads == s.threads[RunLoop := Join(0)]
  {
    h', s' := Extend(h, s, OnEnv(ExecExit(0)));
    h', s' := Extend(h', s', OnDaemon(RunLoop, SawCancel));
    h', s' := Extend(h', s', OnDaemon(RunLoop, Drained));
    h', s' := Extend(h', s', OnDaemon(RunLoop, SetClosed));
    assert s'.daemons == [DOOMED.(exec := false, closed := true)];
  }

  /** The relay of a closed daemon is cancelled and joined. */
  lemma JoinIt(h: History, s: State) returns (h': History, s': State)
    requires EndsIn(h, s) && |s.daemons| == 1 && s.daemons[0].closed && s.daemons[0].mu.None?
    requires At(s, RunLoop) == Join(0) && At(s, Relay) == Listen(0)
    ensures EndsIn(h', s') && Continues(h, h')
    ensures s' == s.(threads := s'.threads)
    ensures s'.threads == s.threads[RunLoop := Clear(0, s.log.crash)][Relay := Absent]
  {
    h', s' := RelayEnds(h, s);
    h', s' := Extend(h', s', OnLoop(JoinRelay));
  }

  lemma RelayEnds(h: History, s: State) returns (h': History, s': State)
    requires EndsIn(h, s) && |s.daemons| == 1 && s.daemons[0].closed && s.daemons[0].mu.None?
    requires At(s, RunLoop) == Join(0) && At(s, Relay) == Listen(0)
    ensures EndsIn(h', s') && Continues(h, h')
    ensures s' == s.(threads := s.threads[Relay := RelayDone(0)])
  {
    h', s' := Extend(h, s, OnRelay(Cancelled));
    h', s' := Extend(h', s', OnDaemon(Relay, StopNoop));
  }

  /** The comment in registerConnection wants a crash to hold the node down until
      the user asks for a retry. A restart that looked while the first daemon was
      starting can deposit after the drain; then a later crash finds the token
      and the gate opens although no restart was requested since the crash.
      RetryGate.PassIsPromptedIff gives the exact condition. */
  lemma StaleTokenOpensGate() returns (h: History, s: State, deposit: nat, crash: nat)
    ensures EndsIn(h, s) && At(s, RunLoop) == Gate(Crashed("crash")) && s.retry
    ensures deposit < crash < |h.events|
    ensures h.events[deposit] == OnService(Caller(0), DepositToken) && h.events[crash] == OnRelay(Publish)
    ensures s.threads.Keys == {RunLoop, Relay, Caller(0)} && At(s, Caller(0)).Returned?
  {
    var start, s0;
    start, deposit, crash, s0 := CrashAfterDeposit();
    var mid, s1 := ExitIt(start, s0);
    h, s := ParkIt(mid, s1);
  }

  /** The relay stops the daemon and the run loop sees it exit. */
  lemma ExitIt(h: History, s: State) returns (h': History, s': State)
    requires EndsIn(h, s) && s.daemons == [DM] && |s.ics| == 1
    requires At(s, RunLoop) == WAITING && At(s, Relay) == In(EnterStop, 0, Listen(0))
    ensures EndsIn(h', s') && Continues(h, h')
    ensures s' == s.(daemons := [DOOMED.(exec := false, closed := true)], ics := s'.ics, threads := s'.threads)
    ensures s'.threads == s.threads[Relay := Listen(0)][RunLoop := Join(0)]
  {
    var mid, s1 := StopIt(h, s);
    h', s' := DrainIt(mid, s1);
  }

  lemma CrashAfterDeposit() returns (h: History, deposit: nat, crash: nat, s: State)
    ensures EndsIn(h, s) && deposit < crash < |h.events|
    ensures h.events[deposit] == OnService(Caller(0), DepositToken) && h.events[crash] == OnRelay(Publish)
    ensures s == UP.(retry := true, log := CRASH_LOG, threads := s.threads)
    ensures s.threads == UP.threads[Caller(0) := Returned][Relay := In(EnterStop, 0, Listen(0))]
  {
    h := ReachUp(LOOKED);
    deposit, crash := |h.events|, |h.events| + 3;
    h := LateDeposit(h);
    h, s := PublishCrash(h, UP.(retry := true, threads := UP.threads[Caller(0) := Returned]));
  }

  /** A token deposited after parking is not always a fresh request either: a
      restart that looked while the first daemon was starting (its caller is past
      its look in the state UP) can make its deposit after a later crash has parked
      the run loop with an empty buffer, and the gate opens. */
  lemma LateDepositOpensGate() returns (h: History, up: nat, crash: nat, park: nat)
    ensures IsRun(h) && up < crash < park && |h.events| == park + 2
    ensures h.states[up] == UP && At(UP, Caller(0)) == Svc(Deposit, Returned)
    ensures h.events[crash] == OnRelay(Publish)
    ensures At(h.states[park], RunLoop) == Gate(Crashed("crash")) && !h.states[park].retry
    ensures h.events[park] == OnService(Caller(0), DepositToken) && h.events[park + 1] == OnLoop(GatePass)
    ensures h.states[park + 2].threads.Keys == {RunLoop, Relay, Caller(0)}
  {
    var parked, s;
    parked, s, up, crash := ParkBesideCaller(LOOKED);
    park := |parked.events|;
    h, s := DepositAndPass(parked, s);
  }

  /** A caller past its look deposits and opens the gate. */
  lemma DepositAndPass(h: History, s: State) returns (h': History, s': State)
    requires EndsIn(h, s) && At(s, RunLoop).Gate? && At(s, Caller(0)) == Svc(Deposit, Returned)
    ensures EndsIn(h', s') && Continues(h, h') && s'.threads.Keys == s.threads.Keys
    ensures h'.events == h.events + [OnService(Caller(0), DepositToken), OnLoop(GatePass)]
  {
    h', s' := Extend(h, s, OnService(Caller(0), DepositToken));
    h', s' := Extend(h', s', OnLoop(GatePass));
  }

  /** Looking after the crash makes a restart no fresher: one that was called
      before it can look only when the run loop has parked with an empty buffer and
      no caller past its look, and its deposit opens the gate. */
  lemma LateLookOpensGate() returns (h: History, up: nat, crash: nat, park: nat)
    ensures IsRun(h) && up < crash < park && |h.events| == park + 3
    ensures h.states[up] == UpWith(CALLED) && At(UpWith(CALLED), Caller(0)) == Svc(Look, Returned)
    ensures h.events[crash] == OnRelay(Publish)
    ensures At(h.states[park], RunLoop) == Gate(Crashed("crash")) && !h.states[park].retry
    ensures h.states[park].threads.Keys == {RunLoop, Relay, Caller(0)}
    ensures At(h.states[park], Caller(0)) == Svc(Look, Returned) && At(h.states[park], Relay).Absent?
    ensures h.events[park] == OnService(Caller(0), LookDaemon)
    ensures h.events[park + 1] == OnService(Caller(0), DepositToken) && h.events[park + 2] == OnLoop(GatePass)
  {
    var parked, s;
    parked, s, up, crash := ParkBesideCaller(CALLED);
    park := |parked.events|;
    h := LookAndPass(parked, s);
  }

  /** A caller about to look finds no daemon, deposits and opens the gate. */
  lemma LookAndPass(h: History, s: State) returns (h': History)
    requires EndsIn(h, s) && At(s, RunLoop).Gate? && s.daemon.None? && At(s, Caller(0)) == Svc(Look, Returned)
    ensures IsRun(h') && Continues(h, h')
    ensures h'.events == h.events + [OnService(Caller(0), LookDaemon), OnService(Caller(0), DepositToken),
                                     OnLoop(GatePass)]
  {
    var looked, s' := Extend(h, s, OnService(Caller(0), LookDaemon));
    h', s' := DepositAndPass(looked, s');
  }

  lemma ParkBesideCaller(caller: Pc) returns (h: History, s: State, up: nat, crash: nat)
    requires caller == LOOKED || caller == CALLED
    ensures EndsIn(h, s) && up < crash < |h.events| && !s.retry && s.daemon.None?
    ensures h.states[up] == UpWith(caller) && h.events[crash] == OnRelay(Publish)
    ensures s.threads == UpWith(caller).threads[Relay := Absent][RunLoop := Gate(Crashed("crash"))]
  {
    var hit, s0;
    hit, s0, up, crash := CrashBesideCaller(caller);
    h, s := ParkCrashed(hit, s0);
  }

  lemma CrashBesideCaller(caller: Pc) returns (h: History, s: State, up: nat, crash: nat)
    requires caller == LOOKED || caller == CALLED
    ensures EndsIn(h, s) && up < crash < |h.events|
    ensures h.states[up] == UpWith(caller) && h.events[crash] == OnRelay(Publish)
    ensures s == UpWith(caller).(log := CRASH_LOG, threads := s.threads)
    ensures s.threads == UpWith(caller).threads[Relay := In(EnterStop, 0, Listen(0))]
  {
    var start := ReachUp(caller);
    up, crash := |start.events|, |start.events| + 2;
    h, s := PublishCrash(start, UpWith(caller));
  }

  /** After the crash the daemon is stopped and exits, and the run loop parks. */
  lemma ParkCrashed(h: History, s: State) returns (h': History, s': State)
    requires EndsIn(h, s) && s.daemons == [DM] && |s.ics| == 1 && s.log == CRASH_LOG
    requires At(s, RunLoop) == WAITING && At(s, Relay) == In(EnterStop, 0, Listen(0))
    ensures EndsIn(h', s') && Continues(h, h') && s'.retry == s.retry && s'.daemon.None?
    ensures s'.threads == s.threads[Relay := Absent][RunLoop := Gate(Crashed("crash"))]
  {
    var mid, s1 := ExitIt(h, s);
    h', s' := ParkIt(mid, s1);
  }

  /** The crashed daemon's relay is joined and the run loop parks. */
  lemma ParkIt(h: History, s: State) returns (h': History, s': State)
    requires EndsIn(h, s) && |s.daemons| == 1 && s.daemons[0].closed && s.daemons[0].mu.None?
    requires At(s, RunLoop) == Join(0) && At(s, Relay) == Listen(0) && s.log == CRASH_LOG
    ensures EndsIn(h', s') && Continues(h, h') && s'.retry == s.retry && s'.daemon.None?
    ensures s'.threads == s.threads[RunLoop := Gate(Crashed("crash"))][Relay := Absent]
  {
    var joined, s1 := JoinIt(h, s);
    h', s' := CrashClears(joined, s1);
  }

  lemma CrashClears(h: History, s: State) returns (h': History, s': State)
    requires EndsIn(h, s) && At(s, RunLoop) == Clear(0, Some("crash"))
    ensures EndsIn(h', s') && Continues(h, h') && s'.retry == s.retry && s'.daemon.None?
    ensures s'.threads == s.threads[RunLoop := Gate(Crashed("crash"))]
  {
    h', s' := Extend(h, s, OnLoop(ClearPointers(Some("crash"))));
  }

  /** A restart requested after a crash was published, but before the run loop
      has cleared the crashed daemon, finds it registered, stops it and leaves no
      token: the restart returns and the gate stays shut. */
  lemma RestartOfCrashedDaemonIsLost() returns (h: History, s: State, crash: nat, look: nat)
    ensures EndsIn(h, s) && At(s, RunLoop) == Gate(Crashed("crash")) && !s.retry
    ensures crash < look < |h.events|
    ensures h.events[crash] == OnRelay(Publish) && h.events[look] == OnService(Caller(1), LookDaemon)
    ensures At(s, Caller(1)).Returned?
  {
    var start, s0;
    start, crash, look, s0 := LookAtCrashed();
    var mid, s1 := ExitIt(start, s0);
    var late, s2 := CallerStops(mid, s1);
    h, s := ParkIt(late, s2);
  }

  lemma LookAtCrashed() returns (h: History, crash: nat, look: nat, s: State)
    ensures EndsIn(h, s) && crash < look < |h.events|
    ensures h.events[crash] == OnRelay(Publish) && h.events[look] == OnService(Caller(1), LookDaemon)
    ensures s == UP.(daemon := None, client := None, log := CRASH_LOG, threads := s.threads)
    ensures s.threads == UP.threads[Relay := In(EnterStop, 0, Listen(0))][Caller(1) := In(EnterStop, 0, Returned)]
  {
    h := ReachUp(LOOKED);
    crash, look := |h.events| + 2, |h.events| + 4;
    h, s := PublishCrash(h, UP);
    h, s := LookAfterCrash(h, s);
  }

  lemma LookAfterCrash(h: History, s: State) returns (h': History, s': State)
    requires EndsIn(h, s) && s.daemon == Some(0) && At(s, Caller(1)).Absent?
    ensures EndsIn(h', s') && h'.events == h.events + [OnCall(1, Arrive(DoRestart)), OnService(Caller(1), LookDaemon)]
    ensures s' == s.(daemon := None, client := None, threads := s'.threads)
    ensures s'.threads == s.threads[Caller(1) := In(EnterStop, 0, Returned)]
  {
    h', s' := Extend(h, s, OnCall(1, Arrive(DoRestart)));
    h', s' := Extend(h', s', OnService(Caller(1), LookDaemon));
  }

  lemma CallerStops(h: History, s: State) returns (h': History, s': State)
    requires EndsIn(h, s) && |s.daemons| == 1 && s.daemons[0].closed && s.daemons[0].mu.None?
    requires At(s, Caller(1)) == In(EnterStop, 0, Returned)
    ensures EndsIn(h', s') && Continues(h, h')
    ensures s' == s.(threads := s.threads[Caller(1) := Returned])
  {
    h', s' := Extend(h, s, OnDaemon(Caller(1), StopNoop));
  }

  /** NoInterceptorLeak needs the live context. When the context ends while the
      daemon dies by itself, the run loop can mark the daemon closed before the
      relay stops it; nobody then requests the interceptor's shutdown. */
  lemma InterceptorLeaksAfterCancel() returns (h: History, s: State)
    ensures EndsIn(h, s) && At(s, RunLoop).Exited?
    ensures |s.ics| == 1 && s.ics[0].owner == RunLoop && !s.ics[0].requested
  {
    h := ReachUp(LOOKED);
    h, s := DieAfterCancel(h);
    h, s := JoinIt(h, s);
    h, s := ClearAndLeave(h, s);
  }

  lemma ClearAndLeave(h: History, s: State) returns (h': History, s': State)
    requires EndsIn(h, s) && At(s, RunLoop).Clear? && At(s, RunLoop).crash.None? && !s.live
    ensures EndsIn(h', s') && At(s', RunLoop).Exited? && s'.ics == s.ics
  {
    h', s' := Extend(h, s, OnLoop(ClearPointers(None)));
    h', s' := LeaveLoop(h', s');
  }

  lemma DieAfterCancel(h: History) returns (h': History, s': State)
    requires EndsIn(h, UP)
    ensures EndsIn(h', s')
    ensures s' == UP.(live := false, daemons := [DM.(exec := false, closed := true)], threads := s'.threads)
    ensures s'.threads == UP.threads[RunLoop := Join(0)]
  {
    h', s' := Extend(h, UP, OnEnv(ParentCancel));
    h', s' := Extend(h', s', OnEnv(ExecExit(0)));
    h', s' := Extend(h', s', OnDaemon(RunLoop, SawCancel));
    h', s' := Extend(h', s', OnDaemon(RunLoop, Drained));
    h', s' := Extend(h', s', OnDaemon(RunLoop, SetClosed));
    assert s'.daemons == [DM.(exec := false, closed := true)];
  }

  lemma LeaveLoop(h: History, s: State) returns (h': History, s': State)
    requires EndsIn(h, s) && At(s, RunLoop).Head? && !s.live && s.daemon.None?
    ensures EndsIn(h', s') && At(s', RunLoop).Exited? && s'.ics == s.ics
  {
    h', s' := Extend(h, s, OnLoop(Quit));
    h', s' := Extend(h', s', OnService(RunLoop, ClaimDaemon));
  }
}
