/** How the supervision of a stopped daemon ends: with another attempt, or at the
    retry gate. */
module StoppedSupervision {
  import opened Wrappers
  import opened Updates
  import opened Lifecycle
  import opened LifecycleInvariant

  /** The crash a supervision is bound to end with once its daemon is stopping:
      one the relay has captured, or the one it has checked and not yet
      published. */
  function Destined(s: State): Option<Error> {
    if s.log.crash.Some? then s.log.crash
    else
      match At(s, Relay)
      case Checked(_, u) => if IsCrash(u) then u.err else None
      case _ => None
  }

  /** Daemon d is supervised and stop has been called on it. */
  predicate Stopping(s: State, d: nat) {
    Scope(At(s, RunLoop)) == Some(d) && d < |s.daemons| && s.daemons[d].stopping
  }

  lemma DestinedStep(s: State, e: Event, s': State, d: nat)
    requires Inv(s) && Steps(s, e, s') && Stopping(s, d)
    ensures e == OnLoop(JoinRelay) ==> At(s', RunLoop) == Clear(d, Destined(s))
    ensures e != OnLoop(JoinRelay) ==> Stopping(s', d) && Destined(s') == Destined(s)
  {
    StepMeans(s, e, s');
    StepLater(s, e, s');
    match e
    case OnDaemon(t, ev) => DestinedOnDaemon(s, t, ev, s');
    case OnService(t, ev) => DestinedOnService(s, t, ev, s');
    case OnLoop(ev) => DestinedOnLoop(s, ev, s', d);
    case OnRelay(ev) => DestinedOnRelay(s, ev, s', d);
    case OnCall(id, ev) => CallShape(s, id, ev, s'); CallLog(s, id, ev, s');
    case OnEnv(ev) => EnvShape(s, ev, s');
  }

  lemma DestinedOnDaemon(s: State, t: Tid, ev: DaemonEv, s': State)
    requires Inv(s) && DaemonStep(s, t, ev) == Some(s')
    ensures Scope(At(s', RunLoop)) == Scope(At(s, RunLoop)) && Destined(s') == Destined(s)
  {
    DaemonScope(s, t, ev, s');
    SameLog(s, t, ev, s');
    if t == Relay { Continuation(s, t); } else { DaemonOthers(s, t, ev, s', Relay); }
  }

  lemma DestinedOnService(s: State, t: Tid, ev: ServiceEv, s': State)
    requires ThreadsOk(s) && ServiceStep(s, t, ev) == Some(s')
    ensures Scope(At(s', RunLoop)) == Scope(At(s, RunLoop)) && Destined(s') == Destined(s)
  {
  }

  lemma DestinedOnLoop(s: State, ev: LoopEv, s': State, d: nat)
    requires ThreadsOk(s) && LoopStep(s, ev) == Some(s') && Scope(At(s, RunLoop)) == Some(d)
    ensures ev.JoinRelay? ==> At(s', RunLoop) == Clear(d, Destined(s))
    ensures !ev.JoinRelay? ==> Scope(At(s', RunLoop)) == Some(d) && Destined(s') == Destined(s)
  {
  }

  lemma DestinedOnRelay(s: State, ev: RelayEv, s': State, d: nat)
    requires ThreadsOk(s) && RelayOk(s) && RelayStep(s, ev) == Some(s') && Stopping(s, d)
    ensures Scope(At(s', RunLoop)) == Some(d) && Destined(s') == Destined(s)
  {
    RelayOthers(s, ev, s', RunLoop);
  }

  /** The supervision of d, bound to end with crash, is under way or cleared. */
  predicate Bound(s: State, d: nat, crash: Option<Error>) {
    (Stopping(s, d) && Destined(s) == crash) || At(s, RunLoop) == Clear(d, crash)
  }

  /** The end of superviseDaemon. */
  predicate EndsSupervision(e: Event) {
    e.OnLoop? && e.lev.ClearPointers?
  }

  lemma BoundStep(s: State, e: Event, s': State, d: nat, crash: Option<Error>)
    requires Inv(s) && Steps(s, e, s') && Bound(s, d, crash)
    ensures !EndsSupervision(e) ==> Bound(s', d, crash)
    ensures EndsSupervision(e) ==> At(s', RunLoop) == if crash.None? then Head else Gate(Crashed(crash.value))
  {
    if Stopping(s, d) {
      DestinedStep(s, e, s', d);
      if e.OnLoop? {
        StepMeans(s, e, s');
        ScopeNotCleared(s, e.lev, s');
      }
    } else {
      ClearedWaits(s, e, s');
    }
  }

  lemma ScopeNotCleared(s: State, ev: LoopEv, s': State)
    requires LoopStep(s, ev) == Some(s') && Scope(At(s, RunLoop)).Some?
    ensures !ev.ClearPointers?
  {
  }

  lemma ClearedWaits(s: State, e: Event, s': State)
    requires Steps(s, e, s') && At(s, RunLoop).Clear?
    ensures !EndsSupervision(e) ==> At(s', RunLoop) == At(s, RunLoop)
    ensures EndsSupervision(e) ==>
              At(s', RunLoop) == var c := At(s, RunLoop).crash; if c.None? then Head else Gate(Crashed(c.value))
  {
    if Mover(e) != RunLoop {
      Others(s, e, s', RunLoop);
    } else {
      StepMeans(s, e, s');
    }
  }

  lemma {:induction false} BoundUntil(h: History, i: nat, n: nat, d: nat, crash: Option<Error>)
    requires IsRun(h) && i <= n <= |h.events| && Bound(h.states[i], d, crash)
    requires forall x :: i <= x < n ==> !EndsSupervision(h.events[x])
    ensures Bound(h.states[n], d, crash)
    decreases n
  {
    if i < n {
      BoundUntil(h, i, n - 1, d, crash);
      StepOf(h, n - 1);
      BoundStep(h.states[n - 1], h.events[n - 1], h.states[n], d, crash);
    }
  }

  /** From the moment the daemon under supervision is stopping, it is settled how
      the supervision ends: at the loop's head, where the next attempt begins by
      itself, exactly when no crash has been captured or checked by then, and
      otherwise at the retry gate with that crash. */
  lemma StoppedEndsIff(h: History, i: nat, j: nat, d: nat)
    requires IsRun(h) && i <= j < |h.events| && Stopping(h.states[i], d)
    requires EndsSupervision(h.events[j]) && forall x :: i <= x < j ==> !EndsSupervision(h.events[x])
    ensures var crash := Destined(h.states[i]);
            && (At(h.states[j + 1], RunLoop).Head? <==> crash.None?)
            && (crash.Some? ==> At(h.states[j + 1], RunLoop) == Gate(Crashed(crash.value)))
  {
    var crash := Destined(h.states[i]);
    BoundUntil(h, i, j, d, crash);
    StepOf(h, j);
    BoundStep(h.states[j], h.events[j], h.states[j + 1], d, crash);
  }

  // ------------------------------------------------------- stops and restarts

  /** Thread t's call of stop finds daemon d open and begins to stop it at step i. */
  predicate Stops(h: History, i: nat, t: Tid, d: nat)
    requires i < |h.events| <= |h.states|
  {
    h.events[i] == OnDaemon(t, StopBegin) && At(h.states[i], t).In? && At(h.states[i], t).d == d
  }

  lemma StopHits(h: History, i: nat, t: Tid, d: nat)
    requires IsRun(h) && i < |h.events| && Stops(h, i, t, d)
    requires d < |h.states[i].daemons| && h.states[i].daemons[d].supervised
    ensures Stopping(h.states[i + 1], d) && Destined(h.states[i + 1]) == Destined(h.states[i])
  {
    StepOf(h, i);
    StopStep(h.states[i], t, h.states[i + 1]);
  }

  lemma StopStep(s: State, t: Tid, s': State)
    requires Inv(s) && DaemonStep(s, t, StopBegin) == Some(s') && s.daemons[At(s, t).d].supervised
    ensures Stopping(s', At(s, t).d) && Destined(s') == Destined(s)
  {
    assert DaemonOk(s, At(s, t).d);
    DestinedOnDaemon(s, t, StopBegin, s');
  }

  /** What can be checked before stop is called on a supervised daemon: the
      supervision leads to an automatic attempt if and only if the relay has
      neither captured a crash nor checked one it is about to publish. */
  lemma StopSettles(h: History, i: nat, j: nat, t: Tid, d: nat)
    requires IsRun(h) && i < j < |h.events| && Stops(h, i, t, d)
    requires d < |h.states[i].daemons| && h.states[i].daemons[d].supervised
    requires EndsSupervision(h.events[j]) && forall x :: i <= x < j ==> !EndsSupervision(h.events[x])
    ensures var crash := Destined(h.states[i]);
            && (At(h.states[j + 1], RunLoop).Head? <==> crash.None?)
            && (crash.Some? ==> At(h.states[j + 1], RunLoop) == Gate(Crashed(crash.value)))
  {
    StopHits(h, i, t, d);
    StoppedEndsIff(h, i + 1, j, d);
  }

  lemma TrackedStep(s: State, e: Event, s': State, d: nat)
    requires Inv(s) && Steps(s, e, s') && Tracked(At(s, RunLoop)) == Some(d) && !EndsSupervision(e)
    ensures Tracked(At(s', RunLoop)) == Some(d)
  {
    StepMeans(s, e, s');
    match e
    case OnDaemon(t, ev) =>
      Continuation(s, t);
      TrackedInDaemon(s, t, ev, s');
    case OnLoop(ev) => TrackedInLoop(s, ev, s');
    case _ => TrackedElsewhere(s, e, s');
  }

  lemma TrackedInDaemon(s: State, t: Tid, ev: DaemonEv, s': State)
    requires DaemonStep(s, t, ev) == Some(s') && RunShape(s, At(s, RunLoop)) && Tracked(At(s, RunLoop)).Some?
    ensures Tracked(At(s', RunLoop)) == Tracked(At(s, RunLoop))
  {
    if t != RunLoop { DaemonOthers(s, t, ev, s', RunLoop); }
  }

  lemma TrackedInLoop(s: State, ev: LoopEv, s': State)
    requires LoopStep(s, ev) == Some(s') && Tracked(At(s, RunLoop)).Some? && !ev.ClearPointers?
    ensures Tracked(At(s', RunLoop)) == Tracked(At(s, RunLoop))
  {
  }

  lemma TrackedElsewhere(s: State, e: Event, s': State)
    requires Inv(s) && Steps(s, e, s') && Tracked(At(s, RunLoop)).Some?
    requires e.OnService? || e.OnRelay? || e.OnCall? || e.OnEnv?
    ensures At(s', RunLoop) == At(s, RunLoop)
  {
    StepMeans(s, e, s');
    match e
    case OnService(t, ev) => RunNotInService(s, t, ev, s');
    case OnRelay(ev) => RelayOthers(s, ev, s', RunLoop);
    case OnCall(id, ev) => CallOthers(s, id, ev, s', RunLoop);
    case OnEnv(ev) => EnvShape(s, ev, s');
  }

  lemma RunNotInService(s: State, t: Tid, ev: ServiceEv, s': State)
    requires ServiceStep(s, t, ev) == Some(s') && Tracked(At(s, RunLoop)).Some?
    ensures At(s', RunLoop) == At(s, RunLoop)
  {
  }

  lemma {:induction false} TrackedUntil(h: History, l: nat, n: nat, d: nat)
    requires IsRun(h) && l <= n <= |h.events| && Tracked(At(h.states[l], RunLoop)) == Some(d)
    requires forall x :: l <= x < n ==> !EndsSupervision(h.events[x])
    ensures Tracked(At(h.states[n], RunLoop)) == Some(d)
    decreases n
  {
    if l < n {
      TrackedUntil(h, l, n - 1, d);
      StepOf(h, n - 1);
      TrackedStep(h.states[n - 1], h.events[n - 1], h.states[n], d);
    }
  }

  lemma TrackedIsBound(s: State, d: nat)
    requires Inv(s) && Tracked(At(s, RunLoop)) == Some(d) && d < |s.daemons| && s.daemons[d].stopping
    ensures Bound(s, d, Destined(s))
  {
  }

  /** A restart that took daemon d at step l, and any position n, before the end of
      that supervision, at which the daemon is stopping, whether the restart, the
      relay or another caller stopped it. The restart leads to an attempt by itself
      if and only if no crash was captured or checked at n; otherwise the loop parks
      at the gate with that crash, and the restart has left no token for it. */
  lemma RestartBouncesIff(h: History, l: nat, n: nat, j: nat, t: Tid, d: nat)
    requires IsRun(h) && l <= n <= j < |h.events|
    requires h.events[l] == OnService(t, LookDaemon) && h.states[l].daemon == Some(d)
    requires d < |h.states[n].daemons| && h.states[n].daemons[d].stopping
    requires EndsSupervision(h.events[j]) && forall x :: l <= x < j ==> !EndsSupervision(h.events[x])
    ensures var crash := Destined(h.states[n]);
            && (At(h.states[j + 1], RunLoop).Head? <==> crash.None?)
            && (crash.Some? ==> At(h.states[j + 1], RunLoop) == Gate(Crashed(crash.value)))
  {
    var crash := Destined(h.states[n]);
    RunKeepsInv(h, l);
    TrackedUntil(h, l, n, d);
    RunKeepsInv(h, n);
    TrackedIsBound(h.states[n], d);
    BoundUntil(h, n, j, d, crash);
    StepOf(h, j);
    BoundStep(h.states[j], h.events[j], h.states[j + 1], d, crash);
  }
}

/** Exactly which interceptors the run loop leaves without a shutdown request. */
module InterceptorLeak {
  import opened Wrappers
  import opened Lifecycle
  import opened LifecycleInvariant

  /** The daemons whose natural exit some waitForShutdown has seen in the first n
      steps, leaving its first phase by that branch. */
  function Reaps(h: History, n: nat): set<nat>
    requires n <= |h.events| <= |h.states|
  {
    if n == 0 then {} else Reaps(h, n - 1) + ReapedBy(h.states[n - 1], h.events[n - 1])
  }

  function ReapedBy(s: State, e: Event): set<nat> {
    if e.OnDaemon? && e.dev.Reaped? && At(s, e.t).In? then {At(s, e.t).d} else {}
  }

  /** The run loop will still see to daemon d. */
  predicate SeesTo(pc: Pc, d: nat) {
    match pc
    case Launch(x) => x == d
    case Spawn(x) => x == d
    case Register(x) => x == d
    case In(_, x, _) => x == d
    case _ => false
  }

  /** ... or needs to no more. */
  predicate StillSeen(s: State, d: nat)
    requires IsDaemon(s, d)
  {
    s.daemons[d].closed || s.ics[s.daemons[d].ic].requested || SeesTo(At(s, RunLoop), d)
  }

  predicate DaemonTrack(s: State, d: nat, reaped: bool)
    requires IsDaemon(s, d)
  {
    var x := s.daemons[d];
    && (s.ics[x.ic].requested ==> x.cancelled || reaped)
    && (reaped ==> s.ics[x.ic].requested)
    && (x.mu.Some? ==> !x.closed)
    && StillSeen(s, d)
    && At(s, RunLoop) != Build(x.ic)
  }

  ghost predicate IcTrack(s: State, i: nat)
    requires i < |s.ics|
  {
    s.ics[i].requested || At(s, RunLoop) == Build(i) || exists d :: Uses(s, d, i)
  }

  predicate Uses(s: State, d: nat, i: nat) {
    d < |s.daemons| && s.daemons[d].ic == i
  }

  ghost predicate Track(s: State, reaped: set<nat>) {
    && (forall d :: d in reaped ==> d < |s.daemons|)
    && (forall d :: 0 <= d < |s.daemons| ==> IsDaemon(s, d) && DaemonTrack(s, d, d in reaped))
    && (forall d, d' :: 0 <= d < d' < |s.daemons| ==> s.daemons[d].ic != s.daemons[d'].ic)
    && (forall i :: 0 <= i < |s.ics| && s.ics[i].owner.RunLoop? ==> IcTrack(s, i))
    && BuildTrack(s)
  }

  /** The interceptor the run loop builds a daemon with is still in use. */
  predicate BuildTrack(s: State) {
    At(s, RunLoop).Build? ==> At(s, RunLoop).ic < |s.ics| && !s.ics[At(s, RunLoop).ic].requested
  }

  // ------------------------------------------------------------ every step

  /** What a step that is not part of stop or waitForShutdown and makes no daemon
      may do to an interceptor. */
  predicate SameUse(s: State, s': State) {
    && |s'.daemons| == |s.daemons| && |s.ics| <= |s'.ics|
    && (forall d :: 0 <= d < |s.daemons| ==>
          s'.daemons[d].(exec := s.daemons[d].exec, supervised := s.daemons[d].supervised) == s.daemons[d])
    && (forall i :: 0 <= i < |s.ics| ==> s'.ics[i].owner == s.ics[i].owner)
    && (forall i :: 0 <= i < |s.ics| && s.ics[i].owner.RunLoop? ==> (s.ics[i].requested ==> s'.ics[i].requested))
    && (forall d :: 0 <= d < |s.daemons| && s.daemons[d].ic < |s.ics| ==>
          s'.ics[s.daemons[d].ic].requested == s.ics[s.daemons[d].ic].requested)
  }

  lemma TrackKept(s: State, s': State, reaped: set<nat>)
    requires Track(s, reaped) && SameUse(s, s')
    requires forall d: nat :: SeesTo(At(s, RunLoop), d) ==> SeesTo(At(s', RunLoop), d)
    requires At(s, RunLoop).Build? ==> At(s', RunLoop) == At(s, RunLoop)
                                       || (At(s, RunLoop).ic < |s'.ics| && s'.ics[At(s, RunLoop).ic].requested)
    requires At(s', RunLoop).Build? ==> At(s', RunLoop) == At(s, RunLoop) || At(s', RunLoop).ic == |s.ics|
    requires BuildTrack(s')
    requires forall i :: |s.ics| <= i < |s'.ics| && s'.ics[i].owner.RunLoop? ==> At(s', RunLoop) == Build(i)
    ensures Track(s', reaped)
  {
    forall i | 0 <= i < |s'.ics| && s'.ics[i].owner.RunLoop? ensures IcTrack(s', i) {
      if i < |s.ics| {
        assert IcTrack(s, i);
        if d :| Uses(s, d, i) {
          assert Uses(s', d, i);
        }
      }
    }
    forall d | 0 <= d < |s'.daemons| ensures IsDaemon(s', d) && DaemonTrack(s', d, d in reaped) {
      assert IsDaemon(s, d) && DaemonTrack(s, d, d in reaped);
    }
  }

  lemma TrackStep(s: State, e: Event, s': State, reaped: set<nat>)
    requires Inv(s) && Steps(s, e, s') && Track(s, reaped)
    ensures Track(s', reaped + ReapedBy(s, e))
  {
    StepMeans(s, e, s');
    match e
    case OnDaemon(t, ev) => TrackOnDaemon(s, t, ev, s', reaped);
    case OnService(t, ev) => TrackOnService(s, t, ev, s', reaped);
    case OnLoop(ev) => TrackOnLoop(s, ev, s', reaped);
    case OnRelay(ev) => TrackOnRelay(s, ev, s', reaped);
    case OnCall(id, ev) => TrackOnCall(s, id, ev, s', reaped);
    case OnEnv(ev) => TrackOnEnv(s, ev, s', reaped);
    assert !e.OnDaemon? ==> reaped + ReapedBy(s, e) == reaped;
  }

  lemma TrackOnService(s: State, t: Tid, ev: ServiceEv, s': State, reaped: set<nat>)
    requires Inv(s) && ServiceStep(s, t, ev) == Some(s') && Track(s, reaped)
    ensures Track(s', reaped)
  {
    RunInService(s, t, ev, s');
    TrackKept(s, s', reaped);
  }

  lemma RunInService(s: State, t: Tid, ev: ServiceEv, s': State)
    requires PointersOk(s) && RunShape(s, At(s, RunLoop)) && ServiceStep(s, t, ev) == Some(s')
    ensures s'.daemons == s.daemons && s'.ics == s.ics
    ensures At(s', RunLoop) == At(s, RunLoop) || (At(s, RunLoop).Svc? && At(s', RunLoop) == Exited)
  {
  }

  lemma TrackOnRelay(s: State, ev: RelayEv, s': State, reaped: set<nat>)
    requires RelayStep(s, ev) == Some(s') && Track(s, reaped)
    ensures Track(s', reaped)
  {
    RelayOthers(s, ev, s', RunLoop);
    RelayLocks(s, ev, s');
    RelayIcs(s, ev, s');
    TrackKept(s, s', reaped);
  }

  lemma TrackOnEnv(s: State, ev: EnvEv, s': State, reaped: set<nat>)
    requires EnvStep(s, ev) == Some(s') && Track(s, reaped)
    ensures Track(s', reaped)
  {
    EnvShape(s, ev, s');
    TrackKept(s, s', reaped);
  }

  lemma TrackOnCall(s: State, id: nat, ev: CallEv, s': State, reaped: set<nat>)
    requires Inv(s) && CallStep(s, id, ev) == Some(s') && Track(s, reaped)
    ensures Track(s', reaped)
  {
    CallShape(s, id, ev, s');
    CallLocks(s, id, ev, s');
    CallerRequests(s, id, ev, s');
    CallerUse(s, s', reaped);
    TrackKept(s, s', reaped);
  }

  lemma CallerUse(s: State, s': State, reaped: set<nat>)
    requires Track(s, reaped) && s'.daemons == s.daemons && |s.ics| <= |s'.ics|
    requires forall i :: 0 <= i < |s.ics| ==> s'.ics[i].owner == s.ics[i].owner
    requires forall i :: 0 <= i < |s.ics| && s.ics[i].owner.RunLoop? ==> s'.ics[i] == s.ics[i]
    ensures SameUse(s, s')
  {
    forall d | 0 <= d < |s.daemons|
      ensures s.daemons[d].ic < |s.ics| && s'.ics[s.daemons[d].ic] == s.ics[s.daemons[d].ic]
    {
      assert IsDaemon(s, d);
    }
  }

  /** Callers acquire for themselves and request only what they acquired. */
  lemma CallerRequests(s: State, id: nat, ev: CallEv, s': State)
    requires ThreadsOk(s) && CallStep(s, id, ev) == Some(s')
    ensures |s.ics| <= |s'.ics|
    ensures forall i :: 0 <= i < |s.ics| ==> s'.ics[i].owner == s.ics[i].owner
    ensures forall i :: 0 <= i < |s.ics| && s.ics[i].owner.RunLoop? ==> s'.ics[i] == s.ics[i]
    ensures forall i :: |s.ics| <= i < |s'.ics| ==> s'.ics[i].owner.Caller?
  {
    assert CallerShape(s, At(s, Caller(id)));
  }

  lemma TrackOnLoop(s: State, ev: LoopEv, s': State, reaped: set<nat>)
    requires Inv(s) && LoopStep(s, ev) == Some(s') && Track(s, reaped)
    ensures Track(s', reaped)
  {
    if ev.BuildOk? {
      DaemonBuilt(s, s', reaped);
    } else {
      assert Fact(s, At(s, RunLoop));
      LoopUse(s, ev, s', reaped);
      LoopSees(s, ev, s');
      BuildKept(s, ev, s');
      TrackKept(s, s', reaped);
    }
  }

  lemma BuildKept(s: State, ev: LoopEv, s': State)
    requires LoopStep(s, ev) == Some(s')
    ensures BuildTrack(s')
  {
  }

  lemma LoopUse(s: State, ev: LoopEv, s': State, reaped: set<nat>)
    requires Track(s, reaped) && LoopStep(s, ev) == Some(s') && !ev.BuildOk?
    ensures SameUse(s, s')
    ensures forall i :: |s.ics| <= i < |s'.ics| ==> At(s', RunLoop) == Build(i)
    ensures At(s, RunLoop).Build? ==> s'.ics[At(s, RunLoop).ic].requested || !ev.BuildFail?
  {
    LoopDaemonsKept(s, ev, s');
    LoopIcsKept(s, ev, s');
    forall d | 0 <= d < |s.daemons|
      ensures s.daemons[d].ic < |s.ics| && s'.ics[s.daemons[d].ic] == s.ics[s.daemons[d].ic]
    {
      assert IsDaemon(s, d) && DaemonTrack(s, d, d in reaped);
    }
  }

  lemma LoopDaemonsKept(s: State, ev: LoopEv, s': State)
    requires LoopStep(s, ev) == Some(s') && !ev.BuildOk?
    ensures |s'.daemons| == |s.daemons|
    ensures forall d :: 0 <= d < |s.daemons| ==> s'.daemons[d].(supervised := s.daemons[d].supervised) == s.daemons[d]
  {
  }

  lemma LoopIcsKept(s: State, ev: LoopEv, s': State)
    requires LoopStep(s, ev) == Some(s') && BuildTrack(s)
    ensures |s.ics| <= |s'.ics|
    ensures forall i :: |s.ics| <= i < |s'.ics| ==> At(s', RunLoop) == Build(i)
    ensures forall i :: 0 <= i < |s.ics| && At(s, RunLoop) != Build(i) ==> s'.ics[i] == s.ics[i]
    ensures forall i :: 0 <= i < |s.ics| ==> s'.ics[i].owner == s.ics[i].owner
    ensures forall i :: 0 <= i < |s.ics| ==> (s.ics[i].requested ==> s'.ics[i].requested)
    ensures At(s, RunLoop).Build? && ev.BuildFail? ==> s'.ics[At(s, RunLoop).ic].requested
  {
  }

  lemma LoopSees(s: State, ev: LoopEv, s': State)
    requires LoopStep(s, ev) == Some(s') && !ev.BuildOk?
    ensures forall d: nat :: SeesTo(At(s, RunLoop), d) ==> SeesTo(At(s', RunLoop), d)
    ensures At(s, RunLoop).Build? ==> ev.BuildFail?
    ensures At(s', RunLoop).Build? ==> At(s', RunLoop).ic == |s.ics|
  {
  }

  lemma DaemonBuilt(s: State, s': State, reaped: set<nat>)
    requires RunShape(s, At(s, RunLoop)) && LoopStep(s, BuildOk) == Some(s') && Track(s, reaped)
    ensures Track(s', reaped)
  {
    var i := At(s, RunLoop).ic;
    assert Uses(s', |s.daemons|, i);
    forall d | 0 <= d < |s.daemons| ensures IsDaemon(s', d) && DaemonTrack(s', d, d in reaped) && s.daemons[d].ic != i {
      assert IsDaemon(s, d) && DaemonTrack(s, d, d in reaped);
    }
    forall j | 0 <= j < |s'.ics| && s'.ics[j].owner.RunLoop? ensures IcTrack(s', j) {
      assert IcTrack(s, j);
      if d :| Uses(s, d, j) {
        assert Uses(s', d, j);
      }
    }
  }

  lemma TrackOnDaemon(s: State, t: Tid, ev: DaemonEv, s': State, reaped: set<nat>)
    requires Inv(s) && DaemonStep(s, t, ev) == Some(s') && Track(s, reaped)
    ensures Track(s', reaped + ReapedBy(s, OnDaemon(t, ev)))
  {
    var own := At(s, t).d;
    var reaped' := reaped + ReapedBy(s, OnDaemon(t, ev));
    assert DaemonOk(s, own) && Fact(s, At(s, t)) && DaemonTrack(s, own, own in reaped);
    OneMoves(s, t, ev, s');
    RunStays(s, t, ev, s');
    OwnFlags(s, t, ev, s');
    OwnTrack(s, s', own, own in reaped, ev.Reaped?);
    TrackOthers(s, s', own, reaped, reaped');
  }

  /** The other daemons and interceptors, when only those of `own` change. */
  lemma TrackOthers(s: State, s': State, own: nat, reaped: set<nat>, reaped': set<nat>)
    requires Track(s, reaped) && IsDaemon(s, own) && reaped <= reaped' <= reaped + {own}
    requires |s'.daemons| == |s.daemons| && |s'.ics| == |s.ics| && s'.daemons[own].ic == s.daemons[own].ic
    requires forall d :: 0 <= d < |s.daemons| && d != own ==> s'.daemons[d] == s.daemons[d]
    requires forall i :: 0 <= i < |s.ics| ==> s'.ics[i].owner == s.ics[i].owner
    requires forall i :: 0 <= i < |s.ics| ==> (s.ics[i].requested ==> s'.ics[i].requested)
    requires forall i :: 0 <= i < |s.ics| && i != s.daemons[own].ic ==> s'.ics[i] == s.ics[i]
    requires At(s, RunLoop).Build? || At(s', RunLoop).Build? ==> At(s', RunLoop) == At(s, RunLoop)
    requires forall d: nat :: SeesTo(At(s, RunLoop), d) ==> SeesTo(At(s', RunLoop), d) || d == own
    requires IsDaemon(s', own) && DaemonTrack(s', own, own in reaped')
    ensures Track(s', reaped')
  {
    assert IsDaemon(s, own) && DaemonTrack(s, own, own in reaped);
    forall d | 0 <= d < |s'.daemons| ensures IsDaemon(s', d) && DaemonTrack(s', d, d in reaped') {
      if d != own {
        assert IsDaemon(s, d) && DaemonTrack(s, d, d in reaped);
        assert s.daemons[d].ic != s.daemons[own].ic;
      }
    }
    UsesKept(s, s', reaped);
  }

  lemma UsesKept(s: State, s': State, reaped: set<nat>)
    requires Track(s, reaped) && |s'.daemons| == |s.daemons| && |s'.ics| == |s.ics|
    requires forall d :: 0 <= d < |s.daemons| ==> s'.daemons[d].ic == s.daemons[d].ic
    requires forall i :: 0 <= i < |s.ics| ==> s'.ics[i].owner == s.ics[i].owner
    requires forall i :: 0 <= i < |s.ics| ==> (s.ics[i].requested ==> s'.ics[i].requested)
    requires At(s, RunLoop).Build? ==> At(s', RunLoop) == At(s, RunLoop)
    ensures forall i :: 0 <= i < |s'.ics| && s'.ics[i].owner.RunLoop? ==> IcTrack(s', i)
  {
    forall i | 0 <= i < |s'.ics| && s'.ics[i].owner.RunLoop? ensures IcTrack(s', i) {
      assert IcTrack(s, i);
      if d :| Uses(s, d, i) {
        assert Uses(s', d, i);
      }
    }
  }

  /** A step of stop or waitForShutdown touches one daemon and its interceptor. */
  lemma OneMoves(s: State, t: Tid, ev: DaemonEv, s': State)
    requires DaemonStep(s, t, ev) == Some(s') && IsDaemon(s, At(s, t).d)
    ensures At(s, t).In? && |s'.daemons| == |s.daemons| && |s'.ics| == |s.ics|
    ensures forall d :: 0 <= d < |s.daemons| && d != At(s, t).d ==> s'.daemons[d] == s.daemons[d]
    ensures IsDaemon(s', At(s, t).d) && s'.daemons[At(s, t).d].ic == s.daemons[At(s, t).d].ic
    ensures forall i :: 0 <= i < |s.ics| ==> s'.ics[i].owner == s.ics[i].owner
    ensures forall i :: 0 <= i < |s.ics| ==> (s.ics[i].requested ==> s'.ics[i].requested)
    ensures forall i :: 0 <= i < |s.ics| && i != s.daemons[At(s, t).d].ic ==> s'.ics[i] == s.ics[i]
  {
  }

  /** The run loop gives up on a daemon only when it is closed or its interceptor's
      shutdown has been requested. */
  lemma RunStays(s: State, t: Tid, ev: DaemonEv, s': State)
    requires DaemonStep(s, t, ev) == Some(s') && RunShape(s, At(s, RunLoop)) && At(s, t).In?
    requires IsDaemon(s, At(s, t).d) && IsDaemon(s', At(s, t).d)
    ensures At(s, RunLoop).Build? || At(s', RunLoop).Build? ==> At(s', RunLoop) == At(s, RunLoop)
    ensures forall d: nat :: SeesTo(At(s, RunLoop), d) ==> SeesTo(At(s', RunLoop), d) || d == At(s, t).d
    ensures SeesTo(At(s, RunLoop), At(s, t).d) ==> StillSeen(s', At(s, t).d)
  {
    if t != RunLoop { DaemonOthers(s, t, ev, s', RunLoop); }
  }

  /** The daemon whose flags turn stays tracked. */
  lemma OwnTrack(s: State, s': State, d: nat, reaped: bool, reaping: bool)
    requires IsDaemon(s, d) && IsDaemon(s', d) && DaemonTrack(s, d, reaped)
    requires var x, y := s.daemons[d], s'.daemons[d];
             Turns(x, s.ics[x.ic].requested, y, s'.ics[y.ic].requested, reaping)
    requires At(s, RunLoop).Build? || At(s', RunLoop).Build? ==> At(s', RunLoop) == At(s, RunLoop)
    requires SeesTo(At(s, RunLoop), d) ==> StillSeen(s', d)
    ensures DaemonTrack(s', d, reaped || reaping)
  {
  }

  /** How a step of stop or waitForShutdown turns the flags of a daemon and of its
      interceptor. */
  predicate Turns(x: Daemon, requested: bool, y: Daemon, requested': bool, reaping: bool) {
    && y.ic == x.ic && (x.closed ==> y.closed) && (x.cancelled ==> y.cancelled) && (requested ==> requested')
    && (requested' ==> requested || y.cancelled || reaping)
    && (reaping ==> requested')
    && ((x.mu.Some? ==> !x.closed) ==> (y.mu.Some? ==> !y.closed))
  }

  lemma OwnFlags(s: State, t: Tid, ev: DaemonEv, s': State)
    requires DaemonStep(s, t, ev) == Some(s') && IsDaemon(s, At(s, t).d) && IsDaemon(s', At(s, t).d)
    requires At(s, t).point.Teardown? ==> s.daemons[At(s, t).d].cancelled
    ensures var x, y := s.daemons[At(s, t).d], s'.daemons[At(s, t).d];
            Turns(x, s.ics[x.ic].requested, y, s'.ics[y.ic].requested, ev.Reaped?)
  {
    if ev.StopNoop? || ev.StopBegin? || ev.StopEnd? {
      StopFlags(s, t, ev, s');
    } else {
      WaitFlags(s, t, ev, s');
    }
  }

  lemma StopFlags(s: State, t: Tid, ev: DaemonEv, s': State)
    requires DaemonStep(s, t, ev) == Some(s') && IsDaemon(s, At(s, t).d) && IsDaemon(s', At(s, t).d)
    requires At(s, t).point.Teardown? ==> s.daemons[At(s, t).d].cancelled
    requires ev.StopNoop? || ev.StopBegin? || ev.StopEnd?
    ensures var x, y := s.daemons[At(s, t).d], s'.daemons[At(s, t).d];
            Turns(x, s.ics[x.ic].requested, y, s'.ics[y.ic].requested, false)
  {
  }

  lemma WaitFlags(s: State, t: Tid, ev: DaemonEv, s': State)
    requires DaemonStep(s, t, ev) == Some(s') && IsDaemon(s, At(s, t).d) && IsDaemon(s', At(s, t).d)
    requires !ev.StopNoop? && !ev.StopBegin? && !ev.StopEnd?
    ensures var x, y := s.daemons[At(s, t).d], s'.daemons[At(s, t).d];
            Turns(x, s.ics[x.ic].requested, y, s'.ics[y.ic].requested, ev.Reaped?)
  {
  }

  lemma {:induction false} RunKeepsTrack(h: History, n: nat)
    requires IsRun(h) && n <= |h.events|
    ensures Track(h.states[n], Reaps(h, n))
  {
    if n == 0 {
      TrackInit();
    } else {
      RunKeepsTrack(h, n - 1);
      TrackAt(h, n - 1, Reaps(h, n - 1));
    }
  }

  lemma TrackAt(h: History, i: nat, reaped: set<nat>)
    requires IsRun(h) && i < |h.events| && Track(h.states[i], reaped)
    ensures Track(h.states[i + 1], reaped + ReapedBy(h.states[i], h.events[i]))
  {
    StepOf(h, i);
    TrackStep(h.states[i], h.events[i], h.states[i + 1], reaped);
  }

  lemma TrackInit()
    ensures Track(INIT, {})
  {
  }

  /** Between attempts and after the last one, an interceptor the run loop acquired
      has not been asked to shut down exactly when its daemon is closed, stop never
      took effect on it, and nobody waiting for it saw its natural exit: every
      waitForShutdown left its first phase because the context had ended. In
      particular the context has ended then. */
  lemma LeakedIff(h: History, n: nat, i: nat)
    requires IsRun(h) && n <= |h.events| && i < |h.states[n].ics| && h.states[n].ics[i].owner == RunLoop
    requires var pc := At(h.states[n], RunLoop); pc.Head? || pc.Gate? || pc.Exited?
    ensures !h.states[n].ics[i].requested <==>
            exists d: nat :: Uses(h.states[n], d, i) && h.states[n].daemons[d].closed
                             && !h.states[n].daemons[d].cancelled && d !in Reaps(h, n)
    ensures !h.states[n].ics[i].requested ==> !h.states[n].live
  {
    var s, reaped := h.states[n], Reaps(h, n);
    RunKeepsInv(h, n);
    RunKeepsTrack(h, n);
    assert IcOk(s, i) && IcTrack(s, i);
    if !s.ics[i].requested {
      var d: nat :| Uses(s, d, i);
      assert DaemonOk(s, d) && DaemonTrack(s, d, d in reaped);
    }
    forall d: nat | Uses(s, d, i) && s.daemons[d].closed && !s.daemons[d].cancelled && d !in reaped
      ensures !s.ics[i].requested
    {
      assert DaemonTrack(s, d, d in reaped);
    }
  }
}
