/**
 The critical sections behind the steps of Lifecycle and Pollers, on the objects
 whose fields they update. Each method is shown to do to the fields what the step
 of the same name does to the state, for every state that agrees with them.
 */
module LifecycleSections {
  import opened Wrappers
  import opened Updates
  import opened Lifecycle

  /** flndDaemon (daemon/daemon.go) */
  class FlndDaemon {
    var stopping: bool
    var closed: bool
    var cancelled: bool          // d.cancel was called
    var clientClosed: bool       // d.client.close and d.conn.Close were called
    var shutdownRequested: bool  // d.interceptor.RequestShutdown was called

    constructor ()
      ensures !stopping && !closed && !cancelled && !clientClosed && !shutdownRequested
    {
      stopping, closed, cancelled, clientClosed, shutdownRequested := false, false, false, false, false;
    }

    ghost predicate Agrees(s: State, d: nat)
      reads this
    {
      && d < |s.daemons| && s.daemons[d].ic < |s.ics|
      && s.daemons[d].stopping == stopping && s.daemons[d].closed == closed
      && s.daemons[d].cancelled == cancelled && s.ics[s.daemons[d].ic].requested == shutdownRequested
    }

    /** The answer decides whether the relay suppresses or admits an update. */
    method IsStopping() returns (r: bool)
      ensures r == stopping
      ensures forall s: State, d: nat :: Agrees(s, d) && MayCheck(s, d) ==>
                (r <==> RelayStep(s, Suppress).Some?) && (!r <==> RelayStep(s, Admit).Some?)
    {
      r := stopping;
    }

    /** The whole of stop, under d.mu. */
    method Stop()
      modifies this
      ensures closed == old(closed)
      ensures old(closed) ==> unchanged(this)
      ensures !old(closed) ==> stopping && cancelled && clientClosed && shutdownRequested
      ensures forall s: State, t: Tid, d: nat :: old(Agrees(s, d)) && MayStop(s, t, d) ==>
                StopCall(s, t).Some? && Agrees(StopCall(s, t).value, d)
    {
      if closed {
        return;
      }
      stopping := true;
      clientClosed := true;
      cancelled := true;
      shutdownRequested := true;
    }

    /** The end of waitForShutdown. */
    method SetClosed()
      modifies this`closed
      ensures closed
      ensures forall s: State, t: Tid, d: nat ::
                old(Agrees(s, d)) && At(s, t).In? && At(s, t).d == d && DaemonStep(s, t, DaemonEv.SetClosed).Some? ==>
                Agrees(DaemonStep(s, t, DaemonEv.SetClosed).value, d)
    {
      closed := true;
    }
  }

  /** The relay holds an update of daemon d, and d.mu is free. */
  predicate MayCheck(s: State, d: nat) {
    At(s, Relay).Got? && At(s, Relay).d == d && d < |s.daemons| && s.daemons[d].mu.None?
  }

  /** Thread t is about to lock d.mu in stop, and the lock is free. */
  predicate MayStop(s: State, t: Tid, d: nat) {
    At(s, t).In? && At(s, t).point.EnterStop? && At(s, t).d == d && d < |s.daemons| && s.daemons[d].mu.None?
  }

  /** stop without interference: its two steps, or the one that does nothing. */
  function StopCall(s: State, t: Tid): Option<State> {
    if DaemonStep(s, t, StopNoop).Some? then DaemonStep(s, t, StopNoop)
    else
      match DaemonStep(s, t, StopBegin)
      case None => None
      case Some(s') => DaemonStep(s', t, StopEnd)
  }

  /** The pointers and the retry channel of Service (daemon/service.go); a daemon
      and its client are named by the daemon's number. */
  class Service {
    var client: Option<nat>
    var daemon: Option<nat>
    var retryNow: bool

    constructor ()
      ensures Agrees(INIT)
    {
      client, daemon, retryNow := None, None, false;
    }

    ghost predicate Agrees(s: State)
      reads this
    {
      s.client == client && s.daemon == daemon && s.retry == retryNow
    }

    /** The section of stopDaemon under cmux. */
    method ClaimDaemon() returns (d: Option<nat>)
      modifies this
      ensures d == old(daemon)
      ensures forall s: State, t: Tid :: old(Agrees(s)) && ServiceStep(s, t, ServiceEv.ClaimDaemon).Some? ==>
                Agrees(ServiceStep(s, t, ServiceEv.ClaimDaemon).value)
    {
      d := daemon;
      daemon := None;
      client := None;
    }

    /** The section of RestartWithConfig under cmux. */
    method LookDaemon() returns (d: Option<nat>)
      modifies this
      ensures d == old(daemon)
      ensures forall s: State, t: Tid :: old(Agrees(s)) && ServiceStep(s, t, ServiceEv.LookDaemon).Some? ==>
                Agrees(ServiceStep(s, t, ServiceEv.LookDaemon).value)
    {
      d := daemon;
      client := None;
      daemon := None;
    }

    /** The non-blocking send on retryNow. */
    method DepositToken()
      modifies this`retryNow
      ensures forall s: State, t: Tid :: old(Agrees(s)) && ServiceStep(s, t, ServiceEv.DepositToken).Some? ==>
                Agrees(ServiceStep(s, t, ServiceEv.DepositToken).value)
    {
      if !retryNow {
        retryNow := true;
      }
    }

    method RegisterConnection(d: nat)
      modifies this
      ensures forall s: State :: old(Agrees(s)) && At(s, RunLoop) == Register(d) ==>
                LoopStep(s, RegisterConn).Some? && Agrees(LoopStep(s, RegisterConn).value)
    {
      client := Some(d);
      daemon := Some(d);
      if retryNow {
        retryNow := false;
      }
    }

    /** The end of superviseDaemon. */
    method ClearPointers(ghost crash: Option<Error>)
      modifies this
      ensures forall s: State :: old(Agrees(s)) && LoopStep(s, LoopEv.ClearPointers(crash)).Some? ==>
                Agrees(LoopStep(s, LoopEv.ClearPointers(crash)).value)
    {
      daemon := None;
      client := None;
    }
  }

  // -------------------------------------------------------- the relay's loop

  /** One turn of runHealthRelay's select: its context ended, the health channel
      was closed, or an update arrived. Other threads may stop the daemon or mark it
      closed before the update is checked (`early`) and after that (`late`). */
  datatype Turn = ContextDone | ChannelClosed | Health(u: Update, early: Others, late: Others)
  datatype Others = Others(stopped: bool, markedClosed: bool)

  /** What other threads do to the daemon. */
  method Interfere(d: FlndDaemon, others: Others)
    modifies d
    ensures old(d.stopping) ==> d.stopping
    ensures old(d.closed) ==> d.closed
    ensures old(d.stopping && d.shutdownRequested) ==> d.shutdownRequested
    ensures !others.stopped ==> d.stopping == old(d.stopping)
  {
    if others.stopped {
      d.Stop();
    }
    if others.markedClosed {
      d.SetClosed();
    }
  }

  function Consumed(turns: seq<Turn>): seq<Update> {
    if turns == [] then []
    else Consumed(turns[..|turns| - 1]) + (if turns[|turns| - 1].Health? then [turns[|turns| - 1].u] else [])
  }

  predicate HasDown(us: seq<Update>) {
    exists i :: 0 <= i < |us| && us[i].state == Down
  }

  lemma DownStays(us: seq<Update>, u: Update)
    ensures HasDown(us + [u]) <==> HasDown(us) || u.state == Down
  {
    assert forall i :: 0 <= i < |us| ==> (us + [u])[i] == us[i];
    assert (us + [u])[|us|] == u;
  }

  /** Another thread stopped the daemon during one of the first n turns. */
  predicate StoppedByOthers(turns: seq<Turn>, n: nat)
    requires n <= |turns|
  {
    exists i :: 0 <= i < n && turns[i].Health? && (turns[i].early.stopped || turns[i].late.stopped)
  }

  lemma ConsumedGrows(turns: seq<Turn>, i: nat)
    requires i < |turns|
    ensures Consumed(turns[..i + 1]) == Consumed(turns[..i]) + (if turns[i].Health? then [turns[i].u] else [])
  {
    assert turns[..i + 1][..i] == turns[..i];
  }

  lemma {:induction false} ConsumedPrefix(turns: seq<Turn>, i: nat)
    requires i <= |turns|
    ensures Consumed(turns[..i]) <= Consumed(turns)
    decreases |turns| - i
  {
    if i < |turns| {
      ConsumedGrows(turns, i);
      ConsumedPrefix(turns, i + 1);
    } else {
      assert turns[..i] == turns;
    }
  }

  /** The relay publishes a prefix of what it consumes and returns the error of the
      first crash in it; it publishes everything unless the daemon is stopping, and the
      daemon is stopping only if it was, the context ended, another thread stopped it
      or a Down was published. Unless the daemon was marked closed, the first Down it
      publishes is the last thing it publishes. `n` counts the updates it took. */
  method RunHealthRelay(d: FlndDaemon, turns: seq<Turn>)
    returns (published: seq<Update>, crash: Option<Error>, ghost n: nat)
    modifies d
    ensures n <= |turns| && (n < |turns| ==> !turns[n].Health?) && forall i :: 0 <= i < n ==> turns[i].Health?
    ensures published == Consumed(turns[..n]) || d.stopping
    ensures d.stopping ==>
              || old(d.stopping) || (n < |turns| && turns[n].ContextDone?)
              || StoppedByOthers(turns, n) || HasDown(published)
    ensures published <= Consumed(turns)
    ensures crash == FirstCrash(published)
    ensures old(d.stopping) ==> published == []
    ensures !d.closed ==> forall i :: 0 <= i < |published| - 1 ==> published[i].state != Down
    ensures !d.closed && (exists i :: 0 <= i < |published| && published[i].state == Down) ==>
              d.stopping && d.shutdownRequested
  {
    published, crash, n := [], None, 0;
    for i := 0 to |turns|
      invariant n == i && forall j :: 0 <= j < i ==> turns[j].Health?
      invariant d.stopping ==>
                  old(d.stopping) || StoppedByOthers(turns, i) || HasDown(published)
      invariant published <= Consumed(turns[..i])
      invariant !d.stopping ==> published == Consumed(turns[..i])
      invariant crash == FirstCrash(published)
      invariant old(d.stopping) ==> d.stopping && published == []
      invariant !d.closed ==> forall j :: 0 <= j < |published| - 1 ==> published[j].state != Down
      invariant !d.closed && published != [] && published[|published| - 1].state == Down ==>
                  d.stopping && d.shutdownRequested
    {
      ConsumedGrows(turns, i);
      ConsumedPrefix(turns, i);
      ConsumedPrefix(turns, i + 1);
      match turns[i] {
        case ContextDone =>
          d.Stop();
          return;
        case ChannelClosed =>
          return;
        case Health(u, early, late) =>
          Interfere(d, early);
          var quiet := d.IsStopping();
          Interfere(d, late);
          if !quiet {
            FirstCrashAppend(published, u);
            DownStays(published, u);
            published := published + [u];
            if u.state == Down {
              if crash.None? {
                crash := u.err;
              }
              d.Stop();
            }
          }
          n := n + 1;
      }
    }
    assert turns[..|turns|] == turns;
  }
}

module PollerSections {
  import opened Wrappers
  import opened Pollers

  /** The sync-polling fields of Client (daemon/client.go). */
  class Client {
    var syncPollingActive: bool
    var syncPollingStop: Option<nat>
    var syncPollingDone: Option<nat>
    var runs: seq<Run>
    var stoppers: seq<Stopper>

    ghost function View(): State
      reads this
    {
      State(syncPollingActive, syncPollingStop, syncPollingDone, runs, stoppers)
    }

    constructor ()
      ensures View() == INIT
    {
      syncPollingActive, syncPollingStop, syncPollingDone, runs, stoppers := false, None, None, [], [];
    }

    /** The opening section of pollSyncStatus; None when a poller is active. */
    method BeginPolling() returns (r: Option<nat>)
      modifies this
      ensures Next(old(View()), Start) == Some(View())
      ensures r == if old(syncPollingActive) then None else Some(|old(runs)|)
    {
      if syncPollingActive {
        return None;
      }
      r := Some(|runs|);
      runs := runs + [Run(Looping, 0, 0)];
      syncPollingActive := true;
      syncPollingStop := r;
      syncPollingDone := r;
    }

    /** The section of the deferred cleanup under the mutex. */
    method ClearPolling(r: nat)
      requires At(View(), r, Leaving)
      modifies this
      ensures Next(old(View()), Clear(r)) == Some(View())
    {
      runs := runs[r := runs[r].(pc := Cleared)];
      syncPollingActive := false;
      syncPollingStop := None;
      syncPollingDone := None;
    }

    /** A close of an already closed channel panics; the invariant rules it out. */
    method CloseStop(r: nat)
      requires r < |runs| && runs[r].stopClosed == 0
      modifies this`runs
      ensures runs == old(runs)[r := old(runs)[r].(stopClosed := 1)]
    {
      runs := runs[r := runs[r].(stopClosed := 1)];
    }

    method CloseDoneChannel(r: nat)
      requires At(View(), r, Cleared) && runs[r].doneClosed == 0
      modifies this`runs
      ensures Next(old(View()), CloseDone(r)) == Some(View())
    {
      runs := runs[r := runs[r].(pc := Finished, doneClosed := 1)];
    }

    /** The section of stopSyncPolling under the mutex; the caller then waits for
        the done channel of the run it returns, if any. */
    method StopSyncPolling() returns (found: Option<nat>)
      requires Inv(View())
      modifies this
      ensures Inv(View()) && Next(old(View()), StopCall) == Some(View())
      ensures found.Some? <==> old(syncPollingActive) && old(syncPollingStop).Some?
    {
      ghost var s := View();
      found := None;
      if syncPollingActive && syncPollingStop.Some? {
        var r := syncPollingStop.value;
        assert RunOk(runs[r]);
        CloseStop(r);
        syncPollingStop := None;
        found := syncPollingDone;
      }
      stoppers := stoppers + [if found.Some? then Waiting(found.value) else Returned(None)];
      InvStep(s, StopCall, View());
    }
  }
}
