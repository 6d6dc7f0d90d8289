/**
 Starting and stopping sync pollers (daemon/client.go, pollSyncStatus and
 stopSyncPolling) as a transition system over any number of goroutines that call
 either. The client's three fields are guarded by one mutex, so a critical
 section is one step; the pollers' own work happens between them.

 A poller run is named by the order in which runs were started, and its stop and
 done channels by the same number.
 */
module Pollers {
  import opened Wrappers

  /** Where a poller is: in its select, handling a tick, about to run its deferred
      cleanup, about to close its done channel, finished. */
  datatype RunPc = Looping | Ticking | Leaving | Cleared | Finished

  /** A poller run; the counters say how often each of its channels was closed. */
  datatype Run = Run(pc: RunPc, stopClosed: nat, doneClosed: nat)

  /** A call of stopSyncPolling; it waits for the done channel of the run it found. */
  datatype Stopper = Waiting(run: nat) | Returned(found: Option<nat>)

  datatype State = State(
    active: bool, stop: Option<nat>, done: Option<nat>,
    runs: seq<Run>, stoppers: seq<Stopper>)

  const INIT := State(false, None, None, [], [])

  datatype Event =
    | Start                       // pollSyncStatus takes the mutex
    | Tick(r: nat)                // the select takes the ticker
    | Ignore(r: nat)              // a failed tick that is not a stall
    | Submit(r: nat, last: bool)  // a tick submits an update; the last one ends the run
    | Leave(r: nat)               // the select sees the stop channel closed or the context done
    | Clear(r: nat)               // the cleanup resets the fields
    | CloseDone(r: nat)           // the cleanup closes the done channel
    | StopCall                    // stopSyncPolling takes the mutex
    | StopReturn(k: nat)          // ... and returns once the done channel is closed

  predicate At(s: State, r: nat, pc: RunPc) {
    r < |s.runs| && s.runs[r].pc == pc
  }

  function Move(s: State, r: nat, pc: RunPc): State
    requires r < |s.runs|
  {
    s.(runs := s.runs[r := s.runs[r].(pc := pc)])
  }

  function Next(s: State, e: Event): Option<State> {
    match e
    case Start =>
      if s.active then Some(s)
      else
        var r := |s.runs|;
        Some(s.(active := true, stop := Some(r), done := Some(r), runs := s.runs + [Run(Looping, 0, 0)]))
    case Tick(r) => if At(s, r, Looping) then Some(Move(s, r, Ticking)) else None
    case Ignore(r) => if At(s, r, Ticking) then Some(Move(s, r, Looping)) else None
    case Submit(r, last) =>
      if At(s, r, Ticking) then Some(Move(s, r, if last then Leaving else Looping)) else None
    case Leave(r) => if At(s, r, Looping) then Some(Move(s, r, Leaving)) else None
    case Clear(r) =>
      if At(s, r, Leaving) then Some(Move(s, r, Cleared).(active := false, stop := None, done := None)) else None
    case CloseDone(r) =>
      if At(s, r, Cleared)
      then Some(s.(runs := s.runs[r := s.runs[r].(pc := Finished, doneClosed := s.runs[r].doneClosed + 1)]))
      else None
    case StopCall =>
      if s.active && s.stop.Some? && s.stop.value < |s.runs|
      then
        var r := s.stop.value;
        Some(s.(stop := None,
                runs := s.runs[r := s.runs[r].(stopClosed := s.runs[r].stopClosed + 1)],
                stoppers := s.stoppers + [if s.done.Some? then Waiting(s.done.value) else Returned(None)]))
      else Some(s.(stoppers := s.stoppers + [Returned(None)]))
    case StopReturn(k) =>
      if k < |s.stoppers| && s.stoppers[k].Waiting? && s.stoppers[k].run < |s.runs|
         && s.runs[s.stoppers[k].run].doneClosed > 0
      then Some(s.(stoppers := s.stoppers[k := Returned(Some(s.stoppers[k].run))]))
      else None
  }

  /** Events, and the states before, between and after them. */
  datatype History = History(events: seq<Event>, states: seq<State>)

  predicate StepAt(h: History, i: nat)
    requires i < |h.events| && |h.states| == |h.events| + 1
  {
    Next(h.states[i], h.events[i]) == Some(h.states[i + 1])
  }

  /** A possible run from the initial state. */
  predicate IsRun(h: History) {
    && |h.states| == |h.events| + 1 && h.states[0] == INIT
    && forall i :: 0 <= i < |h.events| ==> StepAt(h, i)
  }

  ghost predicate Reachable(s: State) {
    exists h :: IsRun(h) && h.states[|h.events|] == s
  }

  // ------------------------------------------------------------- invariant

  predicate Live(x: Run) {
    x.pc.Looping? || x.pc.Ticking? || x.pc.Leaving?
  }

  /** The fields always describe the newest run or nothing: while it is live they
      are its own, and a stop request is what resets `stop` and closes its stop
      channel; every older run has let go of them. */
  ghost predicate FieldsOk(s: State) {
    && (s.active <==> s.runs != [] && Live(s.runs[|s.runs| - 1]))
    && (s.active ==> s.done == Some(|s.runs| - 1)
                     && s.stop == (if s.runs[|s.runs| - 1].stopClosed == 0 then Some(|s.runs| - 1) else None))
    && (!s.active ==> s.stop.None? && s.done.None?)
  }

  ghost predicate RunsOk(s: State) {
    && (forall r :: 0 <= r < |s.runs| - 1 ==> !Live(s.runs[r]))
    && (forall r :: 0 <= r < |s.runs| ==> RunOk(s.runs[r]))
  }

  predicate RunOk(x: Run) {
    x.stopClosed <= 1 && x.doneClosed == if x.pc.Finished? then 1 else 0
  }

  ghost predicate StoppersOk(s: State) {
    forall k :: 0 <= k < |s.stoppers| ==> StopperOk(s, s.stoppers[k])
  }

  predicate StopperOk(s: State, x: Stopper) {
    match x
    case Waiting(r) => r < |s.runs| && s.runs[r].stopClosed == 1
    case Returned(found) => found.Some? ==> found.value < |s.runs| && s.runs[found.value].pc.Finished?
  }

  ghost predicate Inv(s: State) {
    FieldsOk(s) && RunsOk(s) && StoppersOk(s)
  }

  lemma FieldsStep(s: State, e: Event, s': State)
    requires FieldsOk(s) && RunsOk(s) && Next(s, e) == Some(s')
    ensures FieldsOk(s')
  {
  }

  lemma RunsStep(s: State, e: Event, s': State)
    requires FieldsOk(s) && RunsOk(s) && Next(s, e) == Some(s')
    ensures RunsOk(s')
  {
  }

  lemma StoppersStep(s: State, e: Event, s': State)
    requires Inv(s) && Next(s, e) == Some(s') && RunsOk(s')
    ensures StoppersOk(s')
  {
    RunsGrow(s, e, s');
    forall k | 0 <= k < |s'.stoppers| ensures StopperOk(s', s'.stoppers[k]) {
      if k < |s.stoppers| {
        assert StopperOk(s, s.stoppers[k]);
      }
    }
  }

  lemma RunsGrow(s: State, e: Event, s': State)
    requires Next(s, e) == Some(s')
    ensures |s.runs| <= |s'.runs|
    ensures forall r :: 0 <= r < |s.runs| ==>
              s.runs[r].stopClosed <= s'.runs[r].stopClosed && (s.runs[r].pc.Finished? ==> s'.runs[r].pc.Finished?)
  {
  }

  lemma InvStep(s: State, e: Event, s': State)
    requires Inv(s) && Next(s, e) == Some(s')
    ensures Inv(s')
  {
    FieldsStep(s, e, s');
    RunsStep(s, e, s');
    StoppersStep(s, e, s');
  }

  lemma {:induction false} RunKeepsInv(h: History, n: nat)
    requires IsRun(h) && n <= |h.events|
    ensures Inv(h.states[n])
  {
    if n > 0 {
      RunKeepsInv(h, n - 1);
      assert StepAt(h, n - 1);
      InvStep(h.states[n - 1], h.events[n - 1], h.states[n]);
    }
  }

  lemma Reached(s: State)
    requires Reachable(s)
    ensures Inv(s)
  {
    var h :| IsRun(h) && h.states[|h.events|] == s;
    RunKeepsInv(h, |h.events|);
  }

  // -------------------------------------------------------------- theorems

  /** At most one poller is active. */
  lemma OneActivePoller(s: State, p: nat, q: nat)
    requires Reachable(s) && p < |s.runs| && q < |s.runs| && Live(s.runs[p]) && Live(s.runs[q])
    ensures p == q && s.active
  {
    Reached(s);
    LiveIsNewest(s, p);
    LiveIsNewest(s, q);
  }

  lemma LiveIsNewest(s: State, p: nat)
    requires FieldsOk(s) && RunsOk(s) && p < |s.runs| && Live(s.runs[p])
    ensures p == |s.runs| - 1 && s.active
  {
  }

  /** Both channels of a run are closed at most once, and the done channel only
      when the run has finished. */
  lemma ChannelsClosedOnce(s: State, r: nat)
    requires Reachable(s) && r < |s.runs|
    ensures s.runs[r].stopClosed <= 1 && s.runs[r].doneClosed <= 1
    ensures s.runs[r].doneClosed == 1 <==> s.runs[r].pc.Finished?
  {
    Reached(s);
  }

  /** An exiting poller resets only its own registration, never a successor's. */
  lemma ClearsOnlyItself(s: State, r: nat)
    requires Reachable(s) && Next(s, Clear(r)).Some?
    ensures s.done == Some(r) && (s.stop == Some(r) || s.stop.None?) && r == |s.runs| - 1
  {
    Reached(s);
  }

  /** A stop request reaches the poller that is running, and asks it only once. */
  lemma StopReachesActive(s: State, s': State)
    requires Reachable(s) && Next(s, StopCall) == Some(s') && s.stop.Some?
    ensures s.runs != [] && Live(s.runs[|s.runs| - 1])
    ensures s'.stoppers[|s'.stoppers| - 1] == Waiting(|s.runs| - 1)
    ensures s.runs[|s.runs| - 1].stopClosed == 0 && s'.runs[|s.runs| - 1].stopClosed == 1
  {
    Reached(s);
  }

  lemma {:induction false} FinishedStays(h: History, i: nat, j: nat, r: nat)
    requires IsRun(h) && i <= j <= |h.events| && At(h.states[i], r, Finished)
    ensures At(h.states[j], r, Finished)
    decreases j
  {
    if i < j {
      FinishedStays(h, i, j - 1, r);
      assert StepAt(h, j - 1);
      FinishedStep(h.states[j - 1], h.events[j - 1], h.states[j], r);
    }
  }

  lemma FinishedStep(s: State, e: Event, s': State, r: nat)
    requires Next(s, e) == Some(s') && At(s, r, Finished)
    ensures At(s', r, Finished)
  {
  }

  /** Once a stopSyncPolling that found a poller has returned, that poller has
      submitted its last update: it submits none in any later step of the run. */
  lemma StoppedPollerIsSilent(h: History, i: nat, k: nat, r: nat, j: nat)
    requires IsRun(h) && i <= j < |h.events|
    requires k < |h.states[i].stoppers| && h.states[i].stoppers[k] == Returned(Some(r))
    ensures h.events[j].Submit? ==> h.events[j].r != r
  {
    RunKeepsInv(h, i);
    assert StopperOk(h.states[i], h.states[i].stoppers[k]);
    FinishedStays(h, i, j, r);
    assert StepAt(h, j);
    FinishedSubmitsNot(h.states[j], h.events[j], r);
  }

  lemma FinishedSubmitsNot(s: State, e: Event, r: nat)
    requires At(s, r, Finished) && Next(s, e).Some?
    ensures e.Submit? ==> e.r != r
  {
  }

  lemma Extend(h: History, e: Event, s': State) returns (h': History)
    requires IsRun(h) && Next(h.states[|h.events|], e) == Some(s')
    ensures IsRun(h') && h'.events == h.events + [e] && h'.states == h.states + [s']
  {
    h' := History(h.events + [e], h.states + [s']);
    forall i | 0 <= i < |h'.events| ensures StepAt(h', i) {
      assert i < |h.events| ==> StepAt(h, i);
    }
  }

  lemma OneElement<T>(x: T, y: T)
    ensures [x][0 := y] == [y] && [] + [y] == [y]
  {
  }

  /** With one poller and at most one call of stopSyncPolling. */
  function One(active: bool, stop: Option<nat>, done: Option<nat>, run: Run, stoppers: seq<Stopper>): State {
    State(active, stop, done, [run], stoppers)
  }

  lemma PollerSubmits() returns (h: History)
    ensures IsRun(h) && h.events == [Start, Tick(0), Submit(0, false)]
    ensures h.states[3] == One(true, Some(0), Some(0), Run(Looping, 0, 0), [])
  {
    var looping, ticking := Run(Looping, 0, 0), Run(Ticking, 0, 0);
    OneElement(looping, looping);
    OneElement(looping, ticking);
    OneElement(ticking, looping);
    h := History([], [INIT]);
    h := Extend(h, Start, One(true, Some(0), Some(0), Run(Looping, 0, 0), []));
    h := Extend(h, Tick(0), One(true, Some(0), Some(0), Run(Ticking, 0, 0), []));
    h := Extend(h, Submit(0, false), One(true, Some(0), Some(0), Run(Looping, 0, 0), []));
  }

  lemma StoppedPollerLeaves() returns (h: History)
    ensures IsRun(h) && h.events == [Start, Tick(0), Submit(0, false), StopCall, Leave(0), Clear(0)]
    ensures h.states[6] == One(false, None, None, Run(Cleared, 1, 0), [Waiting(0)])
  {
    h := PollerSubmits();
    OneElement(Run(Looping, 0, 0), Run(Looping, 1, 0));
    OneElement(Waiting(0), Waiting(0));
    OneElement(Run(Looping, 1, 0), Run(Leaving, 1, 0));
    OneElement(Run(Leaving, 1, 0), Run(Cleared, 1, 0));
    h := Extend(h, StopCall, One(true, None, Some(0), Run(Looping, 1, 0), [Waiting(0)]));
    h := Extend(h, Leave(0), One(true, None, Some(0), Run(Leaving, 1, 0), [Waiting(0)]));
    h := Extend(h, Clear(0), One(false, None, None, Run(Cleared, 1, 0), [Waiting(0)]));
  }

  /** A run in which a poller starts, submits, is stopped and is waited for. */
  lemma PollerSubmitsAndStops() returns (h: History)
    ensures IsRun(h)
    ensures h.events == [Start, Tick(0), Submit(0, false), StopCall, Leave(0), Clear(0), CloseDone(0), StopReturn(0)]
    ensures h.states[8].stoppers == [Returned(Some(0))] && !h.states[8].active
  {
    h := StoppedPollerLeaves();
    OneElement(Run(Cleared, 1, 0), Run(Finished, 1, 1));
    OneElement(Waiting(0), Returned(Some(0)));
    h := Extend(h, CloseDone(0), One(false, None, None, Run(Finished, 1, 1), [Waiting(0)]));
    h := Extend(h, StopReturn(0), One(false, None, None, Run(Finished, 1, 1), [Returned(Some(0))]));
  }
}
