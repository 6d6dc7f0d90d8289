/**
 Stall detection (daemon/client.go, syncProgressTracker) and the loop of
 pollSyncStatus that uses it.

 Time is a number that never decreases. A probe reads the clock twice, once
 where the code may take an anchor and once where it measures against it.
 */
module SyncTracker {
  import opened Wrappers

  type Time = int

  /** One call of record or recordFailure, with its two clock readings. */
  datatype Probe =
    | Answer(ts: int, t1: Time, t2: Time)
    | Failure(t1: Time, t2: Time)

  /** The latest timestamp answered before probe i; 0 before any answer. */
  function SeenTs(ps: seq<Probe>, i: nat): int
    requires i <= |ps|
  {
    if i == 0 then 0
    else if ps[i - 1].Answer? then ps[i - 1].ts
    else SeenTs(ps, i - 1)
  }

  /** Probe i answered a timestamp other than the one seen before it. */
  predicate IsProgress(ps: seq<Probe>, i: nat)
    requires i < |ps|
  {
    ps[i].Answer? && ps[i].ts != SeenTs(ps, i)
  }

  /** The probe that stall is measured from: the latest progress, or the first
      probe when there has been none. */
  predicate IsAnchor(ps: seq<Probe>, a: nat) {
    && a < |ps|
    && (IsProgress(ps, a) || a == 0)
    && forall j :: a < j < |ps| ==> !IsProgress(ps, j)
  }

  lemma AnchorUnique(ps: seq<Probe>, a: nat, b: nat)
    requires IsAnchor(ps, a) && IsAnchor(ps, b)
    ensures a == b
  {
  }

  lemma {:induction false} SeenTsPrefix(ps: seq<Probe>, p: Probe, i: nat)
    requires i <= |ps|
    ensures SeenTs(ps + [p], i) == SeenTs(ps, i)
  {
    if i > 0 {
      SeenTsPrefix(ps, p, i - 1);
    }
  }

  lemma ProgressPrefix(ps: seq<Probe>, p: Probe)
    ensures forall j :: 0 <= j < |ps| ==> (IsProgress(ps + [p], j) <==> IsProgress(ps, j))
    ensures IsProgress(ps + [p], |ps|) <==> p.Answer? && p.ts != SeenTs(ps, |ps|)
    ensures SeenTs(ps + [p], |ps| + 1) == if p.Answer? then p.ts else SeenTs(ps, |ps|)
  {
    forall j | 0 <= j <= |ps| ensures SeenTs(ps + [p], j) == SeenTs(ps, j) {
      SeenTsPrefix(ps, p, j);
    }
  }

  /** The tracker; `probes` records its calls, `anchor` the probe its lastAt
      comes from. */
  class SyncProgressTracker {
    const timeout: int
    var lastTs: int
    var lastAt: Option<Time>
    ghost var probes: seq<Probe>
    ghost var anchor: nat

    ghost predicate Valid()
      reads this
    {
      && lastTs == SeenTs(probes, |probes|)
      && (lastAt.None? <==> probes == [])
      && (probes != [] ==> IsAnchor(probes, anchor) && lastAt == Some(probes[anchor].t1))
    }

    constructor (timeout: int)
      ensures Valid() && probes == [] && this.timeout == timeout
    {
      this.timeout := timeout;
      lastTs, lastAt, probes, anchor := 0, None, [], 0;
    }

    /** Reports a stall exactly when more than the timeout has passed since the
        anchor, this probe included. */
    method Record(bestTs: int, t1: Time, t2: Time) returns (stuck: bool)
      requires Valid()
      modifies this
      ensures Valid() && probes == old(probes) + [Answer(bestTs, t1, t2)]
      ensures stuck <==> t2 - probes[anchor].t1 > timeout
    {
      ProgressPrefix(probes, Answer(bestTs, t1, t2));
      if bestTs != lastTs {
        lastTs := bestTs;
        lastAt := Some(t1);
        anchor := |probes|;
      } else if lastAt.None? {
        lastAt := Some(t1);
        anchor := |probes|;
      }
      probes := probes + [Answer(bestTs, t1, t2)];
      stuck := lastAt.Some? && t2 - lastAt.value > timeout;
    }

    method RecordFailure(t1: Time, t2: Time) returns (stuck: bool)
      requires Valid()
      modifies this
      ensures Valid() && probes == old(probes) + [Failure(t1, t2)]
      ensures stuck <==> t2 - probes[anchor].t1 > timeout
    {
      ProgressPrefix(probes, Failure(t1, t2));
      if lastAt.None? {
        lastAt := Some(t1);
        anchor := |probes|;
      }
      probes := probes + [Failure(t1, t2)];
      stuck := t2 - lastAt.value > timeout;
    }
  }

  // ------------------------------------------------- what the rule means

  /** The verdict of the last probe of a sequence. */
  ghost predicate Stuck(ps: seq<Probe>, timeout: int) {
    exists a: nat :: IsAnchor(ps, a) && ps[|ps| - 1].t2 - ps[a].t1 > timeout
  }

  lemma {:induction false} AnchorExists(ps: seq<Probe>) returns (a: nat)
    requires ps != []
    ensures IsAnchor(ps, a)
  {
    a := |ps| - 1;
    while a > 0 && !IsProgress(ps, a)
      invariant 0 <= a < |ps| && forall j :: a < j < |ps| ==> !IsProgress(ps, j)
    {
      a := a - 1;
    }
  }

  lemma AnchorKept(ps: seq<Probe>, p: Probe, a: nat)
    requires IsAnchor(ps, a) && (p.Failure? || p.ts == SeenTs(ps, |ps|))
    ensures IsAnchor(ps + [p], a) && (ps + [p])[a] == ps[a]
  {
    ProgressPrefix(ps, p);
  }

  /** Failures and stale answers never postpone a stall: once stuck, a tracker
      that sees no progress stays stuck, as long as the clock does not go back. */
  lemma NoProgressStaysStuck(ps: seq<Probe>, p: Probe, timeout: int)
    requires ps != [] && Stuck(ps, timeout) && ps[|ps| - 1].t2 <= p.t2
    requires p.Failure? || p.ts == SeenTs(ps, |ps|)
    ensures Stuck(ps + [p], timeout)
  {
    var a: nat :| IsAnchor(ps, a) && ps[|ps| - 1].t2 - ps[a].t1 > timeout;
    AnchorKept(ps, p, a);
    StuckIffAnchorOld(ps + [p], a, timeout);
  }

  /** Real progress always postpones it: a probe that makes progress is stuck
      only if more than the timeout passes within that very call. */
  lemma ProgressResets(ps: seq<Probe>, p: Probe, timeout: int)
    requires p.Answer? && p.ts != SeenTs(ps, |ps|)
    ensures Stuck(ps + [p], timeout) <==> p.t2 - p.t1 > timeout
  {
    var qs := ps + [p];
    ProgressPrefix(ps, p);
    assert IsAnchor(qs, |ps|);
    forall a: nat | IsAnchor(qs, a) ensures a == |ps| {
      AnchorUnique(qs, a, |ps|);
    }
  }

  /** A backend that reports no header, timestamp 0, makes no progress by that: the
      stall is measured from the first probe. */
  lemma {:induction false} NoHeaderIsNoProgress(ps: seq<Probe>)
    requires ps != [] && forall i :: 0 <= i < |ps| && ps[i].Answer? ==> ps[i].ts == 0
    ensures IsAnchor(ps, 0)
  {
    forall i: nat | i <= |ps| ensures SeenTs(ps, i) == 0 {
      ZeroSeen(ps, i);
    }
  }

  lemma {:induction false} ZeroSeen(ps: seq<Probe>, i: nat)
    requires i <= |ps| && forall j :: 0 <= j < |ps| && ps[j].Answer? ==> ps[j].ts == 0
    ensures SeenTs(ps, i) == 0
  {
    if i > 0 {
      ZeroSeen(ps, i - 1);
    }
  }

  /** The verdict depends only on the time since the anchor, whatever mix of
      stale answers and failures lies between. */
  lemma StuckIffAnchorOld(ps: seq<Probe>, a: nat, timeout: int)
    requires IsAnchor(ps, a)
    ensures Stuck(ps, timeout) <==> ps[|ps| - 1].t2 - ps[a].t1 > timeout
  {
    forall b: nat | IsAnchor(ps, b) ensures b == a {
      AnchorUnique(ps, a, b);
    }
  }
}

/** The loop of pollSyncStatus, for one poller run. */
module SyncPoll {
  import opened Wrappers
  import opened Updates
  import opened SyncTracker

  /** One turn of the loop's select: the client's context or the poller's stop
      channel, or a tick with what IsSynced returned and the clock readings. */
  datatype Turn =
    | ContextDone
    | StopRequested
    | Failed(err: Error, t1: Time, t2: Time)
    | Polled(synced: bool, recent: bool, ts: int, t1: Time, t2: Time)

  /** The probe a tick makes of the tracker; a synced tick makes none. */
  function ProbeOf(x: Turn): seq<Probe> {
    match x
    case Failed(_, t1, t2) => [Failure(t1, t2)]
    case Polled(synced, recent, ts, t1, t2) => if synced || recent then [] else [Answer(ts, t1, t2)]
    case _ => []
  }

  function Probes(xs: seq<Turn>): seq<Probe> {
    if xs == [] then [] else Probes(xs[..|xs| - 1]) + ProbeOf(xs[|xs| - 1])
  }

  /** Turn i is a tick at which the tracker reports a stall. */
  ghost predicate StallsAt(xs: seq<Turn>, i: nat, timeout: int)
    requires i < |xs|
  {
    ProbeOf(xs[i]) != [] && Stuck(Probes(xs[..i + 1]), timeout)
  }

  predicate IsReady(x: Turn) {
    x.Polled? && (x.synced || x.recent)
  }

  /** Turn i ends the run. */
  ghost predicate Ends(xs: seq<Turn>, i: nat, timeout: int)
    requires i < |xs|
  {
    xs[i].ContextDone? || xs[i].StopRequested? || IsReady(xs[i]) || StallsAt(xs, i, timeout)
  }

  /** None of the first n turns ends the run. */
  ghost predicate GoesOn(xs: seq<Turn>, n: nat, timeout: int)
    requires n <= |xs|
  {
    n == 0 || (GoesOn(xs, n - 1, timeout) && !Ends(xs, n - 1, timeout))
  }

  lemma {:induction false} GoesOnMeans(xs: seq<Turn>, n: nat, timeout: int)
    requires n <= |xs|
    ensures GoesOn(xs, n, timeout) <==> forall i :: 0 <= i < n ==> !Ends(xs, i, timeout)
  {
    if n > 0 {
      GoesOnMeans(xs, n - 1, timeout);
    }
  }

  /** What the run publishes as it ends at turn x. */
  function Terminal(x: Turn): seq<Update> {
    match x
    case Failed(err, _, _) => [Update(Down, Some(err))]
    case Polled(_, _, _, _, _) => if IsReady(x) then [Update(Ready, None)] else [Update(Down, None)]
    case _ => []
  }

  /** How many of the turns are ticks that were answered. */
  function Answered(xs: seq<Turn>): nat {
    if xs == [] then 0
    else Answered(xs[..|xs| - 1]) + if xs[|xs| - 1].Polled? then 1 else 0
  }

  const SYNCING := Update(Syncing, None)

  predicate AllSyncing(us: seq<Update>) {
    forall i :: 0 <= i < |us| ==> us[i] == SYNCING
  }

  /** The outcome of a run over the turns it saw: `ended` is the turn it ended
      at, if it did. One Syncing per answered tick before that, then exactly what
      Terminal says: Ready for a synced or recent tick, Down without error for a
      stall on an answered tick, Down with the tick's error for a stall on a
      failing one, nothing when the context ended or a stop was requested. */
  ghost predicate Outcome(xs: seq<Turn>, timeout: int, ended: Option<nat>, us: seq<Update>) {
    match ended
    case None =>
      && GoesOn(xs, |xs|, timeout)
      && AllSyncing(us) && |us| == Answered(xs)
    case Some(e) =>
      && e < |xs| && Ends(xs, e, timeout)
      && GoesOn(xs, e, timeout)
      && var k := Answered(xs[..e]);
         k <= |us| && AllSyncing(us[..k]) && us[k..] == Terminal(xs[e])
  }

  lemma ProbesAppend(xs: seq<Turn>, i: nat)
    requires i < |xs|
    ensures Probes(xs[..i + 1]) == Probes(xs[..i]) + ProbeOf(xs[i])
    ensures Answered(xs[..i + 1]) == Answered(xs[..i]) + if xs[i].Polled? then 1 else 0
  {
    assert xs[..i + 1][..i] == xs[..i];
  }

  /** A run that published k times Syncing and ends at turn e. */
  lemma Finish(xs: seq<Turn>, timeout: int, e: nat, us: seq<Update>)
    requires e < |xs| && Ends(xs, e, timeout) && GoesOn(xs, e, timeout)
    requires AllSyncing(us) && |us| == Answered(xs[..e])
    ensures Outcome(xs, timeout, Some(e), us + Terminal(xs[e]))
  {
    var all := us + Terminal(xs[e]);
    assert all[..|us|] == us && all[|us|..] == Terminal(xs[e]);
  }

  /** What the tracker reports at tick i decides whether the run ends there. */
  lemma Verdict(xs: seq<Turn>, i: nat, tracker: SyncProgressTracker)
    requires i < |xs| && ProbeOf(xs[i]) != [] && tracker.Valid() && tracker.probes == Probes(xs[..i]) + ProbeOf(xs[i])
    ensures Probes(xs[..i + 1]) == tracker.probes && IsAnchor(tracker.probes, tracker.anchor)
    ensures Ends(xs, i, tracker.timeout) <==>
            tracker.probes[|tracker.probes| - 1].t2 - tracker.probes[tracker.anchor].t1 > tracker.timeout
  {
    ProbesAppend(xs, i);
    StuckIffAnchorOld(tracker.probes, tracker.anchor, tracker.timeout);
  }

  /** One turn: whether the run ends here, and what it publishes. */
  method TakeTurn(xs: seq<Turn>, i: nat, tracker: SyncProgressTracker) returns (over: bool, out: seq<Update>)
    requires i < |xs| && tracker.Valid() && tracker.probes == Probes(xs[..i])
    modifies tracker
    ensures tracker.Valid() && tracker.probes == Probes(xs[..i + 1])
    ensures over <==> Ends(xs, i, tracker.timeout)
    ensures out == if over then Terminal(xs[i]) else if xs[i].Polled? then [SYNCING] else []
  {
    ProbesAppend(xs, i);
    match xs[i]
    case ContextDone => return true, [];
    case StopRequested => return true, [];
    case Failed(err, t1, t2) =>
      over := tracker.RecordFailure(t1, t2);
      Verdict(xs, i, tracker);
      out := if over then [Update(Down, Some(err))] else [];
    case Polled(synced, recent, ts, t1, t2) =>
      if synced || recent {
        return true, [Update(Ready, None)];
      }
      over := tracker.Record(ts, t1, t2);
      Verdict(xs, i, tracker);
      out := if over then [Update(Down, None)] else [SYNCING];
  }

  /** The state of the loop after i turns. */
  ghost predicate Underway(xs: seq<Turn>, timeout: int, i: nat, us: seq<Update>)
    requires i <= |xs|
  {
    GoesOn(xs, i, timeout) && AllSyncing(us) && |us| == Answered(xs[..i])
  }

  lemma TurnTaken(xs: seq<Turn>, timeout: int, i: nat, us: seq<Update>, out: seq<Update>)
    requires i < |xs| && Underway(xs, timeout, i, us) && !Ends(xs, i, timeout)
    requires out == if xs[i].Polled? then [SYNCING] else []
    ensures Underway(xs, timeout, i + 1, us + out)
  {
    ProbesAppend(xs, i);
  }

  /** The loop: run over the turns until one ends it. */
  method Poll(xs: seq<Turn>, timeout: int) returns (ended: Option<nat>, us: seq<Update>)
    ensures Outcome(xs, timeout, ended, us)
  {
    var tracker := new SyncProgressTracker(timeout);
    us := [];
    var i := 0;
    while i < |xs|
      invariant 0 <= i <= |xs| && tracker.timeout == timeout
      invariant fresh(tracker) && tracker.Valid() && tracker.probes == Probes(xs[..i])
      invariant Underway(xs, timeout, i, us)
    {
      var over, out := TakeTurn(xs, i, tracker);
      if over {
        Finish(xs, timeout, i, us);
        return Some(i), us + out;
      }
      TurnTaken(xs, timeout, i, us, out);
      us := us + out;
      i := i + 1;
    }
    assert xs[..i] == xs;
    ended := None;
  }

  /** Which ticks reach the tracker, and as what: a failed one as a failure, one that
      is neither synced nor recent with its timestamp, no other. */
  lemma TicksReachTracker(xs: seq<Turn>, i: nat)
    requires i < |xs|
    ensures var was, now := Probes(xs[..i]), Probes(xs[..i + 1]);
            match xs[i]
            case ContextDone => now == was
            case StopRequested => now == was
            case Failed(_, t1, t2) => now == was + [Failure(t1, t2)]
            case Polled(synced, recent, ts, t1, t2) =>
              now == if synced || recent then was else was + [Answer(ts, t1, t2)]
  {
    ProbesAppend(xs, i);
    assert Probes(xs[..i]) + [] == Probes(xs[..i]);
  }

  /** Answered counts the answered ticks. */
  lemma {:induction false} AnsweredIsCount(xs: seq<Turn>)
    ensures Answered(xs) == |set i | 0 <= i < |xs| && xs[i].Polled?|
  {
    if xs != [] {
      var before, n := xs[..|xs| - 1], |xs| - 1;
      AnsweredIsCount(before);
      var a, b := set i | 0 <= i < |before| && before[i].Polled?, set i | 0 <= i < |xs| && xs[i].Polled?;
      assert b == if xs[n].Polled? then a + {n} else a;
    }
  }

  /** What a run publishes, update by update: Syncing for every answered tick before
      the one it ends at; then nothing after a stop or the end of the context, Down
      with the error of a failing tick, Ready for a synced or recent one, and Down
      without an error for any other. */
  lemma OutcomeMeans(xs: seq<Turn>, timeout: int, ended: Option<nat>, us: seq<Update>)
    requires Outcome(xs, timeout, ended, us)
    ensures var k := Answered(if ended.Some? then xs[..ended.value] else xs);
            && k <= |us| && (forall i :: 0 <= i < k ==> us[i] == Update(Syncing, None))
            && us[k..] == (if ended.None? then []
                           else match xs[ended.value]
                                case ContextDone => []
                                case StopRequested => []
                                case Failed(err, _, _) => [Update(Down, Some(err))]
                                case Polled(synced, recent, _, _, _) =>
                                  [if synced || recent then Update(Ready, None) else Update(Down, None)])
  {
    if ended.Some? {
      var k := Answered(xs[..ended.value]);
      assert forall i :: 0 <= i < k ==> us[i] == us[..k][i];
    }
  }

  /** A backend that never answers stalls like one that answers nothing new: a run of
      failing ticks ends, with the error of the last, when more than the timeout has
      passed since the first. */
  lemma {:induction false} FailuresAloneStall(xs: seq<Turn>, timeout: int)
    requires xs != [] && forall i :: 0 <= i < |xs| ==> xs[i].Failed?
    ensures Ends(xs, |xs| - 1, timeout) <==> xs[|xs| - 1].t2 - xs[0].t1 > timeout
  {
    FailuresAreProbes(xs);
    var ps := Probes(xs);
    assert xs[..|xs| - 1 + 1] == xs;
    assert forall j :: 0 <= j < |ps| ==> !IsProgress(ps, j);
    assert IsAnchor(ps, 0);
    StuckIffAnchorOld(ps, 0, timeout);
  }

  lemma {:induction false} FailuresAreProbes(xs: seq<Turn>)
    requires forall i :: 0 <= i < |xs| ==> xs[i].Failed?
    ensures |Probes(xs)| == |xs|
    ensures forall i :: 0 <= i < |xs| ==> Probes(xs)[i] == Failure(xs[i].t1, xs[i].t2)
  {
    if xs != [] {
      FailuresAreProbes(xs[..|xs| - 1]);
    }
  }

  /** A run publishes at most one update that is not Syncing, and it is the last. */
  lemma AtMostOneTerminal(xs: seq<Turn>, timeout: int, ended: Option<nat>, us: seq<Update>, i: nat)
    requires Outcome(xs, timeout, ended, us)
    requires i < |us| && us[i] != SYNCING
    ensures i == |us| - 1 && ended.Some?
    ensures us[i].state == Ready <==> IsReady(xs[ended.value])
    ensures us[i].state == Down <==> StallsAt(xs, ended.value, timeout)
    ensures us[i].state == Down ==> us[i].err == if xs[ended.value].Failed? then Some(xs[ended.value].err) else None
  {
    var e := ended.value;
    var k := Answered(xs[..e]);
    forall j | 0 <= j < k ensures us[j] == SYNCING {
      assert us[..k][j] == SYNCING;
    }
    assert us[i] == us[k..][i - k];
  }

  /** A Down without an error, which is no crash to the run loop, is published
      exactly when a run stalls on an answered tick. */
  lemma SilentDownIffStaleAnswers(xs: seq<Turn>, timeout: int, ended: Option<nat>, us: seq<Update>)
    requires Outcome(xs, timeout, ended, us)
    ensures Update(Down, None) in us <==>
            ended.Some? && xs[ended.value].Polled? && !IsReady(xs[ended.value])
  {
    if Update(Down, None) in us {
      var i :| 0 <= i < |us| && us[i] == Update(Down, None);
      AtMostOneTerminal(xs, timeout, ended, us, i);
    }
    if ended.Some? {
      var e := ended.value;
      var k := Answered(xs[..e]);
      if xs[e].Polled? && !IsReady(xs[e]) {
        assert us[k] == us[k..][0];
      }
    }
  }
}
