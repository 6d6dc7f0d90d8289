/**
 The status publisher of daemon/service.go: Subscribe, Unsubscribe,
 notifySubscribers, unsubscribeAll and the registration in WaitForStatus. All of
 them run under subMu, so each is one step; receivers take from their channels
 at any time.

 A channel is named by its position among the channels ever made. Its buffer
 holds at most CAPACITY updates; `got` is what its receiver has taken from it.
 */
module HubSpec {
  import opened Wrappers
  import opened Updates

  const CAPACITY: nat := 5
  const FINAL := Update(Down, None)

  datatype Chan = Chan(buf: seq<Update>, got: seq<Update>, closed: bool)

  /** Everything that was ever sent on a channel. */
  function Sent(c: Chan): seq<Update> {
    c.got + c.buf
  }

  datatype State = State(subs: seq<nat>, last: Update, chans: seq<Chan>)

  const INIT := State([], Update(Status.Init, None), [])

  /** `taken` names the channels with a full buffer whose receiver makes room
      within the time unsubscribeAll waits. */
  datatype Event =
    | Subscribe
    | Watch
    | Unsubscribe(id: nat)
    | Notify(u: Update)
    | UnsubscribeAll(taken: set<nat>)
    | Receive(id: nat)

  function Offer(c: Chan, u: Update): Chan {
    if |c.buf| < CAPACITY then c.(buf := c.buf + [u]) else c
  }

  function Take(c: Chan): Chan {
    if c.buf == [] then c else c.(got := c.got + [c.buf[0]], buf := c.buf[1..])
  }

  function Farewell(c: Chan, taken: bool): Chan {
    Offer(if taken && |c.buf| == CAPACITY then Take(c) else c, FINAL).(closed := true)
  }

  function Remove(subs: seq<nat>, id: nat): seq<nat> {
    if subs == [] then []
    else if subs[0] == id then subs[1..]
    else [subs[0]] + Remove(subs[1..], id)
  }

  function Next(s: State, e: Event): State {
    match e
    case Subscribe => s.(subs := s.subs + [|s.chans|], chans := s.chans + [Chan([s.last], [], false)])
    case Watch => s.(subs := s.subs + [|s.chans|], chans := s.chans + [Chan([], [], false)])
    case Unsubscribe(id) => s.(subs := Remove(s.subs, id))
    case Notify(u) =>
      s.(last := u,
         chans := seq(|s.chans|, i requires 0 <= i < |s.chans| =>
                        if i in s.subs then Offer(s.chans[i], u) else s.chans[i]))
    case UnsubscribeAll(taken) =>
      s.(subs := [],
         chans := seq(|s.chans|, i requires 0 <= i < |s.chans| =>
                        if i in s.subs then Farewell(s.chans[i], i in taken) else s.chans[i]))
    case Receive(id) =>
      if id < |s.chans| then s.(chans := s.chans[id := Take(s.chans[id])]) else s
  }

  /** The state a sequence of events leads to. */
  function Run(s: State, es: seq<Event>): State
    decreases |es|
  {
    if es == [] then s else Run(Next(s, es[0]), es[1..])
  }

  // ------------------------------------------------------------- invariant

  /** Subscribed channels are distinct, exist and are open. */
  ghost predicate Valid(s: State) {
    && (forall i :: 0 <= i < |s.subs| ==> s.subs[i] < |s.chans| && !s.chans[s.subs[i]].closed)
    && AllDifferent(s.subs)
    && (forall c :: 0 <= c < |s.chans| ==> |s.chans[c].buf| <= CAPACITY)
  }

  ghost predicate AllDifferent(subs: seq<nat>) {
    forall i, j :: 0 <= i < j < |subs| ==> subs[i] != subs[j]
  }

  lemma {:induction false} RemoveMembers(subs: seq<nat>, id: nat)
    requires AllDifferent(subs)
    ensures forall x :: x in Remove(subs, id) <==> x in subs && x != id
  {
    if subs != [] {
      RemoveMembers(subs[1..], id);
      assert forall x :: x in subs <==> x == subs[0] || x in subs[1..];
      assert forall x :: x in subs[1..] ==> x != subs[0];
    }
  }

  lemma {:induction false} RemoveOnly(subs: seq<nat>, id: nat)
    requires AllDifferent(subs)
    ensures forall x :: x in Remove(subs, id) <==> x in subs && x != id
    ensures AllDifferent(Remove(subs, id))
  {
    RemoveMembers(subs, id);
    if subs != [] && subs[0] != id {
      RemoveOnly(subs[1..], id);
      var rest := Remove(subs[1..], id);
      assert forall j :: 0 <= j < |rest| ==> rest[j] in rest;
      assert forall x :: x in subs[1..] ==> x != subs[0];
    }
  }

  lemma ValidStep(s: State, e: Event)
    requires Valid(s)
    ensures Valid(Next(s, e))
  {
    match e
    case Unsubscribe(id) =>
      RemoveOnly(s.subs, id);
      forall i | 0 <= i < |Remove(s.subs, id)|
        ensures Remove(s.subs, id)[i] < |s.chans| && !s.chans[Remove(s.subs, id)[i]].closed
      {
        assert Remove(s.subs, id)[i] in s.subs;
      }
    case _ => ValidOther(s, e);
  }

  lemma ValidOther(s: State, e: Event)
    requires Valid(s) && !e.Unsubscribe?
    ensures Valid(Next(s, e))
  {
  }

  lemma {:induction false} RemoveAt(subs: seq<nat>, id: nat, i: nat)
    requires i <= |subs| && id !in subs[..i] && (i < |subs| ==> subs[i] == id)
    ensures Remove(subs, id) == if i < |subs| then subs[..i] + subs[i + 1..] else subs
  {
    if i > 0 {
      var rest := subs[1..];
      assert rest[..i - 1] == subs[..i][1..];
      RemoveAt(rest, id, i - 1);
      assert subs[0] == subs[..i][0];
      if i < |subs| {
        assert rest[i..] == subs[i + 1..];
        assert [subs[0]] + (rest[..i - 1] + rest[i..]) == subs[..i] + subs[i + 1..];
      }
    }
  }

  lemma UnsubscribeStep(s: State, id: nat)
    requires Valid(s)
    ensures Valid(Next(s, Unsubscribe(id))) && id !in Remove(s.subs, id)
  {
    RemoveOnly(s.subs, id);
    ValidStep(s, Unsubscribe(id));
  }

  lemma {:induction false} RunsAreValid(s: State, es: seq<Event>)
    requires Valid(s)
    ensures Valid(Run(s, es))
    decreases |es|
  {
    if es != [] {
      ValidStep(s, es[0]);
      RunsAreValid(Next(s, es[0]), es[1..]);
    }
  }

  // ------------------------------------------------- what each event does

  /** The update of the latest notifySubscribers, or the initial one. */
  function Latest(es: seq<Event>): Update {
    if es == [] then Update(Status.Init, None)
    else if es[|es| - 1].Notify? then es[|es| - 1].u
    else Latest(es[..|es| - 1])
  }

  lemma {:induction false} RunAppend(s: State, es: seq<Event>, e: Event)
    ensures Run(s, es + [e]) == Next(Run(s, es), e)
    decreases |es|
  {
    if es == [] {
      assert [] + [e] == [e] && [e][1..] == [];
    } else {
      assert (es + [e])[1..] == es[1..] + [e];
      RunAppend(Next(s, es[0]), es[1..], e);
    }
  }

  /** The current event is the latest one published; unsubscribeAll's final Down does
      not count. */
  lemma {:induction false} LastIsLatest(es: seq<Event>)
    ensures Run(INIT, es).last == Latest(es)
  {
    if es != [] {
      var before, e := es[..|es| - 1], es[|es| - 1];
      LastIsLatest(before);
      RunAppend(INIT, before, e);
      assert es == before + [e];
    }
  }

  /** Who is subscribed after an event: registration adds the new channel, Unsubscribe
      removes the one it names, unsubscribeAll removes every one. */
  lemma SubscribedStep(s: State, e: Event, c: nat)
    requires Valid(s)
    ensures c in Next(s, e).subs <==>
            match e
            case Subscribe => c in s.subs || c == |s.chans|
            case Watch => c in s.subs || c == |s.chans|
            case Unsubscribe(id) => c in s.subs && c != id
            case UnsubscribeAll(_) => false
            case _ => c in s.subs
  {
    match e
    case Unsubscribe(id) => RemoveOnly(s.subs, id);
    case _ =>
  }

  /** A receiver takes the oldest update it has not had, and nobody else's. */
  lemma ReceiveTakesOldest(s: State, id: nat, c: nat)
    requires id < |s.chans| && c < |s.chans|
    ensures var x, y := s.chans[c], Next(s, Receive(id)).chans[c];
            && Sent(y) == Sent(x) && (c != id ==> y == x)
            && (c == id ==> |y.got| == if |x.got| < |Sent(x)| then |x.got| + 1 else |x.got|)
  {
    SentStep(s, Receive(id), c);
  }

  /** A subscriber that never receives is sent the event current at its subscription
      and the first four published after it, no more: its buffer holds five. */
  lemma {:induction false} IdleSubscriberIsSentFive(s: State, us: seq<Update>)
    requires Valid(s)
    ensures var c := |s.chans|;
            var s' := Run(Next(s, Subscribe), Notifies(us));
            && c < |s'.chans| && c in s'.subs && s'.chans[c].got == []
            && s'.chans[c].buf == [s.last] + (if |us| <= 4 then us else us[..4])
            && Valid(s')
  {
    var c := |s.chans|;
    if us == [] {
      ValidStep(s, Subscribe);
    } else {
      var before, u := us[..|us| - 1], us[|us| - 1];
      IdleSubscriberIsSentFive(s, before);
      NotifiesAppend(before, u);
      assert us == before + [u];
      RunAppend(Next(s, Subscribe), Notifies(before), Notify(u));
      ValidStep(Run(Next(s, Subscribe), Notifies(before)), Notify(u));
      assert |us| <= 4 ==> [s.last] + before + [u] == [s.last] + us;
      assert |us| > 4 ==> us[..4] == before[..4];
    }
  }

  function Notifies(us: seq<Update>): seq<Event> {
    if us == [] then [] else Notifies(us[..|us| - 1]) + [Notify(us[|us| - 1])]
  }

  lemma NotifiesAppend(us: seq<Update>, u: Update)
    ensures Notifies(us + [u]) == Notifies(us) + [Notify(u)]
  {
    assert (us + [u])[..|us|] == us;
  }

  // ------------------------------------------- no send or close after close

  /** The channels an event sends on, and those it closes. */
  function SendsOn(s: State, e: Event): set<nat> {
    if e.Notify? || e.UnsubscribeAll? then set x | x in s.subs else {}
  }

  function Closes(s: State, e: Event): set<nat> {
    if e.UnsubscribeAll? then set x | x in s.subs else {}
  }

  lemma {:induction false} ClosedStays(s: State, es: seq<Event>, c: nat)
    requires c < |s.chans| && s.chans[c].closed
    ensures c < |Run(s, es).chans| && Run(s, es).chans[c].closed
    decreases |es|
  {
    if es != [] {
      ClosedStays(Next(s, es[0]), es[1..], c);
    }
  }

  /** Once an event of a run has closed a channel, no later event sends on it or
      closes it again. */
  lemma ClosedOnceAndForAll(before: seq<Event>, e: Event, after: seq<Event>, e': Event, c: nat)
    requires c in Closes(Run(INIT, before), e)
    ensures var s := Run(Next(Run(INIT, before), e), after); c !in SendsOn(s, e') && c !in Closes(s, e')
  {
    RunsAreValid(INIT, before);
    var s0 := Run(INIT, before);
    ValidStep(s0, e);
    ClosedStays(Next(s0, e), after, c);
    RunsAreValid(Next(s0, e), after);
    OpenOnly(Run(Next(s0, e), after), c);
  }

  lemma OpenOnly(s: State, c: nat)
    requires Valid(s) && c < |s.chans| && s.chans[c].closed
    ensures c !in s.subs
  {
  }

  // ------------------------------------------------- what a subscriber gets

  /** The updates a run publishes, the final Down of unsubscribeAll included. */
  function Published(es: seq<Event>): seq<Update> {
    if es == [] then [] else Publishes(es[0]) + Published(es[1..])
  }

  function Publishes(e: Event): seq<Update> {
    if e.Notify? then [e.u] else if e.UnsubscribeAll? then [FINAL] else []
  }

  /** xs can be obtained from ys by leaving elements out. */
  predicate IsSubseq<T(==)>(xs: seq<T>, ys: seq<T>) {
    if xs == [] then true
    else if ys == [] then false
    else (xs[0] == ys[0] && IsSubseq(xs[1..], ys[1..])) || IsSubseq(xs, ys[1..])
  }

  lemma {:induction false} SubseqMember<T>(xs: seq<T>, ys: seq<T>, x: T)
    requires IsSubseq(xs, ys) && x in xs
    ensures x in ys
  {
    if xs[0] == ys[0] && IsSubseq(xs[1..], ys[1..]) {
      if x != xs[0] {
        SubseqMember(xs[1..], ys[1..], x);
      }
    } else {
      SubseqMember(xs, ys[1..], x);
    }
  }

  predicate HasRoom(x: Chan, e: Event, c: nat) {
    |x.buf| < CAPACITY || (e.UnsubscribeAll? && c in e.taken && |x.buf| == CAPACITY)
  }

  /** A publication adds at most itself to what a channel was sent; it does so
      exactly when the channel is subscribed and has, or gets, room for it. */
  lemma SentStep(s: State, e: Event, c: nat)
    requires c < |s.chans|
    ensures c < |Next(s, e).chans|
    ensures Sent(Next(s, e).chans[c]) ==
            Sent(s.chans[c]) + (if c in s.subs && HasRoom(s.chans[c], e, c) then Publishes(e) else [])
  {
    var x := s.chans[c];
    if x.buf != [] {
      assert Take(x).got + Take(x).buf == x.got + ([x.buf[0]] + x.buf[1..]);
    }
  }

  lemma SubseqExtends<T>(a: seq<T>, b: seq<T>, d: seq<T>, more: seq<T>, ys: seq<T>)
    requires (b == a || b == a + more) && |more| <= 1 && b <= d && IsSubseq(d[|b|..], ys)
    ensures a <= d && IsSubseq(d[|a|..], more + ys)
  {
    if more == [] {
      assert more + ys == ys && b == a;
    } else {
      assert more == [more[0]] && (more + ys)[1..] == ys;
      assert b == a + more ==> d[|a|..] == more + d[|b|..];
    }
  }

  /** From any state on, a channel is sent an in-order selection of what is
      published. */
  lemma {:induction false} ChannelGetsSubsequence(s: State, es: seq<Event>, c: nat)
    requires c < |s.chans|
    ensures c < |Run(s, es).chans|
    ensures Sent(s.chans[c]) <= Sent(Run(s, es).chans[c])
    ensures IsSubseq(Sent(Run(s, es).chans[c])[|Sent(s.chans[c])|..], Published(es))
    decreases |es|
  {
    if es != [] {
      var s' := Next(s, es[0]);
      SentStep(s, es[0], c);
      ChannelGetsSubsequence(s', es[1..], c);
      SubseqExtends(Sent(s.chans[c]), Sent(s'.chans[c]), Sent(Run(s', es[1..]).chans[c]),
                    Publishes(es[0]), Published(es[1..]));
    }
  }

  /** Channel c stays subscribed while es happens and has room whenever
      something is published. */
  predicate NeverFull(s: State, es: seq<Event>, c: nat)
    decreases |es|
  {
    es == [] || (Attentive(s, es[0], c) && NeverFull(Next(s, es[0]), es[1..], c))
  }

  predicate Attentive(s: State, e: Event, c: nat) {
    c in s.subs && c < |s.chans| && (Publishes(e) != [] ==> |s.chans[c].buf| < CAPACITY)
  }

  lemma AttentiveStep(s: State, e: Event, c: nat)
    requires Attentive(s, e, c)
    ensures c < |Next(s, e).chans| && Sent(Next(s, e).chans[c]) == Sent(s.chans[c]) + Publishes(e)
  {
    SentStep(s, e, c);
  }

  lemma {:induction false} PromptChannelGetsAll(s: State, es: seq<Event>, c: nat)
    requires c < |s.chans| && NeverFull(s, es, c)
    ensures c < |Run(s, es).chans|
    ensures Sent(Run(s, es).chans[c]) == Sent(s.chans[c]) + Published(es)
    decreases |es|
  {
    if es != [] {
      var s' := Next(s, es[0]);
      AttentiveStep(s, es[0], c);
      PromptChannelGetsAll(s', es[1..], c);
      var a, b, d := Sent(s.chans[c]), Publishes(es[0]), Published(es[1..]);
      assert (a + b) + d == a + (b + d);
    }
  }

  /** A subscriber of any run is sent the event current at its subscription and
      then an in-order selection of the later publications; all of them if its
      buffer is never full while it is subscribed. */
  lemma SubscriberGetsLaterEvents(before: seq<Event>, after: seq<Event>)
    ensures var s := Run(INIT, before);
            var c := |s.chans|;
            var s' := Next(s, Subscribe);
            && c < |Run(s', after).chans|
            && [Latest(before)] <= Sent(Run(s', after).chans[c])
            && IsSubseq(Sent(Run(s', after).chans[c])[1..], Published(after))
            && (NeverFull(s', after, c) ==> Sent(Run(s', after).chans[c]) == [Latest(before)] + Published(after))
  {
    var s := Run(INIT, before);
    var c := |s.chans|;
    var s' := Next(s, Subscribe);
    LastIsLatest(before);
    assert Sent(s'.chans[c]) == [s.last];
    ChannelGetsSubsequence(s', after, c);
    if NeverFull(s', after, c) {
      PromptChannelGetsAll(s', after, c);
    }
  }

  /** WaitForStatus registers only when the current event is not the target, so
      whatever it receives was published after its registration; in particular
      the target it succeeds with. */
  lemma WaitReceivesOnlyLaterEvents(before: seq<Event>, after: seq<Event>, u: Update)
    requires var s := Run(INIT, before);
             |s.chans| < |Run(Next(s, Watch), after).chans| && u in Run(Next(s, Watch), after).chans[|s.chans|].got
    ensures u in Published(after)
  {
    var s := Run(INIT, before);
    var c := |s.chans|;
    var s' := Next(s, Watch);
    assert Sent(s'.chans[c]) == [];
    ChannelGetsSubsequence(s', after, c);
    var sent := Sent(Run(s', after).chans[c]);
    assert sent[0..] == sent;
    SubseqMember(sent, Published(after), u);
  }
}

/** The publisher as the Service object keeps it. */
module Hub {
  import opened Wrappers
  import opened Updates
  import opened Spec = HubSpec

  class Service {
    var subs: seq<nat>
    var lastEvent: Update
    var chans: seq<Chan>

    ghost function View(): State
      reads this
    {
      State(subs, lastEvent, chans)
    }

    constructor ()
      ensures View() == INIT
    {
      subs, lastEvent, chans := [], Update(Status.Init, None), [];
    }

    /** A send on a closed channel panics; the caller must rule it out. */
    method TrySend(id: nat, u: Update)
      requires id < |chans| && !chans[id].closed
      modifies this`chans
      ensures chans == old(chans)[id := Offer(old(chans)[id], u)]
    {
      if |chans[id].buf| < CAPACITY {
        chans := chans[id := chans[id].(buf := chans[id].buf + [u])];
      } else {
        assert chans[id := chans[id]] == chans;
      }
    }

    /** Closing a closed channel panics as well. */
    method Close(id: nat)
      requires id < |chans| && !chans[id].closed
      modifies this`chans
      ensures chans == old(chans)[id := old(chans)[id].(closed := true)]
    {
      chans := chans[id := chans[id].(closed := true)];
    }

    method Subscribe() returns (id: nat)
      requires Valid(View())
      modifies this
      ensures Valid(View()) && View() == Next(old(View()), Event.Subscribe)
      ensures id == old(|chans|) && Sent(chans[id]) == [lastEvent] && id in subs
    {
      id := |chans|;
      chans := chans + [Chan([], [], false)];
      subs := subs + [id];
      TrySend(id, lastEvent);
      assert [] + [lastEvent] == [lastEvent];
      assert chans == old(chans) + [Chan([lastEvent], [], false)];
    }

    method Unsubscribe(id: nat)
      requires Valid(View())
      modifies this
      ensures Valid(View()) && View() == Next(old(View()), Event.Unsubscribe(id))
      ensures id !in subs
    {
      ghost var s := View();
      var i := 0;
      while i < |subs| && subs[i] != id
        invariant 0 <= i <= |subs| && View() == s && id !in subs[..i]
      {
        i := i + 1;
      }
      RemoveAt(subs, id, i);
      UnsubscribeStep(s, id);
      if i < |subs| {
        subs := subs[..i] + subs[i + 1..];
      }
    }

    method NotifySubscribers(u: Update)
      requires Valid(View())
      modifies this
      ensures Valid(View()) && View() == Next(old(View()), Notify(u))
      ensures lastEvent == u && subs == old(subs)
    {
      ghost var s := View();
      ValidStep(s, Notify(u));
      lastEvent := u;
      var i := 0;
      while i < |subs|
        invariant 0 <= i <= |subs| && subs == s.subs && lastEvent == u && |chans| == |s.chans|
        invariant forall c :: 0 <= c < |chans| ==>
                    chans[c] == (if c in subs[..i] then Offer(s.chans[c], u) else s.chans[c])
      {
        assert forall j :: 0 <= j < i ==> subs[j] != subs[i];
        assert subs[i] !in subs[..i];
        TrySend(subs[i], u);
        assert subs[..i + 1] == subs[..i] + [subs[i]];
        i := i + 1;
      }
      assert subs[..|subs|] == subs;
      assert chans == Next(s, Notify(u)).chans;
    }

    /** One turn of the loop: wait for room if there is none, send the final Down
        if there is room in time, and close. */
    method SendAndClose(id: nat, makesRoom: bool)
      requires id < |chans| && !chans[id].closed
      modifies this`chans
      ensures chans == old(chans)[id := Farewell(old(chans)[id], makesRoom)]
    {
      if makesRoom && |chans[id].buf| == CAPACITY {
        chans := chans[id := Take(chans[id])];
      }
      TrySend(id, FINAL);
      Close(id);
    }

    /** `taken` is the environment's choice: which slow receivers make room. */
    method UnsubscribeAll(taken: set<nat>)
      requires Valid(View())
      modifies this
      ensures Valid(View()) && View() == Next(old(View()), Event.UnsubscribeAll(taken))
      ensures forall c :: c in old(subs) ==> c < |chans| && chans[c].closed
      ensures forall c :: c in old(subs) && |old(chans[c].buf)| < 5 ==>
                chans[c].buf == old(chans[c].buf) + [Update(Down, None)] && chans[c].got == old(chans[c].got)
      ensures subs == [] && lastEvent == old(lastEvent)
    {
      ghost var s := View();
      ValidStep(s, Event.UnsubscribeAll(taken));
      if |subs| == 0 {
        assert chans == Next(s, Event.UnsubscribeAll(taken)).chans;
        return;
      }
      var i := 0;
      while i < |subs|
        invariant 0 <= i <= |subs| && subs == s.subs && lastEvent == s.last && |chans| == |s.chans|
        invariant forall c :: 0 <= c < |chans| ==>
                    chans[c] == (if c in subs[..i] then Farewell(s.chans[c], c in taken) else s.chans[c])
      {
        var id := subs[i];
        assert forall j :: 0 <= j < i ==> subs[j] != id;
        assert id !in subs[..i] && chans[id] == s.chans[id];
        SendAndClose(id, id in taken);
        assert subs[..i + 1] == subs[..i] + [id];
        i := i + 1;
      }
      assert subs[..|subs|] == subs;
      subs := [];
      assert chans == Next(s, Event.UnsubscribeAll(taken)).chans;
    }

    /** The first half of WaitForStatus: either the current event already is the
        target, or a channel is registered to wait on. */
    method BeginWait(target: Status) returns (id: Option<nat>)
      requires Valid(View())
      modifies this
      ensures Valid(View())
      ensures id.None? <==> old(lastEvent).state == target
      ensures View() == if id.None? then old(View()) else Next(old(View()), Watch)
      ensures id.Some? ==> id.value == old(|chans|)
    {
      ValidStep(View(), Watch);
      if lastEvent.state == target {
        return None;
      }
      id := Some(|chans|);
      subs := subs + [|chans|];
      chans := chans + [Chan([], [], false)];
    }
  }

  /** What WaitForStatus's select can see: its context ended, an update arrived,
      or nil came from a closed channel. */
  datatype Arrival = Cancelled | Closed | Item(u: Update)

  predicate Settles(a: Arrival, target: Status) {
    a.Cancelled? || (a.Item? && a.u.state == target)
  }

  /** The target arrives before the context ends. */
  predicate Succeeds(arrivals: seq<Arrival>, target: Status) {
    exists i :: 0 <= i < |arrivals| && arrivals[i].Item? && arrivals[i].u.state == target
                && forall j :: 0 <= j < i ==> !arrivals[j].Cancelled?
  }

  /** The second half of WaitForStatus: it succeeds exactly when the target
      arrives before the context ends, whatever else arrives in between. */
  method AwaitStatus(arrivals: seq<Arrival>, target: Status) returns (ok: Option<bool>)
    ensures ok == Some(true) <==> Succeeds(arrivals, target)
    ensures ok.None? <==> forall i :: 0 <= i < |arrivals| ==> !Settles(arrivals[i], target)
  {
    for i := 0 to |arrivals|
      invariant forall j :: 0 <= j < i ==> !Settles(arrivals[j], target)
    {
      match arrivals[i]
      case Cancelled => return Some(false);
      case Item(u) =>
        if u.state == target {
          return Some(true);
        }
      case Closed =>
    }
    return None;
  }

  /** The updates among the arrivals. */
  function Items(arrivals: seq<Arrival>): seq<Update> {
    if arrivals == [] then []
    else (if arrivals[0].Item? then [arrivals[0].u] else []) + Items(arrivals[1..])
  }

  lemma {:induction false} ItemArrives(arrivals: seq<Arrival>, i: nat)
    requires i < |arrivals| && arrivals[i].Item?
    ensures arrivals[i].u in Items(arrivals)
  {
    if i > 0 {
      ItemArrives(arrivals[1..], i - 1);
    }
  }

  /** The arrivals of a wait that registered after `before`: the updates its
      receiver has taken from the channel by the end of `after`. */
  ghost predicate ArriveFrom(arrivals: seq<Arrival>, before: seq<Event>, after: seq<Event>) {
    var s := Run(INIT, before);
    var s' := Run(Next(s, Watch), after);
    |s.chans| < |s'.chans| && Items(arrivals) <= s'.chans[|s.chans|].got
  }

  /** WaitForStatus from end to end: it succeeds only if the target was the current
      event when it registered, or was published after that. */
  lemma WaitSucceedsOnTarget(before: seq<Event>, after: seq<Event>, arrivals: seq<Arrival>, target: Status)
    requires ArriveFrom(arrivals, before, after)
    requires Run(INIT, before).last.state == target || Succeeds(arrivals, target)
    ensures Latest(before).state == target || exists u :: u in Published(after) && u.state == target
  {
    LastIsLatest(before);
    if Run(INIT, before).last.state != target {
      var i :| 0 <= i < |arrivals| && arrivals[i].Item? && arrivals[i].u.state == target;
      ItemArrives(arrivals, i);
      WaitReceivesOnlyLaterEvents(before, after, arrivals[i].u);
    }
  }
}
