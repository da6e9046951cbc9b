/** What every interleaving of the event fan-out keeps, and when its mutex is lost for good. */
module EventHubTheorems {
  import opened Options
  import opened EventHub
  import opened EventHubProofs
  import opened EventHubRuns

  // --- conservation ------------------------------------------------------------------------------

  /** An event was queued, sent to exactly the clients registered when it was handled, once each,
      or dropped because nobody was registered and it is not queued. */
  ghost predicate Accounted(s: State, h: Handled) {
    match h.outcome
    case Queued(i) =>
      h.registered == {} && h.event.queueIfNoClient && i < |s.queue| && s.queue[i] == h.event
    case Sent(j) =>
      && (h.registered == {} ==> !h.event.queueIfNoClient)
      && forall d: Delivery :: d.job == j ==>
           s.log.deliveries[d] == if d.client in h.registered && d.event == h.event then 1 else 0
  }

  ghost predicate Replayed(s: State, r: Replay) {
    && r.length <= |s.queue|
    && forall d: Delivery :: r.firstJob <= d.job < r.firstJob + r.length ==>
         s.log.deliveries[d] == if d.client in r.registered && d.event == s.queue[d.job - r.firstJob] then 1 else 0
  }

  lemma AllAccounted(s: State)
    requires Inv(s) && s.mu.Free?
    ensures forall i :: 0 <= i < |s.log.handled| ==> Accounted(s, s.log.handled[i])
    ensures forall i :: 0 <= i < |s.log.replays| ==> Replayed(s, s.log.replays[i])
  {
    forall i | 0 <= i < |s.log.handled| ensures Accounted(s, s.log.handled[i]) {
      assert WellHandled(s, s.log.handled[i]);
    }
    forall i | 0 <= i < |s.log.replays| ensures Replayed(s, s.log.replays[i]) {
      ReplayDelivered(s, i);
    }
  }

  /** Main result: whenever the mutex is free, the i-th event that arrived is the i-th handled and is accounted for,
      but for the last one if the listener still waits with it; the queue is every event ever queued, and each
      connection has replayed the queue it found to every client registered then. */
  lemma EventsConserved(run: seq<Action>)
    requires Valid(START, run) && After(START, run).mu.Free?
    ensures var s := After(START, run);
            && |Arrived(run)| == |s.log.handled| + (if s.listener.Waiting? then 1 else 0)
            && (forall i :: 0 <= i < |s.log.handled|
                  ==> s.log.handled[i].event == Arrived(run)[i] && Accounted(s, s.log.handled[i]))
            && (s.listener.Waiting? ==> s.listener.event == Arrived(run)[|s.log.handled|])
            && s.queue == QueuedEvents(s.log.handled)
            && forall i :: 0 <= i < |s.log.replays| ==> Replayed(s, s.log.replays[i])
  {
    var s := After(START, run);
    InvRun(START, run);
    AllAccounted(s);
    EventsArriveInOrder(run);
    EventsOfAt(s.log.handled);
    forall i | 0 <= i < |s.log.handled| ensures s.log.handled[i].event == Arrived(run)[i] {
      assert EventsOf(s.log.handled)[i] == Arrived(run)[i];
    }
  }

  lemma ReplayDelivered(s: State, i: int)
    requires Inv(s) && s.mu.Free? && 0 <= i < |s.log.replays|
    ensures Replayed(s, s.log.replays[i])
  {
    var r := s.log.replays[i];
    assert ReplayOk(s, i) && Begun(s, i) == r.length;
    forall d: Delivery | r.firstJob <= d.job < r.firstJob + r.length
      ensures s.log.deliveries[d] == if d.client in r.registered && d.event == s.queue[d.job - r.firstJob] then 1 else 0
    {
      assert s.log.jobs[r.firstJob + (d.job - r.firstJob)] == Job(s.queue[d.job - r.firstJob], r.registered);
      assert Due(s, d) <==> d.client in r.registered && d.event == s.queue[d.job - r.firstJob];
    }
  }

  /** A connection finds, and so replays, every event queued before: the queue only grows. */
  lemma QueueKept(s: State, a: Action)
    requires Enabled(s, a)
    ensures s.queue <= Apply(s, a).queue
    ensures a.ReplayLock? ==>
      exists r :: Apply(s, a).log.replays == s.log.replays + [r] && r.length == |s.queue| && r.registered == s.clients
  {
    if a.ReplayLock? {
      assert Apply(s, a).log.replays == s.log.replays + [Replay(a.handler, |s.queue|, |s.log.jobs|, s.clients)];
    }
  }

  /** Ids are never reused: each belongs to one connection, and the next one is new. */
  lemma IdsAreUnique(s: State, k: ClientId, l: ClientId)
    requires Reachable(s) && k in s.log.owner && l in s.log.owner
    ensures s.log.owner[k] == s.log.owner[l] ==> k == l
    ensures forall h :: Enabled(s, Register(h)) ==> s.nClients !in s.log.owner
  {
    ReachableInv(s);
  }

  /** A client once removed is never registered again under its id, however often its two loops
      remove it, and no removal touches another client. */
  lemma {:induction false} RemovedForever(s: State, run: seq<Action>, k: ClientId)
    requires Inv(s) && Valid(s, run) && k in s.log.owner && k !in s.clients
    ensures k !in After(s, run).clients
    decreases |run|
  {
    if run != [] {
      var t := Apply(s, run[0]);
      InvStep(s, run[0]);
      KeepsRemoved(s, run[0], k);
      RemovedForever(t, run[1..], k);
    }
  }

  lemma KeepsRemoved(s: State, a: Action, k: ClientId)
    requires LoopsInv(s) && IdsInv(s) && Enabled(s, a) && k in s.log.owner && k !in s.clients
    ensures k in Apply(s, a).log.owner && k !in Apply(s, a).clients
  {
    ClientsStep(s, a);
    ReaderKeysStep(s, a);
  }

  /** Only the two loops of the removed client change the set of registered clients downwards. */
  lemma RemovesOnlyItself(s: State, a: Action, k: ClientId)
    requires Enabled(s, a) && k in s.clients && k !in Apply(s, a).clients
    ensures a == WriterRemove(k) || a == ReaderRemove(k)
  {}

  // --- losing the mutex --------------------------------------------------------------------------

  /** The registered clients the mutex holder has yet to send to. */
  function Pending(s: State): set<ClientId> {
    if !Sending(s.mu) || s.mu.work.events == [] then {}
    else if |s.mu.work.events| == 1 then s.mu.work.todo
    else s.clients
  }

  /** The holder must still send to a registered client whose write loop has left its select and
      waits for the mutex. */
  ghost predicate Doomed(s: State) {
    exists k :: k in Pending(s) && WriterAt(s, k, WriterExit)
  }

  ghost predicate HeldForever(s: State) {
    forall run :: Valid(s, run) ==> After(s, run).mu != Free
  }

  lemma DoomStays(s: State, a: Action)
    requires Inv(s) && Doomed(s) && Enabled(s, a)
    ensures Doomed(Apply(s, a)) && !s.mu.Free? && !Apply(s, a).mu.Free?
    ensures Apply(s, a).clients == s.clients && Apply(s, a).queue == s.queue && Apply(s, a).log.handled == s.log.handled
  {
    var k :| k in Pending(s) && WriterAt(s, k, WriterExit);
    var t := Apply(s, a);
    assert k in Pending(t) && WriterAt(t, k, WriterExit);
  }

  /** After that no event is handled and no client registered or removed, in any continuation. */
  lemma {:induction false} DoomIsForever(s: State, run: seq<Action>)
    requires Inv(s) && Doomed(s) && Valid(s, run)
    ensures !After(s, run).mu.Free?
    ensures After(s, run).clients == s.clients && After(s, run).log.handled == s.log.handled
    decreases |run|
  {
    if run == [] {
      var k :| k in Pending(s) && WriterAt(s, k, WriterExit);
    } else {
      DoomStays(s, run[0]);
      InvStep(s, run[0]);
      DoomIsForever(Apply(s, run[0]), run[1..]);
    }
  }

  /** How much the holder still has to do. */
  function Work(s: State): (nat, nat, nat) {
    if !Sending(s.mu) then (0, 0, 0)
    else
      var w := s.mu.work;
      (|w.events|, |w.todo|,
       if w.target.None? then 2 else if WriterAt(s, w.target.value, Writing) then 1 else 0)
  }

  /** The next step of the holder, or of the write loop it waits for. */
  lemma HolderMoves(s: State) returns (a: Action)
    requires Inv(s) && !s.mu.Free? && !Doomed(s)
    ensures HolderStep(a) || (Sending(s.mu) && s.mu.work.target.Some? && a == WriteDone(s.mu.work.target.value))
    ensures Enabled(s, a) && (Apply(s, a).mu.Free? || !Doomed(Apply(s, a)))
    ensures Apply(s, a).mu.Free? ||
      (Sending(s.mu) && Sending(Apply(s, a).mu) &&
        var x, y := Work(s), Work(Apply(s, a));
        y.0 < x.0 || (y.0 == x.0 && (y.1 < x.1 || (y.1 == x.1 && y.2 < x.2))))
  {
    match s.mu
    case RegisterHolds(h) => a := CountUp(h);
    case ReaderHolds(k) => a := ReaderRemove(k);
    case WriterHolds(k) => a := WriterRemove(k);
    case _ => a := SenderMoves(s);
  }

  lemma SenderMoves(s: State) returns (a: Action)
    requires Inv(s) && Sending(s.mu) && !Doomed(s)
    ensures HolderStep(a) || (s.mu.work.target.Some? && a == WriteDone(s.mu.work.target.value))
    ensures Enabled(s, a) && (Apply(s, a).mu.Free? || !Doomed(Apply(s, a)))
    ensures Apply(s, a).mu.Free? ||
      (Sending(Apply(s, a).mu) &&
        var x, y := Work(s), Work(Apply(s, a));
        y.0 < x.0 || (y.0 == x.0 && (y.1 < x.1 || (y.1 == x.1 && y.2 < x.2))))
  {
    var w := s.mu.work;
    if w.events == [] {
      a := Unlock;
    } else if w.target.Some? {
      var k := w.target.value;
      assert k in Pending(s) && ClientOk(s, k);
      assert !WriterAt(s, k, WriterExit);
      a := if s.writers[k] == Writing then WriteDone(k) else Deliver(k);
    } else if w.todo == {} {
      a := NextEvent;
    } else {
      var k :| k in w.todo;
      a := Pick(k);
    }
    var t := Apply(s, a);
    if !t.mu.Free? {
      forall k | k in Pending(t) ensures !WriterAt(t, k, WriterExit) {
        assert k in Pending(s);
      }
    }
  }

  lemma {:induction false} Releases(s: State) returns (run: seq<Action>)
    requires Inv(s) && !s.mu.Free? && !Doomed(s)
    ensures Valid(s, run) && After(s, run).mu.Free?
    decreases Sending(s.mu), Work(s).0, Work(s).1, Work(s).2
  {
    var a := HolderMoves(s);
    var t := Apply(s, a);
    InvStep(s, a);
    if t.mu.Free? {
      run := [a];
      assert run[1..] == [];
    } else {
      var rest := Releases(t);
      run := [a] + rest;
      assert run[1..] == rest;
    }
  }

  // --- how long the mutex is held ------------------------------------------------------------------

  /** The steps that whoever holds the mutex takes. */
  predicate HolderStep(a: Action) {
    a.Pick? || a.Deliver? || a.NextEvent? || a.Unlock? || a.CountUp? || a.WriterRemove? || a.ReaderRemove?
  }

  /** Steps for `n` whole events sent to `c` clients each. */
  function EventSteps(n: nat, c: nat): nat { if n == 0 then 0 else EventSteps(n - 1, c) + 2 * c + 1 }

  /** The holder's steps up to and including the release: two for every client an event has yet to
      reach, one more for every event, and the release. */
  function StepsLeft(s: State): int {
    if s.mu.Free? then 0
    else if !Sending(s.mu) || s.mu.work.events == [] then 1
    else
      var w := s.mu.work;
      2 * |w.todo| - (if w.target.Some? then 1 else 0) + 1 + EventSteps(|w.events| - 1, |s.clients|) + 1
  }

  function HolderSteps(run: seq<Action>): nat {
    if run == [] then 0 else (if HolderStep(run[0]) then 1 else 0) + HolderSteps(run[1..])
  }

  predicate HeldThroughout(s: State, run: seq<Action>)
    requires Valid(s, run)
    decreases |run|
  {
    !s.mu.Free? && (run == [] || HeldThroughout(Apply(s, run[0]), run[1..]))
  }

  lemma PickCounts(s: State, k: ClientId)
    requires Enabled(s, Pick(k))
    ensures StepsLeft(Apply(s, Pick(k))) == StepsLeft(s) - 1
  {}

  lemma DeliverCounts(s: State, k: ClientId)
    requires Enabled(s, Deliver(k)) && k in s.mu.work.todo
    ensures StepsLeft(Apply(s, Deliver(k))) == StepsLeft(s) - 1
  {
    assert |s.mu.work.todo - {k}| == |s.mu.work.todo| - 1;
  }

  lemma NextEventCounts(s: State)
    requires Enabled(s, NextEvent)
    ensures StepsLeft(Apply(s, NextEvent)) == StepsLeft(s) - 1
  {
    var rest := s.mu.work.events[1..];
    assert Apply(s, NextEvent).mu.work == Begin(s, rest) && Apply(s, NextEvent).clients == s.clients;
    assert |s.mu.work.todo| == 0;
  }

  lemma SenderCounts(s: State, a: Action)
    requires Inv(s) && Sending(s.mu) && Enabled(s, a) && (a.Pick? || a.Deliver? || a.NextEvent? || a.Unlock?)
    ensures StepsLeft(Apply(s, a)) == StepsLeft(s) - 1
  {
    if a.Pick? { PickCounts(s, a.client); }
    if a.Deliver? { DeliverCounts(s, a.client); }
    if a.NextEvent? { NextEventCounts(s); }
  }

  lemma OthersCount(s: State, a: Action)
    requires Inv(s) && !s.mu.Free? && Enabled(s, a) && !(a.Pick? || a.Deliver? || a.NextEvent? || a.Unlock?)
    ensures StepsLeft(Apply(s, a)) == StepsLeft(s) - if HolderStep(a) then 1 else 0
  {}

  /** Main result: while the mutex is held, every step of its holder brings the release one step closer,
      and no other step delays it. */
  lemma {:induction false} HolderStepsAreCounted(s: State, run: seq<Action>)
    requires Inv(s) && Valid(s, run) && HeldThroughout(s, run)
    ensures HolderSteps(run) + StepsLeft(After(s, run)) == StepsLeft(s) && StepsLeft(After(s, run)) > 0
    decreases |run|
  {
    if run == [] {
      StepsRemain(s);
    } else {
      StepsRemain(s);
      var a := run[0];
      if a.Pick? || a.Deliver? || a.NextEvent? || a.Unlock? { SenderCounts(s, a); } else { OthersCount(s, a); }
      InvStep(s, a);
      HolderStepsAreCounted(Apply(s, a), run[1..]);
    }
  }

  lemma StepsRemain(s: State)
    requires Inv(s) && !s.mu.Free?
    ensures StepsLeft(s) > 0
  {
    if Sending(s.mu) && s.mu.work.events != [] {
      var w := s.mu.work;
      if w.target.Some? { assert w.target.value in w.todo; }
    }
  }

  /** The holder's next step is possible, or the write loop it waits for can finish its write. */
  lemma HolderIsNotBlocked(s: State)
    requires Inv(s) && !s.mu.Free? && !Doomed(s)
    ensures exists a :: Enabled(s, a)
              && (HolderStep(a) || (Sending(s.mu) && s.mu.work.target.Some? && a == WriteDone(s.mu.work.target.value)))
  {
    var a := HolderMoves(s);
    assert Enabled(s, a);
  }

  /** Main result: in a reachable state a held mutex is held forever exactly if its holder must
      still send to a registered client whose write loop has left. */
  lemma HeldForeverIffDoomed(s: State)
    requires Reachable(s) && !s.mu.Free?
    ensures HeldForever(s) <==> Doomed(s)
  {
    ReachableInv(s);
    if Doomed(s) {
      forall run | Valid(s, run) ensures After(s, run).mu != Free { DoomIsForever(s, run); }
    } else {
      var run := Releases(s);
      assert Valid(s, run) && After(s, run).mu == Free;
    }
  }

  /** A failing or closed connection is the only thing that can doom the holder. */
  lemma DoomCause(s: State, a: Action)
    requires Inv(s) && Enabled(s, a) && !Doomed(s) && Doomed(Apply(s, a))
    ensures a.WriteFails? || a.SeeClosed? || a.ListenerLock? || a.ReplayLock?
  {
    var t := Apply(s, a);
    var k :| k in Pending(t) && WriterAt(t, k, WriterExit);
    assert !(k in Pending(s) && WriterAt(s, k, WriterExit));
  }

  /** The race itself: a registered client's write loop has left, and before it gets the mutex to
      remove itself the listener does. */
  lemma ListenerLosesRace(s: State, k: ClientId)
    requires Inv(s) && Enabled(s, ListenerLock) && k in s.clients && WriterAt(s, k, WriterExit)
    ensures Doomed(Apply(s, ListenerLock))
  {
    assert k in Pending(Apply(s, ListenerLock)) && WriterAt(Apply(s, ListenerLock), k, WriterExit);
  }

  lemma {:induction false} ValidConcat(s: State, run: seq<Action>, a: Action)
    requires Valid(s, run) && Enabled(After(s, run), a)
    ensures Valid(s, run + [a]) && After(s, run + [a]) == Apply(After(s, run), a)
    decreases |run|
  {
    if run == [] {
      assert [a][1..] == [] && [] + [a] == [a];
    } else {
      assert (run + [a])[1..] == run[1..] + [a];
      ValidConcat(Apply(s, run[0]), run[1..], a);
    }
  }

  lemma StepReachable(s: State, a: Action)
    requires Reachable(s) && Enabled(s, a)
    ensures Reachable(Apply(s, a))
  {
    var run :| Valid(START, run) && After(START, run) == s;
    ValidConcat(START, run, a);
    assert Valid(START, run + [a]);
  }

  /** It happens: one client, one failed write, one event. */
  lemma DoomIsReachable(e: Event) returns (s: State)
    ensures Reachable(s) && !s.mu.Free? && Doomed(s)
  {
    assert Valid(START, []) && After(START, []) == START;
    var left := ConnectedClientFails();
    StepReachable(left, EventArrives(e));
    var waiting := Apply(left, EventArrives(e));
    StepReachable(waiting, ListenerLock);
    ReachableInv(waiting);
    ListenerLosesRace(waiting, 0);
    s := Apply(waiting, ListenerLock);
  }

  lemma ConnectedClientFails() returns (s: State)
    ensures Reachable(s) && s.mu.Free? && s.listener.Idle? && s.clients == {0} && WriterAt(s, 0, WriterExit)
  {
    var t := ClientConnects();
    StepReachable(t, RpcMessage(0));
    var u := Apply(t, RpcMessage(0));
    StepReachable(u, WriteFails(0));
    s := Apply(u, WriteFails(0));
  }

  lemma ClientConnects() returns (s: State)
    ensures Reachable(s) && s.mu.Free? && s.listener.Idle? && s.clients == {0} && WriterAt(s, 0, Select)
  {
    StepReachable(START, Connect(0)) by {
      assert Valid(START, []) && After(START, []) == START;
    }
    var t := Apply(START, Connect(0));
    StepReachable(t, Register(0));
    var u := Apply(t, Register(0));
    StepReachable(u, CountUp(0));
    s := Apply(u, CountUp(0));
  }
}
