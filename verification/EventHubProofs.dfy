/** Invariants of every interleaving of the event fan-out: nobody's id is reused, every event is
    accounted for, and the mutex is lost exactly when its holder must still send to a client
    whose write loop has left. */
module EventHubProofs {
  import opened Options
  import opened EventHub

  // --- who is where ------------------------------------------------------------------------------

  /** A client stays registered until one of its two loops has removed it, and a loop is inside
      its removal exactly while it holds the mutex. */
  predicate ClientOk(s: State, k: ClientId)
    requires k in s.writers && k in s.readers
  {
    && (k in s.clients <==> s.writers[k] != WriterDone && s.readers[k] != Closing && s.readers[k] != ReaderDone)
    && (s.writers[k] == WriterRemoving <==> s.mu == WriterHolds(k))
    && (s.readers[k] == ReaderRemoving <==> s.mu == ReaderHolds(k))
  }

  ghost predicate LoopsInv(s: State) {
    && s.readers.Keys == s.writers.Keys == s.log.owner.Keys
    && s.clients <= s.writers.Keys
    && (forall k :: k in s.writers ==> ClientOk(s, k))
    && (s.mu.WriterHolds? || s.mu.ReaderHolds? ==> s.mu.client in s.writers)
  }

  ghost predicate HoldersInv(s: State) {
    && (s.listener.Inside? <==> s.mu.ListenerHolds?)
    && (forall h :: h in s.handlers ==> (s.handlers[h].Replaying? <==> s.mu.ReplayHolds? && s.mu.handler == h))
    && (forall h :: h in s.handlers ==> (s.handlers[h].Registering? <==> s.mu == RegisterHolds(h)))
    && (s.mu.ReplayHolds? || s.mu.RegisterHolds? ==> s.mu.handler in s.handlers)
    && (Sending(s.mu) ==>
          && s.mu.work.todo <= s.clients
          && (s.mu.work.events == [] ==> s.mu.work.todo == {})
          && (s.mu.work.target.Some? ==> s.mu.work.target.value in s.mu.work.todo))
  }

  /** Ids are handed out in order, each to one connection. */
  ghost predicate IdsInv(s: State) {
    && (forall k :: k in s.log.owner ==> k < s.nClients || (s.mu.RegisterHolds? && k == s.nClients))
    && (s.mu.RegisterHolds? ==> s.nClients in s.log.owner)
    && (forall k :: k in s.log.owner ==> s.log.owner[k] in s.handlers && !s.handlers[s.log.owner[k]].WaitRegister?)
    && (forall k, l :: k in s.log.owner && l in s.log.owner && s.log.owner[k] == s.log.owner[l] ==> k == l)
  }

  lemma RemovingStep(s: State, a: Action, k: ClientId)
    requires LoopsInv(s) && IdsInv(s) && Enabled(s, a) && k in s.writers
    ensures var t := Apply(s, a);
            && k in t.writers && k in t.readers
            && (t.writers[k] == WriterRemoving <==> t.mu == WriterHolds(k))
            && (t.readers[k] == ReaderRemoving <==> t.mu == ReaderHolds(k))
  {
    assert ClientOk(s, k);
  }

  lemma RegisteredStep(s: State, a: Action, k: ClientId)
    requires LoopsInv(s) && IdsInv(s) && Enabled(s, a) && k in s.writers
    ensures var t := Apply(s, a);
            && k in t.writers && k in t.readers
            && (k in t.clients <==> t.writers[k] != WriterDone && t.readers[k] != Closing && t.readers[k] != ReaderDone)
  {
    assert ClientOk(s, k);
  }

  lemma WriterKeysStep(s: State, a: Action)
    requires Enabled(s, a) && LoopsInv(s)
    ensures var t := Apply(s, a);
            && t.writers.Keys == s.writers.Keys + (if a.Register? then {s.nClients} else {})
            && (t.mu.WriterHolds? || t.mu.ReaderHolds? ==> t.mu.client in t.writers)
  {}

  lemma ReaderKeysStep(s: State, a: Action)
    requires Enabled(s, a) && LoopsInv(s)
    ensures var t := Apply(s, a);
            && t.readers.Keys == s.readers.Keys + (if a.Register? then {s.nClients} else {})
            && t.log.owner.Keys == s.log.owner.Keys + (if a.Register? then {s.nClients} else {})
  {}

  lemma ClientsStep(s: State, a: Action)
    requires Enabled(s, a)
    ensures Apply(s, a).clients <= s.clients + if a.Register? then {s.nClients} else {}
  {}

  lemma LoopsStep(s: State, a: Action)
    requires LoopsInv(s) && IdsInv(s) && Enabled(s, a)
    ensures LoopsInv(Apply(s, a))
  {
    var t := Apply(s, a);
    WriterKeysStep(s, a);
    ReaderKeysStep(s, a);
    ClientsStep(s, a);
    forall k | k in t.writers ensures ClientOk(t, k) {
      if k in s.writers { RemovingStep(s, a, k); RegisteredStep(s, a, k); }
    }
  }

  /** The steps that change the history or the work of the mutex holder. */
  predicate SendAction(a: Action) {
    a.ListenerLock? || a.Pick? || a.Deliver? || a.NextEvent? || a.Unlock? || a.ReplayLock?
  }

  lemma HoldersSend(s: State, a: Action)
    requires LoopsInv(s) && HoldersInv(s) && Enabled(s, a) && SendAction(a)
    ensures HoldersInv(Apply(s, a))
  {}

  lemma HoldersElsewhere(s: State, a: Action)
    requires LoopsInv(s) && HoldersInv(s) && Enabled(s, a) && !SendAction(a)
    ensures HoldersInv(Apply(s, a))
  {}

  lemma IdsRegister(s: State, a: Action)
    requires LoopsInv(s) && HoldersInv(s) && IdsInv(s) && Enabled(s, a) && a.Register?
    ensures IdsInv(Apply(s, a))
  {}

  lemma CounterElsewhere(s: State, a: Action)
    requires HoldersInv(s) && IdsInv(s) && Enabled(s, a) && !a.Register?
    ensures var t := Apply(s, a);
            && t.log.owner == s.log.owner && (t.mu.RegisterHolds? ==> s.mu.RegisterHolds?)
            && t.nClients == s.nClients + (if s.mu.RegisterHolds? && t.mu.Free? then 1 else 0)
            && (s.mu.RegisterHolds? ==> t.mu.RegisterHolds? || t.mu.Free?)
  {}

  lemma HandlersElsewhere(s: State, a: Action, h: HandlerId)
    requires HoldersInv(s) && Enabled(s, a) && !a.Register? && h in s.handlers && !s.handlers[h].WaitRegister?
    ensures h in Apply(s, a).handlers && !Apply(s, a).handlers[h].WaitRegister?
  {}

  lemma IdsElsewhere(s: State, a: Action)
    requires HoldersInv(s) && IdsInv(s) && Enabled(s, a) && !a.Register?
    ensures IdsInv(Apply(s, a))
  {
    CounterElsewhere(s, a);
    forall k | k in s.log.owner
      ensures s.log.owner[k] in Apply(s, a).handlers && !Apply(s, a).handlers[s.log.owner[k]].WaitRegister?
    {
      HandlersElsewhere(s, a, s.log.owner[k]);
    }
  }

  // --- every event is accounted for --------------------------------------------------------------

  predicate InJob(s: State) { Sending(s.mu) && s.mu.work.events != [] }

  /** The current job has not yet reached this client. */
  predicate Outstanding(s: State, job: int, k: ClientId) {
    InJob(s) && job == |s.log.jobs| - 1 && k in s.mu.work.todo
  }

  predicate Due(s: State, d: Delivery) {
    && 0 <= d.job < |s.log.jobs|
    && d.event == s.log.jobs[d.job].event
    && d.client in s.log.jobs[d.job].targets
    && !Outstanding(s, d.job, d.client)
  }

  /** Every job reaches each of its targets exactly once and nobody else. */
  ghost predicate DeliveriesInv(s: State) {
    && (forall d :: s.log.deliveries[d] == if Due(s, d) then 1 else 0)
    && (InJob(s) ==> s.log.jobs != [] && s.log.jobs[|s.log.jobs| - 1] == Job(s.mu.work.events[0], s.clients))
  }

  function QueuedEvents(handled: seq<Handled>): seq<Event> {
    if handled == [] then []
    else
      var last := handled[|handled| - 1];
      QueuedEvents(handled[..|handled| - 1]) + (if last.outcome.Queued? then [last.event] else [])
  }

  predicate WellHandled(s: State, h: Handled) {
    match h.outcome
    case Queued(i) => h.registered == {} && h.event.queueIfNoClient && i < |s.queue| && s.queue[i] == h.event
    case Sent(j) =>
      && !(h.registered == {} && h.event.queueIfNoClient)
      && j < |s.log.jobs| && s.log.jobs[j] == Job(h.event, h.registered)
  }

  /** Every handled event was queued or sent to exactly the clients registered then. */
  ghost predicate HandledInv(s: State) {
    && (forall i :: 0 <= i < |s.log.handled| ==> WellHandled(s, s.log.handled[i]))
    && s.queue == QueuedEvents(s.log.handled)
  }

  /** How many of a replay's jobs have begun. */
  function Begun(s: State, i: int): int
    requires 0 <= i < |s.log.replays|
  {
    if i == |s.log.replays| - 1 && s.mu.ReplayHolds? && s.mu.work.events != []
    then s.log.replays[i].length - |s.mu.work.events| + 1
    else s.log.replays[i].length
  }

  ghost predicate ReplayOk(s: State, i: int)
    requires 0 <= i < |s.log.replays|
  {
    var r := s.log.replays[i];
    && r.length <= |s.queue|
    && 0 <= Begun(s, i)
    && r.firstJob + Begun(s, i) <= |s.log.jobs|
    && forall j :: 0 <= j < Begun(s, i) && 0 <= r.firstJob + j < |s.log.jobs| && j < |s.queue| ==>
         s.log.jobs[r.firstJob + j] == Job(s.queue[j], r.registered)
  }

  /** Every replay sends the whole queue, in order, to the clients registered then. */
  ghost predicate ReplaysInv(s: State) {
    && (forall i :: 0 <= i < |s.log.replays| ==> ReplayOk(s, i))
    && (s.mu.ReplayHolds? ==>
          && s.log.replays != []
          && var r := s.log.replays[|s.log.replays| - 1];
             && r.handler == s.mu.handler && r.length == |s.queue| && r.registered == s.clients
             && |s.mu.work.events| <= r.length
             && s.mu.work.events == s.queue[r.length - |s.mu.work.events|..]
             && (s.mu.work.events != [] ==> r.firstJob + Begun(s, |s.log.replays| - 1) == |s.log.jobs|))
  }

  lemma DeliveryMade(s: State, k: ClientId)
    requires HoldersInv(s) && DeliveriesInv(s) && Enabled(s, Deliver(k))
    ensures DeliveriesInv(Apply(s, Deliver(k)))
  {
    var t := Apply(s, Deliver(k));
    var made := Delivery(|s.log.jobs| - 1, k, s.mu.work.events[0]);
    forall d ensures t.log.deliveries[d] == if Due(t, d) then 1 else 0 {
      assert s.log.deliveries[d] == if Due(s, d) then 1 else 0;
      assert Due(t, d) <==> Due(s, d) || d == made;
    }
  }

  lemma JobBegins(s: State, a: Action)
    requires LoopsInv(s) && HoldersInv(s) && DeliveriesInv(s) && Enabled(s, a)
    requires a.ListenerLock? || a.NextEvent? || a.ReplayLock?
    ensures DeliveriesInv(Apply(s, a))
  {
    var t := Apply(s, a);
    assert s.log.jobs <= t.log.jobs <= s.log.jobs + (if InJob(t) then [Job(t.mu.work.events[0], s.clients)] else []);
    assert t.clients == s.clients && t.log.deliveries == s.log.deliveries;
    forall d ensures Due(t, d) <==> Due(s, d) {}
  }

  lemma DeliveriesStep(s: State, a: Action)
    requires LoopsInv(s) && HoldersInv(s) && DeliveriesInv(s) && Enabled(s, a) && SendAction(a)
    ensures DeliveriesInv(Apply(s, a))
  {
    if a.Deliver? {
      DeliveryMade(s, a.client);
    } else if a.Pick? || a.Unlock? {
      forall d ensures Due(Apply(s, a), d) <==> Due(s, d) {}
    } else {
      JobBegins(s, a);
    }
  }

  lemma DeliveriesElsewhere(s: State, a: Action)
    requires LoopsInv(s) && HoldersInv(s) && DeliveriesInv(s) && Enabled(s, a) && !SendAction(a)
    ensures DeliveriesInv(Apply(s, a))
  {
    var t := Apply(s, a);
    assert t.log.jobs == s.log.jobs && t.log.deliveries == s.log.deliveries;
    assert InJob(t) <==> InJob(s);
    forall d ensures Due(t, d) <==> Due(s, d) {}
  }

  lemma WellHandledLater(s: State, t: State, h: Handled)
    requires WellHandled(s, h) && s.queue <= t.queue && s.log.jobs <= t.log.jobs
    ensures WellHandled(t, h)
  {}

  lemma ListenerDecides(s: State) returns (h: Handled)
    requires Enabled(s, ListenerLock)
    ensures var t := Apply(s, ListenerLock);
            && t.log.handled == s.log.handled + [h] && WellHandled(t, h) && s.log.jobs <= t.log.jobs
            && t.queue == s.queue + (if h.outcome.Queued? then [h.event] else [])
  {
    h := Apply(s, ListenerLock).log.handled[|s.log.handled|];
  }

  lemma HandledStep(s: State)
    requires HandledInv(s) && Enabled(s, ListenerLock)
    ensures HandledInv(Apply(s, ListenerLock))
  {
    var h := ListenerDecides(s);
    var t := Apply(s, ListenerLock);
    QueuedEventsGrow(s.log.handled, h);
    forall i | 0 <= i < |t.log.handled| ensures WellHandled(t, t.log.handled[i]) {
      if i < |s.log.handled| { WellHandledLater(s, t, s.log.handled[i]); }
    }
  }

  lemma QueuedEventsGrow(handled: seq<Handled>, h: Handled)
    ensures QueuedEvents(handled + [h]) == QueuedEvents(handled) + if h.outcome.Queued? then [h.event] else []
  {
    assert (handled + [h])[..|handled|] == handled;
  }

  lemma HandledElsewhere(s: State, a: Action)
    requires HandledInv(s) && Enabled(s, a) && !a.ListenerLock?
    ensures HandledInv(Apply(s, a))
  {
    var t := Apply(s, a);
    assert t.log.handled == s.log.handled && t.queue == s.queue && s.log.jobs <= t.log.jobs;
    forall i | 0 <= i < |t.log.handled| ensures WellHandled(t, t.log.handled[i]) {
      WellHandledLater(s, t, s.log.handled[i]);
    }
  }

  /** A step that neither changes the mutex holder's work list nor the replay records. */
  lemma ReplaysFrame(s: State, t: State)
    requires ReplaysInv(s)
    requires t.log.replays == s.log.replays && s.log.jobs <= t.log.jobs && s.queue <= t.queue
    requires t.mu.ReplayHolds? ==> s.mu.ReplayHolds? && t.mu.handler == s.mu.handler && t.mu.work.events == s.mu.work.events
                                   && t.log.jobs == s.log.jobs && t.queue == s.queue && t.clients == s.clients
    requires s.mu.ReplayHolds? ==> t.mu.ReplayHolds? || s.mu.work.events == []
    ensures ReplaysInv(t)
  {
    forall i | 0 <= i < |t.log.replays| ensures ReplayOk(t, i) {
      assert ReplayOk(s, i) && Begun(t, i) == Begun(s, i);
    }
  }

  lemma ReplayBegins(s: State, a: Action)
    requires ReplaysInv(s) && Enabled(s, a) && a.ReplayLock?
    ensures ReplaysInv(Apply(s, a))
  {
    var t := Apply(s, a);
    forall i | 0 <= i < |t.log.replays| ensures ReplayOk(t, i) {
      if i < |s.log.replays| { assert ReplayOk(s, i) && Begun(t, i) == Begun(s, i); }
    }
  }

  lemma ReplayAdvances(s: State, a: Action)
    requires ReplaysInv(s) && Enabled(s, a) && a.NextEvent? && s.mu.ReplayHolds?
    ensures ReplaysInv(Apply(s, a))
  {
    var t := Apply(s, a);
    var last := |s.log.replays| - 1;
    var r := s.log.replays[last];
    var done := r.length - |s.mu.work.events|;
    assert s.mu.work.events[1..] == s.queue[done + 1..];
    if t.mu.work.events != [] { assert t.mu.work.events[0] == s.queue[done + 1]; }
    forall i | 0 <= i < |t.log.replays| ensures ReplayOk(t, i) {
      assert ReplayOk(s, i);
    }
  }

  lemma ReplaysStep(s: State, a: Action)
    requires HoldersInv(s) && LoopsInv(s) && ReplaysInv(s) && Enabled(s, a)
    ensures ReplaysInv(Apply(s, a))
  {
    if a.ReplayLock? {
      ReplayBegins(s, a);
    } else if a.NextEvent? && s.mu.ReplayHolds? {
      ReplayAdvances(s, a);
    } else {
      ReplaysFrame(s, Apply(s, a));
    }
  }

  // --- all of it, over every run -----------------------------------------------------------------

  ghost predicate Inv(s: State) {
    LoopsInv(s) && HoldersInv(s) && IdsInv(s) && DeliveriesInv(s) && HandledInv(s) && ReplaysInv(s)
  }

  lemma InvStep(s: State, a: Action)
    requires Inv(s) && Enabled(s, a)
    ensures Inv(Apply(s, a))
  {
    LoopsStep(s, a);
    if SendAction(a) { HoldersSend(s, a); DeliveriesStep(s, a); } else { HoldersElsewhere(s, a); DeliveriesElsewhere(s, a); }
    if a.Register? { IdsRegister(s, a); } else { IdsElsewhere(s, a); }
    if a.ListenerLock? { HandledStep(s); } else { HandledElsewhere(s, a); }
    ReplaysStep(s, a);
  }

  lemma {:induction false} InvRun(s: State, run: seq<Action>)
    requires Inv(s) && Valid(s, run)
    ensures Inv(After(s, run))
    decreases |run|
  {
    if run != [] {
      InvStep(s, run[0]);
      InvRun(Apply(s, run[0]), run[1..]);
    }
  }

  lemma ReachableInv(s: State)
    requires Reachable(s)
    ensures Inv(s)
  {
    var run :| Valid(START, run) && After(START, run) == s;
    InvRun(START, run);
  }
}
