/** What a whole run of the event fan-out leaves behind, told from its actions: the events that arrived,
    the jobs that sent them, and the clients that came and went. */
module EventHubRuns {
  import opened Options
  import opened EventHub
  import opened EventHubProofs

  // --- the events that arrive ----------------------------------------------------------------------

  /** The arguments of the run's arrivals, in order. */
  function Arrived(run: seq<Action>): seq<Event> {
    if run == [] then [] else (if run[0].EventArrives? then [run[0].event] else []) + Arrived(run[1..])
  }

  function EventsOf(handled: seq<Handled>): seq<Event> {
    if handled == [] then [] else EventsOf(handled[..|handled| - 1]) + [handled[|handled| - 1].event]
  }

  lemma EventsOfNext(handled: seq<Handled>, h: Handled)
    ensures EventsOf(handled + [h]) == EventsOf(handled) + [h.event]
  {
    assert (handled + [h])[..|handled|] == handled;
  }

  lemma {:induction false} EventsOfAt(handled: seq<Handled>)
    ensures |EventsOf(handled)| == |handled| && forall i :: 0 <= i < |handled| ==> EventsOf(handled)[i] == handled[i].event
  {
    if handled != [] { EventsOfAt(handled[..|handled| - 1]); }
  }

  /** The events handled so far, and the one that the listener holds. */
  function Taken(s: State): seq<Event> {
    EventsOf(s.log.handled) + if s.listener.Waiting? then [s.listener.event] else []
  }

  lemma TakenNext(s: State, a: Action)
    requires Inv(s) && Enabled(s, a)
    ensures Taken(Apply(s, a)) == Taken(s) + if a.EventArrives? then [a.event] else []
  {
    var t := Apply(s, a);
    if a.ListenerLock? {
      var h := ListenerDecides(s);
      EventsOfNext(s.log.handled, h);
    } else {
      assert t.log.handled == s.log.handled;
      assert s.listener.Inside? <==> s.mu.ListenerHolds?;
    }
  }

  lemma Together(a: seq<Event>, b: seq<Event>, c: seq<Event>)
    ensures (a + b) + c == a + (b + c)
  {}

  lemma {:induction false} TakenAlong(s: State, run: seq<Action>)
    requires Inv(s) && Valid(s, run)
    ensures Taken(After(s, run)) == Taken(s) + Arrived(run)
    decreases |run|
  {
    if run != [] {
      var t := Apply(s, run[0]);
      TakenNext(s, run[0]);
      InvStep(s, run[0]);
      TakenAlong(t, run[1..]);
      Together(Taken(s), if run[0].EventArrives? then [run[0].event] else [], Arrived(run[1..]));
    } else {
      Together(Taken(s), [], []);
    }
  }

  /** Main result: the events handled, and after them the one that the listener holds, are exactly those that
      arrived, in order and unchanged. */
  lemma EventsArriveInOrder(run: seq<Action>)
    requires Valid(START, run)
    ensures var s := After(START, run);
            EventsOf(s.log.handled) + (if s.listener.Waiting? then [s.listener.event] else []) == Arrived(run)
  {
    TakenAlong(START, run);
    assert Taken(START) == [];
  }

  /** The listener decides on the clients that are registered when it takes the mutex: it queues the event exactly if
      there is none and the event asks for it. */
  lemma ListenerSees(s: State) returns (h: Handled)
    requires Enabled(s, ListenerLock)
    ensures Apply(s, ListenerLock).log.handled == s.log.handled + [h]
    ensures h.event == s.listener.event && h.registered == s.clients
    ensures h.outcome.Queued? <==> s.clients == {} && s.listener.event.queueIfNoClient
  {
    h := Apply(s, ListenerLock).log.handled[|s.log.handled|];
  }

  // --- every job has one reason --------------------------------------------------------------------

  predicate FromEvent(s: State, i: int, j: int) {
    0 <= i < |s.log.handled| && s.log.handled[i].outcome.Sent? && s.log.handled[i].outcome.job == j
  }

  predicate FromReplay(s: State, i: int, j: int) {
    0 <= i < |s.log.replays| && s.log.replays[i].firstJob <= j < s.log.replays[i].firstJob + Begun(s, i)
  }

  ghost predicate HasReason(s: State, j: int) { exists i :: FromEvent(s, i, j) || FromReplay(s, i, j) }

  ghost predicate ReasonsDiffer(s: State) {
    && (forall i, k, j :: FromEvent(s, i, j) && FromEvent(s, k, j) ==> i == k)
    && (forall i, k, j :: FromReplay(s, i, j) && FromReplay(s, k, j) ==> i == k)
    && (forall i, k, j :: !(FromEvent(s, i, j) && FromReplay(s, k, j)))
  }

  ghost predicate JobsInv(s: State) {
    && (forall j :: 0 <= j < |s.log.jobs| ==> HasReason(s, j))
    && ReasonsDiffer(s)
    && (s.mu.ListenerHolds? ==> |s.mu.work.events| <= 1)
  }

  lemma ReasonsInRange(s: State, i: int, j: int)
    requires Inv(s)
    ensures FromEvent(s, i, j) || FromReplay(s, i, j) ==> 0 <= j < |s.log.jobs|
  {
    if FromEvent(s, i, j) { assert WellHandled(s, s.log.handled[i]); }
    if FromReplay(s, i, j) { assert ReplayOk(s, i); }
  }

  /** The jobs and their reasons stay, but for at most one job with one reason. */
  ghost predicate GrowsBy(s: State, t: State, event: bool, replay: bool) {
    && |t.log.jobs| == |s.log.jobs| + (if event || replay then 1 else 0)
    && (forall i, j :: FromEvent(t, i, j) <==> FromEvent(s, i, j) || (event && i == |s.log.handled| && j == |s.log.jobs|))
    && (forall i, j :: FromReplay(t, i, j)
          <==> FromReplay(s, i, j) || (replay && i == |t.log.replays| - 1 && j == |s.log.jobs|))
  }

  lemma JobsGrow(s: State, t: State, event: bool, replay: bool)
    requires Inv(s) && JobsInv(s) && GrowsBy(s, t, event, replay) && !(event && replay)
    requires event ==> |t.log.handled| > |s.log.handled|
    requires replay ==> t.log.replays != []
    requires t.mu.ListenerHolds? ==> |t.mu.work.events| <= 1
    ensures JobsInv(t)
  {
    forall j | 0 <= j < |t.log.jobs| ensures HasReason(t, j) {
      if j < |s.log.jobs| {
        assert HasReason(s, j);
        var i :| FromEvent(s, i, j) || FromReplay(s, i, j);
        assert FromEvent(t, i, j) || FromReplay(t, i, j);
      } else if event {
        assert FromEvent(t, |s.log.handled|, j);
      } else {
        assert FromReplay(t, |t.log.replays| - 1, j);
      }
    }
    forall i, j | FromEvent(s, i, j) || FromReplay(s, i, j) ensures 0 <= j < |s.log.jobs| { ReasonsInRange(s, i, j); }
  }

  lemma BegunElsewhere(s: State, a: Action, i: int)
    requires Enabled(s, a) && !a.ReplayLock? && !a.NextEvent? && 0 <= i < |s.log.replays|
    ensures Apply(s, a).log.replays == s.log.replays && Begun(Apply(s, a), i) == Begun(s, i)
  {}

  lemma JobsElsewhere(s: State, a: Action)
    requires Inv(s) && JobsInv(s) && Enabled(s, a) && !a.ReplayLock? && !a.NextEvent? && !a.ListenerLock?
    ensures JobsInv(Apply(s, a))
  {
    var t := Apply(s, a);
    assert t.log.handled == s.log.handled && |t.log.jobs| == |s.log.jobs| && t.log.replays == s.log.replays;
    forall i | 0 <= i < |s.log.replays| ensures Begun(t, i) == Begun(s, i) { BegunElsewhere(s, a, i); }
    JobsGrow(s, t, false, false);
  }

  lemma JobsAtLock(s: State)
    requires Inv(s) && JobsInv(s) && Enabled(s, ListenerLock)
    ensures JobsInv(Apply(s, ListenerLock))
  {
    var t := Apply(s, ListenerLock);
    var h := ListenerDecides(s);
    forall i | 0 <= i < |s.log.replays| ensures Begun(t, i) == Begun(s, i) { BegunElsewhere(s, ListenerLock, i); }
    JobsGrow(s, t, h.outcome.Sent?, false);
  }

  lemma JobsAtReplay(s: State, h: HandlerId)
    requires Inv(s) && JobsInv(s) && Enabled(s, ReplayLock(h))
    ensures JobsInv(Apply(s, ReplayLock(h)))
  {
    var t := Apply(s, ReplayLock(h));
    assert t.log.handled == s.log.handled && |t.log.replays| == |s.log.replays| + 1;
    forall i | 0 <= i < |s.log.replays| ensures Begun(t, i) == Begun(s, i) {}
    JobsGrow(s, t, false, s.queue != []);
  }

  lemma JobsAtNext(s: State)
    requires Inv(s) && JobsInv(s) && Enabled(s, NextEvent)
    ensures JobsInv(Apply(s, NextEvent))
  {
    var t := Apply(s, NextEvent);
    assert t.log.handled == s.log.handled && t.log.replays == s.log.replays;
    var more := s.mu.ReplayHolds? && |s.mu.work.events| > 1;
    forall i | 0 <= i < |s.log.replays|
      ensures Begun(t, i) == Begun(s, i) + if more && i == |s.log.replays| - 1 then 1 else 0
    {}
    JobsGrow(s, t, false, more);
  }

  lemma JobsStep(s: State, a: Action)
    requires Inv(s) && JobsInv(s) && Enabled(s, a)
    ensures JobsInv(Apply(s, a))
  {
    if a.ListenerLock? { JobsAtLock(s); }
    else if a.ReplayLock? { JobsAtReplay(s, a.handler); }
    else if a.NextEvent? { JobsAtNext(s); }
    else { JobsElsewhere(s, a); }
  }

  lemma {:induction false} JobsAlong(s: State, run: seq<Action>)
    requires Inv(s) && JobsInv(s) && Valid(s, run)
    ensures Inv(After(s, run)) && JobsInv(After(s, run))
    decreases |run|
  {
    if run != [] {
      JobsStep(s, run[0]);
      InvStep(s, run[0]);
      JobsAlong(Apply(s, run[0]), run[1..]);
    }
  }

  /** Main result: a delivery belongs to one handled event or to one event of one replay, and to nothing else. */
  lemma NothingElseIsSent(run: seq<Action>, d: Delivery)
    requires Valid(START, run) && d in After(START, run).log.deliveries
    ensures var s := After(START, run); HasReason(s, d.job) && ReasonsDiffer(s)
  {
    JobsAlong(START, run);
    assert Due(After(START, run), d);
  }

  // --- the clients ---------------------------------------------------------------------------------

  function Registrations(run: seq<Action>): nat {
    if run == [] then 0 else (if run[0].Register? then 1 else 0) + Registrations(run[1..])
  }

  /** The id that the next client gets. */
  function NextId(s: State): nat { s.nClients + if s.mu.RegisterHolds? then 1 else 0 }

  lemma IdsNext(s: State, a: Action)
    requires Enabled(s, a)
    ensures NextId(Apply(s, a)) == NextId(s) + if a.Register? then 1 else 0
  {}

  lemma ClientsNext(s: State, a: Action, k: ClientId)
    requires Enabled(s, a)
    ensures k in Apply(s, a).clients
        <==> (k in s.clients || (a.Register? && k == NextId(s))) && a != WriterRemove(k) && a != ReaderRemove(k)
  {}

  lemma RegisteredBelow(s: State, a: Action, k: ClientId)
    requires LoopsInv(s) && IdsInv(s) && Enabled(s, a)
    ensures k in s.clients || a == WriterRemove(k) || a == ReaderRemove(k) ==> k < NextId(s)
  {}

  lemma {:induction false} ClientsAlong(s: State, run: seq<Action>, k: ClientId)
    requires Inv(s) && Valid(s, run)
    ensures NextId(After(s, run)) == NextId(s) + Registrations(run)
    ensures k in After(s, run).clients
        <==> (k in s.clients || NextId(s) <= k < NextId(s) + Registrations(run))
             && WriterRemove(k) !in run && ReaderRemove(k) !in run
    decreases |run|
  {
    if run != [] {
      IdsNext(s, run[0]);
      ClientsNext(s, run[0], k);
      RegisteredBelow(s, run[0], k);
      InvStep(s, run[0]);
      ClientsAlong(Apply(s, run[0]), run[1..], k);
      assert forall a :: a in run <==> a == run[0] || a in run[1..];
    }
  }

  /** Main result: the n-th connection to register gets the id n, counted from 0, and is registered until the first
      of its two loops removes it. */
  lemma ClientsOfRun(run: seq<Action>, k: ClientId)
    requires Valid(START, run)
    ensures k in After(START, run).clients
        <==> k < Registrations(run) && WriterRemove(k) !in run && ReaderRemove(k) !in run
  {
    ClientsAlong(START, run, k);
  }

  // --- why a write loop leaves ---------------------------------------------------------------------

  lemma LoopNext(s: State, a: Action, k: ClientId)
    requires LoopsInv(s) && IdsInv(s) && Enabled(s, a)
    ensures var t := Apply(s, a);
            && (k in t.closed <==> k in s.closed || a == CloseChan(k))
            && (WriterAt(t, k, WriterExit)
                ==> WriterAt(s, k, WriterExit) || a == WriteFails(k) || (a == SeeClosed(k) && k in s.closed))
  {}

  lemma {:induction false} LoopAlong(s: State, run: seq<Action>, k: ClientId)
    requires Inv(s) && Valid(s, run)
    ensures k in After(s, run).closed <==> k in s.closed || CloseChan(k) in run
    ensures WriterAt(After(s, run), k, WriterExit)
        ==> WriterAt(s, k, WriterExit) || k in s.closed || WriteFails(k) in run || CloseChan(k) in run
    decreases |run|
  {
    if run != [] {
      LoopNext(s, run[0], k);
      InvStep(s, run[0]);
      LoopAlong(Apply(s, run[0]), run[1..], k);
      assert forall a :: a in run <==> a == run[0] || a in run[1..];
    }
  }

  lemma LoopMayLeave(s: State, k: ClientId)
    requires Inv(s)
    ensures Enabled(s, SeeClosed(k)) <==> k in s.closed && WriterAt(s, k, Select)
    ensures Enabled(s, SeeClosed(k)) ==> WriterAt(Apply(s, SeeClosed(k)), k, WriterExit)
    ensures Enabled(s, CloseChan(k)) ==> k !in s.clients
    ensures WriterAt(s, k, Writing) ==> Enabled(s, WriteFails(k)) && WriterAt(Apply(s, WriteFails(k)), k, WriterExit)
  {
    if Enabled(s, CloseChan(k)) { assert ClientOk(s, k); }
  }

  /** Main result: a write loop leaves only after a failing write or once the read loop of its client has closed
      its channel. It can leave for the second reason whenever it waits, and the client is removed by then. */
  lemma WriteLoopLeaves(run: seq<Action>, k: ClientId)
    requires Valid(START, run)
    ensures var s := After(START, run);
            && (WriterAt(s, k, WriterExit) ==> WriteFails(k) in run || CloseChan(k) in run)
            && (Enabled(s, SeeClosed(k)) <==> CloseChan(k) in run && WriterAt(s, k, Select))
            && (Enabled(s, SeeClosed(k)) ==> WriterAt(Apply(s, SeeClosed(k)), k, WriterExit))
            && (Enabled(s, CloseChan(k)) ==> k !in s.clients)
            && (WriterAt(s, k, Writing) ==> Enabled(s, WriteFails(k)) && WriterAt(Apply(s, WriteFails(k)), k, WriterExit))
  {
    LoopAlong(START, run, k);
    InvRun(START, run);
    LoopMayLeave(After(START, run), k);
  }

  /** The messages a write loop has received, and those it has done with. */
  function Received(run: seq<Action>, k: ClientId): nat {
    if run == [] then 0 else (if run[0] == Deliver(k) || run[0] == RpcMessage(k) then 1 else 0) + Received(run[1..], k)
  }

  function Finished(run: seq<Action>, k: ClientId): nat {
    if run == [] then 0 else (if run[0] == WriteDone(k) || run[0] == WriteFails(k) then 1 else 0) + Finished(run[1..], k)
  }

  function InHand(s: State, k: ClientId): nat { if WriterAt(s, k, Writing) then 1 else 0 }

  /** The steps of the write loops, and the one that starts them. */
  predicate WriterStep(a: Action) {
    || a.Register? || a.Deliver? || a.RpcMessage? || a.WriteDone? || a.WriteFails?
    || a.SeeClosed? || a.WriterLock? || a.WriterRemove?
  }

  lemma WritersElsewhere(s: State, a: Action)
    requires Enabled(s, a) && !WriterStep(a)
    ensures Apply(s, a).writers == s.writers
  {}

  lemma MessageMoves(s: State, a: Action, k: ClientId)
    requires LoopsInv(s) && IdsInv(s) && Enabled(s, a) && WriterStep(a)
    ensures InHand(Apply(s, a), k)
         == if a == Deliver(k) || a == RpcMessage(k) then 1
            else if a == WriteDone(k) || a == WriteFails(k) then 0 else InHand(s, k)
    ensures a == Deliver(k) || a == RpcMessage(k) ==> InHand(s, k) == 0
    ensures a == WriteDone(k) || a == WriteFails(k) ==> InHand(s, k) == 1
  {}

  lemma MessageNext(s: State, a: Action, k: ClientId)
    requires Inv(s) && Enabled(s, a)
    ensures InHand(s, k) + Received([a], k) == InHand(Apply(s, a), k) + Finished([a], k)
  {
    assert [a][1..] == [];
    if WriterStep(a) { MessageMoves(s, a, k); } else { WritersElsewhere(s, a); }
  }

  lemma {:induction false} MessagesAlong(s: State, run: seq<Action>, k: ClientId)
    requires Inv(s) && Valid(s, run)
    ensures InHand(s, k) + Received(run, k) == InHand(After(s, run), k) + Finished(run, k)
    decreases |run|
  {
    if run != [] {
      MessageNext(s, run[0], k);
      InvStep(s, run[0]);
      MessagesAlong(Apply(s, run[0]), run[1..], k);
      assert [run[0]][1..] == [];
    }
  }

  /** Main result: a write loop is in its write exactly while it has received one message more than it has written or
      failed to write; so it never takes a message before it is done with the last. */
  lemma OneMessageAtATime(run: seq<Action>, k: ClientId)
    requires Valid(START, run)
    ensures Received(run, k) == Finished(run, k) + if WriterAt(After(START, run), k, Writing) then 1 else 0
  {
    MessagesAlong(START, run, k);
  }

  // --- how a client goes -----------------------------------------------------------------------------

  lemma Steps(s: State, a: Action, rest: seq<Action>)
    requires Enabled(s, a) && Valid(Apply(s, a), rest)
    ensures Valid(s, [a] + rest) && After(s, [a] + rest) == After(Apply(s, a), rest)
  {
    assert ([a] + rest)[1..] == rest;
  }

  lemma WriterGoes(s: State, k: ClientId)
    requires s.mu.Free? && WriterAt(s, k, WriterExit)
    ensures Valid(s, [WriterLock(k)] + [WriterRemove(k)])
    ensures After(s, [WriterLock(k)] + [WriterRemove(k)])
         == s.(clients := s.clients - {k}, writers := s.writers[k := WriterRemoving][k := WriterDone])
  {
    var t := Apply(s, WriterLock(k));
    var u := Apply(t, WriterRemove(k));
    Steps(t, WriterRemove(k), []);
    assert [WriterRemove(k)] + [] == [WriterRemove(k)];
    Steps(s, WriterLock(k), [WriterRemove(k)]);
  }

  /** Main result: once a write has failed and the mutex is free, the write loop can remove its client and end. */
  lemma FailedWriteRemoves(s: State, k: ClientId)
    requires s.mu.Free? && WriterAt(s, k, Writing)
    ensures var run := [WriteFails(k)] + ([WriterLock(k)] + [WriterRemove(k)]);
            Valid(s, run) && After(s, run).mu.Free? && k !in After(s, run).clients && WriterAt(After(s, run), k, WriterDone)
            && After(s, run).readers == s.readers
  {
    WriterGoes(Apply(s, WriteFails(k)), k);
    Steps(s, WriteFails(k), [WriterLock(k)] + [WriterRemove(k)]);
  }

  lemma ReaderGoes(s: State, k: ClientId, rest: seq<Action>)
    requires s.mu.Free? && ReaderAt(s, k, Reading)
    requires Valid(s.(clients := s.clients - {k}, closed := s.closed + {k},
                      readers := s.readers[k := ReaderExit][k := ReaderRemoving][k := Closing][k := ReaderDone]), rest)
    ensures var run := [ReadFails(k)] + ([ReaderLock(k)] + ([ReaderRemove(k)] + ([CloseChan(k)] + rest)));
            Valid(s, run)
            && After(s, run)
               == After(s.(clients := s.clients - {k}, closed := s.closed + {k},
                           readers := s.readers[k := ReaderExit][k := ReaderRemoving][k := Closing][k := ReaderDone]), rest)
  {
    var t := Apply(s, ReadFails(k));
    var u := Apply(t, ReaderLock(k));
    var v := Apply(u, ReaderRemove(k));
    Steps(v, CloseChan(k), rest);
    Steps(u, ReaderRemove(k), [CloseChan(k)] + rest);
    Steps(t, ReaderLock(k), [ReaderRemove(k)] + ([CloseChan(k)] + rest));
    Steps(s, ReadFails(k), [ReaderLock(k)] + ([ReaderRemove(k)] + ([CloseChan(k)] + rest)));
  }

  /** Main result: when the connection of a client fails while its write loop waits and the mutex is free, the read loop
      can remove it, close its channel and end, and then the write loop, which removes it once more. */
  lemma DisconnectRemoves(s: State, k: ClientId)
    requires s.mu.Free? && ReaderAt(s, k, Reading) && WriterAt(s, k, Select)
    ensures var run := [ReadFails(k)] + ([ReaderLock(k)] + ([ReaderRemove(k)] + ([CloseChan(k)]
                       + ([SeeClosed(k)] + ([WriterLock(k)] + [WriterRemove(k)])))));
            Valid(s, run) && After(s, run).mu.Free? && k !in After(s, run).clients
            && ReaderAt(After(s, run), k, ReaderDone) && WriterAt(After(s, run), k, WriterDone)
  {
    var t := s.(clients := s.clients - {k}, closed := s.closed + {k},
                readers := s.readers[k := ReaderExit][k := ReaderRemoving][k := Closing][k := ReaderDone]);
    WriterGoes(Apply(t, SeeClosed(k)), k);
    Steps(t, SeeClosed(k), [WriterLock(k)] + [WriterRemove(k)]);
    ReaderGoes(s, k, [SeeClosed(k)] + ([WriterLock(k)] + [WriterRemove(k)]));
  }

  // --- how a client comes ------------------------------------------------------------------------------

  /** How often a connection has replayed the queue. */
  function Replays(run: seq<Action>, h: HandlerId): nat {
    if run == [] then 0 else (if run[0] == ReplayLock(h) then 1 else 0) + Replays(run[1..], h)
  }

  predicate HasReplayed(s: State, h: HandlerId) { HandlerAt(s, h, Replaying) || HandlerAt(s, h, Connected) }

  /** The steps of the connecting handlers. */
  predicate HandlerMoves(a: Action) { a.Connect? || a.Register? || a.CountUp? || a.ReplayLock? || a.Unlock? }

  lemma HandlersStay(s: State, a: Action)
    requires Enabled(s, a) && !HandlerMoves(a)
    ensures Apply(s, a).handlers == s.handlers
  {}

  lemma ReplayMoves(s: State, a: Action, h: HandlerId)
    requires HoldersInv(s) && Enabled(s, a) && HandlerMoves(a)
    ensures HasReplayed(Apply(s, a), h) <==> HasReplayed(s, h) || a == ReplayLock(h)
    ensures HasReplayed(s, h) ==> a != ReplayLock(h)
  {}

  lemma ReplayNext(s: State, a: Action, h: HandlerId)
    requires Inv(s) && Enabled(s, a)
    ensures HasReplayed(Apply(s, a), h) <==> HasReplayed(s, h) || a == ReplayLock(h)
    ensures HasReplayed(s, h) ==> a != ReplayLock(h)
  {
    if HandlerMoves(a) { ReplayMoves(s, a, h); } else { HandlersStay(s, a); }
  }

  lemma {:induction false} ReplaysAlong(s: State, run: seq<Action>, h: HandlerId)
    requires Inv(s) && Valid(s, run)
    ensures Replays(run, h) + (if HasReplayed(s, h) then 1 else 0) == if HasReplayed(After(s, run), h) then 1 else 0
    decreases |run|
  {
    if run != [] {
      ReplayNext(s, run[0], h);
      InvStep(s, run[0]);
      ReplaysAlong(Apply(s, run[0]), run[1..], h);
    }
  }

  /** Main result: a connection replays the queue once, and none is connected without. */
  lemma ConnectedHasReplayed(run: seq<Action>, h: HandlerId)
    requires Valid(START, run)
    ensures Replays(run, h) == if HasReplayed(After(START, run), h) then 1 else 0
    ensures HandlerAt(After(START, run), h, Connected) ==> Replays(run, h) == 1
  {
    ReplaysAlong(START, run, h);
  }

  /** Main result: with the mutex free, a new connection can register under the next id, its two loops waiting, and
      begin to send the whole queue to every client, itself included. */
  lemma ConnectionGoesOn(s: State, h: HandlerId)
    requires s.mu.Free? && HandlerAt(s, h, WaitRegister)
    ensures var run := [Register(h)] + ([CountUp(h)] + [ReplayLock(h)]);
            && Valid(s, run)
            && var t := After(s, run);
               && t.clients == s.clients + {s.nClients} && t.nClients == s.nClients + 1 && t.queue == s.queue
               && WriterAt(t, s.nClients, Select) && ReaderAt(t, s.nClients, Reading) && HandlerAt(t, h, Replaying)
               && t.mu == ReplayHolds(h, Broadcast(s.queue, if s.queue == [] then {} else t.clients, None))
  {
    var t := Apply(s, Register(h));
    var u := Apply(t, CountUp(h));
    Steps(u, ReplayLock(h), []);
    assert [ReplayLock(h)] + [] == [ReplayLock(h)];
    Steps(t, CountUp(h), [ReplayLock(h)]);
    Steps(s, Register(h), [CountUp(h)] + [ReplayLock(h)]);
  }

  /** Main result: what does not need the mutex never waits for it: events arrive at an idle listener, connections come
      up, write loops receive RPC answers and finish or fail their writes, and reads fail, whoever holds it. */
  lemma NothingElseWaits(s: State, e: Event, h: HandlerId, k: ClientId)
    ensures Enabled(s, EventArrives(e)) <==> s.listener == Idle
    ensures Enabled(s, Connect(h)) <==> h !in s.handlers
    ensures Enabled(s, RpcMessage(k)) <==> WriterAt(s, k, Select)
    ensures Enabled(s, WriteDone(k)) <==> WriterAt(s, k, Writing)
    ensures Enabled(s, WriteFails(k)) <==> WriterAt(s, k, Writing)
    ensures Enabled(s, ReadFails(k)) <==> ReaderAt(s, k, Reading)
  {}

  // --- the mutex -----------------------------------------------------------------------------------

  /** The same goroutine holds the mutex. */
  predicate SameHolder(a: Holder, b: Holder) {
    || (a.Free? && b.Free?)
    || (a.ListenerHolds? && b.ListenerHolds?)
    || (a.ReplayHolds? && b.ReplayHolds? && a.handler == b.handler)
    || (a.RegisterHolds? && a == b) || (a.ReaderHolds? && a == b) || (a.WriterHolds? && a == b)
  }

  /** Main result: the mutex is taken only when it is free, and only by the listener, a connecting handler or a loop
      that removes its client. */
  lemma MutexIsTakenFree(s: State, a: Action)
    requires Enabled(s, a) && !SameHolder(s.mu, Apply(s, a).mu)
    ensures s.mu.Free? || Apply(s, a).mu.Free?
    ensures s.mu.Free? ==> a.ListenerLock? || a.Register? || a.ReplayLock? || a.WriterLock? || a.ReaderLock?
  {}
}
