/** The middleware's event fan-out as interleaved steps: the event listener, connecting handlers
    and every client's read and write loop share one mutex, the client map, the event queue and
    unbuffered channels. */
module EventHub {
  import opened Options

  type ClientId = nat
  type HandlerId = nat

  datatype Event = Event(identifier: string, queueIfNoClient: bool)

  /** A holder of the mutex walking over events and, for each, over the registered clients.
      `todo` are the clients the current event has not reached, `target` the one whose channel
      the holder is blocked on. */
  datatype Broadcast = Broadcast(events: seq<Event>, todo: set<ClientId>, target: Option<ClientId>)

  /** Who holds Handlers.mu. */
  datatype Holder =
    | Free
    | ListenerHolds(work: Broadcast)
    | ReplayHolds(handler: HandlerId, work: Broadcast)
    | RegisterHolds(handler: HandlerId)
    | ReaderHolds(client: ClientId)
    | WriterHolds(client: ClientId)

  datatype Listener = Idle | Waiting(event: Event) | Inside
  datatype Handler = WaitRegister | Registering | WaitReplay | Replaying | Connected
  datatype Writer = Select | Writing | WriterExit | WriterRemoving | WriterDone
  datatype Reader = Reading | ReaderExit | ReaderRemoving | Closing | ReaderDone

  /** What became of a handled event. */
  datatype Outcome = Queued(position: nat) | Sent(job: nat)
  datatype Handled = Handled(event: Event, registered: set<ClientId>, outcome: Outcome)

  /** One receive of a write loop: of which job, by which client, carrying which event. */
  datatype Delivery = Delivery(job: int, client: ClientId, event: Event)

  /** One event sent to the clients registered when its sending began. */
  datatype Job = Job(event: Event, targets: set<ClientId>)

  /** The second critical section of a connection: the queue as it was, sent as consecutive jobs. */
  datatype Replay = Replay(handler: HandlerId, length: nat, firstJob: nat, registered: set<ClientId>)

  /** What has happened so far. `owner` is the connection each client id was given to. */
  datatype Log = Log(
    owner: map<ClientId, HandlerId>,
    handled: seq<Handled>,
    jobs: seq<Job>,
    deliveries: multiset<Delivery>,
    replays: seq<Replay>)

  datatype State = State(
    mu: Holder,
    clients: set<ClientId>,
    queue: seq<Event>,
    nClients: nat,
    listener: Listener,
    handlers: map<HandlerId, Handler>,
    writers: map<ClientId, Writer>,
    readers: map<ClientId, Reader>,
    closed: set<ClientId>,
    log: Log)

  const START := State(Free, {}, [], 0, Idle, map[], map[], map[], {}, Log(map[], [], [], multiset{}, []))

  datatype Action =
    | EventArrives(event: Event)     // <-middlewareEvents
    | ListenerLock                   // mu.Lock and the decision to queue or to fan out
    | Pick(client: ClientId)         // next key of the client map
    | Deliver(client: ClientId)      // the unbuffered send meets the write loop's receive
    | NextEvent                      // inner loop over the clients finished
    | Unlock
    | Connect(handler: HandlerId)    // websocket upgraded, noise established
    | Register(handler: HandlerId)   // mu.Lock, clientsMap[nClients] = ..., runWebsocket
    | CountUp(handler: HandlerId)    // nClients++, mu.Unlock
    | ReplayLock(handler: HandlerId)
    | RpcMessage(client: ClientId)   // an RPC answer on the same channel
    | WriteDone(client: ClientId)
    | WriteFails(client: ClientId)
    | SeeClosed(client: ClientId)    // <-closeChan
    | WriterLock(client: ClientId)
    | WriterRemove(client: ClientId)
    | ReadFails(client: ClientId)
    | ReaderLock(client: ClientId)
    | ReaderRemove(client: ClientId)
    | CloseChan(client: ClientId)

  predicate Sending(mu: Holder) { mu.ListenerHolds? || mu.ReplayHolds? }

  function WithWork(mu: Holder, work: Broadcast): Holder
    requires Sending(mu)
  {
    match mu
    case ListenerHolds(_) => ListenerHolds(work)
    case ReplayHolds(h, _) => ReplayHolds(h, work)
  }

  predicate WriterAt(s: State, k: ClientId, pc: Writer) { k in s.writers && s.writers[k] == pc }
  predicate ReaderAt(s: State, k: ClientId, pc: Reader) { k in s.readers && s.readers[k] == pc }
  predicate HandlerAt(s: State, h: HandlerId, pc: Handler) { h in s.handlers && s.handlers[h] == pc }

  predicate Enabled(s: State, a: Action) {
    match a
    case EventArrives(_) => s.listener.Idle?
    case ListenerLock => s.mu.Free? && s.listener.Waiting?
    case Pick(k) => Sending(s.mu) && s.mu.work.events != [] && s.mu.work.target.None? && k in s.mu.work.todo
    case Deliver(k) => Sending(s.mu) && s.mu.work.events != [] && s.mu.work.target == Some(k) && WriterAt(s, k, Select)
    case NextEvent => Sending(s.mu) && s.mu.work.events != [] && s.mu.work.target.None? && s.mu.work.todo == {}
    case Unlock => Sending(s.mu) && s.mu.work.events == []
    case Connect(h) => h !in s.handlers
    case Register(h) => s.mu.Free? && HandlerAt(s, h, WaitRegister)
    case CountUp(h) => s.mu == RegisterHolds(h)
    case ReplayLock(h) => s.mu.Free? && HandlerAt(s, h, WaitReplay)
    case RpcMessage(k) => WriterAt(s, k, Select)
    case WriteDone(k) => WriterAt(s, k, Writing)
    case WriteFails(k) => WriterAt(s, k, Writing)
    case SeeClosed(k) => WriterAt(s, k, Select) && k in s.closed
    case WriterLock(k) => s.mu.Free? && WriterAt(s, k, WriterExit)
    case WriterRemove(k) => s.mu == WriterHolds(k)
    case ReadFails(k) => ReaderAt(s, k, Reading)
    case ReaderLock(k) => s.mu.Free? && ReaderAt(s, k, ReaderExit)
    case ReaderRemove(k) => s.mu == ReaderHolds(k)
    case CloseChan(k) => ReaderAt(s, k, Closing)
  }

  /** Begin sending `events` one after the other, each to the clients registered now. */
  function Begin(s: State, events: seq<Event>): Broadcast {
    Broadcast(events, if events == [] then {} else s.clients, None)
  }

  function BeginJob(s: State, events: seq<Event>): seq<Job> {
    if events == [] then s.log.jobs else s.log.jobs + [Job(events[0], s.clients)]
  }

  function Apply(s: State, a: Action): State
    requires Enabled(s, a)
  {
    match a
    case EventArrives(e) => s.(listener := Waiting(e))
    case ListenerLock =>
      var e := s.listener.event;
      if s.clients == {} && e.queueIfNoClient then
        s.(mu := ListenerHolds(Begin(s, [])), listener := Inside, queue := s.queue + [e],
           log := s.log.(handled := s.log.handled + [Handled(e, s.clients, Queued(|s.queue|))]))
      else
        s.(mu := ListenerHolds(Begin(s, [e])), listener := Inside,
           log := s.log.(jobs := BeginJob(s, [e]), handled := s.log.handled + [Handled(e, s.clients, Sent(|s.log.jobs|))]))
    case Pick(k) => s.(mu := WithWork(s.mu, s.mu.work.(target := Some(k))))
    case Deliver(k) =>
      s.(mu := WithWork(s.mu, Broadcast(s.mu.work.events, s.mu.work.todo - {k}, None)),
         writers := s.writers[k := Writing],
         log := s.log.(deliveries := s.log.deliveries + multiset{Delivery(|s.log.jobs| - 1, k, s.mu.work.events[0])}))
    case NextEvent =>
      var rest := s.mu.work.events[1..];
      s.(mu := WithWork(s.mu, Begin(s, rest)), log := s.log.(jobs := BeginJob(s, rest)))
    case Unlock =>
      if s.mu.ListenerHolds? then s.(mu := Free, listener := Idle)
      else s.(mu := Free, handlers := s.handlers[s.mu.handler := Connected])
    case Connect(h) => s.(handlers := s.handlers[h := WaitRegister])
    case Register(h) =>
      s.(mu := RegisterHolds(h), handlers := s.handlers[h := Registering],
         clients := s.clients + {s.nClients}, writers := s.writers[s.nClients := Select],
         readers := s.readers[s.nClients := Reading],
         log := s.log.(owner := s.log.owner[s.nClients := h]))
    case CountUp(h) => s.(mu := Free, nClients := s.nClients + 1, handlers := s.handlers[h := WaitReplay])
    case ReplayLock(h) =>
      s.(mu := ReplayHolds(h, Begin(s, s.queue)), handlers := s.handlers[h := Replaying],
         log := s.log.(jobs := BeginJob(s, s.queue),
                       replays := s.log.replays + [Replay(h, |s.queue|, |s.log.jobs|, s.clients)]))
    case RpcMessage(k) => s.(writers := s.writers[k := Writing])
    case WriteDone(k) => s.(writers := s.writers[k := Select])
    case WriteFails(k) => s.(writers := s.writers[k := WriterExit])
    case SeeClosed(k) => s.(writers := s.writers[k := WriterExit])
    case WriterLock(k) => s.(mu := WriterHolds(k), writers := s.writers[k := WriterRemoving])
    case WriterRemove(k) => s.(mu := Free, clients := s.clients - {k}, writers := s.writers[k := WriterDone])
    case ReadFails(k) => s.(readers := s.readers[k := ReaderExit])
    case ReaderLock(k) => s.(mu := ReaderHolds(k), readers := s.readers[k := ReaderRemoving])
    case ReaderRemove(k) => s.(mu := Free, clients := s.clients - {k}, readers := s.readers[k := Closing])
    case CloseChan(k) => s.(closed := s.closed + {k}, readers := s.readers[k := ReaderDone])
  }

  // --- runs --------------------------------------------------------------------------------------

  predicate Valid(s: State, run: seq<Action>)
    decreases |run|
  {
    run == [] || (Enabled(s, run[0]) && Valid(Apply(s, run[0]), run[1..]))
  }

  function After(s: State, run: seq<Action>): State
    requires Valid(s, run)
    decreases |run|
  {
    if run == [] then s else After(Apply(s, run[0]), run[1..])
  }

  ghost predicate Reachable(s: State) { exists run :: Valid(START, run) && After(START, run) == s }
}
