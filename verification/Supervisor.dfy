/** bbbsupervisor: what the event handler does to the system, restart rate limits and the tracking
    of the initial block download (IBD). Times are nanoseconds since the epoch. */
module Supervisor {
  import opened Options

  datatype Trigger = ElectrsFullySynced | ElectrsNoBitcoindConnectivity | MiddlewareNoBitcoindConnectivity
                   | PrometheusBitcoindIbd | Unknown(n: int)

  datatype Incoming = WatcherError | Event(trigger: Trigger, value: real)

  /** How the outside world answers while one event is handled. */
  datatype World = World(
    now: nat,                  // when the flooding check looks at the clock
    completed: nat,            // and when it is looked at after a successful restart
    restarts: bool,            // systemctl restart succeeds
    height: Option<real>,      // bitcoin_blocks from Prometheus, if it answers
    clearnet: Option<int>,     // bitcoind:ibd-clearnet from Redis, if it is an integer
    setsClearnet: bool,        // bbb-config.sh set bitcoin_ibd_clearnet succeeds
    setsIbd: bool)             // bbb-config.sh set bitcoin_ibd succeeds

  /** What the supervisor does and learns, in order. */
  datatype Effect =
    | Restart(trigger: Trigger, unit: string, started: nat, completed: nat, ok: bool)
    | HeightRead(height: real)
    | ClearnetRead(value: int)
    | SetClearnetOff(ok: bool)
    | SetIbd(on: bool, ok: bool)

  const SECOND: nat := 1_000_000_000
  const MIN_DELAY: nat := 30 * SECOND
  const MIN_BLOCK_HEIGHT: real := 596000.0

  /** The supervisor's state. */
  datatype Memory = Memory(last: map<Trigger, nat>, ibd: real)

  const START := Memory(map[], -1.0)

  function LastOf(m: Memory, t: Trigger): nat { if t in m.last then m.last[t] else 0 }

  /** Less than the minimal delay since the whole second in which the trigger was last served. */
  predicate IsFlooding(now: nat, last: nat) { now - last * SECOND < MIN_DELAY }

  datatype Outcome = Outcome(memory: Memory, effects: seq<Effect>, ok: bool)

  function RestartOutcome(m: Memory, t: Trigger, unit: string, w: World): Outcome {
    if IsFlooding(w.now, LastOf(m, t)) then Outcome(m, [], false)
    else Outcome(if w.restarts then m.(last := m.last[t := w.completed / SECOND]) else m,
                 [Restart(t, unit, w.now, w.completed, w.restarts)], w.restarts)
  }

  /** The height as checkBlockHeight sees it: a failing query reads as 0, its error is ignored. */
  function HeightSeen(w: World): real { if w.height.Some? then w.height.value else 0.0 }

  /** disableBaseIBDState: effects, and whether all succeeded. */
  function DisableEffects(w: World): (seq<Effect>, bool) {
    var seen := [HeightRead(HeightSeen(w))];
    if HeightSeen(w) < MIN_BLOCK_HEIGHT then (seen, false)
    else if w.clearnet.None? then (seen, false)
    else
      var found := seen + [ClearnetRead(w.clearnet.value)];
      if w.clearnet.value == 1 && !w.setsClearnet then (found + [SetClearnetOff(false)], false)
      else
        ((if w.clearnet.value == 1 then found + [SetClearnetOff(true)] else found) + [SetIbd(false, w.setsIbd)], w.setsIbd)
  }

  function IbdOutcome(m: Memory, value: real, w: World): Outcome {
    if value != 1.0 && value != 0.0 then Outcome(m, [], false)
    else if m.ibd == value then Outcome(m, [], true)
    else
      var (effects, ok) := if value == 1.0 then ([SetIbd(true, w.setsIbd)], w.setsIbd) else DisableEffects(w);
      Outcome(if ok then m.(ibd := value) else m, effects, ok)
  }

  function Handled(m: Memory, incoming: Incoming, w: World): Outcome {
    match incoming
    case WatcherError => Outcome(m, [], false)
    case Event(trigger, value) =>
      match trigger
      case ElectrsFullySynced => RestartOutcome(m, trigger, "electrs", w)
      case ElectrsNoBitcoindConnectivity => RestartOutcome(m, trigger, "electrs", w)
      case MiddlewareNoBitcoindConnectivity => RestartOutcome(m, trigger, "bbbmiddleware", w)
      case PrometheusBitcoindIbd => IbdOutcome(m, value, w)
      case Unknown(_) => Outcome(m, [], false)
  }

  // --- the program -----------------------------------------------------------------------------------

  class Supervisor {
    var triggerLastExecuted: map<Trigger, nat>
    var prometheusLastStateIbd: real
    /** Everything done so far. */
    var log: seq<Effect>

    function State(): Memory
      reads this
    {
      Memory(triggerLastExecuted, prometheusLastStateIbd)
    }

    constructor ()
      ensures State() == START && log == []
    {
      triggerLastExecuted, prometheusLastStateIbd, log := map[], -1.0, [];
    }

    /** The three restart handlers, which differ in the unit. */
    method HandleRestart(t: Trigger, unit: string, w: World) returns (ok: bool)
      modifies this
      ensures Outcome(State(), log, ok)
           == var o := RestartOutcome(old(State()), t, unit, w); Outcome(o.memory, old(log) + o.effects, o.ok)
    {
      var last := if t in triggerLastExecuted then triggerLastExecuted[t] else 0;
      if IsFlooding(w.now, last) {
        assert log == log + [];
        return false;
      }
      log := log + [Restart(t, unit, w.now, w.completed, w.restarts)];
      if !w.restarts {
        return false;
      }
      triggerLastExecuted := triggerLastExecuted[t := w.completed / SECOND];
      return true;
    }

    /** checkBlockHeight */
    method CheckBlockHeight(minHeight: real, w: World) returns (ok: bool)
      modifies this`log
      ensures ok == (HeightSeen(w) >= minHeight) && log == old(log) + [HeightRead(HeightSeen(w))]
    {
      var blockHeight := match w.height case Some(h) => h case None => 0.0;
      log := log + [HeightRead(blockHeight)];
      return blockHeight >= minHeight;
    }

    /** unsetClearnetIDB */
    method UnsetClearnetIbd(w: World) returns (ok: bool)
      modifies this`log
      ensures ok <==> w.clearnet.Some? && (w.clearnet.value == 1 ==> w.setsClearnet)
      ensures log == old(log) + if w.clearnet.None? then []
                                else if w.clearnet.value == 1 then [ClearnetRead(1), SetClearnetOff(w.setsClearnet)]
                                else [ClearnetRead(w.clearnet.value)]
    {
      match w.clearnet {
        case None => return false;
        case Some(isIbdClearnet) =>
          log := log + [ClearnetRead(isIbdClearnet)];
          if isIbdClearnet == 1 {
            log := log + [SetClearnetOff(w.setsClearnet)];
            if !w.setsClearnet {
              return false;
            }
          }
          return true;
      }
    }

    /** disableBaseIBDState */
    method DisableBaseIbdState(w: World) returns (ok: bool)
      modifies this`log
      ensures ok == DisableEffects(w).1 && log == old(log) + DisableEffects(w).0
    {
      ok := CheckBlockHeight(MIN_BLOCK_HEIGHT, w);
      if !ok {
        return false;
      }
      ok := UnsetClearnetIbd(w);
      if !ok {
        return false;
      }
      log := log + [SetIbd(false, w.setsIbd)];
      return w.setsIbd;
    }

    /** handleBitcoindIBD */
    method HandleBitcoindIbd(isActive: real, w: World) returns (ok: bool)
      requires prometheusLastStateIbd == -1.0 || prometheusLastStateIbd == 0.0 || prometheusLastStateIbd == 1.0
      modifies this
      ensures Outcome(State(), log, ok)
           == var o := IbdOutcome(old(State()), isActive, w); Outcome(o.memory, old(log) + o.effects, o.ok)
    {
      var wasActive := prometheusLastStateIbd;
      if isActive != 1.0 && isActive != 0.0 {
        assert log == log + [];
        return false;
      }
      if wasActive == isActive {
        assert log == log + [];
        return true;
      }
      if wasActive == -1.0 {
        if isActive == 1.0 {
          log := log + [SetIbd(true, w.setsIbd)];
          ok := w.setsIbd;
        } else {
          ok := DisableBaseIbdState(w);
        }
        if !ok {
          return false;
        }
        prometheusLastStateIbd := isActive;
        return true;
      }
      if wasActive == 1.0 && isActive == 0.0 {
        ok := DisableBaseIbdState(w);
        if !ok {
          return false;
        }
        prometheusLastStateIbd := isActive;
      } else if wasActive == 0.0 && isActive == 1.0 {
        log := log + [SetIbd(true, w.setsIbd)];
        if !w.setsIbd {
          return false;
        }
        prometheusLastStateIbd := isActive;
      }
      return true;
    }

    /** eventHandler: a panic is recovered from and leaves the loop running. */
    method EventHandler(incoming: Incoming, w: World) returns (ok: bool)
      requires prometheusLastStateIbd == -1.0 || prometheusLastStateIbd == 0.0 || prometheusLastStateIbd == 1.0
      modifies this
      ensures Outcome(State(), log, ok)
           == var o := Handled(old(State()), incoming, w); Outcome(o.memory, old(log) + o.effects, o.ok)
    {
      match incoming {
        case WatcherError =>
          assert log == log + [];
          return false;
        case Event(trigger, value) =>
          match trigger {
            case ElectrsFullySynced => ok := HandleRestart(trigger, "electrs", w);
            case ElectrsNoBitcoindConnectivity => ok := HandleRestart(trigger, "electrs", w);
            case MiddlewareNoBitcoindConnectivity => ok := HandleRestart(trigger, "bbbmiddleware", w);
            case PrometheusBitcoindIbd => ok := HandleBitcoindIbd(value, w);
            case Unknown(_) =>
              assert log == log + [];
              return false;
          }
      }
    }
  }
}
