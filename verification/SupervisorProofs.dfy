/** What holds over every run of the supervisor, whatever fails around it. */
module SupervisorProofs {
  import opened Options
  import opened Supervisor

  datatype Step = Step(incoming: Incoming, world: World)

  datatype Run = Run(memory: Memory, log: seq<Effect>)

  function After(steps: seq<Step>): Run {
    if steps == [] then Run(START, [])
    else
      var before, step := After(steps[..|steps| - 1]), steps[|steps| - 1];
      var o := Handled(before.memory, step.incoming, step.world);
      Run(o.memory, before.log + o.effects)
  }

  // --- the IBD setting ---------------------------------------------------------------------------

  /** The successful `bitcoin_ibd` settings, in order. */
  function Settings(log: seq<Effect>): seq<bool> {
    if log == [] then []
    else Settings(log[..|log| - 1]) + (match log[|log| - 1] case SetIbd(on, true) => [on] case _ => [])
  }

  predicate Alternating(settings: seq<bool>) { forall i :: 0 <= i < |settings| - 1 ==> settings[i] != settings[i + 1] }

  function Tracked(settings: seq<bool>): real {
    if settings == [] then -1.0 else if settings[|settings| - 1] then 1.0 else 0.0
  }

  /** Right before entry i a sufficient height was read and clearnet IBD was found or set off. */
  predicate Guarded(log: seq<Effect>, i: nat)
    requires i < |log|
  {
    || (i >= 2 && IsHigh(log[i - 2]) && IsFoundOff(log[i - 1]))
    || (i >= 3 && IsHigh(log[i - 3]) && log[i - 2] == ClearnetRead(1) && log[i - 1] == SetClearnetOff(true))
  }

  predicate IsHigh(e: Effect) { e.HeightRead? && e.height >= 596000.0 }

  predicate IsFoundOff(e: Effect) { e.ClearnetRead? && e.value != 1 }

  ghost predicate SettingsGuarded(log: seq<Effect>) {
    forall i :: 0 <= i < |log| && log[i].SetIbd? && !log[i].on ==> Guarded(log, i)
  }

  lemma SettingsNext(log: seq<Effect>, e: Effect)
    ensures Settings(log + [e]) == Settings(log) + (match e case SetIbd(on, true) => [on] case _ => [])
  {
    assert (log + [e])[..|log|] == log;
  }

  /** Effects without a successful setting. */
  lemma {:induction false} SettingsSame(log: seq<Effect>, effects: seq<Effect>)
    requires forall i :: 0 <= i < |effects| ==> !(effects[i].SetIbd? && effects[i].ok)
    ensures Settings(log + effects) == Settings(log)
  {
    if effects == [] {
      assert log + effects == log;
    } else {
      var n := |effects| - 1;
      assert log + effects == (log + effects[..n]) + [effects[n]];
      SettingsNext(log + effects[..n], effects[n]);
      SettingsSame(log, effects[..n]);
    }
  }

  lemma GuardedLater(log: seq<Effect>, effects: seq<Effect>)
    requires SettingsGuarded(log)
    requires forall i :: 0 <= i < |effects| && effects[i].SetIbd? && !effects[i].on ==> Guarded(effects, i)
    ensures SettingsGuarded(log + effects)
  {
    var all := log + effects;
    forall i | 0 <= i < |all| && all[i].SetIbd? && !all[i].on ensures Guarded(all, i) {
      if i < |log| {
        assert Guarded(log, i);
      } else {
        assert all[i] == effects[i - |log|] && Guarded(effects, i - |log|);
        assert forall j :: 0 <= j < |effects| ==> all[|log| + j] == effects[j];
      }
    }
  }

  ghost predicate IbdInv(r: Run) {
    && Alternating(Settings(r.log))
    && r.memory.ibd == Tracked(Settings(r.log))
    && SettingsGuarded(r.log)
  }

  /** Disabling ends with the setting, or before it. */
  lemma DisableShape(w: World)
    ensures var (effects, ok) := DisableEffects(w);
            && (forall i :: 0 <= i < |effects| - 1 ==> !effects[i].SetIbd?)
            && (effects[|effects| - 1].SetIbd? ==> effects[|effects| - 1] == SetIbd(false, ok) && Guarded(effects, |effects| - 1))
            && (ok ==> effects[|effects| - 1].SetIbd?)
            && effects != []
  {}

  lemma SettingTracked(r: Run, on: bool)
    requires IbdInv(r) && r.memory.ibd != Tracked([on])
    ensures Alternating(Settings(r.log) + [on]) && Tracked(Settings(r.log) + [on]) == Tracked([on])
  {}

  lemma EnableKeeps(r: Run, w: World)
    requires IbdInv(r) && r.memory.ibd != 1.0
    ensures var o := IbdOutcome(r.memory, 1.0, w); IbdInv(Run(o.memory, r.log + o.effects))
  {
    var e := SetIbd(true, w.setsIbd);
    SettingsNext(r.log, e);
    GuardedLater(r.log, [e]);
    SettingTracked(r, true);
  }

  lemma DisableKeeps(r: Run, w: World)
    requires IbdInv(r) && r.memory.ibd != 0.0
    ensures var o := IbdOutcome(r.memory, 0.0, w); IbdInv(Run(o.memory, r.log + o.effects))
  {
    var (effects, ok) := DisableEffects(w);
    var n := |effects| - 1;
    DisableShape(w);
    GuardedLater(r.log, effects);
    if ok {
      assert r.log + effects == (r.log + effects[..n]) + [effects[n]];
      SettingsSame(r.log, effects[..n]);
      SettingsNext(r.log + effects[..n], effects[n]);
      SettingTracked(r, false);
    } else {
      SettingsSame(r.log, effects);
    }
  }

  lemma StepKeepsIbd(r: Run, step: Step)
    requires IbdInv(r)
    ensures var o := Handled(r.memory, step.incoming, step.world); IbdInv(Run(o.memory, r.log + o.effects))
  {
    var o := Handled(r.memory, step.incoming, step.world);
    var value := if step.incoming.Event? then step.incoming.value else 0.0;
    if step.incoming.Event? && step.incoming.trigger.PrometheusBitcoindIbd?
       && r.memory.ibd != value && (value == 1.0 || value == 0.0) {
      if value == 1.0 { EnableKeeps(r, step.world); } else { DisableKeeps(r, step.world); }
    } else {
      SettingsSame(r.log, o.effects);
      GuardedLater(r.log, o.effects);
    }
  }

  /** Main result: over any measurements and any pattern of failing commands the last IBD state is -1
      until a setting succeeds and then that of the last successful setting; successful settings
      alternate; and "false" is only ever issued right after a height of at least 596000 was read and
      clearnet IBD was found or set off, in the same handling. */
  lemma {:induction false} IbdIsTracked(steps: seq<Step>)
    ensures var r := After(steps);
            && r.memory.ibd == Tracked(Settings(r.log))
            && Alternating(Settings(r.log))
            && SettingsGuarded(r.log)
  {
    if steps != [] {
      IbdIsTracked(steps[..|steps| - 1]);
      StepKeepsIbd(After(steps[..|steps| - 1]), steps[|steps| - 1]);
    }
  }

  /** The reading and the finding belong to the handling that issues "false". */
  lemma HandlingIsGuarded(m: Memory, incoming: Incoming, w: World)
    ensures SettingsGuarded(Handled(m, incoming, w).effects)
  {
    DisableShape(w);
  }

  /** checkBlockHeight drops the error of its query. That is harmless: the height then reads as 0, and
      anything beyond the reading happens exactly if the query was answered with enough blocks. */
  lemma DroppedErrorIsHarmless(w: World)
    ensures w.height.None? ==> DisableEffects(w) == ([HeightRead(0.0)], false)
    ensures (|DisableEffects(w).0| > 1 || DisableEffects(w).1) ==> w.height.Some? && w.height.value >= 596000.0
    ensures w.height.Some? && w.height.value >= 596000.0 && w.clearnet.Some? ==> |DisableEffects(w).0| > 1
  {}

  // --- restarts ------------------------------------------------------------------------------------

  predicate Serves(e: Effect, t: Trigger) { e.Restart? && e.trigger == t && e.ok }

  /** 29 seconds: the minimal delay less the part of a second that the stored time loses. */
  const GAP: int := MIN_DELAY - SECOND

  /** A served trigger is not served or even attempted again until the gap is over. */
  ghost predicate Spaced(log: seq<Effect>) {
    forall i, j :: 0 <= i < j < |log| && log[j].Restart? && Serves(log[i], log[j].trigger)
      ==> log[j].started > log[i].completed + GAP
  }

  function UnitOf(t: Trigger): string { if t.MiddlewareNoBitcoindConnectivity? then "bbbmiddleware" else "electrs" }

  predicate IsLogged(e: Effect) {
    e.Restart? ==>
      && e.started <= e.completed && e.unit == UnitOf(e.trigger)
      && (e.trigger.ElectrsFullySynced? || e.trigger.ElectrsNoBitcoindConnectivity?
          || e.trigger.MiddlewareNoBitcoindConnectivity?)
  }

  ghost predicate RateInv(r: Run) {
    && Spaced(r.log)
    && (forall i :: 0 <= i < |r.log| ==> IsLogged(r.log[i]))
    && (forall i :: 0 <= i < |r.log| && r.log[i].Restart? && r.log[i].ok
          ==> r.log[i].completed / SECOND <= LastOf(r.memory, r.log[i].trigger))
  }

  lemma NotFlooding(now: nat, last: nat, completed: nat)
    requires !IsFlooding(now, last) && completed / SECOND <= last
    ensures now > completed + GAP && last <= now / SECOND
  {}

  lemma RestartKeeps(r: Run, t: Trigger, w: World)
    requires RateInv(r) && w.now <= w.completed
    requires t.ElectrsFullySynced? || t.ElectrsNoBitcoindConnectivity? || t.MiddlewareNoBitcoindConnectivity?
    ensures var o := RestartOutcome(r.memory, t, UnitOf(t), w); RateInv(Run(o.memory, r.log + o.effects))
  {
    var o := RestartOutcome(r.memory, t, UnitOf(t), w);
    if IsFlooding(w.now, LastOf(r.memory, t)) {
      assert r.log + [] == r.log;
    } else {
      var e := Restart(t, UnitOf(t), w.now, w.completed, w.restarts);
      forall i | 0 <= i < |r.log| && Serves(r.log[i], t) ensures w.now > r.log[i].completed + GAP {
        NotFlooding(w.now, LastOf(r.memory, t), r.log[i].completed);
      }
      NotFlooding(w.now, LastOf(r.memory, t), 0);
      LaterSecond(w.now, w.completed);
    }
  }

  lemma LaterSecond(a: nat, b: nat)
    requires a <= b
    ensures a / SECOND <= b / SECOND
  {}

  lemma OthersKeep(r: Run, effects: seq<Effect>, m: Memory)
    requires RateInv(r) && m.last == r.memory.last && forall i :: 0 <= i < |effects| ==> !effects[i].Restart?
    ensures RateInv(Run(m, r.log + effects))
  {}

  lemma StepKeepsRate(r: Run, step: Step)
    requires RateInv(r) && step.world.now <= step.world.completed
    ensures var o := Handled(r.memory, step.incoming, step.world); RateInv(Run(o.memory, r.log + o.effects))
  {
    var o := Handled(r.memory, step.incoming, step.world);
    if step.incoming.Event? && (step.incoming.trigger.ElectrsFullySynced? || step.incoming.trigger.ElectrsNoBitcoindConnectivity?
                                || step.incoming.trigger.MiddlewareNoBitcoindConnectivity?) {
      RestartKeeps(r, step.incoming.trigger, step.world);
    } else {
      OthersKeep(r, o.effects, o.memory);
    }
  }

  /** The clock does not go back during a handling. Between handlings it may. */
  predicate ClockRuns(steps: seq<Step>) { forall i :: 0 <= i < |steps| ==> steps[i].world.now <= steps[i].world.completed }

  lemma {:induction false} RatesHold(steps: seq<Step>)
    requires ClockRuns(steps)
    ensures RateInv(After(steps))
  {
    if steps != [] {
      RatesHold(steps[..|steps| - 1]);
      StepKeepsRate(After(steps[..|steps| - 1]), steps[|steps| - 1]);
    }
  }

  /** Main result: after a successful restart for a trigger, the next attempt for that trigger starts
      more than 29 seconds later, whatever happens in between. */
  lemma RestartsAreSpaced(steps: seq<Step>, i: nat, j: nat)
    requires ClockRuns(steps) && i < j < |After(steps).log|
    requires After(steps).log[j].Restart? && Serves(After(steps).log[i], After(steps).log[j].trigger)
    ensures After(steps).log[j].started > After(steps).log[i].completed + 29 * SECOND
  {
    RatesHold(steps);
  }

  // --- how many restarts fit into a window -------------------------------------------------------------

  /** The successful restarts for `t` that start from `a` on and before `b`. */
  function Served(log: seq<Effect>, t: Trigger, a: int, b: int): nat {
    if log == [] then 0
    else
      var e := log[|log| - 1];
      Served(log[..|log| - 1], t, a, b) + if Serves(e, t) && a <= e.started < b then 1 else 0
  }

  function RestartsOf(log: seq<Effect>, unit: string, a: int, b: int): nat {
    if log == [] then 0
    else
      var e := log[|log| - 1];
      RestartsOf(log[..|log| - 1], unit, a, b) + if e.Restart? && e.ok && e.unit == unit && a <= e.started < b then 1 else 0
  }

  lemma {:induction false} ServedSame(log: seq<Effect>, t: Trigger, a: int, b: int, c: int)
    requires forall i :: 0 <= i < |log| && Serves(log[i], t) ==> log[i].started < b && log[i].started < c
    ensures Served(log, t, a, b) == Served(log, t, a, c)
  {
    if log != [] { ServedSame(log[..|log| - 1], t, a, b, c); }
  }

  ghost predicate Apart(log: seq<Effect>, t: Trigger) {
    forall i, j :: 0 <= i < j < |log| && Serves(log[i], t) && Serves(log[j], t) ==> log[j].started > log[i].started + GAP
  }

  lemma SpacedIsApart(log: seq<Effect>, t: Trigger)
    requires Spaced(log) && forall i :: 0 <= i < |log| ==> IsLogged(log[i])
    ensures Apart(log, t)
  {}

  lemma OneMoreGap(n: nat, before: int, width: int)
    requires (n > 0 ==> (n - 1) * GAP < before - GAP) && 0 <= before < width
    ensures n * GAP < width
  {
    assert n * GAP == (n - 1) * GAP + GAP;
  }

  /** `n` served events need more than `n - 1` gaps. */
  predicate Fits(n: nat, width: int) { n > 0 ==> (n - 1) * GAP < width }

  lemma {:induction false} ApartInWindow(log: seq<Effect>, t: Trigger, a: int, b: int)
    requires Apart(log, t)
    ensures Fits(Served(log, t, a, b), b - a)
  {
    if log != [] {
      var n := |log| - 1;
      var e := log[n];
      if Serves(e, t) && a <= e.started < b {
        ServedSame(log[..n], t, a, b, e.started - GAP);
        ApartInWindow(log[..n], t, a, e.started - GAP);
        OneMoreGap(Served(log[..n], t, a, b), e.started - a, b - a);
      } else {
        ApartInWindow(log[..n], t, a, b);
      }
    }
  }

  lemma ServedInWindow(log: seq<Effect>, t: Trigger, a: int, b: int)
    requires Spaced(log) && forall i :: 0 <= i < |log| ==> IsLogged(log[i])
    ensures Served(log, t, a, b) > 0 ==> (Served(log, t, a, b) - 1) * GAP < b - a
  {
    SpacedIsApart(log, t);
    ApartInWindow(log, t, a, b);
  }

  lemma {:induction false} ElectrsHasTwoTriggers(log: seq<Effect>, a: int, b: int)
    requires forall i :: 0 <= i < |log| ==> IsLogged(log[i])
    ensures RestartsOf(log, "electrs", a, b)
         == Served(log, ElectrsFullySynced, a, b) + Served(log, ElectrsNoBitcoindConnectivity, a, b)
    ensures RestartsOf(log, "bbbmiddleware", a, b) == Served(log, MiddlewareNoBitcoindConnectivity, a, b)
  {
    if log != [] {
      ElectrsHasTwoTriggers(log[..|log| - 1], a, b);
      assert IsLogged(log[|log| - 1]);
      assert "electrs"[0] != "bbbmiddleware"[0];
    }
  }

  /** Main result: n successful restarts for a trigger within a window take more than n - 1 gaps of
      29 seconds, so every window bounds their number. */
  lemma RestartsAreBounded(steps: seq<Step>, t: Trigger, a: int, b: int)
    requires ClockRuns(steps)
    ensures var n := Served(After(steps).log, t, a, b); n > 0 ==> (n - 1) * GAP < b - a
  {
    RatesHold(steps);
    ServedInWindow(After(steps).log, t, a, b);
  }

  lemma Added(x: nat, y: nat, width: int)
    requires width > 0 && (x > 0 ==> (x - 1) * GAP < width) && (y > 0 ==> (y - 1) * GAP < width)
    ensures (x - 1) * GAP < width && (x + y - 2) * GAP < 2 * width
  {}

  lemma UnitsInLog(log: seq<Effect>, a: int, b: int)
    requires Spaced(log) && (forall i :: 0 <= i < |log| ==> IsLogged(log[i])) && a < b
    ensures (RestartsOf(log, "bbbmiddleware", a, b) - 1) * GAP < b - a
    ensures (RestartsOf(log, "electrs", a, b) - 2) * GAP < 2 * (b - a)
  {
    ElectrsHasTwoTriggers(log, a, b);
    ServedInWindow(log, MiddlewareNoBitcoindConnectivity, a, b);
    ServedInWindow(log, ElectrsFullySynced, a, b);
    ServedInWindow(log, ElectrsNoBitcoindConnectivity, a, b);
    Added(Served(log, MiddlewareNoBitcoindConnectivity, a, b), 0, b - a);
    Added(Served(log, ElectrsFullySynced, a, b), Served(log, ElectrsNoBitcoindConnectivity, a, b), b - a);
  }

  /** Main result: the middleware is restarted for one trigger and electrs for two, so a window sees
      at most the sum of what their gaps allow. */
  lemma UnitsAreBounded(steps: seq<Step>, a: int, b: int)
    requires ClockRuns(steps) && a < b
    ensures (RestartsOf(After(steps).log, "bbbmiddleware", a, b) - 1) * GAP < b - a
    ensures (RestartsOf(After(steps).log, "electrs", a, b) - 2) * GAP < 2 * (b - a)
  {
    RatesHold(steps);
    UnitsInLog(After(steps).log, a, b);
  }

  // --- and that they are made --------------------------------------------------------------------------

  /** When the last successful restart for a trigger was over. */
  function LastServed(log: seq<Effect>, t: Trigger): Option<nat> {
    if log == [] then None
    else
      var e := log[|log| - 1];
      if Serves(e, t) then Some(e.completed) else LastServed(log[..|log| - 1], t)
  }

  lemma LastServedNext(log: seq<Effect>, e: Effect, t: Trigger)
    ensures LastServed(log + [e], t) == if Serves(e, t) then Some(e.completed) else LastServed(log, t)
  {
    assert (log + [e])[..|log|] == log;
  }

  lemma {:induction false} LastServedSame(log: seq<Effect>, effects: seq<Effect>, t: Trigger)
    requires forall i :: 0 <= i < |effects| ==> !Serves(effects[i], t)
    ensures LastServed(log + effects, t) == LastServed(log, t)
  {
    if effects == [] {
      assert log + effects == log;
    } else {
      var n := |effects| - 1;
      assert log + effects == (log + effects[..n]) + [effects[n]];
      LastServedNext(log + effects[..n], effects[n], t);
      LastServedSame(log, effects[..n], t);
    }
  }

  /** An event restarts one unit, or none; a success is remembered. */
  lemma RestartRemembered(m: Memory, incoming: Incoming, w: World, t: Trigger)
    ensures var o := Handled(m, incoming, w);
            if o.effects != [] && Serves(o.effects[0], t)
            then |o.effects| == 1 && LastOf(o.memory, t) == o.effects[0].completed / 1_000_000_000
            else (forall i :: 0 <= i < |o.effects| ==> !Serves(o.effects[i], t)) && LastOf(o.memory, t) == LastOf(m, t)
  {}

  /** The memory holds the second in which the last restart for a trigger was over. */
  lemma {:induction false} LastIsRemembered(steps: seq<Step>, t: Trigger)
    ensures var served := LastServed(After(steps).log, t);
            LastOf(After(steps).memory, t) == if served.None? then 0 else served.value / 1_000_000_000
  {
    if steps != [] {
      var before, step := After(steps[..|steps| - 1]), steps[|steps| - 1];
      var o := Handled(before.memory, step.incoming, step.world);
      LastIsRemembered(steps[..|steps| - 1], t);
      RestartRemembered(before.memory, step.incoming, step.world, t);
      if o.effects != [] && Serves(o.effects[0], t) {
        LastServedNext(before.log, o.effects[0], t);
        assert o.effects == [o.effects[0]];
      } else {
        LastServedSame(before.log, o.effects, t);
      }
    }
  }

  predicate AsksForRestart(t: Trigger) {
    t.ElectrsFullySynced? || t.ElectrsNoBitcoindConnectivity? || t.MiddlewareNoBitcoindConnectivity?
  }

  /** Main result: after any run, an event for a trigger restarts its unit exactly if 30 seconds have passed since
      the beginning of the second in which the last successful restart for it was over. So it does 30 seconds
      after that restart at the latest, whatever else has been restarted. */
  lemma RestartsAreMade(steps: seq<Step>, t: Trigger, value: real, w: World)
    requires AsksForRestart(t)
    ensures var served := LastServed(After(steps).log, t);
            var since := if served.None? then 0 else served.value / 1_000_000_000 * 1_000_000_000;
            Handled(After(steps).memory, Event(t, value), w).effects
            == if w.now - since >= 30_000_000_000
               then [Restart(t, if t.MiddlewareNoBitcoindConnectivity? then "bbbmiddleware" else "electrs",
                             w.now, w.completed, w.restarts)]
               else []
    ensures var served := LastServed(After(steps).log, t);
            served.Some? && w.now >= served.value + 30_000_000_000
            ==> w.now - served.value / 1_000_000_000 * 1_000_000_000 >= 30_000_000_000
  {
    LastIsRemembered(steps, t);
  }

  /** Main result: a measurement that differs from the last state is acted upon. A 1 issues the setting; a 0 does
      exactly if enough blocks are known and clearnet is off or can be switched off; the rest does nothing. */
  lemma ChangesAreSet(m: Memory, value: real, w: World)
    ensures var o := Handled(m, Event(PrometheusBitcoindIbd, value), w);
            && (value == 1.0 && m.ibd != 1.0 ==> o.effects == [SetIbd(true, w.setsIbd)])
            && (value == 0.0 && m.ibd != 0.0 ==>
                  (SetIbd(false, w.setsIbd) in o.effects
                   <==> w.height.Some? && w.height.value >= 596000.0
                        && w.clearnet.Some? && (w.clearnet.value != 1 || w.setsClearnet)))
            && (value == m.ibd || (value != 0.0 && value != 1.0) ==> o.effects == [])
    ensures var o := Handled(m, Event(PrometheusBitcoindIbd, value), w);
            && o.memory == (if o.effects != [] && o.effects[|o.effects| - 1] == SetIbd(value == 1.0, true)
                            then m.(ibd := value) else m)
            && (o.ok <==> (value == 0.0 || value == 1.0) && o.memory.ibd == value)
  {
    DisableShape(w);
  }

  /** Events that only say that something failed, or that nobody knows, do nothing. */
  lemma OthersDoNothing(m: Memory, incoming: Incoming, w: World)
    requires incoming.WatcherError? || incoming.trigger.Unknown?
    ensures Handled(m, incoming, w) == Outcome(m, [], false)
  {}
}
