/** The status numbers of an update, as the check script documents them: 0 no update, 10 applied,
    20 reconfigured, 30 tested, 40 committed, 90 failed. Which stage leaves which, and when. */
module UpdateStatuses {
  import opened UpdateProtocol
  import opened UpdateChecks

  // --- the order of the statuses -------------------------------------------------------------------

  /** Behind each condition of the script the status is the one it asked for. */
  predicate InPlace(s: State) {
    && (s.script.Hostname? || s.script.Regenerating? || s.script.Set20? ==> s.memory == 10)
    && (s.script.Verify? || s.script.Enabling? || s.script.Set30? || s.script.Set90? ==> s.memory == 20)
    && (s.script.Committing? || s.script.CommandSet40? || s.script.NotifyCommitFailed? ==> s.memory == 30)
    && (s.script.Set40? ==> s.memory == 30 || s.memory == 40)
    && (s.script.Set0? ==> s.memory == 40)
    && (s.recording ==> s.script.Off?)
  }

  /** The moves between statuses. */
  predicate Moves(from: int, to: int) {
    || (from == 10 && to == 20)
    || (from == 20 && (to == 30 || to == 90))
    || (from == 30 && to == 40)
    || (from == 40 && to == 0)
  }

  /** A command of the script moves the status along or leaves it, and saves nothing else. */
  predicate Kept(s: State, t: State) {
    (t.memory != s.memory ==> Moves(s.memory, t.memory)) && (t.disk != s.disk ==> t.disk == t.memory)
  }

  lemma EarlyMoves(s: State, ok: bool, saved: bool)
    requires InPlace(s) && IsEarly(s.script)
    ensures InPlace(Advance(s, ok, saved)) && Kept(s, Advance(s, ok, saved))
  {}

  lemma WriteMoves(s: State, ok: bool, saved: bool)
    requires InPlace(s) && WritesStatus(s.script)
    ensures InPlace(Advance(s, ok, saved)) && Kept(s, Advance(s, ok, saved))
  {}

  lemma VitalMoves(s: State, ok: bool, saved: bool)
    requires InPlace(s) && IsCommand(s.script)
    ensures InPlace(Advance(s, ok, saved)) && Kept(s, Advance(s, ok, saved))
  {}

  lemma OtherMoves(s: State, ok: bool, saved: bool)
    requires InPlace(s) && !s.script.Off? && !IsEarly(s.script) && !WritesStatus(s.script) && !IsCommand(s.script)
    ensures InPlace(Advance(s, ok, saved)) && Kept(s, Advance(s, ok, saved))
  {}

  lemma StageMoves(s: State, ok: bool, saved: bool)
    requires InPlace(s) && !s.script.Off?
    ensures InPlace(Advance(s, ok, saved)) && Kept(s, Advance(s, ok, saved))
  {
    if IsEarly(s.script) { EarlyMoves(s, ok, saved); }
    else if WritesStatus(s.script) { WriteMoves(s, ok, saved); }
    else if IsCommand(s.script) { VitalMoves(s, ok, saved); }
    else { OtherMoves(s, ok, saved); }
  }

  lemma OthersInPlace(s: State, a: Action)
    requires InPlace(s) && Enabled(s, a) && Orderly(s, a) && !a.Script?
    ensures InPlace(Apply(s, a))
  {}

  lemma {:induction false} StaysInPlace(s: State, run: seq<Action>)
    requires InPlace(s) && Valid(s, run) && OrderlyRun(s, run)
    ensures InPlace(After(s, run))
    decreases |run|
  {
    if run != [] {
      if run[0].Script? { StageMoves(s, run[0].ok, run[0].saved); } else { OthersInPlace(s, run[0]); }
      StaysInPlace(Apply(s, run[0]), run[1..]);
    }
  }

  /** Main result: in every orderly run, crashes and lost writes included, a command of the script changes the
      status from 10 to 20, from 20 to 30 or 90, from 30 to 40 or from 40 to 0, or not at all. An install
      writes 10, and a crash brings back what was saved. */
  lemma StatusMoves(run: seq<Action>, a: Action)
    requires Valid(FACTORY, run) && OrderlyRun(FACTORY, run) && Enabled(After(FACTORY, run), a)
    ensures var s := After(FACTORY, run);
            var t := Apply(s, a);
            && (a.Script? && t.memory != s.memory ==> Moves(s.memory, t.memory))
            && (a.InstallRecorded? && t.memory != s.memory ==> t.memory == 10)
            && (a.Crash? ==> t.memory == s.disk && t.script == Off)
            && (a.Snapshot? ==> t.memory == s.memory && t.disk == s.memory)
            && (a.Boot? || a.InstallApplied? ==> t.memory == s.memory)
            && (t.disk != s.disk ==> t.disk == t.memory)
  {
    StaysInPlace(FACTORY, run);
    if a.Script? { StageMoves(After(FACTORY, run), a.ok, a.saved); }
  }

  /** What can happen when: the power can go and Redis can save at any step, the script is started when it does not
      run, and installs come one after the other, each forgetting what was done for the last. */
  lemma HappensWhen(s: State, a: Action)
    ensures Enabled(s, a)
        <==> match a
             case InstallApplied => !s.recording
             case InstallRecorded(_, _) => s.recording
             case Boot => s.script == Off
             case Script(_, _) => s.script != Off
             case Crash => true
             case Snapshot => true
    ensures Enabled(s, a) && a.InstallApplied?
        ==> Apply(s, a) == State(s.memory, s.disk, s.script, true, false, false, false, false)
    ensures a.Crash? ==> !Apply(s, a).recording
    ensures Enabled(s, a) && a.InstallRecorded? ==> !Apply(s, a).recording && Apply(s, a).script == s.script
  {}

  // --- what each stage leaves ----------------------------------------------------------------------

  lemma Take(s: State, outcomes: seq<Outcome>)
    requires outcomes != [] && !s.script.Off?
    ensures var t := Advance(s, outcomes[0].ok, outcomes[0].saved);
            && (Valid(s, Scripts(outcomes)) <==> Valid(t, Scripts(outcomes[1..])))
            && (Valid(s, Scripts(outcomes)) ==> After(s, Scripts(outcomes)) == After(t, Scripts(outcomes[1..])))
  {
    assert Scripts(outcomes)[0] == Script(outcomes[0].ok, outcomes[0].saved);
    assert Scripts(outcomes)[1..] == Scripts(outcomes[1..]);
  }

  /** The outcomes bring the script from one state to the other. */
  predicate Leads(s: State, outcomes: seq<Outcome>, t: State) {
    Valid(s, Scripts(outcomes)) && After(s, Scripts(outcomes)) == t
  }

  lemma NoneLeft(s: State)
    ensures Leads(s, [], s)
  {
    assert Scripts([]) == [];
  }

  lemma Then(s: State, outcomes: seq<Outcome>, t: State)
    requires outcomes != [] && !s.script.Off? && Leads(Advance(s, outcomes[0].ok, outcomes[0].saved), outcomes[1..], t)
    ensures Leads(s, outcomes, t)
  {
    Take(s, outcomes);
  }

  /** The status after a write with this outcome. */
  function Stored(s: State, value: int, o: Outcome): int { if o.ok then value else s.memory }

  function Saved(s: State, value: int, o: Outcome): int { if o.saved then Stored(s, value, o) else s.disk }

  predicate AllOk(outcomes: seq<Outcome>) { forall o :: o in outcomes ==> o.ok }

  lemma {:induction false} Generations(s: State, outcomes: seq<Outcome>)
    requires s.script.Regenerating? && |outcomes| == s.script.left + 2 && AllOk(outcomes[..s.script.left])
    requires s.intact || (s.script.left == s.script.all && s.script.all > 0)
    ensures var o := outcomes[|outcomes| - 1];
            Leads(s, outcomes, s.(script := At20, memory := Stored(s, 20, o), disk := Saved(s, 20, o), intact := true,
                                  regenerated := true))
    decreases s.script.left
  {
    var t := Advance(s, outcomes[0].ok, outcomes[0].saved);
    if s.script.left == 0 {
      var u := Advance(t, outcomes[1].ok, outcomes[1].saved);
      NoneLeft(u);
      assert outcomes[1..][1..] == [] && outcomes[1..][0] == outcomes[1];
      Then(t, outcomes[1..], u);
    } else {
      assert outcomes[0] in outcomes[..s.script.left];
      assert outcomes[1..][..s.script.left - 1] == outcomes[..s.script.left][1..];
      Generations(t, outcomes[1..]);
    }
    Then(s, outcomes, After(t, Scripts(outcomes[1..])));
  }

  /** Main result: with status 10 the host name is set and ten files are generated, eleven with Wi-Fi enabled;
      after all of that the status is 20. */
  lemma ReconfigurationLeaves20(s: State, outcomes: seq<Outcome>)
    requires s.script == At10 && s.memory == 10 && |outcomes| == if outcomes != [] && outcomes[0].ok then 15 else 14
    requires AllOk(outcomes[1..|outcomes| - 2])
    ensures var o := outcomes[|outcomes| - 1];
            Leads(s, outcomes, s.(script := At20, memory := Stored(s, 20, o), disk := Saved(s, 20, o), intact := true,
                                  regenerated := true))
  {
    var n := |outcomes|;
    assert outcomes[1] in outcomes[1..n - 2];
    assert outcomes == [outcomes[0]] + ([outcomes[1]] + outcomes[2..]);
    assert outcomes[2..][..n - 4] == outcomes[1..n - 2][1..];
    var u := s.(script := Regenerating(n - 4, n - 4));
    GenerationBegins(s, outcomes[0], outcomes[1]);
    Generations(u, outcomes[2..]);
    var end := After(u, Scripts(outcomes[2..]));
    LeadsOn(s.(script := Hostname(outcomes[0].ok)), [outcomes[1]], u, outcomes[2..], end);
    LeadsOn(s, [outcomes[0]], s.(script := Hostname(outcomes[0].ok)), [outcomes[1]] + outcomes[2..], end);
  }

  lemma GenerationBegins(s: State, wifi: Outcome, hostname: Outcome)
    requires s.script == At10 && s.memory == 10 && hostname.ok
    ensures var files := if wifi.ok then 11 else 10;
            && Leads(s, [wifi], s.(script := Hostname(wifi.ok)))
            && Leads(s.(script := Hostname(wifi.ok)), [hostname], s.(script := Regenerating(files, files)))
  {
    OneStep(s, wifi);
    OneStep(s.(script := Hostname(wifi.ok)), hostname);
  }

  lemma {:induction false} FailingVerifications(s: State, outcomes: seq<Outcome>)
    requires s.script.Verify? && 1 <= s.script.attempt && s.script.attempt + |outcomes| <= 101 && NoneOk(outcomes)
    ensures Leads(s, outcomes, if s.script.attempt + |outcomes| == 101 && outcomes != [] then s.(script := Set90)
                               else s.(script := Verify(s.script.attempt + |outcomes|)))
    decreases |outcomes|
  {
    if outcomes == [] {
      NoneLeft(s);
    } else {
      var t := Advance(s, outcomes[0].ok, outcomes[0].saved);
      assert outcomes[0] in outcomes && forall o :: o in outcomes[1..] ==> o in outcomes;
      if |outcomes| == 1 { NoneLeft(t); } else { FailingVerifications(t, outcomes[1..]); }
      Then(s, outcomes, After(t, Scripts(outcomes[1..])));
    }
  }

  lemma {:induction false} LeadsOn(s: State, a: seq<Outcome>, t: State, b: seq<Outcome>, u: State)
    requires Leads(s, a, t) && Leads(t, b, u)
    ensures Leads(s, a + b, u)
    decreases |a|
  {
    if a == [] {
      NoneLeft(s);
      assert a + b == b;
    } else {
      assert Scripts(a)[0] == Script(a[0].ok, a[0].saved);
      Take(s, a);
      assert (a + b)[0] == a[0] && (a + b)[1..] == a[1..] + b;
      LeadsOn(Advance(s, a[0].ok, a[0].saved), a[1..], t, b, u);
      Then(s, a + b, u);
    }
  }

  lemma OneStep(s: State, o: Outcome)
    requires !s.script.Off?
    ensures Leads(s, [o], Advance(s, o.ok, o.saved))
  {
    assert [o][1..] == [];
    NoneLeft(Advance(s, o.ok, o.saved));
    Then(s, [o], Advance(s, o.ok, o.saved));
  }

  /** Main result: with status 20, up to 99 failing verifications and a successful one, after which the services are
      enabled, leave 30. */
  lemma VerificationLeaves30(s: State, look: Outcome, failing: seq<Outcome>, good: Outcome, enable: Outcome, write: Outcome)
    requires s.script == At20 && s.memory == 20 && |failing| < 100 && NoneOk(failing) && good.ok && enable.ok
    ensures Leads(s, [look] + (failing + ([good] + ([enable] + [write]))),
                  s.(script := At30, memory := Stored(s, 30, write), disk := Saved(s, 30, write), verified := true))
  {
    var v := s.(script := Verify(1 + |failing|));
    var w := v.(script := Enabling, verified := true);
    OneStep(s, look);
    FailingVerifications(s.(script := Verify(1)), failing);
    OneStep(v, good);
    OneStep(w, enable);
    OneStep(w.(script := Set30), write);
    var end := s.(script := At30, memory := Stored(s, 30, write), disk := Saved(s, 30, write), verified := true);
    LeadsOn(w, [enable], w.(script := Set30), [write], end);
    LeadsOn(v, [good], w, [enable] + [write], end);
    LeadsOn(s.(script := Verify(1)), failing, v, [good] + ([enable] + [write]), end);
    LeadsOn(s, [look], s.(script := Verify(1)), failing + ([good] + ([enable] + [write])), end);
  }

  /** Main result: with status 20, one hundred failing verifications leave 90, in memory and, if saved, on disk. */
  lemma HundredFailuresLeave90(s: State, look: Outcome, failing: seq<Outcome>, write: Outcome)
    requires s.script == At20 && s.memory == 20 && |failing| == 100 && NoneOk(failing)
    ensures Leads(s, [look] + (failing + [write]),
                  s.(script := NotifyFallback, memory := if write.ok then 90 else 20,
                     disk := if !write.saved then s.disk else if write.ok then 90 else 20))
  {
    var v, w := s.(script := Verify(1)), s.(script := Set90);
    var end := s.(script := NotifyFallback, memory := Stored(s, 90, write), disk := Saved(s, 90, write));
    OneStep(s, look);
    FailingVerifications(v, failing);
    OneStep(w, write);
    LeadsOn(v, failing, w, [write], end);
    LeadsOn(s, [look], v, failing + [write], end);
  }

  lemma FirstForty(s: State, o: Outcome) returns (t: State)
    requires s.script == CommandSet40
    ensures t == s.(script := Set40, memory := Stored(s, 40, o), disk := Saved(s, 40, o)) && Leads(s, [o], t)
  {
    t := s.(script := Set40, memory := Stored(s, 40, o), disk := Saved(s, 40, o));
    OneStep(s, o);
  }

  lemma SecondForty(s: State, o: Outcome)
    requires s.script == Set40
    ensures Leads(s, [o], s.(script := At40, memory := Stored(s, 40, o), disk := Saved(s, 40, o)))
  {
    OneStep(s, o);
  }

  /** What two writes of 40 leave. */
  lemma FortyTwice(s: State, first: Outcome, second: Outcome)
    requires s.script == CommandSet40
    ensures var memory := if first.ok || second.ok then 40 else s.memory;
            Leads(s, [first] + [second],
                  s.(script := At40, memory := memory,
                     disk := if second.saved then memory
                             else if !first.saved then s.disk
                             else if first.ok then 40 else s.memory))
  {
    var e := FirstForty(s, first);
    SecondForty(e, second);
    LeadsOn(s, [first], e, [second], e.(script := At40, memory := Stored(e, 40, second), disk := Saved(e, 40, second)));
  }

  /** Main result: with status 30, a commit that succeeds leaves 40, written twice. */
  lemma CommitLeaves40(s: State, look: Outcome, commit: Outcome, first: Outcome, second: Outcome)
    requires s.script == At30 && s.memory == 30 && commit.ok
    ensures var memory := if first.ok || second.ok then 40 else 30;
            Leads(s, [look] + ([commit] + ([first] + [second])),
                  s.(script := At40, memory := memory, committed := true,
                     disk := if second.saved then memory
                             else if !first.saved then s.disk
                             else if first.ok then 40 else 30))
  {
    var c, d := s.(script := Committing), s.(script := CommandSet40, committed := true);
    OneStep(s, look);
    OneStep(c, commit);
    FortyTwice(d, first, second);
    var end := After(d, Scripts([first] + [second]));
    LeadsOn(c, [commit], d, [first] + [second], end);
    LeadsOn(s, [look], c, [commit] + ([first] + [second]), end);
  }

  /** A commit that fails leaves 30. */
  lemma FailedCommitLeaves30(s: State, look: Outcome, commit: Outcome, notify: Outcome)
    requires s.script == At30 && s.memory == 30 && !commit.ok
    ensures Leads(s, [look] + ([commit] + [notify]), s.(script := At40))
  {
    var c, e := s.(script := Committing), s.(script := NotifyCommitFailed);
    OneStep(s, look);
    OneStep(c, commit);
    OneStep(e, notify);
    LeadsOn(c, [commit], e, [notify], s.(script := At40));
    LeadsOn(s, [look], c, [commit] + [notify], s.(script := At40));
  }

  /** Main result: with status 40 the update ends with 0, and a success is announced once the startup tasks have
      succeeded. */
  lemma EndLeaves0(s: State, look: Outcome, write: Outcome, startup: Outcome)
    requires s.script == At40 && s.memory == 40
    ensures Leads(s, [look] + ([write] + [startup]),
                  s.(script := if startup.ok then NotifySuccess else Off,
                     memory := Stored(s, 0, write), disk := Saved(s, 0, write)))
  {
    var z := s.(script := Set0);
    var t := s.(script := StartupTasks, memory := Stored(s, 0, write), disk := Saved(s, 0, write));
    OneStep(s, look);
    OneStep(z, write);
    OneStep(t, startup);
    var end := Advance(t, startup.ok, startup.saved);
    LeadsOn(z, [write], t, [startup], end);
    LeadsOn(s, [look], z, [write] + [startup], end);
  }

  predicate MayNotFail(script: Pc) {
    script.Hostname? || (script.Regenerating? && script.left > 0) || script.Enabling? || script.StartupTasks?
  }

  /** A stage whose status is another is passed over, with status 0 all of them, and a command that may not fail
      ends the script with the status as it was. */
  lemma StagesAreSkipped(s: State, ok: bool, saved: bool)
    requires !s.script.Off?
    ensures s.script == Begin ==> Advance(s, ok, saved) == s.(script := if s.memory == 0 then Off else At10)
    ensures s.script == At10 && s.memory != 10 ==> Advance(s, ok, saved) == s.(script := At20)
    ensures s.script == At20 && s.memory != 20 ==> Advance(s, ok, saved) == s.(script := At30)
    ensures s.script == At30 && s.memory != 30 ==> Advance(s, ok, saved) == s.(script := At40)
    ensures s.script == At40 && s.memory != 40 ==> Advance(s, ok, saved) == s.(script := Off)
    ensures MayNotFail(s.script) && !ok ==> Advance(s, ok, saved) == s.(script := Off)
  {}

  // --- status 90, exactly --------------------------------------------------------------------------

  /** Places from which no verification can follow. */
  predicate IsLate(script: Pc) {
    || script.Enabling? || script.Set30? || script.NotifyFallback? || script.Rebooting? || script.At30? || script.Committing?
    || script.CommandSet40? || script.Set40? || script.NotifyCommitFailed? || script.At40? || script.Set0?
    || script.StartupTasks? || script.NotifySuccess? || script.Off?
  }

  lemma LateWrites(s: State, ok: bool, saved: bool)
    requires IsLate(s.script) && WritesStatus(s.script) && s.memory != 90
    ensures IsLate(Advance(s, ok, saved).script) && Advance(s, ok, saved).memory != 90
  {}

  lemma LateCommands(s: State, ok: bool, saved: bool)
    requires IsLate(s.script) && IsCommand(s.script)
    ensures IsLate(Advance(s, ok, saved).script) && Advance(s, ok, saved).memory == s.memory
  {}

  lemma LateOthers(s: State, ok: bool, saved: bool)
    requires s.script.NotifyFallback? || s.script.Rebooting? || s.script.At30? || s.script.NotifyCommitFailed? || s.script.At40?
    ensures IsLate(Advance(s, ok, saved).script) && Advance(s, ok, saved).memory == s.memory
  {}

  lemma LateStaysLate(s: State, ok: bool, saved: bool)
    requires IsLate(s.script) && !s.script.Off? && s.memory != 90
    ensures IsLate(Advance(s, ok, saved).script) && Advance(s, ok, saved).memory != 90
  {
    if WritesStatus(s.script) { LateWrites(s, ok, saved); }
    else if IsCommand(s.script) { LateCommands(s, ok, saved); }
    else { LateOthers(s, ok, saved); }
  }

  lemma {:induction false} NeverNinety(s: State, outcomes: seq<Outcome>)
    requires IsLate(s.script) && s.memory != 90 && Valid(s, Scripts(outcomes))
    ensures After(s, Scripts(outcomes)).memory != 90
    decreases |outcomes|
  {
    if outcomes != [] {
      assert Scripts(outcomes)[0] == Script(outcomes[0].ok, outcomes[0].saved);
      Take(s, outcomes);
      LateStaysLate(s, outcomes[0].ok, outcomes[0].saved);
      NeverNinety(Advance(s, outcomes[0].ok, outcomes[0].saved), outcomes[1..]);
    } else {
      NoneLeft(s);
    }
  }

  predicate FellBack(s: State) {
    s.memory == 90 && (s.script.NotifyFallback? || s.script.Rebooting? || s.script.At30? || s.script.At40? || s.script.Off?)
  }

  lemma {:induction false} StaysNinety(s: State, outcomes: seq<Outcome>)
    requires FellBack(s) && Valid(s, Scripts(outcomes))
    ensures After(s, Scripts(outcomes)).memory == 90
    decreases |outcomes|
  {
    if outcomes != [] {
      assert Scripts(outcomes)[0] == Script(outcomes[0].ok, outcomes[0].saved);
      Take(s, outcomes);
      StaysNinety(Advance(s, outcomes[0].ok, outcomes[0].saved), outcomes[1..]);
    } else {
      NoneLeft(s);
    }
  }

  /** The first `n` outcomes are failures and the next one is a success. */
  predicate FailsThenStores(outcomes: seq<Outcome>, n: nat) {
    |outcomes| > n && NoneOk(outcomes[..n]) && outcomes[n].ok
  }

  lemma FailsThenStoresNext(outcomes: seq<Outcome>, n: nat)
    requires outcomes != []
    ensures FailsThenStores(outcomes, n + 1) <==> !outcomes[0].ok && FailsThenStores(outcomes[1..], n)
  {
    if |outcomes| > n + 1 {
      assert outcomes[..n + 1] == [outcomes[0]] + outcomes[1..][..n];
    }
  }

  lemma {:induction false} NinetyFromVerify(s: State, outcomes: seq<Outcome>)
    requires s.memory == 20 && Valid(s, Scripts(outcomes))
    requires s.script == Set90 || (s.script.Verify? && 1 <= s.script.attempt <= 100)
    ensures After(s, Scripts(outcomes)).memory == 90
        <==> FailsThenStores(outcomes, if s.script == Set90 then 0 else 101 - s.script.attempt)
    decreases |outcomes|
  {
    if outcomes == [] {
      NoneLeft(s);
    } else {
      var o := outcomes[0];
      var t := Advance(s, o.ok, o.saved);
      assert Scripts(outcomes)[0] == Script(o.ok, o.saved);
      Take(s, outcomes);
      if s.script == Set90 {
        if o.ok { StaysNinety(t, outcomes[1..]); } else { NeverNinety(t, outcomes[1..]); }
      } else if o.ok {
        NeverNinety(t, outcomes[1..]);
        FailsThenStoresNext(outcomes, 100 - s.script.attempt);
      } else {
        NinetyFromVerify(t, outcomes[1..]);
        FailsThenStoresNext(outcomes, 100 - s.script.attempt);
      }
    }
  }

  /** Main result: an execution that reaches the verification with status 20 has, wherever it stands, the status 90
      if and only if one hundred verifications have failed and the write behind them succeeded. */
  lemma NinetyIff(s: State, outcomes: seq<Outcome>)
    requires s.script == At20 && s.memory == 20 && Valid(s, Scripts(outcomes))
    ensures After(s, Scripts(outcomes)).memory == 90
        <==> |outcomes| >= 102 && (forall i :: 1 <= i <= 100 ==> !outcomes[i].ok) && outcomes[101].ok
  {
    if outcomes == [] {
      NoneLeft(s);
    } else {
      Take(s, outcomes);
      NinetyFromVerify(s.(script := Verify(1)), outcomes[1..]);
      if |outcomes| >= 102 {
        assert forall i :: 1 <= i <= 100 ==> outcomes[i] == outcomes[1..][..100][i - 1];
      }
    }
  }
}
