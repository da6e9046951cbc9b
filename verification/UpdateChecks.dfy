/** systemd-update-checks.sh as written: the stages of one boot, in order, on the persistent
    status. Cut off anywhere, an execution is exactly the run of the step machine of
    UpdateProtocol that the outcomes of its commands determine. */
module UpdateChecks {
  import opened UpdateProtocol

  /** How the next command ends: `ok` its exit status (for redis_set: SET worked; where the script
      reads whether Wi-Fi is enabled: the answer), `saved` whether Redis SAVE worked. */
  datatype Outcome = Outcome(ok: bool, saved: bool)

  /** The steps these outcomes make the script take. */
  function Scripts(outcomes: seq<Outcome>): seq<Action> {
    seq(|outcomes|, i requires 0 <= i < |outcomes| => Script(outcomes[i].ok, outcomes[i].saved))
  }

  /** The status that the script writes at a place, and where it goes on. */
  function StatusAt(pc: Pc): (int, Pc)
    requires WritesStatus(pc)
  {
    match pc
    case Set20 => (20, At20)
    case Set30 => (30, At30)
    case Set90 => (90, NotifyFallback)
    case CommandSet40 => (40, Set40)
    case Set40 => (40, At40)
    case Set0 => (0, StartupTasks)
  }

  predicate NoneOk(outcomes: seq<Outcome>) { forall o :: o in outcomes ==> !o.ok }

  lemma HundredTries(all: seq<Outcome>, look: Outcome, tries: seq<Outcome>, failed: nat)
    requires all == [look] + tries
    ensures |tries| >= 100 ==> tries[..100] == all[1..101] && tries[100..] == all[101..]
    ensures failed < 100 && failed < |tries| && tries[failed].ok && |all| > 100 ==> !NoneOk(all[1..101])
  {
    if failed < 100 && failed < |tries| && |all| > 100 { assert all[1..101][failed] == tries[failed]; }
  }

  /** The next outcome joins the failures or ends them. */
  lemma OneTry(all: seq<Outcome>, failed: nat, left: seq<Outcome>, o: Outcome, rest: seq<Outcome>)
    requires failed <= |all| && left == all[failed..] && NoneOk(all[..failed]) && left == [o] + rest
    ensures failed < |all| && all[failed] == o && rest == all[failed + 1..]
    ensures !o.ok ==> NoneOk(all[..failed + 1])
  {
    assert left[0] == o && left[1..] == rest;
    assert all[..failed + 1] == all[..failed] + [o];
  }

  predicate Writes(pc: Pc, value: int, next: Pc) { WritesStatus(pc) && StatusAt(pc) == (value, next) }

  lemma WriteAdvances(s: State, ok: bool, saved: bool, value: int, next: Pc)
    requires Writes(s.script, value, next)
    ensures Advance(s, ok, saved) == Write(s, value, ok, saved).(script := next)
  {}

  lemma WrittenFields(s: State, value: int, ok: bool, saved: bool, next: Pc)
    ensures var memory := if ok then value else s.memory;
            Write(s, value, ok, saved).(script := next)
            == s.(memory := memory, disk := if saved then memory else s.disk, script := next)
  {}

  /** The steps that the outcomes fetched so far make the script take. */
  function StepsOf(outcomes: seq<Outcome>, done: nat, powerLost: bool): seq<Action>
    requires done <= |outcomes|
  {
    [Boot] + Scripts(outcomes[..done]) + if powerLost then [Crash] else []
  }

  predicate Ran(start: State, outcomes: seq<Outcome>, done: nat, world: seq<Outcome>, powerLost: bool, end: State) {
    && start.script.Off? && !start.recording
    && done <= |outcomes| && world == outcomes[done..]
    && (powerLost ==> world == [] && end.script.Off?)
    && var steps := StepsOf(outcomes, done, powerLost);
       Valid(start, steps) && NoInstall(steps) && After(start, steps) == end
  }

  class CheckScript {
    var memory: int
    var disk: int
    var intact: bool
    var regenerated: bool
    var verified: bool
    var committed: bool
    var successNotified: bool
    /** The outcomes of the commands still to run; the power goes when none is left. */
    var world: seq<Outcome>

    ghost const start: State
    ghost const outcomes: seq<Outcome>
    ghost var done: nat
    ghost var powerLost: bool

    ghost function At(pc: Pc): State
      reads this
    {
      State(memory, disk, pc, false, intact, regenerated, verified, committed)
    }

    ghost function Steps(): seq<Action>
      requires done <= |outcomes|
      reads this
    {
      StepsOf(outcomes, done, powerLost)
    }

    /** So far the script took the steps its commands' outcomes dictate and stands at `end`. */
    ghost predicate Runs(end: State)
      reads this
    {
      Ran(start, outcomes, done, world, powerLost, end)
    }

    ghost predicate Traced(pc: Pc)
      reads this
    {
      Runs(At(pc))
    }

    constructor (memory: int, disk: int, world: seq<Outcome>, intact: bool, regenerated: bool, verified: bool, committed: bool)
      ensures start == State(memory, disk, Off, false, intact, regenerated, verified, committed) && outcomes == world
      ensures Traced(Begin) && !successNotified && done == 0 && !powerLost
    {
      this.memory, this.disk, this.world := memory, disk, world;
      this.intact, this.regenerated, this.verified, this.committed := intact, regenerated, verified, committed;
      successNotified := false;
      start, outcomes := State(memory, disk, Off, false, intact, regenerated, verified, committed), world;
      done, powerLost := 0, false;
      new;
      assert Steps() == [] + [Boot];
      Extend(start, [], Boot);
    }

    /** Run one command of the script: fetch its outcome, or lose the power. */
    method Step(ghost pc: Pc) returns (alive: bool, o: Outcome)
      requires Traced(pc) && !pc.Off?
      modifies this
      ensures alive ==> Runs(Advance(old(At(pc)), o.ok, o.saved))
      ensures alive ==> unchanged(this`memory, this`disk, this`intact, this`regenerated, this`verified, this`committed)
      ensures alive <==> old(world) != []
      ensures alive ==> o == old(world)[0] && world == old(world)[1..]
      ensures !alive ==> Traced(Off) && powerLost
      ensures committed == old(committed) && successNotified == old(successNotified)
    {
      alive, o := world != [], Outcome(false, false);
      ghost var before := Steps();
      if alive {
        o, world := world[0], world[1..];
        Extend(start, before, Script(o.ok, o.saved));
        done := done + 1;
        assert Scripts(outcomes[..done]) == Scripts(outcomes[..done - 1]) + [Script(o.ok, o.saved)];
        assert Steps() == before + [Script(o.ok, o.saved)];
      } else {
        Extend(start, before, Crash);
        memory, powerLost := disk, true;
        assert Steps() == before + [Crash];
      }
    }

    /** The two commands of redis_set, with their outcome and the state they lead to. */
    method StatusStep(value: int, ghost pc: Pc, ghost next: Pc) returns (alive: bool, o: Outcome, ghost end: State)
      requires Traced(pc) && Writes(pc, value, next)
      modifies this
      ensures alive <==> old(world) != []
      ensures alive ==> Runs(end) && end == At(next).(memory := if o.ok then value else memory, disk := end.disk)
      ensures alive ==> end.disk == if o.saved then end.memory else disk
      ensures alive ==> o == old(world)[0] && world == old(world)[1..] && memory == old(memory) && disk == old(disk)
      ensures !alive ==> Traced(Off) && powerLost
      ensures successNotified == old(successNotified)
    {
      ghost var before := At(pc);
      alive, o := Step(pc);
      end := Advance(before, o.ok, o.saved);
      WriteAdvances(before, o.ok, o.saved, value, next);
      WrittenFields(before, value, o.ok, o.saved, next);
    }

    method Store(value: int, ok: bool, saved: bool, ghost end: State)
      requires Runs(end) && end == At(end.script).(memory := if ok then value else memory, disk := end.disk)
      requires end.disk == if saved then end.memory else disk
      modifies this`memory, this`disk
      ensures Traced(end.script)
      ensures memory == (if ok then value else old(memory)) && disk == if saved then memory else old(disk)
    {
      if ok { memory := value; }
      if saved { disk := memory; }
      assert At(end.script) == end;
    }

    /** redis_set */
    method RedisSet(value: int, ghost pc: Pc, ghost next: Pc) returns (alive: bool)
      requires Traced(pc) && Writes(pc, value, next)
      modifies this
      ensures if alive then Traced(next) else Traced(Off) && powerLost
      ensures alive <==> old(world) != []
      ensures alive ==> world == old(world)[1..]
      ensures alive ==> memory == if old(world)[0].ok then value else old(memory)
      ensures alive ==> disk == if old(world)[0].saved then memory else old(disk)
      ensures successNotified == old(successNotified)
    {
      var o;
      ghost var end;
      alive, o, end := StatusStep(value, pc, next);
      if alive {
        Store(value, o.ok, o.saved, end);
      }
    }

    /** Status 10: regenerate every configuration file. */
    method Reconfigure() returns (alive: bool)
      requires Traced(At10)
      modifies this
      ensures if alive then Traced(At20) else Traced(Off)
      ensures successNotified == old(successNotified)
    {
      var o;
      alive, o := Step(At10);
      if alive && memory == 10 {
        alive := Regenerate(o.ok);
        if alive { alive := RedisSet(20, Set20, At20); }
      }
    }

    method Regenerate(wifi: bool) returns (alive: bool)
      requires Traced(Hostname(wifi))
      modifies this
      ensures if alive then Traced(Set20) else Traced(Off)
      ensures successNotified == old(successNotified)
    {
      var all: nat := if wifi then TEMPLATES + 1 else TEMPLATES;
      var left := all;
      alive := SetHostname(wifi, all);
      while alive && left > 0
        invariant if alive then Traced(Regenerating(left, all)) else Traced(Off)
        invariant successNotified == old(successNotified)
        decreases left
      {
        alive := GenerateNext(left, all);
        left := left - 1;
      }
      if alive {
        alive := EndGeneration(all);
      }
    }

    method SetHostname(wifi: bool, all: nat) returns (alive: bool)
      requires Traced(Hostname(wifi)) && all == if wifi then TEMPLATES + 1 else TEMPLATES
      modifies this
      ensures if alive then Traced(Regenerating(all, all)) else Traced(Off)
      ensures successNotified == old(successNotified)
    {
      var o;
      alive, o := Step(Hostname(wifi));
      alive := alive && o.ok;
    }

    method EndGeneration(all: nat) returns (alive: bool)
      requires Traced(Regenerating(0, all))
      modifies this
      ensures if alive then Traced(Set20) else Traced(Off)
      ensures successNotified == old(successNotified)
    {
      var o;
      alive, o := Step(Regenerating(0, all));
      if alive { regenerated := intact; }
    }

    /** One call of generateConfig; the first begins the generation of all files. */
    method GenerateNext(left: nat, all: nat) returns (alive: bool)
      requires Traced(Regenerating(left, all)) && left > 0
      modifies this
      ensures if alive then Traced(Regenerating(left - 1, all)) else Traced(Off)
      ensures successNotified == old(successNotified)
    {
      var o;
      alive, o := Step(Regenerating(left, all));
      alive := alive && o.ok;
      if alive && left == all { intact := true; }
    }

    /** Status 20: up to a hundred service verifications. */
    method VerifyServices() returns (alive: bool)
      requires Traced(At20)
      modifies this
      ensures if alive then Traced(At30) else Traced(Off)
      ensures alive && old(memory) != 20 ==> memory == old(memory)
      ensures alive && old(memory) == 20 ==>
        if |old(world)| > 100 && NoneOk(old(world)[1..101])
        then |old(world)| > 103 && memory == if old(world)[101].ok then 90 else 20
        else memory == 20 || memory == 30
      ensures successNotified == old(successNotified)
    {
      var o;
      ghost var all := world;
      alive, o := Step(At20);
      if alive && memory == 20 {
        var success;
        ghost var tries, failed := world, 0;
        alive, success, failed := RetryVerification();
        assert all == [o] + tries;
        if alive { HundredTries(all, o, tries, failed); }
        if alive && success {
          alive := EnableServices();
        } else if alive {
          alive := FallBack();
        }
      }
    }

    method RetryVerification() returns (alive: bool, success: bool, ghost failed: nat)
      requires Traced(Verify(1))
      modifies this
      ensures if !alive then Traced(Off) else Traced(if success then Enabling else Set90)
      ensures alive ==> memory == old(memory) && disk == old(disk)
      ensures alive ==> failed <= |old(world)| && NoneOk(old(world)[..failed])
      ensures alive ==> if success then failed < 100 && failed < |old(world)| && old(world)[failed].ok
                        else failed == 100 && world == old(world)[100..]
      ensures successNotified == old(successNotified)
    {
      var attempt: nat := 1;
      alive, success, failed := true, false, 0;
      while alive && !success && attempt <= MAX_ATTEMPTS
        invariant 1 <= attempt <= MAX_ATTEMPTS + 1
        invariant alive ==> memory == old(memory) && disk == old(disk)
        invariant failed == attempt - 1
        invariant alive ==> failed <= |old(world)| && NoneOk(old(world)[..failed])
        invariant alive ==> if success then failed < MAX_ATTEMPTS && failed < |old(world)| && old(world)[failed].ok
                            else world == old(world)[failed..]
        invariant successNotified == old(successNotified)
        invariant if !alive then Traced(Off)
                  else if success then Traced(Enabling)
                  else Traced(if attempt <= MAX_ATTEMPTS then Verify(attempt) else Set90)
        decreases if alive then |world| + 1 else 0
      {
        var o;
        ghost var left := world;
        alive, o := Step(Verify(attempt));
        if alive {
          assert left == [o] + world;
          OneTry(old(world), failed, left, o, world);
          if o.ok { verified, success := true, true; } else { attempt, failed := attempt + 1, failed + 1; }
        }
      }
    }

    method EnableServices() returns (alive: bool)
      requires Traced(Enabling)
      modifies this
      ensures if alive then Traced(At30) else Traced(Off)
      ensures alive ==> |old(world)| >= 2 && memory == if old(world)[1].ok then 30 else old(memory)
      ensures alive ==> disk == if old(world)[1].saved then memory else old(disk)
      ensures successNotified == old(successNotified)
    {
      var o;
      alive, o := Step(Enabling);
      alive := alive && o.ok;
      if alive { alive := RedisSet(30, Set30, At30); }
    }

    /** Give up on the new image; the script runs on until the reboot takes effect. */
    method FallBack() returns (alive: bool)
      requires Traced(Set90)
      modifies this
      ensures if alive then Traced(At30) else Traced(Off)
      ensures alive ==> |old(world)| >= 3 && memory == if old(world)[0].ok then 90 else old(memory)
      ensures alive ==> disk == if old(world)[0].saved then memory else old(disk)
      ensures successNotified == old(successNotified)
    {
      alive := RedisSet(90, Set90, NotifyFallback);
      var o;
      if alive { alive, o := Step(NotifyFallback); }
      if alive { alive, o := Step(Rebooting); }
    }

    /** Status 30: commit the update. */
    method Commit() returns (alive: bool)
      requires Traced(At30)
      modifies this
      ensures if alive then Traced(At40) else Traced(Off)
      ensures successNotified == old(successNotified)
    {
      var o;
      alive, o := Step(At30);
      if alive && memory == 30 { alive := TryCommit(); }
    }

    method TryCommit() returns (alive: bool)
      requires Traced(Committing)
      modifies this
      ensures if alive then Traced(At40) else Traced(Off)
      ensures successNotified == old(successNotified)
    {
      var o;
      alive, o := Step(Committing);
      if alive && o.ok {
        committed := true;
        alive := RecordCommit();
      } else if alive {
        alive, o := Step(NotifyCommitFailed);
      }
    }

    method RecordCommit() returns (alive: bool)
      requires Traced(CommandSet40)
      modifies this
      ensures if alive then Traced(At40) else Traced(Off)
      ensures successNotified == old(successNotified)
    {
      alive := RedisSet(40, CommandSet40, Set40);
      if alive { alive := RedisSet(40, Set40, At40); }
    }

    /** Status 40: finish and announce success. */
    method Finish()
      requires Traced(At40) && !successNotified
      modifies this
      ensures Traced(Off)
      ensures successNotified <==> old(memory) == 40 && |old(world)| >= 3 && old(world)[2].ok
      ensures Inv(start) && successNotified ==> committed
    {
      var alive, o := Step(At40);
      if alive && memory == 40 { CleanUp(); }
    }

    method CleanUp()
      requires Traced(Set0) && !successNotified
      modifies this
      ensures Traced(Off)
      ensures successNotified <==> |old(world)| >= 2 && old(world)[1].ok
      ensures Inv(start) && successNotified ==> committed
    {
      var o;
      var alive := RedisSet(0, Set0, StartupTasks);
      if alive {
        alive, o := Step(StartupTasks);
        if alive && o.ok { Announce(); }
      }
    }

    method Announce()
      requires Traced(NotifySuccess)
      modifies this
      ensures Traced(Off) && successNotified
      ensures Inv(start) ==> committed
    {
      RunsAreSafe(start, Steps());
      successNotified := true;
      var alive, o := Step(NotifySuccess);
    }

    /** One execution of the script. It ends with the script off, having taken precisely the steps
        its commands' outcomes dictate, up to a power loss where they run out; it keeps the
        protocol's invariant and announces success only after a successful commit. */
    method Run()
      requires Traced(Begin) && !successNotified
      modifies this
      ensures Traced(Off)
      ensures Inv(start) ==> Inv(At(Off)) && (successNotified ==> committed)
    {
      var updating := memory != 0;
      var alive, o := Step(Begin);
      if alive && updating {
        alive := Reconfigure();
        if alive { alive := VerifyServices(); }
        if alive { alive := Commit(); }
        if alive { Finish(); }
      }
      RunsAreSafe(start, Steps());
    }
  }

  lemma RunsAreSafe(s: State, run: seq<Action>)
    requires Valid(s, run) && NoInstall(run) && s.script.Off? && !s.recording
    ensures Inv(s) ==> Inv(After(s, run)) && Safe(After(s, run))
  {
    if Inv(s) {
      WithoutInstallOrderly(s, run);
      OrderlyRunsAreSafe(s, run);
    }
  }

  // --- the outcomes determine the run ----------------------------------------------------------------

  /** Two executions of the script from the same state that end by themselves, on outcomes of
      which the first are a prefix of the second, are the same execution. */
  lemma {:induction false} NoLongerRun(s: State, a: seq<Outcome>, b: seq<Outcome>)
    requires a <= b && Valid(s, Scripts(a)) && Valid(s, Scripts(b)) && After(s, Scripts(a)).script.Off?
    ensures a == b
    decreases |a|
  {
    assert forall i :: 0 <= i < |b| ==> Scripts(b)[i].Script?;
    if a != [] {
      assert Scripts(a)[0] == Scripts(b)[0] == Script(a[0].ok, a[0].saved);
      assert Scripts(a)[1..] == Scripts(a[1..]) && Scripts(b)[1..] == Scripts(b[1..]);
      NoLongerRun(Advance(s, a[0].ok, a[0].saved), a[1..], b[1..]);
    }
  }

  /** How far the script is from its end, whatever comes. */
  function ToGo(script: Pc): nat {
    match script
    case Off => 0
    case Begin => 400
    case At10 => 390
    case Hostname(_) => 389
    case Regenerating(left, _) => 300 + left
    case Set20 => 299
    case At20 => 298
    case Verify(attempt) => 160 + if attempt <= MAX_ATTEMPTS then MAX_ATTEMPTS + 1 - attempt else 0
    case Set90 => 150
    case NotifyFallback => 149
    case Rebooting => 148
    case Enabling => 140
    case Set30 => 139
    case At30 => 130
    case Committing => 129
    case CommandSet40 => 128
    case Set40 => 127
    case NotifyCommitFailed => 127
    case At40 => 120
    case Set0 => 119
    case StartupTasks => 118
    case NotifySuccess => 117
  }

  lemma EarlyGetsCloser(s: State, ok: bool, saved: bool)
    requires IsEarly(s.script)
    ensures ToGo(Advance(s, ok, saved).script) < ToGo(s.script)
  {}

  lemma WriteGetsCloser(s: State, ok: bool, saved: bool)
    requires WritesStatus(s.script)
    ensures ToGo(Advance(s, ok, saved).script) < ToGo(s.script)
  {}

  lemma VerifyGetsCloser(s: State, ok: bool, saved: bool)
    requires s.script.Verify?
    ensures ToGo(Advance(s, ok, saved).script) < ToGo(s.script)
  {}

  lemma CommandGetsCloser(s: State, ok: bool, saved: bool)
    requires IsCommand(s.script) && !s.script.Verify?
    ensures ToGo(Advance(s, ok, saved).script) < ToGo(s.script)
  {}

  lemma OtherGetsCloser(s: State, ok: bool, saved: bool)
    requires !s.script.Off? && !IsEarly(s.script) && !WritesStatus(s.script) && !IsCommand(s.script)
    ensures ToGo(Advance(s, ok, saved).script) < ToGo(s.script)
  {}

  lemma AdvanceGetsCloser(s: State, ok: bool, saved: bool)
    requires !s.script.Off?
    ensures ToGo(Advance(s, ok, saved).script) < ToGo(s.script)
  {
    if IsEarly(s.script) { EarlyGetsCloser(s, ok, saved); }
    else if WritesStatus(s.script) { WriteGetsCloser(s, ok, saved); }
    else if s.script.Verify? { VerifyGetsCloser(s, ok, saved); }
    else if IsCommand(s.script) { CommandGetsCloser(s, ok, saved); }
    else { OtherGetsCloser(s, ok, saved); }
  }

  /** The first outcomes of an endless supply. */
  function FirstOf(supply: nat -> Outcome, n: nat): seq<Outcome> { seq(n, i requires i >= 0 => supply(i)) }

  predicate EndsAfter(s: State, supply: nat -> Outcome, n: nat) {
    Valid(s, Scripts(FirstOf(supply, n))) && After(s, Scripts(FirstOf(supply, n))).script.Off?
  }

  lemma {:induction false} Ends(s: State, supply: nat -> Outcome) returns (n: nat)
    ensures EndsAfter(s, supply, n)
    decreases ToGo(s.script)
  {
    if s.script.Off? {
      n := 0;
      assert Scripts(FirstOf(supply, 0)) == [];
    } else {
      var o := supply(0);
      var later := (i: nat) => supply(i + 1);
      AdvanceGetsCloser(s, o.ok, o.saved);
      var rest := Ends(Advance(s, o.ok, o.saved), later);
      n := rest + 1;
      assert Scripts(FirstOf(supply, n))[0] == Script(o.ok, o.saved);
      assert Scripts(FirstOf(supply, n))[1..] == Scripts(FirstOf(later, rest));
    }
  }

  /** Main result: the outcomes of the commands determine the execution. Whatever they are, there is
      exactly one number of commands after which the script ends. */
  lemma RunDetermined(s: State, supply: nat -> Outcome) returns (n: nat)
    ensures EndsAfter(s, supply, n)
    ensures forall m: nat :: EndsAfter(s, supply, m) ==> m == n
  {
    n := Ends(s, supply);
    forall m: nat | EndsAfter(s, supply, m) ensures m == n {
      if m <= n {
        assert FirstOf(supply, m) <= FirstOf(supply, n);
        NoLongerRun(s, FirstOf(supply, m), FirstOf(supply, n));
      } else {
        assert FirstOf(supply, n) <= FirstOf(supply, m);
        NoLongerRun(s, FirstOf(supply, n), FirstOf(supply, m));
      }
    }
  }
}
