/** lightningd and electrs never run during the initial block download. */
module IbdGating {
  import opened ConfigTemplates
  import opened BaseSystem

  predicate Gated(s: State) {
    IsActive(s, Lightningd) || IsActive(s, Electrs) ==> Get(s.redis, Ibd) != "1"
  }

  // --- what the scripts do before they enter initial block download ------------------------------

  predicate Down(s: State, service: Service) { service in s.units && s.units[service] == Stopped }

  predicate Brings(op: Op, service: Service) {
    (op.Start? || op.StartUnlessIbd? || op.Restart?) && op.service == service
  }

  /** The service is stopped before operation `n`, and not started again: it is down already, or one
      of the operations stops it. */
  predicate StoppedBy(todo: seq<Op>, n: nat, service: Service, down: bool)
    requires n <= |todo|
  {
    (down && forall j :: 0 <= j < n ==> !Brings(todo[j], service))
    || exists i :: 0 <= i < n && todo[i] == Stop(service) && forall j :: i < j < n ==> !Brings(todo[j], service)
  }

  /** Wherever the remaining operations set bitcoind:ibd to 1, the service has been stopped. */
  ghost predicate Prepared(todo: seq<Op>, service: Service, down: bool) {
    forall n :: 0 <= n < |todo| && todo[n] == Set(Ibd, "1") ==> StoppedBy(todo, n, service, down)
  }

  ghost predicate Inv(s: State) {
    && Gated(s)
    && Prepared(s.todo, Lightningd, Down(s, Lightningd))
    && Prepared(s.todo, Electrs, Down(s, Electrs))
  }

  /** The operations leave bitcoind:ibd alone. */
  predicate LeavesIbd(ops: seq<Op>) { forall i :: 0 <= i < |ops| && ops[i].Set? ==> ops[i].key != Ibd }

  lemma BlocksLeaveIbd(redis: Redis, megabytes: nat, on: bool)
    ensures LeavesIbd(DbCacheOps(redis, megabytes)) && LeavesIbd(TorOps(redis, on))
  {}

  lemma EnterIbdPrepared(redis: Redis, service: Service)
    requires service != Bitcoind
    ensures Prepared(Program(EnableIbd(true), redis), service, false)
  {
    var todo := Program(EnableIbd(true), redis);
    var cache := DbCacheOps(redis, 2000);
    assert todo[0] == Stop(Lightningd) && todo[1] == Stop(Electrs);
    assert forall j :: 2 <= j < |todo| - 1 ==> todo[j] == cache[j - 2] && !Brings(todo[j], service);
    BlocksLeaveIbd(redis, 2000, true);
    forall n | 0 <= n < |todo| && todo[n] == Set(Ibd, "1") ensures StoppedBy(todo, n, service, false) {
      assert n == |todo| - 1;
    }
  }

  lemma ResyncPrepared(redis: Redis, service: Service)
    requires service != Bitcoind
    ensures Prepared(Program(Resync, redis), service, false)
  {
    var todo := Program(Resync, redis);
    assert todo[0] == Stop(Electrs) && todo[1] == Stop(Lightningd) && todo[2] == Stop(Bitcoind);
    assert StoppedBy(todo, 3, service, false);
    assert forall n :: 0 <= n < |todo| && todo[n].Set? && todo[n].key == Ibd ==> n == 3;
  }

  lemma LeaveIbdPrepared(redis: Redis, service: Service)
    ensures Prepared(Program(EnableIbd(false), redis), service, false)
  {
    var todo := Program(EnableIbd(false), redis);
    BlocksLeaveIbd(redis, 300, true);
    assert "0"[0] != "1"[0];
    assert LeavesIbd(DbCacheOps(redis, 300));
    forall n | 0 <= n < |todo| && todo[n].Set? && todo[n].key == Ibd ensures todo[n].value == "0" {}
  }

  predicate Long(command: Command) {
    command.SetNetwork? || command.RefreshCredentials? || command.ReconfigureAfterUpdate?
  }

  predicate WithBlocks(command: Command) { command.EnableTor? || command.EnableIbdClearnet? || command.SetDbCache? }

  lemma LongLeaveIbd(command: Command, redis: Redis)
    requires Long(command)
    ensures LeavesIbd(Program(command, redis))
  {}

  lemma ShortLeaveIbd(command: Command, redis: Redis)
    requires !command.EnableIbd? && !command.Resync? && !Long(command) && !WithBlocks(command)
    ensures LeavesIbd(Program(command, redis))
  {}

  lemma OthersLeaveIbd(command: Command, redis: Redis)
    requires !command.EnableIbd? && !command.Resync?
    ensures LeavesIbd(Program(command, redis))
  {
    if Long(command) {
      LongLeaveIbd(command, redis);
    } else if WithBlocks(command) {
      BlocksLeaveIbd(redis, if command.SetDbCache? then command.megabytes else 0, !command.EnableTor? || command.on);
    } else {
      ShortLeaveIbd(command, redis);
    }
  }

  lemma ProgramPrepared(command: Command, redis: Redis, service: Service)
    requires service != Bitcoind
    ensures Prepared(Program(command, redis), service, false)
  {
    if command.EnableIbd? {
      if command.on { EnterIbdPrepared(redis, service); } else { LeaveIbdPrepared(redis, service); }
    } else if command.Resync? {
      ResyncPrepared(redis, service);
    } else {
      OthersLeaveIbd(command, redis);
    }
  }

  lemma StoppedByNext(todo: seq<Op>, n: nat, service: Service, down: bool, down': bool)
    requires 0 < n <= |todo| && StoppedBy(todo, n, service, down)
    requires (down && !Brings(todo[0], service)) || todo[0] == Stop(service) ==> down'
    ensures StoppedBy(todo[1..], n - 1, service, down')
  {
    if down && forall j :: 0 <= j < n ==> !Brings(todo[j], service) {
      assert forall j :: 0 <= j < n - 1 ==> todo[1..][j] == todo[j + 1];
    } else {
      var i :| 0 <= i < n && todo[i] == Stop(service) && forall j :: i < j < n ==> !Brings(todo[j], service);
      if i == 0 {
        assert forall j :: 0 <= j < n - 1 ==> !Brings(todo[1..][j], service);
      } else {
        assert todo[1..][i - 1] == Stop(service);
        assert forall j :: i - 1 < j < n - 1 ==> !Brings(todo[1..][j], service);
      }
    }
  }

  lemma PreparedNext(todo: seq<Op>, service: Service, down: bool, down': bool)
    requires todo != [] && Prepared(todo, service, down)
    requires (down && !Brings(todo[0], service)) || todo[0] == Stop(service) ==> down'
    ensures Prepared(todo[1..], service, down')
  {
    forall n | 0 <= n < |todo[1..]| && todo[1..][n] == Set(Ibd, "1") ensures StoppedBy(todo[1..], n, service, down') {
      assert todo[n + 1] == Set(Ibd, "1");
      StoppedByNext(todo, n + 1, service, down, down');
    }
  }

  lemma PreparedBehind(prefix: seq<Op>, todo: seq<Op>, service: Service, down: bool)
    requires Prepared(todo, service, down)
    requires forall i :: 0 <= i < |prefix| ==> !Brings(prefix[i], service) && prefix[i] != Set(Ibd, "1")
    ensures Prepared(prefix + todo, service, down)
  {
    var all := prefix + todo;
    forall n | 0 <= n < |all| && all[n] == Set(Ibd, "1") ensures StoppedBy(all, n, service, down) {
      assert n >= |prefix| && todo[n - |prefix|] == Set(Ibd, "1");
      var k := n - |prefix|;
      if down && forall j :: 0 <= j < k ==> !Brings(todo[j], service) {
        assert forall j :: |prefix| <= j < n ==> all[j] == todo[j - |prefix|];
      } else {
        var i :| 0 <= i < k && todo[i] == Stop(service) && forall j :: i < j < k ==> !Brings(todo[j], service);
        assert all[i + |prefix|] == Stop(service);
        assert forall j :: i + |prefix| < j < n ==> all[j] == todo[j - |prefix|];
      }
    }
  }

  // --- every step ----------------------------------------------------------------------------------

  lemma NextGated(s: State, ok: bool)
    requires Inv(s) && Enabled(s, Next(ok))
    ensures Gated(Apply(s, Next(ok)))
  {
    if s.todo[0] == Set(Ibd, "1") {
      assert StoppedBy(s.todo, 0, Lightningd, Down(s, Lightningd)) && StoppedBy(s.todo, 0, Electrs, Down(s, Electrs));
    }
  }

  lemma NextDown(s: State, ok: bool, service: Service)
    requires Enabled(s, Next(ok))
    ensures var t := Apply(s, Next(ok));
            t.todo == [] ||
            (t.todo == s.todo[1..]
             && ((Down(s, service) && !Brings(s.todo[0], service)) || s.todo[0] == Stop(service) ==> Down(t, service)))
  {}

  lemma NextKeeps(s: State, ok: bool)
    requires Inv(s) && Enabled(s, Next(ok))
    ensures Inv(Apply(s, Next(ok)))
  {
    var t := Apply(s, Next(ok));
    NextGated(s, ok);
    NextDown(s, ok, Lightningd);
    NextDown(s, ok, Electrs);
    if t.todo != [] {
      PreparedNext(s.todo, Lightningd, Down(s, Lightningd), Down(t, Lightningd));
      PreparedNext(s.todo, Electrs, Down(s, Electrs), Down(t, Electrs));
    }
  }

  /** Restoring a saved Redis is harmless unless it says "initial block download" while one of the
      two services runs. */
  predicate Tame(s: State, e: Event) {
    e.Restore? ==> Get(e.redis, Ibd) != "1" || (!IsActive(s, Lightningd) && !IsActive(s, Electrs))
  }

  lemma StepKeeps(s: State, e: Event)
    requires Inv(s) && Enabled(s, e) && Tame(s, e)
    ensures Inv(Apply(s, e))
  {
    match e
    case Issue(command) =>
      ProgramPrepared(command, s.redis, Lightningd);
      ProgramPrepared(command, s.redis, Electrs);
      PreparedMore(Program(command, s.redis), Lightningd, Down(s, Lightningd));
      PreparedMore(Program(command, s.redis), Electrs, Down(s, Electrs));
    case Next(ok) => NextKeeps(s, ok);
    case NewCredentials(auth, user, password) =>
      PreparedBehind(RefreshOps(auth, user, password), s.todo, Lightningd, Down(s, Lightningd));
      PreparedBehind(RefreshOps(auth, user, password), s.todo, Electrs, Down(s, Electrs));
    case _ =>
  }

  lemma PreparedMore(todo: seq<Op>, service: Service, down: bool)
    requires Prepared(todo, service, false)
    ensures Prepared(todo, service, down)
  {
    forall n | 0 <= n < |todo| && todo[n] == Set(Ibd, "1") ensures StoppedBy(todo, n, service, down) {
      assert StoppedBy(todo, n, service, false);
    }
  }

  predicate TameRun(s: State, run: seq<Event>)
    requires Valid(s, run)
    decreases |run|
  {
    run == [] || (Tame(s, run[0]) && TameRun(Apply(s, run[0]), run[1..]))
  }

  /** Main result: over all commands, failures, automatic restarts and reboots, and at every step in
      between, lightningd or electrs running means bitcoind:ibd is not 1. */
  lemma {:induction false} GatedThroughout(s: State, run: seq<Event>)
    requires Inv(s) && Valid(s, run) && TameRun(s, run)
    ensures Inv(After(s, run)) && Gated(After(s, run))
    decreases |run|
  {
    if run != [] {
      StepKeeps(s, run[0]);
      GatedThroughout(Apply(s, run[0]), run[1..]);
    }
  }

  predicate GatedAlong(s: State, run: seq<Event>)
    requires Valid(s, run)
    decreases |run|
  {
    Gated(s) && (run == [] || GatedAlong(Apply(s, run[0]), run[1..]))
  }

  /** Main result: restoring is the only way to break the rule. Any run at all, from a state that keeps
      it, keeps it at every step if and only if no restore in it declares initial block download while
      one of the two services runs. */
  lemma {:induction false} OnlyRestoresBreak(s: State, run: seq<Event>)
    requires Inv(s) && Valid(s, run)
    ensures GatedAlong(s, run) <==> TameRun(s, run)
    decreases |run|
  {
    if run != [] && Tame(s, run[0]) {
      StepKeeps(s, run[0]);
      OnlyRestoresBreak(Apply(s, run[0]), run[1..]);
    }
  }
}
