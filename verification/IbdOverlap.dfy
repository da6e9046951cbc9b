/** What becomes of the rule about initial block download when something outside the running script
    starts lightningd or electrs: the exact condition under which that is harmless. */
module IbdOverlap {
  import opened ConfigTemplates
  import opened BaseSystem
  import opened IbdGating

  /** Another script, or an operator, starts or restarts the service while a command runs. */
  function Foreign(s: State, service: Service, ok: bool): State { StartUnit(s, service, ok) }

  ghost predicate KeepsGate(s: State) {
    forall run :: Valid(s, run) && TameRun(s, run) ==> Gated(After(s, run))
  }

  predicate IsGated(service: Service) { service != Bitcoind }

  predicate AllUnits(s: State) { Bitcoind in s.units && Lightningd in s.units && Electrs in s.units }

  /** Operation `n` sets bitcoind:ibd to 1, and no other touches that key or starts the two services:
      what is left of the two commands that enter initial block download. */
  predicate Enters(todo: seq<Op>, n: nat) {
    && n < |todo| && todo[n] == Set(Ibd, "1")
    && forall j :: 0 <= j < |todo| && j != n ==> Harmless(todo[j])
  }

  predicate Harmless(op: Op) {
    (op.Set? ==> op.key != Ibd) && !Brings(op, Lightningd) && !Brings(op, Electrs)
  }

  predicate StopAhead(todo: seq<Op>, n: nat, service: Service)
    requires n <= |todo|
  {
    exists i :: 0 <= i < n && todo[i] == Stop(service)
  }

  /** bitcoind is down and is not started again before operation `n`. */
  predicate BitcoindStaysDown(s: State, n: nat)
    requires n <= |s.todo|
  {
    Down(s, Bitcoind) && forall j :: 0 <= j < n ==> !Brings(s.todo[j], Bitcoind)
  }

  /** The service cannot be running when bitcoind:ibd is set. */
  predicate Ready(s: State, n: nat, service: Service)
    requires n <= |s.todo|
  {
    || StopAhead(s.todo, n, service)
    || Down(s, service)
    || (Get(s.redis, Ibd) == "1" && !IsActive(s, service))
    || (BitcoindStaysDown(s, n) && !IsActive(s, service))
  }

  /** The condition on a foreign start: a stop of the service is still to come, initial block download
      is already declared, or bitcoind is down and stays so until it is. */
  predicate StartIsHarmless(s: State, n: nat, service: Service)
    requires n <= |s.todo|
  {
    StopAhead(s.todo, n, service) || Get(s.redis, Ibd) == "1" || BitcoindStaysDown(s, n)
  }

  // --- the invariant ------------------------------------------------------------------------------------

  ghost predicate Entering(s: State) {
    Gated(s) && exists n: nat :: Enters(s.todo, n) && Ready(s, n, Lightningd) && Ready(s, n, Electrs)
  }

  ghost predicate Kept(s: State) { Inv(s) || Entering(s) }

  lemma NothingSet(s: State)
    requires Gated(s) && forall j :: 0 <= j < |s.todo| ==> Harmless(s.todo[j])
    ensures Inv(s)
  {}

  lemma EntersNext(todo: seq<Op>, n: nat)
    requires Enters(todo, n)
    ensures n > 0 ==> Enters(todo[1..], n - 1)
    ensures n == 0 ==> forall j :: 0 <= j < |todo[1..]| ==> Harmless(todo[1..][j])
  {
    assert forall j :: 0 <= j < |todo[1..]| ==> todo[1..][j] == todo[j + 1];
  }

  lemma StopAheadNext(todo: seq<Op>, n: nat, service: Service)
    requires 0 < n <= |todo| && StopAhead(todo, n, service)
    ensures todo[0] == Stop(service) || StopAhead(todo[1..], n - 1, service)
  {
    var i :| 0 <= i < n && todo[i] == Stop(service);
    if i > 0 { assert todo[1..][i - 1] == Stop(service); }
  }

  /** Units other than the operation's own stay as they are. */
  lemma OwnUnitOnly(s: State, op: Op, ok: bool, service: Service)
    requires op.Set? || op.Generate? || op.service != service
    ensures var t := Execute(s, op, ok); service in t.units <==> service in s.units
    ensures var t := Execute(s, op, ok); service in s.units ==> t.units[service] == s.units[service]
  {}

  lemma StopStops(s: State, service: Service, ok: bool)
    ensures var t := Execute(s, Stop(service), ok); if ok then Down(t, service) && t.todo == s.todo else t == s.(todo := [])
  {}

  lemma KeyAfter(s: State, op: Op, ok: bool)
    requires Harmless(op)
    ensures var t := Execute(s, op, ok); Get(t.redis, Ibd) == Get(s.redis, Ibd) && (t.todo == [] || t.todo == s.todo)
  {}

  /** What one harmless operation does to one of the two services. */
  lemma ServiceNext(s: State, ok: bool, service: Service)
    requires s.todo != [] && Harmless(s.todo[0]) && IsGated(service)
    ensures var t := Apply(s, Next(ok));
            && (t.todo == [] || t.todo == s.todo[1..])
            && Get(t.redis, Ibd) == Get(s.redis, Ibd)
            && (IsActive(t, service) ==> IsActive(s, service))
            && (Down(s, service) ==> Down(t, service))
            && (s.todo[0] == Stop(service) ==> t.todo == [] || Down(t, service))
  {
    var u, op := s.(todo := s.todo[1..]), s.todo[0];
    KeyAfter(u, op, ok);
    if op == Stop(service) { StopStops(u, service, ok); } else { OwnUnitOnly(u, op, ok, service); }
  }

  /** An operation that does not start a unit leaves it alone or stops it. */
  lemma NotBrought(s: State, op: Op, ok: bool, service: Service)
    requires !Brings(op, service) && service in s.units
    ensures var t := Execute(s, op, ok);
            service in t.units && (t.units[service] == s.units[service] || t.units[service] == Stopped)
  {
    if op == Stop(service) { StopStops(s, service, ok); } else { OwnUnitOnly(s, op, ok, service); }
  }

  lemma BitcoindNext(s: State, ok: bool)
    requires s.todo != [] && Down(s, Bitcoind) && !Brings(s.todo[0], Bitcoind)
    ensures Down(Apply(s, Next(ok)), Bitcoind)
  {
    NotBrought(s.(todo := s.todo[1..]), s.todo[0], ok, Bitcoind);
  }

  lemma ReadyNext(s: State, ok: bool, n: nat, service: Service)
    requires 0 < n <= |s.todo| && Harmless(s.todo[0]) && IsGated(service) && Ready(s, n, service)
    ensures var t := Apply(s, Next(ok)); t.todo == [] || (t.todo == s.todo[1..] && Ready(t, n - 1, service))
  {
    ServiceNext(s, ok, service);
    if StopAhead(s.todo, n, service) { StopAheadNext(s.todo, n, service); }
    if BitcoindStaysDown(s, n) {
      BitcoindNext(s, ok);
      assert forall j :: 0 <= j < n - 1 ==> s.todo[1..][j] == s.todo[j + 1];
    }
  }

  lemma GatedNext(s: State, ok: bool)
    requires s.todo != [] && Harmless(s.todo[0]) && Gated(s)
    ensures Gated(Apply(s, Next(ok)))
  {
    ServiceNext(s, ok, Lightningd);
    ServiceNext(s, ok, Electrs);
  }

  lemma EnteringNext(s: State, ok: bool)
    requires Entering(s) && s.todo != []
    ensures Kept(Apply(s, Next(ok)))
  {
    var n: nat :| Enters(s.todo, n) && Ready(s, n, Lightningd) && Ready(s, n, Electrs);
    var t := Apply(s, Next(ok));
    EntersNext(s.todo, n);
    if n == 0 {
      SetNext(s, ok);
    } else {
      ReadyNext(s, ok, n, Lightningd);
      ReadyNext(s, ok, n, Electrs);
      GatedNext(s, ok);
      if t.todo == [] {
        NothingSet(t);
      } else {
        assert Enters(t.todo, n - 1) && Ready(t, n - 1, Lightningd) && Ready(t, n - 1, Electrs);
      }
    }
  }

  lemma SetNext(s: State, ok: bool)
    requires Gated(s) && Enters(s.todo, 0) && Ready(s, 0, Lightningd) && Ready(s, 0, Electrs)
    ensures Inv(Apply(s, Next(ok)))
  {
    var t := Apply(s, Next(ok));
    EntersNext(s.todo, 0);
    assert t.todo == s.todo[1..] && t.units == s.units;
    NothingSet(t);
  }

  // --- steps from outside the command ---------------------------------------------------------------------

  lemma EntersBehind(prefix: seq<Op>, todo: seq<Op>, n: nat)
    requires Enters(todo, n) && forall j :: 0 <= j < |prefix| ==> Harmless(prefix[j])
    ensures Enters(prefix + todo, |prefix| + n)
  {
    var all := prefix + todo;
    assert forall j :: 0 <= j < |all| ==> all[j] == if j < |prefix| then prefix[j] else todo[j - |prefix|];
  }

  lemma ReadyBehind(s: State, prefix: seq<Op>, n: nat, service: Service)
    requires n <= |s.todo| && Ready(s, n, service)
    requires forall j :: 0 <= j < |prefix| ==> !Brings(prefix[j], Bitcoind)
    ensures Ready(s.(todo := prefix + s.todo), |prefix| + n, service)
  {
    var all := prefix + s.todo;
    assert forall j :: 0 <= j < |all| ==> all[j] == if j < |prefix| then prefix[j] else s.todo[j - |prefix|];
    if StopAhead(s.todo, n, service) {
      var i :| 0 <= i < n && s.todo[i] == Stop(service);
      assert all[|prefix| + i] == Stop(service);
    }
  }

  lemma CredentialsAreHarmless(auth: string, user: string, password: string)
    ensures forall op :: op in RefreshOps(auth, user, password) ==> Harmless(op) && !Brings(op, Bitcoind)
  {}

  lemma EnteringCredentials(s: State, auth: string, user: string, password: string)
    requires Entering(s)
    ensures Entering(Apply(s, NewCredentials(auth, user, password)))
  {
    var ops := RefreshOps(auth, user, password);
    var n: nat :| Enters(s.todo, n) && Ready(s, n, Lightningd) && Ready(s, n, Electrs);
    CredentialsAreHarmless(auth, user, password);
    EntersBehind(ops, s.todo, n);
    ReadyBehind(s, ops, n, Lightningd);
    ReadyBehind(s, ops, n, Electrs);
  }

  /** A unit dies, or systemd tries to start it again. */
  lemma ReadyUnits(s: State, e: Event, n: nat, service: Service)
    requires (e.Dies? || e.AutoStart?) && Enabled(s, e) && IsGated(service) && n <= |s.todo| && Ready(s, n, service)
    ensures Apply(s, e).todo == s.todo && Ready(Apply(s, e), n, service)
  {}

  lemma EnteringUnits(s: State, e: Event)
    requires Entering(s) && (e.Dies? || e.AutoStart?) && Enabled(s, e)
    ensures Entering(Apply(s, e))
  {
    var n: nat :| Enters(s.todo, n) && Ready(s, n, Lightningd) && Ready(s, n, Electrs);
    ReadyUnits(s, e, n, Lightningd);
    ReadyUnits(s, e, n, Electrs);
  }

  lemma KeptStep(s: State, e: Event)
    requires Kept(s) && Enabled(s, e) && Tame(s, e)
    ensures Kept(Apply(s, e))
  {
    if Inv(s) {
      StepKeeps(s, e);
    } else {
      var n: nat :| Enters(s.todo, n) && Ready(s, n, Lightningd) && Ready(s, n, Electrs);
      match e
      case Next(ok) => EnteringNext(s, ok);
      case NewCredentials(auth, user, password) => EnteringCredentials(s, auth, user, password);
      case Reboot(_) => NothingSet(Apply(s, e));
      case _ => EnteringUnits(s, e);
    }
  }

  lemma {:induction false} KeptThroughout(s: State, run: seq<Event>)
    requires Kept(s) && Valid(s, run) && TameRun(s, run)
    ensures Kept(After(s, run)) && Gated(After(s, run))
    decreases |run|
  {
    if run != [] {
      KeptStep(s, run[0]);
      KeptThroughout(Apply(s, run[0]), run[1..]);
    }
  }

  // --- the condition suffices -------------------------------------------------------------------------------

  lemma OtherIsReady(s: State, n: nat, service: Service)
    requires Inv(s) && Enters(s.todo, n) && IsGated(service)
    ensures Ready(s, n, service)
  {
    assert StoppedBy(s.todo, n, service, Down(s, service));
  }

  lemma ForeignIsReady(s: State, n: nat, service: Service, other: Service, ok: bool)
    requires Inv(s) && Enters(s.todo, n) && IsGated(service) && IsGated(other) && StartIsHarmless(s, n, service)
    ensures Ready(Foreign(s, service, ok), n, other)
  {
    OtherIsReady(s, n, other);
  }

  lemma HarmlessStartKeeps(s: State, n: nat, service: Service, ok: bool)
    requires Inv(s) && Enters(s.todo, n) && IsGated(service) && StartIsHarmless(s, n, service)
    ensures KeepsGate(Foreign(s, service, ok))
  {
    var t := Foreign(s, service, ok);
    ForeignIsReady(s, n, service, Lightningd, ok);
    ForeignIsReady(s, n, service, Electrs, ok);
    assert Entering(t);
    forall run | Valid(t, run) && TameRun(t, run) ensures Gated(After(t, run)) { KeptThroughout(t, run); }
  }

  // --- and is necessary -----------------------------------------------------------------------------------------

  lemma TameNexts(s: State, rest: seq<Event>, e: Event)
    requires Enabled(s, e) && !e.Restore? && Valid(Apply(s, e), rest) && TameRun(Apply(s, e), rest)
    ensures Valid(s, [e] + rest) && TameRun(s, [e] + rest) && After(s, [e] + rest) == After(Apply(s, e), rest)
  {
    assert ([e] + rest)[1..] == rest;
  }

  /** A successful harmless operation that stops neither the service nor the command. */
  lemma GoesOn(s: State, service: Service)
    requires s.todo != [] && Harmless(s.todo[0]) && IsGated(service) && s.todo[0] != Stop(service)
    ensures var t := Apply(s, Next(true));
            && t.todo == s.todo[1..] && Get(t.redis, Ibd) == Get(s.redis, Ibd)
            && (service in t.units <==> service in s.units)
            && (service in s.units ==> t.units[service] == s.units[service])
  {
    var u, op := s.(todo := s.todo[1..]), s.todo[0];
    KeyAfter(u, op, true);
    OwnUnitOnly(u, op, true, service);
    NotAborted(u, op);
  }

  lemma NotAborted(s: State, op: Op)
    requires Harmless(op)
    ensures Execute(s, op, true).todo == s.todo
  {}

  lemma NoStopNext(todo: seq<Op>, n: nat, service: Service)
    requires 0 < n <= |todo| && !StopAhead(todo, n, service)
    ensures todo[0] != Stop(service) && !StopAhead(todo[1..], n - 1, service)
  {
    forall i | 0 <= i < n - 1 ensures todo[1..][i] != Stop(service) { assert todo[1..][i] == todo[i + 1]; }
  }

  lemma {:induction false} ActiveServiceBreaks(s: State, n: nat, service: Service) returns (run: seq<Event>)
    requires Enters(s.todo, n) && IsGated(service) && IsActive(s, service) && !StopAhead(s.todo, n, service)
    ensures Valid(s, run) && TameRun(s, run) && !Gated(After(s, run))
    decreases n
  {
    var t := Apply(s, Next(true));
    EntersNext(s.todo, n);
    if n == 0 {
      assert Get(t.redis, Ibd) == "1" && IsActive(t, service);
      TameNexts(s, [], Next(true));
      run := [Next(true)] + [];
    } else {
      NoStopNext(s.todo, n, service);
      GoesOn(s, service);
      var rest := ActiveServiceBreaks(t, n - 1, service);
      TameNexts(s, rest, Next(true));
      run := [Next(true)] + rest;
    }
  }

  /** bitcoind can be up before the key is set. */
  predicate BitcoindComesUp(s: State, n: nat)
    requires n <= |s.todo|
  {
    Bitcoind in s.units && (s.units[Bitcoind] != Stopped || exists j :: 0 <= j < n && Brings(s.todo[j], Bitcoind))
  }

  lemma ServiceComesUp(s: State, n: nat, service: Service) returns (run: seq<Event>)
    requires Enters(s.todo, n) && IsGated(service) && !StopAhead(s.todo, n, service) && Get(s.redis, Ibd) != "1"
    requires service in s.units && s.units[service] == Waiting && IsActive(s, Bitcoind)
    ensures Valid(s, run) && TameRun(s, run) && !Gated(After(s, run))
  {
    var t := Apply(s, AutoStart(service, true));
    assert IsActive(t, service) && t.todo == s.todo;
    var rest := ActiveServiceBreaks(t, n, service);
    TameNexts(s, rest, AutoStart(service, true));
    run := [AutoStart(service, true)] + rest;
  }

  lemma BitcoindBrought(s: State)
    requires s.todo != [] && Brings(s.todo[0], Bitcoind) && Get(s.redis, Ibd) != "1"
    ensures IsActive(Apply(s, Next(true)), Bitcoind)
  {}

  lemma {:induction false} WaitingServiceBreaks(s: State, n: nat, service: Service) returns (run: seq<Event>)
    requires Enters(s.todo, n) && IsGated(service) && !StopAhead(s.todo, n, service) && Get(s.redis, Ibd) != "1"
    requires service in s.units && s.units[service] == Waiting && BitcoindComesUp(s, n)
    ensures Valid(s, run) && TameRun(s, run) && !Gated(After(s, run))
    decreases n
  {
    if s.units[Bitcoind] == Active {
      run := ServiceComesUp(s, n, service);
    } else if s.units[Bitcoind] == Waiting {
      var t := Apply(s, AutoStart(Bitcoind, true));
      assert IsActive(t, Bitcoind) && t.todo == s.todo && t.units[service] == Waiting;
      var rest := ServiceComesUp(t, n, service);
      TameNexts(s, rest, AutoStart(Bitcoind, true));
      run := [AutoStart(Bitcoind, true)] + rest;
    } else {
      run := BroughtServiceBreaks(s, n, service);
    }
  }

  lemma {:induction false} BroughtServiceBreaks(s: State, n: nat, service: Service) returns (run: seq<Event>)
    requires Enters(s.todo, n) && IsGated(service) && !StopAhead(s.todo, n, service) && Get(s.redis, Ibd) != "1"
    requires service in s.units && s.units[service] == Waiting
    requires Bitcoind in s.units && s.units[Bitcoind] == Stopped && exists j :: 0 <= j < n && Brings(s.todo[j], Bitcoind)
    ensures Valid(s, run) && TameRun(s, run) && !Gated(After(s, run))
    decreases n
  {
    var t := Apply(s, Next(true));
    EntersNext(s.todo, n);
    NoStopNext(s.todo, n, service);
    GoesOn(s, service);
    var rest;
    if Brings(s.todo[0], Bitcoind) {
      BitcoindBrought(s);
      rest := ServiceComesUp(t, n - 1, service);
    } else {
      var j :| 0 <= j < n && Brings(s.todo[j], Bitcoind);
      assert t.todo[j - 1] == s.todo[j];
      BitcoindNext(s, true);
      rest := BroughtServiceBreaks(t, n - 1, service);
    }
    TameNexts(s, rest, Next(true));
    run := [Next(true)] + rest;
  }

  lemma UnitsAfterStart(s: State, service: Service, ok: bool)
    requires AllUnits(s) && IsGated(service)
    ensures var t := Foreign(s, service, ok);
            && t.todo == s.todo && t.redis == s.redis && t.units[Bitcoind] == s.units[Bitcoind]
            && (t.units[service] == Active || t.units[service] == Waiting)
  {}

  lemma HarmfulStartBreaks(s: State, n: nat, service: Service, ok: bool) returns (run: seq<Event>)
    requires Enters(s.todo, n) && IsGated(service) && AllUnits(s) && !StartIsHarmless(s, n, service)
    ensures var t := Foreign(s, service, ok); Valid(t, run) && TameRun(t, run) && !Gated(After(t, run))
  {
    var t := Foreign(s, service, ok);
    UnitsAfterStart(s, service, ok);
    if IsActive(t, service) {
      run := ActiveServiceBreaks(t, n, service);
    } else {
      assert BitcoindComesUp(t, n);
      run := WaitingServiceBreaks(t, n, service);
    }
  }

  /** Main result: while a command that enters initial block download is running, something outside it
      that starts or restarts lightningd or electrs (whether that start succeeds or is refused) leaves
      the rule intact in every continuation if and only if the command has yet to stop the service,
      initial block download is already declared, or bitcoind is down and stays so until it is. */
  lemma ForeignStartIff(s: State, n: nat, service: Service, ok: bool)
    requires Inv(s) && Enters(s.todo, n) && IsGated(service) && AllUnits(s)
    ensures KeepsGate(Foreign(s, service, ok)) <==> StartIsHarmless(s, n, service)
  {
    if StartIsHarmless(s, n, service) {
      HarmlessStartKeeps(s, n, service, ok);
    } else {
      var run := HarmfulStartBreaks(s, n, service, ok);
      assert Valid(Foreign(s, service, ok), run) && TameRun(Foreign(s, service, ok), run);
    }
  }

  // --- the two commands --------------------------------------------------------------------------------------------

  /** Where the two commands set the key. */
  function SetsIbdAt(command: Command, redis: Redis): nat
    requires EntersIbd(command)
  {
    if command.Resync? then 3 else |Program(command, redis)| - 1
  }

  predicate EntersIbd(command: Command) { command == EnableIbd(true) || command == Resync }

  lemma CacheIsHarmless(redis: Redis, megabytes: nat)
    ensures forall op :: op in DbCacheOps(redis, megabytes) ==> Harmless(op)
  {}

  lemma EnableEnters(redis: Redis)
    ensures Enters(Program(EnableIbd(true), redis), |Program(EnableIbd(true), redis)| - 1)
  {
    var todo := Program(EnableIbd(true), redis);
    var cache := DbCacheOps(redis, 2000);
    CacheIsHarmless(redis, 2000);
    assert todo == [Stop(Lightningd), Stop(Electrs)] + cache + [Set(Ibd, "1")];
    forall j | 0 <= j < |todo| && j != |todo| - 1 ensures Harmless(todo[j]) {
      if j >= 2 { assert todo[j] == cache[j - 2] && cache[j - 2] in cache; }
    }
  }

  lemma ResyncEnters(redis: Redis)
    ensures Enters(Program(Resync, redis), 3)
  {}

  lemma ProgramEnters(command: Command, redis: Redis)
    requires EntersIbd(command)
    ensures Enters(Program(command, redis), SetsIbdAt(command, redis))
  {
    if command.Resync? { ResyncEnters(redis); } else { EnableEnters(redis); }
  }

  /** What can happen while the command runs, besides the foreign start: its own operations, refreshes of
      bitcoind's credentials, units dying and being started again by systemd, and a reboot that ends it. */
  predicate Meanwhile(e: Event) { !e.Issue? && !e.Restore? }

  /** The rest of the command still declares the download once, or does not any more. */
  ghost predicate OnItsWay(s: State) {
    && Inv(s) && AllUnits(s)
    && ((exists n: nat :: Enters(s.todo, n)) || forall j :: 0 <= j < |s.todo| ==> Harmless(s.todo[j]))
  }

  lemma UnitsStay(s: State, e: Event)
    requires Enabled(s, e) && AllUnits(s) && !e.Next?
    ensures AllUnits(Apply(s, e))
  {}

  lemma UnitsStayNext(s: State, ok: bool)
    requires s.todo != [] && AllUnits(s)
    ensures AllUnits(Apply(s, Next(ok)))
  {}

  lemma NextShortens(s: State, ok: bool)
    requires s.todo != []
    ensures Apply(s, Next(ok)).todo == [] || Apply(s, Next(ok)).todo == s.todo[1..]
  {}

  lemma NextOnItsWay(s: State, ok: bool)
    requires OnItsWay(s) && s.todo != []
    ensures OnItsWay(Apply(s, Next(ok)))
  {
    var t := Apply(s, Next(ok));
    NextKeeps(s, ok);
    UnitsStayNext(s, ok);
    NextShortens(s, ok);
    if n: nat :| Enters(s.todo, n) {
      EntersNext(s.todo, n);
      if t.todo != [] && n > 0 { assert Enters(t.todo, n - 1); }
    } else {
      assert forall j :: 0 <= j < |s.todo[1..]| ==> s.todo[1..][j] == s.todo[j + 1];
    }
  }

  lemma RefreshOnItsWay(s: State, auth: string, user: string, password: string)
    requires OnItsWay(s)
    ensures OnItsWay(Apply(s, NewCredentials(auth, user, password)))
  {
    var ops := RefreshOps(auth, user, password);
    StepKeeps(s, NewCredentials(auth, user, password));
    UnitsStay(s, NewCredentials(auth, user, password));
    CredentialsAreHarmless(auth, user, password);
    if n: nat :| Enters(s.todo, n) {
      EntersBehind(ops, s.todo, n);
    } else {
      var all := ops + s.todo;
      assert forall j :: 0 <= j < |all| ==> all[j] == if j < |ops| then ops[j] else s.todo[j - |ops|];
    }
  }

  lemma StepOnItsWay(s: State, e: Event)
    requires OnItsWay(s) && Enabled(s, e) && Meanwhile(e)
    ensures OnItsWay(Apply(s, e))
  {
    match e
    case Next(ok) => NextOnItsWay(s, ok);
    case NewCredentials(auth, user, password) => RefreshOnItsWay(s, auth, user, password);
    case _ =>
      StepKeeps(s, e);
      UnitsStay(s, e);
  }

  lemma {:induction false} RunOnItsWay(s: State, run: seq<Event>)
    requires OnItsWay(s) && Valid(s, run) && forall e :: e in run ==> Meanwhile(e)
    ensures OnItsWay(After(s, run))
    decreases |run|
  {
    if run != [] {
      assert run[0] in run && forall e :: e in run[1..] ==> e in run;
      StepOnItsWay(s, run[0]);
      RunOnItsWay(Apply(s, run[0]), run[1..]);
    }
  }

  lemma {:induction false} InvKeepsGate(s: State)
    requires Inv(s)
    ensures KeepsGate(s)
  {
    forall run | Valid(s, run) && TameRun(s, run) ensures Gated(After(s, run)) { GatedThroughout(s, run); }
  }

  /** Once the command does not declare the download any more, no start can do harm. */
  lemma NothingLeftToDeclare(s: State, service: Service, ok: bool)
    requires Gated(s) && IsGated(service) && forall j :: 0 <= j < |s.todo| ==> Harmless(s.todo[j])
    ensures KeepsGate(Foreign(s, service, ok))
  {
    var t := Foreign(s, service, ok);
    assert Gated(t) && t.todo == s.todo;
    NothingSet(t);
    InvKeepsGate(t);
  }

  lemma OnlyOnce(todo: seq<Op>, n: nat, m: nat)
    requires Enters(todo, n) && Enters(todo, m)
    ensures n == m
  {}

  /** Where the command stands, a start of the service from outside is harmless. */
  ghost predicate PositionIsHarmless(s: State, service: Service) {
    forall n: nat :: Enters(s.todo, n) ==> StartIsHarmless(s, n, service)
  }

  lemma ForeignStartOnItsWay(s: State, service: Service, ok: bool)
    requires OnItsWay(s) && IsGated(service)
    ensures KeepsGate(Foreign(s, service, ok)) <==> PositionIsHarmless(s, service)
  {
    if n: nat :| Enters(s.todo, n) {
      ForeignStartIff(s, n, service, ok);
      forall m: nat | Enters(s.todo, m) ensures m == n { OnlyOnce(s.todo, n, m); }
    } else {
      NothingLeftToDeclare(s, service, ok);
    }
  }

  /** Main result for the two commands: at every position that they reach, with credential refreshes,
      failing and restarting units and reboots on the way, a start of one of the two services from outside
      leaves the rule intact in every continuation exactly under that condition. */
  lemma EveryPosition(s: State, command: Command, run: seq<Event>, service: Service, ok: bool)
    requires s.todo == [] && Inv(s) && AllUnits(s) && EntersIbd(command) && IsGated(service)
    requires Valid(Apply(s, Issue(command)), run) && forall e :: e in run ==> Meanwhile(e)
    ensures var u := After(Apply(s, Issue(command)), run);
            KeepsGate(Foreign(u, service, ok)) <==> PositionIsHarmless(u, service)
  {
    var t := Apply(s, Issue(command));
    ProgramEnters(command, s.redis);
    StepKeeps(s, Issue(command));
    RunOnItsWay(t, run);
    ForeignStartOnItsWay(After(t, run), service, ok);
  }

  const RUNNING := State(
    map[], map[], map[Bitcoind := UnitState.Active, Lightningd := UnitState.Active, Electrs := UnitState.Active], [])

  lemma AfterBothStops(s: State)
    requires s.todo == [] && AllUnits(s)
    ensures var t := Apply(s, Issue(EnableIbd(true)));
            && Valid(t, [Next(true), Next(true)])
            && var u := After(t, [Next(true), Next(true)]);
               u.redis == s.redis && u.todo == DbCacheOps(s.redis, 2000) + [Set(Ibd, "1")]
               && u.units[Bitcoind] == s.units[Bitcoind]
  {
    var t := Apply(s, Issue(EnableIbd(true)));
    var u := Apply(t, Next(true));
    var rest := DbCacheOps(s.redis, 2000) + [Set(Ibd, "1")];
    assert t.todo == [Stop(Lightningd)] + ([Stop(Electrs)] + rest);
    StopStops(t.(todo := t.todo[1..]), Lightningd, true);
    OwnUnitOnly(t.(todo := t.todo[1..]), Stop(Lightningd), true, Bitcoind);
    assert u.todo == [Stop(Electrs)] + rest;
    StopStops(u.(todo := u.todo[1..]), Electrs, true);
    OwnUnitOnly(u.(todo := u.todo[1..]), Stop(Electrs), true, Bitcoind);
    assert [Next(true), Next(true)][1..] == [Next(true)] && [Next(true)][1..] == [];
  }

  lemma CacheStopsNothing(redis: Redis, n: nat, service: Service)
    requires n <= |DbCacheOps(redis, 2000)|
    ensures !StopAhead(DbCacheOps(redis, 2000) + [Set(Ibd, "1")], n, service)
  {
    CacheOpsStopNothing(redis, 2000, service);
    var todo := DbCacheOps(redis, 2000) + [Set(Ibd, "1")];
    assert forall i :: 0 <= i < n ==> todo[i] == DbCacheOps(redis, 2000)[i];
  }

  lemma CacheOpsStopNothing(redis: Redis, megabytes: nat, service: Service)
    ensures forall op :: op in DbCacheOps(redis, megabytes) ==> op != Stop(service)
  {}

  lemma RestEnters(redis: Redis)
    ensures Enters(DbCacheOps(redis, 2000) + [Set(Ibd, "1")], |DbCacheOps(redis, 2000)|)
  {
    var cache := DbCacheOps(redis, 2000);
    var todo := cache + [Set(Ibd, "1")];
    CacheIsHarmless(redis, 2000);
    forall j | 0 <= j < |todo| && j != |cache| ensures Harmless(todo[j]) { assert todo[j] == cache[j] && cache[j] in cache; }
  }

  /** It happens: with everything running, enter initial block download; once both services have been
      stopped, a restart of either from elsewhere leads to it running during the download. */
  lemma OverlapBreaks(service: Service, ok: bool)
    requires IsGated(service)
    ensures var t := Apply(RUNNING, Issue(EnableIbd(true)));
            && Valid(t, [Next(true), Next(true)])
            && !KeepsGate(Foreign(After(t, [Next(true), Next(true)]), service, ok))
  {
    var redis := RUNNING.redis;
    var run := [Next(true), Next(true)];
    AfterBothStops(RUNNING);
    var u := After(Apply(RUNNING, Issue(EnableIbd(true))), run);
    var n := |DbCacheOps(redis, 2000)|;
    CacheIsHarmless(redis, 2000);
    CacheStopsNothing(redis, n, service);
    RestEnters(redis);
    assert Enters(u.todo, n) && !StartIsHarmless(u, n, service);
    EveryPosition(RUNNING, EnableIbd(true), run, service, ok);
  }
}
