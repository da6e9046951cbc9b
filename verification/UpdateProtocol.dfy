/** The image update: `bbb-cmd.sh mender-update install|commit` and the boot-time check script,
    which resume from the status kept in the Redis key base:updating. Every command can fail,
    every status write can be lost, and the power can go at any step. */
module UpdateProtocol {

  /** Where the check script stands; `Off` is not running. */
  datatype Pc =
    | Off
    | Begin
    | At10 | Hostname(wifi: bool) | Regenerating(left: nat, all: nat) | Set20
    | At20 | Verify(attempt: nat) | Enabling | Set30 | Set90 | NotifyFallback | Rebooting
    | At30 | Committing | CommandSet40 | Set40 | NotifyCommitFailed
    | At40 | Set0 | StartupTasks | NotifySuccess

  /** `memory` is what redis_get returns (-1 for a missing key), `disk` what survives a crash. */
  datatype State = State(
    memory: int,
    disk: int,
    script: Pc,
    recording: bool,     // an install has been applied and is about to write its status
    // since the last install was applied
    intact: bool,        // the generation of files under way began
    regenerated: bool,   // all configuration files were generated
    verified: bool,      // one service verification succeeded after that
    committed: bool)     // one commit returned success

  /** Number of templates the script regenerates, one more with Wi-Fi enabled. */
  const TEMPLATES := 10
  const MAX_ATTEMPTS := 100

  datatype Action =
    | InstallApplied                            // mender -install returned success
    | InstallRecorded(stored: bool, save: bool)    // redis_set "base:updating" 10
    | Snapshot                                  // Redis saves on its own
    | Crash                                     // power loss or reboot
    | Boot                                      // the check script is started
    | Script(ok: bool, saved: bool)             // next command of the script and its outcome

  /** redis_set: SET and SAVE can fail independently, and the script carries on. */
  function Write(s: State, value: int, stored: bool, save: bool): State {
    var t := if stored then s.(memory := value) else s;
    if save then t.(disk := t.memory) else t
  }

  predicate Enabled(s: State, a: Action) {
    match a
    case InstallApplied => !s.recording
    case InstallRecorded(_, _) => s.recording
    case Boot => s.script.Off?
    case Script(_, _) => !s.script.Off?
    case _ => true
  }

  function FirstFile(all: nat): Pc { Regenerating(all, all) }

  /** One command of systemd-update-checks.sh. */
  function Advance(s: State, ok: bool, saved: bool): State
    requires !s.script.Off?
  {
    match s.script
    case Begin => s.(script := if s.memory == 0 then Off else At10)
    case At10 => s.(script := if s.memory == 10 then Hostname(ok) else At20)
    case Hostname(wifi) => s.(script := if ok then FirstFile(if wifi then TEMPLATES + 1 else TEMPLATES) else Off)
    case Regenerating(left, all) =>
      if left == 0 then s.(script := Set20, regenerated := s.intact)
      else if ok then s.(script := Regenerating(left - 1, all), intact := left == all || s.intact)
      else s.(script := Off)
    case Set20 => Write(s, 20, ok, saved).(script := At20)
    case At20 => s.(script := if s.memory == 20 then Verify(1) else At30)
    case Verify(attempt) =>
      if ok then s.(script := Enabling, verified := true)
      else s.(script := if attempt < MAX_ATTEMPTS then Verify(attempt + 1) else Set90)
    case Enabling => s.(script := if ok then Set30 else Off)
    case Set30 => Write(s, 30, ok, saved).(script := At30)
    case Set90 => Write(s, 90, ok, saved).(script := NotifyFallback)
    case NotifyFallback => s.(script := Rebooting)
    case Rebooting => s.(script := At30)
    case At30 => s.(script := if s.memory == 30 then Committing else At40)
    case Committing => if ok then s.(script := CommandSet40, committed := true) else s.(script := NotifyCommitFailed)
    case CommandSet40 => Write(s, 40, ok, saved).(script := Set40)
    case Set40 => Write(s, 40, ok, saved).(script := At40)
    case NotifyCommitFailed => s.(script := At40)
    case At40 => s.(script := if s.memory == 40 then Set0 else Off)
    case Set0 => Write(s, 0, ok, saved).(script := StartupTasks)
    case StartupTasks => s.(script := if ok then NotifySuccess else Off)
    case NotifySuccess => s.(script := Off)
    case Off => s
  }

  function Apply(s: State, a: Action): State
    requires Enabled(s, a)
  {
    match a
    case InstallApplied => s.(recording := true, intact := false, regenerated := false, verified := false, committed := false)
    case InstallRecorded(stored, save) => Write(s, 10, stored, save).(recording := false)
    case Snapshot => s.(disk := s.memory)
    case Crash => s.(memory := s.disk, script := Off, recording := false)
    case Boot => s.(script := Begin)
    case Script(ok, saved) => Advance(s, ok, saved)
  }

  predicate Valid(s: State, run: seq<Action>)
    decreases |run|
  {
    run == [] || (Enabled(s, run[0]) && Valid(Apply(s, run[0]), run[1..]))
  }

  function After(s: State, run: seq<Action>): State
    requires Valid(s, run)
    decreases |run|
  {
    if run == [] then s else After(Apply(s, run[0]), run[1..])
  }

  /** A Base that has never been updated. */
  const FACTORY := State(0, 0, Off, false, false, false, false, false)

  // --- the promise ---------------------------------------------------------------------------------

  /** No commit is about to be tried without regenerated configuration and a successful
      verification since the last install, and no success about to be announced without a commit. */
  predicate Safe(s: State) {
    && (s.script.Committing? ==> s.regenerated && s.verified)
    && (s.script.NotifySuccess? ==> s.committed)
  }

  /** A status that makes the script skip work it has not done for the current install. */
  predicate Stale(status: int) { status == 20 || status == 30 || status == 40 }

  /** Installs run while the script does not, and none ends leaving a stale status behind. */
  predicate Orderly(s: State, a: Action)
    requires Enabled(s, a)
  {
    && (a.InstallApplied? ==> s.script.Off?)
    && (s.recording ==> !a.Boot?)
    && (s.recording && !Apply(s, a).recording ==> !Stale(Apply(s, a).memory) && !Stale(Apply(s, a).disk))
  }

  predicate OrderlyRun(s: State, run: seq<Action>)
    requires Valid(s, run)
    decreases |run|
  {
    run == [] || (Orderly(s, run[0]) && OrderlyRun(Apply(s, run[0]), run[1..]))
  }

  /** What each status stands for. */
  predicate Earned(status: int, s: State) {
    && (status == 20 ==> s.regenerated)
    && (status == 30 ==> s.regenerated && s.verified)
    && (status == 40 ==> s.committed)
  }

  predicate EarnedAt(s: State) {
    && (s.script.Regenerating? ==> s.intact || 0 < s.script.all <= s.script.left)
    && (s.script.Set20? || s.script.Verify? ==> s.regenerated)
    && (s.script.Enabling? || s.script.Set30? || s.script.Committing? ==> s.regenerated && s.verified)
    && (s.script.CommandSet40? || s.script.Set40? || s.script.Set0? || s.script.StartupTasks? || s.script.NotifySuccess?
        ==> s.committed)
  }

  /** Both statuses and the place of the script are earned by what was done for the last install. */
  predicate Sound(s: State) { Earned(s.memory, s) && Earned(s.disk, s) && EarnedAt(s) }

  predicate Inv(s: State) { if s.recording then s.script.Off? else Sound(s) }

  predicate WritesStatus(script: Pc) {
    script.Set20? || script.Set30? || script.Set90? || script.CommandSet40? || script.Set40? || script.Set0?
  }

  lemma SoundAfterWrite(s: State, ok: bool, saved: bool)
    requires Sound(s) && WritesStatus(s.script)
    ensures Sound(Advance(s, ok, saved))
  {}

  /** The commands up to the verification of the services. */
  predicate IsEarly(script: Pc) {
    script.Begin? || script.At10? || script.Hostname? || script.Regenerating? || script.At20?
  }

  lemma SoundAfterEarly(s: State, ok: bool, saved: bool)
    requires Sound(s) && IsEarly(s.script)
    ensures Sound(Advance(s, ok, saved))
  {}

  predicate IsCommand(script: Pc) {
    script.Verify? || script.Enabling? || script.Committing? || script.StartupTasks? || script.NotifySuccess?
  }

  lemma SoundAfterVital(s: State, ok: bool, saved: bool)
    requires Sound(s) && IsCommand(s.script)
    ensures Sound(Advance(s, ok, saved))
  {}

  lemma SoundAfterOther(s: State, ok: bool, saved: bool)
    requires Sound(s) && !s.script.Off? && !WritesStatus(s.script) && !IsEarly(s.script) && !IsCommand(s.script)
    ensures Sound(Advance(s, ok, saved))
  {}

  lemma SoundAfterCommand(s: State, ok: bool, saved: bool)
    requires Sound(s) && !s.script.Off? && !WritesStatus(s.script)
    ensures Sound(Advance(s, ok, saved))
  {
    if IsEarly(s.script) { SoundAfterEarly(s, ok, saved); }
    else if IsCommand(s.script) { SoundAfterVital(s, ok, saved); }
    else { SoundAfterOther(s, ok, saved); }
  }

  lemma InvStep(s: State, a: Action)
    requires Inv(s) && Enabled(s, a) && Orderly(s, a)
    ensures Inv(Apply(s, a)) && Safe(Apply(s, a))
  {
    match a
    case Script(ok, saved) =>
      if WritesStatus(s.script) { SoundAfterWrite(s, ok, saved); } else { SoundAfterCommand(s, ok, saved); }
    case _ =>
  }

  /** Main result: in every orderly run, with crashes and lost writes anywhere, every state is safe. */
  lemma {:induction false} OrderlyRunsAreSafe(s: State, run: seq<Action>)
    requires Inv(s) && Safe(s) && Valid(s, run) && OrderlyRun(s, run)
    ensures Safe(After(s, run)) && Inv(After(s, run))
    decreases |run|
  {
    if run != [] {
      InvStep(s, run[0]);
      OrderlyRunsAreSafe(Apply(s, run[0]), run[1..]);
    }
  }

  lemma UpdatesAreSafe(run: seq<Action>)
    requires Valid(FACTORY, run) && OrderlyRun(FACTORY, run)
    ensures Safe(After(FACTORY, run))
  {
    OrderlyRunsAreSafe(FACTORY, run);
  }

  // --- and exactly when it holds -------------------------------------------------------------------

  predicate NoInstall(run: seq<Action>) { forall a :: a in run ==> !a.InstallApplied? }

  /** The Base right after an install ended, however it ended. */
  predicate Installed(s: State) { s.script.Off? && !s.recording && !s.regenerated && !s.verified && !s.committed }

  lemma NotRecording(s: State, a: Action)
    requires Enabled(s, a) && !s.recording && !a.InstallApplied?
    ensures !Apply(s, a).recording && Orderly(s, a)
  {}

  lemma {:induction false} WithoutInstallOrderly(s: State, run: seq<Action>)
    requires Valid(s, run) && !s.recording && NoInstall(run)
    ensures OrderlyRun(s, run)
    decreases |run|
  {
    if run != [] {
      assert run[0] in run && forall a :: a in run[1..] ==> a in run;
      NotRecording(s, run[0]);
      WithoutInstallOrderly(Apply(s, run[0]), run[1..]);
    }
  }

  lemma {:induction false} Extend(s: State, run: seq<Action>, a: Action)
    requires Valid(s, run) && Enabled(After(s, run), a) && NoInstall(run) && !a.InstallApplied?
    ensures Valid(s, run + [a]) && After(s, run + [a]) == Apply(After(s, run), a) && NoInstall(run + [a])
    decreases |run|
  {
    if run == [] {
      assert [a][1..] == [] && [] + [a] == [a];
    } else {
      assert (run + [a])[1..] == run[1..] + [a];
      assert forall b :: b in run[1..] ==> b in run;
      Extend(Apply(s, run[0]), run[1..], a);
    }
  }

  function Remaining(script: Pc): nat {
    if script.Begin? then 40
    else if script.At10? then 39
    else if script.Hostname? then 38
    else if script.Regenerating? then 20 + script.left
    else if script.Set20? then 19
    else if script.At20? then 18
    else if script.Verify? then 17
    else if script.Enabling? then 16
    else if script.Set30? then 15
    else if script.At30? then 14
    else if script.Committing? then 13
    else if script.CommandSet40? then 12
    else if script.Set40? then 11
    else if script.At40? then 10
    else if script.Set0? then 9
    else if script.StartupTasks? then 8
    else 7
  }

  /** A place from which the script, undisturbed, tries a commit or announces success unearned. */
  predicate BadTrack(s: State) {
    || !EarnedAt(s)
    || ((s.script.Begin? || s.script.At10? || s.script.At20?) && !Earned(s.memory, s))
    || (s.script.At30? && (s.memory == 30 || s.memory == 40) && !Earned(s.memory, s))
    || (s.script.At40? && s.memory == 40 && !Earned(s.memory, s))
  }

  lemma BadTrackEarly(s: State)
    requires BadTrack(s) && (IsEarly(s.script) || s.script.Set20? || s.script.Verify?)
    ensures BadTrack(Advance(s, true, true)) && Remaining(Advance(s, true, true).script) < Remaining(s.script)
  {}

  lemma BadTrackLate(s: State)
    requires BadTrack(s) && Safe(s) && !IsEarly(s.script) && !s.script.Set20? && !s.script.Verify?
    ensures !s.script.Off? && BadTrack(Advance(s, true, true))
    ensures Remaining(Advance(s, true, true).script) < Remaining(s.script)
  {}

  lemma BadTrackStep(s: State)
    requires BadTrack(s) && Safe(s)
    ensures !s.script.Off? && BadTrack(Advance(s, true, true))
    ensures Remaining(Advance(s, true, true).script) < Remaining(s.script)
  {
    if IsEarly(s.script) || s.script.Set20? || s.script.Verify? { BadTrackEarly(s); } else { BadTrackLate(s); }
  }

  lemma {:induction false} BadTrackEndsUnsafe(s: State, run: seq<Action>) returns (longer: seq<Action>)
    requires Valid(s, run) && NoInstall(run) && BadTrack(After(s, run))
    ensures Valid(s, longer) && NoInstall(longer) && !Safe(After(s, longer))
    decreases Remaining(After(s, run).script)
  {
    if Safe(After(s, run)) {
      BadTrackStep(After(s, run));
      Extend(s, run, Script(true, true));
      longer := BadTrackEndsUnsafe(s, run + [Script(true, true)]);
    } else {
      longer := run;
    }
  }

  /** From an unsound state, at most a snapshot, a crash and a boot away, the promise is broken. */
  lemma UnsoundIsUnsafe(s: State) returns (run: seq<Action>)
    requires !Sound(s)
    ensures Valid(s, run) && NoInstall(run) && !Safe(After(s, run))
  {
    run := [];
    if EarnedAt(s) {
      if Earned(s.disk, s) {
        Extend(s, run, Snapshot);
        run := run + [Snapshot];
      }
      Extend(s, run, Crash);
      run := run + [Crash];
      Extend(s, run, Boot);
      run := run + [Boot];
    }
    run := BadTrackEndsUnsafe(s, run);
  }

  lemma SoundStep(s: State, a: Action)
    requires Sound(s) && Enabled(s, a) && !a.InstallApplied?
    ensures Sound(Apply(s, a))
  {
    if a.Script? {
      if WritesStatus(s.script) { SoundAfterWrite(s, a.ok, a.saved); } else { SoundAfterCommand(s, a.ok, a.saved); }
    }
  }

  lemma {:induction false} SoundRunsAreSafe(s: State, run: seq<Action>)
    requires Sound(s) && Valid(s, run) && NoInstall(run)
    ensures Sound(After(s, run)) && Safe(After(s, run))
    decreases |run|
  {
    if run != [] {
      assert run[0] in run && forall a :: a in run[1..] ==> a in run;
      SoundStep(s, run[0]);
      SoundRunsAreSafe(Apply(s, run[0]), run[1..]);
    }
  }

  /** Main result: from any state at all, wherever the script stands and whether an install is still to
      be recorded, every continuation without another install is safe if and only if both statuses and
      the script's place are earned. */
  lemma SafeIffSound(s: State)
    ensures (forall run :: Valid(s, run) && NoInstall(run) ==> Safe(After(s, run))) <==> Sound(s)
  {
    if Sound(s) {
      forall run | Valid(s, run) && NoInstall(run) ensures Safe(After(s, run)) { SoundRunsAreSafe(s, run); }
    } else {
      var run := UnsoundIsUnsafe(s);
      assert Valid(s, run) && NoInstall(run) && !Safe(After(s, run));
    }
  }

  /** The case of an install that ended while the script was not running: safe exactly if it left no
      stale status, neither in memory nor on disk. */
  lemma SafeIffNotStale(s: State)
    requires Installed(s)
    ensures (forall run :: Valid(s, run) && NoInstall(run) ==> Safe(After(s, run)))
        <==> !Stale(s.memory) && !Stale(s.disk)
  {
    SafeIffSound(s);
  }

  // --- an install beside the running script ------------------------------------------------------------

  /** Where the script has done nothing yet that an install would undo, and will not act on it. */
  predicate Unconcerned(script: Pc) {
    || script.Off? || script.Begin? || script.At10? || script.Hostname?
    || (script.Regenerating? && 0 < script.all <= script.left)
    || script.At20? || script.Set90? || script.NotifyFallback? || script.Rebooting?
    || script.At30? || script.NotifyCommitFailed? || script.At40?
  }

  /** Main result: an install beside the script, whatever happens before it is recorded, is harmless if
      and only if the script stands at one of those places and neither status is stale. */
  lemma InstallIsHarmlessIff(s: State)
    requires !s.recording
    ensures (forall run :: Valid(Apply(s, InstallApplied), run) && NoInstall(run) ==> Safe(After(Apply(s, InstallApplied), run)))
        <==> Unconcerned(s.script) && !Stale(s.memory) && !Stale(s.disk)
  {
    SafeIffSound(Apply(s, InstallApplied));
  }

  /** The same once it has been recorded, well or badly, before the script went on. */
  lemma RecordedInstallIsHarmlessIff(s: State, stored: bool, save: bool)
    requires !s.recording
    ensures var t := Apply(Apply(s, InstallApplied), InstallRecorded(stored, save));
            (forall run :: Valid(t, run) && NoInstall(run) ==> Safe(After(t, run)))
            <==> Unconcerned(s.script) && !Stale(t.memory) && !Stale(t.disk)
  {
    SafeIffSound(Apply(Apply(s, InstallApplied), InstallRecorded(stored, save)));
  }

  // --- it happens ----------------------------------------------------------------------------------------

  /** Every command and every write succeeds. */
  predicate Succeeds(a: Action) {
    (a.Script? ==> a.ok && a.saved) && (a.InstallRecorded? ==> a.stored && a.save)
  }

  predicate AllSucceed(run: seq<Action>) { forall a :: a in run ==> Succeeds(a) }

  lemma {:induction false} Append(s: State, run: seq<Action>, more: seq<Action>)
    requires Valid(s, run) && Valid(After(s, run), more)
    ensures Valid(s, run + more) && After(s, run + more) == After(After(s, run), more)
    decreases |run|
  {
    if run == [] {
      assert run + more == more;
    } else {
      assert (run + more)[1..] == run[1..] + more;
      Append(Apply(s, run[0]), run[1..], more);
    }
  }

  /** On the way from a recorded install to status `goal`. */
  predicate Towards(s: State, goal: int) {
    || ((s.script.Begin? || s.script.At10?) && s.memory == 10)
    || s.script.Hostname? || s.script.Regenerating? || s.script.Set20?
    || (goal == 30 && ((s.script.At20? && s.memory == 20) || s.script.Verify? || s.script.Enabling?))
  }

  predicate Arrived(s: State, goal: int) {
    if goal == 30 then s.script.Set30? else s.script.At20? && s.memory == 20
  }

  lemma TowardsStep(s: State, goal: int)
    requires (goal == 20 || goal == 30) && !s.recording && Towards(s, goal) && !Arrived(s, goal)
    ensures !s.script.Off? && !Advance(s, true, true).recording
    ensures Towards(Advance(s, true, true), goal) || Arrived(Advance(s, true, true), goal)
    ensures Remaining(Advance(s, true, true).script) < Remaining(s.script)
  {}

  lemma {:induction false} Arrives(s: State, goal: int) returns (run: seq<Action>)
    requires (goal == 20 || goal == 30) && !s.recording && (Towards(s, goal) || Arrived(s, goal))
    ensures Valid(s, run) && AllSucceed(run) && NoInstall(run)
    ensures Arrived(After(s, run), goal) && !After(s, run).recording
    decreases Remaining(s.script)
  {
    if Arrived(s, goal) {
      run := [];
    } else {
      TowardsStep(s, goal);
      var rest := Arrives(Advance(s, true, true), goal);
      run := [Script(true, true)] + rest;
      assert run[1..] == rest;
    }
  }

  /** A Base that installs an update and checks it, up to the given status. */
  lemma FirstUpdate(goal: int) returns (run: seq<Action>)
    requires goal == 20 || goal == 30
    ensures Valid(FACTORY, run) && AllSucceed(run) && Arrived(After(FACTORY, run), goal) && !After(FACTORY, run).recording
  {
    var start := [InstallApplied, InstallRecorded(true, true), Boot];
    assert start[1..] == [InstallRecorded(true, true), Boot] && start[1..][1..] == [Boot] && [Boot][1..] == [];
    assert Valid(FACTORY, start) && After(FACTORY, start).script.Begin? && After(FACTORY, start).memory == 10;
    var rest := Arrives(After(FACTORY, start), goal);
    Append(FACTORY, start, rest);
    run := start + rest;
  }

  /** An install beside the script breaks the promise although every command and every write of the
      whole history succeeds: the script is about to record status 30 when a second one comes. */
  lemma ConcurrentInstallIsUnsafe() returns (run: seq<Action>)
    ensures Valid(FACTORY, run) && AllSucceed(run) && !Safe(After(FACTORY, run))
  {
    var first := FirstUpdate(30);
    var s := After(FACTORY, first);
    var ok := Script(true, true);
    var recorded := Apply(Apply(s, InstallApplied), InstallRecorded(true, true));
    assert Advance(recorded, true, true).script.At30? && Advance(recorded, true, true).memory == 30;
    assert Valid(Advance(recorded, true, true), [ok]) by { assert [ok][1..] == []; }
    First(recorded, ok, [ok]);
    First(Apply(s, InstallApplied), InstallRecorded(true, true), [ok] + [ok]);
    var tail := [InstallApplied] + ([InstallRecorded(true, true)] + ([ok] + [ok]));
    First(s, InstallApplied, [InstallRecorded(true, true)] + ([ok] + [ok]));
    Append(FACTORY, first, tail);
    run := first + tail;
  }

  lemma First(s: State, a: Action, rest: seq<Action>)
    requires Enabled(s, a) && Valid(Apply(s, a), rest)
    ensures Valid(s, [a] + rest) && After(s, [a] + rest) == After(Apply(s, a), rest)
  {
    assert ([a] + rest)[1..] == rest;
  }

  /** A stale status is reached as well: the power goes after status 20 was recorded, a second update is
      installed, and the write of its status is lost. */
  lemma StaleIsReachable() returns (run: seq<Action>)
    ensures Valid(FACTORY, run) && Installed(After(FACTORY, run)) && Stale(After(FACTORY, run).memory)
  {
    var first := FirstUpdate(20);
    var s := After(FACTORY, first);
    var crashed := Apply(Apply(s, Snapshot), Crash);
    var lost := InstallRecorded(false, false);
    assert Valid(Apply(crashed, InstallApplied), [lost]) by { assert [lost][1..] == []; }
    First(crashed, InstallApplied, [lost]);
    First(Apply(s, Snapshot), Crash, [InstallApplied] + [lost]);
    First(s, Snapshot, [Crash] + ([InstallApplied] + [lost]));
    var tail := [Snapshot] + ([Crash] + ([InstallApplied] + [lost]));
    Append(FACTORY, first, tail);
    run := first + tail;
  }

  /** redis_get, on what redis-cli prints: nothing for a missing key. */
  function RedisGet(printed: string): (r: string)
    ensures r != "" && (printed == "" ==> r == "-1") && (printed != "" ==> r == printed)
  {
    if printed == "" then "-1" else printed
  }

  /** A status other than those of the stages, such as the -1 that redis_get makes of a missing key, lets
      the script run through without doing anything. */
  lemma UnknownStatusDoesNothing(s: State, steps: seq<Action>)
    requires s.script.Begin? && s.memory != 0 && s.memory != 10 && !Stale(s.memory)
    requires |steps| == 5 && forall i :: 0 <= i < 5 ==> steps[i].Script?
    ensures Valid(s, steps) && After(s, steps) == s.(script := Off)
  {
    var at40 := s.(script := At40);
    assert steps[4..][1..] == [];
    SplitFirst(at40, steps[4..]);
    SplitFirst(s.(script := At30), steps[3..]);
    SplitFirst(s.(script := At20), steps[2..]);
    SplitFirst(s.(script := At10), steps[1..]);
    SplitFirst(s, steps);
  }

  lemma SplitFirst(s: State, run: seq<Action>)
    requires run != [] && Enabled(s, run[0]) && Valid(Apply(s, run[0]), run[1..])
    ensures Valid(s, run) && After(s, run) == After(Apply(s, run[0]), run[1..])
  {}

  // --- resuming ------------------------------------------------------------------------------------

  /** The status the script has recorded when it stands at a place on its successful path. */
  predicate OnTrack(s: State) {
    || ((s.script.Begin? || s.script.At10?) && (s.memory == 10 || Stale(s.memory)))
    || (s.script.At20? && Stale(s.memory))
    || (s.script.At30? && (s.memory == 30 || s.memory == 40))
    || (s.script.At40? && s.memory == 40)
    || s.script.Hostname? || s.script.Regenerating? || s.script.Set20?
    || s.script.Verify? || s.script.Enabling? || s.script.Set30?
    || s.script.Committing? || s.script.CommandSet40? || s.script.Set40? || s.script.Set0?
    || ((s.script.StartupTasks? || s.script.NotifySuccess?) && s.memory == s.disk == 0)
  }

  /** The next `steps` commands of the script, all successful. */
  predicate StaysOn(s: State, steps: nat)
    decreases steps
  {
    steps == 0 || (!s.script.Off? && StaysOn(Advance(s, true, true), steps - 1))
  }

  function Ahead(s: State, steps: nat): State
    requires StaysOn(s, steps)
    decreases steps
  {
    if steps == 0 then s else Ahead(Advance(s, true, true), steps - 1)
  }

  lemma OnTrackEarly(s: State)
    requires OnTrack(s) && IsEarly(s.script)
    ensures OnTrack(Advance(s, true, true)) && Remaining(Advance(s, true, true).script) < Remaining(s.script)
  {}

  lemma OnTrackWrite(s: State)
    requires OnTrack(s) && WritesStatus(s.script)
    ensures OnTrack(Advance(s, true, true)) && Remaining(Advance(s, true, true).script) < Remaining(s.script)
  {}

  lemma OnTrackVital(s: State)
    requires OnTrack(s) && IsCommand(s.script) && !s.script.NotifySuccess?
    ensures OnTrack(Advance(s, true, true)) && Remaining(Advance(s, true, true).script) < Remaining(s.script)
  {}

  lemma OnTrackOther(s: State)
    requires OnTrack(s) && !IsEarly(s.script) && !WritesStatus(s.script) && !IsCommand(s.script)
    ensures OnTrack(Advance(s, true, true)) && Remaining(Advance(s, true, true).script) < Remaining(s.script)
  {}

  lemma OnTrackStep(s: State)
    requires OnTrack(s) && !s.script.NotifySuccess?
    ensures OnTrack(Advance(s, true, true)) && Remaining(Advance(s, true, true).script) < Remaining(s.script)
  {
    if IsEarly(s.script) { OnTrackEarly(s); }
    else if WritesStatus(s.script) { OnTrackWrite(s); }
    else if IsCommand(s.script) { OnTrackVital(s); }
    else { OnTrackOther(s); }
  }

  /** From whichever status a crash left behind, one undisturbed run of the script finishes the
      update: it announces success and leaves status 0 in memory and on disk. */
  lemma {:induction false} Resumes(s: State) returns (steps: nat)
    requires OnTrack(s)
    ensures StaysOn(s, steps) && Ahead(s, steps).script.NotifySuccess?
    ensures Ahead(s, steps).memory == 0 && Ahead(s, steps).disk == 0
    decreases Remaining(s.script)
  {
    if s.script.NotifySuccess? {
      steps := 0;
    } else {
      OnTrackStep(s);
      var rest := Resumes(Advance(s, true, true));
      steps := rest + 1;
    }
  }
}
