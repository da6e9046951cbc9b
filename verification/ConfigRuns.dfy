/** Whole runs of the configuration commands: the files stay consistent with each other, torrc does
    not follow the tor switch, and the configuration that follows an update repairs every file. */
module ConfigRuns {
  import opened Options
  import opened ConfigTemplates
  import opened BaseSystem
  import opened ConfigViews
  import opened ConfigLines
  import opened ConfigFacts
  import opened ConfigEngine
  import T = Template
  import opened Decimal
  import opened TemplateIdempotence
  import Text
  import ConfigScripts

  // --- the values stay such that the files are consistent -----------------------------------------------

  predicate IsBit(value: string) { value == "0" || value == "1" }

  predicate IsSwitch(key: Key) { key == TorBase || key == IbdClearnet }

  /** One line that cannot open a placeholder. */
  predicate IsTame(value: string) { OneLine(value) && T.CannotOpen(value) }

  /** Tame, and 0 or 1 for the two switches. */
  predicate IsFit(key: Key, value: string) { IsTame(value) && (IsSwitch(key) ==> IsBit(value)) }

  ghost predicate FitStored(redis: Redis) { forall k :: IsFit(k, Get(redis, k)) }

  predicate FitWritten(todo: seq<Op>) { forall i :: 0 <= i < |todo| && todo[i].Set? ==> IsFit(todo[i].key, todo[i].value) }

  ghost predicate Fit(s: State) { FitStored(s.redis) && FitWritten(s.todo) }

  /** What the caller of a command can check: the strings it passes are tame. */
  predicate FitCommand(command: Command) {
    match command
    case RefreshCredentials(auth, user, password) => IsTame(auth) && IsTame(user) && IsTame(password)
    case NewTorBlob(blob) => IsTame(blob)
    case SetUnrelated(_, value) => IsTame(value)
    case _ => true
  }

  predicate FitEvent(e: Event) {
    && (e.Issue? ==> FitCommand(e.command))
    && (e.NewCredentials? ==> IsTame(e.auth) && IsTame(e.user) && IsTame(e.password))
  }

  lemma FitTogether(a: seq<Op>, b: seq<Op>)
    requires FitWritten(a) && FitWritten(b)
    ensures FitWritten(a + b)
  {}

  lemma DigitsAreTame(n: nat)
    ensures IsTame(Digits(n))
  {}

  lemma TorWritesFit(redis: Redis, on: bool)
    ensures FitWritten(TorOps(redis, on))
  {}

  lemma CacheWritesFit(redis: Redis, megabytes: nat)
    ensures FitWritten(DbCacheOps(redis, megabytes))
  {
    DigitsAreTame(megabytes);
  }

  lemma CredentialsWriteFit(auth: string, user: string, password: string)
    requires IsTame(auth) && IsTame(user) && IsTame(password)
    ensures FitWritten(RefreshOps(auth, user, password))
  {}

  lemma ClearnetWritesFit(on: bool, redis: Redis)
    ensures FitWritten(Program(EnableIbdClearnet(on), redis))
  {
    var own := [Set(IbdClearnet, Bit(on)), Generate(IptablesRules), Generate(BitcoinConf)];
    var last := WhenSetUp(redis, [Restart(Bitcoind, false)]);
    var first := if on && Get(redis, TorBase) == "0" then TorOps(redis, true) else [];
    TorWritesFit(redis, true);
    assert FitWritten(own) && FitWritten(last);
    FitTogether(first, own);
    FitTogether(first + own, last);
    assert Program(EnableIbdClearnet(on), redis) == first + own + last;
  }

  lemma IbdWritesFit(on: bool, redis: Redis)
    ensures FitWritten(Program(EnableIbd(on), redis))
  {
    var cache := DbCacheOps(redis, if on then 2000 else 300);
    var before := if on then [Stop(Lightningd), Stop(Electrs)] else [];
    var own := [Set(Ibd, Bit(on))];
    var last := if on then [] else WhenSetUp(redis, [Start(Lightningd), Start(Electrs)]);
    CacheWritesFit(redis, if on then 2000 else 300);
    FitTogether(before, cache);
    FitTogether(before + cache, own + last);
    assert Program(EnableIbd(on), redis) == before + cache + (own + last);
  }

  lemma NetworkValuesAreTame()
    ensures IsTame("mainnet") && IsTame("testnet") && IsTame("/mnt/ssd/bitcoin/.lightning")
  {}

  lemma NetworkWritesFit(mainnet: bool, redis: Redis)
    ensures FitWritten(Program(SetNetwork(mainnet), redis))
  {
    NetworkValuesAreTame();
  }

  lemma ResyncWritesFit(redis: Redis)
    ensures FitWritten(Program(Resync, redis))
  {}

  lemma OthersWriteFit(command: Command, redis: Redis)
    requires command.EnableBitcoinServices? || command.EnableIncoming? || command.EnableTorService? || command.NewTorBlob?
          || command.StartBitcoinServices? || command.RestartService? || command.ReconfigureAfterUpdate? || command.SetUnrelated?
    requires FitCommand(command)
    ensures FitWritten(Program(command, redis))
  {}

  lemma ProgramWritesFit(command: Command, redis: Redis)
    requires FitCommand(command)
    ensures FitWritten(Program(command, redis))
  {
    match command
    case EnableIbdClearnet(on) => ClearnetWritesFit(on, redis);
    case EnableIbd(on) => IbdWritesFit(on, redis);
    case EnableTor(on) => TorWritesFit(redis, on);
    case SetDbCache(megabytes) => CacheWritesFit(redis, megabytes);
    case SetNetwork(mainnet) => NetworkWritesFit(mainnet, redis);
    case Resync => ResyncWritesFit(redis);
    case RefreshCredentials(auth, user, password) => CredentialsWriteFit(auth, user, password);
    case _ => OthersWriteFit(command, redis);
  }

  lemma NextKeepsFit(s: State, ok: bool)
    requires Fit(s) && s.todo != []
    ensures Fit(Apply(s, Next(ok)))
  {
    var t := Apply(s, Next(ok));
    assert FitWritten(s.todo[1..]);
    if Quiet(s.todo[0]) { QuietOutcome(s, ok); } else { ServiceOutcome(s, ok); }
    forall k ensures IsFit(k, Get(t.redis, k)) { assert IsFit(k, Get(s.redis, k)); }
  }

  lemma StepKeepsFit(s: State, e: Event)
    requires Fit(s) && Enabled(s, e) && Orderly(s, e) && FitEvent(e)
    ensures Fit(Apply(s, e))
  {
    match e
    case Issue(command) => ProgramWritesFit(command, s.redis);
    case Next(ok) => NextKeepsFit(s, ok);
    case NewCredentials(auth, user, password) =>
      CredentialsWriteFit(auth, user, password);
      FitTogether(RefreshOps(auth, user, password), s.todo);
    case _ =>
  }

  lemma {:induction false} RunKeepsFit(s: State, run: seq<Event>)
    requires Fit(s) && Valid(s, run) && OrderlyRun(s, run) && forall e :: e in run ==> FitEvent(e)
    ensures Fit(After(s, run))
    decreases |run|
  {
    if run != [] {
      assert run[0] in run && forall e :: e in run[1..] ==> e in run;
      StepKeepsFit(s, run[0]);
      RunKeepsFit(Apply(s, run[0]), run[1..]);
    }
  }

  lemma BitsAreRecognised(redis: Redis)
    requires FitStored(redis)
    ensures forall k :: IsSwitch(k) ==> On(redis, k) || Off(redis, k)
  {
    forall k | IsSwitch(k) ensures On(redis, k) || Off(redis, k) { assert IsFit(k, Get(redis, k)); }
  }

  function CountLines(text: string, prefix: string): nat { Count(Text.Lines(text), prefix) }

  /** One listenonion line, one of a proxy and an onlynet line, and direct connections to peers
      allowed by the firewall exactly if bitcoind is told to use them. */
  predicate Consistent(bitcoinConf: string, rules: string) {
    && CountLines(bitcoinConf, "listenonion=") == 1
    && CountLines(bitcoinConf, "proxy=") + CountLines(bitcoinConf, "onlynet=") == 1
    && CountLines(rules, PEERS) == CountLines(bitcoinConf, "onlynet=")
  }

  lemma FitIsConsistent(redis: Redis)
    requires FitStored(redis)
    ensures Consistent(Unlines(Render(TemplateOf(BitcoinConf), redis)), Unlines(Render(TemplateOf(IptablesRules), redis)))
  {
    assert OneLineValues(redis, KeysRead(BitcoinConf)) by {
      forall k | k in KeysRead(BitcoinConf) ensures OneLine(Get(redis, k)) { assert IsFit(k, Get(redis, k)); }
    }
    OneLineValuesBringNone(redis, "listenonion=");
    OneLineValuesBringNone(redis, "proxy=");
    OneLineValuesBringNone(redis, "onlynet=");
    BitsAreRecognised(redis);
    OneListenOnion(redis);
    ProxyOrOnlyNet(redis);
    FirewallMatchesBitcoind(redis);
  }

  /** The store holds the values that the template of the file reads. */
  ghost predicate Holds(store: T.Store, redis: Redis, file: File) {
    forall k :: k in KeysRead(file) ==> T.Get(store, Name(k)) == Get(redis, k)
  }

  lemma FitAgrees(store: T.Store, redis: Redis, file: File)
    requires FitStored(redis) && Holds(store, redis, file)
    ensures Agrees(store, redis, KeysRead(file))
  {
    forall k | k in KeysRead(file) ensures T.CannotOpen(Get(redis, k)) { assert IsFit(k, Get(redis, k)); }
  }

  /** What bbbconfgen writes for the file with the store. */
  function Output(file: File, store: T.Store): string { T.Generate(TemplateText(TemplateOf(file)), store).output }

  lemma SyncedAreConsistent(s: State)
    requires InSync(s, BitcoinConf) && InSync(s, IptablesRules) && FitStored(s.redis)
    ensures Consistent(Unlines(s.files[BitcoinConf]), Unlines(s.files[IptablesRules]))
  {
    FitIsConsistent(s.redis);
  }

  /** Main result: after any run of commands that starts with the switches at 0 or 1 and tame values, and
      brings no others in, and wherever no write is waiting for its generation, the two files on disk are
      what bbbconfgen writes from the current values, and bitcoin.conf and the firewall are consistent. */
  lemma FilesAreConsistent(s: State, run: seq<Event>, store: T.Store)
    requires Inv(s) && Fit(s) && Valid(s, run) && OrderlyRun(s, run) && forall e :: e in run ==> FitEvent(e)
    requires After(s, run).todo == [] || !Quiet(After(s, run).todo[0])
    requires Holds(store, After(s, run).redis, BitcoinConf) && Holds(store, After(s, run).redis, IptablesRules)
    ensures AsGenerated(After(s, run), BitcoinConf, store) && AsGenerated(After(s, run), IptablesRules, store)
    ensures Consistent(Output(BitcoinConf, store), Output(IptablesRules, store))
  {
    var t := After(s, run);
    FilesAreViews(s, run);
    RunKeepsFit(s, run);
    FitAgrees(store, t.redis, BitcoinConf);
    FitAgrees(store, t.redis, IptablesRules);
    SettledIsGenerated(t, BitcoinConf, store);
    SettledIsGenerated(t, IptablesRules, store);
    Settled(t);
    SyncedAreConsistent(t);
  }

  /** A branch that runs by itself, as far as it gets, leaves every file in agreement. */
  lemma {:induction false} NextsAreOrderly(s: State, run: seq<Event>)
    requires Valid(s, run) && forall e :: e in run ==> e.Next?
    ensures OrderlyRun(s, run)
    decreases |run|
  {
    if run != [] {
      assert run[0] in run && forall e :: e in run[1..] ==> e in run;
      NextsAreOrderly(Apply(s, run[0]), run[1..]);
    }
  }

  /** Main result for the branches as written: whatever fails in it, a branch that found the files in
      agreement leaves them so. */
  lemma BranchKeepsViews(s: State, command: Command, outcome: nat -> bool, i: nat, f: File)
    requires s.todo == [] && Inv(s) && f != Torrc
    ensures InSync(ConfigScripts.Perform(Apply(s, Issue(command)), outcome, i), f)
  {
    var u := Apply(s, Issue(command));
    IssueKeeps(s, command);
    var run := ConfigScripts.PerformIsRun(u, outcome, i);
    NextsAreOrderly(u, run);
    FilesAreViews(u, run);
    Settled(After(u, run));
  }

  // --- torrc -----------------------------------------------------------------------------------------

  predicate SwitchedBy(line: Line, key: Key) {
    line.Slot? && line.key == key && line.words == ["#rmLineFalse"] && line.rest.End?
  }

  predicate Switched(lines: seq<Line>, key: Key) { forall l :: l in lines ==> SwitchedBy(l, key) }

  lemma SwitchedLine(line: Line, key: Key, redis: Redis)
    requires SwitchedBy(line, key)
    ensures Dropped(line, redis) == Off(redis, key)
    ensures !Off(redis, key) ==> Shown(line, redis) == line.text + "" + line.rest.text
  {
    DroppedSwitch(line.text, key, line.rest, redis);
  }

  lemma {:induction false} SwitchedLines(lines: seq<Line>, key: Key, a: Redis, b: Redis)
    requires Switched(lines, key)
    ensures |Render(lines, a)| == if Off(a, key) then 0 else |lines|
    ensures Off(a, key) == Off(b, key) ==> Render(lines, a) == Render(lines, b)
  {
    if lines != [] {
      assert lines[0] in lines && forall l :: l in lines[1..] ==> l in lines;
      SwitchedLine(lines[0], key, a);
      SwitchedLine(lines[0], key, b);
      SwitchedLines(lines[1..], key, a, b);
    }
  }

  /** A template one part of which hangs on a switch, under two stores that differ in that switch. */
  lemma SwitchedPart(p: seq<Line>, q: seq<Line>, r: seq<Line>, key: Key, keys: set<Key>, a: Redis, b: Redis)
    requires q != [] && Switched(q, key) && Covered(p, keys) && Covered(r, keys) && SameOn(keys, a, b)
    ensures Render(p + q + r, a) == Render(p + q + r, b) <==> Off(a, key) == Off(b, key)
  {
    RenderTogether(p + q, r, a);
    RenderTogether(p + q, r, b);
    RenderTogether(p, q, a);
    RenderTogether(p, q, b);
    RenderFrame(p, keys, a, b);
    RenderFrame(r, keys, a, b);
    SwitchedLines(q, key, a, b);
    SwitchedLines(q, key, b, a);
    assert |Render(p + q + r, a)| == |Render(p, a)| + |Render(q, a)| + |Render(r, a)|;
    assert |Render(p + q + r, b)| == |Render(p, b)| + |Render(q, b)| + |Render(r, b)|;
  }

  lemma HiddenServiceSwitched(name: string, port: string, key: Key)
    ensures Switched(HiddenService(name, port, key), key) && HiddenService(name, port, key) != []
  {}

  const TOR_KEYS: set<Key> := {TorSsh, TorElectrs, TorMiddleware}

  lemma ServicesCovered()
    ensures Covered(TOR_SERVICES, TOR_KEYS)
  {
    var plain := [End("ControlPort 9051"), End("CookieAuthentication 1"), End("CookieAuthFileGroupReadable 1")];
    forall l | l in plain ensures KeysOf(l) <= TOR_KEYS { KeysOfUpToThree(l); }
    HiddenServiceCovered("ssh", "22 127.0.0.1:22", TorSsh, TOR_KEYS);
    HiddenServiceCovered("electrs", "50002 127.0.0.1:50002", TorElectrs, TOR_KEYS);
  }

  /** What a change of tor:base:enabled means for torrc. */
  lemma TorrcFollowsSwitch(a: Redis, b: Redis)
    requires SameOn(TOR_KEYS, a, b)
    ensures Render(TORRC, a) == Render(TORRC, b) <==> Off(a, TorBase) == Off(b, TorBase)
  {
    ServicesCovered();
    HiddenServiceSwitched("lightningd", "9375 127.0.0.1:9735", TorBase);
    HiddenServiceCovered("bbbmiddleware", "9375 127.0.0.1:8845", TorMiddleware, TOR_KEYS);
    SwitchedPart(TOR_SERVICES, HiddenService("lightningd", "9375 127.0.0.1:9735", TorBase),
                 HiddenService("bbbmiddleware", "9375 127.0.0.1:8845", TorMiddleware), TorBase, TOR_KEYS, a, b);
  }

  // --- over every run ---------------------------------------------------------------------------------------

  /** The values torrc shows besides the tor switch are regenerated with every write. */
  predicate TorKeysCovered(todo: seq<Op>) {
    forall i :: 0 <= i < |todo| && todo[i].Set? && todo[i].key in TOR_KEYS ==> Follows(todo, i + 1, Torrc)
  }

  /** torrc was generated from the store `g`, which it still shows but for the tor switch. */
  ghost predicate GeneratedFrom(s: State, g: Redis) {
    && Torrc in s.files && s.files[Torrc] == Render(TORRC, g)
    && (SameOn(TOR_KEYS, s.redis, g) || Follows(s.todo, 0, Torrc))
    && TorKeysCovered(s.todo)
  }

  /** The store at the last generation of torrc in the run, `g` being the one before it. */
  function LastStore(s: State, run: seq<Event>, g: Redis): Redis
    requires Valid(s, run)
    decreases |run|
  {
    if run == [] then g else LastStore(Apply(s, run[0]), run[1..], StoreAfter(s, run[0], g))
  }

  function StoreAfter(s: State, e: Event, g: Redis): Redis
    requires Enabled(s, e)
  {
    if e.Next? && s.todo[0] == Generate(Torrc) then s.redis else g
  }

  lemma TorKeysCoveredNext(todo: seq<Op>)
    requires todo != [] && TorKeysCovered(todo)
    ensures TorKeysCovered(todo[1..])
  {
    var rest := todo[1..];
    forall i | 0 <= i < |rest| && rest[i].Set? && rest[i].key in TOR_KEYS ensures Follows(rest, i + 1, Torrc) {
      assert rest[i] == todo[i + 1] && Follows(todo, i + 2, Torrc);
      FollowsNext(todo, i + 2, Torrc);
    }
  }

  lemma SpareKeysCovered(todo: seq<Op>)
    requires forall i :: 0 <= i < |todo| && todo[i].Set? ==> todo[i].key !in TOR_KEYS
    ensures TorKeysCovered(todo)
  {}

  lemma TorServiceCovered(key: Key, on: bool, redis: Redis)
    ensures TorKeysCovered(Program(EnableTorService(key, on), redis))
  {
    var todo := Program(EnableTorService(key, on), redis);
    if todo != [] { FollowsAt(todo, 1, 1, Torrc); }
  }

  lemma IbdSparesTorKeys(on: bool, redis: Redis)
    ensures TorKeysCovered(Program(EnableIbd(on), redis))
  {
    var todo := Program(EnableIbd(on), redis);
    var megabytes: nat := if on then 2000 else 300;
    CacheSparesTorKeys(redis, megabytes);
    forall i | 0 <= i < |todo| && todo[i].Set? ensures todo[i].key !in TOR_KEYS {
      assert todo[i] in DbCacheOps(redis, megabytes) || todo[i].key == Ibd;
    }
    SpareKeysCovered(todo);
  }

  lemma CacheSparesTorKeys(redis: Redis, megabytes: nat)
    ensures forall op :: op in DbCacheOps(redis, megabytes) && op.Set? ==> op.key == DbCache
  {}

  lemma TorSparesTorKeys(redis: Redis, on: bool)
    ensures forall op :: op in TorOps(redis, on) && op.Set? ==> op.key == TorBase
  {}

  lemma ClearnetSparesTorKeys(on: bool, redis: Redis)
    ensures TorKeysCovered(Program(EnableIbdClearnet(on), redis))
  {
    var todo := Program(EnableIbdClearnet(on), redis);
    TorSparesTorKeys(redis, true);
    forall i | 0 <= i < |todo| && todo[i].Set? ensures todo[i].key !in TOR_KEYS {
      assert todo[i] in TorOps(redis, true) || todo[i].key == IbdClearnet;
    }
    SpareKeysCovered(todo);
  }

  lemma ShortSparesTorKeys(command: Command, redis: Redis)
    requires command.EnableBitcoinServices? || command.EnableIncoming? || command.NewTorBlob? || command.SetUnrelated?
          || command.StartBitcoinServices? || command.RestartService? || command.ReconfigureAfterUpdate?
    ensures TorKeysCovered(Program(command, redis))
  {
    SpareKeysCovered(Program(command, redis));
  }

  lemma LongSparesTorKeys(command: Command, redis: Redis)
    requires command.SetNetwork? || command.Resync? || command.RefreshCredentials?
    ensures TorKeysCovered(Program(command, redis))
  {
    SpareKeysCovered(Program(command, redis));
  }

  lemma ProgramCoversTorKeys(command: Command, redis: Redis)
    ensures TorKeysCovered(Program(command, redis))
  {
    match command
    case EnableTorService(key, on) => TorServiceCovered(key, on, redis);
    case EnableIbd(on) => IbdSparesTorKeys(on, redis);
    case EnableIbdClearnet(on) => ClearnetSparesTorKeys(on, redis);
    case EnableTor(on) => TorSparesTorKeys(redis, on); SpareKeysCovered(Program(command, redis));
    case SetDbCache(megabytes) => CacheSparesTorKeys(redis, megabytes); SpareKeysCovered(Program(command, redis));
    case SetNetwork(_) => LongSparesTorKeys(command, redis);
    case Resync => LongSparesTorKeys(command, redis);
    case RefreshCredentials(_, _, _) => LongSparesTorKeys(command, redis);
    case _ => ShortSparesTorKeys(command, redis);
  }

  lemma CredentialsCoverTorKeys(auth: string, user: string, password: string, todo: seq<Op>)
    requires TorKeysCovered(todo)
    ensures TorKeysCovered(RefreshOps(auth, user, password) + todo)
    ensures Follows(todo, 0, Torrc) ==> Follows(RefreshOps(auth, user, password) + todo, 0, Torrc)
  {
    var ops := RefreshOps(auth, user, password);
    var all := ops + todo;
    forall i | 0 <= i < |all| && all[i].Set? && all[i].key in TOR_KEYS ensures Follows(all, i + 1, Torrc) {
      assert i >= |ops| && all[i] == todo[i - |ops|];
      FollowsIn(ops, todo, i - |ops| + 1, Torrc);
    }
    if Follows(todo, 0, Torrc) { FollowsBehind(ops, todo, Torrc); }
  }

  lemma SetKeepsTorrc(s: State, t: State, g: Redis)
    requires GeneratedFrom(s, g) && s.todo != [] && s.todo[0].Set?
    requires t.redis == s.redis[s.todo[0].key := s.todo[0].value] && t.files == s.files && t.todo == s.todo[1..]
    ensures GeneratedFrom(t, g)
  {
    TorKeysCoveredNext(s.todo);
    if s.todo[0].key in TOR_KEYS {
      FollowsNext(s.todo, 1, Torrc);
    } else if Follows(s.todo, 0, Torrc) {
      FollowsNext(s.todo, 0, Torrc);
    }
  }

  lemma GenerateKeepsTorrc(s: State, t: State, g: Redis)
    requires GeneratedFrom(s, g) && s.todo != [] && s.todo[0].Generate?
    requires t.redis == s.redis && t.todo == s.todo[1..]
    requires t.files == s.files[s.todo[0].file := Render(TemplateOf(s.todo[0].file), s.redis)]
    ensures GeneratedFrom(t, if s.todo[0].file == Torrc then s.redis else g)
  {
    TorKeysCoveredNext(s.todo);
    if s.todo[0].file != Torrc && Follows(s.todo, 0, Torrc) { FollowsNext(s.todo, 0, Torrc); }
  }

  lemma NextKeepsTorrc(s: State, ok: bool, g: Redis)
    requires GeneratedFrom(s, g) && s.todo != []
    ensures GeneratedFrom(Apply(s, Next(ok)), StoreAfter(s, Next(ok), g))
  {
    var t := Apply(s, Next(ok));
    if s.todo[0].Set? {
      QuietOutcome(s, ok);
      SetKeepsTorrc(s, t, g);
    } else if s.todo[0].Generate? {
      QuietOutcome(s, ok);
      GenerateKeepsTorrc(s, t, g);
    } else {
      ServiceOutcome(s, ok);
      NotYet(s.todo, Torrc);
      TorKeysCoveredNext(s.todo);
    }
  }

  /** A step that leaves Redis and torrc alone and may end the command where it can. */
  lemma RestKeepsTorrc(s: State, t: State, g: Redis)
    requires GeneratedFrom(s, g) && t.redis == s.redis && t.files == s.files
    requires t.todo == s.todo || (t.todo == [] && (s.todo == [] || !Quiet(s.todo[0])))
    ensures GeneratedFrom(t, g)
  {
    if t.todo != s.todo { NotYet(s.todo, Torrc); }
  }

  lemma StepKeepsTorrc(s: State, e: Event, g: Redis)
    requires GeneratedFrom(s, g) && Enabled(s, e) && Orderly(s, e)
    ensures GeneratedFrom(Apply(s, e), StoreAfter(s, e, g))
  {
    match e
    case Issue(command) =>
      ProgramCoversTorKeys(command, s.redis);
      NotYet(s.todo, Torrc);
    case Next(ok) => NextKeepsTorrc(s, ok, g);
    case NewCredentials(auth, user, password) => CredentialsCoverTorKeys(auth, user, password, s.todo);
    case _ => RestKeepsTorrc(s, Apply(s, e), g);
  }

  lemma {:induction false} RunKeepsTorrc(s: State, run: seq<Event>, g: Redis)
    requires GeneratedFrom(s, g) && Valid(s, run) && OrderlyRun(s, run)
    ensures GeneratedFrom(After(s, run), LastStore(s, run, g))
    decreases |run|
  {
    if run != [] {
      StepKeepsTorrc(s, run[0], g);
      RunKeepsTorrc(Apply(s, run[0]), run[1..], StoreAfter(s, run[0], g));
    }
  }

  lemma TorrcStale(s: State, g: Redis)
    requires GeneratedFrom(s, g) && !Follows(s.todo, 0, Torrc)
    ensures InSync(s, Torrc) <==> Off(s.redis, TorBase) == Off(g, TorBase)
  {
    TorrcFollowsSwitch(s.redis, g);
  }

  /** Main result: the claim that generated files follow Redis fails for torrc, and exactly when. Over
      any run of commands of every kind, wherever a generation of torrc is not just due, torrc agrees
      with Redis if and only if tor is off now exactly as it was when torrc was last generated. */
  lemma TorrcAgreesIff(s: State, run: seq<Event>, g: Redis)
    requires GeneratedFrom(s, g) && Valid(s, run) && OrderlyRun(s, run) && !Follows(After(s, run).todo, 0, Torrc)
    ensures InSync(After(s, run), Torrc)
        <==> Off(After(s, run).redis, TorBase) == Off(LastStore(s, run, g), TorBase)
  {
    RunKeepsTorrc(s, run, g);
    TorrcStale(After(s, run), LastStore(s, run, g));
  }

  // --- two commands that leave torrc behind ------------------------------------------------------------------

  /** A system at rest whose files have just been generated. */
  function FreshSystem(redis: Redis): State {
    State(redis, map f: File | f in {BitcoinConf, IptablesRules, LightningdConf, ElectrsConf, Torrc}
            :: Render(TemplateOf(f), redis), map[], [])
  }

  lemma FreshIsInSync(redis: Redis, f: File)
    ensures InSync(FreshSystem(redis), f)
  {
    assert f == BitcoinConf || f == IptablesRules || f == LightningdConf || f == ElectrsConf || f == Torrc;
  }

  lemma FreshIsGenerated(redis: Redis)
    ensures GeneratedFrom(FreshSystem(redis), redis)
  {
    FreshIsInSync(redis, Torrc);
  }

  lemma BitIsSwitch(redis: Redis, on: bool)
    requires Get(redis, TorBase) == Bit(on)
    ensures Off(redis, TorBase) == !on
  {
    NeverBoth(redis, TorBase);
    assert if on then On(redis, TorBase) else Off(redis, TorBase);
  }

  lemma NoTorrcAhead(todo: seq<Op>)
    requires forall op :: op in todo ==> !(op.Generate? && op.file == Torrc)
    ensures !Follows(todo, 0, Torrc)
  {}

  lemma TorSkipsTorrc(redis: Redis, on: bool)
    ensures TorOps(redis, on) != [] && TorOps(redis, on)[0] == Set(TorBase, Bit(on))
    ensures forall op :: op in TorOps(redis, on) ==> !(op.Generate? && op.file == Torrc)
  {}

  lemma FirstStepStores(s: State, command: Command)
    requires s.todo == [] && Program(command, s.redis) != [] && Program(command, s.redis)[0].Set?
    ensures var todo := Program(command, s.redis);
            var u := Apply(Apply(s, Issue(command)), Next(true));
            u == s.(redis := s.redis[todo[0].key := todo[0].value], todo := todo[1..])
  {
    QuietOutcome(Apply(s, Issue(command)), true);
  }

  lemma StoringMakesStale(redis: Redis, todo: seq<Op>, on: bool)
    requires todo != [] && todo[0] == Set(TorBase, Bit(on)) && Off(redis, TorBase) == on
    requires forall op :: op in todo ==> !(op.Generate? && op.file == Torrc)
    requires TorKeysCovered(todo[1..])
    ensures !InSync(FreshSystem(redis).(redis := redis[TorBase := Bit(on)], todo := todo[1..]), Torrc)
  {
    var t := FreshSystem(redis).(redis := redis[TorBase := Bit(on)], todo := todo[1..]);
    FreshIsGenerated(redis);
    BitIsSwitch(t.redis, on);
    NoTorrcAhead(todo[1..]);
    assert GeneratedFrom(t, redis);
    TorrcStale(t, redis);
  }

  /** A command that switches tor over and does not generate torrc makes it stale with its first write. */
  lemma FirstStepMakesStale(redis: Redis, command: Command, on: bool)
    requires var todo := Program(command, redis);
             && todo != [] && todo[0] == Set(TorBase, Bit(on)) && Off(redis, TorBase) == on
             && forall op :: op in todo ==> !(op.Generate? && op.file == Torrc)
    ensures InSync(FreshSystem(redis), Torrc)
    ensures !InSync(Apply(Apply(FreshSystem(redis), Issue(command)), Next(true)), Torrc)
  {
    FreshIsInSync(redis, Torrc);
    ProgramCoversTorKeys(command, redis);
    TorKeysCoveredNext(Program(command, redis));
    FirstStepStores(FreshSystem(redis), command);
    StoringMakesStale(redis, Program(command, redis), on);
  }

  /** Switching tor over leaves torrc as it was. */
  lemma TorCommandLeavesTorrc(redis: Redis, on: bool)
    requires Off(redis, TorBase) == on
    ensures InSync(FreshSystem(redis), Torrc)
    ensures !InSync(Apply(Apply(FreshSystem(redis), Issue(EnableTor(on))), Next(true)), Torrc)
  {
    TorSkipsTorrc(redis, on);
    FirstStepMakesStale(redis, EnableTor(on), on);
  }

  lemma ClearnetSkipsTorrc(redis: Redis)
    requires Get(redis, TorBase) == "0"
    ensures var todo := Program(EnableIbdClearnet(true), redis);
            && todo != [] && todo[0] == Set(TorBase, Bit(true))
            && forall op :: op in todo ==> !(op.Generate? && op.file == Torrc)
  {
    TorSkipsTorrc(redis, true);
  }

  /** So does the clearnet command when it has to switch tor on first. */
  lemma ClearnetCommandLeavesTorrc(redis: Redis)
    requires Get(redis, TorBase) == "0"
    ensures InSync(FreshSystem(redis), Torrc)
    ensures !InSync(Apply(Apply(FreshSystem(redis), Issue(EnableIbdClearnet(true))), Next(true)), Torrc)
  {
    BitIsSwitch(redis, false);
    ClearnetSkipsTorrc(redis);
    FirstStepMakesStale(redis, EnableIbdClearnet(true), true);
  }

  // --- the configuration after an update ------------------------------------------------------------

  predicate SetsNothing(todo: seq<Op>) { forall op :: op in todo ==> !op.Set? }

  lemma PromisedNext(s: State, ok: bool, f: File)
    requires s.todo != [] && SetsNothing(s.todo) && Promised(s, f)
    ensures Promised(Apply(s, Next(ok)), f) && SetsNothing(Apply(s, Next(ok)).todo)
  {
    var t := Apply(s, Next(ok));
    assert s.todo[0] in s.todo && forall op :: op in s.todo[1..] ==> op in s.todo;
    if Quiet(s.todo[0]) {
      QuietOutcome(s, ok);
      GenerateKeeps(s, t, f);
    } else {
      ServiceOutcome(s, ok);
      NotYet(s.todo, f);
    }
  }

  lemma {:induction false} PromiseIsKept(s: State, outcome: nat -> bool, i: nat, f: File)
    requires SetsNothing(s.todo) && Promised(s, f)
    ensures InSync(ConfigScripts.Perform(s, outcome, i), f)
    decreases |s.todo|
  {
    if s.todo == [] {
      NotYet(s.todo, f);
    } else {
      PromisedNext(s, outcome(i), f);
      ConfigScripts.OperationsGetFewer(s, outcome(i));
      PromiseIsKept(Apply(s, Next(outcome(i))), outcome, i + 1, f);
    }
  }

  lemma ReconfigurationPromises(redis: Redis, f: File)
    ensures var todo := Program(ReconfigureAfterUpdate, redis); SetsNothing(todo) && Follows(todo, 0, f)
  {
    var todo := Program(ReconfigureAfterUpdate, redis);
    FollowsAt(todo, 0, if f == BitcoinConf then 0 else if f == ElectrsConf then 1 else if f == IptablesRules then 2
                       else if f == LightningdConf then 3 else 4, f);
  }

  /** Main result: whatever a restore, a power loss or a tor command did to the agreement, the
      regeneration that follows an update brings all five files back to it, whichever service then
      fails to restart. */
  lemma ReconfigurationRepairs(s: State, outcome: nat -> bool, i: nat, f: File)
    requires s.todo == []
    ensures InSync(ConfigScripts.Perform(Apply(s, Issue(ReconfigureAfterUpdate)), outcome, i), f)
  {
    ReconfigurationPromises(s.redis, f);
    PromiseIsKept(Apply(s, Issue(ReconfigureAfterUpdate)), outcome, i, f);
  }
}
