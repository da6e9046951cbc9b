/** What each configuration command leaves behind, whatever fails on the way: the values in Redis, the
    units, and the files it generated. */
module ConfigValues {
  import opened ConfigTemplates
  import opened Decimal
  import opened BaseSystem
  import opened ConfigScripts

  /** The state in which the command ends, if nothing interrupts it; `outcome(i)` is whether the unit that its
      i-th operation handles starts or stops as asked. */
  function Issued(s: State, command: Command, outcome: nat -> bool): State
    requires s.todo == []
  {
    Perform(Apply(s, Issue(command)), outcome, 0)
  }

  /** The file as it is generated from these values. */
  function Fresh(redis: Redis, file: File): seq<string> { Render(TemplateOf(file), redis) }

  /** Perform under fixed outcomes, and the generation of files, as functions one can reason about without unfolding
      them. */
  datatype Machine = Machine(run: (State, nat) -> State, made: (Redis, File) -> seq<string>, outcome: nat -> bool)

  ghost predicate Works(m: Machine) {
    && (forall s: State, i: nat {:trigger Perform(s, m.outcome, i)} :: m.run(s, i) == Perform(s, m.outcome, i))
    && (forall redis: Redis, file: File {:trigger Fresh(redis, file)} :: m.made(redis, file) == Fresh(redis, file))
    && (forall s: State, i: nat :: s.todo == [] ==> m.run(s, i) == s)
  }

  lemma Switch(outcome: nat -> bool) returns (m: Machine)
    ensures Works(m) && m.outcome == outcome
  {
    m := Machine((s: State, i: nat) => Perform(s, outcome, i), (redis: Redis, file: File) => Fresh(redis, file), outcome);
  }

  lemma IssuedIs(m: Machine, s: State, command: Command, todo: seq<Op>)
    requires Works(m) && s.todo == [] && todo == Program(command, s.redis)
    ensures Issued(s, command, m.outcome) == m.run(s.(todo := todo), 0)
  {
    assert m.run(s.(todo := todo), 0) == Perform(s.(todo := todo), m.outcome, 0);
  }

  // --- one operation ---------------------------------------------------------------------------------

  lemma Step(m: Machine, s: State, op: Op, rest: seq<Op>, i: nat)
    requires Works(m) && s.todo == [op] + rest
    ensures m.run(s, i) == m.run(Execute(s.(todo := rest), op, m.outcome(i)), i + 1)
  {
    var next := Execute(s.(todo := rest), op, m.outcome(i));
    PerformFirst(s, op, rest, m.outcome, i);
    assert m.run(s, i) == Perform(s, m.outcome, i) && m.run(next, i + 1) == Perform(next, m.outcome, i + 1);
  }

  lemma Stores(m: Machine, s: State, key: Key, value: string, rest: seq<Op>, i: nat)
    requires Works(m) && s.todo == [Set(key, value)] + rest
    ensures m.run(s, i) == m.run(s.(redis := s.redis[key := value], todo := rest), i + 1)
  {
    Step(m, s, Set(key, value), rest, i);
  }

  lemma Generates(m: Machine, s: State, file: File, rest: seq<Op>, i: nat)
    requires Works(m) && s.todo == [Generate(file)] + rest
    ensures m.run(s, i) == m.run(s.(files := s.files[file := m.made(s.redis, file)], todo := rest), i + 1)
  {
    Step(m, s, Generate(file), rest, i);
    assert m.made(s.redis, file) == Fresh(s.redis, file);
  }

  lemma Stops(m: Machine, s: State, service: Service, rest: seq<Op>, i: nat)
    requires Works(m) && s.todo == [Stop(service)] + rest
    ensures m.run(s, i)
         == if m.outcome(i) then m.run(s.(units := s.units[service := Stopped], todo := rest), i + 1) else s.(todo := [])
  {
    Step(m, s, Stop(service), rest, i);
  }

  /** Whether a unit that is started now comes up: bitcoind if it does, the others only beside a running bitcoind and
      outside of initial block download. */
  predicate ComesUp(s: State, service: Service, up: bool) {
    up && (service == Bitcoind || (Bitcoind in s.units && s.units[Bitcoind] == Active && Get(s.redis, Ibd) != "1"))
  }

  function Restarted(s: State, service: Service, up: bool): map<Service, UnitState> {
    s.units[service := if ComesUp(s, service, up) then Active else Waiting]
  }

  lemma Restarts(m: Machine, s: State, service: Service, mayFail: bool, rest: seq<Op>, i: nat)
    requires Works(m) && s.todo == [Restart(service, mayFail)] + rest
    ensures m.run(s, i)
         == if ComesUp(s, service, m.outcome(i)) || mayFail
            then m.run(s.(units := Restarted(s, service, m.outcome(i)), todo := rest), i + 1)
            else s.(units := Restarted(s, service, m.outcome(i)), todo := [])
  {
    Step(m, s, Restart(service, mayFail), rest, i);
  }

  lemma Starts(m: Machine, s: State, service: Service, rest: seq<Op>, i: nat)
    requires Works(m) && s.todo == [Start(service)] + rest
    ensures m.run(s, i)
         == if service in s.units && s.units[service] == Active then m.run(s.(todo := rest), i + 1)
            else if ComesUp(s, service, m.outcome(i))
            then m.run(s.(units := Restarted(s, service, m.outcome(i)), todo := rest), i + 1)
            else s.(units := Restarted(s, service, m.outcome(i)), todo := [])
  {
    Step(m, s, Start(service), rest, i);
  }

  // --- several in a row --------------------------------------------------------------------------------

  lemma GeneratesThree(m: Machine, s: State, a: File, b: File, c: File, rest: seq<Op>, i: nat)
    requires Works(m) && s.todo == [Generate(a)] + ([Generate(b)] + ([Generate(c)] + rest))
    ensures m.run(s, i)
         == m.run(s.(files := s.files[a := m.made(s.redis, a)][b := m.made(s.redis, b)][c := m.made(s.redis, c)],
                     todo := rest), i + 3)
  {
    Generates(m, s, a, [Generate(b)] + ([Generate(c)] + rest), i);
    var t := s.(files := s.files[a := m.made(s.redis, a)], todo := [Generate(b)] + ([Generate(c)] + rest));
    Generates(m, t, b, [Generate(c)] + rest, i + 1);
    var u := t.(files := t.files[b := m.made(s.redis, b)], todo := [Generate(c)] + rest);
    Generates(m, u, c, rest, i + 2);
  }

  lemma StoresThree(m: Machine, s: State, k: Key, v: string, l: Key, w: string, n: Key, x: string, rest: seq<Op>, i: nat)
    requires Works(m) && s.todo == [Set(k, v)] + ([Set(l, w)] + ([Set(n, x)] + rest))
    ensures m.run(s, i) == m.run(s.(redis := s.redis[k := v][l := w][n := x], todo := rest), i + 3)
  {
    Stores(m, s, k, v, [Set(l, w)] + ([Set(n, x)] + rest), i);
    var t := s.(redis := s.redis[k := v], todo := [Set(l, w)] + ([Set(n, x)] + rest));
    Stores(m, t, l, w, [Set(n, x)] + rest, i + 1);
    Stores(m, t.(redis := t.redis[l := w], todo := [Set(n, x)] + rest), n, x, rest, i + 2);
  }

  // --- the commands without restarts --------------------------------------------------------------------

  function Three(a: Op, b: Op, c: Op, rest: seq<Op>): seq<Op> { [a] + ([b] + ([c] + rest)) }

  lemma NetworkParts(redis: Redis, mainnet: bool)
    ensures Program(SetNetwork(mainnet), redis)
         == Three(Set(Network, if mainnet then "mainnet" else "testnet"), Set(Testnet, if mainnet then "0" else "1"),
                  Set(Mainnet, if mainnet then "1" else "0"),
                  [Set(LightningDir, "/mnt/ssd/bitcoin/.lightning")]
                  + Three(Generate(Torrc), Generate(BitcoinConf), Generate(LightningdConf), [Generate(ElectrsConf)] + []))
  {}

  lemma NetworkRuns(m: Machine, s: State, name: string, testnet: string, mainnet: string, dir: string)
    requires Works(m)
    requires s.todo == Three(Set(Network, name), Set(Testnet, testnet), Set(Mainnet, mainnet),
                             [Set(LightningDir, dir)]
                             + Three(Generate(Torrc), Generate(BitcoinConf), Generate(LightningdConf),
                                     [Generate(ElectrsConf)] + []))
    ensures var redis := s.redis[Network := name][Testnet := testnet][Mainnet := mainnet][LightningDir := dir];
            m.run(s, 0)
            == State(redis, s.files[Torrc := m.made(redis, Torrc)][BitcoinConf := m.made(redis, BitcoinConf)]
                                   [LightningdConf := m.made(redis, LightningdConf)][ElectrsConf := m.made(redis, ElectrsConf)],
                     s.units, [])
  {
    var last := [Generate(ElectrsConf)] + [];
    var files := Three(Generate(Torrc), Generate(BitcoinConf), Generate(LightningdConf), last);
    StoresThree(m, s, Network, name, Testnet, testnet, Mainnet, mainnet, [Set(LightningDir, dir)] + files, 0);
    var t := s.(redis := s.redis[Network := name][Testnet := testnet][Mainnet := mainnet],
                todo := [Set(LightningDir, dir)] + files);
    Stores(m, t, LightningDir, dir, files, 3);
    var u := t.(redis := t.redis[LightningDir := dir], todo := files);
    GeneratesThree(m, u, Torrc, BitcoinConf, LightningdConf, last, 4);
    var v := u.(files := u.files[Torrc := m.made(u.redis, Torrc)][BitcoinConf := m.made(u.redis, BitcoinConf)]
                                [LightningdConf := m.made(u.redis, LightningdConf)], todo := last);
    Generates(m, v, ElectrsConf, [], 7);
  }

  /** Main result: `set bitcoin_network` stores the network by name and the two bits, and nothing else but the lightning
      directory; four files are generated from that, and no unit is touched. */
  lemma NetworkIsStored(s: State, mainnet: bool, outcome: nat -> bool)
    requires s.todo == []
    ensures var t := Issued(s, SetNetwork(mainnet), outcome);
            && t.redis == s.redis[Network := if mainnet then "mainnet" else "testnet"]
                                 [Testnet := if mainnet then "0" else "1"]
                                 [Mainnet := if mainnet then "1" else "0"]
                                 [LightningDir := "/mnt/ssd/bitcoin/.lightning"]
            && t.files == s.files[Torrc := Fresh(t.redis, Torrc)][BitcoinConf := Fresh(t.redis, BitcoinConf)]
                                 [LightningdConf := Fresh(t.redis, LightningdConf)][ElectrsConf := Fresh(t.redis, ElectrsConf)]
            && t.units == s.units
  {
    var m := Switch(outcome);
    NetworkParts(s.redis, mainnet);
    NetworkRuns(m, s.(todo := Program(SetNetwork(mainnet), s.redis)), if mainnet then "mainnet" else "testnet",
                if mainnet then "0" else "1", if mainnet then "1" else "0", "/mnt/ssd/bitcoin/.lightning");
  }

  lemma CredentialsParts(auth: string, user: string, password: string, rest: seq<Op>)
    ensures RefreshOps(auth, user, password) + rest
         == Three(Set(RefreshRpcAuth, "1"), Set(RpcAuth, auth), Set(RpcUser, user),
                  [Set(RpcPassword, password)]
                  + Three(Generate(BitcoinConf), Generate(LightningdConf), Generate(ElectrsConf),
                          [Set(RefreshRpcAuth, "0")] + rest))
  {}

  lemma CredentialsRun(m: Machine, s: State, auth: string, user: string, password: string, rest: seq<Op>, i: nat)
    requires Works(m)
    requires s.todo == Three(Set(RefreshRpcAuth, "1"), Set(RpcAuth, auth), Set(RpcUser, user),
                             [Set(RpcPassword, password)]
                             + Three(Generate(BitcoinConf), Generate(LightningdConf), Generate(ElectrsConf),
                                     [Set(RefreshRpcAuth, "0")] + rest))
    ensures var redis := s.redis[RefreshRpcAuth := "1"][RpcAuth := auth][RpcUser := user][RpcPassword := password];
            m.run(s, i)
            == m.run(State(redis[RefreshRpcAuth := "0"],
                           s.files[BitcoinConf := m.made(redis, BitcoinConf)][LightningdConf := m.made(redis, LightningdConf)]
                                  [ElectrsConf := m.made(redis, ElectrsConf)],
                           s.units, rest), i + 8)
  {
    var last := [Set(RefreshRpcAuth, "0")] + rest;
    var files := Three(Generate(BitcoinConf), Generate(LightningdConf), Generate(ElectrsConf), last);
    StoresThree(m, s, RefreshRpcAuth, "1", RpcAuth, auth, RpcUser, user, [Set(RpcPassword, password)] + files, i);
    var t := s.(redis := s.redis[RefreshRpcAuth := "1"][RpcAuth := auth][RpcUser := user],
                todo := [Set(RpcPassword, password)] + files);
    Stores(m, t, RpcPassword, password, files, i + 3);
    var u := t.(redis := t.redis[RpcPassword := password], todo := files);
    GeneratesThree(m, u, BitcoinConf, LightningdConf, ElectrsConf, last, i + 4);
    var v := u.(files := u.files[BitcoinConf := m.made(u.redis, BitcoinConf)][LightningdConf := m.made(u.redis, LightningdConf)]
                                [ElectrsConf := m.made(u.redis, ElectrsConf)], todo := last);
    Stores(m, v, RefreshRpcAuth, "0", rest, i + 7);
  }

  lemma RefreshRuns(m: Machine, s: State, auth: string, user: string, password: string, rest: seq<Op>, i: nat)
    requires Works(m) && s.todo == RefreshOps(auth, user, password) + rest
    ensures var redis := s.redis[RefreshRpcAuth := "1"][RpcAuth := auth][RpcUser := user][RpcPassword := password];
            m.run(s, i)
            == m.run(State(redis[RefreshRpcAuth := "0"],
                           s.files[BitcoinConf := m.made(redis, BitcoinConf)][LightningdConf := m.made(redis, LightningdConf)]
                                  [ElectrsConf := m.made(redis, ElectrsConf)],
                           s.units, rest), i + 8)
  {
    CredentialsParts(auth, user, password, rest);
    CredentialsRun(m, s, auth, user, password, rest, i);
  }

  /** In terms of Perform and Render. */
  lemma Unwrap(m: Machine, s: State, t: State, i: nat, n: nat)
    requires Works(m) && m.run(s, i) == m.run(t, n)
    ensures Perform(s, m.outcome, i) == Perform(t, m.outcome, n)
  {
    assert m.run(s, i) == Perform(s, m.outcome, i) && m.run(t, n) == Perform(t, m.outcome, n);
  }

  lemma IsFresh(m: Machine, redis: Redis, file: File)
    requires Works(m)
    ensures m.made(redis, file) == Fresh(redis, file)
  {}

  /** Main result: refreshing the credentials stores the three of them, each under its own key, takes the mark for a
      refresh back, and generates the three files that show them. The same happens whenever bitcoind starts,
      before whatever command is running goes on. */
  lemma CredentialsAreStored(s: State, auth: string, user: string, password: string, outcome: nat -> bool, i: nat)
    ensures var redis := s.redis[RefreshRpcAuth := "1"][RpcAuth := auth][RpcUser := user][RpcPassword := password];
            Perform(Apply(s, NewCredentials(auth, user, password)), outcome, i)
            == Perform(State(redis[RefreshRpcAuth := "0"],
                             s.files[BitcoinConf := Fresh(redis, BitcoinConf)][LightningdConf := Fresh(redis, LightningdConf)]
                                    [ElectrsConf := Fresh(redis, ElectrsConf)],
                             s.units, s.todo), outcome, i + 8)
  {
    var m := Switch(outcome);
    var t := s.(todo := RefreshOps(auth, user, password) + s.todo);
    var redis := s.redis[RefreshRpcAuth := "1"][RpcAuth := auth][RpcUser := user][RpcPassword := password];
    RefreshRuns(m, t, auth, user, password, s.todo, i);
    IsFresh(m, redis, BitcoinConf);
    IsFresh(m, redis, LightningdConf);
    IsFresh(m, redis, ElectrsConf);
    var files := s.files[BitcoinConf := m.made(redis, BitcoinConf)][LightningdConf := m.made(redis, LightningdConf)]
                        [ElectrsConf := m.made(redis, ElectrsConf)];
    Unwrap(m, t, State(redis[RefreshRpcAuth := "0"], files, s.units, s.todo), i, i + 8);
  }

  /** The command is the same. */
  lemma RefreshIsTheSame(s: State, auth: string, user: string, password: string)
    requires s.todo == []
    ensures Apply(s, Issue(RefreshCredentials(auth, user, password))) == Apply(s, NewCredentials(auth, user, password))
  {
    assert RefreshOps(auth, user, password) + [] == RefreshOps(auth, user, password);
  }

  lemma StoresThenGenerates(m: Machine, s: State, key: Key, value: string, file: File, rest: seq<Op>, i: nat)
    requires Works(m) && s.todo == [Set(key, value)] + ([Generate(file)] + rest)
    ensures var redis := s.redis[key := value];
            m.run(s, i) == m.run(State(redis, s.files[file := m.made(redis, file)], s.units, rest), i + 2)
  {
    Stores(m, s, key, value, [Generate(file)] + rest, i);
    Generates(m, s.(redis := s.redis[key := value], todo := [Generate(file)] + rest), file, rest, i + 1);
  }

  /** Main result: the end of the setup is stored under its own key, and no file shows it. */
  lemma SetupIsStored(s: State, on: bool, outcome: nat -> bool)
    requires s.todo == []
    ensures Issued(s, EnableBitcoinServices(on), outcome) == s.(redis := s.redis[Setup := if on then "1" else "0"])
  {
    var m := Switch(outcome);
    var todo := [Set(Setup, if on then "1" else "0")] + [];
    IssuedIs(m, s, EnableBitcoinServices(on), todo);
    Stores(m, s.(todo := todo), Setup, if on then "1" else "0", [], 0);
  }

  /** Main result: the switch of an onion service is stored under its own key and shown in torrc. */
  lemma OnionServiceIsStored(s: State, key: Key, on: bool, outcome: nat -> bool)
    requires s.todo == [] && (key == TorSsh || key == TorElectrs || key == TorMiddleware)
    ensures var redis := s.redis[key := if on then "1" else "0"];
            Issued(s, EnableTorService(key, on), outcome) == State(redis, s.files[Torrc := Fresh(redis, Torrc)], s.units, [])
  {
    var m := Switch(outcome);
    var todo := [Set(key, if on then "1" else "0")] + ([Generate(Torrc)] + []);
    IssuedIs(m, s, EnableTorService(key, on), todo);
    StoresThenGenerates(m, s.(todo := todo), key, if on then "1" else "0", Torrc, [], 0);
    IsFresh(m, s.redis[key := if on then "1" else "0"], Torrc);
  }

  /** Main result: a new onion address is stored and shown in lightningd.conf. */
  lemma TorBlobIsStored(s: State, blob: string, outcome: nat -> bool)
    requires s.todo == []
    ensures var redis := s.redis[StaticTorBlob := blob];
            Issued(s, NewTorBlob(blob), outcome)
            == State(redis, s.files[LightningdConf := Fresh(redis, LightningdConf)], s.units, [])
  {
    var m := Switch(outcome);
    var todo := [Set(StaticTorBlob, blob)] + ([Generate(LightningdConf)] + []);
    IssuedIs(m, s, NewTorBlob(blob), todo);
    StoresThenGenerates(m, s.(todo := todo), StaticTorBlob, blob, LightningdConf, [], 0);
    IsFresh(m, s.redis[StaticTorBlob := blob], LightningdConf);
  }

  // --- the commands that restart bitcoind ----------------------------------------------------------------

  predicate IsSetUp(s: State) { Get(s.redis, Setup) == "1" }

  /** bitcoind restarted, if the setup is done. */
  function BitcoindRestarted(s: State, up: bool): map<Service, UnitState> {
    if IsSetUp(s) then s.units[Bitcoind := if up then Active else Waiting] else s.units
  }

  lemma LastRestart(m: Machine, s: State, i: nat)
    requires Works(m) && s.todo == if IsSetUp(s) then [Restart(Bitcoind, false)] + [] else []
    ensures m.run(s, i) == s.(units := BitcoindRestarted(s, m.outcome(i)), todo := [])
  {
    if IsSetUp(s) { Restarts(m, s, Bitcoind, false, [], i); }
  }

  lemma IncomingParts(redis: Redis, on: bool)
    ensures Program(EnableIncoming(on), redis)
         == [Set(Listen, if on then "1" else "0")]
            + ([Generate(BitcoinConf)] + if Get(redis, Setup) == "1" then [Restart(Bitcoind, false)] + [] else [])
  {}

  /** Main result: `enable|disable bitcoin_incoming` stores the switch, generates bitcoin.conf and after setup restarts
      bitcoind alone. */
  lemma IncomingIsStored(s: State, on: bool, outcome: nat -> bool)
    requires s.todo == []
    ensures var redis := s.redis[Listen := if on then "1" else "0"];
            Issued(s, EnableIncoming(on), outcome)
            == State(redis, s.files[BitcoinConf := Fresh(redis, BitcoinConf)], BitcoindRestarted(s, outcome(2)), [])
  {
    var m := Switch(outcome);
    IncomingParts(s.redis, on);
    var last := if IsSetUp(s) then [Restart(Bitcoind, false)] + [] else [];
    StoresThenGenerates(m, s.(todo := Program(EnableIncoming(on), s.redis)), Listen, if on then "1" else "0", BitcoinConf,
                        last, 0);
    var redis := s.redis[Listen := if on then "1" else "0"];
    LastRestart(m, State(redis, s.files[BitcoinConf := m.made(redis, BitcoinConf)], s.units, last), 2);
  }

  // --- the size of the cache -----------------------------------------------------------------------------

  lemma CacheSizes()
    ensures Digits(2000) == "2000" && Digits(300) == "300"
  {
    assert Digits(2) == "2" && Digits(20) == "20" && Digits(200) == "200";
    assert Digits(3) == "3" && Digits(30) == "30";
  }

  /** bitcoind has to be restarted for the new size. */
  predicate NeedsRestart(s: State, size: string) { Get(s.redis, DbCache) != size && IsSetUp(s) }

  /** With the new size stored and shown. */
  function Sized(s: State, size: string, file: seq<string>): State {
    s.(redis := s.redis[DbCache := size], files := s.files[BitcoinConf := file])
  }

  lemma CacheRuns(m: Machine, s: State, megabytes: nat, rest: seq<Op>, i: nat)
    requires Works(m) && s.todo == DbCacheOps(s.redis, megabytes) + rest && 50 <= megabytes <= 3000
    ensures var t := Sized(s, Digits(megabytes), m.made(s.redis[DbCache := Digits(megabytes)], BitcoinConf));
            m.run(s, i)
            == if !NeedsRestart(s, Digits(megabytes)) then m.run(t.(todo := rest), i + 2)
               else if m.outcome(i + 2) then m.run(t.(units := s.units[Bitcoind := Active], todo := rest), i + 3)
               else t.(units := s.units[Bitcoind := Waiting], todo := [])
  {
    var t := Sized(s, Digits(megabytes), m.made(s.redis[DbCache := Digits(megabytes)], BitcoinConf));
    var last := CacheRestart(s.redis, megabytes, rest);
    DbCacheParts(s.redis, megabytes, rest);
    StoresThenGenerates(m, s, DbCache, Digits(megabytes), BitcoinConf, last, i);
    if NeedsRestart(s, Digits(megabytes)) { Restarts(m, t.(todo := last), Bitcoind, false, rest, i + 2); }
  }

  lemma SizeRuns(m: Machine, s: State, megabytes: nat)
    requires Works(m) && s.todo == DbCacheOps(s.redis, megabytes)
    ensures var redis := s.redis[DbCache := Digits(megabytes)];
            m.run(s, 0)
            == if 50 <= megabytes <= 3000
               then State(redis, s.files[BitcoinConf := m.made(redis, BitcoinConf)],
                          if NeedsRestart(s, Digits(megabytes))
                          then s.units[Bitcoind := if m.outcome(2) then Active else Waiting] else s.units,
                          [])
               else s
  {
    assert s.todo == DbCacheOps(s.redis, megabytes) + [];
    if 50 <= megabytes <= 3000 { CacheRuns(m, s, megabytes, [], 0); }
  }

  /** Main result: `set bitcoin_dbcache` accepts 50 to 3000 megabytes, stores their numeral and generates
      bitcoin.conf; bitcoind is restarted exactly if the value is new and the setup done. Other sizes change nothing. */
  lemma CacheIsStored(s: State, megabytes: nat, outcome: nat -> bool)
    requires s.todo == []
    ensures var redis := s.redis[DbCache := Digits(megabytes)];
            Issued(s, SetDbCache(megabytes), outcome)
            == if 50 <= megabytes <= 3000
               then State(redis, s.files[BitcoinConf := Fresh(redis, BitcoinConf)],
                          if Get(s.redis, DbCache) != Digits(megabytes) && Get(s.redis, Setup) == "1"
                          then s.units[Bitcoind := if outcome(2) then Active else Waiting] else s.units,
                          [])
               else s
  {
    var m := Switch(outcome);
    var todo := DbCacheOps(s.redis, megabytes);
    IssuedIs(m, s, SetDbCache(megabytes), todo);
    SizeRuns(m, s.(todo := todo), megabytes);
    IsFresh(m, s.redis[DbCache := Digits(megabytes)], BitcoinConf);
  }

  // --- initial block download ------------------------------------------------------------------------------

  lemma EntryRuns(m: Machine, s: State)
    requires Works(m) && s.todo == [Stop(Lightningd)] + ([Stop(Electrs)] + (DbCacheOps(s.redis, 2000) + [Set(Ibd, "1")]))
    ensures var stopped := s.units[Lightningd := Stopped][Electrs := Stopped];
            var sized := Sized(s, "2000", m.made(s.redis[DbCache := "2000"], BitcoinConf)).(todo := []);
            m.run(s, 0)
            == if !m.outcome(0) then s.(todo := [])
               else if !m.outcome(1) then s.(units := s.units[Lightningd := Stopped], todo := [])
               else if NeedsRestart(s, "2000") && !m.outcome(4) then sized.(units := stopped[Bitcoind := Waiting])
               else sized.(redis := sized.redis[Ibd := "1"],
                           units := if NeedsRestart(s, "2000") then stopped[Bitcoind := Active] else stopped)
  {
    CacheSizes();
    var last := [Set(Ibd, "1")];
    var cache := DbCacheOps(s.redis, 2000) + last;
    Stops(m, s, Lightningd, [Stop(Electrs)] + cache, 0);
    if m.outcome(0) {
      var t := s.(units := s.units[Lightningd := Stopped], todo := [Stop(Electrs)] + cache);
      Stops(m, t, Electrs, cache, 1);
      if m.outcome(1) {
        var u := t.(units := t.units[Electrs := Stopped], todo := cache);
        CacheRuns(m, u, 2000, last, 2);
        if !NeedsRestart(s, "2000") || m.outcome(4) {
          var v := Sized(u, "2000", m.made(s.redis[DbCache := "2000"], BitcoinConf));
          var units := if NeedsRestart(s, "2000") then u.units[Bitcoind := Active] else u.units;
          assert last == [Set(Ibd, "1")] + [];
          Stores(m, v.(units := units, todo := last), Ibd, "1", [], if NeedsRestart(s, "2000") then 5 else 4);
        }
      }
    }
  }

  /** Main result: `enable bitcoin_ibd` stops lightningd and electrs, sets the cache to 2000 and stores "1" in
      bitcoind:ibd last: only if both stops and the restart of bitcoind, where one is needed, have succeeded. */
  lemma IbdIsEntered(s: State, outcome: nat -> bool)
    requires s.todo == []
    ensures var stopped := s.units[Lightningd := Stopped][Electrs := Stopped];
            var redis := s.redis[DbCache := "2000"];
            var files := s.files[BitcoinConf := Fresh(redis, BitcoinConf)];
            var restart := Get(s.redis, DbCache) != "2000" && Get(s.redis, Setup) == "1";
            Issued(s, EnableIbd(true), outcome)
            == if !outcome(0) then s
               else if !outcome(1) then s.(units := s.units[Lightningd := Stopped])
               else if restart && !outcome(4) then State(redis, files, stopped[Bitcoind := Waiting], [])
               else State(redis[Ibd := "1"], files, if restart then stopped[Bitcoind := Active] else stopped, [])
  {
    var m := Switch(outcome);
    var todo := [Stop(Lightningd)] + ([Stop(Electrs)] + (DbCacheOps(s.redis, 2000) + [Set(Ibd, "1")]));
    EnterIbdParts(s.redis);
    IssuedIs(m, s, EnableIbd(true), todo);
    EntryRuns(m, s.(todo := todo));
    IsFresh(m, s.redis[DbCache := "2000"], BitcoinConf);
  }

  /** Whether the unit is up once it has been asked to start. */
  predicate UpAfterStart(s: State, service: Service, up: bool) {
    (service in s.units && s.units[service] == Active) || ComesUp(s, service, up)
  }

  /** A start: nothing to do for a unit that is up. */
  function Started(s: State, service: Service, up: bool): map<Service, UnitState> {
    if service in s.units && s.units[service] == Active then s.units else Restarted(s, service, up)
  }

  /** The two services started, the second only if the first is up. */
  function BothStarted(s: State, lightningd: bool, electrs: bool): map<Service, UnitState> {
    var t := s.(units := Started(s, Lightningd, lightningd));
    if UpAfterStart(s, Lightningd, lightningd) then Started(t, Electrs, electrs) else t.units
  }

  lemma BothStart(m: Machine, s: State, i: nat)
    requires Works(m) && s.todo == if IsSetUp(s) then [Start(Lightningd), Start(Electrs)] else []
    ensures m.run(s, i)
         == s.(units := if IsSetUp(s) then BothStarted(s, m.outcome(i), m.outcome(i + 1)) else s.units, todo := [])
  {
    if IsSetUp(s) {
      assert s.todo == [Start(Lightningd)] + [Start(Electrs)];
      Starts(m, s, Lightningd, [Start(Electrs)], i);
      if UpAfterStart(s, Lightningd, m.outcome(i)) {
        assert [Start(Electrs)] == [Start(Electrs)] + [];
        Starts(m, s.(units := Started(s, Lightningd, m.outcome(i)), todo := [Start(Electrs)]), Electrs, [], i + 1);
      }
    }
  }

  lemma SwitchesBack(m: Machine, s: State, i: nat)
    requires Works(m) && s.todo == [Set(Ibd, "0")] + WhenSetUp(s.redis, [Start(Lightningd), Start(Electrs)])
    ensures var left := s.(redis := s.redis[Ibd := "0"], todo := []);
            m.run(s, i)
            == left.(units := if IsSetUp(s) then BothStarted(left, m.outcome(i + 1), m.outcome(i + 2)) else left.units)
  {
    var starts := WhenSetUp(s.redis, [Start(Lightningd), Start(Electrs)]);
    Stores(m, s, Ibd, "0", starts, i);
    var left := s.(redis := s.redis[Ibd := "0"], todo := starts);
    BothStart(m, left, i + 1);
    assert BothStarted(left, m.outcome(i + 1), m.outcome(i + 2))
        == BothStarted(left.(todo := []), m.outcome(i + 1), m.outcome(i + 2));
  }

  lemma LeavingRuns(m: Machine, s: State)
    requires Works(m)
    requires s.todo == DbCacheOps(s.redis, 300) + ([Set(Ibd, "0")] + WhenSetUp(s.redis, [Start(Lightningd), Start(Electrs)]))
    ensures var sized := Sized(s, "300", m.made(s.redis[DbCache := "300"], BitcoinConf)).(todo := []);
            var n: nat := if NeedsRestart(s, "300") then 4 else 3;
            var left := sized.(redis := sized.redis[Ibd := "0"],
                               units := if NeedsRestart(s, "300") then s.units[Bitcoind := Active] else s.units);
            m.run(s, 0)
            == if NeedsRestart(s, "300") && !m.outcome(2) then sized.(units := s.units[Bitcoind := Waiting])
               else left.(units := if IsSetUp(s) then BothStarted(left, m.outcome(n), m.outcome(n + 1)) else left.units)
  {
    CacheSizes();
    var last := [Set(Ibd, "0")] + WhenSetUp(s.redis, [Start(Lightningd), Start(Electrs)]);
    CacheRuns(m, s, 300, last, 0);
    if !NeedsRestart(s, "300") || m.outcome(2) {
      var t := Sized(s, "300", m.made(s.redis[DbCache := "300"], BitcoinConf));
      var units := if NeedsRestart(s, "300") then s.units[Bitcoind := Active] else s.units;
      SwitchesBack(m, t.(units := units, todo := last), if NeedsRestart(s, "300") then 3 else 2);
    }
  }

  /** Main result: `disable bitcoin_ibd` sets the cache to 300, stores "0" in bitcoind:ibd unless a restart of bitcoind
      fails, and then starts lightningd and, if that is up, electrs, if the setup is done. */
  lemma IbdIsLeft(s: State, outcome: nat -> bool)
    requires s.todo == []
    ensures var redis := s.redis[DbCache := "300"];
            var files := s.files[BitcoinConf := Fresh(redis, BitcoinConf)];
            var restart := Get(s.redis, DbCache) != "300" && Get(s.redis, Setup) == "1";
            var n: nat := if restart then 4 else 3;
            var left := State(redis[Ibd := "0"], files, if restart then s.units[Bitcoind := Active] else s.units, []);
            Issued(s, EnableIbd(false), outcome)
            == if restart && !outcome(2) then State(redis, files, s.units[Bitcoind := Waiting], [])
               else if Get(s.redis, Setup) == "1" then left.(units := BothStarted(left, outcome(n), outcome(n + 1)))
               else left
  {
    var m := Switch(outcome);
    var todo := DbCacheOps(s.redis, 300) + ([Set(Ibd, "0")] + WhenSetUp(s.redis, [Start(Lightningd), Start(Electrs)]));
    LeaveIbdParts(s.redis);
    IssuedIs(m, s, EnableIbd(false), todo);
    LeavingRuns(m, s.(todo := todo));
    IsFresh(m, s.redis[DbCache := "300"], BitcoinConf);
  }

  // --- tor and clearnet ------------------------------------------------------------------------------------

  /** The units after the tor branch: bitcoind is restarted once the setup is done, and lightningd if that succeeds. */
  function TorUnits(s: State, bitcoind: bool, lightningd: bool): map<Service, UnitState> {
    if !IsSetUp(s) then s.units
    else if !bitcoind then s.units[Bitcoind := Waiting]
    else s.units[Bitcoind := Active][Lightningd := if lightningd && Get(s.redis, Ibd) != "1" then Active else Waiting]
  }

  /** With the switch stored and shown in the three files. */
  function TorStored(m: Machine, s: State, bit: string): State {
    var redis := s.redis[TorBase := bit];
    s.(redis := redis,
       files := s.files[IptablesRules := m.made(redis, IptablesRules)][BitcoinConf := m.made(redis, BitcoinConf)]
                       [LightningdConf := m.made(redis, LightningdConf)])
  }

  lemma TorStores(m: Machine, s: State, bit: string, rest: seq<Op>, i: nat)
    requires Works(m)
    requires s.todo == [Set(TorBase, bit)] + Three(Generate(IptablesRules), Generate(BitcoinConf), Generate(LightningdConf), rest)
    ensures m.run(s, i) == m.run(TorStored(m, s, bit).(todo := rest), i + 4)
  {
    var files := Three(Generate(IptablesRules), Generate(BitcoinConf), Generate(LightningdConf), rest);
    Stores(m, s, TorBase, bit, files, i);
    GeneratesThree(m, s.(redis := s.redis[TorBase := bit], todo := files), IptablesRules, BitcoinConf, LightningdConf,
                   rest, i + 1);
  }

  lemma TorRestartsRun(m: Machine, s: State, rest: seq<Op>, i: nat)
    requires Works(m) && s.todo == TorRestarts(s.redis, rest)
    ensures var t := s.(units := TorUnits(s, m.outcome(i), m.outcome(i + 1)));
            m.run(s, i)
            == if IsSetUp(s) && !m.outcome(i) then t.(todo := [])
               else m.run(t.(todo := rest), if IsSetUp(s) then i + 2 else i)
  {
    if IsSetUp(s) {
      Restarts(m, s, Bitcoind, false, [Restart(Lightningd, true)] + rest, i);
      if m.outcome(i) {
        var t := s.(units := s.units[Bitcoind := Active], todo := [Restart(Lightningd, true)] + rest);
        Restarts(m, t, Lightningd, true, rest, i + 1);
      }
    }
  }

  lemma StoredAgain(m: Machine, s: State, bit: string, rest: seq<Op>, i: nat)
    requires Works(m) && s.todo == [Set(TorBase, bit)] + rest && TorBase in s.redis && s.redis[TorBase] == bit
    ensures m.run(s, i) == m.run(s.(todo := rest), i + 1)
  {
    Stores(m, s, TorBase, bit, rest, i);
    assert s.redis[TorBase := bit] == s.redis;
  }

  lemma TorRuns(m: Machine, s: State, on: bool, rest: seq<Op>, i: nat)
    requires Works(m) && s.todo == TorOps(s.redis, on) + rest
    ensures var t := TorStored(m, s, if on then "1" else "0").(units := TorUnits(s, m.outcome(i + 4), m.outcome(i + 5)));
            m.run(s, i)
            == if IsSetUp(s) && !m.outcome(i + 4) then t.(todo := [])
               else m.run(t.(todo := rest), if IsSetUp(s) then i + 7 else i + 5)
  {
    var bit := if on then "1" else "0";
    var again := [Set(TorBase, bit)] + rest;
    var restarts := TorRestarts(s.redis, again);
    TorParts(s.redis, on, rest);
    TorStores(m, s, bit, restarts, i);
    var t := TorStored(m, s, bit).(todo := restarts);
    TorRestartsRun(m, t, again, i + 4);
    assert TorUnits(t, m.outcome(i + 4), m.outcome(i + 5)) == TorUnits(s, m.outcome(i + 4), m.outcome(i + 5));
    if !IsSetUp(s) || m.outcome(i + 4) {
      var u := t.(units := TorUnits(t, m.outcome(i + 4), m.outcome(i + 5)), todo := again);
      StoredAgain(m, u, bit, rest, if IsSetUp(s) then i + 6 else i + 4);
    }
  }

  lemma TorEnds(m: Machine, s: State, on: bool)
    requires Works(m) && s.todo == TorOps(s.redis, on)
    ensures m.run(s, 0)
         == TorStored(m, s, if on then "1" else "0").(units := TorUnits(s, m.outcome(4), m.outcome(5)), todo := [])
  {
    assert s.todo == s.todo + [];
    TorRuns(m, s, on, [], 0);
  }

  lemma TorProgram(redis: Redis, on: bool)
    ensures Program(EnableTor(on), redis) == TorOps(redis, on)
    ensures !(on && Get(redis, TorBase) == "0") ==> Program(EnableIbdClearnet(on), redis) == ClearnetOps(redis, on)
  {
    ClearnetProgram(redis, on);
  }

  /** The same values read before and after an operation list is put in place. */
  lemma SameUnits(s: State, todo: seq<Op>, a: bool, b: bool)
    ensures TorUnits(s.(todo := todo), a, b) == TorUnits(s, a, b)
    ensures BitcoindRestarted(s.(todo := todo), a) == BitcoindRestarted(s, a)
  {}

  /** Main result: `enable|disable tor` stores the switch, whatever fails, and generates the firewall rules, bitcoin.conf
      and lightningd.conf, but not torrc. After setup it restarts bitcoind and then lightningd, which comes up
      outside of initial block download. */
  lemma TorIsStored(s: State, on: bool, outcome: nat -> bool)
    requires s.todo == []
    ensures var redis := s.redis[TorBase := if on then "1" else "0"];
            Issued(s, EnableTor(on), outcome)
            == State(redis,
                     s.files[IptablesRules := Fresh(redis, IptablesRules)][BitcoinConf := Fresh(redis, BitcoinConf)]
                            [LightningdConf := Fresh(redis, LightningdConf)],
                     TorUnits(s, outcome(4), outcome(5)), [])
  {
    var m := Switch(outcome);
    var todo := TorOps(s.redis, on);
    var redis := s.redis[TorBase := if on then "1" else "0"];
    TorProgram(s.redis, on);
    IssuedIs(m, s, EnableTor(on), todo);
    TorEnds(m, s.(todo := todo), on);
    SameUnits(s, todo, outcome(4), outcome(5));
    IsFresh(m, redis, IptablesRules);
    IsFresh(m, redis, BitcoinConf);
    IsFresh(m, redis, LightningdConf);
  }

  function ClearnetStored(m: Machine, s: State, bit: string): State {
    var redis := s.redis[IbdClearnet := bit];
    s.(redis := redis,
       files := s.files[IptablesRules := m.made(redis, IptablesRules)][BitcoinConf := m.made(redis, BitcoinConf)])
  }

  lemma ClearnetRuns(m: Machine, s: State, on: bool, i: nat)
    requires Works(m) && s.todo == ClearnetOps(s.redis, on)
    ensures m.run(s, i)
         == ClearnetStored(m, s, if on then "1" else "0").(units := BitcoindRestarted(s, m.outcome(i + 3)), todo := [])
  {
    var bit := if on then "1" else "0";
    var last := if IsSetUp(s) then [Restart(Bitcoind, false)] + [] else [];
    ClearnetParts(s.redis, on);
    assert last == WhenSetUp(s.redis, [Restart(Bitcoind, false)]);
    StoresThenGenerates(m, s, IbdClearnet, bit, IptablesRules, [Generate(BitcoinConf)] + last, i);
    var redis := s.redis[IbdClearnet := bit];
    var t := State(redis, s.files[IptablesRules := m.made(redis, IptablesRules)], s.units, [Generate(BitcoinConf)] + last);
    Generates(m, t, BitcoinConf, last, i + 2);
    LastRestart(m, ClearnetStored(m, s, bit).(todo := last), i + 3);
  }

  lemma ClearnetWithTor(m: Machine, s: State)
    requires Works(m) && s.todo == TorOps(s.redis, true) + ClearnetOps(s.redis, true)
    ensures var t := TorStored(m, s, "1").(units := TorUnits(s, m.outcome(4), m.outcome(5)), todo := []);
            m.run(s, 0)
            == if IsSetUp(s) && !m.outcome(4) then t
               else ClearnetStored(m, t, "1").(units := BitcoindRestarted(t, m.outcome(if IsSetUp(s) then 10 else 8)))
  {
    var own := ClearnetOps(s.redis, true);
    TorRuns(m, s, true, own, 0);
    if !IsSetUp(s) || m.outcome(4) {
      var t := TorStored(m, s, "1").(units := TorUnits(s, m.outcome(4), m.outcome(5)), todo := own);
      assert ClearnetOps(t.redis, true) == own;
      ClearnetRuns(m, t, true, if IsSetUp(s) then 7 else 5);
    }
  }

  lemma ClearnetEnds(m: Machine, s: State, on: bool)
    requires Works(m) && s.todo == [] && !(on && Get(s.redis, TorBase) == "0")
    ensures Issued(s, EnableIbdClearnet(on), m.outcome)
         == ClearnetStored(m, s, if on then "1" else "0").(units := BitcoindRestarted(s, m.outcome(3)))
  {
    var todo := ClearnetOps(s.redis, on);
    TorProgram(s.redis, on);
    IssuedIs(m, s, EnableIbdClearnet(on), todo);
    ClearnetRuns(m, s.(todo := todo), on, 0);
    SameUnits(s, todo, m.outcome(3), true);
  }

  /** Main result: `enable|disable bitcoin_ibd_clearnet` stores its switch, generates the firewall rules and bitcoin.conf
      and after setup restarts bitcoind alone, with tor not off or on disabling. */
  lemma ClearnetIsStored(s: State, on: bool, outcome: nat -> bool)
    requires s.todo == [] && !(on && Get(s.redis, TorBase) == "0")
    ensures var redis := s.redis[IbdClearnet := if on then "1" else "0"];
            Issued(s, EnableIbdClearnet(on), outcome)
            == State(redis,
                     s.files[IptablesRules := Fresh(redis, IptablesRules)][BitcoinConf := Fresh(redis, BitcoinConf)],
                     BitcoindRestarted(s, outcome(3)), [])
  {
    var m := Switch(outcome);
    var redis := s.redis[IbdClearnet := if on then "1" else "0"];
    ClearnetEnds(m, s, on);
    IsFresh(m, redis, IptablesRules);
    IsFresh(m, redis, BitcoinConf);
  }

  /** Main result: enabled while tor is off, it switches tor on first; if bitcoind does not come up with that, clearnet
      stays as it was. */
  lemma ClearnetEnablesTor(s: State, outcome: nat -> bool)
    requires s.todo == [] && Get(s.redis, TorBase) == "0"
    ensures var redis := s.redis[TorBase := "1"];
            var tor := State(redis,
                             s.files[IptablesRules := Fresh(redis, IptablesRules)][BitcoinConf := Fresh(redis, BitcoinConf)]
                                    [LightningdConf := Fresh(redis, LightningdConf)],
                             TorUnits(s, outcome(4), outcome(5)), []);
            var both := redis[IbdClearnet := "1"];
            Issued(s, EnableIbdClearnet(true), outcome)
            == if IsSetUp(s) && !outcome(4) then tor
               else State(both,
                          tor.files[IptablesRules := Fresh(both, IptablesRules)][BitcoinConf := Fresh(both, BitcoinConf)],
                          BitcoindRestarted(tor, outcome(if IsSetUp(s) then 10 else 8)), [])
  {
    var m := Switch(outcome);
    var todo := TorOps(s.redis, true) + ClearnetOps(s.redis, true);
    var redis := s.redis[TorBase := "1"];
    ClearnetProgram(s.redis, true);
    IssuedIs(m, s, EnableIbdClearnet(true), todo);
    ClearnetWithTor(m, s.(todo := todo));
    IsFresh(m, redis, IptablesRules);
    IsFresh(m, redis, BitcoinConf);
    IsFresh(m, redis, LightningdConf);
    IsFresh(m, redis[IbdClearnet := "1"], IptablesRules);
    IsFresh(m, redis[IbdClearnet := "1"], BitcoinConf);
  }

  // --- resync, starts and reconfiguration --------------------------------------------------------------------

  lemma ResyncStops(m: Machine, s: State, rest: seq<Op>)
    requires Works(m) && s.todo == [Stop(Electrs)] + ([Stop(Lightningd)] + ([Stop(Bitcoind)] + rest))
    ensures m.run(s, 0)
         == if !m.outcome(0) then s.(todo := [])
            else if !m.outcome(1) then s.(units := s.units[Electrs := Stopped], todo := [])
            else if !m.outcome(2) then s.(units := s.units[Electrs := Stopped][Lightningd := Stopped], todo := [])
            else m.run(s.(units := s.units[Electrs := Stopped][Lightningd := Stopped][Bitcoind := Stopped], todo := rest), 3)
  {
    Stops(m, s, Electrs, [Stop(Lightningd)] + ([Stop(Bitcoind)] + rest), 0);
    if m.outcome(0) {
      var t := s.(units := s.units[Electrs := Stopped], todo := [Stop(Lightningd)] + ([Stop(Bitcoind)] + rest));
      Stops(m, t, Lightningd, [Stop(Bitcoind)] + rest, 1);
      if m.outcome(1) {
        Stops(m, t.(units := t.units[Lightningd := Stopped], todo := [Stop(Bitcoind)] + rest), Bitcoind, rest, 2);
      }
    }
  }

  function ReindexOff(): seq<Op> { [Set(ReindexChainstate, "0")] + ([Generate(BitcoinConf)] + []) }

  function ReindexOn(): seq<Op> {
    [Set(Ibd, "1")] + ([Set(ReindexChainstate, "1")] + ([Generate(BitcoinConf)] + ([Start(Bitcoind)] + ReindexOff())))
  }

  lemma Reindexes(m: Machine, s: State)
    requires Works(m) && s.todo == ReindexOn() && Bitcoind in s.units && s.units[Bitcoind] == Stopped
    ensures var on := s.redis[Ibd := "1"][ReindexChainstate := "1"];
            var off := on[ReindexChainstate := "0"];
            m.run(s, 3)
            == if m.outcome(6)
               then State(off, s.files[BitcoinConf := m.made(off, BitcoinConf)], s.units[Bitcoind := Active], [])
               else State(on, s.files[BitcoinConf := m.made(on, BitcoinConf)], s.units[Bitcoind := Waiting], [])
  {
    var start := [Start(Bitcoind)] + ReindexOff();
    var on := s.redis[Ibd := "1"][ReindexChainstate := "1"];
    Stores(m, s, Ibd, "1", [Set(ReindexChainstate, "1")] + ([Generate(BitcoinConf)] + start), 3);
    var t := s.(redis := s.redis[Ibd := "1"], todo := [Set(ReindexChainstate, "1")] + ([Generate(BitcoinConf)] + start));
    StoresThenGenerates(m, t, ReindexChainstate, "1", BitcoinConf, start, 4);
    var u := State(on, s.files[BitcoinConf := m.made(on, BitcoinConf)], s.units, start);
    Starts(m, u, Bitcoind, ReindexOff(), 6);
    if m.outcome(6) {
      StoresThenGenerates(m, u.(units := s.units[Bitcoind := Active], todo := ReindexOff()), ReindexChainstate, "0", BitcoinConf,
                          [], 7);
      var off := on[ReindexChainstate := "0"];
      assert u.files[BitcoinConf := m.made(off, BitcoinConf)] == s.files[BitcoinConf := m.made(off, BitcoinConf)];
    }
  }

  lemma ResyncEnds(m: Machine, s: State)
    requires Works(m) && s.todo == []
    ensures var stopped := s.units[Electrs := Stopped][Lightningd := Stopped];
            var on := s.redis[Ibd := "1"][ReindexChainstate := "1"];
            var off := on[ReindexChainstate := "0"];
            Issued(s, Resync, m.outcome)
            == if !m.outcome(0) then s
               else if !m.outcome(1) then s.(units := s.units[Electrs := Stopped])
               else if !m.outcome(2) then s.(units := stopped)
               else if m.outcome(6)
               then State(off, s.files[BitcoinConf := m.made(off, BitcoinConf)], stopped[Bitcoind := Active], [])
               else State(on, s.files[BitcoinConf := m.made(on, BitcoinConf)], stopped[Bitcoind := Waiting], [])
  {
    var todo := [Stop(Electrs)] + ([Stop(Lightningd)] + ([Stop(Bitcoind)] + ReindexOn()));
    ResyncParts(s.redis);
    IssuedIs(m, s, Resync, todo);
    ResyncStops(m, s.(todo := todo), ReindexOn());
    if m.outcome(0) && m.outcome(1) && m.outcome(2) {
      var stopped := s.units[Electrs := Stopped][Lightningd := Stopped];
      Reindexes(m, s.(units := stopped[Bitcoind := Stopped], todo := ReindexOn()));
      assert stopped[Bitcoind := Stopped][Bitcoind := Active] == stopped[Bitcoind := Active];
      assert stopped[Bitcoind := Stopped][Bitcoind := Waiting] == stopped[Bitcoind := Waiting];
    }
  }

  /** Main result: `bitcoind resync|reindex` stops the three services, stores "1" in bitcoind:ibd and starts bitcoind
      with reindexing on; it takes reindexing back once bitcoind is up, and leaves it on if it does not come up. */
  lemma ResyncIsStored(s: State, outcome: nat -> bool)
    requires s.todo == []
    ensures var stopped := s.units[Electrs := Stopped][Lightningd := Stopped];
            var on := s.redis[Ibd := "1"][ReindexChainstate := "1"];
            var off := on[ReindexChainstate := "0"];
            Issued(s, Resync, outcome)
            == if !outcome(0) then s
               else if !outcome(1) then s.(units := s.units[Electrs := Stopped])
               else if !outcome(2) then s.(units := stopped)
               else if outcome(6)
               then State(off, s.files[BitcoinConf := Fresh(off, BitcoinConf)], stopped[Bitcoind := Active], [])
               else State(on, s.files[BitcoinConf := Fresh(on, BitcoinConf)], stopped[Bitcoind := Waiting], [])
  {
    var m := Switch(outcome);
    var on := s.redis[Ibd := "1"][ReindexChainstate := "1"];
    ResyncEnds(m, s);
    IsFresh(m, on, BitcoinConf);
    IsFresh(m, on[ReindexChainstate := "0"], BitcoinConf);
  }

  /** A start that leaves lightningd and electrs alone in initial block download. */
  function StartedOutsideIbd(s: State, service: Service, up: bool): map<Service, UnitState> {
    if Get(s.redis, Ibd) == "1" then s.units else Started(s, service, up)
  }

  lemma StartsOutsideIbd(m: Machine, s: State, service: Service, rest: seq<Op>, i: nat)
    requires Works(m) && s.todo == [StartUnlessIbd(service)] + rest
    ensures var t := s.(units := StartedOutsideIbd(s, service, m.outcome(i)));
            m.run(s, i)
            == if Get(s.redis, Ibd) == "1" || UpAfterStart(s, service, m.outcome(i)) then m.run(t.(todo := rest), i + 1)
               else t.(todo := [])
  {
    Step(m, s, StartUnlessIbd(service), rest, i);
  }

  lemma StartParts(redis: Redis)
    ensures Program(StartBitcoinServices, redis)
         == [Start(Bitcoind)] + ([StartUnlessIbd(Lightningd)] + ([StartUnlessIbd(Electrs)] + []))
  {}

  lemma StartsOthers(m: Machine, s: State, i: nat)
    requires Works(m) && s.todo == [StartUnlessIbd(Lightningd)] + ([StartUnlessIbd(Electrs)] + [])
    ensures var l := s.(units := StartedOutsideIbd(s, Lightningd, m.outcome(i)), todo := []);
            m.run(s, i)
            == if Get(s.redis, Ibd) != "1" && !UpAfterStart(s, Lightningd, m.outcome(i)) then l
               else l.(units := StartedOutsideIbd(l, Electrs, m.outcome(i + 1)))
  {
    var last := [StartUnlessIbd(Electrs)] + [];
    StartsOutsideIbd(m, s, Lightningd, last, i);
    if Get(s.redis, Ibd) == "1" || UpAfterStart(s, Lightningd, m.outcome(i)) {
      StartsOutsideIbd(m, s.(units := StartedOutsideIbd(s, Lightningd, m.outcome(i)), todo := last), Electrs, [], i + 1);
    }
  }

  lemma StartsInTurn(m: Machine, s: State)
    requires Works(m)
    requires s.todo == [Start(Bitcoind)] + ([StartUnlessIbd(Lightningd)] + ([StartUnlessIbd(Electrs)] + []))
    ensures var b := s.(units := Started(s, Bitcoind, m.outcome(0)), todo := []);
            var l := b.(units := StartedOutsideIbd(b, Lightningd, m.outcome(1)));
            m.run(s, 0)
            == if !UpAfterStart(s, Bitcoind, m.outcome(0)) then b
               else if Get(s.redis, Ibd) != "1" && !UpAfterStart(b, Lightningd, m.outcome(1)) then l
               else l.(units := StartedOutsideIbd(l, Electrs, m.outcome(2)))
  {
    var behind := [StartUnlessIbd(Lightningd)] + ([StartUnlessIbd(Electrs)] + []);
    Starts(m, s, Bitcoind, behind, 0);
    if UpAfterStart(s, Bitcoind, m.outcome(0)) {
      StartsOthers(m, s.(units := Started(s, Bitcoind, m.outcome(0)), todo := behind), 1);
    }
  }

  /** Main result: `start-bitcoin-services` starts bitcoind and, outside of initial block download, lightningd and then
      electrs, each only if it does not run and the one before it is up. Redis and the files stay as they are. */
  lemma ServicesAreStarted(s: State, outcome: nat -> bool)
    requires s.todo == []
    ensures var b := s.(units := Started(s, Bitcoind, outcome(0)));
            var l := b.(units := StartedOutsideIbd(b, Lightningd, outcome(1)));
            Issued(s, StartBitcoinServices, outcome)
            == if !UpAfterStart(s, Bitcoind, outcome(0)) then b
               else if Get(s.redis, Ibd) != "1" && !UpAfterStart(b, Lightningd, outcome(1)) then l
               else l.(units := StartedOutsideIbd(l, Electrs, outcome(2)))
  {
    var m := Switch(outcome);
    var todo := [Start(Bitcoind)] + ([StartUnlessIbd(Lightningd)] + ([StartUnlessIbd(Electrs)] + []));
    StartParts(s.redis);
    IssuedIs(m, s, StartBitcoinServices, todo);
    StartsInTurn(m, s.(todo := todo));
  }

  lemma RestartParts(redis: Redis, service: Service, name: string, value: string)
    ensures Program(RestartService(service), redis) == [Restart(service, false)] + []
    ensures Program(SetUnrelated(name, value), redis) == [Set(Unrelated(name), value)] + []
  {}

  /** A restarted unit comes up or is tried again by systemd; other keys are stored for what they are. */
  lemma UnitIsRestarted(s: State, service: Service, name: string, value: string, outcome: nat -> bool)
    requires s.todo == []
    ensures Issued(s, RestartService(service), outcome) == s.(units := Restarted(s, service, outcome(0)))
    ensures Issued(s, SetUnrelated(name, value), outcome) == s.(redis := s.redis[Unrelated(name) := value])
  {
    var m := Switch(outcome);
    RestartParts(s.redis, service, name, value);
    IssuedIs(m, s, RestartService(service), [Restart(service, false)] + []);
    Restarts(m, s.(todo := [Restart(service, false)] + []), service, false, [], 0);
    IssuedIs(m, s, SetUnrelated(name, value), [Set(Unrelated(name), value)] + []);
    Stores(m, s.(todo := [Set(Unrelated(name), value)] + []), Unrelated(name), value, [], 0);
  }

  lemma ReconfigureParts(redis: Redis)
    ensures Program(ReconfigureAfterUpdate, redis)
         == Three(Generate(BitcoinConf), Generate(ElectrsConf), Generate(IptablesRules),
                  [Generate(LightningdConf)] + ([Generate(Torrc)]
                  + Three(Restart(Bitcoind, true), Restart(Electrs, true), Restart(Lightningd, true), [])))
  {}

  /** The three units restarted, whatever comes up. */
  function AllRestarted(s: State, bitcoind: bool, electrs: bool, lightningd: bool): map<Service, UnitState> {
    var b := s.(units := Restarted(s, Bitcoind, bitcoind));
    var e := b.(units := Restarted(b, Electrs, electrs));
    Restarted(e, Lightningd, lightningd)
  }

  lemma RestartsAll(m: Machine, s: State, i: nat)
    requires Works(m) && s.todo == Three(Restart(Bitcoind, true), Restart(Electrs, true), Restart(Lightningd, true), [])
    ensures m.run(s, i) == s.(units := AllRestarted(s, m.outcome(i), m.outcome(i + 1), m.outcome(i + 2)), todo := [])
  {
    var last := [Restart(Lightningd, true)] + [];
    var behind := [Restart(Electrs, true)] + last;
    Restarts(m, s, Bitcoind, true, behind, i);
    var b := s.(units := Restarted(s, Bitcoind, m.outcome(i)), todo := behind);
    Restarts(m, b, Electrs, true, last, i + 1);
    Restarts(m, b.(units := Restarted(b, Electrs, m.outcome(i + 1)), todo := last), Lightningd, true, [], i + 2);
  }

  lemma ReconfigurationRuns(m: Machine, s: State, restarts: seq<Op>)
    requires Works(m)
    requires s.todo == Three(Generate(BitcoinConf), Generate(ElectrsConf), Generate(IptablesRules),
                             [Generate(LightningdConf)] + ([Generate(Torrc)] + restarts))
    ensures m.run(s, 0)
         == m.run(s.(files := s.files[BitcoinConf := m.made(s.redis, BitcoinConf)][ElectrsConf := m.made(s.redis, ElectrsConf)]
                                     [IptablesRules := m.made(s.redis, IptablesRules)]
                                     [LightningdConf := m.made(s.redis, LightningdConf)][Torrc := m.made(s.redis, Torrc)],
                     todo := restarts), 5)
  {
    var last := [Generate(Torrc)] + restarts;
    GeneratesThree(m, s, BitcoinConf, ElectrsConf, IptablesRules, [Generate(LightningdConf)] + last, 0);
    var t := s.(files := s.files[BitcoinConf := m.made(s.redis, BitcoinConf)][ElectrsConf := m.made(s.redis, ElectrsConf)]
                                [IptablesRules := m.made(s.redis, IptablesRules)], todo := [Generate(LightningdConf)] + last);
    Generates(m, t, LightningdConf, last, 3);
    Generates(m, t.(files := t.files[LightningdConf := m.made(s.redis, LightningdConf)], todo := last), Torrc, restarts, 4);
  }

  lemma ReconfigurationAll(m: Machine, s: State)
    requires Works(m)
    requires s.todo == Three(Generate(BitcoinConf), Generate(ElectrsConf), Generate(IptablesRules),
                             [Generate(LightningdConf)] + ([Generate(Torrc)]
                             + Three(Restart(Bitcoind, true), Restart(Electrs, true), Restart(Lightningd, true), [])))
    ensures m.run(s, 0)
         == State(s.redis,
                  s.files[BitcoinConf := m.made(s.redis, BitcoinConf)][ElectrsConf := m.made(s.redis, ElectrsConf)]
                         [IptablesRules := m.made(s.redis, IptablesRules)][LightningdConf := m.made(s.redis, LightningdConf)]
                         [Torrc := m.made(s.redis, Torrc)],
                  AllRestarted(s, m.outcome(5), m.outcome(6), m.outcome(7)), [])
  {
    var restarts := Three(Restart(Bitcoind, true), Restart(Electrs, true), Restart(Lightningd, true), []);
    ReconfigurationRuns(m, s, restarts);
    var files := s.files[BitcoinConf := m.made(s.redis, BitcoinConf)][ElectrsConf := m.made(s.redis, ElectrsConf)]
                        [IptablesRules := m.made(s.redis, IptablesRules)][LightningdConf := m.made(s.redis, LightningdConf)]
                        [Torrc := m.made(s.redis, Torrc)];
    RestartsAll(m, s.(files := files, todo := restarts), 5);
    OnlyUnits(s, s.(files := files, todo := restarts), m.outcome(5), m.outcome(6), m.outcome(7));
  }

  lemma OnlyUnits(s: State, t: State, bitcoind: bool, electrs: bool, lightningd: bool)
    requires t.units == s.units && t.redis == s.redis
    ensures AllRestarted(t, bitcoind, electrs, lightningd) == AllRestarted(s, bitcoind, electrs, lightningd)
  {}

  lemma ReconfigurationEnds(m: Machine, s: State)
    requires Works(m) && s.todo == []
    ensures Issued(s, ReconfigureAfterUpdate, m.outcome)
         == State(s.redis,
                  s.files[BitcoinConf := m.made(s.redis, BitcoinConf)][ElectrsConf := m.made(s.redis, ElectrsConf)]
                         [IptablesRules := m.made(s.redis, IptablesRules)][LightningdConf := m.made(s.redis, LightningdConf)]
                         [Torrc := m.made(s.redis, Torrc)],
                  AllRestarted(s, m.outcome(5), m.outcome(6), m.outcome(7)), [])
  {
    var todo := Program(ReconfigureAfterUpdate, s.redis);
    ReconfigureParts(s.redis);
    IssuedIs(m, s, ReconfigureAfterUpdate, todo);
    ReconfigurationAll(m, s.(todo := todo));
    OnlyUnits(s, s.(todo := todo), m.outcome(5), m.outcome(6), m.outcome(7));
  }

  /** Main result: the reconfiguration after an update generates all five files from the values as they are, and restarts
      bitcoind, electrs and lightningd, whatever comes up. */
  lemma AllIsReconfigured(s: State, outcome: nat -> bool)
    requires s.todo == []
    ensures Issued(s, ReconfigureAfterUpdate, outcome)
         == State(s.redis,
                  s.files[BitcoinConf := Fresh(s.redis, BitcoinConf)][ElectrsConf := Fresh(s.redis, ElectrsConf)]
                         [IptablesRules := Fresh(s.redis, IptablesRules)][LightningdConf := Fresh(s.redis, LightningdConf)]
                         [Torrc := Fresh(s.redis, Torrc)],
                  AllRestarted(s, outcome(5), outcome(6), outcome(7)), [])
  {
    var m := Switch(outcome);
    ReconfigurationEnds(m, s);
    IsFresh(m, s.redis, BitcoinConf);
    IsFresh(m, s.redis, ElectrsConf);
    IsFresh(m, s.redis, IptablesRules);
    IsFresh(m, s.redis, LightningdConf);
    IsFresh(m, s.redis, Torrc);
  }

  // --- what happens without a command ------------------------------------------------------------------------

  /** Main result: a unit that dies is tried again by systemd and then runs under the same conditions as after a command;
      a reboot has all three tried, with the files as they were; a restored Redis changes nothing else. */
  lemma UnitsComeBack(s: State, service: Service, up: bool, redis: Redis)
    requires service in s.units
    ensures s.units[service] == Active
        ==> Enabled(s, Dies(service)) && Apply(s, Dies(service)) == s.(units := s.units[service := Waiting])
            && Enabled(Apply(s, Dies(service)), AutoStart(service, up))
    ensures s.units[service] == Waiting
        ==> Enabled(s, AutoStart(service, up)) && Apply(s, AutoStart(service, up)) == s.(units := Restarted(s, service, up))
    ensures Enabled(s, Reboot(redis))
            && Apply(s, Reboot(redis))
               == State(redis, s.files, map[Bitcoind := Waiting, Lightningd := Waiting, Electrs := Waiting], [])
    ensures s.todo == [] ==> Enabled(s, Restore(redis)) && Apply(s, Restore(redis)) == s.(redis := redis)
  {}
}
