/** The configuration and command scripts as sequences of elementary operations on Redis, the
    generated files and the systemd units, interleaved with what systemd does on its own. */
module BaseSystem {
  import opened ConfigTemplates
  import opened Decimal

  datatype Service = Bitcoind | Lightningd | Electrs

  /** `Waiting`: systemd will try to start the unit again on its own (Restart=always, or boot). */
  datatype UnitState = Stopped | Active | Waiting

  datatype Op =
    | Set(key: Key, value: string)                        // redis_set
    | Generate(file: File)                                // generateConfig
    | Stop(service: Service)
    | Start(service: Service)
    | StartUnlessIbd(service: Service)                    // bbb-systemctl.sh start-bitcoin-services
    | Restart(service: Service, mayFail: bool)            // mayFail: "|| true"

  /** What the operator, the app, the supervisor or the boot process asks for. */
  datatype Command =
    | EnableBitcoinServices(on: bool)
    | EnableIncoming(on: bool)
    | EnableIbd(on: bool)
    | EnableIbdClearnet(on: bool)
    | EnableTor(on: bool)
    | EnableTorService(key: Key, on: bool)
    | SetNetwork(mainnet: bool)
    | SetDbCache(megabytes: nat)
    | Resync
    | RefreshCredentials(auth: string, user: string, password: string)
    | NewTorBlob(blob: string)
    | StartBitcoinServices
    | RestartService(service: Service)
    | ReconfigureAfterUpdate
    | SetUnrelated(name: string, value: string)

  function Bit(on: bool): string { if on then "1" else "0" }

  function WhenSetUp(redis: Redis, ops: seq<Op>): seq<Op> { if Get(redis, Setup) == "1" then ops else [] }

  function DbCacheOps(redis: Redis, megabytes: nat): seq<Op> {
    if 50 <= megabytes <= 3000 then
      [Set(DbCache, Digits(megabytes)), Generate(BitcoinConf)]
      + (if Get(redis, DbCache) == Digits(megabytes) then [] else WhenSetUp(redis, [Restart(Bitcoind, false)]))
    else []
  }

  function TorOps(redis: Redis, on: bool): seq<Op> {
    [Set(TorBase, Bit(on)), Generate(IptablesRules), Generate(BitcoinConf), Generate(LightningdConf)]
    + WhenSetUp(redis, [Restart(Bitcoind, false), Restart(Lightningd, true)])
    + [Set(TorBase, Bit(on))]
  }

  function RefreshOps(auth: string, user: string, password: string): seq<Op> {
    [Set(RefreshRpcAuth, "1"), Set(RpcAuth, auth), Set(RpcUser, user), Set(RpcPassword, password),
     Generate(BitcoinConf), Generate(LightningdConf), Generate(ElectrsConf), Set(RefreshRpcAuth, "0")]
  }

  /** The operations of a command, in order. The values its conditions read do not change before
      they are read, so they are taken when the command starts. */
  function Program(command: Command, redis: Redis): seq<Op> {
    match command
    case EnableBitcoinServices(on) => [Set(Setup, Bit(on))]
    case EnableIncoming(on) =>
      [Set(Listen, Bit(on)), Generate(BitcoinConf)] + WhenSetUp(redis, [Restart(Bitcoind, false)])
    case EnableIbd(on) =>
      if on then [Stop(Lightningd), Stop(Electrs)] + DbCacheOps(redis, 2000) + [Set(Ibd, "1")]
      else DbCacheOps(redis, 300) + [Set(Ibd, "0")] + WhenSetUp(redis, [Start(Lightningd), Start(Electrs)])
    case EnableIbdClearnet(on) =>
      (if on && Get(redis, TorBase) == "0" then TorOps(redis, true) else [])
      + [Set(IbdClearnet, Bit(on)), Generate(IptablesRules), Generate(BitcoinConf)]
      + WhenSetUp(redis, [Restart(Bitcoind, false)])
    case EnableTor(on) => TorOps(redis, on)
    case EnableTorService(key, on) =>
      if key == TorSsh || key == TorElectrs || key == TorMiddleware then [Set(key, Bit(on)), Generate(Torrc)] else []
    case SetNetwork(mainnet) =>
      [Set(Network, if mainnet then "mainnet" else "testnet"), Set(Testnet, Bit(!mainnet)), Set(Mainnet, Bit(mainnet)),
       Set(LightningDir, "/mnt/ssd/bitcoin/.lightning"),
       Generate(Torrc), Generate(BitcoinConf), Generate(LightningdConf), Generate(ElectrsConf)]
    case SetDbCache(megabytes) => DbCacheOps(redis, megabytes)
    case Resync =>
      [Stop(Electrs), Stop(Lightningd), Stop(Bitcoind), Set(Ibd, "1"), Set(ReindexChainstate, "1"), Generate(BitcoinConf),
       Start(Bitcoind), Set(ReindexChainstate, "0"), Generate(BitcoinConf)]
    case RefreshCredentials(auth, user, password) => RefreshOps(auth, user, password)
    case NewTorBlob(blob) => [Set(StaticTorBlob, blob), Generate(LightningdConf)]
    case StartBitcoinServices => [Start(Bitcoind), StartUnlessIbd(Lightningd), StartUnlessIbd(Electrs)]
    case RestartService(service) => [Restart(service, false)]
    case ReconfigureAfterUpdate =>
      [Generate(BitcoinConf), Generate(ElectrsConf), Generate(IptablesRules), Generate(LightningdConf), Generate(Torrc),
       Restart(Bitcoind, true), Restart(Electrs, true), Restart(Lightningd, true)]
    case SetUnrelated(name, value) => [Set(Unrelated(name), value)]
  }

  datatype State = State(
    redis: Redis,
    files: map<File, seq<string>>,
    units: map<Service, UnitState>,
    todo: seq<Op>)     // what remains of the running command

  predicate IsActive(s: State, service: Service) { service in s.units && s.units[service] == Active }

  /** The ExecStartPre scripts: lightningd and electrs need bitcoind and no initial block download. */
  predicate MayStart(s: State, service: Service) {
    service == Bitcoind || (IsActive(s, Bitcoind) && Get(s.redis, Ibd) != "1")
  }

  datatype Event =
    | Issue(command: Command)
    | Next(ok: bool)                                   // the next operation; ok: whether bitcoind starts or a stop succeeds
    | NewCredentials(auth: string, user: string, password: string)  // bitcoind's ExecStartPre, whoever starts it, at any time
    | Dies(service: Service)                           // a unit fails or exits
    | AutoStart(service: Service, ok: bool)            // systemd's own start attempt
    | Reboot(redis: Redis)                             // with whatever Redis had saved
    | Restore(redis: Redis)                            // bbb-cmd.sh restore sysconfig

  predicate Enabled(s: State, e: Event) {
    match e
    case Issue(_) => s.todo == []
    case Next(_) => s.todo != []
    case NewCredentials(_, _, _) => true
    case Dies(service) => IsActive(s, service)
    case AutoStart(service, _) => service in s.units && s.units[service] == Waiting
    case Reboot(_) => true
    case Restore(_) => s.todo == []
  }

  /** A failing command ends the script (set -e). */
  function Abort(s: State): State { s.(todo := []) }

  function StartUnit(s: State, service: Service, ok: bool): State {
    s.(units := s.units[service := if MayStart(s, service) && ok then Active else Waiting])
  }

  function Execute(s: State, op: Op, ok: bool): State {
    match op
    case Set(key, value) => s.(redis := s.redis[key := value])
    case Generate(file) => s.(files := s.files[file := Render(TemplateOf(file), s.redis)])
    case Stop(service) => if ok then s.(units := s.units[service := Stopped]) else Abort(s)
    case Start(service) =>
      if IsActive(s, service) then s
      else if MayStart(s, service) && ok then StartUnit(s, service, ok) else Abort(StartUnit(s, service, ok))
    case StartUnlessIbd(service) =>
      if IsActive(s, service) || Get(s.redis, Ibd) == "1" then s
      else if MayStart(s, service) && ok then StartUnit(s, service, ok) else Abort(StartUnit(s, service, ok))
    case Restart(service, mayFail) =>
      if (MayStart(s, service) && ok) || mayFail then StartUnit(s, service, ok) else Abort(StartUnit(s, service, ok))
  }

  function Apply(s: State, e: Event): State
    requires Enabled(s, e)
  {
    match e
    case Issue(command) => s.(todo := Program(command, s.redis))
    case Next(ok) => Execute(s.(todo := s.todo[1..]), s.todo[0], ok)
    case NewCredentials(auth, user, password) => s.(todo := RefreshOps(auth, user, password) + s.todo)
    case Dies(service) => s.(units := s.units[service := Waiting])
    case AutoStart(service, ok) => StartUnit(s, service, ok)
    case Reboot(redis) => State(redis, s.files, map[Bitcoind := Waiting, Lightningd := Waiting, Electrs := Waiting], [])
    case Restore(redis) => s.(redis := redis)
  }

  predicate Valid(s: State, run: seq<Event>)
    decreases |run|
  {
    run == [] || (Enabled(s, run[0]) && Valid(Apply(s, run[0]), run[1..]))
  }

  function After(s: State, run: seq<Event>): State
    requires Valid(s, run)
    decreases |run|
  {
    if run == [] then s else After(Apply(s, run[0]), run[1..])
  }
}
