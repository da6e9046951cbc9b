/** The generated configuration files whose agreement with Redis matters to Bitcoin, Lightning and
    the firewall, and what generating them from the current Redis values yields. Comment, blank and
    (in the firewall rules) fixed lines of the templates are copied unchanged and not repeated. */
module ConfigTemplates {
  import opened Options
  import opened Text
  import T = Template

  function Spaces(n: nat): string { if n == 0 then "" else " " + Spaces(n - 1) }

  /** Text padded to a column, as the templates align their placeholders. */
  function Pad(text: string, column: nat): string { if |text| < column then text + Spaces(column - |text|) else text }

  /** The Redis keys that the templates below and the configuration commands use. */
  datatype Key =
    | TorBase | TorSsh | TorElectrs | TorMiddleware
    | Ibd | IbdClearnet | Setup
    | Mainnet | Testnet | Network | Server | Listen | TxIndex | Prune | DisableWallet | SysPerms | PrintToConsole
    | OnlyNet | RpcConnect | RpcPort | RpcAuth | RpcUser | RpcPassword | RefreshRpcAuth
    | DbCache | MaxConnections | MaxUploadTarget | BtcProxy | ReindexChainstate
    | BitcoinCli | LightningDir | StaticTorBlob | BindAddr | LnProxy | LogLevel | Plugin1 | Plugin2 | Plugin3
    | DbDir | DaemonDir | MonitoringAddr | Verbosity | RustBacktrace
    | Unrelated(name: string)

  function Name(key: Key): string {
    match key
    case TorBase => "tor:base:enabled"
    case TorSsh => "tor:ssh:enabled"
    case TorElectrs => "tor:electrs:enabled"
    case TorMiddleware => "tor:bbbmiddleware:enabled"
    case Ibd => "bitcoind:ibd"
    case IbdClearnet => "bitcoind:ibd-clearnet"
    case Setup => "base:setup"
    case Mainnet => "bitcoind:mainnet"
    case Testnet => "bitcoind:testnet"
    case Network => "bitcoind:network"
    case Server => "bitcoind:server"
    case Listen => "bitcoind:listen"
    case TxIndex => "bitcoind:txindex"
    case Prune => "bitcoind:prune"
    case DisableWallet => "bitcoind:disablewallet"
    case SysPerms => "bitcoind:sysperms"
    case PrintToConsole => "bitcoind:printtoconsole"
    case OnlyNet => "bitcoind:onlynet"
    case RpcConnect => "bitcoind:rpcconnect"
    case RpcPort => "bitcoind:rpcport"
    case RpcAuth => "bitcoind:rpcauth"
    case RpcUser => "bitcoind:rpcuser"
    case RpcPassword => "bitcoind:rpcpassword"
    case RefreshRpcAuth => "bitcoind:refresh-rpcauth"
    case DbCache => "bitcoind:dbcache"
    case MaxConnections => "bitcoind:maxconnections"
    case MaxUploadTarget => "bitcoind:maxuploadtarget"
    case BtcProxy => "bitcoind:proxy"
    case ReindexChainstate => "bitcoind:reindex-chainstate"
    case BitcoinCli => "lightningd:bitcoin-cli"
    case LightningDir => "lightningd:lightning-dir"
    case StaticTorBlob => "lightningd:statictorblob"
    case BindAddr => "lightningd:bind-addr"
    case LnProxy => "lightningd:proxy"
    case LogLevel => "lightningd:log-level"
    case Plugin1 => "lightningd:plugin:1"
    case Plugin2 => "lightningd:plugin:2"
    case Plugin3 => "lightningd:plugin:3"
    case DbDir => "electrs:db_dir"
    case DaemonDir => "electrs:daemon_dir"
    case MonitoringAddr => "electrs:monitoring_addr"
    case Verbosity => "electrs:verbosity"
    case RustBacktrace => "electrs:rust_backtrace"
    case Unrelated(name) => name
  }

  type Redis = map<Key, string>

  function Get(redis: Redis, key: Key): string { if key in redis then redis[key] else "" }

  /** A template line: literal text, then a placeholder with its key and the words behind it, ... */
  datatype Line = End(text: string) | Slot(text: string, key: Key, words: seq<string>, rest: Line)

  function Ask(key: Key, words: seq<string>, redis: Redis): T.Action {
    if words == [] then T.Decide("", [], Get(redis, key)) else T.Decide(words[0], words[1..], Get(redis, key))
  }

  predicate Dropped(line: Line, redis: Redis) {
    match line
    case End(_) => false
    case Slot(_, key, words, rest) => Ask(key, words, redis).DropLine? || Dropped(rest, redis)
  }

  /** The placeholder as it stands in the template. */
  function Body(key: Key, words: seq<string>): string { " " + Join([Name(key)] + words) + " " }

  function Shown(line: Line, redis: Redis): string {
    match line
    case End(text) => text
    case Slot(text, key, words, rest) =>
      text
      + (match Ask(key, words, redis)
         case Substitute(value, _) => value
         case _ => T.Placeholder(Body(key, words)))
      + Shown(rest, redis)
  }

  /** The lines of the generated file. */
  function Render(lines: seq<Line>, redis: Redis): seq<string> {
    if lines == [] then []
    else (if Dropped(lines[0], redis) then [] else [Shown(lines[0], redis)]) + Render(lines[1..], redis)
  }

  function KeysOf(line: Line): set<Key> {
    match line
    case End(_) => {}
    case Slot(_, key, _, rest) => {key} + KeysOf(rest)
  }

  // --- the templates -----------------------------------------------------------------------------

  function Default(text: string, key: Key, value: string): Line { Slot(text, key, ["#default:", value], End("")) }
  function OnlySet(text: string, key: Key): Line { Slot(text, key, ["#rmLine"], End("")) }
  function OnlyIf(text: string, key: Key): Line { Slot(text, key, ["#rmLineFalse"], End("")) }
  function OnlyUnless(text: string, key: Key): Line { Slot(text, key, ["#rmLineTrue"], End("")) }

  const BITCOIN_SERVER: seq<Line> := [
    Default("mainnet=", Mainnet, "1"),
    Default("testnet=", Testnet, "0"),
    Default("server=", Server, "1"),
    Default("listen=", Listen, "1")]

  const LISTEN_ONION: seq<Line> := [
    Slot("listenonion=", TorBase, ["#default:", "1"], OnlyUnless("              ", IbdClearnet)),
    OnlyIf(Pad("listenonion=0", 76), IbdClearnet)]

  const BITCOIN_OPTIONS: seq<Line> := [
    Default("txindex=", TxIndex, "0"),
    Default("prune=", Prune, "0"),
    Default("disablewallet=", DisableWallet, "1"),
    Default("sysperms=", SysPerms, "1"),
    Default("printtoconsole=", PrintToConsole, "1")]

  const ONLY_NET: seq<Line> := [
    Slot("onlynet=", OnlyNet, ["#default:", "ipv4"], OnlyUnless("           ", TorBase)),
    Slot("onlynet=", OnlyNet, ["#default:", "ipv4"],
         Slot("           ", TorBase, ["#rmLineFalse"], OnlyIf(" ", IbdClearnet)))]

  const BITCOIN_RPC: seq<Line> := [
    Default("rpcconnect=", RpcConnect, "127.0.0.1"),
    Default("rpcport=", RpcPort, "8332"),
    OnlySet("rpcauth=", RpcAuth),
    Default("dbcache=", DbCache, "300"),
    Default("maxconnections=", MaxConnections, "40"),
    Default("maxuploadtarget=", MaxUploadTarget, "5000")]

  const PROXY: seq<Line> := [
    Slot("proxy=", BtcProxy, ["#default:", "127.0.0.1:9050"],
         Slot(" ", TorBase, ["#rmLineFalse"], OnlyUnless(" ", IbdClearnet)))]

  const REINDEX: seq<Line> := [
    Slot("reindex-chainstate=", ReindexChainstate, ["#rmLine"], OnlyIf("               ", ReindexChainstate))]

  const BITCOIN_CONF: seq<Line> :=
    BITCOIN_SERVER + LISTEN_ONION + BITCOIN_OPTIONS + ONLY_NET + BITCOIN_RPC + PROXY + REINDEX

  function Accept(chain: string, port: string): string {
    Pad("-A " + chain + " -p tcp --" + port + " -j ACCEPT", 56)
  }

  const IPTABLES_RULES: seq<Line> := [
    OnlyUnless(Accept("INPUT", "dport 8333"), TorBase),
    OnlyUnless(Accept("INPUT", "dport 18333"), TorBase),
    OnlyIf(Accept("INPUT", "dport 9001"), TorBase),
    OnlyIf(Accept("INPUT", "sport 9001"), TorBase),
    OnlyUnless(Accept("OUTPUT", "dport 8333"), TorBase),
    OnlyUnless(Accept("OUTPUT", "dport 18333"), TorBase),
    Slot(Accept("OUTPUT", "dport 8333"), TorBase, ["#rmLineFalse"], OnlyIf(" ", IbdClearnet)),
    Slot(Accept("OUTPUT", "dport 18333"), TorBase, ["#rmLineFalse"], OnlyIf(" ", IbdClearnet)),
    OnlyUnless(Accept("OUTPUT", "dport 9735"), TorBase),
    OnlyIf(Accept("OUTPUT", "dport 9001"), TorBase)]

  const LIGHTNINGD_BITCOIN: seq<Line> := [
    Default("", Network, "mainnet"),
    Default("bitcoin-cli=", BitcoinCli, "/usr/bin/bitcoin-cli"),
    Default("bitcoin-rpcuser=", RpcUser, "base"),
    OnlySet("bitcoin-rpcpassword=", RpcPassword),
    Default("bitcoin-rpcconnect=", RpcConnect, "127.0.0.1"),
    Default("bitcoin-rpcport=", RpcPort, "8332")]

  const LIGHTNINGD_PATHS: seq<Line> := [
    Default("lightning-dir=", LightningDir, "/mnt/ssd/bitcoin/.lightning"),
    Slot("addr=statictor:127.0.0.1:9051/torblob", StaticTorBlob, [], OnlyIf("", TorBase)),
    Default("bind-addr=", BindAddr, "127.0.0.1:9735")]

  const LIGHTNINGD_SETTINGS: seq<Line> := [
    Slot("proxy=", LnProxy, ["#default:", "127.0.0.1:9050"], OnlyIf("", TorBase)),
    OnlyIf("always-use-proxy=true", TorBase),
    Default("log-level=", LogLevel, "debug"),
    OnlySet("plugin=", Plugin1),
    OnlySet("plugin=", Plugin2),
    OnlySet("plugin=", Plugin3)]

  const LIGHTNINGD_CONF: seq<Line> := LIGHTNINGD_BITCOIN + LIGHTNINGD_PATHS + LIGHTNINGD_SETTINGS

  const ELECTRS_PATHS: seq<Line> := [
    Default("NETWORK=", Network, "mainnet"),
    Default("RPCCONNECT=", RpcConnect, "127.0.0.1"),
    Default("RPCPORT=", RpcPort, "8332"),
    Default("DB_DIR=", DbDir, "/mnt/ssd/electrs/db"),
    Default("DAEMON_DIR=", DaemonDir, "/mnt/ssd/bitcoin/.bitcoin")]

  const ELECTRS_SETTINGS: seq<Line> := [
    Default("MONITORING_ADDR=", MonitoringAddr, "127.0.0.1:4224"),
    Default("VERBOSITY=", Verbosity, "vvvv"),
    Default("RUST_BACKTRACE=", RustBacktrace, "1"),
    Default("RPCUSER=", RpcUser, "base"),
    OnlySet("RPCPASSWORD=", RpcPassword)]

  const ELECTRS_CONF: seq<Line> := ELECTRS_PATHS + ELECTRS_SETTINGS

  function HiddenService(name: string, port: string, key: Key): seq<Line> {
    [OnlyIf(Pad("HiddenServiceDir " + "/var/lib/tor/hidden_service_" + name + "/", 60), key),
     OnlyIf(Pad("HiddenServiceVersion 3", 60), key),
     OnlyIf(Pad("HiddenServicePort " + port, 60), key)]
  }

  const TOR_SERVICES: seq<Line> :=
    [End("ControlPort 9051"), End("CookieAuthentication 1"), End("CookieAuthFileGroupReadable 1")]
    + HiddenService("ssh", "22 127.0.0.1:22", TorSsh)
    + HiddenService("electrs", "50002 127.0.0.1:50002", TorElectrs)

  const TORRC: seq<Line> :=
    TOR_SERVICES
    + HiddenService("lightningd", "9375 127.0.0.1:9735", TorBase)
    + HiddenService("bbbmiddleware", "9375 127.0.0.1:8845", TorMiddleware)

  datatype File = BitcoinConf | IptablesRules | LightningdConf | ElectrsConf | Torrc

  function TemplateOf(file: File): seq<Line> {
    match file
    case BitcoinConf => BITCOIN_CONF
    case IptablesRules => IPTABLES_RULES
    case LightningdConf => LIGHTNINGD_CONF
    case ElectrsConf => ELECTRS_CONF
    case Torrc => TORRC
  }

  /** The keys a template may read. */
  function KeysRead(file: File): set<Key> {
    match file
    case BitcoinConf =>
      {Mainnet, Testnet, Server, Listen, TorBase, IbdClearnet, TxIndex, Prune, DisableWallet, SysPerms, PrintToConsole,
       OnlyNet, RpcConnect, RpcPort, RpcAuth, DbCache, MaxConnections, MaxUploadTarget, BtcProxy, ReindexChainstate}
    case IptablesRules => {TorBase, IbdClearnet}
    case LightningdConf =>
      {Network, BitcoinCli, RpcUser, RpcPassword, RpcConnect, RpcPort, LightningDir, StaticTorBlob, TorBase, BindAddr,
       LnProxy, LogLevel, Plugin1, Plugin2, Plugin3}
    case ElectrsConf =>
      {Network, RpcConnect, RpcPort, DbDir, DaemonDir, MonitoringAddr, Verbosity, RustBacktrace, RpcUser, RpcPassword}
    case Torrc => {TorSsh, TorElectrs, TorBase, TorMiddleware}
  }

  predicate Covered(lines: seq<Line>, keys: set<Key>) { forall l :: l in lines ==> KeysOf(l) <= keys }

  lemma KeysOfUpToThree(line: Line)
    ensures line.End? ==> KeysOf(line) == {}
    ensures line.Slot? && line.rest.End? ==> KeysOf(line) == {line.key}
    ensures line.Slot? && line.rest.Slot? && line.rest.rest.End? ==> KeysOf(line) == {line.key, line.rest.key}
    ensures line.Slot? && line.rest.Slot? && line.rest.rest.Slot? && line.rest.rest.rest.End?
        ==> KeysOf(line) == {line.key, line.rest.key, line.rest.rest.key}
  {
    if line.Slot? && line.rest.Slot? && line.rest.rest.Slot? { assert KeysOf(line.rest.rest.rest) <= KeysOf(line.rest.rest); }
  }

  lemma BitcoinCovered() ensures Covered(BITCOIN_CONF, KeysRead(BitcoinConf))
  {
    forall l | l in BITCOIN_CONF ensures KeysOf(l) <= KeysRead(BitcoinConf) { KeysOfUpToThree(l); }
  }

  lemma IptablesCovered() ensures Covered(IPTABLES_RULES, KeysRead(IptablesRules))
  {
    forall l | l in IPTABLES_RULES ensures KeysOf(l) <= KeysRead(IptablesRules) { KeysOfUpToThree(l); }
  }

  lemma LightningdCovered() ensures Covered(LIGHTNINGD_CONF, KeysRead(LightningdConf))
  {
    forall l | l in LIGHTNINGD_CONF ensures KeysOf(l) <= KeysRead(LightningdConf) { KeysOfUpToThree(l); }
  }

  lemma ElectrsCovered() ensures Covered(ELECTRS_CONF, KeysRead(ElectrsConf))
  {
    forall l | l in ELECTRS_CONF ensures KeysOf(l) <= KeysRead(ElectrsConf) { KeysOfUpToThree(l); }
  }

  lemma HiddenServiceCovered(name: string, port: string, key: Key, keys: set<Key>)
    requires key in keys
    ensures Covered(HiddenService(name, port, key), keys)
  {
    forall l | l in HiddenService(name, port, key) ensures KeysOf(l) <= keys { KeysOfUpToThree(l); }
  }

  lemma TorServicesCovered() ensures Covered(TOR_SERVICES, KeysRead(Torrc))
  {
    var keys := KeysRead(Torrc);
    var plain := [End("ControlPort 9051"), End("CookieAuthentication 1"), End("CookieAuthFileGroupReadable 1")];
    forall l | l in plain ensures KeysOf(l) <= keys { KeysOfUpToThree(l); }
    HiddenServiceCovered("ssh", "22 127.0.0.1:22", TorSsh, keys);
    HiddenServiceCovered("electrs", "50002 127.0.0.1:50002", TorElectrs, keys);
  }

  lemma TorrcCovered() ensures Covered(TORRC, KeysRead(Torrc))
  {
    TorServicesCovered();
    HiddenServiceCovered("lightningd", "9375 127.0.0.1:9735", TorBase, KeysRead(Torrc));
    HiddenServiceCovered("bbbmiddleware", "9375 127.0.0.1:8845", TorMiddleware, KeysRead(Torrc));
  }
}
