/** The templates of the Base are well formed: what the engine makes of their text is what
    ConfigTemplates.Render says. */
module ConfigWording {
  import opened ConfigTemplates
  import opened ConfigEngine
  import T = Template
  import I = TemplateIdempotence

  // --- the names of the keys that templates read -------------------------------------------------------------

  lemma NameOfTorBase() ensures IsKeyName(Name(TorBase)) {}
  lemma NameOfTorSsh() ensures IsKeyName(Name(TorSsh)) {}
  lemma NameOfTorElectrs() ensures IsKeyName(Name(TorElectrs)) {}
  lemma NameOfTorMiddleware() ensures IsKeyName(Name(TorMiddleware)) {}
  lemma NameOfIbdClearnet() ensures IsKeyName(Name(IbdClearnet)) {}
  lemma NameOfMainnet() ensures IsKeyName(Name(Mainnet)) {}
  lemma NameOfTestnet() ensures IsKeyName(Name(Testnet)) {}
  lemma NameOfNetwork() ensures IsKeyName(Name(Network)) {}
  lemma NameOfServer() ensures IsKeyName(Name(Server)) {}
  lemma NameOfListen() ensures IsKeyName(Name(Listen)) {}
  lemma NameOfTxIndex() ensures IsKeyName(Name(TxIndex)) {}
  lemma NameOfPrune() ensures IsKeyName(Name(Prune)) {}
  lemma NameOfDisableWallet() ensures IsKeyName(Name(DisableWallet)) {}
  lemma NameOfSysPerms() ensures IsKeyName(Name(SysPerms)) {}
  lemma NameOfPrintToConsole() ensures IsKeyName(Name(PrintToConsole)) {}
  lemma NameOfOnlyNet() ensures IsKeyName(Name(OnlyNet)) {}
  lemma NameOfRpcConnect() ensures IsKeyName(Name(RpcConnect)) {}
  lemma NameOfRpcPort() ensures IsKeyName(Name(RpcPort)) {}
  lemma NameOfRpcAuth() ensures IsKeyName(Name(RpcAuth)) {}
  lemma NameOfRpcUser() ensures IsKeyName(Name(RpcUser)) {}
  lemma NameOfRpcPassword() ensures IsKeyName(Name(RpcPassword)) {}
  lemma NameOfDbCache() ensures IsKeyName(Name(DbCache)) {}
  lemma NameOfMaxConnections() ensures IsKeyName(Name(MaxConnections)) {}
  lemma NameOfMaxUploadTarget() ensures IsKeyName(Name(MaxUploadTarget)) {}
  lemma NameOfBtcProxy() ensures IsKeyName(Name(BtcProxy)) {}
  lemma NameOfReindexChainstate() ensures IsKeyName(Name(ReindexChainstate)) {}
  lemma NameOfBitcoinCli() ensures IsKeyName(Name(BitcoinCli)) {}
  lemma NameOfLightningDir() ensures IsKeyName(Name(LightningDir)) {}
  lemma NameOfStaticTorBlob() ensures IsKeyName(Name(StaticTorBlob)) {}
  lemma NameOfBindAddr() ensures IsKeyName(Name(BindAddr)) {}
  lemma NameOfLnProxy() ensures IsKeyName(Name(LnProxy)) {}
  lemma NameOfLogLevel() ensures IsKeyName(Name(LogLevel)) {}
  lemma NameOfPlugin1() ensures IsKeyName(Name(Plugin1)) {}
  lemma NameOfPlugin2() ensures IsKeyName(Name(Plugin2)) {}
  lemma NameOfPlugin3() ensures IsKeyName(Name(Plugin3)) {}
  lemma NameOfDbDir() ensures IsKeyName(Name(DbDir)) {}
  lemma NameOfDaemonDir() ensures IsKeyName(Name(DaemonDir)) {}
  lemma NameOfMonitoringAddr() ensures IsKeyName(Name(MonitoringAddr)) {}
  lemma NameOfVerbosity() ensures IsKeyName(Name(Verbosity)) {}
  lemma NameOfRustBacktrace() ensures IsKeyName(Name(RustBacktrace)) {}

  // --- the lines, section by section -----------------------------------------------------------------

  lemma OptionsAreWords()
    ensures IsWord("#default:") && IsWord("#rmLine") && IsWord("#rmLineTrue") && IsWord("#rmLineFalse")
  {}

  lemma DefaultIsWellFormed(text: string, key: Key, value: string)
    requires IsPlain(text) && IsWord(value) && IsKeyName(Name(key))
    ensures WellFormed(Default(text, key, value))
    ensures forall rest :: WellFormed(rest) ==> WellFormed(Slot(text, key, ["#default:", value], rest))
  {
    OptionsAreWords();
  }

  lemma SwitchIsWellFormed(text: string, key: Key)
    requires IsPlain(text) && IsKeyName(Name(key))
    ensures WellFormed(OnlyIf(text, key)) && WellFormed(OnlyUnless(text, key)) && WellFormed(OnlySet(text, key))
    ensures forall rest :: WellFormed(rest) ==> WellFormed(Slot(text, key, ["#rmLineFalse"], rest))
    ensures forall rest :: WellFormed(rest) ==> WellFormed(Slot(text, key, ["#rmLine"], rest))
  {
    OptionsAreWords();
  }

  lemma BitcoinServer1()
    ensures WellFormed(BITCOIN_SERVER[0]) && WellFormed(BITCOIN_SERVER[1])
  {
    NameOfMainnet();
    DefaultIsWellFormed("mainnet=", Mainnet, "1");
    NameOfTestnet();
    DefaultIsWellFormed("testnet=", Testnet, "0");
  }

  lemma BitcoinServer2()
    ensures WellFormed(BITCOIN_SERVER[2]) && WellFormed(BITCOIN_SERVER[3])
  {
    NameOfServer();
    DefaultIsWellFormed("server=", Server, "1");
    NameOfListen();
    DefaultIsWellFormed("listen=", Listen, "1");
  }

  lemma BitcoinServer()
    ensures AllWellFormed(BITCOIN_SERVER)
  {
    BitcoinServer1();
    BitcoinServer2();
  }

  lemma BitcoinOptions1()
    ensures WellFormed(BITCOIN_OPTIONS[0]) && WellFormed(BITCOIN_OPTIONS[1])
  {
    NameOfTxIndex();
    DefaultIsWellFormed("txindex=", TxIndex, "0");
    NameOfPrune();
    DefaultIsWellFormed("prune=", Prune, "0");
  }

  lemma BitcoinOptions2()
    ensures WellFormed(BITCOIN_OPTIONS[2]) && WellFormed(BITCOIN_OPTIONS[3]) && WellFormed(BITCOIN_OPTIONS[4])
  {
    NameOfDisableWallet();
    DefaultIsWellFormed("disablewallet=", DisableWallet, "1");
    NameOfSysPerms();
    DefaultIsWellFormed("sysperms=", SysPerms, "1");
    NameOfPrintToConsole();
    DefaultIsWellFormed("printtoconsole=", PrintToConsole, "1");
  }

  lemma BitcoinOptions()
    ensures AllWellFormed(BITCOIN_OPTIONS)
  {
    BitcoinOptions1();
    BitcoinOptions2();
  }

  lemma OnlyNetLines1()
    ensures WellFormed(ONLY_NET[0])
  {
    NameOfTorBase();
    SwitchIsWellFormed("           ", TorBase);
    NameOfOnlyNet();
    DefaultIsWellFormed("onlynet=", OnlyNet, "ipv4");
  }

  lemma OnlyNetLines2()
    ensures WellFormed(ONLY_NET[1])
  {
    NameOfIbdClearnet();
    SwitchIsWellFormed(" ", IbdClearnet);
    NameOfTorBase();
    SwitchIsWellFormed("           ", TorBase);
    NameOfOnlyNet();
    DefaultIsWellFormed("onlynet=", OnlyNet, "ipv4");
  }

  lemma OnlyNetLines()
    ensures AllWellFormed(ONLY_NET)
  {
    OnlyNetLines1();
    OnlyNetLines2();
  }

  lemma BitcoinRpc1()
    ensures WellFormed(BITCOIN_RPC[0]) && WellFormed(BITCOIN_RPC[1]) && WellFormed(BITCOIN_RPC[2])
  {
    NameOfRpcConnect();
    DefaultIsWellFormed("rpcconnect=", RpcConnect, "127.0.0.1");
    NameOfRpcPort();
    DefaultIsWellFormed("rpcport=", RpcPort, "8332");
    NameOfRpcAuth();
    SwitchIsWellFormed("rpcauth=", RpcAuth);
  }

  lemma BitcoinRpc2()
    ensures WellFormed(BITCOIN_RPC[3]) && WellFormed(BITCOIN_RPC[4]) && WellFormed(BITCOIN_RPC[5])
  {
    NameOfDbCache();
    DefaultIsWellFormed("dbcache=", DbCache, "300");
    NameOfMaxConnections();
    DefaultIsWellFormed("maxconnections=", MaxConnections, "40");
    NameOfMaxUploadTarget();
    DefaultIsWellFormed("maxuploadtarget=", MaxUploadTarget, "5000");
  }

  lemma BitcoinRpc()
    ensures AllWellFormed(BITCOIN_RPC)
  {
    BitcoinRpc1();
    BitcoinRpc2();
  }

  lemma ProxyLine()
    ensures AllWellFormed(PROXY)
  {
    NameOfIbdClearnet();
    SwitchIsWellFormed(" ", IbdClearnet);
    NameOfTorBase();
    SwitchIsWellFormed(" ", TorBase);
    NameOfBtcProxy();
    DefaultIsWellFormed("proxy=", BtcProxy, "127.0.0.1:9050");
  }

  lemma ReindexLine()
    ensures AllWellFormed(REINDEX)
  {
    NameOfReindexChainstate();
    SwitchIsWellFormed("               ", ReindexChainstate);
    SwitchIsWellFormed("reindex-chainstate=", ReindexChainstate);
  }

  lemma LightningdBitcoin1()
    ensures WellFormed(LIGHTNINGD_BITCOIN[0]) && WellFormed(LIGHTNINGD_BITCOIN[1])
  {
    NameOfNetwork();
    DefaultIsWellFormed("", Network, "mainnet");
    NameOfBitcoinCli();
    DefaultIsWellFormed("bitcoin-cli=", BitcoinCli, "/usr/bin/bitcoin-cli");
  }

  lemma LightningdBitcoin2()
    ensures WellFormed(LIGHTNINGD_BITCOIN[2]) && WellFormed(LIGHTNINGD_BITCOIN[3])
  {
    NameOfRpcUser();
    DefaultIsWellFormed("bitcoin-rpcuser=", RpcUser, "base");
    NameOfRpcPassword();
    SwitchIsWellFormed("bitcoin-rpcpassword=", RpcPassword);
  }

  lemma LightningdBitcoin3()
    ensures WellFormed(LIGHTNINGD_BITCOIN[4]) && WellFormed(LIGHTNINGD_BITCOIN[5])
  {
    NameOfRpcConnect();
    DefaultIsWellFormed("bitcoin-rpcconnect=", RpcConnect, "127.0.0.1");
    NameOfRpcPort();
    DefaultIsWellFormed("bitcoin-rpcport=", RpcPort, "8332");
  }

  lemma LightningdBitcoin()
    ensures AllWellFormed(LIGHTNINGD_BITCOIN)
  {
    LightningdBitcoin1();
    LightningdBitcoin2();
    LightningdBitcoin3();
  }

  lemma LightningdPaths1()
    ensures WellFormed(LIGHTNINGD_PATHS[0])
  {
    NameOfLightningDir();
    DefaultIsWellFormed("lightning-dir=", LightningDir, "/mnt/ssd/bitcoin/.lightning");
  }

  lemma LightningdPaths2()
    ensures WellFormed(LIGHTNINGD_PATHS[1])
  {
    NameOfTorBase();
    SwitchIsWellFormed("", TorBase);
    NameOfStaticTorBlob();
  }

  lemma LightningdPaths3()
    ensures WellFormed(LIGHTNINGD_PATHS[2])
  {
    NameOfBindAddr();
    DefaultIsWellFormed("bind-addr=", BindAddr, "127.0.0.1:9735");
  }

  lemma LightningdPaths()
    ensures AllWellFormed(LIGHTNINGD_PATHS)
  {
    LightningdPaths1();
    LightningdPaths2();
    LightningdPaths3();
  }

  lemma LightningdSettings1()
    ensures WellFormed(LIGHTNINGD_SETTINGS[0]) && WellFormed(LIGHTNINGD_SETTINGS[1])
  {
    NameOfTorBase();
    SwitchIsWellFormed("", TorBase);
    NameOfLnProxy();
    DefaultIsWellFormed("proxy=", LnProxy, "127.0.0.1:9050");
    SwitchIsWellFormed("always-use-proxy=true", TorBase);
  }

  lemma LightningdSettings2()
    ensures WellFormed(LIGHTNINGD_SETTINGS[2]) && WellFormed(LIGHTNINGD_SETTINGS[3])
  {
    NameOfLogLevel();
    DefaultIsWellFormed("log-level=", LogLevel, "debug");
    NameOfPlugin1();
    SwitchIsWellFormed("plugin=", Plugin1);
  }

  lemma LightningdSettings3()
    ensures WellFormed(LIGHTNINGD_SETTINGS[4]) && WellFormed(LIGHTNINGD_SETTINGS[5])
  {
    NameOfPlugin2();
    SwitchIsWellFormed("plugin=", Plugin2);
    NameOfPlugin3();
    SwitchIsWellFormed("plugin=", Plugin3);
  }

  lemma LightningdSettings()
    ensures AllWellFormed(LIGHTNINGD_SETTINGS)
  {
    LightningdSettings1();
    LightningdSettings2();
    LightningdSettings3();
  }

  lemma ElectrsPaths1()
    ensures WellFormed(ELECTRS_PATHS[0]) && WellFormed(ELECTRS_PATHS[1]) && WellFormed(ELECTRS_PATHS[2])
  {
    NameOfNetwork();
    DefaultIsWellFormed("NETWORK=", Network, "mainnet");
    NameOfRpcConnect();
    DefaultIsWellFormed("RPCCONNECT=", RpcConnect, "127.0.0.1");
    NameOfRpcPort();
    DefaultIsWellFormed("RPCPORT=", RpcPort, "8332");
  }

  lemma ElectrsPaths2()
    ensures WellFormed(ELECTRS_PATHS[3]) && WellFormed(ELECTRS_PATHS[4])
  {
    NameOfDbDir();
    DefaultIsWellFormed("DB_DIR=", DbDir, "/mnt/ssd/electrs/db");
    NameOfDaemonDir();
    DefaultIsWellFormed("DAEMON_DIR=", DaemonDir, "/mnt/ssd/bitcoin/.bitcoin");
  }

  lemma ElectrsPaths()
    ensures AllWellFormed(ELECTRS_PATHS)
  {
    ElectrsPaths1();
    ElectrsPaths2();
  }

  lemma ElectrsSettings1()
    ensures WellFormed(ELECTRS_SETTINGS[0]) && WellFormed(ELECTRS_SETTINGS[1])
  {
    NameOfMonitoringAddr();
    DefaultIsWellFormed("MONITORING_ADDR=", MonitoringAddr, "127.0.0.1:4224");
    NameOfVerbosity();
    DefaultIsWellFormed("VERBOSITY=", Verbosity, "vvvv");
  }

  lemma ElectrsSettings2()
    ensures WellFormed(ELECTRS_SETTINGS[2]) && WellFormed(ELECTRS_SETTINGS[3]) && WellFormed(ELECTRS_SETTINGS[4])
  {
    NameOfRustBacktrace();
    DefaultIsWellFormed("RUST_BACKTRACE=", RustBacktrace, "1");
    NameOfRpcUser();
    DefaultIsWellFormed("RPCUSER=", RpcUser, "base");
    NameOfRpcPassword();
    SwitchIsWellFormed("RPCPASSWORD=", RpcPassword);
  }

  lemma ElectrsSettings()
    ensures AllWellFormed(ELECTRS_SETTINGS)
  {
    ElectrsSettings1();
    ElectrsSettings2();
  }

  // --- padded lines ----------------------------------------------------------------------------------

  lemma {:induction false} SpacesArePlain(n: nat)
    ensures IsPlain(Spaces(n))
  {
    if n > 0 { SpacesArePlain(n - 1); }
  }

  lemma PadIsPlain(text: string, column: nat)
    requires IsPlain(text)
    ensures IsPlain(Pad(text, column))
  {
    if |text| < column { SpacesArePlain(column - |text|); }
  }

  lemma ListenOnionFirst()
    ensures WellFormed(LISTEN_ONION[0])
  {
    NameOfIbdClearnet();
    SwitchIsWellFormed("              ", IbdClearnet);
    NameOfTorBase();
    DefaultIsWellFormed("listenonion=", TorBase, "1");
  }

  lemma ListenOnionLines()
    ensures AllWellFormed(LISTEN_ONION)
  {
    ListenOnionFirst();
    NameOfIbdClearnet();
    PadIsPlain("listenonion=0", 76);
    SwitchIsWellFormed(Pad("listenonion=0", 76), IbdClearnet);
  }

  lemma AcceptIsPlain(chain: string, port: string)
    requires IsPlain(chain) && IsPlain(port)
    ensures IsPlain(Accept(chain, port))
  {
    PadIsPlain("-A " + chain + " -p tcp --" + port + " -j ACCEPT", 56);
  }

  lemma TwoSwitches(text: string)
    requires IsPlain(text)
    ensures WellFormed(Slot(text, TorBase, ["#rmLineFalse"], OnlyIf(" ", IbdClearnet)))
  {
    NameOfIbdClearnet();
    SwitchIsWellFormed(" ", IbdClearnet);
    NameOfTorBase();
    SwitchIsWellFormed(text, TorBase);
  }

  lemma RulesArePlain()
    ensures IsPlain(Accept("INPUT", "dport 8333")) && IsPlain(Accept("INPUT", "dport 18333"))
    ensures IsPlain(Accept("INPUT", "dport 9001")) && IsPlain(Accept("INPUT", "sport 9001"))
    ensures IsPlain(Accept("OUTPUT", "dport 8333")) && IsPlain(Accept("OUTPUT", "dport 18333"))
    ensures IsPlain(Accept("OUTPUT", "dport 9735")) && IsPlain(Accept("OUTPUT", "dport 9001"))
  {
    AcceptIsPlain("INPUT", "dport 8333");
    AcceptIsPlain("INPUT", "dport 18333");
    AcceptIsPlain("INPUT", "dport 9001");
    AcceptIsPlain("INPUT", "sport 9001");
    AcceptIsPlain("OUTPUT", "dport 8333");
    AcceptIsPlain("OUTPUT", "dport 18333");
    AcceptIsPlain("OUTPUT", "dport 9735");
    AcceptIsPlain("OUTPUT", "dport 9001");
  }

  lemma IptablesLines()
    ensures AllWellFormed(IPTABLES_RULES)
  {
    RulesArePlain();
    NameOfTorBase();
    TwoSwitches(Accept("OUTPUT", "dport 8333"));
    TwoSwitches(Accept("OUTPUT", "dport 18333"));
    forall l | l in IPTABLES_RULES ensures WellFormed(l) {
      if l.rest.End? { SwitchIsWellFormed(l.text, TorBase); }
    }
  }

  lemma ServiceDirIsPlain(name: string)
    requires IsPlain(name)
    ensures IsPlain(Pad("HiddenServiceDir " + "/var/lib/tor/hidden_service_" + name + "/", 60))
  {
    assert IsPlain("HiddenServiceDir ") && IsPlain("/var/lib/tor/hidden_service_");
    PadIsPlain("HiddenServiceDir " + "/var/lib/tor/hidden_service_" + name + "/", 60);
  }

  lemma ServicePortIsPlain(port: string)
    requires IsPlain(port)
    ensures IsPlain(Pad("HiddenServiceVersion 3", 60)) && IsPlain(Pad("HiddenServicePort " + port, 60))
  {
    PadIsPlain("HiddenServiceVersion 3", 60);
    PadIsPlain("HiddenServicePort " + port, 60);
  }

  lemma HiddenServiceLines(name: string, port: string, key: Key)
    requires IsPlain(name) && IsPlain(port) && IsKeyName(Name(key))
    ensures AllWellFormed(HiddenService(name, port, key))
  {
    ServiceDirIsPlain(name);
    ServicePortIsPlain(port);
    forall l | l in HiddenService(name, port, key) ensures WellFormed(l) { SwitchIsWellFormed(l.text, key); }
  }

  lemma ControlLines()
    ensures WellFormed(End("ControlPort 9051")) && WellFormed(End("CookieAuthentication 1"))
    ensures WellFormed(End("CookieAuthFileGroupReadable 1"))
  {}

  lemma TorServiceLines()
    ensures AllWellFormed(TOR_SERVICES)
  {
    ControlLines();
    NameOfTorSsh();
    NameOfTorElectrs();
    HiddenServiceLines("ssh", "22 127.0.0.1:22", TorSsh);
    HiddenServiceLines("electrs", "50002 127.0.0.1:50002", TorElectrs);
  }

  lemma LightningdServiceLines()
    ensures AllWellFormed(HiddenService("lightningd", "9375 127.0.0.1:9735", TorBase))
  {
    NameOfTorBase();
    HiddenServiceLines("lightningd", "9375 127.0.0.1:9735", TorBase);
  }

  lemma MiddlewareServiceLines()
    ensures AllWellFormed(HiddenService("bbbmiddleware", "9375 127.0.0.1:8845", TorMiddleware))
  {
    NameOfTorMiddleware();
    HiddenServiceLines("bbbmiddleware", "9375 127.0.0.1:8845", TorMiddleware);
  }

  lemma Together(a: seq<Line>, b: seq<Line>, c: seq<Line>)
    requires AllWellFormed(a) && AllWellFormed(b) && AllWellFormed(c)
    ensures AllWellFormed(a + b + c)
  {}

  lemma TorrcLines()
    ensures AllWellFormed(TORRC)
  {
    TorServiceLines();
    LightningdServiceLines();
    MiddlewareServiceLines();
    Together(TOR_SERVICES, HiddenService("lightningd", "9375 127.0.0.1:9735", TorBase),
             HiddenService("bbbmiddleware", "9375 127.0.0.1:8845", TorMiddleware));
  }

  // --- the files ---------------------------------------------------------------------------------------

  lemma BitcoinLines()
    ensures AllWellFormed(BITCOIN_CONF)
  {
    BitcoinServer();
    ListenOnionLines();
    BitcoinOptions();
    OnlyNetLines();
    BitcoinRpc();
    ProxyLine();
    ReindexLine();
  }

  lemma LightningdLines()
    ensures AllWellFormed(LIGHTNINGD_CONF)
  {
    LightningdBitcoin();
    LightningdPaths();
    LightningdSettings();
  }

  lemma ElectrsLines()
    ensures AllWellFormed(ELECTRS_CONF)
  {
    ElectrsPaths();
    ElectrsSettings();
  }

  lemma TemplatesAreWellFormed(file: File)
    ensures AllWellFormed(TemplateOf(file))
  {
    match file
    case BitcoinConf => BitcoinLines();
    case IptablesRules => IptablesLines();
    case LightningdConf => LightningdLines();
    case ElectrsConf => ElectrsLines();
    case Torrc => TorrcLines();
  }

  lemma TemplatesAreCovered(file: File)
    ensures Covered(TemplateOf(file), KeysRead(file))
  {
    match file
    case BitcoinConf => BitcoinCovered();
    case IptablesRules => IptablesCovered();
    case LightningdConf => LightningdCovered();
    case ElectrsConf => ElectrsCovered();
    case Torrc => TorrcCovered();
  }

  /** Main result: for each of the five files, and every store whose values cannot open a placeholder,
      running bbbconfgen on the template's text does not panic and writes the rendering of the
      template, line by line. */
  lemma GeneratesFile(file: File, store: T.Store, redis: Redis)
    requires Agrees(store, redis, KeysRead(file))
    ensures !T.Generate(TemplateText(TemplateOf(file)), store).crashed
    ensures T.Generate(TemplateText(TemplateOf(file)), store).output == I.Unlines(Render(TemplateOf(file), redis))
  {
    TemplatesAreWellFormed(file);
    TemplatesAreCovered(file);
    GenerateIsRender(TemplateOf(file), KeysRead(file), store, redis);
  }

  /** The same for the file as it stands, with its comments, blank and fixed lines, its output specifier and
      its own spacing: those lines are copied or left out, and what it makes of the lines that ask for
      values is the rendering of the template. */
  lemma GeneratesFileAsItStands(file: File, items: seq<Item>, store: T.Store, redis: Redis)
    requires AreItems(items) && Asked(items) == TemplateOf(file) && Agrees(store, redis, KeysRead(file))
    ensures !T.Generate(FileText(items), store).crashed
    ensures T.Generate(FileText(items), store).output == I.Unlines(Written(items, redis))
    ensures ShowsAsPrinted(items, redis) ==> AskedWritten(items, redis) == Render(TemplateOf(file), redis)
  {
    TemplatesAreWellFormed(file);
    TemplatesAreCovered(file);
    GenerateIsWritten(items, KeysRead(file), store, redis);
    if ShowsAsPrinted(items, redis) { AskedIsRender(items, redis); }
  }
}
