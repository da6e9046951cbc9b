/** The lines of the templates that ask for values, as text: what the model's templates spell, with single spaces
    inside the placeholders. */
module ConfigTexts {
  import opened ConfigTemplates
  import opened ConfigEngine
  import T = Template
  import P = TemplateProofs
  import Text

  function LineText(line: Line): string { P.Flatten(Printed(line)) }

  function Asking(key: string): string { "{{ " + key + " }}" }

  function AskingWith(key: string, option: string): string { "{{ " + key + " " + option + " }}" }

  function AskingElse(key: string, value: string): string { "{{ " + key + " #default: " + value + " }}" }

  lemma OneJoined(name: string)
    ensures Text.Join([name] + []) == name
  {
    assert [name] + [] == [name];
  }

  lemma TwoJoined(name: string, option: string)
    ensures Text.Join([name] + [option]) == name + " " + option
  {
    assert ([name] + [option])[1..] == [option];
    assert Text.Join([option]) == option;
  }

  lemma ThreeJoined(name: string, default: string, value: string)
    ensures Text.Join([name] + [default, value]) == name + " " + (default + " " + value)
  {
    TwoJoined(default, value);
    assert [default] + [value] == [default, value] && ([name] + [default, value])[1..] == [default, value];
  }

  lemma Braced(inner: string)
    ensures T.Placeholder(" " + inner + " ") == "{{ " + inner + " }}"
  {}

  lemma AsksNothing(key: Key)
    ensures T.Placeholder(Body(key, [])) == Asking(Name(key))
  {
    OneJoined(Name(key));
    Braced(Name(key));
  }

  lemma AsksOption(key: Key, option: string)
    ensures T.Placeholder(Body(key, [option])) == AskingWith(Name(key), option)
  {
    TwoJoined(Name(key), option);
    Braced(Name(key) + " " + option);
    Text.Regroup("{{ ", Name(key) + " ", option);
    Text.Regroup("{{ ", Name(key), " ");
  }

  lemma DefaultInner(name: string, value: string)
    ensures "{{ " + (name + " " + ("#default:" + " " + value)) + " }}" == "{{ " + name + " #default: " + value + " }}"
  {
    assert "#default:" + " " + value == "#default: " + value;
    assert " " + ("#default: " + value) == " #default: " + value;
  }

  lemma AsksDefault(key: Key, value: string)
    ensures T.Placeholder(Body(key, ["#default:", value])) == AskingElse(Name(key), value)
  {
    ThreeJoined(Name(key), "#default:", value);
    Braced(Name(key) + " " + ("#default:" + " " + value));
    DefaultInner(Name(key), value);
  }

  lemma AsksMore(text: string, key: Key, words: seq<string>, rest: Line)
    ensures LineText(Slot(text, key, words, rest)) == text + (T.Placeholder(Body(key, words)) + LineText(rest))
  {
    Text.Regroup(text, T.Placeholder(Body(key, words)), LineText(rest));
  }

  lemma AsksOnce(text: string, key: Key, words: seq<string>)
    ensures LineText(Slot(text, key, words, End(""))) == text + T.Placeholder(Body(key, words))
  {
    assert LineText(End("")) == "";
    AsksMore(text, key, words, End(""));
    assert T.Placeholder(Body(key, words)) + "" == T.Placeholder(Body(key, words));
  }

  lemma DefaultText(text: string, key: Key, value: string)
    ensures LineText(Default(text, key, value)) == text + AskingElse(Name(key), value)
  {
    AsksOnce(text, key, ["#default:", value]);
    AsksDefault(key, value);
  }

  lemma BareOptionText(key: Key, option: string)
    ensures LineText(Slot("", key, [option], End(""))) == AskingWith(Name(key), option)
  {
    AsksOnce("", key, [option]);
    AsksOption(key, option);
  }

  lemma OptionText(text: string, key: Key, option: string)
    ensures LineText(Slot(text, key, [option], End(""))) == text + AskingWith(Name(key), option)
  {
    AsksOnce(text, key, [option]);
    AsksOption(key, option);
  }

  lemma Server1Text()
    ensures |BITCOIN_SERVER| == 4
    ensures LineText(BITCOIN_SERVER[0]) == "mainnet=" + AskingElse("bitcoind:mainnet", "1")
    ensures LineText(BITCOIN_SERVER[1]) == "testnet=" + AskingElse("bitcoind:testnet", "0")
  {
    DefaultText("mainnet=", Mainnet, "1");
    DefaultText("testnet=", Testnet, "0");
  }

  lemma Server2Text()
    ensures LineText(BITCOIN_SERVER[2]) == "server=" + AskingElse("bitcoind:server", "1")
    ensures LineText(BITCOIN_SERVER[3]) == "listen=" + AskingElse("bitcoind:listen", "1")
  {
    DefaultText("server=", Server, "1");
    DefaultText("listen=", Listen, "1");
  }

  lemma ListenOnionText()
    ensures |LISTEN_ONION| == 2
    ensures LineText(LISTEN_ONION[0])
         == "listenonion=" + (AskingElse("tor:base:enabled", "1")
            + ("              " + AskingWith("bitcoind:ibd-clearnet", "#rmLineTrue")))
    ensures LineText(LISTEN_ONION[1])
         == Pad("listenonion=0", 76) + AskingWith("bitcoind:ibd-clearnet", "#rmLineFalse")
  {
    AsksMore("listenonion=", TorBase, ["#default:", "1"], LISTEN_ONION[0].rest);
    AsksDefault(TorBase, "1");
    OptionText("              ", IbdClearnet, "#rmLineTrue");
    OptionText(Pad("listenonion=0", 76), IbdClearnet, "#rmLineFalse");
  }

  lemma Options1Text()
    ensures |BITCOIN_OPTIONS| == 5
    ensures LineText(BITCOIN_OPTIONS[0]) == "txindex=" + AskingElse("bitcoind:txindex", "0")
    ensures LineText(BITCOIN_OPTIONS[1]) == "prune=" + AskingElse("bitcoind:prune", "0")
  {
    DefaultText("txindex=", TxIndex, "0");
    DefaultText("prune=", Prune, "0");
  }

  lemma Options2Text()
    ensures LineText(BITCOIN_OPTIONS[2]) == "disablewallet=" + AskingElse("bitcoind:disablewallet", "1")
    ensures LineText(BITCOIN_OPTIONS[3]) == "sysperms=" + AskingElse("bitcoind:sysperms", "1")
  {
    DefaultText("disablewallet=", DisableWallet, "1");
    DefaultText("sysperms=", SysPerms, "1");
  }

  lemma Options3Text()
    ensures LineText(BITCOIN_OPTIONS[4]) == "printtoconsole=" + AskingElse("bitcoind:printtoconsole", "1")
  {
    DefaultText("printtoconsole=", PrintToConsole, "1");
  }

  lemma OnlyNetText()
    ensures |ONLY_NET| == 2
    ensures LineText(ONLY_NET[0])
         == "onlynet=" + (AskingElse("bitcoind:onlynet", "ipv4")
            + ("           " + AskingWith("tor:base:enabled", "#rmLineTrue")))
    ensures LineText(ONLY_NET[1])
         == "onlynet=" + (AskingElse("bitcoind:onlynet", "ipv4") + ("           "
            + (AskingWith("tor:base:enabled", "#rmLineFalse") + (" " + AskingWith("bitcoind:ibd-clearnet", "#rmLineFalse")))))
  {
    AsksMore("onlynet=", OnlyNet, ["#default:", "ipv4"], ONLY_NET[0].rest);
    AsksDefault(OnlyNet, "ipv4");
    OptionText("           ", TorBase, "#rmLineTrue");
    AsksMore("onlynet=", OnlyNet, ["#default:", "ipv4"], ONLY_NET[1].rest);
    AsksDefault(OnlyNet, "ipv4");
    AsksMore("           ", TorBase, ["#rmLineFalse"], ONLY_NET[1].rest.rest);
    AsksOption(TorBase, "#rmLineFalse");
    OptionText(" ", IbdClearnet, "#rmLineFalse");
  }

  lemma Rpc1Text()
    ensures |BITCOIN_RPC| == 6
    ensures LineText(BITCOIN_RPC[0]) == "rpcconnect=" + AskingElse("bitcoind:rpcconnect", "127.0.0.1")
    ensures LineText(BITCOIN_RPC[1]) == "rpcport=" + AskingElse("bitcoind:rpcport", "8332")
  {
    DefaultText("rpcconnect=", RpcConnect, "127.0.0.1");
    DefaultText("rpcport=", RpcPort, "8332");
  }

  lemma Rpc2Text()
    ensures LineText(BITCOIN_RPC[2]) == "rpcauth=" + AskingWith("bitcoind:rpcauth", "#rmLine")
    ensures LineText(BITCOIN_RPC[3]) == "dbcache=" + AskingElse("bitcoind:dbcache", "300")
  {
    OptionText("rpcauth=", RpcAuth, "#rmLine");
    DefaultText("dbcache=", DbCache, "300");
  }

  lemma Rpc3Text()
    ensures LineText(BITCOIN_RPC[4]) == "maxconnections=" + AskingElse("bitcoind:maxconnections", "40")
    ensures LineText(BITCOIN_RPC[5]) == "maxuploadtarget=" + AskingElse("bitcoind:maxuploadtarget", "5000")
  {
    DefaultText("maxconnections=", MaxConnections, "40");
    DefaultText("maxuploadtarget=", MaxUploadTarget, "5000");
  }

  lemma ProxyText()
    ensures |PROXY| == 1
    ensures LineText(PROXY[0])
         == "proxy=" + (AskingElse("bitcoind:proxy", "127.0.0.1:9050") + (" "
            + (AskingWith("tor:base:enabled", "#rmLineFalse") + (" " + AskingWith("bitcoind:ibd-clearnet", "#rmLineTrue")))))
  {
    AsksMore("proxy=", BtcProxy, ["#default:", "127.0.0.1:9050"], PROXY[0].rest);
    AsksDefault(BtcProxy, "127.0.0.1:9050");
    AsksMore(" ", TorBase, ["#rmLineFalse"], PROXY[0].rest.rest);
    AsksOption(TorBase, "#rmLineFalse");
    OptionText(" ", IbdClearnet, "#rmLineTrue");
  }

  lemma ReindexText()
    ensures |REINDEX| == 1
    ensures LineText(REINDEX[0])
         == "reindex-chainstate=" + (AskingWith("bitcoind:reindex-chainstate", "#rmLine")
            + ("               " + AskingWith("bitcoind:reindex-chainstate", "#rmLineFalse")))
  {
    AsksMore("reindex-chainstate=", ReindexChainstate, ["#rmLine"], REINDEX[0].rest);
    AsksOption(ReindexChainstate, "#rmLine");
    OptionText("               ", ReindexChainstate, "#rmLineFalse");
  }

  lemma Inbound1Text()
    ensures |IPTABLES_RULES| == 10
    ensures LineText(IPTABLES_RULES[0])
         == Accept("INPUT", "dport 8333") + AskingWith("tor:base:enabled", "#rmLineTrue")
    ensures LineText(IPTABLES_RULES[1])
         == Accept("INPUT", "dport 18333") + AskingWith("tor:base:enabled", "#rmLineTrue")
  {
    OptionText(Accept("INPUT", "dport 8333"), TorBase, "#rmLineTrue");
    OptionText(Accept("INPUT", "dport 18333"), TorBase, "#rmLineTrue");
  }

  lemma Inbound2Text()
    ensures LineText(IPTABLES_RULES[2])
         == Accept("INPUT", "dport 9001") + AskingWith("tor:base:enabled", "#rmLineFalse")
    ensures LineText(IPTABLES_RULES[3])
         == Accept("INPUT", "sport 9001") + AskingWith("tor:base:enabled", "#rmLineFalse")
  {
    OptionText(Accept("INPUT", "dport 9001"), TorBase, "#rmLineFalse");
    OptionText(Accept("INPUT", "sport 9001"), TorBase, "#rmLineFalse");
  }

  lemma Outbound1Text()
    ensures LineText(IPTABLES_RULES[4])
         == Accept("OUTPUT", "dport 8333") + AskingWith("tor:base:enabled", "#rmLineTrue")
    ensures LineText(IPTABLES_RULES[5])
         == Accept("OUTPUT", "dport 18333") + AskingWith("tor:base:enabled", "#rmLineTrue")
  {
    OptionText(Accept("OUTPUT", "dport 8333"), TorBase, "#rmLineTrue");
    OptionText(Accept("OUTPUT", "dport 18333"), TorBase, "#rmLineTrue");
  }

  lemma Outbound2Text()
    ensures LineText(IPTABLES_RULES[6])
         == Accept("OUTPUT", "dport 8333") + (AskingWith("tor:base:enabled", "#rmLineFalse")
            + (" " + AskingWith("bitcoind:ibd-clearnet", "#rmLineFalse")))
    ensures LineText(IPTABLES_RULES[7])
         == Accept("OUTPUT", "dport 18333") + (AskingWith("tor:base:enabled", "#rmLineFalse")
            + (" " + AskingWith("bitcoind:ibd-clearnet", "#rmLineFalse")))
  {
    AsksMore(Accept("OUTPUT", "dport 8333"), TorBase, ["#rmLineFalse"], IPTABLES_RULES[6].rest);
    AsksOption(TorBase, "#rmLineFalse");
    OptionText(" ", IbdClearnet, "#rmLineFalse");
    AsksMore(Accept("OUTPUT", "dport 18333"), TorBase, ["#rmLineFalse"], IPTABLES_RULES[7].rest);
    AsksOption(TorBase, "#rmLineFalse");
    OptionText(" ", IbdClearnet, "#rmLineFalse");
  }

  lemma Outbound3Text()
    ensures LineText(IPTABLES_RULES[8])
         == Accept("OUTPUT", "dport 9735") + AskingWith("tor:base:enabled", "#rmLineTrue")
    ensures LineText(IPTABLES_RULES[9])
         == Accept("OUTPUT", "dport 9001") + AskingWith("tor:base:enabled", "#rmLineFalse")
  {
    OptionText(Accept("OUTPUT", "dport 9735"), TorBase, "#rmLineTrue");
    OptionText(Accept("OUTPUT", "dport 9001"), TorBase, "#rmLineFalse");
  }

  lemma LightningdBitcoin1Text()
    ensures |LIGHTNINGD_BITCOIN| == 6
    ensures LineText(LIGHTNINGD_BITCOIN[0]) == "" + AskingElse("bitcoind:network", "mainnet")
    ensures LineText(LIGHTNINGD_BITCOIN[1])
         == "bitcoin-cli=" + AskingElse("lightningd:bitcoin-cli", "/usr/bin/bitcoin-cli")
  {
    DefaultText("", Network, "mainnet");
    DefaultText("bitcoin-cli=", BitcoinCli, "/usr/bin/bitcoin-cli");
  }

  lemma LightningdBitcoin2Text()
    ensures LineText(LIGHTNINGD_BITCOIN[2]) == "bitcoin-rpcuser=" + AskingElse("bitcoind:rpcuser", "base")
    ensures LineText(LIGHTNINGD_BITCOIN[3]) == "bitcoin-rpcpassword=" + AskingWith("bitcoind:rpcpassword", "#rmLine")
  {
    DefaultText("bitcoin-rpcuser=", RpcUser, "base");
    OptionText("bitcoin-rpcpassword=", RpcPassword, "#rmLine");
  }

  lemma LightningdBitcoin3Text()
    ensures LineText(LIGHTNINGD_BITCOIN[4]) == "bitcoin-rpcconnect=" + AskingElse("bitcoind:rpcconnect", "127.0.0.1")
    ensures LineText(LIGHTNINGD_BITCOIN[5]) == "bitcoin-rpcport=" + AskingElse("bitcoind:rpcport", "8332")
  {
    DefaultText("bitcoin-rpcconnect=", RpcConnect, "127.0.0.1");
    DefaultText("bitcoin-rpcport=", RpcPort, "8332");
  }

  lemma LightningdPaths1Text()
    ensures |LIGHTNINGD_PATHS| == 3
    ensures LineText(LIGHTNINGD_PATHS[0])
         == "lightning-dir=" + AskingElse("lightningd:lightning-dir", "/mnt/ssd/bitcoin/.lightning")
    ensures LineText(LIGHTNINGD_PATHS[1])
         == "addr=statictor:127.0.0.1:9051/torblob"
            + (Asking("lightningd:statictorblob") + AskingWith("tor:base:enabled", "#rmLineFalse"))
  {
    DefaultText("lightning-dir=", LightningDir, "/mnt/ssd/bitcoin/.lightning");
    TorAddressText();
  }

  lemma TorAddressText()
    ensures LineText(LIGHTNINGD_PATHS[1])
         == "addr=statictor:127.0.0.1:9051/torblob"
            + (Asking("lightningd:statictorblob") + AskingWith("tor:base:enabled", "#rmLineFalse"))
  {
    AsksMore("addr=statictor:127.0.0.1:9051/torblob", StaticTorBlob, [], LIGHTNINGD_PATHS[1].rest);
    AsksNothing(StaticTorBlob);
    BareOptionText(TorBase, "#rmLineFalse");
  }

  lemma LightningdPaths2Text()
    ensures LineText(LIGHTNINGD_PATHS[2]) == "bind-addr=" + AskingElse("lightningd:bind-addr", "127.0.0.1:9735")
  {
    DefaultText("bind-addr=", BindAddr, "127.0.0.1:9735");
  }

  lemma LightningProxyText()
    ensures LineText(LIGHTNINGD_SETTINGS[0])
         == "proxy="
            + (AskingElse("lightningd:proxy", "127.0.0.1:9050") + AskingWith("tor:base:enabled", "#rmLineFalse"))
  {
    AsksMore("proxy=", LnProxy, ["#default:", "127.0.0.1:9050"], LIGHTNINGD_SETTINGS[0].rest);
    AsksDefault(LnProxy, "127.0.0.1:9050");
    BareOptionText(TorBase, "#rmLineFalse");
  }

  lemma LightningdSettings1Text()
    ensures |LIGHTNINGD_SETTINGS| == 6
    ensures LineText(LIGHTNINGD_SETTINGS[0])
         == "proxy="
            + (AskingElse("lightningd:proxy", "127.0.0.1:9050") + AskingWith("tor:base:enabled", "#rmLineFalse"))
    ensures LineText(LIGHTNINGD_SETTINGS[1])
         == "always-use-proxy=true" + AskingWith("tor:base:enabled", "#rmLineFalse")
  {
    LightningProxyText();
    OptionText("always-use-proxy=true", TorBase, "#rmLineFalse");
  }

  lemma LightningdSettings2Text()
    ensures LineText(LIGHTNINGD_SETTINGS[2]) == "log-level=" + AskingElse("lightningd:log-level", "debug")
    ensures LineText(LIGHTNINGD_SETTINGS[3]) == "plugin=" + AskingWith("lightningd:plugin:1", "#rmLine")
  {
    DefaultText("log-level=", LogLevel, "debug");
    OptionText("plugin=", Plugin1, "#rmLine");
  }

  lemma LightningdSettings3Text()
    ensures LineText(LIGHTNINGD_SETTINGS[4]) == "plugin=" + AskingWith("lightningd:plugin:2", "#rmLine")
    ensures LineText(LIGHTNINGD_SETTINGS[5]) == "plugin=" + AskingWith("lightningd:plugin:3", "#rmLine")
  {
    OptionText("plugin=", Plugin2, "#rmLine");
    OptionText("plugin=", Plugin3, "#rmLine");
  }

  lemma ElectrsPaths1Text()
    ensures |ELECTRS_PATHS| == 5
    ensures LineText(ELECTRS_PATHS[0]) == "NETWORK=" + AskingElse("bitcoind:network", "mainnet")
    ensures LineText(ELECTRS_PATHS[1]) == "RPCCONNECT=" + AskingElse("bitcoind:rpcconnect", "127.0.0.1")
  {
    DefaultText("NETWORK=", Network, "mainnet");
    DefaultText("RPCCONNECT=", RpcConnect, "127.0.0.1");
  }

  lemma ElectrsPaths2Text()
    ensures LineText(ELECTRS_PATHS[2]) == "RPCPORT=" + AskingElse("bitcoind:rpcport", "8332")
    ensures LineText(ELECTRS_PATHS[3]) == "DB_DIR=" + AskingElse("electrs:db_dir", "/mnt/ssd/electrs/db")
  {
    DefaultText("RPCPORT=", RpcPort, "8332");
    DefaultText("DB_DIR=", DbDir, "/mnt/ssd/electrs/db");
  }

  lemma ElectrsPaths3Text()
    ensures LineText(ELECTRS_PATHS[4])
         == "DAEMON_DIR=" + AskingElse("electrs:daemon_dir", "/mnt/ssd/bitcoin/.bitcoin")
  {
    DefaultText("DAEMON_DIR=", DaemonDir, "/mnt/ssd/bitcoin/.bitcoin");
  }

  lemma ElectrsSettings1Text()
    ensures |ELECTRS_SETTINGS| == 5
    ensures LineText(ELECTRS_SETTINGS[0])
         == "MONITORING_ADDR=" + AskingElse("electrs:monitoring_addr", "127.0.0.1:4224")
    ensures LineText(ELECTRS_SETTINGS[1]) == "VERBOSITY=" + AskingElse("electrs:verbosity", "vvvv")
  {
    DefaultText("MONITORING_ADDR=", MonitoringAddr, "127.0.0.1:4224");
    DefaultText("VERBOSITY=", Verbosity, "vvvv");
  }

  lemma ElectrsSettings2Text()
    ensures LineText(ELECTRS_SETTINGS[2]) == "RUST_BACKTRACE=" + AskingElse("electrs:rust_backtrace", "1")
    ensures LineText(ELECTRS_SETTINGS[3]) == "RPCUSER=" + AskingElse("bitcoind:rpcuser", "base")
  {
    DefaultText("RUST_BACKTRACE=", RustBacktrace, "1");
    DefaultText("RPCUSER=", RpcUser, "base");
  }

  lemma ElectrsSettings3Text()
    ensures LineText(ELECTRS_SETTINGS[4]) == "RPCPASSWORD=" + AskingWith("bitcoind:rpcpassword", "#rmLine")
  {
    OptionText("RPCPASSWORD=", RpcPassword, "#rmLine");
  }

  lemma HiddenServiceText(name: string, port: string, key: Key)
    ensures var lines := HiddenService(name, port, key);
            && |lines| == 3
            && LineText(lines[0])
               == Pad("HiddenServiceDir " + "/var/lib/tor/hidden_service_" + name + "/", 60)
                  + AskingWith(Name(key), "#rmLineFalse")
            && LineText(lines[1]) == Pad("HiddenServiceVersion 3", 60) + AskingWith(Name(key), "#rmLineFalse")
            && LineText(lines[2]) == Pad("HiddenServicePort " + port, 60) + AskingWith(Name(key), "#rmLineFalse")
  {
    OptionText(Pad("HiddenServiceDir " + "/var/lib/tor/hidden_service_" + name + "/", 60), key, "#rmLineFalse");
    OptionText(Pad("HiddenServiceVersion 3", 60), key, "#rmLineFalse");
    OptionText(Pad("HiddenServicePort " + port, 60), key, "#rmLineFalse");
  }

  /** The onion services of torrc, each with its directory, port and switch. */
  lemma TorrcText()
    ensures TORRC
         == [End("ControlPort 9051"), End("CookieAuthentication 1"), End("CookieAuthFileGroupReadable 1")]
            + HiddenService("ssh", "22 127.0.0.1:22", TorSsh) + HiddenService("electrs", "50002 127.0.0.1:50002", TorElectrs)
            + HiddenService("lightningd", "9375 127.0.0.1:9735", TorBase)
            + HiddenService("bbbmiddleware", "9375 127.0.0.1:8845", TorMiddleware)
    ensures Name(TorSsh) == "tor:ssh:enabled" && Name(TorElectrs) == "tor:electrs:enabled"
    ensures Name(TorBase) == "tor:base:enabled" && Name(TorMiddleware) == "tor:bbbmiddleware:enabled"
  {}

  /** The sections in the order of the files, and the file of each template. */
  lemma WholeFiles()
    ensures TemplateOf(BitcoinConf)
         == BITCOIN_SERVER + LISTEN_ONION + BITCOIN_OPTIONS + ONLY_NET + BITCOIN_RPC + PROXY + REINDEX
    ensures TemplateOf(LightningdConf) == LIGHTNINGD_BITCOIN + LIGHTNINGD_PATHS + LIGHTNINGD_SETTINGS
    ensures TemplateOf(ElectrsConf) == ELECTRS_PATHS + ELECTRS_SETTINGS
    ensures TemplateOf(IptablesRules) == IPTABLES_RULES && TemplateOf(Torrc) == TORRC
    ensures |BITCOIN_CONF| == 21 && |LIGHTNINGD_CONF| == 15 && |ELECTRS_CONF| == 10 && |TORRC| == 15
  {}

  /** The keys that the commands write without any template showing them. */
  lemma OtherNames(name: string)
    ensures Name(Ibd) == "bitcoind:ibd" && Name(Setup) == "base:setup"
    ensures Name(RefreshRpcAuth) == "bitcoind:refresh-rpcauth" && Name(Unrelated(name)) == name
  {}
}
