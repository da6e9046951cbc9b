/** What the generated files say: exactly when bitcoin.conf and the firewall are consistent. Lines are
    those of the text that is written, so a value with a line feed can bring in further ones. */
module ConfigFacts {
  import opened Options
  import opened Text
  import opened ConfigTemplates
  import opened ConfigEngine
  import opened ConfigWording
  import opened ConfigLines
  import T = Template
  import I = TemplateIdempotence
  import O = TemplateOptions

  // --- how the rendered lines begin ---------------------------------------------------------------

  function CountIn(template: seq<Line>, redis: Redis, prefix: string): nat { Count(Render(template, redis), prefix) }

  lemma {:induction false} RenderTogether(a: seq<Line>, b: seq<Line>, redis: Redis)
    ensures Render(a + b, redis) == Render(a, redis) + Render(b, redis)
  {
    if a == [] {
      assert a + b == b;
    } else {
      assert (a + b)[0] == a[0] && (a + b)[1..] == a[1..] + b;
      RenderTogether(a[1..], b, redis);
    }
  }

  lemma CountInTogether(a: seq<Line>, b: seq<Line>, redis: Redis, prefix: string)
    ensures CountIn(a + b, redis, prefix) == CountIn(a, redis, prefix) + CountIn(b, redis, prefix)
  {
    RenderTogether(a, b, redis);
    CountTogether(Render(a, redis), Render(b, redis), prefix);
  }

  /** The literal text before the first placeholder already differs from the prefix. */
  predicate Differs(line: Line, prefix: string) {
    exists k :: 0 <= k < |line.text| && k < |prefix| && line.text[k] != prefix[k]
  }

  lemma ShownBegins(line: Line, redis: Redis)
    ensures line.text <= Shown(line, redis)
  {}

  lemma DifferentLine(line: Line, redis: Redis, prefix: string)
    requires Differs(line, prefix)
    ensures !(prefix <= Shown(line, redis))
  {
    ShownBegins(line, redis);
    var k :| 0 <= k < |line.text| && k < |prefix| && line.text[k] != prefix[k];
    assert Shown(line, redis)[k] == line.text[k];
  }

  lemma {:induction false} NoneBegins(template: seq<Line>, redis: Redis, prefix: string)
    requires forall l :: l in template ==> Differs(l, prefix)
    ensures CountIn(template, redis, prefix) == 0
  {
    if template != [] {
      assert template[0] in template && forall l :: l in template[1..] ==> l in template;
      DifferentLine(template[0], redis, prefix);
      NoneBegins(template[1..], redis, prefix);
      CountOne(Shown(template[0], redis), prefix);
      CountTogether(if Dropped(template[0], redis) then [] else [Shown(template[0], redis)],
                    Render(template[1..], redis), prefix);
    }
  }

  lemma CountOneLine(line: Line, redis: Redis, prefix: string)
    requires prefix <= line.text
    ensures CountIn([line], redis, prefix) == if Dropped(line, redis) then 0 else 1
  {
    ShownBegins(line, redis);
    CountOne(Shown(line, redis), prefix);
    assert Render([line][1..], redis) == [];
    assert Render([line], redis) == if Dropped(line, redis) then [] else [Shown(line, redis)];
  }

  // --- bitcoin.conf ----------------------------------------------------------------------------------

  /** 1, or true, yes or y in any letter case. */
  predicate On(redis: Redis, key: Key) { O.ReadsTrue(Get(redis, key)) }

  /** Missing or empty, 0, or false, no or n in any letter case. */
  predicate Off(redis: Redis, key: Key) { O.ReadsFalse(Get(redis, key)) }

  function Some1(written: bool): nat { if written then 1 else 0 }

  lemma NeverBoth(redis: Redis, key: Key)
    ensures !(On(redis, key) && Off(redis, key))
  {}

  predicate IsSwitched(prefix: string) { prefix == "listenonion=" || prefix == "onlynet=" || prefix == "proxy=" }

  lemma DiffersAt(line: Line, prefix: string, k: nat)
    requires k < |line.text| && k < |prefix| && line.text[k] != prefix[k]
    ensures Differs(line, prefix)
  {}

  lemma ServerLines(redis: Redis, prefix: string)
    requires IsSwitched(prefix)
    ensures CountIn(BITCOIN_SERVER, redis, prefix) == 0
  {
    forall l | l in BITCOIN_SERVER ensures Differs(l, prefix) {
      DiffersAt(l, prefix, if prefix == "listenonion=" && l == BITCOIN_SERVER[3] then 6 else 0);
    }
    NoneBegins(BITCOIN_SERVER, redis, prefix);
  }

  lemma OptionLines(redis: Redis, prefix: string)
    requires IsSwitched(prefix)
    ensures CountIn(BITCOIN_OPTIONS, redis, prefix) == 0
  {
    forall l | l in BITCOIN_OPTIONS ensures Differs(l, prefix) { DiffersAt(l, prefix, if prefix == "proxy=" then 2 else 0); }
    NoneBegins(BITCOIN_OPTIONS, redis, prefix);
  }

  lemma RpcLines(redis: Redis, prefix: string)
    requires IsSwitched(prefix)
    ensures CountIn(BITCOIN_RPC, redis, prefix) == 0 && CountIn(REINDEX, redis, prefix) == 0
  {
    forall l | l in BITCOIN_RPC ensures Differs(l, prefix) { DiffersAt(l, prefix, 0); }
    forall l | l in REINDEX ensures Differs(l, prefix) { DiffersAt(l, prefix, 0); }
    NoneBegins(BITCOIN_RPC, redis, prefix);
    NoneBegins(REINDEX, redis, prefix);
  }

  lemma BitcoinLines(redis: Redis, prefix: string)
    requires IsSwitched(prefix)
    ensures CountIn(BITCOIN_CONF, redis, prefix)
         == CountIn(LISTEN_ONION, redis, prefix) + CountIn(ONLY_NET, redis, prefix) + CountIn(PROXY, redis, prefix)
  {
    ServerLines(redis, prefix);
    OptionLines(redis, prefix);
    RpcLines(redis, prefix);
    var a := BITCOIN_SERVER + LISTEN_ONION;
    var b := a + BITCOIN_OPTIONS;
    var c := b + ONLY_NET;
    var d := c + BITCOIN_RPC;
    CountInTogether(BITCOIN_SERVER, LISTEN_ONION, redis, prefix);
    CountInTogether(a, BITCOIN_OPTIONS, redis, prefix);
    CountInTogether(b, ONLY_NET, redis, prefix);
    CountInTogether(c, BITCOIN_RPC, redis, prefix);
    CountInTogether(d, PROXY, redis, prefix);
    CountInTogether(d + PROXY, REINDEX, redis, prefix);
  }

  lemma TwoLines(a: Line, b: Line, redis: Redis, prefix: string)
    requires prefix <= a.text && prefix <= b.text
    ensures CountIn([a, b], redis, prefix) == Some1(!Dropped(a, redis)) + Some1(!Dropped(b, redis))
  {
    CountOneLine(a, redis, prefix);
    CountOneLine(b, redis, prefix);
    assert [a, b] == [a] + [b];
    CountInTogether([a], [b], redis, prefix);
  }

  lemma OneSection(redis: Redis, prefix: string)
    requires IsSwitched(prefix)
    ensures prefix != "listenonion=" ==> CountIn(LISTEN_ONION, redis, prefix) == 0
    ensures prefix != "onlynet=" ==> CountIn(ONLY_NET, redis, prefix) == 0
    ensures prefix != "proxy=" ==> CountIn(PROXY, redis, prefix) == 0
  {
    if prefix != "listenonion=" { NotListenOnion(redis, prefix); }
    if prefix != "onlynet=" { NotOnlyNet(redis, prefix); }
    if prefix != "proxy=" { NotProxy(redis, prefix); }
  }

  lemma NotListenOnion(redis: Redis, prefix: string)
    requires prefix != "" && prefix[0] != 'l'
    ensures CountIn(LISTEN_ONION, redis, prefix) == 0
  {
    forall l | l in LISTEN_ONION ensures Differs(l, prefix) { DiffersAt(l, prefix, 0); }
    NoneBegins(LISTEN_ONION, redis, prefix);
  }

  lemma NotOnlyNet(redis: Redis, prefix: string)
    requires prefix != "" && prefix[0] != 'o'
    ensures CountIn(ONLY_NET, redis, prefix) == 0
  {
    forall l | l in ONLY_NET ensures Differs(l, prefix) { DiffersAt(l, prefix, 0); }
    NoneBegins(ONLY_NET, redis, prefix);
  }

  lemma NotProxy(redis: Redis, prefix: string)
    requires prefix != "" && prefix[0] != 'p'
    ensures CountIn(PROXY, redis, prefix) == 0
  {
    forall l | l in PROXY ensures Differs(l, prefix) { DiffersAt(l, prefix, 0); }
    NoneBegins(PROXY, redis, prefix);
  }

  lemma DefaultDecision(value: string, fallback: string)
    ensures !T.Decide("#default:", [fallback], value).DropLine?
  {
    assert "#default:" != "#check" && "#default:" != "#rmLineFalse" && "#default:" != "#rmLineTrue";
    assert ToLower("#default:")[1] == 'd';
  }

  lemma DroppedBehindDefault(text: string, key: Key, value: string, rest: Line, redis: Redis)
    ensures Dropped(Slot(text, key, ["#default:", value], rest), redis) == Dropped(rest, redis)
  {
    var words := ["#default:", value];
    assert words[1..] == [value];
    DefaultDecision(Get(redis, key), value);
  }

  lemma DroppedSwitch(text: string, key: Key, rest: Line, redis: Redis)
    ensures Dropped(Slot(text, key, ["#rmLineTrue"], rest), redis) == (On(redis, key) || Dropped(rest, redis))
    ensures Dropped(Slot(text, key, ["#rmLineFalse"], rest), redis) == (Off(redis, key) || Dropped(rest, redis))
  {
    O.TrueValues(Get(redis, key));
    O.FalseValues(Get(redis, key));
  }

  lemma ListenOnionDropped(redis: Redis)
    ensures Dropped(LISTEN_ONION[0], redis) == On(redis, IbdClearnet)
    ensures Dropped(LISTEN_ONION[1], redis) == Off(redis, IbdClearnet)
  {
    DroppedBehindDefault("listenonion=", TorBase, "1", OnlyUnless("              ", IbdClearnet), redis);
    DroppedSwitch("              ", IbdClearnet, End(""), redis);
    DroppedSwitch(Pad("listenonion=0", 76), IbdClearnet, End(""), redis);
  }

  lemma ListenOnionLines(redis: Redis)
    ensures CountIn(BITCOIN_CONF, redis, "listenonion=") == Some1(!On(redis, IbdClearnet)) + Some1(!Off(redis, IbdClearnet))
  {
    BitcoinLines(redis, "listenonion=");
    OneSection(redis, "listenonion=");
    TwoLines(LISTEN_ONION[0], LISTEN_ONION[1], redis, "listenonion=");
    ListenOnionDropped(redis);
  }

  lemma OnlyNetLines(redis: Redis)
    ensures CountIn(BITCOIN_CONF, redis, "onlynet=")
         == Some1(!On(redis, TorBase)) + Some1(!Off(redis, TorBase) && !Off(redis, IbdClearnet))
  {
    BitcoinLines(redis, "onlynet=");
    OneSection(redis, "onlynet=");
    TwoLines(ONLY_NET[0], ONLY_NET[1], redis, "onlynet=");
    DroppedBehindDefault("onlynet=", OnlyNet, "ipv4", OnlyUnless("           ", TorBase), redis);
    DroppedSwitch("           ", TorBase, End(""), redis);
    var both := Slot("           ", TorBase, ["#rmLineFalse"], OnlyIf(" ", IbdClearnet));
    DroppedBehindDefault("onlynet=", OnlyNet, "ipv4", both, redis);
    DroppedSwitch("           ", TorBase, OnlyIf(" ", IbdClearnet), redis);
    DroppedSwitch(" ", IbdClearnet, End(""), redis);
  }

  lemma ProxyLines(redis: Redis)
    ensures CountIn(BITCOIN_CONF, redis, "proxy=") == Some1(!Off(redis, TorBase) && !On(redis, IbdClearnet))
  {
    BitcoinLines(redis, "proxy=");
    OneSection(redis, "proxy=");
    CountOneLine(PROXY[0], redis, "proxy=");
    assert PROXY == [PROXY[0]];
    var both := Slot(" ", TorBase, ["#rmLineFalse"], OnlyUnless(" ", IbdClearnet));
    DroppedBehindDefault("proxy=", BtcProxy, "127.0.0.1:9050", both, redis);
    DroppedSwitch(" ", TorBase, OnlyUnless(" ", IbdClearnet), redis);
    DroppedSwitch(" ", IbdClearnet, End(""), redis);
  }

  /** The three beginnings that matter here. */
  lemma SwitchedBeginnings()
    ensures IsWordBeginning("listenonion=") && IsWordBeginning("onlynet=") && IsWordBeginning("proxy=")
  {}

  /** Main result: bitcoin.conf, as it is read, says at least once whether to listen on the onion service,
      and exactly once if and only if the clearnet switch is recognisably on or off and no value that is
      shown carries another such line. */
  lemma OneListenOnion(redis: Redis)
    ensures CountInFile(BitcoinConf, redis, "listenonion=") >= 1
    ensures CountInFile(BitcoinConf, redis, "listenonion=") == 1
        <==> (On(redis, IbdClearnet) || Off(redis, IbdClearnet)) && !BringsLine(redis, "listenonion=")
  {
    SwitchedBeginnings();
    BitcoinCounted(redis, "listenonion=");
    ListenOnionLines(redis);
    NeverBoth(redis, IbdClearnet);
  }

  /** Main result: there is at least one of a proxy and an onlynet line, and exactly one if and only if tor
      is off, or on with the clearnet switch recognisably on or off, and no value that is shown carries
      another. */
  lemma ProxyOrOnlyNet(redis: Redis)
    ensures CountInFile(BitcoinConf, redis, "proxy=") + CountInFile(BitcoinConf, redis, "onlynet=") >= 1
    ensures CountInFile(BitcoinConf, redis, "proxy=") + CountInFile(BitcoinConf, redis, "onlynet=") == 1
        <==> (Off(redis, TorBase) || (On(redis, TorBase) && (On(redis, IbdClearnet) || Off(redis, IbdClearnet))))
             && !BringsLine(redis, "proxy=") && !BringsLine(redis, "onlynet=")
  {
    SwitchedBeginnings();
    BitcoinCounted(redis, "proxy=");
    BitcoinCounted(redis, "onlynet=");
    OnlyNetLines(redis);
    ProxyLines(redis);
    NeverBoth(redis, TorBase);
    NeverBoth(redis, IbdClearnet);
  }

  /** It happens: credentials that carry such a line bring a second one into the file, whatever the
      switches say. */
  lemma LineFeedBreaks(redis: Redis)
    requires Get(redis, RpcAuth) == "x\nlistenonion=0"
    ensures CountInFile(BitcoinConf, redis, "listenonion=") >= 2
  {
    var line := OnlySet("rpcauth=", RpcAuth);
    assert line in BITCOIN_RPC && line in BITCOIN_CONF;
    CredentialsAreShown(redis);
    assert Brings(line, redis, "listenonion=");
    OneListenOnion(redis);
  }

  lemma CredentialsAreShown(redis: Redis)
    requires Get(redis, RpcAuth) == "x\nlistenonion=0"
    ensures var line := OnlySet("rpcauth=", RpcAuth);
            !Dropped(line, redis) && Ask(line.key, line.words, redis) == T.Substitute("x\nlistenonion=0", T.Replaced)
    ensures Carries("x\nlistenonion=0", "listenonion=")
  {
    var v := "x\nlistenonion=0";
    assert v[1] == '\n' && v[2..] == "listenonion=0" && "listenonion=" <= "listenonion=0";
  }

  // --- the firewall ----------------------------------------------------------------------------------

  const PEERS: string := Accept("OUTPUT", "dport 8333")

  lemma AcceptText(chain: string, port: string)
    requires |chain| + |port| + 23 <= 56
    ensures |Accept(chain, port)| == 56
    ensures forall k :: 0 <= k < |chain| ==> Accept(chain, port)[3 + k] == chain[k]
    ensures forall k :: 0 <= k < |port| ==> Accept(chain, port)[|chain| + 13 + k] == port[k]
  {
    var text := "-A " + chain + " -p tcp --" + port + " -j ACCEPT";
    SpacesLength(56 - |text|);
    assert text == "-A " + chain + (" -p tcp --" + port + " -j ACCEPT");
    assert text == ("-A " + chain + " -p tcp --") + port + " -j ACCEPT";
  }

  lemma {:induction false} SpacesLength(n: nat)
    ensures |Spaces(n)| == n
  {
    if n > 0 { SpacesLength(n - 1); }
  }

  lemma OtherRule(line: Line, chain: string, port: string)
    requires line.text == Accept(chain, port)
    requires (chain == "INPUT" && |port| <= 11) || (chain == "OUTPUT" && 6 < |port| <= 11 && port[6] != '8')
    ensures Differs(line, PEERS)
  {
    AcceptText(chain, port);
    AcceptText("OUTPUT", "dport 8333");
    if chain == "INPUT" { DiffersAt(line, PEERS, 3); } else { DiffersAt(line, PEERS, 25); }
  }

  lemma RulesBefore(redis: Redis)
    ensures CountIn(IPTABLES_RULES[..4], redis, PEERS) == 0
  {
    var r := IPTABLES_RULES[..4];
    forall l | l in r ensures Differs(l, PEERS) {
      if l == r[0] { OtherRule(l, "INPUT", "dport 8333"); }
      else if l == r[1] { OtherRule(l, "INPUT", "dport 18333"); }
      else { OtherRule(l, "INPUT", if l == r[2] then "dport 9001" else "sport 9001"); }
    }
    NoneBegins(r, redis, PEERS);
  }

  lemma RuleBetween(redis: Redis)
    ensures CountIn([IPTABLES_RULES[5]], redis, PEERS) == 0
  {
    OtherRule(IPTABLES_RULES[5], "OUTPUT", "dport 18333");
    NoneBegins([IPTABLES_RULES[5]], redis, PEERS);
  }

  lemma RulesBehind(redis: Redis)
    ensures CountIn(IPTABLES_RULES[7..], redis, PEERS) == 0
  {
    var r := IPTABLES_RULES[7..];
    forall l | l in r ensures Differs(l, PEERS) {
      OtherRule(l, "OUTPUT", if l == r[0] then "dport 18333" else if l == r[1] then "dport 9735" else "dport 9001");
    }
    NoneBegins(r, redis, PEERS);
  }

  lemma RulesApart(r: seq<Line>, redis: Redis, prefix: string)
    requires |r| == 10
    ensures CountIn(r, redis, prefix)
         == CountIn(r[..4], redis, prefix) + CountIn([r[4]], redis, prefix) + CountIn([r[5]], redis, prefix)
          + CountIn([r[6]], redis, prefix) + CountIn(r[7..], redis, prefix)
  {
    var a, b, c, d, e := r[..4], [r[4]], [r[5]], [r[6]], r[7..];
    assert r == a + b + c + d + e;
    CountInTogether(a, b, redis, prefix);
    CountInTogether(a + b, c, redis, prefix);
    CountInTogether(a + b + c, d, redis, prefix);
    CountInTogether(a + b + c + d, e, redis, prefix);
  }

  lemma PeerRules(redis: Redis)
    ensures CountIn(IPTABLES_RULES, redis, PEERS)
         == Some1(!On(redis, TorBase)) + Some1(!Off(redis, TorBase) && !Off(redis, IbdClearnet))
  {
    RulesBefore(redis);
    RuleBetween(redis);
    RulesBehind(redis);
    RulesApart(IPTABLES_RULES, redis, PEERS);
    CountOneLine(IPTABLES_RULES[4], redis, PEERS);
    CountOneLine(IPTABLES_RULES[6], redis, PEERS);
    DroppedSwitch(PEERS, TorBase, End(""), redis);
    DroppedSwitch(PEERS, TorBase, OnlyIf(" ", IbdClearnet), redis);
    DroppedSwitch(" ", IbdClearnet, End(""), redis);
  }

  lemma PeersEnd()
    ensures IsBeginning(PEERS)
  {
    AcceptText("OUTPUT", "dport 8333");
    RulesArePlain();
    PlainIsOneLine(PEERS);
  }

  /** Main result: whatever the switches hold, the firewall has as many rules that let bitcoind reach its
      peers directly as bitcoin.conf has onlynet lines, if and only if no value that is shown carries an
      onlynet line. */
  lemma FirewallMatchesBitcoind(redis: Redis)
    ensures CountInFile(IptablesRules, redis, PEERS) == CountInFile(BitcoinConf, redis, "onlynet=")
        <==> !BringsLine(redis, "onlynet=")
  {
    PeersEnd();
    SwitchedBeginnings();
    RulesCounted(redis, PEERS);
    BitcoinCounted(redis, "onlynet=");
    PeerRules(redis);
    OnlyNetLines(redis);
  }
}
