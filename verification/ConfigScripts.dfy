/** bbb-config.sh, bbb-cmd.sh and bbb-systemctl.sh as written: the branches run their commands one
    after the other on Redis, the generated files and the units, and end where one fails. Each branch
    is the program of BaseSystem that carries its name. */
module ConfigScripts {
  import opened ConfigTemplates
  import opened Decimal
  import opened BaseSystem

  /** The remaining operations carried out without interruption; `outcome(i)` is whether the unit
      handled by the i-th operation so far starts or stops as asked. */
  function Perform(s: State, outcome: nat -> bool, i: nat): State
    decreases |s.todo|
  {
    if s.todo == [] then s
    else
      OperationsGetFewer(s, outcome(i));
      Perform(Apply(s, Next(outcome(i))), outcome, i + 1)
  }

  lemma OperationsGetFewer(s: State, ok: bool)
    requires s.todo != []
    ensures Apply(s, Next(ok)).todo == [] || Apply(s, Next(ok)).todo == s.todo[1..]
  {}

  /** It is a run of the step machine. */
  lemma {:induction false} PerformIsRun(s: State, outcome: nat -> bool, i: nat) returns (run: seq<Event>)
    ensures Valid(s, run) && After(s, run) == Perform(s, outcome, i) && forall e :: e in run ==> e.Next?
    ensures Perform(s, outcome, i).todo == []
    decreases |s.todo|
  {
    if s.todo == [] {
      run := [];
    } else {
      OperationsGetFewer(s, outcome(i));
      var rest := PerformIsRun(Apply(s, Next(outcome(i))), outcome, i + 1);
      run := [Next(outcome(i))] + rest;
      assert run[1..] == rest;
    }
  }

  lemma PerformFirst(s: State, op: Op, rest: seq<Op>, outcome: nat -> bool, i: nat)
    requires s.todo == [op] + rest
    ensures Perform(s, outcome, i) == Perform(Execute(s.(todo := rest), op, outcome(i)), outcome, i + 1)
  {
    assert s.todo[1..] == rest;
  }

  // --- the programs as the branches run through them ----------------------------------------------------

  function CacheRestart(redis: Redis, megabytes: nat, rest: seq<Op>): seq<Op> {
    if Get(redis, DbCache) != Digits(megabytes) && Get(redis, Setup) == "1" then [Restart(Bitcoind, false)] + rest else rest
  }

  lemma DbCacheParts(redis: Redis, megabytes: nat, rest: seq<Op>)
    ensures DbCacheOps(redis, megabytes) + rest
         == if 50 <= megabytes <= 3000
            then [Set(DbCache, Digits(megabytes))] + ([Generate(BitcoinConf)] + CacheRestart(redis, megabytes, rest))
            else rest
  {}

  function TorRestarts(redis: Redis, rest: seq<Op>): seq<Op> {
    if Get(redis, Setup) == "1" then [Restart(Bitcoind, false)] + ([Restart(Lightningd, true)] + rest) else rest
  }

  lemma TorParts(redis: Redis, on: bool, rest: seq<Op>)
    ensures TorOps(redis, on) + rest
         == [Set(TorBase, Bit(on))]
            + ([Generate(IptablesRules)] + ([Generate(BitcoinConf)] + ([Generate(LightningdConf)]
            + TorRestarts(redis, [Set(TorBase, Bit(on))] + rest))))
  {}

  function ClearnetOps(redis: Redis, on: bool): seq<Op> {
    [Set(IbdClearnet, Bit(on)), Generate(IptablesRules), Generate(BitcoinConf)] + WhenSetUp(redis, [Restart(Bitcoind, false)])
  }

  lemma ClearnetParts(redis: Redis, on: bool)
    ensures ClearnetOps(redis, on)
         == [Set(IbdClearnet, Bit(on))]
            + ([Generate(IptablesRules)] + ([Generate(BitcoinConf)] + WhenSetUp(redis, [Restart(Bitcoind, false)])))
  {}

  lemma ClearnetProgram(redis: Redis, on: bool)
    ensures Program(EnableIbdClearnet(on), redis)
         == if on && Get(redis, TorBase) == "0" then TorOps(redis, true) + ClearnetOps(redis, on) else ClearnetOps(redis, on)
  {}

  lemma EnterIbdParts(redis: Redis)
    ensures Program(EnableIbd(true), redis)
         == [Stop(Lightningd)] + ([Stop(Electrs)] + (DbCacheOps(redis, 2000) + [Set(Ibd, "1")]))
  {}

  lemma LeaveIbdParts(redis: Redis)
    ensures Program(EnableIbd(false), redis)
         == DbCacheOps(redis, 300) + ([Set(Ibd, "0")] + WhenSetUp(redis, [Start(Lightningd), Start(Electrs)]))
  {}

  lemma ResyncParts(redis: Redis)
    ensures Program(Resync, redis)
         == [Stop(Electrs)] + ([Stop(Lightningd)] + ([Stop(Bitcoind)] + ([Set(Ibd, "1")]
            + ([Set(ReindexChainstate, "1")] + ([Generate(BitcoinConf)] + ([Start(Bitcoind)]
            + ([Set(ReindexChainstate, "0")] + ([Generate(BitcoinConf)] + []))))))))
  {}

  class Base {
    var redis: Redis
    var files: map<File, seq<string>>
    var units: map<Service, UnitState>
    const outcome: nat -> bool
    var done: nat

    /** Perform under these outcomes. */
    ghost const perform: (State, nat) -> State

    ghost predicate Valid() {
      && (forall s: State, i: nat {:trigger Perform(s, outcome, i)} :: perform(s, i) == Perform(s, outcome, i))
      && (forall s: State, i: nat :: s.todo == [] ==> perform(s, i) == s)
    }

    function Now(todo: seq<Op>): State
      reads this
    {
      State(redis, files, units, todo)
    }

    /** What the operations `todo` will have made of the current state. */
    ghost function Result(todo: seq<Op>): State
      reads this
    {
      perform(Now(todo), done)
    }

    lemma ResultIsPerform(todo: seq<Op>)
      requires Valid()
      ensures Result(todo) == Perform(Now(todo), outcome, done)
    {}

    /** The step of one operation, as its method takes it. */
    lemma Carried(op: Op, rest: seq<Op>)
      requires Valid()
      ensures Result([op] + rest) == perform(Execute(Now(rest), op, outcome(done)), done + 1)
    {
      PerformFirst(Now([op] + rest), op, rest, outcome, done);
      var next := Execute(Now(rest), op, outcome(done));
      assert perform(next, done + 1) == Perform(next, outcome, done + 1);
      ResultIsPerform([op] + rest);
    }

    constructor (redis: Redis, files: map<File, seq<string>>, units: map<Service, UnitState>, outcome: nat -> bool)
      ensures Valid() && Now([]) == State(redis, files, units, []) && this.outcome == outcome && done == 0
    {
      this.redis, this.files, this.units, this.outcome, this.done := redis, files, units, outcome, 0;
      perform := (s: State, i: nat) => Perform(s, outcome, i);
    }

    predicate Active(service: Service)
      reads this
    {
      service in units && units[service] == UnitState.Active
    }

    /** redis_set */
    method RedisSet(key: Key, value: string, ghost rest: seq<Op>)
      requires Valid()
      modifies this`redis, this`done
      ensures redis == old(redis)[key := value]
      ensures Result(rest) == old(Result([Set(key, value)] + rest))
    {
      Carried(Set(key, value), rest);
      redis := redis[key := value];
      done := done + 1;
    }

    /** generateConfig */
    method GenerateConfig(file: File, ghost rest: seq<Op>)
      requires Valid()
      modifies this`files, this`done
      ensures Result(rest) == old(Result([Generate(file)] + rest))
    {
      Carried(Generate(file), rest);
      files := files[file := Render(TemplateOf(file), redis)];
      done := done + 1;
    }

    /** systemctl stop: a failure ends the script. */
    method SystemctlStop(service: Service, ghost rest: seq<Op>) returns (alive: bool)
      requires Valid()
      modifies this`units, this`done
      ensures (if alive then Result(rest) else Now([])) == old(Result([Stop(service)] + rest))
    {
      Carried(Stop(service), rest);
      alive := outcome(done);
      if alive { units := units[service := Stopped]; }
      done := done + 1;
    }

    /** The unit's start with its ExecStartPre condition; systemd goes on trying if it fails. */
    method StartNow(service: Service) returns (started: bool)
      requires Valid()
      modifies this`units
      ensures started == (MayStart(old(Now([])), service) && outcome(done))
      ensures units == old(units)[service := if started then UnitState.Active else Waiting]
    {
      started := (service == Bitcoind || (Active(Bitcoind) && Get(redis, Ibd) != "1")) && outcome(done);
      units := units[service := if started then UnitState.Active else Waiting];
    }

    /** systemctl start: nothing to do for a running unit. */
    method SystemctlStart(service: Service, ghost rest: seq<Op>) returns (alive: bool)
      requires Valid()
      modifies this`units, this`done
      ensures (if alive then Result(rest) else Now([])) == old(Result([Start(service)] + rest))
    {
      Carried(Start(service), rest);
      alive := true;
      if !Active(service) { alive := StartNow(service); }
      done := done + 1;
    }

    /** bbb-systemctl.sh start-bitcoin-services, for lightningd and electrs */
    method StartUnlessInIbd(service: Service, ghost rest: seq<Op>) returns (alive: bool)
      requires Valid()
      modifies this`units, this`done
      ensures (if alive then Result(rest) else Now([])) == old(Result([StartUnlessIbd(service)] + rest))
    {
      Carried(StartUnlessIbd(service), rest);
      alive := true;
      if !Active(service) && Get(redis, Ibd) != "1" { alive := StartNow(service); }
      done := done + 1;
    }

    /** systemctl restart, with "|| true" if it may fail */
    method SystemctlRestart(service: Service, mayFail: bool, ghost rest: seq<Op>) returns (alive: bool)
      requires Valid()
      modifies this`units, this`done
      ensures (if alive then Result(rest) else Now([])) == old(Result([Restart(service, mayFail)] + rest))
    {
      Carried(Restart(service, mayFail), rest);
      alive := StartNow(service);
      if mayFail { alive := true; }
      done := done + 1;
    }

    // --- bbb-config.sh ---------------------------------------------------------------------------------

    method StoreDbCache(megabytes: nat, ghost rest: seq<Op>)
      requires Valid()
      modifies this`redis, this`files, this`done
      ensures redis == old(redis)[DbCache := Digits(megabytes)]
      ensures Result(rest) == old(Result([Set(DbCache, Digits(megabytes))] + ([Generate(BitcoinConf)] + rest)))
    {
      RedisSet(DbCache, Digits(megabytes), [Generate(BitcoinConf)] + rest);
      GenerateConfig(BitcoinConf, rest);
    }

    /** set bitcoin_dbcache */
    method SetDbCache(megabytes: nat, ghost rest: seq<Op>) returns (alive: bool)
      requires Valid()
      modifies this
      ensures redis == if 50 <= megabytes <= 3000 then old(redis)[DbCache := Digits(megabytes)] else old(redis)
      ensures (if alive then Result(rest) else Now([])) == old(Result(DbCacheOps(redis, megabytes) + rest))
    {
      alive := true;
      ghost var last := CacheRestart(redis, megabytes, rest);
      DbCacheParts(redis, megabytes, rest);
      if 50 <= megabytes <= 3000 {
        var before := Get(redis, DbCache);
        StoreDbCache(megabytes, last);
        if before != Digits(megabytes) && Get(redis, Setup) == "1" {
          alive := SystemctlRestart(Bitcoind, false, rest);
        }
      }
    }

    method StoreTor(on: bool, ghost rest: seq<Op>)
      requires Valid()
      modifies this`redis, this`files, this`done
      ensures redis == old(redis)[TorBase := Bit(on)]
      ensures Result(rest)
           == old(Result([Set(TorBase, Bit(on))]
                         + ([Generate(IptablesRules)] + ([Generate(BitcoinConf)] + ([Generate(LightningdConf)] + rest)))))
    {
      RedisSet(TorBase, Bit(on), [Generate(IptablesRules)] + ([Generate(BitcoinConf)] + ([Generate(LightningdConf)] + rest)));
      GenerateConfig(IptablesRules, [Generate(BitcoinConf)] + ([Generate(LightningdConf)] + rest));
      GenerateConfig(BitcoinConf, [Generate(LightningdConf)] + rest);
      GenerateConfig(LightningdConf, rest);
    }

    /** The restarts of the tor branch. */
    method RestartForTor(ghost rest: seq<Op>) returns (alive: bool)
      requires Valid()
      modifies this`units, this`done
      ensures (if alive then Result(rest) else Now([])) == old(Result(TorRestarts(redis, rest)))
    {
      alive := true;
      if Get(redis, Setup) == "1" {
        alive := SystemctlRestart(Bitcoind, false, [Restart(Lightningd, true)] + rest);
        if alive {
          alive := SystemctlRestart(Lightningd, true, rest);
        }
      }
    }

    /** enable|disable tor */
    method EnableTor(on: bool, ghost rest: seq<Op>) returns (alive: bool)
      requires Valid()
      modifies this
      ensures redis == old(redis)[TorBase := if on then "1" else "0"]
      ensures (if alive then Result(rest) else Now([])) == old(Result(TorOps(redis, on) + rest))
    {
      ghost var again := [Set(TorBase, Bit(on))] + rest;
      ghost var restarts := TorRestarts(redis, again);
      TorParts(redis, on, rest);
      StoreTor(on, restarts);
      alive := RestartForTor(again);
      if alive {
        RedisSet(TorBase, Bit(on), rest);
      }
    }

    /** The part of the clearnet branch that follows the switch to tor. */
    method StoreIbdClearnet(on: bool)
      requires Valid()
      modifies this
      ensures Now([]) == old(Result(ClearnetOps(redis, on)))
    {
      ghost var last := WhenSetUp(redis, [Restart(Bitcoind, false)]);
      ClearnetParts(redis, on);
      RedisSet(IbdClearnet, Bit(on), [Generate(IptablesRules)] + ([Generate(BitcoinConf)] + last));
      GenerateConfig(IptablesRules, [Generate(BitcoinConf)] + last);
      GenerateConfig(BitcoinConf, last);
      if Get(redis, Setup) == "1" {
        assert last == [Restart(Bitcoind, false)] + [];
        var alive := SystemctlRestart(Bitcoind, false, []);
      }
    }

    /** enable|disable bitcoin_ibd_clearnet: enables tor first if it is off */
    method EnableIbdClearnet(on: bool)
      requires Valid()
      modifies this
      ensures Now([]) == old(Result(Program(Command.EnableIbdClearnet(on), redis)))
    {
      ClearnetProgram(redis, on);
      var alive := true;
      if on && Get(redis, TorBase) == "0" {
        ghost var own := ClearnetOps(redis, on);
        alive := EnableTor(true, own);
        assert ClearnetOps(redis, on) == own;
      }
      if alive {
        StoreIbdClearnet(on);
      }
    }

    method StopForIbd(ghost rest: seq<Op>) returns (alive: bool)
      requires Valid()
      modifies this`units, this`done
      ensures (if alive then Result(rest) else Now([])) == old(Result([Stop(Lightningd)] + ([Stop(Electrs)] + rest)))
    {
      alive := SystemctlStop(Lightningd, [Stop(Electrs)] + rest);
      if alive {
        alive := SystemctlStop(Electrs, rest);
      }
    }

    method StopThenCache(megabytes: nat)
      requires Valid()
      modifies this
      ensures Now([]) == old(Result([Stop(Lightningd)] + ([Stop(Electrs)] + (DbCacheOps(redis, megabytes) + [Set(Ibd, "1")]))))
    {
      var alive := StopForIbd(DbCacheOps(redis, megabytes) + [Set(Ibd, "1")]);
      if alive {
        alive := SetDbCache(megabytes, [Set(Ibd, "1")]);
      }
      if alive {
        assert [Set(Ibd, "1")] == [Set(Ibd, "1")] + [];
        RedisSet(Ibd, "1", []);
      }
    }

    /** enable bitcoin_ibd */
    method EnterIbd()
      requires Valid()
      modifies this
      ensures Now([]) == old(Result(Program(EnableIbd(true), redis)))
    {
      EnterIbdParts(redis);
      StopThenCache(2000);
    }

    method StartAfterIbd()
      requires Valid()
      modifies this`units, this`done
      ensures Now([]) == old(Result(WhenSetUp(redis, [Start(Lightningd), Start(Electrs)])))
    {
      if Get(redis, Setup) == "1" {
        assert [Start(Lightningd), Start(Electrs)] == [Start(Lightningd)] + [Start(Electrs)];
        var alive := SystemctlStart(Lightningd, [Start(Electrs)]);
        if alive {
          assert [Start(Electrs)] == [Start(Electrs)] + [];
          alive := SystemctlStart(Electrs, []);
        }
      }
    }

    method CacheThenStart(megabytes: nat)
      requires Valid()
      modifies this
      ensures Now([])
           == old(Result(DbCacheOps(redis, megabytes)
                         + ([Set(Ibd, "0")] + WhenSetUp(redis, [Start(Lightningd), Start(Electrs)]))))
    {
      ghost var starts := WhenSetUp(redis, [Start(Lightningd), Start(Electrs)]);
      var alive := SetDbCache(megabytes, [Set(Ibd, "0")] + starts);
      if alive {
        RedisSet(Ibd, "0", starts);
        StartAfterIbd();
      }
    }

    /** disable bitcoin_ibd */
    method LeaveIbd()
      requires Valid()
      modifies this
      ensures Now([]) == old(Result(Program(EnableIbd(false), redis)))
    {
      LeaveIbdParts(redis);
      CacheThenStart(300);
    }

    /** enable|disable bitcoin_incoming */
    method EnableIncoming(on: bool)
      requires Valid()
      modifies this
      ensures redis == old(redis)[Listen := if on then "1" else "0"]
      ensures Now([]) == old(Result(Program(Command.EnableIncoming(on), redis)))
    {
      ghost var last := WhenSetUp(redis, [Restart(Bitcoind, false)]);
      ghost var all := Program(Command.EnableIncoming(on), redis);
      assert all == [Set(Listen, Bit(on))] + ([Generate(BitcoinConf)] + last);
      RedisSet(Listen, Bit(on), [Generate(BitcoinConf)] + last);
      GenerateConfig(BitcoinConf, last);
      if Get(redis, Setup) == "1" {
        assert last == [Restart(Bitcoind, false)] + [];
        var alive := SystemctlRestart(Bitcoind, false, []);
      }
    }

    method GenerateForNetwork(ghost rest: seq<Op>)
      requires Valid()
      modifies this`files, this`done
      ensures Result(rest)
           == old(Result([Generate(Torrc)]
                         + ([Generate(BitcoinConf)] + ([Generate(LightningdConf)] + ([Generate(ElectrsConf)] + rest)))))
    {
      GenerateConfig(Torrc, [Generate(BitcoinConf)] + ([Generate(LightningdConf)] + ([Generate(ElectrsConf)] + rest)));
      GenerateConfig(BitcoinConf, [Generate(LightningdConf)] + ([Generate(ElectrsConf)] + rest));
      GenerateConfig(LightningdConf, [Generate(ElectrsConf)] + rest);
      GenerateConfig(ElectrsConf, rest);
    }

    /** set bitcoin_network */
    method SetNetwork(mainnet: bool)
      requires Valid()
      modifies this
      ensures redis == old(redis)[Network := if mainnet then "mainnet" else "testnet"][Testnet := if mainnet then "0" else "1"]
                                 [Mainnet := if mainnet then "1" else "0"][LightningDir := "/mnt/ssd/bitcoin/.lightning"]
      ensures units == old(units)
      ensures Now([]) == old(Result(Program(Command.SetNetwork(mainnet), redis)))
    {
      ghost var all := Program(Command.SetNetwork(mainnet), redis);
      ghost var files := [Generate(Torrc)]
                         + ([Generate(BitcoinConf)] + ([Generate(LightningdConf)] + ([Generate(ElectrsConf)] + [])));
      assert all[4..] == files && all[3..] == [all[3]] + files;
      assert all[2..] == [all[2]] + all[3..] && all[1..] == [all[1]] + all[2..] && all == [all[0]] + all[1..];
      RedisSet(Network, if mainnet then "mainnet" else "testnet", all[1..]);
      RedisSet(Testnet, if mainnet then "0" else "1", all[2..]);
      RedisSet(Mainnet, if mainnet then "1" else "0", all[3..]);
      RedisSet(LightningDir, "/mnt/ssd/bitcoin/.lightning", files);
      GenerateForNetwork([]);
    }

    // --- bbb-cmd.sh and bbb-systemctl.sh ---------------------------------------------------------------

    method StopForResync(ghost rest: seq<Op>) returns (alive: bool)
      requires Valid()
      modifies this`units, this`done
      ensures (if alive then Result(rest) else Now([]))
           == old(Result([Stop(Electrs)] + ([Stop(Lightningd)] + ([Stop(Bitcoind)] + rest))))
    {
      alive := SystemctlStop(Electrs, [Stop(Lightningd)] + ([Stop(Bitcoind)] + rest));
      if alive {
        alive := SystemctlStop(Lightningd, [Stop(Bitcoind)] + rest);
      }
      if alive {
        alive := SystemctlStop(Bitcoind, rest);
      }
    }

    /** One setting of reindex-chainstate, with the file that shows it. */
    method StoreReindex(value: string, ghost rest: seq<Op>)
      requires Valid()
      modifies this`redis, this`files, this`done
      ensures Result(rest) == old(Result([Set(ReindexChainstate, value)] + ([Generate(BitcoinConf)] + rest)))
    {
      RedisSet(ReindexChainstate, value, [Generate(BitcoinConf)] + rest);
      GenerateConfig(BitcoinConf, rest);
    }

    /** bitcoind resync|reindex */
    method ResyncBitcoind()
      requires Valid()
      modifies this
      ensures Now([]) == old(Result(Program(Resync, redis)))
    {
      ghost var off := [Set(ReindexChainstate, "0")] + ([Generate(BitcoinConf)] + []);
      ghost var start := [Start(Bitcoind)] + off;
      ghost var reindex := [Set(ReindexChainstate, "1")] + ([Generate(BitcoinConf)] + start);
      ResyncParts(redis);
      var alive := StopForResync([Set(Ibd, "1")] + reindex);
      if alive {
        RedisSet(Ibd, "1", reindex);
        StoreReindex("1", start);
        alive := SystemctlStart(Bitcoind, off);
      }
      if alive {
        StoreReindex("0", []);
      }
    }

    method GenerateForCredentials(ghost rest: seq<Op>)
      requires Valid()
      modifies this`files, this`done
      ensures Result(rest)
           == old(Result([Generate(BitcoinConf)] + ([Generate(LightningdConf)] + ([Generate(ElectrsConf)] + rest))))
    {
      GenerateConfig(BitcoinConf, [Generate(LightningdConf)] + ([Generate(ElectrsConf)] + rest));
      GenerateConfig(LightningdConf, [Generate(ElectrsConf)] + rest);
      GenerateConfig(ElectrsConf, rest);
    }

    /** bitcoind refresh_rpcauth, with the credentials that bitcoind-rpcauth.py makes up */
    method RefreshRpcAuth(auth: string, user: string, password: string)
      requires Valid()
      modifies this
      ensures redis == old(redis)[Key.RefreshRpcAuth := "1"][RpcAuth := auth][RpcUser := user][RpcPassword := password]
                                 [Key.RefreshRpcAuth := "0"]
      ensures units == old(units)
      ensures Now([]) == old(Result(Program(RefreshCredentials(auth, user, password), redis)))
    {
      ghost var all := Program(RefreshCredentials(auth, user, password), redis);
      ghost var files := [Generate(BitcoinConf)] + ([Generate(LightningdConf)]
                         + ([Generate(ElectrsConf)] + ([Set(Key.RefreshRpcAuth, "0")] + [])));
      assert all[4..] == files && all[3..] == [all[3]] + files;
      assert all[2..] == [all[2]] + all[3..] && all[1..] == [all[1]] + all[2..] && all == [all[0]] + all[1..];
      RedisSet(Key.RefreshRpcAuth, "1", all[1..]);
      RedisSet(RpcAuth, auth, all[2..]);
      RedisSet(RpcUser, user, all[3..]);
      RedisSet(RpcPassword, password, files);
      GenerateForCredentials([Set(Key.RefreshRpcAuth, "0")] + []);
      RedisSet(Key.RefreshRpcAuth, "0", []);
    }

    /** start-bitcoin-services */
    method StartServices()
      requires Valid()
      modifies this
      ensures Now([]) == old(Result(Program(StartBitcoinServices, redis)))
    {
      ghost var all := Program(StartBitcoinServices, redis);
      assert all == [Start(Bitcoind)] + [StartUnlessIbd(Lightningd), StartUnlessIbd(Electrs)];
      var alive := SystemctlStart(Bitcoind, [StartUnlessIbd(Lightningd), StartUnlessIbd(Electrs)]);
      if !alive {
        return;
      }
      assert [StartUnlessIbd(Lightningd), StartUnlessIbd(Electrs)] == [StartUnlessIbd(Lightningd)] + [StartUnlessIbd(Electrs)];
      alive := StartUnlessInIbd(Lightningd, [StartUnlessIbd(Electrs)]);
      if !alive {
        return;
      }
      assert [StartUnlessIbd(Electrs)] == [StartUnlessIbd(Electrs)] + [];
      alive := StartUnlessInIbd(Electrs, []);
    }
  }
}
