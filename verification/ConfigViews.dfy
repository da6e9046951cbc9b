/** The generated configuration files are derived views of Redis: between commands, and wherever a
    command fails, they equal their template applied to the current values. */
module ConfigViews {
  import opened Options
  import opened ConfigTemplates
  import opened BaseSystem
  import T = Template
  import opened TemplateIdempotence
  import opened ConfigEngine
  import opened ConfigWording

  predicate InSync(s: State, file: File) {
    file in s.files && s.files[file] == Render(TemplateOf(file), s.redis)
  }

  // --- a file depends on the keys its template reads ---------------------------------------------

  ghost predicate SameOn(keys: set<Key>, a: Redis, b: Redis) { forall k :: k in keys ==> Get(a, k) == Get(b, k) }

  lemma {:induction false} LineFrame(line: Line, a: Redis, b: Redis)
    requires SameOn(KeysOf(line), a, b)
    ensures Dropped(line, a) == Dropped(line, b) && Shown(line, a) == Shown(line, b)
  {
    match line
    case End(_) =>
    case Slot(_, key, words, rest) =>
      assert key in KeysOf(line) && forall k :: k in KeysOf(rest) ==> k in KeysOf(line);
      LineFrame(rest, a, b);
  }

  lemma {:induction false} RenderFrame(lines: seq<Line>, keys: set<Key>, a: Redis, b: Redis)
    requires Covered(lines, keys) && SameOn(keys, a, b)
    ensures Render(lines, a) == Render(lines, b)
  {
    if lines != [] {
      assert lines[0] in lines && forall l :: l in lines[1..] ==> l in lines;
      assert KeysOf(lines[0]) <= keys;
      LineFrame(lines[0], a, b);
      RenderFrame(lines[1..], keys, a, b);
    }
  }

  /** A write leaves every file as it should be whose template does not see a difference. */
  lemma FileFrame(file: File, a: Redis, b: Redis)
    requires SameOn(KeysRead(file), a, b)
    ensures Render(TemplateOf(file), a) == Render(TemplateOf(file), b)
  {
    BitcoinCovered(); IptablesCovered(); LightningdCovered(); ElectrsCovered(); TorrcCovered();
    RenderFrame(TemplateOf(file), KeysRead(file), a, b);
  }

  // --- every write is followed by the generations it calls for ------------------------------------

  /** The operation changes a value that the file's template reads. */
  predicate Touches(op: Op, file: File) { op.Set? && file != Torrc && op.key in KeysRead(file) }

  predicate Quiet(op: Op) { op.Set? || op.Generate? }

  predicate SetsTor(op: Op) { op.Set? && op.key == TorBase }

  /** The file is generated at or after operation `i`, with nothing that can fail before. */
  predicate Follows(todo: seq<Op>, i: nat, file: File) {
    exists m :: i <= m < |todo| && todo[m] == Generate(file) && forall j :: i <= j < m ==> Quiet(todo[j])
  }

  /** Operation `i` writes the value tor:base:enabled has by then, `tor` being the current one. */
  predicate Repeats(todo: seq<Op>, i: nat, tor: Option<string>)
    requires i < |todo| && SetsTor(todo[i])
  {
    || (tor == Some(todo[i].value) && forall j :: 0 <= j < i ==> !SetsTor(todo[j]))
    || exists h :: 0 <= h < i && todo[h] == todo[i] && forall j :: h < j < i ==> !SetsTor(todo[j])
  }

  predicate WriteCovered(todo: seq<Op>, i: nat, file: File, tor: Option<string>)
    requires i < |todo|
  {
    Follows(todo, i + 1, file) || (SetsTor(todo[i]) && Repeats(todo, i, tor))
  }

  ghost predicate WritesCovered(todo: seq<Op>, tor: Option<string>) {
    forall i, f :: 0 <= i < |todo| && Touches(todo[i], f) ==> WriteCovered(todo, i, f, tor)
  }

  /** The file agrees with Redis, or the running command is about to regenerate it. */
  predicate Promised(s: State, file: File) { InSync(s, file) || Follows(s.todo, 0, file) }

  ghost predicate Inv(s: State) {
    && (forall f: File :: f != Torrc ==> Promised(s, f))
    && WritesCovered(s.todo, Some(Get(s.redis, TorBase)))
  }

  // --- putting programs together -------------------------------------------------------------------

  lemma FollowsIn(a: seq<Op>, b: seq<Op>, i: nat, f: File)
    ensures Follows(a, i, f) ==> Follows(a + b, i, f)
    ensures Follows(b, i, f) ==> Follows(a + b, |a| + i, f)
  {
    var c := a + b;
    if Follows(a, i, f) {
      var m :| i <= m < |a| && a[m] == Generate(f) && forall j :: i <= j < m ==> Quiet(a[j]);
      assert c[m] == Generate(f) && forall j :: i <= j < m ==> c[j] == a[j];
    }
    if Follows(b, i, f) {
      var m :| i <= m < |b| && b[m] == Generate(f) && forall j :: i <= j < m ==> Quiet(b[j]);
      assert c[|a| + m] == Generate(f) && forall j :: |a| + i <= j < |a| + m ==> c[j] == b[j - |a|];
    }
  }

  lemma RepeatsIn(a: seq<Op>, b: seq<Op>, i: nat, tor: Option<string>)
    requires i < |b| && SetsTor(b[i])
    requires Repeats(b, i, None) || (Repeats(b, i, tor) && forall j :: 0 <= j < |a| ==> !SetsTor(a[j]))
    ensures SetsTor((a + b)[|a| + i]) && Repeats(a + b, |a| + i, tor)
  {
    var c := a + b;
    assert c[|a| + i] == b[i];
    assert forall j :: |a| <= j < |a| + i ==> c[j] == b[j - |a|];
    assert forall j :: 0 <= j < |a| ==> c[j] == a[j];
    if exists h :: 0 <= h < i && b[h] == b[i] && forall j :: h < j < i ==> !SetsTor(b[j]) {
      var h :| 0 <= h < i && b[h] == b[i] && forall j :: h < j < i ==> !SetsTor(b[j]);
      assert c[|a| + h] == c[|a| + i] && forall j :: |a| + h < j < |a| + i ==> !SetsTor(c[j]);
    }
  }

  lemma RepeatsEarlier(a: seq<Op>, b: seq<Op>, i: nat, tor: Option<string>)
    requires i < |a| && SetsTor(a[i]) && Repeats(a, i, tor)
    ensures SetsTor((a + b)[i]) && Repeats(a + b, i, tor)
  {
    var c := a + b;
    assert forall j :: 0 <= j <= i ==> c[j] == a[j];
  }

  lemma Joined(a: seq<Op>, b: seq<Op>, tor: Option<string>)
    requires WritesCovered(a, tor)
    requires WritesCovered(b, None) || (WritesCovered(b, tor) && forall j :: 0 <= j < |a| ==> !SetsTor(a[j]))
    ensures WritesCovered(a + b, tor)
  {
    var c := a + b;
    forall i, f | 0 <= i < |c| && Touches(c[i], f) ensures WriteCovered(c, i, f, tor) {
      if i < |a| {
        assert WriteCovered(a, i, f, tor);
        FollowsIn(a, b, i + 1, f);
        if SetsTor(a[i]) && Repeats(a, i, tor) { RepeatsEarlier(a, b, i, tor); }
      } else {
        var k := i - |a|;
        assert c[i] == b[k];
        assert WriteCovered(b, k, f, None) || (WriteCovered(b, k, f, tor) && forall j :: 0 <= j < |a| ==> !SetsTor(a[j]));
        FollowsIn(a, b, k + 1, f);
        if SetsTor(b[k]) && (Repeats(b, k, None) || (Repeats(b, k, tor) && forall j :: 0 <= j < |a| ==> !SetsTor(a[j]))) {
          RepeatsIn(a, b, k, tor);
        }
      }
    }
  }

  lemma Later(todo: seq<Op>, tor: Option<string>)
    requires WritesCovered(todo, None)
    ensures WritesCovered(todo, tor)
  {
    forall i, f | 0 <= i < |todo| && Touches(todo[i], f) ensures WriteCovered(todo, i, f, tor) {
      assert WriteCovered(todo, i, f, None);
    }
  }

  // --- the programs ----------------------------------------------------------------------------------

  lemma FollowsAt(todo: seq<Op>, i: nat, m: nat, f: File)
    requires i <= m < |todo| && todo[m] == Generate(f) && forall j :: i <= j < m ==> Quiet(todo[j])
    ensures Follows(todo, i, f)
  {}

  lemma DbCacheCovered(redis: Redis, megabytes: nat)
    ensures WritesCovered(DbCacheOps(redis, megabytes), None)
  {
    var todo := DbCacheOps(redis, megabytes);
    if todo != [] { FollowsAt(todo, 1, 1, BitcoinConf); }
  }

  lemma TorCovered(redis: Redis, on: bool)
    ensures WritesCovered(TorOps(redis, on), None)
  {
    var todo := TorOps(redis, on);
    FollowsAt(todo, 1, 1, IptablesRules);
    FollowsAt(todo, 1, 2, BitcoinConf);
    FollowsAt(todo, 1, 3, LightningdConf);
    assert todo[0] == Set(TorBase, Bit(on)) == todo[|todo| - 1];
    assert forall j :: 0 < j < |todo| - 1 ==> !todo[j].Set?;
    assert Repeats(todo, |todo| - 1, None);
  }

  lemma RefreshCovered(auth: string, user: string, password: string)
    ensures WritesCovered(RefreshOps(auth, user, password), None)
  {
    var todo := RefreshOps(auth, user, password);
    forall i, f | 0 <= i < |todo| && Touches(todo[i], f) ensures WriteCovered(todo, i, f, None) {
      assert 1 <= i < 4 && (f == BitcoinConf || f == LightningdConf || f == ElectrsConf);
      FollowsAt(todo, i + 1, if f == BitcoinConf then 4 else if f == LightningdConf then 5 else 6, f);
    }
  }

  lemma NetworkCovered(mainnet: bool, redis: Redis)
    ensures WritesCovered(Program(SetNetwork(mainnet), redis), None)
  {
    var todo := Program(SetNetwork(mainnet), redis);
    forall i, f | 0 <= i < |todo| && Touches(todo[i], f) ensures WriteCovered(todo, i, f, None) {
      assert 0 <= i < 4 && (f == BitcoinConf || f == LightningdConf || f == ElectrsConf);
      FollowsAt(todo, i + 1, if f == BitcoinConf then 5 else if f == LightningdConf then 6 else 7, f);
    }
  }

  lemma ResyncCovered(redis: Redis)
    ensures WritesCovered(Program(Resync, redis), None)
  {
    var todo := Program(Resync, redis);
    FollowsAt(todo, 5, 5, BitcoinConf);
    FollowsAt(todo, 8, 8, BitcoinConf);
    forall i, f | 0 <= i < |todo| && Touches(todo[i], f) ensures WriteCovered(todo, i, f, None) {
      assert (i == 4 || i == 7) && f == BitcoinConf;
    }
  }

  lemma ClearnetOwnCovered(on: bool, last: seq<Op>)
    requires forall j :: 0 <= j < |last| ==> last[j].Restart?
    ensures WritesCovered([Set(IbdClearnet, Bit(on)), Generate(IptablesRules), Generate(BitcoinConf)] + last, None)
  {
    var todo := [Set(IbdClearnet, Bit(on)), Generate(IptablesRules), Generate(BitcoinConf)] + last;
    FollowsAt(todo, 1, 1, IptablesRules);
    FollowsAt(todo, 1, 2, BitcoinConf);
    assert todo[0] == Set(IbdClearnet, Bit(on));
    FirstCovered(todo);
  }

  lemma ClearnetCovered(on: bool, redis: Redis)
    ensures WritesCovered(Program(EnableIbdClearnet(on), redis), None)
  {
    var first := if on && Get(redis, TorBase) == "0" then TorOps(redis, true) else [];
    var last := WhenSetUp(redis, [Restart(Bitcoind, false)]);
    var own := [Set(IbdClearnet, Bit(on)), Generate(IptablesRules), Generate(BitcoinConf)] + last;
    TorCovered(redis, true);
    ClearnetOwnCovered(on, last);
    Joined(first, own, None);
    assert Program(EnableIbdClearnet(on), redis) == first + own;
  }

  lemma IbdCovered(on: bool, redis: Redis)
    ensures WritesCovered(Program(EnableIbd(on), redis), None)
  {
    var stops := if on then [Stop(Lightningd), Stop(Electrs)] else [];
    var cache := DbCacheOps(redis, if on then 2000 else 300);
    var rest := if on then [Set(Ibd, "1")] else [Set(Ibd, "0")] + WhenSetUp(redis, [Start(Lightningd), Start(Electrs)]);
    DbCacheCovered(redis, if on then 2000 else 300);
    Joined(stops, cache, None);
    Joined(stops + cache, rest, None);
    assert Program(EnableIbd(on), redis) == stops + cache + rest;
  }

  lemma FirstCovered(todo: seq<Op>)
    requires forall j :: 1 <= j < |todo| ==> !todo[j].Set?
    requires todo != [] ==> forall f: File :: Touches(todo[0], f) ==> Follows(todo, 1, f)
    ensures WritesCovered(todo, None)
  {}

  lemma IncomingCovered(on: bool, redis: Redis)
    ensures WritesCovered(Program(EnableIncoming(on), redis), None)
  {
    var todo := Program(EnableIncoming(on), redis);
    FollowsAt(todo, 1, 1, BitcoinConf);
    FirstCovered(todo);
  }

  lemma TorBlobCovered(blob: string, redis: Redis)
    ensures WritesCovered(Program(NewTorBlob(blob), redis), None)
  {
    var todo := Program(NewTorBlob(blob), redis);
    FollowsAt(todo, 1, 1, LightningdConf);
    FirstCovered(todo);
  }

  lemma RestCovered(command: Command, redis: Redis)
    requires command.EnableBitcoinServices? || command.EnableTorService? || command.StartBitcoinServices?
          || command.RestartService? || command.ReconfigureAfterUpdate? || command.SetUnrelated?
    ensures WritesCovered(Program(command, redis), None)
  {
    var todo := Program(command, redis);
    assert todo != [] ==> forall f: File :: !Touches(todo[0], f);
    FirstCovered(todo);
  }

  lemma ProgramCovered(command: Command, redis: Redis)
    ensures WritesCovered(Program(command, redis), None)
  {
    match command
    case EnableIbd(on) => IbdCovered(on, redis);
    case EnableIbdClearnet(on) => ClearnetCovered(on, redis);
    case EnableTor(on) => TorCovered(redis, on);
    case SetNetwork(mainnet) => NetworkCovered(mainnet, redis);
    case SetDbCache(megabytes) => DbCacheCovered(redis, megabytes);
    case Resync => ResyncCovered(redis);
    case RefreshCredentials(auth, user, password) => RefreshCovered(auth, user, password);
    case EnableIncoming(on) => IncomingCovered(on, redis);
    case NewTorBlob(blob) => TorBlobCovered(blob, redis);
    case _ => RestCovered(command, redis);
  }

  // --- every step ------------------------------------------------------------------------------------

  lemma FollowsNext(todo: seq<Op>, i: nat, f: File)
    requires todo != [] && Follows(todo, i, f)
    ensures i > 0 ==> Follows(todo[1..], i - 1, f)
    ensures i == 0 && todo[0] != Generate(f) ==> Quiet(todo[0]) && Follows(todo[1..], 0, f)
  {
    var m :| i <= m < |todo| && todo[m] == Generate(f) && forall j :: i <= j < m ==> Quiet(todo[j]);
    if i > 0 || todo[0] != Generate(f) {
      assert todo[1..][m - 1] == Generate(f);
      assert forall j :: 0 <= j < m - 1 ==> todo[1..][j] == todo[j + 1];
    }
  }

  lemma RepeatsNext(todo: seq<Op>, i: nat, tor: Option<string>, tor': Option<string>)
    requires 0 < i < |todo| && SetsTor(todo[i]) && Repeats(todo, i, tor)
    requires tor' == if SetsTor(todo[0]) then Some(todo[0].value) else tor
    ensures SetsTor(todo[1..][i - 1]) && Repeats(todo[1..], i - 1, tor')
  {
    var rest := todo[1..];
    assert forall j :: 0 <= j < |rest| ==> rest[j] == todo[j + 1];
    if !(tor == Some(todo[i].value) && forall j :: 0 <= j < i ==> !SetsTor(todo[j])) {
      var h :| 0 <= h < i && todo[h] == todo[i] && forall j :: h < j < i ==> !SetsTor(todo[j]);
      if h > 0 {
        assert rest[h - 1] == rest[i - 1] && forall j :: h - 1 < j < i - 1 ==> !SetsTor(rest[j]);
      }
    }
  }

  lemma CoveredNext(todo: seq<Op>, tor: Option<string>, tor': Option<string>)
    requires todo != [] && WritesCovered(todo, tor)
    requires tor' == if SetsTor(todo[0]) then Some(todo[0].value) else tor
    ensures WritesCovered(todo[1..], tor')
  {
    var rest := todo[1..];
    forall i, f | 0 <= i < |rest| && Touches(rest[i], f) ensures WriteCovered(rest, i, f, tor') {
      assert rest[i] == todo[i + 1] && WriteCovered(todo, i + 1, f, tor);
      if Follows(todo, i + 2, f) { FollowsNext(todo, i + 2, f); } else { RepeatsNext(todo, i + 1, tor, tor'); }
    }
  }

  lemma FollowsEarlier(todo: seq<Op>, f: File)
    requires todo != [] && Quiet(todo[0])
    ensures Follows(todo, 1, f) ==> Follows(todo, 0, f)
  {
    if Follows(todo, 1, f) {
      var m :| 1 <= m < |todo| && todo[m] == Generate(f) && forall j :: 1 <= j < m ==> Quiet(todo[j]);
      assert forall j :: 0 <= j < m ==> j == 0 || Quiet(todo[j]);
      FollowsAt(todo, 0, m, f);
    }
  }

  lemma WriteSpares(s: State, t: State, key: Key, value: string, f: File)
    requires t.redis == s.redis[key := value] && t.files == s.files
    requires key !in KeysRead(f) || Get(s.redis, key) == value
    ensures InSync(t, f) == InSync(s, f)
  {
    FileFrame(f, s.redis, t.redis);
  }

  lemma WriteKeeps(s: State, t: State, f: File)
    requires s.todo != [] && s.todo[0].Set? && f != Torrc && Promised(s, f)
    requires WritesCovered(s.todo, Some(Get(s.redis, TorBase)))
    requires t.redis == s.redis[s.todo[0].key := s.todo[0].value] && t.todo == s.todo[1..] && t.files == s.files
    ensures Promised(t, f)
  {
    if Follows(s.todo, 0, f) {
      FollowsNext(s.todo, 0, f);
    } else if s.todo[0].key in KeysRead(f) {
      assert Touches(s.todo[0], f) && WriteCovered(s.todo, 0, f, Some(Get(s.redis, TorBase)));
      FollowsEarlier(s.todo, f);
      WriteSpares(s, t, TorBase, s.todo[0].value, f);
    } else {
      WriteSpares(s, t, s.todo[0].key, s.todo[0].value, f);
    }
  }

  lemma QuietOutcome(s: State, ok: bool)
    requires s.todo != [] && Quiet(s.todo[0])
    ensures var t, op := Apply(s, Next(ok)), s.todo[0];
            && t.todo == s.todo[1..]
            && t.redis == (if op.Set? then s.redis[op.key := op.value] else s.redis)
            && t.files == (if op.Set? then s.files else s.files[op.file := Render(TemplateOf(op.file), s.redis)])
  {}

  lemma ServiceLeavesFiles(s: State, op: Op, ok: bool)
    requires !Quiet(op)
    ensures var t := Execute(s, op, ok); t.redis == s.redis && t.files == s.files && (t.todo == [] || t.todo == s.todo)
  {}

  lemma ServiceOutcome(s: State, ok: bool)
    requires s.todo != [] && !Quiet(s.todo[0])
    ensures var t := Apply(s, Next(ok)); t.redis == s.redis && t.files == s.files && (t.todo == [] || t.todo == s.todo[1..])
  {
    ServiceLeavesFiles(s.(todo := s.todo[1..]), s.todo[0], ok);
  }

  lemma GenerateSyncs(s: State, t: State, f: File)
    requires t.redis == s.redis && t.files == s.files[f := Render(TemplateOf(f), s.redis)]
    ensures InSync(t, f)
  {}

  lemma GenerateSpares(s: State, t: State, g: File, content: seq<string>, f: File)
    requires t.redis == s.redis && t.files == s.files[g := content] && f != g
    ensures InSync(t, f) == InSync(s, f)
  {}

  lemma GenerateKeeps(s: State, t: State, f: File)
    requires s.todo != [] && s.todo[0].Generate? && Promised(s, f)
    requires t.redis == s.redis && t.todo == s.todo[1..]
    requires t.files == s.files[s.todo[0].file := Render(TemplateOf(s.todo[0].file), s.redis)]
    ensures Promised(t, f)
  {
    var g := s.todo[0].file;
    if f == g {
      GenerateSyncs(s, t, f);
    } else {
      GenerateSpares(s, t, g, Render(TemplateOf(g), s.redis), f);
      if Follows(s.todo, 0, f) { FollowsNext(s.todo, 0, f); }
    }
  }

  lemma NotYet(todo: seq<Op>, f: File)
    requires todo == [] || !Quiet(todo[0])
    ensures !Follows(todo, 0, f)
  {}

  lemma NextCovered(s: State, ok: bool)
    requires s.todo != [] && WritesCovered(s.todo, Some(Get(s.redis, TorBase)))
    ensures var t := Apply(s, Next(ok)); WritesCovered(t.todo, Some(Get(t.redis, TorBase)))
  {
    if Quiet(s.todo[0]) { QuietOutcome(s, ok); } else { ServiceOutcome(s, ok); }
    var t := Apply(s, Next(ok));
    CoveredNext(s.todo, Some(Get(s.redis, TorBase)),
                if SetsTor(s.todo[0]) then Some(s.todo[0].value) else Some(Get(s.redis, TorBase)));
    assert Get(t.redis, TorBase) == if SetsTor(s.todo[0]) then s.todo[0].value else Get(s.redis, TorBase);
  }

  lemma NextKeeps(s: State, ok: bool)
    requires Inv(s) && s.todo != []
    ensures Inv(Apply(s, Next(ok)))
  {
    var t := Apply(s, Next(ok));
    if Quiet(s.todo[0]) { QuietOutcome(s, ok); } else { ServiceOutcome(s, ok); }
    forall f: File | f != Torrc ensures Promised(t, f) {
      assert Promised(s, f);
      if s.todo[0].Set? { WriteKeeps(s, t, f); }
      else if s.todo[0].Generate? { GenerateKeeps(s, t, f); }
      else { NotYet(s.todo, f); }
    }
    NextCovered(s, ok);
  }

  lemma Settled(s: State)
    requires Inv(s) && (s.todo == [] || !Quiet(s.todo[0]))
    ensures forall f: File :: f != Torrc ==> InSync(s, f)
  {
    forall f: File | f != Torrc ensures InSync(s, f) {
      assert Promised(s, f);
      NotYet(s.todo, f);
    }
  }

  /** Restores and reboots that change Redis behind the files' back are not part of the promise, nor
      is a power loss between a write and the generation it calls for. */
  predicate Orderly(s: State, e: Event) {
    && (e.Reboot? ==> e.redis == s.redis && (s.todo == [] || !Quiet(s.todo[0])))
    && (e.Restore? ==> e.redis == s.redis)
  }

  lemma FollowsBehind(prefix: seq<Op>, todo: seq<Op>, f: File)
    requires Follows(todo, 0, f) && forall j :: 0 <= j < |prefix| ==> Quiet(prefix[j])
    ensures Follows(prefix + todo, 0, f)
  {
    var m :| 0 <= m < |todo| && todo[m] == Generate(f) && forall j :: 0 <= j < m ==> Quiet(todo[j]);
    var all := prefix + todo;
    assert all[|prefix| + m] == Generate(f);
    assert forall j :: 0 <= j < |prefix| + m ==> all[j] == if j < |prefix| then prefix[j] else todo[j - |prefix|];
    FollowsAt(all, 0, |prefix| + m, f);
  }

  lemma CredentialsCovered(s: State, auth: string, user: string, password: string)
    requires WritesCovered(s.todo, Some(Get(s.redis, TorBase)))
    ensures WritesCovered(RefreshOps(auth, user, password) + s.todo, Some(Get(s.redis, TorBase)))
  {
    var ops := RefreshOps(auth, user, password);
    RefreshCovered(auth, user, password);
    Later(ops, Some(Get(s.redis, TorBase)));
    assert forall j :: 0 <= j < |ops| ==> !SetsTor(ops[j]);
    Joined(ops, s.todo, Some(Get(s.redis, TorBase)));
  }

  lemma CredentialsKeep(s: State, auth: string, user: string, password: string)
    requires Inv(s)
    ensures Inv(Apply(s, NewCredentials(auth, user, password)))
  {
    var ops, t := RefreshOps(auth, user, password), Apply(s, NewCredentials(auth, user, password));
    CredentialsCovered(s, auth, user, password);
    forall f: File | f != Torrc ensures Promised(t, f) {
      assert Promised(s, f) && InSync(t, f) == InSync(s, f);
      if Follows(s.todo, 0, f) { FollowsBehind(ops, s.todo, f); }
    }
  }

  lemma IssueKeeps(s: State, command: Command)
    requires Inv(s) && s.todo == []
    ensures Inv(Apply(s, Issue(command)))
  {
    ProgramCovered(command, s.redis);
    Later(Program(command, s.redis), Some(Get(s.redis, TorBase)));
    Settled(s);
    assert forall f: File :: InSync(Apply(s, Issue(command)), f) == InSync(s, f);
  }

  /** A step that leaves Redis and the files alone and ends the running command, or lets it be. */
  lemma QuietKeeps(s: State, t: State)
    requires Inv(s) && t.redis == s.redis && t.files == s.files
    requires t.todo == s.todo || (t.todo == [] && (s.todo == [] || !Quiet(s.todo[0])))
    ensures Inv(t)
  {
    if t.todo != s.todo { Settled(s); }
    forall f: File | f != Torrc ensures Promised(t, f) { assert Promised(s, f) && InSync(t, f) == InSync(s, f); }
  }

  lemma StepKeeps(s: State, e: Event)
    requires Inv(s) && Enabled(s, e) && Orderly(s, e)
    ensures Inv(Apply(s, e))
  {
    match e
    case Issue(command) => IssueKeeps(s, command);
    case Next(ok) => NextKeeps(s, ok);
    case NewCredentials(auth, user, password) => CredentialsKeep(s, auth, user, password);
    case _ => QuietKeeps(s, Apply(s, e));
  }

  predicate OrderlyRun(s: State, run: seq<Event>)
    requires Valid(s, run)
    decreases |run|
  {
    run == [] || (Orderly(s, run[0]) && OrderlyRun(Apply(s, run[0]), run[1..]))
  }

  /** Main result: after any run of commands, completed or broken off by a failing service, with
      services dying and restarting in between, the four files equal their templates applied to the
      current Redis values whenever no command is running, and at every point where one can fail. */
  lemma {:induction false} FilesAreViews(s: State, run: seq<Event>)
    requires Inv(s) && Valid(s, run) && OrderlyRun(s, run)
    ensures Inv(After(s, run))
    ensures var t := After(s, run);
            t.todo == [] || !Quiet(t.todo[0]) ==> forall f: File :: f != Torrc ==> InSync(t, f)
    decreases |run|
  {
    if run != [] {
      StepKeeps(s, run[0]);
      FilesAreViews(Apply(s, run[0]), run[1..]);
    } else if s.todo == [] || !Quiet(s.todo[0]) {
      Settled(s);
    }
  }

  /** Running bbbconfgen on the template's text writes exactly the file that is there. */
  predicate AsGenerated(s: State, file: File, store: T.Store) {
    var r := T.Generate(TemplateText(TemplateOf(file)), store);
    file in s.files && !r.crashed && r.output == Unlines(s.files[file])
  }

  lemma SyncedIsGenerated(s: State, file: File, store: T.Store)
    requires InSync(s, file) && Agrees(store, s.redis, KeysRead(file))
    ensures AsGenerated(s, file, store)
  {
    GeneratesFile(file, store, s.redis);
  }

  lemma SettledIsGenerated(s: State, file: File, store: T.Store)
    requires Inv(s) && (s.todo == [] || !Quiet(s.todo[0])) && file != Torrc
    requires Agrees(store, s.redis, KeysRead(file))
    ensures AsGenerated(s, file, store)
  {
    Settled(s);
    SyncedIsGenerated(s, file, store);
  }

  /** Main result, in terms of the program that writes the files: at the same points of any such run,
      running bbbconfgen on the template's text with a store that holds the current values, none of
      which can open a placeholder, writes exactly the file that is there. */
  lemma FilesAreGenerated(s: State, run: seq<Event>, file: File, store: T.Store)
    requires Inv(s) && Valid(s, run) && OrderlyRun(s, run) && file != Torrc
    requires After(s, run).todo == [] || !Quiet(After(s, run).todo[0])
    requires Agrees(store, After(s, run).redis, KeysRead(file))
    ensures AsGenerated(After(s, run), file, store)
  {
    FilesAreViews(s, run);
    SettledIsGenerated(After(s, run), file, store);
  }
}
