/** The middleware's over-the-air update: UpdateBase, the progress it publishes and the notifications
    with which a finished update is announced. */
module BaseUpdate {
  import opened Options
  import opened ProgressLine
  import RpcConn

  datatype UpdateState = NotInProgress | Downloading | Failed | Applying | Rebooting

  datatype UpdateProgress = UpdateProgress(state: UpdateState, percentage: int, downloadedKiB: int)

  const IDLE := UpdateProgress(NotInProgress, 0, 0)

  datatype ErrorCode = AlreadyInProgress | InstallFailed | ScriptError(code: string) | ExecutableNotFound

  datatype Response = Success | Failure(code: ErrorCode)

  /** How the installer and the system behave during one call. */
  datatype World = World(
    starts: bool,               // both pipes are set up and the command starts
    lines: seq<string>,         // the lines read from its output
    readFails: bool,            // reading ends with an error instead of the end of the output
    exit: Option<string>,       // error code if the command fails
    canReboot: bool)            // the reboot executable is found

  datatype Event = Event(identifier: string, queueIfNoClient: bool)

  const PROGRESS_CHANGED := Event("u", true)

  predicate Busy(p: UpdateProgress) { p.state.Downloading? || p.state.Applying? || p.state.Rebooting? }

  /** The progress published for a progress line. */
  function Published(p: Progress): UpdateProgress {
    UpdateProgress(if p.percentage < 98 then Downloading else Applying, p.percentage, p.downloadedKiB)
  }

  function ParseAll(lines: seq<string>): seq<Option<Progress>> {
    seq(|lines|, i requires 0 <= i < |lines| => ParseLine(lines[i]))
  }

  /** The progress published for the parsed output, line by line. */
  function PublishedFor(output: seq<Option<Progress>>): seq<UpdateProgress> {
    if output == [] then []
    else
      PublishedFor(output[..|output| - 1])
      + (match output[|output| - 1] case Some(p) => [Published(p)] case None => [])
  }

  /** The progress after the output. */
  function LastPublished(before: UpdateProgress, output: seq<Option<Progress>>): UpdateProgress {
    var published := PublishedFor(output);
    if published == [] then before else published[|published| - 1]
  }

  lemma PublishedNext(before: UpdateProgress, output: seq<Option<Progress>>, i: nat)
    requires i < |output|
    ensures var now, next := PublishedFor(output[..i]), PublishedFor(output[..i + 1]);
            next == now + (if output[i].Some? then [Published(output[i].value)] else [])
    ensures LastPublished(before, output[..i + 1])
         == if output[i].Some? then Published(output[i].value) else LastPublished(before, output[..i])
  {
    assert output[..i + 1][..i] == output[..i];
  }

  predicate Installs(w: World) { !w.readFails && w.exit.None? }

  /** The progress at the end of a started call. */
  function Final(before: UpdateProgress, w: World): UpdateProgress {
    LastPublished(before, ParseAll(w.lines)).(state := if Installs(w) then Rebooting else Failed)
  }

  function Answer(before: UpdateProgress, w: World): Response {
    if Busy(before) then Failure(AlreadyInProgress)
    else if !w.starts || w.readFails then Failure(InstallFailed)
    else if w.exit.Some? then Failure(ScriptError(w.exit.value))
    else if !w.canReboot then Failure(ExecutableNotFound)
    else Success
  }

  predicate Starts(before: UpdateProgress, w: World) { !Busy(before) && w.starts }

  class Middleware {
    var progress: UpdateProgress
    /** The events sent, and the progress an app asking at that moment is told. */
    var events: seq<Event>
    ghost var shown: seq<UpdateProgress>
    var rebootScheduled: bool

    /** Every progress event is queued for apps yet to connect. */
    ghost predicate Valid()
      reads this
    {
      |events| == |shown| && forall i :: 0 <= i < |events| ==> events[i] == Event("u", true)
    }

    constructor ()
      ensures Valid() && progress == IDLE && shown == [] && !rebootScheduled
    {
      progress, events, shown, rebootScheduled := IDLE, [], [], false;
    }

    /** setBaseUpdateStateAndNotify */
    method SetStateAndNotify(state: UpdateState)
      requires Valid()
      modifies this`progress, this`events, this`shown
      ensures Valid() && progress == old(progress).(state := state) && shown == old(shown) + [progress]
    {
      progress := progress.(state := state);
      events := events + [PROGRESS_CHANGED];
      shown := shown + [progress];
    }

    /** RebootBase, as far as the answer goes. */
    method RebootBase(canReboot: bool) returns (response: Response)
      modifies this`rebootScheduled
      ensures response == (if canReboot then Success else Failure(ExecutableNotFound))
      ensures rebootScheduled == (old(rebootScheduled) || canReboot)
    {
      if !canReboot {
        return Failure(ExecutableNotFound);
      }
      rebootScheduled := true;
      return Success;
    }

    /** What one line of the output changes. */
    method FollowLine(parsed: Option<Progress>)
      requires Valid()
      modifies this`progress, this`events, this`shown
      ensures Valid()
      ensures parsed.None? ==> progress == old(progress) && shown == old(shown)
      ensures parsed.Some? ==> progress == Published(parsed.value) && shown == old(shown) + [progress]
    {
      match parsed {
        case Some(Progress(percentage, downloadedKiB)) =>
          progress := progress.(percentage := percentage, downloadedKiB := downloadedKiB);
          if percentage < 98 {
            SetStateAndNotify(Downloading);
          } else {
            SetStateAndNotify(Applying);
          }
        case None =>
      }
    }

    /** The loop over the installer's output. */
    method FollowOutput(lines: seq<string>)
      requires Valid()
      modifies this`progress, this`events, this`shown
      ensures Valid() && shown == old(shown) + PublishedFor(ParseAll(lines))
      ensures progress == LastPublished(old(progress), ParseAll(lines))
    {
      ghost var output := ParseAll(lines);
      for i := 0 to |lines|
        invariant Valid()
        invariant shown == old(shown) + PublishedFor(output[..i])
        invariant progress == LastPublished(old(progress), output[..i])
      {
        var parsed := ParseLine(lines[i]);
        PublishedNext(old(progress), output, i);
        FollowLine(parsed);
      }
      assert output[..|lines|] == output;
    }

    /** UpdateBase */
    method UpdateBase(w: World) returns (response: Response)
      requires Valid()
      modifies this
      ensures Valid() && response == Answer(old(progress), w)
      ensures progress == if Starts(old(progress), w) then Final(old(progress), w) else old(progress)
      ensures shown == old(shown) + if Starts(old(progress), w) then PublishedFor(ParseAll(w.lines)) + [progress] else []
      ensures rebootScheduled == (old(rebootScheduled) || response.Success?)
    {
      if progress.state == Downloading || progress.state == Applying || progress.state == Rebooting {
        return Failure(AlreadyInProgress);
      }
      if !w.starts {
        return Failure(InstallFailed);
      }
      FollowOutput(w.lines);
      if w.readFails {
        SetStateAndNotify(Failed);
        return Failure(InstallFailed);
      }
      if w.exit.Some? {
        SetStateAndNotify(Failed);
        return Failure(ScriptError(w.exit.value));
      }
      SetStateAndNotify(Rebooting);
      response := RebootBase(w.canReboot);
    }
  }

  // --- one call --------------------------------------------------------------------------------------

  function ProgressLines(output: seq<Option<Progress>>): nat {
    if output == [] then 0 else ProgressLines(output[..|output| - 1]) + if output[|output| - 1].Some? then 1 else 0
  }

  /** Line `i` is the last one with progress. */
  predicate IsLastProgress(output: seq<Option<Progress>>, i: int) {
    0 <= i < |output| && output[i].Some? && forall j :: i < j < |output| ==> output[j].None?
  }

  /** What the k-th progress line announces: its two numbers, and Downloading up to 97 percent. */
  predicate Announces(shown: UpdateProgress, p: Progress) {
    && shown.percentage == p.percentage && shown.downloadedKiB == p.downloadedKiB
    && shown.state == if p.percentage < 98 then Downloading else Applying
  }

  lemma {:induction false} PublishesEveryProgressLine(output: seq<Option<Progress>>)
    ensures |PublishedFor(output)| == ProgressLines(output)
    ensures forall i :: 0 <= i < |PublishedFor(output)|
              ==> PublishedFor(output)[i].state.Downloading? || PublishedFor(output)[i].state.Applying?
  {
    if output != [] { PublishesEveryProgressLine(output[..|output| - 1]); }
  }

  lemma {:induction false} PublishesInPlace(output: seq<Option<Progress>>, i: nat)
    requires i < |output| && output[i].Some?
    ensures ProgressLines(output[..i]) < |PublishedFor(output)|
    ensures Announces(PublishedFor(output)[ProgressLines(output[..i])], output[i].value)
  {
    var n := |output| - 1;
    PublishesEveryProgressLine(output[..n]);
    if i < n {
      assert output[..n][..i] == output[..i];
      PublishesInPlace(output[..n], i);
    }
  }

  /** The line whose progress is announced as number `k`. */
  lemma {:induction false} LineAnnounced(output: seq<Option<Progress>>, k: nat) returns (i: nat)
    requires k < ProgressLines(output)
    ensures i < |output| && output[i].Some? && ProgressLines(output[..i]) == k
  {
    var n := |output| - 1;
    if k < ProgressLines(output[..n]) {
      i := LineAnnounced(output[..n], k);
      assert output[..n][..i] == output[..i];
    } else {
      i := n;
    }
  }

  lemma {:induction false} LastPublishedIsLastProgress(before: UpdateProgress, output: seq<Option<Progress>>, i: int)
    requires IsLastProgress(output, i)
    ensures LastPublished(before, output) == Published(output[i].value)
  {
    var n := |output| - 1;
    if i < n {
      assert output[n].None?;
      assert IsLastProgress(output[..n], i);
      LastPublishedIsLastProgress(before, output[..n], i);
    }
  }

  lemma {:induction false} NothingPublished(before: UpdateProgress, output: seq<Option<Progress>>)
    requires forall i :: 0 <= i < |output| ==> output[i].None?
    ensures LastPublished(before, output) == before
  {
    if output != [] {
      NothingPublished(before, output[..|output| - 1]);
    }
  }

  /** The progress that a call publishes, in order. */
  function Shown(before: UpdateProgress, w: World): seq<UpdateProgress> {
    if Starts(before, w) then PublishedFor(ParseAll(w.lines)) + [Final(before, w)] else []
  }

  /** The states in which a call may begin. */
  predicate IsIdle(before: UpdateProgress) { before.state == NotInProgress || before.state == Failed }

  /** Main result: a started call publishes its progress lines and one more event and ends in Failed or
      Rebooting, having published only Downloading and Applying before; a call that is rejected or
      cannot start publishes nothing. */
  lemma CallPublishes(before: UpdateProgress, w: World)
    ensures var n := ProgressLines(ParseAll(w.lines));
            |Shown(before, w)| == (if IsIdle(before) && w.starts then n + 1 else 0)
            && (IsIdle(before) && w.starts
                ==> Shown(before, w)[n].state == if !w.readFails && w.exit.None? then Rebooting else Failed)
    ensures forall i :: 0 <= i < |Shown(before, w)| - 1
              ==> Shown(before, w)[i].state.Downloading? || Shown(before, w)[i].state.Applying?
  {
    PublishesEveryProgressLine(ParseAll(w.lines));
  }

  /** Main result: the k-th progress published belongs to the k-th line with progress, carries its two
      numbers, and says Downloading if its percentage is below 98 and Applying from there on. */
  lemma CallAnnouncesLine(before: UpdateProgress, w: World, k: nat) returns (i: nat)
    requires IsIdle(before) && w.starts && k < ProgressLines(ParseAll(w.lines))
    ensures i < |w.lines| && ProgressLines(ParseAll(w.lines)[..i]) == k
    ensures match ParseLine(w.lines[i])
            case None => false
            case Some(p) =>
              k < |Shown(before, w)| - 1
              && Shown(before, w)[k]
                 == UpdateProgress(if p.percentage < 98 then Downloading else Applying, p.percentage, p.downloadedKiB)
  {
    i := LineAnnounced(ParseAll(w.lines), k);
    PublishesEveryProgressLine(ParseAll(w.lines));
    PublishesInPlace(ParseAll(w.lines), i);
  }

  /** The same from the line, as the installer prints it. */
  lemma CallAnnouncesPrinted(before: UpdateProgress, w: World, i: nat, padding: string, percentage: int, downloadedKiB: int)
    requires IsIdle(before) && w.starts && i < |w.lines|
    requires AllSpace(padding) && InRange(percentage) && InRange(downloadedKiB)
    requires w.lines[i] == PrintedLine(padding, percentage, downloadedKiB)
    ensures var k := ProgressLines(ParseAll(w.lines)[..i]);
            k < |Shown(before, w)| - 1
            && Shown(before, w)[k]
               == UpdateProgress(if percentage < 98 then Downloading else Applying, percentage, downloadedKiB)
  {
    ParsesPrinted(padding, percentage, downloadedKiB);
    PublishesEveryProgressLine(ParseAll(w.lines));
    PublishesInPlace(ParseAll(w.lines), i);
  }

  /** Main result: what a call answers, in the order in which things can go wrong. */
  lemma CallAnswers(before: UpdateProgress, w: World)
    ensures Answer(before, w) == Failure(AlreadyInProgress)
        <==> before.state == Downloading || before.state == Applying || before.state == Rebooting
    ensures Answer(before, w) == Failure(InstallFailed) <==> IsIdle(before) && (!w.starts || w.readFails)
    ensures forall code :: (Answer(before, w) == Failure(ScriptError(code))
                            <==> IsIdle(before) && w.starts && !w.readFails && w.exit == Some(code))
    ensures Answer(before, w) == Failure(ExecutableNotFound)
        <==> IsIdle(before) && w.starts && !w.readFails && w.exit == None && !w.canReboot
    ensures Answer(before, w) == Success
        <==> IsIdle(before) && w.starts && !w.readFails && w.exit == None && w.canReboot
  {}

  /** Main result: a call ends with the numbers of the last progress line, if there is one. */
  lemma CallKeepsLastNumbers(before: UpdateProgress, w: World, i: int)
    ensures IsLastProgress(ParseAll(w.lines), i)
        ==> Final(before, w).percentage == ParseAll(w.lines)[i].value.percentage
            && Final(before, w).downloadedKiB == ParseAll(w.lines)[i].value.downloadedKiB
    ensures (forall j :: 0 <= j < |w.lines| ==> ParseAll(w.lines)[j].None?)
        ==> Final(before, w).percentage == before.percentage && Final(before, w).downloadedKiB == before.downloadedKiB
  {
    var output := ParseAll(w.lines);
    if IsLastProgress(output, i) { LastPublishedIsLastProgress(before, output, i); }
    if forall j :: 0 <= j < |output| ==> output[j].None? { NothingPublished(before, output); }
  }

  // --- calls one after the other -----------------------------------------------------------------------

  function After(calls: seq<World>): UpdateProgress {
    if calls == [] then IDLE
    else
      var before, w := After(calls[..|calls| - 1]), calls[|calls| - 1];
      if Starts(before, w) then Final(before, w) else before
  }

  /** The call installs the update, if it gets to run. */
  predicate Succeeds(w: World) { w.starts && !w.readFails && w.exit.None? }

  /** Main result: over calls one after the other, the state between calls is never that of an update
      under way; it is Rebooting from the first call on whose command started and succeeded, whatever
      is called afterwards, and until then every failure permits another try. */
  lemma {:induction false} RebootingIsAbsorbing(calls: seq<World>)
    ensures After(calls).state.Rebooting? <==> exists i :: 0 <= i < |calls| && Succeeds(calls[i])
    ensures Busy(After(calls)) <==> After(calls).state.Rebooting?
    ensures !Busy(After(calls)) ==> (After(calls).state.Failed? <==> exists i :: 0 <= i < |calls| && calls[i].starts)
  {
    if calls != [] {
      var n := |calls| - 1;
      RebootingIsAbsorbing(calls[..n]);
      assert forall i :: 0 <= i < n ==> calls[..n][i] == calls[i];
    }
  }

  /** A call answers "in progress" exactly if an earlier one has installed an update, even when no
      reboot could be scheduled then. */
  lemma RejectedIffInstalled(calls: seq<World>, w: World)
    ensures Answer(After(calls), w) == Failure(AlreadyInProgress) <==> exists i :: 0 <= i < |calls| && Succeeds(calls[i])
  {
    RebootingIsAbsorbing(calls);
  }

  // --- ipcNotificationLoop -------------------------------------------------------------------------------

  /** A notification; `success` is what its payload parses to, if it does. */
  datatype Notification = Notification(version: int, topic: string, success: Option<bool>)

  const SUPPORTED_VERSION := 1

  predicate IsSupported(n: Notification) { n.version == SUPPORTED_VERSION }

  /** An update notification whose payload can be parsed. */
  predicate IsUpdate(n: Notification) { n.topic == "mender-update" && n.success.Some? }

  function EventsFor(n: Notification): seq<Event> {
    if IsUpdate(n) then [Event(if n.success.value then "a" else "b", true)] else []
  }

  function EventsForAll(notifications: seq<Notification>): seq<Event> {
    if notifications == [] then []
    else EventsForAll(notifications[..|notifications| - 1]) + EventsFor(notifications[|notifications| - 1])
  }

  datatype Kind = Update | NoUpdate | Unsupported | SupportedUpdate | UnsupportedUpdate

  predicate IsKind(n: Notification, kind: Kind) {
    match kind
    case Update => IsUpdate(n)
    case NoUpdate => !IsUpdate(n)
    case Unsupported => !IsSupported(n)
    case SupportedUpdate => IsUpdate(n) && IsSupported(n)
    case UnsupportedUpdate => IsUpdate(n) && !IsSupported(n)
  }

  /** How many of the notifications are of the kind. */
  function CountOf(notifications: seq<Notification>, kind: Kind): nat {
    if notifications == [] then 0
    else
      CountOf(notifications[..|notifications| - 1], kind) + if IsKind(notifications[|notifications| - 1], kind) then 1 else 0
  }

  /** What the loop reports: one line for a version that is not supported, one for a topic that is not
      known or a payload that cannot be parsed. */
  function Reports(notifications: seq<Notification>): nat {
    CountOf(notifications, Unsupported) + CountOf(notifications, NoUpdate)
  }

  /** Main result: an update notification that can be parsed adds its event, "a" for a success and "b" for a
      failure, whatever its version; any other adds a report, and so does any version but 1. */
  lemma ReportsNext(notifications: seq<Notification>, n: Notification)
    ensures EventsForAll([]) == [] && Reports([]) == 0
    ensures EventsForAll(notifications + [n])
         == EventsForAll(notifications)
            + if n.topic == "mender-update" && n.success == Some(true) then [Event("a", true)]
              else if n.topic == "mender-update" && n.success == Some(false) then [Event("b", true)]
              else []
    ensures Reports(notifications + [n])
         == Reports(notifications) + (if n.version == 1 then 0 else 1)
            + (if n.topic == "mender-update" && n.success.Some? then 0 else 1)
  {
    var all := notifications + [n];
    assert all[..|all| - 1] == notifications;
  }

  /** The loop, as long as notifications come. */
  method NotificationLoop(notifications: seq<Notification>) returns (events: seq<Event>, reports: nat)
    ensures events == EventsForAll(notifications) && reports == Reports(notifications)
  {
    events, reports := [], 0;
    for i := 0 to |notifications|
      invariant events == EventsForAll(notifications[..i]) && reports == Reports(notifications[..i])
    {
      var n := notifications[i];
      assert notifications[..i + 1] == notifications[..i] + [n];
      ReportsNext(notifications[..i], n);
      if n.version != SUPPORTED_VERSION { reports := reports + 1; }
      if n.topic == "mender-update" {
        match n.success {
          case Some(success) => events := events + [Event(if success then "a" else "b", true)];
          case None => reports := reports + 1;
        }
      } else {
        reports := reports + 1;
      }
    }
    assert notifications[..|notifications|] == notifications;
  }

  /** The notifications that the loop means to process. */
  function Supported(notifications: seq<Notification>): seq<Notification> {
    if notifications == [] then []
    else
      var n := notifications[|notifications| - 1];
      Supported(notifications[..|notifications| - 1]) + if IsSupported(n) then [n] else []
  }

  lemma SupportedNext(rest: seq<Notification>, n: Notification)
    ensures Supported(rest + [n]) == if IsSupported(n) then Supported(rest) + [n] else Supported(rest)
    ensures EventsForAll(Supported(rest + [n]))
         == if IsSupported(n) then EventsForAll(Supported(rest)) + EventsFor(n) else EventsForAll(Supported(rest))
  {
    var all := rest + [n];
    assert all[..|all| - 1] == rest;
    assert Supported(rest) + [] == Supported(rest);
    ReportsNext(Supported(rest), n);
  }

  lemma {:induction false} EventsCounted(notifications: seq<Notification>)
    ensures |EventsForAll(notifications)| == CountOf(notifications, Update)
    ensures |EventsForAll(Supported(notifications))| == CountOf(notifications, SupportedUpdate)
  {
    if notifications != [] {
      var rest, n := notifications[..|notifications| - 1], notifications[|notifications| - 1];
      assert notifications == rest + [n];
      EventsCounted(rest);
      SupportedNext(rest, n);
    }
  }

  lemma {:induction false} UnsupportedUpdatesCounted(notifications: seq<Notification>)
    ensures CountOf(notifications, Update)
         == CountOf(notifications, SupportedUpdate) + CountOf(notifications, UnsupportedUpdate)
    ensures CountOf(notifications, UnsupportedUpdate) == 0
        <==> forall n :: n in notifications && IsUpdate(n) ==> IsSupported(n)
  {
    if notifications != [] {
      var rest, n := notifications[..|notifications| - 1], notifications[|notifications| - 1];
      UnsupportedUpdatesCounted(rest);
      assert notifications == rest + [n];
    }
  }

  lemma {:induction false} SupportedUpdatesSuffice(notifications: seq<Notification>)
    requires forall n :: n in notifications && IsUpdate(n) ==> IsSupported(n)
    ensures EventsForAll(Supported(notifications)) == EventsForAll(notifications)
  {
    if notifications != [] {
      var rest, n := notifications[..|notifications| - 1], notifications[|notifications| - 1];
      assert n in notifications && forall m :: m in rest ==> m in notifications;
      assert notifications == rest + [n];
      SupportedUpdatesSuffice(rest);
      SupportedNext(rest, n);
      assert !IsUpdate(n) ==> EventsForAll(rest) + EventsFor(n) == EventsForAll(rest);
    }
  }

  /** Main result: dropping notifications of unsupported versions would change nothing if and only if
      every update notification that can be parsed has the supported version. Otherwise the loop
      announces what it reports as dropped. */
  lemma DropsUnsupportedIff(notifications: seq<Notification>)
    ensures EventsForAll(notifications) == EventsForAll(Supported(notifications))
        <==> forall n :: n in notifications && IsUpdate(n) ==> IsSupported(n)
  {
    EventsCounted(notifications);
    UnsupportedUpdatesCounted(notifications);
    if forall n :: n in notifications && IsUpdate(n) ==> IsSupported(n) { SupportedUpdatesSuffice(notifications); }
  }

  lemma {:induction false} UpdatesAndOthers(notifications: seq<Notification>)
    ensures CountOf(notifications, Update) + CountOf(notifications, NoUpdate) == |notifications|
  {
    if notifications != [] { UpdatesAndOthers(notifications[..|notifications| - 1]); }
  }

  /** Main result: events and reports together exceed the notifications by those of unsupported version,
      each of which is reported once and then treated like any other. */
  lemma EventsAndReports(notifications: seq<Notification>)
    ensures |EventsForAll(notifications)| + Reports(notifications)
         == |notifications| + CountOf(notifications, Unsupported)
  {
    EventsCounted(notifications);
    UpdatesAndOthers(notifications);
  }

  /** It happens: a success of version 2 is reported as dropped and announced. */
  lemma UnsupportedIsAnnounced()
    ensures var n := Notification(2, "mender-update", Some(true));
            Reports([n]) == 1 && EventsForAll([n]) == [Event("a", true)] && EventsForAll(Supported([n])) == []
  {
    var n := Notification(2, "mender-update", Some(true));
    assert [] + [n] == [n] && IsUpdate(n) && !IsSupported(n);
    ReportsNext([], n);
    SupportedNext([], n);
    assert [] + EventsFor(n) == EventsFor(n);
  }

  /** What these events carry to the apps is told apart from RPC traffic on the same connection. */
  lemma {:induction false} EventsAreNotifications(notifications: seq<Notification>)
    ensures forall e :: e in EventsForAll(notifications) + [PROGRESS_CHANGED]
              ==> RpcConn.IsNotification(e.identifier) && e.identifier[0] != 'r' && e.queueIfNoClient
  {
    if notifications != [] { EventsAreNotifications(notifications[..|notifications| - 1]); }
  }
}
