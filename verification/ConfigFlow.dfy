/** Wi-Fi credentials on their way through the provisioning commands: wifi_config.c checks a
    set command and fills the request structure, handlers.c keeps it in the one context it
    owns, manager.c hands it to the driver and moves its state. */
module ConfigFlow {
  import opened CStrings
  import opened ProvStates
  import opened Seqs

  /** A set command as it is received. */
  datatype Request = Request(ssid: string, passphrase: string, bssid: string, channel: nat,
                             softapSsid: string, softapPassphrase: string, meshId: nat)

  datatype MeshConfig = MeshConfig(ssid: string, password: string, meshId: nat)

  /** The credentials in the buffers of wifi_config_t (32 and 64 bytes), and the mesh part. */
  datatype Config = Config(ssid: string, password: string, mesh: MeshConfig)

  datatype Status = Success | InternalError | InvalidArgument

  const SSID_MAX := 32
  const PASSWORD_SIZE := 64

  /** The lengths nobody checks: they must fit the request structure. */
  predicate WellFormed(r: Request)
  {
    |r.softapSsid| <= SSID_MAX && |r.softapPassphrase| < PASSWORD_SIZE
  }

  type ClientRequest = r: Request | WellFormed(r) witness Request("", "", "", 0, "", "", 0)

  predicate Acceptable(r: Request)
  {
    && (|r.bssid| == 0 || |r.bssid| == 6)
    && |r.ssid| <= SSID_MAX
    && |r.passphrase| < PASSWORD_SIZE
  }

  /** What the context holds after an acceptable set command. */
  function ConfigOf(r: Request): Config
    requires WellFormed(r) && Acceptable(r)
  {
    Config(Padded(CString(r.ssid, SSID_MAX), SSID_MAX), Padded(CString(r.passphrase, PASSWORD_SIZE - 1), PASSWORD_SIZE),
           MeshConfig(Padded(r.softapSsid, SSID_MAX), Padded(r.softapPassphrase, PASSWORD_SIZE), r.meshId))
  }

  /** The driver reads at most 32 characters of the SSID and the password up to its terminator;
      it reads what the client sent. */
  lemma DriverReads(r: Request)
    requires WellFormed(r) && Acceptable(r)
    ensures CString(ConfigOf(r).ssid, SSID_MAX) == CString(r.ssid, SSID_MAX)
    ensures CString(ConfigOf(r).password, PASSWORD_SIZE) == CString(r.passphrase, PASSWORD_SIZE)
    ensures '\0' !in r.ssid ==> CString(ConfigOf(r).ssid, SSID_MAX) == r.ssid
    ensures '\0' !in r.passphrase ==> CString(ConfigOf(r).password, PASSWORD_SIZE) == r.passphrase
  {
    var ssid, password := CString(r.ssid, SSID_MAX), CString(r.passphrase, PASSWORD_SIZE - 1);
    CStringPadded(ssid, SSID_MAX, SSID_MAX);
    CStringUnique(ssid, SSID_MAX, ssid);
    CStringPadded(password, PASSWORD_SIZE, PASSWORD_SIZE);
    CStringUnique(password, PASSWORD_SIZE, password);
    CStringUnique(r.passphrase, PASSWORD_SIZE, password);
  }

  /** And the mesh part holds the strings the client sent, padded with NULs to their buffers. */
  lemma MeshReads(r: Request)
    requires WellFormed(r) && Acceptable(r)
    ensures var m := ConfigOf(r).mesh;
      && |m.ssid| == SSID_MAX && m.ssid[..|r.softapSsid|] == r.softapSsid
      && (forall i :: |r.softapSsid| <= i < SSID_MAX ==> m.ssid[i] == '\0')
      && |m.password| == PASSWORD_SIZE && m.password[..|r.softapPassphrase|] == r.softapPassphrase
      && (forall i :: |r.softapPassphrase| <= i < PASSWORD_SIZE ==> m.password[i] == '\0')
      && m.meshId == r.meshId
  {
  }

  // ---- the flow, as a state machine over what a client, the station and the application do

  datatype Cmd =
    | Start
    | Set(request: ClientRequest)
    | Apply(driverOk: bool)
    | Reset(driverOk: bool)
    | Reprovision(driverOk: bool)
    | Disconnected(expected: bool) // the reason is one of those the handler lists
    | GotIp
    | Stop                         // wifi_prov_mgr_stop_provisioning
    | TimerFires(posted: bool)     // the cleanup timer that a stop has started
    | Cleanup                      // dispatch of the stop event that the timer has posted
    | DisableAutoStop

  /** endpoint: the prov-config endpoint exists, so requests arrive. up: the connect timer
      exists and station events are heard. armed: the cleanup timer runs. stops: stop events
      posted and not yet dispatched. */
  datatype Flow = Flow(prov: Prov, pending: Option<Config>, noAutoStop: bool, endpoint: bool, up: bool,
                       armed: bool, stops: nat)

  /** The callbacks an application sees. */
  datatype Notice =
    | ServiceStarted
    | CredentialsReceived(config: Config)
    | CustomData(mesh: MeshConfig)
    | CredentialsFailed
    | CredentialsSuccess
    | ServiceEnded

  /** The set command that replaces the context. */
  predicate Takes(s: Flow, cmd: Cmd)
  {
    s.endpoint && cmd.Set? && Acceptable(cmd.request)
  }

  /** The configuration an apply command hands to the driver with success. */
  function Accepted(s: Flow, cmd: Cmd): Option<Config>
  {
    if cmd.Apply? && s.endpoint && !Received(s.prov) && s.up && cmd.driverOk then s.pending else None
  }

  predicate Starts(s: Flow, cmd: Cmd)
  {
    cmd.Start? && s.prov == Idle
  }

  predicate Resets(s: Flow, cmd: Cmd)
  {
    cmd.Reset? && s.prov == Failed && cmd.driverOk
  }

  predicate Reprovisions(s: Flow, cmd: Cmd)
  {
    cmd.Reprovision? && s.noAutoStop && cmd.driverOk
  }

  predicate Stops(s: Flow, cmd: Cmd)
  {
    cmd.Stop? && Serving(s.prov)
  }

  predicate CleansUp(s: Flow, cmd: Cmd)
  {
    cmd.Cleanup? && s.stops > 0 && s.endpoint && Received(s.prov)
  }

  /** A station event that the handler hears and acts on. */
  predicate Hears(s: Flow, cmd: Cmd)
  {
    s.up && Received(s.prov) && (cmd == Disconnected(true) || cmd.GotIp?)
  }

  function Next(s: Flow, cmd: Cmd): Flow
  {
    match cmd
    case Start => if Starts(s, cmd) then s.(prov := Started, pending := None, endpoint := true, up := true) else s
    case Set(r) => if Takes(s, cmd) then s.(pending := Some(ConfigOf(r))) else s
    case Apply(_) =>
      if s.endpoint then s.(pending := None, prov := if Accepted(s, cmd).Some? then CredRecv else s.prov) else s
    case Reset(_) => if Resets(s, cmd) then s.(prov := Started) else s
    case Reprovision(_) => if Reprovisions(s, cmd) then s.(prov := Started) else s
    case Disconnected(_) => if Hears(s, cmd) then s.(prov := Failed) else s
    case GotIp => if Hears(s, cmd) then s.(prov := Prov.Success) else s
    case Stop => if Stops(s, cmd) then s.(prov := Stopping, up := false, armed := s.armed || s.endpoint) else s
    case TimerFires(posted) =>
      if s.armed then s.(armed := false, stops := if posted then s.stops + 1 else s.stops) else s
    case Cleanup =>
      var t := if s.stops > 0 then s.(stops := s.stops - 1) else s;
      if CleansUp(s, cmd) then t.(prov := Idle, pending := None, endpoint := false, armed := false) else t
    case DisableAutoStop => if s.prov == Idle then s.(noAutoStop := true) else s
  }

  /** What the application hears while a command is handled. */
  function Signals(s: Flow, cmd: Cmd): seq<Notice>
  {
    if Starts(s, cmd) || Reprovisions(s, cmd) then [ServiceStarted]
    else if cmd.Apply? && s.endpoint && s.pending.Some? then
      [CustomData(s.pending.value.mesh)] + if Accepted(s, cmd).Some? then [CredentialsReceived(s.pending.value)] else []
    else if Hears(s, cmd) then [if cmd.GotIp? then CredentialsSuccess else CredentialsFailed]
    else if CleansUp(s, cmd) then [ServiceEnded]
    else []
  }

  const NEW := Flow(Idle, None, false, false, false, false, 0)

  function Run(cmds: seq<Cmd>): Flow
    decreases |cmds|
  {
    if cmds == [] then NEW else Next(Run(cmds[..|cmds| - 1]), cmds[|cmds| - 1])
  }

  function Notices(cmds: seq<Cmd>): seq<Notice>
    decreases |cmds|
  {
    if cmds == [] then []
    else Notices(cmds[..|cmds| - 1]) + Signals(Run(cmds[..|cmds| - 1]), cmds[|cmds| - 1])
  }

  /** While the endpoint exists the manager is at least started, a context and a
      running cleanup timer exist only with the endpoint, and a stopping manager does not hear
      the station. */
  predicate Proper(s: Flow)
  {
    && (s.endpoint ==> s.prov != Idle) && s.prov != Starting
    && (s.pending.Some? ==> s.endpoint)
    && (s.prov == Stopping ==> !s.up)
    && (s.armed ==> s.endpoint)
  }

  lemma ProperStep(s: Flow, cmd: Cmd)
    requires Proper(s)
    ensures Proper(Next(s, cmd))
  {
  }

  lemma {:induction false} RunProper(cmds: seq<Cmd>)
    ensures Proper(Run(cmds))
    decreases |cmds|
  {
    if cmds != [] {
      RunProper(cmds[..|cmds| - 1]);
      ProperStep(Run(cmds[..|cmds| - 1]), cmds[|cmds| - 1]);
    }
  }

  lemma RunSnoc(cmds: seq<Cmd>, cmd: Cmd)
    ensures Run(cmds + [cmd]) == Next(Run(cmds), cmd)
    ensures Notices(cmds + [cmd]) == Notices(cmds) + Signals(Run(cmds), cmd)
  {
    assert (cmds + [cmd])[..|cmds|] == cmds;
  }

  // ---- an accepted apply uses the latest valid set

  /** Commands after which earlier sets no longer count. */
  predicate Forgets(s: Flow, cmd: Cmd)
  {
    Takes(s, cmd) || (cmd.Apply? && s.endpoint) || CleansUp(s, cmd)
  }

  ghost predicate ForgetsAt(cmds: seq<Cmd>, k: int)
  {
    0 <= k < |cmds| && Forgets(Run(cmds[..k]), cmds[k])
  }

  /** Command j is the latest valid set, and no apply was attempted, and no session ended,
      since. */
  ghost predicate LatestSet(cmds: seq<Cmd>, j: int)
  {
    && 0 <= j < |cmds| && Takes(Run(cmds[..j]), cmds[j])
    && forall k {:trigger ForgetsAt(cmds, k)} :: j < k ==> !ForgetsAt(cmds, k)
  }

  lemma ForgetsEarlier(cmds: seq<Cmd>, k: nat)
    requires k < |cmds| - 1
    ensures ForgetsAt(cmds, k) == ForgetsAt(cmds[..|cmds| - 1], k)
  {
    assert cmds[..|cmds| - 1][..k] == cmds[..k];
  }

  /** The latest set of a run is that of the run before its last command, or that command. */
  lemma LatestSetStep(cmds: seq<Cmd>, j: int)
    requires cmds != []
    ensures LatestSet(cmds, j) <==>
      if j == |cmds| - 1 then Takes(Run(cmds[..j]), cmds[j])
      else LatestSet(cmds[..|cmds| - 1], j) && !ForgetsAt(cmds, |cmds| - 1)
  {
    var before := cmds[..|cmds| - 1];
    if 0 <= j < |before| {
      assert before[..j] == cmds[..j];
    }
    forall k | 0 <= k < |before| ensures ForgetsAt(cmds, k) == ForgetsAt(before, k) {
      ForgetsEarlier(cmds, k);
    }
    if LatestSet(cmds, j) && j < |before| {
      assert !ForgetsAt(cmds, |before|);
      forall k | j < k ensures !ForgetsAt(before, k) {
        assert !ForgetsAt(cmds, k);
      }
    }
  }

  ghost predicate HoldsLatest(cmds: seq<Cmd>, j: int)
  {
    LatestSet(cmds, j) ==> Run(cmds).pending == Some(ConfigOf(cmds[j].request))
  }

  lemma PendingStep(s: Flow, cmd: Cmd)
    requires s.pending.Some? ==> s.endpoint && s.prov != Idle
    ensures Next(s, cmd).pending ==
      if Takes(s, cmd) then Some(ConfigOf(cmd.request)) else if Forgets(s, cmd) then None else s.pending
  {
  }

  lemma {:induction false} PendingIsLatest(cmds: seq<Cmd>)
    ensures Run(cmds).pending.Some? ==> exists j :: LatestSet(cmds, j)
    ensures forall j :: HoldsLatest(cmds, j)
    decreases |cmds|
  {
    if cmds == [] {
      assert forall j :: !LatestSet(cmds, j);
    } else {
      var n := |cmds| - 1;
      var before := cmds[..n];
      PendingIsLatest(before);
      RunProper(before);
      PendingStep(Run(before), cmds[n]);
      LatestSetStep(cmds, n);
      if Run(cmds).pending.Some? && !Takes(Run(before), cmds[n]) {
        var j :| LatestSet(before, j);
        LatestSetStep(cmds, j);
        assert LatestSet(cmds, j);
      }
      forall j ensures HoldsLatest(cmds, j) {
        LatestSetStep(cmds, j);
        assert HoldsLatest(before, j);
      }
    }
  }

  /** On every run, an apply that succeeds uses exactly the latest valid set since the previous
      attempt in the same session; without one, or outside the started state, it fails. */
  lemma ApplyUsesLatest(cmds: seq<Cmd>, driverOk: bool, config: Config)
    ensures Accepted(Run(cmds), Apply(driverOk)) == Some(config) <==>
      Run(cmds).prov == Started && Run(cmds).up && driverOk
      && exists j :: LatestSet(cmds, j) && config == ConfigOf(cmds[j].request)
  {
    PendingIsLatest(cmds);
    RunProper(cmds);
    assert forall j :: LatestSet(cmds, j) ==> HoldsLatest(cmds, j);
  }

  /** Exactly the sets whose BSSID, SSID and passphrase have admissible lengths replace what an
      apply will use; any other leaves everything as it was. */
  lemma SetTakenIff(cmds: seq<Cmd>, r: ClientRequest)
    ensures LatestSet(cmds + [Set(r)], |cmds|) <==>
      Run(cmds).endpoint && |r.bssid| in {0, 6} && |r.ssid| <= 32 && |r.passphrase| <= 63
    ensures !LatestSet(cmds + [Set(r)], |cmds|) ==> Run(cmds + [Set(r)]) == Run(cmds)
    ensures Notices(cmds + [Set(r)]) == Notices(cmds)
  {
    RunSnoc(cmds, Set(r));
    LatestSetNow(cmds, Set(r));
    SetSignals(Run(cmds), r);
  }

  lemma LatestSetNow(cmds: seq<Cmd>, cmd: Cmd)
    ensures LatestSet(cmds + [cmd], |cmds|) <==> Takes(Run(cmds), cmd)
  {
    LatestSetStep(cmds + [cmd], |cmds|);
    assert (cmds + [cmd])[..|cmds|] == cmds;
  }

  lemma SetSignals(s: Flow, r: ClientRequest)
    ensures Takes(s, Set(r)) <==> s.endpoint && |r.bssid| in {0, 6} && |r.ssid| <= 32 && |r.passphrase| <= 63
    ensures !Takes(s, Set(r)) ==> Next(s, Set(r)) == s
    ensures Signals(s, Set(r)) == []
  {
  }

  /** What an apply announces on every run with a latest set: that set's mesh part, whatever
      comes of it, and behind it the credentials iff they are accepted. */
  lemma ApplyAnnounces(cmds: seq<Cmd>, driverOk: bool, j: int) returns (c: Config)
    requires LatestSet(cmds, j)
    ensures Notices(cmds + [Apply(driverOk)]) == Notices(cmds) + [CustomData(c.mesh)] +
      if Run(cmds).prov == Started && Run(cmds).up && driverOk then [CredentialsReceived(c)] else []
    ensures var r := cmds[j].request;
      && CString(c.ssid, SSID_MAX) == CString(r.ssid, SSID_MAX)
      && CString(c.password, PASSWORD_SIZE) == CString(r.passphrase, PASSWORD_SIZE)
      && CString(c.mesh.ssid, SSID_MAX) == CString(r.softapSsid, SSID_MAX)
      && CString(c.mesh.password, PASSWORD_SIZE) == CString(r.softapPassphrase, PASSWORD_SIZE)
      && c.mesh.meshId == r.meshId
  {
    var r := cmds[j].request;
    c := ConfigOf(r);
    PendingIsLatest(cmds);
    assert HoldsLatest(cmds, j);
    RunProper(cmds);
    RunSnoc(cmds, Apply(driverOk));
    ApplySignals(Run(cmds), driverOk, c);
    DriverReads(r);
    CStringPadded(r.softapSsid, SSID_MAX, SSID_MAX);
    CStringPadded(r.softapPassphrase, PASSWORD_SIZE, PASSWORD_SIZE);
  }

  lemma ApplySignals(s: Flow, driverOk: bool, c: Config)
    requires Proper(s) && s.pending == Some(c)
    ensures Signals(s, Apply(driverOk)) == [CustomData(c.mesh)] +
      if s.prov == Started && s.up && driverOk then [CredentialsReceived(c)] else []
  {
  }

  // ---- accepted applies are separated

  ghost predicate AcceptedAt(cmds: seq<Cmd>, i: int)
  {
    0 <= i < |cmds| && Accepted(Run(cmds[..i]), cmds[i]).Some?
  }

  /** What lets another apply succeed after one has: a reset from FAIL, a reprovision, a start
      after a stop. */
  ghost predicate ReopensAt(cmds: seq<Cmd>, k: int)
  {
    && 0 <= k < |cmds|
    && var s := Run(cmds[..k]); Resets(s, cmds[k]) || Reprovisions(s, cmds[k]) || Starts(s, cmds[k])
  }

  lemma {:induction false} ClosedSince(cmds: seq<Cmd>, i: nat)
    requires AcceptedAt(cmds, i) && forall k :: i < k ==> !ReopensAt(cmds, k)
    ensures Received(Run(cmds).prov) || !Run(cmds).endpoint
    decreases |cmds|
  {
    var n := |cmds| - 1;
    var before := cmds[..n];
    if i < n {
      assert before[..i] == cmds[..i];
      forall k | i < k ensures !ReopensAt(before, k) {
        assert !ReopensAt(cmds, k);
        assert k < n ==> before[..k] == cmds[..k];
      }
      ClosedSince(before, i);
      assert !ReopensAt(cmds, n);
    }
  }

  /** Between two successful applies there is a reset from the failed state, a reprovision or a
      stop and restart. */
  lemma AppliesSeparated(cmds: seq<Cmd>, i: nat, j: nat)
    requires i < j && AcceptedAt(cmds, i) && AcceptedAt(cmds, j)
    ensures exists k :: i < k < j && ReopensAt(cmds, k)
  {
    var before := cmds[..j];
    assert before[..i] == cmds[..i];
    if forall k :: i < k ==> !ReopensAt(before, k) {
      ClosedSince(before, i);
    } else {
      var k :| i < k && ReopensAt(before, k);
      assert before[..k] == cmds[..k] && ReopensAt(cmds, k);
    }
  }

  // ---- when an outcome is signalled

  /** What ends the wait for the outcome of accepted credentials. */
  predicate Closes(s: Flow, cmd: Cmd)
  {
    Resets(s, cmd) || Reprovisions(s, cmd) || Stops(s, cmd) || CleansUp(s, cmd)
  }

  ghost predicate ClosesAt(cmds: seq<Cmd>, k: int)
  {
    0 <= k < |cmds| && Closes(Run(cmds[..k]), cmds[k])
  }

  /** The window of the apply accepted at i is still open at the end of cmds. */
  ghost predicate OpenSince(cmds: seq<Cmd>, i: int)
  {
    AcceptedAt(cmds, i) && forall k {:trigger ClosesAt(cmds, k)} :: i < k ==> !ClosesAt(cmds, k)
  }

  ghost predicate InWindow(cmds: seq<Cmd>)
  {
    exists i :: OpenSince(cmds, i)
  }

  lemma OpenSinceStep(cmds: seq<Cmd>, i: int)
    requires cmds != []
    ensures OpenSince(cmds, i) <==>
      if i == |cmds| - 1 then AcceptedAt(cmds, i)
      else OpenSince(cmds[..|cmds| - 1], i) && !ClosesAt(cmds, |cmds| - 1)
  {
    var before := cmds[..|cmds| - 1];
    forall k | 0 <= k < |before|
      ensures ClosesAt(cmds, k) == ClosesAt(before, k) && AcceptedAt(cmds, k) == AcceptedAt(before, k)
    {
      assert before[..k] == cmds[..k];
    }
    if OpenSince(cmds, i) && i < |before| {
      assert !ClosesAt(cmds, |before|);
      forall k | i < k ensures !ClosesAt(before, k) {
        assert !ClosesAt(cmds, k);
      }
    }
  }

  lemma WindowStep(cmds: seq<Cmd>)
    requires cmds != []
    ensures var n := |cmds| - 1;
      InWindow(cmds) <==> AcceptedAt(cmds, n) || (InWindow(cmds[..n]) && !ClosesAt(cmds, n))
  {
    var n := |cmds| - 1;
    OpenSinceStep(cmds, n);
    if i :| OpenSince(cmds, i) {
      OpenSinceStep(cmds, i);
    }
    if i :| OpenSince(cmds[..n], i) {
      OpenSinceStep(cmds, i);
      assert !ClosesAt(cmds, n) ==> OpenSince(cmds, i);
    }
  }

  /** Credentials were received and the service is not being stopped. */
  predicate Trying(s: Flow)
  {
    s.prov in {CredRecv, Failed, Prov.Success}
  }

  lemma TryingStep(s: Flow, cmd: Cmd)
    requires Trying(s) ==> s.up
    requires s.prov == Stopping ==> !s.up
    ensures Trying(Next(s, cmd)) <==> Accepted(s, cmd).Some? || (Trying(s) && !Closes(s, cmd))
    ensures Trying(Next(s, cmd)) ==> Next(s, cmd).up
  {
  }

  /** The window theorem: the manager waits for the outcome exactly from an accepted apply on
      until a reset, a reprovision, a stop or a cleanup; and all that time it hears the
      station. */
  lemma {:induction false} WindowIsOpen(cmds: seq<Cmd>)
    ensures InWindow(cmds) <==> Trying(Run(cmds))
    ensures Trying(Run(cmds)) <==> Run(cmds).up && Received(Run(cmds).prov)
    decreases |cmds|
  {
    RunProper(cmds);
    if cmds == [] {
      assert forall i :: !OpenSince(cmds, i);
    } else {
      var before := cmds[..|cmds| - 1];
      RunProper(before);
      WindowIsOpen(before);
      WindowStep(cmds);
      TryingStep(Run(before), cmds[|cmds| - 1]);
    }
  }

  // ---- how often an event is signalled

  /** The events of wifi_prov_cb_event_t between initialisation and de-initialisation. */
  datatype Topic = OfStart | OfReceived | OfCustomData | OfFailure | OfSuccess | OfEnd

  function About(t: Topic): Notice -> bool
  {
    (n: Notice) =>
      match t
      case OfStart => n.ServiceStarted?
      case OfReceived => n.CredentialsReceived?
      case OfCustomData => n.CustomData?
      case OfFailure => n.CredentialsFailed?
      case OfSuccess => n.CredentialsSuccess?
      case OfEnd => n.ServiceEnded?
  }

  /** How often an event is signalled on a run. */
  function Times(t: Topic, cmds: seq<Cmd>): nat
  {
    |Filter(About(t), Notices(cmds))|
  }

  /** What makes command k signal the event, told from the commands before it. */
  ghost predicate Triggers(t: Topic, cmds: seq<Cmd>, k: int)
  {
    && 0 <= k < |cmds|
    && var before, cmd := cmds[..k], cmds[k];
      match t
      case OfStart => Starts(Run(before), cmd) || Reprovisions(Run(before), cmd)
      case OfReceived => AcceptedAt(cmds, k)
      case OfCustomData => cmd.Apply? && exists j :: LatestSet(before, j)
      case OfFailure => cmd == Disconnected(true) && InWindow(before)
      case OfSuccess => cmd == GotIp && InWindow(before)
      case OfEnd => CleansUp(Run(before), cmd)
  }

  /** The same, told from the state the manager is in. */
  predicate Fires(t: Topic, s: Flow, cmd: Cmd)
  {
    match t
    case OfStart => Starts(s, cmd) || Reprovisions(s, cmd)
    case OfReceived => Accepted(s, cmd).Some?
    case OfCustomData => cmd.Apply? && s.pending.Some?
    case OfFailure => cmd == Disconnected(true) && Trying(s)
    case OfSuccess => cmd == GotIp && Trying(s)
    case OfEnd => CleansUp(s, cmd)
  }

  lemma SignalsFire(t: Topic, s: Flow, cmd: Cmd)
    requires Proper(s) && (Trying(s) <==> s.up && Received(s.prov))
    ensures |Filter(About(t), Signals(s, cmd))| == if Fires(t, s, cmd) then 1 else 0
  {
    FilterPair(About(t), Signals(s, cmd));
  }

  lemma FiresIffTriggers(t: Topic, cmds: seq<Cmd>)
    requires cmds != []
    ensures Fires(t, Run(cmds[..|cmds| - 1]), cmds[|cmds| - 1]) == Triggers(t, cmds, |cmds| - 1)
  {
    var before := cmds[..|cmds| - 1];
    WindowIsOpen(before);
    PendingIsLatest(before);
    if j :| LatestSet(before, j) {
      assert HoldsLatest(before, j);
    }
  }

  lemma FilterPair<T>(p: T -> bool, s: seq<T>)
    requires |s| <= 2
    ensures |Filter(p, s)| == (if |s| > 0 && p(s[0]) then 1 else 0) + if |s| > 1 && p(s[1]) then 1 else 0
  {
    if |s| > 0 {
      FilterCons(p, s);
    }
    if |s| > 1 {
      FilterCons(p, s[1..]);
    }
  }

  lemma TimesStep(t: Topic, cmds: seq<Cmd>)
    requires cmds != []
    ensures Times(t, cmds) == Times(t, cmds[..|cmds| - 1]) + if Triggers(t, cmds, |cmds| - 1) then 1 else 0
  {
    var before := cmds[..|cmds| - 1];
    RunProper(before);
    WindowIsOpen(before);
    SignalsFire(t, Run(before), cmds[|cmds| - 1]);
    FiresIffTriggers(t, cmds);
    FilterConcat(About(t), Notices(before), Signals(Run(before), cmds[|cmds| - 1]));
  }

  /** Command k triggers the same in both runs, as far as the shorter one goes. */
  ghost predicate Agree(t: Topic, cmds: seq<Cmd>, before: seq<Cmd>, k: int)
  {
    k < |before| ==> Triggers(t, cmds, k) == Triggers(t, before, k)
  }

  lemma PrefixAgrees(t: Topic, cmds: seq<Cmd>, before: seq<Cmd>)
    requires before <= cmds
    ensures forall k {:trigger Agree(t, cmds, before, k)} :: Agree(t, cmds, before, k)
  {
    forall k {:trigger Agree(t, cmds, before, k)} ensures Agree(t, cmds, before, k) {
      assert 0 <= k < |before| ==> before[..k] == cmds[..k] && before[k] == cmds[k];
    }
  }

  ghost predicate Never(t: Topic, cmds: seq<Cmd>)
  {
    forall k {:trigger Triggers(t, cmds, k)} :: !Triggers(t, cmds, k)
  }

  /** No two commands trigger the event. */
  ghost predicate Once(t: Topic, cmds: seq<Cmd>)
  {
    forall k, l {:trigger SameTrigger(t, cmds, k, l)} :: SameTrigger(t, cmds, k, l)
  }

  ghost predicate SameTrigger(t: Topic, cmds: seq<Cmd>, k: int, l: int)
  {
    Triggers(t, cmds, k) && Triggers(t, cmds, l) ==> k == l
  }

  lemma NeverStep(t: Topic, cmds: seq<Cmd>, before: seq<Cmd>)
    requires cmds != [] && before == cmds[..|cmds| - 1]
    ensures Never(t, cmds) <==> Never(t, before) && !Triggers(t, cmds, |before|)
  {
    PrefixAgrees(t, cmds, before);
    forall k | Never(t, cmds) ensures !Triggers(t, before, k) {
      assert Agree(t, cmds, before, k) && !Triggers(t, cmds, k);
    }
    forall k | Never(t, before) && !Triggers(t, cmds, |before|) ensures !Triggers(t, cmds, k) {
      assert Agree(t, cmds, before, k) && !Triggers(t, before, k);
    }
  }

  lemma OnceStep(t: Topic, cmds: seq<Cmd>, before: seq<Cmd>)
    requires cmds != [] && before == cmds[..|cmds| - 1]
    ensures Once(t, cmds) <==> if Triggers(t, cmds, |before|) then Never(t, before) else Once(t, before)
  {
    PrefixAgrees(t, cmds, before);
    forall k | Once(t, cmds) && Triggers(t, cmds, |before|) ensures !Triggers(t, before, k) {
      assert Agree(t, cmds, before, k) && SameTrigger(t, cmds, k, |before|);
    }
    forall k, l | Once(t, cmds) ensures SameTrigger(t, before, k, l) {
      assert Agree(t, cmds, before, k) && Agree(t, cmds, before, l) && SameTrigger(t, cmds, k, l);
    }
    forall k, l | if Triggers(t, cmds, |before|) then Never(t, before) else Once(t, before)
      ensures SameTrigger(t, cmds, k, l)
    {
      assert Agree(t, cmds, before, k) && Agree(t, cmds, before, l) && SameTrigger(t, before, k, l);
    }
  }

  lemma {:induction false} NeverIff(t: Topic, cmds: seq<Cmd>)
    ensures Times(t, cmds) == 0 <==> Never(t, cmds)
    decreases |cmds|
  {
    if cmds == [] {
      assert forall k {:trigger Triggers(t, cmds, k)} :: !Triggers(t, cmds, k);
    } else {
      var before := cmds[..|cmds| - 1];
      TimesStep(t, cmds);
      NeverIff(t, before);
      NeverStep(t, cmds, before);
      assert Times(t, cmds) == 0 <==> Times(t, before) == 0 && !Triggers(t, cmds, |before|);
    }
  }

  /** The exact condition under which an event is signalled at most once on a run. In
      particular CRED_FAIL is exactly when at most one expected disconnection, and
      CRED_SUCCESS exactly when at most one IP address, arrives inside the windows of
      accepted applies. */
  lemma {:induction false} OnceIff(t: Topic, cmds: seq<Cmd>)
    ensures Times(t, cmds) <= 1 <==> Once(t, cmds)
    decreases |cmds|
  {
    if cmds != [] {
      TimesStep(t, cmds);
      OnceIff(t, cmds[..|cmds| - 1]);
      NeverIff(t, cmds[..|cmds| - 1]);
      OnceStep(t, cmds, cmds[..|cmds| - 1]);
    }
  }

  /** A start, a set, an apply and a first failure. */
  function Tried(r: ClientRequest): seq<Cmd>
  {
    [Start] + [Set(r)] + [Apply(true)] + [Disconnected(true)]
  }

  lemma AfterStart()
    ensures Run([Start]) == NEW.(prov := Started, endpoint := true, up := true) && Notices([Start]) == [ServiceStarted]
  {
    RunSnoc([], Start);
    assert [] + [Start] == [Start];
  }

  lemma AfterSet(r: ClientRequest)
    requires Acceptable(r)
    ensures Run([Start] + [Set(r)]) == Flow(Started, Some(ConfigOf(r)), false, true, true, false, 0)
    ensures Notices([Start] + [Set(r)]) == [ServiceStarted]
  {
    AfterStart();
    RunSnoc([Start], Set(r));
  }

  /** From an accepted apply to a first answer of the station. */
  lemma AfterOutcome(cmds: seq<Cmd>, c: Config, ok: bool)
    requires Run(cmds) == Flow(Started, Some(c), false, true, true, false, 0)
    ensures var tried := cmds + [Apply(true)] + [if ok then GotIp else Disconnected(true)];
      && Run(tried) == Flow(if ok then Prov.Success else Failed, None, false, true, true, false, 0)
      && Notices(tried) == Notices(cmds) + [CustomData(c.mesh), CredentialsReceived(c)]
                           + [if ok then CredentialsSuccess else CredentialsFailed]
  {
    RunSnoc(cmds, Apply(true));
    RunSnoc(cmds + [Apply(true)], if ok then GotIp else Disconnected(true));
  }

  /** A run on which a second disconnection signals the failure a second time, and one on
      which the failure is signalled after the success. */
  lemma SignalledTwice(r: ClientRequest)
    requires Acceptable(r)
    ensures var c := ConfigOf(r); var applied := [Start] + [Set(r)] + [Apply(true)];
      && Notices(applied + [Disconnected(true)] + [Disconnected(true)]) ==
           [ServiceStarted, CustomData(c.mesh), CredentialsReceived(c), CredentialsFailed, CredentialsFailed]
      && Notices(applied + [GotIp] + [Disconnected(true)]) ==
           [ServiceStarted, CustomData(c.mesh), CredentialsReceived(c), CredentialsSuccess, CredentialsFailed]
  {
    var applied := [Start] + [Set(r)] + [Apply(true)];
    AfterSet(r);
    AfterOutcome([Start] + [Set(r)], ConfigOf(r), false);
    AfterOutcome([Start] + [Set(r)], ConfigOf(r), true);
    RunSnoc(applied + [Disconnected(true)], Disconnected(true));
    RunSnoc(applied + [GotIp], Disconnected(true));
  }

  /** A stop gets through: with the cleanup timer's event posted, or one still pending, a
      service that runs and has its endpoint ends with exactly one more notice, without
      endpoint, context or timers, and can be started again. Without the endpoint no timer is
      started, and the manager stays in Stopping for good. */
  lemma StopEnds(cmds: seq<Cmd>, posted: bool)
    requires Serving(Run(cmds).prov)
    ensures var s := Run(cmds); var all := cmds + [Stop] + [TimerFires(posted)] + [Cleanup];
      var ends := s.endpoint && (posted || s.stops > 0);
      && Run(all).prov == (if ends then Idle else Stopping)
      && Notices(all) == Notices(cmds) + (if ends then [ServiceEnded] else [])
      && Notices(all + [Start]) == Notices(all) + (if ends then [ServiceStarted] else [])
      && !Run(all).up && !Run(all).armed && (ends ==> !Run(all).endpoint && Run(all).pending == None)
  {
    RunProper(cmds);
    RunFour(cmds, Stop, TimerFires(posted), Cleanup, Start);
    var _, _, _ := StopSteps(Run(cmds), posted);
    assert Notices(cmds) + [] + [] == Notices(cmds);
  }

  lemma StopSteps(s: Flow, posted: bool) returns (a: Flow, b: Flow, c: Flow)
    requires Serving(s.prov) && Proper(s)
    ensures a == Next(s, Stop) && b == Next(a, TimerFires(posted)) && c == Next(b, Cleanup)
    ensures Signals(s, Stop) == [] && Signals(a, TimerFires(posted)) == []
    ensures var ends := s.endpoint && (posted || s.stops > 0);
      && Signals(b, Cleanup) == (if ends then [ServiceEnded] else [])
      && Signals(c, Start) == (if ends then [ServiceStarted] else [])
      && c.prov == (if ends then Idle else Stopping)
      && !c.up && !c.armed && (ends ==> !c.endpoint && c.pending == None)
  {
    a := Next(s, Stop);
    b := Next(a, TimerFires(posted));
    c := Next(b, Cleanup);
  }

  lemma RunFour(cmds: seq<Cmd>, a: Cmd, b: Cmd, c: Cmd, d: Cmd)
    ensures Run(cmds + [a] + [b] + [c]) == Next(Next(Next(Run(cmds), a), b), c)
    ensures Notices(cmds + [a] + [b] + [c]) ==
      Notices(cmds) + Signals(Run(cmds), a) + Signals(Next(Run(cmds), a), b) + Signals(Next(Next(Run(cmds), a), b), c)
    ensures Notices(cmds + [a] + [b] + [c] + [d]) ==
      Notices(cmds + [a] + [b] + [c]) + Signals(Next(Next(Next(Run(cmds), a), b), c), d)
  {
    RunSnoc(cmds, a);
    RunSnoc(cmds + [a], b);
    RunSnoc(cmds + [a] + [b], c);
    RunSnoc(cmds + [a] + [b] + [c], d);
  }

  // ---- in which order events are signalled

  /** The place of an event in the declaration of wifi_prov_cb_event_t. */
  function Rank(n: Notice): nat
  {
    match n
    case ServiceStarted => 1
    case CredentialsReceived(_) => 2
    case CustomData(_) => 3
    case CredentialsFailed => 4
    case CredentialsSuccess => 5
    case ServiceEnded => 6
  }

  ghost predicate Ascends(s: seq<Notice>, i: int, j: int)
  {
    0 <= i < j < |s| ==> Rank(s[i]) <= Rank(s[j])
  }

  /** Signalled in order of declaration. */
  ghost predicate InOrder(s: seq<Notice>)
  {
    forall i, j {:trigger Ascends(s, i, j)} :: Ascends(s, i, j)
  }

  ghost predicate NoneAbove(s: seq<Notice>, rank: nat)
  {
    forall n :: n in s ==> Rank(n) <= rank
  }

  lemma InOrderPrefix(a: seq<Notice>, b: seq<Notice>)
    requires InOrder(a + b)
    ensures InOrder(a)
  {
    forall i, j ensures Ascends(a, i, j) {
      assert Ascends(a + b, i, j);
    }
  }

  lemma InOrderSnoc(s: seq<Notice>, n: Notice)
    ensures InOrder(s + [n]) <==> InOrder(s) && NoneAbove(s, Rank(n))
  {
    var t := s + [n];
    if InOrder(t) {
      InOrderPrefix(s, [n]);
      forall m | m in s ensures Rank(m) <= Rank(n) {
        var i :| 0 <= i < |s| && s[i] == m;
        assert Ascends(t, i, |s|);
      }
    }
    if InOrder(s) && NoneAbove(s, Rank(n)) {
      forall i, j ensures Ascends(t, i, j) {
        assert Ascends(s, i, j) && (0 <= i < |s| ==> s[i] in s);
      }
    }
  }

  lemma DisorderStays(a: seq<Notice>, b: seq<Notice>)
    requires !InOrder(a)
    ensures !InOrder(a + b)
  {
    if InOrder(a + b) {
      InOrderPrefix(a, b);
    }
  }

  lemma PairDisorders(s: seq<Notice>, m: Notice, n: Notice)
    requires Rank(m) > Rank(n)
    ensures !InOrder(s + [m, n])
  {
    assert !Ascends(s + [m, n], |s|, |s| + 1);
  }

  lemma AcceptedSignals(s: Flow, cmd: Cmd, earlier: seq<Notice>)
    requires Accepted(s, cmd).Some?
    ensures !InOrder(earlier + Signals(s, cmd))
  {
    var c := s.pending.value;
    assert Signals(s, cmd) == [CustomData(c.mesh), CredentialsReceived(c)];
    PairDisorders(earlier, CustomData(c.mesh), CredentialsReceived(c));
  }

  lemma AcceptedEarlier(cmds: seq<Cmd>, i: nat)
    requires AcceptedAt(cmds, i) && i < |cmds| - 1
    ensures AcceptedAt(cmds[..|cmds| - 1], i)
  {
    assert cmds[..|cmds| - 1][..i] == cmds[..i];
  }

  /** Custom data is declared after the credentials and signalled before them, so no run on
      which an apply succeeds signals its events in order. */
  lemma {:induction false} AcceptedDisorders(cmds: seq<Cmd>, i: nat)
    requires AcceptedAt(cmds, i)
    ensures !InOrder(Notices(cmds))
    decreases |cmds|
  {
    var n := |cmds| - 1;
    if i < n {
      AcceptedEarlier(cmds, i);
      AcceptedDisorders(cmds[..n], i);
      DisorderStays(Notices(cmds[..n]), Signals(Run(cmds[..n]), cmds[n]));
    } else {
      AcceptedSignals(Run(cmds[..n]), cmds[n], Notices(cmds[..n]));
    }
  }

  /** A start signalled at l after custom data or an end at k. */
  ghost predicate StartsLate(cmds: seq<Cmd>, k: int, l: int)
  {
    k < l && (Triggers(OfCustomData, cmds, k) || Triggers(OfEnd, cmds, k)) && Triggers(OfStart, cmds, l)
  }

  ghost predicate NoLateStart(cmds: seq<Cmd>)
  {
    forall k, l {:trigger StartsLate(cmds, k, l)} :: !StartsLate(cmds, k, l)
  }

  lemma LateStep(cmds: seq<Cmd>, before: seq<Cmd>)
    requires cmds != [] && before == cmds[..|cmds| - 1]
    ensures NoLateStart(cmds) <==> (
      && NoLateStart(before)
      && (Triggers(OfStart, cmds, |before|) ==> Never(OfCustomData, before) && Never(OfEnd, before)))
  {
    PrefixAgrees(OfCustomData, cmds, before);
    PrefixAgrees(OfEnd, cmds, before);
    PrefixAgrees(OfStart, cmds, before);
    forall k, l | NoLateStart(cmds) ensures !StartsLate(before, k, l) {
      assert Agree(OfCustomData, cmds, before, k) && Agree(OfEnd, cmds, before, k) && Agree(OfStart, cmds, before, l);
      assert !StartsLate(cmds, k, l);
    }
    forall k | NoLateStart(cmds) && Triggers(OfStart, cmds, |before|)
      ensures !Triggers(OfCustomData, before, k) && !Triggers(OfEnd, before, k)
    {
      assert Agree(OfCustomData, cmds, before, k) && Agree(OfEnd, cmds, before, k);
      assert !StartsLate(cmds, k, |before|);
    }
    forall k, l | NoLateStart(before) && (Triggers(OfStart, cmds, |before|) ==> Never(OfCustomData, before) && Never(OfEnd, before))
      ensures !StartsLate(cmds, k, l)
    {
      assert Agree(OfCustomData, cmds, before, k) && Agree(OfEnd, cmds, before, k) && Agree(OfStart, cmds, before, l);
      assert !StartsLate(before, k, l);
    }
  }

  lemma Heard(t: Topic, cmds: seq<Cmd>, n: Notice)
    requires n in Notices(cmds) && About(t)(n)
    ensures !Never(t, cmds)
  {
    FilterMembers(About(t), Notices(cmds), n);
    NeverIff(t, cmds);
  }

  lemma Hearing(t: Topic, cmds: seq<Cmd>) returns (n: Notice)
    requires !Never(t, cmds)
    ensures n in Notices(cmds) && About(t)(n)
  {
    NeverIff(t, cmds);
    n := Filter(About(t), Notices(cmds))[0];
    FilterMembers(About(t), Notices(cmds), n);
  }

  /** Without an accepted apply there is no window, so no outcome is signalled. */
  lemma OnlyThree(cmds: seq<Cmd>, n: Notice)
    requires Never(OfReceived, cmds) && n in Notices(cmds)
    ensures n.ServiceStarted? || n.CustomData? || n.ServiceEnded?
  {
    forall k ensures !Triggers(OfFailure, cmds, k) && !Triggers(OfSuccess, cmds, k) {
      if 0 <= k < |cmds| && InWindow(cmds[..k]) {
        var i :| OpenSince(cmds[..k], i);
        assert cmds[..k][..i] == cmds[..i];
        assert Triggers(OfReceived, cmds, i);
      }
    }
    match n
    case CredentialsReceived(_) => Heard(OfReceived, cmds, n);
    case CredentialsFailed => Heard(OfFailure, cmds, n);
    case CredentialsSuccess => Heard(OfSuccess, cmds, n);
    case _ =>
  }

  lemma OnlyStarts(cmds: seq<Cmd>)
    requires Never(OfReceived, cmds)
    ensures NoneAbove(Notices(cmds), Rank(ServiceStarted)) <==> Never(OfCustomData, cmds) && Never(OfEnd, cmds)
  {
    if !Never(OfCustomData, cmds) {
      var n := Hearing(OfCustomData, cmds);
    } else if !Never(OfEnd, cmds) {
      var n := Hearing(OfEnd, cmds);
    } else {
      forall n | n in Notices(cmds) ensures Rank(n) <= 1 {
        OnlyThree(cmds, n);
        if n.CustomData? {
          Heard(OfCustomData, cmds, n);
        } else if n.ServiceEnded? {
          Heard(OfEnd, cmds, n);
        }
      }
    }
  }

  lemma EndpointStep(s: Flow, cmd: Cmd)
    requires Next(s, cmd).endpoint
    ensures !CleansUp(s, cmd) && (s.endpoint || Starts(s, cmd))
  {
  }

  /** With no late start, nothing has ended while the endpoint exists. */
  lemma {:induction false} EndpointNotEnded(cmds: seq<Cmd>)
    requires Run(cmds).endpoint && NoLateStart(cmds)
    ensures Never(OfEnd, cmds)
    decreases |cmds|
  {
    var before := cmds[..|cmds| - 1];
    EndpointStep(Run(before), cmds[|cmds| - 1]);
    LateStep(cmds, before);
    NeverStep(OfEnd, cmds, before);
    assert !Triggers(OfEnd, cmds, |before|);
    if Run(before).endpoint {
      EndpointNotEnded(before);
    } else {
      assert Triggers(OfStart, cmds, |before|);
    }
  }

  /** Custom data is in order as long as nothing has ended. */
  lemma CustomInOrder(cmds: seq<Cmd>)
    requires Never(OfReceived, cmds) && Run(cmds).endpoint && NoLateStart(cmds)
    ensures NoneAbove(Notices(cmds), 3)
  {
    EndpointNotEnded(cmds);
    forall n | n in Notices(cmds) ensures Rank(n) <= 3 {
      OnlyThree(cmds, n);
      if n.ServiceEnded? {
        Heard(OfEnd, cmds, n);
      }
    }
  }

  /** The command after `before` signals a start, custom data, an end or nothing. */
  lemma SignalsQuietly(cmds: seq<Cmd>)
    requires cmds != [] && Never(OfReceived, cmds)
    ensures var before, cmd := cmds[..|cmds| - 1], cmds[|cmds| - 1]; var now := Signals(Run(before), cmd);
      || (Triggers(OfStart, cmds, |before|) && now == [ServiceStarted])
      || (!Triggers(OfStart, cmds, |before|) && (now == [] || now == [ServiceEnded]
            || (|now| == 1 && now[0].CustomData? && Run(before).endpoint)))
  {
    var before, cmd := cmds[..|cmds| - 1], cmds[|cmds| - 1];
    var now := Signals(Run(before), cmd);
    assert !Triggers(OfReceived, cmds, |before|);
    if Hears(Run(before), cmd) {
      assert now[0] in Notices(before) + now;
      OnlyThree(cmds, now[0]);
    }
  }

  /** The exact condition: the events of a run are signalled in order of declaration iff no
      apply succeeds and no start follows custom data or an end. */
  lemma {:induction false} InOrderIff(cmds: seq<Cmd>)
    ensures InOrder(Notices(cmds)) <==> Never(OfReceived, cmds) && NoLateStart(cmds)
    decreases |cmds|
  {
    if cmds == [] {
    } else if !Never(OfReceived, cmds) {
      var i :| Triggers(OfReceived, cmds, i);
      AcceptedDisorders(cmds, i);
    } else {
      InOrderLast(cmds);
    }
  }

  lemma StartInOrder(cmds: seq<Cmd>)
    requires Never(OfReceived, cmds)
    ensures InOrder(Notices(cmds) + [ServiceStarted]) <==>
      InOrder(Notices(cmds)) && Never(OfCustomData, cmds) && Never(OfEnd, cmds)
  {
    InOrderSnoc(Notices(cmds), ServiceStarted);
    OnlyStarts(cmds);
  }

  lemma OtherInOrder(s: seq<Notice>, now: seq<Notice>)
    requires now == [] || now == [ServiceEnded] || (|now| == 1 && now[0].CustomData?)
    requires InOrder(s) && now != [] && now[0].CustomData? ==> NoneAbove(s, 3)
    ensures InOrder(s + now) <==> InOrder(s)
  {
    if now == [] {
      assert s + now == s;
    } else {
      assert now == [now[0]];
      InOrderSnoc(s, now[0]);
    }
  }

  lemma {:induction false} InOrderLast(cmds: seq<Cmd>)
    requires cmds != [] && Never(OfReceived, cmds)
    ensures InOrder(Notices(cmds)) <==> NoLateStart(cmds)
    decreases |cmds|, 0
  {
    var before := cmds[..|cmds| - 1];
    NeverStep(OfReceived, cmds, before);
    LateStep(cmds, before);
    InOrderIff(before);
    SignalsQuietly(cmds);
    if Triggers(OfStart, cmds, |before|) {
      StartInOrder(before);
    } else {
      if Run(before).endpoint && NoLateStart(before) {
        CustomInOrder(before);
      }
      OtherInOrder(Notices(before), Signals(Run(before), cmds[|cmds| - 1]));
    }
  }

  // ---- the code

  /** The context of the configuration handlers (struct wifi_prov_ctx), zeroed when allocated. */
  class Context {
    var config: Config

    constructor ()
      ensures config == Config(Padded("", SSID_MAX), Padded("", PASSWORD_SIZE),
                               MeshConfig(Padded("", SSID_MAX), Padded("", PASSWORD_SIZE), 0))
    {
      config := Config(Padded("", SSID_MAX), Padded("", PASSWORD_SIZE),
                       MeshConfig(Padded("", SSID_MAX), Padded("", PASSWORD_SIZE), 0));
    }
  }

  /** The request structure between wifi_config.c and handlers.c; every buffer has room for a
      terminator. */
  datatype SetData = SetData(ssid: string, password: string, softapSsid: string, softapPassphrase: string, meshId: nat)

  class Provisioner {
    var prov: Prov
    var noAutoStop: bool
    var endpoint: bool
    var up: bool
    var armed: bool
    var stops: nat
    var ctx: Context?
    var notices: seq<Notice>
    ghost var owned: set<Context>

    /** The one allocated context is the one ctx points to. */
    ghost predicate Valid()
      reads this
    {
      owned == (if ctx == null then {} else {ctx}) && (ctx != null ==> endpoint)
    }

    ghost function State(): Flow
      reads this, ctx
    {
      Flow(prov, if ctx == null then None else Some(ctx.config), noAutoStop, endpoint, up, armed, stops)
    }

    constructor ()
      ensures Valid() && State() == NEW && notices == []
    {
      prov, noAutoStop, endpoint, up, armed, stops := Idle, false, false, false, false, 0;
      ctx, notices, owned := null, [], {};
    }

    method FreeConfig()
      requires Valid()
      modifies this`ctx, this`owned
      ensures Valid() && ctx == null
    {
      owned := owned - (if ctx == null then {} else {ctx});
      ctx := null;
    }

    method NewConfig()
      requires Valid() && endpoint
      modifies this`ctx, this`owned
      ensures Valid() && ctx != null && fresh(ctx)
    {
      FreeConfig();
      ctx := new Context();
      owned := owned + {ctx};
    }

    method SetConfigHandler(data: SetData)
      requires Valid() && endpoint && |data.ssid| == SSID_MAX + 1 && |data.password| == PASSWORD_SIZE
      requires |data.softapSsid| == SSID_MAX + 1 && |data.softapPassphrase| == PASSWORD_SIZE
      modifies this`ctx, this`owned
      ensures Valid() && ctx != null && fresh(ctx)
      ensures ctx.config == Config(Padded(CString(data.ssid, SSID_MAX), SSID_MAX),
                                   Padded(CString(data.password, PASSWORD_SIZE - 1), PASSWORD_SIZE),
                                   MeshConfig(data.softapSsid[..SSID_MAX], data.softapPassphrase, data.meshId))
    {
      if ctx != null {
        FreeConfig();
      }
      NewConfig();
      ctx.config := ctx.config.(ssid := Padded(CString(data.ssid, SSID_MAX), SSID_MAX));
      ctx.config := ctx.config.(password := Padded(CString(data.password, PASSWORD_SIZE - 1), PASSWORD_SIZE));
      ctx.config := ctx.config.(mesh := MeshConfig(data.softapSsid[..SSID_MAX], data.softapPassphrase, data.meshId));
    }

    /** cmd_set_config_handler, which the endpoint runs. */
    method CmdSetConfig(r: ClientRequest) returns (status: Status)
      requires Valid() && endpoint
      modifies this`ctx, this`owned
      ensures Valid() && State() == Next(old(State()), Set(r)) && notices == old(notices) + Signals(old(State()), Set(r))
      ensures status.Success? <==> |r.bssid| in {0, 6} && |r.ssid| <= 32 && |r.passphrase| <= 63
      ensures !status.Success? ==> status.InvalidArgument? && ctx == old(ctx)
    {
      if |r.bssid| != 0 && |r.bssid| != 6 {
        return InvalidArgument;
      } else if |r.ssid| >= SSID_MAX + 1 {
        return InvalidArgument;
      } else if |r.passphrase| >= PASSWORD_SIZE {
        return InvalidArgument;
      }
      var data := SetData(Padded(r.ssid, SSID_MAX + 1), Padded(r.passphrase, PASSWORD_SIZE),
                          Padded(r.softapSsid, SSID_MAX + 1), Padded(r.softapPassphrase, PASSWORD_SIZE), r.meshId);
      CStringPadded(r.ssid, SSID_MAX + 1, SSID_MAX);
      CStringPadded(r.passphrase, PASSWORD_SIZE, PASSWORD_SIZE - 1);
      assert data.softapSsid[..SSID_MAX] == Padded(r.softapSsid, SSID_MAX);
      SetConfigHandler(data);
      return Status.Success;
    }

    /** wifi_prov_mgr_configure_sta; `driver` says whether the storage and the configuration were
        accepted and the connect timer, if there is one, was started. */
    method ConfigureSta(config: Config, driver: (bool, bool, bool)) returns (ok: bool)
      modifies this`prov, this`notices
      ensures ok == (!Received(old(prov)) && driver.0 && driver.1 && up && driver.2)
      ensures prov == if ok then CredRecv else old(prov)
      ensures notices == if ok then old(notices) + [CredentialsReceived(config)] else old(notices)
    {
      if prov.CredRecv? || prov.Failed? || prov.Success? || prov.Stopping? {
        return false;
      }
      if !driver.0 || !driver.1 {
        return false;
      }
      if !up || !driver.2 {
        return false;
      }
      prov := CredRecv;
      notices := notices + [CredentialsReceived(config)];
      return true;
    }

    /** The context is freed whether or not the credentials were accepted. */
    method CmdApplyConfig(driver: (bool, bool, bool)) returns (status: Status)
      requires Valid() && endpoint
      modifies this`prov, this`ctx, this`owned, this`notices
      ensures var cmd := Apply(driver.0 && driver.1 && driver.2);
        && State() == Next(old(State()), cmd) && notices == old(notices) + Signals(old(State()), cmd)
        && status == if Accepted(old(State()), cmd).Some? then Status.Success else InternalError
      ensures Valid() && ctx == null
    {
      if ctx == null {
        return InternalError;
      }
      notices := notices + [CustomData(ctx.config.mesh)];
      var ok := ConfigureSta(ctx.config, driver);
      FreeConfig();
      return if ok then Status.Success else InternalError;
    }

    method ResetOnFailure(driverOk: bool) returns (ok: bool)
      requires Valid()
      modifies this`prov
      ensures Valid() && State() == Next(old(State()), Reset(driverOk))
      ensures notices == old(notices) + Signals(old(State()), Reset(driverOk))
      ensures ok <==> old(prov) == Failed && driverOk
      ensures prov == if ok then Started else old(prov)
    {
      if !prov.Failed? || !driverOk {
        return false;
      }
      prov := Started;
      return true;
    }

    /** Unlike the reset this does not look at the state. */
    method ResetForReprovision(driverOk: bool) returns (ok: bool)
      requires Valid()
      modifies this`prov, this`notices
      ensures Valid() && State() == Next(old(State()), Reprovision(driverOk))
      ensures notices == old(notices) + Signals(old(State()), Reprovision(driverOk))
      ensures ok <==> noAutoStop && driverOk
      ensures prov == if ok then Started else old(prov)
    {
      if !noAutoStop || !driverOk {
        return false;
      }
      prov := Started;
      notices := notices + [ServiceStarted];
      return true;
    }

    /** A station event; the handler is registered from a start to the next stop. */
    method OnStation(cmd: Cmd)
      requires Valid() && (cmd.Disconnected? || cmd.GotIp?)
      modifies this`prov, this`notices
      ensures Valid() && State() == Next(old(State()), cmd) && notices == old(notices) + Signals(old(State()), cmd)
    {
      if !up {
        return;
      }
      if prov.Idle? || prov.Starting? || prov.Started? {
        return;
      }
      if cmd.GotIp? {
        prov := Prov.Success;
        notices := notices + [CredentialsSuccess];
      } else if cmd.expected {
        prov := Failed;
        notices := notices + [CredentialsFailed];
      }
    }

    /** wifi_prov_mgr_start_provisioning, from the request to the started service. */
    method StartProvisioning() returns (ok: bool)
      requires Valid()
      modifies this`prov, this`endpoint, this`up, this`ctx, this`owned, this`notices
      ensures Valid() && State() == Next(old(State()), Start) && notices == old(notices) + Signals(old(State()), Start)
      ensures ok <==> old(prov) == Idle
    {
      if !prov.Idle? {
        return false;
      }
      FreeConfig();
      prov, endpoint, up := Started, true, true;
      notices := notices + [ServiceStarted];
      return true;
    }

    /** wifi_prov_mgr_stop_provisioning: the timers and the station handlers go at once, the
        endpoint stays until the cleanup, whose timer is started unless there is none or it
        already runs. */
    method StopProvisioning()
      requires Valid()
      modifies this`prov, this`up, this`armed
      ensures Valid() && State() == Next(old(State()), Stop) && notices == old(notices) + Signals(old(State()), Stop)
    {
      if prov.Stopping? || prov.Idle? || prov.Starting? {
        return;
      }
      up := false;
      prov := Stopping;
      if endpoint && !armed {
        armed := true;
      }
    }

    /** cleanup_delay_timer_cb; posting the event may fail. */
    method OnCleanupTimer(posted: bool)
      requires Valid() && armed
      modifies this`armed, this`stops
      ensures Valid() && State() == Next(old(State()), TimerFires(posted))
    {
      armed := false;
      if posted {
        stops := stops + 1;
      }
    }

    /** The stop event: the handlers are freed with their context. */
    method OnStopEvent()
      requires Valid()
      modifies this`prov, this`endpoint, this`ctx, this`owned, this`armed, this`stops, this`notices
      ensures Valid() && State() == Next(old(State()), Cleanup) && notices == old(notices) + Signals(old(State()), Cleanup)
    {
      if stops == 0 {
        return;
      }
      stops := stops - 1;
      if !endpoint || prov.Idle? || prov.Starting? || prov.Started? {
        return;
      }
      FreeConfig();
      prov, endpoint, armed := Idle, false, false;
      notices := notices + [ServiceEnded];
    }
  }
}
