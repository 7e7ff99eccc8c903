/** Zero provisioning (zero_provisioning.c): devices without credentials broadcast, provisioned
    ones answer with the router's credentials (INFO), the joiner confirms until it is
    acknowledged and then connects, once. */
module ZeroProv {
  import opened CStrings
  import opened Seqs

  type Address = nat

  // ---- credentials and the INFO payload

  datatype Credentials = Credentials(ssid: string, password: string)

  /** The ssid and password buffers of wifi_config_t. */
  datatype RouterCfg = RouterCfg(ssid: string, password: string)

  const SSID_SIZE := 32
  const PASSWORD_SIZE := 64
  const FIELD := 32 // both fields of the INFO payload

  /** The credentials a configuration holds, as everybody reads it: as C strings. */
  function Reads(c: RouterCfg): Credentials
  {
    Credentials(CString(c.ssid, SSID_SIZE), CString(c.password, PASSWORD_SIZE))
  }

  /** Both strings leave room for a terminator in their INFO field. */
  predicate Short(c: RouterCfg)
  {
    && |c.ssid| == SSID_SIZE && |c.password| == PASSWORD_SIZE
    && |Reads(c).ssid| < FIELD && |Reads(c).password| < FIELD
  }

  const BLANK := RouterCfg(Padded("", SSID_SIZE), Padded("", PASSWORD_SIZE))

  type Router = c: RouterCfg | Short(c) witness BLANK

  /** What follows the two strings in the payload: channel, mesh id, random number, softAP. */
  type Rest = s: string | |s| >= FIELD witness Padded("", FIELD)

  /** The fields behind the two strings. */
  function Settings(payload: string): string
    requires |payload| >= 2 * FIELD
  {
    payload[2 * FIELD..]
  }

  /** The joiner copies 32 bytes of SSID and 64 of password out of the payload. */
  function Stored(payload: string): RouterCfg
    requires |payload| >= SSID_SIZE + PASSWORD_SIZE
  {
    RouterCfg(payload[..SSID_SIZE], payload[SSID_SIZE..SSID_SIZE + PASSWORD_SIZE])
  }

  predicate IsPayload(s: string)
  {
    |s| >= SSID_SIZE + PASSWORD_SIZE && Short(Stored(s))
  }

  lemma BlankPayload()
    ensures IsPayload(Padded("", SSID_SIZE + PASSWORD_SIZE))
  {
  }

  function Fields(c: Router, rest: Rest): string
  {
    Padded(CString(c.ssid, SSID_SIZE), FIELD) + Padded(CString(c.password, PASSWORD_SIZE), FIELD) + rest
  }

  /** The joiner's copy of the password runs on into the fields behind it, but it reads the
      same credentials the provisioner has. */
  lemma PayloadCarries(c: Router, rest: Rest)
    ensures IsPayload(Fields(c, rest)) && Reads(Stored(Fields(c, rest))) == Reads(c) && Settings(Fields(c, rest)) == rest
  {
    var ssid, password := CString(c.ssid, SSID_SIZE), CString(c.password, PASSWORD_SIZE);
    var s := Fields(c, rest);
    assert s[..SSID_SIZE] == Padded(ssid, FIELD);
    assert s[SSID_SIZE..SSID_SIZE + PASSWORD_SIZE] == Padded(password, FIELD) + rest[..FIELD];
    CStringUnique(s[..SSID_SIZE], SSID_SIZE, ssid);
    CStringUnique(s[SSID_SIZE..SSID_SIZE + PASSWORD_SIZE], PASSWORD_SIZE, password);
  }

  type Payload = s: string | IsPayload(s) ghost witness (BlankPayload(); Padded("", SSID_SIZE + PASSWORD_SIZE))

  function InfoPayload(c: Router, rest: Rest): (p: Payload)
    ensures Reads(Stored(p)) == Reads(c) && Settings(p) == rest
  {
    PayloadCarries(c, rest);
    Fields(c, rest)
  }

  // ---- one device

  datatype Body = Broadcast | Info(payload: Payload) | Confirm | Ack

  /** A message to one device, or to all when `to` is None. */
  datatype Msg = Msg(from: Address, to: Option<Address>, body: Body)

  /** timer: resend_timer exists. informed: an INFO was taken, and resend_timer started.
      settings: channel, mesh id, random number and softAP data of that INFO, which are put to
      use at once. connects: what zero_prov_connect_ap was called with. router: the router configuration of
      the mesh core, which an INFO is filled from. */
  datatype Device = Device(timer: bool, informed: bool, done: bool, provisioner: bool, provisioned: bool,
                           cfg: Router, settings: string, peer: Address, router: Router, connects: seq<Router>)

  /** What the surroundings contribute to a reception: the settings a provisioner would send,
      and whether its two validation hooks admit the sender of a broadcast. */
  datatype Site = Site(rest: Rest, admits: bool)

  /** zero_prov_recieve_handle: the device afterwards and the message it sends, if any. */
  function Handle(me: Address, d: Device, m: Msg, site: Site): (Device, Option<Msg>)
  {
    match m.body
    case Broadcast =>
      if d.provisioner && d.provisioned && site.admits
      then (d, Some(Msg(me, Some(m.from), Info(InfoPayload(d.router, site.rest)))))
      else (d, None)
    case Info(payload) =>
      if !d.timer then (d, None)
      else (d.(informed := true, provisioned := true, cfg := Stored(payload),
               settings := Settings(payload), peer := m.from),
            Some(Msg(me, Some(m.from), Confirm)))
    case Confirm => (d, Some(Msg(me, Some(m.from), Ack)))
    case Ack =>
      if d.done then (d.(timer := false), None)
      else (d.(timer := false, done := true, router := d.cfg, connects := d.connects + [d.cfg]), None)
  }

  /** What the resend timer sends, while it runs. */
  function Resent(me: Address, d: Device): Option<Msg>
  {
    if d.timer && d.informed then Some(Msg(me, Some(d.peer), Confirm)) else None
  }

  /** A device after zero_prov_init: a joiner has the resend timer, a provisioned one does
      not. */
  predicate Initial(d: Device)
  {
    !d.informed && !d.done && !d.provisioner && d.connects == [] && d.timer == !d.provisioned
  }

  // ---- the code of one device

  method CopyFrom(dst: array<char>, src: string)
    requires dst.Length <= |src|
    modifies dst
    ensures dst[..] == src[..dst.Length]
  {
    var i := 0;
    while i < dst.Length
      invariant 0 <= i <= dst.Length && dst[..i] == src[..i]
    {
      dst[i] := src[i];
      i := i + 1;
    }
  }

  /** The static state of zero_provisioning.c. router_cfg is kept in its two buffers. */
  class Endpoint {
    const me: Address
    const cfgSsid: array<char>
    const cfgPassword: array<char>
    var resendTimer: bool
    var resending: bool
    var done: bool
    var provisioner: bool
    var provisioned: bool
    var settings: string
    var resendMac: Address
    var router: Router
    var connects: seq<Router>

    ghost function Cfg(): RouterCfg
      reads cfgSsid, cfgPassword
    {
      RouterCfg(cfgSsid[..], cfgPassword[..])
    }

    ghost predicate Valid()
      reads this, cfgSsid, cfgPassword
    {
      cfgSsid != cfgPassword && Short(Cfg())
    }

    ghost function State(): Device
      requires Valid()
      reads this, cfgSsid, cfgPassword
    {
      Device(resendTimer, resending, done, provisioner, provisioned, Cfg(), settings, resendMac, router, connects)
    }

    constructor (me: Address, provisioned: bool, router: Router)
      ensures Valid() && this.me == me && Initial(State()) && State().provisioned == provisioned && State().router == router
      ensures Cfg() == BLANK && fresh(cfgSsid) && fresh(cfgPassword)
    {
      this.me, this.provisioned, this.router := me, provisioned, router;
      cfgSsid := new char[SSID_SIZE](_ => '\0');
      cfgPassword := new char[PASSWORD_SIZE](_ => '\0');
      resendTimer, resending, done, provisioner, settings, resendMac, connects := !provisioned, false, false, false, "", 0, [];
      new;
      assert Cfg() == BLANK;
    }

    method OnInfo(from: Address, payload: Payload, ghost site: Site) returns (reply: Option<Msg>)
      requires Valid()
      modifies `resending, `provisioned, `settings, `resendMac, cfgSsid, cfgPassword
      ensures Valid() && (State(), reply) == Handle(me, old(State()), Msg(from, Some(me), Info(payload)), site)
    {
      if !resendTimer {
        return None;
      }
      reply := Some(Msg(me, Some(from), Confirm));
      resendMac := from;
      resending, provisioned := true, true;
      settings := payload[2 * FIELD..];
      CopyFrom(cfgSsid, payload);
      CopyFrom(cfgPassword, payload[SSID_SIZE..]);
      assert payload[SSID_SIZE..][..PASSWORD_SIZE] == payload[SSID_SIZE..SSID_SIZE + PASSWORD_SIZE];
      assert Cfg() == Stored(payload);
    }

    method ConnectAp()
      requires Valid()
      modifies `router, `connects
      ensures router == Cfg() && connects == old(connects) + [router]
    {
      router := RouterCfg(cfgSsid[..], cfgPassword[..]);
      connects := connects + [router];
    }

    method OnAck(from: Address, ghost site: Site)
      requires Valid()
      modifies `resendTimer, `done, `router, `connects
      ensures Valid() && (State(), None) == Handle(me, old(State()), Msg(from, Some(me), Ack), site)
      ensures !resendTimer && done && (old(done) ==> connects == old(connects) && router == old(router))
    {
      resendTimer := false;
      if !done {
        ConnectAp();
      }
      done := true;
    }

    /** A broadcast is answered with the router's credentials, by a provisioner only
        and if the validation hooks admit its sender; a confirmation by anybody. */
    method Answer(m: Msg, site: Site) returns (reply: Option<Msg>)
      requires Valid() && (m.body.Broadcast? || m.body.Confirm?)
      ensures (State(), reply) == Handle(me, State(), m, site)
    {
      if m.body.Confirm? {
        return Some(Msg(me, Some(m.from), Ack));
      }
      if !provisioner || !provisioned {
        return None;
      }
      if !site.admits {
        return None;
      }
      return Some(Msg(me, Some(m.from), Info(InfoPayload(router, site.rest))));
    }

    method ReceiveHandle(m: Msg, site: Site) returns (reply: Option<Msg>)
      requires Valid()
      modifies this, cfgSsid, cfgPassword
      ensures Valid() && (State(), reply) == Handle(me, old(State()), m, site)
    {
      match m.body
      case Broadcast => reply := Answer(m, site);
      case Confirm => reply := Answer(m, site);
      case Info(payload) => reply := OnInfo(m.from, payload, site);
      case Ack =>
        OnAck(m.from, site);
        reply := None;
    }

    /** resend_timer_timercb: the message goes where ResendGoesToPeer says. */
    method OnResendTimer() returns (m: Msg)
      requires Valid() && resendTimer && resending
      ensures Resent(me, State()) == Some(m)
    {
      return Msg(me, Some(resendMac), Confirm);
    }
  }

  // ---- any number of devices on a radio that loses, repeats and reorders

  /** `sent` only grows: a message in it may be received any number of times, or never. */
  datatype Net = Net(devices: map<Address, Device>, sent: set<Msg>)

  datatype Action =
    | Beacon(n: Address)
    | Receive(n: Address, msg: Msg, site: Site)
    | Resend(n: Address)
    | Listen(n: Address)                    // zero_prov_listening
    | SetRouter(n: Address, router: Router) // credentials that come in some other way

  function Act(net: Net, a: Action): (Device, Option<Msg>)
    requires a.n in net.devices
  {
    var d := net.devices[a.n];
    match a
    case Beacon(n) => (d, Some(Msg(n, None, Broadcast)))
    case Receive(n, m, site) => if m in net.sent && (m.to == None || m.to == Some(n)) then Handle(n, d, m, site) else (d, None)
    case Resend(n) => (d, Resent(n, d))
    case Listen(_) => (d.(provisioner := true), None)
    case SetRouter(_, router) => (d.(router := router, provisioned := true), None)
  }

  function Send(sent: set<Msg>, m: Option<Msg>): set<Msg>
  {
    if m.Some? then sent + {m.value} else sent
  }

  function Step(net: Net, a: Action): Net
  {
    if a.n !in net.devices then net
    else
      var (d, m) := Act(net, a);
      Net(net.devices[a.n := d], Send(net.sent, m))
  }

  function Run(net: Net, actions: seq<Action>): Net
    decreases |actions|
  {
    if actions == [] then net else Step(Run(net, actions[..|actions| - 1]), actions[|actions| - 1])
  }

  ghost predicate Start(net: Net)
  {
    net.sent == {} && forall n :: n in net.devices ==> Initial(net.devices[n])
  }

  // ---- what every run keeps

  /** m is an INFO to n that carries cfg. */
  predicate Carries(m: Msg, n: Address, cfg: RouterCfg)
  {
    m.to == Some(n) && m.body.Info? && Stored(m.body.payload) == cfg
  }

  /** m is an INFO from the peer of d that carries its credentials to n. */
  predicate Informs(m: Msg, n: Address, d: Device)
  {
    Carries(m, n, d.cfg) && m.from == d.peer
  }

  ghost predicate FromInfo(sent: set<Msg>, n: Address, d: Device)
  {
    exists m :: m in sent && Informs(m, n, d)
  }

  ghost predicate DeviceOk(sent: set<Msg>, n: Address, d: Device)
  {
    && (d.informed ==> FromInfo(sent, n, d))
    && (if d.done then d.connects == [d.cfg] && d.informed && !d.timer else d.connects == [])
  }

  ghost predicate MsgOk(devices: map<Address, Device>, m: Msg)
  {
    match m.body
    case Broadcast => true
    case Info(_) => m.to.Some? && m.from in devices && devices[m.from].provisioner && devices[m.from].provisioned
    case Confirm => m.from in devices && devices[m.from].informed
    case Ack => m.to.Some? && m.to.value in devices && devices[m.to.value].informed
  }

  ghost predicate DevicesOk(net: Net)
  {
    forall n {:trigger DeviceOk(net.sent, n, net.devices[n])} :: n in net.devices ==> DeviceOk(net.sent, n, net.devices[n])
  }

  ghost predicate MsgsOk(devices: map<Address, Device>, sent: set<Msg>)
  {
    forall m {:trigger MsgOk(devices, m)} :: m in sent ==> MsgOk(devices, m)
  }

  ghost predicate Inv(net: Net)
  {
    DevicesOk(net) && MsgsOk(net.devices, net.sent)
  }

  /** What a device, once it has it, keeps. */
  predicate Grows(d: Device, e: Device)
  {
    (d.informed ==> e.informed) && (d.provisioner ==> e.provisioner) && (d.provisioned ==> e.provisioned)
  }

  lemma MoreSent(sent: set<Msg>, m: Option<Msg>, n: Address, d: Device)
    requires DeviceOk(sent, n, d)
    ensures DeviceOk(Send(sent, m), n, d)
  {
    if d.informed {
      var i :| i in sent && Informs(i, n, d);
      assert i in Send(sent, m);
    }
  }

  lemma InfoKeeps(net: Net, n: Address, m: Msg, site: Site)
    requires n in net.devices && m in net.sent && m.body.Info? && m.to == Some(n) && DeviceOk(net.sent, n, net.devices[n])
    ensures DeviceOk(net.sent, n, Handle(n, net.devices[n], m, site).0)
  {
    var d := net.devices[n];
    if d.timer {
      assert Informs(m, n, Handle(n, d, m, site).0);
    }
  }

  /** One device's turn: it keeps what it has, stays in order, and sends only messages that
      are. */
  lemma ActKeeps(net: Net, a: Action)
    requires a.n in net.devices && Inv(net)
    ensures var (d, m) := Act(net, a);
      && Grows(net.devices[a.n], d)
      && DeviceOk(net.sent, a.n, d)
      && (m.Some? ==> MsgOk(net.devices[a.n := d], m.value))
  {
    assert DeviceOk(net.sent, a.n, net.devices[a.n]);
    if a.Receive? && a.msg in net.sent && (a.msg.to == None || a.msg.to == Some(a.n)) {
      assert MsgOk(net.devices, a.msg);
      if a.msg.body.Info? {
        InfoKeeps(net, a.n, a.msg, a.site);
      }
    }
  }

  lemma MsgStays(devices: map<Address, Device>, n: Address, d: Device, m: Msg)
    requires n in devices && Grows(devices[n], d) && MsgOk(devices, m)
    ensures MsgOk(devices[n := d], m)
  {
  }

  lemma StepInv(net: Net, a: Action)
    requires Inv(net)
    ensures Inv(Step(net, a))
  {
    if a.n in net.devices {
      var (d, m) := Act(net, a);
      var next := Step(net, a);
      ActKeeps(net, a);
      forall n | n in next.devices ensures DeviceOk(next.sent, n, next.devices[n]) {
        assert n != a.n ==> DeviceOk(net.sent, n, net.devices[n]);
        MoreSent(net.sent, m, n, next.devices[n]);
      }
      forall i | i in next.sent ensures MsgOk(next.devices, i) {
        if i in net.sent {
          assert MsgOk(net.devices, i);
          MsgStays(net.devices, a.n, d, i);
        }
      }
    }
  }

  lemma {:induction false} RunInv(start: Net, actions: seq<Action>)
    requires Start(start)
    ensures Inv(Run(start, actions))
    decreases |actions|
  {
    if actions == [] {
      assert forall n :: n in start.devices ==> Initial(start.devices[n]);
    } else {
      RunInv(start, actions[..|actions| - 1]);
      StepInv(Run(start, actions[..|actions| - 1]), actions[|actions| - 1]);
    }
  }

  /** m carried cfg to n, from a device that listens and is provisioned. */
  ghost predicate Delivered(net: Net, m: Msg, n: Address, cfg: RouterCfg)
  {
    && m in net.sent && Carries(m, n, cfg)
    && m.from in net.devices && net.devices[m.from].provisioner && net.devices[m.from].provisioned
  }

  /** On every run a device connects at most once, and with exactly what an INFO carried that
      a listening, provisioned device sent to it. */
  lemma ConnectsOnce(start: Net, actions: seq<Action>, n: Address)
    requires Start(start) && n in Run(start, actions).devices
    ensures var net := Run(start, actions); var connects := net.devices[n].connects;
      && |connects| <= 1
      && (connects != [] ==> exists m :: Delivered(net, m, n, connects[0]))
  {
    var net := Run(start, actions);
    RunInv(start, actions);
    assert DeviceOk(net.sent, n, net.devices[n]);
    if net.devices[n].connects != [] {
      var m :| m in net.sent && Informs(m, n, net.devices[n]);
      assert MsgOk(net.devices, m);
      assert Delivered(net, m, n, net.devices[n].connects[0]);
    }
  }

  lemma PeerInformed(net: Net, n: Address) returns (m: Msg)
    requires Inv(net) && n in net.devices && net.devices[n].timer && net.devices[n].informed
    ensures Delivered(net, m, n, net.devices[n].cfg) && m.from == net.devices[n].peer
    ensures !net.devices[n].done && net.devices[n].connects == []
  {
    assert DeviceOk(net.sent, n, net.devices[n]);
    m :| m in net.sent && Informs(m, n, net.devices[n]);
    assert MsgOk(net.devices, m);
  }

  lemma AckConnects(n: Address, d: Device, ack: Msg, site: Site)
    requires ack.body.Ack? && !d.done && d.connects == []
    ensures Handle(n, d, ack, site).0.connects == [d.cfg]
  {
  }

  /** A confirmation that is repeated goes to a device whose INFO holds the credentials this
      joiner connects with, should an ACK arrive before another INFO. */
  lemma ResendGoesToPeer(start: Net, actions: seq<Action>, n: Address, ack: Msg, site: Site)
    requires Start(start) && n in Run(start, actions).devices && ack.body.Ack?
    ensures var net := Run(start, actions);
      var resent := Act(net, Resend(n)).1;
      resent.Some? ==> (
        && resent.value.body == Confirm && resent.value.to.Some?
        && Handle(n, net.devices[n], ack, site).0.connects == [net.devices[n].cfg]
        && exists m :: Delivered(net, m, n, net.devices[n].cfg) && Some(m.from) == resent.value.to)
  {
    var net := Run(start, actions);
    RunInv(start, actions);
    if Resent(n, net.devices[n]).Some? {
      var m := PeerInformed(net, n);
      AckConnects(n, net.devices[n], ack, site);
      assert Delivered(net, m, n, net.devices[n].cfg) && Some(m.from) == Resent(n, net.devices[n]).value.to;
    }
  }

  lemma StepIsFinal(net: Net, a: Action, n: Address)
    requires Inv(net) && n in net.devices && net.devices[n].connects != []
    ensures n in Step(net, a).devices
    ensures Step(net, a).devices[n].connects == net.devices[n].connects && Step(net, a).devices[n].cfg == net.devices[n].cfg
    ensures Step(net, a).devices[n].settings == net.devices[n].settings
  {
    assert DeviceOk(net.sent, n, net.devices[n]);
  }

  lemma RunLast(net: Net, before: seq<Action>, after: seq<Action>)
    requires after != []
    ensures Run(net, before + after) == Step(Run(net, before + after[..|after| - 1]), after[|after| - 1])
  {
    assert (before + after)[..|before + after| - 1] == before + after[..|after| - 1];
  }

  /** Once a device has connected, nothing received later changes what it connected with or
      makes it connect again. */
  lemma {:induction false} ConnectIsFinal(start: Net, before: seq<Action>, after: seq<Action>, n: Address)
    requires Start(start) && n in Run(start, before).devices && Run(start, before).devices[n].connects != []
    ensures n in Run(start, before + after).devices
    ensures Run(start, before + after).devices[n].connects == Run(start, before).devices[n].connects
    ensures Run(start, before + after).devices[n].cfg == Run(start, before).devices[n].cfg
    ensures Run(start, before + after).devices[n].settings == Run(start, before).devices[n].settings
    decreases |after|
  {
    if after == [] {
      assert before + after == before;
    } else {
      var earlier := after[..|after| - 1];
      ConnectIsFinal(start, before, earlier, n);
      RunInv(start, before + earlier);
      StepIsFinal(Run(start, before + earlier), after[|after| - 1], n);
      RunLast(start, before, after);
    }
  }

  predicate StaysOut(d: Device)
  {
    !d.timer && !d.informed && d.connects == []
  }

  lemma StepStaysOut(net: Net, a: Action, n: Address)
    requires Inv(net) && n in net.devices && StaysOut(net.devices[n])
    ensures n in Step(net, a).devices && StaysOut(Step(net, a).devices[n])
  {
    if a.Receive? && a.n == n && a.msg in net.sent {
      assert MsgOk(net.devices, a.msg);
    }
  }

  /** Only a joiner ever connects: without the resend timer of an unprovisioned start no INFO
      is taken, so no ACK is ever addressed to the device. */
  lemma {:induction false} OnlyJoiners(start: Net, actions: seq<Action>, n: Address)
    requires Start(start) && n in start.devices && start.devices[n].provisioned
    ensures n in Run(start, actions).devices && StaysOut(Run(start, actions).devices[n])
    decreases |actions|
  {
    if actions == [] {
      assert Initial(start.devices[n]);
    } else {
      var before := actions[..|actions| - 1];
      OnlyJoiners(start, before, n);
      RunInv(start, before);
      StepStaysOut(Run(start, before), actions[|actions| - 1], n);
    }
  }

  // ---- where credentials come from

  ghost predicate InfoFrom(known: set<Credentials>, m: Msg)
  {
    m.body.Info? ==> Reads(Stored(m.body.payload)) in known
  }

  ghost predicate RouterFrom(known: set<Credentials>, d: Device)
  {
    Reads(d.router) in known
  }

  /** Every router configuration and every INFO holds known credentials. */
  ghost predicate Sourced(known: set<Credentials>, net: Net)
  {
    && (forall n {:trigger RouterFrom(known, net.devices[n])} :: n in net.devices ==> RouterFrom(known, net.devices[n]))
    && (forall m {:trigger InfoFrom(known, m)} :: m in net.sent ==> InfoFrom(known, m))
  }

  ghost predicate SetsKnown(known: set<Credentials>, actions: seq<Action>)
  {
    forall i :: 0 <= i < |actions| && actions[i].SetRouter? ==> Reads(actions[i].router) in known
  }

  lemma StepSourced(known: set<Credentials>, net: Net, a: Action)
    requires Inv(net) && Sourced(known, net) && (a.SetRouter? ==> Reads(a.router) in known)
    ensures Sourced(known, Step(net, a))
  {
    if a.n in net.devices {
      var (d, m) := Act(net, a);
      var next := Step(net, a);
      assert RouterFrom(known, net.devices[a.n]);
      AckConnectsKnown(known, net, a);
      forall n | n in next.devices ensures RouterFrom(known, next.devices[n]) {
        assert n != a.n ==> RouterFrom(known, net.devices[n]);
      }
      forall i | i in next.sent ensures InfoFrom(known, i) {
        assert i in net.sent ==> InfoFrom(known, i);
      }
    }
  }

  lemma AckConnectsKnown(known: set<Credentials>, net: Net, a: Action)
    requires a.n in net.devices && Inv(net) && Sourced(known, net) && (a.SetRouter? ==> Reads(a.router) in known)
    ensures RouterFrom(known, Act(net, a).0)
    ensures Act(net, a).1.Some? ==> InfoFrom(known, Act(net, a).1.value)
  {
    var d := net.devices[a.n];
    assert RouterFrom(known, d) && DeviceOk(net.sent, a.n, d);
    if a.Receive? && a.msg in net.sent && a.msg.body.Ack? && (a.msg.to == None || a.msg.to == Some(a.n)) {
      assert MsgOk(net.devices, a.msg);
      var m :| m in net.sent && Informs(m, a.n, d);
      assert InfoFrom(known, m);
    }
  }

  /** Whatever is lost, repeated or reordered, and however far credentials travel from device
      to device: nobody connects with credentials that no device had to begin with or was
      given otherwise. */
  lemma {:induction false} CredentialsAreKnown(known: set<Credentials>, start: Net, actions: seq<Action>)
    requires Start(start) && Sourced(known, start) && SetsKnown(known, actions)
    ensures Sourced(known, Run(start, actions))
    decreases |actions|
  {
    if actions != [] {
      var before := actions[..|actions| - 1];
      CredentialsAreKnown(known, start, before);
      RunInv(start, before);
      StepSourced(known, Run(start, before), actions[|actions| - 1]);
    }
  }

  lemma ConnectsKnown(known: set<Credentials>, start: Net, actions: seq<Action>, n: Address)
    requires Start(start) && Sourced(known, start) && SetsKnown(known, actions)
    requires n in Run(start, actions).devices && Run(start, actions).devices[n].connects != []
    ensures Reads(Run(start, actions).devices[n].connects[0]) in known
  {
    var net := Run(start, actions);
    RunInv(start, actions);
    CredentialsAreKnown(known, start, actions);
    assert DeviceOk(net.sent, n, net.devices[n]);
    var m :| m in net.sent && Informs(m, n, net.devices[n]);
    assert InfoFrom(known, m);
  }

  predicate CanJoin(net: Net, j: Address, p: Address)
  {
    && j in net.devices && p in net.devices && j != p
    && net.devices[j].timer && !net.devices[j].done
    && net.devices[p].provisioner && net.devices[p].provisioned
  }

  /** The joiner's broadcast is answered, and it takes the answer. */
  lemma GetsInfo(net: Net, j: Address, p: Address, rest: Rest) returns (after: Net)
    requires CanJoin(net, j, p)
    ensures var bc := Msg(j, None, Broadcast); var info := Msg(p, Some(j), Info(InfoPayload(net.devices[p].router, rest)));
      after == Step(Step(Step(net, Beacon(j)), Receive(p, bc, Site(rest, true))), Receive(j, info, Site(rest, true)))
    ensures CanJoin(after, j, p) && Msg(j, Some(p), Confirm) in after.sent && SameOthers(net, after, j)
    ensures after.devices[j].settings == rest && after.devices[j].provisioned && after.devices[j].peer == p
    ensures Reads(after.devices[j].cfg) == Reads(net.devices[p].router) && after.devices[j].connects == net.devices[j].connects
  {
    var bc, info := Msg(j, None, Broadcast), Msg(p, Some(j), Info(InfoPayload(net.devices[p].router, rest)));
    var n0 := Step(net, Beacon(j));
    BroadcastAnswered(n0, j, p, Site(rest, true));
    var n1 := Step(n0, Receive(p, bc, Site(rest, true)));
    InfoTaken(n1, j, info, Site(rest, true));
    after := Step(n1, Receive(j, info, Site(rest, true)));
  }

  lemma BroadcastAnswered(net: Net, j: Address, p: Address, site: Site)
    requires CanJoin(net, j, p) && Msg(j, None, Broadcast) in net.sent && site.admits
    ensures var after := Step(net, Receive(p, Msg(j, None, Broadcast), site));
      after.devices == net.devices && Msg(p, Some(j), Info(InfoPayload(net.devices[p].router, site.rest))) in after.sent
  {
  }

  lemma InfoTaken(net: Net, j: Address, info: Msg, site: Site)
    requires j in net.devices && net.devices[j].timer && info in net.sent && info.to == Some(j) && info.body.Info?
    ensures var after := Step(net, Receive(j, info, site)); var d := net.devices[j];
      && after.devices == net.devices[j := d.(informed := true, provisioned := true, cfg := Stored(info.body.payload),
           settings := Settings(info.body.payload), peer := info.from)]
      && Msg(j, Some(info.from), Confirm) in after.sent
  {
  }

  /** Nobody but j has changed. */
  ghost predicate SameOthers(net: Net, after: Net, j: Address)
  {
    net.devices.Keys == after.devices.Keys && forall n :: n in net.devices && n != j ==> after.devices[n] == net.devices[n]
  }

  /** j is on the network of c, with these settings, informed by p. */
  predicate OnNetwork(d: Device, c: Credentials, rest: Rest, p: Address)
  {
    && |d.connects| == 1 && Reads(d.connects[0]) == c && d.settings == rest && d.peer == p
    && d.provisioned && Reads(d.router) == c
  }

  /** Its confirmation is acknowledged, and it connects. */
  lemma GetsAck(net: Net, j: Address, p: Address, rest: Rest) returns (after: Net)
    requires CanJoin(net, j, p) && Msg(j, Some(p), Confirm) in net.sent
    ensures after == Step(Step(net, Receive(p, Msg(j, Some(p), Confirm), Site(rest, true))),
                          Receive(j, Msg(p, Some(j), Ack), Site(rest, true)))
    ensures SameOthers(net, after, j) && after.devices[j] == Connected(net.devices[j])
  {
    var n0 := Step(net, Receive(p, Msg(j, Some(p), Confirm), Site(rest, true)));
    Acknowledged(net, j, p, Site(rest, true));
    after := Step(n0, Receive(j, Msg(p, Some(j), Ack), Site(rest, true)));
    AckTaken(n0, j, Msg(p, Some(j), Ack), Site(rest, true));
  }

  /** A device that has connected with what it had stored. */
  function Connected(d: Device): Device
  {
    d.(timer := false, done := true, router := d.cfg, connects := d.connects + [d.cfg])
  }

  lemma Acknowledged(net: Net, j: Address, p: Address, site: Site)
    requires CanJoin(net, j, p) && Msg(j, Some(p), Confirm) in net.sent
    ensures var n0 := Step(net, Receive(p, Msg(j, Some(p), Confirm), site));
      n0.devices == net.devices && Msg(p, Some(j), Ack) in n0.sent
  {
  }

  lemma AckTaken(net: Net, j: Address, ack: Msg, site: Site)
    requires j in net.devices && !net.devices[j].done && ack in net.sent && ack.to == Some(j) && ack.body.Ack?
    ensures var after := Step(net, Receive(j, ack, site));
      after.devices == net.devices[j := Connected(net.devices[j])]
  {
  }

  lemma RunSnoc(net: Net, actions: seq<Action>, a: Action)
    ensures Run(net, actions + [a]) == Step(Run(net, actions), a)
  {
  }

  lemma RunFive(net: Net, a: Action, b: Action, c: Action, d: Action, e: Action)
    ensures Run(net, [a, b, c, d, e]) == Step(Step(Step(Step(Step(net, a), b), c), d), e)
  {
    RunSnoc(net, [], a);
    RunSnoc(net, [a], b);
    RunSnoc(net, [a, b], c);
    RunSnoc(net, [a, b, c], d);
    RunSnoc(net, [a, b, c, d], e);
    assert [a, b] == [a] + [b] && [a, b, c] == [a, b] + [c] && [a, b, c, d] == [a, b, c] + [d];
    assert [a, b, c, d, e] == [a, b, c, d] + [e] && [] + [a] == [a];
  }

  /** Five steps connect a joiner that the hooks admit to what a provisioner has, and concern
      nobody else. */
  lemma Joins(net: Net, j: Address, p: Address, rest: Rest) returns (more: seq<Action>)
    requires Inv(net) && CanJoin(net, j, p)
    ensures var after := Run(net, more);
      && |more| == 5 && SameOthers(net, after, j) && j in after.devices
      && OnNetwork(after.devices[j], Reads(net.devices[p].router), rest, p)
  {
    assert DeviceOk(net.sent, j, net.devices[j]);
    var informed := GetsInfo(net, j, p, rest);
    var after := GetsAck(informed, j, p, rest);
    var info := Msg(p, Some(j), Info(InfoPayload(net.devices[p].router, rest)));
    more := [Beacon(j), Receive(p, Msg(j, None, Broadcast), Site(rest, true)), Receive(j, info, Site(rest, true)),
             Receive(p, Msg(j, Some(p), Confirm), Site(rest, true)), Receive(j, Msg(p, Some(j), Ack), Site(rest, true))];
    RunFive(net, more[0], more[1], more[2], more[3], more[4]);
  }

  /** And the handshake works: from every reachable state, five steps connect a joiner that the
      hooks admit to what a provisioner has, with the settings it sends. */
  lemma HandshakeCompletes(start: Net, actions: seq<Action>, j: Address, p: Address, rest: Rest) returns (more: seq<Action>)
    requires Start(start) && CanJoin(Run(start, actions), j, p)
    ensures var net := Run(start, actions); var after := Run(net, more);
      |more| == 5 && j in after.devices && |after.devices[j].connects| == 1
      && Reads(after.devices[j].connects[0]) == Reads(net.devices[p].router) && after.devices[j].settings == rest
  {
    RunInv(start, actions);
    more := Joins(Run(start, actions), j, p, rest);
  }

  /** What the resending is for: a joiner that took an INFO gets on the network in three steps
      from every reachable state, whatever confirmations and acknowledgements were lost. */
  lemma RetryCompletes(start: Net, actions: seq<Action>, j: Address, site: Site)
    requires Start(start) && j in Run(start, actions).devices
    requires Run(start, actions).devices[j].timer && Run(start, actions).devices[j].informed
    ensures var net := Run(start, actions); var d := net.devices[j];
      var retried := Step(net, Resend(j));
      var acked := Step(retried, Receive(d.peer, Msg(j, Some(d.peer), Confirm), site));
      var after := Step(acked, Receive(j, Msg(d.peer, Some(j), Ack), site));
      j in after.devices && after.devices[j].connects == [d.cfg] && after.devices[j].router == d.cfg
  {
    var net := Run(start, actions);
    var d := net.devices[j];
    RunInv(start, actions);
    var m := PeerInformed(net, j);
    var retried := Step(net, Resend(j));
    ConfirmAcked(retried, d.peer, j, site);
    AckTaken(Step(retried, Receive(d.peer, Msg(j, Some(d.peer), Confirm), site)), j, Msg(d.peer, Some(j), Ack), site);
  }

  /** Anybody answers a confirmation addressed to it, and only with an acknowledgement. */
  lemma ConfirmAcked(net: Net, p: Address, from: Address, site: Site)
    requires p in net.devices && Msg(from, Some(p), Confirm) in net.sent
    ensures var after := Step(net, Receive(p, Msg(from, Some(p), Confirm), site));
      after.devices == net.devices && after.sent == net.sent + {Msg(p, Some(from), Ack)}
  {
  }

  lemma {:induction false} RunConcat(net: Net, before: seq<Action>, after: seq<Action>)
    ensures Run(net, before + after) == Run(Run(net, before), after)
    decreases |after|
  {
    if after == [] {
      assert before + after == before;
    } else {
      RunLast(net, before, after);
      RunConcat(net, before, after[..|after| - 1]);
    }
  }

  /** Devices that wait for credentials, in the order in which they shall get them. */
  ghost predicate Chain(net: Net, p: Address, chain: seq<Address>)
  {
    && (forall i :: 0 <= i < |chain| ==> CanJoin(net, chain[i], p))
    && forall i, j :: 0 <= i < j < |chain| ==> chain[i] != chain[j]
  }

  ghost predicate Linked(after: Net, p: Address, chain: seq<Address>, c: Credentials, rest: Rest, i: int)
  {
    0 <= i < |chain| ==>
      chain[i] in after.devices && OnNetwork(after.devices[chain[i]], c, rest, if i == 0 then p else chain[i - 1])
  }

  lemma ChainShrinks(net: Net, next: Net, p: Address, chain: seq<Address>)
    requires Chain(net, p, chain) && chain != [] && SameOthers(net, next, chain[0])
    requires next.devices[chain[0]].provisioner && next.devices[chain[0]].provisioned
    ensures Chain(next, chain[0], chain[1..])
  {
    forall i | 0 <= i < |chain[1..]| ensures CanJoin(next, chain[1..][i], chain[0]) {
      assert CanJoin(net, chain[i + 1], p) && chain[0] != chain[i + 1];
    }
  }

  /** One link: the first device of a chain joins and listens. */
  lemma LinkUp(net: Net, j: Address, p: Address, rest: Rest) returns (more: seq<Action>)
    requires Inv(net) && CanJoin(net, j, p)
    ensures var next := Run(net, more);
      && |more| == 6 && Inv(next) && SameOthers(net, next, j) && j in next.devices
      && OnNetwork(next.devices[j], Reads(net.devices[p].router), rest, p) && next.devices[j].provisioner
  {
    var five := Joins(net, j, p, rest);
    RunKeepsInv(net, five);
    RunSnoc(net, five, Listen(j));
    StepInv(Run(net, five), Listen(j));
    ListenOnly(Run(net, five), j);
    more := five + [Listen(j)];
  }

  lemma ListenOnly(net: Net, j: Address)
    requires j in net.devices
    ensures Step(net, Listen(j)).devices == net.devices[j := net.devices[j].(provisioner := true)]
  {
  }

  lemma {:induction false} RunKeepsInv(net: Net, actions: seq<Action>)
    requires Inv(net)
    ensures Inv(Run(net, actions))
    decreases |actions|
  {
    if actions != [] {
      RunKeepsInv(net, actions[..|actions| - 1]);
      StepInv(Run(net, actions[..|actions| - 1]), actions[|actions| - 1]);
    }
  }

  /** The handshake spreads: a device that has joined and listens passes the credentials on, so
      from every reachable state they travel along any chain of joiners, each informed by the
      one before it, in six steps a device, and concern nobody else. */
  lemma {:induction false} Spreads(net: Net, p: Address, chain: seq<Address>, rest: Rest) returns (more: seq<Action>)
    requires Inv(net) && p in net.devices && Chain(net, p, chain)
    ensures var after := Run(net, more);
      && |more| == 6 * |chain|
      && (forall i {:trigger Linked(after, p, chain, Reads(net.devices[p].router), rest, i)} ::
            Linked(after, p, chain, Reads(net.devices[p].router), rest, i))
      && forall n {:trigger Unchanged(net, after, n)} :: n !in chain ==> Unchanged(net, after, n)
    decreases |chain|
  {
    if chain == [] {
      more := [];
    } else {
      var j, c := chain[0], Reads(net.devices[p].router);
      assert CanJoin(net, j, p);
      var link := LinkUp(net, j, p, rest);
      var next := Run(net, link);
      ChainShrinks(net, next, p, chain);
      var others := Spreads(next, j, chain[1..], rest);
      RunConcat(net, link, others);
      more := link + others;
      assert chain == [j] + chain[1..];
      LinksOn(net, next, Run(next, others), p, j, chain[1..], c, rest);
    }
  }

  lemma LinksOn(net: Net, next: Net, after: Net, p: Address, j: Address, tail: seq<Address>, c: Credentials, rest: Rest)
    requires SameOthers(net, next, j) && j in next.devices && OnNetwork(next.devices[j], c, rest, p) && j !in tail
    requires forall n {:trigger Unchanged(next, after, n)} :: n !in tail ==> Unchanged(next, after, n)
    requires forall i {:trigger Linked(after, j, tail, c, rest, i)} :: Linked(after, j, tail, c, rest, i)
    ensures forall i {:trigger Linked(after, p, [j] + tail, c, rest, i)} :: Linked(after, p, [j] + tail, c, rest, i)
    ensures forall n {:trigger Unchanged(net, after, n)} :: n !in [j] + tail ==> Unchanged(net, after, n)
  {
    assert Unchanged(next, after, j);
    forall i ensures Linked(after, p, [j] + tail, c, rest, i) {
      assert Linked(after, j, tail, c, rest, i - 1);
      LinkedOn(next, after, p, j, tail, c, rest, i);
    }
    forall n | n !in [j] + tail ensures Unchanged(net, after, n) {
      assert Unchanged(next, after, n);
    }
  }

  /** The links behind j, and j itself, which they leave as it is. */
  lemma LinkedOn(next: Net, after: Net, p: Address, j: Address, tail: seq<Address>, c: Credentials, rest: Rest, i: int)
    requires j in next.devices && j in after.devices && after.devices[j] == next.devices[j]
    requires OnNetwork(next.devices[j], c, rest, p) && Linked(after, j, tail, c, rest, i - 1)
    ensures Linked(after, p, [j] + tail, c, rest, i)
  {
  }

  predicate Unchanged(net: Net, after: Net, n: Address)
  {
    n in net.devices ==> n in after.devices && after.devices[n] == net.devices[n]
  }

  /** From every reachable state. */
  lemma HandshakeSpreads(start: Net, actions: seq<Action>, p: Address, chain: seq<Address>, rest: Rest)
    returns (more: seq<Action>)
    requires Start(start) && p in Run(start, actions).devices && Chain(Run(start, actions), p, chain)
    ensures |more| == 6 * |chain|
    ensures var c := Reads(Run(start, actions).devices[p].router); var after := Run(start, actions + more);
      forall i {:trigger Linked(after, p, chain, c, rest, i)} :: Linked(after, p, chain, c, rest, i)
  {
    RunInv(start, actions);
    more := Spreads(Run(start, actions), p, chain, rest);
    RunConcat(start, actions, more);
  }

  // ---- who answers a broadcast

  /** The action gives n credentials: it receives an INFO, or gets them in some other way. */
  predicate Equips(net: Net, n: Address, a: Action)
  {
    && a.n == n
    && (a.SetRouter? || (a.Receive? && a.msg.body.Info? && a.msg in net.sent && (a.msg.to == None || a.msg.to == Some(n))))
  }

  ghost predicate EquipsAt(start: Net, actions: seq<Action>, n: Address, i: int)
  {
    0 <= i < |actions| && Equips(Run(start, actions[..i]), n, actions[i])
  }

  ghost predicate Equipped(start: Net, actions: seq<Action>, n: Address)
  {
    exists i :: EquipsAt(start, actions, n, i)
  }

  lemma EquippedStep(start: Net, before: seq<Action>, a: Action, n: Address)
    ensures Equipped(start, before + [a], n) <==> Equipped(start, before, n) || Equips(Run(start, before), n, a)
  {
    var actions := before + [a];
    forall i | 0 <= i < |before| ensures EquipsAt(start, actions, n, i) == EquipsAt(start, before, n, i) {
      assert before[..i] == actions[..i];
    }
    assert actions[..|before|] == before;
    assert EquipsAt(start, actions, n, |before|) == Equips(Run(start, before), n, a);
    if i :| EquipsAt(start, actions, n, i) {
      assert i < |before| ==> EquipsAt(start, before, n, i);
    }
    if i :| EquipsAt(start, before, n, i) {
      assert EquipsAt(start, actions, n, i);
    }
  }

  /** d listens and has credentials as its history says; a joiner that has lost its timer has
      taken an INFO. */
  predicate Tracks(d: Device, joiner: bool, listened: bool, equipped: bool)
  {
    && d.provisioner == listened && d.provisioned == (!joiner || equipped)
    && (d.informed ==> d.provisioned) && (joiner ==> d.timer || d.done)
  }

  lemma StepTracks(net: Net, n: Address, a: Action, joiner: bool, listened: bool, equipped: bool)
    requires n in net.devices && DeviceOk(net.sent, n, net.devices[n]) && Tracks(net.devices[n], joiner, listened, equipped)
    ensures n in Step(net, a).devices
    ensures Tracks(Step(net, a).devices[n], joiner, listened || a == Listen(n), equipped || Equips(net, n, a))
  {
    if a.n == n {
      ActTracks(net, n, a, joiner, listened, equipped);
      assert Step(net, a).devices[n] == Act(net, a).0;
    }
  }

  lemma ActTracks(net: Net, n: Address, a: Action, joiner: bool, listened: bool, equipped: bool)
    requires n in net.devices && a.n == n && Tracks(net.devices[n], joiner, listened, equipped)
    requires net.devices[n].done ==> net.devices[n].informed
    ensures Tracks(Act(net, a).0, joiner, listened || a == Listen(n), equipped || Equips(net, n, a))
  {
    if a.Receive? {
      HandleTracks(n, net.devices[n], a.msg, a.site, joiner, listened, equipped);
    }
  }

  lemma HandleTracks(n: Address, d: Device, m: Msg, site: Site, joiner: bool, listened: bool, equipped: bool)
    requires Tracks(d, joiner, listened, equipped) && (d.done ==> d.informed)
    ensures Tracks(Handle(n, d, m, site).0, joiner, listened, equipped || m.body.Info?)
  {
  }

  lemma {:induction false} RunTracks(start: Net, actions: seq<Action>, n: Address)
    requires Start(start) && n in start.devices
    ensures n in Run(start, actions).devices
    ensures Tracks(Run(start, actions).devices[n], !start.devices[n].provisioned, Listen(n) in actions, Equipped(start, actions, n))
    decreases |actions|
  {
    if actions == [] {
      assert Initial(start.devices[n]);
      assert forall i :: !EquipsAt(start, actions, n, i);
    } else {
      var before, a := actions[..|actions| - 1], actions[|actions| - 1];
      assert actions == before + [a];
      RunTracks(start, before, n);
      RunInv(start, before);
      OneMore(start, before, a, n);
    }
  }

  lemma OneMore(start: Net, before: seq<Action>, a: Action, n: Address)
    requires n in start.devices && Inv(Run(start, before)) && n in Run(start, before).devices
    requires Tracks(Run(start, before).devices[n], !start.devices[n].provisioned, Listen(n) in before, Equipped(start, before, n))
    ensures n in Run(start, before + [a]).devices
    ensures Tracks(Run(start, before + [a]).devices[n], !start.devices[n].provisioned, Listen(n) in before + [a],
                   Equipped(start, before + [a], n))
  {
    var net := Run(start, before);
    EquippedStep(start, before, a, n);
    RunSnoc(start, before, a);
    assert DeviceOk(net.sent, n, net.devices[n]);
    StepTracks(net, n, a, !start.devices[n].provisioned, Listen(n) in before, Equipped(start, before, n));
  }

  /** On every run, a broadcast is answered iff its receiver listens, started out provisioned or
      has received credentials since, and the validation hooks admit the sender; and the answer
      is an INFO to the sender, with the credentials of the router. */
  lemma AnsweredIff(start: Net, actions: seq<Action>, n: Address, from: Address, site: Site)
    requires Start(start) && n in start.devices && Msg(from, None, Broadcast) in Run(start, actions).sent
    ensures n in Run(start, actions).devices
    ensures var net := Run(start, actions); var reply := Act(net, Receive(n, Msg(from, None, Broadcast), site)).1;
      && (reply.Some? <==>
            Listen(n) in actions && (start.devices[n].provisioned || Equipped(start, actions, n)) && site.admits)
      && (reply.Some? ==>
            && reply.value.to == Some(from) && reply.value.from == n && reply.value.body.Info?
            && Reads(Stored(reply.value.body.payload)) == Reads(net.devices[n].router)
            && Settings(reply.value.body.payload) == site.rest)
  {
    RunTracks(start, actions, n);
  }
}
