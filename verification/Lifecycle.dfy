/** The provisioning manager's start and stop paths (manager.c, IDF 5.1 and later), run by
    any number of threads. Everything a thread does while it holds prov_ctx_lock is one
    action; the stretches that run without the lock, wifi_prov_mgr_start_service and the
    teardown of a blocking stop, proceed one resource operation at a time, so that any other
    thread can act in between. */
module Lifecycle {
  import opened ProvStates

  /** The fields of prov_ctx that own a handle. */
  datatype Kind = ConnectTimer | AutostopTimer | CleanupTimer | Protocomm | ConfigHandlers | ScanHandlers | CtrlHandlers

  /** The internal event handler, per event source it is registered for. */
  datatype Source = WifiEvents | IpEvents | StopEvents

  datatype Op =
    | Create(kind: Kind)
    | Use(kind: Kind)
    | Delete(kind: Kind)
    | DeleteIfSet(kind: Kind)
    | Register(source: Source)
    | Unregister(source: Source)

  /** What happened to handles and sessions, in order. Entering marks the acceptance of a
      start; NullUse an operation on a field that holds no handle. */
  datatype Trace = Entering | Created(id: nat) | Used(id: nat) | Deleted(id: nat) | NullUse | Began | Ended

  datatype Ctx = Ctx(state: Prov, noAutoStop: bool, fields: map<Kind, nat>, sources: set<Source>,
                     nextId: nat, log: seq<Trace>)

  function Record(c: Ctx, e: Trace): Ctx
  {
    c.(log := c.log + [e])
  }

  function Do(c: Ctx, op: Op): Ctx
  {
    match op
    case Create(k) => Record(c, Created(c.nextId)).(fields := c.fields[k := c.nextId], nextId := c.nextId + 1)
    case Use(k) => if k in c.fields then Record(c, Used(c.fields[k])) else Record(c, NullUse)
    case Delete(k) => if k in c.fields then Record(c, Deleted(c.fields[k])).(fields := c.fields - {k}) else Record(c, NullUse)
    case DeleteIfSet(k) => if k in c.fields then Record(c, Deleted(c.fields[k])).(fields := c.fields - {k}) else c
    case Register(s) => c.(sources := c.sources + {s})
    case Unregister(s) => c.(sources := c.sources - {s})
  }

  function DoAll(c: Ctx, ops: seq<Op>): Ctx
    decreases |ops|
  {
    if ops == [] then c else DoAll(Do(c, ops[0]), ops[1..])
  }

  // ---- the code paths

  /** Timers created under the lock at the beginning of a start. */
  function StartTimers(noAutoStop: bool): seq<Op>
  {
    if noAutoStop then [Create(ConnectTimer), Create(CleanupTimer)]
    else [Create(ConnectTimer), Create(AutostopTimer), Create(CleanupTimer)]
  }

  /** wifi_prov_mgr_start_service, without the lock. */
  const START_SERVICE: seq<Op> := [
    Create(Protocomm), Use(Protocomm),
    Create(ConfigHandlers), Use(Protocomm),
    Create(ScanHandlers), Use(Protocomm),
    Create(CtrlHandlers), Use(Protocomm),
    Register(WifiEvents), Register(IpEvents), Register(StopEvents)
  ]

  /** The part of wifi_prov_mgr_stop_service both modes run under the lock. */
  const HALT: seq<Op> := [
    DeleteIfSet(AutostopTimer), DeleteIfSet(ConnectTimer), Unregister(WifiEvents), Unregister(IpEvents)
  ]

  /** prov_stop_and_notify up to the change of state. */
  const STOP_SERVICE: seq<Op> := [
    Unregister(StopEvents), DeleteIfSet(CleanupTimer), Use(Protocomm), Delete(Protocomm),
    Delete(ConfigHandlers), Delete(ScanHandlers), Delete(CtrlHandlers)
  ]

  // ---- the system

  /** A thread in one of the unlocked stretches, with the operations still ahead of it. */
  datatype Busy = Setup(rest: seq<Op>) | Teardown(rest: seq<Op>)

  /** armed: the cleanup timer runs. pending: stop events posted and not yet dispatched.
      dead: deinit has freed the context. */
  datatype Sys = Sys(ctx: Ctx, busy: map<nat, Busy>, armed: bool, pending: nat, dead: bool)

  const INIT := Sys(Ctx(Idle, false, map[], {}, 0, []), map[], false, 0, false)

  datatype Action =
    | Start(thread: nat)            // wifi_prov_mgr_start_provisioning, first locked section
    | StartOp(thread: nat)          // one operation of wifi_prov_mgr_start_service
    | StartDone(thread: nat)        // its second locked section
    | StopAsync(thread: nat)        // wifi_prov_mgr_stop_provisioning, from any thread or timer
    | CleanupTimerFires(posted: bool)
    | StopEvent                     // dispatch of a posted stop event
    | Deinit(thread: nat)           // wifi_prov_mgr_deinit, first locked section
    | DeinitOp(thread: nat)         // one operation of its blocking teardown
    | DeinitDone(thread: nat)
    | Endpoint(thread: nat)         // endpoint_register and endpoint_unregister
    | ConfigureSta                  // client request; arrives from Started on
    | Disconnected                  // station events
    | GotIp
    | ResetOnFailure
    | Reprovision                   // from a client or the application, in any state
    | DisableAutoStop

  function Halted(c: Ctx): Ctx
  {
    DoAll(c.(state := Stopping), HALT)
  }

  /** wifi_prov_mgr_deinit up to the point where it releases the lock to tear down. */
  function Deinited(s: Sys, t: nat, teardown: seq<Op>): Sys
  {
    match s.ctx.state
    case Idle => s.(dead := true)
    case Starting => s
    case Stopping => s
    case _ => s.(ctx := Halted(s.ctx), busy := s.busy[t := Teardown(teardown)])
  }

  /** prov_stop_and_notify, run from the event loop. */
  function StoppedByEvent(s: Sys, cleanup: seq<Op>): Sys
  {
    if s.pending == 0 then s
    else if StopEvents !in s.ctx.sources || !Received(s.ctx.state) then s.(pending := s.pending - 1)
    else s.(ctx := Record(DoAll(s.ctx, cleanup).(state := Idle), Ended), pending := s.pending - 1)
  }

  /** One action; calls that the code turns away, and waiting, change nothing. */
  function Step(s: Sys, a: Action): Sys
  {
    var c := s.ctx;
    if s.dead then s
    else match a
      case Start(t) =>
        if t in s.busy || c.state != Idle then s
        else s.(ctx := DoAll(Record(c, Entering).(state := Starting), StartTimers(c.noAutoStop)),
                busy := s.busy[t := Setup(START_SERVICE)])
      case StartOp(t) =>
        if t in s.busy && s.busy[t].Setup? && s.busy[t].rest != []
        then s.(ctx := Do(c, s.busy[t].rest[0]), busy := s.busy[t := Setup(s.busy[t].rest[1..])])
        else s
      case StartDone(t) =>
        if t in s.busy && s.busy[t] == Setup([])
        then s.(ctx := Record(c, Began).(state := Started), busy := s.busy - {t})
        else s
      case StopAsync(t) =>
        if t in s.busy || !Serving(c.state) then s
        else s.(ctx := Do(Halted(c), Use(CleanupTimer)), armed := true)
      case CleanupTimerFires(posted) =>
        if s.armed then s.(armed := false, pending := s.pending + if posted then 1 else 0) else s
      case StopEvent => StoppedByEvent(s, STOP_SERVICE)
      case Deinit(t) =>
        if t in s.busy then s else Deinited(s, t, STOP_SERVICE)
      case DeinitOp(t) =>
        if t in s.busy && s.busy[t].Teardown? && s.busy[t].rest != []
        then s.(ctx := Do(c, s.busy[t].rest[0]), busy := s.busy[t := Teardown(s.busy[t].rest[1..])])
        else s
      case DeinitDone(t) =>
        if t in s.busy && s.busy[t] == Teardown([])
        then s.(ctx := Record(c.(state := Idle), Ended), busy := s.busy - {t}, dead := true)
        else s
      case Endpoint(t) =>
        if t !in s.busy && Serving(c.state) then s.(ctx := Do(c, Use(Protocomm))) else s
      case ConfigureSta =>
        if c.state != Started then s
        else s.(ctx := Do(c, Use(ConnectTimer)).(state := if ConnectTimer in c.fields then CredRecv else Started))
      case Disconnected =>
        if WifiEvents in c.sources && Received(c.state) then s.(ctx := c.(state := Failed)) else s
      case GotIp =>
        if IpEvents in c.sources && Received(c.state)
        then s.(ctx := (if c.noAutoStop then c else Do(c, Use(AutostopTimer))).(state := Success))
        else s
      case ResetOnFailure => if c.state == Failed then s.(ctx := c.(state := Started)) else s
      case Reprovision => if c.noAutoStop then s.(ctx := c.(state := Started)) else s
      case DisableAutoStop => if c.state == Idle then s.(ctx := c.(noAutoStop := true)) else s
  }

  function Run(acts: seq<Action>): Sys
  {
    if acts == [] then INIT else Step(Run(acts[..|acts| - 1]), acts[|acts| - 1])
  }

  // ---- what a clean log is

  function Live(log: seq<Trace>): set<nat>
  {
    if log == [] then {}
    else
      var before := Live(log[..|log| - 1]);
      match log[|log| - 1]
      case Created(id) => before + {id}
      case Deleted(id) => before - {id}
      case _ => before
  }

  function Open(log: seq<Trace>): bool
  {
    if log == [] then false
    else
      match log[|log| - 1]
      case Began => true
      case Ended => false
      case _ => Open(log[..|log| - 1])
  }

  /** May e happen after log? Handles are created once, used and deleted only while live; a
      start is accepted only when no handle is left; sessions begin and end in turn. */
  ghost predicate May(log: seq<Trace>, e: Trace)
  {
    match e
    case Entering => Live(log) == {} && !Open(log)
    case Created(id) => forall j :: 0 <= j < |log| ==> log[j] != Created(id)
    case Used(id) => id in Live(log)
    case Deleted(id) => id in Live(log)
    case NullUse => false
    case Began => !Open(log)
    case Ended => Open(log)
  }

  ghost predicate CleanAt(log: seq<Trace>, i: int)
  {
    0 <= i < |log| ==> May(log[..i], log[i])
  }

  ghost predicate Clean(log: seq<Trace>)
  {
    forall i {:trigger CleanAt(log, i)} :: 0 <= i < |log| ==> CleanAt(log, i)
  }

  // ---- operations on a context whose log is clean

  datatype Shape = Shape(kinds: set<Kind>, sources: set<Source>)

  function ShapeOf(c: Ctx): Shape
  {
    Shape(c.fields.Keys, c.sources)
  }

  function Effect(s: Shape, op: Op): Shape
  {
    match op
    case Create(k) => s.(kinds := s.kinds + {k})
    case Use(_) => s
    case Delete(k) => s.(kinds := s.kinds - {k})
    case DeleteIfSet(k) => s.(kinds := s.kinds - {k})
    case Register(x) => s.(sources := s.sources + {x})
    case Unregister(x) => s.(sources := s.sources - {x})
  }

  predicate Legal(s: Shape, op: Op)
  {
    match op
    case Create(k) => k !in s.kinds
    case Use(k) => k in s.kinds
    case Delete(k) => k in s.kinds
    case _ => true
  }

  /** The operations can all be done from shape s and lead to shape t. */
  predicate Leads(s: Shape, ops: seq<Op>, t: Shape)
    decreases |ops|
  {
    if ops == [] then s == t else Legal(s, ops[0]) && Leads(Effect(s, ops[0]), ops[1..], t)
  }

  /** The fields hold exactly the live handles, each in one field. */
  ghost predicate Owns(c: Ctx)
  {
    && Clean(c.log)
    && Live(c.log) == c.fields.Values
    && (forall k, l {:trigger Apart(c, k, l)} :: Apart(c, k, l))
    && (forall j {:trigger Issued(c, j)} :: Issued(c, j))
  }

  ghost predicate Apart(c: Ctx, k: Kind, l: Kind)
  {
    k in c.fields && l in c.fields && k != l ==> c.fields[k] != c.fields[l]
  }

  ghost predicate Issued(c: Ctx, j: int)
  {
    0 <= j < |c.log| && c.log[j].Created? ==> c.log[j].id < c.nextId
  }

  /** A longer log over the same fields. */
  lemma OwnsSame(c: Ctx, c': Ctx, e: Trace)
    requires Owns(c) && Clean(c'.log) && c'.log == c.log + [e] && !e.Created? && !e.Deleted?
    requires c'.fields == c.fields && c'.nextId == c.nextId
    ensures Owns(c')
  {
    assert c'.log[..|c'.log| - 1] == c.log;
    forall k, l ensures Apart(c', k, l) {
      assert Apart(c, k, l);
    }
    forall j ensures Issued(c', j) {
      assert Issued(c, j);
    }
  }

  lemma CleanSnoc(log: seq<Trace>, e: Trace)
    requires Clean(log) && May(log, e)
    ensures Clean(log + [e])
    ensures (log + [e])[..|log|] == log
  {
    var all := log + [e];
    forall i | 0 <= i < |all| ensures CleanAt(all, i) {
      assert all[..i] == if i < |log| then log[..i] else log;
      assert i < |log| ==> CleanAt(log, i);
    }
  }

  lemma {:induction false} LiveCreated(log: seq<Trace>, id: nat)
    requires id in Live(log)
    ensures exists j :: 0 <= j < |log| && log[j] == Created(id)
  {
    var last := |log| - 1;
    if id in Live(log[..last]) {
      LiveCreated(log[..last], id);
      var j :| 0 <= j < last && log[..last][j] == Created(id);
      assert log[j] == Created(id);
    }
  }

  lemma DoOwns(c: Ctx, op: Op)
    requires Owns(c) && Legal(ShapeOf(c), op)
    ensures var c' := Do(c, op);
      && Owns(c') && ShapeOf(c') == Effect(ShapeOf(c), op)
      && c'.state == c.state && c'.noAutoStop == c.noAutoStop && Open(c'.log) == Open(c.log)
  {
    match op
    case Create(k) => CreateOwns(c, k);
    case Use(k) =>
      CleanSnoc(c.log, Used(c.fields[k]));
      OwnsSame(c, Do(c, op), Used(c.fields[k]));
    case Delete(k) => DeleteOwns(c, k);
    case DeleteIfSet(k) =>
      if k in c.fields {
        DeleteOwns(c, k);
      } else {
        assert c.fields.Keys - {k} == c.fields.Keys;
      }
    case Register(x) => OwnsMoved(c, Do(c, op));
    case Unregister(x) => OwnsMoved(c, Do(c, op));
  }

  lemma OwnsMoved(c: Ctx, c': Ctx)
    requires Owns(c) && c'.log == c.log && c'.fields == c.fields && c'.nextId == c.nextId
    ensures Owns(c')
  {
    forall k, l ensures Apart(c', k, l) {
      assert Apart(c, k, l);
    }
    forall j ensures Issued(c', j) {
      assert Issued(c, j);
    }
  }

  lemma CreateOwns(c: Ctx, k: Kind)
    requires Owns(c) && k !in c.fields
    ensures var c' := Do(c, Create(k));
      Owns(c') && ShapeOf(c') == Effect(ShapeOf(c), Create(k)) && Open(c'.log) == Open(c.log)
  {
    var c' := Do(c, Create(k));
    forall j | 0 <= j < |c.log| ensures c.log[j] != Created(c.nextId) {
      assert Issued(c, j);
    }
    CleanSnoc(c.log, Created(c.nextId));
    if c.nextId in Live(c.log) {
      LiveCreated(c.log, c.nextId);
    }
    forall i, l ensures Apart(c', i, l) {
      assert Apart(c, i, l) && (i in c.fields ==> c.fields[i] in Live(c.log)) && (l in c.fields ==> c.fields[l] in Live(c.log));
    }
    forall j ensures Issued(c', j) {
      assert Issued(c, j);
    }
    assert Live(c'.log) == Live(c.log) + {c.nextId};
    assert c'.fields.Values == c.fields.Values + {c.nextId} by {
      assert c'.fields[k] == c.nextId;
      assert forall l :: l in c.fields ==> c'.fields[l] == c.fields[l];
    }
  }

  lemma DeleteOwns(c: Ctx, k: Kind)
    requires Owns(c) && k in c.fields
    ensures var c' := Do(c, Delete(k));
      Owns(c') && ShapeOf(c') == Effect(ShapeOf(c), Delete(k)) && Open(c'.log) == Open(c.log)
  {
    var c' := Do(c, Delete(k));
    CleanSnoc(c.log, Deleted(c.fields[k]));
    forall i, l ensures Apart(c', i, l) {
      assert Apart(c, i, l);
    }
    forall j ensures Issued(c', j) {
      assert Issued(c, j);
    }
    assert c'.fields.Values == c.fields.Values - {c.fields[k]} by {
      assert forall l :: l in c'.fields <==> l in c.fields && l != k;
      forall l | l in c'.fields ensures c'.fields[l] == c.fields[l] != c.fields[k] {
        assert Apart(c, k, l);
      }
    }
  }

  lemma {:induction false} DoAllOwns(c: Ctx, ops: seq<Op>, t: Shape)
    requires Owns(c) && Leads(ShapeOf(c), ops, t)
    ensures var c' := DoAll(c, ops);
      && Owns(c') && ShapeOf(c') == t
      && c'.state == c.state && c'.noAutoStop == c.noAutoStop && Open(c'.log) == Open(c.log)
    decreases |ops|
  {
    if ops != [] {
      DoOwns(c, ops[0]);
      DoAllOwns(Do(c, ops[0]), ops[1..], t);
    }
  }

  /** Session marks and accepted starts leave the handles alone. */
  lemma MarkOwns(c: Ctx, e: Trace)
    requires Owns(c) && May(c.log, e) && (e.Entering? || e.Began? || e.Ended?)
    ensures Owns(Record(c, e)) && ShapeOf(Record(c, e)) == ShapeOf(c)
    ensures Open(Record(c, e).log) == if e.Began? then true else if e.Ended? then false else Open(c.log)
  {
    CleanSnoc(c.log, e);
    OwnsSame(c, Record(c, e), e);
  }

  // ---- the shapes between the code paths

  const NOTHING := Shape({}, {})

  function Timers(noAutoStop: bool): Shape
  {
    Shape(if noAutoStop then {ConnectTimer, CleanupTimer} else {ConnectTimer, AutostopTimer, CleanupTimer}, {})
  }

  function Full(noAutoStop: bool): Shape
  {
    Shape(Timers(noAutoStop).kinds + {Protocomm, ConfigHandlers, ScanHandlers, CtrlHandlers},
          {WifiEvents, IpEvents, StopEvents})
  }

  const HALTED := Shape({CleanupTimer, Protocomm, ConfigHandlers, ScanHandlers, CtrlHandlers}, {StopEvents})

  lemma LeadsFrom(s: Shape, ops: seq<Op>, k: nat, t: Shape)
    requires k < |ops| && Legal(s, ops[k]) && Leads(Effect(s, ops[k]), ops[k + 1..], t)
    ensures Leads(s, ops[k..], t)
  {
  }

  lemma TimersLead(noAutoStop: bool)
    ensures Leads(NOTHING, StartTimers(noAutoStop), Timers(noAutoStop))
  {
    var ops, t := StartTimers(noAutoStop), Timers(noAutoStop);
    var s1 := Effect(NOTHING, ops[0]);
    var s2 := Effect(s1, ops[1]);
    if !noAutoStop {
      LeadsFrom(s2, ops, 2, t);
    }
    LeadsFrom(s1, ops, 1, t);
    LeadsFrom(NOTHING, ops, 0, t);
  }

  lemma StartServiceLeads(noAutoStop: bool)
    ensures Leads(Timers(noAutoStop), START_SERVICE, Full(noAutoStop))
  {
    var s, t, ops := Timers(noAutoStop), Full(noAutoStop), START_SERVICE;
    var s1 := s.(kinds := s.kinds + {Protocomm});
    var s2 := s1.(kinds := s1.kinds + {ConfigHandlers});
    SecondHalfLeads(s2, t);
    LeadsTwo(s1, ops, 2, t);
    assert ops[0] == Create(Protocomm) && ops[1] == Use(Protocomm);
    assert Protocomm !in s.kinds;
    assert Legal(s, ops[0]) && Effect(s, ops[0]) == s1;
    assert Legal(s1, ops[1]) && Effect(s1, ops[1]) == s1;
    LeadsTwo(s, ops, 0, t);
    assert ops[0..] == ops;
  }

  lemma SecondHalfLeads(s2: Shape, t: Shape)
    requires Protocomm in s2.kinds && ScanHandlers !in s2.kinds && CtrlHandlers !in s2.kinds && s2.sources == {}
    requires t == Shape(s2.kinds + {ScanHandlers, CtrlHandlers}, {WifiEvents, IpEvents, StopEvents})
    ensures Leads(s2, START_SERVICE[4..], t)
  {
    var ops := START_SERVICE;
    var s3 := s2.(kinds := s2.kinds + {ScanHandlers});
    var s4 := s3.(kinds := s3.kinds + {CtrlHandlers});
    assert Effect(Effect(Effect(s4, Register(WifiEvents)), Register(IpEvents)), Register(StopEvents)) == t;
    LeadsFrom(Effect(Effect(s4, Register(WifiEvents)), Register(IpEvents)), ops, 10, t);
    LeadsTwo(s4, ops, 8, t);
    LeadsTwo(s3, ops, 6, t);
    LeadsTwo(s2, ops, 4, t);
  }

  lemma LeadsTwo(s: Shape, ops: seq<Op>, k: nat, t: Shape)
    requires k + 1 < |ops| && Legal(s, ops[k]) && Legal(Effect(s, ops[k]), ops[k + 1])
    requires Leads(Effect(Effect(s, ops[k]), ops[k + 1]), ops[k + 2..], t)
    ensures Leads(s, ops[k..], t)
  {
  }

  lemma HaltLeads(noAutoStop: bool)
    ensures Leads(Full(noAutoStop), HALT, HALTED)
  {
    var s := Full(noAutoStop);
    var s1 := Effect(s, HALT[0]);
    var s2 := Effect(s1, HALT[1]);
    var s3 := Effect(s2, HALT[2]);
    assert Effect(s3, HALT[3]) == HALTED;
    LeadsFrom(s3, HALT, 3, HALTED);
    LeadsFrom(s2, HALT, 2, HALTED);
    LeadsFrom(s1, HALT, 1, HALTED);
    LeadsFrom(s, HALT, 0, HALTED);
  }

  lemma StopServiceLeads()
    ensures Leads(HALTED, STOP_SERVICE, NOTHING)
  {
    var ops := STOP_SERVICE;
    var s1 := Shape({CleanupTimer, Protocomm, ConfigHandlers, ScanHandlers, CtrlHandlers}, {});
    var s2 := Shape({Protocomm, ConfigHandlers, ScanHandlers, CtrlHandlers}, {});
    var s4 := Shape({ConfigHandlers, ScanHandlers, CtrlHandlers}, {});
    var s5 := Shape({ScanHandlers, CtrlHandlers}, {});
    var s6 := Shape({CtrlHandlers}, {});
    assert Effect(s6, ops[6]) == NOTHING && Effect(s5, ops[5]) == s6 && Effect(s4, ops[4]) == s5;
    assert Effect(s2, ops[3]) == s4 && Effect(s1, ops[1]) == s2 && Effect(HALTED, ops[0]) == s1;
    LeadsFrom(s6, ops, 6, NOTHING);
    LeadsFrom(s5, ops, 5, NOTHING);
    LeadsFrom(s4, ops, 4, NOTHING);
    LeadsFrom(s2, ops, 3, NOTHING);
    LeadsFrom(s2, ops, 2, NOTHING);
    LeadsFrom(s1, ops, 1, NOTHING);
    LeadsFrom(HALTED, ops, 0, NOTHING);
  }

  // ---- the invariant

  ghost predicate Working(s: Sys, setup: bool, t: Shape)
  {
    && (forall i, j :: i in s.busy && j in s.busy ==> i == j)
    && (forall i :: i in s.busy ==> s.busy[i].Setup? == setup && Leads(ShapeOf(s.ctx), s.busy[i].rest, t))
  }

  /** While stopping, station events reach nobody and no operation ahead changes that. */
  ghost predicate Quiet(s: Sys)
  {
    && s.ctx.sources <= {StopEvents}
    && forall i {:trigger s.busy[i]} :: i in s.busy ==> forall op :: op in s.busy[i].rest ==> !op.Register?
  }

  /** Nobody works without the lock and no cleanup is under way. */
  ghost predicate Calm(s: Sys)
  {
    s.busy == map[] && !s.armed && s.pending == 0
  }

  ghost predicate SettingUp(s: Sys)
  {
    s.busy != map[] && Working(s, true, Full(s.ctx.noAutoStop)) && !s.armed && s.pending == 0
  }

  /** A cleanup is scheduled, or one thread tears down. */
  ghost predicate TearingDown(s: Sys)
  {
    && Quiet(s)
    && if s.busy == map[] then ShapeOf(s.ctx) == HALTED && (s.armed ==> s.pending == 0) && s.pending <= 1
       else Working(s, false, NOTHING) && !s.armed && s.pending == 0
  }

  ghost predicate Inv(s: Sys)
  {
    && Owns(s.ctx)
    && (Open(s.ctx.log) <==> s.ctx.state != Idle && s.ctx.state != Starting)
    && match s.ctx.state
       case Idle => Calm(s) && ShapeOf(s.ctx) == NOTHING
       case Starting => SettingUp(s)
       case Stopping => TearingDown(s)
       case _ => Calm(s) && ShapeOf(s.ctx) == Full(s.ctx.noAutoStop)
  }

  lemma HaltInv(c: Ctx)
    requires Owns(c) && ShapeOf(c) == Full(c.noAutoStop) && Open(c.log)
    ensures Owns(Halted(c)) && ShapeOf(Halted(c)) == HALTED && Open(Halted(c).log) && Halted(c).state == Stopping
  {
    OwnsMoved(c, c.(state := Stopping));
    HaltLeads(c.noAutoStop);
    DoAllOwns(c.(state := Stopping), HALT, HALTED);
  }

  lemma EnterOwns(c: Ctx, c': Ctx)
    requires Owns(c) && ShapeOf(c) == NOTHING && c.state == Idle && !Open(c.log)
    requires c' == DoAll(Record(c, Entering).(state := Starting), StartTimers(c.noAutoStop))
    ensures Owns(c') && ShapeOf(c') == Timers(c.noAutoStop) && c'.noAutoStop == c.noAutoStop
    ensures c'.state == Starting && !Open(c'.log)
  {
    OwnsNothing(c);
    MarkOwns(c, Entering);
    OwnsMoved(Record(c, Entering), Record(c, Entering).(state := Starting));
    TimersLead(c.noAutoStop);
    DoAllOwns(Record(c, Entering).(state := Starting), StartTimers(c.noAutoStop), Timers(c.noAutoStop));
  }

  /** A thread begins a setup whose operations lead from the timers to the full set. */
  lemma EnterSetup(s: Sys, t: nat, rest: seq<Op>)
    requires Owns(s.ctx) && ShapeOf(s.ctx) == Timers(s.ctx.noAutoStop) && s.ctx.state == Starting && !Open(s.ctx.log)
    requires s.busy == map[t := Setup(rest)] && !s.armed && s.pending == 0
    requires Leads(Timers(s.ctx.noAutoStop), rest, Full(s.ctx.noAutoStop))
    ensures Inv(s)
  {
    assert t in s.busy;
  }

  lemma StartInv(s: Sys, t: nat)
    requires Inv(s)
    ensures Inv(Step(s, Start(t)))
  {
    if !s.dead && s.ctx.state == Idle {
      var s' := Step(s, Start(t));
      EnterOwns(s.ctx, s'.ctx);
      StartServiceLeads(s.ctx.noAutoStop);
      EnterSetup(s', t, START_SERVICE);
    }
  }

  lemma OwnsNothing(c: Ctx)
    requires Owns(c) && ShapeOf(c) == NOTHING
    ensures Live(c.log) == {}
  {
  }

  /** One unlocked operation brings its thread one step closer to the target shape. */
  lemma WorkOp(s: Sys, t: nat, setup: bool, target: Shape, s': Sys)
    requires Owns(s.ctx) && Working(s, setup, target) && t in s.busy && s.busy[t].rest != []
    requires s'.ctx == Do(s.ctx, s.busy[t].rest[0])
    requires var rest := s.busy[t].rest[1..]; s'.busy == s.busy[t := if setup then Setup(rest) else Teardown(rest)]
    ensures Owns(s'.ctx) && Working(s', setup, target)
    ensures s'.ctx.state == s.ctx.state && s'.ctx.noAutoStop == s.ctx.noAutoStop && Open(s'.ctx.log) == Open(s.ctx.log)
  {
    DoOwns(s.ctx, s.busy[t].rest[0]);
  }

  lemma StartOpInv(s: Sys, t: nat)
    requires Inv(s)
    ensures Inv(Step(s, StartOp(t)))
  {
    if !s.dead && t in s.busy && s.busy[t].Setup? && s.busy[t].rest != [] {
      WorkOp(s, t, true, Full(s.ctx.noAutoStop), Step(s, StartOp(t)));
    }
  }

  lemma DeinitOpInv(s: Sys, t: nat)
    requires Inv(s)
    ensures Inv(Step(s, DeinitOp(t)))
  {
    if !s.dead && t in s.busy && s.busy[t].Teardown? && s.busy[t].rest != [] {
      var op, rest := s.busy[t].rest[0], s.busy[t].rest[1..];
      assert s.busy[t].rest == [op] + rest;
      WorkOp(s, t, false, NOTHING, Step(s, DeinitOp(t)));
    }
  }

  lemma StartDoneInv(s: Sys, t: nat)
    requires Inv(s)
    ensures Inv(Step(s, StartDone(t)))
  {
    if !s.dead && t in s.busy && s.busy[t] == Setup([]) {
      MarkOwns(s.ctx, Began);
      OwnsMoved(Record(s.ctx, Began), Step(s, StartDone(t)).ctx);
      assert s.busy - {t} == map[];
    }
  }

  lemma DeinitDoneInv(s: Sys, t: nat)
    requires Inv(s)
    ensures Inv(Step(s, DeinitDone(t)))
  {
    if !s.dead && t in s.busy && s.busy[t] == Teardown([]) {
      OwnsMoved(s.ctx, s.ctx.(state := Idle));
      MarkOwns(s.ctx.(state := Idle), Ended);
      assert s.busy - {t} == map[];
    }
  }

  lemma StopAsyncInv(s: Sys, t: nat)
    requires Inv(s)
    ensures Inv(Step(s, StopAsync(t)))
  {
    if Serving(s.ctx.state) {
      HaltInv(s.ctx);
      DoOwns(Halted(s.ctx), Use(CleanupTimer));
    }
  }

  /** A thread begins a teardown that registers nothing and leads to no handle at all. */
  lemma EnterTeardown(s: Sys, t: nat, rest: seq<Op>)
    requires Owns(s.ctx) && ShapeOf(s.ctx) == HALTED && s.ctx.state == Stopping && Open(s.ctx.log)
    requires s.busy == map[t := Teardown(rest)] && !s.armed && s.pending == 0
    requires Leads(HALTED, rest, NOTHING) && forall op :: op in rest ==> !op.Register?
    ensures Inv(s)
  {
  }

  lemma StopServiceQuiet()
    ensures forall op :: op in STOP_SERVICE ==> !op.Register?
  {
  }

  lemma DeinitedInv(s: Sys, t: nat, rest: seq<Op>)
    requires Inv(s) && Leads(HALTED, rest, NOTHING) && forall op :: op in rest ==> !op.Register?
    ensures Inv(Deinited(s, t, rest))
  {
    if Serving(s.ctx.state) {
      HaltInv(s.ctx);
      EnterTeardown(s.(ctx := Halted(s.ctx), busy := map[t := Teardown(rest)]), t, rest);
    }
  }

  /** The cleanup leaves no handle and ends the session. */
  lemma CleanupOwns(c: Ctx, ops: seq<Op>, c': Ctx)
    requires Owns(c) && Open(c.log) && Leads(ShapeOf(c), ops, NOTHING)
    requires c' == Record(DoAll(c, ops).(state := Idle), Ended)
    ensures Owns(c') && ShapeOf(c') == NOTHING && c'.state == Idle && !Open(c'.log)
  {
    DoAllOwns(c, ops, NOTHING);
    OwnsMoved(DoAll(c, ops), DoAll(c, ops).(state := Idle));
    MarkOwns(DoAll(c, ops).(state := Idle), Ended);
  }

  lemma StopEventInv(s: Sys, cleanup: seq<Op>)
    requires Inv(s) && Leads(HALTED, cleanup, NOTHING)
    ensures Inv(StoppedByEvent(s, cleanup))
  {
    if s.pending > 0 {
      CleanupOwns(s.ctx, cleanup, Record(DoAll(s.ctx, cleanup).(state := Idle), Ended));
    }
  }

  /** The actions that tear down, whichever way. */
  lemma TeardownInv(s: Sys, a: Action)
    requires Inv(s) && (a.Deinit? || a.StopEvent?)
    ensures Inv(Step(s, a))
  {
    StopServiceLeads();
    if a.Deinit? {
      StopServiceQuiet();
      DeinitedInv(s, a.thread, STOP_SERVICE);
    } else {
      StopEventInv(s, STOP_SERVICE);
    }
  }

  lemma UseInv(s: Sys, k: Kind, p: Prov)
    requires Inv(s) && Serving(s.ctx.state) && Serving(p) && k in s.ctx.fields
    ensures Inv(s.(ctx := Do(s.ctx, Use(k)).(state := p)))
  {
    DoOwns(s.ctx, Use(k));
    OwnsMoved(Do(s.ctx, Use(k)), Do(s.ctx, Use(k)).(state := p));
  }

  lemma EndpointInv(s: Sys, t: nat)
    requires Inv(s)
    ensures Inv(Step(s, Endpoint(t)))
  {
    if !s.dead && Serving(s.ctx.state) {
      UseInv(s, Protocomm, s.ctx.state);
    }
  }

  lemma ConfigureInv(s: Sys)
    requires Inv(s)
    ensures Inv(Step(s, ConfigureSta))
  {
    if !s.dead && s.ctx.state == Started {
      UseInv(s, ConnectTimer, CredRecv);
    }
  }

  lemma GotIpInv(s: Sys)
    requires Inv(s)
    ensures Inv(Step(s, GotIp))
  {
    if !s.dead && Serving(s.ctx.state) {
      OwnsMoved(s.ctx, s.ctx.(state := Success));
      if !s.ctx.noAutoStop {
        UseInv(s, AutostopTimer, Success);
      }
    }
  }

  /** A reprovision that takes effect comes while the service runs. */
  predicate Served(s: Sys, a: Action)
  {
    a.Reprovision? && !s.dead && s.ctx.noAutoStop ==> Serving(s.ctx.state)
  }

  lemma StepInv(s: Sys, a: Action)
    requires Inv(s) && Served(s, a)
    ensures Inv(Step(s, a))
  {
    match a
    case Start(t) => StartInv(s, t);
    case StartOp(t) => StartOpInv(s, t);
    case DeinitOp(t) => DeinitOpInv(s, t);
    case StartDone(t) => StartDoneInv(s, t);
    case DeinitDone(t) => DeinitDoneInv(s, t);
    case StopAsync(t) => StopAsyncInv(s, t);
    case Deinit(t) => TeardownInv(s, a);
    case StopEvent => TeardownInv(s, a);
    case Endpoint(t) => EndpointInv(s, t);
    case ConfigureSta => ConfigureInv(s);
    case GotIp => GotIpInv(s);
    case _ => OwnsMoved(s.ctx, Step(s, a).ctx);
  }

  /** The code does not look at the state when it reprovisions; these are the runs on which
      that does no harm, and NextIsSafeIff says that no others are. */
  predicate Orderly(acts: seq<Action>)
    decreases |acts|
  {
    acts == [] || (Orderly(acts[..|acts| - 1]) && Served(Run(acts[..|acts| - 1]), acts[|acts| - 1]))
  }

  lemma {:induction false} RunInv(acts: seq<Action>)
    requires Orderly(acts)
    ensures Inv(Run(acts))
  {
    if acts != [] {
      RunInv(acts[..|acts| - 1]);
      StepInv(Run(acts[..|acts| - 1]), acts[|acts| - 1]);
    }
  }

  // ---- what holds on every orderly interleaving

  /** At most one thread is in an unlocked stretch, in the state that stands for it, and
      meanwhile no cleanup is scheduled or waiting to be dispatched. */
  ghost predicate Exclusive(s: Sys)
  {
    && (forall t, u :: t in s.busy && u in s.busy ==> t == u)
    && (forall t :: t in s.busy ==> !s.armed && s.pending == 0)
    && (forall t :: t in s.busy && s.busy[t].Setup? ==> s.ctx.state == Starting)
    && (forall t :: t in s.busy && s.busy[t].Teardown? ==> s.ctx.state == Stopping)
  }

  /** Setup and teardown never overlap. */
  lemma NoOverlap(acts: seq<Action>)
    requires Orderly(acts)
    ensures Exclusive(Run(acts))
  {
    RunInv(acts);
  }

  lemma {:induction false} DeadForever(log: seq<Trace>, i: nat, j: nat, id: nat)
    requires Clean(log) && i < j <= |log| && log[i] == Deleted(id)
    ensures id !in Live(log[..j])
    ensures j < |log| ==> log[j] != Created(id) && log[j] != Used(id) && log[j] != Deleted(id)
  {
    assert log[..j][..j - 1] == log[..j - 1];
    if j == i + 1 {
      assert log[..j][j - 1] == Deleted(id);
    } else {
      DeadForever(log, i, j - 1, id);
    }
    if j < |log| {
      assert CleanAt(log, i) && CleanAt(log, j);
      LiveCreated(log[..i], id);
      var k :| 0 <= k < i && log[..i][k] == Created(id);
      assert log[..j][k] == Created(id);
    }
  }

  /** Every handle is used and deleted only after it was made, is deleted at most once, and
      never touched afterwards; in particular nobody uses a deleted protocomm handle. */
  lemma HandleDiscipline(acts: seq<Action>, i: nat, id: nat)
    requires Orderly(acts) && i < |Run(acts).ctx.log|
    requires Run(acts).ctx.log[i] == Used(id) || Run(acts).ctx.log[i] == Deleted(id)
    ensures var log := Run(acts).ctx.log;
      && (exists k :: 0 <= k < i && log[k] == Created(id))
      && (forall k :: 0 <= k < i ==> log[k] != Deleted(id))
  {
    var log := Run(acts).ctx.log;
    RunInv(acts);
    assert CleanAt(log, i);
    LiveCreated(log[..i], id);
    var c :| 0 <= c < i && log[..i][c] == Created(id);
    assert log[c] == Created(id);
    forall k | 0 <= k < i ensures log[k] != Deleted(id) {
      if log[k] == Deleted(id) {
        DeadForever(log, k, i, id);
      }
    }
  }

  /** No operation ever finds a field empty. */
  lemma NoNullUse(acts: seq<Action>)
    requires Orderly(acts)
    ensures NullUse !in Run(acts).ctx.log
  {
    RunInv(acts);
    forall i | 0 <= i < |Run(acts).ctx.log| ensures Run(acts).ctx.log[i] != NullUse {
      assert CleanAt(Run(acts).ctx.log, i);
    }
  }

  /** Who uses what, on every orderly run: exactly while the service runs, an endpoint is
      registered on the live protocomm handle, credentials start the connect timer, and an IP
      address that is heard restarts the autostop timer, unless there is none. */
  lemma UsesTheLiveOne(acts: seq<Action>, t: nat)
    requires Orderly(acts) && !Run(acts).dead
    ensures var s := Run(acts); var f, log, p := s.ctx.fields, s.ctx.log, s.ctx.state;
      && (Serving(p) ==> f.Keys == Full(s.ctx.noAutoStop).kinds)
      && Run(acts + [Endpoint(t)]).ctx.log == log + (if Serving(p) then [Used(f[Protocomm])] else [])
      && Run(acts + [ConfigureSta]).ctx.log == log + (if p == Started then [Used(f[ConnectTimer])] else [])
      && Run(acts + [GotIp]).ctx.log ==
           log + (if p in {CredRecv, Failed, Success} && !s.ctx.noAutoStop then [Used(f[AutostopTimer])] else [])
  {
    RunInv(acts);
    var s := Run(acts);
    RunSnoc(acts, Endpoint(t));
    RunSnoc(acts, ConfigureSta);
    RunSnoc(acts, GotIp);
    ServingHas(s);
    EndpointUses(s, t);
    ConfigureUses(s);
    GotIpUses(s);
  }

  lemma ServingHas(s: Sys)
    requires Inv(s)
    ensures Serving(s.ctx.state) ==>
      s.busy == map[] && s.ctx.fields.Keys == Full(s.ctx.noAutoStop).kinds && IpEvents in s.ctx.sources
    ensures s.ctx.state == Stopping ==> IpEvents !in s.ctx.sources
  {
    assert s.ctx.fields.Keys == ShapeOf(s.ctx).kinds && s.ctx.sources == ShapeOf(s.ctx).sources;
  }

  lemma EndpointUses(s: Sys, t: nat)
    requires !s.dead && (Serving(s.ctx.state) ==> s.busy == map[] && Protocomm in s.ctx.fields)
    ensures Step(s, Endpoint(t)).ctx.log ==
      s.ctx.log + if Serving(s.ctx.state) then [Used(s.ctx.fields[Protocomm])] else []
  {
  }

  lemma ConfigureUses(s: Sys)
    requires !s.dead && (Serving(s.ctx.state) ==> ConnectTimer in s.ctx.fields)
    ensures Step(s, ConfigureSta).ctx.log ==
      s.ctx.log + if s.ctx.state == Started then [Used(s.ctx.fields[ConnectTimer])] else []
  {
  }

  lemma GotIpUses(s: Sys)
    requires !s.dead && (Serving(s.ctx.state) ==> IpEvents in s.ctx.sources)
    requires Serving(s.ctx.state) && !s.ctx.noAutoStop ==> AutostopTimer in s.ctx.fields
    requires s.ctx.state == Stopping ==> IpEvents !in s.ctx.sources
    ensures Step(s, GotIp).ctx.log == s.ctx.log +
      if s.ctx.state in {CredRecv, Failed, Success} && !s.ctx.noAutoStop then [Used(s.ctx.fields[AutostopTimer])] else []
  {
  }

  lemma {:induction false} DeletedSince(log: seq<Trace>, k: nat, id: nat)
    requires k < |log| && log[k] == Created(id) && id !in Live(log)
    ensures exists d :: k < d < |log| && log[d] == Deleted(id)
  {
    var last := |log| - 1;
    if log[last] != Deleted(id) {
      DeletedSince(log[..last], k, id);
      var d :| k < d < last && log[..last][d] == Deleted(id);
      assert log[d] == Deleted(id);
    } else {
      assert k < last;
    }
  }

  lemma DeletedOnce(log: seq<Trace>, d: nat, id: nat)
    requires Clean(log) && d < |log| && log[d] == Deleted(id)
    ensures forall e :: 0 <= e < |log| && log[e] == Deleted(id) ==> e == d
  {
    forall e | 0 <= e < |log| && log[e] == Deleted(id) ensures e == d {
      if e < d { DeadForever(log, e, d, id); }
      if d < e { DeadForever(log, d, e, id); }
    }
  }

  /** When a start is accepted, every handle made before has been deleted, once. */
  lemma DeletedBeforeNextStart(acts: seq<Action>, i: nat, k: nat, id: nat)
    requires Orderly(acts) && k < i < |Run(acts).ctx.log|
    requires Run(acts).ctx.log[i] == Entering && Run(acts).ctx.log[k] == Created(id)
    ensures exists d :: k < d < i && Run(acts).ctx.log[d] == Deleted(id) &&
              forall e :: 0 <= e < |Run(acts).ctx.log| && Run(acts).ctx.log[e] == Deleted(id) ==> e == d
  {
    var log := Run(acts).ctx.log;
    RunInv(acts);
    assert CleanAt(log, i);
    DeletedSince(log[..i], k, id);
    var d :| k < d < i && log[..i][d] == Deleted(id);
    DeletedOnce(log, d, id);
  }

  lemma {:induction false} DeadIsIdle(acts: seq<Action>)
    ensures Run(acts).dead ==> Run(acts).ctx.state == Idle
  {
    if acts != [] {
      DeadIsIdle(acts[..|acts| - 1]);
    }
  }

  /** Once deinit has finished no handle is left, */
  lemma NoneLive(acts: seq<Action>)
    requires Orderly(acts) && Run(acts).dead
    ensures Live(Run(acts).ctx.log) == {}
  {
    RunInv(acts);
    DeadIsIdle(acts);
    OwnsNothing(Run(acts).ctx);
  }

  /** and each one ever made was deleted, once. */
  lemma AllDeletedAfterDeinit(acts: seq<Action>, k: nat, id: nat)
    requires Orderly(acts) && Run(acts).dead && k < |Run(acts).ctx.log| && Run(acts).ctx.log[k] == Created(id)
    ensures exists d :: k < d < |Run(acts).ctx.log| && Run(acts).ctx.log[d] == Deleted(id) &&
              forall e :: 0 <= e < |Run(acts).ctx.log| && Run(acts).ctx.log[e] == Deleted(id) ==> e == d
  {
    var log := Run(acts).ctx.log;
    RunInv(acts);
    NoneLive(acts);
    DeletedSince(log, k, id);
    var d :| k < d < |log| && log[d] == Deleted(id);
    DeletedOnce(log, d, id);
  }

  lemma {:induction false} TeardownFinishes(acts: seq<Action>, t: nat) returns (all: seq<Action>)
    requires Orderly(acts) && t in Run(acts).busy && Run(acts).busy[t].Teardown? && !Run(acts).dead
    ensures acts <= all && Orderly(all) && Run(all).dead
    decreases |Run(acts).busy[t].rest|
  {
    if Run(acts).busy[t].rest == [] {
      all := acts + [DeinitDone(t)];
      RunSnoc(acts, DeinitDone(t));
    } else {
      RunSnoc(acts, DeinitOp(t));
      OpOfTeardown(Run(acts), t);
      all := TeardownFinishes(acts + [DeinitOp(t)], t);
    }
  }

  /** And deinit can finish: from every orderly run on which nobody else starts or stops the
      service, a thread that calls it gets there, its teardown included. */
  lemma DeinitFinishes(acts: seq<Action>, t: nat) returns (all: seq<Action>)
    requires Orderly(acts) && Run(acts).busy == map[] && Run(acts).ctx.state != Stopping
    ensures acts + [Deinit(t)] <= all && Orderly(all) && Run(all).dead && Live(Run(all).ctx.log) == {}
  {
    RunInv(acts);
    RunSnoc(acts, Deinit(t));
    if Run(acts + [Deinit(t)]).dead {
      all := acts + [Deinit(t)];
    } else {
      all := TeardownFinishes(acts + [Deinit(t)], t);
    }
    NoneLive(all);
  }

  function Marks(log: seq<Trace>, e: Trace): nat
  {
    if log == [] then 0 else Marks(log[..|log| - 1], e) + if log[|log| - 1] == e then 1 else 0
  }

  lemma {:induction false} MarksAlternate(log: seq<Trace>)
    requires Clean(log)
    ensures Marks(log, Began) == Marks(log, Ended) + if Open(log) then 1 else 0
  {
    if log != [] {
      var last := |log| - 1;
      assert CleanAt(log, last);
      forall i | 0 <= i < last ensures CleanAt(log[..last], i) {
        assert CleanAt(log, i) && log[..last][..i] == log[..i];
      }
      MarksAlternate(log[..last]);
    }
  }

  /** After every action the sessions begun and ended differ by the one that is open: each
      session that ends emits exactly one END, before the next one begins. */
  lemma OneEndPerSession(acts: seq<Action>)
    requires Orderly(acts)
    ensures var s := Run(acts);
      Marks(s.ctx.log, Began) == Marks(s.ctx.log, Ended) +
        if s.ctx.state == Idle || s.ctx.state == Starting then 0 else 1
  {
    RunInv(acts);
    MarksAlternate(Run(acts).ctx.log);
  }

  // ---- reprovisioning while the service does not run

  lemma RunSnoc(acts: seq<Action>, a: Action)
    ensures Run(acts + [a]) == Step(Run(acts), a)
    ensures Orderly(acts + [a]) <==> Orderly(acts) && Served(Run(acts), a)
  {
    assert (acts + [a])[..|acts|] == acts;
  }

  /** No operation has met an empty field, and nothing overlaps. */
  ghost predicate Sound(s: Sys)
  {
    Exclusive(s) && NullUse !in s.ctx.log
  }

  /** After a reprovision in a state in which the service does not run, some next action goes
      wrong: the connect timer is missing, or a second thread enters. */
  lemma UnservedGoesWrong(s: Sys) returns (next: Action)
    requires Inv(s) && !s.dead && s.ctx.noAutoStop && !Serving(s.ctx.state)
    ensures !Sound(Step(Step(s, Reprovision), next))
  {
    var s' := Step(s, Reprovision);
    if s.busy == map[] {
      next := ConfigureSta;
      assert ConnectTimer !in ShapeOf(s.ctx).kinds;
      assert Step(s', next).ctx.log == s.ctx.log + [NullUse];
    } else {
      var t :| t in s.busy;
      next := Deinit(t + 1);
      assert t + 1 !in s.busy;
      assert t in Step(s', next).busy && t + 1 in Step(s', next).busy;
    }
  }

  /** The exact condition: at any point of an orderly run a reprovision may come, whatever
      action follows, iff the service runs, or auto-stop was not disabled, or the manager is
      gone. */
  lemma NextIsSafeIff(acts: seq<Action>)
    requires Orderly(acts)
    ensures (forall next :: Sound(Run(acts + [Reprovision] + [next]))) <==> Served(Run(acts), Reprovision)
  {
    var s := Run(acts);
    RunInv(acts);
    RunSnoc(acts, Reprovision);
    if Served(s, Reprovision) {
      forall next ensures Sound(Run(acts + [Reprovision] + [next])) {
        RunSnoc(acts + [Reprovision], next);
        NoOverlap(acts + [Reprovision] + [next]);
        NoNullUse(acts + [Reprovision] + [next]);
      }
    } else {
      var next := UnservedGoesWrong(s);
      RunSnoc(acts + [Reprovision], next);
      assert !Sound(Run(acts + [Reprovision] + [next]));
    }
  }

  lemma {:induction false} DoAllKeeps(c: Ctx, ops: seq<Op>)
    ensures DoAll(c, ops).state == c.state && DoAll(c, ops).noAutoStop == c.noAutoStop
    decreases |ops|
  {
    if ops != [] {
      DoAllKeeps(Do(c, ops[0]), ops[1..]);
    }
  }

  /** An accepted start. */
  lemma SetupBegins(s: Sys, t: nat)
    requires !s.dead && s.busy == map[] && s.ctx.state == Idle
    ensures var s' := Step(s, Start(t));
      s'.busy == map[t := Setup(START_SERVICE)] && !s'.dead && s'.ctx.noAutoStop == s.ctx.noAutoStop
  {
    DoAllKeeps(Record(s.ctx, Entering).(state := Starting), StartTimers(s.ctx.noAutoStop));
  }

  /** A start that nobody interferes with, after auto-stop was disabled. */
  lemma ServiceStarts() returns (acts: seq<Action>)
    ensures Orderly(acts) && Run(acts).ctx.state == Started && Run(acts).ctx.noAutoStop && !Run(acts).dead
  {
    var first := [] + [DisableAutoStop];
    RunSnoc([], DisableAutoStop);
    RunSnoc(first, Start(0));
    SetupBegins(Run(first), 0);
    acts := SetupFinishes(first + [Start(0)], 0);
  }

  lemma {:induction false} SetupFinishes(acts: seq<Action>, t: nat) returns (all: seq<Action>)
    requires Orderly(acts) && t in Run(acts).busy && Run(acts).busy[t].Setup? && !Run(acts).dead
    ensures Orderly(all) && Run(all).ctx.state == Started && !Run(all).dead
    ensures Run(all).ctx.noAutoStop == Run(acts).ctx.noAutoStop
    decreases |Run(acts).busy[t].rest|
  {
    if Run(acts).busy[t].rest == [] {
      all := acts + [StartDone(t)];
      RunSnoc(acts, StartDone(t));
    } else {
      RunSnoc(acts, StartOp(t));
      all := SetupFinishes(acts + [StartOp(t)], t);
    }
  }

  /** A stop and a reprovision while it is under way: the service seems started, and is
      halted. */
  lemma StartedButHalted(s: Sys, t: nat) returns (s': Sys)
    requires Inv(s) && Serving(s.ctx.state) && s.ctx.noAutoStop && !s.dead
    ensures s' == Step(Step(s, StopAsync(t)), Reprovision)
    ensures s'.busy == map[] && s'.armed && s'.pending == 0 && !s'.dead
    ensures Owns(s'.ctx) && ShapeOf(s'.ctx) == HALTED && s'.ctx.state == Started && Open(s'.ctx.log)
  {
    var s1 := Step(s, StopAsync(t));
    StopAsyncInv(s, t);
    DoAllKeeps(s.ctx.(state := Stopping), HALT);
    assert s1.busy == map[] && s1.armed && s1.pending == 0 && !s1.dead && s1.ctx.state == Stopping;
    assert ShapeOf(s1.ctx) == HALTED && Owns(s1.ctx) && Open(s1.ctx.log) && s1.ctx.noAutoStop;
    s' := Step(s1, Reprovision);
    OwnsMoved(s1.ctx, s'.ctx);
  }

  lemma HaltAgainLeads()
    ensures Leads(HALTED, HALT, HALTED)
  {
    assert Effect(HALTED, HALT[0]) == HALTED && Effect(HALTED, HALT[1]) == HALTED;
    assert Effect(HALTED, HALT[2]) == HALTED && Effect(HALTED, HALT[3]) == HALTED;
    LeadsFrom(HALTED, HALT, 3, HALTED);
    LeadsFrom(HALTED, HALT, 2, HALTED);
    LeadsFrom(HALTED, HALT, 1, HALTED);
    LeadsFrom(HALTED, HALT, 0, HALTED);
  }

  /** A deinit then halts it again and tears down while the cleanup timer still runs. */
  lemma HaltedTwice(s: Sys, t: nat, rest: seq<Op>)
    requires s.busy == map[] && ShapeOf(s.ctx) == HALTED && Owns(s.ctx) && s.ctx.state == Started && Open(s.ctx.log)
    ensures var s' := Deinited(s, t, rest);
      && s'.busy == map[t := Teardown(rest)] && s'.armed == s.armed && s'.pending == s.pending && s'.dead == s.dead
      && Owns(s'.ctx) && ShapeOf(s'.ctx) == HALTED && s'.ctx.state == Stopping && Open(s'.ctx.log)
  {
    HaltAgainLeads();
    OwnsMoved(s.ctx, s.ctx.(state := Stopping));
    DoAllOwns(s.ctx.(state := Stopping), HALT, HALTED);
    DoAllKeeps(s.ctx.(state := Stopping), HALT);
  }

  /** The stop event tears everything down under the thread that tears down. */
  lemma CleanedUnder(s: Sys, t: nat, rest: seq<Op>) returns (s': Sys)
    requires s.busy == map[t := Teardown(rest)] && s.armed && s.pending == 0 && !s.dead
    requires Owns(s.ctx) && ShapeOf(s.ctx) == HALTED && s.ctx.state == Stopping && Open(s.ctx.log)
    ensures s' == Step(Step(s, CleanupTimerFires(true)), StopEvent)
    ensures s'.busy == s.busy && s'.ctx.state == Idle && ShapeOf(s'.ctx).kinds == {} && !s'.dead
  {
    var s1 := Step(s, CleanupTimerFires(true));
    assert s1 == s.(armed := false, pending := 1);
    StopServiceLeads();
    s' := StoppedByEvent(s1, STOP_SERVICE);
    CleanupOwns(s1.ctx, STOP_SERVICE, s'.ctx);
  }

  lemma OpOfTeardown(s: Sys, t: nat)
    requires !s.dead && t in s.busy && s.busy[t].Teardown? && s.busy[t].rest != []
    ensures var rest := s.busy[t].rest;
      Step(s, DeinitOp(t)) == s.(ctx := Do(s.ctx, rest[0]), busy := s.busy[t := Teardown(rest[1..])])
  {
  }

  /** And the thread goes on to work on a field that is empty. */
  lemma WorksOnNothing(s: Sys, t: nat)
    requires s.busy == map[t := Teardown(STOP_SERVICE)] && ShapeOf(s.ctx).kinds == {} && !s.dead
    ensures NullUse in Step(Step(Step(s, DeinitOp(t)), DeinitOp(t)), DeinitOp(t)).ctx.log
  {
    OpOfTeardown(s, t);
    var s1 := Step(s, DeinitOp(t));
    OpOfTeardown(s1, t);
    var s2 := Step(s1, DeinitOp(t));
    assert STOP_SERVICE[1..][1..][0] == Use(Protocomm);
    OpOfTeardown(s2, t);
    assert s2.ctx.fields.Keys == {} && Protocomm !in s2.ctx.fields;
    assert Do(s2.ctx, Use(Protocomm)).log[|s2.ctx.log|] == NullUse;
  }

  /** What five steps, and three more, do to a running service. */
  lemma TornDownTwice(s: Sys, t: nat)
    requires Inv(s) && Serving(s.ctx.state) && s.ctx.noAutoStop && !s.dead
    ensures var overlap := Step(Step(Step(Step(Step(s, StopAsync(t)), Reprovision), Deinit(t)), CleanupTimerFires(true)), StopEvent);
      && !Exclusive(overlap)
      && NullUse in Step(Step(Step(overlap, DeinitOp(t)), DeinitOp(t)), DeinitOp(t)).ctx.log
  {
    var halted := StartedButHalted(s, t);
    HaltedTwice(halted, t, STOP_SERVICE);
    DeinitIs(halted, t);
    var cleaned := CleanedUnder(Deinited(halted, t, STOP_SERVICE), t, STOP_SERVICE);
    assert t in cleaned.busy && cleaned.busy[t].Teardown?;
    WorksOnNothing(cleaned, t);
  }

  lemma DeinitIs(s: Sys, t: nat)
    requires !s.dead && t !in s.busy
    ensures Step(s, Deinit(t)) == Deinited(s, t, STOP_SERVICE)
  {
  }

  lemma RunFive(acts: seq<Action>, a: Action, b: Action, c: Action, d: Action, e: Action)
    ensures Run(acts + [a] + [b] + [c] + [d] + [e]) == Step(Step(Step(Step(Step(Run(acts), a), b), c), d), e)
  {
    RunSnoc(acts, a);
    RunSnoc(acts + [a], b);
    RunSnoc(acts + [a] + [b], c);
    RunSnoc(acts + [a] + [b] + [c], d);
    RunSnoc(acts + [a] + [b] + [c] + [d], e);
  }

  /** So there is a run, with auto-stop disabled and one reprovision, on which two teardowns overlap
      and one of them works on empty fields. */
  lemma ReprovisionDuringStop(t: nat) returns (acts: seq<Action>)
    ensures Orderly(acts)
    ensures var overlap := acts + [StopAsync(t)] + [Reprovision] + [Deinit(t)] + [CleanupTimerFires(true)] + [StopEvent];
      && !Exclusive(Run(overlap))
      && NullUse in Run(overlap + [DeinitOp(t)] + [DeinitOp(t)] + [DeinitOp(t)]).ctx.log
  {
    acts := ServiceStarts();
    RunInv(acts);
    TornDownTwice(Run(acts), t);
    RunFive(acts, StopAsync(t), Reprovision, Deinit(t), CleanupTimerFires(true), StopEvent);
    var overlap := acts + [StopAsync(t)] + [Reprovision] + [Deinit(t)] + [CleanupTimerFires(true)] + [StopEvent];
    RunSnoc(overlap, DeinitOp(t));
    RunSnoc(overlap + [DeinitOp(t)], DeinitOp(t));
    RunSnoc(overlap + [DeinitOp(t)] + [DeinitOp(t)], DeinitOp(t));
  }
}
