/** The two models of the provisioning manager agree: seen from outside, every interleaving of
    threads in Lifecycle is a run of the state machine in ConfigFlow, of whole calls one after
    the other. */
module Sessions {
  import opened ProvStates
  import L = Lifecycle
  import C = ConfigFlow
  import opened Seqs

  /** What Lifecycle shows of a manager. A start that is under way has shown nothing yet. */
  function View(s: L.Sys): C.Flow
  {
    var c := s.ctx;
    var settled := c.state != Starting;
    C.Flow(if settled then c.state else Idle, None, c.noAutoStop,
           settled && L.ConfigHandlers in c.fields,
           settled && L.ConnectTimer in c.fields && L.WifiEvents in c.sources,
           s.armed, s.pending)
  }

  ghost predicate Shows(s: L.Sys, f: C.Flow)
  {
    View(s) == f.(pending := None)
  }

  /** Before a deinit nobody tears down without the lock. */
  ghost predicate NoTeardown(s: L.Sys)
  {
    !s.dead && forall t :: t in s.busy ==> s.busy[t].Setup?
  }

  /** So the state says what there is to see. */
  lemma ViewIs(s: L.Sys)
    requires L.Inv(s) && NoTeardown(s)
    ensures var p := s.ctx.state; var serving := Serving(p);
      View(s) == C.Flow(if p == Starting then Idle else p, None, s.ctx.noAutoStop,
                        serving || p == Stopping, serving, s.armed, s.pending)
    ensures s.ctx.state == Stopping ==> s.busy == map[]
    ensures s.ctx.state != Stopping ==> !s.armed && s.pending == 0
  {
    assert s.ctx.fields.Keys == L.ShapeOf(s.ctx).kinds && s.ctx.sources == L.ShapeOf(s.ctx).sources;
  }

  const ANY := C.Request("", "", "", 0, "", "", 0)

  /** The calls that an action completes. */
  function Calls(s: L.Sys, a: L.Action): seq<C.Cmd>
  {
    match a
    case StartDone(t) => if t in s.busy && s.busy[t] == L.Setup([]) then [C.Start] else []
    case StopAsync(t) => if t in s.busy then [] else [C.Stop]
    case CleanupTimerFires(posted) => [C.TimerFires(posted)]
    case StopEvent => [C.Cleanup]
    case ConfigureSta => if s.ctx.state == Started then [C.Set(ANY), C.Apply(true)] else []
    case Disconnected => [C.Disconnected(true)]
    case GotIp => [C.GotIp]
    case ResetOnFailure => [C.Reset(true)]
    case Reprovision => [C.Reprovision(true)]
    case DisableAutoStop => if s.ctx.state == Idle then [C.DisableAutoStop] else []
    case _ => []
  }

  function NextAll(f: C.Flow, cmds: seq<C.Cmd>): C.Flow
  {
    if cmds == [] then f else C.Next(NextAll(f, cmds[..|cmds| - 1]), cmds[|cmds| - 1])
  }

  /** An action of an orderly run before any deinit, and the flow that the run shows. */
  ghost predicate Ready(s: L.Sys, a: L.Action, f: C.Flow)
  {
    && L.Inv(s) && NoTeardown(s) && L.Served(s, a) && !a.Deinit? && Shows(s, f)
    && L.Inv(L.Step(s, a)) && NoTeardown(L.Step(s, a))
  }

  lemma StepNoTeardown(s: L.Sys, a: L.Action)
    requires NoTeardown(s) && !a.Deinit?
    ensures NoTeardown(L.Step(s, a))
  {
  }

  lemma One(f: C.Flow, cmd: C.Cmd)
    ensures NextAll(f, [cmd]) == C.Next(f, cmd)
  {
    assert [cmd][..0] == [];
  }

  lemma Two(f: C.Flow, a: C.Cmd, b: C.Cmd)
    ensures NextAll(f, [a, b]) == C.Next(C.Next(f, a), b)
  {
    assert [a, b][..1] == [a];
    One(f, a);
  }

  lemma StopShown(s: L.Sys, t: nat, f: C.Flow)
    requires Ready(s, L.StopAsync(t), f)
    ensures Shows(L.Step(s, L.StopAsync(t)), NextAll(f, Calls(s, L.StopAsync(t))))
  {
    var s' := L.Step(s, L.StopAsync(t));
    ViewIs(s);
    ViewIs(s');
    One(f, C.Stop);
    L.DoAllKeeps(s.ctx.(state := Stopping), L.HALT);
  }

  lemma StopEventShown(s: L.Sys, f: C.Flow)
    requires Ready(s, L.StopEvent, f)
    ensures Shows(L.Step(s, L.StopEvent), NextAll(f, Calls(s, L.StopEvent)))
  {
    ViewIs(s);
    ViewIs(L.Step(s, L.StopEvent));
    One(f, C.Cleanup);
    L.DoAllKeeps(s.ctx, L.STOP_SERVICE);
    assert s.ctx.sources == L.ShapeOf(s.ctx).sources;
  }

  /** A start shows when it is done. */
  lemma StartShown(s: L.Sys, a: L.Action, f: C.Flow)
    requires Ready(s, a, f) && (a.Start? || a.StartOp? || a.StartDone?)
    ensures Shows(L.Step(s, a), NextAll(f, Calls(s, a)))
  {
    ViewIs(s);
    ViewIs(L.Step(s, a));
    One(f, C.Start);
    if a.Start? {
      L.DoAllKeeps(L.Record(s.ctx, L.Entering).(state := Starting), L.StartTimers(s.ctx.noAutoStop));
    }
  }

  lemma ConfigureShown(s: L.Sys, f: C.Flow)
    requires Ready(s, L.ConfigureSta, f)
    ensures Shows(L.Step(s, L.ConfigureSta), NextAll(f, Calls(s, L.ConfigureSta)))
  {
    ViewIs(s);
    ViewIs(L.Step(s, L.ConfigureSta));
    Two(f, C.Set(ANY), C.Apply(true));
    assert C.Acceptable(ANY);
    assert L.ConnectTimer in L.ShapeOf(s.ctx).kinds <==> L.ConnectTimer in s.ctx.fields;
  }

  /** A station event. */
  lemma StationShown(s: L.Sys, a: L.Action, f: C.Flow)
    requires Ready(s, a, f) && (a.Disconnected? || a.GotIp?)
    ensures Shows(L.Step(s, a), NextAll(f, Calls(s, a)))
  {
    ViewIs(s);
    ViewIs(L.Step(s, a));
    One(f, if a.GotIp? then C.GotIp else C.Disconnected(true));
    assert s.ctx.sources == L.ShapeOf(s.ctx).sources;
  }

  lemma OtherShown(s: L.Sys, a: L.Action, f: C.Flow)
    requires Ready(s, a, f)
    requires a.CleanupTimerFires? || a.ResetOnFailure? || a.Reprovision? || a.DisableAutoStop?
    ensures Shows(L.Step(s, a), NextAll(f, Calls(s, a)))
  {
    ViewIs(s);
    ViewIs(L.Step(s, a));
    match a
    case CleanupTimerFires(posted) => One(f, C.TimerFires(posted));
    case ResetOnFailure => One(f, C.Reset(true));
    case Reprovision => One(f, C.Reprovision(true));
    case DisableAutoStop => One(f, C.DisableAutoStop);
  }

  lemma StepShown(s: L.Sys, a: L.Action, f: C.Flow)
    requires Ready(s, a, f)
    ensures Shows(L.Step(s, a), NextAll(f, Calls(s, a)))
  {
    match a
    case Start(_) => StartShown(s, a, f);
    case StartOp(_) => StartShown(s, a, f);
    case StartDone(_) => StartShown(s, a, f);
    case StopAsync(t) => StopShown(s, t, f);
    case StopEvent => StopEventShown(s, f);
    case ConfigureSta => ConfigureShown(s, f);
    case Disconnected => StationShown(s, a, f);
    case GotIp => StationShown(s, a, f);
    case Endpoint(_) =>
      ViewIs(s);
      ViewIs(L.Step(s, a));
    case DeinitOp(_) =>
    case DeinitDone(_) =>
    case _ => OtherShown(s, a, f);
  }

  ghost predicate NoDeinit(acts: seq<L.Action>)
  {
    forall i :: 0 <= i < |acts| ==> !acts[i].Deinit?
  }

  lemma {:induction false} RunNoTeardown(acts: seq<L.Action>)
    requires NoDeinit(acts)
    ensures NoTeardown(L.Run(acts))
  {
    if acts != [] {
      RunNoTeardown(acts[..|acts| - 1]);
      StepNoTeardown(L.Run(acts[..|acts| - 1]), acts[|acts| - 1]);
    }
  }

  lemma {:induction false} RunCalls(cmds: seq<C.Cmd>, more: seq<C.Cmd>)
    ensures C.Run(cmds + more) == NextAll(C.Run(cmds), more)
    decreases |more|
  {
    if more == [] {
      assert cmds + more == cmds;
    } else {
      var less, last := more[..|more| - 1], more[|more| - 1];
      RunCalls(cmds, less);
      C.RunSnoc(cmds + less, last);
      Unsnoc(cmds, more);
    }
  }

  lemma Unsnoc<T>(a: seq<T>, b: seq<T>)
    requires b != []
    ensures a + b == a + b[..|b| - 1] + [b[|b| - 1]]
  {
  }

  /** Every orderly interleaving of threads before a deinit looks from outside like a run of
      whole calls: what is promised of the state on every run of ConfigFlow holds of the
      manager, whichever thread does what while others work without the lock. */
  lemma {:induction false} EveryInterleavingIsARun(acts: seq<L.Action>) returns (cmds: seq<C.Cmd>)
    requires L.Orderly(acts) && NoDeinit(acts)
    ensures Shows(L.Run(acts), C.Run(cmds))
  {
    if acts == [] {
      cmds := [];
    } else {
      var before, a := acts[..|acts| - 1], acts[|acts| - 1];
      cmds := EveryInterleavingIsARun(before);
      L.RunInv(before);
      L.RunInv(acts);
      RunNoTeardown(before);
      RunNoTeardown(acts);
      StepShown(L.Run(before), a, C.Run(cmds));
      RunCalls(cmds, Calls(L.Run(before), a));
      cmds := cmds + Calls(L.Run(before), a);
    }
  }

  ghost predicate Good(s: L.Sys)
  {
    L.Inv(s) && NoTeardown(s)
  }

  lemma StepGood(s: L.Sys, a: L.Action)
    requires Good(s) && L.Served(s, a) && !a.Deinit?
    ensures Good(L.Step(s, a))
  {
    L.StepInv(s, a);
    StepNoTeardown(s, a);
  }

  lemma Stopped(s: L.Sys, t: nat)
    requires Good(s) && Serving(s.ctx.state)
    ensures var s' := L.Step(s, L.StopAsync(t)); Good(s') && s'.ctx.state == Stopping && s'.armed
  {
    StepGood(s, L.StopAsync(t));
    ViewIs(s);
    L.DoAllKeeps(s.ctx.(state := Stopping), L.HALT);
  }

  lemma Fired(s: L.Sys)
    requires Good(s) && s.ctx.state == Stopping && s.armed
    ensures var s' := L.Step(s, L.CleanupTimerFires(true)); Good(s') && s'.ctx.state == Stopping && s'.pending > 0
  {
    StepGood(s, L.CleanupTimerFires(true));
  }

  lemma CleanedUp(s: L.Sys)
    requires Good(s) && s.ctx.state == Stopping && s.pending > 0
    ensures var s' := L.Step(s, L.StopEvent); Good(s') && s'.ctx.state == Idle
  {
    StepGood(s, L.StopEvent);
    ViewIs(s);
    assert s.ctx.sources == L.ShapeOf(s.ctx).sources;
  }

  /** An idle manager holds nothing and accepts a start. */
  lemma IdleIsEmpty(s: L.Sys, t: nat)
    requires Good(s) && s.ctx.state == Idle
    ensures s.ctx.fields == map[] && L.Live(s.ctx.log) == {}
    ensures L.Step(s, L.Start(t)).ctx.state == Starting
  {
    assert s.ctx.fields.Keys == L.ShapeOf(s.ctx).kinds;
    L.OwnsNothing(s.ctx);
    L.DoAllKeeps(L.Record(s.ctx, L.Entering).(state := Starting), L.StartTimers(s.ctx.noAutoStop));
  }

  lemma RunFour(acts: seq<L.Action>, a: L.Action, b: L.Action, c: L.Action, d: L.Action)
    ensures L.Run(acts + [a] + [b] + [c]) == L.Step(L.Step(L.Step(L.Run(acts), a), b), c)
    ensures L.Run(acts + [a] + [b] + [c] + [d]) == L.Step(L.Run(acts + [a] + [b] + [c]), d)
  {
    L.RunSnoc(acts, a);
    L.RunSnoc(acts + [a], b);
    L.RunSnoc(acts + [a] + [b], c);
    L.RunSnoc(acts + [a] + [b] + [c], d);
  }

  /** A stop of a running service is carried through: once its timer has fired and the event
      was dispatched, no handle is left, and the next start is accepted. */
  lemma StopIsCarriedThrough(acts: seq<L.Action>, t: nat)
    requires L.Orderly(acts) && NoDeinit(acts) && Serving(L.Run(acts).ctx.state)
    ensures var all := acts + [L.StopAsync(t)] + [L.CleanupTimerFires(true)] + [L.StopEvent];
      && L.Run(all).ctx.fields == map[] && L.Live(L.Run(all).ctx.log) == {}
      && L.Run(all + [L.Start(t)]).ctx.state == Starting
  {
    L.RunInv(acts);
    RunNoTeardown(acts);
    RunFour(acts, L.StopAsync(t), L.CleanupTimerFires(true), L.StopEvent, L.Start(t));
    CarriedThrough(L.Run(acts), t);
  }

  lemma CarriedThrough(s: L.Sys, t: nat)
    requires Good(s) && Serving(s.ctx.state)
    ensures var s' := L.Step(L.Step(L.Step(s, L.StopAsync(t)), L.CleanupTimerFires(true)), L.StopEvent);
      s'.ctx.fields == map[] && L.Live(s'.ctx.log) == {} && L.Step(s', L.Start(t)).ctx.state == Starting
  {
    Stopped(s, t);
    var s1 := L.Step(s, L.StopAsync(t));
    Fired(s1);
    var s2 := L.Step(s1, L.CleanupTimerFires(true));
    CleanedUp(s2);
    IdleIsEmpty(L.Step(s2, L.StopEvent), t);
  }
}
