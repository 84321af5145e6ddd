/** No lost wakeup: while a device is free and somebody waits, an allocation is on its way. */
module Wakeup {
  import opened Domain
  import QueueOrder
  import opened Scripts
  import opened Lab
  import opened Ownership
  import opened Transitions
  import Stories
  import Tenure
  import opened Server
  import opened ServerInv

  predicate IsAvailable(s: Store, d: DeviceId) {
    d in s.devices && s.devices[d].state == Available
  }

  /** The pool index holds exactly the available devices. */
  ghost predicate AvailExact(s: Store) {
    forall d :: d in s.avail <==> IsAvailable(s, d)
  }

  predicate Waiters(s: Store) {
    WaitingIn(s.queue, s.entries) != {}
  }

  // ---------------- the pool index ----------------

  lemma AllocateAvail(cfg: Config, lab: Lab, popped: Option<DeviceId>, sid: SessionId, h: TokenHash)
    requires Allowed(lab, Allocate(popped, sid, h)) && AvailExact(lab.store)
    ensures var (s', events) := Effect(cfg, lab, Allocate(popped, sid, h));
      AvailExact(s') && (events == [] <==> lab.store.avail == {} || !Waiters(lab.store))
      && (events == [] ==>
            s'.avail == lab.store.avail
            && WaitingIn(s'.queue, s'.entries) == WaitingIn(lab.store.queue, lab.store.entries))
      && (events != [] ==> |events| == 1 && events[0].Granted?)
  {
  }

  lemma SessionAvail(cfg: Config, lab: Lab, cmd: Cmd)
    requires Allowed(lab, cmd) && Sound(lab) && AvailExact(lab.store)
    requires cmd.Claim? || cmd.BeginTermination?
    ensures AvailExact(Effect(cfg, lab, cmd).0)
  {
    var s := lab.store;
    if cmd.sid in s.sessions {
      assert SessionOk(s.sessions, s.devices, s.fences, s.listed, cmd.sid);
    }
  }

  lemma CleanupAvail(cfg: Config, lab: Lab, sid: SessionId, did: DeviceId, ok: bool)
    requires Allowed(lab, FinishCleanup(sid, did, ok)) && Sound(lab) && AvailExact(lab.store)
    ensures AvailExact(Effect(cfg, lab, FinishCleanup(sid, did, ok)).0)
  {
    hide Scripts.FinishCleanup, AvailExact;
    var s := lab.store;
    if did in s.devices { assert DeviceOk(s.sessions, s.devices, s.fences, did); }
    FinishedAvail(s, sid, did, ok, lab.clock, cfg);
  }

  lemma FinishedAvail(s: Store, sid: SessionId, did: DeviceId, ok: bool, now: int, cfg: Config)
    requires AvailExact(s)
    requires did in s.devices && s.devices[did].currentSessionId == Some(sid) ==> s.devices[did].state != Available
    ensures AvailExact(Scripts.FinishCleanup(s, sid, did, ok, now, cfg).0)
  {
  }

  lemma RegistryAvail(cfg: Config, lab: Lab, cmd: Cmd)
    requires Allowed(lab, cmd) && AvailExact(lab.store)
    requires cmd.HealthUpdate? || cmd.RegisterDevice? || cmd.UnregisterDevice?
    ensures AvailExact(Effect(cfg, lab, cmd).0)
  {
  }

  lemma OthersLeavePool(cfg: Config, lab: Lab, cmd: Cmd)
    requires Allowed(lab, cmd) && !TouchesDevices(cmd) && !cmd.SetAvailability?
    ensures Effect(cfg, lab, cmd).0.avail == lab.store.avail
  {
    match cmd
    case JoinQueue(_, _, _) =>
    case Heartbeat(_, _) =>
    case MarkDisconnected(_, _) =>
    case Reconnect(_, _) =>
    case UpdateInputSeq(_, _) =>
    case CancelRequest(_, _, _) =>
    case _ =>
  }

  /**
   * Every script keeps the pool index exact; a direct write of the index keeps it exact if and only if
   * it writes what the device record says at that moment.
   */
  lemma AvailStep(cfg: Config, lab: Lab, cmd: Cmd)
    requires Sound(lab) && Allowed(lab, cmd) && AvailExact(lab.store)
    ensures AvailExact(Effect(cfg, lab, cmd).0) <==>
      (cmd.SetAvailability? ==> (cmd.available <==> IsAvailable(lab.store, cmd.did)))
  {
    match cmd
    case SetAvailability(did, available) => WriteAvail(cfg, lab, did, available);
    case _ => ScriptAvail(cfg, lab, cmd);
  }

  lemma WriteAvail(cfg: Config, lab: Lab, did: DeviceId, available: bool)
    requires AvailExact(lab.store)
    ensures AvailExact(Effect(cfg, lab, SetAvailability(did, available)).0) <==> (available <==> IsAvailable(lab.store,
        did))
  {
    var s' := Effect(cfg, lab, SetAvailability(did, available)).0;
    assert did in s'.avail <==> available;
    assert IsAvailable(s', did) <==> IsAvailable(lab.store, did);
    if available <==> IsAvailable(lab.store, did) {
      forall d ensures d in s'.avail <==> IsAvailable(s', d) {
        assert d in lab.store.avail <==> IsAvailable(lab.store, d);
      }
    }
  }

  lemma ScriptAvail(cfg: Config, lab: Lab, cmd: Cmd)
    requires Sound(lab) && Allowed(lab, cmd) && AvailExact(lab.store) && !cmd.SetAvailability?
    ensures AvailExact(Effect(cfg, lab, cmd).0)
  {
    hide Effect, StoreOk, IdsOk;
    match cmd
    case Allocate(popped, sid, h) => AllocateAvail(cfg, lab, popped, sid, h);
    case Claim(_, _, _) => SessionAvail(cfg, lab, cmd);
    case BeginTermination(_, _, _, _) => SessionAvail(cfg, lab, cmd);
    case FinishCleanup(sid, did, ok) => CleanupAvail(cfg, lab, sid, did, ok);
    case HealthUpdate(_, _) => RegistryAvail(cfg, lab, cmd);
    case RegisterDevice(_, _) => RegistryAvail(cfg, lab, cmd);
    case UnregisterDevice(_) => RegistryAvail(cfg, lab, cmd);
    case _ =>
      OthersLeavePool(cfg, lab, cmd);
      OthersLeaveDevices(cfg, lab, cmd);
  }

  // ---------------- what can create work ----------------

  /** Free devices or waiters appear only with an event that calls the allocator. */
  lemma WorkIsAnnounced(cfg: Config, lab: Lab, cmd: Cmd)
    requires Sound(lab) && Allowed(lab, cmd) && AvailExact(lab.store) && AvailExact(Effect(cfg, lab, cmd).0)
    ensures var (s', events) := Effect(cfg, lab, cmd);
      |events| <= 1
      && ((s'.avail != {} ==> lab.store.avail != {})
          || (|events| == 1 && (events[0].Cleaned? || events[0].BackOnline? || events[0].Registered?)))
      && ((Waiters(s') ==> Waiters(lab.store))
          || (|events| == 1 && events[0].Enqueued?))
  {
    hide Effect, StoreOk, IdsOk;
    var (s', events) := Effect(cfg, lab, cmd);
    DeviceMoves(cfg, lab, cmd, 0);
    if !(|events| == 1 && (events[0].Cleaned? || events[0].BackOnline? || events[0].Registered?)) {
      forall d | d in s'.avail ensures d in lab.store.avail {
        DeviceMoves(cfg, lab, cmd, d);
        assert IsAvailable(s', d);
      }
      if s'.avail != {} { var d := QueueOrder.SomeMember(s'.avail); }
    }
    if !(|events| == 1 && events[0].Enqueued?) {
      SoundStep(cfg, lab, cmd);
      forall r | r in WaitingIn(s'.queue, s'.entries) ensures r in WaitingIn(lab.store.queue, lab.store.entries) {
        EntryMoves(cfg, lab, cmd, r);
        WaitingQueued(lab, r);
      }
      if Waiters(s') { var r := QueueOrder.SomeMember(WaitingIn(s'.queue, s'.entries)); }
    }
  }

  lemma WaitingQueued(lab: Lab, r: RequestId)
    requires Sound(lab) && IsWaiting(lab.store.entries, r)
    ensures r in lab.store.queue
  {
  }

  // ---------------- the allocator ----------------

  /** Some call of the allocation script is still to come: in this life of the process, or when the next boot ends. */
  predicate Pending(p: Proc) {
    !p.phase.Up? || p.pumpCalls > 0 || p.pump == Calling || p.pump == Returned(true) || (p.pump == Returned(false)
      && p.pumpAgain)
  }

  ghost predicate Awake(sys: Sys) {
    sys.lab.store.avail != {} && Waiters(sys.lab.store) ==> Pending(sys.proc)
  }

  /** An action that does not damage the pool index: no disturbance, and no repair from an outdated device record. */
  predicate Careful(sys: Sys, a: Action) {
    !a.Disturb?
    && (a.RepairWrite? && sys.proc.phase.Repairing? && sys.proc.phase.cursor.Checked? ==>
          (sys.proc.phase.cursor.dev.state == Available <==> IsAvailable(sys.lab.store, sys.proc.phase.cursor.did)))
  }

  /** The index stays exact on a step if and only if the step is careful, as far as the server itself is concerned. */
  lemma ExactStep(cfg: Config, sys: Sys, a: Action)
    requires SysOk(cfg, sys) && Enabled(cfg, sys, a) && AvailExact(sys.lab.store) && !a.Disturb?
    ensures AvailExact(Next(cfg, sys, a).lab.store) <==> Careful(sys, a)
  {
    hide Effect, Sound, Stories.Told, Tenure.TenuresOk, CleanersOk, CursorOk, Allowed, ProcAfter, Tenure.Judge;
    CallsAreAllowed(cfg, sys, a);
    var c := CmdOf(cfg, sys, a);
    if c.Some? { AvailStep(cfg, sys.lab, c.value); }
  }

  predicate CallsPump(e: Event) {
    e.Cleaned? || e.BackOnline? || e.Enqueued?
  }

  /** The allocator goes to rest only on an empty-handed reply with no call outstanding. */
  lemma PendingStep(cfg: Config, sys: Sys, a: Action)
    requires SysOk(cfg, sys) && Enabled(cfg, sys, a)
    ensures var c := CmdOf(cfg, sys, a);
      (c.Some? ==> Allowed(sys.lab, c.value))
      && var events := if c.Some? then Effect(cfg, sys.lab, c.value).1 else [];
         (!Pending(Next(cfg, sys, a).proc) && Pending(sys.proc) ==> a.PumpAllocate? && events == [])
         && (!Pending(Next(cfg, sys, a).proc) && c.Some? && |events| == 1 && KindOf(c.value, events[0]) ==>
               !CallsPump(events[0]) && !events[0].Registered?)
  {
    hide Effect, Sound, Stories.Told, Tenure.TenuresOk, CleanersOk, CursorOk, Allowed, Do, Tenure.Judge, Pending,
         ProcAfter, CallsPump;
    CallsAreAllowed(cfg, sys, a);
    var c := CmdOf(cfg, sys, a);
    ProcPending(cfg, sys, a, if c.Some? then Effect(cfg, sys.lab, c.value).1 else []);
  }

  /** The same of the process alone. */
  lemma ProcPending(cfg: Config, sys: Sys, a: Action, events: seq<Event>)
    requires Enabled(cfg, sys, a)
    ensures !Pending(ProcAfter(cfg, sys, a, events)) ==>
      (Pending(sys.proc) ==> a.PumpAllocate? && events == [])
      && var c := CmdOf(cfg, sys, a);
         c.Some? && |events| == 1 && KindOf(c.value, events[0]) ==> !CallsPump(events[0]) && !events[0].Registered?
  {
    hide Tenure.Judge, Allowed;
  }

  lemma AwakeStep(cfg: Config, sys: Sys, a: Action)
    requires SysOk(cfg, sys) && Enabled(cfg, sys, a) && Careful(sys, a)
    requires AvailExact(sys.lab.store) && Awake(sys)
    ensures Awake(Next(cfg, sys, a))
  {
    LabStep(cfg, sys, a);
    ExactStep(cfg, sys, a);
    PendingStep(cfg, sys, a);
    var c := CmdOf(cfg, sys, a);
    assert a.PumpAllocate? ==> c == Some(Allocate(a.popped, a.sid, a.claimHash));
    hide Effect, Sound, Stories.Told, Tenure.TenuresOk, CleanersOk, CursorOk, Allowed, AvailExact, Next, Enabled,
         CmdOf, Pending;
    if c.Some? {
      WorkIsAnnounced(cfg, sys.lab, c.value);
      EventKinds(cfg, sys.lab, c.value);
      if a.PumpAllocate? { AllocateAvail(cfg, sys.lab, a.popped, a.sid, a.claimHash); }
    }
  }

  /** A run that never damages the pool index. */
  ghost predicate CarefulRuns(cfg: Config, a: Sys, actions: seq<Action>, b: Sys)
    decreases |actions|
  {
    if actions == [] then a == b
    else Enabled(cfg, a, actions[0]) && Careful(a, actions[0])
         && CarefulRuns(cfg, Next(cfg, a, actions[0]), actions[1..], b)
  }

  lemma {:induction false} AwakeRun(cfg: Config, a: Sys, actions: seq<Action>, b: Sys)
    requires SysOk(cfg, a) && AvailExact(a.lab.store) && Awake(a) && CarefulRuns(cfg, a, actions, b)
    ensures SysOk(cfg, b) && AvailExact(b.lab.store) && Awake(b)
    decreases |actions|
  {
    hide SysOk, Enabled, Next, AvailExact, Awake;
    if actions != [] {
      SysStep(cfg, a, actions[0]);
      ExactStep(cfg, a, actions[0]);
      AwakeStep(cfg, a, actions[0]);
      AwakeRun(cfg, Next(cfg, a, actions[0]), actions[1..], b);
    }
  }

  /**
   * No lost wakeup. After any careful run from a new store, crashes included, a free device and a waiter
   * mean that an allocation is still to come; so a server at rest leaves no device free or nobody waiting.
   */
  lemma NoLostWakeup(cfg: Config, t0: int, actions: seq<Action>, sys: Sys)
    requires 0 < t0 && CarefulRuns(cfg, NewSys(t0), actions, sys)
    ensures (exists d :: IsAvailable(sys.lab.store, d)) && Waiters(sys.lab.store) ==> Pending(sys.proc)
    ensures sys.proc.phase.Up? && sys.proc.pump.Idle? && sys.proc.pumpCalls == 0 ==>
      (forall d :: !IsAvailable(sys.lab.store, d)) || forall r :: !IsWaiting(sys.lab.store.entries, r)
  {
    NewSysOk(cfg, t0);
    AwakeRun(cfg, NewSys(t0), actions, sys);
    forall r | IsWaiting(sys.lab.store.entries, r) ensures r in WaitingIn(sys.lab.store.queue, sys.lab.store.entries) {
      WaitingQueued(sys.lab, r);
    }
    forall d | IsAvailable(sys.lab.store, d) ensures sys.lab.store.avail != {} {
      assert d in sys.lab.store.avail;
    }
  }

  // ---------------- and it arrives ----------------

  /** The allocator's own next step. */
  function PumpStep(p: Proc, d: DeviceId, sid: SessionId): Action {
    if p.pump == Calling then PumpAllocate(Some(d), sid, 0)
    else if p.pump == Returned(true) || (p.pump.Returned? && p.pumpAgain) then PumpReturn
    else PumpEnter
  }

  /** How many steps of its own the allocator is from calling the script. */
  function PumpDistance(p: Proc): nat {
    if p.pump == Calling then 0
    else if p.pump == Returned(true) || (p.pump.Returned? && p.pumpAgain) then 1
    else if p.pump == Idle then 1
    else 2
  }

  /** A pending allocator, left to itself, grants the head of the queue a device within three steps. */
  lemma {:induction false} PendingDelivers(cfg: Config, sys: Sys, d: DeviceId, sid: SessionId)
      returns (actions: seq<Action>, sys': Sys)
    requires SysOk(cfg, sys) && AvailExact(sys.lab.store) && sys.proc.phase.Up? && Pending(sys.proc)
    requires IsAvailable(sys.lab.store, d) && Waiters(sys.lab.store) && sid !in sys.lab.sids
    ensures |actions| == PumpDistance(sys.proc) + 1 <= 3
    ensures forall a | a in actions :: a.PumpEnter? || a.PumpReturn? || a.PumpAllocate?
    ensures SysRuns(cfg, sys, actions, sys')
    ensures exists fence, rid :: sys'.lab.log == sys.lab.log + [Granted(sid, d, fence, rid)]
    decreases PumpDistance(sys.proc)
  {
    hide Sound, Stories.Told, Tenure.TenuresOk, CleanersOk, CursorOk, Effect, AvailExact;
    var a := PumpStep(sys.proc, d, sid);
    InPool(sys.lab.store, d);
    var mid := Next(cfg, sys, a);
    if a.PumpAllocate? {
      GrantsThis(cfg, sys.lab, d, sid);
      actions, sys' := [a], mid;
      assert actions[1..] == [];
    } else {
      SysStep(cfg, sys, a);
      var rest;
      rest, sys' := PendingDelivers(cfg, mid, d, sid);
      actions := [a] + rest;
      assert actions[1..] == rest;
    }
  }

  lemma InPool(s: Store, d: DeviceId)
    requires AvailExact(s)
    ensures d in s.avail <==> IsAvailable(s, d)
  {
  }

  lemma GrantsThis(cfg: Config, lab: Lab, d: DeviceId, sid: SessionId)
    requires AvailExact(lab.store) && IsAvailable(lab.store, d) && Waiters(lab.store) && sid !in lab.sids
    ensures Allowed(lab, Allocate(Some(d), sid, 0))
    ensures exists fence, rid :: Effect(cfg, lab, Allocate(Some(d), sid, 0)).1 == [Granted(sid, d, fence, rid)]
  {
    var r := Scripts.Allocate(lab.store, Some(d), sid, 0, lab.clock, cfg).1;
    assert Effect(cfg, lab, Allocate(Some(d), sid, 0)).1 == [Granted(sid, d, r.session.leaseFence, r.requestId)];
  }

  // ---------------- where care is needed ----------------

  /** The allocator is at rest and nobody will call it, although a device is free and a client waits. */
  ghost predicate WaitsInVain(sys: Sys) {
    sys.proc.phase.Up? && !Pending(sys.proc)
    && (exists d :: IsAvailable(sys.lab.store, d)) && exists r :: IsWaiting(sys.lab.store.entries, r)
  }

  lemma InVain(sys: Sys, d: DeviceId, r: RequestId)
    requires sys.proc.phase.Up? && !Pending(sys.proc)
    requires IsAvailable(sys.lab.store, d) && IsWaiting(sys.lab.store.entries, r)
    ensures WaitsInVain(sys)
  {
  }

  /** The health loop's repair of such a device puts it back into the pool, but who waits in vain still does. */
  lemma HealedWithoutWakeup(cfg: Config, sys: Sys, did: DeviceId)
    requires SysOk(cfg, sys) && WaitsInVain(sys) && IsAvailable(sys.lab.store, did) && did !in sys.lab.store.avail
    ensures Enabled(cfg, sys, Serve(HealthUpdate(did, true)))
    ensures var sys' := Next(cfg, sys, Serve(HealthUpdate(did, true)));
      did in sys'.lab.store.avail && sys'.proc == sys.proc && WaitsInVain(sys')
  {
    hide WaitsInVain, SysOk;
    var r := SomeWaiter(sys);
    var sys' := Next(cfg, sys, Serve(HealthUpdate(did, true)));
    assert IsWaiting(sys'.lab.store.entries, r) && IsAvailable(sys'.lab.store, did);
    InVain(sys', did, r);
  }

  lemma SomeWaiter(sys: Sys) returns (r: RequestId)
    requires WaitsInVain(sys)
    ensures sys.proc.phase.Up? && !Pending(sys.proc) && IsWaiting(sys.lab.store.entries, r)
  {
    r :| IsWaiting(sys.lab.store.entries, r);
  }

  lemma StalePop(cfg: Config, lab: Lab, d: DeviceId, sid: SessionId)
    requires d in lab.store.avail && !IsAvailable(lab.store, d) && sid !in lab.sids
    ensures Allowed(lab, Allocate(Some(d), sid, 0)) && Effect(cfg, lab, Allocate(Some(d), sid, 0)).1 == []
    ensures Do(cfg, lab, Allocate(Some(d), sid, 0)) ==
      lab.(store := lab.store.(avail := lab.store.avail - {d}), sids := lab.sids + {sid})
  {
  }

  /**
   * When the allocator, called for the last time, pops a device that is not free, it goes to rest, whatever
   * other device is free.
   */
  lemma StalePopRests(cfg: Config, sys: Sys, d: DeviceId, sid: SessionId) returns (sys': Sys)
    requires SysOk(cfg, sys) && sys.proc.phase.Up?
    requires sys.proc.pump == Calling && !sys.proc.pumpAgain && sys.proc.pumpCalls == 0
    requires d in sys.lab.store.avail && !IsAvailable(sys.lab.store, d) && sid !in sys.lab.sids
    ensures SysRuns(cfg, sys, [PumpAllocate(Some(d), sid, 0), PumpReturn], sys')
    ensures sys'.lab.store == sys.lab.store.(avail := sys.lab.store.avail - {d}) && sys'.proc == sys.proc.(pump := Idle)
    ensures (exists e :: IsAvailable(sys.lab.store, e)) && (exists r :: IsWaiting(sys.lab.store.entries, r)) ==>
      WaitsInVain(sys')
  {
    hide SysOk, SysRuns, Effect, WaitsInVain;
    StalePop(cfg, sys.lab, d, sid);
    hide Do;
    var mid := Next(cfg, sys, PumpAllocate(Some(d), sid, 0));
    sys' := Next(cfg, mid, PumpReturn);
    TwoSteps(cfg, sys, PumpAllocate(Some(d), sid, 0), mid, PumpReturn);
    if (exists e :: IsAvailable(sys.lab.store, e)) && (exists r :: IsWaiting(sys.lab.store.entries, r)) {
      var e, r :| IsAvailable(sys.lab.store, e) && IsWaiting(sys.lab.store.entries, r);
      assert IsAvailable(sys'.lab.store, e);
      InVain(sys', e, r);
    }
  }
}
