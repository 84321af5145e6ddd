/** Runs of the server that reach the states other modules warn about, spelled out step by step. */
module Scenarios {
  import opened Domain
  import opened Scripts
  import opened Lab
  import opened Ownership
  import opened Server
  import opened ServerInv
  import opened Tenure
  import opened Wakeup
  import History
  import Reaping
  import Health

  // ---------------- the first life of the server ----------------

  function Dev(d: DeviceId, state: DeviceState, sid: Option<SessionId>, fence: Option<nat>): Device {
    Device(d, state, sid, fence, 1, 0)
  }

  /** One device, free and in the pool. */
  function PoolLab(d: DeviceId): Lab {
    var store := EMPTY.(devices := map[d := Dev(d, Available, None, None)], deviceIds := {d}, avail := {d});
    Start(1).(store := store, log := [Registered(d, true)])
  }

  function At(lab: Lab, phase: Phase): Sys {
    Sys(lab, STOPPED.(phase := phase))
  }

  lemma FirstRegistration(cfg: Config, d: DeviceId)
    ensures Reached(cfg, At(PoolLab(d), Registering({})))
  {
    hide Reached;
    var empty := Start(1);
    ReachedStart(cfg);
    ReachedNext(cfg, NewSys(1), Boot({d}), At(empty, Pruning({d}, {})));
    ReachedNext(cfg, At(empty, Pruning({d}, {})), PruneDone, At(empty, Registering({d})));
    var s := At(empty, Registering({d}));
    assert {d} - {d} == {};
    assert Do(cfg, empty, RegisterDevice(d, true)) == PoolLab(d);
    ReachedNext(cfg, s, RegisterOne(d, true), At(PoolLab(d), Registering({})));
  }

  lemma FirstRepair(cfg: Config, d: DeviceId)
    ensures Reached(cfg, Sys(PoolLab(d), STOPPED.(phase := Up, pumpCalls := 1)))
  {
    hide Reached;
    var lab := PoolLab(d);
    var dev := Dev(d, Available, None, None);
    FirstRegistration(cfg, d);
    ReachedNext(cfg, At(lab, Registering({})), RegisterDone, At(lab, Adopting(1, {})));
    ReachedNext(cfg, At(lab, Adopting(1, {})), AdoptDone, At(lab, Repairing({d}, Between)));
    ReachedNext(cfg, At(lab, Repairing({d}, Between)), RepairRead(d), At(lab, Repairing({d}, HaveDevice(d, dev))));
    ReachedNext(cfg, At(lab, Repairing({d}, HaveDevice(d, dev))), RepairCheck(0),
      At(lab, Repairing({d}, Checked(d, dev))));
    assert {d} - {d} == {} && {d} + {d} == {d};
    assert Do(cfg, lab, SetAvailability(d, true)) == lab;
    ReachedNext(cfg, At(lab, Repairing({d}, Checked(d, dev))), RepairWrite, At(lab, Repairing({}, Between)));
    ReachedNext(cfg, At(lab, Repairing({}, Between)), RepairDone, Sys(lab, STOPPED.(phase := Up, pumpCalls := 1)));
  }

  // A first client joins and is granted the device.

  function Entry(r: RequestId, state: EntryState): QueueEntry {
    QueueEntry(r, r, 0, 1, state)
  }

  function JoinedLab(d: DeviceId): Lab {
    var lab := PoolLab(d);
    lab.(store := lab.store.(entries := map[1 := Entry(1, Waiting)], queue := map[1 := 1],
      clientRequest := map[1 := 1]),
         log := lab.log + [Enqueued(1)], rids := {1})
  }

  function GrantedLab(cfg: Config, d: DeviceId): Lab {
    var lab := JoinedLab(d);
    lab.(store := lab.store.(
           queue := map[], entries := map[1 := Entry(1, Claimed)],
           devices := map[d := Dev(d, DeviceState.Reserved, Some(1), Some(1))], avail := {},
           sessions := map[1 := NewSession(1, 1, d, 1, 0, 1, cfg)], listed := {1},
           clientSession := map[1 := 1], clientRequest := map[], fences := map[d := 1]),
         log := lab.log + [Granted(1, d, 1, 1)], sids := {1})
  }

  lemma JoinDoes(cfg: Config, d: DeviceId)
    ensures Do(cfg, PoolLab(d), JoinQueue(1, 0, 1)) == JoinedLab(d)
    ensures Effect(cfg, PoolLab(d), JoinQueue(1, 0, 1)).1 == [Enqueued(1)]
  {
    History.JoinEmpty(cfg, PoolLab(d), 1, 1);
    assert {} + {1} == {1};
  }

  lemma GrantDoes(cfg: Config, d: DeviceId)
    ensures Allowed(JoinedLab(d), Allocate(Some(d), 1, 0))
    ensures Do(cfg, JoinedLab(d), Allocate(Some(d), 1, 0)) == GrantedLab(cfg, d)
    ensures Effect(cfg, JoinedLab(d), Allocate(Some(d), 1, 0)).1 == [Granted(1, d, 1, 1)]
  {
    var lab := JoinedLab(d);
    History.AllocateOnly(cfg, lab, d, 1, 1);
    var s, want := Do(cfg, lab, Allocate(Some(d), 1, 0)).store, GrantedLab(cfg, d).store;
    assert s.queue == want.queue && s.entries == want.entries && s.clientRequest == want.clientRequest;
    assert s.devices == want.devices && s.avail == want.avail && s.listed == want.listed;
    assert s.sessions == want.sessions && s.clientSession == want.clientSession && s.fences == want.fences;
    assert lab.sids + {1} == {1};
    assert lab.log + Effect(cfg, lab, Allocate(Some(d), 1, 0)).1 == lab.log + [Granted(1, d, 1, 1)];
  }

  function Pumps(pump: PumpPhase, again: bool, calls: nat): Proc {
    Proc(Up, pump, again, calls, map[], Resting)
  }

  lemma FirstGrant(cfg: Config, d: DeviceId)
    ensures Reached(cfg, Sys(GrantedLab(cfg, d), Pumps(Returned(true), false, 1)))
  {
    hide Reached, Effect, Do;
    FirstRepair(cfg, d);
    JoinDoes(cfg, d);
    GrantDoes(cfg, d);
    var pool, joined := PoolLab(d), JoinedLab(d);
    ReachedNext(cfg, Sys(pool, Pumps(Idle, false, 1)), Serve(JoinQueue(1, 0, 1)), Sys(joined, Pumps(Idle, false, 2)));
    ReachedNext(cfg, Sys(joined, Pumps(Idle, false, 2)), PumpEnter, Sys(joined, Pumps(Calling, false, 1)));
    ReachedNext(cfg, Sys(joined, Pumps(Calling, false, 1)), PumpAllocate(Some(d), 1, 0),
                Sys(GrantedLab(cfg, d), Pumps(Returned(true), false, 1)));
  }

  // The client gives up, a second one joins, and the server crashes before the device is clean.

  function EndedSession(cfg: Config, d: DeviceId): Session {
    NewSession(1, 1, d, 1, 0, 1, cfg).(state := Ending, endReason := Some(ByUser))
  }

  function EndedLab(cfg: Config, d: DeviceId): Lab {
    var lab := GrantedLab(cfg, d);
    lab.(store := lab.store.(devices := map[d := Dev(d, Cleaning, Some(1), Some(1))],
                             sessions := map[1 := EndedSession(cfg, d)], clientSession := map[]),
         log := lab.log + [Terminated(1, ByUser)])
  }

  function DirtyLab(cfg: Config, d: DeviceId): Lab {
    var lab := EndedLab(cfg, d);
    lab.(store := lab.store.(entries := map[1 := Entry(1, Claimed), 2 := Entry(2, Waiting)],
                             queue := map[2 := 1], clientRequest := map[2 := 2]),
         log := lab.log + [Enqueued(2)], rids := {1, 2})
  }

  lemma EndDoes(cfg: Config, d: DeviceId)
    ensures Do(cfg, GrantedLab(cfg, d), BeginTermination(1, ByUser, false, None)) == EndedLab(cfg, d)
    ensures Effect(cfg, GrantedLab(cfg, d), BeginTermination(1, ByUser, false, None)).1 == [Terminated(1, ByUser)]
  {
    var lab := GrantedLab(cfg, d);
    var s, want := Do(cfg, lab, BeginTermination(1, ByUser, false, None)).store, EndedLab(cfg, d).store;
    assert s.devices == want.devices && s.sessions == want.sessions && s.clientSession == want.clientSession;
  }

  lemma SecondJoinDoes(cfg: Config, d: DeviceId)
    ensures Do(cfg, EndedLab(cfg, d), JoinQueue(2, 0, 2)) == DirtyLab(cfg, d)
    ensures Effect(cfg, EndedLab(cfg, d), JoinQueue(2, 0, 2)).1 == [Enqueued(2)]
  {
    var lab := EndedLab(cfg, d);
    History.JoinEmpty(cfg, lab, 2, 2);
    var s, want := Do(cfg, lab, JoinQueue(2, 0, 2)).store, DirtyLab(cfg, d).store;
    assert s.entries == want.entries && s.queue == want.queue && s.clientRequest == want.clientRequest;
    assert lab.rids + {2} == {1, 2};
  }

  lemma CrashedDirty(cfg: Config, d: DeviceId)
    ensures Reached(cfg, Sys(DirtyLab(cfg, d), STOPPED))
  {
    hide Reached, Effect, Do;
    FirstGrant(cfg, d);
    EndDoes(cfg, d);
    SecondJoinDoes(cfg, d);
    var granted, ended, dirty := GrantedLab(cfg, d), EndedLab(cfg, d), DirtyLab(cfg, d);
    var p := Pumps(Returned(true), false, 1);
    var q := p.(cleaners := map[0 := Cleaner(1, d, false, 0)]);
    ReachedNext(cfg, Sys(granted, p), Terminate(1, ByUser, false, None, 0), Sys(ended, q));
    ReachedNext(cfg, Sys(ended, q), Serve(JoinQueue(2, 0, 2)), Sys(dirty, q.(pumpCalls := 2)));
    ReachedNext(cfg, Sys(dirty, q.(pumpCalls := 2)), Crash, Sys(dirty, STOPPED));
  }

  // ---------------- the second life ----------------

  function Restarting(phase: Phase, cleaners: map<nat, Cleaner>): Proc {
    STOPPED.(phase := phase, cleaners := cleaners)
  }

  /** A restart goes through its device list, finding device `d` registered. */
  lemma Pruned(cfg: Config, d: DeviceId, serials: set<DeviceId>, lab: Lab)
    requires Reached(cfg, Sys(lab, STOPPED)) && lab.store.deviceIds == {d} == lab.store.devices.Keys && d in serials
    ensures Reached(cfg, At(lab, Registering(serials - {d})))
  {
    hide Reached, Effect, Do;
    assert {d} - {d} == {};
    ReachedNext(cfg, Sys(lab, STOPPED), Boot(serials), At(lab, Pruning(serials, {d})));
    ReachedNext(cfg, At(lab, Pruning(serials, {d})), PruneOne(d), At(lab, Pruning(serials, {})));
    ReachedNext(cfg, At(lab, Pruning(serials, {})), PruneDone, At(lab, Registering(serials)));
    ReachedNext(cfg, At(lab, Registering(serials)), RegisterOne(d, true), At(lab, Registering(serials - {d})));
  }

  function Worker(d: DeviceId, working: bool): Cleaner {
    Cleaner(1, d, working, 0)
  }

  /** The restart has adopted the ended session; its cleanup worker is at work. */
  lemma Adopted(cfg: Config, d: DeviceId, lab: Lab)
    requires Reached(cfg, At(lab, Adopting(1, {1}))) && d in lab.store.devices
    requires 1 in lab.store.sessions && lab.store.sessions[1].state == Ending && lab.store.sessions[1].deviceId == d
    ensures Reached(cfg, Sys(lab, Restarting(Repairing(lab.store.deviceIds, Between), map[0 := Worker(d, true)])))
  {
    hide Reached, Effect, Do;
    var hired, phase := map[0 := Worker(d, false)], Repairing(lab.store.deviceIds, Between);
    assert {1} - {1} == {};
    ReachedNext(cfg, At(lab, Adopting(1, {1})), AdoptOne(1, 0), Sys(lab, Restarting(Adopting(1, {}), hired)));
    ReachedNext(cfg, Sys(lab, Restarting(Adopting(1, {}), hired)), AdoptDone, Sys(lab, Restarting(phase, hired)));
    ReachedNext(cfg, Sys(lab, Restarting(phase, hired)), CleanerStart(0),
                Sys(lab, Restarting(phase, map[0 := Worker(d, true)])));
  }

  lemma AdoptedDirty(cfg: Config, d: DeviceId)
    ensures Reached(cfg, Sys(DirtyLab(cfg, d), Restarting(Repairing({d}, Between), map[0 := Worker(d, true)])))
  {
    hide Reached;
    CrashedDirty(cfg, d);
    var lab := DirtyLab(cfg, d);
    Pruned(cfg, d, {d}, lab);
    assert {d} - {d} == {};
    ReachedNext(cfg, At(lab, Registering({})), RegisterDone, At(lab, Adopting(1, {1})));
    Adopted(cfg, d, lab);
  }

  function DirtyDev(d: DeviceId): Device {
    Dev(d, Cleaning, Some(1), Some(1))
  }

  /** The worker has freed the device. */
  function FreedLab(cfg: Config, d: DeviceId): Lab {
    var lab := DirtyLab(cfg, d);
    lab.(store := lab.store.(devices := map[d := Dev(d, Available, None, Some(1))], avail := {d},
                             sessions := map[1 := EndedSession(cfg, d).(state := Ended)], listed := {}),
         log := lab.log + [Cleaned(1, d)])
  }

  lemma FreeDoes(cfg: Config, d: DeviceId)
    ensures Allowed(DirtyLab(cfg, d), FinishCleanup(1, d, true))
    ensures Do(cfg, DirtyLab(cfg, d), FinishCleanup(1, d, true)) == FreedLab(cfg, d)
    ensures Effect(cfg, DirtyLab(cfg, d), FinishCleanup(1, d, true)).1 == [Cleaned(1, d)]
  {
    var lab := DirtyLab(cfg, d);
    var s, want := Do(cfg, lab, FinishCleanup(1, d, true)).store, FreedLab(cfg, d).store;
    assert s.devices == want.devices && s.sessions == want.sessions && s.listed == want.listed && s.avail == want.avail;
  }

  // ---------------- the repair loop takes the freed device out of the pool ----------------

  function LostLab(cfg: Config, d: DeviceId): Lab {
    var lab := FreedLab(cfg, d);
    lab.(store := lab.store.(avail := {}))
  }

  lemma RepairChecked(cfg: Config, d: DeviceId)
    ensures Reached(cfg, Sys(DirtyLab(cfg, d),
        Restarting(Repairing({d}, Checked(d, DirtyDev(d))), map[0 := Worker(d, true)])))
  {
    hide Reached, Effect, Do;
    AdoptedDirty(cfg, d);
    ReadDirty(cfg, d);
    var lab, busy := DirtyLab(cfg, d), map[0 := Worker(d, true)];
    var have, checked := Repairing({d}, HaveDevice(d, DirtyDev(d))), Repairing({d}, Checked(d, DirtyDev(d)));
    ReachedNext(cfg, Sys(lab, Restarting(have, busy)), RepairCheck(1), Sys(lab, Restarting(checked, busy)));
  }

  /** Worker 0 frees the device while the restart is in some phase. */
  lemma WorkerFrees(cfg: Config, d: DeviceId, phase: Phase)
    requires phase.Repairing?
    requires Reached(cfg, Sys(DirtyLab(cfg, d), Restarting(phase, map[0 := Worker(d, true)])))
    ensures Reached(cfg, Sys(FreedLab(cfg, d), Restarting(phase, map[]).(pumpCalls := 1)))
  {
    FreeDoes(cfg, d);
    hide Reached, Effect, Do, Allowed, DirtyLab, FreedLab;
    var busy: map<nat, Cleaner> := map[0 := Worker(d, true)];
    assert busy - {0} == map[];
    ReachedNext(cfg, Sys(DirtyLab(cfg, d), Restarting(phase, busy)), CleanerFinish(0, true),
                Sys(FreedLab(cfg, d), Restarting(phase, map[]).(pumpCalls := 1)));
  }

  lemma RepairLosesDevice(cfg: Config, d: DeviceId)
    ensures Reached(cfg, Sys(LostLab(cfg, d), Pumps(Idle, false, 2)))
  {
    LoseDoes(cfg, d);
    hide Reached, Effect, Do, FreedLab, LostLab, DirtyLab;
    RepairChecked(cfg, d);
    WorkerFrees(cfg, d, Repairing({d}, Checked(d, DirtyDev(d))));
    var freed, lost := FreedLab(cfg, d), LostLab(cfg, d);
    assert {d} - {d} == {};
    var done := Restarting(Repairing({d}, Checked(d, DirtyDev(d))), map[]).(pumpCalls := 1);
    ReachedNext(cfg, Sys(freed, done), RepairWrite, Sys(lost, done.(phase := Repairing({}, Between))));
    ReachedNext(cfg, Sys(lost, done.(phase := Repairing({}, Between))), RepairDone, Sys(lost, Pumps(Idle, false, 2)));
  }

  lemma LoseDoes(cfg: Config, d: DeviceId)
    ensures Do(cfg, FreedLab(cfg, d), SetAvailability(d, false)) == LostLab(cfg, d)
  {
    assert {d} - {d} == {};
  }

  lemma NothingDoes(cfg: Config, lab: Lab, sid: SessionId)
    requires lab.store.avail == {} && sid !in lab.sids
    ensures Do(cfg, lab, Allocate(None, sid, 0)) == lab.(sids := lab.sids + {sid})
    ensures Effect(cfg, lab, Allocate(None, sid, 0)).1 == []
  {
  }

  /** With an empty pool the allocator uses up its calls and comes to rest. */
  lemma RoundsInVain(cfg: Config, lab: Lab)
    requires Reached(cfg, Sys(lab, Pumps(Idle, false, 2))) && lab.store.avail == {} && 2 !in lab.sids && 3 !in lab.sids
    ensures Reached(cfg, Sys(lab.(sids := lab.sids + {2} + {3}), Pumps(Idle, false, 0)))
  {
    hide Reached, Effect, Do;
    var l1, l2 := lab.(sids := lab.sids + {2}), lab.(sids := lab.sids + {2} + {3});
    NothingDoes(cfg, lab, 2);
    NothingDoes(cfg, l1, 3);
    ReachedNext(cfg, Sys(lab, Pumps(Idle, false, 2)), PumpEnter, Sys(lab, Pumps(Calling, false, 1)));
    ReachedNext(cfg, Sys(lab, Pumps(Calling, false, 1)), PumpEnter, Sys(lab, Pumps(Calling, true, 0)));
    ReachedNext(cfg, Sys(lab, Pumps(Calling, true, 0)), PumpAllocate(None, 2, 0),
      Sys(l1, Pumps(Returned(false), true, 0)));
    ReachedNext(cfg, Sys(l1, Pumps(Returned(false), true, 0)), PumpReturn, Sys(l1, Pumps(Calling, false, 0)));
    ReachedNext(cfg, Sys(l1, Pumps(Calling, false, 0)), PumpAllocate(None, 3, 0),
      Sys(l2, Pumps(Returned(false), false, 0)));
    ReachedNext(cfg, Sys(l2, Pumps(Returned(false), false, 0)), PumpReturn, Sys(l2, Pumps(Idle, false, 0)));
  }

  /**
   * A wakeup is lost: a reachable state in which a free device and a waiter do not meet. The health loop
   * then makes the pool exact again and still does not bring them together.
   */
  lemma WakeupIsLost(cfg: Config, d: DeviceId) returns (lost: Sys, healed: Sys)
    ensures Reached(cfg, lost) && WaitsInVain(lost) && d !in lost.lab.store.avail
    ensures Reached(cfg, healed) && WaitsInVain(healed) && AvailExact(healed.lab.store)
  {
    hide Reached, Effect, Do, WaitsInVain;
    RepairLosesDevice(cfg, d);
    RoundsInVain(cfg, LostLab(cfg, d));
    var lab := LostLab(cfg, d).(sids := LostLab(cfg, d).sids + {2} + {3});
    lost := Sys(lab, Pumps(Idle, false, 0));
    InVain(lost, d, 2);
    HealDoes(cfg, lab, d);
    hide LostLab, AvailExact, IsAvailable;
    healed := Sys(Do(cfg, lab, HealthUpdate(d, true)), Pumps(Idle, false, 0));
    ReachedNext(cfg, lost, Serve(HealthUpdate(d, true)), healed);
    InVain(healed, d, 2);
  }

  lemma HealDoes(cfg: Config, lab: Lab, d: DeviceId)
    requires lab.store.devices.Keys == {d} && IsAvailable(lab.store, d) && lab.store.avail == {}
    ensures Effect(cfg, lab, HealthUpdate(d, true)).1 == []
    ensures var s' := Do(cfg, lab, HealthUpdate(d, true)).store;
      AvailExact(s') && IsAvailable(s', d) && s'.entries == lab.store.entries
  {
    assert {} + {d} == {d};
  }

  // ---------------- a second worker for one session ----------------

  /**
   * A cleanup worker is at work on a device that serves the next owner: the restart has started a second
   * worker for a session that the first has settled between the loop's two reads.
   */
  lemma CleanedWhileOwned(cfg: Config, d: DeviceId) returns (sys: Sys)
    ensures Reached(cfg, sys)
    ensures 1 in sys.proc.cleaners && sys.proc.cleaners[1] == Cleaner(1, d, true, 0)
    ensures d in sys.lab.store.devices && sys.lab.store.devices[d].state == DeviceState.Reserved
    ensures sys.lab.store.devices[d].currentSessionId == Some(2)
  {
    hide Reached, Effect, Do;
    SecondWorker(cfg, d);
    SecondGrantDoes(cfg, d);
    hide FreedLab, Allowed;
    var freed := FreedLab(cfg, d);
    var q := Restarting(Repairing({d}, Checked(d, DirtyDev(d))), map[1 := Worker(d, true)]);
    ReachedNext(cfg, Sys(freed, q.(pumpCalls := 1)), PumpEnter, Sys(freed, q.(pump := Calling)));
    sys := Sys(Do(cfg, freed, Allocate(Some(d), 2, 0)), q.(pump := Returned(true)));
    SecondGrantIsEnabled(cfg, d, q.(pump := Calling));
    ReachedNext(cfg, Sys(freed, q.(pump := Calling)), PumpAllocate(Some(d), 2, 0), sys);
  }

  lemma SecondGrantIsEnabled(cfg: Config, d: DeviceId, p: Proc)
    requires p.phase.Repairing? && p.pump == Calling
    ensures Enabled(cfg, Sys(FreedLab(cfg, d), p), PumpAllocate(Some(d), 2, 0))
  {
  }

  lemma SecondWorker(cfg: Config, d: DeviceId)
    ensures Reached(cfg, Sys(FreedLab(cfg, d),
      Restarting(Repairing({d}, Checked(d, DirtyDev(d))), map[1 := Worker(d, true)]).(pumpCalls := 1)))
  {
    hide Reached, Effect, Do;
    AdoptedDirty(cfg, d);
    ReadDirty(cfg, d);
    var have, checked := Repairing({d}, HaveDevice(d, DirtyDev(d))), Repairing({d}, Checked(d, DirtyDev(d)));
    WorkerFrees(cfg, d, have);
    var freed, p := FreedLab(cfg, d), Restarting(have, map[]).(pumpCalls := 1);
    var q := p.(phase := checked, cleaners := map[1 := Worker(d, false)]);
    ReachedNext(cfg, Sys(freed, p), RepairCheck(1), Sys(freed, q));
    ReachedNext(cfg, Sys(freed, q), CleanerStart(1), Sys(freed, q.(cleaners := map[1 := Worker(d, true)])));
  }

  lemma ReadDirty(cfg: Config, d: DeviceId)
    requires Reached(cfg, Sys(DirtyLab(cfg, d), Restarting(Repairing({d}, Between), map[0 := Worker(d, true)])))
    ensures Reached(cfg, Sys(DirtyLab(cfg, d),
        Restarting(Repairing({d}, HaveDevice(d, DirtyDev(d))), map[0 := Worker(d, true)])))
  {
    hide Reached, Effect, Do;
    var lab, busy := DirtyLab(cfg, d), map[0 := Worker(d, true)];
    ReachedNext(cfg, Sys(lab, Restarting(Repairing({d}, Between), busy)), RepairRead(d),
                Sys(lab, Restarting(Repairing({d}, HaveDevice(d, DirtyDev(d))), busy)));
  }

  lemma SecondGrantDoes(cfg: Config, d: DeviceId)
    ensures Allowed(FreedLab(cfg, d), Allocate(Some(d), 2, 0))
    ensures Effect(cfg, FreedLab(cfg, d), Allocate(Some(d), 2, 0)).1 != []
    ensures var s' := Do(cfg, FreedLab(cfg, d), Allocate(Some(d), 2, 0)).store;
      d in s'.devices && s'.devices[d].state == DeviceState.Reserved && s'.devices[d].currentSessionId == Some(2)
  {
    var lab := FreedLab(cfg, d);
    History.AllocateOnly(cfg, lab, d, 2, 2);
  }

  // ---------------- the repair loop puts a reserved device into the pool ----------------

  /** A second device is registered by the restart. */
  function TwoLab(cfg: Config, d: DeviceId, e: DeviceId): Lab {
    var lab := DirtyLab(cfg, d);
    lab.(store := lab.store.(devices := map[d := DirtyDev(d), e := Dev(e, Available, None, None)],
                             deviceIds := {d, e}, avail := {e}),
         log := lab.log + [Registered(e, true)])
  }

  /** The first device has been freed. */
  function TwoFreed(cfg: Config, d: DeviceId, e: DeviceId): Lab {
    var lab := TwoLab(cfg, d, e);
    lab.(store := lab.store.(devices := map[d := Dev(d, Available, None, Some(1)), e := Dev(e, Available, None, None)],
                             avail := {d, e}, listed := {},
                             sessions := map[1 := EndedSession(cfg, d).(state := Ended)]),
         log := lab.log + [Cleaned(1, d)])
  }

  lemma RegisterDoes(cfg: Config, d: DeviceId, e: DeviceId)
    requires d != e
    ensures Do(cfg, DirtyLab(cfg, d), RegisterDevice(e, true)) == TwoLab(cfg, d, e)
  {
    var a, b := Do(cfg, DirtyLab(cfg, d), RegisterDevice(e, true)).store, TwoLab(cfg, d, e).store;
    assert a.devices == b.devices && a.deviceIds == b.deviceIds && a.avail == b.avail;
  }

  lemma FreeOneDoes(cfg: Config, d: DeviceId, e: DeviceId)
    requires d != e
    ensures Allowed(TwoLab(cfg, d, e), FinishCleanup(1, d, true))
    ensures Do(cfg, TwoLab(cfg, d, e), FinishCleanup(1, d, true)) == TwoFreed(cfg, d, e)
    ensures Effect(cfg, TwoLab(cfg, d, e), FinishCleanup(1, d, true)).1 == [Cleaned(1, d)]
  {
    var a, b := Do(cfg, TwoLab(cfg, d, e), FinishCleanup(1, d, true)).store, TwoFreed(cfg, d, e).store;
    assert a.devices == b.devices && a.sessions == b.sessions && a.listed == b.listed && a.avail == b.avail;
  }

  /** The restart has started the worker, repaired the first device, and read the second as available. */
  lemma TwoRead(cfg: Config, d: DeviceId, e: DeviceId)
    requires d != e
    ensures Reached(cfg, Sys(TwoLab(cfg, d, e), Restarting(
      Repairing({e}, Checked(e, Dev(e, Available, None, None))), map[0 := Worker(d, true)])))
  {
    hide Reached, Effect, Do;
    TwoRegistered(cfg, d, e);
    Adopted(cfg, d, TwoLab(cfg, d, e));
    FirstRepaired(cfg, d, e, TwoLab(cfg, d, e));
    var lab, busy, dev := TwoLab(cfg, d, e), map[0 := Worker(d, true)], Dev(e, Available, None, None);
    ReachedNext(cfg, Sys(lab, Restarting(Repairing({e}, Between), busy)), RepairRead(e),
                Sys(lab, Restarting(Repairing({e}, HaveDevice(e, dev)), busy)));
    ReachedNext(cfg, Sys(lab, Restarting(Repairing({e}, HaveDevice(e, dev)), busy)), RepairCheck(1),
                Sys(lab, Restarting(Repairing({e}, Checked(e, dev)), busy)));
  }

  lemma TwoRegistered(cfg: Config, d: DeviceId, e: DeviceId)
    requires d != e
    ensures Reached(cfg, At(TwoLab(cfg, d, e), Adopting(1, {1})))
  {
    hide Reached, Effect, Do;
    CrashedDirty(cfg, d);
    RegisterDoes(cfg, d, e);
    var lab, two := DirtyLab(cfg, d), TwoLab(cfg, d, e);
    assert {d, e} - {d} == {e} && {e} - {e} == {};
    Pruned(cfg, d, {d, e}, lab);
    ReachedNext(cfg, At(lab, Registering({e})), RegisterOne(e, true), At(two, Registering({})));
    ReachedNext(cfg, At(two, Registering({})), RegisterDone, At(two, Adopting(1, {1})));
  }

  lemma FirstRepaired(cfg: Config, d: DeviceId, e: DeviceId, lab: Lab)
    requires d != e && d !in lab.store.avail
    requires d in lab.store.devices && lab.store.devices[d] == DirtyDev(d)
    requires 1 in lab.store.sessions && lab.store.sessions[1].state == Ending
    requires Reached(cfg, Sys(lab, Restarting(Repairing({d, e}, Between), map[0 := Worker(d, true)])))
    ensures Reached(cfg, Sys(lab, Restarting(Repairing({e}, Between), map[0 := Worker(d, true)])))
  {
    RedundantWrite(cfg, lab, d, false);
    hide Reached, Effect, Do;
    var busy, dev := map[0 := Worker(d, true)], DirtyDev(d);
    assert {d, e} - {d} == {e};
    ReachedNext(cfg, Sys(lab, Restarting(Repairing({d, e}, Between), busy)), RepairRead(d),
                Sys(lab, Restarting(Repairing({d, e}, HaveDevice(d, dev)), busy)));
    ReachedNext(cfg, Sys(lab, Restarting(Repairing({d, e}, HaveDevice(d, dev)), busy)), RepairCheck(1),
                Sys(lab, Restarting(Repairing({d, e}, Checked(d, dev)), busy)));
    ReachedNext(cfg, Sys(lab, Restarting(Repairing({d, e}, Checked(d, dev)), busy)), RepairWrite,
                Sys(lab, Restarting(Repairing({e}, Between), busy)));
  }

  lemma RedundantWrite(cfg: Config, lab: Lab, d: DeviceId, available: bool)
    requires d in lab.store.avail <==> available
    ensures Do(cfg, lab, SetAvailability(d, available)) == lab
  {
    assert (if available then lab.store.avail + {d} else lab.store.avail - {d}) == lab.store.avail;
  }

  // The second device goes to the waiter, and then back into the pool.

  function TwoGranted(cfg: Config, d: DeviceId, e: DeviceId): Lab
    requires d != e
  {
    var lab := TwoFreed(cfg, d, e);
    lab.(store := Grant(lab.store.(avail := {d}), e, 2, 2, 0, 1, cfg).0, log := lab.log + [Granted(2, e, 1, 2)],
      sids := {1, 2})
  }

  lemma GrantSecondDoes(cfg: Config, d: DeviceId, e: DeviceId)
    requires d != e
    ensures Allowed(TwoFreed(cfg, d, e), Allocate(Some(e), 2, 0))
    ensures Do(cfg, TwoFreed(cfg, d, e), Allocate(Some(e), 2, 0)) == TwoGranted(cfg, d, e)
    ensures Effect(cfg, TwoFreed(cfg, d, e), Allocate(Some(e), 2, 0)).1 != []
  {
    var lab := TwoFreed(cfg, d, e);
    History.AllocateOnly(cfg, lab, e, 2, 2);
    assert {d, e} - {e} == {d} && {1} + {2} == {1, 2};
    hide Effect, Scripts.Allocate;
  }

  /** The reserved second device is in the pool again. */
  function PollutedLab(cfg: Config, d: DeviceId, e: DeviceId): Lab
    requires d != e
  {
    var lab := TwoGranted(cfg, d, e);
    lab.(store := lab.store.(avail := {d, e}))
  }

  lemma PolluteDoes(cfg: Config, d: DeviceId, e: DeviceId)
    requires d != e
    ensures Do(cfg, TwoGranted(cfg, d, e), SetAvailability(e, true)) == PollutedLab(cfg, d, e)
  {
    assert {d} + {e} == {d, e};
  }

  lemma RepairPollutes(cfg: Config, d: DeviceId, e: DeviceId)
    requires d != e
    ensures Reached(cfg, Sys(PollutedLab(cfg, d, e), Pumps(Returned(true), false, 1)))
  {
    hide Reached, Effect, Do, Allowed, TwoLab, TwoFreed, TwoGranted, PollutedLab;
    TwoRead(cfg, d, e);
    FreeOneDoes(cfg, d, e);
    GrantSecondDoes(cfg, d, e);
    PolluteDoes(cfg, d, e);
    FreeAndGrant(cfg, TwoLab(cfg, d, e), TwoFreed(cfg, d, e), TwoGranted(cfg, d, e), d, e);
    WriteBack(cfg, TwoGranted(cfg, d, e), PollutedLab(cfg, d, e), e);
  }

  /** The worker frees the first device and the allocator grants the second. */
  lemma FreeAndGrant(cfg: Config, two: Lab, freed: Lab, granted: Lab, d: DeviceId, e: DeviceId)
    requires Reached(cfg, Sys(two, Restarting(
      Repairing({e}, Checked(e, Dev(e, Available, None, None))), map[0 := Worker(d, true)])))
    requires Allowed(two, FinishCleanup(1, d, true)) && freed == Do(cfg, two, FinishCleanup(1, d, true))
    requires Effect(cfg, two, FinishCleanup(1, d, true)).1 == [Cleaned(1, d)]
    requires Allowed(freed, Allocate(Some(e), 2, 0)) && granted == Do(cfg, freed, Allocate(Some(e), 2, 0))
    requires Effect(cfg, freed, Allocate(Some(e), 2, 0)).1 != []
    ensures Reached(cfg, Sys(granted, Restarting(
      Repairing({e}, Checked(e, Dev(e, Available, None, None))), map[]).(pump := Returned(true))))
  {
    hide Reached, Effect, Do, Allowed;
    var busy: map<nat, Cleaner> := map[0 := Worker(d, true)];
    assert busy - {0} == map[];
    var phase := Repairing({e}, Checked(e, Dev(e, Available, None, None)));
    var p := Restarting(phase, map[]);
    ReachedNext(cfg, Sys(two, Restarting(phase, busy)), CleanerFinish(0, true), Sys(freed, p.(pumpCalls := 1)));
    ReachedNext(cfg, Sys(freed, p.(pumpCalls := 1)), PumpEnter, Sys(freed, p.(pump := Calling)));
    CallIsEnabled(cfg, freed, p.(pump := Calling), Some(e), 2);
    ReachedNext(cfg, Sys(freed, p.(pump := Calling)), PumpAllocate(Some(e), 2, 0),
      Sys(granted, p.(pump := Returned(true))));
  }

  lemma WriteBack(cfg: Config, granted: Lab, lab: Lab, e: DeviceId)
    requires Reached(cfg, Sys(granted, Restarting(
      Repairing({e}, Checked(e, Dev(e, Available, None, None))), map[]).(pump := Returned(true))))
    requires lab == Do(cfg, granted, SetAvailability(e, true))
    ensures Reached(cfg, Sys(lab, Pumps(Returned(true), false, 1)))
  {
    hide Reached, Effect, Do;
    assert {e} - {e} == {};
    var p := Restarting(Repairing({e}, Checked(e, Dev(e, Available, None, None))), map[]).(pump := Returned(true));
    var q := p.(phase := Repairing({}, Between));
    ReachedNext(cfg, Sys(granted, p), RepairWrite, Sys(lab, q));
    ReachedNext(cfg, Sys(lab, q), RepairDone, Sys(lab, Pumps(Returned(true), false, 1)));
  }

  lemma CallIsEnabled(cfg: Config, lab: Lab, p: Proc, popped: Option<DeviceId>, sid: SessionId)
    requires Allowed(lab, Allocate(popped, sid, 0)) && !p.phase.Down? && p.pump == Calling
    ensures Enabled(cfg, Sys(lab, p), PumpAllocate(popped, sid, 0))
  {
  }

  lemma NobodyDoes(cfg: Config, lab: Lab, d: DeviceId, sid: SessionId)
    requires lab.store.queue == map[] && d in lab.store.avail && IsAvailable(lab.store, d) && sid !in lab.sids
    ensures Allowed(lab, Allocate(Some(d), sid, 0))
    ensures Do(cfg, lab, Allocate(Some(d), sid, 0)) == lab.(sids := lab.sids + {sid})
    ensures Effect(cfg, lab, Allocate(Some(d), sid, 0)).1 == []
  {
    assert WaitingIn(lab.store.queue, lab.store.entries) == {};
    assert Scripts.Pruned(lab.store.queue, lab.store.entries) == map[];
  }

  /** With nobody waiting the allocator uses up its calls and comes to rest. */
  lemma NobodyWaits(cfg: Config, lab: Lab, d: DeviceId)
    requires Reached(cfg, Sys(lab, Pumps(Returned(true), false, 1)))
    requires lab.store.queue == map[] && d in lab.store.avail && IsAvailable(lab.store, d) && lab.sids == {1, 2}
    ensures Reached(cfg, Sys(lab.(sids := {1, 2, 3, 4}), Pumps(Idle, false, 0)))
  {
    var l1, l2 := lab.(sids := {1, 2, 3}), lab.(sids := {1, 2, 3, 4});
    assert {1, 2} + {3} == {1, 2, 3} && {1, 2, 3} + {4} == {1, 2, 3, 4};
    NobodyDoes(cfg, lab, d, 3);
    NobodyDoes(cfg, l1, d, 4);
    hide Reached, Effect, Do, Allowed, IsAvailable;
    ReachedNext(cfg, Sys(lab, Pumps(Returned(true), false, 1)), PumpEnter, Sys(lab, Pumps(Returned(true), true, 0)));
    ReachedNext(cfg, Sys(lab, Pumps(Returned(true), true, 0)), PumpReturn, Sys(lab, Pumps(Calling, true, 0)));
    CallIsEnabled(cfg, lab, Pumps(Calling, true, 0), Some(d), 3);
    ReachedNext(cfg, Sys(lab, Pumps(Calling, true, 0)), PumpAllocate(Some(d), 3, 0),
      Sys(l1, Pumps(Returned(false), true, 0)));
    ReachedNext(cfg, Sys(l1, Pumps(Returned(false), true, 0)), PumpReturn, Sys(l1, Pumps(Calling, false, 0)));
    CallIsEnabled(cfg, l1, Pumps(Calling, false, 0), Some(d), 4);
    ReachedNext(cfg, Sys(l1, Pumps(Calling, false, 0)), PumpAllocate(Some(d), 4, 0),
      Sys(l2, Pumps(Returned(false), false, 0)));
    ReachedNext(cfg, Sys(l2, Pumps(Returned(false), false, 0)), PumpReturn, Sys(l2, Pumps(Idle, false, 0)));
  }

  /** A third client joins; the allocator pops the reserved device and rests, although the first device is free. */
  lemma StalePopInVain(cfg: Config, lab: Lab, d: DeviceId, e: DeviceId) returns (sys: Sys)
    requires Reached(cfg, Sys(lab, Pumps(Idle, false, 0))) && 5 !in lab.sids && 3 !in lab.rids
    requires lab.store.queue == map[] && 3 !in lab.store.clientSession && 3 !in lab.store.clientRequest
    requires IsAvailable(lab.store, d) && e in lab.store.avail && !IsAvailable(lab.store, e)
    ensures Reached(cfg, sys) && WaitsInVain(sys) && sys.lab.store.avail == lab.store.avail - {e}
    ensures sys.lab.store.devices == lab.store.devices
  {
    hide Reached, Effect, Do, WaitsInVain;
    var joined := Do(cfg, lab, JoinQueue(3, 0, 3));
    ThirdJoinDoes(cfg, lab);
    ReachedNext(cfg, Sys(lab, Pumps(Idle, false, 0)), Serve(JoinQueue(3, 0, 3)), Sys(joined, Pumps(Idle, false, 1)));
    ReachedNext(cfg, Sys(joined, Pumps(Idle, false, 1)), PumpEnter, Sys(joined, Pumps(Calling, false, 0)));
    sys := PopsAndRests(cfg, joined, d, e);
  }

  lemma PopsAndRests(cfg: Config, lab: Lab, d: DeviceId, e: DeviceId) returns (sys: Sys)
    requires Reached(cfg, Sys(lab, Pumps(Calling, false, 0))) && 5 !in lab.sids && IsWaiting(lab.store.entries, 3)
    requires IsAvailable(lab.store, d) && e in lab.store.avail && !IsAvailable(lab.store, e)
    ensures Reached(cfg, sys) && WaitsInVain(sys) && sys.lab.store.avail == lab.store.avail - {e}
    ensures sys.lab.store.devices == lab.store.devices
  {
    hide Reached, Effect, Do, WaitsInVain;
    StalePop(cfg, lab, e, 5);
    hide Allowed;
    var after := Do(cfg, lab, Allocate(Some(e), 5, 0));
    CallIsEnabled(cfg, lab, Pumps(Calling, false, 0), Some(e), 5);
    ReachedNext(cfg, Sys(lab, Pumps(Calling, false, 0)), PumpAllocate(Some(e), 5, 0),
      Sys(after, Pumps(Returned(false), false, 0)));
    sys := Sys(after, Pumps(Idle, false, 0));
    ReachedNext(cfg, Sys(after, Pumps(Returned(false), false, 0)), PumpReturn, sys);
    assert IsAvailable(after.store, d);
    InVain(sys, d, 3);
  }

  lemma ThirdJoinDoes(cfg: Config, lab: Lab)
    requires lab.store.queue == map[] && 3 !in lab.rids && 3 !in lab.store.clientSession
        && 3 !in lab.store.clientRequest
    ensures var l := Do(cfg, lab, JoinQueue(3, 0, 3));
      Effect(cfg, lab, JoinQueue(3, 0, 3)).1 == [Enqueued(3)] && IsWaiting(l.store.entries, 3)
      && l.store.devices == lab.store.devices && l.store.avail == lab.store.avail && l.sids == lab.sids
  {
    History.JoinEmpty(cfg, lab, 3, 3);
  }

  /**
   * The other lost wakeup: the repair loop has put a reserved device back into the pool, and the allocator
   * has come across it. Here the pool is exact again, and still a free device and a waiter do not meet.
   */
  lemma WakeupIsLostToAReservedDevice(cfg: Config, d: DeviceId, e: DeviceId) returns (sys: Sys)
    requires d != e
    ensures Reached(cfg, sys) && WaitsInVain(sys) && AvailExact(sys.lab.store)
  {
    hide Reached, WaitsInVain, PollutedLab, AvailExact;
    var lab := PollutedLab(cfg, d, e).(sids := {1, 2, 3, 4});
    RepairPollutes(cfg, d, e);
    Polluted(cfg, d, e);
    NobodyWaits(cfg, PollutedLab(cfg, d, e), d);
    sys := StalePopInVain(cfg, lab, d, e);
    ExactAgain(lab.store, sys.lab.store, d, e);
  }

  lemma Polluted(cfg: Config, d: DeviceId, e: DeviceId)
    requires d != e
    ensures var lab := PollutedLab(cfg, d, e);
      var s := lab.store;
      lab.sids == {1, 2} && lab.rids == {1, 2} && s.queue == map[] && s.avail == {d, e} && s.devices.Keys == {d, e}
      && 3 !in s.clientSession && 3 !in s.clientRequest && IsAvailable(s, d) && !IsAvailable(s, e)
  {
  }

  lemma ExactAgain(s: Store, s': Store, d: DeviceId, e: DeviceId)
    requires d != e && s.avail == {d, e} == s.devices.Keys && IsAvailable(s, d) && !IsAvailable(s, e)
    requires s'.devices == s.devices && s'.avail == s.avail - {e}
    ensures AvailExact(s')
  {
  }

  // ---------------- the reaper detaches a client that has just been heard of ----------------

  /** The first client has claimed its session and then been silent for longer than the reaper allows. */
  function SilentLab(cfg: Config, d: DeviceId): Lab {
    var lab := GrantedLab(cfg, d);
    lab.(store := lab.store.(
           devices := map[d := Dev(d, InUse, Some(1), Some(1))],
           sessions := map[1 := NewSession(1, 1, d, 1, 0, 1, cfg).(
             state := Active, activatedAt := Some(1), expiresAt := 1 + cfg.sessionMaxMs, lastHeartbeatAt := 1,
             claimDeadline := None)]),
         clock := 2 + cfg.heartbeatTimeoutMs)
  }

  lemma ClaimDoes(cfg: Config, d: DeviceId)
    ensures Allowed(GrantedLab(cfg, d), Claim(1, 1, None))
    ensures Do(cfg, GrantedLab(cfg, d), Claim(1, 1, None)) == SilentLab(cfg, d).(clock := 1)
    ensures Effect(cfg, GrantedLab(cfg, d), Claim(1, 1, None)).1 == []
  {
    var s, want := Do(cfg, GrantedLab(cfg, d), Claim(1, 1, None)).store, SilentLab(cfg, d).store;
    assert s.devices == want.devices && s.sessions == want.sessions;
  }

  lemma FallsSilent(cfg: Config, d: DeviceId)
    ensures Reached(cfg, Sys(SilentLab(cfg, d), Pumps(Returned(true), false, 1)))
  {
    hide Reached, Effect, Do, GrantedLab;
    FirstGrant(cfg, d);
    ClaimDoes(cfg, d);
    TickDoes(cfg, SilentLab(cfg, d).(clock := 1), 1 + cfg.heartbeatTimeoutMs);
    hide SilentLab, Allowed;
    var p, silent := Pumps(Returned(true), false, 1), SilentLab(cfg, d);
    ReachedNext(cfg, Sys(GrantedLab(cfg, d), p), Serve(Claim(1, 1, None)), Sys(silent.(clock := 1), p));
    ReachedNext(cfg, Sys(silent.(clock := 1), p), World(Tick(1 + cfg.heartbeatTimeoutMs)), Sys(silent, p));
  }

  lemma ReaperNotices(cfg: Config, d: DeviceId)
    requires cfg.heartbeatTimeoutMs < cfg.sessionMaxMs
    ensures Reached(cfg, Sys(SilentLab(cfg, d),
      Pumps(Returned(true), false, 1).(reaper := Acting(2 + cfg.heartbeatTimeoutMs, {}, 1, Detach))))
  {
    hide Reached, Effect, Do, GrantedLab;
    FallsSilent(cfg, d);
    var p, now, silent := Pumps(Returned(true), false, 1), 2 + cfg.heartbeatTimeoutMs, SilentLab(cfg, d);
    SilentFacts(cfg, d);
    hide SilentLab, Judge;
    ReachedNext(cfg, Sys(silent, p), ReaperStart, Sys(silent, p.(reaper := Scanning(now, {1}))));
    assert {1} - {1} == {};
    ReachedNext(cfg, Sys(silent, p.(reaper := Scanning(now, {1}))), ReaperRead(1),
                Sys(silent, p.(reaper := Acting(now, {}, 1, Detach))));
  }

  lemma SilentFacts(cfg: Config, d: DeviceId)
    requires cfg.heartbeatTimeoutMs < cfg.sessionMaxMs
    ensures var lab := SilentLab(cfg, d);
      lab.clock == 2 + cfg.heartbeatTimeoutMs && lab.store.listed == {1} && 1 in lab.store.sessions
      && Judge(cfg, lab.store.sessions[1], lab.clock) == Detach
  {
  }

  lemma TickDoes(cfg: Config, lab: Lab, ms: nat)
    ensures Allowed(lab, Tick(ms))
    ensures Do(cfg, lab, Tick(ms)) == lab.(clock := lab.clock + ms)
    ensures Effect(cfg, lab, Tick(ms)).1 == []
  {
  }

  /** A reachable state in which a client is detached although it has been heard of at that very moment. */
  lemma DetachedWhileHeard(cfg: Config, d: DeviceId) returns (sys: Sys)
    requires cfg.heartbeatTimeoutMs < cfg.sessionMaxMs
    ensures Reached(cfg, sys) && 1 in sys.lab.store.sessions
    ensures var s := sys.lab.store.sessions[1]; s.state == Disconnected && s.lastHeartbeatAt == sys.lab.clock
  {
    hide Reached, Effect, Do;
    ReaperNotices(cfg, d);
    var lab, now := SilentLab(cfg, d), 2 + cfg.heartbeatTimeoutMs;
    var p := Pumps(Returned(true), false, 1).(reaper := Acting(now, {}, 1, Detach));
    Reaping.BeatThenDetach(cfg, lab, 1, 1, now);
    hide SilentLab;
    var heard := Do(cfg, lab, Heartbeat(1, Some(1)));
    ReachedNext(cfg, Sys(lab, p), Serve(Heartbeat(1, Some(1))), Sys(heard, p));
    sys := Next(cfg, Sys(heard, p), ReaperAct(0));
    ReachedNext(cfg, Sys(heard, p), ReaperAct(0), sys);
  }

  // ---------------- a report of a sick device ends the next owner's session ----------------

  function Hired(calls: nat, working: bool, d: DeviceId): Proc {
    Pumps(Returned(true), false, calls).(cleaners := map[0 := Worker(d, working)])
  }

  /** The health loop hears that the device is sick; before it has read the device again it has a new owner. */
  function BetweenReadings(d: DeviceId): seq<Action> {
    [Serve(HealthUpdate(d, false))] + ([Terminate(1, ByUser, false, None, 0)] + ([Serve(JoinQueue(2, 0, 2))]
    + ([CleanerStart(0)] + ([CleanerFinish(0, true)] + ([PumpReturn] + ([PumpAllocate(Some(d), 2, 0)] + []))))))
  }

  /**
   * A reachable state in which the report of a sick device leads to the end of a session that the report was
   * not about: the device has been cleaned and granted to the second client before the loop reads it again.
   */
  lemma SuccessorIsEnded(cfg: Config, d: DeviceId) returns (sick: Sys, read: Sys)
    ensures Reached(cfg, sick) && SysRuns(cfg, sick, BetweenReadings(d), read)
    ensures Scripts.HealthUpdate(sick.lab.store, d, false, sick.lab.clock).1 == SessionUnhealthy
    ensures Health.Binding(sick.lab.store, d) == Some(1) && Health.Binding(read.lab.store, d) == Some(2)
    ensures Enabled(cfg, read, Terminate(2, DeviceError, true, None, 0))
    ensures Next(cfg, read, Terminate(2, DeviceError, true, None, 0)).lab.log ==
      read.lab.log + [Terminated(2, DeviceError)]
  {
    hide Reached, SysRuns, Effect, Do, Enabled, Next;
    FirstGrant(cfg, d);
    SickDoes(cfg, d);
    SecondGrantDoes(cfg, d);
    var second := Do(cfg, FreedLab(cfg, d), Allocate(Some(d), 2, 0));
    sick, read := Sys(GrantedLab(cfg, d), Pumps(Returned(true), false, 1)),
      Sys(second, Pumps(Returned(true), false, 3));
    SecondIsLive(cfg, d);
    SecondEnds(cfg, second, read.proc);
    GrantNext(cfg, d);
    GrantsAgain(cfg, FreedLab(cfg, d), d, read);
    CleansAgain(cfg, d, AfterCleaning(d), read);
    EndsAndJoins(cfg, d, [CleanerStart(0)] + ([CleanerFinish(0, true)] + AfterCleaning(d)), read);
  }

  function AfterCleaning(d: DeviceId): seq<Action> {
    [PumpReturn] + ([PumpAllocate(Some(d), 2, 0)] + [])
  }

  lemma GrantsAgain(cfg: Config, freed: Lab, d: DeviceId, read: Sys)
    requires Allowed(freed, Allocate(Some(d), 2, 0)) && 2 !in freed.sids && PopOf(freed.store.avail, Some(d))
    requires Effect(cfg, freed, Allocate(Some(d), 2, 0)).1 != []
    requires read == Sys(Do(cfg, freed, Allocate(Some(d), 2, 0)), Pumps(Returned(true), false, 3))
    ensures SysRuns(cfg, Sys(freed, Pumps(Returned(true), false, 3)), AfterCleaning(d), read)
  {
    AllocatesNow(cfg, freed, d, read);
    hide SysRuns, Effect, Do, Allowed;
    StepThen(cfg, Sys(freed, Pumps(Returned(true), false, 3)), PumpReturn, Sys(freed, Pumps(Calling, false, 3)),
      [PumpAllocate(Some(d), 2, 0)] + [], read);
  }

  lemma AllocatesNow(cfg: Config, freed: Lab, d: DeviceId, read: Sys)
    requires Allowed(freed, Allocate(Some(d), 2, 0)) && 2 !in freed.sids && PopOf(freed.store.avail, Some(d))
    requires Effect(cfg, freed, Allocate(Some(d), 2, 0)).1 != []
    requires read == Sys(Do(cfg, freed, Allocate(Some(d), 2, 0)), Pumps(Returned(true), false, 3))
    ensures SysRuns(cfg, Sys(freed, Pumps(Calling, false, 3)), [PumpAllocate(Some(d), 2, 0)] + [], read)
  {
    assert SysRuns(cfg, read, [], read);
    hide SysRuns, Effect, Do, Allowed;
    StepThen(cfg, Sys(freed, Pumps(Calling, false, 3)), PumpAllocate(Some(d), 2, 0), read, [], read);
  }

  lemma CleansAgain(cfg: Config, d: DeviceId, rest: seq<Action>, read: Sys)
    requires SysRuns(cfg, Sys(FreedLab(cfg, d), Pumps(Returned(true), false, 3)), rest, read)
    ensures SysRuns(cfg, Sys(DirtyLab(cfg, d), Hired(2, false, d)),
      [CleanerStart(0)] + ([CleanerFinish(0, true)] + rest), read)
  {
    FreeDoes(cfg, d);
    GrantNext(cfg, d);
    hide SysRuns, Effect, Do, DirtyLab, FreedLab, Allowed;
    var dirty, freed := DirtyLab(cfg, d), FreedLab(cfg, d);
    assert map[0 := Worker(d, true)] - {0} == map[];
    StepThen(cfg, Sys(dirty, Hired(2, true, d)), CleanerFinish(0, true), Sys(freed, Pumps(Returned(true), false, 3)),
      rest, read);
    StepThen(cfg, Sys(dirty, Hired(2, false, d)), CleanerStart(0), Sys(dirty, Hired(2, true, d)),
      [CleanerFinish(0, true)] + rest, read);
  }

  lemma EndsAndJoins(cfg: Config, d: DeviceId, rest: seq<Action>, read: Sys)
    requires SysRuns(cfg, Sys(DirtyLab(cfg, d), Hired(2, false, d)), rest, read)
    ensures SysRuns(cfg, Sys(GrantedLab(cfg, d), Pumps(Returned(true), false, 1)),
      [Serve(HealthUpdate(d, false))] + ([Terminate(1, ByUser, false, None, 0)] + ([Serve(JoinQueue(2, 0, 2))] + rest)),
      read)
  {
    hide SysRuns, Effect, Do;
    SickDoes(cfg, d);
    EndDoes(cfg, d);
    SecondJoinDoes(cfg, d);
    SecondIdIsNew(cfg, d);
    hide GrantedLab, EndedLab, DirtyLab;
    var granted, ended, dirty := GrantedLab(cfg, d), EndedLab(cfg, d), DirtyLab(cfg, d);
    var sick := Sys(granted, Pumps(Returned(true), false, 1));
    StepThen(cfg, Sys(ended, Hired(1, false, d)), Serve(JoinQueue(2, 0, 2)), Sys(dirty, Hired(2, false, d)), rest,
      read);
    var run := [Serve(JoinQueue(2, 0, 2))] + rest;
    StepThen(cfg, sick, Terminate(1, ByUser, false, None, 0), Sys(ended, Hired(1, false, d)), run, read);
    StepThen(cfg, sick, Serve(HealthUpdate(d, false)), sick, [Terminate(1, ByUser, false, None, 0)] + run, read);
  }

  lemma SecondIdIsNew(cfg: Config, d: DeviceId)
    ensures 2 !in EndedLab(cfg, d).rids
    ensures 1 in GrantedLab(cfg, d).store.sessions && GrantedLab(cfg, d).store.sessions[1].deviceId == d
  {
  }

  lemma GrantNext(cfg: Config, d: DeviceId)
    ensures 2 !in FreedLab(cfg, d).sids && PopOf(FreedLab(cfg, d).store.avail, Some(d))
    ensures d in DirtyLab(cfg, d).store.devices
  {
  }

  lemma SickDoes(cfg: Config, d: DeviceId)
    ensures Health.Binding(GrantedLab(cfg, d).store, d) == Some(1)
    ensures Scripts.HealthUpdate(GrantedLab(cfg, d).store, d, false, 1) == (GrantedLab(cfg, d).store, SessionUnhealthy)
    ensures GrantedLab(cfg, d).clock == 1
    ensures Do(cfg, GrantedLab(cfg, d), HealthUpdate(d, false)) == GrantedLab(cfg, d)
    ensures Effect(cfg, GrantedLab(cfg, d), HealthUpdate(d, false)).1 == []
  {
    Health.NotedOnly(cfg, GrantedLab(cfg, d), d);
  }

  lemma SecondIsLive(cfg: Config, d: DeviceId)
    requires Allowed(FreedLab(cfg, d), Allocate(Some(d), 2, 0))
    ensures var lab := Do(cfg, FreedLab(cfg, d), Allocate(Some(d), 2, 0));
      Health.Binding(lab.store, d) == Some(2) && Reaping.LiveIn(lab, 2)
  {
    var freed := FreedLab(cfg, d);
    History.AllocateOnly(cfg, freed, d, 2, 2);
  }

  lemma SecondEnds(cfg: Config, lab: Lab, p: Proc)
    requires Reaping.LiveIn(lab, 2) && p.phase.Up? && 0 !in p.cleaners
    ensures Enabled(cfg, Sys(lab, p), Terminate(2, DeviceError, true, None, 0))
    ensures Next(cfg, Sys(lab, p), Terminate(2, DeviceError, true, None, 0)).lab.log == lab.log +
        [Terminated(2, DeviceError)]
  {
    Health.EndingEnds(cfg, lab, 2, 2);
    hide Effect, Do;
  }
}
