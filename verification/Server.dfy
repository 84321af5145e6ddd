/**
 * The server process around the store: the coalescing allocator, the cleanup workers, the reaper and
 * the restart sequence, cut at every `await` into steps that interleave freely.
 *
 * A crash drops all of the process and none of the store.
 */
module Server {
  import opened Domain
  import opened Scripts
  import opened Lab
  import opened Tenure

  /** Where the allocation loop is: `pumping` is every phase but Idle. */
  datatype PumpPhase = Idle | Calling | Returned(got: bool)

  /** A cleanup worker: not working until it has read the device record. */
  datatype Cleaner = Cleaner(sid: SessionId, did: DeviceId, working: bool, retries: nat)

  datatype Reaper =
    | Resting
    | Scanning(since: int, todo: set<SessionId>)
    | Acting(since: int, todo: set<SessionId>, sid: SessionId, verdict: Verdict)

  /** The repair loop's position within one device: its record is read, then its session, then `avail` is written. */
  datatype Cursor = Between | HaveDevice(did: DeviceId, dev: Device) | Checked(did: DeviceId, dev: Device)

  datatype Phase =
    | Down
    | Pruning(serials: set<DeviceId>, unpruned: set<DeviceId>)
    | Registering(unregistered: set<DeviceId>)
    | Adopting(since: int, unadopted: set<SessionId>)
    | Repairing(unrepaired: set<DeviceId>, cursor: Cursor)
    | Up

  datatype Proc = Proc(
    phase: Phase,
    pump: PumpPhase,
    pumpAgain: bool,
    pumpCalls: nat,              // calls of `pump` that have been made but have not started
    cleaners: map<nat, Cleaner>,
    reaper: Reaper)

  datatype Sys = Sys(lab: Lab, proc: Proc)

  const STOPPED := Proc(Down, Idle, false, 0, map[], Resting)

  datatype Action =
    // life of the process
    | Crash
    | Boot(serials: set<DeviceId>)
    | PruneOne(did: DeviceId)
    | PruneDone
    | RegisterOne(did: DeviceId, online: bool)
    | RegisterDone
    | AdoptOne(sid: SessionId, worker: nat)
    | AdoptDone
    | RepairRead(did: DeviceId)
    | RepairCheck(worker: nat)
    | RepairWrite
    | RepairDone
    // allocator
    | PumpEnter
    | PumpAllocate(popped: Option<DeviceId>, sid: SessionId, claimHash: TokenHash)
    | PumpReturn
    // cleanup workers
    | CleanerStart(worker: nat)
    | CleanerFinish(worker: nat, ok: bool)
    // reaper
    | ReaperStart
    | ReaperRead(sid: SessionId)
    | ReaperAct(worker: nat)
    | ReaperDone
    // everything clients, timers and the health loop may ask of a running server
    | Serve(cmd: Cmd)
    | Terminate(sid: SessionId, reason: EndReason, expired: bool, fence: Option<nat>, worker: nat)
    // the world
    | World(cmd: Cmd)
    | Disturb(did: DeviceId, add: bool)

  /** Commands that a running server issues for its clients and its health loop. */
  predicate Servable(cmd: Cmd) {
    cmd.JoinQueue? || cmd.Claim? || cmd.Heartbeat? || cmd.MarkDisconnected? || cmd.Reconnect?
    || cmd.HealthUpdate? || cmd.UpdateInputSeq? || cmd.CancelRequest?
  }

  predicate Worldly(cmd: Cmd) {
    cmd.Tick? || cmd.ForgetSession? || cmd.ForgetEntry?
  }

  /** The one script call, if any, that an action makes. */
  function CmdOf(cfg: Config, sys: Sys, a: Action): Option<Cmd> {
    var s := sys.lab.store;
    var p := sys.proc;
    match a
    case PruneOne(d) =>
      if p.phase.Pruning? && d !in p.phase.serials && (d in s.devices ==> s.devices[d].currentSessionId.None?)
      then Some(UnregisterDevice(d)) else None
    case RegisterOne(d, online) => if d !in s.devices then Some(RegisterDevice(d, online)) else None
    case AdoptOne(sid, _) =>
      if p.phase.Adopting? && sid in s.sessions && s.sessions[sid].state == Active
      then Some(MarkDisconnected(sid, p.phase.since)) else None
    case RepairWrite =>
      if p.phase.Repairing? && p.phase.cursor.Checked?
      then Some(SetAvailability(p.phase.cursor.did, p.phase.cursor.dev.state == Available)) else None
    case PumpAllocate(popped, sid, h) => Some(Allocate(popped, sid, h))
    case CleanerFinish(k, ok) =>
      if k in p.cleaners then Some(FinishCleanup(p.cleaners[k].sid, p.cleaners[k].did, ok)) else None
    case ReaperAct(_) =>
      if !p.reaper.Acting? then None else
      (match p.reaper.verdict
       case Expire(reason) => Some(BeginTermination(p.reaper.sid, reason, true, None))
       case Detach => Some(MarkDisconnected(p.reaper.sid, p.reaper.since))
       case Keep => Some(Heartbeat(p.reaper.sid, None)))
    case Serve(cmd) => Some(cmd)
    case Terminate(sid, reason, expired, fence, _) => Some(BeginTermination(sid, reason, expired, fence))
    case World(cmd) => Some(cmd)
    case Disturb(d, add) => Some(SetAvailability(d, add))
    case _ => None
  }

  /** When the server can take an action. Only ids are assumed fresh; every other guard is the code's own. */
  ghost predicate Enabled(cfg: Config, sys: Sys, a: Action) {
    var s := sys.lab.store;
    var p := sys.proc;
    match a
    case Crash => true
    case Boot(_) => p.phase.Down?
    case PruneOne(d) => p.phase.Pruning? && d in p.phase.unpruned
    case PruneDone => p.phase.Pruning? && p.phase.unpruned == {}
    case RegisterOne(d, _) => p.phase.Registering? && d in p.phase.unregistered
    case RegisterDone => p.phase.Registering? && p.phase.unregistered == {}
    case AdoptOne(sid, k) => p.phase.Adopting? && sid in p.phase.unadopted && k !in p.cleaners
    case AdoptDone => p.phase.Adopting? && p.phase.unadopted == {}
    case RepairRead(d) => p.phase.Repairing? && p.phase.cursor == Between && d in p.phase.unrepaired
    case RepairCheck(k) => p.phase.Repairing? && p.phase.cursor.HaveDevice? && k !in p.cleaners
    case RepairWrite => p.phase.Repairing? && p.phase.cursor.Checked?
    case RepairDone => p.phase.Repairing? && p.phase.cursor == Between && p.phase.unrepaired == {}
    case PumpEnter => !p.phase.Down? && p.pumpCalls > 0
    case PumpAllocate(popped, sid, _) => !p.phase.Down? && p.pump == Calling && sid !in sys.lab.sids
      && PopOf(s.avail, popped)
    case PumpReturn => !p.phase.Down? && p.pump.Returned?
    case CleanerStart(k) => !p.phase.Down? && k in p.cleaners && !p.cleaners[k].working
    case CleanerFinish(k, _) => !p.phase.Down? && k in p.cleaners && p.cleaners[k].working
    case ReaperStart => p.phase.Up? && p.reaper.Resting?
    case ReaperRead(sid) => p.phase.Up? && p.reaper.Scanning? && sid in p.reaper.todo
    case ReaperAct(k) => p.phase.Up? && p.reaper.Acting? && k !in p.cleaners
    case ReaperDone => p.phase.Up? && p.reaper.Scanning? && p.reaper.todo == {}
    case Serve(cmd) =>
      p.phase.Up? && Servable(cmd)
      && (cmd.JoinQueue? ==> cmd.rid !in sys.lab.rids) && (cmd.MarkDisconnected? ==> cmd.sampledAt <= sys.lab.clock)
    case Terminate(_, _, _, _, k) => p.phase.Up? && k !in p.cleaners
    case World(cmd) => Worldly(cmd) && Allowed(sys.lab, cmd)
    case Disturb(_, _) => true
  }

  function Spawn(p: Proc, k: nat, sid: SessionId, did: DeviceId): Proc {
    p.(cleaners := p.cleaners[k := Cleaner(sid, did, false, 0)])
  }

  /** The process after an action whose script call, if any, logged `events`. */
  function ProcAfter(cfg: Config, sys: Sys, a: Action, events: seq<Event>): Proc
  {
    var s := sys.lab.store;
    var p := sys.proc;
    match a
    case Crash => STOPPED
    case Boot(serials) => p.(phase := Pruning(serials, s.deviceIds))
    case PruneOne(d) => if p.phase.Pruning? then p.(phase := p.phase.(unpruned := p.phase.unpruned - {d})) else p
    case PruneDone => if p.phase.Pruning? then p.(phase := Registering(p.phase.serials)) else p
    case RegisterOne(d, _) =>
      if p.phase.Registering? then p.(phase := p.phase.(unregistered := p.phase.unregistered - {d})) else p
    case RegisterDone => p.(phase := Adopting(sys.lab.clock, s.listed))
    case AdoptOne(sid, k) =>
      if !p.phase.Adopting? then p else
      var p1 := p.(phase := p.phase.(unadopted := p.phase.unadopted - {sid}));
      if sid in s.sessions
         && (s.sessions[sid].state == Ending || s.sessions[sid].state == Expired || s.sessions[sid].state == CleaningUp)
      then Spawn(p1, k, sid, s.sessions[sid].deviceId) else p1
    case AdoptDone => p.(phase := Repairing(s.deviceIds, Between))
    case RepairRead(d) =>
      if !p.phase.Repairing? then p else
      if d in s.devices then p.(phase := p.phase.(cursor := HaveDevice(d, s.devices[d])))
      else p.(phase := p.phase.(unrepaired := p.phase.unrepaired - {d}))
    case RepairCheck(k) =>
      if !p.phase.Repairing? || !p.phase.cursor.HaveDevice? then p else
      var c := p.phase.cursor;
      var p1 := p.(phase := p.phase.(cursor := Checked(c.did, c.dev)));
      var bound := c.dev.currentSessionId;
      if bound.Some? && (bound.value in s.sessions ==> !Nonterminal(s.sessions[bound.value].state))
      then Spawn(p1, k, bound.value, c.did) else p1
    case RepairWrite =>
      if !p.phase.Repairing? || !p.phase.cursor.Checked? then p else
      p.(phase := Repairing(p.phase.unrepaired - {p.phase.cursor.did}, Between))
    case RepairDone => p.(phase := Up, pumpCalls := p.pumpCalls + 1)
    case PumpEnter =>
      if p.pumpCalls == 0 then p else
      var p1 := p.(pumpCalls := p.pumpCalls - 1);
      if p.pump.Idle? then p1.(pump := Calling) else p1.(pumpAgain := true)
    case PumpAllocate(_, _, _) => p.(pump := Returned(events != []))
    case PumpReturn =>
      if !p.pump.Returned? then p
      else if p.pump.got then p.(pump := Calling)
      else if p.pumpAgain then p.(pumpAgain := false, pump := Calling)
      else p.(pump := Idle)
    case CleanerStart(k) =>
      if k !in p.cleaners then p
      else if p.cleaners[k].did in s.devices then p.(cleaners := p.cleaners[k := p.cleaners[k].(working := true)])
      else p.(cleaners := p.cleaners - {k})
    case CleanerFinish(k, _) =>
      if k !in p.cleaners then p
      else if events == [] then p.(cleaners := p.cleaners - {k})
      else if events[0].Cleaned? then p.(cleaners := p.cleaners - {k}, pumpCalls := p.pumpCalls + 1)
      else if events[0].CleanupFailed? && events[0].grounded then p.(cleaners := p.cleaners - {k})
      else p.(cleaners := p.cleaners[k := p.cleaners[k].(retries := p.cleaners[k].retries + 1)])
    case ReaperStart => p.(reaper := Scanning(sys.lab.clock, s.listed))
    case ReaperRead(sid) =>
      if !p.reaper.Scanning? then p else
      var todo := p.reaper.todo - {sid};
      if sid in s.sessions then p.(reaper := Acting(p.reaper.since, todo, sid,
        Judge(cfg, s.sessions[sid], p.reaper.since)))
      else p.(reaper := Scanning(p.reaper.since, todo))
    case ReaperAct(k) =>
      if !p.reaper.Acting? then p else
      var p1 := p.(reaper := Scanning(p.reaper.since, p.reaper.todo));
      if events != [] && p.reaper.sid in s.sessions then Spawn(p1, k, p.reaper.sid, s.sessions[p.reaper.sid].deviceId)
        else p1
    case ReaperDone => p.(reaper := Resting)
    case Serve(cmd) =>
      if events != [] && (events[0].Enqueued? || events[0].BackOnline?) then p.(pumpCalls := p.pumpCalls + 1) else p
    case Terminate(sid, _, _, _, k) =>
      if events != [] && sid in s.sessions then Spawn(p, k, sid, s.sessions[sid].deviceId) else p
    case World(_) => p
    case Disturb(_, _) => p
  }

  /** One step. That the script call is one its callers may make is shown below for every reachable state. */
  ghost function Next(cfg: Config, sys: Sys, a: Action): Sys
    requires Enabled(cfg, sys, a)
  {
    match CmdOf(cfg, sys, a)
    case None => Sys(sys.lab, ProcAfter(cfg, sys, a, []))
    case Some(cmd) =>
      if Allowed(sys.lab, cmd)
      then Sys(Do(cfg, sys.lab, cmd), ProcAfter(cfg, sys, a, Effect(cfg, sys.lab, cmd).1))
      else sys
  }

  ghost predicate SysRuns(cfg: Config, a: Sys, actions: seq<Action>, b: Sys)
    decreases |actions|
  {
    if actions == [] then a == b
    else Enabled(cfg, a, actions[0]) && SysRuns(cfg, Next(cfg, a, actions[0]), actions[1..], b)
  }

  function NewSys(clock: int): Sys {
    Sys(Start(clock), STOPPED)
  }
}
