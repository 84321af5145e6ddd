/** What the restart makes of the device registry: the configured devices, and those that still have an owner. */
module Registry {
  import opened Domain
  import opened Scripts
  import opened Lab
  import opened Ownership
  import opened Server
  import opened ServerInv
  import Transitions
  import Stories
  import Tenure

  /** The device is registered and bound to a session. */
  predicate Owned(s: Store, d: DeviceId) {
    d in s.devices && s.devices[d].currentSessionId.Some?
  }

  /** Nothing but the restart itself is at work. */
  predicate Quiet(p: Proc) {
    p.pump.Idle? && p.pumpCalls == 0 && p.cleaners == map[] && p.reaper.Resting?
  }

  /** How far a restart that found the registry as in `s0` has come with it. */
  ghost predicate RestartAt(sys: Sys, s0: Store, serials: set<DeviceId>) {
    var s := sys.lab.store;
    match sys.proc.phase
    case Pruning(wanted, unpruned) =>
      wanted == serials && Quiet(sys.proc) && BindingsKept(s0, s)
      && (forall d :: d in s.deviceIds <==> d in s0.deviceIds && (d in unpruned || d in serials || Owned(s0, d)))
    case Registering(unregistered) =>
      Quiet(sys.proc) && BindingsKept(s0, s) && unregistered <= serials
      && (forall d :: d in s.deviceIds <==>
            (d in s0.deviceIds && (d in serials || Owned(s0, d))) || (d in serials && d !in unregistered))
    case _ => true
  }

  ghost predicate BindingsKept(s0: Store, s: Store) {
    forall d | d in s0.devices && d in s.devices :: s.devices[d].currentSessionId == s0.devices[d].currentSessionId
  }

  /** What the commands that can come in between leave alone. */
  lemma OthersKeepRegistry(cfg: Config, lab: Lab, cmd: Cmd)
    requires Allowed(lab, cmd) && (Worldly(cmd) || cmd.SetAvailability?)
    ensures var s' := Do(cfg, lab, cmd).store; s'.devices == lab.store.devices && s'.deviceIds == lab.store.deviceIds
  {
    hide Allowed;
    Transitions.OthersLeaveDevices(cfg, lab, cmd);
    hide Effect;
  }

  lemma RegistryWrites(cfg: Config, lab: Lab, d: DeviceId, online: bool)
    ensures Allowed(lab, UnregisterDevice(d)) ==>
      var s' := Do(cfg, lab, UnregisterDevice(d)).store;
      s'.devices == lab.store.devices - {d} && s'.deviceIds == lab.store.deviceIds - {d}
    ensures Allowed(lab, RegisterDevice(d, online)) ==>
      var s' := Do(cfg, lab, RegisterDevice(d, online)).store;
      s'.deviceIds == lab.store.deviceIds + {d} && d in s'.devices
      && s'.devices == lab.store.devices[d := s'.devices[d]]
      && s'.devices[d] == Device(d, if online then Available else Offline, None, None, lab.clock, 0)
  {
  }

  lemma Listed(lab: Lab)
    requires Sound(lab)
    ensures lab.store.deviceIds == lab.store.devices.Keys
  {
  }

  /** Two stores with the same registry. */
  predicate SameRegistry(s: Store, s': Store) {
    s'.devices == s.devices && s'.deviceIds == s.deviceIds
  }

  /** What a step makes of the registry while the restart is at it. */
  ghost predicate RegistryMove(sys: Sys, a: Action, sys': Sys) {
    var s, s', p, p' := sys.lab.store, sys'.lab.store, sys.proc, sys'.proc;
    match a
    case Crash => p'.phase.Down?
    case PruneOne(d) =>
      p.phase.Pruning? && p' == p.(phase := Pruning(p.phase.serials, p.phase.unpruned - {d})) && d in p.phase.unpruned
      && if d in p.phase.serials || Owned(s, d) then SameRegistry(s, s')
         else s'.devices == s.devices - {d} && s'.deviceIds == s.deviceIds - {d}
    case PruneDone =>
      p.phase.Pruning? && p' == p.(phase := Registering(p.phase.serials)) && p.phase.unpruned == {}
        && SameRegistry(s, s')
    case RegisterOne(d, _) =>
      p.phase.Registering? && p' == p.(phase := Registering(p.phase.unregistered - {d})) && d in p.phase.unregistered
      && if d in s.devices then SameRegistry(s, s')
         else s'.deviceIds == s.deviceIds + {d} && d in s'.devices && s'.devices == s.devices[d := s'.devices[d]]
    case RegisterDone => p'.phase.Adopting?
    case _ => p' == p && SameRegistry(s, s')
  }

  lemma RegistryMoves(cfg: Config, sys: Sys, a: Action)
    requires SysOk(cfg, sys) && Enabled(cfg, sys, a) && !a.Boot?
    requires (sys.proc.phase.Pruning? || sys.proc.phase.Registering?) && Quiet(sys.proc)
    ensures RegistryMove(sys, a, Next(cfg, sys, a))
  {
    CallsAreAllowed(cfg, sys, a);
    hide Effect, Sound, Stories.Told, Tenure.TenuresOk, CleanersOk, CursorOk, Allowed, Do, Tenure.Judge;
    match a
    case Crash =>
    case PruneOne(d) => RegistryWrites(cfg, sys.lab, d, false);
    case PruneDone =>
    case RegisterOne(d, online) => RegistryWrites(cfg, sys.lab, d, online);
    case RegisterDone =>
    case World(cmd) => OthersKeepRegistry(cfg, sys.lab, cmd);
    case Disturb(d, add) => OthersKeepRegistry(cfg, sys.lab, SetAvailability(d, add));
    case _ => assert false;
  }

  lemma RestartMoves(sys: Sys, a: Action, sys': Sys, s0: Store, serials: set<DeviceId>)
    requires sys.proc.phase.Pruning? || sys.proc.phase.Registering?
    requires RegistryMove(sys, a, sys') && RestartAt(sys, s0, serials)
    requires s0.deviceIds == s0.devices.Keys && sys.lab.store.deviceIds == sys.lab.store.devices.Keys
    ensures RestartAt(sys', s0, serials)
  {
  }

  lemma RestartStep(cfg: Config, sys: Sys, a: Action, s0: Store, serials: set<DeviceId>)
    requires SysOk(cfg, sys) && Enabled(cfg, sys, a) && !a.Boot?
    requires sys.proc.phase.Down? ==> sys.proc == STOPPED
    requires s0.deviceIds == s0.devices.Keys && RestartAt(sys, s0, serials)
    ensures RestartAt(Next(cfg, sys, a), s0, serials)
    ensures var p := Next(cfg, sys, a).proc; p.phase.Down? ==> p == STOPPED
  {
    NextPhase(cfg, sys, a);
    Listed(sys.lab);
    hide Next, Enabled, SysOk, RegistryMove, BindingsKept;
    if sys.proc.phase.Pruning? || sys.proc.phase.Registering? {
      RegistryMoves(cfg, sys, a);
      RestartMoves(sys, a, Next(cfg, sys, a), s0, serials);
    }
  }

  /** How the phase moves, but for a boot. */
  predicate PhaseMove(p: Proc, boots: bool, p': Proc) {
    (p'.phase.Down? && p' != STOPPED ==> p' == p)
    && (!boots && !p.phase.Pruning? && !p.phase.Registering? ==> !p'.phase.Pruning? && !p'.phase.Registering?)
  }

  lemma PhaseMoves(cfg: Config, sys: Sys, a: Action, events: seq<Event>)
    requires Enabled(cfg, sys, a)
    requires sys.proc.phase.Down? ==> sys.proc == STOPPED
    ensures PhaseMove(sys.proc, a.Boot?, ProcAfter(cfg, sys, a, events))
  {
    hide Tenure.Judge, Allowed;
  }

  lemma NextPhase(cfg: Config, sys: Sys, a: Action)
    requires SysOk(cfg, sys) && Enabled(cfg, sys, a)
    requires sys.proc.phase.Down? ==> sys.proc == STOPPED
    ensures PhaseMove(sys.proc, a.Boot?, Next(cfg, sys, a).proc)
  {
    CallsAreAllowed(cfg, sys, a);
    hide Effect, SysOk, Do, Allowed, CmdOf, ProcAfter, PhaseMove, Enabled;
    var c := CmdOf(cfg, sys, a);
    PhaseMoves(cfg, sys, a, if c.Some? then Effect(cfg, sys.lab, c.value).1 else []);
  }

  lemma {:induction false} RestartRun(cfg: Config, a: Sys, actions: seq<Action>, b: Sys, s0: Store,
      serials: set<DeviceId>)
    requires SysOk(cfg, a) && SysRuns(cfg, a, actions, b) && forall x | x in actions :: !x.Boot?
    requires a.proc.phase.Down? ==> a.proc == STOPPED
    requires s0.deviceIds == s0.devices.Keys && RestartAt(a, s0, serials)
    ensures SysOk(cfg, b) && RestartAt(b, s0, serials)
    decreases |actions|
  {
    hide SysOk, Enabled, Next, RestartAt;
    if actions != [] {
      assert actions[0] in actions;
      SysStep(cfg, a, actions[0]);
      RestartStep(cfg, a, actions[0], s0, serials);
      RestartRun(cfg, Next(cfg, a, actions[0]), actions[1..], b, s0, serials);
    }
  }

  /** A server that is down has nothing at work. */
  lemma {:induction false} DownIsStopped(cfg: Config, a: Sys, actions: seq<Action>, b: Sys)
    requires SysOk(cfg, a) && SysRuns(cfg, a, actions, b) && (a.proc.phase.Down? ==> a.proc == STOPPED)
    ensures SysOk(cfg, b) && (b.proc.phase.Down? ==> b.proc == STOPPED)
    decreases |actions|
  {
    hide SysOk, Enabled, Next;
    if actions != [] {
      SysStep(cfg, a, actions[0]);
      NextPhase(cfg, a, actions[0]);
      DownIsStopped(cfg, Next(cfg, a, actions[0]), actions[1..], b);
    }
  }

  /**
   * When a restart is through with the registry, it lists exactly the configured devices and those others
   * that had an owner when the server came up; and no device has changed hands meanwhile.
   */
  lemma RegistryIsConfigured(cfg: Config, t0: int, before: seq<Action>, a: Sys, serials: set<DeviceId>,
      during: seq<Action>, b: Sys)
    requires 0 < t0 && SysRuns(cfg, NewSys(t0), before, a) && Enabled(cfg, a, Boot(serials))
    requires SysRuns(cfg, Next(cfg, a, Boot(serials)), during, b) && Enabled(cfg, b, RegisterDone)
    requires forall x | x in during :: !x.Boot?
    ensures b.lab.store.devices.Keys == serials + set d | d in a.lab.store.devices && Owned(a.lab.store, d)
    ensures forall d | d in a.lab.store.devices && d in b.lab.store.devices ::
      b.lab.store.devices[d].currentSessionId == a.lab.store.devices[d].currentSessionId
  {
    hide SysOk, Next, SysRuns;
    var owned := set d | d in a.lab.store.devices && Owned(a.lab.store, d);
    NewSysOk(cfg, t0);
    DownIsStopped(cfg, NewSys(t0), before, a);
    RestartBegins(cfg, a, serials);
    SysStep(cfg, a, Boot(serials));
    RestartRun(cfg, Next(cfg, a, Boot(serials)), during, b, a.lab.store, serials);
    AllListed(cfg, b);
    assert forall d :: d in b.lab.store.deviceIds <==> d in serials || d in owned;
  }

  lemma AllListed(cfg: Config, sys: Sys)
    requires SysOk(cfg, sys)
    ensures sys.lab.store.deviceIds == sys.lab.store.devices.Keys
  {
    Listed(sys.lab);
  }

  lemma RestartBegins(cfg: Config, a: Sys, serials: set<DeviceId>)
    requires SysOk(cfg, a) && a.proc == STOPPED
    ensures a.lab.store.deviceIds == a.lab.store.devices.Keys
    ensures RestartAt(Next(cfg, a, Boot(serials)), a.lab.store, serials)
    ensures Next(cfg, a, Boot(serials)).proc.phase.Pruning?
  {
    Listed(a.lab);
    hide SysOk;
  }
}