/**
 * The lab as a state machine over script calls.
 *
 * Any number of concurrent activities, in any number of server lives, issue scripts against one store.
 * A run of the lab is therefore a sequence of commands, each atomic, with a clock that never goes back.
 * The log is history only: no script reads it.
 */
module Lab {
  import opened Domain
  import opened Scripts

  datatype Event =
    | Granted(sid: SessionId, did: DeviceId, fence: nat, rid: RequestId)
    | Terminated(sid: SessionId, reason: EndReason)
    | Cleaned(sid: SessionId, did: DeviceId)
    | CleanupFailed(sid: SessionId, did: DeviceId, grounded: bool)
    | Grounded(did: DeviceId)
    | BackOnline(did: DeviceId)
    | Registered(did: DeviceId, online: bool)
    | Unregistered(did: DeviceId)
    | Enqueued(rid: RequestId)
    | Withdrawn(rid: RequestId)

  datatype Lab = Lab(
    store: Store,
    clock: int,
    log: seq<Event>,
    sids: set<SessionId>,   // every session id ever issued
    rids: set<RequestId>)   // every request id ever issued

  datatype Cmd =
    | Tick(ms: nat)
    | JoinQueue(clientId: ClientId, tokenHash: TokenHash, rid: RequestId)
    | Allocate(popped: Option<DeviceId>, sid: SessionId, claimHash: TokenHash)
    | Claim(sid: SessionId, clientId: ClientId, presented: Option<TokenHash>)
    | BeginTermination(sid: SessionId, reason: EndReason, expired: bool, fence: Option<nat>)
    | FinishCleanup(sid: SessionId, did: DeviceId, ok: bool)
    | Heartbeat(sid: SessionId, client: Option<ClientId>)
    | MarkDisconnected(sid: SessionId, sampledAt: int)
    | Reconnect(sid: SessionId, clientId: ClientId)
    | HealthUpdate(did: DeviceId, healthy: bool)
    | UpdateInputSeq(sid: SessionId, inputSeq: nat)
    | CancelRequest(rid: RequestId, client: Option<ClientId>, expired: bool)
    | RegisterDevice(did: DeviceId, online: bool)
    | UnregisterDevice(did: DeviceId)
    | SetAvailability(did: DeviceId, available: bool)
    | ForgetSession(sid: SessionId)   // the time-to-live of an ended session runs out
    | ForgetEntry(rid: RequestId)     // the time-to-live of a settled queue entry runs out

  /** Cleanup is only ever run for a session that `beginTermination` has already taken. */
  predicate PastTermination(lab: Lab, sid: SessionId) {
    sid in lab.sids && (sid in lab.store.sessions ==> !Live(lab.store.sessions[sid].state))
  }

  /** What the callers guarantee: fresh random ids, and the guards of the server code around the scripts. */
  ghost predicate Allowed(lab: Lab, cmd: Cmd) {
    match cmd
    case JoinQueue(_, _, rid) => rid !in lab.rids
    case Allocate(popped, sid, _) => sid !in lab.sids && PopOf(lab.store.avail, popped)
    case FinishCleanup(sid, _, _) => PastTermination(lab, sid)
    case MarkDisconnected(_, sampledAt) => sampledAt <= lab.clock
    case RegisterDevice(did, _) => did !in lab.store.devices
    case UnregisterDevice(did) => did in lab.store.devices ==> lab.store.devices[did].currentSessionId.None?
    case ForgetSession(sid) => sid in lab.store.sessions && lab.store.sessions[sid].state == Ended
    case ForgetEntry(rid) => rid in lab.store.entries && lab.store.entries[rid].state != Waiting
    case _ => true
  }

  ghost function Effect(cfg: Config, lab: Lab, cmd: Cmd): (Store, seq<Event>)
    requires Allowed(lab, cmd)
  {
    var s := lab.store;
    match cmd
    case Tick(_) => (s, [])
    case JoinQueue(c, h, rid) =>
      var (s', r) := Scripts.JoinQueue(s, c, h, rid, lab.clock);
      (s', if r.Joined? then [Enqueued(rid)] else [])
    case Allocate(popped, sid, h) =>
      var (s', r) := Scripts.Allocate(s, popped, sid, h, lab.clock, cfg);
      (s', if r.Allocated? then [Granted(sid, r.session.deviceId, r.session.leaseFence, r.requestId)] else [])
    case Claim(sid, c, h) => (Scripts.Claim(s, sid, c, h, lab.clock, cfg).0, [])
    case BeginTermination(sid, reason, expired, fence) =>
      var (s', r) := Scripts.BeginTermination(s, sid, reason, expired, fence);
      (s', if r.TerminationOk? then [Terminated(sid, reason)] else [])
    case FinishCleanup(sid, did, ok) =>
      var (s', r) := Scripts.FinishCleanup(s, sid, did, ok, lab.clock, cfg);
      (s', if r.CleanupErr? then []
           else if r.deviceState == Available then [Cleaned(sid, did)]
           else [CleanupFailed(sid, did, r.deviceState == Offline)])
    case Heartbeat(sid, c) => (Scripts.Heartbeat(s, sid, c, lab.clock).0, [])
    case MarkDisconnected(sid, at) => (Scripts.MarkDisconnected(s, sid, at + cfg.graceMs).0, [])
    case Reconnect(sid, c) => (Scripts.Reconnect(s, sid, c, lab.clock).0, [])
    case HealthUpdate(did, healthy) =>
      var (s', r) := Scripts.HealthUpdate(s, did, healthy, lab.clock);
      (s', if r == WentOffline then [Grounded(did)] else if r == Recovered then [BackOnline(did)] else [])
    case UpdateInputSeq(sid, n) => (Scripts.UpdateInputSeq(s, sid, n).0, [])
    case CancelRequest(rid, c, expired) =>
      var (s', ok) := Scripts.CancelRequest(s, rid, c, expired);
      (s', if ok then [Withdrawn(rid)] else [])
    case RegisterDevice(did, online) => (Scripts.RegisterDevice(s, did, online, lab.clock), [Registered(did, online)])
    case UnregisterDevice(did) => (Scripts.UnregisterDevice(s, did), [Unregistered(did)])
    case SetAvailability(did, available) => (Scripts.SetDeviceAvailability(s, did, available), [])
    case ForgetSession(sid) => (s.(sessions := s.sessions - {sid}), [])
    case ForgetEntry(rid) => (s.(entries := s.entries - {rid}), [])
  }

  ghost function Do(cfg: Config, lab: Lab, cmd: Cmd): Lab
    requires Allowed(lab, cmd)
  {
    var (s', events) := Effect(cfg, lab, cmd);
    Lab(s',
        if cmd.Tick? then lab.clock + cmd.ms else lab.clock,
        lab.log + events,
        if cmd.Allocate? then lab.sids + {cmd.sid} else lab.sids,
        if cmd.JoinQueue? then lab.rids + {cmd.rid} else lab.rids)
  }

  function Start(clock: int): Lab {
    Lab(EMPTY, clock, [], {}, {})
  }

  /** `cmds` takes the lab from `a` to `b`. */
  ghost predicate Runs(cfg: Config, a: Lab, cmds: seq<Cmd>, b: Lab)
    decreases |cmds|
  {
    if cmds == [] then a == b
    else Allowed(a, cmds[0]) && Runs(cfg, Do(cfg, a, cmds[0]), cmds[1..], b)
  }

  ghost predicate Reachable(cfg: Config, lab: Lab) {
    exists t0: int, cmds :: 0 < t0 && Runs(cfg, Start(t0), cmds, lab)
  }

  lemma {:induction false} RunsOneMore(cfg: Config, a: Lab, cmds: seq<Cmd>, b: Lab, cmd: Cmd)
    requires Runs(cfg, a, cmds, b) && Allowed(b, cmd)
    ensures Runs(cfg, a, cmds + [cmd], Do(cfg, b, cmd))
    decreases |cmds|
  {
    hide Effect;
    var all := cmds + [cmd];
    if cmds == [] {
      assert all[1..] == [];
    } else {
      RunsOneMore(cfg, Do(cfg, a, cmds[0]), cmds[1..], b, cmd);
      assert all[1..] == cmds[1..] + [cmd];
    }
  }

  lemma ReachableStart(cfg: Config, t0: int)
    requires 0 < t0
    ensures Reachable(cfg, Start(t0))
  {
    assert Runs(cfg, Start(t0), [], Start(t0));
  }

  lemma ReachableStep(cfg: Config, lab: Lab, cmd: Cmd)
    requires Reachable(cfg, lab) && Allowed(lab, cmd)
    ensures Reachable(cfg, Do(cfg, lab, cmd))
  {
    hide Effect;
    var t0: int, cmds :| 0 < t0 && Runs(cfg, Start(t0), cmds, lab);
    RunsOneMore(cfg, Start(t0), cmds, lab, cmd);
  }
}
