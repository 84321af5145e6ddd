/** What one command can do to one device, one session, one queue entry and one fence counter. */
module Transitions {
  import opened Domain
  import opened Scripts
  import opened Lab
  import opened Ownership

  // ---------------- devices ----------------

  predicate Concerns(e: Event, d: DeviceId) {
    match e
    case Granted(_, did, _, _) => did == d
    case Cleaned(_, did) => did == d
    case CleanupFailed(_, did, _) => did == d
    case Grounded(did) => did == d
    case BackOnline(did) => did == d
    case Registered(did, _) => did == d
    case Unregistered(did) => did == d
    case _ => false
  }

  /** A device record after a command that logged `e` about it. */
  predicate Marked(cfg: Config, pre: Option<Device>, post: Option<Device>, e: Event) {
    match e
    case Granted(sid, _, fence, _) =>
      pre.Some? && pre.value.state == Available && pre.value.currentSessionId.None?
      && post == Some(pre.value.(state := DeviceState.Reserved, currentSessionId := Some(sid),
        leaseFence := Some(fence)))
    case Cleaned(sid, _) =>
      pre.Some? && pre.value.state == Cleaning && pre.value.currentSessionId == Some(sid)
      && post.Some? && post.value.state == Available && post.value.currentSessionId.None?
        && post.value.failureCount == 0
    case CleanupFailed(sid, _, grounded) =>
      pre.Some? && pre.value.state == Cleaning && pre.value.currentSessionId == Some(sid)
      && post.Some? && post.value.failureCount == pre.value.failureCount + 1
      && (grounded <==> post.value.failureCount >= cfg.maxFailures)
      && (if grounded then post.value.state == Offline && post.value.currentSessionId.None?
          else post.value == pre.value.(failureCount := post.value.failureCount))
    case Grounded(_) =>
      pre.Some? && pre.value.state == Available && pre.value.currentSessionId.None?
      && post.Some? && post.value == pre.value.(state := Offline, lastHealthAt := post.value.lastHealthAt)
    case BackOnline(_) =>
      pre.Some? && pre.value.state == Offline && pre.value.currentSessionId.None?
      && post.Some? && post.value.state == Available && post.value.currentSessionId.None?
        && post.value.failureCount == 0
    case Registered(_, online) =>
      pre.None? && post.Some? && post.value.state == (if online then Available else Offline)
      && post.value.currentSessionId.None? && post.value.failureCount == 0
    case Unregistered(_) =>
      (pre.Some? ==> pre.value.currentSessionId.None?) && post.None?
    case _ => false
  }

  /** A device record after a command that logged nothing about it: the binding stays as it is. */
  predicate Unmarked(pre: Option<Device>, post: Option<Device>) {
    match (pre, post)
    case (None, None) => true
    case (Some(a), Some(b)) =>
      a.currentSessionId == b.currentSessionId && a.leaseFence == b.leaseFence && a.failureCount == b.failureCount
      && (a.state == b.state
          || (a.state == DeviceState.Reserved && b.state == InUse)
          || ((a.state == DeviceState.Reserved || a.state == InUse) && b.state == Cleaning))
    case _ => false
  }

  predicate DeviceMove(cfg: Config, pre: Option<Device>, post: Option<Device>, events: seq<Event>, d: DeviceId) {
    |events| <= 1
    && if |events| == 1 && Concerns(events[0], d) then Marked(cfg, pre, post, events[0]) else Unmarked(pre, post)
  }

  ghost predicate DeviceStep(cfg: Config, lab: Lab, cmd: Cmd, d: DeviceId)
    requires Allowed(lab, cmd)
  {
    var (s', events) := Effect(cfg, lab, cmd);
    DeviceMove(cfg, Lookup(lab.store.devices, d), Lookup(s'.devices, d), events, d)
  }

  lemma AllocateDeviceStep(cfg: Config, lab: Lab, popped: Option<DeviceId>, sid: SessionId, h: TokenHash, d: DeviceId)
    requires Sound(lab) && Allowed(lab, Allocate(popped, sid, h))
    ensures DeviceStep(cfg, lab, Allocate(popped, sid, h), d)
  {
    var s := lab.store;
    if popped.Some? && popped.value in s.devices { assert DeviceOk(s.sessions, s.devices, s.fences, popped.value); }
  }

  lemma SessionDeviceStep(cfg: Config, lab: Lab, cmd: Cmd, sid: SessionId, d: DeviceId)
    requires Sound(lab) && Allowed(lab, cmd)
    requires (cmd.Claim? || cmd.BeginTermination?) && cmd.sid == sid
    ensures DeviceStep(cfg, lab, cmd, d)
  {
    var s := lab.store;
    if d in s.devices { assert DeviceOk(s.sessions, s.devices, s.fences, d); }
    if sid in s.sessions { assert SessionOk(s.sessions, s.devices, s.fences, s.listed, sid); }
  }

  lemma CleanupDeviceStep(cfg: Config, lab: Lab, sid: SessionId, did: DeviceId, ok: bool, d: DeviceId)
    requires Sound(lab) && Allowed(lab, FinishCleanup(sid, did, ok))
    ensures DeviceStep(cfg, lab, FinishCleanup(sid, did, ok), d)
  {
    var s := lab.store;
    if did in s.devices { assert DeviceOk(s.sessions, s.devices, s.fences, did); }
  }

  lemma HealthDeviceStep(cfg: Config, lab: Lab, did: DeviceId, healthy: bool, d: DeviceId)
    requires Sound(lab)
    ensures DeviceStep(cfg, lab, HealthUpdate(did, healthy), d)
  {
    var s := lab.store;
    if did in s.devices { assert DeviceOk(s.sessions, s.devices, s.fences, did); }
  }

  lemma RegistryDeviceStep(cfg: Config, lab: Lab, cmd: Cmd, d: DeviceId)
    requires Allowed(lab, cmd)
    requires cmd.RegisterDevice? || cmd.UnregisterDevice?
    ensures DeviceStep(cfg, lab, cmd, d)
  {
  }

  predicate TouchesDevices(cmd: Cmd) {
    cmd.Allocate? || cmd.Claim? || cmd.BeginTermination? || cmd.FinishCleanup? || cmd.HealthUpdate?
    || cmd.RegisterDevice? || cmd.UnregisterDevice?
  }

  lemma OthersLeaveDevices(cfg: Config, lab: Lab, cmd: Cmd)
    requires Allowed(lab, cmd) && !TouchesDevices(cmd)
    ensures var (s', events) := Effect(cfg, lab, cmd);
      s'.devices == lab.store.devices && s'.deviceIds == lab.store.deviceIds
      && |events| <= 1 && (|events| == 1 ==> events[0].Withdrawn? || events[0].Enqueued?)
  {
    match cmd
    case JoinQueue(_, _, _) =>
    case Heartbeat(_, _) =>
    case MarkDisconnected(_, _) =>
    case Reconnect(_, _) =>
    case UpdateInputSeq(_, _) =>
    case CancelRequest(_, _, _) =>
    case _ =>
  }

  lemma DeviceMoves(cfg: Config, lab: Lab, cmd: Cmd, d: DeviceId)
    requires Sound(lab) && Allowed(lab, cmd)
    ensures DeviceStep(cfg, lab, cmd, d)
  {
    hide Effect, StoreOk, IdsOk;
    match cmd
    case Allocate(popped, sid, h) => AllocateDeviceStep(cfg, lab, popped, sid, h, d);
    case Claim(sid, _, _) => SessionDeviceStep(cfg, lab, cmd, sid, d);
    case BeginTermination(sid, _, _, _) => SessionDeviceStep(cfg, lab, cmd, sid, d);
    case FinishCleanup(sid, did, ok) => CleanupDeviceStep(cfg, lab, sid, did, ok, d);
    case HealthUpdate(did, healthy) => HealthDeviceStep(cfg, lab, did, healthy, d);
    case RegisterDevice(_, _) => RegistryDeviceStep(cfg, lab, cmd, d);
    case UnregisterDevice(_) => RegistryDeviceStep(cfg, lab, cmd, d);
    case _ => OthersLeaveDevices(cfg, lab, cmd);
  }

  /** Which command logs which event. */
  predicate KindOf(cmd: Cmd, e: Event) {
    match e
    case Granted(sid, _, _, _) => cmd.Allocate? && cmd.sid == sid
    case Terminated(sid, reason) => cmd.BeginTermination? && cmd.sid == sid && cmd.reason == reason
    case Cleaned(sid, did) => cmd.FinishCleanup? && cmd.sid == sid && cmd.did == did
    case CleanupFailed(sid, did, _) => cmd.FinishCleanup? && cmd.sid == sid && cmd.did == did
    case Grounded(did) => cmd.HealthUpdate? && cmd.did == did
    case BackOnline(did) => cmd.HealthUpdate? && cmd.did == did
    case Registered(did, _) => cmd.RegisterDevice? && cmd.did == did
    case Unregistered(did) => cmd.UnregisterDevice? && cmd.did == did
    case Enqueued(rid) => cmd.JoinQueue? && cmd.rid == rid
    case Withdrawn(rid) => cmd.CancelRequest? && cmd.rid == rid
  }

  lemma EventKinds(cfg: Config, lab: Lab, cmd: Cmd)
    requires Allowed(lab, cmd)
    ensures var events := Effect(cfg, lab, cmd).1; |events| <= 1 && (|events| == 1 ==> KindOf(cmd, events[0]))
  {
    hide Scripts.JoinQueue, Scripts.Allocate, Scripts.BeginTermination, Scripts.FinishCleanup, Scripts.HealthUpdate,
         Scripts.CancelRequest, Scripts.Claim, Scripts.Reconnect, Scripts.Heartbeat, Scripts.MarkDisconnected,
         Scripts.UpdateInputSeq;
  }

  // ---------------- sessions ----------------

  /** What never changes in a session record while it exists. */
  predicate SameSession(a: Session, b: Session) {
    a.id == b.id && a.clientId == b.clientId && a.deviceId == b.deviceId && a.leaseFence == b.leaseFence
    && a.createdAt == b.createdAt
  }

  /** The states a session can pass to in one command. */
  predicate Follows(a: SessionState, b: SessionState) {
    a == b
    || (a == SessionState.Reserved && (b == Active || b == Ending || b == Expired))
    || (a == Active && (b == Disconnected || b == Ending || b == Expired))
    || (a == Disconnected && (b == Active || b == Ending || b == Expired))
    || ((a == Ending || a == Expired) && b == Ended)
  }

  predicate SessionMove(pre: Option<Session>, post: Option<Session>, events: seq<Event>, sid: SessionId) {
    match (pre, post)
    case (None, None) => |events| == 1 && (events[0].Granted? || events[0].Terminated?) ==> events[0].sid != sid
    case (None, Some(b)) =>
      b.state == SessionState.Reserved && b.endReason.None? && |events| == 1 && events[0].Granted?
        && events[0].sid == sid
      && events[0].did == b.deviceId && events[0].fence == b.leaseFence
    case (Some(a), None) => a.state == Ended && events == []
    case (Some(a), Some(b)) =>
      SameSession(a, b) && Follows(a.state, b.state)
      && (if Live(a.state) && !Live(b.state)
          then b.endReason.Some? && events == [Terminated(sid, b.endReason.value)]
          else a.endReason == b.endReason && NotTerminated(events, sid))
  }

  /** No termination of `sid` is logged. */
  predicate NotTerminated(events: seq<Event>, sid: SessionId) {
    |events| == 1 && events[0].Terminated? ==> events[0].sid != sid
  }

  ghost predicate SessionStep(cfg: Config, lab: Lab, cmd: Cmd, sid: SessionId)
    requires Allowed(lab, cmd)
  {
    var (s', events) := Effect(cfg, lab, cmd);
    SessionMove(Lookup(lab.store.sessions, sid), Lookup(s'.sessions, sid), events, sid)
  }

  lemma AllocateSessionStep(cfg: Config, lab: Lab, popped: Option<DeviceId>, x: SessionId, h: TokenHash, sid: SessionId)
    requires Sound(lab) && Allowed(lab, Allocate(popped, x, h))
    ensures SessionStep(cfg, lab, Allocate(popped, x, h), sid)
  {
    AllocatedSessions(lab.store, popped, x, h, lab.clock, cfg);
    hide Scripts.Allocate;
  }

  /** Allocation touches no session record but the new one. */
  lemma AllocatedSessions(s: Store, popped: Option<DeviceId>, x: SessionId, h: TokenHash, now: int, cfg: Config)
    requires PopOf(s.avail, popped)
    ensures var (s', r) := Scripts.Allocate(s, popped, x, h, now, cfg);
      match r
      case Nothing => s'.sessions == s.sessions
      case Allocated(session, _, _, _) =>
        s'.sessions == s.sessions[x := session]
        && session == NewSession(x, session.clientId, session.deviceId, session.leaseFence, h, now, cfg)
  {
  }

  /** Cleanup touches no session record but the one it was called for. */
  lemma FinishedSessions(s: Store, x: SessionId, did: DeviceId, ok: bool, now: int, cfg: Config)
    ensures Scripts.FinishCleanup(s, x, did, ok, now, cfg).0.sessions ==
      if x in s.sessions then s.sessions[x := s.sessions[x].(state := Ended)] else s.sessions
  {
  }

  lemma CleanupSessionStep(cfg: Config, lab: Lab, x: SessionId, did: DeviceId, ok: bool, sid: SessionId)
    requires Sound(lab) && Allowed(lab, FinishCleanup(x, did, ok))
    ensures SessionStep(cfg, lab, FinishCleanup(x, did, ok), sid)
  {
    var s := lab.store;
    FinishedSessions(s, x, did, ok, lab.clock, cfg);
    hide Scripts.FinishCleanup;
    if sid in s.sessions { assert SessionOk(s.sessions, s.devices, s.fences, s.listed, sid); }
  }

  lemma ClaimSessionStep(cfg: Config, lab: Lab, x: SessionId, c: ClientId, h: Option<TokenHash>, sid: SessionId)
    ensures SessionStep(cfg, lab, Claim(x, c, h), sid)
  {
  }

  /** Termination touches no session record but the one it ends. */
  lemma TerminatedSessions(s: Store, x: SessionId, reason: EndReason, expired: bool, fence: Option<nat>)
    ensures var (s', r) := Scripts.BeginTermination(s, x, reason, expired, fence);
      match r
      case TerminationErr(_) => s'.sessions == s.sessions
      case TerminationOk(session) =>
        x in s.sessions && Live(s.sessions[x].state) && s'.sessions == s.sessions[x := session]
        && session == s.sessions[x].(state := if expired then Expired else Ending, endReason := Some(reason))
  {
  }

  lemma EndSessionStep(cfg: Config, lab: Lab, x: SessionId, reason: EndReason, expired: bool, fence: Option<nat>,
      sid: SessionId)
    ensures SessionStep(cfg, lab, BeginTermination(x, reason, expired, fence), sid)
  {
    TerminatedSessions(lab.store, x, reason, expired, fence);
    hide Scripts.BeginTermination;
  }

  lemma ReconnectSessionStep(cfg: Config, lab: Lab, x: SessionId, c: ClientId, sid: SessionId)
    ensures SessionStep(cfg, lab, Reconnect(x, c), sid)
  {
  }

  lemma TouchSessionStep(cfg: Config, lab: Lab, cmd: Cmd, sid: SessionId)
    requires Allowed(lab, cmd)
    requires cmd.Heartbeat? || cmd.MarkDisconnected? || cmd.UpdateInputSeq? || cmd.ForgetSession?
    ensures SessionStep(cfg, lab, cmd, sid)
  {
  }

  predicate TouchesSessions(cmd: Cmd) {
    cmd.Allocate? || cmd.Claim? || cmd.BeginTermination? || cmd.FinishCleanup? || cmd.Heartbeat?
    || cmd.MarkDisconnected? || cmd.Reconnect? || cmd.UpdateInputSeq? || cmd.ForgetSession?
  }

  lemma OthersLeaveSessions(cfg: Config, lab: Lab, cmd: Cmd)
    requires Allowed(lab, cmd) && !TouchesSessions(cmd)
    ensures var (s', events) := Effect(cfg, lab, cmd);
      s'.sessions == lab.store.sessions && |events| <= 1
      && (|events| == 1 ==> !events[0].Granted? && !events[0].Terminated?)
  {
    match cmd
    case JoinQueue(_, _, _) =>
    case HealthUpdate(_, _) =>
    case CancelRequest(_, _, _) =>
    case _ =>
  }

  lemma SessionMoves(cfg: Config, lab: Lab, cmd: Cmd, sid: SessionId)
    requires Sound(lab) && Allowed(lab, cmd)
    ensures SessionStep(cfg, lab, cmd, sid)
  {
    hide Effect, StoreOk, IdsOk;
    match cmd
    case Allocate(popped, x, h) => AllocateSessionStep(cfg, lab, popped, x, h, sid);
    case FinishCleanup(x, did, ok) => CleanupSessionStep(cfg, lab, x, did, ok, sid);
    case Claim(x, c, h) => ClaimSessionStep(cfg, lab, x, c, h, sid);
    case BeginTermination(x, reason, expired, fence) => EndSessionStep(cfg, lab, x, reason, expired, fence, sid);
    case Reconnect(x, c) => ReconnectSessionStep(cfg, lab, x, c, sid);
    case Heartbeat(_, _) => TouchSessionStep(cfg, lab, cmd, sid);
    case MarkDisconnected(_, _) => TouchSessionStep(cfg, lab, cmd, sid);
    case UpdateInputSeq(_, _) => TouchSessionStep(cfg, lab, cmd, sid);
    case ForgetSession(_) => TouchSessionStep(cfg, lab, cmd, sid);
    case _ => OthersLeaveSessions(cfg, lab, cmd);
  }

  // ---------------- queue entries and fences ----------------

  predicate EntryMove(lab: Lab, cmd: Cmd, pre: Option<QueueEntry>, post: Option<QueueEntry>, events: seq<Event>,
      rid: RequestId) {
    match (pre, post)
    case (None, None) => true
    case (None, Some(b)) =>
      cmd.JoinQueue? && cmd.rid == rid && b.state == Waiting && b.enqueuedAt == lab.clock && events == [Enqueued(rid)]
    case (Some(a), None) => a.state != Waiting && events == []
    case (Some(a), Some(b)) =>
      b == a.(state := b.state)
      && (a.state != b.state ==>
            a.state == Waiting && |events| == 1
            && if b.state == Claimed then events[0].Granted? && events[0].rid == rid else events == [Withdrawn(rid)])
  }

  ghost predicate EntryStep(cfg: Config, lab: Lab, cmd: Cmd, rid: RequestId)
    requires Allowed(lab, cmd)
  {
    var (s', events) := Effect(cfg, lab, cmd);
    EntryMove(lab, cmd, Lookup(lab.store.entries, rid), Lookup(s'.entries, rid), events, rid)
  }

  lemma AllocateEntryStep(cfg: Config, lab: Lab, popped: Option<DeviceId>, sid: SessionId, h: TokenHash, rid: RequestId)
    requires Allowed(lab, Allocate(popped, sid, h))
    ensures EntryStep(cfg, lab, Allocate(popped, sid, h), rid)
  {
    var head := Head(lab.store.queue, lab.store.entries);
    if head.Some? { assert head.value in WaitingIn(lab.store.queue, lab.store.entries); }
  }

  lemma JoinEntryStep(cfg: Config, lab: Lab, c: ClientId, h: TokenHash, r: RequestId, rid: RequestId)
    requires Sound(lab) && Allowed(lab, JoinQueue(c, h, r))
    ensures EntryStep(cfg, lab, JoinQueue(c, h, r), rid)
  {
  }

  lemma CancelEntryStep(cfg: Config, lab: Lab, r: RequestId, c: Option<ClientId>, expired: bool, rid: RequestId)
    ensures EntryStep(cfg, lab, CancelRequest(r, c, expired), rid)
  {
  }

  lemma EntryMoves(cfg: Config, lab: Lab, cmd: Cmd, rid: RequestId)
    requires Sound(lab) && Allowed(lab, cmd)
    ensures EntryStep(cfg, lab, cmd, rid)
  {
    match cmd
    case JoinQueue(c, h, r) => JoinEntryStep(cfg, lab, c, h, r, rid);
    case Allocate(popped, sid, h) => AllocateEntryStep(cfg, lab, popped, sid, h, rid);
    case CancelRequest(r, c, expired) => CancelEntryStep(cfg, lab, r, c, expired, rid);
    case ForgetEntry(r) =>
    case _ => OthersLeaveQueue(cfg, lab, cmd);
  }

  ghost predicate LeavesQueue(cfg: Config, lab: Lab, cmd: Cmd)
    requires Allowed(lab, cmd)
  {
    var (s', events) := Effect(cfg, lab, cmd);
    s'.entries == lab.store.entries && s'.queue == lab.store.queue && s'.fences == lab.store.fences
    && |events| <= 1 && (|events| == 1 ==> !events[0].Granted?)
  }

  lemma SessionsLeaveQueue(cfg: Config, lab: Lab, cmd: Cmd)
    requires Allowed(lab, cmd)
    requires cmd.Claim? || cmd.BeginTermination? || cmd.Reconnect?
             || cmd.Heartbeat? || cmd.MarkDisconnected? || cmd.UpdateInputSeq?
    ensures LeavesQueue(cfg, lab, cmd)
  {
  }

  lemma CleanupLeavesQueue(cfg: Config, lab: Lab, sid: SessionId, did: DeviceId, ok: bool)
    requires Allowed(lab, FinishCleanup(sid, did, ok))
    ensures LeavesQueue(cfg, lab, FinishCleanup(sid, did, ok))
  {
    FinishedQueue(lab.store, sid, did, ok, lab.clock, cfg);
    hide Scripts.FinishCleanup;
  }

  lemma FinishedQueue(s: Store, sid: SessionId, did: DeviceId, ok: bool, now: int, cfg: Config)
    ensures var s' := Scripts.FinishCleanup(s, sid, did, ok, now, cfg).0;
      s'.entries == s.entries && s'.queue == s.queue && s'.fences == s.fences
  {
  }

  lemma HealthLeavesQueue(cfg: Config, lab: Lab, did: DeviceId, healthy: bool)
    ensures LeavesQueue(cfg, lab, HealthUpdate(did, healthy))
  {
    HealthQueue(lab.store, did, healthy, lab.clock);
    hide Scripts.HealthUpdate;
  }

  lemma HealthQueue(s: Store, did: DeviceId, healthy: bool, now: int)
    ensures var s' := Scripts.HealthUpdate(s, did, healthy, now).0;
      s'.entries == s.entries && s'.queue == s.queue && s'.fences == s.fences
  {
  }

  /** Only joining, allocating, cancelling and expiry touch the queue; only allocating touches a fence. */
  lemma OthersLeaveQueue(cfg: Config, lab: Lab, cmd: Cmd)
    requires Allowed(lab, cmd)
    requires !cmd.JoinQueue? && !cmd.Allocate? && !cmd.CancelRequest? && !cmd.ForgetEntry?
    ensures LeavesQueue(cfg, lab, cmd)
  {
    match cmd
    case FinishCleanup(sid, did, ok) => CleanupLeavesQueue(cfg, lab, sid, did, ok);
    case HealthUpdate(did, healthy) => HealthLeavesQueue(cfg, lab, did, healthy);
    case RegisterDevice(_, _) =>
    case UnregisterDevice(_) =>
    case SetAvailability(_, _) =>
    case ForgetSession(_) =>
    case Tick(_) =>
    case _ => SessionsLeaveQueue(cfg, lab, cmd);
  }

  ghost predicate FenceStep(cfg: Config, lab: Lab, cmd: Cmd)
    requires Allowed(lab, cmd)
  {
    var (s', events) := Effect(cfg, lab, cmd);
    if |events| == 1 && events[0].Granted?
    then s'.fences == lab.store.fences[events[0].did := events[0].fence]
         && cmd.Allocate? && events[0].sid == cmd.sid
         && events[0].fence == (if events[0].did in lab.store.fences then lab.store.fences[events[0].did] else 0) + 1
    else s'.fences == lab.store.fences
  }

  lemma AllocateFenceStep(cfg: Config, lab: Lab, popped: Option<DeviceId>, sid: SessionId, h: TokenHash)
    requires Allowed(lab, Allocate(popped, sid, h))
    ensures FenceStep(cfg, lab, Allocate(popped, sid, h))
  {
  }

  /** A fence counter moves only when its device is granted, and then to the next number. */
  lemma FenceMoves(cfg: Config, lab: Lab, cmd: Cmd)
    requires Allowed(lab, cmd)
    ensures FenceStep(cfg, lab, cmd)
  {
    match cmd
    case JoinQueue(_, _, _) =>
    case Allocate(popped, sid, h) => AllocateFenceStep(cfg, lab, popped, sid, h);
    case CancelRequest(_, _, _) =>
    case ForgetEntry(_) =>
    case _ => OthersLeaveQueue(cfg, lab, cmd);
  }

  lemma IdsStep(cfg: Config, lab: Lab, cmd: Cmd)
    requires Sound(lab) && Allowed(lab, cmd)
    ensures IdsOk(Do(cfg, lab, cmd))
  {
    hide Effect, StoreOk;
    var lab' := Do(cfg, lab, cmd);
    FenceMoves(cfg, lab, cmd);
    forall sid | sid in lab'.store.sessions ensures sid in lab'.sids {
      SessionMoves(cfg, lab, cmd, sid);
    }
    forall d | d in lab'.store.devices && lab'.store.devices[d].currentSessionId.Some?
      ensures lab'.store.devices[d].currentSessionId.value in lab'.sids
    {
      DeviceMoves(cfg, lab, cmd, d);
    }
    forall r | r in lab'.store.entries ensures r in lab'.rids {
      EntryMoves(cfg, lab, cmd, r);
    }
  }

  /** Every script, called as the server calls it, keeps the lab sound. */
  lemma SoundStep(cfg: Config, lab: Lab, cmd: Cmd)
    requires Sound(lab) && Allowed(lab, cmd)
    ensures Sound(Do(cfg, lab, cmd))
  {
    StoreStep(cfg, lab, cmd);
    IdsStep(cfg, lab, cmd);
  }

  lemma {:induction false} SoundRun(cfg: Config, a: Lab, cmds: seq<Cmd>, b: Lab)
    requires Sound(a) && Runs(cfg, a, cmds, b)
    ensures Sound(b)
    decreases |cmds|
  {
    if cmds != [] {
      SoundStep(cfg, a, cmds[0]);
      SoundRun(cfg, Do(cfg, a, cmds[0]), cmds[1..], b);
    }
  }

  /**
   * Exclusive ownership, after any run: live sessions and devices in use are in one-to-one
   * correspondence, with matching states and fences, and no client has two claims.
   */
  lemma ExclusiveOwnership(cfg: Config, lab: Lab)
    requires Reachable(cfg, lab)
    ensures var s := lab.store;
      && (forall sid | sid in s.sessions && Live(s.sessions[sid].state) ::
            var d := s.sessions[sid].deviceId;
            d in s.devices && s.devices[d].currentSessionId == Some(sid)
            && s.devices[d].state == DeviceStateFor(s.sessions[sid].state)
            && s.devices[d].leaseFence == Some(s.sessions[sid].leaseFence) == Lookup(s.fences, d))
      && (forall d | d in s.devices && (s.devices[d].state == DeviceState.Reserved || s.devices[d].state == InUse) ::
            s.devices[d].currentSessionId.Some?
            && var sid := s.devices[d].currentSessionId.value;
               sid in s.sessions && s.sessions[sid].deviceId == d && Live(s.sessions[sid].state))
      && (forall x, y | x in s.sessions && y in s.sessions && x != y && Live(s.sessions[x].state)
        && Live(s.sessions[y].state) ::
            s.sessions[x].deviceId != s.sessions[y].deviceId && s.sessions[x].clientId != s.sessions[y].clientId)
  {
    var t0, cmds :| Runs(cfg, Start(t0), cmds, lab);
    SoundRun(cfg, Start(t0), cmds, lab);
    var s := lab.store;
    forall sid | sid in s.sessions ensures SessionOk(s.sessions, s.devices, s.fences, s.listed, sid) {}
    forall d | d in s.devices ensures DeviceOk(s.sessions, s.devices, s.fences, d) {}
  }
}
