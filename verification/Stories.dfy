/**
 * The event log as two small automata: the life of a device and the life of a session.
 *
 * Whatever the store went through, what the log says about one device or one session is a word that
 * its automaton accepts, and the store's record of that device or session is the automaton's state.
 */
module Stories {
  import opened Domain
  import opened Lab
  import opened Ownership
  import opened Transitions

  datatype Status = Unknown | Pooled | Held(sid: SessionId) | Out
  datatype DeviceStory = DeviceStory(status: Status, fence: nat)

  datatype SessionStory =
    | Unborn
    | Open(did: DeviceId, fence: nat)
    | Closed(did: DeviceId, fence: nat, reason: EndReason, failures: nat, settled: bool)

  function NextDevice(t: DeviceStory, e: Event, d: DeviceId): DeviceStory {
    if !Concerns(e, d) then t else
    match e
    case Granted(sid, _, fence, _) => DeviceStory(Held(sid), fence)
    case Cleaned(_, _) => t.(status := Pooled)
    case CleanupFailed(_, _, grounded) => if grounded then t.(status := Out) else t
    case Grounded(_) => t.(status := Out)
    case BackOnline(_) => t.(status := Pooled)
    case Registered(_, online) => t.(status := if online then Pooled else Out)
    case Unregistered(_) => t.(status := Out)
    case _ => t
  }

  function DeviceAfter(log: seq<Event>, d: DeviceId): DeviceStory {
    if log == [] then DeviceStory(Unknown, 0)
    else NextDevice(DeviceAfter(log[..|log| - 1], d), log[|log| - 1], d)
  }

  function NextSession(t: SessionStory, e: Event, sid: SessionId): SessionStory {
    match e
    case Granted(x, did, fence, _) => if x == sid then Open(did, fence) else t
    case Terminated(x, reason) => if x == sid && t.Open? then Closed(t.did, t.fence, reason, 0, false) else t
    case Cleaned(x, _) => if x == sid && t.Closed? then t.(settled := true) else t
    case CleanupFailed(x, _, grounded) =>
      if x == sid && t.Closed? then t.(failures := t.failures + 1, settled := grounded) else t
    case _ => t
  }

  function SessionAfter(log: seq<Event>, sid: SessionId): SessionStory {
    if log == [] then Unborn
    else NextSession(SessionAfter(log[..|log| - 1], sid), log[|log| - 1], sid)
  }

  /** `sid` has been terminated, and its device waits for the cleanup that follows. */
  predicate InCleanup(log: seq<Event>, sid: SessionId, did: DeviceId) {
    var t := SessionAfter(log, sid);
    t.Closed? && t.did == did && !t.settled && DeviceAfter(log, did).status == Held(sid)
  }

  /** The events that may come next after `log`. */
  predicate LegalEvent(cfg: Config, log: seq<Event>, e: Event) {
    match e
    case Granted(sid, did, fence, _) =>
      DeviceAfter(log, did).status == Pooled && fence == DeviceAfter(log, did).fence + 1
        && SessionAfter(log, sid).Unborn?
    case Terminated(sid, _) => SessionAfter(log, sid).Open?
    case Cleaned(sid, did) => InCleanup(log, sid, did)
    case CleanupFailed(sid, did, grounded) =>
      InCleanup(log, sid, did) && (grounded <==> SessionAfter(log, sid).failures + 1 >= cfg.maxFailures)
    case Grounded(did) => DeviceAfter(log, did).status == Pooled
    case BackOnline(did) => DeviceAfter(log, did).status == Out
    case Registered(did, _) => DeviceAfter(log, did).status.Unknown? || DeviceAfter(log, did).status.Out?
    case Unregistered(did) => !DeviceAfter(log, did).status.Held?
    case Enqueued(_) => true
    case Withdrawn(_) => true
  }

  ghost predicate LegalLog(cfg: Config, log: seq<Event>) {
    forall j {:trigger log[j]} | 0 <= j < |log| :: LegalEvent(cfg, log[..j], log[j])
  }

  // ---------------- the store is the automata's state ----------------

  function StatusOf(dev: Device): Status {
    match dev.currentSessionId
    case Some(sid) => Held(sid)
    case None => if dev.state == Available then Pooled else Out
  }

  function FenceOf(fences: map<DeviceId, nat>, d: DeviceId): nat {
    if d in fences then fences[d] else 0
  }

  predicate SessionTold(cfg: Config, lab: Lab, sid: SessionId) {
    var t := SessionAfter(lab.log, sid);
    (sid !in lab.sids ==> t.Unborn?)
    && (t.Open? ==> sid in lab.store.sessions)
    && (t.Closed? && !t.settled ==> t.failures == 0 || t.failures < cfg.maxFailures)
    && (sid in lab.store.sessions ==>
          var x := lab.store.sessions[sid];
          if Live(x.state) then t == Open(x.deviceId, x.leaseFence) && x.endReason.None?
          else t.Closed? && t.did == x.deviceId && t.fence == x.leaseFence && x.endReason == Some(t.reason))
  }

  predicate DeviceTold(lab: Lab, d: DeviceId) {
    var t := DeviceAfter(lab.log, d);
    t.fence == FenceOf(lab.store.fences, d)
    && if d !in lab.store.devices then t.status == Unknown || t.status == Out else
       var dev := lab.store.devices[d];
       t.status == StatusOf(dev)
       && (dev.state == Available ==> dev.failureCount == 0)
       && (t.status.Held? ==>
             var st := SessionAfter(lab.log, t.status.sid);
             if dev.state == Cleaning then st.Closed? && st.did == d && !st.settled && st.failures == dev.failureCount
             else st.Open? && st.did == d && dev.failureCount == 0)
  }

  ghost predicate Told(cfg: Config, lab: Lab) {
    && (forall sid {:trigger SessionTold(cfg, lab, sid)} :: SessionTold(cfg, lab, sid))
    && (forall d {:trigger DeviceTold(lab, d)} :: DeviceTold(lab, d))
    && LegalLog(cfg, lab.log)
  }

  lemma AfterOne(log: seq<Event>, events: seq<Event>, d: DeviceId, sid: SessionId)
    requires |events| <= 1
    ensures DeviceAfter(log + events, d) ==
      if events == [] then DeviceAfter(log, d) else NextDevice(DeviceAfter(log, d), events[0], d)
    ensures SessionAfter(log + events, sid) ==
      if events == [] then SessionAfter(log, sid) else NextSession(SessionAfter(log, sid), events[0], sid)
  {
    if events == [] {
      assert log + events == log;
    } else {
      assert (log + events)[..|log + events| - 1] == log;
    }
  }

  /** The lab before and after a command, as far as one session is concerned. */
  lemma SessionToldStep(cfg: Config, lab: Lab, cmd: Cmd, sid: SessionId)
    requires Sound(lab) && Told(cfg, lab) && Allowed(lab, cmd)
    ensures SessionTold(cfg, Do(cfg, lab, cmd), sid)
  {
    hide Effect, Sound, Told, Marked, DeviceTold, SessionAfter, DeviceAfter;
    var (s', events) := Effect(cfg, lab, cmd);
    DeviceMoves(cfg, lab, cmd, 0);
    if |events| == 1 && (events[0].Cleaned? || events[0].CleanupFailed?) && events[0].sid == sid {
      SessionToldCleanup(cfg, lab, cmd, sid);
    } else {
      Tells(cfg, lab, 0, sid);
      IssuedSession(lab, sid);
      SessionMoves(cfg, lab, cmd, sid);
      FenceMoves(cfg, lab, cmd);
      AfterOne(lab.log, events, 0, sid);
    }
  }

  /** The same for a command that finished a round of the session's cleanup. */
  lemma SessionToldCleanup(cfg: Config, lab: Lab, cmd: Cmd, sid: SessionId)
    requires Sound(lab) && Told(cfg, lab) && Allowed(lab, cmd)
    requires var events := Effect(cfg, lab, cmd).1;
      |events| == 1 && (events[0].Cleaned? || events[0].CleanupFailed?) && events[0].sid == sid
    ensures SessionTold(cfg, Do(cfg, lab, cmd), sid)
  {
    hide Effect, StoreOk, IdsOk, LegalLog, SessionAfter, DeviceAfter;
    var events := Effect(cfg, lab, cmd).1;
    assert SessionTold(cfg, lab, sid);
    assert DeviceTold(lab, events[0].did);
    SessionMoves(cfg, lab, cmd, sid);
    FenceMoves(cfg, lab, cmd);
    DeviceMoves(cfg, lab, cmd, events[0].did);
    AfterOne(lab.log, events, 0, sid);
  }

  /** The lab before and after a command, as far as one device is concerned. */
  lemma DeviceToldStep(cfg: Config, lab: Lab, cmd: Cmd, d: DeviceId)
    requires Sound(lab) && Told(cfg, lab) && Allowed(lab, cmd) && Sound(Do(cfg, lab, cmd))
    ensures DeviceTold(Do(cfg, lab, cmd), d)
  {
    hide Effect, Sound, Told, Do, DeviceTold;
    if IsHeld(Do(cfg, lab, cmd).store.devices, d) {
      HeldToldStep(cfg, lab, cmd, d);
    } else {
      FreeToldStep(cfg, lab, cmd, d);
    }
  }

  predicate IsHeld(devices: Devices, d: DeviceId) {
    d in devices && devices[d].currentSessionId.Some?
  }

  lemma FreeToldStep(cfg: Config, lab: Lab, cmd: Cmd, d: DeviceId)
    requires Sound(lab) && Told(cfg, lab) && Allowed(lab, cmd) && !IsHeld(Do(cfg, lab, cmd).store.devices, d)
    ensures DeviceTold(Do(cfg, lab, cmd), d)
  {
    hide Effect, StoreOk, IdsOk, LegalLog, SessionTold, SessionAfter, DeviceAfter;
    assert DeviceTold(lab, d);
    FenceMoves(cfg, lab, cmd);
    DeviceMoves(cfg, lab, cmd, d);
    AfterOne(lab.log, Effect(cfg, lab, cmd).1, d, 0);
  }

  /** A round of the session's cleanup has been finished. */
  predicate CleansUp(events: seq<Event>, sid: SessionId) {
    |events| == 1 && (events[0].Cleaned? || events[0].CleanupFailed?) && events[0].sid == sid
  }

  lemma HeldToldStep(cfg: Config, lab: Lab, cmd: Cmd, d: DeviceId)
    requires Sound(lab) && Told(cfg, lab) && Allowed(lab, cmd) && Sound(Do(cfg, lab, cmd))
    requires IsHeld(Do(cfg, lab, cmd).store.devices, d)
    ensures DeviceTold(Do(cfg, lab, cmd), d)
  {
    hide Effect, Sound, Told, DeviceTold, CleansUp;
    HeldInCleanup(cfg, lab, cmd, d);
    HeldOtherwise(cfg, lab, cmd, d);
  }

  lemma HeldInCleanup(cfg: Config, lab: Lab, cmd: Cmd, d: DeviceId)
    requires Sound(lab) && Told(cfg, lab) && Allowed(lab, cmd) && IsHeld(Do(cfg, lab, cmd).store.devices, d)
    ensures CleansUp(Effect(cfg, lab, cmd).1, Do(cfg, lab, cmd).store.devices[d].currentSessionId.value) ==>
      DeviceTold(Do(cfg, lab, cmd), d)
  {
    hide Effect, Sound, Told, SessionAfter, DeviceAfter;
    var sid := Do(cfg, lab, cmd).store.devices[d].currentSessionId.value;
    var events := Effect(cfg, lab, cmd).1;
    if CleansUp(events, sid) {
      FenceMoves(cfg, lab, cmd);
      DeviceMoves(cfg, lab, cmd, d);
      DeviceMoves(cfg, lab, cmd, events[0].did);
      Tells(cfg, lab, d, sid);
      Tells(cfg, lab, events[0].did, sid);
      AfterOne(lab.log, events, d, sid);
    }
  }

  lemma HeldOtherwise(cfg: Config, lab: Lab, cmd: Cmd, d: DeviceId)
    requires Sound(lab) && Told(cfg, lab) && Allowed(lab, cmd) && Sound(Do(cfg, lab, cmd))
    requires IsHeld(Do(cfg, lab, cmd).store.devices, d)
    ensures !CleansUp(Effect(cfg, lab, cmd).1, Do(cfg, lab, cmd).store.devices[d].currentSessionId.value) ==>
      DeviceTold(Do(cfg, lab, cmd), d)
  {
    hide Effect, Sound, Told, SessionAfter, DeviceAfter;
    var lab' := Do(cfg, lab, cmd);
    var events, sid := Effect(cfg, lab, cmd).1, lab'.store.devices[d].currentSessionId.value;
    if !CleansUp(events, sid) {
      FenceMoves(cfg, lab, cmd);
      DeviceMoves(cfg, lab, cmd, d);
      DeviceIsOk(lab', d);
      SessionMoves(cfg, lab, cmd, sid);
      SessionToldStep(cfg, lab, cmd, sid);
      Tells(cfg, lab, d, sid);
      AfterOne(lab.log, events, d, sid);
    }
  }

  lemma Tells(cfg: Config, lab: Lab, d: DeviceId, sid: SessionId)
    requires Told(cfg, lab)
    ensures DeviceTold(lab, d) && SessionTold(cfg, lab, sid)
  {
  }

  lemma IssuedSession(lab: Lab, sid: SessionId)
    requires Sound(lab)
    ensures sid in lab.store.sessions ==> sid in lab.sids
  {
  }

  lemma DeviceIsOk(lab: Lab, d: DeviceId)
    requires Sound(lab) && d in lab.store.devices
    ensures DeviceOk(lab.store.sessions, lab.store.devices, lab.store.fences, d)
  {
  }

  lemma EventLegal(cfg: Config, lab: Lab, cmd: Cmd)
    requires Sound(lab) && Told(cfg, lab) && Allowed(lab, cmd)
    ensures var events := Effect(cfg, lab, cmd).1;
      |events| <= 1 && (|events| == 1 ==> LegalEvent(cfg, lab.log, events[0]))
  {
    hide Effect, LegalLog, StoreOk, IdsOk, SessionAfter, DeviceAfter;
    var (s', events) := Effect(cfg, lab, cmd);
    DeviceMoves(cfg, lab, cmd, 0);
    FenceMoves(cfg, lab, cmd);
    if |events| == 1 {
      match events[0]
      case Granted(sid, did, _, _) =>
        DeviceMoves(cfg, lab, cmd, did);
        assert DeviceTold(lab, did) && SessionTold(cfg, lab, sid);
      case Terminated(sid, _) =>
        SessionMoves(cfg, lab, cmd, sid);
        assert SessionTold(cfg, lab, sid);
      case Cleaned(sid, did) =>
        DeviceMoves(cfg, lab, cmd, did);
        assert DeviceTold(lab, did);
      case CleanupFailed(sid, did, _) =>
        DeviceMoves(cfg, lab, cmd, did);
        assert DeviceTold(lab, did);
      case Grounded(did) =>
        DeviceMoves(cfg, lab, cmd, did);
        assert DeviceTold(lab, did);
      case BackOnline(did) =>
        DeviceMoves(cfg, lab, cmd, did);
        assert DeviceTold(lab, did);
      case Registered(did, _) =>
        DeviceMoves(cfg, lab, cmd, did);
        assert DeviceTold(lab, did);
      case Unregistered(did) =>
        DeviceMoves(cfg, lab, cmd, did);
        assert DeviceTold(lab, did);
      case Enqueued(_) =>
      case Withdrawn(_) =>
    }
  }

  lemma LegalExtends(cfg: Config, log: seq<Event>, events: seq<Event>)
    requires LegalLog(cfg, log) && |events| <= 1 && (|events| == 1 ==> LegalEvent(cfg, log, events[0]))
    ensures LegalLog(cfg, log + events)
  {
    var log' := log + events;
    forall j | 0 <= j < |log'| ensures LegalEvent(cfg, log'[..j], log'[j]) {
      if j < |log| {
        assert log'[..j] == log[..j] && log'[j] == log[j];
      } else {
        assert log'[..j] == log;
      }
    }
  }

  lemma ToldStep(cfg: Config, lab: Lab, cmd: Cmd)
    requires Sound(lab) && Told(cfg, lab) && Allowed(lab, cmd)
    ensures Told(cfg, Do(cfg, lab, cmd))
  {
    hide Effect, StoreOk, IdsOk, SessionTold, DeviceTold, LegalLog;
    var lab' := Do(cfg, lab, cmd);
    SoundStep(cfg, lab, cmd);
    EventLegal(cfg, lab, cmd);
    LegalExtends(cfg, lab.log, Effect(cfg, lab, cmd).1);
    forall sid ensures SessionTold(cfg, lab', sid) { SessionToldStep(cfg, lab, cmd, sid); }
    forall d ensures DeviceTold(lab', d) { DeviceToldStep(cfg, lab, cmd, d); }
  }

  lemma {:induction false} ToldRun(cfg: Config, a: Lab, cmds: seq<Cmd>, b: Lab)
    requires Sound(a) && Told(cfg, a) && Runs(cfg, a, cmds, b)
    ensures Sound(b) && Told(cfg, b)
    decreases |cmds|
  {
    hide Effect, StoreOk, IdsOk, Told;
    if cmds != [] {
      SoundStep(cfg, a, cmds[0]);
      ToldStep(cfg, a, cmds[0]);
      ToldRun(cfg, Do(cfg, a, cmds[0]), cmds[1..], b);
    }
  }

  /** After any run the log is legal, and the store holds the automata's states. */
  lemma EveryRunIsTold(cfg: Config, lab: Lab)
    requires Reachable(cfg, lab)
    ensures Sound(lab) && Told(cfg, lab)
  {
    var t0: int, cmds :| 0 < t0 && Runs(cfg, Start(t0), cmds, lab);
    ToldRun(cfg, Start(t0), cmds, lab);
  }
}
