/** The health loop: what a report on a device says and does, and whom a report of a sick device ends. */
module Health {
  import opened Domain
  import opened Scripts
  import opened Lab
  import opened Ownership
  import opened Transitions
  import opened Reaping

  // ---------------- one report ----------------

  /** Some session is live on the device. */
  ghost predicate Occupied(s: Store, d: DeviceId) {
    exists sid :: sid in s.sessions && Live(s.sessions[sid].state) && s.sessions[sid].deviceId == d
  }

  function Binding(s: Store, d: DeviceId): Option<SessionId> {
    if d in s.devices then s.devices[d].currentSessionId else None
  }

  /** Nothing differs but the record of `d` and its place in the pool, and `d` stays bound as it was. */
  ghost predicate OnlyDevice(a: Store, b: Store, d: DeviceId) {
    b == a.(devices := b.devices, avail := b.avail)
    && (forall x | x != d :: x in b.avail <==> x in a.avail)
    && (forall x | x != d :: Lookup(b.devices, x) == Lookup(a.devices, x))
    && (d in b.devices <==> d in a.devices) && Binding(b, d) == Binding(a, d)
  }

  /** The session that is live on a device is the one the device is bound to. */
  lemma OccupantIsBound(s: Store, d: DeviceId, sid: SessionId)
    requires StoreOk(s) && sid in s.sessions && Live(s.sessions[sid].state) && s.sessions[sid].deviceId == d
    ensures d in s.devices && s.devices[d].currentSessionId == Some(sid)
    ensures s.devices[d].state == DeviceState.Reserved || s.devices[d].state == InUse
  {
    assert SessionOk(s.sessions, s.devices, s.fences, s.listed, sid);
  }

  lemma OccupiedExactly(s: Store, d: DeviceId)
    requires StoreOk(s)
    ensures Occupied(s, d) <==>
      d in s.devices && (s.devices[d].state == DeviceState.Reserved || s.devices[d].state == InUse)
    ensures Occupied(s, d) ==>
      Binding(s, d).Some? && Binding(s, d).value in s.sessions && Live(s.sessions[Binding(s, d).value].state)
      && s.sessions[Binding(s, d).value].deviceId == d
  {
    if sid :| sid in s.sessions && Live(s.sessions[sid].state) && s.sessions[sid].deviceId == d {
      OccupantIsBound(s, d, sid);
    }
    if d in s.devices { assert DeviceOk(s.sessions, s.devices, s.fences, d); }
  }

  lemma ReportWrites(s: Store, d: DeviceId, healthy: bool, now: int)
    ensures var s' := Scripts.HealthUpdate(s, d, healthy, now).0;
      if d !in s.devices then s' == s
      else
        d in s'.devices && s' == s.(devices := s.devices[d := s'.devices[d]], avail := s'.avail)
        && s'.devices[d].currentSessionId == s.devices[d].currentSessionId
        && (s'.avail == s.avail || s'.avail == s.avail + {d} || s'.avail == s.avail - {d})
  {
    assert d in s.devices ==> s.devices[d := s.devices[d]] == s.devices;
  }

  lemma ReportTouches(s: Store, d: DeviceId, healthy: bool, now: int)
    ensures OnlyDevice(s, Scripts.HealthUpdate(s, d, healthy, now).0, d)
  {
    ReportWrites(s, d, healthy, now);
    hide Scripts.HealthUpdate;
  }

  /**
   * What a report is answered and does. A sick device with a live session on it is left to the loop, which
   * ends the session; a sick device that is free goes out of service; a healthy device that is out of
   * service comes back into the pool with its failures forgotten; else the report is only noted.
   */
  lemma ReportIsAnswered(s: Store, d: DeviceId, healthy: bool, now: int)
    requires StoreOk(s)
    ensures var (s', reply) := Scripts.HealthUpdate(s, d, healthy, now);
      OnlyDevice(s, s', d)
      && if d !in s.devices then reply == Missing && s' == s
         else if Occupied(s, d) && !healthy then reply == SessionUnhealthy && s' == s
         else if s.devices[d].state == Available && !healthy then
           reply == WentOffline && s'.devices[d] == s.devices[d].(state := Offline, lastHealthAt := now)
             && d !in s'.avail
         else if s.devices[d].state == Offline && healthy then
           reply == Recovered && d in s'.avail
           && s'.devices[d] == s.devices[d].(state := Available, failureCount := 0, lastHealthAt := now)
         else
           reply == Healthy && s'.devices[d] == s.devices[d].(lastHealthAt := now)
           && (d in s'.avail <==> d in s.avail || s.devices[d].state == Available)
  {
    OccupiedExactly(s, d);
    ReportTouches(s, d, healthy, now);
    if d in s.devices { assert DeviceOk(s.sessions, s.devices, s.fences, d); }
    hide StoreOk, Occupied, OnlyDevice, Binding;
  }

  // ---------------- whom a sick report ends ----------------

  /** The device has been granted since the log had length `n`. */
  predicate GrantedSince(log: seq<Event>, n: nat, d: DeviceId) {
    exists i :: n <= i < |log| && log[i].Granted? && log[i].did == d
  }

  /** Until it is granted anew the device is bound to `sid` or to nobody, and from then on not to `sid`. */
  predicate Followed(lab: Lab, n: nat, d: DeviceId, sid: SessionId) {
    sid in lab.sids && n <= |lab.log|
    && if GrantedSince(lab.log, n, d) then Binding(lab.store, d) != Some(sid)
       else Binding(lab.store, d).Some? ==> Binding(lab.store, d) == Some(sid)
  }

  lemma FollowedStep(cfg: Config, lab: Lab, cmd: Cmd, n: nat, d: DeviceId, sid: SessionId)
    requires Sound(lab) && Allowed(lab, cmd) && Followed(lab, n, d, sid)
    ensures Followed(Do(cfg, lab, cmd), n, d, sid)
  {
    hide Effect, Sound;
    DeviceMoves(cfg, lab, cmd, d);
    EventKinds(cfg, lab, cmd);
    var events, log' := Effect(cfg, lab, cmd).1, Do(cfg, lab, cmd).log;
    assert forall i | 0 <= i < |lab.log| :: log'[i] == lab.log[i];
    assert forall i | |lab.log| <= i < |log'| :: log'[i] == events[0];
    if |events| == 1 { assert log'[|lab.log|] == events[0]; }
    if GrantedSince(lab.log, n, d) {
      var i :| n <= i < |lab.log| && lab.log[i].Granted? && lab.log[i].did == d;
      assert log'[i] == lab.log[i];
    }
  }

  lemma {:induction false} FollowedRun(cfg: Config, a: Lab, cmds: seq<Cmd>, b: Lab, n: nat, d: DeviceId, sid: SessionId)
    requires Sound(a) && Runs(cfg, a, cmds, b) && Followed(a, n, d, sid)
    ensures Sound(b) && Followed(b, n, d, sid)
    decreases |cmds|
  {
    hide Effect, Sound, Followed;
    if cmds != [] {
      SoundStep(cfg, a, cmds[0]);
      FollowedStep(cfg, a, cmds[0], n, d, sid);
      FollowedRun(cfg, Do(cfg, a, cmds[0]), cmds[1..], b, n, d, sid);
    }
  }

  /** A session stays on its device for as long as it is live. */
  lemma {:induction false} StaysBound(cfg: Config, a: Lab, cmds: seq<Cmd>, b: Lab, d: DeviceId, sid: SessionId)
    requires Sound(a) && Runs(cfg, a, cmds, b) && sid in a.sids
    requires LiveIn(a, sid) ==> a.store.sessions[sid].deviceId == d
    ensures Sound(b) && sid in b.sids && (LiveIn(b, sid) ==> LiveIn(a, sid) && b.store.sessions[sid].deviceId == d)
    decreases |cmds|
  {
    hide Effect, Sound;
    if cmds != [] {
      SoundStep(cfg, a, cmds[0]);
      if !LiveIn(a, sid) { NeverLiveAgain(cfg, a, cmds[0], sid); }
      SessionMoves(cfg, a, cmds[0], sid);
      StaysBound(cfg, Do(cfg, a, cmds[0]), cmds[1..], b, d, sid);
    }
  }

  /** The termination that the loop asks for once it has read the device again. */
  function EndingOf(x: SessionId): Cmd {
    BeginTermination(x, DeviceError, true, None)
  }

  /**
   * A report of a sick device, the loop's second reading of the device and the termination it then asks for,
   * with anything in between. However that goes, the session which the report was about is not live
   * afterwards. The session asked to end is that one if and only if the device has not been granted anew
   * between the report and the second reading.
   */
  lemma SickSessionEnds(cfg: Config, a: Lab, d: DeviceId, mid: seq<Cmd>, b: Lab, rest: seq<Cmd>, c: Lab)
    requires Sound(a) && Scripts.HealthUpdate(a.store, d, false, a.clock).1 == SessionUnhealthy
    requires Runs(cfg, a, mid, b) && Runs(cfg, b, rest, c)
    ensures Do(cfg, a, HealthUpdate(d, false)) == a
    ensures Binding(a.store, d).Some? && LiveIn(a, Binding(a.store, d).value)
    ensures var sid := Binding(a.store, d).value;
      match Binding(b.store, d)
      case None => !LiveIn(c, sid)
      case Some(x) =>
        (x == sid <==> !GrantedSince(b.log, |a.log|, d))
        && !LiveIn(Do(cfg, c, EndingOf(x)), sid)
        && (LiveIn(c, x) ==> Do(cfg, c, EndingOf(x)).log == c.log + [Terminated(x, DeviceError)])
  {
    ReportIsAnswered(a.store, d, false, a.clock);
    OccupiedExactly(a.store, d);
    var sid := Binding(a.store, d).value;
    BoundIsIssued(a, d);
    hide Sound, Effect, Runs, Do, Scripts.HealthUpdate, Occupied;
    NotedOnly(cfg, a, d);
    FollowedRun(cfg, a, mid, b, |a.log|, d, sid);
    StaysBound(cfg, a, mid, b, d, sid);
    if LiveIn(b, sid) { LiveIsBound(b, d, sid); }
    StaysBound(cfg, b, rest, c, d, sid);
    if Binding(b.store, d).Some? {
      var x := Binding(b.store, d).value;
      EndingEnds(cfg, c, x, sid);
    }
  }

  lemma LiveIsBound(lab: Lab, d: DeviceId, sid: SessionId)
    requires Sound(lab) && LiveIn(lab, sid) && lab.store.sessions[sid].deviceId == d
    ensures Binding(lab.store, d) == Some(sid)
  {
    OccupantIsBound(lab.store, d, sid);
  }

  lemma BoundIsIssued(lab: Lab, d: DeviceId)
    requires Sound(lab) && Binding(lab.store, d).Some?
    ensures Binding(lab.store, d).value in lab.sids
  {
  }

  lemma NotedOnly(cfg: Config, lab: Lab, d: DeviceId)
    requires Scripts.HealthUpdate(lab.store, d, false, lab.clock) == (lab.store, SessionUnhealthy)
    ensures Do(cfg, lab, HealthUpdate(d, false)) == lab
  {
    hide Scripts.HealthUpdate;
    assert lab.log + [] == lab.log;
  }

  lemma EndingEnds(cfg: Config, lab: Lab, x: SessionId, sid: SessionId)
    ensures !LiveIn(Do(cfg, lab, EndingOf(x)), x)
    ensures !LiveIn(lab, sid) ==> !LiveIn(Do(cfg, lab, EndingOf(x)), sid)
    ensures LiveIn(lab, x) ==> Do(cfg, lab, EndingOf(x)).log == lab.log + [Terminated(x, DeviceError)]
  {
  }

  // ---------------- a pass of the loop with nothing in between ----------------

  /** A session record after a pass that found its device healthy or sick. */
  function Treated(s: Session, report: DeviceId -> bool): Session {
    if Live(s.state) && !report(s.deviceId) then s.(state := Expired, endReason := Some(DeviceError)) else s
  }

  /** A device record before and after its report. */
  predicate Reported(a: Device, healthy: bool, b: Device) {
    var state := match (a.state, healthy)
      case (Available, false) => Offline
      case (Offline, true) => Available
      case (Reserved, false) => Cleaning
      case (InUse, false) => Cleaning
      case _ => a.state;
    b == a.(state := state, failureCount := b.failureCount, lastHealthAt := b.lastHealthAt)
    && b.failureCount == if a.state == Offline && healthy then 0 else a.failureCount
  }

  /** Whether the device is in the pool after its report. */
  predicate Pooled(s: Store, d: DeviceId, healthy: bool) {
    if d in s.devices && (s.devices[d].state == Available || (s.devices[d].state == Offline && healthy)) then healthy
    else d in s.avail
  }

  /** The devices among these that come back into service. */
  function Recovering(s: Store, among: set<DeviceId>, report: DeviceId -> bool): set<DeviceId> {
    set d | d in among && d in s.devices && s.devices[d].state == Offline && report(d)
  }

  /** The sessions that a pass over these devices ends, with their devices. */
  function Sick(sessions: Sessions, among: set<DeviceId>, report: DeviceId -> bool): set<(SessionId, DeviceId)> {
    set sid | sid in sessions && Live(sessions[sid].state) && sessions[sid].deviceId in among
      && !report(sessions[sid].deviceId) :: (sid, sessions[sid].deviceId)
  }

  /** What ending the session on a sick device does to the other records. */
  lemma EndingTreats(s: Store, d: DeviceId)
    requires StoreOk(s) && Occupied(s, d)
    ensures Binding(s, d).Some?
    ensures var sid := Binding(s, d).value;
      var (s', reply) := Scripts.BeginTermination(s, sid, DeviceError, true, None);
      sid in s.sessions && s.sessions[sid].deviceId == d && Live(s.sessions[sid].state)
      && reply == TerminationOk(s'.sessions[sid])
      && s'.sessions == s.sessions[sid := s.sessions[sid].(state := Expired, endReason := Some(DeviceError))]
      && s'.devices == s.devices[d := s.devices[d].(state := Cleaning)]
      && s' == s.(sessions := s'.sessions, devices := s'.devices, clientSession := s'.clientSession)
      && (s.devices[d].state == DeviceState.Reserved || s.devices[d].state == InUse)
      && forall x | x in s.sessions && Live(s.sessions[x].state) && s.sessions[x].deviceId == d :: x == sid
  {
    OccupiedExactly(s, d);
    var sid := Binding(s, d).value;
    forall x | x in s.sessions && Live(s.sessions[x].state) && s.sessions[x].deviceId == d ensures x == sid {
      OccupantIsBound(s, d, x);
    }
    hide StoreOk, Occupied;
  }

  /** How far a pass that began on `s0` has come in `s`: the devices in `done` have had their reports. */
  ghost predicate PassAt(s0: Store, s: Store, done: set<DeviceId>, report: DeviceId -> bool) {
    && s.sessions.Keys == s0.sessions.Keys
    && (forall x | x in s0.sessions ::
          s.sessions[x] == if s0.sessions[x].deviceId in done then Treated(s0.sessions[x], report) else s0.sessions[x])
    && s.devices.Keys == s0.devices.Keys
    && (forall d | d in s0.devices ::
          if d in done then Reported(s0.devices[d], report(d), s.devices[d]) else s.devices[d] == s0.devices[d])
    && (forall d :: d in s.avail <==> if d in done then Pooled(s0, d, report(d)) else d in s0.avail)
    && s.deviceIds == s0.deviceIds && s.queue == s0.queue && s.entries == s0.entries
  }

  lemma PassBeginsAt(s: Store, report: DeviceId -> bool)
    ensures PassAt(s, s, {}, report) && Sick(s.sessions, {}, report) == {} && Recovering(s, {}, report) == {}
  {
  }

  /** One more report. */
  lemma PassGoesOn(s0: Store, s: Store, s': Store, done: set<DeviceId>, d: DeviceId, report: DeviceId -> bool)
    requires PassAt(s0, s, done, report) && PassAt(s, s', {d}, report) && d !in done
    ensures PassAt(s0, s', done + {d}, report)
    ensures Sick(s0.sessions, done + {d}, report) == Sick(s0.sessions, done, report) + Sick(s.sessions, {d}, report)
    ensures Recovering(s0, done + {d}, report) == Recovering(s0, done, report) + Recovering(s, {d}, report)
  {
    forall x | x in s0.sessions
      ensures s'.sessions[x] ==
        if s0.sessions[x].deviceId in done + {d} then Treated(s0.sessions[x], report) else s0.sessions[x]
    {
      assert x in s.sessions;
    }
    hide Reported;
  }

  /** When all devices have had their reports all sessions have been seen to. */
  lemma PassIsOver(s0: Store, s: Store, report: DeviceId -> bool)
    requires StoreOk(s0) && PassAt(s0, s, s0.deviceIds, report)
    ensures s.sessions == map sid | sid in s0.sessions :: Treated(s0.sessions[sid], report)
    ensures forall d :: d in s.avail <==> Pooled(s0, d, report(d))
  {
    forall x | x in s0.sessions ensures s.sessions[x] == Treated(s0.sessions[x], report) {
      if Live(s0.sessions[x].state) { OccupantIsBound(s0, s0.sessions[x].deviceId, x); }
    }
    hide StoreOk, Reported;
  }

  /** A report that leaves the sessions alone. */
  lemma ReportPasses(s: Store, d: DeviceId, report: DeviceId -> bool, now: int)
    requires StoreOk(s) && d in s.devices && Scripts.HealthUpdate(s, d, report(d), now).1 != SessionUnhealthy
    ensures var (s', reply) := Scripts.HealthUpdate(s, d, report(d), now);
      PassAt(s, s', {d}, report) && Sick(s.sessions, {d}, report) == {}
      && Recovering(s, {d}, report) == if reply == Recovered then {d} else {}
  {
    ReportIsAnswered(s, d, report(d), now);
    OccupiedExactly(s, d);
    forall x | x in s.sessions && Live(s.sessions[x].state) && s.sessions[x].deviceId == d ensures report(d) {
      OccupantIsBound(s, d, x);
    }
    hide StoreOk, Occupied, Scripts.HealthUpdate;
    ReportWrites(s, d, report(d), now);
  }

  /** The end of the session on a device found sick. */
  lemma EndingPasses(s: Store, d: DeviceId, report: DeviceId -> bool)
    requires StoreOk(s) && Occupied(s, d) && !report(d)
    ensures Binding(s, d).Some?
    ensures var sid := Binding(s, d).value;
      var (s', reply) := Scripts.BeginTermination(s, sid, DeviceError, true, None);
      PassAt(s, s', {d}, report) && Sick(s.sessions, {d}, report) == {(sid, d)} && Recovering(s, {d}, report) == {}
      && reply.TerminationOk? && reply.session.deviceId == d
  {
    EndingTreats(s, d);
    hide StoreOk, Occupied, Scripts.BeginTermination;
  }
}
