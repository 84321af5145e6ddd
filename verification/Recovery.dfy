/** Recovery: after a crash at any point the restart leaves nothing active behind and nothing uncleaned. */
module Recovery {
  import opened Domain
  import opened Scripts
  import opened Lab
  import opened Ownership
  import opened Transitions
  import Stories
  import History
  import opened Tenure
  import opened Server
  import opened ServerInv

  ghost predicate HasCleaner(p: Proc, sid: SessionId, did: DeviceId) {
    exists k :: k in p.cleaners && p.cleaners[k].sid == sid && p.cleaners[k].did == did
  }

  predicate Dirty(s: Store, d: DeviceId) {
    d in s.devices && s.devices[d].state == Cleaning && s.devices[d].currentSessionId.Some?
  }

  /** Who answers for a device that waits for cleanup: a worker, or a part of the restart that is still to come. */
  ghost predicate Covered(sys: Sys, d: DeviceId)
    requires Dirty(sys.lab.store, d)
  {
    var sid := sys.lab.store.devices[d].currentSessionId.value;
    var p := sys.proc;
    if p.phase.Up? then HasCleaner(p, sid, d)
    else if p.phase.Adopting? then HasCleaner(p, sid, d) || sid in p.phase.unadopted || sid !in sys.lab.store.listed
    else if p.phase.Repairing? then
      HasCleaner(p, sid, d)
      || (sid !in sys.lab.store.listed && d in p.phase.unrepaired && CursorAllows(p.phase.cursor, d, sid))
    else true
  }

  /** The repair loop has yet to decide about `d`, and will decide for `sid`. */
  predicate CursorAllows(c: Cursor, d: DeviceId, sid: SessionId) {
    match c
    case Between => true
    case HaveDevice(did, dev) => did == d ==> dev.currentSessionId == Some(sid)
    case Checked(did, _) => did != d
  }

  ghost predicate AllCovered(sys: Sys) {
    forall d {:trigger Dirty(sys.lab.store, d)} :: Dirty(sys.lab.store, d) ==> Covered(sys, d)
  }

  /** Until the restart is over, the only active sessions are those it has yet to adopt. */
  ghost predicate ActiveAdopted(sys: Sys) {
    (sys.proc.phase.Adopting? || sys.proc.phase.Repairing?) ==>
      forall sid | sid in sys.lab.store.sessions && sys.lab.store.sessions[sid].state == Active ::
        sys.proc.phase.Adopting? && sid in sys.proc.phase.unadopted
  }

  // ---------------- one device ----------------

  /** A device starts to wait for cleanup exactly when its session is terminated. */
  lemma DirtyFrom(cfg: Config, lab: Lab, cmd: Cmd, d: DeviceId)
    requires Sound(lab) && Allowed(lab, cmd) && Dirty(Do(cfg, lab, cmd).store, d)
    ensures d in lab.store.devices
        && lab.store.devices[d].currentSessionId == Do(cfg, lab, cmd).store.devices[d].currentSessionId
    ensures var sid := lab.store.devices[d].currentSessionId.value;
      Dirty(lab.store, d)
      || (cmd.BeginTermination? && cmd.sid == sid && Effect(cfg, lab, cmd).1 != []
          && sid in lab.store.sessions && lab.store.sessions[sid].deviceId == d)
  {
    hide Effect, ClientsOk, WaitersOk, IdsOk;
    var lab' := Do(cfg, lab, cmd);
    DeviceMoves(cfg, lab, cmd, d);
    assert DeviceOk(lab.store.sessions, lab.store.devices, lab.store.fences, d);
    var sid := lab'.store.devices[d].currentSessionId.value;
    SoundStep(cfg, lab, cmd);
    assert DeviceOk(lab'.store.sessions, lab'.store.devices, lab'.store.fences, d);
    SessionMoves(cfg, lab, cmd, sid);
    EventKinds(cfg, lab, cmd);
  }

  /** A session that is off the reaper's list never returns to it. */
  lemma UnlistedForever(cfg: Config, lab: Lab, cmd: Cmd, sid: SessionId)
    requires Sound(lab) && Allowed(lab, cmd) && sid in lab.sids && sid !in lab.store.listed
    ensures sid !in Do(cfg, lab, cmd).store.listed
  {
    hide Effect, ClientsOk, WaitersOk, IdsOk;
    var lab' := Do(cfg, lab, cmd);
    SoundStep(cfg, lab, cmd);
    SessionMoves(cfg, lab, cmd, sid);
    EventKinds(cfg, lab, cmd);
    if sid in lab.store.sessions {
      assert SessionOk(lab.store.sessions, lab.store.devices, lab.store.fences, lab.store.listed, sid);
    }
    if sid in lab'.store.sessions {
      assert SessionOk(lab'.store.sessions, lab'.store.devices, lab'.store.fences, lab'.store.listed, sid);
    }
  }

  lemma WorkerStays(cfg: Config, sys: Sys, a: Action, events: seq<Event>, k: nat)
    requires Enabled(cfg, sys, a) && k in sys.proc.cleaners && !a.Crash?
    requires a.CleanerFinish? && a.worker == k ==> events != [] && events[0].CleanupFailed? && !events[0].grounded
    requires a.CleanerStart? && a.worker == k ==> sys.proc.cleaners[k].did in sys.lab.store.devices
    ensures var p' := ProcAfter(cfg, sys, a, events);
      k in p'.cleaners && p'.cleaners[k].sid == sys.proc.cleaners[k].sid
        && p'.cleaners[k].did == sys.proc.cleaners[k].did
  {
    hide Allowed, Judge;
  }

  /** As long as the device waits for cleanup its worker does not give up. */
  lemma HasCleanerStep(cfg: Config, sys: Sys, a: Action, sid: SessionId, d: DeviceId)
    requires SysOk(cfg, sys) && Enabled(cfg, sys, a) && !a.Crash?
    requires HasCleaner(sys.proc, sid, d) && Dirty(sys.lab.store, d)
        && sys.lab.store.devices[d].currentSessionId == Some(sid)
    requires Dirty(Next(cfg, sys, a).lab.store, d)
    ensures HasCleaner(Next(cfg, sys, a).proc, sid, d)
  {
    hide Effect, Sound, Stories.Told, TenuresOk, CleanersOk, CursorOk, Allowed, ProcAfter, Judge;
    CallsAreAllowed(cfg, sys, a);
    var k :| k in sys.proc.cleaners && sys.proc.cleaners[k].sid == sid && sys.proc.cleaners[k].did == d;
    var c := CmdOf(cfg, sys, a);
    var events := if c.Some? then Effect(cfg, sys.lab, c.value).1 else [];
    if a.CleanerFinish? && a.worker == k {
      FinishEvents(cfg, sys.lab, sid, d, a.ok);
      DeviceMoves(cfg, sys.lab, c.value, d);
    }
    WorkerStays(cfg, sys, a, events, k);
  }

  /** The worker that a won termination starts is for the terminated session's device. */
  lemma TerminationHasCleaner(cfg: Config, sys: Sys, a: Action)
    requires SysOk(cfg, sys) && Enabled(cfg, sys, a)
    requires var c := CmdOf(cfg, sys, a);
      c.Some? && c.value.BeginTermination? && Effect(cfg, sys.lab, c.value).1 != []
        && c.value.sid in sys.lab.store.sessions
    ensures var sid := CmdOf(cfg, sys, a).value.sid;
      sys.proc.phase.Up? && HasCleaner(Next(cfg, sys, a).proc, sid, sys.lab.store.sessions[sid].deviceId)
  {
    hide Effect, Sound, Stories.Told, TenuresOk, CleanersOk, CursorOk, Judge;
    var sid := CmdOf(cfg, sys, a).value.sid;
    assert a.Terminate? || a.ReaperAct?;
    assert a.worker in Next(cfg, sys, a).proc.cleaners;
  }

  lemma CoveredStep(cfg: Config, sys: Sys, a: Action, d: DeviceId)
    requires SysOk(cfg, sys) && AllCovered(sys) && Enabled(cfg, sys, a) && Dirty(Next(cfg, sys, a).lab.store, d)
    ensures Covered(Next(cfg, sys, a), d)
  {
    hide Effect, Sound, Stories.Told, TenuresOk, CleanersOk, CursorOk, Allowed, Judge, HasCleaner;
    LabStep(cfg, sys, a);
    var c := CmdOf(cfg, sys, a);
    var next := Next(cfg, sys, a);
    if c.Some? { DirtyFrom(cfg, sys.lab, c.value, d); }
    var sid := next.lab.store.devices[d].currentSessionId.value;
    if Dirty(sys.lab.store, d) {
      CoverageMoves(cfg, sys, a, d, sid);
    } else {
      TerminationHasCleaner(cfg, sys, a);
    }
  }

  lemma CoverageMoves(cfg: Config, sys: Sys, a: Action, d: DeviceId, sid: SessionId)
    requires SysOk(cfg, sys) && Enabled(cfg, sys, a)
    requires Dirty(sys.lab.store, d) && sys.lab.store.devices[d].currentSessionId == Some(sid) && Covered(sys, d)
    requires Dirty(Next(cfg, sys, a).lab.store, d)
        && Next(cfg, sys, a).lab.store.devices[d].currentSessionId == Some(sid)
    ensures Covered(Next(cfg, sys, a), d)
  {
    hide Effect, Sound, Stories.Told, TenuresOk, CleanersOk, CursorOk, Allowed, Judge, HasCleaner, Covered, Next,
         Enabled;
    if HasCleaner(sys.proc, sid, d) {
      CleanedStays(cfg, sys, a, d, sid);
    } else {
      UncleanedMoves(cfg, sys, a, d, sid);
    }
  }

  lemma CleanedStays(cfg: Config, sys: Sys, a: Action, d: DeviceId, sid: SessionId)
    requires SysOk(cfg, sys) && Enabled(cfg, sys, a) && HasCleaner(sys.proc, sid, d)
    requires Dirty(sys.lab.store, d) && sys.lab.store.devices[d].currentSessionId == Some(sid)
    requires Dirty(Next(cfg, sys, a).lab.store, d)
        && Next(cfg, sys, a).lab.store.devices[d].currentSessionId == Some(sid)
    ensures Covered(Next(cfg, sys, a), d)
  {
    hide Effect, Sound, Stories.Told, TenuresOk, CleanersOk, CursorOk, Allowed, Judge, HasCleaner, Do;
    if !a.Crash? { HasCleanerStep(cfg, sys, a, sid, d); }
    hide Next, Enabled;
    if a.Crash? { CrashCovers(cfg, sys, d); }
  }

  lemma CrashCovers(cfg: Config, sys: Sys, d: DeviceId)
    requires Dirty(Next(cfg, sys, Crash).lab.store, d)
    ensures Covered(Next(cfg, sys, Crash), d)
  {
  }

  /** Without a worker the device is covered by what the restart has still to do, and that stays or is done now. */
  lemma UncleanedMoves(cfg: Config, sys: Sys, a: Action, d: DeviceId, sid: SessionId)
    requires SysOk(cfg, sys) && Enabled(cfg, sys, a) && !HasCleaner(sys.proc, sid, d)
    requires Dirty(sys.lab.store, d) && sys.lab.store.devices[d].currentSessionId == Some(sid) && Covered(sys, d)
    requires Dirty(Next(cfg, sys, a).lab.store, d)
        && Next(cfg, sys, a).lab.store.devices[d].currentSessionId == Some(sid)
    ensures Covered(Next(cfg, sys, a), d)
  {
    hide Effect, Sound, Stories.Told, TenuresOk, CleanersOk, CursorOk, Allowed, Judge, HasCleaner, Next, Enabled;
    LabStep(cfg, sys, a);
    DirtySession(sys.lab, d, sid);
    var c := CmdOf(cfg, sys, a);
    if c.Some? && sid !in sys.lab.store.listed { UnlistedForever(cfg, sys.lab, c.value, sid); }
    if sys.proc.phase.Adopting? {
      AdoptingCovers(cfg, sys, a, d, sid);
    } else if sys.proc.phase.Repairing? {
      RepairingCovers(cfg, sys, a, d, sid);
    } else {
      EarlyCovers(cfg, sys, a, d, sid);
    }
  }

  lemma AdoptingCovers(cfg: Config, sys: Sys, a: Action, d: DeviceId, sid: SessionId)
    requires Enabled(cfg, sys, a) && sys.proc.phase.Adopting? && !HasCleaner(sys.proc, sid, d)
    requires Dirty(sys.lab.store, d) && sys.lab.store.devices[d].currentSessionId == Some(sid) && Covered(sys, d)
    requires PastEnd(sys.lab.store, d, sid)
    requires sid !in sys.lab.store.listed ==> sid !in Next(cfg, sys, a).lab.store.listed
    requires Dirty(Next(cfg, sys, a).lab.store, d)
        && Next(cfg, sys, a).lab.store.devices[d].currentSessionId == Some(sid)
    ensures Covered(Next(cfg, sys, a), d)
  {
    hide Effect, Allowed, Judge, HasCleaner, Do;
    if a.AdoptOne? && a.sid == sid && sid in sys.lab.store.listed { SpawnHas(cfg, sys, a, a.worker, sid, d); }
  }

  lemma RepairingCovers(cfg: Config, sys: Sys, a: Action, d: DeviceId, sid: SessionId)
    requires Enabled(cfg, sys, a) && sys.proc.phase.Repairing? && !HasCleaner(sys.proc, sid, d)
    requires Dirty(sys.lab.store, d) && sys.lab.store.devices[d].currentSessionId == Some(sid) && Covered(sys, d)
    requires PastEnd(sys.lab.store, d, sid)
    requires sid !in sys.lab.store.listed ==> sid !in Next(cfg, sys, a).lab.store.listed
    requires Dirty(Next(cfg, sys, a).lab.store, d)
        && Next(cfg, sys, a).lab.store.devices[d].currentSessionId == Some(sid)
    ensures Covered(Next(cfg, sys, a), d)
  {
    hide Effect, Allowed, Judge, HasCleaner, Do;
    if a.RepairCheck? && sys.proc.phase.cursor.did == d { SpawnHas(cfg, sys, a, a.worker, sid, d); }
  }

  lemma EarlyCovers(cfg: Config, sys: Sys, a: Action, d: DeviceId, sid: SessionId)
    requires Enabled(cfg, sys, a) && !sys.proc.phase.Adopting? && !sys.proc.phase.Repairing? && !sys.proc.phase.Up?
    requires Dirty(Next(cfg, sys, a).lab.store, d)
        && Next(cfg, sys, a).lab.store.devices[d].currentSessionId == Some(sid)
    ensures Covered(Next(cfg, sys, a), d)
  {
    hide Effect, Allowed, Judge, Do;
  }

  /** The session of a device that waits for cleanup is over; if it is still listed, its record says so. */
  predicate PastEnd(s: Store, d: DeviceId, sid: SessionId) {
    d in s.deviceIds
    && (sid in s.listed ==>
          sid in s.sessions && s.sessions[sid].deviceId == d
            && (s.sessions[sid].state == Ending || s.sessions[sid].state == Expired))
    && (sid !in s.listed && sid in s.sessions ==> s.sessions[sid].state == Ended)
  }

  lemma DirtySession(lab: Lab, d: DeviceId, sid: SessionId)
    requires Sound(lab) && Dirty(lab.store, d) && lab.store.devices[d].currentSessionId == Some(sid)
    ensures sid in lab.sids && PastEnd(lab.store, d, sid)
  {
    var s := lab.store;
    assert DeviceOk(s.sessions, s.devices, s.fences, d);
    if sid in s.sessions { assert SessionOk(s.sessions, s.devices, s.fences, s.listed, sid); }
  }

  lemma SpawnHas(cfg: Config, sys: Sys, a: Action, k: nat, sid: SessionId, d: DeviceId)
    requires Enabled(cfg, sys, a)
    requires k in Next(cfg, sys, a).proc.cleaners && Next(cfg, sys, a).proc.cleaners[k] == Cleaner(sid, d, false, 0)
    ensures HasCleaner(Next(cfg, sys, a).proc, sid, d)
  {
    hide Next;
  }

  // ---------------- active sessions ----------------

  lemma ActiveFrom(cfg: Config, lab: Lab, cmd: Cmd, sid: SessionId)
    requires Sound(lab) && Allowed(lab, cmd) && !cmd.Claim? && !cmd.Reconnect?
    requires var s' := Do(cfg, lab, cmd).store; sid in s'.sessions && s'.sessions[sid].state == Active
    ensures sid in lab.store.sessions && lab.store.sessions[sid].state == Active && sid in lab.store.listed
    ensures !(cmd.MarkDisconnected? && cmd.sid == sid)
  {
    assert sid in lab.store.sessions && lab.store.sessions[sid].state == Active by {
      hide Effect, StoreOk, IdsOk;
      SessionMoves(cfg, lab, cmd, sid);
      if sid !in lab.store.sessions || lab.store.sessions[sid].state != Active { ActivatesNothing(cfg, lab, cmd, sid); }
    }
    assert SessionOk(lab.store.sessions, lab.store.devices, lab.store.fences, lab.store.listed, sid);
    hide StoreOk, IdsOk;
  }

  lemma ActivatesNothing(cfg: Config, lab: Lab, cmd: Cmd, sid: SessionId)
    requires Sound(lab) && Allowed(lab, cmd) && !cmd.Claim? && !cmd.Reconnect?
    requires sid !in lab.store.sessions || lab.store.sessions[sid].state != Active
    ensures var s' := Effect(cfg, lab, cmd).0; sid in s'.sessions ==> s'.sessions[sid].state != Active
  {
    hide StoreOk, IdsOk, Effect;
    match cmd
    case Allocate(popped, x, h) => AllocateActivatesNothing(cfg, lab, popped, x, h, sid);
    case FinishCleanup(x, did, ok) => CleanupActivatesNothing(cfg, lab, x, did, ok, sid);
    case BeginTermination(x, reason, expired, fence) => EndActivatesNothing(cfg, lab, x, reason, expired, fence, sid);
    case _ =>
      if TouchesSessions(cmd) {
        TouchActivatesNothing(cfg, lab, cmd, sid);
      } else {
        OthersLeaveSessions(cfg, lab, cmd);
      }
  }

  lemma AllocateActivatesNothing(cfg: Config, lab: Lab, popped: Option<DeviceId>, x: SessionId, h: TokenHash,
      sid: SessionId)
    requires Allowed(lab, Allocate(popped, x, h))
    ensures var s' := Effect(cfg, lab, Allocate(popped, x, h)).0;
      sid in s'.sessions && s'.sessions[sid].state == Active ==>
        sid in lab.store.sessions && lab.store.sessions[sid].state == Active
  {
    AllocatedSessions(lab.store, popped, x, h, lab.clock, cfg);
    hide Scripts.Allocate;
  }

  lemma CleanupActivatesNothing(cfg: Config, lab: Lab, x: SessionId, did: DeviceId, ok: bool, sid: SessionId)
    requires Allowed(lab, FinishCleanup(x, did, ok))
    ensures var s' := Effect(cfg, lab, FinishCleanup(x, did, ok)).0;
      sid in s'.sessions && s'.sessions[sid].state == Active ==>
        sid in lab.store.sessions && lab.store.sessions[sid].state == Active
  {
    FinishedSessions(lab.store, x, did, ok, lab.clock, cfg);
    hide Scripts.FinishCleanup;
  }

  lemma EndActivatesNothing(cfg: Config, lab: Lab, x: SessionId, reason: EndReason, expired: bool, fence: Option<nat>,
      sid: SessionId)
    ensures var s' := Effect(cfg, lab, BeginTermination(x, reason, expired, fence)).0;
      sid in s'.sessions && s'.sessions[sid].state == Active ==>
        sid in lab.store.sessions && lab.store.sessions[sid].state == Active
  {
  }

  lemma TouchActivatesNothing(cfg: Config, lab: Lab, cmd: Cmd, sid: SessionId)
    requires Allowed(lab, cmd)
    requires cmd.Heartbeat? || cmd.MarkDisconnected? || cmd.UpdateInputSeq? || cmd.ForgetSession?
    requires sid !in lab.store.sessions || lab.store.sessions[sid].state != Active
    ensures var s' := Effect(cfg, lab, cmd).0; sid in s'.sessions ==> s'.sessions[sid].state != Active
  {
  }

  /** How a step moves the part of a restart that adopts sessions. */
  lemma AdoptionMoves(cfg: Config, sys: Sys, a: Action)
    requires SysOk(cfg, sys) && Enabled(cfg, sys, a)
    ensures var ph, ph' := sys.proc.phase, Next(cfg, sys, a).proc.phase;
      var c := CmdOf(cfg, sys, a);
      (ph'.Adopting? || ph'.Repairing? ==> c.None? || (!c.value.Claim? && !c.value.Reconnect?))
      && (ph'.Repairing? ==> ph.Repairing? || (ph.Adopting? && ph.unadopted == {}))
      && (ph'.Adopting? ==>
            (a.RegisterDone? && c.None? && ph'.unadopted == sys.lab.store.listed)
            || (ph.Adopting? && ph'.unadopted == ph.unadopted)
            || (ph.Adopting? && a.AdoptOne? && ph'.unadopted == ph.unadopted - {a.sid}
                && (a.sid in sys.lab.store.sessions && sys.lab.store.sessions[a.sid].state == Active ==>
                      c == Some(MarkDisconnected(a.sid, ph.since)))))
  {
    hide Effect, Sound, Stories.Told, TenuresOk, CleanersOk, CursorOk, Allowed, Judge, Do;
    CallsAreAllowed(cfg, sys, a);
  }

  lemma ActiveStep(cfg: Config, sys: Sys, a: Action)
    requires SysOk(cfg, sys) && ActiveAdopted(sys) && Enabled(cfg, sys, a)
    ensures ActiveAdopted(Next(cfg, sys, a))
  {
    LabStep(cfg, sys, a);
    AdoptionMoves(cfg, sys, a);
    hide Effect, Sound, Stories.Told, TenuresOk, CleanersOk, CursorOk, Allowed, Do, Next, Enabled, CmdOf;
    var c := CmdOf(cfg, sys, a);
    var next := Next(cfg, sys, a);
    if next.proc.phase.Adopting? || next.proc.phase.Repairing? {
      forall sid | sid in next.lab.store.sessions && next.lab.store.sessions[sid].state == Active
        ensures next.proc.phase.Adopting? && sid in next.proc.phase.unadopted
      {
        if c.Some? { ActiveFrom(cfg, sys.lab, c.value, sid); } else { ActiveIsListed(sys.lab, sid); }
      }
    }
  }

  lemma ActiveIsListed(lab: Lab, sid: SessionId)
    requires Sound(lab) && sid in lab.store.sessions && lab.store.sessions[sid].state == Active
    ensures sid in lab.store.listed
  {
    assert SessionOk(lab.store.sessions, lab.store.devices, lab.store.fences, lab.store.listed, sid);
  }

  // ---------------- every run ----------------

  lemma {:induction false} CoveredRun(cfg: Config, a: Sys, actions: seq<Action>, b: Sys)
    requires SysOk(cfg, a) && AllCovered(a) && ActiveAdopted(a) && SysRuns(cfg, a, actions, b)
    ensures SysOk(cfg, b) && AllCovered(b) && ActiveAdopted(b)
    decreases |actions|
  {
    hide SysOk, Enabled, Next, ActiveAdopted, Covered;
    if actions != [] {
      var mid := Next(cfg, a, actions[0]);
      SysStep(cfg, a, actions[0]);
      ActiveStep(cfg, a, actions[0]);
      forall d | Dirty(mid.lab.store, d) ensures Covered(mid, d) { CoveredStep(cfg, a, actions[0], d); }
      CoveredRun(cfg, mid, actions[1..], b);
    }
  }

  /** While the server is up, in whatever life, every device that waits for cleanup has a worker for its own session. */
  lemma NothingStaysDirty(cfg: Config, t0: int, actions: seq<Action>, sys: Sys, d: DeviceId)
    requires 0 < t0 && SysRuns(cfg, NewSys(t0), actions, sys) && sys.proc.phase.Up?
    requires d in sys.lab.store.devices && sys.lab.store.devices[d].state == Cleaning
    ensures sys.lab.store.devices[d].currentSessionId.Some?
    ensures HasCleaner(sys.proc, sys.lab.store.devices[d].currentSessionId.value, d)
  {
    NewSysOk(cfg, t0);
    CoveredRun(cfg, NewSys(t0), actions, sys);
    var s := sys.lab.store;
    assert DeviceOk(s.sessions, s.devices, s.fences, d);
    assert Dirty(s, d);
  }

  /**
   * A restart after a crash at any point: when it completes, no session is left active, every device
   * caught in cleanup has a worker, and every live session still holds its device.
   */
  lemma RestartRecovers(cfg: Config, t0: int, actions: seq<Action>, sys: Sys)
    requires 0 < t0 && SysRuns(cfg, NewSys(t0), actions, sys) && Enabled(cfg, sys, RepairDone)
    ensures var up := Next(cfg, sys, RepairDone);
      up.proc.phase.Up? && up.lab == sys.lab
      && (forall sid | sid in up.lab.store.sessions :: up.lab.store.sessions[sid].state != Active)
      && (forall d | Dirty(up.lab.store, d) :: HasCleaner(up.proc, up.lab.store.devices[d].currentSessionId.value, d))
      && (forall sid | sid in up.lab.store.sessions && Live(up.lab.store.sessions[sid].state) ::
            Lookup(up.lab.store.devices, up.lab.store.sessions[sid].deviceId).Some?
            && up.lab.store.devices[up.lab.store.sessions[sid].deviceId].currentSessionId == Some(sid))
  {
    NewSysOk(cfg, t0);
    CoveredRun(cfg, NewSys(t0), actions, sys);
    var up := Next(cfg, sys, RepairDone);
    forall d | Dirty(up.lab.store, d) ensures HasCleaner(up.proc, up.lab.store.devices[d].currentSessionId.value, d) {
      CoveredStep(cfg, sys, RepairDone, d);
    }
    forall sid | sid in up.lab.store.sessions && Live(up.lab.store.sessions[sid].state)
      ensures Lookup(up.lab.store.devices, up.lab.store.sessions[sid].deviceId).Some?
      ensures up.lab.store.devices[up.lab.store.sessions[sid].deviceId].currentSessionId == Some(sid)
    {
      assert SessionOk(sys.lab.store.sessions, sys.lab.store.devices, sys.lab.store.fences, sys.lab.store.listed, sid);
    }
  }

  /** One worker retries less often than cleanup may fail, and all workers of a session together fail no oftener. */
  lemma WorkersEnd(cfg: Config, t0: int, actions: seq<Action>, sys: Sys, k: nat)
    requires 0 < t0 && SysRuns(cfg, NewSys(t0), actions, sys) && k in sys.proc.cleaners
    ensures sys.proc.cleaners[k].retries < History.AttemptLimit(cfg)
    ensures History.FailedAttempts(sys.lab.log, sys.proc.cleaners[k].sid) <= History.AttemptLimit(cfg)
  {
    NewSysOk(cfg, t0);
    SysRunOk(cfg, NewSys(t0), actions, sys);
    assert CleanerOk(cfg, sys.lab.log, sys.proc.cleaners[k]);
    History.FailuresBounded(cfg, sys.lab.log, sys.proc.cleaners[k].sid);
  }
}
