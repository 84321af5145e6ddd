/** What holds in every reachable state of the server, crashes included. */
module ServerInv {
  import opened Domain
  import opened Lab
  import opened Ownership
  import Transitions
  import opened Stories
  import History
  import opened Tenure
  import opened Server

  predicate CleanerOk(cfg: Config, log: seq<Event>, c: Cleaner) {
    var t := SessionAfter(log, c.sid);
    t.Closed? && t.did == c.did && c.retries <= t.failures && c.retries < History.AttemptLimit(cfg)
  }

  /** Every cleanup worker is for a session that is over, on the device that session had. */
  ghost predicate CleanersOk(cfg: Config, sys: Sys) {
    forall k | k in sys.proc.cleaners :: CleanerOk(cfg, sys.lab.log, sys.proc.cleaners[k])
  }

  /** A device record held by the repair loop names only a session that the device has really had. */
  predicate CursorOk(sys: Sys) {
    sys.proc.phase.Repairing? && !sys.proc.phase.cursor.Between? && sys.proc.phase.cursor.dev.currentSessionId.Some? ==>
      Born(sys.lab.log, sys.proc.phase.cursor.dev.currentSessionId.value, sys.proc.phase.cursor.did)
  }

  predicate Born(log: seq<Event>, sid: SessionId, did: DeviceId) {
    var t := SessionAfter(log, sid);
    !t.Unborn? && t.did == did
  }

  ghost predicate SysOk(cfg: Config, sys: Sys) {
    && Sound(sys.lab) && Told(cfg, sys.lab) && TenuresOk(cfg, sys.lab)
    && CleanersOk(cfg, sys) && CursorOk(sys)
    && (sys.proc.phase.Adopting? ==> sys.proc.phase.since <= sys.lab.clock)
    && (!sys.proc.reaper.Resting? ==> sys.proc.reaper.since <= sys.lab.clock)
  }

  lemma ClosedIsPast(cfg: Config, lab: Lab, sid: SessionId)
    requires Told(cfg, lab) && SessionAfter(lab.log, sid).Closed?
    ensures PastTermination(lab, sid)
  {
    hide SessionAfter;
    assert SessionTold(cfg, lab, sid);
  }

  /** The guards of the server code establish what each script asks of its callers. */
  lemma CallsAreAllowed(cfg: Config, sys: Sys, a: Action)
    requires SysOk(cfg, sys) && Enabled(cfg, sys, a)
    ensures CmdOf(cfg, sys, a).Some? ==> Allowed(sys.lab, CmdOf(cfg, sys, a).value)
  {
    hide Told, StoreOk, IdsOk, SessionAfter;
    if a.CleanerFinish? {
      ClosedIsPast(cfg, sys.lab, sys.proc.cleaners[a.worker].sid);
    }
  }

  // ---------------- what the scripts log ----------------

  lemma FinishEvents(cfg: Config, lab: Lab, sid: SessionId, did: DeviceId, ok: bool)
    requires Allowed(lab, FinishCleanup(sid, did, ok))
    ensures var events := Effect(cfg, lab, FinishCleanup(sid, did, ok)).1;
      if did !in lab.store.devices || lab.store.devices[did].currentSessionId != Some(sid) then events == []
      else if ok then events == [Cleaned(sid, did)]
      else exists g :: events == [CleanupFailed(sid, did, g)]
  {
    if did in lab.store.devices && lab.store.devices[did].currentSessionId == Some(sid) && !ok {
      var g := Scripts.FinishCleanup(lab.store, sid, did, ok, lab.clock, cfg).1.deviceState == Offline;
      assert Effect(cfg, lab, FinishCleanup(sid, did, ok)).1 == [CleanupFailed(sid, did, g)];
    }
  }

  lemma TerminationEvents(cfg: Config, lab: Lab, sid: SessionId, reason: EndReason, expired: bool, fence: Option<nat>)
    ensures var events := Effect(cfg, lab, BeginTermination(sid, reason, expired, fence)).1;
      events == [] || (events == [Terminated(sid, reason)] && sid in lab.store.sessions
        && Live(lab.store.sessions[sid].state))
    ensures fence.None? && sid in lab.store.sessions && Live(lab.store.sessions[sid].state) ==>
      Effect(cfg, lab, BeginTermination(sid, reason, expired, fence)).1 != []
  {
  }

  /** What the log has told of a session stays told. */
  lemma BornForever(cfg: Config, lab: Lab, cmd: Cmd, sid: SessionId, did: DeviceId)
    requires Sound(lab) && Told(cfg, lab) && Allowed(lab, cmd) && Born(lab.log, sid, did)
    ensures Born(Do(cfg, lab, cmd).log, sid, did)
    ensures var t, t' := SessionAfter(lab.log, sid), SessionAfter(Do(cfg, lab, cmd).log, sid);
      t.Closed? ==> t'.Closed? && t'.failures >= t.failures
  {
    hide Effect, Sound, Told, SessionAfter, DeviceAfter;
    EventLegal(cfg, lab, cmd);
    AfterOne(lab.log, Effect(cfg, lab, cmd).1, 0, sid);
  }

  lemma CleanersStay(cfg: Config, sys: Sys, cmd: Cmd)
    requires Sound(sys.lab) && Told(cfg, sys.lab) && CleanersOk(cfg, sys) && Allowed(sys.lab, cmd)
    ensures forall k | k in sys.proc.cleaners :: CleanerOk(cfg, Do(cfg, sys.lab, cmd).log, sys.proc.cleaners[k])
  {
    hide Do, Sound, Told, SessionAfter;
    forall k | k in sys.proc.cleaners ensures CleanerOk(cfg, Do(cfg, sys.lab, cmd).log, sys.proc.cleaners[k]) {
      BornForever(cfg, sys.lab, cmd, sys.proc.cleaners[k].sid, sys.proc.cleaners[k].did);
    }
  }

  /** A worker left behind by another allocation, or on a device that is gone, gives up without touching any device. */
  lemma StrayCleanerGivesUp(cfg: Config, sys: Sys, k: nat, ok: bool)
    requires SysOk(cfg, sys) && Enabled(cfg, sys, CleanerFinish(k, ok))
    requires var c := sys.proc.cleaners[k];
      c.did in sys.lab.store.devices ==> sys.lab.store.devices[c.did].currentSessionId != Some(c.sid)
    ensures var sys' := Next(cfg, sys, CleanerFinish(k, ok));
      sys'.lab.store.devices == sys.lab.store.devices && sys'.lab.store.avail == sys.lab.store.avail
      && sys'.proc == sys.proc.(cleaners := sys.proc.cleaners - {k}) && sys'.lab.log == sys.lab.log
  {
    hide Sound, Told, TenuresOk, SessionAfter;
    ClosedIsPast(cfg, sys.lab, sys.proc.cleaners[k].sid);
  }

  // ---------------- every step keeps it ----------------

  /** The cleaner that a won termination starts. */
  lemma TerminationSpawns(cfg: Config, lab: Lab, cmd: Cmd)
    requires Sound(lab) && Told(cfg, lab) && cmd.BeginTermination? && Effect(cfg, lab, cmd).1 != []
    ensures cmd.sid in lab.store.sessions
    ensures CleanerOk(cfg, Do(cfg, lab, cmd).log, Cleaner(cmd.sid, lab.store.sessions[cmd.sid].deviceId, false, 0))
  {
    hide Effect, Sound, SessionAfter, DeviceAfter;
    TerminationEvents(cfg, lab, cmd.sid, cmd.reason, cmd.expired, cmd.fence);
    assert SessionTold(cfg, lab, cmd.sid);
    AfterOne(lab.log, Effect(cfg, lab, cmd).1, 0, cmd.sid);
  }

  lemma RetryCounts(cfg: Config, lab: Lab, sid: SessionId, did: DeviceId, ok: bool)
    requires Sound(lab) && Told(cfg, lab) && Allowed(lab, FinishCleanup(sid, did, ok))
    requires SessionAfter(lab.log, sid).Closed?
    ensures var events := Effect(cfg, lab, FinishCleanup(sid, did, ok)).1;
      events != [] && !events[0].Cleaned? ==>
        SessionAfter(lab.log + events, sid).Closed?
        && SessionAfter(lab.log + events, sid).failures == SessionAfter(lab.log, sid).failures + 1
        && (!events[0].CleanupFailed? || !events[0].grounded ==>
          SessionAfter(lab.log, sid).failures + 1 < History.AttemptLimit(cfg))
  {
    hide Effect, Sound, Told, SessionAfter, DeviceAfter;
    EventLegal(cfg, lab, FinishCleanup(sid, did, ok));
    FinishEvents(cfg, lab, sid, did, ok);
    AfterOne(lab.log, Effect(cfg, lab, FinishCleanup(sid, did, ok)).1, 0, sid);
  }

  lemma CleanersStep(cfg: Config, sys: Sys, a: Action)
    requires SysOk(cfg, sys) && Enabled(cfg, sys, a)
    ensures CleanersOk(cfg, Next(cfg, sys, a))
  {
    hide Effect, Sound, Told, TenuresOk, SessionAfter, Allowed, Judge;
    CallsAreAllowed(cfg, sys, a);
    var c := CmdOf(cfg, sys, a);
    if c.Some? { CleanersStay(cfg, sys, c.value); }
    match a
    case AdoptOne(sid, _) => if sid in sys.lab.store.sessions { StoryOfDead(cfg, sys.lab, sid); }
    case RepairCheck(_) =>
      if sys.proc.phase.cursor.dev.currentSessionId.Some? { StoryOfDead(cfg, sys.lab,
        sys.proc.phase.cursor.dev.currentSessionId.value); }
    case CleanerFinish(k, ok) => RetryCounts(cfg, sys.lab, sys.proc.cleaners[k].sid, sys.proc.cleaners[k].did, ok);
    case ReaperAct(_) =>
      if sys.proc.reaper.verdict.Expire?
        && Effect(cfg, sys.lab, c.value).1 != [] { TerminationSpawns(cfg, sys.lab, c.value); }
      else { QuietReaper(cfg, sys); }
    case Terminate(_, _, _, _, _) =>
      if Effect(cfg, sys.lab, c.value).1 != [] { TerminationSpawns(cfg, sys.lab, c.value); }
    case _ =>
  }

  lemma QuietReaper(cfg: Config, sys: Sys)
    requires sys.proc.reaper.Acting? && sys.proc.reaper.since <= sys.lab.clock
    ensures sys.proc.reaper.verdict.Detach? ==>
        Effect(cfg, sys.lab, MarkDisconnected(sys.proc.reaper.sid, sys.proc.reaper.since)).1 == []
    ensures sys.proc.reaper.verdict.Keep? ==> Effect(cfg, sys.lab, Heartbeat(sys.proc.reaper.sid, None)).1 == []
  {
  }

  /** A session whose record is gone or no longer live has its end in the log. */
  lemma StoryOfDead(cfg: Config, lab: Lab, sid: SessionId)
    requires Told(cfg, lab) && (!SessionAfter(lab.log, sid).Unborn? || sid in lab.store.sessions)
    ensures sid in lab.store.sessions ==> Born(lab.log, sid, lab.store.sessions[sid].deviceId)
    ensures (sid in lab.store.sessions ==> !Live(lab.store.sessions[sid].state)) ==> SessionAfter(lab.log, sid).Closed?
  {
    hide SessionAfter;
    assert SessionTold(cfg, lab, sid);
  }

  lemma CursorStep(cfg: Config, sys: Sys, a: Action)
    requires SysOk(cfg, sys) && Enabled(cfg, sys, a)
    ensures CursorOk(Next(cfg, sys, a))
  {
    hide Effect, StoreOk, IdsOk, TenuresOk, SessionAfter, Allowed, Judge;
    CallsAreAllowed(cfg, sys, a);
    var c := CmdOf(cfg, sys, a);
    if c.Some? && CursorSid(sys.proc).Some? {
      BornForever(cfg, sys.lab, c.value, CursorSid(sys.proc).value, sys.proc.phase.cursor.did);
    }
    match a
    case RepairRead(d) => if d in sys.lab.store.devices { BoundIsBorn(cfg, sys.lab, d); }
    case _ =>
  }

  function CursorSid(p: Proc): Option<SessionId> {
    if p.phase.Repairing? && !p.phase.cursor.Between? then p.phase.cursor.dev.currentSessionId else None
  }

  lemma BoundIsBorn(cfg: Config, lab: Lab, d: DeviceId)
    requires Told(cfg, lab)
    ensures d in lab.store.devices && lab.store.devices[d].currentSessionId.Some? ==>
      Born(lab.log, lab.store.devices[d].currentSessionId.value, d)
  {
    hide SessionAfter, DeviceAfter;
    assert DeviceTold(lab, d);
  }

  /** A step makes one allowed script call or leaves the lab alone. */
  lemma LabStep(cfg: Config, sys: Sys, a: Action)
    requires SysOk(cfg, sys) && Enabled(cfg, sys, a)
    ensures var lab' := Next(cfg, sys, a).lab;
      var c := CmdOf(cfg, sys, a);
      (if c.Some? then Allowed(sys.lab, c.value) && lab' == Do(cfg, sys.lab, c.value) else lab' == sys.lab)
      && Sound(lab') && Told(cfg, lab') && TenuresOk(cfg, lab') && sys.lab.clock <= lab'.clock
  {
    CallsAreAllowed(cfg, sys, a);
    hide Effect, Sound, Told, TenuresOk, CleanersOk, CursorOk, Allowed, CmdOf, ProcAfter, Enabled;
    var c := CmdOf(cfg, sys, a);
    if c.Some? {
      Transitions.SoundStep(cfg, sys.lab, c.value);
      ToldStep(cfg, sys.lab, c.value);
      TenureStep(cfg, sys.lab, c.value);
    }
  }

  lemma ProcStep(cfg: Config, sys: Sys, a: Action)
    requires SysOk(cfg, sys) && Enabled(cfg, sys, a)
    ensures var p' := Next(cfg, sys, a).proc;
      (p'.phase.Adopting? ==> p'.phase.since <= sys.lab.clock)
        && (!p'.reaper.Resting? ==> p'.reaper.since <= sys.lab.clock)
  {
    hide Effect, Sound, Told, TenuresOk, CleanersOk, CursorOk, Allowed, Judge, CmdOf, Do;
  }

  /** Every step of the server, a crash included, keeps the invariant. */
  lemma SysStep(cfg: Config, sys: Sys, a: Action)
    requires SysOk(cfg, sys) && Enabled(cfg, sys, a)
    ensures SysOk(cfg, Next(cfg, sys, a))
  {
    CleanersStep(cfg, sys, a);
    CursorStep(cfg, sys, a);
    LabStep(cfg, sys, a);
    ProcStep(cfg, sys, a);
    hide Enabled, Next, Sound, Told, TenuresOk, CleanersOk, CursorOk;
  }

  lemma {:induction false} SysRunOk(cfg: Config, a: Sys, actions: seq<Action>, b: Sys)
    requires SysOk(cfg, a) && SysRuns(cfg, a, actions, b)
    ensures SysOk(cfg, b)
    decreases |actions|
  {
    hide SysOk, Enabled, Next;
    if actions != [] {
      SysStep(cfg, a, actions[0]);
      SysRunOk(cfg, Next(cfg, a, actions[0]), actions[1..], b);
    }
  }

  lemma NewSysOk(cfg: Config, t0: int)
    requires 0 < t0
    ensures SysOk(cfg, NewSys(t0))
  {
  }

  /**
   * Every run of the server, with any number of crashes and restarts, is a run of the lab: each script
   * call it makes is one that the script's callers may make.
   */
  lemma {:induction false} ServerRunsAreLabRuns(cfg: Config, a: Sys, actions: seq<Action>, b: Sys)
      returns (cmds: seq<Cmd>)
    requires SysOk(cfg, a) && SysRuns(cfg, a, actions, b)
    ensures Runs(cfg, a.lab, cmds, b.lab)
    decreases |actions|
  {
    hide SysOk, Enabled, Effect, CmdOf, ProcAfter, Allowed;
    if actions == [] {
      cmds := [];
    } else {
      var mid := Next(cfg, a, actions[0]);
      SysStep(cfg, a, actions[0]);
      CallsAreAllowed(cfg, a, actions[0]);
      var rest := ServerRunsAreLabRuns(cfg, mid, actions[1..], b);
      match CmdOf(cfg, a, actions[0])
      case None => cmds := rest;
      case Some(cmd) =>
        cmds := [cmd] + rest;
        assert cmds[1..] == rest;
    }
  }

  lemma TwoSteps(cfg: Config, sys: Sys, a: Action, mid: Sys, b: Action)
    requires Enabled(cfg, sys, a) && mid == Next(cfg, sys, a) && Enabled(cfg, mid, b)
    ensures SysRuns(cfg, sys, [a, b], Next(cfg, mid, b))
  {
    hide Enabled, Next;
    var two := [a, b];
    assert two[1..] == [b] && [b][1..] == [];
    assert SysRuns(cfg, mid, [b], Next(cfg, mid, b));
  }

  lemma StepThen(cfg: Config, a: Sys, x: Action, mid: Sys, rest: seq<Action>, b: Sys)
    requires Enabled(cfg, a, x) && mid == Next(cfg, a, x) && SysRuns(cfg, mid, rest, b)
    ensures SysRuns(cfg, a, [x] + rest, b)
  {
    hide Enabled, Next;
    assert ([x] + rest)[1..] == rest;
  }

  // ---------------- states that runs reach ----------------

  /** Some run of the server, from an empty store, ends here. */
  ghost predicate Reached(cfg: Config, sys: Sys) {
    exists t0: int, actions :: 0 < t0 && SysRuns(cfg, NewSys(t0), actions, sys)
  }

  lemma {:induction false} OneMoreAction(cfg: Config, a: Sys, actions: seq<Action>, b: Sys, x: Action)
    requires SysRuns(cfg, a, actions, b) && Enabled(cfg, b, x)
    ensures SysRuns(cfg, a, actions + [x], Next(cfg, b, x))
    decreases |actions|
  {
    hide Enabled, Next;
    var all := actions + [x];
    if actions == [] {
      assert all[1..] == [];
    } else {
      OneMoreAction(cfg, Next(cfg, a, actions[0]), actions[1..], b, x);
      assert all[1..] == actions[1..] + [x];
    }
  }

  lemma ReachedStart(cfg: Config)
    ensures Reached(cfg, NewSys(1))
  {
    assert SysRuns(cfg, NewSys(1), [], NewSys(1));
  }

  lemma ReachedNext(cfg: Config, sys: Sys, x: Action, next: Sys)
    requires Reached(cfg, sys) && Enabled(cfg, sys, x) && next == Next(cfg, sys, x)
    ensures Reached(cfg, next)
  {
    hide Enabled, Next;
    var t0: int, actions :| 0 < t0 && SysRuns(cfg, NewSys(t0), actions, sys);
    OneMoreAction(cfg, NewSys(t0), actions, sys, x);
  }
}
