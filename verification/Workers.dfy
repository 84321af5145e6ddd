/** Which device a cleanup worker is really at work on. */
module Workers {
  import opened Domain
  import opened Scripts
  import opened Lab
  import Ownership
  import Transitions
  import opened Stories
  import History
  import opened Tenure
  import opened Server
  import opened ServerInv

  /** The session has been cleaned up after, or its device written off. */
  predicate Settled(log: seq<Event>, sid: SessionId) {
    SessionAfter(log, sid).Closed? && SessionAfter(log, sid).settled
  }

  /** A session keeps its device until it is settled. */
  lemma {:induction false} HeldUntilSettled(cfg: Config, log: seq<Event>, j: nat, sid: SessionId)
    requires LegalLog(cfg, log) && j <= |log|
    ensures var t := SessionAfter(log[..j], sid);
      !t.Unborn? && !Settled(log[..j], sid) ==> DeviceAfter(log[..j], t.did).status == Held(sid)
    decreases j
  {
    if j > 0 {
      HeldUntilSettled(cfg, log, j - 1, sid);
      var t' := SessionAfter(log[..j], sid);
      History.AfterNext(log, j - 1, if t'.Unborn? then 0 else t'.did, sid);
      assert log[..j][..j - 1] == log[..j - 1];
      assert LegalEvent(cfg, log[..j - 1], log[j - 1]);
    }
  }

  /** The worker's device is being cleaned, and for the worker's session. */
  predicate Rightful(s: Store, c: Cleaner) {
    c.did in s.devices && s.devices[c.did].state == Cleaning && s.devices[c.did].currentSessionId == Some(c.sid)
  }

  /** A worker is at work on a device of its own session exactly until some worker has settled that session. */
  lemma RightfulUntilSettled(cfg: Config, sys: Sys, k: nat)
    requires SysOk(cfg, sys) && k in sys.proc.cleaners
    ensures Rightful(sys.lab.store, sys.proc.cleaners[k]) <==> !Settled(sys.lab.log, sys.proc.cleaners[k].sid)
  {
    hide SessionAfter, DeviceAfter, LegalLog, Ownership.LeasesOk;
    var c, s := sys.proc.cleaners[k], sys.lab.store;
    assert CleanerOk(cfg, sys.lab.log, c);
    assert DeviceTold(sys.lab, c.did);
    assert sys.lab.log[..|sys.lab.log|] == sys.lab.log;
    HeldUntilSettled(cfg, sys.lab.log, |sys.lab.log|, c.sid);
  }

  // ---------------- one worker to a session ----------------

  ghost predicate OneEach(sys: Sys) {
    && (forall k, m | k in sys.proc.cleaners && m in sys.proc.cleaners
      && sys.proc.cleaners[k].sid == sys.proc.cleaners[m].sid :: k == m)
    && (forall k | k in sys.proc.cleaners :: !Settled(sys.lab.log, sys.proc.cleaners[k].sid))
  }

  /** The restart has started no worker yet for a session that it has still to adopt. */
  ghost predicate Unstarted(p: Proc) {
    match p.phase
    case Down => p.cleaners == map[]
    case Pruning(_, _) => p.cleaners == map[]
    case Registering(_) => p.cleaners == map[]
    case Adopting(_, unadopted) => forall k | k in p.cleaners :: p.cleaners[k].sid !in unadopted
    case _ => true
  }

  /** The session for which a step starts a worker. */
  function Started(sys: Sys, a: Action, events: seq<Event>): Option<SessionId> {
    var s, p := sys.lab.store, sys.proc;
    match a
    case AdoptOne(sid, _) =>
      if p.phase.Adopting? && sid in s.sessions
         && (s.sessions[sid].state == Ending || s.sessions[sid].state == Expired || s.sessions[sid].state == CleaningUp)
      then Some(sid) else None
    case RepairCheck(_) =>
      if !p.phase.Repairing? || !p.phase.cursor.HaveDevice? then None else
      var bound := p.phase.cursor.dev.currentSessionId;
      if bound.Some? && (bound.value in s.sessions ==> !Nonterminal(s.sessions[bound.value].state)) then bound else None
    case ReaperAct(_) => if p.reaper.Acting? && events != []
      && p.reaper.sid in s.sessions then Some(p.reaper.sid) else None
    case Terminate(sid, _, _, _, _) => if events != [] && sid in s.sessions then Some(sid) else None
    case _ => None
  }

  function EventsOf(log: seq<Event>, log': seq<Event>): seq<Event> {
    if log <= log' then log'[|log|..] else []
  }

  /** Workers come only by being started; the rest of them stay with their sessions, or leave. */
  ghost predicate WorkersMoved(sys: Sys, a: Action, events: seq<Event>, p': Proc) {
    forall k | k in p'.cleaners ::
      var c := p'.cleaners[k];
      if k in sys.proc.cleaners then c.sid == sys.proc.cleaners[k].sid && c.did == sys.proc.cleaners[k].did
      else Started(sys, a, events) == Some(c.sid) && (forall m | m in p'.cleaners && m !in sys.proc.cleaners :: m == k)
  }

  lemma WorkersMove(cfg: Config, sys: Sys, a: Action)
    requires SysOk(cfg, sys) && Enabled(cfg, sys, a)
    ensures WorkersMoved(sys, a, EventsOf(sys.lab.log, Next(cfg, sys, a).lab.log), Next(cfg, sys, a).proc)
  {
    hide Effect, Ownership.Sound, Told, TenuresOk, CleanersOk, CursorOk, Allowed, ProcAfter, Started, WorkersMoved;
    CallsAreAllowed(cfg, sys, a);
    var c := CmdOf(cfg, sys, a);
    var events := if c.Some? then Effect(cfg, sys.lab, c.value).1 else [];
    assert (sys.lab.log + events)[|sys.lab.log|..] == events;
    assert Next(cfg, sys, a).lab.log == sys.lab.log + events;
    ProcMoves(cfg, sys, a, events);
  }

  lemma ProcMoves(cfg: Config, sys: Sys, a: Action, events: seq<Event>)
    requires Enabled(cfg, sys, a)
    ensures WorkersMoved(sys, a, events, ProcAfter(cfg, sys, a, events))
  {
    hide Judge, Allowed;
  }

  /** And the one that a step starts is in place after it. */
  lemma StartedIsThere(cfg: Config, sys: Sys, a: Action)
    requires SysOk(cfg, sys) && Enabled(cfg, sys, a)
    requires Started(sys, a, EventsOf(sys.lab.log, Next(cfg, sys, a).lab.log)).Some?
    ensures a.AdoptOne? || a.RepairCheck? || a.ReaperAct? || a.Terminate?
    ensures a.worker !in sys.proc.cleaners && a.worker in Next(cfg, sys, a).proc.cleaners
    ensures Some(Next(cfg, sys, a).proc.cleaners[a.worker].sid) == Started(sys, a,
        EventsOf(sys.lab.log, Next(cfg, sys, a).lab.log))
  {
    hide Effect, Ownership.Sound, Told, TenuresOk, CleanersOk, CursorOk, Allowed, Judge;
    CallsAreAllowed(cfg, sys, a);
    var c := CmdOf(cfg, sys, a);
    if c.Some? {
      var events := Effect(cfg, sys.lab, c.value).1;
      assert (sys.lab.log + events)[|sys.lab.log|..] == events;
    }
  }

  /** A session that is being ended or adopted has no worker yet and is not settled. */
  lemma StartedFresh(cfg: Config, sys: Sys, a: Action)
    requires SysOk(cfg, sys) && Unstarted(sys.proc) && Enabled(cfg, sys, a) && !a.RepairCheck?
    requires Started(sys, a, EventsOf(sys.lab.log, Next(cfg, sys, a).lab.log)).Some?
    ensures var x := Started(sys, a, EventsOf(sys.lab.log, Next(cfg, sys, a).lab.log)).value;
      !Settled(Next(cfg, sys, a).lab.log, x) && forall k | k in sys.proc.cleaners :: sys.proc.cleaners[k].sid != x
  {
    hide Effect, Ownership.Sound, Told, TenuresOk, Allowed, Judge, SessionAfter;
    CallsAreAllowed(cfg, sys, a);
    var c := CmdOf(cfg, sys, a);
    if c.Some? {
      var events := Effect(cfg, sys.lab, c.value).1;
      assert (sys.lab.log + events)[|sys.lab.log|..] == events;
    }
    match a
    case AdoptOne(sid, _) => AdoptedUnsettled(cfg, sys, sid); assert c.None?;
    case Terminate(sid, reason, expired, fence, _) => EndedUnsettled(cfg, sys, c.value);
    case ReaperAct(_) =>
      QuietReaper(cfg, sys);
      EndedUnsettled(cfg, sys, c.value);
    case _ =>
  }

  lemma AdoptedUnsettled(cfg: Config, sys: Sys, sid: SessionId)
    requires SysOk(cfg, sys) && sid in sys.lab.store.sessions
    requires var st := sys.lab.store.sessions[sid].state; st == Ending || st == Expired || st == CleaningUp
    ensures !Settled(sys.lab.log, sid)
  {
    hide SessionAfter, DeviceAfter, LegalLog, TenuresOk, CleanersOk;
    var s := sys.lab.store;
    assert Ownership.SessionOk(s.sessions, s.devices, s.fences, s.listed, sid);
    assert DeviceTold(sys.lab, s.sessions[sid].deviceId);
  }

  lemma EndedUnsettled(cfg: Config, sys: Sys, cmd: Cmd)
    requires SysOk(cfg, sys) && cmd.BeginTermination? && Effect(cfg, sys.lab, cmd).1 != []
    ensures !Settled(Do(cfg, sys.lab, cmd).log, cmd.sid)
    ensures forall k | k in sys.proc.cleaners :: sys.proc.cleaners[k].sid != cmd.sid
  {
    hide Effect, Ownership.Sound, SessionAfter, DeviceAfter, TenuresOk, CursorOk;
    TerminationEvents(cfg, sys.lab, cmd.sid, cmd.reason, cmd.expired, cmd.fence);
    assert SessionTold(cfg, sys.lab, cmd.sid);
    AfterOne(sys.lab.log, Effect(cfg, sys.lab, cmd).1, 0, cmd.sid);
    forall k | k in sys.proc.cleaners ensures sys.proc.cleaners[k].sid != cmd.sid {
      assert CleanerOk(cfg, sys.lab.log, sys.proc.cleaners[k]);
    }
  }

  /** A session is settled only by a worker of its own, which then leaves. */
  lemma SettledByOwn(cfg: Config, sys: Sys, a: Action, sid: SessionId)
    requires SysOk(cfg, sys) && Enabled(cfg, sys, a)
    requires !Settled(sys.lab.log, sid) && Settled(Next(cfg, sys, a).lab.log, sid)
    ensures a.CleanerFinish? && a.worker in sys.proc.cleaners && sys.proc.cleaners[a.worker].sid == sid
    ensures a.worker !in Next(cfg, sys, a).proc.cleaners
  {
    hide Effect, Ownership.Sound, Told, TenuresOk, CleanersOk, CursorOk, Allowed, Judge, SessionAfter;
    CallsAreAllowed(cfg, sys, a);
    var c := CmdOf(cfg, sys, a);
    if c.Some? {
      Transitions.EventKinds(cfg, sys.lab, c.value);
      AfterOne(sys.lab.log, Effect(cfg, sys.lab, c.value).1, 0, sid);
    }
  }

  lemma UnstartedStep(cfg: Config, sys: Sys, a: Action)
    requires SysOk(cfg, sys) && Unstarted(sys.proc) && Enabled(cfg, sys, a)
    ensures Unstarted(Next(cfg, sys, a).proc)
  {
    hide Effect, Ownership.Sound, Told, TenuresOk, CleanersOk, CursorOk, Allowed, ProcAfter, Do, Enabled, Unstarted;
    CallsAreAllowed(cfg, sys, a);
    var c := CmdOf(cfg, sys, a);
    ProcUnstarted(cfg, sys, a, if c.Some? then Effect(cfg, sys.lab, c.value).1 else []);
  }

  lemma ProcUnstarted(cfg: Config, sys: Sys, a: Action, events: seq<Event>)
    requires Unstarted(sys.proc) && Enabled(cfg, sys, a)
    ensures Unstarted(ProcAfter(cfg, sys, a, events))
  {
    hide Judge, Allowed;
  }

  /**
   * What the restart's check leaves out: it is about to start a worker for the session that the record it
   * read names, although the device is no longer bound to that session or a worker for it is there already.
   */
  ghost predicate Doubles(sys: Sys, a: Action) {
    a.RepairCheck? && Started(sys, a, []).Some?
    && (Settled(sys.lab.log, Started(sys, a, []).value)
        || exists k :: k in sys.proc.cleaners && sys.proc.cleaners[k].sid == Started(sys, a, []).value)
  }

  /** Only such a step gives a session a second worker, or a worker a device that is not its own. */
  lemma DoublingStep(cfg: Config, sys: Sys, a: Action)
    requires SysOk(cfg, sys) && OneEach(sys) && Unstarted(sys.proc) && Enabled(cfg, sys, a)
    ensures OneEach(Next(cfg, sys, a)) <==> !Doubles(sys, a)
  {
    hide SysOk, Enabled, Next, Settled, Unstarted, Started;
    var next := Next(cfg, sys, a);
    var x := Started(sys, a, EventsOf(sys.lab.log, next.lab.log));
    WorkersMove(cfg, sys, a);
    if x.Some? { StartedIsThere(cfg, sys, a); }
    if a.RepairCheck? { CheckIsQuiet(cfg, sys, a); }
    if Doubles(sys, a) {
      if OneEach(next) {
        assert !Settled(next.lab.log, next.proc.cleaners[a.worker].sid);
        var k :| k in sys.proc.cleaners && sys.proc.cleaners[k].sid == x.value;
        CheckKeeps(cfg, sys, a, k);
      }
    } else {
      if x.Some? && !a.RepairCheck? { StartedFresh(cfg, sys, a); }
      forall k | k in next.proc.cleaners ensures !Settled(next.lab.log, next.proc.cleaners[k].sid) {
        if k in sys.proc.cleaners && Settled(next.lab.log, next.proc.cleaners[k].sid) {
          SettledByOwn(cfg, sys, a, sys.proc.cleaners[k].sid);
        }
      }
    }
  }

  lemma CheckIsQuiet(cfg: Config, sys: Sys, a: Action)
    requires SysOk(cfg, sys) && Enabled(cfg, sys, a) && a.RepairCheck?
    ensures Next(cfg, sys, a).lab == sys.lab
    ensures Started(sys, a, []) == Started(sys, a, EventsOf(sys.lab.log, Next(cfg, sys, a).lab.log))
  {
  }

  lemma CheckKeeps(cfg: Config, sys: Sys, a: Action, k: nat)
    requires SysOk(cfg, sys) && Enabled(cfg, sys, a) && a.RepairCheck? && k in sys.proc.cleaners
    ensures k in Next(cfg, sys, a).proc.cleaners && Next(cfg, sys, a).proc.cleaners[k] == sys.proc.cleaners[k]
    ensures Next(cfg, sys, a).proc.phase.Repairing?
  {
  }
}
