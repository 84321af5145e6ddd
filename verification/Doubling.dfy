/** When a restart starts a second cleanup worker for a session. */
module Doubling {
  import opened Domain
  import opened Scripts
  import opened Lab
  import Ownership
  import Transitions
  import opened Stories
  import opened Tenure
  import opened Server
  import opened ServerInv
  import opened Workers

  ghost predicate HasWorker(p: Proc, sid: SessionId) {
    exists k :: k in p.cleaners && p.cleaners[k].sid == sid
  }

  /** The repair loop is past its check of device `d`. */
  predicate IsChecked(phase: Phase, d: DeviceId)
    requires phase.Repairing?
  {
    d !in phase.unrepaired || (phase.cursor.Checked? && phase.cursor.did == d)
  }

  /** A session that is over has been cleaned up after, or a worker is seeing to it. */
  ghost predicate Attended(sys: Sys, sid: SessionId) {
    SessionAfter(sys.lab.log, sid).Closed? ==> Settled(sys.lab.log, sid) || HasWorker(sys.proc, sid)
  }

  /** What the list of sessions that a restart has read means for what it has done so far. */
  ghost predicate Tracks(read: set<SessionId>, sys: Sys) {
    var p := sys.proc;
    match p.phase
    case Adopting(_, unadopted) =>
      unadopted <= read && unadopted <= sys.lab.store.listed
      && (forall sid | sid in read - unadopted :: Attended(sys, sid))
      && (forall k | k in p.cleaners :: p.cleaners[k].sid in read)
    case Repairing(unrepaired, cursor) =>
      (forall sid | sid in read :: Attended(sys, sid))
      && (forall k | k in p.cleaners :: p.cleaners[k].sid in read || IsChecked(p.phase, p.cleaners[k].did))
      && (cursor.HaveDevice? ==>
            cursor.did in unrepaired
            && (cursor.dev.currentSessionId.Some? && cursor.dev.currentSessionId.value !in read ==>
                  !Settled(sys.lab.log, cursor.dev.currentSessionId.value)))
    case _ => true
  }

  predicate Restarts(phase: Phase) {
    phase.Adopting? || phase.Repairing?
  }

  // ---------------- sessions during a restart ----------------

  lemma SettledStays(cfg: Config, sys: Sys, a: Action, sid: SessionId)
    requires SysOk(cfg, sys) && Enabled(cfg, sys, a) && Settled(sys.lab.log, sid)
    ensures Settled(Next(cfg, sys, a).lab.log, sid)
  {
    hide Effect, Ownership.Sound, Told, TenuresOk, CleanersOk, CursorOk, Allowed, ProcAfter, SessionAfter, DeviceAfter;
    CallsAreAllowed(cfg, sys, a);
    var c := CmdOf(cfg, sys, a);
    if c.Some? {
      EventLegal(cfg, sys.lab, c.value);
      AfterOne(sys.lab.log, Effect(cfg, sys.lab, c.value).1, 0, sid);
    }
  }

  /** No session is terminated while the server restarts. */
  lemma ClosedBefore(cfg: Config, sys: Sys, a: Action, sid: SessionId)
    requires SysOk(cfg, sys) && Enabled(cfg, sys, a) && Restarts(sys.proc.phase)
    requires SessionAfter(Next(cfg, sys, a).lab.log, sid).Closed?
    ensures SessionAfter(sys.lab.log, sid).Closed?
  {
    hide Effect, Ownership.Sound, Told, TenuresOk, CleanersOk, CursorOk, Allowed, ProcAfter, SessionAfter, Judge;
    CallsAreAllowed(cfg, sys, a);
    var c := CmdOf(cfg, sys, a);
    if c.Some? {
      Transitions.EventKinds(cfg, sys.lab, c.value);
      AfterOne(sys.lab.log, Effect(cfg, sys.lab, c.value).1, 0, sid);
    }
  }

  /** A worker leaves only when its session is settled. */
  lemma WorkerStaysUntilSettled(cfg: Config, sys: Sys, a: Action, k: nat)
    requires SysOk(cfg, sys) && Enabled(cfg, sys, a) && !a.Crash? && k in sys.proc.cleaners
    ensures Settled(Next(cfg, sys, a).lab.log, sys.proc.cleaners[k].sid)
      || (k in Next(cfg, sys, a).proc.cleaners && Next(cfg, sys, a).proc.cleaners[k].sid == sys.proc.cleaners[k].sid)
  {
    var c := sys.proc.cleaners[k];
    if Settled(sys.lab.log, c.sid) {
      SettledStays(cfg, sys, a, c.sid);
    } else {
      RightfulUntilSettled(cfg, sys, k);
      if a.CleanerFinish? && a.worker == k {
        FinishedOrStays(cfg, sys, k, a.ok);
      } else {
        OthersStay(cfg, sys, a, k);
      }
    }
  }

  lemma OthersStay(cfg: Config, sys: Sys, a: Action, k: nat)
    requires SysOk(cfg, sys) && Enabled(cfg, sys, a) && !a.Crash? && k in sys.proc.cleaners
    requires Rightful(sys.lab.store, sys.proc.cleaners[k]) && !(a.CleanerFinish? && a.worker == k)
    ensures k in Next(cfg, sys, a).proc.cleaners && Next(cfg, sys, a).proc.cleaners[k].sid == sys.proc.cleaners[k].sid
  {
    hide Effect, Ownership.Sound, Told, TenuresOk, CleanersOk, CursorOk, Allowed, Judge, Do;
    CallsAreAllowed(cfg, sys, a);
  }

  lemma FinishedOrStays(cfg: Config, sys: Sys, k: nat, ok: bool)
    requires SysOk(cfg, sys) && Enabled(cfg, sys, CleanerFinish(k, ok)) && Rightful(sys.lab.store, sys.proc.cleaners[k])
    ensures var next := Next(cfg, sys, CleanerFinish(k, ok));
      Settled(next.lab.log, sys.proc.cleaners[k].sid)
      || (k in next.proc.cleaners && next.proc.cleaners[k].sid == sys.proc.cleaners[k].sid)
  {
    hide Effect, Ownership.Sound, Told, TenuresOk, CursorOk, Allowed, Judge, SessionAfter;
    CallsAreAllowed(cfg, sys, CleanerFinish(k, ok));
    var c := sys.proc.cleaners[k];
    assert CleanerOk(cfg, sys.lab.log, c);
    FinishEvents(cfg, sys.lab, c.sid, c.did, ok);
    AfterOne(sys.lab.log, Effect(cfg, sys.lab, FinishCleanup(c.sid, c.did, ok)).1, 0, c.sid);
  }

  lemma AttendedStays(cfg: Config, sys: Sys, a: Action, sid: SessionId)
    requires SysOk(cfg, sys) && Enabled(cfg, sys, a) && !a.Crash? && Restarts(sys.proc.phase) && Attended(sys, sid)
    ensures Attended(Next(cfg, sys, a), sid)
  {
    hide SysOk, Enabled, Next, Settled;
    if SessionAfter(Next(cfg, sys, a).lab.log, sid).Closed? {
      ClosedBefore(cfg, sys, a, sid);
      if Settled(sys.lab.log, sid) {
        SettledStays(cfg, sys, a, sid);
      } else {
        var k :| k in sys.proc.cleaners && sys.proc.cleaners[k].sid == sid;
        WorkerStaysUntilSettled(cfg, sys, a, k);
      }
    }
  }

  // ---------------- one step of a restart ----------------

  /** A listed session that is over is adopted with a worker. */
  lemma AdoptionAttends(cfg: Config, sys: Sys, sid: SessionId, k: nat)
    requires SysOk(cfg, sys) && Enabled(cfg, sys, AdoptOne(sid, k)) && sid in sys.lab.store.listed
    ensures Attended(Next(cfg, sys, AdoptOne(sid, k)), sid)
  {
    hide SessionAfter, DeviceAfter, LegalLog, TenuresOk, CleanersOk, CursorOk, Settled, Effect;
    CallsAreAllowed(cfg, sys, AdoptOne(sid, k));
    var s, next := sys.lab.store, Next(cfg, sys, AdoptOne(sid, k));
    assert Ownership.SessionOk(s.sessions, s.devices, s.fences, s.listed, sid);
    if SessionAfter(next.lab.log, sid).Closed? {
      ClosedBefore(cfg, sys, AdoptOne(sid, k), sid);
      assert SessionTold(cfg, sys.lab, sid);
      assert k in next.proc.cleaners && next.proc.cleaners[k].sid == sid;
    }
  }

  /** A record read names a session that is not settled. */
  lemma ReadIsUnsettled(cfg: Config, sys: Sys, d: DeviceId)
    requires SysOk(cfg, sys) && d in sys.lab.store.devices && sys.lab.store.devices[d].currentSessionId.Some?
    ensures !Settled(sys.lab.log, sys.lab.store.devices[d].currentSessionId.value)
  {
    hide SessionAfter, DeviceAfter, LegalLog, TenuresOk, CleanersOk;
    var s := sys.lab.store;
    assert Ownership.DeviceOk(s.sessions, s.devices, s.fences, d);
    assert DeviceTold(sys.lab, d);
  }

  /** The session that the loop's record names has no worker, if it is not on the list. */
  lemma HeldHasNone(cfg: Config, read: set<SessionId>, sys: Sys)
    requires SysOk(cfg, sys) && Tracks(read, sys) && sys.proc.phase.Repairing? && sys.proc.phase.cursor.HaveDevice?
    requires sys.proc.phase.cursor.dev.currentSessionId.Some?
    requires sys.proc.phase.cursor.dev.currentSessionId.value !in read
    ensures !HasWorker(sys.proc, sys.proc.phase.cursor.dev.currentSessionId.value)
  {
    hide Ownership.Sound, Told, TenuresOk, Settled, SessionAfter, Attended;
    var x := sys.proc.phase.cursor.dev.currentSessionId.value;
    forall k | k in sys.proc.cleaners ensures sys.proc.cleaners[k].sid != x {
      assert CleanerOk(cfg, sys.lab.log, sys.proc.cleaners[k]);
    }
  }

  lemma HeldStaysUnsettled(cfg: Config, read: set<SessionId>, sys: Sys, a: Action)
    requires SysOk(cfg, sys) && Enabled(cfg, sys, a) && Tracks(read, sys)
    requires sys.proc.phase.Repairing? && sys.proc.phase.cursor.HaveDevice?
    requires sys.proc.phase.cursor.dev.currentSessionId.Some?
    requires sys.proc.phase.cursor.dev.currentSessionId.value !in read
    ensures !Settled(Next(cfg, sys, a).lab.log, sys.proc.phase.cursor.dev.currentSessionId.value)
  {
    hide SysOk, Enabled, Next, Settled, Attended;
    var x := sys.proc.phase.cursor.dev.currentSessionId.value;
    HeldHasNone(cfg, read, sys);
    if Settled(Next(cfg, sys, a).lab.log, x) { SettledByOwn(cfg, sys, a, x); }
  }

  /** How a step moves the restart. */
  lemma PhaseMoves(cfg: Config, sys: Sys, a: Action)
    requires SysOk(cfg, sys) && Enabled(cfg, sys, a) && !a.RegisterDone?
    ensures var ph, ph' := sys.proc.phase, Next(cfg, sys, a).proc.phase;
      (ph'.Adopting? ==>
         ph.Adopting? && ph'.unadopted == if a.AdoptOne? then ph.unadopted - {a.sid} else ph.unadopted)
      && (ph'.Repairing? ==>
            (ph.Repairing? || (ph.Adopting? && a.AdoptDone? && ph.unadopted == {} && ph'.cursor == Between)))
      && (ph'.Repairing? && ph.Repairing? ==>
            (ph' == ph)
            || (a.RepairRead? && ph.cursor == Between && a.did in ph.unrepaired && a.did !in sys.lab.store.devices
                && ph' == Repairing(ph.unrepaired - {a.did}, Between))
            || (a.RepairRead? && ph.cursor == Between && a.did in ph.unrepaired && a.did in sys.lab.store.devices
                && ph' == Repairing(ph.unrepaired, HaveDevice(a.did, sys.lab.store.devices[a.did]))
                && Next(cfg, sys, a).lab == sys.lab)
            || (a.RepairCheck? && ph.cursor.HaveDevice?
                && ph' == Repairing(ph.unrepaired, Checked(ph.cursor.did, ph.cursor.dev)))
            || (a.RepairWrite? && ph.cursor.Checked? && ph' == Repairing(ph.unrepaired - {ph.cursor.did}, Between)))
      && ((ph'.Adopting? || ph'.Repairing?) ==> !a.Crash?)
  {
    hide Effect, Ownership.Sound, Told, TenuresOk, CleanersOk, CursorOk, Allowed, Judge, Do;
    CallsAreAllowed(cfg, sys, a);
  }

  /** Only cleanup takes a session off the list, and only its own. */
  lemma ListedMoves(cfg: Config, lab: Lab, cmd: Cmd, sid: SessionId)
    requires Allowed(lab, cmd) && sid in lab.store.listed && !(cmd.FinishCleanup? && cmd.sid == sid)
    ensures sid in Do(cfg, lab, cmd).store.listed
  {
    match cmd
    case FinishCleanup(x, did, ok) => CleanupLists(cfg, lab, x, did, ok, sid);
    case Allocate(popped, x, h) => AllocationLists(cfg, lab, popped, x, h, sid);
    case BeginTermination(_, _, _, _) => RecordsList(cfg, lab, cmd, sid);
    case Claim(_, _, _) => RecordsList(cfg, lab, cmd, sid);
    case Reconnect(_, _) => RecordsList(cfg, lab, cmd, sid);
    case HealthUpdate(did, healthy) => HealthLists(cfg, lab, did, healthy);
    case JoinQueue(c, h, rid) => JoinLists(cfg, lab, c, h, rid);
    case _ =>
  }

  lemma CleanupLists(cfg: Config, lab: Lab, x: SessionId, did: DeviceId, ok: bool, sid: SessionId)
    requires Allowed(lab, FinishCleanup(x, did, ok)) && sid in lab.store.listed && x != sid
    ensures sid in Do(cfg, lab, FinishCleanup(x, did, ok)).store.listed
  {
    FinishedList(lab.store, x, did, ok, lab.clock, cfg);
    hide Scripts.FinishCleanup;
  }

  lemma FinishedList(s: Store, x: SessionId, did: DeviceId, ok: bool, now: int, cfg: Config)
    ensures Scripts.FinishCleanup(s, x, did, ok, now, cfg).0.listed == s.listed - {x}
  {
  }

  lemma AllocationLists(cfg: Config, lab: Lab, popped: Option<DeviceId>, x: SessionId, h: TokenHash, sid: SessionId)
    requires Allowed(lab, Allocate(popped, x, h)) && sid in lab.store.listed
    ensures sid in Do(cfg, lab, Allocate(popped, x, h)).store.listed
  {
    AllocatedList(lab.store, popped, x, h, lab.clock, cfg);
    hide Scripts.Allocate;
  }

  lemma AllocatedList(s: Store, popped: Option<DeviceId>, x: SessionId, h: TokenHash, now: int, cfg: Config)
    requires PopOf(s.avail, popped)
    ensures s.listed <= Scripts.Allocate(s, popped, x, h, now, cfg).0.listed
  {
  }

  lemma RecordsList(cfg: Config, lab: Lab, cmd: Cmd, sid: SessionId)
    requires Allowed(lab, cmd) && sid in lab.store.listed && (cmd.BeginTermination? || cmd.Claim? || cmd.Reconnect?)
    ensures sid in Do(cfg, lab, cmd).store.listed
  {
  }

  lemma HealthLists(cfg: Config, lab: Lab, did: DeviceId, healthy: bool)
    ensures Do(cfg, lab, HealthUpdate(did, healthy)).store.listed == lab.store.listed
  {
  }

  lemma JoinLists(cfg: Config, lab: Lab, c: ClientId, h: TokenHash, rid: RequestId)
    requires Allowed(lab, JoinQueue(c, h, rid))
    ensures Do(cfg, lab, JoinQueue(c, h, rid)).store.listed == lab.store.listed
  {
  }

  lemma UnadoptedListed(cfg: Config, read: set<SessionId>, sys: Sys, a: Action, sid: SessionId)
    requires SysOk(cfg, sys) && Enabled(cfg, sys, a) && Tracks(read, sys) && Unstarted(sys.proc)
    requires sys.proc.phase.Adopting? && sid in sys.proc.phase.unadopted
    ensures sid in Next(cfg, sys, a).lab.store.listed
  {
    hide Effect, Ownership.Sound, Told, TenuresOk, CleanersOk, CursorOk, Allowed, ProcAfter, Attended, Do;
    CallsAreAllowed(cfg, sys, a);
    var c := CmdOf(cfg, sys, a);
    if c.Some? { ListedMoves(cfg, sys.lab, c.value, sid); }
  }

  /** During a restart only adoption and the repair loop's check start workers. */
  lemma StartsInRestart(cfg: Config, sys: Sys, a: Action)
    requires Enabled(cfg, sys, a) && Restarts(sys.proc.phase)
    ensures var x := Started(sys, a, EventsOf(sys.lab.log, Next(cfg, sys, a).lab.log));
      x.Some? ==> (a.AdoptOne? && x == Some(a.sid) && a.sid in sys.proc.phase.unadopted)
                  || (a.RepairCheck? && sys.proc.phase.Repairing? && x == sys.proc.phase.cursor.dev.currentSessionId)
  {
    hide Next;
  }

  lemma AdoptingStep(cfg: Config, read: set<SessionId>, sys: Sys, a: Action)
    requires SysOk(cfg, sys) && Unstarted(sys.proc) && Enabled(cfg, sys, a) && Tracks(read, sys) && !a.RegisterDone?
    requires Next(cfg, sys, a).proc.phase.Adopting?
    ensures Tracks(read, Next(cfg, sys, a))
  {
    PhaseMoves(cfg, sys, a);
    WorkersMove(cfg, sys, a);
    StartsInRestart(cfg, sys, a);
    hide SysOk, Enabled, Next, Attended, Started;
    var next := Next(cfg, sys, a);
    forall sid | sid in next.proc.phase.unadopted ensures sid in next.lab.store.listed {
      UnadoptedListed(cfg, read, sys, a, sid);
    }
    forall sid | sid in read - next.proc.phase.unadopted ensures Attended(next, sid) {
      if sid in sys.proc.phase.unadopted {
        AdoptionAttends(cfg, sys, sid, a.worker);
      } else {
        AttendedStays(cfg, sys, a, sid);
      }
    }
  }

  lemma RepairingStep(cfg: Config, read: set<SessionId>, sys: Sys, a: Action)
    requires SysOk(cfg, sys) && Unstarted(sys.proc) && Enabled(cfg, sys, a) && Tracks(read, sys) && !a.RegisterDone?
    requires Next(cfg, sys, a).proc.phase.Repairing?
    ensures Tracks(read, Next(cfg, sys, a))
  {
    PhaseMoves(cfg, sys, a);
    WorkersMove(cfg, sys, a);
    StartsInRestart(cfg, sys, a);
    var next := Next(cfg, sys, a);
    var ph, cursor := sys.proc.phase, next.proc.phase.cursor;
    if cursor.HaveDevice? && cursor.dev.currentSessionId.Some? && cursor.dev.currentSessionId.value !in read {
      if ph == next.proc.phase {
        HeldStaysUnsettled(cfg, read, sys, a);
      } else {
        ReadIsUnsettled(cfg, sys, a.did);
      }
    }
    if a.RepairCheck? { NewWorkerIsOfCursor(cfg, sys, a); }
    hide SysOk, Enabled, Next, Attended, Started, Settled;
    forall sid | sid in read ensures Attended(next, sid) { AttendedStays(cfg, sys, a, sid); }
  }

  lemma NewWorkerIsOfCursor(cfg: Config, sys: Sys, a: Action)
    requires Enabled(cfg, sys, a) && a.RepairCheck?
    ensures a.worker in Next(cfg, sys, a).proc.cleaners && a.worker !in sys.proc.cleaners ==>
      Next(cfg, sys, a).proc.cleaners[a.worker].did == sys.proc.phase.cursor.did
    ensures forall k | k in Next(cfg, sys, a).proc.cleaners && k !in sys.proc.cleaners :: k == a.worker
  {
  }

  lemma TracksStep(cfg: Config, read: set<SessionId>, sys: Sys, a: Action)
    requires SysOk(cfg, sys) && Unstarted(sys.proc) && Enabled(cfg, sys, a) && Tracks(read, sys)
    ensures Tracks(ReadBy(sys, a, read), Next(cfg, sys, a))
  {
    if a.RegisterDone? {
      ListIsRead(cfg, sys);
    } else if Next(cfg, sys, a).proc.phase.Adopting? {
      AdoptingStep(cfg, read, sys, a);
    } else if Next(cfg, sys, a).proc.phase.Repairing? {
      RepairingStep(cfg, read, sys, a);
    }
    hide SysOk, Enabled, Next;
  }

  lemma ListIsRead(cfg: Config, sys: Sys)
    requires Unstarted(sys.proc) && Enabled(cfg, sys, RegisterDone)
    ensures Tracks(sys.lab.store.listed, Next(cfg, sys, RegisterDone))
  {
  }

  // ---------------- which check doubles a worker ----------------

  /** The list of sessions that the latest restart has read. */
  function ReadBy(sys: Sys, a: Action, read: set<SessionId>): set<SessionId> {
    if a.RegisterDone? then sys.lab.store.listed else read
  }

  /** The repair loop's check starts a worker for a session on that list. */
  predicate StartsListed(sys: Sys, a: Action, read: set<SessionId>) {
    a.RepairCheck? && Started(sys, a, []).Some? && Started(sys, a, []).value in read
  }

  lemma DoublesListed(cfg: Config, read: set<SessionId>, sys: Sys, a: Action)
    requires SysOk(cfg, sys) && Tracks(read, sys) && Enabled(cfg, sys, a)
    ensures Doubles(sys, a) <==> StartsListed(sys, a, read)
  {
    if a.RepairCheck? && Started(sys, a, []).Some? {
      var x := Started(sys, a, []).value;
      StartedIsClosed(cfg, sys, a);
      if x !in read { HeldHasNone(cfg, read, sys); }
      assert HasWorker(sys.proc, x) <==> exists k :: k in sys.proc.cleaners && sys.proc.cleaners[k].sid == x;
      hide SysOk, Settled, Enabled, SessionAfter;
      assert x in read ==> Attended(sys, x);
    }
  }

  lemma StartedIsClosed(cfg: Config, sys: Sys, a: Action)
    requires SysOk(cfg, sys) && Enabled(cfg, sys, a) && a.RepairCheck? && Started(sys, a, []).Some?
    ensures SessionAfter(sys.lab.log, Started(sys, a, []).value).Closed?
    ensures sys.proc.phase.Repairing? && sys.proc.phase.cursor.HaveDevice?
    ensures Started(sys, a, []) == sys.proc.phase.cursor.dev.currentSessionId
  {
    hide Ownership.Sound, Told, SessionAfter, TenuresOk, CleanersOk;
    StoryOfDead(cfg, sys.lab, Started(sys, a, []).value);
  }

  lemma {:induction false} TracksRun(cfg: Config, a: Sys, actions: seq<Action>, b: Sys, read: set<SessionId>)
    requires SysOk(cfg, a) && Unstarted(a.proc) && Tracks(read, a) && SysRuns(cfg, a, actions, b)
    requires forall x | x in actions :: !x.RegisterDone?
    ensures SysOk(cfg, b) && Tracks(read, b)
    decreases |actions|
  {
    hide SysOk, Enabled, Next, Unstarted, Tracks;
    if actions != [] {
      assert actions[0] in actions;
      SysStep(cfg, a, actions[0]);
      UnstartedStep(cfg, a, actions[0]);
      TracksStep(cfg, read, a, actions[0]);
      TracksRun(cfg, Next(cfg, a, actions[0]), actions[1..], b, read);
    }
  }

  /**
   * The check of a restart is about to start a second worker for a session, or one for a session that has
   * been settled, if and only if the session was on the list that this restart read when it began to adopt.
   */
  lemma DoublesExactly(cfg: Config, r: Sys, actions: seq<Action>, b: Sys, k: nat, x: SessionId)
    requires SysOk(cfg, r) && Unstarted(r.proc) && Enabled(cfg, r, RegisterDone)
    requires SysRuns(cfg, Next(cfg, r, RegisterDone), actions, b) && forall a | a in actions :: !a.RegisterDone?
    requires Enabled(cfg, b, RepairCheck(k)) && Started(b, RepairCheck(k), []) == Some(x)
    ensures Settled(b.lab.log, x) || HasWorker(b.proc, x) <==> x in r.lab.store.listed
  {
    hide SysOk, Enabled, Next, Unstarted, Tracks, Started, Settled;
    var read := r.lab.store.listed;
    SysStep(cfg, r, RegisterDone);
    UnstartedStep(cfg, r, RegisterDone);
    ListIsRead(cfg, r);
    TracksRun(cfg, Next(cfg, r, RegisterDone), actions, b, read);
    DoublesListed(cfg, read, b, RepairCheck(k));
  }

  /**
   * Each session keeps to one worker, and that to its own device, across a step if and only if the step is not
   * a check that starts a worker for a listed session.
   */
  lemma OneEachStep(cfg: Config, read: set<SessionId>, sys: Sys, a: Action)
    requires SysOk(cfg, sys) && OneEach(sys) && Unstarted(sys.proc) && Tracks(read, sys) && Enabled(cfg, sys, a)
    ensures OneEach(Next(cfg, sys, a)) <==> !StartsListed(sys, a, read)
  {
    hide SysOk, OneEach, Tracks, Enabled, Next, Doubles, StartsListed;
    DoublingStep(cfg, sys, a);
    DoublesListed(cfg, read, sys, a);
  }

  /** A worker started too many ends up on a device that is not its own: at once, or when the other one has finished. */
  lemma DoubledGoesAstray(cfg: Config, sys: Sys, a: Action) returns (actions: seq<Action>, b: Sys)
    requires SysOk(cfg, sys) && Enabled(cfg, sys, a) && Doubles(sys, a)
    ensures SysRuns(cfg, Next(cfg, sys, a), actions, b) && |actions| <= 2
    ensures a.worker in b.proc.cleaners && !Rightful(b.lab.store, b.proc.cleaners[a.worker])
    ensures b.proc.cleaners[a.worker].sid == Started(sys, a, []).value
  {
    hide SysOk, Enabled, Next, Settled, Rightful, SysRuns, Started;
    SysStep(cfg, sys, a);
    CheckIsQuiet(cfg, sys, a);
    StartedIsThere(cfg, sys, a);
    var x, next := Started(sys, a, []).value, Next(cfg, sys, a);
    if Settled(sys.lab.log, x) {
      NoAction(cfg, next);
      actions, b := [], next;
    } else {
      var k :| k in sys.proc.cleaners && sys.proc.cleaners[k].sid == x;
      CheckKeeps(cfg, sys, a, k);
      actions, b := OtherFinishes(cfg, next, k, a.worker);
    }
    RightfulUntilSettled(cfg, b, a.worker);
  }

  lemma NoAction(cfg: Config, sys: Sys)
    ensures SysRuns(cfg, sys, [], sys)
  {
  }

  /** Of two workers for one session the first finishes well; the second is still there. */
  lemma OtherFinishes(cfg: Config, sys: Sys, k: nat, m: nat) returns (actions: seq<Action>, b: Sys)
    requires SysOk(cfg, sys) && k in sys.proc.cleaners && m in sys.proc.cleaners && k != m && !sys.proc.phase.Down?
    requires sys.proc.cleaners[k].sid == sys.proc.cleaners[m].sid && !Settled(sys.lab.log, sys.proc.cleaners[k].sid)
    ensures SysRuns(cfg, sys, actions, b) && |actions| <= 2 && SysOk(cfg, b)
    ensures m in b.proc.cleaners && b.proc.cleaners[m] == sys.proc.cleaners[m]
    ensures Settled(b.lab.log, sys.proc.cleaners[k].sid)
  {
    hide Ownership.Sound, Told, TenuresOk, CleanersOk, CursorOk, Settled, SysRuns;
    RightfulUntilSettled(cfg, sys, k);
    var busy := sys;
    if !sys.proc.cleaners[k].working {
      busy := Next(cfg, sys, CleanerStart(k));
      SysStep(cfg, sys, CleanerStart(k));
    }
    b := Next(cfg, busy, CleanerFinish(k, true));
    SysStep(cfg, busy, CleanerFinish(k, true));
    GoodFinish(cfg, busy, k, m);
    if sys.proc.cleaners[k].working {
      actions := [CleanerFinish(k, true)];
      OneStep(cfg, sys, CleanerFinish(k, true));
    } else {
      actions := [CleanerStart(k), CleanerFinish(k, true)];
      TwoSteps(cfg, sys, CleanerStart(k), busy, CleanerFinish(k, true));
    }
  }

  lemma OneStep(cfg: Config, sys: Sys, a: Action)
    requires Enabled(cfg, sys, a)
    ensures SysRuns(cfg, sys, [a], Next(cfg, sys, a))
  {
    hide Enabled, Next;
    assert [a][1..] == [];
  }

  lemma GoodFinish(cfg: Config, sys: Sys, k: nat, m: nat)
    requires SysOk(cfg, sys) && Enabled(cfg, sys, CleanerFinish(k, true)) && m in sys.proc.cleaners && k != m
    requires Rightful(sys.lab.store, sys.proc.cleaners[k])
    ensures var b := Next(cfg, sys, CleanerFinish(k, true));
      Settled(b.lab.log, sys.proc.cleaners[k].sid)
      && m in b.proc.cleaners && b.proc.cleaners[m] == sys.proc.cleaners[m]
  {
    hide Effect, Ownership.Sound, Told, TenuresOk, CursorOk, Allowed, Judge, SessionAfter;
    CallsAreAllowed(cfg, sys, CleanerFinish(k, true));
    var c := sys.proc.cleaners[k];
    assert CleanerOk(cfg, sys.lab.log, c);
    FinishEvents(cfg, sys.lab, c.sid, c.did, true);
    AfterOne(sys.lab.log, Effect(cfg, sys.lab, FinishCleanup(c.sid, c.did, true)).1, 0, c.sid);
  }

  // ---------------- over whole runs ----------------

  /** No restart starts a worker, in its repair loop, for a session on the list that it has read. */
  ghost predicate TidyRuns(cfg: Config, a: Sys, read: set<SessionId>, actions: seq<Action>, b: Sys)
    decreases |actions|
  {
    if actions == [] then a == b
    else
      Enabled(cfg, a, actions[0]) && !StartsListed(a, actions[0], read)
      && TidyRuns(cfg, Next(cfg, a, actions[0]), ReadBy(a, actions[0], read), actions[1..], b)
  }

  /** Throughout the run each session has at most one worker, and that is at work on a device of its own. */
  ghost predicate OneEachThroughout(cfg: Config, a: Sys, actions: seq<Action>)
    decreases |actions|
  {
    OneEach(a)
    && (actions != [] && Enabled(cfg, a, actions[0]) ==> OneEachThroughout(cfg, Next(cfg, a, actions[0]), actions[1..]))
  }

  lemma {:induction false} TidyIsOneEach(cfg: Config, a: Sys, read: set<SessionId>, actions: seq<Action>, b: Sys)
    requires SysOk(cfg, a) && OneEach(a) && Unstarted(a.proc) && Tracks(read, a) && SysRuns(cfg, a, actions, b)
    ensures OneEachThroughout(cfg, a, actions) <==> TidyRuns(cfg, a, read, actions, b)
    ensures SysOk(cfg, b) && (TidyRuns(cfg, a, read, actions, b) ==> OneEach(b))
    decreases |actions|
  {
    hide SysOk, Enabled, Next, OneEach, Unstarted, Tracks, StartsListed, ReadBy;
    SysRunOk(cfg, a, actions, b);
    if actions != [] {
      var mid := Next(cfg, a, actions[0]);
      SysStep(cfg, a, actions[0]);
      UnstartedStep(cfg, a, actions[0]);
      TracksStep(cfg, read, a, actions[0]);
      OneEachStep(cfg, read, a, actions[0]);
      if OneEach(mid) {
        TidyIsOneEach(cfg, mid, ReadBy(a, actions[0], read), actions[1..], b);
      } else {
        NotThroughout(cfg, mid, actions[1..]);
      }
    }
  }

  lemma NotThroughout(cfg: Config, a: Sys, actions: seq<Action>)
    requires !OneEach(a)
    ensures !OneEachThroughout(cfg, a, actions)
  {
  }

  /**
   * No device is available, or somebody else's, while a worker cleans it, and no session has two workers,
   * throughout a run if and only if no restart starts, in its repair loop, a worker for a session on the list
   * it has read.
   */
  lemma NeverCleanedWhileAvailable(cfg: Config, t0: int, actions: seq<Action>, sys: Sys)
    requires 0 < t0 && SysRuns(cfg, NewSys(t0), actions, sys)
    ensures OneEachThroughout(cfg, NewSys(t0), actions) <==> TidyRuns(cfg, NewSys(t0), {}, actions, sys)
    ensures TidyRuns(cfg, NewSys(t0), {}, actions, sys) ==>
      forall k | k in sys.proc.cleaners ::
        Rightful(sys.lab.store, sys.proc.cleaners[k])
        && forall m | m in sys.proc.cleaners && m != k :: sys.proc.cleaners[m].sid != sys.proc.cleaners[k].sid
  {
    hide SysOk, TidyRuns, OneEachThroughout, SysRuns, Rightful, Settled;
    NewSysOk(cfg, t0);
    TidyIsOneEach(cfg, NewSys(t0), {}, actions, sys);
    if TidyRuns(cfg, NewSys(t0), {}, actions, sys) {
      forall k | k in sys.proc.cleaners ensures Rightful(sys.lab.store, sys.proc.cleaners[k]) {
        RightfulUntilSettled(cfg, sys, k);
      }
    }
  }
}
