/** What one pass of the reaper achieves, whatever else happens while it walks its list. */
module Reaping {
  import opened Domain
  import opened Lab
  import Ownership
  import Transitions
  import Stories
  import opened Tenure
  import opened Server
  import opened ServerInv

  /** The session has outlived its claim window, its session time or its reconnect grace. */
  predicate Overdue(s: Session, now: int) {
    match s.state
    case Reserved => Past(s.claimDeadline, now)
    case Active => now > s.expiresAt
    case Disconnected => now > s.expiresAt || Past(s.reconnectDeadline, now)
    case _ => false
  }

  /** The reaper expires exactly what is overdue, each for the deadline it has outlived. */
  lemma ExpiresTheOverdue(cfg: Config, s: Session, now: int)
    ensures Judge(cfg, s, now).Expire? <==> Overdue(s, now)
    ensures Judge(cfg, s, now) == Expire(ClaimTimeout) <==> s.state == SessionState.Reserved && Overdue(s, now)
    ensures Judge(cfg, s, now) == Expire(SessionTimeout) <==>
      (s.state == Active || s.state == Disconnected) && now > s.expiresAt
    ensures Judge(cfg, s, now) == Expire(Abandoned) <==>
      s.state == Disconnected && Overdue(s, now) && now <= s.expiresAt
    ensures Judge(cfg, s, now) == Detach <==>
      s.state == Active && !Overdue(s, now) && now - s.lastHeartbeatAt > cfg.heartbeatTimeoutMs
  {
  }

  /** The session is live in `lab`. */
  predicate LiveIn(lab: Lab, sid: SessionId) {
    sid in lab.store.sessions && Live(lab.store.sessions[sid].state)
  }

  /**
   * A session that was overdue when the pass began is over, or it is overdue still, and the pass has yet
   * to read it or has read it and is about to end it.
   */
  ghost predicate PassOwes(cfg: Config, sys: Sys, sid: SessionId) {
    var r := sys.proc.reaper;
    sid in sys.lab.sids
    && (!r.Resting? && LiveIn(sys.lab, sid) ==>
          Doomed(cfg, sys.lab.store, sid, r.since)
          && (sid in r.todo || (r.Acting? && r.sid == sid && r.verdict.Expire?)))
  }

  /** A verdict to expire stands until it is carried out. */
  ghost predicate VerdictOk(cfg: Config, sys: Sys) {
    var r := sys.proc.reaper;
    r.Acting? && r.verdict.Expire? ==>
      r.sid in sys.lab.sids && DoomedFor(cfg, sys.lab.store, r.sid, r.since, r.verdict.reason)
  }

  lemma EndsForGood(cfg: Config, lab: Lab, sid: SessionId, reason: EndReason, expired: bool)
    ensures var s' := Do(cfg, lab, BeginTermination(sid, reason, expired, None)).store;
      sid in s'.sessions ==> !Live(s'.sessions[sid].state)
  {
  }

  lemma NeverLiveAgain(cfg: Config, lab: Lab, cmd: Cmd, sid: SessionId)
    requires Ownership.Sound(lab) && Allowed(lab, cmd) && sid in lab.sids && !LiveIn(lab, sid)
    ensures !LiveIn(Do(cfg, lab, cmd), sid)
  {
    hide Effect, Ownership.StoreOk;
    Transitions.SessionMoves(cfg, lab, cmd, sid);
    Transitions.EventKinds(cfg, lab, cmd);
  }

  /** How a step moves the reaper. */
  ghost predicate ReaperMove(cfg: Config, sys: Sys, a: Action, r': Reaper) {
    var r := sys.proc.reaper;
    var c := CmdOf(cfg, sys, a);
    r'.Resting?
    || r' == r
    || (a.ReaperStart? && r' == Scanning(sys.lab.clock, sys.lab.store.listed) && c.None?)
    || (a.ReaperRead? && r.Scanning? && c.None?
        && r' == if a.sid in sys.lab.store.sessions
                 then Acting(r.since, r.todo - {a.sid}, a.sid, Judge(cfg, sys.lab.store.sessions[a.sid], r.since))
                 else Scanning(r.since, r.todo - {a.sid}))
    || (a.ReaperAct? && r.Acting? && r' == Scanning(r.since, r.todo)
        && (r.verdict.Expire? ==> c == Some(BeginTermination(r.sid, r.verdict.reason, true, None))))
  }

  lemma ReaperMoves(cfg: Config, sys: Sys, a: Action)
    requires SysOk(cfg, sys) && Enabled(cfg, sys, a)
    ensures ReaperMove(cfg, sys, a, Next(cfg, sys, a).proc.reaper)
  {
    hide Effect, Ownership.Sound, Stories.Told, TenuresOk, CleanersOk, CursorOk, Allowed, Do, Judge;
    CallsAreAllowed(cfg, sys, a);
  }

  lemma OwedStep(cfg: Config, sys: Sys, a: Action, sid: SessionId)
    requires SysOk(cfg, sys) && PassOwes(cfg, sys, sid) && Enabled(cfg, sys, a) && !a.ReaperStart?
    ensures PassOwes(cfg, Next(cfg, sys, a), sid)
  {
    LabStep(cfg, sys, a);
    ReaperMoves(cfg, sys, a);
    hide Effect, Ownership.Sound, Stories.Told, TenuresOk, CleanersOk, CursorOk, Allowed, Doomed, Next, Enabled,
         CmdOf, LiveIn, Judge;
    var c := CmdOf(cfg, sys, a);
    var next := Next(cfg, sys, a);
    var r := sys.proc.reaper;
    if !next.proc.reaper.Resting? && LiveIn(next.lab, sid) {
      if c.Some? {
        if !LiveIn(sys.lab, sid) { NeverLiveAgain(cfg, sys.lab, c.value, sid); }
        DoomStep(cfg, sys.lab, c.value, sid, r.since);
      }
      if a.ReaperRead? && a.sid == sid { DoomedIsExpired(cfg, sys.lab, sid, r.since); }
      if a.ReaperAct? && r.Acting? && r.verdict.Expire? && r.sid == sid && next.proc.reaper != r {
        EndedInDo(cfg, sys.lab, sid, r.verdict.reason);
      }
    }
  }

  lemma DoomedIsExpired(cfg: Config, lab: Lab, sid: SessionId, now: int)
    requires LiveIn(lab, sid) && Doomed(cfg, lab.store, sid, now)
    ensures sid in lab.store.sessions && Judge(cfg, lab.store.sessions[sid], now).Expire?
  {
  }

  lemma EndedInDo(cfg: Config, lab: Lab, sid: SessionId, reason: EndReason)
    ensures !LiveIn(Do(cfg, lab, BeginTermination(sid, reason, true, None)), sid)
  {
    EndsForGood(cfg, lab, sid, reason, true);
  }

  lemma {:induction false} OwedRun(cfg: Config, a: Sys, actions: seq<Action>, b: Sys, sid: SessionId)
    requires SysOk(cfg, a) && PassOwes(cfg, a, sid) && SysRuns(cfg, a, actions, b)
    requires forall x | x in actions :: !x.ReaperStart?
    ensures SysOk(cfg, b) && PassOwes(cfg, b, sid)
    decreases |actions|
  {
    hide SysOk, Enabled, Next, PassOwes;
    if actions != [] {
      assert actions[0] in actions;
      SysStep(cfg, a, actions[0]);
      OwedStep(cfg, a, actions[0], sid);
      OwedRun(cfg, Next(cfg, a, actions[0]), actions[1..], b, sid);
    }
  }

  lemma VerdictStep(cfg: Config, sys: Sys, a: Action)
    requires SysOk(cfg, sys) && VerdictOk(cfg, sys) && Enabled(cfg, sys, a)
    ensures VerdictOk(cfg, Next(cfg, sys, a))
  {
    LabStep(cfg, sys, a);
    ReaperMoves(cfg, sys, a);
    hide Effect, Ownership.Sound, Stories.Told, TenuresOk, CleanersOk, CursorOk, Allowed, Do, DoomedFor, Next, Enabled,
         CmdOf;
    var c := CmdOf(cfg, sys, a);
    var r := Next(cfg, sys, a).proc.reaper;
    if r.Acting? && r.verdict.Expire? {
      if r != sys.proc.reaper {
        VerdictDooms(cfg, sys.lab, r.sid, r.since);
      } else if c.Some? {
        DoomForStep(cfg, sys.lab, c.value, r.sid, r.since, r.verdict.reason);
      }
    }
  }

  lemma VerdictDooms(cfg: Config, lab: Lab, sid: SessionId, now: int)
    requires Ownership.Sound(lab) && sid in lab.store.sessions
    ensures sid in lab.sids
    ensures Judge(cfg, lab.store.sessions[sid], now).Expire? ==>
      DoomedFor(cfg, lab.store, sid, now, Judge(cfg, lab.store.sessions[sid], now).reason)
  {
  }

  lemma {:induction false} VerdictRun(cfg: Config, a: Sys, actions: seq<Action>, b: Sys)
    requires SysOk(cfg, a) && VerdictOk(cfg, a) && SysRuns(cfg, a, actions, b)
    ensures SysOk(cfg, b) && VerdictOk(cfg, b)
    decreases |actions|
  {
    hide SysOk, Enabled, Next, VerdictOk;
    if actions != [] {
      SysStep(cfg, a, actions[0]);
      VerdictStep(cfg, a, actions[0]);
      VerdictRun(cfg, Next(cfg, a, actions[0]), actions[1..], b);
    }
  }

  /**
   * A reaper pass, whatever else happens while it walks its list. A session that was overdue when the pass
   * began, by its claim window, its session time or its reconnect grace, is not live when the pass is done;
   * nor is one that had then lived longer than the claim window and the session time together.
   */
  lemma PassEndsOverdue(cfg: Config, t0: int, before: seq<Action>, a: Sys, during: seq<Action>, b: Sys, sid: SessionId)
    requires 0 < t0 && SysRuns(cfg, NewSys(t0), before, a) && Enabled(cfg, a, ReaperStart)
    requires SysRuns(cfg, Next(cfg, a, ReaperStart), during, b) && Enabled(cfg, b, ReaperDone)
    requires forall x | x in during :: !x.ReaperStart?
    requires sid in a.lab.store.sessions
    requires var s := a.lab.store.sessions[sid];
      Overdue(s, a.lab.clock) || a.lab.clock > s.createdAt + cfg.claimMs + cfg.sessionMaxMs
    ensures sid in b.lab.store.sessions ==> !Live(b.lab.store.sessions[sid].state)
  {
    hide SysOk, Next, SysRuns, Enabled, PassOwes, Overdue;
    NewSysOk(cfg, t0);
    SysRunOk(cfg, NewSys(t0), before, a);
    PassBegins(cfg, a, sid);
    SysStep(cfg, a, ReaperStart);
    OwedRun(cfg, Next(cfg, a, ReaperStart), during, b, sid);
    NothingOwed(cfg, b, sid);
  }

  lemma NothingOwed(cfg: Config, b: Sys, sid: SessionId)
    requires PassOwes(cfg, b, sid) && Enabled(cfg, b, ReaperDone)
    ensures !LiveIn(b.lab, sid)
  {
    hide Doomed;
  }

  lemma PassBegins(cfg: Config, a: Sys, sid: SessionId)
    requires SysOk(cfg, a) && Enabled(cfg, a, ReaperStart) && sid in a.lab.store.sessions
    requires var s := a.lab.store.sessions[sid];
      Overdue(s, a.lab.clock) || a.lab.clock > s.createdAt + cfg.claimMs + cfg.sessionMaxMs
    ensures PassOwes(cfg, Next(cfg, a, ReaperStart), sid)
  {
    hide Stories.Told, CleanersOk, Effect;
    var s := a.lab.store;
    assert Ownership.SessionOk(s.sessions, s.devices, s.fences, s.listed, sid);
    assert TenureOk(cfg, a.lab, sid);
  }

  /**
   * The reaper never ends a session that is not overdue at the very moment it does so, and the reason it gives
   * is then the right one.
   */
  lemma ReaperIsNeverWrong(cfg: Config, t0: int, actions: seq<Action>, sys: Sys)
    requires 0 < t0 && SysRuns(cfg, NewSys(t0), actions, sys)
    requires sys.proc.reaper.Acting? && sys.proc.reaper.verdict.Expire? && LiveIn(sys.lab, sys.proc.reaper.sid)
    ensures Overdue(sys.lab.store.sessions[sys.proc.reaper.sid], sys.proc.reaper.since)
    ensures Judge(cfg, sys.lab.store.sessions[sys.proc.reaper.sid], sys.proc.reaper.since) == sys.proc.reaper.verdict
  {
    NewSysOk(cfg, t0);
    VerdictRun(cfg, NewSys(t0), actions, sys);
  }

  /**
   * Detaching is not protected in this way: a heartbeat that arrives between the reaper's read and its
   * call does not keep the session active.
   */
  lemma DetachedDespiteHeartbeat(cfg: Config, sys: Sys, client: ClientId, k: nat) returns (detached: Sys)
    requires SysOk(cfg, sys) && sys.proc.phase.Up? && k !in sys.proc.cleaners
    requires sys.proc.reaper.Acting? && sys.proc.reaper.verdict.Detach?
    requires var sid := sys.proc.reaper.sid;
      sid in sys.lab.store.sessions && sys.lab.store.sessions[sid].state == Active
        && sys.lab.store.sessions[sid].clientId == client
    ensures SysRuns(cfg, sys, [Serve(Heartbeat(sys.proc.reaper.sid, Some(client))), ReaperAct(k)], detached)
    ensures var sid := sys.proc.reaper.sid;
      sid in detached.lab.store.sessions
      && detached.lab.store.sessions[sid].state == Disconnected
      && detached.lab.store.sessions[sid].lastHeartbeatAt == detached.lab.clock
  {
    hide Ownership.Sound, Stories.Told, TenuresOk, CleanersOk, SysRuns, Effect;
    var r := sys.proc.reaper;
    var beat := Heartbeat(r.sid, Some(client));
    BeatThenDetach(cfg, sys.lab, r.sid, client, r.since);
    var mid := Next(cfg, sys, Serve(beat));
    assert mid.lab == Do(cfg, sys.lab, beat) && mid.proc == sys.proc;
    hide Do;
    detached := Next(cfg, mid, ReaperAct(k));
    TwoSteps(cfg, sys, Serve(beat), mid, ReaperAct(k));
  }

  lemma BeatThenDetach(cfg: Config, lab: Lab, sid: SessionId, client: ClientId, since: int)
    requires sid in lab.store.sessions && lab.store.sessions[sid].state == Active
    requires lab.store.sessions[sid].clientId == client && since <= lab.clock
    ensures Allowed(lab, Heartbeat(sid, Some(client))) && Effect(cfg, lab, Heartbeat(sid, Some(client))).1 == []
    ensures var lab1 := Do(cfg, lab, Heartbeat(sid, Some(client)));
      Allowed(lab1, MarkDisconnected(sid, since))
      && var lab2 := Do(cfg, lab1, MarkDisconnected(sid, since));
         sid in lab2.store.sessions && lab2.store.sessions[sid].state == Disconnected
         && lab2.store.sessions[sid].lastHeartbeatAt == lab2.clock
  {
  }

  // ---------------- how long a detached session may be taken back ----------------

  /** The time by which a pass, or the adoption of a restart, goes is its own first reading of the clock. */
  predicate ReadAt(p: Proc, passAt: Option<int>, adoptionAt: Option<int>) {
    (passAt.Some? && !p.reaper.Resting? ==> p.reaper.since == passAt.value)
    && (adoptionAt.Some? && p.phase.Adopting? ==> p.phase.since == adoptionAt.value)
  }

  /** The action does not begin what a reading is given for. */
  predicate Unread(a: Action, passAt: Option<int>, adoptionAt: Option<int>) {
    (a.ReaperStart? ==> passAt.None?) && (a.RegisterDone? ==> adoptionAt.None?)
  }

  lemma ReadingStays(cfg: Config, sys: Sys, a: Action, events: seq<Event>, passAt: Option<int>,
      adoptionAt: Option<int>)
    requires Enabled(cfg, sys, a) && Unread(a, passAt, adoptionAt) && ReadAt(sys.proc, passAt, adoptionAt)
    ensures ReadAt(ProcAfter(cfg, sys, a, events), passAt, adoptionAt)
  {
    hide Judge, Allowed;
  }

  lemma {:induction false} ReadingRun(cfg: Config, a: Sys, actions: seq<Action>, b: Sys, passAt: Option<int>,
      adoptionAt: Option<int>)
    requires SysOk(cfg, a) && SysRuns(cfg, a, actions, b) && ReadAt(a.proc, passAt, adoptionAt)
    requires forall x | x in actions :: Unread(x, passAt, adoptionAt)
    ensures SysOk(cfg, b) && ReadAt(b.proc, passAt, adoptionAt)
    decreases |actions|
  {
    hide SysOk, Enabled, ProcAfter, CmdOf, Do, Effect, Allowed, ReadAt;
    if actions != [] {
      assert actions[0] in actions;
      SysStep(cfg, a, actions[0]);
      CallsAreAllowed(cfg, a, actions[0]);
      var c := CmdOf(cfg, a, actions[0]);
      ReadingStays(cfg, a, actions[0], if c.Some? then Effect(cfg, a.lab, c.value).1 else [], passAt, adoptionAt);
      ReadingRun(cfg, Next(cfg, a, actions[0]), actions[1..], b, passAt, adoptionAt);
    }
  }

  /** A session is detached, to be taken back until then. */
  predicate DetachedUntil(lab: Lab, sid: SessionId, deadline: int) {
    sid in lab.store.sessions && lab.store.sessions[sid].state == Disconnected
    && lab.store.sessions[sid].reconnectDeadline == Some(deadline)
  }

  /** A session that a pass detaches can be taken back for the whole grace, counted from the start of the pass. */
  lemma PassGivesGrace(cfg: Config, t0: int, before: seq<Action>, a: Sys, during: seq<Action>, b: Sys, k: nat)
    requires 0 < t0 && SysRuns(cfg, NewSys(t0), before, a) && Enabled(cfg, a, ReaperStart)
    requires SysRuns(cfg, Next(cfg, a, ReaperStart), during, b) && Enabled(cfg, b, ReaperAct(k))
    requires forall x | x in during :: !x.ReaperStart?
    requires b.proc.reaper.verdict.Detach? && b.proc.reaper.sid in b.lab.store.sessions
    requires b.lab.store.sessions[b.proc.reaper.sid].state == Active
    ensures DetachedUntil(Next(cfg, b, ReaperAct(k)).lab, b.proc.reaper.sid, a.lab.clock + cfg.graceMs)
  {
    hide SysOk, SysRuns;
    NewSysOk(cfg, t0);
    SysRunOk(cfg, NewSys(t0), before, a);
    SysStep(cfg, a, ReaperStart);
    hide Next, Enabled;
    PassReads(cfg, a);
    ReadingRun(cfg, Next(cfg, a, ReaperStart), during, b, Some(a.lab.clock), None);
    ActsOnReading(cfg, b, k);
  }

  lemma PassReads(cfg: Config, a: Sys)
    requires Enabled(cfg, a, ReaperStart)
    ensures ReadAt(Next(cfg, a, ReaperStart).proc, Some(a.lab.clock), None)
  {
  }

  lemma ActsOnReading(cfg: Config, b: Sys, k: nat)
    requires SysOk(cfg, b) && Enabled(cfg, b, ReaperAct(k)) && b.proc.reaper.verdict.Detach?
    requires b.proc.reaper.sid in b.lab.store.sessions
    requires b.lab.store.sessions[b.proc.reaper.sid].state == Active
    ensures DetachedUntil(Next(cfg, b, ReaperAct(k)).lab, b.proc.reaper.sid, b.proc.reaper.since + cfg.graceMs)
  {
    CallsAreAllowed(cfg, b, ReaperAct(k));
    DetachDoes(cfg, b.lab, b.proc.reaper.sid, b.proc.reaper.since);
    hide SysOk, Do, Effect, ProcAfter, Allowed;
  }

  lemma DetachDoes(cfg: Config, lab: Lab, sid: SessionId, at: int)
    requires sid in lab.store.sessions && lab.store.sessions[sid].state == Active
    requires Allowed(lab, MarkDisconnected(sid, at))
    ensures DetachedUntil(Do(cfg, lab, MarkDisconnected(sid, at)), sid, at + cfg.graceMs)
  {
  }

  /** And so can one that a restart finds active, counted from the moment at which the restart begins to adopt. */
  lemma AdoptionGivesGrace(cfg: Config, t0: int, before: seq<Action>, a: Sys, during: seq<Action>, b: Sys,
      sid: SessionId, k: nat)
    requires 0 < t0 && SysRuns(cfg, NewSys(t0), before, a) && Enabled(cfg, a, RegisterDone)
    requires SysRuns(cfg, Next(cfg, a, RegisterDone), during, b) && Enabled(cfg, b, AdoptOne(sid, k))
    requires forall x | x in during :: !x.RegisterDone?
    requires sid in b.lab.store.sessions && b.lab.store.sessions[sid].state == Active
    ensures DetachedUntil(Next(cfg, b, AdoptOne(sid, k)).lab, sid, a.lab.clock + cfg.graceMs)
  {
    hide SysOk, SysRuns;
    NewSysOk(cfg, t0);
    SysRunOk(cfg, NewSys(t0), before, a);
    SysStep(cfg, a, RegisterDone);
    hide Next, Enabled;
    AdoptionReads(cfg, a);
    ReadingRun(cfg, Next(cfg, a, RegisterDone), during, b, None, Some(a.lab.clock));
    AdoptsByReading(cfg, b, sid, k);
  }

  lemma AdoptionReads(cfg: Config, a: Sys)
    requires Enabled(cfg, a, RegisterDone)
    ensures ReadAt(Next(cfg, a, RegisterDone).proc, None, Some(a.lab.clock))
  {
  }

  lemma AdoptsByReading(cfg: Config, b: Sys, sid: SessionId, k: nat)
    requires SysOk(cfg, b) && Enabled(cfg, b, AdoptOne(sid, k))
    requires sid in b.lab.store.sessions && b.lab.store.sessions[sid].state == Active
    ensures b.proc.phase.Adopting?
    ensures DetachedUntil(Next(cfg, b, AdoptOne(sid, k)).lab, sid, b.proc.phase.since + cfg.graceMs)
  {
    CallsAreAllowed(cfg, b, AdoptOne(sid, k));
    DetachDoes(cfg, b.lab, sid, b.proc.phase.since);
    hide SysOk, Do, Effect, ProcAfter, Allowed;
  }
}
