/** Deadlines: what the reaper decides from a session record, and why a decision on an old read is still right. */
module Tenure {
  import opened Domain
  import opened Scripts
  import opened Lab
  import opened Ownership
  import opened Transitions

  datatype Verdict = Keep | Detach | Expire(reason: EndReason)

  /** An optional deadline that a JavaScript condition takes for set: zero counts as not set. */
  predicate Past(deadline: Option<int>, now: int) {
    deadline.Some? && deadline.value != 0 && now > deadline.value
  }

  /** What a reaper pass that started at `now` does about a session record it reads. */
  function Judge(cfg: Config, s: Session, now: int): Verdict {
    match s.state
    case Reserved => if Past(s.claimDeadline, now) then Expire(ClaimTimeout) else Keep
    case Active =>
      if now > s.expiresAt then Expire(SessionTimeout)
      else if now - s.lastHeartbeatAt > cfg.heartbeatTimeoutMs then Detach
      else Keep
    case Disconnected =>
      if now > s.expiresAt then Expire(SessionTimeout)
      else if Past(s.reconnectDeadline, now) then Expire(Abandoned)
      else Keep
    case _ => Keep
  }

  // ---------------- how deadlines move ----------------

  predicate TimesMove(cfg: Config, lab: Lab, pre: Option<Session>, post: Option<Session>) {
    match (pre, post)
    case (None, Some(b)) =>
      b.createdAt == lab.clock && b.claimDeadline == Some(lab.clock + cfg.claimMs)
    case (Some(a), Some(b)) =>
      (if a.state == SessionState.Reserved && b.state == Active
       then (a.claimDeadline.Some? ==> lab.clock <= a.claimDeadline.value)
            && b.claimDeadline.None? && b.expiresAt == lab.clock + cfg.sessionMaxMs
       else b.claimDeadline == a.claimDeadline && b.expiresAt == a.expiresAt)
      && (a.state == Disconnected && b.state == Active && a.reconnectDeadline.Some? ==>
            lab.clock <= a.reconnectDeadline.value)
      && (a.state == Disconnected && b.state == Disconnected ==> b.reconnectDeadline == a.reconnectDeadline)
    case _ => true
  }

  ghost predicate TimesStep(cfg: Config, lab: Lab, cmd: Cmd, sid: SessionId)
    requires Allowed(lab, cmd)
  {
    TimesMove(cfg, lab, Lookup(lab.store.sessions, sid), Lookup(Effect(cfg, lab, cmd).0.sessions, sid))
  }

  lemma ClaimTimes(cfg: Config, lab: Lab, x: SessionId, c: ClientId, h: Option<TokenHash>, sid: SessionId)
    ensures TimesStep(cfg, lab, Claim(x, c, h), sid)
  {
  }

  lemma ReconnectTimes(cfg: Config, lab: Lab, x: SessionId, c: ClientId, sid: SessionId)
    ensures TimesStep(cfg, lab, Reconnect(x, c), sid)
  {
  }

  lemma EndTimes(cfg: Config, lab: Lab, cmd: Cmd, sid: SessionId)
    requires Allowed(lab, cmd)
    requires cmd.BeginTermination? || cmd.FinishCleanup?
    ensures TimesStep(cfg, lab, cmd, sid)
  {
  }

  lemma AllocateTimes(cfg: Config, lab: Lab, popped: Option<DeviceId>, x: SessionId, h: TokenHash, sid: SessionId)
    requires Sound(lab) && Allowed(lab, Allocate(popped, x, h))
    ensures TimesStep(cfg, lab, Allocate(popped, x, h), sid)
  {
    AllocatedSessions(lab.store, popped, x, h, lab.clock, cfg);
    hide Scripts.Allocate;
  }

  lemma TouchTimes(cfg: Config, lab: Lab, cmd: Cmd, sid: SessionId)
    requires Allowed(lab, cmd)
    requires cmd.Heartbeat? || cmd.MarkDisconnected? || cmd.UpdateInputSeq? || cmd.ForgetSession?
    ensures TimesStep(cfg, lab, cmd, sid)
  {
  }

  lemma TimesMoves(cfg: Config, lab: Lab, cmd: Cmd, sid: SessionId)
    requires Sound(lab) && Allowed(lab, cmd)
    ensures TimesStep(cfg, lab, cmd, sid)
  {
    hide Effect, StoreOk, IdsOk;
    match cmd
    case Allocate(popped, x, h) => AllocateTimes(cfg, lab, popped, x, h, sid);
    case Claim(x, c, h) => ClaimTimes(cfg, lab, x, c, h, sid);
    case Reconnect(x, c) => ReconnectTimes(cfg, lab, x, c, sid);
    case BeginTermination(_, _, _, _) => EndTimes(cfg, lab, cmd, sid);
    case FinishCleanup(_, _, _) => EndTimes(cfg, lab, cmd, sid);
    case Heartbeat(_, _) => TouchTimes(cfg, lab, cmd, sid);
    case MarkDisconnected(_, _) => TouchTimes(cfg, lab, cmd, sid);
    case UpdateInputSeq(_, _) => TouchTimes(cfg, lab, cmd, sid);
    case ForgetSession(_) => TouchTimes(cfg, lab, cmd, sid);
    case _ => OthersLeaveSessions(cfg, lab, cmd);
  }

  // ---------------- stale verdicts ----------------

  /** The session is gone or no longer live, or the reaper of `now` would still end it. */
  predicate Doomed(cfg: Config, s: Store, sid: SessionId, now: int) {
    sid in s.sessions && Live(s.sessions[sid].state) ==> Judge(cfg, s.sessions[sid], now).Expire?
  }

  /** The same, and the reaper would do so for this reason. */
  predicate DoomedFor(cfg: Config, s: Store, sid: SessionId, now: int, reason: EndReason) {
    sid in s.sessions && Live(s.sessions[sid].state) ==> Judge(cfg, s.sessions[sid], now) == Expire(reason)
  }

  lemma DoomForStep(cfg: Config, lab: Lab, cmd: Cmd, sid: SessionId, now: int, reason: EndReason)
    requires Sound(lab) && Allowed(lab, cmd) && sid in lab.sids && now <= lab.clock
    requires DoomedFor(cfg, lab.store, sid, now, reason)
    ensures DoomedFor(cfg, Do(cfg, lab, cmd).store, sid, now, reason) && sid in Do(cfg, lab, cmd).sids
    ensures now <= Do(cfg, lab, cmd).clock
  {
    hide Effect, StoreOk;
    SessionMoves(cfg, lab, cmd, sid);
    TimesMoves(cfg, lab, cmd, sid);
    FenceMoves(cfg, lab, cmd);
  }

  lemma DoomStep(cfg: Config, lab: Lab, cmd: Cmd, sid: SessionId, now: int)
    requires Sound(lab) && Allowed(lab, cmd) && sid in lab.sids && now <= lab.clock
    requires Doomed(cfg, lab.store, sid, now)
    ensures Doomed(cfg, Do(cfg, lab, cmd).store, sid, now) && sid in Do(cfg, lab, cmd).sids
    ensures now <= Do(cfg, lab, cmd).clock
  {
    hide Effect, Sound, Judge, Do, Allowed;
    var reason := if sid in lab.store.sessions && Judge(cfg, lab.store.sessions[sid], now).Expire?
      then Judge(cfg, lab.store.sessions[sid], now).reason else ByUser;
    DoomForStep(cfg, lab, cmd, sid, now, reason);
  }

  /**
   * An expiry decided on an old read ends only a session that is overdue to this moment, and for the reason
   * that is still the right one: no interleaving of claims, reconnects, heartbeats or other reapers can
   * rescue a session once the deadline has passed.
   */
  lemma {:induction false} StaleVerdictHolds(cfg: Config, a: Lab, cmds: seq<Cmd>, b: Lab, sid: SessionId, now: int,
      reason: EndReason)
    requires Sound(a) && Runs(cfg, a, cmds, b) && now <= a.clock
    requires sid in a.sids && DoomedFor(cfg, a.store, sid, now, reason)
    ensures DoomedFor(cfg, b.store, sid, now, reason)
    decreases |cmds|
  {
    hide Effect, StoreOk, IdsOk, DoomedFor;
    if cmds != [] {
      SoundStep(cfg, a, cmds[0]);
      DoomForStep(cfg, a, cmds[0], sid, now, reason);
      StaleVerdictHolds(cfg, Do(cfg, a, cmds[0]), cmds[1..], b, sid, now, reason);
    }
  }

  // ---------------- bounded tenure ----------------

  predicate TenureOk(cfg: Config, lab: Lab, sid: SessionId)
    requires sid in lab.store.sessions
  {
    var s := lab.store.sessions[sid];
    0 < s.createdAt <= lab.clock
    && (s.state == SessionState.Reserved ==> s.claimDeadline == Some(s.createdAt + cfg.claimMs))
    && (s.state == Active || s.state == Disconnected ==>
          s.claimDeadline.None? && s.expiresAt <= s.createdAt + cfg.claimMs + cfg.sessionMaxMs)
  }

  ghost predicate TenuresOk(cfg: Config, lab: Lab) {
    0 < lab.clock
    && forall sid {:trigger TenureOk(cfg, lab, sid)} | sid in lab.store.sessions :: TenureOk(cfg, lab, sid)
  }

  lemma TenureStep(cfg: Config, lab: Lab, cmd: Cmd)
    requires Sound(lab) && Allowed(lab, cmd) && TenuresOk(cfg, lab)
    ensures TenuresOk(cfg, Do(cfg, lab, cmd))
  {
    hide Effect, StoreOk, IdsOk;
    var lab' := Do(cfg, lab, cmd);
    forall sid | sid in lab'.store.sessions ensures TenureOk(cfg, lab', sid) {
      if sid in lab.store.sessions { assert TenureOk(cfg, lab, sid); }
      SessionMoves(cfg, lab, cmd, sid);
      TimesMoves(cfg, lab, cmd, sid);
    }
  }

  lemma {:induction false} TenureRun(cfg: Config, a: Lab, cmds: seq<Cmd>, b: Lab)
    requires Sound(a) && TenuresOk(cfg, a) && Runs(cfg, a, cmds, b)
    ensures Sound(b) && TenuresOk(cfg, b)
    decreases |cmds|
  {
    hide Effect, StoreOk, IdsOk, TenuresOk;
    if cmds != [] {
      SoundStep(cfg, a, cmds[0]);
      TenureStep(cfg, a, cmds[0]);
      TenureRun(cfg, Do(cfg, a, cmds[0]), cmds[1..], b);
    }
  }

  /**
   * However often its client reconnects and the server restarts, a session that has lived longer than
   * the claim window and the maximum session time together is overdue for the reaper.
   */
  lemma TenureIsBounded(cfg: Config, lab: Lab, sid: SessionId, now: int)
    requires TenuresOk(cfg, lab) && sid in lab.store.sessions
    requires now > lab.store.sessions[sid].createdAt + cfg.claimMs + cfg.sessionMaxMs
    ensures Doomed(cfg, lab.store, sid, now)
  {
    assert TenureOk(cfg, lab, sid);
  }
}
