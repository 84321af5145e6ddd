/** Detaching: when the reaper's verdict that a client has gone silent is still right when it is carried out. */
module Detaching {
  import opened Domain
  import opened Scripts
  import opened Lab
  import opened Ownership
  import opened Transitions
  import opened Tenure

  /** A sign of life from the session's owner, or the end of its connection. */
  predicate Interrupts(cmd: Cmd, sid: SessionId, owner: ClientId) {
    (cmd.Heartbeat? && cmd.sid == sid && cmd.client == Some(owner)) || (cmd.MarkDisconnected? && cmd.sid == sid)
  }

  /** What a command does to an active session's connection, and to the time of its last heartbeat. */
  predicate BeatMove(lab: Lab, cmd: Cmd, sid: SessionId, pre: Option<Session>, post: Option<Session>) {
    pre.Some? && post.Some? ==>
      (post.value.state == Active ==>
         if pre.value.state != Active || Interrupts(cmd, sid, pre.value.clientId)
         then post.value.lastHeartbeatAt == lab.clock
         else post.value.lastHeartbeatAt == pre.value.lastHeartbeatAt)
      && (pre.value.state == Active && Live(post.value.state) && cmd.MarkDisconnected? && cmd.sid == sid ==>
            post.value.state == Disconnected)
      && (pre.value.state == Active && post.value.state == Disconnected ==> cmd.MarkDisconnected? && cmd.sid == sid)
  }

  ghost predicate BeatStep(cfg: Config, lab: Lab, cmd: Cmd, sid: SessionId)
    requires Allowed(lab, cmd)
  {
    BeatMove(lab, cmd, sid, Lookup(lab.store.sessions, sid), Lookup(Effect(cfg, lab, cmd).0.sessions, sid))
  }

  lemma AllocateBeats(cfg: Config, lab: Lab, popped: Option<DeviceId>, x: SessionId, h: TokenHash, sid: SessionId)
    requires Allowed(lab, Allocate(popped, x, h))
    ensures BeatStep(cfg, lab, Allocate(popped, x, h), sid)
  {
    AllocatedSessions(lab.store, popped, x, h, lab.clock, cfg);
    hide Scripts.Allocate;
  }

  lemma CleanupBeats(cfg: Config, lab: Lab, x: SessionId, did: DeviceId, ok: bool, sid: SessionId)
    requires Allowed(lab, FinishCleanup(x, did, ok))
    ensures BeatStep(cfg, lab, FinishCleanup(x, did, ok), sid)
  {
    FinishedSessions(lab.store, x, did, ok, lab.clock, cfg);
    hide Scripts.FinishCleanup;
  }

  lemma RecordBeats(cfg: Config, lab: Lab, cmd: Cmd, sid: SessionId)
    requires Allowed(lab, cmd) && (cmd.Claim? || cmd.Reconnect? || cmd.BeginTermination?)
    ensures BeatStep(cfg, lab, cmd, sid)
  {
  }

  lemma TouchBeats(cfg: Config, lab: Lab, cmd: Cmd, sid: SessionId)
    requires Allowed(lab, cmd) && (cmd.Heartbeat? || cmd.MarkDisconnected? || cmd.UpdateInputSeq? || cmd.ForgetSession?)
    ensures BeatStep(cfg, lab, cmd, sid)
  {
  }

  lemma BeatMoves(cfg: Config, lab: Lab, cmd: Cmd, sid: SessionId)
    requires Sound(lab) && Allowed(lab, cmd)
    ensures BeatStep(cfg, lab, cmd, sid)
  {
    hide Effect, StoreOk, IdsOk;
    match cmd
    case Allocate(popped, x, h) => AllocateBeats(cfg, lab, popped, x, h, sid);
    case FinishCleanup(x, did, ok) => CleanupBeats(cfg, lab, x, did, ok, sid);
    case Claim(_, _, _) => RecordBeats(cfg, lab, cmd, sid);
    case Reconnect(_, _) => RecordBeats(cfg, lab, cmd, sid);
    case BeginTermination(_, _, _, _) => RecordBeats(cfg, lab, cmd, sid);
    case Heartbeat(_, _) => TouchBeats(cfg, lab, cmd, sid);
    case MarkDisconnected(_, _) => TouchBeats(cfg, lab, cmd, sid);
    case UpdateInputSeq(_, _) => TouchBeats(cfg, lab, cmd, sid);
    case ForgetSession(_) => TouchBeats(cfg, lab, cmd, sid);
    case _ => OthersLeaveSessions(cfg, lab, cmd);
  }

  // ---------------- over a stretch of a run ----------------

  /** The session is over, or its record is in these respects still the one that was read. */
  predicate Unheard(lab: Lab, sid: SessionId, read: Session) {
    sid in lab.sids
    && (sid in lab.store.sessions && Live(lab.store.sessions[sid].state) ==>
          var s := lab.store.sessions[sid];
          s.state == Active && s.clientId == read.clientId && s.expiresAt == read.expiresAt
          && s.lastHeartbeatAt == read.lastHeartbeatAt)
  }

  /** If the session is active its client has been heard of since. */
  predicate Heard(lab: Lab, sid: SessionId, since: int) {
    sid in lab.sids && since <= lab.clock
    && (sid in lab.store.sessions && lab.store.sessions[sid].state == Active ==>
          lab.store.sessions[sid].lastHeartbeatAt >= since)
  }

  lemma HeardStep(cfg: Config, lab: Lab, cmd: Cmd, sid: SessionId, since: int)
    requires Sound(lab) && Allowed(lab, cmd) && Heard(lab, sid, since)
    ensures Heard(Do(cfg, lab, cmd), sid, since)
  {
    hide Effect, StoreOk;
    SessionMoves(cfg, lab, cmd, sid);
    BeatMoves(cfg, lab, cmd, sid);
    EventKinds(cfg, lab, cmd);
  }

  lemma UnheardStep(cfg: Config, lab: Lab, cmd: Cmd, sid: SessionId, read: Session, since: int)
    requires Sound(lab) && Allowed(lab, cmd) && Unheard(lab, sid, read) && since <= lab.clock
    ensures if Interrupts(cmd, sid, read.clientId) then Heard(Do(cfg, lab, cmd), sid, since)
            else Unheard(Do(cfg, lab, cmd), sid, read)
  {
    hide Effect, StoreOk;
    SessionMoves(cfg, lab, cmd, sid);
    BeatMoves(cfg, lab, cmd, sid);
    TimesMoves(cfg, lab, cmd, sid);
    EventKinds(cfg, lab, cmd);
  }

  lemma {:induction false} HeardRun(cfg: Config, a: Lab, cmds: seq<Cmd>, b: Lab, sid: SessionId, since: int)
    requires Sound(a) && Runs(cfg, a, cmds, b) && Heard(a, sid, since)
    ensures Heard(b, sid, since)
    decreases |cmds|
  {
    hide Effect, StoreOk, IdsOk, Heard;
    if cmds != [] {
      SoundStep(cfg, a, cmds[0]);
      HeardStep(cfg, a, cmds[0], sid, since);
      HeardRun(cfg, Do(cfg, a, cmds[0]), cmds[1..], b, sid, since);
    }
  }

  /** Some command of the stretch interrupts the session. */
  ghost predicate Interrupted(cmds: seq<Cmd>, sid: SessionId, owner: ClientId) {
    exists cmd | cmd in cmds :: Interrupts(cmd, sid, owner)
  }

  lemma {:induction false} UnheardRun(cfg: Config, a: Lab, cmds: seq<Cmd>, b: Lab, sid: SessionId, read: Session,
      since: int)
    requires Sound(a) && Runs(cfg, a, cmds, b) && Unheard(a, sid, read) && since <= a.clock
    ensures if Interrupted(cmds, sid, read.clientId) then Heard(b, sid, since) else Unheard(b, sid, read)
    decreases |cmds|
  {
    hide Effect, StoreOk, IdsOk, Heard, Unheard, Interrupts;
    if cmds != [] {
      var mid := Do(cfg, a, cmds[0]);
      SoundStep(cfg, a, cmds[0]);
      UnheardStep(cfg, a, cmds[0], sid, read, since);
      assert cmds[0] in cmds && forall cmd :: cmd in cmds <==> cmd == cmds[0] || cmd in cmds[1..];
      if Interrupts(cmds[0], sid, read.clientId) {
        HeardRun(cfg, mid, cmds[1..], b, sid, since);
      } else {
        UnheardRun(cfg, mid, cmds[1..], b, sid, read, since);
      }
    }
  }

  /**
   * A verdict to detach, decided on an old read, is still right for a session that is active when it is
   * carried out if and only if the session has not been interrupted since: no heartbeat of its owner and no
   * detachment by anybody else came in between.
   */
  lemma DetachVerdictHolds(cfg: Config, a: Lab, cmds: seq<Cmd>, b: Lab, sid: SessionId, since: int)
    requires Sound(a) && Runs(cfg, a, cmds, b) && since <= a.clock
    requires sid in a.store.sessions && a.store.sessions[sid].state == Active
        && Judge(cfg, a.store.sessions[sid], since) == Detach
    requires sid in b.store.sessions && b.store.sessions[sid].state == Active
    ensures Judge(cfg, b.store.sessions[sid], since) == Detach
      <==> !Interrupted(cmds, sid, a.store.sessions[sid].clientId)
  {
    hide Effect, StoreOk, Interrupted;
    UnheardRun(cfg, a, cmds, b, sid, a.store.sessions[sid], since);
  }
}
