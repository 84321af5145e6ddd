/** Who gets what: the answers of the scripts over a run, by what was granted, asked for and detached before. */
module Entitlement {
  import opened Domain
  import opened Scripts
  import opened Lab
  import opened Ownership
  import opened Transitions
  import opened Tenure
  import Detaching

  lemma ReachableIsSound(cfg: Config, lab: Lab)
    requires Reachable(cfg, lab)
    ensures Sound(lab) && TenuresOk(cfg, lab)
  {
    hide Sound;
    var t0: int, cmds :| 0 < t0 && Runs(cfg, Start(t0), cmds, lab);
    StartIsSound(cfg, t0);
    TenureRun(cfg, Start(t0), cmds, lab);
  }

  lemma StartIsSound(cfg: Config, t0: int)
    requires 0 < t0
    ensures Sound(Start(t0)) && TenuresOk(cfg, Start(t0))
  {
  }

  // ---------------- what a grant fixes ----------------

  /** What an allocation has fixed for the session it made, for as long as there is a record of it. */
  predicate Given(lab: Lab, sid: SessionId, client: ClientId, did: DeviceId, fence: nat, h: TokenHash, at: int) {
    sid in lab.sids
    && (sid in lab.store.sessions ==>
          var s := lab.store.sessions[sid];
          s.clientId == client && s.deviceId == did && s.leaseFence == fence && s.claimTokenHash == h
            && s.createdAt == at)
  }

  /**
   * The session made by a grant is the waiter's, on the device and under the fence logged, to be claimed within
   * the claim window, with nothing applied yet; the reply is what the store then holds.
   */
  lemma GrantMakes(cfg: Config, lab: Lab, popped: Option<DeviceId>, sid: SessionId, h: TokenHash)
    requires Allowed(lab, Allocate(popped, sid, h)) && Effect(cfg, lab, Allocate(popped, sid, h)).1 != []
    ensures var (s', events) := Effect(cfg, lab, Allocate(popped, sid, h));
      var e := events[0];
      e.Granted? && e.sid == sid && IsWaiting(lab.store.entries, e.rid)
      && Given(Do(cfg, lab, Allocate(popped, sid, h)), sid, lab.store.entries[e.rid].clientId, e.did, e.fence, h,
        lab.clock)
      && sid in s'.sessions
      && var s := s'.sessions[sid];
         s.state == SessionState.Reserved && s.lastAcceptedInputSeq == 0
           && s.claimDeadline == Some(lab.clock + cfg.claimMs)
         && s.expiresAt == lab.clock + cfg.sessionMaxMs && s.lastHeartbeatAt == lab.clock
         && s.activatedAt.None? && s.reconnectDeadline.None? && s.endReason.None?
    ensures var (s', reply) := Scripts.Allocate(lab.store, popped, sid, h, lab.clock, cfg);
      var e := Effect(cfg, lab, Allocate(popped, sid, h)).1[0];
      e.did in s'.devices && sid in s'.sessions
      && reply == Allocated(s'.sessions[sid], s'.devices[e.did], e.rid, lab.store.entries[e.rid].enqueuedAt)
  {
  }

  predicate SameToken(pre: Option<Session>, post: Option<Session>) {
    pre.Some? && post.Some? ==> pre.value.claimTokenHash == post.value.claimTokenHash
  }

  ghost predicate TokenStep(cfg: Config, lab: Lab, cmd: Cmd, sid: SessionId)
    requires Allowed(lab, cmd)
  {
    SameToken(Lookup(lab.store.sessions, sid), Lookup(Effect(cfg, lab, cmd).0.sessions, sid))
  }

  lemma AllocateKeepsToken(cfg: Config, lab: Lab, popped: Option<DeviceId>, x: SessionId, h: TokenHash, sid: SessionId)
    requires IdsOk(lab) && Allowed(lab, Allocate(popped, x, h))
    ensures TokenStep(cfg, lab, Allocate(popped, x, h), sid)
  {
    AllocatedSessions(lab.store, popped, x, h, lab.clock, cfg);
    hide Scripts.Allocate;
  }

  lemma CleanupKeepsToken(cfg: Config, lab: Lab, x: SessionId, did: DeviceId, ok: bool, sid: SessionId)
    requires Allowed(lab, FinishCleanup(x, did, ok))
    ensures TokenStep(cfg, lab, FinishCleanup(x, did, ok), sid)
  {
    FinishedSessions(lab.store, x, did, ok, lab.clock, cfg);
    hide Scripts.FinishCleanup;
  }

  lemma RecordKeepsToken(cfg: Config, lab: Lab, cmd: Cmd, sid: SessionId)
    requires Allowed(lab, cmd) && (cmd.Claim? || cmd.Reconnect? || cmd.BeginTermination?)
    ensures TokenStep(cfg, lab, cmd, sid)
  {
  }

  lemma TouchKeepsToken(cfg: Config, lab: Lab, cmd: Cmd, sid: SessionId)
    requires Allowed(lab, cmd) && (cmd.Heartbeat? || cmd.MarkDisconnected? || cmd.UpdateInputSeq? || cmd.ForgetSession?)
    ensures TokenStep(cfg, lab, cmd, sid)
  {
  }

  lemma TokenMoves(cfg: Config, lab: Lab, cmd: Cmd, sid: SessionId)
    requires Sound(lab) && Allowed(lab, cmd)
    ensures TokenStep(cfg, lab, cmd, sid)
  {
    hide Effect, StoreOk, IdsOk;
    match cmd
    case Allocate(popped, x, h) => AllocateKeepsToken(cfg, lab, popped, x, h, sid);
    case FinishCleanup(x, did, ok) => CleanupKeepsToken(cfg, lab, x, did, ok, sid);
    case Claim(_, _, _) => RecordKeepsToken(cfg, lab, cmd, sid);
    case Reconnect(_, _) => RecordKeepsToken(cfg, lab, cmd, sid);
    case BeginTermination(_, _, _, _) => RecordKeepsToken(cfg, lab, cmd, sid);
    case Heartbeat(_, _) => TouchKeepsToken(cfg, lab, cmd, sid);
    case MarkDisconnected(_, _) => TouchKeepsToken(cfg, lab, cmd, sid);
    case UpdateInputSeq(_, _) => TouchKeepsToken(cfg, lab, cmd, sid);
    case ForgetSession(_) => TouchKeepsToken(cfg, lab, cmd, sid);
    case _ => OthersLeaveSessions(cfg, lab, cmd);
  }

  lemma GivenStep(cfg: Config, lab: Lab, cmd: Cmd, sid: SessionId, client: ClientId, did: DeviceId, fence: nat,
      h: TokenHash, at: int)
    requires Sound(lab) && Allowed(lab, cmd) && Given(lab, sid, client, did, fence, h, at)
    ensures Given(Do(cfg, lab, cmd), sid, client, did, fence, h, at)
  {
    hide Effect, Sound;
    SessionMoves(cfg, lab, cmd, sid);
    TokenMoves(cfg, lab, cmd, sid);
    EventKinds(cfg, lab, cmd);
  }

  lemma {:induction false} GivenRun(cfg: Config, a: Lab, cmds: seq<Cmd>, b: Lab, sid: SessionId, client: ClientId,
      did: DeviceId, fence: nat, h: TokenHash, at: int)
    requires Sound(a) && TenuresOk(cfg, a) && Runs(cfg, a, cmds, b) && Given(a, sid, client, did, fence, h, at)
    ensures Sound(b) && TenuresOk(cfg, b) && Given(b, sid, client, did, fence, h, at)
    decreases |cmds|
  {
    hide Effect, Sound, TenuresOk, Given;
    if cmds != [] {
      SoundStep(cfg, a, cmds[0]);
      TenureStep(cfg, a, cmds[0]);
      GivenStep(cfg, a, cmds[0], sid, client, did, fence, h, at);
      GivenRun(cfg, Do(cfg, a, cmds[0]), cmds[1..], b, sid, client, did, fence, h, at);
    }
  }

  /** A run that begins with a grant: the session `sid` for the waiter of `rid`. */
  ghost predicate GrantedRun(cfg: Config, a: Lab, sid: SessionId, h: TokenHash, did: DeviceId, fence: nat,
      rid: RequestId,
                             cmds: seq<Cmd>, b: Lab)
  {
    Reachable(cfg, a)
    && exists popped ::
         Allowed(a, Allocate(popped, sid, h))
           && Effect(cfg, a, Allocate(popped, sid, h)).1 == [Granted(sid, did, fence, rid)]
         && Runs(cfg, Do(cfg, a, Allocate(popped, sid, h)), cmds, b)
  }

  lemma GrantedHolds(cfg: Config, a: Lab, sid: SessionId, h: TokenHash, did: DeviceId, fence: nat, rid: RequestId,
      cmds: seq<Cmd>, b: Lab)
    requires GrantedRun(cfg, a, sid, h, did, fence, rid, cmds, b)
    ensures rid in a.store.entries
    ensures Sound(b) && TenuresOk(cfg, b) && Given(b, sid, a.store.entries[rid].clientId, did, fence, h, a.clock)
  {
    hide Effect, Sound, TenuresOk, Given, Runs;
    var popped :| Allowed(a, Allocate(popped, sid, h))
      && Effect(cfg, a, Allocate(popped, sid, h)).1 == [Granted(sid, did, fence, rid)]
      && Runs(cfg, Do(cfg, a, Allocate(popped, sid, h)), cmds, b);
    var granted := Do(cfg, a, Allocate(popped, sid, h));
    ReachableIsSound(cfg, a);
    GrantMakes(cfg, a, popped, sid, h);
    SoundStep(cfg, a, Allocate(popped, sid, h));
    TenureStep(cfg, a, Allocate(popped, sid, h));
    GivenRun(cfg, granted, cmds, b, sid, a.store.entries[rid].clientId, did, fence, h, a.clock);
  }

  predicate InState(lab: Lab, sid: SessionId, st: SessionState) {
    sid in lab.store.sessions && lab.store.sessions[sid].state == st
  }

  // ---------------- claiming ----------------

  /** What a claim does and answers, of one record. */
  lemma ClaimOf(cfg: Config, lab: Lab, sid: SessionId, c: ClientId, p: Option<TokenHash>)
    ensures var reply := Scripts.Claim(lab.store, sid, c, p, lab.clock, cfg).1;
      var lab' := Do(cfg, lab, Claim(sid, c, p));
      if sid !in lab.store.sessions then reply == SessionErr(NotFound) && lab' == lab
      else
        var s := lab.store.sessions[sid];
        var token := p.None? || p == Some(s.claimTokenHash);
        var late := s.claimDeadline.Some? && lab.clock > s.claimDeadline.value;
        if s.clientId != c then reply == SessionErr(Forbidden) && lab' == lab
        else if s.state == Active then reply.SessionGiven? && reply.session == s && lab' == lab
        else if s.state != SessionState.Reserved then reply == SessionErr(BadState) && lab' == lab
        else if !token then reply == SessionErr(Forbidden) && lab' == lab
        else if late then reply == SessionErr(ClaimExpired) && lab' == lab
        else reply.SessionGiven? && InState(lab', sid, Active) && reply.session == lab'.store.sessions[sid]
             && reply.session.activatedAt == Some(lab.clock)
    ensures var reply := Scripts.Claim(lab.store, sid, c, p, lab.clock, cfg).1;
      reply.SessionGiven? ==> reply.device == Lookup(Do(cfg, lab, Claim(sid, c, p)).store.devices,
        reply.session.deviceId)
  {
  }

  /**
   * A session granted to the waiter of `rid` with token `h` passes from reserved to active by a claim if and
   * only if it is the waiter's client that claims, with that token or, as its own connection does, with
   * none, and within the claim window of the grant. The claim is answered with the session just then, and
   * when that client has the session active already; every other claim changes nothing.
   */
  lemma ClaimIsEarned(cfg: Config, a: Lab, sid: SessionId, h: TokenHash, did: DeviceId, fence: nat, rid: RequestId,
      cmds: seq<Cmd>, b: Lab, c: ClientId, p: Option<TokenHash>)
    requires GrantedRun(cfg, a, sid, h, did, fence, rid, cmds, b)
    ensures rid in a.store.entries
    ensures var b' := Do(cfg, b, Claim(sid, c, p));
      var reply := Scripts.Claim(b.store, sid, c, p, b.clock, cfg).1;
      var mine := c == a.store.entries[rid].clientId;
      var earned := mine && (p.None? || p == Some(h)) && b.clock <= a.clock + cfg.claimMs;
      (InState(b, sid, SessionState.Reserved) ==> (InState(b', sid, Active) <==> earned))
      && (reply.SessionGiven? <==>
            (InState(b, sid, SessionState.Reserved) && earned) || (InState(b, sid, Active) && mine))
      && (reply.SessionGiven? ==>
            reply.session == b'.store.sessions[sid] && reply.device == Lookup(b'.store.devices, did)
            && reply.session.deviceId == did && reply.session.leaseFence == fence)
      && (InState(b, sid, SessionState.Reserved) && earned ==> reply.session.activatedAt == Some(b.clock))
      && (b' == b <==> !(InState(b, sid, SessionState.Reserved) && earned))
      && (reply == SessionErr(ClaimExpired) <==>
            InState(b, sid, SessionState.Reserved) && mine && (p.None? || p == Some(h))
              && b.clock > a.clock + cfg.claimMs)
  {
    hide Sound, GrantedRun, Scripts.Claim, Effect, Do;
    GrantedHolds(cfg, a, sid, h, did, fence, rid, cmds, b);
    if sid in b.store.sessions { assert TenureOk(cfg, b, sid); }
    ClaimKeeps(cfg, b, sid, c, p);
    DeadlineIsSet(cfg, b, sid);
    ClaimOf(cfg, b, sid, c, p);
  }

  lemma DeadlineIsSet(cfg: Config, lab: Lab, sid: SessionId)
    requires sid in lab.store.sessions ==> TenureOk(cfg, lab, sid)
    ensures InState(lab, sid, SessionState.Reserved) ==>
      var s := lab.store.sessions[sid];
      s.claimDeadline == Some(s.createdAt + cfg.claimMs)
  {
  }

  lemma ClaimKeeps(cfg: Config, lab: Lab, sid: SessionId, c: ClientId, p: Option<TokenHash>)
    ensures var lab' := Do(cfg, lab, Claim(sid, c, p));
      sid in lab.store.sessions ==>
        sid in lab'.store.sessions
        && lab'.store.sessions[sid].deviceId == lab.store.sessions[sid].deviceId
        && lab'.store.sessions[sid].leaseFence == lab.store.sessions[sid].leaseFence
  {
  }

  // ---------------- coming back ----------------

  /** The session, while it is detached, may be taken back until then. */
  predicate BackUntil(lab: Lab, sid: SessionId, deadline: int) {
    sid in lab.sids
    && (InState(lab, sid, Disconnected) ==> lab.store.sessions[sid].reconnectDeadline == Some(deadline))
  }

  lemma BackUntilStep(cfg: Config, lab: Lab, cmd: Cmd, sid: SessionId, deadline: int)
    requires Sound(lab) && Allowed(lab, cmd) && BackUntil(lab, sid, deadline)
    requires !(cmd.MarkDisconnected? && cmd.sid == sid)
    ensures BackUntil(Do(cfg, lab, cmd), sid, deadline)
  {
    hide Effect, Sound;
    SessionMoves(cfg, lab, cmd, sid);
    TimesMoves(cfg, lab, cmd, sid);
    Detaching.BeatMoves(cfg, lab, cmd, sid);
    EventKinds(cfg, lab, cmd);
  }

  lemma {:induction false} BackUntilRun(cfg: Config, a: Lab, cmds: seq<Cmd>, b: Lab, sid: SessionId, deadline: int)
    requires Sound(a) && Runs(cfg, a, cmds, b) && BackUntil(a, sid, deadline)
    requires forall cmd | cmd in cmds :: !(cmd.MarkDisconnected? && cmd.sid == sid)
    ensures Sound(b) && BackUntil(b, sid, deadline)
    decreases |cmds|
  {
    hide Effect, Sound, BackUntil;
    if cmds != [] {
      assert cmds[0] in cmds;
      SoundStep(cfg, a, cmds[0]);
      BackUntilStep(cfg, a, cmds[0], sid, deadline);
      BackUntilRun(cfg, Do(cfg, a, cmds[0]), cmds[1..], b, sid, deadline);
    }
  }

  /** What a reconnect does and answers, of one record. */
  lemma ReconnectOf(cfg: Config, lab: Lab, sid: SessionId, c: ClientId)
    ensures var reply := Scripts.Reconnect(lab.store, sid, c, lab.clock).1;
      var lab' := Do(cfg, lab, Reconnect(sid, c));
      if sid !in lab.store.sessions then reply == SessionErr(NotFound) && lab' == lab
      else
        var s := lab.store.sessions[sid];
        var late := s.reconnectDeadline.Some? && lab.clock > s.reconnectDeadline.value;
        if s.clientId != c then reply == SessionErr(Forbidden) && lab' == lab
        else if s.state == Active then reply.SessionGiven? && reply.session == s && lab' == lab
        else if s.state != Disconnected then reply == SessionErr(BadState) && lab' == lab
        else if late then reply == SessionErr(GraceExpired) && lab' == lab
        else reply.SessionGiven? && InState(lab', sid, Active) && reply.session == lab'.store.sessions[sid]
             && lab'.store.sessions[sid].deviceId == s.deviceId && lab'.store.sessions[sid].leaseFence == s.leaseFence
             && lab'.store.sessions[sid].lastAcceptedInputSeq == s.lastAcceptedInputSeq
             && lab'.store.clientSession == lab.store.clientSession[c := sid]
    ensures var reply := Scripts.Reconnect(lab.store, sid, c, lab.clock).1;
      reply.SessionGiven? ==> reply.device == Lookup(lab.store.devices, reply.session.deviceId)
  {
  }

  lemma MarkOf(cfg: Config, lab: Lab, sid: SessionId, at: int)
    requires InState(lab, sid, Active) && sid in lab.sids && Allowed(lab, MarkDisconnected(sid, at))
    ensures BackUntil(Do(cfg, lab, MarkDisconnected(sid, at)), sid, at + cfg.graceMs)
    ensures InState(Do(cfg, lab, MarkDisconnected(sid, at)), sid, Disconnected)
  {
  }

  /**
   * Grace: an active session detached at `at` and not detached again comes back by a reconnect if and only if
   * it is its own client that reconnects and the grace has not run out. It comes back to the same device, fence
   * and saved number; the reply is the session just then, and when that client has it active already.
   */
  lemma GraceIsHonoured(cfg: Config, a: Lab, sid: SessionId, at: int, cmds: seq<Cmd>, b: Lab, c: ClientId)
    requires Sound(a) && InState(a, sid, Active) && Allowed(a, MarkDisconnected(sid, at))
    requires Runs(cfg, Do(cfg, a, MarkDisconnected(sid, at)), cmds, b)
    requires forall cmd | cmd in cmds :: !(cmd.MarkDisconnected? && cmd.sid == sid)
    requires sid in b.store.sessions
    ensures var s, b' := b.store.sessions[sid], Do(cfg, b, Reconnect(sid, c));
      var reply := Scripts.Reconnect(b.store, sid, c, b.clock).1;
      var inTime := b.clock <= at + cfg.graceMs;
      (s.state == Disconnected ==> (InState(b', sid, Active) <==> c == s.clientId && inTime))
      && (reply.SessionGiven? <==> c == s.clientId && (s.state == Active || (s.state == Disconnected && inTime)))
      && (reply.SessionGiven? ==>
            sid in b'.store.sessions && reply.session == b'.store.sessions[sid]
            && reply.session.deviceId == s.deviceId && reply.session.leaseFence == s.leaseFence
            && reply.session.lastAcceptedInputSeq == s.lastAcceptedInputSeq
            && reply.device == Lookup(b.store.devices, s.deviceId))
  {
    hide Sound, Scripts.Reconnect, Effect, BackUntil, Runs, Do;
    WasIssued(a, sid);
    MarkOf(cfg, a, sid, at);
    SoundStep(cfg, a, MarkDisconnected(sid, at));
    BackUntilRun(cfg, Do(cfg, a, MarkDisconnected(sid, at)), cmds, b, sid, at + cfg.graceMs);
    if InState(b, sid, Disconnected) { DeadlineOf(b, sid, at + cfg.graceMs); }
    ReconnectOf(cfg, b, sid, c);
  }

  lemma WasIssued(lab: Lab, sid: SessionId)
    requires Sound(lab) && sid in lab.store.sessions
    ensures sid in lab.sids
  {
  }

  lemma DeadlineOf(lab: Lab, sid: SessionId, deadline: int)
    requires BackUntil(lab, sid, deadline) && InState(lab, sid, Disconnected)
    ensures lab.store.sessions[sid].reconnectDeadline == Some(deadline)
  {
  }

  // ---------------- ending ----------------

  /** What a termination does and answers, of one record. */
  lemma EndOf(cfg: Config, lab: Lab, sid: SessionId, reason: EndReason, expired: bool, expected: Option<nat>)
    ensures var reply := Scripts.BeginTermination(lab.store, sid, reason, expired, expected).1;
      var lab' := Do(cfg, lab, BeginTermination(sid, reason, expired, expected));
      if sid in lab.store.sessions && Live(lab.store.sessions[sid].state)
         && (expected.None? || expected == Some(lab.store.sessions[sid].leaseFence))
      then
        var s := lab.store.sessions[sid];
        lab'.store.sessions == lab.store.sessions[sid :=
          s.(state := if expired then Expired else Ending, endReason := Some(reason))]
        && reply == TerminationOk(lab'.store.sessions[sid]) && lab'.log == lab.log + [Terminated(sid, reason)]
        && lab'.store.clientSession == lab.store.clientSession - {s.clientId}
      else reply.TerminationErr? && lab' == lab
  {
  }

  /**
   * A granted session is ended by a termination if and only if it is still live and no fence, or the one it
   * was granted under, is presented. It then expires or ends as asked, for the reason given, and is answered with
   * its new record; no other session changes. Otherwise nothing changes.
   */
  lemma EndsOnDemand(cfg: Config, a: Lab, sid: SessionId, h: TokenHash, did: DeviceId, fence: nat, rid: RequestId,
      cmds: seq<Cmd>, b: Lab, reason: EndReason, expired: bool, expected: Option<nat>)
    requires GrantedRun(cfg, a, sid, h, did, fence, rid, cmds, b)
    ensures var b' := Do(cfg, b, BeginTermination(sid, reason, expired, expected));
      var reply := Scripts.BeginTermination(b.store, sid, reason, expired, expected).1;
      if sid in b.store.sessions && Live(b.store.sessions[sid].state) && (expected.None? || expected == Some(fence))
      then
        b'.store.sessions == b.store.sessions[sid := b.store.sessions[sid].(
          state := if expired then Expired else Ending, endReason := Some(reason))]
        && reply == TerminationOk(b'.store.sessions[sid]) && b'.log == b.log + [Terminated(sid, reason)]
      else reply.TerminationErr? && b' == b
  {
    hide Sound, GrantedRun, Scripts.BeginTermination, Effect, Do;
    GrantedHolds(cfg, a, sid, h, did, fence, rid, cmds, b);
    EndOf(cfg, b, sid, reason, expired, expected);
  }

  // ---------------- being expired ----------------

  /**
   * The reaper expires a granted session for its claim window if and only if it is still reserved when that
   * window, counted from the grant, has passed.
   */
  lemma ClaimTimeoutIsEarned(cfg: Config, a: Lab, sid: SessionId, h: TokenHash, did: DeviceId, fence: nat,
      rid: RequestId,
      cmds: seq<Cmd>, b: Lab)
    requires GrantedRun(cfg, a, sid, h, did, fence, rid, cmds, b) && sid in b.store.sessions
    ensures Judge(cfg, b.store.sessions[sid], b.clock) == Expire(ClaimTimeout) <==>
      InState(b, sid, SessionState.Reserved) && b.clock > a.clock + cfg.claimMs
  {
    GrantedHolds(cfg, a, sid, h, did, fence, rid, cmds, b);
    hide Sound, GrantedRun;
    assert TenureOk(cfg, b, sid);
  }

  /**
   * And it expires a session that was detached at `at`, and not detached again, as abandoned if and only if
   * the session is still detached and within its session time when the grace has passed.
   */
  lemma AbandonedIsEarned(cfg: Config, a: Lab, sid: SessionId, at: int, cmds: seq<Cmd>, b: Lab)
    requires Sound(a) && InState(a, sid, Active) && Allowed(a, MarkDisconnected(sid, at)) && 0 < at
    requires Runs(cfg, Do(cfg, a, MarkDisconnected(sid, at)), cmds, b)
    requires forall cmd | cmd in cmds :: !(cmd.MarkDisconnected? && cmd.sid == sid)
    requires sid in b.store.sessions
    ensures var s := b.store.sessions[sid];
      Judge(cfg, s, b.clock) == Expire(Abandoned) <==>
        s.state == Disconnected && b.clock <= s.expiresAt && b.clock > at + cfg.graceMs
  {
    hide Sound, Effect, BackUntil, Runs, Do;
    WasIssued(a, sid);
    MarkOf(cfg, a, sid, at);
    SoundStep(cfg, a, MarkDisconnected(sid, at));
    BackUntilRun(cfg, Do(cfg, a, MarkDisconnected(sid, at)), cmds, b, sid, at + cfg.graceMs);
    if InState(b, sid, Disconnected) { DeadlineOf(b, sid, at + cfg.graceMs); }
  }

  // ---------------- heartbeats and saved numbers ----------------

  /** What the scripts that touch up a session record do and answer. */
  lemma TouchOf(s: Store, sid: SessionId, who: Option<ClientId>, now: int, deadline: int, n: nat)
    ensures var (s', ok) := Scripts.Heartbeat(s, sid, who, now);
      (ok <==> sid in s.sessions && Nonterminal(s.sessions[sid].state)
               && (who.None? || who == Some(s.sessions[sid].clientId)))
      && s' == if ok && who.Some? then s.(sessions := s.sessions[sid := s.sessions[sid].(lastHeartbeatAt := now)])
        else s
    ensures var (s', ok) := Scripts.MarkDisconnected(s, sid, deadline);
      (ok <==> sid in s.sessions && s.sessions[sid].state == Active) && (!ok ==> s' == s)
    ensures var (s', ok) := Scripts.UpdateInputSeq(s, sid, n);
      (ok <==> sid in s.sessions && Nonterminal(s.sessions[sid].state)) && (!ok ==> s' == s)
      && (ok ==> var m := s.sessions[sid].lastAcceptedInputSeq;
                 s'.sessions == s.sessions[sid := s.sessions[sid].(lastAcceptedInputSeq := if n > m then n else m)])
  {
    assert sid in s.sessions ==> s.sessions[sid := s.sessions[sid]] == s.sessions;
  }

  /**
   * A heartbeat for a granted session is accepted if and only if the session has not ended and it comes from the
   * client it was granted to, whose session is then stamped with the time, or from the server itself, which leaves
   * the record alone.
   */
  lemma HeartbeatIsEarned(cfg: Config, a: Lab, sid: SessionId, h: TokenHash, did: DeviceId, fence: nat, rid: RequestId,
      cmds: seq<Cmd>, b: Lab, who: Option<ClientId>)
    requires GrantedRun(cfg, a, sid, h, did, fence, rid, cmds, b)
    ensures rid in a.store.entries
    ensures var client := a.store.entries[rid].clientId;
      var ok := Scripts.Heartbeat(b.store, sid, who, b.clock).1;
      var b' := Do(cfg, b, Heartbeat(sid, who));
      (ok <==>
         sid in b.store.sessions && Nonterminal(b.store.sessions[sid].state) && (who.None? || who == Some(client)))
      && b'.store == if ok && who.Some?
        then b.store.(sessions := b.store.sessions[sid := b.store.sessions[sid].(lastHeartbeatAt := b.clock)])
        else b.store
  {
    GrantedHolds(cfg, a, sid, h, did, fence, rid, cmds, b);
    hide Sound, GrantedRun, TenuresOk, Scripts.Heartbeat, Scripts.MarkDisconnected, Scripts.UpdateInputSeq, Effect, Do;
    TouchOf(b.store, sid, who, b.clock, 0, 0);
    BeatIsTheScript(cfg, b, sid, who);
  }

  lemma BeatIsTheScript(cfg: Config, lab: Lab, sid: SessionId, who: Option<ClientId>)
    ensures Do(cfg, lab, Heartbeat(sid, who)).store == Scripts.Heartbeat(lab.store, sid, who, lab.clock).0
  {
    hide Scripts.Heartbeat;
  }

  // ---------------- withdrawing ----------------

  /** The entry is its client's, for as long as there is a record of it. */
  predicate Asked(lab: Lab, rid: RequestId, client: ClientId) {
    rid in lab.rids && (rid in lab.store.entries ==> lab.store.entries[rid].clientId == client)
  }

  lemma {:induction false} AskedRun(cfg: Config, a: Lab, cmds: seq<Cmd>, b: Lab, rid: RequestId, client: ClientId)
    requires Sound(a) && Runs(cfg, a, cmds, b) && Asked(a, rid, client)
    ensures Sound(b) && Asked(b, rid, client)
    decreases |cmds|
  {
    hide Effect, Sound;
    if cmds != [] {
      SoundStep(cfg, a, cmds[0]);
      EntryMoves(cfg, a, cmds[0], rid);
      AskedRun(cfg, Do(cfg, a, cmds[0]), cmds[1..], b, rid, client);
    }
  }

  lemma JoinAsks(cfg: Config, lab: Lab, client: ClientId, h: TokenHash, rid: RequestId)
    requires Allowed(lab, JoinQueue(client, h, rid)) && Effect(cfg, lab, JoinQueue(client, h, rid)).1 != []
    ensures Asked(Do(cfg, lab, JoinQueue(client, h, rid)), rid, client)
  {
  }

  lemma CancelOf(cfg: Config, lab: Lab, rid: RequestId, client: Option<ClientId>, expired: bool)
    ensures var ok := Scripts.CancelRequest(lab.store, rid, client, expired).1;
      var lab' := Do(cfg, lab, CancelRequest(rid, client, expired));
      if IsWaiting(lab.store.entries, rid) && (client.None? || client == Some(lab.store.entries[rid].clientId))
      then ok && lab'.store.entries == lab.store.entries[rid := lab.store.entries[rid].(
                   state := if expired then TimedOut else Cancelled)]
           && lab'.store.queue == lab.store.queue - {rid} && lab'.log == lab.log + [Withdrawn(rid)]
      else !ok && lab' == lab
  {
  }

  /**
   * A request that a client has queued is withdrawn if and only if it still waits and that client, or the
   * server on nobody's behalf, withdraws it. It is then marked as timed out or cancelled as asked, and leaves
   * the queue; no other request changes. Otherwise nothing changes.
   */
  lemma WithdrawsOnDemand(cfg: Config, a: Lab, client: ClientId, h: TokenHash, rid: RequestId, cmds: seq<Cmd>, b: Lab,
      asker: Option<ClientId>, expired: bool)
    requires Sound(a) && Allowed(a, JoinQueue(client, h, rid)) && Effect(cfg, a, JoinQueue(client, h, rid)).1 != []
    requires Runs(cfg, Do(cfg, a, JoinQueue(client, h, rid)), cmds, b)
    ensures var b' := Do(cfg, b, CancelRequest(rid, asker, expired));
      var ok := Scripts.CancelRequest(b.store, rid, asker, expired).1;
      if IsWaiting(b.store.entries, rid) && (asker.None? || asker == Some(client))
      then ok && b'.store.entries == b.store.entries[rid := b.store.entries[rid].(
                   state := if expired then TimedOut else Cancelled)]
           && b'.store.queue == b.store.queue - {rid} && b'.log == b.log + [Withdrawn(rid)]
      else !ok && b' == b
  {
    hide Sound, Scripts.CancelRequest, Effect, Do, Runs;
    JoinAsks(cfg, a, client, h, rid);
    SoundStep(cfg, a, JoinQueue(client, h, rid));
    AskedRun(cfg, Do(cfg, a, JoinQueue(client, h, rid)), cmds, b, rid, client);
    CancelOf(cfg, b, rid, asker, expired);
  }
}
