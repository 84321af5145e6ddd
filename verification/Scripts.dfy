/**
 * The store's contents and what each atomic script does to them, as functions.
 *
 * A script runs atomically, so it is a function from the contents before to the contents after and
 * a reply. Where Redis picks a member at random (`SPOP`), the pick is a parameter.
 */
module Scripts {
  import opened Domain
  import opened QueueOrder

  datatype Store = Store(
    queue: Queue,                                // sorted set of request ids, scored by enqueue time
    entries: map<RequestId, QueueEntry>,
    devices: map<DeviceId, Device>,
    deviceIds: set<DeviceId>,
    avail: set<DeviceId>,
    sessions: map<SessionId, Session>,
    listed: set<SessionId>,                      // the "sessions" set that the reaper walks
    clientSession: map<ClientId, SessionId>,
    clientRequest: map<ClientId, RequestId>,
    fences: map<DeviceId, nat>)

  const EMPTY := Store(map[], map[], map[], {}, {}, map[], {}, map[], map[], map[])

  datatype ErrorCode = NotFound | Forbidden | BadState | ClaimExpired | AlreadyTerminal
                     | FenceMismatch | NoDevice | Stale | GraceExpired

  datatype JoinReply = ExistingSession(session: Session) | ExistingEntry(entry: QueueEntry) | Joined(entry: QueueEntry)
  datatype AllocateReply = Nothing | Allocated(session: Session, device: Device, requestId: RequestId, enqueuedAt: int)
  datatype SessionReply = SessionGiven(session: Session, device: Option<Device>) | SessionErr(code: ErrorCode)
  datatype TerminationReply = TerminationOk(session: Session) | TerminationErr(code: ErrorCode)
  datatype CleanupReply = CleanupOk(deviceState: DeviceState) | CleanupErr(code: ErrorCode)
  datatype HealthReply = Healthy | WentOffline | Recovered | SessionUnhealthy | Missing

  function Lookup<K, V>(m: map<K, V>, k: K): Option<V> {
    if k in m then Some(m[k]) else None
  }

  // ---------------- the queue ----------------

  predicate IsWaiting(entries: map<RequestId, QueueEntry>, r: RequestId) {
    r in entries && entries[r].state == Waiting
  }

  function WaitingIn(queue: Queue, entries: map<RequestId, QueueEntry>): set<RequestId> {
    set r | r in queue && IsWaiting(entries, r)
  }

  /** The waiter that allocation serves: the least queue member whose entry still waits. */
  ghost function Head(queue: Queue, entries: map<RequestId, QueueEntry>): (h: Option<RequestId>)
    ensures h.None? <==> WaitingIn(queue, entries) == {}
    ensures h.Some? ==> IsLeast(queue, WaitingIn(queue, entries), h.value)
  {
    var w := WaitingIn(queue, entries);
    if w == {} then None else Some(Least(queue, w))
  }

  /** What is left of the queue once every dead member ahead of the head has been removed. */
  ghost function Pruned(queue: Queue, entries: map<RequestId, QueueEntry>): Queue {
    var h := Head(queue, entries);
    map r | r in queue && (IsWaiting(entries, r) || (h.Some? && Before(queue, h.value, r))) :: queue[r]
  }

  // ---------------- the scripts ----------------

  function JoinQueue(s: Store, clientId: ClientId, tokenHash: TokenHash, requestId: RequestId, now: int): (Store,
      JoinReply)
  {
    var sid := Lookup(s.clientSession, clientId);
    if sid.Some? && sid.value in s.sessions && Nonterminal(s.sessions[sid.value].state) then
      (s, ExistingSession(s.sessions[sid.value]))
    else
      var s1 := s.(clientSession := s.clientSession - {clientId});
      var rid := Lookup(s.clientRequest, clientId);
      if rid.Some? && IsWaiting(s.entries, rid.value) then
        (s1, ExistingEntry(s.entries[rid.value]))
      else
        var entry := QueueEntry(requestId, clientId, tokenHash, now, Waiting);
        (s1.(entries := s.entries[requestId := entry],
             queue := s.queue[requestId := now],
             clientRequest := s.clientRequest[clientId := requestId]),
         Joined(entry))
  }

  /** `SPOP` yields nothing exactly when the set is empty, and otherwise some member. */
  predicate PopOf(avail: set<DeviceId>, popped: Option<DeviceId>) {
    match popped
    case None => avail == {}
    case Some(d) => d in avail
  }

  function NewSession(sid: SessionId, clientId: ClientId, deviceId: DeviceId, fence: nat, claimHash: TokenHash,
                      now: int, cfg: Config): Session
  {
    Session(sid, clientId, deviceId, SessionState.Reserved, fence, claimHash, now, None, now + cfg.sessionMaxMs,
            Some(now + cfg.claimMs), None, now, 0, None)
  }

  /** The writes of a successful allocation: `rid` gets device `d` under the device's next fence. */
  function Grant(s: Store, d: DeviceId, rid: RequestId, sid: SessionId, claimHash: TokenHash, now: int, cfg: Config)
    : (Store, AllocateReply)
    requires d in s.devices && rid in s.entries
  {
    var waiter := s.entries[rid];
    var fence := (if d in s.fences then s.fences[d] else 0) + 1;
    var session := NewSession(sid, waiter.clientId, d, fence, claimHash, now, cfg);
    var device := s.devices[d].(state := DeviceState.Reserved, currentSessionId := Some(sid),
      leaseFence := Some(fence));
    (s.(queue := s.queue - {rid},
        entries := s.entries[rid := waiter.(state := Claimed)],
        devices := s.devices[d := device],
        sessions := s.sessions[sid := session],
        listed := s.listed + {sid},
        clientSession := s.clientSession[waiter.clientId := sid],
        clientRequest := s.clientRequest - {waiter.clientId},
        fences := s.fences[d := fence]),
     Allocated(session, device, rid, waiter.enqueuedAt))
  }

  ghost function Allocate(s: Store, popped: Option<DeviceId>, sid: SessionId, claimHash: TokenHash, now: int,
      cfg: Config)
    : (Store, AllocateReply)
    requires PopOf(s.avail, popped)
  {
    if popped.None? then (s, Nothing) else
    var d := popped.value;
    if d !in s.devices || s.devices[d].state != Available then
      (s.(avail := s.avail - {d}), Nothing)
    else
      match Head(s.queue, s.entries)
      case None => (s.(queue := Pruned(s.queue, s.entries)), Nothing)
      case Some(rid) =>
        Grant(s.(avail := s.avail - {d}, queue := Pruned(s.queue, s.entries)), d, rid, sid, claimHash, now, cfg)
  }

  function Claim(s: Store, sid: SessionId, clientId: ClientId, claimHash: Option<TokenHash>, now: int, cfg: Config)
    : (Store, SessionReply)
  {
    if sid !in s.sessions then (s, SessionErr(NotFound)) else
    var sess := s.sessions[sid];
    var dev := Lookup(s.devices, sess.deviceId);
    if sess.clientId != clientId then (s, SessionErr(Forbidden))
    else if sess.state == Active then (s, SessionGiven(sess, dev))
    else if sess.state != SessionState.Reserved then (s, SessionErr(BadState))
    else if claimHash.Some? && sess.claimTokenHash != claimHash.value then (s, SessionErr(Forbidden))
    else if sess.claimDeadline.Some? && now > sess.claimDeadline.value then (s, SessionErr(ClaimExpired))
    else
      var sess' := sess.(state := Active, activatedAt := Some(now), expiresAt := now + cfg.sessionMaxMs,
                         lastHeartbeatAt := now, claimDeadline := None);
      var s1 := s.(sessions := s.sessions[sid := sess']);
      if dev.None? then (s1, SessionGiven(sess', None)) else
      var dev' := dev.value.(state := InUse);
      (s1.(devices := s.devices[sess.deviceId := dev']), SessionGiven(sess', Some(dev')))
  }

  function BeginTermination(s: Store, sid: SessionId, reason: EndReason, expired: bool, expectedFence: Option<nat>)
    : (Store, TerminationReply)
  {
    if sid !in s.sessions then (s, TerminationErr(NotFound)) else
    var sess := s.sessions[sid];
    if !Live(sess.state) then (s, TerminationErr(AlreadyTerminal))
    else if expectedFence.Some? && sess.leaseFence != expectedFence.value then (s, TerminationErr(FenceMismatch))
    else
      var sess' := sess.(state := if expired then Expired else Ending, endReason := Some(reason));
      var s1 := s.(sessions := s.sessions[sid := sess'], clientSession := s.clientSession - {sess.clientId});
      var d := sess.deviceId;
      if d in s.devices && s.devices[d].currentSessionId == Some(sid) then
        (s1.(devices := s.devices[d := s.devices[d].(state := Cleaning)]), TerminationOk(sess'))
      else
        (s1, TerminationOk(sess'))
  }

  function FinishCleanup(s: Store, sid: SessionId, did: DeviceId, ok: bool, now: int, cfg: Config): (Store,
      CleanupReply)
  {
    var s1 := s.(sessions := if sid in s.sessions then s.sessions[sid := s.sessions[sid].(state := Ended)]
      else s.sessions,
                 listed := s.listed - {sid});
    if did !in s.devices then (s1, CleanupErr(NoDevice)) else
    var dev := s.devices[did];
    if dev.currentSessionId != Some(sid) then (s1, CleanupErr(Stale))
    else if ok then
      var dev' := dev.(state := Available, currentSessionId := None, failureCount := 0, lastHealthAt := now);
      (s1.(devices := s.devices[did := dev'], avail := s.avail + {did}), CleanupOk(Available))
    else
      var dev' := dev.(failureCount := dev.failureCount + 1);
      if dev'.failureCount >= cfg.maxFailures then
        (s1.(devices := s.devices[did := dev'.(state := Offline, currentSessionId := None)]), CleanupOk(Offline))
      else
        (s1.(devices := s.devices[did := dev']), CleanupOk(Cleaning))
  }

  /** `client` is None for the server's own lease renewal, which leaves the session record alone. */
  function Heartbeat(s: Store, sid: SessionId, client: Option<ClientId>, now: int): (Store, bool)
  {
    if sid !in s.sessions || !Nonterminal(s.sessions[sid].state) then (s, false)
    else if client.None? then (s, true)
    else if s.sessions[sid].clientId != client.value then (s, false)
    else (s.(sessions := s.sessions[sid := s.sessions[sid].(lastHeartbeatAt := now)]), true)
  }

  function MarkDisconnected(s: Store, sid: SessionId, deadline: int): (Store, bool)
  {
    if sid !in s.sessions || s.sessions[sid].state != Active then (s, false)
    else
      var sess' := s.sessions[sid].(state := Disconnected, reconnectDeadline := Some(deadline));
      (s.(sessions := s.sessions[sid := sess']), true)
  }

  function Reconnect(s: Store, sid: SessionId, clientId: ClientId, now: int): (Store, SessionReply)
  {
    if sid !in s.sessions then (s, SessionErr(NotFound)) else
    var sess := s.sessions[sid];
    var dev := Lookup(s.devices, sess.deviceId);
    if sess.clientId != clientId then (s, SessionErr(Forbidden))
    else if sess.state == Active then (s, SessionGiven(sess, dev))
    else if sess.state != Disconnected then (s, SessionErr(BadState))
    else if sess.reconnectDeadline.Some? && now > sess.reconnectDeadline.value then (s, SessionErr(GraceExpired))
    else
      var sess' := sess.(state := Active, reconnectDeadline := None, lastHeartbeatAt := now);
      (s.(sessions := s.sessions[sid := sess'], clientSession := s.clientSession[clientId := sid]),
        SessionGiven(sess', dev))
  }

  function HealthUpdate(s: Store, did: DeviceId, healthy: bool, now: int): (Store, HealthReply)
  {
    if did !in s.devices then (s, Missing) else
    var dev := s.devices[did];
    if dev.state == Available && !healthy then
      (s.(devices := s.devices[did := dev.(state := Offline, lastHealthAt := now)], avail := s.avail - {did}),
        WentOffline)
    else if dev.state == Offline && healthy && dev.currentSessionId.None? then
      (s.(devices := s.devices[did := dev.(state := Available, failureCount := 0, lastHealthAt := now)],
          avail := s.avail + {did}), Recovered)
    else if (dev.state == InUse || dev.state == DeviceState.Reserved) && !healthy then
      (s, SessionUnhealthy)
    else
      (s.(devices := s.devices[did := dev.(lastHealthAt := now)],
          avail := if dev.state == Available then s.avail + {did} else s.avail), Healthy)
  }

  function UpdateInputSeq(s: Store, sid: SessionId, inputSeq: nat): (Store, bool)
  {
    if sid !in s.sessions || !Nonterminal(s.sessions[sid].state) then (s, false)
    else if inputSeq > s.sessions[sid].lastAcceptedInputSeq then
      (s.(sessions := s.sessions[sid := s.sessions[sid].(lastAcceptedInputSeq := inputSeq)]), true)
    else (s, true)
  }

  function CancelRequest(s: Store, rid: RequestId, client: Option<ClientId>, expired: bool): (Store, bool)
  {
    if !IsWaiting(s.entries, rid) then (s, false)
    else if client.Some? && s.entries[rid].clientId != client.value then (s, false)
    else
      var entry := s.entries[rid];
      (s.(entries := s.entries[rid := entry.(state := if expired then TimedOut else Cancelled)],
          queue := s.queue - {rid},
          clientRequest := s.clientRequest - {entry.clientId}), true)
  }

  // ---------------- plain writes ----------------

  function RegisterDevice(s: Store, did: DeviceId, online: bool, now: int): Store
  {
    var dev := Device(did, if online then Available else Offline, None, None, now, 0);
    s.(deviceIds := s.deviceIds + {did},
       devices := s.devices[did := dev],
       avail := if online then s.avail + {did} else s.avail - {did})
  }

  function UnregisterDevice(s: Store, did: DeviceId): Store
  {
    s.(deviceIds := s.deviceIds - {did}, avail := s.avail - {did}, devices := s.devices - {did})
  }

  function SetDeviceAvailability(s: Store, did: DeviceId, available: bool): Store
  {
    s.(avail := if available then s.avail + {did} else s.avail - {did})
  }
}
