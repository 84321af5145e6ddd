/** Who holds what: the invariant that every script keeps, whatever interleaving or crash came before. */
module Ownership {
  import opened Domain
  import opened QueueOrder
  import opened Scripts
  import opened Lab

  type Sessions = map<SessionId, Session>
  type Devices = map<DeviceId, Device>

  // ---------------- sessions and devices ----------------

  /** A session that has not ended and its device point at each other under the device's newest fence. */
  predicate SessionOk(sessions: Sessions, devices: Devices, fences: map<DeviceId, nat>, listed: set<SessionId>,
      sid: SessionId)
    requires sid in sessions
  {
    var sess := sessions[sid];
    sess.id == sid
    && sess.state != CleaningUp
    && sess.deviceId in fences && 0 < sess.leaseFence <= fences[sess.deviceId]
    && (sess.state != Ended <==> sid in listed)
    && (sess.state != Ended ==>
          sess.deviceId in devices
          && var dev := devices[sess.deviceId];
             dev.currentSessionId == Some(sid)
             && dev.leaseFence == Some(sess.leaseFence)
             && dev.state == DeviceStateFor(sess.state))
  }

  /** A device is bound exactly while it is reserved, in use or being cleaned, and then under its newest fence. */
  predicate DeviceOk(sessions: Sessions, devices: Devices, fences: map<DeviceId, nat>, d: DeviceId)
    requires d in devices
  {
    var dev := devices[d];
    dev.id == d
    && (dev.state == Available || dev.state == Offline <==> dev.currentSessionId.None?)
    && (dev.currentSessionId.Some? ==>
          var sid := dev.currentSessionId.value;
          d in fences && dev.leaseFence == Some(fences[d])
          && (sid in sessions ==> sessions[sid].deviceId == d)
          && if dev.state == Cleaning then sid in sessions ==> !Live(sessions[sid].state)
             else sid in sessions && Live(sessions[sid].state))
  }

  ghost predicate LeasesOk(sessions: Sessions, devices: Devices, fences: map<DeviceId, nat>, listed: set<SessionId>) {
    && (forall sid {:trigger SessionOk(sessions, devices, fences, listed, sid)} | sid in sessions ::
          SessionOk(sessions, devices, fences, listed, sid))
    && (forall d {:trigger DeviceOk(sessions, devices, fences, d)} | d in devices ::
          DeviceOk(sessions, devices, fences, d))
    && listed <= sessions.Keys
  }

  // ---------------- clients ----------------

  /** The client index names exactly the live sessions. */
  ghost predicate ClientsOk(sessions: Sessions, clientSession: map<ClientId, SessionId>) {
    && (forall c | c in clientSession ::
          clientSession[c] in sessions && sessions[clientSession[c]].clientId == c
          && Live(sessions[clientSession[c]].state))
    && (forall sid | sid in sessions && Live(sessions[sid].state) ::
          Lookup(clientSession, sessions[sid].clientId) == Some(sid))
  }

  /** The queue and the request index name exactly the waiting entries, and nobody waits who has a live session. */
  ghost predicate WaitersOk(entries: map<RequestId, QueueEntry>, queue: Queue, clientRequest: map<ClientId, RequestId>,
                            clientSession: map<ClientId, SessionId>)
  {
    && (forall r | r in entries :: entries[r].requestId == r)
    && (forall r | r in queue :: IsWaiting(entries, r))
    && (forall r | IsWaiting(entries, r) ::
          r in queue && queue[r] == entries[r].enqueuedAt
          && Lookup(clientRequest, entries[r].clientId) == Some(r)
          && entries[r].clientId !in clientSession)
    && (forall c | c in clientRequest ::
          IsWaiting(entries, clientRequest[c]) && entries[clientRequest[c]].clientId == c)
  }

  ghost predicate StoreOk(s: Store) {
    && LeasesOk(s.sessions, s.devices, s.fences, s.listed)
    && s.deviceIds == s.devices.Keys
    && ClientsOk(s.sessions, s.clientSession)
    && WaitersOk(s.entries, s.queue, s.clientRequest, s.clientSession)
  }

  /** Every id in use has been issued. */
  ghost predicate IdsOk(lab: Lab) {
    && (forall sid | sid in lab.store.sessions :: sid in lab.sids)
    && (forall d | d in lab.store.devices && lab.store.devices[d].currentSessionId.Some? ::
          lab.store.devices[d].currentSessionId.value in lab.sids)
    && (forall r | r in lab.store.entries :: r in lab.rids)
  }

  ghost predicate Sound(lab: Lab) {
    StoreOk(lab.store) && IdsOk(lab)
  }

  // ---------------- what each script keeps ----------------

  /** A change to a session record that leaves its binding and its place on the path alone. */
  predicate Retouch(a: Session, b: Session) {
    a.id == b.id && a.clientId == b.clientId && a.deviceId == b.deviceId && a.leaseFence == b.leaseFence
    && b.state != CleaningUp && (Live(a.state) <==> Live(b.state)) && (a.state == Ended <==> b.state == Ended)
    && DeviceStateFor(a.state) == DeviceStateFor(b.state)
  }

  lemma RetouchOk(s: Store, sid: SessionId, sess: Session)
    requires StoreOk(s) && sid in s.sessions && Retouch(s.sessions[sid], sess)
    ensures StoreOk(s.(sessions := s.sessions[sid := sess]))
  {
    var s' := s.(sessions := s.sessions[sid := sess]);
    forall x | x in s'.sessions ensures SessionOk(s'.sessions, s'.devices, s'.fences, s'.listed, x) {
      assert SessionOk(s.sessions, s.devices, s.fences, s.listed, x);
    }
    forall x | x in s'.devices ensures DeviceOk(s'.sessions, s'.devices, s'.fences, x) {
      assert DeviceOk(s.sessions, s.devices, s.fences, x);
    }
  }

  lemma JoinQueueOk(s: Store, c: ClientId, h: TokenHash, rid: RequestId, now: int)
    requires StoreOk(s) && rid !in s.entries
    ensures StoreOk(Scripts.JoinQueue(s, c, h, rid, now).0)
  {
    if c !in s.clientSession {
      assert s.clientSession - {c} == s.clientSession;
      if c !in s.clientRequest {
        EnqueueOk(s, QueueEntry(rid, c, h, now, Waiting));
      }
    }
  }

  lemma EnqueueOk(s: Store, e: QueueEntry)
    requires StoreOk(s) && e.requestId !in s.entries && e.state == Waiting
    requires e.clientId !in s.clientSession && e.clientId !in s.clientRequest
    ensures WaitersOk(s.entries[e.requestId := e], s.queue[e.requestId := e.enqueuedAt],
                      s.clientRequest[e.clientId := e.requestId], s.clientSession)
  {
  }

  lemma GrantOk(s: Store, d: DeviceId, rid: RequestId, sid: SessionId, h: TokenHash, now: int, cfg: Config)
    requires StoreOk(s) && d in s.devices && s.devices[d].state == Available && IsWaiting(s.entries, rid)
    requires sid !in s.sessions && forall x | x in s.devices :: s.devices[x].currentSessionId != Some(sid)
    ensures StoreOk(Scripts.Grant(s, d, rid, sid, h, now, cfg).0)
  {
    var s' := Scripts.Grant(s, d, rid, sid, h, now, cfg).0;
    assert DeviceOk(s.sessions, s.devices, s.fences, d);
    forall x | x in s'.sessions ensures SessionOk(s'.sessions, s'.devices, s'.fences, s'.listed, x) {
      if x != sid { assert SessionOk(s.sessions, s.devices, s.fences, s.listed, x); }
    }
    forall x | x in s'.devices ensures DeviceOk(s'.sessions, s'.devices, s'.fences, x) {
      assert DeviceOk(s.sessions, s.devices, s.fences, x);
    }
    ServedOk(s, rid, sid, s'.sessions[sid]);
  }

  /** The client side of an allocation: a waiter becomes the client of a new session. */
  lemma ServedOk(s: Store, rid: RequestId, sid: SessionId, sess: Session)
    requires StoreOk(s) && IsWaiting(s.entries, rid) && sid !in s.sessions
    requires sess.clientId == s.entries[rid].clientId && Live(sess.state)
    ensures ClientsOk(s.sessions[sid := sess], s.clientSession[sess.clientId := sid])
    ensures WaitersOk(s.entries[rid := s.entries[rid].(state := Claimed)], s.queue - {rid},
                      s.clientRequest - {sess.clientId}, s.clientSession[sess.clientId := sid])
  {
  }

  /** A live session moves on, and its device with it. */
  lemma AdvanceOk(s: Store, sid: SessionId, sess: Session, devices: Devices)
    requires StoreOk(s) && sid in s.sessions && Live(s.sessions[sid].state)
    requires sess.id == sid && sess.clientId == s.sessions[sid].clientId && sess.deviceId == s.sessions[sid].deviceId
    requires sess.leaseFence == s.sessions[sid].leaseFence && sess.state != Ended && sess.state != CleaningUp
    requires sess.deviceId in s.devices ==>
      devices == s.devices[sess.deviceId := s.devices[sess.deviceId].(state := DeviceStateFor(sess.state))]
    ensures LeasesOk(s.sessions[sid := sess], devices, s.fences, s.listed)
    ensures devices.Keys == s.devices.Keys
  {
    assert SessionOk(s.sessions, s.devices, s.fences, s.listed, sid);
    var sessions := s.sessions[sid := sess];
    forall x | x in sessions ensures SessionOk(sessions, devices, s.fences, s.listed, x) {
      assert SessionOk(s.sessions, s.devices, s.fences, s.listed, x);
    }
    forall x | x in devices ensures DeviceOk(sessions, devices, s.fences, x) {
      assert DeviceOk(s.sessions, s.devices, s.fences, x);
    }
  }

  lemma ClaimOk(s: Store, sid: SessionId, c: ClientId, h: Option<TokenHash>, now: int, cfg: Config)
    requires StoreOk(s)
    ensures StoreOk(Scripts.Claim(s, sid, c, h, now, cfg).0)
  {
    var s' := Scripts.Claim(s, sid, c, h, now, cfg).0;
    if s' != s {
      assert SessionOk(s.sessions, s.devices, s.fences, s.listed, sid);
      AdvanceOk(s, sid, s'.sessions[sid], s'.devices);
      assert s'.sessions == s.sessions[sid := s'.sessions[sid]];
      assert ClientsOk(s'.sessions, s'.clientSession);
    }
  }

  lemma BeginTerminationOk(s: Store, sid: SessionId, reason: EndReason, expired: bool, fence: Option<nat>)
    requires StoreOk(s)
    ensures StoreOk(Scripts.BeginTermination(s, sid, reason, expired, fence).0)
  {
    var s' := Scripts.BeginTermination(s, sid, reason, expired, fence).0;
    if s' != s {
      assert SessionOk(s.sessions, s.devices, s.fences, s.listed, sid);
      AdvanceOk(s, sid, s'.sessions[sid], s'.devices);
      assert s'.sessions == s.sessions[sid := s'.sessions[sid]];
      assert ClientsOk(s'.sessions, s'.clientSession);
      assert WaitersOk(s'.entries, s'.queue, s'.clientRequest, s'.clientSession);
    }
  }

  /** Cleanup ends a session and, when the device is still bound to it, settles or keeps that binding. */
  lemma EndedOk(s: Store, sid: SessionId, d: DeviceId, dev: Device, sessions: Sessions)
    requires StoreOk(s) && (sid in s.sessions ==> !Live(s.sessions[sid].state))
    requires sessions == if sid in s.sessions then s.sessions[sid := s.sessions[sid].(state := Ended)] else s.sessions
    requires d in s.devices && dev.id == d
    requires dev == s.devices[d]
      || (s.devices[d].currentSessionId == Some(sid)
          && if dev.currentSessionId.None? then dev.state == Available || dev.state == Offline
             else dev == s.devices[d].(failureCount := dev.failureCount))
    ensures LeasesOk(sessions, s.devices[d := dev], s.fences, s.listed - {sid})
    ensures ClientsOk(sessions, s.clientSession)
  {
    assert DeviceOk(s.sessions, s.devices, s.fences, d);
    if sid in s.sessions { assert SessionOk(s.sessions, s.devices, s.fences, s.listed, sid); }
    var devices := s.devices[d := dev];
    forall x | x in sessions ensures SessionOk(sessions, devices, s.fences, s.listed - {sid}, x) {
      assert SessionOk(s.sessions, s.devices, s.fences, s.listed, x);
    }
    forall x | x in devices ensures DeviceOk(sessions, devices, s.fences, x) {
      assert DeviceOk(s.sessions, s.devices, s.fences, x);
    }
  }

  lemma FinishCleanupOk(s: Store, sid: SessionId, d: DeviceId, ok: bool, now: int, cfg: Config)
    requires StoreOk(s) && (sid in s.sessions ==> !Live(s.sessions[sid].state))
    ensures StoreOk(Scripts.FinishCleanup(s, sid, d, ok, now, cfg).0)
  {
    var s' := Scripts.FinishCleanup(s, sid, d, ok, now, cfg).0;
    if d in s.devices {
      assert DeviceOk(s.sessions, s.devices, s.fences, d);
      EndedOk(s, sid, d, s'.devices[d], s'.sessions);
      assert s'.devices == s.devices[d := s'.devices[d]];
    } else {
      EndedNowhere(s, sid, s'.sessions);
    }
  }

  lemma EndedNowhere(s: Store, sid: SessionId, sessions: Sessions)
    requires StoreOk(s) && (sid in s.sessions ==> !Live(s.sessions[sid].state))
    requires sessions == if sid in s.sessions then s.sessions[sid := s.sessions[sid].(state := Ended)] else s.sessions
    ensures LeasesOk(sessions, s.devices, s.fences, s.listed - {sid})
    ensures ClientsOk(sessions, s.clientSession)
  {
    forall x | x in sessions ensures SessionOk(sessions, s.devices, s.fences, s.listed - {sid}, x) {
      assert SessionOk(s.sessions, s.devices, s.fences, s.listed, x);
    }
    forall x | x in s.devices ensures DeviceOk(sessions, s.devices, s.fences, x) {
      assert DeviceOk(s.sessions, s.devices, s.fences, x);
    }
  }

  lemma ReconnectOk(s: Store, sid: SessionId, c: ClientId, now: int)
    requires StoreOk(s)
    ensures StoreOk(Scripts.Reconnect(s, sid, c, now).0)
  {
    var s' := Scripts.Reconnect(s, sid, c, now).0;
    if s' != s {
      RetouchOk(s, sid, s'.sessions[sid]);
      assert s'.clientSession == s.clientSession;
      assert s' == s.(sessions := s.sessions[sid := s'.sessions[sid]]);
    }
  }

  lemma TouchOk(s: Store, sid: SessionId, c: Option<ClientId>, now: int, deadline: int, n: nat)
    requires StoreOk(s)
    ensures StoreOk(Scripts.Heartbeat(s, sid, c, now).0)
    ensures StoreOk(Scripts.MarkDisconnected(s, sid, deadline).0)
    ensures StoreOk(Scripts.UpdateInputSeq(s, sid, n).0)
  {
    if sid in s.sessions {
      assert SessionOk(s.sessions, s.devices, s.fences, s.listed, sid);
      var sess := s.sessions[sid];
      RetouchOk(s, sid, sess.(lastHeartbeatAt := now));
      if sess.state == Active { RetouchOk(s, sid, sess.(state := Disconnected, reconnectDeadline := Some(deadline))); }
      RetouchOk(s, sid, sess.(lastAcceptedInputSeq := n));
    }
  }

  /** A change of device records alone: the binding stays, and an unbound device stays out of use. */
  lemma DeviceChangeOk(s: Store, d: DeviceId, dev: Device)
    requires StoreOk(s)
    requires if d in s.devices then
               dev == s.devices[d].(state := dev.state, lastHealthAt := dev.lastHealthAt,
                                    failureCount := dev.failureCount)
             else dev.currentSessionId.None?
    requires dev.id == d
    requires d in s.devices && s.devices[d].currentSessionId.Some? ==> dev.state == s.devices[d].state
    requires dev.currentSessionId.None? ==> dev.state == Available || dev.state == Offline
    ensures LeasesOk(s.sessions, s.devices[d := dev], s.fences, s.listed)
  {
    forall x | x in s.sessions ensures SessionOk(s.sessions, s.devices[d := dev], s.fences, s.listed, x) {
      assert SessionOk(s.sessions, s.devices, s.fences, s.listed, x);
    }
    var devices := s.devices[d := dev];
    forall x | x in devices ensures DeviceOk(s.sessions, devices, s.fences, x) {
      if x in s.devices { assert DeviceOk(s.sessions, s.devices, s.fences, x); }
    }
  }

  lemma HealthUpdateOk(s: Store, d: DeviceId, healthy: bool, now: int)
    requires StoreOk(s)
    ensures StoreOk(Scripts.HealthUpdate(s, d, healthy, now).0)
  {
    if d in s.devices {
      assert DeviceOk(s.sessions, s.devices, s.fences, d);
      var dev := s.devices[d].(lastHealthAt := now);
      DeviceChangeOk(s, d, dev);
      if dev.state == Available { DeviceChangeOk(s, d, dev.(state := Offline)); }
      if dev.state == Offline { DeviceChangeOk(s, d, dev.(state := Available, failureCount := 0)); }
    }
  }

  lemma CancelRequestOk(s: Store, rid: RequestId, c: Option<ClientId>, expired: bool)
    requires StoreOk(s)
    ensures StoreOk(Scripts.CancelRequest(s, rid, c, expired).0)
  {
  }

  lemma RegisterOk(s: Store, d: DeviceId, online: bool, now: int)
    requires StoreOk(s) && d !in s.devices
    ensures StoreOk(Scripts.RegisterDevice(s, d, online, now))
  {
    DeviceChangeOk(s, d, Device(d, if online then Available else Offline, None, None, now, 0));
  }

  /** Nothing above depends on what the pool index holds. */
  lemma PoolIsFree(s: Store, avail: set<DeviceId>)
    requires StoreOk(s)
    ensures StoreOk(s.(avail := avail))
  {
  }

  lemma ForgetEntryOk(s: Store, rid: RequestId)
    requires StoreOk(s) && rid in s.entries && s.entries[rid].state != Waiting
    ensures StoreOk(s.(entries := s.entries - {rid}))
  {
  }

  lemma UnregisterOk(s: Store, d: DeviceId)
    requires StoreOk(s) && (d in s.devices ==> s.devices[d].currentSessionId.None?)
    ensures StoreOk(Scripts.UnregisterDevice(s, d))
  {
    var s' := Scripts.UnregisterDevice(s, d);
    forall x | x in s'.sessions ensures SessionOk(s'.sessions, s'.devices, s'.fences, s'.listed, x) {
      assert SessionOk(s.sessions, s.devices, s.fences, s.listed, x);
    }
    forall x | x in s'.devices ensures DeviceOk(s'.sessions, s'.devices, s'.fences, x) {
      assert DeviceOk(s.sessions, s.devices, s.fences, x);
    }
    assert s'.deviceIds == s'.devices.Keys;
  }

  lemma ForgetSessionOk(s: Store, sid: SessionId)
    requires StoreOk(s) && sid in s.sessions && s.sessions[sid].state == Ended
    ensures StoreOk(s.(sessions := s.sessions - {sid}))
  {
    var s' := s.(sessions := s.sessions - {sid});
    assert SessionOk(s.sessions, s.devices, s.fences, s.listed, sid);
    forall x | x in s'.sessions ensures SessionOk(s'.sessions, s'.devices, s'.fences, s'.listed, x) {
      assert SessionOk(s.sessions, s.devices, s.fences, s.listed, x);
    }
    forall x | x in s'.devices ensures DeviceOk(s'.sessions, s'.devices, s'.fences, x) {
      assert DeviceOk(s.sessions, s.devices, s.fences, x);
    }
  }

  /** The queue has no dead members, so allocation's pruning removes nothing. */
  lemma NothingToPrune(s: Store)
    requires StoreOk(s)
    ensures Pruned(s.queue, s.entries) == s.queue
    ensures WaitingIn(s.queue, s.entries) == s.queue.Keys
  {
  }

  lemma AllocateOk(s: Store, popped: Option<DeviceId>, sid: SessionId, h: TokenHash, now: int, cfg: Config)
    requires StoreOk(s) && PopOf(s.avail, popped)
    requires sid !in s.sessions && forall x | x in s.devices :: s.devices[x].currentSessionId != Some(sid)
    ensures StoreOk(Scripts.Allocate(s, popped, sid, h, now, cfg).0)
  {
    NothingToPrune(s);
    if popped.Some? && popped.value in s.devices && s.devices[popped.value].state == Available {
      var head := Head(s.queue, s.entries);
      if head.Some? {
        assert head.value in WaitingIn(s.queue, s.entries);
        GrantOk(s.(avail := s.avail - {popped.value}), popped.value, head.value, sid, h, now, cfg);
      }
    }
  }

  lemma StoreStep(cfg: Config, lab: Lab, cmd: Cmd)
    requires Sound(lab) && Allowed(lab, cmd)
    ensures StoreOk(Do(cfg, lab, cmd).store)
  {
    hide StoreOk, Scripts.JoinQueue, Scripts.Allocate, Scripts.Claim, Scripts.BeginTermination, Scripts.FinishCleanup,
         Scripts.Heartbeat, Scripts.MarkDisconnected, Scripts.Reconnect, Scripts.HealthUpdate, Scripts.UpdateInputSeq,
         Scripts.CancelRequest;
    var s := lab.store;
    match cmd
    case JoinQueue(c, h, rid) => JoinQueueOk(s, c, h, rid, lab.clock);
    case Allocate(popped, sid, h) => AllocateOk(s, popped, sid, h, lab.clock, cfg);
    case Claim(sid, c, h) => ClaimOk(s, sid, c, h, lab.clock, cfg);
    case BeginTermination(sid, reason, expired, fence) => BeginTerminationOk(s, sid, reason, expired, fence);
    case FinishCleanup(sid, d, ok) => FinishCleanupOk(s, sid, d, ok, lab.clock, cfg);
    case Heartbeat(sid, c) => TouchOk(s, sid, c, lab.clock, 0, 0);
    case MarkDisconnected(sid, at) => TouchOk(s, sid, None, 0, at + cfg.graceMs, 0);
    case Reconnect(sid, c) => ReconnectOk(s, sid, c, lab.clock);
    case HealthUpdate(d, healthy) => HealthUpdateOk(s, d, healthy, lab.clock);
    case UpdateInputSeq(sid, n) => TouchOk(s, sid, None, 0, 0, n);
    case CancelRequest(rid, c, expired) => CancelRequestOk(s, rid, c, expired);
    case RegisterDevice(d, online) =>
      RegisterOk(s, d, online, lab.clock);
    case UnregisterDevice(d) => UnregisterOk(s, d);
    case ForgetSession(sid) => ForgetSessionOk(s, sid);
    case ForgetEntry(rid) => ForgetEntryOk(s, rid);
    case SetAvailability(did, available) => PoolIsFree(s, Scripts.SetDeviceAvailability(s, did, available).avail);
    case Tick(_) =>
  }
}
