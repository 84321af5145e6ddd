/** The store as the server sees it: one method per script, each shown to do what its function says. */
module LabStoreModule {
  import opened Domain
  import opened QueueOrder
  import opened Scripts

  class LabStore {
    var queue: Queue
    var entries: map<RequestId, QueueEntry>
    var devices: map<DeviceId, Device>
    var deviceIds: set<DeviceId>
    var avail: set<DeviceId>
    var sessions: map<SessionId, Session>
    var listed: set<SessionId>
    var clientSession: map<ClientId, SessionId>
    var clientRequest: map<ClientId, RequestId>
    var fences: map<DeviceId, nat>

    constructor ()
      ensures Contents() == EMPTY
    {
      queue, entries, devices, deviceIds, avail := map[], map[], map[], {}, {};
      sessions, listed, clientSession, clientRequest, fences := map[], {}, map[], map[], map[];
    }

    ghost function Contents(): Store
      reads this
    {
      Store(queue, entries, devices, deviceIds, avail, sessions, listed, clientSession, clientRequest, fences)
    }

    method JoinQueue(clientId: ClientId, tokenHash: TokenHash, requestId: RequestId, now: int)
        returns (reply: JoinReply)
      modifies this
      ensures (Contents(), reply) == Scripts.JoinQueue(old(Contents()), clientId, tokenHash, requestId, now)
    {
      if clientId in clientSession {
        var sid := clientSession[clientId];
        if sid in sessions && Nonterminal(sessions[sid].state) {
          return ExistingSession(sessions[sid]);
        }
        clientSession := clientSession - {clientId};
      }
      if clientId in clientRequest {
        var rid := clientRequest[clientId];
        if rid in entries && entries[rid].state == Waiting {
          assert clientSession == old(clientSession) - {clientId};
          return ExistingEntry(entries[rid]);
        }
        clientRequest := clientRequest - {clientId};
      }
      var entry := QueueEntry(requestId, clientId, tokenHash, now, Waiting);
      entries := entries[requestId := entry];
      queue := queue[requestId := now];
      clientRequest := clientRequest[clientId := requestId];
      assert clientSession == old(clientSession) - {clientId};
      assert clientRequest == old(clientRequest)[clientId := requestId];
      reply := Joined(entry);
    }

    /**
     * Walks the queue from its front, dropping members whose entry no longer waits, until it meets a
     * waiter or the end.
     */
    method NextWaiter() returns (waiter: Option<RequestId>)
      modifies this`queue
      ensures waiter == Head(old(queue), entries)
      ensures queue == Pruned(old(queue), entries)
    {
      ghost var queue0 := queue;
      ghost var head := Head(queue, entries);
      waiter := None;
      while queue.Keys != {}
        invariant queue.Keys <= queue0.Keys && forall r | r in queue :: queue[r] == queue0[r]
        invariant forall r | r in queue0 && r !in queue ::
          !IsWaiting(entries, r) && (head.Some? ==> Before(queue0, r, head.value))
        decreases |queue|
      {
        assert exists r :: IsLeast(queue, queue.Keys, r) by { var r := LeastExists(queue, queue.Keys); }
        var rid :| rid in queue.Keys && IsLeast(queue, queue.Keys, rid);
        if rid in entries && entries[rid].state == Waiting {
          waiter := Some(rid);
          assert head.Some? by { assert rid in WaitingIn(queue0, entries); }
          LeastUnique(queue0, WaitingIn(queue0, entries), rid, head.value);
          PrunedAt(queue0, entries, queue);
          return;
        }
        if head.Some? {
          assert head.value in queue;
        }
        assert queue.Keys - {rid} < queue.Keys;
        assert |queue - {rid}| < |queue| by { assert (queue - {rid}).Keys == queue.Keys - {rid}; }
        queue := queue - {rid};
      }
      assert head.None?;
      PrunedAt(queue0, entries, queue);
    }

    static lemma PrunedAt(queue0: Queue, entries: map<RequestId, QueueEntry>, queue: Queue)
      requires queue.Keys <= queue0.Keys && forall r | r in queue :: queue[r] == queue0[r]
      requires forall r | r in queue0 && r !in queue ::
          !IsWaiting(entries, r) && (Head(queue0, entries).Some? ==> Before(queue0, r, Head(queue0, entries).value))
      requires Head(queue0, entries).None? ==> queue.Keys == {}
      requires Head(queue0, entries).Some? ==> IsLeast(queue, queue.Keys, Head(queue0, entries).value)
      ensures queue == Pruned(queue0, entries)
    {
      var h := Head(queue0, entries);
      forall r | r in queue0
        ensures r in queue <==> r in Pruned(queue0, entries)
      {
        if IsWaiting(entries, r) { assert r in WaitingIn(queue0, entries); }
      }
    }

    /** `popped` is the member that `SPOP` took. */
    method Allocate(sessionId: SessionId, claimTokenHash: TokenHash, now: int, cfg: Config)
      returns (reply: AllocateReply, ghost popped: Option<DeviceId>)
      modifies this
      ensures PopOf(old(avail), popped)
      ensures (Contents(), reply) == Scripts.Allocate(old(Contents()), popped, sessionId, claimTokenHash, now, cfg)
    {
      if avail == {} {
        return Nothing, None;
      }
      ghost var member := SomeMember(avail);
      var deviceId :| deviceId in avail;
      popped := Some(deviceId);
      avail := avail - {deviceId};
      if deviceId !in devices || devices[deviceId].state != Available {
        return Nothing, popped;
      }
      var waiter := NextWaiter();
      if waiter.None? {
        avail := avail + {deviceId};
        assert avail == old(avail);
        return Nothing, popped;
      }
      reply := Grant(deviceId, waiter.value, sessionId, claimTokenHash, now, cfg);
    }

    method Grant(deviceId: DeviceId, requestId: RequestId, sessionId: SessionId, claimTokenHash: TokenHash, now: int,
        cfg: Config)
      returns (reply: AllocateReply)
      requires deviceId in devices && requestId in entries
      modifies this
      ensures (Contents(), reply) ==
        Scripts.Grant(old(Contents()), deviceId, requestId, sessionId, claimTokenHash, now, cfg)
    {
      var entry := entries[requestId];
      var session, device := Lease(deviceId, entry.clientId, sessionId, claimTokenHash, now, cfg);
      queue := queue - {requestId};
      entries := entries[requestId := entry.(state := Claimed)];
      clientSession := clientSession[entry.clientId := sessionId];
      clientRequest := clientRequest - {entry.clientId};
      reply := Allocated(session, device, requestId, entry.enqueuedAt);
    }

    /** Takes the device's next fence and binds the device to a new session under it. */
    method Lease(deviceId: DeviceId, clientId: ClientId, sessionId: SessionId, claimTokenHash: TokenHash, now: int,
        cfg: Config)
      returns (session: Session, device: Device)
      requires deviceId in devices
      modifies this`fences, this`sessions, this`listed, this`devices
      ensures fences == old(fences)[deviceId := (if deviceId in old(fences) then old(fences)[deviceId] else 0) + 1]
      ensures session == NewSession(sessionId, clientId, deviceId, fences[deviceId], claimTokenHash, now, cfg)
      ensures device == old(devices)[deviceId].(state := DeviceState.Reserved, currentSessionId := Some(sessionId),
                                                leaseFence := Some(fences[deviceId]))
      ensures sessions == old(sessions)[sessionId := session] && listed == old(listed) + {sessionId}
      ensures devices == old(devices)[deviceId := device]
    {
      var fence := (if deviceId in fences then fences[deviceId] else 0) + 1;
      fences := fences[deviceId := fence];
      session := NewSession(sessionId, clientId, deviceId, fence, claimTokenHash, now, cfg);
      sessions := sessions[sessionId := session];
      listed := listed + {sessionId};
      device := devices[deviceId].(state := DeviceState.Reserved, currentSessionId := Some(sessionId),
        leaseFence := Some(fence));
      devices := devices[deviceId := device];
    }

    method Claim(sessionId: SessionId, clientId: ClientId, claimTokenHash: Option<TokenHash>, now: int, cfg: Config)
      returns (reply: SessionReply)
      modifies this
      ensures (Contents(), reply) == Scripts.Claim(old(Contents()), sessionId, clientId, claimTokenHash, now, cfg)
    {
      if sessionId !in sessions { return SessionErr(NotFound); }
      var sess := sessions[sessionId];
      if sess.clientId != clientId { return SessionErr(Forbidden); }
      if sess.state == Active { return SessionGiven(sess, Lookup(devices, sess.deviceId)); }
      if sess.state != SessionState.Reserved { return SessionErr(BadState); }
      if claimTokenHash.Some? && sess.claimTokenHash != claimTokenHash.value { return SessionErr(Forbidden); }
      if sess.claimDeadline.Some? && now > sess.claimDeadline.value { return SessionErr(ClaimExpired); }
      sess := sess.(state := Active, activatedAt := Some(now), expiresAt := now + cfg.sessionMaxMs,
                    lastHeartbeatAt := now, claimDeadline := None);
      sessions := sessions[sessionId := sess];
      if sess.deviceId in devices {
        devices := devices[sess.deviceId := devices[sess.deviceId].(state := InUse)];
      }
      reply := SessionGiven(sess, Lookup(devices, sess.deviceId));
    }

    method BeginTermination(sessionId: SessionId, reason: EndReason, expired: bool, expectedFence: Option<nat>)
      returns (reply: TerminationReply)
      modifies this
      ensures (Contents(), reply) == Scripts.BeginTermination(old(Contents()), sessionId, reason, expired,
          expectedFence)
    {
      if sessionId !in sessions { return TerminationErr(NotFound); }
      var sess := sessions[sessionId];
      if sess.state == Ending || sess.state == Expired || sess.state == CleaningUp || sess.state == Ended {
        return TerminationErr(AlreadyTerminal);
      }
      if expectedFence.Some? && sess.leaseFence != expectedFence.value { return TerminationErr(FenceMismatch); }
      sess := sess.(state := if expired then Expired else Ending, endReason := Some(reason));
      sessions := sessions[sessionId := sess];
      clientSession := clientSession - {sess.clientId};
      if sess.deviceId in devices && devices[sess.deviceId].currentSessionId == Some(sessionId) {
        devices := devices[sess.deviceId := devices[sess.deviceId].(state := Cleaning)];
      }
      reply := TerminationOk(sess);
    }

    method FinishCleanup(sessionId: SessionId, deviceId: DeviceId, ok: bool, now: int, cfg: Config)
      returns (reply: CleanupReply)
      modifies this
      ensures (Contents(), reply) == Scripts.FinishCleanup(old(Contents()), sessionId, deviceId, ok, now, cfg)
    {
      if sessionId in sessions && sessions[sessionId].state != Ended {
        sessions := sessions[sessionId := sessions[sessionId].(state := Ended)];
      }
      assert sessionId in sessions ==>
        sessions == old(sessions)[sessionId := old(sessions)[sessionId].(state := Ended)];
      listed := listed - {sessionId};
      if deviceId !in devices { return CleanupErr(NoDevice); }
      var dev := devices[deviceId];
      if dev.currentSessionId != Some(sessionId) { return CleanupErr(Stale); }
      if ok {
        dev := dev.(state := Available, currentSessionId := None, failureCount := 0, lastHealthAt := now);
        devices := devices[deviceId := dev];
        avail := avail + {deviceId};
        return CleanupOk(Available);
      }
      dev := dev.(failureCount := dev.failureCount + 1);
      if dev.failureCount >= cfg.maxFailures {
        dev := dev.(state := Offline, currentSessionId := None);
        devices := devices[deviceId := dev];
        return CleanupOk(Offline);
      }
      devices := devices[deviceId := dev];
      reply := CleanupOk(Cleaning);
    }

    method Heartbeat(sessionId: SessionId, client: Option<ClientId>, now: int) returns (ok: bool)
      modifies this
      ensures (Contents(), ok) == Scripts.Heartbeat(old(Contents()), sessionId, client, now)
    {
      if sessionId !in sessions || !Nonterminal(sessions[sessionId].state) { return false; }
      if client.Some? {
        if sessions[sessionId].clientId != client.value { return false; }
        sessions := sessions[sessionId := sessions[sessionId].(lastHeartbeatAt := now)];
      }
      ok := true;
    }

    method MarkDisconnected(sessionId: SessionId, deadline: int) returns (ok: bool)
      modifies this
      ensures (Contents(), ok) == Scripts.MarkDisconnected(old(Contents()), sessionId, deadline)
    {
      if sessionId !in sessions || sessions[sessionId].state != Active { return false; }
      var sess := sessions[sessionId].(state := Disconnected, reconnectDeadline := Some(deadline));
      sessions := sessions[sessionId := sess];
      ok := true;
    }

    method Reconnect(sessionId: SessionId, clientId: ClientId, now: int) returns (reply: SessionReply)
      modifies this
      ensures (Contents(), reply) == Scripts.Reconnect(old(Contents()), sessionId, clientId, now)
    {
      if sessionId !in sessions { return SessionErr(NotFound); }
      var sess := sessions[sessionId];
      if sess.clientId != clientId { return SessionErr(Forbidden); }
      if sess.state == Active { return SessionGiven(sess, Lookup(devices, sess.deviceId)); }
      if sess.state != Disconnected { return SessionErr(BadState); }
      if sess.reconnectDeadline.Some? && now > sess.reconnectDeadline.value { return SessionErr(GraceExpired); }
      sess := sess.(state := Active, reconnectDeadline := None, lastHeartbeatAt := now);
      sessions := sessions[sessionId := sess];
      clientSession := clientSession[clientId := sessionId];
      reply := SessionGiven(sess, Lookup(devices, sess.deviceId));
    }

    method HealthUpdate(deviceId: DeviceId, healthy: bool, now: int) returns (reply: HealthReply)
      modifies this
      ensures (Contents(), reply) == Scripts.HealthUpdate(old(Contents()), deviceId, healthy, now)
    {
      if deviceId !in devices { return Missing; }
      var dev := devices[deviceId];
      if dev.state == Available && !healthy {
        devices := devices[deviceId := dev.(state := Offline, lastHealthAt := now)];
        avail := avail - {deviceId};
        return WentOffline;
      }
      if dev.state == Offline && healthy && dev.currentSessionId.None? {
        devices := devices[deviceId := dev.(state := Available, failureCount := 0, lastHealthAt := now)];
        avail := avail + {deviceId};
        return Recovered;
      }
      if (dev.state == InUse || dev.state == DeviceState.Reserved) && !healthy { return SessionUnhealthy; }
      devices := devices[deviceId := dev.(lastHealthAt := now)];
      if dev.state == Available {
        avail := avail + {deviceId};
      }
      reply := Healthy;
    }

    method UpdateInputSeq(sessionId: SessionId, inputSeq: nat) returns (ok: bool)
      modifies this
      ensures (Contents(), ok) == Scripts.UpdateInputSeq(old(Contents()), sessionId, inputSeq)
    {
      if sessionId !in sessions || !Nonterminal(sessions[sessionId].state) { return false; }
      if inputSeq > sessions[sessionId].lastAcceptedInputSeq {
        sessions := sessions[sessionId := sessions[sessionId].(lastAcceptedInputSeq := inputSeq)];
      }
      ok := true;
    }

    method CancelRequest(requestId: RequestId, client: Option<ClientId>, expired: bool) returns (ok: bool)
      modifies this
      ensures (Contents(), ok) == Scripts.CancelRequest(old(Contents()), requestId, client, expired)
    {
      if requestId !in entries || entries[requestId].state != Waiting { return false; }
      var entry := entries[requestId];
      if client.Some? && entry.clientId != client.value { return false; }
      entries := entries[requestId := entry.(state := if expired then TimedOut else Cancelled)];
      queue := queue - {requestId};
      clientRequest := clientRequest - {entry.clientId};
      ok := true;
    }

    method RegisterDevice(deviceId: DeviceId, online: bool, now: int)
      modifies this
      ensures Contents() == Scripts.RegisterDevice(old(Contents()), deviceId, online, now)
    {
      deviceIds := deviceIds + {deviceId};
      devices := devices[deviceId := Device(deviceId, if online then Available else Offline, None, None, now, 0)];
      avail := if online then avail + {deviceId} else avail - {deviceId};
    }

    method UnregisterDevice(deviceId: DeviceId)
      modifies this
      ensures Contents() == Scripts.UnregisterDevice(old(Contents()), deviceId)
    {
      deviceIds := deviceIds - {deviceId};
      avail := avail - {deviceId};
      devices := devices - {deviceId};
    }

    method SetDeviceAvailability(deviceId: DeviceId, available: bool)
      modifies this
      ensures Contents() == Scripts.SetDeviceAvailability(old(Contents()), deviceId, available)
    {
      avail := if available then avail + {deviceId} else avail - {deviceId};
    }
  }
}
