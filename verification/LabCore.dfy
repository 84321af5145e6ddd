/** The server's loops over the store. */
module LabCoreModule {
  import opened Domain
  import QueueOrder
  import opened Scripts
  import opened LabStoreModule
  import opened Ownership
  import opened Tenure
  import opened Wakeup
  import opened Loops
  import opened Health

  type Cleanup = (SessionId, DeviceId)

  class LabCore {
    const store: LabStore
    const cfg: Config
    var clock: int
    var nextId: SessionId
    var cleanups: set<Cleanup>   // cleanup workers started
    var pumping: bool
    var pumpAgain: bool

    ghost predicate Valid()
      reads this, store
    {
      StoreOk(store.Contents()) && UnusedFrom(store.Contents(), nextId)
    }

    constructor (store: LabStore, cfg: Config, clock: int, nextId: SessionId)
      requires StoreOk(store.Contents()) && UnusedFrom(store.Contents(), nextId)
      ensures this.store == store && this.cfg == cfg && this.clock == clock && cleanups == {} && !pumping && !pumpAgain
          && Valid()
    {
      this.store, this.cfg, this.clock, this.nextId, cleanups := store, cfg, clock, nextId, {};
      pumping, pumpAgain := false, false;
    }

    /** The clock never goes back. */
    method Now() returns (now: int)
      modifies this`clock
      ensures now == clock >= old(clock)
    {
      var ms: int := *;
      if ms > 0 { clock := clock + ms; }
      now := clock;
    }

    /**
     * Coalescing: a call made while the allocator is at work only asks it to go round again. Otherwise it
     * allocates, and goes round again if it was asked to; `got` counts the sessions made.
     */
    method Pump(claimTokenHash: TokenHash) returns (got: nat)
      requires Valid()
      modifies this, store
      ensures Valid() && cleanups == old(cleanups)
      ensures old(pumping) ==> pumping && pumpAgain && got == 0 && store.Contents() == old(store.Contents())
      ensures !old(pumping) ==> !pumping && !pumpAgain && Drained(old(store.Contents()), got)
      decreases pumpAgain
    {
      if pumping {
        pumpAgain := true;
        return 0;
      }
      hide StoreOk, UnusedFrom, AvailExact, FrontServed, ClaimsKept;
      ghost var s0 := store.Contents();
      pumping := true;
      got := AllocateAll(claimTokenHash);
      pumping := false;
      if pumpAgain {
        pumpAgain := false;
        ghost var s1 := store.Contents();
        var more := Pump(claimTokenHash);
        got := got + more;
        ServedOnward(s0, s1, store.Contents());
      }
    }

    /** `got` waiters of `s0` have been served from the front; with an exact pool no device is left or nobody waits. */
    ghost predicate Drained(s0: Store, got: nat)
      reads this, store
    {
      ServedInOrder(s0, store.Contents())
      && got == |s0.queue| - |store.queue|
      && (AvailExact(s0) ==>
            AvailExact(store.Contents()) && (store.avail == {} || store.queue == map[])
              && NoneWasted(s0, store.Contents()))
    }

    /** Allocates until it comes back empty-handed. */
    method AllocateAll(claimTokenHash: TokenHash) returns (got: nat)
      requires Valid()
      modifies this`clock, this`nextId, store
      ensures Valid() && Drained(old(store.Contents()), got)
    {
      hide StoreOk, UnusedFrom, AvailExact, Scripts.Allocate, FrontServed, ClaimsKept;
      ghost var s0 := store.Contents();
      got := 0;
      ServedNone(s0);
      while true
        invariant Valid()
        invariant ServedInOrder(s0, store.Contents())
        invariant got == |s0.queue| - |store.queue|
        invariant AvailExact(s0) ==> AvailExact(store.Contents()) && NoneWasted(s0, store.Contents())
        decreases store.avail
      {
        ghost var s := store.Contents();
        var now := Now();
        var sid := nextId;
        nextId := nextId + 1;
        var reply, popped := store.Allocate(sid, claimTokenHash, now, cfg);
        AllocationServes(s, popped, sid, claimTokenHash, now, cfg);
        ServedOnward(s0, s, store.Contents());
        if AvailExact(s0) { EmptyHanded(s, popped, sid, claimTokenHash, now, cfg); }
        if reply.Nothing? { break; }
        got := got + 1;
      }
    }

    /** Takes a session's device away from it and starts its cleanup. */
    method TerminateSession(sid: SessionId, reason: EndReason, expired: bool, expectedFence: Option<nat>)
        returns (won: bool)
      requires Valid()
      modifies this`cleanups, store
      ensures Valid()
      ensures var (s', r) := Scripts.BeginTermination(old(store.Contents()), sid, reason, expired, expectedFence);
        store.Contents() == s' && won == r.TerminationOk?
        && cleanups == if won then old(cleanups) + {(sid, r.session.deviceId)} else old(cleanups)
    {
      BeginTerminationOk(store.Contents(), sid, reason, expired, expectedFence);
      var reply := store.BeginTermination(sid, reason, expired, expectedFence);
      if reply.TerminationErr? { return false; }
      cleanups := cleanups + {(sid, reply.session.deviceId)};
      won := true;
    }

    /**
     * Cleans a device until it is healthy, written off, or found to belong to somebody else. `outcome(k)` says
     * whether attempt `k` leaves it healthy.
     */
    method CleanupDevice(sid: SessionId, did: DeviceId, outcome: nat -> bool) returns (attempts: nat)
      requires Valid() && (sid in store.sessions ==> !Live(store.sessions[sid].state))
      modifies this`clock, store
      ensures Valid()
      ensures did !in old(store.devices) ==> attempts == 0 && store.Contents() == old(store.Contents())
      ensures did in old(store.devices) && !Bound(old(store.Contents()), did, sid) ==>
        attempts == 1 && store.Contents() == Concluded(old(store.Contents()), sid)
      ensures Bound(old(store.Contents()), did, sid) ==>
        var failures := old(store.devices)[did].failureCount;
        1 <= attempts && (forall k: nat | k < attempts - 1 :: !outcome(k))
        && (attempts == 1 || failures + attempts - 1 < cfg.maxFailures)
        && if outcome(attempts - 1) then store.Contents() == Freed(old(store.Contents()), sid, did, clock)
           else failures + attempts >= cfg.maxFailures
                && store.Contents() == WrittenOff(old(store.Contents()), sid, did, attempts)
    {
      attempts := 0;
      if did !in store.devices { return; }
      hide StoreOk, UnusedFrom, Retried, Concluded, Freed, WrittenOff, Bound;
      ghost var s0 := store.Contents();
      ghost var count := s0.devices[did].failureCount;
      NotYetTried(s0, sid, did);
      while true
        invariant Valid() && (sid in store.sessions ==> !Live(store.sessions[sid].state))
        invariant did in s0.devices && store.Contents() == Retried(s0, sid, did, attempts)
        invariant attempts > 0 ==> Bound(s0, did, sid) && count + attempts < cfg.maxFailures
        invariant forall k: nat | k < attempts :: !outcome(k)
        decreases cfg.maxFailures - count - attempts
      {
        var ok := outcome(attempts);
        var again := Attempt(sid, did, ok, s0, attempts);
        attempts := attempts + 1;
        if !again { return; }
      }
    }

    /** One attempt, after `k` failed ones since the store was `s0`. */
    method Attempt(sid: SessionId, did: DeviceId, ok: bool, ghost s0: Store, ghost k: nat) returns (again: bool)
      requires Valid() && (sid in store.sessions ==> !Live(store.sessions[sid].state))
      requires did in s0.devices && store.Contents() == Retried(s0, sid, did, k) && (k > 0 ==> Bound(s0, did, sid))
      modifies this`clock, store
      ensures Valid() && (sid in store.sessions ==> !Live(store.sessions[sid].state))
      ensures var n := s0.devices[did].failureCount + k + 1;
        if !Bound(s0, did, sid) then !again && store.Contents() == Concluded(s0, sid)
        else if ok then !again && store.Contents() == Freed(s0, sid, did, clock)
        else if n < cfg.maxFailures then again && store.Contents() == Retried(s0, sid, did, k + 1)
        else !again && store.Contents() == WrittenOff(s0, sid, did, k + 1)
    {
      hide StoreOk, UnusedFrom, Scripts.FinishCleanup, Retried, Concluded, Freed, WrittenOff, Bound;
      var now := Now();
      FinishCleanupOk(store.Contents(), sid, did, ok, now, cfg);
      AttemptOutcome(s0, sid, did, k, ok, now, cfg);
      StillUnused(store.Contents(), sid, did, ok, now, cfg, nextId);
      var reply := store.FinishCleanup(sid, did, ok, now, cfg);
      again := reply.CleanupOk? && reply.deviceState == Cleaning;
    }

    /** One pass over all sessions that have not ended, by one reading of the clock. */
    method ReaperRunOnce() returns (now: int)
      requires Valid()
      modifies this`clock, this`cleanups, store
      ensures Valid() && now >= old(clock)
      ensures store.sessions == map sid | sid in old(store.sessions) :: Reaped(cfg, old(store.sessions)[sid], now)
      ensures cleanups == old(cleanups) + Expiring(cfg, old(store.sessions), old(store.sessions).Keys, now)
      ensures store.queue == old(store.queue) && store.entries == old(store.entries) && store.avail == old(store.avail)
    {
      hide StoreOk, UnusedFrom, Expiring, Reaped, Judge;
      ghost var s0, was, started, all := store.Contents(), store.sessions, cleanups, store.listed;
      now := Now();
      UnlistedStay(cfg, s0, now);
      NoneExpiring(cfg, was, now);
      var todo := store.listed;
      while todo != {}
        invariant Valid() && todo <= all <= was.Keys && store.sessions.Keys == was.Keys
        invariant forall sid | sid in was ::
          store.sessions[sid] == if sid in all - todo then Reaped(cfg, was[sid], now) else was[sid]
        invariant cleanups == started + Expiring(cfg, was, all - todo, now)
        invariant store.queue == old(store.queue) && store.entries == old(store.entries)
            && store.avail == old(store.avail)
        decreases todo
      {
        ghost var member := QueueOrder.SomeMember(todo);
        var sid :| sid in todo;
        OneMoreExpiring(cfg, was, all - todo, sid, now);
        assert all - (todo - {sid}) == (all - todo) + {sid};
        todo := todo - {sid};
        ReapOne(sid, now);
      }
      assert all - todo == all;
      PassIsTotal(cfg, s0, store.sessions, now);
    }

    static lemma NoneExpiring(cfg: Config, sessions: Sessions, now: int)
      ensures forall all: set<SessionId> :: Expiring(cfg, sessions, all - all, now) == {}
    {
    }

    method ReapOne(sid: SessionId, now: int)
      requires Valid()
      modifies this`cleanups, store
      ensures Valid()
      ensures store.sessions == if sid in old(store.sessions)
        then old(store.sessions)[sid := Reaped(cfg, old(store.sessions)[sid], now)] else old(store.sessions)
      ensures cleanups == old(cleanups) + if sid in old(store.sessions)
          && Judge(cfg, old(store.sessions)[sid], now).Expire?
        then {(sid, old(store.sessions)[sid].deviceId)} else {}
      ensures store.queue == old(store.queue) && store.entries == old(store.entries) && store.avail == old(store.avail)
    {
      if sid !in store.sessions { return; }
      var session := store.sessions[sid];
      var done;
      match session.state {
        case Reserved =>
          if session.claimDeadline.Some? && session.claimDeadline.value != 0 && now > session.claimDeadline.value {
            done := TerminateSession(sid, ClaimTimeout, true, None);
          } else {
            done := Renew(sid, now);
          }
        case Active =>
          if now > session.expiresAt {
            done := TerminateSession(sid, SessionTimeout, true, None);
          } else if now - session.lastHeartbeatAt > cfg.heartbeatTimeoutMs {
            done := Detach(sid, now + cfg.graceMs);
          } else {
            done := Renew(sid, now);
          }
        case Disconnected =>
          if now > session.expiresAt {
            done := TerminateSession(sid, SessionTimeout, true, None);
          } else if session.reconnectDeadline.Some? && session.reconnectDeadline.value != 0
            && now > session.reconnectDeadline.value {
            done := TerminateSession(sid, Abandoned, true, None);
          } else {
            done := Renew(sid, now);
          }
        case _ =>
      }
    }

    /** Renews the lease; the session record stays as it is. */
    method Renew(sid: SessionId, now: int) returns (ok: bool)
      requires Valid()
      modifies store
      ensures store.Contents() == old(store.Contents())
    {
      ok := store.Heartbeat(sid, None, now);
    }

    method Detach(sid: SessionId, deadline: int) returns (ok: bool)
      requires Valid()
      modifies store
      ensures Valid()
      ensures store.Contents() == Scripts.MarkDisconnected(old(store.Contents()), sid, deadline).0
    {
      TouchOk(store.Contents(), sid, None, 0, deadline, 0);
      ok := store.MarkDisconnected(sid, deadline);
    }

    /** Rewrites the pool from the device records, and starts a cleanup for every binding whose session is over. */
    method RepairPool()
      requires Valid()
      modifies this`cleanups, store
      ensures Valid()
      ensures store.Contents() == Repaired(old(store.Contents()))
      ensures cleanups == old(cleanups) + Orphans(old(store.Contents()), old(store.deviceIds))
    {
      ghost var s0, started := store.Contents(), cleanups;
      var todo := store.deviceIds;
      while todo != {}
        invariant Valid() && todo <= s0.deviceIds && store.Contents() == s0.(avail := store.avail)
        invariant forall d ::
          d in store.avail <==> if d in s0.deviceIds - todo then IsAvailable(s0, d) else d in s0.avail
        invariant cleanups == started + Orphans(s0, s0.deviceIds - todo)
        decreases todo
      {
        ghost var member := QueueOrder.SomeMember(todo);
        var did :| did in todo;
        OneMoreOrphan(s0, s0.deviceIds - todo, did);
        assert s0.deviceIds - (todo - {did}) == (s0.deviceIds - todo) + {did};
        todo := todo - {did};
        if did in store.devices {
          RepairOne(did);
        }
      }
      assert s0.deviceIds - todo == s0.deviceIds;
      assert forall d :: d in store.avail <==> d in Repaired(s0).avail;
    }

    method RepairOne(did: DeviceId)
      requires Valid() && did in store.devices
      modifies this`cleanups, store
      ensures Valid()
      ensures store.Contents() == old(store.Contents()).(avail :=
        if IsAvailable(old(store.Contents()), did) then old(store.avail) + {did} else old(store.avail) - {did})
      ensures cleanups == old(cleanups) + if Orphaned(old(store.Contents()), did)
        then {(old(store.devices)[did].currentSessionId.value, did)} else {}
    {
      var device := store.devices[did];
      if device.currentSessionId.Some? {
        var sid := device.currentSessionId.value;
        if sid !in store.sessions || !Nonterminal(store.sessions[sid].state) {
          cleanups := cleanups + {(sid, did)};
        }
      }
      store.SetDeviceAvailability(did, device.state == Available);
    }

    /**
     * One pass over all devices, of which `report` says whether the adapter finds them healthy. The allocator
     * is called once for each of those that come back into service.
     */
    method HealthRunOnce(report: DeviceId -> bool) returns (recovered: set<DeviceId>)
      requires Valid()
      modifies this`clock, this`cleanups, store
      ensures Valid()
      ensures store.sessions == map sid | sid in old(store.sessions) :: Treated(old(store.sessions)[sid], report)
      ensures store.devices.Keys == old(store.devices).Keys
      ensures forall d | d in store.devices :: Reported(old(store.devices)[d], report(d), store.devices[d])
      ensures forall d :: d in store.avail <==> Pooled(old(store.Contents()), d, report(d))
      ensures cleanups == old(cleanups) + Sick(old(store.sessions), old(store.deviceIds), report)
      ensures recovered == Recovering(old(store.Contents()), old(store.deviceIds), report)
      ensures store.queue == old(store.queue) && store.entries == old(store.entries)
    {
      hide StoreOk, UnusedFrom, PassAt, Sick, Recovering;
      ghost var s0, started := store.Contents(), cleanups;
      PassBeginsAt(s0, report);
      EachIsThere(s0);
      var todo := store.deviceIds;
      recovered := {};
      assert s0.deviceIds - todo == {};
      while todo != {}
        invariant Valid() && todo <= s0.deviceIds
        invariant PassAt(s0, store.Contents(), s0.deviceIds - todo, report)
        invariant cleanups == started + Sick(s0.sessions, s0.deviceIds - todo, report)
        invariant recovered == Recovering(s0, s0.deviceIds - todo, report)
        decreases todo
      {
        ghost var s, done := store.Contents(), s0.deviceIds - todo;
        ghost var member := QueueOrder.SomeMember(todo);
        var did :| did in todo;
        assert s0.deviceIds - (todo - {did}) == done + {did};
        todo := todo - {did};
        StillThere(s0, s, done, did, report);
        if did in store.devices {
          var now := Now();
          var back := ReportOne(did, report, now);
          if back { recovered := recovered + {did}; }
          PassGoesOn(s0, s, store.Contents(), done, did, report);
        }
      }
      assert s0.deviceIds - todo == s0.deviceIds;
      PassIsOver(s0, store.Contents(), report);
      AllReported(s0, store.Contents(), report);
    }

    static lemma EachIsThere(s: Store)
      requires StoreOk(s)
      ensures s.deviceIds == s.devices.Keys
    {
    }

    static lemma StillThere(s0: Store, s: Store, done: set<DeviceId>, did: DeviceId, report: DeviceId -> bool)
      requires PassAt(s0, s, done, report) && did in s0.devices
      ensures did in s.devices
    {
    }

    static lemma AllReported(s0: Store, s: Store, report: DeviceId -> bool)
      requires PassAt(s0, s, s0.deviceIds, report) && s0.deviceIds == s0.devices.Keys
      ensures s.devices.Keys == s0.devices.Keys && s.queue == s0.queue && s.entries == s0.entries
      ensures forall d | d in s.devices :: Reported(s0.devices[d], report(d), s.devices[d])
    {
    }

    static lemma ReportUses(s: Store, did: DeviceId, healthy: bool, now: int, n: SessionId)
      requires UnusedFrom(s, n)
      ensures UnusedFrom(Scripts.HealthUpdate(s, did, healthy, now).0, n)
    {
      ReportWrites(s, did, healthy, now);
      hide Scripts.HealthUpdate;
    }

    /** Reports on one device; a session on it is ended if it is sick. `back` means that the allocator is called. */
    method ReportOne(did: DeviceId, report: DeviceId -> bool, now: int) returns (back: bool)
      requires Valid() && did in store.devices
      modifies this`cleanups, store
      ensures Valid()
      ensures PassAt(old(store.Contents()), store.Contents(), {did}, report)
      ensures cleanups == old(cleanups) + Sick(old(store.sessions), {did}, report)
      ensures Recovering(old(store.Contents()), {did}, report) == if back then {did} else {}
    {
      hide StoreOk, UnusedFrom, PassAt, Sick, Recovering, Occupied, Scripts.HealthUpdate, Scripts.BeginTermination;
      ghost var s0 := store.Contents();
      ReportIsAnswered(s0, did, report(did), now);
      HealthUpdateOk(s0, did, report(did), now);
      ReportUses(s0, did, report(did), now, nextId);
      var reply := store.HealthUpdate(did, report(did), now);
      back := reply == Recovered;
      if reply == SessionUnhealthy {
        EndingPasses(s0, did, report);
        if did in store.devices && store.devices[did].currentSessionId.Some? {
          var won := TerminateSession(store.devices[did].currentSessionId.value, DeviceError, true, None);
        }
      } else {
        ReportPasses(s0, did, report, now);
      }
    }
  }
}
