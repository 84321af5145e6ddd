/** What each loop of the server does to the store when nothing runs in between. */
module Loops {
  import opened Domain
  import opened QueueOrder
  import opened Scripts
  import opened Ownership
  import opened Tenure
  import Reaping
  import Wakeup

  // ---------------- the allocator ----------------

  /** Session ids from `n` on have not been used. */
  ghost predicate UnusedFrom(s: Store, n: SessionId) {
    && (forall sid | sid in s.sessions :: sid < n)
    && (forall d | d in s.devices && s.devices[d].currentSessionId.Some? :: s.devices[d].currentSessionId.value < n)
  }

  /** Some waiters at the front of the queue of `a` have been served in `b`. */
  ghost predicate ServedInOrder(a: Store, b: Store) {
    FrontServed(a, b) && ClaimsKept(a, b)
  }

  ghost predicate ClaimsKept(a: Store, b: Store) {
    forall r | r in a.entries && a.entries[r].state == Claimed :: r in b.entries && b.entries[r].state == Claimed
  }

  ghost predicate FrontServed(a: Store, b: Store) {
    && b.queue.Keys <= a.queue.Keys
    && (forall r | r in b.queue :: b.queue[r] == a.queue[r])
    && (forall r, w | r in a.queue && r !in b.queue && w in b.queue :: Before(a.queue, r, w))
    && (forall r | r in a.queue && r !in b.queue :: r in b.entries && b.entries[r].state == Claimed)
  }

  /** Each device taken from the pool has gone to a waiter. */
  predicate NoneWasted(a: Store, b: Store) {
    |a.avail| - |b.avail| == |a.queue| - |b.queue|
  }

  lemma AllocationServes(s: Store, popped: Option<DeviceId>, sid: SessionId, h: TokenHash, now: int, cfg: Config)
    requires StoreOk(s) && PopOf(s.avail, popped) && UnusedFrom(s, sid)
    ensures var (s', r) := Scripts.Allocate(s, popped, sid, h, now, cfg);
      StoreOk(s') && UnusedFrom(s', sid + 1) && ServedInOrder(s, s') && s'.avail <= s.avail
      && (r.Allocated? ==> s'.avail < s.avail && NoneWasted(s, s') && |s'.queue| == |s.queue| - 1)
      && (r.Nothing? ==> s'.queue == s.queue)
  {
    hide Scripts.Allocate, FrontServed, ClaimsKept, NoneWasted, StoreOk, UnusedFrom;
    ClaimedStays(s, popped, sid, h, now, cfg);
    FreshHere(s, sid);
    AllocateOk(s, popped, sid, h, now, cfg);
    AllocationUses(s, popped, sid, h, now, cfg);
    NothingToPrune(s);
    var (s', r) := Scripts.Allocate(s, popped, sid, h, now, cfg);
    Granting(s, popped, sid, h, now, cfg);
  }

  lemma FreshHere(s: Store, sid: SessionId)
    requires UnusedFrom(s, sid)
    ensures sid !in s.sessions && forall x | x in s.devices :: s.devices[x].currentSessionId != Some(sid)
  {
  }

  lemma AllocationUses(s: Store, popped: Option<DeviceId>, sid: SessionId, h: TokenHash, now: int, cfg: Config)
    requires PopOf(s.avail, popped) && UnusedFrom(s, sid)
    ensures UnusedFrom(Scripts.Allocate(s, popped, sid, h, now, cfg).0, sid + 1)
  {
  }

  lemma Granting(s: Store, popped: Option<DeviceId>, sid: SessionId, h: TokenHash, now: int, cfg: Config)
    requires PopOf(s.avail, popped)
    requires Pruned(s.queue, s.entries) == s.queue && WaitingIn(s.queue, s.entries) == s.queue.Keys
    ensures var (s', r) := Scripts.Allocate(s, popped, sid, h, now, cfg);
      s'.avail <= s.avail && FrontServed(s, s')
      && (r.Allocated? ==> s'.avail < s.avail && NoneWasted(s, s') && |s'.queue| == |s.queue| - 1)
      && (r.Nothing? ==> s'.queue == s.queue)
  {
    GrantShape(s, popped, sid, h, now, cfg);
    hide Pruned, WaitingIn, Scripts.Allocate, IsLeast;
    var (s', r) := Scripts.Allocate(s, popped, sid, h, now, cfg);
    if r.Allocated? {
      OneLess(s.queue, r.requestId);
      HeadServed(s, s', r.requestId);
    }
  }

  lemma HeadServed(a: Store, b: Store, rid: RequestId)
    requires IsLeast(a.queue, a.queue.Keys, rid) && b.queue == a.queue - {rid}
    requires rid in b.entries && b.entries[rid].state == Claimed
    ensures FrontServed(a, b)
  {
  }

  lemma GrantShape(s: Store, popped: Option<DeviceId>, sid: SessionId, h: TokenHash, now: int, cfg: Config)
    requires PopOf(s.avail, popped)
    requires Pruned(s.queue, s.entries) == s.queue && WaitingIn(s.queue, s.entries) == s.queue.Keys
    ensures var (s', r) := Scripts.Allocate(s, popped, sid, h, now, cfg);
      match r
      case Allocated(_, _, rid, _) =>
        popped.Some? && popped.value in s.avail && s'.avail == s.avail - {popped.value}
        && IsLeast(s.queue, s.queue.Keys, rid) && s'.queue == s.queue - {rid}
        && rid in s'.entries && s'.entries[rid].state == Claimed
      case Nothing => s'.queue == s.queue && s'.avail <= s.avail
  {
    hide Pruned, WaitingIn;
  }

  lemma OneLess(q: Queue, r: RequestId)
    requires r in q
    ensures |q - {r}| == |q| - 1
  {
    var q' := q - {r};
    assert q'.Keys == q.Keys - {r};
    assert |q'.Keys| == |q'| && |q.Keys| == |q|;
  }

  /** With an exact pool an allocation comes back empty-handed only when no device is free or nobody waits. */
  lemma EmptyHanded(s: Store, popped: Option<DeviceId>, sid: SessionId, h: TokenHash, now: int, cfg: Config)
    requires StoreOk(s) && PopOf(s.avail, popped) && Wakeup.AvailExact(s)
    ensures var (s', r) := Scripts.Allocate(s, popped, sid, h, now, cfg);
      Wakeup.AvailExact(s') && (r.Nothing? ==> s' == s && (s.avail == {} || s.queue == map[]))
  {
    NothingToPrune(s);
  }

  lemma ServedOnward(a: Store, b: Store, c: Store)
    requires ServedInOrder(a, b) && ServedInOrder(b, c)
    ensures ServedInOrder(a, c)
  {
    forall r, w | r in a.queue && r !in c.queue && w in c.queue ensures Before(a.queue, r, w) {
      if r in b.queue { assert Before(b.queue, r, w); }
    }
  }

  lemma ServedNone(s: Store)
    ensures ServedInOrder(s, s)
  {
  }

  lemma ClaimedStays(s: Store, popped: Option<DeviceId>, sid: SessionId, h: TokenHash, now: int, cfg: Config)
    requires PopOf(s.avail, popped)
    ensures ClaimsKept(s, Scripts.Allocate(s, popped, sid, h, now, cfg).0)
  {
  }

  // ---------------- a cleanup worker ----------------

  predicate Bound(s: Store, did: DeviceId, sid: SessionId) {
    did in s.devices && s.devices[did].currentSessionId == Some(sid)
  }

  /** The session is marked as over. */
  function Concluded(s: Store, sid: SessionId): Store {
    s.(sessions := if sid in s.sessions then s.sessions[sid := s.sessions[sid].(state := Ended)] else s.sessions,
       listed := s.listed - {sid})
  }

  function WithDevice(s: Store, did: DeviceId, dev: Device): Store {
    s.(devices := s.devices[did := dev])
  }

  /** The store after `k` failed attempts that have not used up the device's chances. */
  function Retried(s: Store, sid: SessionId, did: DeviceId, k: nat): Store
    requires did in s.devices
  {
    if k == 0 then s
    else WithDevice(Concluded(s, sid), did, s.devices[did].(failureCount := s.devices[did].failureCount + k))
  }

  /** The device is healthy again and in the pool. */
  function Freed(s: Store, sid: SessionId, did: DeviceId, now: int): Store
    requires did in s.devices
  {
    WithDevice(Concluded(s, sid), did, s.devices[did].(
      state := Available, currentSessionId := None, failureCount := 0, lastHealthAt := now)).(avail := s.avail + {did})
  }

  /** The device is out of service after `k` more failures. */
  function WrittenOff(s: Store, sid: SessionId, did: DeviceId, k: nat): Store
    requires did in s.devices
  {
    WithDevice(Concluded(s, sid), did, s.devices[did].(
      state := Offline, currentSessionId := None, failureCount := s.devices[did].failureCount + k))
  }

  lemma NotYetTried(s: Store, sid: SessionId, did: DeviceId)
    requires did in s.devices
    ensures Retried(s, sid, did, 0) == s
  {
  }

  /** What one more attempt leaves behind. */
  lemma AttemptOutcome(s: Store, sid: SessionId, did: DeviceId, k: nat, ok: bool, now: int, cfg: Config)
    requires did in s.devices && (k > 0 ==> Bound(s, did, sid))
    ensures var (s', r) := Scripts.FinishCleanup(Retried(s, sid, did, k), sid, did, ok, now, cfg);
      if !Bound(s, did, sid) then r.CleanupErr? && s' == Concluded(s, sid)
      else if ok then r == CleanupOk(Available) && s' == Freed(s, sid, did, now)
      else if s.devices[did].failureCount + k + 1 < cfg.maxFailures then
        r == CleanupOk(Cleaning) && s' == Retried(s, sid, did, k + 1)
      else r == CleanupOk(Offline) && s' == WrittenOff(s, sid, did, k + 1)
  {
    var t := Retried(s, sid, did, k);
    assert Concluded(t, sid).sessions == Concluded(s, sid).sessions
      && Concluded(t, sid).listed == Concluded(s, sid).listed;
    var dev, n := s.devices[did], s.devices[did].failureCount + k + 1;
    Overwritten(s.devices, did, t.devices[did], dev.(failureCount := n));
    Overwritten(s.devices, did, t.devices[did], dev.(state := Offline, currentSessionId := None, failureCount := n));
    Overwritten(s.devices, did, t.devices[did],
      dev.(state := Available, currentSessionId := None, failureCount := 0, lastHealthAt := now));
  }

  lemma Overwritten(devices: Devices, did: DeviceId, a: Device, b: Device)
    ensures devices[did := a][did := b] == devices[did := b]
  {
  }

  lemma StillUnused(s: Store, sid: SessionId, did: DeviceId, ok: bool, now: int, cfg: Config, n: SessionId)
    requires UnusedFrom(s, n)
    ensures var s' := Scripts.FinishCleanup(s, sid, did, ok, now, cfg).0;
      UnusedFrom(s', n) && (sid in s'.sessions ==> s'.sessions[sid].state == Ended)
  {
  }

  // ---------------- a reaper pass ----------------

  /** A session record after a pass that started at `now`. */
  function Reaped(cfg: Config, s: Session, now: int): Session {
    match Judge(cfg, s, now)
    case Keep => s
    case Detach => s.(state := Disconnected, reconnectDeadline := Some(now + cfg.graceMs))
    case Expire(reason) => s.(state := Expired, endReason := Some(reason))
  }

  /** After a pass nothing is overdue, and just what was overdue has ended. */
  lemma ReapedIsNotOverdue(cfg: Config, s: Session, now: int)
    ensures !Reaping.Overdue(Reaped(cfg, s, now), now)
    ensures Live(s.state) && !Live(Reaped(cfg, s, now).state) <==> Reaping.Overdue(s, now)
    ensures !Live(s.state) ==> Reaped(cfg, s, now) == s
    ensures Judge(cfg, s, now).Detach? ==> forall later: int | now <= later <= s.expiresAt && now + cfg.graceMs != 0 ::
      Reaping.Overdue(Reaped(cfg, s, now), later) <==> later > now + cfg.graceMs
  {
  }

  // ---------------- the repair of the pool ----------------

  function Repaired(s: Store): Store {
    s.(avail := (s.avail - s.deviceIds) + set d | d in s.deviceIds && Wakeup.IsAvailable(s, d))
  }

  /** The repair makes the pool exact if and only if it held no id that is not registered. */
  lemma RepairIsExact(s: Store)
    requires StoreOk(s)
    ensures Wakeup.AvailExact(Repaired(s)) <==> s.avail <= s.deviceIds
  {
    var s' := Repaired(s);
    if Wakeup.AvailExact(s') {
      forall d | d in s.avail ensures d in s.deviceIds {
        assert d in s'.avail <==> Wakeup.IsAvailable(s', d);
      }
    }
    if s.avail <= s.deviceIds {
      forall d ensures d in s'.avail <==> Wakeup.IsAvailable(s', d) {}
    }
  }

  /** Bindings to a session that is missing or over. */
  predicate Orphaned(s: Store, d: DeviceId) {
    d in s.devices && s.devices[d].currentSessionId.Some?
    && var sid := s.devices[d].currentSessionId.value;
       sid in s.sessions ==> !Nonterminal(s.sessions[sid].state)
  }

  /** Those are the devices still to be cleaned, but for one whose session is in ENDING. */
  lemma OrphansAreDirty(s: Store, d: DeviceId)
    requires StoreOk(s)
    ensures Orphaned(s, d) <==>
      d in s.devices && s.devices[d].state == Cleaning
      && (forall sid | sid in s.sessions && s.sessions[sid].deviceId == d :: s.sessions[sid].state != Ending)
  {
    if d in s.devices {
      assert DeviceOk(s.sessions, s.devices, s.fences, d);
    }
    forall sid | sid in s.sessions && s.sessions[sid].deviceId == d && s.sessions[sid].state == Ending
      ensures !Orphaned(s, d)
    {
      assert SessionOk(s.sessions, s.devices, s.fences, s.listed, sid);
    }
    if d in s.devices && s.devices[d].state == Cleaning && s.devices[d].currentSessionId.Some?
       && s.devices[d].currentSessionId.value in s.sessions {
      assert SessionOk(s.sessions, s.devices, s.fences, s.listed, s.devices[d].currentSessionId.value);
    }
  }

  function Orphans(s: Store, among: set<DeviceId>): set<(SessionId, DeviceId)> {
    set d | d in among && Orphaned(s, d) :: (s.devices[d].currentSessionId.value, d)
  }

  lemma OneMoreOrphan(s: Store, among: set<DeviceId>, d: DeviceId)
    ensures Orphans(s, among + {d}) ==
      Orphans(s, among) + if Orphaned(s, d) then {(s.devices[d].currentSessionId.value, d)} else {}
  {
  }

  /** The sessions that a pass at `now` expires, with their devices. */
  function Expiring(cfg: Config, sessions: Sessions, among: set<SessionId>, now: int): set<(SessionId, DeviceId)> {
    set sid | sid in among && sid in sessions && Judge(cfg, sessions[sid], now).Expire? :: (sid, sessions[sid].deviceId)
  }

  lemma OneMoreExpiring(cfg: Config, sessions: Sessions, among: set<SessionId>, sid: SessionId, now: int)
    requires sid in sessions
    ensures Expiring(cfg, sessions, among + {sid}, now) ==
      Expiring(cfg, sessions, among, now)
      + if Judge(cfg, sessions[sid], now).Expire? then {(sid, sessions[sid].deviceId)} else {}
  {
  }

  /** Sessions that are not listed have ended, and a pass would not touch them. */
  lemma UnlistedStay(cfg: Config, s: Store, now: int)
    requires StoreOk(s)
    ensures s.listed <= s.sessions.Keys
    ensures forall sid | sid in s.sessions && sid !in s.listed ::
      Reaped(cfg, s.sessions[sid], now) == s.sessions[sid] && !Judge(cfg, s.sessions[sid], now).Expire?
  {
    forall sid | sid in s.sessions && sid !in s.listed
      ensures Reaped(cfg, s.sessions[sid], now) == s.sessions[sid] && !Judge(cfg, s.sessions[sid], now).Expire?
    {
      assert SessionOk(s.sessions, s.devices, s.fences, s.listed, sid);
    }
  }

  /** A pass over the listed sessions is a pass over all of them. */
  lemma PassIsTotal(cfg: Config, s: Store, sessions: Sessions, now: int)
    requires StoreOk(s) && sessions.Keys == s.sessions.Keys
    requires forall sid | sid in s.sessions ::
      sessions[sid] == if sid in s.listed then Reaped(cfg, s.sessions[sid], now) else s.sessions[sid]
    ensures sessions == map sid | sid in s.sessions :: Reaped(cfg, s.sessions[sid], now)
    ensures Expiring(cfg, s.sessions, s.listed, now) == Expiring(cfg, s.sessions, s.sessions.Keys, now)
  {
    hide StoreOk, Reaped, Judge;
    UnlistedStay(cfg, s, now);
    forall sid | sid in sessions ensures sessions[sid] == Reaped(cfg, s.sessions[sid], now) {
      assert sid in s.sessions;
    }
  }
}
