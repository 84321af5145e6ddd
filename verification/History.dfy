/** What a legal log says of fences, of terminations, of cleanups, and of devices between two owners. */
module History {
  import opened Domain
  import opened Scripts
  import opened Lab
  import opened Ownership
  import Transitions
  import opened Stories

  lemma AfterNext(log: seq<Event>, j: nat, d: DeviceId, sid: SessionId)
    requires j < |log|
    ensures DeviceAfter(log[..j + 1], d) == NextDevice(DeviceAfter(log[..j], d), log[j], d)
    ensures SessionAfter(log[..j + 1], sid) == NextSession(SessionAfter(log[..j], sid), log[j], sid)
  {
    assert log[..j + 1][..j] == log[..j];
  }

  // ---------------- fences ----------------

  lemma {:induction false} FenceNeverFalls(cfg: Config, log: seq<Event>, i: nat, j: nat, d: DeviceId)
    requires LegalLog(cfg, log) && i <= j <= |log|
    ensures DeviceAfter(log[..i], d).fence <= DeviceAfter(log[..j], d).fence
    decreases j
  {
    if i < j {
      FenceNeverFalls(cfg, log, i, j - 1, d);
      AfterNext(log, j - 1, d, 0);
      assert LegalEvent(cfg, log[..j - 1], log[j - 1]);
    }
  }

  /** Of two grants of one device the later carries the larger fence, whatever re-registrations lie between. */
  lemma FencesIncrease(cfg: Config, log: seq<Event>, i: nat, j: nat)
    requires LegalLog(cfg, log) && i < j < |log|
    requires log[i].Granted? && log[j].Granted? && log[i].did == log[j].did
    ensures log[i].fence < log[j].fence
  {
    AfterNext(log, i, log[i].did, 0);
    FenceNeverFalls(cfg, log, i + 1, j, log[i].did);
    assert LegalEvent(cfg, log[..j], log[j]);
  }

  // ---------------- termination ----------------

  lemma {:induction false} StaysClosed(cfg: Config, log: seq<Event>, i: nat, j: nat, sid: SessionId)
    requires LegalLog(cfg, log) && i < j <= |log| && log[i].Terminated? && log[i].sid == sid
    ensures SessionAfter(log[..j], sid).Closed? && SessionAfter(log[..j], sid).reason == log[i].reason
    decreases j
  {
    assert LegalEvent(cfg, log[..j - 1], log[j - 1]);
    AfterNext(log, j - 1, 0, sid);
    if i < j - 1 { StaysClosed(cfg, log, i, j - 1, sid); }
  }

  /** Among any number of concurrent terminators exactly one wins, and its reason stands ever after. */
  lemma TerminatedOnce(cfg: Config, lab: Lab, i: nat, sid: SessionId)
    requires Told(cfg, lab) && i < |lab.log| && lab.log[i].Terminated? && lab.log[i].sid == sid
    ensures forall j | 0 <= j < |lab.log| && j != i && lab.log[j].Terminated? :: lab.log[j].sid != sid
    ensures sid in lab.store.sessions ==>
      !Live(lab.store.sessions[sid].state) && lab.store.sessions[sid].endReason == Some(lab.log[i].reason)
  {
    forall j | 0 <= j < |lab.log| && j != i && lab.log[j].Terminated?
      ensures lab.log[j].sid != sid
    {
      var a, b := if i < j then i else j, if i < j then j else i;
      assert LegalEvent(cfg, lab.log[..b], lab.log[b]);
      if lab.log[j].sid == sid { StaysClosed(cfg, lab.log, a, b, sid); }
    }
    assert lab.log[..|lab.log|] == lab.log;
    StaysClosed(cfg, lab.log, i, |lab.log|, sid);
    assert SessionTold(cfg, lab, sid);
  }

  // ---------------- cleanup ----------------

  function FailedAttempts(log: seq<Event>, sid: SessionId): nat {
    if log == [] then 0
    else
      var e := log[|log| - 1];
      FailedAttempts(log[..|log| - 1], sid) + if e.CleanupFailed? && e.sid == sid then 1 else 0
  }

  function AttemptLimit(cfg: Config): nat {
    if cfg.maxFailures < 1 then 1 else cfg.maxFailures
  }

  lemma {:induction false} AttemptsAreCounted(cfg: Config, log: seq<Event>, j: nat, sid: SessionId)
    requires LegalLog(cfg, log) && j <= |log|
    ensures var t := SessionAfter(log[..j], sid);
      FailedAttempts(log[..j], sid) == (if t.Closed? then t.failures else 0)
      && (t.Closed? ==> t.failures <= AttemptLimit(cfg) && (t.settled || t.failures < AttemptLimit(cfg)))
    decreases j
  {
    if j > 0 {
      AttemptsAreCounted(cfg, log, j - 1, sid);
      AfterNext(log, j - 1, 0, sid);
      assert log[..j][..j - 1] == log[..j - 1];
      assert LegalEvent(cfg, log[..j - 1], log[j - 1]);
    }
  }

  /** However many cleaners run for a session, in however many server lives, their failures together are bounded. */
  lemma FailuresBounded(cfg: Config, log: seq<Event>, sid: SessionId)
    requires LegalLog(cfg, log)
    ensures FailedAttempts(log, sid) <= AttemptLimit(cfg)
  {
    AttemptsAreCounted(cfg, log, |log|, sid);
    assert log[..|log|] == log;
  }

  /**
   * While a device is being cleaned its failures are short of the limit, and only a finished cleanup of its
   * own session moves it on.
   */
  lemma CleaningHolds(cfg: Config, lab: Lab, cmd: Cmd, d: DeviceId)
    requires Sound(lab) && Told(cfg, lab) && Allowed(lab, cmd)
    requires d in lab.store.devices && lab.store.devices[d].state == Cleaning
    ensures var dev := lab.store.devices[d];
      var dev' := Lookup(Do(cfg, lab, cmd).store.devices, d);
      dev.currentSessionId.Some? && (dev.failureCount == 0 || dev.failureCount < cfg.maxFailures)
      && dev'.Some?
      && ((dev'.value.state == Cleaning && dev'.value.currentSessionId == dev.currentSessionId)
          || (cmd.FinishCleanup? && cmd.did == d && Some(cmd.sid) == dev.currentSessionId))
  {
    hide Effect, LegalLog, ClientsOk, WaitersOk, IdsOk, SessionAfter, DeviceAfter;
    var s := lab.store;
    assert DeviceTold(lab, d) && DeviceOk(s.sessions, s.devices, s.fences, d);
    assert SessionTold(cfg, lab, s.devices[d].currentSessionId.value);
    Transitions.DeviceMoves(cfg, lab, cmd, d);
    Transitions.EventKinds(cfg, lab, cmd);
  }

  // ---------------- reuse ----------------

  predicate IsGrantOf(e: Event, d: DeviceId) {
    e.Granted? && e.did == d
  }

  /** The event lies strictly between two places of the log. */
  ghost predicate Between(log: seq<Event>, i: nat, j: nat, e: Event)
    requires j <= |log|
  {
    exists k :: i < k < j && log[k] == e
  }

  lemma BetweenNext(log: seq<Event>, i: nat, j: nat, e: Event)
    requires i < j < |log|
    ensures Between(log, i, j + 1, e) <==> Between(log, i, j, e) || log[j] == e
  {
  }

  /**
   * A device since its session `sid` was granted, with no grant since: it has been cleaned, or written off,
   * or neither while it is held, and never both; and once written off it comes back by a healthy check or by
   * being registered anew as online.
   */
  ghost predicate SinceGrant(log: seq<Event>, i: nat, j: nat, d: DeviceId, sid: SessionId)
    requires j <= |log|
  {
    var cleaned, failed := Between(log, i, j, Cleaned(sid, d)), Between(log, i, j, CleanupFailed(sid, d, true));
    match DeviceAfter(log[..j], d).status
    case Held(x) => x == sid && !cleaned && !failed
    case Pooled => (cleaned <==> !failed) && (failed ==> Returned(log, i, j, d, sid))
    case Out => cleaned <==> !failed
    case Unknown => false
  }

  /** The device was written off, and came back after that. */
  ghost predicate Returned(log: seq<Event>, i: nat, j: nat, d: DeviceId, sid: SessionId)
    requires j <= |log|
  {
    exists k, m :: i < k < m < j && log[k] == CleanupFailed(sid, d, true) && ReturnsToPool(log[m], d)
  }

  predicate ReturnsToPool(e: Event, d: DeviceId) {
    e == BackOnline(d) || e == Registered(d, true)
  }

  lemma ReturnedNext(log: seq<Event>, i: nat, j: nat, d: DeviceId, sid: SessionId)
    requires i < j < |log|
    ensures Returned(log, i, j, d, sid) ==> Returned(log, i, j + 1, d, sid)
    ensures Between(log, i, j, CleanupFailed(sid, d, true)) && ReturnsToPool(log[j], d) ==>
      Returned(log, i, j + 1, d, sid)
    ensures Returned(log, i, j, d, sid) ==> Between(log, i, j, BackOnline(d)) || Between(log, i, j, Registered(d, true))
  {
  }

  lemma SinceGrantStep(cfg: Config, log: seq<Event>, i: nat, j: nat, d: DeviceId, sid: SessionId)
    requires LegalLog(cfg, log) && i < j < |log| && !IsGrantOf(log[j], d) && SinceGrant(log, i, j, d, sid)
    ensures SinceGrant(log, i, j + 1, d, sid)
  {
    hide Between, Returned, DeviceAfter, SessionAfter;
    AfterNext(log, j, d, 0);
    assert LegalEvent(cfg, log[..j], log[j]);
    BetweenNext(log, i, j, Cleaned(sid, d));
    BetweenNext(log, i, j, CleanupFailed(sid, d, true));
    ReturnedNext(log, i, j, d, sid);
  }

  lemma {:induction false} SinceGrantRun(cfg: Config, log: seq<Event>, i: nat, j: nat, d: DeviceId)
    requires LegalLog(cfg, log) && i < j <= |log| && IsGrantOf(log[i], d)
    requires forall k | i < k < j :: !IsGrantOf(log[k], d)
    ensures SinceGrant(log, i, j, d, log[i].sid)
    decreases j
  {
    if i == j - 1 {
      AfterNext(log, i, d, 0);
    } else {
      SinceGrantRun(cfg, log, i, j - 1, d);
      SinceGrantStep(cfg, log, i, j - 1, d, log[i].sid);
    }
  }

  /**
   * Between two successive owners of a device exactly one of two things happens: the earlier one's cleanup
   * succeeds, or the device is written off and after that comes back.
   */
  lemma RestBetweenOwners(cfg: Config, log: seq<Event>, i: nat, j: nat, d: DeviceId)
    requires LegalLog(cfg, log) && i < j < |log| && IsGrantOf(log[i], d) && IsGrantOf(log[j], d)
    requires forall k | i < k < j :: !IsGrantOf(log[k], d)
    ensures Between(log, i, j, Cleaned(log[i].sid, d)) <==> !Between(log, i, j, CleanupFailed(log[i].sid, d, true))
    ensures Between(log, i, j, CleanupFailed(log[i].sid, d, true)) <==> Returned(log, i, j, d, log[i].sid)
  {
    hide DeviceAfter;
    SinceGrantRun(cfg, log, i, j, d);
    assert LegalEvent(cfg, log[..j], log[j]);
  }

  /**
   * The next owner's device has been cleaned or found healthy, unless and only unless it was written off, was
   * registered anew as online, and no health check found it healthy in between.
   */
  lemma CheckedBetweenOwners(cfg: Config, log: seq<Event>, i: nat, j: nat, d: DeviceId)
    requires LegalLog(cfg, log) && i < j < |log| && IsGrantOf(log[i], d) && IsGrantOf(log[j], d)
    requires forall k | i < k < j :: !IsGrantOf(log[k], d)
    ensures Between(log, i, j, Cleaned(log[i].sid, d)) || Between(log, i, j, BackOnline(d)) <==>
      !(Between(log, i, j, CleanupFailed(log[i].sid, d, true)) && Between(log, i, j, Registered(d, true))
        && !Between(log, i, j, BackOnline(d)))
  {
    hide Between, Returned;
    RestBetweenOwners(cfg, log, i, j, d);
    ReturnedNext(log, i, j, d, log[i].sid);
  }

  // ---------------- the exception, as a run ----------------

  lemma JoinEmpty(cfg: Config, lab: Lab, c: ClientId, x: int)
    requires x !in lab.rids && c !in lab.store.clientSession && c !in lab.store.clientRequest
        && lab.store.queue == map[]
    ensures var e := QueueEntry(x, c, 0, lab.clock, Waiting);
      Do(cfg, lab, JoinQueue(c, 0, x)) ==
        lab.(store := lab.store.(entries := lab.store.entries[x := e], queue := map[x := lab.clock],
                                 clientRequest := lab.store.clientRequest[c := x]),
             rids := lab.rids + {x}, log := lab.log + [Enqueued(x)])
  {
    assert lab.store.clientSession - {c} == lab.store.clientSession;
  }

  lemma AllocateOnly(cfg: Config, lab: Lab, d: DeviceId, x: int, sid: SessionId)
    requires lab.store.queue.Keys == {x} && IsWaiting(lab.store.entries, x) && sid !in lab.sids
    requires d in lab.store.avail && d in lab.store.devices && lab.store.devices[d].state == Available
    ensures var s := Grant(lab.store.(avail := lab.store.avail - {d}), d, x, sid, 0, lab.clock, cfg).0;
      Do(cfg, lab, Allocate(Some(d), sid, 0)) ==
        lab.(store := s, log := lab.log + [Granted(sid, d, FenceOf(lab.store.fences, d) + 1, x)],
          sids := lab.sids + {sid})
      && Effect(cfg, lab, Allocate(Some(d), sid, 0)).1 == [Granted(sid, d, FenceOf(lab.store.fences, d) + 1, x)]
  {
    assert WaitingIn(lab.store.queue, lab.store.entries) == {x};
    assert Head(lab.store.queue, lab.store.entries) == Some(x);
    assert Pruned(lab.store.queue, lab.store.entries) == lab.store.queue;
  }

  /** A new client joins an empty queue and is given an available device. */
  lemma ServeOne(cfg: Config, lab: Lab, d: DeviceId, c: ClientId, x: int) returns (lab': Lab)
    requires Reachable(cfg, lab) && x !in lab.sids && x !in lab.rids && d in lab.store.avail
    requires c !in lab.store.clientSession && c !in lab.store.clientRequest && lab.store.queue == map[]
    requires d in lab.store.devices && lab.store.devices[d].state == Available
    ensures Reachable(cfg, lab')
    ensures lab'.log == lab.log + [Enqueued(x), Granted(x, d, FenceOf(lab.store.fences, d) + 1, x)]
    ensures lab'.sids == lab.sids + {x} && lab'.rids == lab.rids + {x}
    ensures lab'.store.queue == map[] && lab'.store.fences == lab.store.fences[d := FenceOf(lab.store.fences, d) + 1]
    ensures lab'.store.clientRequest == lab.store.clientRequest
        && lab'.store.clientSession == lab.store.clientSession[c := x]
    ensures x in lab'.store.sessions && lab'.store.sessions[x].deviceId == d
        && lab'.store.sessions[x].state == SessionState.Reserved
    ensures lab'.store.sessions[x].clientId == c
    ensures lab'.store.devices == lab.store.devices[d :=
      lab.store.devices[d].(state := DeviceState.Reserved, currentSessionId := Some(x),
        leaseFence := Some(FenceOf(lab.store.fences, d) + 1))]
  {
    hide Do, Reachable, Effect;
    var l1 := Do(cfg, lab, JoinQueue(c, 0, x));
    ReachableStep(cfg, lab, JoinQueue(c, 0, x));
    JoinEmpty(cfg, lab, c, x);
    lab' := Do(cfg, l1, Allocate(Some(d), x, 0));
    AllocateOnly(cfg, l1, d, x, x);
    ReachableStep(cfg, l1, Allocate(Some(d), x, 0));
    assert lab'.store.clientRequest == lab.store.clientRequest;
  }

  /** A reserved session is ended, and its only allowed cleanup fails. */
  lemma LoseOne(cfg: Config, lab: Lab, d: DeviceId, x: SessionId) returns (lab': Lab)
    requires Reachable(cfg, lab) && cfg.maxFailures == 1 && x in lab.sids
    requires x in lab.store.sessions && lab.store.sessions[x].state == SessionState.Reserved
        && lab.store.sessions[x].deviceId == d
    requires d in lab.store.devices && lab.store.devices[d].currentSessionId == Some(x)
    ensures Reachable(cfg, lab')
    ensures lab'.log == lab.log + [Terminated(x, ByUser), CleanupFailed(x, d, true)]
    ensures lab'.sids == lab.sids && lab'.rids == lab.rids
    ensures lab'.store.queue == lab.store.queue && lab'.store.fences == lab.store.fences
    ensures lab'.store.clientRequest == lab.store.clientRequest
    ensures lab'.store.clientSession == lab.store.clientSession - {lab.store.sessions[x].clientId}
    ensures d in lab'.store.devices && lab'.store.devices[d].currentSessionId.None?
  {
    hide Reachable;
    var l1 := Do(cfg, lab, BeginTermination(x, ByUser, false, None));
    ReachableStep(cfg, lab, BeginTermination(x, ByUser, false, None));
    lab' := Do(cfg, l1, FinishCleanup(x, d, false));
    ReachableStep(cfg, l1, FinishCleanup(x, d, false));
  }

  lemma Reregister(cfg: Config, lab: Lab, d: DeviceId) returns (lab': Lab)
    requires Reachable(cfg, lab) && (d in lab.store.devices ==> lab.store.devices[d].currentSessionId.None?)
    ensures Reachable(cfg, lab')
    ensures lab' == lab.(store := lab'.store, log := lab.log + [Unregistered(d), Registered(d, true)])
    ensures lab'.store == lab.store.(devices := lab'.store.devices, deviceIds := lab'.store.deviceIds,
        avail := lab'.store.avail)
    ensures d in lab'.store.avail && d in lab'.store.devices && lab'.store.devices[d].state == Available
  {
    hide Reachable;
    var l1 := Do(cfg, lab, UnregisterDevice(d));
    ReachableStep(cfg, lab, UnregisterDevice(d));
    lab' := Do(cfg, l1, RegisterDevice(d, true));
    ReachableStep(cfg, l1, RegisterDevice(d, true));
  }

  /**
   * Registering anew is a real exception: a device that failed its only allowed cleanup, was dropped
   * from the configuration by one restart and put back by the next, serves a second client although
   * neither a cleanup nor a health check of it ever succeeded.
   */
  lemma ReuseWithoutCheck(d: DeviceId) returns (cfg: Config, lab: Lab)
    ensures Reachable(cfg, lab)
    ensures lab.log == [Registered(d, true), Enqueued(1), Granted(1, d, 1, 1), Terminated(1, ByUser),
        CleanupFailed(1, d, true),
                        Unregistered(d), Registered(d, true), Enqueued(2), Granted(2, d, 2, 2)]
  {
    hide Reachable, Do;
    cfg := Config(10, 600, 15, 15, 1);
    var l1 := FirstDevice(cfg, d);
    var l2 := ServeOne(cfg, l1, d, 1, 1);
    var l3 := LoseOne(cfg, l2, d, 1);
    var l4 := Reregister(cfg, l3, d);
    lab := ServeOne(cfg, l4, d, 2, 2);
  }

  lemma FirstDevice(cfg: Config, d: DeviceId) returns (lab: Lab)
    ensures Reachable(cfg, lab)
    ensures lab == Start(1).(store := lab.store, log := [Registered(d, true)])
    ensures lab.store == EMPTY.(devices := lab.store.devices, deviceIds := lab.store.deviceIds, avail := {d})
    ensures d in lab.store.devices && lab.store.devices[d].state == Available
  {
    hide Reachable;
    ReachableStart(cfg, 1);
    lab := Do(cfg, Start(1), RegisterDevice(d, true));
    ReachableStep(cfg, Start(1), RegisterDevice(d, true));
  }
}
