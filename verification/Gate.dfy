/** The ownership check in front of every device command, and what stale reads can and cannot do to it. */
module Gate {
  import opened Domain
  import opened Scripts
  import opened Lab
  import opened Ownership
  import opened Stories
  import History

  /** The check itself: a session record and a device record, each read at its own moment. */
  predicate Authorized(s: Option<Session>, d: Option<Device>, sid: SessionId, fence: nat, now: int) {
    s.Some? && d.Some?
    && s.value.state == Active
    && d.value.currentSessionId == Some(sid)
    && d.value.leaseFence == Some(fence)
    && s.value.leaseFence == fence
    && now < s.value.expiresAt
  }

  /** The check on one state of the store: `did` is the device the session's executor was built for. */
  predicate Passes(lab: Lab, sid: SessionId, did: DeviceId, fence: nat, now: int) {
    Authorized(Lookup(lab.store.sessions, sid), Lookup(lab.store.devices, did), sid, fence, now)
  }

  /** On one state the check is exact: it passes for just the active, unexpired owner under its own fence. */
  lemma PassesExactly(lab: Lab, sid: SessionId, did: DeviceId, fence: nat, now: int)
    requires Sound(lab)
    ensures Passes(lab, sid, did, fence, now) <==>
      sid in lab.store.sessions
      && var s := lab.store.sessions[sid];
         s.state == Active && s.deviceId == did && s.leaseFence == fence && now < s.expiresAt
  {
    var s := lab.store;
    if sid in s.sessions { assert SessionOk(s.sessions, s.devices, s.fences, s.listed, sid); }
    if did in s.devices { assert DeviceOk(s.sessions, s.devices, s.fences, did); }
  }

  lemma OneCommanderPerDevice(lab: Lab, a: SessionId, b: SessionId, did: DeviceId, f: nat, g: nat, now: int)
    requires Sound(lab) && Passes(lab, a, did, f, now) && Passes(lab, b, did, g, now)
    ensures a == b && f == g
  {
    PassesExactly(lab, a, did, f, now);
    PassesExactly(lab, b, did, g, now);
  }

  /**
   * A check that passes, on whatever stale session record, proves that when the device was read it was
   * still bound to that session under the newest fence ever issued for it.
   */
  lemma PassProvesBinding(cfg: Config, lab: Lab, s: Option<Session>, did: DeviceId, sid: SessionId, fence: nat,
      now: int)
    requires Sound(lab) && Told(cfg, lab)
    requires Authorized(s, Lookup(lab.store.devices, did), sid, fence, now)
    ensures DeviceAfter(lab.log, did) == DeviceStory(Held(sid), fence)
    ensures fence == FenceOf(lab.store.fences, did)
  {
    assert DeviceTold(lab, did);
    assert DeviceOk(lab.store.sessions, lab.store.devices, lab.store.fences, did);
  }

  /** Once a device has been granted anew, no command under an older fence passes, whatever session record it read. */
  lemma StaleFenceNeverPasses(cfg: Config, lab: Lab, i: nat, j: nat, s: Option<Session>, sid: SessionId, now: int)
    requires Sound(lab) && Told(cfg, lab) && i < j < |lab.log|
    requires lab.log[i].Granted? && lab.log[j].Granted? && lab.log[i].did == lab.log[j].did
    ensures !Authorized(s, Lookup(lab.store.devices, lab.log[i].did), sid, lab.log[i].fence, now)
  {
    var d := lab.log[i].did;
    assert lab.log[..|lab.log|] == lab.log;
    if Authorized(s, Lookup(lab.store.devices, d), sid, lab.log[i].fence, now) {
      PassProvesBinding(cfg, lab, s, d, sid, lab.log[i].fence, now);
      History.FencesIncrease(cfg, lab.log, i, j);
      History.AfterNext(lab.log, j, d, 0);
      History.FenceNeverFalls(cfg, lab.log, j + 1, |lab.log|, d);
    }
  }

  /** The check does not look at the device's state: a session record read before termination still passes after it. */
  lemma StaleSessionPassesDuringCleanup(cfg: Config, lab: Lab, sid: SessionId, reason: EndReason, expired: bool)
    requires Sound(lab) && sid in lab.store.sessions
    requires lab.store.sessions[sid].state == Active && lab.clock < lab.store.sessions[sid].expiresAt
    ensures var s := lab.store.sessions[sid];
      var after := Do(cfg, lab, BeginTermination(sid, reason, expired, None));
      Authorized(Some(s), Lookup(after.store.devices, s.deviceId), sid, s.leaseFence, after.clock)
      && after.store.devices[s.deviceId].state == Cleaning
      && !Passes(after, sid, s.deviceId, s.leaseFence, after.clock)
  {
    var s := lab.store;
    assert SessionOk(s.sessions, s.devices, s.fences, s.listed, sid);
  }
}
