/** The restart's repair of the pool, while cleanup workers and the allocator go on. */
module Repair {
  import opened Domain
  import opened Scripts
  import opened Lab
  import Ownership
  import Transitions
  import opened Stories
  import Tenure
  import opened Server
  import opened ServerInv
  import opened Wakeup

  // ---------------- what runs between a read and the write ----------------

  predicate GrantedIn(events: seq<Event>, d: DeviceId) {
    exists e | e in events :: e.Granted? && e.did == d
  }

  predicate CleanedIn(events: seq<Event>, d: DeviceId) {
    exists e | e in events :: e.Cleaned? && e.did == d
  }

  /**
   * What has been logged since `log0` decides whether device `d` is pooled: a grant has taken it, else a
   * cleanup has freed it, else it is as it was. A session granted meanwhile is not over.
   */
  ghost predicate Stretch(log0: seq<Event>, log: seq<Event>, d: DeviceId) {
    log0 <= log
    && var since := log[|log0|..];
       var now := DeviceAfter(log, d).status;
       if GrantedIn(since, d) then now.Held? && SessionAfter(log, now.sid).Open?
       else if CleanedIn(since, d) then now.Pooled?
       else now.Pooled? <==> DeviceAfter(log0, d).status.Pooled?
  }

  /** The events that the server can cause while it repairs. */
  predicate RepairEvent(e: Event) {
    e.Granted? || e.Cleaned? || e.CleanupFailed?
  }

  lemma StretchStep(cfg: Config, log0: seq<Event>, log: seq<Event>, e: Event, d: DeviceId)
    requires Stretch(log0, log, d) && LegalEvent(cfg, log, e) && RepairEvent(e)
    ensures Stretch(log0, log + [e], d)
  {
    var since, since' := log[|log0|..], (log + [e])[|log0|..];
    assert since' == since + [e];
    assert forall x :: x in since' <==> x in since || x == e;
    var now := DeviceAfter(log, d).status;
    AfterOne(log, [e], d, if now.Held? then now.sid else 0);
    if e.Granted? { AfterOne(log, [e], d, e.sid); }
    hide SessionAfter, DeviceAfter;
    if e.Cleaned? && e.did == d { assert e in since'; }
    if e.Granted? && e.did == d { assert e in since'; }
  }

  lemma StretchStart(log: seq<Event>, d: DeviceId)
    ensures Stretch(log, log, d)
  {
  }

  lemma RepairEvents(cfg: Config, sys: Sys, a: Action)
    requires SysOk(cfg, sys) && Enabled(cfg, sys, a) && sys.proc.phase.Repairing?
    ensures var c := CmdOf(cfg, sys, a);
      c.Some? ==>
        Allowed(sys.lab, c.value)
        && var events := Effect(cfg, sys.lab, c.value).1;
           events == [] || (|events| == 1 && RepairEvent(events[0]))
  {
    CallsAreAllowed(cfg, sys, a);
    hide Effect, Ownership.Sound, Told, Tenure.TenuresOk, CleanersOk, CursorOk, Allowed, Tenure.Judge;
    var c := CmdOf(cfg, sys, a);
    if c.Some? { Transitions.EventKinds(cfg, sys.lab, c.value); }
  }

  /** The loop is at work on device `d`, whose record it read when the log was `log0`. */
  ghost predicate AtWork(cfg: Config, log0: seq<Event>, sys: Sys, d: DeviceId, dev: Device) {
    var ph := sys.proc.phase;
    ph.Repairing? && (ph.cursor == HaveDevice(d, dev) || ph.cursor == Checked(d, dev))
    && Stretch(log0, sys.lab.log, d)
  }

  lemma AtWorkStep(cfg: Config, log0: seq<Event>, sys: Sys, a: Action, d: DeviceId, dev: Device)
    requires SysOk(cfg, sys) && AtWork(cfg, log0, sys, d, dev) && Enabled(cfg, sys, a)
    requires !a.Crash? && !a.RepairWrite?
    ensures AtWork(cfg, log0, Next(cfg, sys, a), d, dev)
  {
    RepairEvents(cfg, sys, a);
    PhaseStays(cfg, sys, a, d, dev);
    LabStep(cfg, sys, a);
    hide Ownership.Sound, Tenure.TenuresOk, CleanersOk, CursorOk, Allowed, Effect, Stretch, LegalEvent, Next, CmdOf,
         Enabled, SysOk;
    var c := CmdOf(cfg, sys, a);
    if c.Some? {
      var events := Effect(cfg, sys.lab, c.value).1;
      if events == [] {
        assert sys.lab.log + events == sys.lab.log;
      } else {
        assert events == [events[0]];
        LegalNext(cfg, sys.lab, c.value);
        StretchStep(cfg, log0, sys.lab.log, events[0], d);
      }
    }
  }

  lemma LegalNext(cfg: Config, lab: Lab, cmd: Cmd)
    requires Allowed(lab, cmd) && LegalLog(cfg, Do(cfg, lab, cmd).log)
    ensures var events := Effect(cfg, lab, cmd).1; |events| == 1 ==> LegalEvent(cfg, lab.log, events[0])
  {
    hide Effect, LegalEvent;
    var events := Effect(cfg, lab, cmd).1;
    var log' := lab.log + events;
    if |events| == 1 {
      assert log'[..|lab.log|] == lab.log;
      assert LegalEvent(cfg, log'[..|lab.log|], log'[|lab.log|]);
    }
  }

  lemma PhaseStays(cfg: Config, sys: Sys, a: Action, d: DeviceId, dev: Device)
    requires SysOk(cfg, sys) && Enabled(cfg, sys, a) && !a.Crash? && !a.RepairWrite?
    requires var ph := sys.proc.phase;
      ph.Repairing? && (ph.cursor == HaveDevice(d, dev) || ph.cursor == Checked(d, dev))
    ensures var ph := Next(cfg, sys, a).proc.phase;
      ph.Repairing? && (ph.cursor == HaveDevice(d, dev) || ph.cursor == Checked(d, dev))
  {
    hide Effect, Ownership.Sound, Told, Tenure.TenuresOk, CleanersOk, CursorOk, Allowed, Do, Tenure.Judge;
  }

  lemma {:induction false} AtWorkRun(cfg: Config, log0: seq<Event>, a: Sys, actions: seq<Action>, b: Sys, d: DeviceId,
      dev: Device)
    requires SysOk(cfg, a) && AtWork(cfg, log0, a, d, dev) && SysRuns(cfg, a, actions, b)
    requires forall x | x in actions :: !x.Crash? && !x.RepairWrite?
    ensures SysOk(cfg, b) && AtWork(cfg, log0, b, d, dev)
    decreases |actions|
  {
    hide SysOk, Enabled, Next, AtWork;
    if actions != [] {
      assert actions[0] in actions;
      SysStep(cfg, a, actions[0]);
      AtWorkStep(cfg, log0, a, actions[0], d, dev);
      AtWorkRun(cfg, log0, Next(cfg, a, actions[0]), actions[1..], b, d, dev);
    }
  }

  /** In the log's terms a device is available exactly while it is pooled. */
  lemma PooledIsAvailable(cfg: Config, lab: Lab, d: DeviceId)
    requires Ownership.Sound(lab) && Told(cfg, lab)
    ensures IsAvailable(lab.store, d) <==> DeviceAfter(lab.log, d).status.Pooled?
  {
    hide SessionAfter, DeviceAfter, LegalLog;
    var s := lab.store;
    assert DeviceTold(lab, d);
    if d in s.devices { assert Ownership.DeviceOk(s.sessions, s.devices, s.fences, d); }
  }

  /**
   * The repair of a device writes the truth if and only if nothing has changed its mind since the record
   * was read: a device read as available has not been granted, and one read as anything else has not been
   * freed by a cleanup, or if it has, it has been granted again. An exact pool stays exact in just these cases.
   */
  lemma RepairWritesTruth(cfg: Config, a: Sys, d: DeviceId, actions: seq<Action>, b: Sys)
    requires SysOk(cfg, a) && Enabled(cfg, a, RepairRead(d)) && d in a.lab.store.devices
    requires SysRuns(cfg, Next(cfg, a, RepairRead(d)), actions, b) && Enabled(cfg, b, RepairWrite)
    requires forall x | x in actions :: !x.Crash? && !x.RepairWrite?
    ensures a.lab.log <= b.lab.log
    ensures var since := b.lab.log[|a.lab.log|..];
      var right := if IsAvailable(a.lab.store, d) then !GrantedIn(since, d)
                   else CleanedIn(since, d) ==> GrantedIn(since, d);
      (Careful(b, RepairWrite) <==> right)
      && (AvailExact(b.lab.store) ==> (AvailExact(Next(cfg, b, RepairWrite).lab.store) <==> right))
  {
    hide SysOk, AvailExact, GrantedIn, CleanedIn, SessionAfter, DeviceAfter, Allowed, Do, Effect;
    ReadBegins(cfg, a, d);
    var read, dev := Next(cfg, a, RepairRead(d)), a.lab.store.devices[d];
    SysStep(cfg, a, RepairRead(d));
    AtWorkRun(cfg, a.lab.log, read, actions, b, d, dev);
    Truths(cfg, a, d);
    Truths(cfg, b, d);
    if AvailExact(b.lab.store) { ExactStep(cfg, b, RepairWrite); }
  }

  lemma Truths(cfg: Config, sys: Sys, d: DeviceId)
    requires SysOk(cfg, sys)
    ensures IsAvailable(sys.lab.store, d) <==> DeviceAfter(sys.lab.log, d).status.Pooled?
  {
    PooledIsAvailable(cfg, sys.lab, d);
  }

  lemma ReadBegins(cfg: Config, a: Sys, d: DeviceId)
    requires SysOk(cfg, a) && Enabled(cfg, a, RepairRead(d)) && d in a.lab.store.devices
    ensures AtWork(cfg, a.lab.log, Next(cfg, a, RepairRead(d)), d, a.lab.store.devices[d])
    ensures Next(cfg, a, RepairRead(d)).lab == a.lab
  {
    StretchStart(a.lab.log, d);
  }
}
