/** One executor beside the store, while everything else in the lab goes on. */
module GuardedInput {
  import opened Domain
  import opened Scripts
  import opened Lab
  import opened Ownership
  import opened Transitions
  import Gate
  import opened Executor
  import opened InputOrder

  datatype Joint = Joint(lab: Lab, t: Trace)

  /** A step of the executor, its last call of the store, or anything else that happens to the store. */
  datatype JointStep = Input(m: Move) | SaveSeq(reached: bool) | Other(cmd: Cmd)

  ghost predicate CanStep(post: Post, j: Joint, a: JointStep) {
    var s := j.lab.store;
    match a
    case Input(m) =>
      Ready(j.t.e, m)
      && (match m
          case Submit(cmd) => cmd.sessionId == post.id   // commands are handed to the executor of their session
          case ReadSession(sess) => sess == Lookup(s.sessions, post.id)
          case ReadDevice(dev) => dev == Lookup(s.devices, post.deviceId)
          case Decide(now) => now == j.lab.clock
          case Save => false
          case _ => true)
    case SaveSeq(_) => j.t.e.stage.Saving?
    case Other(cmd) => Allowed(j.lab, cmd) && !(cmd.UpdateInputSeq? && cmd.sid == post.id)
  }

  ghost function Stepped(cfg: Config, post: Post, j: Joint, a: JointStep): Joint
    requires CanStep(post, j, a)
  {
    match a
    case Input(m) => Joint(j.lab, Step(post, j.t, m))
    case SaveSeq(reached) =>
      var save := UpdateInputSeq(post.id, j.t.e.stage.cmd.seqNo);
      Joint(if reached then Do(cfg, j.lab, save) else j.lab, Step(post, j.t, Save))
    case Other(cmd) => Joint(Do(cfg, j.lab, cmd), j.t)
  }

  ghost predicate JointRuns(cfg: Config, post: Post, a: Joint, steps: seq<JointStep>, b: Joint)
    decreases |steps|
  {
    if steps == [] then a == b
    else CanStep(post, a, steps[0]) && JointRuns(cfg, post, Stepped(cfg, post, a, steps[0]), steps[1..], b)
  }

  /** Some run leads from `a` to `b`. */
  ghost predicate Leads(cfg: Config, post: Post, a: Joint, b: Joint) {
    exists steps :: JointRuns(cfg, post, a, steps, b)
  }

  lemma LeadsNowhere(cfg: Config, post: Post, a: Joint)
    ensures Leads(cfg, post, a, a)
  {
    assert JointRuns(cfg, post, a, [], a);
  }

  lemma {:induction false} OneMoreStep(cfg: Config, post: Post, a: Joint, steps: seq<JointStep>, b: Joint, s: JointStep)
    requires JointRuns(cfg, post, a, steps, b) && CanStep(post, b, s)
    ensures JointRuns(cfg, post, a, steps + [s], Stepped(cfg, post, b, s))
    decreases |steps|
  {
    hide CanStep, Stepped;
    var all := steps + [s];
    if steps == [] {
      assert all[1..] == [];
    } else {
      OneMoreStep(cfg, post, Stepped(cfg, post, a, steps[0]), steps[1..], b, s);
      assert all[1..] == steps[1..] + [s];
    }
  }

  lemma LeadsOn(cfg: Config, post: Post, a: Joint, b: Joint, s: JointStep, c: Joint)
    requires Leads(cfg, post, a, b) && CanStep(post, b, s) && c == Stepped(cfg, post, b, s)
    ensures Leads(cfg, post, a, c)
  {
    hide CanStep, Stepped, JointRuns;
    var steps :| JointRuns(cfg, post, a, steps, b);
    OneMoreStep(cfg, post, a, steps, b, s);
  }

  // ---------------- sequence numbers ----------------

  function SavedSeq(lab: Lab, sid: SessionId): nat {
    if sid in lab.store.sessions then lab.store.sessions[sid].lastAcceptedInputSeq else 0
  }

  lemma AllocateLeavesSeq(cfg: Config, lab: Lab, popped: Option<DeviceId>, x: SessionId, h: TokenHash, sid: SessionId)
    requires IdsOk(lab) && Allowed(lab, Allocate(popped, x, h)) && sid in lab.sids
    ensures SavedSeq(Do(cfg, lab, Allocate(popped, x, h)), sid) == SavedSeq(lab, sid)
  {
    AllocatedSessions(lab.store, popped, x, h, lab.clock, cfg);
    hide Scripts.Allocate;
  }

  lemma TouchLeavesSeq(cfg: Config, lab: Lab, cmd: Cmd, sid: SessionId)
    requires cmd.Claim? || cmd.BeginTermination? || cmd.Reconnect? || cmd.Heartbeat? || cmd.MarkDisconnected?
    requires Allowed(lab, cmd)
    ensures SavedSeq(Do(cfg, lab, cmd), sid) == SavedSeq(lab, sid)
  {
  }

  lemma EndLeavesSeq(cfg: Config, lab: Lab, cmd: Cmd, sid: SessionId)
    requires cmd.FinishCleanup? || cmd.ForgetSession?
    requires Allowed(lab, cmd)
    ensures SavedSeq(Do(cfg, lab, cmd), sid) <= SavedSeq(lab, sid)
    ensures sid in Do(cfg, lab, cmd).store.sessions ==> SavedSeq(Do(cfg, lab, cmd), sid) == SavedSeq(lab, sid)
  {
    if cmd.FinishCleanup? { FinishedSessions(lab.store, cmd.sid, cmd.did, cmd.ok, lab.clock, cfg); }
    hide Scripts.FinishCleanup;
  }

  lemma UpdateSeq(cfg: Config, lab: Lab, x: SessionId, n: nat, sid: SessionId)
    ensures SavedSeq(Do(cfg, lab, UpdateInputSeq(x, n)), sid) ==
      if x == sid && sid in lab.store.sessions && Nonterminal(lab.store.sessions[sid].state)
      then Max(SavedSeq(lab, sid), n) else SavedSeq(lab, sid)
  {
  }

  /** No command but the executor's own changes a session's saved number while the session's record exists. */
  lemma OthersLeaveSeq(cfg: Config, lab: Lab, cmd: Cmd, sid: SessionId)
    requires Sound(lab) && Allowed(lab, cmd) && sid in lab.sids && !(cmd.UpdateInputSeq? && cmd.sid == sid)
    ensures SavedSeq(Do(cfg, lab, cmd), sid) <= SavedSeq(lab, sid)
    ensures sid in Do(cfg, lab, cmd).store.sessions ==> SavedSeq(Do(cfg, lab, cmd), sid) == SavedSeq(lab, sid)
  {
    hide Effect, StoreOk;
    match cmd
    case Allocate(popped, x, h) => AllocateLeavesSeq(cfg, lab, popped, x, h, sid);
    case Claim(_, _, _) => TouchLeavesSeq(cfg, lab, cmd, sid);
    case BeginTermination(_, _, _, _) => TouchLeavesSeq(cfg, lab, cmd, sid);
    case Reconnect(_, _) => TouchLeavesSeq(cfg, lab, cmd, sid);
    case Heartbeat(_, _) => TouchLeavesSeq(cfg, lab, cmd, sid);
    case MarkDisconnected(_, _) => TouchLeavesSeq(cfg, lab, cmd, sid);
    case FinishCleanup(_, _, _) => EndLeavesSeq(cfg, lab, cmd, sid);
    case ForgetSession(_) => EndLeavesSeq(cfg, lab, cmd, sid);
    case UpdateInputSeq(x, n) => UpdateSeq(cfg, lab, x, n, sid);
    case _ => OthersLeaveSessions(cfg, lab, cmd);
  }

  ghost predicate JointOk(post: Post, initialSeq: nat, j: Joint) {
    && Sound(j.lab) && post.id in j.lab.sids
    && TraceOk(post, initialSeq, j.t)
    && ForSession(post, j.t)
    && SavedSeq(j.lab, post.id) <= j.t.e.lastApplied
  }

  /** All commands admitted name the executor's session. */
  ghost predicate ForSession(post: Post, t: Trace) {
    forall i | 0 <= i < |t.admitted| :: t.admitted[i].sessionId == post.id
  }

  lemma ForSessionStep(post: Post, t: Trace, m: Move)
    requires ForSession(post, t) && Ready(t.e, m) && (m.Submit? ==> m.cmd.sessionId == post.id)
    ensures ForSession(post, Step(post, t, m))
  {
    hide Moved, Admits;
  }

  lemma AppliedGrows(post: Post, e: Exec, m: Move)
    requires Ready(e, m)
    ensures Moved(post, e, m).lastApplied >= e.lastApplied
  {
    hide Gate.Authorized;
  }

  lemma JointOkStep(cfg: Config, post: Post, initialSeq: nat, j: Joint, a: JointStep)
    requires JointOk(post, initialSeq, j) && CanStep(post, j, a)
    ensures JointOk(post, initialSeq, Stepped(cfg, post, j, a))
  {
    hide Effect, Sound, TraceOk, ForSession, SavedSeq, Moved, Admits, Ready;
    match a
    case Input(m) =>
      CanReady(post, j, m);
      TraceStep(post, initialSeq, j.t, m);
      ForSessionStep(post, j.t, m);
      AppliedGrows(post, j.t.e, m);
    case SaveSeq(reached) => SaveStep(cfg, post, initialSeq, j, reached);
    case Other(cmd) =>
      SoundStep(cfg, j.lab, cmd);
      OthersLeaveSeq(cfg, j.lab, cmd, post.id);
  }

  lemma CanReady(post: Post, j: Joint, m: Move)
    requires CanStep(post, j, Input(m))
    ensures Ready(j.t.e, m) && (m.Submit? ==> m.cmd.sessionId == post.id)
  {
  }

  lemma SaveStep(cfg: Config, post: Post, initialSeq: nat, j: Joint, reached: bool)
    requires JointOk(post, initialSeq, j) && CanStep(post, j, SaveSeq(reached))
    ensures JointOk(post, initialSeq, Stepped(cfg, post, j, SaveSeq(reached)))
  {
    hide Effect, Sound, TraceOk, ForSession, SavedSeq;
    TraceStep(post, initialSeq, j.t, Save);
    ForSessionStep(post, j.t, Save);
    SavingIsApplied(post, initialSeq, j.t);
    if reached {
      var cmd := UpdateInputSeq(post.id, j.t.e.stage.cmd.seqNo);
      SoundStep(cfg, j.lab, cmd);
      UpdateSeq(cfg, j.lab, post.id, cmd.inputSeq, post.id);
    }
  }

  lemma SavingIsApplied(post: Post, initialSeq: nat, t: Trace)
    requires TraceOk(post, initialSeq, t) && t.e.stage.Saving?
    ensures t.e.lastApplied == t.e.stage.cmd.seqNo
  {
    StartedNumber(post, initialSeq, t);
  }

  lemma {:induction false} JointRunOk(cfg: Config, post: Post, initialSeq: nat, a: Joint, steps: seq<JointStep>,
      b: Joint)
    requires JointOk(post, initialSeq, a) && JointRuns(cfg, post, a, steps, b)
    ensures JointOk(post, initialSeq, b)
    decreases |steps|
  {
    hide JointOk, CanStep, Stepped;
    if steps != [] {
      JointOkStep(cfg, post, initialSeq, a, steps[0]);
      JointRunOk(cfg, post, initialSeq, Stepped(cfg, post, a, steps[0]), steps[1..], b);
    }
  }

  /** An executor starts from the number saved in its session's record. */
  ghost predicate FreshExecutor(post: Post, initialSeq: nat, j: Joint) {
    Sound(j.lab) && post.id in j.lab.store.sessions && SavedSeq(j.lab, post.id) == initialSeq
      && j.t == NewTrace(initialSeq)
  }

  lemma FreshIsOk(post: Post, initialSeq: nat, j: Joint)
    requires FreshExecutor(post, initialSeq, j)
    ensures JointOk(post, initialSeq, j)
  {
    hide TraceOk;
    NewTraceOk(post, initialSeq);
  }

  /** Whatever else happens in the lab: number saved <= number applied <= number last begun <= number admitted. */
  lemma SequenceChain(cfg: Config, post: Post, initialSeq: nat, a: Joint, steps: seq<JointStep>, b: Joint)
    requires FreshExecutor(post, initialSeq, a) && JointRuns(cfg, post, a, steps, b)
    ensures SavedSeq(b.lab, post.id) <= b.t.e.lastApplied <= b.t.e.lastEnqueued - b.t.e.pending <= b.t.e.lastEnqueued
  {
    hide JointOk, FreshExecutor, JointRuns;
    FreshIsOk(post, initialSeq, a);
    JointRunOk(cfg, post, initialSeq, a, steps, b);
    ChainHolds(post, initialSeq, b);
  }

  lemma ChainHolds(post: Post, initialSeq: nat, j: Joint)
    requires JointOk(post, initialSeq, j)
    ensures SavedSeq(j.lab, post.id) <= j.t.e.lastApplied <= j.t.e.lastEnqueued - j.t.e.pending <= j.t.e.lastEnqueued
  {
    hide Sound, ForSession, SavedSeq;
  }

  // ---------------- the fence ----------------

  /** The device is no longer bound to this session under this fence. */
  ghost predicate Gone(post: Post, lab: Lab) {
    post.id in lab.sids && !Holds(post, Lookup(lab.store.devices, post.deviceId))
  }

  predicate Holds(post: Post, dev: Option<Device>) {
    dev.Some? && dev.value.currentSessionId == Some(post.id) && dev.value.leaseFence == Some(post.fence)
  }

  lemma GoneForever(cfg: Config, post: Post, lab: Lab, cmd: Cmd)
    requires Sound(lab) && Allowed(lab, cmd) && Gone(post, lab)
    ensures Gone(post, Do(cfg, lab, cmd))
  {
    hide Effect, Sound;
    DeviceMoves(cfg, lab, cmd, post.deviceId);
    EventKinds(cfg, lab, cmd);
  }

  /** A cleanup, or any later allocation of the device, ends a session's hold on it. */
  lemma GoneWhenSuperseded(post: Post, lab: Lab)
    requires Sound(lab) && post.id in lab.sids
    requires post.deviceId in lab.store.devices ==>
      lab.store.devices[post.deviceId].currentSessionId != Some(post.id)
      || (post.deviceId in lab.store.fences && lab.store.fences[post.deviceId] > post.fence)
    ensures Gone(post, lab)
  {
    var s := lab.store;
    if post.deviceId in s.devices { assert DeviceOk(s.sessions, s.devices, s.fences, post.deviceId); }
  }

  lemma OverForever(cfg: Config, lab: Lab, cmd: Cmd, sid: SessionId)
    requires Sound(lab) && Allowed(lab, cmd) && PastTermination(lab, sid)
    ensures PastTermination(Do(cfg, lab, cmd), sid)
  {
    hide Effect, Sound;
    SessionMoves(cfg, lab, cmd, sid);
    EventKinds(cfg, lab, cmd);
  }

  /** The session has lost its device, or has been terminated. */
  ghost predicate Cut(post: Post, lab: Lab) {
    Gone(post, lab) || PastTermination(lab, post.id)
  }

  /** And the running command has not read the record that would have to show it before that happened. */
  ghost predicate CutOff(post: Post, lab: Lab, stage: Stage) {
    (Gone(post, lab) && (stage.Checking? && stage.device.Some? ==> !Holds(post, stage.device.value)))
    || (PastTermination(lab, post.id)
        && (stage.Checking? && stage.session.Some? && stage.session.value.Some? ==>
              stage.session.value.value.state != Active))
  }

  lemma CutForever(cfg: Config, post: Post, lab: Lab, cmd: Cmd, stage: Stage)
    requires Sound(lab) && Allowed(lab, cmd) && Cut(post, lab)
    ensures Cut(post, Do(cfg, lab, cmd))
    ensures CutOff(post, lab, stage) ==> CutOff(post, Do(cfg, lab, cmd), stage)
  {
    hide Effect, Sound, Allowed, Do, Gone, PastTermination;
    if Gone(post, lab) { GoneForever(cfg, post, lab, cmd); }
    if PastTermination(lab, post.id) { OverForever(cfg, lab, cmd, post.id); }
  }

  lemma CheckedCommand(post: Post, initialSeq: nat, t: Trace)
    requires TraceOk(post, initialSeq, t) && ForSession(post, t) && !t.e.stage.Resting?
    ensures t.e.stage.cmd.sessionId == post.id && t.e.stage.cmd.fence == post.fence
  {
    var i := |Started(t)| - 1;
    assert t.e.stage.cmd == t.admitted[i];
  }

  /** The lab part of a step, for a session that has been cut. */
  lemma StaysCut(cfg: Config, post: Post, initialSeq: nat, j: Joint, a: JointStep)
    requires JointOk(post, initialSeq, j) && CanStep(post, j, a) && Cut(post, j.lab)
    ensures Cut(post, Stepped(cfg, post, j, a).lab)
    ensures CutOff(post, j.lab, j.t.e.stage) ==> CutOff(post, Stepped(cfg, post, j, a).lab, j.t.e.stage)
  {
    hide Effect, Sound, TraceOk, ForSession, SavedSeq, Step, Cut, CutOff, Do;
    match a
    case Input(_) =>
    case SaveSeq(reached) =>
      if reached { CutForever(cfg, post, j.lab, UpdateInputSeq(post.id, j.t.e.stage.cmd.seqNo), j.t.e.stage); }
    case Other(cmd) => CutForever(cfg, post, j.lab, cmd, j.t.e.stage);
  }

  lemma CutOffStep(cfg: Config, post: Post, initialSeq: nat, j: Joint, a: JointStep)
    requires JointOk(post, initialSeq, j) && CanStep(post, j, a) && CutOff(post, j.lab, j.t.e.stage)
    ensures var j' := Stepped(cfg, post, j, a);
      CutOff(post, j'.lab, j'.t.e.stage) && j'.t.e.touched == j.t.e.touched
  {
    hide Effect, Sound, TraceOk, ForSession, SavedSeq, Do;
    StaysCut(cfg, post, initialSeq, j, a);
    if a.Input? && a.m.Decide? { CheckedCommand(post, initialSeq, j.t); }
  }

  /**
   * Fencing, end to end. From the moment the device is no longer bound to the session, or the session has
   * been terminated, a command that had not by then read the record in question does not reach the device,
   * nor does any after it, whatever else happens.
   */
  lemma {:induction false} FencedOff(cfg: Config, post: Post, initialSeq: nat, a: Joint, steps: seq<JointStep>,
      b: Joint)
    requires JointOk(post, initialSeq, a) && JointRuns(cfg, post, a, steps, b)
    requires CutOff(post, a.lab, a.t.e.stage)
    ensures b.t.e.touched == a.t.e.touched
    decreases |steps|
  {
    hide JointOk, CanStep, Stepped, CutOff;
    if steps != [] {
      CutOffStep(cfg, post, initialSeq, a, steps[0]);
      JointOkStep(cfg, post, initialSeq, a, steps[0]);
      FencedOff(cfg, post, initialSeq, Stepped(cfg, post, a, steps[0]), steps[1..], b);
    }
  }

  /** At most one command gets through after that: the one under check, if it had read that record before. */
  lemma {:induction false} AtMostOneLate(cfg: Config, post: Post, initialSeq: nat, a: Joint, steps: seq<JointStep>,
      b: Joint)
    requires JointOk(post, initialSeq, a) && JointRuns(cfg, post, a, steps, b) && Cut(post, a.lab)
    ensures b.t.e.touched == a.t.e.touched
      || (!CutOff(post, a.lab, a.t.e.stage) && a.t.e.stage.Checking?
        && b.t.e.touched == a.t.e.touched + [a.t.e.stage.cmd])
    decreases |steps|
  {
    hide JointOk, CanStep, Stepped, Cut, CutOff, JointRuns;
    if CutOff(post, a.lab, a.t.e.stage) {
      FencedOff(cfg, post, initialSeq, a, steps, b);
    } else if steps != [] {
      FirstStep(cfg, post, a, steps, b);
      LateStep(cfg, post, initialSeq, a, steps[0]);
      JointOkStep(cfg, post, initialSeq, a, steps[0]);
      AtMostOneLate(cfg, post, initialSeq, Stepped(cfg, post, a, steps[0]), steps[1..], b);
    } else {
      NoStep(cfg, post, a, b);
    }
  }

  lemma FirstStep(cfg: Config, post: Post, a: Joint, steps: seq<JointStep>, b: Joint)
    requires steps != [] && JointRuns(cfg, post, a, steps, b)
    ensures CanStep(post, a, steps[0]) && JointRuns(cfg, post, Stepped(cfg, post, a, steps[0]), steps[1..], b)
  {
  }

  lemma NoStep(cfg: Config, post: Post, a: Joint, b: Joint)
    requires JointRuns(cfg, post, a, [], b)
    ensures a == b
  {
  }

  lemma LateStep(cfg: Config, post: Post, initialSeq: nat, j: Joint, a: JointStep)
    requires JointOk(post, initialSeq, j) && CanStep(post, j, a)
    requires Cut(post, j.lab) && !CutOff(post, j.lab, j.t.e.stage)
    ensures j.t.e.stage.Checking?
    ensures var j' := Stepped(cfg, post, j, a);
      Cut(post, j'.lab)
      && (!CutOff(post, j'.lab, j'.t.e.stage) ==>
            j'.t.e.stage.Checking? && j'.t.e.stage.cmd == j.t.e.stage.cmd && j'.t.e.touched == j.t.e.touched)
      && (j'.t.e.touched == j.t.e.touched
          || (CutOff(post, j'.lab, j'.t.e.stage) && j'.t.e.touched == j.t.e.touched + [j.t.e.stage.cmd]))
  {
    hide Effect, Sound, TraceOk, ForSession, SavedSeq, Do;
    StaysCut(cfg, post, initialSeq, j, a);
  }

  /** And the owner is not refused: a check made on one state passes exactly for the active, unexpired session. */
  lemma OwnerGetsThrough(post: Post, initialSeq: nat, j: Joint)
    requires JointOk(post, initialSeq, j) && j.t.e.stage.Checking?
    ensures var e := GotDevice(GotSession(j.t.e, Lookup(j.lab.store.sessions, post.id)),
        Lookup(j.lab.store.devices, post.deviceId));
      Decided(e, j.lab.clock).touched == j.t.e.touched + [j.t.e.stage.cmd] <==>
        post.id in j.lab.store.sessions
        && var s := j.lab.store.sessions[post.id];
           s.state == Active && s.deviceId == post.deviceId && s.leaseFence == post.fence && j.lab.clock < s.expiresAt
  {
    hide Sound, TraceOk, ForSession;
    CheckedCommand(post, initialSeq, j.t);
    Gate.PassesExactly(j.lab, post.id, post.deviceId, post.fence, j.lab.clock);
  }
}
