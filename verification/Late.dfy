/** Exactly when a command still reaches the device after its session has lost it or has been terminated. */
module Late {
  import opened Domain
  import opened Scripts
  import opened Lab
  import Ownership
  import opened Executor
  import opened InputOrder
  import opened GuardedInput
  import Replay

  /** The executor serves its session's own device under its session's own fence, as the server builds it. */
  predicate Serves(post: Post, lab: Lab) {
    post.id in lab.store.sessions ==>
      lab.store.sessions[post.id].deviceId == post.deviceId && lab.store.sessions[post.id].leaseFence == post.fence
  }

  /** The session record read authorizes; the device record, read or still to be read, shows the session. */
  predicate MayPass(post: Post, j: Joint) {
    var stage := j.t.e.stage;
    stage.Checking? && stage.session.Some? && stage.session.value.Some?
    && var s := stage.session.value.value;
       s.state == Active && s.leaseFence == post.fence && j.lab.clock < s.expiresAt
       && Holds(post, if stage.device.Some? then stage.device.value else Lookup(j.lab.store.devices, post.deviceId))
  }

  lemma CutIsPast(post: Post, lab: Lab)
    requires Ownership.Sound(lab) && Serves(post, lab) && Cut(post, lab)
    ensures PastTermination(lab, post.id)
  {
    var s := lab.store;
    if post.id in s.sessions { assert Ownership.SessionOk(s.sessions, s.devices, s.fences, s.listed, post.id); }
  }

  /** The device of a session is not bound to it again. */
  lemma NotHeldAgain(cfg: Config, post: Post, lab: Lab, cmd: Cmd)
    requires Ownership.Sound(lab) && Allowed(lab, cmd) && post.id in lab.sids
    requires !Holds(post, Lookup(lab.store.devices, post.deviceId))
    ensures !Holds(post, Lookup(Do(cfg, lab, cmd).store.devices, post.deviceId))
  {
    GoneForever(cfg, post, lab, cmd);
  }

  lemma ClockGrows(cfg: Config, lab: Lab, cmd: Cmd)
    requires Allowed(lab, cmd)
    ensures lab.clock <= Do(cfg, lab, cmd).clock
  {
    hide Effect;
  }

  lemma BarredByLab(cfg: Config, post: Post, j: Joint, cmd: Cmd, t: Trace)
    requires Ownership.Sound(j.lab) && Allowed(j.lab, cmd) && PastTermination(j.lab, post.id) && !MayPass(post, j)
    requires t.e.stage == j.t.e.stage
    ensures PastTermination(Do(cfg, j.lab, cmd), post.id) && !MayPass(post, Joint(Do(cfg, j.lab, cmd), t))
  {
    hide Effect, Ownership.Sound, Allowed, Do, PastTermination, Holds;
    OverForever(cfg, j.lab, cmd, post.id);
    ClockGrows(cfg, j.lab, cmd);
    WasIssued(j.lab, post.id);
    if !Holds(post, Lookup(j.lab.store.devices, post.deviceId)) { NotHeldAgain(cfg, post, j.lab, cmd); }
  }

  lemma WasIssued(lab: Lab, sid: SessionId)
    requires PastTermination(lab, sid)
    ensures sid in lab.sids
  {
  }

  lemma BarredStep(cfg: Config, post: Post, initialSeq: nat, j: Joint, a: JointStep)
    requires JointOk(post, initialSeq, j) && PastTermination(j.lab, post.id) && !MayPass(post, j) && CanStep(post, j, a)
    ensures var j' := Stepped(cfg, post, j, a);
      PastTermination(j'.lab, post.id) && !MayPass(post, j') && j'.t.e.touched == j.t.e.touched
  {
    hide Effect, Ownership.Sound, TraceOk, ForSession, SavedSeq, Do;
    match a
    case Input(m) => if m.Decide? { CheckedCommand(post, initialSeq, j.t); }
    case SaveSeq(reached) =>
      if reached { OverForever(cfg, j.lab, UpdateInputSeq(post.id, j.t.e.stage.cmd.seqNo), post.id); }
    case Other(cmd) => BarredByLab(cfg, post, j, cmd, j.t);
  }

  lemma {:induction false} BarredRun(cfg: Config, post: Post, initialSeq: nat, a: Joint, steps: seq<JointStep>,
      b: Joint)
    requires JointOk(post, initialSeq, a) && PastTermination(a.lab, post.id) && !MayPass(post, a)
    requires JointRuns(cfg, post, a, steps, b)
    ensures b.t.e.touched == a.t.e.touched
    decreases |steps|
  {
    hide JointOk, CanStep, Stepped, PastTermination, MayPass;
    if steps != [] {
      BarredStep(cfg, post, initialSeq, a, steps[0]);
      JointOkStep(cfg, post, initialSeq, a, steps[0]);
      BarredRun(cfg, post, initialSeq, Stepped(cfg, post, a, steps[0]), steps[1..], b);
    }
  }

  lemma SlipsThrough(cfg: Config, post: Post, initialSeq: nat, j: Joint) returns (b: Joint)
    requires JointOk(post, initialSeq, j) && MayPass(post, j)
    ensures Leads(cfg, post, j, b) && b.lab == j.lab && b.t.e.touched == j.t.e.touched + [j.t.e.stage.cmd]
  {
    hide Leads, Ownership.Sound, TraceOk, ForSession;
    CheckedCommand(post, initialSeq, j.t);
    LeadsNowhere(cfg, post, j);
    var ready := j;
    if j.t.e.stage.device.None? {
      var read := Input(ReadDevice(Lookup(j.lab.store.devices, post.deviceId)));
      ready := Stepped(cfg, post, j, read);
      LeadsOn(cfg, post, j, j, read, ready);
    }
    b := Stepped(cfg, post, ready, Input(Decide(j.lab.clock)));
    LeadsOn(cfg, post, j, ready, Input(Decide(j.lab.clock)), b);
  }

  /**
   * Of a session that has lost its device or has been terminated, the command under check can still reach the
   * device if and only if the session record had been read by then and authorizes it, and the device record,
   * read already or still to be read, shows the session under its fence.
   */
  lemma LateExactly(cfg: Config, post: Post, initialSeq: nat, j: Joint)
    requires JointOk(post, initialSeq, j) && Serves(post, j.lab) && Cut(post, j.lab) && j.t.e.stage.Checking?
    ensures (exists b :: Leads(cfg, post, j, b) && b.t.e.touched == j.t.e.touched + [j.t.e.stage.cmd])
      <==> MayPass(post, j)
  {
    hide Leads, MayPass, Cut, PastTermination, TraceOk, ForSession;
    CutIsPast(post, j.lab);
    if MayPass(post, j) {
      var b := SlipsThrough(cfg, post, initialSeq, j);
    } else {
      forall b | Leads(cfg, post, j, b) ensures b.t.e.touched == j.t.e.touched {
        NothingSlips(cfg, post, initialSeq, j, b);
      }
    }
  }

  lemma NothingSlips(cfg: Config, post: Post, initialSeq: nat, j: Joint, b: Joint)
    requires JointOk(post, initialSeq, j) && PastTermination(j.lab, post.id) && !MayPass(post, j)
    requires Leads(cfg, post, j, b)
    ensures b.t.e.touched == j.t.e.touched
  {
    hide JointOk, MayPass, PastTermination, JointRuns;
    var steps :| JointRuns(cfg, post, j, steps, b);
    BarredRun(cfg, post, initialSeq, j, steps, b);
  }

  /** And it does happen: a session is ended between the two reads, and its command reaches the device all the same. */
  lemma TouchedAfterTheEnd(cfg: Config, post: Post, saved: nat, a: Joint, cmd: InputCommand, reason: EndReason)
    returns (over: Joint, b: Joint)
    requires FreshExecutor(post, saved, a) && Replay.Commands(post, a.lab) && Replay.Proper(post, cmd)
    requires 1 <= post.maxPending
    requires cmd.seqNo == saved + 1
    ensures Leads(cfg, post, a, over) && PastTermination(over.lab, post.id) && over.t.e.touched == []
    ensures Leads(cfg, post, over, b) && b.lab == over.lab && b.t.e.touched == [cmd]
  {
    hide Leads, Ownership.Sound, Effect, TraceOk, SavedSeq;
    var end := BeginTermination(post.id, reason, false, None);
    EndKeepsBinding(cfg, post, a.lab, end);
    FreshIsOk(post, saved, a);
    LeadsNowhere(cfg, post, a);
    var queued := Stepped(cfg, post, a, Input(Submit(cmd)));
    LeadsOn(cfg, post, a, a, Input(Submit(cmd)), queued);
    assert queued.t.e.chain == [cmd];
    var begun := Stepped(cfg, post, queued, Input(Begin));
    LeadsOn(cfg, post, a, queued, Input(Begin), begun);
    over := EndedWhileChecked(cfg, post, a, begun, cmd, end);
    AllOk(cfg, post, saved, a, over);
    b := SlipsThrough(cfg, post, saved, over);
  }

  lemma EndedWhileChecked(cfg: Config, post: Post, a: Joint, j: Joint, cmd: InputCommand, end: Cmd)
    returns (over: Joint)
    requires Leads(cfg, post, a, j) && Replay.Commands(post, j.lab) && Ownership.Sound(j.lab)
    requires j.t.e.stage == Checking(cmd, None, None) && end.BeginTermination? && end.sid == post.id && end.fence.None?
    ensures Leads(cfg, post, a, over) && PastTermination(over.lab, post.id) && MayPass(post, over)
    ensures over.t.e.touched == j.t.e.touched && over.t.e.stage.cmd == cmd
  {
    hide Leads, Ownership.Sound, Effect;
    EndKeepsBinding(cfg, post, j.lab, end);
    var s := Lookup(j.lab.store.sessions, post.id);
    var read := Stepped(cfg, post, j, Input(ReadSession(s)));
    LeadsOn(cfg, post, a, j, Input(ReadSession(s)), read);
    over := Stepped(cfg, post, read, Other(end));
    LeadsOn(cfg, post, a, read, Other(end), over);
  }

  /** Ending a session leaves its device bound to it, for the cleanup. */
  lemma EndKeepsBinding(cfg: Config, post: Post, lab: Lab, end: Cmd)
    requires Ownership.Sound(lab) && Replay.Commands(post, lab)
    requires end.BeginTermination? && end.sid == post.id && end.fence.None?
    ensures Allowed(lab, end) && var lab' := Do(cfg, lab, end);
      PastTermination(lab', post.id) && lab'.clock == lab.clock
      && Holds(post, Lookup(lab'.store.devices, post.deviceId))
  {
    var s := lab.store;
    assert Ownership.SessionOk(s.sessions, s.devices, s.fences, s.listed, post.id);
  }

  lemma AllOk(cfg: Config, post: Post, initialSeq: nat, a: Joint, b: Joint)
    requires JointOk(post, initialSeq, a) && Leads(cfg, post, a, b)
    ensures JointOk(post, initialSeq, b)
  {
    hide JointOk, JointRuns;
    var steps :| JointRuns(cfg, post, a, steps, b);
    JointRunOk(cfg, post, initialSeq, a, steps, b);
  }
}
