/** What is repeated when the next server goes on from the saved number after a crash. */
module Replay {
  import opened Domain
  import opened Scripts
  import opened Lab
  import Ownership
  import Transitions
  import Gate
  import opened Executor
  import InputOrder
  import opened GuardedInput
  import Subsequence
  import Resume

  /** The session is active and unexpired, and has the executor's device under its fence. */
  predicate Commands(post: Post, lab: Lab) {
    post.id in lab.store.sessions
    && var s := lab.store.sessions[post.id];
       s.state == Active && s.deviceId == post.deviceId && s.leaseFence == post.fence && lab.clock < s.expiresAt
  }

  /** An executor that has used up all numbers to `n` and has nothing to do. */
  predicate Caught(t: InputOrder.Trace, n: nat) {
    t.e.lastEnqueued == n && t.e.pending == 0 && t.e.chain == [] && t.e.stage.Resting? && !t.e.stopped
  }

  /** A client can always bring an executor to a higher number: overlong texts use up numbers, and nothing else. */
  lemma {:induction false} CatchUp(cfg: Config, post: Post, a: Joint, m: nat, n: nat) returns (b: Joint)
    requires Caught(a.t, m) && m <= n && 1 <= post.maxPending
    ensures Leads(cfg, post, a, b) && Caught(b.t, n) && b.lab == a.lab && b.t.e.touched == a.t.e.touched
    decreases n
  {
    hide Leads;
    if n == m {
      LeadsNowhere(cfg, post, a);
      b := a;
    } else {
      var mid := CatchUp(cfg, post, a, m, n - 1);
      var length: nat := if post.maxTextLength < 0 then 0 else post.maxTextLength + 1;
      var cmd := InputCommand(post.id, post.fence, n, Text(length));
      var queued := Stepped(cfg, post, mid, Input(InputOrder.Submit(cmd)));
      LeadsOn(cfg, post, a, mid, Input(InputOrder.Submit(cmd)), queued);
      assert queued.t.e.chain == [cmd];
      b := Stepped(cfg, post, queued, Input(InputOrder.Begin));
      LeadsOn(cfg, post, a, queued, Input(InputOrder.Begin), b);
    }
  }

  /** A command that the gate lets through if its session commands the device. */
  predicate Proper(post: Post, cmd: InputCommand) {
    cmd.sessionId == post.id && cmd.fence == post.fence && !TooLong(post, cmd)
  }

  /** The next command in line of a session that commands the device reaches the device. */
  lemma Execute(cfg: Config, post: Post, a: Joint, j: Joint, cmd: InputCommand) returns (b: Joint)
    requires Leads(cfg, post, a, j) && Ownership.Sound(j.lab) && Commands(post, j.lab) && 1 <= post.maxPending
    requires Proper(post, cmd) && 1 <= cmd.seqNo && Caught(j.t, cmd.seqNo - 1)
    ensures Leads(cfg, post, a, b) && b.lab == j.lab && b.t.e.touched == j.t.e.touched + [cmd]
  {
    hide Leads, Ownership.Sound;
    var queued := Stepped(cfg, post, j, Input(InputOrder.Submit(cmd)));
    LeadsOn(cfg, post, a, j, Input(InputOrder.Submit(cmd)), queued);
    assert queued.t.e.chain == [cmd];
    var begun := Stepped(cfg, post, queued, Input(InputOrder.Begin));
    LeadsOn(cfg, post, a, queued, Input(InputOrder.Begin), begun);
    b := PassGate(cfg, post, a, begun, cmd);
  }

  lemma PassGate(cfg: Config, post: Post, a: Joint, j: Joint, cmd: InputCommand) returns (b: Joint)
    requires Leads(cfg, post, a, j) && Ownership.Sound(j.lab) && Commands(post, j.lab) && Proper(post, cmd)
    requires j.t.e.stage == Checking(cmd, None, None)
    ensures Leads(cfg, post, a, b) && b.lab == j.lab && b.t.e.touched == j.t.e.touched + [cmd]
  {
    Gate.PassesExactly(j.lab, post.id, post.deviceId, post.fence, j.lab.clock);
    hide Leads, Ownership.Sound;
    var s, d := Lookup(j.lab.store.sessions, post.id), Lookup(j.lab.store.devices, post.deviceId);
    var one := Stepped(cfg, post, j, Input(InputOrder.ReadSession(s)));
    LeadsOn(cfg, post, a, j, Input(InputOrder.ReadSession(s)), one);
    var two := Stepped(cfg, post, one, Input(InputOrder.ReadDevice(d)));
    LeadsOn(cfg, post, a, one, Input(InputOrder.ReadDevice(d)), two);
    b := Stepped(cfg, post, two, Input(InputOrder.Decide(j.lab.clock)));
    LeadsOn(cfg, post, a, two, Input(InputOrder.Decide(j.lab.clock)), b);
  }

  /** Some run of an executor beside the lab hands the command to the device. */
  ghost predicate Touchable(cfg: Config, post: Post, a: Joint, cmd: InputCommand) {
    exists b :: Leads(cfg, post, a, b) && cmd in b.t.e.touched
  }

  lemma TouchableIff(cfg: Config, post: Post, saved: nat, a: Joint, cmd: InputCommand)
    requires FreshExecutor(post, saved, a) && Commands(post, a.lab) && Proper(post, cmd) && 1 <= post.maxPending
    ensures Touchable(cfg, post, a, cmd) <==> saved < cmd.seqNo
  {
    hide Leads;
    if saved < cmd.seqNo {
      var mid := CatchUp(cfg, post, a, saved, cmd.seqNo - 1);
      var b := Execute(cfg, post, a, mid, cmd);
      assert cmd in b.t.e.touched;
    }
    if Touchable(cfg, post, a, cmd) {
      var b :| Leads(cfg, post, a, b) && cmd in b.t.e.touched;
      AboveSaved(cfg, post, saved, a, b, cmd);
    }
  }

  lemma AboveSaved(cfg: Config, post: Post, saved: nat, a: Joint, b: Joint, cmd: InputCommand)
    requires FreshExecutor(post, saved, a) && Leads(cfg, post, a, b) && cmd in b.t.e.touched
    ensures saved < cmd.seqNo
  {
    hide JointOk, FreshExecutor, JointRuns;
    var steps :| JointRuns(cfg, post, a, steps, b);
    FreshIsOk(post, saved, a);
    JointRunOk(cfg, post, saved, a, steps, b);
    TouchedIsAdmitted(post, saved, b, cmd);
    Resume.Numbered(post, saved, b);
  }

  /**
   * At-most-once does not survive a crash: when the session commands its device again, a command that the
   * device has had can be handed to it a second time by the next executor, if and only if its number is
   * above the saved one from which that executor starts.
   */
  lemma ReplayAfterCrash(cfg: Config, post: Post, initialSeq: nat, j: Joint, cmd: InputCommand, saved: nat, next: Joint)
    requires JointOk(post, initialSeq, j) && cmd in j.t.e.touched && 1 <= post.maxPending
    requires FreshExecutor(post, saved, next) && Commands(post, next.lab)
    ensures Touchable(cfg, post, next, cmd) <==> saved < cmd.seqNo
  {
    hide Touchable, SavedSeq, JointOk, FreshExecutor;
    TouchedIsProper(post, initialSeq, j, cmd);
    TouchableIff(cfg, post, saved, next, cmd);
  }

  /** The saved number that the next executor finds is the one the last left, whatever else ran in between. */
  lemma {:induction false} SavedSurvives(cfg: Config, a: Lab, cmds: seq<Cmd>, b: Lab, sid: SessionId)
    requires Ownership.Sound(a) && sid in a.sids && Runs(cfg, a, cmds, b) && sid in b.store.sessions
    requires forall cmd | cmd in cmds :: !(cmd.UpdateInputSeq? && cmd.sid == sid)
    ensures sid in a.store.sessions && SavedSeq(b, sid) == SavedSeq(a, sid)
    decreases |cmds|
  {
    hide Effect, Ownership.Sound, SavedSeq;
    if cmds != [] {
      assert cmds[0] in cmds;
      var mid := Do(cfg, a, cmds[0]);
      Transitions.SoundStep(cfg, a, cmds[0]);
      SavedSurvives(cfg, mid, cmds[1..], b, sid);
      ThereBefore(cfg, a, cmds[0], sid);
      OthersLeaveSeq(cfg, a, cmds[0], sid);
    }
  }

  lemma ThereBefore(cfg: Config, lab: Lab, cmd: Cmd, sid: SessionId)
    requires Ownership.Sound(lab) && Allowed(lab, cmd) && sid in lab.sids && sid in Do(cfg, lab, cmd).store.sessions
    ensures sid in lab.store.sessions
  {
    hide Effect, Ownership.Sound;
    Transitions.SessionMoves(cfg, lab, cmd, sid);
    Transitions.EventKinds(cfg, lab, cmd);
  }

  /**
   * And it does happen. The device has had the next command of an active session when the server crashes; the
   * restart detaches the session, its client reconnects and sends the command again, and the device gets it again.
   */
  lemma ExecutedTwice(cfg: Config, post: Post, saved: nat, a: Joint, cmd: InputCommand)
    returns (b: Joint, next: Joint, c: Joint)
    requires FreshExecutor(post, saved, a) && Commands(post, a.lab) && Proper(post, cmd) && 1 <= post.maxPending
    requires cmd.seqNo == saved + 1
    ensures Leads(cfg, post, a, b) && cmd in b.t.e.touched && b.lab == a.lab
    ensures var s := a.lab.store.sessions[post.id];
      Runs(cfg, b.lab, [MarkDisconnected(post.id, b.lab.clock), Reconnect(post.id, s.clientId)], next.lab)
    ensures FreshExecutor(post, saved, next) && Leads(cfg, post, next, c) && cmd in c.t.e.touched
  {
    hide Leads, Ownership.Sound, Effect, Runs, SavedSeq;
    LeadsNowhere(cfg, post, a);
    b := Execute(cfg, post, a, a, cmd);
    var client := b.lab.store.sessions[post.id].clientId;
    var cut := Do(cfg, b.lab, MarkDisconnected(post.id, b.lab.clock));
    next := Joint(Do(cfg, cut, Reconnect(post.id, client)), InputOrder.NewTrace(saved));
    Resumed(cfg, post, b.lab);
    LeadsNowhere(cfg, post, next);
    c := Execute(cfg, post, next, next, cmd);
  }

  lemma Resumed(cfg: Config, post: Post, lab: Lab)
    requires Ownership.Sound(lab) && Commands(post, lab)
    ensures var cut := MarkDisconnected(post.id, lab.clock);
      var back := Reconnect(post.id, lab.store.sessions[post.id].clientId);
      Allowed(lab, cut) && Allowed(Do(cfg, lab, cut), back)
      && var lab' := Do(cfg, Do(cfg, lab, cut), back);
         Runs(cfg, lab, [cut, back], lab') && Ownership.Sound(lab') && Commands(post, lab')
         && SavedSeq(lab', post.id) == SavedSeq(lab, post.id)
  {
    var cut, back := MarkDisconnected(post.id, lab.clock), Reconnect(post.id, lab.store.sessions[post.id].clientId);
    Transitions.SoundStep(cfg, lab, cut);
    Transitions.SoundStep(cfg, Do(cfg, lab, cut), back);
    ThereAndBack(cfg, post, lab);
    hide Ownership.Sound, Effect, Commands, Allowed;
    var two := [cut, back];
    assert two[1..] == [back] && [back][1..] == [];
    assert Runs(cfg, Do(cfg, lab, cut), [back], Do(cfg, Do(cfg, lab, cut), back));
  }

  lemma ThereAndBack(cfg: Config, post: Post, lab: Lab)
    requires Commands(post, lab)
    ensures var cut := MarkDisconnected(post.id, lab.clock);
      var back := Reconnect(post.id, lab.store.sessions[post.id].clientId);
      Allowed(lab, cut) && Allowed(Do(cfg, lab, cut), back)
      && Commands(post, Do(cfg, Do(cfg, lab, cut), back))
      && SavedSeq(Do(cfg, Do(cfg, lab, cut), back), post.id) == SavedSeq(lab, post.id)
  {
  }

  lemma TouchedIsAdmitted(post: Post, initialSeq: nat, j: Joint, cmd: InputCommand)
    requires JointOk(post, initialSeq, j) && cmd in j.t.e.touched
    ensures cmd in j.t.admitted
  {
    hide Ownership.Sound, SavedSeq, ForSession;
    var t := j.t;
    InputOrder.DecisionsAdmitted(t);
    Subsequence.Transitive(t.e.touched, InputOrder.Decisions(t), t.admitted);
    InputOrder.SubsequenceIncreases(t.e.touched, t.admitted);
  }

  lemma TouchedIsProper(post: Post, initialSeq: nat, j: Joint, cmd: InputCommand)
    requires JointOk(post, initialSeq, j) && cmd in j.t.e.touched
    ensures Proper(post, cmd)
  {
    hide Ownership.Sound, SavedSeq;
    TouchedIsAdmitted(post, initialSeq, j, cmd);
    Resume.Numbered(post, initialSeq, j);
    var i :| 0 <= i < |j.t.admitted| && j.t.admitted[i] == cmd;
  }
}
