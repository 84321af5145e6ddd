/** What one executor does with any interleaving of submissions, a stop, and execution. */
module InputOrder {
  import opened Domain
  import opened Subsequence
  import Gate
  import opened Executor

  datatype Move =
    | Submit(cmd: InputCommand)
    | Stop
    | Begin
    | ReadSession(s: Option<Session>)
    | ReadDevice(d: Option<Device>)
    | FailCheck
    | Decide(now: int)
    | Act(ok: bool)
    | Save

  predicate Ready(e: Exec, m: Move) {
    match m
    case Submit(_) => true
    case Stop => true
    case Begin => e.stage.Resting? && e.chain != []
    case ReadSession(_) => e.stage.Checking? && e.stage.session.None?
    case ReadDevice(_) => e.stage.Checking? && e.stage.device.None?
    case FailCheck => e.stage.Checking? && (e.stage.session.None? || e.stage.device.None?)
    case Decide(_) => e.stage.Checking? && e.stage.session.Some? && e.stage.device.Some?
    case Act(_) => e.stage.Acting?
    case Save => e.stage.Saving?
  }

  function Moved(post: Post, e: Exec, m: Move): Exec
    requires Ready(e, m)
  {
    match m
    case Submit(cmd) => Submitted(post, e, cmd)
    case Stop => Stopped(e)
    case Begin => Begun(post, e)
    case ReadSession(s) => GotSession(e, s)
    case ReadDevice(d) => GotDevice(e, d)
    case FailCheck => CheckFailed(e)
    case Decide(now) => Decided(e, now)
    case Act(ok) => Acted(e, ok)
    case Save => Saved(e)
  }

  /** An executor with all that was ever submitted to it, all it admitted, and how its calls of the adapter went. */
  datatype Trace = Trace(
    e: Exec,
    arrived: seq<InputCommand>,
    admitted: seq<InputCommand>,
    succeeded: seq<InputCommand>,   // calls that the adapter answered well
    broken: seq<InputCommand>)      // calls that failed

  function NewTrace(initialSeq: nat): Trace {
    Trace(NewExec(initialSeq), [], [], [], [])
  }

  predicate Admits(post: Post, e: Exec, cmd: InputCommand) {
    Submitted(post, e, cmd).chain != e.chain
  }

  function Step(post: Post, t: Trace, m: Move): Trace
    requires Ready(t.e, m)
  {
    Trace(Moved(post, t.e, m),
          if m.Submit? then t.arrived + [m.cmd] else t.arrived,
          if m.Submit? && Admits(post, t.e, m.cmd) then t.admitted + [m.cmd] else t.admitted,
          if m.Act? && m.ok then t.succeeded + [t.e.stage.cmd] else t.succeeded,
          if m.Act? && !m.ok then t.broken + [t.e.stage.cmd] else t.broken)
  }

  ghost predicate Runs(post: Post, a: Trace, moves: seq<Move>, b: Trace)
    decreases |moves|
  {
    if moves == [] then a == b
    else Ready(a.e, moves[0]) && Runs(post, Step(post, a, moves[0]), moves[1..], b)
  }

  // ---------------- admission ----------------

  /** The commands that execution has begun. */
  function Started(t: Trace): seq<InputCommand>
    requires |t.e.chain| <= |t.admitted|
  {
    t.admitted[..|t.admitted| - |t.e.chain|]
  }

  /** Admitted numbers are contiguous, and what is pending is exactly what is queued. */
  ghost predicate QueueOk(post: Post, initialSeq: nat, e: Exec, admitted: seq<InputCommand>) {
    && |e.chain| <= |admitted|
    && e.chain == admitted[|admitted| - |e.chain|..]
    && e.pending == |e.chain|
    && (e.pending == 0 || e.pending <= post.maxPending)
    && e.lastEnqueued == initialSeq + |admitted|
  }

  ghost predicate Contiguous(post: Post, initialSeq: nat, admitted: seq<InputCommand>) {
    forall i | 0 <= i < |admitted| :: admitted[i].seqNo == initialSeq + 1 + i && admitted[i].fence == post.fence
  }

  ghost predicate AdmissionOk(post: Post, initialSeq: nat, t: Trace) {
    QueueOk(post, initialSeq, t.e, t.admitted) && Contiguous(post, initialSeq, t.admitted)
  }

  lemma AdmissionStep(post: Post, initialSeq: nat, t: Trace, m: Move)
    requires AdmissionOk(post, initialSeq, t) && Ready(t.e, m)
    ensures AdmissionOk(post, initialSeq, Step(post, t, m))
    ensures Started(Step(post, t, m)) == if m.Begin? then Started(t) + [t.e.chain[0]] else Started(t)
  {
    hide AdmissionOk, Moved;
    match m
    case Submit(cmd) => SubmitAdmission(post, initialSeq, t, cmd);
    case Begin => BeginAdmission(post, initialSeq, t);
    case _ => OthersLeaveQueue(post, t.e, m); SameQueue(post, initialSeq, t, Step(post, t, m));
  }

  lemma OthersLeaveQueue(post: Post, e: Exec, m: Move)
    requires Ready(e, m) && !m.Submit? && !m.Begin?
    ensures var e' := Moved(post, e, m);
      e'.chain == e.chain && e'.pending == e.pending && e'.lastEnqueued == e.lastEnqueued
  {
    hide Gate.Authorized;
  }

  lemma SameQueue(post: Post, initialSeq: nat, t: Trace, t': Trace)
    requires AdmissionOk(post, initialSeq, t)
    requires t'.e.chain == t.e.chain && t'.e.pending == t.e.pending && t'.e.lastEnqueued == t.e.lastEnqueued
    requires t'.admitted == t.admitted
    ensures AdmissionOk(post, initialSeq, t') && Started(t') == Started(t)
  {
  }

  lemma SubmitAdmission(post: Post, initialSeq: nat, t: Trace, cmd: InputCommand)
    requires AdmissionOk(post, initialSeq, t)
    ensures var t' := Step(post, t, Submit(cmd)); AdmissionOk(post, initialSeq, t') && Started(t') == Started(t)
  {
    hide Contiguous;
    if Admits(post, t.e, cmd) { ContiguousMore(post, initialSeq, t.admitted, cmd); }
  }

  lemma ContiguousMore(post: Post, initialSeq: nat, admitted: seq<InputCommand>, cmd: InputCommand)
    requires Contiguous(post, initialSeq, admitted) && cmd.seqNo == initialSeq + |admitted| + 1
        && cmd.fence == post.fence
    ensures Contiguous(post, initialSeq, admitted + [cmd])
  {
  }

  lemma BeginAdmission(post: Post, initialSeq: nat, t: Trace)
    requires AdmissionOk(post, initialSeq, t) && Ready(t.e, Begin)
    ensures var t' := Step(post, t, Begin);
      AdmissionOk(post, initialSeq, t') && Started(t') == Started(t) + [t.e.chain[0]]
  {
    hide Contiguous;
    var n := |t.admitted| - |t.e.chain|;
    assert t.e.chain[0] == t.admitted[n] && t.e.chain[1..] == t.admitted[n + 1..];
    assert t.admitted[..n + 1] == t.admitted[..n] + [t.admitted[n]];
  }

  ghost predicate ArrivalOk(t: Trace) {
    IsSubsequence(t.admitted, t.arrived)
  }

  lemma ArrivalStep(post: Post, t: Trace, m: Move)
    requires ArrivalOk(t) && Ready(t.e, m)
    ensures ArrivalOk(Step(post, t, m))
  {
    if m.Submit? { Extend(t.admitted, t.arrived, m.cmd); }
  }

  // ---------------- the device ----------------

  /** The started commands whose check has been decided. */
  function Decisions(t: Trace): seq<InputCommand>
    requires |t.e.chain| <= |t.admitted|
  {
    var s := Started(t);
    if t.e.stage.Checking? && s != [] then s[..|s| - 1] else s
  }

  /** The adapter gets started commands only, in order, and the running command is the last one started. */
  ghost predicate AdapterOk(post: Post, initialSeq: nat, t: Trace) {
    && |t.e.chain| <= |t.admitted|
    && (!t.e.stage.Resting? ==> Started(t) != [] && t.e.stage.cmd == Started(t)[|Started(t)| - 1])
    && IsSubsequence(t.e.touched, Decisions(t))
    && initialSeq <= t.e.lastApplied <= initialSeq + |Started(t)|
    && (t.e.stage.Checking? ==> t.e.lastApplied < initialSeq + |Started(t)|)
    && (t.e.stage.Saving? ==> t.e.lastApplied == initialSeq + |Started(t)|)
    && (t.e.stage.Acting? || t.e.stage.Saving? ==> t.e.touched != [] && t.e.touched[|t.e.touched| - 1] == t.e.stage.cmd)
  }

  lemma AdapterStep(post: Post, initialSeq: nat, t: Trace, m: Move)
    requires AdmissionOk(post, initialSeq, t) && AdapterOk(post, initialSeq, t) && Ready(t.e, m)
    ensures AdapterOk(post, initialSeq, Step(post, t, m))
  {
    hide AdmissionOk;
    AdmissionStep(post, initialSeq, t, m);
    StartedNumber(post, initialSeq, t);
    match m
    case Begin => BeginStep(post, initialSeq, t);
    case Decide(now) => DecideStep(post, initialSeq, t, now);
    case FailCheck => SettleStep(post, initialSeq, t, m);
    case _ =>
  }

  lemma StartedNumber(post: Post, initialSeq: nat, t: Trace)
    requires AdmissionOk(post, initialSeq, t)
    ensures |t.e.chain| <= |t.admitted|
    ensures Started(t) != [] ==> Started(t)[|Started(t)| - 1].seqNo == initialSeq + |Started(t)|
    ensures t.e.chain != [] ==> t.e.chain[0].seqNo == initialSeq + |Started(t)| + 1
  {
  }

  lemma BeginStep(post: Post, initialSeq: nat, t: Trace)
    requires AdmissionOk(post, initialSeq, t) && AdapterOk(post, initialSeq, t) && Ready(t.e, Begin)
    ensures AdapterOk(post, initialSeq, Step(post, t, Begin))
  {
    hide AdmissionOk, IsSubsequence;
    var t' := Step(post, t, Begin);
    AdmissionStep(post, initialSeq, t, Begin);
    StartedNumber(post, initialSeq, t);
    var s, cmd := Started(t), t.e.chain[0];
    assert Started(t')[..|Started(t')| - 1] == s;
    Extend(t.e.touched, s, cmd);
  }

  lemma DecideStep(post: Post, initialSeq: nat, t: Trace, now: int)
    requires AdmissionOk(post, initialSeq, t) && AdapterOk(post, initialSeq, t) && Ready(t.e, Decide(now))
    ensures AdapterOk(post, initialSeq, Step(post, t, Decide(now)))
  {
    hide AdmissionOk, IsSubsequence;
    AdmissionStep(post, initialSeq, t, Decide(now));
    SettleAll(t);
  }

  lemma SettleStep(post: Post, initialSeq: nat, t: Trace, m: Move)
    requires AdmissionOk(post, initialSeq, t) && AdapterOk(post, initialSeq, t) && Ready(t.e, m) && m.FailCheck?
    ensures AdapterOk(post, initialSeq, Step(post, t, m))
  {
    hide AdmissionOk, IsSubsequence;
    AdmissionStep(post, initialSeq, t, m);
    SettleAll(t);
  }

  /** Once the running command is decided, all started commands are. */
  lemma SettleAll(t: Trace)
    requires |t.e.chain| <= |t.admitted| && Started(t) != [] && t.e.stage.Checking?
    requires IsSubsequence(t.e.touched, Decisions(t)) && t.e.stage.cmd == Started(t)[|Started(t)| - 1]
    ensures IsSubsequence(t.e.touched, Started(t)) && IsSubsequence(t.e.touched + [t.e.stage.cmd], Started(t))
  {
    Extend(t.e.touched, Decisions(t), t.e.stage.cmd);
    assert Decisions(t) + [t.e.stage.cmd] == Started(t);
  }

  // ---------------- acknowledgements ----------------

  function Answered(acks: seq<Ack>): multiset<InputCommand> {
    if acks == [] then multiset{} else Answered(acks[..|acks| - 1]) + multiset{acks[|acks| - 1].cmd}
  }

  function Running(stage: Stage): multiset<InputCommand> {
    if stage.Resting? then multiset{} else multiset{stage.cmd}
  }

  /** Every submitted command has been answered once, or is queued or running and will be. */
  ghost predicate AcksOk(t: Trace) {
    multiset(t.arrived) == Answered(t.e.acks) + multiset(t.e.chain) + Running(t.e.stage)
  }

  lemma AnsweredMore(e: Exec, cmd: InputCommand, status: Status)
    ensures Answered(Answer(e, cmd, status).acks) == Answered(e.acks) + multiset{cmd}
  {
    var acks := e.acks + [Ack(cmd, status)];
    assert acks[..|acks| - 1] == e.acks;
  }

  lemma AcksStep(post: Post, t: Trace, m: Move)
    requires AcksOk(t) && Ready(t.e, m)
    ensures AcksOk(Step(post, t, m))
  {
    match m
    case Submit(cmd) => SubmitAcks(post, t, cmd);
    case Begin => BeginAcks(post, t);
    case Stop =>
    case ReadSession(_) =>
    case ReadDevice(_) =>
    case _ => ExecuteAcks(post, t, m);
  }

  lemma SubmitAcks(post: Post, t: Trace, cmd: InputCommand)
    requires AcksOk(t)
    ensures AcksOk(Step(post, t, Submit(cmd)))
  {
    hide Answered;
    var e' := Submitted(post, t.e, cmd);
    assert multiset(t.arrived + [cmd]) == multiset(t.arrived) + multiset{cmd};
    if Admits(post, t.e, cmd) {
      assert multiset(t.e.chain + [cmd]) == multiset(t.e.chain) + multiset{cmd};
    } else {
      Refused(post, t.e, cmd);
    }
  }

  lemma Refused(post: Post, e: Exec, cmd: InputCommand)
    requires !Admits(post, e, cmd)
    ensures var e' := Submitted(post, e, cmd);
      e'.chain == e.chain && e'.stage == e.stage && Answered(e'.acks) == Answered(e.acks) + multiset{cmd}
  {
    hide Answered;
    var e' := Submitted(post, e, cmd);
    assert e' == Answer(e, cmd, e'.acks[|e.acks|].status);
    AnsweredMore(e, cmd, e'.acks[|e.acks|].status);
  }

  lemma BeginAcks(post: Post, t: Trace)
    requires AcksOk(t) && Ready(t.e, Begin)
    ensures AcksOk(Step(post, t, Begin))
  {
    hide Answered;
    var cmd := t.e.chain[0];
    assert t.e.chain == [cmd] + t.e.chain[1..];
    assert multiset(t.e.chain) == multiset{cmd} + multiset(t.e.chain[1..]);
    AnsweredMore(t.e, cmd, Rejected(EndedBefore));
    AnsweredMore(t.e, cmd, Rejected(TextTooLong));
  }

  lemma ExecuteAcks(post: Post, t: Trace, m: Move)
    requires AcksOk(t) && Ready(t.e, m) && (m.FailCheck? || m.Decide? || m.Act? || m.Save?)
    ensures AcksOk(Step(post, t, m))
  {
    hide Answered, AcksOk, Gate.Authorized;
    var cmd := t.e.stage.cmd;
    var t' := Step(post, t, m);
    match m
    case FailCheck => Settled(t, t', cmd, Rejected(CheckUnavailable));
    case Decide(_) => if t'.e.stage.Resting? { Settled(t, t', cmd, Rejected(NotOwner)); } else { Carried(t, t'); }
    case Act(_) => if t'.e.stage.Resting? { Settled(t, t', cmd, Rejected(DeviceFailed)); } else { Carried(t, t'); }
    case Save => Settled(t, t', cmd, Applied);
  }

  lemma Settled(t: Trace, t': Trace, cmd: InputCommand, status: Status)
    requires AcksOk(t) && !t.e.stage.Resting? && t.e.stage.cmd == cmd
    requires t'.e.acks == Answer(t.e, cmd, status).acks
    requires t'.arrived == t.arrived && t'.e.chain == t.e.chain && t'.e.stage.Resting?
    ensures AcksOk(t')
  {
    hide Answered;
    AnsweredMore(t.e, cmd, status);
  }

  lemma Carried(t: Trace, t': Trace)
    requires AcksOk(t) && !t.e.stage.Resting? && !t'.e.stage.Resting? && t'.e.stage.cmd == t.e.stage.cmd
    requires t'.e.acks == t.e.acks && t'.arrived == t.arrived && t'.e.chain == t.e.chain
    ensures AcksOk(t')
  {
  }

  // ---------------- what answers say ----------------

  /** No command is reported as applied that the adapter has not had, and the adapter gets no text over the limit. */
  ghost predicate AnswersHonest(post: Post, e: Exec) {
    && (e.stage.Acting? || e.stage.Saving? ==> e.stage.cmd in e.touched)
    && (e.stage.Checking? ==> !TooLong(post, e.stage.cmd))
    && (forall i | 0 <= i < |e.acks| && e.acks[i].status.Applied? :: e.acks[i].cmd in e.touched)
    && (forall c | c in e.touched :: !TooLong(post, c))
  }

  lemma HonestStep(post: Post, e: Exec, m: Move)
    requires AnswersHonest(post, e) && Ready(e, m)
    ensures AnswersHonest(post, Moved(post, e, m))
  {
    hide TooLong, Gate.Authorized;
    match m
    case Begin => hide AnswersHonest; BeginHonest(post, e);
    case _ =>
  }

  lemma BeginHonest(post: Post, e: Exec)
    requires AnswersHonest(post, e) && Ready(e, Begin)
    ensures AnswersHonest(post, Begun(post, e))
  {
  }

  // ---------------- over whole runs ----------------

  ghost predicate TraceOk(post: Post, initialSeq: nat, t: Trace) {
    AdmissionOk(post, initialSeq, t) && ArrivalOk(t) && AdapterOk(post, initialSeq, t) && AcksOk(t)
    && AnswersHonest(post, t.e)
  }

  lemma TraceStep(post: Post, initialSeq: nat, t: Trace, m: Move)
    requires TraceOk(post, initialSeq, t) && Ready(t.e, m)
    ensures TraceOk(post, initialSeq, Step(post, t, m))
  {
    hide AdmissionOk, ArrivalOk, AdapterOk, AcksOk, AnswersHonest, Moved;
    AdmissionStep(post, initialSeq, t, m);
    ArrivalStep(post, t, m);
    AdapterStep(post, initialSeq, t, m);
    AcksStep(post, t, m);
    HonestStep(post, t.e, m);
  }

  lemma {:induction false} TraceRun(post: Post, initialSeq: nat, a: Trace, moves: seq<Move>, b: Trace)
    requires TraceOk(post, initialSeq, a) && Runs(post, a, moves, b)
    ensures TraceOk(post, initialSeq, b)
    decreases |moves|
  {
    hide TraceOk, Step;
    if moves != [] {
      TraceStep(post, initialSeq, a, moves[0]);
      TraceRun(post, initialSeq, Step(post, a, moves[0]), moves[1..], b);
    }
  }

  ghost predicate Increasing(s: seq<InputCommand>) {
    forall i, j | 0 <= i < j < |s| :: s[i].seqNo < s[j].seqNo
  }

  lemma {:induction false} SubsequenceIncreases(a: seq<InputCommand>, b: seq<InputCommand>)
    requires IsSubsequence(a, b) && Increasing(b)
    ensures Increasing(a) && forall x | x in a :: x in b
    decreases |b|
  {
    if a != [] {
      var b0 := b[..|b| - 1];
      if IsSubsequence(a, b0) {
        SubsequenceIncreases(a, b0);
      } else {
        var a0 := a[..|a| - 1];
        SubsequenceIncreases(a0, b0);
        forall i, j | 0 <= i < j < |a| ensures a[i].seqNo < a[j].seqNo {
          assert a0[i] in b0;
          if j < |a0| { assert a0[i].seqNo < a0[j].seqNo; }
        }
        forall x | x in a ensures x in b { assert x == a[|a| - 1] || x in a0; }
      }
    }
  }

  /**
   * Order and at-most-once. For any interleaving: admitted numbers run on from the initial one without a
   * gap; the commands that reach the adapter have strictly increasing numbers and stand in the order of
   * arrival; what is pending is the last number admitted less the last begun, and within the limit.
   */
  lemma InputIsOrdered(post: Post, initialSeq: nat, moves: seq<Move>, t: Trace)
    requires Runs(post, NewTrace(initialSeq), moves, t)
    ensures forall i | 0 <= i < |t.admitted| :: t.admitted[i].seqNo == initialSeq + 1 + i
    ensures IsSubsequence(t.admitted, t.arrived) && IsSubsequence(t.e.touched, t.arrived)
    ensures Increasing(t.e.touched)
    ensures |t.e.chain| <= |t.admitted| && t.e.lastEnqueued == initialSeq + |t.admitted|
    ensures t.e.pending == t.e.lastEnqueued - (initialSeq + |Started(t)|) == |t.e.chain|
    ensures t.e.pending <= post.maxPending || t.e.pending == 0
    ensures t.e.lastApplied <= t.e.lastEnqueued - t.e.pending
  {
    NewTraceOk(post, initialSeq);
    TraceRun(post, initialSeq, NewTrace(initialSeq), moves, t);
    DecisionsAdmitted(t);
    Transitive(t.e.touched, Decisions(t), t.admitted);
    Transitive(t.e.touched, t.admitted, t.arrived);
    SubsequenceIncreases(t.e.touched, t.admitted);
  }

  lemma DecisionsAdmitted(t: Trace)
    requires |t.e.chain| <= |t.admitted|
    ensures IsSubsequence(Decisions(t), t.admitted)
  {
    PrefixIsSubsequence(t.admitted, |Decisions(t)|);
    assert Decisions(t) == t.admitted[..|Decisions(t)|];
  }

  lemma {:induction false} PrefixIsSubsequence(s: seq<InputCommand>, n: nat)
    requires n <= |s|
    ensures IsSubsequence(s[..n], s)
    decreases |s|
  {
    if n == |s| {
      Reflexive(s);
      assert s[..n] == s;
    } else {
      var s0 := s[..|s| - 1];
      PrefixIsSubsequence(s0, n);
      assert s0[..n] == s[..n];
      Extend(s[..n], s0, s[|s| - 1]);
      assert s0 + [s[|s| - 1]] == s;
    }
  }

  /** Exactly one answer for each command, once nothing is queued or running. */
  lemma OneAckEach(post: Post, initialSeq: nat, moves: seq<Move>, t: Trace)
    requires Runs(post, NewTrace(initialSeq), moves, t)
    ensures Answered(t.e.acks) <= multiset(t.arrived)
    ensures t.e.chain == [] && t.e.stage.Resting? ==> Answered(t.e.acks) == multiset(t.arrived)
  {
    hide AdmissionOk, ArrivalOk, AdapterOk, Answered, Runs;
    NewTraceOk(post, initialSeq);
    TraceRun(post, initialSeq, NewTrace(initialSeq), moves, t);
  }

  lemma NewTraceOk(post: Post, initialSeq: nat)
    ensures TraceOk(post, initialSeq, NewTrace(initialSeq))
  {
    assert Started(NewTrace(initialSeq)) == [];
  }

  lemma {:induction false} AnswersAreHonest(post: Post, a: Trace, moves: seq<Move>, b: Trace)
    requires AnswersHonest(post, a.e) && Runs(post, a, moves, b)
    ensures AnswersHonest(post, b.e)
    decreases |moves|
  {
    hide AnswersHonest, Ready, Moved;
    if moves != [] {
      HonestStep(post, a.e, moves[0]);
      AnswersAreHonest(post, Step(post, a, moves[0]), moves[1..], b);
    }
  }

  // ---------------- what each answer means ----------------

  /** The commands answered in one way. */
  function AnsweredAs(acks: seq<Ack>, status: Status): multiset<InputCommand> {
    if acks == [] then multiset{}
    else
      var rest, a := AnsweredAs(acks[..|acks| - 1], status), acks[|acks| - 1];
      if a.status == status then rest + multiset{a.cmd} else rest
  }

  lemma AnsweredAsMore(acks: seq<Ack>, a: Ack)
    ensures AnsweredAs(acks + [a], Applied) ==
      if a.status == Applied then AnsweredAs(acks, Applied) + multiset{a.cmd} else AnsweredAs(acks, Applied)
    ensures AnsweredAs(acks + [a], Rejected(DeviceFailed)) ==
      if a.status == Rejected(DeviceFailed) then AnsweredAs(acks, Rejected(DeviceFailed)) + multiset{a.cmd}
      else AnsweredAs(acks, Rejected(DeviceFailed))
  {
    assert (acks + [a])[..|acks|] == acks;
  }

  /** A command of which the adapter has done its part and whose answer is still out. */
  function Unsaid(stage: Stage): multiset<InputCommand> {
    if stage.Saving? then multiset{stage.cmd} else multiset{}
  }

  function InHand(stage: Stage): multiset<InputCommand> {
    if stage.Acting? then multiset{stage.cmd} else multiset{}
  }

  type Commands = multiset<InputCommand>

  predicate Balanced(applied: Commands, failed: Commands, unsaid: Commands, inHand: Commands,
                     succeeded: Commands, broken: Commands, touched: Commands)
  {
    applied + unsaid == succeeded && failed == broken && succeeded + broken + inHand == touched
  }

  /** Applied is said of the calls that succeeded, a failure of the device of those that did not, and of no others. */
  ghost predicate OutcomesTold(t: Trace) {
    Balanced(AnsweredAs(t.e.acks, Applied), AnsweredAs(t.e.acks, Rejected(DeviceFailed)), Unsaid(t.e.stage),
             InHand(t.e.stage), multiset(t.succeeded), multiset(t.broken), multiset(t.e.touched))
  }

  /** The ways in which a command moves from one of these places to the next. */
  lemma BalanceMoves(applied: Commands, failed: Commands, unsaid: Commands, inHand: Commands,
      succeeded: Commands, broken: Commands, touched: Commands, c: Commands)
    requires Balanced(applied, failed, unsaid, inHand, succeeded, broken, touched)
    ensures inHand == multiset{} ==> Balanced(applied, failed, unsaid, c, succeeded, broken, touched + c)
    ensures inHand == c && unsaid == multiset{} ==>
      Balanced(applied, failed, c, multiset{}, succeeded + c, broken, touched)
      && Balanced(applied, failed + c, unsaid, multiset{}, succeeded, broken + c, touched)
    ensures unsaid == c ==> Balanced(applied + c, failed, multiset{}, inHand, succeeded, broken, touched)
  {
  }

  lemma MovesBalance(t: Trace, c: InputCommand)
    requires OutcomesTold(t)
    ensures var a, f := AnsweredAs(t.e.acks, Applied), AnsweredAs(t.e.acks, Rejected(DeviceFailed));
      var s, b, g := multiset(t.succeeded), multiset(t.broken), multiset(t.e.touched);
      var u, h, m := Unsaid(t.e.stage), InHand(t.e.stage), multiset{c};
      (h == multiset{} ==> Balanced(a, f, u, m, s, b, g + m))
      && (h == m && u == multiset{} ==>
            Balanced(a, f, m, multiset{}, s + m, b, g) && Balanced(a, f + m, u, multiset{}, s, b + m, g))
      && (u == m ==> Balanced(a + m, f, multiset{}, h, s, b, g))
  {
    hide AnsweredAs, Balanced;
    BalanceMoves(AnsweredAs(t.e.acks, Applied), AnsweredAs(t.e.acks, Rejected(DeviceFailed)), Unsaid(t.e.stage),
                 InHand(t.e.stage), multiset(t.succeeded), multiset(t.broken), multiset(t.e.touched), multiset{c});
  }

  lemma OutcomesStep(post: Post, t: Trace, m: Move)
    requires OutcomesTold(t) && Ready(t.e, m)
    ensures OutcomesTold(Step(post, t, m))
  {
    hide OutcomesTold, Step, Ready;
    match m
    case Act(ok) => ActOutcome(post, t, ok);
    case Save => SaveOutcome(post, t);
    case Decide(now) => DecideOutcome(post, t, now);
    case _ => NoOutcome(post, t, m);
  }

  lemma ActOutcome(post: Post, t: Trace, ok: bool)
    requires OutcomesTold(t) && Ready(t.e, Act(ok))
    ensures OutcomesTold(Step(post, t, Act(ok)))
  {
    hide AnsweredAs, Balanced;
    var cmd := t.e.stage.cmd;
    MovesBalance(t, cmd);
    if ok {
      Appended(t.succeeded, cmd);
    } else {
      Appended(t.broken, cmd);
      AnsweredAsMore(t.e.acks, Ack(cmd, Rejected(DeviceFailed)));
    }
  }

  lemma Appended(s: seq<InputCommand>, cmd: InputCommand)
    ensures multiset(s + [cmd]) == multiset(s) + multiset{cmd}
  {
  }

  lemma SaveOutcome(post: Post, t: Trace)
    requires OutcomesTold(t) && Ready(t.e, Save)
    ensures OutcomesTold(Step(post, t, Save))
  {
    hide AnsweredAs, Balanced;
    MovesBalance(t, t.e.stage.cmd);
    AnsweredAsMore(t.e.acks, Ack(t.e.stage.cmd, Applied));
  }

  lemma DecideOutcome(post: Post, t: Trace, now: int)
    requires OutcomesTold(t) && Ready(t.e, Decide(now))
    ensures OutcomesTold(Step(post, t, Decide(now)))
  {
    DecideDoes(post, t, now);
    hide AnsweredAs, Balanced, Step;
    var cmd := t.e.stage.cmd;
    if Step(post, t, Decide(now)).e.stage.Acting? {
      MovesBalance(t, cmd);
      Appended(t.e.touched, cmd);
    } else {
      AnsweredAsMore(t.e.acks, Ack(cmd, Rejected(NotOwner)));
    }
  }

  lemma DecideDoes(post: Post, t: Trace, now: int)
    requires Ready(t.e, Decide(now))
    ensures var t', cmd := Step(post, t, Decide(now)), t.e.stage.cmd;
      t'.succeeded == t.succeeded && t'.broken == t.broken
      && if t'.e.stage.Acting? then
           t'.e.stage.cmd == cmd && t'.e.acks == t.e.acks && t'.e.touched == t.e.touched + [cmd]
         else
           t'.e.stage.Resting? && t'.e.acks == t.e.acks + [Ack(cmd, Rejected(NotOwner))] && t'.e.touched == t.e.touched
  {
    hide Gate.Authorized;
  }

  /** No other move has to do with the adapter. */
  lemma NoOutcome(post: Post, t: Trace, m: Move)
    requires OutcomesTold(t) && Ready(t.e, m) && !m.Act? && !m.Save? && !m.Decide?
    ensures OutcomesTold(Step(post, t, m))
  {
    hide AnsweredAs, Balanced, Moved, QuietMove, Unsaid, InHand;
    QuietMoves(post, t.e, m);
    QuietCounts(t.e, Moved(post, t.e, m));
    var t' := Step(post, t, m);
    assert t'.e == Moved(post, t.e, m) && t'.succeeded == t.succeeded && t'.broken == t.broken;
  }

  lemma QuietMoves(post: Post, e: Exec, m: Move)
    requires Ready(e, m) && !m.Act? && !m.Save? && !m.Decide?
    ensures QuietMove(e, Moved(post, e, m))
  {
    hide QuietMove;
    match m
    case Submit(cmd) => QuietSubmit(post, e, cmd);
    case Begin => QuietBegin(post, e);
    case _ => QuietRest(post, e, m);
  }

  /** The adapter is not called, and what is answered, if anything, says nothing of it. */
  predicate QuietMove(e: Exec, e': Exec) {
    e'.touched == e.touched && Unsaid(e'.stage) == Unsaid(e.stage) && InHand(e'.stage) == InHand(e.stage)
    && (e'.acks == e.acks || QuietAnswer(e, e'))
  }

  predicate QuietAnswer(e: Exec, e': Exec) {
    |e'.acks| > 0
    && var a := e'.acks[|e'.acks| - 1];
       e'.acks == e.acks + [a] && a.status != Applied && a.status != Rejected(DeviceFailed)
  }

  lemma QuietCounts(e: Exec, e': Exec)
    requires QuietMove(e, e')
    ensures e'.touched == e.touched && Unsaid(e'.stage) == Unsaid(e.stage) && InHand(e'.stage) == InHand(e.stage)
    ensures AnsweredAs(e'.acks, Applied) == AnsweredAs(e.acks, Applied)
    ensures AnsweredAs(e'.acks, Rejected(DeviceFailed)) == AnsweredAs(e.acks, Rejected(DeviceFailed))
  {
    hide AnsweredAs;
    if e'.acks != e.acks { AnsweredAsMore(e.acks, e'.acks[|e'.acks| - 1]); }
  }

  lemma QuietSubmit(post: Post, e: Exec, cmd: InputCommand)
    ensures QuietMove(e, Moved(post, e, Submit(cmd)))
  {
    hide QuietMove;
    QuietAs(e, cmd, Rejected(NotActive));
    QuietAs(e, cmd, Rejected(StaleFence));
    QuietAs(e, cmd, Duplicate);
    QuietAs(e, cmd, Rejected(SequenceGap(e.lastEnqueued + 1)));
    QuietAs(e, cmd, Rejected(Overloaded));
    if Admits(post, e, cmd) { QuietAdmission(post, e, cmd); }
  }

  lemma QuietAs(e: Exec, cmd: InputCommand, status: Status)
    requires status != Applied && status != Rejected(DeviceFailed)
    ensures QuietMove(e, Answer(e, cmd, status))
  {
  }

  lemma QuietAdmission(post: Post, e: Exec, cmd: InputCommand)
    requires Admits(post, e, cmd)
    ensures QuietMove(e, Submitted(post, e, cmd))
  {
  }

  lemma QuietBegin(post: Post, e: Exec)
    requires Ready(e, Begin)
    ensures QuietMove(e, Moved(post, e, Begin))
  {
  }

  lemma QuietRest(post: Post, e: Exec, m: Move)
    requires Ready(e, m) && (m.Stop? || m.ReadSession? || m.ReadDevice? || m.FailCheck?)
    ensures QuietMove(e, Moved(post, e, m))
  {
  }

  lemma {:induction false} OutcomesRun(post: Post, a: Trace, moves: seq<Move>, b: Trace)
    requires OutcomesTold(a) && Runs(post, a, moves, b)
    ensures OutcomesTold(b)
    decreases |moves|
  {
    hide OutcomesTold, Ready, Step;
    if moves != [] {
      OutcomesStep(post, a, moves[0]);
      OutcomesRun(post, Step(post, a, moves[0]), moves[1..], b);
    }
  }

  /**
   * Over any run: once no call is unanswered, the commands answered as applied are exactly those whose call of
   * the adapter succeeded, those answered as failed on the device exactly those whose call failed, and
   * together they are the commands that the adapter was given.
   */
  lemma OutcomesAreTold(post: Post, initialSeq: nat, moves: seq<Move>, t: Trace)
    requires Runs(post, NewTrace(initialSeq), moves, t)
    ensures OutcomesTold(t)
    ensures t.e.stage.Resting? ==>
      AnsweredAs(t.e.acks, Applied) == multiset(t.succeeded)
      && AnsweredAs(t.e.acks, Rejected(DeviceFailed)) == multiset(t.broken)
      && multiset(t.e.touched) == multiset(t.succeeded) + multiset(t.broken)
  {
    OutcomesRun(post, NewTrace(initialSeq), moves, t);
  }

  // ---------------- the counter of applied commands ----------------

  /** The adapter has answered for the command, or its text was too long to be handed over. */
  predicate UsedUp(t: Trace, c: InputCommand) {
    c in t.succeeded || c in t.broken || Ack(c, Rejected(TextTooLong)) in t.e.acks
  }

  ghost predicate CounterTold(initialSeq: nat, t: Trace) {
    && initialSeq <= t.e.lastApplied
    && (forall c | UsedUp(t, c) :: c.seqNo <= t.e.lastApplied)
    && (t.e.lastApplied != initialSeq ==> exists c :: UsedUp(t, c) && c.seqNo == t.e.lastApplied)
  }

  /** A move uses up at most one more number, and the counter goes up to it. */
  predicate CounterMove(t: Trace, t': Trace, used: seq<InputCommand>) {
    |used| <= 1
    && t'.e.lastApplied == (if used == [] then t.e.lastApplied else Max(t.e.lastApplied, used[0].seqNo))
  }

  lemma CounterMoves(post: Post, t: Trace, m: Move) returns (used: seq<InputCommand>)
    requires Ready(t.e, m)
    ensures CounterMove(t, Step(post, t, m), used)
    ensures forall c :: UsedUp(Step(post, t, m), c) <==> UsedUp(t, c) || c in used
  {
    hide Gate.Authorized;
    used := if m.Act? then [t.e.stage.cmd]
      else if m.Begin? && !t.e.stopped && TooLong(post, t.e.chain[0]) then [t.e.chain[0]] else [];
  }

  lemma {:induction false} CounterRun(post: Post, initialSeq: nat, a: Trace, moves: seq<Move>, b: Trace)
    requires CounterTold(initialSeq, a) && Runs(post, a, moves, b)
    ensures CounterTold(initialSeq, b)
    decreases |moves|
  {
    hide Ready, Step, UsedUp;
    if moves != [] {
      var used := CounterMoves(post, a, moves[0]);
      var next := Step(post, a, moves[0]);
      if used != [] { assert UsedUp(next, used[0]); }
      CounterRun(post, initialSeq, next, moves[1..], b);
    }
  }

  /**
   * Over any run: the counter of applied commands is the largest number of a command that the adapter has answered
   * for, whether well or not, or whose text was too long.
   */
  lemma CounterIsTheLastUsed(post: Post, initialSeq: nat, moves: seq<Move>, t: Trace)
    requires Runs(post, NewTrace(initialSeq), moves, t)
    ensures CounterTold(initialSeq, t)
  {
    CounterRun(post, initialSeq, NewTrace(initialSeq), moves, t);
  }

  // ---------------- every answer and its cause ----------------

  /** The answer that a submission gets at once, by its cause; None if it is admitted. */
  function Verdict(post: Post, initialSeq: nat, t: Trace, stops: bool, cmd: InputCommand): Option<Status>
    requires |t.e.chain| <= |t.admitted|
  {
    var used := initialSeq + |t.admitted|;
    if stops then Some(Rejected(NotActive))
    else if cmd.fence != post.fence then Some(Rejected(StaleFence))
    else if cmd.seqNo <= used then Some(Duplicate)
    else if cmd.seqNo > used + 1 then Some(Rejected(SequenceGap(used + 1)))
    else if |t.admitted| - |Started(t)| >= post.maxPending then Some(Rejected(Overloaded))
    else None
  }

  /** What the next move answers, by what has gone before: a stop, the numbers admitted, the commands not started. */
  function NextAnswer(post: Post, initialSeq: nat, moves: seq<Move>, t: Trace, m: Move): Option<Status>
    requires Ready(t.e, m) && |t.e.chain| <= |t.admitted|
  {
    match m
    case Submit(cmd) => Verdict(post, initialSeq, t, Stop in moves, cmd)
    case Begin =>
      if Stop in moves then Some(Rejected(EndedBefore))
      else (match t.e.chain[0].payload
            case Text(length) => if length > post.maxTextLength then Some(Rejected(TextTooLong)) else None
            case Gesture(_) => None)
    case FailCheck => Some(Rejected(CheckUnavailable))
    case Decide(now) =>
      var c := t.e.stage;
      if Gate.Authorized(c.session.value, c.device.value, c.cmd.sessionId, c.cmd.fence, now) then None
      else Some(Rejected(NotOwner))
    case Act(ok) => if ok then None else Some(Rejected(DeviceFailed))
    case Save => Some(Applied)
    case _ => None
  }

  /** The command that a move is about, if any. */
  function Subject(t: Trace, m: Move): Option<InputCommand>
    requires Ready(t.e, m)
  {
    match m
    case Submit(cmd) => Some(cmd)
    case Stop => None
    case Begin => Some(t.e.chain[0])
    case _ => Some(t.e.stage.cmd)
  }

  /** After any run, each move answers the command it is about just by that cause, or not at all. */
  lemma AnswersHaveCauses(post: Post, initialSeq: nat, moves: seq<Move>, t: Trace, m: Move)
    requires Runs(post, NewTrace(initialSeq), moves, t) && Ready(t.e, m)
    ensures |t.e.chain| <= |t.admitted|
    ensures Moved(post, t.e, m).acks ==
      match NextAnswer(post, initialSeq, moves, t, m)
      case None => t.e.acks
      case Some(status) => t.e.acks + (if Subject(t, m).Some? then [Ack(Subject(t, m).value, status)] else [])
  {
    hide Gate.Authorized, Runs, IsSubsequence, Increasing;
    InputIsOrdered(post, initialSeq, moves, t);
    StoppedIfStopped(post, NewTrace(initialSeq), moves, t);
    match m
    case Submit(cmd) => SubmitAnswers(post, initialSeq, t, cmd);
    case _ =>
  }

  lemma SubmitAnswers(post: Post, initialSeq: nat, t: Trace, cmd: InputCommand)
    requires |t.e.chain| <= |t.admitted| && t.e.lastEnqueued == initialSeq + |t.admitted|
    requires t.e.pending == |t.admitted| - |Started(t)|
    ensures Submitted(post, t.e, cmd).acks ==
      match Verdict(post, initialSeq, t, t.e.stopped, cmd)
      case None => t.e.acks
      case Some(status) => t.e.acks + [Ack(cmd, status)]
  {
  }

  lemma {:induction false} StoppedIfStopped(post: Post, a: Trace, moves: seq<Move>, b: Trace)
    requires Runs(post, a, moves, b)
    ensures b.e.stopped <==> a.e.stopped || Stop in moves
    decreases |moves|
  {
    if moves != [] {
      OnlyStopStops(post, a.e, moves[0]);
      StoppedIfStopped(post, Step(post, a, moves[0]), moves[1..], b);
      hide Step;
      assert Stop in moves <==> moves[0] == Stop || Stop in moves[1..];
    }
  }

  lemma OnlyStopStops(post: Post, e: Exec, m: Move)
    requires Ready(e, m)
    ensures Moved(post, e, m).stopped <==> e.stopped || m == Stop
  {
    hide Gate.Authorized;
  }

  // ---------------- draining ----------------

  function Work(e: Exec): nat {
    6 * |e.chain| + match e.stage
                    case Resting => 0
                    case Checking(_, s, d) => 3 + (if s.None? then 1 else 0) + (if d.None? then 1 else 0)
                    case Acting(_) => 2
                    case Saving(_) => 1
  }

  predicate Executes(m: Move) {
    !m.Submit? && !m.Stop?
  }

  /** The chain drains: while work is left some step can be taken, and every step of execution leaves less of it. */
  lemma ChainDrains(post: Post, e: Exec)
    ensures forall m | Ready(e, m) && Executes(m) :: Work(Moved(post, e, m)) < Work(e)
    ensures Work(e) == 0 <==> e.chain == [] && e.stage.Resting?
    ensures Work(e) != 0 ==> exists m :: Executes(m) && Ready(e, m)
  {
    if Work(e) != 0 {
      var m := match e.stage
               case Resting => Begin
               case Checking(_, None, _) => ReadSession(None)
               case Checking(_, Some(_), None) => ReadDevice(None)
               case Checking(_, Some(_), Some(_)) => Decide(0)
               case Acting(_) => Act(true)
               case Saving(_) => Save;
      assert Executes(m) && Ready(e, m);
    }
  }

  // ---------------- after a stop ----------------

  /** A stopped executor admits nothing and begins nothing; one command already under check may still get through. */
  lemma {:induction false} StopHolds(post: Post, a: Trace, moves: seq<Move>, b: Trace)
    requires Runs(post, a, moves, b) && a.e.stopped
    ensures b.e.stopped && b.admitted == a.admitted
    ensures b.e.touched == a.e.touched || (a.e.stage.Checking? && b.e.touched == a.e.touched + [a.e.stage.cmd])
    ensures a.e.stage.Checking? && b.e.stage.Checking? ==> b.e.stage.cmd == a.e.stage.cmd && b.e.touched == a.e.touched
    ensures !a.e.stage.Checking? ==> !b.e.stage.Checking?
    decreases |moves|
  {
    if moves != [] {
      StopHolds(post, Step(post, a, moves[0]), moves[1..], b);
    }
  }
}
