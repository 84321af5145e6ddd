/** What a client loses when it goes on from the saved number. */
module Resume {
  import opened Domain
  import opened Lab
  import Ownership
  import Transitions
  import opened Executor
  import opened InputOrder
  import opened GuardedInput
  import opened ClientSequence

  // ---------------- the saved number ----------------

  /** The commands of a run whose number was saved: applied, and the save reached the store. */
  ghost function SavedIn(cfg: Config, post: Post, a: Joint, steps: seq<JointStep>): seq<InputCommand>
    decreases |steps|
  {
    if steps == [] || !CanStep(post, a, steps[0]) then []
    else
      (if steps[0] == SaveSeq(true) then [a.t.e.stage.cmd] else [])
      + SavedIn(cfg, post, Stepped(cfg, post, a, steps[0]), steps[1..])
  }

  predicate Counts(lab: Lab, sid: SessionId) {
    sid in lab.store.sessions && Nonterminal(lab.store.sessions[sid].state)
  }

  lemma CountedBefore(cfg: Config, lab: Lab, cmd: Cmd, sid: SessionId)
    requires Ownership.Sound(lab) && Allowed(lab, cmd) && sid in lab.sids && Counts(Do(cfg, lab, cmd), sid)
    ensures Counts(lab, sid)
  {
    hide Effect, Ownership.Sound;
    Transitions.SessionMoves(cfg, lab, cmd, sid);
    Transitions.EventKinds(cfg, lab, cmd);
  }

  /** One step: what it saves, if anything, is the newest number, and nothing else moves the saved one. */
  lemma SaveMoves(cfg: Config, post: Post, initialSeq: nat, j: Joint, a: JointStep)
    requires JointOk(post, initialSeq, j) && CanStep(post, j, a) && Counts(Stepped(cfg, post, j, a).lab, post.id)
    ensures Counts(j.lab, post.id)
    ensures var j' := Stepped(cfg, post, j, a);
      j.t.admitted <= j'.t.admitted && SavedSeq(j.lab, post.id) <= SavedSeq(j'.lab, post.id)
      && if a == SaveSeq(true)
         then SavedSeq(j'.lab, post.id) == j.t.e.stage.cmd.seqNo && j.t.e.stage.cmd in j.t.admitted
         else SavedSeq(j'.lab, post.id) == SavedSeq(j.lab, post.id)
  {
    hide Effect, Ownership.Sound, TraceOk, ForSession, SavedSeq, Counts, Moved, Admits, Ready;
    match a
    case Input(_) =>
    case SaveSeq(reached) =>
      SavingIsApplied(post, initialSeq, j.t);
      SavingIsAdmitted(post, initialSeq, j.t);
      var n := j.t.e.stage.cmd.seqNo;
      UpdateSeq(cfg, j.lab, post.id, n, post.id);
      if reached { CountedBefore(cfg, j.lab, UpdateInputSeq(post.id, n), post.id); }
      CountsIs(j.lab, post.id);
    case Other(cmd) =>
      CountedBefore(cfg, j.lab, cmd, post.id);
      CountsIs(Do(cfg, j.lab, cmd), post.id);
      OthersLeaveSeq(cfg, j.lab, cmd, post.id);
  }

  lemma CountsIs(lab: Lab, sid: SessionId)
    ensures Counts(lab, sid) <==> sid in lab.store.sessions && Nonterminal(lab.store.sessions[sid].state)
  {
  }

  lemma SavingIsAdmitted(post: Post, initialSeq: nat, t: Trace)
    requires TraceOk(post, initialSeq, t) && t.e.stage.Saving?
    ensures t.e.stage.cmd in t.admitted
  {
    assert t.admitted[|Started(t)| - 1] == t.e.stage.cmd;
  }

  lemma {:induction false} SavesRun(cfg: Config, post: Post, initialSeq: nat, a: Joint, steps: seq<JointStep>, b: Joint)
    requires JointOk(post, initialSeq, a) && JointRuns(cfg, post, a, steps, b) && Counts(b.lab, post.id)
    ensures Counts(a.lab, post.id)
    ensures a.t.admitted <= b.t.admitted && SavedSeq(a.lab, post.id) <= SavedSeq(b.lab, post.id)
    ensures var saved := SavedIn(cfg, post, a, steps);
      SavedSeq(b.lab, post.id) == (if saved == [] then SavedSeq(a.lab, post.id) else saved[|saved| - 1].seqNo)
      && forall c | c in saved :: c in b.t.admitted && c.seqNo <= SavedSeq(b.lab, post.id)
    decreases |steps|
  {
    hide JointOk, CanStep, Stepped, Counts, SavedSeq;
    if steps != [] {
      var mid := Stepped(cfg, post, a, steps[0]);
      JointOkStep(cfg, post, initialSeq, a, steps[0]);
      SavesRun(cfg, post, initialSeq, mid, steps[1..], b);
      SaveMoves(cfg, post, initialSeq, a, steps[0]);
    }
  }

  /**
   * While a session counts, its saved number is the last number admitted if and only if nothing was admitted, or
   * the command last admitted was applied and its save reached the store. Just then a client that resumes
   * loses nothing; otherwise it loses exactly the commands admitted after the one last saved.
   */
  lemma ResumesInStep(cfg: Config, post: Post, initialSeq: nat, a: Joint, steps: seq<JointStep>, b: Joint, c: Client)
    requires FreshExecutor(post, initialSeq, a) && JointRuns(cfg, post, a, steps, b) && Counts(b.lab, post.id)
    ensures var saved, admitted := SavedIn(cfg, post, a, steps), b.t.admitted;
      var resumed := Pair(Received(c, Hello(InSession(post.id, post.fence, SavedSeq(b.lab, post.id))), 0), b.t.e);
      Lost(resumed) == b.t.e.lastEnqueued - SavedSeq(b.lab, post.id)
      && (Lost(resumed) == 0 <==> admitted == [] || admitted[|admitted| - 1] in saved)
  {
    hide JointOk, FreshExecutor, JointRuns, Counts, SavedSeq;
    FreshIsOk(post, initialSeq, a);
    FreshSaved(post, initialSeq, a);
    SavesRun(cfg, post, initialSeq, a, steps, b);
    JointRunOk(cfg, post, initialSeq, a, steps, b);
    ChainHolds(post, initialSeq, b);
    Numbered(post, initialSeq, b);
    ResumedLoses(c, b.t.e, post.id, post.fence, SavedSeq(b.lab, post.id));
  }

  /**
   * And the first command that a resumed client sends is admitted, by an executor that runs and has room, if and
   * only if nothing is lost.
   */
  lemma FirstIsAdmitted(cfg: Config, post: Post, initialSeq: nat, a: Joint, steps: seq<JointStep>, b: Joint, c: Client,
      payload: Payload, now: int)
    requires FreshExecutor(post, initialSeq, a) && JointRuns(cfg, post, a, steps, b) && Counts(b.lab, post.id)
    requires !b.t.e.stopped && b.t.e.pending < post.maxPending
    ensures var resumed := Received(c, Hello(InSession(post.id, post.fence, SavedSeq(b.lab, post.id))), now);
      var sent := Sent(resumed, payload, now).1;
      sent == Some(InputCommand(post.id, post.fence, SavedSeq(b.lab, post.id) + 1, payload))
      && (Admits(post, b.t.e, sent.value) <==> Lost(Pair(resumed, b.t.e)) == 0)
  {
    hide JointOk, FreshExecutor, JointRuns, Counts, SavedSeq;
    FreshIsOk(post, initialSeq, a);
    JointRunOk(cfg, post, initialSeq, a, steps, b);
    ChainHolds(post, initialSeq, b);
    SendsAsTold(c, Hello(InSession(post.id, post.fence, SavedSeq(b.lab, post.id))), payload, now, now);
  }

  lemma FreshSaved(post: Post, initialSeq: nat, j: Joint)
    requires FreshExecutor(post, initialSeq, j)
    ensures SavedSeq(j.lab, post.id) == initialSeq
  {
  }

  /** Admitted commands are told apart by their numbers. */
  lemma Numbered(post: Post, initialSeq: nat, j: Joint)
    requires JointOk(post, initialSeq, j)
    ensures j.t.e.lastEnqueued == initialSeq + |j.t.admitted|
    ensures forall c | c in j.t.admitted ::
      initialSeq < c.seqNo <= j.t.e.lastEnqueued && c.fence == post.fence
      && (c.seqNo == j.t.e.lastEnqueued <==> c == j.t.admitted[|j.t.admitted| - 1])
  {
    hide Ownership.Sound, ForSession, SavedSeq;
    forall c | c in j.t.admitted
      ensures initialSeq < c.seqNo <= j.t.e.lastEnqueued && c.fence == post.fence
      ensures c.seqNo == j.t.e.lastEnqueued <==> c == j.t.admitted[|j.t.admitted| - 1]
    {
      var i :| 0 <= i < |j.t.admitted| && j.t.admitted[i] == c;
    }
  }

  /** And it does happen: an overlong text uses up its number without any save, and the next command sent is lost. */
  lemma LagHappens(cfg: Config, post: Post, initialSeq: nat, a: Joint, c: Client)
      returns (steps: seq<JointStep>, b: Joint)
    requires FreshExecutor(post, initialSeq, a) && 1 <= post.maxPending
    ensures JointRuns(cfg, post, a, steps, b) && b.t.e.chain == [] && b.t.e.stage.Resting? && b.lab == a.lab
    ensures Lost(Pair(Received(c, Hello(InSession(post.id, post.fence, SavedSeq(b.lab, post.id))), 0), b.t.e)) == 1
  {
    hide Ownership.Sound, Effect;
    var length: nat := if post.maxTextLength < 0 then 0 else post.maxTextLength + 1;
    var cmd := InputCommand(post.id, post.fence, initialSeq + 1, Text(length));
    var mid := Stepped(cfg, post, a, Input(Submit(cmd)));
    assert mid.t.e.chain == [cmd];
    b := Stepped(cfg, post, mid, Input(Begin));
    steps := [Input(Submit(cmd)), Input(Begin)];
    assert steps[1..] == [Input(Begin)] && steps[1..][1..] == [];
    assert JointRuns(cfg, post, mid, steps[1..], b);
    ResumedLoses(c, b.t.e, post.id, post.fence, initialSeq);
  }
}
