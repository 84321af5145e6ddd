/** What a burst of commands, sent before any of them is answered, does to the two sequence counters. */
module Bursts {
  import opened Domain
  import opened Executor
  import opened ClientSequence

  /** The client sends one command after another. */
  function SentAll(c: Client, payloads: seq<Payload>, now: int): (Client, seq<InputCommand>)
    requires c.phase == Phase.Active && c.session.Some?
    decreases |payloads|
  {
    if payloads == [] then (c, [])
    else
      var (c1, cmd) := Sent(c, payloads[0], now);
      var (c2, more) := SentAll(c1, payloads[1..], now);
      (c2, [cmd.value] + more)
  }

  /** The executor takes them one after another, and begins none of them meanwhile. */
  function Arrived(post: Post, e: Exec, cmds: seq<InputCommand>): Exec
    decreases |cmds|
  {
    if cmds == [] then e else Arrived(post, Submitted(post, e, cmds[0]), cmds[1..])
  }

  /** The answers reach the client. */
  function Answered(c: Client, acks: seq<Ack>, now: int): Client
    decreases |acks|
  {
    if acks == [] then c
    else Answered(Received(c, InputAck(acks[0].cmd.seqNo, acks[0].status), now), acks[1..], now)
  }

  lemma {:induction false} SentNumbers(c: Client, payloads: seq<Payload>, now: int)
    requires c.phase == Phase.Active && c.session.Some?
    ensures var (c', cmds) := SentAll(c, payloads, now);
      |cmds| == |payloads| && c'.nextSeq == c.nextSeq + |payloads|
      && forall i | 0 <= i < |cmds| :: cmds[i].seqNo == c.nextSeq + i && cmds[i].fence == c.session.value.fence
    decreases |payloads|
  {
    if payloads != [] {
      var (c1, cmd) := Sent(c, payloads[0], now);
      SentNumbers(c1, payloads[1..], now);
    }
  }

  // ---------------- the executor's counter ----------------

  function Least(a: nat, b: nat): nat {
    if a < b then a else b
  }

  /** How many more commands the executor would queue. */
  function Room(post: Post, e: Exec): nat {
    if post.maxPending <= e.pending then 0 else post.maxPending - e.pending
  }

  /** How many of `m` commands numbered from `n` on are admitted: those in line, as far as there is room. */
  function Taken(post: Post, e: Exec, n: nat, m: nat): nat {
    if n > e.lastEnqueued + 1 || n + m <= e.lastEnqueued + 1 then 0
    else Least(Room(post, e), n + m - 1 - e.lastEnqueued)
  }

  /** The last number that an answer tells the client to go on from, if any does. */
  function LastReset(acks: seq<Ack>): Option<nat> {
    if acks == [] then None
    else
      var rest := LastReset(acks[1..]);
      var s := acks[0].status;
      if rest.Some? then rest
      else if s.Rejected? && s.reason.SequenceGap? then Some(s.reason.expected)
      else None
  }

  predicate InLine(post: Post, cmds: seq<InputCommand>, n: nat) {
    forall i | 0 <= i < |cmds| :: cmds[i].seqNo == n + i && cmds[i].fence == post.fence
  }

  lemma OneArrives(post: Post, e: Exec, cmd: InputCommand)
    requires !e.stopped && cmd.fence == post.fence
    ensures var e' := Submitted(post, e, cmd);
      var n, last := cmd.seqNo, e.lastEnqueued;
      !e'.stopped
      && if n == last + 1 && Room(post, e) > 0
         then e'.lastEnqueued == n && e'.pending == e.pending + 1 && e'.acks == e.acks
         else e'.lastEnqueued == last && e'.pending == e.pending
              && e'.acks == e.acks + [Ack(cmd, if n <= last then Duplicate
                                               else if n == last + 1 then Rejected(Overloaded)
                                               else Rejected(SequenceGap(last + 1)))]
  {
  }

  lemma {:induction false} BurstArrives(post: Post, e: Exec, cmds: seq<InputCommand>, n: nat)
    requires !e.stopped && InLine(post, cmds, n)
    ensures var e' := Arrived(post, e, cmds);
      var last := e.lastEnqueued + Taken(post, e, n, |cmds|);
      e.acks <= e'.acks && !e'.stopped
      && e'.lastEnqueued == last && e'.pending == e.pending + Taken(post, e, n, |cmds|)
      && LastReset(e'.acks[|e.acks|..]) ==
           if cmds != [] && (n > e.lastEnqueued + 1 || n + |cmds| > last + 2) then Some(last + 1) else None
    decreases |cmds|
  {
    hide Submitted;
    var e' := Arrived(post, e, cmds);
    if cmds != [] {
      var e1 := Submitted(post, e, cmds[0]);
      OneArrives(post, e, cmds[0]);
      var rest := cmds[1..];
      assert InLine(post, rest, n + 1) by { forall i | 0 <= i < |rest| ensures rest[i] == cmds[i + 1] {} }
      BurstArrives(post, e1, rest, n + 1);
      if e1.acks == e.acks {
        assert e'.acks[|e.acks|..] == e'.acks[|e1.acks|..];
      } else {
        var answers := e'.acks[|e.acks|..];
        assert answers[0] == e1.acks[|e.acks|] && answers[1..] == e'.acks[|e1.acks|..];
      }
    } else {
      assert e'.acks[|e.acks|..] == [];
    }
  }

  // ---------------- both counters ----------------

  lemma {:induction false} AnswersReset(c: Client, acks: seq<Ack>, now: int)
    ensures Answered(c, acks, now).nextSeq == (if LastReset(acks).Some? then LastReset(acks).value else c.nextSeq)
    decreases |acks|
  {
    if acks != [] {
      AnswersReset(Received(c, InputAck(acks[0].cmd.seqNo, acks[0].status), now), acks[1..], now);
    }
  }

  /** A burst, and then all its answers. */
  function Burst(post: Post, p: Pair, payloads: seq<Payload>, now: int): Pair
    requires Playable(post, p)
  {
    var (c, cmds) := SentAll(p.c, payloads, now);
    var e := Arrived(post, p.e, cmds);
    Pair(Answered(c, if p.e.acks <= e.acks then e.acks[|p.e.acks|..] else [], now), e)
  }

  /**
   * After a burst the executor has admitted the commands that were in line, as far as there was room, and the
   * counters agree, with two exceptions: a burst that ends before it has caught up with the executor has
   * moved the client on by its length; and one of which just the last command met a full queue has left the
   * client one ahead.
   */
  lemma BurstOutcome(post: Post, p: Pair, payloads: seq<Payload>, now: int)
    requires Playable(post, p) && payloads != []
    ensures var q, n, m := Burst(post, p, payloads, now), p.c.nextSeq, |payloads|;
      var last := p.e.lastEnqueued + Taken(post, p.e, n, m);
      q.e.lastEnqueued == last
      && (q.c.nextSeq == last + 1 <==>
            !(n + m <= p.e.lastEnqueued) && !(n <= p.e.lastEnqueued + 1 && n + m == last + 2))
      && (n + m <= p.e.lastEnqueued ==> q.c.nextSeq == n + m)
      && (n <= p.e.lastEnqueued + 1 && n + m == last + 2 ==> q.c.nextSeq == last + 2)
  {
    SentNumbers(p.c, payloads, now);
    var (c, cmds) := SentAll(p.c, payloads, now);
    BurstArrives(post, p.e, cmds, p.c.nextSeq);
    AnswersReset(c, Arrived(post, p.e, cmds).acks[|p.e.acks|..], now);
  }
}
