/** The viewer's side of the input protocol: its sequence counter, and how it comes to agree with the executor's. */
module ClientSequence {
  import opened Domain
  import opened Executor
  import InputOrder

  datatype Phase = Idle | Waiting | Reserved | Active | Ended

  datatype ActiveSession = ActiveSession(sessionId: SessionId, fence: nat)

  datatype Snapshot = NoSession | InQueue | Assigned | InSession(sessionId: SessionId, fence: nat,
    lastAcceptedInputSeq: nat)

  datatype Message =
    | Hello(snapshot: Snapshot)
    | SessionActive(sessionId: SessionId, fence: nat, lastAcceptedInputSeq: nat)
    | SessionEnded
    | InputAck(seqNo: nat, status: Status)

  datatype Client = Client(
    phase: Phase,
    session: Option<ActiveSession>,
    nextSeq: nat,
    sentAtBySeq: map<nat, int>,
    inputRttMs: Option<int>)

  const NEW_CLIENT := Client(Idle, None, 1, map[], None)

  function Snapped(c: Client, s: Snapshot): Client {
    match s
    case NoSession => if c.phase == Phase.Ended then c else c.(phase := Idle, session := None)
    case InQueue => c.(phase := Phase.Waiting)
    case Assigned => c.(phase := Phase.Reserved)
    case InSession(sid, fence, last) => c.(nextSeq := last + 1, phase := Phase.Active,
      session := Some(ActiveSession(sid, fence)))
  }

  function Received(c: Client, m: Message, now: int): Client {
    match m
    case Hello(s) => Snapped(c, s)
    case SessionActive(sid, fence, last) =>
      c.(nextSeq := last + 1, sentAtBySeq := map[], phase := Phase.Active, session := Some(ActiveSession(sid, fence)))
    case SessionEnded => c.(phase := Phase.Ended, session := None)
    case InputAck(n, status) =>
      c.(sentAtBySeq := c.sentAtBySeq - {n},
         inputRttMs := if n in c.sentAtBySeq && status.Applied? then Some(now - c.sentAtBySeq[n]) else c.inputRttMs,
         nextSeq := if status.Rejected? && status.reason.SequenceGap? then status.reason.expected else c.nextSeq)
  }

  /** A client in a session sends its next number and moves on at once; otherwise it sends nothing. */
  function Sent(c: Client, payload: Payload, now: int): (Client, Option<InputCommand>) {
    if c.session.None? || c.phase != Phase.Active then (c, None)
    else
      (c.(nextSeq := c.nextSeq + 1, sentAtBySeq := c.sentAtBySeq[c.nextSeq := now]),
       Some(InputCommand(c.session.value.sessionId, c.session.value.fence, c.nextSeq, payload)))
  }

  class LabConnection {
    var phase: Phase
    var session: Option<ActiveSession>
    var nextSeq: nat
    var sentAtBySeq: map<nat, int>
    var inputRttMs: Option<int>

    function State(): Client
      reads this
    {
      Client(phase, session, nextSeq, sentAtBySeq, inputRttMs)
    }

    constructor ()
      ensures State() == NEW_CLIENT
    {
      phase, session, nextSeq, sentAtBySeq, inputRttMs := Idle, None, 1, map[], None;
    }

    method HandleMessage(msg: Message, now: int)
      modifies this
      ensures State() == Received(old(State()), msg, now)
    {
      match msg {
        case Hello(snapshot) =>
          ApplySnapshot(snapshot);
        case SessionActive(sid, fence, last) =>
          nextSeq := last + 1;
          sentAtBySeq := map[];
          phase, session := Phase.Active, Some(ActiveSession(sid, fence));
        case SessionEnded =>
          phase, session := Phase.Ended, None;
        case InputAck(n, status) =>
          if n in sentAtBySeq {
            if status.Applied? { inputRttMs := Some(now - sentAtBySeq[n]); }
            sentAtBySeq := sentAtBySeq - {n};
          }
          assert sentAtBySeq == old(sentAtBySeq) - {n};
          if status.Rejected? && status.reason.SequenceGap? { nextSeq := status.reason.expected; }
      }
    }

    method ApplySnapshot(snapshot: Snapshot)
      modifies this
      ensures State() == Snapped(old(State()), snapshot)
    {
      match snapshot {
        case NoSession => if phase != Phase.Ended { phase, session := Idle, None; }
        case InQueue => phase := Phase.Waiting;
        case Assigned => phase := Phase.Reserved;
        case InSession(sid, fence, last) =>
          nextSeq := last + 1;
          phase, session := Phase.Active, Some(ActiveSession(sid, fence));
      }
    }

    method SendInput(payload: Payload, now: int) returns (cmd: Option<InputCommand>)
      modifies this
      ensures (State(), cmd) == Sent(old(State()), payload, now)
    {
      if session.None? || phase != Phase.Active { return None; }
      var n := nextSeq;
      nextSeq := nextSeq + 1;
      sentAtBySeq := sentAtBySeq[n := now];
      cmd := Some(InputCommand(session.value.sessionId, session.value.fence, n, payload));
    }
  }

  // ---------------- what a client sends after a message ----------------

  /** The message puts the client into a session from a number on. */
  predicate Enters(m: Message, sid: SessionId, fence: nat, last: nat) {
    m == Hello(InSession(sid, fence, last)) || m == SessionActive(sid, fence, last)
  }

  /** The message tells the client that it is in no session it could command. */
  predicate Leaves(m: Message) {
    m == SessionEnded || m == Hello(NoSession) || m == Hello(InQueue) || m == Hello(Assigned)
  }

  /**
   * Whatever it did before, a client that has been told of its session sends its next command to that session,
   * under that fence and with the number after the one it was told; one that has been told otherwise sends
   * nothing; and an answer changes the number of the next command exactly if it tells of a gap.
   */
  lemma SendsAsTold(c: Client, m: Message, payload: Payload, at: int, now: int)
    ensures forall sid, fence: nat, last: nat | Enters(m, sid, fence, last) ::
      Sent(Received(c, m, at), payload, now).1 == Some(InputCommand(sid, fence, last + 1, payload))
    ensures Leaves(m) ==> Sent(Received(c, m, at), payload, now).1.None?
    ensures m.InputAck? && Sent(c, payload, now).1.Some? ==>
      Sent(Received(c, m, at), payload, now).1 ==
        match m.status
        case Rejected(SequenceGap(expected)) => Some(Sent(c, payload, now).1.value.(seqNo := expected))
        case _ => Sent(c, payload, now).1
  {
  }

  /** A command's round trip is measured from when it was sent to when it is reported as applied, and only then. */
  lemma RoundTripMeasured(c: Client, payload: Payload, at: int, status: Status, now: int)
    requires Sent(c, payload, at).1.Some?
    ensures var (c1, cmd) := Sent(c, payload, at);
      var n := cmd.value.seqNo;
      var c2 := Received(c1, InputAck(n, status), now);
      c1.nextSeq == n + 1 && n in c1.sentAtBySeq && n !in c2.sentAtBySeq
      && c2.inputRttMs == (if status.Applied? then Some(now - at) else c.inputRttMs)
      && forall other | other != n :: other in c2.sentAtBySeq <==> other in c.sentAtBySeq
  {
  }

  /** A session that becomes active forgets what was sent before: the answers to that no longer count as round trips. */
  lemma ActivationForgets(c: Client, sid: SessionId, fence: nat, last: nat, n: nat, status: Status, at: int, now: int)
    ensures var active := Received(c, SessionActive(sid, fence, last), at);
      Received(active, InputAck(n, status), now).inputRttMs == c.inputRttMs
  {
  }

  /** The client after these messages, all at the same time. */
  function AllReceived(c: Client, messages: seq<Message>, now: int): Client
    decreases |messages|
  {
    if messages == [] then c else AllReceived(Received(c, messages[0], now), messages[1..], now)
  }

  /**
   * What the viewer shows: the phase follows the messages, but the end of a session is shown until the client is
   * told that it waits or has a session again.
   */
  lemma {:induction false} EndIsShown(c: Client, messages: seq<Message>, now: int)
    requires c.phase == Phase.Ended && c.session.None?
    requires forall m | m in messages :: m == Hello(NoSession) || m == SessionEnded || m.InputAck?
    ensures AllReceived(c, messages, now).phase == Phase.Ended && AllReceived(c, messages, now).session.None?
    decreases |messages|
  {
    if messages != [] {
      assert messages[0] in messages;
      EndIsShown(Received(c, messages[0], now), messages[1..], now);
    }
  }

  // ---------------- one command at a time ----------------

  datatype Pair = Pair(c: Client, e: Exec)

  /** The client plays the executor's session under its fence, and the executor can take a command. */
  predicate Playable(post: Post, p: Pair) {
    p.c.phase == Phase.Active && p.c.session.Some? && p.c.session.value.fence == post.fence
    && !p.e.stopped && p.e.pending < post.maxPending
  }

  /** One command is sent and, unless it is admitted, its refusal comes back before the next. */
  function Round(post: Post, p: Pair, payload: Payload, now: int): (Pair, bool)
    requires Playable(post, p)
  {
    var (c, cmd) := Sent(p.c, payload, now);
    var e := Submitted(post, p.e, cmd.value);
    if InputOrder.Admits(post, p.e, cmd.value) then (Pair(c, e), true)
    else (Pair(Received(c, InputAck(cmd.value.seqNo, e.acks[|e.acks| - 1].status), now), e), false)
  }

  /** How far apart the two counters are. */
  function Gap(p: Pair): nat {
    var expected := p.e.lastEnqueued + 1;
    if p.c.nextSeq <= expected then expected - p.c.nextSeq else p.c.nextSeq - expected
  }

  /** How many commands are lost before one is admitted: all that are behind, or one that is ahead. */
  function Lost(p: Pair): nat {
    if p.c.nextSeq <= p.e.lastEnqueued then Gap(p) else if p.c.nextSeq == p.e.lastEnqueued + 1 then 0 else 1
  }

  /** A round admits its command exactly when the counters agree, after which they do; else it brings them closer. */
  lemma RoundConverges(post: Post, p: Pair, payload: Payload, now: int)
    requires Playable(post, p)
    ensures var (q, admitted) := Round(post, p, payload, now);
      (admitted <==> Gap(p) == 0)
      && (admitted ==>
            Gap(q) == 0
            && q.e.chain == p.e.chain + [InputCommand(p.c.session.value.sessionId, post.fence, p.c.nextSeq, payload)])
      && (!admitted ==> Gap(q) < Gap(p) && Lost(q) == Lost(p) - 1 && Playable(post, q) && q.e.chain == p.e.chain)
  {
  }

  /** The outcome of one command after another until one is admitted. */
  function Rounds(post: Post, p: Pair, payloads: seq<Payload>, now: int): (Pair, seq<bool>)
    requires Playable(post, p)
    decreases |payloads|
  {
    if payloads == [] then (p, [])
    else
      var (q, admitted) := Round(post, p, payloads[0], now);
      RoundConverges(post, p, payloads[0], now);
      if admitted then (q, [true])
      else
        var (r, more) := Rounds(post, q, payloads[1..], now);
        (r, [false] + more)
  }

  /**
   * From any pair of counters, a client that sends one command at a time gets one admitted: exactly the
   * first `Lost` commands are refused, and the next is queued. The counters agree from then on.
   */
  lemma {:induction false} AgreementIsReached(post: Post, p: Pair, payloads: seq<Payload>, now: int)
    requires Playable(post, p) && Lost(p) < |payloads|
    ensures var (q, admitted) := Rounds(post, p, payloads, now);
      |admitted| == Lost(p) + 1 && (forall i | 0 <= i < |admitted| :: admitted[i] <==> i == Lost(p))
      && Gap(q) == 0 && |q.e.chain| == |p.e.chain| + 1
      && q.e.chain[|p.e.chain|].payload == payloads[Lost(p)]
    decreases |payloads|
  {
    RoundConverges(post, p, payloads[0], now);
    var (q, admitted) := Round(post, p, payloads[0], now);
    if !admitted {
      AgreementIsReached(post, q, payloads[1..], now);
    }
  }

  /** A client that resumes from a saved number loses what was admitted after it. */
  lemma ResumedLoses(c: Client, e: Exec, sid: SessionId, fence: nat, saved: nat)
    requires saved <= e.lastEnqueued
    ensures Lost(Pair(Received(c, Hello(InSession(sid, fence, saved)), 0), e)) == e.lastEnqueued - saved
    ensures Lost(Pair(Received(c, SessionActive(sid, fence, saved), 0), e)) == e.lastEnqueued - saved
  {
  }
}
