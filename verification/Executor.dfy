/**
 * A session's input queue: commands are admitted in strict sequence and executed one at a time.
 *
 * The asynchronous execution of a command is cut at its `await`s: begin, two reads of the store, the
 * decision with the call of the adapter, the adapter's answer, and the saved sequence number.
 */
module Executor {
  import opened Domain
  import Gate

  // What a gesture asks of the device does not matter to the queue; the length of a text does.
  datatype Payload = Gesture(what: int) | Text(length: nat)
  datatype InputCommand = InputCommand(sessionId: SessionId, fence: nat, seqNo: nat, payload: Payload)

  datatype Reason = NotActive | StaleFence | SequenceGap(expected: nat) | Overloaded | EndedBefore
                  | TextTooLong | NotOwner | CheckUnavailable | DeviceFailed
  datatype Status = Applied | Duplicate | Rejected(reason: Reason)
  datatype Ack = Ack(cmd: InputCommand, status: Status)

  /** The session an executor serves, and its limits. */
  datatype Post = Post(id: SessionId, deviceId: DeviceId, fence: nat, maxPending: int, maxTextLength: int)

  /** Where the running command is. A read is None until it has returned. */
  datatype Stage =
    | Resting
    | Checking(cmd: InputCommand, session: Option<Option<Session>>, device: Option<Option<Device>>)
    | Acting(cmd: InputCommand)
    | Saving(cmd: InputCommand)

  datatype Exec = Exec(
    lastEnqueued: nat,
    lastApplied: nat,
    pending: int,
    chain: seq<InputCommand>,     // commands appended to the promise chain and not begun
    stage: Stage,
    stopped: bool,
    acks: seq<Ack>,               // what was handed to `onAck`
    touched: seq<InputCommand>)   // what was handed to the adapter

  function NewExec(initialSeq: nat): Exec {
    Exec(initialSeq, initialSeq, 0, [], Resting, false, [], [])
  }

  function Max(a: nat, b: nat): nat {
    if a < b then b else a
  }

  function Answer(e: Exec, cmd: InputCommand, status: Status): Exec {
    e.(acks := e.acks + [Ack(cmd, status)])
  }

  /** The running command is over. */
  function Finish(e: Exec, cmd: InputCommand, status: Status): Exec {
    Answer(e, cmd, status).(stage := Resting)
  }

  function Submitted(post: Post, e: Exec, cmd: InputCommand): Exec {
    if e.stopped then Answer(e, cmd, Rejected(NotActive))
    else if cmd.fence != post.fence then Answer(e, cmd, Rejected(StaleFence))
    else if cmd.seqNo <= e.lastEnqueued then Answer(e, cmd, Duplicate)
    else if cmd.seqNo != e.lastEnqueued + 1 then Answer(e, cmd, Rejected(SequenceGap(e.lastEnqueued + 1)))
    else if e.pending >= post.maxPending then Answer(e, cmd, Rejected(Overloaded))
    else e.(lastEnqueued := cmd.seqNo, pending := e.pending + 1, chain := e.chain + [cmd])
  }

  function Stopped(e: Exec): Exec {
    e.(stopped := true)
  }

  predicate TooLong(post: Post, cmd: InputCommand) {
    cmd.payload.Text? && cmd.payload.length > post.maxTextLength
  }

  function Begun(post: Post, e: Exec): Exec
    requires e.stage.Resting? && e.chain != []
  {
    var cmd := e.chain[0];
    var e1 := e.(pending := e.pending - 1, chain := e.chain[1..]);
    if e.stopped then Finish(e1, cmd, Rejected(EndedBefore))
    else if TooLong(post, cmd) then
      Finish(e1.(lastApplied := Max(e.lastApplied, cmd.seqNo)), cmd, Rejected(TextTooLong))
    else e1.(stage := Checking(cmd, None, None))
  }

  function GotSession(e: Exec, s: Option<Session>): Exec
    requires e.stage.Checking?
  {
    e.(stage := e.stage.(session := Some(s)))
  }

  function GotDevice(e: Exec, d: Option<Device>): Exec
    requires e.stage.Checking?
  {
    e.(stage := e.stage.(device := Some(d)))
  }

  function CheckFailed(e: Exec): Exec
    requires e.stage.Checking?
  {
    Finish(e, e.stage.cmd, Rejected(CheckUnavailable))
  }

  function Decided(e: Exec, now: int): Exec
    requires e.stage.Checking? && e.stage.session.Some? && e.stage.device.Some?
  {
    var cmd := e.stage.cmd;
    if Gate.Authorized(e.stage.session.value, e.stage.device.value, cmd.sessionId, cmd.fence, now)
    then e.(stage := Acting(cmd), touched := e.touched + [cmd])
    else Finish(e, cmd, Rejected(NotOwner))
  }

  function Acted(e: Exec, ok: bool): Exec
    requires e.stage.Acting?
  {
    var cmd := e.stage.cmd;
    var e1 := e.(lastApplied := Max(e.lastApplied, cmd.seqNo));
    if ok then e1.(stage := Saving(cmd)) else Finish(e1, cmd, Rejected(DeviceFailed))
  }

  function Saved(e: Exec): Exec
    requires e.stage.Saving?
  {
    Finish(e, e.stage.cmd, Applied)
  }

  // ---------------- the executor itself ----------------

  class InputExecutor {
    const post: Post
    var lastEnqueued: nat
    var lastApplied: nat
    var pending: int
    var chain: seq<InputCommand>
    var stage: Stage
    var stopped: bool
    var acks: seq<Ack>
    var touched: seq<InputCommand>

    function State(): Exec
      reads this
    {
      Exec(lastEnqueued, lastApplied, pending, chain, stage, stopped, acks, touched)
    }

    constructor (post: Post, initialSeq: nat)
      ensures this.post == post && State() == NewExec(initialSeq)
    {
      this.post := post;
      lastEnqueued, lastApplied, pending, chain := initialSeq, initialSeq, 0, [];
      stage, stopped, acks, touched := Resting, false, [], [];
    }

    method OnAck(cmd: InputCommand, status: Status)
      modifies this`acks
      ensures acks == old(acks) + [Ack(cmd, status)]
    {
      acks := acks + [Ack(cmd, status)];
    }

    method Stop()
      modifies this
      ensures State() == Stopped(old(State()))
    {
      stopped := true;
    }

    method Submit(cmd: InputCommand)
      modifies this
      ensures State() == Submitted(post, old(State()), cmd)
    {
      if stopped { OnAck(cmd, Rejected(NotActive)); return; }
      if cmd.fence != post.fence { OnAck(cmd, Rejected(StaleFence)); return; }
      if cmd.seqNo <= lastEnqueued { OnAck(cmd, Duplicate); return; }
      if cmd.seqNo != lastEnqueued + 1 { OnAck(cmd, Rejected(SequenceGap(lastEnqueued + 1))); return; }
      if pending >= post.maxPending { OnAck(cmd, Rejected(Overloaded)); return; }
      lastEnqueued := cmd.seqNo;
      pending := pending + 1;
      chain := chain + [cmd];
    }

    /** `execute` up to the two reads. */
    method Begin()
      requires stage.Resting? && chain != []
      modifies this
      ensures State() == Begun(post, old(State()))
    {
      var cmd := chain[0];
      chain := chain[1..];
      pending := pending - 1;
      if stopped { OnAck(cmd, Rejected(EndedBefore)); return; }
      if cmd.payload.Text? && cmd.payload.length > post.maxTextLength {
        lastApplied := Max(lastApplied, cmd.seqNo);
        OnAck(cmd, Rejected(TextTooLong));
        return;
      }
      stage := Checking(cmd, None, None);
    }

    /** One of the two reads of `execute` has returned; they may return in either order. */
    method ReceiveSession(s: Option<Session>)
      requires stage.Checking?
      modifies this
      ensures State() == GotSession(old(State()), s)
    {
      stage := stage.(session := Some(s));
    }

    method ReceiveDevice(d: Option<Device>)
      requires stage.Checking?
      modifies this
      ensures State() == GotDevice(old(State()), d)
    {
      stage := stage.(device := Some(d));
    }

    /** `execute` from the answers of both reads to the call of the adapter. */
    method Decide(now: int)
      requires stage.Checking? && stage.session.Some? && stage.device.Some?
      modifies this
      ensures State() == Decided(old(State()), now)
    {
      var cmd := stage.cmd;
      var authorized := Gate.Authorized(stage.session.value, stage.device.value, cmd.sessionId, cmd.fence, now);
      if !authorized {
        stage := Resting;
        OnAck(cmd, Rejected(NotOwner));
        return;
      }
      stage := Acting(cmd);
      touched := touched + [cmd];
    }

    /** `execute` from a failed read. */
    method FailCheck()
      requires stage.Checking?
      modifies this
      ensures State() == CheckFailed(old(State()))
    {
      var cmd := stage.cmd;
      stage := Resting;
      OnAck(cmd, Rejected(CheckUnavailable));
    }

    /** `execute` from the adapter's answer to the call of the store. */
    method Act(ok: bool)
      requires stage.Acting?
      modifies this
      ensures State() == Acted(old(State()), ok)
    {
      var cmd := stage.cmd;
      lastApplied := Max(lastApplied, cmd.seqNo);
      if ok {
        stage := Saving(cmd);
      } else {
        stage := Resting;
        OnAck(cmd, Rejected(DeviceFailed));
      }
    }

    /** `execute` from the store's answer, good or bad, to the end. */
    method Save()
      requires stage.Saving?
      modifies this
      ensures State() == Saved(old(State()))
    {
      var cmd := stage.cmd;
      stage := Resting;
      OnAck(cmd, Applied);
    }
  }
}
