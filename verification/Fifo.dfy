/** First come, first served: the head is served, and a waiter's place only improves. */
module Fifo {
  import opened Domain
  import QueueOrder
  import opened Scripts
  import opened Lab
  import opened Ownership
  import opened Transitions

  /** The waiters that come before `rid`; its position in the queue is one more than their number. */
  ghost function Ahead(s: Store, rid: RequestId): set<RequestId>
    requires rid in s.queue
  {
    set r | r in s.queue && IsWaiting(s.entries, r) && r != rid && QueueOrder.Before(s.queue, r, rid)
  }

  ghost function Rank(s: Store, rid: RequestId): nat
    requires rid in s.queue
  {
    |Ahead(s, rid)|
  }

  lemma NobodyAheadOfHead(s: Store, rid: RequestId)
    requires rid in s.queue && QueueOrder.IsLeast(s.queue, WaitingIn(s.queue, s.entries), rid)
    ensures Ahead(s, rid) == {}
  {
    forall r | r in WaitingIn(s.queue, s.entries) && r != rid
      ensures !QueueOrder.Before(s.queue, r, rid)
    {
      assert QueueOrder.Before(s.queue, rid, r);
    }
  }

  lemma WaitingIsQueued(lab: Lab, rid: RequestId)
    requires Sound(lab)
    ensures IsWaiting(lab.store.entries, rid) <==> rid in lab.store.queue
    ensures rid in lab.store.queue ==> lab.store.queue[rid] == lab.store.entries[rid].enqueuedAt
    ensures rid in lab.store.queue ==> rid in lab.rids
  {
  }

  /** Allocation serves the least waiter by (enqueue time, request id). */
  lemma GrantServesHead(cfg: Config, lab: Lab, cmd: Cmd)
    requires Allowed(lab, cmd)
    requires var events := Effect(cfg, lab, cmd).1; |events| == 1 && events[0].Granted?
    ensures var events := Effect(cfg, lab, cmd).1;
      QueueOrder.IsLeast(lab.store.queue, WaitingIn(lab.store.queue, lab.store.entries), events[0].rid)
      && !IsWaiting(Do(cfg, lab, cmd).store.entries, events[0].rid)
      && forall x | x in lab.store.queue && IsWaiting(lab.store.entries, x) && x != events[0].rid ::
           var rid, q := events[0].rid, lab.store.queue; q[rid] < q[x] || (q[rid] == q[x] && rid < x)
  {
    if !cmd.Allocate? { NoOtherGrants(cfg, lab, cmd); }
    var q, rid := lab.store.queue, Effect(cfg, lab, cmd).1[0].rid;
    assert QueueOrder.IsLeast(q, WaitingIn(q, lab.store.entries), rid);
    hide Effect, Do;
    forall x | x in q && IsWaiting(lab.store.entries, x) && x != rid ensures QueueOrder.Before(q, rid, x) {
      assert x in WaitingIn(q, lab.store.entries);
    }
  }

  lemma NoOtherGrants(cfg: Config, lab: Lab, cmd: Cmd)
    requires Allowed(lab, cmd) && !cmd.Allocate?
    ensures var events := Effect(cfg, lab, cmd).1; |events| == 1 ==> !events[0].Granted?
  {
    hide Effect;
    FenceMoves(cfg, lab, cmd);
  }

  /** How one command moves a waiter that joined before this moment. */
  lemma RankStep(cfg: Config, lab: Lab, cmd: Cmd, rid: RequestId)
    requires Sound(lab) && Allowed(lab, cmd) && IsWaiting(lab.store.entries, rid)
    requires lab.store.entries[rid].enqueuedAt < lab.clock
    ensures rid in lab.store.queue
    ensures var lab' := Do(cfg, lab, cmd);
      var events := Effect(cfg, lab, cmd).1;
      var granted := |events| == 1 && events[0].Granted?;
      Sound(lab')
      && (granted && Rank(lab.store, rid) == 0 ==> events[0].rid == rid)
      && if IsWaiting(lab'.store.entries, rid) then
           rid in lab'.store.queue
           && lab'.store.entries[rid] == lab.store.entries[rid]
           && (if granted then Rank(lab'.store, rid) == Rank(lab.store, rid) - 1
               else Rank(lab'.store, rid) <= Rank(lab.store, rid))
         else events == [Withdrawn(rid)] || (granted && events[0].rid == rid && Rank(lab.store, rid) == 0)
  {
    hide Effect, StoreOk, IdsOk, SessionMove;
    var lab' := Do(cfg, lab, cmd);
    var events := Effect(cfg, lab, cmd).1;
    SoundStep(cfg, lab, cmd);
    EntryMoves(cfg, lab, cmd, rid);
    DeviceMoves(cfg, lab, cmd, 0);
    WaitingIsQueued(lab, rid);
    WaitingIsQueued(lab', rid);
    var a := Ahead(lab.store, rid);
    if |events| == 1 && events[0].Granted? {
      GrantServesHead(cfg, lab, cmd);
      if events[0].rid != rid {
        assert events[0].rid in a;
      } else {
        NobodyAheadOfHead(lab.store, rid);
      }
    }
    if IsWaiting(lab'.store.entries, rid) {
      AheadShrinks(cfg, lab, cmd, rid);
    }
  }

  /** Nobody gets ahead of an earlier waiter, and the one granted leaves the line. */
  lemma AheadShrinks(cfg: Config, lab: Lab, cmd: Cmd, rid: RequestId)
    requires Sound(lab) && Allowed(lab, cmd) && Sound(Do(cfg, lab, cmd))
    requires rid in lab.store.queue && rid in Do(cfg, lab, cmd).store.queue
    requires IsWaiting(lab.store.entries, rid) && IsWaiting(Do(cfg, lab, cmd).store.entries, rid)
    requires lab.store.entries[rid].enqueuedAt < lab.clock
    ensures var a, b := Ahead(lab.store, rid), Ahead(Do(cfg, lab, cmd).store, rid);
      var events := Effect(cfg, lab, cmd).1;
      |b| <= |a|
      && (|events| == 1 && events[0].Granted? && events[0].rid in a ==> |b| == |a| - 1)
  {
    hide Effect, StoreOk, IdsOk;
    var lab' := Do(cfg, lab, cmd);
    var events := Effect(cfg, lab, cmd).1;
    var a, b := Ahead(lab.store, rid), Ahead(lab'.store, rid);
    forall r | r in lab'.store.queue || r in lab.store.queue
      ensures r in b ==> r in a
      ensures r in a && r !in b ==>
        |events| == 1 && (events[0] == Withdrawn(r) || (events[0].Granted? && events[0].rid == r))
    {
      EntryMoves(cfg, lab, cmd, r);
      EntryMoves(cfg, lab, cmd, rid);
      WaitingIsQueued(lab, r);
      WaitingIsQueued(lab', r);
      WaitingIsQueued(lab, rid);
      WaitingIsQueued(lab', rid);
    }
    assert b <= a;
    if |events| == 1 && events[0].Granted? && events[0].rid in a {
      GrantServesHead(cfg, lab, cmd);
      assert b == a - {events[0].rid};
    } else {
      Subset(b, a);
    }
  }

  lemma Subset<T>(b: set<T>, a: set<T>)
    requires b <= a
    ensures |b| <= |a|
  {
    assert a == b + (a - b);
  }

  function Grants(log: seq<Event>): nat {
    if log == [] then 0 else Grants(log[..|log| - 1]) + if log[|log| - 1].Granted? then 1 else 0
  }

  predicate Settled(log: seq<Event>, rid: RequestId) {
    exists e | e in log :: e == Withdrawn(rid) || (e.Granted? && e.rid == rid)
  }

  /** Over any run, every grant to somebody else brings a waiter exactly one place forward or better. */
  lemma {:induction false} NoStarvation(cfg: Config, a: Lab, cmds: seq<Cmd>, b: Lab, rid: RequestId)
    requires Sound(a) && Runs(cfg, a, cmds, b) && IsWaiting(a.store.entries, rid)
    requires a.store.entries[rid].enqueuedAt < a.clock
    ensures rid in a.store.queue && Grants(b.log) >= Grants(a.log)
    ensures if IsWaiting(b.store.entries, rid)
      then rid in b.store.queue && Rank(b.store, rid) + (Grants(b.log) - Grants(a.log)) <= Rank(a.store, rid)
      else Settled(b.log, rid)
    decreases |cmds|
  {
    hide Effect, StoreOk, IdsOk, Ahead;
    WaitingIsQueued(a, rid);
    if cmds != [] {
      var mid := Do(cfg, a, cmds[0]);
      var events := Effect(cfg, a, cmds[0]).1;
      RankStep(cfg, a, cmds[0], rid);
      DeviceMoves(cfg, a, cmds[0], 0);
      GrantsOne(a.log, events);
      if IsWaiting(mid.store.entries, rid) {
        NoStarvation(cfg, mid, cmds[1..], b, rid);
      } else {
        LogGrows(cfg, mid, cmds[1..], b, rid);
        assert events[0] in mid.log;
      }
    }
  }

  lemma GrantsOne(log: seq<Event>, events: seq<Event>)
    requires |events| <= 1
    ensures Grants(log + events) == Grants(log) + if |events| == 1 && events[0].Granted? then 1 else 0
  {
    if events == [] { assert log + events == log; } else { assert (log + events)[..|log + events| - 1] == log; }
  }

  lemma {:induction false} LogGrows(cfg: Config, a: Lab, cmds: seq<Cmd>, b: Lab, rid: RequestId)
    requires Sound(a) && Runs(cfg, a, cmds, b)
    ensures a.log <= b.log && Grants(a.log) <= Grants(b.log)
    ensures rid in a.rids && !IsWaiting(a.store.entries, rid) ==> !IsWaiting(b.store.entries, rid)
    decreases |cmds|
  {
    hide Effect, StoreOk, IdsOk;
    if cmds != [] {
      EntryMoves(cfg, a, cmds[0], rid);
      SoundStep(cfg, a, cmds[0]);
      DeviceMoves(cfg, a, cmds[0], 0);
      GrantsOne(a.log, Effect(cfg, a, cmds[0]).1);
      LogGrows(cfg, Do(cfg, a, cmds[0]), cmds[1..], b, rid);
    }
  }

  /** A waiter with k others ahead that does not withdraw has been granted a device by the (k+1)-st grant. */
  lemma ServedInTurn(cfg: Config, a: Lab, cmds: seq<Cmd>, b: Lab, rid: RequestId)
    requires Sound(a) && Runs(cfg, a, cmds, b) && IsWaiting(a.store.entries, rid)
    requires a.store.entries[rid].enqueuedAt < a.clock
    requires rid in a.store.queue && Grants(b.log) - Grants(a.log) > Rank(a.store, rid)
    requires Withdrawn(rid) !in b.log
    ensures exists e | e in b.log :: e.Granted? && e.rid == rid
  {
    hide Effect, StoreOk, IdsOk;
    NoStarvation(cfg, a, cmds, b, rid);
  }
}
