/** One claim per client, and joining the queue as an idempotent operation. */
module Claims {
  import opened Domain
  import opened Scripts
  import opened Lab
  import Ownership
  import Transitions

  /** Client `c` has a live session. */
  predicate Owns(s: Store, c: ClientId, sid: SessionId) {
    sid in s.sessions && s.sessions[sid].clientId == c && Live(s.sessions[sid].state)
  }

  /** Client `c` stands in the queue. */
  predicate Queues(s: Store, c: ClientId, rid: RequestId) {
    IsWaiting(s.entries, rid) && s.entries[rid].clientId == c
  }

  /** After any run: at most one live session or one waiting entry, and never both; the indexes find them. */
  lemma OneClaimPerClient(cfg: Config, lab: Lab, c: ClientId)
    requires Reachable(cfg, lab)
    ensures var s := lab.store;
      && (forall a, b | Owns(s, c, a) && Owns(s, c, b) :: a == b)
      && (forall a, b | Queues(s, c, a) && Queues(s, c, b) :: a == b)
      && (forall a, b | Owns(s, c, a) && Queues(s, c, b) :: false)
      && (forall a :: Owns(s, c, a) <==> Lookup(s.clientSession, c) == Some(a))
      && (forall a :: Queues(s, c, a) <==> Lookup(s.clientRequest, c) == Some(a))
      && (forall a :: IsWaiting(s.entries, a) <==> a in s.queue)
  {
    var t0, cmds :| Runs(cfg, Start(t0), cmds, lab);
    Transitions.SoundRun(cfg, Start(t0), cmds, lab);
    hide Ownership.LeasesOk;
  }

  /** Joining leaves everything as it is for a client that has a claim, and hands that claim out. */
  lemma JoinFindsClaim(s: Store, c: ClientId, h: TokenHash, rid: RequestId, now: int)
    requires Ownership.StoreOk(s) && rid !in s.entries
    ensures var (s', r) := Scripts.JoinQueue(s, c, h, rid, now);
      && (forall sid | Owns(s, c, sid) :: s' == s && r == ExistingSession(s.sessions[sid]))
      && (forall x | Queues(s, c, x) :: s' == s && r == ExistingEntry(s.entries[x]))
      && ((forall sid :: !Owns(s, c, sid)) && (forall x :: !Queues(s, c, x)) ==>
            r.Joined? && r.entry == QueueEntry(rid, c, h, now, Waiting)
            && Queues(s', c, rid) && s'.entries == s.entries[rid := r.entry] && s'.sessions == s.sessions)
  {
    hide Ownership.LeasesOk;
    assert c !in s.clientSession ==> s.clientSession - {c} == s.clientSession;
    if c in s.clientSession { assert Owns(s, c, s.clientSession[c]); }
    if c in s.clientRequest { assert Queues(s, c, s.clientRequest[c]); }
  }

  /** A repeated join changes nothing and returns what the first one returned. */
  lemma JoinIsIdempotent(s: Store, c: ClientId, h: TokenHash, rid: RequestId, now: int, h2: TokenHash, rid2: RequestId,
      now2: int)
    requires Ownership.StoreOk(s) && rid !in s.entries && rid2 !in s.entries && rid2 != rid
    ensures var (s1, r1) := Scripts.JoinQueue(s, c, h, rid, now);
      var (s2, r2) := Scripts.JoinQueue(s1, c, h2, rid2, now2);
      s2 == s1 && r2 == if r1.Joined? then ExistingEntry(r1.entry) else r1
  {
    hide Ownership.StoreOk, Scripts.JoinQueue;
    var (s1, r1) := Scripts.JoinQueue(s, c, h, rid, now);
    Ownership.JoinQueueOk(s, c, h, rid, now);
    JoinFindsClaim(s, c, h, rid, now);
    JoinFindsClaim(s1, c, h2, rid2, now2);
    if sid :| Owns(s, c, sid) {
    } else if x :| Queues(s, c, x) {
    }
  }
}
