/** Latest-frame-wins delivery: at most one unsent frame per socket, and newer frames replace it. */
module FrameBuffer {
  import opened Domain
  import opened Subsequence

  // What an encoded frame contains does not matter here; a number stands for it.
  type Frame = nat

  /** A socket's one-slot buffer, its flush timer, and all it has put on the wire. */
  datatype Slot = Slot(pending: Option<Frame>, timer: bool, wire: seq<Frame>)

  const FRESH := Slot(None, false, [])

  /** A socket as the hub finds it: its slot, whether it is open, and whether its buffer has room. */
  datatype View = Seen(slot: Slot, open: bool, room: bool)

  predicate SendsNow(v: View) {
    v.open && v.room && v.slot.pending.None?
  }

  predicate Replaces(v: View) {
    v.open && v.slot.pending.Some?
  }

  /** The slot after a frame has been offered. */
  function Offered(v: View, frame: Frame): Slot {
    if !v.open then v.slot
    else if SendsNow(v) then v.slot.(wire := v.slot.wire + [frame])
    else v.slot.(pending := Some(frame), timer := true)
  }

  /** The slot after the flush timer has fired. */
  function Flushed(v: View): Slot {
    if !v.open then v.slot.(pending := None, timer := false)
    else if v.slot.pending.Some? && v.room then Slot(None, false, v.slot.wire + [v.slot.pending.value])
    else v.slot.(timer := v.slot.timer && v.slot.pending.Some?)
  }

  // ---------------- the hub ----------------

  class SocketState {
    var open: bool
    var bufferedAmount: nat
    var wire: seq<Frame>
    var pendingFrame: Option<Frame>
    var flushTimer: bool

    constructor ()
      ensures State() == FRESH && open
    {
      open, bufferedAmount, wire, pendingFrame, flushTimer := true, 0, [], None, false;
    }

    function State(): Slot
      reads this
    {
      Slot(pendingFrame, flushTimer, wire)
    }

    /** Hands a frame to the socket, which may or may not buffer it. */
    method Send(data: Frame)
      modifies this`wire, this`bufferedAmount
      ensures wire == old(wire) + [data]
    {
      wire := wire + [data];
      bufferedAmount := *;
    }
  }

  class WsHub {
    const maxBufferedBytes: nat
    var sockets: map<int, set<SocketState>>
    var framesSent: nat
    var framesDropped: nat

    constructor (maxBufferedBytes: nat)
      ensures this.maxBufferedBytes == maxBufferedBytes && sockets == map[] && framesSent == framesDropped == 0
    {
      this.maxBufferedBytes := maxBufferedBytes;
      sockets, framesSent, framesDropped := map[], 0, 0;
    }

    predicate HasRoom(state: SocketState)
      reads state
    {
      state.bufferedAmount < maxBufferedBytes
    }

    function SocketsOf(clientId: int): set<SocketState>
      reads this
    {
      if clientId in sockets then sockets[clientId] else {}
    }

    function View(s: SocketState): View
      reads s
    {
      Seen(s.State(), s.open, HasRoom(s))
    }

    /** What a snapshot of a client's sockets shows. */
    lemma ViewsAre(clientId: int, before: map<SocketState, View>)
      requires before.Keys == SocketsOf(clientId) && forall s | s in before :: before[s] == View(s)
      ensures Senders(clientId) == (set s | s in before && SendsNow(before[s]))
      ensures Replacers(clientId) == (set s | s in before && Replaces(before[s]))
      ensures forall s | s in before ::
        before[s] == Seen(Slot(s.pendingFrame, s.flushTimer, s.wire), s.open, s.bufferedAmount < maxBufferedBytes)
    {
    }

    /** What `data` was to do to a socket last seen as `was` has been done. */
    predicate Served(s: SocketState, was: View, data: Frame)
      reads s
    {
      s.State() == Offered(was, data) && s.open == was.open
    }

    /** The sockets that would send a frame at once, and those that would replace the frame they hold. */
    ghost function Senders(clientId: int): set<SocketState>
      reads this, SocketsOf(clientId)
    {
      set s | s in SocketsOf(clientId) && s.open && s.pendingFrame.None? && s.bufferedAmount < maxBufferedBytes
    }

    ghost function Replacers(clientId: int): set<SocketState>
      reads this, SocketsOf(clientId)
    {
      set s | s in SocketsOf(clientId) && s.open && s.pendingFrame.Some?
    }

    /** Offers a frame to every socket of a client; the counters grow by the frames sent and replaced. */
    method SendFrame(clientId: int, data: Frame)
      modifies this`framesSent, this`framesDropped, SocketsOf(clientId)
      ensures forall s | s in SocketsOf(clientId) :: Served(s, old(View(s)), data)
      ensures forall s | s in SocketsOf(clientId) ::
        Frugal(old(s.open), old(s.bufferedAmount), old(s.pendingFrame), old(s.wire), s.pendingFrame, s.wire, data)
      ensures framesSent == old(framesSent + |Senders(clientId)|)
      ensures framesDropped == old(framesDropped + |Replacers(clientId)|)
    {
      hide Offered, SendsNow, Replaces, Served, Done, View, Frugal, Senders, Replacers;
      var all := SocketsOf(clientId);
      ghost var senders, replacers := Senders(clientId), Replacers(clientId);
      ghost var before := map s | s in all :: View(s);
      ViewsAre(clientId, before);
      var todo := all;
      AllOrNone(senders, all);
      AllOrNone(replacers, all);
      while todo != {}
        invariant todo <= all
        invariant forall s | s in all && s !in todo :: Served(s, before[s], data)
        invariant forall s | s in todo :: View(s) == before[s]
        invariant framesSent == old(framesSent) + Done(senders, todo)
        invariant framesDropped == old(framesDropped) + Done(replacers, todo)
        decreases |todo|
      {
        var state :| state in todo;
        OneDone(senders, todo, state);
        OneDone(replacers, todo, state);
        assert View(state) == before[state];
        todo := todo - {state};
        OfferTo(state, data);
      }
      forall s | s in all
        ensures Frugal(old(s.open), old(s.bufferedAmount), old(s.pendingFrame), old(s.wire), s.pendingFrame, s.wire,
            data)
      {
        ServedFrugally(s, before[s], old(s.bufferedAmount), data);
      }
    }

    /**
     * Backpressure, in terms of the bytes buffered: an idle socket below the limit gets the frame at once, one at
     * or above it gets nothing now and holds the frame, and one that holds a frame already holds this one instead.
     */
    predicate Frugal(open: bool, amount: nat, pending: Option<Frame>, wire: seq<Frame>,
                     pending': Option<Frame>, wire': seq<Frame>, data: Frame)
    {
      if !open then wire' == wire && pending' == pending
      else if pending.None? && amount < maxBufferedBytes then wire' == wire + [data] && pending'.None?
      else wire' == wire && pending' == Some(data)
    }

    lemma ServedFrugally(s: SocketState, was: View, amount: nat, data: Frame)
      requires Served(s, was, data) && was.room == (amount < maxBufferedBytes)
      ensures Frugal(was.open, amount, was.slot.pending, was.slot.wire, s.pendingFrame, s.wire, data)
    {
    }

    static ghost function Done(some: set<SocketState>, todo: set<SocketState>): nat {
      |some - todo|
    }

    static lemma AllOrNone(some: set<SocketState>, all: set<SocketState>)
      requires some <= all
      ensures Done(some, all) == 0 && Done(some, {}) == |some|
    {
      assert some - all == {} && some - {} == some;
    }

    static lemma OneDone(some: set<SocketState>, todo: set<SocketState>, state: SocketState)
      requires state in todo
      ensures Done(some, todo - {state}) == Done(some, todo) + if state in some then 1 else 0
    {
      assert some - (todo - {state}) == (some - todo) + (if state in some then {state} else {});
    }

    method OfferTo(state: SocketState, data: Frame)
      modifies this`framesSent, this`framesDropped, state
      ensures Served(state, old(View(state)), data)
      ensures Frugal(old(state.open), old(state.bufferedAmount), old(state.pendingFrame), old(state.wire),
                     state.pendingFrame, state.wire, data)
      ensures framesSent == old(framesSent) + if SendsNow(old(View(state))) then 1 else 0
      ensures framesDropped == old(framesDropped) + if Replaces(old(View(state))) then 1 else 0
    {
      if !state.open { return; }
      if HasRoom(state) && state.pendingFrame.None? {
        state.Send(data);
        framesSent := framesSent + 1;
      } else {
        if state.pendingFrame.Some? { framesDropped := framesDropped + 1; }
        state.pendingFrame := Some(data);
        state.flushTimer := true;
      }
    }

    method Flush(state: SocketState)
      modifies this`framesSent, state
      ensures state.State() == Flushed(old(View(state))) && state.open == old(state.open)
      ensures old(state.open) && old(state.pendingFrame.Some?) && old(state.bufferedAmount) < maxBufferedBytes ==>
        state.wire == old(state.wire) + [old(state.pendingFrame).value] && state.pendingFrame.None? && !state.flushTimer
      ensures old(state.bufferedAmount) >= maxBufferedBytes ==>
        state.wire == old(state.wire) && (old(state.open) ==> state.pendingFrame == old(state.pendingFrame))
      ensures framesSent - old(framesSent) == |state.wire| - |old(state.wire)|
    {
      if !state.open {
        state.flushTimer := false;
        state.pendingFrame := None;
        return;
      }
      if state.pendingFrame.Some? && HasRoom(state) {
        state.Send(state.pendingFrame.value);
        framesSent := framesSent + 1;
        state.pendingFrame := None;
      }
      if state.pendingFrame.None? && state.flushTimer {
        state.flushTimer := false;
      }
    }
  }

  // ---------------- the life of one socket ----------------

  datatype Happening = Offer(frame: Frame, open: bool, room: bool) | Tick(open: bool, room: bool)

  /** A socket's slot, and where every frame offered to it while open has gone. */
  datatype Ledger = Ledger(slot: Slot, offered: seq<Frame>, dropped: seq<Frame>, discarded: seq<Frame>)

  function Held(s: Slot): seq<Frame> {
    if s.pending.Some? then [s.pending.value] else []
  }

  function After(l: Ledger, h: Happening): Ledger {
    match h
    case Offer(frame, open, room) =>
      Ledger(Offered(Seen(l.slot, open, room), frame),
             if open then l.offered + [frame] else l.offered,
             if Replaces(Seen(l.slot, open, room)) then l.dropped + Held(l.slot) else l.dropped,
             l.discarded)
    case Tick(open, room) =>
      l.(slot := Flushed(Seen(l.slot, open, room)),
         discarded := if open then l.discarded else l.discarded + Held(l.slot))
  }

  /** A timer that is not set does not fire. */
  predicate CanHappen(l: Ledger, h: Happening) {
    h.Tick? ==> l.slot.timer
  }

  ghost predicate Lives(a: Ledger, hs: seq<Happening>, b: Ledger)
    decreases |hs|
  {
    if hs == [] then a == b
    else CanHappen(a, hs[0]) && Lives(After(a, hs[0]), hs[1..], b)
  }

  /** Everywhere a frame can be. */
  function Accounted(l: Ledger): multiset<Frame> {
    multiset(l.slot.wire) + multiset(l.dropped) + multiset(l.discarded) + multiset(Held(l.slot))
  }

  ghost predicate Conserved(l: Ledger) {
    && (l.slot.timer <==> l.slot.pending.Some?)
    && multiset(l.offered) == Accounted(l)
  }

  ghost predicate Ordered(l: Ledger) {
    var out := l.slot.wire + Held(l.slot);
    && IsSubsequence(out, l.offered)
    && (l.offered != [] && l.discarded == [] ==> out != [] && out[|out| - 1] == l.offered[|l.offered| - 1])
  }

  ghost predicate LedgerOk(l: Ledger) {
    Conserved(l) && Ordered(l)
  }

  lemma ConservedStep(l: Ledger, h: Happening)
    requires Conserved(l) && CanHappen(l, h)
    ensures Conserved(After(l, h))
  {
    hide Offered, Flushed, Accounted;
    match h
    case Offer(frame, open, room) => OfferAccounted(l, frame, open, room);
    case Tick(open, room) => TickAccounted(l, open, room);
  }

  lemma OfferAccounted(l: Ledger, frame: Frame, open: bool, room: bool)
    requires l.slot.timer <==> l.slot.pending.Some?
    ensures var l' := After(l, Offer(frame, open, room));
      Accounted(l') == Accounted(l) + (if open then multiset{frame} else multiset{})
      && (l'.slot.timer <==> l'.slot.pending.Some?)
  {
    assert multiset(l.slot.wire + [frame]) == multiset(l.slot.wire) + multiset{frame};
    assert multiset(l.dropped + Held(l.slot)) == multiset(l.dropped) + multiset(Held(l.slot));
    assert multiset([frame]) == multiset{frame};
  }

  lemma TickAccounted(l: Ledger, open: bool, room: bool)
    requires l.slot.timer <==> l.slot.pending.Some?
    ensures var l' := After(l, Tick(open, room));
      Accounted(l') == Accounted(l) && (l'.slot.timer <==> l'.slot.pending.Some?)
  {
    assert multiset(l.slot.wire + Held(l.slot)) == multiset(l.slot.wire) + multiset(Held(l.slot));
    assert multiset(l.discarded + Held(l.slot)) == multiset(l.discarded) + multiset(Held(l.slot));
  }

  lemma OrderedStep(l: Ledger, h: Happening)
    requires Ordered(l)
    ensures Ordered(After(l, h))
  {
    Shorter(l.slot, l.offered);
    var l' := After(l, h);
    var wire, out, out' := l.slot.wire, l.slot.wire + Held(l.slot), l'.slot.wire + Held(l'.slot);
    if h.Offer? && h.open {
      Extend(wire, l.offered, h.frame);
      assert out' == wire + [h.frame];
    } else {
      assert out' == if h.open || h.Offer? then out else wire;
    }
  }

  lemma LedgerStep(l: Ledger, h: Happening)
    requires LedgerOk(l) && CanHappen(l, h)
    ensures LedgerOk(After(l, h))
  {
    hide Conserved, Ordered, After;
    ConservedStep(l, h);
    OrderedStep(l, h);
  }

  lemma Shorter(s: Slot, offered: seq<Frame>)
    requires IsSubsequence(s.wire + Held(s), offered)
    ensures IsSubsequence(s.wire, offered)
  {
    var out := s.wire + Held(s);
    if s.pending.Some? {
      assert out[..|out| - 1] == s.wire;
      Reflexive(s.wire);
      Extend(s.wire, s.wire, s.pending.value);
      Transitive(s.wire, out, offered);
    } else {
      assert out == s.wire;
    }
  }

  lemma {:induction false} LedgerRun(a: Ledger, hs: seq<Happening>, b: Ledger)
    requires LedgerOk(a) && Lives(a, hs, b)
    ensures LedgerOk(b)
    decreases |hs|
  {
    hide LedgerOk, After, CanHappen;
    if hs != [] {
      LedgerStep(a, hs[0]);
      LedgerRun(After(a, hs[0]), hs[1..], b);
    }
  }

  lemma {:induction false} NothingDiscarded(a: Ledger, hs: seq<Happening>, b: Ledger)
    requires Lives(a, hs, b) && forall h | h in hs :: h.open
    ensures b.discarded == a.discarded
    decreases |hs|
  {
    if hs != [] {
      assert hs[0] in hs;
      NothingDiscarded(After(a, hs[0]), hs[1..], b);
    }
  }

  /**
   * Conservation. For any frames, any buffer levels and any timing, a socket that stays open has sent its
   * frames in order and without repetition, every frame offered is sent, dropped or the one pending, the
   * timer runs exactly while one is pending, and the newest frame is never the one that is lost.
   */
  lemma FramesAreConserved(hs: seq<Happening>, b: Ledger)
    requires Lives(Ledger(FRESH, [], [], []), hs, b) && forall h | h in hs :: h.open
    ensures multiset(b.offered) == multiset(b.slot.wire) + multiset(b.dropped) + multiset(Held(b.slot))
    ensures |b.offered| == |b.slot.wire| + |b.dropped| + |Held(b.slot)|
    ensures IsSubsequence(b.slot.wire + Held(b.slot), b.offered)
    ensures b.slot.timer <==> b.slot.pending.Some?
    ensures b.offered != [] ==>
      if b.slot.pending.Some? then b.slot.pending.value == b.offered[|b.offered| - 1]
      else b.slot.wire != [] && b.slot.wire[|b.slot.wire| - 1] == b.offered[|b.offered| - 1]
  {
    var a := Ledger(FRESH, [], [], []);
    LedgerRun(a, hs, b);
    NothingDiscarded(a, hs, b);
    assert |multiset(b.offered)| == |Accounted(b)|;
  }

  /** A frame goes out only as the newest one offered; none is overtaken by an older one. */
  lemma OnlyTheNewestGoesOut(hs: seq<Happening>, b: Ledger, h: Happening)
    requires Lives(Ledger(FRESH, [], [], []), hs, b) && CanHappen(b, h)
    ensures var c := After(b, h);
      c.slot.wire == b.slot.wire
      || (c.offered != [] && c.slot.wire == b.slot.wire + [c.offered[|c.offered| - 1]])
  {
    PendingIsNewest(Ledger(FRESH, [], [], []), hs, b);
  }

  lemma {:induction false} PendingIsNewest(a: Ledger, hs: seq<Happening>, b: Ledger)
    requires Lives(a, hs, b)
    requires a.slot.pending.Some? ==> a.offered != [] && a.offered[|a.offered| - 1] == a.slot.pending.value
    ensures b.slot.pending.Some? ==> b.offered != [] && b.offered[|b.offered| - 1] == b.slot.pending.value
    decreases |hs|
  {
    if hs != [] { PendingIsNewest(After(a, hs[0]), hs[1..], b); }
  }
}
