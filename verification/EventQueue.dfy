/** The outbound queue as it is implemented: a deque popped only from the front, sequence numbers
    that find a coalescing target without a search, and one bookkeeping record per session.

    Every method is proved against the list search of `Events`: `Valid()` ties the counters to the
    list, and `Abs()` is the list the indexed structure stands for. */
module EventQueues {
  import opened Events
  import opened Wrappers

  /** One session's reply slots, shared by the session that reserves and the queue that releases. */
  class RequestSlots {
    var outstanding: nat

    constructor ()
      ensures outstanding == 0
    {
      outstanding := 0;
    }

    /** Takes one slot unless `limit` are taken. Another thread may win a compare-exchange in
        between; SessionProtocol models that race, this is the uncontended pass. */
    method Reserve(limit: nat) returns (ok: bool)
      modifies this
      ensures ok <==> old(outstanding) < limit
      ensures outstanding == old(outstanding) + (if ok then 1 else 0)
    {
      ok := outstanding < limit;
      if ok {
        outstanding := outstanding + 1;
      }
    }

    /** Gives one slot back; a release of nothing saturates at zero. */
    method Release()
      modifies this
      ensures outstanding == SaturatingSub(old(outstanding), 1)
    {
      if outstanding != 0 {
        outstanding := outstanding - 1;
      }
    }
  }

  type Item = Queued<RequestSlots?>

  /** How many of these events hold a slot of `c`. */
  function Held(q: seq<Item>, c: RequestSlots): nat {
    if q == [] then 0 else (if q[0].slot == c then 1 else 0) + Held(q[1..], c)
  }

  datatype SessionState = SessionState(unsolicited: nat, droppedLines: nat, transactionSeq: Option<nat>)
  {
    predicate IsIdle() {
      unsolicited == 0 && droppedLines == 0 && transactionSeq.None?
    }
  }

  const FRESH := SessionState(0, 0, None)

  datatype Admission = Enqueue | EnqueueWithoutLines | Coalesced | Dropped

  /** The drop counts still owed, as the list specification keeps them. */
  function OwedBy(sessions: map<SessionId, SessionState>): map<SessionId, nat> {
    map s | s in sessions && sessions[s].droppedLines > 0 :: sessions[s].droppedLines
  }

  function StateOf(sessions: map<SessionId, SessionState>, s: SessionId): SessionState {
    if s in sessions then sessions[s] else FRESH
  }

  /** The record of `s` agrees with a search of the list. */
  ghost predicate Agrees(q: seq<Item>, sessions: map<SessionId, SessionState>, frontSeq: nat, s: SessionId) {
    var state := StateOf(sessions, s);
    && state.unsolicited == Waiting(q, s)
    && state.droppedLines <= U32_MAX
    && (match state.transactionSeq
        case None => FindState(q, s) == -1
        case Some(n) => frontSeq <= n && FindState(q, s) == n - frontSeq)
  }

  /** The index agrees with the list: every record does, none is idle, and each session has at most
      one transaction state queued. */
  ghost predicate Indexes(q: seq<Item>, sessions: map<SessionId, SessionState>, frontSeq: nat) {
    && (forall s | s in sessions :: !sessions[s].IsIdle())
    && (forall s :: Agrees(q, sessions, frontSeq, s))
    && (forall i, j, s | 0 <= i < j < |q| && IsStateOf(q[i], s) :: !IsStateOf(q[j], s))
  }

  /** The record of a session whose unsolicited event is about to get sequence number `seqNo`. */
  function Stamp(sessions: map<SessionId, SessionState>, e: Event, seqNo: nat): map<SessionId, SessionState> {
    var state := StateOf(sessions, e.session);
    var counted := state.(unsolicited := state.unsolicited + 1);
    sessions[e.session := if e.TransactionState? then counted.(transactionSeq := Some(seqNo))
                          else counted.(droppedLines := 0)]
  }

  /** The record of a session whose unsolicited event `seqNo` was just delivered. */
  function Unstamp(sessions: map<SessionId, SessionState>, s: SessionId, seqNo: nat): map<SessionId, SessionState> {
    if s !in sessions then sessions
    else
      var state := SessionState(SaturatingSub(sessions[s].unsolicited, 1), sessions[s].droppedLines,
                                if sessions[s].transactionSeq == Some(seqNo) then None else sessions[s].transactionSeq);
      if state.IsIdle() then sessions - {s} else sessions[s := state]
  }

  /** The record of a session whose output was refused. */
  function CountLost(sessions: map<SessionId, SessionState>, s: SessionId, lost: nat): map<SessionId, SessionState> {
    var state := StateOf(sessions, s);
    sessions[s := state.(droppedLines := SaturatingAdd(state.droppedLines, lost))]
  }

  class EventQueue {
    const cap: nat
    var queue: seq<Item>
    var frontSeq: nat
    var nextSeq: nat
    var sessions: map<SessionId, SessionState>
    var closed: bool
    var droppedUnsolicited: nat

    ghost function Abs(): ListQueue<RequestSlots?>
      reads this
    {
      ListQueue(queue, OwedBy(sessions), closed)
    }

    ghost function Slots(): set<RequestSlots>
      reads this
    {
      set x | x in queue && x.slot != null :: x.slot
    }

    ghost predicate Valid()
      reads this
    {
      cap > 0 && nextSeq == frontSeq + |queue| && Indexes(queue, sessions, frontSeq)
    }

    constructor (cap: nat)
      requires cap > 0
      ensures Valid() && Abs() == ListQueue([], map[], false) && this.cap == cap && droppedUnsolicited == 0
    {
      this.cap := cap;
      queue, frontSeq, nextSeq, sessions, closed, droppedUnsolicited := [], 0, 0, map[], false, 0;
    }

    /** The index of this session's undelivered transaction state, by subtraction alone. */
    method QueuedTransactionSlot(s: SessionId) returns (slot: Option<nat>)
      requires Valid()
      ensures slot == if FindState(queue, s) < 0 then None else Some(FindState(queue, s))
    {
      assert Agrees(queue, sessions, frontSeq, s);
      if s !in sessions || sessions[s].transactionSeq.None? || sessions[s].transactionSeq.value < frontSeq {
        return None;
      }
      slot := Some(sessions[s].transactionSeq.value - frontSeq);
    }

    /** Applies the per-session cap: coalesces in place, or counts what a refused event carried. */
    method AdmitUnsolicited(e: Event) returns (admission: Admission)
      requires Valid() && IsUnsolicited(e)
      modifies this`queue, this`sessions
      ensures Valid()
      ensures var i := FindState(old(queue), e.session);
              var full := Waiting(old(queue), e.session) >= cap;
              if e.TransactionState? && 0 <= i then
                admission == Coalesced && sessions == old(sessions)
                && queue == old(queue)[i := old(queue)[i].(event := e)]
              else if e.TransactionState? || !full then
                admission == Enqueue && sessions == old(sessions) && queue == old(queue)
              else
                admission == (if e.failed then EnqueueWithoutLines else Dropped)
                && sessions == CountLost(old(sessions), e.session, Clip(|e.lines|)) && queue == old(queue)
    {
      var s := e.session;
      assert Agrees(queue, sessions, frontSeq, s);
      if e.TransactionState? {
        var slot := QueuedTransactionSlot(s);
        if slot.Some? {
          IndexesAfterCoalesce(queue, sessions, frontSeq, slot.value, e);
          queue := queue[slot.value := queue[slot.value].(event := e)];
          return Coalesced;
        }
        return Enqueue;
      }
      if !(s in sessions && sessions[s].unsolicited >= cap) {
        return Enqueue;
      }
      var lost := Clip(|e.lines|);
      IndexesAfterLoss(queue, sessions, frontSeq, s, lost);
      sessions := sessions[s := sessions[s].(droppedLines := SaturatingAdd(sessions[s].droppedLines, lost))];
      admission := if e.failed then EnqueueWithoutLines else Dropped;
    }

    /** Records an unsolicited event that is certain to be queued, folding the pending drop count
        into a `ServerOutput`. */
    method StampUnsolicited(e: Event) returns (stamped: Event)
      requires IsUnsolicited(e)
      modifies this`sessions
      ensures sessions == Stamp(old(sessions), e, nextSeq)
      ensures stamped == if e.ServerOutput?
                         then e.(dropped := SaturatingAdd(e.dropped, StateOf(old(sessions), e.session).droppedLines))
                         else e
    {
      var state := if e.session in sessions then sessions[e.session] else FRESH;
      state := state.(unsolicited := state.unsolicited + 1);
      if e.TransactionState? {
        sessions := sessions[e.session := state.(transactionSeq := Some(nextSeq))];
        stamped := e;
      } else {
        stamped := e.(dropped := SaturatingAdd(e.dropped, state.droppedLines));
        sessions := sessions[e.session := state.(droppedLines := 0)];
      }
    }

    /** Enqueues one event, with the slot it holds if it is a request's reply. The indexed queue
        decides exactly what the list search decides. */
    method Push(e: Event, slot: RequestSlots?) returns (wake: bool, kept: bool)
      requires Valid()
      modifies this
      ensures Valid()
      ensures var spec := Events.Push(old(Abs()), e, slot, cap);
              && Abs() == spec.after
              && wake == spec.wake
              && kept == spec.kept
              && droppedUnsolicited == old(droppedUnsolicited) + (if spec.refused then 1 else 0)
    {
      if closed {
        return false, false;
      }
      if !IsUnsolicited(e) {
        wake := PushBack(e, slot);
        return wake, true;
      }
      if e.ServerOutput? {
        wake, kept := PushOutput(e, slot);
      } else {
        wake, kept := PushState(e, slot);
      }
    }

    method PushOutput(e: Event, slot: RequestSlots?) returns (wake: bool, kept: bool)
      requires Valid() && !closed && e.ServerOutput?
      modifies this`queue, this`sessions, this`nextSeq, this`droppedUnsolicited
      ensures Valid()
      ensures var spec := Events.PushOutput(old(Abs()), e, slot, cap);
              && Abs() == spec.after && wake == spec.wake && kept == spec.kept
              && droppedUnsolicited == old(droppedUnsolicited) + (if spec.refused then 1 else 0)
    {
      assert Agrees(queue, sessions, frontSeq, e.session);
      if Waiting(queue, e.session) < cap {
        OutputWithRoom(queue, sessions, frontSeq, e, slot, cap);
      } else {
        OutputAtCap(queue, sessions, frontSeq, e, slot, cap);
      }
      var admission := AdmitUnsolicited(e);
      if admission == Dropped {
        droppedUnsolicited := droppedUnsolicited + 1;
        return false, false;
      }
      wake := PushBack(if admission == EnqueueWithoutLines then e.(lines := []) else e, slot);
      kept := true;
    }

    method PushState(e: Event, slot: RequestSlots?) returns (wake: bool, kept: bool)
      requires Valid() && !closed && e.TransactionState?
      modifies this`queue, this`sessions, this`nextSeq
      ensures Valid()
      ensures var spec := Events.PushState(old(Abs()), e, slot);
              Abs() == spec.after && wake == spec.wake && kept == spec.kept
    {
      OwedAfterStamp(sessions, e, nextSeq);
      var admission := AdmitUnsolicited(e);
      if admission == Coalesced {
        return false, false;
      }
      wake := PushBack(e, slot);
      kept := true;
    }

    /** Stamps and appends an event that was admitted. */
    method PushBack(e: Event, slot: RequestSlots?) returns (wake: bool)
      requires Valid() && (e.TransactionState? ==> FindState(queue, e.session) < 0)
      modifies this`queue, this`sessions, this`nextSeq
      ensures Valid()
      ensures sessions == if IsUnsolicited(e) then Stamp(old(sessions), e, old(nextSeq)) else old(sessions)
      ensures queue == old(queue) + [Queued(
                if e.ServerOutput? then
                  e.(dropped := SaturatingAdd(e.dropped, StateOf(old(sessions), e.session).droppedLines))
                else e, slot)]
      ensures wake == (old(queue) == [])
    {
      wake := queue == [];
      var stamped := e;
      if IsUnsolicited(e) {
        stamped := StampUnsolicited(e);
        IndexesAfterStamp(queue, old(sessions), frontSeq, Queued(stamped, slot));
      } else {
        IndexesAfterPlain(queue, sessions, frontSeq, Queued(e, slot));
      }
      queue := queue + [Queued(stamped, slot)];
      nextSeq := nextSeq + 1;
    }

    method ReleaseUnsolicited(s: SessionId, seqNo: nat)
      modifies this`sessions
      ensures sessions == Unstamp(old(sessions), s, seqNo)
    {
      if s !in sessions {
        return;
      }
      var state := sessions[s];
      state := state.(unsolicited := SaturatingSub(state.unsolicited, 1));
      if state.transactionSeq == Some(seqNo) {
        state := state.(transactionSeq := None);
      }
      sessions := if state.IsIdle() then sessions - {s} else sessions[s := state];
    }

    /** Takes the front event and frees the slot it held. */
    method Pop() returns (event: Option<Event>)
      requires Valid()
      modifies this`queue, this`frontSeq, this`sessions, Slots()
      ensures Valid() && Slots() <= old(Slots())
      ensures old(queue) == [] ==> event == None && Abs() == old(Abs())
      ensures old(queue) != [] ==>
                && event == Some(old(queue)[0].event)
                && Abs() == old(Abs()).(items := old(queue)[1..])
      ensures forall c | c in old(Slots()) ::
                var held := if old(queue) != [] && old(queue)[0].slot == c then 1 else 0;
                c.outstanding == SaturatingSub(old(c.outstanding), held)
    {
      if queue == [] {
        return None;
      }
      var front := queue[0];
      IndexesAfterPop(queue, sessions, frontSeq);
      if front.slot != null {
        front.slot.Release();
      }
      queue := queue[1..];
      var seqNo := frontSeq;
      frontSeq := frontSeq + 1;
      if IsUnsolicited(front.event) {
        OwedAfterUnstamp(sessions, front.event.session, seqNo);
        ReleaseUnsolicited(front.event.session, seqNo);
      }
      event := Some(front.event);
    }

    /** Takes up to `max` events under one lock: a prefix of the queue, in order, and the slots of
        exactly those events. */
    method DrainInto(max: nat) returns (taken: seq<Event>)
      requires Valid()
      modifies this`queue, this`frontSeq, this`sessions, Slots()
      ensures Valid()
      ensures |taken| == (if max <= |old(queue)| then max else |old(queue)|)
      ensures taken == EventsOf(old(queue)[..|taken|])
      ensures Abs() == old(Abs()).(items := old(queue)[|taken|..])
      ensures forall c | c in old(Slots()) ::
                c.outstanding == SaturatingSub(old(c.outstanding), Held(old(queue)[..|taken|], c))
    {
      taken := [];
      while |taken| < max
        modifies this`queue, this`frontSeq, this`sessions, Slots()
        invariant |taken| <= max && |taken| <= |old(queue)|
        invariant Valid() && Abs() == old(Abs()).(items := old(queue)[|taken|..]) && Slots() <= old(Slots())
        invariant taken == EventsOf(old(queue)[..|taken|])
        invariant forall c | c in old(Slots()) ::
                    c.outstanding == SaturatingSub(old(c.outstanding), Held(old(queue)[..|taken|], c))
      {
        ghost var k := |taken|;
        var event := Pop();
        if event.None? {
          break;
        }
        EventsOfNext(old(queue), k);
        assert old(queue)[k..][1..] == old(queue)[k + 1..];
        forall c: RequestSlots | c in old(Slots())
          ensures Held(old(queue)[..k + 1], c) == Held(old(queue)[..k], c) + (if old(queue)[k].slot == c then 1 else 0)
        {
          HeldNext(old(queue), k, c);
        }
        taken := taken + [event.value];
      }
    }

    /** Dropping the consumer half: nothing stays queued, every slot a queued reply held is free,
        and whatever is pushed later is discarded. */
    method Close()
      requires Valid()
      modifies this`queue, this`frontSeq, this`sessions, this`closed, Slots()
      ensures Valid()
      ensures Abs() == ListQueue([], map[], true)
      ensures forall c | c in old(Slots()) ::
                c.outstanding == SaturatingSub(old(c.outstanding), Held(old(queue), c))
    {
      closed := true;
      assert old(queue)[..|old(queue)|] == old(queue);
      var taken := DrainInto(|queue|);
      sessions := map[];
      forall s ensures Agrees(queue, sessions, frontSeq, s) {
      }
    }
  }

  function EventsOf(q: seq<Item>): seq<Event> {
    if q == [] then [] else [q[0].event] + EventsOf(q[1..])
  }

  lemma {:induction false} EventsOfNext(q: seq<Item>, k: nat)
    requires k < |q|
    ensures EventsOf(q[..k + 1]) == EventsOf(q[..k]) + [q[k].event]
  {
    if k > 0 {
      assert q[..k + 1][1..] == q[1..][..k];
      assert q[..k][1..] == q[1..][..k - 1];
      EventsOfNext(q[1..], k - 1);
    }
  }

  lemma {:induction false} HeldNext(q: seq<Item>, k: nat, c: RequestSlots)
    requires k < |q|
    ensures Held(q[..k + 1], c) == Held(q[..k], c) + (if q[k].slot == c then 1 else 0)
  {
    if k > 0 {
      assert q[..k + 1][1..] == q[1..][..k];
      assert q[..k][1..] == q[1..][..k - 1];
      HeldNext(q[1..], k - 1, c);
    }
  }

  // ------------------------------------------------------------------ the index follows every change

  lemma IndexesAfterCoalesce(q: seq<Item>, sessions: map<SessionId, SessionState>, frontSeq: nat, i: nat, e: Event)
    requires Indexes(q, sessions, frontSeq)
    requires i < |q| && e.TransactionState? && IsStateOf(q[i], e.session)
    ensures Indexes(q[i := q[i].(event := e)], sessions, frontSeq)
  {
    var x := q[i].(event := e);
    var after := q[i := x];
    forall s ensures Agrees(after, sessions, frontSeq, s) {
      assert Agrees(q, sessions, frontSeq, s);
      WaitingUpdate(q, i, x, s);
      FindUpdate(q, i, x, s);
    }
  }

  lemma IndexesAfterLoss(q: seq<Item>, sessions: map<SessionId, SessionState>, frontSeq: nat, s: SessionId, lost: nat)
    requires Indexes(q, sessions, frontSeq)
    requires StateOf(sessions, s).unsolicited > 0
    ensures Indexes(q, CountLost(sessions, s, lost), frontSeq)
  {
    forall r ensures Agrees(q, CountLost(sessions, s, lost), frontSeq, r) {
      assert Agrees(q, sessions, frontSeq, r);
    }
  }

  lemma IndexesAfterPlain(q: seq<Item>, sessions: map<SessionId, SessionState>, frontSeq: nat, x: Item)
    requires Indexes(q, sessions, frontSeq) && !IsUnsolicited(x.event)
    ensures Indexes(q + [x], sessions, frontSeq)
  {
    forall s ensures Agrees(q + [x], sessions, frontSeq, s) {
      assert Agrees(q, sessions, frontSeq, s);
      AppendSearches(q, x, s);
    }
  }

  lemma IndexesAfterStamp(q: seq<Item>, sessions: map<SessionId, SessionState>, frontSeq: nat, x: Item)
    requires Indexes(q, sessions, frontSeq) && IsUnsolicited(x.event)
    requires x.event.TransactionState? ==> FindState(q, x.event.session) < 0
    ensures Indexes(q + [x], Stamp(sessions, x.event, frontSeq + |q|), frontSeq)
  {
    var stamped := Stamp(sessions, x.event, frontSeq + |q|);
    forall s ensures Agrees(q + [x], stamped, frontSeq, s) {
      assert Agrees(q, sessions, frontSeq, s);
      AppendSearches(q, x, s);
    }
  }

  lemma IndexesAfterPop(q: seq<Item>, sessions: map<SessionId, SessionState>, frontSeq: nat)
    requires Indexes(q, sessions, frontSeq) && q != []
    ensures var e := q[0].event;
            Indexes(q[1..], if IsUnsolicited(e) then Unstamp(sessions, e.session, frontSeq) else sessions, frontSeq + 1)
  {
    var e := q[0].event;
    var after := if IsUnsolicited(e) then Unstamp(sessions, e.session, frontSeq) else sessions;
    var nextFront := frontSeq + 1;
    forall s ensures Agrees(q[1..], after, nextFront, s) {
      assert Agrees(q, sessions, frontSeq, s);
      PopSearches(q, s);
    }
  }

  lemma OwedAfterLoss(sessions: map<SessionId, SessionState>, s: SessionId, lost: nat)
    requires StateOf(sessions, s).droppedLines <= U32_MAX
    ensures var debt := SaturatingAdd(Owed(OwedBy(sessions), s), lost);
            OwedBy(CountLost(sessions, s, lost)) == SetOwed(OwedBy(sessions), s, debt)
  {
  }

  lemma OwedAfterStamp(sessions: map<SessionId, SessionState>, e: Event, seqNo: nat)
    ensures OwedBy(Stamp(sessions, e, seqNo))
            == if e.TransactionState? then OwedBy(sessions) else SetOwed(OwedBy(sessions), e.session, 0)
  {
  }

  lemma OwedIs(sessions: map<SessionId, SessionState>, s: SessionId)
    ensures Owed(OwedBy(sessions), s) == StateOf(sessions, s).droppedLines
  {
  }

  lemma SetTwice(owed: map<SessionId, nat>, s: SessionId, n: nat)
    ensures SetOwed(SetOwed(owed, s, n), s, 0) == SetOwed(owed, s, 0)
  {
  }

  /** What the list search does with output while there is room, said with the records. */
  lemma OutputWithRoom(q: seq<Item>, sessions: map<SessionId, SessionState>, frontSeq: nat, e: Event,
                       slot: RequestSlots?, cap: nat)
    requires e.ServerOutput? && Waiting(q, e.session) < cap
    ensures var x := Queued(e.(dropped := SaturatingAdd(e.dropped, StateOf(sessions, e.session).droppedLines)), slot);
            Events.PushOutput(ListQueue(q, OwedBy(sessions), false), e, slot, cap)
            == Pushed(ListQueue(q + [x], OwedBy(Stamp(sessions, e, frontSeq + |q|)), false), q == [], true, false)
  {
    OwedIs(sessions, e.session);
    OwedAfterStamp(sessions, e, frontSeq + |q|);
  }

  /** And at the cap: the lines are counted, and only a failed read still gets in. */
  lemma OutputAtCap(q: seq<Item>, sessions: map<SessionId, SessionState>, frontSeq: nat, e: Event,
                    slot: RequestSlots?, cap: nat)
    requires StateOf(sessions, e.session).droppedLines <= U32_MAX && e.ServerOutput? && Waiting(q, e.session) >= cap
    ensures var counted := CountLost(sessions, e.session, Clip(|e.lines|));
            var bare := e.(lines := []);
            var x := Queued(bare.(dropped := SaturatingAdd(e.dropped, StateOf(counted, e.session).droppedLines)), slot);
            Events.PushOutput(ListQueue(q, OwedBy(sessions), false), e, slot, cap)
            == if e.failed then
                 Pushed(ListQueue(q + [x], OwedBy(Stamp(counted, bare, frontSeq + |q|)), false), q == [], true, false)
               else Pushed(ListQueue(q, OwedBy(counted), false), false, false, true)
  {
    var lost := Clip(|e.lines|);
    OwedIs(sessions, e.session);
    OwedAfterLoss(sessions, e.session, lost);
    OwedAfterStamp(CountLost(sessions, e.session, lost), e.(lines := []), frontSeq + |q|);
    SetTwice(OwedBy(sessions), e.session, SaturatingAdd(StateOf(sessions, e.session).droppedLines, lost));
  }

  lemma OwedAfterUnstamp(sessions: map<SessionId, SessionState>, s: SessionId, seqNo: nat)
    ensures OwedBy(Unstamp(sessions, s, seqNo)) == OwedBy(sessions)
  {
  }

  // ------------------------------------------------------------------ how searches react to one change

  lemma {:induction false} FindAppend(q: seq<Item>, x: Item, s: SessionId)
    ensures FindState(q + [x], s)
            == if 0 <= FindState(q, s) then FindState(q, s) else if IsStateOf(x, s) then |q| else -1
  {
    if q == [] {
      assert q + [x] == [x];
    } else {
      assert (q + [x])[1..] == q[1..] + [x];
      FindAppend(q[1..], x, s);
    }
  }

  lemma AppendSearches(q: seq<Item>, x: Item, s: SessionId)
    ensures Waiting(q + [x], s)
            == Waiting(q, s) + (if IsUnsolicited(x.event) && x.event.session == s then 1 else 0)
    ensures FindState(q + [x], s)
            == if 0 <= FindState(q, s) then FindState(q, s) else if IsStateOf(x, s) then |q| else -1
  {
    WaitingConcat(q, [x], s);
    assert [x][1..] == [];
    FindAppend(q, x, s);
  }

  lemma {:induction false} FindUpdate(q: seq<Item>, i: nat, x: Item, s: SessionId)
    requires i < |q| && q[i].event.TransactionState? && x.event.TransactionState?
    requires q[i].event.session == x.event.session
    ensures FindState(q[i := x], s) == FindState(q, s)
  {
    if i == 0 {
      assert q[i := x][1..] == q[1..];
    } else {
      assert q[i := x][1..] == q[1..][i - 1 := x];
      FindUpdate(q[1..], i - 1, x, s);
    }
  }

  lemma PopSearches(q: seq<Item>, s: SessionId)
    requires q != []
    requires forall i, j | 0 <= i < j < |q| && IsStateOf(q[i], s) :: !IsStateOf(q[j], s)
    ensures FindState(q[1..], s) == if FindState(q, s) <= 0 then -1 else FindState(q, s) - 1
  {
    assert forall k | 0 <= k < |q[1..]| :: q[1..][k] == q[k + 1];
  }
}
