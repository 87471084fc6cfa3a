/** The events one session can put in the outbound queue, and the queue's meaning as a plain list.

    `ListQueue` is the specification: every decision is taken by searching the list. The class in
    EventQueue.dfy takes the same decisions from per-session counters and sequence numbers. */
module Events {

  type SessionId = nat
  type RequestId = nat

  /** The nine reply variants; every one of them answers exactly one request. */
  datatype ReplyKind =
    | Opened | OpenFailed | Executed | Fetched | FetchedSegment | LobChunk | Completed
    | SessionClosed | ServerOutputConfigured

  datatype Event =
    | Reply(session: SessionId, request: RequestId, kind: ReplyKind)
    | Executing(session: SessionId, request: RequestId)
    | ServerOutput(session: SessionId, lines: seq<string>, dropped: nat, failed: bool)
    | TransactionState(session: SessionId, possiblyActive: bool)
    | Terminal(session: SessionId, possiblyLost: bool)

  predicate IsUnsolicited(e: Event) {
    e.ServerOutput? || e.TransactionState?
  }

  const U32_MAX: nat := 0xFFFF_FFFF

  function Clip(n: nat): nat {
    if n <= U32_MAX then n else U32_MAX
  }

  /** `u32::saturating_add`. */
  function SaturatingAdd(a: nat, b: nat): nat {
    Clip(a + b)
  }

  /** `usize::saturating_sub`: a slot counter never goes below zero. */
  function SaturatingSub(n: nat, m: nat): nat {
    if n < m then 0 else n - m
  }

  /** A queued event together with the reply slot it holds, if it is a reply. */
  datatype Queued<S> = Queued(event: Event, slot: S)

  /** The plain list: what is queued, and how many dropped output lines each session is still owed
      a report about. `owed` holds positive counts only. */
  datatype ListQueue<S> = ListQueue(items: seq<Queued<S>>, owed: map<SessionId, nat>, closed: bool)

  datatype Pushed<S> = Pushed(after: ListQueue<S>, wake: bool, kept: bool, refused: bool)

  // ------------------------------------------------------------------ searching the list

  /** How many unsolicited events of `s` are waiting. */
  function Waiting<S>(q: seq<Queued<S>>, s: SessionId): nat {
    if q == [] then 0
    else (if IsUnsolicited(q[0].event) && q[0].event.session == s then 1 else 0) + Waiting(q[1..], s)
  }

  predicate IsStateOf<S>(x: Queued<S>, s: SessionId) {
    x.event.TransactionState? && x.event.session == s
  }

  /** The position of the first queued transaction state of `s`, or -1. */
  function FindState<S>(q: seq<Queued<S>>, s: SessionId): (i: int)
    ensures -1 <= i < |q|
    ensures 0 <= i ==> IsStateOf(q[i], s) && forall j :: 0 <= j < i ==> !IsStateOf(q[j], s)
    ensures i == -1 ==> forall j :: 0 <= j < |q| ==> !IsStateOf(q[j], s)
  {
    if q == [] then -1
    else if IsStateOf(q[0], s) then 0
    else
      var i := FindState(q[1..], s);
      if i < 0 then -1 else i + 1
  }

  function Owed(owed: map<SessionId, nat>, s: SessionId): nat {
    if s in owed then owed[s] else 0
  }

  function SetOwed(owed: map<SessionId, nat>, s: SessionId, n: nat): map<SessionId, nat> {
    if n == 0 then owed - {s} else owed[s := n]
  }

  // ------------------------------------------------------------------ push and pop

  function Append<S>(q: ListQueue<S>, e: Event, slot: S, owed: map<SessionId, nat>): Pushed<S> {
    Pushed(q.(items := q.items + [Queued(e, slot)], owed := owed), q.items == [], true, false)
  }

  function PushOutput<S>(q: ListQueue<S>, e: Event, slot: S, cap: nat): Pushed<S>
    requires e.ServerOutput?
  {
    var debt := Owed(q.owed, e.session);
    var debt' := SaturatingAdd(debt, Clip(|e.lines|));
    if Waiting(q.items, e.session) < cap then
      Append(q, e.(dropped := SaturatingAdd(e.dropped, debt)), slot, SetOwed(q.owed, e.session, 0))
    else if e.failed then
      Append(q, e.(lines := [], dropped := SaturatingAdd(e.dropped, debt')), slot, SetOwed(q.owed, e.session, 0))
    else
      Pushed(q.(owed := SetOwed(q.owed, e.session, debt')), false, false, true)
  }

  function PushState<S>(q: ListQueue<S>, e: Event, slot: S): Pushed<S>
    requires e.TransactionState?
  {
    var i := FindState(q.items, e.session);
    if 0 <= i then
      Pushed(q.(items := q.items[i := q.items[i].(event := e)]), false, false, false)
    else
      Append(q, e, slot, q.owed)
  }

  /** The drop policy, decided by searching the list. */
  function Push<S>(q: ListQueue<S>, e: Event, slot: S, cap: nat): Pushed<S> {
    if q.closed then Pushed(q, false, false, false)
    else if e.ServerOutput? then PushOutput(q, e, slot, cap)
    else if e.TransactionState? then PushState(q, e, slot)
    else Append(q, e, slot, q.owed)
  }

  /** What a push answers, read off the queue before and after: a wake on the empty to non-empty edge,
      an event kept as a new entry, and output turned away from an open queue. */
  lemma PushAnswers<S>(q: ListQueue<S>, e: Event, slot: S, cap: nat)
    ensures var p := Push(q, e, slot, cap);
            && (p.wake <==> q.items == [] && p.after.items != [])
            && (p.kept <==> |p.after.items| == |q.items| + 1) && (!p.kept ==> |p.after.items| == |q.items|)
            && (p.refused <==> e.ServerOutput? && !q.closed && !p.kept)
            && p.after.closed == q.closed && (q.closed ==> p.after == q)
  {
  }

  /** A transaction state pushed into an open queue is in it, in the place of the one that was queued or
      at the end, and nothing else of the list changes. */
  lemma StateIsReplaced<S>(q: ListQueue<S>, e: Event, slot: S, cap: nat)
    requires e.TransactionState? && !q.closed
    ensures var n := Push(q, e, slot, cap).after; var i := FindState(q.items, e.session);
            var at := if i < 0 then |q.items| else i;
            && at < |n.items| && n.items[at].event == e && n.owed == q.owed
            && (forall j | 0 <= j < |q.items| && j != at :: n.items[j] == q.items[j])
            && (0 <= i ==> n.items[i].slot == q.items[i].slot)
  {
  }

  // ------------------------------------------------------------------ one session's share of the queue

  /** The subsequence of the queue that belongs to `s`. */
  function Share<S>(q: seq<Queued<S>>, s: SessionId): seq<Queued<S>> {
    if q == [] then []
    else if q[0].event.session == s then [q[0]] + Share(q[1..], s)
    else Share(q[1..], s)
  }

  function OwedShare(owed: map<SessionId, nat>, s: SessionId): map<SessionId, nat> {
    if s in owed then map[s := owed[s]] else map[]
  }

  function ShareOf<S>(q: ListQueue<S>, s: SessionId): ListQueue<S> {
    ListQueue(Share(q.items, s), OwedShare(q.owed, s), q.closed)
  }

  lemma {:induction false} WaitingConcat<S>(a: seq<Queued<S>>, b: seq<Queued<S>>, s: SessionId)
    ensures Waiting(a + b, s) == Waiting(a, s) + Waiting(b, s)
  {
    if a == [] {
      assert a + b == b;
    } else {
      assert (a + b)[1..] == a[1..] + b;
      WaitingConcat(a[1..], b, s);
    }
  }

  lemma {:induction false} ShareConcat<S>(a: seq<Queued<S>>, b: seq<Queued<S>>, s: SessionId)
    ensures Share(a + b, s) == Share(a, s) + Share(b, s)
  {
    if a == [] {
      assert a + b == b;
    } else {
      assert (a + b)[1..] == a[1..] + b;
      ShareConcat(a[1..], b, s);
    }
  }

  lemma {:induction false} ShareWaiting<S>(q: seq<Queued<S>>, s: SessionId)
    ensures Waiting(Share(q, s), s) == Waiting(q, s)
  {
    if q != [] {
      ShareWaiting(q[1..], s);
    }
  }

  /** Replacing a queued transaction state changes neither any count nor any other session's share. */
  lemma {:induction false} WaitingUpdate<S>(q: seq<Queued<S>>, i: nat, x: Queued<S>, s: SessionId)
    requires i < |q|
    requires IsUnsolicited(q[i].event) == IsUnsolicited(x.event) && q[i].event.session == x.event.session
    ensures Waiting(q[i := x], s) == Waiting(q, s)
  {
    if i == 0 {
      assert q[i := x][1..] == q[1..];
    } else {
      assert q[i := x][1..] == q[1..][i - 1 := x];
      WaitingUpdate(q[1..], i - 1, x, s);
    }
  }

  lemma {:induction false} ShareOfOtherUpdate<S>(q: seq<Queued<S>>, i: nat, x: Queued<S>, s: SessionId)
    requires i < |q| && q[i].event.session == x.event.session != s
    ensures Share(q[i := x], s) == Share(q, s)
  {
    if i == 0 {
      assert q[i := x][1..] == q[1..];
    } else {
      assert q[i := x][1..] == q[1..][i - 1 := x];
      ShareOfOtherUpdate(q[1..], i - 1, x, s);
    }
  }

  lemma {:induction false} ShareCoalesce<S>(q: seq<Queued<S>>, e: Event)
    requires e.TransactionState?
    ensures FindState(q, e.session) < 0 <==> FindState(Share(q, e.session), e.session) < 0
    ensures var i, j := FindState(q, e.session), FindState(Share(q, e.session), e.session);
            0 <= i ==> Share(q[i := q[i].(event := e)], e.session)
                       == Share(q, e.session)[j := Share(q, e.session)[j].(event := e)]
  {
    var s := e.session;
    if q != [] && !IsStateOf(q[0], s) {
      ShareCoalesce(q[1..], e);
      var i := FindState(q[1..], s);
      if 0 <= i {
        var x := q[1..][i].(event := e);
        assert q[i + 1 := x][1..] == q[1..][i := x];
      }
    } else if q != [] {
      assert q[0 := q[0].(event := e)][1..] == q[1..];
    }
  }

  lemma ShareAppend<S>(q: seq<Queued<S>>, x: Queued<S>, s: SessionId)
    ensures Share(q + [x], s) == if x.event.session == s then Share(q, s) + [x] else Share(q, s)
  {
    ShareConcat(q, [x], s);
    assert [x][1..] == [];
  }

  lemma OwedShareSet(owed: map<SessionId, nat>, r: SessionId, n: nat, s: SessionId)
    ensures OwedShare(SetOwed(owed, r, n), s)
            == if s == r then SetOwed(OwedShare(owed, s), s, n) else OwedShare(owed, s)
    ensures Owed(OwedShare(owed, s), s) == Owed(owed, s)
  {
    var l := OwedShare(SetOwed(owed, r, n), s);
    assert s == r && n == 0 ==> l == map[];
    assert s == r && n > 0 ==> l == map[s := n];
  }

  lemma OutputIsLocal<S>(q: ListQueue<S>, e: Event, slot: S, cap: nat, s: SessionId)
    requires e.ServerOutput?
    ensures var whole := PushOutput(q, e, slot, cap);
            if s != e.session then ShareOf(whole.after, s) == ShareOf(q, s)
            else var own := PushOutput(ShareOf(q, s), e, slot, cap);
                 ShareOf(whole.after, s) == own.after && whole.kept == own.kept && whole.refused == own.refused
  {
    var whole := PushOutput(q, e, slot, cap);
    ShareWaiting(q.items, e.session);
    OwedShareSet(q.owed, e.session, Owed(whole.after.owed, e.session), s);
    if whole.kept {
      var x := whole.after.items[|q.items|];
      assert whole.after.items == q.items + [x];
      ShareAppend(q.items, x, s);
    }
  }

  lemma StateIsLocal<S>(q: ListQueue<S>, e: Event, slot: S, s: SessionId)
    requires e.TransactionState?
    ensures var whole := PushState(q, e, slot);
            if s != e.session then ShareOf(whole.after, s) == ShareOf(q, s)
            else var own := PushState(ShareOf(q, s), e, slot);
                 ShareOf(whole.after, s) == own.after && whole.kept == own.kept && whole.refused == own.refused
  {
    ShareCoalesce(q.items, e);
    ShareAppend(q.items, Queued(e, slot), s);
    var i := FindState(q.items, e.session);
    if 0 <= i && s != e.session {
      ShareOfOtherUpdate(q.items, i, q.items[i].(event := e), s);
    }
  }

  /** Pushing for one session is, on that session's share of the queue, the same push; on every
      other session's share it is nothing at all. A session at its cap cannot affect another. */
  lemma PushIsLocal<S>(q: ListQueue<S>, e: Event, slot: S, cap: nat, s: SessionId)
    ensures var whole := Push(q, e, slot, cap);
            if s != e.session then ShareOf(whole.after, s) == ShareOf(q, s)
            else var own := Push(ShareOf(q, s), e, slot, cap);
                 ShareOf(whole.after, s) == own.after && whole.kept == own.kept && whole.refused == own.refused
  {
    if e.ServerOutput? {
      OutputIsLocal(q, e, slot, cap, s);
    } else if e.TransactionState? {
      StateIsLocal(q, e, slot, s);
    } else {
      ShareAppend(q.items, Queued(e, slot), s);
    }
  }

  // ------------------------------------------------------------------ output is never silently lost

  /** Lines of `s` carried by queued events, plus the drops those events report. */
  function Reported<S>(q: seq<Queued<S>>, s: SessionId): nat {
    if q == [] then 0
    else
      (if q[0].event.ServerOutput? && q[0].event.session == s then |q[0].event.lines| + q[0].event.dropped else 0)
      + Reported(q[1..], s)
  }

  /** Every line of `s` the queue still answers for: carried, reported as dropped, or owed a report. */
  function Accounted<S>(q: ListQueue<S>, s: SessionId): nat {
    Reported(q.items, s) + Owed(q.owed, s)
  }

  /** Whether pushing `e` has to forget something: a 32-bit drop count clips, or a refused event
      arrived already carrying a count (the worker always emits output with a count of zero). */
  predicate Forgets<S>(q: ListQueue<S>, e: Event, cap: nat)
    requires e.ServerOutput?
  {
    var debt := Owed(q.owed, e.session);
    if Waiting(q.items, e.session) < cap then e.dropped + debt > U32_MAX
    else if e.failed then e.dropped + debt + |e.lines| > U32_MAX
    else e.dropped > 0 || debt + |e.lines| > U32_MAX
  }

  lemma {:induction false} ReportedConcat<S>(a: seq<Queued<S>>, b: seq<Queued<S>>, s: SessionId)
    ensures Reported(a + b, s) == Reported(a, s) + Reported(b, s)
  {
    if a == [] {
      assert a + b == b;
    } else {
      assert (a + b)[1..] == a[1..] + b;
      ReportedConcat(a[1..], b, s);
    }
  }

  /** Pushing output accounts for exactly its lines and the drops it already carried, unless it
      has to forget some; then it accounts for fewer, never for more. */
  lemma OutputIsAccountedFor<S>(q: ListQueue<S>, e: Event, slot: S, cap: nat)
    requires !q.closed && e.ServerOutput?
    requires Owed(q.owed, e.session) <= U32_MAX
    ensures var after := Push(q, e, slot, cap).after;
            var offered := |e.lines| + e.dropped;
            && Accounted(after, e.session) <= Accounted(q, e.session) + offered
            && (Accounted(after, e.session) == Accounted(q, e.session) + offered <==> !Forgets(q, e, cap))
  {
    var p := Push(q, e, slot, cap);
    if p.kept {
      var x := p.after.items[|q.items|];
      assert p.after.items == q.items + [x];
      ReportedConcat(q.items, [x], e.session);
      assert [x][1..] == [];
    }
  }

  lemma {:induction false} ReportedUpdate<S>(q: seq<Queued<S>>, i: nat, x: Queued<S>, s: SessionId)
    requires i < |q| && q[i].event.TransactionState? && x.event.TransactionState?
    ensures Reported(q[i := x], s) == Reported(q, s)
  {
    if i == 0 {
      assert q[i := x][1..] == q[1..];
    } else {
      assert q[i := x][1..] == q[1..][i - 1 := x];
      ReportedUpdate(q[1..], i - 1, x, s);
    }
  }

  /** No other push touches any session's account. */
  lemma OtherPushKeepsAccounts<S>(q: ListQueue<S>, e: Event, slot: S, cap: nat, s: SessionId)
    requires !e.ServerOutput? || s != e.session
    ensures Accounted(Push(q, e, slot, cap).after, s) == Accounted(q, s)
  {
    var p := Push(q, e, slot, cap);
    if p.kept {
      var x := p.after.items[|q.items|];
      assert p.after.items == q.items + [x];
      ReportedConcat(q.items, [x], s);
      assert [x][1..] == [];
    } else if !q.closed && e.TransactionState? {
      var i := FindState(q.items, e.session);
      ReportedUpdate(q.items, i, q.items[i].(event := e), s);
    }
  }
}
