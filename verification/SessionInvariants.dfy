/** What every step of `SessionProtocol` keeps, one group of facts at a time. */
module SessionInvariants {
  import opened Events
  import opened SessionProtocol
  import opened Wrappers

  // ------------------------------------------------------------------ counting across a push

  /** Equal up to what a push may rewrite: lines, drop counts, and a coalesced flag. */
  predicate SameClass(a: Event, b: Event) {
    match (a, b)
    case (ServerOutput(s, _, _, f), ServerOutput(r, _, _, g)) => s == r && f == g
    case (TransactionState(s, _), TransactionState(r, _)) => s == r
    case _ => a == b
  }

  /** A property of events that no push rewrites. */
  ghost predicate Stable(p: Event -> bool) {
    forall a, b :: SameClass(a, b) ==> p(a) == p(b)
  }

  lemma {:induction false} CountConcat(a: seq<Queued<bool>>, b: seq<Queued<bool>>, p: Event -> bool)
    ensures Count(a + b, p) == Count(a, p) + Count(b, p)
  {
    if a == [] {
      assert a + b == b;
    } else {
      assert (a + b)[1..] == a[1..] + b;
      CountConcat(a[1..], b, p);
    }
  }

  lemma {:induction false} CountUpdate(q: seq<Queued<bool>>, i: nat, x: Queued<bool>, p: Event -> bool)
    requires i < |q| && p(q[i].event) == p(x.event)
    ensures Count(q[i := x], p) == Count(q, p)
  {
    if i == 0 {
      assert q[i := x][1..] == q[1..];
    } else {
      assert q[i := x][1..] == q[1..][i - 1 := x];
      CountUpdate(q[1..], i - 1, x, p);
    }
  }

  /** What a push does to the list: nothing, an in-place rewrite of a state, or one more event. */
  lemma PushShape(q: ListQueue<bool>, e: Event, slot: bool, cap: nat)
    ensures var p := Push(q, e, slot, cap);
            && p.after.closed == q.closed
            && (p.kept ==> !q.closed && |p.after.items| == |q.items| + 1
                           && p.after.items == q.items + [p.after.items[|q.items|]]
                           && p.after.items[|q.items|].slot == slot
                           && SameClass(p.after.items[|q.items|].event, e))
            && (!p.kept && p.after.items != q.items ==>
                 !q.closed && e.TransactionState? &&
                 var i := FindState(q.items, e.session);
                 0 <= i && p.after.items == q.items[i := q.items[i].(event := e)])
            && (!q.closed && (e.Reply? || e.Executing? || e.Terminal?) ==> p.kept)
  {
  }

  lemma CountAfterPush(q: ListQueue<bool>, e: Event, slot: bool, cap: nat, p: Event -> bool)
    requires Stable(p)
    ensures var w := Push(q, e, slot, cap);
            Count(w.after.items, p) == Count(q.items, p) + (if w.kept && p(e) then 1 else 0)
  {
    PushShape(q, e, slot, cap);
    var w := Push(q, e, slot, cap);
    if w.kept {
      var x := w.after.items[|q.items|];
      CountConcat(q.items, [x], p);
      assert SameClass(x.event, e) && [x][1..] == [];
    } else if w.after.items != q.items {
      var i := FindState(q.items, e.session);
      assert SameClass(q.items[i].event, e);
      CountUpdate(q.items, i, q.items[i].(event := e), p);
    }
  }

  /** In every suffix, the events that open something outnumber those that close it by at most `extra`. */
  predicate Balanced(q: seq<Queued<bool>>, opens: Event -> bool, closes: Event -> bool, extra: nat) {
    q == [] || (Count(q, opens) <= Count(q, closes) + extra && Balanced(q[1..], opens, closes, extra))
  }

  function One(b: bool): nat {
    if b then 1 else 0
  }

  lemma {:induction false} BalancedAppend(q: seq<Queued<bool>>, x: Queued<bool>, opens: Event -> bool,
                                          closes: Event -> bool, extra: nat, extra': nat)
    requires Balanced(q, opens, closes, extra)
    requires One(opens(x.event)) + extra <= One(closes(x.event)) + extra'
    ensures Balanced(q + [x], opens, closes, extra')
  {
    CountConcat(q, [x], opens);
    CountConcat(q, [x], closes);
    assert [x][1..] == [];
    if q == [] {
      assert q + [x] == [x];
    } else {
      assert (q + [x])[1..] == q[1..] + [x];
      BalancedAppend(q[1..], x, opens, closes, extra, extra');
    }
  }

  lemma {:induction false} BalancedUpdate(q: seq<Queued<bool>>, i: nat, x: Queued<bool>, opens: Event -> bool,
                                          closes: Event -> bool, extra: nat)
    requires Balanced(q, opens, closes, extra) && i < |q|
    requires opens(q[i].event) == opens(x.event) && closes(q[i].event) == closes(x.event)
    ensures Balanced(q[i := x], opens, closes, extra)
  {
    CountUpdate(q, i, x, opens);
    CountUpdate(q, i, x, closes);
    if i == 0 {
      assert q[i := x][1..] == q[1..];
    } else {
      assert q[i := x][1..] == q[1..][i - 1 := x];
      BalancedUpdate(q[1..], i - 1, x, opens, closes, extra);
    }
  }

  lemma {:induction false} BalancedWiden(q: seq<Queued<bool>>, opens: Event -> bool, closes: Event -> bool,
                                         extra: nat, extra': nat)
    requires Balanced(q, opens, closes, extra) && extra <= extra'
    ensures Balanced(q, opens, closes, extra')
  {
    if q != [] {
      BalancedWiden(q[1..], opens, closes, extra, extra');
    }
  }

  lemma BalancedAfterPush(q: ListQueue<bool>, e: Event, slot: bool, cap: nat, opens: Event -> bool,
                          closes: Event -> bool, extra: nat, extra': nat)
    requires Balanced(q.items, opens, closes, extra) && Stable(opens) && Stable(closes)
    requires q.closed ==> q.items == []
    requires if Push(q, e, slot, cap).kept then One(opens(e)) + extra <= One(closes(e)) + extra'
             else q.closed || extra <= extra'
    ensures Balanced(Push(q, e, slot, cap).after.items, opens, closes, extra')
  {
    PushShape(q, e, slot, cap);
    var w := Push(q, e, slot, cap);
    if w.kept {
      var x := w.after.items[|q.items|];
      assert SameClass(x.event, e);
      BalancedAppend(q.items, x, opens, closes, extra, extra');
    } else if !q.closed {
      if w.after.items != q.items {
        var i := FindState(q.items, e.session);
        assert SameClass(q.items[i].event, e);
        BalancedUpdate(q.items, i, q.items[i].(event := e), opens, closes, extra);
      }
      BalancedWiden(w.after.items, opens, closes, extra, extra');
    }
  }

  lemma {:induction false} CountPartition(q: seq<Queued<bool>>)
    ensures |q| == Count(q, IsReply) + Count(q, IsExecuting) + Count(q, IsFailedRead)
                   + Count(q, IsOrdinaryOutput) + Count(q, IsState) + Count(q, IsTerminal)
  {
    if q != [] {
      CountPartition(q[1..]);
    }
  }

  lemma {:induction false} ExecuteRepliesAreReplies(q: seq<Queued<bool>>)
    ensures Count(q, IsExecuteReply) <= Count(q, IsReply)
  {
    if q != [] {
      ExecuteRepliesAreReplies(q[1..]);
    }
  }

  // ------------------------------------------------------------------ every accepted request is in exactly one place

  /** A command names an accepted request of its own kind. */
  predicate Known(r: Requests, c: Command) {
    c.token.Some? ==> c.token.value < |r.kinds| && r.kinds[c.token.value] == c.kind
  }

  predicate AllKnown(r: Requests) {
    && |r.kinds| > 0
    && (forall i | 0 <= i < |r.callers| && r.callers[i].Reserved? :: Known(r, r.callers[i].command))
    && (forall i | 0 <= i < |r.channel| :: Known(r, r.channel[i]))
    && (r.worker.Busy? ==> Known(r, r.worker.command))
  }

  /** Each request not yet answered is held by exactly one caller, queued command or worker; an
      answered one is held by none. */
  ghost predicate TokenInv(r: Requests) {
    && AllKnown(r)
    && (forall t | t in r.live :: t < |r.kinds|)
    && (forall t: nat :: Places(r, t) == One(t in r.live))
  }

  lemma {:induction false} WithCallersUpdate(callers: seq<Caller>, i: nat, c: Caller, t: nat)
    requires i < |callers|
    ensures WithCallers(callers[i := c], t) == WithCallers(callers, t) - WithCaller(callers[i], t) + WithCaller(c, t)
  {
    if i == 0 {
      assert callers[i := c][1..] == callers[1..];
    } else {
      assert callers[i := c][1..] == callers[1..][i - 1 := c];
      WithCallersUpdate(callers[1..], i - 1, c, t);
    }
  }

  lemma {:induction false} WithNewCaller(callers: seq<Caller>, t: nat)
    ensures WithCallers(callers + [Away], t) == WithCallers(callers, t)
  {
    if callers == [] {
      assert callers + [Away] == [Away];
    } else {
      assert (callers + [Away])[1..] == callers[1..] + [Away];
      WithNewCaller(callers[1..], t);
    }
  }

  lemma {:induction false} InChannelAppend(a: seq<Command>, c: Command, t: nat)
    ensures InChannel(a + [c], t) == InChannel(a, t) + Carries(c, t)
  {
    if a == [] {
      assert a + [c] == [c];
    } else {
      assert (a + [c])[1..] == a[1..] + [c];
      InChannelAppend(a[1..], c, t);
    }
  }

  /** A caller's step moves a reply between the caller and the channel, or answers it. */
  lemma CallerPlaces(s: State, step: Step, t: nat)
    requires TokenInv(s.r) && CallerEnabled(s, step)
    ensures Places(NextRequests(s, step), t) == One(t in NextRequests(s, step).live)
  {
    var n := NextRequests(s, step);
    assert Places(s.r, t) == One(t in s.r.live);
    if step.Arrive? {
      WithNewCaller(s.r.callers, t);
    } else if !step.SendCompletion? {
      WithCallersUpdate(s.r.callers, step.i, n.callers[step.i], t);
    }
    if |n.channel| > |s.r.channel| {
      InChannelAppend(s.r.channel, n.channel[|s.r.channel|], t);
    }
  }

  lemma PlacesFollow(s: State, step: Step, t: nat)
    requires TokenInv(s.r) && Enabled(s, step)
    ensures Places(NextRequests(s, step), t) == One(t in NextRequests(s, step).live)
  {
    assert Places(s.r, t) == One(t in s.r.live);
    if CallerEnabled(s, step) {
      CallerPlaces(s, step, t);
    }
  }

  lemma StepKeepsTokens(s: State, step: Step)
    requires TokenInv(s.r) && Enabled(s, step)
    ensures TokenInv(NextRequests(s, step))
  {
    var n := NextRequests(s, step);
    forall t: nat ensures Places(n, t) == One(t in n.live) {
      PlacesFollow(s, step, t);
    }
  }

  // ------------------------------------------------------------------ the books of one step

  /** How the number of queued events of one class follows a step. */
  lemma CountFollows(s: State, step: Step, p: Event -> bool)
    requires Enabled(s, step) && Stable(p)
    ensures var n := Count(NextQueue(s, step).items, p);
            if step.Take? then n == Count(s.b.queue.items, p) - One(p(s.b.queue.items[0].event))
            else if step.DropQueue? then n == 0
            else n == Count(s.b.queue.items, p) + One(Kept(s, step) && p(Emitted(s, step).value))
  {
    var e := Emitted(s, step);
    if e.Some? {
      CountAfterPush(s.b.queue, e.value, Answering(s, step).Some?, s.cap, p);
    }
  }

  /** A reply, a start or an end is kept by every queue that still has a consumer. */
  lemma NeverDropped(s: State, step: Step)
    requires Enabled(s, step) && Emitted(s, step).Some?
    requires var e := Emitted(s, step).value; e.Reply? || e.Executing? || e.Terminal?
    ensures Kept(s, step) == !s.b.queue.closed
  {
    PushShape(s.b.queue, Emitted(s, step).value, Answering(s, step).Some?, s.cap);
  }

  // ------------------------------------------------------------------ reply slots are conserved

  function Executes(live: set<nat>, kinds: seq<Kind>): set<nat> {
    set t | t in live && t < |kinds| && kinds[t] == Execute
  }

  /** Every slot taken belongs to a request not yet answered, to a queued reply, or to a reply the
      queue refused whose release is under way; and the published limits hold. */
  ghost predicate SlotInv(s: State) {
    && s.b.outstanding == |s.r.live| + Count(s.b.queue.items, IsReply) + s.b.releasing
    && s.b.outstanding <= s.limit + 1
    && |Executes(s.r.live, s.r.kinds)| + Count(s.b.queue.items, IsExecuteReply) <= s.limit
    && (s.b.queue.closed ==> s.b.queue.items == [])
  }

  lemma AnsweredWasLive(s: State, step: Step)
    requires TokenInv(s.r) && Enabled(s, step) && Answering(s, step).Some?
    ensures Answering(s, step).value in s.r.live
  {
    var t := Answering(s, step).value;
    assert Places(s.r, t) == One(t in s.r.live);
    if step.Send? || step.Settle? {
      WithCallersUpdate(s.r.callers, step.i, Away, t);
    }
  }

  lemma ExecutesWithout(live: set<nat>, kinds: seq<Kind>, t: nat)
    requires t in live && t < |kinds|
    ensures |live - {t}| == |live| - 1
    ensures |Executes(live - {t}, kinds)| == |Executes(live, kinds)| - One(kinds[t] == Execute)
  {
    assert Executes(live - {t}, kinds) == Executes(live, kinds) - {t};
  }

  lemma ExecutesWith(live: set<nat>, kinds: seq<Kind>, kind: Kind)
    requires forall t | t in live :: t < |kinds|
    ensures |live + {|kinds|}| == |live| + 1
    ensures |Executes(live + {|kinds|}, kinds + [kind])| == |Executes(live, kinds)| + One(kind == Execute)
  {
    var newest := |kinds|;
    assert newest !in live;
    assert Executes(live + {newest}, kinds + [kind])
        == Executes(live, kinds) + (if kind == Execute then {newest} else {});
  }

  lemma ExecutesAreLive(live: set<nat>, kinds: seq<Kind>)
    ensures |Executes(live, kinds)| <= |live|
  {
    var executes := Executes(live, kinds);
    assert live == executes + (live - executes);
  }

  /** How the slot counter follows a step. */
  lemma CounterFollows(s: State, step: Step)
    requires Enabled(s, step)
    requires Count(s.b.queue.items, IsReply) + s.b.releasing <= s.b.outstanding
    ensures && NextOutstanding(s, step) == s.b.outstanding + One(step.Exchange?) - One(step.Release?)
                 - One(step.Take? && s.b.queue.items[0].event.Reply?)
                 - (if step.DropQueue? then Count(s.b.queue.items, IsReply) else 0)
            && NextReleasing(s, step) == s.b.releasing - One(step.Release?)
               + One(Answering(s, step).Some? && !Kept(s, step))
  {
  }

  lemma RequestsKeepSlots(s: State, step: Step)
    requires TokenInv(s.r) && SlotInv(s) && Enabled(s, step)
    ensures var r := NextRequests(s, step);
            var t := Answering(s, step);
            && (t.Some? ==> t.value < |s.r.kinds|)
            && |r.live| == |s.r.live| + One(step.Exchange?) - One(t.Some?)
            && |Executes(r.live, r.kinds)| == |Executes(s.r.live, s.r.kinds)|
                 + One(step.Exchange? && s.r.callers[step.i].kind == Execute)
                 - One(t.Some? && s.r.kinds[t.value] == Execute)
  {
    var t := Answering(s, step);
    if t.Some? {
      AnsweredWasLive(s, step);
      ExecutesWithout(s.r.live, s.r.kinds, t.value);
    } else if step.Exchange? {
      ExecutesWith(s.r.live, s.r.kinds, s.r.callers[step.i].kind);
    }
  }

  /** The numbers a slot count is made of, after a step. */
  lemma SlotSum(s: State, step: Step)
    requires TokenInv(s.r) && SlotInv(s) && Enabled(s, step)
    ensures NextOutstanding(s, step)
            == |NextRequests(s, step).live| + Count(NextQueue(s, step).items, IsReply) + NextReleasing(s, step)
  {
    CountFollows(s, step, IsReply);
    CounterFollows(s, step);
    RequestsKeepSlots(s, step);
    if Answering(s, step).Some? {
      NeverDropped(s, step);
    } else {
      SayingIsNoReply(s, step);
    }
  }

  lemma SayingIsNoReply(s: State, step: Step)
    requires Enabled(s, step) && Answering(s, step).None?
    ensures Emitted(s, step).Some? ==> !Emitted(s, step).value.Reply?
  {
  }

  lemma ReserveLimit(s: State, step: Step)
    requires SlotInv(s) && Enabled(s, step)
    ensures NextOutstanding(s, step) <= s.limit + 1
  {
  }

  /** An execute's reply takes the place of the execute it answers. */
  lemma AnswerKeepsExecutes(s: State, step: Step)
    requires TokenInv(s.r) && Enabled(s, step) && Answering(s, step).Some? && Answering(s, step).value < |s.r.kinds|
    ensures IsExecuteReply(Emitted(s, step).value) <==> s.r.kinds[Answering(s, step).value] == Execute
    ensures !step.Exchange? && !step.Take? && !step.DropQueue?
  {
  }

  /** A new execute finds room under the limit. */
  lemma ExecuteFindsRoom(s: State, i: nat)
    requires SlotInv(s) && Enabled(s, Exchange(i)) && s.r.callers[i].kind == Execute
    ensures |Executes(s.r.live, s.r.kinds)| + Count(s.b.queue.items, IsExecuteReply) + 1 <= s.limit
  {
    ExecuteRepliesAreReplies(s.b.queue.items);
    ExecutesAreLive(s.r.live, s.r.kinds);
  }

  lemma ExecuteLimit(s: State, step: Step)
    requires TokenInv(s.r) && SlotInv(s) && Enabled(s, step)
    ensures var r := NextRequests(s, step);
            |Executes(r.live, r.kinds)| + Count(NextQueue(s, step).items, IsExecuteReply) <= s.limit
  {
    CountFollows(s, step, IsExecuteReply);
    RequestsKeepSlots(s, step);
    if Answering(s, step).Some? {
      AnswerKeepsExecutes(s, step);
    } else {
      SayingIsNoReply(s, step);
      if step.Exchange? && s.r.callers[step.i].kind == Execute {
        ExecuteFindsRoom(s, step.i);
      }
    }
  }

  /** Slots are conserved, and none is ever released that was not taken. */
  lemma StepKeepsSlots(s: State, step: Step)
    requires TokenInv(s.r) && SlotInv(s) && Enabled(s, step)
    ensures SlotInv(Next(s, step))
    ensures step.Release? || (step.Take? && s.b.queue.items[0].event.Reply?) ==> s.b.outstanding > 0
    ensures step.DropQueue? ==> Count(s.b.queue.items, IsReply) <= s.b.outstanding
  {
    SlotSum(s, step);
    ReserveLimit(s, step);
    ExecuteLimit(s, step);
    PushKeepsClosed(s, step);
  }

  lemma PushKeepsClosed(s: State, step: Step)
    requires Enabled(s, step) && (s.b.queue.closed ==> s.b.queue.items == [])
    ensures NextQueue(s, step).closed == (s.b.queue.closed || step.DropQueue?)
    ensures NextQueue(s, step).closed ==> NextQueue(s, step).items == []
  {
    var e := Emitted(s, step);
    if e.Some? {
      PushShape(s.b.queue, e.value, Answering(s, step).Some?, s.cap);
    }
  }

  // ------------------------------------------------------------------ starts and failed reads are covered by replies

  function MidExecute(w: Worker): nat {
    One(w.Busy? && w.command.kind == Execute && w.command.token.Some? && w.ran)
  }

  function MidFailure(w: Worker): nat {
    One(w.Busy? && w.readFailed)
  }

  /** In every suffix of the queue, each `Executing` and each failed read is followed by the reply
      of its own execute, or belongs to the one execute that is still running. */
  ghost predicate BalanceInv(s: State) {
    && Balanced(s.b.queue.items, IsExecuting, IsExecuteReply, MidExecute(s.r.worker))
    && Balanced(s.b.queue.items, IsFailedRead, IsExecuteReply, MidFailure(s.r.worker))
    && (s.r.worker.Busy? && s.r.worker.readFailed ==> MidExecute(s.r.worker) == 1)
  }

  /** What a step must satisfy for a balance to survive it. */
  ghost predicate Covers(s: State, step: Step, opens: Event -> bool, extra: nat, extra': nat)
    requires Enabled(s, step)
  {
    var e := Emitted(s, step);
    if Kept(s, step) then One(opens(e.value)) + extra <= One(IsExecuteReply(e.value)) + extra'
    else s.b.queue.closed || extra <= extra'
  }

  lemma BalanceFollows(s: State, step: Step, opens: Event -> bool, extra: nat, extra': nat)
    requires Enabled(s, step) && Stable(opens) && Balanced(s.b.queue.items, opens, IsExecuteReply, extra)
    requires (s.b.queue.closed ==> s.b.queue.items == []) && Covers(s, step, opens, extra, extra')
    ensures Balanced(NextQueue(s, step).items, opens, IsExecuteReply, extra')
  {
    var e := Emitted(s, step);
    if e.Some? {
      BalancedAfterPush(s.b.queue, e.value, Answering(s, step).Some?, s.cap, opens, IsExecuteReply, extra, extra');
    } else if !s.b.queue.closed {
      BalancedWiden(s.b.queue.items, opens, IsExecuteReply, extra, extra');
    }
  }

  /** A running execute ends only with its reply. */
  lemma ExecuteEndsWithReply(s: State, step: Step)
    requires TokenInv(s.r) && BalanceInv(s) && Enabled(s, step)
    ensures MidExecute(NextWorker(s, step)) < MidExecute(s.r.worker) ==>
              step.Answer? && Emitted(s, step).Some? && IsExecuteReply(Emitted(s, step).value)
    ensures MidFailure(NextWorker(s, step)) < MidFailure(s.r.worker) ==>
              step.Answer? && Emitted(s, step).Some? && IsExecuteReply(Emitted(s, step).value)
    ensures NextWorker(s, step).Busy? && NextWorker(s, step).readFailed ==> MidExecute(NextWorker(s, step)) == 1
  {
  }

  /** A start and a failed read are said only while their execute runs. */
  lemma StartsOpen(s: State, step: Step)
    requires TokenInv(s.r) && BalanceInv(s) && Enabled(s, step) && Emitted(s, step).Some?
    ensures IsExecuting(Emitted(s, step).value) ==> MidExecute(s.r.worker) == 0 && MidExecute(NextWorker(s, step)) == 1
    ensures IsFailedRead(Emitted(s, step).value) ==> MidFailure(s.r.worker) == 0 && MidFailure(NextWorker(s, step)) == 1
  {
  }

  lemma StartsStayBalanced(s: State, step: Step)
    requires TokenInv(s.r) && SlotInv(s) && BalanceInv(s) && Enabled(s, step)
    ensures Balanced(NextQueue(s, step).items, IsExecuting, IsExecuteReply, MidExecute(NextWorker(s, step)))
  {
    ExecuteEndsWithReply(s, step);
    if Emitted(s, step).Some? {
      StartsOpen(s, step);
      if Emitted(s, step).value.Reply? {
        NeverDropped(s, step);
      }
    }
    BalanceFollows(s, step, IsExecuting, MidExecute(s.r.worker), MidExecute(NextWorker(s, step)));
  }

  lemma FailuresStayBalanced(s: State, step: Step)
    requires TokenInv(s.r) && SlotInv(s) && BalanceInv(s) && Enabled(s, step)
    ensures Balanced(NextQueue(s, step).items, IsFailedRead, IsExecuteReply, MidFailure(NextWorker(s, step)))
  {
    ExecuteEndsWithReply(s, step);
    if Emitted(s, step).Some? {
      StartsOpen(s, step);
      if Emitted(s, step).value.Reply? {
        NeverDropped(s, step);
      }
    }
    BalanceFollows(s, step, IsFailedRead, MidFailure(s.r.worker), MidFailure(NextWorker(s, step)));
  }

  lemma StepKeepsBalance(s: State, step: Step)
    requires TokenInv(s.r) && SlotInv(s) && BalanceInv(s) && Enabled(s, step)
    ensures BalanceInv(Next(s, step))
  {
    StartsStayBalanced(s, step);
    FailuresStayBalanced(s, step);
    ExecuteEndsWithReply(s, step);
  }

  // ------------------------------------------------------------------ the capped and the single events

  predicate AllMine(q: seq<Queued<bool>>, session: SessionId) {
    forall i | 0 <= i < |q| :: q[i].event.session == session
  }

  ghost predicate ClassInv(s: State) {
    && AllMine(s.b.queue.items, s.session)
    && Count(s.b.queue.items, IsOrdinaryOutput) <= s.cap
    && Count(s.b.queue.items, IsState) <= 1
    && Count(s.b.queue.items, IsTerminal) + One(!s.f.terminalEmitted || s.r.worker.Announcing?) <= 1
    && (s.r.worker.Draining? ==> !s.f.terminalEmitted)
    && (s.r.worker.Announcing? || s.r.worker.Exited? ==> s.f.terminalEmitted)
  }

  lemma {:induction false} OrdinaryIsWaiting(q: seq<Queued<bool>>, session: SessionId)
    requires AllMine(q, session)
    ensures Count(q, IsOrdinaryOutput) <= Waiting(q, session)
    ensures FindState(q, session) < 0 ==> Count(q, IsState) == 0
  {
    if q != [] {
      OrdinaryIsWaiting(q[1..], session);
    }
  }

  lemma PushKeepsOwner(q: ListQueue<bool>, e: Event, slot: bool, cap: nat)
    requires AllMine(q.items, e.session)
    ensures AllMine(Push(q, e, slot, cap).after.items, e.session)
  {
    PushShape(q, e, slot, cap);
  }

  lemma StepKeepsOwner(s: State, step: Step)
    requires AllMine(s.b.queue.items, s.session) && Enabled(s, step)
    ensures AllMine(NextQueue(s, step).items, s.session)
  {
    if Emitted(s, step).Some? {
      OutputIsOurs(s, step);
      PushKeepsOwner(s.b.queue, Emitted(s, step).value, Answering(s, step).Some?, s.cap);
    }
  }

  lemma OutputsStayCapped(s: State, step: Step)
    requires AllMine(s.b.queue.items, s.session) && Count(s.b.queue.items, IsOrdinaryOutput) <= s.cap
             && Enabled(s, step)
    ensures Count(NextQueue(s, step).items, IsOrdinaryOutput) <= s.cap
  {
    CountFollows(s, step, IsOrdinaryOutput);
    if Kept(s, step) && IsOrdinaryOutput(Emitted(s, step).value) {
      OutputIsOurs(s, step);
      RoomForOutput(s.b.queue, Emitted(s, step).value, Answering(s, step).Some?, s.cap);
    }
  }

  lemma OutputIsOurs(s: State, step: Step)
    requires Enabled(s, step) && Emitted(s, step).Some?
    ensures Emitted(s, step).value.session == s.session
  {
  }

  /** Output is kept only below the cap. */
  lemma RoomForOutput(q: ListQueue<bool>, e: Event, slot: bool, cap: nat)
    requires AllMine(q.items, e.session) && IsOrdinaryOutput(e) && Push(q, e, slot, cap).kept
    ensures Count(q.items, IsOrdinaryOutput) < cap
  {
    OrdinaryIsWaiting(q.items, e.session);
  }

  lemma StatesStaySingle(s: State, step: Step)
    requires AllMine(s.b.queue.items, s.session) && Count(s.b.queue.items, IsState) <= 1 && Enabled(s, step)
    ensures Count(NextQueue(s, step).items, IsState) <= 1
  {
    CountFollows(s, step, IsState);
    if Kept(s, step) && IsState(Emitted(s, step).value) {
      OutputIsOurs(s, step);
      NoStateQueued(s.b.queue, Emitted(s, step).value, Answering(s, step).Some?, s.cap);
    }
  }

  /** A transaction state gets its own entry only when none is queued. */
  lemma NoStateQueued(q: ListQueue<bool>, e: Event, slot: bool, cap: nat)
    requires AllMine(q.items, e.session) && IsState(e) && Push(q, e, slot, cap).kept
    ensures Count(q.items, IsState) == 0
  {
    OrdinaryIsWaiting(q.items, e.session);
  }

  lemma TerminalFlags(s: State, step: Step)
    requires ClassInv(s) && Enabled(s, step)
    ensures var w, f := NextWorker(s, step), NextFlags(s, step);
            && (w.Draining? ==> !f.terminalEmitted)
            && (w.Announcing? || w.Exited? ==> f.terminalEmitted)
            && One(!f.terminalEmitted || w.Announcing?) + One(step.EmitTerminal?)
               <= One(!s.f.terminalEmitted || s.r.worker.Announcing?)
  {
  }

  lemma TerminalStaysSingle(s: State, step: Step)
    requires ClassInv(s) && Enabled(s, step)
    ensures var w, f := NextWorker(s, step), NextFlags(s, step);
            Count(NextQueue(s, step).items, IsTerminal) + One(!f.terminalEmitted || w.Announcing?) <= 1
  {
    CountFollows(s, step, IsTerminal);
    TerminalFlags(s, step);
    if Emitted(s, step).Some? && IsTerminal(Emitted(s, step).value) {
      TerminalIsSaid(s, step);
    }
  }

  lemma TerminalIsSaid(s: State, step: Step)
    requires Enabled(s, step) && Emitted(s, step).Some? && IsTerminal(Emitted(s, step).value)
    ensures step.EmitTerminal?
  {
  }

  lemma StepKeepsClasses(s: State, step: Step)
    requires ClassInv(s) && Enabled(s, step)
    ensures ClassInv(Next(s, step))
  {
    StepKeepsOwner(s, step);
    OutputsStayCapped(s, step);
    StatesStaySingle(s, step);
    TerminalStaysSingle(s, step);
    TerminalFlags(s, step);
  }
}
