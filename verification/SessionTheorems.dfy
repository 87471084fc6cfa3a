/** What holds in every reachable state of one session, whatever the interleaving. */
module SessionTheorems {
  import opened Events
  import opened SessionProtocol
  import opened SessionInvariants
  import opened SessionHistory
  import opened Wrappers

  // ------------------------------------------------------------------ runs

  /** Each step is possible where it is taken. */
  predicate Legal(s: State, steps: seq<Step>)
    decreases |steps|
  {
    steps == [] || (Enabled(s, steps[0]) && Legal(Next(s, steps[0]), steps[1..]))
  }

  function Run(s: State, steps: seq<Step>): State
    requires Legal(s, steps)
    decreases |steps|
  {
    if steps == [] then s else Run(Next(s, steps[0]), steps[1..])
  }

  ghost predicate Inv(s: State) {
    && s.limit > 0 && s.cap > 0
    && TokenInv(s.r) && SlotInv(s) && BalanceInv(s) && ClassInv(s)
    && ViewInv(s) && AccountInv(s) && QuietInv(s) && LogInv(s) && FifoInv(s) && OwedInv(s) && EndInv(s)
  }

  lemma InitHolds(s: State)
    requires Init(s)
    ensures Inv(s)
  {
    forall t: nat ensures Places(s.r, t) == One(t in s.r.live) {
      NoneReserved(s.r.callers, t);
    }
    assert forall i | 0 <= i < |s.r.callers| :: s.r.callers[i] in s.r.callers;
    assert Executes(s.r.live, s.r.kinds) == {};
  }

  lemma StepKeepsInv(s: State, step: Step)
    requires Inv(s) && Enabled(s, step)
    ensures Inv(Next(s, step))
  {
    StepKeepsTokens(s, step);
    StepKeepsSlots(s, step);
    StepKeepsBalance(s, step);
    StepKeepsClasses(s, step);
    StepKeepsView(s, step);
    StepKeepsAccount(s, step);
    StepKeepsQuiet(s, step);
    StepKeepsLog(s, step);
    StepKeepsFifo(s, step);
    StepKeepsOwed(s, step);
    StepKeepsEnd(s, step);
  }

  lemma {:induction false} RunKeepsInv(s: State, steps: seq<Step>)
    requires Inv(s) && Legal(s, steps)
    ensures Inv(Run(s, steps))
    ensures Run(s, steps).limit == s.limit && Run(s, steps).cap == s.cap && Run(s, steps).session == s.session
    decreases |steps|
  {
    if steps != [] {
      StepKeepsInv(s, steps[0]);
      RunKeepsInv(Next(s, steps[0]), steps[1..]);
    }
  }

  lemma Reached(s: State, steps: seq<Step>)
    requires Init(s) && Legal(s, steps)
    ensures var n := Run(s, steps); Inv(n) && n.limit == s.limit && n.cap == s.cap && n.session == s.session
  {
    InitHolds(s);
    RunKeepsInv(s, steps);
  }

  // ------------------------------------------------------------------ theorems over every run

  /** The published bound, class by class: R + 1 replies, R starts, R failed reads, U other outputs,
      one transaction state and one end, so 3R + U + 3 events in all. */
  lemma QueueIsBounded(s: State, steps: seq<Step>)
    requires Init(s) && Legal(s, steps)
    ensures var q := Run(s, steps).b.queue.items;
            && Count(q, IsReply) <= s.limit + 1
            && Count(q, IsExecuting) <= s.limit
            && Count(q, IsFailedRead) <= s.limit
            && Count(q, IsOrdinaryOutput) <= s.cap
            && Count(q, IsState) <= 1
            && Count(q, IsTerminal) <= 1
            && |q| <= 3 * s.limit + s.cap + 3
  {
    Reached(s, steps);
    InvBounds(Run(s, steps));
  }

  lemma InvBounds(n: State)
    requires Inv(n)
    ensures var q := n.b.queue.items;
            && Count(q, IsReply) <= n.limit + 1
            && Count(q, IsExecuting) <= n.limit
            && Count(q, IsFailedRead) <= n.limit
            && |q| <= 3 * n.limit + n.cap + 3
  {
    var w := n.r.worker;
    if MidExecute(w) == 1 {
      var t := w.command.token.value;
      assert Places(n.r, t) == One(t in n.r.live);
      assert t in Executes(n.r.live, n.r.kinds);
    }
    CountPartition(n.b.queue.items);
  }

  /** A slot is taken exactly while its request is unanswered, its reply is queued, or the release of
      a reply nobody can receive is under way. When the consumer has taken everything and nothing
      is in flight, every slot is back. */
  lemma SlotsAreConserved(s: State, steps: seq<Step>)
    requires Init(s) && Legal(s, steps)
    ensures var n := Run(s, steps);
            && n.b.outstanding == |n.r.live| + Count(n.b.queue.items, IsReply) + n.b.releasing
            && (forall t: nat :: Places(n.r, t) == One(t in n.r.live))
            && (n.r.live == {} && n.b.queue.items == [] && n.b.releasing == 0 ==> n.b.outstanding == 0)
  {
    Reached(s, steps);
  }

  /** Every accepted request is answered exactly once, or is still held in exactly one place; no
      token outside the accepted ones is ever answered. */
  lemma ExactlyOneReply(s: State, steps: seq<Step>, t: nat)
    requires Init(s) && Legal(s, steps)
    ensures var n := Run(s, steps);
            && Times(n.b.log, Answered(t)) + Places(n.r, t) == One(t < |n.r.kinds|)
            && Times(n.b.log, Started(t)) <= One(t < |n.r.kinds|)
  {
    Reached(s, steps);
    var n := Run(s, steps);
    assert Places(n.r, t) == One(t in n.r.live);
    assert Times(n.b.log, Answered(t)) == One(t < |n.r.kinds| && t !in n.r.live);
    assert Times(n.b.log, Started(t)) <= One(t < |n.r.kinds| && (t in n.r.live ==> Running(n.r.worker, t)));
  }

  /** `Executing` precedes its reply, and what is queued is the tail of what was produced. */
  lemma DeliveredInOrder(s: State, steps: seq<Step>)
    requires Init(s) && Legal(s, steps)
    ensures var b := Run(s, steps).b;
            && (forall i, j | 0 <= i < j < |b.log| && b.log[i].Answered? && b.log[j].Started? ::
                  b.log[i].token != b.log[j].token)
            && (!b.queue.closed ==> IsTail(MarksOf(b.queue.items), b.log))
  {
    Reached(s, steps);
    InOrder(Run(s, steps));
  }

  lemma InOrder(n: State)
    requires LogInv(n) && FifoInv(n)
    ensures forall i, j | 0 <= i < j < |n.b.log| && n.b.log[i].Answered? && n.b.log[j].Started? ::
              n.b.log[i].token != n.b.log[j].token
    ensures !n.b.queue.closed ==> IsTail(MarksOf(n.b.queue.items), n.b.log)
  {
  }

  /** The end is announced at most once, after the answer of every request that was queued when it
      was observed; the worker does not exit without it. */
  lemma EndIsAnnouncedOnce(s: State, steps: seq<Step>)
    requires Init(s) && Legal(s, steps)
    ensures var n := Run(s, steps);
            && Times(n.b.log, Ended) <= 1
            && (n.r.worker.Exited? ==> Times(n.b.log, Ended) == 1)
            && (forall i, t | 0 <= i < |n.b.log| && n.b.log[i] == Ended && t in n.owed :: Answered(t) in n.b.log[..i])
  {
    Reached(s, steps);
  }

  /** After the end a session produces no output, no transaction state and no second end. All it can
      still produce besides answers is the start of a statement, and only if it was lost, holds no
      connection and still takes requests, so that nothing of the statement reaches a server. An
      answer can be a success: of the close of a result or a large object, while the lost session still
      takes requests, or of a late close that finds a clean end on record. */
  lemma NothingRunsAfterEnd(s: State, steps: seq<Step>, step: Step)
    requires Init(s) && Legal(s, steps) && Enabled(Run(s, steps), step)
    requires Times(Run(s, steps).b.log, Ended) == 1
    ensures var n := Run(s, steps);
            && (Saying(n, step).Some? ==>
                  Saying(n, step).value.Executing? && n.f.lost && !n.f.connected && !n.f.receiverGone)
            && (Answering(n, step).Some? && Succeeds(n, step) ==>
                  || (AnswersKind(n, step) == Discard && n.f.lost && !n.f.connected && !n.f.receiverGone)
                  || (AnswersKind(n, step) == Close && n.f.endClean && n.f.receiverGone))
  {
    Reached(s, steps);
    var n := Run(s, steps);
    if Saying(n, step).Some? {
      SaidAfterEnd(n, step);
    }
    if Answering(n, step).Some? && Succeeds(n, step) {
      SucceededAfterEnd(n, step);
    }
  }

  lemma SaidAfterEnd(n: State, step: Step)
    requires QuietInv(n) && EndAnnounced(n.r.worker, n.f) && Enabled(n, step) && Saying(n, step).Some?
    ensures Saying(n, step).value.Executing? && n.f.lost && !n.f.connected && !n.f.receiverGone
  {
  }

  /** The kind of the request that this step answers. */
  function AnswersKind(n: State, step: Step): Kind
    requires Enabled(n, step) && Answering(n, step).Some?
  {
    match step
    case Send(i) => n.r.callers[i].command.kind
    case Settle(i) => n.r.callers[i].command.kind
    case Answer(_, _) => n.r.worker.command.kind
    case FailQueued => n.r.channel[0].kind
    case DropQueued => n.r.channel[0].kind
    case _ => Plain
  }

  lemma SucceededAfterEnd(n: State, step: Step)
    requires QuietInv(n) && OwedInv(n) && EndInv(n) && EndAnnounced(n.r.worker, n.f) && Enabled(n, step)
    requires Answering(n, step).Some? && Succeeds(n, step)
    ensures || (AnswersKind(n, step) == Discard && n.f.lost && !n.f.connected && !n.f.receiverGone)
            || (AnswersKind(n, step) == Close && n.f.endClean && n.f.receiverGone)
  {
  }

  /** Which answers are successes, in every run. A request at the worker succeeds exactly if the worker
      says so, which it can say only with the connection there, or of closing a result or a large object,
      or of the open itself; a close it answers with success is the one it leaves by. A request that the
      worker never got to, queued, dropped or found late, fails, unless it is a close and a clean end is
      on record. Nothing else ever changes what succeeded. */
  lemma SucceedsExactlyWhen(s: State, steps: seq<Step>, step: Step, t: nat)
    requires Init(s) && Legal(s, steps) && Enabled(Run(s, steps), step)
    ensures var n := Run(s, steps); var m := Next(n, step);
            && n.b.succeeded <= m.b.succeeded
            && (t in m.b.succeeded && t !in n.b.succeeded ==> Answered(t) !in n.b.log && Answered(t) in m.b.log)
            && (Answered(t) in m.b.log && Answered(t) !in n.b.log ==>
                  && t < |n.r.kinds|
                  && if WithWorker(n.r.worker, t) == 1
                     then (t in m.b.succeeded <==> SaysOk(step)) && (SaysOk(step) ==> MaySucceed(n, t, m))
                     else (t in m.b.succeeded <==> n.r.kinds[t] == Close && n.f.endClean))
  {
    Reached(s, steps);
    SuccessFollows(Run(s, steps), step, t);
  }

  predicate SaysOk(step: Step) { (step.OpenAnswered? && step.ok) || (step.Answer? && step.ok) }

  /** What the worker holds may succeed. */
  predicate MaySucceed(n: State, t: nat, m: State) {
    || n.r.worker.Opening?
    || (t < |n.r.kinds| && (n.f.connected || n.r.kinds[t] == Discard)
        && (n.r.kinds[t] == Close ==> n.f.endRecorded && m.r.worker == Ran(true)))
  }

  /** A new answer is that of the request being answered. */
  lemma NewAnswer(n: State, step: Step, t: nat)
    requires TokenInv(n.r) && LogInv(n) && EndInv(n) && Enabled(n, step)
    ensures Answered(t) in NextLog(n, step) && Answered(t) !in n.b.log <==> Answering(n, step) == Some(t)
    ensures t in n.b.succeeded ==> Answered(t) in n.b.log
  {
    LogFollows(n, step);
    AnswerProduced(n, step, t);
    assert Answered(t) in n.b.log <==> Answered(t) in multiset(n.b.log);
    assert Times(n.b.log, Answered(t)) == One(t < |n.r.kinds| && t !in n.r.live);
    if Answering(n, step) == Some(t) {
      AnsweredWasLive(n, step);
    }
  }

  /** Whose request the step answers: the worker's, or one it never got to. */
  lemma HeldByWorker(n: State, step: Step, t: nat)
    requires TokenInv(n.r) && Enabled(n, step) && Answering(n, step) == Some(t)
    ensures t < |n.r.kinds|
    ensures WithWorker(n.r.worker, t) == 1 <==> step.OpenAnswered? || step.Answer?
    ensures step.Send? || step.Settle? ==> n.r.kinds[t] == n.r.callers[step.i].command.kind
    ensures step.FailQueued? || step.DropQueued? ==> n.r.kinds[t] == n.r.channel[0].kind
    ensures step.Answer? ==> n.r.kinds[t] == n.r.worker.command.kind
  {
    AnsweredWasLive(n, step);
    assert Places(n.r, t) == One(t in n.r.live);
    if step.Send? || step.Settle? {
      WithCallersUpdate(n.r.callers, step.i, Away, t);
      assert Known(n.r, n.r.callers[step.i].command);
    }
  }

  lemma SuccessFollows(n: State, step: Step, t: nat)
    requires TokenInv(n.r) && LogInv(n) && EndInv(n) && Enabled(n, step)
    ensures var m := Next(n, step);
            && n.b.succeeded <= m.b.succeeded
            && (t in m.b.succeeded && t !in n.b.succeeded ==> Answered(t) !in n.b.log && Answered(t) in m.b.log)
            && (Answered(t) in m.b.log && Answered(t) !in n.b.log ==>
                  && t < |n.r.kinds|
                  && if WithWorker(n.r.worker, t) == 1
                     then (t in m.b.succeeded <==> SaysOk(step)) && (SaysOk(step) ==> MaySucceed(n, t, m))
                     else (t in m.b.succeeded <==> n.r.kinds[t] == Close && n.f.endClean))
  {
    NewAnswer(n, step, t);
    SucceededGrows(n, step);
    if Answering(n, step) == Some(t) {
      HeldByWorker(n, step, t);
      AnswerDecides(n, step);
    }
  }

  lemma SucceededGrows(n: State, step: Step)
    requires Enabled(n, step)
    ensures var m := Next(n, step); var answered := Answering(n, step);
            && m.b.log == NextLog(n, step)
            && m.b.succeeded == n.b.succeeded + (if answered.Some? && Succeeds(n, step) then {answered.value} else {})
  {
  }

  /** Success is decided by who answers. */
  lemma AnswerDecides(n: State, step: Step)
    requires Enabled(n, step) && Answering(n, step).Some?
    ensures step.OpenAnswered? || step.Answer? ==> (Succeeds(n, step) <==> step.ok)
    ensures step.Answer? && step.ok ==>
              && (n.f.connected || n.r.worker.command.kind == Discard)
              && (n.r.worker.command.kind == Close ==> n.f.endRecorded && NextWorker(n, step) == Ran(true))
    ensures step.Send? || step.Settle? ==>
              (Succeeds(n, step) <==> n.r.callers[step.i].command.kind == Close && n.f.endClean)
    ensures step.FailQueued? || step.DropQueued? ==>
              (Succeeds(n, step) <==> n.r.channel[0].kind == Close && n.f.endClean)
  {
  }

  /** What is still in the channel when a step answers it never succeeds, except a close of a session
      that ended cleanly. */
  lemma NothingQueuedSucceeds(s: State, steps: seq<Step>, step: Step, t: nat)
    requires Init(s) && Legal(s, steps) && Enabled(Run(s, steps), step) && t in Tokens(Run(s, steps).r.channel)
    ensures var n := Run(s, steps); var m := Next(n, step);
            t in m.b.succeeded ==> t < |n.r.kinds| && n.r.kinds[t] == Close && n.f.endClean
  {
    Reached(s, steps);
    var n := Run(s, steps);
    InChannelIffToken(n.r.channel, t);
    assert Places(n.r, t) == One(t in n.r.live);
    SuccessFollows(n, step, t);
    assert t in n.r.live && t !in n.b.succeeded;
  }

  /** Whenever no change is waiting to be announced, what the consumer will end up with is the truth:
      the queued transaction state if there is one, its last value otherwise. */
  lemma ViewIsNeverStale(s: State, steps: seq<Step>)
    requires Init(s) && Legal(s, steps)
    ensures var n := Run(s, steps);
            var q := n.b.queue.items;
            !n.b.queue.closed && !n.f.unannounced ==>
              if Count(q, IsState) == 0 then n.b.view == n.f.possiblyActive
              else exists i :: 0 <= i < |q| && q[i].event == TransactionState(n.session, n.f.possiblyActive)
  {
    Reached(s, steps);
    var n := Run(s, steps);
    var q := n.b.queue.items;
    if Count(q, IsState) > 0 {
      var i := FindState(q, n.session);
      OrdinaryIsWaiting(q, n.session);
      assert !n.b.queue.closed && !n.f.unannounced ==> q[i].event == TransactionState(n.session, n.f.possiblyActive);
    }
  }

  /** Every line offered was delivered, is queued, was or will be reported as dropped, or is owed a
      report; nothing is invented, and nothing is lost unless a 32-bit count saturated or the
      consumer was dropped. */
  lemma OutputIsNeverSilentlyLost(s: State, steps: seq<Step>)
    requires Init(s) && Legal(s, steps)
    ensures var b := Run(s, steps).b;
            && b.delivered + Accounted(b.queue, s.session) <= b.offered
            && (!b.forgot ==> b.delivered + Accounted(b.queue, s.session) == b.offered)
  {
    Reached(s, steps);
  }

  /** When the worker has exited and no caller is between reserving and sending, every accepted
      request has had its one reply and the end has been announced. */
  lemma ExitLeavesNothingOwed(s: State, steps: seq<Step>)
    requires Init(s) && Legal(s, steps) && Run(s, steps).r.worker.Exited?
    requires forall c | c in Run(s, steps).r.callers :: !c.Reserved?
    ensures var n := Run(s, steps);
            && n.r.live == {}
            && Times(n.b.log, Ended) == 1
            && (forall t: nat | t < |n.r.kinds| :: Times(n.b.log, Answered(t)) == 1)
  {
    Reached(s, steps);
    var n := Run(s, steps);
    forall t: nat ensures t !in n.r.live {
      NoneReserved(n.r.callers, t);
      assert Places(n.r, t) == One(t in n.r.live);
    }
  }

  lemma {:induction false} NoneReserved(callers: seq<Caller>, t: nat)
    requires forall c | c in callers :: !c.Reserved?
    ensures WithCallers(callers, t) == 0
  {
    if callers != [] {
      assert callers[0] in callers;
      NoneReserved(callers[1..], t);
    }
  }

  /** One more step at the end of a run. */
  lemma {:induction false} Extend(s: State, steps: seq<Step>, step: Step)
    requires Legal(s, steps) && Enabled(Run(s, steps), step)
    ensures Legal(s, steps + [step]) && Run(s, steps + [step]) == Next(Run(s, steps), step)
    decreases |steps|
  {
    if steps == [] {
      assert steps + [step] == [step] && [step][1..] == [];
    } else {
      assert (steps + [step])[1..] == steps[1..] + [step];
      Extend(Next(s, steps[0]), steps[1..], step);
    }
  }
}
