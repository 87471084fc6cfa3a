/** What every run of `SessionProtocol` has produced so far: one reply per request, one end, in order,
    and a consumer whose view of the transaction is never stale. */
module SessionHistory {
  import opened Events
  import opened SessionProtocol
  import opened SessionInvariants
  import opened Wrappers

  // ------------------------------------------------------------------ the consumer's view of the transaction

  /** Once a change has been announced, the queued transaction state is the true one; with none
      queued, the last value the consumer took is. */
  ghost predicate ViewInv(s: State) {
    !s.b.queue.closed && !s.f.unannounced ==>
      var q := s.b.queue.items;
      && (forall i | 0 <= i < |q| && q[i].event.TransactionState? :: q[i].event.possiblyActive == s.f.possiblyActive)
      && (Count(q, IsState) == 0 ==> s.b.view == s.f.possiblyActive)
  }

  lemma {:induction false} CountedOnce(q: seq<Queued<bool>>, i: nat, p: Event -> bool)
    requires i < |q| && p(q[i].event)
    ensures Count(q, p) >= 1
    ensures Count(q, p) <= 1 ==> forall j | 0 <= j < |q| && p(q[j].event) :: j == i
  {
    assert q == q[..i] + [q[i]] + q[i + 1..];
    CountConcat(q[..i] + [q[i]], q[i + 1..], p);
    CountConcat(q[..i], [q[i]], p);
    assert [q[i]][1..] == [];
    forall j | 0 <= j < |q| && p(q[j].event) && j != i ensures Count(q, p) >= 2 {
      if j < i {
        CountedSome(q[..i], j, p);
      } else {
        CountedSome(q[i + 1..], j - i - 1, p);
      }
    }
  }

  lemma {:induction false} CountedSome(q: seq<Queued<bool>>, i: nat, p: Event -> bool)
    requires i < |q| && p(q[i].event)
    ensures Count(q, p) >= 1
  {
    if i > 0 {
      CountedSome(q[1..], i - 1, p);
    }
  }

  /** After the state is announced, it is the only one queued and it is the true one. */
  lemma AnnouncedState(s: State)
    requires ClassInv(s) && Enabled(s, EmitState) && !s.b.queue.closed
    ensures var q := NextQueue(s, EmitState).items;
            && Count(q, IsState) == 1
            && (forall i | 0 <= i < |q| && q[i].event.TransactionState? ::
               q[i].event.possiblyActive == s.f.possiblyActive)
  {
    var e := TransactionState(s.session, s.f.possiblyActive);
    var q := NextQueue(s, EmitState).items;
    var i := FindState(s.b.queue.items, s.session);
    CountFollows(s, EmitState, IsState);
    OrdinaryIsWaiting(s.b.queue.items, s.session);
    if 0 <= i {
      CountedOnce(s.b.queue.items, i, IsState);
      assert q == s.b.queue.items[i := s.b.queue.items[i].(event := e)];
    } else {
      assert q == s.b.queue.items + [Queued(e, false)];
    }
  }

  lemma TakeKeepsView(s: State)
    requires ClassInv(s) && ViewInv(s) && Enabled(s, Take)
    ensures ViewInv(Next(s, Take))
  {
  }

  /** Any other step leaves the queued states as they are, and changes the flag only by leaving the
      change unannounced. */
  lemma QuietStepKeepsView(s: State, step: Step)
    requires ViewInv(s) && Enabled(s, step) && !step.EmitState? && !step.Take? && !step.DropQueue?
    requires !NextQueue(s, step).closed && !NextFlags(s, step).unannounced
    ensures ViewInv(Next(s, step))
  {
    CountFollows(s, step, IsState);
    OtherEmitsKeepStates(s, step);
    StillAnnounced(s, step);
  }

  lemma StillAnnounced(s: State, step: Step)
    requires Enabled(s, step) && !step.EmitState? && !NextFlags(s, step).unannounced
    ensures !s.f.unannounced && NextFlags(s, step).possiblyActive == s.f.possiblyActive
  {
    if !step.Track? {
      assert NextFlags(s, step).unannounced == s.f.unannounced;
    }
  }

  lemma StepKeepsView(s: State, step: Step)
    requires SlotInv(s) && ClassInv(s) && ViewInv(s) && Enabled(s, step)
    ensures ViewInv(Next(s, step))
  {
    if step.EmitState? {
      if !s.b.queue.closed {
        AnnouncedState(s);
      }
      PushKeepsClosed(s, step);
    } else if step.Take? {
      TakeKeepsView(s);
    } else if !NextQueue(s, step).closed && !NextFlags(s, step).unannounced {
      PushKeepsClosed(s, step);
      QuietStepKeepsView(s, step);
    }
  }

  /** Every queued state was queued before. */
  predicate OldStates(q: seq<Queued<bool>>, before: seq<Queued<bool>>) {
    forall i | 0 <= i < |q| && q[i].event.TransactionState? :: q[i] in before
  }

  lemma PushKeepsStates(q: ListQueue<bool>, e: Event, slot: bool, cap: nat)
    requires !e.TransactionState?
    ensures OldStates(Push(q, e, slot, cap).after.items, q.items)
  {
    PushShape(q, e, slot, cap);
  }

  lemma OtherEmits(s: State, step: Step)
    requires Enabled(s, step) && !step.EmitState? && Emitted(s, step).Some?
    ensures !Emitted(s, step).value.TransactionState?
  {
  }

  lemma OtherEmitsKeepStates(s: State, step: Step)
    requires Enabled(s, step) && !step.EmitState?
    ensures OldStates(NextQueue(s, step).items, s.b.queue.items)
  {
    var e := Emitted(s, step);
    if e.Some? {
      OtherEmits(s, step);
      PushKeepsStates(s.b.queue, e.value, Answering(s, step).Some?, s.cap);
    }
  }

  // ------------------------------------------------------------------ output is accounted for

  ghost predicate AccountInv(s: State) {
    && s.b.delivered + Accounted(s.b.queue, s.session) <= s.b.offered
    && (!s.b.forgot ==> s.b.delivered + Accounted(s.b.queue, s.session) == s.b.offered)
    && Owed(s.b.queue.owed, s.session) <= U32_MAX
    && (s.b.queue.closed ==> s.b.forgot)
  }

  lemma OwedStaysSmall(q: ListQueue<bool>, e: Event, slot: bool, cap: nat, session: SessionId)
    requires Owed(q.owed, session) <= U32_MAX
    ensures Owed(Push(q, e, slot, cap).after.owed, session) <= U32_MAX
  {
  }

  /** Pushing anything but output, or nothing, leaves the account alone. */
  lemma QuietStepKeepsAccount(s: State, step: Step)
    requires Enabled(s, step) && !step.Take? && !step.DropQueue? && !step.Print? && !step.FailRead?
    requires Owed(s.b.queue.owed, s.session) <= U32_MAX
    ensures Accounted(NextQueue(s, step), s.session) == Accounted(s.b.queue, s.session)
    ensures Owed(NextQueue(s, step).owed, s.session) <= U32_MAX
  {
    var e := Emitted(s, step);
    if e.Some? {
      OwedStaysSmall(s.b.queue, e.value, Answering(s, step).Some?, s.cap, s.session);
      OtherPushKeepsAccounts(s.b.queue, e.value, Answering(s, step).Some?, s.cap, s.session);
    }
  }

  lemma OutputStepKeepsAccount(s: State, step: Step)
    requires AccountInv(s) && Enabled(s, step) && (step.Print? || step.FailRead?)
    ensures AccountInv(Next(s, step))
  {
    var e := Saying(s, step).value;
    OwedStaysSmall(s.b.queue, e, false, s.cap, s.session);
    if !s.b.queue.closed {
      OutputIsAccountedFor(s.b.queue, e, false, s.cap);
    }
  }

  lemma TakeKeepsAccount(s: State)
    requires AccountInv(s) && AllMine(s.b.queue.items, s.session) && Enabled(s, Take)
    ensures AccountInv(Next(s, Take))
  {
  }

  lemma StepKeepsAccount(s: State, step: Step)
    requires AccountInv(s) && SlotInv(s) && AllMine(s.b.queue.items, s.session) && Enabled(s, step)
    ensures AccountInv(Next(s, step))
  {
    if step.Take? {
      TakeKeepsAccount(s);
    } else if step.Print? || step.FailRead? {
      OutputStepKeepsAccount(s, step);
    } else if !step.DropQueue? {
      QuietStepKeepsAccount(s, step);
      PushKeepsClosed(s, step);
    }
  }

  // ------------------------------------------------------------------ nothing unsolicited follows the end

  ghost predicate QuietInv(s: State) {
    var w := s.r.worker;
    && (s.f.unannounced ==> w.Busy?)
    && (w.Draining? || w.Dropping? || w.Ending? || w.Announcing? || w.Exited? ==> !s.f.connected)
    && (s.f.terminalEmitted ==> !s.f.connected && !s.f.unannounced)
    && (!s.f.connected ==> s.f.lost || s.f.receiverGone)
    && (s.f.receiverGone ==> w.Dropping? || w.Ending? || w.Exited? || w == Announcing(true))
  }

  lemma QuietWorker(s: State, step: Step)
    requires QuietInv(s) && Enabled(s, step)
    ensures var w, f := NextWorker(s, step), NextFlags(s, step);
            && (w.Draining? || w.Dropping? || w.Ending? || w.Announcing? || w.Exited? ==> !f.connected)
            && (f.receiverGone ==> w.Dropping? || w.Ending? || w.Exited? || w == Announcing(true))
  {
  }

  lemma QuietFlags(s: State, step: Step)
    requires QuietInv(s) && Enabled(s, step)
    ensures var w, f := NextWorker(s, step), NextFlags(s, step);
            && (f.unannounced ==> w.Busy?)
            && (f.terminalEmitted ==> !f.connected && !f.unannounced)
            && (!f.connected ==> f.lost || f.receiverGone)
  {
  }

  lemma StepKeepsQuiet(s: State, step: Step)
    requires QuietInv(s) && Enabled(s, step)
    ensures QuietInv(Next(s, step))
  {
    QuietWorker(s, step);
    QuietFlags(s, step);
  }

  /** The worker is running a close, or is on its way out. */
  predicate Closing(w: Worker) {
    (w.Busy? && w.command.kind == Close) || w == Ran(true)
  }

  /** An end on record is that of a worker that is leaving; a clean one was recorded before the end
      was announced. */
  ghost predicate EndInv(s: State) {
    && (s.f.endClean ==> s.f.endRecorded)
    && (s.f.endRecorded ==> Closing(s.r.worker) || s.f.receiverGone)
    && (s.f.endClean && s.f.terminalEmitted ==> s.r.worker == Announcing(true) || s.r.worker.Exited?)
    && (s.r.worker.Opening? ==> !s.f.terminalEmitted)
    && AllReserved(s.r.callers)
    && AllAnswered(s.r, s.b.succeeded)
  }

  /** What a caller reserved a slot for has a token. */
  predicate AllReserved(callers: seq<Caller>) {
    forall i | 0 <= i < |callers| && callers[i].Reserved? :: callers[i].command.token.Some?
  }

  /** Requests that were accepted and answered. */
  predicate AllAnswered(r: Requests, tokens: set<nat>) {
    forall t | t in tokens :: t < |r.kinds| && t !in r.live
  }

  lemma AnsweredStay(s: State, step: Step)
    requires TokenInv(s.r) && AllAnswered(s.r, s.b.succeeded) && Enabled(s, step)
    ensures AllAnswered(NextRequests(s, step), NextSucceeded(s, step))
  {
    if Answering(s, step).Some? {
      AnsweredWasLive(s, step);
    }
  }

  lemma ReservedStay(s: State, step: Step)
    requires AllReserved(s.r.callers) && Enabled(s, step)
    ensures AllReserved(NextCallers(s, step))
  {
  }

  lemma EndStaysRecorded(s: State, step: Step)
    requires QuietInv(s) && OwedInv(s) && EndInv(s) && Enabled(s, step)
    ensures var w, f := NextWorker(s, step), NextFlags(s, step);
            && (f.endClean ==> f.endRecorded)
            && (f.endRecorded ==> Closing(w) || f.receiverGone)
            && (f.endClean && f.terminalEmitted ==> w == Announcing(true) || w.Exited?)
            && (w.Opening? ==> !f.terminalEmitted)
  {
  }

  lemma StepKeepsEnd(s: State, step: Step)
    requires TokenInv(s.r) && QuietInv(s) && OwedInv(s) && EndInv(s) && Enabled(s, step)
    ensures EndInv(Next(s, step))
  {
    EndStaysRecorded(s, step);
    AnsweredStay(s, step);
    ReservedStay(s, step);
  }

  // ------------------------------------------------------------------ one reply per request, one end per session

  /** How often `m` was produced. */
  function Times(log: seq<Mark>, m: Mark): nat {
    multiset(log)[m]
  }

  predicate Running(w: Worker, t: nat) {
    w.Busy? && w.command.token == Some(t) && w.ran
  }

  ghost predicate LogInv(s: State) {
    var log := s.b.log;
    && (forall t: nat :: Times(log, Answered(t)) == One(t < |s.r.kinds| && t !in s.r.live))
    && (forall t: nat :: Times(log, Started(t)) <= One(t < |s.r.kinds| && (t in s.r.live ==> Running(s.r.worker, t))))
    && Times(log, Ended) == One(EndAnnounced(s.r.worker, s.f))
    && (forall i, j | 0 <= i < j < |log| && log[i].Answered? && log[j].Started? :: log[i].token != log[j].token)
  }

  lemma TimesAppend(log: seq<Mark>, m: Mark, x: Mark)
    ensures Times(log + [x], m) == Times(log, m) + One(x == m)
  {
    assert multiset(log + [x]) == multiset(log) + multiset{x};
  }

  lemma LogFollows(s: State, step: Step)
    requires Enabled(s, step)
    ensures NextLog(s, step) == s.b.log + Produced(s, step)
  {
    assert s.b.log + [] == s.b.log;
  }

  lemma AnswersFollow(s: State, step: Step, t: nat)
    requires TokenInv(s.r) && LogInv(s) && Enabled(s, step)
    ensures var r := NextRequests(s, step);
            Times(NextLog(s, step), Answered(t)) == One(t < |r.kinds| && t !in r.live)
  {
    LogTimes(s, step, Answered(t));
    assert Times(s.b.log, Answered(t)) == One(t < |s.r.kinds| && t !in s.r.live);
    AnswerProduced(s, step, t);
    LiveFollows(s, step, t);
  }

  lemma AnswerProduced(s: State, step: Step, t: nat)
    requires Enabled(s, step)
    ensures Answered(t) in Produced(s, step) <==> Answering(s, step) == Some(t)
  {
  }

  lemma LiveFollows(s: State, step: Step, t: nat)
    requires TokenInv(s.r) && Enabled(s, step)
    ensures var r := NextRequests(s, step);
            One(t < |r.kinds| && t !in r.live)
            == One(t < |s.r.kinds| && t !in s.r.live) + One(Answering(s, step) == Some(t))
  {
    if Answering(s, step).Some? {
      AnsweredWasLive(s, step);
    }
  }

  lemma LogTimes(s: State, step: Step, m: Mark)
    requires Enabled(s, step)
    ensures Times(NextLog(s, step), m) == Times(s.b.log, m) + One(m in Produced(s, step))
  {
    LogFollows(s, step);
    var made := Produced(s, step);
    if made != [] {
      TimesAppend(s.b.log, m, made[0]);
    } else {
      assert s.b.log + made == s.b.log;
    }
  }

  lemma StartIsNew(s: State, t: nat)
    requires Enabled(s, StartExecute) && AllKnown(s.r) && Places(s.r, t) == One(t in s.r.live)
    requires s.r.worker.command.token == Some(t)
    requires Times(s.b.log, Started(t)) <= One(t < |s.r.kinds| && (t in s.r.live ==> Running(s.r.worker, t)))
    ensures Times(s.b.log, Started(t)) == 0 && t < |s.r.kinds| && Running(NextWorker(s, StartExecute), t)
  {
  }

  lemma StartsFollow(s: State, step: Step, t: nat)
    requires Enabled(s, step) && AllKnown(s.r) && Places(s.r, t) == One(t in s.r.live)
    requires Times(s.b.log, Started(t)) <= One(t < |s.r.kinds| && (t in s.r.live ==> Running(s.r.worker, t)))
    ensures var r := NextRequests(s, step);
            Times(NextLog(s, step), Started(t)) <= One(t < |r.kinds| && (t in r.live ==> Running(r.worker, t)))
  {
    LogTimes(s, step, Started(t));
    if step.StartExecute? && s.r.worker.command.token == Some(t) {
      StartIsNew(s, t);
    } else {
      OldStartStays(s, step, t);
    }
  }

  lemma OldStartStays(s: State, step: Step, t: nat)
    requires Enabled(s, step) && !(step.StartExecute? && s.r.worker.command.token == Some(t))
    ensures Started(t) !in Produced(s, step)
    ensures var r := NextRequests(s, step);
            t < |s.r.kinds| && (t in s.r.live ==> Running(s.r.worker, t)) ==>
              t < |r.kinds| && (t in r.live ==> Running(r.worker, t))
  {
  }

  predicate EndAnnounced(w: Worker, f: Flags) {
    f.terminalEmitted && !w.Announcing?
  }

  lemma EndProduced(s: State, step: Step)
    requires Enabled(s, step)
    ensures Ended in Produced(s, step) <==> step.EmitTerminal?
  {
  }

  lemma EndAnnouncedFollows(s: State, step: Step)
    requires Enabled(s, step)
    requires s.r.worker.Draining? ==> !s.f.terminalEmitted
    requires s.r.worker.Announcing? ==> s.f.terminalEmitted
    ensures One(EndAnnounced(NextWorker(s, step), NextFlags(s, step)))
            == One(EndAnnounced(s.r.worker, s.f)) + One(step.EmitTerminal?)
  {
  }

  lemma EndsFollow(s: State, step: Step)
    requires Enabled(s, step) && ClassInv(s) && Times(s.b.log, Ended) == One(EndAnnounced(s.r.worker, s.f))
    ensures Times(NextLog(s, step), Ended) == One(EndAnnounced(NextWorker(s, step), NextFlags(s, step)))
  {
    LogTimes(s, step, Ended);
    EndProduced(s, step);
    EndAnnouncedFollows(s, step);
  }

  lemma StartsPrecedeAnswers(s: State, step: Step)
    requires TokenInv(s.r) && LogInv(s) && Enabled(s, step)
    ensures var log := NextLog(s, step);
            forall i, j | 0 <= i < j < |log| && log[i].Answered? && log[j].Started? :: log[i].token != log[j].token
  {
    LogFollows(s, step);
    var log := s.b.log;
    var made := Produced(s, step);
    if made != [] && made[0].Started? {
      var t := made[0].token;
      assert Places(s.r, t) == One(t in s.r.live);
      assert Times(log, Answered(t)) == 0;
      assert forall i | 0 <= i < |log| :: log[i] in multiset(log);
    }
  }

  lemma StepKeepsLog(s: State, step: Step)
    requires TokenInv(s.r) && ClassInv(s) && LogInv(s) && Enabled(s, step)
    ensures LogInv(Next(s, step))
  {
    var n := Next(s, step);
    forall t: nat ensures Times(n.b.log, Answered(t)) == One(t < |n.r.kinds| && t !in n.r.live) {
      AnswersFollow(s, step, t);
    }
    forall t: nat
      ensures Times(n.b.log, Started(t)) <= One(t < |n.r.kinds| && (t in n.r.live ==> Running(n.r.worker, t)))
    {
      assert Places(s.r, t) == One(t in s.r.live);
      StartsFollow(s, step, t);
    }
    EndsFollow(s, step);
    StartsPrecedeAnswers(s, step);
  }

  // ------------------------------------------------------------------ delivery is in production order

  function MarksOf(q: seq<Queued<bool>>): seq<Mark> {
    if q == [] then []
    else
      var rest := MarksOf(q[1..]);
      match q[0].event
      case Reply(_, t, _) => [Answered(t)] + rest
      case Executing(_, t) => [Started(t)] + rest
      case Terminal(_, _) => [Ended] + rest
      case _ => rest
  }

  /** What is still queued of the never-dropped events is the tail of what was produced. */
  ghost predicate FifoInv(s: State) {
    !s.b.queue.closed ==> IsTail(MarksOf(s.b.queue.items), s.b.log)
  }

  predicate IsTail(m: seq<Mark>, log: seq<Mark>) {
    |m| <= |log| && log[|log| - |m|..] == m
  }

  lemma {:induction false} MarksConcat(a: seq<Queued<bool>>, b: seq<Queued<bool>>)
    ensures MarksOf(a + b) == MarksOf(a) + MarksOf(b)
  {
    if a == [] {
      assert a + b == b;
    } else {
      assert (a + b)[1..] == a[1..] + b;
      MarksConcat(a[1..], b);
    }
  }

  lemma {:induction false} MarksUpdate(q: seq<Queued<bool>>, i: nat, x: Queued<bool>)
    requires i < |q| && q[i].event.TransactionState? && x.event.TransactionState?
    ensures MarksOf(q[i := x]) == MarksOf(q)
  {
    if i == 0 {
      assert q[i := x][1..] == q[1..];
    } else {
      assert q[i := x][1..] == q[1..][i - 1 := x];
      MarksUpdate(q[1..], i - 1, x);
    }
  }

  lemma MarksFollow(s: State, step: Step)
    requires Enabled(s, step) && !s.b.queue.closed && !step.Take? && !step.DropQueue?
    ensures MarksOf(NextQueue(s, step).items) == MarksOf(s.b.queue.items) + Produced(s, step)
  {
    var e := Emitted(s, step);
    var q, q' := s.b.queue.items, NextQueue(s, step).items;
    if e.Some? {
      PushShape(s.b.queue, e.value, Answering(s, step).Some?, s.cap);
      if Kept(s, step) {
        MarksConcat(q, [q'[|q|]]);
        assert [q'[|q|]][1..] == [];
      } else if q' != q {
        var i := FindState(q, e.value.session);
        MarksUpdate(q, i, q'[i]);
      }
    }
  }

  lemma TailAppend(log: seq<Mark>, m: seq<Mark>, made: seq<Mark>)
    requires IsTail(m, log)
    ensures IsTail(m + made, log + made)
  {
  }

  lemma TailOfTail(log: seq<Mark>, m: seq<Mark>)
    requires IsTail(m, log) && m != []
    ensures IsTail(m[1..], log)
  {
  }

  lemma MarksAfterTake(q: seq<Queued<bool>>)
    requires q != []
    ensures var m, m' := MarksOf(q), MarksOf(q[1..]); m == m' || (m != [] && m[1..] == m')
  {
  }

  lemma TakeKeepsFifo(q: seq<Queued<bool>>, log: seq<Mark>)
    requires q != [] && IsTail(MarksOf(q), log)
    ensures IsTail(MarksOf(q[1..]), log)
  {
    MarksAfterTake(q);
    if MarksOf(q) != [] {
      TailOfTail(log, MarksOf(q));
    }
  }

  lemma PushKeepsFifo(s: State, step: Step)
    requires FifoInv(s) && Enabled(s, step) && !s.b.queue.closed && !step.Take? && !step.DropQueue?
    ensures IsTail(MarksOf(NextQueue(s, step).items), NextLog(s, step))
  {
    LogFollows(s, step);
    MarksFollow(s, step);
    TailAppend(s.b.log, MarksOf(s.b.queue.items), Produced(s, step));
  }

  lemma StepKeepsFifo(s: State, step: Step)
    requires FifoInv(s) && SlotInv(s) && Enabled(s, step)
    ensures FifoInv(Next(s, step))
  {
    PushKeepsClosed(s, step);
    if !s.b.queue.closed && step.Take? {
      TakeKeepsFifo(s.b.queue.items, s.b.log);
    } else if !s.b.queue.closed && !step.DropQueue? {
      PushKeepsFifo(s, step);
    }
  }

  // ------------------------------------------------------------------ the end comes after what was queued

  predicate StillOwed(r: Requests, t: nat) {
    InChannel(r.channel, t) + WithWorker(r.worker, t) == 1
  }

  predicate Leaving(w: Worker) {
    w.Ending? || w.Exited? || (w.Announcing? && w.exits)
  }

  /** A request that was queued when the end was observed is still on its way to an answer, or was
      answered, and was answered before the end was announced. */
  ghost predicate OwedInv(s: State) {
    && (forall t | t in s.owed :: t < |s.r.kinds| && (t in s.r.live ==> StillOwed(s.r, t)))
    && (s.r.worker.Dropping? || Leaving(s.r.worker) ==> s.f.receiverGone)
    && (Leaving(s.r.worker) ==> s.r.channel == [])
    && (s.f.terminalEmitted ==> s.owed !! s.r.live)
    && (forall i, t | 0 <= i < |s.b.log| && s.b.log[i] == Ended && t in s.owed :: Answered(t) in s.b.log[..i])
  }

  lemma {:induction false} InChannelIffToken(channel: seq<Command>, t: nat)
    ensures t in Tokens(channel) ==> InChannel(channel, t) >= 1
  {
    if t in Tokens(channel) {
      var c :| c in channel && c.token == Some(t);
      if channel[0] != c {
        assert c in channel[1..] && t in Tokens(channel[1..]);
        InChannelIffToken(channel[1..], t);
      }
    }
  }

  /** What one token owes in the channel and at the worker, step by step. */
  lemma PlacesAhead(s: State, step: Step, t: nat)
    requires TokenInv(s.r) && Enabled(s, step) && t in s.r.live
             && InChannel(s.r.channel, t) + WithWorker(s.r.worker, t) == 1
    requires Answering(s, step) != Some(t)
    ensures InChannel(NextChannel(s, step), t) + WithWorker(NextWorker(s, step), t) == 1
  {
    assert Places(s.r, t) == One(t in s.r.live);
    if step.Send? {
      WithCallersUpdate(s.r.callers, step.i, Away, t);
    }
    if |NextChannel(s, step)| > |s.r.channel| {
      InChannelAppend(s.r.channel, NextChannel(s, step)[|s.r.channel|], t);
    }
  }

  lemma OwedTokensFollow(s: State, step: Step, t: nat)
    requires TokenInv(s.r) && OwedInv(s) && Enabled(s, step) && t in NextOwed(s, step)
    ensures var r := NextRequests(s, step);
            t < |r.kinds| && (t in r.live ==> StillOwed(r, t))
  {
    assert Places(s.r, t) == One(t in s.r.live);
    if t !in s.owed {
      InChannelIffToken(s.r.channel, t);
    }
    if t in s.r.live && Answering(s, step) != Some(t) {
      PlacesAhead(s, step, t);
    }
  }

  /** After the end nothing more is owed, so an end already announced stays behind everything owed. */
  lemma OldEndStaysLast(s: State, step: Step, i: nat, t: nat)
    requires LogInv(s) && OwedInv(s) && Enabled(s, step)
    requires i < |s.b.log| && s.b.log[i] == Ended && t in NextOwed(s, step)
    ensures Answered(t) in s.b.log[..i]
  {
    assert s.b.log[i] in multiset(s.b.log);
    assert s.f.terminalEmitted;
  }

  lemma NewEndComesLast(s: State, t: nat)
    requires LogInv(s) && OwedInv(s) && ClassInv(s) && Enabled(s, EmitTerminal) && t in s.owed
    ensures Answered(t) in s.b.log
  {
    assert Times(s.b.log, Answered(t)) == One(t < |s.r.kinds| && t !in s.r.live);
    assert Answered(t) in multiset(s.b.log);
  }

  lemma EndComesLast(s: State, step: Step)
    requires LogInv(s) && OwedInv(s) && ClassInv(s) && Enabled(s, step)
    ensures var log := NextLog(s, step);
            forall i, t | 0 <= i < |log| && log[i] == Ended && t in NextOwed(s, step) :: Answered(t) in log[..i]
  {
    LogFollows(s, step);
    var log, log' := s.b.log, NextLog(s, step);
    forall i, t | 0 <= i < |log'| && log'[i] == Ended && t in NextOwed(s, step) ensures Answered(t) in log'[..i] {
      if i < |log| {
        OldEndStaysLast(s, step, i, t);
        assert log'[..i] == log[..i];
      } else {
        EndProduced(s, step);
        NewEndComesLast(s, t);
        assert log'[..i] == log;
      }
    }
  }

  lemma LeavingFollows(s: State, step: Step)
    requires OwedInv(s) && Enabled(s, step)
    ensures var w, f := NextWorker(s, step), NextFlags(s, step);
            && (w.Dropping? || Leaving(w) ==> f.receiverGone)
            && (Leaving(w) ==> NextChannel(s, step) == [])
  {
  }

  /** A step after the end owes nothing new and revives nothing. */
  lemma OwedStaysSettled(s: State, step: Step, t: nat)
    requires OwedInv(s) && Enabled(s, step) && s.f.terminalEmitted && t in NextOwed(s, step)
    ensures t !in NextRequests(s, step).live
  {
    assert t in s.owed && t !in s.r.live;
  }

  /** When the end is claimed, nothing that was owed is still unanswered. */
  lemma OwedIsSettled(s: State, step: Step, t: nat)
    requires TokenInv(s.r) && OwedInv(s) && Enabled(s, step) && !s.f.terminalEmitted
             && NextFlags(s, step).terminalEmitted
    requires t in NextOwed(s, step)
    ensures t !in NextRequests(s, step).live
  {
    assert step.QueueEmpty? || step.Announce?;
    assert t in s.owed && NextRequests(s, step).live == s.r.live;
    assert WithWorker(s.r.worker, t) == 0 && InChannel(s.r.channel, t) == 0;
  }

  lemma StepKeepsOwed(s: State, step: Step)
    requires TokenInv(s.r) && LogInv(s) && OwedInv(s) && ClassInv(s) && Enabled(s, step)
    ensures OwedInv(Next(s, step))
  {
    var owed, r, f := NextOwed(s, step), NextRequests(s, step), NextFlags(s, step);
    forall t | t in owed ensures t < |r.kinds| && (t in r.live ==> StillOwed(r, t)) {
      OwedTokensFollow(s, step, t);
    }
    if f.terminalEmitted {
      forall t | t in owed ensures t !in r.live {
        if s.f.terminalEmitted {
          OwedStaysSettled(s, step, t);
        } else {
          OwedIsSettled(s, step, t);
        }
      }
    }
    LeavingFollows(s, step);
    EndComesLast(s, step);
  }
}
