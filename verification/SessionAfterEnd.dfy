/** What a session can still say once its end was announced. Failures may always follow; this module
    says from exactly which states a start or a success can. */
module SessionAfterEnd {
  import opened Events
  import opened SessionProtocol
  import opened SessionInvariants
  import opened SessionHistory
  import opened SessionTheorems
  import opened Wrappers

  /** The step says that a statement started, or answers a request with success. */
  predicate Lively(s: State, step: Step)
    requires Enabled(s, step)
  {
    || (Saying(s, step).Some? && Saying(s, step).value.Executing?)
    || (Answering(s, step).Some? && Succeeds(s, step))
  }

  /** A run from here whose next step is lively. */
  predicate Stirs(s: State, steps: seq<Step>, step: Step) {
    Legal(s, steps) && Enabled(Run(s, steps), step) && Lively(Run(s, steps), step)
  }

  ghost predicate CanStir(s: State) {
    exists steps, step :: Stirs(s, steps, step)
  }

  // ------------------------------------------------------------------ the condition

  /** An event-path request that a worker without a connection starts or answers with success. */
  predicate Promise(c: Command) { c.token.Some? && (c.kind == Execute || c.kind == Discard) }

  /** The worker is about to start or to answer one. */
  predicate Promising(w: Worker) { w.Busy? && Promise(w.command) && (w.command.kind == Execute ==> !w.ran) }

  /** One is queued ahead of every close. */
  predicate Hope(channel: seq<Command>) {
    channel != [] && channel[0].kind != Close && (Promise(channel[0]) || Hope(channel[1..]))
  }

  predicate NoClose(channel: seq<Command>) {
    forall i | 0 <= i < |channel| :: channel[i].kind != Close
  }

  function Closes(live: set<nat>, kinds: seq<Kind>): set<nat> {
    set t | t in live && t < |kinds| && kinds[t] == Close
  }

  predicate Waits(c: Caller) { c.Reserved? && Promise(c.command) }

  /** A caller holds a slot for one, or closes leave a slot to be had. */
  predicate Room(s: State) {
    (exists i | 0 <= i < |s.r.callers| :: Waits(s.r.callers[i])) || |Closes(s.r.live, s.r.kinds)| < s.limit
  }

  predicate Open(s: State) {
    Promising(s.r.worker) || Hope(s.r.channel) || (NoClose(s.r.channel) && Room(s))
  }

  /** Once the receiver is gone, a clean end must be on record, so that a late close is told so. While
      it is there, nobody may be closing the session first. */
  predicate Able(s: State) {
    if s.f.receiverGone then s.f.endClean else !Closing(s.r.worker) && Open(s)
  }

  // ------------------------------------------------------------------ otherwise only failures follow

  ghost predicate Over(s: State) {
    Inv(s) && EndAnnounced(s.r.worker, s.f)
  }

  /** Where a session is once its end was announced. */
  predicate Settled(s: State) {
    var w := s.r.worker;
    && s.f.terminalEmitted && !s.f.connected && !s.f.unannounced
    && (if s.f.receiverGone then w.Dropping? || w.Ending? || w.Exited? else w.Idle? || w.Busy? || w.Ran?)
    && (!s.f.receiverGone && !Closing(w) ==> !s.f.endRecorded)
    && (s.f.endClean ==> s.f.receiverGone && s.f.endRecorded && w.Exited?)
  }

  lemma OverIsSettled(s: State)
    requires Over(s)
    ensures Settled(s)
  {
    assert QuietInv(s) && ClassInv(s) && EndInv(s) && OwedInv(s);
  }

  lemma {:induction false} HopeAppend(channel: seq<Command>, c: Command)
    ensures Hope(channel + [c]) <==> Hope(channel) || (NoClose(channel) && Promise(c))
  {
    if channel == [] {
      assert channel + [c] == [c] && [c][1..] == [];
    } else {
      assert (channel + [c])[1..] == channel[1..] + [c];
      assert NoClose(channel) <==> channel[0].kind != Close && NoClose(channel[1..]) by {
        assert forall i | 0 < i < |channel| :: channel[i] == channel[1..][i - 1];
      }
      HopeAppend(channel[1..], c);
    }
  }

  lemma StaysOver(s: State, step: Step)
    requires Over(s) && Enabled(s, step)
    ensures Over(Next(s, step))
  {
    StepKeepsInv(s, step);
    EndAnnouncedFollows(s, step);
  }

  /** Without a receiver, what is on record no longer changes. */
  lemma GoneStaysUnable(s: State, step: Step)
    requires Settled(s) && s.f.receiverGone && !s.f.endClean && Enabled(s, step)
    ensures !Lively(s, step) && NextFlags(s, step).receiverGone && !NextFlags(s, step).endClean
  {
  }

  /** A close under way ends the session, unclean, and takes no request with it. */
  lemma ClosingStaysUnable(s: State, step: Step)
    requires Settled(s) && !s.f.receiverGone && Closing(s.r.worker) && Enabled(s, step)
    ensures !Lively(s, step) && !NextFlags(s, step).endClean
    ensures NextFlags(s, step).receiverGone || Closing(NextWorker(s, step))
  {
  }

  lemma ClosesAreLive(live: set<nat>, kinds: seq<Kind>)
    ensures |Closes(live, kinds)| <= |live|
  {
    var closes := Closes(live, kinds);
    assert live == closes + (live - closes);
  }

  /** A session that still takes requests, and that nobody is closing. */
  predicate Serving(s: State) { Settled(s) && !s.f.receiverGone && !Closing(s.r.worker) }

  lemma OnlyTheWorkerAnswers(s: State, step: Step)
    requires Serving(s) && Enabled(s, step) && Answering(s, step).Some?
    ensures step.Answer? && s.r.worker.Busy? && s.r.worker.command.kind != Close
  {
  }

  /** A worker that is not closing leaves every close unanswered. */
  lemma ClosesStay(s: State, step: Step)
    requires Serving(s) && TokenInv(s.r) && Enabled(s, step)
    ensures var r := NextRequests(s, step); |Closes(s.r.live, s.r.kinds)| <= |Closes(r.live, r.kinds)|
  {
    var r := NextRequests(s, step);
    var a, b := Closes(s.r.live, s.r.kinds), Closes(r.live, r.kinds);
    if Answering(s, step).Some? {
      OnlyTheWorkerAnswers(s, step);
    }
    assert a <= b;
    assert b == a + (b - a);
  }

  /** What was reserved for an execute or a discard found a slot below the limit. */
  lemma NobodyStartsWaiting(s: State, step: Step, i: nat)
    requires Serving(s) && Enabled(s, step) && i < |NextCallers(s, step)| && Waits(NextCallers(s, step)[i])
    ensures (i < |s.r.callers| && Waits(s.r.callers[i])) || (step.Exchange? && s.b.outstanding < s.limit)
  {
  }

  /** No room stays no room. */
  lemma FullStaysFull(s: State, step: Step)
    requires Serving(s) && TokenInv(s.r) && |s.r.live| <= s.b.outstanding && Enabled(s, step) && !Room(s)
    ensures !Room(Next(s, step))
  {
    ClosesStay(s, step);
    ClosesAreLive(s.r.live, s.r.kinds);
    var cs := NextCallers(s, step);
    forall i | 0 <= i < |cs| ensures !Waits(cs[i]) {
      if Waits(cs[i]) {
        NobodyStartsWaiting(s, step, i);
        assert false;
      }
    }
  }

  lemma TailHasClose(channel: seq<Command>)
    requires channel != [] && channel[0].kind != Close
    ensures NoClose(channel[1..]) ==> NoClose(channel)
  {
    assert forall i | 0 < i < |channel| :: channel[i] == channel[1..][i - 1];
  }

  /** The worker makes nothing new of what it has. */
  lemma WorkerStaysUnable(s: State, step: Step)
    requires Serving(s) && !Open(s) && WorkerEnabled(s, step)
    ensures !Lively(s, step)
    ensures var w, ch := NextWorker(s, step), NextChannel(s, step);
            Closing(w) || (!Promising(w) && !Hope(ch) && (NoClose(ch) ==> NoClose(s.r.channel)))
  {
    if step.Receive? && s.r.channel[0].kind != Close {
      TailHasClose(s.r.channel);
    }
  }

  /** Callers add to the channel only what is behind a close, or is one. */
  lemma CallerStaysUnable(s: State, step: Step)
    requires Serving(s) && !Open(s) && CallerEnabled(s, step)
    ensures !Lively(s, step) && NextWorker(s, step) == s.r.worker
    ensures var ch := NextChannel(s, step); !Hope(ch) && (NoClose(ch) ==> NoClose(s.r.channel))
  {
    var ch, ch' := s.r.channel, NextChannel(s, step);
    if ch' != ch {
      var c := ch'[|ch|];
      HopeAppend(ch, c);
      assert NoClose(ch') ==> NoClose(ch) by {
        assert forall i | 0 <= i < |ch| :: ch[i] == ch'[i];
      }
    }
  }

  lemma ServingStaysUnable(s: State, step: Step)
    requires Serving(s) && TokenInv(s.r) && |s.r.live| <= s.b.outstanding && !Open(s) && Enabled(s, step)
    ensures !Lively(s, step)
    ensures NextFlags(s, step) == s.f && (Closing(NextWorker(s, step)) || !Open(Next(s, step)))
  {
    if !Room(s) {
      FullStaysFull(s, step);
    }
    if WorkerEnabled(s, step) {
      WorkerStaysUnable(s, step);
    } else if CallerEnabled(s, step) {
      CallerStaysUnable(s, step);
    }
  }

  lemma StepStaysUnable(s: State, step: Step)
    requires Over(s) && !Able(s) && Enabled(s, step)
    ensures !Lively(s, step) && !Able(Next(s, step))
  {
    OverIsSettled(s);
    if s.f.receiverGone {
      GoneStaysUnable(s, step);
    } else if Closing(s.r.worker) {
      ClosingStaysUnable(s, step);
    } else {
      ServingStaysUnable(s, step);
    }
  }

  lemma {:induction false} RunStaysUnable(s: State, steps: seq<Step>)
    requires Over(s) && !Able(s) && Legal(s, steps)
    ensures Over(Run(s, steps)) && !Able(Run(s, steps))
    decreases |steps|
  {
    if steps != [] {
      StepStaysUnable(s, steps[0]);
      StaysOver(s, steps[0]);
      RunStaysUnable(Next(s, steps[0]), steps[1..]);
    }
  }

  // ------------------------------------------------------------------ and then a success or a start can

  /** A lively step now. */
  lemma StirNow(s: State, step: Step)
    requires Enabled(s, step) && Lively(s, step)
    ensures CanStir(s)
  {
    assert Stirs(s, [], step);
  }

  /** A step first. */
  lemma StirAfter(s: State, step: Step)
    requires Enabled(s, step) && CanStir(Next(s, step))
    ensures CanStir(s)
  {
    var steps, last :| Stirs(Next(s, step), steps, last);
    assert ([step] + steps)[1..] == steps;
    assert Stirs(s, [step] + steps, last);
  }

  lemma PromiseIsKept(s: State)
    requires Serving(s) && Promising(s.r.worker)
    ensures CanStir(s)
  {
    if s.r.worker.command.kind == Execute {
      StirNow(s, StartExecute);
    } else {
      StirNow(s, Answer(false, true));
    }
  }

  /** How far the worker is from taking the next command. */
  function Ahead(w: Worker): nat {
    match w
    case Busy(_, _, _) => 2
    case Ran(_) => 1
    case _ => 0
  }

  /** The worker's next step towards taking the next command. */
  function Onward(w: Worker): Step {
    match w
    case Busy(_, _, _) => Answer(false, false)
    case Ran(_) => Conclude
    case _ => Receive
  }

  lemma OnwardGoesOn(s: State)
    requires Serving(s) && Hope(s.r.channel)
    ensures var step := Onward(s.r.worker);
            && Enabled(s, step)
            && var n := Next(s, step);
               && Serving(n) && (Promising(n.r.worker) || Hope(n.r.channel))
               && (if s.r.worker.Idle? then n.r.channel == s.r.channel[1..]
                   else n.r.channel == s.r.channel && Ahead(n.r.worker) < Ahead(s.r.worker))
  {
  }

  lemma {:induction false} HopeIsMet(s: State)
    requires Over(s) && Serving(s) && (Promising(s.r.worker) || Hope(s.r.channel))
    ensures CanStir(s)
    decreases |s.r.channel|, Ahead(s.r.worker)
  {
    if Promising(s.r.worker) {
      PromiseIsKept(s);
    } else {
      var step := Onward(s.r.worker);
      OnwardGoesOn(s);
      StaysOver(s, step);
      HopeIsMet(Next(s, step));
      StirAfter(s, step);
    }
  }

  /** A caller that waits hands its request over. */
  lemma WaiterIsServed(s: State, i: nat)
    requires Over(s) && Serving(s) && NoClose(s.r.channel)
    requires i < |s.r.callers| && Waits(s.r.callers[i])
    ensures CanStir(s)
  {
    var c := s.r.callers[i].command;
    HopeAppend(s.r.channel, c);
    StaysOver(s, Send(i));
    HopeIsMet(Next(s, Send(i)));
    StirAfter(s, Send(i));
  }

  // ------------------------------------------------------------------ a slot can be freed

  lemma {:induction false} HeldByCaller(callers: seq<Caller>, t: nat) returns (i: nat)
    requires WithCallers(callers, t) >= 1
    ensures i < |callers| && callers[i].Reserved? && callers[i].command.token == Some(t)
  {
    if WithCaller(callers[0], t) == 1 {
      i := 0;
    } else {
      i := HeldByCaller(callers[1..], t);
      i := i + 1;
    }
  }

  /** Some unanswered request is no close. */
  lemma OtherThanCloses(r: Requests) returns (t: nat)
    requires |Closes(r.live, r.kinds)| < |r.live| && forall t | t in r.live :: t < |r.kinds|
    ensures t in r.live && t < |r.kinds| && r.kinds[t] != Close
  {
    var closes := Closes(r.live, r.kinds);
    assert |r.live| == |closes| + |r.live - closes| by {
      assert r.live == closes + (r.live - closes);
    }
    t :| t in r.live - closes;
  }

  /** Taking an event or releasing a slot leaves the requests and the flags alone. */
  lemma DrainingIsQuiet(s: State, step: Step)
    requires Enabled(s, step) && (step.Take? || step.Release?)
    ensures Next(s, step).r == s.r && Next(s, step).f == s.f && Next(s, step).limit == s.limit
    ensures |Next(s, step).b.queue.items| + Next(s, step).b.releasing < |s.b.queue.items| + s.b.releasing
  {
  }

  /** The worker goes on with what has no close in it: it answers, and the request is no longer owed,
      or it gets nearer to the next command. */
  lemma WorkerMovesOn(s: State)
    requires Serving(s) && TokenInv(s.r) && NoClose(s.r.channel) && (s.r.worker.Idle? ==> s.r.channel != [])
    ensures var step := Onward(s.r.worker);
            && Enabled(s, step)
            && var n := Next(s, step);
               && Serving(n) && NoClose(n.r.channel) && n.limit == s.limit && n.r.kinds == s.r.kinds
               && n.r.live <= s.r.live
               && (n.r.live == s.r.live ==>
                     if s.r.worker.Idle? then |n.r.channel| < |s.r.channel|
                     else n.r.channel == s.r.channel && Ahead(n.r.worker) < Ahead(s.r.worker))
  {
    var ch := s.r.channel;
    if s.r.worker.Idle? {
      assert forall i | 0 < i < |ch| :: ch[i] == ch[1..][i - 1];
    }
  }

  lemma FewerLive(live: set<nat>, fewer: set<nat>, kinds: seq<Kind>)
    requires fewer <= live
    ensures |Closes(fewer, kinds)| <= |Closes(live, kinds)|
    ensures |fewer| <= |live| && (|fewer| == |live| ==> fewer == live)
  {
    var a, b := Closes(fewer, kinds), Closes(live, kinds);
    assert a <= b;
    assert b == a + (b - a);
    assert live == fewer + (live - fewer);
  }

  /** A thread arrives, reserves a slot and becomes the last caller. */
  lemma NewcomerReserves(s: State, kind: Kind)
    requires s.b.outstanding < SlotLimit(s, kind)
    ensures Enabled(s, Arrive)
    ensures var a := Next(s, Arrive); Enabled(a, Load(|s.r.callers|, kind))
    ensures var a := Next(s, Arrive); var b := Next(a, Load(|s.r.callers|, kind)); Enabled(b, Exchange(|s.r.callers|))
    ensures var a := Next(s, Arrive); var b := Next(a, Load(|s.r.callers|, kind));
            var c := Next(b, Exchange(|s.r.callers|));
            && c.f == s.f && c.r.worker == s.r.worker && c.r.channel == s.r.channel
            && |c.r.callers| == |s.r.callers| + 1
            && c.r.callers[|s.r.callers|] == Reserved(Command(kind, Some(|s.r.kinds|)))
  {
  }

  /** If what a newcomer reserves leads to a start or a success, so does this state. */
  lemma NewcomerStirs(s: State, kind: Kind) returns (c: State)
    requires Over(s) && s.b.outstanding < SlotLimit(s, kind)
    ensures Over(c) && c.f == s.f && c.r.worker == s.r.worker && c.r.channel == s.r.channel
    ensures |c.r.callers| == |s.r.callers| + 1
    ensures c.r.callers[|s.r.callers|] == Reserved(Command(kind, Some(|s.r.kinds|)))
    ensures CanStir(c) ==> CanStir(s)
  {
    var i := |s.r.callers|;
    NewcomerReserves(s, kind);
    var a := Next(s, Arrive);
    var b := Next(a, Load(i, kind));
    c := Next(b, Exchange(i));
    StaysOver(s, Arrive);
    StaysOver(a, Load(i, kind));
    StaysOver(b, Exchange(i));
    if CanStir(c) {
      StirAfter(b, Exchange(i));
      StirAfter(a, Load(i, kind));
      StirAfter(s, Arrive);
    }
  }

  /** With a slot below the limit, a newcomer's request is started. */
  lemma NewcomerIsServed(s: State)
    requires Over(s) && Serving(s) && NoClose(s.r.channel) && s.b.outstanding < s.limit
    ensures CanStir(s)
  {
    var c := NewcomerStirs(s, Execute);
    WaiterIsServed(c, |s.r.callers|);
  }

  /** With the worker idle and nothing queued, an unanswered request is with its caller. */
  lemma HeldWhenIdle(s: State, t: nat) returns (i: nat)
    requires TokenInv(s.r) && s.r.worker.Idle? && s.r.channel == [] && t in s.r.live
    ensures i < |s.r.callers| && s.r.callers[i].Reserved? && s.r.callers[i].command.token == Some(t)
    ensures t < |s.r.kinds| && s.r.callers[i].command.kind == s.r.kinds[t]
  {
    assert Places(s.r, t) == One(t in s.r.live);
    i := HeldByCaller(s.r.callers, t);
    assert Known(s.r, s.r.callers[i].command);
  }

  /** A caller's request that is no close is handed over and taken. */
  lemma OtherIsTaken(s: State, i: nat)
    requires Serving(s) && s.r.worker.Idle? && s.r.channel == []
    requires i < |s.r.callers| && s.r.callers[i].Reserved? && s.r.callers[i].command.kind != Close
    ensures Enabled(s, Send(i))
    ensures var a := Next(s, Send(i)); Enabled(a, Receive)
    ensures var a := Next(s, Send(i)); var b := Next(a, Receive);
            && Serving(b) && b.r.channel == [] && b.r.worker == Busy(s.r.callers[i].command, false, false)
            && b.limit == s.limit && b.r.kinds == s.r.kinds && b.r.live == s.r.live
  {
  }

  /** A request the worker is at is answered with failure, and one request fewer is owed. */
  lemma TakenIsAnswered(s: State)
    requires Serving(s) && TokenInv(s.r) && s.r.worker.Busy? && s.r.worker.command.token.Some?
    ensures Enabled(s, Answer(false, false))
    ensures var n := Next(s, Answer(false, false));
            && Serving(n) && n.r.channel == s.r.channel && n.limit == s.limit && n.r.kinds == s.r.kinds
            && n.r.live <= s.r.live && |n.r.live| < |s.r.live|
  {
    AnsweredWasLive(s, Answer(false, false));
  }

  /** What becomes of a caller's request that is no close, in three steps. */
  lemma OtherIsAnswered(s: State, i: nat) returns (n: State)
    requires Over(s) && Serving(s) && s.r.worker.Idle? && s.r.channel == []
    requires i < |s.r.callers| && s.r.callers[i].Reserved? && s.r.callers[i].command.kind != Close
    ensures Over(n) && Serving(n) && n.r.channel == [] && n.limit == s.limit && n.r.kinds == s.r.kinds
    ensures n.r.live <= s.r.live && |n.r.live| < |s.r.live|
    ensures CanStir(n) ==> CanStir(s)
  {
    assert EndInv(s) && s.r.callers[i].command.token.Some?;
    OtherIsTaken(s, i);
    var a := Next(s, Send(i));
    var b := Next(a, Receive);
    StaysOver(s, Send(i));
    StaysOver(a, Receive);
    TakenIsAnswered(b);
    StaysOver(b, Answer(false, false));
    n := Next(b, Answer(false, false));
    if CanStir(n) {
      StirAfter(b, Answer(false, false));
      StirAfter(a, Receive);
      StirAfter(s, Send(i));
    }
  }

  /** Fewer unanswered closes than the limit leave a slot, sooner or later: what else holds one is
      taken by the consumer, or answered by the worker, with failure if need be. */
  lemma {:induction false} RoomIsFound(s: State)
    requires Over(s) && Serving(s) && NoClose(s.r.channel) && |Closes(s.r.live, s.r.kinds)| < s.limit
    ensures CanStir(s)
    decreases |s.r.live|, |s.r.channel|, Ahead(s.r.worker), |s.b.queue.items| + s.b.releasing, 1
  {
    if s.b.outstanding < s.limit {
      NewcomerIsServed(s);
    } else if s.b.releasing > 0 || s.b.queue.items != [] {
      var step := if s.b.releasing > 0 then Release else Take;
      DrainingIsQuiet(s, step);
      StaysOver(s, step);
      RoomIsFound(Next(s, step));
      StirAfter(s, step);
    } else if !s.r.worker.Idle? || s.r.channel != [] {
      var step := Onward(s.r.worker);
      WorkerMovesOn(s);
      FewerLive(s.r.live, Next(s, step).r.live, s.r.kinds);
      StaysOver(s, step);
      RoomIsFound(Next(s, step));
      StirAfter(s, step);
    } else {
      RoomAtRest(s);
    }
  }

  /** Every slot is held by a request still with its caller, and one of them is no close. */
  lemma RoomAtRest(s: State)
    requires Over(s) && Serving(s) && s.r.worker.Idle? && s.r.channel == [] && s.b.queue.items == []
    requires s.b.releasing == 0 && |Closes(s.r.live, s.r.kinds)| < s.limit <= s.b.outstanding
    ensures CanStir(s)
    decreases |s.r.live|, 0, 0, 0, 0
  {
    assert TokenInv(s.r) && SlotInv(s) && s.b.outstanding == |s.r.live|;
    var t := OtherThanCloses(s.r);
    var i := HeldWhenIdle(s, t);
    var n := OtherIsAnswered(s, i);
    FewerLive(s.r.live, n.r.live, s.r.kinds);
    RoomIsFound(n);
  }

  // ------------------------------------------------------------------ a late close

  /** A close that finds a clean end on record is told that it succeeded. */
  lemma LateCloseSucceeds(s: State, i: nat)
    requires Settled(s) && s.f.endClean && EndInv(s)
    requires i < |s.r.callers| && s.r.callers[i].Reserved? && s.r.callers[i].command.kind == Close
    ensures CanStir(s)
  {
    StirNow(s, Settle(i));
  }

  lemma SendIsAnswered(s: State, i: nat)
    requires TokenInv(s.r) && EndInv(s) && s.f.receiverGone && i < |s.r.callers| && s.r.callers[i].Reserved?
    ensures Enabled(s, Send(i)) && Next(s, Send(i)).f == s.f && |Next(s, Send(i)).r.live| < |s.r.live|
  {
    AnsweredWasLive(s, Send(i));
  }

  /** With the worker gone, an unanswered request is with its caller. */
  lemma HeldWhenExited(s: State) returns (i: nat)
    requires Over(s) && s.r.worker.Exited? && s.r.live != {}
    ensures i < |s.r.callers| && s.r.callers[i].Reserved?
  {
    var t :| t in s.r.live;
    assert TokenInv(s.r) && OwedInv(s) && Places(s.r, t) == One(t in s.r.live);
    i := HeldByCaller(s.r.callers, t);
  }

  lemma {:induction false} LateCloseIsTold(s: State)
    requires Over(s) && s.f.receiverGone && s.f.endClean
    ensures CanStir(s)
    decreases |s.r.live|, |s.b.queue.items| + s.b.releasing
  {
    OverIsSettled(s);
    if s.b.outstanding <= s.limit {
      var c := NewcomerStirs(s, Close);
      OverIsSettled(c);
      LateCloseSucceeds(c, |s.r.callers|);
    } else if s.b.releasing > 0 || s.b.queue.items != [] {
      var step := if s.b.releasing > 0 then Release else Take;
      DrainingIsQuiet(s, step);
      StaysOver(s, step);
      LateCloseIsTold(Next(s, step));
      StirAfter(s, step);
    } else {
      assert SlotInv(s) && s.r.live != {};
      var i := HeldWhenExited(s);
      SendIsAnswered(s, i);
      StaysOver(s, Send(i));
      LateCloseIsTold(Next(s, Send(i)));
      StirAfter(s, Send(i));
    }
  }

  lemma AbleCanStir(s: State)
    requires Over(s) && Able(s)
    ensures CanStir(s)
  {
    OverIsSettled(s);
    if s.f.receiverGone {
      LateCloseIsTold(s);
    } else if Promising(s.r.worker) || Hope(s.r.channel) {
      HopeIsMet(s);
    } else if |Closes(s.r.live, s.r.kinds)| < s.limit {
      RoomIsFound(s);
    } else {
      var i :| 0 <= i < |s.r.callers| && Waits(s.r.callers[i]);
      WaiterIsServed(s, i);
    }
  }

  // ------------------------------------------------------------------ theorems over every run

  /** From a state whose end was announced, some continuation says that a statement started or answers
      a request with success, if and only if the session is able to: its receiver is still there and
      nobody closes it first, or it ended cleanly and a late close is told so. */
  lemma StirsAfterEndExactlyWhen(s: State, steps: seq<Step>)
    requires Init(s) && Legal(s, steps) && Times(Run(s, steps).b.log, Ended) == 1
    ensures CanStir(Run(s, steps)) <==> Able(Run(s, steps))
  {
    Reached(s, steps);
    var n := Run(s, steps);
    if Able(n) {
      AbleCanStir(n);
    } else {
      forall more, step ensures !Stirs(n, more, step) {
        if Legal(n, more) && Enabled(Run(n, more), step) {
          RunStaysUnable(n, more);
          StepStaysUnable(Run(n, more), step);
        }
      }
    }
  }

  /** A request that needs the connection, with a close right behind it, leaves nothing to hope for. */
  lemma DoomedIsUnable(s: State)
    requires Settled(s) && s.r.worker.Idle?
    requires |s.r.channel| >= 2 && s.r.channel[0].kind == Plain && s.r.channel[1].kind == Close
    ensures !Able(s)
  {
    assert s.r.channel[1..][0] == s.r.channel[1];
    assert !Hope(s.r.channel[1..]) && !NoClose(s.r.channel);
  }

  lemma RestingIsAble(s: State)
    requires Settled(s) && s.limit > 0 && s.r.worker.Idle? && s.r.channel == [] && Closes(s.r.live, s.r.kinds) == {}
    ensures Able(s)
  {
  }

  /** In particular, a lost session that is idle, with nobody about to close it, still stirs; one with a
      request that needs the connection and then a close queued does not; and one whose worker is gone
      does only if it ended cleanly. */
  lemma LostButNotClosedStirs(s: State, steps: seq<Step>)
    requires Init(s) && Legal(s, steps) && Times(Run(s, steps).b.log, Ended) == 1
    ensures var n := Run(s, steps); var ch := n.r.channel;
            && (n.r.worker.Idle? && ch == [] && Closes(n.r.live, n.r.kinds) == {} ==> CanStir(n))
            && (n.r.worker.Idle? && |ch| >= 2 && ch[0].kind == Plain && ch[1].kind == Close ==> !CanStir(n))
            && (n.r.worker.Exited? ==> (CanStir(n) <==> n.f.endClean))
  {
    StirsAfterEndExactlyWhen(s, steps);
    var n := Run(s, steps);
    Reached(s, steps);
    OverIsSettled(n);
    if n.r.worker.Idle? && n.r.channel == [] && Closes(n.r.live, n.r.kinds) == {} {
      RestingIsAble(n);
    }
    if n.r.worker.Idle? && |n.r.channel| >= 2 && n.r.channel[0].kind == Plain && n.r.channel[1].kind == Close {
      DoomedIsUnable(n);
    }
  }
}
