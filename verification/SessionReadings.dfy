/** What a session's flags say of the run behind them: each is read off the steps taken, and the steps a
    worker or a caller needs are there when it needs them. */
module SessionReadings {
  import opened Events
  import opened SessionProtocol
  import opened SessionInvariants
  import opened SessionHistory
  import opened SessionTheorems
  import opened Wrappers

  /** A run is its steps but the last, and the last. */
  lemma {:induction false} LastStep(s: State, steps: seq<Step>)
    requires Legal(s, steps) && steps != []
    ensures var init, last := steps[..|steps| - 1], steps[|steps| - 1];
            Legal(s, init) && Enabled(Run(s, init), last) && Run(s, steps) == Next(Run(s, init), last)
    decreases |steps|
  {
    if |steps| == 1 {
      assert steps[1..] == [];
    } else {
      var rest := steps[1..];
      LastStep(Next(s, steps[0]), rest);
      assert steps[..|steps| - 1][1..] == rest[..|rest| - 1];
    }
  }

  // ------------------------------------------------------------------ the transaction flag

  /** The last word on whether a transaction may be open. */
  function LastTracked(first: bool, steps: seq<Step>): bool {
    if steps == [] then first
    else
      var init, last := steps[..|steps| - 1], steps[|steps| - 1];
      if last.Track? then last.value else LastTracked(first, init)
  }

  /** That word differed from the one before it and has not been announced since. */
  predicate LeftUnsaid(first: bool, steps: seq<Step>) {
    if steps == [] then false
    else
      var init, last := steps[..|steps| - 1], steps[|steps| - 1];
      match last
      case EmitState => false
      case Track(value) => value != LastTracked(first, init)
      case _ => LeftUnsaid(first, init)
  }

  lemma TrackFollows(s: State, step: Step)
    requires Enabled(s, step)
    ensures var f := NextFlags(s, step);
            && f.possiblyActive == (if step.Track? then step.value else s.f.possiblyActive)
            && f.unannounced == (match step case EmitState => false case Track(value) => value != s.f.possiblyActive
                                            case _ => s.f.unannounced)
  {
  }

  lemma {:induction false} FlagIsLastTracked(s: State, steps: seq<Step>)
    requires Init(s) && Legal(s, steps)
    ensures Run(s, steps).f.possiblyActive == LastTracked(s.f.possiblyActive, steps)
    ensures Run(s, steps).f.unannounced == LeftUnsaid(s.f.possiblyActive, steps)
    decreases |steps|
  {
    if steps != [] {
      var init, last := steps[..|steps| - 1], steps[|steps| - 1];
      LastStep(s, steps);
      FlagIsLastTracked(s, init);
      TrackFollows(Run(s, init), last);
    }
  }

  /** The consumer's view changes only by what it does: it takes a transaction state, or reads the flag. */
  lemma ViewIsWhatWasRead(s: State, step: Step)
    requires Enabled(s, step)
    ensures var read := step.ReadFlag? || (step.Take? && s.b.queue.items[0].event.TransactionState?);
            && (!read ==> Next(s, step).b.view == s.b.view)
            && (step.ReadFlag? ==> Next(s, step).b.view == s.f.possiblyActive)
            && (read && step.Take? ==> Next(s, step).b.view == s.b.queue.items[0].event.possiblyActive)
  {
  }

  // ------------------------------------------------------------------ loss and end

  predicate LosesIt(step: Step) { step.Lose? || (step.OpenAnswered? && !step.ok) }

  predicate EverLost(steps: seq<Step>) { exists i | 0 <= i < |steps| :: LosesIt(steps[i]) }

  /** The first end recorded, and whether it was clean; the worker that drops its channel records an
      end that resolved nothing. */
  function FirstRecord(steps: seq<Step>): Option<bool> {
    if steps == [] then None
    else match steps[0]
      case RecordEnd(clean) => Some(clean)
      case ChannelGone => Some(false)
      case _ => FirstRecord(steps[1..])
  }

  lemma LossFollows(s: State, step: Step)
    requires Enabled(s, step)
    ensures NextFlags(s, step).lost == (s.f.lost || LosesIt(step))
  {
    match step
    case OpenAnswered(_) =>
    case Conclude =>
    case _ =>
  }

  lemma RecordFollows(s: State, step: Step)
    requires Enabled(s, step)
    ensures var f := NextFlags(s, step);
            match step
            case RecordEnd(clean) => f.endRecorded && f.endClean == (if s.f.endRecorded then s.f.endClean else clean)
            case ChannelGone => f.endRecorded && f.endClean == s.f.endClean
            case _ => f.endRecorded == s.f.endRecorded && f.endClean == s.f.endClean
  {
  }

  lemma {:induction false} LostIsItsHistory(s: State, steps: seq<Step>)
    requires Legal(s, steps)
    ensures Run(s, steps).f.lost <==> s.f.lost || EverLost(steps)
    decreases |steps|
  {
    if steps != [] {
      LossFollows(s, steps[0]);
      LostIsItsHistory(Next(s, steps[0]), steps[1..]);
      assert EverLost(steps) <==> LosesIt(steps[0]) || EverLost(steps[1..]) by {
        assert forall i | 0 < i < |steps| :: steps[i] == steps[1..][i - 1];
      }
    }
  }

  lemma {:induction false} EndIsTheFirstRecorded(s: State, steps: seq<Step>)
    requires Legal(s, steps) && (s.f.endClean ==> s.f.endRecorded)
    ensures var f := Run(s, steps).f;
            && (f.endRecorded <==> s.f.endRecorded || FirstRecord(steps).Some?)
            && (f.endClean <==> if s.f.endRecorded then s.f.endClean else FirstRecord(steps) == Some(true))
    decreases |steps|
  {
    if steps != [] {
      RecordFollows(s, steps[0]);
      EndIsTheFirstRecorded(Next(s, steps[0]), steps[1..]);
    }
  }

  /** In every run: lost exactly if the connection was lost or the open failed; an end on record exactly
      if one was recorded, and clean exactly if the first one was. */
  lemma FlagsAreTheirHistory(s: State, steps: seq<Step>)
    requires Init(s) && Legal(s, steps)
    ensures var f := Run(s, steps).f;
            && (f.lost <==> EverLost(steps))
            && (f.endRecorded <==> FirstRecord(steps).Some?) && (f.endClean <==> FirstRecord(steps) == Some(true))
  {
    LostIsItsHistory(s, steps);
    EndIsTheFirstRecorded(s, steps);
  }

  /** When the worker turns to answering what is queued, because it leaves or because the session is lost
      and the end not yet announced, everything queued then is owed an answer before the end. */
  lemma QueuedIsOwed(s: State, step: Step)
    requires Enabled(s, step) && step.Conclude? && !s.f.terminalEmitted
    requires Next(s, step).r.worker.Draining? || Next(s, step).r.worker.Dropping?
    ensures Tokens(s.r.channel) <= Next(s, step).owed
  {
  }

  // ------------------------------------------------------------------ what a caller or the worker can do

  /** A caller that lost a race looks again, and then either gets its slot or is refused. */
  lemma RetryLooksAgain(s: State, i: nat)
    requires Enabled(s, Retry(i))
    ensures var n := Next(s, Retry(i)); var kind := s.r.callers[i].kind;
            && n.b.outstanding == s.b.outstanding
            && (s.b.outstanding < SlotLimit(s, kind) ==> Enabled(n, Exchange(i)))
            && (s.b.outstanding >= SlotLimit(s, kind) ==> Enabled(n, Refuse(i)))
  {
  }

  /** One slot more is kept for closing: a session at its limit can still be told to end, once. */
  lemma CloseFindsRoom(s: State, i: nat, kind: Kind)
    requires Enabled(s, Load(i, kind)) && s.b.outstanding == s.limit
    ensures Enabled(Next(s, Load(i, kind)), Exchange(i)) <==> kind == Close
  {
  }

  /** The steps by which a worker leaves, one by one. */
  lemma LeavingGoesOn(s: State)
    ensures s.r.worker == Ran(true) && s.r.channel == [] ==>
              Enabled(s, Conclude) && Next(s, Conclude).r.worker.Dropping? && Next(s, Conclude).r.channel == []
              && Next(s, Conclude).f.receiverGone
    ensures s.r.worker.Dropping? && s.r.channel == [] ==>
              Enabled(s, ChannelGone) && Next(s, ChannelGone).r.worker.Ending? && Next(s, ChannelGone).f.endRecorded
              && Next(s, ChannelGone).f.receiverGone == s.f.receiverGone
  {
  }

  lemma AnnouncingGoesOn(s: State)
    ensures s.r.worker.Ending? ==>
              Enabled(s, Announce) && Next(s, Announce).f.terminalEmitted
              && Next(s, Announce).r.worker == (if s.f.terminalEmitted then Exited else Announcing(true))
              && Next(s, Announce).f.endRecorded == s.f.endRecorded
              && Next(s, Announce).f.receiverGone == s.f.receiverGone
    ensures s.r.worker == Announcing(true) ==>
              Enabled(s, EmitTerminal) && Next(s, EmitTerminal).r.worker.Exited? && Next(s, EmitTerminal).f == s.f
  {
  }

  /** From where everything queued is answered, a leaving worker exits. */
  lemma EndingExits(s: State) returns (steps: seq<Step>)
    requires s.r.worker.Ending?
    ensures Legal(s, steps) && Run(s, steps).r.worker.Exited?
    ensures Run(s, steps).f.endRecorded == s.f.endRecorded && Run(s, steps).f.receiverGone == s.f.receiverGone
  {
    AnnouncingGoesOn(s);
    var a := Next(s, Announce);
    AnnouncingGoesOn(a);
    if a.r.worker.Exited? {
      assert Run(a, []) == a;
      steps := Ahead(s, Announce, []);
    } else {
      var b := Next(a, EmitTerminal);
      assert Run(b, []) == b;
      steps := Ahead(s, Announce, Ahead(a, EmitTerminal, []));
    }
  }

  /** A worker whose channel has ended leaves: it drops the channel, records the end and announces it. */
  lemma HangupEndsTheSession(s: State) returns (steps: seq<Step>)
    requires s.r.worker.Idle? && s.r.channel == []
    ensures Legal(s, steps) && steps != [] && steps[0] == Hangup && Run(s, steps).r.worker.Exited?
    ensures Run(s, steps).f.endRecorded && Run(s, steps).f.receiverGone
  {
    var a := Next(s, Hangup);
    LeavingGoesOn(a);
    var b := Next(a, Conclude);
    LeavingGoesOn(b);
    var c := Next(b, ChannelGone);
    steps := EndingExits(c);
    steps := Ahead(s, Hangup, Ahead(a, Conclude, Ahead(b, ChannelGone, steps)));
  }

  function Ahead(s: State, step: Step, rest: seq<Step>): (steps: seq<Step>)
    requires Enabled(s, step) && Legal(Next(s, step), rest)
    ensures steps == [step] + rest && Legal(s, steps) && Run(s, steps) == Run(Next(s, step), rest)
  {
    var steps := [step] + rest;
    assert steps[1..] == rest;
    steps
  }
}
