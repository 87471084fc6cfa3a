/** The session registry: one mutex-protected map of entries, and the race between a connect that
    cannot be interrupted and the abandon, retire or teardown that stops waiting for it.

    `SessionRegistry` is the map and its lock-protected sections. `Life` is what those sections do to
    one session id over a whole run, with everything done after the lock is released (marking,
    replying, announcing the end) as separate steps of whichever thread took the entry. */
module Registry {
  import opened Events
  import opened Wrappers

  datatype Entry = Opening | Open | Ending | Ended

  /** What the thread that made a decision under the lock has to do after releasing it. */
  datatype Duty =
    | Nothing
    | Announce       // answer the open with the session
    | Refuse         // the connect failed: answer with its error, announce the end
    | Cancel         // nobody waits any more: answer Cancelled, announce the end
    | Release        // tell an open session to let go
    | CloseLate      // close a connection nobody adopted

  datatype Decision = Decision(entry: Option<Entry>, duty: Duty)

  /** A connect returned. */
  function Complete(e: Option<Entry>, ok: bool): Decision {
    match e
    case Some(Opening) => if ok then Decision(Some(Open), Announce) else Decision(None, Refuse)
    case Some(Ended) => Decision(None, if ok then CloseLate else Nothing)
    case _ => Decision(e, if ok then CloseLate else Nothing)
  }

  function AbandonEntry(e: Option<Entry>): Decision {
    match e
    case Some(Opening) => Decision(Some(Ended), Cancel)
    case Some(Open) => Decision(Some(Ending), Release)
    case _ => Decision(e, Nothing)
  }

  /** Retiring, and what teardown does to each entry. */
  function RetireEntry(e: Option<Entry>): Decision {
    match e
    case Some(Opening) => Decision(None, Cancel)
    case Some(Ended) => Decision(None, Nothing)
    case None => Decision(None, Nothing)
    case _ => Decision(None, Release)
  }

  // ------------------------------------------------------------------ the map

  datatype Abandoned = Unknown | Connecting | WasOpen(possiblyLost: bool) | AlreadyEnding

  function Lookup(m: map<SessionId, Entry>, id: SessionId): Option<Entry> {
    if id in m then Some(m[id]) else None
  }

  ghost predicate OnlyChanges(before: map<SessionId, Entry>, after: map<SessionId, Entry>, id: SessionId) {
    forall x: SessionId | x != id :: Lookup(after, x) == Lookup(before, x)
  }

  class SessionRegistry {
    var sessions: map<SessionId, Entry>

    constructor ()
      ensures sessions == map[]
    {
      sessions := map[];
    }

    /** Opening never fails synchronously: a thread that cannot be spawned is refused by event. */
    method Open(id: SessionId, spawned: bool) returns (duty: Duty)
      requires id !in sessions
      modifies this
      ensures OnlyChanges(old(sessions), sessions, id)
      ensures Lookup(sessions, id) == if spawned then Some(Opening) else None
      ensures duty == if spawned then Nothing else Refuse
    {
      duty := Nothing;
      if spawned {
        sessions := sessions[id := Opening];
      } else {
        duty := Refuse;
      }
    }

    method CompleteOpen(id: SessionId, ok: bool) returns (duty: Duty)
      modifies this
      ensures OnlyChanges(old(sessions), sessions, id)
      ensures Decision(Lookup(sessions, id), duty) == Complete(old(Lookup(sessions, id)), ok)
      ensures Lookup(sessions, id) == Some(Entry.Open) && old(Lookup(sessions, id)) != Some(Entry.Open) <==>
              duty == Announce
      ensures duty == Announce <==> ok && old(Lookup(sessions, id)) == Some(Opening)
      ensures duty == Refuse <==> !ok && old(Lookup(sessions, id)) == Some(Opening)
      ensures old(Lookup(sessions, id)) in {None, Some(Entry.Open), Some(Ending)} ==> sessions == old(sessions)
    {
      if id in sessions && sessions[id] == Opening {
        sessions := sessions - {id};
        if ok {
          sessions := sessions[id := Entry.Open];
          return Announce;
        }
        return Refuse;
      }
      if id in sessions && sessions[id] == Ended {
        sessions := sessions - {id};
      }
      duty := if ok then CloseLate else Nothing;
    }

    /** `ended` and `carrying` are what the open session itself answers. */
    method Abandon(id: SessionId, ended: bool, carrying: bool) returns (duty: Duty, answer: Abandoned)
      modifies this
      ensures OnlyChanges(old(sessions), sessions, id)
      ensures Decision(Lookup(sessions, id), duty) == AbandonEntry(old(Lookup(sessions, id)))
      ensures answer.Unknown? <==> id !in old(sessions)
      ensures answer.Connecting? <==> duty == Cancel
      ensures answer.WasOpen? <==> duty == Release && !ended
      ensures answer.WasOpen? ==> answer.possiblyLost == carrying
      ensures duty == Release <==> old(Lookup(sessions, id)) == Some(Entry.Open)
      ensures duty == Cancel <==> old(Lookup(sessions, id)) == Some(Opening)
      ensures duty == Release ==> Lookup(sessions, id) == Some(Ending)
      ensures duty == Cancel ==> Lookup(sessions, id) == Some(Ended)
      ensures duty == Nothing ==> Lookup(sessions, id) == old(Lookup(sessions, id))
    {
      if id !in sessions {
        return Nothing, Unknown;
      }
      var entry := sessions[id];
      sessions := sessions - {id};
      match entry
      case Opening =>
        sessions := sessions[id := Ended];
        return Cancel, Abandoned.Connecting;
      case Open =>
        sessions := sessions[id := Ending];
        return Release, if ended then AlreadyEnding else WasOpen(carrying);
      case _ =>
        sessions := sessions[id := entry];
        return Nothing, AlreadyEnding;
    }

    method Retire(id: SessionId) returns (duty: Duty, found: bool)
      modifies this
      ensures OnlyChanges(old(sessions), sessions, id)
      ensures Decision(Lookup(sessions, id), duty) == RetireEntry(old(Lookup(sessions, id)))
      ensures found <==> id in old(sessions)
      ensures id !in sessions
      ensures duty == Cancel <==> old(Lookup(sessions, id)) == Some(Opening)
      ensures duty == Release <==> old(Lookup(sessions, id)) in {Some(Entry.Open), Some(Ending)}
    {
      if id !in sessions {
        return Nothing, false;
      }
      var entry := sessions[id];
      sessions := sessions - {id};
      return match entry { case Opening => Cancel case Ended => Nothing case _ => Release }, true;
    }

    /** Every entry is drained first; then each connect still running is cancelled and each open
        session told to let go, each of them once. */
    method Teardown() returns (cancelled: seq<SessionId>, pending: seq<SessionId>)
      modifies this
      ensures sessions == map[]
      ensures forall id | id in old(sessions) ::
                multiset(cancelled)[id] == (if old(sessions)[id] == Opening then 1 else 0)
      ensures forall id | id in old(sessions) ::
                multiset(pending)[id] == (if old(sessions)[id] in {Entry.Open, Ending} then 1 else 0)
      ensures forall id: SessionId | id !in old(sessions) :: id !in cancelled && id !in pending
    {
      var entries := sessions;
      sessions := map[];
      cancelled, pending := [], [];
      var todo := entries.Keys;
      while todo != {}
        invariant todo <= entries.Keys
        invariant forall id: SessionId | id !in entries || id in todo :: id !in cancelled && id !in pending
        invariant forall id | id in entries && id !in todo ::
                    multiset(cancelled)[id] == (if entries[id] == Opening then 1 else 0)
        invariant forall id | id in entries && id !in todo ::
                    multiset(pending)[id] == (if entries[id] in {Entry.Open, Ending} then 1 else 0)
        decreases |todo|
      {
        var id :| id in todo;
        todo := todo - {id};
        match entries[id]
        case Opening => cancelled := cancelled + [id];
        case Ended =>
        case _ => pending := pending + [id];
      }
    }
  }

  // ------------------------------------------------------------------ one session id over a whole run

  datatype Said =
    | SaidOpened | SaidOpenFailed(cancelled: bool) | SaidTerminal
    | SaidReply                  // the reply of a later request
    | SaidStart                  // a statement started
    | SaidUnsolicited            // output or a transaction state

  /** A thread carrying out its duty. */
  datatype Task = Task(duty: Duty, at: Stage)
  datatype Stage = MarkCancelled | Mark | Answer | Claim | Say

  /** The session's own thread. A loss is announced by a worker that goes on answering
      (`Announcing`); a worker that leaves announces the end if nobody did (`Leaving`). */
  datatype Worker = Connecting | Holding | Reporting | Running | Announcing | Leaving | Gone

  datatype Life = Life(
    entry: Option<Entry>, worker: Worker, tasks: seq<Task>,
    openCancelled: bool, terminalEmitted: bool, log: seq<Said>,
    adopted: bool,               // the connection became the session's
    lost: bool,                  // and was lost again
    told: bool,                  // somebody gave the session up: abandon, retire or teardown
    live: nat)                   // connections open on the server

  datatype Step =
    | Connected(ok: bool) | AbandonIt | RetireIt | TearDown
    | Perform(i: nat)
    | CloseUnadopted | Report
    | Reply                      // by the worker, or of a request nobody will run by the thread that made it
    | Start | Speak | Lose | AnnounceLoss | Leave | SayEnd              // the worker

  predicate Enabled(s: Life, step: Step) {
    match step
    case Connected(_) => s.worker.Connecting?
    case Perform(i) => i < |s.tasks|
    case CloseUnadopted => s.worker.Holding?
    case Report => s.worker.Reporting?
    case Reply => s.worker.Running? || s.worker.Announcing? || s.worker.Leaving? || (s.worker.Gone? && s.adopted)
    case Start => s.worker.Running?
    case Speak => s.worker.Running? && !s.terminalEmitted
    case Lose => s.worker.Running? && !s.lost
    case AnnounceLoss => s.worker.Running? && s.lost && !s.terminalEmitted
    case Leave => s.worker.Running?
    case SayEnd => s.worker.Announcing? || s.worker.Leaving?
    case _ => true
  }

  function TasksFor(duty: Duty): seq<Task> {
    match duty
    case Refuse => [Task(Refuse, Mark)]
    case Cancel => [Task(Cancel, MarkCancelled)]
    case _ => []
  }

  function Decide(s: Life, d: Decision): Life {
    s.(entry := d.entry, tasks := s.tasks + TasksFor(d.duty),
       told := s.told || d.duty == Cancel || d.duty == Release)
  }

  function Without(tasks: seq<Task>, i: nat): seq<Task>
    requires i < |tasks|
  {
    tasks[..i] + tasks[i + 1..]
  }

  function Performed(s: Life, i: nat): Life
    requires i < |s.tasks|
  {
    var t := s.tasks[i];
    match t.at
    case MarkCancelled => s.(tasks := s.tasks[i := t.(at := Mark)], openCancelled := true)
    case Mark => s.(tasks := s.tasks[i := t.(at := Answer)])
    case Answer =>
      // a refused open carries the connect's own error; a dropped reply asks the session for its
      s.(tasks := s.tasks[i := t.(at := Claim)],
         log := s.log + [SaidOpenFailed(t.duty == Cancel && s.openCancelled)])
    case Claim =>
      if s.terminalEmitted then s.(tasks := Without(s.tasks, i))
      else s.(tasks := s.tasks[i := t.(at := Say)], terminalEmitted := true)
    case Say => s.(tasks := Without(s.tasks, i), log := s.log + [SaidTerminal])
  }

  function Next(s: Life, step: Step): Life
    requires Enabled(s, step)
  {
    match step
    case Connected(ok) =>
      var d := Complete(s.entry, ok);
      Decide(s, d).(worker := match d.duty { case Announce => Reporting case CloseLate => Holding case _ => Gone },
                    adopted := s.adopted || d.duty == Announce,
                    live := if ok then s.live + 1 else s.live)
    case AbandonIt => Decide(s, AbandonEntry(s.entry))
    case RetireIt => Decide(s, RetireEntry(s.entry))
    case TearDown => Decide(s, RetireEntry(s.entry))
    case Perform(i) => Performed(s, i)
    case CloseUnadopted => s.(worker := Gone, live := if s.live == 0 then 0 else s.live - 1)
    case Report => s.(worker := Running, log := s.log + [SaidOpened])
    case Reply => s.(log := s.log + [SaidReply])
    case Start => s.(log := s.log + [SaidStart])
    case Speak => s.(log := s.log + [SaidUnsolicited])
    case Lose => s.(lost := true, live := if s.live == 0 then 0 else s.live - 1)
    case AnnounceLoss => s.(worker := Announcing, terminalEmitted := true)
    case Leave =>
      s.(worker := if s.terminalEmitted then Gone else Leaving, terminalEmitted := true,
         live := if s.live == 0 || s.lost then s.live else s.live - 1)
    case SayEnd => s.(worker := if s.worker.Announcing? then Running else Gone, log := s.log + [SaidTerminal])
  }

  /** Just opened: either the thread was spawned and is connecting, or it was not. */
  predicate Init(s: Life) {
    s == Life(Some(Opening), Worker.Connecting, [], false, false, [], false, false, false, 0)
    || s == Life(None, Gone, [Task(Refuse, Mark)], false, false, [], false, false, false, 0)
  }

  // ------------------------------------------------------------------ what every step keeps

  /** How far the one refusal of a session that never opened has come. */
  predicate Refusing(s: Life, t: Task) {
    && (t.duty.Refuse? || t.duty.Cancel?)
    && (t.at.MarkCancelled? ==> t.duty.Cancel?)
    && (t.duty.Cancel? && !t.at.MarkCancelled? <==> s.openCancelled)
    && s.terminalEmitted == t.at.Say?
    && s.log == (if t.at.Claim? || t.at.Say? then [SaidOpenFailed(t.duty.Cancel?)] else [])
    && (t.duty.Cancel? <==> s.told)
  }

  predicate Refused(s: Life) {
    s.terminalEmitted && s.log == [SaidOpenFailed(s.openCancelled), SaidTerminal] && s.openCancelled == s.told
  }

  /** The open's one reply is in the entry, with one thread, or given. */
  predicate NeverOpened(s: Life) {
    && (s.worker.Connecting? || s.worker.Holding? || s.worker.Gone?) && !s.lost
    && (s.worker.Connecting? ==> s.entry in {Some(Opening), Some(Ended), None})
    && (!s.worker.Connecting? ==> s.entry == None)
    && s.live == (if s.worker.Holding? then 1 else 0)
    && |s.tasks| <= 1
    && (s.entry == Some(Opening) ==> s.tasks == [] && s.log == [] && !s.openCancelled && !s.terminalEmitted && !s.told)
    && (s.entry != Some(Opening) ==> if s.tasks == [] then Refused(s) else Refusing(s, s.tasks[0]))
    && (s.worker.Connecting? && s.entry != Some(Opening) ==> s.told && (s.tasks != [] ==> s.tasks[0].duty == Cancel))
  }

  predicate IsOpenReply(e: Said) { e.SaidOpened? || e.SaidOpenFailed? }

  /** After the end come replies, and starts if the end was a loss. */
  predicate LogOk(log: seq<Said>, lost: bool) {
    && (log != [] ==> log[0] == SaidOpened)
    && (forall i | 0 < i < |log| :: !IsOpenReply(log[i]))
    && (forall i, j | 0 <= i < j < |log| && log[i].SaidTerminal? :: log[j].SaidReply? || (log[j].SaidStart? && lost))
  }

  predicate OpenedWell(s: Life) {
    && s.tasks == [] && !s.openCancelled
    && (s.worker.Reporting? || s.worker.Running? || s.worker.Announcing? || s.worker.Leaving? || s.worker.Gone?)
    && s.entry in {Some(Open), Some(Ending), None}
    && (!s.told ==> s.entry == Some(Open))
    && (s.terminalEmitted <==> s.worker.Announcing? || s.worker.Leaving? || SaidTerminal in s.log)
    && ((s.worker.Announcing? || s.worker.Leaving?) ==> SaidTerminal !in s.log)
    && (s.worker.Gone? ==> SaidTerminal in s.log)
    && (s.worker.Announcing? || (s.worker.Running? && s.terminalEmitted) ==> s.lost)
    && (s.worker.Reporting? ==> !s.lost)
    && s.live == (if (s.worker.Reporting? || s.worker.Running?) && !s.lost then 1 else 0)
    && (s.worker.Reporting? <==> s.log == [])
    && LogOk(s.log, s.lost)
  }

  predicate Inv(s: Life) {
    if s.adopted then OpenedWell(s) else NeverOpened(s)
  }

  lemma PerformKeepsInv(s: Life, i: nat)
    requires Inv(s) && i < |s.tasks|
    ensures Inv(Performed(s, i))
  {
  }

  lemma DecisionKeepsInv(s: Life, d: Decision)
    requires Inv(s) && (d == AbandonEntry(s.entry) || d == RetireEntry(s.entry))
    ensures Inv(Decide(s, d))
  {
  }

  lemma WorkerKeepsInv(s: Life, step: Step)
    requires Inv(s) && Enabled(s, step)
    requires step.Connected? || step.CloseUnadopted? || step.Report?
    ensures Inv(Next(s, step))
  {
  }

  lemma TalkingKeepsInv(s: Life, step: Step)
    requires Inv(s) && Enabled(s, step)
    requires step.Reply? || step.Start? || step.Speak? || step.Lose? || step.AnnounceLoss?
             || step.Leave? || step.SayEnd?
    ensures Inv(Next(s, step))
  {
  }

  lemma StepKeepsInv(s: Life, step: Step)
    requires Inv(s) && Enabled(s, step)
    ensures Inv(Next(s, step))
  {
    match step
    case Perform(i) => PerformKeepsInv(s, i);
    case AbandonIt => DecisionKeepsInv(s, AbandonEntry(s.entry));
    case RetireIt => DecisionKeepsInv(s, RetireEntry(s.entry));
    case TearDown => DecisionKeepsInv(s, RetireEntry(s.entry));
    case Connected(_) => WorkerKeepsInv(s, step);
    case CloseUnadopted => WorkerKeepsInv(s, step);
    case Report => WorkerKeepsInv(s, step);
    case _ => TalkingKeepsInv(s, step);
  }

  // ------------------------------------------------------------------ theorems over every run

  predicate Legal(s: Life, steps: seq<Step>)
    decreases |steps|
  {
    steps == [] || (Enabled(s, steps[0]) && Legal(Next(s, steps[0]), steps[1..]))
  }

  function Run(s: Life, steps: seq<Step>): Life
    requires Legal(s, steps)
    decreases |steps|
  {
    if steps == [] then s else Run(Next(s, steps[0]), steps[1..])
  }

  lemma {:induction false} RunKeepsInv(s: Life, steps: seq<Step>)
    requires Inv(s) && Legal(s, steps)
    ensures Inv(Run(s, steps))
    decreases |steps|
  {
    if steps != [] {
      StepKeepsInv(s, steps[0]);
      RunKeepsInv(Next(s, steps[0]), steps[1..]);
    }
  }

  /** The first thing a session says is the one reply of its open, which says `Opened` exactly when
      its connection was adopted, whatever races the connect; no second reply ever follows. */
  lemma OneOpenReplyFirst(s: Life, steps: seq<Step>)
    requires Init(s) && Legal(s, steps)
    ensures var n := Run(s, steps);
            && (n.log != [] ==> IsOpenReply(n.log[0]) && (n.log[0] == SaidOpened <==> n.adopted))
            && (forall i | 0 < i < |n.log| :: !IsOpenReply(n.log[i]))
            && (!n.worker.Connecting? && !n.worker.Reporting? && n.tasks == [] ==> n.log != [])
  {
    RunKeepsInv(s, steps);
  }

  /** A session that never opens says exactly `OpenFailed` and then `Terminal`: both are said once
      the threads that took part are done, and `Cancelled` is said exactly when it was cancelled. */
  lemma NeverOpenedSaysTwoThings(s: Life, steps: seq<Step>)
    requires Init(s) && Legal(s, steps) && !Run(s, steps).adopted
    ensures var n := Run(s, steps);
            && n.log <= [SaidOpenFailed(n.openCancelled), SaidTerminal]
            && (n.entry != Some(Opening) && n.tasks == [] ==> |n.log| == 2)
            && (|n.log| > 0 ==> n.openCancelled == n.told)
  {
    RunKeepsInv(s, steps);
  }

  /** A tombstone waits for a connect that is still running, so none outlives it; nothing is adopted
      late; and a connection that arrives late is closed by the thread that opened it. */
  lemma NothingIsLeftBehind(s: Life, steps: seq<Step>)
    requires Init(s) && Legal(s, steps)
    ensures var n := Run(s, steps);
            && (n.entry == Some(Ended) ==> n.worker.Connecting?)
            && (n.worker.Gone? ==> n.live == 0)
            && (!n.adopted && !n.worker.Connecting? ==> n.entry == None && n.live <= 1)
            && n.live <= 1
  {
    RunKeepsInv(s, steps);
  }

  /** Once a decision against an unfinished connect is taken, no continuation adopts it. */
  lemma {:induction false} NeverAdoptedLate(s: Life, steps: seq<Step>)
    requires Inv(s) && Legal(s, steps) && !s.adopted && s.entry != Some(Opening)
    ensures !Run(s, steps).adopted && SaidOpened !in Run(s, steps).log
    decreases |steps|
  {
    if steps != [] {
      StepKeepsInv(s, steps[0]);
      NeverAdoptedLate(Next(s, steps[0]), steps[1..]);
    }
  }

  /** The handle is in the registry from before `Opened` is said until somebody ends the session. The
      end comes after `Opened` and is announced once; every worker that is gone has announced it. */
  lemma HandleIsThereWhenOpened(s: Life, steps: seq<Step>)
    requires Init(s) && Legal(s, steps) && Run(s, steps).adopted
    ensures var n := Run(s, steps);
            && (!n.told ==> n.entry == Some(Open))
            && (n.worker.Gone? ==> SaidTerminal in n.log)
            && (forall i, j | 0 <= i < |n.log| && 0 <= j < |n.log| ::
                  n.log[i].SaidTerminal? && n.log[j].SaidTerminal? ==> 0 < i == j)
  {
    RunKeepsInv(s, steps);
  }

  /** After its end an opened session says nothing but replies and, if it was lost, starts. */
  lemma OnlyAnswersFollowTheEnd(s: Life, steps: seq<Step>)
    requires Init(s) && Legal(s, steps) && Run(s, steps).adopted
    ensures var n := Run(s, steps);
            forall i, j | 0 <= i < j < |n.log| && n.log[i].SaidTerminal? ::
                n.log[j].SaidReply? || (n.log[j].SaidStart? && n.lost)
  {
    RunKeepsInv(s, steps);
  }

  /** Some step from here says `e` next. */
  ghost predicate CanSay(s: Life, e: Said) {
    exists step :: Enabled(s, step) && Next(s, step).log == s.log + [e]
  }

  /** What an opened session can say next, before and after its end, is exactly this: `Opened` first;
      then a reply at any time, because the thread that makes a late request answers it; a start while
      the worker runs, output and transaction states only until the end is claimed, and the end by the
      worker that claimed it. */
  lemma CanSayExactly(s: Life, e: Said)
    requires Inv(s) && s.adopted
    ensures CanSay(s, e) <==>
            match e
            case SaidOpened => s.worker.Reporting?
            case SaidOpenFailed(_) => false
            case SaidTerminal => s.worker.Announcing? || s.worker.Leaving?
            case SaidReply => !s.worker.Reporting?
            case SaidStart => s.worker.Running?
            case SaidUnsolicited => s.worker.Running? && !s.terminalEmitted
  {
    var how := match e case SaidOpened => Report case SaidTerminal => SayEnd case SaidReply => Step.Reply
                      case SaidStart => Start case _ => Speak;
    if !e.SaidOpenFailed? && Enabled(s, how) {
      assert Next(s, how).log == s.log + [e];
    }
    forall step | Enabled(s, step) && Next(s, step).log == s.log + [e]
      ensures !e.SaidOpenFailed? && step == how
    {
      assert Next(s, step).log[|s.log|] == e;
    }
  }

  /** In particular after its end: a reply, always; a start, as long as the worker of a lost session is
      still there; nothing else. */
  lemma AfterTheEndItCanSay(s: Life, e: Said)
    requires Inv(s) && s.adopted && SaidTerminal in s.log
    ensures CanSay(s, e) <==> e.SaidReply? || (e.SaidStart? && s.worker.Running?)
    ensures s.worker.Running? ==> s.lost
  {
    CanSayExactly(s, e);
  }

  // ------------------------------------------------------------------ what is started is finished

  /** What giving up does to the entry at once: a connect still running leaves a tombstone behind an
      abandon and nothing behind a retire; an open session is ending, or gone; and from then on the
      session counts as given up. */
  lemma GivingUpTakesEffect(s: Life)
    ensures var n := Next(s, AbandonIt);
            && n.entry == (match s.entry case Some(Opening) => Some(Ended) case Some(Open) => Some(Ending) case e => e)
            && (s.entry == Some(Opening) || s.entry == Some(Open) ==> n.told)
    ensures var n := Next(s, RetireIt); n.entry.None? && (s.entry.Some? && s.entry != Some(Ended) ==> n.told)
    ensures Next(s, TearDown) == Next(s, RetireIt)
  {
  }

  /** How many steps a refusal still takes. */
  function StagesLeft(at: Stage): nat {
    match at case MarkCancelled => 5 case Mark => 4 case Answer => 3 case Claim => 2 case Say => 1
  }

  function WorkLeft(tasks: seq<Task>): nat {
    if tasks == [] then 0 else StagesLeft(tasks[0].at) + WorkLeft(tasks[1..])
  }

  lemma RefusalProgresses(s: Life)
    requires Inv(s) && s.tasks != []
    ensures WorkLeft(Next(s, Perform(0)).tasks) < WorkLeft(s.tasks)
    ensures Next(s, Perform(0)).adopted == s.adopted && Next(s, Perform(0)).entry == s.entry
  {
    assert s.tasks[1..] == [];
    assert Next(s, Perform(0)).tasks != [] ==> Next(s, Perform(0)).tasks[1..] == [];
  }

  /** A session that was refused or given up before it opened says both its words, in at most five
      steps of the thread that took it on, whatever else happens or does not. */
  lemma {:induction false} RefusalCompletes(s: Life) returns (steps: seq<Step>)
    requires Inv(s) && !s.adopted && s.entry != Some(Opening)
    ensures Legal(s, steps) && |steps| <= WorkLeft(s.tasks) && (forall i | 0 <= i < |steps| :: steps[i] == Perform(0))
    ensures Run(s, steps).tasks == []
    ensures Run(s, steps).log == [SaidOpenFailed(Run(s, steps).openCancelled), SaidTerminal]
    decreases WorkLeft(s.tasks)
  {
    steps := [];
    if s.tasks != [] {
      RefusalProgresses(s);
      StepKeepsInv(s, Perform(0));
      var rest := RefusalCompletes(Next(s, Perform(0)));
      steps := [Perform(0)] + rest;
      assert steps[1..] == rest;
    }
  }

  /** A loss is announced by a worker that stays; a worker that leaves has announced the end. */
  lemma EndsAreAnnounced(s: Life)
    requires Inv(s) && s.worker.Running?
    ensures s.lost && !s.terminalEmitted ==>
              var n := Next(s, AnnounceLoss);
              Enabled(n, SayEnd) && Next(n, SayEnd).worker.Running? && Next(n, SayEnd).log == s.log + [SaidTerminal]
    ensures var n := Next(s, Leave);
            if s.terminalEmitted then n.worker.Gone? && n.log == s.log
            else Enabled(n, SayEnd) && Next(n, SayEnd).worker.Gone? && Next(n, SayEnd).log == s.log + [SaidTerminal]
  {
  }
}
