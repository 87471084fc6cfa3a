/** Transaction tracking against the truth. The worker runs one command after another; beside what
    the session records, the state carries what the server really holds (`serverOpen`) and whether
    an open transaction went away with the connection (`workLost`), which nothing can read.

    A driver is trusted with one thing only: it does not say `Inactive` while a transaction is open. */
module Transactions {
  import opened SessionShared
  import opened Wrappers

  datatype State = State(
    t: Tracked, exact: bool,
    held: nat, limit: nat,       // open results, and how many a session may have
    connected: bool, exited: bool,
    terminal: Option<bool>,      // what `Terminal` said about losing a transaction
    serverOpen: bool, workLost: bool)

  /** What a driver call did and said. `handles` counts the results a statement returns. */
  datatype Outcome =
    | Returned(kind: StatementKind, implicitCommit: bool, handles: nat, openAfter: bool, said: Transaction)
    | Raised(error: Error, openAfter: bool, said: Transaction)

  datatype Intent = Unspecified | Chosen(failure: Option<Error>, stillOpen: bool) | Abandoning

  datatype Step =
    | Execute(o: Outcome)
    | ReadOutput(o: Outcome)                         // reading server output back failed
    | Resolve(o: Outcome)                            // commit or rollback
    | RollbackTo(o: Outcome)                         // back to a savepoint
    | Untracked(o: Outcome, closes: bool)            // savepoint, ping, fetch, close a result, read a LOB
    | Close(intent: Intent)
    | Hangup

  predicate Truthful(said: Transaction, open: bool) { said == Inactive ==> !open }

  /** What the driver contract allows. What a driver says after losing its connection is not used. */
  predicate Conforms(o: Outcome) {
    (o.Raised? && o.error.session == Lost) || Truthful(o.said, o.openAfter)
  }

  predicate Enabled(s: State, step: Step) {
    && !s.exited
    && match step
       case Execute(o) => s.connected && Conforms(o)
       case ReadOutput(o) => s.connected && o.Raised? && Conforms(o)
       case Resolve(o) => s.connected && Conforms(o) && (o.Returned? ==> !o.openAfter)
       case RollbackTo(o) => s.connected && Conforms(o)
       case Untracked(o, _) => s.connected && Conforms(o)
       case Close(_) => true
       case Hangup => true
  }

  // ------------------------------------------------------------------ the worker's commands

  /** Results still open when this outcome's own results are registered. */
  function HeldBefore(s: State, o: Outcome): nat
    requires o.Returned?
  {
    if o.implicitCommit || o.kind.TransactionControl? then 0 else s.held
  }

  /** The statement ran, but its results do not fit. */
  predicate Overflows(s: State, o: Outcome) {
    o.Returned? && HeldBefore(s, o) + o.handles > s.limit
  }

  /** After a failed call a lost connection is not believed. */
  function AfterFailure(t: Tracked, o: Outcome): Tracked
    requires o.Raised?
  {
    t.Noted(o.error).AfterDriverSaid(if o.error.session == Lost then Unknown else o.said)
  }

  /** A statement whose results do not fit returns before its transaction is noted. */
  function Executed(s: State, o: Outcome): State {
    if o.Raised? then s.(t := AfterFailure(s.t, o), serverOpen := o.openAfter)
    else
      var t := if o.implicitCommit then s.t.AfterResolving() else s.t;
      if Overflows(s, o) then s.(t := t, held := HeldBefore(s, o), serverOpen := o.openAfter)
      else
        s.(t := if o.implicitCommit then t.AfterDriverSaid(o.said) else t.AfterStatement(o.kind, o.said, s.exact),
           held := HeldBefore(s, o) + o.handles, serverOpen := o.openAfter)
  }

  function Resolved(s: State, o: Outcome): State {
    if o.Raised? then s.(t := AfterFailure(s.t, o), serverOpen := o.openAfter)
    else s.(t := s.t.AfterResolving().AfterDriverSaid(o.said), held := 0, serverOpen := o.openAfter)
  }

  function RolledBackTo(s: State, o: Outcome): State {
    if o.Raised? then s.(t := AfterFailure(s.t, o), serverOpen := o.openAfter)
    else s.(t := s.t.AfterDriverSaid(o.said), held := 0, serverOpen := o.openAfter)
  }

  /** A call after which the worker notes an error but does not ask the driver about the transaction. */
  function Called(s: State, o: Outcome, closes: bool): State {
    s.(t := if o.Raised? then s.t.Noted(o.error) else s.t,
       held := if closes && s.held > 0 then s.held - 1 else s.held, serverOpen := o.openAfter)
  }

  /** The connection goes, and the server rolls back what it held. */
  function Disconnected(s: State): State {
    s.(connected := false, held := 0, serverOpen := false, workLost := s.workLost || s.serverOpen)
  }

  function Announced(s: State): State {
    if s.terminal.Some? then s else s.(terminal := Some(s.t.LostAtEnd()))
  }

  /** After every command: a lost session drops its connection and announces its end. */
  function Settled(s: State): State {
    if s.t.lifecycle == Lost then Announced(Disconnected(s)) else s
  }

  function EndedAs(s: State, how: Ending): State {
    Announced(Disconnected(s.(t := s.t.MarkedClosed().EndedBy(how).EndedBy(Unresolved), exited := true)))
  }

  function Closed(s: State, intent: Intent): State {
    if !s.connected then EndedAs(s, Unresolved)
    else
      match intent
      case Abandoning => EndedAs(s, Unresolved)
      case Unspecified => if s.t.PossiblyActive() then s else EndedAs(s, Cleanly)
      case Chosen(Some(error), stillOpen) => s.(t := s.t.Noted(error), serverOpen := stillOpen)
      case Chosen(None, _) =>
        EndedAs(s.(t := s.t.AfterResolving().(resolvedAtEnd := true), serverOpen := false), Cleanly)
  }

  function Next(s: State, step: Step): State
    requires Enabled(s, step)
  {
    match step
    case Execute(o) => Settled(Executed(s, o))
    case ReadOutput(o) => Settled(s.(t := AfterFailure(s.t, o), serverOpen := o.openAfter))
    case Resolve(o) => Settled(Resolved(s, o))
    case RollbackTo(o) => Settled(RolledBackTo(s, o))
    case Untracked(o, closes) => Settled(Called(s, o, closes))
    case Close(intent) => Settled(Closed(s, intent))
    case Hangup => EndedAs(s, Unresolved)
  }

  /** A connection just opened; what its driver says about it is recorded. */
  predicate Init(s: State) {
    && s.t == FRESH.AfterDriverSaid(s.t.driver) && Truthful(s.t.driver, s.serverOpen)
    && s.limit > 0 && s.held == 0 && s.connected && !s.exited && s.terminal.None? && !s.workLost
  }

  // ------------------------------------------------------------------ never under-reported

  /** A transaction really open is a transaction the session knows it may have. */
  predicate Truth(s: State) { s.serverOpen ==> s.t.PossiblyActive() }

  predicate Inv(s: State) {
    && s.limit > 0 && s.held <= s.limit
    && (s.connected ==> && Truth(s) && !s.workLost && s.terminal.None? && s.t.ended.None? && !s.t.resolvedAtEnd
                        && s.t.lifecycle != Lost && !s.exited)
    && (!s.connected ==> !s.serverOpen && s.terminal.Some?)
    && (s.exited ==> s.t.ended.Some?)
    && (s.workLost ==> s.terminal == Some(true) && s.t.ended != Some(Cleanly))
  }

  /** What a command leaves before the loss of the session, if any, is acted on. */
  predicate Unsettled(s: State) {
    && s.limit > 0 && s.held <= s.limit && s.connected && !s.exited
    && Truth(s) && !s.workLost && s.terminal.None? && s.t.ended.None? && !s.t.resolvedAtEnd
  }

  lemma SettlingKeepsInv(s: State)
    requires Unsettled(s)
    ensures Inv(Settled(s))
  {
  }

  /** The step leaves a transaction open that the session has no record of: a statement whose results
      do not fit, with no earlier suspicion left; or a call after which the driver is not asked. */
  predicate Hides(s: State, step: Step) {
    match step
    case Execute(o) =>
      Overflows(s, o) && o.openAfter && !MayBeOpen(s.t.driver) && (!s.t.core || o.implicitCommit)
    case Untracked(o, _) => o.openAfter && !s.t.PossiblyActive()
    case Close(Chosen(Some(_), stillOpen)) => s.connected && stillOpen && !s.t.PossiblyActive()
    case _ => false
  }

  lemma ExecuteKeepsTruth(s: State, o: Outcome)
    requires Inv(s) && s.connected && Conforms(o) && !Hides(s, Execute(o))
    ensures Unsettled(Executed(s, o))
  {
  }

  lemma EndingKeepsInv(s: State, how: Ending)
    requires Inv(s) && !s.exited && (how == Cleanly ==> s.connected && !s.serverOpen)
    ensures Inv(EndedAs(s, how)) && !EndedAs(s, how).connected
  {
  }

  lemma ClosingKeepsInv(s: State, intent: Intent)
    requires Inv(s) && Enabled(s, Close(intent)) && !Hides(s, Close(intent))
    ensures Inv(Settled(Closed(s, intent)))
  {
    if s.connected && intent == Unspecified && !s.t.PossiblyActive() {
      EndingKeepsInv(s, Cleanly);
    } else if s.connected && intent.Chosen? && intent.failure.None? {
      ResolvedEnd(s);
    } else if s.connected && intent.Chosen? {
      SettlingKeepsInv(Closed(s, intent));
    } else {
      EndingKeepsInv(s, Unresolved);
    }
  }

  lemma ResolvedEnd(s: State)
    requires Inv(s) && s.connected
    ensures Inv(Settled(EndedAs(s.(t := s.t.AfterResolving().(resolvedAtEnd := true), serverOpen := false), Cleanly)))
  {
  }

  lemma StepKeepsInv(s: State, step: Step)
    requires Inv(s) && Enabled(s, step) && !Hides(s, step)
    ensures Inv(Next(s, step))
  {
    match step
    case Execute(o) =>
      ExecuteKeepsTruth(s, o);
      SettlingKeepsInv(Executed(s, o));
    case ReadOutput(o) => SettlingKeepsInv(s.(t := AfterFailure(s.t, o), serverOpen := o.openAfter));
    case Resolve(o) => SettlingKeepsInv(Resolved(s, o));
    case RollbackTo(o) => SettlingKeepsInv(RolledBackTo(s, o));
    case Untracked(o, closes) => SettlingKeepsInv(Called(s, o, closes));
    case Close(intent) => ClosingKeepsInv(s, intent);
    case Hangup => EndingKeepsInv(s, Unresolved);
  }

  predicate Legal(s: State, steps: seq<Step>)
    decreases |steps|
  {
    steps == [] || (Enabled(s, steps[0]) && Legal(Next(s, steps[0]), steps[1..]))
  }

  function Run(s: State, steps: seq<Step>): State
    requires Legal(s, steps)
    decreases |steps|
  {
    if steps == [] then s else Run(Next(s, steps[0]), steps[1..])
  }

  /** No step of the run hides a transaction. */
  predicate Recorded(s: State, steps: seq<Step>)
    requires Legal(s, steps)
    decreases |steps|
  {
    steps == [] || (!Hides(s, steps[0]) && Recorded(Next(s, steps[0]), steps[1..]))
  }

  lemma {:induction false} RunKeepsInv(s: State, steps: seq<Step>)
    requires Inv(s) && Legal(s, steps) && Recorded(s, steps)
    ensures Inv(Run(s, steps))
    decreases |steps|
  {
    if steps != [] {
      StepKeepsInv(s, steps[0]);
      RunKeepsInv(Next(s, steps[0]), steps[1..]);
    }
  }

  /** In every run in which no step hides one, an open transaction is always tracked; `Terminal` says
      "nothing lost" only if nothing was; and a close that finds the session over is told it
      succeeded only if no work was lost. */
  lemma NothingIsLostUnreported(s: State, steps: seq<Step>)
    requires Init(s) && Legal(s, steps) && Recorded(s, steps)
    ensures var n := Run(s, steps);
            && Truth(n)
            && (n.terminal == Some(false) ==> !n.workLost)
            && (n.t.LateClose() == Done ==> !n.workLost)
            && (n.exited ==> n.terminal.Some? && n.t.ended.Some?)
  {
    RunKeepsInv(s, steps);
  }

  // ------------------------------------------------------------------ exactly what the end says

  /** While connected the end is not announced; without a connection it is. */
  predicate Ongoing(s: State) {
    if s.connected then s.terminal.None? && !s.t.resolvedAtEnd && s.t.lifecycle != Lost && !s.exited && s.t.ended.None?
    else s.terminal.Some?
  }

  /** A session that goes on, whatever its last call did to the tracking. */
  predicate Undecided(s: State) {
    s.connected && s.terminal.None? && !s.t.resolvedAtEnd && !s.exited && s.t.ended.None?
  }

  predicate SaysOfItself(n: State) { n.terminal == Some(n.t.core || n.t.driver != Inactive) }

  lemma SettlingSays(s: State)
    requires Undecided(s)
    ensures var n := Settled(s);
            Ongoing(n) && n.t == s.t && !n.exited && (n.connected <==> s.t.lifecycle != Lost)
            && (!n.connected ==> SaysOfItself(n))
  {
  }

  lemma EndingSays(s: State, how: Ending)
    requires s.connected && s.terminal.None?
    ensures var n := EndedAs(s, how);
            Ongoing(n) && !n.connected && n.exited && n.t.core == s.t.core && n.t.driver == s.t.driver
            && (n.t.lifecycle == Lost <==> s.t.lifecycle == Lost)
            && (if s.t.resolvedAtEnd then n.terminal == Some(false) else SaysOfItself(n))
  {
  }

  lemma EndedStaysEnded(s: State, step: Step)
    requires Ongoing(s) && !s.connected && Enabled(s, step)
    ensures var n := Next(s, step); Ongoing(n) && !n.connected && n.terminal == s.terminal
  {
  }

  lemma CloseSays(s: State, intent: Intent)
    requires Ongoing(s) && s.connected
    ensures var n := Next(s, Close(intent));
            && Ongoing(n)
            && (!n.connected ==> if Resolves(s, Close(intent)) then n.terminal == Some(false) else SaysOfItself(n))
  {
    match intent
    case Abandoning => EndingSays(s, Unresolved);
    case Unspecified => EndingSays(s, Cleanly);
    case Chosen(None, _) =>
      EndingSays(s.(t := s.t.AfterResolving().(resolvedAtEnd := true), serverOpen := false), Cleanly);
    case Chosen(Some(error), stillOpen) => SettlingSays(s.(t := s.t.Noted(error), serverOpen := stillOpen));
  }

  lemma CallSays(s: State, step: Step)
    requires Ongoing(s) && s.connected && Enabled(s, step) && !step.Close?
    ensures var n := Next(s, step); Ongoing(n) && (!n.connected ==> SaysOfItself(n))
  {
    match step
    case Execute(o) => SettlingSays(Executed(s, o));
    case ReadOutput(o) => SettlingSays(s.(t := AfterFailure(s.t, o), serverOpen := o.openAfter));
    case Resolve(o) => SettlingSays(Resolved(s, o));
    case RollbackTo(o) => SettlingSays(RolledBackTo(s, o));
    case Untracked(o, closes) => SettlingSays(Called(s, o, closes));
    case Hangup => EndingSays(s, Unresolved);
  }

  lemma StepKeepsOngoing(s: State, step: Step)
    requires Ongoing(s) && Enabled(s, step)
    ensures Ongoing(Next(s, step))
    ensures !s.connected ==> !Next(s, step).connected && Next(s, step).terminal == s.terminal
  {
    if !s.connected {
      EndedStaysEnded(s, step);
    } else if step.Close? {
      CloseSays(s, step.intent);
    } else {
      CallSays(s, step);
    }
  }

  /** A disposition of a close that the driver carried out. */
  predicate Resolves(s: State, step: Step) {
    s.connected && step.Close? && step.intent.Chosen? && step.intent.failure.None?
  }

  /** The step that ends a session makes its end say "nothing lost" if and only if it was a disposition
      that succeeded, or neither the core nor the driver counted a transaction as possible then. */
  lemma EndSaysExactlyWhen(s: State, step: Step)
    requires Ongoing(s) && s.connected && Enabled(s, step) && !Next(s, step).connected
    ensures var n := Next(s, step);
            n.terminal == Some(false) <==> Resolves(s, step) || (!n.t.core && n.t.driver == Inactive)
  {
    if step.Close? {
      CloseSays(s, step.intent);
    } else {
      CallSays(s, step);
    }
  }

  /** The error the step's driver call gave, if any. */
  function ErrorOf(step: Step): Option<Error> {
    match step
    case Close(Chosen(failure, _)) => failure
    case Close(_) => None
    case Hangup => None
    case Untracked(o, _) => if o.Raised? then Some(o.error) else None
    case _ => if step.o.Raised? then Some(step.o.error) else None
  }

  /** A close that has nothing to decide. */
  predicate Bare(s: State, step: Step) {
    s.connected && step == Close(Unspecified) && !s.t.core && s.t.driver == Inactive
  }

  /** What ends a connected session, and how it is recorded: an error of a driver call that says the
      connection is lost, which leaves the worker there and is the reason from then on;
      hanging up or an abandon, which resolve nothing; an explicit close whose disposition succeeded, or
      that needs none, which end it cleanly. */
  predicate EndsRight(s: State, step: Step, n: State) {
    && (n.t.lifecycle == Lost <==> ErrorOf(step).Some? && ErrorOf(step).value.session == Lost && s.connected)
    && (n.t.lifecycle == Lost ==> n.t.reason == ErrorOf(step))
    && (!n.connected <==> n.t.lifecycle == Lost || n.exited)
    && (n.exited <==> step.Hangup? || step == Close(Abandoning) || Bare(s, step) || Resolves(s, step))
    && n.t.ended == (if !n.exited then None else if Bare(s, step) || Resolves(s, step) then Some(Cleanly)
                     else Some(Unresolved))
  }

  lemma CloseEndsExactlyWhen(s: State, intent: Intent)
    requires Ongoing(s) && s.connected
    ensures EndsRight(s, Close(intent), Next(s, Close(intent)))
  {
  }

  lemma EndsExactlyWhen(s: State, step: Step)
    requires Ongoing(s) && s.connected && Enabled(s, step)
    ensures EndsRight(s, step, Next(s, step))
  {
    match step
    case Execute(o) => SettlingSays(Executed(s, o));
    case ReadOutput(o) => SettlingSays(s.(t := AfterFailure(s.t, o), serverOpen := o.openAfter));
    case Resolve(o) => SettlingSays(Resolved(s, o));
    case RollbackTo(o) => SettlingSays(RolledBackTo(s, o));
    case Untracked(o, closes) => SettlingSays(Called(s, o, closes));
    case Close(intent) => CloseEndsExactlyWhen(s, intent);
    case Hangup => EndingSays(s, Unresolved);
  }

  /** In every run, what the end says was decided by the step that ended the session, in this way; it
      is said exactly when there is no connection any more. */
  lemma {:induction false} EndIsDecidedOnce(s: State, steps: seq<Step>) returns (k: nat)
    requires Ongoing(s) && s.connected && Legal(s, steps)
    ensures Ongoing(Run(s, steps)) && (Run(s, steps).terminal.Some? <==> !Run(s, steps).connected)
    ensures !Run(s, steps).connected ==>
              && k < |steps| && Legal(s, steps[..k]) && Run(s, steps[..k]).connected
              && Enabled(Run(s, steps[..k]), steps[k])
              && var n := Next(Run(s, steps[..k]), steps[k]);
                 && n.terminal == Run(s, steps).terminal
                 && (n.terminal == Some(false) <==>
                       Resolves(Run(s, steps[..k]), steps[k]) || (!n.t.core && n.t.driver == Inactive))
    decreases |steps|
  {
    k := 0;
    if steps != [] {
      var n, rest := Next(s, steps[0]), steps[1..];
      StepKeepsOngoing(s, steps[0]);
      if n.connected {
        var j := EndIsDecidedOnce(n, rest);
        k := j + 1;
        if !Run(s, steps).connected {
          assert steps[..k][1..] == rest[..j] && steps[..k][0] == steps[0] && steps[k] == rest[j];
        }
      } else {
        EndSaysExactlyWhen(s, steps[0]);
        EndStays(n, rest);
        assert steps[..0] == [];
      }
    }
  }

  lemma {:induction false} EndStays(s: State, steps: seq<Step>)
    requires Ongoing(s) && !s.connected && Legal(s, steps)
    ensures Ongoing(Run(s, steps)) && !Run(s, steps).connected && Run(s, steps).terminal == s.terminal
    decreases |steps|
  {
    if steps != [] {
      StepKeepsOngoing(s, steps[0]);
      EndStays(Next(s, steps[0]), steps[1..]);
    }
  }

  // ------------------------------------------------------------------ exactly when it fails

  /** The end said that nothing was lost, and something was. */
  predicate Lies(s: State) { s.terminal == Some(false) && s.workLost }

  /** A hidden transaction is lost unreported: at once if its call lost the connection, otherwise by
      closing without a disposition, which then asks for none. */
  lemma HiddenIsLost(s: State, step: Step) returns (more: seq<Step>)
    requires Inv(s) && s.connected && Enabled(s, step) && Hides(s, step)
    ensures Legal(Next(s, step), more) && Recorded(Next(s, step), more) && Lies(Run(Next(s, step), more))
  {
    var n := Next(s, step);
    more := [];
    if n.connected {
      var close := Close(Unspecified);
      more := [close];
      var m := Next(n, close);
      assert more[1..] == [] && Legal(m, []) && Run(m, []) == m;
    }
  }

  /** A run that hides nothing, and whose end lies all the same. */
  predicate Betrays(s: State, steps: seq<Step>) {
    Legal(s, steps) && Recorded(s, steps) && Lies(Run(s, steps))
  }

  /** After a step, some run that hides nothing itself ends in a lie, if and only if the step hid a
      transaction. */
  lemma ReportedExactlyWhen(s: State, step: Step)
    requires Inv(s) && s.connected && Enabled(s, step)
    ensures var n := Next(s, step);
            (exists more :: Betrays(n, more)) <==> Hides(s, step)
  {
    var n := Next(s, step);
    if Hides(s, step) {
      var more := HiddenIsLost(s, step);
      assert Betrays(n, more);
    } else {
      StepKeepsInv(s, step);
      forall more ensures !Betrays(n, more) {
        if Legal(n, more) && Recorded(n, more) {
          RunKeepsInv(n, more);
        }
      }
    }
  }

  /** Tracking stays true over a savepoint, or any other call after which the driver is not asked,
      whatever a conforming driver does, if and only if the session already reports a possible
      transaction, which a caller can see before the call. */
  lemma UntrackedSurvivesExactlyWhen(s: State, closes: bool)
    requires Inv(s) && s.connected
    ensures (forall o | Conforms(o) :: Truth(Called(s, o, closes))) <==> s.t.PossiblyActive()
  {
    if !s.t.PossiblyActive() {
      var o := Returned(OtherKind, false, 0, true, Unknown);
      assert Conforms(o) && !Truth(Called(s, o, closes));
    }
  }

  /** After a commit, a savepoint opens a transaction and its driver would say so; nobody asks, and
      closing reports success and says that nothing was lost. */
  lemma SavepointHidesATransaction(limit: nat) returns (s: State, steps: seq<Step>)
    requires limit > 0
    ensures Init(s) && s.limit == limit && Legal(s, steps)
    ensures Lies(Run(s, steps)) && Run(s, steps).t.LateClose() == Done
  {
    s := State(FRESH.AfterDriverSaid(Unknown), false, 0, limit, true, false, None, true, false);
    var commit := Resolve(Returned(OtherKind, false, 0, false, Inactive));
    var savepoint := Untracked(Returned(OtherKind, false, 0, true, Unknown), false);
    var close := Close(Unspecified);
    var a := Next(s, commit);
    assert a == s.(t := FRESH.AfterDriverSaid(Inactive), serverOpen := false);
    var b := Next(a, savepoint);
    assert b == a.(serverOpen := true);
    var n := Next(b, close);
    assert Legal(n, []) && Run(n, []) == n;
    steps := Before(s, commit, Before(a, savepoint, Before(b, close, [])));
  }

  function Before(s: State, step: Step, rest: seq<Step>): (steps: seq<Step>)
    requires Enabled(s, step) && Legal(Next(s, step), rest)
    ensures Legal(s, steps) && Run(s, steps) == Run(Next(s, step), rest)
  {
    var steps := [step] + rest;
    assert steps[1..] == rest;
    steps
  }

  /** A block that opens a transaction and returns one result too many leaves no trace of the
      transaction: closing then asks nothing, reports success and says that nothing was lost. */
  lemma OverflowHidesATransaction(limit: nat) returns (s: State, steps: seq<Step>)
    requires limit > 0
    ensures Init(s) && s.limit == limit && Legal(s, steps)
    ensures Lies(Run(s, steps)) && Run(s, steps).t.LateClose() == Done
  {
    s := State(FRESH.AfterDriverSaid(Inactive), true, 0, limit, true, false, None, false, false);
    var block, close := Execute(Returned(PlSqlBlock, false, limit + 1, true, Active)), Close(Unspecified);
    var a := Next(s, block);
    assert a == s.(serverOpen := true);
    var n := Next(a, close);
    assert Legal(n, []) && Run(n, []) == n;
    steps := Before(s, block, Before(a, close, []));
  }

  /** With room for every result the next statement may return, or with a transaction the driver
      itself already reports as possible, or with one the core tracks and fewer results than the
      limit, tracking stays true whatever the statement does; otherwise some conforming statement
      makes it false. A caller knows all of this before the call. */
  lemma TruthSurvivesExactlyWhen(s: State, most: nat)
    requires Inv(s) && s.connected
    ensures (forall o | Conforms(o) && (o.Returned? ==> o.handles <= most) :: Truth(Executed(s, o)))
            <==> (s.held + most <= s.limit || MayBeOpen(s.t.driver) || (s.t.core && most <= s.limit))
  {
    var safe := s.held + most <= s.limit || MayBeOpen(s.t.driver) || (s.t.core && most <= s.limit);
    if !safe {
      var o := Returned(PlSqlBlock, s.t.core, most, true, Active);
      assert Conforms(o) && !Truth(Executed(s, o));
    } else {
      forall o | Conforms(o) && (o.Returned? ==> o.handles <= most) ensures Truth(Executed(s, o)) {
        TruthSurvives(s, o, most);
      }
    }
  }

  lemma TruthSurvives(s: State, o: Outcome, most: nat)
    requires Inv(s) && s.connected && Conforms(o) && (o.Returned? ==> o.handles <= most)
    requires s.held + most <= s.limit || MayBeOpen(s.t.driver) || (s.t.core && most <= s.limit)
    ensures Truth(Executed(s, o))
  {
  }
}
