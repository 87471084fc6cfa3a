/** The state a session shares with its worker: lifecycle, transaction tracking and the record of how
    the session ended. The class updates it in place, one method per locked section or atomic
    operation; `Tracked` is its value, on which the laws over whole runs are stated. */
module SessionShared {
  import opened Wrappers

  datatype Lifecycle = Usable | NeedsValidation | Closed | Lost
  datatype Transaction = Inactive | Active | Unknown
  datatype Ending = Cleanly | Unresolved

  datatype StatementKind = Query | Dml | Ddl | PlSqlBlock | TransactionControl | SessionControl | OtherKind

  /** An error of a driver call, reduced to what the session reads from it. */
  datatype Error = Error(text: string, session: Lifecycle)

  predicate MayBeOpen(t: Transaction) { t != Inactive }

  datatype Tracked = Tracked(
    lifecycle: Lifecycle, reason: Option<Error>,
    core: bool, driver: Transaction,
    ended: Option<Ending>, resolvedAtEnd: bool, openCancelled: bool)
  {
    predicate PossiblyActive() { core || MayBeOpen(driver) }

    /** The last word of the session's `Terminal`. */
    predicate LostAtEnd() { !resolvedAtEnd && PossiblyActive() }

    // Lifecycle

    function Validated(): Tracked {
      if lifecycle == NeedsValidation then this.(lifecycle := Usable) else this
    }

    function MarkedClosed(): Tracked {
      if lifecycle == Lost then this else this.(lifecycle := Closed)
    }

    function LostFrom(e: Error): Tracked { this.(lifecycle := Lost, reason := Some(e)) }

    /** Worsens, never improves. */
    function Noted(e: Error): Tracked {
      if lifecycle == Lost then this
      else if e.session == Lost then LostFrom(e)
      else if e.session == NeedsValidation && lifecycle == Usable then this.(lifecycle := NeedsValidation)
      else this
    }

    // Transaction tracking

    /** Only an exact driver saying `Inactive` can clear a statement of suspicion, and never a DML or
        a block. */
    function AfterStatement(kind: StatementKind, said: Transaction, exact: bool): Tracked {
      var opens := kind.Dml? || kind.PlSqlBlock? || !(exact && said == Inactive);
      this.(driver := said, core := core || opens)
    }

    function AfterResolving(): Tracked { this.(core := false) }

    function AfterDriverSaid(said: Transaction): Tracked { this.(driver := said) }

    // The end

    function EndedBy(how: Ending): Tracked {
      if ended.None? then this.(ended := Some(how)) else this
    }

    /** What a close owes when the session is already over: success only for a clean end, the loss
        otherwise, and nothing yet while no end is recorded. */
    function Settled(): Option<Answer> {
      match ended
      case None => None
      case Some(Cleanly) => Some(Done)
      case Some(Unresolved) => Some(Failed(LossError()))
    }

    /** A close that finds no worker, or whose command is dropped unrun. */
    function LateClose(): Answer {
      var settled := Settled();
      if settled.Some? then settled.value else Failed(TerminalError())
    }

    function LossError(): Error {
      if reason.Some? then reason.value else Error("nothing was committed", Lost)
    }

    function TerminalError(): Error {
      if reason.Some? then reason.value
      else Error(if openCancelled then "cancelled" else "closed", Lost)
    }
  }

  datatype Answer = Done | Failed(error: Error)

  const FRESH := Tracked(Usable, None, false, Unknown, None, false, false)

  class SessionShared {
    var lifecycle: Lifecycle
    var lostReason: Option<Error>
    var corePossiblyActive: bool
    var driverState: Transaction
    var ended: Option<Ending>
    var resolvedAtEnd: bool
    var openCancelled: bool

    function Abs(): Tracked
      reads this
    {
      Tracked(lifecycle, lostReason, corePossiblyActive, driverState, ended, resolvedAtEnd, openCancelled)
    }

    constructor ()
      ensures Abs() == FRESH
    {
      lifecycle, lostReason, corePossiblyActive, driverState := Usable, None, false, Unknown;
      ended, resolvedAtEnd, openCancelled := None, false, false;
    }

    /** Never brings back a closed or a lost session. */
    method MarkValidated()
      modifies this`lifecycle
      ensures Abs() == old(Abs()).Validated()
      ensures Rank(lifecycle) == Rank(old(lifecycle)) && lifecycle != NeedsValidation
      ensures Rank(old(lifecycle)) > 0 ==> lifecycle == old(lifecycle)
    {
      if lifecycle == NeedsValidation { lifecycle := Usable; }
    }

    /** No longer usable, and a loss keeps saying so with its reason. */
    method MarkClosed()
      modifies this`lifecycle
      ensures Abs() == old(Abs()).MarkedClosed()
      ensures Rank(lifecycle) >= 1 && Rank(lifecycle) >= Rank(old(lifecycle))
      ensures lifecycle == Lost <==> old(lifecycle) == Lost
    {
      if lifecycle != Lost { lifecycle := Closed; }
    }

    method MarkLostFrom(e: Error)
      modifies this`lifecycle, this`lostReason
      ensures Abs() == old(Abs()).LostFrom(e)
    {
      lifecycle := Lost;
      lostReason := Some(e);
    }

    /** Never improves the lifecycle; the first loss keeps its reason, and a session is lost
        afterwards exactly if it was before or this error says so. */
    method NoteError(e: Error)
      modifies this`lifecycle, this`lostReason
      ensures Abs() == old(Abs()).Noted(e)
      ensures Rank(lifecycle) >= Rank(old(lifecycle))
      ensures lifecycle == Lost <==> old(lifecycle) == Lost || e.session == Lost
      ensures old(lifecycle) == Usable && e.session == NeedsValidation ==> lifecycle == NeedsValidation
      ensures old(lifecycle) != Lost && e.session == Lost ==> lostReason == Some(e)
      ensures old(lifecycle) == Lost ==> lostReason == old(lostReason)
      ensures LostHasReason(old(Abs())) ==> LostHasReason(Abs())
    {
      if lifecycle == Lost { return; }
      match e.session
      case NeedsValidation =>
        if lifecycle == Usable { lifecycle := NeedsValidation; }
      case Lost =>
        lifecycle := Lost;
        lostReason := Some(e);
      case _ =>
    }

    /** Each tracking change answers with the flip it has to announce, if any. */
    method NoteStatement(kind: StatementKind, said: Transaction, exact: bool) returns (flip: Option<bool>)
      modifies this
      ensures Abs() == old(Abs()).AfterStatement(kind, said, exact)
      ensures corePossiblyActive <==> old(corePossiblyActive) || MayOpen(kind, said, exact)
      ensures driverState == said && lifecycle == old(lifecycle) && ended == old(ended)
      ensures flip == Flip(old(Abs()), Abs())
    {
      var before := Abs().PossiblyActive();
      driverState := said;
      var definitelyInactive := exact && said == Inactive;
      var opens := match kind { case Dml => true case PlSqlBlock => true case _ => !definitelyInactive };
      if opens { corePossiblyActive := true; }
      var after := Abs().PossiblyActive();
      flip := if before != after then Some(after) else None;
    }

    method NoteCommitOrRollback() returns (flip: Option<bool>)
      modifies this
      ensures Abs() == old(Abs()).AfterResolving()
      ensures !corePossiblyActive && driverState == old(driverState)
      ensures flip == Flip(old(Abs()), Abs())
    {
      var before := Abs().PossiblyActive();
      corePossiblyActive := false;
      var after := Abs().PossiblyActive();
      flip := if before != after then Some(after) else None;
    }

    method NoteDriverTransactionState(said: Transaction) returns (flip: Option<bool>)
      modifies this
      ensures Abs() == old(Abs()).AfterDriverSaid(said)
      ensures driverState == said && corePossiblyActive == old(corePossiblyActive)
      ensures flip == Flip(old(Abs()), Abs())
    {
      var before := Abs().PossiblyActive();
      driverState := said;
      var after := Abs().PossiblyActive();
      flip := if before != after then Some(after) else None;
    }

    /** A compare-exchange: the first writer wins. */
    method MarkEnded(how: Ending)
      modifies this`ended
      ensures Abs() == old(Abs()).EndedBy(how)
      ensures ended == (if old(ended).Some? then old(ended) else Some(how))
      ensures (old(ended).Some? ==> ended == old(ended) && Abs().LateClose() == old(Abs().LateClose()))
    {
      if ended == None { ended := Some(how); }
    }

    method SettledClose() returns (answer: Option<Answer>)
      ensures answer == Abs().Settled()
      ensures answer == Some(Done) <==> ended == Some(Cleanly)
    {
      if ended == None { return None; }
      if ended == Some(Cleanly) { return Some(Done); }
      var error := if lostReason.Some? then lostReason.value else Error("nothing was committed", Lost);
      return Some(Failed(error));
    }

    method MarkTransactionResolvedAtEnd()
      modifies this
      ensures Abs() == old(Abs()).(resolvedAtEnd := true)
    {
      resolvedAtEnd := true;
    }

    method MarkOpenCancelled()
      modifies this
      ensures Abs() == old(Abs()).(openCancelled := true)
    {
      openCancelled := true;
    }
  }

  function Flip(before: Tracked, after: Tracked): Option<bool> {
    if before.PossiblyActive() == after.PossiblyActive() then None else Some(after.PossiblyActive())
  }

  // ------------------------------------------------------------------ any sequence of operations

  /** Every way any thread changes the shared state. */
  datatype Op =
    | OpValidate | OpClose | OpLose(error: Error) | OpNote(error: Error)
    | OpStatement(kind: StatementKind, said: Transaction, exact: bool) | OpResolve | OpDriver(said: Transaction)
    | OpEnd(how: Ending) | OpResolvedAtEnd | OpCancelOpen

  function Apply(t: Tracked, op: Op): Tracked {
    match op
    case OpValidate => t.Validated()
    case OpClose => t.MarkedClosed()
    case OpLose(e) => t.LostFrom(e)
    case OpNote(e) => t.Noted(e)
    case OpStatement(kind, said, exact) => t.AfterStatement(kind, said, exact)
    case OpResolve => t.AfterResolving()
    case OpDriver(said) => t.AfterDriverSaid(said)
    case OpEnd(how) => t.EndedBy(how)
    case OpResolvedAtEnd => t.(resolvedAtEnd := true)
    case OpCancelOpen => t.(openCancelled := true)
  }

  function ApplyAll(t: Tracked, ops: seq<Op>): Tracked
    decreases |ops|
  {
    if ops == [] then t else ApplyAll(Apply(t, ops[0]), ops[1..])
  }

  /** Usable states come first, then closed, then lost. */
  function Rank(l: Lifecycle): nat {
    match l case Usable => 0 case NeedsValidation => 0 case Closed => 1 case Lost => 2
  }

  predicate LostHasReason(t: Tracked) { t.lifecycle == Lost <==> t.reason.Some? }

  /** The lifecycle never goes back, a loss always has its reason and a usable session has none, and
      the record of the end is written once. */
  lemma {:induction false} OnlyForward(t: Tracked, ops: seq<Op>)
    requires LostHasReason(t)
    ensures var n := ApplyAll(t, ops);
            && Rank(t.lifecycle) <= Rank(n.lifecycle)
            && LostHasReason(n)
            && (t.ended.Some? ==> n.ended == t.ended)
    decreases |ops|
  {
    if ops != [] {
      OnlyForward(Apply(t, ops[0]), ops[1..]);
    }
  }

  /** The first end recorded in a sequence of operations. */
  function FirstEnd(ops: seq<Op>): Option<Ending> {
    if ops == [] then None
    else if ops[0].OpEnd? then Some(ops[0].how)
    else FirstEnd(ops[1..])
  }

  lemma {:induction false} RecordIsFirstEnd(t: Tracked, ops: seq<Op>)
    ensures ApplyAll(t, ops).ended == if t.ended.Some? then t.ended else FirstEnd(ops)
    decreases |ops|
  {
    if ops != [] {
      RecordIsFirstEnd(Apply(t, ops[0]), ops[1..]);
    }
  }

  /** No close that finds the session over lies: whenever it is answered, success means that the
      first end ever recorded was a clean one, and a session with no clean end answers its loss. */
  lemma LateCloseNeverLies(ops: seq<Op>)
    ensures var n := ApplyAll(FRESH, ops);
            && (n.LateClose() == Done <==> FirstEnd(ops) == Some(Cleanly))
            && (n.Settled() == Some(Done) <==> FirstEnd(ops) == Some(Cleanly))
            && (n.lifecycle == Lost && n.LateClose().Failed? ==> Some(n.LateClose().error) == n.reason)
  {
    RecordIsFirstEnd(FRESH, ops);
    OnlyForward(FRESH, ops);
  }

  lemma {:induction false} ApplyAllConcat(t: Tracked, a: seq<Op>, b: seq<Op>)
    ensures ApplyAll(t, a + b) == ApplyAll(ApplyAll(t, a), b)
    decreases |a|
  {
    if a == [] {
      assert a + b == b;
    } else {
      assert (a + b)[1..] == a[1..] + b;
      ApplyAllConcat(Apply(t, a[0]), a[1..], b);
    }
  }

  // ------------------------------------------------------------------ what the state says of its history

  /** A statement of this kind, after which the driver said this, may have opened a transaction. */
  predicate MayOpen(kind: StatementKind, said: Transaction, exact: bool) {
    match kind
    case Dml => true
    case PlSqlBlock => true
    case _ => exact ==> said != Inactive
  }

  /** Since the last commit or rollback some statement may have opened a transaction. */
  predicate Suspected(ops: seq<Op>) {
    if ops == [] then false
    else
      var init, last := ops[..|ops| - 1], ops[|ops| - 1];
      match last
      case OpResolve => false
      case OpStatement(kind, said, exact) => MayOpen(kind, said, exact) || Suspected(init)
      case _ => Suspected(init)
  }

  /** What the driver said last. */
  function LastSaid(ops: seq<Op>): Transaction {
    if ops == [] then Unknown
    else
      var init, last := ops[..|ops| - 1], ops[|ops| - 1];
      if last.OpStatement? || last.OpDriver? then last.said else LastSaid(init)
  }

  predicate Loses(op: Op) { op.OpLose? || (op.OpNote? && op.error.session == Lost) }

  predicate EverLost(ops: seq<Op>) { exists i | 0 <= i < |ops| :: Loses(ops[i]) }

  predicate EverClosed(ops: seq<Op>) { exists i | 0 <= i < |ops| :: ops[i].OpClose? }

  /** Some error asked for validation and no ping has answered since. */
  predicate InDoubt(ops: seq<Op>) {
    if ops == [] then false
    else
      var init, last := ops[..|ops| - 1], ops[|ops| - 1];
      !last.OpValidate? && ((last.OpNote? && last.error.session == NeedsValidation) || InDoubt(init))
  }

  /** The error a lost session gives: a declared loss replaces it, a noted one only starts it. */
  function ReadReason(ops: seq<Op>): Option<Error> {
    if ops == [] then None
    else
      var init, last := ops[..|ops| - 1], ops[|ops| - 1];
      if last.OpLose? || (Loses(last) && !EverLost(init)) then Some(last.error) else ReadReason(init)
  }

  /** A history and its last operation. */
  lemma LastApplied(ops: seq<Op>)
    requires ops != []
    ensures var init, last := ops[..|ops| - 1], ops[|ops| - 1];
            ApplyAll(FRESH, ops) == Apply(ApplyAll(FRESH, init), last) && ops == init + [last]
  {
    var init, last := ops[..|ops| - 1], ops[|ops| - 1];
    assert ops == init + [last] && [last][1..] == [];
    ApplyAllConcat(FRESH, init, [last]);
  }

  /** The tracking is what happened: suspicion since the last resolution, and the driver's last word. */
  lemma {:induction false} TrackingIsItsHistory(ops: seq<Op>)
    ensures ApplyAll(FRESH, ops).core == Suspected(ops) && ApplyAll(FRESH, ops).driver == LastSaid(ops)
    decreases |ops|
  {
    if ops != [] {
      LastApplied(ops);
      TrackingIsItsHistory(ops[..|ops| - 1]);
    }
  }

  lemma EverSplits(init: seq<Op>, last: Op)
    ensures EverLost(init + [last]) <==> EverLost(init) || Loses(last)
    ensures EverClosed(init + [last]) <==> EverClosed(init) || last.OpClose?
  {
    var ops := init + [last];
    assert ops[|init|] == last && forall i | 0 <= i < |init| :: ops[i] == init[i];
  }

  function ReadLifecycle(ops: seq<Op>): Lifecycle {
    if EverLost(ops) then Lost
    else if EverClosed(ops) then Closed
    else if InDoubt(ops) then NeedsValidation
    else Usable
  }

  /** The lifecycle is what happened: lost, else closed, else in doubt, else usable; a lost session has
      the reason of its loss. */
  lemma {:induction false} LifecycleIsItsHistory(ops: seq<Op>)
    ensures ApplyAll(FRESH, ops).lifecycle == ReadLifecycle(ops) && ApplyAll(FRESH, ops).reason == ReadReason(ops)
    decreases |ops|
  {
    if ops != [] {
      var init, last := ops[..|ops| - 1], ops[|ops| - 1];
      LastApplied(ops);
      EverSplits(init, last);
      LifecycleIsItsHistory(init);
    }
  }

  /** The two marks are set by their own operation and by nothing else. */
  lemma {:induction false} MarksAreTheirHistory(ops: seq<Op>)
    ensures ApplyAll(FRESH, ops).resolvedAtEnd <==> OpResolvedAtEnd in ops
    ensures ApplyAll(FRESH, ops).openCancelled <==> OpCancelOpen in ops
    decreases |ops|
  {
    if ops != [] {
      LastApplied(ops);
      MarksAreTheirHistory(ops[..|ops| - 1]);
    }
  }

  /** What a close is told that finds no end on record, and what any other request is told that finds
      the session over: the reason of the loss if there was one, else that the open was given up, else
      that the session is closed. */
  lemma LateErrorIsTheReason(ops: seq<Op>)
    ensures var e := ApplyAll(FRESH, ops).TerminalError();
            && (ReadReason(ops).Some? ==> e == ReadReason(ops).value)
            && (ReadReason(ops).None? ==> (e == Error("cancelled", Lost) <==> OpCancelOpen in ops))
            && (FirstEnd(ops).None? ==> ApplyAll(FRESH, ops).LateClose() == Failed(e))
  {
    LifecycleIsItsHistory(ops);
    MarksAreTheirHistory(ops);
    RecordIsFirstEnd(FRESH, ops);
    assert "cancelled"[1] != "closed"[1];
  }

  /** Once an end is recorded every later close gets the same verdict, whatever happens in between. */
  lemma LateClosesAgree(ops: seq<Op>, more: seq<Op>)
    requires ApplyAll(FRESH, ops).ended.Some?
    ensures ApplyAll(FRESH, ops + more).LateClose().Done? == ApplyAll(FRESH, ops).LateClose().Done?
  {
    ApplyAllConcat(FRESH, ops, more);
    OnlyForward(FRESH, ops);
    OnlyForward(ApplyAll(FRESH, ops), more);
  }
}
