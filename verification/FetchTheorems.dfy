/** The fetch pipeline over whole runs: calls by the view, events from the hub, in any order the hub
    may deliver them. */
module FetchTheorems {
  import opened FetchSpec

  /** `drained` is the truth the `exhausted` flag stands for: the current result's empty batch came. */
  datatype State = State(c: Ctl, drained: bool)

  datatype Step =
    | Execute(closeAccepted: bool, accepted: bool) | CloseResult(accepted: bool) | FetchMore(room: nat)
    | OtherCall(accepted: bool)
    | ExecutedEvent(request: nat, e: Executed, room: nat)
    | FetchedEvent(request: nat, f: Fetched, room: nat)
    | OtherEvent(request: nat)
    | TerminalEvent

  /** Every reply answers an outstanding request of its kind; a new result's id is never 0 and never
      one that a fetch in flight names. */
  predicate Enabled(s: State, step: Step) {
    match step
    case ExecutedEvent(r, e, _) =>
      r in s.c.outstanding && s.c.outstanding[r] == Execution
          && (e.WithResult? ==> e.result != 0 && Unfetched(s.c, e.result))
    case FetchedEvent(r, _, _) => r in s.c.outstanding && s.c.outstanding[r].Fetch?
    case OtherEvent(r) => r in s.c.outstanding && s.c.outstanding[r] == Other
    case _ => true
  }

  predicate Unfetched(c: Ctl, result: nat) {
    forall q | q in c.outstanding :: c.outstanding[q] != Fetch(result)
  }

  function NextCtl(c: Ctl, step: Step): Ctl
    requires Enabled(State(c, false), step)
  {
    match step
    case Execute(closeAccepted, accepted) => OnExecute(c, closeAccepted, accepted)
    case CloseResult(accepted) => OnCloseResult(c, accepted)
    case FetchMore(room) => OnFetchMore(c, room)
    case OtherCall(accepted) => Request(c, Other, accepted)
    case ExecutedEvent(r, e, room) => OnExecuted(c, r, e, room)
    case FetchedEvent(r, f, room) => OnFetched(c, r, c.outstanding[r].result, f, room)
    case OtherEvent(r) => Erase(c, r)
    case TerminalEvent => c.(terminated := true)
  }

  predicate ForCurrent(c: Ctl, step: Step) {
    step.FetchedEvent? && step.request in c.outstanding && c.hasResult
        && c.outstanding[step.request] == Fetch(c.resultId)
  }

  function NextDrained(s: State, step: Step): bool {
    if s.c.terminated then s.drained
    else if step.ExecutedEvent? && step.e.WithResult? then false
    else if ForCurrent(s.c, step) && step.f.Empty? then true
    else s.drained
  }

  function Next(s: State, step: Step): State
    requires Enabled(s, step)
  {
    State(NextCtl(s.c, step), NextDrained(s, step))
  }

  predicate Init(s: State) {
    s.c == Ctl(map[], 1, 0, s.c.max, s.c.auto, 0, false, false, 0, false, false, false) && s.c.max > 0
  }

  // ------------------------------------------------------------------ bounded, and flowing

  lemma CallsKeep(c: Ctl, step: Step)
    requires Counted(c) && Flowing(c) && (step.Execute? || step.CloseResult? || step.FetchMore? || step.OtherCall?)
    ensures Counted(NextCtl(c, step)) && Flowing(NextCtl(c, step))
  {
    match step
    case Execute(closeAccepted, accepted) =>
      RequestKeeps(c, Other, closeAccepted);
      RequestKeeps(Cleared(c, closeAccepted), Execution, accepted);
    case CloseResult(accepted) => RequestKeeps(c, Other, accepted);
    case FetchMore(room) =>
      if !c.terminated {
        SubmitKeeps(c, room);
        SubmitKeeps(Asked(c), room);
      } else {
        LateFetchMore(c, room);
      }
    case OtherCall(accepted) => RequestKeeps(c, Other, accepted);
  }

  /** After the end nothing is promised but that ids stay fresh. */
  lemma {:induction false} LateSubmit(c: Ctl, room: nat)
    requires Counted(c) && c.terminated
    ensures Counted(SubmitAll(c, room)) && SubmitAll(c, room).terminated
    decreases c.max - c.inFlight
  {
    if MaySubmit(c) && room > 0 {
      LateSubmit(SubmitOne(c), room - 1);
    }
  }

  lemma LateFetchMore(c: Ctl, room: nat)
    requires Counted(c) && c.terminated
    ensures Counted(OnFetchMore(c, room)) && OnFetchMore(c, room).terminated
  {
    LateSubmit(c, room);
    LateSubmit(Asked(c), room);
  }

  lemma ExecutedKeeps(c: Ctl, r: nat, e: Executed, room: nat)
    requires Counted(c) && Flowing(c) && r in c.outstanding && c.outstanding[r] == Execution
    ensures Counted(OnExecuted(c, r, e, room)) && Flowing(OnExecuted(c, r, e, room))
  {
    FetchesErase(c.outstanding, r);
    if e.WithResult? && !c.terminated {
      SubmitKeeps(Adopted(Erase(c, r), e.result), room);
    }
  }

  lemma FetchedKeeps(c: Ctl, r: nat, f: Fetched, room: nat)
    requires Counted(c) && Flowing(c) && r in c.outstanding && c.outstanding[r].Fetch?
    ensures var n := OnFetched(c, r, c.outstanding[r].result, f, room); Counted(n) && Flowing(n)
  {
    FetchesErase(c.outstanding, r);
    if !c.terminated {
      var freed := Freed(c, r);
      assert r in Fetches(c.outstanding);
      assert Counted(freed);
      SubmitKeeps(freed, room);
      SubmitKeeps(freed.(exhausted := true), room);
      SubmitKeeps(freed.(rowLimit := c.rowLimit || (f.Rows? && f.overflow)), room);
    }
  }

  lemma StepKeeps(s: State, step: Step)
    requires Counted(s.c) && Flowing(s.c) && Enabled(s, step)
    ensures Counted(Next(s, step).c) && Flowing(Next(s, step).c)
  {
    match step
    case ExecutedEvent(r, e, room) => ExecutedKeeps(s.c, r, e, room);
    case FetchedEvent(r, f, room) => FetchedKeeps(s.c, r, f, room);
    case OtherEvent(r) => FetchesErase(s.c.outstanding, r);
    case TerminalEvent =>
    case _ => CallsKeep(s.c, step);
  }

  predicate Legal(s: State, steps: seq<Step>)
    decreases |steps|
  {
    steps == [] || (Enabled(s, steps[0]) && Legal(Next(s, steps[0]), steps[1..]))
  }

  function Run(s: State, steps: seq<Step>): State
    requires Legal(s, steps)
    decreases |steps|
  {
    if steps == [] then s else Run(Next(s, steps[0]), steps[1..])
  }

  lemma {:induction false} RunKeeps(s: State, steps: seq<Step>)
    requires Counted(s.c) && Flowing(s.c) && Legal(s, steps)
    ensures Counted(Run(s, steps).c) && Flowing(Run(s, steps).c)
    decreases |steps|
  {
    if steps != [] {
      StepKeeps(s, steps[0]);
      RunKeeps(Next(s, steps[0]), steps[1..]);
    }
  }

  /** Until the session's end, the counter is exactly the number of unanswered fetches and never
      passes the limit, across any number of executes and closed results; and while rows are wanted
      and no fetch of them failed or was refused since, every slot is in use, whoever held it before. */
  lemma PipelineIsBoundedAndFull(s: State, steps: seq<Step>)
    requires Init(s) && Legal(s, steps)
    ensures var c := Run(s, steps).c;
            && (!c.terminated ==> c.inFlight == |Fetches(c.outstanding)| <= c.max)
            && (c.hasResult && !c.exhausted && !c.rowLimit && !c.short && !c.terminated && c.auto ==>
               c.inFlight == c.max > 0)
  {
    assert Fetches(s.c.outstanding) == {};
    RunKeeps(s, steps);
  }

  // ------------------------------------------------------------------ no fetch the view did not ask for

  /** How many fetches a run submits, and how often the view asks for more. */
  function Submitted(s: State, steps: seq<Step>): nat
    requires Legal(s, steps)
    decreases |steps|
  {
    if steps == [] then 0
    else |NewFetches(s.c, Next(s, steps[0]).c)| + Submitted(Next(s, steps[0]), steps[1..])
  }

  function Asks(steps: seq<Step>): nat {
    if steps == [] then 0 else (if steps[0].FetchMore? then 1 else 0) + Asks(steps[1..])
  }

  /** What a step submits, and the asks it leaves, come out of the asks there were. */
  predicate PaysFor(c: Ctl, n: Ctl, asks: nat) {
    Fresh(n) && !n.auto && |NewFetches(c, n)| + n.pending <= c.pending + asks
  }

  lemma SubmitPays(c: Ctl, d: Ctl, room: nat, asks: nat)
    requires Fresh(d) && !d.auto && Fetches(d.outstanding) <= Fetches(c.outstanding) && d.pending <= c.pending + asks
    requires forall r | r in c.outstanding :: r < d.nextId
    ensures PaysFor(c, SubmitFetches(d, room), asks)
  {
    var n := SubmitFetches(d, room);
    SubmittingUsesAsks(d, room);
    SubmittingKeepsMode(d, room);
    if WantsRows(d) {
      NewOnesAreNew(c, d, room);
    } else {
      assert NewFetches(c, n) == {};
    }
  }

  lemma {:induction false} SubmittingKeepsMode(c: Ctl, room: nat)
    ensures SubmitAll(c, room).auto == c.auto
    decreases c.max - c.inFlight
  {
    if MaySubmit(c) && room > 0 {
      SubmittingKeepsMode(SubmitOne(c), room - 1);
    }
  }

  lemma {:induction false} NewOnesAreNew(c: Ctl, d: Ctl, room: nat)
    requires Fresh(d) && Fetches(d.outstanding) <= Fetches(c.outstanding)
    ensures |NewFetches(c, SubmitAll(d, room))| <= |NewFetches(d, SubmitAll(d, room))|
  {
    var n := SubmitAll(d, room);
    assert NewFetches(c, n) <= NewFetches(d, n);
    assert NewFetches(d, n) == NewFetches(c, n) + (NewFetches(d, n) - NewFetches(c, n));
  }

  lemma RequestPays(c: Ctl, kind: Kind, accepted: bool)
    requires Fresh(c) && !kind.Fetch?
    ensures var n := Request(c, kind, accepted);
            Fresh(n) && Fetches(n.outstanding) == Fetches(c.outstanding) && n.pending == c.pending && n.auto == c.auto
  {
  }

  lemma ExecutePays(c: Ctl, closeAccepted: bool, accepted: bool)
    requires Fresh(c) && !c.auto
    ensures PaysFor(c, OnExecute(c, closeAccepted, accepted), 0)
  {
    var n := OnExecute(c, closeAccepted, accepted);
    RequestPays(c, Other, closeAccepted);
    RequestPays(Cleared(c, closeAccepted), Execution, accepted);
    assert NewFetches(c, n) == {};
  }

  lemma ClosePays(c: Ctl, accepted: bool)
    requires Fresh(c) && !c.auto
    ensures PaysFor(c, OnCloseResult(c, accepted), 0) && PaysFor(c, Request(c, Other, accepted), 0)
  {
    RequestPays(c, Other, accepted);
    assert NewFetches(c, OnCloseResult(c, accepted)) == {} && NewFetches(c, Request(c, Other, accepted)) == {};
  }

  lemma AskPays(c: Ctl, room: nat)
    requires Fresh(c) && !c.auto
    ensures PaysFor(c, OnFetchMore(c, room), 1)
  {
    SubmitPays(c, Asked(c), room, 1);
    assert NewFetches(c, c) == {};
  }

  lemma CallPays(c: Ctl, step: Step)
    requires Fresh(c) && !c.auto && (step.Execute? || step.CloseResult? || step.FetchMore? || step.OtherCall?)
    ensures PaysFor(c, NextCtl(c, step), if step.FetchMore? then 1 else 0)
  {
    match step
    case Execute(closeAccepted, accepted) => ExecutePays(c, closeAccepted, accepted);
    case CloseResult(accepted) => ClosePays(c, accepted);
    case FetchMore(room) => AskPays(c, room);
    case OtherCall(accepted) => ClosePays(c, accepted);
  }

  lemma EventPays(s: State, step: Step)
    requires Fresh(s.c) && !s.c.auto && Enabled(s, step)
    requires step.ExecutedEvent? || step.FetchedEvent? || step.OtherEvent? || step.TerminalEvent?
    ensures PaysFor(s.c, Next(s, step).c, 0)
  {
    var c, n := s.c, Next(s, step).c;
    assert NewFetches(c, c) == {};
    match step
    case ExecutedEvent(r, e, room) =>
      assert NewFetches(c, Erase(c, r)) == {};
      if e.WithResult? {
        SubmitPays(c, Adopted(Erase(c, r), e.result), room, 0);
      }
    case FetchedEvent(r, f, room) =>
      assert NewFetches(c, Erase(c, r)) == {};
      var freed := Freed(c, r);
      SubmitPays(c, freed, room, 0);
      SubmitPays(c, freed.(exhausted := true), room, 0);
      SubmitPays(c, freed.(rowLimit := c.rowLimit || (f.Rows? && f.overflow)), room, 0);
    case OtherEvent(r) => assert NewFetches(c, n) == {};
    case TerminalEvent =>
  }

  lemma {:induction false} RunPays(s: State, steps: seq<Step>)
    requires Fresh(s.c) && !s.c.auto && Legal(s, steps)
    ensures Submitted(s, steps) + Run(s, steps).c.pending <= s.c.pending + Asks(steps)
    decreases |steps|
  {
    if steps != [] {
      if steps[0].Execute? || steps[0].CloseResult? || steps[0].FetchMore? || steps[0].OtherCall? {
        CallPays(s.c, steps[0]);
      } else {
        EventPays(s, steps[0]);
      }
      RunPays(Next(s, steps[0]), steps[1..]);
    }
  }

  /** Without automatic fetching, no run submits more fetches than the view asked for. */
  lemma EachFetchIsAskedFor(s: State, steps: seq<Step>)
    requires Init(s) && !s.c.auto && Legal(s, steps)
    ensures Submitted(s, steps) + Run(s, steps).c.pending <= Asks(steps)
  {
    RunPays(s, steps);
  }

  // ------------------------------------------------------------------ what stops fetching

  predicate NoNewResult(steps: seq<Step>) {
    forall i | 0 <= i < |steps| :: !(steps[i].ExecutedEvent? && steps[i].e.WithResult?)
  }

  lemma {:induction false} SubmittingWantsStill(c: Ctl, room: nat)
    ensures WantsRows(SubmitAll(c, room)) == WantsRows(c)
    decreases c.max - c.inFlight
  {
    if MaySubmit(c) && room > 0 {
      SubmittingWantsStill(SubmitOne(c), room - 1);
    }
  }

  /** Nothing is fetched for a result that takes no more rows, and no call makes it take more. */
  lemma UnwantedStaysUnwanted(s: State, step: Step)
    requires Enabled(s, step) && !WantsRows(s.c) && !(step.ExecutedEvent? && step.e.WithResult?)
    ensures !WantsRows(Next(s, step).c) && NewFetches(s.c, Next(s, step).c) == {}
  {
    match step
    case Execute(closeAccepted, accepted) =>
      var cleared := Cleared(s.c, closeAccepted);
      assert NewFetches(s.c, Next(s, step).c) <= NewFetches(s.c, cleared);
    case _ =>
  }

  lemma {:induction false} UnwantedIsNeverFetched(s: State, steps: seq<Step>)
    requires Legal(s, steps) && !WantsRows(s.c) && NoNewResult(steps)
    ensures Submitted(s, steps) == 0
    decreases |steps|
  {
    if steps != [] {
      UnwantedStaysUnwanted(s, steps[0]);
      UnwantedIsNeverFetched(Next(s, steps[0]), steps[1..]);
    }
  }

  /** Once the current result's batch was empty, or overflowed the row limit, or the result was closed,
      nothing more is fetched until the next result, whatever is asked for. */
  lemma FetchingStops(s: State, step: Step, more: seq<Step>)
    requires Enabled(s, step) && !s.c.terminated && Legal(Next(s, step), more) && NoNewResult(more)
    requires || (ForCurrent(s.c, step) && (step.f.Empty? || step.f == Rows(true)))
             || (step == CloseResult(true) && s.c.resultId != 0)
    ensures NewFetches(s.c, Next(s, step).c) == {} && Submitted(Next(s, step), more) == 0
  {
    UnwantedIsNeverFetched(Next(s, step), more);
  }

  // ------------------------------------------------------------------ whether the flag tells the truth

  /** The flag that stops fetching is set exactly when the current result has run dry. */
  predicate FlagIsTrue(s: State) { s.c.hasResult && !s.c.terminated ==> (s.c.exhausted <==> s.drained) }

  /** A result arrives while the flag is still set from the one before it. */
  predicate Untimely(s: State, step: Step) {
    step.ExecutedEvent? && step.e.WithResult? && s.c.exhausted && !s.c.terminated
  }

  predicate Timely(s: State, steps: seq<Step>)
    requires Legal(s, steps)
    decreases |steps|
  {
    steps == [] || (!Untimely(s, steps[0]) && Timely(Next(s, steps[0]), steps[1..]))
  }

  /** A result with rows left, of which no fetch failed or was refused since its slots were last filled,
      and a slot that is not in use. */
  predicate Stalls(s: State) {
    && s.c.hasResult && !s.drained && !s.c.rowLimit && !s.c.short && !s.c.terminated && s.c.auto
    && s.c.inFlight < s.c.max
  }

  function Executions(m: map<nat, Kind>): set<nat> { set r | r in m && m[r] == Execution }

  /** No execute is submitted while another is unanswered. */
  predicate OneAtATime(s: State, steps: seq<Step>)
    requires Legal(s, steps)
    decreases |steps|
  {
    steps == []
    || ((steps[0].Execute? ==> Executions(s.c.outstanding) == {}) && OneAtATime(Next(s, steps[0]), steps[1..]))
  }

  /** While an execute is unanswered there is no result, and the flag is clear. */
  predicate Waiting(s: State) {
    && |Executions(s.c.outstanding)| <= 1
    && (Executions(s.c.outstanding) != {} && !s.c.terminated ==> !s.c.hasResult && s.c.resultId == 0 && !s.c.exhausted)
  }

  lemma {:induction false} SubmittingAddsNoExecute(c: Ctl, room: nat)
    requires Counted(c)
    ensures Executions(SubmitAll(c, room).outstanding) == Executions(c.outstanding)
    ensures Executions(SubmitFetches(c, room).outstanding) == Executions(c.outstanding)
    decreases c.max - c.inFlight
  {
    if MaySubmit(c) && room > 0 {
      var n := SubmitOne(c);
      assert Executions(n.outstanding) == Executions(c.outstanding);
      if c.terminated {
        SubmittingAddsNoExecute(n, room - 1);
      } else {
        FetchesAdd(c.outstanding, c.nextId, Fetch(c.resultId));
        SubmittingAddsNoExecute(n, room - 1);
      }
    }
  }

  lemma RequestAdds(c: Ctl, kind: Kind, accepted: bool)
    requires Counted(c)
    ensures |Executions(Request(c, kind, accepted).outstanding)|
            <= |Executions(c.outstanding)| + (if kind.Execution? then 1 else 0)
  {
    var m, n := c.outstanding, c.outstanding[c.nextId := kind];
    assert Executions(n) == if kind.Execution? then Executions(m) + {c.nextId} else Executions(m);
  }

  lemma ExecuteAddsOne(c: Ctl, closeAccepted: bool, accepted: bool)
    requires Counted(c)
    ensures |Executions(OnExecute(c, closeAccepted, accepted).outstanding)| <= |Executions(c.outstanding)| + 1
  {
    RequestKeeps(c, Other, closeAccepted);
    RequestAdds(c, Other, closeAccepted);
    RequestAdds(Cleared(c, closeAccepted), Execution, accepted);
  }

  lemma OtherCallsAddNoExecute(c: Ctl, step: Step)
    requires Counted(c) && (step.CloseResult? || step.FetchMore? || step.OtherCall?)
    ensures Executions(NextCtl(c, step).outstanding) == Executions(c.outstanding)
  {
    if step.FetchMore? {
      SubmittingAddsNoExecute(c, step.room);
      SubmittingAddsNoExecute(Asked(c), step.room);
    }
  }

  lemma ExecutedRemovesIt(c: Ctl, r: nat, e: Executed, room: nat)
    requires Counted(c) && r in c.outstanding && c.outstanding[r] == Execution
    ensures Executions(OnExecuted(c, r, e, room).outstanding) == Executions(c.outstanding) - {r}
  {
    var known := Erase(c, r);
    assert Executions(known.outstanding) == Executions(c.outstanding) - {r};
    if e.WithResult? {
      FetchesErase(c.outstanding, r);
      SubmittingAddsNoExecute(Adopted(known, e.result), room);
    }
  }

  lemma FetchedAddsNoExecute(c: Ctl, r: nat, f: Fetched, room: nat)
    requires Counted(c) && r in c.outstanding && c.outstanding[r].Fetch?
    ensures Executions(OnFetched(c, r, c.outstanding[r].result, f, room).outstanding) == Executions(c.outstanding)
  {
    FetchesErase(c.outstanding, r);
    assert Executions(Erase(c, r).outstanding) == Executions(c.outstanding);
    if !c.terminated {
      var freed := Freed(c, r);
      assert r in Fetches(c.outstanding);
      SubmittingAddsNoExecute(freed, room);
      SubmittingAddsNoExecute(freed.(exhausted := true), room);
      SubmittingAddsNoExecute(freed.(rowLimit := c.rowLimit || (f.Rows? && f.overflow)), room);
    }
  }

  /** The result fields, which submitting fetches does not touch. */
  predicate SameResult(c: Ctl, n: Ctl) {
    && n.hasResult == c.hasResult && n.resultId == c.resultId && n.exhausted == c.exhausted
    && n.rowLimit == c.rowLimit && n.terminated == c.terminated
  }

  lemma {:induction false} SubmittingKeepsResult(c: Ctl, room: nat)
    ensures SameResult(c, SubmitAll(c, room)) && SameResult(c, SubmitFetches(c, room))
    decreases c.max - c.inFlight
  {
    if MaySubmit(c) && room > 0 {
      SubmittingKeepsResult(SubmitOne(c), room - 1);
    }
  }

  lemma FetchMoreKeepsResult(c: Ctl, room: nat)
    ensures SameResult(c, OnFetchMore(c, room))
  {
    SubmittingKeepsResult(c, room);
    SubmittingKeepsResult(Asked(c), room);
  }

  lemma ExecutedSetsResult(c: Ctl, r: nat, e: Executed, room: nat)
    ensures SameResult(if e.WithResult? && !c.terminated then Adopted(c, e.result) else c, OnExecuted(c, r, e, room))
  {
    if e.WithResult? {
      SubmittingKeepsResult(Adopted(Erase(c, r), e.result), room);
    }
  }

  lemma FetchedSetsFlag(c: Ctl, r: nat, result: nat, f: Fetched, room: nat)
    ensures var mine := !c.terminated && c.hasResult && result == c.resultId;
            var told := c.(exhausted := c.exhausted || (mine && f.Empty?),
                           rowLimit := c.rowLimit || (mine && f == Rows(true)));
            SameResult(told, OnFetched(c, r, result, f, room))
  {
    var freed := Freed(c, r);
    SubmittingKeepsResult(freed, room);
    SubmittingKeepsResult(freed.(exhausted := true), room);
    SubmittingKeepsResult(freed.(rowLimit := c.rowLimit || (f.Rows? && f.overflow)), room);
  }

  /** Every step but an untimely arrival keeps the flag true. */
  lemma StepKeepsFlag(s: State, step: Step)
    requires FlagIsTrue(s) && Enabled(s, step) && !Untimely(s, step)
    ensures FlagIsTrue(Next(s, step))
  {
    match step
    case FetchMore(room) => FetchMoreKeepsResult(s.c, room);
    case ExecutedEvent(r, e, room) => ExecutedSetsResult(s.c, r, e, room);
    case FetchedEvent(r, f, room) => FetchedSetsFlag(s.c, r, s.c.outstanding[r].result, f, room);
    case _ =>
  }

  lemma {:induction false} RunKeepsFlag(s: State, steps: seq<Step>)
    requires Counted(s.c) && Flowing(s.c) && FlagIsTrue(s) && Legal(s, steps) && Timely(s, steps)
    ensures FlagIsTrue(Run(s, steps)) && Counted(Run(s, steps).c) && Flowing(Run(s, steps).c)
    decreases |steps|
  {
    if steps != [] {
      StepKeeps(s, steps[0]);
      StepKeepsFlag(s, steps[0]);
      RunKeepsFlag(Next(s, steps[0]), steps[1..]);
    }
  }

  /** In every run without an untimely arrival, a result that has rows left, below the row limit and
      without an error, has every slot in flight. */
  lemma NeverStalls(s: State, steps: seq<Step>)
    requires Init(s) && Legal(s, steps) && Timely(s, steps)
    ensures !Stalls(Run(s, steps))
  {
    assert Fetches(s.c.outstanding) == {};
    RunKeepsFlag(s, steps);
  }

  /** The result of an untimely arrival: current, with rows, and no fetch of its own. */
  predicate Stranded(s: State) {
    && s.c.hasResult && s.c.exhausted && !s.drained && !s.c.rowLimit && !s.c.short && !s.c.terminated && s.c.auto
    && Counted(s.c) && Unfetched(s.c, s.c.resultId)
  }

  /** The replies of older results' fetches give the stranded one nothing. */
  lemma {:induction false} StaleRepliesDoNotHelp(s: State) returns (steps: seq<Step>)
    requires Stranded(s)
    ensures Legal(s, steps) && Timely(s, steps) && Stranded(Run(s, steps)) && Run(s, steps).c.inFlight == 0
    decreases s.c.inFlight
  {
    steps := [];
    if s.c.inFlight > 0 {
      var r :| r in Fetches(s.c.outstanding);
      var step := FetchedEvent(r, Rows(false), 0);
      FetchesErase(s.c.outstanding, r);
      var rest := StaleRepliesDoNotHelp(Next(s, step));
      steps := [step] + rest;
      assert steps[1..] == rest;
    }
  }

  lemma UntimelyStrands(s: State, r: nat, result: nat, room: nat)
    requires Counted(s.c) && s.c.auto && s.c.exhausted && !s.c.terminated
    requires Enabled(s, ExecutedEvent(r, WithResult(result), room))
    ensures Stranded(Next(s, ExecutedEvent(r, WithResult(result), room)))
  {
    FetchesErase(s.c.outstanding, r);
  }

  /** A new result is fetched now, and whatever timely events and calls follow it never stalls, if and
      only if the flag is clear when it arrives. */
  lemma NewResultIsFetchedExactlyWhen(s: State, r: nat, result: nat, room: nat)
    requires Counted(s.c) && Flowing(s.c) && s.c.auto && !s.c.terminated
    requires Enabled(s, ExecutedEvent(r, WithResult(result), room))
    ensures var n := Next(s, ExecutedEvent(r, WithResult(result), room));
            (forall more | Legal(n, more) && Timely(n, more) :: !Stalls(Run(n, more))) <==> !s.c.exhausted
  {
    var arrival := ExecutedEvent(r, WithResult(result), room);
    var n := Next(s, arrival);
    StepKeeps(s, arrival);
    if s.c.exhausted {
      UntimelyStrands(s, r, result, room);
      var more := StaleRepliesDoNotHelp(n);
      assert Stalls(Run(n, more));
    } else {
      ExecutedSetsResult(s.c, r, WithResult(result), room);
      forall more | Legal(n, more) && Timely(n, more) ensures !Stalls(Run(n, more)) {
        RunKeepsFlag(n, more);
      }
    }
  }

  // ------------------------------------------------------------------ unpipelined executes are timely

  lemma StepKeepsWaiting(s: State, step: Step)
    requires Counted(s.c) && Waiting(s) && Enabled(s, step)
    requires step.Execute? ==> Executions(s.c.outstanding) == {}
    ensures Waiting(Next(s, step)) && !Untimely(s, step)
  {
    match step
    case Execute(closeAccepted, accepted) => ExecuteAddsOne(s.c, closeAccepted, accepted);
    case FetchMore(room) =>
      FetchMoreKeepsResult(s.c, room);
      OtherCallsAddNoExecute(s.c, step);
    case ExecutedEvent(r, e, room) => ExecutedKeepsWaiting(s, r, e, room);
    case FetchedEvent(r, f, room) =>
      FetchedAddsNoExecute(s.c, r, f, room);
      FetchedSetsFlag(s.c, r, s.c.outstanding[r].result, f, room);
    case OtherEvent(r) =>
      assert Executions(Erase(s.c, r).outstanding) == Executions(s.c.outstanding);
    case TerminalEvent =>
    case _ => OtherCallsAddNoExecute(s.c, step);
  }

  lemma ExecutedKeepsWaiting(s: State, r: nat, e: Executed, room: nat)
    requires Counted(s.c) && Waiting(s) && Enabled(s, ExecutedEvent(r, e, room))
    ensures Waiting(Next(s, ExecutedEvent(r, e, room))) && !Untimely(s, ExecutedEvent(r, e, room))
  {
    ExecutedRemovesIt(s.c, r, e, room);
    ExecutedSetsResult(s.c, r, e, room);
    assert r in Executions(s.c.outstanding);
    AtMostOne(Executions(s.c.outstanding), r);
  }

  lemma AtMostOne(s: set<nat>, r: nat)
    requires r in s && |s| <= 1
    ensures s - {r} == {}
  {
    assert |s - {r}| == |s| - 1;
  }

  lemma {:induction false} OneAtATimeIsTimely(s: State, steps: seq<Step>)
    requires Counted(s.c) && Flowing(s.c) && Waiting(s) && Legal(s, steps) && OneAtATime(s, steps)
    ensures Timely(s, steps)
    decreases |steps|
  {
    if steps != [] {
      StepKeeps(s, steps[0]);
      StepKeepsWaiting(s, steps[0]);
      OneAtATimeIsTimely(Next(s, steps[0]), steps[1..]);
    }
  }

  /** If executes are never pipelined, no result ever stalls. */
  lemma UnpipelinedNeverStalls(s: State, steps: seq<Step>)
    requires Init(s) && Legal(s, steps) && OneAtATime(s, steps)
    ensures !Stalls(Run(s, steps))
  {
    assert Fetches(s.c.outstanding) == {} && Executions(s.c.outstanding) == {};
    OneAtATimeIsTimely(s, steps);
    NeverStalls(s, steps);
  }

  // ------------------------------------------------------------------ pipelined executes can be untimely

  /** Two pipelined executes, and the first result closed before the second arrives: the second
      result is never fetched, though it has rows, no error, and every slot free. */
  lemma PipelinedExecutesCanStall(max: nat) returns (s: State, steps: seq<Step>)
    requires max > 0
    ensures Init(s) && s.c.max == max && s.c.auto && Legal(s, steps)
    ensures Stalls(Run(s, steps)) && Run(s, steps).c.inFlight == 0
  {
    s := State(Ctl(map[], 1, 0, max, true, 0, false, false, 0, false, false, false), false);
    var a := Next(s, Execute(true, true));
    var b := Next(a, Execute(true, true));
    assert b.c.outstanding == map[1 := Execution, 2 := Execution];
    var first := ExecutedEvent(1, WithResult(1), max);
    var c := Next(b, first);
    FirstResult(b, max);
    var d := Next(c, CloseResult(true));
    RequestKeeps(c.c, Other, true);
    SecondResult(d, max);
    var second := ExecutedEvent(2, WithResult(2), max);
    var e := Next(d, second);
    var rest := StaleRepliesDoNotHelp(e);
    Prepend(d, second, rest);
    Prepend(c, CloseResult(true), [second] + rest);
    Prepend(b, first, [CloseResult(true)] + ([second] + rest));
    steps := [first] + ([CloseResult(true)] + ([second] + rest));
    Prepend(a, Execute(true, true), steps);
    Prepend(s, Execute(true, true), [Execute(true, true)] + steps);
    steps := [Execute(true, true)] + ([Execute(true, true)] + steps);
  }

  lemma Prepend(s: State, step: Step, rest: seq<Step>)
    requires Enabled(s, step) && Legal(Next(s, step), rest)
    ensures Legal(s, [step] + rest) && Run(s, [step] + rest) == Run(Next(s, step), rest)
  {
    assert ([step] + rest)[1..] == rest;
  }

  lemma {:induction false} SubmittedAreFor(c: Ctl, room: nat)
    requires Counted(c)
    ensures var n := SubmitAll(c, room);
            forall r | r in n.outstanding :: if r in c.outstanding then n.outstanding[r] == c.outstanding[r]
                                             else n.outstanding[r] == Fetch(c.resultId)
    ensures forall r | r in c.outstanding :: r in SubmitAll(c, room).outstanding
    decreases c.max - c.inFlight
  {
    if MaySubmit(c) && room > 0 {
      if !c.terminated {
        FetchesAdd(c.outstanding, c.nextId, Fetch(c.resultId));
      }
      SubmittedAreFor(SubmitOne(c), room - 1);
    }
  }

  lemma FirstResult(b: State, max: nat)
    requires b.c == Ctl(map[1 := Execution, 2 := Execution], 3, 0, max, true, 0, false, false, 0, false, false, false)
             && max > 0
    ensures var n := Next(b, ExecutedEvent(1, WithResult(1), max)).c;
            && Counted(n) && 2 in n.outstanding && n.outstanding[2] == Execution
            && (forall r | r in n.outstanding :: n.outstanding[r] != Fetch(2))
            && n == n.(max := max, auto := true, hasResult := true, resultId := 1, exhausted := false,
                       rowLimit := false, short := false, terminated := false)
  {
    var c := Adopted(Erase(b.c, 1), 1);
    assert Fetches(c.outstanding) == {};
    SubmitAllKeeps(c, max);
    SubmittedAreFor(c, max);
  }

  lemma SecondResult(d: State, max: nat)
    requires Counted(d.c) && 2 in d.c.outstanding && d.c.outstanding[2] == Execution
    requires forall r | r in d.c.outstanding :: d.c.outstanding[r] != Fetch(2)
    requires d.c.exhausted && !d.c.terminated && d.c.auto
    ensures Stranded(Next(d, ExecutedEvent(2, WithResult(2), max)))
  {
    UntimelyStrands(d, 2, 2, max);
  }
}
