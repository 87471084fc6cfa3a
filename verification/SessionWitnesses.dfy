/** Runs that show what the theorems cannot be sharpened to: the published bound is reached exactly,
    and a lost session can still say that a statement started, or that a request succeeded, after it
    announced its end. */
module SessionWitnesses {
  import opened Events
  import opened SessionProtocol
  import opened SessionInvariants
  import opened SessionTheorems
  import opened Wrappers

  function Opened(limit: nat, cap: nat): State {
    State(0, limit, cap,
          Requests([Away], [], Opening, [Plain], {0}),
          Flags(false, false, true, false, false, false, false, false),
          Books(1, 0, ListQueue([], map[], false), false, [], {}, 0, 0, false), {})
  }

  predicate Healthy(n: State) {
    n.f == Flags(false, false, true, n.f.endRecorded, false, n.f.possiblyActive, false, n.f.endClean)
        && !n.b.queue.closed
  }

  /** `k` executes were accepted and none has been received. */
  predicate Submitted(n: State, k: nat) {
    && Healthy(n) && n.r.worker == Idle && n.r.callers == [Away] && n.b.queue.items == []
    && n.b.outstanding == k == |n.r.channel|
    && (forall i | 0 <= i < k :: n.r.channel[i].kind == Execute && n.r.channel[i].token.Some?)
  }

  lemma SubmitOne(n: State, k: nat, kind: Kind)
    requires Submitted(n, k) && k < SlotLimit(n, kind)
    ensures Enabled(n, Load(0, kind))
    ensures var a := Next(n, Load(0, kind)); Enabled(a, Exchange(0))
    ensures var a := Next(n, Load(0, kind)); var b := Next(a, Exchange(0)); Enabled(b, Send(0))
    ensures var a := Next(n, Load(0, kind)); var b := Next(a, Exchange(0)); var c := Next(b, Send(0));
            && c.limit == n.limit && c.cap == n.cap && c.session == n.session
            && c.r.channel == n.r.channel + [Command(kind, Some(|n.r.kinds|))]
            && (kind == Execute ==> Submitted(c, k + 1))
            && Healthy(c) && c.r.worker == Idle && c.b.queue.items == []
  {
  }

  lemma {:induction false} SubmitAll(s: State, steps: seq<Step>, k: nat) returns (more: seq<Step>)
    requires Legal(s, steps) && Submitted(Run(s, steps), k) && k <= s.limit
    requires Run(s, steps).limit == s.limit && Run(s, steps).cap == s.cap
    ensures Legal(s, more) && Submitted(Run(s, more), s.limit)
    ensures Run(s, more).limit == s.limit && Run(s, more).cap == s.cap
    decreases s.limit - k
  {
    more := steps;
    if k < s.limit {
      SubmitOne(Run(s, more), k, Execute);
      more := Then(s, Then(s, Then(s, more, Load(0, Execute)), Exchange(0)), Send(0));
      more := SubmitAll(s, more, k + 1);
    }
  }

  /** The run with one more step. */
  function Then(s: State, steps: seq<Step>, step: Step): (more: seq<Step>)
    requires Legal(s, steps) && Enabled(Run(s, steps), step)
    ensures more == steps + [step] && Legal(s, more) && Run(s, more) == Next(Run(s, steps), step)
  {
    Extend(s, steps, step);
    steps + [step]
  }

  /** The worker is idle with `left` executes and then a close to run, and `size` events queued. */
  predicate Working(n: State, left: nat, size: nat) {
    && Healthy(n) && n.r.worker == Idle && |n.b.queue.items| == size && |n.r.channel| == left + 1
    && (forall i | 0 <= i < left :: n.r.channel[i].kind == Execute && n.r.channel[i].token.Some?)
    && n.r.channel[left].kind == Close && n.r.channel[left].token.Some?
  }

  /** The worker is running an execute whose output it reads back. */
  predicate Printing(n: State, left: nat, size: nat, printed: nat) {
    && Healthy(n) && Reading(n) && |n.b.queue.items| == size && |n.r.channel| == left + 1
    && Waiting(n.b.queue.items, n.session) == printed && FindState(n.b.queue.items, n.session) < 0
    && (forall i | 0 <= i < left :: n.r.channel[i].kind == Execute && n.r.channel[i].token.Some?)
    && n.r.channel[left].kind == Close && n.r.channel[left].token.Some?
  }

  lemma StartOne(n: State, left: nat, size: nat)
    requires Working(n, left + 1, size)
    ensures Enabled(n, Receive)
    ensures var a := Next(n, Receive); Enabled(a, StartExecute)
    ensures var a := Next(n, Receive); var b := Next(a, StartExecute);
            && b.limit == n.limit && b.cap == n.cap && b.session == n.session
            && Healthy(b) && Reading(b) && b.r.channel == n.r.channel[1..]
            && b.b.queue.items == n.b.queue.items + [Queued(Executing(n.session, n.r.channel[0].token.value), false)]
  {
  }

  lemma FailOne(n: State)
    requires Healthy(n) && Reading(n)
    ensures Enabled(n, FailRead)
    ensures var a := Next(n, FailRead);
            && Healthy(a) && a.r == n.r.(worker := n.r.worker.(readFailed := true))
            && |a.b.queue.items| == |n.b.queue.items| + 1
            && a.limit == n.limit && a.cap == n.cap && a.session == n.session
  {
  }

  lemma AnswerOne(n: State, ok: bool)
    requires Healthy(n) && n.r.worker.Busy? && n.r.worker.command.kind == Execute && n.r.worker.command.token.Some?
    ensures Enabled(n, Answer(false, ok))
    ensures var a := Next(n, Answer(false, ok));
            && Healthy(a) && a.r.worker == Ran(false) && a.r.channel == n.r.channel
            && |a.b.queue.items| == |n.b.queue.items| + 1
            && a.limit == n.limit && a.cap == n.cap && a.session == n.session
  {
  }

  lemma ConcludeOne(n: State)
    requires Healthy(n) && n.r.worker == Ran(false)
    ensures Enabled(n, Conclude) && Next(n, Conclude).r == n.r.(worker := Idle)
    ensures var a := Next(n, Conclude);
            a.f == n.f && a.b == n.b && a.limit == n.limit && a.cap == n.cap && a.session == n.session
  {
  }

  lemma FinishOne(n: State, left: nat, size: nat)
    requires Healthy(n) && Reading(n) && |n.b.queue.items| == size && |n.r.channel| == left + 1
    requires forall i | 0 <= i < left :: n.r.channel[i].kind == Execute && n.r.channel[i].token.Some?
    requires n.r.channel[left].kind == Close && n.r.channel[left].token.Some?
    ensures Enabled(n, FailRead)
    ensures var a := Next(n, FailRead); Enabled(a, Answer(false, true))
    ensures var a := Next(n, FailRead); var b := Next(a, Answer(false, true)); Enabled(b, Conclude)
    ensures var a := Next(n, FailRead); var b := Next(a, Answer(false, true)); var c := Next(b, Conclude);
            c.limit == n.limit && c.cap == n.cap && c.session == n.session && Working(c, left, size + 2)
  {
    FailOne(n);
    var a := Next(n, FailRead);
    AnswerOne(a, true);
    ConcludeOne(Next(a, Answer(false, true)));
  }

  lemma PrintOne(n: State, left: nat, size: nat, printed: nat)
    requires Printing(n, left, size, printed) && printed < n.cap
    ensures Enabled(n, Print([""]))
    ensures var a := Next(n, Print([""]));
            a.limit == n.limit && a.cap == n.cap && a.session == n.session && Printing(a, left, size + 1, printed + 1)
  {
    var a := Next(n, Print([""]));
    var x := a.b.queue.items[|n.b.queue.items|];
    assert a.b.queue.items == n.b.queue.items + [x];
    WaitingConcat(n.b.queue.items, [x], n.session);
    assert [x][1..] == [];
  }

  lemma {:induction false} PrintAll(s: State, steps: seq<Step>, left: nat, size: nat, printed: nat)
      returns (more: seq<Step>)
    requires Legal(s, steps) && Printing(Run(s, steps), left, size, printed) && printed <= s.cap
    requires Run(s, steps).limit == s.limit && Run(s, steps).cap == s.cap
    ensures Legal(s, more) && Printing(Run(s, more), left, size + s.cap - printed, s.cap)
    ensures Run(s, more).limit == s.limit && Run(s, more).cap == s.cap
    decreases s.cap - printed
  {
    more := steps;
    if printed < s.cap {
      PrintOne(Run(s, more), left, size, printed);
      more := Then(s, more, Print([""]));
      more := PrintAll(s, more, left, size + 1, printed + 1);
    }
  }

  /** At the cap, a transaction state is still admitted. */
  lemma FlipOne(n: State, left: nat, size: nat, printed: nat)
    requires Printing(n, left, size, printed)
    ensures Enabled(n, Track(!n.f.possiblyActive))
    ensures var a := Next(n, Track(!n.f.possiblyActive)); Enabled(a, EmitState)
    ensures var a := Next(n, Track(!n.f.possiblyActive)); var b := Next(a, EmitState);
            && b.limit == n.limit && b.cap == n.cap && b.session == n.session
            && Healthy(b) && Reading(b) && |b.b.queue.items| == size + 1 && b.r.channel == n.r.channel
  {
  }

  lemma ExecuteOne(s: State, steps: seq<Step>, left: nat, size: nat) returns (more: seq<Step>)
    requires Legal(s, steps) && Working(Run(s, steps), left + 1, size)
    ensures Legal(s, more) && Working(Run(s, more), left, size + 3)
    ensures Run(s, more).limit == Run(s, steps).limit && Run(s, more).cap == Run(s, steps).cap
  {
    StartOne(Run(s, steps), left, size);
    more := Then(s, Then(s, steps, Receive), StartExecute);
    FinishOne(Run(s, more), left, size + 1);
    more := Then(s, Then(s, Then(s, more, FailRead), Answer(false, true)), Conclude);
  }

  lemma {:induction false} ExecuteAll(s: State, steps: seq<Step>, left: nat, size: nat) returns (more: seq<Step>)
    requires Legal(s, steps) && Working(Run(s, steps), left, size)
    ensures Legal(s, more) && Working(Run(s, more), 0, size + 3 * left)
    decreases left
  {
    more := steps;
    if left > 0 {
      more := ExecuteOne(s, more, left - 1, size);
      more := ExecuteAll(s, more, left - 1, size + 3);
    }
  }

  /** The first execute prints to the cap and flips the transaction; each one fails its read. */
  lemma FillWith(s: State, steps: seq<Step>) returns (more: seq<Step>)
    requires s.limit > 0 && s.cap > 0 && Legal(s, steps) && Working(Run(s, steps), s.limit, 0)
    requires Run(s, steps).limit == s.limit && Run(s, steps).cap == s.cap
    ensures Legal(s, more) && Working(Run(s, more), 0, 3 * s.limit + s.cap + 1)
  {
    var left := s.limit - 1;
    StartOne(Run(s, steps), left, 0);
    more := Then(s, Then(s, steps, Receive), StartExecute);
    more := PrintAll(s, more, left, 1, 0);
    var n := Run(s, more);
    FlipOne(n, left, 1 + s.cap, s.cap);
    more := Then(s, Then(s, more, Track(!n.f.possiblyActive)), EmitState);
    FinishOne(Run(s, more), left, 2 + s.cap);
    more := Then(s, Then(s, Then(s, more, FailRead), Answer(false, true)), Conclude);
    more := ExecuteAll(s, more, left, 4 + s.cap);
  }

  lemma TakeClose(n: State, size: nat)
    requires Working(n, 0, size)
    ensures Enabled(n, Receive)
    ensures var a := Next(n, Receive);
            && Healthy(a) && a.r.worker == Busy(n.r.channel[0], false, false) && a.r.channel == []
            && a.b.queue == n.b.queue
  {
  }

  lemma AnswerClose(n: State)
    requires Healthy(n) && n.r.worker.Busy? && n.r.worker.command.kind == Close && n.r.worker.command.token.Some?
    ensures Enabled(n, RecordEnd(true))
    ensures var b := Next(n, RecordEnd(true)); Enabled(b, Answer(true, true))
    ensures var b := Next(n, RecordEnd(true)); var c := Next(b, Answer(true, true));
            c.r.worker == Ran(true) && c.r.channel == n.r.channel && Healthy(c)
                && |c.b.queue.items| == |n.b.queue.items| + 1
  {
  }

  lemma CloseOne(n: State, size: nat)
    requires Working(n, 0, size)
    ensures Enabled(n, Receive)
    ensures var a := Next(n, Receive); Enabled(a, RecordEnd(true))
    ensures var a := Next(n, Receive); var b := Next(a, RecordEnd(true)); Enabled(b, Answer(true, true))
    ensures var a := Next(n, Receive); var b := Next(a, RecordEnd(true)); var c := Next(b, Answer(true, true));
            c.r.worker == Ran(true) && c.r.channel == [] && Healthy(c) && |c.b.queue.items| == size + 1
  {
    TakeClose(n, size);
    AnswerClose(Next(n, Receive));
  }

  lemma LeaveOne(n: State, size: nat)
    requires n.r.worker == Ran(true) && n.r.channel == [] && Healthy(n) && |n.b.queue.items| == size
    ensures Enabled(n, Conclude)
    ensures var a := Next(n, Conclude); Enabled(a, ChannelGone)
    ensures var a := Next(n, Conclude); var b := Next(a, ChannelGone);
            b.r.worker == Ending && !b.f.terminalEmitted && !b.b.queue.closed && |b.b.queue.items| == size
  {
  }

  lemma EndOne(n: State, size: nat)
    requires n.r.worker == Ending && !n.f.terminalEmitted && !n.b.queue.closed && |n.b.queue.items| == size
    ensures Enabled(n, Announce)
    ensures var a := Next(n, Announce); Enabled(a, EmitTerminal) && |Next(a, EmitTerminal).b.queue.items| == size + 1
  {
  }

  lemma CloseDown(s: State, steps: seq<Step>, size: nat) returns (more: seq<Step>)
    requires Legal(s, steps) && Working(Run(s, steps), 0, size)
    ensures Legal(s, more) && |Run(s, more).b.queue.items| == size + 2
  {
    CloseOne(Run(s, steps), size);
    more := Then(s, Then(s, Then(s, steps, Receive), RecordEnd(true)), Answer(true, true));
    LeaveOne(Run(s, more), size + 1);
    more := Then(s, Then(s, more, Conclude), ChannelGone);
    EndOne(Run(s, more), size + 1);
    more := Then(s, Then(s, more, Announce), EmitTerminal);
  }

  lemma OpenOnly(s: State) returns (steps: seq<Step>)
    requires s == Opened(s.limit, s.cap) && s.limit > 0
    ensures Legal(s, steps) && Submitted(Run(s, steps), 0)
    ensures Run(s, steps).limit == s.limit && Run(s, steps).cap == s.cap
  {
    steps := Then(s, [], OpenAnswered(true));
    steps := Then(s, steps, Take);
  }

  lemma SubmitEverything(s: State) returns (steps: seq<Step>)
    requires s == Opened(s.limit, s.cap) && s.limit > 0
    ensures Legal(s, steps) && Working(Run(s, steps), s.limit, 0)
    ensures Run(s, steps).limit == s.limit && Run(s, steps).cap == s.cap
  {
    steps := OpenOnly(s);
    steps := SubmitAll(s, steps, 0);
    SubmitOne(Run(s, steps), s.limit, Close);
    steps := Then(s, Then(s, Then(s, steps, Load(0, Close)), Exchange(0)), Send(0));
  }

  /** For every limit and cap, some run fills the queue to the published bound. */
  lemma BoundIsAttained(limit: nat, cap: nat) returns (s: State, steps: seq<Step>)
    requires limit > 0 && cap > 0
    ensures Init(s) && s.limit == limit && s.cap == cap
    ensures Legal(s, steps) && |Run(s, steps).b.queue.items| == 3 * limit + cap + 3
  {
    s := Opened(limit, cap);
    steps := SubmitEverything(s);
    steps := FillWith(s, steps);
    steps := CloseDown(s, steps, 3 * limit + cap + 1);
  }

  // ------------------------------------------------------------------ a start after the end

  /** The worker loses the connection during a command that is answered elsewhere. */
  lemma LoseDuring(n: State)
    requires Healthy(n) && n.r.worker.Busy? && n.r.worker.command == Command(Plain, None)
    ensures Enabled(n, Lose)
    ensures var b := Next(n, Lose); Enabled(b, Answer(false, false))
    ensures var b := Next(n, Lose); var c := Next(b, Answer(false, false));
            c == n.(r := n.r.(worker := Ran(false)), f := n.f.(lost := true))
  {
  }

  lemma TakeCommand(n: State, c: Command)
    requires n.r.worker == Idle && n.r.channel == [c]
    ensures Enabled(n, Receive) && Next(n, Receive) == n.(r := n.r.(channel := [], worker := Busy(c, false, false)))
  {
  }

  /** The session opened, its reply was taken, and a completion-path command waits. */
  lemma LoseOne(n: State)
    requires Healthy(n) && n.r.worker == Idle && n.r.channel == [Command(Plain, None)]
    ensures Enabled(n, Receive)
    ensures var a := Next(n, Receive); Enabled(a, Lose)
    ensures var a := Next(n, Receive); var b := Next(a, Lose); Enabled(b, Answer(false, false))
    ensures var a := Next(n, Receive); var b := Next(a, Lose); var c := Next(b, Answer(false, false));
            c == n.(r := n.r.(channel := [], worker := Ran(false)), f := n.f.(lost := true))
  {
    TakeCommand(n, Command(Plain, None));
    LoseDuring(Next(n, Receive));
  }

  lemma StartAnnouncing(n: State)
    requires n.r.worker == Ran(false) && n.r.channel == [] && n.f.lost && !n.f.terminalEmitted
    ensures Enabled(n, Conclude)
    ensures var a := Next(n, Conclude); Enabled(a, QueueEmpty)
    ensures var a := Next(n, Conclude); var b := Next(a, QueueEmpty);
            && b.limit == n.limit && b.r == n.r.(worker := Announcing(false)) && b.b == n.b
            && b.f == n.f.(connected := false, terminalEmitted := true)
  {
  }

  lemma SayEnd(n: State)
    requires n.r.worker == Announcing(false)
    ensures Enabled(n, EmitTerminal)
    ensures var c := Next(n, EmitTerminal);
            && c.limit == n.limit && c.r == n.r.(worker := Idle) && c.b.outstanding == n.b.outstanding
            && c.b.log == n.b.log + [Ended] && c.f == n.f
  {
  }

  lemma AnnounceLoss(n: State)
    requires n.r.worker == Ran(false) && n.r.channel == [] && n.f.lost && !n.f.terminalEmitted && !n.f.receiverGone
    ensures Enabled(n, Conclude)
    ensures var a := Next(n, Conclude); Enabled(a, QueueEmpty)
    ensures var a := Next(n, Conclude); var b := Next(a, QueueEmpty); Enabled(b, EmitTerminal)
    ensures var a := Next(n, Conclude); var b := Next(a, QueueEmpty); var c := Next(b, EmitTerminal);
            && c.limit == n.limit && c.r == n.r.(worker := Idle) && c.b.outstanding == n.b.outstanding
            && c.b.log == n.b.log + [Ended] && !c.f.receiverGone && !c.f.unannounced == !n.f.unannounced
  {
    StartAnnouncing(n);
    SayEnd(Next(Next(n, Conclude), QueueEmpty));
  }

  lemma SubmitAfterEnd(n: State, kind: Kind)
    requires n.r.callers == [Away] && n.r.worker == Idle && n.r.channel == [] && !n.f.receiverGone && !n.f.unannounced
    requires n.b.outstanding == 0 < n.limit
    ensures Enabled(n, Load(0, kind))
    ensures var a := Next(n, Load(0, kind)); Enabled(a, Exchange(0))
    ensures var a := Next(n, Load(0, kind)); var b := Next(a, Exchange(0)); Enabled(b, Send(0))
    ensures var a := Next(n, Load(0, kind)); var b := Next(a, Exchange(0)); var c := Next(b, Send(0));
            && c.r.worker == Idle && c.r.channel == [Command(kind, Some(|n.r.kinds|))] && c.b.log == n.b.log
            && c.f == n.f
  {
  }

  lemma StartAfterEnd(n: State)
    requires n.r.worker == Idle && !n.f.unannounced
    requires n.r.channel != [] && n.r.channel[0].kind == Execute && n.r.channel[0].token.Some?
    ensures Enabled(n, Receive)
    ensures var a := Next(n, Receive); Enabled(a, StartExecute)
    ensures var a := Next(n, Receive); var b := Next(a, StartExecute);
            b.b.log == n.b.log + [Started(n.r.channel[0].token.value)]
  {
  }

  predicate JustLost(n: State) {
    && n.r == Requests([Away], [], Ran(false), [Plain], {})
    && n.f == Flags(false, true, true, false, false, false, false, false)
    && n.b.queue.items == [] && !n.b.queue.closed
  }

  /** An opened session lost its connection during a command that is answered elsewhere. */
  lemma LoseSession(s: State) returns (steps: seq<Step>)
    requires s == Opened(s.limit, s.cap) && s.limit > 0
    ensures Legal(s, steps) && JustLost(Run(s, steps))
    ensures Run(s, steps).limit == s.limit && Run(s, steps).b.outstanding == 0 && Run(s, steps).b.log == [Answered(0)]
  {
    steps := Then(s, [], OpenAnswered(true));
    steps := Then(s, steps, Take);
    steps := Then(s, steps, SendCompletion(Plain));
    LoseOne(Run(s, steps));
    steps := Then(s, Then(s, Then(s, steps, Receive), Lose), Answer(false, false));
  }

  lemma EndSession(s: State, steps: seq<Step>) returns (more: seq<Step>)
    requires Legal(s, steps) && JustLost(Run(s, steps))
    ensures Legal(s, more)
    ensures var n, m := Run(s, steps), Run(s, more);
            && m.limit == n.limit && m.r == n.r.(worker := Idle) && m.b.outstanding == n.b.outstanding
            && m.b.log == n.b.log + [Ended] && !m.f.receiverGone && !m.f.unannounced
  {
    AnnounceLoss(Run(s, steps));
    more := Then(s, Then(s, Then(s, steps, Conclude), QueueEmpty), EmitTerminal);
  }

  /** The end is not the last word: a request accepted after a lost session announced its end is
      still started before it is failed. */
  lemma StartCanFollowEnd(limit: nat, cap: nat) returns (s: State, steps: seq<Step>)
    requires limit > 0 && cap > 0
    ensures Init(s) && s.limit == limit && s.cap == cap && Legal(s, steps)
    ensures Run(s, steps).b.log == [Answered(0), Ended, Started(1)]
  {
    OpenedIsInit(limit, cap);
    s := Opened(limit, cap);
    steps := LoseSession(s);
    steps := EndSession(s, steps);
    steps := StartLate(s, steps);
  }

  lemma OpenedIsInit(limit: nat, cap: nat)
    requires limit > 0 && cap > 0
    ensures Init(Opened(limit, cap))
  {
  }

  lemma StartLate(s: State, steps: seq<Step>) returns (more: seq<Step>)
    requires Legal(s, steps)
    requires var n := Run(s, steps);
             && n.r == Requests([Away], [], Idle, [Plain], {}) && !n.f.receiverGone && !n.f.unannounced
             && n.b.outstanding == 0 < n.limit
    ensures Legal(s, more) && Run(s, more).b.log == Run(s, steps).b.log + [Started(1)]
  {
    SubmitAfterEnd(Run(s, steps), Execute);
    more := Then(s, Then(s, Then(s, steps, Load(0, Execute)), Exchange(0)), Send(0));
    StartAfterEnd(Run(s, more));
    more := Then(s, Then(s, more, Receive), StartExecute);
  }

  lemma SucceedAfterEnd(n: State)
    requires n.r.worker == Idle && !n.f.unannounced
    requires n.r.channel != [] && n.r.channel[0].kind == Discard && n.r.channel[0].token.Some?
    ensures Enabled(n, Receive)
    ensures var a := Next(n, Receive); Enabled(a, Answer(false, true))
    ensures var a := Next(n, Receive); var b := Next(a, Answer(false, true));
            var t := n.r.channel[0].token.value;
            b.b.log == n.b.log + [Answered(t)] && t in b.b.succeeded
  {
  }

  lemma SucceedLate(s: State, steps: seq<Step>) returns (more: seq<Step>)
    requires Legal(s, steps)
    requires var n := Run(s, steps);
             && n.r == Requests([Away], [], Idle, [Plain], {}) && !n.f.receiverGone && !n.f.unannounced
             && n.b.outstanding == 0 < n.limit
    ensures Legal(s, more) && Run(s, more).b.log == Run(s, steps).b.log + [Answered(1)] && 1 in Run(s, more).b.succeeded
  {
    SubmitAfterEnd(Run(s, steps), Discard);
    more := Then(s, Then(s, Then(s, steps, Load(0, Discard)), Exchange(0)), Send(0));
    SucceedAfterEnd(Run(s, more));
    more := Then(s, Then(s, more, Receive), Answer(false, true));
  }

  /** Nor is every reply after the end a failure: closing a result of a lost session finds no cursor
      and succeeds. */
  lemma SuccessCanFollowEnd(limit: nat, cap: nat) returns (s: State, steps: seq<Step>)
    requires limit > 0 && cap > 0
    ensures Init(s) && s.limit == limit && s.cap == cap && Legal(s, steps)
    ensures Run(s, steps).b.log == [Answered(0), Ended, Answered(1)] && 1 in Run(s, steps).b.succeeded
  {
    OpenedIsInit(limit, cap);
    s := Opened(limit, cap);
    steps := LoseSession(s);
    steps := EndSession(s, steps);
    steps := SucceedLate(s, steps);
  }
}
