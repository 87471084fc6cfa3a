/** Binding a sink against announcing the end. `bind_events` looks and sets under the events lock;
    `emit_terminal` claims the right to announce with a compare-exchange outside it, then reads the
    lifecycle, then pushes under that lock. Any number of threads do either, in any interleaving. */
module TerminalEvent {
  import opened SessionShared
  import opened Wrappers

  datatype Thread =
    | Away
    | Locked                     // binding: holds the events lock
    | Looked                     // binding: still holds it, found no sink and no end
    | Claimed                    // announcing: won the compare-exchange
    | Reads(seen: Lifecycle)     // announcing: read the lifecycle, has to push

  datatype State = State(
    threads: seq<Thread>,
    holder: Option<nat>,         // who holds the events lock
    claimer: Option<nat>,        // who won the compare-exchange and has not pushed yet
    bound: bool, emitted: bool,
    pushed: bool,                // the one push was made, into a sink or into nothing
    passed: seq<Lifecycle>,      // every lifecycle the session has been in, the current one last
    since: nat,                  // which of them was current when the end was claimed
    received: seq<Lifecycle>)    // the `Terminal` events the sink holds

  datatype Step =
    | Lock(i: nat) | Refuse(i: nat) | Look(i: nat) | Set(i: nat)
    | Claim(i: nat) | Read(i: nat) | Push(i: nat)
    | Worsen(to: Lifecycle)

  predicate At(s: State, i: nat, t: Thread) { i < |s.threads| && s.threads[i] == t }

  function Current(s: State): Lifecycle
    requires s.passed != []
  {
    s.passed[|s.passed| - 1]
  }

  predicate Enabled(s: State, step: Step) {
    match step
    case Lock(i) => At(s, i, Away) && s.holder.None?
    case Refuse(i) => At(s, i, Locked) && (s.bound || s.emitted)
    case Look(i) => At(s, i, Locked) && !s.bound && !s.emitted
    case Set(i) => At(s, i, Looked)
    case Claim(i) => At(s, i, Away)
    case Read(i) => At(s, i, Claimed) && s.passed != []
    case Push(i) => i < |s.threads| && s.threads[i].Reads? && s.holder.None?
    case Worsen(to) => s.passed != [] && Rank(Current(s)) <= Rank(to)
  }

  function Put(s: State, i: nat, t: Thread): State
    requires i < |s.threads|
  {
    s.(threads := s.threads[i := t])
  }

  function Next(s: State, step: Step): State
    requires Enabled(s, step)
  {
    match step
    case Lock(i) => Put(s, i, Locked).(holder := Some(i))
    case Refuse(i) => Put(s, i, Away).(holder := None)
    case Look(i) => Put(s, i, Looked)
    case Set(i) => Put(s, i, Away).(holder := None, bound := true)
    case Claim(i) =>
      if s.emitted then s
      else
        Put(s, i, Claimed).(emitted := true, claimer := Some(i),
                            since := if s.passed == [] then 0 else |s.passed| - 1)
    case Read(i) => Put(s, i, Reads(Current(s)))
    case Push(i) =>
      Put(s, i, Away).(claimer := None, pushed := true,
                       received := if s.bound then s.received + [s.threads[i].seen] else s.received)
    case Worsen(to) => s.(passed := s.passed + [to])
  }

  predicate Init(s: State) {
    && (forall i | 0 <= i < |s.threads| :: s.threads[i].Away?)
    && s.holder.None? && s.claimer.None? && !s.bound && !s.emitted && !s.pushed && s.received == [] && |s.passed| == 1
    && s.since == 0
  }

  /** The events lock has one holder, and only a bind that holds it has looked. */
  predicate LockInv(s: State) {
    && (forall i | 0 <= i < |s.threads| :: (s.threads[i].Locked? || s.threads[i].Looked?) <==> s.holder == Some(i))
    && (s.holder.Some? ==> s.holder.value < |s.threads|)
    && (forall i | 0 <= i < |s.threads| && s.threads[i].Looked? :: !s.bound && !s.pushed)
  }

  /** The right to announce has one claimer, who pushes once. */
  predicate ClaimInv(s: State) {
    && (forall i | 0 <= i < |s.threads| :: (s.threads[i].Claimed? || s.threads[i].Reads?) <==> s.claimer == Some(i))
    && (s.claimer.Some? ==> s.claimer.value < |s.threads|)
    && (s.emitted <==> s.claimer.Some? || s.pushed)
    && !(s.claimer.Some? && s.pushed)
  }

  /** The session was in this lifecycle when the end was claimed, or since. */
  predicate WasTrue(s: State, l: Lifecycle) {
    exists k :: s.since <= k < |s.passed| && s.passed[k] == l
  }

  predicate ReceivedInv(s: State) {
    && s.since < |s.passed|
    && (forall i, j | 0 <= i < j < |s.passed| :: Rank(s.passed[i]) <= Rank(s.passed[j]))
    && |s.received| == (if s.bound && s.pushed then 1 else 0)
    && (forall i | 0 <= i < |s.threads| && s.threads[i].Reads? :: WasTrue(s, s.threads[i].seen))
    && (forall i | 0 <= i < |s.received| :: WasTrue(s, s.received[i]))
  }

  predicate Inv(s: State) {
    LockInv(s) && ClaimInv(s) && ReceivedInv(s)
  }

  lemma StepKeepsLock(s: State, step: Step)
    requires LockInv(s) && ClaimInv(s) && Enabled(s, step)
    ensures LockInv(Next(s, step))
  {
  }

  lemma StepKeepsClaim(s: State, step: Step)
    requires LockInv(s) && ClaimInv(s) && Enabled(s, step)
    ensures ClaimInv(Next(s, step))
  {
  }

  /** What was true stays so as the session goes on. */
  lemma StillTrue(s: State, n: State, l: Lifecycle)
    requires WasTrue(s, l) && n.since == s.since && s.passed <= n.passed
    ensures WasTrue(n, l)
  {
    var k :| s.since <= k < |s.passed| && s.passed[k] == l;
    assert n.passed[k] == l;
  }

  lemma StepKeepsReceived(s: State, step: Step)
    requires Inv(s) && Enabled(s, step)
    ensures ReceivedInv(Next(s, step))
  {
    var n := Next(s, step);
    if step.Read? {
      assert s.passed[|s.passed| - 1] == Current(s);
    }
    if n.since == s.since {
      forall l | WasTrue(s, l) ensures WasTrue(n, l) {
        StillTrue(s, n, l);
      }
    } else {
      assert forall i | 0 <= i < |n.threads| :: !n.threads[i].Reads?;
    }
  }

  lemma StepKeepsInv(s: State, step: Step)
    requires Inv(s) && Enabled(s, step)
    ensures Inv(Next(s, step))
  {
    StepKeepsLock(s, step);
    StepKeepsClaim(s, step);
    StepKeepsReceived(s, step);
  }

  predicate Legal(s: State, steps: seq<Step>)
    decreases |steps|
  {
    steps == [] || (Enabled(s, steps[0]) && Legal(Next(s, steps[0]), steps[1..]))
  }

  function Run(s: State, steps: seq<Step>): State
    requires Legal(s, steps)
    decreases |steps|
  {
    if steps == [] then s else Run(Next(s, steps[0]), steps[1..])
  }

  lemma {:induction false} RunKeepsInv(s: State, steps: seq<Step>)
    requires Inv(s) && Legal(s, steps)
    ensures Inv(Run(s, steps))
    ensures s.bound ==> Run(s, steps).bound
    ensures s.emitted && !s.bound && s.pushed ==> !Run(s, steps).bound
    decreases |steps|
  {
    if steps != [] {
      StepKeepsInv(s, steps[0]);
      RunKeepsInv(Next(s, steps[0]), steps[1..]);
    }
  }

  /** The end is announced at most once, and a sink whose bind succeeded never misses it: from the
      compare-exchange on, either one thread is still about to push it, or the sink holds it. The
      lifecycle it tells is one the session was in when the end was claimed or later, and the
      session never improved. */
  lemma BoundSinkSeesTheEndOnce(s: State, steps: seq<Step>)
    requires Init(s) && Legal(s, steps)
    ensures var n := Run(s, steps);
            && |n.received| <= 1
            && (n.bound && n.emitted && n.received == [] ==>
                  exists i :: 0 <= i < |n.threads| && (n.threads[i].Claimed? || n.threads[i].Reads?))
            && (!n.emitted ==> n.received == [])
            && (forall i | 0 <= i < |n.received| :: WasTrue(n, n.received[i]))
            && (forall i, j | 0 <= i < j < |n.passed| :: Rank(n.passed[i]) <= Rank(n.passed[j]))
  {
    RunKeepsInv(s, steps);
    var n := Run(s, steps);
    if n.bound && n.emitted && n.received == [] {
      var i := n.claimer.value;
      assert n.threads[i].Claimed? || n.threads[i].Reads?;
    }
  }

  /** A bind that comes too late is refused for good: after an end announced to nobody no sink is
      ever bound, so no sink waits for an end it can never see. */
  lemma LateBindIsRefused(s: State, steps: seq<Step>, more: seq<Step>)
    requires Init(s) && Legal(s, steps) && Run(s, steps).pushed && !Run(s, steps).bound
    requires Legal(Run(s, steps), more)
    ensures !Run(Run(s, steps), more).bound
  {
    RunKeepsInv(s, steps);
    RunKeepsInv(Run(s, steps), more);
  }

  /** A bind that nobody disturbs takes the lock and gives it back; it succeeds if and only if no sink
      was bound and no end claimed before it. */
  lemma BindSucceedsExactlyWhen(s: State, i: nat) returns (steps: seq<Step>)
    requires Inv(s) && s.holder.None? && At(s, i, Away)
    ensures Legal(s, steps) && Run(s, steps).holder.None? && At(Run(s, steps), i, Away)
    ensures Run(s, steps).bound && !s.bound <==> !s.bound && !s.emitted
    ensures s.bound ==> Run(s, steps).bound
  {
    var a := Next(s, Lock(i));
    if s.bound || s.emitted {
      var b := Next(a, Refuse(i));
      steps := First(s, Lock(i), First(a, Refuse(i), []));
      assert Run(b, []) == b;
    } else {
      var b := Next(a, Look(i));
      var c := Next(b, Set(i));
      steps := First(s, Lock(i), First(a, Look(i), First(b, Set(i), [])));
      assert Run(c, []) == c;
    }
  }

  /** An end that nobody disturbs tells a bound sink the lifecycle the session is in by then. */
  lemma EndTellsTheNewest(s: State, i: nat, to: Lifecycle) returns (steps: seq<Step>)
    requires Inv(s) && s.holder.None? && At(s, i, Away) && !s.emitted && s.passed != [] && Rank(Current(s)) <= Rank(to)
    ensures Legal(s, steps) && steps != [] && steps[0] == Worsen(to)
    ensures Run(s, steps).pushed && Run(s, steps).received == if s.bound then [to] else []
  {
    var a := Next(s, Worsen(to));
    var b := Next(a, Claim(i));
    var c := Next(b, Read(i));
    var d := Next(c, Push(i));
    steps := First(s, Worsen(to), First(a, Claim(i), First(b, Read(i), First(c, Push(i), []))));
    assert Run(d, []) == d;
  }

  function First(s: State, step: Step, rest: seq<Step>): (steps: seq<Step>)
    requires Enabled(s, step) && Legal(Next(s, step), rest)
    ensures steps == [step] + rest && Legal(s, steps) && Run(s, steps) == Run(Next(s, step), rest)
  {
    assert ([step] + rest)[1..] == rest;
    [step] + rest
  }
}
