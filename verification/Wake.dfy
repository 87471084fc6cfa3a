/** The wake-up path from the queue to the Qt event loop: producers that wake on the empty to
    non-empty edge, the flag that keeps one drain posted, and the budgeted drain that a nested event
    loop may deliver again while it is still walking the queue.

    Pushing, waking, posting, clearing the flag, taking and dispatching are separate steps, so a run
    is any interleaving of any number of threads with the Qt thread. */
module Wake {

  /** A producer's thread: `MustWake` after a push that found the queue empty, `MustPost` after it
      won the flag. */
  datatype Producer = Away | MustWake | MustPost

  /** Where a call of `drain` is. `walked` tells the repost of a walk that hit its budget from the
      repost of a call that found another one under way. */
  datatype Frame = Clear | Check | Loop | Dispatch | Swap(walked: bool) | Post(walked: bool) | Emit

  datatype State = State(
    queued: nat, producers: seq<Producer>,
    flag: bool,                  // a drain is posted, or somebody is about to post one
    posted: nat,                 // drains waiting in the event loop
    frames: seq<Frame>,          // calls of drain on the Qt thread's stack, innermost last
    draining: bool)

  datatype Step =
    | Push(i: nat) | WakeUp(i: nat) | PostFrom(i: nat)
    | Deliver | Advance(stop: bool)        // the innermost call takes its next step; `stop`: budget hit

  predicate InApplicationCode(f: Frame) { f.Dispatch? || f.Emit? }

  predicate Enabled(s: State, step: Step) {
    match step
    case Push(i) => i < |s.producers| && s.producers[i].Away?
    case WakeUp(i) => i < |s.producers| && s.producers[i].MustWake?
    case PostFrom(i) => i < |s.producers| && s.producers[i].MustPost?
    case Deliver => s.posted > 0 && (s.frames == [] || InApplicationCode(s.frames[|s.frames| - 1]))
    case Advance(_) => s.frames != []
  }

  /** The innermost call moves on. */
  function To(s: State, f: Frame): State
    requires s.frames != []
  {
    s.(frames := s.frames[..|s.frames| - 1] + [f])
  }

  function Return(s: State): State
    requires s.frames != []
  {
    s.(frames := s.frames[..|s.frames| - 1])
  }

  function Advanced(s: State, stop: bool): State
    requires s.frames != []
  {
    match s.frames[|s.frames| - 1]
    case Clear => To(s, Check).(flag := false)
    case Check => if s.draining then To(s, Swap(false)) else To(s, Loop).(draining := true)
    case Loop => if s.queued == 0 then To(s, Emit) else To(s, Dispatch).(queued := s.queued - 1)
    case Dispatch => To(s, if stop then Swap(true) else Loop)
    case Swap(walked) =>
      if !s.flag then To(s, Post(walked)).(flag := true) else if walked then To(s, Emit) else Return(s)
    case Post(walked) => (if walked then To(s, Emit) else Return(s)).(posted := s.posted + 1)
    case Emit => Return(s).(draining := false)
  }

  function Next(s: State, step: Step): State
    requires Enabled(s, step)
  {
    match step
    case Push(i) =>
      s.(queued := s.queued + 1, producers := s.producers[i := if s.queued == 0 then MustWake else Away])
    case WakeUp(i) => s.(flag := true, producers := s.producers[i := if s.flag then Away else MustPost])
    case PostFrom(i) => s.(posted := s.posted + 1, producers := s.producers[i := Away])
    case Deliver => s.(posted := s.posted - 1, frames := s.frames + [Clear])
    case Advance(stop) => Advanced(s, stop)
  }

  predicate Init(s: State) {
    && s.queued == 0 && !s.flag && s.posted == 0 && s.frames == [] && !s.draining
    && forall i | 0 <= i < |s.producers| :: s.producers[i].Away?
  }

  // ------------------------------------------------------------------ what every step keeps

  function Poster(p: Producer): nat { if p.MustPost? then 1 else 0 }

  function Posters(ps: seq<Producer>): nat {
    if ps == [] then 0 else Poster(ps[0]) + Posters(ps[1..])
  }

  /** A call that has yet to clear the flag it was posted with, or to make the post it won. */
  function Holds(f: Frame): nat { if f.Clear? || f.Post? then 1 else 0 }

  function Holding(fs: seq<Frame>): nat {
    if fs == [] then 0 else Holds(fs[0]) + Holding(fs[1..])
  }

  /** The outermost call walks the queue; a nested one only puts itself back in line. */
  predicate Walking(f: Frame) {
    f.Loop? || f.Dispatch? || f == Swap(true) || f == Post(true) || f.Emit?
  }

  predicate FramesInv(s: State) {
    && |s.frames| <= 2
    && (s.draining <==> s.frames != [] && Walking(s.frames[0]))
    && (s.frames != [] && !s.draining ==> s.frames[0].Clear? || s.frames[0].Check?)
    && (|s.frames| == 2 ==> InApplicationCode(s.frames[0]) && !Walking(s.frames[1]))
  }

  /** Exactly one posted, delivered or promised drain stands behind a set flag. */
  predicate FlagInv(s: State) {
    s.posted + Posters(s.producers) + Holding(s.frames) == if s.flag then 1 else 0
  }

  predicate Waking(s: State) { exists i :: 0 <= i < |s.producers| && s.producers[i].MustWake? }

  /** Somebody will look at the queue. */
  predicate WakeInv(s: State) {
    s.queued > 0 ==>
      || Waking(s) || s.flag
      || (exists i ::
         0 <= i < |s.frames| && (s.frames[i].Check? || s.frames[i].Loop? || s.frames[i].Dispatch? || s.frames[i].Swap?))
  }

  predicate Inv(s: State) {
    FramesInv(s) && FlagInv(s) && WakeInv(s)
  }

  lemma {:induction false} PostersUpdate(ps: seq<Producer>, i: nat, p: Producer)
    requires i < |ps|
    ensures Posters(ps[i := p]) == Posters(ps) - Poster(ps[i]) + Poster(p)
  {
    if i == 0 {
      assert ps[i := p][1..] == ps[1..];
    } else {
      assert ps[i := p][1..] == ps[1..][i - 1 := p];
      PostersUpdate(ps[1..], i - 1, p);
    }
  }

  lemma HoldingShort(fs: seq<Frame>)
    requires |fs| <= 2
    ensures fs == [] ==> Holding(fs) == 0
    ensures |fs| == 1 ==> Holding(fs) == Holds(fs[0])
    ensures |fs| == 2 ==> Holding(fs) == Holds(fs[0]) + Holds(fs[1])
  {
    if |fs| > 0 {
      assert |fs| == 2 ==> fs[1..] == [fs[1]] && [fs[1]][1..] == [];
    }
  }

  lemma StepKeepsFrames(s: State, step: Step)
    requires FramesInv(s) && Enabled(s, step)
    ensures FramesInv(Next(s, step))
  {
  }

  lemma ProducerKeepsFlag(s: State, step: Step)
    requires FlagInv(s) && Enabled(s, step) && (step.Push? || step.WakeUp? || step.PostFrom?)
    ensures FlagInv(Next(s, step))
  {
    PostersUpdate(s.producers, step.i, Next(s, step).producers[step.i]);
  }

  lemma DeliverKeepsFlag(s: State)
    requires FramesInv(s) && FlagInv(s) && Enabled(s, Deliver)
    ensures FlagInv(Next(s, Deliver))
  {
    StepKeepsFrames(s, Deliver);
    HoldingShort(s.frames);
    HoldingShort(s.frames + [Clear]);
  }

  /** The innermost call gives up, keeps or takes the one thing behind the flag. */
  lemma AdvanceKeepsFlag(s: State, stop: bool)
    requires FramesInv(s) && FlagInv(s) && s.frames != []
    ensures FlagInv(Advanced(s, stop))
  {
    var n := Advanced(s, stop);
    StepKeepsFrames(s, Advance(stop));
    HoldingShort(s.frames);
    HoldingShort(n.frames);
  }

  lemma StepKeepsFlag(s: State, step: Step)
    requires FramesInv(s) && FlagInv(s) && Enabled(s, step)
    ensures FlagInv(Next(s, step))
  {
    match step
    case Deliver => DeliverKeepsFlag(s);
    case Advance(stop) => AdvanceKeepsFlag(s, stop);
    case _ => ProducerKeepsFlag(s, step);
  }

  lemma StepKeepsWake(s: State, step: Step)
    requires Inv(s) && Enabled(s, step)
    ensures WakeInv(Next(s, step))
  {
    var n := Next(s, step);
    if step.Push? && s.queued == 0 {
      assert n.producers[step.i].MustWake?;
    } else if step.Advance? {
      assert Waking(s) ==> Waking(n);
      AdvanceKeepsWake(s, step.stop);
    } else if !step.WakeUp? && Waking(s) {
      var i :| 0 <= i < |s.producers| && s.producers[i].MustWake?;
      assert n.producers[i].MustWake?;
    }
  }

  lemma AdvanceKeepsWake(s: State, stop: bool)
    requires FramesInv(s) && WakeInv(s) && s.frames != []
    ensures Waking(Advanced(s, stop)) == Waking(s)
    ensures WakeInv(Advanced(s, stop))
  {
    var n, k := Advanced(s, stop), |s.frames| - 1;
    assert |n.frames| == |s.frames| ==> n.frames[k] == n.frames[|n.frames| - 1];
    assert forall i | 0 <= i < k :: n.frames[i] == s.frames[i];
  }

  lemma StepKeepsInv(s: State, step: Step)
    requires Inv(s) && Enabled(s, step)
    ensures Inv(Next(s, step))
  {
    StepKeepsFrames(s, step);
    StepKeepsFlag(s, step);
    StepKeepsWake(s, step);
  }

  // ------------------------------------------------------------------ whole runs

  predicate Legal(s: State, steps: seq<Step>)
    decreases |steps|
  {
    steps == [] || (Enabled(s, steps[0]) && Legal(Next(s, steps[0]), steps[1..]))
  }

  function Run(s: State, steps: seq<Step>): State
    requires Legal(s, steps)
    decreases |steps|
  {
    if steps == [] then s else Run(Next(s, steps[0]), steps[1..])
  }

  lemma {:induction false} AwayPosts(ps: seq<Producer>)
    requires forall i | 0 <= i < |ps| :: ps[i].Away?
    ensures Posters(ps) == 0
  {
    if ps != [] {
      AwayPosts(ps[1..]);
    }
  }

  lemma {:induction false} RunKeepsInv(s: State, steps: seq<Step>)
    requires Inv(s) && Legal(s, steps)
    ensures Inv(Run(s, steps))
    decreases |steps|
  {
    if steps != [] {
      StepKeepsInv(s, steps[0]);
      RunKeepsInv(Next(s, steps[0]), steps[1..]);
    }
  }

  lemma Reached(s: State, steps: seq<Step>)
    requires Init(s) && Legal(s, steps)
    ensures Inv(Run(s, steps))
  {
    AwayPosts(s.producers);
    RunKeepsInv(s, steps);
  }

  lemma {:induction false} SomePoster(ps: seq<Producer>)
    requires Posters(ps) > 0
    ensures exists i :: 0 <= i < |ps| && ps[i].MustPost?
  {
    if ps[0].MustPost? {
      assert ps[0].MustPost?;
    } else {
      SomePoster(ps[1..]);
      var i :| 0 <= i < |ps[1..]| && ps[1..][i].MustPost?;
      assert ps[i + 1].MustPost?;
    }
  }

  /** A call of drain that will look at the queue again, or has yet to post one that will. */
  predicate WillLook(f: Frame) { !f.Emit? }

  /** No wake-up is lost: while anything is queued, a producer is between its push and its post, or
      a drain is posted, or a call of drain is under way that has not finished its last look. */
  lemma NoWakeIsLost(s: State, steps: seq<Step>)
    requires Init(s) && Legal(s, steps)
    ensures var n := Run(s, steps);
            n.queued > 0 ==>
              || (exists i :: 0 <= i < |n.producers| && !n.producers[i].Away?)
              || n.posted > 0
              || (exists i :: 0 <= i < |n.frames| && WillLook(n.frames[i]))
  {
    Reached(s, steps);
    var n := Run(s, steps);
    if Posters(n.producers) > 0 {
      SomePoster(n.producers);
      var i :| 0 <= i < |n.producers| && n.producers[i].MustPost?;
      assert !n.producers[i].Away?;
    } else if Waking(n) {
      var i :| 0 <= i < |n.producers| && n.producers[i].MustWake?;
      assert !n.producers[i].Away?;
    } else if n.queued > 0 && n.posted == 0 {
      if n.flag {
        SomeHolder(n.frames);
      } else {
        var i :| 0 <= i < |n.frames|
                 && (n.frames[i].Check? || n.frames[i].Loop? || n.frames[i].Dispatch? || n.frames[i].Swap?);
        assert WillLook(n.frames[i]);
      }
    }
  }

  lemma {:induction false} SomeHolder(fs: seq<Frame>)
    requires Holding(fs) > 0
    ensures exists i :: 0 <= i < |fs| && WillLook(fs[i])
  {
    if Holds(fs[0]) == 1 {
      assert WillLook(fs[0]);
    } else {
      SomeHolder(fs[1..]);
      var i :| 0 <= i < |fs[1..]| && WillLook(fs[1..][i]);
      assert WillLook(fs[i + 1]);
    }
  }

  /** However the wakes race, at most one drain is posted; a flag left set always has a drain behind
      it; and the queue is walked by at most one call, the outermost. */
  lemma OneDrainAtATime(s: State, steps: seq<Step>)
    requires Init(s) && Legal(s, steps)
    ensures var n := Run(s, steps);
            && n.posted <= 1
            && (n.flag && n.posted == 0 && n.frames == [] ==> exists i ::
               0 <= i < |n.producers| && n.producers[i].MustPost?)
            && (forall i | 0 < i < |n.frames| :: !Walking(n.frames[i]))
  {
    Reached(s, steps);
    var n := Run(s, steps);
    if n.flag && n.posted == 0 && n.frames == [] {
      SomePoster(n.producers);
    }
  }

  // ------------------------------------------------------------------ the queue does empty

  /** Everything but new events and deliveries by a nested event loop. */
  predicate Settling(s: State, step: Step) {
    !step.Push? && !(step.Deliver? && s.frames != [])
  }

  function ProducerWork(p: Producer): nat {
    match p case Away => 0 case MustWake => 12 case MustPost => 11
  }

  function ProducersWork(ps: seq<Producer>): nat {
    if ps == [] then 0 else ProducerWork(ps[0]) + ProducersWork(ps[1..])
  }

  function FrameWork(f: Frame, nested: bool): nat {
    match f
    case Clear => if nested then 15 else 9
    case Check => if nested then 14 else 8
    case Loop => 7
    case Dispatch => 14
    case Swap(_) => 13
    case Post(_) => 12
    case Emit => 1
  }

  /** An upper bound on the steps left until everything queued has been taken. */
  function Work(s: State): nat {
    20 * s.queued + ProducersWork(s.producers) + 10 * s.posted
    + (if |s.frames| > 0 then FrameWork(s.frames[0], false) else 0)
    + (if |s.frames| > 1 then FrameWork(s.frames[1], true) else 0)
  }

  lemma {:induction false} WorkUpdate(ps: seq<Producer>, i: nat, p: Producer)
    requires i < |ps|
    ensures ProducersWork(ps[i := p]) == ProducersWork(ps) - ProducerWork(ps[i]) + ProducerWork(p)
  {
    if i == 0 {
      assert ps[i := p][1..] == ps[1..];
    } else {
      assert ps[i := p][1..] == ps[1..][i - 1 := p];
      WorkUpdate(ps[1..], i - 1, p);
    }
  }

  lemma AdvanceDoesWork(s: State, stop: bool)
    requires FramesInv(s) && s.frames != []
    ensures Work(Advanced(s, stop)) < Work(s)
  {
  }

  lemma StepsDoWork(s: State, step: Step)
    requires Inv(s) && Enabled(s, step) && Settling(s, step)
    ensures Work(Next(s, step)) < Work(s)
  {
    if step.Advance? {
      AdvanceDoesWork(s, step.stop);
    } else if step.WakeUp? || step.PostFrom? {
      WorkUpdate(s.producers, step.i, Next(s, step).producers[step.i]);
    }
  }

  predicate Settles(s: State, steps: seq<Step>)
    requires Legal(s, steps)
    decreases |steps|
  {
    steps == [] || (Settling(s, steps[0]) && Settles(Next(s, steps[0]), steps[1..]))
  }

  lemma {:induction false} SettlingIsShort(s: State, steps: seq<Step>)
    requires Inv(s) && Legal(s, steps) && Settles(s, steps)
    ensures |steps| + Work(Run(s, steps)) <= Work(s)
    ensures Inv(Run(s, steps))
    decreases |steps|
  {
    if steps != [] {
      StepsDoWork(s, steps[0]);
      StepKeepsInv(s, steps[0]);
      SettlingIsShort(Next(s, steps[0]), steps[1..]);
    }
  }

  /** Once no new event arrives and no nested event loop intervenes, every way of going on is finite,
      and where it can go no further the queue is empty: no budget leaves an event behind. */
  lemma QueueEmpties(s: State, steps: seq<Step>, more: seq<Step>)
    requires Init(s) && Legal(s, steps)
    requires Legal(Run(s, steps), more) && Settles(Run(s, steps), more)
    ensures |more| <= Work(Run(s, steps))
    ensures var n := Run(Run(s, steps), more);
            n.queued > 0 ==> exists step :: Enabled(n, step) && Settling(n, step)
  {
    Reached(s, steps);
    SettlingIsShort(Run(s, steps), more);
    var n := Run(Run(s, steps), more);
    if n.frames != [] {
      assert Enabled(n, Advance(false)) && Settling(n, Advance(false));
    } else if n.posted > 0 {
      assert Enabled(n, Deliver) && Settling(n, Deliver);
    } else if Posters(n.producers) > 0 {
      SomePoster(n.producers);
      var i :| 0 <= i < |n.producers| && n.producers[i].MustPost?;
      assert Enabled(n, PostFrom(i)) && Settling(n, PostFrom(i));
    } else if Waking(n) {
      var i :| 0 <= i < |n.producers| && n.producers[i].MustWake?;
      assert Enabled(n, WakeUp(i)) && Settling(n, WakeUp(i));
    }
  }

  /** Why nested deliveries are set apart: a drain delivered inside application code clears the flag,
      finds a walk under way and posts itself again, which leaves everything as it was. It loses
      nothing, and it can go on for as long as the nested event loop runs. */
  lemma NestedDeliveryChangesNothing(s: State)
    requires Inv(s) && |s.frames| == 1 && InApplicationCode(s.frames[0]) && s.posted > 0
    ensures Enabled(s, Deliver)
    ensures Advanced(Advanced(Advanced(Advanced(Next(s, Deliver), false), false), false), false) == s
  {
    HoldingShort(s.frames);
    var a := Next(s, Deliver);
    assert a.frames[..1] == s.frames;
    var b := Advanced(a, false);
    assert b.frames[..1] == s.frames;
    var c := Advanced(b, false);
    assert c.frames[..1] == s.frames;
    var d := Advanced(c, false);
    assert d.frames[..1] == s.frames;
  }

  // ------------------------------------------------------------------ every event is dispatched once

  /** The step takes an event off the queue and dispatches it. */
  predicate Takes(s: State, step: Step)
    requires Enabled(s, step)
  {
    && step.Advance? && s.frames[|s.frames| - 1].Loop?
    && Next(s, step).frames != [] && Next(s, step).frames[|Next(s, step).frames| - 1].Dispatch?
  }

  function Dispatched(s: State, steps: seq<Step>): nat
    requires Legal(s, steps)
    decreases |steps|
  {
    if steps == [] then 0
    else (if Takes(s, steps[0]) then 1 else 0) + Dispatched(Next(s, steps[0]), steps[1..])
  }

  function Pushes(steps: seq<Step>): nat {
    if steps == [] then 0 else (if steps[0].Push? then 1 else 0) + Pushes(steps[1..])
  }

  lemma {:induction false} EventsAreConserved(s: State, steps: seq<Step>)
    requires Legal(s, steps)
    ensures Dispatched(s, steps) + Run(s, steps).queued == s.queued + Pushes(steps)
    decreases |steps|
  {
    if steps != [] {
      EventsAreConserved(Next(s, steps[0]), steps[1..]);
    }
  }

  /** In every run what was pushed is what was dispatched and what is queued; so once nothing more can
      be done short of new events or nested deliveries, every event pushed has been dispatched once. */
  lemma EveryEventIsDispatched(s: State, steps: seq<Step>)
    requires Init(s) && Legal(s, steps)
    ensures Dispatched(s, steps) + Run(s, steps).queued == Pushes(steps)
    ensures (forall step | Enabled(Run(s, steps), step) :: !Settling(Run(s, steps), step)) ==>
              Dispatched(s, steps) == Pushes(steps)
  {
    EventsAreConserved(s, steps);
    assert Legal(Run(s, steps), []) && Run(Run(s, steps), []) == Run(s, steps);
    QueueEmpties(s, steps, []);
  }

  /** A walk that hits its budget takes nothing more, and before it returns a drain is on its way: its
      own, posted again, unless one is already there or about to be. */
  lemma StoppedWalkComesBack(s: State)
    requires Inv(s) && |s.frames| == 1 && s.frames[0].Dispatch?
    ensures var a := Advanced(s, true);
            && a.queued == s.queued && a.frames == [Swap(true)]
            && var b := Advanced(a, false);
               if s.flag then b == a.(frames := [Emit])
               else
                 && b.frames == [Post(true)]
                 && Advanced(b, false) == a.(frames := [Emit], flag := true, posted := s.posted + 1)
  {
    var a := Advanced(s, true);
    assert s.frames[..0] == [] && a.frames == [Swap(true)];
    var b := Advanced(a, false);
    assert a.frames[..0] == [] && b.frames == [if s.flag then Emit else Post(true)];
    if !s.flag {
      assert b.frames[..0] == [] && Advanced(b, false).frames == [Emit];
    }
  }
}
