/** Whether a node that shows "Loading" has a fetch that will answer it. Superseding is counted by one
    generation for the whole tree, so refreshing one node also outdates every other queued node. */
module BrowserLoading {
  import opened BrowserSpec
  import opened BrowserTheorems
  import opened Wrappers

  /** A fetch for this node is in flight whose answer will be put on it. */
  predicate Awaited(b: Browser, n: Node) {
    b.active == Some(n) && GenerationOf(b, n) == b.activeGeneration
  }

  /** The node is queued and will be fetched when its turn comes. */
  predicate Due(b: Browser, n: Node) {
    n in b.pending && GenerationOf(b, n) == b.generation
  }

  /** The node shows "Loading", its stamp is outdated, and no answer under way is for it. */
  predicate Abandoned(b: Browser, n: Node) {
    n in b.loading && GenerationOf(b, n) < b.generation && !Awaited(b, n)
  }

  // ------------------------------------------------------------------ what every step keeps

  predicate StampsBounded(b: Browser) {
    forall n: Node | n in b.nodeGeneration :: b.nodeGeneration[n] <= b.generation
  }

  /** Queued nodes are loading and not awaited; a loading node is queued, awaited or abandoned. */
  predicate Lists(b: Browser) {
    && Distinct(b.pending) && StampsBounded(b)
    && (b.active.Some? ==> b.activeGeneration <= b.generation)
    && (b.active.Some? && b.activeGeneration == b.generation ==> Awaited(b, b.active.value))
    && (forall n: Node | n in b.pending :: n in b.loading && !Awaited(b, n))
    && (forall n: Node | n in b.loading :: n in b.pending || Awaited(b, n) || GenerationOf(b, n) < b.generation)
    && (b.active.Some? && Awaited(b, b.active.value) ==> b.active.value in b.loading)
  }

  lemma {:induction false} StartingOnlyUnloads(b: Browser, a: Answers)
    ensures var r := StartNext(b, a).0;
            && r.loading <= b.loading && r.generation == b.generation && r.nodeGeneration == b.nodeGeneration
    decreases |b.pending|
  {
    if b.active.None? && b.pending != [] && !b.openFailed && b.ready {
      var n, rest := b.pending[0], b.pending[1..];
      if GenerationOf(b, n) != b.generation {
        StartingOnlyUnloads(b.(pending := rest), a);
      } else {
        var started := b.(pending := rest, active := Some(n), activeGeneration := b.generation);
        var fetch := Fetch(n, FilterOf(b, n));
        if Head(a).Unprepared? {
          StartingOnlyUnloads(Apply(started.(active := None), n, fetch, false), Tail(a));
        } else if Head(a).Refused? {
          var first := Settle(started, fetch, false);
          StartingOnlyUnloads(first, Tail(a));
          var (nested, left) := StartNext(first, Tail(a));
          StartingOnlyUnloads(Apply(nested.(active := None), n, fetch, false), left);
        }
      }
    }
  }

  /** The oldest queued node is taken off the queue. */
  lemma PopIsDistinct(q: seq<Node>)
    requires q != [] && Distinct(q)
    ensures Distinct(q[1..]) && q[0] !in q[1..]
    ensures forall n | n in q :: n == q[0] || n in q[1..]
  {
    assert q == [q[0]] + q[1..];
  }

  lemma SkipKeepsLists(b: Browser)
    requires Lists(b) && b.active.None? && b.pending != [] && GenerationOf(b, b.pending[0]) != b.generation
    ensures Lists(b.(pending := b.pending[1..]))
  {
    PopIsDistinct(b.pending);
  }

  lemma StartKeepsLists(b: Browser, fetch: Fetch)
    requires Lists(b) && b.active.None? && b.pending != [] && GenerationOf(b, b.pending[0]) == b.generation
    ensures var n := b.pending[0];
            var started := b.(pending := b.pending[1..], active := Some(n), activeGeneration := b.generation);
            && Lists(started.(inFlight := b.inFlight + [fetch]))
            && Lists(Apply(started.(active := None), n, fetch, false))
            && Settle(started, fetch, false) == Apply(started.(active := None), n, fetch, false)
  {
    PopIsDistinct(b.pending);
  }

  lemma FailKeepsLists(b: Browser)
    requires Lists(b) && b.active.None?
    ensures Lists(FailQueued(b))
  {
  }

  /** Putting an error on a node that is neither loading nor active changes no list. */
  lemma ReapplyKeepsLists(b: Browser, n: Node, fetch: Fetch)
    requires Lists(b) && b.active.None? && n !in b.loading
    ensures Lists(Apply(b, n, fetch, false))
  {
    assert b.loading - {n} == b.loading;
  }

  lemma {:induction false} StartingKeepsLists(b: Browser, a: Answers)
    requires Lists(b) && Sticky(a)
    ensures Lists(StartNext(b, a).0)
    decreases |b.pending|, 1
  {
    if b.active.None? && b.pending != [] {
      if b.openFailed {
        FailKeepsLists(b);
      } else if b.ready {
        var n, rest := b.pending[0], b.pending[1..];
        if GenerationOf(b, n) != b.generation {
          SkipKeepsLists(b);
          StartingKeepsLists(b.(pending := rest), a);
        } else {
          CurrentStartKeepsLists(b, a);
        }
      }
    }
  }

  lemma {:induction false} CurrentStartKeepsLists(b: Browser, a: Answers)
    requires Lists(b) && Sticky(a) && b.active.None? && b.pending != [] && !b.openFailed && b.ready
    requires GenerationOf(b, b.pending[0]) == b.generation
    ensures Lists(StartNext(b, a).0)
    decreases |b.pending|, 0
  {
    var n := b.pending[0];
    var fetch := Fetch(n, FilterOf(b, n));
    var first := Apply(b.(pending := b.pending[1..], activeGeneration := b.generation), n, fetch, false);
    StickyTail(a);
    StartKeepsLists(b, fetch);
    if Head(a).Unprepared? {
      var idle := b.(pending := b.pending[1..], active := None, activeGeneration := b.generation);
      assert first == Apply(idle, n, fetch, false);
      StartingKeepsLists(first, Tail(a));
    } else if Head(a).Refused? {
      StartingKeepsLists(first, Tail(a));
      RefusedStaysIdle(first, Tail(a));
      StartingOnlyUnloads(first, Tail(a));
      var (nested, left) := StartNext(first, Tail(a));
      ReapplyKeepsLists(nested, n, fetch);
      StartingKeepsLists(Apply(nested, n, fetch, false), left);
    }
  }

  lemma QueueingKeepsLists(b: Browser, n: Node, a: Answers)
    requires Lists(b) && Sticky(a) && !(b.active == Some(n) && b.activeGeneration == b.generation)
    ensures Lists(QueueFetch(b, n, a))
  {
    var q := Stamped(b, n);
    assert forall x: Node | x in q.pending :: x == n || x in b.pending;
    assert forall x: Node | x in b.pending :: x in q.pending;
    assert n in q.pending;
    StartingKeepsLists(q, a);
  }

  /** The node stamped and queued, before anything is started. */
  function Stamped(b: Browser, n: Node): Browser {
    b.(loading := b.loading + {n}, nodeGeneration := b.nodeGeneration[n := b.generation],
       pending := if n in b.pending then b.pending else b.pending + [n])
  }

  lemma SettleKeepsLists(b: Browser, from: Fetch, ok: bool)
    requires Lists(b)
    ensures Lists(Settle(b, from, ok))
  {
  }

  lemma BumpKeepsLists(b: Browser, n: Node)
    requires Lists(b)
    ensures Lists(Bump(b, n)) && !(b.active.Some? && b.activeGeneration == Bump(b, n).generation)
  {
  }

  lemma ExpandKeepsLists(b: Browser, n: Node, force: bool, a: Answers)
    requires Lists(b) && Sticky(a)
    ensures Lists(Expand(b, n, force, a))
  {
    if force {
      BumpKeepsLists(b, n);
      QueueingKeepsLists(Bump(b, n), n, a);
    } else if n !in b.loading && n !in b.loaded {
      QueueingKeepsLists(b, n, a);
    }
  }

  /** The lists do not depend on filters, the session or what is in flight. */
  lemma ListsAgree(b: Browser, c: Browser)
    requires Lists(b) && c.pending == b.pending && c.loading == b.loading && c.generation == b.generation
    requires c.nodeGeneration == b.nodeGeneration && c.active == b.active && c.activeGeneration == b.activeGeneration
    ensures Lists(c)
  {
    assert forall n: Node :: GenerationOf(c, n) == GenerationOf(b, n) && Awaited(c, n) == Awaited(b, n);
  }

  lemma GivingUpKeepsLists(b: Browser, a: Answers)
    requires Lists(b) && Sticky(a)
    ensures Lists(GivenUp(b, a))
  {
    ListsAgree(b, b.(openFailed := true));
    StartingKeepsLists(b.(openFailed := true), a);
  }

  lemma ReplyKeepsLists(b: Browser, ok: bool, a: Answers)
    requires Lists(b) && Sticky(a) && b.inFlight != []
    ensures Lists(Reply(b, ok, a))
  {
    var left := b.(inFlight := b.inFlight[1..]);
    ListsAgree(b, left);
    SettleKeepsLists(left, b.inFlight[0], ok);
    StartingKeepsLists(Settle(left, b.inFlight[0], ok), a);
    GivingUpKeepsLists(left, a);
  }

  lemma StepKeepsLists(b: Browser, m: Move)
    requires Lists(b) && Enabled(b, m) && Sticky(m.answers)
    ensures Lists(Next(b, m))
  {
    match m.step
    case ExpandStep(n, force) => ExpandKeepsLists(b, n, force, m.answers);
    case BumpStep(n) => BumpKeepsLists(b, n);
    case FilterStep(n, text) =>
      ListsAgree(b, b.(filters := b.filters[n := text]));
      ExpandKeepsLists(b.(filters := b.filters[n := text]), n, true, m.answers);
    case SessionOpened =>
      ListsAgree(b, b.(ready := true));
      StartingKeepsLists(b.(ready := true), m.answers);
    case SessionFailed => GivingUpKeepsLists(b, m.answers);
    case ReplyStep(ok) => ReplyKeepsLists(b, ok, m.answers);
    case CloseStep =>
  }

  lemma {:induction false} RunKeepsLists(b: Browser, ms: seq<Move>)
    requires Lists(b) && Legal(b, ms) && AllSticky(ms)
    ensures Lists(Run(b, ms))
    decreases |ms|
  {
    if ms != [] {
      StepKeepsLists(b, ms[0]);
      RunKeepsLists(Next(b, ms[0]), ms[1..]);
    }
  }

  // ------------------------------------------------------------------ which steps abandon a node

  /** The step outdates what is queued. */
  predicate Supersedes(b: Browser, m: Move) {
    match m.step
    case ExpandStep(_, force) => force
    case BumpStep(_) => true
    case FilterStep(n, text) => FilterOf(b, n) != text
    case _ => false
  }

  /** The step asks for this node again. */
  predicate AsksAgain(m: Move, n: Node) {
    match m.step
    case ExpandStep(x, force) => x == n && force
    case FilterStep(x, _) => x == n
    case _ => false
  }

  /** Starting fetches picks only current nodes, whatever the session answers. */
  lemma {:induction false} StartingLeavesAbandoned(b: Browser, a: Answers, x: Node)
    requires Abandoned(b, x)
    ensures Abandoned(StartNext(b, a).0, x)
    decreases |b.pending|
  {
    if b.active.None? && b.pending != [] && !b.openFailed && b.ready {
      var n, rest := b.pending[0], b.pending[1..];
      if GenerationOf(b, n) != b.generation {
        StartingLeavesAbandoned(b.(pending := rest), a, x);
      } else {
        var started := b.(pending := rest, active := Some(n), activeGeneration := b.generation);
        var fetch := Fetch(n, FilterOf(b, n));
        if Head(a).Unprepared? {
          StartingLeavesAbandoned(Apply(started.(active := None), n, fetch, false), Tail(a), x);
        } else if Head(a).Refused? {
          var first := Settle(started, fetch, false);
          StartingLeavesAbandoned(first, Tail(a), x);
          var (nested, left) := StartNext(first, Tail(a));
          StartingOnlyUnloads(first, Tail(a));
          StartingLeavesAbandoned(Apply(nested.(active := None), n, fetch, false), left, x);
        }
      }
    }
  }

  lemma StartingAbandonsNobody(b: Browser, a: Answers, x: Node)
    ensures Abandoned(StartNext(b, a).0, x) <==> Abandoned(b, x)
  {
    StartingOnlyUnloads(b, a);
    if Abandoned(b, x) {
      StartingLeavesAbandoned(b, a, x);
    }
  }

  lemma BumpAbandons(b: Browser, n: Node, x: Node)
    requires Lists(b)
    ensures Abandoned(Bump(b, n), x) <==> Abandoned(b, x) || Due(b, x)
  {
  }

  lemma QueueingSaves(b: Browser, n: Node, a: Answers, x: Node)
    ensures Abandoned(QueueFetch(b, n, a), x) <==> Abandoned(b, x) && x != n
  {
    StartingAbandonsNobody(Stamped(b, n), a, x);
  }

  lemma SettleAbandonsNobody(b: Browser, from: Fetch, ok: bool, x: Node)
    ensures Abandoned(Settle(b, from, ok), x) <==> Abandoned(b, x)
  {
  }

  lemma ReplyAbandonsNobody(b: Browser, ok: bool, a: Answers, x: Node)
    requires b.inFlight != []
    ensures Abandoned(Reply(b, ok, a), x) <==> Abandoned(b, x)
  {
    var left := b.(inFlight := b.inFlight[1..]);
    assert Abandoned(left, x) <==> Abandoned(b, x);
    SettleAbandonsNobody(left, b.inFlight[0], ok, x);
    StartingAbandonsNobody(Settle(left, b.inFlight[0], ok), a, x);
    StartingAbandonsNobody(left.(openFailed := true), a, x);
  }

  lemma ForcedAbandons(b: Browser, n: Node, a: Answers, x: Node)
    requires Lists(b)
    ensures Abandoned(Expand(b, n, true, a), x) <==> (Abandoned(b, x) || Due(b, x)) && x != n
  {
    BumpAbandons(b, n, x);
    QueueingSaves(Bump(b, n), n, a, x);
  }

  lemma PlainAbandonsNobody(b: Browser, n: Node, a: Answers, x: Node)
    ensures Abandoned(Expand(b, n, false, a), x) <==> Abandoned(b, x)
  {
    QueueingSaves(b, n, a, x);
  }

  lemma FilterAbandons(b: Browser, n: Node, text: string, a: Answers, x: Node)
    requires Lists(b)
    ensures Abandoned(SetFilter(b, n, text, a), x) <==>
            if FilterOf(b, n) == text then Abandoned(b, x) else (Abandoned(b, x) || Due(b, x)) && x != n
  {
    var changed := b.(filters := b.filters[n := text]);
    ListsAgree(b, changed);
    assert (Abandoned(changed, x) <==> Abandoned(b, x)) && (Due(changed, x) <==> Due(b, x));
    ForcedAbandons(changed, n, a, x);
  }

  /** A step leaves a node abandoned if and only if the node is not the one it asks for, and was
      abandoned before, or was due and the step outdates what is queued. Closing the connection
      abandons what is loading and not queued: the awaited node, and what was abandoned and skipped. */
  lemma StepAbandonsExactlyWhen(b: Browser, m: Move, x: Node)
    requires Lists(b) && Enabled(b, m)
    ensures Abandoned(Next(b, m), x) <==>
            if m.step.CloseStep? then Awaited(b, x) || (Abandoned(b, x) && x !in b.pending)
            else (Abandoned(b, x) || (Due(b, x) && Supersedes(b, m))) && !(AsksAgain(m, x) && Supersedes(b, m))
    ensures m.step.CloseStep? ==> (Abandoned(Next(b, m), x) <==> x in Next(b, m).loading)
  {
    match m.step
    case ExpandStep(n, force) =>
      if force {
        ForcedAbandons(b, n, m.answers, x);
      } else {
        PlainAbandonsNobody(b, n, m.answers, x);
      }
    case BumpStep(n) => BumpAbandons(b, n, x);
    case FilterStep(n, text) => FilterAbandons(b, n, text, m.answers, x);
    case SessionOpened => StartingAbandonsNobody(b.(ready := true), m.answers, x);
    case SessionFailed => StartingAbandonsNobody(b.(openFailed := true), m.answers, x);
    case ReplyStep(ok) => ReplyAbandonsNobody(b, ok, m.answers, x);
    case CloseStep =>
  }

  // ------------------------------------------------------------------ whole runs

  /** Nobody asks for the node again or closes the connection. */
  predicate NobodyAsks(ms: seq<Move>, x: Node) {
    forall i | 0 <= i < |ms| :: !AsksAgain(ms[i], x) && !ms[i].step.CloseStep?
  }

  /** Nobody asks for the node again, and no close finds it queued. */
  predicate LeftAlone(b: Browser, ms: seq<Move>, x: Node)
    requires Legal(b, ms)
    decreases |ms|
  {
    || ms == []
    || (!AsksAgain(ms[0], x) && !(ms[0].step.CloseStep? && x in b.pending) && LeftAlone(Next(b, ms[0]), ms[1..], x))
  }

  /** Another node than the one asked for is due. */
  predicate OtherDue(b: Browser, m: Move) {
    exists x | x in b.pending :: Due(b, x) && !AsksAgain(m, x)
  }

  /** The step refreshes or filters while another node waits for its turn, or closes the connection
      while a node waits for its answer. */
  predicate Rude(b: Browser, m: Move) {
    || (Supersedes(b, m) && OtherDue(b, m))
    || (m.step.CloseStep? && b.active.Some? && Awaited(b, b.active.value))
  }

  predicate Considerate(b: Browser, ms: seq<Move>)
    requires Legal(b, ms)
    decreases |ms|
  {
    ms == [] || (!Rude(b, ms[0]) && Considerate(Next(b, ms[0]), ms[1..]))
  }

  ghost predicate NoneAbandoned(b: Browser) {
    forall x: Node :: !Abandoned(b, x)
  }

  lemma StepAbandonsNobody(b: Browser, m: Move)
    requires Lists(b) && NoneAbandoned(b) && Enabled(b, m)
    ensures NoneAbandoned(Next(b, m)) <==> !Rude(b, m)
  {
    forall x: Node
      ensures Abandoned(Next(b, m), x) <==>
              if m.step.CloseStep? then Awaited(b, x) else Due(b, x) && Supersedes(b, m) && !AsksAgain(m, x)
    {
      StepAbandonsExactlyWhen(b, m, x);
    }
    if Supersedes(b, m) && OtherDue(b, m) {
      var x :| x in b.pending && Due(b, x) && !AsksAgain(m, x);
      assert Abandoned(Next(b, m), x);
    } else if Rude(b, m) {
      assert Abandoned(Next(b, m), b.active.value);
    }
  }

  lemma {:induction false} RunAbandonsNobody(b: Browser, ms: seq<Move>)
    requires Lists(b) && NoneAbandoned(b) && Legal(b, ms) && AllSticky(ms) && Considerate(b, ms)
    ensures Lists(Run(b, ms)) && NoneAbandoned(Run(b, ms))
    decreases |ms|
  {
    if ms != [] {
      StepKeepsLists(b, ms[0]);
      StepAbandonsNobody(b, ms[0]);
      RunAbandonsNobody(Next(b, ms[0]), ms[1..]);
    }
  }

  /** In every considerate run a node that shows "Loading" is queued and current, or its own answer is
      under way. */
  lemma LoadingIsServed(b: Browser, ms: seq<Move>, x: Node)
    requires Init(b) && Legal(b, ms) && AllSticky(ms) && Considerate(b, ms) && x in Run(b, ms).loading
    ensures Due(Run(b, ms), x) || Awaited(Run(b, ms), x)
  {
    RunAbandonsNobody(b, ms);
    assert !Abandoned(Run(b, ms), x);
  }

  /** Only asking for the node again, or closing while it is still queued, can save it. */
  lemma StepLeavesAbandoned(b: Browser, m: Move, x: Node)
    requires Enabled(b, m) && Abandoned(b, x) && !AsksAgain(m, x) && !(m.step.CloseStep? && x in b.pending)
    ensures Abandoned(Next(b, m), x)
  {
    match m.step
    case ExpandStep(n, force) =>
      QueueingSaves(if force then Bump(b, n) else b, n, m.answers, x);
    case BumpStep(n) =>
    case FilterStep(n, text) => QueueingSaves(Bump(b.(filters := b.filters[n := text]), n), n, m.answers, x);
    case SessionOpened => StartingAbandonsNobody(b.(ready := true), m.answers, x);
    case SessionFailed => StartingAbandonsNobody(b.(openFailed := true), m.answers, x);
    case ReplyStep(ok) => ReplyAbandonsNobody(b, ok, m.answers, x);
    case CloseStep =>
  }

  /** An abandoned node shows "Loading" whatever happens, whatever the session answers and even when
      the connection is closed, until it is itself refreshed or filtered, or a close finds it queued. */
  lemma {:induction false} AbandonedStaysLoading(b: Browser, ms: seq<Move>, x: Node)
    requires Legal(b, ms) && LeftAlone(b, ms, x) && Abandoned(b, x)
    ensures Abandoned(Run(b, ms), x) && x in Run(b, ms).loading
    decreases |ms|
  {
    if ms != [] {
      StepLeavesAbandoned(b, ms[0], x);
      AbandonedStaysLoading(Next(b, ms[0]), ms[1..], x);
    }
  }

  // ------------------------------------------------------------------ and no other node does

  /** The run answers the node without anybody asking for it again. */
  predicate Serves(b: Browser, ms: seq<Move>, x: Node) {
    Legal(b, ms) && AllSticky(ms) && NobodyAsks(ms, x) && x !in Run(b, ms).loading
  }

  ghost predicate CanBeAnswered(b: Browser, x: Node) {
    exists ms :: Serves(b, ms, x)
  }

  lemma AnsweredAfter(b: Browser, m: Move, x: Node)
    requires Enabled(b, m) && Sticky(m.answers) && !AsksAgain(m, x) && !m.step.CloseStep?
    requires x !in Next(b, m).loading || CanBeAnswered(Next(b, m), x)
    ensures CanBeAnswered(b, x)
  {
    var n := Next(b, m);
    var rest: seq<Move> := [];
    if x !in n.loading {
      assert Legal(n, rest) && Run(n, rest) == n && Serves(n, rest, x);
    } else {
      rest :| Serves(n, rest, x);
    }
    var ms := Before(b, m, rest);
    assert ms == [m] + rest;
    assert Serves(b, ms, x);
  }

  ghost predicate Sound(b: Browser) {
    Consistent(b) && StampInv(b) && NewestWins(b) && Lists(b)
  }

  lemma StepKeepsSound(b: Browser, m: Move)
    requires Sound(b) && Enabled(b, m) && Sticky(m.answers)
    ensures Sound(Next(b, m))
  {
    StepKeeps(b, m);
    StepKeepsStamp(b, m);
    StepKeepsLists(b, m);
  }

  lemma {:induction false} RunKeepsSound(b: Browser, ms: seq<Move>)
    requires Sound(b) && Legal(b, ms) && AllSticky(ms)
    ensures Sound(Run(b, ms))
    decreases |ms|
  {
    if ms != [] {
      StepKeepsSound(b, ms[0]);
      RunKeepsSound(Next(b, ms[0]), ms[1..]);
    }
  }

  /** Starting brings a due node nearer its turn, or to it. */
  predicate Nearer(b: Browser, x: Node, left: nat) {
    x !in b.loading || Awaited(b, x) || (Due(b, x) && |b.pending| < left)
  }

  lemma {:induction false} StartingServes(b: Browser, x: Node)
    requires b.active.None? && (b.ready || b.openFailed) && Due(b, x)
    ensures Nearer(Started(b, ALL_ACCEPTED), x, |b.pending|)
    decreases |b.pending|
  {
    if !b.openFailed {
      assert b.pending == [b.pending[0]] + b.pending[1..];
      if GenerationOf(b, b.pending[0]) != b.generation {
        StartingServes(b.(pending := b.pending[1..]), x);
      }
    }
  }

  lemma ReplyAnswers(b: Browser, x: Node)
    requires Consistent(b) && Awaited(b, x)
    ensures CanBeAnswered(b, x)
  {
    var m := Move(ReplyStep(true), ALL_ACCEPTED);
    StartingOnlyUnloads(Settle(b.(inFlight := b.inFlight[1..]), b.inFlight[0], true), ALL_ACCEPTED);
    AnsweredAfter(b, m, x);
  }

  /** The answer of another fetch, or the session opening, brings a due node nearer. */
  function Onward(b: Browser): Move {
    Move(if b.active.Some? then ReplyStep(true) else SessionOpened, ALL_ACCEPTED)
  }

  lemma OnwardServes(b: Browser, x: Node)
    requires Consistent(b) && Due(b, x) && !Awaited(b, x)
    ensures Enabled(b, Onward(b))
    ensures var n := Next(b, Onward(b));
            Nearer(n, x, |b.pending|) || (b.active.Some? && n.active.None? && Due(n, x) && |n.pending| == |b.pending|)
  {
    if b.active.Some? {
      var settled := Settle(b.(inFlight := b.inFlight[1..]), b.inFlight[0], true);
      assert Due(settled, x) && settled.active.None? && settled.pending == b.pending;
      if settled.ready || settled.openFailed {
        StartingServes(settled, x);
      }
    } else {
      StartingServes(b.(ready := true), x);
    }
  }

  lemma {:induction false} DueIsAnswered(b: Browser, x: Node)
    requires Sound(b) && (Due(b, x) || Awaited(b, x))
    ensures CanBeAnswered(b, x)
    decreases |b.pending|, if b.active.Some? then 1 else 0
  {
    if Awaited(b, x) {
      ReplyAnswers(b, x);
    } else {
      var m := Onward(b);
      OnwardServes(b, x);
      StepKeepsSound(b, m);
      if x in Next(b, m).loading {
        if Awaited(Next(b, m), x) {
          ReplyAnswers(Next(b, m), x);
        } else {
          DueIsAnswered(Next(b, m), x);
        }
      }
      AnsweredAfter(b, m, x);
    }
  }

  lemma {:induction false} NobodyAsksIsLeftAlone(b: Browser, ms: seq<Move>, x: Node)
    requires Legal(b, ms) && NobodyAsks(ms, x)
    ensures LeftAlone(b, ms, x)
    decreases |ms|
  {
    if ms != [] {
      NobodyAsksIsLeftAlone(Next(b, ms[0]), ms[1..], x);
    }
  }

  /** In every run, a node that shows "Loading" can come to its answer without being asked for again
      if and only if it is not abandoned. */
  lemma LoadingEndsExactlyWhen(b: Browser, ms: seq<Move>, x: Node)
    requires Init(b) && Legal(b, ms) && AllSticky(ms) && x in Run(b, ms).loading
    ensures CanBeAnswered(Run(b, ms), x) <==> !Abandoned(Run(b, ms), x)
  {
    RunKeepsSound(b, ms);
    var n := Run(b, ms);
    if Abandoned(n, x) {
      forall more ensures !Serves(n, more, x) {
        if Legal(n, more) && NobodyAsks(more, x) {
          NobodyAsksIsLeftAlone(n, more, x);
          AbandonedStaysLoading(n, more, x);
        }
      }
    } else {
      DueIsAnswered(n, x);
    }
  }

  // ------------------------------------------------------------------ a concrete run

  /** Two nodes are expanded, and the first is refreshed while its fetch is in flight: the second
      shows "Loading" from then on. */
  lemma RefreshAbandonsANode() returns (b: Browser, ms: seq<Move>)
    ensures Init(b) && Legal(b, ms) && AllSticky(ms) && Abandoned(Run(b, ms), 1)
  {
    b := Browser(0, map[], [], None, 0, map[], {}, {}, false, false, [], []);
    var open := Move(SessionOpened, ALL_ACCEPTED);
    var first, second := Move(ExpandStep(0, false), ALL_ACCEPTED), Move(ExpandStep(1, false), ALL_ACCEPTED);
    var again := Move(ExpandStep(0, true), ALL_ACCEPTED);
    var b1 := Next(b, open);
    assert b1 == b.(ready := true);
    var b2 := Next(b1, first);
    assert [0][1..] == [] && b1.inFlight + [Fetch(0, "")] == [Fetch(0, "")];
    assert b2 == Browser(0, map[0 := 0], [], Some(0), 0, map[], {0}, {}, true, false, [Fetch(0, "")], []);
    var b3 := Next(b2, second);
    assert b3.pending == [1] && b3.active == Some(0) && 1 in b3.loading && GenerationOf(b3, 1) == 0
           && b3.generation == 0;
    var b4 := Next(b3, again);
    assert Abandoned(b4, 1);
    assert Legal(b4, []) && Run(b4, []) == b4;
    ms := Before(b, open, Before(b1, first, Before(b2, second, Before(b3, again, []))));
    assert ms == [open, first, second, again];
  }

  /** One node is expanded and the connection closed before its answer comes: closing, which is meant
      to leave nothing showing "Loading", leaves that node so. */
  lemma CloseAbandonsANode() returns (b: Browser, ms: seq<Move>)
    ensures Init(b) && Legal(b, ms) && AllSticky(ms) && ms != [] && ms[|ms| - 1].step.CloseStep?
    ensures Abandoned(Run(b, ms), 0)
  {
    b := Browser(0, map[], [], None, 0, map[], {}, {}, false, false, [], []);
    var open, first := Move(SessionOpened, ALL_ACCEPTED), Move(ExpandStep(0, false), ALL_ACCEPTED);
    var close := Move(CloseStep, ALL_ACCEPTED);
    var b1 := Next(b, open);
    assert b1 == b.(ready := true);
    var b2 := Next(b1, first);
    assert [0][1..] == [] && b1.inFlight + [Fetch(0, "")] == [Fetch(0, "")];
    assert b2 == Browser(0, map[0 := 0], [], Some(0), 0, map[], {0}, {}, true, false, [Fetch(0, "")], []);
    var b3 := Next(b2, close);
    assert Abandoned(b3, 0);
    assert Legal(b3, []) && Run(b3, []) == b3;
    ms := Before(b, open, Before(b1, first, Before(b2, close, [])));
    assert ms == [open, first, close];
  }

  /** In every run, closing the connection leaves exactly these nodes loading: the one whose answer was
      under way, and those abandoned before and no longer queued. They stay so. */
  lemma CloseLeavesLoadingExactlyWhen(b: Browser, ms: seq<Move>, x: Node)
    requires Init(b) && Legal(b, ms) && AllSticky(ms)
    ensures var n := Run(b, ms); var c := Disconnect(n);
            && (x in c.loading <==> Awaited(n, x) || (Abandoned(n, x) && x !in n.pending))
            && (x in c.loading ==> forall more | Legal(c, more) && LeftAlone(c, more, x) :: x in Run(c, more).loading)
  {
    RunKeepsLists(b, ms);
    var n := Run(b, ms);
    var c := Disconnect(n);
    StepAbandonsExactlyWhen(n, Move(CloseStep, ALL_ACCEPTED), x);
    if x in c.loading {
      forall more | Legal(c, more) && LeftAlone(c, more, x) ensures x in Run(c, more).loading {
        AbandonedStaysLoading(c, more, x);
      }
    }
  }

  // ------------------------------------------------------------------ what a node shows when it is loaded

  /** A node that is loading shows nothing yet. */
  predicate Apart(b: Browser) { b.loading !! b.loaded }

  lemma {:induction false} StartingLoadsNothing(b: Browser, a: Answers)
    requires Apart(b) && forall x: Node | x in b.pending :: x in b.loading || x !in b.loaded
    ensures StartNext(b, a).0.loaded == b.loaded
    decreases |b.pending|
  {
    if b.active.None? && b.pending != [] {
      if b.openFailed {
        assert FailQueued(b).loaded == b.loaded;
      } else if b.ready {
        var n, rest := b.pending[0], b.pending[1..];
        if GenerationOf(b, n) != b.generation {
          StartingLoadsNothing(b.(pending := rest), a);
        } else {
          var fetch := Fetch(n, FilterOf(b, n));
          var first := Apply(b.(pending := rest, activeGeneration := b.generation), n, fetch, false);
          assert first.loaded == b.loaded;
          if Head(a).Unprepared? {
            StartingLoadsNothing(first, Tail(a));
          } else if Head(a).Refused? {
            StartingLoadsNothing(first, Tail(a));
            StartingOnlyUnloads(first, Tail(a));
            var (nested, left) := StartNext(first, Tail(a));
            StartingExtends(first, Tail(a), rest);
            var second := Apply(nested.(active := None), n, fetch, false);
            assert second.loaded == b.loaded;
            StartingLoadsNothing(second, left);
          }
        }
      }
    }
  }

  lemma QueueingLoadsNothing(b: Browser, n: Node, a: Answers)
    requires Lists(b) && Apart(b) && n !in b.loaded
    ensures QueueFetch(b, n, a).loaded == b.loaded && Apart(QueueFetch(b, n, a))
  {
    StartingLoadsNothing(Stamped(b, n), a);
    StartingOnlyUnloads(Stamped(b, n), a);
  }

  /** After each step a node shows its children if and only if it did before and was not refreshed or
      filtered, or the step brought rows for it; an error takes nothing and gives nothing. */
  lemma LoadedExactlyWhen(b: Browser, m: Move, x: Node)
    requires Lists(b) && Apart(b) && Enabled(b, m) && (m.step.ReplyStep? ==> |b.inFlight| == 1)
    ensures x in Next(b, m).loaded <==>
            || (m.step == ReplyStep(true) && Awaited(b, x))
            || (x in b.loaded && !(Supersedes(b, m) && (AsksAgain(m, x) || m.step == BumpStep(x))))
    ensures Apart(Next(b, m))
  {
    match m.step
    case ExpandStep(n, force) =>
      if force {
        BumpKeepsLists(b, n);
        QueueingLoadsNothing(Bump(b, n), n, m.answers);
      } else if n !in b.loading && n !in b.loaded {
        QueueingLoadsNothing(b, n, m.answers);
      }
    case BumpStep(n) =>
    case FilterStep(n, text) =>
      var changed := b.(filters := b.filters[n := text]);
      ListsAgree(b, changed);
      BumpKeepsLists(changed, n);
      QueueingLoadsNothing(Bump(changed, n), n, m.answers);
    case SessionOpened => StartingShows(b, b.(ready := true), m.answers);
    case SessionFailed => StartingShows(b, b.(openFailed := true), m.answers);
    case ReplyStep(ok) => ReplyLoads(b, ok, m.answers, x);
    case CloseStep =>
  }

  lemma {:induction false} RunKeepsApart(b: Browser, ms: seq<Move>)
    requires Sound(b) && Apart(b) && Legal(b, ms) && AllSticky(ms)
    ensures Sound(Run(b, ms)) && Apart(Run(b, ms))
    decreases |ms|
  {
    if ms != [] {
      LoadedExactlyWhen(b, ms[0], 0);
      StepKeepsSound(b, ms[0]);
      RunKeepsApart(Next(b, ms[0]), ms[1..]);
    }
  }

  /** So in every run. */
  lemma RowsAreShownExactlyWhen(b: Browser, ms: seq<Move>, m: Move, x: Node)
    requires Init(b) && Legal(b, ms) && AllSticky(ms) && Enabled(Run(b, ms), m)
    ensures var n := Run(b, ms);
            x in Next(n, m).loaded <==>
            || (m.step == ReplyStep(true) && Awaited(n, x))
            || (x in n.loaded && !(Supersedes(n, m) && (AsksAgain(m, x) || m.step == BumpStep(x))))
  {
    RunKeepsApart(b, ms);
    LoadedExactlyWhen(Run(b, ms), m, x);
  }

  lemma StartingShows(b: Browser, c: Browser, a: Answers)
    requires Lists(b) && Apart(b) && c.pending == b.pending && c.loading == b.loading && c.loaded == b.loaded
    ensures Started(c, a).loaded == b.loaded && Apart(Started(c, a))
  {
    StartingLoadsNothing(c, a);
    StartingOnlyUnloads(c, a);
  }

  lemma ReplyLoads(b: Browser, ok: bool, a: Answers, x: Node)
    requires Lists(b) && Apart(b) && |b.inFlight| == 1
    ensures x in Reply(b, ok, a).loaded <==> x in b.loaded || (ok && Awaited(b, x))
    ensures Apart(Reply(b, ok, a))
  {
    var left := b.(inFlight := b.inFlight[1..]);
    ListsAgree(b, left);
    if b.active.Some? {
      var settled := Settle(left, b.inFlight[0], ok);
      SettleKeepsLists(left, b.inFlight[0], ok);
      StartingShows(settled, settled, a);
    } else if !ok {
      StartingShows(left, left.(openFailed := true), a);
    }
  }

  /** After a close nothing is handed over until a new session opens: what is asked for is queued and
      shows "Loading", and opening starts it. */
  lemma ReopensFresh(b: Browser, n: Node, a: Answers)
    requires Lists(b)
    ensures var c := Expand(Disconnect(b), n, true, a);
            && c.pending == [n] && c.active.None? && c.inFlight == [] && n in c.loading
            && var o := Started(c.(ready := true), ALL_ACCEPTED);
               o.active == Some(n) && o.inFlight == [Fetch(n, FilterOf(b, n))] && Awaited(o, n)
  {
    var c := Expand(Disconnect(b), n, true, a);
    assert c.pending == [n] && [n][1..] == [];
  }
}
