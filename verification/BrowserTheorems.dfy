/** Newest request wins, over every run of refreshes, filter changes, replies and closed connections. */
module BrowserTheorems {
  import opened BrowserSpec
  import opened Wrappers

  datatype Step =
    | ExpandStep(n: Node, force: bool) | BumpStep(n: Node) | FilterStep(n: Node, text: string)
    | SessionOpened | SessionFailed | ReplyStep(ok: bool) | CloseStep

  /** A step and what the statements it hands over are answered. */
  datatype Move = Move(step: Step, answers: Answers)

  predicate Enabled(b: Browser, m: Move) {
    && (m.step.ReplyStep? ==> b.inFlight != [])
    && (m.step.SessionFailed? ==> b.active.None?)
  }

  function Next(b: Browser, m: Move): Browser
    requires Enabled(b, m)
  {
    match m.step
    case ExpandStep(n, force) => Expand(b, n, force, m.answers)
    case BumpStep(n) => Bump(b, n)
    case FilterStep(n, text) => SetFilter(b, n, text, m.answers)
    case SessionOpened => Started(b.(ready := true), m.answers)
    case SessionFailed => GivenUp(b, m.answers)
    case ReplyStep(ok) => Reply(b, ok, m.answers)
    case CloseStep => Disconnect(b)
  }

  /** What is on a node came from a fetch for that node, submitted with the filter it had then. */
  predicate NewestWins(b: Browser) {
    forall i | 0 <= i < |b.log| :: b.log[i].from == Fetch(b.log[i].node, b.log[i].filter)
  }

  /** The active fetch is the one in flight, and while its stamp is current so is its filter. */
  predicate Consistent(b: Browser) {
    && (forall n: Node | n in b.nodeGeneration :: b.nodeGeneration[n] <= b.generation)
    && (b.active.None? ==> b.inFlight == [])
    && (b.active.Some? ==>
          && |b.inFlight| == 1 && b.inFlight[0].node == b.active.value && b.activeGeneration <= b.generation
          && (GenerationOf(b, b.active.value) == b.activeGeneration ==>
                b.inFlight[0].filter == FilterOf(b, b.active.value)))
  }

  /** A refusal lasts until the call that met it returns: what makes the hub refuse a statement, a
      session that is not open or has no slot left, changes only by draining on the same thread. */
  predicate Sticky(a: Answers) {
    && (forall i, j | 0 <= i < j < |a.list| && a.list[i].Refused? :: a.list[j].Refused?)
    && (forall i | 0 <= i < |a.list| && a.list[i].Refused? :: a.after.Refused?)
  }

  predicate AllRefused(a: Answers) {
    (forall i | 0 <= i < |a.list| :: a.list[i].Refused?) && a.after.Refused?
  }

  lemma StickyTail(a: Answers)
    requires Sticky(a)
    ensures Sticky(Tail(a)) && (Head(a).Refused? ==> AllRefused(Tail(a)))
  {
  }

  /** With everything refused nothing is started. */
  lemma {:induction false} RefusedStaysIdle(b: Browser, a: Answers)
    requires AllRefused(a) && b.active.None?
    ensures var r := StartNext(b, a); r.0.active.None? && r.0.inFlight == b.inFlight && AllRefused(r.1)
    decreases |b.pending|
  {
    if b.pending != [] && !b.openFailed && b.ready {
      var n, rest := b.pending[0], b.pending[1..];
      if GenerationOf(b, n) != b.generation {
        RefusedStaysIdle(b.(pending := rest), a);
      } else {
        var fetch := Fetch(n, FilterOf(b, n));
        var first := Settle(b.(pending := rest, active := Some(n), activeGeneration := b.generation), fetch, false);
        RefusedStaysIdle(first, Tail(a));
        var (nested, left) := StartNext(first, Tail(a));
        RefusedStaysIdle(Apply(nested.(active := None), n, fetch, false), left);
      }
    }
  }

  lemma {:induction false} StartingKeeps(b: Browser, a: Answers)
    requires Consistent(b) && NewestWins(b) && Sticky(a)
    ensures Consistent(Started(b, a)) && NewestWins(Started(b, a))
    decreases |b.pending|
  {
    if b.active.None? && b.pending != [] && !b.openFailed && b.ready {
      var n, rest := b.pending[0], b.pending[1..];
      var fetch := Fetch(n, FilterOf(b, n));
      StickyTail(a);
      if GenerationOf(b, n) != b.generation {
        StartingKeeps(b.(pending := rest), a);
      } else if Head(a).Unprepared? {
        var idle := b.(pending := rest, activeGeneration := b.generation);
        ApplyOwnKeeps(idle, n);
        StartingKeeps(Apply(idle, n, fetch, false), Tail(a));
      } else if Head(a).Refused? {
        var idle := b.(pending := rest, activeGeneration := b.generation);
        ApplyOwnKeeps(idle, n);
        var first := Apply(idle, n, fetch, false);
        assert Settle(idle.(active := Some(n)), fetch, false) == first;
        StartingKeeps(first, Tail(a));
        RefusedStaysIdle(first, Tail(a));
        FiltersStay(first, Tail(a));
        var (nested, left) := StartNext(first, Tail(a));
        assert nested.(active := None) == nested;
        ApplyOwnKeeps(nested, n);
        StartingKeeps(Apply(nested, n, fetch, false), left);
      }
    }
  }

  lemma ApplyOwnKeeps(b: Browser, n: Node)
    requires Consistent(b) && NewestWins(b) && b.active.None?
    ensures var a := Apply(b, n, Fetch(n, FilterOf(b, n)), false); Consistent(a) && NewestWins(a)
  {
  }

  lemma ReplyKeeps(b: Browser, ok: bool, answers: Answers)
    requires Consistent(b) && NewestWins(b) && b.inFlight != [] && Sticky(answers)
    ensures Consistent(Reply(b, ok, answers)) && NewestWins(Reply(b, ok, answers))
  {
    if b.active.Some? {
      var settled := Settle(b.(inFlight := b.inFlight[1..]), b.inFlight[0], ok);
      assert Consistent(settled) && NewestWins(settled);
      StartingKeeps(settled, answers);
    }
  }

  /** Queueing a node under a fresh generation makes the fetch in flight for it stale. */
  lemma QueueingKeeps(b: Browser, n: Node, answers: Answers)
    requires NewestWins(b) && Sticky(answers)
    requires (forall x: Node | x in b.nodeGeneration :: b.nodeGeneration[x] <= b.generation)
    requires (b.active.None? ==> b.inFlight == [])
    requires b.active.Some? ==>
               && |b.inFlight| == 1 && b.inFlight[0].node == b.active.value && b.activeGeneration <= b.generation
               && (b.active == Some(n) && b.activeGeneration == b.generation ==> b.inFlight[0].filter == FilterOf(b, n))
               && (b.active != Some(n) && GenerationOf(b, b.active.value) == b.activeGeneration ==>
                     b.inFlight[0].filter == FilterOf(b, b.active.value))
    ensures Consistent(QueueFetch(b, n, answers)) && NewestWins(QueueFetch(b, n, answers))
  {
    var queued := b.(loading := b.loading + {n}, nodeGeneration := b.nodeGeneration[n := b.generation],
                     pending := if n in b.pending then b.pending else b.pending + [n]);
    assert Consistent(queued) && NewestWins(queued);
    StartingKeeps(queued, answers);
  }

  lemma ForcedExpandKeeps(b: Browser, n: Node, answers: Answers)
    requires Consistent(b) && NewestWins(b) && Sticky(answers)
    ensures Consistent(Expand(b, n, true, answers)) && NewestWins(Expand(b, n, true, answers))
  {
    QueueingKeeps(Bump(b, n), n, answers);
  }

  lemma FilterKeeps(b: Browser, n: Node, text: string, answers: Answers)
    requires Consistent(b) && NewestWins(b) && Sticky(answers)
    ensures Consistent(SetFilter(b, n, text, answers)) && NewestWins(SetFilter(b, n, text, answers))
  {
    if FilterOf(b, n) != text {
      QueueingKeeps(Bump(b.(filters := b.filters[n := text]), n), n, answers);
    }
  }

  /** A plain expand can meet a stale fetch of its node still in flight; the stamp it takes may not
      be the one that fetch was submitted under. */
  predicate StampInv(b: Browser) {
    b.active.Some? && b.activeGeneration == b.generation ==>
        b.inFlight != [] && b.inFlight[0].filter == FilterOf(b, b.active.value)
  }

  lemma {:induction false} StartingKeepsStamp(b: Browser, a: Answers)
    requires Consistent(b) && StampInv(b) && Sticky(a)
    ensures StampInv(Started(b, a))
    decreases |b.pending|
  {
    if b.active.None? && b.pending != [] && !b.openFailed && b.ready {
      var n, rest := b.pending[0], b.pending[1..];
      StickyTail(a);
      if GenerationOf(b, n) != b.generation {
        StartingKeepsStamp(b.(pending := rest), a);
      } else {
        var started := b.(pending := rest, active := Some(n), activeGeneration := b.generation);
        var fetch := Fetch(n, FilterOf(b, n));
        if Head(a).Unprepared? {
          StartingKeepsStamp(Apply(started.(active := None), n, fetch, false), Tail(a));
        } else if Head(a).Refused? {
          var first := Settle(started, fetch, false);
          RefusedStaysIdle(first, Tail(a));
          var (nested, left) := StartNext(first, Tail(a));
          RefusedStaysIdle(Apply(nested.(active := None), n, fetch, false), left);
        }
      }
    }
  }

  lemma ExpandKeepsStamp(b: Browser, n: Node, force: bool, answers: Answers)
    requires Consistent(b) && StampInv(b) && Sticky(answers)
    ensures StampInv(Expand(b, n, force, answers))
  {
    QueueKeepsStamp(if force then Bump(b, n) else b, n, answers);
  }

  lemma FilterKeepsStamp(b: Browser, n: Node, text: string, answers: Answers)
    requires Consistent(b) && StampInv(b) && Sticky(answers)
    ensures StampInv(SetFilter(b, n, text, answers))
  {
    QueueKeepsStamp(Bump(b.(filters := b.filters[n := text]), n), n, answers);
  }

  lemma ReplyKeepsStamp(b: Browser, ok: bool, answers: Answers)
    requires Consistent(b) && b.inFlight != [] && Sticky(answers)
    ensures StampInv(Reply(b, ok, answers))
  {
    if b.active.Some? {
      StartingKeepsStamp(Settle(b.(inFlight := b.inFlight[1..]), b.inFlight[0], ok), answers);
    }
  }

  lemma StepKeepsStamp(b: Browser, m: Move)
    requires Consistent(b) && StampInv(b) && Enabled(b, m) && Sticky(m.answers)
    ensures StampInv(Next(b, m))
  {
    match m.step
    case ExpandStep(n, force) => ExpandKeepsStamp(b, n, force, m.answers);
    case BumpStep(n) =>
    case FilterStep(n, text) => FilterKeepsStamp(b, n, text, m.answers);
    case SessionOpened => StartingKeepsStamp(b.(ready := true), m.answers);
    case SessionFailed => StartingKeepsStamp(b.(openFailed := true), m.answers);
    case ReplyStep(ok) => ReplyKeepsStamp(b, ok, m.answers);
    case CloseStep =>
  }

  lemma QueueKeepsStamp(b: Browser, n: Node, answers: Answers)
    requires Sticky(answers) && StampInv(b)
    requires (forall x: Node | x in b.nodeGeneration :: b.nodeGeneration[x] <= b.generation)
    requires (b.active.None? ==> b.inFlight == [])
    requires b.active.Some? ==>
               && |b.inFlight| == 1 && b.inFlight[0].node == b.active.value && b.activeGeneration <= b.generation
               && (b.active != Some(n) && GenerationOf(b, b.active.value) == b.activeGeneration ==>
                     b.inFlight[0].filter == FilterOf(b, b.active.value))
    ensures StampInv(QueueFetch(b, n, answers))
  {
    var queued := b.(loading := b.loading + {n}, nodeGeneration := b.nodeGeneration[n := b.generation],
                     pending := if n in b.pending then b.pending else b.pending + [n]);
    assert Consistent(queued);
    StartingKeepsStamp(queued, answers);
  }

  lemma StepKeeps(b: Browser, m: Move)
    requires Consistent(b) && StampInv(b) && NewestWins(b) && Enabled(b, m) && Sticky(m.answers)
    ensures Consistent(Next(b, m)) && NewestWins(Next(b, m))
  {
    match m.step
    case ExpandStep(n, force) =>
      if force {
        ForcedExpandKeeps(b, n, m.answers);
      } else {
        QueueingKeeps(b, n, m.answers);
      }
    case BumpStep(n) =>
    case FilterStep(n, text) => FilterKeeps(b, n, text, m.answers);
    case SessionFailed => StartingKeeps(b.(openFailed := true), m.answers);
    case SessionOpened => StartingKeeps(b.(ready := true), m.answers);
    case ReplyStep(ok) => ReplyKeeps(b, ok, m.answers);
    case CloseStep =>
  }

  // ------------------------------------------------------------------ whole runs

  predicate Init(b: Browser) { b == Browser(0, map[], [], None, 0, map[], {}, {}, false, false, [], []) }

  predicate Legal(b: Browser, ms: seq<Move>)
    decreases |ms|
  {
    ms == [] || (Enabled(b, ms[0]) && Legal(Next(b, ms[0]), ms[1..]))
  }

  function Run(b: Browser, ms: seq<Move>): Browser
    requires Legal(b, ms)
    decreases |ms|
  {
    if ms == [] then b else Run(Next(b, ms[0]), ms[1..])
  }

  predicate AllSticky(ms: seq<Move>) {
    forall i | 0 <= i < |ms| :: Sticky(ms[i].answers)
  }

  lemma {:induction false} RunKeeps(b: Browser, ms: seq<Move>)
    requires Consistent(b) && StampInv(b) && NewestWins(b) && Legal(b, ms) && AllSticky(ms)
    ensures Consistent(Run(b, ms)) && NewestWins(Run(b, ms))
    decreases |ms|
  {
    if ms != [] {
      StepKeeps(b, ms[0]);
      StepKeepsStamp(b, ms[0]);
      RunKeeps(Next(b, ms[0]), ms[1..]);
    }
  }

  /** However refreshes and filter changes interleave with replies, whatever a reply puts on a node
      comes from a fetch for that node, submitted with the filter text the node has at that moment.
      Statements may be refused at any point, each refusal lasting until its call returns. */
  lemma NewestRequestWins(b: Browser, ms: seq<Move>)
    requires Init(b) && Legal(b, ms) && AllSticky(ms)
    ensures NewestWins(Run(b, ms)) && |Run(b, ms).inFlight| <= 1
  {
    RunKeeps(b, ms);
  }

  // ------------------------------------------------------------------ a refused statement

  /** A hub that refuses one statement and accepts the next inside the same call: nothing in the hub
      behaves so today, and nothing in the interface of the session controller rules it out. */
  const ONE_REFUSED := Answers([Refused], Accepted)

  /** Another queued node is still current. */
  predicate AnotherCurrent(b: Browser, from: nat)
  {
    exists i :: from <= i < |b.pending| && GenerationOf(b, b.pending[i]) == b.generation
  }

  /** Starting hands over the fetch of queued node `i`, which is current. */
  predicate Picks(b: Browser, i: nat) {
    i < |b.pending| && GenerationOf(b, b.pending[i]) == b.generation && Started(b, ALL_ACCEPTED) == Active(b, i)
  }

  /** With nothing refused, starting picks the first current node, or empties the queue. */
  lemma {:induction false} AcceptingStarts(b: Browser)
    requires b.active.None? && b.ready && !b.openFailed
    ensures StartNext(b, ALL_ACCEPTED).1 == ALL_ACCEPTED
    ensures !AnotherCurrent(b, 0) ==> Started(b, ALL_ACCEPTED) == b.(pending := [])
    ensures AnotherCurrent(b, 0) ==>
              exists i: nat :: Picks(b, i)
    decreases |b.pending|
  {
    if b.pending != [] {
      var rest := b.(pending := b.pending[1..]);
      if GenerationOf(b, b.pending[0]) == b.generation {
        assert Picks(b, 0);
      } else {
        AcceptingStarts(rest);
        if AnotherCurrent(b, 0) {
          var i :| 0 <= i < |b.pending| && GenerationOf(b, b.pending[i]) == b.generation;
          assert rest.pending[i - 1] == b.pending[i];
          var j: nat :| Picks(rest, j);
          assert b.pending[j + 2..] == rest.pending[j + 1..] && Active(rest, j) == Active(b, j + 1);
          assert Picks(b, j + 1);
        }
        if AnotherCurrent(rest, 0) {
          var i :| 0 <= i < |rest.pending| && GenerationOf(rest, rest.pending[i]) == rest.generation;
          assert b.pending[i + 1] == rest.pending[i];
        }
      }
    }
  }

  /** The fetch of queued node `i` has been handed over. */
  function Active(b: Browser, i: nat): Browser
    requires i < |b.pending|
  {
    b.(pending := b.pending[i + 1..], active := Some(b.pending[i]), activeGeneration := b.generation,
       inFlight := b.inFlight + [Fetch(b.pending[i], FilterOf(b, b.pending[i]))])
  }

  predicate Distinct(q: seq<Node>) {
    forall i, j | 0 <= i < j < |q| :: q[i] != q[j]
  }

  lemma {:induction false} StartingKeepsDistinct(b: Browser, answers: Answers)
    requires Distinct(b.pending)
    ensures Distinct(Started(b, answers).pending)
    decreases |b.pending|
  {
    if b.active.None? && b.pending != [] && !b.openFailed && b.ready {
      var n, rest := b.pending[0], b.pending[1..];
      if GenerationOf(b, n) != b.generation {
        StartingKeepsDistinct(b.(pending := rest), answers);
      } else {
        var started := b.(pending := rest, active := Some(n), activeGeneration := b.generation);
        var fetch := Fetch(n, FilterOf(b, n));
        if Head(answers).Unprepared? {
          StartingKeepsDistinct(Apply(started.(active := None), n, fetch, false), Tail(answers));
        } else if Head(answers).Refused? {
          var first := Settle(started, fetch, false);
          StartingKeepsDistinct(first, Tail(answers));
          var (nested, left) := StartNext(first, Tail(answers));
          StartingKeepsDistinct(Apply(nested.(active := None), n, fetch, false), left);
        }
      }
    }
  }

  lemma QueueingKeepsDistinct(b: Browser, n: Node, answers: Answers)
    requires Distinct(b.pending)
    ensures Distinct(QueueFetch(b, n, answers).pending)
  {
    StartingKeepsDistinct(b.(loading := b.loading + {n}, nodeGeneration := b.nodeGeneration[n := b.generation],
                             pending := if n in b.pending then b.pending else b.pending + [n]), answers);
  }

  lemma StepKeepsDistinct(b: Browser, m: Move)
    requires Distinct(b.pending) && Enabled(b, m)
    ensures Distinct(Next(b, m).pending)
  {
    match m.step
    case ExpandStep(n, force) =>
      QueueingKeepsDistinct(b, n, m.answers);
      QueueingKeepsDistinct(Bump(b, n), n, m.answers);
    case BumpStep(n) =>
    case FilterStep(n, text) =>
      QueueingKeepsDistinct(Bump(b.(filters := b.filters[n := text]), n), n, m.answers);
    case SessionOpened => StartingKeepsDistinct(b.(ready := true), m.answers);
    case SessionFailed => StartingKeepsDistinct(b.(openFailed := true), m.answers);
    case ReplyStep(ok) =>
      var left := b.(inFlight := b.inFlight[1..]);
      StartingKeepsDistinct(Settle(left, b.inFlight[0], ok), m.answers);
      StartingKeepsDistinct(left.(openFailed := true), m.answers);
    case CloseStep =>
  }

  /** In every run, refusals included, a node is queued at most once. */
  lemma {:induction false} EachNodeIsQueuedOnce(b: Browser, ms: seq<Move>)
    requires Distinct(b.pending) && Legal(b, ms)
    ensures Distinct(Run(b, ms).pending)
    decreases |ms|
  {
    if ms != [] {
      StepKeepsDistinct(b, ms[0]);
      EachNodeIsQueuedOnce(Next(b, ms[0]), ms[1..]);
    }
  }

  /** An idle browser whose oldest queued node is current, about to have its statement refused. */
  predicate AboutToStart(b: Browser) {
    && Consistent(b) && b.active.None? && b.ready && !b.openFailed && Distinct(b.pending)
    && b.pending != [] && GenerationOf(b, b.pending[0]) == b.generation
  }

  /** What the refused call leaves for the nested start, and what its caller makes of the result. */
  function Refusing(b: Browser): Browser
    requires b.pending != []
  {
    var n := b.pending[0];
    var started := b.(pending := b.pending[1..], active := Some(n), activeGeneration := b.generation);
    Settle(started, Fetch(n, FilterOf(b, n)), false)
  }

  function Forgetting(b: Browser, nested: Browser): Browser
    requires b.pending != []
  {
    Apply(nested.(active := None), b.pending[0], Fetch(b.pending[0], FilterOf(b, b.pending[0])), false)
  }

  lemma RefusalUnfolds(b: Browser)
    requires AboutToStart(b)
    ensures Started(b, ONE_REFUSED) == Started(Forgetting(b, Started(Refusing(b), ALL_ACCEPTED)), ALL_ACCEPTED)
    ensures Refusing(b).active.None? && Refusing(b).ready && Refusing(b).inFlight == []
            && Refusing(b).pending == b.pending[1..]
  {
    assert Tail(ONE_REFUSED) == ALL_ACCEPTED;
    AcceptingStarts(Refusing(b));
  }

  lemma OthersStayCurrent(b: Browser)
    requires AboutToStart(b)
    ensures AnotherCurrent(Refusing(b), 0) <==> AnotherCurrent(b, 1)
  {
    var r := Refusing(b);
    if AnotherCurrent(b, 1) {
      var i :| 1 <= i < |b.pending| && GenerationOf(b, b.pending[i]) == b.generation;
      assert r.pending[i - 1] == b.pending[i];
    }
    if AnotherCurrent(r, 0) {
      var i :| 0 <= i < |r.pending| && GenerationOf(r, r.pending[i]) == r.generation;
      assert b.pending[i + 1] == r.pending[i];
    }
  }

  /** With no other node current, the refusal is over when it is reported. */
  lemma LoneRefusalKeeps(b: Browser)
    requires AboutToStart(b) && NewestWins(b) && !AnotherCurrent(b, 1)
    ensures var n := Started(b, ONE_REFUSED); Consistent(n) && StampInv(n) && NewestWins(n)
  {
    RefusalUnfolds(b);
    OthersStayCurrent(b);
    AcceptingStarts(Refusing(b));
    var nested := Started(Refusing(b), ALL_ACCEPTED);
    assert Started(Forgetting(b, nested), ALL_ACCEPTED) == Forgetting(b, nested);
  }

  /** Two statements in flight and the second one's node active: a failure of the first lands on it. */
  lemma FailureLandsElsewhere(b: Browser)
    requires |b.inFlight| == 2 && b.active.Some? && b.inFlight[0].node != b.active.value
    requires GenerationOf(b, b.active.value) == b.activeGeneration
    ensures Enabled(b, Move(ReplyStep(false), ALL_ACCEPTED))
            && !NewestWins(Next(b, Move(ReplyStep(false), ALL_ACCEPTED)))
  {
    var settled := Settle(b.(inFlight := b.inFlight[1..]), b.inFlight[0], false);
    assert settled.log[|b.log|].from == b.inFlight[0] && settled.log[|b.log|].node == b.active.value;
    StartingExtends(settled, ALL_ACCEPTED, settled.pending);
  }

  /** A forgotten fetch in flight and nothing active: refreshing some other node makes it the victim. */
  lemma ForgottenFetchMisleads(b: Browser) returns (ms: seq<Move>)
    requires b.active.None? && b.ready && !b.openFailed && b.pending == [] && |b.inFlight| == 1
    ensures Legal(b, ms) && AllSticky(ms) && !NewestWins(Run(b, ms))
  {
    var victim := b.inFlight[0].node + 1;
    var refresh, fail := Move(ExpandStep(victim, true), ALL_ACCEPTED), Move(ReplyStep(false), ALL_ACCEPTED);
    var queued := b.(loaded := b.loaded - {victim}, generation := b.generation + 1, loading := b.loading + {victim},
                     nodeGeneration := b.nodeGeneration[victim := b.generation + 1], pending := [victim]);
    assert Next(b, refresh) == Started(queued, ALL_ACCEPTED);
    assert [victim][1..] == [];
    var n := Next(b, refresh);
    assert n.inFlight == b.inFlight + [Fetch(victim, FilterOf(queued, victim))];
    FailureLandsElsewhere(n);
    ms := Before(b, refresh, Before(n, fail, []));
    assert ms == [refresh, fail];
  }

  /** With another node current, its fetch is started inside the refused call and then forgotten, and
      some continuation without any further refusal puts an error on the wrong node. */
  lemma RefusalMisleads(b: Browser) returns (ms: seq<Move>)
    requires AboutToStart(b) && AnotherCurrent(b, 1)
    ensures Legal(Started(b, ONE_REFUSED), ms) && AllSticky(ms) && !NewestWins(Run(Started(b, ONE_REFUSED), ms))
  {
    RefusalUnfolds(b);
    OthersStayCurrent(b);
    var r := Refusing(b);
    AcceptingStarts(r);
    var i: nat :| Picks(r, i);
    var outer := Forgetting(b, Active(r, i));
    assert outer.pending == b.pending[i + 2..]
           && outer.inFlight == [Fetch(b.pending[i + 1], FilterOf(r, r.pending[i]))];
    AcceptingStarts(outer);
    if AnotherCurrent(outer, 0) {
      var j: nat :| Picks(outer, j);
      assert outer.pending[j] == b.pending[i + 2 + j];
      ms := SecondStartMisleads(outer, j);
    } else {
      ms := ForgottenFetchMisleads(outer.(pending := []));
    }
  }

  /** A forgotten fetch in flight and another one started: its failure lands on the second node. */
  lemma SecondStartMisleads(b: Browser, j: nat) returns (ms: seq<Move>)
    requires Picks(b, j) && |b.inFlight| == 1 && b.inFlight[0].node != b.pending[j]
    ensures Legal(Started(b, ALL_ACCEPTED), ms) && AllSticky(ms) && !NewestWins(Run(Started(b, ALL_ACCEPTED), ms))
  {
    var n, fail := Active(b, j), Move(ReplyStep(false), ALL_ACCEPTED);
    FailureLandsElsewhere(n);
    ms := Before(n, fail, []);
    assert ms == [fail];
  }

  /** A refused statement is harmless, whatever follows without another refusal, if and only if no
      other queued node was current when it was handed over. */
  lemma RefusalIsHarmlessExactlyWhen(b: Browser)
    requires AboutToStart(b) && NewestWins(b)
    ensures var n := Started(b, ONE_REFUSED);
            (forall ms | Legal(n, ms) && AllSticky(ms) :: NewestWins(Run(n, ms))) <==> !AnotherCurrent(b, 1)
  {
    var n := Started(b, ONE_REFUSED);
    if AnotherCurrent(b, 1) {
      var ms := RefusalMisleads(b);
      assert Legal(n, ms) && AllSticky(ms);
    } else {
      LoneRefusalKeeps(b);
      forall ms | Legal(n, ms) && AllSticky(ms) ensures NewestWins(Run(n, ms)) {
        RunKeeps(n, ms);
      }
    }
  }

  const THREE_QUEUED :=
    Browser(0, map[0 := 0, 1 := 0, 2 := 0], [0, 1, 2], None, 0, map[], {0, 1, 2}, {}, false, false, [], [])

  lemma QueueThree() returns (b: Browser, ms: seq<Move>)
    ensures Init(b) && ms == [Move(ExpandStep(0, false), ALL_ACCEPTED), Move(ExpandStep(1, false), ALL_ACCEPTED),
                              Move(ExpandStep(2, false), ALL_ACCEPTED)]
    ensures Enabled(b, ms[0]) && Enabled(Next(b, ms[0]), ms[1]) && Enabled(Next(Next(b, ms[0]), ms[1]), ms[2])
    ensures Next(Next(Next(b, ms[0]), ms[1]), ms[2]) == THREE_QUEUED
  {
    b := Browser(0, map[], [], None, 0, map[], {}, {}, false, false, [], []);
    ms := [Move(ExpandStep(0, false), ALL_ACCEPTED), Move(ExpandStep(1, false), ALL_ACCEPTED),
           Move(ExpandStep(2, false), ALL_ACCEPTED)];
    assert Next(b, ms[0]) == Browser(0, map[0 := 0], [0], None, 0, map[], {0}, {}, false, false, [], []);
    assert Next(Next(b, ms[0]), ms[1])
        == Browser(0, map[0 := 0, 1 := 0], [0, 1], None, 0, map[], {0, 1}, {}, false, false, [], []);
  }

  /** Three nodes queued while the session opens, one statement refused and the next accepted inside
      the same call: the second node's error is shown on the third. */
  lemma RefusalCanMisplaceAnError() returns (b: Browser, ms: seq<Move>)
    ensures Init(b) && Legal(b, ms) && !NewestWins(Run(b, ms))
  {
    var queue;
    b, queue := QueueThree();
    var open, fail := Move(SessionOpened, ONE_REFUSED), Move(ReplyStep(false), ALL_ACCEPTED);
    ThreeQueued(THREE_QUEUED);
    var n := Next(THREE_QUEUED, open);
    FailureLandsElsewhere(n);
    ms := Before(THREE_QUEUED, open, Before(n, fail, []));
    ms := Before(Next(Next(b, queue[0]), queue[1]), queue[2], ms);
    ms := Before(Next(b, queue[0]), queue[1], ms);
    ms := Before(b, queue[0], ms);
  }

  function Before(b: Browser, m: Move, rest: seq<Move>): (ms: seq<Move>)
    requires Enabled(b, m) && Legal(Next(b, m), rest)
    ensures Legal(b, ms) && Run(b, ms) == Run(Next(b, m), rest)
  {
    var ms := [m] + rest;
    assert ms[1..] == rest;
    ms
  }

  lemma ThreeQueued(b3: Browser)
    requires b3 == THREE_QUEUED
    ensures var n := Started(b3.(ready := true), ONE_REFUSED);
            && n.active == Some(2) && n.activeGeneration == 0 && GenerationOf(n, 2) == 0 && n.pending == []
            && n.inFlight == [Fetch(1, ""), Fetch(2, "")] && n.filters == map[]
  {
    var b := b3.(ready := true);
    assert b.pending[1..] == [1, 2] && [1, 2][1..] == [2] && [2][1..] == [] && Tail(ONE_REFUSED) == ALL_ACCEPTED;
    var started := b.(pending := [1, 2], active := Some(0), activeGeneration := 0);
    var settled := Settle(started, Fetch(0, ""), false);
    assert settled.pending == [1, 2] && settled.pending[1..] == [2] && settled.active.None? && settled.ready;
    assert GenerationOf(settled, 1) == 0 && FilterOf(settled, 1) == ""
           && settled.inFlight + [Fetch(1, "")] == [Fetch(1, "")];
    var nested := StartNext(settled, ALL_ACCEPTED);
    assert nested.0 == settled.(pending := [2], active := Some(1), activeGeneration := 0, inFlight := [Fetch(1, "")]);
    assert nested.1 == ALL_ACCEPTED;
    var outer := Apply(nested.0.(active := None), 0, Fetch(0, ""), false);
    assert Started(outer, ALL_ACCEPTED) == outer.(pending := [], active := Some(2), activeGeneration := 0,
                                        inFlight := [Fetch(1, ""), Fetch(2, "")]);
  }
}
