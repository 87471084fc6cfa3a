/** The tree under the fetch queue. Refreshing a node destroys what is below it, and neither the queue
    nor the active fetch is told; this module says when they are left with a destroyed node, and that
    such a node is then written to. */
module BrowserTree {
  import opened BrowserSpec
  import opened BrowserTheorems
  import opened BrowserLoading
  import opened Wrappers

  /** Nodes are numbered as they are created; `parent` holds the ones in the tree, 0 is its root. */
  datatype Tree = Tree(b: Browser, parent: map<Node, Node>, next: Node)

  datatype Act =
    | Do(m: Move)
    | Grow(under: Node)          // rows arrived, or a schema shows its groups

  predicate WellFormed(t: Tree) {
    t.next > 0 && forall x | x in t.parent :: t.parent[x] < x < t.next
  }

  /** `x` is somewhere below `n`. */
  predicate Below(parent: map<Node, Node>, x: Node, n: Node) {
    x in parent && (parent[x] == n || (parent[x] < x && Below(parent, parent[x], n)))
  }

  /** The node a call names. */
  function Named(m: Move): Option<Node> {
    match m.step
    case ExpandStep(n, _) => Some(n)
    case BumpStep(n) => Some(n)
    case FilterStep(n, _) => Some(n)
    case _ => None
  }

  /** Calls name nodes of the tree; a refusal lasts until its call returns. */
  predicate Possible(t: Tree, act: Act) {
    match act
    case Do(m) => Enabled(t.b, m) && Sticky(m.answers) && (Named(m).Some? ==> Named(m).value in t.parent)
    case Grow(under) => under == 0 || under in t.parent
  }

  /** The tree without what is below `n`. */
  function Cut(parent: map<Node, Node>, n: Node): map<Node, Node> {
    map x | x in parent && !Below(parent, x, n) :: parent[x]
  }

  function After(t: Tree, act: Act): Tree
    requires Possible(t, act)
  {
    match act
    case Do(m) =>
      t.(b := Next(t.b, m), parent := if Supersedes(t.b, m) then Cut(t.parent, Named(m).value) else t.parent)
    case Grow(under) => t.(parent := t.parent[t.next := under], next := t.next + 1)
  }

  predicate Start(t: Tree) { Init(t.b) && t.parent == map[] && t.next == 1 }

  /** The browser holds on to the node: it is queued, or an answer under way is for it. */
  predicate Holds(b: Browser, x: Node) { x in b.pending || Awaited(b, x) }

  /** Everything held is in the tree. */
  ghost predicate Safe(t: Tree) {
    forall x: Node | Holds(t.b, x) :: x in t.parent
  }

  /** A refresh or filter change above something held. */
  predicate Cuts(t: Tree, act: Act) {
    && act.Do? && Supersedes(t.b, act.m)
    && exists x | x in t.parent :: Below(t.parent, x, Named(act.m).value) && Holds(t.b, x)
  }

  /** The step writes to the node: what it shows, or whether it is loading, changes. */
  predicate Writes(before: Browser, after: Browser, x: Node) {
    || (x in before.loading) != (x in after.loading)
    || (x in before.loaded) != (x in after.loaded)
    || (exists i | 0 <= i < |after.log| :: i >= |before.log| && after.log[i].node == x)
  }

  // ------------------------------------------------------------------ what a step holds and writes

  /** With something queued and nothing active, the session is still opening. */
  predicate Waiting(b: Browser) {
    b.active.None? && b.pending != [] ==> !b.ready && !b.openFailed
  }

  lemma {:induction false} StartingHoldsLess(b: Browser, a: Answers, x: Node)
    ensures var r := StartNext(b, a).0;
            && Waiting(r)
            && (Holds(r, x) ==> Holds(b, x))
            && (x !in b.pending ==> (x in r.loading <==> x in b.loading) && (x in r.loaded <==> x in b.loaded))
            && (x in r.pending ==> x in b.pending)
    decreases |b.pending|
  {
    if b.active.None? && b.pending != [] && !b.openFailed && b.ready {
      var n, rest := b.pending[0], b.pending[1..];
      if GenerationOf(b, n) != b.generation {
        StartingHoldsLess(b.(pending := rest), a, x);
      } else {
        var first := Apply(b.(pending := rest, activeGeneration := b.generation), n, Fetch(n, FilterOf(b, n)), false);
        if Head(a).Unprepared? {
          StartingHoldsLess(first, Tail(a), x);
        } else if Head(a).Refused? {
          StartingHoldsLess(first, Tail(a), x);
          var (nested, left) := StartNext(first, Tail(a));
          StartingHoldsLess(Apply(nested.(active := None), n, Fetch(n, FilterOf(b, n)), false), left, x);
        }
      }
    }
  }

  /** Starting writes only to queued nodes. */
  lemma StartingWrites(b: Browser, a: Answers, x: Node)
    requires x !in b.pending
    ensures !Writes(b, Started(b, a), x)
  {
    StartingHoldsLess(b, a, x);
    StartingExtends(b, a, b.pending);
  }

  lemma WritesThen(a: Browser, b: Browser, c: Browser, x: Node)
    requires !Writes(a, b, x) && !Writes(b, c, x) && a.log <= b.log <= c.log
    ensures !Writes(a, c, x)
  {
    forall i | |a.log| <= i < |c.log| ensures c.log[i].node != x {
      if i < |b.log| {
        assert c.log[i] == b.log[i];
      }
    }
  }

  /** What a step does to a node it does not name: it is held no more than before, and written to only
      if it was held. */
  predicate Minds(b: Browser, n: Browser, x: Node) {
    && (Holds(n, x) ==> Holds(b, x))
    && (!Holds(b, x) ==> !Writes(b, n, x))
  }

  lemma StartingMinds(b: Browser, q: Browser, a: Answers, x: Node)
    requires (!Holds(b, x) ==> !Writes(b, q, x)) && b.log <= q.log && (Holds(q, x) ==> Holds(b, x))
    ensures Minds(b, Started(q, a), x) && Waiting(Started(q, a))
  {
    StartingHoldsLess(q, a, x);
    if !Holds(b, x) {
      StartingWrites(q, a, x);
      StartingExtends(q, a, q.pending);
      WritesThen(b, q, Started(q, a), x);
    }
  }

  lemma QueueingMinds(b: Browser, c: Browser, n: Node, a: Answers, x: Node)
    requires x != n && !Writes(b, c, x) && c.log == b.log && (Holds(c, x) ==> Holds(b, x))
    ensures Minds(b, QueueFetch(c, n, a), x) && Waiting(QueueFetch(c, n, a))
  {
    StartingMinds(b, Stamped(c, n), a, x);
  }

  /** An answer is written to the active node, and only if it was for it. */
  lemma SettleMinds(b: Browser, left: Browser, from: Fetch, ok: bool, x: Node)
    requires left == b.(inFlight := left.inFlight)
    ensures var q := Settle(left, from, ok);
            (!Holds(b, x) ==> !Writes(b, q, x)) && b.log <= q.log && (Holds(q, x) ==> Holds(b, x))
  {
  }

  lemma ReplyMinds(b: Browser, ok: bool, a: Answers, x: Node)
    requires b.inFlight != [] && Waiting(b)
    ensures Minds(b, Reply(b, ok, a), x) && Waiting(Reply(b, ok, a))
  {
    var left := b.(inFlight := b.inFlight[1..]);
    SettleMinds(b, left, b.inFlight[0], ok, x);
    StartingMinds(b, Settle(left, b.inFlight[0], ok), a, x);
    StartingMinds(b, left.(openFailed := true), a, x);
  }

  lemma StepMinds(b: Browser, m: Move, x: Node)
    requires Enabled(b, m) && Waiting(b) && Named(m) != Some(x)
    ensures Minds(b, Next(b, m), x) && Waiting(Next(b, m))
  {
    match m.step
    case ExpandStep(n, force) => QueueingMinds(b, if force then Bump(b, n) else b, n, m.answers, x);
    case BumpStep(n) =>
    case FilterStep(n, text) => QueueingMinds(b, Bump(b.(filters := b.filters[n := text]), n), n, m.answers, x);
    case SessionOpened => StartingMinds(b, b.(ready := true), m.answers, x);
    case SessionFailed => StartingMinds(b, b.(openFailed := true), m.answers, x);
    case ReplyStep(ok) => ReplyMinds(b, ok, m.answers, x);
    case CloseStep =>
  }

  /** A refresh or filter change lets go of nothing but the node it names. */
  lemma SupersedingHolds(b: Browser, m: Move, x: Node)
    requires Enabled(b, m) && Waiting(b) && Supersedes(b, m) && Named(m) != Some(x) && Holds(b, x)
    ensures Holds(Next(b, m), x)
  {
    match m.step
    case ExpandStep(n, _) => KeptWhileQueueing(Bump(b, n), n, m.answers, x);
    case BumpStep(_) =>
    case FilterStep(n, text) => KeptWhileQueueing(Bump(b.(filters := b.filters[n := text]), n), n, m.answers, x);
  }

  lemma KeptWhileQueueing(b: Browser, n: Node, a: Answers, x: Node)
    requires Waiting(b) && x != n && Holds(b, x)
    ensures Holds(QueueFetch(b, n, a), x)
  {
    var q := Stamped(b, n);
    assert Holds(q, x);
    assert Started(q, a) == q;
  }

  // ------------------------------------------------------------------ exactly when a held node is destroyed

  lemma {:induction false} BelowIsLater(parent: map<Node, Node>, x: Node, n: Node)
    requires Below(parent, x, n) && forall y | y in parent :: parent[y] < y
    ensures n < x
  {
    if parent[x] != n {
      BelowIsLater(parent, parent[x], n);
    }
  }

  lemma StepKeepsWellFormed(t: Tree, act: Act)
    requires WellFormed(t) && Possible(t, act)
    ensures WellFormed(After(t, act)) && After(t, act).next >= t.next
  {
  }

  /** From a tree in which everything held is there, a step leaves a destroyed node held if and only if
      it refreshes or filters a node with something held below it. */
  lemma StaysSafeExactlyWhen(t: Tree, act: Act)
    requires WellFormed(t) && Waiting(t.b) && Safe(t) && Possible(t, act)
    ensures Safe(After(t, act)) <==> !Cuts(t, act)
  {
    var n := After(t, act);
    if Cuts(t, act) {
      var x :| x in t.parent && Below(t.parent, x, Named(act.m).value) && Holds(t.b, x);
      BelowIsLater(t.parent, x, Named(act.m).value);
      SupersedingHolds(t.b, act.m, x);
      assert Holds(n.b, x) && x !in n.parent;
    } else if act.Do? {
      forall x: Node | Holds(n.b, x) ensures x in n.parent {
        NotCutStays(t, act.m, x);
      }
    }
  }

  lemma NotCutStays(t: Tree, m: Move, x: Node)
    requires WellFormed(t) && Waiting(t.b) && Safe(t) && Possible(t, Do(m)) && !Cuts(t, Do(m))
    requires Holds(Next(t.b, m), x)
    ensures x in After(t, Do(m)).parent
  {
    if Named(m) == Some(x) {
      if Below(t.parent, x, x) {
        BelowIsLater(t.parent, x, x);
        assert false;
      }
    } else {
      StepMinds(t.b, m, x);
    }
  }

  // ------------------------------------------------------------------ whole runs

  predicate Acts(t: Tree, acts: seq<Act>)
    decreases |acts|
  {
    acts == [] || (Possible(t, acts[0]) && Acts(After(t, acts[0]), acts[1..]))
  }

  function Play(t: Tree, acts: seq<Act>): Tree
    requires Acts(t, acts)
    decreases |acts|
  {
    if acts == [] then t else Play(After(t, acts[0]), acts[1..])
  }

  /** Nothing is refreshed or filtered above something held. */
  predicate Careful(t: Tree, acts: seq<Act>)
    requires Acts(t, acts)
    decreases |acts|
  {
    acts == [] || (!Cuts(t, acts[0]) && Careful(After(t, acts[0]), acts[1..]))
  }

  ghost predicate Good(t: Tree) { WellFormed(t) && Waiting(t.b) && Sound(t.b) }

  lemma StepKeepsGood(t: Tree, act: Act)
    requires Good(t) && Possible(t, act)
    ensures Good(After(t, act))
  {
    StepKeepsWellFormed(t, act);
    if act.Do? {
      StepKeepsSound(t.b, act.m);
      StepMinds(t.b, act.m, Unnamed(act.m));
    }
  }

  function Unnamed(m: Move): Node { if Named(m).Some? then Named(m).value + 1 else 0 }

  lemma {:induction false} PlayKeepsGood(t: Tree, acts: seq<Act>)
    requires Good(t) && Acts(t, acts)
    ensures Good(Play(t, acts)) && (Safe(t) && Careful(t, acts) ==> Safe(Play(t, acts)))
    decreases |acts|
  {
    if acts != [] {
      StepKeepsGood(t, acts[0]);
      if Safe(t) && Careful(t, acts) {
        StaysSafeExactlyWhen(t, acts[0]);
      }
      PlayKeepsGood(After(t, acts[0]), acts[1..]);
    }
  }

  /** In every careful run, whatever happens next is written only to nodes of the tree. */
  lemma OnlyTreeNodesAreWritten(t: Tree, acts: seq<Act>, m: Move, x: Node)
    requires Start(t) && Acts(t, acts) && Careful(t, acts) && Possible(Play(t, acts), Do(m))
    requires var b := Play(t, acts).b; Writes(b, Next(b, m), x)
    ensures x in Play(t, acts).parent
  {
    PlayKeepsGood(t, acts);
    if Named(m) != Some(x) {
      StepMinds(Play(t, acts).b, m, x);
    }
  }

  // ------------------------------------------------------------------ a destroyed node is written to

  predicate Reaches(t: Tree, acts: seq<Act>, m: Move, x: Node) {
    Acts(t, acts) && Possible(Play(t, acts), Do(m)) && Writes(Play(t, acts).b, Next(Play(t, acts).b, m), x)
  }

  ghost predicate WillBeWritten(t: Tree, x: Node) {
    exists acts, m :: Reaches(t, acts, m, x)
  }

  /** Destroyed and let go. */
  predicate Forgotten(t: Tree, x: Node) { x !in t.parent && x < t.next && !Holds(t.b, x) }

  lemma StepForgets(t: Tree, act: Act, x: Node)
    requires Good(t) && Possible(t, act) && Forgotten(t, x)
    ensures Forgotten(After(t, act), x) && (act.Do? ==> !Writes(t.b, Next(t.b, act.m), x))
  {
    if act.Do? {
      StepMinds(t.b, act.m, x);
    }
  }

  lemma {:induction false} PlayForgets(t: Tree, acts: seq<Act>, x: Node)
    requires Good(t) && Acts(t, acts) && Forgotten(t, x)
    ensures Good(Play(t, acts)) && Forgotten(Play(t, acts), x)
    decreases |acts|
  {
    if acts != [] {
      StepForgets(t, acts[0], x);
      StepKeepsGood(t, acts[0]);
      PlayForgets(After(t, acts[0]), acts[1..], x);
    }
  }

  /** An answer under way is put on its node, and a close writes to every queued one. */
  lemma HeldIsWritten(b: Browser, x: Node) returns (m: Move)
    requires Sound(b) && Holds(b, x)
    ensures Enabled(b, m) && Sticky(m.answers) && Named(m).None? && Writes(b, Next(b, m), x)
  {
    if x in b.pending {
      m := Move(CloseStep, ALL_ACCEPTED);
      assert x in b.loading && x !in Next(b, m).loading;
    } else {
      m := Move(ReplyStep(true), ALL_ACCEPTED);
      var settled := Settle(b.(inFlight := b.inFlight[1..]), b.inFlight[0], true);
      StartingExtends(settled, ALL_ACCEPTED, settled.pending);
      assert settled.log[|b.log|].node == x && Next(b, m).log[|b.log|] == settled.log[|b.log|];
    }
  }

  /** In every run, a destroyed node can still be written to if and only if the browser holds on to it. */
  lemma DestroyedIsWrittenExactlyWhen(t: Tree, acts: seq<Act>, x: Node)
    requires Start(t) && Acts(t, acts) && x !in Play(t, acts).parent && x < Play(t, acts).next
    ensures WillBeWritten(Play(t, acts), x) <==> Holds(Play(t, acts).b, x)
  {
    PlayKeepsGood(t, acts);
    var n := Play(t, acts);
    if Holds(n.b, x) {
      var m := HeldIsWritten(n.b, x);
      assert Acts(n, []) && Play(n, []) == n && Reaches(n, [], m, x);
    } else {
      forall more, m ensures !Reaches(n, more, m, x) {
        if Acts(n, more) && Possible(Play(n, more), Do(m)) {
          PlayForgets(n, more, x);
          StepForgets(Play(n, more), Do(m), x);
        }
      }
    }
  }

  // ------------------------------------------------------------------ a concrete run

  function First(t: Tree, act: Act, rest: seq<Act>): (acts: seq<Act>)
    requires Possible(t, act) && Acts(After(t, act), rest)
    ensures acts == [act] + rest && Acts(t, acts) && Play(t, acts) == Play(After(t, act), rest)
  {
    var acts := [act] + rest;
    assert acts[1..] == rest;
    acts
  }

  /** A connection with one group below it, the group being fetched, and the connection refreshed: the
      group is gone and its answer will still be put on it. */
  lemma RefreshDestroysAnAwaitedNode() returns (t: Tree, acts: seq<Act>)
    ensures Start(t) && Acts(t, acts)
    ensures var n := Play(t, acts); 2 !in n.parent && 2 < n.next && Awaited(n.b, 2)
  {
    t := Tree(Browser(0, map[], [], None, 0, map[], {}, {}, false, false, [], []), map[], 1);
    var open, expand := Do(Move(SessionOpened, ALL_ACCEPTED)), Do(Move(ExpandStep(2, false), ALL_ACCEPTED));
    var refresh := Do(Move(ExpandStep(1, true), ALL_ACCEPTED));
    var t2 := After(After(t, Grow(0)), Grow(1));
    assert t2.parent == map[1 := 0, 2 := 1] && t2.next == 3;
    var t3 := After(t2, open);
    assert t3 == t2.(b := t2.b.(ready := true));
    var t4 := After(t3, expand);
    assert [2][1..] == [] && t3.b.inFlight + [Fetch(2, "")] == [Fetch(2, "")];
    assert t4.b == Browser(0, map[2 := 0], [], Some(2), 0, map[], {2}, {}, true, false, [Fetch(2, "")], []);
    assert t4.parent == t2.parent;
    var t5 := After(t4, refresh);
    assert Below(t4.parent, 2, 1) && 2 !in t5.parent;
    assert t5.b.active == Some(2) && t5.b.activeGeneration == 0 && GenerationOf(t5.b, 2) == 0;
    assert Acts(t5, []) && Play(t5, []) == t5;
    acts := First(t2, open, First(t3, expand, First(t4, refresh, [])));
    acts := First(t, Grow(0), First(After(t, Grow(0)), Grow(1), acts));
  }
}
