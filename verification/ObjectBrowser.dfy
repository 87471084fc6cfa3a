/** The object browser model in place. */
module ObjectBrowser {
  import opened BrowserSpec
  import opened Wrappers

  class ObjectBrowserModel {
    var generation: nat
    var nodeGeneration: map<Node, nat>
    var pendingQueue: seq<Node>
    var activeNode: Option<Node>
    var activeGeneration: nat
    var filters: map<Node, string>
    var loading: set<Node>
    var loaded: set<Node>
    var sessionReady: bool
    var sessionOpenFailed: bool
    ghost var inFlight: seq<Fetch>
    ghost var log: seq<Applied>

    ghost function Abs(): Browser
      reads this
    {
      Browser(generation, nodeGeneration, pendingQueue, activeNode, activeGeneration, filters, loading, loaded,
              sessionReady, sessionOpenFailed, inFlight, log)
    }

    /** The active fetch was submitted under a stamp its node has moved past. */
    ghost predicate Stale()
      reads this
    {
      activeNode.Some? && GenerationOf(Abs(), activeNode.value) != activeGeneration
    }

    constructor ()
      ensures Abs() == Browser(0, map[], [], None, 0, map[], {}, {}, false, false, [], [])
    {
      generation, nodeGeneration, pendingQueue, activeNode, activeGeneration := 0, map[], [], None, 0;
      filters, loading, loaded, sessionReady, sessionOpenFailed := map[], {}, {}, false, false;
      inFlight, log := [], [];
    }

    method ApplyAnswer(n: Node, ghost from: Fetch, ok: bool)
      modifies this`loading, this`loaded, this`log
      ensures Abs() == Apply(old(Abs()), n, from, ok)
    {
      loading := loading - {n};
      loaded := if ok then loaded + {n} else loaded - {n};
      log := log + [Applied(n, from, if n in filters then filters[n] else "")];
    }

    /** Either reply handler: a stale reply changes nothing that is shown, a current one is put on
        the active node and on no other; the next fetch may start either way. */
    method SettleActive(ghost from: Fetch, ok: bool)
      modifies this`loading, this`loaded, this`log, this`activeNode
      ensures Abs() == Settle(old(Abs()), from, ok)
      ensures activeNode.None?
      ensures old(Stale()) ==> log == old(log) && loading == old(loading) && loaded == old(loaded)
      ensures old(activeNode).Some? && !old(Stale()) ==>
                && log == old(log) + [Applied(old(activeNode).value, from, FilterOf(Abs(), old(activeNode).value))]
                && old(activeNode).value !in loading && (old(activeNode).value in loaded <==> ok)
      ensures forall x: Node | Some(x) != old(activeNode) ::
                (x in loading <==> x in old(loading)) && (x in loaded <==> x in old(loaded))
    {
      if activeNode.None? {
        return;
      }
      var n := activeNode.value;
      activeNode := None;
      var current := if n in nodeGeneration then nodeGeneration[n] else 0;
      if current == activeGeneration {
        ApplyAnswer(n, from, ok);
      }
    }

    method StartNextFetchIfIdle(answers: Answers) returns (left: Answers)
      modifies this
      ensures (Abs(), left) == StartNext(old(Abs()), answers)
      decreases |pendingQueue|, 0
    {
      left := answers;
      if activeNode.Some? || pendingQueue == [] {
        return;
      }
      if sessionOpenFailed {
        FailEveryQueued();
        return;
      }
      if !sessionReady {
        return;
      }
      var n := pendingQueue[0];
      assert [n] + pendingQueue[1..] == pendingQueue;
      pendingQueue := pendingQueue[1..];
      var current := if n in nodeGeneration then nodeGeneration[n] else 0;
      if current != generation {
        left := StartNextFetchIfIdle(answers);
        return;
      }
      left := StartFetch(n, answers);
    }

    method FailEveryQueued()
      modifies this`pendingQueue, this`loading, this`loaded
      ensures Abs() == FailQueued(old(Abs()))
    {
      var queued := pendingQueue;
      pendingQueue := [];
      ghost var failed: set<Node> := {};
      for i := 0 to |queued|
        invariant pendingQueue == []
                  && failed == (set n | n in queued[..i] && GenerationOf(old(Abs()), n) == generation)
        invariant loading == old(loading) - failed && loaded == old(loaded) - failed
      {
        var n := queued[i];
        assert queued[..i + 1] == queued[..i] + [n];
        var current := if n in nodeGeneration then nodeGeneration[n] else 0;
        if current == generation {
          loading, loaded := loading - {n}, loaded - {n};
          failed := failed + {n};
        }
      }
      assert queued[..|queued|] == queued;
    }

    /** Hands the statement of a current node over, with nothing else active. */
    method StartFetch(n: Node, answers: Answers) returns (left: Answers)
      requires activeNode.None? && sessionReady && !sessionOpenFailed && GenerationOf(Abs(), n) == generation
      modifies this
      ensures (Abs(), left) == StartNext(old(Abs().(pending := [n] + pendingQueue)), answers)
      decreases |pendingQueue|, 1
    {
      ghost var fetch := Fetch(n, if n in filters then filters[n] else "");
      assert ([n] + pendingQueue)[1..] == pendingQueue;
      activeNode, activeGeneration := Some(n), generation;
      left := Tail(answers);
      match Head(answers)
      case Accepted =>
        inFlight := inFlight + [fetch];
      case Unprepared =>
        activeNode := None;
        ApplyAnswer(n, fetch, false);
        left := StartNextFetchIfIdle(left);
      case Refused =>
        // the session signals the failure before `execute` returns
        SettleActive(fetch, false);
        left := StartNextFetchIfIdle(left);
        activeNode := None;
        ApplyAnswer(n, fetch, false);
        left := StartNextFetchIfIdle(left);
    }

    method QueueNode(n: Node, answers: Answers)
      modifies this
      ensures Abs() == QueueFetch(old(Abs()), n, answers)
    {
      loading := loading + {n};
      nodeGeneration := nodeGeneration[n := generation];
      if n !in pendingQueue {
        pendingQueue := pendingQueue + [n];
      }
      var _ := StartNextFetchIfIdle(answers);
    }

    /** A forced expand makes the fetch in flight for its node stale, whatever its stamp was; a plain
        one asks for nothing twice. */
    method ExpandNode(n: Node, force: bool, answers: Answers)
      modifies this
      ensures Abs() == Expand(old(Abs()), n, force, answers)
      ensures force && old(activeNode) == Some(n) && old(activeGeneration <= generation) ==>
              Stale() && activeNode == Some(n)
      ensures !force && (n in old(loading) || n in old(loaded)) ==> Abs() == old(Abs())
    {
      if !force {
        if n in loading || n in loaded {
          return;
        }
      } else {
        BumpGeneration(n);
      }
      QueueNode(n, answers);
    }

    /** A forced expand of a node that has no fetch of its own. */
    method BumpGeneration(n: Node)
      modifies this`loaded, this`generation
      ensures Abs() == Bump(old(Abs()), n)
    {
      loaded := loaded - {n};
      generation := generation + 1;
    }

    /** A new filter text makes the fetch in flight for its node stale; the same text does nothing. */
    method ChangeFilter(n: Node, text: string, answers: Answers)
      modifies this
      ensures Abs() == SetFilter(old(Abs()), n, text, answers)
      ensures FilterOf(Abs(), n) == text
      ensures old(FilterOf(Abs(), n)) != text && old(activeNode) == Some(n) && old(activeGeneration <= generation) ==>
                Stale() && activeNode == Some(n)
      ensures old(FilterOf(Abs(), n)) == text ==> Abs() == old(Abs())
    {
      var current := if n in filters then filters[n] else "";
      if current == text {
        return;
      }
      filters := filters[n := text];
      ExpandNode(n, true, answers);
      FilterIsSet(old(Abs()), n, text, answers);
    }

    /** `onMetadataResultComplete` and `onMetadataSessionFailed`. A failure with nothing active gives
        the session up; a completion with nothing active is ignored; a stale answer is put nowhere, a
        current one on the active node first, and nothing else but what starting the next fetch puts on
        queued nodes. The session signals a completion only for its newest statement. */
    method OnReply(ok: bool, answers: Answers)
      requires inFlight != [] && (ok ==> |inFlight| == 1)
      modifies this
      ensures Abs() == Reply(old(Abs()), ok, answers)
      ensures old(activeNode).None? && !ok ==> sessionOpenFailed && pendingQueue == [] && log == old(log)
      ensures old(activeNode).None? && ok ==> Abs() == old(Abs().(inFlight := inFlight[1..]))
      ensures old(activeNode).Some? && !old(Stale()) ==>
                |log| > |old(log)|
                && log[|old(log)|] == old(Applied(activeNode.value, inFlight[0], FilterOf(Abs(), activeNode.value)))
      ensures old(log) <= log
      ensures forall i | |old(log)| + (if old(activeNode).None? || old(Stale()) then 0 else 1) <= i < |log| ::
                log[i].node in old(pendingQueue)
    {
      ghost var from := inFlight[0];
      inFlight := inFlight[1..];
      if activeNode.None? {
        if !ok {
          OnSessionFailed(answers);
        }
        return;
      }
      SettleActive(from, ok);
      ghost var settled := Abs();
      var _ := StartNextFetchIfIdle(answers);
      StartingExtends(settled, answers, settled.pending);
    }

    /** Closing the connection, up to the moment its session is gone. Afterwards nothing is queued or
        active, and exactly the nodes that were queued have stopped loading. */
    method CloseConnection()
      modifies this
      ensures Abs() == Disconnect(old(Abs()))
      ensures activeNode.None? && pendingQueue == [] && !sessionReady && !sessionOpenFailed
      ensures forall x: Node :: x in loading <==> x in old(loading) && x !in old(pendingQueue)
    {
      generation := generation + 1;
      var queued := pendingQueue;
      pendingQueue, activeNode := [], None;
      for i := 0 to |queued|
        invariant loading == old(loading) - (set n | n in queued[..i])
        invariant Abs() == Disconnect(old(Abs())).(loading := loading, ready := old(sessionReady),
                                                   openFailed := old(sessionOpenFailed), inFlight := old(inFlight))
      {
        assert queued[..i + 1] == queued[..i] + [queued[i]];
        loading := loading - {queued[i]};
      }
      assert queued[..|queued|] == queued;
      sessionReady, sessionOpenFailed, inFlight := false, false, [];
    }

    /** The connect failed, or the session was lost with nothing in flight. */
    method OnSessionFailed(answers: Answers)
      requires activeNode.None?
      modifies this
      ensures Abs() == GivenUp(old(Abs()), answers)
      ensures sessionOpenFailed && pendingQueue == [] && log == old(log)
      ensures forall x: Node :: x in old(pendingQueue) && GenerationOf(old(Abs()), x) == old(generation) ==>
              x !in loading
    {
      sessionOpenFailed := true;
      var _ := StartNextFetchIfIdle(answers);
    }
  }

  lemma FilterIsSet(b: Browser, n: Node, text: string, answers: Answers)
    ensures FilterOf(SetFilter(b, n, text, answers), n) == text
  {
    var changed := Bump(b.(filters := b.filters[n := text]), n);
    FiltersStay(changed.(loading := changed.loading + {n},
                         nodeGeneration := changed.nodeGeneration[n := changed.generation],
                         pending := if n in changed.pending then changed.pending else changed.pending + [n]), answers);
  }
}
