/** The object browser's fetch queue as a value: one metadata session, one fetch at a time, and
    generation stamps that tell a current reply from one its node has moved past. */
module BrowserSpec {
  import opened Wrappers

  type Node = nat

  /** A statement handed to the session: for whom, and with which filter text. */
  datatype Fetch = Fetch(node: Node, filter: string)

  /** Rows or an error put on a node: which fetch they came from, and the node's filter just then. */
  datatype Applied = Applied(node: Node, from: Fetch, filter: string)

  datatype Browser = Browser(
    generation: nat, nodeGeneration: map<Node, nat>,
    pending: seq<Node>,
    active: Option<Node>, activeGeneration: nat,
    filters: map<Node, string>,
    loading: set<Node>, loaded: set<Node>,
    ready: bool,                 // the metadata session is open
    openFailed: bool,            // it is given up: what is queued fails with its error
    inFlight: seq<Fetch>,        // statements the session has accepted and not answered
    log: seq<Applied>)

  /** What became of handing a statement over. A refusal is signalled from inside the call. */
  datatype Answer = Accepted | Refused | Unprepared

  /** What the statements of one call get, in the order they are handed over. */
  datatype Answers = Answers(list: seq<Answer>, after: Answer)

  const ALL_ACCEPTED := Answers([], Accepted)

  function GenerationOf(b: Browser, n: Node): nat {
    if n in b.nodeGeneration then b.nodeGeneration[n] else 0
  }

  function FilterOf(b: Browser, n: Node): string {
    if n in b.filters then b.filters[n] else ""
  }

  function Apply(b: Browser, n: Node, from: Fetch, ok: bool): Browser {
    b.(loading := b.loading - {n}, loaded := if ok then b.loaded + {n} else b.loaded - {n},
       log := b.log + [Applied(n, from, FilterOf(b, n))])
  }

  /** The answer of the active fetch: applied unless its node has moved on. */
  function Settle(b: Browser, from: Fetch, ok: bool): Browser {
    if b.active.None? then b
    else
      var n := b.active.value;
      var idle := b.(active := None);
      if GenerationOf(b, n) == b.activeGeneration then Apply(idle, n, from, ok) else idle
  }

  function Head(answers: Answers): Answer { if answers.list == [] then answers.after else answers.list[0] }

  function Tail(answers: Answers): Answers {
    if answers.list == [] then answers else answers.(list := answers.list[1..])
  }

  /** The session's own failure goes on every queued node that is current. */
  function FailQueued(b: Browser): Browser {
    var failed := set n | n in b.pending && GenerationOf(b, n) == b.generation;
    b.(pending := [], loading := b.loading - failed, loaded := b.loaded - failed)
  }

  /** Starts the oldest queued fetch that is still current. When its statement is refused, the
      failure handler runs inside the call, and may itself start a fetch, before the caller sees the
      refusal. */
  function StartNext(b: Browser, answers: Answers): (r: (Browser, Answers))
    ensures |r.0.pending| <= |b.pending|
    decreases |b.pending|
  {
    if b.active.Some? || b.pending == [] then (b, answers)
    else if b.openFailed then (FailQueued(b), answers)
    else if !b.ready then (b, answers)
    else
      var n, rest := b.pending[0], b.pending[1..];
      if GenerationOf(b, n) != b.generation then StartNext(b.(pending := rest), answers)
      else
        var started := b.(pending := rest, active := Some(n), activeGeneration := b.generation);
        var fetch := Fetch(n, FilterOf(b, n));
        match Head(answers)
        case Accepted => (started.(inFlight := b.inFlight + [fetch]), Tail(answers))
        case Unprepared => StartNext(Apply(started.(active := None), n, fetch, false), Tail(answers))
        case Refused =>
          var (nested, left) := StartNext(Settle(started, fetch, false), Tail(answers));
          StartNext(Apply(nested.(active := None), n, fetch, false), left)
  }

  function Started(b: Browser, answers: Answers): Browser { StartNext(b, answers).0 }

  function QueueFetch(b: Browser, n: Node, answers: Answers): Browser {
    Started(b.(loading := b.loading + {n}, nodeGeneration := b.nodeGeneration[n := b.generation],
               pending := if n in b.pending then b.pending else b.pending + [n]), answers)
  }

  function Expand(b: Browser, n: Node, force: bool, answers: Answers): Browser {
    if force then QueueFetch(Bump(b, n), n, answers)
    else if n in b.loading || n in b.loaded then b
    else QueueFetch(b, n, answers)
  }

  /** A forced expand supersedes what is queued or in flight; for a node without a fetch of its own,
      such as a schema, that is all it does. */
  function Bump(b: Browser, n: Node): Browser {
    b.(loaded := b.loaded - {n}, generation := b.generation + 1)
  }

  function SetFilter(b: Browser, n: Node, text: string, answers: Answers): Browser {
    if FilterOf(b, n) == text then b
    else Expand(b.(filters := b.filters[n := text]), n, true, answers)
  }

  /** A failure with nothing active can only be the session's own. */
  function GivenUp(b: Browser, answers: Answers): Browser { Started(b.(openFailed := true), answers) }

  /** The connection is closed, and its session is gone before anything else is asked. Only queued
      nodes stop showing "Loading". */
  function Disconnect(b: Browser): Browser {
    b.(generation := b.generation + 1, pending := [], active := None, loading := b.loading - (set n | n in b.pending),
       ready := false, openFailed := false, inFlight := [])
  }

  /** The session answers its oldest statement. A success with another statement behind it is
      silent, because that statement's result has already replaced it. */
  function Reply(b: Browser, ok: bool, answers: Answers): Browser
    requires b.inFlight != []
  {
    var from, left := b.inFlight[0], b.(inFlight := b.inFlight[1..]);
    if ok && |b.inFlight| > 1 then left
    else if b.active.Some? then Started(Settle(left, from, ok), answers)
    else if ok then left
    else GivenUp(left, answers)
  }

  /** Starting fetches changes no filter. */
  lemma {:induction false} FiltersStay(b: Browser, answers: Answers)
    ensures Started(b, answers).filters == b.filters
    decreases |b.pending|
  {
    if b.active.None? && b.pending != [] && !b.openFailed && b.ready {
      var n, rest := b.pending[0], b.pending[1..];
      if GenerationOf(b, n) != b.generation {
        FiltersStay(b.(pending := rest), answers);
      } else {
        var started := b.(pending := rest, active := Some(n), activeGeneration := b.generation);
        var fetch := Fetch(n, FilterOf(b, n));
        if Head(answers).Unprepared? {
          FiltersStay(Apply(started.(active := None), n, fetch, false), Tail(answers));
        } else if Head(answers).Refused? {
          var first := Settle(started, fetch, false);
          FiltersStay(first, Tail(answers));
          var (nested, left) := StartNext(first, Tail(answers));
          FiltersStay(Apply(nested.(active := None), n, fetch, false), left);
        }
      }
    }
  }

  /** What starting fetches puts on nodes, errors of its own statements, it puts on queued ones. */
  predicate ExtendsFor(before: Browser, after: Browser, queued: seq<Node>) {
    && before.log <= after.log
    && (forall n | n in after.pending :: n in queued)
    && (forall i | |before.log| <= i < |after.log| :: after.log[i].node in queued)
  }

  lemma ExtendsThen(a: Browser, b: Browser, c: Browser, queued: seq<Node>)
    requires ExtendsFor(a, b, queued) && ExtendsFor(b, c, queued)
    ensures ExtendsFor(a, c, queued)
  {
  }

  /** An error put on the node whose statement could not be handed over. */
  lemma ApplyExtends(b: Browser, after: Browser, n: Node, fetch: Fetch, queued: seq<Node>)
    requires n in queued && (forall x | x in after.pending :: x in queued) && after.log == b.log
    ensures ExtendsFor(b, Apply(after, n, fetch, false), queued)
  {
  }

  lemma {:induction false} StartingExtends(b: Browser, answers: Answers, queued: seq<Node>)
    requires forall n | n in b.pending :: n in queued
    ensures ExtendsFor(b, Started(b, answers), queued)
    decreases |b.pending|
  {
    if b.active.None? && b.pending != [] && !b.openFailed && b.ready {
      var n, rest := b.pending[0], b.pending[1..];
      if GenerationOf(b, n) != b.generation {
        StartingExtends(b.(pending := rest), answers, queued);
      } else {
        var idle := b.(pending := rest, activeGeneration := b.generation);
        var fetch := Fetch(n, FilterOf(b, n));
        var first := Apply(idle, n, fetch, false);
        ApplyExtends(b, idle, n, fetch, queued);
        if Head(answers).Unprepared? {
          StartingExtends(first, Tail(answers), queued);
          ExtendsThen(b, first, Started(b, answers), queued);
        } else if Head(answers).Refused? {
          assert Settle(idle.(active := Some(n)), fetch, false) == first;
          StartingExtends(first, Tail(answers), queued);
          var (nested, left) := StartNext(first, Tail(answers));
          ExtendsThen(b, first, nested, queued);
          var second := Apply(nested.(active := None), n, fetch, false);
          ApplyExtends(nested, nested.(active := None), n, fetch, queued);
          ExtendsThen(b, nested, second, queued);
          StartingExtends(second, left, queued);
          ExtendsThen(b, second, Started(b, answers), queued);
        }
      }
    }
  }
}
