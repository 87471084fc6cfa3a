/** Many sessions feeding one queue. Each session sees the queue only through its own share of it,
    and seen that way the shared system is exactly the one-session protocol: whatever the other
    sessions do is either one of its own steps or nothing at all. So every theorem about one session
    holds of each session of the shared system. */
module SharedQueue {
  import opened Events
  import opened SessionProtocol
  import opened SessionInvariants
  import opened SessionHistory
  import opened SessionTheorems

  /** `sessions[id].b.queue` is not used: the queue is the shared one. */
  datatype System = System(cap: nat, queue: ListQueue<bool>, sessions: map<SessionId, State>)

  datatype Move =
    | By(id: SessionId, step: Step)      // a caller or the worker of one session
    | TakeHead                           // the consumer takes the oldest event of any session
    | DropAll                            // the consumer drops the queue

  /** One session as it would be with a queue of its own. */
  function View(sys: System, id: SessionId): State
    requires id in sys.sessions
  {
    var s := sys.sessions[id];
    s.(b := s.b.(queue := ShareOf(sys.queue, id)))
  }

  predicate Possible(sys: System, m: Move) {
    match m
    case By(id, step) => id in sys.sessions && !step.Take? && !step.DropQueue? && Enabled(View(sys, id), step)
    case TakeHead => sys.queue.items != []
    case DropAll => !sys.queue.closed
  }

  /** The shared queue after what one session's step emits, decided on the whole queue. */
  function EmitShared(sys: System, id: SessionId, step: Step): ListQueue<bool>
    requires Possible(sys, By(id, step))
  {
    var v := View(sys, id);
    var answered, said := Answering(v, step), Saying(v, step);
    if answered.Some? then Push(sys.queue, ReplyFor(v, answered.value), true, sys.cap).after
    else if said.Some? then Push(sys.queue, said.value, false, sys.cap).after
    else sys.queue
  }

  function After(sys: System, m: Move): System
    requires Possible(sys, m)
  {
    match m
    case By(id, step) =>
      sys.(queue := EmitShared(sys, id, step), sessions := sys.sessions[id := Next(View(sys, id), step)])
    case TakeHead =>
      var id := sys.queue.items[0].event.session;
      sys.(queue := sys.queue.(items := sys.queue.items[1..]),
           sessions := if id in sys.sessions then sys.sessions[id := Next(View(sys, id), Take)] else sys.sessions)
    case DropAll =>
      sys.(queue := ListQueue([], map[], true),
           sessions := map id | id in sys.sessions :: Next(View(sys, id), DropQueue))
  }

  /** Sessions opened later are those whose first step comes later. */
  predicate Start(sys: System) {
    && sys.queue == ListQueue([], map[], false)
    && forall id | id in sys.sessions :: Init(sys.sessions[id]) && Named(sys, id)
  }

  predicate Named(sys: System, id: SessionId)
    requires id in sys.sessions
  {
    sys.sessions[id].session == id && sys.sessions[id].cap == sys.cap
  }

  // ------------------------------------------------------------------ one move, seen by one session

  /** What one session sees of a move: one of its own steps, or nothing. */
  function Seen(sys: System, m: Move, id: SessionId): (steps: seq<Step>)
    requires Possible(sys, m) && id in sys.sessions
    ensures |steps| <= 1
    ensures steps != [] ==> Enabled(View(sys, id), steps[0])
  {
    match m
    case By(other, step) => if other == id then [step] else []
    case TakeHead =>
      if sys.queue.items[0].event.session == id then [Take] else []
    case DropAll => [DropQueue]
  }

  lemma EmitIsLocal(sys: System, id: SessionId, step: Step, of: SessionId)
    requires Possible(sys, By(id, step)) && Named(sys, id)
    ensures ShareOf(EmitShared(sys, id, step), of)
            == if of == id then Emit(View(sys, id), step) else ShareOf(sys.queue, of)
  {
    var v := View(sys, id);
    var answered, said := Answering(v, step), Saying(v, step);
    if answered.Some? {
      PushIsLocal(sys.queue, ReplyFor(v, answered.value), true, sys.cap, of);
    } else if said.Some? {
      PushIsLocal(sys.queue, said.value, false, sys.cap, of);
    }
  }

  /** Only `Take` and `DropQueue` change the queue other than by emitting. */
  lemma QueueFollowsEmit(s: State, step: Step)
    requires Enabled(s, step) && !step.Take? && !step.DropQueue?
    ensures Next(s, step).b.queue == Emit(s, step)
  {
  }

  /** What the session sees next, given what it sees of a move. */
  function Seeing(sys: System, m: Move, id: SessionId): State
    requires Possible(sys, m) && id in sys.sessions
  {
    var seen := Seen(sys, m, id);
    if seen == [] then View(sys, id) else Next(View(sys, id), seen[0])
  }

  lemma StepIsSeen(sys: System, id: SessionId, step: Step, of: SessionId)
    requires Possible(sys, By(id, step)) && of in sys.sessions && Named(sys, id)
    ensures View(After(sys, By(id, step)), of) == Seeing(sys, By(id, step), of)
  {
    EmitIsLocal(sys, id, step, of);
    if of == id {
      var v := View(sys, id);
      QueueFollowsEmit(v, step);
      Refocus(Next(v, step), Emit(v, step));
    }
  }

  lemma Refocus(s: State, q: ListQueue<bool>)
    requires s.b.queue == q
    ensures s.(b := s.b.(queue := q)) == s
  {
  }

  lemma TakeIsSeen(sys: System, of: SessionId)
    requires Possible(sys, TakeHead) && of in sys.sessions
    ensures View(After(sys, TakeHead), of) == Seeing(sys, TakeHead, of)
  {
  }

  lemma DropIsSeen(sys: System, of: SessionId)
    requires Possible(sys, DropAll) && of in sys.sessions
    ensures View(After(sys, DropAll), of) == Seeing(sys, DropAll, of)
  {
  }

  /** A move is, for each session, the step it sees, or nothing. */
  lemma MoveIsSeen(sys: System, m: Move, id: SessionId)
    requires Possible(sys, m) && id in sys.sessions
    requires forall x | x in sys.sessions :: Named(sys, x)
    ensures id in After(sys, m).sessions && View(After(sys, m), id) == Seeing(sys, m, id)
  {
    match m
    case By(mover, step) => StepIsSeen(sys, mover, step, id);
    case TakeHead => TakeIsSeen(sys, id);
    case DropAll => DropIsSeen(sys, id);
  }

  lemma NamesStay(sys: System, m: Move)
    requires Possible(sys, m)
    requires forall x | x in sys.sessions :: Named(sys, x)
    ensures After(sys, m).sessions.Keys == sys.sessions.Keys
    ensures forall x | x in After(sys, m).sessions :: Named(After(sys, m), x)
  {
  }

  // ------------------------------------------------------------------ whole runs

  predicate Moves(sys: System, ms: seq<Move>)
    decreases |ms|
  {
    ms == [] || (Possible(sys, ms[0]) && Moves(After(sys, ms[0]), ms[1..]))
  }

  function Play(sys: System, ms: seq<Move>): System
    requires Moves(sys, ms)
    decreases |ms|
  {
    if ms == [] then sys else Play(After(sys, ms[0]), ms[1..])
  }

  /** Every run of the shared system is, seen by one session, a run of that session alone. */
  lemma {:induction false} EachSessionRunsAlone(sys: System, ms: seq<Move>, id: SessionId) returns (steps: seq<Step>)
    requires Moves(sys, ms) && id in sys.sessions
    requires forall x | x in sys.sessions :: Named(sys, x)
    ensures Play(sys, ms).sessions.Keys == sys.sessions.Keys
    ensures Legal(View(sys, id), steps) && Run(View(sys, id), steps) == View(Play(sys, ms), id)
    decreases |ms|
  {
    if ms == [] {
      steps := [];
    } else {
      MoveIsSeen(sys, ms[0], id);
      NamesStay(sys, ms[0]);
      var rest := EachSessionRunsAlone(After(sys, ms[0]), ms[1..], id);
      steps := Seen(sys, ms[0], id) + rest;
      assert Seen(sys, ms[0], id) != [] ==> steps[1..] == rest;
      assert Seen(sys, ms[0], id) == [] ==> steps == rest;
    }
  }

  /** Each session's share of the shared queue obeys the published bound, and its slots, its view and
      its account are its own, whatever the other sessions do. */
  lemma EverySessionIsBounded(sys: System, ms: seq<Move>, id: SessionId)
    requires Start(sys) && Moves(sys, ms) && id in sys.sessions
    ensures id in Play(sys, ms).sessions && Inv(View(Play(sys, ms), id))
    ensures |Share(Play(sys, ms).queue.items, id)| <= 3 * sys.sessions[id].limit + sys.cap + 3
  {
    assert Init(View(sys, id));
    var steps := EachSessionRunsAlone(sys, ms, id);
    Reached(View(sys, id), steps);
    QueueIsBounded(View(sys, id), steps);
  }

  // ------------------------------------------------------------------ the whole queue

  predicate AllOf(q: seq<Queued<bool>>, ids: set<SessionId>) {
    forall i | 0 <= i < |q| :: q[i].event.session in ids
  }

  lemma EmitKeepsOwners(sys: System, id: SessionId, step: Step)
    requires Possible(sys, By(id, step)) && Named(sys, id) && AllOf(sys.queue.items, sys.sessions.Keys)
    ensures AllOf(EmitShared(sys, id, step).items, sys.sessions.Keys)
  {
  }

  lemma {:induction false} OwnersStay(sys: System, ms: seq<Move>)
    requires Moves(sys, ms) && AllOf(sys.queue.items, sys.sessions.Keys)
    requires forall x | x in sys.sessions :: Named(sys, x)
    ensures AllOf(Play(sys, ms).queue.items, sys.sessions.Keys)
    decreases |ms|
  {
    if ms != [] {
      if ms[0].By? {
        EmitKeepsOwners(sys, ms[0].id, ms[0].step);
      }
      NamesStay(sys, ms[0]);
      OwnersStay(After(sys, ms[0]), ms[1..]);
    }
  }

  /** The queue without one session's events. */
  function Without(q: seq<Queued<bool>>, id: SessionId): seq<Queued<bool>> {
    if q == [] then [] else (if q[0].event.session == id then [] else [q[0]]) + Without(q[1..], id)
  }

  lemma {:induction false} SplitOff(q: seq<Queued<bool>>, id: SessionId, ids: set<SessionId>, of: SessionId)
    requires AllOf(q, ids) && of != id
    ensures |q| == |Share(q, id)| + |Without(q, id)|
    ensures AllOf(Without(q, id), ids - {id}) && Share(Without(q, id), of) == Share(q, of)
  {
    if q != [] {
      var rest := Without(q[1..], id);
      SplitOff(q[1..], id, ids, of);
      assert ([q[0]] + rest)[1..] == rest;
      assert Without(q, id) == if q[0].event.session == id then rest else [q[0]] + rest;
    }
  }

  lemma {:induction false} SharesAddUp(q: seq<Queued<bool>>, ids: set<SessionId>, bound: nat)
    requires AllOf(q, ids) && forall id | id in ids :: |Share(q, id)| <= bound
    ensures |q| <= |ids| * bound
    decreases |ids|
  {
    if ids == {} {
      assert q == [];
    } else {
      var id :| id in ids;
      var rest, fewer := Without(q, id), ids - {id};
      SplitOff(q, id, ids, id + 1);
      forall of | of in fewer ensures |Share(rest, of)| <= bound {
        SplitOff(q, id, ids, of);
      }
      SharesAddUp(rest, fewer, bound);
      OneMore(|fewer|, bound);
    }
  }

  lemma OneMore(n: nat, bound: nat)
    ensures (n + 1) * bound == n * bound + bound
  {
  }

  /** If B bounds 3R + U + 3 for every session, N sessions never have more than N * B events queued
      between them. */
  lemma WholeQueueIsBounded(sys: System, ms: seq<Move>, bound: nat)
    requires Start(sys) && Moves(sys, ms)
    requires forall id | id in sys.sessions :: 3 * sys.sessions[id].limit + sys.cap + 3 <= bound
    ensures |Play(sys, ms).queue.items| <= |sys.sessions.Keys| * bound
  {
    OwnersStay(sys, ms);
    var q, ids := Play(sys, ms).queue.items, sys.sessions.Keys;
    forall id | id in ids ensures |Share(q, id)| <= bound {
      EverySessionIsBounded(sys, ms, id);
    }
    SharesAddUp(q, ids, bound);
  }
}
