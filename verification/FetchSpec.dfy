/** The fetch pipeline of a session controller as a value: what each call and each event does to its
    bookkeeping. The class in FetchPipeline.dfy does the same in place. */
module FetchSpec {

  /** What an outstanding request will be answered with; a fetch names the result it reads. */
  datatype Kind = Execution | Fetch(result: nat) | Other

  datatype Ctl = Ctl(
    outstanding: map<nat, Kind>, nextId: nat,
    inFlight: nat, max: nat, auto: bool, pending: nat,
    hasResult: bool, exhausted: bool, resultId: nat,
    rowLimit: bool,              // the model takes no more rows of this result
    short: bool,                 // a fetch of this result failed or was refused since its slots were last filled
    terminated: bool)

  datatype Executed = ExecuteFailed | NoResult | WithResult(result: nat)
  datatype Fetched = FetchFailed | Rows(overflow: bool) | Empty

  // ------------------------------------------------------------------ submitting fetches

  predicate WantsRows(c: Ctl) { c.hasResult && !c.exhausted && !c.rowLimit }

  predicate MaySubmit(c: Ctl) { c.inFlight < c.max && (c.auto || c.pending > 0) }

  function SubmitOne(c: Ctl): Ctl {
    c.(outstanding := c.outstanding[c.nextId := Fetch(c.resultId)], nextId := c.nextId + 1,
       inFlight := c.inFlight + 1,
       pending := if c.auto || c.pending == 0 then c.pending else c.pending - 1)
  }

  /** Submits while there is room and a reason; `room` is how many the hub accepts before it refuses. */
  function SubmitAll(c: Ctl, room: nat): Ctl
    decreases c.max - c.inFlight
  {
    if !MaySubmit(c) then c.(short := false)
    else if room == 0 then c.(nextId := c.nextId + 1, short := true)
    else SubmitAll(SubmitOne(c), room - 1)
  }

  function SubmitFetches(c: Ctl, room: nat): Ctl {
    if WantsRows(c) then SubmitAll(c, room) else c
  }

  // ------------------------------------------------------------------ calls

  function Request(c: Ctl, kind: Kind, accepted: bool): Ctl {
    c.(nextId := c.nextId + 1, outstanding := if accepted then c.outstanding[c.nextId := kind] else c.outstanding)
  }

  /** The result being replaced is closed; fetches against it stay counted. */
  function Cleared(c: Ctl, closeAccepted: bool): Ctl {
    (if c.resultId != 0 then Request(c, Other, closeAccepted) else c)
    .(resultId := 0, hasResult := false, exhausted := false, pending := 0, rowLimit := false, short := false)
  }

  function OnExecute(c: Ctl, closeAccepted: bool, accepted: bool): Ctl {
    Request(Cleared(c, closeAccepted), Execution, accepted)
  }

  function OnCloseResult(c: Ctl, accepted: bool): Ctl {
    if c.resultId == 0 then c
    else
      var asked := Request(c, Other, accepted);
      if accepted then asked.(resultId := 0, hasResult := false, exhausted := true, rowLimit := false) else asked
  }

  function OnFetchMore(c: Ctl, room: nat): Ctl {
    if !WantsRows(c) || c.resultId == 0 then c
    else if c.auto then SubmitFetches(c, room)
    else SubmitFetches(Asked(c), room)
  }

  // ------------------------------------------------------------------ events

  function Erase(c: Ctl, request: nat): Ctl { c.(outstanding := c.outstanding - {request}) }

  /** The result of an execute becomes the current one. */
  function Adopted(c: Ctl, result: nat): Ctl {
    c.(resultId := result, hasResult := true, rowLimit := false, short := false)
  }

  function OnExecuted(c: Ctl, request: nat, e: Executed, room: nat): Ctl {
    var known := Erase(c, request);
    if c.terminated then known
    else if e.WithResult? then SubmitFetches(Adopted(known, e.result), room)
    else known
  }

  /** The reply of a fetch frees its slot. */
  function Freed(c: Ctl, request: nat): Ctl {
    Erase(c, request).(inFlight := if c.inFlight == 0 then 0 else c.inFlight - 1)
  }

  /** One more ask of the view, of which no more are kept than fit in flight. */
  function Asked(c: Ctl): Ctl {
    c.(pending := if c.pending + 1 < c.max then c.pending + 1 else c.max)
  }

  /** A reply for a result that is gone hands its slot to the current one. */
  function OnFetched(c: Ctl, request: nat, result: nat, f: Fetched, room: nat): Ctl {
    var known := Erase(c, request);
    if c.terminated then known
    else
      var freed := Freed(c, request);
      if !c.hasResult || result != c.resultId then SubmitFetches(freed, room)
      else match f
        case FetchFailed => freed.(short := true)
        case Rows(overflow) => SubmitFetches(freed.(rowLimit := c.rowLimit || overflow), room)
        case Empty => SubmitFetches(freed.(exhausted := true), room)
  }

  // ------------------------------------------------------------------ what is kept

  function Fetches(m: map<nat, Kind>): set<nat> { set r | r in m && m[r].Fetch? }

  /** The counter is the number of unanswered fetches, and stays within the limit. */
  predicate Counted(c: Ctl) {
    && c.max > 0 && c.pending <= c.max
    && (forall r | r in c.outstanding :: r < c.nextId)
    && (!c.terminated ==> c.inFlight == |Fetches(c.outstanding)| && c.inFlight <= c.max)
  }

  /** Rows wanted and none of their fetches failed: every slot is in use. */
  predicate Flowing(c: Ctl) {
    WantsRows(c) && !c.short && !c.terminated && (c.auto || c.pending > 0) ==> c.inFlight == c.max
  }

  lemma FetchesAdd(m: map<nat, Kind>, r: nat, k: Kind)
    requires r !in m
    ensures |Fetches(m[r := k])| == |Fetches(m)| + (if k.Fetch? then 1 else 0)
  {
    assert Fetches(m[r := k]) == if k.Fetch? then Fetches(m) + {r} else Fetches(m);
  }

  lemma FetchesErase(m: map<nat, Kind>, r: nat)
    requires r in m
    ensures |Fetches(m - {r})| == |Fetches(m)| - (if m[r].Fetch? then 1 else 0)
  {
    assert Fetches(m - {r}) == Fetches(m) - {r};
  }

  lemma {:induction false} SubmitAllKeeps(c: Ctl, room: nat)
    requires Counted(c) && !c.terminated
    ensures var n := SubmitAll(c, room);
            && Counted(n) && (n.short <==> MaySubmit(n))
            && n == c.(outstanding := n.outstanding, nextId := n.nextId, inFlight := n.inFlight, pending := n.pending,
                       short := n.short)
            && c.inFlight <= n.inFlight
            && n.pending == (if c.auto then c.pending else c.pending - (n.inFlight - c.inFlight))
            && (c.max <= c.inFlight + room ==> !n.short)
    decreases c.max - c.inFlight
  {
    if MaySubmit(c) && room > 0 {
      FetchesAdd(c.outstanding, c.nextId, Fetch(c.resultId));
      SubmitAllKeeps(SubmitOne(c), room - 1);
    }
  }

  /** Every id handed out so far is below the next. */
  predicate Fresh(c: Ctl) { forall r | r in c.outstanding :: r < c.nextId }

  function NewFetches(c: Ctl, n: Ctl): set<nat> { Fetches(n.outstanding) - Fetches(c.outstanding) }

  lemma OneMoreFetch(c: Ctl)
    requires Fresh(c)
    ensures var n := SubmitOne(c);
            && Fresh(n) && c.nextId !in Fetches(c.outstanding)
            && Fetches(n.outstanding) == Fetches(c.outstanding) + {c.nextId}
  {
  }

  lemma OneMoreNew(all: set<nat>, some: set<nat>, x: nat)
    requires x !in some && some + {x} <= all
    ensures |all - some| == |all - (some + {x})| + 1
  {
    assert all - some == (all - (some + {x})) + {x};
  }

  /** Without automatic fetching each fetch submitted uses up one ask, and none is used up otherwise. */
  lemma {:induction false} SubmittingUsesAsks(c: Ctl, room: nat)
    requires Fresh(c) && !c.auto
    ensures var n := SubmitAll(c, room);
            && Fresh(n) && Fetches(c.outstanding) <= Fetches(n.outstanding)
            && |NewFetches(c, n)| + n.pending == c.pending
    decreases c.max - c.inFlight
  {
    var n := SubmitAll(c, room);
    if MaySubmit(c) && room > 0 {
      OneMoreFetch(c);
      SubmittingUsesAsks(SubmitOne(c), room - 1);
      OneMoreNew(Fetches(n.outstanding), Fetches(c.outstanding), c.nextId);
    } else {
      assert n.outstanding == c.outstanding && NewFetches(c, n) == {};
    }
  }

  lemma SubmitKeeps(c: Ctl, room: nat)
    requires Counted(c) && !c.terminated
    ensures Counted(SubmitFetches(c, room)) && Flowing(SubmitFetches(c, room))
  {
    SubmitAllKeeps(c, room);
  }

  lemma RequestKeeps(c: Ctl, kind: Kind, accepted: bool)
    requires Counted(c) && !kind.Fetch?
    ensures Counted(Request(c, kind, accepted))
  {
    FetchesAdd(c.outstanding, c.nextId, kind);
  }
}
