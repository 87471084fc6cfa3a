/** The session controller's fetch pipeline in place, with its submit loop. */
module FetchPipeline {
  import opened FetchSpec
  import FetchTheorems

  class SessionController {
    var outstanding: map<nat, Kind>
    var nextId: nat
    var fetchesInFlight: nat
    const maxFetchesInFlight: nat
    const autoFetch: bool
    var pendingFetchRequests: nat
    var hasResult: bool
    var exhausted: bool
    var resultId: nat
    var rowLimitReached: bool        // the model's
    ghost var short: bool            // a fetch failed or was refused since the slots were last filled
    var terminated: bool

    ghost function Abs(): Ctl
      reads this
    {
      Ctl(outstanding, nextId, fetchesInFlight, maxFetchesInFlight, autoFetch, pendingFetchRequests,
          hasResult, exhausted, resultId, rowLimitReached, short, terminated)
    }

    /** The counter is the number of unanswered fetches, within the limit, and every slot is in use
        while rows are wanted and none of their fetches failed. */
    ghost predicate Valid()
      reads this
    {
      Counted(Abs()) && Flowing(Abs())
    }

    constructor (max: nat, auto: bool)
      requires max > 0
      ensures Valid()
      ensures Abs() == Ctl(map[], 1, 0, max, auto, 0, false, false, 0, false, false, false)
    {
      outstanding, nextId, fetchesInFlight, maxFetchesInFlight, autoFetch := map[], 1, 0, max, auto;
      pendingFetchRequests, hasResult, exhausted, resultId := 0, false, false, 0;
      rowLimitReached, short, terminated := false, false, false;
      new;
      assert Fetches(outstanding) == {};
    }

    /** Asks the hub; a refused request is forgotten again. */
    method Submit(kind: Kind, accepted: bool)
      modifies this`outstanding, this`nextId
      ensures Abs() == Request(old(Abs()), kind, accepted)
    {
      var request := nextId;
      nextId := nextId + 1;
      if accepted {
        outstanding := outstanding[request := kind];
      }
    }

    method SubmitFetches(room: nat)
      modifies this
      ensures Abs() == FetchSpec.SubmitFetches(old(Abs()), room)
    {
      if !hasResult || exhausted || rowLimitReached {
        return;
      }
      var left := room;
      while fetchesInFlight < maxFetchesInFlight && (autoFetch || pendingFetchRequests > 0)
        invariant SubmitAll(Abs(), left) == SubmitAll(old(Abs()), room)
        decreases maxFetchesInFlight - fetchesInFlight
      {
        if left == 0 {
          nextId := nextId + 1;
          short := true;
          return;
        }
        left := left - 1;
        outstanding := outstanding[nextId := Fetch(resultId)];
        nextId := nextId + 1;
        fetchesInFlight := fetchesInFlight + 1;
        if !autoFetch {
          pendingFetchRequests := pendingFetchRequests - 1;
        }
      }
      short := false;
    }

    /** Afterwards there is no result and nothing stops the next one; the fetches of the replaced
        result are still counted, because their replies are still to come. */
    method Execute(closeAccepted: bool, accepted: bool) returns (ok: bool)
      modifies this
      ensures Abs() == OnExecute(old(Abs()), closeAccepted, accepted) && ok == accepted
      ensures !hasResult && !exhausted && !rowLimitReached && resultId == 0 && pendingFetchRequests == 0
      ensures old(Valid()) ==> Valid() && fetchesInFlight == old(fetchesInFlight)
                               && Fetches(outstanding) == old(Fetches(outstanding))
    {
      ghost var before := Abs();
      Restart(closeAccepted, accepted);
      ok := accepted;
      if Counted(before) && Flowing(before) {
        FetchTheorems.CallsKeep(before, FetchTheorems.Execute(closeAccepted, accepted));
        ExecuteKeepsFetches(before, closeAccepted, accepted);
      }
    }

    method Restart(closeAccepted: bool, accepted: bool)
      modifies this
      ensures Abs() == OnExecute(old(Abs()), closeAccepted, accepted)
    {
      if resultId != 0 {
        Submit(Other, closeAccepted);
      }
      short, rowLimitReached := false, false;
      resultId, hasResult, exhausted, pendingFetchRequests := 0, false, false, 0;
      Submit(Execution, accepted);
    }

    method CloseResult(accepted: bool) returns (ok: bool)
      modifies this
      ensures Abs() == OnCloseResult(old(Abs()), accepted)
      ensures ok <==> old(resultId) != 0 && accepted
      ensures ok ==> !hasResult && exhausted && resultId == 0 && !rowLimitReached
      ensures !ok ==> hasResult == old(hasResult) && exhausted == old(exhausted) && resultId == old(resultId)
      ensures fetchesInFlight == old(fetchesInFlight)
    {
      if resultId == 0 {
        return false;
      }
      Submit(Other, accepted);
      if !accepted {
        return false;
      }
      resultId, hasResult, exhausted, rowLimitReached := 0, false, true, false;
      ok := true;
    }

    /** An ask is taken up: there is a result, with rows left, that takes more of them. */
    ghost predicate Asks()
      reads this
    {
      hasResult && !exhausted && resultId != 0 && !rowLimitReached
    }

    /** Whatever is asked for is asked of the current result, and never more than fits in flight. Without
        automatic fetching an ask becomes one fetch, now or when a slot is free, and no more. */
    method FetchMoreRows(room: nat)
      modifies this
      ensures Abs() == OnFetchMore(old(Abs()), room)
      ensures old(Valid()) ==> Valid() && forall r | r in outstanding && r !in old(outstanding) ::
              outstanding[r] == Fetch(resultId)
      ensures hasResult == old(hasResult) && resultId == old(resultId) && exhausted == old(exhausted)
      ensures old(Valid()) && !terminated && !autoFetch ==>
                fetchesInFlight + pendingFetchRequests
                == old(fetchesInFlight) + (if old(Asks()) then Min(old(pendingFetchRequests) + 1, maxFetchesInFlight)
                                           else old(pendingFetchRequests))
      ensures old(Valid()) && !terminated && autoFetch ==> pendingFetchRequests == old(pendingFetchRequests)
      ensures old(Valid()) && !terminated && autoFetch && old(Asks())
              && maxFetchesInFlight <= old(fetchesInFlight) + room ==>
                fetchesInFlight == maxFetchesInFlight
    {
      ghost var before := Abs();
      if !hasResult || exhausted || resultId == 0 || rowLimitReached {
        return;
      }
      if !autoFetch {
        pendingFetchRequests :=
          if pendingFetchRequests + 1 < maxFetchesInFlight then pendingFetchRequests + 1 else maxFetchesInFlight;
      }
      SubmitFetches(room);
      FetchTheorems.FetchMoreKeepsResult(before, room);
      if Counted(before) && Flowing(before) {
        FetchTheorems.CallsKeep(before, FetchTheorems.FetchMore(room));
        FetchTheorems.SubmittedAreFor(before, room);
        FetchTheorems.SubmittedAreFor(Asked(before), room);
        if !before.terminated {
          SubmitAllKeeps(if before.auto then before else Asked(before), room);
        }
      }
    }

    /** A result becomes the current one and is fetched at once, unless the flag is still set from
        the one before it; then nothing is asked of it. */
    method HandleExecuted(request: nat, e: Executed, room: nat)
      modifies this
      ensures Abs() == OnExecuted(old(Abs()), request, e, room)
      ensures old(Valid()) && request in old(outstanding) && old(outstanding)[request] == Execution ==> Valid()
      ensures e.WithResult? && !terminated ==> hasResult && resultId == e.result && exhausted == old(exhausted)
      ensures e.WithResult? && old(exhausted) ==>
              fetchesInFlight == old(fetchesInFlight) && outstanding == old(outstanding) - {request}
    {
      ghost var before := Abs();
      FetchTheorems.ExecutedSetsResult(before, request, e, room);
      if Counted(before) && Flowing(before) && request in outstanding && outstanding[request] == Execution {
        FetchTheorems.ExecutedKeeps(before, request, e, room);
      }
      outstanding := outstanding - {request};
      if terminated {
        return;
      }
      if e.WithResult? {
        resultId, hasResult, rowLimitReached, short := e.result, true, false, false;
        SubmitFetches(room);
      }
    }

    /** A reply frees one slot, and the slot goes to the current result even when the reply was for
        another; only the current result's own empty batch sets the flag. */
    method HandleFetched(request: nat, result: nat, f: Fetched, room: nat)
      modifies this
      ensures Abs() == OnFetched(old(Abs()), request, result, f, room)
      ensures old(Valid()) && request in old(outstanding) && old(outstanding)[request] == Fetch(result) ==> Valid()
      ensures hasResult == old(hasResult) && resultId == old(resultId)
      ensures exhausted == (old(exhausted) || (!terminated && hasResult && result == resultId && f.Empty?))
      ensures rowLimitReached
              == (old(rowLimitReached) || (!terminated && hasResult && result == resultId && f == Rows(true)))
      ensures exhausted || rowLimitReached || !hasResult ==> outstanding == old(outstanding) - {request}
    {
      ghost var before := Abs();
      TakeFetched(request, result, f, room);
      FetchTheorems.FetchedSetsFlag(before, request, result, f, room);
      if Counted(before) && Flowing(before) && request in before.outstanding
          && before.outstanding[request] == Fetch(result) {
        FetchTheorems.FetchedKeeps(before, request, f, room);
      }
    }

    method TakeFetched(request: nat, result: nat, f: Fetched, room: nat)
      modifies this
      ensures Abs() == OnFetched(old(Abs()), request, result, f, room)
    {
      outstanding := outstanding - {request};
      if terminated {
        return;
      }
      fetchesInFlight := if fetchesInFlight == 0 then 0 else fetchesInFlight - 1;
      if !hasResult || result != resultId {
        SubmitFetches(room);
        return;
      }
      match f
      case FetchFailed =>
        short := true;
      case Rows(overflow) =>
        rowLimitReached := rowLimitReached || overflow;
        SubmitFetches(room);
      case Empty =>
        exhausted := true;
        if fetchesInFlight > 0 {
          SubmitFetches(room);
        }
    }

    method HandleTerminal()
      modifies this
      ensures Abs() == old(Abs()).(terminated := true)
    {
      terminated := true;
    }
  }

  function Min(a: nat, b: nat): nat { if a <= b then a else b }

  /** An execute leaves every unanswered fetch where it is. */
  lemma ExecuteKeepsFetches(c: Ctl, closeAccepted: bool, accepted: bool)
    requires Counted(c)
    ensures Fetches(OnExecute(c, closeAccepted, accepted).outstanding) == Fetches(c.outstanding)
  {
    var cleared := Cleared(c, closeAccepted);
    assert Fetches(cleared.outstanding) == Fetches(c.outstanding);
  }
}
