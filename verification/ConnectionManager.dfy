/** The connection manager in place: the pending conversations by request, and the list of profiles. */
module ConnectionManager {
  import opened ConnectionSpec
  import opened Wrappers

  function Listed(rows: map<nat, Fields>, c: ListChange): map<nat, Fields> {
    match c
    case Keep => rows
    case Upsert(id, fields) => rows[id := fields]
    case Remove(id) => rows - {id}
  }

  class ConnectionManager {
    var pending: map<nat, Op>
    var nextRequest: nat
    var rows: map<nat, Fields>
    var signals: seq<Signal>
    var sent: seq<Request>           // what the service was asked, in order

    predicate Valid()
      reads this
    {
      forall r | r in pending :: r < nextRequest
    }

    constructor ()
      ensures Valid() && pending == map[] && rows == map[] && signals == [] && sent == []
    {
      pending, nextRequest, rows, signals, sent := map[], 1, map[], [], [];
    }

    /** Hands a first request over. An accepted conversation has one pending entry and no signal yet;
        a refused one is over with its one failure. */
    method Begin(asked: Asked, failure: Signal, accepted: bool) returns (ok: bool)
      requires Valid()
      modifies this
      ensures Valid() && ok == accepted && rows == old(rows)
      ensures accepted ==> && pending == old(pending)[old(nextRequest) := asked.op] && old(nextRequest) !in old(pending)
                           && sent == old(sent) + [asked.request] && signals == old(signals)
      ensures !accepted ==> pending == old(pending) && sent == old(sent) && signals == old(signals) + [failure]
    {
      var request := nextRequest;
      nextRequest := nextRequest + 1;
      if !accepted {
        signals := signals + [failure];
        return false;
      }
      pending := pending[request := asked.op];
      sent := sent + [asked.request];
      ok := true;
    }

    method CreateProfile(fields: Fields, password: string, accepted: bool) returns (ok: bool)
      requires Valid()
      modifies this
      ensures Valid() && ok == accepted && rows == old(rows)
      ensures accepted ==> && pending == old(pending)[old(nextRequest) := StartCreate(fields, password).op]
                           && |pending| == |old(pending)| + 1 && signals == old(signals)
                           && sent == old(sent) + [SaveNew(fields.(storage := PromptEachTime))]
      ensures !accepted ==> pending == old(pending) && sent == old(sent) && signals == old(signals) + [SaveFailed]
    {
      ok := Begin(StartCreate(fields, password), SaveFailed, accepted);
    }

    method UpdateProfile(id: nat, fields: Fields, password: string, accepted: bool) returns (ok: bool)
      requires Valid()
      modifies this
      ensures Valid() && ok == accepted && rows == old(rows)
      ensures var before := if id in old(rows) then Some(old(rows)[id]) else None;
              var had := before.Some? && before.value.storage == CredentialStore && before.value.auth == Password;
              var wants := fields.storage == CredentialStore && fields.auth == Password;
              accepted ==> && pending == old(pending)[old(nextRequest) := StartUpdate(id, before, fields, password).op]
                           && |pending| == |old(pending)| + 1 && signals == old(signals)
                           && sent == old(sent) + [if wants && password != "" then PutSecret(id, password)
                                                   else if had && !wants then DropSecret(id)
                                                   else Save(id, fields)]
      ensures !accepted ==> pending == old(pending) && sent == old(sent) && signals == old(signals) + [SaveFailed]
    {
      var before := if id in rows then Some(rows[id]) else None;
      ok := Begin(StartUpdate(id, before, fields, password), SaveFailed, accepted);
    }

    method DeleteProfile(id: nat, accepted: bool) returns (ok: bool)
      requires Valid()
      modifies this
      ensures Valid() && ok == accepted && rows == old(rows)
      ensures accepted ==> && pending == old(pending)[old(nextRequest) := StartDelete(id).op]
                           && |pending| == |old(pending)| + 1 && signals == old(signals)
                           && sent == old(sent) + [DropSecret(id)]
      ensures !accepted ==> pending == old(pending) && sent == old(sent) && signals == old(signals) + [DeleteFailed]
    {
      ok := Begin(StartDelete(id), DeleteFailed, accepted);
    }

    /** A reply moves its own conversation one step and touches no other. An unknown request is
        ignored. The entry is replaced by the follow-up's, or removed with the conversation's end. */
    method HandleReply(request: nat, reply: Reply)
      requires Valid()
      modifies this
      ensures Valid()
      ensures request !in old(pending) ==> unchanged(`pending, `rows, `signals, `sent)
      ensures request in old(pending) ==>
                var o := Continue(old(pending)[request], reply);
                && signals == old(signals) + o.signals && rows == Listed(old(rows), o.list)
                && pending == (old(pending) - {request})
                              + (if o.next.Some? then map[old(nextRequest) := o.next.value.op] else map[])
                && sent == old(sent) + (if o.next.Some? then [o.next.value.request] else [])
    {
      if request !in pending {
        return;
      }
      var o := Continue(pending[request], reply);
      pending := pending - {request};
      signals := signals + o.signals;
      rows := Listed(rows, o.list);
      if o.next.Some? {
        pending := pending[nextRequest := o.next.value.op];
        sent := sent + [o.next.value.request];
        nextRequest := nextRequest + 1;
      }
    }
  }
}
