/** What a finished conversation leaves, for every way its replies can turn out: the rows and secrets
    the service holds, the rows the list shows, what was asked and what was signalled, profile by
    profile. */
module ConnectionStore {
  import opened ConnectionSpec
  import opened ConnectionManager
  import opened Wrappers

  datatype Service = Service(
    rows: map<nat, Fields>, secrets: map<nat, string>,
    listed: map<nat, Fields>,
    talk: Option<Op>, asked: seq<Request>, signals: seq<Signal>)

  /** The service carries out a request only if it answers without an error; it names a new profile. */
  function Served(v: Service, q: Request, r: Reply): Service {
    if !r.ok then v
    else match q
      case SaveNew(fields) => v.(rows := v.rows[r.id := fields])
      case Save(id, fields) => v.(rows := v.rows[id := fields])
      case PutSecret(id, password) => v.(secrets := v.secrets[id := password])
      case DropSecret(id) => v.(secrets := v.secrets - {id})
      case DropProfile(id) => v.(rows := v.rows - {id})
  }

  /** The answer to the newest request is handled; a finished conversation hears nothing. */
  function Answered(v: Service, r: Reply): Service {
    if v.talk.None? || v.asked == [] then v
    else
      var served := Served(v, v.asked[|v.asked| - 1], r);
      var o := Continue(v.talk.value, r);
      served.(listed := Listed(v.listed, o.list), signals := v.signals + o.signals,
              talk := if o.next.Some? then Some(o.next.value.op) else None,
              asked := v.asked + (if o.next.Some? then [o.next.value.request] else []))
  }

  function Begun(v: Service, a: Asked): Service {
    v.(talk := Some(a.op), asked := [a.request], signals := [])
  }

  function AnsweredAll(v: Service, replies: seq<Reply>): Service
    decreases |replies|
  {
    if replies == [] then v else AnsweredAll(Answered(v, replies[0]), replies[1..])
  }

  lemma {:induction false} OverIsOver(v: Service, replies: seq<Reply>)
    requires v.talk.None?
    ensures AnsweredAll(v, replies) == v
    decreases |replies|
  {
    if replies != [] {
      OverIsOver(v, replies[1..]);
    }
  }

  /** A conversation that is over after so many replies is the same after more. */
  lemma OverAfterOne(v: Service, replies: seq<Reply>)
    requires |replies| >= 1 && Answered(v, replies[0]).talk.None?
    ensures AnsweredAll(v, replies) == Answered(v, replies[0])
  {
    OverIsOver(Answered(v, replies[0]), replies[1..]);
  }

  lemma OverAfterTwo(v: Service, replies: seq<Reply>)
    requires |replies| >= 2 && Answered(Answered(v, replies[0]), replies[1]).talk.None?
    ensures AnsweredAll(v, replies) == Answered(Answered(v, replies[0]), replies[1])
  {
    OverAfterOne(Answered(v, replies[0]), replies[1..]);
  }

  lemma OverAfterThree(v: Service, replies: seq<Reply>)
    requires |replies| >= 3 && Answered(Answered(Answered(v, replies[0]), replies[1]), replies[2]).talk.None?
    ensures AnsweredAll(v, replies) == Answered(Answered(Answered(v, replies[0]), replies[1]), replies[2])
  {
    assert replies[1..][1] == replies[2];
    OverAfterTwo(Answered(v, replies[0]), replies[1..]);
  }

  // ------------------------------------------------------------------ updating

  function Warnings(warned: bool): seq<Signal> { if warned then [Warning] else [] }

  /** What an update leaves that took a step with the password first: that step done if it was answered
      without an error; then the edited fields, with this storage, in store and list alike and reported
      as saved, if the save was handed over and answered; otherwise neither, and a failure. */
  predicate LeavesUpdate(v: Service, n: Service, id: nat, final: Fields, first: Request, a: Reply, b: Reply,
                         warned: bool)
  {
    var saved := a.accepted && b.ok;
    && n.talk.None?
    && n.asked == [first] + (if a.accepted then [Save(id, final)] else [])
    && n.rows == (if saved then v.rows[id := final] else v.rows)
    && n.listed == (if saved then v.listed[id := final] else v.listed)
    && n.signals == Warnings(warned) + [if saved then Saved(id, false) else SaveFailed]
  }

  /** The row the list shows for a profile. */
  function RowOf(v: Service, id: nat): Option<Fields> { if id in v.listed then Some(v.listed[id]) else None }

  /** The profile itself is saved, and with that the update is over. */
  lemma SaveAnswered(v: Service, op: Op, r: Reply)
    requires v.talk == Some(op) && op.at == UpdateAwaitingSave && v.asked != []
    requires v.asked[|v.asked| - 1] == Save(op.id, op.fields)
    ensures Answered(v, r)
            == Service(if r.ok then v.rows[op.id := op.fields] else v.rows, v.secrets,
                       if r.ok then v.listed[op.id := op.fields] else v.listed, None, v.asked,
                       v.signals + [if r.ok then Saved(op.id, false) else SaveFailed])
  {
    assert v.asked + [] == v.asked;
  }

  /** After the step with the password, the save is handed over or the update has failed. */
  predicate TookFirst(v: Service, n: Service, id: nat, final: Fields, first: Request, a: Reply, warned: bool) {
    && n.rows == v.rows && n.listed == v.listed
    && n.signals == Warnings(warned) + (if a.accepted then [] else [SaveFailed])
    && n.asked == [first] + (if a.accepted then [Save(id, final)] else [])
    && (n.talk.Some? <==> a.accepted)
    && (n.talk.Some? ==> n.talk.value.at == UpdateAwaitingSave && n.talk.value.id == id && n.talk.value.fields == final)
  }

  lemma SaveFollows(v: Service, w: Service, id: nat, final: Fields, first: Request, replies: seq<Reply>, warned: bool)
    requires |replies| >= 2 && TookFirst(v, Answered(w, replies[0]), id, final, first, replies[0], warned)
    ensures LeavesUpdate(v, AnsweredAll(w, replies), id, final, first, replies[0], replies[1], warned)
    ensures AnsweredAll(w, replies).secrets == Answered(w, replies[0]).secrets
  {
    var n := Answered(w, replies[0]);
    if n.talk.Some? {
      SaveAnswered(n, n.talk.value, replies[1]);
      assert Warnings(warned) + [] == Warnings(warned);
      OverAfterTwo(w, replies);
    } else {
      OverAfterOne(w, replies);
    }
  }

  lemma PutAnswered(v: Service, id: nat, fields: Fields, password: string, a: Reply)
    requires fields.storage == CredentialStore && fields.auth == Password && password != ""
    ensures var n := Answered(Begun(v, StartUpdate(id, RowOf(v, id), fields, password)), a);
            var final := fields.(storage := if a.ok then CredentialStore else PromptEachTime);
            && TookFirst(v, n, id, final, PutSecret(id, password), a, !a.ok)
            && n.secrets == (if a.ok then v.secrets[id := password] else v.secrets)
  {
  }

  /** Saving a new password: the profile says "credential store" exactly if the password was stored. */
  lemma TypedUpdateLeaves(v: Service, id: nat, fields: Fields, password: string, replies: seq<Reply>)
    requires |replies| >= 2 && fields.storage == CredentialStore && fields.auth == Password && password != ""
    ensures var n := AnsweredAll(Begun(v, StartUpdate(id, RowOf(v, id), fields, password)), replies);
            var final := fields.(storage := if replies[0].ok then CredentialStore else PromptEachTime);
            && LeavesUpdate(v, n, id, final, PutSecret(id, password), replies[0], replies[1], !replies[0].ok)
            && n.secrets == (if replies[0].ok then v.secrets[id := password] else v.secrets)
  {
    var a := replies[0];
    var final := fields.(storage := if a.ok then CredentialStore else PromptEachTime);
    PutAnswered(v, id, fields, password, a);
    SaveFollows(v, Begun(v, StartUpdate(id, RowOf(v, id), fields, password)), id, final, PutSecret(id, password),
                replies, !a.ok);
  }

  predicate ClaimsStored(f: Fields) { f.storage == CredentialStore && f.auth == Password }

  lemma DropAnswered(v: Service, id: nat, fields: Fields, password: string, a: Reply)
    requires !ClaimsStored(fields) && id in v.listed && ClaimsStored(v.listed[id])
    ensures var n := Answered(Begun(v, StartUpdate(id, RowOf(v, id), fields, password)), a);
            && TookFirst(v, n, id, fields.(storage := PromptEachTime), DropSecret(id), a, !a.ok && !a.unavailable)
            && n.secrets == (if a.ok then v.secrets - {id} else v.secrets)
  {
  }

  /** Switching away from a saved password: the password is dropped first, and a platform without a
      credential store counts as done. */
  lemma SwitchingUpdateLeaves(v: Service, id: nat, fields: Fields, password: string, replies: seq<Reply>)
    requires |replies| >= 2 && !ClaimsStored(fields) && id in v.listed && ClaimsStored(v.listed[id])
    ensures var n := AnsweredAll(Begun(v, StartUpdate(id, RowOf(v, id), fields, password)), replies);
            && LeavesUpdate(v, n, id, fields.(storage := PromptEachTime), DropSecret(id), replies[0], replies[1],
                            !replies[0].ok && !replies[0].unavailable)
            && n.secrets == (if replies[0].ok then v.secrets - {id} else v.secrets)
  {
    var a := replies[0];
    DropAnswered(v, id, fields, password, a);
    SaveFollows(v, Begun(v, StartUpdate(id, RowOf(v, id), fields, password)), id, fields.(storage := PromptEachTime),
                DropSecret(id), replies, !a.ok && !a.unavailable);
  }

  /** Any other update saves the fields as they were edited, and touches no password. */
  lemma PlainUpdateLeaves(v: Service, id: nat, fields: Fields, password: string, replies: seq<Reply>)
    requires |replies| >= 1
    requires if ClaimsStored(fields) then password == "" else !(id in v.listed && ClaimsStored(v.listed[id]))
    ensures var n := AnsweredAll(Begun(v, StartUpdate(id, RowOf(v, id), fields, password)), replies);
            var saved := replies[0].ok;
            && n.talk.None? && n.asked == [Save(id, fields)] && n.secrets == v.secrets
            && n.rows == (if saved then v.rows[id := fields] else v.rows)
            && n.listed == (if saved then v.listed[id := fields] else v.listed)
            && n.signals == [if saved then Saved(id, false) else SaveFailed]
  {
    OverAfterOne(Begun(v, StartUpdate(id, RowOf(v, id), fields, password)), replies);
  }

  // ------------------------------------------------------------------ creating and deleting

  /** After the first reply a create is over, or asks to store the password typed for it. */
  lemma CreateSaved(v: Service, fields: Fields, password: string, a: Reply)
    ensures var n := Answered(Begun(v, StartCreate(fields, password)), a);
            var first := fields.(storage := PromptEachTime);
            var wants := fields.storage == CredentialStore && password != "";
            && n.secrets == v.secrets
            && n.rows == (if a.ok then v.rows[a.id := first] else v.rows)
            && (n.talk.Some? <==> a.ok && wants && a.accepted)
            && (n.talk.Some? ==> && n.talk.value == Op(CreateAwaitingPut, a.id, first, password, CredentialStore)
                                 && n.listed == v.listed && n.signals == []
                                 && n.asked == [SaveNew(first), PutSecret(a.id, password)])
            && (n.talk.None? ==> && n.asked == [SaveNew(first)]
                                 && n.listed == (if a.ok then v.listed[a.id := first] else v.listed)
                                 && n.signals == Warnings(a.ok && wants)
                                                 + [if a.ok then Saved(a.id, true) else SaveFailed])
  {
  }

  /** After the second it is over, or asks to save the flag. */
  lemma CreatePut(v: Service, id: nat, fields: Fields, password: string, b: Reply)
    requires v.talk == Some(Op(CreateAwaitingPut, id, fields.(storage := PromptEachTime), password, CredentialStore))
    requires v.asked != [] && v.asked[|v.asked| - 1] == PutSecret(id, password) && fields.storage == CredentialStore
    ensures var n := Answered(v, b);
            var shown := if b.ok then fields else fields.(storage := PromptEachTime);
            && n.rows == v.rows && n.secrets == (if b.ok then v.secrets[id := password] else v.secrets)
            && (n.talk.Some? <==> b.ok && b.accepted)
            && (n.talk.Some? ==> && n.talk.value.at == CreateAwaitingFlag && n.talk.value.id == id
                                 && n.talk.value.fields == fields && n.listed == v.listed && n.signals == v.signals
                                 && n.asked == v.asked + [Save(id, fields)])
            && (n.talk.None? ==> && n.asked == v.asked && n.signals == v.signals + [Warning, Saved(id, true)]
                                 && n.listed == v.listed[id := shown])
  {
    assert v.asked + [] == v.asked && v.signals + [] == v.signals;
  }

  /** After the third it is over. */
  lemma CreateFlagged(v: Service, op: Op, c: Reply)
    requires v.talk == Some(op) && op.at == CreateAwaitingFlag && v.asked != []
    requires v.asked[|v.asked| - 1] == Save(op.id, op.fields)
    ensures Answered(v, c)
            == Service(if c.ok then v.rows[op.id := op.fields] else v.rows, v.secrets,
                       v.listed[op.id := op.fields], None, v.asked,
                       v.signals + (Warnings(!c.ok) + [Saved(op.id, true)]))
  {
    assert v.asked + [] == v.asked;
  }

  /** What a create leaves: nothing if the profile could not be saved; otherwise the profile under its
      new name, prompting until the password typed for it is stored and the flag saved after it. */
  predicate LeavesCreate(v: Service, n: Service, fields: Fields, password: string, a: Reply, b: Reply, c: Reply) {
    var first := fields.(storage := PromptEachTime);
    var wants := fields.storage == CredentialStore && password != "";
    var put := a.ok && wants && a.accepted && b.ok;
    var flagged := put && b.accepted && c.ok;
    && n.talk.None?
    && n.rows == (if a.ok then v.rows[a.id := if flagged then fields else first] else v.rows)
    && n.listed == (if a.ok then v.listed[a.id := if put then fields else first] else v.listed)
    && n.secrets == (if put then v.secrets[a.id := password] else v.secrets)
    && n.signals == (if a.ok then Warnings(wants && !flagged) + [Saved(a.id, true)] else [SaveFailed])
    && n.asked == [SaveNew(first)] + (if a.ok && wants && a.accepted then [PutSecret(a.id, password)] else [])
                  + (if put && b.accepted then [Save(a.id, fields)] else [])
  }

  lemma CreateOverAtOnce(v: Service, fields: Fields, password: string, a: Reply, b: Reply, c: Reply)
    requires !(a.ok && fields.storage == CredentialStore && password != "" && a.accepted)
    ensures LeavesCreate(v, Answered(Begun(v, StartCreate(fields, password)), a), fields, password, a, b, c)
  {
    CreateSaved(v, fields, password, a);
  }

  lemma CreateOverAfterPut(v: Service, fields: Fields, password: string, a: Reply, b: Reply, c: Reply)
    requires a.ok && fields.storage == CredentialStore && password != "" && a.accepted && !(b.ok && b.accepted)
    ensures LeavesCreate(v, Answered(Answered(Begun(v, StartCreate(fields, password)), a), b),
                         fields, password, a, b, c)
  {
    CreateSaved(v, fields, password, a);
    CreatePut(Answered(Begun(v, StartCreate(fields, password)), a), a.id, fields, password, b);
  }

  lemma CreateOverAfterFlag(v: Service, fields: Fields, password: string, a: Reply, b: Reply, c: Reply)
    requires a.ok && fields.storage == CredentialStore && password != "" && a.accepted && b.ok && b.accepted
    ensures LeavesCreate(v, Answered(Answered(Answered(Begun(v, StartCreate(fields, password)), a), b), c),
                         fields, password, a, b, c)
  {
    CreateSaved(v, fields, password, a);
    var w1 := Answered(Begun(v, StartCreate(fields, password)), a);
    CreatePut(w1, a.id, fields, password, b);
    var w2 := Answered(w1, b);
    CreateFlagged(w2, w2.talk.value, c);
    assert w2.rows[a.id := fields] == v.rows[a.id := fields];
    var first := fields.(storage := PromptEachTime);
    assert w2.asked == [SaveNew(first)] + [PutSecret(a.id, password)] + [Save(a.id, fields)];
  }

  lemma CreateLeaves(v: Service, fields: Fields, password: string, replies: seq<Reply>)
    requires |replies| >= 3
    ensures LeavesCreate(v, AnsweredAll(Begun(v, StartCreate(fields, password)), replies), fields, password,
                         replies[0], replies[1], replies[2])
  {
    var w := Begun(v, StartCreate(fields, password));
    var a, b, c := replies[0], replies[1], replies[2];
    if !(a.ok && fields.storage == CredentialStore && password != "" && a.accepted) {
      CreateOverAtOnce(v, fields, password, a, b, c);
      OverAfterOne(w, replies);
    } else if !(b.ok && b.accepted) {
      CreateOverAfterPut(v, fields, password, a, b, c);
      OverAfterTwo(w, replies);
    } else {
      CreateOverAfterFlag(v, fields, password, a, b, c);
      OverAfterThree(w, replies);
    }
  }

  lemma DropFirst(v: Service, id: nat, a: Reply)
    ensures var n := Answered(Begun(v, StartDelete(id)), a);
            && n.rows == v.rows && n.listed == v.listed
            && n.secrets == (if a.ok then v.secrets - {id} else v.secrets)
            && n.asked == [DropSecret(id)] + (if a.accepted then [DropProfile(id)] else [])
            && n.signals == Warnings(!a.ok && !a.unavailable) + (if a.accepted then [] else [DeleteFailed])
            && (n.talk.Some? <==> a.accepted)
            && (n.talk.Some? ==> n.talk.value.at == DeleteAwaitingDelete && n.talk.value.id == id)
  {
  }

  lemma DeleteAnswered(v: Service, op: Op, b: Reply)
    requires v.talk == Some(op) && op.at == DeleteAwaitingDelete && v.asked != []
    requires v.asked[|v.asked| - 1] == DropProfile(op.id)
    ensures Answered(v, b)
            == Service(if b.ok then v.rows - {op.id} else v.rows, v.secrets,
                       if b.ok then v.listed - {op.id} else v.listed, None, v.asked,
                       v.signals + [if b.ok then Deleted(op.id) else DeleteFailed])
  {
    assert v.asked + [] == v.asked;
  }

  /** What a delete leaves: the password dropped if that was answered, then the profile gone from store
      and list if the delete was handed over and answered. */
  lemma DeleteLeaves(v: Service, id: nat, replies: seq<Reply>)
    requires |replies| >= 2
    ensures var n := AnsweredAll(Begun(v, StartDelete(id)), replies);
            var a, b := replies[0], replies[1];
            var gone := a.accepted && b.ok;
            && n.talk.None? && n.asked == [DropSecret(id)] + (if a.accepted then [DropProfile(id)] else [])
            && n.secrets == (if a.ok then v.secrets - {id} else v.secrets)
            && n.rows == (if gone then v.rows - {id} else v.rows)
            && n.listed == (if gone then v.listed - {id} else v.listed)
            && n.signals == Warnings(!a.ok && !a.unavailable) + [if gone then Deleted(id) else DeleteFailed]
  {
    var w := Begun(v, StartDelete(id));
    var a := replies[0];
    DropFirst(v, id, a);
    var w1 := Answered(w, a);
    if w1.talk.None? {
      OverAfterOne(w, replies);
    } else {
      DeleteAnswered(w1, w1.talk.value, replies[1]);
      OverAfterTwo(w, replies);
      assert Warnings(!a.ok && !a.unavailable) + [] == Warnings(!a.ok && !a.unavailable);
    }
  }
}
