/** Saving and deleting connection profiles: each is a short conversation with the workspace service,
    one request outstanding at a time, that keeps the profile's claim about a saved password behind
    the password itself. */
module ConnectionSpec {
  import opened Wrappers

  datatype Storage = PromptEachTime | CredentialStore
  datatype Auth = Password | External

  /** A profile; `details` stands for every field the conversation does not look at. */
  datatype Fields = Fields(details: string, auth: Auth, storage: Storage)

  datatype Stage =
    | CreateAwaitingSave | CreateAwaitingPut | CreateAwaitingFlag
    | UpdateAwaitingPut | UpdateAwaitingDrop | UpdateAwaitingSave
    | DeleteAwaitingDrop | DeleteAwaitingDelete

  datatype Op = Op(at: Stage, id: nat, fields: Fields, password: string, wanted: Storage)

  datatype Request =
    | SaveNew(fields: Fields) | Save(id: nat, fields: Fields) | PutSecret(id: nat, password: string)
    | DropSecret(id: nat) | DropProfile(id: nat)

  /** The reply to the outstanding request, and whether a follow-up handed over while handling it is
      accepted. `unavailable` is the error of a platform without a credential store. */
  datatype Reply = Reply(ok: bool, unavailable: bool, id: nat, accepted: bool)

  datatype Signal = Saved(id: nat, created: bool) | SaveFailed | Deleted(id: nat) | DeleteFailed | Warning

  datatype ListChange = Keep | Upsert(id: nat, fields: Fields) | Remove(id: nat)

  datatype Asked = Asked(op: Op, request: Request)

  /** What handling a reply does: the conversation goes on with one request, or it is over. */
  datatype Outcome = Outcome(next: Option<Asked>, signals: seq<Signal>, list: ListChange)

  predicate IsFinal(s: Signal) { !s.Warning? }

  // ------------------------------------------------------------------ the first request

  /** A new profile is saved as prompting first, whatever was asked for. */
  function StartCreate(fields: Fields, password: string): Asked {
    var first := fields.(storage := PromptEachTime);
    Asked(Op(CreateAwaitingSave, 0, first, password, fields.storage), SaveNew(first))
  }

  predicate WantsStored(f: Fields) { f.storage == CredentialStore && f.auth == Password }

  function StartUpdate(id: nat, before: Option<Fields>, fields: Fields, password: string): Asked {
    var previous := if before.Some? then before.value.storage else PromptEachTime;
    var had := before.Some? && WantsStored(before.value);
    var op := Op(UpdateAwaitingSave, id, fields, "", fields.storage);
    if WantsStored(fields) && password != "" then
      Asked(op.(at := UpdateAwaitingPut, password := password, fields := fields.(storage := previous)),
            PutSecret(id, password))
    else if !WantsStored(fields) && had then Asked(op.(at := UpdateAwaitingDrop), DropSecret(id))
    else Asked(op, Save(id, fields))
  }

  function StartDelete(id: nat): Asked {
    Asked(Op(DeleteAwaitingDrop, id, Fields("", Password, PromptEachTime), "", PromptEachTime), DropSecret(id))
  }

  // ------------------------------------------------------------------ the rest of the conversation

  function Ended(signals: seq<Signal>): Outcome { Outcome(None, signals, Keep) }

  function FinishSave(op: Op, created: bool, warnings: seq<Signal>): Outcome {
    Outcome(None, warnings + [Saved(op.id, created)], Upsert(op.id, op.fields))
  }

  function GoOn(op: Op, request: Request, warnings: seq<Signal>): Outcome {
    Outcome(Some(Asked(op, request)), warnings, Keep)
  }

  function ContinueCreate(op: Op, r: Reply): Outcome {
    if op.at.CreateAwaitingSave? then
      var named := op.(id := r.id);
      if !r.ok then Ended([SaveFailed])
      else if op.wanted == PromptEachTime || op.password == "" then FinishSave(named, true, [])
      else if !r.accepted then FinishSave(named, true, [Warning])
      else GoOn(named.(at := CreateAwaitingPut), PutSecret(r.id, op.password), [])
    else if op.at.CreateAwaitingPut? then
      var flagged := op.(fields := op.fields.(storage := CredentialStore));
      if !r.ok then FinishSave(op, true, [Warning])
      else if !r.accepted then FinishSave(flagged, true, [Warning])
      else GoOn(flagged.(at := CreateAwaitingFlag), Save(op.id, flagged.fields), [])
    else FinishSave(op, true, if r.ok then [] else [Warning])
  }

  function ContinueUpdate(op: Op, r: Reply): Outcome {
    if op.at.UpdateAwaitingSave? then (if r.ok then FinishSave(op, false, []) else Ended([SaveFailed]))
    else
      var stored := op.at.UpdateAwaitingPut? && r.ok;
      var storage := if stored then CredentialStore else PromptEachTime;
      var next := op.(at := UpdateAwaitingSave, fields := op.fields.(storage := storage));
      var warnings := if r.ok || (op.at.UpdateAwaitingDrop? && r.unavailable) then [] else [Warning];
      if r.accepted then GoOn(next, Save(op.id, next.fields), warnings) else Ended(warnings + [SaveFailed])
  }

  function ContinueDelete(op: Op, r: Reply): Outcome {
    if op.at.DeleteAwaitingDelete? then
      (if r.ok then Outcome(None, [Deleted(op.id)], Remove(op.id)) else Ended([DeleteFailed]))
    else
      var warnings := if r.ok || r.unavailable then [] else [Warning];
      if r.accepted then GoOn(op.(at := DeleteAwaitingDelete), DropProfile(op.id), warnings)
      else Ended(warnings + [DeleteFailed])
  }

  function Continue(op: Op, r: Reply): Outcome {
    match op.at
    case CreateAwaitingSave => ContinueCreate(op, r)
    case CreateAwaitingPut => ContinueCreate(op, r)
    case CreateAwaitingFlag => ContinueCreate(op, r)
    case DeleteAwaitingDrop => ContinueDelete(op, r)
    case DeleteAwaitingDelete => ContinueDelete(op, r)
    case _ => ContinueUpdate(op, r)
  }
}
