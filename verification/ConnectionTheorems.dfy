/** One profile's conversation together with what the service really stores. */
module ConnectionTheorems {
  import opened ConnectionSpec
  import opened Wrappers

  /** The profile row and the secret the service holds, the row the list shows, and the conversation. */
  datatype World = World(
    talk: Option<Asked>,
    row: Option<Fields>, secret: Option<string>, listed: Option<Fields>,
    sent: nat, signals: seq<Signal>,
    put: bool)                   // this conversation stored a password

  /** The service carries out a request only if it answers without an error. */
  function Served(w: World, q: Request, ok: bool): World {
    if !ok then w
    else match q
      case SaveNew(fields) => w.(row := Some(fields))
      case Save(_, fields) => w.(row := Some(fields))
      case PutSecret(_, password) => w.(secret := Some(password), put := true)
      case DropSecret(_) => w.(secret := None)
      case DropProfile(_) => w.(row := None)
  }

  function Heard(w: World, o: Outcome): World {
    w.(talk := o.next, signals := w.signals + o.signals,
       sent := w.sent + (if o.next.Some? then 1 else 0),
       listed := match o.list { case Keep => w.listed case Upsert(_, fields) => Some(fields) case Remove(_) => None })
  }

  /** One reply: the request is served, then the reply handled. A finished conversation hears none. */
  function Step(w: World, r: Reply): World {
    if w.talk.None? then w
    else Heard(Served(w, w.talk.value.request, r.ok), Continue(w.talk.value.op, r))
  }

  function Talk(w: World, replies: seq<Reply>): World
    decreases |replies|
  {
    if replies == [] then w else Talk(Step(w, replies[0]), replies[1..])
  }

  /** An accepted first request, with nothing signalled yet. */
  function Begun(w: World, asked: Asked): World {
    w.(talk := Some(asked), sent := 1, signals := [], put := false)
  }

  // ------------------------------------------------------------------ one end to every conversation

  function Finals(signals: seq<Signal>): nat {
    if signals == [] then 0 else (if IsFinal(signals[0]) then 1 else 0) + Finals(signals[1..])
  }

  /** How many more requests a conversation at this stage may make. */
  function More(at: Stage): nat {
    match at
    case CreateAwaitingSave => 2
    case CreateAwaitingPut => 1
    case UpdateAwaitingPut => 1
    case UpdateAwaitingDrop => 1
    case DeleteAwaitingDrop => 1
    case _ => 0
  }

  predicate Talking(w: World) {
    && Finals(w.signals) + (if w.talk.Some? then 1 else 0) == 1
    && w.sent + (if w.talk.Some? then More(w.talk.value.op.at) else 0) <= 3
  }

  lemma {:induction false} FinalsConcat(a: seq<Signal>, b: seq<Signal>)
    ensures Finals(a + b) == Finals(a) + Finals(b)
  {
    if a == [] {
      assert a + b == b;
    } else {
      assert (a + b)[1..] == a[1..] + b;
      FinalsConcat(a[1..], b);
    }
  }

  function Final(s: Signal): nat { if IsFinal(s) then 1 else 0 }

  lemma FinalsOfFew(s: seq<Signal>)
    requires |s| <= 2
    ensures Finals(s) == (if |s| > 0 then Final(s[0]) else 0) + (if |s| > 1 then Final(s[1]) else 0)
  {
    if |s| == 2 {
      assert s[1..] == [s[1]] && [s[1]][1..] == [];
    }
  }

  /** A conversation either goes on with one request of a later stage, or ends with one final signal. */
  lemma ContinueEndsOnce(op: Op, r: Reply)
    ensures var o := Continue(op, r);
            && Finals(o.signals) == (if o.next.Some? then 0 else 1)
            && (o.next.Some? ==> More(o.next.value.op.at) < More(op.at))
  {
    FinalsOfFew(Continue(op, r).signals);
  }

  lemma HearingKeepsTalking(w: World, o: Outcome, more: nat)
    requires Finals(w.signals) == 0 && w.sent + more <= 3
    requires Finals(o.signals) == (if o.next.Some? then 0 else 1) && (o.next.Some? ==> More(o.next.value.op.at) < more)
    ensures Talking(Heard(w, o))
  {
    FinalsConcat(w.signals, o.signals);
  }

  lemma StepKeepsTalking(w: World, r: Reply)
    requires Talking(w)
    ensures Talking(Step(w, r))
    ensures w.talk.Some? && Step(w, r).talk.Some? ==> More(Step(w, r).talk.value.op.at) < More(w.talk.value.op.at)
  {
    if w.talk.Some? {
      var op := w.talk.value.op;
      ContinueEndsOnce(op, r);
      HearingKeepsTalking(Served(w, w.talk.value.request, r.ok), Continue(op, r), More(op.at));
    }
  }

  lemma {:induction false} TalkEndsOnce(w: World, replies: seq<Reply>)
    requires Talking(w)
    ensures Talking(Talk(w, replies))
    ensures w.talk.Some? && |replies| > More(w.talk.value.op.at) ==> Talk(w, replies).talk.None?
    ensures w.talk.None? ==> Talk(w, replies) == w
    decreases |replies|
  {
    if replies != [] {
      StepKeepsTalking(w, replies[0]);
      TalkEndsOnce(Step(w, replies[0]), replies[1..]);
    }
  }

  /** For every sequence of replies, an accepted create, update or delete gives exactly one final
      signal once it is over, none before, and is over after at most three requests. */
  lemma EveryConversationEndsOnce(w: World, asked: Asked, replies: seq<Reply>)
    requires (exists f, p :: asked == StartCreate(f, p))
             || (exists id, b, f, p :: asked == StartUpdate(id, b, f, p)) || (exists id :: asked == StartDelete(id))
    ensures var n := Talk(Begun(w, asked), replies);
            && Finals(n.signals) == (if n.talk.Some? then 0 else 1)
            && n.sent <= 3
            && (|replies| >= 3 ==> n.talk.None?)
  {
    TalkEndsOnce(Begun(w, asked), replies);
  }

  // ------------------------------------------------------------------ the claim follows the password

  /** A stored profile that claims a saved password has one. */
  predicate Honest(w: World) {
    w.row.Some? && WantsStored(w.row.value) ==> w.secret.Some?
  }

  /** Where a create is, and what is stored by then. */
  predicate Creating(w: World, fields: Fields, password: string) {
    && (w.row.Some? && w.row.value.storage == CredentialStore ==> w.put)
    && (w.put ==> w.secret == Some(password))
    && match w.talk
       case None => true
       case Some(Asked(op, q)) =>
         && op.password == password && op.fields.(storage := PromptEachTime) == fields.(storage := PromptEachTime)
         && w.listed.None?
         && (op.at.CreateAwaitingSave? ==>
            q == SaveNew(op.fields) && op.fields.storage == PromptEachTime && !w.put && w.row.None?)
         && (op.at.CreateAwaitingPut? ==>
               && q == PutSecret(op.id, password) && !w.put && w.row == Some(op.fields)
               && op.fields.storage == PromptEachTime)
         && (op.at.CreateAwaitingFlag? ==> q == Save(op.id, op.fields) && w.put && op.fields.storage == CredentialStore
                                           && w.row == Some(op.fields.(storage := PromptEachTime)))
         && (op.at.CreateAwaitingSave? || op.at.CreateAwaitingPut? || op.at.CreateAwaitingFlag?)
  }

  lemma CreateStep(w: World, r: Reply, fields: Fields, password: string)
    requires Creating(w, fields, password)
    ensures Creating(Step(w, r), fields, password)
  {
  }

  lemma {:induction false} CreateTalk(w: World, replies: seq<Reply>, fields: Fields, password: string)
    requires Creating(w, fields, password)
    ensures Creating(Talk(w, replies), fields, password)
    decreases |replies|
  {
    if replies != [] {
      CreateStep(w, replies[0], fields, password);
      CreateTalk(Step(w, replies[0]), replies[1..], fields, password);
    }
  }

  /** At every moment of a create, the stored row says "credential store" only if the password was
      stored, and then it is the password that was typed. */
  lemma CreateNeverClaimsTooEarly(fields: Fields, password: string, replies: seq<Reply>)
    ensures var n := Talk(Begun(World(None, None, None, None, 0, [], false), StartCreate(fields, password)), replies);
            && (n.row.Some? && n.row.value.storage == CredentialStore ==> n.put && n.secret == Some(password))
            && Honest(n)
  {
    var w := World(None, None, None, None, 0, [], false);
    CreateTalk(Begun(w, StartCreate(fields, password)), replies, fields, password);
  }

  predicate Updating(w: World, before: World, fields: Fields, password: string) {
    && w.secret == (if w.put then Some(password) else before.secret)
    && (w.row == before.row || (w.row.Some? && (w.row.value.storage == CredentialStore ==> w.put)))
    && match w.talk
       case None => if Saved?(w.signals) then w.row == Some(Edited(fields, w.put)) else w.row == before.row
       case Some(Asked(op, q)) =>
         && op.password == password && !Saved?(w.signals) && w.row == before.row
         && op.fields.(storage := PromptEachTime) == fields.(storage := PromptEachTime)
         && (op.at.UpdateAwaitingPut? ==> q == PutSecret(op.id, password) && !w.put)
         && (op.at.UpdateAwaitingSave? ==> q == Save(op.id, op.fields) && op.fields == Edited(fields, w.put))
         && (op.at.UpdateAwaitingPut? || op.at.UpdateAwaitingSave?)
  }

  /** The fields as edited, claiming the password exactly if it was stored. */
  function Edited(fields: Fields, stored: bool): Fields {
    fields.(storage := if stored then CredentialStore else PromptEachTime)
  }

  predicate Saved?(signals: seq<Signal>) { exists i :: 0 <= i < |signals| && signals[i].Saved? }

  lemma UpdateStep(w: World, r: Reply, before: World, fields: Fields, password: string)
    requires Updating(w, before, fields, password)
    ensures Updating(Step(w, r), before, fields, password)
  {
    var n := Step(w, r);
    if w.talk.Some? && w.talk.value.op.at.UpdateAwaitingSave? && r.ok {
      assert n.signals[|w.signals|].Saved?;
    }
  }

  lemma {:induction false} UpdateTalk(w: World, replies: seq<Reply>, before: World, fields: Fields, password: string)
    requires Updating(w, before, fields, password)
    ensures Updating(Talk(w, replies), before, fields, password)
    decreases |replies|
  {
    if replies != [] {
      UpdateStep(w, replies[0], before, fields, password);
      UpdateTalk(Step(w, replies[0]), replies[1..], before, fields, password);
    }
  }

  /** An update that types a password never makes an honest profile dishonest, at any moment; when it
      reports the profile saved, the row is the edited one and says "credential store" exactly if the
      new password was stored; when it reports a failure, the row is as it was. */
  lemma UpdateFollowsThePassword(w: World, id: nat, fields: Fields, password: string, replies: seq<Reply>)
    requires Honest(w) && WantsStored(fields) && password != ""
    ensures var n := Talk(Begun(w, StartUpdate(id, w.listed, fields, password)), replies);
            && Honest(n)
            && (n.talk.None? ==> n.row == if Saved?(n.signals) then Some(Edited(fields, n.put)) else w.row)
  {
    UpdateTalk(Begun(w, StartUpdate(id, w.listed, fields, password)), replies, w, fields, password);
  }

  predicate Claims(row: Option<Fields>) { row.Some? && WantsStored(row.value) }

  /** Neither the stored row nor the listed one claims a password that is not there. */
  predicate HonestThroughout(w: World) {
    (Claims(w.row) ==> w.secret.Some?) && (Claims(w.listed) ==> w.secret.Some?)
  }

  /** A save without a credential step is what an update does when it types no password and does not
      switch away from a saved one. */
  lemma PlainSave(w: World, id: nat, fields: Fields, r: Reply)
    requires !(!WantsStored(fields) && Claims(w.listed))
    ensures var n := Talk(Begun(w, StartUpdate(id, w.listed, fields, "")), [r]);
            n.row == (if r.ok then Some(fields) else w.row) && n.secret == w.secret
  {
    assert [r][1..] == [];
    var n := Step(Begun(w, StartUpdate(id, w.listed, fields, "")), r);
    assert Talk(n, []) == n;
  }

  /** Such a save keeps every honest profile honest, whatever the store holds and answers, if and only
      if the new fields claim no password or the row the list shows already claimed one. */
  lemma PlainSaveIsHonestExactlyWhen(id: nat, listed: Option<Fields>, fields: Fields)
    requires !(!WantsStored(fields) && Claims(listed))
    ensures (forall w: World, r: Reply | HonestThroughout(w) && w.listed == listed ::
               Honest(Talk(Begun(w, StartUpdate(id, listed, fields, "")), [r])))
            <==> (!WantsStored(fields) || Claims(listed))
  {
    if WantsStored(fields) && !Claims(listed) {
      var w, r := World(None, None, None, listed, 0, [], false), Reply(true, false, id, true);
      PlainSave(w, id, fields, r);
      assert !Honest(Talk(Begun(w, StartUpdate(id, listed, fields, "")), [r]));
    } else {
      forall w: World, r: Reply | HonestThroughout(w) && w.listed == listed
        ensures Honest(Talk(Begun(w, StartUpdate(id, listed, fields, "")), [r]))
      {
        PlainSave(w, id, fields, r);
      }
    }
  }

  /** A prompting profile edited to use the credential store, with nothing typed: the stored row then
      claims a password that was never stored. */
  lemma PlainSaveCanClaimAPassword() returns (w: World, fields: Fields, replies: seq<Reply>)
    ensures HonestThroughout(w) && w.listed == w.row && w.row.Some?
    ensures var n := Talk(Begun(w, StartUpdate(7, w.listed, fields, "")), replies);
            n.talk.None? && Saved?(n.signals) && Claims(n.row) && n.secret.None?
  {
    var before := Fields("orders", Password, PromptEachTime);
    w := World(None, Some(before), None, Some(before), 0, [], false);
    fields := before.(storage := CredentialStore);
    var r := Reply(true, false, 7, true);
    replies := [r];
    PlainSave(w, 7, fields, r);
    var n := Step(Begun(w, StartUpdate(7, w.listed, fields, "")), r);
    assert replies[1..] == [] && Talk(n, []) == n && n.signals == [Saved(7, false)];
    assert n.signals[0].Saved?;
  }

  /** Switching away from a saved password drops the password first: the stored row goes on claiming
      it if and only if the password went and the row could not be saved after it. */
  lemma SwitchAwayIsHonestExactlyWhen(w: World, id: nat, fields: Fields, a: Reply, b: Reply)
    requires HonestThroughout(w) && Claims(w.listed) && Claims(w.row) && !WantsStored(fields)
    ensures Honest(Talk(Begun(w, StartUpdate(id, w.listed, fields, "")), [a, b])) <==> !(a.ok && !(a.accepted && b.ok))
  {
    var w0 := Begun(w, StartUpdate(id, w.listed, fields, ""));
    TalkTwo(w0, [a, b]);
    assert [a, b][2..] == [];
    var n := Step(Step(w0, a), b);
    assert Talk(n, []) == n;
  }

  /** A profile with a saved password edited to prompt: the password is dropped, the save after it
      fails, and the stored row goes on claiming the password. */
  lemma SwitchAwayCanClaimADroppedPassword() returns (w: World, fields: Fields, replies: seq<Reply>)
    ensures HonestThroughout(w) && Claims(w.row) && w.listed == w.row
    ensures var n := Talk(Begun(w, StartUpdate(7, w.listed, fields, "")), replies);
            n.talk.None? && Claims(n.row) && n.secret.None?
  {
    var before := Fields("orders", Password, CredentialStore);
    w := World(None, Some(before), Some("secret"), Some(before), 0, [], false);
    fields := before.(storage := PromptEachTime);
    var yes, no := Reply(true, false, 7, true), Reply(false, false, 7, true);
    replies := [yes, no];
    SwitchAwayIsHonestExactlyWhen(w, 7, fields, yes, no);
    var w0 := Begun(w, StartUpdate(7, w.listed, fields, ""));
    TalkTwo(w0, replies);
    assert replies[2..] == [];
    var n := Step(Step(w0, yes), no);
    assert Talk(n, []) == n;
  }

  // ------------------------------------------------------------------ the list against the store

  lemma TalkTwo(w: World, replies: seq<Reply>)
    requires |replies| >= 2
    ensures Talk(w, replies) == Talk(Step(Step(w, replies[0]), replies[1]), replies[2..])
  {
    var rest := replies[1..];
    assert rest[0] == replies[1] && rest[1..] == replies[2..];
    assert Talk(w, replies) == Talk(Step(w, replies[0]), rest);
  }

  /** The password was stored, but the row's flag could not be updated after it. */
  predicate FlagMissed(replies: seq<Reply>) {
    && |replies| >= 2 && replies[0].ok && replies[0].accepted && replies[1].ok
    && (!replies[1].accepted || (|replies| >= 3 && !replies[2].ok))
  }

  /** After a create reports the profile saved, the list shows what the store holds if and only if
      no flag update was refused or failed; in that case the list claims a password that the stored
      row does not. */
  lemma CreateListsTheTruthExactlyWhen(fields: Fields, password: string, replies: seq<Reply>)
    requires |replies| >= 3 && replies[0].ok
    ensures var n := Talk(Begun(World(None, None, None, None, 0, [], false), StartCreate(fields, password)), replies);
            var stores := fields.storage == CredentialStore && password != "";
            && n.listed.Some? && n.row.Some?
            && (n.listed == n.row <==> !(stores && FlagMissed(replies)))
            && (n.listed != n.row ==>
               n.listed.value.storage == CredentialStore && n.row.value.storage == PromptEachTime)
  {
    var w0 := Begun(World(None, None, None, None, 0, [], false), StartCreate(fields, password));
    var w2 := Step(Step(w0, replies[0]), replies[1]);
    var rest := replies[3..];
    TalkTwo(w0, replies);
    assert replies[2..][1..] == rest && replies[2..][0] == replies[2];
    FirstTwoReplies(fields, password, replies[0], replies[1]);
    FlagReply(w2, replies[2]);
    if w2.talk.None? {
      FinishedHearsNothing(w2, replies[2..]);
    } else {
      FinishedHearsNothing(Step(w2, replies[2]), rest);
    }
  }

  /** The password is stored and the flag update fails: the list claims what the stored row does not. */
  lemma FlagUpdateCanBeMissed() returns (fields: Fields, password: string, replies: seq<Reply>)
    ensures var n := Talk(Begun(World(None, None, None, None, 0, [], false), StartCreate(fields, password)), replies);
            n.talk.None? && n.listed == Some(fields) && n.row == Some(fields.(storage := PromptEachTime))
            && n.listed != n.row && n.secret == Some(password)
  {
    fields, password := Fields("orders", Password, CredentialStore), "secret";
    var yes, no := Reply(true, false, 7, true), Reply(false, false, 7, true);
    replies := [yes, yes, no];
    var w0 := Begun(World(None, None, None, None, 0, [], false), StartCreate(fields, password));
    var w2 := Step(Step(w0, yes), yes);
    TalkTwo(w0, replies);
    FirstTwoReplies(fields, password, yes, yes);
    FlagReply(w2, no);
    assert replies[2..] == [no] && [no][1..] == [];
    assert w2.secret == Some(password);
    var n := Step(w2, no);
    assert Talk(n, []) == n && Talk(w2, [no]) == n;
  }

  lemma {:induction false} FinishedHearsNothing(w: World, replies: seq<Reply>)
    requires w.talk.None?
    ensures Talk(w, replies) == w
    decreases |replies|
  {
    if replies != [] {
      FinishedHearsNothing(w, replies[1..]);
    }
  }

  /** After two replies a create is over, or waits for its flag update with the password stored. */
  lemma FirstTwoReplies(fields: Fields, password: string, a: Reply, b: Reply)
    requires a.ok
    ensures var w := Begun(World(None, None, None, None, 0, [], false), StartCreate(fields, password));
            var n := Step(Step(w, a), b);
            var first := fields.(storage := PromptEachTime);
            var puts := fields.storage == CredentialStore && password != "" && a.accepted && b.ok;
            && n.row == Some(first)
            && (n.talk.Some? <==> puts && b.accepted)
            && (n.talk.None? ==> n.listed == Some(if puts then fields else first))
            && (n.talk.Some? ==> n.talk.value.op.at == CreateAwaitingFlag && n.talk.value.op.fields == fields
                                 && n.talk.value.request == Save(n.talk.value.op.id, fields))
  {
  }

  lemma FlagReply(w: World, r: Reply)
    requires w.talk.Some? ==> w.talk.value.op.at == CreateAwaitingFlag
                              && w.talk.value.request == Save(w.talk.value.op.id, w.talk.value.op.fields)
    ensures w.talk.Some? ==>
              var n := Step(w, r);
              n.talk.None? && n.listed == Some(w.talk.value.op.fields) && n.row == (if r.ok then n.listed else w.row)
  {
  }

  /** An update is listed only when it is stored. */
  lemma UpdateListsTheTruth(w: World, id: nat, fields: Fields, password: string, replies: seq<Reply>)
    requires w.listed == w.row
    ensures var n := Talk(Begun(w, StartUpdate(id, w.listed, fields, password)), replies);
            n.talk.None? ==> n.listed == n.row
  {
    UpdateListing(Begun(w, StartUpdate(id, w.listed, fields, password)), replies);
  }

  predicate IsUpdate(at: Stage) { at.UpdateAwaitingPut? || at.UpdateAwaitingDrop? || at.UpdateAwaitingSave? }

  lemma {:induction false} UpdateListing(w: World, replies: seq<Reply>)
    requires w.listed == w.row
    requires w.talk.Some? ==>
               && IsUpdate(w.talk.value.op.at)
               && (w.talk.value.op.at.UpdateAwaitingSave? <==> w.talk.value.request.Save?)
               && (w.talk.value.request.Save? ==> w.talk.value.request.fields == w.talk.value.op.fields)
               && !w.talk.value.request.SaveNew? && !w.talk.value.request.DropProfile?
    ensures Talk(w, replies).listed == Talk(w, replies).row
    decreases |replies|
  {
    if replies != [] {
      UpdateListing(Step(w, replies[0]), replies[1..]);
    }
  }

  /** A deleted profile is gone from list and store alike, and its secret went first. */
  lemma DeleteRemovesEverywhere(w: World, id: nat, replies: seq<Reply>)
    requires |replies| >= 2
    ensures var n := Talk(Begun(w, StartDelete(id)), replies);
            && (Deleted(id) in n.signals <==> replies[0].accepted && replies[1].ok)
            && (Deleted(id) in n.signals ==> n.row.None? && n.listed.None?)
            && (Deleted(id) !in n.signals ==> n.row == w.row && n.listed == w.listed)
            && n.secret == (if replies[0].ok then None else w.secret)
  {
    var w0 := Begun(w, StartDelete(id));
    TalkTwo(w0, replies);
    FirstDeleteStep(w0, replies[0]);
    SecondDeleteStep(Step(w0, replies[0]), replies[1]);
    StepKeepsTalking(w0, replies[0]);
    StepKeepsTalking(Step(w0, replies[0]), replies[1]);
    TalkEndsOnce(Step(Step(w0, replies[0]), replies[1]), replies[2..]);
  }

  lemma FirstDeleteStep(w: World, r: Reply)
    requires w.talk.Some? && w.talk.value == StartDelete(w.talk.value.op.id) && w.signals == []
    ensures var n := Step(w, r);
            && n.row == w.row && n.listed == w.listed && n.secret == (if r.ok then None else w.secret)
            && (n.talk.Some? <==> r.accepted)
            && (n.talk.Some? ==>
               n.talk.value.request == DropProfile(w.talk.value.op.id) && n.talk.value.op.at == DeleteAwaitingDelete
                                 && n.talk.value.op.id == w.talk.value.op.id)
            && (forall i | 0 <= i < |n.signals| :: !n.signals[i].Deleted?)
  {
  }

  lemma SecondDeleteStep(w: World, r: Reply)
    requires w.talk.Some? ==>
             w.talk.value.op.at == DeleteAwaitingDelete && w.talk.value.request == DropProfile(w.talk.value.op.id)
    requires forall i | 0 <= i < |w.signals| :: !w.signals[i].Deleted?
    ensures var n := Step(w, r);
            && n.talk.None? && n.secret == w.secret
            && (w.talk.Some? && r.ok ==>
               n.signals == w.signals + [Deleted(w.talk.value.op.id)] && n.row.None? && n.listed.None?)
            && (w.talk.None? || !r.ok ==> n.row == w.row && n.listed == w.listed
                                          && forall i | 0 <= i < |n.signals| :: !n.signals[i].Deleted?)
  {
  }
}
