/** One session as a concurrent protocol: callers that reserve a reply slot and submit, the worker
    thread that runs commands and produces events, and the consumer that drains the queue.

    Every atomic operation or mutex-protected section is one step, so a run is any interleaving.
    The queue is the list specification of `Events`, which the indexed queue refines; another
    session's steps are invisible here (`Events.PushIsLocal`). */
module SessionProtocol {
  import opened Events
  import opened Wrappers

  /** `Discard` closes a result or a large object, which needs no connection; `Plain` stands for every
      other request that is neither an execute nor a close of the session. */
  datatype Kind = Execute | Plain | Discard | Close

  /** A queued command. The token of an event-path request is its acceptance number; a command
      answered through a completion has none. */
  datatype Command = Command(kind: Kind, token: Option<nat>)

  /** A caller's thread: between reading the slot counter and its compare-exchange (`Loaded`), or
      between reserving a slot and handing its command over (`Reserved`). */
  datatype Caller = Away | Loaded(kind: Kind, seen: nat) | Reserved(command: Command)

  datatype Worker =
    | Opening                                              // holds the reply of the open, token 0
    | Idle
    | Busy(command: Command, ran: bool, readFailed: bool)
    | Ran(exits: bool)                                     // the command was answered
    | Draining                                             // failing what is queued, session lost
    | Dropping                                             // the command channel is being dropped
    | Ending                                               // everything queued was answered
    | Announcing(exits: bool)                              // won the compare-exchange for Terminal
    | Exited

  /** Where every request is: with a caller, in the command channel, with the worker, or answered. */
  datatype Requests = Requests(
    callers: seq<Caller>, channel: seq<Command>, worker: Worker,
    kinds: seq<Kind>,            // one per accepted request
    live: set<nat>)              // accepted and not yet answered

  datatype Flags = Flags(
    receiverGone: bool, lost: bool, connected: bool, endRecorded: bool, terminalEmitted: bool,
    possiblyActive: bool, unannounced: bool,
    endClean: bool)              // the end on record is that of a close that resolved everything

  /** What the session produced, in production order, of the events that are never dropped. */
  datatype Mark = Started(token: nat) | Answered(token: nat) | Ended

  datatype Books = Books(
    outstanding: nat,            // the slot counter
    releasing: nat,              // replies the queue did not keep, whose slot is about to be released
    queue: ListQueue<bool>,
    view: bool,                  // the consumer's last word on "a transaction may be open"
    log: seq<Mark>,
    succeeded: set<nat>,         // requests answered with success
    offered: nat, delivered: nat, forgot: bool)

  datatype State = State(session: SessionId, limit: nat, cap: nat, r: Requests, f: Flags, b: Books, owed: set<nat>)

  datatype Step =
    | Arrive | Load(i: nat, kind: Kind) | Refuse(i: nat) | Exchange(i: nat) | Retry(i: nat)
    | Send(i: nat) | Settle(i: nat) | SendCompletion(kind: Kind)
    | OpenAnswered(ok: bool)
    | Receive | Hangup | StartExecute | Track(value: bool) | EmitState
    | Print(lines: seq<string>) | FailRead | Lose | RecordEnd(clean: bool)
    | Answer(exits: bool, ok: bool) | Conclude
    | FailQueued | QueueEmpty | DropQueued | ChannelGone | Announce | EmitTerminal
    | Release | Take | ReadFlag | DropQueue

  // ------------------------------------------------------------------ when a step can happen

  function SlotLimit(s: State, kind: Kind): nat {
    if kind == Close then s.limit + 1 else s.limit
  }

  predicate CallerEnabled(s: State, step: Step) {
    var cs := s.r.callers;
    match step
    case Arrive => true
    case Load(i, _) => i < |cs| && cs[i].Away?
    case Refuse(i) => i < |cs| && cs[i].Loaded? && cs[i].seen >= SlotLimit(s, cs[i].kind)
    case Exchange(i) => i < |cs| && cs[i].Loaded? && s.b.outstanding == cs[i].seen < SlotLimit(s, cs[i].kind)
    case Retry(i) => i < |cs| && cs[i].Loaded? && cs[i].seen < SlotLimit(s, cs[i].kind)
    case Send(i) => i < |cs| && cs[i].Reserved?
    case Settle(i) => i < |cs| && cs[i].Reserved? && cs[i].command.kind == Close && s.f.endRecorded
    case SendCompletion(_) => !s.f.receiverGone
    case _ => false
  }

  predicate WorkerEnabled(s: State, step: Step) {
    var w := s.r.worker;
    match step
    case OpenAnswered(_) => w.Opening?
    case Receive => w.Idle? && s.r.channel != []
    case Hangup => w.Idle? && s.r.channel == []
    case StartExecute => w.Busy? && w.command.kind == Execute && !w.ran && !s.f.unannounced
    case Track(_) => w.Busy? && s.f.connected && !s.f.unannounced
    case EmitState => w.Busy? && s.f.unannounced
    case Print(lines) => Reading(s) && !s.f.lost && lines != []
    case FailRead => Reading(s)
    case Lose => w.Busy? && s.f.connected
    case RecordEnd(clean) => w.Busy? && w.command.kind == Close && !s.f.unannounced && (clean ==> s.f.connected)
    case Answer(exits, ok) => && w.Busy? && !s.f.unannounced
                              && (exits ==> w.command.kind == Close && s.f.endRecorded)
                              && (w.command.kind == Close && (!s.f.connected || s.f.endRecorded) ==> exits)
                              && (ok ==> CanSucceed(s, exits))
    case Conclude => w.Ran?
    case FailQueued => w.Draining? && s.r.channel != []
    case QueueEmpty => w.Draining? && s.r.channel == []
    case DropQueued => w.Dropping? && s.r.channel != []
    case ChannelGone => w.Dropping? && s.r.channel == []
    case Announce => w.Ending?
    case EmitTerminal => w.Announcing?
    case _ => false
  }

  /** Without a connection only the close of a result or of a large object, which touches nothing,
      succeeds; a close succeeds only by ending the session. */
  predicate CanSucceed(s: State, exits: bool)
    requires s.r.worker.Busy?
  {
    (s.f.connected || s.r.worker.command.kind == Discard) && (s.r.worker.command.kind == Close ==> exits)
  }

  /** The worker is reading back the output of an event-path execute. */
  predicate Reading(s: State) {
    var w := s.r.worker;
    && w.Busy? && w.command.kind == Execute && w.command.token.Some? && w.ran && !w.readFailed
    && s.f.connected && !s.f.unannounced
  }

  predicate ConsumerEnabled(s: State, step: Step) {
    match step
    case Release => s.b.releasing > 0
    case Take => s.b.queue.items != []
    case ReadFlag => true
    case DropQueue => !s.b.queue.closed
    case _ => false
  }

  predicate Enabled(s: State, step: Step) {
    CallerEnabled(s, step) || WorkerEnabled(s, step) || ConsumerEnabled(s, step)
  }

  // ------------------------------------------------------------------ what a step does

  /** The request this step answers, if any. A dropped reply channel answers too. */
  function Answering(s: State, step: Step): Option<nat>
    requires Enabled(s, step)
  {
    match step
    case Send(i) => if s.f.receiverGone then s.r.callers[i].command.token else None
    case Settle(i) => s.r.callers[i].command.token
    case OpenAnswered(_) => Some(0)
    case Answer(_, _) => s.r.worker.command.token
    case FailQueued => if s.r.channel[0].kind == Close then None else s.r.channel[0].token
    case DropQueued => s.r.channel[0].token
    case _ => None
  }

  /** Whether the answer this step gives is a success. A close that comes too late succeeds exactly
      when a close that resolved everything is on record. */
  predicate Succeeds(s: State, step: Step)
    requires Enabled(s, step)
  {
    match step
    case Send(i) => s.f.receiverGone && s.r.callers[i].command.kind == Close && s.f.endClean
    case Settle(_) => s.f.endClean
    case OpenAnswered(ok) => ok
    case Answer(_, ok) => ok
    case DropQueued => s.r.channel[0].kind == Close && s.f.endClean
    case _ => false
  }

  /** The event this step emits that holds no slot, if any. */
  function Saying(s: State, step: Step): Option<Event>
    requires Enabled(s, step)
  {
    match step
    case StartExecute =>
      var token := s.r.worker.command.token;
      if token.Some? then Some(Executing(s.session, token.value)) else None
    case EmitState => Some(TransactionState(s.session, s.f.possiblyActive))
    case Print(lines) => Some(ServerOutput(s.session, lines, 0, false))
    case FailRead => Some(ServerOutput(s.session, [], 0, true))
    case EmitTerminal => Some(Terminal(s.session, s.f.possiblyActive))
    case _ => None
  }

  function NextCallers(s: State, step: Step): seq<Caller>
    requires Enabled(s, step)
  {
    var cs := s.r.callers;
    match step
    case Arrive => cs + [Away]
    case Load(i, kind) => cs[i := Loaded(kind, s.b.outstanding)]
    case Refuse(i) => cs[i := Away]
    case Exchange(i) => cs[i := Reserved(Command(cs[i].kind, Some(|s.r.kinds|)))]
    case Retry(i) => cs[i := Loaded(cs[i].kind, s.b.outstanding)]
    case Send(i) => cs[i := Away]
    case Settle(i) => cs[i := Away]
    case _ => cs
  }

  function NextChannel(s: State, step: Step): seq<Command>
    requires Enabled(s, step)
  {
    match step
    case Send(i) => if s.f.receiverGone then s.r.channel else s.r.channel + [s.r.callers[i].command]
    case SendCompletion(kind) => s.r.channel + [Command(kind, None)]
    case Receive => s.r.channel[1..]
    case FailQueued => s.r.channel[1..]
    case DropQueued => s.r.channel[1..]
    case _ => s.r.channel
  }

  function NextWorker(s: State, step: Step): Worker
    requires Enabled(s, step)
  {
    var w := s.r.worker;
    match step
    case OpenAnswered(ok) => if ok then Idle else Dropping
    case Receive => Busy(s.r.channel[0], false, false)
    case Hangup => Ran(true)
    case StartExecute => w.(ran := true)
    case FailRead => w.(readFailed := true)
    case Answer(exits, _) => Ran(exits)
    case Conclude => if w.exits then Dropping else if s.f.lost && !s.f.terminalEmitted then Draining else Idle
    case FailQueued => if s.r.channel[0].kind == Close then Busy(s.r.channel[0], false, false) else Draining
    case QueueEmpty => Announcing(false)
    case ChannelGone => Ending
    case Announce => if s.f.terminalEmitted then Exited else Announcing(true)
    case EmitTerminal => if w.exits then Exited else Idle
    case _ => w
  }

  function NextRequests(s: State, step: Step): Requests
    requires Enabled(s, step)
  {
    var answered := Answering(s, step);
    Requests(
      NextCallers(s, step), NextChannel(s, step), NextWorker(s, step),
      if step.Exchange? then s.r.kinds + [s.r.callers[step.i].kind] else s.r.kinds,
      if step.Exchange? then s.r.live + {|s.r.kinds|}
      else if answered.Some? then s.r.live - {answered.value}
      else s.r.live)
  }

  function NextFlags(s: State, step: Step): Flags
    requires Enabled(s, step)
  {
    var f := s.f;
    match step
    case OpenAnswered(ok) => if ok then f else f.(receiverGone := true, lost := true, connected := false)
    case Track(value) => f.(possiblyActive := value, unannounced := value != f.possiblyActive)
    case EmitState => f.(unannounced := false)
    case Lose => f.(lost := true)
    case RecordEnd(clean) => f.(endRecorded := true, endClean := if f.endRecorded then f.endClean else clean)
    case Conclude => if s.r.worker.exits then f.(receiverGone := true, connected := false)
                     else f.(connected := f.connected && !f.lost)
    case QueueEmpty => f.(terminalEmitted := true)
    case ChannelGone => f.(endRecorded := true)
    case Announce => f.(terminalEmitted := true)
    case _ => f
  }

  function ReplyFor(s: State, t: nat): Event {
    var kind := if t < |s.r.kinds| then s.r.kinds[t] else Plain;
    Reply(s.session, t, match kind case Execute => Executed case Close => SessionClosed case _ => Completed)
  }

  function Produced(s: State, step: Step): seq<Mark>
    requires Enabled(s, step)
  {
    var answered := Answering(s, step);
    if answered.Some? then [Answered(answered.value)]
    else if step.StartExecute? && s.r.worker.command.token.Some? then [Started(s.r.worker.command.token.value)]
    else if step.EmitTerminal? then [Ended]
    else []
  }

  /** The event this step pushes, if any. */
  function Emitted(s: State, step: Step): Option<Event>
    requires Enabled(s, step)
  {
    var answered := Answering(s, step);
    if answered.Some? then Some(ReplyFor(s, answered.value)) else Saying(s, step)
  }

  function Emit(s: State, step: Step): ListQueue<bool>
    requires Enabled(s, step)
  {
    var e := Emitted(s, step);
    if e.Some? then Push(s.b.queue, e.value, Answering(s, step).Some?, s.cap).after else s.b.queue
  }

  /** Whether the queue took the emitted event as a new entry. */
  predicate Kept(s: State, step: Step)
    requires Enabled(s, step)
  {
    var e := Emitted(s, step);
    e.Some? && Push(s.b.queue, e.value, Answering(s, step).Some?, s.cap).kept
  }

  function NextQueue(s: State, step: Step): ListQueue<bool>
    requires Enabled(s, step)
  {
    if step.Take? then s.b.queue.(items := s.b.queue.items[1..])
    else if step.DropQueue? then ListQueue([], map[], true)
    else Emit(s, step)
  }

  function NextOutstanding(s: State, step: Step): nat
    requires Enabled(s, step)
  {
    match step
    case Exchange(_) => s.b.outstanding + 1
    case Release => SaturatingSub(s.b.outstanding, 1)
    case Take => if s.b.queue.items[0].event.Reply? then SaturatingSub(s.b.outstanding, 1) else s.b.outstanding
    case DropQueue => SaturatingSub(s.b.outstanding, Count(s.b.queue.items, IsReply))
    case _ => s.b.outstanding
  }

  /** A reply the queue did not keep gives its slot back in a step of its own. */
  function NextReleasing(s: State, step: Step): nat
    requires Enabled(s, step)
  {
    if step.Release? then s.b.releasing - 1
    else if Answering(s, step).Some? && !Kept(s, step) then s.b.releasing + 1
    else s.b.releasing
  }

  function NextView(s: State, step: Step): bool
    requires Enabled(s, step)
  {
    if step.ReadFlag? then s.f.possiblyActive
    else if step.Take? && s.b.queue.items[0].event.TransactionState? then s.b.queue.items[0].event.possiblyActive
    else s.b.view
  }

  function NextLog(s: State, step: Step): seq<Mark>
    requires Enabled(s, step)
  {
    if Produced(s, step) == [] then s.b.log else s.b.log + Produced(s, step)
  }

  function NextSucceeded(s: State, step: Step): set<nat>
    requires Enabled(s, step)
  {
    var answered := Answering(s, step);
    if answered.Some? && Succeeds(s, step) then s.b.succeeded + {answered.value} else s.b.succeeded
  }

  function NextDelivered(s: State, step: Step): nat
    requires Enabled(s, step)
  {
    if step.Take? && s.b.queue.items[0].event.ServerOutput? then
      s.b.delivered + |s.b.queue.items[0].event.lines| + s.b.queue.items[0].event.dropped
    else s.b.delivered
  }

  predicate NextForgot(s: State, step: Step)
    requires Enabled(s, step)
  {
    || s.b.forgot || step.DropQueue?
    || ((step.Print? || step.FailRead?) && (s.b.queue.closed || Forgets(s.b.queue, Saying(s, step).value, s.cap)))
  }

  function NextBooks(s: State, step: Step): Books
    requires Enabled(s, step)
  {
    Books(NextOutstanding(s, step), NextReleasing(s, step), NextQueue(s, step), NextView(s, step), NextLog(s, step),
          NextSucceeded(s, step), if step.Print? then s.b.offered + |step.lines| else s.b.offered,
          NextDelivered(s, step), NextForgot(s, step))
  }

  /** What was queued when the end of the session was observed. */
  function NextOwed(s: State, step: Step): set<nat>
    requires Enabled(s, step)
  {
    if step.Conclude? && !s.f.terminalEmitted && (s.r.worker.exits || s.f.lost) then s.owed + Tokens(s.r.channel)
    else s.owed
  }

  function Next(s: State, step: Step): State
    requires Enabled(s, step)
  {
    s.(r := NextRequests(s, step), f := NextFlags(s, step), b := NextBooks(s, step), owed := NextOwed(s, step))
  }

  /** A session the registry just opened: its open holds one slot and the worker is connecting. */
  predicate Init(s: State) {
    && s.limit > 0 && s.cap > 0
    && (forall c | c in s.r.callers :: c.Away?)
    && s.r.channel == [] && s.r.worker == Opening && s.r.kinds == [Plain] && s.r.live == {0}
    && s.f == Flags(false, false, true, false, false, s.f.possiblyActive, false, false)
    && s.b == Books(1, 0, ListQueue([], map[], false), s.f.possiblyActive, [], {}, 0, 0, false)
    && s.owed == {}
  }

  // ------------------------------------------------------------------ where a request's reply is owed

  /** 1 if this command carries the reply of request `t`. */
  function Carries(c: Command, t: nat): nat {
    if c.token == Some(t) then 1 else 0
  }

  function InChannel(channel: seq<Command>, t: nat): nat {
    if channel == [] then 0 else Carries(channel[0], t) + InChannel(channel[1..], t)
  }

  function WithCaller(c: Caller, t: nat): nat {
    if c.Reserved? then Carries(c.command, t) else 0
  }

  function WithCallers(callers: seq<Caller>, t: nat): nat {
    if callers == [] then 0 else WithCaller(callers[0], t) + WithCallers(callers[1..], t)
  }

  function WithWorker(w: Worker, t: nat): nat {
    match w
    case Opening => if t == 0 then 1 else 0
    case Busy(c, _, _) => Carries(c, t)
    case _ => 0
  }

  /** In how many places the reply of request `t` is still owed. */
  function Places(r: Requests, t: nat): nat {
    WithCallers(r.callers, t) + InChannel(r.channel, t) + WithWorker(r.worker, t)
  }

  function Tokens(channel: seq<Command>): set<nat> {
    set c | c in channel && c.token.Some? :: c.token.value
  }

  // ------------------------------------------------------------------ counting queued events

  predicate IsReply(e: Event) { e.Reply? }
  predicate IsExecuteReply(e: Event) { e.Reply? && e.kind == Executed }
  predicate IsExecuting(e: Event) { e.Executing? }
  predicate IsFailedRead(e: Event) { e.ServerOutput? && e.failed }
  predicate IsOrdinaryOutput(e: Event) { e.ServerOutput? && !e.failed }
  predicate IsState(e: Event) { e.TransactionState? }
  predicate IsTerminal(e: Event) { e.Terminal? }

  function Count(q: seq<Queued<bool>>, p: Event -> bool): nat {
    if q == [] then 0 else (if p(q[0].event) then 1 else 0) + Count(q[1..], p)
  }
}
