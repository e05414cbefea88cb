/** One server, its clients and a network that loses, delays, reorders and
    repeats: every run of the system as a sequence of steps. */
module World {
  import opened Common
  import opened Messages
  import opened EventTimers
  import opened DataCenter
  import opened ServerModel
  import opened ServerInvariant
  import opened Client

  /** `requests` are on their way to the server. Responses need no set of
      their own: whatever was ever sent may arrive, any number of times.
      `issued`, `handled`, `refused`, `acks` and `answers` record the past:
      identifiers given out, requests the server took, updates that ended in
      an exception, acknowledgements sent, and answers in the order given. */
  datatype World = World(
    now: int,
    server: Server,
    clients: map<nat, Client>,
    requests: set<Request>,
    acks: set<nat>,
    issued: set<nat>,
    handled: map<nat, Request>,
    refused: set<nat>,
    answers: seq<Answer>
  )

  datatype Step =
    | Advance(to: int)
    | Fire(turn: Turn)
    | HandleRead(req: Request, leaseId: nat, ackId: nat)
    | HandleUpdate(update: Update, leaseId: nat, ackId: nat)
    | HandleAck(op: nat)
    | StartTimer(tag: nat, timeout: nat, repeat: nat, id: nat)
    | Issue(client: nat, request: Request)
    | Deliver(client: nat, response: Response, ackSent: bool)

  /** Identifiers are given out once, and requests arrive at most once. Any
      timer that is due may fire, which allows more orders than one heap does. */
  ghost predicate Possible(w: World, step: Step) {
    var b := w.server.book;
    match step
    case Advance(to) => w.now <= to
    case Fire(turn) => CanTurn(b, turn, w.now)
    case HandleRead(req, leaseId, ackId) => req in w.requests && req.ReadRequest? && ReadIds(b, req, w.now, leaseId, ackId)
    case HandleUpdate(req, leaseId, ackId) => req in w.requests && UpdateIds(b, req, w.now, leaseId, ackId)
    case HandleAck(op) => op in w.acks
    case StartTimer(_, _, repeat, id) => repeat > 0 && FreshId(b.timers, id)
    case Issue(client, request) => client in w.clients && request.op !in w.issued
    case Deliver(client, response, _) => client in w.clients && response in w.server.sent
  }

  /** What the code needs and does not check: a read waits until an overdue
      lease of its key has been drained; an update that would be deferred has
      a low half of its own and an exact delay. */
  ghost predicate Guarded(w: World, step: Step) {
    match step
    case HandleRead(req, _, _) => !Overdue(w.server.book, req.key, w.now)
    case HandleUpdate(req, _, _) => !CannotDefer(w.server.book, req, w.now)
    case _ => true
  }

  ghost predicate Enabled(w: World, step: Step) {
    Possible(w, step) && Guarded(w, step)
  }

  /** The answer that the step makes the server give. */
  ghost function StepAnswer(w: World, step: Step): Option<Answer>
    requires Possible(w, step)
  {
    match step
    case Fire(turn) => TurnAnswer(w.server.book, turn, w.now)
    case HandleRead(req, _, _) => Some(ReadAnswer(w.server, req, w.now))
    case HandleUpdate(req, _, _) => UpdateAnswer(w.server.book, req, w.now)
    case _ => None
  }

  /** What the step makes the server send: its answer, or a response once more. */
  ghost function StepSends(w: World, step: Step): seq<Response>
    requires Possible(w, step)
  {
    if StepAnswer(w, step).Some? then [Reply(StepAnswer(w, step).value)]
    else if step.Fire? && Fires(w.server.book, step.turn) && w.server.book.timers[step.turn.id].callback.Resend? then
      [w.server.book.timers[step.turn.id].callback.response]
    else []
  }

  lemma SentIs(w: World, step: Step)
    requires Possible(w, step)
    requires step.Fire? ==> !TurnThrows(w.server.book, step.turn, w.now)
    ensures StepServer(w, step).sent == w.server.sent + StepSends(w, step)
  {
  }

  ghost function StepServer(w: World, step: Step): Server
    requires Possible(w, step)
  {
    var s := w.server;
    match step
    case Fire(turn) => Turned(s, turn, w.now)
    case HandleRead(req, leaseId, ackId) => HandledRead(s, req, w.now, leaseId, ackId)
    case HandleUpdate(req, leaseId, ackId) => HandledUpdate(s, req, w.now, leaseId, ackId)
    case HandleAck(op) => ServerModel.HandledAck(s, op)
    case StartTimer(tag, timeout, repeat, id) =>
      s.(book := s.book.(timers := Added(s.book.timers, id, User(tag), timeout, repeat, w.now)))
    case _ => s
  }

  /** What a step changes besides the server and the answers. */
  ghost function StepAround(w: World, step: Step): World
    requires Possible(w, step)
  {
    match step
    case Advance(to) => w.(now := to)
    case HandleRead(req, _, _) => w.(requests := w.requests - {req}, handled := w.handled[req.op := req])
    case HandleUpdate(req, _, _) =>
      w.(requests := w.requests - {req},
         handled := w.handled[req.op := req],
         refused := if UpdateVerdict(w.server.book, req, w.now).Thrown? then w.refused + {req.op} else w.refused)
    case Issue(client, request) =>
      w.(clients := w.clients[client := Issued(w.clients[client], request.op, request.key)],
         requests := w.requests + {request},
         issued := w.issued + {request.op})
    case Deliver(client, response, ackSent) =>
      w.(clients := w.clients[client := Received(w.clients[client], response, ackSent, w.now)],
         acks := if ReceiptOf(w.clients[client], response, ackSent).Handled? then w.acks + {response.op} else w.acks)
    case _ => w
  }

  ghost function After(w: World, step: Step): World
    requires Possible(w, step)
  {
    StepAround(w, step).(
      server := StepServer(w, step),
      answers := match StepAnswer(w, step) case None => w.answers case Some(a) => w.answers + [a])
  }

  ghost predicate IsStart(w: World) {
    && w.server == EMPTY
    && (forall c :: c in w.clients ==> w.clients[c] == NEW_CLIENT)
    && w.requests == {} && w.acks == {} && w.issued == {} && w.handled == map[] && w.refused == {} && w.answers == []
  }

  /** Each world comes from the one before it by an enabled step. */
  ghost predicate IsPath(worlds: seq<World>, steps: seq<Step>) {
    && |worlds| == |steps| + 1
    && forall i :: 0 <= i < |steps| ==> Enabled(worlds[i], steps[i]) && worlds[i + 1] == After(worlds[i], steps[i])
  }

  ghost predicate IsRun(worlds: seq<World>, steps: seq<Step>) {
    IsPath(worlds, steps) && IsStart(worlds[0])
  }

  /** A run in which nobody heeds the guards. */
  ghost predicate IsUnguardedRun(worlds: seq<World>, steps: seq<Step>) {
    && |worlds| == |steps| + 1
    && IsStart(worlds[0])
    && forall i :: 0 <= i < |steps| ==> Possible(worlds[i], steps[i]) && worlds[i + 1] == After(worlds[i], steps[i])
  }

  // ---------- Identifiers ----------

  /** Each identifier belongs to one request. */
  ghost predicate RequestsInv(w: World) {
    && (forall r :: r in w.requests ==> r.op in w.issued && r.op !in w.handled)
    && (forall r, r' :: r in w.requests && r' in w.requests && r.op == r'.op ==> r == r')
    && (forall op :: op in w.handled ==> op in w.issued && w.handled[op].op == op)
  }

  /** What the server keeps comes from requests it took. */
  ghost predicate BookOps(b: Book, handled: map<nat, Request>) {
    && (forall op :: op in b.waitAck ==> op in handled)
    && (forall o :: o in b.deferred ==> b.deferred[o].op in handled && handled[b.deferred[o].op] == b.deferred[o])
  }

  ghost predicate OpsInv(w: World) {
    RequestsInv(w) && BookOps(w.server.book, w.handled)
  }

  lemma RequestIsNotInUse(w: World, req: Request)
    requires OpsInv(w) && req in w.requests
    ensures NotInUse(w.server.book, req.op)
  {
  }

  /** New entries of the two maps come from the answer and the update of the step. */
  ghost predicate MapsChange(b: Book, b': Book, answer: Option<Answer>, step: Step) {
    && (forall op :: op in b'.waitAck && op !in b.waitAck ==> answer.Some? && answer.value.op == op)
    && (forall o :: o in b'.deferred && o !in b.deferred ==> step.HandleUpdate? && b'.deferred[o] == step.update)
    && (forall o :: o in b'.deferred && o in b.deferred ==> b'.deferred[o] == b.deferred[o])
    && (answer.Some? ==> answer.value.op in b'.waitAck)
  }

  lemma StepMaps(w: World, step: Step)
    requires Possible(w, step)
    requires step.Fire? ==> !TurnThrows(w.server.book, step.turn, w.now)
    ensures MapsChange(w.server.book, StepServer(w, step).book, StepAnswer(w, step), step)
  {
    hide CenterRead, CenterUpdate, CommittedAt, LeaseExpiredAt, Added, Deleted, Settled;
  }

  lemma MapsKeepOps(b: Book, b': Book, answer: Option<Answer>, step: Step, handled: map<nat, Request>, handled': map<nat, Request>)
    requires BookOps(b, handled) && MapsChange(b, b', answer, step)
    requires forall op :: op in handled ==> op in handled' && handled'[op] == handled[op]
    requires answer.Some? ==> answer.value.op in handled'
    requires step.HandleUpdate? ==> step.update.op in handled' && handled'[step.update.op] == step.update
    ensures BookOps(b', handled')
  {
  }

  lemma StepKeepsRequests(w: World, step: Step)
    requires Possible(w, step) && RequestsInv(w)
    ensures RequestsInv(StepAround(w, step))
    ensures forall op :: op in w.handled ==> op in StepAround(w, step).handled && StepAround(w, step).handled[op] == w.handled[op]
    ensures step.HandleUpdate? ==>
              step.update.op in StepAround(w, step).handled && StepAround(w, step).handled[step.update.op] == step.update
  {
  }

  /** Only requests the server took are answered. */
  lemma AnswerIsToHandled(w: World, step: Step)
    requires Possible(w, step) && OpsInv(w) && StepAnswer(w, step).Some?
    ensures var a := StepAnswer(w, step).value;
      a.op in StepAround(w, step).handled && a.key == StepAround(w, step).handled[a.op].key
  {
  }

  lemma StepKeepsOps(w: World, step: Step)
    requires Possible(w, step) && OpsInv(w)
    requires step.Fire? ==> !TurnThrows(w.server.book, step.turn, w.now)
    ensures OpsInv(After(w, step))
  {
    hide StepServer, StepAnswer, StepAround, Possible, Guarded, TurnThrows, MapsChange, BookOps;
    StepKeepsRequests(w, step);
    StepMaps(w, step);
    if StepAnswer(w, step).Some? {
      AnswerIsToHandled(w, step);
    }
    MapsKeepOps(w.server.book, StepServer(w, step).book, StepAnswer(w, step), step, w.handled, StepAround(w, step).handled);
  }
}
