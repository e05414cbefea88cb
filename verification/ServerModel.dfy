/** What the server does to its state for each message and each timer. */
module ServerModel {
  import opened Common
  import opened Messages
  import opened EventTimers
  import opened StateManager
  import opened DataCenter

  /** The books of the server: the cached values, the timers, the timer that
      will repeat each unacknowledged response, and the update requests not
      yet answered, by the low half of their operation identifier. */
  datatype Book = Book(elems: map<nat, Element>, timers: Timers, waitAck: map<nat, nat>, deferred: map<nat, Update>) {
    ghost function Center(): Center {
      DataCenter.Center(elems, timers)
    }

    ghost function With(c: Center): Book {
      this.(elems := c.elems, timers := c.timers)
    }
  }

  /** `readStamp` and `readData` are the variables every read goes through,
      `sent` is all that went to the network, `log` what the application's
      own timers did. */
  datatype Server = Server(book: Book, readStamp: int, readData: string, sent: seq<Response>, log: seq<nat>)

  const EMPTY_BOOK: Book := Book(map[], map[], map[], map[])
  const EMPTY: Server := Server(EMPTY_BOOK, 0, "", [], [])

  /** An answer to operation `op`, with its deadline before it is cut to 32 bits, given at time `at`. */
  datatype Answer = Answer(op: nat, kind: Kind, result: OpResult, key: nat, value: string, deadline: int, at: int)

  ghost function Reply(a: Answer): Response {
    Response(a.op, a.kind, a.result, ToUint32(a.deadline), a.key, a.value)
  }

  // ---------- Acknowledgements ----------

  /** Winds up the timer that repeats a response. An operation that is
      already waiting keeps its entry. */
  ghost function Registered(b: Book, r: Response, now: int, id: nat): Book {
    b.(timers := Added(b.timers, id, Resend(r), ACK_MS, 1, now),
       waitAck := if r.op in b.waitAck then b.waitAck else b.waitAck[r.op := id])
  }

  ghost function Responded(s: Server, r: Response, now: int, id: nat): Server {
    s.(book := Registered(s.book, r, now, id), sent := s.sent + [r])
  }

  ghost function Acknowledged(b: Book, op: nat): Book {
    if op in b.waitAck then b.(timers := Deleted(b.timers, b.waitAck[op]), waitAck := b.waitAck - {op}) else b
  }

  ghost function HandledAck(s: Server, op: nat): Server {
    s.(book := Acknowledged(s.book, op))
  }

  // ---------- Requests ----------

  /** Of an unknown key, the answer repeats what the previous read left behind. */
  ghost function ReadAnswer(s: Server, req: Request, now: int): Answer {
    var r := ReadResult(s.book.Center(), req.key, now, s.readStamp);
    var value := if req.key in s.book.elems then s.book.elems[req.key].value else s.readData;
    Answer(req.op, ReadResponse, r.result, req.key, value, r.stamp, now)
  }

  ghost function BookRead(b: Book, req: Request, now: int, id: nat): Book {
    b.With(CenterRead(b.Center(), req.key, ToUint32(req.op), now, id))
  }

  /** Each address is fresh when the handler obtains it. */
  ghost predicate ReadIds(b: Book, req: Request, now: int, leaseId: nat, ackId: nat) {
    FreshId(b.timers, leaseId) && FreshId(BookRead(b, req, now, leaseId).timers, ackId)
  }

  ghost function HandledRead(s: Server, req: Request, now: int, leaseId: nat, ackId: nat): Server {
    var a := ReadAnswer(s, req, now);
    var read := Server(BookRead(s.book, req, now, leaseId), a.deadline, a.value, s.sent, s.log);
    Responded(read, Reply(a), now, ackId)
  }

  ghost function UpdateVerdict(b: Book, req: Update, now: int): Outcome {
    UpdateResult(b.Center(), req.key, ToUint32(req.op), now)
  }

  /** A deferred update and an exception leave the request without an answer. */
  ghost function UpdateAnswer(b: Book, req: Update, now: int): Option<Answer> {
    var r := UpdateVerdict(b, req, now);
    if r.Thrown? || r.result == Defer then None
    else Some(Answer(req.op, UpdateResponse, r.result, req.key, req.data, r.stamp, now))
  }

  /** The update itself; a deferred request is kept for its answer. */
  ghost function BookUpdate(b: Book, req: Update, now: int, id: nat): Book {
    var op := ToUint32(req.op);
    var updated := b.With(CenterUpdate(b.Center(), req.key, op, req.data, now, id));
    var r := UpdateVerdict(b, req, now);
    if r.Done? && r.result == Defer && op !in b.deferred then
      updated.(deferred := b.deferred[op := req])
    else
      updated
  }

  ghost predicate UpdateIds(b: Book, req: Update, now: int, leaseId: nat, ackId: nat) {
    FreshId(b.timers, leaseId) && FreshId(BookUpdate(b, req, now, leaseId).timers, ackId)
  }

  ghost function HandledUpdate(s: Server, req: Update, now: int, leaseId: nat, ackId: nat): Server {
    var updated := s.(book := BookUpdate(s.book, req, now, leaseId));
    match UpdateAnswer(s.book, req, now)
    case None => updated
    case Some(a) => Responded(updated, Reply(a), now, ackId)
  }

  // ---------- Timers ----------

  /** The key of a lease callback has an element: elements are never removed. */
  ghost predicate HasTarget(b: Book, c: Callback) {
    match c
    case LeaseExpired(k) => k in b.elems
    case CommitDeferred(k) => k in b.elems
    case Resend(_) => true
    case User(_) => true
  }

  /** The answer to the deferred update that commits at `key`, if the request is still on record. */
  ghost function CommitAnswer(b: Book, key: nat, now: int): Option<Answer>
    requires key in b.elems
  {
    var op := b.elems[key].manager.opId;
    if op in b.deferred then
      var req := b.deferred[op];
      Some(Answer(req.op, UpdateResponse, Ok, req.key, req.data, now + LEASE_MS, now))
    else None
  }

  ghost function BookCommit(b: Book, key: nat, now: int, id: nat): Book
    requires key in b.elems
  {
    b.With(CommittedAt(b.Center(), key, now, id)).(deferred := b.deferred - {b.elems[key].manager.opId})
  }

  ghost function Committed(s: Server, key: nat, now: int, leaseId: nat, ackId: nat): Server
    requires key in s.book.elems
  {
    var committed := s.(book := BookCommit(s.book, key, now, leaseId));
    match CommitAnswer(s.book, key, now)
    case None => committed
    case Some(a) => Responded(committed, Reply(a), now, ackId)
  }

  /** The callback of a timer. */
  ghost function Called(s: Server, c: Callback, now: int, leaseId: nat, ackId: nat): Server
    requires HasTarget(s.book, c)
  {
    match c
    case LeaseExpired(k) => s.(book := s.book.With(LeaseExpiredAt(s.book.Center(), k)))
    case CommitDeferred(k) => Committed(s, k, now, leaseId, ackId)
    case Resend(r) => s.(book := s.book.(waitAck := s.book.waitAck - {r.op}), sent := s.sent + [r])
    case User(tag) => s.(log := s.log + [tag])
  }

  /** Each address is fresh when the callback obtains it. */
  ghost predicate CallIds(b: Book, c: Callback, now: int, leaseId: nat, ackId: nat)
    requires HasTarget(b, c)
  {
    FreshId(b.timers, leaseId) && (c.CommitDeferred? ==> FreshId(BookCommit(b, c.key, now, leaseId).timers, ackId))
  }

  /** The callback ends in an exception: its entry is missing. */
  ghost predicate CallThrows(b: Book, c: Callback)
    requires HasTarget(b, c)
  {
    match c
    case LeaseExpired(_) => false
    case CommitDeferred(k) => b.elems[k].manager.opId !in b.deferred
    case Resend(r) => r.op !in b.waitAck
    case User(_) => false
  }

  // ---------- Draining the queue ----------

  /** One turn of the drain loop: the timer at the front, and the addresses its callback obtains. */
  datatype Turn = Turn(id: nat, leaseId: nat, ackId: nat)

  ghost predicate CanTurn(b: Book, t: Turn, now: int) {
    && Due(b.timers, t.id, now)
    && HasTarget(b, b.timers[t.id].callback)
    && (b.timers[t.id].repeat > 0 ==> CallIds(b, b.timers[t.id].callback, now, t.leaseId, t.ackId))
  }

  /** The timer of the turn fires: it was not deleted. */
  ghost predicate Fires(b: Book, t: Turn)
    requires t.id in b.timers
  {
    b.timers[t.id].repeat > 0
  }

  ghost predicate TurnThrows(b: Book, t: Turn, now: int)
    requires CanTurn(b, t, now)
  {
    Fires(b, t) && CallThrows(b, b.timers[t.id].callback)
  }

  lemma CallKeepsTimer(s: Server, t: Turn, now: int)
    requires CanTurn(s.book, t, now) && Fires(s.book, t)
    ensures t.id in Called(s, s.book.timers[t.id].callback, now, t.leaseId, t.ackId).book.timers
  {
  }

  ghost function Turned(s: Server, t: Turn, now: int): Server
    requires CanTurn(s.book, t, now)
  {
    var timer := s.book.timers[t.id];
    if timer.repeat == 0 then s.(book := s.book.(timers := s.book.timers - {t.id}))
    else
      CallKeepsTimer(s, t, now);
      var called := Called(s, timer.callback, now, t.leaseId, t.ackId);
      if CallThrows(s.book, timer.callback) then called
      else called.(book := called.book.(timers := Settled(called.book.timers, t.id, now)))
  }

  /** The answer a turn gives: only a commit gives one. */
  ghost function TurnAnswer(b: Book, t: Turn, now: int): Option<Answer>
    requires CanTurn(b, t, now)
  {
    var c := b.timers[t.id].callback;
    if Fires(b, t) && c.CommitDeferred? then CommitAnswer(b, c.key, now) else None
  }
}
