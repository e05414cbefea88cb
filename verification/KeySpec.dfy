/** The cache as a user thinks of it: per key a value, a promise, and perhaps
    an update that waits for the promise to run out. */
module KeySpec {
  import opened Common
  import opened Messages
  import opened EventTimers
  import opened StateManager
  import opened ServerModel
  import opened ServerInvariant

  datatype Entry =
    | Absent
    | Free(value: string)
    | Leased(value: string, deadline: int)
    | Pending(value: string, deadline: int, next: string, op: nat)

  /** What time does to an entry: promises run out, and waiting updates commit under a new promise. */
  function Elapsed(e: Entry, now: int): Entry {
    match e
    case Leased(value, deadline) => if deadline <= now then Free(value) else e
    case Pending(_, deadline, next, _) => if deadline <= now then Leased(next, now + LEASE_MS) else e
    case _ => e
  }

  /** A read extends the promise, unless an update waits. */
  function ReadEntry(e: Entry, now: int): Entry {
    match e
    case Free(value) => Leased(value, now + LEASE_MS)
    case Leased(value, _) => Leased(value, now + LEASE_MS)
    case _ => e
  }

  /** An update takes effect at once, waits for the promise, or is turned away. */
  function UpdatedEntry(e: Entry, data: string, op: nat, now: int): Entry {
    match e
    case Absent => Leased(data, now + LEASE_MS)
    case Free(_) => Leased(data, now + LEASE_MS)
    case Leased(value, deadline) => Pending(value, deadline, data, op)
    case Pending(_, _, _, _) => e
  }

  /** How far the promise of an entry reaches; none reaches back. */
  function Promised(e: Entry): Option<int> {
    match e
    case Leased(_, deadline) => Some(deadline)
    case Pending(_, deadline, _, _) => Some(deadline)
    case _ => None
  }

  ghost function View(b: Book, key: nat): Entry {
    if key !in b.elems then Absent
    else
      var e := b.elems[key];
      match e.manager.phase
      case Idle => Free(e.value)
      case Guaranteed => Leased(e.value, e.manager.expire)
      case UpdateProtected =>
        Pending(e.value, e.manager.expire, e.temp,
                if e.manager.opId in b.deferred then b.deferred[e.manager.opId].op else 0)
  }

  // ---------- Requests ----------

  /** A read changes the entry of its key as a user expects, and no other. */
  lemma ReadRefines(s: Server, req: Request, now: int, leaseId: nat, ackId: nat, key: nat)
    ensures View(HandledRead(s, req, now, leaseId, ackId).book, key) ==
      if key == req.key then ReadEntry(View(s.book, key), now) else View(s.book, key)
  {
  }

  /** What a read answers: the committed value, with the promise the entry now
      has, or none at all while an update waits. */
  lemma ReadAnswers(s: Server, req: Request, now: int)
    ensures var e, a := View(s.book, req.key), ReadAnswer(s, req, now);
      match e
      case Absent => a.result == ErrorNoData && a.value == s.readData && a.deadline == s.readStamp
      case Pending(value, _, _, _) => a.result == Ok && a.value == value && a.deadline == now
      case _ => a.result == Ok && a.value == e.value && Promised(ReadEntry(e, now)) == Some(a.deadline) == Some(now + 10000)
  {
  }

  /** An update the state machine accepts changes the entry of its key as a
      user expects, and no other. One that it refuses changes none. */
  lemma UpdateRefines(s: Server, req: Update, now: int, leaseId: nat, ackId: nat, key: nat)
    requires Inv(s.book, now) && !CannotDefer(s.book, req, now)
    ensures View(HandledUpdate(s, req, now, leaseId, ackId).book, key) ==
      if key == req.key && UpdateVerdict(s.book, req, now).Done? then UpdatedEntry(View(s.book, key), req.data, req.op, now)
      else View(s.book, key)
  {
    BookUpdateRefines(s.book, req, now, leaseId, key);
    hide BookUpdate, UpdateVerdict;
  }

  lemma BookUpdateRefines(b: Book, req: Update, now: int, id: nat, key: nat)
    requires Inv(b, now) && !CannotDefer(b, req, now)
    ensures View(BookUpdate(b, req, now, id), key) ==
      if key == req.key && UpdateVerdict(b, req, now).Done? then UpdatedEntry(View(b, key), req.data, req.op, now)
      else View(b, key)
  {
    if key == req.key {
      OwnEntryUpdated(b, req, now, id);
    } else {
      OtherEntriesStay(b, req, now, id, key);
    }
    hide Inv, View, BookUpdate, UpdateVerdict, CannotDefer;
  }

  lemma OwnEntryUpdated(b: Book, req: Update, now: int, id: nat)
    requires Inv(b, now) && !CannotDefer(b, req, now)
    ensures View(BookUpdate(b, req, now, id), req.key) ==
      if UpdateVerdict(b, req, now).Done? then UpdatedEntry(View(b, req.key), req.data, req.op, now) else View(b, req.key)
  {
    if InPhase(b, req.key, Guaranteed) {
      LeasedEntryUpdated(b, req, now, id);
    }
    hide Inv, CannotDefer, RemainingDelay, Added, Deleted;
  }

  lemma LeasedEntryUpdated(b: Book, req: Update, now: int, id: nat)
    requires Inv(b, now) && !CannotDefer(b, req, now) && InPhase(b, req.key, Guaranteed)
    ensures View(BookUpdate(b, req, now, id), req.key) ==
      if UpdateVerdict(b, req, now).Done? then UpdatedEntry(View(b, req.key), req.data, req.op, now) else View(b, req.key)
  {
    DelayIsPositive(b, req.key, now);
    hide Inv, RemainingDelay, Wraps, Added, Deleted;
  }

  lemma OtherEntriesStay(b: Book, req: Update, now: int, id: nat, key: nat)
    requires DeferralsMatch(b) && key != req.key
    ensures View(BookUpdate(b, req, now, id), key) == View(b, key)
  {
    hide ManagerUpdate, UpdateOutcome, DeferredAt;
    var b' := BookUpdate(b, req, now, id);
    assert key in b'.elems <==> key in b.elems;
    assert key in b.elems ==> b'.elems[key] == b.elems[key];
    assert forall o :: o in b.deferred ==> o in b'.deferred && b'.deferred[o] == b.deferred[o];
    hide BookUpdate;
  }

  /** An update is refused exactly when its identifier is cut to zero while a
      promise stands, or when the promise has run out, was not drained, and is
      not so late that the 32-bit delay wraps. */
  lemma RefusedWhen(b: Book, req: Update, now: int)
    requires Inv(b, now)
    ensures UpdateVerdict(b, req, now).Thrown? <==>
      || (ToUint32(req.op) == 0 && Promised(View(b, req.key)).Some?)
      || (Overdue(b, req.key, now) && !Wraps(now - Promised(View(b, req.key)).value))
    ensures UpdateVerdict(b, req, now) == Thrown(IllArgument) <==> ToUint32(req.op) == 0 && Promised(View(b, req.key)).Some?
    ensures UpdateVerdict(b, req, now) == Thrown(SysRoutine) <==>
      ToUint32(req.op) != 0 && Overdue(b, req.key, now) && !Wraps(now - Promised(View(b, req.key)).value)
  {
    if InPhase(b, req.key, Guaranteed) {
      DelayIsPositive(b, req.key, now);
    }
    hide Inv, RemainingDelay, Wraps;
  }

  /** What an accepted update answers. No answer yet means that the entry waits. */
  lemma UpdateAnswers(b: Book, req: Update, now: int)
    requires Inv(b, now) && UpdateVerdict(b, req, now).Done?
    ensures var e, a := View(b, req.key), UpdateAnswer(b, req, now);
      match e
      case Leased(_, _) => a == None
      case Pending(_, deadline, _, _) => a == Some(Answer(req.op, UpdateResponse, Retry, req.key, req.data, deadline, now))
      case _ => a == Some(Answer(req.op, UpdateResponse, Ok, req.key, req.data, now + 10000, now))
  {
  }

  lemma AckRefines(b: Book, op: nat, key: nat)
    ensures View(Acknowledged(b, op), key) == View(b, key)
  {
  }

  // ---------- Turns of the drain loop ----------

  /** The entry of the key whose lease timer fires elapses; every other entry stays. */
  lemma TurnRefines(s: Server, t: Turn, now: int, key: nat)
    requires Inv(s.book, now) && CanTurn(s.book, t, now)
    ensures var timer := s.book.timers[t.id];
      View(Turned(s, t, now).book, key) ==
        if timer.repeat > 0 && IsLeaseOf(timer.callback, key) then Elapsed(View(s.book, key), now)
        else View(s.book, key)
  {
    var timer := s.book.timers[t.id];
    if timer.repeat > 0 && timer.callback.CommitDeferred? {
      CommitRefines(s, t, now, key);
    } else if timer.repeat > 0 && timer.callback.LeaseExpired? {
      FiringIsOnRecord(s.book, timer.callback.key, t.id);
    }
    hide Inv, KeyOwns, CallIds, Committed, Settled;
  }

  lemma CommitRefines(s: Server, t: Turn, now: int, key: nat)
    requires Inv(s.book, now) && CanTurn(s.book, t, now)
    requires s.book.timers[t.id].repeat > 0 && s.book.timers[t.id].callback.CommitDeferred?
    ensures View(Turned(s, t, now).book, key) ==
      if s.book.timers[t.id].callback.key == key then Elapsed(View(s.book, key), now) else View(s.book, key)
  {
    FiringIsOnRecord(s.book, s.book.timers[t.id].callback.key, t.id);
    hide WellFormed, ElementsOwn, AcksOwn, TimersOwned, KeyOwns, DeadlinesBounded, CallIds, Added, Deleted, Settled;
  }

  /** Whatever fires, time has the same effect on an entry before and after. */
  lemma TurnKeepsElapsed(s: Server, t: Turn, now: int, key: nat)
    requires Inv(s.book, now) && CanTurn(s.book, t, now)
    ensures Elapsed(View(Turned(s, t, now).book, key), now) == Elapsed(View(s.book, key), now)
  {
    hide Inv, View, Turned, CanTurn;
    TurnRefines(s, t, now, key);
  }

  /** An entry whose promise has not run out when nothing is due. */
  lemma NothingElapses(b: Book, now: int, key: nat)
    requires Inv(b, now) && NoneDue(b.timers, now)
    ensures Elapsed(View(b, key), now) == View(b, key)
  {
  }
}
