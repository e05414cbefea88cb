/** Each timer has one owner, and no step touches the timer of another. */
module Ownership {
  import opened Common
  import opened Messages
  import opened EventTimers
  import opened StateManager
  import opened DataCenter
  import opened ServerModel
  import opened ServerInvariant
  import opened Drain

  /** The timer can still fire and ends the lease of the key. */
  ghost predicate LeaseTimerOf(b: Book, id: nat, key: nat) {
    id in b.timers && b.timers[id].repeat > 0 && IsLeaseOf(b.timers[id].callback, key)
  }

  /** The timer can still fire and repeats the response to the operation. */
  ghost predicate ResendTimerOf(b: Book, id: nat, op: nat) {
    id in b.timers && b.timers[id].repeat > 0 && b.timers[id].callback.Resend? && b.timers[id].callback.response.op == op
  }

  /** A key under a lease has exactly one timer, the one on record, and it
      carries the deadline. An idle or unknown key has none. */
  lemma OneLeaseTimer(b: Book, now: int, key: nat, id: nat)
    requires Inv(b, now)
    ensures LeaseTimerOf(b, id, key) <==>
      key in b.elems && b.elems[key].manager.phase != Idle && id == b.elems[key].manager.timerId
    ensures LeaseTimerOf(b, id, key) ==>
      id != 0 && b.timers[id].expire == b.elems[key].manager.expire && b.timers[id].repeat == 1
  {
  }

  /** A response waits for its acknowledgement exactly while it has a timer,
      and that is the one on record. */
  lemma OneResendTimer(b: Book, now: int, op: nat, id: nat)
    requires Inv(b, now)
    ensures ResendTimerOf(b, id, op) <==> op in b.waitAck && b.waitAck[op] == id
    ensures ResendTimerOf(b, id, op) ==> b.timers[id].repeat == 1 && b.timers[id].timeout == ACK_MS
  {
  }

  ghost predicate Spared(q: Timers, q': Timers, id: nat) {
    id in q ==> id in q' && q'[id] == q[id]
  }

  /** The state machine touches its own timer and the address it is given, and no other. */
  lemma ManagerSparesOthers(s: Managed, key: nat, op: nat, now: int, id: nat, other: nat)
    requires other != id && other != s.manager.timerId
    ensures Spared(s.timers, ManagerRead(s, key, op, now, id).timers, other)
    ensures Spared(s.timers, ManagerUpdate(s, key, op, now, id).timers, other)
  {
  }

  /** A read leaves every timer alone but those of its key. */
  lemma ReadSparesOthers(s: Server, req: Request, now: int, leaseId: nat, ackId: nat, id: nat)
    requires Inv(s.book, now) && ReadIds(s.book, req, now, leaseId, ackId)
    requires id in s.book.timers && !LeaseTimerOf(s.book, id, req.key)
    ensures Spared(s.book.timers, HandledRead(s, req, now, leaseId, ackId).book.timers, id)
  {
  }

  /** An update leaves every timer alone but those of its key. */
  lemma UpdateSparesOthers(s: Server, req: Update, now: int, leaseId: nat, ackId: nat, id: nat)
    requires Inv(s.book, now) && UpdateIds(s.book, req, now, leaseId, ackId)
    requires id in s.book.timers && !LeaseTimerOf(s.book, id, req.key)
    ensures Spared(s.book.timers, HandledUpdate(s, req, now, leaseId, ackId).book.timers, id)
  {
    OneLeaseTimer(s.book, now, req.key, id);
    NotOnRecord(s.book, now, req.key, id);
    var known := Known(s.book.Center(), req.key);
    ManagerSparesOthers(Managing(known, req.key), req.key, ToUint32(req.op), now, leaseId, id);
    hide Inv, ManagerUpdate, LeaseTimerOf, UpdateVerdict;
  }

  lemma NotOnRecord(b: Book, now: int, key: nat, id: nat)
    requires Inv(b, now) && id in b.timers && !LeaseTimerOf(b, id, key)
    ensures id != 0 && (key in b.elems ==> b.elems[key].manager.timerId != id)
  {
  }

  /** An acknowledgement stops the one timer that would repeat the response. */
  lemma AckSparesOthers(b: Book, op: nat, now: int, id: nat)
    requires Inv(b, now)
    ensures id in b.timers && !ResendTimerOf(b, id, op) ==> Spared(b.timers, Acknowledged(b, op).timers, id)
    ensures !ResendTimerOf(Acknowledged(b, op), id, op)
  {
  }

  /** The callback of a timer neither deletes that timer nor takes its address,
      so the count that follows is exact and does not wrap. */
  lemma CallSparesItsTimer(s: Server, t: Turn, now: int)
    requires Inv(s.book, now) && CanTurn(s.book, t, now) && Fires(s.book, t)
    ensures var q := Called(s, s.book.timers[t.id].callback, now, t.leaseId, t.ackId).book.timers;
      t.id in q && q[t.id] == s.book.timers[t.id] && Decrement32(q[t.id].repeat) == s.book.timers[t.id].repeat - 1
  {
    CallTimers(s, t, now);
    hide Inv, Called;
  }

  /** Deferring an update keeps the deadline to the millisecond: what is left
      of a lease fits the 32-bit delay, and the timer wound up with it carries
      the deadline of the lease. */
  lemma DeferralKeepsDeadline(b: Book, req: Update, now: int, id: nat)
    requires Inv(b, now) && FreshId(b.timers, id)
    requires InPhase(b, req.key, Guaranteed) && !Overdue(b, req.key, now) && ToUint32(req.op) != 0
    ensures var deadline := b.elems[req.key].manager.expire;
      var b' := BookUpdate(b, req, now, id);
      && 1 <= RemainingDelay(b.elems[req.key].manager, now) == deadline - now <= LEASE_MS
      && b'.elems[req.key].manager.expire == deadline
      && id in b'.timers && b'.timers[id].expire == deadline && b'.timers[id].callback == CommitDeferred(req.key)
      && UpdateVerdict(b, req, now) == Done(Defer, deadline)
  {
  }

  /** In a drained state no read is unsafe, and an update only if the low half
      of its identifier is taken. */
  lemma DrainedIsSafe(b: Book, req: Update, now: int)
    requires Inv(b, now) && NoneDue(b.timers, now)
    ensures !Overdue(b, req.key, now)
    ensures CannotDefer(b, req, now) <==>
      InPhase(b, req.key, Guaranteed) && ToUint32(req.op) != 0 && ToUint32(req.op) in b.deferred
  {
  }
}
