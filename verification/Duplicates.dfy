/** A request that is answered while its first answer still waits for its
    acknowledgement: the second answer gets a timer but no entry. */
module Duplicates {
  import opened Messages
  import opened EventTimers
  import opened DataCenter
  import opened ServerModel
  import opened ServerInvariant
  import opened Ownership
  import opened Drain

  /** A timer will repeat a response to the operation at that time; no key
      records it, and no deferred update will be answered under the operation. */
  ghost predicate Repeater(b: Book, op: nat, id: nat, at: int) {
    && ResendTimerOf(b, id, op) && b.timers[id].expire == at && id != 0
    && (forall k :: k in b.elems ==> b.elems[k].manager.timerId != id)
    && (forall o :: o in b.deferred ==> b.deferred[o].op != op)
  }

  /** A second answer winds up a second timer; the entry keeps naming the first. */
  lemma SecondAnswerDoubles(b: Book, r: Response, now: int, id: nat)
    requires Inv(b, now) && r.op in b.waitAck && FreshId(b.timers, id)
    requires forall o :: o in b.deferred ==> b.deferred[o].op != r.op
    ensures var b', first := Registered(b, r, now, id), b.waitAck[r.op];
      && b'.waitAck == b.waitAck && first != id && first in b.timers
      && Repeater(b', r.op, first, b.timers[first].expire)
      && Repeater(b', r.op, id, now + 500)
  {
    var first := b.waitAck[r.op];
    OneResendTimer(b, now, r.op, first);
    forall k | k in b.elems
      ensures b.elems[k].manager.timerId != first && b.elems[k].manager.timerId != id
    {
      assert ElementOwns(b.timers, k, b.elems[k].manager);
    }
    assert first != 0;
    hide Inv;
  }

  /** A read that arrives again before its acknowledgement is answered again. */
  lemma RepeatedReadDoubles(s: Server, req: Request, now: int, leaseId: nat, ackId: nat)
    requires Inv(s.book, now) && ReadIds(s.book, req, now, leaseId, ackId) && !Overdue(s.book, req.key, now)
    requires req.op in s.book.waitAck && forall o :: o in s.book.deferred ==> s.book.deferred[o].op != req.op
    ensures var b, b' := s.book, HandledRead(s, req, now, leaseId, ackId).book;
      && b'.waitAck == b.waitAck && b.waitAck[req.op] != ackId
      && b.waitAck[req.op] in b.timers
      && Repeater(b', req.op, b.waitAck[req.op], b.timers[b.waitAck[req.op]].expire)
      && Repeater(b', req.op, ackId, now + 500)
  {
    var b := s.book;
    BookReadKeepsInv(b, req, now, leaseId);
    OneResendTimer(b, now, req.op, b.waitAck[req.op]);
    ReadSparesOthers(s, req, now, leaseId, ackId, b.waitAck[req.op]);
    hide Inv, CenterRead, ReadResult, Repeater;
    SecondAnswerDoubles(BookRead(b, req, now, leaseId), Reply(ReadAnswer(s, req, now)), now, ackId);
  }

  /** A response without an entry is sent again, and then its callback throws:
      the timer stays as it was, and so the response is sent at every turn. */
  lemma UnrecordedThrows(s: Server, t: Turn, now: int, op: nat)
    requires CanTurn(s.book, t, now) && ResendTimerOf(s.book, t.id, op) && op !in s.book.waitAck
    ensures TurnThrows(s.book, t, now)
    ensures var s' := Turned(s, t, now);
      s'.sent == s.sent + [s.book.timers[t.id].callback.response] && s'.book == s.book
  {
    assert s.book.waitAck - {op} == s.book.waitAck;
  }

  /** Any other turn leaves the timer, and makes no entry for it. */
  lemma OtherTurnSpares(s: Server, t: Turn, now: int, op: nat, id: nat, at: int)
    requires CanTurn(s.book, t, now) && !TurnThrows(s.book, t, now) && t.id != id && Repeater(s.book, op, id, at)
    ensures Repeater(Turned(s, t, now).book, op, id, at)
    ensures op in Turned(s, t, now).book.waitAck ==> op in s.book.waitAck && !(ResendTimerOf(s.book, t.id, op))
  {
    if Fires(s.book, t) {
      CallSpares(s, s.book.timers[t.id].callback, now, t.leaseId, t.ackId, op, id, at);
      CallKeepsTimer(s, t, now);
    }
    hide Called, CallIds;
  }

  lemma CallSpares(s: Server, c: Callback, now: int, leaseId: nat, ackId: nat, op: nat, id: nat, at: int)
    requires HasTarget(s.book, c) && CallIds(s.book, c, now, leaseId, ackId) && Repeater(s.book, op, id, at)
    ensures var b := Called(s, c, now, leaseId, ackId).book;
      && Repeater(b, op, id, at)
      && (op in b.waitAck ==> op in s.book.waitAck && !(c.Resend? && c.response.op == op))
  {
  }

  /** Two timers with at most one entry between them, or one without any. */
  ghost predicate Doubled(b: Book, op: nat, id: nat, at: int, id': nat, at': int) {
    || (Repeater(b, op, id, at) && Repeater(b, op, id', at'))
    || (Repeater(b, op, id, at) && op !in b.waitAck)
    || (Repeater(b, op, id', at') && op !in b.waitAck)
  }

  lemma DoubledTurn(s: Server, t: Turn, now: int, op: nat, id: nat, at: int, id': nat, at': int)
    requires CanTurn(s.book, t, now) && !TurnThrows(s.book, t, now) && id != id'
    requires Doubled(s.book, op, id, at, id', at')
    ensures Doubled(Turned(s, t, now).book, op, id, at, id', at')
  {
    if ResendTimerOf(s.book, t.id, op) && op !in s.book.waitAck {
      UnrecordedThrows(s, t, now, op);
    }
    if t.id != id && Repeater(s.book, op, id, at) {
      OtherTurnSpares(s, t, now, op, id, at);
    }
    if t.id != id' && Repeater(s.book, op, id', at') {
      OtherTurnSpares(s, t, now, op, id', at');
    }
    hide Turned, TurnThrows, CanTurn;
  }

  lemma {:induction false} DrainKeepsDoubled(states: seq<Server>, turns: seq<Turn>, now: int, n: nat,
                                             op: nat, id: nat, at: int, id': nat, at': int)
    requires IsDrain(states, turns, now) && n < |states| && id != id'
    requires Doubled(states[0].book, op, id, at, id', at')
    ensures Doubled(states[n].book, op, id, at, id', at')
  {
    hide Doubled, CanTurn, TurnThrows, Turned, Earliest;
    if n > 0 {
      DrainKeepsDoubled(states, turns, now, n - 1, op, id, at, id', at');
      DoubledTurn(states[n - 1], turns[n - 1], now, op, id, at, id', at');
    }
  }

  /** Once both timers are due, no order of firing drains the queue: one of the
      callbacks throws, and a tick ends there. */
  lemma NoDrainPastDoubled(states: seq<Server>, turns: seq<Turn>, now: int, op: nat, id: nat, at: int, id': nat, at': int)
    requires IsDrain(states, turns, now) && NoneDue(states[|turns|].book.timers, now) && id != id'
    requires Repeater(states[0].book, op, id, at) && Repeater(states[0].book, op, id', at')
    ensures now < at || now < at'
  {
    DrainKeepsDoubled(states, turns, now, |turns|, op, id, at, id', at');
    hide IsDrain;
  }
}
