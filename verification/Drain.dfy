/** What one complete drain of the timer queue does. */
module Drain {
  import opened Messages
  import opened EventTimers
  import opened ServerModel
  import opened ServerInvariant
  import opened KeySpec

  /** Turns of the drain loop at one time, with the states between them. Each
      turn takes a timer that is due and that no other precedes. */
  ghost predicate IsDrain(states: seq<Server>, turns: seq<Turn>, now: int) {
    && |states| == |turns| + 1
    && forall i :: 0 <= i < |turns| ==>
         && CanTurn(states[i].book, turns[i], now)
         && Earliest(states[i].book.timers, turns[i].id)
         && !TurnThrows(states[i].book, turns[i], now)
         && states[i + 1] == Turned(states[i], turns[i], now)
  }

  ghost function ExpireAt(states: seq<Server>, turns: seq<Turn>, i: nat): int
    requires i < |turns| < |states| && turns[i].id in states[i].book.timers
  {
    states[i].book.timers[turns[i].id].expire
  }

  // ---------- One turn ----------

  /** A callback leaves every timer of the queue as it is, and adds only timers of the future. */
  lemma CallTimers(s: Server, t: Turn, now: int)
    requires Inv(s.book, now) && CanTurn(s.book, t, now) && Fires(s.book, t)
    ensures var q, q' := s.book.timers, Called(s, s.book.timers[t.id].callback, now, t.leaseId, t.ackId).book.timers;
      && (forall id :: id in q ==> id in q' && q'[id] == q[id])
      && (forall id :: id in q' && id !in q ==> now < q'[id].expire)
  {
    var c := s.book.timers[t.id].callback;
    if c.LeaseExpired? || c.CommitDeferred? {
      FiringIsOnRecord(s.book, c.key, t.id);
    }
    hide Inv, KeyOwns;
  }

  /** One turn consumes its own timer, leaves every other as it is, and adds
      only timers of the future. */
  lemma TurnTimers(s: Server, t: Turn, now: int)
    requires Inv(s.book, now) && CanTurn(s.book, t, now)
    ensures var q, q' := s.book.timers, Turned(s, t, now).book.timers;
      && (forall id :: id in q && id != t.id ==> id in q' && q'[id] == q[id])
      && (forall id :: id in q' && id !in q ==> now < q'[id].expire)
      && (if q[t.id].repeat > 1 then
            t.id in q' && q'[t.id] == q[t.id].(repeat := q[t.id].repeat - 1, expire := now + q[t.id].timeout)
          else t.id !in q')
  {
    TurnKeepsInv(s, t, now);
    if Fires(s.book, t) {
      CallTimers(s, t, now);
    }
    hide Inv, Called, CallThrows;
  }

  // ---------- Whole drains ----------

  /** The invariant holds in every state of a drain. */
  lemma {:induction false} DrainKeepsInv(states: seq<Server>, turns: seq<Turn>, now: int, i: nat)
    requires IsDrain(states, turns, now) && Inv(states[0].book, now) && i < |states|
    ensures Inv(states[i].book, now)
  {
    if i > 0 {
      DrainKeepsInv(states, turns, now, i - 1);
      TurnKeepsInv(states[i - 1], turns[i - 1], now);
    }
  }

  /** Timers leave the queue in the order in which they expire. */
  lemma NextIsLater(states: seq<Server>, turns: seq<Turn>, now: int, i: nat)
    requires IsDrain(states, turns, now) && Inv(states[0].book, now) && i + 1 < |turns|
    ensures ExpireAt(states, turns, i) <= ExpireAt(states, turns, i + 1)
  {
    DrainKeepsInv(states, turns, now, i);
    hide Inv;
    TurnTimers(states[i], turns[i], now);
  }

  lemma {:induction false} DrainInOrder(states: seq<Server>, turns: seq<Turn>, now: int, i: nat, j: nat)
    requires IsDrain(states, turns, now) && Inv(states[0].book, now) && i <= j < |turns|
    ensures ExpireAt(states, turns, i) <= ExpireAt(states, turns, j) <= now
    decreases j - i
  {
    hide Inv, Earliest, TurnThrows, Turned;
    if i < j {
      DrainInOrder(states, turns, now, i, j - 1);
      NextIsLater(states, turns, now, j - 1);
    }
  }

  /** How often the timer at an address still has to fire at this time: once
      if it is due, or as often as it repeats if it has no delay. */
  ghost function FiringsDue(q: Timers, id: nat, now: int): nat {
    if id !in q || now < q[id].expire then 0
    else if q[id].timeout == 0 then q[id].repeat
    else if q[id].repeat > 0 then 1
    else 0
  }

  /** How often the timer at an address fires in the first `n` turns. */
  ghost function Firings(states: seq<Server>, turns: seq<Turn>, n: nat, id: nat): nat
    requires n <= |turns| < |states|
  {
    if n == 0 then 0
    else
      Firings(states, turns, n - 1, id)
      + if turns[n - 1].id == id && id in states[n - 1].book.timers && states[n - 1].book.timers[id].repeat > 0 then 1 else 0
  }

  lemma {:induction false} FiringsAddUp(states: seq<Server>, turns: seq<Turn>, now: int, n: nat, id: nat)
    requires IsDrain(states, turns, now) && Inv(states[0].book, now) && n <= |turns|
    ensures FiringsDue(states[0].book.timers, id, now)
         == Firings(states, turns, n, id) + FiringsDue(states[n].book.timers, id, now)
  {
    if n > 0 {
      FiringsAddUp(states, turns, now, n - 1, id);
      DrainKeepsInv(states, turns, now, n - 1);
      hide Inv, IsDrain;
      TurnSpendsFiring(states[n - 1], turns[n - 1], now, id);
    }
  }

  lemma TurnSpendsFiring(s: Server, t: Turn, now: int, id: nat)
    requires Inv(s.book, now) && CanTurn(s.book, t, now)
    ensures FiringsDue(s.book.timers, id, now)
         == (if t.id == id && s.book.timers[id].repeat > 0 then 1 else 0) + FiringsDue(Turned(s, t, now).book.timers, id, now)
  {
    TurnTimers(s, t, now);
    hide Inv, Turned;
  }

  /** A complete drain fires every enabled timer that is due, as often as it
      is due, and no other: none that was deleted, none of the future. */
  lemma DrainIsExact(states: seq<Server>, turns: seq<Turn>, now: int, id: nat)
    requires IsDrain(states, turns, now) && Inv(states[0].book, now)
    requires NoneDue(states[|turns|].book.timers, now)
    ensures Firings(states, turns, |turns|, id) == FiringsDue(states[0].book.timers, id, now)
  {
    FiringsAddUp(states, turns, now, |turns|, id);
  }

  lemma {:induction false} DrainElapses(states: seq<Server>, turns: seq<Turn>, now: int, n: nat, key: nat)
    requires IsDrain(states, turns, now) && Inv(states[0].book, now) && n <= |turns|
    ensures Elapsed(View(states[n].book, key), now) == Elapsed(View(states[0].book, key), now)
  {
    hide View, Elapsed, Inv, Turned, CanTurn, TurnThrows;
    if n > 0 {
      DrainElapses(states, turns, now, n - 1, key);
      DrainKeepsInv(states, turns, now, n - 1);
      TurnKeepsElapsed(states[n - 1], turns[n - 1], now, key);
    }
  }

  /** A complete drain lets exactly the promises that ran out elapse,
      whichever timer the heap put first among equals. */
  lemma DrainRefines(states: seq<Server>, turns: seq<Turn>, now: int, key: nat)
    requires IsDrain(states, turns, now) && Inv(states[0].book, now)
    requires NoneDue(states[|turns|].book.timers, now)
    ensures View(states[|turns|].book, key) == Elapsed(View(states[0].book, key), now)
  {
    DrainElapses(states, turns, now, |turns|, key);
    DrainKeepsInv(states, turns, now, |turns|);
    NothingElapses(states[|turns|].book, now, key);
  }

  // ---------- Termination ----------

  /** One token for each firing that a due timer has left, and one for its removal. */
  ghost function DueTokens(q: Timers, now: int): set<(nat, nat)> {
    set id, i | id in q && q[id].expire <= now && 0 <= i <= q[id].repeat :: (id, i)
  }

  /** What a callback may do to the queue: delete timers, and add timers of the future. */
  ghost predicate CallbackAllowed(q: Timers, q': Timers, now: int) {
    && (forall id :: id in q ==> id in q' && (q'[id] == q[id] || q'[id] == q[id].(repeat := 0)))
    && (forall id :: id in q' && id !in q ==> id != 0 && q'[id].id == id && now < q'[id].expire && q'[id].timeout > 0)
  }

  lemma CallIsAllowed(s: Server, c: Callback, now: int, leaseId: nat, ackId: nat)
    requires HasTarget(s.book, c) && CallIds(s.book, c, now, leaseId, ackId)
    ensures CallbackAllowed(s.book.timers, Called(s, c, now, leaseId, ackId).book.timers, now)
    ensures c.User? ==> Called(s, c, now, leaseId, ackId).book.timers == s.book.timers
  {
  }

  lemma CallKeepsTargets(s: Server, c: Callback, now: int, leaseId: nat, ackId: nat)
    requires WellFormed(s.book) && HasTarget(s.book, c) && CallIds(s.book, c, now, leaseId, ackId)
    ensures WellFormed(Called(s, c, now, leaseId, ackId).book)
  {
  }

  lemma SettlingSpendsToken(q: Timers, called: Timers, id: nat, now: int)
    requires CallbackAllowed(q, called, now) && Due(q, id, now) && q[id].repeat > 0
    requires q[id].timeout > 0 || called == q
    ensures DueTokens(Settled(called, id, now), now) < DueTokens(q, now)
  {
    var q' := Settled(called, id, now);
    assert (id, q[id].repeat) in DueTokens(q, now);
    assert (id, q[id].repeat) !in DueTokens(q', now);
    forall other, i | (other, i) in DueTokens(q', now)
      ensures (other, i) in DueTokens(q, now)
    {
    }
  }

  lemma RemovalSpendsToken(q: Timers, id: nat, now: int)
    requires Due(q, id, now)
    ensures DueTokens(q - {id}, now) < DueTokens(q, now)
  {
    assert (id, 0) in DueTokens(q, now);
  }

  /** A turn uses up a token and makes none, so a drain ends; this needs no
      more than a well-formed queue. Only callbacks that re-arm themselves
      without delay may be due again, and they repeat once less. */
  lemma TurnSpendsToken(s: Server, t: Turn, now: int)
    requires WellFormed(s.book) && CanTurn(s.book, t, now) && !TurnThrows(s.book, t, now)
    ensures WellFormed(Turned(s, t, now).book)
    ensures DueTokens(Turned(s, t, now).book.timers, now) < DueTokens(s.book.timers, now)
  {
    hide Called, CallbackAllowed, DueTokens;
    var q, timer := s.book.timers, s.book.timers[t.id];
    if timer.repeat > 0 {
      var called := Called(s, timer.callback, now, t.leaseId, t.ackId);
      CallIsAllowed(s, timer.callback, now, t.leaseId, t.ackId);
      CallKeepsTargets(s, timer.callback, now, t.leaseId, t.ackId);
      SettlingSpendsToken(q, called.book.timers, t.id, now);
    } else {
      RemovalSpendsToken(q, t.id, now);
    }
  }

  /** A tick that runs to its end takes the server from one state to another. */
  ghost predicate IsTick(s: Server, s': Server, now: int) {
    exists states: seq<Server>, turns: seq<Turn> ::
      IsDrain(states, turns, now) && states[0] == s && states[|turns|] == s' && NoneDue(s'.book.timers, now)
  }

  // ---------- Every queue can be drained ----------

  /** Addresses for the callback of a timer that is due. */
  lemma FreshTurn(b: Book, id: nat, now: int) returns (t: Turn)
    requires Due(b.timers, id, now) && HasTarget(b, b.timers[id].callback)
    ensures t.id == id && CanTurn(b, t, now)
    ensures FreshId(b.timers, t.leaseId)
    ensures b.timers[id].callback.CommitDeferred? ==>
              FreshId(BookCommit(b, b.timers[id].callback.key, now, t.leaseId).timers, t.ackId)
  {
    var leaseId := LargerThanAll(b.timers.Keys);
    var ackId := 0;
    if b.timers[id].callback.CommitDeferred? {
      ackId := LargerThanAll(BookCommit(b, b.timers[id].callback.key, now, leaseId).timers.Keys);
    }
    t := Turn(id, leaseId, ackId);
  }

  lemma EarliestOf(q: Timers, ids: set<nat>) returns (id: nat)
    requires ids != {} && ids <= q.Keys
    ensures id in ids && forall other :: other in ids ==> q[id].expire <= q[other].expire
  {
    id :| id in ids;
    if ids != {id} {
      assert ids == ids - {id} + {id};
      var first := EarliestOf(q, ids - {id});
      id := if q[first].expire < q[id].expire then first else id;
    }
  }

  /** An earliest timer that is due has its turn. */
  lemma NextTurn(s: Server, now: int) returns (t: Turn)
    requires WellFormed(s.book) && !NoneDue(s.book.timers, now)
    ensures CanTurn(s.book, t, now) && Earliest(s.book.timers, t.id)
  {
    var id := EarliestOf(s.book.timers, s.book.timers.Keys);
    t := FreshTurn(s.book, id, now);
  }

  /** A drain of every well-formed queue: it completes, or comes to a callback that throws. */
  lemma DrainExists(s: Server, now: int) returns (states: seq<Server>, turns: seq<Turn>, thrown: bool, failed: Turn)
    requires WellFormed(s.book)
    ensures IsDrain(states, turns, now) && states[0] == s && WellFormed(states[|turns|].book)
    ensures var b := states[|turns|].book;
      if thrown then CanTurn(b, failed, now) && Earliest(b.timers, failed.id) && TurnThrows(b, failed, now)
      else NoneDue(b.timers, now)
    decreases DueTokens(s.book.timers, now)
  {
    hide WellFormed, CanTurn, TurnThrows, Turned, Earliest, NoneDue, DueTokens;
    states, turns, thrown, failed := [s], [], false, Turn(0, 0, 0);
    if !NoneDue(s.book.timers, now) {
      failed := NextTurn(s, now);
      thrown := TurnThrows(s.book, failed, now);
      if !thrown {
        var t := failed;
        TurnSpendsToken(s, t, now);
        var states', turns';
        states', turns', thrown, failed := DrainExists(Turned(s, t, now), now);
        states, turns := [s] + states', [t] + turns';
        DrainPrepended(s, t, states', turns', now);
      }
    }
  }

  lemma DrainPrepended(s: Server, t: Turn, states: seq<Server>, turns: seq<Turn>, now: int)
    requires CanTurn(s.book, t, now) && Earliest(s.book.timers, t.id) && !TurnThrows(s.book, t, now)
    requires IsDrain(states, turns, now) && states[0] == Turned(s, t, now)
    ensures IsDrain([s] + states, [t] + turns, now) && ([s] + states)[|turns| + 1] == states[|turns|]
  {
    hide CanTurn, TurnThrows, Turned, Earliest;
    var states', turns' := [s] + states, [t] + turns;
    forall i | 0 <= i < |turns'|
      ensures CanTurn(states'[i].book, turns'[i], now) && Earliest(states'[i].book.timers, turns'[i].id)
      ensures !TurnThrows(states'[i].book, turns'[i], now) && states'[i + 1] == Turned(states'[i], turns'[i], now)
    {
      if i > 0 {
        assert states'[i] == states[i - 1] && turns'[i] == turns[i - 1];
      }
    }
  }
}
