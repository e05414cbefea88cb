/** Updates of a key whose lease ran out so long ago that the 32-bit delay wraps. */
module LateUpdates {
  import opened Common
  import opened Messages
  import opened EventTimers
  import opened StateManager
  import opened ServerModel
  import opened ServerInvariant
  import opened KeySpec
  import opened Drain
  import opened Strays

  /** What an update of an overdue key does: the exception, with the operation
      named all the same, or a deferral with the wrapped delay, which is up to
      2^31 ms instead of none. */
  lemma LateUpdate(b: Book, req: Update, now: int, id: nat)
    requires Inv(b, now) && Overdue(b, req.key, now) && ToUint32(req.op) != 0 && FreshId(b.timers, id)
    ensures var late := now - b.elems[req.key].manager.expire;
      var b', at := BookUpdate(b, req, now, id), now + TWO_32 - late % TWO_32;
      if !Wraps(late) then
        && UpdateVerdict(b, req, now) == Thrown(SysRoutine) && View(b', req.key) == View(b, req.key)
        && b' == b.(elems := b'.elems)
        && b'.elems[req.key].manager == b.elems[req.key].manager.(opId := ToUint32(req.op))
      else
        && UpdateVerdict(b, req, now) == Done(Defer, at)
        && b.elems[req.key].manager.expire <= now < at < now + TWO_31
        && InPhase(b', req.key, UpdateProtected)
        && b'.elems[req.key].manager == Manager(UpdateProtected, id, at, ToUint32(req.op))
        && b'.elems[req.key].value == b.elems[req.key].value
        && IsLeaseTimer(b'.timers, b.elems[req.key].manager.timerId, LeaseExpired(req.key), b.elems[req.key].manager.expire)
        && b.elems[req.key].manager.timerId != id
  {
    DelayIsPositive(b, req.key, now);
    assert IsLeaseTimer(b.timers, b.elems[req.key].manager.timerId, LeaseExpired(req.key), b.elems[req.key].manager.expire) by {
      assert ElementOwns(b.timers, req.key, b.elems[req.key].manager);
    }
    hide Inv, RemainingDelay;
  }

  /** A timer will replace the value of the key at the given time, whatever
      happens to the key until then: no other commit of the key is set, and no
      key records the timer. */
  ghost predicate Armed(b: Book, key: nat, id: nat, data: string, at: int) {
    && id in b.timers && id != 0 && b.timers[id].callback == CommitDeferred(key)
    && b.timers[id].expire == at && b.timers[id].repeat == 1
    && key in b.elems && b.elems[key].temp == data
    && (forall k :: k in b.elems ==> b.elems[k].manager.timerId != id)
    && (forall i :: i in b.timers && b.timers[i].repeat > 0 && b.timers[i].callback == CommitDeferred(key) ==> i == id)
  }

  /** The key has its value for good, as far as timers go. */
  ghost predicate Replaced(b: Book, key: nat, data: string) {
    && key in b.elems && b.elems[key].value == data
    && (forall i :: i in b.timers && b.timers[i].repeat > 0 ==> b.timers[i].callback != CommitDeferred(key))
  }

  lemma IdleHasNoTimer(b: Book, key: nat, now: int, id: nat)
    requires Inv(b, now) && InPhase(b, key, Idle)
    ensures id in b.timers && b.timers[id].repeat > 0 ==> !IsLeaseOf(b.timers[id].callback, key)
  {
    if id in b.timers && b.timers[id].repeat > 0 && IsLeaseOf(b.timers[id].callback, key) {
      FiringIsOnRecord(b, key, id);
    }
  }

  /** A key with a stray that sets its value is armed. */
  lemma StrayArms(b: Book, key: nat, strays: set<nat>, entries: set<nat>, now: int, id: nat)
    requires Tidy(b, key, strays, entries, now) && id in strays && id != 0 && b.elems[key].manager.timerId == 0
    requires b.timers[id].callback == CommitDeferred(key) && b.timers[id].repeat == 1
    requires forall x :: x in strays && b.timers[x].callback == CommitDeferred(key) ==> x == id
    ensures Armed(b, key, id, b.elems[key].temp, b.timers[id].expire)
  {
    var tidied := Tidied(b, key, strays, entries);
    forall k | k in b.elems && k != key
      ensures b.elems[k].manager.timerId != id
    {
      assert ElementOwns(tidied.timers, k, tidied.elems[k].manager);
    }
    forall i | i in b.timers && b.timers[i].repeat > 0 && b.timers[i].callback == CommitDeferred(key)
      ensures i == id
    {
      IdleHasNoTimer(tidied, key, now, i);
    }
  }

  /** The next update takes effect, and leaves the timer as it is. */
  lemma FreeKeyUpdates(s: Server, req: Update, now: int, leaseId: nat, ackId: nat, id: nat, data: string, at: int)
    requires UpdateIds(s.book, req, now, leaseId, ackId) && Armed(s.book, req.key, id, data, at)
    requires View(s.book, req.key).Free? && s.book.elems[req.key].manager.timerId == 0
    ensures UpdateAnswer(s.book, req, now) == Some(Answer(req.op, UpdateResponse, Ok, req.key, req.data, now + LEASE_MS, now))
    ensures var b' := HandledUpdate(s, req, now, leaseId, ackId).book;
      Armed(b', req.key, id, data, at) && View(b', req.key) == Leased(req.data, now + LEASE_MS)
  {
  }

  lemma OtherCallKeepsArmed(s: Server, c: Callback, now: int, leaseId: nat, ackId: nat, key: nat, id: nat, data: string, at: int)
    requires HasTarget(s.book, c) && CallIds(s.book, c, now, leaseId, ackId) && c != CommitDeferred(key)
    requires Armed(s.book, key, id, data, at)
    ensures Armed(Called(s, c, now, leaseId, ackId).book, key, id, data, at)
  {
  }

  lemma OwnCallReplaces(s: Server, now: int, leaseId: nat, ackId: nat, key: nat, id: nat, data: string, at: int)
    requires HasTarget(s.book, CommitDeferred(key)) && CallIds(s.book, CommitDeferred(key), now, leaseId, ackId)
    requires Armed(s.book, key, id, data, at)
    ensures var b := Called(s, CommitDeferred(key), now, leaseId, ackId).book;
      && key in b.elems && b.elems[key].value == data
      && (id in b.timers ==> b.timers[id].repeat == 1)
      && forall i :: i in b.timers && b.timers[i].repeat > 0 && b.timers[i].callback == CommitDeferred(key) ==> i == id
  {
  }

  /** Any other turn leaves the timer armed, and its own replaces the value. */
  lemma ArmedTurn(s: Server, t: Turn, now: int, key: nat, id: nat, data: string, at: int)
    requires CanTurn(s.book, t, now) && !TurnThrows(s.book, t, now) && Armed(s.book, key, id, data, at)
    ensures var b' := Turned(s, t, now).book;
      if t.id == id then Replaced(b', key, data) else Armed(b', key, id, data, at)
  {
    if Fires(s.book, t) {
      var c := s.book.timers[t.id].callback;
      if t.id == id {
        OwnCallReplaces(s, now, t.leaseId, t.ackId, key, id, data, at);
      } else {
        OtherCallKeepsArmed(s, c, now, t.leaseId, t.ackId, key, id, data, at);
      }
      CallKeepsTimer(s, t, now);
      CallIsAllowed(s, c, now, t.leaseId, t.ackId);
    }
    hide Called, CallThrows, CallIds;
  }

  lemma ReplacedTurn(s: Server, t: Turn, now: int, key: nat, data: string)
    requires CanTurn(s.book, t, now) && !TurnThrows(s.book, t, now) && Replaced(s.book, key, data)
    ensures Replaced(Turned(s, t, now).book, key, data)
  {
  }

  lemma {:induction false} ArmedDrain(states: seq<Server>, turns: seq<Turn>, now: int, n: nat, key: nat, id: nat, data: string, at: int)
    requires IsDrain(states, turns, now) && n < |states| && Armed(states[0].book, key, id, data, at)
    ensures Armed(states[n].book, key, id, data, at) || Replaced(states[n].book, key, data)
  {
    hide Armed, Replaced, CanTurn, TurnThrows, Turned, Earliest;
    if n > 0 {
      ArmedDrain(states, turns, now, n - 1, key, id, data, at);
      if Armed(states[n - 1].book, key, id, data, at) {
        ArmedTurn(states[n - 1], turns[n - 1], now, key, id, data, at);
      } else {
        ReplacedTurn(states[n - 1], turns[n - 1], now, key, data);
      }
    }
  }

  /** A complete drain at its time, in whatever order, replaces the value. */
  lemma ArmedDrainReplaces(states: seq<Server>, turns: seq<Turn>, now: int, key: nat, id: nat, data: string, at: int)
    requires IsDrain(states, turns, now) && Armed(states[0].book, key, id, data, at) && at <= now
    requires NoneDue(states[|turns|].book.timers, now)
    ensures var b := states[|turns|].book; key in b.elems && b.elems[key].value == data
  {
    ArmedDrain(states, turns, now, |turns|, key, id, data, at);
    hide IsDrain;
  }

  /** A late update that is deferred: the key is haunted by its old timer and armed with the new one. */
  lemma LateUpdateArms(b: Book, req: Update, now: int, id: nat)
    requires Inv(b, now) && NotInUse(b, req.op) && FreshId(b.timers, id)
    requires Overdue(b, req.key, now) && CannotDefer(b, req, now)
    ensures var b', m, o := BookUpdate(b, req, now, id), b.elems[req.key].manager, ToUint32(req.op);
      && Haunted(b', req.key, m.timerId, {id}, if o in b.deferred then {} else {o}, now)
      && id in b'.timers && b'.timers[id].callback == CommitDeferred(req.key) && b'.timers[id].repeat == 1 && id != 0
      && b'.timers[id].expire == now + TWO_32 - (now - m.expire) % TWO_32
      && b'.elems[req.key].temp == req.data && b'.elems[req.key].value == b.elems[req.key].value
  {
    LateUpdateHaunts(b, req, now, id);
    LateBookUpdate(b, req, now, id);
    hide Inv, BookUpdate, Haunted;
  }

  /** What the tick after a late update does: nothing throws, the key is free
      with its old value, though its update still waits, and the new timer is armed. */
  lemma LateUpdateDrained(s: Server, req: Update, now: int, leaseId: nat, states: seq<Server>, turns: seq<Turn>)
    requires Inv(s.book, now) && NotInUse(s.book, req.op) && FreshId(s.book.timers, leaseId)
    requires Overdue(s.book, req.key, now) && CannotDefer(s.book, req, now)
    requires IsDrain(states, turns, now) && states[0].book == BookUpdate(s.book, req, now, leaseId)
    ensures forall t :: CanTurn(states[|turns|].book, t, now) ==> !TurnThrows(states[|turns|].book, t, now)
    ensures var b := states[|turns|].book;
      NoneDue(b.timers, now) ==>
        && req.key in b.elems && b.elems[req.key].manager.timerId == 0
        && View(b, req.key) == Free(s.book.elems[req.key].value)
        && Armed(b, req.key, leaseId, req.data, now + TWO_32 - (now - s.book.elems[req.key].manager.expire) % TWO_32)
  {
    hide Inv, BookUpdate, CanTurn, TurnThrows, Turned, Earliest, NoneDue, CannotDefer, NotInUse, FreshId, View, Armed, Haunted, Released;
    hide ToUint32;
    var b, o := s.book, ToUint32(req.op);
    var entries := if o in b.deferred then {} else {o};
    LateUpdateArms(b, req, now, leaseId);
    HauntedDrainReleases(states, turns, now, req.key, b.elems[req.key].manager.timerId, {leaseId}, entries);
    if NoneDue(states[|turns|].book.timers, now) {
      ReleasedIsArmed(states[0].book, states[|turns|].book, req.key, leaseId, entries, now);
    }
  }

  lemma ReleasedIsArmed(start: Book, b: Book, key: nat, id: nat, entries: set<nat>, now: int)
    requires Released(b, key, {id}, entries, now) && SameStrays(start, b, key, {id}) && id != 0
    requires id in start.timers && start.timers[id].callback == CommitDeferred(key) && start.timers[id].repeat == 1
    ensures Armed(b, key, id, start.elems[key].temp, start.timers[id].expire) && b.elems[key].manager.timerId == 0
  {
    StrayArms(b, key, {id}, entries, now, id);
    hide Armed, Inv, Tidied;
  }

  /** A late update can be drained. */
  lemma LateUpdateDrain(s: Server, late: Server, req: Update, now: int, leaseId: nat)
    returns (states: seq<Server>, turns: seq<Turn>)
    requires Inv(s.book, now) && NotInUse(s.book, req.op) && FreshId(s.book.timers, leaseId)
    requires Overdue(s.book, req.key, now) && CannotDefer(s.book, req, now)
    requires late.book == BookUpdate(s.book, req, now, leaseId) && WellFormed(late.book)
    ensures IsDrain(states, turns, now) && states[0] == late && NoneDue(states[|turns|].book.timers, now)
    ensures var b := states[|turns|].book;
      && WellFormed(b) && req.key in b.elems && b.elems[req.key].manager.timerId == 0
      && View(b, req.key) == Free(s.book.elems[req.key].value)
      && Armed(b, req.key, leaseId, req.data, now + TWO_32 - (now - s.book.elems[req.key].manager.expire) % TWO_32)
  {
    hide Inv, BookUpdate, CanTurn, TurnThrows, Turned, Earliest, NoneDue, CannotDefer, NotInUse, FreshId, View, Armed, WellFormed;
    var thrown, failed;
    states, turns, thrown, failed := DrainExists(late, now);
    LateUpdateDrained(s, req, now, leaseId, states, turns);
  }

  /** All of it: a tick frees the key, another update is answered Ok a moment
      before the wrapped deadline, and the tick a moment later, unless a callback
      throws, replaces its value, though its own deadline is nearly ten seconds ahead. */
  lemma LateUpdateBreaksLease(s: Server, late: Server, req: Update, now: int, leaseId: nat, other: Update)
    returns (freed: Server, id: nat, id': nat, taken: Server)
    requires Inv(s.book, now) && NotInUse(s.book, req.op) && FreshId(s.book.timers, leaseId)
    requires Overdue(s.book, req.key, now) && CannotDefer(s.book, req, now) && other.key == req.key
    requires late.book == BookUpdate(s.book, req, now, leaseId) && WellFormed(late.book)
    ensures IsTick(late, freed, now)
    ensures var at := now + TWO_32 - (now - s.book.elems[req.key].manager.expire) % TWO_32;
      && UpdateIds(freed.book, other, at - 1, id, id') && taken == HandledUpdate(freed, other, at - 1, id, id')
      && UpdateAnswer(freed.book, other, at - 1)
           == Some(Answer(other.op, UpdateResponse, Ok, req.key, other.data, at - 1 + LEASE_MS, at - 1))
      && View(taken.book, req.key) == Leased(other.data, at - 1 + LEASE_MS)
      && forall ended :: IsTick(taken, ended, at) ==> req.key in ended.book.elems && ended.book.elems[req.key].value == req.data
  {
    hide CanTurn, TurnThrows, Turned, Earliest, NoneDue, Inv, Armed, View, HandledUpdate, BookUpdate, UpdateAnswer, UpdateIds;
    hide CannotDefer, NotInUse, FreshId, WellFormed;
    var at := now + TWO_32 - (now - s.book.elems[req.key].manager.expire) % TWO_32;
    var states, turns := LateUpdateDrain(s, late, req, now, leaseId);
    freed := states[|turns|];
    id, id' := FreshUpdateIds(freed.book, other, at - 1);
    FreeKeyUpdates(freed, other, at - 1, id, id', leaseId, req.data, at);
    taken := HandledUpdate(freed, other, at - 1, id, id');
    forall ended | IsTick(taken, ended, at)
      ensures req.key in ended.book.elems && ended.book.elems[req.key].value == req.data
    {
      ArmedTickReplaces(taken, ended, at, req.key, leaseId, req.data);
    }
  }

  lemma ArmedTickReplaces(s: Server, s': Server, now: int, key: nat, id: nat, data: string)
    requires IsTick(s, s', now) && Armed(s.book, key, id, data, now)
    ensures key in s'.book.elems && s'.book.elems[key].value == data
  {
    var states: seq<Server>, turns: seq<Turn> :|
      IsDrain(states, turns, now) && states[0] == s && states[|turns|] == s' && NoneDue(s'.book.timers, now);
    ArmedDrainReplaces(states, turns, now, key, id, data, now);
  }

  lemma FreshUpdateIds(b: Book, req: Update, now: int) returns (leaseId: nat, ackId: nat)
    ensures UpdateIds(b, req, now, leaseId, ackId)
  {
    leaseId := LargerThanAll(b.timers.Keys);
    ackId := LargerThanAll(BookUpdate(b, req, now, leaseId).timers.Keys);
  }

  lemma StuckUpdateHasNoAnswer(b: Book, req: Update, now: int)
    requires Inv(b, now) && CannotDefer(b, req, now)
    ensures UpdateAnswer(b, req, now) == None
  {
    DelayIsPositive(b, req.key, now);
    hide Inv, RemainingDelay;
  }
}
