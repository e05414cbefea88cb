/** Two deferred updates whose identifiers have the same low half. */
module Collisions {
  import opened Common
  import opened Messages
  import opened EventTimers
  import opened StateManager
  import opened ServerModel
  import opened ServerInvariant
  import opened Drain

  /** The entry under which the key waits is that of another key; every other
      waiting key has its own. */
  ghost predicate Colliding(b: Book, key: nat) {
    && Owners(b)
    && EntriesHeld(b)
    && InPhase(b, key, UpdateProtected)
    && (forall k :: InPhase(b, k, UpdateProtected) ==>
          b.elems[k].manager.opId in b.deferred && (k == key <==> b.deferred[b.elems[k].manager.opId].key != k))
  }

  /** The request that the entry of a colliding key belongs to. */
  ghost function First(b: Book, key: nat): Update
    requires Colliding(b, key)
  {
    b.deferred[b.elems[key].manager.opId]
  }

  /** The key waits for a commit that will find no entry. */
  ghost predicate Stuck(b: Book, key: nat) {
    && Owners(b)
    && EntriesHeld(b)
    && InPhase(b, key, UpdateProtected)
    && b.elems[key].manager.opId !in b.deferred
  }

  /** An update that cannot be deferred, of a key that is not overdue, collides. */
  lemma CollisionArises(b: Book, req: Update, now: int, id: nat)
    requires Inv(b, now) && NotInUse(b, req.op) && FreshId(b.timers, id)
    requires CannotDefer(b, req, now) && !Overdue(b, req.key, now)
    ensures var b', o := BookUpdate(b, req, now, id), ToUint32(req.op);
      && Colliding(b', req.key)
      && First(b', req.key) == b.deferred[o]
      && InPhase(b', b.deferred[o].key, UpdateProtected)
      && b'.elems == b.elems[req.key := b'.elems[req.key]]
      && b'.elems[req.key].value == b.elems[req.key].value && b'.elems[req.key].temp == req.data
      && b'.elems[req.key].manager.expire == b.elems[req.key].manager.expire
  {
    DeferralKeepsOwners(b, req, now, id);
    assert DeferredAt(b, ToUint32(req.op), b.deferred[ToUint32(req.op)]);
    hide Owners, EntriesHeld, BookUpdate;
  }

  lemma FirstWaits(b: Book, key: nat)
    requires Colliding(b, key)
    ensures var first := First(b, key);
      && first.key != key
      && InPhase(b, first.key, UpdateProtected)
      && b.elems[first.key].manager.opId == b.elems[key].manager.opId
      && b.elems[first.key].temp == first.data
  {
    assert DeferredAt(b, b.elems[key].manager.opId, First(b, key));
    hide Owners;
  }

  /** The commit fires that the key waits for. */
  ghost predicate Commits(b: Book, t: Turn, key: nat)
    requires t.id in b.timers
  {
    Fires(b, t) && b.timers[t.id].callback == CommitDeferred(key)
  }

  /** The answer that a colliding commit gives: to the other request, whose
      key keeps its old value and still waits. */
  ghost predicate AnswersFirst(s: Server, t: Turn, now: int, first: Update, e: DataCenter.Element)
    requires CanTurn(s.book, t, now)
  {
    var b' := Turned(s, t, now).book;
    && TurnAnswer(s.book, t, now) == Some(Answer(first.op, UpdateResponse, Ok, first.key, first.data, now + LEASE_MS, now))
    && first.key in b'.elems && b'.elems[first.key] == e
    && e.manager.phase == UpdateProtected && e.temp == first.data
  }

  /** The key still collides, and both keys wait as they did in the book `start`. */
  ghost predicate Waits(b: Book, start: Book, key: nat)
    requires Colliding(start, key)
  {
    var first := First(start, key);
    && Colliding(b, key) && First(b, key) == first
    && first.key in b.elems && first.key in start.elems
    && b.elems[key] == start.elems[key] && b.elems[first.key] == start.elems[first.key]
  }

  /** The colliding key commits first: it answers the other request, and the other key is stuck. */
  lemma CollidingCommit(s: Server, t: Turn, now: int, key: nat)
    requires Colliding(s.book, key) && CanTurn(s.book, t, now) && Commits(s.book, t, key)
    ensures var b, b', first := s.book, Turned(s, t, now).book, First(s.book, key);
      && first.key in b.elems
      && AnswersFirst(s, t, now, first, b.elems[first.key])
      && b'.elems[key].value == b.elems[key].temp
      && Stuck(b', first.key)
  {
    FirstWaits(s.book, key);
    NoTurnThrows(s, t, now);
    TurnKeepsOwners(s, t, now);
    TurnKeepsEntries(s, t, now);
    hide Owners, EntriesHeld, Turned, TurnThrows, CallIds;
  }

  /** A turn ends the waiting of one key at most, and takes its entry. */
  ghost predicate OnlyEnds(b: Book, b': Book, timer: Timer) {
    && (forall k :: InPhase(b', k, UpdateProtected) ==> InPhase(b, k, UpdateProtected))
    && (forall k :: InPhase(b, k, UpdateProtected) && !(timer.repeat > 0 && timer.callback == CommitDeferred(k)) ==>
          k in b'.elems && b'.elems[k] == b.elems[k])
    && (if timer.repeat > 0 && timer.callback.CommitDeferred?
        then InPhase(b, timer.callback.key, UpdateProtected) && b'.deferred == b.deferred - {b.elems[timer.callback.key].manager.opId}
             && !InPhase(b', timer.callback.key, UpdateProtected)
        else b'.deferred == b.deferred)
  }

  lemma TurnOnlyEnds(b: Book, b': Book, timer: Timer, now: int, leaseId: nat)
    requires HasTarget(b, timer.callback) && TurnMaps(b, b', timer, now, leaseId)
    ensures OnlyEnds(b, b', timer)
  {
  }

  lemma OtherTurns(b: Book, b': Book, timer: Timer, key: nat)
    requires Colliding(b, key) && Owners(b') && EntriesHeld(b') && OnlyEnds(b, b', timer)
    requires timer.repeat > 0 ==> timer.callback != CommitDeferred(key)
    ensures if timer.repeat > 0 && timer.callback == CommitDeferred(First(b, key).key)
            then Stuck(b', key) && b'.elems[key] == b.elems[key]
            else Waits(b', b, key)
  {
    FirstWaits(b, key);
    if timer.repeat > 0 && timer.callback.CommitDeferred? {
      var o := b.elems[timer.callback.key].manager.opId;
      assert timer.callback.key != First(b, key).key ==> b.deferred[o].key == timer.callback.key;
    }
    hide Owners, EntriesHeld;
  }

  /** No turn throws while an entry is left. If the other key commits first,
      the colliding one is stuck; any other turn changes neither. */
  lemma CollidingTurn(s: Server, t: Turn, now: int, key: nat)
    requires Colliding(s.book, key) && CanTurn(s.book, t, now)
    ensures !TurnThrows(s.book, t, now)
    ensures var b, b', first := s.book, Turned(s, t, now).book, First(s.book, key);
      !Commits(b, t, key) ==>
        if Commits(b, t, first.key) then Stuck(b', key) && b'.elems[key] == b.elems[key] else Waits(b', b, key)
  {
    NoTurnThrows(s, t, now);
    TurnKeepsOwners(s, t, now);
    TurnKeepsEntries(s, t, now);
    if !Commits(s.book, t, key) {
      TurnOnlyEnds(s.book, Turned(s, t, now).book, s.book.timers[t.id], now, t.leaseId);
      OtherTurns(s.book, Turned(s, t, now).book, s.book.timers[t.id], key);
    }
    hide Owners, EntriesHeld, Turned, TurnThrows, CallIds, TurnMaps, OnlyEnds, Waits, Stuck;
  }

  /** A key that is stuck stays so until its own commit, which throws. */
  lemma StuckTurn(s: Server, t: Turn, now: int, key: nat)
    requires Stuck(s.book, key) && CanTurn(s.book, t, now)
    ensures Commits(s.book, t, key) ==> TurnThrows(s.book, t, now)
    ensures !TurnThrows(s.book, t, now) ==>
              Stuck(Turned(s, t, now).book, key) && Turned(s, t, now).book.elems[key] == s.book.elems[key]
  {
    if !TurnThrows(s.book, t, now) {
      TurnKeepsOwners(s, t, now);
      TurnKeepsEntries(s, t, now);
      TurnOnlyEnds(s.book, Turned(s, t, now).book, s.book.timers[t.id], now, t.leaseId);
    }
    hide Owners, EntriesHeld, Turned, CallIds, TurnMaps;
  }

  /** A commit that throws has already replaced the value, and its timer stays
      due. When it fires again it throws again, and commits the moved-from value. */
  lemma ThrowingCommitRepeats(s: Server, t: Turn, again: Turn, now: int, key: nat)
    requires Owners(s.book) && CanTurn(s.book, t, now) && TurnThrows(s.book, t, now) && Commits(s.book, t, key)
    requires again.id == t.id && FreshId(Turned(s, t, now).book.timers, again.leaseId)
    requires FreshId(BookCommit(Turned(s, t, now).book, key, now, again.leaseId).timers, again.ackId)
    ensures var once := Turned(s, t, now);
      && CanTurn(once.book, again, now) && TurnThrows(once.book, again, now)
      && once.book.elems[key].value == s.book.elems[key].temp
      && Turned(once, again, now).book.elems[key].value == ""
  {
    FiringIsOnRecord(s.book, key, t.id);
    hide Owners;
  }

  // ---------- Whole drains ----------

  /** One of the two keys still waits as it did at the start. */
  ghost predicate Unpaid(b: Book, start: Book, key: nat)
    requires Colliding(start, key)
  {
    var first := First(start, key);
    && first.key in start.elems
    && (|| Waits(b, start, key)
        || (Stuck(b, key) && b.elems[key] == start.elems[key])
        || (Stuck(b, first.key) && b.elems[first.key] == start.elems[first.key]))
  }

  lemma TurnKeepsUnpaid(s: Server, t: Turn, now: int, start: Book, key: nat)
    requires CanTurn(s.book, t, now) && !TurnThrows(s.book, t, now)
    requires Colliding(start, key) && Unpaid(s.book, start, key)
    ensures Unpaid(Turned(s, t, now).book, start, key)
  {
    hide Turned, TurnThrows, Owners, EntriesHeld, CallIds;
    var first := First(start, key);
    FirstWaits(start, key);
    if Waits(s.book, start, key) {
      if Commits(s.book, t, key) {
        CollidingCommit(s, t, now, key);
      } else {
        CollidingTurn(s, t, now, key);
      }
    } else if Stuck(s.book, key) && s.book.elems[key] == start.elems[key] {
      StuckTurn(s, t, now, key);
    } else {
      StuckTurn(s, t, now, first.key);
    }
  }

  lemma {:induction false} DrainKeepsUnpaid(states: seq<Server>, turns: seq<Turn>, now: int, key: nat, n: nat)
    requires IsDrain(states, turns, now) && Colliding(states[0].book, key) && n < |states|
    ensures Unpaid(states[n].book, states[0].book, key)
  {
    hide Turned, TurnThrows, CanTurn, Colliding, Stuck, Earliest;
    if n == 0 {
      WaitsAtStart(states[0].book, key);
    } else {
      DrainKeepsUnpaid(states, turns, now, key, n - 1);
      TurnKeepsUnpaid(states[n - 1], turns[n - 1], now, states[0].book, key);
    }
  }

  lemma WaitingIsNotDue(b: Book, now: int, key: nat)
    requires ElementsOwn(b) && NoneDue(b.timers, now) && InPhase(b, key, UpdateProtected)
    ensures now < b.elems[key].manager.expire
  {
    assert ElementOwns(b.timers, key, b.elems[key].manager);
  }

  /** No drain can be completed once both deadlines have passed: whatever the
      order, one of the two commits throws, and a tick ends there. */
  lemma NoDrainPastCollision(states: seq<Server>, turns: seq<Turn>, now: int, key: nat)
    requires IsDrain(states, turns, now) && Colliding(states[0].book, key)
    requires NoneDue(states[|turns|].book.timers, now)
    ensures var b := states[0].book;
      First(b, key).key in b.elems
      && (now < b.elems[key].manager.expire || now < b.elems[First(b, key).key].manager.expire)
  {
    DrainKeepsUnpaid(states, turns, now, key, |turns|);
    var b, start := states[|turns|].book, states[0].book;
    var first := First(start, key);
    var k := if Stuck(b, first.key) && b.elems[first.key] == start.elems[first.key] then first.key else key;
    WaitingIsNotDue(b, now, k);
    hide IsDrain, ElementsOwn, EntriesHeld;
  }

  /** A complete drain between the two deadlines, in whatever order, answers
      the request of the key that still waits: Ok, with a value it does not have. */
  lemma DrainAnswersFirst(states: seq<Server>, turns: seq<Turn>, now: int, key: nat)
    requires IsDrain(states, turns, now) && Colliding(states[0].book, key)
    requires NoneDue(states[|turns|].book.timers, now)
    requires states[0].book.elems[key].manager.expire <= now
    ensures var first := First(states[0].book, key);
      && first.key in states[0].book.elems
      && exists i :: 0 <= i < |turns| && CanTurn(states[i].book, turns[i], now)
                     && AnswersFirst(states[i], turns[i], now, first, states[0].book.elems[first.key])
  {
    NoDrainPastCollision(states, turns, now, key);
    DrainWaitsOrAnswers(states, turns, now, key, |turns|);
    if Waits(states[|turns|].book, states[0].book, key) {
      WaitingIsNotDue(states[|turns|].book, now, key);
    }
    hide IsDrain, ElementsOwn, EntriesHeld, AnswersFirst, CanTurn;
  }

  lemma {:induction false} DrainWaitsOrAnswers(states: seq<Server>, turns: seq<Turn>, now: int, key: nat, n: nat)
    requires IsDrain(states, turns, now) && Colliding(states[0].book, key) && n < |states|
    requires var b := states[0].book;
      First(b, key).key in b.elems && now < b.elems[First(b, key).key].manager.expire
    ensures var first := First(states[0].book, key);
      || Waits(states[n].book, states[0].book, key)
      || exists i :: 0 <= i < n && CanTurn(states[i].book, turns[i], now)
                     && AnswersFirst(states[i], turns[i], now, first, states[0].book.elems[first.key])
  {
    hide Turned, TurnThrows, CanTurn, Colliding, Waits, Earliest, AnswersFirst;
    if n > 0 {
      DrainWaitsOrAnswers(states, turns, now, key, n - 1);
      if Waits(states[n - 1].book, states[0].book, key) {
        WaitsOrAnswers(states[n - 1], turns[n - 1], now, states[0].book, key);
      }
    } else {
      WaitsAtStart(states[0].book, key);
    }
  }

  lemma WaitsAtStart(b: Book, key: nat)
    requires Colliding(b, key)
    ensures Waits(b, b, key)
  {
    FirstWaits(b, key);
    hide Owners, EntriesHeld;
  }

  lemma WaitsOrAnswers(s: Server, t: Turn, now: int, start: Book, key: nat)
    requires CanTurn(s.book, t, now) && Colliding(start, key) && Waits(s.book, start, key)
    requires now < start.elems[First(start, key).key].manager.expire
    ensures var first := First(start, key);
      Waits(Turned(s, t, now).book, start, key) || AnswersFirst(s, t, now, first, start.elems[first.key])
  {
    if Commits(s.book, t, key) {
      CollidingCommit(s, t, now, key);
    } else {
      CollidingTurn(s, t, now, key);
    }
    var first := First(start, key);
    if Commits(s.book, t, first.key) {
      FiringIsOnRecord(s.book, first.key, t.id);
    }
    hide Turned, TurnThrows, Owners, EntriesHeld, AnswersFirst, CallIds;
  }
}
