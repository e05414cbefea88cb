/** A key whose lease ran out and was not drained, when a read or an update
    starts another timer beside the old one: what every drain then does. */
module Strays {
  import opened Common
  import opened Messages
  import opened EventTimers
  import opened StateManager
  import opened DataCenter
  import opened ServerModel
  import opened ServerInvariant
  import opened KeySpec
  import opened Drain

  /** The book as if the lease of the key had been drained in time: the key is
      idle, and without its stray timers and entries. */
  ghost function Tidied(b: Book, key: nat, strays: set<nat>, entries: set<nat>): Book
    requires key in b.elems
  {
    Book(b.elems[key := b.elems[key].(manager := Manager(Idle, 0, 0, b.elems[key].manager.opId))],
         b.timers - strays, b.waitAck, b.deferred - entries)
  }

  ghost function TidiedServer(s: Server, key: nat, strays: set<nat>, entries: set<nat>): Server
    requires key in s.book.elems
  {
    s.(book := Tidied(s.book, key, strays, entries))
  }

  /** The tidied book is in order, and the strays are in the queue. */
  ghost predicate Tidy(b: Book, key: nat, strays: set<nat>, entries: set<nat>, now: int) {
    key in b.elems && strays <= b.timers.Keys && Inv(Tidied(b, key, strays, entries), now)
  }

  /** Nothing that fires but the strays concerns the key. */
  lemma OtherTimers(b: Book, t: Turn, key: nat, strays: set<nat>, entries: set<nat>, now: int)
    requires Tidy(b, key, strays, entries, now) && CanTurn(b, t, now) && t.id !in strays && Fires(b, t)
    ensures var c := b.timers[t.id].callback;
      && !IsLeaseOf(c, key)
      && (c.CommitDeferred? ==>
            && InPhase(b, c.key, UpdateProtected) && b.elems[c.key].manager.opId in b.deferred - entries
            && b.elems[c.key].manager.expire <= now)
  {
    var r, c := Tidied(b, key, strays, entries), b.timers[t.id].callback;
    if c.LeaseExpired? || c.CommitDeferred? {
      FiringIsOnRecord(r, c.key, t.id);
    }
    hide Owners;
  }

  /** A commit of another key, whose own timer is due. */
  lemma CommitCommutes(b: Book, k: nat, now: int, leaseId: nat, key: nat, strays: set<nat>, entries: set<nat>)
    requires key in b.elems && k in b.elems && k != key && strays <= b.timers.Keys && FreshId(b.timers, leaseId)
    requires b.elems[k].manager.opId !in entries && b.elems[k].manager.expire <= now
    ensures var b' := BookCommit(b, k, now, leaseId);
      && BookCommit(Tidied(b, key, strays, entries), k, now, leaseId) == Tidied(b', key, strays, entries)
      && b'.timers == Added(b.timers, leaseId, LeaseExpired(k), LEASE_MS, 1, now)
      && b'.elems[key] == b.elems[key]
      && CommitAnswer(Tidied(b, key, strays, entries), k, now) == CommitAnswer(b, k, now)
  {
    var r, b' := Tidied(b, key, strays, entries), BookCommit(b, k, now, leaseId);
    assert BookCommit(r, k, now, leaseId).elems == Tidied(b', key, strays, entries).elems;
    assert BookCommit(r, k, now, leaseId).timers == Tidied(b', key, strays, entries).timers;
    assert BookCommit(r, k, now, leaseId).deferred == Tidied(b', key, strays, entries).deferred;
  }

  lemma RegisteredCommutes(b: Book, r: Response, now: int, id: nat, key: nat, strays: set<nat>, entries: set<nat>)
    requires key in b.elems && strays <= b.timers.Keys && FreshId(b.timers, id)
    ensures Registered(Tidied(b, key, strays, entries), r, now, id) == Tidied(Registered(b, r, now, id), key, strays, entries)
  {
    assert Registered(Tidied(b, key, strays, entries), r, now, id).timers == Added(b.timers, id, Resend(r), ACK_MS, 1, now) - strays;
  }

  /** What the strays and their key are before and after. */
  ghost predicate Untouched(b: Book, b': Book, key: nat, strays: set<nat>) {
    && key in b.elems && key in b'.elems && b'.elems[key] == b.elems[key]
    && forall x :: x in strays && x in b.timers ==> x in b'.timers && b'.timers[x] == b.timers[x]
  }

  lemma CallCommutes(s: Server, c: Callback, now: int, leaseId: nat, ackId: nat, key: nat, strays: set<nat>, entries: set<nat>)
    requires key in s.book.elems && strays <= s.book.timers.Keys && HasTarget(s.book, c) && !IsLeaseOf(c, key)
    requires CallIds(s.book, c, now, leaseId, ackId)
    requires c.CommitDeferred? ==>
               s.book.elems[c.key].manager.opId !in entries && s.book.elems[c.key].manager.expire <= now
    ensures var b, r := s.book, TidiedServer(s, key, strays, entries);
      var b' := Called(s, c, now, leaseId, ackId).book;
      && CallIds(r.book, c, now, leaseId, ackId)
      && (CallThrows(b, c) <==> CallThrows(r.book, c))
      && Untouched(b, b', key, strays)
      && Called(r, c, now, leaseId, ackId).book == Tidied(b', key, strays, entries)
  {
    var b, r := s.book, TidiedServer(s, key, strays, entries);
    if c.CommitDeferred? {
      CommitCommutes(b, c.key, now, leaseId, key, strays, entries);
      var a := CommitAnswer(b, c.key, now);
      if a.Some? {
        RegisteredCommutes(BookCommit(b, c.key, now, leaseId), Reply(a.value), now, ackId, key, strays, entries);
      }
      hide BookCommit, CommitAnswer, Reply;
    } else if c.LeaseExpired? {
      assert Called(r, c, now, leaseId, ackId).book.elems == Tidied(Called(s, c, now, leaseId, ackId).book, key, strays, entries).elems;
    }
  }

  /** The end of a turn on a timer that is no stray. */
  lemma SettlingCommutes(b: Book, id: nat, now: int, key: nat, strays: set<nat>, entries: set<nat>)
    requires key in b.elems && id in b.timers && id !in strays
    ensures var r, q := Tidied(b, key, strays, entries), Settled(b.timers, id, now);
      && id in r.timers
      && r.(timers := Settled(r.timers, id, now)) == Tidied(b.(timers := q), key, strays, entries)
      && Untouched(b, b.(timers := q), key, strays)
  {
    var r, q := Tidied(b, key, strays, entries), Settled(b.timers, id, now);
    assert Settled(r.timers, id, now) == q - strays;
  }

  lemma RemovalCommutes(b: Book, id: nat, key: nat, strays: set<nat>, entries: set<nat>)
    requires key in b.elems && id in b.timers && id !in strays
    ensures var r, b' := Tidied(b, key, strays, entries), b.(timers := b.timers - {id});
      && r.(timers := r.timers - {id}) == Tidied(b', key, strays, entries)
      && Untouched(b, b', key, strays)
  {
    assert b.timers - {id} - strays == b.timers - strays - {id};
  }

  lemma UntouchedTwice(b: Book, b': Book, b'': Book, key: nat, strays: set<nat>)
    requires Untouched(b, b', key, strays) && Untouched(b', b'', key, strays)
    ensures Untouched(b, b'', key, strays)
  {
  }

  /** A turn on any other timer does the same to the tidied book. */
  lemma TurnCommutes(s: Server, t: Turn, key: nat, strays: set<nat>, entries: set<nat>, now: int)
    requires Tidy(s.book, key, strays, entries, now) && CanTurn(s.book, t, now) && t.id !in strays
    ensures var s', b' := TidiedServer(s, key, strays, entries), Turned(s, t, now).book;
      && CanTurn(s'.book, t, now)
      && (TurnThrows(s.book, t, now) <==> TurnThrows(s'.book, t, now))
      && Untouched(s.book, b', key, strays)
      && Turned(s', t, now).book == Tidied(b', key, strays, entries)
  {
    var timer, s' := s.book.timers[t.id], TidiedServer(s, key, strays, entries);
    assert s'.book.timers[t.id] == timer && HasTarget(s'.book, timer.callback);
    if Fires(s.book, t) {
      OtherTimers(s.book, t, key, strays, entries, now);
      hide Inv, Tidied, Called, CallThrows, CallIds, Settled, Untouched;
      CallCommutes(s, timer.callback, now, t.leaseId, t.ackId, key, strays, entries);
      CallKeepsTimer(s, t, now);
      var called := Called(s, timer.callback, now, t.leaseId, t.ackId).book;
      SettlingCommutes(called, t.id, now, key, strays, entries);
      if !CallThrows(s.book, timer.callback) {
        UntouchedTwice(s.book, called, called.(timers := Settled(called.timers, t.id, now)), key, strays);
      }
    } else {
      hide Inv, Tidied, Called, CallThrows, CallIds, Settled, Untouched;
      RemovalCommutes(s.book, t.id, key, strays, entries);
    }
  }

  lemma OtherTurnKeepsTidy(s: Server, t: Turn, key: nat, strays: set<nat>, entries: set<nat>, now: int)
    requires Tidy(s.book, key, strays, entries, now) && CanTurn(s.book, t, now) && t.id !in strays
    ensures !TurnThrows(s.book, t, now)
    ensures Tidy(Turned(s, t, now).book, key, strays, entries, now)
    ensures Untouched(s.book, Turned(s, t, now).book, key, strays)
  {
    TurnCommutes(s, t, key, strays, entries, now);
    TurnKeepsInv(TidiedServer(s, key, strays, entries), t, now);
    hide Inv, Turned, TurnThrows, CanTurn, Tidied;
  }

  // ---------- An orphan and the timers that are not due ----------

  /** A timer is due that ends whatever lease the key has; the other strays are not due. */
  ghost predicate Haunted(b: Book, key: nat, orphan: nat, others: set<nat>, entries: set<nat>, now: int) {
    && Tidy(b, key, others + {orphan}, entries, now)
    && orphan !in others
    && b.timers[orphan].callback == LeaseExpired(key) && b.timers[orphan].repeat == 1 && b.timers[orphan].expire <= now
    && forall x :: x in others ==> now < b.timers[x].expire
  }

  /** The key is idle; its strays are not due. */
  ghost predicate Released(b: Book, key: nat, others: set<nat>, entries: set<nat>, now: int) {
    && Tidy(b, key, others, entries, now)
    && b.elems[key].manager == Manager(Idle, 0, 0, b.elems[key].manager.opId)
    && forall x :: x in others ==> now < b.timers[x].expire
  }

  /** The values of the key and its strays as they were in the book `start`. */
  ghost predicate SameStrays(start: Book, b: Book, key: nat, others: set<nat>) {
    && key in start.elems && key in b.elems
    && b.elems[key].value == start.elems[key].value && b.elems[key].temp == start.elems[key].temp
    && forall x :: x in others && x in start.timers ==> x in b.timers && b.timers[x] == start.timers[x]
  }

  /** The orphan fires and frees the key. */
  lemma OrphanTurn(s: Server, t: Turn, key: nat, others: set<nat>, entries: set<nat>, now: int)
    requires Haunted(s.book, key, t.id, others, entries, now) && CanTurn(s.book, t, now)
    ensures !TurnThrows(s.book, t, now)
    ensures Released(Turned(s, t, now).book, key, others, entries, now)
    ensures SameStrays(s.book, Turned(s, t, now).book, key, others)
  {
    var b, b' := s.book, Turned(s, t, now).book;
    assert b'.timers == b.timers - {t.id};
    assert b'.timers - others == b.timers - (others + {t.id});
    assert Tidied(b', key, others, entries).elems == Tidied(b, key, others + {t.id}, entries).elems;
    assert Tidied(b', key, others, entries) == Tidied(b, key, others + {t.id}, entries);
    hide Inv;
  }

  /** Any turn of a haunted queue leaves it haunted or releases the key, and none throws. */
  lemma HauntedTurn(s: Server, t: Turn, key: nat, orphan: nat, others: set<nat>, entries: set<nat>, now: int)
    requires Haunted(s.book, key, orphan, others, entries, now) && CanTurn(s.book, t, now)
    ensures !TurnThrows(s.book, t, now)
    ensures var b' := Turned(s, t, now).book;
      Haunted(b', key, orphan, others, entries, now) || Released(b', key, others, entries, now)
    ensures SameStrays(s.book, Turned(s, t, now).book, key, others)
  {
    if t.id == orphan {
      OrphanTurn(s, t, key, others, entries, now);
    } else {
      OtherTurnKeepsTidy(s, t, key, others + {orphan}, entries, now);
    }
    hide Turned, TurnThrows, Inv, Tidied, CallIds;
  }

  lemma ReleasedTurn(s: Server, t: Turn, key: nat, others: set<nat>, entries: set<nat>, now: int)
    requires Released(s.book, key, others, entries, now) && CanTurn(s.book, t, now)
    ensures !TurnThrows(s.book, t, now)
    ensures Released(Turned(s, t, now).book, key, others, entries, now)
    ensures SameStrays(s.book, Turned(s, t, now).book, key, others)
  {
    OtherTurnKeepsTidy(s, t, key, others, entries, now);
    hide Turned, TurnThrows, Inv, Tidied, CallIds;
  }

  lemma {:induction false} HauntedDrain(states: seq<Server>, turns: seq<Turn>, now: int, n: nat,
                                        key: nat, orphan: nat, others: set<nat>, entries: set<nat>)
    requires IsDrain(states, turns, now) && n < |states|
    requires Haunted(states[0].book, key, orphan, others, entries, now)
    ensures var b := states[n].book;
      && (Haunted(b, key, orphan, others, entries, now) || Released(b, key, others, entries, now))
      && SameStrays(states[0].book, b, key, others)
  {
    if n > 0 {
      HauntedDrain(states, turns, now, n - 1, key, orphan, others, entries);
      hide Haunted, Released, CanTurn, TurnThrows, Turned, Earliest;
      if Haunted(states[n - 1].book, key, orphan, others, entries, now) {
        HauntedTurn(states[n - 1], turns[n - 1], key, orphan, others, entries, now);
      } else {
        ReleasedTurn(states[n - 1], turns[n - 1], key, others, entries, now);
      }
    }
  }

  /** Whatever the order, no turn of the drain throws, and the complete drain
      leaves the key free with its old value. */
  lemma HauntedDrainReleases(states: seq<Server>, turns: seq<Turn>, now: int,
                             key: nat, orphan: nat, others: set<nat>, entries: set<nat>)
    requires IsDrain(states, turns, now) && Haunted(states[0].book, key, orphan, others, entries, now)
    ensures forall t :: CanTurn(states[|turns|].book, t, now) ==> !TurnThrows(states[|turns|].book, t, now)
    ensures NoneDue(states[|turns|].book.timers, now) ==>
              && Released(states[|turns|].book, key, others, entries, now)
              && View(states[|turns|].book, key) == Free(states[0].book.elems[key].value)
    ensures SameStrays(states[0].book, states[|turns|].book, key, others)
  {
    var last := states[|turns|];
    HauntedDrain(states, turns, now, |turns|, key, orphan, others, entries);
    forall t | CanTurn(last.book, t, now)
      ensures !TurnThrows(last.book, t, now)
    {
      if Haunted(last.book, key, orphan, others, entries, now) {
        HauntedTurn(last, t, key, orphan, others, entries, now);
      } else {
        ReleasedTurn(last, t, key, others, entries, now);
      }
    }
    hide IsDrain, CanTurn, TurnThrows, Inv, Tidied;
  }

  // ---------- How a key gets strays ----------

  /** Without its timer, an overdue lease leaves the book in order. */
  lemma OverdueIsTidy(b: Book, key: nat, now: int)
    requires Inv(b, now) && Overdue(b, key, now)
    ensures var orphan := b.elems[key].manager.timerId;
      && Tidy(b, key, {orphan}, {}, now)
      && b.timers[orphan].callback == LeaseExpired(key) && b.timers[orphan].repeat == 1
      && b.timers[orphan].expire == b.elems[key].manager.expire
  {
    var orphan := b.elems[key].manager.timerId;
    assert ElementOwns(b.timers, key, b.elems[key].manager);
    LeaseTurnKeepsOwners(b, key, orphan);
    var b' := b.With(LeaseExpiredAt(b.Center(), key)).(timers := b.timers - {orphan});
    assert b'.elems == Tidied(b, key, {orphan}, {}).elems;
    assert b' == Tidied(b, key, {orphan}, {});
    hide Owners;
  }

  /** What an idle key sets aside and which operation it names does not matter. */
  lemma IdleElement(b: Book, key: nat, e: Element, now: int)
    requires Inv(b, now) && InPhase(b, key, Idle)
    requires e.manager == Manager(Idle, 0, 0, e.manager.opId)
    ensures Inv(b.(elems := b.elems[key := e]), now)
  {
    var b' := b.(elems := b.elems[key := e]);
    assert Owners(b') by {
      KeyIsOwner(b, key);
      OnlyKeyKeepsOwners(b, b', key);
    }
    hide Owners;
  }

  /** A read of an overdue key starts a new timer and leaves the old one. */
  lemma OverdueBookRead(b: Book, req: Request, now: int, id: nat)
    requires Inv(b, now) && Overdue(b, req.key, now) && FreshId(b.timers, id)
    ensures BookRead(b, req, now, id) ==
      b.(elems := b.elems[req.key := b.elems[req.key].(manager := Manager(Guaranteed, id, now + LEASE_MS, ToUint32(req.op)))],
         timers := Added(b.timers, id, LeaseExpired(req.key), LEASE_MS, 1, now))
  {
    hide Inv, ToUint32;
  }

  /** So does an update whose delay wraps; it also enters its request, if it can. */
  lemma LateBookUpdate(b: Book, req: Update, now: int, id: nat)
    requires Inv(b, now) && Overdue(b, req.key, now) && CannotDefer(b, req, now) && FreshId(b.timers, id)
    ensures var m, o := b.elems[req.key].manager, ToUint32(req.op);
      var delay := TWO_32 - (now - m.expire) % TWO_32;
      BookUpdate(b, req, now, id) ==
        b.(elems := b.elems[req.key := Element(Manager(UpdateProtected, id, now + delay, o), b.elems[req.key].value, req.data)],
           timers := Added(b.timers, id, CommitDeferred(req.key), delay, 1, now),
           deferred := if o in b.deferred then b.deferred else b.deferred[o := req])
  {
    DelayIsPositive(b, req.key, now);
    hide Inv, RemainingDelay, ToUint32;
  }

  /** A key with a new timer beside its overdue one. */
  lemma StrayAdded(b: Book, b': Book, key: nat, id: nat, timer: Timer, e: Element, entries: set<nat>, now: int)
    requires Inv(b, now) && Overdue(b, key, now) && FreshId(b.timers, id) && now < timer.expire
    requires b'.elems == b.elems[key := e] && b'.timers == b.timers[id := timer]
    requires b'.waitAck == b.waitAck && b'.deferred - entries == b.deferred
    ensures Haunted(b', key, b.elems[key].manager.timerId, {id}, entries, now)
  {
    var orphan := b.elems[key].manager.timerId;
    OverdueIsTidy(b, key, now);
    TidiedAdded(b, b', key, orphan, id, timer, e, entries);
    hide Inv, Tidied;
    var tidied := Tidied(b, key, {orphan}, {});
    var e' := e.(manager := Manager(Idle, 0, 0, e.manager.opId));
    IdleElement(tidied, key, e', now) by {
      TidiedIsIdle(b, key, {orphan}, {});
    }
  }

  lemma TidiedIsIdle(b: Book, key: nat, strays: set<nat>, entries: set<nat>)
    requires key in b.elems
    ensures InPhase(Tidied(b, key, strays, entries), key, Idle)
  {
  }

  lemma TidiedAdded(b: Book, b': Book, key: nat, orphan: nat, id: nat, timer: Timer, e: Element, entries: set<nat>)
    requires key in b.elems && id !in b.timers
    requires b'.elems == b.elems[key := e] && b'.timers == b.timers[id := timer]
    requires b'.waitAck == b.waitAck && b'.deferred - entries == b.deferred
    ensures var tidied := Tidied(b, key, {orphan}, {});
      Tidied(b', key, {id} + {orphan}, entries)
        == tidied.(elems := tidied.elems[key := e.(manager := Manager(Idle, 0, 0, e.manager.opId))])
  {
    var tidied, tidied' := Tidied(b, key, {orphan}, {}), Tidied(b', key, {id} + {orphan}, entries);
    assert tidied'.elems == tidied.elems[key := tidied'.elems[key]];
    assert tidied'.timers == tidied.timers;
    assert tidied'.deferred == tidied.deferred;
  }

  lemma OverdueReadHaunts(s: Server, req: Request, now: int, leaseId: nat, ackId: nat)
    requires Inv(s.book, now) && NotInUse(s.book, req.op) && ReadIds(s.book, req, now, leaseId, ackId)
    requires Overdue(s.book, req.key, now)
    ensures Haunted(HandledRead(s, req, now, leaseId, ackId).book, req.key, s.book.elems[req.key].manager.timerId, {leaseId}, {}, now)
  {
    var b, key, b' := s.book, req.key, BookRead(s.book, req, now, leaseId);
    OverdueBookRead(b, req, now, leaseId);
    StrayAdded(b, b', key, leaseId, b'.timers[leaseId], b'.elems[key], {}, now);
    RegisteredKeepsHaunted(b', Reply(ReadAnswer(s, req, now)), now, ackId, key, b.elems[key].manager.timerId, {leaseId}, {});
    hide Inv, BookRead, Haunted, ReadAnswer, Overdue;
  }

  lemma RegisteredKeepsHaunted(b: Book, r: Response, now: int, id: nat, key: nat, orphan: nat, others: set<nat>, entries: set<nat>)
    requires Haunted(b, key, orphan, others, entries, now) && FreshId(b.timers, id)
    requires r.op !in b.waitAck && forall o :: o in b.deferred - entries ==> b.deferred[o].op != r.op
    ensures Haunted(Registered(b, r, now, id), key, orphan, others, entries, now)
  {
    RegisteredCommutes(b, r, now, id, key, others + {orphan}, entries);
    RegisteredKeepsInv(Tidied(b, key, others + {orphan}, entries), r, now, id);
    hide Inv;
  }

  lemma LateUpdateHaunts(b: Book, req: Update, now: int, id: nat)
    requires Inv(b, now) && NotInUse(b, req.op) && FreshId(b.timers, id)
    requires Overdue(b, req.key, now) && CannotDefer(b, req, now)
    ensures var entries := if ToUint32(req.op) in b.deferred then {} else {ToUint32(req.op)};
      Haunted(BookUpdate(b, req, now, id), req.key, b.elems[req.key].manager.timerId, {id}, entries, now)
  {
    var b', o := BookUpdate(b, req, now, id), ToUint32(req.op);
    LateBookUpdate(b, req, now, id);
    var entries := if o in b.deferred then {} else {o};
    assert b'.deferred - entries == b.deferred;
    StrayAdded(b, b', req.key, id, b'.timers[id], b'.elems[req.key], entries, now);
    hide Inv, BookUpdate, Haunted, ToUint32;
  }
}
