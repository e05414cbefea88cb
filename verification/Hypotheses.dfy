/** What the runs assume, and what happens without it. */
module Hypotheses {
  import opened Common
  import opened Messages
  import opened EventTimers
  import opened StateManager
  import opened ServerModel
  import opened ServerInvariant
  import opened KeySpec
  import opened Client
  import opened Drain
  import opened Strays
  import opened LateUpdates
  import opened Unguarded
  import opened World
  import opened Safety
  import opened Schedules

  // ---------- Reads of an overdue lease ----------

  /** The timer of an overdue lease survives a read: a second one is started beside it. */
  lemma OverdueReadOrphans(s: Server, req: Request, now: int, leaseId: nat, ackId: nat)
    requires Inv(s.book, now) && ReadIds(s.book, req, now, leaseId, ackId) && Overdue(s.book, req.key, now)
    ensures var b, b' := s.book, HandledRead(s, req, now, leaseId, ackId).book;
      var id := b.elems[req.key].manager.timerId;
      && id != leaseId && id != ackId
      && id in b.timers && id in b'.timers && b'.timers[id] == b.timers[id]
      && b.timers[id].callback == LeaseExpired(req.key) && b.timers[id].repeat == 1 && b.timers[id].expire <= now
      && b'.elems[req.key].manager == Manager(Guaranteed, leaseId, now + LEASE_MS, ToUint32(req.op))
      && !Owned(b', id, b'.timers[id].callback)
  {
  }

  /** A read leaves the books in order exactly when its key is not overdue. */
  lemma ReadIsSafeUnlessOverdue(s: Server, req: Request, now: int, leaseId: nat, ackId: nat)
    requires Inv(s.book, now) && NotInUse(s.book, req.op) && ReadIds(s.book, req, now, leaseId, ackId)
    ensures Inv(HandledRead(s, req, now, leaseId, ackId).book, now) <==> !Overdue(s.book, req.key, now)
  {
    if Overdue(s.book, req.key, now) {
      OverdueReadOrphans(s, req, now, leaseId, ackId);
    } else {
      HandledReadKeepsInv(s, req, now, leaseId, ackId);
    }
    hide WellFormed, ElementsOwn, AcksOwn, DeferralsMatch, DeadlinesBounded, HandledRead;
  }

  lemma OverdueReadAnswers(s: Server, req: Request, now: int)
    requires Inv(s.book, now) && Overdue(s.book, req.key, now)
    ensures ReadAnswer(s, req, now) == Answer(req.op, ReadResponse, Ok, req.key, s.book.elems[req.key].value, now + LEASE_MS, now)
  {
    hide Inv;
  }

  /** What the tick after such a read does, whatever order it takes: nothing
      throws, and the key is free although its lease has just begun. */
  lemma OverdueReadDrained(s: Server, req: Request, now: int, leaseId: nat, ackId: nat, states: seq<Server>, turns: seq<Turn>)
    requires Inv(s.book, now) && NotInUse(s.book, req.op) && ReadIds(s.book, req, now, leaseId, ackId)
    requires Overdue(s.book, req.key, now)
    requires IsDrain(states, turns, now) && states[0] == HandledRead(s, req, now, leaseId, ackId)
    ensures forall t :: CanTurn(states[|turns|].book, t, now) ==> !TurnThrows(states[|turns|].book, t, now)
    ensures NoneDue(states[|turns|].book.timers, now) ==>
              View(states[|turns|].book, req.key) == Free(s.book.elems[req.key].value)
  {
    OverdueReadHaunts(s, req, now, leaseId, ackId);
    ReadKeepsValue(s, req, now, leaseId, ackId);
    hide Inv, HandledRead, IsDrain, CanTurn, TurnThrows, Haunted, Released, View, ReadIds, NotInUse;
    HauntedDrainReleases(states, turns, now, req.key, s.book.elems[req.key].manager.timerId, {leaseId}, {});
  }

  lemma ReadKeepsValue(s: Server, req: Request, now: int, leaseId: nat, ackId: nat)
    requires req.key in s.book.elems
    ensures var b := HandledRead(s, req, now, leaseId, ackId).book;
      req.key in b.elems && b.elems[req.key].value == s.book.elems[req.key].value
  {
  }

  /** So the next update takes effect inside the lease that the read was
      granted, at the very moment of the read. */
  lemma OverdueReadBreaksLease(s: Server, req: Request, now: int, leaseId: nat, ackId: nat,
                               states: seq<Server>, turns: seq<Turn>, update: Update, id: nat, id': nat)
    requires Inv(s.book, now) && NotInUse(s.book, req.op) && ReadIds(s.book, req, now, leaseId, ackId)
    requires Overdue(s.book, req.key, now) && update.key == req.key
    requires IsDrain(states, turns, now) && states[0] == HandledRead(s, req, now, leaseId, ackId)
    requires NoneDue(states[|turns|].book.timers, now)
    ensures var promise := ReadAnswer(s, req, now);
      && promise.result == Ok && promise.deadline == now + LEASE_MS
      && View(states[0].book, req.key) == Leased(promise.value, promise.deadline)
      && View(states[|turns|].book, req.key) == Free(promise.value)
      && View(HandledUpdate(states[|turns|], update, now, id, id').book, req.key) == Leased(update.data, now + LEASE_MS)
  {
    OverdueReadDrained(s, req, now, leaseId, ackId, states, turns);
    OverdueReadAnswers(s, req, now);
    ReadRefines(s, req, now, leaseId, ackId, req.key);
    ReadAnswers(s, req, now);
    hide Inv, HandledRead, IsDrain, ReadIds, NotInUse, ReadAnswer, NoneDue;
    FreeKeyUpdated(states[|turns|], update, now, id, id');
    hide HandledUpdate;
  }

  lemma FreeKeyUpdated(s: Server, req: Update, now: int, leaseId: nat, ackId: nat)
    requires View(s.book, req.key).Free?
    ensures View(HandledUpdate(s, req, now, leaseId, ackId).book, req.key) == Leased(req.data, now + LEASE_MS)
  {
  }

  /** A key becomes overdue in three steps, whatever its first update is. */
  lemma OverdueIsReached(first: Update) returns (worlds: seq<World>, steps: seq<Step>)
    ensures IsRun(worlds, steps) && InTurn(worlds, steps)
    ensures var w := worlds[|steps|];
      && Overdue(w.server.book, first.key, w.now) && View(w.server.book, first.key) == Leased(first.data, w.now)
      && forall op :: op in w.handled ==> op == first.op
  {
    hide HandledUpdate, UpdateIds, CannotDefer, Overdue, View;
    var start := World(0, EMPTY, map[0 := NEW_CLIENT], {}, {}, {}, map[], {}, []);
    steps := [Issue(0, first), HandleUpdate(first, 1, 2), Advance(LEASE_MS)];
    var issued := After(start, steps[0]);
    FirstUpdate(first);
    var updated := After(issued, steps[1]);
    worlds := [start, issued, updated, After(updated, steps[2])];
  }

  lemma FirstUpdate(first: Update)
    ensures UpdateIds(EMPTY_BOOK, first, 0, 1, 2) && !CannotDefer(EMPTY_BOOK, first, 0)
    ensures var b := HandledUpdate(EMPTY, first, 0, 1, 2).book;
      Overdue(b, first.key, LEASE_MS) && View(b, first.key) == Leased(first.data, LEASE_MS)
  {
  }

  /** So there is a run after which a read is answered Ok with a value and a
      deadline 10 s ahead, and after the tick that follows the value is
      another, at the very same moment. */
  lemma LeaseBrokenAfterSomeRun(first: Update, read: Request, second: Update)
    returns (worlds: seq<World>, steps: seq<Step>, leaseId: nat, ackId: nat,
             states: seq<Server>, turns: seq<Turn>, id: nat, id': nat)
    requires read.ReadRequest? && first.key == read.key == second.key && first.op != read.op
    ensures IsRun(worlds, steps) && InTurn(worlds, steps)
    ensures var s, now := worlds[|steps|].server, worlds[|steps|].now;
      && ReadAnswer(s, read, now) == Answer(read.op, ReadResponse, Ok, read.key, first.data, now + LEASE_MS, now)
      && ReadIds(s.book, read, now, leaseId, ackId)
      && IsDrain(states, turns, now) && states[0] == HandledRead(s, read, now, leaseId, ackId)
      && NoneDue(states[|turns|].book.timers, now)
      && UpdateIds(states[|turns|].book, second, now, id, id')
      && View(HandledUpdate(states[|turns|], second, now, id, id').book, read.key) == Leased(second.data, now + LEASE_MS)
  {
    hide Inv, HandledRead, HandledUpdate, Overdue, BookRead, BookUpdate, CanTurn, TurnThrows, Turned, Earliest, NoneDue, After, Possible, Guarded, IsStart;
    worlds, steps := OverdueIsReached(first);
    var s, now := worlds[|steps|].server, worlds[|steps|].now;
    RunKeepsInv(worlds, steps, |steps|);
    leaseId, ackId := FreshReadIds(s.book, read, now);
    ReadKeepsWellFormed(s, read, now, leaseId, ackId) by {
      assert Inv(s.book, now);
      InvIsWellFormed(s.book, now);
    }
    var thrown, failed;
    states, turns, thrown, failed := DrainExists(HandledRead(s, read, now, leaseId, ackId), now);
    OverdueReadDrained(s, read, now, leaseId, ackId, states, turns);
    id, id' := FreshUpdateIds(states[|turns|].book, second, now);
    ReadAnswers(s, read, now);
    OverdueReadBreaksLease(s, read, now, leaseId, ackId, states, turns, second, id, id');
  }

  lemma FreshReadIds(b: Book, req: Request, now: int) returns (leaseId: nat, ackId: nat)
    ensures ReadIds(b, req, now, leaseId, ackId)
  {
    leaseId := LargerThanAll(b.timers.Keys);
    ackId := LargerThanAll(BookRead(b, req, now, leaseId).timers.Keys);
  }

  // ---------- Updates that cannot be deferred ----------

  /** An update leaves the books in order exactly when it can be deferred, if it is to be. */
  lemma UpdateIsSafeUnlessStuck(b: Book, req: Update, now: int, id: nat)
    requires Inv(b, now) && NotInUse(b, req.op) && FreshId(b.timers, id)
    ensures Inv(BookUpdate(b, req, now, id), now) <==> !CannotDefer(b, req, now)
  {
    if !CannotDefer(b, req, now) {
      BookUpdateKeepsInv(b, req, now, id);
    } else if Overdue(b, req.key, now) {
      OverdueDeferralOrphans(b, req, now, id);
    } else {
      TwoDeferralsOneEntry(b, req, now, id);
    }
  }

  lemma OverdueDeferralOrphans(b: Book, req: Update, now: int, id: nat)
    requires Inv(b, now) && CannotDefer(b, req, now) && Overdue(b, req.key, now) && FreshId(b.timers, id)
    ensures !TimersOwned(BookUpdate(b, req, now, id))
  {
    assert ElementOwns(b.timers, req.key, b.elems[req.key].manager);
    var b', old' := BookUpdate(b, req, now, id), b.elems[req.key].manager.timerId;
    assert old' in b'.timers && b'.timers[old'] == b.timers[old'];
    assert !Owned(b', old', b'.timers[old'].callback);
  }

  /** Two keys wait for a commit under one entry, that of the other. */
  lemma TwoDeferralsOneEntry(b: Book, req: Update, now: int, id: nat)
    requires Inv(b, now) && CannotDefer(b, req, now) && !Overdue(b, req.key, now)
    ensures var b', o := BookUpdate(b, req, now, id), ToUint32(req.op);
      && o in b'.deferred && b'.deferred[o] == b.deferred[o]
      && b'.deferred[o].key != req.key
      && InPhase(b', req.key, UpdateProtected) && b'.elems[req.key].manager.opId == o
      && InPhase(b', b'.deferred[o].key, UpdateProtected) && b'.elems[b'.deferred[o].key].manager.opId == o
      && !DeferralsMatch(b')
  {
    var b', o := BookUpdate(b, req, now, id), ToUint32(req.op);
    assert DeferredAt(b, o, b.deferred[o]);
    assert InPhase(b', req.key, UpdateProtected) && b'.elems[req.key].manager.opId == o;
    assert b'.deferred == b.deferred;
  }
}
