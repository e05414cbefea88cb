/** The guards of a run are exactly what the promises of the cache need. */
module Guards {
  import opened Common
  import opened Messages
  import opened EventTimers
  import opened ServerModel
  import opened ServerInvariant
  import opened KeySpec
  import opened Drain
  import opened Unguarded
  import opened World
  import opened Safety
  import opened Schedules
  import opened Collisions
  import opened LateUpdates
  import opened Hypotheses

  // ---------- What a user can observe ----------

  /** Every Ok answer whose deadline lies ahead tells the value its key has. */
  ghost predicate Kept(w: World) {
    forall a :: a in w.answers && a.result == Ok && w.now < a.deadline ==>
      a.key in w.server.book.elems && w.server.book.elems[a.key].value == a.value
  }

  /** However the run goes on by guarded steps and whole ticks, no callback
      throws and no promise is broken. */
  ghost predicate Sound(w: World) {
    forall worlds, steps :: IsSchedule(worlds, steps) && worlds[0] == w ==> Kept(worlds[|steps|]) && NoneThrows(worlds, steps)
  }

  /** From a world in order this holds even if the timers that are due fire in any order, at any moment. */
  lemma SaneIsSound(w: World)
    requires Sane(w)
    ensures forall worlds, steps :: IsPath(worlds, steps) && worlds[0] == w ==> Kept(worlds[|steps|]) && NoneThrows(worlds, steps)
    ensures Sound(w)
  {
    forall worlds, steps | IsPath(worlds, steps) && worlds[0] == w
      ensures Kept(worlds[|steps|]) && NoneThrows(worlds, steps)
    {
      PathKeepsSane(worlds, steps, |steps|);
      SaneIsKept(worlds[|steps|]);
      forall i | 0 <= i < |steps|
        ensures !StepThrows(worlds[i], steps[i])
      {
        PathKeepsSane(worlds, steps, i);
      }
    }
    hide Sane, IsPath, Kept, StepThrows, InTurn;
  }

  lemma SaneIsKept(w: World)
    requires Sane(w)
    ensures Kept(w)
  {
    forall a | a in w.answers && a.result == Ok && w.now < a.deadline
      ensures a.key in w.server.book.elems && w.server.book.elems[a.key].value == a.value
    {
      var n :| 0 <= n < |w.answers| && w.answers[n] == a;
      assert Holds(View(w.server.book, w.answers[n].key), w.answers[n].value, w.answers[n].deadline);
    }
    hide Inv, OpsInv;
  }

  /** A schedule that breaks a promise or throws, or leads to a world that is
      not sound, shows that the world it starts from is not. */
  lemma UnsoundAhead(worlds: seq<World>, steps: seq<Step>)
    requires IsSchedule(worlds, steps)
    requires !Kept(worlds[|steps|]) || !NoneThrows(worlds, steps) || !Sound(worlds[|steps|])
    ensures !Sound(worlds[0])
  {
    hide Kept, NoneThrows, Possible, Guarded, After, InTurn;
    if !Sound(worlds[|steps|]) {
      var worlds', steps' :| IsSchedule(worlds', steps') && worlds'[0] == worlds[|steps|]
                             && !(Kept(worlds'[|steps'|]) && NoneThrows(worlds', steps'));
      Joined(worlds, steps, worlds', steps');
      assert IsSchedule(worlds + worlds'[1..], steps + steps');
    }
  }

  // ---------- Each guard is needed ----------

  lemma UnsoundStep(w: World, step: Step)
    requires Enabled(w, step) && !step.Fire?
    requires !Kept(After(w, step)) || !Sound(After(w, step))
    ensures !Sound(w)
  {
    hide Sound, Kept, After, Possible, Guarded, InTurn;
    SingleStep(w, step);
    UnsoundAhead([w, After(w, step)], [step]);
  }

  /** A complete drain that breaks a promise. */
  lemma UnsoundDrain(w: World, states: seq<Server>, turns: seq<Turn>) returns (w': World)
    requires IsDrain(states, turns, w.now) && states[0] == w.server && NoneDue(states[|turns|].book.timers, w.now)
    ensures w'.server == states[|turns|] && SameAround(w, w')
    ensures !Kept(w') || !Sound(w') ==> !Sound(w)
  {
    hide Sound, Kept, IsDrain, IsSchedule, NoneDue, NoneThrows;
    var worlds := DrainIsSchedule(w, states, turns);
    w' := worlds[|turns|];
    if !Kept(w') || !Sound(w') {
      UnsoundAhead(worlds, FireAll(turns));
    }
  }

  /** A drain that ends in an exception. */
  lemma UnsoundFailure(w: World, states: seq<Server>, turns: seq<Turn>, failed: Turn)
    requires IsDrain(states, turns, w.now) && states[0] == w.server
    requires var b := states[|turns|].book;
      CanTurn(b, failed, w.now) && Earliest(b.timers, failed.id) && TurnThrows(b, failed, w.now)
    ensures !Sound(w)
  {
    hide Sound, Kept, IsDrain, IsSchedule, NoneThrows, CanTurn, TurnThrows, Earliest;
    var worlds, steps := FailureIsSchedule(w, states, turns, failed);
    UnsoundAhead(worlds, steps);
  }

  lemma FreeKeyAccepts(b: Book, req: Update, now: int)
    requires View(b, req.key).Free?
    ensures !CannotDefer(b, req, now)
    ensures UpdateAnswer(b, req, now) == Some(Answer(req.op, UpdateResponse, Ok, req.key, req.data, now + LEASE_MS, now))
  {
  }

  /** An update of a free key can be issued and taken between ticks. */
  lemma FreeKeyTaken(w: World, client: nat, key: nat, data: string)
    returns (worlds: seq<World>, steps: seq<Step>, req: Update, leaseId: nat, ackId: nat)
    requires client in w.clients && View(w.server.book, key).Free?
    ensures IsSchedule(worlds, steps) && |worlds| == |steps| + 1 && worlds[0] == w
    ensures req.key == key && req.data == data && UpdateIds(w.server.book, req, w.now, leaseId, ackId)
    ensures var w' := worlds[|steps|];
      && w'.now == w.now && w'.server == HandledUpdate(w.server, req, w.now, leaseId, ackId)
      && w'.answers == w.answers + [Answer(req.op, UpdateResponse, Ok, key, data, w.now + LEASE_MS, w.now)]
      && View(w'.server.book, key) == Leased(data, w.now + LEASE_MS)
  {
    hide HandledUpdate, UpdateIds, UpdateAnswer, View, After, Possible, Guarded, InTurn;
    var op := LargerThanAll(w.issued);
    req := UpdateRequest(op, key, data);
    leaseId, ackId := FreshUpdateIds(w.server.book, req, w.now);
    var issue, handle := Issue(client, req), HandleUpdate(req, leaseId, ackId);
    RequestIssued(w, client, req);
    var w1 := After(w, issue);
    RequestTaken(w1, req, leaseId, ackId);
    FreeKeyUpdated(w1.server, req, w.now, leaseId, ackId);
    SingleStep(w, issue);
    SingleStep(w1, handle);
    Joined([w, w1], [issue], [w1, After(w1, handle)], [handle]);
    worlds, steps := [w, w1] + [w1, After(w1, handle)][1..], [issue] + [handle];
  }

  lemma RequestIssued(w: World, client: nat, req: Update)
    requires client in w.clients && req.op !in w.issued
    ensures Enabled(w, Issue(client, req))
    ensures var w' := After(w, Issue(client, req));
      w'.now == w.now && w'.server == w.server && w'.answers == w.answers && req in w'.requests
  {
  }

  lemma RequestTaken(w: World, req: Update, leaseId: nat, ackId: nat)
    requires req in w.requests && UpdateIds(w.server.book, req, w.now, leaseId, ackId)
    requires View(w.server.book, req.key).Free?
    ensures var step := HandleUpdate(req, leaseId, ackId);
      && Enabled(w, step)
      && var w' := After(w, step);
         && w'.now == w.now && w'.server == HandledUpdate(w.server, req, w.now, leaseId, ackId)
         && w'.answers == w.answers + [Answer(req.op, UpdateResponse, Ok, req.key, req.data, w.now + LEASE_MS, w.now)]
  {
    FreeKeyAccepts(w.server.book, req, w.now);
    hide HandledUpdate, UpdateIds, UpdateAnswer, View, CannotDefer;
  }

  ghost predicate Promises(w: World, key: nat, value: string) {
    exists a :: a in w.answers && a.result == Ok && a.key == key && a.value == value && w.now < a.deadline
  }

  lemma BrokenPromise(w: World, key: nat, value: string)
    requires Promises(w, key, value)
    requires key in w.server.book.elems && w.server.book.elems[key].value != value
    ensures !Kept(w)
  {
    var a :| a in w.answers && a.result == Ok && a.key == key && a.value == value && w.now < a.deadline;
    assert a in w.answers;
  }

  /** A free key under a promise. */
  lemma FreeKeyIsUnsound(w: World, client: nat, key: nat)
    requires client in w.clients && View(w.server.book, key).Free?
    requires Promises(w, key, View(w.server.book, key).value)
    ensures !Sound(w)
  {
    var value := View(w.server.book, key).value;
    hide Sound, Kept, HandledUpdate, View, Promises, UpdateIds;
    var worlds, steps, req, leaseId, ackId := FreeKeyTaken(w, client, key, value + "x");
    var w' := worlds[|steps|];
    PromiseStays(w, w', key, value);
    ViewValue(w'.server.book, key);
    BrokenPromise(w', key, value);
    UnsoundAhead(worlds, steps);
  }

  lemma ViewValue(b: Book, key: nat)
    ensures View(b, key).Leased? ==> key in b.elems && b.elems[key].value == View(b, key).value
  {
  }

  lemma PromiseStays(w: World, w': World, key: nat, value: string)
    requires Promises(w, key, value) && w.answers <= w'.answers && w'.now == w.now
    ensures Promises(w', key, value)
  {
    var a :| a in w.answers && a.result == Ok && a.key == key && a.value == value && w.now < a.deadline;
    assert a in w'.answers;
  }

  lemma OverdueReadIsUnsound(w: World, step: Step, client: nat)
    requires Sane(w) && Possible(w, step) && step.HandleRead? && Overdue(w.server.book, step.req.key, w.now)
    requires client in w.clients
    ensures !Sound(After(w, step))
  {
    hide Sane, WellFormed, HandledRead, ReadIds, NotInUse, View, Inv, ReadAnswer;
    hide After, Possible, Guarded, CanTurn, TurnThrows, Turned, Earliest, NoneDue, Sound, Kept;
    var s, req, w1 := w.server, step.req, After(w, step);
    OverdueReadTaken(w, step);
    var states, turns, thrown, failed := DrainExists(w1.server, w.now);
    OverdueReadDrained(s, req, w.now, step.leaseId, step.ackId, states, turns);
    var w2 := UnsoundDrain(w1, states, turns);
    assert w1.answers[|w.answers|] in w2.answers;
    FreeKeyIsUnsound(w2, client, req.key);
  }

  lemma OverdueReadTaken(w: World, step: Step)
    requires Sane(w) && Possible(w, step) && step.HandleRead? && Overdue(w.server.book, step.req.key, w.now)
    ensures var s, w' := w.server, After(w, step);
      && Inv(s.book, w.now) && NotInUse(s.book, step.req.op) && ReadIds(s.book, step.req, w.now, step.leaseId, step.ackId)
      && w'.server == HandledRead(s, step.req, w.now, step.leaseId, step.ackId) && WellFormed(w'.server.book)
      && w'.now == w.now && w'.clients == w.clients
      && w'.answers == w.answers
           + [Answer(step.req.op, ReadResponse, Ok, step.req.key, s.book.elems[step.req.key].value, w.now + LEASE_MS, w.now)]
  {
    RequestIsNotInUse(w, step.req);
    InvIsWellFormed(w.server.book, w.now);
    StepKeepsWellFormed(w, step);
    OverdueReadAnswers(w.server, step.req, w.now);
    hide Inv, OpsInv, AnswersKept, WellFormed, HandledRead, ReadAnswer;
  }

  /** A timer is due that will replace a promised value. */
  lemma ArmedIsUnsound(w: World, key: nat, id: nat, data: string, value: string)
    requires WellFormed(w.server.book) && Armed(w.server.book, key, id, data, w.now)
    requires Promises(w, key, value) && value != data
    ensures !Sound(w)
  {
    hide WellFormed, IsDrain, Sound, Kept, Promises, Armed, CanTurn, TurnThrows, Earliest, NoneDue;
    var states, turns, thrown, failed := DrainExists(w.server, w.now);
    if thrown {
      UnsoundFailure(w, states, turns, failed);
    } else {
      ArmedDrainReplaces(states, turns, w.now, key, id, data, w.now);
      var w' := UnsoundDrain(w, states, turns);
      PromiseStays(w, w', key, value);
      BrokenPromise(w', key, value);
    }
  }

  /** A key is free a moment before such a timer is due. */
  lemma ArmedFreeIsUnsound(w: World, client: nat, key: nat, id: nat, data: string)
    requires WellFormed(w.server.book) && Armed(w.server.book, key, id, data, w.now + 1) && client in w.clients
    requires View(w.server.book, key).Free? && w.server.book.elems[key].manager.timerId == 0
    ensures !Sound(w)
  {
    hide Sound, Kept, HandledUpdate, View, Armed, UpdateIds, WellFormed;
    var value := data + "x";
    var worlds, steps, req, leaseId, ackId := FreeKeyTaken(w, client, key, value);
    var w1 := worlds[|steps|];
    UpdateKeepsWellFormed(w.server, req, w.now, leaseId, ackId);
    FreeKeyUpdates(w.server, req, w.now, leaseId, ackId, id, data, w.now + 1);
    var w2 := After(w1, Advance(w.now + 1));
    assert w2.answers[|w.answers|] in w2.answers;
    ArmedIsUnsound(w2, key, id, data, value);
    UnsoundStep(w1, Advance(w.now + 1));
    UnsoundAhead(worlds, steps);
  }

  lemma LateUpdateIsUnsound(w: World, step: Step, client: nat)
    requires Sane(w) && Possible(w, step) && step.HandleUpdate? && client in w.clients
    requires CannotDefer(w.server.book, step.update, w.now) && Overdue(w.server.book, step.update.key, w.now)
    ensures !Sound(After(w, step))
  {
    hide Sane, Inv, WellFormed, BookUpdate, CannotDefer, NotInUse, View, FreshId, Armed;
    hide After, Possible, Guarded, CanTurn, TurnThrows, Turned, Earliest, NoneDue, Sound, Kept;
    var s, req, w1 := w.server, step.update, After(w, step);
    StuckUpdateTaken(w, step);
    var late := w.now - s.book.elems[req.key].manager.expire;
    var states, turns := LateUpdateDrain(s, w1.server, req, w.now, step.leaseId);
    var w2 := UnsoundDrain(w1, states, turns);
    ArmedLaterIsUnsound(w2, client, req.key, step.leaseId, req.data, w.now + TWO_32 - late % TWO_32);
  }

  lemma StuckUpdateTaken(w: World, step: Step)
    requires Sane(w) && Possible(w, step) && step.HandleUpdate? && CannotDefer(w.server.book, step.update, w.now)
    ensures var b, w' := w.server.book, After(w, step);
      && Inv(b, w.now) && NotInUse(b, step.update.op) && FreshId(b.timers, step.leaseId)
      && w'.server.book == BookUpdate(b, step.update, w.now, step.leaseId) && WellFormed(w'.server.book)
      && w'.now == w.now && w'.clients == w.clients
  {
    RequestIsNotInUse(w, step.update);
    InvIsWellFormed(w.server.book, w.now);
    StepKeepsWellFormed(w, step);
    StuckUpdateHasNoAnswer(w.server.book, step.update, w.now);
    hide Inv, OpsInv, AnswersKept, WellFormed, BookUpdate, UpdateAnswer, CannotDefer;
  }

  lemma ArmedLaterIsUnsound(w: World, client: nat, key: nat, id: nat, data: string, at: int)
    requires WellFormed(w.server.book) && Armed(w.server.book, key, id, data, at) && w.now < at && client in w.clients
    requires View(w.server.book, key).Free? && w.server.book.elems[key].manager.timerId == 0
    ensures !Sound(w)
  {
    hide Sound, Kept, View, Armed, WellFormed;
    var w' := After(w, Advance(at - 1));
    ArmedFreeIsUnsound(w', client, key, id, data);
    UnsoundStep(w, Advance(at - 1));
  }

  lemma CollisionIsUnsound(w: World, step: Step)
    requires Sane(w) && Possible(w, step) && step.HandleUpdate?
    requires CannotDefer(w.server.book, step.update, w.now) && !Overdue(w.server.book, step.update.key, w.now)
    ensures !Sound(After(w, step))
  {
    var b, req, w1 := w.server.book, step.update, After(w, step);
    StuckUpdateTaken(w, step);
    CollisionArises(b, req, w.now, step.leaseId);
    assert DeadlinesBounded(b, w.now);
    hide Sane, Inv, Sound, BookUpdate, Colliding, CannotDefer, WellFormed;
    var later := w.now + LEASE_MS;
    CollidingIsUnsound(After(w1, Advance(later)), req.key);
    UnsoundStep(w1, Advance(later));
  }

  /** The tick that finds both commits due ends in an exception. */
  lemma CollidingIsUnsound(w: World, key: nat)
    requires WellFormed(w.server.book) && Colliding(w.server.book, key)
    requires w.server.book.elems[key].manager.expire <= w.now
    requires var first := First(w.server.book, key).key;
      first in w.server.book.elems && w.server.book.elems[first].manager.expire <= w.now
    ensures !Sound(w)
  {
    hide WellFormed, IsDrain, Sound, CanTurn, TurnThrows, Earliest, NoneDue;
    var states, turns, thrown, failed := DrainExists(w.server, w.now);
    if !thrown {
      NoDrainPastCollision(states, turns, w.now, key);
    }
    UnsoundFailure(w, states, turns, failed);
  }

  // ---------- The guards are exact ----------

  /** In every run, whatever step comes next: no callback throws and the
      promises survive in every guarded continuation by whole ticks, if and
      only if the step heeds its guard. */
  lemma GuardsAreExact(worlds: seq<World>, steps: seq<Step>, step: Step, client: nat)
    requires IsRun(worlds, steps)
    requires Possible(worlds[|steps|], step) && client in worlds[|steps|].clients
    ensures Sound(After(worlds[|steps|], step)) <==> Guarded(worlds[|steps|], step)
  {
    RunKeepsInv(worlds, steps, |steps|);
    var w := worlds[|steps|];
    assert Sane(w);
    hide IsRun, Sane, Inv, OpsInv, AnswersKept, Sound, After, Possible;
    if Guarded(w, step) {
      StepKeepsSane(w, step);
      SaneIsSound(After(w, step));
    } else if step.HandleRead? {
      OverdueReadIsUnsound(w, step, client);
    } else if Overdue(w.server.book, step.update.key, w.now) {
      LateUpdateIsUnsound(w, step, client);
    } else {
      CollisionIsUnsound(w, step);
    }
  }
}
