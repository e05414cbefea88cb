/** Runs that reach what the guards exclude, and a client that believes too long. */
module Counterexamples {
  import opened Common
  import opened Messages
  import opened EventTimers
  import opened StateManager
  import opened ServerModel
  import opened ServerInvariant
  import opened KeySpec
  import opened Client
  import opened World
  import opened Safety
  import opened Schedules
  import Coherence
  import LateUpdates

  /** A run in which every tick fires its timers in order and to the end. */
  ghost predicate IsScheduledRun(worlds: seq<World>, steps: seq<Step>) {
    IsRun(worlds, steps) && InTurn(worlds, steps)
  }

  // ---------- Building runs ----------

  lemma Started() returns (worlds: seq<World>, steps: seq<Step>)
    ensures IsScheduledRun(worlds, steps) && |worlds| == |steps| + 1
    ensures var w := worlds[|steps|];
      && w.now == 0 && w.issued == {} && 0 in w.clients && w.clients[0] == NEW_CLIENT
      && forall key :: View(w.server.book, key) == Absent
  {
    worlds, steps := [World(0, EMPTY, map[0 := NEW_CLIENT], {}, {}, {}, map[], {}, [])], [];
  }

  lemma Extended(worlds: seq<World>, steps: seq<Step>, step: Step) returns (worlds': seq<World>, steps': seq<Step>)
    requires IsScheduledRun(worlds, steps) && Enabled(worlds[|steps|], step) && !step.Fire?
    ensures IsScheduledRun(worlds', steps') && |worlds'| == |steps'| + 1
    ensures worlds'[|steps'|] == After(worlds[|steps|], step)
  {
    hide Possible, Guarded, After, IsStart, InTurn, NoneThrows;
    var w := worlds[|steps|];
    SingleStep(w, step);
    Joined(worlds, steps, [w, After(w, step)], [step]);
    worlds', steps' := worlds + [w, After(w, step)][1..], steps + [step];
  }

  /** The client issues an update. */
  lemma Requested(worlds: seq<World>, steps: seq<Step>, req: Update) returns (worlds': seq<World>, steps': seq<Step>)
    requires IsScheduledRun(worlds, steps) && 0 in worlds[|steps|].clients && req.op !in worlds[|steps|].issued
    ensures IsScheduledRun(worlds', steps') && |worlds'| == |steps'| + 1
    ensures var w, w' := worlds[|steps|], worlds'[|steps'|];
      && w'.now == w.now && w'.server == w.server && w'.issued == w.issued + {req.op}
      && req in w'.requests && 0 in w'.clients && w'.clients[0] == Issued(w.clients[0], req.op, req.key)
  {
    hide IsScheduledRun;
    worlds', steps' := Extended(worlds, steps, Issue(0, req));
  }

  /** A client issues an update and the server takes it. */
  lemma Updated(worlds: seq<World>, steps: seq<Step>, req: Update) returns (worlds': seq<World>, steps': seq<Step>)
    requires IsScheduledRun(worlds, steps) && 0 in worlds[|steps|].clients && req.op !in worlds[|steps|].issued
    requires !CannotDefer(worlds[|steps|].server.book, req, worlds[|steps|].now)
    ensures IsScheduledRun(worlds', steps') && |worlds'| == |steps'| + 1
    ensures var w, w' := worlds[|steps|], worlds'[|steps'|];
      && w'.now == w.now && w'.issued == w.issued + {req.op}
      && 0 in w'.clients && w'.clients[0] == Issued(w.clients[0], req.op, req.key)
      && (forall key :: View(w'.server.book, key) ==
            if key == req.key && UpdateVerdict(w.server.book, req, w.now).Done?
            then UpdatedEntry(View(w.server.book, key), req.data, req.op, w.now) else View(w.server.book, key))
      && (UpdateAnswer(w.server.book, req, w.now).Some? ==>
            Reply(UpdateAnswer(w.server.book, req, w.now).value) in w'.server.sent)
      && w.server.sent <= w'.server.sent
  {
    hide HandledUpdate, UpdateIds, CannotDefer, View, UpdateVerdict, UpdateAnswer, IsStart, Inv, OpsInv, AnswersKept;
    var w := worlds[|steps|];
    var leaseId, ackId := LateUpdates.FreshUpdateIds(w.server.book, req, w.now);
    var worlds1, steps1 := Requested(worlds, steps, req);
    var w1, handle := worlds1[|steps1|], HandleUpdate(req, leaseId, ackId);
    worlds', steps' := Extended(worlds1, steps1, handle);
    RunKeepsInv(worlds, steps, |steps|);
    forall key
      ensures View(After(w1, handle).server.book, key) == StepEntry(w1, handle, key)
    {
      StepRefines(w1, handle, key);
    }
    SentIs(w1, handle);
  }

  lemma Passed(worlds: seq<World>, steps: seq<Step>, to: int) returns (worlds': seq<World>, steps': seq<Step>)
    requires IsScheduledRun(worlds, steps) && worlds[|steps|].now <= to
    ensures IsScheduledRun(worlds', steps') && |worlds'| == |steps'| + 1 && worlds'[|steps'|] == worlds[|steps|].(now := to)
  {
    hide IsScheduledRun;
    worlds', steps' := Extended(worlds, steps, Advance(to));
  }

  /** A whole tick. */
  lemma Ticked(worlds: seq<World>, steps: seq<Step>) returns (worlds': seq<World>, steps': seq<Step>)
    requires IsScheduledRun(worlds, steps)
    ensures IsScheduledRun(worlds', steps') && |worlds'| == |steps'| + 1
    ensures var w, w' := worlds[|steps|], worlds'[|steps'|];
      && (forall key :: View(w'.server.book, key) == Elapsed(View(w.server.book, key), w.now))
      && SameAround(w, w') && NoneDue(w'.server.book.timers, w'.now)
  {
    hide View, Elapsed, InTurn, NoneThrows, After, Possible, Guarded, IsStart, NoneDue, SameAround;
    RunKeepsInv(worlds, steps, |steps|);
    hide Inv, OpsInv, AnswersKept;
    var tick, firings := SaneTick(worlds[|steps|]);
    Joined(worlds, steps, tick, firings);
    worlds', steps' := worlds + tick[1..], steps + firings;
  }

  /** An update is accepted where no promise stands, and where one stands that no update waits for anywhere. */
  lemma Accepted(worlds: seq<World>, steps: seq<Step>, req: Update)
    requires IsScheduledRun(worlds, steps)
    requires var w := worlds[|steps|];
      var e := View(w.server.book, req.key);
      || e.Absent? || e.Free?
      || (e.Leased? && w.now < e.deadline && ToUint32(req.op) != 0 && forall key :: !View(w.server.book, key).Pending?)
    ensures var w := worlds[|steps|];
      !CannotDefer(w.server.book, req, w.now) && UpdateVerdict(w.server.book, req, w.now).Done?
  {
    var w := worlds[|steps|];
    RunKeepsInv(worlds, steps, |steps|);
    hide IsScheduledRun, OpsInv, AnswersKept, Owners, DeadlinesBounded;
    RefusedWhen(w.server.book, req, w.now);
    if ToUint32(req.op) in w.server.book.deferred {
      EntryIsSeen(w.server.book, ToUint32(req.op));
    }
    hide Inv, UpdateVerdict;
  }

  lemma EntryIsSeen(b: Book, o: nat)
    requires EntriesHeld(b) && o in b.deferred
    ensures View(b, b.deferred[o].key).Pending?
  {
    assert DeferredAt(b, o, b.deferred[o]);
  }

  lemma LeasedIsGuaranteed(b: Book, key: nat)
    requires View(b, key).Leased?
    ensures InPhase(b, key, Guaranteed) && b.elems[key].manager.expire == View(b, key).deadline
  {
  }

  lemma PendingIsEntered(worlds: seq<World>, steps: seq<Step>, key: nat)
    requires IsScheduledRun(worlds, steps) && View(worlds[|steps|].server.book, key).Pending?
    ensures ToUint32(View(worlds[|steps|].server.book, key).op) in worlds[|steps|].server.book.deferred
  {
    RunKeepsInv(worlds, steps, |steps|);
    var b := worlds[|steps|].server.book;
    assert DeferredAt(b, b.elems[key].manager.opId, b.deferred[b.elems[key].manager.opId]);
    hide IsScheduledRun, OpsInv, AnswersKept, Owners, DeadlinesBounded;
  }

  // ---------- What the guards exclude can happen ----------

  /** Two updates of different keys whose identifiers have the same low half:
      one is deferred, and the other, taken now, would be deferred under the
      same entry and commit earlier. Nothing but different keys and identifiers is needed. */
  lemma CollisionIsReached(two: Update, one: Update, first: Update, second: Update)
    returns (worlds: seq<World>, steps: seq<Step>)
    requires one.key == first.key && second.key == two.key && first.key != second.key
    requires two.op != one.op && second.op !in {one.op, two.op, first.op} && first.op !in {one.op, two.op}
    requires ToUint32(first.op) == ToUint32(second.op) != 0
    ensures IsScheduledRun(worlds, steps)
    ensures var w := worlds[|steps|];
      && second in w.requests && 0 in w.clients
      && View(w.server.book, first.key) == Pending(one.data, 1 + LEASE_MS, first.data, first.op)
      && View(w.server.book, second.key) == Leased(two.data, LEASE_MS)
      && CannotDefer(w.server.book, second, w.now) && !Overdue(w.server.book, second.key, w.now)
  {
    hide IsScheduledRun, UpdateVerdict, UpdateAnswer, View, ToUint32, After, Possible, Guarded, Wraps;
    worlds, steps := Started();
    Accepted(worlds, steps, two);
    worlds, steps := Updated(worlds, steps, two);
    worlds, steps := Passed(worlds, steps, 1);
    Accepted(worlds, steps, one);
    worlds, steps := Updated(worlds, steps, one);
    Accepted(worlds, steps, first);
    worlds, steps := Updated(worlds, steps, first);
    PendingIsEntered(worlds, steps, first.key);
    worlds, steps := Requested(worlds, steps, second);
    LeasedIsGuaranteed(worlds[|steps|].server.book, second.key);
  }

  /** However late, an update of an overdue key can arrive; it cannot be
      deferred exactly when the lateness wraps. */
  lemma LateUpdateIsReached(first: Update, second: Update, late: nat) returns (worlds: seq<World>, steps: seq<Step>)
    requires first.key == second.key && first.op != second.op
    ensures IsScheduledRun(worlds, steps)
    ensures var w := worlds[|steps|];
      && second in w.requests && 0 in w.clients
      && View(w.server.book, second.key) == Leased(first.data, w.now - late)
      && Overdue(w.server.book, second.key, w.now)
      && (CannotDefer(w.server.book, second, w.now) <==> ToUint32(second.op) != 0 && Wraps(late))
  {
    hide IsScheduledRun, UpdateVerdict, UpdateAnswer, View, ToUint32, After, Possible, Guarded, Wraps;
    worlds, steps := Started();
    Accepted(worlds, steps, first);
    worlds, steps := Updated(worlds, steps, first);
    worlds, steps := Passed(worlds, steps, LEASE_MS + late);
    worlds, steps := Requested(worlds, steps, second);
    LeasedIsGuaranteed(worlds[|steps|].server.book, second.key);
  }

  /** A response that comes so late that its deadline wraps: the client believes
      in a value that the server no longer has. */
  lemma StaleBelief(first: Update, second: Update, late: nat) returns (worlds: seq<World>, steps: seq<Step>)
    requires first.key == second.key && first.op != second.op && Wraps(late)
    ensures IsScheduledRun(worlds, steps)
    ensures var w := worlds[|steps|];
      && 0 in w.clients && |w.clients[0].delivered| == 1
      && var d := w.clients[0].delivered[0];
         && d.op == first.op && d.key == first.key && d.result == Ok && d.data == first.data
         && Coherence.BelievedDeadline(d) == w.now + TWO_32 - late % TWO_32 > w.now
         && ValueOf(View(w.server.book, d.key)) == Some(second.data)
  {
    hide IsScheduledRun, UpdateVerdict, UpdateAnswer, View, ToUint32, After, Possible, Guarded, Wraps;
    worlds, steps := Started();
    Accepted(worlds, steps, first);
    var a := Answer(first.op, UpdateResponse, Ok, first.key, first.data, LEASE_MS, 0);
    FirstAnswer(worlds, steps, first);
    worlds, steps := Updated(worlds, steps, first);
    worlds, steps := Passed(worlds, steps, LEASE_MS + late);
    worlds, steps := Ticked(worlds, steps);
    Accepted(worlds, steps, second);
    worlds, steps := Updated(worlds, steps, second);
    worlds, steps := Delivered(worlds, steps, a);
    PastLooksAhead(LEASE_MS, LEASE_MS + late);
  }

  /** The client takes a response to a request that it waits for. */
  lemma Delivered(worlds: seq<World>, steps: seq<Step>, a: Answer) returns (worlds': seq<World>, steps': seq<Step>)
    requires IsScheduledRun(worlds, steps) && Reply(a) in worlds[|steps|].server.sent && 0 in worlds[|steps|].clients
    requires var c := worlds[|steps|].clients[0]; a.op in c.requests && c.requests[a.op] == a.key
    ensures IsScheduledRun(worlds', steps') && |worlds'| == |steps'| + 1
    ensures var w, w' := worlds[|steps|], worlds'[|steps'|];
      && w'.now == w.now && w'.server == w.server && 0 in w'.clients
      && w'.clients[0].delivered
           == w.clients[0].delivered + [Delivery(a.op, a.result, ToUint32(a.deadline), a.key, a.value, w.now)]
  {
    hide IsScheduledRun;
    worlds', steps' := Extended(worlds, steps, Deliver(0, Reply(a), true));
  }

  lemma FirstAnswer(worlds: seq<World>, steps: seq<Step>, req: Update)
    requires IsScheduledRun(worlds, steps)
    requires var w := worlds[|steps|];
      View(w.server.book, req.key).Absent? && UpdateVerdict(w.server.book, req, w.now).Done?
    ensures var w := worlds[|steps|];
      UpdateAnswer(w.server.book, req, w.now)
        == Some(Answer(req.op, UpdateResponse, Ok, req.key, req.data, w.now + LEASE_MS, w.now))
  {
    RunKeepsInv(worlds, steps, |steps|);
    UpdateAnswers(worlds[|steps|].server.book, req, worlds[|steps|].now);
    hide IsScheduledRun, Inv, OpsInv, AnswersKept, UpdateAnswer;
  }
}
