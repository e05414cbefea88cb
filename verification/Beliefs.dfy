/** How long a client may believe a value: the exact condition. */
module Beliefs {
  import opened Common
  import opened Messages
  import opened EventTimers
  import opened ServerModel
  import opened ServerInvariant
  import opened KeySpec
  import opened World
  import opened Safety
  import opened Schedules
  import Guards
  import Coherence

  ghost predicate HasValue(w: World, key: nat, value: string) {
    ValueOf(View(w.server.book, key)) == Some(value)
  }

  /** However the run goes on by guarded steps and whole ticks, the key has the value until then. */
  ghost predicate Believable(w: World, key: nat, value: string, until: int) {
    forall worlds: seq<World>, steps: seq<Step> :: IsSchedule(worlds, steps) && worlds[0] == w && worlds[|steps|].now < until ==>
      HasValue(worlds[|steps|], key, value)
  }

  /** The entry promises the value until then, or would commit the same value
      once more and promise that for long enough. */
  predicate Covers(e: Entry, value: string, until: int, now: int) {
    && (e.Leased? || e.Pending?)
    && e.value == value
    && (until <= e.deadline
        || (e.Pending? && e.next == value && until <= (if now < e.deadline then e.deadline else now) + LEASE_MS))
  }

  // ---------- Covered values stay ----------

  /** Time, reads and updates do to a covering entry what leaves it covering. */
  lemma EntrySurvives(e: Entry, value: string, until: int, now: int, data: string, op: nat)
    requires Covers(e, value, until, now) && now < until && e.deadline <= now + LEASE_MS
    ensures Covers(Elapsed(e, now), value, until, now)
    ensures Covers(ReadEntry(e, now), value, until, now)
    ensures Covers(UpdatedEntry(e, data, op, now), value, until, now)
    ensures forall later :: now <= later ==> Covers(e, value, until, later)
  {
  }

  lemma CoversSurvives(w: World, step: Step, key: nat, value: string, until: int)
    requires Enabled(w, step) && Inv(w.server.book, w.now)
    requires Covers(View(w.server.book, key), value, until, w.now) && After(w, step).now < until
    ensures Covers(StepEntry(w, step, key), value, until, After(w, step).now)
  {
    EntryBounded(w.server.book, key, w.now);
    TimeIsMonotonic(w, step);
    var data, op := if step.HandleUpdate? then step.update.data else "", if step.HandleUpdate? then step.update.op else 0;
    EntrySurvives(View(w.server.book, key), value, until, w.now, data, op);
    hide Covers, Inv, View, Elapsed, ReadEntry, UpdatedEntry, UpdateVerdict, StepServer, StepAnswer, IsLeaseOf, Fires, CanTurn;
  }

  lemma EntryBounded(b: Book, key: nat, now: int)
    requires Inv(b, now)
    ensures var e := View(b, key); e.Leased? || e.Pending? ==> e.deadline <= now + LEASE_MS
  {
  }

  lemma {:induction false} CoveredStays(worlds: seq<World>, steps: seq<Step>, i: nat, key: nat, value: string, until: int)
    requires IsPath(worlds, steps) && Sane(worlds[0]) && i < |worlds| && worlds[i].now < until
    requires Covers(View(worlds[0].server.book, key), value, until, worlds[0].now)
    ensures Covers(View(worlds[i].server.book, key), value, until, worlds[i].now)
  {
    hide Sane, View, Covers, Possible, Guarded, After;
    if i > 0 {
      var w, step := worlds[i - 1], steps[i - 1];
      TimeIsMonotonic(w, step);
      CoveredStays(worlds, steps, i - 1, key, value, until);
      PathKeepsSane(worlds, steps, i - 1);
      SaneCoversSurvives(w, step, key, value, until);
    }
  }

  lemma SaneCoversSurvives(w: World, step: Step, key: nat, value: string, until: int)
    requires Enabled(w, step) && Sane(w) && After(w, step).now < until
    requires Covers(View(w.server.book, key), value, until, w.now)
    ensures Covers(View(After(w, step).server.book, key), value, until, After(w, step).now)
  {
    hide Inv, OpsInv, AnswersKept, View, Covers, Possible, Guarded, After, StepEntry;
    StepRefines(w, step, key);
    CoversSurvives(w, step, key, value, until);
  }

  // ---------- Other values can change ----------

  /** A schedule to a world in which the belief is not safe shows that it was not. */
  lemma DisbelievedAhead(worlds: seq<World>, steps: seq<Step>, key: nat, value: string, until: int)
    requires IsSchedule(worlds, steps) && |worlds| == |steps| + 1
    requires !Believable(worlds[|steps|], key, value, until)
    ensures !Believable(worlds[0], key, value, until)
  {
    hide HasValue, Possible, Guarded, After, InTurn, NoneThrows;
    var worlds': seq<World>, steps': seq<Step> :| IsSchedule(worlds', steps') && worlds'[0] == worlds[|steps|] && worlds'[|steps'|].now < until
                           && !HasValue(worlds'[|steps'|], key, value);
    Joined(worlds, steps, worlds', steps');
    assert IsSchedule(worlds + worlds'[1..], steps + steps');
  }

  lemma OtherValueIsDisbelieved(w: World, key: nat, value: string, until: int)
    requires w.now < until && !HasValue(w, key, value)
    ensures !Believable(w, key, value, until)
  {
    hide HasValue;
    assert IsSchedule([w], []) && [w][0] == w;
  }

  lemma FreeIsDisbelieved(w: World, client: nat, key: nat, value: string, until: int)
    requires w.now < until && client in w.clients && View(w.server.book, key) == Free(value)
    ensures !Believable(w, key, value, until)
  {
    hide View, Believable, IsSchedule;
    var worlds, steps, req, leaseId, ackId := Guards.FreeKeyTaken(w, client, key, value + "x");
    OtherValueIsDisbelieved(worlds[|steps|], key, value, until);
    DisbelievedAhead(worlds, steps, key, value, until);
  }

  lemma AdvancedIsSane(w: World, to: int)
    requires Sane(w) && w.now <= to
    ensures Sane(w.(now := to))
  {
    StepKeepsSane(w, Advance(to));
  }

  lemma LeasedIsDisbelieved(w: World, client: nat, key: nat, value: string, until: int)
    requires Sane(w) && w.now < until && client in w.clients
    requires var e := View(w.server.book, key); e.Leased? && e.value == value && e.deadline < until
    ensures !Believable(w, key, value, until)
  {
    hide View, Sane, Believable, IsSchedule, NoneDue;
    var deadline := View(w.server.book, key).deadline;
    var to := if w.now < deadline then deadline else w.now;
    var worlds, steps := Advanced(w, to);
    AdvancedIsSane(w, to);
    var worlds', steps' := SaneTick(worlds[|steps|]);
    FreeIsDisbelieved(worlds'[|steps'|], client, key, value, until);
    DisbelievedAhead(worlds', steps', key, value, until);
    DisbelievedAhead(worlds, steps, key, value, until);
  }

  lemma PendingIsDisbelieved(w: World, client: nat, key: nat, value: string, until: int)
    requires Sane(w) && w.now < until && client in w.clients
    requires View(w.server.book, key).Pending? && !Covers(View(w.server.book, key), value, until, w.now)
    requires View(w.server.book, key).value == value
    ensures !Believable(w, key, value, until)
  {
    hide View, Sane, Believable, IsSchedule, NoneDue;
    var e := View(w.server.book, key);
    var to := if w.now < e.deadline then e.deadline else w.now;
    var worlds, steps := Advanced(w, to);
    AdvancedIsSane(w, to);
    var worlds', steps' := SaneTick(worlds[|steps|]);
    var w' := worlds'[|steps'|];
    assert View(w'.server.book, key) == Leased(e.next, to + LEASE_MS);
    if e.next == value {
      LeasedIsDisbelieved(w', client, key, value, until);
    } else {
      OtherValueIsDisbelieved(w', key, value, until);
    }
    DisbelievedAhead(worlds', steps', key, value, until);
    DisbelievedAhead(worlds, steps, key, value, until);
  }

  /** A belief in a value until some time ahead is safe, in every guarded
      continuation by whole ticks, if and only if the entry covers it. */
  lemma BelievableWhenCovered(worlds: seq<World>, steps: seq<Step>, client: nat, key: nat, value: string, until: int)
    requires IsRun(worlds, steps) && worlds[|steps|].now < until && client in worlds[|steps|].clients
    ensures var w := worlds[|steps|];
      Believable(w, key, value, until) <==> Covers(View(w.server.book, key), value, until, w.now)
  {
    var w := worlds[|steps|];
    RunKeepsInv(worlds, steps, |steps|);
    assert Sane(w);
    hide IsRun, Sane, Inv, OpsInv, AnswersKept, View, Believable;
    var e := View(w.server.book, key);
    if Covers(e, value, until, w.now) {
      CoveredIsBelievable(w, key, value, until);
    } else if !HasValue(w, key, value) {
      OtherValueIsDisbelieved(w, key, value, until);
    } else if e.Free? {
      FreeIsDisbelieved(w, client, key, value, until);
    } else if e.Leased? {
      LeasedIsDisbelieved(w, client, key, value, until);
    } else {
      PendingIsDisbelieved(w, client, key, value, until);
    }
  }

  lemma CoveredIsBelievable(w: World, key: nat, value: string, until: int)
    requires Sane(w) && Covers(View(w.server.book, key), value, until, w.now)
    ensures Believable(w, key, value, until)
  {
    forall worlds: seq<World>, steps: seq<Step> | IsSchedule(worlds, steps) && worlds[0] == w && worlds[|steps|].now < until
      ensures HasValue(worlds[|steps|], key, value)
    {
      CoveredStays(worlds, steps, |steps|, key, value, until);
    }
    hide Sane, View, IsPath, InTurn;
  }

  /** End to end, for every response however late: what a callback was told is
      safe until the deadline the client computes if and only if the entry covers it. */
  lemma BeliefIsSafeWhen(worlds: seq<World>, steps: seq<Step>, client: nat, n: nat)
    requires IsRun(worlds, steps) && client in worlds[|steps|].clients
    requires n < |worlds[|steps|].clients[client].delivered|
    requires worlds[|steps|].now < Coherence.BelievedDeadline(worlds[|steps|].clients[client].delivered[n])
    ensures var w := worlds[|steps|];
      var d := w.clients[client].delivered[n];
      var until := Coherence.BelievedDeadline(d);
      Believable(w, d.key, d.data, until) <==> Covers(View(w.server.book, d.key), d.data, until, w.now)
  {
    var d := worlds[|steps|].clients[client].delivered[n];
    BelievableWhenCovered(worlds, steps, client, d.key, d.data, Coherence.BelievedDeadline(d));
  }
}
