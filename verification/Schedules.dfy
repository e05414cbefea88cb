/** Runs as the code takes them: a tick fires the front of the queue until
    nothing is due or a callback throws, and nothing happens meanwhile. */
module Schedules {
  import opened EventTimers
  import opened ServerModel
  import opened ServerInvariant
  import opened KeySpec
  import opened Drain
  import opened World
  import opened Safety

  /** Each firing takes an earliest timer, and another follows unless nothing
      is due any more or the callback throws. */
  ghost predicate InTurn(worlds: seq<World>, steps: seq<Step>) {
    |worlds| == |steps| + 1
    && forall i :: 0 <= i < |steps| && steps[i].Fire? ==>
         && Earliest(worlds[i].server.book.timers, steps[i].turn.id)
         && (|| StepThrows(worlds[i], steps[i])
             || NoneDue(worlds[i + 1].server.book.timers, worlds[i + 1].now)
             || (i + 1 < |steps| && steps[i + 1].Fire?))
  }

  /** A guarded path in which every tick runs to its end. */
  ghost predicate IsSchedule(worlds: seq<World>, steps: seq<Step>) {
    IsPath(worlds, steps) && InTurn(worlds, steps)
  }

  ghost predicate NoneThrows(worlds: seq<World>, steps: seq<Step>) {
    forall i :: 0 <= i < |steps| && i < |worlds| ==> !StepThrows(worlds[i], steps[i])
  }

  lemma SingleStep(w: World, step: Step)
    requires Enabled(w, step) && !step.Fire?
    ensures IsSchedule([w, After(w, step)], [step])
  {
    hide Possible, Guarded, After;
  }

  /** One schedule after another. */
  lemma Joined(worlds: seq<World>, steps: seq<Step>, worlds': seq<World>, steps': seq<Step>)
    requires IsSchedule(worlds, steps) && IsSchedule(worlds', steps') && worlds'[0] == worlds[|steps|]
    ensures var joined := worlds + worlds'[1..];
      && IsSchedule(joined, steps + steps')
      && joined[0] == worlds[0] && joined[|steps| + |steps'|] == worlds'[|steps'|]
      && (NoneThrows(joined, steps + steps') ==> NoneThrows(worlds, steps) && NoneThrows(worlds', steps'))
  {
    hide Possible, Guarded, After, StepThrows, Earliest, NoneDue;
    var joined, all := worlds + worlds'[1..], steps + steps';
    assert forall i :: 0 <= i <= |steps'| ==> joined[|steps| + i] == worlds'[i];
    forall i | 0 <= i < |all|
      ensures Enabled(joined[i], all[i]) && joined[i + 1] == After(joined[i], all[i])
      ensures all[i].Fire? ==>
                && Earliest(joined[i].server.book.timers, all[i].turn.id)
                && (|| StepThrows(joined[i], all[i])
                    || NoneDue(joined[i + 1].server.book.timers, joined[i + 1].now)
                    || (i + 1 < |all| && all[i + 1].Fire?))
    {
      if i >= |steps| {
        assert joined[i] == worlds'[i - |steps|] && all[i] == steps'[i - |steps|];
        assert joined[i + 1] == worlds'[i + 1 - |steps|];
      }
    }
    if NoneThrows(joined, all) {
      forall i | 0 <= i < |steps'|
        ensures !StepThrows(worlds'[i], steps'[i])
      {
        assert joined[|steps| + i] == worlds'[i] && all[|steps| + i] == steps'[i];
      }
      forall i | 0 <= i < |steps|
        ensures !StepThrows(worlds[i], steps[i])
      {
        assert joined[i] == worlds[i] && all[i] == steps[i];
      }
    }
  }

  // ---------- Ticks ----------

  /** What firings leave alone, and what they only add to. */
  ghost predicate SameAround(w: World, w': World) {
    && w'.now == w.now && w'.clients == w.clients && w'.requests == w.requests && w'.issued == w.issued
    && w.answers <= w'.answers && w.server.sent <= w'.server.sent
  }

  /** The firings of a drain, as steps of the system. */
  function FireAll(turns: seq<Turn>): seq<Step> {
    seq(|turns|, i requires 0 <= i < |turns| => Fire(turns[i]))
  }

  lemma {:induction false} DrainSparesAround(worlds: seq<World>, turns: seq<Turn>, n: nat)
    requires |worlds| == |turns| + 1 && n <= |turns|
    requires forall i :: 0 <= i < |turns| ==>
               Enabled(worlds[i], Fire(turns[i])) && worlds[i + 1] == After(worlds[i], Fire(turns[i]))
    ensures SameAround(worlds[0], worlds[n])
  {
    if n > 0 {
      DrainSparesAround(worlds, turns, n - 1);
      TurnKeepsSent(worlds[n - 1].server, turns[n - 1], worlds[n - 1].now);
      hide Turned, CanTurn, TurnAnswer;
    }
  }

  lemma TurnKeepsSent(s: Server, t: Turn, now: int)
    requires CanTurn(s.book, t, now)
    ensures s.sent <= Turned(s, t, now).sent
  {
  }

  /** A complete drain of the server is a schedule of the system. */
  lemma DrainIsSchedule(w: World, states: seq<Server>, turns: seq<Turn>) returns (worlds: seq<World>)
    requires IsDrain(states, turns, w.now) && states[0] == w.server
    requires NoneDue(states[|turns|].book.timers, w.now)
    ensures IsSchedule(worlds, FireAll(turns)) && NoneThrows(worlds, FireAll(turns)) && |worlds| == |turns| + 1
    ensures worlds[0] == w && worlds[|turns|].server == states[|turns|] && SameAround(w, worlds[|turns|])
  {
    worlds := DrainIsRun(w, states, turns);
    DrainSparesAround(worlds, turns, |turns|);
    hide Possible, Guarded, After, CanTurn, TurnThrows, Turned, Earliest, NoneDue, SameAround;
  }

  /** So is a drain that ends in an exception. */
  lemma FailureIsSchedule(w: World, states: seq<Server>, turns: seq<Turn>, failed: Turn)
    returns (worlds: seq<World>, steps: seq<Step>)
    requires IsDrain(states, turns, w.now) && states[0] == w.server
    requires var b := states[|turns|].book;
      CanTurn(b, failed, w.now) && Earliest(b.timers, failed.id) && TurnThrows(b, failed, w.now)
    ensures IsSchedule(worlds, steps) && worlds[0] == w && !NoneThrows(worlds, steps)
  {
    var worlds' := DrainIsRun(w, states, turns);
    hide After, CanTurn, TurnThrows, Turned, Earliest, NoneDue;
    var last, step := worlds'[|turns|], Fire(failed);
    worlds, steps := worlds' + [After(last, step)], FireAll(turns) + [step];
    assert StepThrows(worlds[|turns|], steps[|turns|]);
    hide Possible, Guarded, StepThrows;
  }

  /** From a world in order a tick completes, and every entry elapses. */
  lemma SaneTick(w: World) returns (worlds: seq<World>, steps: seq<Step>)
    requires Sane(w)
    ensures IsSchedule(worlds, steps) && |worlds| == |steps| + 1 && worlds[0] == w && Sane(worlds[|steps|])
    ensures var w' := worlds[|steps|];
      && (forall key :: View(w'.server.book, key) == Elapsed(View(w.server.book, key), w.now))
      && SameAround(w, w') && NoneDue(w'.server.book.timers, w'.now)
  {
    hide WellFormed, CanTurn, TurnThrows, Turned, Earliest, NoneDue, View, Elapsed, Possible, Guarded, After, InTurn, NoneThrows;
    assert Inv(w.server.book, w.now);
    InvIsWellFormed(w.server.book, w.now);
    hide Inv, OpsInv, AnswersKept;
    var states, turns, thrown, failed := DrainExists(w.server, w.now);
    DrainKeepsInv(states, turns, w.now, |turns|);
    if thrown {
      TurnKeepsInv(states[|turns|], failed, w.now);
    }
    forall key
      ensures View(states[|turns|].book, key) == Elapsed(View(w.server.book, key), w.now)
    {
      DrainRefines(states, turns, w.now, key);
    }
    worlds := DrainIsSchedule(w, states, turns);
    steps := FireAll(turns);
    PathKeepsSane(worlds, steps, |steps|);
  }

  lemma InvIsWellFormed(b: Book, now: int)
    requires Inv(b, now)
    ensures WellFormed(b)
  {
  }

  /** Time passes, with no tick. */
  lemma Advanced(w: World, to: int) returns (worlds: seq<World>, steps: seq<Step>)
    requires w.now <= to
    ensures IsSchedule(worlds, steps) && |worlds| == |steps| + 1 && worlds[0] == w
    ensures worlds[|steps|] == w.(now := to)
  {
    SingleStep(w, Advance(to));
    worlds, steps := [w, After(w, Advance(to))], [Advance(to)];
  }
}
