/** The timers of the application: when their callbacks run, and how often. */
module ApplicationTimers {
  import opened Messages
  import opened EventTimers
  import opened ServerModel
  import opened ServerInvariant
  import opened Drain
  import opened World

  /** What the callback of the turn writes to the application's log. */
  ghost function Ran(b: Book, t: Turn): seq<nat>
    requires t.id in b.timers
  {
    if Fires(b, t) && b.timers[t.id].callback.User? then [b.timers[t.id].callback.tag] else []
  }

  lemma TurnLogs(s: Server, t: Turn, now: int)
    requires CanTurn(s.book, t, now)
    ensures Turned(s, t, now).log == s.log + Ran(s.book, t)
  {
    hide BookCommit, CommitAnswer, Settled, CallIds;
  }

  /** A step runs the callback of the application's timer that it fires, and no other callback of the application. */
  lemma StepLogs(w: World, step: Step)
    requires Possible(w, step)
    ensures After(w, step).server.log == w.server.log + if step.Fire? then Ran(w.server.book, step.turn) else []
  {
    if step.Fire? {
      TurnLogs(w.server, step.turn, w.now);
    }
    hide Turned, BookRead, BookUpdate, ReadAnswer, UpdateAnswer, Ran;
  }

  /** A timer started now is due after its timeout and not before: as often as
      it repeats if it has no delay, else once. */
  lemma StartedTimerDue(w: World, step: Step, later: int)
    requires Possible(w, step) && step.StartTimer?
    ensures FiringsDue(After(w, step).server.book.timers, step.id, later) ==
      if later < w.now + step.timeout then 0 else if step.timeout == 0 then step.repeat else 1
  {
  }

  // ---------- Whole drains ----------

  /** How often the application's callback `tag` ran. */
  ghost function RunsOf(log: seq<nat>, tag: nat): nat {
    if |log| == 0 then 0 else RunsOf(log[..|log| - 1], tag) + if log[|log| - 1] == tag then 1 else 0
  }

  lemma RunsAppended(log: seq<nat>, ran: nat, tag: nat)
    ensures RunsOf(log + [ran], tag) == RunsOf(log, tag) + if ran == tag then 1 else 0
  {
    assert (log + [ran])[..|log|] == log;
  }

  /** Every firing that is due of a timer with this callback, numbered per timer. */
  ghost function CallbacksDue(q: Timers, tag: nat, now: int): set<(nat, nat)> {
    set id, i | id in q && q[id].callback == User(tag) && 0 <= i < FiringsDue(q, id, now) :: (id, i)
  }

  /** A turn that runs the callback uses up one of them; any other turn uses up none. */
  lemma TurnSpendsCallback(s: Server, t: Turn, now: int, tag: nat)
    requires Inv(s.book, now) && CanTurn(s.book, t, now)
    ensures |CallbacksDue(s.book.timers, tag, now)|
         == |CallbacksDue(Turned(s, t, now).book.timers, tag, now)| + if Ran(s.book, t) == [tag] then 1 else 0
  {
    var q, q' := s.book.timers, Turned(s, t, now).book.timers;
    TurnTimers(s, t, now);
    forall id: nat
      ensures FiringsDue(q, id, now) == (if t.id == id && q[id].repeat > 0 then 1 else 0) + FiringsDue(q', id, now)
    {
      TurnSpendsFiring(s, t, now, id);
    }
    CallbackSpent(q, q', t.id, tag, now);
    hide *;
  }

  lemma CallbackSpent(q: Timers, q': Timers, fired: nat, tag: nat, now: int)
    requires fired in q
    requires forall id: nat :: FiringsDue(q, id, now) == (if fired == id && q[id].repeat > 0 then 1 else 0) + FiringsDue(q', id, now)
    requires forall id :: id in q && id in q' ==> q'[id].callback == q[id].callback
    ensures |CallbacksDue(q, tag, now)|
         == |CallbacksDue(q', tag, now)| + if q[fired].repeat > 0 && q[fired].callback == User(tag) then 1 else 0
  {
    NotQueuedNotDue(q, now);
    NotQueuedNotDue(q', now);
    hide FiringsDue;
    if q[fired].repeat > 0 && q[fired].callback == User(tag) {
      var token := (fired, FiringsDue(q', fired, now));
      assert token in CallbacksDue(q, tag, now);
      assert CallbacksDue(q', tag, now) == CallbacksDue(q, tag, now) - {token};
    } else {
      assert CallbacksDue(q', tag, now) == CallbacksDue(q, tag, now);
    }
  }

  lemma NotQueuedNotDue(q: Timers, now: int)
    ensures forall id: nat :: id !in q ==> FiringsDue(q, id, now) == 0
  {
  }

  lemma {:induction false} DrainSpendsCallbacks(states: seq<Server>, turns: seq<Turn>, now: int, n: nat, tag: nat)
    requires IsDrain(states, turns, now) && Inv(states[0].book, now) && n < |states|
    ensures RunsOf(states[n].log, tag) + |CallbacksDue(states[n].book.timers, tag, now)|
         == RunsOf(states[0].log, tag) + |CallbacksDue(states[0].book.timers, tag, now)|
  {
    hide Inv, Turned, CallIds, TurnThrows, Earliest, CallbacksDue, RunsOf;
    if n > 0 {
      DrainSpendsCallbacks(states, turns, now, n - 1, tag);
      DrainKeepsInv(states, turns, now, n - 1);
      var s, t := states[n - 1], turns[n - 1];
      TurnSpendsCallback(s, t, now, tag);
      TurnLogs(s, t, now);
      if Ran(s.book, t) != [] {
        RunsAppended(s.log, Ran(s.book, t)[0], tag);
        assert s.log + Ran(s.book, t) == s.log + [Ran(s.book, t)[0]];
      } else {
        assert s.log + [] == s.log;
      }
    }
  }

  /** A complete drain runs each callback of the application exactly as often
      as its timers are due, summed over all timers that carry it. */
  lemma DrainRunsCallbacks(states: seq<Server>, turns: seq<Turn>, now: int, tag: nat)
    requires IsDrain(states, turns, now) && Inv(states[0].book, now)
    requires NoneDue(states[|turns|].book.timers, now)
    ensures RunsOf(states[|turns|].log, tag)
         == RunsOf(states[0].log, tag) + |CallbacksDue(states[0].book.timers, tag, now)|
  {
    DrainSpendsCallbacks(states, turns, now, |turns|, tag);
    hide IsDrain, Inv;
    assert CallbacksDue(states[|turns|].book.timers, tag, now) == {};
  }

  /** The firings of one timer among them number as many as it is due. */
  lemma {:induction false} CallbacksOfTimer(id: nat, n: nat)
    ensures |set i: nat | 0 <= i < n :: (id, i)| == n
  {
    if n > 0 {
      CallbacksOfTimer(id, n - 1);
      assert (set i: nat | 0 <= i < n :: (id, i)) == (set i: nat | 0 <= i < n - 1 :: (id, i)) + {(id, n - 1)};
    }
  }
}
