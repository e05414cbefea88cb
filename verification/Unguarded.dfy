/** What holds even of runs in which nobody heeds the guards. */
module Unguarded {
  import opened Common
  import opened Messages
  import opened DataCenter
  import opened ServerModel
  import opened ServerInvariant
  import opened World
  import Drain

  lemma RegisteredKeepsWellFormed(b: Book, r: Response, now: int, id: nat)
    requires WellFormed(b) && id != 0
    ensures WellFormed(Registered(b, r, now, id))
  {
  }

  lemma ReadKeepsWellFormed(s: Server, req: Request, now: int, leaseId: nat, ackId: nat)
    requires WellFormed(s.book) && ReadIds(s.book, req, now, leaseId, ackId)
    ensures WellFormed(HandledRead(s, req, now, leaseId, ackId).book)
  {
    BookReadKeepsWellFormed(s.book, req, now, leaseId);
    RegisteredKeepsWellFormed(BookRead(s.book, req, now, leaseId), Reply(ReadAnswer(s, req, now)), now, ackId);
    hide WellFormed, BookRead, Registered;
  }

  lemma BookReadKeepsWellFormed(b: Book, req: Request, now: int, id: nat)
    requires WellFormed(b) && id != 0
    ensures WellFormed(BookRead(b, req, now, id))
  {
  }

  lemma UpdateKeepsWellFormed(s: Server, req: Update, now: int, leaseId: nat, ackId: nat)
    requires WellFormed(s.book) && UpdateIds(s.book, req, now, leaseId, ackId)
    ensures WellFormed(HandledUpdate(s, req, now, leaseId, ackId).book)
  {
    BookUpdateKeepsWellFormed(s.book, req, now, leaseId);
    var a := UpdateAnswer(s.book, req, now);
    if a.Some? {
      RegisteredKeepsWellFormed(BookUpdate(s.book, req, now, leaseId), Reply(a.value), now, ackId);
    }
    hide WellFormed, BookUpdate, Registered, UpdateAnswer;
  }

  lemma BookUpdateKeepsWellFormed(b: Book, req: Update, now: int, id: nat)
    requires WellFormed(b) && id != 0
    ensures WellFormed(BookUpdate(b, req, now, id))
  {
    var c := CenterUpdate(b.Center(), req.key, ToUint32(req.op), req.data, now, id);
    assert b.elems.Keys <= c.elems.Keys;
    var known := Known(b.Center(), req.key);
    assert known.timers == b.timers;
    UpdateTimersAllowed(Managing(known, req.key), req.key, ToUint32(req.op), now, id);
    hide StateManager.ManagerUpdate;
  }

  lemma AckKeepsWellFormed(b: Book, op: nat)
    requires WellFormed(b)
    ensures WellFormed(Acknowledged(b, op))
  {
  }

  /** So does a turn, whether or not its callback throws. */
  lemma TurnKeepsWellFormed(s: Server, t: Turn, now: int)
    requires WellFormed(s.book) && CanTurn(s.book, t, now)
    ensures WellFormed(Turned(s, t, now).book)
  {
    hide Called, WellFormed;
    if TurnThrows(s.book, t, now) {
      Drain.CallKeepsTargets(s, s.book.timers[t.id].callback, now, t.leaseId, t.ackId);
    } else {
      Drain.TurnSpendsToken(s, t, now);
    }
  }

  lemma StepKeepsWellFormed(w: World, step: Step)
    requires Possible(w, step) && WellFormed(w.server.book)
    ensures WellFormed(After(w, step).server.book)
  {
    match step {
      case Fire(turn) => TurnKeepsWellFormed(w.server, turn, w.now);
      case HandleRead(req, leaseId, ackId) => ReadKeepsWellFormed(w.server, req, w.now, leaseId, ackId);
      case HandleUpdate(req, leaseId, ackId) => UpdateKeepsWellFormed(w.server, req, w.now, leaseId, ackId);
      case HandleAck(op) => AckKeepsWellFormed(w.server.book, op);
      case _ =>
    }
    hide HandledRead, HandledUpdate, Turned, Acknowledged, CanTurn, ReadIds, UpdateIds;
  }

  /** In every run, guarded or not, the queue is one that the drain loop can drain in finitely many turns. */
  lemma {:induction false} EveryRunIsWellFormed(worlds: seq<World>, steps: seq<Step>, i: nat)
    requires IsUnguardedRun(worlds, steps) && i < |worlds|
    ensures WellFormed(worlds[i].server.book)
  {
    hide WellFormed, After, Possible;
    if i > 0 {
      EveryRunIsWellFormed(worlds, steps, i - 1);
      StepKeepsWellFormed(worlds[i - 1], steps[i - 1]);
    } else {
      assert IsStart(worlds[0]);
      EmptyIsWellFormed();
    }
  }

  lemma EmptyIsWellFormed()
    ensures WellFormed(EMPTY.book)
  {
  }
}
