/** The life of an operation: how often it is answered, sent and sent again. */
module Accounting {
  import opened Common
  import opened Messages
  import opened EventTimers
  import opened StateManager
  import opened DataCenter
  import opened ServerModel
  import opened ServerInvariant
  import opened World
  import opened Safety

  /** How many answers were given to the operation. */
  ghost function AnswersTo(answers: seq<Answer>, op: nat): nat {
    if |answers| == 0 then 0
    else AnswersTo(answers[..|answers| - 1], op) + if answers[|answers| - 1].op == op then 1 else 0
  }

  /** How many responses to the operation went to the network. */
  ghost function Sends(sent: seq<Response>, op: nat): nat {
    if |sent| == 0 then 0
    else Sends(sent[..|sent| - 1], op) + if sent[|sent| - 1].op == op then 1 else 0
  }

  lemma AnswersAppended(answers: seq<Answer>, a: Answer, op: nat)
    ensures AnswersTo(answers + [a], op) == AnswersTo(answers, op) + if a.op == op then 1 else 0
  {
  }

  lemma SendsAppended(sent: seq<Response>, r: Response, op: nat)
    ensures Sends(sent + [r], op) == Sends(sent, op) + if r.op == op then 1 else 0
  {
  }

  // ---------- What a step does about one operation ----------

  ghost predicate IsDeferred(b: Book, op: nat) {
    ToUint32(op) in b.deferred && b.deferred[ToUint32(op)].op == op
  }

  ghost predicate Answers(w: World, step: Step, op: nat)
    requires Possible(w, step)
  {
    StepAnswer(w, step).Some? && StepAnswer(w, step).value.op == op
  }

  ghost predicate Repeats(w: World, step: Step, op: nat)
    requires Possible(w, step)
  {
    && step.Fire?
    && Fires(w.server.book, step.turn)
    && w.server.book.timers[step.turn.id].callback.Resend?
    && w.server.book.timers[step.turn.id].callback.response.op == op
  }

  ghost predicate Refuses(w: World, step: Step, op: nat)
    requires Possible(w, step)
  {
    step.HandleUpdate? && step.update.op == op && UpdateVerdict(w.server.book, step.update, w.now).Thrown?
  }

  ghost predicate Defers(w: World, step: Step, op: nat)
    requires Possible(w, step)
  {
    step.HandleUpdate? && step.update.op == op && !Refuses(w, step, op) && !Answers(w, step, op)
  }

  lemma SentBy(w: World, step: Step, op: nat)
    requires Enabled(w, step)
    requires step.Fire? ==> !TurnThrows(w.server.book, step.turn, w.now)
    ensures Sends(StepServer(w, step).sent, op)
         == Sends(w.server.sent, op) + if Answers(w, step, op) || Repeats(w, step, op) then 1 else 0
  {
    SentIs(w, step);
    if StepSends(w, step) != [] {
      SendsAppended(w.server.sent, StepSends(w, step)[0], op);
      assert w.server.sent + StepSends(w, step) == w.server.sent + [StepSends(w, step)[0]];
    } else {
      assert w.server.sent + [] == w.server.sent;
    }
    hide StepServer, StepAnswer;
  }

  lemma TurnWaits(w: World, turn: Turn, op: nat)
    requires Possible(w, Fire(turn)) && TimersOwned(w.server.book) && !TurnThrows(w.server.book, turn, w.now)
    ensures op in StepServer(w, Fire(turn)).book.waitAck <==>
      Answers(w, Fire(turn), op) || (op in w.server.book.waitAck && !Repeats(w, Fire(turn), op))
    ensures Repeats(w, Fire(turn), op) ==> op in w.server.book.waitAck
  {
    hide CommittedAt, LeaseExpiredAt, Added, Settled;
  }

  lemma HandlingWaits(w: World, step: Step, op: nat)
    requires Possible(w, step) && (step.HandleRead? || step.HandleUpdate?)
    ensures op in StepServer(w, step).book.waitAck <==> Answers(w, step, op) || op in w.server.book.waitAck
  {
    hide CenterRead, CenterUpdate, ReadResult, UpdateVerdict, ToUint32, Added;
  }

  lemma WaitsAfter(w: World, step: Step, op: nat)
    requires Enabled(w, step) && Inv(w.server.book, w.now)
    requires step.Fire? ==> !TurnThrows(w.server.book, step.turn, w.now)
    ensures op in StepServer(w, step).book.waitAck <==>
      Answers(w, step, op) || (op in w.server.book.waitAck && !Repeats(w, step, op) && step != HandleAck(op))
    ensures Repeats(w, step, op) ==> op in w.server.book.waitAck
  {
    if step.Fire? {
      TurnWaits(w, step.turn, op);
    } else if step.HandleRead? || step.HandleUpdate? {
      HandlingWaits(w, step, op);
    }
    hide Inv, Turned, TurnAnswer, HandledRead, HandledUpdate, ReadAnswer, UpdateAnswer, Deleted;
  }

  /** An update is deferred only while a promise stands that no other update waits for. */
  lemma UpdateDefers(b: Book, req: Update, now: int)
    requires Inv(b, now) && !CannotDefer(b, req, now)
    ensures UpdateVerdict(b, req, now).Done? && UpdateVerdict(b, req, now).result == Defer ==> ToUint32(req.op) !in b.deferred
  {
  }

  /** A commit takes exactly its own request off the record. */
  lemma CommitUndefers(b: Book, key: nat, now: int, op: nat)
    requires DeferralsMatch(b) && InPhase(b, key, UpdateProtected)
    ensures b.elems[key].manager.opId in b.deferred
    ensures var deferred := b.deferred - {b.elems[key].manager.opId};
      IsDeferred(b.(deferred := deferred), op)
      <==> IsDeferred(b, op) && b.deferred[b.elems[key].manager.opId].op != op
  {
  }

  lemma TurnDefers(w: World, turn: Turn, op: nat)
    requires Enabled(w, Fire(turn)) && Inv(w.server.book, w.now) && !TurnThrows(w.server.book, turn, w.now)
    ensures IsDeferred(StepServer(w, Fire(turn)).book, op) <==> IsDeferred(w.server.book, op) && !Answers(w, Fire(turn), op)
  {
    var b := w.server.book;
    var timer := b.timers[turn.id];
    if timer.repeat > 0 && timer.callback.CommitDeferred? {
      FiringIsOnRecord(b, timer.callback.key, turn.id);
      CommitUndefers(b, timer.callback.key, w.now, op);
    }
    hide Inv, KeyOwns, CommittedAt, LeaseExpiredAt, Added, Settled;
  }

  lemma HandlingDefers(w: World, step: Step, op: nat)
    requires Enabled(w, step) && step.HandleUpdate? && Inv(w.server.book, w.now) && OpsInv(w)
    ensures IsDeferred(StepServer(w, step).book, op) <==>
      (IsDeferred(w.server.book, op) && !Answers(w, step, op)) || Defers(w, step, op)
  {
    UpdateDefers(w.server.book, step.update, w.now);
    hide Inv, RequestsInv, CenterUpdate, UpdateVerdict, Added;
  }

  lemma DeferredAfter(w: World, step: Step, op: nat)
    requires Enabled(w, step) && OpsInv(w) && Inv(w.server.book, w.now)
    requires step.Fire? ==> !TurnThrows(w.server.book, step.turn, w.now)
    ensures IsDeferred(StepServer(w, step).book, op) <==>
      (IsDeferred(w.server.book, op) && !Answers(w, step, op)) || Defers(w, step, op)
  {
    match step {
      case Fire(turn) => TurnDefers(w, turn, op);
      case HandleUpdate(_, _, _) => HandlingDefers(w, step, op);
      case _ =>
    }
    hide Inv, Turned, RequestsInv, CenterRead, HandledUpdate, UpdateVerdict, Added, Deleted;
  }

  /** Only fresh requests and deferred updates are answered, and none that waits for an acknowledgement. */
  lemma AnswersOnlyNew(w: World, step: Step, op: nat)
    requires Enabled(w, step) && OpsInv(w) && Inv(w.server.book, w.now) && Answers(w, step, op)
    ensures op !in w.server.book.waitAck
    ensures IsDeferred(w.server.book, op) || op !in w.handled
    ensures op in After(w, step).handled
  {
  }

  // ---------- The life of an operation ----------

  /** Not yet taken by the server; refused with an exception; deferred; answered
      and waiting for the acknowledgement; answered and done with. */
  datatype Life = Unseen | Refused | Deferred | Waiting | Closed

  ghost function LifeOf(w: World, op: nat): Life {
    if op !in w.handled then Unseen
    else if op in w.refused then Refused
    else if IsDeferred(w.server.book, op) then Deferred
    else if op in w.server.book.waitAck then Waiting
    else Closed
  }

  /** The records agree with the stage of life, and so do the numbers of answers and sends. */
  ghost predicate InOrder(w: World, op: nat) {
    var b := w.server.book;
    var answers, sends := AnswersTo(w.answers, op), Sends(w.server.sent, op);
    match LifeOf(w, op)
    case Unseen => op !in w.refused && !IsDeferred(b, op) && op !in b.waitAck && answers == sends == 0
    case Refused => !IsDeferred(b, op) && op !in b.waitAck && answers == sends == 0
    case Deferred => op !in b.waitAck && answers == sends == 0
    case Waiting => answers == sends == 1
    case Closed => answers == 1 && 1 <= sends <= 2
  }

  /** How a step may move an operation on, and how often it is sent on the way:
      an answer is sent when it is given, and once more if its timer runs out
      before the acknowledgement comes; nothing is sent after that. */
  ghost predicate MovesOn(before: Life, after: Life, step: Step, op: nat, sends: int) {
    match before
    case Unseen => if after == Waiting then sends == 1 else (after == Unseen || after == Refused || after == Deferred) && sends == 0
    case Refused => after == Refused && sends == 0
    case Deferred => if after == Waiting then sends == 1 && step.Fire? else after == Deferred && sends == 0
    case Waiting =>
      if after == Closed then if step == HandleAck(op) then sends == 0 else step.Fire? && sends == 1
      else after == Waiting && sends == 0
    case Closed => after == Closed && sends == 0
  }

  /** Requests are taken by the two handlers, and refused by one. */
  lemma HandledAfter(w: World, step: Step, op: nat)
    requires Enabled(w, step) && OpsInv(w)
    ensures var w' := After(w, step);
      && (op in w.handled ==> op in w'.handled)
      && (op in w'.handled && op !in w.handled ==> Answers(w, step, op) || Refuses(w, step, op) || Defers(w, step, op))
      && (Refuses(w, step, op) || Defers(w, step, op) ==> op !in w.handled && op in w'.handled)
      && (op in w'.refused <==> op in w.refused || Refuses(w, step, op))
      && !(Refuses(w, step, op) && Answers(w, step, op))
      && (Defers(w, step, op) ==> !Refuses(w, step, op) && !Answers(w, step, op))
      && (Repeats(w, step, op) ==> step.Fire?)
      && (Answers(w, step, op) ==> !step.HandleAck? && (op in w.handled ==> step.Fire?))
  {
  }

  /** All that a step does about one operation, put together. */
  lemma StepDoes(w: World, step: Step, op: nat)
    requires Enabled(w, step) && OpsInv(w) && Inv(w.server.book, w.now)
    ensures var w' := After(w, step);
      var b, b', answers := w.server.book, w'.server.book, Answers(w, step, op);
      && (op in b'.waitAck <==> answers || (op in b.waitAck && !Repeats(w, step, op) && step != HandleAck(op)))
      && (Repeats(w, step, op) ==> op in b.waitAck)
      && (IsDeferred(b', op) <==> (IsDeferred(b, op) && !answers) || Defers(w, step, op))
      && (answers ==> op !in b.waitAck && (IsDeferred(b, op) || op !in w.handled) && op in w'.handled)
      && Sends(w'.server.sent, op) == Sends(w.server.sent, op) + (if answers || Repeats(w, step, op) then 1 else 0)
      && AnswersTo(w'.answers, op) == AnswersTo(w.answers, op) + (if answers then 1 else 0)
  {
    hide Inv, OpsInv, IsDeferred, Repeats, StepAnswer, StepServer, StepAround, Possible, Guarded, TurnThrows;
    StepKeepsInv(w, step);
    SentBy(w, step, op);
    WaitsAfter(w, step, op);
    DeferredAfter(w, step, op);
    if Answers(w, step, op) {
      AnswersOnlyNew(w, step, op);
    }
    if StepAnswer(w, step).Some? {
      AnswersAppended(w.answers, StepAnswer(w, step).value, op);
    }
  }

  lemma StepMovesOn(w: World, step: Step, op: nat)
    requires Enabled(w, step) && OpsInv(w) && Inv(w.server.book, w.now) && InOrder(w, op)
    ensures var w' := After(w, step);
      && InOrder(w', op)
      && MovesOn(LifeOf(w, op), LifeOf(w', op), step, op, Sends(w'.server.sent, op) - Sends(w.server.sent, op))
  {
    hide Inv, OpsInv, After, IsDeferred, Answers, Repeats, Refuses, Defers, Possible, Guarded;
    StepDoes(w, step, op);
    HandledAfter(w, step, op);
    if IsDeferred(w.server.book, op) {
      DeferralIsHandled(w, op);
    }
  }

  lemma DeferralIsHandled(w: World, op: nat)
    requires OpsInv(w) && IsDeferred(w.server.book, op)
    ensures op in w.handled
  {
  }

  // ---------- Whole runs ----------

  lemma {:induction false} RunInOrder(worlds: seq<World>, steps: seq<Step>, i: nat, op: nat)
    requires IsRun(worlds, steps) && i < |worlds|
    ensures InOrder(worlds[i], op)
  {
    if i > 0 {
      RunInOrder(worlds, steps, i - 1, op);
      RunKeepsInv(worlds, steps, i - 1);
      hide Inv, OpsInv, InOrder, MovesOn, After, Possible, Guarded, IsStart;
      StepMovesOn(worlds[i - 1], steps[i - 1], op);
    }
  }

  /** Conservation. In every run each request the server took has exactly one
      answer, or is an update that is still deferred or that was refused, and
      never two of these. */
  lemma EachRequestOnce(worlds: seq<World>, steps: seq<Step>, i: nat, op: nat)
    requires IsRun(worlds, steps) && i < |worlds|
    ensures var w := worlds[i];
      AnswersTo(w.answers, op)
      + (if IsDeferred(w.server.book, op) then 1 else 0)
      + (if op in w.refused then 1 else 0)
      == if op in w.handled then 1 else 0
  {
    RunInOrder(worlds, steps, i, op);
    RunKeepsInv(worlds, steps, i);
  }

  /** In every run a response is sent at most twice, once while it waits for
      its acknowledgement, and never for an operation that has no answer. */
  lemma SentOnceOrTwice(worlds: seq<World>, steps: seq<Step>, i: nat, op: nat)
    requires IsRun(worlds, steps) && i < |worlds|
    ensures var w := worlds[i];
      && AnswersTo(w.answers, op) <= Sends(w.server.sent, op) <= 2 * AnswersTo(w.answers, op) <= 2
      && (op in w.server.book.waitAck ==> Sends(w.server.sent, op) == 1)
  {
    RunInOrder(worlds, steps, i, op);
  }

  /** Once an answer no longer waits for its acknowledgement, it is never sent
      again. So an acknowledgement that comes in time leaves it at one send,
      and a timer that runs out first at two. */
  lemma {:induction false} ClosedForGood(worlds: seq<World>, steps: seq<Step>, i: nat, j: nat, op: nat)
    requires IsRun(worlds, steps) && i <= j < |worlds| && LifeOf(worlds[i], op) == Closed
    ensures LifeOf(worlds[j], op) == Closed && Sends(worlds[j].server.sent, op) == Sends(worlds[i].server.sent, op)
    decreases j - i
  {
    hide Inv, OpsInv, AnswersKept, InOrder, LifeOf, After, Possible, Guarded, IsStart, Sends;
    if i < j {
      ClosedForGood(worlds, steps, i, j - 1, op);
      RunInOrder(worlds, steps, j - 1, op);
      RunKeepsInv(worlds, steps, j - 1);
      StaysClosed(worlds[j - 1], steps[j - 1], op);
    }
  }

  lemma StaysClosed(w: World, step: Step, op: nat)
    requires Enabled(w, step) && OpsInv(w) && Inv(w.server.book, w.now) && InOrder(w, op) && LifeOf(w, op) == Closed
    ensures LifeOf(After(w, step), op) == Closed && Sends(After(w, step).server.sent, op) == Sends(w.server.sent, op)
  {
    hide Inv, OpsInv, InOrder, LifeOf, After, Possible, Guarded;
    StepMovesOn(w, step, op);
  }

  lemma ClosedBy(worlds: seq<World>, steps: seq<Step>, i: nat, j: nat, op: nat)
    requires IsRun(worlds, steps) && i < j < |worlds|
    requires LifeOf(worlds[i], op) == Waiting && LifeOf(worlds[i + 1], op) == Closed
    ensures Sends(worlds[j].server.sent, op) == if steps[i] == HandleAck(op) then 1 else 2
  {
    hide Inv, OpsInv, AnswersKept, After, Possible, Guarded, IsStart, Sends;
    RunInOrder(worlds, steps, i, op);
    RunKeepsInv(worlds, steps, i);
    ClosedForGood(worlds, steps, i + 1, j, op);
    StepMovesOn(worlds[i], steps[i], op);
  }
}
