/** What the responses of a run say, and when they are repeated. */
module Responses {
  import opened Common
  import opened Messages
  import opened EventTimers
  import opened DataCenter
  import opened ServerModel
  import opened ServerInvariant
  import opened KeySpec
  import opened Client
  import opened World
  import opened Safety
  import opened Accounting
  import opened Coherence
  import opened Ownership
  import opened Drain

  // ---------- Every answer fits its request ----------

  /** The answer is to this request: its type, its key and its possible
      results are those of the request, and an update is answered with its own value. */
  ghost predicate Fits(a: Answer, req: Request) {
    && a.op == req.op && a.key == req.key
    && (a.kind == ReadResponse <==> req.ReadRequest?)
    && (req.ReadRequest? ==> a.result == Ok || a.result == ErrorNoData)
    && (req.UpdateRequest? ==> a.value == req.data && (a.result == Ok || a.result == Retry))
  }

  ghost predicate AnswersFit(w: World) {
    forall n :: 0 <= n < |w.answers| ==> w.answers[n].op in w.handled && Fits(w.answers[n], w.handled[w.answers[n].op])
  }

  lemma AnswerFits(w: World, step: Step)
    requires Enabled(w, step) && OpsInv(w) && Inv(w.server.book, w.now) && StepAnswer(w, step).Some?
    ensures var a := StepAnswer(w, step).value;
      a.op in StepAround(w, step).handled && Fits(a, StepAround(w, step).handled[a.op])
  {
    match step {
      case Fire(turn) =>
        FiringIsOnRecord(w.server.book, w.server.book.timers[turn.id].callback.key, turn.id);
      case HandleUpdate(req, _, _) => UpdateAnswers(w.server.book, req, w.now);
      case HandleRead(req, _, _) => ReadAnswers(w.server, req, w.now);
    }
    hide WellFormed, ElementsOwn, AcksOwn, TimersOwned, KeyOwns, DeadlinesBounded, UpdateVerdict, ReadResult, ReadIds, UpdateIds, CallIds;
  }

  lemma StepKeepsFit(w: World, step: Step)
    requires Enabled(w, step) && OpsInv(w) && Inv(w.server.book, w.now) && AnswersFit(w)
    ensures AnswersFit(After(w, step))
  {
    hide Inv, StepAnswer, StepServer, StepAround, Fits, Possible, Guarded, RequestsInv, BookOps;
    StepKeepsRequests(w, step);
    if StepAnswer(w, step).Some? {
      AnswerFits(w, step);
    }
  }

  lemma {:induction false} RunAnswersFit(worlds: seq<World>, steps: seq<Step>, i: nat)
    requires IsRun(worlds, steps) && i < |worlds|
    ensures AnswersFit(worlds[i])
  {
    if i > 0 {
      RunAnswersFit(worlds, steps, i - 1);
      RunKeepsInv(worlds, steps, i - 1);
      hide Inv, OpsInv, AnswersKept, AnswersFit, After, Possible, Guarded, IsStart;
      StepKeepsFit(worlds[i - 1], steps[i - 1]);
    }
  }

  /** The response is to this request: a read response to a read, an update response to an update. */
  ghost predicate ResponseFits(r: Response, handled: map<nat, Request>) {
    && r.op in handled
    && r.key == handled[r.op].key
    && (r.kind == ReadResponse <==> handled[r.op].ReadRequest?)
    && (handled[r.op].UpdateRequest? ==> r.data == handled[r.op].data)
  }

  /** In every run each response that was sent, and each that a timer will
      repeat, has the type, the key and, for an update, the value of its request. */
  lemma RunResponsesFit(worlds: seq<World>, steps: seq<Step>, i: nat, r: Response)
    requires IsRun(worlds, steps) && i < |worlds|
    requires var s := worlds[i].server;
      r in s.sent || exists id :: id in s.book.timers && s.book.timers[id].callback == Resend(r)
    ensures ResponseFits(r, worlds[i].handled)
  {
    RunTellsResponses(worlds, steps, i);
    RunAnswersFit(worlds, steps, i);
    hide IsRun;
    var w := worlds[i];
    assert Told(w.answers, r);
    var n :| 0 <= n < |w.answers| && Reply(w.answers[n]) == r;
  }

  // ---------- What a client may receive ----------

  /** A client waits under the key of the request with that identifier. */
  ghost predicate WaitsForOwn(w: World) {
    forall c, op :: c in w.clients && op in w.clients[c].requests ==>
      && op in w.issued
      && (op in w.handled ==> w.handled[op].key == w.clients[c].requests[op])
      && (forall r :: r in w.requests && r.op == op ==> r.key == w.clients[c].requests[op])
  }

  lemma StepKeepsWaits(w: World, step: Step)
    requires Possible(w, step) && RequestsInv(w) && WaitsForOwn(w)
    ensures WaitsForOwn(After(w, step))
  {
    hide StepServer, StepAnswer, ReadIds, UpdateIds, CanTurn, UpdateVerdict;
  }

  lemma {:induction false} RunKeepsWaits(worlds: seq<World>, steps: seq<Step>, i: nat)
    requires IsRun(worlds, steps) && i < |worlds|
    ensures WaitsForOwn(worlds[i])
  {
    if i > 0 {
      RunKeepsWaits(worlds, steps, i - 1);
      RunKeepsInv(worlds, steps, i - 1);
      hide Inv, RequestsInv, BookOps, AnswersKept, WaitsForOwn, After, Possible, Guarded, IsStart;
      StepKeepsWaits(worlds[i - 1], steps[i - 1]);
    }
  }

  /** In every run no client receives a response that it waits for under
      another key: a response is unknown to it, or of its key. The exception
      for a mismatch never occurs, whatever the network repeats. */
  lemma NeverWrongKey(worlds: seq<World>, steps: seq<Step>, i: nat)
    requires IsRun(worlds, steps) && i < |steps| && steps[i].Deliver?
    ensures steps[i].client in worlds[i].clients
    ensures var c, r := worlds[i].clients[steps[i].client], steps[i].response;
      ReceiptOf(c, r, steps[i].ackSent) ==
        if r.op !in c.requests then NotMine else if steps[i].ackSent then Handled else AckFailed
  {
    RunKeepsWaits(worlds, steps, i);
    assert Possible(worlds[i], steps[i]);
    RunResponsesFit(worlds, steps, i, steps[i].response);
    hide IsRun;
  }

  // ---------- What NoData repeats ----------

  ghost function LastRead(answers: seq<Answer>): Option<Answer> {
    if |answers| == 0 then None
    else if answers[|answers| - 1].kind == ReadResponse then Some(answers[|answers| - 1])
    else LastRead(answers[..|answers| - 1])
  }

  /** The value and the deadline of the last read answer, empty and zero before the first. */
  ghost predicate RepeatsLastRead(answers: seq<Answer>, value: string, deadline: int) {
    match LastRead(answers)
    case None => value == "" && deadline == 0
    case Some(a) => value == a.value && deadline == a.deadline
  }

  ghost predicate NoDataRepeats(answers: seq<Answer>) {
    forall n :: 0 <= n < |answers| && answers[n].result == ErrorNoData ==>
      answers[n].kind == ReadResponse && RepeatsLastRead(answers[..n], answers[n].value, answers[n].deadline)
  }

  lemma LastReadAppended(answers: seq<Answer>, a: Answer)
    ensures LastRead(answers + [a]) == if a.kind == ReadResponse then Some(a) else LastRead(answers)
  {
    assert (answers + [a])[..|answers|] == answers;
  }

  lemma NoDataAppended(answers: seq<Answer>, a: Answer)
    requires NoDataRepeats(answers)
    requires a.result == ErrorNoData ==> a.kind == ReadResponse && RepeatsLastRead(answers, a.value, a.deadline)
    ensures NoDataRepeats(answers + [a])
  {
    hide RepeatsLastRead;
    forall n | 0 <= n < |answers + [a]|
      ensures (answers + [a])[..n] == if n < |answers| then answers[..n] else answers
    {
    }
  }

  /** The variables that every read goes through hold the last read answer. */
  ghost predicate ReadsLeft(w: World) {
    RepeatsLastRead(w.answers, w.server.readData, w.server.readStamp) && NoDataRepeats(w.answers)
  }

  /** Only a read changes those variables, to its answer. */
  lemma StepLeaves(w: World, step: Step)
    requires Possible(w, step)
    ensures var s, a := StepServer(w, step), StepAnswer(w, step);
      if step.HandleRead? then
        && a.Some? && a.value.kind == ReadResponse && s.readData == a.value.value && s.readStamp == a.value.deadline
        && (a.value.result == ErrorNoData ==> a.value.value == w.server.readData && a.value.deadline == w.server.readStamp)
      else
        && s.readData == w.server.readData && s.readStamp == w.server.readStamp
        && (a.Some? ==> a.value.kind == UpdateResponse && a.value.result != ErrorNoData)
  {
    hide BookRead, BookUpdate, BookCommit, Settled, Added, Deleted, CallIds, ReadIds, UpdateIds;
  }

  lemma StepKeepsLeft(w: World, step: Step)
    requires Possible(w, step) && ReadsLeft(w)
    ensures ReadsLeft(After(w, step))
  {
    StepLeaves(w, step);
    hide StepServer, StepAnswer, NoDataRepeats, LastRead, Possible;
    if StepAnswer(w, step).Some? {
      LastReadAppended(w.answers, StepAnswer(w, step).value);
      NoDataAppended(w.answers, StepAnswer(w, step).value);
    }
  }

  /** In every run an answer NoData repeats the value and the deadline of the
      last read answer before it, or is empty if there is none. */
  lemma {:induction false} RunRepeatsLastRead(worlds: seq<World>, steps: seq<Step>, i: nat)
    requires IsRun(worlds, steps) && i < |worlds|
    ensures ReadsLeft(worlds[i])
  {
    if i > 0 {
      RunRepeatsLastRead(worlds, steps, i - 1);
      hide ReadsLeft, After, Possible, Guarded, IsStart;
      assert Enabled(worlds[i - 1], steps[i - 1]) && worlds[i] == After(worlds[i - 1], steps[i - 1]);
      StepKeepsLeft(worlds[i - 1], steps[i - 1]);
    }
  }

  // ---------- When a response is repeated ----------

  /** The timer repeats an answer to the operation, 500 ms after it was given. */
  ghost predicate OnTime(answers: seq<Answer>, timer: Timer, op: nat) {
    exists n :: 0 <= n < |answers| && answers[n].op == op
                && timer.expire == answers[n].at + 500 && timer.callback == Resend(Reply(answers[n]))
  }

  ghost predicate ResendsOnTime(w: World) {
    forall op :: op in w.server.book.waitAck ==>
      && w.server.book.waitAck[op] in w.server.book.timers
      && OnTime(w.answers, w.server.book.timers[w.server.book.waitAck[op]], op)
  }

  lemma OnTimeStays(answers: seq<Answer>, later: seq<Answer>, timer: Timer, op: nat)
    requires OnTime(answers, timer, op) && answers <= later
    ensures OnTime(later, timer, op)
  {
    var n :| 0 <= n < |answers| && answers[n].op == op
             && timer.expire == answers[n].at + 500 && timer.callback == Resend(Reply(answers[n]));
    assert later[n] == answers[n];
  }

  lemma OnTimeAppended(answers: seq<Answer>, a: Answer, timer: Timer)
    requires timer.expire == a.at + 500 && timer.callback == Resend(Reply(a))
    ensures OnTime(answers + [a], timer, a.op)
  {
    assert (answers + [a])[|answers|] == a;
  }

  /** The entry of the operation and its timer are the same in both books. */
  ghost predicate SameWait(b: Book, b': Book, op: nat) {
    && op in b.waitAck && op in b'.waitAck && b'.waitAck[op] == b.waitAck[op]
    && b.waitAck[op] in b.timers && b.waitAck[op] in b'.timers
    && b'.timers[b.waitAck[op]] == b.timers[b.waitAck[op]]
  }

  /** The operation waits, and its timer repeats the answer 500 ms from now. */
  ghost predicate WoundUp(b: Book, a: Answer, now: int) {
    && a.op in b.waitAck && b.waitAck[a.op] in b.timers && a.at == now
    && b.timers[b.waitAck[a.op]].expire == now + 500
    && b.timers[b.waitAck[a.op]].callback == Resend(Reply(a))
  }

  lemma RegisteredWindsUp(b: Book, a: Answer, now: int, id: nat)
    requires FreshId(b.timers, id) && a.op !in b.waitAck && a.at == now
    ensures var b' := Registered(b, Reply(a), now, id);
      WoundUp(b', a, now)
      && forall op :: op in b.waitAck && b.waitAck[op] in b.timers ==> SameWait(b, b', op)
  {
  }

  lemma SameWaitTwice(b: Book, b': Book, b'': Book, op: nat)
    requires SameWait(b, b', op) && SameWait(b', b'', op)
    ensures SameWait(b, b'', op)
  {
  }

  lemma WaitIsNoLease(b: Book, now: int, op: nat, key: nat)
    requires Inv(b, now) && op in b.waitAck
    ensures b.waitAck[op] in b.timers && !LeaseTimerOf(b, b.waitAck[op], key)
    ensures b.timers[b.waitAck[op]].callback.Resend? && b.timers[b.waitAck[op]].callback.response.op == op
    ensures b.timers[b.waitAck[op]].repeat == 1
  {
    assert AckOwns(b.timers, op, b.waitAck[op]);
  }

  lemma ReadWindsUp(s: Server, req: Request, now: int, leaseId: nat, ackId: nat, op: nat)
    requires Inv(s.book, now) && ReadIds(s.book, req, now, leaseId, ackId) && req.op !in s.book.waitAck
    ensures var b, b' := s.book, HandledRead(s, req, now, leaseId, ackId).book;
      WoundUp(b', ReadAnswer(s, req, now), now) && (op in b.waitAck ==> SameWait(b, b', op))
  {
    var b, read := s.book, BookRead(s.book, req, now, leaseId);
    if op in b.waitAck {
      WaitIsNoLease(b, now, op, req.key);
      ReadSparesOthers(s, req, now, leaseId, ackId, b.waitAck[op]);
    }
    RegisteredWindsUp(read, ReadAnswer(s, req, now), now, ackId);
    hide Inv, CenterRead, ReadResult, LeaseTimerOf;
  }

  lemma UpdateWindsUp(s: Server, req: Update, now: int, leaseId: nat, ackId: nat, op: nat)
    requires Inv(s.book, now) && UpdateIds(s.book, req, now, leaseId, ackId) && req.op !in s.book.waitAck
    ensures var b, b', a := s.book, HandledUpdate(s, req, now, leaseId, ackId).book, UpdateAnswer(s.book, req, now);
      (a.Some? ==> WoundUp(b', a.value, now)) && (op in b.waitAck ==> SameWait(b, b', op))
  {
    var b, updated, a := s.book, BookUpdate(s.book, req, now, leaseId), UpdateAnswer(s.book, req, now);
    if op in b.waitAck {
      WaitIsNoLease(b, now, op, req.key);
      UpdateSparesOthers(s, req, now, leaseId, ackId, b.waitAck[op]);
    }
    if a.Some? {
      RegisteredWindsUp(updated, a.value, now, ackId);
    }
    hide Inv, CenterUpdate, UpdateVerdict, LeaseTimerOf;
  }

  lemma CommitWindsUp(s: Server, t: Turn, now: int, op: nat)
    requires Inv(s.book, now) && CanTurn(s.book, t, now) && Fires(s.book, t)
    requires s.book.timers[t.id].callback.CommitDeferred?
    ensures var b, b', a := s.book, Turned(s, t, now).book, TurnAnswer(s.book, t, now);
      a.Some? && WoundUp(b', a.value, now) && (op in b.waitAck ==> SameWait(b, b', op))
  {
    var b, key := s.book, s.book.timers[t.id].callback.key;
    if op in b.waitAck {
      WaitIsNoLease(b, now, op, key);
    }
    CommitTurnKeepsOwners(b, key, t.id, now, t.leaseId);
    hide Owners;
    CommitTurnIs(s, t, now);
    EntryIsFresh(b, b.elems[key].manager.opId);
    var committed := BookCommitted(b, key, t.id, now, t.leaseId);
    FiringKeepsWait(b, t, now, key, op);
    RegisteredWindsUp(committed, CommitAnswer(b, key, now).value, now, t.ackId);
    hide Turned, BookCommitted, EntriesHeld;
  }

  lemma FiringKeepsWait(b: Book, t: Turn, now: int, key: nat, op: nat)
    requires Owners(b) && t.id in b.timers && b.timers[t.id].expire <= now && FreshId(b.timers, t.leaseId)
    requires b.timers[t.id].repeat > 0 && b.timers[t.id].callback == CommitDeferred(key)
    ensures key in b.elems
    ensures op in b.waitAck ==> SameWait(b, BookCommitted(b, key, t.id, now, t.leaseId), op)
  {
    FiringIsOnRecord(b, key, t.id);
    CommitTurnOwns(b, key, t.id, now, t.leaseId);
    if op in b.waitAck {
      assert AckOwns(b.timers, op, b.waitAck[op]);
    }
    hide Owners, OnlyKey, KeyOwns;
  }

  lemma TurnWindsUp(s: Server, t: Turn, now: int, op: nat)
    requires Inv(s.book, now) && CanTurn(s.book, t, now)
    requires op in Turned(s, t, now).book.waitAck
    ensures var b, b', a := s.book, Turned(s, t, now).book, TurnAnswer(s.book, t, now);
      if a.Some? && a.value.op == op then WoundUp(b', a.value, now) else op in b.waitAck ==> SameWait(b, b', op)
  {
    var b, timer := s.book, s.book.timers[t.id];
    if timer.repeat > 0 && timer.callback.CommitDeferred? {
      CommitWindsUp(s, t, now, op);
    } else {
      TurnKeepsInv(s, t, now);
      TurnTimers(s, t, now);
      OtherTurnKeepsWait(s, t, now, op);
    }
    hide Inv, Turned, SameWait, WoundUp;
  }

  lemma OtherTurnKeepsWait(s: Server, t: Turn, now: int, op: nat)
    requires Inv(s.book, now) && CanTurn(s.book, t, now) && !TurnThrows(s.book, t, now)
    requires !(Fires(s.book, t) && s.book.timers[t.id].callback.CommitDeferred?)
    requires op in Turned(s, t, now).book.waitAck
    ensures SameWait(s.book, Turned(s, t, now).book, op)
  {
    var b, b' := s.book, Turned(s, t, now).book;
    TurnKeepsOwners(s, t, now);
    TurnTimers(s, t, now);
    assert op in b.waitAck;
    WaitIsNoLease(b, now, op, 0);
    hide Inv, Turned, TurnThrows, CallIds;
  }

  /** A step that gives the answer winds up its timer; any other step leaves
      the timer of a waiting operation as it is. */
  lemma StepWindsUp(w: World, step: Step, op: nat)
    requires Enabled(w, step) && OpsInv(w) && Inv(w.server.book, w.now) && op in StepServer(w, step).book.waitAck
    ensures var b, b' := w.server.book, StepServer(w, step).book;
      if Answers(w, step, op) then WoundUp(b', StepAnswer(w, step).value, w.now) else SameWait(b, b', op)
  {
    StepKeepsInv(w, step);
    WaitsAfter(w, step, op);
    match step {
      case Fire(turn) => TurnWindsUp(w.server, turn, w.now, op);
      case HandleRead(req, leaseId, ackId) =>
        RequestIsNotInUse(w, req);
        ReadWindsUp(w.server, req, w.now, leaseId, ackId, op);
      case HandleUpdate(req, leaseId, ackId) =>
        RequestIsNotInUse(w, req);
        UpdateWindsUp(w.server, req, w.now, leaseId, ackId, op);
      case HandleAck(acked) =>
        WaitIsNoLease(w.server.book, w.now, op, 0);
        AckKeepsWait(w.server.book, w.now, acked, op);
      case StartTimer(tag, timeout, repeat, id) => WaitIsNoLease(w.server.book, w.now, op, 0);
      case _ => WaitIsNoLease(w.server.book, w.now, op, 0);
    }
    hide Inv, OpsInv, Turned, HandledRead, HandledUpdate, Acknowledged, WoundUp, ReadIds, UpdateIds, CanTurn, TurnThrows, TurnAnswer;
  }

  lemma AckKeepsWait(b: Book, now: int, acked: nat, op: nat)
    requires Inv(b, now) && op in Acknowledged(b, acked).waitAck
    ensures SameWait(b, Acknowledged(b, acked), op)
  {
    WaitIsNoLease(b, now, op, 0);
    if acked in b.waitAck {
      WaitIsNoLease(b, now, acked, 0);
    }
    hide Inv;
  }

  lemma StepKeepsOnTime(w: World, step: Step)
    requires Enabled(w, step) && OpsInv(w) && Inv(w.server.book, w.now) && ResendsOnTime(w)
    ensures ResendsOnTime(After(w, step))
  {
    hide Inv, OpsInv, StepServer, StepAnswer, OnTime, Possible, Guarded;
    var w' := After(w, step);
    var b' := w'.server.book;
    forall op | op in b'.waitAck
      ensures b'.waitAck[op] in b'.timers && OnTime(w'.answers, b'.timers[b'.waitAck[op]], op)
    {
      StepWindsUp(w, step, op);
      if Answers(w, step, op) {
        OnTimeAppended(w.answers, StepAnswer(w, step).value, b'.timers[b'.waitAck[op]]);
      } else {
        OnTimeStays(w.answers, w'.answers, b'.timers[b'.waitAck[op]], op);
      }
    }
  }

  lemma {:induction false} RunResendsOnTime(worlds: seq<World>, steps: seq<Step>, i: nat)
    requires IsRun(worlds, steps) && i < |worlds|
    ensures ResendsOnTime(worlds[i])
  {
    if i > 0 {
      RunResendsOnTime(worlds, steps, i - 1);
      RunKeepsInv(worlds, steps, i - 1);
      hide Inv, OpsInv, AnswersKept, ResendsOnTime, After, Possible, Guarded, IsStart;
      StepKeepsOnTime(worlds[i - 1], steps[i - 1]);
    }
  }

  // ---------- Not before, and not later ----------

  lemma {:induction false} AnsweredTwice(answers: seq<Answer>, n: nat, m: nat, op: nat)
    requires n < m < |answers| && answers[n].op == op && answers[m].op == op
    ensures AnswersTo(answers, op) >= 2
  {
    var last := |answers| - 1;
    if m < last {
      AnsweredTwice(answers[..last], n, m, op);
    } else {
      AnsweredOnce(answers[..last], n, op);
    }
  }

  lemma {:induction false} AnsweredOnce(answers: seq<Answer>, n: nat, op: nat)
    requires n < |answers| && answers[n].op == op
    ensures AnswersTo(answers, op) >= 1
  {
    if n < |answers| - 1 {
      AnsweredOnce(answers[..|answers| - 1], n, op);
    }
  }

  /** In every run the timer of a waiting operation expires 500 ms after the
      one answer to the operation was given, and repeats that answer. */
  lemma TimerOfAnswer(worlds: seq<World>, steps: seq<Step>, i: nat, a: Answer)
    requires IsRun(worlds, steps) && i < |worlds|
    requires a in worlds[i].answers && a.op in worlds[i].server.book.waitAck
    ensures var b := worlds[i].server.book;
      b.waitAck[a.op] in b.timers
      && b.timers[b.waitAck[a.op]].expire == a.at + 500 && b.timers[b.waitAck[a.op]].callback == Resend(Reply(a))
  {
    RunResendsOnTime(worlds, steps, i);
    RunInOrder(worlds, steps, i, a.op);
    SentOnceOrTwice(worlds, steps, i, a.op);
    var w := worlds[i];
    hide IsRun, InOrder;
    var timer := w.server.book.timers[w.server.book.waitAck[a.op]];
    var n :| 0 <= n < |w.answers| && w.answers[n].op == a.op
             && timer.expire == w.answers[n].at + 500 && timer.callback == Resend(Reply(w.answers[n]));
    var m :| 0 <= m < |w.answers| && w.answers[m] == a;
    if n < m {
      AnsweredTwice(w.answers, n, m, a.op);
    } else if m < n {
      AnsweredTwice(w.answers, m, n, a.op);
    }
  }

  /** In every run no response is repeated before 500 ms have passed since its
      answer, and what is repeated is that answer. */
  lemma NeverRepeatedEarly(worlds: seq<World>, steps: seq<Step>, i: nat, a: Answer)
    requires IsRun(worlds, steps) && i < |steps| && Enabled(worlds[i], steps[i])
    requires Repeats(worlds[i], steps[i], a.op) && a in worlds[i].answers
    ensures a.at + 500 <= worlds[i].now && StepSends(worlds[i], steps[i]) == [Reply(a)]
  {
    RunKeepsInv(worlds, steps, i);
    var b, t := worlds[i].server.book, steps[i].turn;
    assert Owned(b, t.id, b.timers[t.id].callback);
    TimerOfAnswer(worlds, steps, i, a);
    hide IsRun, Inv, OpsInv, AnswersKept, Reply, CallIds;
  }

  /** At the first drained moment 500 ms after its answer or later, an
      operation no longer waits: it was acknowledged, or its response repeated. */
  lemma RepeatedInTime(worlds: seq<World>, steps: seq<Step>, i: nat, a: Answer)
    requires IsRun(worlds, steps) && i < |worlds| && NoneDue(worlds[i].server.book.timers, worlds[i].now)
    requires a in worlds[i].answers && a.at + 500 <= worlds[i].now
    ensures LifeOf(worlds[i], a.op) == Closed
  {
    RunInOrder(worlds, steps, i, a.op);
    if a.op in worlds[i].server.book.waitAck {
      TimerOfAnswer(worlds, steps, i, a);
    }
    var n :| 0 <= n < |worlds[i].answers| && worlds[i].answers[n] == a;
    AnsweredOnce(worlds[i].answers, n, a.op);
    hide IsRun, IsDeferred;
  }
}
