/** What a client may believe: from the callback back to the server's promise. */
module Coherence {
  import opened Common
  import opened Messages
  import opened EventTimers
  import opened ServerModel
  import opened ServerInvariant
  import opened Client
  import opened World
  import opened Safety

  // ---------- Every response tells an answer ----------

  ghost predicate Told(answers: seq<Answer>, r: Response) {
    exists n :: 0 <= n < |answers| && Reply(answers[n]) == r
  }

  /** The responses on the network and those that timers will repeat. */
  ghost predicate ResponsesTold(s: Server, answers: seq<Answer>) {
    && (forall n :: 0 <= n < |s.sent| ==> Told(answers, s.sent[n]))
    && (forall id :: id in s.book.timers && s.book.timers[id].callback.Resend? ==> Told(answers, s.book.timers[id].callback.response))
  }

  /** New resend timers carry the answer just given. */
  ghost predicate NewResendsTell(q: Timers, q': Timers, answer: Option<Answer>) {
    forall id :: id in q' && q'[id].callback.Resend? ==>
      || (id in q && q'[id].callback == q[id].callback)
      || (answer.Some? && q'[id].callback.response == Reply(answer.value))
  }

  lemma TurnResends(s: Server, t: Turn, now: int)
    requires CanTurn(s.book, t, now)
    ensures NewResendsTell(s.book.timers, Turned(s, t, now).book.timers, TurnAnswer(s.book, t, now))
  {
    var timer := s.book.timers[t.id];
    if timer.repeat > 0 {
      CallKeepsTimer(s, t, now);
      var called := Called(s, timer.callback, now, t.leaseId, t.ackId);
      assert NewResendsTell(s.book.timers, called.book.timers, TurnAnswer(s.book, t, now));
      assert t.id in called.book.timers && called.book.timers[t.id].callback == timer.callback;
    }
  }

  lemma ReadResends(b: Book, req: Request, now: int, id: nat)
    ensures NewResendsTell(b.timers, BookRead(b, req, now, id).timers, None)
  {
  }

  lemma UpdateResends(b: Book, req: Update, now: int, id: nat)
    ensures NewResendsTell(b.timers, BookUpdate(b, req, now, id).timers, None)
  {
  }

  lemma RegisteredResends(q: Timers, b: Book, a: Answer, now: int, id: nat)
    requires NewResendsTell(q, b.timers, None)
    ensures NewResendsTell(q, Registered(b, Reply(a), now, id).timers, Some(a))
  {
  }

  lemma StepResends(w: World, step: Step)
    requires Enabled(w, step)
    ensures NewResendsTell(w.server.book.timers, StepServer(w, step).book.timers, StepAnswer(w, step))
  {
    hide Turned, TurnAnswer, FreshId, UpdateVerdict, BookRead, BookUpdate, Registered, Reply;
    var b := w.server.book;
    match step {
      case Fire(turn) => TurnResends(w.server, turn, w.now);
      case HandleRead(req, leaseId, ackId) =>
        ReadResends(b, req, w.now, leaseId);
        RegisteredResends(b.timers, BookRead(b, req, w.now, leaseId), ReadAnswer(w.server, req, w.now), w.now, ackId);
      case HandleUpdate(req, leaseId, ackId) =>
        UpdateResends(b, req, w.now, leaseId);
        if StepAnswer(w, step).Some? {
          RegisteredResends(b.timers, BookUpdate(b, req, w.now, leaseId), StepAnswer(w, step).value, w.now, ackId);
        }
      case _ =>
    }
  }

  lemma ToldAppended(answers: seq<Answer>, a: Answer, r: Response)
    requires Told(answers, r) || r == Reply(a)
    ensures Told(answers + [a], r)
  {
    if r == Reply(a) {
      assert Reply((answers + [a])[|answers|]) == r;
    } else {
      var n :| 0 <= n < |answers| && Reply(answers[n]) == r;
      assert Reply((answers + [a])[n]) == r;
    }
  }

  lemma StepKeepsResponses(w: World, step: Step)
    requires Enabled(w, step) && Inv(w.server.book, w.now) && OpsInv(w) && ResponsesTold(w.server, w.answers)
    ensures ResponsesTold(After(w, step).server, After(w, step).answers)
  {
    hide Inv, OpsInv, Told, StepServer, StepAnswer, TurnThrows;
    StepKeepsInv(w, step);
    SentIs(w, step);
    StepResends(w, step);
    var w' := After(w, step);
    forall r | Told(w.answers, r) || (StepAnswer(w, step).Some? && r == Reply(StepAnswer(w, step).value))
      ensures Told(w'.answers, r)
    {
      if StepAnswer(w, step).Some? {
        ToldAppended(w.answers, StepAnswer(w, step).value, r);
      }
    }
    hide Possible, Guarded, StepAround;
  }

  lemma {:induction false} RunTellsResponses(worlds: seq<World>, steps: seq<Step>, i: nat)
    requires IsRun(worlds, steps) && i < |worlds|
    ensures ResponsesTold(worlds[i].server, worlds[i].answers)
  {
    if i > 0 {
      RunTellsResponses(worlds, steps, i - 1);
      RunKeepsInv(worlds, steps, i - 1);
      hide Inv, OpsInv, ResponsesTold, After, Possible, Guarded, IsStart;
      StepKeepsResponses(worlds[i - 1], steps[i - 1]);
    }
  }

  // ---------- Every callback tells an answer ----------

  /** The callback was given an answer of the server, and not before it was made. */
  ghost predicate Tells(a: Answer, d: Delivery) {
    && a.op == d.op && a.result == d.result && a.key == d.key && a.value == d.data
    && ToUint32(a.deadline) == d.expire
    && a.at <= d.at
  }

  ghost predicate Founded(answers: seq<Answer>, d: Delivery) {
    exists n :: 0 <= n < |answers| && Tells(answers[n], d)
  }

  ghost predicate CallbacksFounded(w: World) {
    && (forall n :: 0 <= n < |w.answers| ==> w.answers[n].at <= w.now)
    && (forall c, n :: c in w.clients && 0 <= n < |w.clients[c].delivered| ==>
          w.clients[c].delivered[n].at <= w.now && Founded(w.answers, w.clients[c].delivered[n]))
  }

  lemma FoundedStays(answers: seq<Answer>, later: seq<Answer>, d: Delivery)
    requires Founded(answers, d) && answers <= later
    ensures Founded(later, d)
  {
  }

  lemma ToldIsFounded(answers: seq<Answer>, r: Response, now: int)
    requires Told(answers, r) && forall n :: 0 <= n < |answers| ==> answers[n].at <= now
    ensures Founded(answers, Delivery(r.op, r.result, r.expire, r.key, r.data, now))
  {
  }

  lemma StepKeepsFounded(w: World, step: Step)
    requires Enabled(w, step) && Inv(w.server.book, w.now) && ResponsesTold(w.server, w.answers) && CallbacksFounded(w)
    ensures CallbacksFounded(After(w, step))
  {
    hide Inv, Told, StepServer, StepAnswer, Founded;
    var w' := After(w, step);
    TimeIsMonotonic(w, step);
    if StepAnswer(w, step).Some? {
      AnswerIsTrue(w, step);
    }
    forall c, n | c in w'.clients && 0 <= n < |w'.clients[c].delivered|
      ensures w'.clients[c].delivered[n].at <= w'.now && Founded(w'.answers, w'.clients[c].delivered[n])
    {
      var d := w'.clients[c].delivered[n];
      if n < |w.clients[c].delivered| {
        assert d == w.clients[c].delivered[n];
      } else {
        ToldIsFounded(w.answers, step.response, w.now);
      }
      FoundedStays(w.answers, w'.answers, d);
    }
  }

  lemma {:induction false} RunFoundsCallbacks(worlds: seq<World>, steps: seq<Step>, i: nat)
    requires IsRun(worlds, steps) && i < |worlds|
    ensures CallbacksFounded(worlds[i])
  {
    if i > 0 {
      RunFoundsCallbacks(worlds, steps, i - 1);
      RunTellsResponses(worlds, steps, i - 1);
      RunKeepsInv(worlds, steps, i - 1);
      hide Inv, OpsInv, ResponsesTold, CallbacksFounded, After, Possible, Guarded, IsStart;
      StepKeepsFounded(worlds[i - 1], steps[i - 1]);
    }
  }

  // ---------- End to end ----------

  /** The deadline as the client's callback recovers it from the message. */
  function BelievedDeadline(d: Delivery): int {
    d.at + ExpireMilliseconds(d.expire, d.at)
  }

  /** The callback ran before the deadline, or so late that it cannot take it for one of the future. */
  predicate Readable(a: Answer, d: Delivery) {
    d.at > a.deadline ==> !Wraps(d.at - a.deadline)
  }

  /** The client believes in the deadline of an Ok answer for no longer than
      the answer says, or not at all, exactly when it can read the deadline. */
  lemma BelievedWhen(a: Answer, d: Delivery)
    requires Tells(a, d) && a.at <= a.deadline <= a.at + LEASE_MS
    ensures Readable(a, d) <==> BelievedDeadline(d) <= a.deadline || BelievedDeadline(d) <= d.at
    ensures d.at <= a.deadline ==> BelievedDeadline(d) == a.deadline
    ensures !Readable(a, d) ==> BelievedDeadline(d) == d.at + TWO_32 - (d.at - a.deadline) % TWO_32
  {
    if d.at <= a.deadline {
      DeadlineRoundTrip(a.deadline, d.at);
    } else {
      PastLooksAhead(a.deadline, d.at);
    }
    hide ToUint32, ExpireMilliseconds;
  }

  /** Deadlines of Ok answers lie between the answer and the lease time. */
  ghost predicate DeadlinesNear(answers: seq<Answer>) {
    forall n :: 0 <= n < |answers| && answers[n].result == Ok ==>
      answers[n].at <= answers[n].deadline <= answers[n].at + LEASE_MS
  }

  lemma {:induction false} RunKeepsDeadlinesNear(worlds: seq<World>, steps: seq<Step>, i: nat)
    requires IsRun(worlds, steps) && i < |worlds|
    ensures DeadlinesNear(worlds[i].answers)
  {
    if i > 0 {
      RunKeepsDeadlinesNear(worlds, steps, i - 1);
      RunKeepsInv(worlds, steps, i - 1);
      hide Inv, OpsInv, After, Possible, Guarded, IsStart, DeadlinesNear;
      StepKeepsDeadlinesNear(worlds[i - 1], steps[i - 1]);
    }
  }

  lemma StepKeepsDeadlinesNear(w: World, step: Step)
    requires Enabled(w, step) && Inv(w.server.book, w.now) && DeadlinesNear(w.answers)
    ensures DeadlinesNear(After(w, step).answers)
  {
    hide Inv, StepAnswer, StepServer, Possible, Guarded, StepEntry;
    if StepAnswer(w, step).Some? {
      AnswerIsTrue(w, step);
    }
  }

  /** End-to-end coherence. In every run, over a network that may lose, delay,
      reorder and repeat, whenever the callback of a client was given Ok with
      a value whose deadline it could read, and the clock has not reached the
      deadline the client computes, the server's value for the key is that value. */
  lemma EndToEnd(worlds: seq<World>, steps: seq<Step>, j: nat, client: nat, n: nat)
    requires IsRun(worlds, steps) && j < |worlds| && client in worlds[j].clients
    requires n < |worlds[j].clients[client].delivered|
    requires var d := worlds[j].clients[client].delivered[n];
      && d.result == Ok
      && (forall a :: a in worlds[j].answers && a.op == d.op ==> Readable(a, d))
      && worlds[j].now < BelievedDeadline(d)
    ensures var d := worlds[j].clients[client].delivered[n];
      d.key in worlds[j].server.book.elems && worlds[j].server.book.elems[d.key].value == d.data
  {
    var w := worlds[j];
    var d := w.clients[client].delivered[n];
    RunFoundsCallbacks(worlds, steps, j);
    assert Founded(w.answers, d);
    var m :| 0 <= m < |w.answers| && Tells(w.answers[m], d);
    var a := w.answers[m];
    RunKeepsDeadlinesNear(worlds, steps, j);
    BelievedWhen(a, d);
    hide IsRun, BelievedDeadline;
    LeaseSafety(worlds, steps, j, j, a);
  }

  // ---------- How often a callback runs ----------

  /** The client issued a request with this identifier in the first `n` steps. */
  ghost predicate IssuedBy(steps: seq<Step>, n: nat, client: nat, op: nat)
    requires n <= |steps|
  {
    exists m :: 0 <= m < n && steps[m].Issue? && steps[m].client == client && steps[m].request.op == op
  }

  /** A callback of the operation after which the acknowledgement could not be sent. */
  ghost predicate FailsAck(w: World, step: Step, client: nat, op: nat) {
    && step.Deliver? && step.client == client && step.response.op == op
    && client in w.clients && ReceiptOf(w.clients[client], step.response, step.ackSent) == AckFailed
  }

  ghost function FailedAcks(worlds: seq<World>, steps: seq<Step>, n: nat, client: nat, op: nat): nat
    requires n <= |steps| && n <= |worlds|
  {
    if n == 0 then 0
    else FailedAcks(worlds, steps, n - 1, client, op) + if FailsAck(worlds[n - 1], steps[n - 1], client, op) then 1 else 0
  }

  /** The client issued the operation and no longer waits for it. */
  ghost predicate Finished(steps: seq<Step>, n: nat, client: nat, op: nat, c: Client)
    requires n <= |steps|
  {
    IssuedBy(steps, n, client, op) && op !in c.requests
  }

  /** In every run a callback ran once for each acknowledgement that could not
      be sent, and once more if the client no longer waits for the operation.
      Callbacks of operations the client did not issue never run. */
  lemma {:induction false} CallbacksCounted(worlds: seq<World>, steps: seq<Step>, i: nat, client: nat, op: nat)
    requires IsRun(worlds, steps) && i < |worlds| && client in worlds[i].clients
    ensures var c := worlds[i].clients[client];
      && Callbacks(c.delivered, op)
           == FailedAcks(worlds, steps, i, client, op) + (if Finished(steps, i, client, op, c) then 1 else 0)
      && (op in c.requests ==> IssuedBy(steps, i, client, op))
      && (IssuedBy(steps, i, client, op) ==> op in worlds[i].issued)
      && (Callbacks(c.delivered, op) > 0 ==> IssuedBy(steps, i, client, op))
  {
    hide After, Possible, Guarded, Callbacks, IssuedBy;
    if i > 0 {
      var w, step := worlds[i - 1], steps[i - 1];
      ClientsStay(w, step, client);
      CallbacksCounted(worlds, steps, i - 1, client, op);
      IssuedNext(steps, i - 1, client, op);
      StepCounts(w, step, client, op);
    } else {
      assert IsStart(worlds[0]);
      NothingIssued(steps, client, op);
    }
  }

  lemma NothingIssued(steps: seq<Step>, client: nat, op: nat)
    ensures !IssuedBy(steps, 0, client, op) && Callbacks([], op) == 0
  {
  }

  lemma IssuedNext(steps: seq<Step>, n: nat, client: nat, op: nat)
    requires n < |steps|
    ensures IssuedBy(steps, n + 1, client, op) <==>
      IssuedBy(steps, n, client, op) || (steps[n].Issue? && steps[n].client == client && steps[n].request.op == op)
  {
  }

  /** What a step does to the callbacks and to the table, for one operation of one client. */
  lemma StepCounts(w: World, step: Step, client: nat, op: nat)
    requires Possible(w, step) && client in w.clients
    ensures var c, w' := w.clients[client], After(w, step);
      && client in w'.clients
      && var c' := w'.clients[client];
         var issues := step.Issue? && step.client == client && step.request.op == op;
         var finishes := op in c.requests && op !in c'.requests;
         && Callbacks(c'.delivered, op)
              == Callbacks(c.delivered, op) + (if FailsAck(w, step, client, op) || finishes then 1 else 0)
         && !(FailsAck(w, step, client, op) && finishes)
         && (FailsAck(w, step, client, op) ==> op in c.requests)
         && (op in c'.requests ==> op in c.requests || issues)
         && (issues ==> op in c'.requests && op in w'.issued && op !in w.issued)
         && w.issued <= w'.issued
  {
    hide StepServer, StepAnswer, Callbacks, ReadIds, UpdateIds, CanTurn;
    if step.Deliver? && step.client == client {
      var r := step.response;
      CallbacksAppended(w.clients[client].delivered, Delivery(r.op, r.result, r.expire, r.key, r.data, w.now), op);
    }
  }

  /** The callback of a request runs at most once exactly when none of its
      acknowledgements failed, or one did and the client still waits. */
  lemma AtMostOnce(worlds: seq<World>, steps: seq<Step>, i: nat, client: nat, op: nat)
    requires IsRun(worlds, steps) && i < |worlds| && client in worlds[i].clients
    ensures var c, failed := worlds[i].clients[client], FailedAcks(worlds, steps, i, client, op);
      Callbacks(c.delivered, op) <= 1 <==> failed == 0 || (failed == 1 && op in c.requests)
  {
    CallbacksCounted(worlds, steps, i, client, op);
    hide IsRun, IssuedBy, Callbacks;
  }

  lemma ClientsStay(w: World, step: Step, client: nat)
    requires Enabled(w, step)
    ensures client in After(w, step).clients <==> client in w.clients
  {
  }

  // ---------- Whose callback ----------

  /** The client issued a request with this identifier and key in the first `n` steps. */
  ghost predicate Asked(steps: seq<Step>, n: nat, client: nat, op: nat, key: nat) {
    exists m :: 0 <= m < n <= |steps| && steps[m].Issue? && steps[m].client == client
                && steps[m].request.op == op && steps[m].request.key == key
  }

  lemma AskedStays(steps: seq<Step>, n: nat, client: nat, op: nat, key: nat)
    requires Asked(steps, n, client, op, key) && n < |steps|
    ensures Asked(steps, n + 1, client, op, key)
  {
  }

  /** What a client waits for, and what its callbacks were given, it asked for. */
  ghost predicate OnlyAsked(steps: seq<Step>, n: nat, client: nat, c: Client) {
    && (forall op :: op in c.requests ==> Asked(steps, n, client, op, c.requests[op]))
    && (forall d :: d in c.delivered ==> Asked(steps, n, client, d.op, d.key))
  }

  /** In every run the callback of a request runs only on a response with the
      identifier and the key of that request, issued earlier by that client,
      whatever the network repeats and whichever acknowledgements fail. */
  lemma {:induction false} CallbacksAreAsked(worlds: seq<World>, steps: seq<Step>, i: nat, client: nat)
    requires IsRun(worlds, steps) && i < |worlds| && client in worlds[i].clients
    ensures OnlyAsked(steps, i, client, worlds[i].clients[client])
  {
    if i > 0 {
      var w, step := worlds[i - 1], steps[i - 1];
      ClientsStay(w, step, client);
      CallbacksAreAsked(worlds, steps, i - 1, client);
      hide After, Possible, Guarded, IsStart, OnlyAsked;
      StepOnlyAsked(w, steps, i - 1, client);
    }
  }

  lemma StepOnlyAsked(w: World, steps: seq<Step>, n: nat, client: nat)
    requires n < |steps| && Enabled(w, steps[n]) && client in w.clients
    requires OnlyAsked(steps, n, client, w.clients[client])
    ensures client in After(w, steps[n]).clients && OnlyAsked(steps, n + 1, client, After(w, steps[n]).clients[client])
  {
    hide StepServer, StepAnswer, Asked;
    var c, c' := w.clients[client], After(w, steps[n]).clients[client];
    forall op | op in c'.requests
      ensures Asked(steps, n + 1, client, op, c'.requests[op])
    {
      if op in c.requests {
        AskedStays(steps, n, client, op, c.requests[op]);
      } else {
        JustAsked(steps, n, client, op);
      }
    }
    forall d | d in c'.delivered
      ensures Asked(steps, n + 1, client, d.op, d.key)
    {
      AskedStays(steps, n, client, d.op, d.key);
    }
  }

  lemma JustAsked(steps: seq<Step>, n: nat, client: nat, op: nat)
    requires n < |steps| && steps[n].Issue? && steps[n].client == client && steps[n].request.op == op
    ensures Asked(steps, n + 1, client, op, steps[n].request.key)
  {
  }

  /** A request leaves the table only when a response with its identifier and
      its key was handled, which ran its callback; any other leaves it pending. */
  lemma PendingUntilHandled(w: World, step: Step, client: nat, op: nat)
    requires Enabled(w, step) && client in w.clients && op in w.clients[client].requests
    ensures var c, c' := w.clients[client], After(w, step).clients[client];
      && (op in c'.requests ==> c'.requests[op] == c.requests[op])
      && (op !in c'.requests <==>
           step.Deliver? && step.client == client && step.ackSent
           && step.response.op == op && step.response.key == c.requests[op])
      && (op !in c'.requests ==> Callbacks(c'.delivered, op) == Callbacks(c.delivered, op) + 1)
  {
    hide StepServer, StepAnswer, Callbacks;
    if step.Deliver? && step.client == client {
      var r := step.response;
      CallbacksAppended(w.clients[client].delivered, Delivery(r.op, r.result, r.expire, r.key, r.data, w.now), op);
    }
  }
}
