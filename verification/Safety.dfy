/** What the cache promises in every run: leases are kept and values are those of the updates. */
module Safety {
  import opened Common
  import opened Messages
  import opened EventTimers
  import opened ServerModel
  import opened ServerInvariant
  import opened KeySpec
  import opened Drain
  import opened World

  // ---------- Every step keeps the invariant ----------

  lemma StepKeepsInv(w: World, step: Step)
    requires Enabled(w, step) && OpsInv(w) && Inv(w.server.book, w.now)
    ensures step.Fire? ==> !TurnThrows(w.server.book, step.turn, w.now)
    ensures Inv(After(w, step).server.book, After(w, step).now)
  {
    hide Inv, HandledRead, HandledUpdate, Turned, TurnThrows, CanTurn, ReadIds, UpdateIds, Acknowledged, Overdue, CannotDefer, NotInUse, RequestsInv, BookOps;
    match step {
      case Advance(to) => TimePasses(w.server.book, w.now, to);
      case Fire(turn) => TurnKeepsInv(w.server, turn, w.now);
      case HandleRead(req, leaseId, ackId) =>
        RequestIsNotInUse(w, req);
        HandledReadKeepsInv(w.server, req, w.now, leaseId, ackId);
      case HandleUpdate(req, leaseId, ackId) =>
        RequestIsNotInUse(w, req);
        HandledUpdateKeepsInv(w.server, req, w.now, leaseId, ackId);
      case HandleAck(op) => AcknowledgedKeepsInv(w.server.book, op, w.now);
      case StartTimer(tag, timeout, repeat, id) =>
        UserTimerKeepsInv(w.server.book, tag, timeout, repeat, w.now, id);
      case _ =>
    }
  }

  /** A drain of the server object, whichever order its heap takes, is a run of the system. */
  lemma DrainIsRun(w: World, states: seq<Server>, turns: seq<Turn>) returns (worlds: seq<World>)
    requires IsDrain(states, turns, w.now) && states[0] == w.server
    ensures |worlds| == |states| && worlds[0] == w
    ensures forall i :: 0 <= i < |turns| ==>
              Enabled(worlds[i], Fire(turns[i])) && worlds[i + 1] == After(worlds[i], Fire(turns[i]))
    ensures forall i :: 0 <= i < |states| ==> worlds[i].server == states[i] && worlds[i].now == w.now
  {
    hide CanTurn, TurnThrows, Earliest, Turned;
    worlds := [w];
    for n := 0 to |turns|
      invariant |worlds| == n + 1 && worlds[0] == w
      invariant forall i :: 0 <= i < n ==>
                  Enabled(worlds[i], Fire(turns[i])) && worlds[i + 1] == After(worlds[i], Fire(turns[i]))
      invariant forall i :: 0 <= i <= n ==> worlds[i].server == states[i] && worlds[i].now == w.now
    {
      worlds := worlds + [After(worlds[n], Fire(turns[n]))];
    }
  }

  // ---------- Steps as a user sees them ----------

  /** What a step does to the entry of a key. */
  ghost function StepEntry(w: World, step: Step, key: nat): Entry
    requires Possible(w, step)
  {
    var b, e := w.server.book, View(w.server.book, key);
    match step
    case Fire(turn) =>
      if Fires(b, turn) && IsLeaseOf(b.timers[turn.id].callback, key) then Elapsed(e, w.now) else e
    case HandleRead(req, _, _) => if req.key == key then ReadEntry(e, w.now) else e
    case HandleUpdate(req, _, _) =>
      if req.key == key && UpdateVerdict(b, req, w.now).Done? then UpdatedEntry(e, req.data, req.op, w.now) else e
    case _ => e
  }

  lemma StepRefines(w: World, step: Step, key: nat)
    requires Enabled(w, step) && Inv(w.server.book, w.now)
    ensures View(After(w, step).server.book, key) == StepEntry(w, step, key)
  {
    hide Inv, View, HandledRead, HandledUpdate, Turned, TurnThrows, CanTurn, ReadIds, UpdateIds, Acknowledged, Overdue, CannotDefer;
    match step {
      case Fire(turn) => TurnRefines(w.server, turn, w.now, key);
      case HandleRead(req, leaseId, ackId) => ReadRefines(w.server, req, w.now, leaseId, ackId, key);
      case HandleUpdate(req, leaseId, ackId) => UpdateRefines(w.server, req, w.now, leaseId, ackId, key);
      case HandleAck(op) => AckRefines(w.server.book, op, key);
      case StartTimer(tag, timeout, repeat, id) => TimersAreNotSeen(w.server.book, Added(w.server.book.timers, id, User(tag), timeout, repeat, w.now), key);
      case _ =>
    }
  }

  lemma TimersAreNotSeen(b: Book, q: Timers, key: nat)
    ensures View(b.(timers := q), key) == View(b, key)
  {
  }

  function ValueOf(e: Entry): Option<string> {
    if e.Absent? then None else Some(e.value)
  }

  /** The promise of the entry covers the value up to the deadline. */
  predicate Holds(e: Entry, value: string, deadline: int) {
    (e.Leased? || e.Pending?) && e.value == value && deadline <= e.deadline
  }

  /** The answer tells of an update that took effect. */
  predicate IsCommit(a: Answer) {
    a.kind == UpdateResponse && a.result == Ok
  }

  /** Every Ok answer tells the value the entry then has, and its deadline is covered. */
  lemma AnswerIsTrue(w: World, step: Step)
    requires Enabled(w, step) && Inv(w.server.book, w.now) && StepAnswer(w, step).Some?
    ensures var a := StepAnswer(w, step).value;
      var e := StepEntry(w, step, a.key);
      a.at == w.now
      && (a.result == Ok ==>
            && w.now <= a.deadline <= w.now + LEASE_MS
            && ValueOf(e) == Some(a.value)
            && (w.now < a.deadline ==> Holds(e, a.value, a.deadline)))
  {
    hide WellFormed, ElementsOwn, AcksOwn, TimersOwned, ReadIds, UpdateIds, CallIds;
    match step {
      case Fire(turn) =>
        FiringIsOnRecord(w.server.book, w.server.book.timers[turn.id].callback.key, turn.id);
        hide KeyOwns;
      case HandleRead(req, _, _) => ReadAnswers(w.server, req, w.now);
      case HandleUpdate(req, _, _) => UpdateAnswers(w.server.book, req, w.now);
    }
  }

  /** A value changes exactly when an update takes effect, and is then that of the update. */
  lemma ValueChanges(w: World, step: Step, key: nat)
    requires Enabled(w, step) && Inv(w.server.book, w.now)
    ensures var a := StepAnswer(w, step);
      ValueOf(StepEntry(w, step, key)) ==
        if a.Some? && IsCommit(a.value) && a.value.key == key then Some(a.value.value)
        else ValueOf(View(w.server.book, key))
  {
    hide WellFormed, ElementsOwn, AcksOwn, TimersOwned, ReadIds, UpdateIds, CallIds;
    match step {
      case Fire(turn) =>
        var timer := w.server.book.timers[turn.id];
        if timer.repeat > 0 && (timer.callback.LeaseExpired? || timer.callback.CommitDeferred?) {
          FiringIsOnRecord(w.server.book, timer.callback.key, turn.id);
        }
        hide KeyOwns;
      case HandleUpdate(req, _, _) =>
        if UpdateVerdict(w.server.book, req, w.now).Done? {
          UpdateAnswers(w.server.book, req, w.now);
        }
      case _ =>
    }
  }

  // ---------- Lease safety ----------

  /** A promise that has not run out survives every step. */
  lemma HoldsSurvives(w: World, step: Step, key: nat, value: string, deadline: int)
    requires Enabled(w, step) && Inv(w.server.book, w.now)
    requires Holds(View(w.server.book, key), value, deadline) && w.now < deadline
    ensures Holds(StepEntry(w, step, key), value, deadline)
  {
    hide WellFormed, ElementsOwn, AcksOwn, TimersOwned, DeferralsMatch, ReadIds, UpdateIds, CanTurn, UpdateVerdict;
  }

  /** The server stands by every answer whose deadline lies ahead. */
  ghost predicate AnswersKept(w: World) {
    forall i :: 0 <= i < |w.answers| && w.answers[i].result == Ok && w.now < w.answers[i].deadline ==>
      Holds(View(w.server.book, w.answers[i].key), w.answers[i].value, w.answers[i].deadline)
  }

  lemma StepKeepsAnswers(w: World, step: Step)
    requires Enabled(w, step) && Inv(w.server.book, w.now) && AnswersKept(w)
    ensures AnswersKept(After(w, step))
  {
    hide Inv, Possible, Guarded, View, StepEntry, StepServer, StepAnswer, Holds;
    var w' := After(w, step);
    forall i | 0 <= i < |w'.answers| && w'.answers[i].result == Ok && w'.now < w'.answers[i].deadline
      ensures Holds(View(w'.server.book, w'.answers[i].key), w'.answers[i].value, w'.answers[i].deadline)
    {
      var a := w'.answers[i];
      StepRefines(w, step, a.key);
      if i < |w.answers| {
        TimeIsMonotonic(w, step);
        HoldsSurvives(w, step, a.key, a.value, a.deadline);
      } else {
        AnswerIsTrue(w, step);
        TimeIsMonotonic(w, step);
      }
    }
  }

  lemma TimeIsMonotonic(w: World, step: Step)
    requires Enabled(w, step)
    ensures w.now <= After(w, step).now
  {
  }

  /** A world in which every timer has its owner and the server stands by its answers. */
  ghost predicate Sane(w: World) {
    OpsInv(w) && Inv(w.server.book, w.now) && AnswersKept(w)
  }

  /** The step runs a callback that ends in an exception. */
  ghost predicate StepThrows(w: World, step: Step) {
    step.Fire? && CanTurn(w.server.book, step.turn, w.now) && TurnThrows(w.server.book, step.turn, w.now)
  }

  lemma StepKeepsSane(w: World, step: Step)
    requires Enabled(w, step) && Sane(w)
    ensures Sane(After(w, step)) && !StepThrows(w, step)
  {
    hide Inv, OpsInv, AnswersKept, After, TurnThrows;
    StepKeepsInv(w, step);
    StepKeepsOps(w, step);
    StepKeepsAnswers(w, step);
  }

  lemma {:induction false} PathKeepsSane(worlds: seq<World>, steps: seq<Step>, i: nat)
    requires IsPath(worlds, steps) && Sane(worlds[0]) && i < |worlds|
    ensures Sane(worlds[i]) && (i < |steps| ==> !StepThrows(worlds[i], steps[i]))
  {
    hide Sane, StepThrows, After, Possible, Guarded;
    if i > 0 {
      PathKeepsSane(worlds, steps, i - 1);
      StepKeepsSane(worlds[i - 1], steps[i - 1]);
    }
    if i < |steps| {
      StepKeepsSane(worlds[i], steps[i]);
    }
  }

  lemma StartIsSane(w: World)
    requires IsStart(w)
    ensures Sane(w)
  {
    EmptyInv(w.now);
  }

  /** No timer without an owner, no broken promise and no exception in a callback, in any run. */
  lemma RunKeepsInv(worlds: seq<World>, steps: seq<Step>, i: nat)
    requires IsRun(worlds, steps) && i < |worlds|
    ensures OpsInv(worlds[i]) && Inv(worlds[i].server.book, worlds[i].now) && AnswersKept(worlds[i])
    ensures i < |steps| && steps[i].Fire? ==> !TurnThrows(worlds[i].server.book, steps[i].turn, worlds[i].now)
  {
    StartIsSane(worlds[0]);
    PathKeepsSane(worlds, steps, i);
    hide OpsInv, Inv, AnswersKept, IsStart, After, TurnThrows;
  }

  /** Answers are never taken back, and the clock never goes back. */
  lemma {:induction false} AnswersGrow(worlds: seq<World>, steps: seq<Step>, i: nat, j: nat)
    requires IsRun(worlds, steps) && i <= j < |worlds|
    ensures worlds[i].answers <= worlds[j].answers && worlds[i].now <= worlds[j].now
    decreases j - i
  {
    if i < j {
      AnswersGrow(worlds, steps, i, j - 1);
      hide Possible, Guarded, StepAnswer, StepServer, IsStart;
      TimeIsMonotonic(worlds[j - 1], steps[j - 1]);
    }
  }

  /** Lease safety. In every run, once a read, an update or a deferred commit
      was answered Ok with a value and a deadline, the committed value of the
      key is that value at every later moment before the deadline. */
  lemma LeaseSafety(worlds: seq<World>, steps: seq<Step>, i: nat, j: nat, a: Answer)
    requires IsRun(worlds, steps) && i <= j < |worlds|
    requires a in worlds[i].answers && a.result == Ok && worlds[j].now < a.deadline
    ensures a.key in worlds[j].server.book.elems
    ensures worlds[j].server.book.elems[a.key].value == a.value
  {
    AnswersGrow(worlds, steps, i, j);
    RunKeepsInv(worlds, steps, j);
    var n :| 0 <= n < |worlds[i].answers| && worlds[i].answers[n] == a;
    assert worlds[j].answers[n] == a;
  }

  // ---------- Value history ----------

  /** The value of the last update of the key that took effect. */
  ghost function LastCommit(answers: seq<Answer>, key: nat): Option<string> {
    if |answers| == 0 then None
    else
      var last := answers[|answers| - 1];
      if IsCommit(last) && last.key == key then Some(last.value) else LastCommit(answers[..|answers| - 1], key)
  }

  lemma LastCommitAppended(answers: seq<Answer>, a: Answer, key: nat)
    ensures LastCommit(answers + [a], key) == if IsCommit(a) && a.key == key then Some(a.value) else LastCommit(answers, key)
  {
  }

  /** In every run the value of a key is that of the last update answered Ok:
      deferred updates count from their commit, and refused or turned away
      updates and reads never count. */
  lemma {:induction false} ValueIsLastCommit(worlds: seq<World>, steps: seq<Step>, i: nat, key: nat)
    requires IsRun(worlds, steps) && i < |worlds|
    ensures ValueOf(View(worlds[i].server.book, key)) == LastCommit(worlds[i].answers, key)
  {
    if i > 0 {
      ValueIsLastCommit(worlds, steps, i - 1, key);
      RunKeepsInv(worlds, steps, i - 1);
      hide Inv, OpsInv, View, Possible, Guarded, StepServer, StepAnswer, StepEntry, IsStart;
      var w, step := worlds[i - 1], steps[i - 1];
      StepRefines(w, step, key);
      ValueChanges(w, step, key);
      if StepAnswer(w, step).Some? {
        LastCommitAppended(w.answers, StepAnswer(w, step).value, key);
      }
    }
  }

  /** Each Ok answer tells the value of the last update answered Ok up to it. */
  ghost predicate AnswersCurrent(answers: seq<Answer>) {
    forall n :: 0 <= n < |answers| && answers[n].result == Ok ==>
      LastCommit(answers[..n + 1], answers[n].key) == Some(answers[n].value)
  }

  ghost predicate ValuesCommitted(w: World) {
    forall key {:trigger View(w.server.book, key)} :: ValueOf(View(w.server.book, key)) == LastCommit(w.answers, key)
  }

  lemma RunValuesCommitted(worlds: seq<World>, steps: seq<Step>, i: nat)
    requires IsRun(worlds, steps) && i < |worlds|
    ensures ValuesCommitted(worlds[i])
  {
    var w := worlds[i];
    forall key {:trigger View(w.server.book, key)}
      ensures ValueOf(View(w.server.book, key)) == LastCommit(w.answers, key)
    {
      ValueIsLastCommit(worlds, steps, i, key);
    }
  }

  lemma StepKeepsCurrent(w: World, step: Step)
    requires Enabled(w, step) && Inv(w.server.book, w.now) && AnswersCurrent(w.answers)
    requires ValuesCommitted(w)
    ensures AnswersCurrent(After(w, step).answers)
  {
    hide Inv, View, Possible, Guarded, StepServer, StepAnswer, StepEntry, IsCommit;
    if StepAnswer(w, step).Some? {
      var a := StepAnswer(w, step).value;
      AnswerIsTrue(w, step);
      ValueChanges(w, step, a.key);
      LastCommitAppended(w.answers, a, a.key);
      hide LastCommit;
      CurrentAppended(w.answers, a);
    }
  }

  lemma CurrentAppended(answers: seq<Answer>, a: Answer)
    requires AnswersCurrent(answers) && (a.result == Ok ==> LastCommit(answers + [a], a.key) == Some(a.value))
    ensures AnswersCurrent(answers + [a])
  {
    hide LastCommit;
    forall n | 0 <= n < |answers + [a]| && (answers + [a])[n].result == Ok
      ensures LastCommit((answers + [a])[..n + 1], (answers + [a])[n].key) == Some((answers + [a])[n].value)
    {
      if n < |answers| {
        assert (answers + [a])[..n + 1] == answers[..n + 1];
      } else {
        assert (answers + [a])[..n + 1] == answers + [a];
      }
    }
  }

  /** In every run the cache answers like one variable per key: each Ok answer,
      also to a read while an update waits, tells the value of the last update
      answered Ok before it, or its own. */
  lemma {:induction false} RunAnswersCurrent(worlds: seq<World>, steps: seq<Step>, i: nat)
    requires IsRun(worlds, steps) && i < |worlds|
    ensures AnswersCurrent(worlds[i].answers)
  {
    hide AnswersCurrent, ValuesCommitted, Inv, OpsInv, AnswersKept, Possible, Guarded, After;
    if i > 0 {
      RunAnswersCurrent(worlds, steps, i - 1);
      RunKeepsInv(worlds, steps, i - 1);
      RunValuesCommitted(worlds, steps, i - 1);
      StepKeepsCurrent(worlds[i - 1], steps[i - 1]);
    } else {
      NoAnswersCurrent();
      assert IsStart(worlds[0]);
    }
  }

  lemma NoAnswersCurrent()
    ensures AnswersCurrent([])
  {
  }

  // ---------- Deferred updates ----------

  /** A waiting update keeps its deadline, its value and its identifier
      through every step but its own commit, which answers it. */
  lemma PendingStays(w: World, step: Step, key: nat)
    requires Enabled(w, step) && Inv(w.server.book, w.now) && View(w.server.book, key).Pending?
    ensures var e := View(w.server.book, key);
      && e.deadline <= w.now + LEASE_MS
      && (|| StepEntry(w, step, key) == e
          || (e.deadline <= w.now
              && StepAnswer(w, step) == Some(Answer(e.op, UpdateResponse, Ok, key, e.next, w.now + LEASE_MS, w.now))
              && StepEntry(w, step, key) == Leased(e.next, w.now + LEASE_MS)))
  {
    hide WellFormed, ElementsOwn, AcksOwn, TimersOwned, ReadIds, UpdateIds, CallIds;
    if step.Fire? {
      var timer := w.server.book.timers[step.turn.id];
      if timer.repeat > 0 && (timer.callback.LeaseExpired? || timer.callback.CommitDeferred?) {
        FiringIsOnRecord(w.server.book, timer.callback.key, step.turn.id);
      }
      hide KeyOwns;
    }
  }

  /** The commit of a waiting update: an Ok answer with its own value and
      identifier, no earlier than its deadline. */
  ghost predicate CommitOf(a: Answer, key: nat, e: Entry)
    requires e.Pending?
  {
    a == Answer(e.op, UpdateResponse, Ok, key, e.next, a.at + LEASE_MS, a.at) && e.deadline <= a.at
  }

  /** One of the answers from number `from` on is the commit. */
  ghost predicate CommittedSince(answers: seq<Answer>, from: nat, key: nat, e: Entry)
    requires e.Pending?
  {
    exists n :: from <= n < |answers| && CommitOf(answers[n], key, e)
  }

  lemma StillCommitted(answers: seq<Answer>, later: seq<Answer>, from: nat, key: nat, e: Entry)
    requires e.Pending? && answers <= later && CommittedSince(answers, from, key, e)
    ensures CommittedSince(later, from, key, e)
  {
  }

  /** In every run a waiting update still waits, unchanged, or was committed with its own value. */
  lemma {:induction false} WaitsOrCommits(worlds: seq<World>, steps: seq<Step>, i: nat, j: nat, key: nat)
    requires IsRun(worlds, steps) && i <= j < |worlds| && View(worlds[i].server.book, key).Pending?
    ensures var e := View(worlds[i].server.book, key);
      View(worlds[j].server.book, key) == e || CommittedSince(worlds[j].answers, |worlds[i].answers|, key, e)
    decreases j - i
  {
    hide Inv, OpsInv, View, Possible, Guarded, After, IsStart, CommittedSince;
    if i < j {
      WaitsOrCommits(worlds, steps, i, j - 1, key);
      RunKeepsInv(worlds, steps, j - 1);
      AnswersGrow(worlds, steps, i, j - 1);
      StepWaitsOrCommits(worlds[j - 1], steps[j - 1], |worlds[i].answers|, key, View(worlds[i].server.book, key));
    }
  }

  lemma StepWaitsOrCommits(w: World, step: Step, from: nat, key: nat, e: Entry)
    requires Enabled(w, step) && Inv(w.server.book, w.now) && e.Pending? && from <= |w.answers|
    requires View(w.server.book, key) == e || CommittedSince(w.answers, from, key, e)
    ensures View(After(w, step).server.book, key) == e || CommittedSince(After(w, step).answers, from, key, e)
  {
    hide Inv, View, Possible, Guarded, StepServer, StepAnswer, StepEntry, CommittedSince;
    if CommittedSince(w.answers, from, key, e) {
      StillCommitted(w.answers, After(w, step).answers, from, key, e);
    } else {
      StepRefines(w, step, key);
      PendingStays(w, step, key);
      if StepEntry(w, step, key) != e {
        CommitAppended(w.answers, StepAnswer(w, step).value, from, key, e);
      }
    }
  }

  lemma CommitAppended(answers: seq<Answer>, a: Answer, from: nat, key: nat, e: Entry)
    requires e.Pending? && from <= |answers| && CommitOf(a, key, e)
    ensures CommittedSince(answers + [a], from, key, e)
  {
    assert CommitOf((answers + [a])[|answers|], key, e);
  }

  /** A waiting update has a deadline within the lease time, and at the first
      moment after it when nothing is due the update has been committed. */
  lemma BoundedWait(worlds: seq<World>, steps: seq<Step>, i: nat, j: nat, key: nat)
    requires IsRun(worlds, steps) && i <= j < |worlds| && View(worlds[i].server.book, key).Pending?
    ensures View(worlds[i].server.book, key).deadline <= worlds[i].now + 10000
    ensures NoneDue(worlds[j].server.book.timers, worlds[j].now)
            && View(worlds[i].server.book, key).deadline <= worlds[j].now ==>
              CommittedSince(worlds[j].answers, |worlds[i].answers|, key, View(worlds[i].server.book, key))
  {
    RunKeepsInv(worlds, steps, i);
    RunKeepsInv(worlds, steps, j);
    WaitsOrCommits(worlds, steps, i, j, key);
    PendingBounded(worlds[i], key);
    if NoneDue(worlds[j].server.book.timers, worlds[j].now) {
      NothingElapses(worlds[j].server.book, worlds[j].now, key);
    }
    hide Inv, OpsInv, View, IsRun, CommittedSince, NoneDue;
  }

  lemma PendingBounded(w: World, key: nat)
    requires Inv(w.server.book, w.now) && View(w.server.book, key).Pending?
    ensures View(w.server.book, key).deadline <= w.now + LEASE_MS
  {
  }
}
