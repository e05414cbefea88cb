/** The lease state machine of one cached value. */
module StateManager {
  import opened Common
  import opened Messages
  import opened EventTimers

  datatype Phase = Idle | Guaranteed | UpdateProtected

  /** The state of one manager: the address and the deadline of its timer, and
      the operation it will name when a deferred update commits. */
  datatype Manager = Manager(phase: Phase, timerId: nat, expire: int, opId: nat)

  const INITIAL: Manager := Manager(Idle, 0, 0, 0)

  /** What a handler hands back: a result with its deadline, or an exception. */
  datatype Outcome = Done(result: OpResult, stamp: int) | Thrown(error: ErrorCode)

  /** The state machine acts on its own fields and on the shared queue. */
  datatype Managed = Managed(manager: Manager, timers: Timers)

  // ---------- What each operation does ----------

  ghost function Stopped(s: Managed, now: int): Managed {
    if s.manager.timerId != 0 && s.manager.expire > now then
      Managed(s.manager.(timerId := 0), Deleted(s.timers, s.manager.timerId))
    else
      s
  }

  /** `id` is the address the allocator gives to the new timer. */
  ghost function Started(s: Managed, callback: Callback, timeout: nat, now: int, id: nat): Managed {
    var stopped := Stopped(s, now);
    Managed(stopped.manager.(expire := now + timeout, timerId := id),
            Added(stopped.timers, id, callback, timeout, 1, now))
  }

  ghost function ToIdle(s: Managed): Managed {
    s.(manager := s.manager.(timerId := 0, expire := 0, phase := Idle))
  }

  ghost function ToGuaranteed(s: Managed, key: nat, now: int, id: nat): Managed {
    var started := Started(s, LeaseExpired(key), LEASE_MS, now, id);
    started.(manager := started.manager.(phase := Guaranteed))
  }

  /** What is left of the deadline, as the 32-bit delay the timer gets. */
  function RemainingDelay(m: Manager, now: int): int {
    ToInt32(m.expire - now)
  }

  ghost function ToUpdateProtected(s: Managed, key: nat, now: int, id: nat): Managed
    requires RemainingDelay(s.manager, now) > 0
  {
    var started := Started(s, CommitDeferred(key), RemainingDelay(s.manager, now), now, id);
    started.(manager := started.manager.(phase := UpdateProtected))
  }

  ghost function ReadOutcome(m: Manager, now: int): Outcome {
    Done(Ok, if m.phase == UpdateProtected then now else now + LEASE_MS)
  }

  ghost function ManagerRead(s: Managed, key: nat, op: nat, now: int, id: nat): Managed {
    match s.manager.phase
    case Idle => ToGuaranteed(s, key, now, id)
    case Guaranteed => ToGuaranteed(s.(manager := s.manager.(opId := op)), key, now, id)
    case UpdateProtected => s
  }

  ghost function UpdateOutcome(m: Manager, op: nat, now: int): Outcome {
    match m.phase
    case Idle => Done(Ok, now + LEASE_MS)
    case Guaranteed =>
      if op == 0 then Thrown(IllArgument)
      else if RemainingDelay(m, now) <= 0 then Thrown(SysRoutine)
      else Done(Defer, now + RemainingDelay(m, now))
    case UpdateProtected =>
      if op == 0 then Thrown(IllArgument) else Done(Retry, m.expire)
  }

  ghost function ManagerUpdate(s: Managed, key: nat, op: nat, now: int, id: nat): Managed {
    match s.manager.phase
    case Idle => ToGuaranteed(s, key, now, id)
    case Guaranteed =>
      if op == 0 then s
      else
        var named := s.(manager := s.manager.(opId := op));
        if RemainingDelay(named.manager, now) <= 0 then named else ToUpdateProtected(named, key, now, id)
    case UpdateProtected => s
  }

  // ---------- The manager object ----------

  class CacheStateManager {
    /** Names the object in its callbacks. */
    const key: nat
    const queue: TimerQueue
    var timerId: nat
    var expireTime: int
    var opId: nat
    var phase: Phase

    ghost function Model(): Manager
      reads this
    {
      Manager(phase, timerId, expireTime, opId)
    }

    ghost function State(): Managed
      reads this, queue
    {
      Managed(Model(), queue.contents)
    }

    constructor (key: nat, queue: TimerQueue)
      ensures this.key == key && this.queue == queue && Model() == INITIAL
    {
      this.key := key;
      this.queue := queue;
      timerId, expireTime, opId, phase := 0, 0, 0, Idle;
    }

    method StopExpire(now: int)
      requires queue.Valid()
      modifies this, queue
      ensures queue.Valid() && queue.DueFrontKept(now)
      ensures State() == Stopped(old(State()), now)
    {
      hide TimerQueue.Valid;
      if timerId != 0 && expireTime > now {
        queue.DelTimer(timerId);
        timerId := 0;
      }
    }

    method StartExpire(callback: Callback, timeout: nat, now: int) returns (ghost id: nat)
      requires queue.Valid()
      modifies this, queue
      ensures queue.Valid() && queue.DueFrontKept(now) && FreshId(old(queue.contents), id)
      ensures State() == Started(old(State()), callback, timeout, now, id)
    {
      hide TimerQueue.Valid;
      StopExpire(now);
      expireTime := now + timeout;
      var error, address := queue.AddTimer(callback, timeout, 1, now);
      timerId := address;
      id := address;
    }

    method EnterIdle()
      modifies this
      ensures State() == ToIdle(old(State()))
    {
      timerId := 0;
      expireTime := 0;
      phase := Idle;
    }

    method EnterGuaranteed(now: int) returns (ghost id: nat)
      requires queue.Valid()
      modifies this, queue
      ensures queue.Valid() && queue.DueFrontKept(now) && FreshId(old(queue.contents), id)
      ensures State() == ToGuaranteed(old(State()), key, now, id)
    {
      hide TimerQueue.Valid;
      id := StartExpire(LeaseExpired(key), LEASE_MS, now);
      phase := Guaranteed;
    }

    /** Throws, and keeps the phase, when the deadline has passed. */
    method EnterUpdateProtected(now: int) returns (error: Option<ErrorCode>, ghost id: nat)
      requires queue.Valid()
      modifies this, queue
      ensures queue.Valid() && queue.DueFrontKept(now) && FreshId(old(queue.contents), id)
      ensures old(RemainingDelay(Model(), now)) <= 0 ==> error == Some(SysRoutine) && State() == old(State())
      ensures old(RemainingDelay(Model(), now)) > 0 ==>
                error == None && State() == ToUpdateProtected(old(State()), key, now, id)
    {
      hide TimerQueue.Valid;
      var delay := ToInt32(expireTime - now);
      if delay <= 0 {
        error, id := Some(SysRoutine), AnyFreshId(queue);
        return;
      }
      id := StartExpire(CommitDeferred(key), delay, now);
      phase := UpdateProtected;
      error := None;
    }

    method ReadOp(op: nat, now: int) returns (r: Outcome, ghost id: nat)
      requires queue.Valid()
      modifies this, queue
      ensures queue.Valid() && queue.DueFrontKept(now) && FreshId(old(queue.contents), id)
      ensures r == ReadOutcome(old(Model()), now)
      ensures State() == ManagerRead(old(State()), key, op, now, id)
    {
      hide TimerQueue.Valid;
      match phase {
        case Idle =>
          id := EnterGuaranteed(now);
          r := Done(Ok, expireTime);
        case Guaranteed =>
          opId := op;
          id := EnterGuaranteed(now);
          r := Done(Ok, expireTime);
        case UpdateProtected =>
          r, id := Done(Ok, now), AnyFreshId(queue);
      }
    }

    method UpdateOp(op: nat, now: int) returns (r: Outcome, ghost id: nat)
      requires queue.Valid()
      modifies this, queue
      ensures queue.Valid() && queue.DueFrontKept(now) && FreshId(old(queue.contents), id)
      ensures r == UpdateOutcome(old(Model()), op, now)
      ensures State() == ManagerUpdate(old(State()), key, op, now, id)
    {
      hide TimerQueue.Valid;
      match phase {
        case Idle =>
          id := EnterGuaranteed(now);
          r := Done(Ok, expireTime);
        case Guaranteed =>
          if op == 0 {
            r, id := Thrown(IllArgument), AnyFreshId(queue);
            return;
          }
          opId := op;
          var error;
          error, id := EnterUpdateProtected(now);
          r := if error.Some? then Thrown(error.value) else Done(Defer, expireTime);
        case UpdateProtected =>
          r := if op == 0 then Thrown(IllArgument) else Done(Retry, expireTime);
          id := AnyFreshId(queue);
      }
    }
  }

  ghost function AnyFreshId(queue: TimerQueue): (id: nat)
    reads queue
    ensures FreshId(queue.contents, id)
  {
    FreshIdExists(queue.contents);
    var id: nat :| FreshId(queue.contents, id);
    id
  }
}
