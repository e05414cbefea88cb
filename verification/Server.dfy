/** The server object: request handlers, the two maps and the drain loop. */
module Server {
  import opened Common
  import opened Messages
  import opened EventTimers
  import opened StateManager
  import opened DataCenter
  import opened ServerModel
  import opened ServerInvariant
  import opened Drain

  class CacheServer {
    const center: CacheDataCenter
    var waitAck: map<nat, nat>
    var deferred: map<nat, Update>
    var readStamp: int
    var readData: string
    /** The network, as far as this server wrote to it. */
    var sent: seq<Response>
    var log: seq<nat>

    ghost function Repr(): set<object>
      reads this, center, center.elements.Values
    {
      {this, center, center.queue} + center.elements.Values + center.Managers()
    }

    ghost predicate Valid()
      reads Repr()
    {
      center.Valid() && center.queue.Valid()
    }

    ghost function Model(): ServerModel.Server
      reads Repr()
    {
      ServerModel.Server(Book(center.Elems(), center.queue.contents, waitAck, deferred), readStamp, readData, sent, log)
    }

    constructor ()
      ensures Valid() && fresh(Repr()) && Model() == EMPTY
    {
      var q := new TimerQueue();
      center := new CacheDataCenter(q);
      waitAck, deferred, readStamp, readData, sent, log := map[], map[], 0, "", [], [];
      new;
      assert center.Elems() == map[];
      hide TimerQueue.Valid, CacheDataCenter.Elems;
    }

    /** Winds up the resend timer, then sends. */
    method Respond(r: Response, now: int) returns (ghost id: nat)
      requires Valid()
      modifies this, center.queue
      ensures Valid() && center.queue.DueFrontKept(now) && FreshId(old(center.queue.contents), id)
      ensures Model() == Responded(old(Model()), r, now, id)
    {
      hide TimerQueue.Valid, CacheDataCenter.Elems;
      var error, address := center.queue.AddTimer(Resend(r), ACK_MS, 1, now);
      if r.op !in waitAck {
        waitAck := waitAck[r.op := address];
      }
      sent := sent + [r];
      id := address;
      center.ElemsFramed();
    }

    method OnReadRequest(req: Request, now: int) returns (ghost leaseId: nat, ghost ackId: nat)
      requires Valid()
      modifies Repr()
      ensures Valid() && Repr() == old(Repr()) && ReadIds(old(Model().book), req, now, leaseId, ackId)
      ensures Model() == HandledRead(old(Model()), req, now, leaseId, ackId)
    {
      hide TimerQueue.Valid, CacheDataCenter.Elems, CenterRead, ReadResult, Registered, FreshId, ToUint32;
      var result, stamp, value;
      result, stamp, value, leaseId := center.ReadOp(req.key, ToUint32(req.op), now, readStamp, readData);
      readStamp, readData := stamp, value;
      ackId := Respond(Response(req.op, ReadResponse, result, ToUint32(stamp), req.key, value), now);
    }

    /** Reports the exception of an update that the state machine refuses. */
    method OnUpdateRequest(req: Update, now: int) returns (error: Option<ErrorCode>, ghost leaseId: nat, ghost ackId: nat)
      requires Valid()
      modifies Repr()
      ensures Valid() && fresh(Repr() - old(Repr())) && UpdateIds(old(Model().book), req, now, leaseId, ackId)
      ensures error == var r := old(UpdateVerdict(Model().book, req, now)); if r.Thrown? then Some(r.error) else None
      ensures Model() == HandledUpdate(old(Model()), req, now, leaseId, ackId)
    {
      hide TimerQueue.Valid, CacheDataCenter.Elems, CenterUpdate, DataCenter.UpdateResult;
      var op := ToUint32(req.op);
      var r: Outcome;
      r, leaseId := center.UpdateOp(req.key, req.data, op, now);
      ackId := AnyFreshId(center.queue);
      if r.Thrown? {
        return Some(r.error), leaseId, ackId;
      }
      error := None;
      if r.result == Defer {
        if op !in deferred {
          deferred := deferred[op := req];
        }
      } else {
        ackId := Respond(Response(req.op, UpdateResponse, r.result, ToUint32(r.stamp), req.key, req.data), now);
      }
    }

    /** A timer of the application's own. */
    method StartTimer(tag: nat, timeout: nat, repeat: nat, now: int) returns (error: Option<ErrorCode>, id: nat)
      requires Valid()
      modifies this, center.queue
      ensures Valid()
      ensures repeat == 0 ==> error == Some(IllArgument) && Model() == old(Model())
      ensures repeat != 0 ==>
                var s := old(Model());
                error == None && FreshId(s.book.timers, id)
                && Model() == s.(book := s.book.(timers := Added(s.book.timers, id, User(tag), timeout, repeat, now)))
    {
      hide TimerQueue.Valid, CacheDataCenter.Elems;
      error, id := center.queue.AddTimer(User(tag), timeout, repeat, now);
      center.ElemsFramed();
    }

    method OnAck(op: nat)
      requires Valid()
      modifies this, center.queue
      ensures Valid() && Model() == HandledAck(old(Model()), op)
    {
      hide TimerQueue.Valid, CacheDataCenter.Elems;
      if op in waitAck {
        center.queue.DelTimer(waitAck[op]);
        waitAck := waitAck - {op};
      }
      center.ElemsFramed();
    }

    method Commit(key: nat, now: int) returns (thrown: bool, ghost leaseId: nat, ghost ackId: nat)
      requires Valid() && key in center.elements
      modifies Repr()
      ensures Valid() && Repr() == old(Repr()) && center.queue.DueFrontKept(now)
      ensures CallIds(old(Model().book), CommitDeferred(key), now, leaseId, ackId)
      ensures thrown <==> CallThrows(old(Model().book), CommitDeferred(key))
      ensures Model() == Committed(old(Model()), key, now, leaseId, ackId)
    {
      hide TimerQueue.Valid, CacheDataCenter.Elems, CommittedAt;
      var op, expire;
      op, expire, leaseId := center.OnCommit(key, now);
      ackId := AnyFreshId(center.queue);
      if op !in deferred {
        assert deferred - {op} == deferred;
        return true, leaseId, ackId;
      }
      thrown := false;
      var req := deferred[op];
      deferred := deferred - {op};
      ackId := Respond(Response(req.op, UpdateResponse, Ok, ToUint32(expire), req.key, req.data), now);
    }

    /** Runs the callback of a timer. An exception leaves what was done up to it. */
    method Call(c: Callback, now: int) returns (thrown: bool, ghost leaseId: nat, ghost ackId: nat)
      requires Valid() && HasTarget(Model().book, c)
      modifies Repr()
      ensures Valid() && Repr() == old(Repr()) && center.queue.DueFrontKept(now)
      ensures CallIds(old(Model().book), c, now, leaseId, ackId)
      ensures thrown <==> CallThrows(old(Model().book), c)
      ensures Model() == Called(old(Model()), c, now, leaseId, ackId)
    {
      hide TimerQueue.Valid, Committed;
      leaseId, ackId := AnyFreshId(center.queue), 0;
      thrown := false;
      match c {
        case LeaseExpired(key) =>
          center.OnLeaseExpired(key);
        case CommitDeferred(key) =>
          thrown, leaseId, ackId := Commit(key, now);
        case Resend(r) =>
          sent := sent + [r];
          thrown := r.op !in waitAck;
          waitAck := waitAck - {r.op};
          center.ElemsFramed();
        case User(tag) =>
          log := log + [tag];
          center.ElemsFramed();
      }
    }

    /** One turn of the drain loop. */
    method TakeTurn(now: int) returns (thrown: bool, ghost turn: Turn)
      requires Valid() && WellFormed(Model().book)
      requires |center.queue.timers| > 0 && center.queue.timers[0].expire <= now
      modifies Repr()
      ensures Valid() && Repr() == old(Repr())
      ensures CanTurn(old(Model().book), turn, now) && Earliest(old(center.queue.contents), turn.id)
      ensures thrown <==> TurnThrows(old(Model().book), turn, now)
      ensures Model() == Turned(old(Model()), turn, now)
    {
      hide TimerQueue.Valid, CacheDataCenter.Elems, Called, CallThrows, CallIds;
      center.queue.FrontIsEarliest();
      var front := center.queue.timers[0];
      var fired := front.repeat > 0;
      ghost var leaseId, ackId := AnyFreshId(center.queue), 0;
      thrown := false;
      if fired {
        thrown, leaseId, ackId := Call(front.callback, now);
      }
      turn := Turn(front.id, leaseId, ackId);
      if !thrown {
        label Called:
        center.queue.SettleFront(fired, now);
        center.ElemsFramed@Called();
      }
    }

    /** Drains the queue. The states and turns show how; when a callback
        throws, the drain stops there, which a server whose books are in
        order never does. */
    method Tick(now: int)
      returns (thrown: bool, ghost states: seq<ServerModel.Server>, ghost turns: seq<Turn>, ghost failed: Turn)
      requires Valid() && WellFormed(Model().book)
      modifies Repr()
      ensures Valid() && Repr() == old(Repr())
      ensures IsDrain(states, turns, now) && states[0] == old(Model())
      ensures !thrown ==> Model() == states[|turns|] && NoneDue(Model().book.timers, now)
      ensures thrown ==>
                var s := states[|turns|];
                CanTurn(s.book, failed, now) && Earliest(s.book.timers, failed.id)
                && TurnThrows(s.book, failed, now) && Model() == Turned(s, failed, now)
      ensures Inv(old(Model().book), now) ==> !thrown
    {
      hide TimerQueue.Valid, CacheDataCenter.Elems, Inv, Turned, TurnThrows, CanTurn, Earliest, DueTokens, WellFormed;
      thrown, states, turns, failed := false, [Model()], [], Turn(0, 0, 0);
      while |center.queue.timers| > 0 && center.queue.timers[0].expire <= now
        invariant Valid() && WellFormed(Model().book) && Repr() == old(Repr())
        invariant IsDrain(states, turns, now) && states[0] == old(Model()) && Model() == states[|turns|]
        decreases DueTokens(Model().book.timers, now)
      {
        ghost var before := Model();
        ghost var turn;
        thrown, turn := TakeTurn(now);
        if Inv(states[0].book, now) {
          DrainKeepsInv(states, turns, now, |turns|);
          TurnKeepsInv(before, turn, now);
        }
        if thrown {
          failed := turn;
          return;
        }
        TurnSpendsToken(before, turn, now);
        DrainExtended(states, turns, now, turn);
        states, turns := states + [Model()], turns + [turn];
      }
      QueueIsDrained(center.queue, now);
    }
  }

  lemma DrainExtended(states: seq<ServerModel.Server>, turns: seq<Turn>, now: int, turn: Turn)
    requires IsDrain(states, turns, now)
    requires CanTurn(states[|turns|].book, turn, now) && Earliest(states[|turns|].book.timers, turn.id)
    requires !TurnThrows(states[|turns|].book, turn, now)
    ensures IsDrain(states + [Turned(states[|turns|], turn, now)], turns + [turn], now)
  {
  }

  lemma QueueIsDrained(queue: TimerQueue, now: int)
    requires queue.Valid()
    requires |queue.timers| > 0 ==> now < queue.timers[0].expire
    ensures NoneDue(queue.contents, now)
  {
    if |queue.timers| > 0 {
      queue.FrontIsEarliest();
    } else if queue.contents != map[] {
      var id :| id in queue.contents;
      var i := ListedAt(queue.timers, queue.contents, id);
      assert false;
    }
  }
}
