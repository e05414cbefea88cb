/** The cached values and the map that holds them. */
module DataCenter {
  import opened Common
  import opened Messages
  import opened EventTimers
  import opened StateManager

  /** `temp` is the value of a deferred update, until it commits. */
  datatype Element = Element(manager: Manager, value: string, temp: string)

  const NEW_ELEMENT: Element := Element(INITIAL, "", "")

  /** All elements and the queue that their managers share. */
  datatype Center = Center(elems: map<nat, Element>, timers: Timers)

  // ---------- What each operation does ----------

  ghost function Managing(c: Center, key: nat): Managed
    requires key in c.elems
  {
    Managed(c.elems[key].manager, c.timers)
  }

  ghost function WithManaged(c: Center, key: nat, m: Managed): Center
    requires key in c.elems
  {
    Center(c.elems[key := c.elems[key].(manager := m.manager)], m.timers)
  }

  /** An unknown key is answered with NoData, and `stale` is what the caller's variables held. */
  ghost function ReadResult(c: Center, key: nat, now: int, stale: int): Outcome {
    if key in c.elems then ReadOutcome(c.elems[key].manager, now) else Done(ErrorNoData, stale)
  }

  ghost function CenterRead(c: Center, key: nat, op: nat, now: int, id: nat): Center {
    if key in c.elems then WithManaged(c, key, ManagerRead(Managing(c, key), key, op, now, id)) else c
  }

  /** An update of an unknown key starts from a new element. */
  ghost function Known(c: Center, key: nat): Center {
    if key in c.elems then c else c.(elems := c.elems[key := NEW_ELEMENT])
  }

  ghost function UpdateResult(c: Center, key: nat, op: nat, now: int): Outcome {
    UpdateOutcome(Known(c, key).elems[key].manager, op, now)
  }

  /** An accepted value is stored at once, a deferred one is set aside, any other is dropped. */
  ghost function Stored(e: Element, r: Outcome, data: string): Element {
    if r.Done? && r.result == Ok then e.(value := data)
    else if r.Done? && r.result == Defer then e.(temp := data)
    else e
  }

  ghost function CenterUpdate(c: Center, key: nat, op: nat, data: string, now: int, id: nat): Center {
    KnownUpdate(Known(c, key), key, op, data, now, id)
  }

  ghost function KnownUpdate(c: Center, key: nat, op: nat, data: string, now: int, id: nat): Center
    requires key in c.elems
  {
    var updated := ManagerUpdate(Managing(c, key), key, op, now, id);
    var e := c.elems[key].(manager := updated.manager);
    Center(c.elems[key := Stored(e, UpdateOutcome(c.elems[key].manager, op, now), data)], updated.timers)
  }

  ghost function LeaseExpiredAt(c: Center, key: nat): Center
    requires key in c.elems
  {
    WithManaged(c, key, ToIdle(Managing(c, key)))
  }

  /** The deferred value replaces the committed one; moving it leaves nothing behind. */
  ghost function CommittedAt(c: Center, key: nat, now: int, id: nat): Center
    requires key in c.elems
  {
    var leased := ToGuaranteed(Managing(c, key), key, now, id);
    Center(c.elems[key := Element(leased.manager, c.elems[key].temp, "")], leased.timers)
  }

  // ---------- The objects ----------

  class CacheElement {
    const state: CacheStateManager
    var value: string
    var temp: string

    ghost function Model(): Element
      reads this, state
    {
      Element(state.Model(), value, temp)
    }

    constructor (key: nat, queue: TimerQueue)
      ensures fresh(state) && state.key == key && state.queue == queue && Model() == NEW_ELEMENT
    {
      state := new CacheStateManager(key, queue);
      value, temp := "", "";
    }

    method UpdateOp(data: string, op: nat, now: int) returns (r: Outcome, ghost id: nat)
      requires state.queue.Valid()
      modifies this, state, state.queue
      ensures state.queue.Valid() && state.queue.DueFrontKept(now) && FreshId(old(state.queue.contents), id)
      ensures r == UpdateOutcome(old(state.Model()), op, now)
      ensures state.State() == ManagerUpdate(old(state.State()), state.key, op, now, id)
      ensures Model() == Stored(old(Model()).(manager := state.Model()), r, data)
    {
      hide TimerQueue.Valid;
      r, id := state.UpdateOp(op, now);
      if r.Done? && r.result == Ok {
        value := data;
      } else if r.Done? && r.result == Defer {
        temp := data;
      }
    }

    /** The new lease comes first, then the value. */
    method Commit(now: int) returns (op: nat, expire: int, ghost id: nat)
      requires state.queue.Valid()
      modifies this, state, state.queue
      ensures state.queue.Valid() && state.queue.DueFrontKept(now) && FreshId(old(state.queue.contents), id)
      ensures op == old(state.opId) && expire == now + LEASE_MS
      ensures state.State() == ToGuaranteed(old(state.State()), state.key, now, id)
      ensures Model() == Element(state.Model(), old(temp), "")
    {
      hide TimerQueue.Valid;
      id := state.EnterGuaranteed(now);
      op, expire := state.opId, state.expireTime;
      value := temp;
      temp := "";
    }
  }

  class CacheDataCenter {
    const queue: TimerQueue
    var elements: map<nat, CacheElement>

    /** Every key has an element and a manager of its own. */
    ghost predicate Valid()
      reads this, elements.Values
    {
      && (forall k :: k in elements ==> elements[k].state.key == k && elements[k].state.queue == queue)
      && (forall k, l :: k in elements && l in elements && k != l ==> elements[k] != elements[l])
    }

    ghost function Managers(): set<CacheStateManager>
      reads this, elements.Values
    {
      set k | k in elements :: elements[k].state
    }

    ghost function Elems(): map<nat, Element>
      reads this, elements.Values, Managers()
    {
      map k | k in elements :: elements[k].Model()
    }

    /** The elements depend on no other object. */
    twostate lemma ElemsFramed()
      requires unchanged(this) && unchanged(elements.Values) && unchanged(Managers())
      ensures Elems() == old(Elems())
    {
    }

    ghost function Model(): Center
      reads this, elements.Values, Managers(), queue
    {
      Center(Elems(), queue.contents)
    }

    constructor (queue: TimerQueue)
      ensures Valid() && elements == map[] && this.queue == queue
    {
      this.queue := queue;
      elements := map[];
    }

    /** `stamp` and `data` come back as they were when the key is unknown. */
    method ReadOp(key: nat, op: nat, now: int, stamp: int, data: string)
      returns (result: OpResult, expire: int, value: string, ghost id: nat)
      requires Valid() && queue.Valid()
      modifies queue, Managers()
      ensures Valid() && queue.Valid() && queue.DueFrontKept(now) && FreshId(old(queue.contents), id)
      ensures Done(result, expire) == ReadResult(old(Model()), key, now, stamp)
      ensures value == if key in old(Model()).elems then old(Model()).elems[key].value else data
      ensures Model() == CenterRead(old(Model()), key, op, now, id)
    {
      hide TimerQueue.Valid;
      if key !in elements {
        return ErrorNoData, stamp, data, AnyFreshId(queue);
      }
      var element := elements[key];
      value := element.value;
      var r: Outcome;
      r, id := element.state.ReadOp(op, now);
      result, expire := r.result, r.stamp;
      assert Model().elems == CenterRead(old(Model()), key, op, now, id).elems;
    }

    method FindOrCreate(key: nat) returns (element: CacheElement)
      requires Valid()
      modifies this
      ensures Valid() && key in elements && elements[key] == element
      ensures fresh(elements.Values - old(elements.Values)) && fresh(Managers() - old(Managers()))
      ensures Model() == Known(old(Model()), key)
    {
      if key !in elements {
        element := new CacheElement(key, queue);
        elements := elements[key := element];
      }
      element := elements[key];
      assert Model().elems == Known(old(Model()), key).elems;
    }

    method UpdateOp(key: nat, data: string, op: nat, now: int) returns (r: Outcome, ghost id: nat)
      requires Valid() && queue.Valid()
      modifies this, queue, elements.Values, Managers()
      ensures Valid() && queue.Valid() && queue.DueFrontKept(now) && FreshId(old(queue.contents), id)
      ensures fresh(elements.Values - old(elements.Values)) && fresh(Managers() - old(Managers()))
      ensures r == UpdateResult(old(Model()), key, op, now)
      ensures Model() == CenterUpdate(old(Model()), key, op, data, now, id)
    {
      hide TimerQueue.Valid, KnownUpdate, UpdateOutcome;
      var element := FindOrCreate(key);
      r, id := UpdateElement(key, data, op, now);
    }

    method UpdateElement(key: nat, data: string, op: nat, now: int) returns (r: Outcome, ghost id: nat)
      requires Valid() && queue.Valid() && key in elements
      modifies queue, elements[key], elements[key].state
      ensures Valid() && queue.Valid() && queue.DueFrontKept(now) && FreshId(old(queue.contents), id)
      ensures r == UpdateOutcome(old(Model()).elems[key].manager, op, now)
      ensures Model() == KnownUpdate(old(Model()), key, op, data, now, id)
    {
      hide TimerQueue.Valid, ManagerUpdate, UpdateOutcome, Stored;
      r, id := elements[key].UpdateOp(data, op, now);
      assert Model().elems == old(Model()).elems[key := elements[key].Model()];
    }

    /** The callback of a lease that ran out. */
    method OnLeaseExpired(key: nat)
      requires Valid() && key in elements
      modifies elements[key].state
      ensures Valid() && Model() == LeaseExpiredAt(old(Model()), key)
    {
      elements[key].state.EnterIdle();
      assert Model().elems == LeaseExpiredAt(old(Model()), key).elems;
    }

    /** The callback of a deferred update. */
    method OnCommit(key: nat, now: int) returns (op: nat, expire: int, ghost id: nat)
      requires Valid() && queue.Valid() && key in elements
      modifies queue, elements[key], elements[key].state
      ensures Valid() && queue.Valid() && queue.DueFrontKept(now) && FreshId(old(queue.contents), id)
      ensures key in old(Elems()) && op == old(Elems()[key].manager.opId) && expire == now + LEASE_MS
      ensures Model() == CommittedAt(old(Model()), key, now, id)
    {
      hide TimerQueue.Valid, ToGuaranteed;
      op, expire, id := elements[key].Commit(now);
      assert Model().elems == old(Model()).elems[key := elements[key].Model()];
    }
  }
}
