/** Who owns which timer, and why no step of the server breaks it. */
module ServerInvariant {
  import opened Common
  import opened Messages
  import opened EventTimers
  import opened StateManager
  import opened DataCenter
  import opened ServerModel

  // ---------- The invariant ----------

  /** What holds of every server, whatever the requests: timers stand under
      their own address, and only the application has timers without delay. */
  ghost predicate WellFormed(b: Book) {
    forall id :: id in b.timers ==>
      && id != 0
      && b.timers[id].id == id
      && HasTarget(b, b.timers[id].callback)
      && (b.timers[id].callback.User? || b.timers[id].timeout > 0)
  }

  /** The timer ends the lease of a key, once. */
  ghost predicate IsLeaseTimer(q: Timers, id: nat, c: Callback, expire: int) {
    && id in q
    && q[id].callback == c
    && q[id].expire == expire
    && q[id].repeat == 1
    && 0 < q[id].timeout <= LEASE_MS
  }

  /** An idle key has no timer, any other key has one that carries its deadline. */
  ghost predicate ElementOwns(q: Timers, key: nat, m: Manager) {
    match m.phase
    case Idle => m.timerId == 0 && m.expire == 0
    case Guaranteed => IsLeaseTimer(q, m.timerId, LeaseExpired(key), m.expire)
    case UpdateProtected => IsLeaseTimer(q, m.timerId, CommitDeferred(key), m.expire)
  }

  ghost predicate ElementsOwn(b: Book) {
    forall k :: k in b.elems ==> ElementOwns(b.timers, k, b.elems[k].manager)
  }

  /** A response that waits for its acknowledgement has the timer that repeats it. */
  ghost predicate AckOwns(q: Timers, op: nat, id: nat) {
    && id in q
    && q[id].callback.Resend?
    && q[id].callback.response.op == op
    && q[id].repeat == 1
    && q[id].timeout == ACK_MS
  }

  ghost predicate AcksOwn(b: Book) {
    forall op :: op in b.waitAck ==> AckOwns(b.timers, op, b.waitAck[op])
  }

  ghost predicate InPhase(b: Book, key: nat, phase: Phase) {
    key in b.elems && b.elems[key].manager.phase == phase
  }

  /** What the owner of a timer records about it. */
  ghost predicate Owned(b: Book, id: nat, c: Callback) {
    match c
    case LeaseExpired(k) => InPhase(b, k, Guaranteed) && b.elems[k].manager.timerId == id
    case CommitDeferred(k) => InPhase(b, k, UpdateProtected) && b.elems[k].manager.timerId == id
    case Resend(r) => r.op in b.waitAck && b.waitAck[r.op] == id
    case User(_) => true
  }

  /** No timer that can still fire is without an owner. */
  ghost predicate TimersOwned(b: Book) {
    forall id :: id in b.timers && b.timers[id].repeat > 0 ==> Owned(b, id, b.timers[id].callback)
  }

  /** The request is that of the deferred update the key waits to commit. */
  ghost predicate DeferredAt(b: Book, op: nat, req: Update) {
    && op == ToUint32(req.op)
    && req.op !in b.waitAck
    && InPhase(b, req.key, UpdateProtected)
    && b.elems[req.key].manager.opId == op
    && b.elems[req.key].temp == req.data
  }

  /** Every timer has one owner, and every owner its timer. */
  ghost predicate Owners(b: Book) {
    WellFormed(b) && ElementsOwn(b) && AcksOwn(b) && TimersOwned(b)
  }

  ghost predicate EntriesHeld(b: Book) {
    forall op :: op in b.deferred ==> DeferredAt(b, op, b.deferred[op])
  }

  ghost predicate KeysEntered(b: Book) {
    forall k :: InPhase(b, k, UpdateProtected) ==>
      b.elems[k].manager.opId in b.deferred && b.deferred[b.elems[k].manager.opId].key == k
  }

  /** Entries of the deferral map and keys that wait for a commit correspond one to one. */
  ghost predicate DeferralsMatch(b: Book) {
    EntriesHeld(b) && KeysEntered(b)
  }

  /** No lease runs for longer than the lease time. */
  ghost predicate DeadlinesBounded(b: Book, now: int) {
    forall k :: k in b.elems ==> b.elems[k].manager.phase == Idle || b.elems[k].manager.expire <= now + LEASE_MS
  }

  ghost predicate Inv(b: Book, now: int) {
    Owners(b) && DeferralsMatch(b) && DeadlinesBounded(b, now)
  }

  // ---------- What the requests assume ----------

  /** No response to the operation waits for an acknowledgement, and no update under it is deferred. */
  ghost predicate NotInUse(b: Book, op: nat) {
    op !in b.waitAck && forall o :: o in b.deferred ==> b.deferred[o].op != op
  }

  /** The lease of the key ran out and its timer has not been drained. */
  ghost predicate Overdue(b: Book, key: nat, now: int) {
    InPhase(b, key, Guaranteed) && b.elems[key].manager.expire <= now
  }

  /** The update would be deferred, but the low half of its identifier names
      another deferred update; or the lease it would wait for ran out so long
      ago that the 32-bit delay wraps around to a positive one. */
  ghost predicate CannotDefer(b: Book, req: Update, now: int) {
    && InPhase(b, req.key, Guaranteed)
    && ToUint32(req.op) != 0
    && if Overdue(b, req.key, now) then Wraps(now - b.elems[req.key].manager.expire)
       else ToUint32(req.op) in b.deferred
  }

  /** When the delay of a deferral is positive: while the lease runs, and when its lateness wraps. */
  lemma DelayIsPositive(b: Book, key: nat, now: int)
    requires Inv(b, now) && InPhase(b, key, Guaranteed)
    ensures var m := b.elems[key].manager;
      var delay := RemainingDelay(m, now);
      && (delay > 0 <==> !Overdue(b, key, now) || Wraps(now - m.expire))
      && (!Overdue(b, key, now) ==> 1 <= delay == m.expire - now <= LEASE_MS)
      && (Overdue(b, key, now) && Wraps(now - m.expire) ==> delay == TWO_32 - (now - m.expire) % TWO_32)
  {
    var m := b.elems[key].manager;
    if Overdue(b, key, now) {
      NegatedSpan(now - m.expire);
      assert -(now - m.expire) == m.expire - now;
    }
    hide Owners, DeferralsMatch;
  }

  /** A drained queue leaves no key overdue. */
  lemma DrainedLeavesNoneOverdue(b: Book, now: int, key: nat)
    requires Inv(b, now) && NoneDue(b.timers, now)
    ensures !Overdue(b, key, now)
    ensures key in b.elems && b.elems[key].manager.phase != Idle ==> now < b.elems[key].manager.expire <= now + LEASE_MS
  {
  }

  // ---------- Preservation ----------

  lemma EmptyInv(now: int)
    ensures Inv(EMPTY_BOOK, now)
  {
  }

  lemma TimePasses(b: Book, now: int, later: int)
    requires Inv(b, now) && now <= later
    ensures Inv(b, later)
  {
  }

  lemma RegisteredKeepsInv(b: Book, r: Response, now: int, id: nat)
    requires Inv(b, now) && FreshId(b.timers, id)
    requires r.op !in b.waitAck && forall o :: o in b.deferred ==> b.deferred[o].op != r.op
    ensures Inv(Registered(b, r, now, id), now)
  {
    RegisteredKeepsOwners(b, r, now, id);
    hide WellFormed, ElementsOwn, AcksOwn, TimersOwned;
  }

  lemma RegisteredKeepsOwners(b: Book, r: Response, now: int, id: nat)
    requires Owners(b)
    requires FreshId(b.timers, id) && r.op !in b.waitAck
    ensures Owners(Registered(b, r, now, id))
  {
  }

  // ---------- Steps on one key ----------

  /** Nothing but the element and the timers of one key has changed. */
  ghost predicate OnlyKey(b: Book, b': Book, key: nat) {
    && b'.waitAck == b.waitAck
    && key in b'.elems
    && (forall k :: k in b.elems ==> k in b'.elems && (k != key ==> b'.elems[k] == b.elems[k]))
    && (forall k :: k in b'.elems && k != key ==> k in b.elems)
    && (forall id :: id in b.timers && !IsLeaseOf(b.timers[id].callback, key) ==>
          id in b'.timers && b'.timers[id] == b.timers[id])
    && (forall id :: id in b'.timers && !IsLeaseOf(b'.timers[id].callback, key) ==>
          id in b.timers && b'.timers[id] == b.timers[id])
  }

  /** The ownership of the timers of one key. */
  ghost predicate KeyOwns(b: Book, key: nat) {
    && key in b.elems
    && ElementOwns(b.timers, key, b.elems[key].manager)
    && forall id :: id in b.timers && IsLeaseOf(b.timers[id].callback, key) ==>
         && id != 0
         && b.timers[id].id == id
         && b.timers[id].timeout > 0
         && (b.timers[id].repeat > 0 ==> Owned(b, id, b.timers[id].callback))
  }

  lemma KeyIsOwner(b: Book, key: nat)
    requires WellFormed(b) && ElementsOwn(b) && TimersOwned(b) && key in b.elems
    ensures KeyOwns(b, key)
  {
  }

  /** A step on one key never disturbs the timer of another owner. */
  lemma OnlyKeyKeepsOwners(b: Book, b': Book, key: nat)
    requires Owners(b)
    requires OnlyKey(b, b', key) && KeyOwns(b', key)
    ensures Owners(b')
  {
    assert WellFormed(b') by {
      hide ElementsOwn, AcksOwn, TimersOwned;
    }
    assert ElementsOwn(b') by {
      hide WellFormed, AcksOwn, TimersOwned;
    }
    assert AcksOwn(b') by {
      hide WellFormed, ElementsOwn, TimersOwned;
    }
    assert TimersOwned(b') by {
      hide WellFormed, ElementsOwn, AcksOwn;
    }
  }

  /** Starting the timer of a key replaces the one it had, unless that is overdue. */
  lemma StartedOnlyKey(b: Book, key: nat, s: Managed, c: Callback, timeout: nat, now: int, id: nat, phase: Phase, b': Book)
    requires KeyOwns(b, key) && FreshId(b.timers, id) && IsLeaseOf(c, key) && 0 < timeout <= LEASE_MS
    requires phase == if c.LeaseExpired? then Guaranteed else UpdateProtected
    requires s.timers == b.timers
    requires s.manager.timerId == b.elems[key].manager.timerId && s.manager.expire == b.elems[key].manager.expire
    requires s.manager.phase != Idle ==> now < s.manager.expire
    requires s.manager.phase == b.elems[key].manager.phase
    requires b'.waitAck == b.waitAck && b'.timers == Started(s, c, timeout, now, id).timers
    requires b'.elems.Keys == b.elems.Keys && forall k :: k in b.elems && k != key ==> b'.elems[k] == b.elems[k]
    requires b'.elems[key].manager == Started(s, c, timeout, now, id).manager.(phase := phase)
    ensures OnlyKey(b, b', key) && KeyOwns(b', key)
  {
    StartedTimers(s, c, timeout, now, id);
    StartedManager(s, c, timeout, now, id);
    hide Started, Replaced, OnlyKey, ElementOwns;
    ReplacedOnlyKey(b, b', key, s.manager.timerId, Timer(id, now + timeout, timeout, 1, c)) by {
      assert KeyOwns(b, key);
      RecordedIsLease(b, key);
    }
    ReplacedKeyOwns(b, b', key, Timer(id, now + timeout, timeout, 1, c), phase) by {
      hide KeyOwns;
    }
  }

  lemma RecordedIsLease(b: Book, key: nat)
    requires KeyOwns(b, key)
    ensures var id := b.elems[key].manager.timerId;
      id in b.timers && id != 0 ==> IsLeaseOf(b.timers[id].callback, key)
  {
  }

  /** The timer of an owner is disabled, if it has one, and a new one added; no other is touched. */
  ghost predicate Replaced(q: Timers, q': Timers, old': nat, timer: Timer) {
    && timer.id !in q
    && q'.Keys == q.Keys + {timer.id}
    && q'[timer.id] == timer
    && (forall i :: i in q && i != old' ==> q'[i] == q[i])
    && (old' in q && old' != 0 ==> q'[old'] == q[old'].(repeat := 0))
    && (old' in q && old' == 0 ==> q'[old'] == q[old'])
  }

  lemma ReplacedOnlyKey(b: Book, b': Book, key: nat, old': nat, timer: Timer)
    requires Replaced(b.timers, b'.timers, old', timer) && IsLeaseOf(timer.callback, key)
    requires old' in b.timers && old' != 0 ==> IsLeaseOf(b.timers[old'].callback, key)
    requires b'.waitAck == b.waitAck && key in b.elems
    requires b'.elems.Keys == b.elems.Keys && forall k :: k in b.elems && k != key ==> b'.elems[k] == b.elems[k]
    ensures OnlyKey(b, b', key)
  {
  }

  lemma ReplacedKeyOwns(b: Book, b': Book, key: nat, timer: Timer, phase: Phase)
    requires KeyOwns(b, key) && Replaced(b.timers, b'.timers, b.elems[key].manager.timerId, timer)
    requires timer.id != 0 && timer.repeat == 1 && 0 < timer.timeout <= LEASE_MS
    requires if phase == Guaranteed then timer.callback == LeaseExpired(key)
             else phase == UpdateProtected && timer.callback == CommitDeferred(key)
    requires key in b'.elems && b'.elems[key].manager == Manager(phase, timer.id, timer.expire, b'.elems[key].manager.opId)
    ensures KeyOwns(b', key)
  {
    forall id | id in b'.timers && IsLeaseOf(b'.timers[id].callback, key)
      ensures id != 0 && b'.timers[id].id == id && b'.timers[id].timeout > 0
      ensures b'.timers[id].repeat > 0 ==> Owned(b', id, b'.timers[id].callback)
    {
      if id != timer.id {
        assert id in b.timers && IsLeaseOf(b.timers[id].callback, key);
      }
    }
  }

  lemma StartedTimers(s: Managed, c: Callback, timeout: nat, now: int, id: nat)
    requires FreshId(s.timers, id)
    requires s.manager.timerId != 0 && s.manager.timerId in s.timers ==> now < s.manager.expire
    ensures Replaced(s.timers, Started(s, c, timeout, now, id).timers, s.manager.timerId, Timer(id, now + timeout, timeout, 1, c))
  {
  }

  lemma StartedManager(s: Managed, c: Callback, timeout: nat, now: int, id: nat)
    ensures Started(s, c, timeout, now, id).manager == s.manager.(timerId := id, expire := now + timeout)
  {
  }

  /** Reads and updates of a key that gets or extends a lease. */
  lemma LeaseKeepsInv(b: Book, key: nat, m: Manager, now: int, id: nat, b': Book)
    requires Inv(b, now) && FreshId(b.timers, id) && !Overdue(b, key, now)
    requires key in b.elems && b.elems[key].manager.phase != UpdateProtected
    requires m == b.elems[key].manager.(opId := m.opId)
    requires b'.elems.Keys == b.elems.Keys && forall k :: k in b.elems && k != key ==> b'.elems[k] == b.elems[k]
    requires var leased := ToGuaranteed(Managed(m, b.timers), key, now, id);
      b'.timers == leased.timers && b'.elems[key].manager == leased.manager
    requires b'.waitAck == b.waitAck && b'.deferred == b.deferred
    ensures Inv(b', now)
  {
    hide WellFormed, ElementsOwn, AcksOwn, TimersOwned, KeyOwns, OnlyKey;
    KeyIsOwner(b, key);
    StartedOnlyKey(b, key, Managed(m, b.timers), LeaseExpired(key), LEASE_MS, now, id, Guaranteed, b');
    OnlyKeyKeepsOwners(b, b', key);
  }

  lemma BookReadKeepsInv(b: Book, req: Request, now: int, id: nat)
    requires Inv(b, now) && FreshId(b.timers, id) && !Overdue(b, req.key, now)
    ensures Inv(BookRead(b, req, now, id), now)
  {
    hide Inv;
    if req.key in b.elems {
      var m := b.elems[req.key].manager;
      if m.phase == UpdateProtected {
        assert BookRead(b, req, now, id).elems == b.elems;
      } else {
        var m' := if m.phase == Idle then m else m.(opId := ToUint32(req.op));
        LeaseKeepsInv(b, req.key, m', now, id, BookRead(b, req, now, id));
      }
    }
  }

  lemma KnownKeepsInv(b: Book, key: nat, now: int)
    requires Inv(b, now)
    ensures Inv(b.With(Known(b.Center(), key)), now)
  {
  }

  /** An update touches no timer but those of its own key. */
  lemma UpdateTimersAllowed(s: Managed, key: nat, op: nat, now: int, id: nat)
    ensures var q := ManagerUpdate(s, key, op, now, id).timers;
      && (forall i :: i in q && i != id ==> i in s.timers && (q[i] == s.timers[i] || q[i] == s.timers[i].(repeat := 0)))
      && (id in q ==> (id in s.timers && q[id].(repeat := 0) == s.timers[id].(repeat := 0)) || (q[id].id == id && IsLeaseOf(q[id].callback, key) && q[id].timeout > 0))
  {
  }

  /** An update that is set aside until the lease runs out. */
  lemma DeferralKeepsOwners(b: Book, req: Update, now: int, id: nat)
    requires Inv(b, now) && FreshId(b.timers, id) && NotInUse(b, req.op)
    requires InPhase(b, req.key, Guaranteed) && ToUint32(req.op) != 0 && !Overdue(b, req.key, now)
    ensures var b' := BookUpdate(b, req, now, id);
      var m := b.elems[req.key].manager;
      && Owners(b') && EntriesHeld(b')
      && b'.elems == b.elems[req.key := Element(Manager(UpdateProtected, id, m.expire, ToUint32(req.op)), b.elems[req.key].value, req.data)]
      && b'.deferred == if ToUint32(req.op) in b.deferred then b.deferred else b.deferred[ToUint32(req.op) := req]
  {
    hide WellFormed, ElementsOwn, AcksOwn, TimersOwned, KeyOwns, OnlyKey, Started;
    var b' := BookUpdate(b, req, now, id);
    var op := ToUint32(req.op);
    var m := b.elems[req.key].manager.(opId := op);
    KeyIsOwner(b, req.key);
    DelayIsPositive(b, req.key, now);
    StartedOnlyKey(b, req.key, Managed(m, b.timers), CommitDeferred(req.key), m.expire - now, now, id, UpdateProtected, b');
    OnlyKeyKeepsOwners(b, b', req.key);
    StartedManager(Managed(m, b.timers), CommitDeferred(req.key), m.expire - now, now, id);
    assert op !in b.deferred ==> DeferredAt(b', op, req);
  }

  lemma DeferralKeepsInv(b: Book, req: Update, now: int, id: nat)
    requires Inv(b, now) && FreshId(b.timers, id) && NotInUse(b, req.op) && ToUint32(req.op) !in b.deferred
    requires InPhase(b, req.key, Guaranteed) && ToUint32(req.op) != 0 && !Overdue(b, req.key, now)
    ensures Inv(BookUpdate(b, req, now, id), now)
  {
    DeferralKeepsOwners(b, req, now, id);
    hide Owners, EntriesHeld, BookUpdate;
  }

  /** An update that ends in an exception renames the operation at most. */
  lemma RenamedKeepsInv(b: Book, key: nat, now: int, e: Element)
    requires Inv(b, now) && InPhase(b, key, Guaranteed)
    requires e == b.elems[key].(manager := b.elems[key].manager.(opId := e.manager.opId))
    ensures Inv(b.(elems := b.elems[key := e]), now)
  {
  }

  lemma BookUpdateKeepsInv(b: Book, req: Update, now: int, id: nat)
    requires Inv(b, now) && FreshId(b.timers, id) && NotInUse(b, req.op)
    requires !CannotDefer(b, req, now)
    ensures Inv(BookUpdate(b, req, now, id), now)
  {
    hide Inv, Started, FreshId;
    var b' := BookUpdate(b, req, now, id);
    var known := b.With(Known(b.Center(), req.key));
    KnownKeepsInv(b, req.key, now);
    var m := known.elems[req.key].manager;
    match m.phase {
      case Idle =>
        LeaseKeepsInv(known, req.key, m, now, id, b');
      case UpdateProtected =>
        assert b'.elems == b.elems;
      case Guaranteed =>
        DelayIsPositive(b, req.key, now);
        if ToUint32(req.op) != 0 && RemainingDelay(m, now) > 0 {
          DeferralKeepsInv(b, req, now, id);
        } else {
          assert b' == b.(elems := b.elems[req.key := b'.elems[req.key]]);
          RenamedKeepsInv(b, req.key, now, b'.elems[req.key]);
        }
    }
  }

  lemma HandledReadKeepsInv(s: Server, req: Request, now: int, leaseId: nat, ackId: nat)
    requires Inv(s.book, now) && NotInUse(s.book, req.op) && ReadIds(s.book, req, now, leaseId, ackId)
    requires !Overdue(s.book, req.key, now)
    ensures Inv(HandledRead(s, req, now, leaseId, ackId).book, now)
  {
    BookReadKeepsInv(s.book, req, now, leaseId);
    hide Inv;
    RegisteredKeepsInv(BookRead(s.book, req, now, leaseId), Reply(ReadAnswer(s, req, now)), now, ackId);
  }

  lemma HandledUpdateKeepsInv(s: Server, req: Update, now: int, leaseId: nat, ackId: nat)
    requires Inv(s.book, now) && NotInUse(s.book, req.op) && UpdateIds(s.book, req, now, leaseId, ackId)
    requires !CannotDefer(s.book, req, now)
    ensures Inv(HandledUpdate(s, req, now, leaseId, ackId).book, now)
  {
    BookUpdateKeepsInv(s.book, req, now, leaseId);
    hide Inv;
    var a := UpdateAnswer(s.book, req, now);
    if a.Some? {
      RegisteredKeepsInv(BookUpdate(s.book, req, now, leaseId), Reply(a.value), now, ackId);
    }
  }

  lemma AcknowledgedKeepsInv(b: Book, op: nat, now: int)
    requires Inv(b, now)
    ensures Inv(Acknowledged(b, op), now)
  {
    if op in b.waitAck {
      assert AckOwns(b.timers, op, b.waitAck[op]);
    }
  }

  // ---------- Turns of the drain loop ----------

  lemma DroppedKeepsOwners(b: Book, id: nat)
    requires Owners(b) && id in b.timers && b.timers[id].repeat == 0
    ensures Owners(b.(timers := b.timers - {id}))
  {
  }

  lemma UserTurnKeepsOwners(b: Book, id: nat, now: int)
    requires Owners(b) && id in b.timers && b.timers[id].repeat > 0 && b.timers[id].callback.User?
    ensures Owners(b.(timers := Settled(b.timers, id, now)))
  {
  }

  lemma ResendTurnKeepsOwners(b: Book, id: nat)
    requires Owners(b) && id in b.timers && b.timers[id].repeat > 0 && b.timers[id].callback.Resend?
    ensures b.timers[id].callback.response.op in b.waitAck && b.timers[id].repeat == 1
    ensures Owners(b.(timers := b.timers - {id}, waitAck := b.waitAck - {b.timers[id].callback.response.op}))
  {
  }

  /** The key of a lease timer that fires: the timer is the one on record, and its last. */
  lemma FiringIsOnRecord(b: Book, key: nat, id: nat)
    requires WellFormed(b) && ElementsOwn(b) && TimersOwned(b)
    requires id in b.timers && b.timers[id].repeat > 0 && IsLeaseOf(b.timers[id].callback, key)
    ensures KeyOwns(b, key) && b.elems[key].manager.timerId == id
    ensures b.elems[key].manager.expire == b.timers[id].expire && b.timers[id].repeat == 1
    ensures b.elems[key].manager.phase == if b.timers[id].callback.LeaseExpired? then Guaranteed else UpdateProtected
  {
  }

  lemma LeaseTurnKeepsOwners(b: Book, key: nat, id: nat)
    requires Owners(b) && id in b.timers && b.timers[id].repeat > 0 && b.timers[id].callback == LeaseExpired(key)
    ensures InPhase(b, key, Guaranteed) && b.timers[id].repeat == 1
    ensures Owners(b.With(LeaseExpiredAt(b.Center(), key)).(timers := b.timers - {id}))
  {
    hide WellFormed, ElementsOwn, AcksOwn, TimersOwned;
    FiringIsOnRecord(b, key, id);
    var b' := b.With(LeaseExpiredAt(b.Center(), key)).(timers := b.timers - {id});
    assert OnlyKey(b, b', key) && KeyOwns(b', key);
    OnlyKeyKeepsOwners(b, b', key);
  }

  /** The commit up to its answer, with its own timer gone. */
  ghost function BookCommitted(b: Book, key: nat, id: nat, now: int, leaseId: nat): Book
    requires key in b.elems
  {
    var committed := BookCommit(b, key, now, leaseId);
    committed.(timers := committed.timers - {id})
  }

  lemma CommitTurnOwns(b: Book, key: nat, id: nat, now: int, leaseId: nat)
    requires KeyOwns(b, key) && b.elems[key].manager.timerId == id && b.elems[key].manager.expire <= now
    requires b.elems[key].manager.phase == UpdateProtected && FreshId(b.timers, leaseId)
    ensures OnlyKey(b, BookCommitted(b, key, id, now, leaseId), key)
    ensures KeyOwns(BookCommitted(b, key, id, now, leaseId), key)
    ensures BookCommit(b, key, now, leaseId).timers == Added(b.timers, leaseId, LeaseExpired(key), LEASE_MS, 1, now)
  {
  }

  lemma CommitTurnKeepsOwners(b: Book, key: nat, id: nat, now: int, leaseId: nat)
    requires Owners(b) && id in b.timers && b.timers[id].repeat > 0 && b.timers[id].callback == CommitDeferred(key)
    requires b.timers[id].expire <= now && FreshId(b.timers, leaseId)
    ensures InPhase(b, key, UpdateProtected) && b.timers[id].repeat == 1
    ensures Owners(BookCommitted(b, key, id, now, leaseId))
    ensures id in BookCommit(b, key, now, leaseId).timers && BookCommit(b, key, now, leaseId).timers[id].repeat == 1
  {
    hide WellFormed, ElementsOwn, AcksOwn, TimersOwned, OnlyKey;
    FiringIsOnRecord(b, key, id);
    CommitTurnOwns(b, key, id, now, leaseId);
    OnlyKeyKeepsOwners(b, BookCommitted(b, key, id, now, leaseId), key);
  }

  /** What a turn does to the elements and the two maps of books with owned timers. */
  ghost predicate TurnMaps(b: Book, b': Book, timer: Timer, now: int, leaseId: nat)
    requires HasTarget(b, timer.callback)
  {
    if timer.repeat == 0 || timer.callback.User? then b' == b.(timers := b'.timers)
    else match timer.callback
      case Resend(r) => b' == b.(timers := b'.timers, waitAck := b.waitAck - {r.op})
      case LeaseExpired(k) =>
        && InPhase(b, k, Guaranteed)
        && b' == b.(timers := b'.timers,
                    elems := b.elems[k := b.elems[k].(manager := Manager(Idle, 0, 0, b.elems[k].manager.opId))])
      case CommitDeferred(k) =>
        var e := b.elems[k];
        && InPhase(b, k, UpdateProtected)
        && e.manager.opId in b.deferred
        && b'.elems == b.elems[k := Element(Manager(Guaranteed, leaseId, now + LEASE_MS, e.manager.opId), e.temp, "")]
        && b'.deferred == b.deferred - {e.manager.opId}
        && b'.waitAck.Keys == b.waitAck.Keys + {b.deferred[e.manager.opId].op}
  }

  /** A turn that ends without an exception keeps every timer owned and every
      entry at its key, also while a key waits without an entry. */
  lemma TurnKeepsOwners(s: Server, t: Turn, now: int)
    requires Owners(s.book) && EntriesHeld(s.book) && CanTurn(s.book, t, now) && !TurnThrows(s.book, t, now)
    ensures Owners(Turned(s, t, now).book)
    ensures TurnMaps(s.book, Turned(s, t, now).book, s.book.timers[t.id], now, t.leaseId)
  {
    var b, timer := s.book, s.book.timers[t.id];
    if timer.repeat == 0 {
      DroppedKeepsOwners(b, t.id);
      return;
    }
    match timer.callback {
      case User(_) => UserTurnKeepsOwners(b, t.id, now);
      case Resend(_) => ResendTurnKeepsOwners(b, t.id);
      case LeaseExpired(key) => LeaseTurnKeepsOwners(b, key, t.id);
      case CommitDeferred(key) => CommitTurnOwned(s, t, now);
    }
    hide Owners, EntriesHeld, InPhase, CommittedAt, Committed;
  }

  lemma CommitTurnOwned(s: Server, t: Turn, now: int)
    requires Owners(s.book) && EntriesHeld(s.book) && CanTurn(s.book, t, now) && !TurnThrows(s.book, t, now)
    requires s.book.timers[t.id].callback.CommitDeferred? && s.book.timers[t.id].repeat > 0
    ensures Owners(Turned(s, t, now).book)
    ensures TurnMaps(s.book, Turned(s, t, now).book, s.book.timers[t.id], now, t.leaseId)
  {
    hide Owners, EntriesHeld;
    var key := s.book.timers[t.id].callback.key;
    CommitTurnKeepsOwners(s.book, key, t.id, now, t.leaseId);
    CommitTurnIs(s, t, now);
    EntryIsFresh(s.book, s.book.elems[key].manager.opId);
    RegisteredKeepsOwners(BookCommitted(s.book, key, t.id, now, t.leaseId),
                          Reply(CommitAnswer(s.book, key, now).value), now, t.ackId);
  }

  lemma EntryIsFresh(b: Book, o: nat)
    requires EntriesHeld(b) && o in b.deferred
    ensures b.deferred[o].op !in b.waitAck && ToUint32(b.deferred[o].op) == o
  {
    assert DeferredAt(b, o, b.deferred[o]);
  }

  lemma TurnKeepsEntry(b: Book, b': Book, timer: Timer, now: int, leaseId: nat, o: nat)
    requires HasTarget(b, timer.callback) && TurnMaps(b, b', timer, now, leaseId)
    requires EntriesHeld(b) && o in b'.deferred
    ensures o in b.deferred && b'.deferred[o] == b.deferred[o] && DeferredAt(b', o, b'.deferred[o])
  {
    assert o in b.deferred && DeferredAt(b, o, b.deferred[o]);
    if timer.repeat > 0 && timer.callback.CommitDeferred? {
      EntryIsFresh(b, b.elems[timer.callback.key].manager.opId);
    }
    hide EntriesHeld;
  }

  lemma TurnKeepsEntries(s: Server, t: Turn, now: int)
    requires Owners(s.book) && EntriesHeld(s.book) && CanTurn(s.book, t, now) && !TurnThrows(s.book, t, now)
    ensures EntriesHeld(Turned(s, t, now).book)
  {
    TurnKeepsOwners(s, t, now);
    var b, b', timer := s.book, Turned(s, t, now).book, s.book.timers[t.id];
    hide Owners, Turned, CanTurn, TurnThrows, TurnMaps, DeferredAt;
    forall o | o in b'.deferred
      ensures DeferredAt(b', o, b'.deferred[o])
    {
      TurnKeepsEntry(b, b', timer, now, t.leaseId, o);
    }
  }

  /** With every waiting key entered, no callback throws. */
  lemma NoTurnThrows(s: Server, t: Turn, now: int)
    requires Owners(s.book) && CanTurn(s.book, t, now)
    requires forall k :: InPhase(s.book, k, UpdateProtected) ==> s.book.elems[k].manager.opId in s.book.deferred
    ensures !TurnThrows(s.book, t, now)
  {
    var timer := s.book.timers[t.id];
    if timer.repeat > 0 && timer.callback.Resend? {
      ResendTurnKeepsOwners(s.book, t.id);
    } else if timer.repeat > 0 && timer.callback.CommitDeferred? {
      FiringIsOnRecord(s.book, timer.callback.key, t.id);
    }
    hide Owners;
  }

  /** No turn ends in an exception, and every turn keeps the invariant. */
  lemma TurnKeepsInv(s: Server, t: Turn, now: int)
    requires Inv(s.book, now) && CanTurn(s.book, t, now)
    ensures !TurnThrows(s.book, t, now)
    ensures Inv(Turned(s, t, now).book, now)
  {
    NoTurnThrows(s, t, now);
    TurnKeepsOwners(s, t, now);
    TurnKeepsEntries(s, t, now);
    hide Owners, EntriesHeld, Turned, CanTurn, TurnThrows;
    TurnKeepsRest(s.book, Turned(s, t, now).book, s.book.timers[t.id], now, t.leaseId);
  }

  lemma TurnKeepsRest(b: Book, b': Book, timer: Timer, now: int, leaseId: nat)
    requires HasTarget(b, timer.callback) && TurnMaps(b, b', timer, now, leaseId)
    requires KeysEntered(b) && DeadlinesBounded(b, now)
    ensures KeysEntered(b') && DeadlinesBounded(b', now)
  {
  }

  lemma CommitTurnIs(s: Server, t: Turn, now: int)
    requires CanTurn(s.book, t, now) && s.book.timers[t.id].callback.CommitDeferred? && s.book.timers[t.id].repeat > 0
    requires CommitAnswer(s.book, s.book.timers[t.id].callback.key, now).Some?
    requires var committed := BookCommit(s.book, s.book.timers[t.id].callback.key, now, t.leaseId);
      t.id in committed.timers && committed.timers[t.id].repeat == 1
    ensures var key := s.book.timers[t.id].callback.key;
      var a := CommitAnswer(s.book, key, now).value;
      Turned(s, t, now).book == Registered(BookCommitted(s.book, key, t.id, now, t.leaseId), Reply(a), now, t.ackId)
  {
    var key := s.book.timers[t.id].callback.key;
    var a := CommitAnswer(s.book, key, now).value;
    var committed := BookCommit(s.book, key, now, t.leaseId);
    var timer := Timer(t.ackId, now + ACK_MS, ACK_MS, 1, Resend(Reply(a)));
    assert committed.timers[t.ackId := timer] - {t.id} == (committed.timers - {t.id})[t.ackId := timer];
  }

  // ---------- Timers of the application ----------

  lemma UserTimerKeepsInv(b: Book, tag: nat, timeout: nat, repeat: nat, now: int, id: nat)
    requires Inv(b, now) && FreshId(b.timers, id)
    ensures Inv(b.(timers := Added(b.timers, id, User(tag), timeout, repeat, now)), now)
  {
  }
}
