/** The timer queue: what each operation does to the set of timers, and the
    heap that carries it out. */
module EventTimers {
  import opened Common
  import opened Messages
  import opened TimerHeap

  // ---------- The operations on the set of timers ----------

  /** An address the allocator may hand out: not null, and not that of a timer in the queue. */
  ghost predicate FreshId(q: Timers, id: nat) {
    id != 0 && id !in q
  }

  ghost function Added(q: Timers, id: nat, callback: Callback, timeout: nat, repeat: nat, now: int): Timers {
    q[id := Timer(id, now + timeout, timeout, repeat, callback)]
  }

  /** Deletion only disables the timer; it leaves the queue when it expires. */
  ghost function Deleted(q: Timers, id: nat): Timers {
    if id in q then q[id := q[id].(repeat := 0)] else q
  }

  /** Counts one firing, then drops the timer or winds it up again. */
  ghost function Settled(q: Timers, id: nat, now: int): Timers
    requires id in q
  {
    var repeat := Decrement32(q[id].repeat);
    if repeat == 0 then q - {id} else q[id := q[id].(repeat := repeat, expire := now + q[id].timeout)]
  }

  ghost predicate Due(q: Timers, id: nat, now: int) {
    id in q && q[id].expire <= now
  }

  /** No timer of the queue, deleted or not, expires before `id`. */
  ghost predicate Earliest(q: Timers, id: nat) {
    id in q && forall other :: other in q ==> q[id].expire <= q[other].expire
  }

  ghost predicate NoneDue(q: Timers, now: int) {
    forall id :: id in q ==> now < q[id].expire
  }

  lemma FreshIdExists(q: Timers)
    ensures exists id: nat :: FreshId(q, id)
  {
    var id := LargerThanAll(q.Keys);
    assert FreshId(q, id);
  }

  lemma LargerThanAll(ids: set<nat>) returns (id: nat)
    ensures id != 0 && forall i :: i in ids ==> i < id
    decreases ids
  {
    if ids == {} {
      id := 1;
    } else {
      var i :| i in ids;
      var bound := LargerThanAll(ids - {i});
      id := if i < bound then bound else i + 1;
      assert ids == ids - {i} + {i};
    }
  }

  // ---------- The queue ----------

  ghost predicate Keyed(contents: Timers, t: Timer) {
    t.id in contents && contents[t.id] == t
  }

  /** `timers` lists exactly the timers in `contents`, each once and under its own address. */
  ghost predicate Lists(timers: seq<Timer>, contents: Timers) {
    && (forall t: Timer :: multiset(timers)[t] == if Keyed(contents, t) then 1 else 0)
    && (forall id :: id in contents ==> id != 0 && contents[id].id == id)
  }

  lemma ListedTimer(timers: seq<Timer>, contents: Timers, i: nat)
    requires Lists(timers, contents) && i < |timers|
    ensures Keyed(contents, timers[i])
  {
  }

  lemma ListedAt(timers: seq<Timer>, contents: Timers, id: nat) returns (i: nat)
    requires Lists(timers, contents) && id in contents
    ensures i < |timers| && timers[i] == contents[id]
  {
    assert Keyed(contents, contents[id]);
    assert multiset(timers)[contents[id]] == 1;
    assert contents[id] in multiset(timers);
    i :| 0 <= i < |timers| && timers[i] == contents[id];
  }

  lemma TwiceListed<T>(s: seq<T>, i: nat, j: nat)
    requires i < j < |s| && s[i] == s[j]
    ensures multiset(s)[s[i]] >= 2
  {
    assert s == s[..j] + s[j..];
    assert s[j] == s[j..][0] && s[i] == s[..j][i];
    assert s[i] in multiset(s[..j]) && s[i] in multiset(s[j..]);
  }

  lemma ListedOnce(timers: seq<Timer>, contents: Timers, i: nat, j: nat)
    requires Lists(timers, contents) && i < |timers| && j < |timers| && timers[i].id == timers[j].id
    ensures i == j
  {
    ListedTimer(timers, contents, i);
    ListedTimer(timers, contents, j);
    if i < j {
      TwiceListed(timers, i, j);
    } else if j < i {
      TwiceListed(timers, j, i);
    }
  }

  /** Replacing one timer in the list replaces it in the content. */
  lemma ListsReplaced(timers: seq<Timer>, contents: Timers, i: nat, t: Timer)
    requires Lists(timers, contents) && i < |timers| && t.id == timers[i].id
    ensures Lists(timers[i := t], contents[t.id := t])
  {
    ListedTimer(timers, contents, i);
    assert multiset(timers[i := t]) == multiset(timers) - multiset{timers[i]} + multiset{t};
  }

  lemma ListsAdded(timers: seq<Timer>, contents: Timers, t: Timer)
    requires Lists(timers, contents) && FreshId(contents, t.id)
    ensures Lists(timers + [t], contents[t.id := t])
  {
  }

  lemma ListsRemoved(timers: seq<Timer>, contents: Timers)
    requires Lists(timers, contents) && |timers| > 0
    ensures Lists(timers[..|timers| - 1], contents - {timers[|timers| - 1].id})
  {
    var t := timers[|timers| - 1];
    ListedTimer(timers, contents, |timers| - 1);
    var rest := timers[..|timers| - 1];
    assert timers == rest + [t];
    forall x: Timer
      ensures multiset(rest)[x] == if Keyed(contents - {t.id}, x) then 1 else 0
    {
      assert multiset(timers)[x] == multiset(rest)[x] + multiset{t}[x];
    }
  }

  lemma ListsPermuted(timers: seq<Timer>, permuted: seq<Timer>, contents: Timers)
    requires Lists(timers, contents) && multiset(permuted) == multiset(timers)
    ensures Lists(permuted, contents)
  {
  }

  /** The front may change: no other pair of the heap is touched. */
  lemma FrontReplaced(timers: seq<Timer>, t: Timer)
    requires IsHeap(timers) && |timers| > 0
    ensures IsHeapAround(timers[0 := t], 0)
  {
  }

  function Disabled(t: Timer, id: nat): Timer {
    if t.id == id then t.(repeat := 0) else t
  }

  lemma ListsDisabled(timers: seq<Timer>, disabled: seq<Timer>, contents: Timers, id: nat)
    requires Lists(timers, contents) && |disabled| == |timers|
    requires forall i :: 0 <= i < |timers| ==> disabled[i] == Disabled(timers[i], id)
    ensures Lists(disabled, Deleted(contents, id))
  {
    if id in contents {
      var p := ListedAt(timers, contents, id);
      var t := contents[id].(repeat := 0);
      forall i | 0 <= i < |timers|
        ensures disabled[i] == timers[p := t][i]
      {
        if timers[i].id == id {
          ListedOnce(timers, contents, i, p);
        }
      }
      assert disabled == timers[p := t];
      ListsReplaced(timers, contents, p, t);
    } else {
      forall i | 0 <= i < |timers|
        ensures disabled[i] == timers[i]
      {
        ListedTimer(timers, contents, i);
      }
      assert disabled == timers;
    }
  }

  function Ids(timers: seq<Timer>): set<nat> {
    set t | t in timers :: t.id
  }

  lemma IdsAreKeys(timers: seq<Timer>, contents: Timers)
    requires Lists(timers, contents)
    ensures Ids(timers) == contents.Keys
  {
    forall id | id in Ids(timers)
      ensures id in contents
    {
      var t :| t in timers && t.id == id;
      assert multiset(timers)[t] > 0;
    }
    forall id | id in contents
      ensures id in Ids(timers)
    {
      var i := ListedAt(timers, contents, id);
    }
  }

  class TimerQueue {
    var timers: seq<Timer>
    ghost var contents: Timers

    ghost predicate Valid()
      reads this
    {
      IsHeap(timers) && Lists(timers, contents)
    }

    constructor ()
      ensures Valid() && contents == map[]
    {
      timers := [];
      contents := map[];
    }

    /** A front that is due stays the front: the drain loop relies on it while a callback runs. */
    twostate predicate DueFrontKept(now: int)
      reads this
    {
      old(|timers|) > 0 && old(timers)[0].expire <= now ==>
        |timers| > 0 && timers[0].id == old(timers)[0].id && timers[0].expire == old(timers)[0].expire
    }

    lemma FrontIsEarliest()
      requires Valid() && |timers| > 0
      ensures Earliest(contents, timers[0].id) && contents[timers[0].id] == timers[0]
    {
      ListedTimer(timers, contents, 0);
      forall id | id in contents
        ensures timers[0].expire <= contents[id].expire
      {
        var i := ListedAt(timers, contents, id);
        FrontIsLeast(timers, i);
      }
    }

    method AddTimer(callback: Callback, timeout: nat, repeat: nat, now: int) returns (error: Option<ErrorCode>, id: nat)
      requires Valid()
      modifies this
      ensures Valid() && DueFrontKept(now)
      ensures repeat == 0 ==> error == Some(IllArgument) && contents == old(contents)
      ensures repeat != 0 ==> error == None && FreshId(old(contents), id)
                              && contents == Added(old(contents), id, callback, timeout, repeat, now)
    {
      if repeat == 0 {
        return Some(IllArgument), 0;
      }
      error := None;
      hide Lists, IsHeap;
      IdsAreKeys(timers, contents);
      FreshIdExists(contents);
      id :| id != 0 && id !in Ids(timers);
      EmplaceBack(Timer(id, now + timeout, timeout, repeat, callback));
    }

    method EmplaceBack(t: Timer)
      requires Valid() && FreshId(contents, t.id)
      modifies this
      ensures Valid() && contents == old(contents)[t.id := t]
      ensures |old(timers)| > 0 && old(timers)[0].expire <= t.expire ==> |timers| > 0 && timers[0] == old(timers)[0]
    {
      hide Lists;
      ListsAdded(timers, contents, t);
      var extended := timers + [t];
      assert extended[..|timers|] == timers;
      var pushed := PushHeap(extended);
      ListsPermuted(extended, pushed, contents[t.id := t]);
      timers := pushed;
      contents := contents[t.id := t];
    }

    method DelTimer(id: nat)
      requires Valid()
      modifies this
      ensures Valid() && contents == Deleted(old(contents), id)
      ensures forall now :: DueFrontKept(now)
    {
      hide Lists;
      var disabled := timers;
      for i := 0 to |timers|
        invariant |disabled| == |timers|
        invariant forall j :: 0 <= j < i ==> disabled[j] == Disabled(timers[j], id)
        invariant forall j :: i <= j < |timers| ==> disabled[j] == timers[j]
      {
        if disabled[i].id == id {
          disabled := disabled[i := disabled[i].(repeat := 0)];
        }
      }
      ListsDisabled(timers, disabled, contents, id);
      timers := disabled;
      contents := Deleted(contents, id);
    }

    /** The second half of a turn of the drain loop: the front has fired, or was disabled. */
    method SettleFront(fired: bool, now: int)
      requires Valid() && |timers| > 0
      requires !fired ==> timers[0].repeat == 0
      modifies this
      ensures Valid()
      ensures var id := old(timers)[0].id;
        id in old(contents)
        && contents == if fired then Settled(old(contents), id, now) else old(contents) - {id}
    {
      hide Lists, IsHeap;
      ListedTimer(timers, contents, 0);
      var repeat := if fired then Decrement32(timers[0].repeat) else timers[0].repeat;
      if repeat == 0 {
        RemoveFront();
      } else {
        RewindFront(repeat, now);
      }
    }

    method RemoveFront()
      requires Valid() && |timers| > 0
      modifies this
      ensures Valid() && contents == old(contents) - {old(timers)[0].id}
    {
      hide Lists;
      var popped := PopHeap(timers);
      ListsPermuted(timers, popped, contents);
      ListsRemoved(popped, contents);
      contents := contents - {timers[0].id};
      timers := popped[..|popped| - 1];
    }

    method RewindFront(repeat: nat, now: int)
      requires Valid() && |timers| > 0
      modifies this
      ensures Valid()
      ensures var front := old(timers)[0];
        contents == old(contents)[front.id := front.(repeat := repeat, expire := now + front.timeout)]
    {
      hide Lists, IsHeap, IsHeapAround;
      var front := timers[0].(repeat := repeat, expire := now + timers[0].timeout);
      ListsReplaced(timers, contents, 0, front);
      FrontReplaced(timers, front);
      var popped := PopHeap(timers[0 := front]);
      var pushed := PushHeap(popped);
      ListsPermuted(timers[0 := front], pushed, contents[front.id := front]);
      timers := pushed;
      contents := contents[front.id := front];
    }
  }
}
