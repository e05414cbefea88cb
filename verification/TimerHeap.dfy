/** The sift loops behind push_heap and pop_heap (section 28.7.7 of ISO/IEC
    14882:2017), in the form that moves a hole and never compares the root
    that is being removed. */
module TimerHeap {
  import opened Messages

  /** Each timer expires no earlier than its parent. */
  ghost predicate IsHeap(s: seq<Timer>) {
    forall i {:trigger s[i]} :: 1 <= i < |s| ==> s[(i - 1) / 2].expire <= s[i].expire
  }

  /** A heap, but for the pairs that involve the position `hole`. */
  ghost predicate IsHeapAround(s: seq<Timer>, hole: nat) {
    forall i {:trigger s[i]} :: 1 <= i < |s| && i != hole && (i - 1) / 2 != hole ==> s[(i - 1) / 2].expire <= s[i].expire
  }

  /** The children of the hole are in order with the parent of the hole. */
  ghost predicate BridgesHole(s: seq<Timer>, hole: nat)
    requires hole < |s|
  {
    forall i :: 1 <= i < |s| && (i - 1) / 2 == hole && hole > 0 ==> s[(hole - 1) / 2].expire <= s[i].expire
  }

  /** The front of a heap expires first. */
  lemma {:induction false} FrontIsLeast(s: seq<Timer>, i: nat)
    requires IsHeap(s) && i < |s|
    ensures s[0].expire <= s[i].expire
  {
    if i > 0 {
      FrontIsLeast(s, (i - 1) / 2);
    }
  }

  /** Moving the hole from `i` to `j` loses no timer. */
  lemma MoveHole(s: seq<Timer>, i: nat, j: nat, value: Timer)
    requires i < |s| && j < |s| && i != j
    ensures multiset(s[i := s[j]][j := value]) == multiset(s[i := value])
  {
  }

  /** Moving the earlier child of the hole into it keeps the order around the hole. */
  lemma LowerHole(s: seq<Timer>, hole: nat, child: nat)
    requires hole < child < |s| && (child == 2 * hole + 1 || child == 2 * hole + 2)
    requires s[child].expire <= s[2 * hole + 1].expire
    requires 2 * hole + 2 < |s| ==> s[child].expire <= s[2 * hole + 2].expire
    requires IsHeapAround(s, hole) && BridgesHole(s, hole)
    ensures IsHeapAround(s[hole := s[child]], child) && BridgesHole(s[hole := s[child]], child)
  {
    var r := s[hole := s[child]];
    forall i {:trigger r[i]} | 1 <= i < |r| && i != child && (i - 1) / 2 != child
      ensures r[(i - 1) / 2].expire <= r[i].expire
    {
      hide IsHeapAround, BridgesHole;
      LowerHoleAt(s, hole, child, i);
    }
    LowerHoleBridges(s, hole, child);
  }

  lemma LowerHoleBridges(s: seq<Timer>, hole: nat, child: nat)
    requires hole < child < |s| && (child == 2 * hole + 1 || child == 2 * hole + 2)
    requires IsHeapAround(s, hole)
    ensures BridgesHole(s[hole := s[child]], child)
  {
  }

  lemma LowerHoleAt(s: seq<Timer>, hole: nat, child: nat, i: nat)
    requires hole < child < |s| && (child == 2 * hole + 1 || child == 2 * hole + 2)
    requires s[child].expire <= s[2 * hole + 1].expire
    requires 2 * hole + 2 < |s| ==> s[child].expire <= s[2 * hole + 2].expire
    requires IsHeapAround(s, hole) && BridgesHole(s, hole)
    requires 1 <= i < |s| && i != child && (i - 1) / 2 != child
    ensures s[hole := s[child]][(i - 1) / 2].expire <= s[hole := s[child]][i].expire
  {
    var parent := (i - 1) / 2;
    assert (child - 1) / 2 == hole;
    if i == hole {
      assert s[parent].expire <= s[child].expire;
    } else if parent == hole {
      assert i == 2 * hole + 1 || i == 2 * hole + 2;
    }
  }

  /** Moving the parent of the hole into it keeps the order around the hole. */
  lemma RaiseHole(s: seq<Timer>, hole: nat)
    requires 0 < hole < |s|
    requires IsHeapAround(s, hole) && BridgesHole(s, hole)
    ensures IsHeapAround(s[hole := s[(hole - 1) / 2]], (hole - 1) / 2)
    ensures BridgesHole(s[hole := s[(hole - 1) / 2]], (hole - 1) / 2)
  {
  }

  /** Carries `value` up from the leaf position `start`. */
  method SiftUp(s: seq<Timer>, start: nat, value: Timer) returns (r: seq<Timer>)
    requires start < |s| <= 2 * start + 1
    requires IsHeapAround(s, start)
    ensures |r| == |s| && IsHeap(r)
    ensures multiset(r) == multiset(s[start := value])
    ensures start > 0 && s[0].expire <= value.expire ==> r[0] == s[0]
  {
    r := s;
    var hole: nat := start;
    while hole > 0 && value.expire < r[(hole - 1) / 2].expire
      invariant hole < |r| == |s|
      invariant multiset(r[hole := value]) == multiset(s[start := value])
      invariant IsHeapAround(r, hole) && BridgesHole(r, hole)
      invariant forall i :: 1 <= i < |r| && (i - 1) / 2 == hole ==> value.expire <= r[i].expire
      invariant hole > 0 ==> r[0] == s[0]
      invariant start > 0 && s[0].expire <= value.expire ==> hole > 0
    {
      var parent := (hole - 1) / 2;
      MoveHole(r, hole, parent, value);
      RaiseHole(r, hole);
      r := r[hole := r[parent]];
      hole := parent;
    }
    r := r[hole := value];
  }

  /** The child that expires first; the right one on a tie. */
  function EarlierChild(s: seq<Timer>, hole: nat): (child: nat)
    requires 2 * hole + 2 < |s|
    ensures child == 2 * hole + 1 || child == 2 * hole + 2
    ensures s[child].expire <= s[2 * hole + 1].expire && s[child].expire <= s[2 * hole + 2].expire
  {
    var right := 2 * (hole + 1);
    if s[right - 1].expire < s[right].expire then right - 1 else right
  }

  /** Moves the hole from the root down to a leaf. */
  method LowerToLeaf(s: seq<Timer>, ghost value: Timer) returns (r: seq<Timer>, hole: nat)
    requires |s| > 0 && IsHeapAround(s, 0)
    ensures hole < |r| == |s| <= 2 * hole + 1
    ensures IsHeapAround(r, hole)
    ensures multiset(r[hole := value]) == multiset(s[0 := value])
  {
    r, hole := s, 0;
    while hole < (|s| - 1) / 2
      invariant hole < |r| == |s|
      invariant multiset(r[hole := value]) == multiset(s[0 := value])
      invariant IsHeapAround(r, hole) && BridgesHole(r, hole)
    {
      var child := EarlierChild(r, hole);
      MoveHole(r, hole, child, value);
      LowerHole(r, hole, child);
      r, hole := r[hole := r[child]], child;
    }
    if |s| % 2 == 0 && hole == (|s| - 2) / 2 {
      var child := 2 * hole + 1;
      MoveHole(r, hole, child, value);
      LowerHole(r, hole, child);
      r, hole := r[hole := r[child]], child;
    }
  }

  /** Fills the hole at the root, then places `value`. */
  method AdjustHeap(s: seq<Timer>, value: Timer) returns (r: seq<Timer>)
    requires |s| > 0 && IsHeapAround(s, 0)
    ensures |r| == |s| && IsHeap(r)
    ensures multiset(r) == multiset(s[0 := value])
  {
    var lowered, hole := LowerToLeaf(s, value);
    r := SiftUp(lowered, hole, value);
  }

  /** Places the last timer. Timers equal to or later than the front leave the front alone. */
  method PushHeap(s: seq<Timer>) returns (r: seq<Timer>)
    requires |s| > 0 && IsHeap(s[..|s| - 1])
    ensures |r| == |s| && IsHeap(r)
    ensures multiset(r) == multiset(s)
    ensures |s| > 1 && s[0].expire <= s[|s| - 1].expire ==> r[0] == s[0]
  {
    var last := |s| - 1;
    assert forall i {:trigger s[i]} :: 1 <= i < last ==> s[i] == s[..last][i] && s[(i - 1) / 2] == s[..last][(i - 1) / 2];
    r := SiftUp(s, last, s[last]);
    assert s[last := s[last]] == s;
  }

  /** Moves the front to the end. The key of the front is never read, so it
      may have been raised beforehand. */
  method PopHeap(s: seq<Timer>) returns (r: seq<Timer>)
    requires |s| > 0 && IsHeapAround(s, 0)
    ensures |r| == |s| && IsHeap(r[..|s| - 1])
    ensures r[|s| - 1] == s[0]
    ensures multiset(r) == multiset(s)
  {
    if |s| == 1 {
      return s;
    }
    var last := |s| - 1;
    var body := AdjustHeap(s[..last], s[last]);
    r := body + [s[0]];
    assert s == s[..last] + [s[last]];
    assert r[..last] == body;
  }
}
