/**
 * The binary heap behind the work queue: lib/data-struture/heap/Heap.js and MinHeap.js with
 * the comparison by priority of lib/data-struture/priority-queue/PriorityQueue.js.
 *
 * Items stand for objects, which the priorities map tells apart by identity.
 */
module PriorityQueues {
  import opened Wrappers

  type Item = nat

  function Parent(i: int): int { (i - 1) / 2 }

  function Left(i: int): int { 2 * i + 1 }

  function Right(i: int): int { 2 * i + 2 }

  /** Every item has a priority. */
  predicate Known(s: seq<Item>, pri: map<Item, int>) {
    forall k | 0 <= k < |s| :: s[k] in pri
  }

  /** An item below the root is in order with its parent. */
  predicate InOrder(s: seq<Item>, pri: map<Item, int>, i: nat)
    requires Known(s, pri) && 0 < i < |s|
  {
    pri[s[Parent(i)]] <= pri[s[i]]
  }

  predicate IsHeap(s: seq<Item>, pri: map<Item, int>)
    requires Known(s, pri)
  {
    forall i | 0 < i < |s| :: InOrder(s, pri, i)
  }

  /** The children of k are in order with k's parent. */
  predicate SkipsOver(s: seq<Item>, pri: map<Item, int>, k: nat)
    requires Known(s, pri)
  {
    forall i | 0 < i < |s| && Parent(i) == k > 0 :: pri[s[Parent(k)]] <= pri[s[i]]
  }

  /** A heap but for the item at k, which may be smaller than its parent. */
  predicate HeapBelow(s: seq<Item>, pri: map<Item, int>, k: nat)
    requires Known(s, pri)
  {
    (forall i | 0 < i < |s| && i != k :: InOrder(s, pri, i)) && SkipsOver(s, pri, k)
  }

  /** A heap but for the item at k, which may be greater than its children. */
  predicate HeapAbove(s: seq<Item>, pri: map<Item, int>, k: nat)
    requires Known(s, pri)
  {
    (forall i | 0 < i < |s| && Parent(i) != k :: InOrder(s, pri, i)) && SkipsOver(s, pri, k)
  }

  function Swapped(s: seq<Item>, i: nat, j: nat): (r: seq<Item>)
    requires i < |s| && j < |s|
    ensures |r| == |s|
  {
    s[i := s[j]][j := s[i]]
  }

  lemma SwapKeepsItems(s: seq<Item>, i: nat, j: nat)
    requires i < |s| && j < |s|
    ensures multiset(Swapped(s, i, j)) == multiset(s)
  {
  }

  /** In a heap the root has the least priority. */
  lemma {:induction false} RootIsLeast(s: seq<Item>, pri: map<Item, int>, i: nat)
    requires Known(s, pri) && IsHeap(s, pri) && i < |s|
    ensures pri[s[0]] <= pri[s[i]]
  {
    if i > 0 {
      assert InOrder(s, pri, i);
      RootIsLeast(s, pri, Parent(i));
    }
  }

  lemma UpStep(s: seq<Item>, pri: map<Item, int>, k: nat)
    requires Known(s, pri) && 0 < k < |s| && HeapBelow(s, pri, k) && !InOrder(s, pri, k)
    ensures Known(Swapped(s, k, Parent(k)), pri) && HeapBelow(Swapped(s, k, Parent(k)), pri, Parent(k))
  {
    var p := Parent(k);
    var t := Swapped(s, k, p);
    forall i | 0 < i < |t| && i != p ensures InOrder(t, pri, i) {
      if i != k { assert InOrder(s, pri, i); }
    }
    if p > 0 {
      assert InOrder(s, pri, p);
      forall i | 0 < i < |t| && Parent(i) == p ensures pri[t[Parent(p)]] <= pri[t[i]] {
        if i != k { assert InOrder(s, pri, i); }
      }
    }
  }

  lemma UpDone(s: seq<Item>, pri: map<Item, int>, k: nat)
    requires Known(s, pri) && HeapBelow(s, pri, k) && k < |s| && (k > 0 ==> InOrder(s, pri, k))
    ensures IsHeap(s, pri)
  {
  }

  /** c is the child of k that heapifyDown compares it with: the right one unless the left is smaller. */
  predicate SmallerChild(s: seq<Item>, pri: map<Item, int>, k: nat, c: nat)
    requires Known(s, pri)
  {
    && Left(k) < |s|
    && if Right(k) < |s| && pri[s[Right(k)]] <= pri[s[Left(k)]] then c == Right(k) else c == Left(k)
  }

  lemma ChildrenOf(k: nat, i: nat)
    requires i > 0
    ensures Parent(i) == k <==> i == Left(k) || i == Right(k)
  {
  }

  lemma DownStep(s: seq<Item>, pri: map<Item, int>, k: nat, c: nat)
    requires Known(s, pri) && HeapAbove(s, pri, k) && k < |s|
    requires SmallerChild(s, pri, k, c) && pri[s[c]] < pri[s[k]]
    ensures k < c < |s|
    ensures Known(Swapped(s, k, c), pri) && HeapAbove(Swapped(s, k, c), pri, c)
  {
    var t := Swapped(s, k, c);
    ChildrenOf(k, c);
    forall i | 0 < i < |t| && Parent(i) != c ensures InOrder(t, pri, i) {
      if i != k && Parent(i) != k { assert InOrder(s, pri, i); }
      ChildrenOf(k, i);
    }
    forall i | 0 < i < |t| && Parent(i) == c ensures pri[t[k]] <= pri[t[i]] {
      assert InOrder(s, pri, i);
    }
  }

  lemma DownDone(s: seq<Item>, pri: map<Item, int>, k: nat)
    requires Known(s, pri) && HeapAbove(s, pri, k) && k < |s|
    requires Left(k) >= |s| || exists c: nat :: SmallerChild(s, pri, k, c) && c < |s| && pri[s[k]] <= pri[s[c]]
    ensures IsHeap(s, pri)
  {
    forall i | 0 < i < |s| ensures InOrder(s, pri, i) { ChildrenOf(k, i); }
  }

  lemma PopKeepsHeap(s: seq<Item>, pri: map<Item, int>)
    requires Known(s, pri) && IsHeap(s, pri) && s != []
    ensures Known(s[..|s| - 1], pri) && IsHeap(s[..|s| - 1], pri)
  {
    var t := s[..|s| - 1];
    forall i | 0 < i < |t| ensures InOrder(t, pri, i) {
      assert InOrder(s, pri, i);
    }
  }

  /** The item moved into position k leaves a heap but for that position. */
  lemma ReplacedAt(s: seq<Item>, pri: map<Item, int>, k: nat, x: Item)
    requires Known(s, pri) && IsHeap(s, pri) && k < |s| && x in pri
    ensures (var t := s[k := x];
             && Known(t, pri)
             && (k == 0 || InOrder(t, pri, k) ==> HeapAbove(t, pri, k))
             && (Left(k) >= |s| || (k > 0 && !InOrder(t, pri, k)) ==> HeapBelow(t, pri, k)))
  {
    var t := s[k := x];
    forall i | 0 < i < |t| && i != k && Parent(i) != k ensures InOrder(t, pri, i) {
      assert InOrder(s, pri, i);
    }
    forall i | 0 < i < |t| && Parent(i) == k > 0 ensures pri[t[Parent(k)]] <= pri[t[i]] {
      assert InOrder(s, pri, i) && InOrder(s, pri, k);
    }
    if k > 0 && !InOrder(t, pri, k) {
      forall i | 0 < i < |t| && Parent(i) == k ensures InOrder(t, pri, i) {
        assert InOrder(s, pri, i) && InOrder(s, pri, k);
      }
    }
  }

  lemma AddedBelow(s: seq<Item>, pri: map<Item, int>, x: Item, p: int)
    requires Known(s, pri) && IsHeap(s, pri) && x !in s
    ensures (var t, pri' := s + [x], pri[x := p]; Known(t, pri') && HeapBelow(t, pri', |s|))
  {
    var t, pri' := s + [x], pri[x := p];
    forall i | 0 < i < |t| && i != |s| ensures InOrder(t, pri', i) {
      assert InOrder(s, pri, i) && s[i] != x && s[Parent(i)] != x;
    }
  }

  /** The last item put in the place of the one at i: that one is gone. */
  lemma MovedInto(s: seq<Item>, i: nat)
    requires i < |s| - 1
    ensures multiset(s[..|s| - 1][i := s[|s| - 1]]) == multiset(s) - multiset{s[i]}
  {
    assert s == s[..|s| - 1] + [s[|s| - 1]];
  }

  // ---------------------------------------------------------------- counting items by priority

  predicate HasPriority(pri: map<Item, int>, x: Item, p: Option<int>) {
    x in pri && p == Some(pri[x])
  }

  function Count(s: seq<Item>, pri: map<Item, int>, p: Option<int>): nat {
    if s == [] then 0 else Count(s[..|s| - 1], pri, p) + if HasPriority(pri, s[|s| - 1], p) then 1 else 0
  }

  lemma LastCounted(s: seq<Item>, pri: map<Item, int>, p: Option<int>)
    requires s != []
    ensures Count(s, pri, p) == Count(s[..|s| - 1], pri, p) + if HasPriority(pri, s[|s| - 1], p) then 1 else 0
  {
  }

  lemma LastStays(s: seq<Item>, j: nat)
    requires j < |s| - 1
    ensures (var t, front := s[..j] + s[j + 1..], s[..|s| - 1];
             t != [] && t[|t| - 1] == s[|s| - 1] && t[..|t| - 1] == front[..j] + front[j + 1..] && front[j] == s[j])
  {
  }

  lemma {:induction false} CountWithout(s: seq<Item>, pri: map<Item, int>, p: Option<int>, j: nat)
    requires j < |s|
    ensures Count(s, pri, p) == Count(s[..j] + s[j + 1..], pri, p) + if HasPriority(pri, s[j], p) then 1 else 0
  {
    hide Count, HasPriority;
    var n := |s| - 1;
    LastCounted(s, pri, p);
    if j == n {
      assert s[..j] + s[j + 1..] == s[..n];
    } else {
      CountWithout(s[..n], pri, p, j);
      LastStays(s, j);
      LastCounted(s[..j] + s[j + 1..], pri, p);
    }
  }

  lemma {:induction false} CountOfPermutation(s: seq<Item>, t: seq<Item>, pri: map<Item, int>, p: Option<int>)
    requires multiset(s) == multiset(t)
    ensures Count(s, pri, p) == Count(t, pri, p)
  {
    hide HasPriority, Count;
    if s == [] {
      assert |multiset(t)| == 0;
    } else {
      var n := |s| - 1;
      assert s[n] in multiset(s);
      CountWithout(s, pri, p, n);
      var j :| 0 <= j < |t| && t[j] == s[n];
      CountWithout(t, pri, p, j);
      TakenOut(s, n);
      TakenOut(t, j);
      assert s[..n] + s[n + 1..] == s[..n];
      CountOfPermutation(s[..n], t[..j] + t[j + 1..], pri, p);
    }
  }

  lemma TakenOut(t: seq<Item>, j: nat)
    requires j < |t|
    ensures multiset(t[..j] + t[j + 1..]) == multiset(t) - multiset{t[j]}
  {
    assert t == t[..j] + [t[j]] + t[j + 1..];
  }

  /** One item less, and one match less when it matched. */
  lemma CountRemoved(s: seq<Item>, t: seq<Item>, x: Item, pri: map<Item, int>, p: Option<int>)
    requires x in multiset(s) && multiset(t) == multiset(s) - multiset{x}
    ensures Count(s, pri, p) == Count(t, pri, p) + if HasPriority(pri, x, p) then 1 else 0
  {
    CountOfPermutation(s, t + [x], pri, p);
    assert (t + [x])[..|t|] == t;
  }

  lemma {:induction false} NoneCounted(s: seq<Item>, pri: map<Item, int>, p: Option<int>)
    requires Count(s, pri, p) == 0
    ensures forall x | x in s :: !HasPriority(pri, x, p)
  {
    if s != [] {
      NoneCounted(s[..|s| - 1], pri, p);
    }
  }

  class PriorityQueue {
    var heapContainer: seq<Item>
    var priorities: map<Item, int>

    predicate Valid()
      reads this
    {
      Known(heapContainer, priorities) && IsHeap(heapContainer, priorities)
    }

    constructor ()
      ensures Valid() && heapContainer == [] && priorities == map[]
    {
      heapContainer, priorities := [], map[];
    }

    /** pairIsInCorrectOrder, for the items at two positions. */
    predicate PairIsInCorrectOrder(i: nat, j: nat)
      requires Known(heapContainer, priorities) && i < |heapContainer| && j < |heapContainer|
      reads this
    {
      priorities[heapContainer[i]] <= priorities[heapContainer[j]]
    }

    method Swap(i: nat, j: nat)
      requires i < |heapContainer| && j < |heapContainer|
      modifies `heapContainer
      ensures heapContainer == Swapped(old(heapContainer), i, j)
    {
      var tmp := heapContainer[j];
      heapContainer := heapContainer[j := heapContainer[i]];
      heapContainer := heapContainer[i := tmp];
    }

    /** A start of 0 counts as none given, and then it is the last position. */
    method HeapifyUp(customStartIndex: nat)
      requires Known(heapContainer, priorities) && heapContainer != []
      requires (var k := if customStartIndex == 0 then |heapContainer| - 1 else customStartIndex;
                k < |heapContainer| && HeapBelow(heapContainer, priorities, k))
      modifies `heapContainer
      ensures Valid() && multiset(heapContainer) == old(multiset(heapContainer))
    {
      hide HeapBelow, IsHeap, Swapped;
      var currentIndex := if customStartIndex == 0 then |heapContainer| - 1 else customStartIndex;
      while Parent(currentIndex) >= 0 && !PairIsInCorrectOrder(Parent(currentIndex), currentIndex)
        invariant 0 <= currentIndex < |heapContainer| && Known(heapContainer, priorities)
        invariant HeapBelow(heapContainer, priorities, currentIndex)
        invariant multiset(heapContainer) == old(multiset(heapContainer))
        decreases currentIndex
      {
        UpStep(heapContainer, priorities, currentIndex);
        SwapKeepsItems(heapContainer, currentIndex, Parent(currentIndex));
        Swap(currentIndex, Parent(currentIndex));
        currentIndex := Parent(currentIndex);
      }
      UpDone(heapContainer, priorities, currentIndex);
    }

    method HeapifyDown(customStartIndex: nat)
      requires Known(heapContainer, priorities) && customStartIndex < |heapContainer|
      requires HeapAbove(heapContainer, priorities, customStartIndex)
      modifies `heapContainer
      ensures Valid() && multiset(heapContainer) == old(multiset(heapContainer))
    {
      hide HeapAbove, IsHeap, Swapped;
      var currentIndex := customStartIndex;
      while Left(currentIndex) < |heapContainer|
        invariant 0 <= currentIndex < |heapContainer| && Known(heapContainer, priorities)
        invariant HeapAbove(heapContainer, priorities, currentIndex)
        invariant multiset(heapContainer) == old(multiset(heapContainer))
        decreases |heapContainer| - currentIndex
      {
        var nextIndex := Left(currentIndex);
        if Right(currentIndex) < |heapContainer| && PairIsInCorrectOrder(Right(currentIndex), Left(currentIndex)) {
          nextIndex := Right(currentIndex);
        }
        assert SmallerChild(heapContainer, priorities, currentIndex, nextIndex);
        if PairIsInCorrectOrder(currentIndex, nextIndex) {
          break;
        }
        DownStep(heapContainer, priorities, currentIndex, nextIndex);
        SwapKeepsItems(heapContainer, currentIndex, nextIndex);
        Swap(currentIndex, nextIndex);
        currentIndex := nextIndex;
      }
      DownDone(heapContainer, priorities, currentIndex);
    }

    method Peek() returns (item: Option<Item>)
      requires Valid()
      ensures item == if heapContainer == [] then None else Some(heapContainer[0])
      ensures item.Some? ==> item.value in heapContainer
                             && forall x | x in heapContainer :: priorities[item.value] <= priorities[x]
    {
      if heapContainer == [] {
        return None;
      }
      forall x | x in heapContainer ensures priorities[heapContainer[0]] <= priorities[x] {
        var i :| 0 <= i < |heapContainer| && heapContainer[i] == x;
        RootIsLeast(heapContainer, priorities, i);
      }
      item := Some(heapContainer[0]);
    }

    /** The last element of the container, taken off its end. */
    method PopLast() returns (item: Item)
      requires Valid() && heapContainer != []
      modifies `heapContainer
      ensures Valid() && heapContainer == old(heapContainer[..|heapContainer| - 1])
      ensures item == old(heapContainer[|heapContainer| - 1])
    {
      PopKeepsHeap(heapContainer, priorities);
      item := heapContainer[|heapContainer| - 1];
      heapContainer := heapContainer[..|heapContainer| - 1];
    }

    method Poll() returns (item: Option<Item>)
      requires Valid()
      modifies `heapContainer
      ensures Valid()
      ensures old(heapContainer) == [] ==> item == None && heapContainer == []
      ensures old(heapContainer) != [] ==>
                && item.Some? && item.value in old(heapContainer)
                && multiset(heapContainer) == old(multiset(heapContainer)) - multiset{item.value}
                && forall x | x in old(heapContainer) :: priorities[item.value] <= priorities[x]
    {
      item := Peek();
      if item == None {
        return;
      }
      TakenOut(heapContainer, 0);
      if |heapContainer| == 1 {
        var _ := PopLast();
        return;
      }
      MovedInto(heapContainer, 0);
      var last := PopLast();
      ReplacedAt(heapContainer, priorities, 0, last);
      heapContainer := heapContainer[0 := last];
      HeapifyDown(0);
    }

    method Add(item: Item, priority: int)
      requires Valid() && item !in heapContainer
      modifies this
      ensures Valid() && priorities == old(priorities)[item := priority]
      ensures multiset(heapContainer) == old(multiset(heapContainer)) + multiset{item}
    {
      AddedBelow(heapContainer, priorities, item, priority);
      priorities := priorities[item := priority];
      heapContainer := heapContainer + [item];
      HeapifyUp(0);
    }

    /** The priority an item compares by; none for an item the map does not have. */
    function PriorityOf(item: Item): Option<int>
      reads this
    {
      if item in priorities then Some(priorities[item]) else None
    }

    /** find: the positions of the items that compare equal, which is to have the same priority. */
    method Find(item: Item) returns (found: seq<nat>)
      requires Valid()
      ensures |found| == Count(heapContainer, priorities, PriorityOf(item))
      ensures forall i | i in found ::
                i < |heapContainer| && HasPriority(priorities, heapContainer[i], PriorityOf(item))
    {
      found := [];
      for i := 0 to |heapContainer|
        invariant forall k | k in found :: k < i && HasPriority(priorities, heapContainer[k], PriorityOf(item))
        invariant |found| == Count(heapContainer[..i], priorities, PriorityOf(item))
      {
        assert heapContainer[..i + 1][..i] == heapContainer[..i];
        if PriorityOf(item) == PriorityOf(heapContainer[i]) {
          found := found + [i];
        }
      }
      assert heapContainer[..|heapContainer|] == heapContainer;
    }

    /** One turn of remove's loop. */
    method RemoveAt(indexToRemove: nat)
      requires Valid() && indexToRemove < |heapContainer|
      modifies `heapContainer
      ensures Valid()
      ensures multiset(heapContainer) == old(multiset(heapContainer)) - multiset{old(heapContainer[indexToRemove])}
    {
      hide IsHeap, HeapAbove, HeapBelow;
      if indexToRemove == |heapContainer| - 1 {
        TakenOut(heapContainer, indexToRemove);
        assert heapContainer[..indexToRemove] + heapContainer[indexToRemove + 1..] == heapContainer[..indexToRemove];
        var _ := PopLast();
      } else {
        MoveLastInto(indexToRemove);
      }
    }

    /** The last item takes the place of the removed one, and is sifted. */
    method MoveLastInto(index: nat)
      requires Valid() && index < |heapContainer| - 1
      modifies `heapContainer
      ensures Valid()
      ensures multiset(heapContainer) == old(multiset(heapContainer)) - multiset{old(heapContainer[index])}
    {
      hide IsHeap, HeapAbove, HeapBelow;
      MovedInto(heapContainer, index);
      var last := PopLast();
      ReplacedAt(heapContainer, priorities, index, last);
      heapContainer := heapContainer[index := last];
      Heapify(index);
    }

    /** Down from a position in order with its parent, else up. */
    method Heapify(index: nat)
      requires Known(heapContainer, priorities) && index < |heapContainer|
      requires index == 0 || PairIsInCorrectOrder(Parent(index), index) ==> HeapAbove(heapContainer, priorities, index)
      requires Left(index) >= |heapContainer| || (index > 0 && !PairIsInCorrectOrder(Parent(index), index)) ==>
                 HeapBelow(heapContainer, priorities, index)
      modifies `heapContainer
      ensures Valid() && multiset(heapContainer) == old(multiset(heapContainer))
    {
      hide IsHeap, HeapAbove, HeapBelow;
      if Left(index) < |heapContainer| && (index == 0 || PairIsInCorrectOrder(Parent(index), index)) {
        HeapifyDown(index);
      } else {
        assert index == 0 ==> |heapContainer| == 1;
        HeapifyUp(index);
      }
    }

    /** Removes every item of the same priority, and forgets the priority of this one. */
    method Remove(item: Item)
      requires Valid()
      modifies this
      ensures Valid() && priorities == old(priorities) - {item}
      ensures forall x :: multiset(heapContainer)[x] ==
                if HasPriority(old(priorities), x, old(PriorityOf(item))) then 0 else old(multiset(heapContainer))[x]
    {
      ghost var p := PriorityOf(item);
      var indices := Find(item);
      var numberOfItemsToRemove := |indices|;
      for iteration := 0 to numberOfItemsToRemove
        invariant Valid() && priorities == old(priorities)
        invariant Count(heapContainer, priorities, p) == numberOfItemsToRemove - iteration
        invariant forall x :: !HasPriority(priorities, x, p) ==>
                    multiset(heapContainer)[x] == old(multiset(heapContainer))[x]
      {
        var found := Find(item);
        var indexToRemove := found[|found| - 1];
        assert indexToRemove in found;
        ghost var was := heapContainer;
        RemoveAt(indexToRemove);
        CountRemoved(was, heapContainer, was[indexToRemove], priorities, p);
      }
      NoneCounted(heapContainer, priorities, p);
      ForgetPriority(item);
    }

    method ForgetPriority(item: Item)
      requires Valid() && item !in heapContainer
      modifies `priorities
      ensures Valid() && priorities == old(priorities) - {item}
    {
      ForgottenKeepsHeap(heapContainer, priorities, item);
      priorities := priorities - {item};
    }

    method IsEmpty() returns (b: bool)
      ensures b <==> heapContainer == []
    {
      b := |heapContainer| == 0;
    }
  }

  lemma ForgottenKeepsHeap(s: seq<Item>, pri: map<Item, int>, x: Item)
    requires Known(s, pri) && IsHeap(s, pri) && x !in s
    ensures Known(s, pri - {x}) && IsHeap(s, pri - {x})
  {
    forall i | 0 < i < |s| ensures Known(s, pri - {x}) && InOrder(s, pri - {x}, i) {
      assert InOrder(s, pri, i);
    }
  }
}
