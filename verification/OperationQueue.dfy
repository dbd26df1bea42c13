/** OperationQueue: a bounded FIFO that evicts its oldest waiting operation, and its worker's end of it. */
module OperationQueue {
  import opened Options

  /** What became of an operation that has left the list. */
  datatype Fate = Executed | Evicted | Discarded

  /** The operations with a certain fate, in the order they left the list. */
  function WithFate<T>(accepted: seq<T>, fates: seq<Fate>, f: Fate): seq<T>
    requires |fates| <= |accepted|
  {
    if fates == [] then []
    else
      var last := |fates| - 1;
      WithFate(accepted, fates[..last], f) + if fates[last] == f then [accepted[last]] else []
  }

  lemma {:induction false} WithFateStep<T>(accepted: seq<T>, fates: seq<Fate>, f: Fate, g: Fate)
    requires |fates| < |accepted|
    ensures WithFate(accepted, fates + [g], f) ==
            WithFate(accepted, fates, f) + if g == f then [accepted[|fates|]] else []
  {
    assert (fates + [g])[..|fates|] == fates;
  }

  /** Accepting a further operation changes nothing about those that have left. */
  lemma {:induction false} WithFateOfPrefix<T>(accepted: seq<T>, op: T, fates: seq<Fate>, f: Fate)
    requires |fates| <= |accepted|
    ensures WithFate(accepted + [op], fates, f) == WithFate(accepted, fates, f)
  {
    if fates == [] {
    } else {
      WithFateOfPrefix(accepted, op, fates[..|fates| - 1], f);
    }
  }

  lemma {:induction false} NoneWithFate<T>(accepted: seq<T>, fates: seq<Fate>, n: nat, f: Fate, g: Fate)
    requires |fates| + n <= |accepted| && f != g
    ensures WithFate(accepted, fates + seq(n, _ => g), f) == WithFate(accepted, fates, f)
  {
    if n == 0 {
      assert fates + seq(n, _ => g) == fates;
    } else {
      NoneWithFate(accepted, fates, n - 1, f, g);
      WithFateStep(accepted, fates + seq(n - 1, _ => g), f, g);
      assert fates + seq(n, _ => g) == (fates + seq(n - 1, _ => g)) + [g];
    }
  }

  /** The list as the worker sees it: oldest first. */
  function BackToFront<T>(list: seq<T>): (r: seq<T>)
    ensures |r| == |list|
  {
    seq(|list|, i requires 0 <= i < |list| => list[|list| - 1 - i])
  }

  lemma PushFront<T>(list: seq<T>, op: T)
    ensures BackToFront([op] + list) == BackToFront(list) + [op]
  {
  }

  lemma PopBack<T>(list: seq<T>)
    requires list != []
    ensures BackToFront(list) == [list[|list| - 1]] + BackToFront(list[..|list| - 1])
  {
  }

  class OperationQueue<T> {
    const maxCount: nat := 100
    var opList: seq<T>              // newest first
    var isRunning: bool
    ghost var accepted: seq<T>      // every push that returned true
    ghost var fates: seq<Fate>      // of the accepted operations that have left the list, oldest first
    ghost var popped: seq<T>        // what Pop has returned

    /**
     * Read from back to front, the list is the accepted operations that have no fate yet: a suffix.
     * What Pop has returned is the executed ones.
     */
    ghost predicate Valid()
      reads this
    {
      && |opList| <= maxCount
      && |fates| <= |accepted|
      && accepted[|fates|..] == BackToFront(opList)
      && popped == WithFate(accepted, fates, Executed)
      && (!isRunning ==> opList == [])
    }

    constructor ()
      ensures Valid() && !isRunning && accepted == [] && fates == [] && popped == []
    {
      opList, isRunning, accepted, fates, popped := [], false, [], [], [];
    }

    method Run()
      requires Valid()
      modifies this
      ensures Valid() && isRunning && opList == old(opList)
      ensures accepted == old(accepted) && fates == old(fates) && popped == old(popped)
    {
      isRunning := true;
    }

    /** Whatever still waits is discarded; on a queue that is not running nothing happens. */
    method Stop()
      requires Valid()
      modifies this
      ensures Valid() && !isRunning && opList == [] && accepted == old(accepted) && popped == old(popped)
      ensures fates == old(fates) + seq(|old(opList)|, _ => Discarded)
    {
      if !isRunning {
        return;
      }
      isRunning := false;
      NoneWithFate(accepted, fates, |opList|, Executed, Discarded);
      fates := fates + seq(|opList|, _ => Discarded);
      opList := [];
    }

    method Push(op: T) returns (ok: bool)
      requires Valid()
      modifies this
      ensures Valid() && ok == old(isRunning) && isRunning == old(isRunning) && popped == old(popped)
      ensures accepted == if ok then old(accepted) + [op] else old(accepted)
      ensures fates == if ok && |old(opList)| == 100 then old(fates) + [Evicted] else old(fates)
      ensures ok ==> |opList| > 0 && opList[0] == op
    {
      if !isRunning {
        return false;
      }
      if |opList| >= maxCount {
        PopBack(opList);
        WithFateStep(accepted, fates, Executed, Evicted);
        opList := opList[..|opList| - 1];
        fates := fates + [Evicted];
      }
      PushFront(opList, op);
      WithFateOfPrefix(accepted, op, fates, Executed);
      opList := [op] + opList;
      accepted := accepted + [op];
      return true;
    }

    /** The worker takes the oldest waiting operation. */
    method Pop() returns (op: Option<T>)
      requires Valid()
      modifies this
      ensures Valid() && isRunning == old(isRunning) && accepted == old(accepted)
      ensures old(opList) == [] ==> op == None && fates == old(fates) && popped == old(popped) && opList == []
      ensures old(opList) != [] ==>
                && op == Some(accepted[|old(fates)|]) && fates == old(fates) + [Executed]
                && popped == old(popped) + [op.value] && opList == old(opList)[..|old(opList)| - 1]
    {
      if opList == [] {
        return None;
      }
      PopBack(opList);
      WithFateStep(accepted, fates, Executed, Executed);
      op := Some(opList[|opList| - 1]);
      popped := popped + [op.value];
      opList := opList[..|opList| - 1];
      fates := fates + [Executed];
    }
  }

  /** Where in the push order the i-th operation with some fate stands. */
  lemma {:induction false} WithFateFrom<T>(accepted: seq<T>, fates: seq<Fate>, f: Fate, i: nat) returns (p: nat)
    requires |fates| <= |accepted| && i < |WithFate(accepted, fates, f)|
    ensures p < |fates| && fates[p] == f && accepted[p] == WithFate(accepted, fates, f)[i]
  {
    var last := |fates| - 1;
    if i < |WithFate(accepted, fates[..last], f)| {
      p := WithFateFrom(accepted, fates[..last], f, i);
    } else {
      p := last;
    }
  }

  lemma {:induction false} WithFateInOrder<T>(accepted: seq<T>, fates: seq<Fate>, f: Fate, i: nat, k: nat)
    returns (p: nat, q: nat)
    requires |fates| <= |accepted| && i < k < |WithFate(accepted, fates, f)|
    ensures p < q < |fates| && fates[p] == f && fates[q] == f
    ensures accepted[p] == WithFate(accepted, fates, f)[i] && accepted[q] == WithFate(accepted, fates, f)[k]
  {
    var last := |fates| - 1;
    if k < |WithFate(accepted, fates[..last], f)| {
      p, q := WithFateInOrder(accepted, fates[..last], f, i, k);
    } else {
      q := last;
      p := WithFateFrom(accepted, fates[..last], f, i);
    }
  }

  /** Whatever Pop returned earlier was pushed earlier. */
  lemma {:induction false} ExecutedInPushOrder<T>(queue: OperationQueue<T>, i: nat, k: nat) returns (p: nat, q: nat)
    requires queue.Valid() && i < k < |queue.popped|
    ensures p < q < |queue.accepted|
    ensures queue.accepted[p] == queue.popped[i] && queue.accepted[q] == queue.popped[k]
  {
    p, q := WithFateInOrder(queue.accepted, queue.fates, Executed, i, k);
  }

  /** What one operation adds to those with fate f. */
  ghost function Share<T>(op: T, fate: Fate, f: Fate): multiset<T> {
    if fate == f then multiset{op} else multiset{}
  }

  lemma WithFateElements<T>(accepted: seq<T>, fates: seq<Fate>, f: Fate)
    requires 0 < |fates| <= |accepted|
    ensures
      var last := |fates| - 1;
      multiset(WithFate(accepted, fates, f)) ==
      multiset(WithFate(accepted, fates[..last], f)) + Share(accepted[last], fates[last], f)
  {
  }

  lemma SharesAddUp<T>(executed: multiset<T>, evicted: multiset<T>, discarded: multiset<T>, op: T, fate: Fate)
    ensures executed + evicted + discarded + multiset{op} ==
            (executed + Share(op, fate, Executed)) + (evicted + Share(op, fate, Evicted)) +
            (discarded + Share(op, fate, Discarded))
  {
  }

  lemma {:induction false} FatesPartition<T>(accepted: seq<T>, fates: seq<Fate>)
    requires |fates| <= |accepted|
    ensures multiset(accepted[..|fates|]) ==
            multiset(WithFate(accepted, fates, Executed)) + multiset(WithFate(accepted, fates, Evicted)) +
            multiset(WithFate(accepted, fates, Discarded))
  {
    if fates == [] {
    } else {
      var last, front := |fates| - 1, fates[..|fates| - 1];
      FatesPartition(accepted, front);
      assert accepted[..|fates|] == accepted[..last] + [accepted[last]];
      WithFateElements(accepted, fates, Executed);
      WithFateElements(accepted, fates, Evicted);
      WithFateElements(accepted, fates, Discarded);
      SharesAddUp(multiset(WithFate(accepted, front, Executed)), multiset(WithFate(accepted, front, Evicted)),
                  multiset(WithFate(accepted, front, Discarded)), accepted[last], fates[last]);
    }
  }

  lemma {:induction false} SameBackToFront<T>(list: seq<T>)
    ensures multiset(BackToFront(list)) == multiset(list)
  {
    if list == [] {
    } else {
      var last := |list| - 1;
      PopBack(list);
      SameBackToFront(list[..last]);
      assert list == list[..last] + [list[last]];
    }
  }

  /** No operation is lost or taken twice: popped, evicted, discarded and waiting ones make up the accepted. */
  lemma {:induction false} EveryOperationAccountedFor<T>(queue: OperationQueue<T>)
    requires queue.Valid()
    ensures multiset(queue.accepted) ==
            multiset(queue.popped) + multiset(WithFate(queue.accepted, queue.fates, Evicted)) +
            multiset(WithFate(queue.accepted, queue.fates, Discarded)) + multiset(queue.opList)
  {
    FatesPartition(queue.accepted, queue.fates);
    SameBackToFront(queue.opList);
    assert queue.accepted == queue.accepted[..|queue.fates|] + queue.accepted[|queue.fates|..];
  }
}
