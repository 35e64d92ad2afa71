/**
 * `AnimatedChecklist`: six progress items that are ticked off one per timer
 * tick, in order, until all are complete. The list of completed indices only
 * grows, and once full a tick leaves it as it is.
 */
module AnimatedChecklist {

  const CHECKLIST_ITEMS: seq<string> := [
    "Contract compilation successful",
    "Static analysis completed",
    "Vulnerability scan finished",
    "Gas optimization analysis done",
    "Security score calculated",
    "Report generation complete"
  ]

  /** The indices `0, 1, …, k - 1`. */
  function Upto(k: nat): (r: seq<nat>)
    ensures |r| == k && forall i :: 0 <= i < k ==> r[i] == i
  {
    seq(k, i => i)
  }

  /** The component's state: `completedItems`. */
  class Checklist {
    var completedItems: seq<nat>

    /** The completed items are the first ones, at most all six. */
    ghost predicate Valid()
      reads this
    {
      |completedItems| <= |CHECKLIST_ITEMS| && completedItems == Upto(|completedItems|)
    }

    /** `useState<number[]>([])`. */
    constructor()
      ensures Valid() && completedItems == []
    {
      completedItems := [];
    }

    /** One timer tick: append `prev.length` while fewer than all items are completed. */
    method Tick()
      requires Valid()
      modifies this
      ensures Valid()
      ensures |old(completedItems)| < |CHECKLIST_ITEMS| ==>
                completedItems == old(completedItems) + [|old(completedItems)|]
      ensures |old(completedItems)| >= |CHECKLIST_ITEMS| ==> completedItems == old(completedItems)
      ensures old(completedItems) <= completedItems
    {
      var prev := completedItems;
      if |prev| < |CHECKLIST_ITEMS| {
        completedItems := prev + [|prev|];
      } else {
        completedItems := prev;
      }
    }

    /** `completedItems.includes(index)`: item `index` is drawn as complete. */
    predicate IsComplete(index: nat)
      reads this
    {
      index in completedItems
    }

    /** `n` ticks of the timer. */
    method TickTimes(n: nat)
      requires Valid()
      modifies this
      ensures Valid()
      ensures |completedItems| == if |old(completedItems)| + n < |CHECKLIST_ITEMS|
                                  then |old(completedItems)| + n else |CHECKLIST_ITEMS|
      ensures old(completedItems) <= completedItems
    {
      var k := 0;
      while k < n
        invariant 0 <= k <= n
        invariant Valid()
        invariant old(completedItems) <= completedItems
        invariant |completedItems| == if |old(completedItems)| + k < |CHECKLIST_ITEMS|
                                       then |old(completedItems)| + k else |CHECKLIST_ITEMS|
      {
        Tick();
        k := k + 1;
      }
    }
  }

  /**
   * In a valid state, item `i` is drawn as complete exactly when `i` is below
   * the number of completed items: the completed items are always the first ones.
   */
  lemma CompleteIff(c: Checklist, i: nat)
    requires c.Valid()
    ensures c.IsComplete(i) <==> i < |c.completedItems|
  {
    if i < |c.completedItems| {
      assert c.completedItems[i] == i;
    }
  }

  /** From a fresh checklist, six ticks complete every item, and further ticks change nothing. */
  method ProgressToEnd() returns (c: Checklist)
    ensures c.Valid()
    ensures forall i: nat :: i < |CHECKLIST_ITEMS| ==> c.IsComplete(i)
    ensures |c.completedItems| == |CHECKLIST_ITEMS|
  {
    c := new Checklist();
    c.TickTimes(6);
    var before := c.completedItems;
    c.Tick();
    assert c.completedItems == before;
    forall i: nat | i < |CHECKLIST_ITEMS|
      ensures c.IsComplete(i)
    {
      CompleteIff(c, i);
    }
  }
}
