/** The ring buffer of micro-operations, updated in place. */
module OpQueues {
  import opened CpuTypes

  const SLOTS := 8

  /** Slot `i` of a queue that starts at `head`. */
  function Slot(head: nat, i: nat): (s: nat)
    ensures s < SLOTS
  {
    (head + i) % SLOTS
  }

  lemma SlotsApart(head: nat, i: nat, j: nat)
    requires i < SLOTS && j < SLOTS && i != j
    ensures Slot(head, i) != Slot(head, j)
  {
  }

  lemma SlotNext(head: nat, i: nat)
    ensures Slot((head + 1) % SLOTS, i) == Slot(head, i + 1)
  {
  }

  class OpQueue {
    const data: array<Option<MicroOp>>
    var head: nat
    var len: nat

    predicate Valid()
      reads this, data
    {
      && data.Length == SLOTS && head < SLOTS && len <= SLOTS
      && forall i {:trigger data[Slot(head, i)]} :: 0 <= i < len ==> data[Slot(head, i)].Some?
    }

    /** The waiting micro-operations, the next one first. */
    function Contents(): (s: seq<MicroOp>)
      requires Valid()
      reads this, data
      ensures |s| == len
    {
      seq(len, i requires 0 <= i < len && Valid() reads this, data => data[Slot(head, i)].value)
    }

    constructor ()
      ensures Valid() && fresh(data) && Contents() == []
    {
      data := new Option<MicroOp>[SLOTS](_ => None);
      head := 0;
      len := 0;
    }

    method PushBack(value: MicroOp)
      requires Valid() && len < SLOTS
      modifies this, data
      ensures Valid() && Contents() == old(Contents()) + [value]
    {
      hide Slot;
      var tail := Slot(head, len);
      forall i | 0 <= i < len
        ensures Slot(head, i) != tail
      {
        SlotsApart(head, i, len);
      }
      data[tail] := Some(value);
      len := len + 1;
    }

    method PopFront() returns (value: Option<MicroOp>)
      requires Valid()
      modifies this, data
      ensures Valid()
      ensures if old(len) == 0 then value == None && Contents() == []
              else value == Some(old(Contents())[0]) && Contents() == old(Contents())[1..]
    {
      hide Slot;
      if len == 0 {
        return None;
      }
      assert Slot(head, 0) == head by { FirstSlot(head); }
      ghost var before := Contents();
      value := data[head];
      var next := (head + 1) % SLOTS;
      forall i {:trigger Slot(next, i)} | 0 <= i < len - 1
        ensures Slot(next, i) == Slot(head, i + 1) && Slot(head, i + 1) != head
      {
        SlotNext(head, i);
        SlotsApart(head, i + 1, 0);
      }
      ghost var slots := seq(len - 1, i requires 0 <= i < len - 1 && Valid() reads this, data => data[Slot(head, i + 1)]);
      data[head] := None;
      head := next;
      len := len - 1;
      assert forall i :: 0 <= i < len ==> data[Slot(head, i)] == slots[i];
      assert Contents() == before[1..];
    }

    /** Pushes a whole program. */
    method PushAll(ops: seq<MicroOp>)
      requires Valid() && len + |ops| <= SLOTS
      modifies this, data
      ensures Valid() && Contents() == old(Contents()) + ops
    {
      for i := 0 to |ops|
        invariant Valid() && Contents() == old(Contents()) + ops[..i]
      {
        PushBack(ops[i]);
      }
    }
  }

  lemma FirstSlot(head: nat)
    requires head < SLOTS
    ensures Slot(head, 0) == head
  {
  }
}
