/** The registry as it is kept in shared memory: counters, a slot array and the byte-buffer stack
    of free indices, updated in place. Each method is proved to do to the memory what the value
    operation of `Registry` does to the registry it represents. */
module SharedMemories {
  import opened Counting
  import opened Registry
  import opened ByteStacks

  /** Every element has the size of a C int. */
  predicate Words(elems: seq<seq<Byte>>) {
    forall i :: 0 <= i < |elems| ==> |elems[i]| == 4
  }

  function Ints(elems: seq<seq<Byte>>): (r: seq<int>)
    requires Words(elems)
    ensures |r| == |elems|
  {
    seq(|elems|, i requires 0 <= i < |elems| => BytesInt(elems[i]))
  }

  lemma IntsAppend(elems: seq<seq<Byte>>, e: seq<Byte>)
    requires Words(elems + [e])
    ensures Words(elems) && |e| == 4 && Ints(elems + [e]) == Ints(elems) + [BytesInt(e)]
  {
    var all := elems + [e];
    assert forall i :: 0 <= i < |elems| ==> elems[i] == all[i];
    assert e == all[|elems|];
  }

  lemma CountdownInts(capacity: nat)
    requires FitsInt(capacity)
    ensures Words(Countdown(capacity, capacity))
    ensures Ints(Countdown(capacity, capacity)) == seq(capacity, i => capacity - 1 - i)
  {
    var elems := Countdown(capacity, capacity);
    assert forall i :: 0 <= i < capacity ==> elems[i] == IntBytes(capacity - 1 - i);
    hide IntBytes, BytesInt;
    forall i | 0 <= i < capacity ensures Ints(elems)[i] == capacity - 1 - i {
      IntRoundTrip(capacity - 1 - i);
    }
  }

  class SharedMemory {
    var nextId: int
    var count: int
    var inBase: int
    var limit: int
    var reserving: int
    var lostSuicide: int
    var lostDecommissioned: int
    var lostPower: int
    var lostOther: int
    const slots: array<Slot>
    const stack: ByteStack

    ghost predicate Valid()
      reads this, stack, stack.data
    {
      && stack.Valid() && stack.elemSize == 4
      && stack.capacity == slots.Length
      && FitsInt(slots.Length)
      && Words(stack.Elements())
    }

    /** The registry this memory represents. */
    ghost function View(): Reg
      requires Valid()
      reads this, slots, stack, stack.data
    {
      Reg(nextId, count, inBase, limit, reserving, lostSuicide, lostDecommissioned, lostPower, lostOther,
          slots[..], Ints(stack.Elements()))
    }

    /** Start-up: zeroed slots, counters, and the seeded index stack. */
    constructor (capacity: nat, limit: int)
      requires capacity > 0 && FitsInt(capacity)
      ensures Valid() && View() == Initial(capacity, limit)
      ensures fresh(slots) && fresh(stack) && fresh(stack.data)
    {
      slots := new Slot[capacity](_ => Slot(0, 0, Undefined));
      stack := new ByteStack(BytesNeeded(capacity, 4));
      this.nextId, this.limit := 1, limit;
      count, inBase, reserving := 0, 0, 0;
      lostSuicide, lostDecommissioned, lostPower, lostOther := 0, 0, 0, 0;
      new;
      var ok := stack.Init(capacity, 4);
      SeedIndices(stack);
      CountdownInts(capacity);
      hide Ints, Countdown, Chunks;
    }

    method AddDrone(x: Slot) returns (out: int)
      requires Valid() && forall i :: i in View().free ==> 0 <= i < slots.Length
      modifies this`count, this`inBase, slots, stack`size
      ensures Valid() && (View(), out) == Add(old(View()), x)
    {
      var ok, bytes := stack.Pop();
      if !ok { return -1; }
      out := BytesInt(bytes);
      IntsAppend(stack.Elements(), bytes);
      hide Ints, BytesInt, Chunks;
      assert old(View()).free == Ints(stack.Elements()) + [out];
      assert out in old(View()).free;
      count := count + 1;
      if x.loc == Base { inBase := inBase + 1; }
      slots[out] := x;
    }

    method UpdateLocation(i: int, loc: Location)
      requires Valid() && 0 <= i < slots.Length
      modifies this`inBase, this`reserving, slots
      ensures Valid() && View() == Update(old(View()), i, loc)
    {
      var was := slots[i].loc;
      if was == Base { inBase := inBase - 1; }
      if was == Mission {
        inBase := inBase + 1;
        reserving := reserving - 1;
      }
      slots[i] := slots[i].(loc := loc);
    }

    method CountLost(reason: Reason)
      modifies this`lostPower, this`lostDecommissioned, this`lostSuicide, this`lostOther
      ensures lostPower == old(lostPower) + One(reason == OutOfPower)
      ensures lostDecommissioned == old(lostDecommissioned) + One(reason == Decommissioned)
      ensures lostSuicide == old(lostSuicide) + One(reason == Suicide)
      ensures lostOther == old(lostOther) + One(reason == Other)
    {
      match reason
      case OutOfPower => lostPower := lostPower + 1;
      case Decommissioned => lostDecommissioned := lostDecommissioned + 1;
      case Suicide => lostSuicide := lostSuicide + 1;
      case Other => lostOther := lostOther + 1;
    }

    /** Pushes a freed index unless the stack is full. */
    method GiveBack(i: int) returns (ok: bool)
      requires Valid() && FitsInt(i)
      modifies stack`size, stack.data
      ensures Valid() && ok == (|old(View()).free| < slots.Length)
      ensures View() == old(View()).(free := if ok then old(View()).free + [i] else old(View()).free)
    {
      hide Ints, BytesInt, IntBytes, Chunks;
      ghost var elems := stack.Elements();
      IntRoundTrip(i);
      ok := stack.Push(IntBytes(i));
      if ok {
        assert Words(elems + [IntBytes(i)]);
        IntsAppend(elems, IntBytes(i));
      }
    }

    method ClearSlot(i: int, hasReserved: bool)
      requires Valid() && 0 <= i < slots.Length
      modifies this`count, this`inBase, this`reserving, slots
      ensures Valid() && slots[..] == SetLoc(old(slots[..]), i, Undefined)
      ensures count == old(count) - 1
      ensures inBase == old(inBase) - One(old(slots[i]).loc == Base)
      ensures reserving == old(reserving) - One(hasReserved)
    {
      count := count - 1;
      if slots[i].loc == Base { inBase := inBase - 1; }
      if hasReserved { reserving := reserving - 1; }
      slots[i] := slots[i].(loc := Undefined);
    }

    method DeleteDrone(i: int, hasReserved: bool, reason: Reason) returns (out: int)
      requires Valid() && 0 <= i < slots.Length
      modifies this, slots, stack`size, stack.data
      ensures Valid() && (View(), out) == Delete(old(View()), i, hasReserved, reason)
    {
      hide Ints, Chunks;
      CountLost(reason);
      ClearSlot(i, hasReserved);
      var ok := GiveBack(i);
      hide Valid;
      out := if ok then i else -1;
    }

    method GetPid() returns (pid: int)
      requires Valid()
      ensures pid == FirstPid(View().slots, 0)
    {
      var i := 0;
      while i < slots.Length
        invariant 0 <= i <= slots.Length
        invariant FirstPid(slots[..], i) == FirstPid(slots[..], 0)
      {
        if slots[i].loc != Undefined { return slots[i].pid; }
        i := i + 1;
      }
      return -1;
    }
  }
}
