/**
 * The interpreter's return-address stack: a fixed-capacity array of uint16
 * slots and the index of the next free slot.
 *
 * `Frame` is the value of a stack (its slots and index); the functions on
 * frames say what each operation does, and class `Stack` performs them in
 * place on an array.
 */
module CallStack {
  import opened Bytes
  import opened Wrappers

  /** "Stack is full" and "Stack is empty". */
  datatype StackError = Overflow | Underflow

  /** A stack's slots and its index; the capacity is the number of slots. */
  datatype Frame = Frame(slots: seq<u16>, index: nat)

  /** The bounded-stack invariant 0 <= index <= capacity. */
  predicate Bounded(f: Frame)
  {
    f.index <= |f.slots|
  }

  /** The addresses on the stack, bottom first. */
  function Contents(f: Frame): (s: seq<u16>)
    requires Bounded(f)
  {
    f.slots[..f.index]
  }

  /** A stack of `size` zeroed slots holding nothing. */
  function Empty(size: nat): (f: Frame)
    ensures Bounded(f) && |f.slots| == size && Contents(f) == []
  {
    Frame(seq(size, _ => 0), 0)
  }

  /** push: fails when full, otherwise writes `item` at `index` and bumps it. */
  function PushFrame(f: Frame, item: u16): (r: Result<Frame, StackError>)
    requires Bounded(f)
    ensures r.Failure? <==> f.index == |f.slots|
    ensures r.Failure? ==> r.error == Overflow
    ensures r.Success? ==> Bounded(r.value) && |r.value.slots| == |f.slots|
    ensures r.Success? ==> r.value.index == f.index + 1 && r.value.slots[f.index] == item
    ensures r.Success? ==> forall j :: 0 <= j < |f.slots| && j != f.index ==> r.value.slots[j] == f.slots[j]
    ensures r.Success? ==> Contents(r.value) == Contents(f) + [item]
  {
    if f.index == |f.slots| then Failure(Overflow)
    else Success(Frame(f.slots[f.index := item], f.index + 1))
  }

  /** pop: fails when empty, otherwise takes the top address and zeroes its slot. */
  function PopFrame(f: Frame): (r: Result<(u16, Frame), StackError>)
    requires Bounded(f)
    ensures r.Failure? <==> f.index == 0
    ensures r.Failure? ==> r.error == Underflow
    ensures r.Success? ==> Bounded(r.value.1) && |r.value.1.slots| == |f.slots|
    ensures r.Success? ==> r.value.1.index == f.index - 1 && r.value.1.slots[f.index - 1] == 0
    ensures r.Success? ==> forall j :: 0 <= j < |f.slots| && j != f.index - 1 ==> r.value.1.slots[j] == f.slots[j]
    ensures r.Success? ==> r.value.0 == Contents(f)[f.index - 1] && Contents(r.value.1) == Contents(f)[..f.index - 1]
  {
    if f.index == 0 then Failure(Underflow)
    else
      var top := f.index - 1;
      Success((f.slots[top], Frame(f.slots[top := 0], top)))
  }

  /** peek: fails when empty, otherwise the top address. */
  function PeekFrame(f: Frame): (r: Result<u16, StackError>)
    requires Bounded(f)
    ensures r.Failure? <==> Contents(f) == []
    ensures r.Failure? ==> r.error == Underflow
    ensures r.Success? ==> r.value == Contents(f)[|Contents(f)| - 1]
  {
    if f.index == 0 then Failure(Underflow) else Success(f.slots[f.index - 1])
  }

  /** Pushing then popping gives back the item and the index; the vacated slot reads 0. */
  lemma PushPopRoundTrip(f: Frame, item: u16)
    requires Bounded(f) && f.index < |f.slots|
    ensures PushFrame(f, item).Success?
    ensures PopFrame(PushFrame(f, item).value) == Success((item, Frame(f.slots[f.index := 0], f.index)))
  {
    assert f.slots[f.index := item][f.index := 0] == f.slots[f.index := 0];
  }

  /** Peeking after a push sees the pushed item. */
  lemma PushPeek(f: Frame, item: u16)
    requires Bounded(f) && f.index < |f.slots|
    ensures PushFrame(f, item).Success? && PeekFrame(PushFrame(f, item).value) == Success(item)
  {
  }

  /** Pushing `items` one after another, stopping at the first failure. */
  function PushAll(f: Frame, items: seq<u16>): (r: Result<Frame, StackError>)
    requires Bounded(f)
    ensures r.Success? ==> Bounded(r.value)
    decreases |items|
  {
    if items == [] then Success(f)
    else match PushFrame(f, items[0])
      case Failure(e) => Failure(e)
      case Success(g) => PushAll(g, items[1..])
  }

  /**
   * A run of pushes succeeds exactly when it fits in the free slots, and then
   * the stack holds the old contents followed by the items; otherwise it
   * overflows.
   */
  lemma {:induction false} PushAllFits(f: Frame, items: seq<u16>)
    requires Bounded(f)
    ensures PushAll(f, items).Success? <==> f.index + |items| <= |f.slots|
    ensures PushAll(f, items).Success? ==>
      Contents(PushAll(f, items).value) == Contents(f) + items && |PushAll(f, items).value.slots| == |f.slots|
    ensures PushAll(f, items).Failure? ==> PushAll(f, items).error == Overflow
    decreases |items|
  {
    if items != [] && f.index < |f.slots| {
      var g := PushFrame(f, items[0]).value;
      PushAllFits(g, items[1..]);
      assert Contents(f) + items == Contents(f) + [items[0]] + items[1..];
    }
  }

  /** A fresh stack of capacity `size` takes `size` pushes and overflows on one more. */
  lemma FillToCapacity(size: nat, items: seq<u16>, extra: u16)
    requires |items| == size
    ensures PushAll(Empty(size), items).Success?
    ensures Contents(PushAll(Empty(size), items).value) == items
    ensures PushAll(Empty(size), items + [extra]) == Failure(Overflow)
  {
    PushAllFits(Empty(size), items);
    PushAllFits(Empty(size), items + [extra]);
  }

  /**
   * The stack as stack.go writes it, reading the bare `index` and `capacity`
   * of push's guard as the stack's own fields: newStack sizes the memory but
   * never sets `capacity`, which stays 0.
   */
  datatype WrittenStack = WrittenStack(memory: seq<u16>, index: nat, capacity: nat)

  /** newStack as written: `size` zeroed slots, index 0 and capacity left at 0. */
  function NewStackAsWritten(size: nat): (s: WrittenStack)
    ensures |s.memory| == size && s.index == 0 && s.capacity == 0
    ensures forall k :: 0 <= k < size ==> s.memory[k] == 0
  {
    WrittenStack(seq(size, _ => 0), 0, 0)
  }

  /** push as written: full when index == capacity, otherwise write at index and bump it. */
  function PushAsWritten(s: WrittenStack, item: u16): (r: Result<WrittenStack, StackError>)
    requires s.index == s.capacity || s.index < |s.memory|
    ensures r.Failure? <==> s.index == s.capacity
    ensures r.Success? ==> r.value.index == s.index + 1 && r.value.memory == s.memory[s.index := item]
  {
    if s.index == s.capacity then Failure(Overflow)
    else Success(WrittenStack(s.memory[s.index := item], s.index + 1, s.capacity))
  }

  /**
   * As written, the first push onto any new stack, however many slots it
   * has, reports "Stack is full"; Empty and PushFrame take the capacity to be
   * the number of slots instead (FillToCapacity).
   */
  lemma FirstPushOverflowsAsWritten(size: nat, item: u16)
    requires size > 0
    ensures |NewStackAsWritten(size).memory| == size
    ensures PushAsWritten(NewStackAsWritten(size), item) == Failure(Overflow)
    ensures PushFrame(Empty(size), item).Success?
  {
  }

  /** The in-place stack (`Stack` with `memory`, `index` and `capacity`). */
  class Stack {
    const memory: array<u16>
    var index: nat
    const capacity: nat

    ghost predicate Valid()
      reads this
    {
      capacity == memory.Length && index <= capacity
    }

    /** The value of this stack. */
    ghost function View(): (f: Frame)
      reads this, memory
      requires Valid()
      ensures Bounded(f) && |f.slots| == capacity
    {
      Frame(memory[..], index)
    }

    /** newStack: `size` zeroed slots, nothing pushed, capacity `size`. */
    constructor (size: nat)
      ensures Valid() && fresh(memory)
      ensures View() == Empty(size)
    {
      memory := new u16[size](_ => 0);
      index := 0;
      capacity := size;
    }

    /** push */
    method Push(item: u16) returns (err: Option<StackError>)
      requires Valid()
      modifies this, memory
      ensures Valid()
      ensures match PushFrame(old(View()), item)
        case Success(f) => err == None && View() == f
        case Failure(e) => err == Some(e) && View() == old(View())
    {
      if index == capacity {
        return Some(Overflow);
      }
      memory[index] := item;
      index := index + 1;
      return None;
    }

    /** pop */
    method Pop() returns (item: u16, err: Option<StackError>)
      requires Valid()
      modifies this, memory
      ensures Valid()
      ensures match PopFrame(old(View()))
        case Success(p) => item == p.0 && err == None && View() == p.1
        case Failure(e) => item == 0 && err == Some(e) && View() == old(View())
    {
      if index == 0 {
        return 0, Some(Underflow);
      }
      index := index - 1;
      item := memory[index];
      memory[index] := 0;
      err := None;
    }

    /** peek */
    method Peek() returns (item: u16, err: Option<StackError>)
      requires Valid()
      ensures match PeekFrame(View())
        case Success(v) => item == v && err == None
        case Failure(e) => item == 0 && err == Some(e)
    {
      if index == 0 {
        return 0, Some(Underflow);
      }
      return memory[index - 1], None;
    }

    /** size: the number of slots (the capacity), not the number of items pushed. */
    method Size() returns (s: nat)
      requires Valid()
      ensures s == |View().slots| && s == capacity
    {
      return memory.Length;
    }

    /** capacity */
    method Capacity() returns (c: nat)
      requires Valid()
      ensures c == capacity && c == |View().slots|
    {
      return capacity;
    }
  }
}
