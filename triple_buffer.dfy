/**
  The buffer objects. `TripleBufferBasic` is the raw buffer over three byte
  blocks of `blockSize` bytes; `TripleBuffer<T>` is the typed wrapper whose
  three slots each hold one `T`. Both keep the role word in the field
  `flags`, change it only through the two transitions of module RoleWord,
  and are proved against the value-level functions of TripleBufferSpec.
 */
module TripleBuffers {
  import opened RoleWord
  import Spec = TripleBufferSpec

  class TripleBufferBasic {
    /** BLK_SZ, the size of each block in bytes. */
    const blockSize: nat
    /** The three blocks; the role word decides which one plays which role. */
    const data: array<seq<bv8>>
    /** The role word. */
    var flags: bv32

    ghost predicate Valid()
      reads this, data
    {
      data.Length == 3 && ValidWord(flags) &&
      forall i :: 0 <= i < 3 ==> |data[i]| == blockSize
    }

    /** The buffer as a value. */
    ghost function State(): (b: Spec.Buffer<seq<bv8>>)
      reads this, data
      requires Valid()
      ensures Spec.Valid(b)
    {
      Spec.Buffer(flags, data[..])
    }

    /**
      A buffer over three blocks of `size` bytes each that are already
      allocated and hold `blocks`; the role word starts at its initial value.
     */
    constructor (size: nat, blocks: seq<seq<bv8>>)
      requires |blocks| == 3 && forall i :: 0 <= i < 3 ==> |blocks[i]| == size
      ensures Valid() && fresh(data) && blockSize == size
      ensures State() == Spec.Initial(blocks)
      ensures Spec.Pending(State()) == Spec.None
    {
      blockSize := size;
      data := new seq<bv8>[3](i requires 0 <= i < 3 => blocks[i]);
      flags := InitMask;
      new;
      assert data[..] == blocks;
      InitialWord();
    }

    /**
      `write_buffer()`: the slot the writer may fill. It is in range and is
      never the reader's slot.
     */
    method WriteBuffer() returns (slot: nat)
      requires Valid()
      ensures slot < 3 && slot != ReadIndex(flags) && slot != RetainedIndex(flags)
      ensures data[slot] == Spec.WriteBlock(State())
    {
      var masked := flags & WriteMask;
      slot := ((masked >> 6) as bv2) as int;
    }

    /**
      `swap_buffer(exchanger)`: the role word becomes `exchange` of its old
      value in one atomic step.
     */
    method SwapBuffer(exchange: bv32 -> bv32)
      modifies this`flags
      ensures flags == exchange(old(flags))
    {
      flags := exchange(flags);
    }

    /** `update()`: publish what the writer has filled. */
    method Publish()
      requires Valid()
      modifies this`flags
      ensures Valid() && State() == Spec.Publish(old(State()))
    {
      SwapBuffer(WriteToRetained);
    }

    /**
      `update(func)`: `fill` is what `func` does to the Write slot, given its
      contents, and what it answers. The slot takes the new contents in any
      case; the buffer publishes exactly when `func` answers true.
     */
    method UpdateWith(fill: seq<bv8> -> (bool, seq<bv8>)) returns (published: bool)
      requires Valid()
      requires |fill(Spec.WriteBlock(State())).1| == blockSize
      modifies this`flags, data
      ensures Valid()
      ensures var (commit, contents) := fill(Spec.WriteBlock(old(State())));
              published == commit && State() == Spec.Update(old(State()), commit, contents)
    {
      var w := WriteBuffer();
      var (commit, contents) := fill(data[w]);
      data[w] := contents;
      if commit {
        Publish();
        return true;
      }
      return false;
    }

    /**
      `update(data, len)` with `payload` of length `len`: copies
      `min(len, blockSize)` bytes into the Write slot, then publishes.
     */
    method UpdateBytes(payload: seq<bv8>)
      requires Valid()
      modifies this`flags, data
      ensures Valid() && State() == Spec.UpdateBytes(old(State()), payload)
    {
      var w := WriteBuffer();
      var n := if |payload| < blockSize then |payload| else blockSize;
      data[w] := payload[..n] + data[w][n..];
      Publish();
    }

    /** `is_update()`: whether a published value waits for the reader. */
    method IsUpdate() returns (dirty: bool)
      requires Valid()
      ensures dirty <==> Spec.Pending(State()).Some?
    {
      dirty := flags & DirtyMask != 0;
    }

    /**
      `read_buffer()`: nothing, and no change, when no value waits;
      otherwise consume and hand out the slot that is now the Read slot.
     */
    method ReadBuffer() returns (slot: Spec.Option<nat>)
      requires Valid()
      modifies this`flags
      ensures Valid() && (State(), slot) == Spec.ReadBuffer(old(State()))
    {
      var dirty := IsUpdate();
      if !dirty {
        return Spec.None;
      }
      SwapBuffer(RetainedToRead);
      var masked := flags & ReadMask;
      slot := Spec.Some(((masked >> 2) as bv2) as int);
    }

    /**
      `read(func)`: the block `func` is called with, or None when `read`
      returns false without calling it.
     */
    method Read() returns (block: Spec.Option<seq<bv8>>)
      requires Valid()
      modifies this`flags
      ensures Valid() && (State(), block) == Spec.Fetch(old(State()))
      ensures block.Some? ==> |block.value| == blockSize
    {
      var slot := ReadBuffer();
      if slot.None? {
        return Spec.None;
      }
      block := Spec.Some(data[slot.value]);
    }
  }

  /**
    `triple_buffer<T>`: the typed wrapper. Each slot holds one `T`; copying
    a value in or out is plain assignment.
   */
  class TripleBuffer<T(0)> {
    // The wrapper derives from the raw buffer in C++; without inheritance it
    // restates the raw buffer's role word, invariant and abstract state here.
    const data: array<T>
    var flags: bv32

    ghost predicate Valid()
      reads this
    {
      data.Length == 3 && ValidWord(flags)
    }

    ghost function State(): (b: Spec.Buffer<T>)
      reads this, data
      requires Valid()
      ensures Spec.Valid(b)
    {
      Spec.Buffer(flags, data[..])
    }

    /** Constructs the default value `init` (the value of `T()`) in each slot. */
    constructor (init: T)
      ensures Valid() && fresh(data)
      ensures State() == Spec.Initial([init, init, init])
    {
      data := new T[3];
      flags := InitMask;
      new;
      for i := 0 to 3
        invariant forall j :: 0 <= j < i ==> data[j] == init
        modifies data
      {
        data[i] := init;
      }
      assert data[..] == [init, init, init];
      InitialWord();
    }

    /**
      `fetch(out)`: false, leaving `out` as it was, when no value waits;
      otherwise consume and copy the Read slot's value into `out`.
     */
    method Fetch(out: T) returns (ok: bool, result: T)
      requires Valid()
      modifies this`flags
      ensures Valid()
      ensures var (after, got) := Spec.Fetch(old(State()));
              State() == after && ok == got.Some? &&
              result == if ok then got.value else out
    {
      if !IsDirty(flags) {
        return false, out;
      }
      flags := RetainedToRead(flags);
      result := data[ReadIndex(flags)];
      ok := true;
    }

    /** `put(value)`: assign `value` to the Write slot, then publish. */
    method Put(value: T)
      requires Valid()
      modifies this`flags, data
      ensures Valid() && State() == Spec.Update(old(State()), true, value)
    {
      data[WriteIndex(flags)] := value;
      flags := WriteToRetained(flags);
    }
  }

  /**
    A client of the raw buffer: a two-byte packet {type 1, seq 2} goes
    through a freshly constructed buffer and is read back exactly once.
   */
  method PacketRoundTrip(blocks: seq<seq<bv8>>)
    requires |blocks| == 3 && forall i :: 0 <= i < 3 ==> |blocks[i]| == 2
  {
    var tb := new TripleBufferBasic(2, blocks);
    var dirty := tb.IsUpdate();
    assert !dirty;
    tb.UpdateBytes([1, 2]);
    dirty := tb.IsUpdate();
    assert dirty;
    var slot := tb.ReadBuffer();
    assert slot.Some? && tb.data[slot.value] == [1, 2];
    dirty := tb.IsUpdate();
    assert !dirty;
    slot := tb.ReadBuffer();
    assert slot.None?;
  }
}
