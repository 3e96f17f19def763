/**
  The role word of a triple buffer: one 32-bit word that says which of the
  three storage slots currently plays the Write, the Retained and the Read
  role, plus a dirty bit that is set while a published value waits in the
  Retained slot.

    bit  8     dirty
    bits 7..6  Write slot index
    bits 5..4  Retained slot index
    bits 3..2  Read slot index
    bits 1..0  two low bits carried through every transition

  The two transitions are pure functions of the old word; this module gives
  them at the bit level, exactly as masks and shifts, and relates each to a
  transition of the decoded record `Roles`.
 */
module RoleWord {

  const WriteMask: bv32 := 0xc0
  const RetainedMask: bv32 := 0x30
  const ReadMask: bv32 := 0x0c
  const LowMask: bv32 := 0x03
  const DirtyMask: bv32 := 0x100
  /** Initial word: write = 0, retained = 1, read = 2, low bits = 3, dirty clear. */
  const InitMask: bv32 := 0x1b

  /** The decoded contents of the nine meaningful bits of the word. */
  datatype Roles = Roles(write: bv2, retained: bv2, read: bv2, low: bv2, dirty: bool)

  /** The slot indices name three different slots out of the three that exist. */
  predicate ValidRoles(r: Roles)
  {
    r.write < 3 && r.retained < 3 && r.read < 3 &&
    r.write != r.retained && r.retained != r.read && r.write != r.read
  }

  /** The invariant of the word: its slot fields form a permutation of {0, 1, 2}. */
  predicate ValidWord(f: bv32)
  {
    ValidRoles(Decode(f))
  }

  function Decode(f: bv32): (r: Roles)
  {
    Roles(((f & WriteMask) >> 6) as bv2,
          ((f & RetainedMask) >> 4) as bv2,
          ((f & ReadMask) >> 2) as bv2,
          (f & LowMask) as bv2,
          f & DirtyMask != 0)
  }

  /** Packs a record into a word; every bit outside the nine fields is zero. */
  function Encode(r: Roles): (f: bv32)
    ensures Decode(f) == r
    ensures f & !0x1ff == 0
  {
    (if r.dirty then DirtyMask else 0) |
    ((r.write as bv32) << 6) |
    ((r.retained as bv32) << 4) |
    ((r.read as bv32) << 2) |
    (r.low as bv32)
  }

  /** Encoding what a word decodes to gives back its nine meaningful bits. */
  lemma EncodeDecode(f: bv32)
    ensures Encode(Decode(f)) == f & 0x1ff
  {
  }

  /** The role change of a publish, on the record. */
  function PublishRoles(r: Roles): (p: Roles)
    ensures p.write == r.retained && p.retained == r.write
    ensures p.read == r.read && p.low == r.low && p.dirty
    ensures ValidRoles(r) ==> ValidRoles(p)
  {
    r.(write := r.retained, retained := r.write, dirty := true)
  }

  /** The role change of a consume, on the record. */
  function ConsumeRoles(r: Roles): (c: Roles)
    ensures c.read == r.retained && c.retained == r.read
    ensures c.write == r.write && c.low == r.low && !c.dirty
    ensures ValidRoles(r) ==> ValidRoles(c)
  {
    r.(retained := r.read, read := r.retained, dirty := false)
  }

  /**
    Publish at the bit level: exchanges the Write and Retained fields, keeps
    the Read field and the low bits, sets dirty and clears every higher bit.
   */
  function WriteToRetained(f: bv32): (r: bv32)
    ensures r == Encode(PublishRoles(Decode(f)))
    ensures Decode(r) == PublishRoles(Decode(f))
    ensures ValidWord(f) ==> ValidWord(r)
  {
    DirtyMask | ((f & WriteMask) >> 2) | ((f & RetainedMask) << 2) | (f & ReadMask) | (f & LowMask)
  }

  /**
    Consume at the bit level: exchanges the Retained and Read fields, keeps
    the Write field and the low bits, clears dirty and every higher bit.
   */
  function RetainedToRead(f: bv32): (r: bv32)
    ensures r == Encode(ConsumeRoles(Decode(f)))
    ensures Decode(r) == ConsumeRoles(Decode(f))
    ensures ValidWord(f) ==> ValidWord(r)
  {
    (f & WriteMask) | ((f & RetainedMask) >> 2) | ((f & ReadMask) << 2) | (f & LowMask)
  }

  /** Index of the Write slot, as `write_buffer` extracts it. */
  function WriteIndex(f: bv32): (i: nat)
    ensures i == Decode(f).write as int
    ensures ValidWord(f) ==> i < 3 && i != ReadIndex(f)
  {
    (((f & WriteMask) >> 6) as bv2) as int
  }

  /** Index of the Retained slot, the field that only the transitions touch. */
  function RetainedIndex(f: bv32): (i: nat)
    ensures i == Decode(f).retained as int
    ensures ValidWord(f) ==> i < 3 && i != WriteIndex(f) && i != ReadIndex(f)
  {
    (((f & RetainedMask) >> 4) as bv2) as int
  }

  /** Index of the Read slot, as `read_buffer` extracts it. */
  function ReadIndex(f: bv32): (i: nat)
    ensures i == Decode(f).read as int
    ensures ValidWord(f) ==> i < 3
  {
    (((f & ReadMask) >> 2) as bv2) as int
  }

  /** The dirty bit, as `is_update` tests it. */
  function IsDirty(f: bv32): (d: bool)
    ensures d == Decode(f).dirty
  {
    f & DirtyMask != 0
  }

  /**
    What the dirty bit means: only a publish sets it, a consume clears it,
    and the initial word has it clear.
   */
  lemma DirtyBitTracksPublish(f: bv32)
    ensures IsDirty(WriteToRetained(f))
    ensures !IsDirty(RetainedToRead(f))
    ensures !IsDirty(InitMask)
  {
  }

  /** The initial word decodes to write 0, retained 1, read 2, low bits 3, clean. */
  lemma InitialWord()
    ensures Decode(InitMask) == Roles(0, 1, 2, 3, false)
    ensures ValidWord(InitMask)
  {
  }

  /** A valid word's three slot fields are exactly the slots 0, 1 and 2. */
  lemma ValidIsPermutation(f: bv32)
    ensures ValidWord(f) <==> {Decode(f).write, Decode(f).retained, Decode(f).read} == {0, 1, 2}
  {
    var r := Decode(f);
    if {r.write, r.retained, r.read} == {0, 1, 2} {
      assert r.write in {0, 1, 2} && r.retained in {0, 1, 2} && r.read in {0, 1, 2};
    }
  }
}
