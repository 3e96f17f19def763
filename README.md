# Triple buffer role state machine, in Dafny

This project models `yy::triple_buffer_basic` and `yy::triple_buffer<T>` from
`triplebuffer.hpp`. They hand the latest value from one writer to one reader
through three slots. Each slot plays one of three roles: Write, Retained or
Read. A single 32-bit role word records the roles:

| bits | meaning |
|---|---|
| 8 | dirty: a published value waits in the Retained slot |
| 7..6 | Write slot index (`k_write_mask`) |
| 5..4 | Retained slot index (`0x30`) |
| 3..2 | Read slot index (`k_read_mask`) |
| 1..0 | two low bits that every transition carries along (`0x03`) |

The word starts at `k_init_mask = 0x1b`: write 0, retained 1, read 2, low bits 3, dirty clear.

The project has three files:

- `role_word.dfy`, module `RoleWord`: the masks and the two transitions
  `write_to_retained` (publish) and `retained_to_read` (consume), written as
  the same masks and shifts on a `bv32`. It also has a decoded record `Roles`.
  Each bit-level transition is proved equal to `Encode(T(Decode(f)))` for the
  matching record transition `T`. Both transitions are proved to keep the
  three slot fields a permutation of {0, 1, 2}.
- `buffer_spec.dfy`, module `TripleBufferSpec`: the buffer as a value (role
  word plus three blocks, generic in the block type). Every operation is a
  function on that value. The module also has a reference model: a one-place
  mailbox that the writer overwrites and the reader empties. An induction
  over arbitrary traces of writer and reader calls proves that the buffer
  hands the reader exactly what the mailbox would. From that it follows
  that every value read is the latest one committed before the read, and
  that no value is read twice.
- `triple_buffer.dfy`, module `TripleBuffers`: the two classes. The role
  word is a `bv32` field that changes only by one atomic assignment
  `flags := exchange(flags)`. The blocks are an `array` of three slots.
  `SwapBuffer` is that atomic primitive. Every other operation method
  states its new state as the matching function of `TripleBufferSpec`
  applied to the old state.

Facts about the code that the model keeps:

- The two low bits are never read. The initial word sets them to 3
  (`k_init_mask`, triplebuffer.hpp:70), and both transitions copy them
  through `& 0x03` (triplebuffer.hpp:145, triplebuffer.hpp:149). The model
  does the same.
- Both transitions build the new word from masked fields only. So they
  clear every bit above bit 8, and `retained_to_read` also clears dirty.
  `RoleWord.Encode` states this: its result has no bit outside the nine
  fields.
- `update(data, len)` asserts `len <= BLK_SZ` in debug builds and then
  copies `min(len, BLK_SZ)` bytes. The model follows the release build:
  truncation, with no precondition on the length.

## Model

| member | source | states |
|---|---|---|
| RoleWord.Encode | triplebuffer.hpp:67-70 | packing the fields at their mask positions and decoding gives the same fields back; no bit outside the nine fields is set |
| RoleWord.EncodeDecode | triplebuffer.hpp:67-69 | decoding and re-packing a word gives back exactly its nine meaningful bits |
| RoleWord.InitialWord | triplebuffer.hpp:70 | the initial word 0x1b decodes to write 0, retained 1, read 2, low bits 3, dirty clear, and satisfies the permutation invariant |
| RoleWord.ValidIsPermutation | triplebuffer.hpp:144-150 | the word invariant (three distinct slot fields, each below 3) holds exactly when the three fields are the set {0, 1, 2} |
| RoleWord.PublishRoles | triplebuffer.hpp:144-146 | on the record: write and retained exchange, read and low bits unchanged, dirty set; the permutation invariant is preserved |
| RoleWord.ConsumeRoles | triplebuffer.hpp:148-150 | on the record: retained and read exchange, write and low bits unchanged, dirty clear; the permutation invariant is preserved |
| RoleWord.WriteToRetained | triplebuffer.hpp:144-146 | the bit expression equals encoding the published record of the decoded word, bit for bit; it keeps the invariant |
| RoleWord.RetainedToRead | triplebuffer.hpp:148-150 | the bit expression equals encoding the consumed record of the decoded word, bit for bit; it keeps the invariant |
| RoleWord.WriteIndex | triplebuffer.hpp:91-94 | `(flags & k_write_mask) >> 6` is the write field; under the invariant it indexes `_data[3]` in bounds and differs from the read slot |
| RoleWord.RetainedIndex | triplebuffer.hpp:145 | `(flags & 0x30) >> 4` is the retained field; under the invariant it is in bounds and differs from the write and read slots |
| RoleWord.ReadIndex | triplebuffer.hpp:134-135 | `(flags & k_read_mask) >> 2` is the read field; under the invariant it indexes `_data[3]` in bounds |
| RoleWord.DirtyBitTracksPublish | triplebuffer.hpp:144-150 | for every word, `write_to_retained` leaves the dirty bit (tested as in `is_update`) set, `retained_to_read` leaves it clear, and the initial word has it clear |
| TripleBufferSpec.Fill | triplebuffer.hpp:91-94 | writing through `write_buffer()` changes only the Write slot: the role word, the reader's slot and the pending value stay the same |
| TripleBufferSpec.Publish | triplebuffer.hpp:139-141 | after `update()` the Write slot's contents are the pending value, the reader's slot is unchanged, and the writer gets the previously retained slot |
| TripleBufferSpec.Consume | triplebuffer.hpp:131 | after the consume swap the reader holds the previously retained contents, nothing is pending, and the Write slot is unchanged |
| TripleBufferSpec.Update | triplebuffer.hpp:96-103 | `update(func)` publishes what `func` left when it answers true; when it answers false the role word, hence `is_update()`, is unchanged |
| TripleBufferSpec.ReadBuffer | triplebuffer.hpp:125-136 | with dirty clear: no slot and no change; with dirty set: a slot in bounds, which is the new Read slot and holds the value that was pending; afterwards nothing is pending |
| TripleBufferSpec.Fetch | triplebuffer.hpp:213-220 | the value obtained is exactly the pending value (none when dirty is clear, with the buffer unchanged); after a successful fetch nothing is pending and the reader holds that value |
| TripleBufferSpec.Overlay | triplebuffer.hpp:107 | after the truncating `memcpy` each byte below `len` comes from the payload and every other byte keeps its old value; the block keeps its size |
| TripleBufferSpec.UpdateBytes | triplebuffer.hpp:105-109 | `update(data, len)` makes the truncating copy into the Write slot the pending value and leaves the reader's slot unchanged |
| TripleBufferSpec.Initial | triplebuffer.hpp:165 | a new buffer satisfies the invariant, has nothing pending, and has write 0, retained 1, read 2 |
| TripleBufferSpec.WriterAvoidsReader | triplebuffer.hpp:91-94 | the Write slot never equals the Read slot, so filling it leaves the reader's block untouched |
| TripleBufferSpec.LatestValueWins | triplebuffer.hpp:144-146 | two publishes with no read between them, then one read, yield the second value |
| TripleBufferSpec.ReadAtMostOnce | triplebuffer.hpp:125-136 | after a successful `read_buffer()` a second one returns nothing and changes nothing |
| TripleBufferSpec.PutThenFetch | triplebuffer.hpp:213-225 | `put(v)` then `fetch(out)` gives `out == v` |
| TripleBufferSpec.AbortIsInvisible | triplebuffer.hpp:96-103 | an `update(func)` whose `func` answers false changes neither the role word nor what the next read obtains |
| TripleBufferSpec.UpdateBytesThenRead | triplebuffer.hpp:105-109 | reading after `update(data, len)` gives a block of `BLK_SZ` bytes whose first `min(len, BLK_SZ)` bytes are the payload's and whose rest is what the Write slot held before |
| TripleBufferSpec.Step | triplebuffer.hpp:96-136 | every writer or reader call keeps the invariant |
| TripleBufferSpec.Run | triplebuffer.hpp:144-150 | every sequence of calls keeps the invariant and produces one reader result per call |
| TripleBufferSpec.StepRefines | triplebuffer.hpp:96-136 | each call on the buffer has the same effect and result as on a one-place overwriting mailbox |
| TripleBufferSpec.RunRefines | triplebuffer.hpp:96-150 | every trace of calls gives the reader the same results as the mailbox, and ends in the mailbox's final state |
| TripleBufferSpec.BufferDeliversLatestFrom | triplebuffer.hpp:139-150 | from any valid state, each value the reader obtains is the value of the last commit before that read, or the value pending at the start when there was no commit |
| TripleBufferSpec.BufferDeliversLatest | triplebuffer.hpp:139-150 | from a state with nothing pending, each value the reader obtains is the value of the last commit before that read |
| TripleBufferSpec.BufferDeliversOnce | triplebuffer.hpp:125-136 | between any two reads that both obtain a value there is a commit: no value is delivered twice |
| TripleBuffers.TripleBufferBasic.constructor | triplebuffer.hpp:74-78 | three blocks of `BLK_SZ` bytes with the role word at its initial value and nothing pending |
| TripleBuffers.TripleBufferBasic.WriteBuffer | triplebuffer.hpp:91-94 | the slot returned is in bounds, is neither the Read nor the Retained slot, and holds the Write block |
| TripleBuffers.TripleBufferBasic.SwapBuffer | triplebuffer.hpp:152-159 | the role word becomes the exchanger applied to its old value, in one step |
| TripleBuffers.TripleBufferBasic.Publish | triplebuffer.hpp:139-141 | the new state is `TripleBufferSpec.Publish` of the old one |
| TripleBuffers.TripleBufferBasic.UpdateWith | triplebuffer.hpp:96-103 | the Write slot takes what `func` wrote; the method answers what `func` answered and publishes exactly then |
| TripleBuffers.TripleBufferBasic.UpdateBytes | triplebuffer.hpp:105-109 | the new state is `TripleBufferSpec.UpdateBytes` of the old one: truncating copy, then publish |
| TripleBuffers.TripleBufferBasic.IsUpdate | triplebuffer.hpp:111-113 | true exactly when a published value is pending |
| TripleBuffers.TripleBufferBasic.ReadBuffer | triplebuffer.hpp:125-136 | new state and result are those of `TripleBufferSpec.ReadBuffer` |
| TripleBuffers.TripleBufferBasic.Read | triplebuffer.hpp:115-123 | the block `func` is called with is the pending value, or none (false) when dirty is clear; the block has `BLK_SZ` bytes |
| TripleBuffers.TripleBuffer.constructor | triplebuffer.hpp:207-211 | every slot holds the default value, and the role word is initial |
| TripleBuffers.TripleBuffer.Fetch | triplebuffer.hpp:213-220 | with dirty clear: false and `out` unchanged; otherwise true, `out` is the pending value, and the buffer is consumed |
| TripleBuffers.TripleBuffer.Put | triplebuffer.hpp:222-225 | the value goes into the Write slot and is published: the new state is `TripleBufferSpec.Update(old, true, value)` |

## Left out

- TripleBuffers.TripleBufferBasic.SwapBuffer: the `compare_exchange_weak` retry loop, the `memory_order_*` arguments and `YIELD()` are not modelled. The swap is one atomic assignment. Concurrent interleavings are modelled only as sequences of whole calls (the traces of `TripleBufferSpec.Run`).
- Memory visibility between threads is not modelled. This covers the acquire/release pairing and torn reads.
- `default_block_allocator` (`malloc`/`free`), the allocation loop in the constructor and the freeing loop in the destructor are not modelled. The raw buffer starts from three allocated blocks with given contents.
- The deleted copy and move operations and the `_log` debug macro have no behaviour to model.
- The `assigner` dispatch and the `static_assert` rejections are compile-time type checks. Both copy policies are modelled as value assignment. Placement `new T()` is modelled as storing a given default value.
- TripleBuffers.TripleBuffer: each slot holds a `T` value, not `sizeof(T)` raw bytes. The members inherited from the raw buffer are not repeated on it. `Fetch` and `Put` do the same role-word steps as `is_update`/`read_buffer` and `write_buffer`/`update()`.
- TripleBuffers.TripleBufferBasic.UpdateBytes: the debug-build `assert(len_ <= BLK_SZ)` is not modelled; the release-build truncation is.
- TripleBuffers.TripleBufferBasic.UpdateWith: the `std::function` callback is modelled as a function from the Write block's contents to its answer and the block's new contents. Anything else the callback does is not modelled.
- TripleBuffers.TripleBufferBasic.Read: the callback given to `read` is not modelled. The method returns the block the callback would be called with.
- `read_buffer` and `write_buffer` return raw pointers. The model returns slot indices. The pointer's validity window is the proved fact that no writer call changes the Read slot.
- example.cpp is not part of this model. It is a non-compiling draft that repeats the header's masks and transitions.
