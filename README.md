# Control registers CR0, CR3 and CR4 of the x86_64 crate, in Dafny

This project models `src/registers/control.rs` of the x86_64 crate. That file defines the
flag types of three control registers and the accessors that read and write CR0 and CR3:

- `Cr0Flags`, `Cr3Flags` and `Cr4Flags` are `bitflags!` types over `u64`. Each named constant is
  one bit `1 << n`. `all()` is the union of the named constants, `bits()` is the raw word, and
  `from_bits_truncate` keeps the named bits of a raw word and drops the rest.
- `Cr0::read_raw` returns the whole CR0 word and `Cr0::write_raw` replaces it.
- `Cr0::read` returns the word truncated to the named flags.
- `Cr0::write(flags)` is a read-modify-write. It keeps every bit outside `Cr0Flags::all()` and
  sets the named bits to `flags`. `Cr0::update(f)` reads the flags, changes them with the
  closure, and writes them back with `write`.
- `Cr3::read` splits CR3 into the level 4 table's frame (bits 12 to 51, mask
  `0x000f_ffff_ffff_f000`) and the two cache flags (bits 3 and 4). `Cr3::write` joins a frame's
  start address and the flags into a new word.

Files:

- `bitflags.dfy`, module `BitFlags`: what a `bitflags!` type over a 64-bit word means here. It
  covers single-bit constants, the "only named bits" invariant, `from_bits_truncate`, and the
  fact that constants declared at increasing positions are pairwise disjoint.
- `control_flags.dfy`, modules `Cr0Flags`, `Cr3Flags` and `Cr4Flags`: every named constant at its
  declared position, the list of declared positions, `all()` with its value and its exact set
  of bits, the flag type as a subset type of `bv64`, and `from_bits_truncate` for each register.
- `control.dfy`, module `Control`: the value computations of the accessors as functions
  (`Cr0Merge`, `Cr3Decode`, `Cr3Encode`) with their lemmas. The registers themselves are the
  classes `Cr0` and `Cr3`. Each holds the live register word in a `bv64` field, and its methods
  follow the source's accessors step by step and are proved against those functions.

`u64` is modelled as `bv64`, so `&`, `|`, `!` and `<<` behave exactly as in Rust. No arithmetic
in the file can wrap.

## Model

| member | source | states |
|---|---|---|
| BitFlags.BitsOverlap | src/registers/control.rs:16-41 | two constants `1 << p` and `1 << q` share a bit exactly when `p == q` |
| BitFlags.FromBitsTruncate | src/registers/control.rs:152 | `from_bits_truncate` never fails; its result holds named bits only and agrees with the raw word on every named bit |
| BitFlags.TruncateNamed | src/registers/control.rs:152 | truncating a word that already holds only named bits returns it unchanged, so `from_bits_truncate(f.bits()) == f` |
| BitFlags.TruncateIdempotent | src/registers/control.rs:152 | truncating twice gives the same result as truncating once |
| BitFlags.AscendingStrictly | src/registers/control.rs:16-41 | a position list whose neighbours increase is strictly increasing between any two entries |
| BitFlags.DeclaredBitsDisjoint | src/registers/control.rs:16-41 | constants declared at strictly increasing positions are pairwise disjoint single bits |
| Cr0Flags.ConstantsAtPositions | src/registers/control.rs:16-41 | each of the ten `Cr0Flags` constants is `1 << n` for its entry n of the declared position list 0, 1, 2, 3, 5, 16, 18, 29, 30, 31 |
| Cr0Flags.ConstantsDisjoint | src/registers/control.rs:14-41 | the ten `Cr0Flags` constants are the single bits at their declared positions, and no two of them share a bit |
| Cr0Flags.AllValue | src/registers/control.rs:14-41 | `Cr0Flags::all()` is `0xE005_002F` |
| Cr0Flags.AllBits | src/registers/control.rs:14-41 | `all()` has a bit set at position p exactly when p is 0, 1, 2, 3, 5, 16, 18, 29, 30 or 31 |
| Cr0Flags.WithinAll | src/registers/control.rs:14-41 | every `Cr0Flags` value lies within `0xE005_002F` |
| Cr0Flags.FromBitsTruncate | src/registers/control.rs:152 | `Cr0Flags::from_bits_truncate(raw)` is `raw & 0xE005_002F` |
| Cr3Flags.ConstantsAtPositions | src/registers/control.rs:60-62 | `PAGE_LEVEL_WRITETHROUGH` is `1 << 3` and `PAGE_LEVEL_CACHE_DISABLE` is `1 << 4`, the entries of the declared position list |
| Cr3Flags.ConstantsDisjoint | src/registers/control.rs:58-63 | the two `Cr3Flags` constants are the single bits at their declared positions and do not share a bit |
| Cr3Flags.AllValue | src/registers/control.rs:58-63 | `Cr3Flags::all()` is `0x18` |
| Cr3Flags.AllBits | src/registers/control.rs:58-63 | `all()` has bits 3 and 4 set and no other |
| Cr3Flags.WithinAll | src/registers/control.rs:58-63 | every `Cr3Flags` value lies within `0x18` |
| Cr3Flags.FromBitsTruncate | src/registers/control.rs:216 | `Cr3Flags::from_bits_truncate(raw)` is `raw & 0x18` |
| Cr4Flags.ConstantsAtPositions | src/registers/control.rs:76-139 | each of the twenty-one `Cr4Flags` constants is `1 << n` for its entry n of the declared position list 0 to 14, 16 to 18, 20 to 22 |
| Cr4Flags.ConstantsDisjoint | src/registers/control.rs:73-140 | the twenty-one `Cr4Flags` constants are the single bits at their declared positions, and no two of them share a bit |
| Cr4Flags.AllValue | src/registers/control.rs:73-140 | `Cr4Flags::all()` is `0x77_7FFF` |
| Cr4Flags.AllBits | src/registers/control.rs:73-140 | `all()` has a bit exactly at each declared position; bits 15 and 19 and every bit from 23 up are clear |
| Cr4Flags.WithinAll | src/registers/control.rs:73-140 | every `Cr4Flags` value lies within `0x77_7FFF` |
| Cr4Flags.FromBitsTruncate | src/registers/control.rs:73-140 | `Cr4Flags::from_bits_truncate(raw)` is `raw & 0x77_7FFF` |
| Control.Cr0Merge | src/registers/control.rs:169-171 | the word `write` stores keeps every bit outside `all()` of the old word, and reads back as exactly the given flags |
| Control.Cr0WriteOfRead | src/registers/control.rs:188-195 | writing back the flags just read, which is `update` with a closure that changes nothing, leaves the word unchanged |
| Control.Cr0WriteTwice | src/registers/control.rs:168-174 | after two writes only the second write's flags remain, over the original reserved bits |
| Control.Cr0MergeInjective | src/registers/control.rs:168-174 | two writes over the same word give the same word exactly when their flags are equal |
| Control.Cr0Example | src/registers/control.rs:151-174 | 0x8000_0011 reads as {PROTECTED_MODE_ENABLE, PAGING}; writing PAGING alone over it gives 0x8000_0010 |
| Control.Cr0.constructor | src/registers/control.rs:10 | a CR0 register holding a given word |
| Control.Cr0.ReadRaw | src/registers/control.rs:156-162 | `read_raw` returns the whole word, reserved bits included |
| Control.Cr0.Read | src/registers/control.rs:151-153 | `read` is the word masked with `0xE005_002F`, holds no reserved bit, and writing it back would change nothing |
| Control.Cr0.WriteRaw | src/registers/control.rs:180-182 | `write_raw` replaces the whole word with the given value |
| Control.Cr0.Write | src/registers/control.rs:168-174 | `write` stores `(old & !all) \| flags`: reserved bits as before the call, named bits exactly `flags` |
| Control.Cr0.Update | src/registers/control.rs:188-195 | `update(g)` stores `(old & !all) \| g(from_bits_truncate(old))` and keeps the reserved bits |
| Control.Cr0Session | src/registers/control.rs:151-195 | on a register holding 0x8000_0011, `read` reports {PROTECTED_MODE_ENABLE, PAGING}; an `update` clearing protected mode leaves 0x8000_0010 |
| Control.FrameAddressAligned | src/registers/control.rs:217-218 | a word with no bit outside the address mask is exactly a 4 KiB-aligned address below 2^52 |
| Control.Cr3FieldsDisjoint | src/registers/control.rs:217 | the address mask and `Cr3Flags::all()` have no bit in common |
| Control.Cr3Decode | src/registers/control.rs:211-220 | the frame is `value & 0x000f_ffff_ffff_f000` and the flags are `value & 0x18` |
| Control.Cr3DecodeAligned | src/registers/control.rs:217-218 | the frame `read` reports is 4 KiB-aligned and below 2^52 |
| Control.Cr3Encode | src/registers/control.rs:227-229 | the written word holds the frame in the address field, the flags in the flag field, and no other bit |
| Control.Cr3RoundTrip | src/registers/control.rs:211-231 | reading back what `write(frame, flags)` stored gives `(frame, flags)` |
| Control.Cr3ReEncode | src/registers/control.rs:211-231 | re-encoding a decoded word gives `value & (mask \| 0x18)`, which equals `value` exactly when no other bit was set |
| Control.Cr3Example | src/registers/control.rs:211-231 | 0x1234_5018 decodes to (0x1234_5000, {WRITETHROUGH, CACHE_DISABLE}); 0x1234_5003 decodes to (0x1234_5000, {}); encoding the first pair gives 0x1234_5018 |
| Control.Cr3.constructor | src/registers/control.rs:54 | a CR3 register holding a given word |
| Control.Cr3.Read | src/registers/control.rs:211-220 | `read` returns the decoded frame and flags of the live word |
| Control.Cr3.Write | src/registers/control.rs:227-231 | `write` replaces the whole word with the encoding of frame and flags, and a later `read` returns them |

## Left out

- Inline assembly (`asm!` moves to and from CR0, CR2 and CR3, and the `memory` clobber) is modelled as reading and assigning the register field. The effect of a write on the processor (paging, caching, protection) is not modelled.
- `Cr2::read` is not modelled. It only wraps an assembly read in `VirtAddr::new`, and `VirtAddr` is not part of this model.
- `Efer` and `EferFlags` are only re-exported from `model_specific`, which is not part of this model.
- `Cr4` has no accessors in the source (its `impl` block is empty), so only `Cr4Flags` is modelled.
- `PhysFrame` and `PhysAddr` are not part of this model. A frame is its 4 KiB-aligned start address below 2^52 (`FrameAddress`). `PhysAddr::new` demands that bits 52 to 63 be clear, which always holds for a masked word, and `PhysFrame::containing_address` is the identity on such an address.
- The set algebra that `bitflags!` generates (`contains`, `insert`, `remove`, `toggle`, the operator traits, `Debug`) is not modelled. Flag sets are plain `bv64` words, and those operations are `&`, `|` and `!` on them.
- Cr0Flags.FromBitsTruncate, Cr3Flags.FromBitsTruncate, Cr4Flags.FromBitsTruncate: the result is stated as the raw word masked with the literal `all()`. Which bits survive follows from that together with `AllBits`; it is not restated bit by bit on each function.
- Cr0.Update: the closure is a function from flags to flags, not an `FnOnce(&mut Cr0Flags)` that could have side effects of its own.
- Concurrency is not modelled: interrupts or other code changing CR0 between the read and the write of `Cr0::write`.
- The CR3 flags are bits 3 and 4; bits 0 to 2 are discarded. `Cr3Example` shows that 0x1234_5003 decodes to no flags, and `Cr3ReEncode` shows that re-encoding returns the raw word only when no bit outside the two fields is set.
