/**
  Reading and writing the control registers CR0 and CR3.

  Each register is one 64-bit word of processor state. `Cr0` and `Cr3` below are classes
  holding that word in a field, `value`, in place of the privileged `mov` to and from the
  register: reading the field is the `mov %crN` read, assigning it is the `mov` write.
  The value computations (merging reserved bits into a CR0 write, splitting and joining
  the CR3 address and flags) are functions, and the methods are proved against them.
 */
module Control {
  import opened BitFlags
  import Cr0Flags
  import Cr3Flags

  // ----- CR0 -----

  /** The bits of CR0 that `Cr0Flags` does not name: reserved or unknown to this code. */
  const CR0_RESERVED: bv64 := !Cr0Flags.ALL

  /** The word `Cr0::write(flags)` stores when CR0 held `current`: every bit outside
      `Cr0Flags::all()` as it was, and the named bits exactly those of `flags`. */
  function Cr0Merge(current: bv64, flags: Cr0Flags.Flags): (r: bv64)
    ensures r & CR0_RESERVED == current & CR0_RESERVED
    ensures Cr0Flags.FromBitsTruncate(r) == flags
  {
    Cr0Flags.AllValue();
    Cr0Flags.WithinAll(flags);
    (current & CR0_RESERVED) | flags
  }

  /** Writing back what was read changes nothing: `write(read())`, and `update` with a
      closure that leaves the flags alone, keep the register as it was. */
  lemma Cr0WriteOfRead(current: bv64)
    ensures Cr0Merge(current, Cr0Flags.FromBitsTruncate(current)) == current
  {
  }

  /** A second write replaces all that the first one wrote: only the last flags survive,
      and the reserved bits are still those of the original word. */
  lemma Cr0WriteTwice(current: bv64, first: Cr0Flags.Flags, second: Cr0Flags.Flags)
    ensures Cr0Merge(Cr0Merge(current, first), second) == Cr0Merge(current, second)
  {
  }

  /** A write is determined by the flags it is given: two writes over the same word agree
      exactly when their flags agree. */
  lemma Cr0MergeInjective(current: bv64, f: Cr0Flags.Flags, g: Cr0Flags.Flags)
    ensures Cr0Merge(current, f) == Cr0Merge(current, g) <==> f == g
  {
  }

  /** A CR0 holding paging, protected mode and the unnamed bit 4: reading reports protected
      mode and paging only, and writing paging alone clears protected mode and keeps bit 4. */
  lemma Cr0Example()
    ensures Cr0Flags.FromBitsTruncate(0x8000_0011) == Cr0Flags.PROTECTED_MODE_ENABLE | Cr0Flags.PAGING
    ensures Cr0Merge(0x8000_0011, Cr0Flags.PAGING) == 0x8000_0010
  {
    Cr0Flags.AllValue();
  }

  /** CR0, the processor's operating-mode register. */
  class Cr0 {
    /** The live register word. */
    var value: bv64

    constructor (initial: bv64)
      ensures value == initial
    {
      value := initial;
    }

    /** `Cr0::read_raw`: the whole word, reserved bits included. */
    method ReadRaw() returns (v: bv64)
      ensures v == value
    {
      v := value;
    }

    /** `Cr0::read`: the named flags of the word; the unnamed bits are dropped and the
        read never fails. */
    method Read() returns (flags: Cr0Flags.Flags)
      ensures flags == value & 0xE005_002F
      ensures flags & CR0_RESERVED == 0
      ensures Cr0Merge(value, flags) == value
    {
      var raw := ReadRaw();
      flags := Cr0Flags.FromBitsTruncate(raw);
      Cr0WriteOfRead(raw);
    }

    /** `Cr0::write_raw`: replaces the whole word; nothing is preserved. */
    method WriteRaw(v: bv64)
      modifies this
      ensures value == v
    {
      value := v;
    }

    /** `Cr0::write`: a read-modify-write that sets the named bits to `flags` and leaves
        every reserved bit as it was just before the call. */
    method Write(flags: Cr0Flags.Flags)
      modifies this
      ensures value == Cr0Merge(old(value), flags)
      ensures value & CR0_RESERVED == old(value) & CR0_RESERVED
      ensures Cr0Flags.FromBitsTruncate(value) == flags
    {
      var oldValue := ReadRaw();
      var newValue := Cr0Merge(oldValue, flags);
      WriteRaw(newValue);
    }

    /** `Cr0::update`: reads the flags, lets `change` compute their new value, and writes
        that back with `write`, so the reserved bits are kept. */
    method Update(change: Cr0Flags.Flags -> Cr0Flags.Flags)
      modifies this
      ensures value == Cr0Merge(old(value), change(Cr0Flags.FromBitsTruncate(old(value))))
      ensures value & CR0_RESERVED == old(value) & CR0_RESERVED
    {
      var flags := Read();
      flags := change(flags);
      Write(flags);
    }
  }

  /** The example driven through the register itself: `read`, then `update` clearing
      protected mode, then `read_raw`. */
  method Cr0Session() returns (seen: Cr0Flags.Flags, after: bv64)
    ensures seen == Cr0Flags.PROTECTED_MODE_ENABLE | Cr0Flags.PAGING
    ensures after == 0x8000_0010
  {
    var cr0 := new Cr0(0x8000_0011);
    seen := cr0.Read();
    cr0.Update(f => f & !Cr0Flags.PROTECTED_MODE_ENABLE);
    after := cr0.ReadRaw();
  }

  // ----- CR3 -----

  /** The bits of CR3 that hold the level 4 table's physical address: 12 to 51. */
  const ADDRESS_MASK: bv64 := 0x000f_ffff_ffff_f000

  /** The start address of a physical frame, as `PhysFrame::start_address` gives it:
      every bit outside the address field clear. */
  type FrameAddress = a: bv64 | a & !ADDRESS_MASK == 0

  /** A frame address is exactly a 4 KiB-aligned address below 2^52. */
  lemma FrameAddressAligned(a: bv64)
    ensures a & !ADDRESS_MASK == 0 <==> a % 0x1000 == 0 && a < 1 << 52
  {
  }

  /** The address field and the flag field of CR3 do not overlap. */
  lemma Cr3FieldsDisjoint()
    ensures ADDRESS_MASK & Cr3Flags.ALL == 0
  {
    Cr3Flags.AllValue();
  }

  /** `Cr3::read` on a raw word: the address is bits 12 to 51, the flags bits 3 and 4;
      bits 0 to 2, 5 to 11 and 52 to 63 are discarded. */
  function Cr3Decode(value: bv64): (r: (FrameAddress, Cr3Flags.Flags))
    ensures r.0 == value & 0x000f_ffff_ffff_f000
    ensures r.1 == value & 0x18
  {
    (value & ADDRESS_MASK, Cr3Flags.FromBitsTruncate(value))
  }

  /** The address `Cr3::read` reports is the start of a 4 KiB frame below 2^52. */
  lemma Cr3DecodeAligned(value: bv64)
    ensures Cr3Decode(value).0 % 0x1000 == 0 && Cr3Decode(value).0 < 1 << 52
  {
    FrameAddressAligned(Cr3Decode(value).0);
  }

  /** `Cr3::write`'s word: the frame's start address combined with the flag bits. The
      address lands in the address field, the flags in the flag field, and no other
      bit is set. */
  function Cr3Encode(frame: FrameAddress, flags: Cr3Flags.Flags): (v: bv64)
    ensures v & ADDRESS_MASK == frame
    ensures v & 0x18 == flags
    ensures v & !(ADDRESS_MASK | 0x18) == 0
  {
    Cr3Flags.WithinAll(flags);
    frame | flags
  }

  /** Decoding an encoded word gives back the frame and the flags. */
  lemma Cr3RoundTrip(frame: FrameAddress, flags: Cr3Flags.Flags)
    ensures Cr3Decode(Cr3Encode(frame, flags)) == (frame, flags)
  {
  }

  /** Re-encoding a decoded word keeps exactly its address and flag bits; the word comes
      back unchanged exactly when it had no other bit set. */
  lemma Cr3ReEncode(value: bv64)
    ensures Cr3Encode(Cr3Decode(value).0, Cr3Decode(value).1) == value & (ADDRESS_MASK | 0x18)
    ensures Cr3Encode(Cr3Decode(value).0, Cr3Decode(value).1) == value <==> value & !(ADDRESS_MASK | 0x18) == 0
  {
  }

  /** A CR3 word naming the table at 0x1234_5000: with both cache flags set they are
      reported; the low bits 0 and 1 are not CR3 flags and are discarded. */
  lemma Cr3Example()
    ensures Cr3Decode(0x1234_5018) == (0x1234_5000, Cr3Flags.PAGE_LEVEL_WRITETHROUGH | Cr3Flags.PAGE_LEVEL_CACHE_DISABLE)
    ensures Cr3Decode(0x1234_5003) == (0x1234_5000, 0)
    ensures Cr3Encode(0x1234_5000, Cr3Flags.PAGE_LEVEL_WRITETHROUGH | Cr3Flags.PAGE_LEVEL_CACHE_DISABLE) == 0x1234_5018
  {
    Cr3Flags.AllValue();
  }

  /** CR3, the register holding the physical address of the level 4 page table. */
  class Cr3 {
    /** The live register word. */
    var value: bv64

    constructor (initial: bv64)
      ensures value == initial
    {
      value := initial;
    }

    /** `Cr3::read`: the frame of the level 4 table and its cache flags. */
    method Read() returns (frame: FrameAddress, flags: Cr3Flags.Flags)
      ensures frame == value & ADDRESS_MASK
      ensures flags == value & Cr3Flags.ALL
      ensures (frame, flags) == Cr3Decode(value)
    {
      var raw := value;
      flags := Cr3Flags.FromBitsTruncate(raw);
      frame := raw & ADDRESS_MASK;
    }

    /** `Cr3::write`: replaces the whole word by the frame's address and the flags; no
        reserved bit is preserved. A following `read` returns the same frame and flags. */
    method Write(frame: FrameAddress, flags: Cr3Flags.Flags)
      modifies this
      ensures value == Cr3Encode(frame, flags)
      ensures Cr3Decode(value) == (frame, flags)
    {
      var v := frame | flags;
      value := v;
      Cr3RoundTrip(frame, flags);
    }
  }
}
