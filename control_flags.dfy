/**
  The three `bitflags!` types of the control registers: the named constants of CR0, CR3 and
  CR4, each the single bit `1 << n` at its declared position `n`, the value of `all()` for each, and
  `from_bits_truncate` specialised to each register.
 */

/** `Cr0Flags`: the operating-mode and state flags of CR0. */
module Cr0Flags {
  import opened BitFlags

  /** Enables protected mode. */
  const PROTECTED_MODE_ENABLE: bv64 := 1 << 0
  /** Enables monitoring of the coprocessor (x87 `wait`/`fwait` together with TASK_SWITCHED). */
  const MONITOR_COPROCESSOR: bv64 := 1 << 1
  /** Makes every x87 and MMX instruction raise an exception. */
  const EMULATE_COPROCESSOR: bv64 := 1 << 2
  /** Set by the processor on a hardware task switch. */
  const TASK_SWITCHED: bv64 := 1 << 3
  /** Enables native reporting of x87 FPU errors. */
  const NUMERIC_ERROR: bv64 := 1 << 5
  /** Stops supervisor-level writes to read-only pages. */
  const WRITE_PROTECT: bv64 := 1 << 16
  /** Enables automatic alignment checking. */
  const ALIGNMENT_MASK: bv64 := 1 << 18
  /** Ignored; selected write-back or write-through caching on older processors. */
  const NOT_WRITE_THROUGH: bv64 := 1 << 29
  /** Disables the internal caches. */
  const CACHE_DISABLE: bv64 := 1 << 30
  /** Enables page translation. */
  const PAGING: bv64 := 1 << 31

  /** The bit positions of the named constants, in declaration order. */
  const POSITIONS: seq<Position> := [0, 1, 2, 3, 5, 16, 18, 29, 30, 31]

  /** `Cr0Flags::all()`: the union of every named constant. */
  const ALL: bv64 :=
    PROTECTED_MODE_ENABLE | MONITOR_COPROCESSOR | EMULATE_COPROCESSOR | TASK_SWITCHED |
    NUMERIC_ERROR | WRITE_PROTECT | ALIGNMENT_MASK | NOT_WRITE_THROUGH | CACHE_DISABLE | PAGING

  /** A `Cr0Flags` value: a word whose set bits are all named. */
  type Flags = f: bv64 | Named(f, ALL)

  /** A flag set holds named bits only. */
  lemma WithinAll(f: Flags)
    ensures f & 0xE005_002F == f
  {
    AllValue();
    assert Named(f, ALL);
  }

  /** Each named constant is the bit at its own entry of `POSITIONS`. */
  ghost predicate AtPositions() {
    |POSITIONS| == 10 &&
    PROTECTED_MODE_ENABLE == Bit(POSITIONS[0]) &&
    MONITOR_COPROCESSOR == Bit(POSITIONS[1]) &&
    EMULATE_COPROCESSOR == Bit(POSITIONS[2]) &&
    TASK_SWITCHED == Bit(POSITIONS[3]) &&
    NUMERIC_ERROR == Bit(POSITIONS[4]) &&
    WRITE_PROTECT == Bit(POSITIONS[5]) &&
    ALIGNMENT_MASK == Bit(POSITIONS[6]) &&
    NOT_WRITE_THROUGH == Bit(POSITIONS[7]) &&
    CACHE_DISABLE == Bit(POSITIONS[8]) &&
    PAGING == Bit(POSITIONS[9])
  }

  /** The constants and the position list agree, entry by entry. */
  lemma ConstantsAtPositions()
    ensures AtPositions()
  {
  }

  /** The named constants are single bits, one per entry of `POSITIONS`, and no two of them
      share a bit. */
  lemma ConstantsDisjoint()
    ensures AtPositions()
    ensures forall i, j :: 0 <= i < |POSITIONS| && 0 <= j < |POSITIONS| && i != j ==>
      Bit(POSITIONS[i]) & Bit(POSITIONS[j]) == 0
  {
    ConstantsAtPositions();
    DeclaredBitsDisjoint(POSITIONS);
  }

  /** `all()` is `0xE005_002F`. */
  lemma AllValue()
    ensures ALL == 0xE005_002F
  {
  }

  /** The declared positions, as ranges: 0 to 3, 5, 16, 18 and 29 to 31. */
  predicate InDeclaredRanges(p: Position) {
    p <= 3 || p == 5 || p == 16 || p == 18 || 29 <= p <= 31
  }

  /** `all()` has a bit set exactly in the declared ranges. */
  lemma AllBitsInRanges()
    ensures forall p: Position :: HasBit(ALL, p) <==> InDeclaredRanges(p)
  {
    AllValue();
  }

  /** `POSITIONS` lists exactly the declared ranges. */
  lemma PositionsInRanges()
    ensures forall p: Position :: p in POSITIONS <==> InDeclaredRanges(p)
  {
  }

  /** `all()` has a bit set exactly at each declared position. */
  lemma AllBits()
    ensures forall p: Position :: HasBit(ALL, p) <==> p in POSITIONS
  {
    AllBitsInRanges();
    PositionsInRanges();
  }

  /** `Cr0Flags::from_bits_truncate`: keeps a raw bit exactly when it is at a declared position. */
  function FromBitsTruncate(raw: bv64): (f: Flags)
    ensures f == raw & 0xE005_002F
  {
    AllValue();
    BitFlags.FromBitsTruncate(raw, ALL)
  }
}

/** `Cr3Flags`: the cache-control flags for the level 4 page table held in CR3. */
module Cr3Flags {
  import opened BitFlags

  /** Write-through caching for the level 4 table (write-back when clear). */
  const PAGE_LEVEL_WRITETHROUGH: bv64 := 1 << 3
  /** Disables caching of the level 4 table. */
  const PAGE_LEVEL_CACHE_DISABLE: bv64 := 1 << 4

  /** The bit positions of the named constants, in declaration order. */
  const POSITIONS: seq<Position> := [3, 4]

  /** `Cr3Flags::all()`. */
  const ALL: bv64 := PAGE_LEVEL_WRITETHROUGH | PAGE_LEVEL_CACHE_DISABLE

  /** A `Cr3Flags` value. */
  type Flags = f: bv64 | Named(f, ALL)

  /** A flag set holds named bits only. */
  lemma WithinAll(f: Flags)
    ensures f & 0x18 == f
  {
    AllValue();
    assert Named(f, ALL);
  }

  /** Each named constant is the bit at its own entry of `POSITIONS`. */
  ghost predicate AtPositions() {
    |POSITIONS| == 2 &&
    PAGE_LEVEL_WRITETHROUGH == Bit(POSITIONS[0]) &&
    PAGE_LEVEL_CACHE_DISABLE == Bit(POSITIONS[1])
  }

  /** The constants and the position list agree, entry by entry. */
  lemma ConstantsAtPositions()
    ensures AtPositions()
  {
  }

  /** The named constants are single bits, one per entry of `POSITIONS`, and no two of them
      share a bit. */
  lemma ConstantsDisjoint()
    ensures AtPositions()
    ensures forall i, j :: 0 <= i < |POSITIONS| && 0 <= j < |POSITIONS| && i != j ==>
      Bit(POSITIONS[i]) & Bit(POSITIONS[j]) == 0
  {
    ConstantsAtPositions();
    DeclaredBitsDisjoint(POSITIONS);
  }

  /** `all()` is `0x18`. */
  lemma AllValue()
    ensures ALL == 0x18
  {
  }

  /** The declared positions, as ranges: 3 and 4. */
  predicate InDeclaredRanges(p: Position) {
    p == 3 || p == 4
  }

  /** `all()` has a bit set exactly in the declared ranges. */
  lemma AllBitsInRanges()
    ensures forall p: Position :: HasBit(ALL, p) <==> InDeclaredRanges(p)
  {
    AllValue();
  }

  /** `POSITIONS` lists exactly the declared ranges. */
  lemma PositionsInRanges()
    ensures forall p: Position :: p in POSITIONS <==> InDeclaredRanges(p)
  {
  }

  /** `all()` has bits 3 and 4 set and no other. */
  lemma AllBits()
    ensures forall p: Position :: HasBit(ALL, p) <==> p in POSITIONS
  {
    AllBitsInRanges();
    PositionsInRanges();
  }

  /** `Cr3Flags::from_bits_truncate`: keeps bits 3 and 4 of the raw word and drops the rest. */
  function FromBitsTruncate(raw: bv64): (f: Flags)
    ensures f == raw & 0x18
  {
    AllValue();
    BitFlags.FromBitsTruncate(raw, ALL)
  }
}

/** `Cr4Flags`: the architectural-extension flags of CR4. */
module Cr4Flags {
  import opened BitFlags

  /** VME: virtual interrupt flag in virtual-8086 mode. */
  const VIRTUAL_8086_MODE_EXTENSIONS: bv64 := 1 << 0
  /** PVI: virtual interrupt flag in protected mode. */
  const PROTECTED_MODE_VIRTUAL_INTERRUPTS: bv64 := 1 << 1
  /** TSD: RDTSC only in ring 0. */
  const TIME_STAMP_DISABLE: bv64 := 1 << 2
  /** DE: debug-register breaks on I/O space access. */
  const DEBUGGING_EXTENSIONS: bv64 := 1 << 3
  /** PSE: 4 MiB pages (ignored under PAE and in long mode). */
  const PAGE_SIZE_EXTENSIONS: bv64 := 1 << 4
  /** PAE: 36-bit physical addresses for 32-bit virtual ones. */
  const PHYSICAL_ADDRESS_EXTENSIONS: bv64 := 1 << 5
  /** MCE: machine-check interrupts. */
  const MACHINE_CHECK_EXTENSIONS: bv64 := 1 << 6
  /** PGE: translations shared between address spaces. */
  const PAGE_GLOBAL_ENABLED: bv64 := 1 << 7
  /** PCE: RDPMC at any privilege level. */
  const PERFORMANCE_MONITORING_COUNTER_ENABLE: bv64 := 1 << 8
  /** OSFXSR: SSE instructions and fast FPU save and restore. */
  const OS_SUPPORT_FOR_FXSAVE_AND_FXRSTOR_INSTRUCTIONS: bv64 := 1 << 9
  /** OSXMMEXCPT: unmasked SSE exceptions. */
  const OS_SUPPORT_FOR_UNMASKED_SIMD_FLOATING_POINT_EXCEPTIONS: bv64 := 1 << 10
  /** UMIP: SGDT, SIDT, SLDT, SMSW and STR only at CPL 0. */
  const USER_MODE_INSTRUCTION_PREVENTION: bv64 := 1 << 11
  /** LA57: 5-level paging. */
  const LA57: bv64 := 1 << 12
  /** VMXE. */
  const VIRTUAL_MACHINE_EXTENSIONS_ENABLE: bv64 := 1 << 13
  /** SMXE. */
  const SAFER_MODE_EXTENSIONS_ENABLED: bv64 := 1 << 14
  /** FSGSBASE. */
  const FSGSBASE: bv64 := 1 << 16
  /** PCIDE: process-context identifiers. */
  const PCID_ENABLE: bv64 := 1 << 17
  /** OSXSAVE. */
  const XSAVE_AND_PROCESSOR_EXTENDED_STATES_ENABLE: bv64 := 1 << 18
  /** SMEP: executing code of a less privileged ring faults. */
  const SUPERVISOR_MODE_EXECUTION_PROTECTION_ENABLE: bv64 := 1 << 20
  /** SMAP: accessing data of a less privileged ring faults. */
  const SUPERVISOR_MODE_ACCESS_PREVENTION_ENABLE: bv64 := 1 << 21
  /** PKE: protection keys. */
  const PROTECTION_KEY_ENABLE: bv64 := 1 << 22

  /** The bit positions of the named constants, in declaration order. */
  const POSITIONS: seq<Position> :=
    [0, 1, 2, 3, 4, 5, 6, 7, 8, 9, 10, 11, 12, 13, 14, 16, 17, 18, 20, 21, 22]

  /** `Cr4Flags::all()`. */
  const ALL: bv64 :=
    VIRTUAL_8086_MODE_EXTENSIONS | PROTECTED_MODE_VIRTUAL_INTERRUPTS | TIME_STAMP_DISABLE |
    DEBUGGING_EXTENSIONS | PAGE_SIZE_EXTENSIONS | PHYSICAL_ADDRESS_EXTENSIONS |
    MACHINE_CHECK_EXTENSIONS | PAGE_GLOBAL_ENABLED | PERFORMANCE_MONITORING_COUNTER_ENABLE |
    OS_SUPPORT_FOR_FXSAVE_AND_FXRSTOR_INSTRUCTIONS |
    OS_SUPPORT_FOR_UNMASKED_SIMD_FLOATING_POINT_EXCEPTIONS | USER_MODE_INSTRUCTION_PREVENTION |
    LA57 | VIRTUAL_MACHINE_EXTENSIONS_ENABLE | SAFER_MODE_EXTENSIONS_ENABLED | FSGSBASE |
    PCID_ENABLE | XSAVE_AND_PROCESSOR_EXTENDED_STATES_ENABLE |
    SUPERVISOR_MODE_EXECUTION_PROTECTION_ENABLE | SUPERVISOR_MODE_ACCESS_PREVENTION_ENABLE |
    PROTECTION_KEY_ENABLE

  /** A `Cr4Flags` value. */
  type Flags = f: bv64 | Named(f, ALL)

  /** A flag set holds named bits only. */
  lemma WithinAll(f: Flags)
    ensures f & 0x77_7FFF == f
  {
    AllValue();
    assert Named(f, ALL);
  }

  /** Constants 0 to 6 of the declaration are the bits at their entries of `POSITIONS`. */
  ghost predicate LowAtPositions()
    requires |POSITIONS| == 21
  {
    VIRTUAL_8086_MODE_EXTENSIONS == Bit(POSITIONS[0]) &&
    PROTECTED_MODE_VIRTUAL_INTERRUPTS == Bit(POSITIONS[1]) &&
    TIME_STAMP_DISABLE == Bit(POSITIONS[2]) &&
    DEBUGGING_EXTENSIONS == Bit(POSITIONS[3]) &&
    PAGE_SIZE_EXTENSIONS == Bit(POSITIONS[4]) &&
    PHYSICAL_ADDRESS_EXTENSIONS == Bit(POSITIONS[5]) &&
    MACHINE_CHECK_EXTENSIONS == Bit(POSITIONS[6])
  }

  lemma LowConstantsAtPositions()
    ensures |POSITIONS| == 21 && LowAtPositions()
  {
  }

  /** Constants 7 to 13 of the declaration are the bits at their entries of `POSITIONS`. */
  ghost predicate MiddleAtPositions()
    requires |POSITIONS| == 21
  {
    PAGE_GLOBAL_ENABLED == Bit(POSITIONS[7]) &&
    PERFORMANCE_MONITORING_COUNTER_ENABLE == Bit(POSITIONS[8]) &&
    OS_SUPPORT_FOR_FXSAVE_AND_FXRSTOR_INSTRUCTIONS == Bit(POSITIONS[9]) &&
    OS_SUPPORT_FOR_UNMASKED_SIMD_FLOATING_POINT_EXCEPTIONS == Bit(POSITIONS[10]) &&
    USER_MODE_INSTRUCTION_PREVENTION == Bit(POSITIONS[11]) &&
    LA57 == Bit(POSITIONS[12]) &&
    VIRTUAL_MACHINE_EXTENSIONS_ENABLE == Bit(POSITIONS[13])
  }

  lemma MiddleConstantsAtPositions()
    ensures |POSITIONS| == 21 && MiddleAtPositions()
  {
  }

  /** Constants 14 to 20 of the declaration are the bits at their entries of `POSITIONS`. */
  ghost predicate HighAtPositions()
    requires |POSITIONS| == 21
  {
    SAFER_MODE_EXTENSIONS_ENABLED == Bit(POSITIONS[14]) &&
    FSGSBASE == Bit(POSITIONS[15]) &&
    PCID_ENABLE == Bit(POSITIONS[16]) &&
    XSAVE_AND_PROCESSOR_EXTENDED_STATES_ENABLE == Bit(POSITIONS[17]) &&
    SUPERVISOR_MODE_EXECUTION_PROTECTION_ENABLE == Bit(POSITIONS[18]) &&
    SUPERVISOR_MODE_ACCESS_PREVENTION_ENABLE == Bit(POSITIONS[19]) &&
    PROTECTION_KEY_ENABLE == Bit(POSITIONS[20])
  }

  lemma HighConstantsAtPositions()
    ensures |POSITIONS| == 21 && HighAtPositions()
  {
  }

  /** Each named constant is the bit at its own entry of `POSITIONS`. */
  ghost predicate AtPositions() {
    |POSITIONS| == 21 && LowAtPositions() && MiddleAtPositions() && HighAtPositions()
  }

  /** The constants and the position list agree, entry by entry. */
  lemma ConstantsAtPositions()
    ensures AtPositions()
  {
    LowConstantsAtPositions(); MiddleConstantsAtPositions(); HighConstantsAtPositions();
  }

  /** The named constants are single bits, one per entry of `POSITIONS`, and no two of them
      share a bit. */
  lemma ConstantsDisjoint()
    ensures AtPositions()
    ensures forall i, j :: 0 <= i < |POSITIONS| && 0 <= j < |POSITIONS| && i != j ==>
      Bit(POSITIONS[i]) & Bit(POSITIONS[j]) == 0
  {
    ConstantsAtPositions();
    DeclaredBitsDisjoint(POSITIONS);
  }

  /** `all()` is `0x77_7FFF`. */
  lemma AllValue()
    ensures ALL == 0x77_7FFF
  {
  }

  /** The declared positions, as ranges: 0 to 14, 16 to 18 and 20 to 22. */
  predicate InDeclaredRanges(p: Position) {
    p <= 14 || 16 <= p <= 18 || 20 <= p <= 22
  }

  /** `all()` has a bit set exactly in the declared ranges. */
  lemma AllBitsInRanges()
    ensures forall p: Position :: HasBit(ALL, p) <==> InDeclaredRanges(p)
  {
    AllValue();
  }

  /** `POSITIONS` lists exactly the declared ranges. */
  lemma PositionsInRanges()
    ensures forall p: Position :: p in POSITIONS <==> InDeclaredRanges(p)
  {
  }

  /** `all()` has a bit set exactly at each declared position: bits 0 to 14, 16 to 18 and
      20 to 22, and none at 15, at 19 or from 23 up. */
  lemma AllBits()
    ensures forall p: Position :: HasBit(ALL, p) <==> p in POSITIONS
    ensures !HasBit(ALL, 15) && !HasBit(ALL, 19)
    ensures forall p: Position :: 23 <= p ==> !HasBit(ALL, p)
  {
    AllBitsInRanges();
    PositionsInRanges();
  }

  /** `Cr4Flags::from_bits_truncate`: keeps a raw bit exactly when it is at a declared position. */
  function FromBitsTruncate(raw: bv64): (f: Flags)
    ensures f == raw & 0x77_7FFF
  {
    AllValue();
    BitFlags.FromBitsTruncate(raw, ALL)
  }
}
