/** Memory objects: the binary search for the region of an address, and the checks that
    an access stays inside one region, in unsigned arithmetic that may wrap. */
module Memory {
  import opened Arith
  import opened KernelSpec

  const TA_NULL: bv32 := 0
  const TA_NOWRITE: bv32 := 0x01
  const TA_NOREAD: bv32 := 0x02
  const TA_EXEC: bv32 := 0x04
  const TOPPERS_USTACK: bv32 := 0x0400
  const TPM_WRITE: bv32 := 0x01
  const TPM_READ: bv32 := 0x02
  const TPM_EXEC: bv32 := 0x04
  const TACP_KERNEL: bv32 := 0

  /** (x & mask) != 0. */
  predicate Bits(x: bv32, mask: bv32) {
    x & mask != 0
  }

  datatype Meminib = Meminib(mematr: bv32, acptn4: bv32, acptn1: bv32, acptn2: bv32)

  /** The static tables, for addresses and sizes below word. */
  datatype Map = Map(word: nat, memtop: seq<nat>, meminib: seq<Meminib>)

  /** The user stack and the domain of a task. */
  datatype Task = Task(ustk: nat, ustksz: nat, domptn: bv32)

  /** The configurator writes the tables in ascending order of address; the end of the
      last region is the end of the address space. */
  ghost predicate MapOk(m: Map) {
    && m.memtop != [] && |m.meminib| == |m.memtop|
    && (forall i :: 0 <= i < |m.memtop| ==> m.memtop[i] < m.word)
    && (forall i, j :: 0 <= i < j < |m.memtop| ==> m.memtop[i] < m.memtop[j])
  }

  /** Region i ends where the next begins. */
  function End(m: Map, i: nat): nat
    requires i < |m.memtop|
  {
    if i + 1 < |m.memtop| then m.memtop[i + 1] else m.word
  }

  ghost predicate InRegion(m: Map, i: nat, addr: nat) {
    i < |m.memtop| && m.memtop[i] <= addr < End(m, i)
  }

  lemma RegionUnique(m: Map, i: nat, j: nat, addr: nat)
    requires MapOk(m) && InRegion(m, i, addr) && InRegion(m, j, addr)
    ensures i == j
  {
  }

  /** The region of an address. */
  function RegionOf(m: Map, addr: nat): (i: nat)
    requires MapOk(m) && m.memtop[0] <= addr < m.word
    ensures InRegion(m, i, addr) && forall j: nat :: InRegion(m, j, addr) ==> j == i
  {
    LastAtMost(m, addr, |m.memtop|)
  }

  function LastAtMost(m: Map, addr: nat, n: nat): (i: nat)
    requires MapOk(m) && m.memtop[0] <= addr < m.word && 0 < n <= |m.memtop|
    requires n < |m.memtop| ==> addr < m.memtop[n]
    ensures InRegion(m, i, addr) && forall j: nat :: InRegion(m, j, addr) ==> j == i
  {
    if m.memtop[n - 1] <= addr then n - 1 else LastAtMost(m, addr, n - 1)
  }

  /** search_meminib finds the region that contains the address. */
  method SearchMeminib(m: Map, addr: nat) returns (left: nat)
    requires MapOk(m) && m.memtop[0] <= addr < m.word
    ensures left == RegionOf(m, addr)
  {
    left := 0;
    var right := |m.memtop| - 1;
    while left < right
      invariant 0 <= left <= right < |m.memtop|
      invariant m.memtop[left] <= addr
      invariant right + 1 < |m.memtop| ==> addr < m.memtop[right + 1]
      decreases right - left
    {
      var i := (left + right + 1) / 2;
      if addr < m.memtop[i] {
        right := i - 1;
      } else {
        left := i;
      }
    }
  }

  /** The size the code computes for the part of region i from base on: the end of the
      last region is written 0, and the subtraction wraps. */
  function MemSize(m: Map, i: nat, base: nat): nat
    requires m.word > 0
  {
    ((if i + 1 < |m.memtop| then m.memtop[i + 1] else 0) - base as int) % m.word
  }

  /** That size is exact; the only exception is the whole address space from address 0,
      which counts as empty. */
  lemma MemSizeIs(m: Map, i: nat, base: nat)
    requires MapOk(m) && InRegion(m, i, base)
    ensures MemSize(m, i, base) == if End(m, i) - base == m.word then 0 else End(m, i) - base
  {
    var d := End(m, i) - base;
    if i + 1 < |m.memtop| {
      Small(d, m.word);
    } else {
      AddMultiple(-(base as int), 1, m.word);
      if d < m.word {
        Small(d, m.word);
      }
    }
  }

  /** The range from base lies in region i, as far as the size check can tell. */
  ghost predicate Fits(m: Map, i: nat, base: nat, size: nat) {
    InRegion(m, i, base) && base + size <= End(m, i) && (End(m, i) - base == m.word ==> size == 0)
  }

  /** A range that fits does not wrap and lies in that one region altogether. */
  lemma FitsInside(m: Map, i: nat, base: nat, size: nat)
    requires MapOk(m) && Fits(m, i, base, size)
    ensures base + size <= m.word
    ensures forall a :: base <= a < base + size ==> InRegion(m, i, a)
    ensures forall a, j: nat :: base <= a < base + size && InRegion(m, j, a) ==> j == i
  {
    forall a, j: nat | base <= a < base + size && InRegion(m, j, a) ensures j == i {
      RegionUnique(m, i, j, a);
    }
  }

  /** within_memobj. */
  predicate WithinMemobj(base: nat, size: nat, mobase: nat, mosize: nat) {
    mobase <= base && size <= mosize && base - mobase <= mosize - size
  }

  /** No sum in it can overflow, and it is exactly containment. */
  lemma WithinExact(base: nat, size: nat, mobase: nat, mosize: nat)
    ensures WithinMemobj(base, size, mobase, mosize) <==> mobase <= base && base + size <= mobase + mosize
  {
  }

  // ---- the fast probes of the running domain ---------------------------------------------

  /** probe_mem_write for the running user task t. */
  predicate ProbeMemWrite(m: Map, base: nat, size: nat, rundom: bv32, t: Task)
    requires MapOk(m) && m.memtop[0] <= base < m.word
  {
    var i := RegionOf(m, base);
    var b := m.meminib[i];
    if b.mematr == TA_NULL then false
    else if size > MemSize(m, i, base) then false
    else if !Bits(b.mematr, TOPPERS_USTACK) then Bits(rundom, b.acptn1)
    else WithinMemobj(base, size, t.ustk, t.ustksz)
  }

  /** probe_mem_read. */
  predicate ProbeMemRead(m: Map, base: nat, size: nat, rundom: bv32, t: Task)
    requires MapOk(m) && m.memtop[0] <= base < m.word
  {
    var i := RegionOf(m, base);
    var b := m.meminib[i];
    if b.mematr == TA_NULL then false
    else if size > MemSize(m, i, base) then false
    else if !Bits(b.mematr, TOPPERS_USTACK) then !Bits(b.mematr, TA_NOREAD) && Bits(rundom, b.acptn2)
    else WithinMemobj(base, size, t.ustk, t.ustksz)
  }

  /** valid_memobj. */
  predicate ValidMemobj(m: Map, base: nat, size: nat)
    requires MapOk(m) && m.memtop[0] <= base < m.word
  {
    var i := RegionOf(m, base);
    m.meminib[i].mematr != TA_NULL && size <= MemSize(m, i, base)
  }

  /** valid_memobj_kernel. */
  predicate ValidMemobjKernel(m: Map, base: nat, size: nat)
    requires MapOk(m) && m.memtop[0] <= base < m.word
  {
    var i := RegionOf(m, base);
    var b := m.meminib[i];
    if b.mematr == TA_NULL then false
    else if size > MemSize(m, i, base) then false
    else !Bits(b.mematr, TA_NOWRITE | TA_NOREAD)
         && b.acptn1 == TACP_KERNEL && b.acptn2 == TACP_KERNEL && b.acptn4 == TACP_KERNEL
  }

  /** probe_memory: may task t, asked about by domain rundom, access the range as mode says? */
  function ProbeMemory(m: Map, base: nat, size: nat, t: Task, pmmode: bv32, rundom: bv32): Er
    requires MapOk(m) && m.memtop[0] <= base < m.word
  {
    var i := RegionOf(m, base);
    var b := m.meminib[i];
    if b.mematr == TA_NULL then E_NOEXS
    else if size > MemSize(m, i, base) then E_OBJ
    else if rundom != TACP_KERNEL && !Bits(rundom, b.acptn4) then E_OACV
    else if t.domptn == TACP_KERNEL then E_OK
    else if !Bits(b.mematr, TOPPERS_USTACK) then
      if Bits(pmmode, TPM_WRITE) && !Bits(t.domptn, b.acptn1) then E_MACV
      else if Bits(pmmode, TPM_READ) && (Bits(b.mematr, TA_NOREAD) || !Bits(t.domptn, b.acptn2)) then E_MACV
      else if Bits(pmmode, TPM_EXEC) && (!Bits(b.mematr, TA_EXEC) || !Bits(t.domptn, b.acptn2)) then E_MACV
      else E_OK
    else if !WithinMemobj(base, size, t.ustk, t.ustksz) then E_MACV
    else if Bits(pmmode, TPM_EXEC) && !Bits(b.mematr, TA_EXEC) then E_MACV
    else E_OK
  }

  // ---- what the probes promise ------------------------------------------------------------

  /** The size check passes exactly for the ranges that lie in the one region of base, and
      then nothing wraps, the last region included. */
  lemma SizeCheck(m: Map, base: nat, size: nat)
    requires MapOk(m) && m.memtop[0] <= base < m.word
    ensures size <= MemSize(m, RegionOf(m, base), base) <==> Fits(m, RegionOf(m, base), base, size)
  {
    MemSizeIs(m, RegionOf(m, base), base);
  }

  /** A probe that says yes speaks for every byte: all of them are in one region, which is
      a memory object that the domain may write, or all in the stack of the task. */
  lemma WriteProbeExact(m: Map, base: nat, size: nat, rundom: bv32, t: Task)
    requires MapOk(m) && m.memtop[0] <= base < m.word
    ensures ProbeMemWrite(m, base, size, rundom, t) <==>
      var i := RegionOf(m, base); var b := m.meminib[i];
      && Fits(m, i, base, size) && b.mematr != TA_NULL
      && (if !Bits(b.mematr, TOPPERS_USTACK) then Bits(rundom, b.acptn1)
          else t.ustk <= base && base + size <= t.ustk + t.ustksz)
    ensures ProbeMemWrite(m, base, size, rundom, t) ==>
      base + size <= m.word && forall a :: base <= a < base + size ==> RegionOf(m, a) == RegionOf(m, base)
  {
    hide MemSize, RegionOf, Bits, Fits, WithinMemobj;
    SizeCheck(m, base, size);
    WithinExact(base, size, t.ustk, t.ustksz);
    if ProbeMemWrite(m, base, size, rundom, t) {
      OneRegion(m, base, size);
    }
  }

  lemma ReadProbeExact(m: Map, base: nat, size: nat, rundom: bv32, t: Task)
    requires MapOk(m) && m.memtop[0] <= base < m.word
    ensures ProbeMemRead(m, base, size, rundom, t) <==>
      var i := RegionOf(m, base); var b := m.meminib[i];
      && Fits(m, i, base, size) && b.mematr != TA_NULL
      && (if !Bits(b.mematr, TOPPERS_USTACK) then !Bits(b.mematr, TA_NOREAD) && Bits(rundom, b.acptn2)
          else t.ustk <= base && base + size <= t.ustk + t.ustksz)
    ensures ProbeMemRead(m, base, size, rundom, t) ==>
      base + size <= m.word && forall a :: base <= a < base + size ==> RegionOf(m, a) == RegionOf(m, base)
  {
    hide MemSize, RegionOf, Bits, Fits, WithinMemobj;
    SizeCheck(m, base, size);
    WithinExact(base, size, t.ustk, t.ustksz);
    if ProbeMemRead(m, base, size, rundom, t) {
      OneRegion(m, base, size);
    }
  }

  lemma OneRegion(m: Map, base: nat, size: nat)
    requires MapOk(m) && m.memtop[0] <= base < m.word && Fits(m, RegionOf(m, base), base, size)
    ensures base + size <= m.word
    ensures forall a :: base <= a < base + size ==> RegionOf(m, a) == RegionOf(m, base)
  {
    hide RegionOf;
    FitsInside(m, RegionOf(m, base), base, size);
    forall a | base <= a < base + size ensures RegionOf(m, a) == RegionOf(m, base) {
      assert InRegion(m, RegionOf(m, base), a);
    }
  }

  /** valid_memobj: the range is inside one memory object. */
  lemma ValidExact(m: Map, base: nat, size: nat)
    requires MapOk(m) && m.memtop[0] <= base < m.word
    ensures ValidMemobj(m, base, size) <==>
      m.meminib[RegionOf(m, base)].mematr != TA_NULL && Fits(m, RegionOf(m, base), base, size)
    ensures ValidMemobjKernel(m, base, size) ==> ValidMemobj(m, base, size)
  {
    hide MemSize, RegionOf, Bits, Fits;
    SizeCheck(m, base, size);
  }

  /** What valid_memobj_kernel accepts no user domain can write or read, but for a task in
      its own stack. */
  lemma KernelOnly(m: Map, base: nat, size: nat, size1: nat, rundom: bv32, t: Task)
    requires MapOk(m) && m.memtop[0] <= base < m.word && ValidMemobjKernel(m, base, size)
    ensures ProbeMemWrite(m, base, size1, rundom, t) || ProbeMemRead(m, base, size1, rundom, t) ==>
      Bits(m.meminib[RegionOf(m, base)].mematr, TOPPERS_USTACK) && t.ustk <= base && base + size1 <= t.ustk + t.ustksz
  {
    hide MemSize, RegionOf, Bits;
    NoBits(rundom);
    WithinExact(base, size1, t.ustk, t.ustksz);
  }

  lemma NoBits(x: bv32)
    ensures !Bits(x, TACP_KERNEL)
  {
  }

  /** The general check agrees with the fast probe for the running user task: it says yes
      exactly when the fast probe does and the domain may also refer to the object. */
  lemma WriteProbesAgree(m: Map, base: nat, size: nat, rundom: bv32, t: Task)
    requires MapOk(m) && m.memtop[0] <= base < m.word && t.domptn == rundom && rundom != TACP_KERNEL
    ensures ProbeMemory(m, base, size, t, TPM_WRITE, rundom) == E_OK <==>
      ProbeMemWrite(m, base, size, rundom, t) && Bits(rundom, m.meminib[RegionOf(m, base)].acptn4)
  {
    hide RegionOf, MemSize, WithinMemobj, Bits;
    OneMode();
  }

  lemma ReadProbesAgree(m: Map, base: nat, size: nat, rundom: bv32, t: Task)
    requires MapOk(m) && m.memtop[0] <= base < m.word && t.domptn == rundom && rundom != TACP_KERNEL
    ensures ProbeMemory(m, base, size, t, TPM_READ, rundom) == E_OK <==>
      ProbeMemRead(m, base, size, rundom, t) && Bits(rundom, m.meminib[RegionOf(m, base)].acptn4)
  {
    hide RegionOf, MemSize, WithinMemobj, Bits;
    OneMode();
  }

  /** The range is inside one memory object, and inside the stack of the task if it is in
      a stack region. */
  predicate InOneObject(m: Map, base: nat, size: nat, t: Task)
    requires MapOk(m) && m.memtop[0] <= base < m.word
  {
    var i := RegionOf(m, base);
    var b := m.meminib[i];
    && b.mematr != TA_NULL && size <= MemSize(m, i, base)
    && (Bits(b.mematr, TOPPERS_USTACK) ==> WithinMemobj(base, size, t.ustk, t.ustksz))
  }

  /** With several modes asked for at once, yes means yes to each of them and that the
      domain may refer to the object, and nothing else. */
  lemma ProbeModesExact(m: Map, base: nat, size: nat, rundom: bv32, t: Task, pmmode: bv32)
    requires MapOk(m) && m.memtop[0] <= base < m.word && t.domptn == rundom && rundom != TACP_KERNEL
    ensures var b := m.meminib[RegionOf(m, base)];
      ProbeMemory(m, base, size, t, pmmode, rundom) == E_OK <==>
        && Bits(rundom, b.acptn4) && InOneObject(m, base, size, t)
        && (Bits(pmmode, TPM_WRITE) ==> ProbeMemWrite(m, base, size, rundom, t))
        && (Bits(pmmode, TPM_READ) ==> ProbeMemRead(m, base, size, rundom, t))
        && (Bits(pmmode, TPM_EXEC) ==>
              Bits(b.mematr, TA_EXEC) && (!Bits(b.mematr, TOPPERS_USTACK) ==> Bits(rundom, b.acptn2)))
  {
    hide RegionOf, MemSize, WithinMemobj, Bits;
  }

  lemma OneMode()
    ensures Bits(TPM_WRITE, TPM_WRITE) && !Bits(TPM_WRITE, TPM_READ) && !Bits(TPM_WRITE, TPM_EXEC)
    ensures Bits(TPM_READ, TPM_READ) && !Bits(TPM_READ, TPM_WRITE) && !Bits(TPM_READ, TPM_EXEC)
  {
  }
}
