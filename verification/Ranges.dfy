/** The range checks a memory put passes on its way from the API over the agent to the wire, in 64-bit arithmetic. */
module Ranges {
  import opened Wire

  type u64 = n: int | 0 <= n < 0x1_0000_0000_0000_0000

  /** Addition of two uint64_t values. */
  function Add(a: u64, b: u64): u64 { (a + b) % U64 }

  /** Half the address space: 2^63. */
  const HALF: nat := 0x8000_0000_0000_0000

  /** A registered region, or a mapping in the API process. */
  datatype Region = Region(addr: u64, length: u64)

  predicate NoWrap(r: Region) { r.addr + r.length < U64 }

  /** Is `[a, a + n)` inside the region, with unbounded integers? One past the end is allowed when `n` is 0. */
  predicate Inside(r: Region, a: u64, n: u64) { r.addr <= a && a + n <= r.addr + r.length }

  // ---------------------------------------------------------------- the three checks, as they are computed

  /** ivmSyncPut: the offset sent to the agent. `mrLength` is the length in the entry's memory handle. */
  function SyncPut(entry: Region, mrLength: u64, ptr: u64, length: u64): Option<u64> {
    if length > entry.length then None
    else if ptr < entry.addr || ptr > Add(entry.addr, entry.length) then None
    else if Add(ptr - entry.addr, length) > mrLength then None
    else Some(ptr - entry.addr)
  }

  /** HandleMemPut forms the address in the mirror from the offset. */
  function MirrorAddress(l: Region, offset: u64): u64 { Add(l.addr, offset) }

  /** remote_write: the address in the master. */
  function RemoteWrite(l: Region, r: Region, lAddr: u64, length: u64): Option<u64> {
    if lAddr < l.addr || lAddr > Add(l.addr, l.length) then None
    else if Add(lAddr - l.addr, length) > r.length then None
    else Some(Add(r.addr, lAddr - l.addr))
  }

  /** RemoteWriteAsyncLinkInet. */
  predicate LinkAccepts(r: Region, remAddr: u64, length: u64) {
    !(remAddr < r.addr || remAddr > Add(r.addr, r.length)) && Add(remAddr, length) <= Add(r.addr, r.length)
  }

  /** The whole way: the address range that is written in the master, if the put gets that far. */
  function Put(entry: Region, mrLength: u64, l: Region, r: Region, ptr: u64, length: u64): Option<u64> {
    match SyncPut(entry, mrLength, ptr, length)
    case None => None
    case Some(offset) =>
      match RemoteWrite(l, r, MirrorAddress(l, offset), length)
      case None => None
      case Some(remAddr) => if LinkAccepts(r, remAddr, length) then Some(remAddr) else None
  }

  // ---------------------------------------------------------------- each check alone, in unbounded arithmetic

  /** The API lets through, with the offset of the address, what is no longer than the entry, begins in it or at its
      end, and ends within the handle's length, the sum taken modulo 2^64. */
  lemma SyncPutAdmits(entry: Region, mrLength: u64, ptr: u64, length: u64)
    requires NoWrap(entry)
    ensures SyncPut(entry, mrLength, ptr, length).Some? ==>
              SyncPut(entry, mrLength, ptr, length).value == ptr - entry.addr
    ensures SyncPut(entry, mrLength, ptr, length).Some?
            <==> && length <= entry.length && entry.addr <= ptr <= entry.addr + entry.length
                 && (|| ptr - entry.addr + length <= mrLength
                     || 0x1_0000_0000_0000_0000 <= ptr - entry.addr + length <= 0x1_0000_0000_0000_0000 + mrLength)
  {
    SumModulo(entry.addr, entry.length);
    if entry.addr <= ptr <= entry.addr + entry.length {
      SumModulo(ptr - entry.addr, length);
    }
  }

  /** The agent lets through, with the same offset in the master, what begins in the mirror or at its end and ends
      within the master's length. */
  lemma RemoteWriteAdmits(l: Region, r: Region, lAddr: u64, length: u64)
    requires NoWrap(l)
    ensures RemoteWrite(l, r, lAddr, length).Some?
            <==> && l.addr <= lAddr <= l.addr + l.length
                 && (|| lAddr - l.addr + length <= r.length
                     || 0x1_0000_0000_0000_0000 <= lAddr - l.addr + length <= 0x1_0000_0000_0000_0000 + r.length)
    ensures RemoteWrite(l, r, lAddr, length).Some? && r.addr + (lAddr - l.addr) < 0x1_0000_0000_0000_0000 ==>
              RemoteWrite(l, r, lAddr, length).value == r.addr + (lAddr - l.addr)
  {
    SumModulo(l.addr, l.length);
    if l.addr <= lAddr <= l.addr + l.length {
      SumModulo(lAddr - l.addr, length);
      SumModulo(r.addr, lAddr - l.addr);
    }
  }

  /** The link lets through what begins in the master or at its end and ends in it. */
  lemma LinkAdmits(r: Region, remAddr: u64, length: u64)
    requires NoWrap(r)
    ensures LinkAccepts(r, remAddr, length)
            <==> && r.addr <= remAddr <= r.addr + r.length
                 && (|| remAddr + length <= r.addr + r.length
                     || 0x1_0000_0000_0000_0000 <= remAddr + length <= 0x1_0000_0000_0000_0000 + r.addr + r.length)
  {
    SumModulo(r.addr, r.length);
    SumModulo(remAddr, length);
  }

  lemma SumModulo(a: u64, b: u64)
    ensures Add(a, b) == if a + b < 0x1_0000_0000_0000_0000 then a + b else a + b - 0x1_0000_0000_0000_0000
  {
  }

  // ---------------------------------------------------------------- they compose

  /** The three checks on a put whose address lies in the entry's region: none of them wraps around, and together they
      admit what fits the entry and the master. One past the end is another matter; see `MemTable`. */
  lemma ChecksCompose(entry: Region, l: Region, r: Region, ptr: u64, length: u64)
    requires NoWrap(entry) && NoWrap(l) && NoWrap(r) && entry.addr <= ptr < entry.addr + entry.length
    requires r.length <= entry.length == l.length <= HALF
    ensures SyncPut(entry, entry.length, ptr, length).Some? <==> Inside(entry, ptr, length)
    ensures Put(entry, entry.length, l, r, ptr, length)
            == if ptr - entry.addr + length <= r.length then Some(r.addr + (ptr - entry.addr)) else None
  {
    if length <= entry.length {
      var offset := ptr - entry.addr;
      assert Add(entry.addr, entry.length) == entry.addr + entry.length;
      assert Add(offset, length) == offset + length;
      assert MirrorAddress(l, offset) == l.addr + offset;
      assert Add(l.addr, l.length) == l.addr + l.length;
      if offset + length <= r.length {
        MasterFits(r, offset, length);
      }
    }
  }

  /** What the agent lets through the link lets through too. */
  lemma MasterFits(r: Region, offset: u64, length: u64)
    requires NoWrap(r) && offset + length <= r.length
    ensures Add(r.addr, offset) == r.addr + offset && LinkAccepts(r, r.addr + offset, length)
  {
    assert Add(r.addr, r.length) == r.addr + r.length;
    assert Add(r.addr + offset, length) == r.addr + offset + length;
  }

  /** The sum that the API check computes wraps around for the largest put at the last address of a region of more than
      2^63 bytes, so that it is admitted. */
  lemma LargeRegionAdmits(entry: Region)
    requires NoWrap(entry) && entry.length > HALF
    ensures var n := entry.length;
            SyncPut(entry, n, entry.addr + n - 1, n).Some? && !Inside(entry, entry.addr + n - 1, n)
  {
    var n := entry.length;
    assert Add(n - 1, n) == n - 1 + n - U64;
    assert Add(entry.addr, n) == entry.addr + n;
  }
}
