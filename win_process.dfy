/**
 * The Windows process probe (tracker/src/win_funcs/process.rs) with every operating-system call turned
 * into an input: FILETIME arithmetic, the process-age clamp of `get_time`, the `is_active` decision,
 * name caching, and the memory scanner (`scan_memory`, `rescan`, `read_memory_regions`).
 */
module WinProcess {
  import opened Wrappers
  import Seqs

  // ----- Integer widths and Windows constants -----

  const TwoTo32: nat := 0x1_0000_0000
  const TwoTo64: nat := 0x1_0000_0000_0000_0000
  const U64Max: nat := 0xFFFF_FFFF_FFFF_FFFF

  type U32 = x: nat | x < 0x1_0000_0000

  /** A `u8`. */
  type Byte = b: nat | b < 256

  const PageReadWrite: bv32 := 0x04
  const PageWriteCopy: bv32 := 0x08
  const PageExecuteReadWrite: bv32 := 0x40
  const PageExecuteWriteCopy: bv32 := 0x80

  /** `MASK`: the protections of the pages the scanner looks at (all writable ones). */
  const Mask: bv32 := PageExecuteReadWrite | PageExecuteWriteCopy | PageReadWrite | PageWriteCopy

  /** The exit code Windows reports for a process that has not exited. */
  const StillActive: nat := 259

  /** Seconds from 1601-01-01 (the FILETIME origin) to 1970-01-01 (the Unix epoch). */
  const WindowsEpochOffsetSecs: nat := 11644473600

  const NanosPerSec: nat := 1_000_000_000

  /** An operating-system call reported failure (`Error::last_os_error`). */
  datatype OsError = OsError

  // ----- FILETIME -----

  /** A FILETIME: a count of 100-nanosecond ticks split into two 32-bit halves. */
  datatype FileTime = FileTime(low: U32, high: U32)

  /** `create_def_filetime`: both halves zero. */
  function CreateDefFileTime(): (r: FileTime)
    ensures Ticks(r) == 0
  {
    FileTime(0, 0)
  }

  /**
   * The tick count `(high << 32) | low`. As `low` fits in 32 bits the `|` adds, so the count is
   * `high * 2^32 + low` and the two halves can be read back from it.
   */
  function Ticks(ft: FileTime): (r: nat)
    ensures r <= U64Max
    ensures r % TwoTo32 == ft.low && r / TwoTo32 == ft.high
  {
    ft.high * TwoTo32 + ft.low
  }

  /** The nanoseconds of `filetime_to_systemtime`: `ticks * 100` in u64, which wraps. */
  function FileTimeNanos(ft: FileTime): (r: nat)
    ensures r < TwoTo64
  {
    (Ticks(ft) * 100) % TwoTo64
  }

  /** The u64 product is exact exactly when the tick count is at most `u64::MAX / 100`. */
  lemma FileTimeNanosExact(ft: FileTime)
    ensures FileTimeNanos(ft) == Ticks(ft) * 100 <==> Ticks(ft) <= U64Max / 100
  {
    var t := Ticks(ft);
    if t <= U64Max / 100 {
      assert t * 100 < TwoTo64;
    } else {
      assert t * 100 >= TwoTo64;
    }
  }

  /**
   * `filetime_to_systemtime` followed by the epoch correction of `get_time`: the creation instant in
   * nanoseconds relative to the Unix epoch (negative before 1970).
   */
  function CreationUnixNanos(ft: FileTime): (r: int)
    ensures Ticks(ft) <= U64Max / 100 ==> r == Ticks(ft) * 100 - WindowsEpochOffsetSecs * NanosPerSec
  {
    FileTimeNanosExact(ft);
    FileTimeNanos(ft) - WindowsEpochOffsetSecs * NanosPerSec
  }

  /**
   * `get_time`: `timesReturn` is what `GetProcessTimes` returned (only 1 counts as success) and
   * `nowNanos` is `SystemTime::now()` since the Unix epoch. The age is `now - creation`, or 0 when the
   * creation instant lies after now.
   */
  function GetTime(timesReturn: int, creation: FileTime, nowNanos: int): (r: Result<nat, OsError>)
    ensures r.Err? <==> timesReturn != 1
    ensures r.Ok? && CreationUnixNanos(creation) <= nowNanos ==> r.value == nowNanos - CreationUnixNanos(creation)
    ensures r.Ok? && CreationUnixNanos(creation) > nowNanos ==> r.value == 0
  {
    if timesReturn == 1 then
      var created := CreationUnixNanos(creation);
      Ok(if nowNanos >= created then nowNanos - created else 0)
    else Err(OsError)
  }

  /** A process created exactly at the Unix epoch, as a FILETIME, has an age equal to `now`. */
  lemma GetTimeFromUnixEpoch(nowNanos: nat)
    ensures var epoch := FileTime((WindowsEpochOffsetSecs * 10_000_000) % TwoTo32,
                                  (WindowsEpochOffsetSecs * 10_000_000) / TwoTo32);
      GetTime(1, epoch, nowNanos) == Ok(nowNanos)
  {
    var t := WindowsEpochOffsetSecs * 10_000_000;
    var epoch := FileTime(t % TwoTo32, t / TwoTo32);
    assert Ticks(epoch) == t;
    assert t <= U64Max / 100;
  }

  /** The age never exceeds the time since the creation instant, and a later `now` never gives less. */
  lemma GetTimeMonotonic(creation: FileTime, now1: int, now2: int)
    requires now1 <= now2
    ensures GetTime(1, creation, now1).value <= GetTime(1, creation, now2).value
    ensures GetTime(1, creation, now2).value - GetTime(1, creation, now1).value <= now2 - now1
  {
  }

  /**
   * `is_active`: `exitReturn` is what `GetExitCodeProcess` returned; 0 is a failure. Otherwise the process
   * is active exactly when its exit code is `STILL_ACTIVE`.
   */
  function IsActive(exitReturn: int, exitCode: U32): (r: Result<bool, OsError>)
    ensures r.Err? <==> exitReturn == 0
    ensures r.Ok? ==> (r.value <==> exitCode == StillActive)
  {
    if exitReturn == 0 then Err(OsError)
    else if exitCode == StillActive then Ok(true)
    else Ok(false)
  }

  // ----- The process handle and its cached name -----

  /** The name a freshly opened process carries until it has been looked up. */
  const UnknownName: string := "Unknown"

  /**
   * The name lookup of `get_proc_name` as a function of the cached name and of what the operating system
   * answers (`EnumProcessModules` then `GetModuleBaseNameA`; an empty base name is a failure): the result
   * and the name cached afterwards.
   */
  function NameLookup(cached: string, osName: Result<string, OsError>): (Result<string, OsError>, string) {
    if cached != UnknownName then (Ok(cached), cached)
    else match osName
      case Err(e) => (Err(e), cached)
      case Ok(name) => if name == [] then (Err(OsError), cached) else (Ok(name), name)
  }

  /**
   * Once a lookup has succeeded, every later lookup returns that name, whatever the system answers
   * (unless the module itself is called `Unknown`, which is indistinguishable from no name).
   */
  lemma NameLookupCaches(osName1: Result<string, OsError>, osName2: Result<string, OsError>)
    requires NameLookup(UnknownName, osName1).0.Ok?
    requires osName1.Ok? ==> osName1.value != UnknownName
    ensures var (r1, cached) := NameLookup(UnknownName, osName1);
      NameLookup(cached, osName2) == (r1, cached)
  {
  }

  /** A failed lookup leaves the name `Unknown`, so the next call asks the system again. */
  lemma NameLookupRetriesAfterFailure(osName: Result<string, OsError>)
    requires NameLookup(UnknownName, osName).0.Err?
    ensures NameLookup(UnknownName, osName).1 == UnknownName
    ensures osName.Err? || osName.value == []
  {
  }

  /** An open process (`Process`): its pid and cached name; the OS handle is not modelled. */
  class Process {
    var pid: U32
    var name: string

    /** The `Self { .. }` of `open_proc`: the name starts as `Unknown`. */
    constructor (pid: U32)
      ensures this.pid == pid && name == UnknownName
    {
      this.pid := pid;
      name := UnknownName;
    }

    /** `get_proc_name`: returns the cached name, or asks the system and caches a successful answer. */
    method GetProcName(osName: Result<string, OsError>) returns (r: Result<string, OsError>)
      modifies this
      ensures (r, name) == NameLookup(old(name), osName)
      ensures pid == old(pid)
    {
      if name != UnknownName {
        return Ok(name);
      }
      match osName {
        case Err(e) =>
          r := Err(e);
        case Ok(found) =>
          if found == [] {
            r := Err(OsError);
          } else {
            name := found;
            r := Ok(name);
          }
      }
    }
  }

  /** `open_proc`: a null handle from `OpenProcess` is an error; otherwise a process named `Unknown`. */
  method OpenProc(pid: U32, handleOk: bool) returns (r: Result<Process, OsError>)
    ensures r.Err? <==> !handleOk
    ensures r.Ok? ==> fresh(r.value) && r.value.pid == pid && r.value.name == UnknownName
  {
    if handleOk {
      var p := new Process(pid);
      r := Ok(p);
    } else {
      r := Err(OsError);
    }
  }

  /** `ProcessInfo`: a process seen in an enumeration. */
  datatype ProcessInfo = ProcessInfo(name: string, pid: U32)

  // ----- The bytes of an i32 -----

  predicate IsI32(x: int) {
    -0x8000_0000 <= x < 0x8000_0000
  }

  /** The two's complement reading of an i32 as an unsigned 32-bit value. */
  function Unsigned(x: int): (u: nat)
    requires IsI32(x)
    ensures u < TwoTo32
  {
    if x < 0 then x + TwoTo32 else x
  }

  /** `i32::to_ne_bytes` on a little-endian machine: the two's complement value, low byte first. */
  function LeBytes(x: int): (r: seq<Byte>)
    requires IsI32(x)
    ensures |r| == 4
  {
    var u := Unsigned(x);
    var q1 := u / 256;
    var q2 := q1 / 256;
    [u % 256, q1 % 256, q2 % 256, q2 / 256]
  }

  /** The unsigned value of four little-endian bytes. */
  function LeValue(b: seq<Byte>): (u: nat)
    requires |b| == 4
    ensures u < TwoTo32
  {
    var b0: nat, b1: nat, b2: nat, b3: nat := b[0], b[1], b[2], b[3];
    b0 + 256 * (b1 + 256 * (b2 + 256 * b3))
  }

  /** The i32 whose little-endian bytes are `b`: the reference decoding. */
  function FromLeBytes(b: seq<Byte>): (x: int)
    requires |b| == 4
    ensures IsI32(x)
  {
    var u := LeValue(b);
    if u >= 0x8000_0000 then u - TwoTo32 else u
  }

  /** Splitting off the low byte of a number and putting it back. */
  lemma SplitByte(lo: nat, hi: nat)
    requires lo < 256
    ensures (lo + 256 * hi) % 256 == lo && (lo + 256 * hi) / 256 == hi
  {
  }

  /** Decoding the bytes of an i32 gives it back. */
  lemma LeBytesRoundTrip(x: int)
    requires IsI32(x)
    ensures FromLeBytes(LeBytes(x)) == x
  {
    var u := Unsigned(x);
    var q1 := u / 256;
    var q2 := q1 / 256;
    var b := LeBytes(x);
    assert q2 == q2 % 256 + 256 * (q2 / 256);
    assert q1 == q1 % 256 + 256 * q2;
    assert u == u % 256 + 256 * q1;
    assert LeValue(b) == u;
  }

  /** Encoding the decoding of four bytes gives them back. */
  lemma FromLeBytesRoundTrip(b: seq<Byte>)
    requires |b| == 4
    ensures LeBytes(FromLeBytes(b)) == b
  {
    var u := LeValue(b);
    var m2: nat := b[2] as nat + 256 * (b[3] as nat);
    var m1: nat := b[1] as nat + 256 * m2;
    SplitByte(b[0], m1);
    SplitByte(b[1], m2);
    SplitByte(b[2], b[3]);
    assert Unsigned(FromLeBytes(b)) == u;
    var r := LeBytes(FromLeBytes(b));
    assert r[0] == b[0] && r[1] == b[1] && r[2] == b[2] && r[3] == b[3];
  }

  /** A four-byte window equals the target's bytes exactly when it decodes to the target. */
  lemma WindowMatchIff(w: seq<Byte>, target: int)
    requires |w| == 4 && IsI32(target)
    ensures w == LeBytes(target) <==> FromLeBytes(w) == target
  {
    LeBytesRoundTrip(target);
    FromLeBytesRoundTrip(w);
  }

  // ----- Scanning memory -----

  /** One entry of `read_memory_regions` (`MEMORY_BASIC_INFORMATION`), reduced to what the scanner uses. */
  datatype MemoryRegion = MemoryRegion(baseAddress: nat, regionSize: nat, protect: bv32)

  /** The filter of `scan_memory`: the region has one of the writable protections. */
  predicate Writable(region: MemoryRegion) {
    region.protect & Mask != 0
  }

  /**
   * `read_memory(addr, n)` as an input: the bytes read at `addr` for a request of `n`, or `None` when
   * `ReadProcessMemory` fails.
   */
  type MemoryReader = (nat, nat) -> Option<seq<Byte>>

  /** The addresses `base + i'` for every offset `i' >= i` where `pattern` occurs in `bytes`. */
  function HitsFrom(bytes: seq<Byte>, pattern: seq<Byte>, base: nat, i: nat): seq<nat>
    decreases |bytes| - i
  {
    if i + |pattern| > |bytes| then []
    else (if bytes[i..i + |pattern|] == pattern then [base + i] else []) + HitsFrom(bytes, pattern, base, i + 1)
  }

  /** An address is a hit from offset `i` exactly when the pattern occurs there, at or after `i`. */
  lemma {:induction false} HitsFromMembership(bytes: seq<Byte>, pattern: seq<Byte>, base: nat, i: nat, loc: nat)
    ensures loc in HitsFrom(bytes, pattern, base, i) <==>
      base + i <= loc && loc - base + |pattern| <= |bytes| && bytes[loc - base..loc - base + |pattern|] == pattern
    decreases |bytes| - i
  {
    if i + |pattern| <= |bytes| {
      HitsFromMembership(bytes, pattern, base, i + 1, loc);
      HitsFromStep(bytes, pattern, base, i);
      if loc == base + i {
        assert loc - base == i;
      }
    }
  }

  /** One step of `HitsFrom` while a whole window fits. */
  lemma HitsFromStep(bytes: seq<Byte>, pattern: seq<Byte>, base: nat, i: nat)
    requires i + |pattern| <= |bytes|
    ensures HitsFrom(bytes, pattern, base, i)
      == (if bytes[i..i + |pattern|] == pattern then [base + i] else []) + HitsFrom(bytes, pattern, base, i + 1)
  {
  }

  /** The hits `scan_memory` reports for one region: none when the region cannot be read. */
  function RegionHits(region: MemoryRegion, read: MemoryReader, target: int): seq<nat>
    requires IsI32(target)
  {
    match read(region.baseAddress, region.regionSize)
    case None => []
    case Some(memory) => HitsFrom(memory, LeBytes(target), region.baseAddress, 0)
  }

  /** The hits of a sequence of regions, region by region in order. */
  function ScanRegions(regions: seq<MemoryRegion>, read: MemoryReader, target: int): seq<nat>
    requires IsI32(target)
  {
    if |regions| == 0 then []
    else ScanRegions(regions[..|regions| - 1], read, target) + RegionHits(regions[|regions| - 1], read, target)
  }

  /** `loc` is where the target's bytes were read inside `region`. */
  predicate HitIn(region: MemoryRegion, read: MemoryReader, target: int, loc: nat)
    requires IsI32(target)
  {
    && read(region.baseAddress, region.regionSize).Some?
    && var memory := read(region.baseAddress, region.regionSize).value;
    && region.baseAddress <= loc && loc - region.baseAddress + 4 <= |memory|
    && memory[loc - region.baseAddress..loc - region.baseAddress + 4] == LeBytes(target)
  }

  lemma RegionHitsMembership(region: MemoryRegion, read: MemoryReader, target: int, loc: nat)
    requires IsI32(target)
    ensures loc in RegionHits(region, read, target) <==> HitIn(region, read, target, loc)
  {
    if read(region.baseAddress, region.regionSize).Some? {
      HitsFromMembership(read(region.baseAddress, region.regionSize).value, LeBytes(target), region.baseAddress, 0, loc);
    }
  }

  /** Some region of `init + [last]` holds the hit exactly when some region of `init` does or `last` does. */
  lemma HitInSnoc(init: seq<MemoryRegion>, last: MemoryRegion, read: MemoryReader, target: int, loc: nat)
    requires IsI32(target)
    ensures (exists r :: r in init + [last] && HitIn(r, read, target, loc))
      <==> (exists r :: r in init && HitIn(r, read, target, loc)) || HitIn(last, read, target, loc)
  {
    if exists r :: r in init + [last] && HitIn(r, read, target, loc) {
      var r :| r in init + [last] && HitIn(r, read, target, loc);
      assert r in init || r == last;
    }
    if exists r :: r in init && HitIn(r, read, target, loc) {
      var r :| r in init && HitIn(r, read, target, loc);
      assert r in init + [last];
    }
    if HitIn(last, read, target, loc) {
      assert last in init + [last];
    }
  }

  lemma {:induction false} ScanRegionsMembership(regions: seq<MemoryRegion>, read: MemoryReader, target: int, loc: nat)
    requires IsI32(target)
    ensures loc in ScanRegions(regions, read, target) <==> exists r :: r in regions && HitIn(r, read, target, loc)
  {
    if |regions| > 0 {
      var last := regions[|regions| - 1];
      var init := regions[..|regions| - 1];
      ScanRegionsMembership(init, read, target, loc);
      RegionHitsMembership(last, read, target, loc);
      assert loc in ScanRegions(regions, read, target) <==>
        loc in ScanRegions(init, read, target) || loc in RegionHits(last, read, target);
      assert regions == init + [last];
      HitInSnoc(init, last, read, target, loc);
    }
  }

  /**
   * The `windows(..).enumerate().for_each(..)` of `scan_memory` over one region's memory: push
   * `base + offset` for every window equal to `pattern`.
   */
  method ScanWindows(memory: seq<Byte>, pattern: seq<Byte>, base: nat) returns (hits: seq<nat>)
    ensures hits == HitsFrom(memory, pattern, base, 0)
  {
    hits := [];
    var offset := 0;
    while offset + |pattern| <= |memory|
      invariant hits + HitsFrom(memory, pattern, base, offset) == HitsFrom(memory, pattern, base, 0)
      decreases |memory| - offset
    {
      var matched := memory[offset..offset + |pattern|] == pattern;
      HitsFromStep(memory, pattern, base, offset);
      ghost var rest := HitsFrom(memory, pattern, base, offset + 1);
      if matched {
        assert hits + ([base + offset] + rest) == (hits + [base + offset]) + rest;
        hits := hits + [base + offset];
      } else {
        assert HitsFrom(memory, pattern, base, offset) == rest;
      }
      offset := offset + 1;
    }
    assert hits + [] == hits;
  }

  /**
   * `scan_memory`: keep the writable regions, read each one, and record `base + offset` for every offset
   * whose four-byte window equals the target's bytes.
   */
  method ScanMemory(regionsFound: seq<MemoryRegion>, read: MemoryReader, target: int) returns (locations: seq<nat>)
    requires IsI32(target)
    ensures locations == ScanRegions(Seqs.Filter(regionsFound, Writable), read, target)
  {
    var pattern := LeBytes(target);
    var regions := Seqs.Filter(regionsFound, Writable);
    locations := [];
    var k := 0;
    while k < |regions|
      invariant 0 <= k <= |regions|
      invariant locations == ScanRegions(regions[..k], read, target)
    {
      var region := regions[k];
      assert regions[..k + 1][..k] == regions[..k];
      assert ScanRegions(regions[..k + 1], read, target)
        == ScanRegions(regions[..k], read, target) + RegionHits(region, read, target);
      var memory := read(region.baseAddress, region.regionSize);
      if memory.Some? {
        var hits := ScanWindows(memory.value, pattern, region.baseAddress);
        assert hits == RegionHits(region, read, target);
        locations := locations + hits;
      } else {
        assert locations + RegionHits(region, read, target) == locations;
      }
      k := k + 1;
    }
    assert regions[..|regions|] == regions;
  }

  /**
   * What `scan_memory` reports: an address is reported exactly when it is a hit inside one of the
   * writable regions.
   */
  lemma ScanMemoryFinds(regionsFound: seq<MemoryRegion>, read: MemoryReader, target: int, loc: nat)
    requires IsI32(target)
    ensures loc in ScanRegions(Seqs.Filter(regionsFound, Writable), read, target) <==>
      exists r :: r in regionsFound && Writable(r) && HitIn(r, read, target, loc)
  {
    var regions := Seqs.Filter(regionsFound, Writable);
    ScanRegionsMembership(regions, read, target, loc);
    forall r {
      Seqs.FilterMembership(regionsFound, Writable, r);
    }
  }

  /** The filter of `rescan`: the location still holds the new target (an unreadable one does not). */
  function StillHolds(read: MemoryReader, target: int): nat -> bool
    requires IsI32(target)
  {
    (loc: nat) => var memory := read(loc, 4); memory.Some? && memory.value == LeBytes(target)
  }

  /**
   * `rescan`: the `retain` of the locations that still hold the new target, in order. The list never
   * grows, and every location left reads back as the new target's four bytes.
   */
  function Rescan(locations: seq<nat>, read: MemoryReader, newTarget: int): (r: seq<nat>)
    requires IsI32(newTarget)
    ensures |r| <= |locations|
    ensures forall i :: 0 <= i < |r| ==> read(r[i], 4) == Some(LeBytes(newTarget))
  {
    Seqs.FilterAllKept(locations, StillHolds(read, newTarget));
    Seqs.Filter(locations, StillHolds(read, newTarget))
  }

  /** A location survives a rescan exactly when it was there and its re-read bytes are the new target. */
  lemma RescanKeepsExactlyMatches(locations: seq<nat>, read: MemoryReader, newTarget: int, loc: nat)
    requires IsI32(newTarget)
    ensures loc in Rescan(locations, read, newTarget) <==>
      loc in locations && read(loc, 4).Some? && read(loc, 4).value == LeBytes(newTarget)
  {
    Seqs.FilterMembership(locations, StillHolds(read, newTarget), loc);
  }

  /** Rescanning for the same target twice is the same as rescanning once. */
  lemma RescanIdempotent(locations: seq<nat>, read: MemoryReader, newTarget: int)
    requires IsI32(newTarget)
    ensures Rescan(Rescan(locations, read, newTarget), read, newTarget) == Rescan(locations, read, newTarget)
  {
    var once := Rescan(locations, read, newTarget);
    Seqs.FilterAllKept(locations, StillHolds(read, newTarget));
    Seqs.FilterKeepsAll(once, StillHolds(read, newTarget));
  }

  // ----- Walking the address space -----

  /** The address `read_memory_regions` queries for the `i`-th region: 0, then the end of the previous one. */
  function QueryBase(regions: seq<MemoryRegion>, i: nat): nat
    requires i <= |regions|
  {
    if i == 0 then 0 else regions[i - 1].baseAddress + regions[i - 1].regionSize
  }

  lemma QueryBaseExtends(regions: seq<MemoryRegion>, next: MemoryRegion)
    ensures forall i :: 0 <= i <= |regions| ==> QueryBase(regions + [next], i) == QueryBase(regions, i)
    ensures QueryBase(regions + [next], |regions| + 1) == next.baseAddress + next.regionSize
  {
  }

  /** Every region of `regions` is what the query at its base returned. */
  predicate Walked(query: nat -> Option<MemoryRegion>, regions: seq<MemoryRegion>) {
    forall i {:trigger QueryBase(regions, i)} :: 0 <= i < |regions| ==> query(QueryBase(regions, i)) == Some(regions[i])
  }

  /** A region the query returns at the end of a walk extends the walk. */
  lemma WalkedExtends(query: nat -> Option<MemoryRegion>, prev: seq<MemoryRegion>, info: MemoryRegion)
    requires Walked(query, prev)
    requires query(QueryBase(prev, |prev|)) == Some(info)
    ensures Walked(query, prev + [info])
  {
    var regions := prev + [info];
    forall i | 0 <= i < |regions| ensures query(QueryBase(regions, i)) == Some(regions[i]) {
      if i < |prev| {
        assert regions[i] == prev[i];
        assert QueryBase(regions, i) == QueryBase(prev, i);
      } else {
        if i > 0 {
          assert regions[i - 1] == prev[i - 1];
        }
        assert QueryBase(regions, i) == QueryBase(prev, |prev|);
      }
    }
  }

  /**
   * `read_memory_regions`: query at `base`, stop when `VirtualQueryEx` writes nothing, otherwise push the
   * region and continue at its end. `query` stands for `VirtualQueryEx`; at most `fuel` regions are
   * walked, and `complete` says the walk ended because a query wrote nothing.
   */
  method ReadMemoryRegions(query: nat -> Option<MemoryRegion>, fuel: nat)
    returns (regions: seq<MemoryRegion>, complete: bool)
    ensures |regions| <= fuel
    ensures forall i {:trigger QueryBase(regions, i)} :: 0 <= i < |regions| ==> query(QueryBase(regions, i)) == Some(regions[i])
    ensures complete <==> query(QueryBase(regions, |regions|)).None?
    ensures !complete ==> |regions| == fuel
  {
    regions := [];
    var base := 0;
    while |regions| < fuel
      invariant |regions| <= fuel
      invariant base == QueryBase(regions, |regions|)
      invariant Walked(query, regions)
    {
      var written := query(base);
      if written.None? {
        return regions, true;
      }
      var info := written.value;
      WalkedExtends(query, regions, info);
      QueryBaseExtends(regions, info);
      regions := regions + [info];
      base := info.baseAddress + info.regionSize;
    }
    complete := query(base).None?;
  }
}
