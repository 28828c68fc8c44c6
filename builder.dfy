/**
 * `buildLongview`: the per-host summary record built from a decoded batch
 * response. Element 0 carries the time of the last update, element 1 the
 * latest metric values. The record gets a staleness mark, system facts copied
 * verbatim, the uptime split, memory totals, disk totals over the physical
 * disks, the load, the summed CPU usage and the summed network rates.
 *
 * The source later overwrites several numeric fields with formatted text
 * (`pretty`, `toFixed`, a `%` suffix); the record here keeps the numbers those
 * strings are made from.
 */
module Builder {
  import opened Wrappers
  import opened JsonValue
  import opened Units
  import opened KeyedSums
  import Validator

  // ---------------------------------------------------------------------------
  // Reading the payload

  /** The value at a path from the decoded body (`undefined` where the read would raise). */
  function At(d: Json, path: seq<string>): JsValue {
    var r := Path(Some(d), path);
    if r.Success? then r.value else None
  }

  /**
   * The members of the object at a path: the keys `for...in` visits. There are
   * none where there is no object (`undefined`, `null`, a number or a boolean).
   */
  function Members(d: Json, path: seq<string>): map<string, Json> {
    match At(d, path)
    case Some(JObj(m)) => m
    case _ => map[]
  }

  /**
   * A `for...in` over the value at the path can run as modelled: reading the
   * value raises nothing, and it is not an array or a string, whose index keys
   * `Members` does not list.
   */
  predicate IsEnumerableAt(d: Json, path: seq<string>) {
    Path(Some(d), path).Success? && !(At(d, path).Some? && (At(d, path).value.JArr? || At(d, path).value.JStr?))
  }

  /** `entry.<series>[0].y`: the first sample of a time series. */
  function FirstSample(entry: Json, series: seq<string>): real {
    NumberAt(Some(entry), series + ["0", "y"])
  }

  predicate HasSample(entry: Json, series: seq<string>) {
    IsNumberAt(Some(entry), series + ["0", "y"])
  }

  function Hostname(d: Json): JsValue { At(d, ["1", "DATA", "SysInfo", "hostname"]) }
  function Dist(d: Json): JsValue { At(d, ["1", "DATA", "SysInfo", "os", "dist"]) }
  function DistVersion(d: Json): JsValue { At(d, ["1", "DATA", "SysInfo", "os", "distversion"]) }
  function CpuType(d: Json): JsValue { At(d, ["1", "DATA", "SysInfo", "cpu", "type"]) }
  function Updated(d: Json): real { NumberAt(Some(d), ["0", "DATA", "updated"]) }
  function UptimeSeconds(d: Json): real { NumberAt(Some(d), ["1", "DATA", "Uptime"]) }
  function MemUsed(d: Json): real { NumberAt(Some(d), ["1", "DATA", "Memory", "real", "used", "0", "y"]) }
  function MemFree(d: Json): real { NumberAt(Some(d), ["1", "DATA", "Memory", "real", "free", "0", "y"]) }
  function Load(d: Json): real { NumberAt(Some(d), ["1", "DATA", "Load", "0", "y"]) }
  function Disks(d: Json): map<string, Json> { Members(d, ["1", "DATA", "Disk"]) }
  function Cores(d: Json): map<string, Json> { Members(d, ["1", "DATA", "CPU"]) }
  function Interfaces(d: Json): map<string, Json> { Members(d, ["1", "DATA", "Network", "Interface"]) }

  // ---------------------------------------------------------------------------
  // The disk filter

  predicate StartsWith(s: string, prefix: string) {
    |prefix| <= |s| && s[..|prefix|] == prefix
  }

  /** `pattern` occurs somewhere in `s`. */
  predicate Contains(s: string, pattern: string)
    decreases |s|
  {
    StartsWith(s, pattern) || (|s| > 0 && Contains(s[1..], pattern))
  }

  /** The fixed part of the disk pattern `/\/dev\/sd*\/`: `d*` may match nothing, so only this part must occur. */
  const DiskPrefix: string := "/dev/s"

  /** `/\/dev\/sd*\/.test(key)`: the unanchored pattern matches. */
  predicate MatchesDiskPattern(key: string) {
    Contains(key, DiskPrefix)
  }

  function Repeat(c: char, n: nat): (r: string)
    ensures |r| == n && forall i | 0 <= i < n :: r[i] == c
  {
    if n == 0 then [] else [c] + Repeat(c, n - 1)
  }

  /** The language of the regular expression read literally: some suffix of the key starts with `/dev/s` and zero or more `d`s. */
  ghost predicate RegexMatches(key: string) {
    exists i: nat, n: nat :: i <= |key| && StartsWith(key[i..], DiskPrefix + Repeat('d', n))
  }

  lemma {:induction false} ContainsFrom(s: string, pattern: string, i: nat)
    requires i <= |s| && StartsWith(s[i..], pattern)
    ensures Contains(s, pattern)
    decreases i
  {
    if i > 0 {
      assert s[1..][i - 1..] == s[i..];
      ContainsFrom(s[1..], pattern, i - 1);
    } else {
      assert s[0..] == s;
    }
  }

  lemma {:induction false} ContainsWitness(s: string, pattern: string) returns (i: nat)
    requires Contains(s, pattern)
    ensures i <= |s| && StartsWith(s[i..], pattern)
    decreases |s|
  {
    if StartsWith(s, pattern) {
      i := 0;
      assert s[0..] == s;
    } else {
      var j := ContainsWitness(s[1..], pattern);
      i := j + 1;
      assert s[1..][j..] == s[i..];
    }
  }

  /** The disk test is exactly the regular expression: a key matches iff it contains `/dev/s`, wherever. */
  lemma DiskPatternIsRegex(key: string)
    ensures MatchesDiskPattern(key) <==> RegexMatches(key)
  {
    if MatchesDiskPattern(key) {
      var i := ContainsWitness(key, DiskPrefix);
      assert DiskPrefix + Repeat('d', 0) == DiskPrefix;
      assert StartsWith(key[i..], DiskPrefix + Repeat('d', 0));
    }
    if RegexMatches(key) {
      var i: nat, n: nat :| i <= |key| && StartsWith(key[i..], DiskPrefix + Repeat('d', n));
      assert (DiskPrefix + Repeat('d', n))[..|DiskPrefix|] == DiskPrefix;
      assert StartsWith(key[i..], DiskPrefix);
      ContainsFrom(key, DiskPrefix, i);
    }
  }

  /** A disk entry is summed iff its key matches the pattern and it has an own `fs` member. */
  predicate Qualifies(key: string, entry: Json) {
    MatchesDiskPattern(key) && HasOwn(Some(entry), "fs") == Success(true)
  }

  /** The `dsk` object: the qualifying members of `Disk`. */
  function PhysicalDisks(disk: map<string, Json>): map<string, Json> {
    map k | k in disk && Qualifies(k, disk[k]) :: disk[k]
  }

  function DiskTotalOf(entry: Json): real { FirstSample(entry, ["fs", "total"]) }
  function DiskFreeOf(entry: Json): real { FirstSample(entry, ["fs", "free"]) }

  /** `fsTotal` and `fsFree`: first samples summed over the physical disks. */
  ghost function FsTotal(disk: map<string, Json>): real {
    SumOver(PhysicalDisks(disk), PhysicalDisks(disk).Keys, DiskTotalOf)
  }

  ghost function FsFree(disk: map<string, Json>): real {
    SumOver(PhysicalDisks(disk), PhysicalDisks(disk).Keys, DiskFreeOf)
  }

  // ---------------------------------------------------------------------------
  // CPU and network

  /** One core's usage: its first `system`, `wait` and `user` samples together. */
  function CoreUsage(core: Json): real {
    SystemOf(core) + WaitOf(core) + UserOf(core)
  }

  function SystemOf(core: Json): real { FirstSample(core, ["system"]) }
  function WaitOf(core: Json): real { FirstSample(core, ["wait"]) }
  function UserOf(core: Json): real { FirstSample(core, ["user"]) }

  function RxOf(iface: Json): real { FirstSample(iface, ["rx_bytes"]) }
  function TxOf(iface: Json): real { FirstSample(iface, ["tx_bytes"]) }

  ghost function CpuTotal(cores: map<string, Json>): real { SumOver(cores, cores.Keys, CoreUsage) }
  ghost function RxTotal(ifaces: map<string, Json>): real { SumOver(ifaces, ifaces.Keys, RxOf) }
  ghost function TxTotal(ifaces: map<string, Json>): real { SumOver(ifaces, ifaces.Keys, TxOf) }

  // ---------------------------------------------------------------------------
  // What the builder needs of its input

  /** A disk member the filter loop can test: `hasOwnProperty.call` raises on a null member whose key matches. */
  predicate DiskEntryTestable(key: string, entry: Json) {
    MatchesDiskPattern(key) ==> entry != JNull
  }

  /** A physical disk whose first `fs.total` and `fs.free` samples, read by the two `reduce` calls, are numbers. */
  predicate DiskSamplesReadable(entry: Json) {
    HasSample(entry, ["fs", "total"]) && HasSample(entry, ["fs", "free"])
  }

  predicate CoreReadable(core: Json) {
    HasSample(core, ["system"]) && HasSample(core, ["wait"]) && HasSample(core, ["user"])
  }

  predicate InterfaceReadable(iface: Json) {
    HasSample(iface, ["rx_bytes"]) && HasSample(iface, ["tx_bytes"])
  }

  /**
   * Every read `buildLongview` makes succeeds, and every value it does
   * arithmetic on is a number. Without this the source raises a TypeError (a
   * missing `SysInfo`, `os`, `cpu`, `Network`, series or sample), computes
   * with NaN, concatenates strings, or coerces the value (`null` counts as 0,
   * `parseFloat` reads a numeric string). `Disk`, `CPU` and `Network.Interface`
   * may be missing, null, a number or a boolean, which the loops enumerate as
   * empty; they are taken not to be arrays or strings.
   */
  predicate WellFormed(d: Json) {
    SamplesReadable(d) && SysInfoReadable(d) && CollectionsReadable(d)
  }

  /** `updated`, `Uptime` and the first memory and load samples are numbers. */
  predicate SamplesReadable(d: Json) {
    && IsNumberAt(Some(d), ["0", "DATA", "updated"])
    && IsNumberAt(Some(d), ["1", "DATA", "Uptime"])
    && IsNumberAt(Some(d), ["1", "DATA", "Memory", "real", "used", "0", "y"])
    && IsNumberAt(Some(d), ["1", "DATA", "Memory", "real", "free", "0", "y"])
    && IsNumberAt(Some(d), ["1", "DATA", "Load", "0", "y"])
  }

  /** The four `SysInfo` reads raise nothing (what they find is copied as it is). */
  predicate SysInfoReadable(d: Json) {
    && Path(Some(d), ["1", "DATA", "SysInfo", "hostname"]).Success?
    && Path(Some(d), ["1", "DATA", "SysInfo", "os", "dist"]).Success?
    && Path(Some(d), ["1", "DATA", "SysInfo", "os", "distversion"]).Success?
    && Path(Some(d), ["1", "DATA", "SysInfo", "cpu", "type"]).Success?
  }

  /** The three loops can enumerate their collections and read every member they sum. */
  predicate CollectionsReadable(d: Json) {
    && IsEnumerableAt(d, ["1", "DATA", "Disk"])
    && (forall k | k in Disks(d) :: DiskEntryTestable(k, Disks(d)[k]))
    && (forall k | k in PhysicalDisks(Disks(d)) :: DiskSamplesReadable(PhysicalDisks(Disks(d))[k]))
    && IsEnumerableAt(d, ["1", "DATA", "CPU"])
    && (forall k | k in Cores(d) :: CoreReadable(Cores(d)[k]))
    && IsEnumerableAt(d, ["1", "DATA", "Network", "Interface"])
    && (forall k | k in Interfaces(d) :: InterfaceReadable(Interfaces(d)[k]))
  }

  // ---------------------------------------------------------------------------
  // The record

  /** `lv.lastUpdated`: stays 0 for a fresh host, or names the time of the last update of a stale one. */
  datatype LastUpdated = NotStale | StaleSince(updated: real)

  /** `100 * part / whole`; `None` where the source divides by zero and prints NaN or Infinity. */
  function Percent(part: real, whole: real): (p: Option<real>)
    ensures p.Some? <==> whole != 0.0
    ensures p.Some? ==> p.value * whole == 100.0 * part
  {
    if whole == 0.0 then None else Some(100.0 * part / whole)
  }

  /** The summary record; byte counts are the values handed to the size formatter. */
  datatype Longview = Longview(
    lastUpdated: LastUpdated,
    hostname: JsValue,
    dist: JsValue,
    distversion: JsValue,
    uptime: UptimeParts,
    cpuType: JsValue,
    realMem: real,
    realMemUsed: real,
    realMemUsedPercent: Option<real>,
    fsTotal: real,
    fsUsed: real,
    fsUsedPercent: Option<real>,
    fsFree: real,
    load: real,
    cpuTotal: real,
    rxBytes: BitRate,
    txBytes: BitRate)

  /** Seconds without an update after which a host is stale (two hours). */
  const StaleAfter: int := 7200

  /** The staleness mark of a host last updated at `updated`, judged at `now`: stale once more than two hours have passed. */
  function Staleness(updated: real, now: int): (mark: LastUpdated)
    ensures mark.StaleSince? <==> now as real - updated > StaleAfter as real
    ensures mark.StaleSince? ==> mark.updated == updated
  {
    if updated + StaleAfter as real < now as real then StaleSince(updated) else NotStale
  }

  /** A host that is stale stays stale, with the same mark, at every later time. */
  lemma StaleStaysStale(updated: real, now: int, later: int)
    requires now <= later && Staleness(updated, now).StaleSince?
    ensures Staleness(updated, later) == Staleness(updated, now)
  {
  }

  /** The record as the source initialises it, before any field is filled in. */
  const Initial: Longview := Longview(
    NotStale, Some(JStr("0")), Some(JNum(0.0)), Some(JNum(0.0)), UptimeParts(0, 0, 0), Some(JNum(0.0)),
    0.0, 0.0, Some(0.0), 0.0, 0.0, Some(0.0), 0.0, 0.0, 0.0, BitRate(0.0, Bps), BitRate(0.0, Bps))

  // ---------------------------------------------------------------------------
  // The loops

  /** The `for...in` loop over `Disk` that fills `dsk`, in whatever order the keys come. */
  method CollectPhysicalDisks(disk: map<string, Json>) returns (dsk: map<string, Json>)
    requires forall k | k in disk :: DiskEntryTestable(k, disk[k])
    ensures forall k :: k in dsk <==> k in disk && MatchesDiskPattern(k) && HasOwn(Some(disk[k]), "fs") == Success(true)
    ensures forall k | k in dsk :: dsk[k] == disk[k]
    ensures dsk == PhysicalDisks(disk)
  {
    dsk := map[];
    var rest := disk.Keys;
    while rest != {}
      invariant rest <= disk.Keys
      invariant forall k :: k in dsk <==> k in disk && k !in rest && Qualifies(k, disk[k])
      invariant forall k | k in dsk :: dsk[k] == disk[k]
      decreases |rest|
    {
      var key :| key in rest;
      if MatchesDiskPattern(key) {
        if HasOwn(Some(disk[key]), "fs") == Success(true) {
          dsk := dsk[key := disk[key]];
        }
      }
      rest := rest - {key};
    }
  }

  /** `Object.keys(m).reduce((total, key) => total + f(m[key]), 0)`. */
  method ReduceKeys(m: map<string, Json>, f: Json -> real) returns (total: real)
    ensures total == SumOver(m, m.Keys, f)
  {
    total := 0.0;
    var rest := m.Keys;
    while rest != {}
      invariant rest <= m.Keys
      invariant total == SumOver(m, m.Keys - rest, f)
      decreases |rest|
    {
      var key :| key in rest;
      SumOverAdd(m, m.Keys - rest, f, key);
      assert (m.Keys - rest) + {key} == m.Keys - (rest - {key});
      total := total + f(m[key]);
      rest := rest - {key};
    }
    assert m.Keys - rest == m.Keys;
  }

  /**
   * The CPU loop: three running sums, one per series, over every core. The
   * samples it reads are numbers under `WellFormed`; the model's reads cannot
   * raise, so the loop itself needs nothing of its input.
   */
  method SumCpu(cores: map<string, Json>) returns (total: real)
    ensures total == CpuTotal(cores)
  {
    var cpuSystem, cpuWait, cpuUser := 0.0, 0.0, 0.0;
    var rest := cores.Keys;
    while rest != {}
      invariant rest <= cores.Keys
      invariant cpuSystem + cpuWait + cpuUser == SumOver(cores, cores.Keys - rest, CoreUsage)
      decreases |rest|
    {
      var key :| key in rest;
      SumOverAdd(cores, cores.Keys - rest, CoreUsage, key);
      assert (cores.Keys - rest) + {key} == cores.Keys - (rest - {key});
      cpuSystem := cpuSystem + SystemOf(cores[key]);
      cpuWait := cpuWait + WaitOf(cores[key]);
      cpuUser := cpuUser + UserOf(cores[key]);
      rest := rest - {key};
    }
    assert cores.Keys - rest == cores.Keys;
    total := cpuSystem + cpuWait + cpuUser;
  }

  /** The network loop: received and sent bytes summed over every interface. */
  method SumTraffic(ifaces: map<string, Json>) returns (rx: real, tx: real)
    ensures rx == RxTotal(ifaces) && tx == TxTotal(ifaces)
  {
    rx, tx := 0.0, 0.0;
    var rest := ifaces.Keys;
    while rest != {}
      invariant rest <= ifaces.Keys
      invariant rx == SumOver(ifaces, ifaces.Keys - rest, RxOf)
      invariant tx == SumOver(ifaces, ifaces.Keys - rest, TxOf)
      decreases |rest|
    {
      var key :| key in rest;
      SumOverAdd(ifaces, ifaces.Keys - rest, RxOf, key);
      SumOverAdd(ifaces, ifaces.Keys - rest, TxOf, key);
      assert (ifaces.Keys - rest) + {key} == ifaces.Keys - (rest - {key});
      rx := rx + RxOf(ifaces[key]);
      tx := tx + TxOf(ifaces[key]);
      rest := rest - {key};
    }
    assert ifaces.Keys - rest == ifaces.Keys;
  }

  // ---------------------------------------------------------------------------
  // The builder

  /**
   * `buildLongview(d)` at time `now` (whole seconds since the epoch). Every
   * field is stated against the payload: stale iff `updated + 7200 < now`;
   * memory total is used plus free; disk totals are sums over the physical
   * disks and used is total minus free; CPU and network are sums over every
   * core and interface, whatever order `for...in` visits them in.
   */
  method BuildLongview(d: Json, now: int) returns (lv: Longview)
    requires WellFormed(d)
    ensures lv.lastUpdated == Staleness(Updated(d), now)
    ensures lv.hostname == Hostname(d) && lv.dist == Dist(d) && lv.distversion == DistVersion(d)
    ensures lv.cpuType == CpuType(d)
    ensures lv.uptime == Uptime(UptimeSeconds(d))
    ensures lv.realMemUsed == 1024.0 * MemUsed(d) && lv.realMem == 1024.0 * (MemUsed(d) + MemFree(d))
    ensures lv.realMemUsedPercent == Percent(lv.realMemUsed, lv.realMem)
    ensures lv.fsTotal == FsTotal(Disks(d)) && lv.fsFree == FsFree(Disks(d))
    ensures lv.fsUsed == lv.fsTotal - lv.fsFree
    ensures lv.fsUsedPercent == Percent(lv.fsUsed, lv.fsTotal)
    ensures lv.load == Load(d)
    ensures lv.cpuTotal == CpuTotal(Cores(d))
    ensures lv.rxBytes == BitsPerSec(RxTotal(Interfaces(d))) && lv.txBytes == BitsPerSec(TxTotal(Interfaces(d)))
  {
    lv := Initial;
    // staleness
    var updated := Updated(d);
    if updated + StaleAfter as real < now as real {
      lv := lv.(lastUpdated := StaleSince(updated));
    }
    // basic system info
    lv := lv.(hostname := Hostname(d));
    lv := lv.(dist := Dist(d));
    lv := lv.(distversion := DistVersion(d));
    lv := lv.(uptime := Uptime(UptimeSeconds(d)));
    lv := lv.(cpuType := CpuType(d));
    // memory, in kilobytes in the payload
    var used := MemUsed(d);
    var free := MemFree(d);
    var memTotal, memUsed := 1024.0 * (used + free), 1024.0 * used;
    lv := lv.(realMem := memTotal, realMemUsed := memUsed);
    lv := lv.(realMemUsedPercent := Percent(memUsed, memTotal));
    // disks
    var dsk := CollectPhysicalDisks(Disks(d));
    var fsTotal := ReduceKeys(dsk, DiskTotalOf);
    var fsFree := ReduceKeys(dsk, DiskFreeOf);
    lv := lv.(fsTotal := fsTotal, fsFree := fsFree);
    lv := lv.(fsUsed := lv.fsTotal - lv.fsFree);
    lv := lv.(fsUsedPercent := Percent(lv.fsUsed, lv.fsTotal));
    // CPU
    lv := lv.(load := Load(d));
    var cpu := SumCpu(Cores(d));
    lv := lv.(cpuTotal := cpu);
    // network
    var rx, tx := SumTraffic(Interfaces(d));
    lv := lv.(rxBytes := BitsPerSec(rx), txBytes := BitsPerSec(tx));
  }

  // ---------------------------------------------------------------------------
  // Properties

  /** Adding or changing a disk member that is not summed leaves both disk totals unchanged. */
  lemma ExcludedDiskIgnored(disk: map<string, Json>, key: string, entry: Json)
    requires key !in disk || !Qualifies(key, disk[key])
    requires !Qualifies(key, entry)
    ensures FsTotal(disk[key := entry]) == FsTotal(disk)
    ensures FsFree(disk[key := entry]) == FsFree(disk)
  {
    assert PhysicalDisks(disk[key := entry]) == PhysicalDisks(disk);
  }

  /** When every physical disk has 0 <= free <= total space, used space lies between 0 and the total, and its percentage between 0 and 100. */
  lemma DiskUsageBounded(disk: map<string, Json>)
    requires forall k | k in PhysicalDisks(disk) :: 0.0 <= DiskFreeOf(PhysicalDisks(disk)[k]) <= DiskTotalOf(PhysicalDisks(disk)[k])
    ensures 0.0 <= FsFree(disk) <= FsTotal(disk)
    ensures 0.0 <= FsTotal(disk) - FsFree(disk) <= FsTotal(disk)
    ensures FsTotal(disk) != 0.0 ==> 0.0 <= Percent(FsTotal(disk) - FsFree(disk), FsTotal(disk)).value <= 100.0
  {
    var dsk := PhysicalDisks(disk);
    SumOverNonNegative(dsk, dsk.Keys, DiskFreeOf);
    SumOverMonotone(dsk, dsk.Keys, DiskFreeOf, DiskTotalOf);
    if FsTotal(disk) != 0.0 {
      PercentBounded(FsTotal(disk) - FsFree(disk), FsTotal(disk));
    }
  }

  /** For non-negative used and free memory, the percentage exists iff some memory is reported, and lies between 0 and 100. */
  lemma MemoryPercentBounded(used: real, free: real)
    requires 0.0 <= used && 0.0 <= free
    ensures Percent(1024.0 * used, 1024.0 * (used + free)).Some? <==> used + free != 0.0
    ensures used + free != 0.0 ==> 0.0 <= Percent(1024.0 * used, 1024.0 * (used + free)).value <= 100.0
  {
    if used + free != 0.0 {
      PercentBounded(1024.0 * used, 1024.0 * (used + free));
    }
  }

  /** A part between nothing and the whole is between 0 and 100 percent of it. */
  lemma PercentBounded(part: real, whole: real)
    requires 0.0 <= part <= whole && 0.0 < whole
    ensures Percent(part, whole).Some? && 0.0 <= Percent(part, whole).value <= 100.0
  {
    var q := part / whole;
    assert q * whole == part;
    assert Percent(part, whole).value == 100.0 * q;
  }

  /** A member name that is neither an array index nor `length`, so only an object can hold it. */
  predicate IsName(key: string) {
    |key| > 0 && !IsDigit(key[0]) && key != "length"
  }

  /** A path that ends at a value passes through a non-null value at each step. */
  lemma PathEntry(v: JsValue, key: string, rest: seq<string>) returns (w: Json)
    requires |rest| > 0
    requires Path(v, [key] + rest).Success? && Path(v, [key] + rest).value.Some?
    ensures Get(v, key) == Success(Some(w)) && w != JNull
    ensures Path(Some(w), rest) == Path(v, [key] + rest)
  {
    assert ([key] + rest)[0] == key && ([key] + rest)[1..] == rest;
    var u := Get(v, key).value;
    w := u.value;
  }

  /** Reading a member name finds something only in an object that has it. */
  lemma NameLookup(x: Json, name: string)
    requires IsName(name)
    requires Get(Some(x), name).Success? && Get(Some(x), name).value.Some?
    ensures x.JObj? && name in x.fields
  {
    assert ArrayIndex(name).None?;
  }

  /** `d[0]` and `d[1]` of a non-null body are its slots. */
  lemma SlotIsGet(d: Json)
    requires d != JNull
    ensures Get(Some(d), "0") == Success(Validator.Slot(d, 0))
    ensures Get(Some(d), "1") == Success(Validator.Slot(d, 1))
  {
    Validator.KeysAreIndices();
  }

  lemma NamesUsed()
    ensures IsName("DATA") && IsName("updated") && IsName("Memory") && IsName("Uptime")
    ensures IsName("Disk") && IsName("Load") && IsName("CPU") && IsName("SysInfo") && IsName("Network")
  {
  }

  /** Reading the path from `d` raises nothing and ends at a value. */
  predicate Reaches(d: Json, path: seq<string>) {
    Path(Some(d), path).Success? && Path(Some(d), path).value.Some?
  }

  /**
   * On a payload the builder can read, `checkResponse` accepts exactly when
   * `d[1].DATA` has own `Disk` and `CPU` members: the builder does without
   * them (its loops then run zero times), the validator does not.
   */
  lemma WellFormedAcceptance(d: Json)
    requires WellFormed(d)
    ensures Validator.DataKeys(Validator.Slot(d, 1)).Some?
    ensures Validator.CheckResponse(d) == Success(true) <==>
              "Disk" in Validator.DataKeys(Validator.Slot(d, 1)).value && "CPU" in Validator.DataKeys(Validator.Slot(d, 1)).value
  {
    ReadsReachData(d);
    var keys := Validator.DataKeys(Validator.Slot(d, 1)).value;
    if "Disk" in keys && "CPU" in keys {
      MetricsPresent(keys);
    }
  }

  /** The reads of `updated`, `Uptime`, `Memory` and `Load` put those members in the two `DATA` objects the validator tests. */
  lemma ReadsReachData(d: Json)
    requires Reaches(d, ["0", "DATA", "updated"])
    requires Reaches(d, ["1", "DATA", "Uptime"])
    requires Reaches(d, ["1", "DATA", "Memory", "real", "used", "0", "y"])
    requires Reaches(d, ["1", "DATA", "Load", "0", "y"])
    ensures Validator.DataKeys(Validator.Slot(d, 0)).Some? && "updated" in Validator.DataKeys(Validator.Slot(d, 0)).value
    ensures Validator.DataKeys(Validator.Slot(d, 1)).Some?
    ensures var keys := Validator.DataKeys(Validator.Slot(d, 1)).value; "Uptime" in keys && "Memory" in keys && "Load" in keys
  {
    NamesUsed();
    DataHolds(d, 0, ["0", "DATA", "updated"]);
    DataHolds(d, 1, ["1", "DATA", "Uptime"]);
    DataHolds(d, 1, ["1", "DATA", "Memory", "real", "used", "0", "y"]);
    DataHolds(d, 1, ["1", "DATA", "Load", "0", "y"]);
  }

  lemma MetricsPresent(keys: set<string>)
    requires "Memory" in keys && "Uptime" in keys && "Disk" in keys && "Load" in keys && "CPU" in keys
    ensures Validator.RequiredMetrics <= keys
  {
  }

  /** A readable path `d[i].DATA.<name>...` means the `DATA` object of element `i` holds `name`. */
  lemma DataHolds(d: Json, i: nat, path: seq<string>)
    requires i < 2 && |path| >= 3 && IsName(path[2])
    requires path[0] == (if i == 0 then "0" else "1") && path[1] == "DATA"
    requires Reaches(d, path)
    ensures Validator.DataKeys(Validator.Slot(d, i)).Some?
    ensures path[2] in Validator.DataKeys(Validator.Slot(d, i)).value
  {
    NamesUsed();
    assert path == [path[0]] + (["DATA"] + ([path[2]] + path[3..]));
    var e := PathEntry(Some(d), path[0], ["DATA"] + ([path[2]] + path[3..]));
    var data := PathEntry(Some(e), "DATA", [path[2]] + path[3..]);
    NameLookup(e, "DATA");
    FirstName(data, path[2], path[3..]);
    SlotData(d, i, e);
  }

  /** A readable path starting with a member name starts at an object holding it. */
  lemma FirstName(v: Json, name: string, rest: seq<string>)
    requires IsName(name)
    requires Path(Some(v), [name] + rest).Success? && Path(Some(v), [name] + rest).value.Some?
    ensures v.JObj? && name in v.fields
  {
    if rest == [] {
      assert [name] + rest == [name];
    } else {
      var _ := PathEntry(Some(v), name, rest);
    }
    NameLookup(v, name);
  }

  /** The element `d[i]` reads is the one `checkResponse` tests. */
  lemma SlotData(d: Json, i: nat, e: Json)
    requires i < 2
    requires Get(Some(d), if i == 0 then "0" else "1") == Success(Some(e))
    ensures Validator.Slot(d, i) == Some(e)
  {
    SlotIsGet(d);
  }

  /**
   * The validator does not test `SysInfo` or `Network`: it accepts a payload
   * on which the builder's first `SysInfo` read and its `Network.Interface`
   * read both raise.
   */
  lemma ValidatorMissesSysInfoAndNetwork()
    ensures exists d :: Validator.CheckResponse(d) == Success(true)
                     && Path(Some(d), ["1", "DATA", "SysInfo", "hostname"]).Failure?
                     && Path(Some(d), ["1", "DATA", "Network", "Interface"]).Failure?
                     && !WellFormed(d)
  {
    var data0 := JObj(map["updated" := JNum(0.0)]);
    var data1 := JObj(map["Memory" := JNull, "Uptime" := JNull, "Disk" := JNull, "Load" := JNull, "CPU" := JNull]);
    var e1 := JObj(map["DATA" := data1]);
    var d := JArr([JObj(map["DATA" := data0]), e1]);
    assert Validator.Accepts(d);
    NamesUsed();
    Validator.KeysAreIndices();
    assert Get(Some(d), "1") == Success(Some(e1));
    assert Get(Some(e1), "DATA") == Success(Some(data1));
    assert Get(Some(data1), "SysInfo") == Success(None);
    assert Get(Some(data1), "Network") == Success(None);
    assert ["1", "DATA", "SysInfo", "hostname"][1..] == ["DATA", "SysInfo", "hostname"];
    assert ["DATA", "SysInfo", "hostname"][1..] == ["SysInfo", "hostname"];
    assert ["SysInfo", "hostname"][1..] == ["hostname"];
    assert ["1", "DATA", "Network", "Interface"][1..] == ["DATA", "Network", "Interface"];
    assert ["DATA", "Network", "Interface"][1..] == ["Network", "Interface"];
    assert ["Network", "Interface"][1..] == ["Interface"];
    assert Path(Some(d), ["1", "DATA", "SysInfo", "hostname"]).Failure?;
    assert Path(Some(d), ["1", "DATA", "Network", "Interface"]).Failure?;
  }

  /** Reading `prefix + rest` is reading `rest` from wherever `prefix` leads. */
  lemma {:induction false} PathThrough(v: JsValue, w: JsValue, prefix: seq<string>, rest: seq<string>)
    requires Path(v, prefix) == Success(w)
    ensures Path(v, prefix + rest) == Path(w, rest)
    decreases |prefix|
  {
    if prefix == [] {
      assert prefix + rest == rest;
    } else {
      assert (prefix + rest)[0] == prefix[0] && (prefix + rest)[1..] == prefix[1..] + rest;
      PathThrough(Get(v, prefix[0]).value, w, prefix[1..], rest);
    }
  }

  /** A one-sample series `[{y: 0}]` has a number as its first sample. */
  lemma ZeroSeries()
    ensures IsNumberAt(Some(ZeroSeriesValue), ["0", "y"])
  {
    Validator.KeysAreIndices();
    assert Get(Some(ZeroSeriesValue), "0") == Success(Some(JObj(map["y" := JNum(0.0)])));
    assert ["0", "y"][1..] == ["y"];
  }

  /** A one-sample series whose first sample is 0. */
  const ZeroSeriesValue: Json := JArr([JObj(map["y" := JNum(0.0)])])

  const SampleSysInfo: Json := JObj(map[
    "hostname" := JStr("host"),
    "os" := JObj(map["dist" := JStr("dist"), "distversion" := JStr("1")]),
    "cpu" := JObj(map["type" := JStr("cpu")])])

  /** The latest values of a host that reports no `Disk`, `CPU` or `Network.Interface` section. */
  const SampleData: Json := JObj(map[
    "SysInfo" := SampleSysInfo,
    "Uptime" := JNum(0.0),
    "Memory" := JObj(map["real" := JObj(map["used" := ZeroSeriesValue, "free" := ZeroSeriesValue])]),
    "Load" := ZeroSeriesValue,
    "Network" := JObj(map[])])

  const SamplePayload: Json := JArr([JObj(map["DATA" := JObj(map["updated" := JNum(0.0)])]), JObj(map["DATA" := SampleData])])

  /**
   * The other way round: a payload without `Disk` and `CPU` sections, which
   * the builder turns into a record with zero disk and CPU totals, is one the
   * validator turns down.
   */
  lemma ValidatorRejectsReadablePayload()
    ensures exists d :: WellFormed(d) && Validator.CheckResponse(d) == Success(false)
  {
    var d, data1 := SamplePayload, SampleData;
    SampleReachesData();
    SampleSamples();
    SampleSysInfoReads();
    SampleCollections();
    SamplesFromSecond(d, data1);
    SysInfoFromSecond(d, data1);
    MissingCollections(d, data1);
    SampleRejected();
    assert WellFormed(d);
  }

  lemma SampleRejected()
    ensures Validator.CheckResponse(SamplePayload) == Success(false)
  {
    Validator.KeysAreIndices();
    var e0, e1 := JObj(map["DATA" := JObj(map["updated" := JNum(0.0)])]), JObj(map["DATA" := SampleData]);
    Validator.ArrayResponse([e0, e1]);
    assert Validator.CheckFirst(e0) == Success(true);
    assert Get(Some(e1), "DATA") == Success(Some(SampleData));
    assert HasOwn(Some(SampleData), "Disk") == Success(false);
    assert Validator.CheckSecond(e1) == Success(false);
  }

  lemma SampleReachesData()
    ensures Path(Some(SamplePayload), ["1", "DATA"]) == Success(Some(SampleData))
    ensures IsNumberAt(Some(SamplePayload), ["0", "DATA", "updated"])
  {
    Validator.KeysAreIndices();
    assert ["1", "DATA"][1..] == ["DATA"];
    assert ["0", "DATA", "updated"][1..] == ["DATA", "updated"];
    assert ["DATA", "updated"][1..] == ["updated"];
  }

  lemma SampleSamples()
    ensures IsNumberAt(Some(SampleData), ["Uptime"])
    ensures IsNumberAt(Some(SampleData), ["Memory", "real", "used", "0", "y"])
    ensures IsNumberAt(Some(SampleData), ["Memory", "real", "free", "0", "y"])
    ensures IsNumberAt(Some(SampleData), ["Load", "0", "y"])
  {
    ZeroSeries();
    assert Path(Some(SampleData), ["Memory", "real", "used"]) == Success(Some(ZeroSeriesValue));
    assert Path(Some(SampleData), ["Memory", "real", "free"]) == Success(Some(ZeroSeriesValue));
    assert Path(Some(SampleData), ["Load"]) == Success(Some(ZeroSeriesValue));
    PathThrough(Some(SampleData), Some(ZeroSeriesValue), ["Memory", "real", "used"], ["0", "y"]);
    PathThrough(Some(SampleData), Some(ZeroSeriesValue), ["Memory", "real", "free"], ["0", "y"]);
    PathThrough(Some(SampleData), Some(ZeroSeriesValue), ["Load"], ["0", "y"]);
    assert ["Memory", "real", "used"] + ["0", "y"] == ["Memory", "real", "used", "0", "y"];
    assert ["Memory", "real", "free"] + ["0", "y"] == ["Memory", "real", "free", "0", "y"];
    assert ["Load"] + ["0", "y"] == ["Load", "0", "y"];
  }

  lemma SampleSysInfoReads()
    ensures Path(Some(SampleData), ["SysInfo", "hostname"]).Success?
    ensures Path(Some(SampleData), ["SysInfo", "os", "dist"]).Success?
    ensures Path(Some(SampleData), ["SysInfo", "os", "distversion"]).Success?
    ensures Path(Some(SampleData), ["SysInfo", "cpu", "type"]).Success?
  {
    assert Path(Some(SampleData), ["SysInfo"]) == Success(Some(SampleSysInfo));
    PathThrough(Some(SampleData), Some(SampleSysInfo), ["SysInfo"], ["hostname"]);
    PathThrough(Some(SampleData), Some(SampleSysInfo), ["SysInfo"], ["os", "dist"]);
    PathThrough(Some(SampleData), Some(SampleSysInfo), ["SysInfo"], ["os", "distversion"]);
    PathThrough(Some(SampleData), Some(SampleSysInfo), ["SysInfo"], ["cpu", "type"]);
    assert ["SysInfo"] + ["hostname"] == ["SysInfo", "hostname"];
    assert ["SysInfo"] + ["os", "dist"] == ["SysInfo", "os", "dist"];
    assert ["SysInfo"] + ["os", "distversion"] == ["SysInfo", "os", "distversion"];
    assert ["SysInfo"] + ["cpu", "type"] == ["SysInfo", "cpu", "type"];
  }

  lemma SampleCollections()
    ensures Path(Some(SampleData), ["Disk"]) == Success(None)
    ensures Path(Some(SampleData), ["CPU"]) == Success(None)
    ensures Path(Some(SampleData), ["Network", "Interface"]) == Success(None)
  {
    assert ["Network", "Interface"][1..] == ["Interface"];
  }

  /** The sample reads, from the reads below `d[1].DATA`. */
  lemma SamplesFromSecond(d: Json, data1: Json)
    requires IsNumberAt(Some(d), ["0", "DATA", "updated"])
    requires Path(Some(d), ["1", "DATA"]) == Success(Some(data1))
    requires IsNumberAt(Some(data1), ["Uptime"])
    requires IsNumberAt(Some(data1), ["Memory", "real", "used", "0", "y"])
    requires IsNumberAt(Some(data1), ["Memory", "real", "free", "0", "y"])
    requires IsNumberAt(Some(data1), ["Load", "0", "y"])
    ensures SamplesReadable(d)
  {
    UptimeAndLoadFromSecond(d, data1);
    MemoryFromSecond(d, data1);
  }

  lemma UptimeAndLoadFromSecond(d: Json, data1: Json)
    requires Path(Some(d), ["1", "DATA"]) == Success(Some(data1))
    requires IsNumberAt(Some(data1), ["Uptime"])
    requires IsNumberAt(Some(data1), ["Load", "0", "y"])
    ensures IsNumberAt(Some(d), ["1", "DATA", "Uptime"])
    ensures IsNumberAt(Some(d), ["1", "DATA", "Load", "0", "y"])
  {
    NumberBelowSecond(d, data1, ["Uptime"]);
    assert ["1", "DATA"] + ["Uptime"] == ["1", "DATA", "Uptime"];
    NumberBelowSecond(d, data1, ["Load", "0", "y"]);
    assert ["1", "DATA"] + ["Load", "0", "y"] == ["1", "DATA", "Load", "0", "y"];
  }

  lemma MemoryFromSecond(d: Json, data1: Json)
    requires Path(Some(d), ["1", "DATA"]) == Success(Some(data1))
    requires IsNumberAt(Some(data1), ["Memory", "real", "used", "0", "y"])
    requires IsNumberAt(Some(data1), ["Memory", "real", "free", "0", "y"])
    ensures IsNumberAt(Some(d), ["1", "DATA", "Memory", "real", "used", "0", "y"])
    ensures IsNumberAt(Some(d), ["1", "DATA", "Memory", "real", "free", "0", "y"])
  {
    NumberBelowSecond(d, data1, ["Memory", "real", "used", "0", "y"]);
    assert ["1", "DATA"] + ["Memory", "real", "used", "0", "y"] == ["1", "DATA", "Memory", "real", "used", "0", "y"];
    NumberBelowSecond(d, data1, ["Memory", "real", "free", "0", "y"]);
    assert ["1", "DATA"] + ["Memory", "real", "free", "0", "y"] == ["1", "DATA", "Memory", "real", "free", "0", "y"];
  }

  /** The `SysInfo` reads, from the reads below `d[1].DATA`. */
  lemma SysInfoFromSecond(d: Json, data1: Json)
    requires Path(Some(d), ["1", "DATA"]) == Success(Some(data1))
    requires Path(Some(data1), ["SysInfo", "hostname"]).Success?
    requires Path(Some(data1), ["SysInfo", "os", "dist"]).Success?
    requires Path(Some(data1), ["SysInfo", "os", "distversion"]).Success?
    requires Path(Some(data1), ["SysInfo", "cpu", "type"]).Success?
    ensures SysInfoReadable(d)
  {
    assert Path(Some(d), ["1", "DATA", "SysInfo", "hostname"]).Success? by {
      ReadsFromSecond(d, data1, ["SysInfo", "hostname"]);
      assert ["1", "DATA"] + ["SysInfo", "hostname"] == ["1", "DATA", "SysInfo", "hostname"];
    }
    assert Path(Some(d), ["1", "DATA", "SysInfo", "os", "dist"]).Success? by {
      ReadsFromSecond(d, data1, ["SysInfo", "os", "dist"]);
      assert ["1", "DATA"] + ["SysInfo", "os", "dist"] == ["1", "DATA", "SysInfo", "os", "dist"];
    }
    assert Path(Some(d), ["1", "DATA", "SysInfo", "os", "distversion"]).Success? by {
      ReadsFromSecond(d, data1, ["SysInfo", "os", "distversion"]);
      assert ["1", "DATA"] + ["SysInfo", "os", "distversion"] == ["1", "DATA", "SysInfo", "os", "distversion"];
    }
    assert Path(Some(d), ["1", "DATA", "SysInfo", "cpu", "type"]).Success? by {
      ReadsFromSecond(d, data1, ["SysInfo", "cpu", "type"]);
      assert ["1", "DATA"] + ["SysInfo", "cpu", "type"] == ["1", "DATA", "SysInfo", "cpu", "type"];
    }
  }

  /** Missing `Disk`, `CPU` and `Network.Interface` sections are enumerated as empty. */
  lemma MissingCollections(d: Json, data1: Json)
    requires Path(Some(d), ["1", "DATA"]) == Success(Some(data1))
    requires Path(Some(data1), ["Disk"]) == Success(None)
    requires Path(Some(data1), ["CPU"]) == Success(None)
    requires Path(Some(data1), ["Network", "Interface"]) == Success(None)
    ensures CollectionsReadable(d)
    ensures Disks(d) == map[] && Cores(d) == map[] && Interfaces(d) == map[]
  {
    assert IsEnumerableAt(d, ["1", "DATA", "Disk"]) && Disks(d) == map[] by {
      ReadsFromSecond(d, data1, ["Disk"]);
      assert ["1", "DATA"] + ["Disk"] == ["1", "DATA", "Disk"];
    }
    assert IsEnumerableAt(d, ["1", "DATA", "CPU"]) && Cores(d) == map[] by {
      ReadsFromSecond(d, data1, ["CPU"]);
      assert ["1", "DATA"] + ["CPU"] == ["1", "DATA", "CPU"];
    }
    assert IsEnumerableAt(d, ["1", "DATA", "Network", "Interface"]) && Interfaces(d) == map[] by {
      ReadsFromSecond(d, data1, ["Network", "Interface"]);
      assert ["1", "DATA"] + ["Network", "Interface"] == ["1", "DATA", "Network", "Interface"];
    }
    assert PhysicalDisks(Disks(d)) == map[];
  }

  /** A number below `d[1].DATA` is a number read from the payload. */
  lemma NumberBelowSecond(d: Json, data1: Json, rest: seq<string>)
    requires Path(Some(d), ["1", "DATA"]) == Success(Some(data1))
    requires IsNumberAt(Some(data1), rest)
    ensures IsNumberAt(Some(d), ["1", "DATA"] + rest)
  {
    ReadsFromSecond(d, data1, rest);
  }

  /** A read below `d[1].DATA`, as a read from that object. */
  lemma ReadsFromSecond(d: Json, data1: Json, rest: seq<string>)
    requires Path(Some(d), ["1", "DATA"]) == Success(Some(data1))
    ensures Path(Some(d), ["1", "DATA"] + rest) == Path(Some(data1), rest)
  {
    PathThrough(Some(d), Some(data1), ["1", "DATA"], rest);
  }
}
