# longview-data: a Dafny model of the summary builder

`longview-data` asks the Linode Longview API for the latest metrics of one or
more hosts. It checks the shape of each decoded batch response and turns it
into a per-host summary record. The record holds:

- a staleness mark;
- hostname, distribution and CPU type;
- the uptime split into days, hours and minutes;
- memory, disk, load and CPU figures;
- received and sent bit rates.

This project models the core of `lib/index.js`: `getUptime`, `getBitsPerSec`,
`checkResponse` and `buildLongview`.

- `json.dfy` (module `JsonValue`): a decoded JSON value, and JavaScript's
  `v[key]` and `{}.hasOwnProperty.call(v, key)` on it, including the
  TypeError for `null` or `undefined` and the index and `length` keys of
  arrays and strings.
- `units.dfy` (module `Units`): `getUptime` with JavaScript's truncating
  `%`, and `getBitsPerSec` with its unit choice. Both return the numbers
  they would print.
- `validator.dfy` (module `Validator`): `checkResponse` on a decoded body.
  It returns `Success(true)`, `Success(false)` or the TypeError it raises.
  It is proved true exactly on a structural description, `Accepts`, and to
  raise exactly on another, `Raises`; on every other body it is false.
- `sums.dfy` (module `KeyedSums`): an order-free sum over the keys of an
  object. It is the reference for every `for...in` and `reduce` total.
- `builder.dfy` (module `Builder`): `buildLongview` as a method that fills
  in the record field by field. Its loops pick keys in an unspecified order,
  and each is proved equal to the order-free sum.

The current time is a parameter `now` (whole seconds since the epoch).
Numbers are exact reals.

The comment at lib/index.js:90 says the loop keeps only disks on `/dev/sd*`.
The code tests the unanchored pattern `/\/dev\/sd*/`, where `d*` may match
nothing. The model follows the code: a disk key qualifies when it contains
`/dev/s` anywhere. `DiskPatternIsRegex` proves this equals the pattern's language.
The `g` flag has no effect, because the regular-expression literal makes a
fresh object on every iteration.

## Model

| member | source | states |
|---|---|---|
| JsonValue.Get | lib/index.js:79-83 | reading a member raises exactly on `null`/`undefined`; on an object it finds a value iff the key is an own member |
| JsonValue.HasOwn | lib/index.js:44-45 | `hasOwnProperty.call` raises exactly where reading the key raises, and is true exactly where the read finds a member |
| Units.Uptime | lib/index.js:6-11 | for a non-negative uptime: hours in [0,24), minutes in [0,60), and days·86400 + hours·3600 + minutes·60 ≤ seconds < that + 60; a negative uptime gives negative days |
| Units.UptimeRoundTrip | lib/index.js:6-11 | any days/hours/minutes triple in range, plus under a minute of spare seconds, is read back as the same triple |
| Units.BitsPerSec | lib/index.js:13-23 | exactly one unit: Gb/s iff 8·bytes ≥ 1e9, Mb/s iff in [1e6,1e9), Kb/s iff in [1e3,1e6), else b/s; value × unit = 8·bytes; Kb/s and Mb/s values lie in [1,1000) |
| Validator.HasAll | lib/index.js:45 | the `&&` chain of `hasOwnProperty` tests is true iff every test is, and raises iff there is a test and the object is null or undefined |
| Validator.CheckResponse | lib/index.js:41-51 | true iff `d[0].DATA` is an object with `updated` and `d[1].DATA` an object with Memory, Uptime, Disk, Load and CPU; raises a TypeError iff the body is `null`, or both elements exist and element 0 has no `DATA`, or element 0 passes and element 1 has no `DATA` (null or undefined); false otherwise, including when element 0 or 1 is missing |
| Validator.CheckElements | lib/index.js:45-48 | the `DATA` tests are true iff both elements hold `DATA` objects with the required members |
| Validator.CheckFirst | lib/index.js:45 | the `updated` test is true iff element 0 holds a `DATA` object with `updated`, and raises iff element 0 is null or its `DATA` is null or undefined |
| Validator.CheckSecond | lib/index.js:45 | the five metric tests are true iff element 1 holds a `DATA` object with all five sections, and raise iff element 1 is null or its `DATA` is null or undefined |
| Validator.ArrayResponse | lib/index.js:44-45 | on an array of two or more elements the verdict is the `DATA` test of its first two elements |
| Validator.ExtraKeysIgnored | lib/index.js:44-48 | on an array body of two or more elements, adding or overwriting untested `DATA` members never changes the verdict, nor whether it raises |
| Validator.ElementsIgnoreExtraKeys | lib/index.js:45-48 | the same, for the two elements' `DATA` tests |
| Validator.FirstIgnoresExtraKeys | lib/index.js:45 | members other than `updated` do not change the `updated` test |
| Validator.SecondIgnoresExtraKeys | lib/index.js:45 | members other than the five sections do not change the metric tests |
| Validator.HasAllIgnoresOtherKeys | lib/index.js:45 | members outside the tested names do not change the `hasOwnProperty` chain |
| Validator.TrailingElementsIgnored | lib/index.js:44-45 | elements after the second never change the verdict |
| KeyedSums.SumOverRemove | lib/index.js:99-104 | any member can be taken out of the order-free sum first |
| KeyedSums.SumOverAdd | lib/index.js:99-104 | adding one key to the summed set adds exactly its term |
| KeyedSums.FoldKeysAnyOrder | lib/index.js:115-131 | accumulating left to right in any enumeration order of distinct keys gives the order-free sum |
| KeyedSums.SumOverMonotone | lib/index.js:105 | termwise no larger means no larger in sum |
| KeyedSums.SumOverNonNegative | lib/index.js:105 | a sum of non-negative terms is non-negative |
| Builder.DiskPatternIsRegex | lib/index.js:92 | a disk key passes the test iff some suffix of it starts with `/dev/s` followed by zero or more `d`s, the pattern's language |
| Builder.Percent | lib/index.js:87 | the percentage exists iff the whole is non-zero, and then percent × whole = 100 × part |
| Builder.Staleness | lib/index.js:74-77 | a host is marked stale, with its update time, iff more than 7200 seconds separate the update from `now` |
| Builder.StaleStaysStale | lib/index.js:75 | a stale host stays stale, with the same mark, at every later time |
| Builder.CollectPhysicalDisks | lib/index.js:89-98 | `dsk` holds exactly the `Disk` members whose key matches the pattern and that have an own `fs` member, with their values unchanged |
| Builder.ReduceKeys | lib/index.js:99-104 | the `reduce` over `Object.keys` equals the order-free sum over all keys |
| Builder.SumCpu | lib/index.js:112-122 | the three running sums together equal the order-free sum of system + wait + user over all cores |
| Builder.SumTraffic | lib/index.js:124-133 | the received and sent totals equal the order-free sums of the first `rx_bytes` and `tx_bytes` samples over all interfaces |
| Builder.BuildLongview | lib/index.js:53-135 | every field against the payload: the staleness mark; system facts copied; the uptime split; memory total = 1024·(used + free), used = 1024·used, and the percentage; disk totals summed over physical disks with used = total − free and its percentage; the load; the CPU sum; the rx/tx bit rates |
| Builder.ExcludedDiskIgnored | lib/index.js:89-104 | adding or changing a `Disk` member that does not qualify leaves both disk totals unchanged |
| Builder.DiskUsageBounded | lib/index.js:99-106 | when every physical disk has 0 ≤ free ≤ total, the sums satisfy 0 ≤ free ≤ total, 0 ≤ used ≤ total, and a defined used percentage lies in [0,100] |
| Builder.MemoryPercentBounded | lib/index.js:85-87 | for non-negative samples the memory percentage exists iff used + free ≠ 0, and then lies in [0,100] |
| Builder.PercentBounded | lib/index.js:106 | a part between nothing and a positive whole is between 0 and 100 percent of it |
| Builder.WellFormedAcceptance | lib/index.js:44-45 | on every payload the builder can read, `checkResponse` accepts iff `d[1].DATA` has own `Disk` and `CPU` members |
| Builder.ReadsReachData | lib/index.js:45 | readable `updated`, `Uptime`, `Memory` and `Load` paths put those members in the `DATA` objects `checkResponse` tests |
| Builder.PathThrough | lib/index.js:79-83 | reading `prefix + rest` is reading `rest` from wherever `prefix` leads |
| Builder.DataHolds | lib/index.js:45 | a readable path `d[i].DATA.<name>...` means element i's `DATA` object has `name` |
| Builder.ValidatorMissesSysInfoAndNetwork | lib/index.js:79-83 | some payload passes `checkResponse`, yet reading `SysInfo.hostname` and `Network.Interface` raises, so the builder's precondition does not follow from the check |
| Builder.ValidatorRejectsReadablePayload | lib/index.js:89-131 | some payload without `Disk` and `CPU` sections, which the builder reads without raising, is one `checkResponse` rejects |

## Left out

- `convertTime` (lib/index.js:25-34) uses `Date` and the local time zone. The stale mark keeps the update time instead of the date text.
- `pretty` from the `prettysize` package (lib/index.js:85-86, 107-109) is not part of this model. The record keeps the byte counts it would format.
- `toFixed` rounding and the `%`, `Gb/s`… suffixes (lib/index.js:16-22, 87, 106, 111, 122) are float formatting. The model keeps the numbers and the chosen unit.
- `JSON.parse` (lib/index.js:42) is not modelled. `checkResponse` starts from a decoded value, and malformed text, which makes the source raise a SyntaxError, is not represented.
- The exported function (lib/index.js:137-186) is left out: it reads `config.json`, sends HTTP requests and fans out with `async.parallel`. Its error handling is also left out.
- `buildRequestArray` (lib/index.js:36-39) returns a constant string.
- `lib/longview-data.js` and `lib/cli.js` are command-line wrappers and are not part of this model.
- Numbers are exact reals, not IEEE doubles. In the source, floating-point sums could in principle depend on `for...in` order. `FoldKeysAnyOrder` shows that exact sums do not.
- Builder.BuildLongview: requires `WellFormed`, which says every read succeeds and every sample is a number. Elsewhere the source raises a TypeError, computes NaN, concatenates strings, or coerces the value (a `null` sample counts as 0, `parseFloat` reads a numeric-string disk sample, `/` and `%` convert a `null` or numeric-string `Uptime`, and `updated: null` makes the host stale); the model does not follow those paths. A `Disk`, `CPU` or `Network.Interface` that is missing, null, a number or a boolean is within `WellFormed`: the loop runs zero times, as in the source.
- Builder.BuildLongview: `Disk`, `CPU` and `Network.Interface` are taken not to be arrays or strings. The source accepts those and `for...in` visits their index keys; `WellFormed` excludes them.
- Builder.SumCpu, Builder.SumTraffic: the `hasOwnProperty` guard inside the CPU and network loops (lib/index.js:116, 127) is always true for keys of a decoded object. Inherited enumerable properties are not modelled, so the guard is not a separate branch.
- JsonValue.Get: inherited prototype members (`toString`, `constructor`…) are not modelled. Array indices are not bounded by 2^32 − 1.
- JsonValue.Get: a string's `length` and index keys count Unicode code points, while JavaScript counts UTF-16 code units. A string containing characters outside the Basic Multilingual Plane therefore has fewer index keys in the model. Only a body that is itself a string is affected; the disk-key match is unaffected.
- Builder.Percent: `None` stands for the NaN or Infinity the source prints when the whole is zero.
