# Archer proxy startup configuration, in Dafny

A model of the startup-configuration code of the archer proxy (`config.go`),
with proofs of its properties. That code builds a `ProxyConfig` record from a
section-keyed key/value file (`NewProxyConfig`): every missing key falls back
to a fixed default, seconds values become `time.Duration`s, and
`redis::nodes` is split on white space. It then validates and clamps the
record in place (`apply`). There are four fatal conditions:

- the log file does not open;
- `name` is empty;
- `port` is zero;
- the CPU-profile file cannot be created.

Three fields are clamped: `cpu` to at most the CPU count, `maxConn` to at
most 10000, and `poolSize` to 10 when it lies outside [1, 30]. A heap-profile
file that cannot be created is skipped silently.

Files:

- `goint.dfy` (module `GoInt`): Go's 64-bit `int` and `time.Duration`. It
  defines `Wrap64`, the two's-complement wrap-around of a Go
  multiplication, and `Seconds`, i.e. `time.Duration(n) * time.Second`.
- `strings.dfy` (module `Strings`): `unicode.IsSpace` and `strings.Fields`.
  `Fields` is a left-to-right scan. The lemmas prove:
  - it yields non-empty, space-free tokens that keep every other character
    in order;
  - runs of spaces do not matter, and neither do leading or trailing
    spaces;
  - joining the tokens and splitting again gives them back (so splitting
    is idempotent).
- `config.dfy` (module `Archer`):
  - the key/value `Source` with its defaulted typed accessors
    `DefaultInt`, `DefaultString` and `DefaultBool`. They stand for the ini
    container's lookups: a key that is missing, or whose value does not
    parse as the type, reads as the caller's default, and so does an empty
    string value. This last rule matters only for `log::loglevel`, whose
    default is "info" rather than "";
  - the `Config` record and `Load` (the loading half of `NewProxyConfig`);
  - `Applied`, the specification of `apply` as a function from the record
    and the process environment to an `Outcome`. An `Outcome` is `Ok` or
    `Fatal(reason)`. Either way it carries the record as it stands when
    the run ends and the ordered list of calls made into the logger,
    scheduler, profiler and HTTP server. A failed `log.SetOutputByName`
    call is in that list too, as the call just before the fatal exit;
  - the class `ProxyConfig`, the mutable Go record. Its method `Apply`
    updates the fields step by step and is proved equal to `Applied`;
  - the method `NewProxyConfig`, which loads and then applies.
- `properties.dfy` (module `ArcherProperties`): lemmas about `Load` and
  `Applied`: defaults, durations, the node list, fatal ordering, the
  clamps, unchanged fields, idempotence, profile-file handling, and the
  end-to-end scenarios.

The process environment is a parameter, `Env`. It holds
`runtime.NumCPU()` and two functions: whether `log.SetOutputByName` can
open a given path, and whether `os.Create` can create one. `log.Fatal`
becomes a `Fatal` outcome instead of ending the process.

Behaviour worth noting:

- The heap-profile file is never fatal. The code skips a failed
  `os.Create` of `memFile` without checking anything else
  (config.go:133-139).
- The CPU profile is stopped by a `defer` when `apply` returns
  (config.go:130). So the `StopCpuProfile` event closes every run that
  started a profile, right after the diagnostics server is spawned. It
  does not run at process shutdown.
- White space for `redis::nodes` is `unicode.IsSpace` (the ASCII spaces,
  U+0085, U+00A0 and the other Unicode White_Space characters), as
  `strings.Fields` defines it.

## Model

| member | source | states |
|---|---|---|
| GoInt.Wrap64 | config.go:66-72 | the result is the unique int64 congruent to the exact product modulo 2^64, and equals it when it fits |
| GoInt.Seconds | config.go:66-72 | `time.Duration(n) * time.Second` is n·10^9 nanoseconds modulo 2^64, and exactly n·10^9 for \|n\| up to 9223372036 |
| GoInt.SecondsRoundTrip | config.go:66-72 | in the exact range, a duration divides back to the seconds it came from with no remainder |
| GoInt.SecondsOverflowWraps | config.go:66-72 | one second beyond that range the Go product has wrapped to a negative duration |
| Strings.Scan | config.go:65 | the scan's tokens are non-empty and space-free, and concatenated they are the pending field followed by the input without its spaces |
| Strings.Fields | config.go:65 | every node token is non-empty and free of white space, and the tokens concatenated are the value with its spaces removed, in order |
| Strings.ScanSpaceRun | config.go:65 | a non-empty run of spaces ends the pending token and is otherwise skipped |
| Strings.ScanWord | config.go:65 | non-space characters are collected into the pending token |
| Strings.ScanRunsEquivalent | config.go:65 | two non-empty space runs at the same place give the same tokens, whatever field is pending |
| Strings.FieldsRunsEquivalent | config.go:65 | replacing one run of white space by another leaves the node list unchanged ("a b  c" and "a  b c" alike) |
| Strings.FieldsLeadingSpace | config.go:65 | leading white space does not change the node list |
| Strings.ScanTrailingSpace | config.go:65 | trailing spaces do not change the scan's tokens |
| Strings.FieldsTrailingSpace | config.go:65 | trailing white space does not change the node list |
| Strings.FieldsOfSpaces | config.go:65 | an empty or all-space value gives no nodes |
| Strings.FieldsOfJoin | config.go:65 | well-formed tokens joined by blanks split back into exactly those tokens, in order |
| Strings.FieldsIdempotent | config.go:65 | splitting the re-joined node list gives the same list |
| Strings.FieldsExample | config.go:65 | "a b  c" and "a  b c" both give ["a", "b", "c"] |
| Archer.Load | config.go:53-80 | the loaded node list consists of well-formed white-space-free tokens |
| Archer.ClampCpu | config.go:106-109 | the result is the smaller of `cpu` and the CPU count: at most both, and equal to one of them |
| Archer.ClampMaxConn | config.go:111-114 | the result is the smaller of `maxConn` and 10000 |
| Archer.ClampPoolSize | config.go:118-121 | the result lies in [1, 30]; it equals the input exactly when the input is in range, and is 10 otherwise |
| Archer.Clamped | config.go:106-121 | after the clamps `cpu` is at most the CPU count, `maxConn` at most 10000, `poolSize` in [1, 30] |
| Archer.Applied | config.go:87-143 | a successful `apply` leaves `cpu`, `maxConn` and `poolSize` within their bounds |
| Archer.ProxyConfig.constructor | config.go:53 | the fresh record holds exactly the given field values |
| Archer.ProxyConfig.ConfigureLog | config.go:88-96 | the log level is set; a named log file is always tried; one that does not open is reported, one that opens is rotated daily |
| Archer.ProxyConfig.ApplyClamps | config.go:106-121 | the fields are updated in place to the clamped record, with one warning per changed field and the GOMAXPROCS call between the `maxConn` and `poolSize` steps |
| Archer.ProxyConfig.StartProfiles | config.go:123-143 | an uncreatable CPU-profile file is reported; otherwise profiles start, the heap snapshot is written only if its file was created, the server is spawned and the CPU profile is stopped on return |
| Archer.ProxyConfig.Apply | config.go:87-143 | the in-place run returns exactly the outcome `Applied` gives for the record it started from, and leaves the record equal to that outcome's record |
| Archer.NewProxyConfig | config.go:47-85 | a fresh record is loaded from the source and applied; the outcome is `Applied(Load(src))` and the record is the outcome's |
| ArcherProperties.LoadEmptySource | config.go:55-80 | an empty file gives the documented defaults for every field |
| ArcherProperties.LoadAbsentProxyKeys | config.go:55-61 | each missing `proxy` key gives its default: empty name, port and cpu 0, slaveOk false, maxConn 4000, concurrency 5, pipeLength 4096 |
| ArcherProperties.LoadAbsentRedisKeys | config.go:64-66 | a missing pool size gives 10, missing nodes give an empty list, a missing reload interval gives 600 s |
| ArcherProperties.LoadAbsentCommonLogDebugKeys | config.go:69-80 | missing timeouts give 30 s idle, 5 s write, 5 s read, 3 s dial; missing log file, CPU and heap profile paths give ""; a missing or empty level gives "info" |
| ArcherProperties.LoadPresentProxyKeys | config.go:55-61 | each `proxy` key present in the file is taken unchanged |
| ArcherProperties.LoadPresentOtherKeys | config.go:64-80 | a present pool size, log file, CPU or heap profile path, or non-empty log level, is taken unchanged |
| ArcherProperties.LoadDurations | config.go:66-72 | every duration field is its seconds value times one second |
| ArcherProperties.LoadNodes | config.go:65 | `nodes` is the white-space split of `redis::nodes`: well-formed tokens, in order, that survive a join and re-split |
| ArcherProperties.ApplySetsLevelFirst | config.go:88 | the first call of every run sets the log level |
| ArcherProperties.ApplyLogFailure | config.go:90-94 | a log file that does not open is fatal right after the attempt to redirect to it, before any other check, with the record untouched |
| ArcherProperties.ApplyEmptyName | config.go:98-100 | an empty name is fatal whatever the port, before any clamp or scheduler call, with the record untouched |
| ArcherProperties.ApplyZeroPort | config.go:102-104 | with a name, a zero port is fatal before any clamp or scheduler call |
| ArcherProperties.ApplyFatalIff | config.go:87-143 | the run is fatal exactly when the log file fails, the name is empty, the port is zero or the CPU-profile file cannot be created |
| ArcherProperties.ApplyFatalOrder | config.go:90-127 | the reason given is the first failing check in source order |
| ArcherProperties.ClampWarningsFromClamps | config.go:106-121 | past the fatal checks, a clamp warning in a run's calls comes only from the clamp step |
| ArcherProperties.ApplyCpu | config.go:106-109 | `cpu` above NumCPU becomes NumCPU with a warning; any other value, zero or negative too, passes unchanged and unwarned; GOMAXPROCS gets the result |
| ArcherProperties.ApplyMaxConn | config.go:111-114 | `maxConn` above 10000 becomes 10000 with a warning, otherwise unchanged; afterwards it is at most 10000 |
| ArcherProperties.ApplyPoolSize | config.go:118-121 | `poolSize` outside [1, 30] becomes 10 with a warning, inside it is unchanged; afterwards it is in [1, 30] |
| ArcherProperties.ApplyKeepsOtherFields | config.go:87-143 | every field but `cpu`, `maxConn` and `poolSize` is unchanged by `apply`, fatal or not |
| ArcherProperties.ClampedIdempotent | config.go:106-121 | clamping twice gives the same record as clamping once |
| ArcherProperties.ApplyIdempotent | config.go:87-143 | applying a successful result again succeeds with the same record and no clamp warnings |
| ArcherProperties.ApplyCpuProfileFails | config.go:123-127 | an uncreatable CPU-profile file is fatal after the clamps and before any profile starts |
| ArcherProperties.ApplyCpuProfileStarts | config.go:123-131 | a created CPU-profile file starts the profiler, and the deferred stop is the run's last call |
| ArcherProperties.ApplyHeapProfileSkipped | config.go:133-139 | an uncreatable heap-profile file is skipped: the run succeeds and no heap snapshot is written |
| ArcherProperties.ApplyHeapProfileWritten | config.go:133-139 | a created heap-profile file receives a heap snapshot |
| ArcherProperties.ApplyServesDiagnostics | config.go:141-143 | every successful run spawns the diagnostics server on :6061 |
| ArcherProperties.StartupPoolSizeReset | config.go:47-121 | name p1, port 6380 and pool size 50 start up with port 6380 and pool size 10, with a warning |
| ArcherProperties.StartupWithoutName | config.go:55-100 | a file without `proxy::name` is fatal before any clamp; unless its log file fails to open first, the reason is the empty name |
| ArcherProperties.StartupCpuFileUnwritable | config.go:79-127 | an uncreatable `debug::cpufile` is fatal |
| ArcherProperties.StartupMemFileUnwritable | config.go:80-139 | an uncreatable `debug::memfile` is not fatal and no heap snapshot is written |

## Left out

- Parsing the INI file, and the fatal exit when `config.NewConfig` fails (config.go:48-51). The parser is a foreign library and the failure is file I/O. The file is modelled as already-parsed typed maps. A value that does not parse as its type reads as absent, and the model does not say which raw strings parse.
- The logging backend. What `SetLevelByString`, `SetOutputByName` and `SetRotateByDay` do (config.go:88-96) is external. The model records the calls, including a failed redirection attempt, and whether the log file opened. The validity of the level name is not checked.
- The text of log messages, and the `log.Info` dump of the record (config.go:83). These are output only. Warnings are recorded as values naming the field and the value involved.
- What `runtime.GOMAXPROCS` does to the scheduler (config.go:116). This is a process-global effect. Only the call and its argument are recorded.
- What the profiler writes (config.go:129-130, 137). These are foreign runtime calls. The model records only the start, the snapshot and the deferred stop, and the create-succeeded/failed branching.
- The diagnostics HTTP server (config.go:141-143). It is network I/O run on a detached goroutine. Its listen error is logged asynchronously and never reaches `apply`, so the model records only the spawn.
- Process termination. `log.Fatal` is a `Fatal` outcome.
- The `kickOff` field (config.go:28). Nothing ever sets it.
- Invalid UTF-8 in `redis::nodes`. A Dafny string holds only Unicode scalar values, so the bytes Go would decode to U+FFFD are not modelled.
