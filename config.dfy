/** The proxy's startup configuration: the `ProxyConfig` record, the loader
    that fills it from a section-keyed key/value source (`NewProxyConfig`),
    and the one-shot validation, clamping and bootstrap step (`apply`).

    The process-level collaborators become data: the number of logical
    CPUs and whether a path can be opened or created are fields of `Env`;
    the calls `apply` makes into the logger, the scheduler, the profiler
    and the HTTP server are recorded, in order, as `Event`s; `log.Fatal`
    ends the run with a `Fatal` outcome. */
module Archer {
  import opened GoInt
  import opened Strings

  // ---------------------------------------------------------------------
  // The key/value source

  /** The parsed configuration file, seen through its typed accessors: a key
      is "section::key", and a key that is absent from the map of its type
      (missing from the file, or not parsing as that type) reads as the
      default the caller passes. The string accessor also falls back to the
      default when the stored value is the empty string, as the ini
      container's `DefaultString` does. */
  datatype Source = Source(ints: map<string, Int64>, strs: map<string, string>, bools: map<string, bool>)
  {
    function DefaultInt(key: string, default: Int64): Int64 {
      if key in ints then ints[key] else default
    }

    function DefaultString(key: string, default: string): string {
      if key in strs && strs[key] != "" then strs[key] else default
    }

    function DefaultBool(key: string, default: bool): bool {
      if key in bools then bools[key] else default
    }
  }

  /** A file with no keys at all. */
  const EmptySource: Source := Source(map[], map[], map[])

  // ---------------------------------------------------------------------
  // The configuration record

  datatype Config = Config(
    // proxy
    name: string,
    port: Int64,
    cpu: Int64,
    slaveOk: bool,
    maxConn: Int64,
    conCurrency: Int64,
    pipeLength: Int64,
    // redis
    nodes: seq<string>,
    poolSize: Int64,
    reloadSlot: Duration,
    // common
    idleTimeout: Duration,
    readTimeout: Duration,
    writeTimeout: Duration,
    dialTimeout: Duration,
    // log
    logLevel: string,
    logFile: string,
    // debug
    cpuFile: string,
    memFile: string)

  /** The configuration every key's default gives. */
  const Defaults: Config := Config(
    name := "", port := 0, cpu := 0, slaveOk := false,
    maxConn := 4000, conCurrency := 5, pipeLength := 4096,
    nodes := [], poolSize := 10, reloadSlot := 600 * Second,
    idleTimeout := 30 * Second, readTimeout := 5 * Second,
    writeTimeout := 5 * Second, dialTimeout := 3 * Second,
    logLevel := "info", logFile := "", cpuFile := "", memFile := "")

  /** The loading half of `NewProxyConfig`: one defaulted lookup per field,
      seconds scaled to durations, the node list split on white space. */
  function Load(src: Source): (pc: Config)
    ensures AllFields(pc.nodes)
  {
    Config(
      name := src.DefaultString("proxy::name", ""),
      port := src.DefaultInt("proxy::port", 0),
      cpu := src.DefaultInt("proxy::cpu", 0),
      slaveOk := src.DefaultBool("proxy::slaveok", false),
      maxConn := src.DefaultInt("proxy::maxconn", 4000),
      conCurrency := src.DefaultInt("proxy::concurrency", 5),
      pipeLength := src.DefaultInt("proxy::pipelength", 4096),
      poolSize := src.DefaultInt("redis::poolsize", 10),
      nodes := Fields(src.DefaultString("redis::nodes", "")),
      reloadSlot := Seconds(src.DefaultInt("redis::reloadslot", 600)),
      idleTimeout := Seconds(src.DefaultInt("common::idletimeout", 30)),
      writeTimeout := Seconds(src.DefaultInt("common::writetimeout", 5)),
      readTimeout := Seconds(src.DefaultInt("common::readtimeout", 5)),
      dialTimeout := Seconds(src.DefaultInt("common::dialtimeout", 3)),
      logFile := src.DefaultString("log::logfile", ""),
      logLevel := src.DefaultString("log::loglevel", "info"),
      cpuFile := src.DefaultString("debug::cpufile", ""),
      memFile := src.DefaultString("debug::memfile", ""))
  }

  // ---------------------------------------------------------------------
  // The bootstrap step

  const MaxConnLimit: Int64 := 10000
  const PoolSizeMin: Int64 := 1
  const PoolSizeMax: Int64 := 30
  const PoolSizeFallback: Int64 := 10
  const DiagnosticsAddr: string := ":6061"

  /** What the process offers `apply`: `runtime.NumCPU()`, whether
      `log.SetOutputByName` can open a path, and whether `os.Create` can
      create one. */
  datatype Env = Env(numCPU: Int64, logOpens: string -> bool, creatable: string -> bool)

  datatype FatalReason =
    | LogOutputFailed(logPath: string)
    | EmptyName
    | ZeroPort
    | CpuProfileCreateFailed(cpuPath: string)

  datatype Warning =
    | CpuAdjusted(cpuFrom: Int64, cpuTo: Int64)
    | MaxConnAdjusted(maxConnFrom: Int64)
    | PoolSizeAdjusted(poolSizeFrom: Int64)
    | CpuProfileStarting(cpuProfilePath: string)
    | HeapProfileStarting(heapProfilePath: string)

  /** A call `apply` makes into a process-level collaborator. */
  datatype Event =
    | SetLevel(level: string)
    | SetOutput(outputPath: string)
    | RotateByDay
    | Warn(warning: Warning)
    | SetMaxProcs(procs: Int64)
    | StartCpuProfile(cpuProfile: string)
    | WriteHeapProfile(heapProfile: string)
    | ServeDiagnostics(addr: string)
    | StopCpuProfile

  /** How a run of `apply` ends: the record as it stands at that point and
      the calls made so far, and, for `Fatal`, why the process exits. */
  datatype Outcome =
    | Ok(config: Config, events: seq<Event>)
    | Fatal(reason: FatalReason, config: Config, events: seq<Event>)

  /** `cpu` is lowered to the CPU count when above it; any other value,
      zero and negatives included, is kept. */
  function ClampCpu(cpu: Int64, numCPU: Int64): (r: Int64)
    ensures r <= numCPU && r <= cpu
    ensures r == cpu || r == numCPU
  {
    if cpu > numCPU then numCPU else cpu
  }

  /** `maxConn` is capped at 10000. */
  function ClampMaxConn(maxConn: Int64): (r: Int64)
    ensures r <= MaxConnLimit && r <= maxConn
    ensures r == maxConn || r == MaxConnLimit
  {
    if maxConn > MaxConnLimit then MaxConnLimit else maxConn
  }

  predicate PoolSizeInRange(poolSize: Int64) {
    PoolSizeMin <= poolSize <= PoolSizeMax
  }

  /** A pool size outside [1, 30] is replaced by 10. */
  function ClampPoolSize(poolSize: Int64): (r: Int64)
    ensures PoolSizeInRange(r)
    ensures PoolSizeInRange(poolSize) <==> r == poolSize
    ensures !PoolSizeInRange(poolSize) ==> r == PoolSizeFallback
  {
    if poolSize <= 0 || poolSize > PoolSizeMax then PoolSizeFallback else poolSize
  }

  /** The record after the three clamps. */
  function Clamped(c: Config, numCPU: Int64): (r: Config)
    ensures r.cpu <= numCPU && r.maxConn <= MaxConnLimit && PoolSizeInRange(r.poolSize)
  {
    c.(cpu := ClampCpu(c.cpu, numCPU),
       maxConn := ClampMaxConn(c.maxConn),
       poolSize := ClampPoolSize(c.poolSize))
  }

  /** Log level, then, when a log file is named and opens, redirection and
      daily rotation. */
  function LogEvents(c: Config): seq<Event> {
    [SetLevel(c.logLevel)] + (if c.logFile != "" then [SetOutput(c.logFile), RotateByDay] else [])
  }

  /** A warning for each clamp that changes its field, with the scheduler
      call between the `maxConn` and `poolSize` checks. */
  function ClampEvents(c: Config, numCPU: Int64): seq<Event> {
    (if c.cpu > numCPU then [Warn(CpuAdjusted(c.cpu, numCPU))] else [])
    + (if c.maxConn > MaxConnLimit then [Warn(MaxConnAdjusted(c.maxConn))] else [])
    + [SetMaxProcs(ClampCpu(c.cpu, numCPU))]
    + (if !PoolSizeInRange(c.poolSize) then [Warn(PoolSizeAdjusted(c.poolSize))] else [])
  }

  /** Profiling, the diagnostics server, and the deferred stop of the CPU
      profile as `apply` returns. */
  function ProfileEvents(c: Config, env: Env): seq<Event> {
    (if c.cpuFile != "" then [Warn(CpuProfileStarting(c.cpuFile)), StartCpuProfile(c.cpuFile)] else [])
    + (if c.memFile != "" && env.creatable(c.memFile)
       then [Warn(HeapProfileStarting(c.memFile)), WriteHeapProfile(c.memFile)] else [])
    + [ServeDiagnostics(DiagnosticsAddr)]
    + (if c.cpuFile != "" then [StopCpuProfile] else [])
  }

  predicate LogFails(c: Config, env: Env) {
    c.logFile != "" && !env.logOpens(c.logFile)
  }

  predicate CpuProfileFails(c: Config, env: Env) {
    c.cpuFile != "" && !env.creatable(c.cpuFile)
  }

  /** `(*ProxyConfig).apply` as a function of the record it starts from. On
      success the clamped fields are in range. */
  function Applied(c: Config, env: Env): (r: Outcome)
    ensures r.Ok? ==> r.config.cpu <= env.numCPU && r.config.maxConn <= MaxConnLimit
    ensures r.Ok? ==> PoolSizeInRange(r.config.poolSize)
  {
    if LogFails(c, env) then
      Fatal(LogOutputFailed(c.logFile), c, [SetLevel(c.logLevel), SetOutput(c.logFile)])
    else if c.name == "" then
      Fatal(EmptyName, c, LogEvents(c))
    else if c.port == 0 then
      Fatal(ZeroPort, c, LogEvents(c))
    else
      var c' := Clamped(c, env.numCPU);
      var events := LogEvents(c) + ClampEvents(c, env.numCPU);
      if CpuProfileFails(c, env) then
        Fatal(CpuProfileCreateFailed(c.cpuFile), c', events)
      else
        Ok(c', events + ProfileEvents(c, env))
  }

  /** `NewProxyConfig`: load, then apply. */
  function Startup(src: Source, env: Env): Outcome {
    Applied(Load(src), env)
  }

  // ---------------------------------------------------------------------
  // The mutable record

  /** The Go `*ProxyConfig`, whose fields `apply` updates in place. */
  class ProxyConfig {
    var name: string
    var port: Int64
    var cpu: Int64
    var slaveOk: bool
    var maxConn: Int64
    var conCurrency: Int64
    var pipeLength: Int64
    var nodes: seq<string>
    var poolSize: Int64
    var reloadSlot: Duration
    var idleTimeout: Duration
    var readTimeout: Duration
    var writeTimeout: Duration
    var dialTimeout: Duration
    var logLevel: string
    var logFile: string
    var cpuFile: string
    var memFile: string

    /** The record's current value. */
    function Value(): Config
      reads this
    {
      Config(name, port, cpu, slaveOk, maxConn, conCurrency, pipeLength,
             nodes, poolSize, reloadSlot, idleTimeout, readTimeout, writeTimeout, dialTimeout,
             logLevel, logFile, cpuFile, memFile)
    }

    constructor (c: Config)
      ensures Value() == c
    {
      name, port, cpu, slaveOk := c.name, c.port, c.cpu, c.slaveOk;
      maxConn, conCurrency, pipeLength := c.maxConn, c.conCurrency, c.pipeLength;
      nodes, poolSize, reloadSlot := c.nodes, c.poolSize, c.reloadSlot;
      idleTimeout, readTimeout := c.idleTimeout, c.readTimeout;
      writeTimeout, dialTimeout := c.writeTimeout, c.dialTimeout;
      logLevel, logFile, cpuFile, memFile := c.logLevel, c.logFile, c.cpuFile, c.memFile;
    }

    /** Step 1 of `apply`: the log level, and the log file when one is
        named. Reports the fatal reason when the file does not open; the
        attempt to redirect is recorded either way. */
    method ConfigureLog(env: Env) returns (failed: bool, events: seq<Event>)
      ensures failed == LogFails(Value(), env)
      ensures events == if failed then [SetLevel(logLevel), SetOutput(logFile)] else LogEvents(Value())
    {
      events := [SetLevel(logLevel)];
      failed := false;
      if logFile != "" {
        events := events + [SetOutput(logFile)];
        if !env.logOpens(logFile) {
          failed := true;
          return;
        }
        events := events + [RotateByDay];
      }
    }

    /** The three clamps of `apply`, each written back to its field, with
        the scheduler call between the second and the third. */
    method ApplyClamps(numCPU: Int64) returns (events: seq<Event>)
      modifies this
      ensures Value() == Clamped(old(Value()), numCPU)
      ensures events == ClampEvents(old(Value()), numCPU)
    {
      events := [];
      if cpu > numCPU {
        events := events + [Warn(CpuAdjusted(cpu, numCPU))];
        cpu := numCPU;
      }
      if maxConn > MaxConnLimit {
        events := events + [Warn(MaxConnAdjusted(maxConn))];
        maxConn := MaxConnLimit;
      }
      events := events + [SetMaxProcs(cpu)];
      if poolSize <= 0 || poolSize > PoolSizeMax {
        events := events + [Warn(PoolSizeAdjusted(poolSize))];
        poolSize := PoolSizeFallback;
      }
    }

    /** The profiling steps of `apply` and the diagnostics server; the CPU
        profile is stopped by the deferred call as `apply` returns. */
    method StartProfiles(env: Env) returns (failed: bool, events: seq<Event>)
      ensures failed == CpuProfileFails(Value(), env)
      ensures !failed ==> events == ProfileEvents(Value(), env)
    {
      events := [];
      failed := false;
      var profiling := false;
      if cpuFile != "" {
        if !env.creatable(cpuFile) {
          failed := true;
          return;
        }
        events := events + [Warn(CpuProfileStarting(cpuFile)), StartCpuProfile(cpuFile)];
        profiling := true;
      }
      if memFile != "" {
        if env.creatable(memFile) {
          events := events + [Warn(HeapProfileStarting(memFile)), WriteHeapProfile(memFile)];
        }
      }
      events := events + [ServeDiagnostics(DiagnosticsAddr)];
      if profiling {
        events := events + [StopCpuProfile];
      }
    }

    /** `apply`: the checks in their fixed order, each clamp written back to
        its field, returning at the first fatal condition. */
    method Apply(env: Env) returns (r: Outcome)
      modifies this
      ensures r == Applied(old(Value()), env)
      ensures Value() == r.config
    {
      var failed, events := ConfigureLog(env);
      if failed {
        return Fatal(LogOutputFailed(logFile), Value(), events);
      }
      if name == "" {
        return Fatal(EmptyName, Value(), events);
      }
      if port == 0 {
        return Fatal(ZeroPort, Value(), events);
      }
      var clampEvents := ApplyClamps(env.numCPU);
      events := events + clampEvents;
      var profileEvents;
      failed, profileEvents := StartProfiles(env);
      if failed {
        return Fatal(CpuProfileCreateFailed(cpuFile), Value(), events);
      }
      r := Ok(Value(), events + profileEvents);
    }
  }

  /** `NewProxyConfig`: a fresh record filled from the source, then applied. */
  method NewProxyConfig(src: Source, env: Env) returns (pc: ProxyConfig, r: Outcome)
    ensures fresh(pc)
    ensures r == Startup(src, env)
    ensures pc.Value() == r.config
  {
    pc := new ProxyConfig(Load(src));
    r := pc.Apply(env);
  }
}
