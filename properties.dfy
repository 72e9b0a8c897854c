/** What the loader and `apply` promise, stated over `Load` and `Applied`. */
module ArcherProperties {
  import opened GoInt
  import opened Strings
  import opened Archer

  // ---------------------------------------------------------------------
  // Loading

  /** An empty file gives the documented defaults. */
  lemma LoadEmptySource()
    ensures Load(EmptySource) == Defaults
  {
  }

  /** Each missing `proxy` key reads as its documented default. */
  lemma LoadAbsentProxyKeys(src: Source)
    ensures "proxy::name" !in src.strs ==> Load(src).name == ""
    ensures "proxy::port" !in src.ints ==> Load(src).port == 0
    ensures "proxy::cpu" !in src.ints ==> Load(src).cpu == 0
    ensures "proxy::slaveok" !in src.bools ==> !Load(src).slaveOk
    ensures "proxy::maxconn" !in src.ints ==> Load(src).maxConn == 4000
    ensures "proxy::concurrency" !in src.ints ==> Load(src).conCurrency == 5
    ensures "proxy::pipelength" !in src.ints ==> Load(src).pipeLength == 4096
  {
  }

  /** Each missing `redis` key reads as its documented default. */
  lemma LoadAbsentRedisKeys(src: Source)
    ensures "redis::poolsize" !in src.ints ==> Load(src).poolSize == 10
    ensures "redis::nodes" !in src.strs ==> Load(src).nodes == []
    ensures "redis::reloadslot" !in src.ints ==> Load(src).reloadSlot == 600 * Second
  {
    FieldsOfSpaces("");
  }

  /** Each missing `common`, `log` or `debug` key reads as its documented
      default. */
  lemma LoadAbsentCommonLogDebugKeys(src: Source)
    ensures "common::idletimeout" !in src.ints ==> Load(src).idleTimeout == 30 * Second
    ensures "common::writetimeout" !in src.ints ==> Load(src).writeTimeout == 5 * Second
    ensures "common::readtimeout" !in src.ints ==> Load(src).readTimeout == 5 * Second
    ensures "common::dialtimeout" !in src.ints ==> Load(src).dialTimeout == 3 * Second
    ensures "log::logfile" !in src.strs ==> Load(src).logFile == ""
    ensures "log::loglevel" !in src.strs ==> Load(src).logLevel == "info"
    ensures "log::loglevel" in src.strs && src.strs["log::loglevel"] == "" ==> Load(src).logLevel == "info"
    ensures "debug::cpufile" !in src.strs ==> Load(src).cpuFile == ""
    ensures "debug::memfile" !in src.strs ==> Load(src).memFile == ""
  {
  }

  /** Each `proxy` key present in the file is taken as it is. */
  lemma LoadPresentProxyKeys(src: Source)
    ensures "proxy::name" in src.strs ==> Load(src).name == src.strs["proxy::name"]
    ensures "proxy::port" in src.ints ==> Load(src).port == src.ints["proxy::port"]
    ensures "proxy::cpu" in src.ints ==> Load(src).cpu == src.ints["proxy::cpu"]
    ensures "proxy::slaveok" in src.bools ==> Load(src).slaveOk == src.bools["proxy::slaveok"]
    ensures "proxy::maxconn" in src.ints ==> Load(src).maxConn == src.ints["proxy::maxconn"]
    ensures "proxy::concurrency" in src.ints ==> Load(src).conCurrency == src.ints["proxy::concurrency"]
    ensures "proxy::pipelength" in src.ints ==> Load(src).pipeLength == src.ints["proxy::pipelength"]
  {
  }

  /** Each other non-duration key present in the file is taken as it is;
      an empty log level reads as absent (see `LoadAbsentCommonLogDebugKeys`). */
  lemma LoadPresentOtherKeys(src: Source)
    ensures "redis::poolsize" in src.ints ==> Load(src).poolSize == src.ints["redis::poolsize"]
    ensures "log::logfile" in src.strs ==> Load(src).logFile == src.strs["log::logfile"]
    ensures "log::loglevel" in src.strs && src.strs["log::loglevel"] != "" ==>
      Load(src).logLevel == src.strs["log::loglevel"]
    ensures "debug::cpufile" in src.strs ==> Load(src).cpuFile == src.strs["debug::cpufile"]
    ensures "debug::memfile" in src.strs ==> Load(src).memFile == src.strs["debug::memfile"]
  {
  }

  /** A seconds value the file gives, within the range where Go's product
      does not wrap. */
  predicate ExactSeconds(src: Source, key: string) {
    key in src.ints && -MaxSeconds <= src.ints[key] <= MaxSeconds
  }

  /** Every duration is its seconds value times one second (beyond about
      292 years the Go product wraps around, see `Seconds`). */
  lemma LoadDurations(src: Source)
    ensures ExactSeconds(src, "redis::reloadslot") ==>
      Load(src).reloadSlot == src.ints["redis::reloadslot"] * Second
    ensures ExactSeconds(src, "common::idletimeout") ==>
      Load(src).idleTimeout == src.ints["common::idletimeout"] * Second
    ensures ExactSeconds(src, "common::writetimeout") ==>
      Load(src).writeTimeout == src.ints["common::writetimeout"] * Second
    ensures ExactSeconds(src, "common::readtimeout") ==>
      Load(src).readTimeout == src.ints["common::readtimeout"] * Second
    ensures ExactSeconds(src, "common::dialtimeout") ==>
      Load(src).dialTimeout == src.ints["common::dialtimeout"] * Second
  {
  }

  /** The node list is the white-space split of `redis::nodes`: non-empty,
      space-free tokens that hold every other character of the value in
      its order, and that a re-join and re-split gives back unchanged. */
  lemma LoadNodes(src: Source)
    requires "redis::nodes" in src.strs
    ensures Load(src).nodes == Fields(src.strs["redis::nodes"])
    ensures AllFields(Load(src).nodes)
    ensures Concat(Load(src).nodes) == RemoveSpaces(src.strs["redis::nodes"])
    ensures Fields(Join(Load(src).nodes)) == Load(src).nodes
  {
    FieldsOfJoin(Load(src).nodes);
  }

  // ---------------------------------------------------------------------
  // The fatal checks

  /** The record gets past the log sink, `name` and `port` checks. */
  predicate PassesChecks(c: Config, env: Env) {
    !LogFails(c, env) && c.name != "" && c.port != 0
  }

  predicate NoClampStep(events: seq<Event>) {
    forall i :: 0 <= i < |events| ==> !events[i].Warn? && !events[i].SetMaxProcs?
  }

  /** The log level is set first, whatever happens next. */
  lemma ApplySetsLevelFirst(c: Config, env: Env)
    ensures |Applied(c, env).events| > 0 && Applied(c, env).events[0] == SetLevel(c.logLevel)
  {
  }

  /** A log file that does not open stops the run right after the attempt
      to redirect to it, before anything else is checked, with the record
      untouched. */
  lemma ApplyLogFailure(c: Config, env: Env)
    requires LogFails(c, env)
    ensures Applied(c, env) ==
      Fatal(LogOutputFailed(c.logFile), c, [SetLevel(c.logLevel), SetOutput(c.logFile)])
  {
  }

  /** An empty `name` is fatal, whatever the port; no clamp has run and the
      record is untouched. */
  lemma ApplyEmptyName(c: Config, env: Env)
    requires !LogFails(c, env) && c.name == ""
    ensures Applied(c, env).Fatal? && Applied(c, env).reason == EmptyName
    ensures Applied(c, env).config == c && NoClampStep(Applied(c, env).events)
  {
  }

  /** With a name, a `port` of zero is fatal before any clamp. */
  lemma ApplyZeroPort(c: Config, env: Env)
    requires !LogFails(c, env) && c.name != "" && c.port == 0
    ensures Applied(c, env).Fatal? && Applied(c, env).reason == ZeroPort
    ensures Applied(c, env).config == c && NoClampStep(Applied(c, env).events)
  {
  }

  /** The run is fatal exactly when one of the four fatal conditions holds;
      a heap-profile file never makes it fatal. */
  lemma ApplyFatalIff(c: Config, env: Env)
    ensures Applied(c, env).Fatal? <==>
      LogFails(c, env) || c.name == "" || c.port == 0 || CpuProfileFails(c, env)
  {
  }

  /** The reason reported is the first failing check in `apply`'s order. */
  lemma ApplyFatalOrder(c: Config, env: Env)
    requires Applied(c, env).Fatal?
    ensures Applied(c, env).reason ==
      if LogFails(c, env) then LogOutputFailed(c.logFile)
      else if c.name == "" then EmptyName
      else if c.port == 0 then ZeroPort
      else CpuProfileCreateFailed(c.cpuFile)
  {
  }

  // ---------------------------------------------------------------------
  // The clamps

  predicate IsClampWarning(w: Warning) {
    w.CpuAdjusted? || w.MaxConnAdjusted? || w.PoolSizeAdjusted?
  }

  /** Past the fatal checks, a clamp warning in the run's calls can only
      come from the clamp step. */
  lemma ClampWarningsFromClamps(c: Config, env: Env, w: Warning)
    requires PassesChecks(c, env) && IsClampWarning(w)
    ensures Warn(w) in Applied(c, env).events <==> Warn(w) in ClampEvents(c, env.numCPU)
  {
    assert Warn(w) !in LogEvents(c);
    assert Warn(w) !in ProfileEvents(c, env);
  }

  /** Past the fatal checks, `cpu` above the CPU count becomes exactly that
      count and any other value (zero and negatives too) is kept; the
      scheduler is given the result. */
  lemma ApplyCpu(c: Config, env: Env)
    requires PassesChecks(c, env)
    ensures c.cpu > env.numCPU ==> Applied(c, env).config.cpu == env.numCPU
    ensures c.cpu <= env.numCPU ==> Applied(c, env).config.cpu == c.cpu
    ensures SetMaxProcs(Applied(c, env).config.cpu) in Applied(c, env).events
    ensures Warn(CpuAdjusted(c.cpu, env.numCPU)) in Applied(c, env).events <==> c.cpu > env.numCPU
  {
    ClampWarningsFromClamps(c, env, CpuAdjusted(c.cpu, env.numCPU));
  }

  /** `maxConn` above 10000 becomes exactly 10000; otherwise it is kept. */
  lemma ApplyMaxConn(c: Config, env: Env)
    requires PassesChecks(c, env)
    ensures c.maxConn > MaxConnLimit ==> Applied(c, env).config.maxConn == MaxConnLimit
    ensures c.maxConn <= MaxConnLimit ==> Applied(c, env).config.maxConn == c.maxConn
    ensures Applied(c, env).config.maxConn <= MaxConnLimit
    ensures Warn(MaxConnAdjusted(c.maxConn)) in Applied(c, env).events <==> c.maxConn > MaxConnLimit
  {
    ClampWarningsFromClamps(c, env, MaxConnAdjusted(c.maxConn));
  }

  /** A `poolSize` outside [1, 30] becomes 10; one inside is kept. */
  lemma ApplyPoolSize(c: Config, env: Env)
    requires PassesChecks(c, env)
    ensures !PoolSizeInRange(c.poolSize) ==> Applied(c, env).config.poolSize == PoolSizeFallback
    ensures PoolSizeInRange(c.poolSize) ==> Applied(c, env).config.poolSize == c.poolSize
    ensures PoolSizeInRange(Applied(c, env).config.poolSize)
    ensures Warn(PoolSizeAdjusted(c.poolSize)) in Applied(c, env).events <==> !PoolSizeInRange(c.poolSize)
  {
    ClampWarningsFromClamps(c, env, PoolSizeAdjusted(c.poolSize));
  }

  /** Every field other than `cpu`, `maxConn` and `poolSize` leaves `apply`
      as it came in, whether the run succeeds or fails. */
  lemma ApplyKeepsOtherFields(c: Config, env: Env)
    ensures var r := Applied(c, env).config;
      r.(cpu := c.cpu, maxConn := c.maxConn, poolSize := c.poolSize) == c
  {
  }

  /** The clamps are idempotent. */
  lemma ClampedIdempotent(c: Config, numCPU: Int64)
    ensures Clamped(Clamped(c, numCPU), numCPU) == Clamped(c, numCPU)
  {
  }

  /** Applying a successful result again changes nothing and warns about
      nothing it clamped. */
  lemma ApplyIdempotent(c: Config, env: Env)
    requires Applied(c, env).Ok?
    ensures var again := Applied(Applied(c, env).config, env);
      again.Ok? && again.config == Applied(c, env).config &&
      ClampEvents(Applied(c, env).config, env.numCPU) == [SetMaxProcs(Applied(c, env).config.cpu)]
  {
  }

  // ---------------------------------------------------------------------
  // Profiling and diagnostics

  /** A CPU-profile file that cannot be created is fatal, after the clamps
      and before any profile is started. */
  lemma ApplyCpuProfileFails(c: Config, env: Env)
    requires PassesChecks(c, env) && CpuProfileFails(c, env)
    ensures Applied(c, env).Fatal? && Applied(c, env).reason == CpuProfileCreateFailed(c.cpuFile)
    ensures Applied(c, env).config == Clamped(c, env.numCPU)
    ensures StartCpuProfile(c.cpuFile) !in Applied(c, env).events
  {
  }

  /** A created CPU-profile file starts the profiler, and the deferred stop
      closes the run. */
  lemma ApplyCpuProfileStarts(c: Config, env: Env)
    requires PassesChecks(c, env) && c.cpuFile != "" && env.creatable(c.cpuFile)
    ensures Applied(c, env).Ok?
    ensures StartCpuProfile(c.cpuFile) in Applied(c, env).events
    ensures Applied(c, env).events[|Applied(c, env).events| - 1] == StopCpuProfile
  {
  }

  predicate NoHeapProfile(events: seq<Event>) {
    forall i :: 0 <= i < |events| ==> !events[i].WriteHeapProfile?
  }

  /** A heap-profile file that cannot be created is skipped: the run still
      succeeds and no heap snapshot is written. */
  lemma ApplyHeapProfileSkipped(c: Config, env: Env)
    requires PassesChecks(c, env) && !CpuProfileFails(c, env)
    requires c.memFile != "" && !env.creatable(c.memFile)
    ensures Applied(c, env).Ok? && NoHeapProfile(Applied(c, env).events)
  {
  }

  /** A created heap-profile file receives one heap snapshot. */
  lemma ApplyHeapProfileWritten(c: Config, env: Env)
    requires PassesChecks(c, env) && !CpuProfileFails(c, env)
    requires c.memFile != "" && env.creatable(c.memFile)
    ensures Applied(c, env).Ok? && WriteHeapProfile(c.memFile) in Applied(c, env).events
  {
  }

  /** A successful run always starts the diagnostics server on :6061. */
  lemma ApplyServesDiagnostics(c: Config, env: Env)
    requires Applied(c, env).Ok?
    ensures ServeDiagnostics(DiagnosticsAddr) in Applied(c, env).events
  {
  }

  // ---------------------------------------------------------------------
  // End-to-end

  /** A file with name p1, port 6380 and a pool size of 50 starts, with the
      pool size reset to 10 and a warning about it. */
  lemma StartupPoolSizeReset(env: Env)
    ensures var src := Source(map["proxy::port" := 6380, "redis::poolsize" := 50],
                              map["proxy::name" := "p1"], map[]);
      var r := Startup(src, env);
      r.Ok? && r.config.port == 6380 && r.config.poolSize == 10 &&
      Warn(PoolSizeAdjusted(50)) in r.events
  {
    var src := Source(map["proxy::port" := 6380, "redis::poolsize" := 50],
                      map["proxy::name" := "p1"], map[]);
    ApplyPoolSize(Load(src), env);
  }

  /** A file without `proxy::name` is fatal before any clamp; unless its
      log file fails to open first, the reason is the empty name. */
  lemma StartupWithoutName(src: Source, env: Env)
    requires "proxy::name" !in src.strs
    ensures Startup(src, env).Fatal? && NoClampStep(Startup(src, env).events)
    ensures !LogFails(Load(src), env) ==> Startup(src, env).reason == EmptyName
  {
  }

  /** An uncreatable `debug::cpufile` is fatal. */
  lemma StartupCpuFileUnwritable(src: Source, env: Env)
    requires PassesChecks(Load(src), env)
    requires "debug::cpufile" in src.strs && src.strs["debug::cpufile"] != ""
    requires !env.creatable(src.strs["debug::cpufile"])
    ensures Startup(src, env).Fatal?
    ensures Startup(src, env).reason == CpuProfileCreateFailed(src.strs["debug::cpufile"])
  {
  }

  /** An uncreatable `debug::memfile` is not: the run goes on and no heap
      snapshot is written. */
  lemma StartupMemFileUnwritable(src: Source, env: Env)
    requires PassesChecks(Load(src), env) && !CpuProfileFails(Load(src), env)
    requires "debug::memfile" in src.strs && src.strs["debug::memfile"] != ""
    requires !env.creatable(src.strs["debug::memfile"])
    ensures Startup(src, env).Ok? && NoHeapProfile(Startup(src, env).events)
  {
    ApplyHeapProfileSkipped(Load(src), env);
  }
}
