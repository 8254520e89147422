/** Host configuration of `pkg/config/config.go`: which plugins are enabled,
    how a manifest's resource limits are filled in and capped, and the
    default configuration values. */
module Config {
  import opened PluginManifest

  datatype SecurityConfig = SecurityConfig(
    requireSignedPlugins: bool, sandboxMode: bool, trustedPublicKeys: seq<string>)

  datatype LoggingConfig = LoggingConfig(
    level: string, logPluginOutput: bool, logEvents: bool, logPerformance: bool)

  datatype PerformanceConfig = PerformanceConfig(
    poolSize: int, enableCaching: bool, cacheDir: string,
    parallelEventDispatch: bool, eventQueueSize: int, workerCount: int)

  datatype Config = Config(
    pluginDir: string,
    dataDir: string,
    enabledPlugins: seq<string>,
    disabledPlugins: seq<string>,
    defaultLimits: ResourceLimits,
    globalLimits: ResourceLimits,
    security: SecurityConfig,
    logging: LoggingConfig,
    performance: PerformanceConfig)

  /** Durations are Go `time.Duration`s: whole nanoseconds. */
  const Millisecond: nat := 1_000_000

  datatype RuntimeConfig = RuntimeConfig(
    maxMemoryBytes: int, eventTimeout: nat, enableFuel: bool, maxFuel: nat)

  /** `IsPluginEnabled`: a listed-as-disabled plugin is never enabled; otherwise
      an empty enabled list admits every plugin and a non-empty one only its members. */
  function IsPluginEnabled(c: Config, id: string): (r: bool)
    ensures id in c.disabledPlugins ==> !r
    ensures id !in c.disabledPlugins && |c.enabledPlugins| == 0 ==> r
    ensures |c.enabledPlugins| > 0 ==> (r <==> id in c.enabledPlugins && id !in c.disabledPlugins)
  {
    if id in c.disabledPlugins then false
    else if |c.enabledPlugins| == 0 then true
    else id in c.enabledPlugins
  }

  function Min(a: int, b: int): int {
    if a <= b then a else b
  }

  /** The value a limit field takes before capping: the default replaces zero. */
  function Filled(requested: int, default: int): int {
    if requested == 0 then default else requested
  }

  /** `GetEffectiveLimits`: fill each zero field from the defaults, then cap
      each field at the global limit. */
  function GetEffectiveLimits(c: Config, limits: ResourceLimits): (r: ResourceLimits)
    // never above the global limits
    ensures r.maxMemoryMB <= c.globalLimits.maxMemoryMB
    ensures r.maxExecutionMs <= c.globalLimits.maxExecutionMs
    ensures r.maxFuel <= c.globalLimits.maxFuel
    // a set value within the global limit is kept as is
    ensures limits.maxMemoryMB != 0 && limits.maxMemoryMB <= c.globalLimits.maxMemoryMB ==> r.maxMemoryMB == limits.maxMemoryMB
    ensures limits.maxExecutionMs != 0 && limits.maxExecutionMs <= c.globalLimits.maxExecutionMs ==> r.maxExecutionMs == limits.maxExecutionMs
    ensures limits.maxFuel != 0 && limits.maxFuel <= c.globalLimits.maxFuel ==> r.maxFuel == limits.maxFuel
    // an unset value takes the default, capped
    ensures limits.maxMemoryMB == 0 ==> r.maxMemoryMB == Min(c.defaultLimits.maxMemoryMB, c.globalLimits.maxMemoryMB)
    ensures limits.maxExecutionMs == 0 ==> r.maxExecutionMs == Min(c.defaultLimits.maxExecutionMs, c.globalLimits.maxExecutionMs)
    ensures limits.maxFuel == 0 ==> r.maxFuel == Min(c.defaultLimits.maxFuel, c.globalLimits.maxFuel)
    // a set value above the global limit becomes the global limit
    ensures limits.maxMemoryMB != 0 && limits.maxMemoryMB > c.globalLimits.maxMemoryMB ==> r.maxMemoryMB == c.globalLimits.maxMemoryMB
    ensures limits.maxExecutionMs != 0 && limits.maxExecutionMs > c.globalLimits.maxExecutionMs ==> r.maxExecutionMs == c.globalLimits.maxExecutionMs
    ensures limits.maxFuel > c.globalLimits.maxFuel ==> r.maxFuel == c.globalLimits.maxFuel
  {
    var filled := ResourceLimits(
      Filled(limits.maxMemoryMB, c.defaultLimits.maxMemoryMB),
      Filled(limits.maxExecutionMs, c.defaultLimits.maxExecutionMs),
      Filled(limits.maxFuel, c.defaultLimits.maxFuel) as nat);
    ResourceLimits(
      Min(filled.maxMemoryMB, c.globalLimits.maxMemoryMB),
      Min(filled.maxExecutionMs, c.globalLimits.maxExecutionMs),
      Min(filled.maxFuel, c.globalLimits.maxFuel) as nat)
  }

  /** Defaults and global limits with no zero field. */
  predicate PositiveLimits(l: ResourceLimits) {
    l.maxMemoryMB > 0 && l.maxExecutionMs > 0 && l.maxFuel > 0
  }

  /** With positive defaults and global limits, applying the policy to limits
      it already produced changes nothing. */
  lemma EffectiveLimitsIdempotent(c: Config, limits: ResourceLimits)
    requires PositiveLimits(c.defaultLimits) && PositiveLimits(c.globalLimits)
    ensures GetEffectiveLimits(c, GetEffectiveLimits(c, limits)) == GetEffectiveLimits(c, limits)
  {
  }

  /** `DefaultConfig`. Its default limits are the manifest defaults, which lie
      within its global limits, so a manifest that sets no limit runs with
      exactly the manifest defaults. */
  function DefaultConfig(): (c: Config)
    ensures c.defaultLimits == DefaultResourceLimits
    ensures c.globalLimits == ResourceLimits(256, 1000, 10_000_000)
    ensures GetEffectiveLimits(c, ResourceLimits(0, 0, 0)) == DefaultResourceLimits
    ensures forall id :: IsPluginEnabled(c, id)
  {
    Config(
      "plugins",
      "plugin_data",
      [],
      [],
      DefaultResourceLimits,
      ResourceLimits(256, 1000, 10_000_000),
      SecurityConfig(false, true, []),
      LoggingConfig("info", true, false, false),
      PerformanceConfig(4, true, "plugin_cache", true, 1000, 4))
  }

  /** `DefaultRuntimeConfig`: 64 MiB of memory, a 100 ms event timeout and a
      fuel budget of one million, the same budget the manifest defaults give
      a single plugin; fuel metering is off. */
  function DefaultRuntimeConfig(): (r: RuntimeConfig)
    ensures r.maxMemoryBytes == DefaultResourceLimits.maxMemoryMB * 1024 * 1024
    ensures r.eventTimeout == DefaultResourceLimits.maxExecutionMs * Millisecond
    ensures r.maxFuel == DefaultResourceLimits.maxFuel
    ensures !r.enableFuel
  {
    RuntimeConfig(67108864, 100 * Millisecond, false, 1_000_000)
  }
}
