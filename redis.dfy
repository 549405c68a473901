/**
 * Redis configuration: whether a configuration names a server at all, the
 * redirect limit, and the decisions GetRedisClient takes before it creates
 * and pings a client: nil and unconfigured checks, the TLS choice, the
 * sentinel > cluster > simple precedence and the sentinel timeout defaults
 * it writes back into the caller's configuration.
 */
module Redis {
  import opened Wrappers

  /** Go's int and int64 (the platform int is taken to be 64 bits wide). */
  newtype int64 = x: int | -0x8000_0000_0000_0000 <= x < 0x8000_0000_0000_0000

  const TwoTo64: int := 0x1_0000_0000_0000_0000

  /** time.Millisecond, in nanoseconds. */
  const Millisecond: int := 1_000_000

  /** Two's-complement wrap-around of an integer into int64, as Go's int64 arithmetic does. */
  function Wrap64(x: int): (r: int64)
    ensures -0x8000_0000_0000_0000 <= x < 0x8000_0000_0000_0000 ==> r as int == x
  {
    (((x + 0x8000_0000_0000_0000) % TwoTo64) - 0x8000_0000_0000_0000) as int64
  }

  /** time.Duration(ms) * time.Millisecond: an int64 product; exact for any realistic timeout (up to about 292 years). */
  function Millis(ms: int64): (d: int64)
    ensures -9_223_372_036_854 <= ms as int <= 9_223_372_036_854 ==> d as int == ms as int * Millisecond
  {
    Wrap64(ms as int * Millisecond)
  }

  /** tls.VersionTLS12. */
  const VersionTLS12: int := 0x0303

  /** A crypto/tls configuration: one built by xtls (opaque), or one that only sets a minimum version. */
  datatype TlsConfig = XtlsClientConfig(handle: nat) | MinVersionConfig(minVersion: int)

  /** An xtls.Config: whether it is enabled, and what its ClientTLSConfig() yields (its internals are not modelled). */
  datatype XtlsConfig = XtlsConfig(enabled: bool, clientTLSConfig: Result<TlsConfig, Error>)

  /** The value of a RedisConfig at one moment. PoolTimeout is a duration in nanoseconds; the three timeouts are milliseconds. */
  datatype RedisSettings = RedisSettings(
    address: string,
    username: string,
    password: string,
    db: int64,
    tls: Option<XtlsConfig>,
    masterName: string,
    sentinelUsername: string,
    sentinelPassword: string,
    sentinelAddresses: seq<string>,
    clusterAddresses: seq<string>,
    dialTimeout: int64,
    readTimeout: int64,
    writeTimeout: int64,
    maxRedirects: Option<int64>,
    poolTimeout: int64,
    poolSize: int64,
    useTLS: bool)
  {
    /** IsConfigured: some address is given, for the simple, the sentinel or the cluster mode. */
    function IsConfigured(): (r: bool)
      ensures r <==> address != "" || |sentinelAddresses| > 0 || |clusterAddresses| > 0
    {
      if address != "" then true
      else if |sentinelAddresses| > 0 then true
      else if |clusterAddresses| > 0 then true
      else false
    }

    /** GetMaxRedirects: the configured limit, or 2 when none is set. */
    function GetMaxRedirects(): (r: int64)
      ensures maxRedirects.Some? ==> r == maxRedirects.value
      ensures maxRedirects.None? ==> r == 2
    {
      if maxRedirects.Some? then maxRedirects.value else 2
    }
  }

  /** The caller's configuration object, which GetRedisClient may update in place. */
  class RedisConfig {
    var address: string
    var username: string
    var password: string
    var db: int64
    var tls: Option<XtlsConfig>
    var masterName: string
    var sentinelUsername: string
    var sentinelPassword: string
    var sentinelAddresses: seq<string>
    var clusterAddresses: seq<string>
    var dialTimeout: int64
    var readTimeout: int64
    var writeTimeout: int64
    var maxRedirects: Option<int64>
    var poolTimeout: int64
    var poolSize: int64
    var useTLS: bool

    constructor (s: RedisSettings)
      ensures Settings() == s
    {
      address, username, password, db, tls := s.address, s.username, s.password, s.db, s.tls;
      masterName, sentinelUsername, sentinelPassword := s.masterName, s.sentinelUsername, s.sentinelPassword;
      sentinelAddresses, clusterAddresses := s.sentinelAddresses, s.clusterAddresses;
      dialTimeout, readTimeout, writeTimeout := s.dialTimeout, s.readTimeout, s.writeTimeout;
      maxRedirects, poolTimeout, poolSize, useTLS := s.maxRedirects, s.poolTimeout, s.poolSize, s.useTLS;
    }

    /** The current value of every field. */
    function Settings(): RedisSettings
      reads this
    {
      RedisSettings(address, username, password, db, tls, masterName, sentinelUsername, sentinelPassword,
        sentinelAddresses, clusterAddresses, dialTimeout, readTimeout, writeTimeout, maxRedirects,
        poolTimeout, poolSize, useTLS)
    }
  }

  /** The redis.UniversalOptions fields GetRedisClient sets; a field it does not set keeps Go's zero value. */
  datatype UniversalOptions = UniversalOptions(
    addrs: seq<string>,
    sentinelUsername: string,
    sentinelPassword: string,
    masterName: string,
    username: string,
    password: string,
    db: int64,
    tlsConfig: Option<TlsConfig>,
    dialTimeout: int64,
    readTimeout: int64,
    writeTimeout: int64,
    maxRedirects: int64,
    poolTimeout: int64,
    poolSize: int64)

  /** The branch GetRedisClient takes. */
  datatype Mode = Sentinel | Cluster | Simple

  /**
   * What GetRedisClient decides before any I/O: (nil, nil) for a nil
   * configuration, ErrNotConfigured, the TLS construction error, or the
   * options it then creates and pings a client with.
   */
  datatype Decision = NilConfig | NotConfigured | TlsFailed(err: Error) | Connect(mode: Mode, options: UniversalOptions)

  /** The TLS choice: an enabled TLS block first (its error aborts), else UseTLS with TLS 1.2 as minimum, else none. */
  function SelectTls(s: RedisSettings): Result<Option<TlsConfig>, Error> {
    if s.tls.Some? && s.tls.value.enabled then
      match s.tls.value.clientTLSConfig
      case Success(c) => Success(Some(c))
      case Failure(e) => Failure(e)
    else if s.useTLS then Success(Some(MinVersionConfig(VersionTLS12)))
    else Success(None)
  }

  /** A zero timeout replaced by its default. */
  function OrDefault(v: int64, default: int64): int64 {
    if v == 0 then default else v
  }

  /** The sentinel defaults: dial 2000 ms, read 200 ms, write 200 ms, each only where the field is zero. */
  function WithSentinelDefaults(s: RedisSettings): RedisSettings {
    s.(dialTimeout := OrDefault(s.dialTimeout, 2000),
       readTimeout := OrDefault(s.readTimeout, 200),
       writeTimeout := OrDefault(s.writeTimeout, 200))
  }

  /** The configuration as GetRedisClient leaves it: the sentinel defaults are written only once the sentinel branch is reached. */
  function Normalize(s: RedisSettings): RedisSettings {
    if s.IsConfigured() && SelectTls(s).Success? && |s.sentinelAddresses| > 0 then WithSentinelDefaults(s) else s
  }

  /** The sentinel-mode options literal, from the configuration after its defaults were written. */
  function SentinelOptions(n: RedisSettings, tls: Option<TlsConfig>): UniversalOptions {
    UniversalOptions(n.sentinelAddresses, n.sentinelUsername, n.sentinelPassword, n.masterName,
      n.username, n.password, n.db, tls, Millis(n.dialTimeout), Millis(n.readTimeout), Millis(n.writeTimeout),
      0, n.poolTimeout, n.poolSize)
  }

  /** The cluster-mode options literal. */
  function ClusterOptions(s: RedisSettings, tls: Option<TlsConfig>): UniversalOptions {
    UniversalOptions(s.clusterAddresses, "", "", "", s.username, s.password, s.db, tls,
      0, 0, 0, s.GetMaxRedirects(), s.poolTimeout, s.poolSize)
  }

  /** The simple-mode options literal. */
  function SimpleOptions(s: RedisSettings, tls: Option<TlsConfig>): UniversalOptions {
    UniversalOptions([s.address], "", "", "", s.username, s.password, s.db, tls,
      0, 0, 0, 0, s.poolTimeout, s.poolSize)
  }

  /** What GetRedisClient decides for a non-nil configuration with value s. */
  function Plan(s: RedisSettings): Decision {
    if !s.IsConfigured() then NotConfigured
    else
      match SelectTls(s)
      case Failure(e) => TlsFailed(e)
      case Success(tls) =>
        if |s.sentinelAddresses| > 0 then Connect(Sentinel, SentinelOptions(WithSentinelDefaults(s), tls))
        else if |s.clusterAddresses| > 0 then Connect(Cluster, ClusterOptions(s, tls))
        else Connect(Simple, SimpleOptions(s, tls))
  }

  /** GetRedisClient up to the point where the client is created and pinged. */
  method GetRedisClient(conf: RedisConfig?) returns (d: Decision)
    modifies conf
    ensures conf == null ==> d == NilConfig
    ensures conf != null ==> d == Plan(old(conf.Settings())) && conf.Settings() == Normalize(old(conf.Settings()))
  {
    if conf == null {
      return NilConfig;
    }
    ghost var s0 := conf.Settings();
    if !conf.Settings().IsConfigured() {
      return NotConfigured;
    }

    var tlsConfig: Option<TlsConfig> := None;
    if conf.tls.Some? && conf.tls.value.enabled {
      var built := conf.tls.value.clientTLSConfig;
      if built.Failure? {
        return TlsFailed(built.error);
      }
      tlsConfig := Some(built.value);
    } else if conf.useTLS {
      tlsConfig := Some(MinVersionConfig(VersionTLS12));
    }
    assert SelectTls(s0) == Success(tlsConfig);

    if |conf.sentinelAddresses| > 0 {
      if conf.dialTimeout == 0 {
        conf.dialTimeout := 2000;
      }
      if conf.readTimeout == 0 {
        conf.readTimeout := 200;
      }
      if conf.writeTimeout == 0 {
        conf.writeTimeout := 200;
      }
      assert conf.Settings() == WithSentinelDefaults(s0) == Normalize(s0);
      d := Connect(Sentinel, SentinelOptions(conf.Settings(), tlsConfig));
    } else if |conf.clusterAddresses| > 0 {
      assert conf.Settings() == s0 == Normalize(s0);
      d := Connect(Cluster, ClusterOptions(conf.Settings(), tlsConfig));
    } else {
      assert conf.Settings() == s0 == Normalize(s0);
      d := Connect(Simple, SimpleOptions(conf.Settings(), tlsConfig));
    }
  }

  // ------------------------------------------------------------ properties

  /** ErrNotConfigured is returned exactly for a configuration without any address, before TLS or defaults are touched. */
  lemma NotConfiguredIff(s: RedisSettings)
    ensures Plan(s).NotConfigured? <==> !s.IsConfigured()
    ensures !s.IsConfigured() ==> Normalize(s) == s
  {
  }

  /**
   * An enabled TLS block decides, and its construction error aborts with that
   * error and writes no defaults; otherwise UseTLS gives a TLS 1.2 minimum;
   * otherwise there is no TLS configuration.
   */
  lemma TlsChoice(s: RedisSettings)
    ensures Plan(s).TlsFailed? <==>
      s.IsConfigured() && s.tls.Some? && s.tls.value.enabled && s.tls.value.clientTLSConfig.Failure?
    ensures Plan(s).TlsFailed? ==> Plan(s).err == s.tls.value.clientTLSConfig.error && Normalize(s) == s
    ensures Plan(s).Connect? && s.tls.Some? && s.tls.value.enabled ==>
      Plan(s).options.tlsConfig == Some(s.tls.value.clientTLSConfig.value)
    ensures Plan(s).Connect? && !(s.tls.Some? && s.tls.value.enabled) && s.useTLS ==>
      Plan(s).options.tlsConfig == Some(MinVersionConfig(0x0303))
    ensures Plan(s).Connect? && !(s.tls.Some? && s.tls.value.enabled) && !s.useTLS ==>
      Plan(s).options.tlsConfig == None
  {
  }

  /**
   * Sentinel addresses win over cluster addresses, which win over the single
   * address; each mode connects to its own address list, and the simple mode
   * is reached only with a non-empty address.
   */
  lemma ModePrecedence(s: RedisSettings)
    ensures Plan(s).Connect? <==> s.IsConfigured() && SelectTls(s).Success?
    ensures Plan(s).Connect? ==>
      && (Plan(s).mode == Sentinel <==> |s.sentinelAddresses| > 0)
      && (Plan(s).mode == Cluster <==> |s.sentinelAddresses| == 0 && |s.clusterAddresses| > 0)
      && (Plan(s).mode == Simple <==> |s.sentinelAddresses| == 0 && |s.clusterAddresses| == 0)
    ensures Plan(s).Connect? && Plan(s).mode == Sentinel ==> Plan(s).options.addrs == s.sentinelAddresses
    ensures Plan(s).Connect? && Plan(s).mode == Cluster ==> Plan(s).options.addrs == s.clusterAddresses
    ensures Plan(s).Connect? && Plan(s).mode == Simple ==> Plan(s).options.addrs == [s.address] && s.address != ""
  {
  }

  /**
   * In sentinel mode the zero timeouts, and only they, are replaced in the
   * configuration itself by 2000, 200 and 200; nothing else changes; the
   * options carry the resulting values as milliseconds.
   */
  lemma SentinelDefaults(s: RedisSettings)
    requires Plan(s).Connect? && Plan(s).mode == Sentinel
    ensures Normalize(s) == s.(dialTimeout := Normalize(s).dialTimeout,
                               readTimeout := Normalize(s).readTimeout,
                               writeTimeout := Normalize(s).writeTimeout)
    ensures Normalize(s).dialTimeout == if s.dialTimeout == 0 then 2000 else s.dialTimeout
    ensures Normalize(s).readTimeout == if s.readTimeout == 0 then 200 else s.readTimeout
    ensures Normalize(s).writeTimeout == if s.writeTimeout == 0 then 200 else s.writeTimeout
    ensures Plan(s).options.dialTimeout == Millis(Normalize(s).dialTimeout)
    ensures Plan(s).options.readTimeout == Millis(Normalize(s).readTimeout)
    ensures Plan(s).options.writeTimeout == Millis(Normalize(s).writeTimeout)
    ensures s.dialTimeout == 0 ==> Plan(s).options.dialTimeout as int == 2000 * Millisecond
    ensures s.readTimeout == 0 ==> Plan(s).options.readTimeout as int == 200 * Millisecond
    ensures s.writeTimeout == 0 ==> Plan(s).options.writeTimeout as int == 200 * Millisecond
  {
  }

  /**
   * Outside the sentinel branch the configuration is left as it was; the
   * cluster mode follows GetMaxRedirects, and neither cluster nor simple mode
   * sets a timeout.
   */
  lemma OtherModesLeaveConfig(s: RedisSettings)
    requires !(Plan(s).Connect? && Plan(s).mode == Sentinel)
    ensures Normalize(s) == s
    ensures Plan(s).Connect? ==>
      Plan(s).options.dialTimeout == 0 && Plan(s).options.readTimeout == 0 && Plan(s).options.writeTimeout == 0
      && Plan(s).options.masterName == ""
    ensures Plan(s).Connect? && Plan(s).mode == Cluster ==> Plan(s).options.maxRedirects == s.GetMaxRedirects()
    ensures Plan(s).Connect? && Plan(s).mode == Simple ==> Plan(s).options.maxRedirects == 0
  {
  }

  /** Calling GetRedisClient again on the configuration it updated changes nothing more and decides the same. */
  lemma SecondCallAgrees(s: RedisSettings)
    ensures Normalize(Normalize(s)) == Normalize(s)
    ensures Plan(Normalize(s)) == Plan(s)
  {
    var n := Normalize(s);
    assert n.IsConfigured() == s.IsConfigured();
    assert SelectTls(n) == SelectTls(s);
    if n != s {
      assert WithSentinelDefaults(n) == n;
    }
  }
}
