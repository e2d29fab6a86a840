/** The connection configuration of Utils.java: `setCustomConfiguration`, which
    updates a caller-owned client builder in place, `setDirectMode`, and the two
    connection-config builders. As for request options, each builder is proved
    against an `...Accepted` predicate (no getter throws) and a declarative
    `...Spec` function. */
module ConnectionConfig {
  import opened Wrappers
  import opened JavaLang
  import opened HostValues
  import opened Sdk
  import opened Decoders
  import opened OptionBuilders
  import C = Constants

  // ---------------------------------------------------------------------------
  // Direct and gateway connection configs

  predicate DirectConfigAccepted(m: Config) {
    && IntOrAbsent(m, C.ConnectionTimeout)
    && IntOrAbsent(m, C.IdleConnectionTimeout)
    && IntOrAbsent(m, C.IdleEndpointTimeout)
    && Int32OrAbsent(m, C.MaxConnectionsPerEndpoint)
    && Int32OrAbsent(m, C.MaxRequestsPerConnection)
    && IntOrAbsent(m, C.NetworkTimeout)
    && BoolOrAbsent(m, C.ConnectionEndpointRediscovery)
  }

  /** Timeouts are whole seconds; the two counts are narrowed to 32 bits. */
  function DirectConfigSpec(m: Config): DirectConnectionConfig
    requires DirectConfigAccepted(m)
  {
    DirectConnectionConfig(
      connectTimeout := SecondsSetting(m, C.ConnectionTimeout),
      idleConnectionTimeout := SecondsSetting(m, C.IdleConnectionTimeout),
      idleEndpointTimeout := SecondsSetting(m, C.IdleEndpointTimeout),
      maxConnectionsPerEndpoint := Int32Setting(m, C.MaxConnectionsPerEndpoint),
      maxRequestsPerConnection := Int32Setting(m, C.MaxRequestsPerConnection),
      networkRequestTimeout := SecondsSetting(m, C.NetworkTimeout),
      connectionEndpointRediscoveryEnabled := BoolSetting(m, C.ConnectionEndpointRediscovery))
  }

  /** `setDirectConnectionConfig`. */
  method SetDirectConnectionConfig(m: Config) returns (r: Result<DirectConnectionConfig, Exception>)
    ensures r.Success? <==> DirectConfigAccepted(m)
    ensures r.Success? ==> r.value == DirectConfigSpec(m)
  {
    var config := NewDirectConnectionConfig;
    if C.ConnectionTimeout in m {
      var seconds :- GetInt(m, C.ConnectionTimeout);
      config := config.(connectTimeout := SetTo(OfSeconds(seconds)));
    }
    if C.IdleConnectionTimeout in m {
      var seconds :- GetInt(m, C.IdleConnectionTimeout);
      config := config.(idleConnectionTimeout := SetTo(OfSeconds(seconds)));
    }
    if C.IdleEndpointTimeout in m {
      var seconds :- GetInt(m, C.IdleEndpointTimeout);
      config := config.(idleEndpointTimeout := SetTo(OfSeconds(seconds)));
    }
    if C.MaxConnectionsPerEndpoint in m {
      var count :- GetInt32(m, C.MaxConnectionsPerEndpoint);
      config := config.(maxConnectionsPerEndpoint := SetTo(count));
    }
    if C.MaxRequestsPerConnection in m {
      var count :- GetInt32(m, C.MaxRequestsPerConnection);
      config := config.(maxRequestsPerConnection := SetTo(count));
    }
    if C.NetworkTimeout in m {
      var seconds :- GetInt(m, C.NetworkTimeout);
      config := config.(networkRequestTimeout := SetTo(OfSeconds(seconds)));
    }
    if C.ConnectionEndpointRediscovery in m {
      var enabled :- GetBoolean(m, C.ConnectionEndpointRediscovery);
      config := config.(connectionEndpointRediscoveryEnabled := SetTo(enabled));
    }
    return Success(config);
  }

  predicate GatewayConfigAccepted(m: Config) {
    Int32OrAbsent(m, C.MaxConnectionPoolSize) && IntOrAbsent(m, C.IdleConnectionTimeout)
  }

  function GatewayConfigSpec(m: Config): GatewayConnectionConfig
    requires GatewayConfigAccepted(m)
  {
    GatewayConnectionConfig(
      maxConnectionPoolSize := Int32Setting(m, C.MaxConnectionPoolSize),
      idleConnectionTimeout := SecondsSetting(m, C.IdleConnectionTimeout))
  }

  /** `setGatewayConnectionConfig`. */
  method SetGatewayConnectionConfig(m: Config) returns (r: Result<GatewayConnectionConfig, Exception>)
    ensures r.Success? <==> GatewayConfigAccepted(m)
    ensures r.Success? ==> r.value == GatewayConfigSpec(m)
  {
    var config := NewGatewayConnectionConfig;
    if C.MaxConnectionPoolSize in m {
      var size :- GetInt32(m, C.MaxConnectionPoolSize);
      config := config.(maxConnectionPoolSize := SetTo(size));
    }
    if C.IdleConnectionTimeout in m {
      var seconds :- GetInt(m, C.IdleConnectionTimeout);
      config := config.(idleConnectionTimeout := SetTo(OfSeconds(seconds)));
    }
    return Success(config);
  }

  // ---------------------------------------------------------------------------
  // Direct mode

  /** The direct config is read whenever it is present; the gateway config only
      when the direct config is present too. */
  predicate DirectModeAccepted(m: Config) {
    && (C.DirectConnectionConfig in m ==>
          m[C.DirectConnectionConfig].VMap? && DirectConfigAccepted(m[C.DirectConnectionConfig].fields))
    && (C.DirectConnectionConfig in m && C.GatewayConnectionConfig in m ==>
          m[C.GatewayConnectionConfig].VMap? && GatewayConfigAccepted(m[C.GatewayConnectionConfig].fields))
  }

  /** The connection mode after `setDirectMode`: direct mode with the gateway
      config when both configs are present, direct mode alone when only the
      direct config is, and `mode` unchanged otherwise (a lone gateway config is
      ignored). */
  function DirectModeSpec(mode: Setting<ConnectionMode>, m: Config): Setting<ConnectionMode>
    requires DirectModeAccepted(m)
  {
    if C.DirectConnectionConfig !in m then mode
    else
      var direct := DirectConfigSpec(m[C.DirectConnectionConfig].fields);
      if C.GatewayConnectionConfig in m
      then SetTo(DirectMode(direct, Some(GatewayConfigSpec(m[C.GatewayConnectionConfig].fields))))
      else SetTo(DirectMode(direct, None))
  }

  /** `getMapValue(k)` followed by the direct-config builder. */
  method DirectConfigAt(m: Config, k: string) returns (r: Result<DirectConnectionConfig, Exception>)
    requires k in m
    ensures r.Success? <==> m[k].VMap? && DirectConfigAccepted(m[k].fields)
    ensures r.Success? ==> r.value == DirectConfigSpec(m[k].fields)
  {
    var nested :- GetMap(m, k);
    r := SetDirectConnectionConfig(nested);
  }

  /** `getMapValue(k)` followed by the gateway-config builder. */
  method GatewayConfigAt(m: Config, k: string) returns (r: Result<GatewayConnectionConfig, Exception>)
    requires k in m
    ensures r.Success? <==> m[k].VMap? && GatewayConfigAccepted(m[k].fields)
    ensures r.Success? ==> r.value == GatewayConfigSpec(m[k].fields)
  {
    var nested :- GetMap(m, k);
    r := SetGatewayConnectionConfig(nested);
  }

  /** `setDirectMode`. Both configs are built before the builder is touched, so
      a failure leaves the builder as it was. */
  method SetDirectMode(builder: ClientBuilder, m: Config) returns (r: Result<(), Exception>)
    modifies builder
    ensures r.Success? <==> DirectModeAccepted(m)
    ensures r.Success? ==> builder.Settings() == old(builder.Settings()).(connectionMode := DirectModeSpec(old(builder.connectionMode), m))
    ensures r.Failure? ==> builder.Settings() == old(builder.Settings())
  {
    if C.GatewayConnectionConfig in m && C.DirectConnectionConfig in m {
      var gateway :- GatewayConfigAt(m, C.GatewayConnectionConfig);
      var direct :- DirectConfigAt(m, C.DirectConnectionConfig);
      builder.connectionMode := SetTo(DirectMode(direct, Some(gateway)));
    } else if C.DirectConnectionConfig in m {
      var direct :- DirectConfigAt(m, C.DirectConnectionConfig);
      builder.connectionMode := SetTo(DirectMode(direct, None));
    }
    return Success(());
  }

  // ---------------------------------------------------------------------------
  // Custom configuration

  predicate CustomConfigAccepted(m: Config) {
    && StringOrAbsent(m, C.ConsistencyLevel)
    && (C.DirectMode in m ==> m[C.DirectMode].VMap? && DirectModeAccepted(m[C.DirectMode].fields))
    && BoolOrAbsent(m, C.ConnectionSharingAcrossClients)
    && StringOrAbsent(m, C.UserAgentSuffix)
    && StringsOrAbsent(m, C.PreferredRegions)
    && BoolOrAbsent(m, C.ContentResponseOnWriteEnabled)
  }

  /** The builder settings after a successful `setCustomConfiguration`: each
      present key overwrites its setting, an absent key keeps the old one. An
      unknown consistency-level name sets the level to null. */
  function Configured(s: ClientSettings, m: Config): ClientSettings
    requires CustomConfigAccepted(m)
  {
    ClientSettings(
      consistencyLevel := Latest(ConsistencySetting(m), s.consistencyLevel),
      connectionMode :=
        if C.DirectMode in m then DirectModeSpec(s.connectionMode, m[C.DirectMode].fields) else s.connectionMode,
      connectionSharingAcrossClientsEnabled :=
        Latest(BoolSetting(m, C.ConnectionSharingAcrossClients), s.connectionSharingAcrossClientsEnabled),
      userAgentSuffix := Latest(StringSetting(m, C.UserAgentSuffix), s.userAgentSuffix),
      preferredRegions := Latest(StringsSetting(m, C.PreferredRegions), s.preferredRegions),
      contentResponseOnWriteEnabled :=
        Latest(BoolSetting(m, C.ContentResponseOnWriteEnabled), s.contentResponseOnWriteEnabled))
  }

  /** The last four setters of `setCustomConfiguration`, on plain client options. */
  method ApplyClientOptions(builder: ClientBuilder, m: Config) returns (r: Result<(), Exception>)
    modifies builder
    ensures r.Success? <==>
      && BoolOrAbsent(m, C.ConnectionSharingAcrossClients)
      && StringOrAbsent(m, C.UserAgentSuffix)
      && StringsOrAbsent(m, C.PreferredRegions)
      && BoolOrAbsent(m, C.ContentResponseOnWriteEnabled)
    ensures r.Success? ==> builder.Settings() == old(builder.Settings()).(
      connectionSharingAcrossClientsEnabled :=
        Latest(BoolSetting(m, C.ConnectionSharingAcrossClients), old(builder.connectionSharingAcrossClientsEnabled)),
      userAgentSuffix := Latest(StringSetting(m, C.UserAgentSuffix), old(builder.userAgentSuffix)),
      preferredRegions := Latest(StringsSetting(m, C.PreferredRegions), old(builder.preferredRegions)),
      contentResponseOnWriteEnabled :=
        Latest(BoolSetting(m, C.ContentResponseOnWriteEnabled), old(builder.contentResponseOnWriteEnabled)))
  {
    if C.ConnectionSharingAcrossClients in m {
      var enabled :- GetBoolean(m, C.ConnectionSharingAcrossClients);
      builder.connectionSharingAcrossClientsEnabled := SetTo(enabled);
    }
    if C.UserAgentSuffix in m {
      var suffix :- GetString(m, C.UserAgentSuffix);
      builder.userAgentSuffix := SetTo(suffix);
    }
    if C.PreferredRegions in m {
      var regions :- GetStringArray(m, C.PreferredRegions);
      builder.preferredRegions := SetTo(regions);
    }
    if C.ContentResponseOnWriteEnabled in m {
      var enabled :- GetBoolean(m, C.ContentResponseOnWriteEnabled);
      builder.contentResponseOnWriteEnabled := SetTo(enabled);
    }
    return Success(());
  }

  /** `setCustomConfiguration`: a null configuration leaves the builder alone;
      otherwise each present key is applied to it in source order. */
  method SetCustomConfiguration(builder: ClientBuilder, customConfig: Option<Config>) returns (r: Result<(), Exception>)
    modifies builder
    ensures customConfig.None? ==> r.Success? && builder.Settings() == old(builder.Settings())
    ensures customConfig.Some? ==> (r.Success? <==> CustomConfigAccepted(customConfig.value))
    ensures customConfig.Some? && r.Success? ==>
      builder.Settings() == Configured(old(builder.Settings()), customConfig.value)
  {
    if customConfig.None? {
      return Success(());
    }
    var m := customConfig.value;
    if C.ConsistencyLevel in m {
      var level :- GetString(m, C.ConsistencyLevel);
      builder.consistencyLevel := SetTo(ConsistencyLevelOf(level));
    }
    if C.DirectMode in m {
      var mode :- GetMap(m, C.DirectMode);
      var _ :- SetDirectMode(builder, mode);
    }
    r := ApplyClientOptions(builder, m);
  }

  /** Applying the same custom configuration twice leaves the builder as applying
      it once does. */
  lemma ConfiguredIdempotent(s: ClientSettings, m: Config)
    requires CustomConfigAccepted(m)
    ensures Configured(Configured(s, m), m) == Configured(s, m)
  {
  }

  /** A `gatewayConnectionConfig` without a `directConnectionConfig` is ignored,
      whatever it holds. */
  lemma LoneGatewayConfigIgnored(mode: Setting<ConnectionMode>, m: Config)
    requires C.DirectConnectionConfig !in m
    ensures DirectModeAccepted(m)
    ensures DirectModeSpec(mode, m) == mode
  {
  }
}
