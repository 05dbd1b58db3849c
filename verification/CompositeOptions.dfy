/**
 CompositeElasticOpenTelemetryOptions: the effective log level, central configuration on top of it, and
 the OpAMP identity with its cached answer
 (src/Elastic.OpenTelemetry.Core/Configuration/CompositeElasticOpenTelemetryOptions.cs,
 src/Elastic.OpenTelemetry.Core/Configuration/Parsers/ConfigurationParser.cs,
 src/Elastic.OpenTelemetry.Core/Configuration/Parsers/SharedParsers.cs).

 LogLevelHelpers.ToLogLevel is a parameter, so the results hold for any spelling of levels.  An absent
 environment variable or configuration key is absent from the map.
 */
module CompositeOptions {
  import opened Prelude
  import opened ConfigCells
  import ResourceAttributes

  datatype LogLevel = Trace | Debug | Information | Warning | Error | Critical | NoLogging

  type LevelParser = string -> Option<LogLevel>

  /** What the models need of ElasticOpenTelemetryOptions. */
  datatype UserOptions = UserOptions(logLevel: Option<LogLevel>, opAmpEndpoint: Option<string>)

  const OTEL_LOG_LEVEL := "OTEL_LOG_LEVEL"
  const OPAMP_ENDPOINT := "ELASTIC_OTEL_OPAMP_ENDPOINT"
  const RESOURCE_ATTRIBUTES := "OTEL_RESOURCE_ATTRIBUTES"
  const SERVICE_NAME := "OTEL_SERVICE_NAME"
  const SECTION := "Elastic:OpenTelemetry:"
  const CATEGORY_LEVEL := "Logging:LogLevel:Elastic.OpenTelemetry"
  const DEFAULT_LEVEL := "Logging:LogLevel:Default"
  const ATTRIBUTE_SERVICE_NAME := "service.name"
  const ATTRIBUTE_SERVICE_VERSION := "service.version"

  function Get(m: map<string, string>, key: string): Option<string> {
    if key in m then Some(m[key]) else None
  }

  predicate IsNullOrEmpty(s: Option<string>) {
    s.None? || s.value == ""
  }

  /** SharedParsers.LogLevelParser and StringParser. */
  function ParseLevel(toLogLevel: LevelParser, s: string): Option<LogLevel> {
    if s == "" then None else toLogLevel(s)
  }

  function ParseString(s: string): Option<string> {
    if s == "" then None else Some(s)
  }

  // ---------------------------------------------------------------- the simple rules, by their keys

  function LevelUnder(m: map<string, string>, key: string, toLogLevel: LevelParser): Option<LogLevel> {
    if key in m && m[key] != "" then toLogLevel(m[key]) else None
  }

  /** The Logging section: the level of the category, if it has one that is not empty, else the default's. */
  function LoggingLevel(m: map<string, string>, toLogLevel: LevelParser): Option<LogLevel> {
    if "Logging:LogLevel:Elastic.OpenTelemetry" in m && m["Logging:LogLevel:Elastic.OpenTelemetry"] != ""
    then toLogLevel(m["Logging:LogLevel:Elastic.OpenTelemetry"])
    else LevelUnder(m, "Logging:LogLevel:Default", toLogLevel)
  }

  /** The first defined of user options, environment, Elastic section, Logging section, and Warning. */
  function LocalLevel(env: map<string, string>, config: Option<map<string, string>>, user: Option<UserOptions>,
                      toLogLevel: LevelParser): LogLevel
  {
    var fromEnvironment := LevelUnder(env, "OTEL_LOG_LEVEL", toLogLevel);
    var keys := if config.Some? then config.value else map[];
    var fromSection := LevelUnder(keys, "Elastic:OpenTelemetry:LogLevel", toLogLevel);
    var fromLogging := LoggingLevel(keys, toLogLevel);
    if user.Some? && user.value.logLevel.Some? then user.value.logLevel.value
    else if fromEnvironment.Some? then fromEnvironment.value
    else if fromSection.Some? then fromSection.value
    else if fromLogging.Some? then fromLogging.value
    else Warning
  }

  /** A text that is not empty, from the environment, else from the configuration, each under its own key. */
  function LocalText(env: map<string, string>, envKey: string, config: Option<map<string, string>>, key: string):
    Option<string>
  {
    if envKey in env && env[envKey] != "" then Some(env[envKey])
    else if config.Some? && key in config.value && config.value[key] != "" then Some(config.value[key])
    else None
  }

  // ---------------------------------------------------------------- reading the sources

  function FromEnvironment(env: map<string, string>, toLogLevel: LevelParser): Option<LogLevel> {
    ParseLevel(toLogLevel, Get(env, OTEL_LOG_LEVEL).GetOr(""))
  }

  function FromSection(config: map<string, string>, toLogLevel: LevelParser): Option<LogLevel> {
    ParseLevel(toLogLevel, Get(config, SECTION + "LogLevel").GetOr(""))
  }

  function LoggingSection(config: map<string, string>): Option<string> {
    if IsNullOrEmpty(Get(config, CATEGORY_LEVEL)) then Get(config, DEFAULT_LEVEL) else Get(config, CATEGORY_LEVEL)
  }

  function TextIn(m: map<string, string>, key: string): Option<string> {
    ParseString(Get(m, key).GetOr(""))
  }

  /** A parsed value is offered to the cell; an absent or unparsable one leaves it alone. */
  function Offer<T>(cell: Sourced<Option<T>>, value: Option<T>, source: ConfigSource): Sourced<Option<T>> {
    if value.Some? then Apply(cell, Sourced(value, source)) else cell
  }

  method SetFromEnvironment<T>(env: map<string, string>, key: string, field: ConfigCell<Option<T>>,
                               parser: string -> Option<T>)
    modifies field
    ensures field.State() == Offer(old(field.State()), parser(Get(env, key).GetOr("")), Environment)
  {
    var safeValue := if key in env then env[key] else "";
    var value := parser(safeValue);
    if value.None? {
      return;
    }
    field.AssignFromEnvironmentVariable(value);
  }

  function LevelAfterConfiguration(cell: Sourced<Option<LogLevel>>, configuration: map<string, string>,
                                   toLogLevel: LevelParser): Sourced<Option<LogLevel>>
  {
    var section := Offer(cell, FromSection(configuration, toLogLevel), IConfiguration);
    var logging := LoggingSection(configuration);
    if section.source == Default && !IsNullOrEmpty(logging) then Sourced(toLogLevel(logging.value), IConfiguration)
    else section
  }

  /** The level's cell after the environment, the configuration and the user options, in that order. */
  function LevelCell(env: map<string, string>, config: Option<map<string, string>>, user: Option<UserOptions>,
                     toLogLevel: LevelParser): Sourced<Option<LogLevel>>
  {
    var afterEnv := Offer(Sourced(Some(Warning), Default), FromEnvironment(env, toLogLevel), Environment);
    var afterConfig := if config.None? then afterEnv else LevelAfterConfiguration(afterEnv, config.value, toLogLevel);
    if user.None? then afterConfig else Offer(afterConfig, user.value.logLevel, Options)
  }

  lemma SectionKeys()
    ensures SECTION + "LogLevel" == "Elastic:OpenTelemetry:LogLevel"
    ensures SECTION + "OpAmpEndpoint" == "Elastic:OpenTelemetry:OpAmpEndpoint"
  {
  }

  /** A text's cell after the environment, the configuration and the user options, in that order. */
  function TextCell(env: map<string, string>, envKey: string, config: Option<map<string, string>>, key: string,
                    user: Option<string>): Sourced<Option<string>>
  {
    var afterEnv := Offer(Sourced(None, Default), TextIn(env, envKey), Environment);
    var afterConfig := if config.None? then afterEnv else Offer(afterEnv, TextIn(config.value, key), IConfiguration);
    Offer(afterConfig, user, Options)
  }

  lemma TextIsFirstDefined(env: map<string, string>, envKey: string, config: Option<map<string, string>>, key: string,
                           user: Option<string>)
    ensures TextCell(env, envKey, config, key, user).value
         == if user.Some? then user else LocalText(env, envKey, config, key)
  {
  }

  /** What the code reads is what the rules name. */
  lemma SourcesMean(env: map<string, string>, keys: map<string, string>, toLogLevel: LevelParser)
    ensures FromEnvironment(env, toLogLevel) == LevelUnder(env, "OTEL_LOG_LEVEL", toLogLevel)
    ensures FromSection(keys, toLogLevel) == LevelUnder(keys, "Elastic:OpenTelemetry:LogLevel", toLogLevel)
    ensures var logging := LoggingSection(keys);
      LoggingLevel(keys, toLogLevel) == if IsNullOrEmpty(logging) then None else toLogLevel(logging.value)
  {
    SectionKeys();
  }

  /** The cell holds the first defined of its sources, or nothing but the default. */
  lemma LevelCellIsFirst(env: map<string, string>, config: Option<map<string, string>>, user: Option<UserOptions>,
                         toLogLevel: LevelParser)
    ensures var fromEnvironment := FromEnvironment(env, toLogLevel);
      var fromSection := if config.Some? then FromSection(config.value, toLogLevel) else None;
      var logging := if config.Some? then LoggingSection(config.value) else None;
      var cell := LevelCell(env, config, user, toLogLevel);
      if user.Some? && user.value.logLevel.Some? then cell.value == user.value.logLevel
      else if fromEnvironment.Some? then cell.value == fromEnvironment
      else if fromSection.Some? then cell.value == fromSection
      else if !IsNullOrEmpty(logging) then cell.value == toLogLevel(logging.value)
      else cell.value == Some(Warning)
  {
  }

  /** For all environments, configurations and user options the effective level is the first one
      defined, even where the Logging section stores a null. */
  lemma EffectiveLevelIsFirstDefined(env: map<string, string>, config: Option<map<string, string>>,
                                     user: Option<UserOptions>, toLogLevel: LevelParser)
    ensures LevelCell(env, config, user, toLogLevel).value.GetOr(Warning) == LocalLevel(env, config, user, toLogLevel)
    ensures Rank(LevelCell(env, config, user, toLogLevel).source) <= Rank(Options)
  {
    SourcesMean(env, if config.Some? then config.value else map[], toLogLevel);
    LevelCellIsFirst(env, config, user, toLogLevel);
  }

  class ConfigurationParser {
    const configuration: map<string, string>
    const loggingSectionLogLevel: Option<string>

    constructor (configuration: map<string, string>)
      ensures this.configuration == configuration
      ensures loggingSectionLogLevel == LoggingSection(configuration)
      ensures var category := "Logging:LogLevel:Elastic.OpenTelemetry";
        if category in configuration && configuration[category] != ""
        then loggingSectionLogLevel == Some(configuration[category])
        else loggingSectionLogLevel == Get(configuration, "Logging:LogLevel:Default")
    {
      this.configuration := configuration;
      var level := Get(configuration, CATEGORY_LEVEL);
      if IsNullOrEmpty(level) {
        level := Get(configuration, DEFAULT_LEVEL);
      }
      loggingSectionLogLevel := level;
    }

    /** Look up a whole key and offer what it parses to. */
    method SetFromKey<T>(fullKey: string, cell: ConfigCell<Option<T>>, parser: string -> Option<T>)
      requires parser("") == None
      modifies cell
      ensures cell.State() == Offer(old(cell.State()), parser(Get(configuration, fullKey).GetOr("")), IConfiguration)
    {
      if fullKey !in configuration {
        return;
      }
      var parsed := parser(configuration[fullKey]);
      if parsed.None? {
        return;
      }
      cell.AssignFromConfiguration(parsed);
    }

    /** The Logging section is consulted only while the cell is at its default, and may then store a null. */
    method ParseLogLevel(logLevel: ConfigCell<Option<LogLevel>>, toLogLevel: LevelParser)
      modifies logLevel
      requires loggingSectionLogLevel == LoggingSection(configuration)
      ensures logLevel.State() == LevelAfterConfiguration(old(logLevel.State()), configuration, toLogLevel)
    {
      SetFromKey(SECTION + "LogLevel", logLevel, s => ParseLevel(toLogLevel, s));
      var snapshot := logLevel.Snapshot();
      if !IsNullOrEmpty(loggingSectionLogLevel) && snapshot.source == Default {
        logLevel.AssignFromConfiguration(toLogLevel(loggingSectionLogLevel.value));
      }
    }
  }

  // ---------------------------------------------------------------- the OpAMP identity, over whole runs

  datatype Identity = Identity(endpoint: Option<string>, attributes: Option<string>, name: Sourced<Option<string>>,
                               version: Option<string>, cached: bool)

  datatype Query = Resolve | AskEnabled

  predicate Configured(i: Identity) {
    !IsNullOrEmpty(i.endpoint) && !IsNullOrEmpty(i.name.value)
  }

  function Answer(i: Identity, q: Query): Identity {
    match q
    case Resolve =>
      if IsNullOrEmpty(i.attributes) then i
      else
        var name := ResourceAttributes.Lookup(i.attributes.value, ATTRIBUTE_SERVICE_NAME);
        var version := ResourceAttributes.Lookup(i.attributes.value, ATTRIBUTE_SERVICE_VERSION);
        i.(name := if IsNullOrEmpty(i.name.value) then Apply(i.name, Sourced(name, Property)) else i.name,
           version := if IsNullOrEmpty(i.version) then version else i.version)
    case AskEnabled => i.(cached := i.cached || Configured(i))
  }

  function AnswerAll(i: Identity, queries: seq<Query>): Identity
    decreases queries
  {
    if queries == [] then i else AnswerAll(Answer(i, queries[0]), queries[1..])
  }

  predicate HasText(s: Option<string>) {
    s != None && s != Some("")
  }

  /** Name and version are those of the attributes, or wait for the first Resolve. */
  predicate FromAttributes(i: Identity, attributes: string, resolved: bool) {
    && attributes != "" && i.attributes == Some(attributes) && i.name.source != CentralConfig
    && (if resolved then
          && i.name.value == ResourceAttributes.Lookup(attributes, "service.name")
          && i.version == ResourceAttributes.Lookup(attributes, "service.version")
        else !HasText(i.name.value) && !HasText(i.version))
  }

  lemma {:induction false} IdentityRun(i: Identity, attributes: string, resolved: bool, queries: seq<Query>)
    requires FromAttributes(i, attributes, resolved)
    ensures FromAttributes(AnswerAll(i, queries), attributes, resolved || Resolve in queries)
    decreases queries
  {
    if queries != [] {
      assert FromAttributes(Answer(i, queries[0]), attributes, resolved || queries[0] == Resolve);
      assert queries == [queries[0]] + queries[1..];
      IdentityRun(Answer(i, queries[0]), attributes, resolved || queries[0] == Resolve, queries[1..]);
    }
  }

  /** An identity without name and version takes both from the resource attributes, each under its own
      key, once a run of questions and resolutions contains a resolution. */
  lemma IdentityFromAttributes(i: Identity, attributes: string, queries: seq<Query>)
    requires attributes != "" && i.attributes == Some(attributes) && i.name.source != CentralConfig
    requires !HasText(i.name.value) && !HasText(i.version) && Resolve in queries
    ensures AnswerAll(i, queries).name.value == ResourceAttributes.Lookup(attributes, "service.name")
    ensures AnswerAll(i, queries).version == ResourceAttributes.Lookup(attributes, "service.version")
  {
    IdentityRun(i, attributes, false, queries);
  }

  /** In every run of ResolveOpAmpServiceIdentity and IsOpAmpEnabled a cached answer is what a fresh
      evaluation gives, and once a service name is known it is never replaced. */
  lemma {:induction false} CachedAnswerStaysFresh(i: Identity, queries: seq<Query>)
    requires i.cached ==> Configured(i)
    ensures var end := AnswerAll(i, queries); end.cached ==> HasText(end.endpoint) && HasText(end.name.value)
    ensures HasText(i.name.value) ==> AnswerAll(i, queries).name == i.name
    ensures HasText(i.endpoint) && HasText(i.name.value) && AskEnabled in queries ==> AnswerAll(i, queries).cached
    decreases queries
  {
    if queries != [] {
      assert queries == [queries[0]] + queries[1..];
      CachedAnswerStaysFresh(Answer(i, queries[0]), queries[1..]);
      if Answer(i, queries[0]).cached {
        CachedStays(Answer(i, queries[0]), queries[1..]);
      }
    }
  }

  lemma {:induction false} CachedStays(i: Identity, queries: seq<Query>)
    requires i.cached
    ensures AnswerAll(i, queries).cached
    decreases queries
  {
    if queries != [] {
      CachedStays(Answer(i, queries[0]), queries[1..]);
    }
  }

  // ---------------------------------------------------------------- the options object

  class CompositeElasticOpenTelemetryOptions {
    const logLevel: ConfigCell<Option<LogLevel>>
    const opAmpEndpoint: ConfigCell<Option<string>>
    const resourceAttributes: ConfigCell<Option<string>>
    const serviceName: ConfigCell<Option<string>>
    var serviceVersion: Option<string>
    var isOpAmpEnabled: bool      // _isOpAmpEnabled is true
    var identityResolved: bool

    ghost function Repr(): set<object> {
      {this, logLevel, opAmpEndpoint, resourceAttributes, serviceName}
    }

    ghost predicate Valid()
      reads Repr()
    {
      && opAmpEndpoint != resourceAttributes && opAmpEndpoint != serviceName && resourceAttributes != serviceName
      && logLevel as object !in {this as object, opAmpEndpoint, resourceAttributes, serviceName}
      && this as object !in {opAmpEndpoint as object, resourceAttributes, serviceName}
      // the cached answer equals a fresh one
      && (isOpAmpEnabled ==> OpAmpConfigured())
    }

    function TheIdentity(): Identity
      reads this, opAmpEndpoint, resourceAttributes, serviceName
    {
      Identity(opAmpEndpoint.value, resourceAttributes.value, serviceName.State(), serviceVersion, isOpAmpEnabled)
    }

    /** The LogLevel property. */
    function EffectiveLogLevel(): LogLevel
      reads logLevel
    {
      logLevel.value.GetOr(Warning)
    }

    /** The answer IsOpAmpEnabled gives when it does not use its cache. */
    predicate OpAmpConfigured()
      reads opAmpEndpoint, serviceName
    {
      !IsNullOrEmpty(opAmpEndpoint.value) && !IsNullOrEmpty(serviceName.value)
    }

    /** The four constructors in one: env and optionally IConfiguration and user options.  However the
        sources combine, the effective level is the first one defined. */
    constructor (env: map<string, string>, config: Option<map<string, string>>, user: Option<UserOptions>,
                 toLogLevel: LevelParser)
      ensures Valid() && fresh(Repr())
      ensures EffectiveLogLevel() == LocalLevel(env, config, user, toLogLevel)
      ensures logLevel.State() == LevelCell(env, config, user, toLogLevel)
      ensures opAmpEndpoint.value ==
        if user.Some? && user.value.opAmpEndpoint.Some? then user.value.opAmpEndpoint
        else LocalText(env, "ELASTIC_OTEL_OPAMP_ENDPOINT", config, "Elastic:OpenTelemetry:OpAmpEndpoint")
      ensures resourceAttributes.value ==
        LocalText(env, "OTEL_RESOURCE_ATTRIBUTES", config, "OTEL_RESOURCE_ATTRIBUTES")
      ensures serviceName.value == LocalText(env, "OTEL_SERVICE_NAME", config, "OTEL_SERVICE_NAME")
      ensures !isOpAmpEnabled && !identityResolved && serviceVersion == None
    {
      ghost var userEndpoint := if user.Some? then user.value.opAmpEndpoint else None;
      logLevel := new ConfigCell("LogLevel", Some(Warning));
      opAmpEndpoint := new ConfigCell("OpAmpEndpoint", None);
      resourceAttributes := new ConfigCell("ResourceAttributes", None);
      serviceName := new ConfigCell("ServiceName", None);
      serviceVersion, isOpAmpEnabled, identityResolved := None, false, false;
      new;
      AssignFromSources(env, config, user, toLogLevel);
      EffectiveLevelIsFirstDefined(env, config, user, toLogLevel);
      SectionKeys();
      TextIsFirstDefined(env, OPAMP_ENDPOINT, config, SECTION + "OpAmpEndpoint", userEndpoint);
      TextIsFirstDefined(env, RESOURCE_ATTRIBUTES, config, RESOURCE_ATTRIBUTES, None);
      TextIsFirstDefined(env, SERVICE_NAME, config, SERVICE_NAME, None);
    }

    /** What the constructors do, one source after the other, to cells at their defaults. */
    method AssignFromSources(env: map<string, string>, config: Option<map<string, string>>,
                             user: Option<UserOptions>, toLogLevel: LevelParser)
      requires Valid() && !isOpAmpEnabled
      requires logLevel.State() == Sourced(Some(Warning), Default)
      requires opAmpEndpoint.State() == resourceAttributes.State() == serviceName.State() == Sourced(None, Default)
      modifies logLevel, opAmpEndpoint, resourceAttributes, serviceName
      ensures Valid()
      ensures logLevel.State() == LevelCell(env, config, user, toLogLevel)
      ensures opAmpEndpoint.State() ==
        TextCell(env, OPAMP_ENDPOINT, config, SECTION + "OpAmpEndpoint",
                 if user.Some? then user.value.opAmpEndpoint else None)
      ensures resourceAttributes.State() == TextCell(env, RESOURCE_ATTRIBUTES, config, RESOURCE_ATTRIBUTES, None)
      ensures serviceName.State() == TextCell(env, SERVICE_NAME, config, SERVICE_NAME, None)
    {
      AssignFromEnvironment(env, toLogLevel);
      if config.Some? {
        AssignFromIConfiguration(config.value, toLogLevel);
      }
      if user.Some? {
        AssignFromOptions(user.value);
      }
    }

    method AssignFromEnvironment(env: map<string, string>, toLogLevel: LevelParser)
      requires Valid() && !isOpAmpEnabled
      modifies logLevel, opAmpEndpoint, resourceAttributes, serviceName
      ensures Valid()
      ensures logLevel.State() == Offer(old(logLevel.State()), FromEnvironment(env, toLogLevel), Environment)
      ensures opAmpEndpoint.State() ==
        Offer(old(opAmpEndpoint.State()), TextIn(env, OPAMP_ENDPOINT), Environment)
      ensures resourceAttributes.State() ==
        Offer(old(resourceAttributes.State()), TextIn(env, RESOURCE_ATTRIBUTES), Environment)
      ensures serviceName.State() ==
        Offer(old(serviceName.State()), TextIn(env, SERVICE_NAME), Environment)
    {
      SetFromEnvironment(env, OTEL_LOG_LEVEL, logLevel, s => ParseLevel(toLogLevel, s));
      SetFromEnvironment(env, OPAMP_ENDPOINT, opAmpEndpoint, ParseString);
      SetFromEnvironment(env, RESOURCE_ATTRIBUTES, resourceAttributes, ParseString);
      SetFromEnvironment(env, SERVICE_NAME, serviceName, ParseString);
    }

    method AssignFromIConfiguration(configuration: map<string, string>, toLogLevel: LevelParser)
      requires Valid() && !isOpAmpEnabled
      modifies logLevel, opAmpEndpoint, resourceAttributes, serviceName
      ensures Valid()
      ensures logLevel.State() == LevelAfterConfiguration(old(logLevel.State()), configuration, toLogLevel)
      ensures opAmpEndpoint.State() ==
        Offer(old(opAmpEndpoint.State()), TextIn(configuration, SECTION + "OpAmpEndpoint"), IConfiguration)
      ensures resourceAttributes.State() ==
        Offer(old(resourceAttributes.State()), TextIn(configuration, RESOURCE_ATTRIBUTES), IConfiguration)
      ensures serviceName.State() ==
        Offer(old(serviceName.State()), TextIn(configuration, SERVICE_NAME), IConfiguration)
    {
      var parser := new ConfigurationParser(configuration);
      parser.ParseLogLevel(logLevel, toLogLevel);
      parser.SetFromKey(SECTION + "OpAmpEndpoint", opAmpEndpoint, ParseString);
      parser.SetFromKey(RESOURCE_ATTRIBUTES, resourceAttributes, ParseString);
      parser.SetFromKey(SERVICE_NAME, serviceName, ParseString);
    }

    method AssignFromOptions(options: UserOptions)
      requires Valid() && !isOpAmpEnabled
      modifies logLevel, opAmpEndpoint
      ensures Valid()
      ensures logLevel.State() == Offer(old(logLevel.State()), options.logLevel, Options)
      ensures opAmpEndpoint.State() == Offer(old(opAmpEndpoint.State()), options.opAmpEndpoint, Options)
    {
      if options.logLevel.Some? {
        logLevel.AssignFromOptions(options.logLevel);
      }
      if options.opAmpEndpoint.Some? {
        opAmpEndpoint.AssignFromOptions(options.opAmpEndpoint);
      }
    }

    /** Central configuration always wins: a level that parses becomes the effective one, whatever was
        configured locally; one that does not changes nothing. */
    method SetLogLevelFromCentralConfig(level: string, toLogLevel: LevelParser)
      requires Valid()
      modifies logLevel
      ensures Valid()
      ensures if level != "" && toLogLevel(level).Some?
              then EffectiveLogLevel() == toLogLevel(level).value && logLevel.source == CentralConfig
              else logLevel.State() == old(logLevel.State())
    {
      var parsed := ParseLevel(toLogLevel, level);
      if parsed.Some? {
        logLevel.AssignFromCentralConfig(parsed);
      }
    }

    /** The missing parts of the identity come from the resource attributes, each only if it is null or
        empty; a service name that is not empty stays, so a cached answer stays right. */
    method ResolveOpAmpServiceIdentity()
      requires Valid()
      modifies this, serviceName
      ensures Valid() && identityResolved
      ensures TheIdentity() == Answer(old(TheIdentity()), Resolve)
      ensures old(serviceName.value) != None && old(serviceName.value) != Some("") ==>
        serviceName.value == old(serviceName.value)
      ensures old(serviceVersion) != None && old(serviceVersion) != Some("") ==> serviceVersion == old(serviceVersion)
      ensures HasText(resourceAttributes.value) && !HasText(old(serviceVersion)) ==>
        serviceVersion == ResourceAttributes.Lookup(resourceAttributes.value.value, "service.version")
      ensures HasText(resourceAttributes.value) && !HasText(old(serviceName.value))
              && old(serviceName.source) != CentralConfig ==>
        serviceName.value == ResourceAttributes.Lookup(resourceAttributes.value.value, "service.name")
    {
      if !IsNullOrEmpty(resourceAttributes.value) {
        var attributes := resourceAttributes.value.value;
        if IsNullOrEmpty(serviceName.value) {
          var name := ResourceAttributes.LookupResourceAttribute(attributes, ATTRIBUTE_SERVICE_NAME);
          serviceName.AssignFromProperty(name);
        }
        if IsNullOrEmpty(serviceVersion) {
          serviceVersion := ResourceAttributes.LookupResourceAttribute(attributes, ATTRIBUTE_SERVICE_VERSION);
        }
      }
      identityResolved := true;
    }

    /** The answer, cached or not, is the fresh one. */
    method IsOpAmpEnabled() returns (enabled: bool)
      requires Valid()
      modifies this`isOpAmpEnabled
      ensures Valid()
      ensures enabled == old(OpAmpConfigured()) == OpAmpConfigured()
      ensures enabled <==> HasText(opAmpEndpoint.value) && HasText(serviceName.value)
      ensures TheIdentity() == Answer(old(TheIdentity()), AskEnabled)
    {
      if isOpAmpEnabled {
        return true;
      }
      if IsNullOrEmpty(opAmpEndpoint.value) || IsNullOrEmpty(serviceName.value) {
        return false;
      }
      isOpAmpEnabled := true;
      return true;
    }
  }
}
