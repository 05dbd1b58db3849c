/**
 EnvironmentParser: which instrumentations and signals the environment switches on
 (src/Elastic.OpenTelemetry.Core/Configuration/Parsers/EnvironmentParser.cs,
 src/Elastic.OpenTelemetry.Core/Configuration/Parsers/SharedParsers.cs,
 src/Elastic.OpenTelemetry.Core/Configuration/Signals.cs).

 Instrumentations are given by their upper-case names, and bool.TryParse is a parameter.
 */
module EnvironmentParsing {
  import opened Prelude
  import opened ConfigCells

  /** A flags enum, as the set of its bits.  All is ~0: all 32 bits, not just the three that are named. */
  type Signals = set<nat>

  const NONE: Signals := {}
  const TRACES: Signals := {0}
  const METRICS: Signals := {1}
  const LOGS: Signals := {2}
  const ALL: Signals := set bit: nat | bit < 32

  const INSTRUMENTATION_ENABLED := "OTEL_DOTNET_AUTO_INSTRUMENTATION_ENABLED"
  const LOGS_ENABLED := "OTEL_DOTNET_AUTO_LOGS_INSTRUMENTATION_ENABLED"
  const TRACES_ENABLED := "OTEL_DOTNET_AUTO_TRACES_INSTRUMENTATION_ENABLED"
  const METRICS_ENABLED := "OTEL_DOTNET_AUTO_METRICS_INSTRUMENTATION_ENABLED"

  type TryParse = string -> Option<bool>

  function BoolParser(tryParse: TryParse, s: string): Option<bool> {
    if s == "1" then Some(true) else if s == "0" then Some(false) else tryParse(s)
  }

  function Switch(env: map<string, string>, tryParse: TryParse, key: string): Option<bool> {
    BoolParser(tryParse, if key in env then env[key] else "")
  }

  function InstrumentationKey(signal: string, name: string): string {
    "OTEL_DOTNET_AUTO_" + signal + "_" + name + "_INSTRUMENTATION_ENABLED"
  }

  /** A signal's own switch, else the overall one, else on. */
  predicate Configured(source: Option<bool>, allEnabled: Option<bool>) {
    source.OrElse(allEnabled).GetOr(true)
  }

  // ---------------------------------------------------------------- the rules, stated independently

  /** What a variable says: 1 and 0, or what bool.TryParse makes of it; an absent one is empty. */
  function Setting(env: map<string, string>, tryParse: TryParse, key: string): Option<bool> {
    if key !in env then tryParse("")
    else if env[key] == "1" then Some(true)
    else if env[key] == "0" then Some(false)
    else tryParse(env[key])
  }

  function OwnSetting(env: map<string, string>, tryParse: TryParse, signal: string, name: string): Option<bool> {
    Setting(env, tryParse, "OTEL_DOTNET_AUTO_" + signal + "_" + name + "_INSTRUMENTATION_ENABLED")
  }

  /** An instrumentation is on if it is switched on itself, or not switched at all and its signal is on. */
  predicate IsOn(env: map<string, string>, tryParse: TryParse, signal: string, name: string, signalOn: bool) {
    var own := OwnSetting(env, tryParse, signal, name);
    own == Some(true) || (own == None && signalOn)
  }

  predicate IsSet(env: map<string, string>, tryParse: TryParse, signal: string, name: string) {
    OwnSetting(env, tryParse, signal, name) != None
  }

  predicate SomeOn(env: map<string, string>, tryParse: TryParse, signal: string, available: seq<string>,
                   signalOn: bool)
  {
    exists name :: name in available && IsOn(env, tryParse, signal, name, signalOn)
  }

  predicate SomeSet(env: map<string, string>, tryParse: TryParse, signal: string, available: seq<string>) {
    exists name :: name in available && IsSet(env, tryParse, signal, name)
  }

  /** The overall switch: on unless it says off. */
  predicate AllOn(env: map<string, string>, tryParse: TryParse) {
    Setting(env, tryParse, "OTEL_DOTNET_AUTO_INSTRUMENTATION_ENABLED") != Some(false)
  }

  /** A signal's own switch beats the overall one. */
  predicate SignalOn(env: map<string, string>, tryParse: TryParse, key: string) {
    var own := Setting(env, tryParse, key);
    if own == Some(true) then true else if own == Some(false) then false else AllOn(env, tryParse)
  }

  predicate TracesOn(env: map<string, string>, tryParse: TryParse) {
    SignalOn(env, tryParse, "OTEL_DOTNET_AUTO_TRACES_INSTRUMENTATION_ENABLED")
  }

  predicate MetricsOn(env: map<string, string>, tryParse: TryParse) {
    SignalOn(env, tryParse, "OTEL_DOTNET_AUTO_METRICS_INSTRUMENTATION_ENABLED")
  }

  predicate LogsOn(env: map<string, string>, tryParse: TryParse) {
    SignalOn(env, tryParse, "OTEL_DOTNET_AUTO_LOGS_INSTRUMENTATION_ENABLED")
  }

  lemma SomeOnIsNonEmpty(env: map<string, string>, tryParse: TryParse, signal: string, available: seq<string>, on: bool,
                         enabled: set<string>)
    requires enabled == set name | name in available && IsOn(env, tryParse, signal, name, on)
    ensures |enabled| > 0 <==> SomeOn(env, tryParse, signal, available, on)
  {
    if SomeOn(env, tryParse, signal, available, on) {
      var name :| name in available && IsOn(env, tryParse, signal, name, on);
      assert name in enabled;
    } else if name :| name in enabled {
      assert false;
    }
  }

  lemma SomeSetAppend(env: map<string, string>, tryParse: TryParse, signal: string, names: seq<string>, name: string)
    ensures SomeSet(env, tryParse, signal, names + [name])
       <==> SomeSet(env, tryParse, signal, names) || IsSet(env, tryParse, signal, name)
  {
    if SomeSet(env, tryParse, signal, names) {
      var n :| n in names && IsSet(env, tryParse, signal, n);
      assert n in names + [name];
    }
    assert name in names + [name];
  }

  /** The instrumentation names of each signal. */
  datatype Available = Available(traces: seq<string>, metrics: seq<string>, logs: seq<string>)

  class EnvironmentParser {
    const env: map<string, string>
    const tryParse: TryParse

    constructor (env: map<string, string>, tryParse: TryParse)
      ensures this.env == env && this.tryParse == tryParse
    {
      this.env := env;
      this.tryParse := tryParse;
    }

    method EnumerateEnabled(allEnabled: bool, available: seq<string>, signal: string)
      returns (opted: bool, instrumentations: set<string>)
      ensures instrumentations == set name | name in available && IsOn(env, tryParse, signal, name, allEnabled)
      ensures opted <==> SomeSet(env, tryParse, signal, available)
    {
      opted, instrumentations := false, {};
      for i := 0 to |available|
        invariant instrumentations == set name | name in available[..i] && IsOn(env, tryParse, signal, name, allEnabled)
        invariant opted <==> SomeSet(env, tryParse, signal, available[..i])
      {
        var name := available[i];
        assert available[..i + 1] == available[..i] + [name];
        SomeSetAppend(env, tryParse, signal, available[..i], name);
        var enabled := Switch(env, tryParse, InstrumentationKey(signal, name));
        if (enabled.Some? && enabled.value) || (enabled.None? && allEnabled) {
          instrumentations := instrumentations + {name};
        }
        if enabled.Some? {
          opted := true;
        }
      }
      assert available[..|available|] == available;
    }

    /** One signal's part of ParseInstrumentationVariables: enumerate, and offer the set if opted. */
    method OfferInstrumentations(cell: ConfigCell<set<string>>, on: bool, available: seq<string>, signal: string)
      returns (opted: bool, count: nat)
      modifies cell
      ensures opted <==> SomeSet(env, tryParse, signal, available)
      ensures count > 0 <==> SomeOn(env, tryParse, signal, available, on)
      ensures cell.State() == OfferSet(old(cell.State()), env, tryParse, signal, available, on)
    {
      var instrumentations;
      opted, instrumentations := EnumerateEnabled(on, available, signal);
      if opted {
        cell.AssignFromEnvironmentVariable(instrumentations);
      }
      SomeOnIsNonEmpty(env, tryParse, signal, available, on, instrumentations);
      count := |instrumentations|;
    }

    /** The three signals in turn, each with its own switch, else the overall one, else on. */
    method OfferAllInstrumentations(tracingCell: ConfigCell<set<string>>, metricsCell: ConfigCell<set<string>>,
                                    loggingCell: ConfigCell<set<string>>, available: Available,
                                    traces: Option<bool>, metrics: Option<bool>, logs: Option<bool>,
                                    allEnabled: Option<bool>)
      returns (opted: bool, logCount: nat, traceCount: nat, metricCount: nat)
      requires tracingCell != metricsCell && tracingCell != loggingCell && metricsCell != loggingCell
      modifies tracingCell, metricsCell, loggingCell
      ensures opted <==> SomeInstrumentationSet(env, tryParse, available)
      ensures logCount > 0 <==> SomeOn(env, tryParse, "LOGS", available.logs, Configured(logs, allEnabled))
      ensures traceCount > 0 <==> SomeOn(env, tryParse, "TRACES", available.traces, Configured(traces, allEnabled))
      ensures metricCount > 0 <==> SomeOn(env, tryParse, "METRICS", available.metrics, Configured(metrics, allEnabled))
      ensures tracingCell.State() ==
        OfferSet(old(tracingCell.State()), env, tryParse, "TRACES", available.traces, Configured(traces, allEnabled))
      ensures metricsCell.State() ==
        OfferSet(old(metricsCell.State()), env, tryParse, "METRICS", available.metrics, Configured(metrics, allEnabled))
      ensures loggingCell.State() ==
        OfferSet(old(loggingCell.State()), env, tryParse, "LOGS", available.logs, Configured(logs, allEnabled))
    {
      var traceEnabled := Configured(traces, allEnabled);
      var optedTraces, optedMetrics, optedLogs;
      optedTraces, traceCount := OfferInstrumentations(tracingCell, traceEnabled, available.traces, "TRACES");
      var metricEnabled := Configured(metrics, allEnabled);
      optedMetrics, metricCount := OfferInstrumentations(metricsCell, metricEnabled, available.metrics, "METRICS");
      var logEnabled := Configured(logs, allEnabled);
      optedLogs, logCount := OfferInstrumentations(loggingCell, logEnabled, available.logs, "LOGS");
      opted := optedLogs || optedMetrics || optedTraces;
    }

    /** The bit-by-bit updates of ParseInstrumentationVariables. */
    static method ComposeSignals(defaultSignals: Signals, logs: nat, traces: nat, metrics: nat)
      returns (signals: Signals)
      ensures (0 in signals <==> traces > 0) && (1 in signals <==> metrics > 0) && (2 in signals <==> logs > 0)
      ensures forall bit | bit > 2 :: bit in signals <==> bit in defaultSignals
    {
      signals := defaultSignals;
      if logs > 0 {
        signals := signals + LOGS;
      } else {
        signals := signals - LOGS;
      }
      if traces > 0 {
        signals := signals + TRACES;
      } else {
        signals := signals - TRACES;
      }
      if metrics > 0 {
        signals := signals + METRICS;
      } else {
        signals := signals - METRICS;
      }
    }

    /** What the code reads from the environment is what the rules say. */
    lemma SwitchesMean(allEnabled: Option<bool>, traces: Option<bool>, metrics: Option<bool>, logs: Option<bool>)
      requires allEnabled == Switch(env, tryParse, INSTRUMENTATION_ENABLED)
      requires traces == Switch(env, tryParse, TRACES_ENABLED)
      requires metrics == Switch(env, tryParse, METRICS_ENABLED)
      requires logs == Switch(env, tryParse, LOGS_ENABLED)
      ensures Configured(traces, allEnabled) == TracesOn(env, tryParse)
      ensures Configured(metrics, allEnabled) == MetricsOn(env, tryParse)
      ensures Configured(logs, allEnabled) == LogsOn(env, tryParse)
      ensures allEnabled.GetOr(true) == AllOn(env, tryParse)
      ensures logs.Some? || traces.Some? || allEnabled.Some? <==> SomeSwitchSet(env, tryParse)
    {
    }

    lemma SignalsAre(available: Available, defaultSignals: Signals, signals: Signals)
      requires defaultSignals == if AllOn(env, tryParse) then ALL else NONE
      requires 0 in signals <==> SomeOn(env, tryParse, "TRACES", available.traces, TracesOn(env, tryParse))
      requires 1 in signals <==> SomeOn(env, tryParse, "METRICS", available.metrics, MetricsOn(env, tryParse))
      requires 2 in signals <==> SomeOn(env, tryParse, "LOGS", available.logs, LogsOn(env, tryParse))
      requires forall bit | bit > 2 :: bit in signals <==> bit in defaultSignals
      ensures SignalsMean(env, tryParse, available, signals)
    {
    }

    /** The signals cell is offered a value exactly when the overall, logs or traces switch is set, or
        some instrumentation is switched individually; a metrics switch alone does not do it.  The
        offered value has each signal's bit exactly if some instrumentation of it is on, and otherwise
        the bits of All, or of None when the overall switch is off.  The three instrumentation cells
        are offered their enabled sets exactly when one of theirs is switched individually. */
    method ParseInstrumentationVariables(signalsCell: ConfigCell<Signals>, tracingCell: ConfigCell<set<string>>,
                                         metricsCell: ConfigCell<set<string>>, loggingCell: ConfigCell<set<string>>,
                                         available: Available)
      returns (offered: bool, signals: Signals)
      requires tracingCell != metricsCell && tracingCell != loggingCell && metricsCell != loggingCell
      requires signalsCell as object !in {tracingCell as object, metricsCell, loggingCell}
      modifies signalsCell, tracingCell, metricsCell, loggingCell
      ensures offered <==> OffersSignals(env, tryParse, available)
      ensures SignalsMean(env, tryParse, available, signals)
      ensures signalsCell.State() ==
        if offered then Apply(old(signalsCell.State()), Sourced(signals, Environment)) else old(signalsCell.State())
      ensures tracingCell.State() ==
        OfferSet(old(tracingCell.State()), env, tryParse, "TRACES", available.traces, TracesOn(env, tryParse))
      ensures metricsCell.State() ==
        OfferSet(old(metricsCell.State()), env, tryParse, "METRICS", available.metrics, MetricsOn(env, tryParse))
      ensures loggingCell.State() ==
        OfferSet(old(loggingCell.State()), env, tryParse, "LOGS", available.logs, LogsOn(env, tryParse))
    {
      var allEnabled := Switch(env, tryParse, INSTRUMENTATION_ENABLED);
      var defaultSignals := if allEnabled.Some? then if allEnabled.value then ALL else NONE else ALL;
      var logs := Switch(env, tryParse, LOGS_ENABLED);
      var traces := Switch(env, tryParse, TRACES_ENABLED);
      var metrics := Switch(env, tryParse, METRICS_ENABLED);

      SwitchesMean(allEnabled, traces, metrics, logs);
      var opted, logCount, traceCount, metricCount :=
        OfferAllInstrumentations(tracingCell, metricsCell, loggingCell, available, traces, metrics, logs, allEnabled);
      signals := ComposeSignals(defaultSignals, logCount, traceCount, metricCount);
      SignalsAre(available, defaultSignals, signals);

      var switched := logs.Some? || traces.Some? || traces.Some? || allEnabled.Some?;
      offered := OfferSignals(signalsCell, switched, opted, signals);
    }

    /** The two assignments at the end of ParseInstrumentationVariables. */
    static method OfferSignals(signalsCell: ConfigCell<Signals>, switched: bool, opted: bool, signals: Signals)
      returns (offered: bool)
      modifies signalsCell
      ensures offered <==> switched || opted
      ensures signalsCell.State() ==
        if offered then Apply(old(signalsCell.State()), Sourced(signals, Environment)) else old(signalsCell.State())
    {
      offered := false;
      if switched {
        signalsCell.AssignFromEnvironmentVariable(signals);
        offered := true;
      }
      if opted {
        signalsCell.AssignFromEnvironmentVariable(signals);
        offered := true;
      }
    }
  }

  function OfferSet(cell: Sourced<set<string>>, env: map<string, string>, tryParse: TryParse, signal: string,
                    available: seq<string>, on: bool): Sourced<set<string>>
  {
    if SomeSet(env, tryParse, signal, available)
    then Apply(cell, Sourced((set name | name in available && IsOn(env, tryParse, signal, name, on)), Environment))
    else cell
  }

  /** The overall, the logs or the traces switch is set. */
  predicate SomeSwitchSet(env: map<string, string>, tryParse: TryParse) {
    || Setting(env, tryParse, "OTEL_DOTNET_AUTO_INSTRUMENTATION_ENABLED") != None
    || Setting(env, tryParse, "OTEL_DOTNET_AUTO_LOGS_INSTRUMENTATION_ENABLED") != None
    || Setting(env, tryParse, "OTEL_DOTNET_AUTO_TRACES_INSTRUMENTATION_ENABLED") != None
  }

  predicate OffersSignals(env: map<string, string>, tryParse: TryParse, available: Available) {
    SomeSwitchSet(env, tryParse) || SomeInstrumentationSet(env, tryParse, available)
  }

  predicate SomeInstrumentationSet(env: map<string, string>, tryParse: TryParse, available: Available) {
    || SomeSet(env, tryParse, "LOGS", available.logs)
    || SomeSet(env, tryParse, "METRICS", available.metrics)
    || SomeSet(env, tryParse, "TRACES", available.traces)
  }

  /** Bit 0 is traces, 1 metrics, 2 logs: each is set exactly if some instrumentation of it is on.  The
      others, of 32, are all set unless the overall switch is off. */
  ghost predicate SignalsMean(env: map<string, string>, tryParse: TryParse, available: Available, signals: Signals) {
    && (0 in signals <==> SomeOn(env, tryParse, "TRACES", available.traces, TracesOn(env, tryParse)))
    && (1 in signals <==> SomeOn(env, tryParse, "METRICS", available.metrics, MetricsOn(env, tryParse)))
    && (2 in signals <==> SomeOn(env, tryParse, "LOGS", available.logs, LogsOn(env, tryParse)))
    && forall bit | bit > 2 :: bit in signals <==> bit < 32 && AllOn(env, tryParse)
  }

  /** A string at a position that tells two keys apart. */
  lemma KeysDiffer(signal: string, name: string)
    requires signal == "LOGS" || signal == "METRICS" || signal == "TRACES"
    ensures InstrumentationKey(signal, name) != METRICS_ENABLED
  {
    var key := InstrumentationKey(signal, name);
    if signal == "METRICS" {
      assert |key| > |METRICS_ENABLED|;
    } else {
      assert key[17] == signal[0] && METRICS_ENABLED[17] == 'M';
    }
  }

  /** With the metrics switch as the only variable, the signals cell is offered nothing; so switching
      metrics off is lost: the value composed for it lacks the bit, but stays unused. */
  lemma MetricsSwitchAloneIsLost(tryParse: TryParse, available: Available, text: string, signals: Signals)
    requires tryParse("") == None
    ensures var env := map[METRICS_ENABLED := text];
      && !OffersSignals(env, tryParse, available)
      && (text == "0" && SignalsMean(env, tryParse, available, signals) ==> 1 !in signals)
  {
    var env := map[METRICS_ENABLED := text];
    forall name ensures !IsSet(env, tryParse, "LOGS", name) {
      KeysDiffer("LOGS", name);
    }
    forall name ensures !IsSet(env, tryParse, "TRACES", name) {
      KeysDiffer("TRACES", name);
    }
    forall name ensures !IsSet(env, tryParse, "METRICS", name) {
      KeysDiffer("METRICS", name);
    }
    assert METRICS_ENABLED[17] == 'M' && LOGS_ENABLED[17] == 'L' && TRACES_ENABLED[17] == 'T';
    assert METRICS_ENABLED[17] != INSTRUMENTATION_ENABLED[17];
  }
}
