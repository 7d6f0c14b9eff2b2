/**
 * The instrumentation side: timing proxies put in place of a plugin's hook
 * methods, one record per completed call, and the report over what was
 * recorded.
 *
 * The clock is not modelled: a proxy call is given the elapsed `hrtime` pair
 * and the outcome of the original hook (its value, or the error it threw).
 */
module Monitoring {
  import opened Wrappers
  import opened HookCalls
  import opened Plugins
  import opened Reporting
  import Decimal

  // ---------------------------------------------------------------------------
  // Elapsed time

  /** An elapsed time as `process.hrtime` reports it: seconds and the nanoseconds beyond them. */
  datatype Hrtime = Hrtime(seconds: nat, nanoseconds: nat)

  /**
   * The digits of the seconds followed by the digits of the nanoseconds
   * left-padded with zeros to EIGHT places, read back as one integer: the
   * seconds are scaled by 10^8, or by 10^d when the nanoseconds have d > 8 digits.
   */
  function HrtimeToNanoSecond(time: Hrtime): (ns: nat)
    ensures ns == time.seconds * Decimal.Pow10(Decimal.Max(8, |Decimal.Show(time.nanoseconds)|)) + time.nanoseconds
  {
    var seconds := Decimal.Show(time.seconds);
    var padded := Decimal.PadStart(Decimal.Show(time.nanoseconds), 8, '0');
    Decimal.ShowDigits(time.seconds);
    Decimal.ShowDigits(time.nanoseconds);
    Decimal.PadStartParse(Decimal.Show(time.nanoseconds), 8);
    Decimal.ParseAppend(seconds, padded);
    Decimal.Parse(seconds + padded)
  }

  lemma HrtimeExamples(n: nat)
    ensures HrtimeToNanoSecond(Hrtime(2, 500000000)) == 2500000000
    ensures HrtimeToNanoSecond(Hrtime(1, 5)) == 100000005
    ensures HrtimeToNanoSecond(Hrtime(0, n)) == n
  {
    PowersOfTen();
    DigitCount(500000000, 9);
  }

  lemma PowersOfTen()
    ensures Decimal.Pow10(8) == 100000000 && Decimal.Pow10(9) == 1000000000
  {
    assert Decimal.Pow10(2) == 100;
    assert Decimal.Pow10(4) == 10000;
    assert Decimal.Pow10(6) == 1000000;
  }

  lemma DigitCount(n: nat, digits: nat)
    requires 1 <= digits && Decimal.Pow10(digits - 1) <= n < Decimal.Pow10(digits)
    ensures |Decimal.Show(n)| == digits
  {
    var length := |Decimal.Show(n)|;
    Decimal.ShowLength(n);
    if length < digits {
      Decimal.Pow10Monotone(length, digits - 1);
    } else if length > digits {
      Decimal.Pow10Monotone(digits, length - 1);
    }
  }

  /**
   * For a sub-second part below 10^9, the count is the true elapsed
   * nanoseconds exactly when the seconds are 0 or the sub-second part has
   * nine digits; otherwise the seconds are counted as 10^8 ns each.
   */
  lemma HrtimeExactIff(time: Hrtime)
    requires time.nanoseconds < 1000000000
    ensures HrtimeToNanoSecond(time) == time.seconds * 1000000000 + time.nanoseconds
      <==> time.seconds == 0 || time.nanoseconds >= 100000000
    ensures time.nanoseconds < 100000000 ==>
      HrtimeToNanoSecond(time) == time.seconds * 100000000 + time.nanoseconds
  {
    var n := time.nanoseconds;
    var length := |Decimal.Show(n)|;
    PowersOfTen();
    Decimal.ShowLength(n);
    if n >= 100000000 {
      DigitCount(n, 9);
    } else if length > 8 {
      Decimal.Pow10Monotone(8, length - 1);
    }
  }

  // ---------------------------------------------------------------------------
  // Hook records

  /** The hook methods the monitor wraps, in this order. */
  const PluginMethods: seq<string> :=
    ["option", "load", "resolveId", "transform", "transformBundle", "intro", "outro", "banner", "footer"]

  const NameRequired: string := "A plugin should have a name to be monitored."
  const StringExpected: string := "Invalid argument: string expected."

  lemma PluginMethodsDistinct()
    ensures Distinct(PluginMethods)
  {
  }

  /** `args[i]`; past the end it is `undefined`, a falsy value that is not a string. */
  function Argument(args: seq<Value>, i: nat): (v: Value)
    ensures i < |args| ==> v == args[i]
    ensures i >= |args| ==> !v.Str? && !v.IsTruthy()
  {
    if i < |args| then args[i] else NonString(false)
  }

  /**
   * The record a completed call of hook `methodName` produces, or the error
   * the monitor throws instead:
   * - `transform` with a truthy result is on its second argument;
   * - `resolveId` and `load` are on their first argument, from their second;
   * - every other call, `transform` with a falsy result included, has no file.
   * A file argument that is not a string is an error.
   */
  function HookCallFor(pluginName: string, methodName: string, elapsed: nat, args: seq<Value>, result: Value)
    : (r: Result<HookCall, Error>)
    ensures r.Success? ==>
      r.value.sourceName == pluginName && r.value.hookName == methodName && r.value.GetExecutionTime() == elapsed
    ensures r.Failure? ==> r.error == Thrown(StringExpected)
    ensures methodName == "transform" && result.IsTruthy() ==>
      (r.Success? <==> Argument(args, 1).Str?) &&
      (r.Success? ==> r.value.fromFile == None && r.value.GetOnFile() == Some(Argument(args, 1).text))
    ensures methodName == "resolveId" || methodName == "load" ==>
      (r.Success? <==> Argument(args, 0).Str? && Argument(args, 1).Str?) &&
      (r.Success? ==>
        r.value.fromFile == Some(Argument(args, 1).text) && r.value.GetOnFile() == Some(Argument(args, 0).text))
    ensures !(methodName == "transform" && result.IsTruthy()) && methodName != "resolveId" && methodName != "load" ==>
      r.Success? && r.value.fromFile == None && r.value.GetOnFile() == None
  {
    if methodName == "transform" && result.IsTruthy() then
      // `_monitorMethodCall` names the transformed file `fromFile` and passes it as `onFile`
      var fromFile := Argument(args, 1);
      if !fromFile.Str? then Failure(Thrown(StringExpected))
      else Success(NewHookCall(pluginName, methodName, elapsed, None, Some(fromFile.text)))
    else if methodName == "resolveId" || methodName == "load" then
      // the second argument is checked first and becomes `fromFile`; the first becomes `onFile`
      var toFile := Argument(args, 1);
      if !toFile.Str? then Failure(Thrown(StringExpected))
      else
        var fromFile := Argument(args, 0);
        if !fromFile.Str? then Failure(Thrown(StringExpected))
        else Success(NewHookCall(pluginName, methodName, elapsed, Some(toFile.text), Some(fromFile.text)))
    else
      Success(NewHookCall(pluginName, methodName, elapsed))
  }

  /** Which hooks can carry files, and which can fail, whatever the arguments. */
  lemma HookCallForFiles(pluginName: string, methodName: string, elapsed: nat, args: seq<Value>, result: Value)
    ensures var r := HookCallFor(pluginName, methodName, elapsed, args, result);
      && (r.Failure? ==> methodName in {"transform", "resolveId", "load"})
      && (r.Success? && r.value.GetOnFile().Some? ==> methodName in {"transform", "resolveId", "load"})
      && (r.Success? && r.value.fromFile.Some? ==> methodName in {"resolveId", "load"})
  {
  }

  // ---------------------------------------------------------------------------
  // Instrumenting a plugin

  /**
   * A plugin's members once every callable member named in `methods` is
   * replaced by a timing proxy: the same keys, the same callable keys, and
   * every other member untouched.
   */
  function Instrumented(pluginName: string, members: map<string, Member>, methods: seq<string>)
    : (r: map<string, Member>)
    ensures r.Keys == members.Keys
    ensures forall k :: k in members ==> (r[k].IsCallable() <==> members[k].IsCallable())
    ensures forall k :: k in members && k !in methods ==> r[k] == members[k]
    ensures forall k :: k in members && !members[k].IsCallable() ==> r[k] == members[k]
    ensures forall k :: k in members && k in methods && members[k].IsCallable() ==>
      r[k] == Timed(pluginName, k, members[k])
  {
    map k | k in members :: if k in methods && members[k].IsCallable() then Timed(pluginName, k, members[k]) else members[k]
  }

  /**
   * Wrapping the hooks in proxies keeps them functions, so the report lists
   * the same implemented hooks for a plugin before and after it is monitored.
   */
  lemma {:induction false} InstrumentedImplements(name: string, members: map<string, Member>, methods: seq<string>, ms: seq<string>)
    ensures ImplementedMethods(PluginInfo(name, Instrumented(name, members, methods)), ms)
      == ImplementedMethods(PluginInfo(name, members), ms)
  {
    if ms != [] {
      var m := ms[|ms| - 1];
      InstrumentedImplements(name, members, methods, ms[..|ms| - 1]);
      ImplementsCallable(PluginInfo(name, members), m);
      ImplementsCallable(PluginInfo(name, Instrumented(name, members, methods)), m);
    }
  }

  /** The snapshots of registered plugins that the report reads. */
  function Infos(plugins: seq<Plugin>): (infos: seq<PluginInfo>)
    reads plugins
    requires forall p :: p in plugins ==> p.HasName()
    ensures |infos| == |plugins|
    ensures forall i :: 0 <= i < |plugins| ==> infos[i] == plugins[i].Info()
  {
    if plugins == [] then [] else Infos(plugins[..|plugins| - 1]) + [plugins[|plugins| - 1].Info()]
  }

  // ---------------------------------------------------------------------------
  // The monitor

  class Monitor {
    var plugins: seq<Plugin>
    var callsHistory: seq<HookCall>

    /** Every registered plugin passed the name check. */
    ghost predicate Valid()
      reads this
    {
      forall p :: p in plugins ==> p.HasName()
    }

    constructor ()
      ensures Valid() && plugins == [] && callsHistory == []
    {
      plugins := [];
      callsHistory := [];
    }

    /**
     * Registers `plugin` and wraps its monitored hook methods in place; a
     * plugin without a name is refused and nothing changes.
     */
    method MonitorPlugin(plugin: Plugin) returns (r: Result<Plugin, Error>)
      requires Valid()
      modifies this, plugin
      ensures Valid()
      ensures callsHistory == old(callsHistory)
      ensures r.Failure? <==> !plugin.HasName()
      ensures r.Failure? ==>
        r.error == Thrown(NameRequired) && plugins == old(plugins) && plugin.members == old(plugin.members)
      ensures r.Success? ==>
        && r.value == plugin
        && plugins == old(plugins) + [plugin]
        && plugin.members == Instrumented(plugin.name.value, old(plugin.members), PluginMethods)
    {
      if !plugin.HasName() {
        return Failure(Thrown(NameRequired));
      }
      plugins := plugins + [plugin];
      PluginMethodsDistinct();
      var i := 0;
      while i < |PluginMethods|
        invariant 0 <= i <= |PluginMethods|
        invariant plugins == old(plugins) + [plugin] && callsHistory == old(callsHistory)
        invariant plugin.members == Instrumented(plugin.name.value, old(plugin.members), PluginMethods[..i])
      {
        MonitorPluginMethod(plugin, PluginMethods[i]);
        InstrumentedStep(plugin.name.value, old(plugin.members), PluginMethods, i);
        i := i + 1;
      }
      assert PluginMethods[..i] == PluginMethods;
      return Success(plugin);
    }

    /** Puts a timing proxy in place of member `methodName` if it is callable. */
    method MonitorPluginMethod(plugin: Plugin, methodName: string)
      requires plugin.HasName()
      modifies plugin
      ensures plugin.members ==
        if methodName in old(plugin.members) && old(plugin.members)[methodName].IsCallable()
        then old(plugin.members)[methodName := Timed(plugin.name.value, methodName, old(plugin.members)[methodName])]
        else old(plugin.members)
    {
      var pluginName := plugin.name.value;
      if methodName !in plugin.members || !plugin.members[methodName].IsCallable() {
        return;
      }
      plugin.members := plugin.members[methodName := Timed(pluginName, methodName, plugin.members[methodName])];
    }

    /**
     * A call of the timing proxy `proxy`, given the outcome of the member it
     * wraps: a failed call propagates unchanged and records nothing; a
     * successful one records one call and returns the original value, unless
     * the record cannot be built, in which case that error is thrown instead.
     */
    method InvokeProxy(proxy: Member, args: seq<Value>, original: Result<Value, Error>, elapsed: Hrtime)
      returns (r: Result<Value, Error>)
      requires proxy.Timed?
      modifies this
      ensures plugins == old(plugins)
      ensures original.Failure? ==> r == original && callsHistory == old(callsHistory)
      ensures original.Success? ==>
        var record := HookCallFor(proxy.pluginName, proxy.hookName, HrtimeToNanoSecond(elapsed), args, original.value);
        if record.Success? then r == original && callsHistory == old(callsHistory) + [record.value]
        else r == Failure(record.error) && callsHistory == old(callsHistory)
      ensures r.Success? ==> r == original
      ensures |callsHistory| == |old(callsHistory)| + (if r.Success? then 1 else 0)
      ensures callsHistory[..|old(callsHistory)|] == old(callsHistory)
    {
      if original.Failure? {
        return original;
      }
      var status := MonitorMethodCall(
        proxy.pluginName, proxy.hookName, HrtimeToNanoSecond(elapsed), args, original.value);
      if status.Fail? {
        return Failure(status.error);
      }
      return original;
    }

    /** Builds the record of one completed call and appends it, or throws. */
    method MonitorMethodCall(
      pluginName: string, methodName: string, elapsedTimeInNanoSecond: nat, args: seq<Value>, result: Value)
      returns (status: Outcome<Error>)
      modifies this
      ensures plugins == old(plugins)
      ensures match HookCallFor(pluginName, methodName, elapsedTimeInNanoSecond, args, result)
        case Success(call) => status == Pass && callsHistory == old(callsHistory) + [call]
        case Failure(e) => status == Fail(e) && callsHistory == old(callsHistory)
    {
      var call := HookCallFor(pluginName, methodName, elapsedTimeInNanoSecond, args, result);
      if call.Failure? {
        return Fail(call.error);
      }
      callsHistory := callsHistory + [call.value];
      return Pass;
    }

    /** The report over the registered plugins and the recorded calls; nothing changes. */
    method Report() returns (lines: seq<string>)
      requires Valid()
      ensures lines == ReportLines(Infos(plugins), PluginMethods, callsHistory)
    {
      var infos := Infos(plugins);
      var reporter := new Reporter(infos, PluginMethods, callsHistory);
      reporter.Report();
      assert reporter.output == ReportLines(infos, PluginMethods, callsHistory);
      lines := reporter.output;
      assert Infos(plugins) == infos;
    }
  }

  lemma InstrumentedStep(pluginName: string, members: map<string, Member>, methods: seq<string>, i: nat)
    requires Distinct(methods) && i < |methods|
    ensures var current := Instrumented(pluginName, members, methods[..i]);
      var m := methods[i];
      Instrumented(pluginName, members, methods[..i + 1])
        == if m in current && current[m].IsCallable()
           then current[m := Timed(pluginName, m, current[m])]
           else current
  {
    var m := methods[i];
    assert m !in methods[..i];
    assert forall k :: k in methods[..i + 1] <==> k in methods[..i] || k == m;
  }

  /** Reporting twice over the same state gives the same lines. */
  method ReportTwice(monitor: Monitor) returns (first: seq<string>, second: seq<string>)
    requires monitor.Valid()
    ensures first == second
  {
    first := monitor.Report();
    second := monitor.Report();
  }
}
