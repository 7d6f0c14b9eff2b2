/**
 * The report engine: sums of recorded nanoseconds by plugin, by plugin and
 * hook, and by file, rounded to milliseconds only for display, and the exact
 * sequence of text lines the report writes.
 *
 * The functions are the specification; the class `Reporter` runs the loops
 * of `Reporter.js` and is proved to write exactly `ReportLines`.
 */
module Reporting {
  import opened Wrappers
  import opened HookCalls
  import opened Plugins
  import Decimal

  // ---------------------------------------------------------------------------
  // Rounding and sums

  /** Nanoseconds to the nearest whole millisecond, a half rounding up. */
  function NanoSecondToMiliSecond(ns: nat): (ms: nat)
    ensures ms * 1000000 - 500000 <= ns < ms * 1000000 + 500000
  {
    (ns + 500000) / 1000000
  }

  lemma RoundingExamples()
    ensures NanoSecondToMiliSecond(1499999) == 1
    ensures NanoSecondToMiliSecond(1500000) == 2
    ensures NanoSecondToMiliSecond(0) == 0
  {
  }

  /** How a millisecond count is printed: `${ms}ms`. */
  function Milliseconds(ns: nat): string {
    Decimal.Show(NanoSecondToMiliSecond(ns)) + "ms"
  }

  /** The total execution time of a list of calls, summed left to right. */
  function ExecutionTime(calls: seq<HookCall>): (total: nat)
    ensures calls == [] ==> total == 0
  {
    if calls == [] then 0
    else ExecutionTime(calls[..|calls| - 1]) + calls[|calls| - 1].GetExecutionTime()
  }

  /** The sum of a list of nanosecond totals, summed left to right. */
  function SumArray(values: seq<nat>): (total: nat)
    ensures values == [] ==> total == 0
  {
    if values == [] then 0 else SumArray(values[..|values| - 1]) + values[|values| - 1]
  }

  lemma {:induction false} ExecutionTimeAppend(a: seq<HookCall>, b: seq<HookCall>)
    ensures ExecutionTime(a + b) == ExecutionTime(a) + ExecutionTime(b)
  {
    if b == [] {
      assert a + b == a;
    } else {
      assert (a + b)[..|a + b| - 1] == a + b[..|b| - 1];
      ExecutionTimeAppend(a, b[..|b| - 1]);
    }
  }

  lemma {:induction false} SumArrayAppend(a: seq<nat>, b: seq<nat>)
    ensures SumArray(a + b) == SumArray(a) + SumArray(b)
  {
    if b == [] {
      assert a + b == a;
    } else {
      assert (a + b)[..|a + b| - 1] == a + b[..|b| - 1];
      SumArrayAppend(a, b[..|b| - 1]);
    }
  }

  // ---------------------------------------------------------------------------
  // Filters

  /** The calls that satisfy `keep`, in their original order. */
  function Filter(calls: seq<HookCall>, keep: HookCall -> bool): (r: seq<HookCall>)
    ensures |r| <= |calls|
    ensures forall c :: c in r <==> c in calls && keep(c)
    ensures (forall k :: 0 <= k < |calls| ==> keep(calls[k])) ==> r == calls
  {
    if calls == [] then []
    else
      var last := calls[|calls| - 1];
      assert calls == calls[..|calls| - 1] + [last];
      Filter(calls[..|calls| - 1], keep) + (if keep(last) then [last] else [])
  }

  /** Filtering commutes with concatenation, so it keeps the original order. */
  lemma {:induction false} FilterAppend(a: seq<HookCall>, b: seq<HookCall>, keep: HookCall -> bool)
    ensures Filter(a + b, keep) == Filter(a, keep) + Filter(b, keep)
  {
    if b == [] {
      assert a + b == a;
    } else {
      var b' := b[..|b| - 1];
      assert (a + b)[..|a + b| - 1] == a + b';
      FilterAppend(a, b', keep);
    }
  }

  /** The calls of `history` made by plugin `pluginName`. */
  function PluginCallHistory(history: seq<HookCall>, pluginName: string): (r: seq<HookCall>)
    ensures |r| <= |history|
    ensures forall c :: c in r <==> c in history && c.IsFromPlugin(pluginName)
  {
    Filter(history, (c: HookCall) => c.IsFromPlugin(pluginName))
  }

  /** The calls of hook `methodName` of plugin `pluginName`. */
  function MethodCallHistory(history: seq<HookCall>, pluginName: string, methodName: string): (r: seq<HookCall>)
    ensures |r| <= |history|
    ensures forall c :: c in r <==> c in history && c.IsFromMethod(pluginName, methodName)
  {
    Filter(history, (c: HookCall) => c.IsFromMethod(pluginName, methodName))
  }

  /** The calls on file `file`. */
  function FileHistory(history: seq<HookCall>, file: string): (r: seq<HookCall>)
    ensures |r| <= |history|
    ensures forall c :: c in r <==> c in history && c.IsOnFile(file)
  {
    Filter(history, (c: HookCall) => c.IsOnFile(file))
  }

  // ---------------------------------------------------------------------------
  // Working files

  /** A working file: a non-empty path that some call is on. */
  predicate IsWorkingFile(history: seq<HookCall>, file: string) {
    file != "" && exists k :: 0 <= k < |history| && history[k].IsOnFile(file)
  }

  /**
   * The distinct non-empty `onFile` paths of `history`, in the order a set
   * filled call by call holds them.
   */
  function WorkingFiles(history: seq<HookCall>): (files: seq<string>)
    ensures forall i, j :: 0 <= i < j < |files| ==> files[i] != files[j]
    ensures forall f :: f in files <==> IsWorkingFile(history, f)
  {
    if history == [] then []
    else
      var h' := history[..|history| - 1];
      var files := WorkingFiles(h');
      var path := history[|history| - 1].GetOnFile();
      assert forall f :: IsWorkingFile(history, f) <==>
        IsWorkingFile(h', f) || (f != "" && history[|history| - 1].IsOnFile(f)) by {
        forall f | IsWorkingFile(history, f)
          ensures IsWorkingFile(h', f) || (f != "" && history[|history| - 1].IsOnFile(f))
        {
          var k :| 0 <= k < |history| && history[k].IsOnFile(f);
          if k < |h'| { assert h'[k] == history[k]; }
        }
        forall f | IsWorkingFile(h', f) ensures IsWorkingFile(history, f) {
          var k :| 0 <= k < |h'| && h'[k].IsOnFile(f);
          assert history[k] == h'[k];
        }
      }
      if path.Some? && path.value != "" && path.value !in files then files + [path.value] else files
  }

  /** The index of the first call on `file`, or `|history|` when there is none. */
  function FirstCallOn(history: seq<HookCall>, file: string): (k: nat)
    ensures k <= |history|
    ensures k < |history| ==> history[k].IsOnFile(file)
    ensures forall j :: 0 <= j < k ==> !history[j].IsOnFile(file)
  {
    if history == [] then 0
    else if history[0].IsOnFile(file) then 0
    else 1 + FirstCallOn(history[1..], file)
  }

  lemma FirstCallOnExtend(history: seq<HookCall>, c: HookCall, file: string)
    ensures FirstCallOn(history, file) < |history| ==>
      FirstCallOn(history + [c], file) == FirstCallOn(history, file)
    ensures FirstCallOn(history, file) == |history| && c.IsOnFile(file) ==>
      FirstCallOn(history + [c], file) == |history|
  {
    var h := history + [c];
    var k, k' := FirstCallOn(history, file), FirstCallOn(h, file);
    if k < |history| {
      assert h[k] == history[k];
    } else if c.IsOnFile(file) {
      assert h[|history|] == c;
    }
  }

  /** Working files come in the order of their first appearance. */
  lemma {:induction false} WorkingFilesFirstSeenOrder(history: seq<HookCall>, i: nat, j: nat)
    requires i < j < |WorkingFiles(history)|
    ensures FirstCallOn(history, WorkingFiles(history)[i]) < FirstCallOn(history, WorkingFiles(history)[j]) < |history|
  {
    var h' := history[..|history| - 1];
    var c := history[|history| - 1];
    assert history == h' + [c];
    var files, files' := WorkingFiles(history), WorkingFiles(h');
    var fi, fj := files[i], files[j];
    FirstCallOnExtend(h', c, fi);
    FirstCallOnExtend(h', c, fj);
    WorkingFileIsSeen(h', fi);
    if j < |files'| {
      assert files'[i] == fi && files'[j] == fj;
      WorkingFilesFirstSeenOrder(h', i, j);
    } else {
      assert files == files' + [fj];
      assert fi in files';
      WorkingFileIsSeen(h', fi);
      assert fj !in files';
      assert !IsWorkingFile(h', fj);
      NotSeen(h', fj);
    }
  }

  lemma WorkingFileIsSeen(history: seq<HookCall>, file: string)
    ensures IsWorkingFile(history, file) ==> FirstCallOn(history, file) < |history|
  {
    if IsWorkingFile(history, file) {
      var k :| 0 <= k < |history| && history[k].IsOnFile(file);
    }
  }

  lemma NotSeen(history: seq<HookCall>, file: string)
    requires file != "" && !IsWorkingFile(history, file)
    ensures FirstCallOn(history, file) == |history|
  {
    var k := FirstCallOn(history, file);
  }

  // ---------------------------------------------------------------------------
  // The per-plugin summary

  /** The monitored methods a plugin implements, in monitored order. */
  function ImplementedMethods(plugin: PluginInfo, methods: seq<string>): (r: seq<string>)
    ensures |r| <= |methods|
    ensures forall m :: m in r <==> m in methods && plugin.Implements(m)
    ensures Distinct(methods) ==> Distinct(r)
  {
    if methods == [] then []
    else
      var r := ImplementedMethods(plugin, methods[..|methods| - 1]);
      var m := methods[|methods| - 1];
      assert methods == methods[..|methods| - 1] + [m];
      if plugin.Implements(m) then r + [m] else r
  }

  predicate Distinct(xs: seq<string>) {
    forall i, j :: 0 <= i < j < |xs| ==> xs[i] != xs[j]
  }

  predicate DistinctNames(plugins: seq<PluginInfo>) {
    forall i, j :: 0 <= i < j < |plugins| ==> plugins[i].name != plugins[j].name
  }

  function MethodTotal(history: seq<HookCall>, pluginName: string, methodName: string): nat {
    ExecutionTime(MethodCallHistory(history, pluginName, methodName))
  }

  function NotCalledLine(pluginName: string, methodName: string): string {
    ">>> " + pluginName + "." + methodName + " has not been called"
  }

  function MethodLine(history: seq<HookCall>, pluginName: string, methodName: string): string {
    if MethodCallHistory(history, pluginName, methodName) == [] then
      NotCalledLine(pluginName, methodName)
    else
      ">>> " + pluginName + "." + methodName + " total call execution time: "
        + Milliseconds(MethodTotal(history, pluginName, methodName))
  }

  function MethodLines(history: seq<HookCall>, pluginName: string, methods: seq<string>): seq<string> {
    if methods == [] then []
    else
      MethodLines(history, pluginName, methods[..|methods| - 1])
        + [MethodLine(history, pluginName, methods[|methods| - 1])]
  }

  function MethodTotals(history: seq<HookCall>, pluginName: string, methods: seq<string>): seq<nat> {
    if methods == [] then []
    else
      MethodTotals(history, pluginName, methods[..|methods| - 1])
        + [MethodTotal(history, pluginName, methods[|methods| - 1])]
  }

  /** The exact nanoseconds of a plugin: the sum of its implemented methods' totals. */
  function PluginTotal(history: seq<HookCall>, methods: seq<string>, plugin: PluginInfo): nat {
    SumArray(MethodTotals(history, plugin.name, ImplementedMethods(plugin, methods)))
  }

  function PluginSection(history: seq<HookCall>, methods: seq<string>, plugin: PluginInfo): seq<string> {
    ["> " + plugin.name + ":"]
      + MethodLines(history, plugin.name, ImplementedMethods(plugin, methods))
      + [">> " + plugin.name + " total call execution time: " + Milliseconds(PluginTotal(history, methods, plugin))]
  }

  function PluginTotals(history: seq<HookCall>, methods: seq<string>, plugins: seq<PluginInfo>): seq<nat> {
    if plugins == [] then []
    else
      PluginTotals(history, methods, plugins[..|plugins| - 1])
        + [PluginTotal(history, methods, plugins[|plugins| - 1])]
  }

  function AllPluginsTotal(history: seq<HookCall>, methods: seq<string>, plugins: seq<PluginInfo>): nat {
    SumArray(PluginTotals(history, methods, plugins))
  }

  /** Each plugin's section followed by an empty line. */
  function PluginSections(history: seq<HookCall>, methods: seq<string>, plugins: seq<PluginInfo>): seq<string> {
    if plugins == [] then []
    else
      PluginSections(history, methods, plugins[..|plugins| - 1])
        + PluginSection(history, methods, plugins[|plugins| - 1]) + [""]
  }

  function AllPluginsTotalLine(history: seq<HookCall>, methods: seq<string>, plugins: seq<PluginInfo>): string {
    "> total execution time in all plugins: " + Milliseconds(AllPluginsTotal(history, methods, plugins))
  }

  function CallSummaryLines(history: seq<HookCall>, methods: seq<string>, plugins: seq<PluginInfo>): seq<string> {
    PluginSections(history, methods, plugins) + [AllPluginsTotalLine(history, methods, plugins)]
  }

  // ---------------------------------------------------------------------------
  // The per-file summary

  function PluginFileTotal(fileHistory: seq<HookCall>, pluginName: string): nat {
    ExecutionTime(PluginCallHistory(fileHistory, pluginName))
  }

  function PluginFileLine(fileHistory: seq<HookCall>, pluginName: string): string {
    ">>> " + pluginName + " takes " + Milliseconds(PluginFileTotal(fileHistory, pluginName)) + " to process it"
  }

  function PluginFileLines(fileHistory: seq<HookCall>, plugins: seq<PluginInfo>): seq<string> {
    if plugins == [] then []
    else
      PluginFileLines(fileHistory, plugins[..|plugins| - 1])
        + [PluginFileLine(fileHistory, plugins[|plugins| - 1].name)]
  }

  function PluginFileTotals(fileHistory: seq<HookCall>, plugins: seq<PluginInfo>): seq<nat> {
    if plugins == [] then []
    else
      PluginFileTotals(fileHistory, plugins[..|plugins| - 1])
        + [PluginFileTotal(fileHistory, plugins[|plugins| - 1].name)]
  }

  function FileTotal(history: seq<HookCall>, plugins: seq<PluginInfo>, file: string): nat {
    SumArray(PluginFileTotals(FileHistory(history, file), plugins))
  }

  function FileSection(history: seq<HookCall>, plugins: seq<PluginInfo>, file: string): seq<string> {
    ["> file \"" + file + "\""]
      + PluginFileLines(FileHistory(history, file), plugins)
      + ["> total call execution time: " + Milliseconds(FileTotal(history, plugins, file))]
  }

  /** Each file's section followed by an empty line. */
  function FileSections(history: seq<HookCall>, plugins: seq<PluginInfo>, files: seq<string>): seq<string> {
    if files == [] then []
    else
      FileSections(history, plugins, files[..|files| - 1])
        + FileSection(history, plugins, files[|files| - 1]) + [""]
  }

  function FileSummaryLines(history: seq<HookCall>, plugins: seq<PluginInfo>): seq<string> {
    FileSections(history, plugins, WorkingFiles(history))
  }

  /** The whole report: an empty line, the per-plugin summary, the per-file summary. */
  function ReportLines(plugins: seq<PluginInfo>, methods: seq<string>, history: seq<HookCall>): seq<string> {
    [""] + CallSummaryLines(history, methods, plugins) + FileSummaryLines(history, plugins)
  }

  // ---------------------------------------------------------------------------
  // What the report promises

  /** The "has not been called" line is printed exactly for a hook with no call, which adds 0. */
  lemma NotCalledIff(history: seq<HookCall>, pluginName: string, methodName: string)
    ensures MethodLine(history, pluginName, methodName) == NotCalledLine(pluginName, methodName)
      <==> MethodCallHistory(history, pluginName, methodName) == []
    ensures MethodCallHistory(history, pluginName, methodName) == [] ==> MethodTotal(history, pluginName, methodName) == 0
  {
    var prefix := ">>> " + pluginName + "." + methodName;
    if MethodCallHistory(history, pluginName, methodName) != [] {
      var line := MethodLine(history, pluginName, methodName);
      assert line[|prefix| + 1] == 't';
      assert NotCalledLine(pluginName, methodName)[|prefix| + 1] == 'h';
    }
  }

  /** The number of lines of the per-plugin sections: Σ (implemented methods + 3). */
  function PerPluginLineCount(methods: seq<string>, plugins: seq<PluginInfo>): nat {
    if plugins == [] then 0
    else
      PerPluginLineCount(methods, plugins[..|plugins| - 1])
        + |ImplementedMethods(plugins[|plugins| - 1], methods)| + 3
  }

  lemma {:induction false} MethodLinesLength(history: seq<HookCall>, pluginName: string, methods: seq<string>)
    ensures |MethodLines(history, pluginName, methods)| == |methods|
  {
    if methods != [] {
      MethodLinesLength(history, pluginName, methods[..|methods| - 1]);
    }
  }

  lemma {:induction false} PluginSectionsLength(history: seq<HookCall>, methods: seq<string>, plugins: seq<PluginInfo>)
    ensures |PluginSections(history, methods, plugins)| == PerPluginLineCount(methods, plugins)
  {
    if plugins != [] {
      var p := plugins[|plugins| - 1];
      PluginSectionsLength(history, methods, plugins[..|plugins| - 1]);
      MethodLinesLength(history, p.name, ImplementedMethods(p, methods));
    }
  }

  /** One line per registered plugin, in registration order, 0 ms ones included. */
  lemma {:induction false} PluginFileLinesContent(fileHistory: seq<HookCall>, plugins: seq<PluginInfo>)
    ensures |PluginFileLines(fileHistory, plugins)| == |plugins|
    ensures forall i :: 0 <= i < |plugins| ==>
      PluginFileLines(fileHistory, plugins)[i] == PluginFileLine(fileHistory, plugins[i].name)
  {
    if plugins != [] {
      var ps := plugins[..|plugins| - 1];
      PluginFileLinesContent(fileHistory, ps);
      var lines := PluginFileLines(fileHistory, plugins);
      var done := PluginFileLines(fileHistory, ps);
      forall i | 0 <= i < |ps|
        ensures lines[i] == PluginFileLine(fileHistory, plugins[i].name)
      {
        assert lines[i] == done[i];
        assert ps[i] == plugins[i];
      }
    }
  }

  lemma {:induction false} FileSectionsLength(history: seq<HookCall>, plugins: seq<PluginInfo>, files: seq<string>)
    ensures |FileSections(history, plugins, files)| == |files| * (|plugins| + 3)
  {
    if files != [] {
      var f := files[|files| - 1];
      FileSectionsLength(history, plugins, files[..|files| - 1]);
      PluginFileLinesContent(FileHistory(history, f), plugins);
      assert (|files| - 1) * (|plugins| + 3) + (|plugins| + 3) == |files| * (|plugins| + 3);
    }
  }

  /**
   * The report is one empty line, Σ (implemented methods + 3) lines of plugin
   * sections, the all-plugins total, and |plugins| + 3 lines per working file.
   */
  lemma ReportLineCount(plugins: seq<PluginInfo>, methods: seq<string>, history: seq<HookCall>)
    ensures |ReportLines(plugins, methods, history)|
      == 1 + PerPluginLineCount(methods, plugins) + 1 + |WorkingFiles(history)| * (|plugins| + 3)
  {
    PluginSectionsLength(history, methods, plugins);
    FileSectionsLength(history, plugins, WorkingFiles(history));
  }

  /** A printed duration is the rounded millisecond count in decimal, followed by "ms". */
  lemma MillisecondsShape(ns: nat)
    ensures var s := Milliseconds(ns);
      && |s| >= 3 && s[|s| - 2..] == "ms"
      && Decimal.AllDigits(s[..|s| - 2]) && Decimal.Parse(s[..|s| - 2]) == NanoSecondToMiliSecond(ns)
  {
    var digits := Decimal.Show(NanoSecondToMiliSecond(ns));
    Decimal.ShowDigits(NanoSecondToMiliSecond(ns));
    assert Milliseconds(ns)[..|digits|] == digits;
  }

  /** Either line for a hook starts with ">>> plugin.method". */
  lemma MethodLineShape(history: seq<HookCall>, pluginName: string, methodName: string)
    ensures var prefix := ">>> " + pluginName + "." + methodName;
      var line := MethodLine(history, pluginName, methodName);
      |prefix| < |line| && line[..|prefix|] == prefix
  {
    var prefix := ">>> " + pluginName + "." + methodName;
    var line := MethodLine(history, pluginName, methodName);
    if MethodCallHistory(history, pluginName, methodName) == [] {
      assert line == prefix + " has not been called";
    } else {
      assert line == prefix + (" total call execution time: " + Milliseconds(MethodTotal(history, pluginName, methodName)));
    }
  }

  /**
   * A plugin section: the "> name:" header, the lines of the implemented
   * monitored methods in monitored order, and the plugin's total line.
   */
  lemma PluginSectionShape(history: seq<HookCall>, methods: seq<string>, plugin: PluginInfo)
    ensures var r := PluginSection(history, methods, plugin);
      var ms := ImplementedMethods(plugin, methods);
      && |r| == |ms| + 2
      && r[0] == "> " + plugin.name + ":"
      && r[1..|r| - 1] == MethodLines(history, plugin.name, ms)
      && r[|r| - 1] == ">> " + plugin.name + " total call execution time: " + Milliseconds(PluginTotal(history, methods, plugin))
  {
    var ms := ImplementedMethods(plugin, methods);
    MethodLinesLength(history, plugin.name, ms);
  }

  /**
   * A file section: the "> file" header, one line per registered plugin with
   * its time on the file, and the file's total line.
   */
  lemma FileSectionShape(history: seq<HookCall>, plugins: seq<PluginInfo>, file: string)
    ensures var r := FileSection(history, plugins, file);
      && |r| == |plugins| + 2
      && r[0] == "> file \"" + file + "\""
      && r[1..|r| - 1] == PluginFileLines(FileHistory(history, file), plugins)
      && r[|r| - 1] == "> total call execution time: " + Milliseconds(FileTotal(history, plugins, file))
  {
    PluginFileLinesContent(FileHistory(history, file), plugins);
  }

  /** The closing line of the call summary prints the all-plugins total, rounded to milliseconds. */
  lemma AllPluginsTotalLineShape(history: seq<HookCall>, methods: seq<string>, plugins: seq<PluginInfo>)
    ensures var prefix := "> total execution time in all plugins: ";
      var line := AllPluginsTotalLine(history, methods, plugins);
      && |line| >= |prefix| + 3 && line[..|prefix|] == prefix && line[|line| - 2..] == "ms"
      && Decimal.AllDigits(line[|prefix|..|line| - 2])
      && Decimal.Parse(line[|prefix|..|line| - 2]) == NanoSecondToMiliSecond(AllPluginsTotal(history, methods, plugins))
  {
    var prefix := "> total execution time in all plugins: ";
    var ms := Milliseconds(AllPluginsTotal(history, methods, plugins));
    MillisecondsShape(AllPluginsTotal(history, methods, plugins));
    var line := AllPluginsTotalLine(history, methods, plugins);
    assert line[|prefix|..] == ms;
    assert line[|prefix|..|line| - 2] == ms[..|ms| - 2];
  }

  /**
   * The report opens with an empty line; the all-plugins total follows the
   * plugin sections, and the file sections come last.
   */
  lemma ReportLinesShape(plugins: seq<PluginInfo>, methods: seq<string>, history: seq<HookCall>)
    ensures var r := ReportLines(plugins, methods, history);
      var n := PerPluginLineCount(methods, plugins);
      && |r| >= n + 2
      && r[0] == ""
      && r[n + 1] == AllPluginsTotalLine(history, methods, plugins)
      && r[n + 2..] == FileSummaryLines(history, plugins)
  {
    PluginSectionsLength(history, methods, plugins);
    var sections := PluginSections(history, methods, plugins);
    AppendAssoc([""] + sections, [AllPluginsTotalLine(history, methods, plugins)], FileSummaryLines(history, plugins));
  }

  /**
   * Plugin names are not checked for uniqueness, and every total filters the
   * history by name once per registered plugin: with the same plugin
   * registered twice, a single call counts twice in the all-plugins total and
   * in its file's total, while the calls it covers take that time once.
   */
  lemma SameNamedPluginsCountTwice(p: PluginInfo, c: HookCall, file: string)
    requires MonitoredBy(p, [c.hookName], c) && c.IsOnFile(file)
    ensures ExecutionTime(Filter([c], (x: HookCall) => Attributed([p, p], [c.hookName], x))) == c.executionTime
    ensures AllPluginsTotal([c], [c.hookName], [p, p]) == 2 * c.executionTime
    ensures FileTotal([c], [p, p], file) == 2 * c.executionTime
  {
    var ms, ps, none := [c.hookName], [p, p], [];
    assert none + [c] == [c];
    assert Attributed(ps, ms, c) by { assert MonitoredBy(ps[0], ms, c); }
    FilteredTimeSnoc(none, c, (x: HookCall) => Attributed(ps, ms, x));
    OneMonitoredCall(p, c);
    CopiesAddUp(p, [c], ms);
    OneCallOnFile(p, c, file);
    FileCopiesAddUp(p, [c]);
  }

  lemma OneMonitoredCall(p: PluginInfo, c: HookCall)
    requires MonitoredBy(p, [c.hookName], c)
    ensures PluginTotal([c], [c.hookName], p) == c.executionTime
  {
    var none: seq<HookCall> := [];
    assert none + [c] == [c];
    ExecutionTimeSnoc(none, c);
    PluginTotalIsExactSum([c], [c.hookName], p);
  }

  lemma OneCallOnFile(p: PluginInfo, c: HookCall, file: string)
    requires c.IsFromPlugin(p.name) && c.IsOnFile(file)
    ensures FileHistory([c], file) == [c]
    ensures PluginFileTotal([c], p.name) == c.executionTime
  {
    var none := [];
    assert none + [c] == [c];
    FilterSnoc(none, c, (x: HookCall) => x.IsOnFile(file));
    FilteredTimeSnoc(none, c, (x: HookCall) => x.IsFromPlugin(p.name));
  }

  lemma CopiesAddUp(p: PluginInfo, history: seq<HookCall>, ms: seq<string>)
    ensures AllPluginsTotal(history, ms, [p, p]) == 2 * PluginTotal(history, ms, p)
  {
    var ps := [p, p];
    assert ps[..0] == [] && ps[..1] == [p] && ps[..2] == ps;
    PluginSectionsSnoc(history, ms, ps, 0);
    PluginSectionsSnoc(history, ms, ps, 1);
    SumArraySnoc([], PluginTotal(history, ms, p));
    SumArraySnoc([PluginTotal(history, ms, p)], PluginTotal(history, ms, p));
  }

  lemma FileCopiesAddUp(p: PluginInfo, fileHistory: seq<HookCall>)
    ensures SumArray(PluginFileTotals(fileHistory, [p, p])) == 2 * PluginFileTotal(fileHistory, p.name)
  {
    var ps := [p, p];
    assert ps[..0] == [] && ps[..1] == [p] && ps[..2] == ps;
    PluginFileLinesSnoc(fileHistory, ps, 0);
    PluginFileLinesSnoc(fileHistory, ps, 1);
    SumArraySnoc([], PluginFileTotal(fileHistory, p.name));
    SumArraySnoc([PluginFileTotal(fileHistory, p.name)], PluginFileTotal(fileHistory, p.name));
  }

  /** A plugin named "a" implementing `transform`, registered twice, counts one 5 ns call as 10 ns. */
  lemma SameNamedPluginsExample()
    ensures var p := PluginInfo("a", map["transform" := Method]);
      var c := HookCall("a", "transform", 5, None, Some("f"));
      AllPluginsTotal([c], ["transform"], [p, p]) == 10 && FileTotal([c], [p, p], "f") == 10
  {
    var p := PluginInfo("a", map["transform" := Method]);
    var c := HookCall("a", "transform", 5, None, Some("f"));
    assert MonitoredBy(p, [c.hookName], c);
    SameNamedPluginsCountTwice(p, c, "f");
  }

  /**
   * Two plugins named "a", one implementing only `transform`, one only `load`:
   * a 5 ns `transform` call of "a" counts once in the all-plugins total, since
   * only the plugin with that hook claims it, but twice in its file's total.
   */
  lemma SameNamedDifferentHooksExample()
    ensures var p := PluginInfo("a", map["transform" := Method]);
      var q := PluginInfo("a", map["load" := Method]);
      var c := HookCall("a", "transform", 5, None, Some("f"));
      AllPluginsTotal([c], ["load", "transform"], [p, q]) == 5 && FileTotal([c], [p, q], "f") == 10
  {
    var p := PluginInfo("a", map["transform" := Method]);
    var q := PluginInfo("a", map["load" := Method]);
    var c := HookCall("a", "transform", 5, None, Some("f"));
    var ms := ["load", "transform"];
    OneCallTotals(p, q, c, ms);
    TwoPluginsAddUp(p, q, [c], ms);
    OneCallOnFile(p, c, "f");
    OneCallOnFile(q, c, "f");
    TwoPluginsFileAddUp(p, q, [c]);
  }

  /** Over one call, a plugin's total is the call's time iff the plugin monitors it, else 0. */
  lemma OneCallTotals(p: PluginInfo, q: PluginInfo, c: HookCall, ms: seq<string>)
    requires Distinct(ms) && MonitoredBy(p, ms, c) && !MonitoredBy(q, ms, c)
    ensures PluginTotal([c], ms, p) == c.executionTime && PluginTotal([c], ms, q) == 0
  {
    var none: seq<HookCall> := [];
    assert none + [c] == [c];
    PluginTotalStep(none, c, ms, p);
    PluginTotalStep(none, c, ms, q);
    MethodTotalsOfNothing(p.name, ImplementedMethods(p, ms));
    MethodTotalsOfNothing(q.name, ImplementedMethods(q, ms));
  }

  /** With two registered plugins, the all-plugins total is the sum of their two totals. */
  lemma TwoPluginsAddUp(p: PluginInfo, q: PluginInfo, history: seq<HookCall>, ms: seq<string>)
    ensures AllPluginsTotal(history, ms, [p, q]) == PluginTotal(history, ms, p) + PluginTotal(history, ms, q)
  {
    var ps := [p, q];
    assert ps[..0] == [] && ps[..1] == [p] && ps[..2] == ps;
    PluginSectionsSnoc(history, ms, ps, 0);
    PluginSectionsSnoc(history, ms, ps, 1);
    SumArraySnoc([], PluginTotal(history, ms, p));
    SumArraySnoc([PluginTotal(history, ms, p)], PluginTotal(history, ms, q));
  }

  /** With two registered plugins, a file's plugin times sum to the two plugins' times on it. */
  lemma TwoPluginsFileAddUp(p: PluginInfo, q: PluginInfo, fileHistory: seq<HookCall>)
    ensures SumArray(PluginFileTotals(fileHistory, [p, q]))
      == PluginFileTotal(fileHistory, p.name) + PluginFileTotal(fileHistory, q.name)
  {
    var ps := [p, q];
    assert ps[..0] == [] && ps[..1] == [p] && ps[..2] == ps;
    PluginFileLinesSnoc(fileHistory, ps, 0);
    PluginFileLinesSnoc(fileHistory, ps, 1);
    SumArraySnoc([], PluginFileTotal(fileHistory, p.name));
    SumArraySnoc([PluginFileTotal(fileHistory, p.name)], PluginFileTotal(fileHistory, q.name));
  }

  lemma ExecutionTimeSnoc(calls: seq<HookCall>, c: HookCall)
    ensures ExecutionTime(calls + [c]) == ExecutionTime(calls) + c.executionTime
  {
    assert (calls + [c])[..|calls|] == calls;
  }

  lemma SumArraySnoc(values: seq<nat>, v: nat)
    ensures SumArray(values + [v]) == SumArray(values) + v
  {
    assert (values + [v])[..|values|] == values;
  }

  lemma FilterSnoc(calls: seq<HookCall>, c: HookCall, keep: HookCall -> bool)
    ensures Filter(calls + [c], keep) == Filter(calls, keep) + (if keep(c) then [c] else [])
  {
    assert (calls + [c])[..|calls|] == calls;
  }

  /** The exact time of a filtered history grows by one call's time when the call is kept. */
  lemma FilteredTimeSnoc(calls: seq<HookCall>, c: HookCall, keep: HookCall -> bool)
    ensures ExecutionTime(Filter(calls + [c], keep))
      == ExecutionTime(Filter(calls, keep)) + (if keep(c) then c.executionTime else 0)
  {
    FilterSnoc(calls, c, keep);
    if keep(c) {
      ExecutionTimeSnoc(Filter(calls, keep), c);
    } else {
      assert Filter(calls, keep) + [] == Filter(calls, keep);
    }
  }

  /** A call counts toward `plugin`'s total: its own call of a monitored method it implements. */
  predicate MonitoredBy(plugin: PluginInfo, methods: seq<string>, c: HookCall) {
    c.sourceName == plugin.name && c.hookName in methods && plugin.Implements(c.hookName)
  }

  /** A call counts toward some registered plugin's total. */
  predicate Attributed(plugins: seq<PluginInfo>, methods: seq<string>, c: HookCall) {
    exists i :: 0 <= i < |plugins| && MonitoredBy(plugins[i], methods, c)
  }

  /** A call comes from a registered plugin. */
  predicate FromRegisteredPlugin(plugins: seq<PluginInfo>, c: HookCall) {
    exists i :: 0 <= i < |plugins| && c.IsFromPlugin(plugins[i].name)
  }

  lemma {:induction false} MethodTotalsStep(history: seq<HookCall>, c: HookCall, pluginName: string, methods: seq<string>)
    requires Distinct(methods)
    ensures SumArray(MethodTotals(history + [c], pluginName, methods))
      == SumArray(MethodTotals(history, pluginName, methods))
        + (if c.sourceName == pluginName && c.hookName in methods then c.executionTime else 0)
  {
    if methods != [] {
      var ms, m := methods[..|methods| - 1], methods[|methods| - 1];
      assert methods == ms + [m];
      MethodTotalsStep(history, c, pluginName, ms);
      FilteredTimeSnoc(history, c, (c: HookCall) => c.IsFromMethod(pluginName, m));
      SumArraySnoc(MethodTotals(history + [c], pluginName, ms), MethodTotal(history + [c], pluginName, m));
      SumArraySnoc(MethodTotals(history, pluginName, ms), MethodTotal(history, pluginName, m));
    }
  }

  lemma {:induction false} MethodTotalsOfNothing(pluginName: string, methods: seq<string>)
    ensures SumArray(MethodTotals([], pluginName, methods)) == 0
  {
    if methods != [] {
      var ms, m := methods[..|methods| - 1], methods[|methods| - 1];
      MethodTotalsOfNothing(pluginName, ms);
      SumArraySnoc(MethodTotals([], pluginName, ms), MethodTotal([], pluginName, m));
    }
  }

  lemma PluginTotalStep(history: seq<HookCall>, c: HookCall, methods: seq<string>, plugin: PluginInfo)
    requires Distinct(methods)
    ensures PluginTotal(history + [c], methods, plugin)
      == PluginTotal(history, methods, plugin) + (if MonitoredBy(plugin, methods, c) then c.executionTime else 0)
  {
    MethodTotalsStep(history, c, plugin.name, ImplementedMethods(plugin, methods));
  }

  /**
   * A plugin's total is the exact nanosecond sum of its calls of the monitored
   * methods it implements; nothing is rounded before the one final rounding.
   */
  lemma {:induction false} PluginTotalIsExactSum(history: seq<HookCall>, methods: seq<string>, plugin: PluginInfo)
    requires Distinct(methods)
    ensures PluginTotal(history, methods, plugin)
      == ExecutionTime(Filter(history, (c: HookCall) => MonitoredBy(plugin, methods, c)))
  {
    if history == [] {
      MethodTotalsOfNothing(plugin.name, ImplementedMethods(plugin, methods));
    } else {
      var h', c := history[..|history| - 1], history[|history| - 1];
      assert history == h' + [c];
      PluginTotalIsExactSum(h', methods, plugin);
      PluginTotalStep(h', c, methods, plugin);
      FilteredTimeSnoc(h', c, (c: HookCall) => MonitoredBy(plugin, methods, c));
    }
  }

  lemma {:induction false} AllPluginsTotalStep(history: seq<HookCall>, c: HookCall, methods: seq<string>, plugins: seq<PluginInfo>)
    requires Distinct(methods) && DistinctNames(plugins)
    ensures AllPluginsTotal(history + [c], methods, plugins)
      == AllPluginsTotal(history, methods, plugins) + (if Attributed(plugins, methods, c) then c.executionTime else 0)
  {
    if plugins != [] {
      var ps, q := plugins[..|plugins| - 1], plugins[|plugins| - 1];
      assert plugins == ps + [q];
      AllPluginsTotalStep(history, c, methods, ps);
      PluginTotalStep(history, c, methods, q);
      SumArraySnoc(PluginTotals(history + [c], methods, ps), PluginTotal(history + [c], methods, q));
      SumArraySnoc(PluginTotals(history, methods, ps), PluginTotal(history, methods, q));
      AttributedSplit(plugins, methods, c);
    }
  }

  /** Attribution to a list of plugins with distinct names is attribution to exactly one of them. */
  lemma AttributedSplit(plugins: seq<PluginInfo>, methods: seq<string>, c: HookCall)
    requires plugins != [] && DistinctNames(plugins)
    ensures var ps, q := plugins[..|plugins| - 1], plugins[|plugins| - 1];
      && (Attributed(plugins, methods, c) <==> Attributed(ps, methods, c) || MonitoredBy(q, methods, c))
      && (MonitoredBy(q, methods, c) ==> !Attributed(ps, methods, c))
  {
    var ps, q := plugins[..|plugins| - 1], plugins[|plugins| - 1];
    if Attributed(plugins, methods, c) {
      var i :| 0 <= i < |plugins| && MonitoredBy(plugins[i], methods, c);
      if i < |ps| { assert ps[i] == plugins[i]; }
    }
    if Attributed(ps, methods, c) {
      var i :| 0 <= i < |ps| && MonitoredBy(ps[i], methods, c);
      assert plugins[i] == ps[i];
    }
  }

  lemma {:induction false} AllPluginsTotalOfNothing(methods: seq<string>, plugins: seq<PluginInfo>)
    ensures AllPluginsTotal([], methods, plugins) == 0
  {
    if plugins != [] {
      var ps, q := plugins[..|plugins| - 1], plugins[|plugins| - 1];
      AllPluginsTotalOfNothing(methods, ps);
      MethodTotalsOfNothing(q.name, ImplementedMethods(q, methods));
      SumArraySnoc(PluginTotals([], methods, ps), PluginTotal([], methods, q));
    }
  }

  /**
   * With distinct plugin names, the all-plugins total is the exact sum over
   * the calls some registered plugin made of a monitored method it implements.
   */
  lemma {:induction false} AllPluginsTotalIsExactSum(history: seq<HookCall>, methods: seq<string>, plugins: seq<PluginInfo>)
    requires Distinct(methods) && DistinctNames(plugins)
    ensures AllPluginsTotal(history, methods, plugins)
      == ExecutionTime(Filter(history, (c: HookCall) => Attributed(plugins, methods, c)))
  {
    if history == [] {
      AllPluginsTotalOfNothing(methods, plugins);
    } else {
      var h', c := history[..|history| - 1], history[|history| - 1];
      assert history == h' + [c];
      AllPluginsTotalIsExactSum(h', methods, plugins);
      AllPluginsTotalStep(h', c, methods, plugins);
      FilteredTimeSnoc(h', c, (c: HookCall) => Attributed(plugins, methods, c));
    }
  }

  /** When every call is attributed, the all-plugins total is the whole history's time. */
  lemma AllPluginsTotalCoversHistory(history: seq<HookCall>, methods: seq<string>, plugins: seq<PluginInfo>)
    requires Distinct(methods) && DistinctNames(plugins)
    requires forall c :: c in history ==> Attributed(plugins, methods, c)
    ensures AllPluginsTotal(history, methods, plugins) == ExecutionTime(history)
  {
    AllPluginsTotalIsExactSum(history, methods, plugins);
  }

  lemma {:induction false} PluginFileTotalsStep(fileHistory: seq<HookCall>, c: HookCall, plugins: seq<PluginInfo>)
    requires DistinctNames(plugins)
    ensures SumArray(PluginFileTotals(fileHistory + [c], plugins))
      == SumArray(PluginFileTotals(fileHistory, plugins)) + (if FromRegisteredPlugin(plugins, c) then c.executionTime else 0)
  {
    if plugins != [] {
      var ps, q := plugins[..|plugins| - 1], plugins[|plugins| - 1];
      assert plugins == ps + [q];
      PluginFileTotalsStep(fileHistory, c, ps);
      FilteredTimeSnoc(fileHistory, c, (c: HookCall) => c.IsFromPlugin(q.name));
      SumArraySnoc(PluginFileTotals(fileHistory + [c], ps), PluginFileTotal(fileHistory + [c], q.name));
      SumArraySnoc(PluginFileTotals(fileHistory, ps), PluginFileTotal(fileHistory, q.name));
      FromRegisteredSplit(plugins, c);
    }
  }

  /** A call comes from at most one of several plugins with distinct names. */
  lemma FromRegisteredSplit(plugins: seq<PluginInfo>, c: HookCall)
    requires plugins != [] && DistinctNames(plugins)
    ensures var ps, q := plugins[..|plugins| - 1], plugins[|plugins| - 1];
      && (FromRegisteredPlugin(plugins, c) <==> FromRegisteredPlugin(ps, c) || c.IsFromPlugin(q.name))
      && (c.IsFromPlugin(q.name) ==> !FromRegisteredPlugin(ps, c))
  {
    var ps, q := plugins[..|plugins| - 1], plugins[|plugins| - 1];
    if FromRegisteredPlugin(plugins, c) {
      var i :| 0 <= i < |plugins| && c.IsFromPlugin(plugins[i].name);
      if i < |ps| { assert ps[i] == plugins[i]; }
    }
    if FromRegisteredPlugin(ps, c) {
      var i :| 0 <= i < |ps| && c.IsFromPlugin(ps[i].name);
      assert plugins[i] == ps[i];
    }
  }

  lemma {:induction false} PluginFileTotalsOfNothing(plugins: seq<PluginInfo>)
    ensures SumArray(PluginFileTotals([], plugins)) == 0
  {
    if plugins != [] {
      var ps, q := plugins[..|plugins| - 1], plugins[|plugins| - 1];
      PluginFileTotalsOfNothing(ps);
      SumArraySnoc(PluginFileTotals([], ps), PluginFileTotal([], q.name));
    }
  }

  lemma {:induction false} PluginFileTotalsIsExactSum(fileHistory: seq<HookCall>, plugins: seq<PluginInfo>)
    requires DistinctNames(plugins)
    ensures SumArray(PluginFileTotals(fileHistory, plugins))
      == ExecutionTime(Filter(fileHistory, (c: HookCall) => FromRegisteredPlugin(plugins, c)))
  {
    if fileHistory == [] {
      PluginFileTotalsOfNothing(plugins);
    } else {
      var h', c := fileHistory[..|fileHistory| - 1], fileHistory[|fileHistory| - 1];
      assert fileHistory == h' + [c];
      PluginFileTotalsIsExactSum(h', plugins);
      PluginFileTotalsStep(h', c, plugins);
      FilteredTimeSnoc(h', c, (c: HookCall) => FromRegisteredPlugin(plugins, c));
    }
  }

  /**
   * With distinct plugin names, a file's total is the exact sum over its calls
   * made by registered plugins.
   */
  lemma FileTotalIsExactSum(history: seq<HookCall>, plugins: seq<PluginInfo>, file: string)
    requires DistinctNames(plugins)
    ensures FileTotal(history, plugins, file)
      == ExecutionTime(Filter(FileHistory(history, file), (c: HookCall) => FromRegisteredPlugin(plugins, c)))
  {
    PluginFileTotalsIsExactSum(FileHistory(history, file), plugins);
  }

  /** When every call on the file comes from a registered plugin, the file total is all of its time. */
  lemma FileTotalCoversFile(history: seq<HookCall>, plugins: seq<PluginInfo>, file: string)
    requires DistinctNames(plugins)
    requires forall c :: c in history && c.IsOnFile(file) ==> FromRegisteredPlugin(plugins, c)
    ensures FileTotal(history, plugins, file) == ExecutionTime(FileHistory(history, file))
  {
    FileTotalIsExactSum(history, plugins, file);
    var fh := FileHistory(history, file);
    assert forall k :: 0 <= k < |fh| ==> FromRegisteredPlugin(plugins, fh[k]) by {
      forall k | 0 <= k < |fh| ensures FromRegisteredPlugin(plugins, fh[k]) {
        assert fh[k] in fh;
      }
    }
  }

  lemma AppendAssoc(a: seq<string>, b: seq<string>, c: seq<string>)
    ensures a + b + c == a + (b + c)
  {
  }

  lemma PluginSectionsSnoc(history: seq<HookCall>, methods: seq<string>, plugins: seq<PluginInfo>, i: nat)
    requires i < |plugins|
    ensures PluginTotals(history, methods, plugins[..i + 1])
      == PluginTotals(history, methods, plugins[..i]) + [PluginTotal(history, methods, plugins[i])]
    ensures PluginSections(history, methods, plugins[..i + 1])
      == PluginSections(history, methods, plugins[..i]) + PluginSection(history, methods, plugins[i]) + [""]
  {
    assert plugins[..i + 1][..i] == plugins[..i];
  }

  lemma FileSectionsSnoc(history: seq<HookCall>, plugins: seq<PluginInfo>, files: seq<string>, i: nat)
    requires i < |files|
    ensures FileSections(history, plugins, files[..i + 1])
      == FileSections(history, plugins, files[..i]) + FileSection(history, plugins, files[i]) + [""]
  {
    assert files[..i + 1][..i] == files[..i];
  }

  lemma PluginFileLinesSnoc(fileHistory: seq<HookCall>, plugins: seq<PluginInfo>, i: nat)
    requires i < |plugins|
    ensures PluginFileTotals(fileHistory, plugins[..i + 1])
      == PluginFileTotals(fileHistory, plugins[..i]) + [PluginFileTotal(fileHistory, plugins[i].name)]
    ensures PluginFileLines(fileHistory, plugins[..i + 1])
      == PluginFileLines(fileHistory, plugins[..i]) + [PluginFileLine(fileHistory, plugins[i].name)]
  {
    assert plugins[..i + 1][..i] == plugins[..i];
  }

  /** A further monitored method is reported iff the plugin implements it. */
  lemma ImplementedMethodsSnoc(plugin: PluginInfo, methods: seq<string>, i: nat)
    requires i < |methods|
    ensures ImplementedMethods(plugin, methods[..i + 1])
      == if plugin.Implements(methods[i]) then ImplementedMethods(plugin, methods[..i]) + [methods[i]]
         else ImplementedMethods(plugin, methods[..i])
  {
    assert methods[..i + 1][..i] == methods[..i];
  }

  /** A further reported method adds its total and its line at the end. */
  lemma MethodLinesSnoc(history: seq<HookCall>, pluginName: string, ms: seq<string>, m: string)
    ensures MethodTotals(history, pluginName, ms + [m])
      == MethodTotals(history, pluginName, ms) + [MethodTotal(history, pluginName, m)]
    ensures MethodLines(history, pluginName, ms + [m])
      == MethodLines(history, pluginName, ms) + [MethodLine(history, pluginName, m)]
  {
    assert (ms + [m])[..|ms|] == ms;
  }

  // ---------------------------------------------------------------------------
  // The reporter object

  /**
   * A reporter over fixed plugins, monitored method names and history; the
   * console it writes to is the sequence `output`.
   */
  class Reporter {
    const plugins: seq<PluginInfo>
    const monitoredMethods: seq<string>
    const history: seq<HookCall>
    var output: seq<string>

    constructor (plugins: seq<PluginInfo>, monitoredMethods: seq<string>, history: seq<HookCall>)
      ensures this.plugins == plugins && this.monitoredMethods == monitoredMethods && this.history == history
      ensures output == []
    {
      this.plugins := plugins;
      this.monitoredMethods := monitoredMethods;
      this.history := history;
      output := [];
    }

    method Write(line: string)
      modifies this
      ensures output == old(output) + [line]
    {
      output := output + [line];
    }

    /** Writes the whole report; plugins, methods and history are left as they were. */
    method Report()
      modifies this
      ensures output == old(output) + ReportLines(plugins, monitoredMethods, history)
    {
      Write("");
      ReportCallExecutionTimeSummary();
      ReportFileTimeSummary();
      AppendAssoc(old(output) + [""], CallSummaryLines(history, monitoredMethods, plugins), FileSummaryLines(history, plugins));
      AppendAssoc(old(output), [""], CallSummaryLines(history, monitoredMethods, plugins) + FileSummaryLines(history, plugins));
      AppendAssoc([""], CallSummaryLines(history, monitoredMethods, plugins), FileSummaryLines(history, plugins));
    }

    method ReportCallExecutionTimeSummary()
      modifies this
      ensures output == old(output) + CallSummaryLines(history, monitoredMethods, plugins)
    {
      var totalPluginCallExecutionTimes: seq<nat> := [];
      var i := 0;
      while i < |plugins|
        invariant 0 <= i <= |plugins|
        invariant totalPluginCallExecutionTimes == PluginTotals(history, monitoredMethods, plugins[..i])
        invariant output == old(output) + PluginSections(history, monitoredMethods, plugins[..i])
      {
        ghost var done := PluginSections(history, monitoredMethods, plugins[..i]);
        ghost var section := PluginSection(history, monitoredMethods, plugins[i]);
        var total := ReportPluginCallExecutionTime(plugins[i]);
        totalPluginCallExecutionTimes := totalPluginCallExecutionTimes + [total];
        Write("");
        PluginSectionsSnoc(history, monitoredMethods, plugins, i);
        AppendAssoc(old(output) + done, section, [""]);
        AppendAssoc(old(output), done, section + [""]);
        AppendAssoc(done, section, [""]);
        i := i + 1;
      }
      assert plugins[..i] == plugins;
      var pluginsTotal := SumArray(totalPluginCallExecutionTimes);
      Write("> total execution time in all plugins: " + Milliseconds(pluginsTotal));
    }

    method ReportFileTimeSummary()
      modifies this
      ensures output == old(output) + FileSummaryLines(history, plugins)
    {
      var workingFiles := FindWorkingFiles();
      var i := 0;
      while i < |workingFiles|
        invariant 0 <= i <= |workingFiles|
        invariant output == old(output) + FileSections(history, plugins, workingFiles[..i])
      {
        ghost var done := FileSections(history, plugins, workingFiles[..i]);
        ghost var section := FileSection(history, plugins, workingFiles[i]);
        ReportFileExecutionTime(workingFiles[i]);
        Write("");
        FileSectionsSnoc(history, plugins, workingFiles, i);
        AppendAssoc(old(output) + done, section, [""]);
        AppendAssoc(old(output), done, section + [""]);
        AppendAssoc(done, section, [""]);
        i := i + 1;
      }
      assert workingFiles[..i] == workingFiles;
    }

    method ReportFileExecutionTime(file: string)
      modifies this
      ensures output == old(output) + FileSection(history, plugins, file)
    {
      var fileHistory := FileHistory(history, file);
      var header := "> file \"" + file + "\"";
      Write(header);
      var pluginExecutionTimes: seq<nat> := [];
      var i := 0;
      while i < |plugins|
        invariant 0 <= i <= |plugins|
        invariant pluginExecutionTimes == PluginFileTotals(fileHistory, plugins[..i])
        invariant output == old(output) + [header] + PluginFileLines(fileHistory, plugins[..i])
      {
        var pluginName := plugins[i].name;
        var pluginRelatedCalls := PluginCallHistory(fileHistory, pluginName);
        var pluginExecutionTime := ExecutionTime(pluginRelatedCalls);
        pluginExecutionTimes := pluginExecutionTimes + [pluginExecutionTime];
        var line := ">>> " + pluginName + " takes " + Milliseconds(pluginExecutionTime) + " to process it";
        Write(line);
        PluginFileLinesSnoc(fileHistory, plugins, i);
        AppendAssoc(old(output) + [header], PluginFileLines(fileHistory, plugins[..i]), [line]);
        i := i + 1;
      }
      assert plugins[..i] == plugins;
      ghost var lines := PluginFileLines(fileHistory, plugins);
      var totalPluginsCallExecutionTime := SumArray(pluginExecutionTimes);
      var totalLine := "> total call execution time: " + Milliseconds(totalPluginsCallExecutionTime);
      Write(totalLine);
      AppendAssoc(old(output), [header] + lines, [totalLine]);
      AppendAssoc(old(output), [header], lines);
    }

    /** Writes one plugin's section and returns its exact total in nanoseconds. */
    method ReportPluginCallExecutionTime(plugin: PluginInfo) returns (total: nat)
      modifies this
      ensures total == PluginTotal(history, monitoredMethods, plugin)
      ensures output == old(output) + PluginSection(history, monitoredMethods, plugin)
    {
      var header := "> " + plugin.name + ":";
      Write(header);
      var totalMethodCallExecutionTimes := ReportImplementedMethods(plugin);
      ghost var lines := MethodLines(history, plugin.name, ImplementedMethods(plugin, monitoredMethods));
      total := SumArray(totalMethodCallExecutionTimes);
      var totalLine := ">> " + plugin.name + " total call execution time: " + Milliseconds(total);
      Write(totalLine);
      AppendAssoc(old(output), [header] + lines, [totalLine]);
      AppendAssoc(old(output), [header], lines);
    }

    /**
     * The loop over the monitored methods within one plugin's section: a line
     * and a total for each method the plugin implements, skipping the others.
     */
    method ReportImplementedMethods(plugin: PluginInfo) returns (totals: seq<nat>)
      modifies this
      ensures totals == MethodTotals(history, plugin.name, ImplementedMethods(plugin, monitoredMethods))
      ensures output == old(output) + MethodLines(history, plugin.name, ImplementedMethods(plugin, monitoredMethods))
    {
      totals := [];
      ghost var reported: seq<string> := [];
      var i := 0;
      while i < |monitoredMethods|
        invariant 0 <= i <= |monitoredMethods|
        invariant reported == ImplementedMethods(plugin, monitoredMethods[..i])
        invariant totals == MethodTotals(history, plugin.name, reported)
        invariant output == old(output) + MethodLines(history, plugin.name, reported)
      {
        var methodName := monitoredMethods[i];
        ImplementedMethodsSnoc(plugin, monitoredMethods, i);
        if plugin.Implements(methodName) {
          ghost var lines := MethodLines(history, plugin.name, reported);
          ghost var line := MethodLine(history, plugin.name, methodName);
          MethodLinesSnoc(history, plugin.name, reported, methodName);
          var methodTotal := ReportMethodCallExecutionTime(plugin.name, methodName);
          totals := totals + [methodTotal];
          AppendAssoc(old(output), lines, [line]);
          reported := reported + [methodName];
        }
        i := i + 1;
      }
      assert monitoredMethods[..i] == monitoredMethods;
    }

    /** Writes one hook's line and returns its exact total, 0 when it was never called. */
    method ReportMethodCallExecutionTime(pluginName: string, methodName: string) returns (total: nat)
      modifies this
      ensures total == MethodTotal(history, pluginName, methodName)
      ensures output == old(output) + [MethodLine(history, pluginName, methodName)]
    {
      var methodCallHistory := MethodCallHistory(history, pluginName, methodName);
      if |methodCallHistory| == 0 {
        Write(">>> " + pluginName + "." + methodName + " has not been called");
        return 0;
      }
      total := ExecutionTime(methodCallHistory);
      Write(">>> " + pluginName + "." + methodName + " total call execution time: " + Milliseconds(total));
    }

    /** The working files of the history, gathered call by call as a set would. */
    method FindWorkingFiles() returns (files: seq<string>)
      ensures files == WorkingFiles(history)
    {
      files := [];
      var i := 0;
      while i < |history|
        invariant 0 <= i <= |history|
        invariant files == WorkingFiles(history[..i])
      {
        var path := history[i].GetOnFile();
        if path.Some? && path.value != "" && path.value !in files {
          files := files + [path.value];
        }
        assert history[..i + 1][..i] == history[..i];
        i := i + 1;
      }
      assert history[..i] == history;
    }
  }
}
