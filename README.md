# rollup-devtools hook timing, modelled in Dafny

rollup-devtools wraps the hook methods of Rollup plugins (`option`, `load`,
`resolveId`, `transform`, `transformBundle`, `intro`, `outro`, `banner`,
`footer`) in timing proxies. Each completed call is recorded as a `HookCall`:
plugin name, hook name, elapsed nanoseconds, and the files involved. On
request the recorded calls are summarised as console lines. The summaries are
per plugin and hook, across all plugins, and per working file.

The model has these modules:

- `HookCalls` (`hook_call.dfy`): the call record, a value with its query methods.
- `Plugins` (`plugin.dfy`): the JavaScript values a hook sees and what a plugin holds under a key. A `Plugin` is a class, because the monitor replaces its members in place. `PluginInfo` is the snapshot the reporter reads.
- `Decimal` (`decimal.dfy`): decimal printing (`${n}`), left padding (`padStart`) and `parseInt` for non-negative integers, with their round-trip lemmas.
- `Reporting` (`reporter.dfy`): the report as pure functions over the history (totals, filters, working files, the exact lines). The `Reporter` class runs the loops of `Reporter.js`. Its methods are proved to write exactly those lines to its `output` sequence, which stands in for the console.
- `Monitoring` (`monitor.dfy`): the hrtime conversion, the rule table that builds a record from a finished call, and the `Monitor` class. The class registers plugins, installs proxies and appends records.

The main results:

- With distinct plugin names, every total is the exact sum over the records it selects. The lemmas also assume distinct hook names, which holds for the nine monitored hooks (`PluginMethodsDistinct`). Rounding to milliseconds is applied per printed line only, never before summing (`AllPluginsTotalIsExactSum`, `FileTotalIsExactSum`). With distinct plugin names, and every record attributed to a registered plugin, the all-plugins total is the sum of all records.
- Plugin names are not checked for uniqueness, and each total selects records by plugin name:
  - A file total counts each record once per registered plugin with its name.
  - The all-plugins total counts a record once per same-named plugin that implements its hook. So the same plugin registered twice counts the record twice (`SameNamedPluginsCountTwice`, `SameNamedPluginsExample`). Two same-named plugins with different hooks count it once there, but twice in the file total (`SameNamedDifferentHooksExample`).
- The "has not been called" line appears exactly when a hook has no record (`NotCalledIff`).
- Working files are distinct, are exactly the non-empty `onFile` paths, and come in order of first appearance.
- `Report` writes exactly `ReportLines`, whose length is fixed by `ReportLineCount`.
- A proxy passes the original result or error through unchanged. It appends exactly one record per successful call, and none when the call or the record construction fails.

Two behaviours of the code worth knowing:

- The hrtime conversion pads nanoseconds to eight digits, so `[1, 5]` becomes `100000005`. A nine-digit pad would give `1000000005` (`HrtimeExamples`, `HrtimeExactIff`).
- A `transform` call with a falsy result is recorded, with both file fields null.

## Model

| member | source | states |
|---|---|---|
| HookCalls.NewHookCall | src/HookCall.js:10-22 | the accessors read back the plugin name, hook name, time and both files as given, with the files defaulting to null |
| HookCalls.DefaultFilesAreNull | src/HookCall.js:14-15 | a record built with three arguments has no `fromFile` and no `onFile`, and is on no path |
| HookCalls.HookCall.IsFromPlugin | src/HookCall.js:24-26 | true exactly when the recorded plugin name equals the given one |
| HookCalls.HookCall.GetExecutionTime | src/HookCall.js:36-38 | returns the recorded nanoseconds |
| HookCalls.HookCall.GetOnFile | src/HookCall.js:40-42 | returns the recorded `onFile`, null included |
| HookCalls.HookCall.IsFromMethod | src/HookCall.js:28-30 | true iff the plugin matches and the hook matches; implies `isFromPlugin` |
| HookCalls.HookCall.IsOnFile | src/HookCall.js:32-34 | a record with a null `onFile` is on no file; being on `path` means `getOnFile()` is `path` |
| Decimal.ShowDigits | src/Monitor.js:9 | the decimal form of a non-negative integer is a non-empty digit string that `parseInt` reads back as the same number |
| Decimal.ShowLength | src/Monitor.js:9 | the decimal form of `n` has d digits with n < 10^d, and 10^(d-1) <= n when d > 1 |
| Decimal.PadStart | src/Monitor.js:9 | the padded string has length max(width, length), ends with the original, and starts with fill characters |
| Decimal.ParseAppend | src/Monitor.js:9 | `parseInt` of concatenated digits is the first part scaled by 10^(length of the second) plus the second |
| Decimal.PadStartParse | src/Monitor.js:9 | left padding with zeros does not change the parsed value |
| Monitoring.HrtimeToNanoSecond | src/Monitor.js:8-10 | the result is seconds × 10^max(8, digits of the nanoseconds) + nanoseconds |
| Monitoring.HrtimeExamples | src/Monitor.js:8-10 | `[2, 500000000]` gives 2500000000, `[1, 5]` gives 100000005 and `[0, n]` gives n |
| Monitoring.HrtimeExactIff | src/Monitor.js:8-10 | for a sub-second part below 10^9, the result is the true nanosecond count iff the seconds are 0 or the sub-second part has nine digits; otherwise a second counts as 10^8 ns |
| Monitoring.PluginMethodsDistinct | src/Monitor.js:17-27 | the nine monitored hook names are pairwise distinct |
| Monitoring.Monitor.constructor | src/Monitor.js:29-32 | a new monitor has no plugins and no calls |
| Monitoring.Monitor.MonitorPlugin | src/Monitor.js:34-47 | a plugin without a non-empty name is refused with "A plugin should have a name to be monitored." and nothing changes; otherwise it is appended once, returned, and its members become `Instrumented` over all nine hooks |
| Monitoring.Monitor.MonitorPluginMethod | src/Monitor.js:49-58 | a callable member is replaced by a proxy over that plugin, hook and original member; a missing or non-callable member is left alone |
| Monitoring.Instrumented | src/Monitor.js:42-44 | the key set is unchanged and callability is preserved; keys outside the hook list and non-callable members are untouched; each callable hook becomes a proxy that wraps the original |
| Monitoring.InvokeProxy | src/Monitor.js:60-85 | a failed original call propagates unchanged and records nothing; a successful one returns the original result and appends that call's record, unless the record throws, in which case that error is returned and nothing is recorded |
| Plugins.Value.IsTruthy | src/Monitor.js:95 | a string is truthy iff it is non-empty; any other value has its own truthiness |
| Plugins.Member.IsCallable | src/Monitor.js:53 | a member counts as a function iff it is not `NonFunction`: the plugin's own method or a proxy |
| Plugins.ImplementsCallable | src/Reporter.js:87 | a plugin implements a hook iff it holds a callable member under that key; a missing key implements nothing |
| Monitoring.InstrumentedImplements | src/Monitor.js:42-44 | after instrumentation a plugin implements exactly the monitored hooks it implemented before, so its report section lists the same hooks |
| Plugins.Plugin.HasName | src/Monitor.js:35-37 | `!plugin.name` is false exactly when the name is present and non-empty |
| Monitoring.Argument | src/Monitor.js:96-114 | `originalArguments[i]` is the i-th argument, and past the end it is `undefined`: not a string and falsy |
| Monitoring.HookCallFor | src/Monitor.js:94-128 | `transform` with a truthy result records its second argument as `onFile` with no `fromFile`; `resolveId`/`load` record the first argument as `onFile` and the second as `fromFile`; any other call (falsy transform included) records no file; a file argument that is not a string gives "Invalid argument: string expected.", and only then does the call fail |
| Monitoring.HookCallForFiles | src/Monitor.js:94-128 | only the three file hooks can fail or carry `onFile`, and only `resolveId`/`load` carry `fromFile` |
| Monitoring.Monitor.MonitorMethodCall | src/Monitor.js:87-131 | on success exactly the built record is appended; on failure the error is returned and the history is unchanged |
| Monitoring.Infos | src/Monitor.js:134-138 | the reporter's snapshot has one entry per registered plugin, holding its current name and members |
| Monitoring.Monitor.Report | src/Monitor.js:133-141 | the report is exactly `ReportLines` of the registered plugins, the nine hooks and the history; nothing changes |
| Monitoring.ReportTwice | src/Monitor.js:133-141 | two reports with no calls between them are identical |
| Reporting.NanoSecondToMiliSecond | src/Reporter.js:6-8 | the result is the nearest whole millisecond, with a half rounding up: ms·10^6 − 5·10^5 <= ns < ms·10^6 + 5·10^5 |
| Reporting.RoundingExamples | src/Reporter.js:6-8 | 1499999 ns is 1 ms, 1500000 ns is 2 ms, 0 ns is 0 ms |
| Reporting.ExecutionTime | src/Reporter.js:126-130 | the total of no calls is 0 |
| Reporting.ExecutionTimeAppend | src/Reporter.js:126-130 | the total of a concatenation is the sum of the totals |
| Reporting.ExecutionTimeSnoc | src/Reporter.js:126-130 | one more call adds its own execution time |
| Reporting.SumArray | src/Reporter.js:132-136 | the sum of no values is 0 |
| Reporting.SumArrayAppend | src/Reporter.js:132-136 | the sum of a concatenation is the sum of the sums |
| Reporting.SumArraySnoc | src/Reporter.js:132-136 | one more value adds itself |
| Reporting.Filter | src/Reporter.js:142-144 | the result is no longer than the input, holds exactly the input's calls that pass the test, and is the input itself when all pass |
| Reporting.FilterAppend | src/Reporter.js:142-144 | filtering a concatenation is the concatenation of the filtered parts, so order is kept |
| Reporting.FilterSnoc | src/Reporter.js:142-144 | one more call is kept at the end iff it passes |
| Reporting.FilteredTimeSnoc | src/Reporter.js:126-144 | one more call adds its time to a filtered total iff it passes |
| Reporting.PluginCallHistory | src/Reporter.js:138-145 | exactly the calls from that plugin |
| Reporting.MethodCallHistory | src/Reporter.js:147-154 | exactly the calls of that plugin's hook |
| Reporting.FileHistory | src/Reporter.js:156-160 | exactly the calls on that file |
| Reporting.WorkingFiles | src/Reporter.js:162-175 | pairwise distinct, and a path is listed iff it is non-empty and some call is on it |
| Reporting.Reporter.FindWorkingFiles | src/Reporter.js:162-175 | the set-filling loop produces exactly `WorkingFiles` of the history |
| Reporting.FirstCallOn | src/Reporter.js:165-172 | the index of the first call on a file, or the history length if there is none |
| Reporting.FirstCallOnExtend | src/Reporter.js:165-172 | appending a call keeps the first index of an already seen file, and makes the new call the first for an unseen file it is on |
| Reporting.WorkingFilesFirstSeenOrder | src/Reporter.js:162-175 | a working file listed earlier was first seen at a strictly earlier call |
| Reporting.WorkingFileIsSeen | src/Reporter.js:162-175 | a working file has a call on it in the history |
| Reporting.NotSeen | src/Reporter.js:162-175 | a non-empty path that is not a working file has no call on it |
| Reporting.ImplementedMethods | src/Reporter.js:86-90 | exactly the monitored hooks the plugin holds as callable members, in monitored order, and without repeats when the hook names are distinct |
| Reporting.NotCalledIff | src/Reporter.js:111-116 | the "has not been called" line is printed iff the hook has no call, and then the hook contributes 0 |
| Reporting.MethodLinesLength | src/Reporter.js:86-97 | one line per reported hook |
| Reporting.ImplementedMethodsSnoc | src/Reporter.js:86-90 | a further monitored hook is reported iff the plugin implements it |
| Reporting.MethodLinesSnoc | src/Reporter.js:91-96 | a further reported hook adds its total and its line at the end |
| Reporting.MethodTotalsStep | src/Reporter.js:86-99 | with distinct hook names, one more call adds its time to a plugin's hook totals iff it is from one of that plugin's monitored hooks |
| Reporting.MethodTotalsOfNothing | src/Reporter.js:86-99 | with no history every hook total is 0 |
| Reporting.PluginTotalStep | src/Reporter.js:80-105 | with distinct hook names, one more call adds its time to a plugin's total iff that plugin monitors it |
| Reporting.PluginTotalIsExactSum | src/Reporter.js:80-105 | with distinct hook names, a plugin's total is the exact sum of its monitored calls, before any rounding |
| Reporting.AllPluginsTotalStep | src/Reporter.js:36-48 | with distinct hook and plugin names, one more call adds its time to the all-plugins total iff some plugin monitors it |
| Reporting.AllPluginsTotalOfNothing | src/Reporter.js:36-48 | with no history the all-plugins total is 0 |
| Reporting.AllPluginsTotalIsExactSum | src/Reporter.js:36-48 | with distinct hook and plugin names, the all-plugins total is the exact sum of the attributed calls, so it does not double count |
| Reporting.AllPluginsTotalCoversHistory | src/Reporter.js:36-48 | with distinct hook and plugin names, when every call is attributed to a registered plugin's monitored hook, the all-plugins total is the total of the whole history |
| Reporting.PluginFileTotalsStep | src/Reporter.js:64-75 | with distinct plugin names, one more call on a file adds its time to the file's plugin totals iff a registered plugin made it |
| Reporting.PluginFileTotalsOfNothing | src/Reporter.js:64-75 | an empty file history gives 0 |
| Reporting.PluginFileTotalsIsExactSum | src/Reporter.js:64-75 | with distinct plugin names, the plugin totals for a file sum to the exact time of the calls from registered plugins |
| Reporting.FileTotalIsExactSum | src/Reporter.js:59-78 | with distinct plugin names, a file's total is the exact time of the calls on it from registered plugins |
| Reporting.FileTotalCoversFile | src/Reporter.js:59-78 | with distinct plugin names, when every call on a file comes from a registered plugin, the file's total is its whole file history's time |
| Reporting.PluginFileLinesContent | src/Reporter.js:65-73 | a file section has one line per registered plugin, in registration order, each `>>> name takes …ms to process it` with that plugin's time on the file |
| Reporting.SameNamedPluginsCountTwice | src/Reporter.js:36-78 | with one plugin registered twice, a call it monitors is selected once, but counts twice in the all-plugins total and in its file's total |
| Reporting.SameNamedPluginsExample | src/Reporter.js:36-78 | a 5 ns `transform` call of plugin "a", registered twice, gives 10 ns in both totals |
| Reporting.SameNamedDifferentHooksExample | src/Reporter.js:36-78 | with two plugins named "a", one implementing only `transform` and one only `load`, a 5 ns `transform` call of "a" gives 5 ns in the all-plugins total and 10 ns in its file's total |
| Reporting.OneCallTotals | src/Reporter.js:80-105 | over a single call, a plugin's total is the call's time if it monitors the call and 0 if not |
| Reporting.TwoPluginsAddUp | src/Reporter.js:36-47 | with two registered plugins, the all-plugins total is the sum of their totals |
| Reporting.TwoPluginsFileAddUp | src/Reporter.js:64-75 | with two registered plugins, a file's plugin times sum to their two times on it |
| Reporting.OneMonitoredCall | src/Reporter.js:80-105 | a plugin's total over its one monitored call is that call's time |
| Reporting.OneCallOnFile | src/Reporter.js:59-72 | a lone call on a file is that file's history, and its plugin's time on the file is the call's time |
| Reporting.CopiesAddUp | src/Reporter.js:36-47 | a plugin registered twice contributes its total twice to the all-plugins total |
| Reporting.FileCopiesAddUp | src/Reporter.js:64-75 | a plugin registered twice contributes its file time twice to the file total |
| Reporting.MillisecondsShape | src/Reporter.js:47-121 | a printed duration is the decimal form of the rounded millisecond count followed by "ms" |
| Reporting.MethodLineShape | src/Reporter.js:113-121 | both lines for a hook start with `>>> plugin.method` |
| Reporting.PluginSectionShape | src/Reporter.js:83-102 | a plugin section is the `> name:` header, the lines of its implemented hooks in monitored order, and the `>> name total call execution time: …ms` line |
| Reporting.AllPluginsTotalLineShape | src/Reporter.js:47 | the line is `> total execution time in all plugins: `, then the decimal digits of the rounded all-plugins total, then "ms" |
| Reporting.FileSectionShape | src/Reporter.js:62-77 | a file section is the `> file "path"` header, one line per plugin, and the `> total call execution time: …ms` line |
| Reporting.ReportLinesShape | src/Reporter.js:25-30 | the report opens with an empty line, has the all-plugins total line right after the plugin sections, and ends with the file sections |
| Reporting.PluginFileLinesSnoc | src/Reporter.js:65-73 | one more plugin adds its total and its line to a file section |
| Reporting.FileSectionsLength | src/Reporter.js:50-57 | each working file contributes |plugins| + 3 lines |
| Reporting.FileSectionsSnoc | src/Reporter.js:53-56 | one more file adds its section followed by an empty line |
| Reporting.PluginSectionsLength | src/Reporter.js:36-44 | the plugin sections have Σ(implemented hooks + 3) lines |
| Reporting.PluginSectionsSnoc | src/Reporter.js:38-43 | one more plugin adds its total, then its section followed by an empty line |
| Reporting.ReportLineCount | src/Reporter.js:25-30 | the report has 1 + Σ(implemented hooks + 3) + 1 + |working files|·(|plugins| + 3) lines |
| Reporting.Reporter.constructor | src/Reporter.js:15-23 | the reporter holds the plugins, the monitored hooks and the history as given, and has written nothing |
| Reporting.Reporter.Write | src/Reporter.js:32-34 | appends exactly one line to the output |
| Reporting.Reporter.Report | src/Reporter.js:25-30 | appends exactly an empty line, the call summary and the file summary, that is `ReportLines` |
| Reporting.Reporter.ReportCallExecutionTimeSummary | src/Reporter.js:36-48 | appends each plugin's section followed by an empty line, then the all-plugins total line |
| Reporting.Reporter.ReportFileTimeSummary | src/Reporter.js:50-57 | appends each working file's section, in first-seen order, each followed by an empty line |
| Reporting.Reporter.ReportFileExecutionTime | src/Reporter.js:59-78 | appends the file header, one line per plugin with its time on the file, and the file total |
| Reporting.Reporter.ReportPluginCallExecutionTime | src/Reporter.js:80-105 | appends the plugin header, one line per implemented hook and the plugin total; returns the exact total |
| Reporting.Reporter.ReportImplementedMethods | src/Reporter.js:85-97 | appends one line per monitored hook the plugin implements, in monitored order, and returns exactly those hooks' totals |
| Reporting.AttributedSplit | src/Reporter.js:38-41 | with distinct plugin names, a call is attributed to the list iff it is attributed to the prefix or to the last plugin, and never to both |
| Reporting.FromRegisteredSplit | src/Reporter.js:65-71 | with distinct plugin names, a call comes from the list iff it comes from the prefix or from the last plugin, and never from both |
| Reporting.Reporter.ReportMethodCallExecutionTime | src/Reporter.js:107-124 | appends the hook's line and returns its exact total, 0 when it was never called |
| Decimal.Pow10Monotone | src/Monitor.js:9 | powers of ten grow with the exponent |
| Decimal.ParseZeros | src/Monitor.js:9 | a run of zeros parses as 0 |

## Left out

- The clock: `process.hrtime` is not modelled. A proxy call is given the elapsed `[seconds, nanoseconds]` pair.
- Asynchrony: `Promise.resolve(...).then(...)` is modelled as one synchronous step. The original hook's result, or the error it threw, is a parameter of `InvokeProxy`. Calls that interleave while a promise is pending are not modelled.
- Invoking the wrapped member and `this` binding (`apply(plugin, …)`) are left out. So is the monitor a proxy closes over: in the model, the caller chooses the monitor on which `InvokeProxy` runs.
- The console: `write` appends to the `output` sequence instead of calling `console.log`.
- JavaScript typing: a hook argument or result is either a string or a non-string with a truthiness. Functions are `Member`s. Other JavaScript types are not modelled.
- Monitoring.HrtimeToNanoSecond: numbers are unbounded integers. Beyond 2^53, JavaScript's `parseInt` loses precision, and that is not modelled.
- Reporting.NanoSecondToMiliSecond: rounding is exact integer rounding, a half rounding up, as `toFixed(0)` does for exactly representable values. Floating-point division error for very large totals is not modelled.
- A plugin's name is fixed once the plugin is created. A name changed after registration is not modelled.
- The reporter reads a snapshot of each plugin (`PluginInfo`) rather than the objects themselves. This is equivalent, because reporting never changes a plugin.
- The Flow type `RollupPlugin` (`src/RollupPlugin.js`) and the `string.prototype.padstart` package are not part of this model. `padStart` is modelled by `Decimal.PadStart`.
- `rollup.config.js` and packaging are build configuration and are not modelled.
