/**
 * One completed plugin-hook invocation: which plugin, which hook, how many
 * nanoseconds it took, and the files it concerned. A record is a value: it is
 * built once and every operation on it only reads it.
 */
module HookCalls {
  import opened Wrappers

  datatype HookCall = HookCall(
    sourceName: string,
    hookName: string,
    executionTime: nat,
    fromFile: Option<string>,
    onFile: Option<string>)
  {
    /** Strict equality of the recorded plugin name with `pluginName`. */
    predicate IsFromPlugin(pluginName: string): (r: bool)
      ensures r <==> sourceName == pluginName
    {
      sourceName == pluginName
    }

    /** A call of one hook is in particular a call from that hook's plugin. */
    function IsFromMethod(pluginName: string, methodName: string): (r: bool)
      ensures r <==> IsFromPlugin(pluginName) && hookName == methodName
      ensures r ==> IsFromPlugin(pluginName)
    {
      sourceName == pluginName && hookName == methodName
    }

    /** A record whose `onFile` is null is on no file at all. */
    function IsOnFile(path: string): (r: bool)
      ensures onFile.None? ==> !r
      ensures r ==> GetOnFile() == Some(path)
    {
      onFile == Some(path)
    }

    function GetExecutionTime(): (t: nat)
      ensures t == executionTime
    {
      executionTime
    }

    /** The stored `onFile`, null included. */
    function GetOnFile(): (f: Option<string>)
      ensures f == onFile
    {
      onFile
    }
  }

  /**
   * The record constructor, with the two file arguments optional and null by
   * default. Everything passed in is read back unchanged by the accessors.
   */
  function NewHookCall(
    sourceName: string,
    hookName: string,
    executionTime: nat,
    fromFile: Option<string> := None,
    onFile: Option<string> := None): (c: HookCall)
    ensures c.GetExecutionTime() == executionTime
    ensures c.GetOnFile() == onFile && c.fromFile == fromFile
    ensures c.IsFromMethod(sourceName, hookName)
    ensures forall path :: c.IsOnFile(path) <==> onFile == Some(path)
  {
    HookCall(sourceName, hookName, executionTime, fromFile, onFile)
  }

  /** Built from three arguments, a record has neither file. */
  lemma DefaultFilesAreNull(sourceName: string, hookName: string, executionTime: nat)
    ensures NewHookCall(sourceName, hookName, executionTime).fromFile == None
    ensures NewHookCall(sourceName, hookName, executionTime).GetOnFile() == None
    ensures forall path :: !NewHookCall(sourceName, hookName, executionTime).IsOnFile(path)
  {
  }
}
