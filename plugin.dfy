/**
 * The build tool's side of the contract: the few kinds of JavaScript value a
 * hook sees or returns, and the plugin objects whose hook methods get wrapped.
 */
module Plugins {
  import opened Wrappers

  /** A hook argument or result: a string, or any other value with its truthiness. */
  datatype Value = Str(text: string) | NonString(truthy: bool)
  {
    /** JavaScript truthiness: a string is truthy iff it is not empty. */
    predicate IsTruthy(): (r: bool)
      ensures Str? ==> (r <==> |text| > 0)
      ensures NonString? ==> (r <==> truthy)
    {
      match this
      case Str(text) => text != ""
      case NonString(truthy) => truthy
    }
  }

  /** An error thrown, by a hook or by the monitor. */
  datatype Error = Thrown(message: string)

  /**
   * What a plugin holds under a key: a value that is not a function, the
   * plugin's own method, or a timing proxy that closes over the plugin name,
   * the hook name and the member it replaced.
   */
  datatype Member = NonFunction | Method | Timed(pluginName: string, hookName: string, original: Member)
  {
    /** `typeof m === 'function'`: the plugin's own method or a proxy in its place. */
    predicate IsCallable(): (r: bool)
      ensures r <==> Method? || Timed?
    {
      !NonFunction?
    }
  }

  /** A registered plugin as the reporter sees it: its name and its members. */
  datatype PluginInfo = PluginInfo(name: string, members: map<string, Member>)
  {
    /** The plugin holds a function under `methodName`; a missing key is `undefined`, which is falsy. */
    predicate Implements(methodName: string) {
      methodName in members && members[methodName].IsCallable()
    }
  }

  /** A missing key reads as `undefined` and implements nothing; a present one iff it is a function. */
  lemma ImplementsCallable(plugin: PluginInfo, methodName: string)
    ensures methodName !in plugin.members ==> !plugin.Implements(methodName)
    ensures methodName in plugin.members
      ==> (plugin.Implements(methodName) <==> plugin.members[methodName].IsCallable())
  {
  }

  /** A plugin object; the monitor replaces its hook members in place. */
  class Plugin {
    const name: Option<string>
    var members: map<string, Member>

    constructor (name: Option<string>, members: map<string, Member>)
      ensures this.name == name && this.members == members
    {
      this.name := name;
      this.members := members;
    }

    /** JavaScript's `!plugin.name` is false: the name is present and not empty. */
    predicate HasName(): (r: bool)
      ensures r <==> name.Some? && |name.value| > 0
    {
      name.Some? && name.value != ""
    }

    function Info(): PluginInfo
      reads this
      requires HasName()
    {
      PluginInfo(name.value, members)
    }
  }
}
