/** The enable and disable transitions of a plugin's lifecycle state, shared
    by the manager (`internal/manager/manager.go`) and the runtime instance
    (`internal/runtime/instance.go`). */
module Lifecycle {
  import opened PluginInfo

  /** The states from which an enable is attempted. */
  predicate CanEnable(s: State) {
    s == StateLoaded || s == StateDisabled
  }

  /** The state after an enable request whose `on_enable` callback failed or
      not: only a loaded or disabled plugin moves, to enabled on success and
      to error on failure. */
  function AfterEnable(s: State, callbackFailed: bool): (r: State)
    ensures r == StateEnabled <==> s == StateEnabled || (CanEnable(s) && !callbackFailed)
    ensures r == StateError <==> s == StateError || (CanEnable(s) && callbackFailed)
    ensures !CanEnable(s) ==> r == s
  {
    if CanEnable(s) then (if callbackFailed then StateError else StateEnabled) else s
  }

  /** The state after a disable request: only an enabled plugin moves, and it
      always ends disabled, whatever its `on_disable` callback did. */
  function AfterDisable(s: State): (r: State)
    ensures r != StateEnabled
    ensures r == StateDisabled <==> s == StateEnabled || s == StateDisabled
    ensures s != StateEnabled ==> r == s
  {
    if s == StateEnabled then StateDisabled else s
  }
}
