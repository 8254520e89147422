/** Shared host types of `pkg/types/types.go`: the dotted event-type names,
    which of them a plugin may cancel, and the display names of the runtime's
    plugin states and of log levels. */
module Types {
  import opened Wrappers

  /** An event type is its underlying string; `EventType.String` is the identity. */
  type EventType = string

  const EventPlayerJoin: EventType := "player.join"
  const EventPlayerQuit: EventType := "player.quit"
  const EventPlayerChat: EventType := "player.chat"
  const EventPlayerMove: EventType := "player.move"
  const EventPlayerTeleport: EventType := "player.teleport"
  const EventPlayerJump: EventType := "player.jump"
  const EventPlayerSprint: EventType := "player.sprint"
  const EventPlayerSneak: EventType := "player.sneak"
  const EventPlayerRespawn: EventType := "player.respawn"
  const EventPlayerDeath: EventType := "player.death"
  const EventPlayerHurt: EventType := "player.hurt"
  const EventPlayerHeal: EventType := "player.heal"
  const EventPlayerAttack: EventType := "player.attack"
  const EventPlayerCommand: EventType := "player.command"
  const EventPlayerTransfer: EventType := "player.transfer"
  const EventPlayerSkinChange: EventType := "player.skin_change"
  const EventBlockBreak: EventType := "block.break"
  const EventBlockPlace: EventType := "block.place"
  const EventBlockInteract: EventType := "block.interact"
  const EventSignEdit: EventType := "block.sign_edit"
  const EventItemUse: EventType := "item.use"
  const EventItemUseOnBlock: EventType := "item.use_on_block"
  const EventItemUseOnEntity: EventType := "item.use_on_entity"
  const EventItemConsume: EventType := "item.consume"
  const EventItemDrop: EventType := "item.drop"
  const EventItemPickup: EventType := "item.pickup"
  const EventEntitySpawn: EventType := "entity.spawn"
  const EventEntityDespawn: EventType := "entity.despawn"

  /** The event types a plugin may cancel. */
  const Cancellable: set<EventType> := {
    EventPlayerJoin, EventPlayerChat, EventPlayerMove, EventPlayerTeleport,
    EventPlayerHurt, EventPlayerHeal, EventPlayerAttack, EventPlayerCommand,
    EventPlayerTransfer, EventBlockBreak, EventBlockPlace, EventBlockInteract,
    EventItemUse, EventItemUseOnBlock, EventItemUseOnEntity, EventItemConsume,
    EventItemDrop, EventItemPickup, EventSignEdit, EventPlayerDeath
  }

  /** The declared event types a plugin may not cancel. */
  const NotCancellable: set<EventType> := {
    EventPlayerQuit, EventPlayerJump, EventPlayerSprint, EventPlayerSneak,
    EventPlayerRespawn, EventPlayerSkinChange, EventEntitySpawn, EventEntityDespawn
  }

  function IsCancellable(e: EventType): (r: bool)
    ensures e in NotCancellable ==> !r
  {
    match e
    case "player.join" => true
    case "player.chat" => true
    case "player.move" => true
    case "player.teleport" => true
    case "player.hurt" => true
    case "player.heal" => true
    case "player.attack" => true
    case "player.command" => true
    case "player.transfer" => true
    case "block.break" => true
    case "block.place" => true
    case "block.interact" => true
    case "item.use" => true
    case "item.use_on_block" => true
    case "item.use_on_entity" => true
    case "item.consume" => true
    case "item.drop" => true
    case "item.pickup" => true
    case "block.sign_edit" => true
    case "player.death" => true
    case _ => false
  }

  /** Exactly the twenty listed event types are cancellable; every other string,
      among them the eight remaining declared event types, is not. */
  lemma CancellableExactly(e: EventType)
    ensures IsCancellable(e) <==> e in Cancellable
  {
  }

  // ---------------------------------------------------------------------------
  // Display names indexed by an enumeration value

  /** `names[i]` when `i` is in range, else "unknown" (the shape of every
      `String` method over an integer enumeration in this code base). */
  function NameAt(names: seq<string>, i: nat): string {
    if i < |names| then names[i] else "unknown"
  }

  /** Looks a display name up again; the partner of `NameAt`. */
  function IndexOfName(names: seq<string>, name: string): (r: Option<nat>)
    ensures r.Some? ==> r.value < |names| && names[r.value] == name
    ensures r.None? ==> name !in names
  {
    if |names| == 0 then None
    else if names[0] == name then Some(0)
    else match IndexOfName(names[1..], name)
      case Some(k) => Some(k + 1)
      case None => None
  }

  predicate Distinct(names: seq<string>) {
    forall i, j :: 0 <= i < j < |names| ==> names[i] != names[j]
  }

  /** With distinct names, every in-range value is recovered from its name. */
  lemma NameRoundTrip(names: seq<string>, i: nat)
    requires Distinct(names) && i < |names|
    ensures IndexOfName(names, NameAt(names, i)) == Some(i)
  {
    var r := IndexOfName(names, names[i]);
    assert r.Some?;
  }

  // ---------------------------------------------------------------------------
  // Runtime plugin states (a different enumeration from the manager's State)

  type PluginState = nat

  const StateUnloaded: PluginState := 0
  const StateLoading: PluginState := 1
  const StateLoaded: PluginState := 2
  const StateEnabled: PluginState := 3
  const StateDisabled: PluginState := 4
  const StateError: PluginState := 5

  const PluginStateNames: seq<string> := ["unloaded", "loading", "loaded", "enabled", "disabled", "error"]

  function PluginStateString(s: PluginState): (r: string)
    ensures s >= |PluginStateNames| <==> r == "unknown"
    ensures s < |PluginStateNames| ==> IndexOfName(PluginStateNames, r) == Some(s)
  {
    assert Distinct(PluginStateNames);
    if s < |PluginStateNames| then NameRoundTrip(PluginStateNames, s); NameAt(PluginStateNames, s)
    else NameAt(PluginStateNames, s)
  }

  // ---------------------------------------------------------------------------
  // Log levels

  type LogLevel = nat

  const LogDebug: LogLevel := 0
  const LogInfo: LogLevel := 1
  const LogWarn: LogLevel := 2
  const LogError: LogLevel := 3

  const LogLevelNames: seq<string> := ["debug", "info", "warn", "error"]

  function LogLevelString(l: LogLevel): (r: string)
    ensures l >= |LogLevelNames| <==> r == "unknown"
    ensures l < |LogLevelNames| ==> IndexOfName(LogLevelNames, r) == Some(l)
  {
    assert Distinct(LogLevelNames);
    if l < |LogLevelNames| then NameRoundTrip(LogLevelNames, l); NameAt(LogLevelNames, l)
    else NameAt(LogLevelNames, l)
  }
}
