# BuildSystem: player session record and login handlers

A Dafny model of the part of the BuildSystem server plugin that decides
what happens to a player's session when they log in:

- the per-player session record `BuildPlayer`. It holds a UUID and
  settings that are fixed at construction, four mutable fields (cached world,
  logout location, previous location, last-viewed navigator type), and a
  serialiser that persists only the settings and the logout location;
- the pre-login handler `onAsyncPlayerPreLogin`. Before the connection
  completes it does one of three things: it leaves the session alone, it
  clears a logout location whose world is no longer registered, or it queues
  a task that loads the logout world on the main thread;
- the join handlers of `PlayerJoinListener`:
  - the join message;
  - the settings side effects (no-clip, scoreboard, inventory clearing);
  - the choice between teleporting to the spawn, teleporting to the logout
    location, or not teleporting;
  - the effects of the world the player is in (the physics notice and
    archive vanish);
  - the update-check gate;
  - the visibility bookkeeping of `manageHidePlayer`.

The server is replaced by abstract state:

- The player manager is a map from UUID to `BuildPlayer`.
- The world manager is a map from world name to `WorldData`.
- The spawn manager is reduced to one boolean: whether a spawn is set.
- The scheduler is a `Scheduler` object with a sequence of pending tasks.
- The online players are a sequence of UUIDs.
- "v hides t" is a pair `HidePair(v, t)` in a set.
- Every call into the server, the message system or the update checker is an
  emitted `Action`.

The model uses one session record for both package generations of the
plugin: the `com.eintosti` `BuildPlayer` and the `de.eintosti`
`CraftBuildPlayer` that the join listener obtains, two classes in the code,
are both modelled by `Player.BuildPlayer`.

Files:

- `build_player.dfy` (module `Player`): the session record.
- `pre_login.dfy` (module `PreLogin`): the pre-login decision and handler.
- `player_join.dfy` (module `PlayerJoin`): the join handlers.
- `login_sequence.dfy` (module `LoginSequence`): how the two handlers fit
  together.
- `world.dfy` and `wrappers.dfy`: shared value types.

The handlers, as the code is written, behave as follows:

- The pre-login handler does not create a missing session. It returns.
- It queues a load whenever the logout world is registered. It does not ask
  whether the world is already loaded.
- The join handler teleports to the logout location without waiting for that
  load.
- `PreLoginLoadsJoinTarget` therefore proves only that a load was queued for
  every world the join teleports to. It does not prove that the load finished
  first.

## Model

| member | source | states |
|---|---|---|
| `Player.BuildPlayer.constructor` | buildsystem-core/src/main/java/com/eintosti/buildsystem/player/BuildPlayer.java:37-41 | A new record has the given uuid and settings and a fresh cached-values object. Cached world, logout location, previous location and last-looked-at are all absent, so only the settings are serialised. uuid, settings and the cached-values handle are `const`, so they never change and the getter always returns the same object. |
| `Player.BuildPlayer.SetCachedWorld` | buildsystem-core/src/main/java/com/eintosti/buildsystem/player/BuildPlayer.java:85-87 | Sets the cached world to the given value. The other mutable fields and the serialised form stay as they were. |
| `Player.BuildPlayer.SetLogoutLocation` | buildsystem-core/src/main/java/com/eintosti/buildsystem/player/BuildPlayer.java:104-106 | Sets the logout location to the given value, which may be absent (null). The other mutable fields stay as they were. |
| `Player.BuildPlayer.SetPreviousLocation` | buildsystem-core/src/main/java/com/eintosti/buildsystem/player/BuildPlayer.java:127-129 | Sets the previous location to the given value. The other mutable fields and the serialised form stay as they were. |
| `Player.BuildPlayer.SetLastLookedAt` | buildsystem-core/src/main/java/com/eintosti/buildsystem/player/BuildPlayer.java:146-148 | Sets the last-looked-at navigator type to the given value. The other mutable fields and the serialised form stay as they were. |
| `Player.BuildPlayer.Serialize` | buildsystem-core/src/main/java/com/eintosti/buildsystem/player/BuildPlayer.java:150-160 | "settings" is always present and maps to the settings' serialisation. "logout-location" is present if and only if a logout location is set, and then maps to its string form. No other key appears. |
| `Player.SerializeCapturesPersistedState` | buildsystem-core/src/main/java/com/eintosti/buildsystem/player/BuildPlayer.java:151-160 | Two records serialise to the same map if and only if their settings and logout locations agree. The serialised form loses no persisted field, and the cached world, previous location and last-looked-at never reach it. |
| `PreLogin.Scheduler.RunTask` | buildsystem-core/src/main/java/com/eintosti/buildsystem/listener/AsyncPlayerPreLoginListener.java:65 | Handing a task to the scheduler appends exactly that task to the pending tasks and does not run it. |
| `PreLogin.GetBuildPlayer` | buildsystem-core/src/main/java/com/eintosti/buildsystem/listener/AsyncPlayerPreLoginListener.java:46 | The player manager's lookup: the session is present (non-null) if and only if the UUID has one, and then it is that session. |
| `PreLogin.PreLoginDecision` | buildsystem-core/src/main/java/com/eintosti/buildsystem/listener/AsyncPlayerPreLoginListener.java:45-66 | Nothing is done if and only if there is no session, or spawn-teleport is on and a spawn exists, or there is no logout location. The logout location is cleared if and only if that world is unregistered. A load is scheduled if and only if that world is registered, and the load is for that world. |
| `PreLogin.LogoutAfterPreLogin` | buildsystem-core/src/main/java/com/eintosti/buildsystem/listener/AsyncPlayerPreLoginListener.java:51-63 | The logout location the session holds after the handler: it is never replaced by another location, only cleared; it is kept when the player is sent to an existing spawn and when its world is registered; and unless the spawn applies, a kept location names a registered world. |
| `PreLogin.OnAsyncPlayerPreLogin` | buildsystem-core/src/main/java/com/eintosti/buildsystem/listener/AsyncPlayerPreLoginListener.java:44-67 | The pending tasks gain exactly one `LoadWorld` for the logout world when the decision is to load, and nothing otherwise. The session's logout location becomes `LogoutAfterPreLogin` of its old state: absent when the decision is to clear it, kept otherwise. The other session fields stay as they were. The handler can modify only the scheduler and that one session; the world registry is outside its frame, so the load is deferred. |
| `PlayerJoin.JoinMessage` | buildsystem-core/src/main/java/de/eintosti/buildsystem/listener/PlayerJoinListener.java:69-73 | There is no join message (null) if and only if join/quit messages are disabled. Otherwise the message is "player_join" with `%player%` replaced by the player's name. |
| `PlayerJoin.SettingsActions` | buildsystem-core/src/main/java/de/eintosti/buildsystem/listener/PlayerJoinListener.java:84-94 | No-clip, scoreboard (with the forced sidebar update) and inventory clearing each happen if and only if their own flag is on, independently of one another, and nothing else happens. Each call is made once: the length is one per flag that is on, two for the scoreboard. The forced sidebar update comes right after the scoreboard is started. |
| `PlayerJoin.ChooseTeleport` | buildsystem-core/src/main/java/de/eintosti/buildsystem/listener/PlayerJoinListener.java:97-104 | The target is the spawn if and only if spawn-teleport is on and a spawn exists. Otherwise it is the logout location, if and only if one is set. Otherwise there is no teleport. Exactly one of the three holds. |
| `PlayerJoin.TeleportActions` | buildsystem-core/src/main/java/de/eintosti/buildsystem/listener/PlayerJoinListener.java:98-102 | A spawn target issues only the spawn teleport, a logout target only the asynchronous teleport to that location, and no target issues nothing. |
| `PlayerJoin.WorldActions` | buildsystem-core/src/main/java/de/eintosti/buildsystem/listener/PlayerJoinListener.java:106-118 | The physics notice for the current world is sent if and only if it is due (build world, physics off, `buildsystem.physics.message` held); invisibility is added if and only if archive vanish applies; nothing else is called, and the number of calls equals the number of effects due, so each is made exactly once when due. |
| `PlayerJoin.ApplyWorldEffects` | buildsystem-core/src/main/java/de/eintosti/buildsystem/listener/PlayerJoinListener.java:106-118 | The calls made are exactly `WorldActions` (the physics notice when due, invisibility under archive vanish, each once). Under archive vanish the loop over the online players makes every online player hide the joiner; otherwise the hidden relation is unchanged. |
| `PlayerJoin.HiddenFromAll` | buildsystem-core/src/main/java/de/eintosti/buildsystem/listener/PlayerJoinListener.java:116 | The hides added by archive vanish are exactly the pairs in which an online player hides the joiner. |
| `PlayerJoin.JoinHides` | buildsystem-core/src/main/java/de/eintosti/buildsystem/listener/PlayerJoinListener.java:126-139 | If the joiner has hide-players on, it hides every online player, and it hides no one else. The joiner hides a player if and only if the joiner has hide-players on and that player is online, or that player is the joiner, online, with hide-players on; the joiner never hides an offline player. A viewer hides the joiner if and only if that viewer is online and has hide-players on, or the viewer is the joiner, online, with hide-players on. Every added pair involves the joiner. |
| `PlayerJoin.ManageHidePlayer` | buildsystem-core/src/main/java/de/eintosti/buildsystem/listener/PlayerJoinListener.java:126-139 | The two loops over the online players leave the hidden relation equal to the old relation plus `JoinHides`. |
| `PlayerJoin.PerformUpdateCheck` | buildsystem-core/src/main/java/de/eintosti/buildsystem/listener/PlayerJoinListener.java:141-144 | The update check is requested if and only if the update checker is enabled in the configuration. It is the only possible call, and it is made at most once. |
| `PlayerJoin.OnPlayerJoin` | buildsystem-core/src/main/java/de/eintosti/buildsystem/listener/PlayerJoinListener.java:77-123 | The calls are exactly, in this order: the skull is cached; the settings effects (`SettingsActions`); the navigator is given; the teleport (`TeleportActions` of `ChooseTeleport`); the world effects (`WorldActions`); the update check when `buildsystem.updates` is held (`PerformUpdateCheck`). Hence the skull and the navigator are each issued once, inventory clearing precedes the navigator, the navigator precedes any teleport, and any teleport precedes the world effects. Each settings effect happens if and only if its flag is on. The spawn teleport and the logout teleport happen exactly as `ChooseTeleport` says. The physics notice and invisibility happen exactly under their conditions. The update check is requested if and only if the player has `buildsystem.updates` and the checker is enabled. The hidden relation becomes the old one plus the hides of `manageHidePlayer` plus, under archive vanish, the hides of the joiner by every online player. The method has no modifies clause, so the session, its logout location included, is only read. |
| `PlayerJoin.JoinActionsBySegment` | buildsystem-core/src/main/java/de/eintosti/buildsystem/listener/PlayerJoinListener.java:78-121 | In the join's sequence of calls, each kind of call is present if and only if it is in its own segment; the skull is at index 0 and nowhere else, the navigator at the index right after the settings effects and nowhere else, inventory clearing before it, teleports after it and before every world effect. |
| `PlayerJoin.JoinRespectsHidePlayers` | buildsystem-core/src/main/java/de/eintosti/buildsystem/listener/PlayerJoinListener.java:126-139 | Given one settings view for every player, the joiner included: if every player online before the join who has hide-players on hid every other player, the same holds among the players online after `manageHidePlayer`, the joiner included. |
| `PlayerJoin.JoinKeepsHidePlayers` | buildsystem-core/src/main/java/de/eintosti/buildsystem/listener/PlayerJoinListener.java:114-139 | For the hidden relation `OnPlayerJoin` leaves, the same guarantee holds among the players online after the join, provided the settings manager's view of the joiner is the session's own settings. Archive vanish only adds hides. |
| `PlayerJoin.HidersOfJoiner` | buildsystem-core/src/main/java/de/eintosti/buildsystem/listener/PlayerJoinListener.java:114-139 | After the join, a player hides the joiner if and only if one of these holds: they already did; they are online with hide-players on; they are online and archive vanish applies; they are the joiner, online, with hide-players on. No one else gains a hide of the joiner. |
| `LoginSequence.PreLoginLoadsJoinTarget` | buildsystem-core/src/main/java/com/eintosti/buildsystem/listener/AsyncPlayerPreLoginListener.java:51-66 | Suppose the spawn and the world registry are the same at pre-login and at join. Then the join teleports to the logout location if and only if pre-login queued a load, and that load is for the registered world the player is sent to. After a dangling logout location is cleared, the join does not teleport. The spawn is chosen under the same condition at both steps. |

## Left out

- Getters: `getUniqueId`, `getSettings`, `getCachedValues`, `getCachedWorld`, `getLogoutLocation`, `getPreviousLocation` and `getLastLookedAt` are plain field reads of `Player.BuildPlayer`, so they have no members of their own.
- The contents of `CachedValues`, the settings' own serialisation and the string form of a logout location are not modelled. They appear as opaque values: a fresh object, `SettingsData(settings)` and `LocationText(location)`.
- The plugin's `LogoutLocation` and the server's `Location` are one datatype, `Player.Location`, here; `logoutLocation.getLocation()` (PlayerJoinListener.java:102) is taken as the location itself.
- Coordinates and rotations are kept as integers. Nothing computes with them.
- `NavigatorInventoryType` is kept as an opaque name, because its values are not part of this model.
- The cached world is held by name, not as a reference to the world object.
- Message lookup and formatting, potion effects, skull caching, `PaperLib.teleportAsync`, inventory clearing and giving the navigator are emitted actions, not modelled behaviour.
- The update-check HTTP request and its completion callback are not modelled. Only the gate that issues the request is.
- What a queued load does to a world is not modelled. The world's load state and the load itself are not part of this model.
- Threading between the asynchronous pre-login thread and the main thread is not modelled. The scheduled load is a queued task.
- The world the player is in at the physics and archive checks is an independent input. It is read right after an asynchronous teleport, so it is not derived from the teleport target.
- The online players at join time are an input. Whether the server includes the joiner in that list, and whether it ignores a player hiding themself, is the server's concern. The model records every pair the handler asks for.
- PlayerJoin.JoinRespectsHidePlayers: the join reads the joiner's hide-players setting twice, from the session's settings in the first loop (PlayerJoinListener.java:128) and from the settings manager in the second (line 134). The model takes the settings manager's view as an independent input, so the guarantee is proved only when the two views agree; if they differ it can fail: a joiner whose session has hide-players off, but whom the settings manager reports with it on, hides no one.
- `createBuildPlayer` (PlayerJoinListener.java:81) is taken to return the player's existing session record, the one pre-login worked on; the player manager's code is not part of this model.
- Player.SerializeCapturesPersistedState: the "only if" half holds because the settings' serialiser and the logout location's string form are symbolic and so injective; the real serialisers are assumed injective. Only five of the real settings are modelled, and coordinates are integers.
- `LuckPermsExpansion` and `ArchiveInventory` are not modelled: one wraps an external permissions API, the other only passes constants to a navigator inventory that is not part of this model.
