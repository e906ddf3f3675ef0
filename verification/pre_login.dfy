/**
 * The pre-login handler (AsyncPlayerPreLoginListener): before a player's
 * connection completes, it either leaves everything alone, clears a logout
 * location whose world is no longer registered, or queues a task that
 * loads the logout world on the main thread.
 *
 * The player manager is a map from UUID to session record, the world
 * manager a map from world name to world, the spawn manager the single
 * fact whether a spawn is set, and the server scheduler a queue of tasks.
 */
module PreLogin {
  import opened Wrappers
  import opened Player
  import opened World

  /** A task handed to the server scheduler. */
  datatype Task = LoadWorld(worldName: string)

  /** The server scheduler: tasks queued to run later on the main thread. */
  class Scheduler {
    var pending: seq<Task>

    constructor ()
      ensures pending == []
    {
      pending := [];
    }

    /** Queues a task; it is not run here. */
    method RunTask(task: Task)
      modifies this
      ensures pending == old(pending) + [task]
    {
      pending := pending + [task];
    }
  }

  /** The session record the player manager holds for `uuid`, or null. */
  function GetBuildPlayer(players: map<Uuid, BuildPlayer>, uuid: Uuid): (bp: BuildPlayer?)
    ensures bp != null <==> uuid in players
    ensures bp != null ==> bp == players[uuid]
  {
    if uuid in players then players[uuid] else null
  }

  /** What the pre-login handler ends up doing. */
  datatype PreLoginOutcome = Ignore | ClearLogoutLocation | ScheduleLoad(worldName: string)

  /**
   * The handler's decision for session `bp` (null when the player has none).
   * Nothing is done without a session, when the player is sent to an
   * existing spawn on join, or without a logout location; otherwise the
   * logout location is cleared if its world is unknown and its world is
   * loaded (later) if it is known.
   */
  function PreLoginDecision(bp: BuildPlayer?, spawnExists: bool, worlds: map<string, WorldData>): (d: PreLoginOutcome)
    reads bp
    ensures d == Ignore <==>
      bp == null || (bp.settings.spawnTeleport && spawnExists) || bp.logoutLocation.None?
    ensures d.ClearLogoutLocation? <==>
      && bp != null
      && !(bp.settings.spawnTeleport && spawnExists)
      && bp.logoutLocation.Some?
      && bp.logoutLocation.value.worldName !in worlds
    ensures d.ScheduleLoad? <==>
      && bp != null
      && !(bp.settings.spawnTeleport && spawnExists)
      && bp.logoutLocation.Some?
      && bp.logoutLocation.value.worldName in worlds
    ensures d.ScheduleLoad? ==> bp != null && bp.logoutLocation.Some? && d.worldName == bp.logoutLocation.value.worldName
  {
    if bp == null then Ignore
    else if bp.settings.spawnTeleport && spawnExists then Ignore
    else if bp.logoutLocation.None? then Ignore
    else if bp.logoutLocation.value.worldName !in worlds then ClearLogoutLocation
    else ScheduleLoad(bp.logoutLocation.value.worldName)
  }

  /**
   * The logout location session `bp` holds once the handler has run. The
   * handler only ever clears it, and never while the player is sent to an
   * existing spawn; a registered logout world is kept, and whatever is
   * kept names a registered world unless the spawn applies.
   */
  function LogoutAfterPreLogin(bp: BuildPlayer, spawnExists: bool, worlds: map<string, WorldData>): (l: Option<Location>)
    reads bp
    ensures l.Some? ==> l == bp.logoutLocation
    ensures bp.settings.spawnTeleport && spawnExists ==> l == bp.logoutLocation
    ensures bp.logoutLocation.Some? && bp.logoutLocation.value.worldName in worlds ==> l == bp.logoutLocation
    ensures !(bp.settings.spawnTeleport && spawnExists) && l.Some? ==> l.value.worldName in worlds
  {
    if PreLoginDecision(bp, spawnExists, worlds).ClearLogoutLocation? then None else bp.logoutLocation
  }

  /**
   * The handler itself. The only session field it may write is the logout
   * location, and only to None; the only other effect is at most one
   * queued load task. The world registry is not in its frame: the load is
   * deferred, never run here.
   */
  method OnAsyncPlayerPreLogin(
    uuid: Uuid,
    players: map<Uuid, BuildPlayer>,
    spawnExists: bool,
    worlds: map<string, WorldData>,
    scheduler: Scheduler)
    modifies scheduler, if uuid in players then {players[uuid]} else {}
    ensures var d := old(PreLoginDecision(GetBuildPlayer(players, uuid), spawnExists, worlds));
      scheduler.pending == old(scheduler.pending) + (if d.ScheduleLoad? then [LoadWorld(d.worldName)] else [])
    ensures uuid in players ==>
      var bp := players[uuid];
      && bp.logoutLocation == old(LogoutAfterPreLogin(bp, spawnExists, worlds))
      && bp.cachedWorld == old(bp.cachedWorld)
      && bp.previousLocation == old(bp.previousLocation)
      && bp.lastLookedAt == old(bp.lastLookedAt)
  {
    var buildPlayer := GetBuildPlayer(players, uuid);
    if buildPlayer == null {
      return;
    }

    var settings := buildPlayer.settings;
    if settings.spawnTeleport && spawnExists {
      return;
    }

    var logoutLocation := buildPlayer.logoutLocation;
    if logoutLocation.None? {
      return;
    }

    var worldName := logoutLocation.value.worldName;
    if worldName !in worlds {
      buildPlayer.SetLogoutLocation(None);
    } else {
      scheduler.RunTask(LoadWorld(worldName));
    }
  }
}
