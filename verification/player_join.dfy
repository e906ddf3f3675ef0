/**
 * The join handlers (PlayerJoinListener): the join message, the settings
 * side effects, the choice of teleport target, the effects that depend on
 * the world the player is in, the update-check gate and the visibility
 * bookkeeping of `manageHidePlayer`.
 *
 * The server is abstracted: the online players are a sequence of UUIDs in
 * the order the server lists them, "v hides t" is a pair in a set, and
 * every call into the server, the message system or the update checker is
 * an emitted `Action`.
 */
module PlayerJoin {
  import opened Wrappers
  import opened Player
  import opened World

  /** The configuration switches the join listener reads. */
  datatype ConfigValues = ConfigValues(joinQuitMessages: bool, archiveVanish: bool, updateChecker: bool)

  /** A message by key, with the placeholder replacements to apply to it. */
  datatype Message = Message(key: string, placeholders: seq<(string, string)>)

  const PhysicsMessagePermission: string := "buildsystem.physics.message"
  const UpdatesPermission: string := "buildsystem.updates"

  /** `viewer` no longer sees `target`. */
  datatype HidePair = HidePair(viewer: Uuid, target: Uuid)

  /** Where the joining player is sent. */
  datatype TeleportTarget = Spawn | Logout(location: Location) | Stay

  /** A call the join handler makes into the server or a collaborator. */
  datatype Action =
    | CacheSkull(playerName: string)
    | StartNoClip
    | StartScoreboard
    | ForceUpdateSidebar
    | ClearInventory
    | GiveNavigator
    | TeleportToSpawn
    | TeleportAsync(location: Location)
    | SendMessage(message: Message)
    | AddInvisibility
    | RequestUpdateCheck

  /**
   * What the join handler reads besides the joiner's session record: the
   * player's name, the online players, every player's settings, the
   * joiner's permissions, the configuration, whether a spawn is set, the
   * name of the world the player is in right after the teleport is issued,
   * and the world registry.
   */
  datatype JoinEnv = JoinEnv(
    playerName: string,
    online: seq<Uuid>,
    settingsOf: Uuid -> Settings,
    permissions: set<string>,
    config: ConfigValues,
    spawnExists: bool,
    currentWorld: string,
    worlds: map<string, WorldData>)

  /** The join message: none when join/quit messages are switched off. */
  function JoinMessage(config: ConfigValues, playerName: string): (m: Option<Message>)
    ensures m.None? <==> !config.joinQuitMessages
    ensures m.Some? ==> m.value.key == "player_join" && m.value.placeholders == [("%player%", playerName)]
  {
    if config.joinQuitMessages then Some(Message("player_join", [("%player%", playerName)])) else None
  }

  /**
   * Spawn if the player wants spawn teleport and a spawn exists; otherwise
   * the logout location if there is one; otherwise nowhere.
   */
  function ChooseTeleport(settings: Settings, spawnExists: bool, logout: Option<Location>): (t: TeleportTarget)
    ensures t == Spawn <==> settings.spawnTeleport && spawnExists
    ensures t.Logout? <==> !(settings.spawnTeleport && spawnExists) && logout.Some?
    ensures t == Stay <==> !(settings.spawnTeleport && spawnExists) && logout.None?
    ensures t.Logout? ==> logout == Some(t.location)
  {
    if settings.spawnTeleport && spawnExists then Spawn
    else if logout.Some? then Logout(logout.value)
    else Stay
  }

  /** The notice sent to a player who joins a world whose physics is off. */
  function PhysicsNotice(worldName: string): Message
  {
    Message("physics_deactivated_in_world", [("%world%", worldName)])
  }

  /** The physics notice is due: a build world with physics off, and the permission. */
  predicate PhysicsNoticeDue(env: JoinEnv)
  {
    && env.currentWorld in env.worlds
    && !env.worlds[env.currentWorld].physics
    && PhysicsMessagePermission in env.permissions
  }

  /** Archive vanish applies: a build world with status ARCHIVE, and archive vanish configured. */
  predicate ArchiveVanishDue(env: JoinEnv)
  {
    && env.currentWorld in env.worlds
    && env.config.archiveVanish
    && env.worlds[env.currentWorld].status == Archive
  }

  /** Every player in `viewers` hides `target`. */
  function HiddenFromAll(target: Uuid, viewers: seq<Uuid>): (r: set<HidePair>)
    ensures forall h :: h in r <==> h.target == target && h.viewer in viewers
  {
    set v | v in viewers :: HidePair(v, target)
  }

  /**
   * The hides `manageHidePlayer` adds when `joiner` joins: the joiner hides
   * every online player if `joinerHides`, and every online player whose own
   * hide-players setting is on hides the joiner.
   */
  function JoinHides(joiner: Uuid, joinerHides: bool, online: seq<Uuid>, settingsOf: Uuid -> Settings): (r: set<HidePair>)
    ensures joinerHides ==> forall p :: p in online ==> HidePair(joiner, p) in r
    ensures forall v :: HidePair(v, joiner) in r <==>
      v in online && (settingsOf(v).hidePlayers || (v == joiner && joinerHides))
    ensures forall h :: h in r ==> h.viewer == joiner || h.target == joiner
    ensures forall h :: h in r ==> h.viewer in online || h.target in online
    ensures forall p :: HidePair(joiner, p) in r <==>
      (joinerHides && p in online) || (p == joiner && joiner in online && settingsOf(joiner).hidePlayers)
  {
    (if joinerHides then HiddenBy(joiner, online) else {}) + HidersOf(joiner, online, settingsOf)
  }

  /**
   * `manageHidePlayer`: first the joiner hides every online player (if its
   * own settings say so), then each online player with hide-players on
   * hides the joiner.
   */
  method ManageHidePlayer(
    joiner: Uuid,
    joinerSettings: Settings,
    online: seq<Uuid>,
    settingsOf: Uuid -> Settings,
    hidden: set<HidePair>)
    returns (hidden': set<HidePair>)
    ensures hidden' == hidden + JoinHides(joiner, joinerSettings.hidePlayers, online, settingsOf)
  {
    hidden' := hidden;
    if joinerSettings.hidePlayers {
      for i := 0 to |online|
        invariant hidden' == hidden + HiddenBy(joiner, online[..i])
      {
        assert online[..i + 1] == online[..i] + [online[i]];
        hidden' := hidden' + {HidePair(joiner, online[i])};
      }
      assert online[..|online|] == online;
    }
    ghost var afterFirst := hidden';

    for i := 0 to |online|
      invariant hidden' == afterFirst + HidersOf(joiner, online[..i], settingsOf)
    {
      assert online[..i + 1] == online[..i] + [online[i]];
      var pl := online[i];
      if !settingsOf(pl).hidePlayers {
        continue;
      }
      hidden' := hidden' + {HidePair(pl, joiner)};
    }
    assert online[..|online|] == online;
  }

  /** `viewer` hides every player in `targets`. */
  function HiddenBy(viewer: Uuid, targets: seq<Uuid>): set<HidePair>
  {
    set p | p in targets :: HidePair(viewer, p)
  }

  /** Every player in `viewers` whose hide-players setting is on hides `target`. */
  function HidersOf(target: Uuid, viewers: seq<Uuid>, settingsOf: Uuid -> Settings): set<HidePair>
  {
    set v | v in viewers && settingsOf(v).hidePlayers :: HidePair(v, target)
  }

  /** `performUpdateCheck`: the update check is requested only when the checker is enabled. */
  function PerformUpdateCheck(config: ConfigValues): (r: seq<Action>)
    ensures RequestUpdateCheck in r <==> config.updateChecker
    ensures forall a :: a in r ==> a.RequestUpdateCheck?
    ensures |r| == (if config.updateChecker then 1 else 0)
  {
    if !config.updateChecker then [] else [RequestUpdateCheck]
  }

  /** The settings side effects of a join: each applied exactly when its own flag is on. */
  function SettingsActions(settings: Settings): (r: seq<Action>)
    ensures StartNoClip in r <==> settings.noClip
    ensures StartScoreboard in r <==> settings.scoreboard
    ensures ForceUpdateSidebar in r <==> settings.scoreboard
    ensures ClearInventory in r <==> settings.clearInventory
    ensures forall a :: a in r ==> a.StartNoClip? || a.StartScoreboard? || a.ForceUpdateSidebar? || a.ClearInventory?
    ensures |r| == (if settings.noClip then 1 else 0) + (if settings.scoreboard then 2 else 0)
      + (if settings.clearInventory then 1 else 0)
    ensures forall i :: 0 <= i < |r| && r[i] == ForceUpdateSidebar ==> 0 < i && r[i - 1] == StartScoreboard
    ensures forall i, j :: 0 <= i < |r| && 0 <= j < |r| && r[i] == StartScoreboard && r[j] == ForceUpdateSidebar ==> i < j
  {
    (if settings.noClip then [StartNoClip] else [])
    + (if settings.scoreboard then [StartScoreboard, ForceUpdateSidebar] else [])
    + (if settings.clearInventory then [ClearInventory] else [])
  }

  /** The teleport a join issues for the chosen target: at most one, and none for `Stay`. */
  function TeleportActions(target: TeleportTarget): (r: seq<Action>)
    ensures TeleportToSpawn in r <==> target == Spawn
    ensures forall loc :: TeleportAsync(loc) in r <==> target == Logout(loc)
    ensures |r| == (if target == Stay then 0 else 1)
    ensures forall a :: a in r ==> a.TeleportToSpawn? || a.TeleportAsync?
  {
    match target
    case Spawn => [TeleportToSpawn]
    case Logout(loc) => [TeleportAsync(loc)]
    case Stay => []
  }

  /**
   * The calls made for the world the player is in: the physics notice when
   * it is due, then invisibility when archive vanish applies.
   */
  function WorldActions(env: JoinEnv): (r: seq<Action>)
    ensures forall m :: SendMessage(m) in r <==>
      PhysicsNoticeDue(env) && m == PhysicsNotice(env.worlds[env.currentWorld].name)
    ensures AddInvisibility in r <==> ArchiveVanishDue(env)
    ensures forall a :: a in r ==> a.SendMessage? || a.AddInvisibility?
    ensures |r| == (if PhysicsNoticeDue(env) then 1 else 0) + (if ArchiveVanishDue(env) then 1 else 0)
  {
    (if PhysicsNoticeDue(env) then [SendMessage(PhysicsNotice(env.worlds[env.currentWorld].name))] else [])
    + (if ArchiveVanishDue(env) then [AddInvisibility] else [])
  }

  /**
   * The effects of the world the player is in, read right after the
   * teleport is issued: the physics notice, and archive vanish, under which
   * the joiner turns invisible and every online player hides it.
   */
  method ApplyWorldEffects(joiner: Uuid, env: JoinEnv, hidden: set<HidePair>)
    returns (worldActions: seq<Action>, hidden': set<HidePair>)
    ensures worldActions == WorldActions(env)
    ensures hidden' == hidden + (if ArchiveVanishDue(env) then HiddenFromAll(joiner, env.online) else {})
  {
    worldActions, hidden' := [], hidden;
    var worldName := env.currentWorld;
    if worldName in env.worlds {
      var worldData := env.worlds[worldName];
      if !worldData.physics && PhysicsMessagePermission in env.permissions {
        worldActions := worldActions + [SendMessage(PhysicsNotice(worldData.name))];
      }

      if env.config.archiveVanish && worldData.status == Archive {
        worldActions := worldActions + [AddInvisibility];
        for i := 0 to |env.online|
          invariant hidden' == hidden + HiddenFromAll(joiner, env.online[..i])
        {
          assert env.online[..i + 1] == env.online[..i] + [env.online[i]];
          hidden' := hidden' + {HidePair(env.online[i], joiner)};
        }
        assert env.online[..|env.online|] == env.online;
      }
    }
  }

  /**
   * The join's calls are made in segments of distinct kinds: the skull
   * first, then the settings effects, the navigator, the teleport, the
   * world effects and the update check. So each kind of call is among them
   * exactly when it is in its own segment, the skull and the navigator are
   * each issued once, and the segments keep their order.
   */
  lemma {:induction false} JoinActionsBySegment(
    playerName: string,
    settingsActions: seq<Action>,
    teleportActions: seq<Action>,
    worldActions: seq<Action>,
    updateActions: seq<Action>)
    requires forall a :: a in settingsActions ==>
      a.StartNoClip? || a.StartScoreboard? || a.ForceUpdateSidebar? || a.ClearInventory?
    requires forall a :: a in teleportActions ==> a.TeleportToSpawn? || a.TeleportAsync?
    requires forall a :: a in worldActions ==> a.SendMessage? || a.AddInvisibility?
    requires forall a :: a in updateActions ==> a.RequestUpdateCheck?
    ensures var actions := [CacheSkull(playerName)] + settingsActions + [GiveNavigator]
        + teleportActions + worldActions + updateActions;
      && actions[0] == CacheSkull(playerName)
      && GiveNavigator in actions
      && (forall a: Action :: (a.StartNoClip? || a.StartScoreboard? || a.ForceUpdateSidebar? || a.ClearInventory?) ==>
            (a in actions <==> a in settingsActions))
      && (forall a: Action :: (a.TeleportToSpawn? || a.TeleportAsync?) ==> (a in actions <==> a in teleportActions))
      && (forall a: Action :: (a.SendMessage? || a.AddInvisibility?) ==> (a in actions <==> a in worldActions))
      && (RequestUpdateCheck in actions <==> RequestUpdateCheck in updateActions)
    ensures var actions := [CacheSkull(playerName)] + settingsActions + [GiveNavigator]
        + teleportActions + worldActions + updateActions;
      var nav := 1 + |settingsActions|;
      var tel := nav + |teleportActions|;
      && (forall k :: 0 <= k < |actions| ==> (actions[k].CacheSkull? <==> k == 0))
      && (forall k :: 0 <= k < |actions| ==> (actions[k].GiveNavigator? <==> k == nav))
      && (forall k :: 0 <= k < |actions| && actions[k].ClearInventory? ==> k < nav)
      && (forall k :: 0 <= k < |actions| && (actions[k].TeleportToSpawn? || actions[k].TeleportAsync?) ==>
            nav < k <= tel)
      && (forall k :: 0 <= k < |actions| && (actions[k].SendMessage? || actions[k].AddInvisibility?) ==> tel < k)
  {
    var actions := [CacheSkull(playerName)] + settingsActions + [GiveNavigator]
      + teleportActions + worldActions + updateActions;
    var nav := 1 + |settingsActions|;
    var tel := nav + |teleportActions|;
    var wld := tel + |worldActions|;
    forall k | 0 <= k < |actions|
      ensures 0 < k <= |settingsActions| ==> actions[k] == settingsActions[k - 1]
      ensures k == nav ==> actions[k] == GiveNavigator
      ensures nav < k <= tel ==> actions[k] == teleportActions[k - nav - 1]
      ensures tel < k <= wld ==> actions[k] == worldActions[k - tel - 1]
      ensures wld < k ==> actions[k] == updateActions[k - wld - 1]
    {
    }
    forall k | 0 <= k < |actions|
      ensures actions[k] in actions
      ensures 0 < k <= |settingsActions| ==> settingsActions[k - 1] in settingsActions
      ensures nav < k <= tel ==> teleportActions[k - nav - 1] in teleportActions
      ensures tel < k <= wld ==> worldActions[k - tel - 1] in worldActions
      ensures wld < k ==> updateActions[k - wld - 1] in updateActions
    {
    }
  }

  /**
   * `onPlayerJoin` for the joiner whose session record is `bp`, given the
   * hidden relation before the join. Returns the calls made, in order, and
   * the hidden relation afterwards. The method has no modifies clause, so
   * the session record, its logout location included, is left as it was.
   */
  method OnPlayerJoin(bp: BuildPlayer, env: JoinEnv, hidden: set<HidePair>)
    returns (actions: seq<Action>, hidden': set<HidePair>)
    ensures |actions| > 0 && actions[0] == CacheSkull(env.playerName)
    ensures GiveNavigator in actions
    ensures StartNoClip in actions <==> bp.settings.noClip
    ensures StartScoreboard in actions <==> bp.settings.scoreboard
    ensures ForceUpdateSidebar in actions <==> bp.settings.scoreboard
    ensures ClearInventory in actions <==> bp.settings.clearInventory
    ensures TeleportToSpawn in actions <==> ChooseTeleport(bp.settings, env.spawnExists, bp.logoutLocation) == Spawn
    ensures forall loc :: TeleportAsync(loc) in actions <==>
      ChooseTeleport(bp.settings, env.spawnExists, bp.logoutLocation) == Logout(loc)
    ensures forall m :: SendMessage(m) in actions <==>
      PhysicsNoticeDue(env) && m == PhysicsNotice(env.worlds[env.currentWorld].name)
    ensures AddInvisibility in actions <==> ArchiveVanishDue(env)
    ensures RequestUpdateCheck in actions <==> UpdatesPermission in env.permissions && env.config.updateChecker
    ensures actions == [CacheSkull(env.playerName)] + SettingsActions(bp.settings) + [GiveNavigator]
      + TeleportActions(ChooseTeleport(bp.settings, env.spawnExists, bp.logoutLocation))
      + WorldActions(env)
      + (if UpdatesPermission in env.permissions then PerformUpdateCheck(env.config) else [])
    ensures forall i, j :: 0 <= i < |actions| && 0 <= j < |actions| && actions[i].CacheSkull? && actions[j].CacheSkull? ==> i == j
    ensures forall i, j :: 0 <= i < |actions| && 0 <= j < |actions| && actions[i].GiveNavigator? && actions[j].GiveNavigator? ==> i == j
    ensures forall i, j :: 0 <= i < |actions| && 0 <= j < |actions| && actions[i].ClearInventory? && actions[j].GiveNavigator? ==> i < j
    ensures forall i, j :: (0 <= i < |actions| && 0 <= j < |actions| && actions[i].GiveNavigator?
      && (actions[j].TeleportToSpawn? || actions[j].TeleportAsync?)) ==> i < j
    ensures forall i, j :: (0 <= i < |actions| && 0 <= j < |actions| && (actions[i].TeleportToSpawn? || actions[i].TeleportAsync?)
      && (actions[j].SendMessage? || actions[j].AddInvisibility?)) ==> i < j
    ensures hidden' == hidden + JoinHides(bp.uuid, bp.settings.hidePlayers, env.online, env.settingsOf)
      + (if ArchiveVanishDue(env) then HiddenFromAll(bp.uuid, env.online) else {})
  {
    actions := [CacheSkull(env.playerName)];
    hidden' := ManageHidePlayer(bp.uuid, bp.settings, env.online, env.settingsOf, hidden);

    var settings := bp.settings;
    var settingsActions := SettingsActions(settings);
    actions := actions + settingsActions + [GiveNavigator];

    var teleportActions := TeleportActions(ChooseTeleport(settings, env.spawnExists, bp.logoutLocation));
    actions := actions + teleportActions;

    var worldActions;
    worldActions, hidden' := ApplyWorldEffects(bp.uuid, env, hidden');
    actions := actions + worldActions;

    var updateActions: seq<Action> := [];
    if UpdatesPermission in env.permissions {
      updateActions := PerformUpdateCheck(env.config);
    }
    actions := actions + updateActions;

    JoinActionsBySegment(env.playerName, settingsActions, teleportActions, worldActions, updateActions);
  }

  /**
   * Every online player whose hide-players setting is on hides every other
   * online player.
   */
  ghost predicate HidePlayersRespected(online: seq<Uuid>, settingsOf: Uuid -> Settings, hidden: set<HidePair>)
  {
    forall a, b :: a in online && b in online && a != b && settingsOf(a).hidePlayers ==> HidePair(a, b) in hidden
  }

  /**
   * A join keeps the hide-players guarantee: if it held among the players
   * online before, it holds among the players online afterwards, the
   * joiner included, once `manageHidePlayer` has run.
   */
  lemma JoinRespectsHidePlayers(
    before: seq<Uuid>,
    online: seq<Uuid>,
    joiner: Uuid,
    settingsOf: Uuid -> Settings,
    hidden: set<HidePair>)
    requires HidePlayersRespected(before, settingsOf, hidden)
    requires forall p :: p in online ==> p in before || p == joiner
    ensures HidePlayersRespected(online, settingsOf,
      hidden + JoinHides(joiner, settingsOf(joiner).hidePlayers, online, settingsOf))
  {
  }

  /**
   * The hide-players guarantee for the relation `OnPlayerJoin` leaves, when
   * the settings manager's view of the joiner is the session's own
   * settings: archive vanish only adds hides, so it cannot break it.
   */
  lemma JoinKeepsHidePlayers(before: seq<Uuid>, bp: BuildPlayer, env: JoinEnv, hidden: set<HidePair>)
    requires env.settingsOf(bp.uuid) == bp.settings
    requires HidePlayersRespected(before, env.settingsOf, hidden)
    requires forall p :: p in env.online ==> p in before || p == bp.uuid
    ensures HidePlayersRespected(env.online, env.settingsOf,
      hidden + JoinHides(bp.uuid, bp.settings.hidePlayers, env.online, env.settingsOf)
      + (if ArchiveVanishDue(env) then HiddenFromAll(bp.uuid, env.online) else {}))
  {
    JoinRespectsHidePlayers(before, env.online, bp.uuid, env.settingsOf, hidden);
  }

  /**
   * Who hides the joiner once the join is complete: exactly those who hid
   * it before, and the online players that have hide-players on, or that
   * all do under archive vanish, or the joiner itself when it hides others.
   */
  lemma HidersOfJoiner(bp: BuildPlayer, env: JoinEnv, hidden: set<HidePair>, v: Uuid)
    ensures var after := hidden + JoinHides(bp.uuid, bp.settings.hidePlayers, env.online, env.settingsOf)
      + (if ArchiveVanishDue(env) then HiddenFromAll(bp.uuid, env.online) else {});
      HidePair(v, bp.uuid) in after <==>
        || HidePair(v, bp.uuid) in hidden
        || (v in env.online
            && (env.settingsOf(v).hidePlayers || ArchiveVanishDue(env) || (v == bp.uuid && bp.settings.hidePlayers)))
  {
  }
}
