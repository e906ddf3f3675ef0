/**
 * The per-player session record (BuildPlayer): two values fixed at
 * construction (the player's UUID and settings), a handle to short-lived
 * cached values, and four mutable fields that Java leaves null until a
 * setter fills them. Only the settings and the logout location are
 * persisted by the serialiser.
 */
module Player {
  import opened Wrappers

  /** A player's unique id (Java's UUID), kept abstract as a number. */
  type Uuid = nat

  /**
   * The per-player settings the login handlers consult. The settings class
   * holds more options than these; the others play no part here.
   */
  datatype Settings = Settings(
    noClip: bool,
    scoreboard: bool,
    clearInventory: bool,
    spawnTeleport: bool,
    hidePlayers: bool)

  /**
   * A position in a named world. Bukkit stores the coordinates as doubles
   * and the rotation as floats; nothing here computes with them, so they
   * are kept as integers.
   */
  datatype Location = Location(worldName: string, x: int, y: int, z: int, yaw: int, pitch: int)

  /** The kind of navigator inventory a player last looked at, by name. */
  datatype NavigatorInventoryType = NavigatorInventoryType(name: string)

  /**
   * A value in the serialised map. `SettingsData(s)` stands for what the
   * settings' own serialiser produces for `s`, `LocationText(l)` for the
   * string form of the logout location `l`; both formats are symbolic here.
   */
  datatype Value = SettingsData(settings: Settings) | LocationText(location: Location)

  const SettingsKey: string := "settings"
  const LogoutLocationKey: string := "logout-location"

  /** The container of short-lived per-player values; its contents play no part here. */
  class CachedValues {
    constructor ()
    {
    }
  }

  class BuildPlayer {
    const uuid: Uuid
    const settings: Settings
    const cachedValues: CachedValues

    /** The world (by name) the player has selected for a later action. */
    var cachedWorld: Option<string>
    /** Where the player was when they last logged off. */
    var logoutLocation: Option<Location>
    /** Where the player was before their last teleport. */
    var previousLocation: Option<Location>
    /** The navigator inventory the player last looked at. */
    var lastLookedAt: Option<NavigatorInventoryType>

    constructor (uuid: Uuid, settings: Settings)
      ensures this.uuid == uuid && this.settings == settings
      ensures fresh(cachedValues)
      ensures cachedWorld == None && logoutLocation == None
      ensures previousLocation == None && lastLookedAt == None
      ensures Serialize() == map[SettingsKey := SettingsData(settings)]
    {
      this.uuid := uuid;
      this.settings := settings;
      this.cachedValues := new CachedValues();
      cachedWorld := None;
      logoutLocation := None;
      previousLocation := None;
      lastLookedAt := None;
    }

    method SetCachedWorld(world: Option<string>)
      modifies this
      ensures cachedWorld == world
      ensures logoutLocation == old(logoutLocation)
      ensures previousLocation == old(previousLocation) && lastLookedAt == old(lastLookedAt)
      ensures Serialize() == old(Serialize())
    {
      cachedWorld := world;
    }

    method SetLogoutLocation(location: Option<Location>)
      modifies this
      ensures logoutLocation == location
      ensures cachedWorld == old(cachedWorld)
      ensures previousLocation == old(previousLocation) && lastLookedAt == old(lastLookedAt)
    {
      logoutLocation := location;
    }

    method SetPreviousLocation(location: Option<Location>)
      modifies this
      ensures previousLocation == location
      ensures cachedWorld == old(cachedWorld) && logoutLocation == old(logoutLocation)
      ensures lastLookedAt == old(lastLookedAt)
      ensures Serialize() == old(Serialize())
    {
      previousLocation := location;
    }

    method SetLastLookedAt(navigatorType: Option<NavigatorInventoryType>)
      modifies this
      ensures lastLookedAt == navigatorType
      ensures cachedWorld == old(cachedWorld) && logoutLocation == old(logoutLocation)
      ensures previousLocation == old(previousLocation)
      ensures Serialize() == old(Serialize())
    {
      lastLookedAt := navigatorType;
    }

    /**
     * The persisted key/value form of the record: the settings always, the
     * logout location only when there is one. The cached world, previous
     * location and last-looked-at navigator are never written.
     */
    function Serialize(): (m: map<string, Value>)
      reads this
      ensures SettingsKey in m && m[SettingsKey] == SettingsData(settings)
      ensures LogoutLocationKey in m <==> logoutLocation.Some?
      ensures logoutLocation.Some? ==> m[LogoutLocationKey] == LocationText(logoutLocation.value)
      ensures m.Keys <= {SettingsKey, LogoutLocationKey}
    {
      var player := map[SettingsKey := SettingsData(settings)];
      if logoutLocation.Some? then
        player[LogoutLocationKey := LocationText(logoutLocation.value)]
      else
        player
    }
  }

  /**
   * Two records serialise alike exactly when their persisted fields agree:
   * the serialised form loses nothing of the settings and logout location,
   * and depends on nothing else.
   */
  lemma SerializeCapturesPersistedState(a: BuildPlayer, b: BuildPlayer)
    ensures a.Serialize() == b.Serialize()
        <==> a.settings == b.settings && a.logoutLocation == b.logoutLocation
  {
  }
}
