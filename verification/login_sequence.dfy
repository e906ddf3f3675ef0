/**
 * The two login handlers together: the pre-login decision followed, for
 * the same session, by the join's teleport choice.
 */
module LoginSequence {
  import opened Player
  import opened World
  import opened PreLogin
  import opened PlayerJoin

  /**
   * With the same spawn, the same world registry and no other change to the
   * session in between, the join teleports to the logout location exactly
   * when pre-login queued a load, and then the load is of the world the
   * player is sent to, which is registered. After pre-login cleared a
   * dangling logout location, the join does not teleport at all.
   */
  lemma PreLoginLoadsJoinTarget(bp: BuildPlayer, spawnExists: bool, worlds: map<string, WorldData>)
    ensures
      var d := PreLoginDecision(bp, spawnExists, worlds);
      var t := ChooseTeleport(bp.settings, spawnExists, LogoutAfterPreLogin(bp, spawnExists, worlds));
      && (t.Logout? <==> d.ScheduleLoad?)
      && (t.Logout? ==> d.worldName == t.location.worldName && t.location.worldName in worlds)
      && (d.ClearLogoutLocation? ==> t == Stay)
      && (t == Spawn <==> bp.settings.spawnTeleport && spawnExists)
  {
  }
}
