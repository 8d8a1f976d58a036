/** Per-player permission sets and the built-in role table (backend/core/permissions.py). */
module Permissions {

  const Admin := "admin"
  const KickPlayer := "kick_player"
  const BanPlayer := "ban_player"
  const ModifyLobby := "modify_lobby"
  const AddBot := "add_bot"
  const RemoveBot := "remove_bot"
  const StartMatch := "start_match"
  const ViewAnalytics := "view_analytics"

  /** The role table: every permission for admin, three for moderator, none for player. */
  function DefaultRoles(): (roles: map<string, set<string>>)
    ensures roles.Keys == {"admin", "moderator", "player"}
    ensures roles["player"] == {}
    ensures roles["moderator"] == {"kick_player", "add_bot", "remove_bot"}
    ensures |roles["admin"]| == 8 && "admin" in roles["admin"]
  {
    map[
      "admin" := {Admin, KickPlayer, BanPlayer, ModifyLobby, AddBot, RemoveBot, StartMatch, ViewAnalytics},
      "moderator" := {KickPlayer, AddBot, RemoveBot},
      "player" := {}]
  }

  class PermissionManager {
    var playerPermissions: map<string, set<string>>
    /** Never changed by any method; Dafny sets are values, so `assign_role` takes a copy. */
    const rolePermissions: map<string, set<string>>

    constructor ()
      ensures playerPermissions == map[] && rolePermissions == DefaultRoles()
    {
      playerPermissions := map[];
      rolePermissions := DefaultRoles();
    }

    /** `grant_permission`: creates the player's set when absent, then adds the permission. */
    method GrantPermission(playerId: string, permission: string)
      modifies this
      ensures playerPermissions == old(playerPermissions)[playerId := old(GetPermissions(playerId)) + {permission}]
      ensures HasPermission(playerId, permission)
    {
      if playerId !in playerPermissions {
        playerPermissions := playerPermissions[playerId := {}];
      }
      playerPermissions := playerPermissions[playerId := playerPermissions[playerId] + {permission}];
    }

    /** `revoke_permission`: discards the permission; a no-op for an unknown player. */
    method RevokePermission(playerId: string, permission: string)
      modifies this
      ensures playerId in old(playerPermissions) ==>
        playerPermissions == old(playerPermissions)[playerId := old(playerPermissions[playerId]) - {permission}]
      ensures playerId !in old(playerPermissions) ==> playerPermissions == old(playerPermissions)
      ensures !HasPermission(playerId, permission)
    {
      if playerId in playerPermissions {
        playerPermissions := playerPermissions[playerId := playerPermissions[playerId] - {permission}];
      }
    }

    /** False for a player with no entry. */
    predicate HasPermission(playerId: string, permission: string)
      reads this
    {
      if playerId in playerPermissions then permission in playerPermissions[playerId] else false
    }

    /** `assign_role`: the player's set becomes the role's set; unknown roles change nothing. */
    method AssignRole(playerId: string, role: string)
      modifies this
      ensures role in rolePermissions ==> playerPermissions == old(playerPermissions)[playerId := rolePermissions[role]]
      ensures role !in rolePermissions ==> playerPermissions == old(playerPermissions)
      ensures role in rolePermissions ==> forall x :: HasPermission(playerId, x) <==> x in rolePermissions[role]
      ensures forall q, x :: q != playerId ==> (HasPermission(q, x) <==> old(HasPermission(q, x)))
    {
      if role in rolePermissions {
        playerPermissions := playerPermissions[playerId := rolePermissions[role]];
      }
    }

    /** The player's set, empty for a player with no entry. */
    function GetPermissions(playerId: string): (ps: set<string>)
      reads this
      ensures forall x :: x in ps <==> HasPermission(playerId, x)
    {
      if playerId in playerPermissions then playerPermissions[playerId] else {}
    }

    predicate IsAdmin(playerId: string)
      reads this
    {
      HasPermission(playerId, Admin)
    }
  }

  /** With the built-in table, an admin holds every other role's permissions, a moderator none of admin's own. */
  lemma RolesNested()
    ensures DefaultRoles()["moderator"] <= DefaultRoles()["admin"]
    ensures DefaultRoles()["player"] <= DefaultRoles()["moderator"]
    ensures "admin" !in DefaultRoles()["moderator"]
  {
  }
}
