/**
 * The calls the command layer makes to its collaborators: the permission
 * check of the perms-srv client and the operations of the role-srv client.
 * Each constructor records the exact arguments passed; what the collaborator
 * does with them is not part of this model.
 */
module Remote {
  datatype Call =
    | CanPerform(sender: string)
    | AddRole(sender: string, shortName: string, roleType: string, filterA: string,
              filterB: string, joinable: bool, roleName: string, sig: bool)
    | ListRoles(all: bool, sig: bool)
    | RemoveRole(sender: string, shortName: string, sig: bool)
    | RoleInfo(sender: string, shortName: string, sig: bool)
    | SyncRoles(sender: string)
    | Set(sender: string, shortName: string, key: string, value: string)
    | GetMembers(shortName: string)
    | ListUserRoles(userId: string, sig: bool)
    | GetRoleKeys
    | GetRoleTypes

  /**
   * The role-service calls that can change roles. `SyncRoles` asks the
   * role-srv client to sync roles to the chat service, which can change them.
   */
  predicate IsMutation(c: Call)
  {
    c.AddRole? || c.RemoveRole? || c.Set? || c.SyncRoles?
  }
}
