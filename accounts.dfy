/** The User table (models.py), reduced to the admin flag, and the guard of the promote and demote handlers (app.py). */
module Accounts {
  import opened Common

  /** One user row; only the admin flag takes part in the model. */
  datatype User = User(isAdmin: bool)

  /** The outcome of an admin-status change request. */
  datatype AdminChange = AccessDenied | UserNotFound | OwnStatus | Changed

  /**
   * The checks the promote and demote handlers make, in their order: the
   * requester must be an admin, the target must exist, and the target must
   * not be the requester.
   */
  function CheckAdminChange(users: map<Id, User>, actor: Id, target: Id): (r: AdminChange)
    requires actor in users
    ensures r == Changed <==> users[actor].isAdmin && target in users && target != actor
    ensures r == AccessDenied <==> !users[actor].isAdmin
    ensures r == UserNotFound <==> users[actor].isAdmin && target !in users
    ensures r == OwnStatus <==> users[actor].isAdmin && target == actor
  {
    if !users[actor].isAdmin then AccessDenied
    else if target !in users then UserNotFound
    else if target == actor then OwnStatus
    else Changed
  }

  /** The users after setting one admin flag, when the guard lets the change through. */
  function SetAdmin(users: map<Id, User>, actor: Id, target: Id, flag: bool): (r: map<Id, User>)
    requires actor in users
    ensures actor in r && r[actor] == users[actor]
    ensures r.Keys == users.Keys
    ensures forall id :: id in users && id != target ==> r[id] == users[id]
    ensures CheckAdminChange(users, actor, target) == Changed ==> r[target] == User(flag)
    ensures CheckAdminChange(users, actor, target) != Changed ==> r == users
  {
    if CheckAdminChange(users, actor, target) == Changed then users[target := User(flag)] else users
  }
}
