/** The user and group services behind the controller, as an abstract store. */
module Store {
  import opened Users

  class UserStore {
    /** The stored users, by id. */
    var users: map<int, User>
    /** Every `reActivateUserByUsername(username, flag)` call, in order. */
    var reactivations: seq<(string, bool)>

    /** Every record is stored under its own id. */
    ghost predicate Valid()
      reads this
    {
      forall k :: k in users ==> users[k].id == k
    }

    constructor ()
      ensures Valid()
      ensures users == map[] && reactivations == []
    {
      users := map[];
      reactivations := [];
    }

    /** `userService.getById(id)`. */
    function GetById(id: int): (found: Option<User>)
      reads this
      ensures found.Some? <==> id in users
      ensures found.Some? ==> found.value == users[id]
      ensures Valid() && found.Some? ==> found.value.id == id
    {
      if id in users then Some(users[id]) else None
    }

    /** `userService.saveUser(user)`: the persistence layer assigns the id
        `assignedId` (chosen by code outside this model) and stores the record. */
    method Save(user: User, assignedId: int) returns (saved: User)
      requires Valid()
      modifies this
      ensures Valid()
      ensures saved == user.(id := assignedId)
      ensures users == old(users)[assignedId := saved]
      ensures reactivations == old(reactivations)
    {
      saved := user.(id := assignedId);
      users := users[assignedId := saved];
    }

    /** `userService.updateUser(user)`: the record replaces the one under its id. */
    method Update(user: User)
      requires Valid()
      modifies this
      ensures Valid()
      ensures users == old(users)[user.id := user]
      ensures reactivations == old(reactivations)
    {
      users := users[user.id := user];
    }

    /** `userService.deleteUserById(id)`. */
    method DeleteById(id: int)
      requires Valid()
      modifies this
      ensures Valid()
      ensures users == old(users) - {id}
      ensures reactivations == old(reactivations)
    {
      users := users - {id};
    }

    /** `userService.reActivateUserByUsername(username, flag)`: the call is
        logged; what it does to the stored users is not part of this model. */
    method ReActivateUserByUsername(username: string, flag: bool)
      requires Valid()
      modifies this
      ensures Valid()
      ensures reactivations == old(reactivations) + [(username, flag)]
    {
      reactivations := reactivations + [(username, flag)];
    }
  }
}
