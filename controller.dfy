/** The REST controller: each handler as a method over the store, with the
    lookups and counts of the unseen services passed in. */
module Controller {
  import opened Users
  import opened Store
  import opened Filter
  import opened Guard

  class UserController {
    /** The user and group services. */
    const store: UserStore

    constructor (store: UserStore)
      ensures this.store == store
    {
      this.store := store;
    }

    /** `GET /user/all`, given the list `all` returned by `userService.getAll()`. */
    function GetAllUsers(all: seq<User>): (r: Response)
      ensures r.status == NoContent <==> all == []
      ensures all != [] ==> r == Response(Ok, UserList(all))
      ensures all == [] ==> r.body == Error("Bad request, NO_CONTENT")
    {
      if all == [] then Response(NoContent, Error("Bad request, NO_CONTENT"))
      else Response(Ok, UserList(all))
    }

    /** `GET /user?username=&birthday=&email=&reactive=`. */
    method GetUsers(username: Option<string>, birthday: Option<LocalDate>, email: Option<string>,
                    reactive: Option<bool>, lookups: Lookups) returns (r: Response)
      requires store.Valid()
      modifies store
      ensures store.Valid()
      ensures r == Resolve(username, birthday, email, reactive, lookups).response
      ensures store.reactivations == old(store.reactivations) + Resolve(username, birthday, email, reactive, lookups).reactivations
      ensures Resolve(username, birthday, email, reactive, lookups).reactivations == [] ==> store.users == old(store.users)
    {
      if username.Some? {
        var users := lookups.byUsernameContaining(username.value);
        if users == [] {
          return Response(NotFound, Error(" User with username" + username.value + "NOT_FOUND"));
        }
        if reactive.Some? {
          ReActivateEach(users, reactive.value);
        }
        return Response(Ok, UserList(users));
      }
      if birthday.Some? {
        var users := lookups.allByBirthday(birthday.value);
        if users == [] {
          return Response(NotFound, Error("User with birthday " + birthday.value.iso + " NOT_FOUND"));
        }
        return Response(Ok, UserList(users));
      }
      if email.Some? {
        var user := lookups.byEmail(email.value);
        if user.None? {
          return Response(NotFound, Error("User with email " + email.value + " NOT_FOUND"));
        }
        return Response(Ok, UserList([user.value]));
      }
      return Response(NotFound, Error("Bad RequestParams"));
    }

    /** The `forEach` of the username branch: one reactivation per user, in order. */
    method ReActivateEach(users: seq<User>, flag: bool)
      requires store.Valid()
      modifies store
      ensures store.Valid()
      ensures store.reactivations == old(store.reactivations) + ReactivationCalls(users, flag)
    {
      var i := 0;
      while i < |users|
        invariant 0 <= i <= |users|
        invariant store.Valid()
        invariant store.reactivations == old(store.reactivations) + ReactivationCalls(users[..i], flag)
      {
        ReactivationCallsExtend(users, i, flag);
        store.ReActivateUserByUsername(users[i].username, flag);
        i := i + 1;
      }
      assert users[..i] == users;
    }

    /** `GET /user/{id}`. */
    function GetUser(id: int): (r: Response)
      reads store
      ensures r.status == Ok <==> id in store.users
      ensures r.status == Ok ==> r.body == OneUser(store.users[id])
      ensures r.status != Ok ==> r == Response(NotFound, NoBody)
    {
      match store.GetById(id)
      case None => Response(NotFound, NoBody)
      case Some(user) => Response(Ok, OneUser(user))
    }

    /** `POST /user/`: `alreadyExists` is the answer of `userService.isUserExist(user)`
        and `assignedId` the id the persistence layer gives the new record. */
    method CreateUser(user: User, alreadyExists: bool, assignedId: int) returns (r: Response)
      requires store.Valid()
      modifies store
      ensures store.Valid()
      ensures store.reactivations == old(store.reactivations)
      ensures alreadyExists ==> r == Response(Conflict, NoBody) && store.users == old(store.users)
      ensures !alreadyExists ==>
        && r == Response(Created, Location(assignedId))
        && store.users == old(store.users)[assignedId := user.(id := assignedId)]
    {
      if alreadyExists {
        return Response(Conflict, NoBody);
      }
      var saved := store.Save(user, assignedId);
      return Response(Created, Location(saved.id));
    }

    /** `PUT /user/{id}`: only the address of the stored record changes. */
    method UpdateUser(id: int, user: User) returns (r: Response)
      requires store.Valid()
      modifies store
      ensures store.Valid()
      ensures store.reactivations == old(store.reactivations)
      ensures id !in old(store.users) ==> r == Response(NotFound, NoBody) && store.users == old(store.users)
      ensures id in old(store.users) ==>
        var updated := WithAddress(old(store.users)[id], user);
        && r == Response(Ok, OneUser(updated))
        && store.users == old(store.users)[id := updated]
    {
      var current := store.GetById(id);
      if current.None? {
        return Response(NotFound, NoBody);
      }
      var updated := WithAddress(current.value, user);
      store.Update(updated);
      return Response(Ok, OneUser(updated));
    }

    /** `DELETE /user/{id}`: `adminCount` is the answer of `groupService.countAdmins()`. */
    method DeleteUser(id: int, adminCount: int) returns (r: Reply)
      requires store.Valid()
      modifies store
      ensures store.Valid()
      ensures store.reactivations == old(store.reactivations)
      ensures r == DeleteReply(Decide(old(store.GetById(id)), adminCount))
      ensures store.users ==
        if Decide(old(store.GetById(id)), adminCount) == Permitted then old(store.users) - {id} else old(store.users)
    {
      var found := store.GetById(id);
      if found.None? {
        return Returned(Response(NotFound, NoBody));
      }
      if adminCount <= 1 {
        var isAdmin := ScanAuthorities(found.value.authorities);
        if isAdmin.None? {
          return Thrown(NullPointerException);
        }
        if isAdmin.value {
          return Returned(Response(NotFound, NoBody));
        }
      }
      store.DeleteById(id);
      return Returned(Response(NoContent, NoBody));
    }
  }
}
