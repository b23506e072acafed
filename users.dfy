/** Entities and HTTP-shaped outcomes of the user REST controller. */
module Users {

  datatype Option<+T> = None | Some(value: T)

  /** A `LocalDate`, known only by its ISO-8601 text (for example "2005-09-20").
      The controller compares dates for equality only, through the user service,
      and prints them in messages. */
  datatype LocalDate = LocalDate(iso: string)

  /** The authority label that marks an administrator. */
  const RoleAdmin: string := "ROLE_ADMIN"

  /** A user record as the persistence layer stores it. `authorities` holds the
      granted authority labels in the order in which the authority set iterates
      them. */
  datatype User = User(
    id: int,
    username: string,
    email: string,
    birthday: LocalDate,
    address: string,
    authorities: seq<string>,
    active: bool)

  /** The holder of an authority: the reference reading of "is an admin". */
  predicate IsAdmin(user: User) {
    RoleAdmin in user.authorities
  }

  /** `currentUser.setAddress(user.getAddress())`: the stored record takes the
      address of the submitted one and keeps every other field. */
  function WithAddress(current: User, input: User): (updated: User)
    ensures updated.address == input.address
    ensures updated.(address := current.address) == current
  {
    current.(address := input.address)
  }

  /** The HTTP statuses the controller answers with. */
  datatype Status = Ok | NoContent | NotFound | Conflict | Created

  datatype Body =
    | NoBody
    | UserList(users: seq<User>)
    | OneUser(user: User)
    | Error(message: string)   // a CustomErrorType carrying `message`
    | Location(id: int)        // a Location header naming /user/{id}

  datatype Response = Response(status: Status, body: Body)

  datatype Exception = NullPointerException

  /** What a handler does: return a response, or let an exception escape. */
  datatype Reply = Returned(response: Response) | Thrown(exception: Exception)
}
