/** The filter endpoint `GET /user?username=&birthday=&email=&reactive=`:
    which lookup runs, what is answered, and which reactivations are issued. */
module Filter {
  import opened Users

  /** The user-service lookups the filter endpoint may issue. They are given,
      not modelled: substring matching and date matching happen elsewhere. */
  datatype Lookups = Lookups(
    byUsernameContaining: string -> seq<User>,
    allByBirthday: LocalDate -> seq<User>,
    byEmail: string -> Option<User>)

  /** The one lookup a request is answered from. */
  datatype Query =
    | UsernameContaining(fragment: string)
    | Birthday(date: LocalDate)
    | Email(address: string)
    | NoFilter

  /** The outcome of one filter request: the response, the lookup it was
      answered from, and the reactivation calls it issued, in order. */
  datatype Resolution = Resolution(response: Response, query: Query, reactivations: seq<(string, bool)>)

  /** The priority chain: username, then birthday, then email. */
  function SelectQuery(username: Option<string>, birthday: Option<LocalDate>, email: Option<string>): (q: Query)
    ensures q.UsernameContaining? <==> username.Some?
    ensures q.Birthday? <==> username.None? && birthday.Some?
    ensures q.Email? <==> username.None? && birthday.None? && email.Some?
    ensures q.UsernameContaining? ==> q.fragment == username.value
    ensures q.Birthday? ==> q.date == birthday.value
    ensures q.Email? ==> q.address == email.value
  {
    if username.Some? then UsernameContaining(username.value)
    else if birthday.Some? then Birthday(birthday.value)
    else if email.Some? then Email(email.value)
    else NoFilter
  }

  /** The users a query yields, an email match read as a list of at most one. */
  function Matches(q: Query, lookups: Lookups): (found: seq<User>) {
    match q
    case UsernameContaining(fragment) => lookups.byUsernameContaining(fragment)
    case Birthday(date) => lookups.allByBirthday(date)
    case Email(address) => (match lookups.byEmail(address) case Some(u) => [u] case None => [])
    case NoFilter => []
  }

  /** One reactivation call per user, in list order, all with the same flag. */
  function ReactivationCalls(users: seq<User>, flag: bool): (calls: seq<(string, bool)>)
    ensures |calls| == |users|
    ensures forall i :: 0 <= i < |users| ==> calls[i] == (users[i].username, flag)
  {
    if users == [] then [] else [(users[0].username, flag)] + ReactivationCalls(users[1..], flag)
  }

  lemma ReactivationCallsExtend(users: seq<User>, i: nat, flag: bool)
    requires i < |users|
    ensures ReactivationCalls(users[..i + 1], flag) == ReactivationCalls(users[..i], flag) + [(users[i].username, flag)]
  {
  }

  /** `getUsers(username, birthday, email, reactive)`, branch by branch. The
      answer is OK with exactly the list the selected lookup yields, or NOT_FOUND
      with a message when that list is empty (also when no filter is given);
      reactivation happens only on a username match with `reactive` supplied. */
  function Resolve(username: Option<string>, birthday: Option<LocalDate>, email: Option<string>,
                   reactive: Option<bool>, lookups: Lookups): (res: Resolution)
    ensures res.query == SelectQuery(username, birthday, email)
    ensures var found := Matches(res.query, lookups);
      && (res.response.status == Ok <==> found != [])
      && (found != [] ==> res.response.body == UserList(found))
      && (found == [] ==> res.response.status == NotFound && res.response.body.Error?)
      && res.reactivations ==
           if found != [] && res.query.UsernameContaining? && reactive.Some?
           then ReactivationCalls(found, reactive.value) else []
    ensures res.query.NoFilter? ==> res.response == Response(NotFound, Error("Bad RequestParams"))
  {
    if username.Some? then
      var users := lookups.byUsernameContaining(username.value);
      if users == [] then
        Resolution(Response(NotFound, Error(" User with username" + username.value + "NOT_FOUND")),
                   UsernameContaining(username.value), [])
      else
        Resolution(Response(Ok, UserList(users)), UsernameContaining(username.value),
                   if reactive.Some? then ReactivationCalls(users, reactive.value) else [])
    else if birthday.Some? then
      var users := lookups.allByBirthday(birthday.value);
      if users == [] then
        Resolution(Response(NotFound, Error("User with birthday " + birthday.value.iso + " NOT_FOUND")),
                   Birthday(birthday.value), [])
      else
        Resolution(Response(Ok, UserList(users)), Birthday(birthday.value), [])
    else if email.Some? then
      match lookups.byEmail(email.value)
      case None =>
        Resolution(Response(NotFound, Error("User with email " + email.value + " NOT_FOUND")),
                   Email(email.value), [])
      case Some(user) =>
        Resolution(Response(Ok, UserList([user])), Email(email.value), [])
    else
      Resolution(Response(NotFound, Error("Bad RequestParams")), NoFilter, [])
  }

  /** A request depends on no lookup but the one its filters select. */
  lemma OnlySelectedLookupMatters(username: Option<string>, birthday: Option<LocalDate>, email: Option<string>,
                                  reactive: Option<bool>, lookups1: Lookups, lookups2: Lookups)
    requires Matches(SelectQuery(username, birthday, email), lookups1) == Matches(SelectQuery(username, birthday, email), lookups2)
    ensures Resolve(username, birthday, email, reactive, lookups1) == Resolve(username, birthday, email, reactive, lookups2)
  {
  }

  /** With a username given, birthday and email and their lookups are ignored. */
  lemma UsernameShadowsOtherFilters(fragment: string, reactive: Option<bool>,
                                    birthday1: Option<LocalDate>, email1: Option<string>, lookups1: Lookups,
                                    birthday2: Option<LocalDate>, email2: Option<string>, lookups2: Lookups)
    requires lookups1.byUsernameContaining(fragment) == lookups2.byUsernameContaining(fragment)
    ensures Resolve(Some(fragment), birthday1, email1, reactive, lookups1)
         == Resolve(Some(fragment), birthday2, email2, reactive, lookups2)
  {
  }

  /** With no username but a birthday, email and its lookup are ignored. */
  lemma BirthdayShadowsEmail(date: LocalDate, reactive1: Option<bool>, email1: Option<string>, lookups1: Lookups,
                             reactive2: Option<bool>, email2: Option<string>, lookups2: Lookups)
    requires lookups1.allByBirthday(date) == lookups2.allByBirthday(date)
    ensures Resolve(None, Some(date), email1, reactive1, lookups1) == Resolve(None, Some(date), email2, reactive2, lookups2)
  {
  }

  /** No birthday match: NOT_FOUND with the birthday's message. */
  lemma NoBirthdayMatchMessage(date: LocalDate, email: Option<string>, reactive: Option<bool>, lookups: Lookups)
    requires lookups.allByBirthday(date) == []
    ensures Resolve(None, Some(date), email, reactive, lookups).response
         == Response(NotFound, Error("User with birthday " + date.iso + " NOT_FOUND"))
  {
  }

  /** No email match: NOT_FOUND with the email's message. */
  lemma NoEmailMatchMessage(address: string, reactive: Option<bool>, lookups: Lookups)
    requires lookups.byEmail(address).None?
    ensures Resolve(None, None, Some(address), reactive, lookups).response
         == Response(NotFound, Error("User with email " + address + " NOT_FOUND"))
  {
  }

  /** No username match: NOT_FOUND and no reactivation, whatever `reactive` is. */
  lemma NoUsernameMatchNoReactivation(fragment: string, birthday: Option<LocalDate>, email: Option<string>,
                                      reactive: Option<bool>, lookups: Lookups)
    requires lookups.byUsernameContaining(fragment) == []
    ensures var res := Resolve(Some(fragment), birthday, email, reactive, lookups);
      res.response == Response(NotFound, Error(" User with username" + fragment + "NOT_FOUND")) && res.reactivations == []
  {
  }

  /** Username matches with `reactive` supplied: one call per match, in order,
      and the matches themselves are the answer. */
  lemma OneReactivationPerMatch(fragment: string, birthday: Option<LocalDate>, email: Option<string>,
                                flag: bool, lookups: Lookups)
    requires lookups.byUsernameContaining(fragment) != []
    ensures var users := lookups.byUsernameContaining(fragment);
      var res := Resolve(Some(fragment), birthday, email, Some(flag), lookups);
      && res.response == Response(Ok, UserList(users))
      && |res.reactivations| == |users|
      && forall i :: 0 <= i < |users| ==> res.reactivations[i] == (users[i].username, flag)
  {
  }
}
