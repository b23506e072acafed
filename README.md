# User REST controller: a Dafny model

This project models the request-handling decisions of `UserController`, the
one REST controller of a small Spring web application for a "User" resource.
It covers the following handlers:

- listing all users (`GET /user/all`);
- filtering users by username fragment, birthday or email, with an optional
  reactivation of every username match (`GET /user`);
- fetching one user (`GET /user/{id}`);
- creating a user (`POST /user/`);
- updating a user's address (`PUT /user/{id}`);
- deleting a user, unless it is the last admin (`DELETE /user/{id}`).

The user and group services behind the controller are an abstract store: the
class `Store.UserStore` holds the users in a `map<int, User>` keyed by id. It
also keeps a log of every `reActivateUserByUsername(username, flag)` call. The
service answers the model cannot see are passed in as parameters:

- the three filter lookups, as the functions of a `Filter.Lookups` value;
- `getAll()`, `isUserExist(user)` and `countAdmins()`;
- the id that `saveUser` assigns to a new record.

Responses are a status (`Ok`, `NoContent`, `NotFound`, `Conflict`,
`Created`) and a body: nothing, a user list, one user, an error message, or a
Location header naming `/user/{id}`.

Files:

- `users.dfy` (module `Users`): the user record, the address update, the
  response types.
- `store.dfy` (module `Store`): the store class. Its invariant `Valid()` says
  every record is stored under its own id.
- `filter.dfy` (module `Filter`): the filter endpoint as the pure function
  `Resolve`, with its priority chain and its lemmas.
- `guard.dfy` (module `Guard`): the last-admin guard, as the code runs it.
- `controller.dfy` (module `Controller`): the class `UserController`. The
  state-changing handlers are methods over the store, proved against the
  functions above; `GetAllUsers` and `GetUser` are functions.

Two behaviours of the delete guard are reproduced as written, not corrected:

- The `forEach` over the target's authorities overwrites a single
  `Boolean` slot. Only the last authority in iteration order therefore
  decides whether the user counts as an admin (`Guard.OverwriteLastWins`).
  An admin whose "ROLE_ADMIN" comes before another authority can be deleted
  even when it is the last admin (`Guard.EarlierAdminDoesNotBlock`).
- With an empty authority set and at most one admin, the slot stays `null`.
  The unboxing in `if (isAdmin[0])` then throws. The model answers
  `Thrown(NullPointerException)` there and leaves the store unchanged.

When no filter parameter is given, the filter endpoint answers NOT_FOUND with
the message "Bad RequestParams". A missing filter is a client error, yet the
code answers 404 NOT_FOUND rather than 400; the model follows the code.

## Model

| member | source | states |
|---|---|---|
| Users.WithAddress | src/main/java/ru/returnonintelligence/testtask/rest/UserController.java:157-159 | the updated record has the input's address; every other field keeps its stored value |
| Store.UserStore.GetById | src/main/java/ru/returnonintelligence/testtask/rest/UserController.java:151 | a record is found exactly when the id is stored; a found record carries that id |
| Store.UserStore.Save | src/main/java/ru/returnonintelligence/testtask/rest/UserController.java:137-140 | the record is stored under the assigned id, carrying that id; nothing else changes |
| Store.UserStore.Update | src/main/java/ru/returnonintelligence/testtask/rest/UserController.java:161 | the record replaces the one stored under its id; the invariant is kept |
| Store.UserStore.DeleteById | src/main/java/ru/returnonintelligence/testtask/rest/UserController.java:187 | exactly that id is removed; the invariant is kept |
| Store.UserStore.ReActivateUserByUsername | src/main/java/ru/returnonintelligence/testtask/rest/UserController.java:70 | the call log grows by exactly this call |
| Filter.SelectQuery | src/main/java/ru/returnonintelligence/testtask/rest/UserController.java:61-93 | priority chain: username if given, else birthday if given, else email if given, else no filter |
| Filter.ReactivationCalls | src/main/java/ru/returnonintelligence/testtask/rest/UserController.java:69-71 | one call per user, in list order, each with that user's username and the same flag |
| Filter.Resolve | src/main/java/ru/returnonintelligence/testtask/rest/UserController.java:61-93 | the query is the selected one; OK exactly when its lookup yields users, with exactly that list; otherwise NOT_FOUND with a message; reactivations only for username matches with `reactive` given; no filter gives NOT_FOUND "Bad RequestParams". The selected list is `Matches` of the query, an email match read as a one-element list (line 91) |
| Filter.OnlySelectedLookupMatters | src/main/java/ru/returnonintelligence/testtask/rest/UserController.java:61-93 | two lookup sets that agree on the selected query give the same response and the same reactivations |
| Filter.UsernameShadowsOtherFilters | src/main/java/ru/returnonintelligence/testtask/rest/UserController.java:61-74 | with a username given, birthday, email and their lookups do not affect the outcome |
| Filter.BirthdayShadowsEmail | src/main/java/ru/returnonintelligence/testtask/rest/UserController.java:75-83 | with no username but a birthday, neither email nor its lookup nor `reactive` affects the outcome |
| Filter.NoBirthdayMatchMessage | src/main/java/ru/returnonintelligence/testtask/rest/UserController.java:77-80 | an empty birthday match gives NOT_FOUND with the message "User with birthday <date> NOT_FOUND" |
| Filter.NoEmailMatchMessage | src/main/java/ru/returnonintelligence/testtask/rest/UserController.java:86-89 | an absent email match gives NOT_FOUND with the message "User with email <email> NOT_FOUND" |
| Filter.NoUsernameMatchNoReactivation | src/main/java/ru/returnonintelligence/testtask/rest/UserController.java:63-67 | an empty username match gives NOT_FOUND with its message and no reactivation, even with `reactive` given |
| Filter.OneReactivationPerMatch | src/main/java/ru/returnonintelligence/testtask/rest/UserController.java:63-73 | for non-empty username matches and a flag: OK with exactly the matches, and one reactivation per match in order with that flag |
| Guard.OverwriteLastWins | src/main/java/ru/returnonintelligence/testtask/rest/UserController.java:177-180 | `Overwrite`, the `forEach` as a fold that overwrites the slot per authority, and `AdminFlag`, that fold from the null slot, end with the slot null for no authorities, else "last authority is ROLE_ADMIN" |
| Guard.ScanAuthorities | src/main/java/ru/returnonintelligence/testtask/rest/UserController.java:177-180 | the loop's final slot: null exactly when there are no authorities, otherwise true exactly when the last authority is "ROLE_ADMIN" |
| Guard.Decide | src/main/java/ru/returnonintelligence/testtask/rest/UserController.java:171-188 | missing exactly when the id is absent; always deleted when more than one admin; null slot exactly for at most one admin and no authorities; blocked only an admin when at most one admin |
| Guard.DeleteReply | src/main/java/ru/returnonintelligence/testtask/rest/UserController.java:172-188 | an exception exactly for the null slot; NO_CONTENT exactly when deleted; every other reply is NOT_FOUND with no body |
| Guard.SoleAdminIsKept | src/main/java/ru/returnonintelligence/testtask/rest/UserController.java:176-184 | at most one admin and last authority "ROLE_ADMIN": the delete is blocked |
| Guard.EarlierAdminDoesNotBlock | src/main/java/ru/returnonintelligence/testtask/rest/UserController.java:176-185 | at most one admin, an admin whose last authority is not "ROLE_ADMIN": the delete goes ahead |
| Guard.GuardAgainstIsAdmin | src/main/java/ru/returnonintelligence/testtask/rest/UserController.java:176-185 | the guard never blocks a non-admin, and with one authority it blocks exactly the admins |
| Controller.UserController.GetAllUsers | src/main/java/ru/returnonintelligence/testtask/rest/UserController.java:42-52 | NO_CONTENT with "Bad request, NO_CONTENT" exactly when the service lists no user, otherwise OK with the list |
| Controller.UserController.GetUsers | src/main/java/ru/returnonintelligence/testtask/rest/UserController.java:55-94 | the response and the reactivation log are those of `Resolve`; without reactivations the users are unchanged |
| Controller.UserController.ReActivateEach | src/main/java/ru/returnonintelligence/testtask/rest/UserController.java:68-72 | the log grows by exactly one call per user, in list order |
| Controller.UserController.GetUser | src/main/java/ru/returnonintelligence/testtask/rest/UserController.java:113-122 | OK with the stored user exactly when the id is stored, otherwise NOT_FOUND with no body |
| Controller.UserController.CreateUser | src/main/java/ru/returnonintelligence/testtask/rest/UserController.java:129-142 | an existing user gives CONFLICT and no change; otherwise the record is stored under the assigned id and the answer is CREATED with the location of that id |
| Controller.UserController.UpdateUser | src/main/java/ru/returnonintelligence/testtask/rest/UserController.java:148-163 | an absent id gives NOT_FOUND and no change; otherwise only the stored record's address changes and the body is the updated record |
| Controller.UserController.DeleteUser | src/main/java/ru/returnonintelligence/testtask/rest/UserController.java:168-189 | the reply is that of `Decide`; exactly that id is removed when deletion is permitted, and nothing otherwise |

## Left out

- `whoami` (`user()`): it only returns the principal of the framework's security context.
- Logging, request mapping, security annotations, parameter parsing, ISO date binding and JSON serialisation are framework behaviour.
- The services' own logic is not part of this model: substring and date matching, `isUserExist`, admin counting, persistence and id assignment. Their answers are parameters.
- `getAll()` answers with a list whose order the model cannot see. `GetAllUsers` takes that list as given and does not relate it to the store.
- Store.UserStore.ReActivateUserByUsername: promises only the call log and the store invariant, not what reactivation does to the stored users, which happens in code outside this model.
- Controller.UserController.GetUsers: for the same reason says nothing about the stored users after reactivation calls.
- The URI built by `UriComponentsBuilder` is reduced to the id it names, and the `CustomErrorType` wire format to its message.
- `LocalDate` is modelled by its ISO text only. Ids are mathematical integers, not 64-bit `long` values.
- The entity objects themselves are values here. `updateUser` setting the address on the fetched object, and any aliasing of that object with the persistence layer, is modelled as a new record value passed to `updateUser`.
- Controller.UserController.CreateUser: the Location header is built from `user.getId()` of the submitted object after `saveUser`, whose return value is ignored. The model assumes `saveUser` writes the assigned id back into that object, and names the assigned id; that write-back is code outside this model.
- Authority sets are lists in their iteration order, because that order decides the guard; the order a Java set iterates in is not modelled.
- An exception escaping a handler is modelled only as `Thrown(NullPointerException)`; the HTTP response the framework makes of it is not.
