/** The last-admin guard of `deleteUser`, as the code has it: a `forEach` over
    the target's authorities overwrites one Boolean slot, so only the last
    authority iterated decides, and with no authorities the slot stays null. */
module Guard {
  import opened Users

  /** The slot `isAdmin[0]` after the authorities `rest` are iterated, starting
      from `flag`; `None` is the null of a fresh `Boolean[1]`. */
  function Overwrite(flag: Option<bool>, rest: seq<string>): (slot: Option<bool>)
    decreases |rest|
  {
    if rest == [] then flag else Overwrite(Some(rest[0] == RoleAdmin), rest[1..])
  }

  /** The slot after iterating all of `authorities` from the fresh array. */
  function AdminFlag(authorities: seq<string>): (slot: Option<bool>) {
    Overwrite(None, authorities)
  }

  /** Only the last authority iterated decides. */
  lemma {:induction false} OverwriteLastWins(flag: Option<bool>, rest: seq<string>)
    ensures Overwrite(flag, rest) == if rest == [] then flag else Some(rest[|rest| - 1] == RoleAdmin)
    decreases |rest|
  {
    if |rest| > 1 {
      OverwriteLastWins(Some(rest[0] == RoleAdmin), rest[1..]);
      assert rest[1..][|rest| - 2] == rest[|rest| - 1];
    }
  }

  /** The `forEach` loop itself. */
  method ScanAuthorities(authorities: seq<string>) returns (isAdmin: Option<bool>)
    ensures isAdmin == AdminFlag(authorities)
    ensures isAdmin.None? <==> authorities == []
    ensures isAdmin.Some? ==> (isAdmin.value <==> authorities[|authorities| - 1] == RoleAdmin)
  {
    isAdmin := None;
    var i := 0;
    while i < |authorities|
      invariant 0 <= i <= |authorities|
      invariant Overwrite(isAdmin, authorities[i..]) == AdminFlag(authorities)
    {
      assert authorities[i..][1..] == authorities[i + 1..];
      isAdmin := Some(authorities[i] == RoleAdmin);
      i := i + 1;
    }
    assert authorities[i..] == [];
    OverwriteLastWins(None, authorities);
  }

  /** How a delete request for an id ends. */
  datatype Verdict =
    | Missing     // no user with that id
    | Blocked     // at most one admin left and the flag says admin
    | NullFlag    // at most one admin left and no authority: `if (isAdmin[0])` unboxes null
    | Permitted   // the user is deleted

  /** The decision of `deleteUser` for the looked-up user `found` and the
      admin count `adminCount` reported by the group service. */
  function Decide(found: Option<User>, adminCount: int): (v: Verdict)
    ensures v == Missing <==> found.None?
    ensures found.Some? && adminCount > 1 ==> v == Permitted
    ensures v == NullFlag <==> found.Some? && adminCount <= 1 && found.value.authorities == []
    ensures v == Blocked ==> adminCount <= 1 && IsAdmin(found.value)
  {
    if found.None? then Missing
    else if adminCount > 1 then Permitted
    else
      OverwriteLastWins(None, found.value.authorities);
      match AdminFlag(found.value.authorities)
      case None => NullFlag
      case Some(admin) => if admin then Blocked else Permitted
  }

  /** The reply `deleteUser` gives for each verdict. */
  function DeleteReply(v: Verdict): (r: Reply)
    ensures r.Thrown? <==> v == NullFlag
    ensures r == Returned(Response(NoContent, NoBody)) <==> v == Permitted
    ensures r.Returned? ==> r.response.body == NoBody && r.response.status in {NoContent, NotFound}
  {
    match v
    case Missing => Returned(Response(NotFound, NoBody))
    case Blocked => Returned(Response(NotFound, NoBody))
    case NullFlag => Thrown(NullPointerException)
    case Permitted => Returned(Response(NoContent, NoBody))
  }

  /** A last admin whose last authority is "ROLE_ADMIN" is kept. */
  lemma SoleAdminIsKept(user: User, adminCount: int)
    requires adminCount <= 1
    requires user.authorities != [] && user.authorities[|user.authorities| - 1] == RoleAdmin
    ensures Decide(Some(user), adminCount) == Blocked
  {
    OverwriteLastWins(None, user.authorities);
  }

  /** The quirk: an admin whose "ROLE_ADMIN" is followed by another authority
      is deleted even when it is the last admin. */
  lemma EarlierAdminDoesNotBlock(user: User, adminCount: int)
    requires adminCount <= 1
    requires IsAdmin(user)
    requires user.authorities[|user.authorities| - 1] != RoleAdmin
    ensures Decide(Some(user), adminCount) == Permitted
  {
    OverwriteLastWins(None, user.authorities);
  }

  /** Against the reference reading (any authority is "ROLE_ADMIN"): the guard
      never blocks a non-admin, and it blocks exactly the admins when the user
      holds a single authority. */
  lemma GuardAgainstIsAdmin(user: User, adminCount: int)
    ensures Decide(Some(user), adminCount) == Blocked ==> adminCount <= 1 && IsAdmin(user)
    ensures |user.authorities| == 1 ==>
      (Decide(Some(user), adminCount) == Blocked <==> adminCount <= 1 && IsAdmin(user))
  {
    OverwriteLastWins(None, user.authorities);
  }
}
