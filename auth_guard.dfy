/** The two route guards, as decisions over the signed-in user. */
module AuthGuard {
  import opened Wrappers

  /** The session's user record, reduced to its id. */
  datatype UserRecord = UserRecord(id: string)

  /** A guard lets navigation through, or redirects to the given route commands. */
  datatype GuardResult = Allow | Redirect(commands: seq<string>)

  /** `isAuthenticated`: there is a current user. */
  predicate IsAuthenticated(currentUser: Option<UserRecord>): (b: bool)
    ensures b <==> currentUser.Some?
  {
    currentUser != None
  }

  /** `authGuard`: signed-in users pass, everyone else goes to the login page. */
  function AuthGuardDecision(currentUser: Option<UserRecord>): (r: GuardResult)
    ensures r == Allow <==> currentUser.Some?
    ensures r != Allow ==> r == Redirect(["/auth/login"])
  {
    if IsAuthenticated(currentUser) then Allow else Redirect(["/auth/login"])
  }

  /** `guestGuard`: signed-out visitors pass, signed-in users go home. */
  function GuestGuardDecision(currentUser: Option<UserRecord>): (r: GuardResult)
    ensures r == Allow <==> currentUser.None?
    ensures r != Allow ==> r == Redirect(["/"])
  {
    if IsAuthenticated(currentUser) then Redirect(["/"]) else Allow
  }

  /** In every session state exactly one of the two guards lets navigation through. */
  lemma ExactlyOneGuardAllows(currentUser: Option<UserRecord>)
    ensures (AuthGuardDecision(currentUser) == Allow) != (GuestGuardDecision(currentUser) == Allow)
  {
  }
}
