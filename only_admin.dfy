/** The admin gate placed after the JWT middleware on admin routes. */
module OnlyAdmin {
  import opened Wrappers
  import opened Tables

  /** Whether the gate calls `next()`; otherwise it answers 403 and nothing else runs. */
  datatype Gate = Next | Forbidden

  /** `onlyAdmin`: a caller of tier `admin` or `superadmin` passes, anyone else (or no caller) gets 403. */
  function OnlyAdmin(caller: Option<User>): (g: Gate)
    ensures g == Next <==> caller.Some? && (caller.value.userType == "admin" || caller.value.userType == "superadmin")
    ensures caller.None? ==> g == Forbidden
  {
    if caller.None? || (caller.value.userType != "superadmin" && caller.value.userType != "admin") then Forbidden
    else Next
  }

  /** The customer tiers and the transitional ones are all refused. */
  lemma NonAdminTiersForbidden(u: User)
    requires u.userType in {"registered", "pro", "premium", "pending", "guest", ""}
    ensures OnlyAdmin(Some(u)) == Forbidden
  {
  }
}
