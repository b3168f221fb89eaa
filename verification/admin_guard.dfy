/** The admin session guard (components/admin-guard.tsx). Browser storage is
    a map from key to text, `now` is the clock reading in milliseconds. */
module AdminGuard {
  import opened Optional
  import opened Text

  type Storage = map<string, string>

  const AdminKey: string := "isAdmin"
  const LoginTimeKey: string := "adminLoginTime"

  /** A session lasts 24 hours. */
  const SessionMs: int := 24 * 60 * 60 * 1000

  /** The guard's decision: not yet made (first render), or made. */
  datatype Access = Undecided | Granted | Denied

  datatype Check = Check(access: Access, storage: Storage)

  /** The admin flag is set and a login time is recorded. */
  predicate Flagged(storage: Storage) {
    && AdminKey in storage && storage[AdminKey] == "true"
    && LoginTimeKey in storage && storage[LoginTimeKey] != ""
  }

  /** The recorded session is younger than a day. A login time that does
      not parse makes the comparison with NaN false. */
  predicate Fresh(storage: Storage, now: int)
    requires LoginTimeKey in storage
  {
    var t := ParseInt(storage[LoginTimeKey]);
    t.Some? && now - t.value < SessionMs
  }

  /** `checkAdminStatus`: access for a flagged, fresh session; a flagged but
      stale (or unreadable) session is forgotten; anything else is denied
      without touching storage. */
  function CheckAdminStatus(storage: Storage, now: int): (r: Check)
    ensures r.access != Undecided
    ensures r.access == Granted <==> Flagged(storage) && Fresh(storage, now)
    ensures Flagged(storage) && !Fresh(storage, now) ==>
      r.storage == storage - {AdminKey, LoginTimeKey}
    ensures !(Flagged(storage) && !Fresh(storage, now)) ==> r.storage == storage
  {
    if Flagged(storage) then
      if Fresh(storage, now) then Check(Granted, storage)
      else Check(Denied, storage - {AdminKey, LoginTimeKey})
    else Check(Denied, storage)
  }

  /** A denied check leaves no session behind that a later check could
      accept: only a new login grants access again. */
  lemma DeniedStaysDenied(storage: Storage, now: int, later: int)
    requires CheckAdminStatus(storage, now).access == Denied
    ensures CheckAdminStatus(CheckAdminStatus(storage, now).storage, later).access == Denied
  {
  }

  /** Exactly one day after login the session has expired. */
  lemma ExpiresAtOneDay(storage: Storage, login: nat)
    requires Flagged(storage) && storage[LoginTimeKey] == NatToString(login)
    ensures CheckAdminStatus(storage, login + SessionMs).access == Denied
    ensures CheckAdminStatus(storage, login + SessionMs).storage == storage - {AdminKey, LoginTimeKey}
  {
    ParseIntNatToString(login);
  }

  /** Whether the guard sends the browser to the login page. */
  function RedirectsToLogin(access: Access): (r: bool)
    ensures r <==> access == Denied
  {
    access == Denied
  }

  /** After the check, the guard sends the browser to the login page exactly
      when there is no flagged session younger than a day; it never redirects
      while still deciding. */
  lemma CheckRedirectsUnlessSession(storage: Storage, now: int)
    ensures RedirectsToLogin(CheckAdminStatus(storage, now).access) <==> !(Flagged(storage) && Fresh(storage, now))
    ensures !RedirectsToLogin(Undecided)
  {
  }

  /** What the guard renders. */
  datatype View = Loader | Nothing | Children

  function Render(access: Access): (r: View)
    ensures r == Children <==> access == Granted
    ensures r == Loader <==> access == Undecided
  {
    match access
    case Undecided => Loader
    case Denied => Nothing
    case Granted => Children
  }
}
